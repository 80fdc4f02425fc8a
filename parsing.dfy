/** The .NET parsers the camera files call: `DateTime.ParseExact` (and
    `TryParseExact`) with the invariant culture for the two fixed formats
    `yyyy:MM:dd HH:mm:ss` and `ddd MMM dd HH.mm.ss yyyy`, and `int.Parse`,
    together with the 32-bit integer arithmetic the callers do on its result. */
module Parsing {
  import opened Wrappers
  import opened Text
  import opened Calendar

  const Int32Min: int := -0x8000_0000
  const Int32Max: int := 0x7FFF_FFFF

  predicate IsInt32(x: int)
  {
    Int32Min <= x <= Int32Max
  }

  /** Unchecked 32-bit arithmetic (the C# default): the result modulo 2^32. */
  function WrapInt32(x: int): (r: int)
    ensures IsInt32(r)
    ensures (r - x) % 0x1_0000_0000 == 0
    ensures IsInt32(x) ==> r == x
  {
    (x - Int32Min) % 0x1_0000_0000 + Int32Min
  }

  /** The white space `int.Parse` skips before and after the number: the
      space and the control characters tab through carriage return. */
  predicate IsNumberWhite(c: char)
  {
    c == ' ' || '\t' <= c <= '\r'
  }

  predicate AllNumberWhite(s: string)
  {
    forall i :: 0 <= i < |s| ==> IsNumberWhite(s[i])
  }

  /** The text without the number white space it starts with. */
  function TrimLeadingWhite(s: string): (r: string)
    ensures r != [] ==> !IsNumberWhite(r[0])
  {
    if s != [] && IsNumberWhite(s[0]) then TrimLeadingWhite(s[1..]) else s
  }

  /** The text without the number white space it ends with. */
  function TrimTrailingWhite(s: string): (r: string)
    ensures r != [] ==> !IsNumberWhite(r[|r| - 1])
  {
    if s != [] && IsNumberWhite(s[|s| - 1]) then TrimTrailingWhite(s[..|s| - 1]) else s
  }

  /** What `int.Parse` reads: the text between the surrounding white space. */
  function TrimWhite(s: string): string
  {
    TrimTrailingWhite(TrimLeadingWhite(s))
  }

  /** The digits after an optional leading sign. */
  function UnsignedPart(t: string): string
  {
    if |t| > 0 && (t[0] == '-' || t[0] == '+') then t[1..] else t
  }

  /** An optional sign followed by at least one decimal digit. */
  predicate IsIntegerText(t: string)
  {
    UnsignedPart(t) != [] && AllDigits(UnsignedPart(t))
  }

  /** The value such a text denotes, before any range check. */
  function IntegerTextValue(t: string): int
    requires IsIntegerText(t)
  {
    var magnitude: int := DigitsValue(UnsignedPart(t));
    if t[0] == '-' then -magnitude else magnitude
  }

  /** `int.Parse(s)` with the default `NumberStyles.Integer`: white space,
      then an optional sign and at least one decimal digit, then white space.
      A value outside the 32-bit range throws `OverflowException`; any other
      text throws `FormatException`. */
  function ParseInt32(s: string): (r: Outcome<int>)
    ensures r.Ok? <==> IsIntegerText(TrimWhite(s)) && IsInt32(IntegerTextValue(TrimWhite(s)))
    ensures r.Ok? ==> r.value == IntegerTextValue(TrimWhite(s))
    ensures r.Throws? && !IsIntegerText(TrimWhite(s)) ==> r.exn.kind == FormatException
    ensures r.Throws? && IsIntegerText(TrimWhite(s)) ==> r.exn.kind == OverflowException
  {
    ParseNumber(TrimWhite(s))
  }

  /** The parse of the text between the white space. */
  function ParseNumber(t: string): Outcome<int>
  {
    var negative := |t| > 0 && t[0] == '-';
    var digits := if |t| > 0 && (t[0] == '-' || t[0] == '+') then t[1..] else t;
    if digits == [] || !AllDigits(digits) then
      Raise(FormatException, "The input string was not in a correct format.")
    else
      var magnitude: int := DigitsValue(digits);
      var v := if negative then -magnitude else magnitude;
      if IsInt32(v) then Ok(v)
      else Raise(OverflowException, "Value was either too large or too small for an Int32.")
  }

  /** Leading white space is dropped whatever follows it. */
  lemma {:induction false} TrimLeadingSkipsWhite(w: string, x: string)
    requires AllNumberWhite(w)
    ensures TrimLeadingWhite(w + x) == TrimLeadingWhite(x)
  {
    if w == [] {
      assert w + x == x;
    } else {
      assert (w + x)[1..] == w[1..] + x;
      assert IsNumberWhite((w + x)[0]);
      TrimLeadingSkipsWhite(w[1..], x);
    }
  }

  /** Trailing white space is dropped whatever precedes it. */
  lemma {:induction false} TrimTrailingSkipsWhite(x: string, w: string)
    requires AllNumberWhite(w)
    ensures TrimTrailingWhite(x + w) == TrimTrailingWhite(x)
  {
    if w == [] {
      assert x + w == x;
    } else {
      assert (x + w)[..|x + w| - 1] == x + w[..|w| - 1];
      assert IsNumberWhite((x + w)[|x + w| - 1]);
      TrimTrailingSkipsWhite(x, w[..|w| - 1]);
    }
  }

  /** Trimming the front of `s + b` trims the front of `s`, or, when `s` is
      all white space, the front of `b`. */
  lemma {:induction false} TrimLeadingAppend(s: string, b: string)
    ensures TrimLeadingWhite(s + b)
            == if TrimLeadingWhite(s) != [] then TrimLeadingWhite(s) + b else TrimLeadingWhite(b)
  {
    if s == [] {
      assert s + b == b;
    } else if IsNumberWhite(s[0]) {
      assert (s + b)[1..] == s[1..] + b;
      TrimLeadingAppend(s[1..], b);
    } else {
      assert (s + b)[0] == s[0];
    }
  }

  /** White space around the number changes nothing: `" 42"`, `"42 "` and
      `"42"` parse alike. */
  lemma ParseIgnoresSurroundingWhite(before: string, s: string, after: string)
    requires AllNumberWhite(before) && AllNumberWhite(after)
    ensures ParseInt32(before + s + after) == ParseInt32(s)
  {
    TrimWhiteIgnoresSurroundingWhite(before, s, after);
  }

  lemma TrimWhiteIgnoresSurroundingWhite(before: string, s: string, after: string)
    requires AllNumberWhite(before) && AllNumberWhite(after)
    ensures TrimWhite(before + s + after) == TrimWhite(s)
  {
    assert before + s + after == before + (s + after);
    TrimLeadingSkipsWhite(before, s + after);
    TrimLeadingAppend(s, after);
    if TrimLeadingWhite(s) != [] {
      TrimTrailingSkipsWhite(TrimLeadingWhite(s), after);
    } else {
      TrimLeadingSkipsWhite(after, []);
      assert after + [] == after;
    }
  }

  /** A text with no white space at either end is read as it stands. */
  lemma TrimWhiteUnchanged(s: string)
    requires s != [] && !IsNumberWhite(s[0]) && !IsNumberWhite(s[|s| - 1])
    ensures TrimWhite(s) == s
  {
  }

  /** `int.Parse` reads back what `ToString` writes, for every 32-bit value. */
  lemma ParseInt32RoundTrip(n: int)
    requires IsInt32(n)
    ensures ParseInt32(IntToString(n)) == Ok(n)
  {
    var s := IntToString(n);
    IntToStringEnds(n);
    TrimWhiteUnchanged(s);
    ParseNumberRoundTrip(n);
  }

  lemma IntToStringEnds(n: int)
    ensures var s := IntToString(n); s != [] && (s[0] == '-' || IsDigit(s[0])) && IsDigit(s[|s| - 1])
  {
    var m := if n < 0 then -n else n;
    NatToStringDigits(m);
    var s := IntToString(n);
    if n < 0 {
      assert s[1..] == NatToString(m);
      assert s[|s| - 1] == NatToString(m)[|NatToString(m)| - 1];
    }
  }

  lemma ParseNumberRoundTrip(n: int)
    requires IsInt32(n)
    ensures ParseNumber(IntToString(n)) == Ok(n)
  {
    var m := if n < 0 then -n else n;
    NatToStringDigits(m);
    var s := IntToString(n);
    if n < 0 {
      assert s[1..] == NatToString(m);
    } else {
      assert s[0] != '-' && s[0] != '+' by { assert IsDigit(s[0]); }
    }
  }

  /** Values the sub-second tags of cameras hold. */
  lemma ParseInt32Examples()
    ensures ParseInt32("42") == Ok(42) && ParseInt32("042") == Ok(42)
    ensures ParseInt32("150") == Ok(150) && ParseInt32("16") == Ok(16)
  {
    Parse42();
    Parse16();
    Parse042();
    Parse150();
  }

  lemma Parse42() ensures ParseInt32("42") == Ok(42) { ParseTwoDigits("42", '4', '2'); }
  lemma Parse16() ensures ParseInt32("16") == Ok(16) { ParseTwoDigits("16", '1', '6'); }
  lemma Parse042() ensures ParseInt32("042") == Ok(42) { ParseThreeDigits("042", '0', '4', '2'); }
  lemma Parse150() ensures ParseInt32("150") == Ok(150) { ParseThreeDigits("150", '1', '5', '0'); }

  /** A space before or after the sub-second value is skipped. */
  lemma SurroundingWhiteExamples()
    ensures ParseInt32(" 42") == Ok(42) && ParseInt32("42 ") == Ok(42)
  {
    Parse42();
    TrimLeadingSpace();
    TrimTrailingSpace();
  }

  lemma TrimLeadingSpace() ensures ParseInt32(" 42") == ParseInt32("42")
  {
    assert TrimWhite(" 42") == "42" by { assert " 42"[1..] == "42"; }
  }

  lemma TrimTrailingSpace() ensures ParseInt32("42 ") == ParseInt32("42")
  {
    assert TrimWhite("42 ") == "42" by { assert "42 "[..2] == "42"; }
  }

  lemma NotDigitsExamples()
    ensures ParseInt32("x").Throws? && ParseInt32("x").exn.kind == FormatException
    ensures ParseInt32("").Throws? && ParseInt32("").exn.kind == FormatException
  {
    assert !IsDigit("x"[0]);
  }

  lemma ParseTwoDigits(s: string, a: char, b: char)
    requires s == [a, b] && IsDigit(a) && IsDigit(b)
    ensures ParseInt32(s) == Ok(DigitOf(a) * 10 + DigitOf(b))
  {
    DigitsValueTwo(a, b);
    ParseUnsigned(s);
  }

  lemma ParseThreeDigits(s: string, a: char, b: char, c: char)
    requires s == [a, b, c] && IsDigit(a) && IsDigit(b) && IsDigit(c)
    ensures ParseInt32(s) == Ok((DigitOf(a) * 10 + DigitOf(b)) * 10 + DigitOf(c))
  {
    DigitsValueThree(a, b, c);
    ParseUnsigned(s);
  }

  /** A run of digits within range parses to its value. */
  lemma ParseUnsigned(s: string)
    requires |s| > 0 && AllDigits(s) && DigitsValue(s) <= Int32Max
    ensures ParseInt32(s) == Ok(DigitsValue(s))
  {
    assert IsDigit(s[0]) && IsDigit(s[|s| - 1]);
    TrimWhiteUnchanged(s);
    ParseNumberUnsigned(s);
  }

  lemma ParseNumberUnsigned(s: string)
    requires |s| > 0 && AllDigits(s) && DigitsValue(s) <= Int32Max
    ensures ParseNumber(s) == Ok(DigitsValue(s))
  {
    assert IsDigit(s[0]);
  }

  lemma DigitsValueTwo(a: char, b: char)
    requires IsDigit(a) && IsDigit(b)
    ensures DigitsValue([a, b]) == DigitOf(a) * 10 + DigitOf(b)
  {
    assert DigitsValue([a]) == DigitOf(a) by { assert [a][..0] == []; }
    assert [a, b][..1] == [a];
  }

  lemma DigitsValueThree(a: char, b: char, c: char)
    requires IsDigit(a) && IsDigit(b) && IsDigit(c)
    ensures DigitsValue([a, b, c]) == (DigitOf(a) * 10 + DigitOf(b)) * 10 + DigitOf(c)
  {
    assert [a, b, c][..2] == [a, b];
    DigitsValueTwo(a, b);
  }

  /** The date fields of a fixed-width numeric format: zero-padded digits. */
  predicate DigitsAt(s: string, from: nat, width: nat)
  {
    from + width <= |s| && AllDigits(s[from..from + width])
  }

  function ValueAt(s: string, from: nat, width: nat): nat
    requires DigitsAt(s, from, width)
  {
    DigitsValue(s[from..from + width])
  }

  /** `DateTime.ParseExact(s, "yyyy:MM:dd HH:mm:ss", InvariantCulture)`:
      `None` where .NET throws `FormatException`. */
  function ParseExifDateTime(s: string): (r: Option<ValidDateTime>)
    ensures r.Some? ==> |s| == 19 && r.value.millisecond == 0
    ensures r.Some? ==> s == FormatExifDateTime(r.value)
  {
    ExifTextIsFormat(s);
    if |s| == 19 && DigitsAt(s, 0, 4) && s[4] == ':' && DigitsAt(s, 5, 2) && s[7] == ':'
       && DigitsAt(s, 8, 2) && s[10] == ' ' && DigitsAt(s, 11, 2) && s[13] == ':'
       && DigitsAt(s, 14, 2) && s[16] == ':' && DigitsAt(s, 17, 2)
    then
      var d := DateTime(ValueAt(s, 0, 4), ValueAt(s, 5, 2), ValueAt(s, 8, 2),
                        ValueAt(s, 11, 2), ValueAt(s, 14, 2), ValueAt(s, 17, 2), 0);
      if d.Valid() then Some(d) else None
    else None
  }

  /** The text `ParseExifDateTime` accepts for a date-time. */
  function FormatExifDateTime(d: ValidDateTime): string
  {
    PadZeros(d.year, 4) + ":" + PadZeros(d.month, 2) + ":" + PadZeros(d.day, 2) + " "
    + PadZeros(d.hour, 2) + ":" + PadZeros(d.minute, 2) + ":" + PadZeros(d.second, 2)
  }

  /** An accepted text is exactly the text its date-time formats to. */
  lemma ExifTextIsFormat(s: string)
    ensures |s| == 19 && DigitsAt(s, 0, 4) && s[4] == ':' && DigitsAt(s, 5, 2) && s[7] == ':'
            && DigitsAt(s, 8, 2) && s[10] == ' ' && DigitsAt(s, 11, 2) && s[13] == ':'
            && DigitsAt(s, 14, 2) && s[16] == ':' && DigitsAt(s, 17, 2) ==>
            var d := DateTime(ValueAt(s, 0, 4), ValueAt(s, 5, 2), ValueAt(s, 8, 2),
                              ValueAt(s, 11, 2), ValueAt(s, 14, 2), ValueAt(s, 17, 2), 0);
            d.Valid() ==> s == FormatExifDateTime(d)
  {
    if |s| == 19 && DigitsAt(s, 0, 4) && s[4] == ':' && DigitsAt(s, 5, 2) && s[7] == ':'
       && DigitsAt(s, 8, 2) && s[10] == ' ' && DigitsAt(s, 11, 2) && s[13] == ':'
       && DigitsAt(s, 14, 2) && s[16] == ':' && DigitsAt(s, 17, 2)
    {
      PadZerosOfDigits(s[0..4]);
      PadZerosOfDigits(s[5..7]);
      PadZerosOfDigits(s[8..10]);
      PadZerosOfDigits(s[11..13]);
      PadZerosOfDigits(s[14..16]);
      PadZerosOfDigits(s[17..19]);
      ExifRejoin(s);
    }
  }

  /** A 19-character text with the separators in place is its fields joined. */
  lemma ExifRejoin(s: string)
    requires |s| == 19 && s[4] == ':' && s[7] == ':' && s[10] == ' ' && s[13] == ':' && s[16] == ':'
    ensures s == s[0..4] + ":" + s[5..7] + ":" + s[8..10] + " " + s[11..13] + ":" + s[14..16] + ":" + s[17..19]
  {
  }

  lemma FieldAt(s: string, from: nat, field: string, n: nat, width: nat)
    requires 1 <= width && n < Pow10(width)
    requires field == PadZeros(n, width) && from + width <= |s| && s[from..from + width] == field
    ensures DigitsAt(s, from, width) && ValueAt(s, from, width) == n
  {
    PadZerosDigits(n, width);
  }

  /** Where the six fields of a `yyyy:MM:dd HH:mm:ss` text sit. */
  lemma ExifLayout(y: string, mo: string, da: string, h: string, mi: string, se: string)
    requires |y| == 4 && |mo| == 2 && |da| == 2 && |h| == 2 && |mi| == 2 && |se| == 2
    ensures var s := y + ":" + mo + ":" + da + " " + h + ":" + mi + ":" + se;
      && |s| == 19 && s[0..4] == y && s[4] == ':' && s[5..7] == mo && s[7] == ':'
      && s[8..10] == da && s[10] == ' ' && s[11..13] == h && s[13] == ':'
      && s[14..16] == mi && s[16] == ':' && s[17..19] == se
  {
  }

  /** Every whole-second date-time survives formatting and parsing. */
  lemma ExifRoundTrip(d: ValidDateTime)
    requires d.millisecond == 0
    ensures ParseExifDateTime(FormatExifDateTime(d)) == Some(d)
  {
    var y, mo, da := PadZeros(d.year, 4), PadZeros(d.month, 2), PadZeros(d.day, 2);
    var h, mi, se := PadZeros(d.hour, 2), PadZeros(d.minute, 2), PadZeros(d.second, 2);
    PadZerosDigits(d.year, 4); PadZerosDigits(d.month, 2); PadZerosDigits(d.day, 2);
    PadZerosDigits(d.hour, 2); PadZerosDigits(d.minute, 2); PadZerosDigits(d.second, 2);
    var s := FormatExifDateTime(d);
    ExifLayout(y, mo, da, h, mi, se);
    FieldAt(s, 0, y, d.year, 4);
    FieldAt(s, 5, mo, d.month, 2);
    FieldAt(s, 8, da, d.day, 2);
    FieldAt(s, 11, h, d.hour, 2);
    FieldAt(s, 14, mi, d.minute, 2);
    FieldAt(s, 17, se, d.second, 2);
  }

  /** The date-times the cameras in the examples wrote. */
  lemma ExifExamples()
    ensures ParseExifDateTime("2010:01:12 13:14:15") == Some(DateTime(2010, 1, 12, 13, 14, 15, 0))
    ensures ParseExifDateTime("2010:11:12 13:14:15") == Some(DateTime(2010, 11, 12, 13, 14, 15, 0))
  {
    ExifNumbers();
    ExifExample(1, "01");
    ExifExample(11, "11");
    ExampleTexts();
  }

  lemma ExampleTexts()
    ensures "2010:" + "01" + ":12 13:14:15" == "2010:01:12 13:14:15"
    ensures "2010:" + "11" + ":12 13:14:15" == "2010:11:12 13:14:15"
  {
  }

  /** Month 13 is refused. */
  lemma ExifMonthRefused()
    ensures ParseExifDateTime("2010:13:12 13:14:15") == None
  {
    var s := "2010:13:12 13:14:15";
    assert s[5..7] == "13" && DigitsValue("13") == 13 by { assert "13"[..1] == "1"; }
  }

  lemma ExifExample(month: int, mm: string)
    requires 1 <= month <= 12 && PadZeros(month, 2) == mm
    ensures ParseExifDateTime("2010:" + mm + ":12 13:14:15") == Some(DateTime(2010, month, 12, 13, 14, 15, 0))
  {
    ExifNumbers();
    var d: ValidDateTime := DateTime(2010, month, 12, 13, 14, 15, 0);
    var parts := "2010" + ":" + mm + ":" + "12" + " " + "13" + ":" + "14" + ":" + "15";
    assert FormatExifDateTime(d) == parts;
    assert parts == "2010:" + mm + ":12 13:14:15";
    ExifRoundTrip(d);
  }

  lemma ExifNumbers()
    ensures PadZeros(1, 2) == "01" && PadZeros(11, 2) == "11" && PadZeros(12, 2) == "12"
    ensures PadZeros(13, 2) == "13" && PadZeros(14, 2) == "14" && PadZeros(15, 2) == "15"
    ensures PadZeros(2010, 4) == "2010"
  {
    assert NatToString(2010) == NatToString(201) + "0";
    assert NatToString(201) == NatToString(20) + "1";
    assert NatToString(20) == NatToString(2) + "0";
    assert Zeros(1) == "0";
  }

  const DayNames: seq<string> := ["Sun", "Mon", "Tue", "Wed", "Thu", "Fri", "Sat"]
  const MonthNames: seq<string> :=
    ["Jan", "Feb", "Mar", "Apr", "May", "Jun", "Jul", "Aug", "Sep", "Oct", "Nov", "Dec"]

  /** The position of `name` in `names`, if it is there. */
  function IndexOfName(names: seq<string>, name: string): (r: Option<nat>)
    ensures r.Some? ==> r.value < |names| && names[r.value] == name
    ensures r.None? ==> name !in names
  {
    if names == [] then None
    else if names[0] == name then Some(0)
    else match IndexOfName(names[1..], name)
      case None => None
      case Some(i) => Some(i + 1)
  }

  /** The fields of a `ddd MMM dd HH.mm.ss yyyy` text, before any range
      check: the day-of-week index its day name stands for, and the date. */
  function QuickTimeFields(s: string): Option<(nat, DateTime)>
  {
    if |s| == 24 && s[3] == ' ' && s[7] == ' ' && DigitsAt(s, 8, 2) && s[10] == ' '
       && DigitsAt(s, 11, 2) && s[13] == '.' && DigitsAt(s, 14, 2) && s[16] == '.'
       && DigitsAt(s, 17, 2) && s[19] == ' ' && DigitsAt(s, 20, 4)
    then
      match (IndexOfName(DayNames, s[..3]), IndexOfName(MonthNames, s[4..7]))
      case (Some(weekday), Some(month)) =>
        Some((weekday, DateTime(ValueAt(s, 20, 4), month + 1, ValueAt(s, 8, 2),
                                ValueAt(s, 11, 2), ValueAt(s, 14, 2), ValueAt(s, 17, 2), 0)))
      case _ => None
    else None
  }

  /** `DateTime.ParseExact(s, "ddd MMM dd HH.mm.ss yyyy", InvariantCulture)`:
      English abbreviated day and month names, and, as in .NET, a day name
      that contradicts the date is a `FormatException` (`None`). */
  function ParseQuickTimeDateTime(s: string): (r: Option<ValidDateTime>)
    ensures r.Some? ==> |s| == 24 && r.value.millisecond == 0
    ensures r.Some? ==> s[..3] == DayNames[DayOfWeek(r.value)]
    ensures r.Some? ==> s == FormatQuickTimeDateTime(r.value)
  {
    QuickTimeTextOfFields(s);
    match QuickTimeFields(s)
    case Some((weekday, d)) =>
      if d.Valid() && DayOfWeek(d) == weekday then Some(d) else None
    case None => None
  }

  /** A `ddd MMM dd HH.mm.ss yyyy` text with the day name of day-of-week `weekday`. */
  function QuickTimeText(weekday: nat, d: ValidDateTime): string
    requires weekday < 7
  {
    DayNames[weekday] + " " + MonthNames[d.month - 1] + " " + PadZeros(d.day, 2) + " "
    + PadZeros(d.hour, 2) + "." + PadZeros(d.minute, 2) + "." + PadZeros(d.second, 2) + " "
    + PadZeros(d.year, 4)
  }

  /** The text `ParseQuickTimeDateTime` accepts for a date-time. */
  function FormatQuickTimeDateTime(d: ValidDateTime): string
  {
    QuickTimeText(DayOfWeek(d), d)
  }

  /** A text whose fields make a valid date is the text of those fields. */
  lemma QuickTimeTextOfFields(s: string)
    ensures QuickTimeFields(s).Some? && QuickTimeFields(s).value.0 < 7 && QuickTimeFields(s).value.1.Valid() ==>
            s == QuickTimeText(QuickTimeFields(s).value.0, QuickTimeFields(s).value.1)
  {
    if QuickTimeFields(s).Some? && QuickTimeFields(s).value.1.Valid() {
      var (w, d) := QuickTimeFields(s).value;
      PadZerosOfDigits(s[8..10]);
      PadZerosOfDigits(s[11..13]);
      PadZerosOfDigits(s[14..16]);
      PadZerosOfDigits(s[17..19]);
      PadZerosOfDigits(s[20..24]);
      assert s[..3] == DayNames[w] && s[4..7] == MonthNames[d.month - 1];
      QuickTimeRejoin(s);
    }
  }

  /** A 24-character text with the separators in place is its fields joined. */
  lemma QuickTimeRejoin(s: string)
    requires |s| == 24 && s[3] == ' ' && s[7] == ' ' && s[10] == ' ' && s[13] == '.' && s[16] == '.' && s[19] == ' '
    ensures s == s[..3] + " " + s[4..7] + " " + s[8..10] + " " + s[11..13] + "." + s[14..16] + "."
                 + s[17..19] + " " + s[20..24]
  {
  }

  lemma NamesDistinct(names: seq<string>, i: nat)
    requires i < |names|
    requires forall a, b :: 0 <= a < b < |names| ==> names[a] != names[b]
    ensures IndexOfName(names, names[i]) == Some(i)
  {
    if i > 0 {
      assert names[1..][i - 1] == names[i];
      NamesDistinct(names[1..], i - 1);
    }
  }

  /** Where the fields of a `ddd MMM dd HH.mm.ss yyyy` text sit. */
  lemma QuickTimeLayout(wd: string, mn: string, da: string, h: string, mi: string, se: string, y: string)
    requires |wd| == 3 && |mn| == 3 && |da| == 2 && |h| == 2 && |mi| == 2 && |se| == 2 && |y| == 4
    ensures var s := wd + " " + mn + " " + da + " " + h + "." + mi + "." + se + " " + y;
      && |s| == 24 && s[..3] == wd && s[3] == ' ' && s[4..7] == mn && s[7] == ' '
      && s[8..10] == da && s[10] == ' ' && s[11..13] == h && s[13] == '.'
      && s[14..16] == mi && s[16] == '.' && s[17..19] == se && s[19] == ' ' && s[20..24] == y
  {
  }

  lemma QuickTimeFieldsOfText(w: nat, d: ValidDateTime)
    requires w < 7 && d.millisecond == 0
    ensures QuickTimeFields(QuickTimeText(w, d)) == Some((w, d))
  {
    var wd, mn := DayNames[w], MonthNames[d.month - 1];
    var da, h, mi := PadZeros(d.day, 2), PadZeros(d.hour, 2), PadZeros(d.minute, 2);
    var se, y := PadZeros(d.second, 2), PadZeros(d.year, 4);
    PadZerosDigits(d.year, 4); PadZerosDigits(d.day, 2);
    PadZerosDigits(d.hour, 2); PadZerosDigits(d.minute, 2); PadZerosDigits(d.second, 2);
    var s := QuickTimeText(w, d);
    QuickTimeLayout(wd, mn, da, h, mi, se, y);
    assert s == wd + " " + mn + " " + da + " " + h + "." + mi + "." + se + " " + y;
    DayIndex(w);
    MonthIndex(d.month - 1);
    assert IndexOfName(DayNames, s[..3]) == Some(w);
    assert IndexOfName(MonthNames, s[4..7]) == Some(d.month - 1);
    FieldAt(s, 8, da, d.day, 2);
    FieldAt(s, 11, h, d.hour, 2);
    FieldAt(s, 14, mi, d.minute, 2);
    FieldAt(s, 17, se, d.second, 2);
    FieldAt(s, 20, y, d.year, 4);
  }

  lemma MonthIndex(i: nat)
    requires i < 12
    ensures IndexOfName(MonthNames, MonthNames[i]) == Some(i)
  {
    NamesDistinct(MonthNames, i);
  }

  lemma DayIndex(i: nat)
    requires i < 7
    ensures IndexOfName(DayNames, DayNames[i]) == Some(i)
  {
    NamesDistinct(DayNames, i);
  }

  /** Every whole-second date-time survives formatting and parsing, day name included. */
  lemma QuickTimeRoundTrip(d: ValidDateTime)
    requires d.millisecond == 0
    ensures ParseQuickTimeDateTime(FormatQuickTimeDateTime(d)) == Some(d)
  {
    QuickTimeFieldsOfText(DayOfWeek(d), d);
  }

  /** The example a camera writes: a Friday in June 1980. */
  lemma QuickTimeExample()
    ensures ParseQuickTimeDateTime("Fri Jun 13 14.15.16 1980") == Some(DateTime(1980, 6, 13, 14, 15, 16, 0))
  {
    var d: ValidDateTime := DateTime(1980, 6, 13, 14, 15, 16, 0);
    ExampleWeekday();
    ExampleText();
    QuickTimeRoundTrip(d);
  }

  lemma ExampleWeekday()
    ensures DayOfWeek(DateTime(1980, 6, 13, 14, 15, 16, 0)) == 5
  {
    assert DaysBeforeYear(1980) == 722814;
  }

  lemma ExampleText()
    ensures QuickTimeText(5, DateTime(1980, 6, 13, 14, 15, 16, 0)) == "Fri Jun 13 14.15.16 1980"
  {
    ExampleNumbers();
    var parts := "Fri" + " " + "Jun" + " " + "13" + " " + "14" + "." + "15" + "." + "16" + " " + "1980";
    assert QuickTimeText(5, DateTime(1980, 6, 13, 14, 15, 16, 0)) == parts;
  }

  lemma ExampleNumbers()
    ensures PadZeros(13, 2) == "13" && PadZeros(14, 2) == "14"
    ensures PadZeros(15, 2) == "15" && PadZeros(16, 2) == "16" && PadZeros(1980, 4) == "1980"
  {
    assert NatToString(1980) == NatToString(198) + "0";
    assert NatToString(198) == NatToString(19) + "8";
    assert NatToString(19) == NatToString(1) + "9";
  }
}
