/** The string primitives of the .NET base library that the program uses,
    restricted to what it relies on: `LastIndexOf`, `IsNullOrWhiteSpace`,
    `ToLowerInvariant`, case-insensitive `EndsWith`, decimal formatting of
    numbers with and without zero padding, and `Path.Combine`. */
module Text {

  /** `char.IsWhiteSpace`: the Unicode white space of .NET, that is the
      control characters U+0009 to U+000D, next line U+0085, and the space
      separators U+0020, U+00A0, U+1680, U+2000 to U+200A, U+202F, U+205F
      and U+3000, and the line and paragraph separators U+2028 and U+2029. */
  predicate IsWhiteSpace(c: char)
  {
    || '\t' <= c <= '\r' || c == ' ' || c == '\U{0085}' || c == '\U{00A0}' || c == '\U{1680}'
    || '\U{2000}' <= c <= '\U{200A}' || c == '\U{2028}' || c == '\U{2029}' || c == '\U{202F}'
    || c == '\U{205F}' || c == '\U{3000}'
  }

  /** `string.IsNullOrWhiteSpace` on a non-null string: empty or all white
      space, which is decided one character at a time from the front. */
  predicate IsNullOrWhiteSpace(s: string): (r: bool)
    ensures s == [] ==> r
    ensures s != [] ==> (r <==> IsWhiteSpace(s[0]) && IsNullOrWhiteSpace(s[1..]))
  {
    forall i :: 0 <= i < |s| ==> IsWhiteSpace(s[i])
  }

  /** Blank and non-blank names as .NET classifies them, the Unicode space
      separators included. */
  lemma BlankExamples()
    ensures IsNullOrWhiteSpace("") && IsNullOrWhiteSpace(" \t\r\n")
    ensures IsNullOrWhiteSpace("\U{3000}") && IsNullOrWhiteSpace("\U{2003}\U{2003}") && IsNullOrWhiteSpace("\U{00A0}\U{1680}")
    ensures !IsNullOrWhiteSpace("a") && !IsNullOrWhiteSpace("\U{3000}x") && !IsNullOrWhiteSpace("\U{200B}")
  {
    assert !IsWhiteSpace("\U{3000}x"[1]);
    assert !IsWhiteSpace("a"[0]);
  }

  /** `s.LastIndexOf(c)`: the index of the last occurrence of `c`, or -1. */
  function LastIndexOf(s: string, c: char): (r: int)
    ensures -1 <= r < |s|
    ensures r == -1 <==> c !in s
    ensures 0 <= r ==> s[r] == c && c !in s[r + 1..]
  {
    if |s| == 0 then -1
    else if s[|s| - 1] == c then |s| - 1
    else
      var r := LastIndexOf(s[..|s| - 1], c);
      LastIndexOfStep(s, c, r);
      r
  }

  /** A last character other than `c` leaves the last occurrence where it
      was in the rest of the text. */
  lemma LastIndexOfStep(s: string, c: char, r: int)
    requires s != [] && s[|s| - 1] != c && -1 <= r < |s| - 1
    requires r == -1 <==> c !in s[..|s| - 1]
    requires 0 <= r ==> c !in s[..|s| - 1][r + 1..]
    ensures r == -1 <==> c !in s
    ensures 0 <= r ==> c !in s[r + 1..]
  {
    assert s == s[..|s| - 1] + [s[|s| - 1]];
    if 0 <= r {
      assert s[r + 1..] == s[..|s| - 1][r + 1..] + [s[|s| - 1]];
    }
  }

  function ToLowerChar(c: char): char
  {
    if 'A' <= c <= 'Z' then (c as int + 32) as char else c
  }

  /** `ToLowerInvariant` on the ASCII letters. */
  function ToLowerInvariant(s: string): (r: string)
    ensures |r| == |s|
    ensures forall i :: 0 <= i < |s| ==> r[i] == ToLowerChar(s[i])
  {
    if s == [] then [] else ToLowerInvariant(s[..|s| - 1]) + [ToLowerChar(s[|s| - 1])]
  }

  /** Lower-casing leaves a text without capitals as it is. */
  lemma LowerWithoutCapitals(s: string)
    requires forall i :: 0 <= i < |s| ==> !('A' <= s[i] <= 'Z')
    ensures ToLowerInvariant(s) == s
  {
  }

  /** `s.EndsWith(suffix, ignoreCase: true, InvariantCulture)`. */
  predicate EndsWithIgnoreCase(s: string, suffix: string)
  {
    |suffix| <= |s| && ToLowerInvariant(s[|s| - |suffix|..]) == ToLowerInvariant(suffix)
  }

  /** What `Path.Combine` appends a relative part to: the directory with
      one trailing `/`, not doubled when it is already there, and nothing
      at all for an empty directory. */
  function DirectoryPrefix(a: string): (r: string)
    ensures |a| <= |r| <= |a| + 1 && r[..|a|] == a
    ensures r != [] ==> r[|r| - 1] == '/'
    ensures a != [] ==> r != []
  {
    if a == [] || a[|a| - 1] == '/' then a else a + "/"
  }

  /** `Path.Combine(a, b)` with the Unix separator: `a` when `b` is empty,
      `b` when `a` is empty or `b` is rooted, and otherwise `b` after the
      `DirectoryPrefix` of `a`. */
  function Combine(a: string, b: string): (r: string)
    ensures b == [] ==> r == a
    ensures b != [] && (a == [] || b[0] == '/') ==> r == b
    ensures b != [] && b[0] != '/' ==> r == DirectoryPrefix(a) + b
  {
    if b == [] then a
    else if a == [] || b[0] == '/' then b
    else if a[|a| - 1] == '/' then a + b
    else a + "/" + b
  }

  /** A relative part combined under a directory can be split off again:
      the combined path is the directory prefix followed by the part. */
  lemma CombineSplits(a: string, b: string)
    requires b != [] && b[0] != '/'
    ensures var f, p := Combine(a, b), DirectoryPrefix(a);
      |f| == |p| + |b| && f[..|p|] == p && f[|p|..] == b
  {
    var f, p := Combine(a, b), DirectoryPrefix(a);
    assert f == p + b;
  }

  /** The separator is written once: `/dest/` and `/dest` give the same
      path, and an empty directory adds nothing. */
  lemma CombineSeparatorOnce(a: string, b: string)
    requires a != [] && a[|a| - 1] != '/' && b != [] && b[0] != '/'
    ensures Combine(a + "/", b) == Combine(a, b) == a + "/" + b
    ensures Combine([], b) == b
  {
    assert (a + "/")[|a + "/"| - 1] == '/';
  }

  predicate IsDigit(c: char)
  {
    '0' <= c <= '9'
  }

  predicate AllDigits(s: string)
  {
    forall i :: 0 <= i < |s| ==> IsDigit(s[i])
  }

  function DigitChar(d: nat): char
    requires d < 10
  {
    ('0' as int + d) as char
  }

  function DigitOf(c: char): nat
    requires IsDigit(c)
  {
    c as int - '0' as int
  }

  /** The number a string of decimal digits denotes. */
  function DigitsValue(s: string): nat
    requires AllDigits(s)
  {
    if s == [] then 0 else DigitsValue(s[..|s| - 1]) * 10 + DigitOf(s[|s| - 1])
  }

  function Pow10(n: nat): (r: nat)
    ensures r >= 1
  {
    if n == 0 then 1 else 10 * Pow10(n - 1)
  }

  /** `n.ToString()` for a natural number. */
  function NatToString(n: nat): string
  {
    if n < 10 then [DigitChar(n)] else NatToString(n / 10) + [DigitChar(n % 10)]
  }

  /** `n.ToString()` for an integer. */
  function IntToString(n: int): string
  {
    if n < 0 then "-" + NatToString(-n) else NatToString(n)
  }

  function Zeros(k: nat): (r: string)
    ensures |r| == k && forall i :: 0 <= i < k ==> r[i] == '0'
  {
    if k == 0 then [] else Zeros(k - 1) + ['0']
  }

  /** The custom numeric format `{n:00…0}` with `width` zeros: at least
      `width` digits, padded with leading zeros. */
  function PadZeros(n: nat, width: nat): string
  {
    var s := NatToString(n);
    if |s| < width then Zeros(width - |s|) + s else s
  }

  lemma {:induction false} NatToStringDigits(n: nat)
    ensures AllDigits(NatToString(n)) && DigitsValue(NatToString(n)) == n
    ensures |NatToString(n)| >= 1
    decreases n
  {
    var s := NatToString(n);
    if n >= 10 {
      NatToStringDigits(n / 10);
      assert s[..|s| - 1] == NatToString(n / 10);
    }
  }

  lemma {:induction false} NatToStringLength(n: nat, width: nat)
    requires 1 <= width && n < Pow10(width)
    ensures |NatToString(n)| <= width
    decreases width
  {
    if n >= 10 {
      NatToStringLength(n / 10, width - 1);
    }
  }

  lemma {:induction false} LeadingZerosValue(k: nat, s: string)
    requires AllDigits(s)
    ensures AllDigits(Zeros(k) + s) && DigitsValue(Zeros(k) + s) == DigitsValue(s)
    decreases |s|, k
  {
    var z := Zeros(k) + s;
    if s == [] {
      if k > 0 {
        assert z[..|z| - 1] == Zeros(k - 1);
        LeadingZerosValue(k - 1, []);
        assert Zeros(k - 1) + [] == Zeros(k - 1);
      }
    } else {
      var s' := s[..|s| - 1];
      assert z[..|z| - 1] == Zeros(k) + s';
      LeadingZerosValue(k, s');
    }
  }

  /** Within its width, a padded number has exactly `width` digits, and the
      digits denote the number back. */
  lemma PadZerosDigits(n: nat, width: nat)
    requires 1 <= width && n < Pow10(width)
    ensures |PadZeros(n, width)| == width
    ensures AllDigits(PadZeros(n, width)) && DigitsValue(PadZeros(n, width)) == n
  {
    var s := NatToString(n);
    NatToStringDigits(n);
    NatToStringLength(n, width);
    assert AllDigits(s) && DigitsValue(s) == n && 1 <= |s| <= width;
    if |s| < width {
      var z := Zeros(width - |s|) + s;
      LeadingZerosValue(width - |s|, s);
      assert PadZeros(n, width) == z;
    } else {
      assert PadZeros(n, width) == s;
    }
  }

  /** Equal-length digit strings of equal value are equal. */
  lemma {:induction false} DigitsValueInjective(a: string, b: string)
    requires AllDigits(a) && AllDigits(b) && |a| == |b|
    requires DigitsValue(a) == DigitsValue(b)
    ensures a == b
    decreases |a|
  {
    if |a| > 0 {
      var n := |a| - 1;
      assert AllDigits(a[..n]) && AllDigits(b[..n]);
      assert DigitsValue(a) == 10 * DigitsValue(a[..n]) + DigitOf(a[n]);
      assert DigitsValue(b) == 10 * DigitsValue(b[..n]) + DigitOf(b[n]);
      DigitsValueInjective(a[..n], b[..n]);
      assert a[n] == b[n];
      assert a == a[..n] + [a[n]] && b == b[..n] + [b[n]];
    }
  }

  /** A run of `n` digits denotes less than 10^n. */
  lemma {:induction false} DigitsValueBound(s: string)
    requires AllDigits(s)
    ensures DigitsValue(s) < Pow10(|s|)
    decreases |s|
  {
    if s != [] {
      DigitsValueBound(s[..|s| - 1]);
    }
  }

  /** Padding is the inverse of reading digits: a field of `width` digits is
      the padded text of the number it denotes. */
  lemma PadZerosOfDigits(s: string)
    requires |s| >= 1 && AllDigits(s)
    ensures PadZeros(DigitsValue(s), |s|) == s
  {
    DigitsValueBound(s);
    PadZerosDigits(DigitsValue(s), |s|);
    DigitsValueInjective(PadZeros(DigitsValue(s), |s|), s);
  }

  /** Zero padding loses nothing: different numbers in range get different texts. */
  lemma PadZerosInjective(a: nat, b: nat, width: nat)
    requires 1 <= width && a < Pow10(width) && b < Pow10(width)
    requires PadZeros(a, width) == PadZeros(b, width)
    ensures a == b
  {
    PadZerosDigits(a, width);
    PadZerosDigits(b, width);
  }
  /** `suffixes.Any(e => s.EndsWith(e, ignoreCase: true, InvariantCulture))`. */
  function EndsWithAnyIgnoreCase(s: string, suffixes: seq<string>): (r: bool)
    ensures r <==> exists i :: 0 <= i < |suffixes| && EndsWithIgnoreCase(s, suffixes[i])
  {
    if suffixes == [] then false
    else EndsWithIgnoreCase(s, suffixes[0]) || EndsWithAnyIgnoreCase(s, suffixes[1..])
  }

  /** Lower-casing leaves lower-case text alone and never makes a `.`. */
  lemma ToLowerDot(c: char)
    ensures ToLowerChar(c) == '.' <==> c == '.'
  {
  }
}
