/** The destination names every generation's `CameraFileNameConverter`
    builds from a capture time: the date sub-directory `yyyy_MM_dd` and the
    file name `PREFIX` + `yyyyMMdd` + `_` + `HHmmssfff` + extension. The three
    converters hold character-for-character the same private formatters;
    they are defined once here. */
module NameFormat {
  import opened Text
  import opened Calendar
  import opened Parsing
  import opened AbstractCameraFile

  /** `$"{Year:0000}_{Month:00}_{Day:00}"`: read back, the three fields are
      the date's year, month and day. */
  function DateSubDirectoryName(d: ValidDateTime): (r: string)
    ensures |r| == 10 && r[4] == '_' && r[7] == '_'
    ensures DigitsAt(r, 0, 4) && ValueAt(r, 0, 4) == d.year
    ensures DigitsAt(r, 5, 2) && ValueAt(r, 5, 2) == d.month
    ensures DigitsAt(r, 8, 2) && ValueAt(r, 8, 2) == d.day
  {
    var y, mo, da := PadZeros(d.year, 4), PadZeros(d.month, 2), PadZeros(d.day, 2);
    PadZerosDigits(d.year, 4); PadZerosDigits(d.month, 2); PadZerosDigits(d.day, 2);
    var r := y + "_" + mo + "_" + da;
    DirectoryLayout(y, mo, da);
    FieldAt(r, 0, y, d.year, 4);
    FieldAt(r, 5, mo, d.month, 2);
    FieldAt(r, 8, da, d.day, 2);
    r
  }

  /** `GetDateForFileName`: `$"{Year:0000}{Month:00}{Day:00}"`. */
  function DateForFileName(d: ValidDateTime): (r: string)
    ensures |r| == 8
    ensures DigitsAt(r, 0, 4) && ValueAt(r, 0, 4) == d.year
    ensures DigitsAt(r, 4, 2) && ValueAt(r, 4, 2) == d.month
    ensures DigitsAt(r, 6, 2) && ValueAt(r, 6, 2) == d.day
  {
    var y, mo, da := PadZeros(d.year, 4), PadZeros(d.month, 2), PadZeros(d.day, 2);
    PadZerosDigits(d.year, 4); PadZerosDigits(d.month, 2); PadZerosDigits(d.day, 2);
    var r := y + mo + da;
    assert r[0..4] == y && r[4..6] == mo && r[6..8] == da;
    FieldAt(r, 0, y, d.year, 4);
    FieldAt(r, 4, mo, d.month, 2);
    FieldAt(r, 6, da, d.day, 2);
    r
  }

  /** `GetTimeForFileName`: `$"{Hour:00}{Minute:00}{Second:00}{Millisecond:000}"`,
      exactly nine digits. */
  function TimeForFileName(d: ValidDateTime): (r: string)
    ensures |r| == 9 && AllDigits(r)
    ensures DigitsAt(r, 0, 2) && ValueAt(r, 0, 2) == d.hour
    ensures DigitsAt(r, 2, 2) && ValueAt(r, 2, 2) == d.minute
    ensures DigitsAt(r, 4, 2) && ValueAt(r, 4, 2) == d.second
    ensures DigitsAt(r, 6, 3) && ValueAt(r, 6, 3) == d.millisecond
  {
    var h, mi, se, ms := PadZeros(d.hour, 2), PadZeros(d.minute, 2), PadZeros(d.second, 2), PadZeros(d.millisecond, 3);
    PadZerosDigits(d.hour, 2); PadZerosDigits(d.minute, 2); PadZerosDigits(d.second, 2);
    PadZerosDigits(d.millisecond, 3);
    var r := h + mi + se + ms;
    TimeLayout(h, mi, se, ms);
    FieldAt(r, 0, h, d.hour, 2);
    FieldAt(r, 2, mi, d.minute, 2);
    FieldAt(r, 4, se, d.second, 2);
    FieldAt(r, 6, ms, d.millisecond, 3);
    r
  }

  /** The part of the file name between prefix and extension. */
  function Stamp(d: ValidDateTime): (r: string)
    ensures |r| == 18 && r[..8] == DateForFileName(d) && r[8] == '_' && r[9..] == TimeForFileName(d)
  {
    DateForFileName(d) + "_" + TimeForFileName(d)
  }

  /** `NewCameraFileName` / `GetDestinationFileName`: the prefix, the stamp and
      the extension kept verbatim, with no directory part of its own. */
  function DestinationFileName(prefix: string, d: ValidDateTime, extension: string): (r: string)
    ensures |r| == |prefix| + 18 + |extension|
    ensures r[..|prefix|] == prefix && r[|prefix| + 18..] == extension
    ensures r[|prefix|..|prefix| + 18] == Stamp(d)
    ensures '/' !in prefix && '/' !in extension ==> '/' !in r
  {
    var r := prefix + Stamp(d) + extension;
    assert r[..|prefix|] == prefix;
    assert r[|prefix|..|prefix| + 18] == Stamp(d);
    assert r[|prefix| + 18..] == extension;
    StampHasNoSlash(d);
    r
  }

  /** `GetDestinationDirectory`: the root itself when date sub-directories
      are skipped, otherwise the root followed by `yyyy_MM_dd`. */
  function DestinationDirectory(root: string, created: ValidDateTime, skip: bool): (r: string)
    ensures skip ==> r == root
    ensures !skip ==> r == DirectoryPrefix(root) + DateSubDirectoryName(created)
  {
    if skip then root
    else
      var name := DateSubDirectoryName(created);
      assert IsDigit(name[0]) by { assert name[0] == name[0..4][0]; }
      Combine(root, name)
  }

  /** `GetDestinationFileName` / `NewCameraFileName`: prefix, date, `_`, time and the extension as
      the camera file spells it. */
  function CameraFileName(cameraFile: CameraFile): (r: string)
    ensures |r| == |cameraFile.DestinationNamePrefix()| + 18 + |cameraFile.extension|
    ensures r[..|cameraFile.DestinationNamePrefix()|] == cameraFile.DestinationNamePrefix()
    ensures r[|r| - |cameraFile.extension|..] == cameraFile.extension
    ensures '/' !in cameraFile.extension ==> '/' !in r
    ensures r != [] && r[0] != '/'
  {
    PrefixHasNoSlash(cameraFile);
    DestinationFileName(cameraFile.DestinationNamePrefix(), cameraFile.created, cameraFile.extension)
  }

  lemma PrefixHasNoSlash(cameraFile: CameraFile)
    ensures cameraFile.DestinationNamePrefix() != [] && '/' !in cameraFile.DestinationNamePrefix()
  {
    var p := cameraFile.DestinationNamePrefix();
    assert p == "VID_" || p == "IMG_";
    assert forall i :: 0 <= i < |p| ==> p[i] != '/';
  }

  /** A relative name combined under a directory starts with that
      directory and its separator and keeps the name's ending. */
  lemma CombineLayout(directory: string, name: string, suffix: string)
    requires name != [] && name[0] != '/'
    requires |suffix| <= |name| && name[|name| - |suffix|..] == suffix
    ensures var f, p := Combine(directory, name), DirectoryPrefix(directory);
      |p| <= |f| && f[..|p|] == p && |suffix| <= |f| && f[|f| - |suffix|..] == suffix
  {
    var f, p := Combine(directory, name), DirectoryPrefix(directory);
    assert f == p + name;
    assert f[|f| - |suffix|..] == name[|name| - |suffix|..];
  }

  lemma DirectoryLayout(y: string, mo: string, da: string)
    requires |y| == 4 && |mo| == 2 && |da| == 2
    ensures var s := y + "_" + mo + "_" + da;
      |s| == 10 && s[0..4] == y && s[4] == '_' && s[5..7] == mo && s[7] == '_' && s[8..10] == da
  {
  }

  lemma TimeLayout(h: string, mi: string, se: string, ms: string)
    requires |h| == 2 && |mi| == 2 && |se| == 2 && |ms| == 3
    requires AllDigits(h) && AllDigits(mi) && AllDigits(se) && AllDigits(ms)
    ensures var s := h + mi + se + ms;
      && |s| == 9 && AllDigits(s)
      && s[0..2] == h && s[2..4] == mi && s[4..6] == se && s[6..9] == ms
  {
    var s := h + mi + se + ms;
    assert forall i :: 0 <= i < 9 ==> s[i] in h + mi + se + ms && IsDigit(s[i]) by {
      forall i | 0 <= i < 9 ensures IsDigit(s[i]) {
        if i < 2 { assert s[i] == h[i]; }
        else if i < 4 { assert s[i] == mi[i - 2]; }
        else if i < 6 { assert s[i] == se[i - 4]; }
        else { assert s[i] == ms[i - 6]; }
      }
    }
  }

  lemma StampHasNoSlash(d: ValidDateTime)
    ensures '/' !in Stamp(d)
  {
    var s := Stamp(d);
    forall i | 0 <= i < 18 ensures s[i] != '/' {
      if i < 8 {
        assert s[i] == DateForFileName(d)[i];
        if i < 4 { assert DateForFileName(d)[i] == DateForFileName(d)[0..4][i]; }
        else if i < 6 { assert DateForFileName(d)[i] == DateForFileName(d)[4..6][i - 4]; }
        else { assert DateForFileName(d)[i] == DateForFileName(d)[6..8][i - 6]; }
      } else if i > 8 {
        assert s[i] == TimeForFileName(d)[i - 9];
      }
    }
  }

  /** The sub-directory holds the same date as the file name, with `_` between
      the fields. */
  lemma SubDirectoryMatchesFileName(d: ValidDateTime)
    ensures var f := DateForFileName(d);
      DateSubDirectoryName(d) == f[0..4] + "_" + f[4..6] + "_" + f[6..8]
  {
    var s, f := DateSubDirectoryName(d), DateForFileName(d);
    PadZerosInjectiveAt(s, 0, f, 0, 4);
    PadZerosInjectiveAt(s, 5, f, 4, 2);
    PadZerosInjectiveAt(s, 8, f, 6, 2);
    Rejoin(s, f[0..4], f[4..6], f[6..8]);
  }

  /** A ten-character `yyyy_MM_dd` text is its three fields joined by `_`. */
  lemma Rejoin(s: string, y: string, m: string, d: string)
    requires |s| == 10 && s[4] == '_' && s[7] == '_' && s[0..4] == y && s[5..7] == m && s[8..10] == d
    ensures s == y + "_" + m + "_" + d
  {
    assert s == s[0..4] + "_" + s[5..7] + "_" + s[8..10];
  }

  /** Two fixed-width digit fields of equal value are the same text. */
  lemma PadZerosInjectiveAt(s: string, i: nat, t: string, j: nat, width: nat)
    requires DigitsAt(s, i, width) && DigitsAt(t, j, width)
    requires ValueAt(s, i, width) == ValueAt(t, j, width)
    ensures s[i..i + width] == t[j..j + width]
  {
    DigitsValueInjective(s[i..i + width], t[j..j + width]);
  }

  /** Capture times that differ anywhere, down to the millisecond, give
      different stamps. */
  lemma StampInjective(a: ValidDateTime, b: ValidDateTime)
    requires Stamp(a) == Stamp(b)
    ensures a == b
  {
    var sa, sb := Stamp(a), Stamp(b);
    assert DateForFileName(a) == sa[..8] == sb[..8] == DateForFileName(b);
    assert TimeForFileName(a) == sa[9..] == sb[9..] == TimeForFileName(b);
  }

  /** Files with the same prefix and extension but different capture times
      never collide at the destination. */
  lemma DestinationFileNameInjective(prefix: string, a: ValidDateTime, b: ValidDateTime, extension: string)
    requires DestinationFileName(prefix, a, extension) == DestinationFileName(prefix, b, extension)
    ensures a == b
  {
    var na, nb := DestinationFileName(prefix, a, extension), DestinationFileName(prefix, b, extension);
    assert Stamp(a) == na[|prefix|..|prefix| + 18] == nb[|prefix|..|prefix| + 18] == Stamp(b);
    StampInjective(a, b);
  }

  /** The date in a destination file name, written with `_` between the
      fields, is the date sub-directory. */
  lemma SubDirectoryInFileName(prefix: string, d: ValidDateTime, extension: string)
    ensures var n, p := DestinationFileName(prefix, d, extension), |prefix|;
      DateSubDirectoryName(d) == n[p..p + 4] + "_" + n[p + 4..p + 6] + "_" + n[p + 6..p + 8]
  {
    var n, p := DestinationFileName(prefix, d, extension), |prefix|;
    DateFields(n, p, Stamp(d), DateForFileName(d));
    SubDirectoryMatchesFileName(d);
  }

  lemma SliceAt(n: string, p: nat, stamp: string, a: nat, b: nat)
    requires p + |stamp| <= |n| && n[p..p + |stamp|] == stamp && a <= b <= |stamp|
    ensures n[p + a..p + b] == stamp[a..b]
  {
    var x, y := n[p + a..p + b], stamp[a..b];
    assert forall k :: 0 <= k < |x| ==> x[k] == y[k];
  }

  /** The date fields of a stamp found at `p` in a name. */
  lemma DateFields(n: string, p: nat, stamp: string, f: string)
    requires p + 18 <= |n| && n[p..p + 18] == stamp && |f| == 8 && stamp[..8] == f
    ensures n[p..p + 4] == f[0..4] && n[p + 4..p + 6] == f[4..6] && n[p + 6..p + 8] == f[6..8]
  {
    SliceAt(n, p, stamp, 0, 4);
    SliceAt(n, p, stamp, 4, 6);
    SliceAt(n, p, stamp, 6, 8);
    assert stamp[..8][0..4] == stamp[0..4] && stamp[..8][4..6] == stamp[4..6] && stamp[..8][6..8] == stamp[6..8];
  }

  /** The file name of the photo taken 2010-01-12 13:14:15.420. */
  lemma NameExample(d: ValidDateTime)
    requires d == DateTime(2010, 1, 12, 13, 14, 15, 420)
    ensures DestinationFileName("IMG_", d, ".JPG") == "IMG_20100112_131415420.JPG"
  {
    DateExample(d);
    TimeExample(d);
    FileNameOf("IMG_", d, ".JPG", "20100112", "131415420");
    ExampleNameText();
  }

  lemma ExampleNameText()
    ensures "IMG_" + "20100112" + "_" + "131415420" + ".JPG" == "IMG_20100112_131415420.JPG"
  {
  }

  /** The file name is the prefix, the date text, `_`, the time text and the
      extension, in that order. */
  lemma FileNameOf(prefix: string, d: ValidDateTime, extension: string, date: string, time: string)
    requires DateForFileName(d) == date && TimeForFileName(d) == time
    ensures DestinationFileName(prefix, d, extension) == prefix + date + "_" + time + extension
  {
  }

  /** The date sub-directory of the photo taken 2010-01-12. */
  lemma DirectoryExample(d: ValidDateTime)
    requires d == DateTime(2010, 1, 12, 13, 14, 15, 420)
    ensures DateSubDirectoryName(d) == "2010_01_12"
  {
    ExifNumbers();
    assert "2010" + "_" + "01" + "_" + "12" == "2010_01_12";
  }

  lemma DateExample(d: ValidDateTime)
    requires d == DateTime(2010, 1, 12, 13, 14, 15, 420)
    ensures DateForFileName(d) == "20100112"
  {
    ExifNumbers();
    assert "2010" + "01" + "12" == "20100112";
  }

  lemma TimeExample(d: ValidDateTime)
    requires d == DateTime(2010, 1, 12, 13, 14, 15, 420)
    ensures TimeForFileName(d) == "131415420"
  {
    ExifNumbers();
    assert PadZeros(420, 3) == "420" by {
      assert NatToString(420) == NatToString(42) + "0";
      assert NatToString(42) == NatToString(4) + "2";
    }
    assert "13" + "14" + "15" + "420" == "131415420";
  }
}
