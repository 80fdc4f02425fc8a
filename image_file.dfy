/** `ImageFile`: a JPEG or CR2 photo. Its capture time is the
    `DateTimeOriginal` tag (0x9003), or the `DateTime` tag (0x0132) on cameras
    that lack it, plus the `SubSecTimeOriginal` tag (0x9291) counted in
    hundredths of a second. */
module ImageFiles {
  import opened Wrappers
  import opened Calendar
  import opened Parsing
  import opened Exif
  import opened CameraFilePaths
  import opened AbstractCameraFile

  const DateTimeOriginalTagType: int := 0x9003
  const FallbackDateTimeTagType: int := 0x0132
  const SubSecondTagType: int := 0x9291

  predicate IsDateTimeOriginal(t: Tag) { t.typ == DateTimeOriginalTagType }
  predicate IsFallbackDateTime(t: Tag) { t.typ == FallbackDateTimeTagType }
  predicate IsSubSecond(t: Tag) { t.typ == SubSecondTagType }

  /** The date tag: the first 0x9003 tag in any directory wherever it sits in
      the list; only without one, the first 0x0132 tag; without either,
      `InvalidOperationException`. */
  function FindCreatedDateTimeTag(tags: seq<Tag>): (r: Outcome<Tag>)
    ensures r.Ok? <==> exists j :: 0 <= j < |tags| && (tags[j].typ == 0x9003 || tags[j].typ == 0x0132)
    ensures (exists j :: 0 <= j < |tags| && tags[j].typ == 0x9003) ==>
              r == Ok(tags[FirstIndex(tags, IsDateTimeOriginal)])
    ensures (forall j :: 0 <= j < |tags| ==> tags[j].typ != 0x9003) && r.Ok? ==>
              r == Ok(tags[FirstIndex(tags, IsFallbackDateTime)])
    ensures r.Throws? ==> r.exn.kind == InvalidOperationException
  {
    match FirstOrDefault(tags, IsDateTimeOriginal)
    case Some(t) => Ok(t)
    case None => First(tags, IsFallbackDateTime)
  }

  /** `DateTime.ParseExact(value, "yyyy:MM:dd HH:mm:ss")`: a whole-second
      date-time, or `FormatException`. */
  function ParseCreatedDateTime(dateTimeOriginal: Tag): (r: Outcome<ValidDateTime>)
    ensures r.Ok? ==> r.value.millisecond == 0 && ParseExifDateTime(dateTimeOriginal.value) == Some(r.value)
    ensures r.Throws? ==> r.exn.kind == FormatException && ParseExifDateTime(dateTimeOriginal.value).None?
  {
    match ParseExifDateTime(dateTimeOriginal.value)
    case Some(d) => Ok(d)
    case None => Raise(FormatException, "String was not recognized as a valid DateTime.")
  }

  /** `subSeconds * 10` in unchecked 32-bit arithmetic. */
  function ToMilliseconds(subSeconds: int): (r: int)
    requires IsInt32(subSeconds)
    ensures IsInt32(r)
    ensures -0x0CCC_CCCC <= subSeconds <= 0x0CCC_CCCC ==> r == subSeconds * 10
  {
    WrapInt32(subSeconds * 10)
  }

  /** The milliseconds to add: 0 without a 0x9291 tag, otherwise ten times the
      integer value of the first one (`FormatException` or `OverflowException`
      when the value is not a 32-bit integer). */
  function FindSubSeconds(tags: seq<Tag>): (r: Outcome<int>)
    ensures (forall j :: 0 <= j < |tags| ==> tags[j].typ != 0x9291) ==> r == Ok(0)
    ensures (exists j :: 0 <= j < |tags| && tags[j].typ == 0x9291) ==>
              var v := ParseInt32(tags[FirstIndex(tags, IsSubSecond)].value);
              (r.Ok? <==> v.Ok?) && (r.Ok? ==> r.value == ToMilliseconds(v.value))
              && (r.Throws? ==> r == v)
  {
    match FirstOrDefault(tags, IsSubSecond)
    case None => Ok(0)
    case Some(subSeconds) =>
      match ParseInt32(subSeconds.value)
      case Ok(n) => Ok(ToMilliseconds(n))
      case Throws(e) => Throws(e)
  }

  /** The capture time, after the base checks: the date tag, its parse, the
      sub-seconds and the addition, each of which may throw in that order. */
  function Created(exifTags: seq<Tag>): (r: Outcome<ValidDateTime>)
    ensures r.Ok? <==>
              && FindCreatedDateTimeTag(exifTags).Ok?
              && ParseCreatedDateTime(FindCreatedDateTimeTag(exifTags).value).Ok?
              && FindSubSeconds(exifTags).Ok?
              && 0 <= Instant(ParseCreatedDateTime(FindCreatedDateTimeTag(exifTags).value).value)
                      + FindSubSeconds(exifTags).value <= MaxInstant
    ensures r.Ok? ==>
              Instant(r.value)
              == Instant(ParseCreatedDateTime(FindCreatedDateTimeTag(exifTags).value).value)
                 + FindSubSeconds(exifTags).value
    ensures FindCreatedDateTimeTag(exifTags).Throws? ==> r.Throws? && r.exn.kind == InvalidOperationException
    ensures FindCreatedDateTimeTag(exifTags).Ok?
            && ParseExifDateTime(FindCreatedDateTimeTag(exifTags).value.value).None? ==>
              r.Throws? && r.exn.kind == FormatException
    ensures FindCreatedDateTimeTag(exifTags).Ok?
            && ParseCreatedDateTime(FindCreatedDateTimeTag(exifTags).value).Ok?
            && FindSubSeconds(exifTags).Throws? ==>
              r == Throws(FindSubSeconds(exifTags).exn)
    ensures FindCreatedDateTimeTag(exifTags).Ok?
            && ParseCreatedDateTime(FindCreatedDateTimeTag(exifTags).value).Ok?
            && FindSubSeconds(exifTags).Ok? && r.Throws? ==>
              r.exn.kind == ArgumentOutOfRangeException
  {
    match FindCreatedDateTimeTag(exifTags)
    case Throws(e) => Throws(e)
    case Ok(dateTimeOriginal) =>
      match ParseCreatedDateTime(dateTimeOriginal)
      case Throws(e) => Throws(e)
      case Ok(parsed) =>
        match FindSubSeconds(exifTags)
        case Throws(e) => Throws(e)
        case Ok(ms) => AddMilliseconds(parsed, ms)
  }

  /** The constructor: the base checks, then `Created`. */
  function New(fullName: CameraFilePath, exifTags: seq<Tag>): (r: Outcome<CameraFile>)
    ensures r.Ok? <==> Initialize(fullName).Ok? && Created(exifTags).Ok?
    ensures r.Ok? ==> r.value.Valid() && r.value.kind == Image && r.value.fullName == fullName
    ensures r.Ok? ==> r.value.DestinationNamePrefix() == "IMG_" && r.value.created == Created(exifTags).value
    ensures Initialize(fullName).Throws? ==> r == Throws(Initialize(fullName).exn)
    ensures Initialize(fullName).Ok? && Created(exifTags).Throws? ==> r == Throws(Created(exifTags).exn)
  {
    match Initialize(fullName)
    case Throws(e) => Throws(e)
    case Ok(extension) =>
      match Created(exifTags)
      case Throws(e) => Throws(e)
      case Ok(created) => Ok(Make(Image, fullName, extension, created))
  }

  /** Without a sub-second tag the capture time is the parsed value exactly. */
  lemma NoSubSecondsKeepsParsedTime(fullName: CameraFilePath, exifTags: seq<Tag>)
    requires forall j :: 0 <= j < |exifTags| ==> exifTags[j].typ != 0x9291
    requires New(fullName, exifTags).Ok?
    ensures New(fullName, exifTags).value.created
            == ParseCreatedDateTime(FindCreatedDateTimeTag(exifTags).value).value
  {
    InstantInjective(New(fullName, exifTags).value.created,
                     ParseCreatedDateTime(FindCreatedDateTimeTag(exifTags).value).value);
  }

  /** A 0x9003 tag wins over a 0x0132 tag that comes before it. */
  lemma OriginalTagTakesPrecedence(fallback: Tag, original: Tag)
    requires fallback.typ == 0x0132 && original.typ == 0x9003
    ensures FindCreatedDateTimeTag([fallback, original]) == Ok(original)
  {
    assert [fallback, original][1] == original;
  }

  /** "42" hundredths add 420 ms; "150" adds 1500 ms and carries into the
      seconds. As written, "042" also adds 420 ms: the value is read as an
      integer, not by its number of digits; and " 42" does too, since
      `int.Parse` skips surrounding white space. */
  lemma SubSecondExamples()
    ensures FindSubSeconds([Tag(0x9291, "", "42")]) == Ok(420)
    ensures FindSubSeconds([Tag(0x9291, "", "042")]) == Ok(420)
    ensures FindSubSeconds([Tag(0x9291, "", "150")]) == Ok(1500)
    ensures FindSubSeconds([Tag(0x9291, "", "x")]).Throws?
    ensures FindSubSeconds([Tag(0x9291, "", " 42")]) == Ok(420)
  {
    SubSecondsOf(" 42");
    SurroundingWhiteExamples();
    SubSecondsOf("42");
    SubSecondsOf("042");
    SubSecondsOf("150");
    SubSecondsOf("x");
    ParseInt32Examples();
    NotDigitsExamples();
    assert ToMilliseconds(42) == 420 && ToMilliseconds(150) == 1500;
  }

  /** The sub-seconds of a single 0x9291 tag are its parsed value, in tens of
      milliseconds. */
  lemma SubSecondsOf(value: string)
    ensures var t := [Tag(0x9291, "", value)];
      && (ParseInt32(value).Ok? ==> FindSubSeconds(t) == Ok(ToMilliseconds(ParseInt32(value).value)))
      && (ParseInt32(value).Throws? ==> FindSubSeconds(t).Throws?)
  {
    var t := [Tag(0x9291, "", value)];
    assert IsSubSecond(t[0]);
  }

  /** The example a camera writes: 2010-01-12 13:14:15 and "42" hundredths. */
  lemma CreatedExample()
    ensures New(CameraFilePath("file.jpg"),
                [Tag(0x9003, "", "2010:01:12 13:14:15"), Tag(0x9291, "", "42")])
            == Ok(CameraFile(Image, CameraFilePath("file.jpg"), ".jpg", DateTime(2010, 1, 12, 13, 14, 15, 420)))
  {
    InitializeExample();
    TagsExample();
    AddExample();
  }

  lemma InitializeExample()
    ensures Initialize(CameraFilePath("file.jpg")) == Ok(".jpg")
  {
    SuffixExample("file.jpg", ".jpg");
    assert !Text.IsNullOrWhiteSpace("file.jpg") by { assert !Text.IsWhiteSpace("file.jpg"[0]); }
  }

  lemma TagsExample()
    ensures var tags := [Tag(0x9003, "", "2010:01:12 13:14:15"), Tag(0x9291, "", "42")];
      && FindCreatedDateTimeTag(tags) == Ok(tags[0])
      && ParseCreatedDateTime(tags[0]) == Ok(DateTime(2010, 1, 12, 13, 14, 15, 0))
      && FindSubSeconds(tags) == Ok(420)
  {
    var tags := [Tag(0x9003, "", "2010:01:12 13:14:15"), Tag(0x9291, "", "42")];
    assert FindCreatedDateTimeTag(tags) == Ok(tags[0]);
    ExifExamples();
    SubSecondsExample(tags);
  }

  lemma SubSecondsExample(tags: seq<Tag>)
    requires tags == [Tag(0x9003, "", "2010:01:12 13:14:15"), Tag(0x9291, "", "42")]
    ensures FindSubSeconds(tags) == Ok(420)
  {
    assert tags[1].typ == 0x9291 && tags[1].value == "42";
    assert FirstIndex(tags, IsSubSecond) == 1;
    Parse42();
    assert ToMilliseconds(42) == 420;
  }

  lemma AddExample()
    ensures AddMilliseconds(DateTime(2010, 1, 12, 13, 14, 15, 0), 420) == Ok(DateTime(2010, 1, 12, 13, 14, 15, 420))
  {
    var parsed: ValidDateTime := DateTime(2010, 1, 12, 13, 14, 15, 0);
    var created: ValidDateTime := DateTime(2010, 1, 12, 13, 14, 15, 420);
    assert Instant(created) == Instant(parsed) + 420;
    DayNumberBounds(created);
    InstantInjective(AddMilliseconds(parsed, 420).value, created);
  }
}
