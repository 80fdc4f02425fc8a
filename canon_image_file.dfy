/** `ImageFile` of the oldest generation (the Canon EOS downloader). Both
    tags must come from the `Exif SubIFD` directory, and both are required:
    `DateTimeOriginal` (0x9003) and `SubSecTimeOriginal` (0x9291). */
module CanonImageFiles {
  import opened Wrappers
  import opened Calendar
  import opened Parsing
  import opened Exif
  import opened CameraFilePaths
  import opened AbstractCameraFile
  import FileNameUtil

  const ExifSubIfd: string := "Exif SubIFD"
  const DateTimeOriginalTagType: int := 0x9003
  const SubSecondTagType: int := 0x9291

  predicate IsDateTimeOriginal(t: Tag) { t.directory == ExifSubIfd && t.typ == DateTimeOriginalTagType }
  predicate IsSubSecond(t: Tag) { t.directory == ExifSubIfd && t.typ == SubSecondTagType }

  /** `subSeconds * 10` in unchecked 32-bit arithmetic. */
  function ToMilliseconds(subSeconds: int): (r: int)
    requires IsInt32(subSeconds)
    ensures IsInt32(r)
    ensures -0x0CCC_CCCC <= subSeconds <= 0x0CCC_CCCC ==> r == subSeconds * 10
  {
    WrapInt32(subSeconds * 10)
  }

  /** The constructor body after the base constructor: `Created`. Each step
      throws in turn: no date tag (`InvalidOperationException`), a bad date
      (`FormatException`), no sub-second tag (`InvalidOperationException`), a
      sub-second value that is not a 32-bit integer, and a sum outside the
      `DateTime` range. */
  function Created(exifTags: seq<Tag>): (r: Outcome<ValidDateTime>)
    ensures (forall j :: 0 <= j < |exifTags| ==> !IsDateTimeOriginal(exifTags[j])) ==>
              r.Throws? && r.exn.kind == InvalidOperationException
    ensures (forall j :: 0 <= j < |exifTags| ==> !IsSubSecond(exifTags[j])) ==> r.Throws?
    ensures r.Ok? ==>
              var date := exifTags[FirstIndex(exifTags, IsDateTimeOriginal)].value;
              var sub := exifTags[FirstIndex(exifTags, IsSubSecond)].value;
              && ParseExifDateTime(date).Some? && ParseInt32(sub).Ok?
              && Instant(r.value) == Instant(ParseExifDateTime(date).value) + ToMilliseconds(ParseInt32(sub).value)
    ensures var date, sub := First(exifTags, IsDateTimeOriginal), First(exifTags, IsSubSecond);
            r.Ok? <==>
              && date.Ok? && ParseExifDateTime(date.value.value).Some?
              && sub.Ok? && ParseInt32(sub.value.value).Ok?
              && 0 <= Instant(ParseExifDateTime(date.value.value).value)
                      + ToMilliseconds(ParseInt32(sub.value.value).value) <= MaxInstant
    ensures var date := First(exifTags, IsDateTimeOriginal);
            date.Ok? && ParseExifDateTime(date.value.value).None? ==> r.Throws? && r.exn.kind == FormatException
    ensures var date, sub := First(exifTags, IsDateTimeOriginal), First(exifTags, IsSubSecond);
            date.Ok? && ParseExifDateTime(date.value.value).Some? && sub.Ok? && ParseInt32(sub.value.value).Throws? ==>
              r == Throws(ParseInt32(sub.value.value).exn)
    ensures var date, sub := First(exifTags, IsDateTimeOriginal), First(exifTags, IsSubSecond);
            (date.Ok? && ParseExifDateTime(date.value.value).Some? && sub.Ok? && ParseInt32(sub.value.value).Ok?
             && r.Throws?) ==> r.exn.kind == ArgumentOutOfRangeException
  {
    match First(exifTags, IsDateTimeOriginal)
    case Throws(e) => Throws(e)
    case Ok(dateTimeOriginal) =>
      match ParseExifDateTime(dateTimeOriginal.value)
      case None => Raise(FormatException, "String was not recognized as a valid DateTime.")
      case Some(parsed) => AddSubSeconds(parsed, exifTags)
  }

  /** The second half of `Created`: the sub-second tag, its parse and the
      addition to the parsed date. */
  function AddSubSeconds(parsed: ValidDateTime, exifTags: seq<Tag>): (r: Outcome<ValidDateTime>)
    ensures var sub := First(exifTags, IsSubSecond);
            r.Ok? <==> sub.Ok? && ParseInt32(sub.value.value).Ok?
                       && 0 <= Instant(parsed) + ToMilliseconds(ParseInt32(sub.value.value).value) <= MaxInstant
    ensures var sub := First(exifTags, IsSubSecond);
            r.Ok? ==> Instant(r.value) == Instant(parsed) + ToMilliseconds(ParseInt32(sub.value.value).value)
    ensures First(exifTags, IsSubSecond).Throws? ==> r.Throws? && r.exn.kind == InvalidOperationException
    ensures var sub := First(exifTags, IsSubSecond);
            sub.Ok? && ParseInt32(sub.value.value).Throws? ==> r == Throws(ParseInt32(sub.value.value).exn)
    ensures var sub := First(exifTags, IsSubSecond);
            (sub.Ok? && ParseInt32(sub.value.value).Ok? && r.Throws?) ==> r.exn.kind == ArgumentOutOfRangeException
  {
    match First(exifTags, IsSubSecond)
    case Throws(e) => Throws(e)
    case Ok(subSeconds) =>
      match ParseInt32(subSeconds.value)
      case Throws(e) => Throws(e)
      case Ok(n) => AddMilliseconds(parsed, ToMilliseconds(n))
  }

  /** `new ImageFile(fullName, exifTags)`: a photo with prefix `IMG_`. */
  function New(fullName: string, exifTags: seq<Tag>): (r: Outcome<CameraFile>)
    ensures r.Ok? <==> Created(exifTags).Ok?
    ensures r.Ok? ==> r.value.kind == Image && r.value.created == Created(exifTags).value
    ensures r.Ok? ==> r.value.fullName.value == fullName && r.value.DestinationNamePrefix() == "IMG_"
  {
    match Created(exifTags)
    case Throws(e) => Throws(e)
    case Ok(created) => Ok(CameraFile(Image, CameraFilePath(fullName), FileNameUtil.GetExtension(fullName), created))
  }

  /** A date tag outside `Exif SubIFD` does not count. */
  lemma OtherDirectoriesIgnored(other: Tag, exifTags: seq<Tag>)
    requires other.directory != ExifSubIfd
    ensures Created([other] + exifTags) == Created(exifTags)
  {
    FirstSkipsNonMatching(other, exifTags, IsDateTimeOriginal);
    FirstSkipsNonMatching(other, exifTags, IsSubSecond);
  }

  /** The example a camera writes: 2010-11-12 13:14:15 and "16" hundredths. */
  lemma CreatedExample()
    ensures Created([Tag(0x9003, "Exif SubIFD", "2010:11:12 13:14:15"), Tag(0x9291, "Exif SubIFD", "16")])
            == Ok(DateTime(2010, 11, 12, 13, 14, 15, 160))
  {
    var tags := [Tag(0x9003, "Exif SubIFD", "2010:11:12 13:14:15"), Tag(0x9291, "Exif SubIFD", "16")];
    LookupExample(tags);
    ParseExample();
    AddExample();
  }

  lemma LookupExample(tags: seq<Tag>)
    requires tags == [Tag(0x9003, "Exif SubIFD", "2010:11:12 13:14:15"), Tag(0x9291, "Exif SubIFD", "16")]
    ensures First(tags, IsDateTimeOriginal) == Ok(tags[0])
    ensures First(tags, IsSubSecond) == Ok(tags[1])
  {
    assert IsDateTimeOriginal(tags[0]) && !IsSubSecond(tags[0]) && IsSubSecond(tags[1]);
    assert FirstIndex(tags, IsSubSecond) == 1;
  }

  lemma ParseExample()
    ensures ParseExifDateTime("2010:11:12 13:14:15") == Some(DateTime(2010, 11, 12, 13, 14, 15, 0))
    ensures ParseInt32("16") == Ok(16) && ToMilliseconds(16) == 160
  {
    ExifExamples();
    ParseInt32Examples();
  }

  lemma AddExample()
    ensures AddMilliseconds(DateTime(2010, 11, 12, 13, 14, 15, 0), 160) == Ok(DateTime(2010, 11, 12, 13, 14, 15, 160))
  {
    var parsed: ValidDateTime := DateTime(2010, 11, 12, 13, 14, 15, 0);
    var created: ValidDateTime := DateTime(2010, 11, 12, 13, 14, 15, 160);
    assert Instant(created) == Instant(parsed) + 160;
    DayNumberBounds(created);
    InstantInjective(AddMilliseconds(parsed, 160).value, created);
  }
}
