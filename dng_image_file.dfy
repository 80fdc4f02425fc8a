/** `DngImageFile`: a raw Android photo. Its capture time is the first
    `DateTimeOriginal` tag (0x9003) alone: no fallback tag and no sub-seconds.
    Missing or unreadable metadata is a failed `Result`, not an exception. */
module DngImageFiles {
  import opened Wrappers
  import opened Calendar
  import opened Parsing
  import opened Exif
  import opened CameraFilePaths
  import opened AbstractCameraFile

  const DateTimeOriginalTagType: int := 0x9003

  predicate IsDateTimeOriginal(t: Tag) { t.typ == DateTimeOriginalTagType }

  /** `Create`: the tag is looked up and parsed before the constructor runs,
      so only a well-dated file can reach the base constructor's checks. */
  function Create(fullName: CameraFilePath, exifTags: seq<Tag>): (r: Outcome<Result<CameraFile>>)
    ensures (forall j :: 0 <= j < |exifTags| ==> exifTags[j].typ != 0x9003) ==>
              r == Ok(Failure("Metadata not found"))
    ensures (exists j :: 0 <= j < |exifTags| && exifTags[j].typ == 0x9003) ==>
              var value := exifTags[FirstIndex(exifTags, IsDateTimeOriginal)].value;
              && (ParseExifDateTime(value).None? ==> r == Ok(Failure("Invalid metadata")))
              && (r.Ok? && r.value.Success? ==> Some(r.value.value.created) == ParseExifDateTime(value))
              && (ParseExifDateTime(value).Some? && Initialize(fullName).Ok? ==> r.Ok? && r.value.Success?)
    ensures r.Ok? && r.value.Success? ==>
              && r.value.value.Valid() && r.value.value.kind == Dng && r.value.value.fullName == fullName
              && r.value.value.created.millisecond == 0 && r.value.value.DestinationNamePrefix() == "IMG_"
    ensures r.Throws? <==>
              Initialize(fullName).Throws?
              && (exists j :: 0 <= j < |exifTags| && exifTags[j].typ == 0x9003)
              && ParseExifDateTime(exifTags[FirstIndex(exifTags, IsDateTimeOriginal)].value).Some?
    ensures r.Throws? ==> r.exn.kind == ArgumentException
  {
    match FirstOrDefault(exifTags, IsDateTimeOriginal)
    case None => Ok(Failure("Metadata not found"))
    case Some(dateTimeOriginal) => FromDateTimeOriginal(fullName, dateTimeOriginal.value)
  }

  /** The part of `Create` after the lookup: parse the tag's value, then
      run the base constructor's checks. */
  function FromDateTimeOriginal(fullName: CameraFilePath, value: string): (r: Outcome<Result<CameraFile>>)
    ensures ParseExifDateTime(value).None? ==> r == Ok(Failure("Invalid metadata"))
    ensures ParseExifDateTime(value).Some? && Initialize(fullName).Ok? ==> r.Ok? && r.value.Success?
    ensures r.Ok? && r.value.Success? ==>
              && Some(r.value.value.created) == ParseExifDateTime(value)
              && r.value.value.Valid() && r.value.value.kind == Dng && r.value.value.fullName == fullName
              && r.value.value.created.millisecond == 0 && r.value.value.DestinationNamePrefix() == "IMG_"
    ensures r.Throws? <==> Initialize(fullName).Throws? && ParseExifDateTime(value).Some?
    ensures r.Throws? ==> r.exn.kind == ArgumentException
  {
    match ParseExifDateTime(value)
    case None => Ok(Failure("Invalid metadata"))
    case Some(parsedDateTime) => Construct(fullName, parsedDateTime)
  }

  /** The constructor over a parsed capture time. */
  function Construct(fullName: CameraFilePath, created: ValidDateTime): (r: Outcome<Result<CameraFile>>)
    ensures r.Throws? <==> Initialize(fullName).Throws?
    ensures r.Throws? ==> r.exn.kind == ArgumentException
    ensures r.Ok? ==>
              && r.value.Success? && r.value.value.created == created
              && r.value.value.Valid() && r.value.value.kind == Dng && r.value.value.fullName == fullName
              && r.value.value.DestinationNamePrefix() == "IMG_"
  {
    match Initialize(fullName)
    case Throws(e) => Throws(e)
    case Ok(extension) => Ok(Success(Make(Dng, fullName, extension, created)))
  }

  /** Only the first 0x9003 tag counts: whatever follows it is ignored. */
  lemma LaterTagsIgnored(fullName: CameraFilePath, exifTags: seq<Tag>, rest: seq<Tag>)
    requires exists j :: 0 <= j < |exifTags| && exifTags[j].typ == 0x9003
    ensures Create(fullName, exifTags + rest) == Create(fullName, exifTags)
  {
    FirstIndexIgnoresRest(exifTags, rest, IsDateTimeOriginal);
    var i := FirstIndex(exifTags, IsDateTimeOriginal);
    assert (exifTags + rest)[i] == exifTags[i];
  }
}
