/** `VideoFile`: an MP4 or MOV video. Its capture time is the QuickTime
    creation tag (type 3 in the `QuickTime Movie Header` directory), written
    as `ddd MMM dd HH.mm.ss yyyy`. */
module VideoFiles {
  import opened Wrappers
  import opened Calendar
  import opened Parsing
  import opened Exif
  import opened CameraFilePaths
  import opened AbstractCameraFile

  const QuickTimeCreatedTag: int := 0x3
  const QuickTimeDirectory: string := "QuickTime Movie Header"

  predicate IsQuickTimeCreated(t: Tag)
  {
    t.directory == QuickTimeDirectory && t.typ == QuickTimeCreatedTag
  }

  /** The constructor: the base checks, then the first QuickTime creation tag
      (`InvalidOperationException` without one), then its parse
      (`FormatException` when it does not match the format). */
  function New(fullName: CameraFilePath, exifTags: seq<Tag>): (r: Outcome<CameraFile>)
    ensures Initialize(fullName).Throws? ==> r == Throws(Initialize(fullName).exn)
    ensures Initialize(fullName).Ok? && (forall j :: 0 <= j < |exifTags| ==> !IsQuickTimeCreated(exifTags[j])) ==>
              r.Throws? && r.exn.kind == InvalidOperationException
    ensures (exists j :: 0 <= j < |exifTags| && IsQuickTimeCreated(exifTags[j])) ==>
              var parsed := ParseQuickTimeDateTime(exifTags[FirstIndex(exifTags, IsQuickTimeCreated)].value);
              && (Initialize(fullName).Ok? && parsed.None? ==> r.Throws? && r.exn.kind == FormatException)
              && (r.Ok? ==> Some(r.value.created) == parsed)
              && (Initialize(fullName).Ok? && parsed.Some? ==>
                    r == Ok(Make(Video, fullName, Initialize(fullName).value, parsed.value)))
    ensures r.Ok? ==>
              && r.value.Valid() && r.value.kind == Video && r.value.fullName == fullName
              && r.value.created.millisecond == 0 && r.value.DestinationNamePrefix() == "VID_"
  {
    match Initialize(fullName)
    case Throws(e) => Throws(e)
    case Ok(extension) =>
      match First(exifTags, IsQuickTimeCreated)
      case Throws(e) => Throws(e)
      case Ok(createdTag) =>
        match ParseQuickTimeDateTime(createdTag.value)
        case None => Raise(FormatException, "String was not recognized as a valid DateTime.")
        case Some(created) => Ok(Make(Video, fullName, extension, created))
  }

  /** A type-3 tag from another directory is passed over. */
  lemma OtherDirectoriesIgnored(fullName: CameraFilePath, other: Tag, exifTags: seq<Tag>)
    requires other.typ == 0x3 && other.directory != QuickTimeDirectory
    ensures New(fullName, [other] + exifTags) == New(fullName, exifTags)
  {
    FirstSkipsNonMatching(other, exifTags, IsQuickTimeCreated);
  }

  /** The example a camera writes: Friday 13 June 1980, 14:15:16. */
  lemma CreatedExample()
    ensures New(CameraFilePath("file.mp4"), [Tag(0x3, "QuickTime Movie Header", "Fri Jun 13 14.15.16 1980")])
            == Ok(CameraFile(Video, CameraFilePath("file.mp4"), ".mp4", DateTime(1980, 6, 13, 14, 15, 16, 0)))
  {
    SuffixExample("file.mp4", ".mp4");
    assert !Text.IsNullOrWhiteSpace("file.mp4") by { assert !Text.IsWhiteSpace("file.mp4"[0]); }
    QuickTimeExample();
  }
}
