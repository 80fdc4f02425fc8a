/** `CameraFileNameConverter` of the oldest generation: always a date
    sub-directory under the root, and the full destination path inside it. */
module CanonNameConverter {
  import opened Wrappers
  import opened Calendar
  import opened Text
  import opened Exif
  import opened AbstractCameraFile
  import NameFormat
  import Parsing

  /** `GetCameraFile`: read the tags, then build the camera file; either
      step may throw. */
  function GetCameraFile(cameraFilePath: string, extractTags: string -> Outcome<seq<Tag>>,
                         create: (string, seq<Tag>) -> Outcome<CameraFile>): (r: Outcome<CameraFile>)
    ensures extractTags(cameraFilePath).Throws? ==> r == Throws(extractTags(cameraFilePath).exn)
    ensures extractTags(cameraFilePath).Ok? ==> r == create(cameraFilePath, extractTags(cameraFilePath).value)
  {
    match extractTags(cameraFilePath)
    case Throws(e) => Throws(e)
    case Ok(tags) => create(cameraFilePath, tags)
  }

  /** The dated directory under the root and the full name inside it. */
  function Destination(cameraFile: CameraFile, destinationRootPath: string): (r: (string, string))
    ensures r.0 == DirectoryPrefix(destinationRootPath) + NameFormat.DateSubDirectoryName(cameraFile.created)
    ensures r.1 == Combine(r.0, NameFormat.CameraFileName(cameraFile))
  {
    var directory := NameFormat.DestinationDirectory(destinationRootPath, cameraFile.created, false);
    (directory, Combine(directory, NameFormat.CameraFileName(cameraFile)))
  }

  /** The full destination name keeps the camera file's extension. */
  lemma DestinationKeepsExtension(cameraFile: CameraFile, destinationRootPath: string)
    ensures var r := Destination(cameraFile, destinationRootPath);
      |cameraFile.extension| <= |r.1| && r.1[|r.1| - |cameraFile.extension|..] == cameraFile.extension
  {
    NameInDirectoryKeepsExtension(Destination(cameraFile, destinationRootPath).0, cameraFile);
  }

  lemma NameInDirectoryKeepsExtension(directory: string, cameraFile: CameraFile)
    ensures var f := Combine(directory, NameFormat.CameraFileName(cameraFile));
      |cameraFile.extension| <= |f| && f[|f| - |cameraFile.extension|..] == cameraFile.extension
  {
    NameFormat.CombineLayout(directory, NameFormat.CameraFileName(cameraFile), cameraFile.extension);
  }

  /** `Convert`: `root/yyyy_MM_dd` and `root/yyyy_MM_dd/PREFIXyyyyMMdd_HHmmssfffEXT`;
      the full name is the camera-file name joined to the directory. */
  function Convert(cameraFilePath: string, destinationRootPath: string,
                   extractTags: string -> Outcome<seq<Tag>>,
                   create: (string, seq<Tag>) -> Outcome<CameraFile>): (r: Outcome<(string, string)>)
    ensures r.Throws? <==> GetCameraFile(cameraFilePath, extractTags, create).Throws?
    ensures r.Throws? ==> r.exn == GetCameraFile(cameraFilePath, extractTags, create).exn
    ensures r.Ok? ==> r.value == Destination(GetCameraFile(cameraFilePath, extractTags, create).value, destinationRootPath)
  {
    match GetCameraFile(cameraFilePath, extractTags, create)
    case Throws(e) => Throws(e)
    case Ok(cameraFile) => Ok(Destination(cameraFile, destinationRootPath))
  }

  /** The time part of the name is exactly nine digits: `HHmmss` and the
      three-digit millisecond. */
  lemma TimeIsNineDigits(cameraFile: CameraFile)
    ensures var n, p := NameFormat.CameraFileName(cameraFile), |cameraFile.DestinationNamePrefix()|;
      var time := n[p + 9..p + 18];
      |time| == 9 && AllDigits(time) && Parsing.ValueAt(time, 6, 3) == cameraFile.created.millisecond
  {
    var n, p := NameFormat.CameraFileName(cameraFile), |cameraFile.DestinationNamePrefix()|;
    var stamp := NameFormat.Stamp(cameraFile.created);
    assert n[p..p + 18] == stamp;
    assert n[p + 9..p + 18] == stamp[9..];
  }
}
