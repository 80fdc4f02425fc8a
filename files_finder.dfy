/** `CameraFilesFinder` of the middle generation: a missing path throws
    `PathNotFoundException`; `.mov` is not supported. */
module FilesFinder {
  import opened Wrappers
  import opened Text
  import opened Linq
  import opened FileSystems
  import opened CameraFilePaths

  const CameraFileExtensions: seq<string> := [".jpg", ".jpeg", ".cr2", ".dng", ".mp4"]

  /** `IsCameraFile`: the path ends, in any letter case, with a supported extension. */
  predicate IsCameraFile(filePath: string)
  {
    EndsWithAnyIgnoreCase(filePath, CameraFileExtensions)
  }

  /** `FindFilePaths`: the listing of a directory, or the path itself. */
  function FindFilePaths(fileSystem: FileSystem, path: string): (r: Outcome<seq<string>>)
    reads fileSystem
    ensures !fileSystem.DirectoryExists(path) ==> r == Ok([path])
    ensures fileSystem.DirectoryExists(path) ==> r == fileSystem.GetFiles(path)
  {
    if fileSystem.DirectoryExists(path) then fileSystem.GetFiles(path) else Ok([path])
  }

  /** `FindCameraFiles`: the camera files among the candidates, in no
      promised order (the result is consumed in parallel). */
  function FindCameraFiles(fileSystem: FileSystem, path: string): (r: Outcome<seq<string>>)
    reads fileSystem
    ensures !fileSystem.Exists(path) ==> r == Throws(Exn(PathNotFoundException, path + " not found", None))
    ensures fileSystem.Exists(path) ==> (r.Ok? <==> FindFilePaths(fileSystem, path).Ok?)
    ensures fileSystem.Exists(path) && r.Throws? ==> r == FindFilePaths(fileSystem, path)
    ensures r.Ok? ==> forall x :: multiset(r.value)[x] ==
                        if IsCameraFile(x) then multiset(FindFilePaths(fileSystem, path).value)[x] else 0
  {
    if !fileSystem.Exists(path) then
      Raise(PathNotFoundException, path + " not found")
    else
      match FindFilePaths(fileSystem, path)
      case Throws(e) => Throws(e)
      case Ok(candidates) =>
        WhereCounts(candidates, IsCameraFile);
        Ok(Where(candidates, IsCameraFile))
  }

  /** A single file gives itself when supported and nothing otherwise,
      though the interface's documentation promises an exception there. */
  lemma SingleFile(fileSystem: FileSystem, path: string)
    requires fileSystem.FileExists(path) && !fileSystem.DirectoryExists(path)
    ensures FindCameraFiles(fileSystem, path) == Ok(if IsCameraFile(path) then [path] else [])
  {
    WhereSingleton(path, IsCameraFile);
  }

  lemma ExtensionShapes()
    ensures LowerCaseExtensions(CameraFileExtensions)
  {
    ExtensionShape(".jpg");
    ExtensionShape(".jpeg");
    ExtensionShape(".cr2");
    ExtensionShape(".dng");
    ExtensionShape(".mp4");
  }

  /** A path is a camera file exactly when its lower-cased extension is
      supported. */
  lemma IsCameraFileIffSupportedExtension(filePath: string)
    ensures IsCameraFile(filePath) <==> ToLowerInvariant(CameraFilePath(filePath).GetExtension()) in CameraFileExtensions
  {
    ExtensionShapes();
    EndsWithAnyIffExtensionIn(filePath, CameraFileExtensions);
  }

  /** `.mov` files, in any letter case, are never found. */
  lemma MovNotSupported(filePath: string)
    requires ToLowerInvariant(CameraFilePath(filePath).GetExtension()) == ".mov"
    ensures !IsCameraFile(filePath)
  {
    IsCameraFileIffSupportedExtension(filePath);
  }
}
