/** `CameraFileFinder` of the oldest generation: filters a directory
    listing, and rewords a missing directory. */
module CanonFileFinder {
  import opened Wrappers
  import opened Text
  import opened Linq
  import opened FileSystems
  import opened CameraFilePaths

  const ImageFileExtensions: seq<string> := [".jpg", ".cr2", ".dng", ".mp4"]

  /** `IsCameraFile`: the path ends, in any letter case, with a supported extension. */
  predicate IsCameraFile(filePath: string)
  {
    EndsWithAnyIgnoreCase(filePath, ImageFileExtensions)
  }

  /** `FindFilePaths`: the listing; `DirectoryNotFoundException` is thrown
      again with the directory as the user typed it and the original inside;
      any other exception passes through. */
  function FindFilePaths(fileSystem: FileSystem, directory: string): (r: Outcome<seq<string>>)
    reads fileSystem
    ensures fileSystem.GetFiles(directory).Ok? ==> r == fileSystem.GetFiles(directory)
    ensures fileSystem.GetFiles(directory).Throws? && fileSystem.GetFiles(directory).exn.kind == DirectoryNotFoundException ==>
              r == Throws(Exn(DirectoryNotFoundException, directory + " directory not found",
                              Some(fileSystem.GetFiles(directory).exn)))
    ensures fileSystem.GetFiles(directory).Throws? && fileSystem.GetFiles(directory).exn.kind != DirectoryNotFoundException ==>
              r == fileSystem.GetFiles(directory)
  {
    match fileSystem.GetFiles(directory)
    case Ok(files) => Ok(files)
    case Throws(e) =>
      if e.kind == DirectoryNotFoundException then
        Throws(Exn(DirectoryNotFoundException, directory + " directory not found", Some(e)))
      else Throws(e)
  }

  /** `FindCameraFiles`: the camera files of the listing, in no promised
      order (the result is consumed in parallel). */
  function FindCameraFiles(fileSystem: FileSystem, directory: string): (r: Outcome<seq<string>>)
    reads fileSystem
    ensures r.Ok? <==> fileSystem.GetFiles(directory).Ok?
    ensures r.Throws? ==> r == FindFilePaths(fileSystem, directory)
    ensures r.Ok? ==> forall x :: multiset(r.value)[x] ==
                        if IsCameraFile(x) then multiset(fileSystem.Listing(directory))[x] else 0
  {
    match FindFilePaths(fileSystem, directory)
    case Throws(e) => Throws(e)
    case Ok(files) =>
      WhereCounts(files, IsCameraFile);
      Ok(Where(files, IsCameraFile))
  }

  lemma ExtensionShapes()
    ensures LowerCaseExtensions(ImageFileExtensions)
  {
    ExtensionShape(".jpg");
    ExtensionShape(".cr2");
    ExtensionShape(".dng");
    ExtensionShape(".mp4");
  }

  /** A path is a camera file exactly when its lower-cased extension is
      supported. */
  lemma IsCameraFileIffSupportedExtension(filePath: string)
    ensures IsCameraFile(filePath) <==> ToLowerInvariant(CameraFilePath(filePath).GetExtension()) in ImageFileExtensions
  {
    ExtensionShapes();
    EndsWithAnyIffExtensionIn(filePath, ImageFileExtensions);
  }

  /** `.jpeg` and `.mov` files, in any letter case, are never found. */
  lemma JpegAndMovNotSupported(filePath: string)
    requires ToLowerInvariant(CameraFilePath(filePath).GetExtension()) in {".jpeg", ".mov"}
    ensures !IsCameraFile(filePath)
  {
    IsCameraFileIffSupportedExtension(filePath);
  }
}
