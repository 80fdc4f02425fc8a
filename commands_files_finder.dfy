/** `CameraFilesFinder` of the newest generation: lists the camera files
    under a path, reporting a missing path as a failed result and announcing
    how many files it found. */
module CommandsFilesFinder {
  import opened Wrappers
  import opened Text
  import opened CameraFilePaths
  import opened FileSystems
  import opened Linq
  import CameraFileFactory

  /** The supported extensions, compared ignoring case. */
  const CameraFileExtensions: seq<string> := [".jpg", ".jpeg", ".cr2", ".dng", ".mp4", ".mov"]

  /** `IsCameraFile`: the path ends, in any letter case, with a supported extension. */
  predicate IsCameraFile(filePath: string)
  {
    EndsWithAnyIgnoreCase(filePath, CameraFileExtensions)
  }

  /** `Select(s => new CameraFilePath(s))`. */
  function Wrap(paths: seq<string>): (r: seq<CameraFilePath>)
    ensures |r| == |paths| && forall i :: 0 <= i < |paths| ==> r[i].value == paths[i]
  {
    seq(|paths|, i requires 0 <= i < |paths| => CameraFilePath(paths[i]))
  }

  /** The texts of a sequence of paths. */
  function Values(paths: seq<CameraFilePath>): (r: seq<string>)
    ensures |r| == |paths| && forall i :: 0 <= i < |paths| ==> r[i] == paths[i].value
  {
    seq(|paths|, i requires 0 <= i < |paths| => paths[i].value)
  }

  /** A path without a `.` has no extension and is never a camera file. */
  lemma NoExtensionNoCameraFile(filePath: string)
    requires '.' !in filePath
    ensures !IsCameraFile(filePath)
  {
    ExtensionShapes();
    EndsWithAnyIffExtensionIn(filePath, CameraFileExtensions);
  }

  lemma ExtensionShapes()
    ensures LowerCaseExtensions(CameraFileExtensions)
  {
    ExtensionShape(".jpg");
    ExtensionShape(".jpeg");
    ExtensionShape(".cr2");
    ExtensionShape(".dng");
    ExtensionShape(".mp4");
    ExtensionShape(".mov");
  }

  /** The finder and the factory agree: a path is listed exactly when the
      factory knows the type of its extension. */
  lemma IsCameraFileIffKnownType(filePath: string)
    ensures IsCameraFile(filePath) <==>
            CameraFileFactory.SelectVariant(CameraFilePath(filePath).GetExtension()) != CameraFileFactory.UnknownType
  {
    ExtensionShapes();
    EndsWithAnyIffExtensionIn(filePath, CameraFileExtensions);
    assert CameraFileExtensions == CameraFileFactory.KnownExtensions;
  }

  class CameraFilesFinder {
    const fileSystem: FileSystem
    /** The counts `OnCameraFilesFound` announced, oldest first. */
    var foundCounts: seq<int>

    constructor (fileSystem: FileSystem)
      ensures this.fileSystem == fileSystem && foundCounts == []
    {
      this.fileSystem := fileSystem;
      foundCounts := [];
    }

    /** `FindFilePaths`: the recursive listing of a directory, or the path
        itself when it is a file. */
    function FindFilePaths(path: string): (r: seq<string>)
      reads fileSystem
      ensures fileSystem.DirectoryExists(path) ==> r == fileSystem.Listing(path)
      ensures !fileSystem.DirectoryExists(path) ==> r == [path]
    {
      if fileSystem.DirectoryExists(path) then fileSystem.Listing(path) else [path]
    }

    /** What `FindCameraFiles` returns for `path` in the current state. */
    function Found(path: string): (r: Result<seq<CameraFilePath>>)
      reads fileSystem
      ensures r.Failure? <==> !fileSystem.Exists(path)
      ensures r.Failure? ==> r.error == path + " does not exist."
      ensures r.Success? ==> Values(r.value) == Where(FindFilePaths(path), IsCameraFile)
      ensures r.Success? ==> forall i :: 0 <= i < |r.value| ==> IsCameraFile(r.value[i].value)
      ensures r.Success? ==> forall x :: multiset(Values(r.value))[x] ==
                                 if IsCameraFile(x) then multiset(FindFilePaths(path))[x] else 0
    {
      if !fileSystem.DirectoryExists(path) && !fileSystem.FileExists(path) then
        Failure(path + " does not exist.")
      else
        var candidates := FindFilePaths(path);
        WhereCounts(candidates, IsCameraFile);
        var r := Wrap(Where(candidates, IsCameraFile));
        assert Values(r) == Where(candidates, IsCameraFile);
        Success(r)
    }

    /** `FindCameraFiles`: on success `OnCameraFilesFound` fires once with
        the number of files found; on failure it does not fire. */
    method FindCameraFiles(path: string) returns (r: Result<seq<CameraFilePath>>)
      modifies this
      ensures r == Found(path)
      ensures r.Success? ==> foundCounts == old(foundCounts) + [|r.value|]
      ensures r.Failure? ==> foundCounts == old(foundCounts)
    {
      if !fileSystem.DirectoryExists(path) && !fileSystem.FileExists(path) {
        return Failure(path + " does not exist.");
      }
      var result := Wrap(Where(FindFilePaths(path), IsCameraFile));
      assert Values(result) == Where(FindFilePaths(path), IsCameraFile);
      foundCounts := foundCounts + [|result|];
      return Success(result);
    }

    /** A single file is its own candidate: it is found exactly when it is
        a camera file. */
    lemma SingleFile(path: string)
      requires fileSystem.FileExists(path) && !fileSystem.DirectoryExists(path)
      ensures Found(path) == Success(if IsCameraFile(path) then [CameraFilePath(path)] else [])
    {
      assert FindFilePaths(path) == [path];
      WhereSingleton(path, IsCameraFile);
      assert Wrap([path]) == [CameraFilePath(path)] && Wrap([]) == [];
    }
  }
}
