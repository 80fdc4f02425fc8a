/** `CameraFileNameConverter` of the middle generation: the destination
    directory, skipped or dated by a settable flag, and the full destination
    path of the file inside it. Nothing is wrapped: what the metadata reader
    or the camera file factory throws goes through. */
module NameConverter {
  import opened Wrappers
  import opened Text
  import opened Exif
  import opened AbstractCameraFile
  import NameFormat

  /** The directory, then the full name inside it, which starts with that
      directory and ends with the camera file's extension. */
  function Destination(cameraFile: CameraFile, destinationRootPath: string, skipDateSubDirectory: bool)
    : (r: (string, string))
    ensures r.0 == NameFormat.DestinationDirectory(destinationRootPath, cameraFile.created, skipDateSubDirectory)
    ensures r.1 == Combine(r.0, NameFormat.CameraFileName(cameraFile))
    ensures FullNameLayout(r.0, r.1, cameraFile.extension)
  {
    var directory := NameFormat.DestinationDirectory(destinationRootPath, cameraFile.created, skipDateSubDirectory);
    var name := NameFormat.CameraFileName(cameraFile);
    Placed(directory, name, cameraFile.extension);
    (directory, Combine(directory, name))
  }

  lemma Placed(directory: string, name: string, extension: string)
    requires name != [] && name[0] != '/'
    requires |extension| <= |name| && name[|name| - |extension|..] == extension
    ensures FullNameLayout(directory, Combine(directory, name), extension)
  {
    NameFormat.CombineLayout(directory, name, extension);
  }

  /** A full name inside `directory` ending with `extension`. */
  predicate FullNameLayout(directory: string, fullName: string, extension: string)
  {
    && |DirectoryPrefix(directory)| <= |fullName| && fullName[..|DirectoryPrefix(directory)|] == DirectoryPrefix(directory)
    && |extension| <= |fullName| && fullName[|fullName| - |extension|..] == extension
  }

  class CameraFileNameConverter {
    /** `IMetadataReader.ExtractTags`. */
    const extractTags: string -> Outcome<seq<Tag>>
    /** `ICameraFileFactory.Create`. */
    const create: (string, seq<Tag>) -> Outcome<CameraFile>
    /** `SkipDateSubDirectory`, settable after construction. */
    var skipDateSubDirectory: bool

    constructor (extractTags: string -> Outcome<seq<Tag>>, create: (string, seq<Tag>) -> Outcome<CameraFile>)
      ensures this.extractTags == extractTags && this.create == create
      ensures !skipDateSubDirectory
    {
      this.extractTags := extractTags;
      this.create := create;
      skipDateSubDirectory := false;
    }

    /** `GetCameraFile`: read the tags, then build the camera file. */
    function GetCameraFile(cameraFilePath: string): (r: Outcome<CameraFile>)
      ensures extractTags(cameraFilePath).Throws? ==> r == Throws(extractTags(cameraFilePath).exn)
      ensures extractTags(cameraFilePath).Ok? ==> r == create(cameraFilePath, extractTags(cameraFilePath).value)
    {
      match extractTags(cameraFilePath)
      case Throws(e) => Throws(e)
      case Ok(tags) => create(cameraFilePath, tags)
    }

    /** `Convert`: what `GetCameraFile` throws goes through; a camera file
        is placed by `Destination` under the flag as it is now. */
    function Convert(cameraFilePath: string, destinationRootPath: string): (r: Outcome<(string, string)>)
      reads this
      ensures r.Throws? <==> GetCameraFile(cameraFilePath).Throws?
      ensures r.Throws? ==> r.exn == GetCameraFile(cameraFilePath).exn
      ensures r.Ok? ==> r.value == Destination(GetCameraFile(cameraFilePath).value, destinationRootPath, skipDateSubDirectory)
    {
      match GetCameraFile(cameraFilePath)
      case Throws(e) => Throws(e)
      case Ok(cameraFile) => Ok(Destination(cameraFile, destinationRootPath, skipDateSubDirectory))
    }

    /** With the flag set, the file goes straight into the root. */
    lemma SkippedDirectoryIsRoot(cameraFilePath: string, destinationRootPath: string)
      requires skipDateSubDirectory && Convert(cameraFilePath, destinationRootPath).Ok?
      ensures Convert(cameraFilePath, destinationRootPath).value.0 == destinationRootPath
    {
    }
  }
}
