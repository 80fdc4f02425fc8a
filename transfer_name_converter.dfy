/** `CameraFileNameConverter` of the newest generation: classifies the file
    through the camera file factory and, if that succeeds, names its
    destination directory and file. A classification failure is returned as
    it is; what the metadata reader or the factory throws goes through. */
module TransferNameConverter {
  import opened Wrappers
  import opened Text
  import opened Calendar
  import opened Exif
  import opened CameraFilePaths
  import opened AbstractCameraFile
  import CameraFileFactory
  import NameFormat

  /** `CameraFileTransferer.Args`: the file, the destination root and the
      two options of one transfer. */
  datatype Args = Args(cameraFilePath: string, destinationRootDirectory: string,
                       dryRun: bool, skipDateSubdirectory: bool)

  /** `IMetadataReader.ExtractTags`, which may throw. */
  type MetadataReader = CameraFilePath -> Outcome<seq<Tag>>

  /** The pair `Convert` returns for a camera file the factory produced. */
  function Destination(args: Args, cameraFile: CameraFile): (r: (string, string))
    ensures r.0 == NameFormat.DestinationDirectory(args.destinationRootDirectory, cameraFile.created, args.skipDateSubdirectory)
    ensures r.1 == NameFormat.CameraFileName(cameraFile)
  {
    (NameFormat.DestinationDirectory(args.destinationRootDirectory, cameraFile.created, args.skipDateSubdirectory),
     NameFormat.CameraFileName(cameraFile))
  }

  /** `GetCameraFile`: read the tags, then let the factory classify the file. */
  function GetCameraFile(path: CameraFilePath, extractTags: MetadataReader,
                         imageCreate: CameraFileFactory.Creator, videoCreate: CameraFileFactory.Creator)
    : (r: Outcome<Result<CameraFile>>)
    ensures extractTags(path).Throws? ==> r == Throws(extractTags(path).exn)
    ensures extractTags(path).Ok? ==> r == CameraFileFactory.Create(path, extractTags(path).value, imageCreate, videoCreate)
  {
    match extractTags(path)
    case Throws(e) => Throws(e)
    case Ok(tags) => CameraFileFactory.Create(path, tags, imageCreate, videoCreate)
  }

  /** `Convert`: a thrown exception and a failed classification pass through
      unchanged; a camera file is named by `Destination`. */
  function Convert(args: Args, extractTags: MetadataReader,
                   imageCreate: CameraFileFactory.Creator, videoCreate: CameraFileFactory.Creator)
    : (r: Outcome<Result<(string, string)>>)
    ensures var c := GetCameraFile(CameraFilePath(args.cameraFilePath), extractTags, imageCreate, videoCreate);
      && (r.Throws? <==> c.Throws?)
      && (c.Throws? ==> r.exn == c.exn)
      && (c.Ok? && c.value.Failure? <==> r.Ok? && r.value.Failure?)
      && (c.Ok? && c.value.Failure? ==> r.value.error == c.value.error)
      && (c.Ok? && c.value.Success? ==> r == Ok(Success(Destination(args, c.value.value))))
  {
    match GetCameraFile(CameraFilePath(args.cameraFilePath), extractTags, imageCreate, videoCreate)
    case Throws(e) => Throws(e)
    case Ok(Failure(error)) => Ok(Failure(error))
    case Ok(Success(cameraFile)) => Ok(Success(Destination(args, cameraFile)))
  }

  /** The sub-directory and the file name carry the same date: the directory
      is the root followed by the name's `yyyyMMdd` with `_` between the
      fields. */
  lemma DirectoryDateMatchesFileName(args: Args, cameraFile: CameraFile)
    requires !args.skipDateSubdirectory
    ensures var (directory, name) := Destination(args, cameraFile);
      var p := |cameraFile.DestinationNamePrefix()|;
      directory == Combine(args.destinationRootDirectory, name[p..p + 4] + "_" + name[p + 4..p + 6] + "_" + name[p + 6..p + 8])
  {
    NameFormat.SubDirectoryInFileName(cameraFile.DestinationNamePrefix(), cameraFile.created, cameraFile.extension);
  }

  /** Two camera files of the same kind and extension whose capture times
      differ, by as little as a millisecond, are never given the same name. */
  lemma DistinctTimesDistinctNames(a: CameraFile, b: CameraFile)
    requires a.DestinationNamePrefix() == b.DestinationNamePrefix() && a.extension == b.extension
    requires a.created != b.created
    ensures NameFormat.CameraFileName(a) != NameFormat.CameraFileName(b)
  {
    if NameFormat.CameraFileName(a) == NameFormat.CameraFileName(b) {
      NameFormat.DestinationFileNameInjective(a.DestinationNamePrefix(), a.created, b.created, a.extension);
    }
  }

  /** A photo of 2010-01-12 13:14:15.420 with extension `.JPG`: the date
      directory under the root, and the extension kept in upper case. */
  lemma PhotoExample(root: string, photo: CameraFile)
    requires photo.kind == Image && photo.extension == ".JPG" && photo.created == DateTime(2010, 1, 12, 13, 14, 15, 420)
    ensures Destination(Args(photo.fullName.value, root, false, false), photo)
            == (DirectoryPrefix(root) + "2010_01_12", "IMG_20100112_131415420.JPG")
    ensures Destination(Args(photo.fullName.value, root, false, true), photo) == (root, "IMG_20100112_131415420.JPG")
  {
    NameFormat.DirectoryExample(photo.created);
    NameFormat.NameExample(photo.created);
  }
}
