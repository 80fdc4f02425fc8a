/** `CameraFileFactory` of the newest generation: picks the camera-file
    variant from the lower-cased extension. `ImageFile.Create` and
    `VideoFile.Create`, which it calls, are not part of this model and are
    passed in; `DngImageFile.Create` is. */
module CameraFileFactory {
  import opened Wrappers
  import opened Text
  import opened Exif
  import opened CameraFilePaths
  import opened AbstractCameraFile
  import DngImageFiles

  /** The branches of the `switch`. */
  datatype Variant = ImageVariant | DngVariant | VideoVariant | UnknownType

  /** Every extension the factory accepts, in lower case. */
  const KnownExtensions: seq<string> := [".jpg", ".jpeg", ".cr2", ".dng", ".mp4", ".mov"]

  /** The `switch` on `ToLowerInvariant()` of the extension. */
  function SelectVariant(extension: string): (r: Variant)
    ensures r == UnknownType <==> ToLowerInvariant(extension) !in KnownExtensions
    ensures r == DngVariant <==> ToLowerInvariant(extension) == ".dng"
  {
    match ToLowerInvariant(extension)
    case ".jpg" => ImageVariant
    case ".jpeg" => ImageVariant
    case ".cr2" => ImageVariant
    case ".dng" => DngVariant
    case ".mp4" => VideoVariant
    case ".mov" => VideoVariant
    case _ => UnknownType
  }

  type Creator = (CameraFilePath, seq<Tag>) -> Outcome<Result<CameraFile>>

  /** `Create`: the chosen variant's outcome, success or failure, unchanged;
      an unknown extension throws `InvalidPathException` instead of failing. */
  function Create(filePath: CameraFilePath, metadata: seq<Tag>,
                  imageCreate: Creator, videoCreate: Creator): (r: Outcome<Result<CameraFile>>)
    ensures SelectVariant(filePath.GetExtension()) == ImageVariant ==> r == imageCreate(filePath, metadata)
    ensures SelectVariant(filePath.GetExtension()) == DngVariant ==> r == DngImageFiles.Create(filePath, metadata)
    ensures SelectVariant(filePath.GetExtension()) == VideoVariant ==> r == videoCreate(filePath, metadata)
    ensures SelectVariant(filePath.GetExtension()) == UnknownType ==>
              r == Throws(Exn(InvalidPathException, "Unknown file type " + filePath.value, None))
  {
    match SelectVariant(filePath.GetExtension())
    case ImageVariant => imageCreate(filePath, metadata)
    case DngVariant => DngImageFiles.Create(filePath, metadata)
    case VideoVariant => videoCreate(filePath, metadata)
    case UnknownType => Raise(InvalidPathException, "Unknown file type " + filePath.value)
  }

  /** Extensions that differ only in letter case are dispatched alike. */
  lemma SelectVariantIgnoresCase(e1: string, e2: string)
    requires ToLowerInvariant(e1) == ToLowerInvariant(e2)
    ensures SelectVariant(e1) == SelectVariant(e2)
  {
  }

  /** The dispatch table for images, upper-case spellings included. */
  lemma SelectImageExamples()
    ensures SelectVariant(".jpg") == ImageVariant && SelectVariant(".JPG") == ImageVariant
    ensures SelectVariant(".jpeg") == ImageVariant && SelectVariant(".CR2") == ImageVariant
  {
    assert ToLowerInvariant(".jpg") == ".jpg";
    assert ToLowerInvariant(".JPG") == ".jpg";
    assert ToLowerInvariant(".jpeg") == ".jpeg";
    assert ToLowerInvariant(".CR2") == ".cr2";
  }

  /** The dispatch table for DNG images and videos, in either case. */
  lemma SelectDngVideoExamples()
    ensures SelectVariant(".dng") == DngVariant && SelectVariant(".Dng") == DngVariant
    ensures SelectVariant(".mp4") == VideoVariant && SelectVariant(".MOV") == VideoVariant
  {
    assert ToLowerInvariant(".dng") == ".dng";
    assert ToLowerInvariant(".Dng") == ".dng";
    assert ToLowerInvariant(".mp4") == ".mp4";
    assert ToLowerInvariant(".MOV") == ".mov";
  }

  /** The empty extension and an unlisted one are of unknown type. */
  lemma SelectUnknownExamples()
    ensures SelectVariant("") == UnknownType && SelectVariant(".png") == UnknownType
  {
    assert ToLowerInvariant("") == "";
    assert ToLowerInvariant(".png") == ".png";
  }
}
