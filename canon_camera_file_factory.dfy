/** `CameraFileFactory` of the oldest generation: an exact, case-sensitive
    match on the extension. Its `DngImageFile` and `VideoFile` are not part
    of this model and are passed in. */
module CanonCameraFileFactory {
  import opened Wrappers
  import opened Exif
  import opened AbstractCameraFile
  import FileNameUtil
  import CanonImageFiles

  type Constructor = (string, seq<Tag>) -> Outcome<CameraFile>

  /** `Create`: `.jpg` and `.cr2` make an `ImageFile`, `.dng` a `DngImageFile`,
      `.mp4` a `VideoFile`; any other extension, `.JPG` and `.jpeg` included,
      throws `InvalidPathException`. */
  function Create(filePath: string, metadata: seq<Tag>, dngNew: Constructor, videoNew: Constructor): (r: Outcome<CameraFile>)
    ensures FileNameUtil.GetExtension(filePath) in {".jpg", ".cr2"} ==> r == CanonImageFiles.New(filePath, metadata)
    ensures FileNameUtil.GetExtension(filePath) == ".dng" ==> r == dngNew(filePath, metadata)
    ensures FileNameUtil.GetExtension(filePath) == ".mp4" ==> r == videoNew(filePath, metadata)
    ensures FileNameUtil.GetExtension(filePath) !in {".jpg", ".cr2", ".dng", ".mp4"} ==>
              r == Throws(Exn(InvalidPathException, "Unknown file type " + filePath, None))
  {
    match FileNameUtil.GetExtension(filePath)
    case ".jpg" => CanonImageFiles.New(filePath, metadata)
    case ".cr2" => CanonImageFiles.New(filePath, metadata)
    case ".dng" => dngNew(filePath, metadata)
    case ".mp4" => videoNew(filePath, metadata)
    case _ => Raise(InvalidPathException, "Unknown file type " + filePath)
  }

  /** Upper-case extensions are not recognised, nor are `.jpeg` and `.mov`. */
  lemma UnknownExtensions(metadata: seq<Tag>, dngNew: Constructor, videoNew: Constructor)
    ensures Create("IMG_1234.JPG", metadata, dngNew, videoNew).Throws?
    ensures Create("IMG_1234.jpeg", metadata, dngNew, videoNew).Throws?
    ensures Create("MVI_1234.mov", metadata, dngNew, videoNew).Throws?
    ensures Create("file.jpg", metadata, dngNew, videoNew) == CanonImageFiles.New("file.jpg", metadata)
  {
    UpperJpg();
    Unknown("IMG_1234.JPG", ".JPG", metadata, dngNew, videoNew);
    Jpeg();
    Unknown("IMG_1234.jpeg", ".jpeg", metadata, dngNew, videoNew);
    Mov();
    Unknown("MVI_1234.mov", ".mov", metadata, dngNew, videoNew);
    LowerJpg();
  }

  /** Any extension outside the four throws. */
  lemma Unknown(filePath: string, extension: string, metadata: seq<Tag>, dngNew: Constructor, videoNew: Constructor)
    requires FileNameUtil.GetExtension(filePath) == extension
    requires extension != ".jpg" && extension != ".cr2" && extension != ".dng" && extension != ".mp4"
    ensures Create(filePath, metadata, dngNew, videoNew).Throws?
  {
  }

  lemma UpperJpg()
    ensures FileNameUtil.GetExtension("IMG_1234.JPG") == ".JPG"
  {
    Suffix("IMG_1234.JPG", ".JPG");
  }

  lemma Jpeg()
    ensures FileNameUtil.GetExtension("IMG_1234.jpeg") == ".jpeg"
  {
    Suffix("IMG_1234.jpeg", ".jpeg");
  }

  lemma Mov()
    ensures FileNameUtil.GetExtension("MVI_1234.mov") == ".mov"
  {
    Suffix("MVI_1234.mov", ".mov");
  }

  lemma LowerJpg()
    ensures FileNameUtil.GetExtension("file.jpg") == ".jpg"
  {
    Suffix("file.jpg", ".jpg");
  }

  /** A dot-led suffix with no other dot is the extension. */
  lemma Suffix(path: string, extension: string)
    requires 1 <= |extension| <= |path| && path[|path| - |extension|..] == extension
    requires extension[0] == '.' && '.' !in extension[1..]
    ensures FileNameUtil.GetExtension(path) == extension
  {
    assert path[|path| - |extension|] == '.';
    CameraFilePaths.ExtensionUnique(path, FileNameUtil.GetExtension(path), extension);
  }
}
