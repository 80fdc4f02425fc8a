/** `FileNameUtil`: the extension of a plain path string. */
module FileNameUtil {
  import opened Text
  import CameraFilePaths

  /** The suffix from the last `.`, case kept; empty without a `.`. It is the
      same rule as `CameraFilePath.GetExtension`, for every string. */
  function GetExtension(imagePath: string): (r: string)
    ensures CameraFilePaths.IsExtensionOf(imagePath, r)
    ensures r == CameraFilePaths.CameraFilePath(imagePath).GetExtension()
  {
    var extensionIndex := LastIndexOf(imagePath, '.');
    var r := if extensionIndex < 0 then "" else imagePath[extensionIndex..];
    CameraFilePaths.ExtensionUnique(imagePath, r, CameraFilePaths.CameraFilePath(imagePath).GetExtension());
    r
  }

  /** A path without a `.` has no extension; the extension keeps its case. */
  lemma GetExtensionExamples()
    ensures GetExtension("") == "" && GetExtension("file") == ""
    ensures GetExtension("file.ext") == ".ext" && GetExtension("file.asd.ext") == ".ext"
    ensures GetExtension("file.EXT") == ".EXT"
  {
    CameraFilePaths.GetExtensionExamples();
  }
}
