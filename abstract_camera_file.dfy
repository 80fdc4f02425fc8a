/** `AbstractCameraFile` and `ICameraFile`: a camera file has a full name,
    an extension taken from it, a capture time and a destination-name prefix.
    Every property is get-only, so a camera file is a value. */
module AbstractCameraFile {
  import opened Wrappers
  import opened Text
  import opened Calendar
  import opened CameraFilePaths

  /** The three kinds of camera file: JPEG or CR2 photo, DNG raw photo, video. */
  datatype Kind = Image | Dng | Video

  datatype CameraFile = CameraFile(kind: Kind, fullName: CameraFilePath, extension: string,
                                   created: ValidDateTime)
  {
    /** `DestinationNamePrefix`: `VID_` for videos, `IMG_` for both photo kinds. */
    function DestinationNamePrefix(): string
    {
      if kind == Video then "VID_" else "IMG_"
    }

    /** `ToString()`: the full name. */
    function ToString(): string
    {
      fullName.value
    }

    /** What the base constructor guarantees about every camera file. */
    predicate Valid()
    {
      && !IsNullOrWhiteSpace(fullName.value)
      && extension == fullName.GetExtension()
      && !IsNullOrWhiteSpace(extension)
    }
  }

  /** The base constructor: a blank full name, or one whose extension is
      blank, throws `ArgumentException`; otherwise it yields the `Extension`. */
  function Initialize(fullName: CameraFilePath): (r: Outcome<string>)
    ensures r.Ok? <==> !IsNullOrWhiteSpace(fullName.value) && '.' in fullName.value
    ensures r.Ok? ==> r.value == fullName.GetExtension() && r.value[0] == '.'
    ensures r.Throws? ==> r.exn.kind == ArgumentException
  {
    if IsNullOrWhiteSpace(fullName.value) then
      Raise(ArgumentException, "Value cannot be null or whitespace.")
    else
      var extension := fullName.GetExtension();
      if IsNullOrWhiteSpace(extension) then
        Raise(ArgumentException, "File " + fullName.value + " has no extension")
      else Ok(extension)
  }

  /** The camera file a subclass constructor builds once the base constructor
      has run and the capture time is known. */
  function Make(kind: Kind, fullName: CameraFilePath, extension: string, created: ValidDateTime): (r: CameraFile)
    requires Initialize(fullName) == Ok(extension)
    ensures r.Valid() && r.kind == kind && r.fullName == fullName && r.created == created
    ensures r.ToString() == fullName.value
    ensures |r.extension| <= |fullName.value| && r.extension == fullName.value[|fullName.value| - |r.extension|..]
  {
    CameraFile(kind, fullName, extension, created)
  }
}
