# Camera utility: a verified model

The camera utility renames camera photos and videos by the moment they were
taken and copies or moves them into date-named folders under a destination
root. The repository holds three generations of the program side by side:

- the oldest, `CanonEosPhotoDownloader`, which copies Canon files;
- the middle one, the root of `CameraUtility` with its `Reporting` and
  `ExceptionHandling` decorators, which copies or moves and counts;
- the newest, `CameraUtility/Commands`, which is built on results instead of
  exceptions and adds a metadata check command.

This project models the core that all three share, one Dafny module per
source file:

- reading a file's extension and choosing the image, DNG or video variant;
- finding the capture time in the metadata tags and parsing it;
- naming the destination directory and file;
- finding camera files under a path;
- the copy or transfer step;
- the loops that run it over every file found, with their exit codes and
  cancellation;
- the reports and console summaries.

## How the model is built

- **Exceptions.** A call that may throw returns an `Outcome<T>`, either
  `Ok(value)` or `Throws(exn)`, where `exn` carries the .NET exception kind,
  its message and its inner exception.
- **Result types.** The newest generation's `Result<T>` is a datatype of its
  own, `Success` or `Failure(error)`. Code that returns a result and may also
  throw returns `Outcome<Result<T>>`.
- **File system.** `FileSystems.FileSystem` is a class holding the
  directories, the files, what a recursive listing of each directory returns,
  which listings throw, which paths make `System.IO` throw, and a log of the
  copies and moves made. The newest generation's direct `System.IO` calls,
  `Directory.CreateDirectory`, `File.Copy` and `File.Move`, return an
  `Outcome`: they fail on a recorded path failure, on a missing source file,
  on an existing destination file, and on a file where a directory is to be
  created.
- **Console and text writer.** Output is a field holding the lines or the
  text written so far. Colour is not modelled.
- **Classes.** Classes whose fields the source changes in place are Dafny
  classes with `modifies` clauses: the reports, the copiers, the checker and
  the orchestrators. Their loops are `while` loops with invariants, each
  proved against a function stating what the whole loop does.
- **Collaborators.** Code the core calls but which is not part of this model
  is a function value passed in: the metadata reader, the variant
  constructors of the newest generation, the name converter handed to a
  copier. The newest transferer's `TransferFiles` delegate is `File.Copy`
  for the copy command and `File.Move` for the move command; it is a
  `TransferMode` the transferer is built with, `Copy` or `Move`, and the
  file system's `Transfer` adds the destination and, for a move, removes
  the source. Cancellation is a function from the file's position to
  whether cancellation was requested then.
- **Integers and time.** Integers are unbounded. The one place where 32-bit
  arithmetic matters, ten times the sub-second value, wraps explicitly.
  `DateTime` is a record with a validity predicate. `AddMilliseconds` moves
  the instant counted in milliseconds since 0001-01-01.
- **Paths.** Paths use `/` as their only separator. `Path.Combine(a, b)`
  is `a` when `b` is empty, `b` when `a` is empty or `b` starts with `/`,
  and otherwise `a` and `b` joined by exactly one `/`, added only when `a`
  does not already end with one.

## Model

| member | source | states |
|---|---|---|
| CanonFileFinder.FindFilePaths | CanonEosPhotoDownloader/CameraFileFinder.cs:40-53 | a listing passes through unchanged; a `DirectoryNotFoundException` is thrown again as "{directory} directory not found" with the original as inner exception; any other exception passes through |
| CanonFileFinder.FindCameraFiles | CanonEosPhotoDownloader/CameraFileFinder.cs:32-36 | the search throws exactly when the listing does; otherwise every listed camera file occurs as often as in the listing and nothing else occurs (order not promised, the result is parallel) |
| CanonFileFinder.IsCameraFileIffSupportedExtension | CanonEosPhotoDownloader/CameraFileFinder.cs:56-62 | a path is a camera file exactly when its lower-cased extension is one of `.jpg`, `.cr2`, `.dng`, `.mp4` |
| CanonFileFinder.JpegAndMovNotSupported | CanonEosPhotoDownloader/CameraFileFinder.cs:14-20 | `.jpeg` and `.mov` files, in any letter case, are never found |
| CanonNameConverter.GetCameraFile | CanonEosPhotoDownloader/CameraFileNameConverter.cs:38-43 | a metadata-reader exception stops before the factory; otherwise the factory's outcome on the path and its tags |
| CanonNameConverter.Convert | CanonEosPhotoDownloader/CameraFileNameConverter.cs:26-35 | throws exactly when making the camera file throws, with that exception; otherwise gives `Destination` of the camera file made |
| CanonNameConverter.Destination | CanonEosPhotoDownloader/CameraFileNameConverter.cs:45-69 | the directory is the root's directory prefix followed by `yyyy_MM_dd` of the creation date, and the full name is that directory joined with the camera-file name |
| CanonNameConverter.DestinationKeepsExtension | CanonEosPhotoDownloader/CameraFileNameConverter.cs:61-69 | the full destination name ends in the camera file's extension |
| CanonNameConverter.TimeIsNineDigits | CanonEosPhotoDownloader/CameraFileNameConverter.cs:86-90 | the time part of a name is nine digits whose last three are the millisecond |
| CanonCameraFileFactory.Create | CanonEosPhotoDownloader/CameraFiles/CameraFileFactory.cs:9-23 | `.jpg`/`.cr2` build an image file, `.dng` a DNG file, `.mp4` a video, compared case-sensitively; any other extension throws `InvalidPathException` "Unknown file type {path}" |
| CanonCameraFileFactory.UnknownExtensions | CanonEosPhotoDownloader/CameraFiles/CameraFileFactory.cs:11-21 | `IMG_1234.JPG`, `.jpeg` and `.mov` files are refused; `file.jpg` is an image file |
| CanonCameraFileFactory.Unknown | CanonEosPhotoDownloader/CameraFiles/CameraFileFactory.cs:20-21 | every extension other than the four throws |
| CanonCameraFileFactory.Suffix | CameraUtility/Utils/FileNameUtil.cs:5-9 | a dot-led suffix with no other dot is the path's extension |
| FileNameUtil.GetExtension | CameraUtility/Utils/FileNameUtil.cs:5-9 | the result is the suffix starting at the last `.` (empty when there is none), case kept, and agrees with `CameraFilePath.GetExtension` on every string |
| FileNameUtil.GetExtensionExamples | CanonEosPhotoDownloader.Tests/FileNameUtilTests.cs:13-27 | `file.ext` and `file.asd.ext` give `.ext`, `file` and the empty path give nothing, `file.EXT` keeps its case |
| CanonImageFiles.ToMilliseconds | CanonEosPhotoDownloader/CameraFiles/ImageFile.cs:44-47 | ten times the sub-second value, wrapping like unchecked 32-bit arithmetic; exact whenever the product fits |
| CanonImageFiles.Created | CanonEosPhotoDownloader/CameraFiles/ImageFile.cs:30-38 | succeeds exactly when the first `Exif SubIFD` date tag and the first sub-second tag exist, the date parses, the sub-seconds parse as an integer and the sum stays in range, and then the time is the parsed date plus ten milliseconds per sub-second unit; no date tag or no sub-second tag throws `InvalidOperationException`, an unparsable date `FormatException`, an unparsable sub-second value the parse exception, and an out-of-range sum `ArgumentOutOfRangeException` |
| CanonImageFiles.AddSubSeconds | CanonEosPhotoDownloader/CameraFiles/ImageFile.cs:34-38 | succeeds exactly when a sub-second tag exists, parses and keeps the date in range, giving the date plus ten milliseconds per unit; otherwise `InvalidOperationException`, the parse exception, or `ArgumentOutOfRangeException` |
| CanonImageFiles.New | CanonEosPhotoDownloader/CameraFiles/ImageFile.cs:22-42 | succeeds exactly when `Created` does, giving an image with that time, the given path and the prefix `IMG_` |
| CanonImageFiles.OtherDirectoriesIgnored | CanonEosPhotoDownloader/CameraFiles/ImageFile.cs:31-37 | a tag from another directory changes nothing |
| CanonImageFiles.CreatedExample | CanonEosPhotoDownloader.Tests/CameraFiles/ImageFileTests.cs:15-31 | date `2010:11:12 13:14:15` with sub-seconds `16` gives 2010-11-12 13:14:15.160 |
| CanonImageCopier.PretendLine | CanonEosPhotoDownloader/CameraImageCopier.cs:86-94 | the dry-run line is the copy arrow exactly when nothing exists at the destination |
| CanonImageCopier.DryRunForetellsCopy | CanonEosPhotoDownloader/CameraImageCopier.cs:70-94 | unless a directory sits at the destination, a dry run prints the arrow exactly when the real run on the same file system would end with it |
| CanonImageCopier.Attempted | CanonEosPhotoDownloader/CameraImageCopier.cs:44-47 | the loop ends normally exactly when every file has been handled and every name could be made; otherwise it ends at the first file whose name throws, with that exception |
| CanonImageCopier.CameraImageCopier.constructor | CanonEosPhotoDownloader/CameraImageCopier.cs:15-25 | keeps the file system and converter; no output and no file handled yet |
| CanonImageCopier.CameraImageCopier.CopyFiles | CanonEosPhotoDownloader/CameraImageCopier.cs:29-48 | a blank source, then a blank destination root (blank as `Text.IsNullOrWhiteSpace` says, Unicode space separators included), throws `ArgumentException` and changes nothing; a failing search ends the run with its exception; otherwise the files are handled in order as `Attempted` says; a dry run leaves the file system alone; nothing is ever removed |
| CanonImageCopier.CameraImageCopier.CopyAll | CanonEosPhotoDownloader/CameraImageCopier.cs:44-47 | handles a prefix of the files, in order, with the outcome `Attempted` gives |
| CanonImageCopier.CameraImageCopier.CopyFile | CanonEosPhotoDownloader/CameraImageCopier.cs:50-68 | a name that cannot be made throws with nothing printed or changed; a dry run prints one line and changes nothing; a real run creates the directory if missing and copies if the destination is free, with matching lines |
| CanonImageCopier.CameraImageCopier.ExecuteCopyFile | CanonEosPhotoDownloader/CameraImageCopier.cs:70-84 | "Created" line exactly when the directory was missing; arrow line and one new transfer exactly when the destination was free, "Skipped" line otherwise |
| CanonImageCopier.CameraImageCopier.PretendCopyFile | CanonEosPhotoDownloader/CameraImageCopier.cs:86-94 | appends one line, decided only by whether something exists at the destination |
| AbstractCameraFile.Initialize | CameraUtility/CameraFiles/AbstractCameraFile.cs:9-23 | succeeds exactly when the full name is not blank and contains a `.`, giving its dot-led extension; otherwise throws `ArgumentException` |
| AbstractCameraFile.Make | CameraUtility/CameraFiles/AbstractCameraFile.cs:17-33 | a constructed camera file satisfies the base invariant, keeps its full name (also its `ToString`) and its extension ends that name |
| DngImageFiles.Create | CameraUtility/CameraFiles/DngImageFile.cs:29-50 | no 0x9003 tag is the failure "Metadata not found"; an unparsable first one is "Invalid metadata"; a parsable first one with an accepted name always succeeds, carrying the parsed time, whole seconds, prefix `IMG_`; it throws exactly when the tag parses but the base constructor refuses the name |
| DngImageFiles.FromDateTimeOriginal | CameraUtility/CameraFiles/DngImageFile.cs:39-49 | an unparsable value is the failure "Invalid metadata"; a parsed value with an accepted name always succeeds with that time; it throws `ArgumentException` exactly when the value parses and the name is refused |
| DngImageFiles.Construct | CameraUtility/CameraFiles/DngImageFile.cs:18-27 | throws `ArgumentException` exactly when the base constructor does; otherwise a DNG file with the given time and prefix `IMG_` |
| DngImageFiles.LaterTagsIgnored | CameraUtility/CameraFiles/DngImageFile.cs:33 | tags after the first 0x9003 tag never change the result |
| VideoFiles.New | CameraUtility/CameraFiles/VideoFile.cs:17-23 | the base constructor's exception first; no QuickTime creation tag throws `InvalidOperationException`; an unparsable one `FormatException`; an accepted name and a parsable tag always give the video of that name, extension and time, whole seconds, prefix `VID_` |
| VideoFiles.OtherDirectoriesIgnored | CameraUtility/CameraFiles/VideoFile.cs:20-21 | a type-3 tag outside `QuickTime Movie Header` is passed over |
| VideoFiles.CreatedExample | CanonEosPhotoDownloader.Tests/CameraFiles/VideoFileTests.cs:15-28 | `Fri Jun 13 14.15.16 1980` gives 1980-06-13 14:15:16 for `file.mp4` |
| CameraFileFactory.SelectVariant | CameraUtility/CameraFiles/CameraFileFactory.cs:14-27 | an extension is of unknown type exactly when its lower-case form is not one of the six accepted, and DNG exactly when it is `.dng` |
| CameraFileFactory.Create | CameraUtility/CameraFiles/CameraFileFactory.cs:10-28 | the chosen variant's outcome is returned unchanged; an unknown extension throws `InvalidPathException` "Unknown file type {path}" |
| CameraFileFactory.SelectVariantIgnoresCase | CameraUtility/CameraFiles/CameraFileFactory.cs:14 | extensions equal up to letter case are dispatched alike |
| CameraFileFactory.SelectImageExamples | CameraUtility/CameraFiles/CameraFileFactory.cs:16-19 | `.jpg`, `.JPG`, `.jpeg` and `.CR2` are images |
| CameraFileFactory.SelectDngVideoExamples | CameraUtility/CameraFiles/CameraFileFactory.cs:20-24 | `.dng` and `.Dng` are DNG; `.mp4` and `.MOV` are videos |
| CameraFileFactory.SelectUnknownExamples | CameraUtility/CameraFiles/CameraFileFactory.cs:25-26 | the empty extension and `.png` are of unknown type |
| FactoryExceptionHandling.Translate | CameraUtility/ExceptionHandling/ExceptionHandlingCameraFileFactoryDecorator.cs:23-38 | success passes; `InvalidOperationException` becomes `InvalidMetadataException` "Failed to find necessary metadata in {path}" and `FormatException` becomes "Failed to parse metadata for {path}", each wrapping the original; other exceptions pass |
| FactoryExceptionHandling.Create | CameraUtility/ExceptionHandling/ExceptionHandlingCameraFileFactoryDecorator.cs:19-39 | succeeds exactly when the decorated factory does, with its value; never lets the two translated kinds out; a changed kind is `InvalidMetadataException` wrapping the original |
| FactoryExceptionHandling.TranslateIdempotent | CameraUtility/ExceptionHandling/ExceptionHandlingCameraFileFactoryDecorator.cs:27-38 | decorating twice is decorating once |
| ImageFiles.FindCreatedDateTimeTag | CameraUtility/CameraFiles/ImageFile.cs:45-51 | found exactly when some tag is 0x9003 or 0x0132; the first 0x9003 tag wins wherever it sits; only without one the first 0x0132 tag; otherwise `InvalidOperationException` |
| ImageFiles.ParseCreatedDateTime | CameraUtility/CameraFiles/ImageFile.cs:53-60 | a whole-second time equal to the `yyyy:MM:dd HH:mm:ss` reading of the value, or `FormatException` exactly when the value does not have that form |
| ImageFiles.ToMilliseconds | CameraUtility/CameraFiles/ImageFile.cs:69-73 | ten times the value, wrapping like unchecked 32-bit arithmetic; exact whenever the product fits |
| ImageFiles.FindSubSeconds | CameraUtility/CameraFiles/ImageFile.cs:62-67 | 0 without a 0x9291 tag; otherwise ten times the first one's integer value, or the parse exception |
| ImageFiles.Created | CameraUtility/CameraFiles/ImageFile.cs:35-39 | succeeds exactly when a date tag is found, it parses, the sub-seconds are found and the sum stays in range, and then the time is the parsed date plus the sub-second milliseconds; a missing date tag throws `InvalidOperationException`, an unparsable one `FormatException`, a sub-second failure passes through, and an out-of-range sum is `ArgumentOutOfRangeException` |
| ImageFiles.New | CameraUtility/CameraFiles/ImageFile.cs:27-43 | succeeds exactly when the base constructor accepts the name and `Created` succeeds, giving an image of that name with prefix `IMG_` and time `Created`; otherwise the base constructor's exception, or else `Created`'s |
| ImageFiles.NoSubSecondsKeepsParsedTime | CameraUtility/CameraFiles/ImageFile.cs:65-66 | without a sub-second tag the capture time is the parsed date exactly |
| ImageFiles.OriginalTagTakesPrecedence | CameraUtility/CameraFiles/ImageFile.cs:48-50 | a 0x9003 tag wins over a 0x0132 tag listed before it |
| ImageFiles.SubSecondExamples | CameraUtility.Tests/CameraFiles/ImageFileTests.cs:10-28 | sub-seconds `42` and `042` both add 420 ms (see "Left out"), `150` adds 1500 ms, ` 42` with a leading space adds 420 ms, `x` throws |
| ImageFiles.SubSecondsOf | CameraUtility/CameraFiles/ImageFile.cs:62-67 | a single sub-second tag adds ten milliseconds per unit of its value, and throws when the value does not parse |
| ImageFiles.CreatedExample | CameraUtility/CameraFiles/ImageFile.cs:27-40 | `file.jpg` dated `2010:01:12 13:14:15` with sub-seconds `42` is an image taken at 13:14:15.420 |
| CameraFilePaths.CameraFilePath.GetExtension | CameraUtility/CameraFilePath.cs:6-10 | the suffix from the last `.`, dot-led with no other dot, case kept; empty when the path has no `.` |
| CameraFilePaths.ExtensionUnique | CameraUtility/CameraFilePath.cs:6-10 | a path has exactly one extension |
| CameraFilePaths.PathValueEquality | CameraUtility/CameraFilePath.cs:3-4 | two paths are equal exactly when their texts are |
| CameraFilePaths.GetExtensionExamples | CameraUtility.Tests/Utils/FileNameUtilTests.cs:14-28 | the last `.` wins, the case is kept, a path without `.` has no extension |
| CameraFilePaths.SuffixExample | CameraUtility/CameraFilePath.cs:6-10 | a dot-led suffix with no other dot is the extension |
| CameraFilePaths.EndsWithAnyIffExtensionIn | CameraUtility/CameraFilesFinder.cs:51-57 | ending, in any letter case, with one of a list of lower-case extensions is having one of them as lower-cased extension |
| CameraFilePaths.SuffixIsExtension | CameraUtility/CameraFilePath.cs:6-10 | a path ending in any case with an extension-shaped suffix has that suffix, lower-cased, as its extension |
| CameraFilePaths.ExtensionEndsPath | CameraUtility/CameraFilePath.cs:6-10 | a path whose lower-cased extension is listed ends, ignoring case, with that listed extension |
| FilesFinder.FindFilePaths | CameraUtility/CameraFilesFinder.cs:43-49 | the listing of a directory, or the path alone when it is not a directory |
| FilesFinder.FindCameraFiles | CameraUtility/CameraFilesFinder.cs:31-40 | a missing path throws `PathNotFoundException` "{path} not found"; otherwise it throws exactly when the listing does, and each candidate occurs as often as listed if it is a camera file, else never |
| FilesFinder.SingleFile | CameraUtility/CameraFilesFinder.cs:43-49 | a single file gives itself when supported and nothing otherwise |
| FilesFinder.IsCameraFileIffSupportedExtension | CameraUtility/CameraFilesFinder.cs:51-57 | a path is a camera file exactly when its lower-cased extension is `.jpg`, `.jpeg`, `.cr2`, `.dng` or `.mp4` |
| FilesFinder.MovNotSupported | CameraUtility/CameraFilesFinder.cs:13-20 | `.mov` files, in any letter case, are never found |
| CommandsFilesFinder.Wrap | CameraUtility/Commands/CameraFilesFinder.cs:40 | one path per string, same order, same text |
| CommandsFilesFinder.Values | CameraUtility/Commands/CameraFilesFinder.cs:40 | the texts of the paths, same order |
| CommandsFilesFinder.NoExtensionNoCameraFile | CameraUtility/Commands/CameraFilesFinder.cs:60-66 | a path without `.` is never a camera file |
| CommandsFilesFinder.IsCameraFileIffKnownType | CameraUtility/Commands/CameraFilesFinder.cs:9-17 | the finder lists a path exactly when the factory knows its type |
| CommandsFilesFinder.CameraFilesFinder.constructor | CameraUtility/Commands/CameraFilesFinder.cs:21-25 | keeps the file system; nothing announced yet |
| CommandsFilesFinder.CameraFilesFinder.FindFilePaths | CameraUtility/Commands/CameraFilesFinder.cs:46-58 | the recursive listing of a directory, or the path alone |
| CommandsFilesFinder.CameraFilesFinder.Found | CameraUtility/Commands/CameraFilesFinder.cs:29-44 | fails with "{path} does not exist." exactly when the path is neither file nor directory; otherwise the camera files among the candidates, in listing order, each as often as listed |
| CommandsFilesFinder.CameraFilesFinder.FindCameraFiles | CameraUtility/Commands/CameraFilesFinder.cs:29-44 | returns `Found`; the found-count event fires once with the number found on success, never on failure |
| CommandsFilesFinder.CameraFilesFinder.SingleFile | CameraUtility/Commands/CameraFilesFinder.cs:46-58 | a single file is found exactly when it is a camera file |
| NameFormat.DateSubDirectoryName | CameraUtility/Commands/ImageFilesTransfer/CameraFileNameConverter.cs:63-67 | ten characters `yyyy_MM_dd` whose digit fields read back as the date's year, month and day |
| NameFormat.DateForFileName | CameraUtility/Commands/ImageFilesTransfer/CameraFileNameConverter.cs:76-80 | eight digits `yyyyMMdd` that read back as the date's year, month and day |
| NameFormat.TimeForFileName | CameraUtility/Commands/ImageFilesTransfer/CameraFileNameConverter.cs:82-86 | nine digits `HHmmssfff` that read back as hour, minute, second and millisecond |
| NameFormat.Stamp | CameraUtility/Commands/ImageFilesTransfer/CameraFileNameConverter.cs:72-73 | eighteen characters: the date text, `_`, the time text |
| NameFormat.DestinationFileName | CameraUtility/Commands/ImageFilesTransfer/CameraFileNameConverter.cs:69-74 | the prefix, the stamp and the extension verbatim, in that order; free of `/` when prefix and extension are |
| NameFormat.DestinationDirectory | CameraUtility/Commands/ImageFilesTransfer/CameraFileNameConverter.cs:49-61 | the root itself when skipping; otherwise the root, a single `/` unless the root is empty or already ends with one, and the date sub-directory |
| NameFormat.CameraFileName | CameraUtility/CameraFileNameConverter.cs:72-77 | starts with the camera file's prefix, ends with its extension as spelled, and has no `/` when the extension has none |
| NameFormat.PrefixHasNoSlash | CameraUtility/CameraFiles/AbstractCameraFile.cs:28 | neither destination prefix contains `/` |
| NameFormat.CombineLayout | CameraUtility/CameraFileNameConverter.cs:63-70 | a relative name joined under a directory starts with the directory followed by a single separator and keeps the name's ending |
| NameFormat.StampHasNoSlash | CameraUtility/Commands/ImageFilesTransfer/CameraFileNameConverter.cs:72-73 | the stamp contains no `/` |
| NameFormat.SubDirectoryMatchesFileName | CameraUtility/Commands/ImageFilesTransfer/CameraFileNameConverter.cs:63-80 | the sub-directory is the file-name date with `_` between its fields |
| Text.DigitsValueInjective | CameraUtility/Commands/ImageFilesTransfer/CameraFileNameConverter.cs:76-86 | equal-length digit texts of equal value are equal |
| NameFormat.PadZerosInjectiveAt | CameraUtility/Commands/ImageFilesTransfer/CameraFileNameConverter.cs:76-86 | two fixed-width digit fields of equal value are the same text |
| NameFormat.StampInjective | CameraUtility/Commands/ImageFilesTransfer/CameraFileNameConverter.cs:72-73 | capture times that differ anywhere, down to the millisecond, give different stamps |
| NameFormat.DestinationFileNameInjective | CameraUtility/Commands/ImageFilesTransfer/CameraFileNameConverter.cs:69-74 | with the same prefix and extension, different capture times never give the same file name |
| NameFormat.SubDirectoryInFileName | CameraUtility/Commands/ImageFilesTransfer/CameraFileNameConverter.cs:59-74 | the date inside a file name, with `_` between the fields, is the date sub-directory |
| NameFormat.NameExample | CameraUtility.Tests/CameraFileNameConverterTests.cs:65-86 | the photo of 2010-01-12 13:14:15.420 with `.JPG` is named `IMG_20100112_131415420.JPG` |
| NameFormat.FileNameOf | CameraUtility/Commands/ImageFilesTransfer/CameraFileNameConverter.cs:69-74 | the file name is the prefix, the date text, `_`, the time text and the extension |
| NameFormat.DirectoryExample | CameraUtility.Tests/CameraFileNameConverterTests.cs:29-45 | 2010-01-12 gives the sub-directory `2010_01_12` |
| NameFormat.DateExample | CameraUtility/Commands/ImageFilesTransfer/CameraFileNameConverter.cs:76-80 | 2010-01-12 gives `20100112` |
| NameFormat.TimeExample | CameraUtility/Commands/ImageFilesTransfer/CameraFileNameConverter.cs:82-86 | 13:14:15.420 gives `131415420` |
| NameConverter.Destination | CameraUtility/CameraFileNameConverter.cs:27-36 | the directory is the root, or the root and the date sub-directory; the full name is that directory joined with the camera-file name, so it starts with the directory and `/` and ends with the extension |
| NameConverter.Placed | CameraUtility/CameraFileNameConverter.cs:63-70 | a relative name ending in the extension, joined under a directory, starts with the directory and a single separator and ends in the extension |
| NameConverter.CameraFileNameConverter.constructor | CameraUtility/CameraFileNameConverter.cs:15-25 | keeps the reader and the factory; date sub-directories are on by default |
| NameConverter.CameraFileNameConverter.GetCameraFile | CameraUtility/CameraFileNameConverter.cs:38-43 | a reader exception stops before the factory; otherwise the factory's outcome on the tags |
| NameConverter.CameraFileNameConverter.Convert | CameraUtility/CameraFileNameConverter.cs:27-36 | throws exactly when making the camera file throws, with that exception; otherwise the camera file placed by `Destination` under the current flag |
| NameConverter.CameraFileNameConverter.SkippedDirectoryIsRoot | CameraUtility.Tests/CameraFileNameConverterTests.cs:47-63 | with the flag set, the directory is the root itself |
| TransferNameConverter.Destination | CameraUtility/Commands/ImageFilesTransfer/CameraFileNameConverter.cs:35-39 | the directory is the root, or the root and the date sub-directory; the file name is bare, with no directory part |
| TransferNameConverter.GetCameraFile | CameraUtility/Commands/ImageFilesTransfer/CameraFileNameConverter.cs:42-47 | a reader exception stops before the factory; otherwise the factory's result on the path and its tags |
| TransferNameConverter.Convert | CameraUtility/Commands/ImageFilesTransfer/CameraFileNameConverter.cs:25-40 | an exception and a failed classification pass through unchanged; a camera file is named by `Destination` with the transfer's skip option |
| TransferNameConverter.DirectoryDateMatchesFileName | CameraUtility/Commands/ImageFilesTransfer/CameraFileNameConverter.cs:49-74 | the dated directory is the root followed by the name's date with `_` between the fields |
| TransferNameConverter.DistinctTimesDistinctNames | CameraUtility/Commands/ImageFilesTransfer/CameraFileNameConverter.cs:69-86 | two camera files of the same prefix and extension taken at different times, by a millisecond or more, get different names |
| TransferNameConverter.PhotoExample | CameraUtility.Tests/CameraFileNameConverterTests.cs:65-86 | a `.JPG` photo of 2010-01-12 13:14:15.420 goes to the directory `2010_01_12` under the root, joined with a single `/`, as `IMG_20100112_131415420.JPG`, or to the root itself when skipping |
| Transferer.Events | CameraUtility/Commands/ImageFilesTransfer/Execution/CameraFileTransferer.cs:27-46 | one or two events: "directory created" exactly when the directory was missing and this is not a dry run, and always first; then exactly one of "skipped" (destination existed) and "transferred" (it did not) |
| Transferer.CameraFileTransferer.constructor | CameraUtility/Commands/ImageFilesTransfer/Execution/CameraFileTransferer.cs:13-21 | keeps the converter and the file system; no events yet |
| Transferer.CameraFileTransferer.TransferFile | CameraUtility/Commands/ImageFilesTransfer/Execution/CameraFileTransferer.cs:23-47 | a throwing conversion changes nothing; otherwise the directory is created exactly when missing on a real run, and a failed creation throws before any event; the file is copied, or moved away from its source in move mode, exactly when its destination is free on a real run, and a failed transfer throws after the directory-created event, leaving the files as they were; without a failure the events are `Events`; a dry run leaves the file system as it was |
| TransferOrchestrator.FileArgs | CameraUtility/Commands/ImageFilesTransfer/Execution/Orchestrator.cs:42-43 | the transfer arguments carry the file, the destination root and the two options unchanged |
| TransferOrchestrator.EventsFor | CameraUtility/Commands/ImageFilesTransfer/Execution/Orchestrator.cs:44-59 | at most one event per file, raised exactly when its transfer threw or failed |
| TransferOrchestrator.EventsOf | CameraUtility/Commands/ImageFilesTransfer/Execution/Orchestrator.cs:35-60 | no more events than files attempted |
| TransferOrchestrator.EventsCountFailures | CameraUtility/Commands/ImageFilesTransfer/Execution/Orchestrator.cs:44-59 | the events of the first n files are exactly as many as the files among them that went wrong |
| TransferOrchestrator.NextResult | CameraUtility/Commands/ImageFilesTransfer/Execution/Orchestrator.cs:53-58 | the code stays 0 or 2, and stays 0 exactly when it was 0 and the transfer did not throw |
| TransferOrchestrator.Loop | CameraUtility/Commands/ImageFilesTransfer/Execution/Orchestrator.cs:34-62 | the loop attempts a prefix of the files; it ends normally with 0 or 2 (2 once any exception was kept going past) or throws `OperationCanceledException` |
| TransferOrchestrator.LoopStep | CameraUtility/Commands/ImageFilesTransfer/Execution/Orchestrator.cs:37-59 | one turn: a file that goes wrong without keep-going ends the loop with 2 after that file; otherwise the loop goes on with the next file and the updated code; the attempted files and the events grow by that file's |
| TransferOrchestrator.ZeroIffClean | CameraUtility/Commands/ImageFilesTransfer/Execution/Orchestrator.cs:34-62 | the run returns 0 exactly when no cancellation came, nothing threw, and no transfer failed unless keep-going is set |
| TransferOrchestrator.StopsAtFirstFailure | CameraUtility/Commands/ImageFilesTransfer/Execution/Orchestrator.cs:44-56 | without keep-going the run returns 2 right after the first file that goes wrong, and attempts nothing after it |
| TransferOrchestrator.KeepGoingAttemptsAll | CameraUtility/Commands/ImageFilesTransfer/Execution/Orchestrator.cs:47-58 | with keep-going and no cancellation every file is attempted and the run ends normally |
| TransferOrchestrator.CancellationStops | CameraUtility/Commands/ImageFilesTransfer/Execution/Orchestrator.cs:37 | once cancellation is requested before a file, neither it nor any later file is attempted |
| TransferOrchestrator.Orchestrator.constructor | CameraUtility/Commands/ImageFilesTransfer/Execution/Orchestrator.cs:15-23 | keeps the finder, the transfer and the token; no events and no file attempted yet |
| TransferOrchestrator.Orchestrator.Execute | CameraUtility/Commands/ImageFilesTransfer/Execution/Orchestrator.cs:25-63 | a failed search raises its error and returns 2 with nothing attempted; otherwise the files found are attempted as `Loop` says and each one that went wrong raised its event, in order |
| TransferOrchestrator.Orchestrator.Transfer | CameraUtility/Commands/ImageFilesTransfer/Execution/Orchestrator.cs:38-59 | one transfer of the file, recorded as attempted, and its event raised if it threw or failed |
| TransferOrchestrator.Orchestrator.TransferAll | CameraUtility/Commands/ImageFilesTransfer/Execution/Orchestrator.cs:34-62 | returns what `Loop` says, having attempted exactly the files `Loop` reaches, in order, with their events |
| FileCopier.CopyLines | CameraUtility/CameraFileCopier.cs:39-49 | two lines when the directory was missing, the first being "Created {directory}"; the last line is the arrow exactly when the destination was free and "Skipped …" exactly when it was not |
| FileCopier.CopiedIsNotSkipped | CameraUtility/CameraFileCopier.cs:46-49 | the arrow line and the skipped line of a file never coincide |
| FileCopier.CameraFileCopier.constructor | CameraUtility/CameraFileCopier.cs:13-23 | keeps the converter, the file system and both flags; no output yet |
| FileCopier.CameraFileCopier.ExecuteCopyFile | CameraUtility/CameraFileCopier.cs:32-50 | a throwing conversion prints and changes nothing; otherwise the directory is created when missing and the file copied when its destination is free, neither when pretending, the lines are `CopyLines`, and no file ever disappears (the source is never removed) |
| FileCopier.CameraFileCopier.CopyTo | CameraUtility/CameraFileCopier.cs:39-49 | the steps after the conversion: directory created when missing, file copied when free, unless pretending, with the matching lines |
| DirectoryCopier.Requests | CameraUtility/CameraDirectoryCopier.cs:29-33 | one request per file, in order, each with the same destination root |
| DirectoryCopier.RequestsGrow | CameraUtility/CameraDirectoryCopier.cs:29-33 | handing over one more file adds its request at the end |
| DirectoryCopier.Attempted | CameraUtility/CameraDirectoryCopier.cs:29-33 | the loop hands over a prefix of the files; it ends normally only after all of them; an exception other than cancellation comes from the last file handed over, whose camera file could not be made |
| DirectoryCopier.AllCopiedWhenClean | CameraUtility/CameraDirectoryCopier.cs:29-33 | without cancellation and with every camera file made, all files are handed over and the run ends normally |
| DirectoryCopier.CancellationStops | CameraUtility/CameraDirectoryCopier.cs:31 | a cancellation before file k, with every earlier file fine, stops the run with exactly k files handed over |
| DirectoryCopier.CameraDirectoryCopier.constructor | CameraUtility/CameraDirectoryCopier.cs:16-22 | keeps the file system, the copier and the token |
| DirectoryCopier.CameraDirectoryCopier.CopyCameraFiles | CameraUtility/CameraDirectoryCopier.cs:24-34 | a finder exception goes through before any copy; otherwise the found files reach the copier in order, each once, with the same root, as `Attempted` says |
| DirectoryCopier.CopyAll | CameraUtility/CameraDirectoryCopier.cs:29-33 | the copier receives exactly the requests for the files `Attempted` reaches, and the run ends as it says |
| CopyingOrchestrator.CopyingOrchestrator.constructor | CameraUtility/CopyingOrchestrator.cs:16-22 | keeps the file system, the copier and the token |
| CopyingOrchestrator.CopyingOrchestrator.CopyCameraFiles | CameraUtility/CopyingOrchestrator.cs:24-34 | a finder exception goes through before any copy; otherwise the found files reach the copier in order, each once, with the same root, as `DirectoryCopier.Attempted` says |
| CopierExceptionHandling.ExecuteCopyFile | CameraUtility/ExceptionHandling/ExceptionHandlingCameraFileCopierDecorator.cs:19-32 | success passes; an exception is swallowed exactly when continue-on-error is set and it is an invalid-metadata or invalid-file exception; any other exception is the decorated one unchanged |
| CountingCopier.CountingCameraFileCopierDecorator.constructor | CameraUtility/Reporting/CountingCameraFileCopierDecorator.cs:11-17 | keeps the decorated copier and the report |
| CountingCopier.CountingCameraFileCopierDecorator.ExecuteCopyFile | CameraUtility/Reporting/CountingCameraFileCopierDecorator.cs:19-33 | the decorated copier runs once and its outcome is returned; success adds one to the valid-metadata count, an exception adds "{file}: {message}" to the errors and is thrown again; nothing else in the report changes |
| CountingFinder.CountingCameraFilesFinderDecorator.constructor | CameraUtility/Reporting/CountingCameraFilesFinderDecorator.cs:13-19 | keeps the file system and the report |
| CountingFinder.CountingCameraFilesFinderDecorator.FindCameraFiles | CameraUtility/Reporting/CountingCameraFilesFinderDecorator.cs:23-29 | a finder exception goes through with nothing recorded; a path searched before throws `ArgumentException`; otherwise the found files are returned and their number is recorded under the path |
| CountingFinder.SearchTwice | CameraUtility/Reporting/CountingCameraFilesFinderDecorator.cs:26-27 | searching the same path twice succeeds once and then throws `ArgumentException`, recording only the first count |
| CountingFileSystem.CountingFileSystemDecorator.constructor | CameraUtility/Reporting/CountingFileSystemDecorator.cs:13-19 | keeps the decorated file system and the report |
| CountingFileSystem.CountingFileSystemDecorator.CreateDirectoryIfNotExists | CameraUtility/Reporting/CountingFileSystemDecorator.cs:26-31 | delegates: true exactly when the directory was missing, created unless pretending, and the report is untouched |
| CountingFileSystem.CountingFileSystemDecorator.CopyFileIfDoesNotExist | CameraUtility/Reporting/CountingFileSystemDecorator.cs:33-41 | the decorated copy's result, then the report: a real copy adds one to the copied count, a pretended one nothing, a refused one records the (source, destination) pair as skipped or throws `ArgumentException` for a blank path; the copied count grows by exactly the number of transfers the file system made |
| CountingFileSystem.CountingFileSystemDecorator.MoveFileIfDoesNotExist | CameraUtility/Reporting/CountingFileSystemDecorator.cs:43-51 | as the copy, over the decorated move, which takes the source away |
| CountingFileSystem.CountingFileSystemDecorator.ProcessReport | CameraUtility/Reporting/CountingFileSystemDecorator.cs:53-70 | copied and not pretending: one more copied; copied and pretending: nothing; not copied: the pair is added to the skipped set (blank paths throw); errors, found counts, metadata count and output are untouched |
| Reporting.SkippedLines | CameraUtility/Reporting/Report.cs:109-122 | one "{source} exists as {destination}" line per skipped pair, in order |
| Reporting.Lookup | CameraUtility/Reporting/Report.cs:49-54 | the count stored for a directory is an entry of the dictionary under that key |
| Reporting.SumCountsEachDirectoryOnce | CameraUtility/Reporting/Report.cs:44 | the total of files found counts each directory's entry exactly once: removing one entry takes exactly its count off the sum |
| Reporting.ReportLines | CameraUtility/Reporting/Report.cs:90-107 | the report is the skipped block (header and one line per pair) only when something was skipped, the error block only when errors are wanted and exist, and always the summary line last |
| Reporting.Report.constructor | CameraUtility/Reporting/Report.cs:38-42 | an empty report in the given copy-or-move mode |
| Reporting.Report.AddNumberOfFilesFoundIn | CameraUtility/Reporting/Report.cs:49-54 | a directory already added throws `ArgumentException` and changes nothing; otherwise its count is stored, the total grows by it and the lookup returns it |
| Reporting.Report.IncrementNumberOfFilesWithValidMetadata | CameraUtility/Reporting/Report.cs:56-59 | the valid-metadata count grows by one, nothing else changes |
| Reporting.Report.IncrementNumberOfFilesCopied | CameraUtility/Reporting/Report.cs:61-64 | the copied count grows by one, nothing else changes |
| Reporting.Report.AddExceptionForFile | CameraUtility/Reporting/Report.cs:66-71 | appends "{file}: {message}" to the errors, nothing else changes |
| Reporting.Report.AddSkippedFile | CameraUtility/Reporting/Report.cs:73-88 | throws `ArgumentException` exactly when the source or destination is blank as `Text.IsNullOrWhiteSpace` says, Unicode space separators included; otherwise the pair joins the skipped set, so a repeated pair is kept once |
| Reporting.Report.PrintReport | CameraUtility/Reporting/Report.cs:90-107 | writes exactly `ReportLines` for some enumeration order of the skipped set, with the state unchanged |
| Reporting.Report.PrintSkippedFiles | CameraUtility/Reporting/Report.cs:109-122 | nothing when nothing was skipped; otherwise the header with the set's size, then one line per skipped pair, each pair exactly once |
| Reporting.Report.PrintErrors | CameraUtility/Reporting/Report.cs:124-137 | nothing without errors; otherwise the header and every error in the order added |
| Reporting.Report.PrintSummary | CameraUtility/Reporting/Report.cs:139-153 | one line with the total found, the valid-metadata count, the number of skipped pairs and the copied count, with "Copied" or "Moved" after the mode |
| TransferReport.SkippedLines | CameraUtility/Commands/ImageFilesTransfer/Output/Report.cs:100-103 | one "{source} exists as {destination}" line per skipped pair, in order |
| TransferReport.ReportLines | CameraUtility/Commands/ImageFilesTransfer/Output/Report.cs:68-136 | the report is an empty line and the skipped block only when something was skipped, an empty line and the error block only when errors are wanted and exist, and always an empty line and the summary last |
| TransferReport.OrderingSize | CameraUtility/Commands/ImageFilesTransfer/Output/Report.cs:99-103 | enumerating the skipped set lists exactly as many pairs as the count printed in the header |
| TransferReport.Report.constructor | CameraUtility/Commands/ImageFilesTransfer/Output/Report.cs:15-19 | an empty report with every counter at zero |
| TransferReport.Report.HandleCameraFilesFound | CameraUtility/Commands/ImageFilesTransfer/Output/Report.cs:21-26 | the found count is replaced by the event's count, nothing else changes |
| TransferReport.Report.IncrementTransferred | CameraUtility/Commands/ImageFilesTransfer/Output/Report.cs:28-37 | one more processed always; one more transferred only outside a dry run; keeps transferred, skipped and failed within processed |
| TransferReport.Report.AddSkippedFile | CameraUtility/Commands/ImageFilesTransfer/Output/Report.cs:39-45 | the pair joins the skipped set (a repeated pair is stored once) and one more file is processed |
| TransferReport.Report.AddExceptionForFile | CameraUtility/Commands/ImageFilesTransfer/Output/Report.cs:47-53 | appends "{path}: {message}" to the errors and one more file is processed |
| TransferReport.Report.AddErrorForFile | CameraUtility/Commands/ImageFilesTransfer/Output/Report.cs:55-66 | a missing path changes nothing; otherwise "{path}: {error}" is appended and one more file is processed |
| TransferReport.Report.PrintReport | CameraUtility/Commands/ImageFilesTransfer/Output/Report.cs:68-86 | writes exactly `ReportLines` for some enumeration order of the skipped set, with the state unchanged |
| TransferReport.Report.PrintSkippedFiles | CameraUtility/Commands/ImageFilesTransfer/Output/Report.cs:88-106 | nothing when nothing was skipped; otherwise an empty line, the header with the set's size and one line per skipped pair, each pair exactly once |
| TransferReport.Report.PrintErrors | CameraUtility/Commands/ImageFilesTransfer/Output/Report.cs:108-125 | nothing without errors; otherwise an empty line, the header and every error in the order added |
| TransferReport.Report.PrintSummary | CameraUtility/Commands/ImageFilesTransfer/Output/Report.cs:127-136 | an empty line and one line with the found, processed, skipped-set size and transferred counts |
| TransferReport.PrintedCountsWithinProcessed | CameraUtility/Commands/ImageFilesTransfer/Output/Report.cs:28-66 | in a report kept valid by its mutators, the skipped pairs listed, the errors listed and the transferred count add up to at most the processed count of the summary |
| FileChecker.MissesMetadata | CameraUtility/Commands/Check/Execution/FileChecker.cs:46-51 | a file counts as missing metadata exactly when reading its tags succeeds and the factory returns a failed result; an exception from either goes through |
| FileChecker.CheckFiles | CameraUtility/Commands/Check/Execution/FileChecker.cs:44-52 | the inner loop lists at most as many files as it is given |
| FileChecker.CheckFilesIsFilter | CameraUtility/Commands/Check/Execution/FileChecker.cs:44-52 | when nothing throws, every file was checked and the files listed are exactly those the check reports, in discovery order |
| FileChecker.CheckFilesThrowsAtFirst | CameraUtility/Commands/Check/Execution/FileChecker.cs:44-52 | an exception is the one thrown by the first file whose check threw; the files listed are those before it |
| FileChecker.CheckFilesStopsAtThrow | CameraUtility/Commands/Check/Execution/FileChecker.cs:44-52 | once a file has thrown, the files after it change nothing |
| FileChecker.Next | CameraUtility/Commands/Check/Execution/FileChecker.cs:36-52 | one source path never makes the file count negative |
| FileChecker.NextShifts | CameraUtility/Commands/Check/Execution/FileChecker.cs:43-50 | a source path adds to the running count and list exactly what it finds on its own |
| FileChecker.FoundFilesHaveKnownType | CameraUtility/Commands/Check/Execution/FileChecker.cs:36-47 | every file the finder returns has an extension the factory knows, so only its metadata can be missing |
| FileChecker.FileChecker.constructor | CameraUtility/Commands/Check/Execution/FileChecker.cs:19-29 | keeps the finder, reader, factory and output, with an empty list of files missing metadata |
| FileChecker.FileChecker.ScanPaths | CameraUtility/Commands/Check/Execution/FileChecker.cs:33-53 | the count of files found over the source paths is never negative |
| FileChecker.FileChecker.ScanStops | CameraUtility/Commands/Check/Execution/FileChecker.cs:36-41 | once a source path fails or throws, the later source paths are never looked at |
| FileChecker.FileChecker.Execute | CameraUtility/Commands/Check/Execution/FileChecker.cs:31-60 | the files missing metadata are appended to the never-cleared list; a finder failure prints its error and returns 3 with no summary; an exception goes through with nothing printed; otherwise the summary of the count and the whole list is printed and 0 returned |
| FileChecker.FileChecker.ScanAll | CameraUtility/Commands/Check/Execution/FileChecker.cs:34-53 | the outer loop's count, how it ended and what it appended are those `ScanPaths` gives |
| FileChecker.FileChecker.ScanSourcePath | CameraUtility/Commands/Check/Execution/FileChecker.cs:36-52 | one source path: a finder failure counts nothing; otherwise all files found are counted and checked |
| FileChecker.FileChecker.CheckFilesOf | CameraUtility/Commands/Check/Execution/FileChecker.cs:44-52 | the inner loop appends exactly what `CheckFiles` lists and stops with its exception |
| CheckConsoleOutput.PathLines | CameraUtility/Commands/Check/Output/ConsoleOutput.cs:44-47 | no lines exactly when there are no paths |
| CheckConsoleOutput.SummaryText | CameraUtility/Commands/Check/Output/ConsoleOutput.cs:23-48 | the found line always comes first; nothing found ends the line; nothing missing gives the all-good text; otherwise the number missing, the header and one line per missing path |
| CheckConsoleOutput.SummaryTextAsWritten | CameraUtility/Commands/Check/Output/ConsoleOutput.cs:23-48 | the summary as the code writes it: the same as `SummaryText` when nothing was found or nothing is missing; otherwise the found line, then a missing-metadata line counting the files found minus the files missing, then the header and the paths |
| CheckConsoleOutput.AsWrittenMiscounts | CameraUtility/Commands/Check/Output/ConsoleOutput.cs:40-42 | with three files found and one missing, the text as written reports two missing, unlike the corrected text |
| CheckConsoleOutput.AgreeWhenHalfMissing | CameraUtility/Commands/Check/Output/ConsoleOutput.cs:40-42 | the text as written is right whenever exactly half the files found miss metadata |
| CheckConsoleOutput.ConsoleOutput.constructor | CameraUtility/Commands/Check/Output/ConsoleOutput.cs:11-15 | nothing written yet |
| CheckConsoleOutput.ConsoleOutput.PrintError | CameraUtility/Commands/Check/Output/ConsoleOutput.cs:17-21 | the error on a line of its own |
| CheckConsoleOutput.ConsoleOutput.PrintSummary | CameraUtility/Commands/Check/Output/ConsoleOutput.cs:23-48 | appends exactly `SummaryText` of the count and the files missing metadata |
| CheckConsoleOutput.ConsoleOutput.PrintPaths | CameraUtility/Commands/Check/Output/ConsoleOutput.cs:44-47 | appends one line per path, in order |
| FileSystems.FileSystem.constructor | CameraUtility/FileSystemIsolation/IFileSystem.cs:8-75 | a file system with the given directories, files, listings and failures, and no transfers yet |
| FileSystems.FileSystem.GetFiles | CameraUtility/FileSystemIsolation/IFileSystem.cs:10-22 | succeeds exactly for an existing, readable directory, with its recursive listing; a missing directory throws `DirectoryNotFoundException` |
| FileSystems.FileSystem.CreateDirectoryError | CameraUtility/Commands/ImageFilesTransfer/Execution/CameraFileTransferer.cs:29 | no error exactly when the path has no recorded failure and no file sits there; a recorded failure is thrown as recorded, a file at the path gives `IOException` |
| FileSystems.FileSystem.CreateDirectory | CameraUtility/Commands/ImageFilesTransfer/Execution/CameraFileTransferer.cs:29 | throws exactly `CreateDirectoryError` and then changes nothing; otherwise the directory exists afterwards; files, listings and the log never change |
| FileSystems.FileSystem.TransferError | CameraUtility/Commands/ImageFilesTransfer/Execution/CameraFileTransferer.cs:43 | no error exactly when the source exists, has no recorded failure and the destination file does not exist; otherwise the recorded failure, `FileNotFoundException` for a missing source, or `IOException` for an existing destination |
| FileSystems.FileSystem.Transfer | CameraUtility/Commands/ImageFilesTransfer/Execution/CameraFileTransferer.cs:43 | throws exactly `TransferError` and then changes nothing; otherwise the destination file exists afterwards, a copy adds it and keeps the source, a move adds it and removes the source, and the transfer is logged; directories and listings are untouched |
| FileSystems.FileSystem.CreateDirectoryIfNotExists | CameraUtility/FileSystemIsolation/IFileSystem.cs:24-34 | true exactly when the directory was missing; it is created only when not pretending |
| FileSystems.FileSystem.CopyFileIfDoesNotExist | CameraUtility/FileSystemIsolation/IFileSystem.cs:36-48 | true exactly when the destination was free; only then, and only when not pretending, the destination exists and the copy is logged |
| FileSystems.FileSystem.MoveFileIfDoesNotExist | CameraUtility/FileSystemIsolation/IFileSystem.cs:50-62 | as the copy, and the source is gone after a real move |
| Text.IsNullOrWhiteSpace | CameraUtility/Reporting/Report.cs:77-86 | the empty text is blank; a non-empty text is blank exactly when its first character is .NET white space, Unicode space separators included, and the rest is blank |
| Text.BlankExamples | CameraUtility/Reporting/Report.cs:77-86 | the empty text, ASCII white space, U+3000, U+2003, U+00A0 and U+1680 are blank; `a`, U+3000 followed by `x`, and the zero-width space U+200B are not |
| Text.LastIndexOf | CameraUtility/CameraFilePath.cs:8 | -1 exactly when the character does not occur; otherwise an index holding it with no occurrence after it |
| Text.ToLowerInvariant | CameraUtility/CameraFiles/CameraFileFactory.cs:14 | the same length, each character lower-cased on its own |
| Text.LowerWithoutCapitals | CameraUtility/CameraFiles/CameraFileFactory.cs:14 | lower-casing leaves text without capitals unchanged |
| Text.EndsWithAnyIgnoreCase | CameraUtility/CameraFilesFinder.cs:55-57 | true exactly when the path ends, ignoring letter case, with one of the listed extensions |
| Text.NatToStringDigits | CameraUtility/CameraFileNameConverter.cs:82-88 | a number's text is a non-empty run of digits that denotes the number |
| Text.PadZerosDigits | CameraUtility/CameraFileNameConverter.cs:82-88 | a number below ten to the width, padded with zeros, has exactly that many digits and denotes the number |
| Text.PadZerosInjective | CameraUtility/CameraFileNameConverter.cs:82-88 | zero padding loses nothing: different numbers within the width get different texts |
| Text.DigitsValueBound | CameraUtility/CameraFileNameConverter.cs:82-88 | a run of n digits denotes a number below ten to the n |
| Text.PadZerosOfDigits | CameraUtility/CameraFiles/ImageFile.cs:53-60 | a non-empty run of digits is its own value padded with zeros to its length |
| Text.DirectoryPrefix | CameraUtility/Commands/ImageFilesTransfer/CameraFileNameConverter.cs:60 | a non-empty directory is extended to end in exactly one `/`, adding one only when missing |
| Text.Combine | CameraUtility/Commands/ImageFilesTransfer/CameraFileNameConverter.cs:60 | an empty second part gives the first; an empty first part or a rooted second part gives the second; otherwise the second part follows the first's directory prefix |
| Text.CombineSplits | CameraUtility/CameraFileNameConverter.cs:68 | a relative name joined under a directory is the directory prefix followed by the name |
| Text.CombineSeparatorOnce | CameraUtility/CameraFileNameConverter.cs:68 | joining under `a` and under `a/` give the same path, with a single `/` between; joining under an empty directory gives the name itself |
| Parsing.WrapInt32 | CameraUtility/CameraFiles/ImageFile.cs:69-73 | the result is a 32-bit value congruent to the input modulo 2^32, and a 32-bit input is kept |
| Parsing.ParseInt32 | CameraUtility/CameraFiles/ImageFile.cs:66 | succeeds exactly when the text, less leading and trailing white space, is an optional sign and one or more digits denoting a 32-bit value, and then gives that value; otherwise a `FormatException` for a malformed text and an `OverflowException` for one out of range |
| Parsing.ParseInt32RoundTrip | CameraUtility/CameraFiles/ImageFile.cs:66 | parsing the text of any 32-bit value gives the value back |
| Parsing.ParseUnsigned | CameraUtility/CameraFiles/ImageFile.cs:66 | a run of digits within range parses to the number it denotes, leading zeros included |
| Parsing.ParseInt32Examples | CameraUtility.Tests/CameraFiles/ImageFileTests.cs:11-12 | `42` and `042` both parse to 42, `16` to 16 and `150` to 150 |
| Parsing.ParseIgnoresSurroundingWhite | CameraUtility/CameraFiles/ImageFile.cs:66 | white space before and after a text never changes what it parses to |
| Parsing.SurroundingWhiteExamples | CameraUtility/CameraFiles/ImageFile.cs:66 | ` 42` and `42 ` both parse to 42 |
| Parsing.NotDigitsExamples | CameraUtility/CameraFiles/ImageFile.cs:66 | a letter or an empty text throws a format exception |
| Parsing.ParseExifDateTime | CameraUtility/CameraFiles/ImageFile.cs:53-60 | an accepted text has 19 characters, gives a valid whole-second date-time, and is exactly that date-time written as `yyyy:MM:dd HH:mm:ss` |
| Parsing.ExifRoundTrip | CameraUtility/CameraFiles/ImageFile.cs:53-60 | every valid whole-second date-time written as `yyyy:MM:dd HH:mm:ss` parses back to itself |
| Parsing.ExifExamples | CameraUtility/CameraFiles/DngImageFile.cs:39-44 | the two dates of the examples parse to the expected date-times |
| Parsing.ExifMonthRefused | CameraUtility/CameraFiles/DngImageFile.cs:39-44 | a month of 13 is refused |
| Parsing.IndexOfName | CameraUtility/CameraFiles/VideoFile.cs:22 | a position found holds the name; none is found only when the name is absent |
| Parsing.NamesDistinct | CameraUtility/CameraFiles/VideoFile.cs:22 | in a list without repeats each name is found at its own position |
| Parsing.ParseQuickTimeDateTime | CameraUtility/CameraFiles/VideoFile.cs:22 | an accepted text has 24 characters, gives a valid whole-second date-time, and is exactly that date-time written as `ddd MMM dd HH.mm.ss yyyy`, its own day name first |
| Parsing.QuickTimeRoundTrip | CameraUtility/CameraFiles/VideoFile.cs:22 | every valid whole-second date-time written as `ddd MMM dd HH.mm.ss yyyy` parses back to itself |
| Parsing.QuickTimeExample | CanonEosPhotoDownloader.Tests/CameraFiles/VideoFileTests.cs:15-28 | `Fri Jun 13 14.15.16 1980` parses to 13 June 1980, 14:15:16 |
| Calendar.TimeOfDay | CameraUtility/CameraFiles/ImageFile.cs:39 | within one day |
| Calendar.DayOfWeek | CameraUtility/CameraFiles/VideoFile.cs:22 | one of the seven days |
| Calendar.DayNumberBounds | CameraUtility/CameraFiles/ImageFile.cs:39 | every valid date lies between 0001-01-01 and 9999-12-31, and only the last day has the last number |
| Calendar.AddMilliseconds | CameraUtility/CameraFiles/ImageFile.cs:39 | succeeds exactly when the moved instant stays representable, and then moves the instant by exactly the milliseconds given; otherwise throws `ArgumentOutOfRangeException` |
| Calendar.DayNumberInjective | CameraUtility/CameraFiles/ImageFile.cs:39 | different dates have different day numbers |
| Calendar.TimeOfDayInjective | CameraUtility/CameraFiles/ImageFile.cs:39 | different times of day are different milliseconds of the day |
| Calendar.InstantInjective | CameraUtility/CameraFiles/ImageFile.cs:39 | the instant identifies a date-time, so adding milliseconds has one result |
| Exif.FirstIndex | CameraUtility/CameraFiles/ImageFile.cs:48-50 | the position of the first matching tag: no earlier tag matches, and the tag there matches unless none does |
| Exif.FirstOrDefault | CameraUtility/CameraFiles/ImageFile.cs:48 | none exactly when no tag matches; otherwise the first matching tag |
| Exif.First | CameraUtility/CameraFiles/VideoFile.cs:20-21 | throws `InvalidOperationException` exactly when no tag matches; otherwise the first matching tag |
| Exif.FirstIndexIgnoresRest | CameraUtility/CameraFiles/ImageFile.cs:48-50 | the first match is the same whatever tags follow it |
| Exif.FirstSkipsNonMatching | CameraUtility/CameraFiles/VideoFile.cs:20-21 | a leading tag that does not match changes nothing |
| Linq.Where | CameraUtility/CameraFilesFinder.cs:39 | no longer than the input, and every element kept satisfies the filter |
| Linq.WhereCounts | CameraUtility/CameraFilesFinder.cs:39 | every element satisfying the filter keeps all its copies and every other element loses all of them |
| Linq.WhereAppend | CameraUtility/CameraFilesFinder.cs:39 | filtering keeps order: filtering a concatenation filters each part |
| Linq.WhereSingleton | CameraUtility/CameraFilesFinder.cs:39 | a single element is kept exactly when it satisfies the filter |
| Linq.WhereAll | CameraUtility/CameraFilesFinder.cs:39 | filtering keeps every element when all satisfy the filter |

## Left out

- Null arguments: no value in the model is null. The `ArgumentNullException` checks of the constructors, and the null-tag cases, are not modelled. This includes the oldest name converter accepting a null factory.
- Console colours and the saving and restoring of `Console.ForegroundColor`: only the text written is modelled.
- `Debug.WriteLine` calls: these are diagnostics with no effect on the program.
- Program entry, command-line parsing and wiring (`Program.cs`, the command classes), `Console.CancelKeyPress` and `Thread.Sleep`: these only compose the core.
- The metadata reader and its exception decorator, which call the metadata library: the tags are an input, and reading them is a function that may throw.
- `FileSystems.FileSystem.CreateDirectoryIfNotExists`, `CopyFileIfDoesNotExist` and `MoveFileIfDoesNotExist` never fail. The middle and oldest generations call them through `IFileSystem`, whose documentation names no failure. The `System.IO` exceptions the implementation behind it can raise are not modelled for them, so the copiers of those generations never see an I/O failure.
- `FileSystems.FileSystem.TransferError` does not treat a missing destination directory, or a directory standing at the destination path, as a cause of failure. The newest transferer creates the destination directory before transferring, so for it a missing directory shows up as a failed creation.
- `CameraUtility/FileSystemIsolation/FileSystem.cs`: it wraps `System.IO`, its method signatures do not match the interface the core calls, and its `CreateDirectoryIfNotExists` returns whether the directory already existed, the opposite of the interface's documented contract. The model follows the documented contract of `IFileSystem`. Recursive listings are given as state, not computed from a directory tree.
- `AsParallel` in the older finders: the order of their results is not promised. The model states them as the filtered listing and proves the multiset of elements kept. No concurrency is modelled.
- `CancellationToken`: a function from the loop position to a boolean replaces it. A request is observed only where the source checks for one.
- `DateTime.ParseExact` leniencies: culture, surrounding white space, and case-insensitive month and day names are not modelled. Month and day names are matched exactly as the invariant culture writes them. The weekday name must agree with the date, as .NET demands.
- `int.Parse` with `NumberStyles.Integer` also accepts trailing NUL characters after the trailing white space; `Parsing.ParseInt32` does not. Its leading and trailing white space, the sign and the digits are modelled.
- `Text.Combine`: Windows paths are not modelled. Only `/` is a separator, so a `b` that starts with `\` or a drive letter is not treated as rooted, and `a` ending in `\` still gets a `/`.
- `Text.ToLowerInvariant` and `Text.EndsWithAnyIgnoreCase` fold only the ASCII letters A to Z. The .NET invariant culture also folds other letters, such as `É`. The extensions compared here are all ASCII, so the outcome for them is the same.
- `CanonImageFiles.New` assumes that the oldest generation's base constructor, `AbstractCameraFile(fullName)`, called at `CanonEosPhotoDownloader/CameraFiles/ImageFile.cs:23`, accepts every name. Its source is not part of this model, so the model gives the photo its full name and the extension of that name.
- `AddMilliseconds` takes a `double` in .NET; every value passed here is an integer, so milliseconds are integers.
- Integer overflow other than the tenfold sub-second value: counters are unbounded integers, because they cannot reach 2^31 or 2^63 with real file counts.
- The sub-second tests at `CameraUtility.Tests/CameraFiles/ImageFileTests.cs:12-13` expect `042` to mean 42 ms and `042000` to mean 42 ms, a rule based on the number of digits. The code multiplies the parsed integer by ten, which gives 420 ms and 420000 ms. The model follows the code; `ImageFiles.SubSecondExamples` states the value as written.
- The overwrite option, and its tests: the transferer never overwrites and always passes the default `false`.
- Move mode of the middle generation: `CameraFileCopier` stores `removeFromSource` but never reads it, so it always copies. The model does the same.
- `DirectoryCopier` and `CopyingOrchestrator` run their loops over the concrete `FileCopier.CameraFileCopier`, not over any `ICameraFileCopier`. The program passes them `ExceptionHandlingCameraFileCopierDecorator`, which swallows invalid-metadata and invalid-file errors when continuing on error. So their "any exception ends the run" is proved for the undecorated copier only; the decorator's own behaviour is `CopierExceptionHandling.ExecuteCopyFile`.
- The middle generation's decorators are modelled over the concrete classes they wrap rather than over the interfaces. Their contracts are stated in terms of what the wrapped object does.
- The `ArgumentOutOfRangeException` branch of the middle report's `PrintSummary` cannot be reached, because the mode has only two values.
- `CameraImageCopier` calls `_cameraFileFinder.FindFilePaths` and `_fileSystem.FileCopyIfDoesNotExist`, names its declared interfaces do not have. The model takes them to be `CanonFileFinder.FindCameraFiles` and the file system's copy-if-absent.
- The oldest copier's name converter is a function value; `CanonImageCopier.CanonConverter` builds it from `CanonNameConverter.Convert`.
- The copying loops of the middle generation are specified through the converter's `GetCameraFile`, which throws exactly when the conversion does.
- `CameraFileTransferer.cs` shows `TransferFile` returning nothing while destructuring a result-returning `Convert`, and `Orchestrator.cs` reads a result from `TransferFile`. The orchestrator takes the transfer as a function that returns a result or throws. The transferer takes the conversion as a function that returns the directory and name, or throws.
- The newest generation's `ImageFile.Create` and `VideoFile.Create`, which are not part of this model, are passed to `CameraFileFactory.Create` as functions.
- Events: the .NET event handlers are modelled as a log of the events raised, in order. Handlers attached by the composition root are not modelled.

## Findings

| source | as written | input that shows it | evidently intended | confidence | as-written member | corrected member |
|---|---|---|---|---|---|---|
| CameraUtility/Commands/Check/Output/ConsoleOutput.cs:40-42 | reports the number of files found minus the number missing metadata as the number of files missing metadata | three files found, one of them missing metadata: the line says "Missing metadata in 2 file(s)." | the number of files missing metadata, "Missing metadata in 1 file(s)." | high, not executed | `CheckConsoleOutput.SummaryTextAsWritten`, shown wrong by `CheckConsoleOutput.AsWrittenMiscounts` | `CheckConsoleOutput.SummaryText`, printed by `CheckConsoleOutput.ConsoleOutput.PrintSummary` |
