/** `FileChecker` of the check command: finds the camera files under each
    source path, lists those whose metadata the camera file factory cannot
    use, and prints a summary. The list of such files is a field that is
    never cleared, so it keeps growing across runs. */
module FileChecker {
  import opened Wrappers
  import opened Exif
  import opened CameraFilePaths
  import opened Linq
  import CameraFileFactory
  import CommandsFilesFinder
  import CheckConsoleOutput

  const NoErrorsResultCode := 0
  const ErrorResultCode := 3

  /** `IMetadataReader.ExtractTags`, which may throw. */
  type MetadataReader = CameraFilePath -> Outcome<seq<Tag>>

  /** Whether a file misses metadata: the factory returns a failed result.
      Reading the tags or the factory may throw instead. */
  function MissesMetadata(extractTags: MetadataReader, imageCreate: CameraFileFactory.Creator,
                          videoCreate: CameraFileFactory.Creator, cameraFilePath: CameraFilePath): (r: Outcome<bool>)
    ensures r.Ok? ==> extractTags(cameraFilePath).Ok?
    ensures r.Ok? ==> var c := CameraFileFactory.Create(cameraFilePath, extractTags(cameraFilePath).value, imageCreate, videoCreate);
                      c.Ok? && (r.value <==> c.value.Failure?)
  {
    match extractTags(cameraFilePath)
    case Throws(e) => Throws(e)
    case Ok(tags) =>
      match CameraFileFactory.Create(cameraFilePath, tags, imageCreate, videoCreate)
      case Throws(e) => Throws(e)
      case Ok(result) => Ok(result.Failure?)
  }

  /** How a run ended. */
  datatype Stop = Completed | FinderFailed(error: string) | Threw(exn: Exn)

  /** The state of a run: files counted, files found missing metadata, and
      how it ended. */
  datatype Scan = Scan(count: int, missing: seq<CameraFilePath>, stop: Stop)

  /** The check of one file. */
  type FileCheck = CameraFilePath -> Outcome<bool>

  /** `MissesMetadata` as the check the loops apply. */
  function MetadataCheck(extractTags: MetadataReader, imageCreate: CameraFileFactory.Creator,
                         videoCreate: CameraFileFactory.Creator): FileCheck
  {
    p => MissesMetadata(extractTags, imageCreate, videoCreate, p)
  }

  /** The files a check reports. */
  function Reported(check: FileCheck): CameraFilePath -> bool
  {
    p => check(p) == Ok(true)
  }

  /** The inner loop over the files of one source path, up to the first
      exception: the files reported, in order, and the exception if any. */
  function CheckFiles(check: FileCheck, paths: seq<CameraFilePath>): (r: (seq<CameraFilePath>, Option<Exn>))
    ensures |r.0| <= |paths|
  {
    if paths == [] then ([], None)
    else
      var (missing, thrown) := CheckFiles(check, paths[..|paths| - 1]);
      if thrown.Some? then (missing, thrown)
      else match check(paths[|paths| - 1])
        case Throws(e) => (missing, Some(e))
        case Ok(misses) => (missing + (if misses then [paths[|paths| - 1]] else []), None)
  }

  /** When nothing throws, the files listed are exactly the files the check
      reports, in discovery order. */
  lemma {:induction false} CheckFilesIsFilter(check: FileCheck, paths: seq<CameraFilePath>)
    requires CheckFiles(check, paths).1.None?
    ensures forall i :: 0 <= i < |paths| ==> check(paths[i]).Ok?
    ensures CheckFiles(check, paths).0 == Where(paths, Reported(check))
  {
    if paths != [] {
      var n := |paths| - 1;
      var prefix, last := paths[..n], paths[n];
      CheckFilesIsFilter(check, prefix);
      assert check(last).Ok?;
      assert CheckFiles(check, paths).0 == CheckFiles(check, prefix).0 + (if check(last) == Ok(true) then [last] else []);
      forall i | 0 <= i < |paths|
        ensures check(paths[i]).Ok?
      {
        if i < n {
          assert paths[i] == prefix[i];
        }
      }
      assert paths == prefix + [last];
      WhereAppend(prefix, [last], Reported(check));
      WhereSingleton(last, Reported(check));
    }
  }

  /** An exception names the first file whose check threw: every earlier
      file was checked without one. */
  lemma {:induction false} CheckFilesThrowsAtFirst(check: FileCheck, paths: seq<CameraFilePath>)
    requires CheckFiles(check, paths).1.Some?
    ensures exists k :: 0 <= k < |paths| && check(paths[k]) == Throws(CheckFiles(check, paths).1.value)
                        && CheckFiles(check, paths[..k]).1.None?
                        && CheckFiles(check, paths).0 == CheckFiles(check, paths[..k]).0
  {
    var n := |paths| - 1;
    if CheckFiles(check, paths[..n]).1.Some? {
      CheckFilesThrowsAtFirst(check, paths[..n]);
      var k :| 0 <= k < n && check(paths[..n][k]) == Throws(CheckFiles(check, paths[..n]).1.value)
               && CheckFiles(check, paths[..n][..k]).1.None?
               && CheckFiles(check, paths[..n]).0 == CheckFiles(check, paths[..n][..k]).0;
      assert paths[..n][..k] == paths[..k];
    }
  }

  /** Once a file has thrown, the files after it are never looked at. */
  lemma {:induction false} CheckFilesStopsAtThrow(check: FileCheck, paths: seq<CameraFilePath>, k: nat)
    requires k <= |paths| && CheckFiles(check, paths[..k]).1.Some?
    ensures CheckFiles(check, paths) == CheckFiles(check, paths[..k])
    decreases |paths| - k
  {
    if k < |paths| {
      assert paths[..k + 1][..k] == paths[..k];
      CheckFilesStopsAtThrow(check, paths, k + 1);
    } else {
      assert paths[..k] == paths;
    }
  }

  /** One step of the outer loop: a finder failure or an exception ends the
      run, otherwise the files found are counted and checked. */
  function Next(previous: Scan, found: Result<seq<CameraFilePath>>, check: FileCheck): (r: Scan)
    ensures previous.count >= 0 ==> r.count >= 0
  {
    if !previous.stop.Completed? then previous
    else match found
      case Failure(error) => Scan(previous.count, previous.missing, FinderFailed(error))
      case Success(paths) =>
        var (missing, thrown) := CheckFiles(check, paths);
        Scan(previous.count + |paths|, previous.missing + missing,
             if thrown.Some? then Threw(thrown.value) else Completed)
  }

  /** A step from a running total adds what the step from zero finds. */
  lemma NextShifts(count: int, missing: seq<CameraFilePath>, found: Result<seq<CameraFilePath>>, check: FileCheck)
    ensures var step := Next(Scan(0, [], Completed), found, check);
      Next(Scan(count, missing, Completed), found, check) == Scan(count + step.count, missing + step.missing, step.stop)
  {
    if found.Success? {
      assert missing + CheckFiles(check, found.value).0 == missing + ([] + CheckFiles(check, found.value).0);
    }
  }

  /** The factory never rejects the type of a file the finder found: only
      the metadata can be missing. */
  lemma FoundFilesHaveKnownType(finder: CommandsFilesFinder.CameraFilesFinder, path: string, cameraFilePath: CameraFilePath)
    requires finder.Found(path).Success? && cameraFilePath in finder.Found(path).value
    ensures CameraFileFactory.SelectVariant(cameraFilePath.GetExtension()) != CameraFileFactory.UnknownType
  {
    var i :| 0 <= i < |finder.Found(path).value| && finder.Found(path).value[i] == cameraFilePath;
    CommandsFilesFinder.IsCameraFileIffKnownType(cameraFilePath.value);
  }

  class FileChecker {
    const cameraFilesFinder: CommandsFilesFinder.CameraFilesFinder
    const extractTags: MetadataReader
    const imageCreate: CameraFileFactory.Creator
    const videoCreate: CameraFileFactory.Creator
    const consoleOutput: CheckConsoleOutput.ConsoleOutput
    /** `_cameraFilesWithoutMetadata`: never cleared. */
    var cameraFilesWithoutMetadata: seq<CameraFilePath>

    constructor (cameraFilesFinder: CommandsFilesFinder.CameraFilesFinder, extractTags: MetadataReader,
                 imageCreate: CameraFileFactory.Creator, videoCreate: CameraFileFactory.Creator,
                 consoleOutput: CheckConsoleOutput.ConsoleOutput)
      ensures this.cameraFilesFinder == cameraFilesFinder && this.extractTags == extractTags
      ensures this.imageCreate == imageCreate && this.videoCreate == videoCreate
      ensures this.consoleOutput == consoleOutput && cameraFilesWithoutMetadata == []
    {
      this.cameraFilesFinder := cameraFilesFinder;
      this.extractTags := extractTags;
      this.imageCreate := imageCreate;
      this.videoCreate := videoCreate;
      this.consoleOutput := consoleOutput;
      cameraFilesWithoutMetadata := [];
    }

    /** The outer loop over the source paths: the files counted and found
        missing so far, up to the first finder failure or exception. */
    function ScanPaths(check: FileCheck, sourcePaths: seq<string>): (r: Scan)
      reads cameraFilesFinder.fileSystem
      ensures r.count >= 0
    {
      if sourcePaths == [] then Scan(0, [], Completed)
      else Next(ScanPaths(check, sourcePaths[..|sourcePaths| - 1]), cameraFilesFinder.Found(sourcePaths[|sourcePaths| - 1]), check)
    }

    /** Once a source path has failed or thrown, the later source paths are
        never looked at. */
    lemma {:induction false} ScanStops(check: FileCheck, sourcePaths: seq<string>, k: nat)
      requires k <= |sourcePaths| && !ScanPaths(check, sourcePaths[..k]).stop.Completed?
      ensures ScanPaths(check, sourcePaths) == ScanPaths(check, sourcePaths[..k])
      decreases |sourcePaths| - k
    {
      if k < |sourcePaths| {
        assert sourcePaths[..k + 1][..k] == sourcePaths[..k];
        ScanStops(check, sourcePaths, k + 1);
      } else {
        assert sourcePaths[..k] == sourcePaths;
      }
    }

    /** `Execute`: the files missing metadata are appended to the field as
        they are found. The first finder failure prints its error and
        returns 3 with no summary; an exception goes through; otherwise the
        summary of everything found so far is printed and 0 returned,
        whatever is missing. */
    method Execute(sourcePaths: seq<string>) returns (r: Outcome<int>)
      modifies this, cameraFilesFinder, consoleOutput
      ensures var scan := ScanPaths(MetadataCheck(extractTags, imageCreate, videoCreate), sourcePaths);
        && cameraFilesWithoutMetadata == old(cameraFilesWithoutMetadata) + scan.missing
        && (scan.stop.Completed? ==>
              r == Ok(NoErrorsResultCode)
              && consoleOutput.text == old(consoleOutput.text)
                                       + CheckConsoleOutput.SummaryText(scan.count, cameraFilesWithoutMetadata))
        && (scan.stop.FinderFailed? ==>
              r == Ok(ErrorResultCode)
              && consoleOutput.text == old(consoleOutput.text) + scan.stop.error + CheckConsoleOutput.NewLine)
        && (scan.stop.Threw? ==> r == Throws(scan.stop.exn) && consoleOutput.text == old(consoleOutput.text))
    {
      var filesCounter, stop := ScanAll(MetadataCheck(extractTags, imageCreate, videoCreate), sourcePaths);
      match stop
      case FinderFailed(error) =>
        consoleOutput.PrintError(error);
        return Ok(ErrorResultCode);
      case Threw(exn) =>
        return Throws(exn);
      case Completed =>
        consoleOutput.PrintSummary(filesCounter, cameraFilesWithoutMetadata);
        return Ok(NoErrorsResultCode);
    }

    /** The outer `foreach` over the source paths, up to the first finder
        failure or exception: the files counted, how the loop ended, and the
        files missing metadata appended to the field. */
    method ScanAll(check: FileCheck, sourcePaths: seq<string>) returns (filesCounter: int, stop: Stop)
      modifies this, cameraFilesFinder
      ensures var scan := ScanPaths(check, sourcePaths);
        filesCounter == scan.count && stop == scan.stop
        && cameraFilesWithoutMetadata == old(cameraFilesWithoutMetadata) + scan.missing
    {
      filesCounter, stop := 0, Completed;
      var i := 0;
      while i < |sourcePaths|
        invariant 0 <= i <= |sourcePaths|
        invariant stop == Completed
        invariant ScanPaths(check, sourcePaths[..i]).count == filesCounter && ScanPaths(check, sourcePaths[..i]).stop == Completed
        invariant cameraFilesWithoutMetadata == old(cameraFilesWithoutMetadata) + ScanPaths(check, sourcePaths[..i]).missing
      {
        assert sourcePaths[..i + 1][..i] == sourcePaths[..i];
        ghost var previous := ScanPaths(check, sourcePaths[..i]);
        var count;
        count, stop := ScanSourcePath(check, sourcePaths[i]);
        assert previous == Scan(filesCounter, previous.missing, Completed);
        assert ScanPaths(check, sourcePaths[..i + 1]) == Next(previous, cameraFilesFinder.Found(sourcePaths[i]), check);
        NextShifts(filesCounter, previous.missing, cameraFilesFinder.Found(sourcePaths[i]), check);
        filesCounter := filesCounter + count;
        assert ScanPaths(check, sourcePaths[..i + 1]).missing
               == previous.missing + Next(Scan(0, [], Completed), cameraFilesFinder.Found(sourcePaths[i]), check).missing;
        AppendAssociative(old(cameraFilesWithoutMetadata), previous.missing,
                          Next(Scan(0, [], Completed), cameraFilesFinder.Found(sourcePaths[i]), check).missing);
        if !stop.Completed? {
          ScanStops(check, sourcePaths, i + 1);
          return;
        }
        i := i + 1;
      }
      assert sourcePaths[..i] == sourcePaths;
    }

    /** One pass of the outer loop: find the camera files under one source
        path and check each. */
    method ScanSourcePath(check: FileCheck, sourcePath: string) returns (count: int, stop: Stop)
      modifies this, cameraFilesFinder
      ensures var step := Next(Scan(0, [], Completed), cameraFilesFinder.Found(sourcePath), check);
        count == step.count && stop == step.stop
        && cameraFilesWithoutMetadata == old(cameraFilesWithoutMetadata) + step.missing
    {
      var cameraFilesResult := cameraFilesFinder.FindCameraFiles(sourcePath);
      if cameraFilesResult.Failure? {
        return 0, FinderFailed(cameraFilesResult.error);
      }
      var thrown := CheckFilesOf(check, cameraFilesResult.value);
      assert [] + CheckFiles(check, cameraFilesResult.value).0 == CheckFiles(check, cameraFilesResult.value).0;
      count := |cameraFilesResult.value|;
      stop := if thrown.Some? then Threw(thrown.value) else Completed;
    }

    /** The inner `foreach`: each file the check reports is appended to the
        field; an exception stops the loop. */
    method CheckFilesOf(check: FileCheck, paths: seq<CameraFilePath>) returns (thrown: Option<Exn>)
      modifies this
      ensures var (missing, t) := CheckFiles(check, paths);
        thrown == t && cameraFilesWithoutMetadata == old(cameraFilesWithoutMetadata) + missing
    {
      var j := 0;
      while j < |paths|
        invariant 0 <= j <= |paths|
        invariant CheckFiles(check, paths[..j]).1.None?
        invariant cameraFilesWithoutMetadata == old(cameraFilesWithoutMetadata) + CheckFiles(check, paths[..j]).0
      {
        assert paths[..j + 1][..j] == paths[..j];
        var cameraFilePath := paths[j];
        var misses := check(cameraFilePath);
        if misses.Throws? {
          CheckFilesStopsAtThrow(check, paths, j + 1);
          return Some(misses.exn);
        }
        if misses.value {
          cameraFilesWithoutMetadata := cameraFilesWithoutMetadata + [cameraFilePath];
        }
        j := j + 1;
      }
      assert paths[..j] == paths;
      return None;
    }
  }
}
