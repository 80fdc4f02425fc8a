/** `CountingCameraFilesFinderDecorator` of the middle generation: the
    decorated finder's result, with its length recorded in the report under
    the searched path. */
module CountingFinder {
  import opened Wrappers
  import opened FileSystems
  import FilesFinder
  import Reporting

  class CountingCameraFilesFinderDecorator {
    /** The file system the decorated finder searches. */
    const fileSystem: FileSystem
    const report: Reporting.Report

    constructor (fileSystem: FileSystem, report: Reporting.Report)
      ensures this.fileSystem == fileSystem && this.report == report
    {
      this.fileSystem := fileSystem;
      this.report := report;
    }

    /** `FindCameraFiles`: a finder exception goes through with nothing
        recorded; a path searched before throws `ArgumentException` from the
        report's dictionary; otherwise the found files are returned in the
        finder's order and their number is added under the path. */
    method FindCameraFiles(path: string) returns (r: Outcome<seq<string>>)
      requires report.Valid()
      modifies report
      ensures report.Valid()
      ensures var found := FilesFinder.FindCameraFiles(fileSystem, path);
        && (found.Throws? ==> r == found && report.filesFound == old(report.filesFound))
        && (found.Ok? && old(report.HasDirectory(path)) ==>
              r.Throws? && r.exn.kind == ArgumentException && report.filesFound == old(report.filesFound))
        && (found.Ok? && !old(report.HasDirectory(path)) ==>
              && r == found
              && report.filesFound == old(report.filesFound) + [(path, |found.value|)]
              && report.FilesFound() == old(report.FilesFound()) + |found.value|
              && report.HasDirectory(path))
      ensures report.errors == old(report.errors) && report.filesSkipped == old(report.filesSkipped)
      ensures report.filesMetadataRead == old(report.filesMetadataRead) && report.filesCopied == old(report.filesCopied)
      ensures report.lines == old(report.lines)
    {
      var found := FilesFinder.FindCameraFiles(fileSystem, path);
      if found.Throws? {
        return found;
      }
      var result := found.value;
      var added := report.AddNumberOfFilesFoundIn(path, |result|);
      if added.Throws? {
        return Throws(added.exn);
      }
      return Ok(result);
    }
  }

  /** Searching the same path twice: the second search throws, whatever the
      first found, and records nothing more. */
  method SearchTwice(finder: CountingCameraFilesFinderDecorator, path: string)
      returns (first: Outcome<seq<string>>, second: Outcome<seq<string>>)
    requires finder.report.Valid() && !finder.report.HasDirectory(path)
    requires FilesFinder.FindCameraFiles(finder.fileSystem, path).Ok?
    modifies finder.report
    ensures first.Ok? && second.Throws? && second.exn.kind == ArgumentException
    ensures finder.report.filesFound == old(finder.report.filesFound) + [(path, |first.value|)]
  {
    first := finder.FindCameraFiles(path);
    second := finder.FindCameraFiles(path);
  }
}
