/** `CountingCameraFileCopierDecorator` of the middle generation: a copy
    that returns counts one file with valid metadata; a copy that throws
    adds `"{file}: {message}"` to the report's errors and throws the same
    exception again, without counting. */
module CountingCopier {
  import opened Wrappers
  import FileCopier
  import Reporting

  class CountingCameraFileCopierDecorator {
    const decorated: FileCopier.CameraFileCopier
    const report: Reporting.Report

    constructor (decorated: FileCopier.CameraFileCopier, report: Reporting.Report)
      ensures this.decorated == decorated && this.report == report
    {
      this.decorated := decorated;
      this.report := report;
    }

    /** `ExecuteCopyFile`: the decorated copier is called once and its
        outcome is returned unchanged; exactly one of the metadata counter
        and the error list grows. */
    method ExecuteCopyFile(cameraFilePath: string, destinationDirectoryRoot: string) returns (r: Outcome<()>)
      requires report.Valid()
      modifies decorated, decorated.fileSystem, report
      ensures report.Valid()
      ensures decorated.requests == old(decorated.requests) + [(cameraFilePath, destinationDirectoryRoot)]
      ensures var converted := decorated.converter.Convert(cameraFilePath, destinationDirectoryRoot);
        && (converted.Throws? ==>
              && r == Throws(converted.exn)
              && report.errors == old(report.errors) + [cameraFilePath + ": " + converted.exn.message]
              && report.filesMetadataRead == old(report.filesMetadataRead))
        && (converted.Ok? ==>
              && r == Ok(())
              && report.errors == old(report.errors)
              && report.filesMetadataRead == old(report.filesMetadataRead) + 1)
      ensures report.filesFound == old(report.filesFound) && report.filesSkipped == old(report.filesSkipped)
      ensures report.filesCopied == old(report.filesCopied) && report.lines == old(report.lines)
    {
      r := decorated.ExecuteCopyFile(cameraFilePath, destinationDirectoryRoot);
      match r
      case Ok(_) =>
        report.IncrementNumberOfFilesWithValidMetadata();
      case Throws(exception) =>
        report.AddExceptionForFile(cameraFilePath, exception);
    }
  }
}
