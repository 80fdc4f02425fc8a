/** `CountingFileSystemDecorator` of the middle generation: the file system
    with every copy or move reported. A transfer that happened (not
    pretended) counts as copied; one refused because the destination exists
    is recorded as skipped, in a pretend run too; a pretended transfer
    leaves the report alone. The other operations only delegate. */
module CountingFileSystem {
  import opened Wrappers
  import opened Text
  import opened FileSystems
  import Reporting

  class CountingFileSystemDecorator {
    const decorated: FileSystem
    const report: Reporting.Report

    constructor (decorated: FileSystem, report: Reporting.Report)
      ensures this.decorated == decorated && this.report == report
    {
      this.decorated := decorated;
      this.report := report;
    }

    /** `CreateDirectoryIfNotExists`: the decorated call, the report untouched. */
    method CreateDirectoryIfNotExists(path: string, pretend: bool) returns (created: bool)
      modifies decorated
      ensures created <==> !old(decorated.DirectoryExists(path))
      ensures decorated.directories == if created && !pretend then old(decorated.directories) + {path} else old(decorated.directories)
      ensures decorated.files == old(decorated.files) && decorated.transfers == old(decorated.transfers)
      ensures decorated.listings == old(decorated.listings) && decorated.listingFailures == old(decorated.listingFailures)
      ensures unchanged(report)
    {
      created := decorated.CreateDirectoryIfNotExists(path, pretend);
    }

    /** `CopyFileIfDoesNotExist`: the decorated result, then `ProcessReport`.
        The copied counter follows the transfers the file system performed. */
    method CopyFileIfDoesNotExist(source: string, destination: string, pretend: bool) returns (r: Outcome<bool>)
      requires report.Valid()
      modifies decorated, report
      ensures report.Valid()
      ensures var copied := !old(decorated.FileExists(destination));
        && (r.Ok? ==> r.value == copied)
        && (copied && !pretend ==>
              && decorated.files == old(decorated.files) + {destination}
              && decorated.transfers == old(decorated.transfers) + [(source, destination)])
        && (!(copied && !pretend) ==> decorated.files == old(decorated.files) && decorated.transfers == old(decorated.transfers))
        && Reported(old(report.filesCopied), old(report.filesSkipped), copied, pretend, source, destination, r)
      ensures report.filesCopied - old(report.filesCopied) == |decorated.transfers| - |old(decorated.transfers)|
      ensures decorated.directories == old(decorated.directories)
      ensures decorated.listings == old(decorated.listings) && decorated.listingFailures == old(decorated.listingFailures)
      ensures ReportOnlyCounts(old(report.errors), old(report.filesFound), old(report.filesMetadataRead), old(report.lines))
    {
      var copied := decorated.CopyFileIfDoesNotExist(source, destination, pretend);
      var processed := ProcessReport(copied, pretend, source, destination);
      r := if processed.Throws? then Throws(processed.exn) else Ok(copied);
    }

    /** `MoveFileIfDoesNotExist`: as the copy, over the decorated move. */
    method MoveFileIfDoesNotExist(source: string, destination: string, pretend: bool) returns (r: Outcome<bool>)
      requires report.Valid()
      modifies decorated, report
      ensures report.Valid()
      ensures var moved := !old(decorated.FileExists(destination));
        && (r.Ok? ==> r.value == moved)
        && (moved && !pretend ==>
              && decorated.files == old(decorated.files) - {source} + {destination}
              && decorated.transfers == old(decorated.transfers) + [(source, destination)])
        && (!(moved && !pretend) ==> decorated.files == old(decorated.files) && decorated.transfers == old(decorated.transfers))
        && Reported(old(report.filesCopied), old(report.filesSkipped), moved, pretend, source, destination, r)
      ensures report.filesCopied - old(report.filesCopied) == |decorated.transfers| - |old(decorated.transfers)|
      ensures decorated.directories == old(decorated.directories)
      ensures decorated.listings == old(decorated.listings) && decorated.listingFailures == old(decorated.listingFailures)
      ensures ReportOnlyCounts(old(report.errors), old(report.filesFound), old(report.filesMetadataRead), old(report.lines))
    {
      var moved := decorated.MoveFileIfDoesNotExist(source, destination, pretend);
      var processed := ProcessReport(moved, pretend, source, destination);
      r := if processed.Throws? then Throws(processed.exn) else Ok(moved);
    }

    /** What `ProcessReport` leaves in the report, given the counter and the
        skipped set before it: a real transfer adds one to the counter, a
        pretended one changes nothing, and a refused one adds the pair to the
        skipped set, or throws `ArgumentException` for a blank path. */
    ghost predicate Reported(copiedBefore: int, skippedBefore: set<Reporting.SkippedPair>,
                             copied: bool, pretend: bool, source: string, destination: string, r: Outcome<bool>)
      reads report
    {
      && (copied ==> r.Ok? && report.filesSkipped == skippedBefore
                     && report.filesCopied == copiedBefore + (if pretend then 0 else 1))
      && (!copied ==>
            && report.filesCopied == copiedBefore
            && (r.Throws? <==> IsNullOrWhiteSpace(source) || IsNullOrWhiteSpace(destination))
            && (r.Throws? ==> r.exn.kind == ArgumentException && report.filesSkipped == skippedBefore)
            && (r.Ok? ==> report.filesSkipped == skippedBefore + {(source, destination)}))
    }

    /** The parts of the report a file-system call never touches. */
    ghost predicate ReportOnlyCounts(errors: seq<string>, filesFound: seq<(string, int)>, filesMetadataRead: int,
                                     lines: seq<string>)
      reads report
    {
      report.errors == errors && report.filesFound == filesFound
      && report.filesMetadataRead == filesMetadataRead && report.lines == lines
    }

    /** `ProcessReport`. */
    method ProcessReport(copied: bool, pretend: bool, source: string, destination: string) returns (r: Outcome<()>)
      requires report.Valid()
      modifies report
      ensures report.Valid()
      ensures Reported(old(report.filesCopied), old(report.filesSkipped), copied, pretend, source, destination,
                       if r.Throws? then Throws(r.exn) else Ok(copied))
      ensures ReportOnlyCounts(old(report.errors), old(report.filesFound), old(report.filesMetadataRead), old(report.lines))
    {
      r := Ok(());
      if copied {
        if !pretend {
          report.IncrementNumberOfFilesCopied();
        }
      } else {
        r := report.AddSkippedFile(source, destination);
      }
    }
  }
}
