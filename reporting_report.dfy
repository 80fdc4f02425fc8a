/** `Report` of the middle generation: how many camera files each searched
    directory held, how many had readable metadata, how many were copied or
    moved, which were skipped because the destination existed, and the
    errors; printed at the end as a skipped block, an error block and a
    summary line. Colour is not modelled. */
module Reporting {
  import opened Wrappers
  import opened Text
  import Linq
  import TransferReport

  /** `CopyOrMoveMode`, which only changes the verb of the summary. */
  datatype CopyOrMoveMode = Copy | Move

  function Verb(mode: CopyOrMoveMode): string
  {
    match mode
    case Copy => "Copied"
    case Move => "Moved"
  }

  /** A skipped source and the destination that already existed. */
  type SkippedPair = (string, string)

  function SkippedHeader(count: nat): string
  {
    "Skipped " + IntToString(count) + " because they already exist at the destination"
  }

  function SkippedLine(pair: SkippedPair): string
  {
    pair.0 + " exists as " + pair.1
  }

  function SkippedLines(order: seq<SkippedPair>): (r: seq<string>)
    ensures |r| == |order| && forall i :: 0 <= i < |order| ==> r[i] == SkippedLine(order[i])
  {
    seq(|order|, i requires 0 <= i < |order| => SkippedLine(order[i]))
  }

  const ErrorsHeader := "Following errors occurred:"

  function SummaryLine(found: int, metadataRead: int, skipped: nat, mode: CopyOrMoveMode, copied: int): string
  {
    "Found " + IntToString(found) + " camera files. Processed " + IntToString(metadataRead)
    + ". Skipped " + IntToString(skipped) + ". " + Verb(mode) + " " + IntToString(copied) + "."
  }

  /** `_filesFound.Values.Sum()` over the dictionary's entries. */
  function Sum(entries: seq<(string, int)>): int
  {
    if entries == [] then 0 else Sum(entries[..|entries| - 1]) + entries[|entries| - 1].1
  }

  /** The directories the dictionary holds. */
  predicate HasKey(entries: seq<(string, int)>, key: string)
  {
    exists i :: 0 <= i < |entries| && entries[i].0 == key
  }

  /** A dictionary holds each key once. */
  predicate DistinctKeys(entries: seq<(string, int)>)
  {
    forall i, j :: 0 <= i < j < |entries| ==> entries[i].0 != entries[j].0
  }

  /** The value stored for a key. */
  function Lookup(entries: seq<(string, int)>, key: string): (r: int)
    requires HasKey(entries, key)
    ensures exists i :: 0 <= i < |entries| && entries[i] == (key, r)
  {
    if entries[|entries| - 1].0 == key then entries[|entries| - 1].1
    else
      assert HasKey(entries[..|entries| - 1], key) by {
        var i :| 0 <= i < |entries| && entries[i].0 == key;
        assert entries[..|entries| - 1][i] == entries[i];
      }
      Lookup(entries[..|entries| - 1], key)
  }

  /** The sum counts every directory's files once: removing a directory's
      entry takes exactly its count off the total. */
  lemma {:induction false} SumCountsEachDirectoryOnce(entries: seq<(string, int)>, k: nat)
    requires k < |entries|
    ensures Sum(entries) == Sum(entries[..k] + entries[k + 1..]) + entries[k].1
  {
    var n := |entries| - 1;
    if k < n {
      SumCountsEachDirectoryOnce(entries[..n], k);
      assert entries[..n][..k] == entries[..k];
      assert entries[..k] + entries[k + 1..] == (entries[..n][..k] + entries[..n][k + 1..]) + [entries[n]];
      assert (entries[..k] + entries[k + 1..])[..n - 1] == entries[..n][..k] + entries[..n][k + 1..];
    } else {
      assert entries[..k] + entries[k + 1..] == entries[..n];
    }
  }

  /** The lines `PrintReport` writes: the skipped block when there are
      skipped files, the error block when errors are wanted and there are
      some, then the summary. */
  function ReportLines(order: seq<SkippedPair>, errors: seq<string>, printErrors: bool,
                       found: int, metadataRead: int, mode: CopyOrMoveMode, copied: int): (r: seq<string>)
    ensures var skippedBlock := if order == [] then 0 else |order| + 1;
            var errorBlock := if printErrors && errors != [] then |errors| + 1 else 0;
      && |r| == skippedBlock + errorBlock + 1
      && (order != [] ==> r[..skippedBlock] == [SkippedHeader(|order|)] + SkippedLines(order))
      && (printErrors && errors != [] ==> r[skippedBlock..skippedBlock + errorBlock] == [ErrorsHeader] + errors)
      && r[|r| - 1] == SummaryLine(found, metadataRead, |order|, mode, copied)
  {
    (if order == [] then [] else [SkippedHeader(|order|)] + SkippedLines(order))
    + (if printErrors && errors != [] then [ErrorsHeader] + errors else [])
    + [SummaryLine(found, metadataRead, |order|, mode, copied)]
  }

  class Report {
    const copyOrMoveMode: CopyOrMoveMode
    var errors: seq<string>
    /** `_filesFound`: the dictionary's entries in the order they were added. */
    var filesFound: seq<(string, int)>
    var filesSkipped: set<SkippedPair>
    var filesMetadataRead: int
    var filesCopied: int
    /** What has been written to the console, line by line. */
    var lines: seq<string>

    /** The dictionary holds each directory once. */
    predicate Valid()
      reads this
    {
      DistinctKeys(filesFound)
    }

    /** `FilesFound`: the sum of the counts of all directories. */
    function FilesFound(): int
      reads this
    {
      Sum(filesFound)
    }

    predicate HasDirectory(directory: string)
      reads this
    {
      HasKey(filesFound, directory)
    }

    constructor (copyOrMoveMode: CopyOrMoveMode)
      ensures Valid() && this.copyOrMoveMode == copyOrMoveMode
      ensures errors == [] && filesFound == [] && filesSkipped == {}
      ensures filesMetadataRead == 0 && filesCopied == 0 && lines == []
    {
      this.copyOrMoveMode := copyOrMoveMode;
      errors := [];
      filesFound := [];
      filesSkipped := {};
      filesMetadataRead := 0;
      filesCopied := 0;
      lines := [];
    }

    /** `AddNumberOfFilesFoundIn`: a `Dictionary.Add`, which throws
        `ArgumentException` for a directory already added and otherwise adds
        its count to the total. */
    method AddNumberOfFilesFoundIn(directory: string, numberOfFiles: int) returns (r: Outcome<()>)
      requires Valid()
      modifies this
      ensures Valid()
      ensures old(HasDirectory(directory)) ==> r.Throws? && r.exn.kind == ArgumentException && filesFound == old(filesFound)
      ensures !old(HasDirectory(directory)) ==>
                r == Ok(()) && filesFound == old(filesFound) + [(directory, numberOfFiles)]
                && FilesFound() == old(FilesFound()) + numberOfFiles && HasDirectory(directory)
                && Lookup(filesFound, directory) == numberOfFiles
      ensures errors == old(errors) && filesSkipped == old(filesSkipped) && filesMetadataRead == old(filesMetadataRead)
      ensures filesCopied == old(filesCopied) && lines == old(lines)
    {
      if HasKey(filesFound, directory) {
        return Raise(ArgumentException, "An item with the same key has already been added. Key: " + directory);
      }
      filesFound := filesFound + [(directory, numberOfFiles)];
      assert filesFound[|filesFound| - 1].0 == directory;
      return Ok(());
    }

    method IncrementNumberOfFilesWithValidMetadata()
      requires Valid()
      modifies this
      ensures Valid() && filesMetadataRead == old(filesMetadataRead) + 1
      ensures errors == old(errors) && filesFound == old(filesFound) && filesSkipped == old(filesSkipped)
      ensures filesCopied == old(filesCopied) && lines == old(lines)
    {
      filesMetadataRead := filesMetadataRead + 1;
    }

    method IncrementNumberOfFilesCopied()
      requires Valid()
      modifies this
      ensures Valid() && filesCopied == old(filesCopied) + 1
      ensures errors == old(errors) && filesFound == old(filesFound) && filesSkipped == old(filesSkipped)
      ensures filesMetadataRead == old(filesMetadataRead) && lines == old(lines)
    {
      filesCopied := filesCopied + 1;
    }

    /** `AddExceptionForFile`: `"{file}: {message}"` appended. */
    method AddExceptionForFile(fileName: string, exception: Exn)
      requires Valid()
      modifies this
      ensures Valid() && errors == old(errors) + [fileName + ": " + exception.message]
      ensures filesFound == old(filesFound) && filesSkipped == old(filesSkipped)
      ensures filesMetadataRead == old(filesMetadataRead) && filesCopied == old(filesCopied) && lines == old(lines)
    {
      errors := errors + [fileName + ": " + exception.message];
    }

    /** `AddSkippedFile`: a blank source or destination throws
        `ArgumentException`; otherwise a set insert, so a repeated pair is
        kept once. */
    method AddSkippedFile(sourceFileName: string, destinationFileName: string) returns (r: Outcome<()>)
      requires Valid()
      modifies this
      ensures Valid()
      ensures r.Throws? <==> IsNullOrWhiteSpace(sourceFileName) || IsNullOrWhiteSpace(destinationFileName)
      ensures r.Throws? ==> r.exn.kind == ArgumentException && filesSkipped == old(filesSkipped)
      ensures r.Ok? ==> filesSkipped == old(filesSkipped) + {(sourceFileName, destinationFileName)}
      ensures errors == old(errors) && filesFound == old(filesFound)
      ensures filesMetadataRead == old(filesMetadataRead) && filesCopied == old(filesCopied) && lines == old(lines)
    {
      if IsNullOrWhiteSpace(sourceFileName) {
        return Raise(ArgumentException, "Value cannot be null or whitespace. (Parameter 'sourceFileName')");
      }
      if IsNullOrWhiteSpace(destinationFileName) {
        return Raise(ArgumentException, "Value cannot be null or whitespace. (Parameter 'destinationFileName')");
      }
      filesSkipped := filesSkipped + {(sourceFileName, destinationFileName)};
      return Ok(());
    }

    /** `PrintReport`: writes `ReportLines` for `order`, the order in which
        the skipped set happened to be enumerated. */
    method PrintReport(printErrors: bool) returns (ghost order: seq<SkippedPair>)
      modifies this
      ensures errors == old(errors) && filesFound == old(filesFound) && filesSkipped == old(filesSkipped)
      ensures filesMetadataRead == old(filesMetadataRead) && filesCopied == old(filesCopied)
      ensures TransferReport.IsOrdering(order, filesSkipped) && |order| == |filesSkipped|
      ensures lines == old(lines) + ReportLines(order, errors, printErrors, FilesFound(), filesMetadataRead,
                                                copyOrMoveMode, filesCopied)
    {
      ghost var start := lines;
      order := PrintSkippedFiles();
      ghost var a := if order == [] then [] else [SkippedHeader(|order|)] + SkippedLines(order);
      ghost var b := if printErrors && errors != [] then [ErrorsHeader] + errors else [];
      ghost var c := [SummaryLine(FilesFound(), filesMetadataRead, |order|, copyOrMoveMode, filesCopied)];
      if printErrors {
        PrintErrors();
      }
      assert lines == start + a + b;
      PrintSummary();
      assert lines == start + a + b + c;
      assert ReportLines(order, errors, printErrors, FilesFound(), filesMetadataRead, copyOrMoveMode, filesCopied) == a + b + c;
      Linq.AppendAssociative4(start, a, b, c);
    }

    /** The skipped block, in the order the set is enumerated. The lines are
        written one by one; collecting them first makes no difference to
        the output. */
    method PrintSkippedFiles() returns (ghost order: seq<SkippedPair>)
      modifies this
      ensures errors == old(errors) && filesFound == old(filesFound) && filesSkipped == old(filesSkipped)
      ensures filesMetadataRead == old(filesMetadataRead) && filesCopied == old(filesCopied)
      ensures TransferReport.IsOrdering(order, filesSkipped) && |order| == |filesSkipped|
      ensures lines == old(lines) + (if order == [] then [] else [SkippedHeader(|order|)] + SkippedLines(order))
    {
      order := [];
      if filesSkipped == {} {
        return;
      }
      var builder := [SkippedHeader(|filesSkipped|)];
      var remaining := filesSkipped;
      while remaining != {}
        invariant remaining <= filesSkipped
        invariant forall p :: p in filesSkipped <==> p in remaining || p in order
        invariant forall p :: p in remaining ==> p !in order
        invariant forall i, j :: 0 <= i < j < |order| ==> order[i] != order[j]
        invariant |order| + |remaining| == |filesSkipped|
        invariant builder == [SkippedHeader(|filesSkipped|)] + SkippedLines(order)
        decreases |remaining|
      {
        var pair :| pair in remaining;
        builder := builder + [SkippedLine(pair)];
        order := order + [pair];
        remaining := remaining - {pair};
      }
      lines := lines + builder;
    }

    /** The error block, the header and then every error in order. */
    method PrintErrors()
      modifies this
      ensures errors == old(errors) && filesFound == old(filesFound) && filesSkipped == old(filesSkipped)
      ensures filesMetadataRead == old(filesMetadataRead) && filesCopied == old(filesCopied)
      ensures lines == old(lines) + (if errors != [] then [ErrorsHeader] + errors else [])
    {
      if errors == [] {
        return;
      }
      var builder := [ErrorsHeader];
      var i := 0;
      while i < |errors|
        invariant 0 <= i <= |errors|
        invariant builder == [ErrorsHeader] + errors[..i]
      {
        builder := builder + [errors[i]];
        i := i + 1;
      }
      assert errors[..i] == errors;
      lines := lines + builder;
    }

    /** The summary; the skipped count is the size of the set and the verb
        follows the mode. */
    method PrintSummary()
      modifies this
      ensures errors == old(errors) && filesFound == old(filesFound) && filesSkipped == old(filesSkipped)
      ensures filesMetadataRead == old(filesMetadataRead) && filesCopied == old(filesCopied)
      ensures lines == old(lines) + [SummaryLine(FilesFound(), filesMetadataRead, |filesSkipped|, copyOrMoveMode, filesCopied)]
    {
      lines := lines + [SummaryLine(FilesFound(), filesMetadataRead, |filesSkipped|, copyOrMoveMode, filesCopied)];
    }
  }
}
