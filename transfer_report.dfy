/** `Report` of the newest generation: counts what a transfer run did,
    remembers the skipped pairs as a set and the errors in order, and prints
    them followed by a one-line summary. */
module TransferReport {
  import opened Wrappers
  import opened Text
  import Linq
  import opened CameraFilePaths

  /** A skipped source and the destination that already existed. */
  type SkippedPair = (CameraFilePath, CameraFilePath)

  function SkippedHeader(count: nat): string
  {
    "Skipped " + IntToString(count) + " file(s) because they already exist at the destination."
  }

  function SkippedLine(pair: SkippedPair): string
  {
    pair.0.value + " exists as " + pair.1.value
  }

  function SkippedLines(order: seq<SkippedPair>): (r: seq<string>)
    ensures |r| == |order| && forall i :: 0 <= i < |order| ==> r[i] == SkippedLine(order[i])
  {
    seq(|order|, i requires 0 <= i < |order| => SkippedLine(order[i]))
  }

  const ErrorsHeader := "Following errors occurred:"

  function SummaryLine(found: int, processed: int, skipped: nat, transferred: int): string
  {
    "Found " + IntToString(found) + " camera file(s). Processed " + IntToString(processed)
    + ". Skipped " + IntToString(skipped) + ". Transferred " + IntToString(transferred) + "."
  }

  /** `order` lists the elements of `s`, each once: one order in which a
      `HashSet` may enumerate them. */
  ghost predicate IsOrdering<T(!new)>(order: seq<T>, s: set<T>)
  {
    && (forall i, j :: 0 <= i < j < |order| ==> order[i] != order[j])
    && (forall p :: p in s <==> p in order)
  }

  /** The lines `PrintReport` writes: the skipped block when there are
      skipped files, the error block when errors are wanted and there are
      some, then an empty line and the summary. */
  function ReportLines(order: seq<SkippedPair>, errors: seq<string>, withErrors: bool,
                       found: int, processed: int, transferred: int): (r: seq<string>)
    ensures var skippedBlock := if order == [] then 0 else |order| + 2;
            var errorBlock := if withErrors && errors != [] then |errors| + 2 else 0;
      && |r| == skippedBlock + errorBlock + 2
      && (order != [] ==> r[..skippedBlock] == ["", SkippedHeader(|order|)] + SkippedLines(order))
      && (withErrors && errors != [] ==> r[skippedBlock..skippedBlock + errorBlock] == ["", ErrorsHeader] + errors)
      && r[|r| - 2..] == ["", SummaryLine(found, processed, |order|, transferred)]
  {
    (if order == [] then [] else ["", SkippedHeader(|order|)] + SkippedLines(order))
    + (if withErrors && errors != [] then ["", ErrorsHeader] + errors else [])
    + ["", SummaryLine(found, processed, |order|, transferred)]
  }

  /** An enumeration of a set lists as many pairs as the set holds, so the
      count in the skipped header and summary is the number of lines listed. */
  lemma {:induction false} OrderingSize<T(!new)>(order: seq<T>, s: set<T>)
    requires IsOrdering(order, s)
    ensures |order| == |s|
  {
    if order != [] {
      var n := |order| - 1;
      var last := order[n];
      assert order[..n] + [last] == order;
      forall p ensures p in s - {last} <==> p in order[..n] {
        if p in order[..n] {
          var k :| 0 <= k < n && order[..n][k] == p;
          assert order[k] != order[n];
        }
      }
      OrderingSize(order[..n], s - {last});
    }
  }

  class Report {
    var skipped: set<SkippedPair>
    var errors: seq<string>
    var found: int
    var processed: int
    var transferred: int
    /** What has been written to the text writer, line by line. */
    var lines: seq<string>

    /** Every processed file was transferred, skipped or failed, and a
        repeated skip is counted but stored once. */
    predicate Valid()
      reads this
    {
      0 <= transferred && transferred + |skipped| + |errors| <= processed
    }

    constructor ()
      ensures Valid()
      ensures skipped == {} && errors == [] && found == 0 && processed == 0 && transferred == 0 && lines == []
    {
      skipped := {};
      errors := [];
      found := 0;
      processed := 0;
      transferred := 0;
      lines := [];
    }

    /** `HandleCameraFilesFound`: the count replaces the previous one. */
    method HandleCameraFilesFound(count: int)
      requires Valid()
      modifies this
      ensures Valid()
      ensures found == count
      ensures skipped == old(skipped) && errors == old(errors) && processed == old(processed)
      ensures transferred == old(transferred) && lines == old(lines)
    {
      found := count;
    }

    /** `IncrementTransferred`: always one more processed; one more
        transferred only when not a dry run. */
    method IncrementTransferred(dryRun: bool)
      requires Valid()
      modifies this
      ensures Valid()
      ensures processed == old(processed) + 1
      ensures transferred == old(transferred) + (if dryRun then 0 else 1)
      ensures skipped == old(skipped) && errors == old(errors) && found == old(found) && lines == old(lines)
    {
      if !dryRun {
        transferred := transferred + 1;
      }
      processed := processed + 1;
    }

    /** `AddSkippedFile`: a set insert, so a repeated pair is stored once,
        and one more processed either way. */
    method AddSkippedFile(source: CameraFilePath, destination: CameraFilePath)
      requires Valid()
      modifies this
      ensures Valid()
      ensures skipped == old(skipped) + {(source, destination)}
      ensures processed == old(processed) + 1
      ensures errors == old(errors) && found == old(found) && transferred == old(transferred) && lines == old(lines)
    {
      skipped := skipped + {(source, destination)};
      processed := processed + 1;
    }

    /** `AddExceptionForFile`: `"{path}: {message}"` appended. */
    method AddExceptionForFile(cameraFilePath: CameraFilePath, exception: Exn)
      requires Valid()
      modifies this
      ensures Valid()
      ensures errors == old(errors) + [cameraFilePath.value + ": " + exception.message]
      ensures processed == old(processed) + 1
      ensures skipped == old(skipped) && found == old(found) && transferred == old(transferred) && lines == old(lines)
    {
      errors := errors + [cameraFilePath.value + ": " + exception.message];
      processed := processed + 1;
    }

    /** `AddErrorForFile`: nothing for a missing path, otherwise
        `"{path}: {error}"` appended. */
    method AddErrorForFile(cameraFilePath: Option<CameraFilePath>, error: string)
      requires Valid()
      modifies this
      ensures Valid()
      ensures cameraFilePath.None? ==> errors == old(errors) && processed == old(processed)
      ensures cameraFilePath.Some? ==> errors == old(errors) + [cameraFilePath.value.value + ": " + error]
                                       && processed == old(processed) + 1
      ensures skipped == old(skipped) && found == old(found) && transferred == old(transferred) && lines == old(lines)
    {
      if cameraFilePath.None? {
        return;
      }
      errors := errors + [cameraFilePath.value.value + ": " + error];
      processed := processed + 1;
    }

    /** `PrintReport`: writes `ReportLines` for `order`, the order in which
        the skipped set happened to be enumerated; the counters and collections are left as they are. */
    method PrintReport(withErrors: bool) returns (ghost order: seq<SkippedPair>)
      modifies this
      ensures skipped == old(skipped) && errors == old(errors) && found == old(found)
      ensures processed == old(processed) && transferred == old(transferred)
      ensures IsOrdering(order, skipped)
      ensures lines == old(lines) + ReportLines(order, errors, withErrors, found, processed, transferred)
    {
      ghost var start := lines;
      order := PrintSkippedFiles();
      ghost var a := if order == [] then [] else ["", SkippedHeader(|order|)] + SkippedLines(order);
      ghost var b := if withErrors && errors != [] then ["", ErrorsHeader] + errors else [];
      ghost var c := ["", SummaryLine(found, processed, |order|, transferred)];
      if withErrors {
        PrintErrors();
      }
      assert lines == start + a + b;
      PrintSummary();
      assert lines == start + a + b + c;
      assert ReportLines(order, errors, withErrors, found, processed, transferred) == a + b + c;
      Linq.AppendAssociative4(start, a, b, c);
    }

    /** The skipped block, in the order the set is enumerated, gathered
        in a builder and then written. */
    method PrintSkippedFiles() returns (ghost order: seq<SkippedPair>)
      modifies this
      ensures skipped == old(skipped) && errors == old(errors) && found == old(found)
      ensures processed == old(processed) && transferred == old(transferred)
      ensures IsOrdering(order, skipped) && |order| == |skipped|
      ensures lines == old(lines) + (if order == [] then [] else ["", SkippedHeader(|order|)] + SkippedLines(order))
    {
      order := [];
      if skipped == {} {
        return;
      }
      var builder := [SkippedHeader(|skipped|)];
      var remaining := skipped;
      while remaining != {}
        invariant remaining <= skipped
        invariant forall p :: p in skipped <==> p in remaining || p in order
        invariant forall p :: p in remaining ==> p !in order
        invariant forall i, j :: 0 <= i < j < |order| ==> order[i] != order[j]
        invariant |order| + |remaining| == |skipped|
        invariant builder == [SkippedHeader(|skipped|)] + SkippedLines(order)
        decreases |remaining|
      {
        var pair :| pair in remaining;
        builder := builder + [SkippedLine(pair)];
        order := order + [pair];
        remaining := remaining - {pair};
      }
      lines := lines + [""] + builder;
    }

    /** The error block, gathered in a builder and then written. */
    method PrintErrors()
      modifies this
      ensures skipped == old(skipped) && errors == old(errors) && found == old(found)
      ensures processed == old(processed) && transferred == old(transferred)
      ensures lines == old(lines) + (if errors != [] then ["", ErrorsHeader] + errors else [])
    {
      if errors == [] {
        return;
      }
      var builder := [ErrorsHeader];
      var i := 0;
      while i < |errors|
        invariant 0 <= i <= |errors|
        invariant builder == [ErrorsHeader] + errors[..i]
      {
        builder := builder + [errors[i]];
        i := i + 1;
      }
      assert errors[..i] == errors;
      lines := lines + [""] + builder;
    }

    /** The summary; the skipped count is the size of the set. */
    method PrintSummary()
      modifies this
      ensures skipped == old(skipped) && errors == old(errors) && found == old(found)
      ensures processed == old(processed) && transferred == old(transferred)
      ensures lines == old(lines) + ["", SummaryLine(found, processed, |skipped|, transferred)]
    {
      lines := lines + ["", SummaryLine(found, processed, |skipped|, transferred)];
    }
  }

  /** In a printed report of a valid `Report`, the skipped lines listed, the
      errors listed and the transferred count together never exceed the
      processed count of the summary. */
  lemma PrintedCountsWithinProcessed(report: Report, order: seq<SkippedPair>)
    requires report.Valid() && IsOrdering(order, report.skipped)
    ensures 0 <= report.transferred && report.transferred + |order| + |report.errors| <= report.processed
  {
    OrderingSize(order, report.skipped);
  }
}
