/** `ConsoleOutput` of the check command: the error line and the summary of
    a metadata check, written to a text writer (colour is not modelled). */
module CheckConsoleOutput {
  import opened Text
  import opened CameraFilePaths
  import Linq

  const NewLine := "\n"

  function FoundText(count: int): string
  {
    "Found " + IntToString(count) + " camera file(s)."
  }

  const AllContainMetadata := " All files contain metadata."
  const MissingHeader := "Following files are missing metadata:"

  function MissingLine(n: int): string
  {
    " Missing metadata in " + IntToString(n) + " file(s)."
  }

  /** One line per path, in order. */
  function PathLines(paths: seq<CameraFilePath>): (r: string)
    ensures paths == [] <==> r == []
  {
    if paths == [] then []
    else PathLines(paths[..|paths| - 1]) + paths[|paths| - 1].value + NewLine
  }

  /** The summary as written: the number reported as missing is the number
      found minus the number missing. */
  function SummaryTextAsWritten(count: int, missing: seq<CameraFilePath>): (r: string)
    ensures count < 1 || missing == [] ==> r == SummaryText(count, missing)
    ensures count >= 1 && missing != [] ==>
      r == FoundText(count) + MissingLine(count - |missing|) + NewLine + MissingHeader + NewLine + PathLines(missing)
  {
    FoundText(count)
    + if count < 1 then NewLine
      else if missing == [] then AllContainMetadata + NewLine
      else MissingLine(count - |missing|) + NewLine + MissingHeader + NewLine + PathLines(missing)
  }

  /** The summary with the number of files missing metadata: the found
      count, then a newline alone when nothing was found, the all-good line
      when nothing is missing, or the missing count, a header and the
      missing paths. */
  function SummaryText(count: int, missing: seq<CameraFilePath>): (r: string)
    ensures |FoundText(count)| <= |r| && r[..|FoundText(count)|] == FoundText(count)
    ensures count < 1 ==> r == FoundText(count) + NewLine
    ensures count >= 1 && missing == [] ==> r == FoundText(count) + AllContainMetadata + NewLine
    ensures count >= 1 && missing != [] ==>
      r == FoundText(count) + MissingLine(|missing|) + NewLine + MissingHeader + NewLine + PathLines(missing)
  {
    FoundText(count)
    + if count < 1 then NewLine
      else if missing == [] then AllContainMetadata + NewLine
      else MissingLine(|missing|) + NewLine + MissingHeader + NewLine + PathLines(missing)
  }

  /** Three files found and one missing metadata: the text as written
      reports two files missing metadata. */
  lemma AsWrittenMiscounts(p: CameraFilePath)
    ensures SummaryTextAsWritten(3, [p]) != SummaryText(3, [p])
  {
    var found := FoundText(3);
    var tail := NewLine + MissingHeader + NewLine + PathLines([p]);
    var asWritten := found + MissingLine(2) + tail;
    var corrected := found + MissingLine(1) + tail;
    assert SummaryTextAsWritten(3, [p]) == asWritten;
    assert SummaryText(3, [p]) == corrected;
    var k := |found| + |" Missing metadata in "|;
    assert IntToString(2) == "2" && IntToString(1) == "1";
    assert asWritten[k] == MissingLine(2)[k - |found|] == '2';
    assert corrected[k] == MissingLine(1)[k - |found|] == '1';
  }

  /** The two agree whenever half the files found miss metadata, as with
      one missing out of two; they also agree when nothing was found or
      nothing is missing. */
  lemma AgreeWhenHalfMissing(count: int, missing: seq<CameraFilePath>)
    requires count == 2 * |missing|
    ensures SummaryTextAsWritten(count, missing) == SummaryText(count, missing)
  {
  }

  lemma Regroup(before: string, found: string, line: string, newLine: string, header: string, paths: string)
    ensures before + found + (line + newLine) + (header + newLine) + paths
            == before + (found + line + newLine + header + newLine + paths)
  {
  }

  class ConsoleOutput {
    /** What has been written so far. */
    var text: string

    constructor ()
      ensures text == []
    {
      text := [];
    }

    /** `PrintError`: the error on a line of its own. */
    method PrintError(error: string)
      modifies this
      ensures text == old(text) + error + NewLine
    {
      text := text + error + NewLine;
    }

    /** `PrintSummary`, with the number of files missing metadata. */
    method PrintSummary(cameraFilesCounter: int, cameraFilesWithoutMetadata: seq<CameraFilePath>)
      modifies this
      ensures text == old(text) + SummaryText(cameraFilesCounter, cameraFilesWithoutMetadata)
    {
      ghost var before := text;
      var found := FoundText(cameraFilesCounter);
      text := text + found;
      if cameraFilesCounter < 1 {
        text := text + NewLine;
        Linq.AppendAssociative(before, found, NewLine);
        return;
      }
      if cameraFilesWithoutMetadata == [] {
        text := text + (AllContainMetadata + NewLine);
        Linq.AppendAssociative(before, found, AllContainMetadata + NewLine);
        return;
      }
      text := text + (MissingLine(|cameraFilesWithoutMetadata|) + NewLine) + (MissingHeader + NewLine);
      PrintPaths(cameraFilesWithoutMetadata);
      Regroup(before, found, MissingLine(|cameraFilesWithoutMetadata|), NewLine, MissingHeader, PathLines(cameraFilesWithoutMetadata));
    }

    /** The `foreach` over the files missing metadata: one line each. */
    method PrintPaths(paths: seq<CameraFilePath>)
      modifies this
      ensures text == old(text) + PathLines(paths)
    {
      var i := 0;
      while i < |paths|
        invariant 0 <= i <= |paths|
        invariant text == old(text) + PathLines(paths[..i])
      {
        assert paths[..i + 1][..i] == paths[..i];
        text := text + paths[i].value + NewLine;
        i := i + 1;
      }
      assert paths[..i] == paths;
    }
  }
}
