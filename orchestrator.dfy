/** `Orchestrator` of the newest generation: finds the camera files under
    the source path and transfers them one by one, checking for cancellation
    before each. Without keep-going the first failure or exception ends the
    run with code 2; with it, an exception marks the run as failed and the
    loop goes on, while a failed result is only reported. */
module TransferOrchestrator {
  import opened Wrappers
  import opened CameraFilePaths
  import opened TransferNameConverter
  import CommandsFilesFinder
  import Linq

  const NoErrorsResultCode := 0
  const ErrorResultCode := 2

  /** `AbstractTransferImageFilesCommand.OptionArgs`; `Overwrite` is not
      read by the orchestrator. */
  datatype OptionArgs = OptionArgs(sourcePath: string, destinationDirectory: string,
                                   dryRun: bool, keepGoing: bool, skipDateSubdirectory: bool)

  /** `OnError` and `OnException`. */
  datatype Event = Error(error: string) | Exception(filePath: CameraFilePath, exn: Exn)

  /** `CameraFileTransferer.TransferFile` as the orchestrator calls it: a
      result, or an exception. */
  type TransferFile = Args -> Outcome<Result<()>>

  /** The two codes `Execute` returns. */
  predicate IsResultCode(code: int)
  {
    code == NoErrorsResultCode || code == ErrorResultCode
  }

  /** `CameraFileTransferer.Args` for one found file. */
  function FileArgs(cameraFilePath: CameraFilePath, options: OptionArgs): (r: Args)
    ensures r.cameraFilePath == cameraFilePath.value && r.destinationRootDirectory == options.destinationDirectory
    ensures r.dryRun == options.dryRun && r.skipDateSubdirectory == options.skipDateSubdirectory
  {
    Args(cameraFilePath.value, options.destinationDirectory, options.dryRun, options.skipDateSubdirectory)
  }

  /** Whether the transfer of a file went wrong: it threw, or failed. */
  predicate Failed(transferFile: TransferFile, cameraFilePath: CameraFilePath, options: OptionArgs)
  {
    var o := transferFile(FileArgs(cameraFilePath, options));
    o.Throws? || o.value.Failure?
  }

  /** The events the transfer of one file raises. */
  function EventsFor(transferFile: TransferFile, cameraFilePath: CameraFilePath, options: OptionArgs): (r: seq<Event>)
    ensures |r| <= 1 && (|r| == 1 <==> Failed(transferFile, cameraFilePath, options))
  {
    match transferFile(FileArgs(cameraFilePath, options))
    case Throws(e) => [Exception(cameraFilePath, e)]
    case Ok(Failure(error)) => [Error(error)]
    case Ok(Success(_)) => []
  }

  /** The events the transfers of the first `n` files, in order, raise. */
  function EventsOf(transferFile: TransferFile, paths: seq<CameraFilePath>, options: OptionArgs, n: nat): (r: seq<Event>)
    requires n <= |paths|
    ensures |r| <= n
  {
    if n == 0 then []
    else EventsOf(transferFile, paths, options, n - 1) + EventsFor(transferFile, paths[n - 1], options)
  }

  /** How many of the first `n` files went wrong. */
  function FailedCount(transferFile: TransferFile, paths: seq<CameraFilePath>, options: OptionArgs, n: nat): nat
    requires n <= |paths|
  {
    if n == 0 then 0
    else FailedCount(transferFile, paths, options, n - 1) + (if Failed(transferFile, paths[n - 1], options) then 1 else 0)
  }

  /** One event per file that went wrong, and none for the others. */
  lemma {:induction false} EventsCountFailures(transferFile: TransferFile, paths: seq<CameraFilePath>,
                                               options: OptionArgs, n: nat)
    requires n <= |paths|
    ensures |EventsOf(transferFile, paths, options, n)| == FailedCount(transferFile, paths, options, n)
  {
    if n > 0 {
      EventsCountFailures(transferFile, paths, options, n - 1);
    }
  }

  /** Whether the loop stops after the transfer of a file: it went wrong
      and keep-going is not set. */
  predicate Stops(o: Outcome<Result<()>>, keepGoing: bool)
  {
    (o.Throws? || o.value.Failure?) && !keepGoing
  }

  /** The result code after a transfer the loop goes on from: an exception
      marks the run as failed, a failed result does not. */
  function NextResult(o: Outcome<Result<()>>, result: int): (r: int)
    ensures IsResultCode(result) ==> IsResultCode(r)
    ensures r == NoErrorsResultCode <==> result == NoErrorsResultCode && o.Ok?
  {
    if o.Throws? then ErrorResultCode else result
  }

  /** The loop from file `i` on, with `result` so far: what `Execute` ends
      with, and how many files have been attempted by then. */
  function Loop(transferFile: TransferFile, cancellationRequested: nat -> bool, paths: seq<CameraFilePath>,
                options: OptionArgs, i: nat, result: int): (r: (Outcome<int>, nat))
    requires i <= |paths| && IsResultCode(result)
    ensures i <= r.1 <= |paths|
    ensures r.0.Ok? ==> IsResultCode(r.0.value)
    ensures r.0.Throws? ==> r.0.exn.kind == OperationCanceledException
    ensures result == ErrorResultCode && r.0.Ok? ==> r.0.value == ErrorResultCode
    decreases |paths| - i
  {
    if i == |paths| then (Ok(result), i)
    else if cancellationRequested(i) then (Raise(OperationCanceledException, "The operation was canceled."), i)
    else
      var o := transferFile(FileArgs(paths[i], options));
      if Stops(o, options.keepGoing) then (Ok(ErrorResultCode), i + 1)
      else Loop(transferFile, cancellationRequested, paths, options, i + 1, NextResult(o, result))
  }

  /** One turn of the loop, on a file reached without cancellation: how
      `Loop` goes on, and the attempted files and events one file further. */
  lemma LoopStep(transferFile: TransferFile, cancellationRequested: nat -> bool, paths: seq<CameraFilePath>,
                 options: OptionArgs, i: nat, result: int, attempted: seq<CameraFilePath>, events: seq<Event>)
    requires i < |paths| && IsResultCode(result) && !cancellationRequested(i)
    ensures var o := transferFile(FileArgs(paths[i], options));
      Loop(transferFile, cancellationRequested, paths, options, i, result)
      == if Stops(o, options.keepGoing) then (Ok(ErrorResultCode), i + 1)
         else Loop(transferFile, cancellationRequested, paths, options, i + 1, NextResult(o, result))
    ensures attempted + paths[..i] + [paths[i]] == attempted + paths[..i + 1]
    ensures events + EventsOf(transferFile, paths, options, i) + EventsFor(transferFile, paths[i], options)
            == events + EventsOf(transferFile, paths, options, i + 1)
  {
    assert paths[..i + 1] == paths[..i] + [paths[i]];
    Linq.AppendAssociative(attempted, paths[..i], [paths[i]]);
  }

  /** Every file from `i` on was transferred without any problem and no
      cancellation came. */
  predicate Clean(transferFile: TransferFile, cancellationRequested: nat -> bool, paths: seq<CameraFilePath>,
                  options: OptionArgs, i: nat)
  {
    forall j :: i <= j < |paths| ==>
      !cancellationRequested(j) && transferFile(FileArgs(paths[j], options)).Ok?
      && (options.keepGoing || transferFile(FileArgs(paths[j], options)).value.Success?)
  }

  /** The run returns 0 exactly when it was clean: no cancellation, no
      exception, and no failed result unless keep-going is set. */
  lemma {:induction false} ZeroIffClean(transferFile: TransferFile, cancellationRequested: nat -> bool,
                                        paths: seq<CameraFilePath>, options: OptionArgs, i: nat)
    requires i <= |paths|
    ensures Loop(transferFile, cancellationRequested, paths, options, i, NoErrorsResultCode).0 == Ok(NoErrorsResultCode)
            <==> Clean(transferFile, cancellationRequested, paths, options, i)
    decreases |paths| - i
  {
    if i < |paths| {
      ZeroIffClean(transferFile, cancellationRequested, paths, options, i + 1);
      var o := transferFile(FileArgs(paths[i], options));
      if !cancellationRequested(i) && o.Throws? && options.keepGoing {
        assert Loop(transferFile, cancellationRequested, paths, options, i, NoErrorsResultCode)
            == Loop(transferFile, cancellationRequested, paths, options, i + 1, ErrorResultCode);
      }
    }
  }

  /** Without keep-going, the run stops at the first file that goes wrong:
      nothing after it is attempted. */
  lemma {:induction false} StopsAtFirstFailure(transferFile: TransferFile, cancellationRequested: nat -> bool,
                                               paths: seq<CameraFilePath>, options: OptionArgs,
                                               i: nat, result: int, k: nat)
    requires !options.keepGoing && i <= k < |paths| && IsResultCode(result)
    requires forall j :: i <= j <= k ==> !cancellationRequested(j)
    requires forall j :: i <= j < k ==> !Failed(transferFile, paths[j], options)
    requires Failed(transferFile, paths[k], options)
    ensures Loop(transferFile, cancellationRequested, paths, options, i, result) == (Ok(ErrorResultCode), k + 1)
    decreases k - i
  {
    if i < k {
      StopsAtFirstFailure(transferFile, cancellationRequested, paths, options, i + 1, result, k);
    }
  }

  /** With keep-going and no cancellation, every file is attempted. */
  lemma {:induction false} KeepGoingAttemptsAll(transferFile: TransferFile, cancellationRequested: nat -> bool,
                                                paths: seq<CameraFilePath>, options: OptionArgs, i: nat, result: int)
    requires options.keepGoing && i <= |paths| && IsResultCode(result)
    requires forall j :: i <= j < |paths| ==> !cancellationRequested(j)
    ensures Loop(transferFile, cancellationRequested, paths, options, i, result).0.Ok?
    ensures Loop(transferFile, cancellationRequested, paths, options, i, result).1 == |paths|
    decreases |paths| - i
  {
    if i < |paths| {
      KeepGoingAttemptsAll(transferFile, cancellationRequested, paths, options, i + 1, ErrorResultCode);
      KeepGoingAttemptsAll(transferFile, cancellationRequested, paths, options, i + 1, result);
    }
  }

  /** Once cancellation is requested before file `k`, neither that file nor
      any later one is attempted. */
  lemma {:induction false} CancellationStops(transferFile: TransferFile, cancellationRequested: nat -> bool,
                                             paths: seq<CameraFilePath>, options: OptionArgs,
                                             i: nat, result: int, k: nat)
    requires i <= k < |paths| && IsResultCode(result)
    requires cancellationRequested(k)
    ensures Loop(transferFile, cancellationRequested, paths, options, i, result).1 <= k
    decreases k - i
  {
    if i < k {
      CancellationStops(transferFile, cancellationRequested, paths, options, i + 1, ErrorResultCode, k);
      CancellationStops(transferFile, cancellationRequested, paths, options, i + 1, result, k);
    }
  }

  class Orchestrator {
    const cameraFilesFinder: CommandsFilesFinder.CameraFilesFinder
    const transferFile: TransferFile
    /** The cancellation token, asked before file `i` is transferred. */
    const cancellationRequested: nat -> bool
    /** The events raised so far, oldest first. */
    var events: seq<Event>
    /** The files handed to `TransferFile` so far, in order. */
    ghost var attempted: seq<CameraFilePath>

    constructor (cameraFilesFinder: CommandsFilesFinder.CameraFilesFinder, transferFile: TransferFile,
                 cancellationRequested: nat -> bool)
      ensures this.cameraFilesFinder == cameraFilesFinder && this.transferFile == transferFile
      ensures this.cancellationRequested == cancellationRequested
      ensures events == [] && attempted == []
    {
      this.cameraFilesFinder := cameraFilesFinder;
      this.transferFile := transferFile;
      this.cancellationRequested := cancellationRequested;
      events := [];
      attempted := [];
    }

    /** `Execute`: a failed search reports its error and returns 2; otherwise
        the files found are transferred by `TransferAll`. */
    method Execute(options: OptionArgs) returns (r: Outcome<int>)
      modifies this, cameraFilesFinder
      ensures var found := cameraFilesFinder.Found(options.sourcePath);
        && (found.Failure? ==> r == Ok(ErrorResultCode) && events == old(events) + [Error(found.error)]
                               && attempted == old(attempted))
        && (found.Success? ==>
              var (outcome, n) := Loop(transferFile, cancellationRequested, found.value, options, 0, NoErrorsResultCode);
              && r == outcome
              && attempted == old(attempted) + found.value[..n]
              && events == old(events) + EventsOf(transferFile, found.value, options, n))
    {
      var cameraFilePathsResult := cameraFilesFinder.FindCameraFiles(options.sourcePath);
      if cameraFilePathsResult.Failure? {
        events := events + [Error(cameraFilePathsResult.error)];
        return Ok(ErrorResultCode);
      }
      r := TransferAll(cameraFilePathsResult.value, options);
    }

    /** The `try` block of the loop: one transfer, and its event raised if it
        threw or failed. */
    method Transfer(cameraFilePath: CameraFilePath, options: OptionArgs) returns (transferResult: Outcome<Result<()>>)
      modifies this
      ensures transferResult == transferFile(FileArgs(cameraFilePath, options))
      ensures attempted == old(attempted) + [cameraFilePath]
      ensures events == old(events) + EventsFor(transferFile, cameraFilePath, options)
    {
      attempted := attempted + [cameraFilePath];
      transferResult := transferFile(FileArgs(cameraFilePath, options));
      match transferResult {
        case Throws(exception) =>
          events := events + [Exception(cameraFilePath, exception)];
        case Ok(Failure(error)) =>
          events := events + [Error(error)];
        case Ok(Success(_)) =>
      }
    }

    /** The `foreach` of `Execute`: the files are attempted in order, as
        `Loop` says, and each one that goes wrong raises its event. */
    method TransferAll(paths: seq<CameraFilePath>, options: OptionArgs) returns (r: Outcome<int>)
      modifies this
      ensures r == Loop(transferFile, cancellationRequested, paths, options, 0, NoErrorsResultCode).0
      ensures attempted == old(attempted) + paths[..Loop(transferFile, cancellationRequested, paths, options, 0, NoErrorsResultCode).1]
      ensures events == old(events) + EventsOf(transferFile, paths, options, Loop(transferFile, cancellationRequested, paths, options, 0, NoErrorsResultCode).1)
    {
      var result := NoErrorsResultCode;
      var i := 0;
      while i < |paths|
        invariant 0 <= i <= |paths| && IsResultCode(result)
        invariant Loop(transferFile, cancellationRequested, paths, options, 0, NoErrorsResultCode)
               == Loop(transferFile, cancellationRequested, paths, options, i, result)
        invariant attempted == old(attempted) + paths[..i]
        invariant events == old(events) + EventsOf(transferFile, paths, options, i)
      {
        if cancellationRequested(i) {
          return Raise(OperationCanceledException, "The operation was canceled.");
        }
        var cameraFilePath := paths[i];
        LoopStep(transferFile, cancellationRequested, paths, options, i, result, old(attempted), old(events));
        var transferResult := Transfer(cameraFilePath, options);
        if Stops(transferResult, options.keepGoing) {
          return Ok(ErrorResultCode);
        }
        result := NextResult(transferResult, result);
        i := i + 1;
      }
      assert paths[..i] == paths;
      return Ok(result);
    }
  }
}
