/** `CameraDirectoryCopier` of the middle generation: finds the camera files
    under a source path and hands each, in the finder's order, to the file
    copier with the destination root unchanged, checking for cancellation
    before each. Any exception, the cancellation included, ends the run. */
module DirectoryCopier {
  import opened Wrappers
  import opened FileSystems
  import FilesFinder
  import FileCopier

  /** The requests the copier receives for `paths`, in order. */
  function Requests(paths: seq<string>, destinationDirectoryRoot: string): (r: seq<(string, string)>)
    ensures |r| == |paths| && forall i :: 0 <= i < |paths| ==> r[i] == (paths[i], destinationDirectoryRoot)
  {
    seq(|paths|, i requires 0 <= i < |paths| => (paths[i], destinationDirectoryRoot))
  }

  /** Handing over one more file adds its request at the end. */
  lemma RequestsGrow(before: seq<(string, string)>, paths: seq<string>, i: nat, destinationDirectoryRoot: string)
    requires i < |paths|
    ensures before + Requests(paths[..i + 1], destinationDirectoryRoot)
         == before + Requests(paths[..i], destinationDirectoryRoot) + [(paths[i], destinationDirectoryRoot)]
  {
    assert Requests(paths[..i + 1], destinationDirectoryRoot)
        == Requests(paths[..i], destinationDirectoryRoot) + [(paths[i], destinationDirectoryRoot)];
  }

  const Canceled: Outcome<()> := Raise(OperationCanceledException, "The operation was canceled.")

  /** The loop from file `i` on: how many files have been handed to the
      copier when it ends, and how it ends. A cancellation before file `k`
      stops with `k` files handed over; a file whose camera file cannot be
      made (its metadata unread, or its type refused) makes the copier throw:
      it is counted and its exception ends the loop. */
  function Attempted(copier: FileCopier.CameraFileCopier, cancellationRequested: nat -> bool,
                     paths: seq<string>, i: nat): (r: (nat, Outcome<()>))
    requires i <= |paths|
    ensures i <= r.0 <= |paths|
    ensures r.1.Ok? ==> r.0 == |paths|
    ensures r.1.Throws? && r.1 != Canceled ==>
              i < r.0 && copier.converter.GetCameraFile(paths[r.0 - 1]) == Throws(r.1.exn)
    decreases |paths| - i
  {
    if i == |paths| then (i, Ok(()))
    else if cancellationRequested(i) then (i, Canceled)
    else match copier.converter.GetCameraFile(paths[i])
      case Throws(e) => (i + 1, Throws(e))
      case Ok(_) => Attempted(copier, cancellationRequested, paths, i + 1)
  }

  /** With no cancellation and no copy throwing, every file is handed over
      and the run returns normally. */
  lemma {:induction false} AllCopiedWhenClean(copier: FileCopier.CameraFileCopier, cancellationRequested: nat -> bool,
                                              paths: seq<string>, i: nat)
    requires i <= |paths|
    requires forall j :: i <= j < |paths| ==>
               !cancellationRequested(j) && copier.converter.GetCameraFile(paths[j]).Ok?
    ensures Attempted(copier, cancellationRequested, paths, i) == (|paths|, Ok(()))
    decreases |paths| - i
  {
    if i < |paths| {
      AllCopiedWhenClean(copier, cancellationRequested, paths, i + 1);
    }
  }

  /** A cancellation requested before file `k`, with every earlier file
      copied without an exception, stops the run there: no file from `k` on
      reaches the copier. */
  lemma {:induction false} CancellationStops(copier: FileCopier.CameraFileCopier, cancellationRequested: nat -> bool,
                                             paths: seq<string>, i: nat, k: nat)
    requires i <= k < |paths| && cancellationRequested(k)
    requires forall j :: i <= j < k ==>
               !cancellationRequested(j) && copier.converter.GetCameraFile(paths[j]).Ok?
    ensures Attempted(copier, cancellationRequested, paths, i) == (k, Canceled)
    decreases k - i
  {
    if i < k {
      CancellationStops(copier, cancellationRequested, paths, i + 1, k);
    }
  }

  class CameraDirectoryCopier {
    /** The file system the finder searches. */
    const fileSystem: FileSystem
    const cameraFileCopier: FileCopier.CameraFileCopier
    /** Whether cancellation has been requested when file `i` is reached. */
    const cancellationRequested: nat -> bool

    constructor (fileSystem: FileSystem, cameraFileCopier: FileCopier.CameraFileCopier,
                 cancellationRequested: nat -> bool)
      ensures this.fileSystem == fileSystem && this.cameraFileCopier == cameraFileCopier
      ensures this.cancellationRequested == cancellationRequested
    {
      this.fileSystem := fileSystem;
      this.cameraFileCopier := cameraFileCopier;
      this.cancellationRequested := cancellationRequested;
    }

    /** `CopyCameraFiles`: a finder exception goes through before anything is
        copied; otherwise the found files are handed to the copier in order,
        each once, with the same root, until `Attempted` says the loop ends. */
    method CopyCameraFiles(sourceDirectory: string, destinationDirectoryRoot: string) returns (r: Outcome<()>)
      modifies cameraFileCopier, cameraFileCopier.fileSystem
      ensures var found := old(FilesFinder.FindCameraFiles(fileSystem, sourceDirectory));
        && (found.Throws? ==> r == Throws(found.exn) && cameraFileCopier.requests == old(cameraFileCopier.requests))
        && (found.Ok? ==>
              var (n, outcome) := Attempted(cameraFileCopier, cancellationRequested, found.value, 0);
              r == outcome
              && cameraFileCopier.requests == old(cameraFileCopier.requests) + Requests(found.value[..n], destinationDirectoryRoot))
    {
      var found := FilesFinder.FindCameraFiles(fileSystem, sourceDirectory);
      if found.Throws? {
        return Throws(found.exn);
      }
      r := CopyAll(cameraFileCopier, cancellationRequested, found.value, destinationDirectoryRoot);
    }
  }

  /** The `foreach` loop shared by both directory copiers. */
  method CopyAll(cameraFileCopier: FileCopier.CameraFileCopier, cancellationRequested: nat -> bool,
                 paths: seq<string>, destinationDirectoryRoot: string) returns (r: Outcome<()>)
    modifies cameraFileCopier, cameraFileCopier.fileSystem
    ensures var (n, outcome) := Attempted(cameraFileCopier, cancellationRequested, paths, 0);
      r == outcome
      && cameraFileCopier.requests == old(cameraFileCopier.requests) + Requests(paths[..n], destinationDirectoryRoot)
  {
    var i := 0;
    while i < |paths|
      invariant 0 <= i <= |paths|
      invariant Attempted(cameraFileCopier, cancellationRequested, paths, 0)
             == Attempted(cameraFileCopier, cancellationRequested, paths, i)
      invariant cameraFileCopier.requests == old(cameraFileCopier.requests) + Requests(paths[..i], destinationDirectoryRoot)
    {
      if cancellationRequested(i) {
        return Canceled;
      }
      var copied := cameraFileCopier.ExecuteCopyFile(paths[i], destinationDirectoryRoot);
      RequestsGrow(old(cameraFileCopier.requests), paths, i, destinationDirectoryRoot);
      if copied.Throws? {
        return copied;
      }
      i := i + 1;
    }
    assert paths[..i] == paths;
    return Ok(());
  }
}
