/** `CopyingOrchestrator` of the middle generation: the same loop as
    `CameraDirectoryCopier`, over any source path: the found files go to the
    file copier in order, each once, with the destination root unchanged,
    cancellation is checked before each, and any exception ends the run. */
module CopyingOrchestrator {
  import opened Wrappers
  import opened FileSystems
  import FilesFinder
  import FileCopier
  import DirectoryCopier

  class CopyingOrchestrator {
    /** The file system the finder searches. */
    const fileSystem: FileSystem
    const cameraFileCopier: FileCopier.CameraFileCopier
    /** Whether cancellation has been requested when file `i` is reached. */
    const cancellationRequested: nat -> bool

    constructor (fileSystem: FileSystem, cameraFileCopier: FileCopier.CameraFileCopier,
                 cancellationRequested: nat -> bool)
      ensures this.fileSystem == fileSystem && this.cameraFileCopier == cameraFileCopier
      ensures this.cancellationRequested == cancellationRequested
    {
      this.fileSystem := fileSystem;
      this.cameraFileCopier := cameraFileCopier;
      this.cancellationRequested := cancellationRequested;
    }

    /** `CopyCameraFiles`: a finder exception goes through before anything is
        copied; otherwise the loop hands the found files over as
        `DirectoryCopier.Attempted` says. */
    method CopyCameraFiles(sourcePath: string, destinationDirectoryRoot: string) returns (r: Outcome<()>)
      modifies cameraFileCopier, cameraFileCopier.fileSystem
      ensures var found := old(FilesFinder.FindCameraFiles(fileSystem, sourcePath));
        && (found.Throws? ==> r == Throws(found.exn) && cameraFileCopier.requests == old(cameraFileCopier.requests))
        && (found.Ok? ==>
              var (n, outcome) := DirectoryCopier.Attempted(cameraFileCopier, cancellationRequested, found.value, 0);
              r == outcome
              && cameraFileCopier.requests
                 == old(cameraFileCopier.requests) + DirectoryCopier.Requests(found.value[..n], destinationDirectoryRoot))
    {
      var found := FilesFinder.FindCameraFiles(fileSystem, sourcePath);
      if found.Throws? {
        return Throws(found.exn);
      }
      r := DirectoryCopier.CopyAll(cameraFileCopier, cancellationRequested, found.value, destinationDirectoryRoot);
    }
  }
}
