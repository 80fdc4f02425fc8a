/** `CameraFileTransferer`: names the destination of one camera file, creates
    the destination directory when it is missing, and transfers the file
    unless it is already there. A dry run decides and announces the same
    things but changes nothing. */
module Transferer {
  import opened Wrappers
  import opened Text
  import opened FileSystems
  import opened TransferNameConverter

  /** The three events a transfer raises. */
  datatype Event =
    | DirectoryCreated(directory: string)
    | FileSkipped(source: string, destination: string)
    | FileTransferred(source: string, destination: string, dryRun: bool)

  /** The events one transfer raises, given what existed beforehand: the
      directory-created event when the directory was missing and this is not
      a dry run, then exactly one of skipped and transferred. */
  function Events(args: Args, directory: string, destination: string,
                  directoryExists: bool, destinationExists: bool): (r: seq<Event>)
    ensures 1 <= |r| <= 2
    ensures DirectoryCreated(directory) in r <==> !directoryExists && !args.dryRun
    ensures forall e :: e in r && e.DirectoryCreated? ==> e == DirectoryCreated(directory)
    ensures FileSkipped(args.cameraFilePath, destination) in r <==> destinationExists
    ensures FileTransferred(args.cameraFilePath, destination, args.dryRun) in r <==> !destinationExists
    ensures |r| == 2 ==> r[0].DirectoryCreated?
    ensures r[|r| - 1].FileSkipped? != r[|r| - 1].FileTransferred?
  {
    (if !directoryExists && !args.dryRun then [DirectoryCreated(directory)] else [])
    + (if destinationExists then [FileSkipped(args.cameraFilePath, destination)]
       else [FileTransferred(args.cameraFilePath, destination, args.dryRun)])
  }

  class CameraFileTransferer {
    /** `CameraFileNameConverter.Convert`, taken as yielding the
        `(directory, name)` pair the transferer deconstructs, or throwing. */
    const convert: Args -> Outcome<(string, string)>
    const fileSystem: FileSystem
    /** The injected `TransferFiles` delegate: `File.Copy` for the copy
        command, `File.Move` for the move command. */
    const mode: TransferMode
    /** The events raised so far, oldest first. */
    var events: seq<Event>

    constructor (convert: Args -> Outcome<(string, string)>, fileSystem: FileSystem, mode: TransferMode)
      ensures this.convert == convert && this.fileSystem == fileSystem && this.mode == mode && events == []
    {
      this.convert := convert;
      this.fileSystem := fileSystem;
      this.mode := mode;
      events := [];
    }

    /** `TransferFile`. If the conversion throws, nothing happens. Otherwise
        the directory is created exactly when it is missing and this is not a
        dry run; the file is copied or moved exactly when its destination
        is free and this is not a dry run; and the events are `Events`.
        A failing `Directory.CreateDirectory` throws before any event; a
        failing copy or move throws after the directory-created event, if
        there was one, and leaves the files as they were. */
    method TransferFile(args: Args) returns (r: Outcome<()>)
      modifies this, fileSystem
      ensures convert(args).Throws? ==> r == Throws(convert(args).exn)
      ensures convert(args).Throws? ==> events == old(events) && unchanged(fileSystem)
      ensures convert(args).Ok? ==>
        var (directory, name) := convert(args).value;
        var destination := Combine(directory, name);
        var create := !old(fileSystem.DirectoryExists(directory)) && !args.dryRun;
        var createError := if create then old(fileSystem.CreateDirectoryError(directory)) else None;
        var transfer := createError.None? && !old(fileSystem.FileExists(destination)) && !args.dryRun;
        var transferError := if transfer then old(fileSystem.TransferError(args.cameraFilePath, destination)) else None;
        && r == (if createError.Some? then Throws(createError.value)
                 else if transferError.Some? then Throws(transferError.value)
                 else Ok(()))
        && events == old(events) + (if createError.Some? then []
                                    else if transferError.Some? then (if create then [DirectoryCreated(directory)] else [])
                                    else Events(args, directory, destination,
                                                old(fileSystem.DirectoryExists(directory)),
                                                old(fileSystem.FileExists(destination))))
        && fileSystem.directories
           == (if create && createError.None? then old(fileSystem.directories) + {directory} else old(fileSystem.directories))
        && fileSystem.files
           == (if !transfer || transferError.Some? then old(fileSystem.files)
               else if mode == Move then old(fileSystem.files) - {args.cameraFilePath} + {destination}
               else old(fileSystem.files) + {destination})
        && fileSystem.transfers
           == old(fileSystem.transfers) + (if transfer && transferError.None? then [(args.cameraFilePath, destination)] else [])
      ensures fileSystem.listings == old(fileSystem.listings) && fileSystem.listingFailures == old(fileSystem.listingFailures)
      ensures fileSystem.ioFailures == old(fileSystem.ioFailures)
      ensures args.dryRun ==> unchanged(fileSystem)
    {
      var converted := convert(args);
      if converted.Throws? {
        return Throws(converted.exn);
      }
      var (directory, name) := converted.value;
      var directoryExisted := fileSystem.DirectoryExists(directory);
      if !directoryExisted && !args.dryRun {
        var created := fileSystem.CreateDirectory(directory);
        if created.Throws? {
          return Throws(created.exn);
        }
        events := events + [DirectoryCreated(directory)];
      }
      var destination := Combine(directory, name);
      var destinationAlreadyExists := fileSystem.FileExists(destination);
      if destinationAlreadyExists {
        events := events + [FileSkipped(args.cameraFilePath, destination)];
        return Ok(());
      }
      if !args.dryRun {
        var transferred := fileSystem.Transfer(args.cameraFilePath, destination, mode);
        if transferred.Throws? {
          return Throws(transferred.exn);
        }
      }
      events := events + [FileTransferred(args.cameraFilePath, destination, args.dryRun)];
      return Ok(());
    }
  }
}
