/** The file system the program works on, as abstract state: the
    directories and files that exist, what a recursive listing of each
    directory returns, where `System.IO` fails, and the log of files copied
    or moved. The operations are the ones the three generations call: the
    `System.IO` calls of the newest generation, which may throw, and the
    `IFileSystem` methods of the older ones, with the behaviour that
    interface documents. */
module FileSystems {
  import opened Wrappers

  /** How a file reaches its destination: `File.Copy` keeps the source,
      `File.Move` removes it. */
  datatype TransferMode = Copy | Move

  class FileSystem {
    var directories: set<string>
    var files: set<string>
    /** What a recursive `GetFiles` of each directory returns. */
    var listings: map<string, seq<string>>
    /** Directories whose listing throws, and what it throws. */
    var listingFailures: map<string, Exn>
    /** Paths where `System.IO` fails for a reason the rest of the state
        does not show, such as a disk error or denied access, and what it
        throws: creating such a directory, or copying or moving such a file. */
    var ioFailures: map<string, Exn>
    /** Every copy or move performed, oldest first. */
    var transfers: seq<(string, string)>

    constructor (directories: set<string>, files: set<string>, listings: map<string, seq<string>>,
                 listingFailures: map<string, Exn>, ioFailures: map<string, Exn>)
      ensures this.directories == directories && this.files == files
      ensures this.listings == listings && this.listingFailures == listingFailures
      ensures this.ioFailures == ioFailures && transfers == []
    {
      this.directories := directories;
      this.files := files;
      this.listings := listings;
      this.listingFailures := listingFailures;
      this.ioFailures := ioFailures;
      transfers := [];
    }

    predicate DirectoryExists(path: string)
      reads this
    {
      path in directories
    }

    predicate FileExists(path: string)
      reads this
    {
      path in files
    }

    /** `Exists`: a file or a directory. */
    predicate Exists(path: string)
      reads this
    {
      DirectoryExists(path) || FileExists(path)
    }

    /** The recursive listing of an existing directory. */
    function Listing(path: string): seq<string>
      reads this
    {
      if path in listings then listings[path] else []
    }

    /** `GetFiles` where it can fail: a missing directory throws
        `DirectoryNotFoundException`, and a directory that cannot be read
        throws what it throws. */
    function GetFiles(path: string): (r: Outcome<seq<string>>)
      reads this
      ensures r.Ok? <==> path !in listingFailures && DirectoryExists(path)
      ensures r.Ok? ==> r.value == Listing(path)
      ensures path !in listingFailures && !DirectoryExists(path) ==> r.exn.kind == DirectoryNotFoundException
    {
      if path in listingFailures then Throws(listingFailures[path])
      else if !DirectoryExists(path) then Raise(DirectoryNotFoundException, "Could not find a part of the path '" + path + "'.")
      else Ok(Listing(path))
    }

    /** What `Directory.CreateDirectory(path)` throws, if anything: the
        recorded failure, or `IOException` when a file sits at the path. */
    function CreateDirectoryError(path: string): (r: Option<Exn>)
      reads this
      ensures r.None? <==> path !in ioFailures && path !in files
      ensures path in ioFailures ==> r == Some(ioFailures[path])
      ensures path !in ioFailures && path in files ==> r.value.kind == IOException
    {
      if path in ioFailures then Some(ioFailures[path])
      else if path in files then Some(Exn(IOException, "The file '" + path + "' already exists.", None))
      else None
    }

    /** `Directory.CreateDirectory`: an existing directory is kept, a new
        one is added, and a failure changes nothing. */
    method CreateDirectory(path: string) returns (r: Outcome<()>)
      modifies this
      ensures old(CreateDirectoryError(path)).Some? ==>
                r == Throws(old(CreateDirectoryError(path)).value) && directories == old(directories)
      ensures old(CreateDirectoryError(path)).None? ==> r == Ok(()) && directories == old(directories) + {path}
      ensures files == old(files) && listings == old(listings) && listingFailures == old(listingFailures)
      ensures ioFailures == old(ioFailures) && transfers == old(transfers)
    {
      var error := CreateDirectoryError(path);
      if error.Some? {
        return Throws(error.value);
      }
      directories := directories + {path};
      return Ok(());
    }

    /** What `File.Copy` or `File.Move` of `source` to `destination` throws,
        if anything: the recorded failure of the source, `FileNotFoundException`
        for a missing source, or `IOException` when the destination file
        already exists (neither overwrites). */
    function TransferError(source: string, destination: string): (r: Option<Exn>)
      reads this
      ensures r.None? <==> source !in ioFailures && source in files && destination !in files
      ensures source in ioFailures ==> r == Some(ioFailures[source])
      ensures source !in ioFailures && source !in files ==> r.value.kind == FileNotFoundException
      ensures source !in ioFailures && source in files && destination in files ==> r.value.kind == IOException
    {
      if source in ioFailures then Some(ioFailures[source])
      else if source !in files then Some(Exn(FileNotFoundException, "Could not find file '" + source + "'.", None))
      else if destination in files then Some(Exn(IOException, "The file '" + destination + "' already exists.", None))
      else None
    }

    /** `File.Copy` or `File.Move` of `source` to `destination`. A failure
        changes nothing; otherwise the destination exists afterwards, a move
        leaves no source behind, and the transfer is logged. */
    method Transfer(source: string, destination: string, mode: TransferMode) returns (r: Outcome<()>)
      modifies this
      ensures old(TransferError(source, destination)).Some? ==>
                && r == Throws(old(TransferError(source, destination)).value)
                && files == old(files) && transfers == old(transfers)
      ensures old(TransferError(source, destination)).None? ==>
                && r == Ok(()) && destination in files
                && (mode == Copy ==> files == old(files) + {destination})
                && (mode == Move ==> files == old(files) - {source} + {destination})
                && transfers == old(transfers) + [(source, destination)]
      ensures directories == old(directories) && listings == old(listings) && listingFailures == old(listingFailures)
      ensures ioFailures == old(ioFailures)
    {
      var error := TransferError(source, destination);
      if error.Some? {
        return Throws(error.value);
      }
      Record(source, destination, mode);
      return Ok(());
    }

    /** The change a copy or move that succeeds makes: the destination is
        added, a move removes the source, and the transfer is logged. */
    method Record(source: string, destination: string, mode: TransferMode)
      modifies this
      ensures mode == Copy ==> files == old(files) + {destination}
      ensures mode == Move ==> files == old(files) - {source} + {destination}
      ensures transfers == old(transfers) + [(source, destination)]
      ensures directories == old(directories) && listings == old(listings) && listingFailures == old(listingFailures)
      ensures ioFailures == old(ioFailures)
    {
      match mode {
        case Copy => files := files + {destination};
        case Move => files := files - {source} + {destination};
      }
      transfers := transfers + [(source, destination)];
    }

    /** `CreateDirectoryIfNotExists(path, pretend)`: true if the directory
        was missing; it is created only when not pretending. */
    method CreateDirectoryIfNotExists(path: string, pretend: bool) returns (created: bool)
      modifies this
      ensures created <==> !old(DirectoryExists(path))
      ensures directories == if created && !pretend then old(directories) + {path} else old(directories)
      ensures files == old(files) && listings == old(listings) && listingFailures == old(listingFailures)
      ensures ioFailures == old(ioFailures) && transfers == old(transfers)
    {
      created := !DirectoryExists(path);
      if created && !pretend {
        directories := directories + {path};
      }
    }

    /** `CopyFileIfDoesNotExist(source, destination, pretend)`: true if the
        destination was free; the copy happens only when not pretending. */
    method CopyFileIfDoesNotExist(source: string, destination: string, pretend: bool) returns (copied: bool)
      modifies this
      ensures copied <==> !old(FileExists(destination))
      ensures copied && !pretend ==> files == old(files) + {destination} && transfers == old(transfers) + [(source, destination)]
      ensures !(copied && !pretend) ==> files == old(files) && transfers == old(transfers)
      ensures directories == old(directories) && listings == old(listings) && listingFailures == old(listingFailures)
      ensures ioFailures == old(ioFailures)
    {
      copied := !FileExists(destination);
      if copied && !pretend {
        Record(source, destination, Copy);
      }
    }

    /** `MoveFileIfDoesNotExist(source, destination, pretend)`: as the copy,
        and the source is gone afterwards. */
    method MoveFileIfDoesNotExist(source: string, destination: string, pretend: bool) returns (moved: bool)
      modifies this
      ensures moved <==> !old(FileExists(destination))
      ensures moved && !pretend ==> files == old(files) - {source} + {destination} && transfers == old(transfers) + [(source, destination)]
      ensures !(moved && !pretend) ==> files == old(files) && transfers == old(transfers)
      ensures directories == old(directories) && listings == old(listings) && listingFailures == old(listingFailures)
      ensures ioFailures == old(ioFailures)
    {
      moved := !FileExists(destination);
      if moved && !pretend {
        Record(source, destination, Move);
      }
    }
  }
}
