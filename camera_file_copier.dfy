/** `CameraFileCopier` of the middle generation: names the destination of one
    camera file, creates its directory when missing and copies the file
    unless the destination exists, writing one console line for each. The
    `pretend` flag goes unchanged to both file-system calls; the
    `removeFromSource` flag is stored but never read, so files are always
    copied, never moved. */
module FileCopier {
  import opened Wrappers
  import opened Text
  import opened FileSystems
  import NameConverter

  function CreatedLine(directory: string): string
  {
    "Created " + directory
  }

  function CopiedLine(source: string, destination: string): string
  {
    source + " -> " + destination
  }

  function SkippedLine(source: string, destination: string): string
  {
    "Skipped " + source + " (" + destination + " already exists)."
  }

  /** The lines written for one file, given whether its directory was
      missing and whether its destination was free: the created line
      exactly when the directory was missing, then exactly one of the
      copied and skipped lines. */
  function CopyLines(source: string, directory: string, destination: string,
                     directoryMissing: bool, destinationFree: bool): (r: seq<string>)
    ensures |r| == if directoryMissing then 2 else 1
    ensures directoryMissing ==> r[0] == CreatedLine(directory)
    ensures r[|r| - 1] == CopiedLine(source, destination) <==> destinationFree
    ensures r[|r| - 1] == SkippedLine(source, destination) <==> !destinationFree
  {
    CopiedIsNotSkipped(source, destination);
    (if directoryMissing then [CreatedLine(directory)] else [])
    + [if destinationFree then CopiedLine(source, destination) else SkippedLine(source, destination)]
  }

  /** The copied and skipped lines of one file never coincide. */
  lemma CopiedIsNotSkipped(source: string, destination: string)
    ensures CopiedLine(source, destination) != SkippedLine(source, destination)
  {
    assert |CopiedLine(source, destination)| == |source| + |destination| + 4;
    assert |SkippedLine(source, destination)| == |source| + |destination| + 27;
  }

  class CameraFileCopier {
    const converter: NameConverter.CameraFileNameConverter
    const fileSystem: FileSystem
    const pretend: bool
    /** Stored, never read. */
    const removeFromSource: bool
    /** What has been written to the console, line by line. */
    var lines: seq<string>
    /** Every `ExecuteCopyFile` request, oldest first. */
    ghost var requests: seq<(string, string)>

    constructor (converter: NameConverter.CameraFileNameConverter, fileSystem: FileSystem,
                 pretend: bool, removeFromSource: bool)
      ensures this.converter == converter && this.fileSystem == fileSystem
      ensures this.pretend == pretend && this.removeFromSource == removeFromSource
      ensures lines == [] && requests == []
    {
      this.converter := converter;
      this.fileSystem := fileSystem;
      this.pretend := pretend;
      this.removeFromSource := removeFromSource;
      lines := [];
      requests := [];
    }

    /** `ExecuteCopyFile`. The conversion comes first: if it throws, nothing
        else happens. Otherwise the directory is created when missing, unless
        pretending; the file is copied when its destination is free, unless
        pretending; the lines are `CopyLines`; and no file ever disappears. */
    method ExecuteCopyFile(cameraFilePath: string, destinationDirectoryRoot: string) returns (r: Outcome<()>)
      modifies this, fileSystem
      ensures requests == old(requests) + [(cameraFilePath, destinationDirectoryRoot)]
      ensures var converted := converter.Convert(cameraFilePath, destinationDirectoryRoot);
        && (converted.Throws? ==> r == Throws(converted.exn) && lines == old(lines) && unchanged(fileSystem))
        && (converted.Ok? ==>
              var (directory, destination) := converted.value;
              var directoryMissing := !old(fileSystem.DirectoryExists(directory));
              var destinationFree := !old(fileSystem.FileExists(destination));
              && r == Ok(())
              && lines == old(lines) + CopyLines(cameraFilePath, directory, destination, directoryMissing, destinationFree)
              && fileSystem.directories
                 == (if directoryMissing && !pretend then old(fileSystem.directories) + {directory} else old(fileSystem.directories))
              && fileSystem.files
                 == (if destinationFree && !pretend then old(fileSystem.files) + {destination} else old(fileSystem.files))
              && fileSystem.transfers
                 == old(fileSystem.transfers) + (if destinationFree && !pretend then [(cameraFilePath, destination)] else []))
      ensures old(fileSystem.files) <= fileSystem.files
      ensures fileSystem.listings == old(fileSystem.listings) && fileSystem.listingFailures == old(fileSystem.listingFailures)
    {
      requests := requests + [(cameraFilePath, destinationDirectoryRoot)];
      var converted := converter.Convert(cameraFilePath, destinationDirectoryRoot);
      if converted.Throws? {
        return Throws(converted.exn);
      }
      var (destinationPath, destinationFileFullName) := converted.value;
      CopyTo(cameraFilePath, destinationPath, destinationFileFullName);
      return Ok(());
    }

    /** The steps after the conversion: create the directory if missing,
        then copy if the destination is free, writing a line for each. */
    method CopyTo(cameraFilePath: string, destinationPath: string, destinationFileFullName: string)
      modifies this, fileSystem
      ensures requests == old(requests)
      ensures var directoryMissing := !old(fileSystem.DirectoryExists(destinationPath));
              var destinationFree := !old(fileSystem.FileExists(destinationFileFullName));
        && lines == old(lines) + CopyLines(cameraFilePath, destinationPath, destinationFileFullName, directoryMissing, destinationFree)
        && fileSystem.directories
           == (if directoryMissing && !pretend then old(fileSystem.directories) + {destinationPath} else old(fileSystem.directories))
        && fileSystem.files
           == (if destinationFree && !pretend then old(fileSystem.files) + {destinationFileFullName} else old(fileSystem.files))
        && fileSystem.transfers
           == old(fileSystem.transfers) + (if destinationFree && !pretend then [(cameraFilePath, destinationFileFullName)] else [])
      ensures fileSystem.listings == old(fileSystem.listings) && fileSystem.listingFailures == old(fileSystem.listingFailures)
    {
      var created := fileSystem.CreateDirectoryIfNotExists(destinationPath, pretend);
      var createdLines := if created then [CreatedLine(destinationPath)] else [];
      var copied := fileSystem.CopyFileIfDoesNotExist(cameraFilePath, destinationFileFullName, pretend);
      lines := lines + (createdLines
               + [if copied then CopiedLine(cameraFilePath, destinationFileFullName)
                  else SkippedLine(cameraFilePath, destinationFileFullName)]);
    }
  }
}
