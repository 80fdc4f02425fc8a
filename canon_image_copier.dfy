/** `CameraImageCopier` of the oldest generation: rejects a blank source or
    destination root, then names each found file and either copies it (real
    run) or only says what a copy would do (dry run). A dry run asks the file
    system whether the destination exists and changes nothing. */
module CanonImageCopier {
  import opened Wrappers
  import opened Text
  import opened Exif
  import opened AbstractCameraFile
  import opened FileSystems
  import CanonFileFinder
  import CanonNameConverter
  import FileCopier

  /** The converter the copier is given: a source path and a destination
      root to the destination directory and full destination name. The
      program gives it `CanonNameConverter.Convert` over its metadata reader
      and camera-file factory; see `CanonConverter`. */
  type NameConverter = (string, string) -> Outcome<(string, string)>

  function CanonConverter(extractTags: string -> Outcome<seq<Tag>>,
                          create: (string, seq<Tag>) -> Outcome<CameraFile>): NameConverter
  {
    (cameraFilePath, destinationRootPath) => CanonNameConverter.Convert(cameraFilePath, destinationRootPath, extractTags, create)
  }

  /** The dry-run line: the arrow when nothing exists at the destination,
      otherwise a "Skip" line, worded differently from a real run's. */
  function PretendLine(source: string, destination: string, destinationExists: bool): (r: string)
    ensures r == FileCopier.CopiedLine(source, destination) <==> !destinationExists
  {
    if !destinationExists then FileCopier.CopiedLine(source, destination)
    else
      assert |"Skip " + source + " (" + destination + " already exists)."| == |source| + |destination| + 24;
      "Skip " + source + " (" + destination + " already exists)."
  }

  /** A dry run announces the arrow exactly when the real run, on the same
      file system, would copy, unless a directory sits at the destination,
      which the dry run treats as taken and the real run does not. */
  lemma DryRunForetellsCopy(fileSystem: FileSystem, source: string, directory: string, destination: string)
    requires !fileSystem.DirectoryExists(destination)
    ensures var realLines := FileCopier.CopyLines(source, directory, destination,
                                             !fileSystem.DirectoryExists(directory), !fileSystem.FileExists(destination));
      (PretendLine(source, destination, fileSystem.Exists(destination)) == FileCopier.CopiedLine(source, destination))
      <==> (realLines[|realLines| - 1] == FileCopier.CopiedLine(source, destination))
  {
  }

  /** The loop from file `i` on: how many files have been handled when it
      ends, and how it ends. The first file whose name cannot be made ends
      the run with that exception. */
  function Attempted(convert: NameConverter, paths: seq<string>, destinationDirectoryRoot: string, i: nat)
    : (r: (nat, Outcome<()>))
    requires i <= |paths|
    ensures i <= r.0 <= |paths|
    ensures r.1.Ok? <==> r.0 == |paths| && r.1 == Ok(())
    ensures r.1.Throws? ==>
              && i < r.0
              && convert(paths[r.0 - 1], destinationDirectoryRoot) == Throws(r.1.exn)
              && forall j :: i <= j < r.0 - 1 ==>
                   convert(paths[j], destinationDirectoryRoot).Ok?
    ensures r.1.Ok? ==> forall j :: i <= j < |paths| ==>
              convert(paths[j], destinationDirectoryRoot).Ok?
    decreases |paths| - i
  {
    if i == |paths| then (i, Ok(()))
    else match convert(paths[i], destinationDirectoryRoot)
      case Throws(e) => (i + 1, Throws(e))
      case Ok(_) => Attempted(convert, paths, destinationDirectoryRoot, i + 1)
  }

  class CameraImageCopier {
    const fileSystem: FileSystem
    const cameraFileNameConverter: NameConverter
    /** What has been written to the console, line by line. */
    var lines: seq<string>
    /** Every file handed to `CopyFile`, oldest first. */
    ghost var handled: seq<string>

    constructor (fileSystem: FileSystem, cameraFileNameConverter: NameConverter)
      ensures this.fileSystem == fileSystem && this.cameraFileNameConverter == cameraFileNameConverter
      ensures lines == [] && handled == []
    {
      this.fileSystem := fileSystem;
      this.cameraFileNameConverter := cameraFileNameConverter;
      lines := [];
      handled := [];
    }

    /** `CopyFiles`: a blank source, then a blank destination root, throws
        `ArgumentException` before the search; a search that throws ends
        the run before any file; otherwise the found files are handled in
        order, each once, until `Attempted` says the run ends. A dry run
        leaves the file system as it was. */
    method CopyFiles(sourceDirectory: string, destinationDirectoryRoot: string, dryRun: bool) returns (r: Outcome<()>)
      modifies this, fileSystem
      ensures IsNullOrWhiteSpace(sourceDirectory) || IsNullOrWhiteSpace(destinationDirectoryRoot) ==>
                r.Throws? && r.exn.kind == ArgumentException && unchanged(this) && unchanged(fileSystem)
      ensures var found := old(CanonFileFinder.FindCameraFiles(fileSystem, sourceDirectory));
        !IsNullOrWhiteSpace(sourceDirectory) && !IsNullOrWhiteSpace(destinationDirectoryRoot) ==>
          && (found.Throws? ==> r == Throws(found.exn) && unchanged(this) && unchanged(fileSystem))
          && (found.Ok? ==>
                var (n, outcome) := Attempted(cameraFileNameConverter, found.value, destinationDirectoryRoot, 0);
                r == outcome && handled == old(handled) + found.value[..n])
      ensures dryRun ==> unchanged(fileSystem)
      ensures old(fileSystem.files) <= fileSystem.files && old(fileSystem.directories) <= fileSystem.directories
    {
      if IsNullOrWhiteSpace(sourceDirectory) {
        return Raise(ArgumentException, "Value cannot be null or whitespace. (Parameter 'sourceDirectory')");
      }
      if IsNullOrWhiteSpace(destinationDirectoryRoot) {
        return Raise(ArgumentException, "Value cannot be null or whitespace. (Parameter 'destinationDirectoryRoot')");
      }
      var found := CanonFileFinder.FindCameraFiles(fileSystem, sourceDirectory);
      if found.Throws? {
        return Throws(found.exn);
      }
      r := CopyAll(found.value, destinationDirectoryRoot, dryRun);
    }

    /** The `foreach` loop of `CopyFiles`. */
    method CopyAll(paths: seq<string>, destinationDirectoryRoot: string, dryRun: bool) returns (r: Outcome<()>)
      modifies this, fileSystem
      ensures var (n, outcome) := Attempted(cameraFileNameConverter, paths, destinationDirectoryRoot, 0);
        r == outcome && handled == old(handled) + paths[..n]
      ensures dryRun ==> unchanged(fileSystem)
      ensures old(fileSystem.files) <= fileSystem.files && old(fileSystem.directories) <= fileSystem.directories
    {
      var i := 0;
      while i < |paths|
        invariant 0 <= i <= |paths|
        invariant Attempted(cameraFileNameConverter, paths, destinationDirectoryRoot, 0)
               == Attempted(cameraFileNameConverter, paths, destinationDirectoryRoot, i)
        invariant handled == old(handled) + paths[..i]
        invariant dryRun ==> unchanged(fileSystem)
        invariant old(fileSystem.files) <= fileSystem.files && old(fileSystem.directories) <= fileSystem.directories
      {
        assert paths[..i + 1] == paths[..i] + [paths[i]];
        var copied := CopyFile(paths[i], destinationDirectoryRoot, dryRun);
        if copied.Throws? {
          assert Attempted(cameraFileNameConverter, paths, destinationDirectoryRoot, i) == (i + 1, copied);
          return copied;
        }
        i := i + 1;
      }
      assert paths[..i] == paths;
      return Ok(());
    }

    /** `CopyFile`: the conversion first, and if it throws nothing else
        happens; then a real copy or a pretended one. */
    method CopyFile(cameraFilePath: string, destinationDirectoryRoot: string, dryRun: bool) returns (r: Outcome<()>)
      modifies this, fileSystem
      ensures handled == old(handled) + [cameraFilePath]
      ensures var converted := cameraFileNameConverter(cameraFilePath, destinationDirectoryRoot);
        && (converted.Throws? ==> r == Throws(converted.exn) && lines == old(lines) && unchanged(fileSystem))
        && (converted.Ok? && dryRun ==>
              var (_, destination) := converted.value;
              r == Ok(())
              && lines == old(lines) + [PretendLine(cameraFilePath, destination, old(fileSystem.Exists(destination)))]
              && unchanged(fileSystem))
        && (converted.Ok? && !dryRun ==>
              var (directory, destination) := converted.value;
              var directoryMissing := !old(fileSystem.DirectoryExists(directory));
              var destinationFree := !old(fileSystem.FileExists(destination));
              && r == Ok(())
              && lines == old(lines) + FileCopier.CopyLines(cameraFilePath, directory, destination, directoryMissing, destinationFree)
              && fileSystem.directories == (if directoryMissing then old(fileSystem.directories) + {directory} else old(fileSystem.directories))
              && fileSystem.files == (if destinationFree then old(fileSystem.files) + {destination} else old(fileSystem.files))
              && fileSystem.transfers
                 == old(fileSystem.transfers) + (if destinationFree then [(cameraFilePath, destination)] else []))
      ensures old(fileSystem.files) <= fileSystem.files && old(fileSystem.directories) <= fileSystem.directories
      ensures fileSystem.listings == old(fileSystem.listings) && fileSystem.listingFailures == old(fileSystem.listingFailures)
    {
      handled := handled + [cameraFilePath];
      var converted := cameraFileNameConverter(cameraFilePath, destinationDirectoryRoot);
      if converted.Throws? {
        return Throws(converted.exn);
      }
      var (destinationDirectory, destinationFileFullName) := converted.value;
      if !dryRun {
        ExecuteCopyFile(cameraFilePath, destinationDirectory, destinationFileFullName);
      } else {
        PretendCopyFile(cameraFilePath, destinationFileFullName);
      }
      return Ok(());
    }

    /** `ExecuteCopyFile`: create the directory if missing, then copy if the
        destination is free, writing a line for each. */
    method ExecuteCopyFile(cameraFilePath: string, destinationPath: string, destinationFileFullName: string)
      modifies this, fileSystem
      ensures handled == old(handled)
      ensures var directoryMissing := !old(fileSystem.DirectoryExists(destinationPath));
              var destinationFree := !old(fileSystem.FileExists(destinationFileFullName));
        && lines == old(lines) + FileCopier.CopyLines(cameraFilePath, destinationPath, destinationFileFullName,
                                                      directoryMissing, destinationFree)
        && fileSystem.directories == (if directoryMissing then old(fileSystem.directories) + {destinationPath} else old(fileSystem.directories))
        && fileSystem.files == (if destinationFree then old(fileSystem.files) + {destinationFileFullName} else old(fileSystem.files))
        && fileSystem.transfers
           == old(fileSystem.transfers) + (if destinationFree then [(cameraFilePath, destinationFileFullName)] else [])
      ensures fileSystem.listings == old(fileSystem.listings) && fileSystem.listingFailures == old(fileSystem.listingFailures)
    {
      var created := fileSystem.CreateDirectoryIfNotExists(destinationPath, false);
      var createdLines := if created then [FileCopier.CreatedLine(destinationPath)] else [];
      var copied := fileSystem.CopyFileIfDoesNotExist(cameraFilePath, destinationFileFullName, false);
      lines := lines + (createdLines
               + [if copied then FileCopier.CopiedLine(cameraFilePath, destinationFileFullName)
                  else FileCopier.SkippedLine(cameraFilePath, destinationFileFullName)]);
    }

    /** `PretendCopyFile`: one line, from `Exists` alone. */
    method PretendCopyFile(cameraFilePath: string, destinationFileFullName: string)
      modifies this
      ensures handled == old(handled)
      ensures lines == old(lines) + [PretendLine(cameraFilePath, destinationFileFullName, fileSystem.Exists(destinationFileFullName))]
    {
      lines := lines + [PretendLine(cameraFilePath, destinationFileFullName, fileSystem.Exists(destinationFileFullName))];
    }
  }
}
