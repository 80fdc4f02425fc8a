/** Value types standing in for the .NET machinery the program relies on:
    `null`-free optional values, the `Result` type of CSharpFunctionalExtensions
    (a failure carries a message string), and exceptions, which the model turns
    into an explicit `Outcome` that is either a returned value or a thrown
    exception. */
module Wrappers {

  datatype Option<+T> = None | Some(value: T)

  /** CSharpFunctionalExtensions' `Result<T>`: a value, or an error message. */
  datatype Result<+T> = Success(value: T) | Failure(error: string)

  /** The exception types the program throws, catches or lets through. */
  datatype ExnKind =
    | ArgumentException             // guard clauses, Dictionary.Add of a duplicate key
    | ArgumentOutOfRangeException   // DateTime.AddMilliseconds out of the DateTime range
    | InvalidOperationException     // Enumerable.First that finds nothing
    | FormatException               // DateTime.ParseExact, int.Parse
    | OverflowException             // int.Parse of a number outside the 32-bit range
    | InvalidPathException          // camera file factory: unknown file type
    | InvalidMetadataException
    | InvalidFileException
    | PathNotFoundException
    | DirectoryNotFoundException
    | FileNotFoundException         // File.Copy or File.Move of a missing source
    | IOException                   // System.IO: an existing destination, or any other I/O error
    | UnauthorizedAccessException   // System.IO: access denied
    | OperationCanceledException    // CancellationToken.ThrowIfCancellationRequested
    | OtherException                // anything else a collaborator may throw

  /** An exception object: its type, its `Message` and its `InnerException`. */
  datatype Exn = Exn(kind: ExnKind, message: string, inner: Option<Exn>)

  /** What a call does: returns a value, or throws. */
  datatype Outcome<+T> = Ok(value: T) | Throws(exn: Exn)

  function Raise<T>(kind: ExnKind, message: string): Outcome<T>
  {
    Throws(Exn(kind, message, None))
  }
}
