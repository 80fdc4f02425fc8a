/** `ExceptionHandlingCameraFileFactoryDecorator`: turns the exceptions that
    mean "bad metadata" into `InvalidMetadataException`, keeping the original
    as the inner exception. */
module FactoryExceptionHandling {
  import opened Wrappers
  import opened Exif
  import opened AbstractCameraFile

  /** The `catch` clauses applied to what the decorated factory did. */
  function Translate(filePath: string, outcome: Outcome<CameraFile>): (r: Outcome<CameraFile>)
    ensures outcome.Ok? ==> r == outcome
    ensures outcome.Throws? && outcome.exn.kind == InvalidOperationException ==>
              r == Throws(Exn(InvalidMetadataException, "Failed to find necessary metadata in " + filePath, Some(outcome.exn)))
    ensures outcome.Throws? && outcome.exn.kind == FormatException ==>
              r == Throws(Exn(InvalidMetadataException, "Failed to parse metadata for " + filePath, Some(outcome.exn)))
    ensures outcome.Throws? && outcome.exn.kind !in {InvalidOperationException, FormatException} ==> r == outcome
  {
    match outcome
    case Ok(_) => outcome
    case Throws(e) =>
      if e.kind == InvalidOperationException then
        Throws(Exn(InvalidMetadataException, "Failed to find necessary metadata in " + filePath, Some(e)))
      else if e.kind == FormatException then
        Throws(Exn(InvalidMetadataException, "Failed to parse metadata for " + filePath, Some(e)))
      else outcome
  }

  /** `Create`: call the decorated factory and translate what it throws. */
  function Create(decorated: (string, seq<Tag>) -> Outcome<CameraFile>, filePath: string, metadata: seq<Tag>): (r: Outcome<CameraFile>)
    ensures r.Ok? <==> decorated(filePath, metadata).Ok?
    ensures r.Ok? ==> r == decorated(filePath, metadata)
    ensures r.Throws? ==> r.exn.kind !in {InvalidOperationException, FormatException}
    ensures r.Throws? && r.exn.kind != decorated(filePath, metadata).exn.kind ==>
              r.exn.kind == InvalidMetadataException && r.exn.inner == Some(decorated(filePath, metadata).exn)
  {
    Translate(filePath, decorated(filePath, metadata))
  }

  /** Decorating twice is decorating once: nothing the decorator throws is
      caught by it again. */
  lemma TranslateIdempotent(filePath: string, outcome: Outcome<CameraFile>)
    ensures Translate(filePath, Translate(filePath, outcome)) == Translate(filePath, outcome)
  {
  }
}
