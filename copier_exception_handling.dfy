/** `ExceptionHandlingCameraFileCopierDecorator` of the middle generation:
    the decorated copier is called once, and with continue-on-error set an
    invalid-metadata or invalid-file exception from it is swallowed; every
    other exception, and every exception without the flag, goes through. */
module CopierExceptionHandling {
  import opened Wrappers

  /** The exceptions continue-on-error swallows. */
  predicate Swallowable(exn: Exn)
  {
    exn.kind == InvalidMetadataException || exn.kind == InvalidFileException
  }

  /** `ExecuteCopyFile` over what the decorated copier did. */
  function ExecuteCopyFile(continueOnError: bool, decorated: Outcome<()>): (r: Outcome<()>)
    ensures decorated.Ok? ==> r == Ok(())
    ensures decorated.Throws? ==> (r.Ok? <==> continueOnError && Swallowable(decorated.exn))
    ensures r.Throws? ==> r == decorated
  {
    match decorated
    case Ok(_) => Ok(())
    case Throws(e) => if continueOnError && Swallowable(e) then Ok(()) else Throws(e)
  }
}
