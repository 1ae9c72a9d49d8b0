/** The per-task protocol of `process_single_pdf`: copy the upload into a
    fresh temporary file, run the extractor on its path, and delete the file
    on the way out whether the extractor returned or raised.

    The filesystem is an oracle: the model is told whether the write and the
    unlink succeeded, and tracks only whether the temporary file exists. */
module TempFile {
  import opened Wrappers

  /** What opening the temporary file and copying the upload's bytes into
      it did: both worked, opening raised (no file was made), or the write
      raised after the file was made. */
  datatype WriteOutcome = Wrote | CreateFailed(message: string) | WriteFailed(message: string)

  /** What `os.unlink` does with the temporary path. `NotFound` is
      `FileNotFoundError`, `PermissionDenied` is `PermissionError`;
      `UnlinkFailed` is any other `OSError`. */
  datatype UnlinkOutcome = Unlinked | NotFound | PermissionDenied | UnlinkFailed(message: string)

  datatype TempState = Absent | Present

  /** How one task ends: what it hands back to the pool, whether the
      extractor was called, whether deletion was attempted, and whether the
      temporary file is still on disk afterwards. */
  datatype Run<R> = Run(outcome: Completion<R>, extracted: bool, unlinkTried: bool, temp: TempState)

  /** The `with NamedTemporaryFile(delete=False)` block: the file exists from
      the moment it is opened, and stays when the write raises; when opening
      raises there is no file. */
  function Materialize(write: WriteOutcome): (r: (Completion<()>, TempState))
    ensures r.1 == Present <==> !write.CreateFailed?
    ensures r.0.Raised? <==> !write.Wrote?
    ensures r.0.Raised? ==> r.0.message == write.message
  {
    match write
    case Wrote => (Returned(()), Present)
    case CreateFailed(m) => (Raised(m), Absent)
    case WriteFailed(m) => (Raised(m), Present)
  }

  /** The inner `try: os.unlink(...) except (PermissionError, FileNotFoundError): pass`:
      the only errors it lets through are the other `OSError`s. */
  function Cleanup(unlink: UnlinkOutcome): (r: (Completion<()>, TempState))
    ensures r.0.Raised? <==> unlink.UnlinkFailed?
    ensures r.1 == Absent <==> unlink.Unlinked? || unlink.NotFound?
  {
    match unlink
    case Unlinked => (Returned(()), Absent)
    case NotFound => (Returned(()), Absent)
    case PermissionDenied => (Returned(()), Present)
    case UnlinkFailed(m) => (Raised(m), Present)
  }

  /** Python's `try: ... finally: ...`: an exception raised by the `finally`
      block replaces whatever the `try` block returned or raised. */
  function Finally<R>(body: Completion<R>, cleanup: Completion<()>): (r: Completion<R>)
    ensures cleanup.Returned? ==> r == body
    ensures cleanup.Raised? ==> r == Raised(cleanup.message)
  {
    match cleanup
    case Returned(_) => body
    case Raised(m) => Raised(m)
  }

  /** `process_single_pdf(pdf_file, extract)`, where `extract` is what the
      extraction function does when called on the temporary path. */
  function ProcessSinglePdf<R>(write: WriteOutcome, extract: Completion<R>, unlink: UnlinkOutcome): (run: Run<R>)
    // the extractor runs, and deletion is attempted, exactly when the file was written
    ensures run.extracted <==> write.Wrote?
    ensures run.unlinkTried <==> run.extracted
    // the extractor's value or exception passes through unless deletion raised something unexpected
    ensures write.Wrote? && !unlink.UnlinkFailed? ==> run.outcome == extract
    ensures write.Wrote? && unlink.UnlinkFailed? ==> run.outcome == Raised(unlink.message)
    ensures !write.Wrote? ==> run.outcome == Raised(write.message)
    // the file is gone afterwards exactly when it was never made, or was written and then removed or found missing
    ensures run.temp == Absent <==>
      write.CreateFailed? || (write.Wrote? && (unlink.Unlinked? || unlink.NotFound?))
  {
    var made := Materialize(write);
    if made.0.Raised? then
      Run(Raised(made.0.message), false, false, made.1)
    else
      var cleaned := Cleanup(unlink);
      Run(Finally(extract, cleaned.0), true, true, cleaned.1)
  }
}
