/** The page extractor: one `pdftotext -layout -f n -l n file.pdf -` run per probed page,
    and the classification of its outcome into the page text or an error. The subprocess
    itself is a parameter; only its exit status and decoded output streams are seen here. */
module PdfText {
  import opened Wrappers

  /** What a finished `pdftotext` run hands back: whether the exit status was success,
      and its standard output and standard error, already decoded to text. */
  datatype ProcessOutput = ProcessOutput(success: bool, stdout: string, stderr: string)

  /** Why a page yielded no text: the subprocess could not be started at all, or it ran
      and its outcome was rejected, with a diagnostic message. */
  datatype ExtractError =
    | SpawnFailed
    | PdfParsingError(message: string)

  const FailurePrefix: string := "pdftotext command failed with error: "
  /** The diagnostic when the run succeeded but printed nothing. */
  const NoTextMessage: string := "No text extracted"

  /** The diagnostic attached to a failing run. */
  function FailureMessage(stderr: string): (m: string)
    ensures |m| == |FailurePrefix| + |stderr|
    ensures m[..|FailurePrefix|] == FailurePrefix && m[|FailurePrefix|..] == stderr
  {
    FailurePrefix + stderr
  }

  /** Decide between the page text and an error from a finished run: a failing
      status is an error whatever the output, an empty output is an error, and
      otherwise the whole output, unchanged, is the page text. */
  function ClassifyOutput(out: ProcessOutput): (r: Result<string, ExtractError>)
    ensures r.Ok? <==> out.success && out.stdout != []
    ensures r.Ok? ==> r.value == out.stdout && |r.value| > 0
    ensures !out.success ==> r == Err(PdfParsingError(FailureMessage(out.stderr)))
    ensures out.success && out.stdout == [] ==> r == Err(PdfParsingError(NoTextMessage))
  {
    if !out.success then
      Err(PdfParsingError(FailureMessage(out.stderr)))
    else if |out.stdout| == 0 then
      Err(PdfParsingError(NoTextMessage))
    else
      Ok(out.stdout)
  }

  /** The text of page `page`, where `run(page)` is the outcome of starting the
      subprocess for that page (`None` when it could not be started). */
  function ConvertPageToText(run: int -> Option<ProcessOutput>, page: int): (r: Result<string, ExtractError>)
    ensures r.Ok? <==> run(page).Some? && run(page).value.success && run(page).value.stdout != []
    ensures r.Ok? ==> r.value == run(page).value.stdout
    ensures run(page).None? ==> r == Err(SpawnFailed)
  {
    match run(page)
    case None => Err(SpawnFailed)
    case Some(out) => ClassifyOutput(out)
  }

  /** A run's error message keeps the subprocess's stderr text recoverable after the fixed prefix. */
  lemma FailureMessageKeepsStderr(e1: string, e2: string)
    ensures FailureMessage(e1) == FailureMessage(e2) <==> e1 == e2
  {
    if FailureMessage(e1) == FailureMessage(e2) {
      assert e1 == FailureMessage(e1)[|FailurePrefix|..];
    }
  }

  /** The two rejections stay apart: a failing run's diagnostic never reads as the
      empty-output one, whatever its stderr text. */
  lemma RejectionsDistinguishable(stderr: string)
    ensures FailureMessage(stderr) != NoTextMessage
  {
    assert FailureMessage(stderr)[0] == 'p' != NoTextMessage[0];
  }
}
