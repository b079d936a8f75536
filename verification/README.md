# pdf-math-localisator, modelled in Dafny

The program downloads a PDF, extracts it page by page with `pdftotext`, sends every page's text
to a chat-completion API for translation into a target language, and prints the translations
concatenated in page order. This project models the sequential logic inside that pipeline, all of
it in `src/main.rs`:

- `pdf_text.dfy`, module `PdfText`: `convert_pdf_page_to_text`. The subprocess is a parameter
  `run: int -> Option<ProcessOutput>` (`None` when it cannot be started). Its outcome is classified
  into the page text or an error: a failing exit status, or an empty output.
- `openai.dfy`, module `OpenAi`: `translate_text_openai`. It builds the two-message request (the
  fixed system instruction with the language written in, then the page text verbatim) and selects
  the first choice's content, or `""` when there is none. The HTTP round trip is a parameter
  `post: (apiKey, ChatRequest) -> Result<ChatResponse, TransportError>`.
- `pipeline.dfy`, module `Pipeline`: the body of `main`, with three parts.
  - The discovery loop is a method with a `while` loop. It probes pages 1, 2, 3, ... and queues one
    pending translation per page until the first page without text.
  - `join_all` is an order-preserving map over the queued tasks.
  - The `fold` that appends every successful translation is a method with a loop, proved against
    the specification function `ConcatOk`.
- `wrappers.dfy`, module `Wrappers`: `Option` and `Result`.

A pending translation (`Task`) is the triple of inputs it was created with. Rust futures do nothing
until they are awaited, so this loses nothing.

The loop as written counts pages in an `i8`: the type comes from `page: i8` in
`convert_pdf_page_to_text`. `DispatchLoopI8` models it as a debug build runs it. Every page number it hands to the
extractor lies in 1..127. When page 127 yields text, `counter += 1` overflows; this is modelled as
the exit `CounterOverflow`, the panic of a debug build. `DispatchLoop` is the same loop with an
unbounded counter. It reaches the true end of any document, and `Run` uses it (see Findings).
To terminate, it needs a ghost page number `end` at which extraction fails. A PDF has finitely
many pages, so such a page exists.

## Model

| member | source | states |
|---|---|---|
| `PdfText.FailureMessage` | src/main.rs:109-112 | the diagnostic is the fixed prefix followed by the subprocess's stderr text, which can be read back after the prefix |
| `PdfText.FailureMessageKeepsStderr` | src/main.rs:109-114 | two failing runs give the same diagnostic exactly when their stderr texts are equal |
| `PdfText.ClassifyOutput` | src/main.rs:108-123 | the result is `Ok` iff the status is success and stdout is non-empty. `Ok` carries stdout unchanged. A failing status gives `PdfParsingError` with the stderr diagnostic. Success with empty stdout gives `PdfParsingError` with "No text extracted" |
| `PdfText.RejectionsDistinguishable` | src/main.rs:108-120 | the diagnostic of a failing run never equals the empty-output diagnostic, whatever its stderr text |
| `PdfText.ConvertPageToText` | src/main.rs:96-124 | a page yields text iff its subprocess starts, exits with success and prints something. The text is that output. A subprocess that cannot be started is `SpawnFailed` |
| `OpenAi.LanguageRoundTrip` | src/main.rs:160-163 | the target language is read back exactly from the system instruction built for it |
| `OpenAi.InstructionOfLanguage` | src/main.rs:160-163 | every instruction that names a language is the one built for it, so the instruction determines the language and vice versa |
| `OpenAi.BuildRequest` | src/main.rs:160-178 | exactly two messages: role `system` first, then role `user`. The user content is the page text verbatim. The system content is the instruction naming the target language. The model is `gpt-3.5-turbo`, max tokens 2040, both penalties 0 |
| `OpenAi.RequestRoundTrip` | src/main.rs:165-172 | the page text and the language are read back exactly from the built request |
| `OpenAi.RequestDeterminedByParse` | src/main.rs:160-178 | any request with the fixed parameters that reads back as (text, language) is the request built from them |
| `OpenAi.SelectTranslation` | src/main.rs:190-193 | `""` when there are no choices, otherwise exactly the content of the first choice |
| `OpenAi.LaterChoicesIgnored` | src/main.rs:190-193 | choices after the first never change the selected text |
| `OpenAi.TranslateText` | src/main.rs:153-196 | fails exactly when the round trip for the built request fails, with that error. Otherwise it is the text selected from the reply; a reply without choices is an empty translation, not a failure |
| `Pipeline.EndIsFirstFailure` | src/main.rs:32-51 | the number of pages discovery sees is unique: the page before the first one without text |
| `Pipeline.DispatchIsDetermined` | src/main.rs:27-51 | two outcomes of discovery for the same document, credential and language are equal |
| `Pipeline.FirstPageFails` | src/main.rs:44-47 | if page 1 yields no text, nothing is queued |
| `Pipeline.DispatchLoop` | src/main.rs:27-51 | pages 1..k yield text and page k+1 does not, where k is the number of queued tasks. The i-th task (from 0) carries the text of page i+1 verbatim, with the credential and the language |
| `Pipeline.DispatchLoopI8` | src/main.rs:27-51 | the tasks are queued in page order, at most 127 of them. An end-of-document exit means pages 1..k yield text and page k+1 does not. The exit is an overflow iff 127 tasks were queued. The extractor is called for pages 1, 2, ... in order, each exactly once and each within 1..127 |
| `Pipeline.AsWrittenAgreesBelowBound` | src/main.rs:27-51 | on a document that ends before page 127, the 8-bit loop reaches the end of the document and queues exactly what the unbounded loop queues |
| `Pipeline.OverflowWhenPages1To127Found` | src/main.rs:27-51 | on any document whose pages 1..127 all yield text, the 8-bit loop ends in an overflow with 127 tasks queued |
| `Pipeline.OverflowOn127Pages` | src/main.rs:50 | on a document of exactly 127 pages, whose page 128 yields no text, the 8-bit loop overflows after queuing 127 tasks |
| `Pipeline.CorrectedOn127Pages` | src/main.rs:27-51 | on the same document, the unbounded loop queues all 127 pages |
| `Pipeline.JoinAll` | src/main.rs:58 | one result per task, and the i-th result is the translation of the i-th task, whatever order the requests complete in |
| `Pipeline.ConcatOkAppend` | src/main.rs:63-68 | the output of two runs of results put together is the two outputs put together |
| `Pipeline.ConcatOkCons` | src/main.rs:63-68 | read from the front, the output is the first result's text (if it succeeded), then the rest |
| `Pipeline.FailedTranslationSkipped` | src/main.rs:63-68 | a failed translation adds nothing at its position, and the results after it are still appended |
| `Pipeline.ConcatOkLength` | src/main.rs:63-68 | the output length is the sum of the lengths of the successful texts |
| `Pipeline.Combine` | src/main.rs:63-68 | the accumulated text is the in-order concatenation of the successful results, with no separator |
| `Pipeline.Run` | src/main.rs:27-70 | the queued tasks are exactly those of discovery. The printed text is the concatenation of their successful translations, in page order |
| `Pipeline.EmptyDocumentEmptyOutput` | src/main.rs:27-68 | if page 1 yields no text, nothing is queued and the output is the empty string |
| `Pipeline.ThreePageTasks` | src/main.rs:27-51 | a document whose pages 1..3 yield text and whose page 4 does not gives exactly three tasks, for pages 1, 2 and 3 in order |
| `Pipeline.ThreePageScenario` | src/main.rs:27-70 | on that document, with a translator that tags each text with its language, the output is the three tagged texts in page order, directly concatenated |
| `Pipeline.FrenchThreePageScenario` | src/main.rs:27-70 | for pages "Page 1 body", "Page 2 body", "Page 3 body" and the language "French", the output is exactly "[French] Page 1 body[French] Page 2 body[French] Page 3 body" |

## Left out

- The PDF download and the file writes (src/main.rs:73-83), and the removal of `file.pdf` (src/main.rs:53): file and network I/O.
- Starting `./pdftotext` and its arguments (src/main.rs:97-106): only the outcome per page number is modelled. Decoding the output with `from_utf8_lossy` (src/main.rs:111, 116) is also left out: stdout and stderr are given as text.
- The HTTP POST, its headers, and JSON encoding and decoding (src/main.rs:180-188): a network call through a foreign library. Every failure there is one `TransportError`.
- Concurrency: the tokio runtime and `join_all` (src/main.rs:18, 58). The join is a sequential, order-preserving map, because completion order does not change the result.
- Command-line parsing (src/main.rs:10-16, 21) and reading `OPENAI_KEY` (src/main.rs:20). The credential is a parameter. A missing variable aborts before any work, which the model does not represent.
- The unused `additional_prompts` argument (src/main.rs:15), and all `println!` progress output.
- The float parameters `temperature` and `top_p` (src/main.rs:136, 138, 173, 175): constant floats with no logic.
- Pipeline.DispatchLoopI8: models the overflow at `counter += 1` as the panic of a debug build. A release build wraps the counter to -128 and probes that page number. What `pdftotext` then does is outside the code, so this path is not modelled.
- Pipeline.DispatchLoop: needs a page at which extraction fails, so that the loop terminates. With an unbounded counter the loop would not end on a document in which every page yields text; the source's `i8` counter instead panics after page 127 (`DispatchLoopI8`).
- The HTTP round trip is a function of the credential and the request, so repeated identical requests are assumed to get identical replies, and identical success or failure. A real network call does not guarantee this. No stated property of the output relies on it: the lemmas about `ConcatOk` hold for arbitrary results.

## Findings

| source | as written | input that shows it | evidently intended | confidence | as-written member | corrected member |
|---|---|---|---|---|---|---|
| src/main.rs:27-50 | the page counter is an `i8` (fixed by `page: i8` at line 96), so `counter += 1` overflows after page 127 | a PDF with 127 or more pages | translate every page up to the document's end | not executed; follows from Rust's `i8` overflow rule | `Pipeline.OverflowOn127Pages` | `Pipeline.CorrectedOn127Pages` |
