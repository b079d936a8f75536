/** The body of `main`: probe pages 1, 2, 3, ... until the first one that yields no
    text, queue one pending translation per page found, wait for all of them in
    queue order, and concatenate the successful translations. */
module Pipeline {
  import opened Wrappers
  import opened PdfText
  import opened OpenAi

  /** A pending translation. The source's futures do nothing until they are awaited,
      so a queued translation is exactly the inputs it was created with. */
  datatype Task = Task(text: string, apiKey: string, language: string)

  /** The subprocess outcome per page number, and the HTTP round trip per request. */
  type Runner = int -> Option<ProcessOutput>
  type Poster = (string, ChatRequest) -> Result<ChatResponse, TransportError>

  predicate PageFound(run: Runner, page: int)
  {
    ConvertPageToText(run, page).Ok?
  }

  function PageText(run: Runner, page: int): string
    requires PageFound(run, page)
  {
    ConvertPageToText(run, page).value
  }

  /** Pages 1..k all yield text and page k+1 does not: the document, as the loop sees it,
      has exactly k pages. */
  predicate EndsAfter(run: Runner, k: nat)
  {
    (forall page :: 1 <= page <= k ==> PageFound(run, page)) && !PageFound(run, k + 1)
  }

  /** The i-th queued task (from 0) translates the text of page i+1, verbatim, with the
      given credential and target language. */
  predicate QueuedInPageOrder(tasks: seq<Task>, run: Runner, apiKey: string, language: string)
  {
    forall i :: 0 <= i < |tasks| ==>
      PageFound(run, i + 1) && tasks[i] == Task(PageText(run, i + 1), apiKey, language)
  }

  /** The whole outcome of discovery: one task per page before the first failure, in page order. */
  predicate Dispatched(tasks: seq<Task>, run: Runner, apiKey: string, language: string)
  {
    EndsAfter(run, |tasks|) && QueuedInPageOrder(tasks, run, apiKey, language)
  }

  /** The page count seen by discovery is unique: it is the page before the first failing one. */
  lemma EndIsFirstFailure(run: Runner, k1: nat, k2: nat)
    requires EndsAfter(run, k1) && EndsAfter(run, k2)
    ensures k1 == k2
  {
  }

  /** Discovery has exactly one possible outcome for a given document, credential and language. */
  lemma DispatchIsDetermined(run: Runner, apiKey: string, language: string, t1: seq<Task>, t2: seq<Task>)
    requires Dispatched(t1, run, apiKey, language) && Dispatched(t2, run, apiKey, language)
    ensures t1 == t2
  {
    EndIsFirstFailure(run, |t1|, |t2|);
    forall i | 0 <= i < |t1| ensures t1[i] == t2[i] {
      assert t1[i] == Task(PageText(run, i + 1), apiKey, language);
    }
  }

  /** A document whose first page already fails queues nothing. */
  lemma FirstPageFails(run: Runner, apiKey: string, language: string, tasks: seq<Task>)
    requires !PageFound(run, 1)
    requires Dispatched(tasks, run, apiKey, language)
    ensures tasks == []
  {
  }

  /** The discovery and dispatch loop, with an unbounded page counter. `end` is any page
      that yields no text: a document has finitely many pages, and the loop stops at or
      before the first one past its last page. */
  method DispatchLoop(run: Runner, apiKey: string, language: string, ghost end: nat)
    returns (tasks: seq<Task>)
    requires 1 <= end && !PageFound(run, end)
    ensures Dispatched(tasks, run, apiKey, language)
    ensures |tasks| < end
  {
    var counter: nat := 1;
    tasks := [];
    while true
      invariant 1 <= counter <= end
      invariant |tasks| == counter - 1
      invariant forall page :: 1 <= page < counter ==> PageFound(run, page)
      invariant QueuedInPageOrder(tasks, run, apiKey, language)
      decreases end - counter
    {
      var textResult := ConvertPageToText(run, counter);
      match textResult {
        case Ok(text) =>
          tasks := tasks + [Task(text, apiKey, language)];
        case Err(_) =>
          break;
      }
      counter := counter + 1;
    }
  }

  /** The source's counter type: a signed 8-bit integer. */
  newtype I8 = x: int | -128 <= x < 128

  /** How the as-written loop leaves: at the first page without text, or by the
      counter overflowing (a panic) after page 127 yielded text. */
  datatype LoopExit = EndOfDocument | CounterOverflow

  /** The outcome of the as-written loop: tasks in page order for a prefix of found pages,
      ending either at the first page without text or with 127 tasks and an overflow. */
  predicate DispatchedI8(tasks: seq<Task>, exit: LoopExit, run: Runner, apiKey: string, language: string)
  {
    QueuedInPageOrder(tasks, run, apiKey, language)
    && |tasks| <= 127
    && (exit == EndOfDocument ==> EndsAfter(run, |tasks|))
    && (exit == CounterOverflow <==> |tasks| == 127)
  }

  /** The loop exactly as written, with its 8-bit counter. `probes` lists the page numbers
      handed to the extractor, in order. */
  method DispatchLoopI8(run: Runner, apiKey: string, language: string)
    returns (tasks: seq<Task>, probes: seq<I8>, exit: LoopExit)
    ensures DispatchedI8(tasks, exit, run, apiKey, language)
    ensures |probes| == if exit == EndOfDocument then |tasks| + 1 else |tasks|
    ensures forall i :: 0 <= i < |probes| ==> probes[i] as int == i + 1 && 1 <= probes[i] <= 127
  {
    var counter: I8 := 1;
    tasks, probes := [], [];
    while true
      invariant 1 <= counter <= 127
      invariant |tasks| == counter as int - 1 && |probes| == |tasks|
      invariant forall page :: 1 <= page < counter as int ==> PageFound(run, page)
      invariant QueuedInPageOrder(tasks, run, apiKey, language)
      invariant forall i :: 0 <= i < |probes| ==> probes[i] as int == i + 1
      decreases 127 - counter
    {
      probes := probes + [counter];
      var textResult := ConvertPageToText(run, counter as int);
      match textResult {
        case Ok(text) =>
          assert PageText(run, counter as int) == text;
          tasks := tasks + [Task(text, apiKey, language)];
        case Err(_) =>
          exit := EndOfDocument;
          return;
      }
      if counter == 127 {
        exit := CounterOverflow;
        return;
      }
      counter := counter + 1;
    }
  }

  /** Every page a task was queued for yielded text. */
  lemma QueuedPagesFound(tasks: seq<Task>, run: Runner, apiKey: string, language: string)
    requires QueuedInPageOrder(tasks, run, apiKey, language)
    ensures forall page :: 1 <= page <= |tasks| ==> PageFound(run, page)
  {
    forall page | 1 <= page <= |tasks| ensures PageFound(run, page) {
      var queued := tasks[page - 1];
    }
  }

  /** Below 127 pages the as-written loop and the unbounded one agree. */
  lemma AsWrittenAgreesBelowBound(
    run: Runner, apiKey: string, language: string, k: nat, tasks: seq<Task>, exit: LoopExit)
    requires EndsAfter(run, k) && k < 127
    requires DispatchedI8(tasks, exit, run, apiKey, language)
    ensures exit == EndOfDocument && Dispatched(tasks, run, apiKey, language) && |tasks| == k
  {
    QueuedPagesFound(tasks, run, apiKey, language);
    EndIsFirstFailure(run, k, |tasks|);
  }

  /** Whenever pages 1 to 127 all yield text, the as-written loop ends in an overflow,
      whatever the later pages hold. */
  lemma OverflowWhenPages1To127Found(
    run: Runner, apiKey: string, language: string, tasks: seq<Task>, exit: LoopExit)
    requires forall page :: 1 <= page <= 127 ==> PageFound(run, page)
    requires DispatchedI8(tasks, exit, run, apiKey, language)
    ensures exit == CounterOverflow && |tasks| == 127
  {
  }

  /** A document of exactly 127 pages, each with the same text. */
  function Document127(): Runner
  {
    page => if 1 <= page <= 127 then Some(ProcessOutput(true, "page", "")) else Some(ProcessOutput(false, "", ""))
  }

  /** On a 127-page document the as-written loop queues all pages but then overflows its
      counter (a panic) instead of reaching the end of the document at page 128. */
  lemma OverflowOn127Pages(apiKey: string, language: string, tasks: seq<Task>, exit: LoopExit)
    requires DispatchedI8(tasks, exit, Document127(), apiKey, language)
    ensures EndsAfter(Document127(), 127)
    ensures exit == CounterOverflow && |tasks| == 127
  {
    Document127Ends();
    OverflowWhenPages1To127Found(Document127(), apiKey, language, tasks, exit);
  }

  /** The 127-page document yields text for pages 1 to 127 and none for page 128. */
  lemma Document127Ends()
    ensures EndsAfter(Document127(), 127)
  {
    var run := Document127();
    forall page | 1 <= page <= 127 ensures PageFound(run, page) {
      assert run(page) == Some(ProcessOutput(true, "page", ""));
    }
    assert run(128) == Some(ProcessOutput(false, "", ""));
  }

  /** The unbounded loop reaches the end of the same document and queues every page. */
  lemma CorrectedOn127Pages(apiKey: string, language: string, tasks: seq<Task>)
    requires Dispatched(tasks, Document127(), apiKey, language)
    ensures |tasks| == 127
    ensures forall i :: 0 <= i < 127 ==> tasks[i].text == "page"
  {
    Document127Ends();
    EndIsFirstFailure(Document127(), 127, |tasks|);
  }

  /** One queued translation, awaited. */
  function Translate(task: Task, post: Poster): Result<string, TransportError>
  {
    TranslateText(task.text, task.apiKey, task.language, post)
  }

  /** Waiting for every queued translation: the results come back in queue order, one per
      task, whatever order the requests complete in. */
  function JoinAll(tasks: seq<Task>, post: Poster): (results: seq<Result<string, TransportError>>)
    ensures |results| == |tasks|
    ensures forall i :: 0 <= i < |tasks| ==> results[i] == Translate(tasks[i], post)
    decreases |tasks|
  {
    if tasks == [] then [] else [Translate(tasks[0], post)] + JoinAll(tasks[1..], post)
  }

  /** What one result adds to the output: its text when it succeeded, nothing otherwise. */
  function OkText(result: Result<string, TransportError>): string
  {
    if result.Ok? then result.value else ""
  }

  /** The output text of a sequence of results: the successful texts in order, with no
      separator. */
  function ConcatOk(results: seq<Result<string, TransportError>>): string
    decreases |results|
  {
    if results == [] then ""
    else ConcatOk(results[..|results| - 1]) + OkText(results[|results| - 1])
  }

  /** Concatenating results concatenates their outputs. */
  lemma {:induction false} ConcatOkAppend(a: seq<Result<string, TransportError>>, b: seq<Result<string, TransportError>>)
    ensures ConcatOk(a + b) == ConcatOk(a) + ConcatOk(b)
    decreases |b|
  {
    if b == [] {
      assert a + b == a;
    } else {
      var last := |b| - 1;
      assert (a + b)[..|a + b| - 1] == a + b[..last];
      assert (a + b)[|a + b| - 1] == b[last];
      ConcatOkAppend(a, b[..last]);
    }
  }

  /** The output read from the front: the first result's text, then the rest. */
  lemma ConcatOkCons(r: Result<string, TransportError>, rest: seq<Result<string, TransportError>>)
    ensures ConcatOk([r] + rest) == OkText(r) + ConcatOk(rest)
  {
    ConcatOkAppend([r], rest);
    assert [r][..0] == [];
  }

  /** A failed translation adds nothing at its position, and the results after it are still
      appended. */
  lemma FailedTranslationSkipped(
    before: seq<Result<string, TransportError>>, e: TransportError, after: seq<Result<string, TransportError>>)
    ensures ConcatOk(before + [Err(e)] + after) == ConcatOk(before) + ConcatOk(after)
  {
    var failed: seq<Result<string, TransportError>> := [Err(e)];
    assert failed[..0] == [];
    assert ConcatOk(failed) == "";
    ConcatOkAppend(before, failed);
    ConcatOkAppend(before + failed, after);
  }

  /** The summed lengths of the successful texts. */
  function OkLength(results: seq<Result<string, TransportError>>): nat
    decreases |results|
  {
    if results == [] then 0 else |OkText(results[0])| + OkLength(results[1..])
  }

  /** The output is exactly as long as the successful texts together: a failed page adds
      no character. */
  lemma {:induction false} ConcatOkLength(results: seq<Result<string, TransportError>>)
    ensures |ConcatOk(results)| == OkLength(results)
    decreases |results|
  {
    if results != [] {
      assert results == [results[0]] + results[1..];
      ConcatOkCons(results[0], results[1..]);
      ConcatOkLength(results[1..]);
    }
  }

  /** The fold over the joined results: append each successful text to an accumulator. */
  method Combine(results: seq<Result<string, TransportError>>) returns (acc: string)
    ensures acc == ConcatOk(results)
  {
    acc := "";
    var i := 0;
    while i < |results|
      invariant 0 <= i <= |results|
      invariant acc == ConcatOk(results[..i])
    {
      assert results[..i + 1][..i] == results[..i];
      if results[i].Ok? {
        acc := acc + results[i].value;
      }
      i := i + 1;
    }
    assert results[..i] == results;
  }

  /** Everything after the download: discovery, the join and the fold. Returns the queued
      tasks (whose number the source reports) and the text it prints. */
  method Run(run: Runner, post: Poster, apiKey: string, language: string, ghost end: nat)
    returns (tasks: seq<Task>, output: string)
    requires 1 <= end && !PageFound(run, end)
    ensures Dispatched(tasks, run, apiKey, language)
    ensures output == ConcatOk(JoinAll(tasks, post))
  {
    tasks := DispatchLoop(run, apiKey, language, end);
    var results := JoinAll(tasks, post);
    output := Combine(results);
  }

  /** If page 1 yields no text, nothing is translated and the output is empty. */
  lemma EmptyDocumentEmptyOutput(run: Runner, post: Poster, apiKey: string, language: string, tasks: seq<Task>)
    requires !PageFound(run, 1)
    requires Dispatched(tasks, run, apiKey, language)
    ensures tasks == [] && ConcatOk(JoinAll(tasks, post)) == ""
  {
    FirstPageFails(run, apiKey, language, tasks);
  }

  /** A three-page document, with the given non-empty page texts, whose fourth page fails. */
  function ThreePageDocument(p1: string, p2: string, p3: string): Runner
  {
    page =>
      if page == 1 then Some(ProcessOutput(true, p1, ""))
      else if page == 2 then Some(ProcessOutput(true, p2, ""))
      else if page == 3 then Some(ProcessOutput(true, p3, ""))
      else Some(ProcessOutput(false, "", ""))
  }

  /** The three-page document yields text for pages 1 to 3 and none for page 4. */
  lemma ThreePageDocumentEnds(p1: string, p2: string, p3: string)
    requires p1 != "" && p2 != "" && p3 != ""
    ensures EndsAfter(ThreePageDocument(p1, p2, p3), 3)
  {
    var run := ThreePageDocument(p1, p2, p3);
    assert PageFound(run, 1) && PageFound(run, 2) && PageFound(run, 3);
    assert !PageFound(run, 4);
  }

  /** The translation a stand-in translator gives: the text tagged with its language. */
  function Tagged(language: string, text: string): string
  {
    "[" + language + "] " + text
  }

  /** A translator stand-in that answers with the page text tagged by the language it read
      from the request. */
  function TaggingTranslator(): Poster
  {
    (apiKey, request) =>
      match ParseRequest(request)
      case Some((text, language)) => Ok(ChatResponse([Choice(Message("assistant", Tagged(language, text)))]))
      case None => Err(TransportError("unexpected request"))
  }

  /** The stand-in translates each request into its tagged page text. */
  lemma TaggingTranslatorTags(apiKey: string, text: string, language: string)
    ensures Translate(Task(text, apiKey, language), TaggingTranslator()) == Ok(Tagged(language, text))
  {
    RequestRoundTrip(text, language);
  }

  /** Discovery on the three-page document queues its three pages, in order. */
  lemma ThreePageTasks(p1: string, p2: string, p3: string, apiKey: string, language: string, tasks: seq<Task>)
    requires p1 != "" && p2 != "" && p3 != ""
    requires Dispatched(tasks, ThreePageDocument(p1, p2, p3), apiKey, language)
    ensures tasks == [Task(p1, apiKey, language), Task(p2, apiKey, language), Task(p3, apiKey, language)]
  {
    var run := ThreePageDocument(p1, p2, p3);
    ThreePageDocumentEnds(p1, p2, p3);
    EndIsFirstFailure(run, 3, |tasks|);
    assert tasks[0] == Task(PageText(run, 1), apiKey, language);
    assert tasks[1] == Task(PageText(run, 2), apiKey, language);
    assert tasks[2] == Task(PageText(run, 3), apiKey, language);
  }

  /** Joining three tasks translates each in place. */
  lemma JoinThree(tasks: seq<Task>, post: Poster)
    requires |tasks| == 3
    ensures JoinAll(tasks, post) == [Translate(tasks[0], post), Translate(tasks[1], post), Translate(tasks[2], post)]
  {
  }

  /** The output of three successful results is their texts run together. */
  lemma ConcatOkThree(a: string, b: string, c: string)
    ensures ConcatOk([Ok(a), Ok(b), Ok(c)]) == a + b + c
  {
    var r1, r2, r3 := Ok(a), Ok(b), Ok(c);
    ConcatOkCons(r1, [r2, r3]);
    ConcatOkCons(r2, [r3]);
    ConcatOkCons(r3, []);
    assert [r1] + [r2, r3] == [r1, r2, r3];
    assert [r2] + [r3] == [r2, r3];
    assert [r3] + [] == [r3];
  }

  /** End to end on three pages: the three tagged translations, in page order, directly
      concatenated; for pages "Page 1 body", "Page 2 body", "Page 3 body" and language
      "French" that is "[French] Page 1 body[French] Page 2 body[French] Page 3 body". */
  lemma ThreePageScenario(p1: string, p2: string, p3: string, apiKey: string, language: string, tasks: seq<Task>)
    requires p1 != "" && p2 != "" && p3 != ""
    requires Dispatched(tasks, ThreePageDocument(p1, p2, p3), apiKey, language)
    ensures ConcatOk(JoinAll(tasks, TaggingTranslator()))
         == Tagged(language, p1) + Tagged(language, p2) + Tagged(language, p3)
  {
    ThreePageTasks(p1, p2, p3, apiKey, language, tasks);
    TaggingTranslatorTags(apiKey, p1, language);
    TaggingTranslatorTags(apiKey, p2, language);
    TaggingTranslatorTags(apiKey, p3, language);
    JoinThree(tasks, TaggingTranslator());
    ConcatOkThree(Tagged(language, p1), Tagged(language, p2), Tagged(language, p3));
  }

  /** The concrete case: pages "Page 1 body", "Page 2 body", "Page 3 body" translated into
      French. */
  lemma FrenchThreePageScenario(apiKey: string, tasks: seq<Task>)
    requires Dispatched(tasks, ThreePageDocument("Page 1 body", "Page 2 body", "Page 3 body"), apiKey, "French")
    ensures ConcatOk(JoinAll(tasks, TaggingTranslator()))
         == "[French] Page 1 body[French] Page 2 body[French] Page 3 body"
  {
    ThreePageScenario("Page 1 body", "Page 2 body", "Page 3 body", apiKey, "French", tasks);
    FrenchTaggedPages();
  }

  /** The three French-tagged pages run together. */
  lemma FrenchTaggedPages()
    ensures Tagged("French", "Page 1 body") + Tagged("French", "Page 2 body") + Tagged("French", "Page 3 body")
         == "[French] Page 1 body[French] Page 2 body[French] Page 3 body"
  {
    FrenchTagged("Page 1 body");
    FrenchTagged("Page 2 body");
    FrenchTagged("Page 3 body");
    assert "[French] " + "Page 1 body" == "[French] Page 1 body";
    assert "[French] " + "Page 2 body" == "[French] Page 2 body";
    assert "[French] " + "Page 3 body" == "[French] Page 3 body";
    FrenchPagesJoined();
  }

  /** Tagging with "French" prefixes "[French] ". */
  lemma FrenchTagged(text: string)
    ensures Tagged("French", text) == "[French] " + text
  {
    assert "[" + "French" + "] " == "[French] ";
  }

  /** The three tagged pages, run together, as one literal. */
  lemma FrenchPagesJoined()
    ensures "[French] Page 1 body" + "[French] Page 2 body" + "[French] Page 3 body"
         == "[French] Page 1 body[French] Page 2 body[French] Page 3 body"
  {
  }
}
