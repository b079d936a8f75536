/** The translator client: the chat-completion request built for one page, and the
    choice of translated text from the reply. The HTTP round trip (headers, JSON
    encoding, the network) is a parameter `post`. */
module OpenAi {
  import opened Wrappers

  datatype Message = Message(role: string, content: string)

  /** The request body. The two float parameters (temperature and top-p, both 1.0)
      are not represented. */
  datatype ChatRequest = ChatRequest(
    model: string,
    messages: seq<Message>,
    maxTokens: int,
    frequencyPenalty: int,
    presencePenalty: int)

  datatype Choice = Choice(message: Message)

  datatype ChatResponse = ChatResponse(choices: seq<Choice>)

  /** A failed round trip: the network, a non-2xx status or a body that does not decode. */
  datatype TransportError = TransportError(reason: string)

  const ModelName: string := "gpt-3.5-turbo"
  const MaxTokens: int := 2040
  const FrequencyPenalty: int := 0
  const PresencePenalty: int := 0

  const InstructionHead: string := "Given the text below for a maths competition translate it in "
  const InstructionTail: string := ". Try to retain formulas when you can, usage of LateX is ok. Skip translating Rounds numbers, they are most likely at the bottom."

  /** The system instruction for a target language: the fixed sentence with the language
      written in after "translate it in". */
  function SystemInstruction(language: string): string
  {
    InstructionHead + language + InstructionTail
  }

  /** Reads the target language back out of a system instruction, if it has the fixed shape. */
  function LanguageOf(instruction: string): Option<string>
  {
    var h, t := |InstructionHead|, |InstructionTail|;
    if |instruction| >= h + t
       && instruction[..h] == InstructionHead
       && instruction[|instruction| - t..] == InstructionTail
    then Some(instruction[h..|instruction| - t])
    else None
  }

  /** The language is recovered from the instruction built for it. */
  lemma LanguageRoundTrip(language: string)
    ensures LanguageOf(SystemInstruction(language)) == Some(language)
  {
    var s := SystemInstruction(language);
    var h, t := |InstructionHead|, |InstructionTail|;
    assert s[..h] == InstructionHead;
    assert s[|s| - t..] == InstructionTail;
    assert s[h..|s| - t] == language;
  }

  /** Conversely every instruction that names a language is the one built for it, so two
      different target languages never share an instruction. */
  lemma InstructionOfLanguage(instruction: string, language: string)
    requires LanguageOf(instruction) == Some(language)
    ensures SystemInstruction(language) == instruction
  {
    var h, t := |InstructionHead|, |InstructionTail|;
    var n := |instruction|;
    assert instruction == instruction[..h] + instruction[h..n - t] + instruction[n - t..];
  }

  /** The request for one page: a system message carrying the instruction for the
      target language, then a user message carrying the page text verbatim, with
      the fixed model and integer generation parameters. */
  function BuildRequest(text: string, language: string): (r: ChatRequest)
    ensures |r.messages| == 2
    ensures r.messages[0].role == "system" && r.messages[1].role == "user"
    ensures r.messages[1].content == text
    ensures LanguageOf(r.messages[0].content) == Some(language)
    ensures r.model == ModelName && r.maxTokens == MaxTokens
    ensures r.frequencyPenalty == FrequencyPenalty && r.presencePenalty == PresencePenalty
  {
    LanguageRoundTrip(language);
    ChatRequest(
      ModelName,
      [Message("system", SystemInstruction(language)), Message("user", text)],
      MaxTokens,
      FrequencyPenalty,
      PresencePenalty)
  }

  /** What the receiving side reads from a request: the page text and the target
      language, when the request has the two-message shape built above. */
  function ParseRequest(r: ChatRequest): Option<(string, string)>
  {
    if |r.messages| == 2 && r.messages[0].role == "system" && r.messages[1].role == "user" then
      match LanguageOf(r.messages[0].content)
      case Some(language) => Some((r.messages[1].content, language))
      case None => None
    else None
  }

  /** Building a request loses nothing: the page text and language are read back exactly. */
  lemma RequestRoundTrip(text: string, language: string)
    ensures ParseRequest(BuildRequest(text, language)) == Some((text, language))
  {
  }

  /** Every request that parses, with the fixed parameters, is the one built from what it parses to. */
  lemma RequestDeterminedByParse(r: ChatRequest, text: string, language: string)
    requires ParseRequest(r) == Some((text, language))
    requires r.model == ModelName && r.maxTokens == MaxTokens
    requires r.frequencyPenalty == FrequencyPenalty && r.presencePenalty == PresencePenalty
    ensures BuildRequest(text, language) == r
  {
    InstructionOfLanguage(r.messages[0].content, language);
    assert r.messages == [r.messages[0], r.messages[1]];
  }

  /** The translated text of a reply: the content of the first choice, or the empty
      string when there is no choice (which is not a failure). */
  function SelectTranslation(response: ChatResponse): (text: string)
    ensures response.choices == [] ==> text == ""
    ensures response.choices != [] ==> text == response.choices[0].message.content
  {
    if |response.choices| == 0 then "" else response.choices[0].message.content
  }

  /** Choices after the first never influence the result. */
  lemma LaterChoicesIgnored(first: Choice, rest1: seq<Choice>, rest2: seq<Choice>)
    ensures SelectTranslation(ChatResponse([first] + rest1)) == SelectTranslation(ChatResponse([first] + rest2))
    ensures SelectTranslation(ChatResponse([first] + rest1)) == first.message.content
  {
  }

  /** One translation: build the request, hand it with the credential to `post`, and
      select the text of the reply. A failed round trip is the only failure; a reply
      without choices is an empty translation. */
  function TranslateText(
    text: string,
    apiKey: string,
    language: string,
    post: (string, ChatRequest) -> Result<ChatResponse, TransportError>
  ): (r: Result<string, TransportError>)
    ensures r.Err? <==> post(apiKey, BuildRequest(text, language)).Err?
    ensures r.Err? ==> r.error == post(apiKey, BuildRequest(text, language)).error
    ensures r.Ok? ==> r.value == SelectTranslation(post(apiKey, BuildRequest(text, language)).value)
  {
    match post(apiKey, BuildRequest(text, language))
    case Err(e) => Err(e)
    case Ok(response) => Ok(SelectTranslation(response))
  }
}
