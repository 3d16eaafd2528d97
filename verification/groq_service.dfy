/**
 * The client-side Groq call: a fixed two-message chat completion request, a
 * simulated answer when the HTTP status is not ok, and fixed answers for a
 * missing reply text and for every thrown error. `fetch` is an oracle from the
 * exact request to its outcome.
 */
module GroqService {
  import opened Wrappers
  import opened Runtime
  import opened Types

  datatype ChatMessage = ChatMessage(role: string, content: string)

  /** The request as sent: the `Authorization` header and the JSON body (the temperature is left out). */
  datatype GroqRequest = GroqRequest(authorization: string, messages: seq<ChatMessage>, model: string, maxTokens: nat)

  /** `choices[i]?.message?.content`: `None` when the message or its content is absent. */
  datatype Choice = Choice(content: Option<string>)

  /** The parsed reply; `choices` is `None` when the field is absent, so that indexing it throws. */
  datatype GroqJson = GroqJson(choices: Option<seq<Choice>>)

  /** What `fetch` gives: a thrown network error, or a response with its `ok` flag and parsed body. */
  datatype FetchOutcome = NetworkError(message: string) | HttpResponse(ok: bool, json: Result<GroqJson>)

  const PlaceholderKey := "gsk_placeholder"
  const ModelName := "llama-3.3-70b-versatile"
  const MaxTokens: nat := 1024

  const SystemPrompt :=
    "You are a helpful Financial Assistant for Myanmar. \n"
    + "    Answer quickly and concisely. Use the provided context."

  const SimulatedPrefix :=
    "[Simulated Groq Response] (Llama 3.3-70b): Based on the retrieval, the market in Myanmar is currently fluctuating. "
  const PolicyNote := "I found relevant policy documents."
  const NoResponse := "No response from Groq."
  const ConnectionError := "Error connecting to Groq accelerator."

  /** `GROQ_API_KEY || 'gsk_placeholder'`. */
  function ApiKey(groqApiKey: Option<string>): (key: string)
    ensures Present(groqApiKey) ==> key == groqApiKey.value
    ensures !Present(groqApiKey) ==> key == PlaceholderKey
  {
    if Present(groqApiKey) then groqApiKey.value else PlaceholderKey
  }

  /** The user message: the context, a blank line, then the question. */
  function UserContent(context: string, prompt: string): string
  {
    "Context:\n" + context + "\n\nQuestion: " + prompt
  }

  function Request(prompt: string, context: string, groqApiKey: Option<string>): GroqRequest
  {
    GroqRequest(
      "Bearer " + ApiKey(groqApiKey),
      [ChatMessage("system", SystemPrompt), ChatMessage("user", UserContent(context, prompt))],
      ModelName,
      MaxTokens)
  }

  /** The demo answer for a response that is not ok; it mentions documents only when there is context. */
  function SimulatedAnswer(context: string): string
  {
    SimulatedPrefix + (if context != "" then PolicyNote else "")
  }

  /** The answer for a fetch outcome. */
  function Answer(outcome: FetchOutcome, context: string): (r: string)
    ensures r != ""
    ensures outcome.NetworkError? ==> r == ConnectionError
    ensures outcome.HttpResponse? && !outcome.ok ==> r == SimulatedAnswer(context)
    ensures outcome.HttpResponse? && outcome.ok && outcome.json.Failure? ==> r == ConnectionError
  {
    match outcome
    case NetworkError(_) => ConnectionError
    case HttpResponse(ok, json) =>
      if !ok then SimulatedAnswer(context)
      else match json
        case Failure(_) => ConnectionError
        case Success(data) =>
          match data.choices
          case None => ConnectionError
          case Some(choices) =>
            if |choices| > 0 && Present(choices[0].content) then choices[0].content.value
            else NoResponse
  }

  /** `callGroq(prompt, context, history)`: never throws. `history` is not used. */
  function CallGroq(
    prompt: string,
    context: string,
    history: seq<Message>,
    groqApiKey: Option<string>,
    fetch: GroqRequest -> FetchOutcome): (r: string)
    ensures r != ""
  {
    Answer(fetch(Request(prompt, context, groqApiKey)), context)
  }

  // ---------------------------------------------------------------------------
  // Properties
  // ---------------------------------------------------------------------------

  /**
   * The request carries exactly two messages, the fixed system prompt then the
   * user message; the user message shows the context right after `Context:\n`
   * and ends with the question; the key falls back to the placeholder.
   */
  lemma RequestShape(prompt: string, context: string, groqApiKey: Option<string>)
    ensures var req := Request(prompt, context, groqApiKey);
      && |req.messages| == 2
      && req.messages[0] == ChatMessage("system", SystemPrompt)
      && req.messages[1].role == "user"
      && OccursAt(req.messages[1].content, context, 9)
      && EndsWith(req.messages[1].content, "\n\nQuestion: " + prompt)
      && req.model == "llama-3.3-70b-versatile" && req.maxTokens == 1024
      && (!Present(groqApiKey) ==> req.authorization == "Bearer gsk_placeholder")
  {
    var u := UserContent(context, prompt);
    assert u[9..9 + |context|] == context;
    assert u[|u| - |"\n\nQuestion: " + prompt|..] == "\n\nQuestion: " + prompt;
  }

  /** The simulated answer ends with the policy-document note exactly when the context is non-empty. */
  lemma SimulatedNoteIffContext(context: string)
    ensures StartsWith(SimulatedAnswer(context), SimulatedPrefix)
    ensures EndsWith(SimulatedAnswer(context), PolicyNote) <==> context != ""
  {
    var r := SimulatedAnswer(context);
    assert r[..|SimulatedPrefix|] == SimulatedPrefix;
    if context == "" {
      assert r == SimulatedPrefix;
      assert r[|r| - 1] == ' ';
      assert PolicyNote[|PolicyNote| - 1] == '.';
    } else {
      assert r[|r| - |PolicyNote|..] == PolicyNote;
    }
  }

  /**
   * An ok response gives the first choice's content when there is one, the
   * fixed no-response text when the list is empty or the content is missing,
   * and the connection error when `choices` itself is missing.
   */
  lemma OkResponse(prompt: string, context: string, history: seq<Message>, groqApiKey: Option<string>,
                   fetch: GroqRequest -> FetchOutcome, data: GroqJson)
    requires fetch(Request(prompt, context, groqApiKey)) == HttpResponse(true, Success(data))
    ensures var r := CallGroq(prompt, context, history, groqApiKey, fetch);
      && (data.choices.None? ==> r == ConnectionError)
      && (data.choices.Some? && data.choices.value == [] ==> r == NoResponse)
      && (data.choices.Some? && data.choices.value != [] ==>
            r == if Present(data.choices.value[0].content) then data.choices.value[0].content.value
                 else NoResponse)
  {
  }

  /** The answer never depends on `history`. */
  lemma HistoryUnused(prompt: string, context: string, h1: seq<Message>, h2: seq<Message>,
                      groqApiKey: Option<string>, fetch: GroqRequest -> FetchOutcome)
    ensures CallGroq(prompt, context, h1, groqApiKey, fetch) == CallGroq(prompt, context, h2, groqApiKey, fetch)
  {
  }
}
