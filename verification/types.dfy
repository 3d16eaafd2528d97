/** The shared record and enumeration types of the chat front-end. */
module Types {
  import opened Wrappers

  /** Who wrote a chat message. */
  datatype Sender = User | Ai | System

  /** The string each `Sender` member stands for. */
  function SenderValue(s: Sender): string
  {
    match s
    case User => "user"
    case Ai => "ai"
    case System => "system"
  }

  /** The `Sender` a string denotes, if any: the inverse of `SenderValue`. */
  function ParseSender(v: string): (r: Option<Sender>)
    ensures r.Some? ==> SenderValue(r.value) == v
    ensures r.None? <==> v !in {"user", "ai", "system"}
  {
    if v == "user" then Some(User)
    else if v == "ai" then Some(Ai)
    else if v == "system" then Some(System)
    else None
  }

  /** The two completion back-ends. */
  datatype ModelProvider = Groq | Gemini

  /** The label each provider stands for; the chat route returns it in `provider`. */
  function Label(p: ModelProvider): string
  {
    match p
    case Groq => "Groq (Llama 3.3)"
    case Gemini => "Gemini 2.5 Flash"
  }

  /** The provider a label denotes, if any: the inverse of `Label`. */
  function ParseProvider(name: string): (r: Option<ModelProvider>)
    ensures r.Some? ==> Label(r.value) == name
    ensures r.None? <==> name !in {"Groq (Llama 3.3)", "Gemini 2.5 Flash"}
  {
    if name == "Groq (Llama 3.3)" then Some(Groq)
    else if name == "Gemini 2.5 Flash" then Some(Gemini)
    else None
  }

  /** A label string is one of the `ModelProvider` values. */
  predicate IsProviderLabel(name: string)
  {
    ParseProvider(name).Some?
  }

  /** Every sender value reads back as itself, so the three values are distinct. */
  lemma SenderRoundTrip(s: Sender)
    ensures ParseSender(SenderValue(s)) == Some(s)
  {
  }

  /**
   * Every provider label reads back as its provider, so the labels are distinct;
   * the error label `System` of the chat route is not one of them.
   */
  lemma ProviderRoundTrip(p: ModelProvider)
    ensures ParseProvider(Label(p)) == Some(p)
    ensures Label(p) != "System"
  {
  }

  /**
   * One chat turn. `id` and `timestamp` come from the clock and are taken as
   * given. `provider` holds a provider label (see `IsProviderLabel`); `provider`,
   * `isThinking` and `image` are optional.
   */
  datatype Message = Message(
    id: string,
    text: string,
    sender: Sender,
    timestamp: int,
    provider: Option<string>,
    isThinking: Option<bool>,
    image: Option<string>)

  /** A document of the mock knowledge base. */
  datatype RagDocument = RagDocument(title: string, content: string, relevance: real)

  /** What the chat page hands to the router bridge. */
  datatype RouterRequest = RouterRequest(
    message: string,
    history: seq<Message>,
    useComplexModel: bool,
    image: Option<string>)

  /** What the router bridge hands back: the answer and the label of who gave it. */
  datatype RouterResponse = RouterResponse(text: string, provider: string)
}
