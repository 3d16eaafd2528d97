/**
 * The server-side chat endpoint: credential gate, retrieval with fallback to an
 * empty context, the system prompt template, the routing predicate between the
 * two providers, multimodal content parts, and the reply and error envelopes.
 *
 * The vector-store search and the two model invocations are oracles: functions
 * from the exact request the route makes to what the collaborator returns or
 * the message it throws with. The route also reports the external calls it
 * makes, in order, as `Effect`s.
 */
module ChatRoute {
  import opened Wrappers
  import opened Runtime
  import opened Types

  /** The JSON body the route destructures. */
  datatype ChatBody = ChatBody(
    message: string,
    history: seq<Message>,
    useComplexModel: JsValue,
    image: JsValue)

  /** A part of the multimodal human message on the Gemini path. */
  datatype ContentPart = TextPart(text: string) | ImageUrlPart(imageUrl: JsValue)

  /** A model invocation: system message plus human message. */
  datatype ModelCall =
    | GeminiCall(system: string, parts: seq<ContentPart>)
    | GroqCall(system: string, human: string)

  /** A model reply's content: a string, or structured content given by its JSON serialisation. */
  datatype ModelContent = TextContent(text: string) | StructuredContent(json: string)

  /** An external call the route makes. */
  datatype Effect = SimilaritySearch(query: string, k: nat) | Invoke(call: ModelCall)

  /** The JSON reply `{text, provider}` and its HTTP status. */
  datatype ChatReply = ChatReply(status: nat, text: string, provider: string)

  /** Number of documents asked of the vector store. */
  const TopK: nat := 3

  const ContextSeparator := "\n\n"
  const MissingCredentials := "Missing Supabase credentials"
  const ErrorPrefix := "System Error: "
  const ErrorProvider := "System"

  /** The part of the system prompt before the context; it ends with the `CONTEXT:` heading. */
  const InstructionHead :=
    "You are a Senior Financial Analyst for the Myanmar market.\n"
    + "    Use the provided CONTEXT from the database to answer questions accurately.\n"
    + "    If the context is irrelevant, use your general knowledge but mention the lack of specific internal data.\n"
    + "    \n"
    + "    CONTEXT:\n"
    + "    "

  /** The part of the system prompt after the context. */
  const InstructionTail := "\n    "

  /** Both Supabase variables are set (non-empty). */
  predicate SupabaseConfigured(env: Env)
  {
    Present(env.supabaseUrl) && Present(env.supabasePrivateKey)
  }

  /** The context text: the page contents joined by blank lines, or "" when retrieval threw. */
  function ContextText(retrieved: Result<seq<string>>): (ctx: string)
    ensures retrieved.Failure? ==> ctx == ""
    ensures retrieved.Success? && retrieved.value == [] ==> ctx == ""
  {
    match retrieved
    case Failure(_) => ""
    case Success(pages) => Join(pages, ContextSeparator)
  }

  /** The system prompt with the context interpolated. */
  function SystemInstruction(ctx: string): (s: string)
    ensures StartsWith(s, InstructionHead) && EndsWith(s, InstructionTail)
    ensures |s| == |InstructionHead| + |ctx| + |InstructionTail|
  {
    InstructionHead + ctx + InstructionTail
  }

  /** The context a system prompt carries: what lies between the fixed head and tail. */
  function ContextOf(instruction: string): string
    requires |instruction| >= |InstructionHead| + |InstructionTail|
  {
    instruction[|InstructionHead|..|instruction| - |InstructionTail|]
  }

  /** The routing predicate: `image || useComplexModel`. */
  predicate UsesGemini(body: ChatBody)
  {
    Truthy(body.image) || Truthy(body.useComplexModel)
  }

  function ProviderFor(body: ChatBody): (p: ModelProvider)
    ensures p == Gemini <==> UsesGemini(body)
  {
    if UsesGemini(body) then Gemini else Groq
  }

  /** The multimodal content: the text part, then an image part only when an image is present. */
  function ContentParts(message: string, image: JsValue): (parts: seq<ContentPart>)
    ensures |parts| >= 1 && parts[0] == TextPart(message)
    ensures |parts| == 2 <==> Truthy(image)
    ensures |parts| <= 2
    ensures Truthy(image) ==> parts[1] == ImageUrlPart(image)
  {
    if Truthy(image) then [TextPart(message), ImageUrlPart(image)] else [TextPart(message)]
  }

  /** The call the route makes for `body` once the context is known. */
  function ModelCallFor(body: ChatBody, ctx: string): ModelCall
  {
    if UsesGemini(body) then GeminiCall(SystemInstruction(ctx), ContentParts(body.message, body.image))
    else GroqCall(SystemInstruction(ctx), body.message)
  }

  /** `typeof content === 'string' ? content : JSON.stringify(content)`. */
  function ResponseText(content: ModelContent): string
  {
    match content
    case TextContent(t) => t
    case StructuredContent(json) => json
  }

  /** The error envelope of the catch block. */
  function SystemError(message: string): ChatReply
  {
    ChatReply(500, ErrorPrefix + message, ErrorProvider)
  }

  /**
   * What the route answers and which external calls it makes, given the parsed
   * body (or the message `req.json()` threw with), the environment, and the
   * search and model oracles.
   */
  function Handle(
    body: Result<ChatBody>,
    env: Env,
    search: (string, nat) -> Result<seq<string>>,
    invoke: ModelCall -> Result<ModelContent>): (ChatReply, seq<Effect>)
  {
    match body
    case Failure(e) => (SystemError(e), [])
    case Success(b) =>
      if !SupabaseConfigured(env) then (SystemError(MissingCredentials), [])
      else
        var call := ModelCallFor(b, ContextText(search(b.message, TopK)));
        var reply :=
          match invoke(call)
          case Success(content) => ChatReply(200, ResponseText(content), Label(ProviderFor(b)))
          case Failure(e) => SystemError(e);
        (reply, [SimilaritySearch(b.message, TopK), Invoke(call)])
  }

  /** `POST /api/chat`, step by step as the handler runs. */
  method Post(
    body: Result<ChatBody>,
    env: Env,
    search: (string, nat) -> Result<seq<string>>,
    invoke: ModelCall -> Result<ModelContent>)
    returns (reply: ChatReply, effects: seq<Effect>)
    ensures (reply, effects) == Handle(body, env, search, invoke)
  {
    effects := [];
    if body.Failure? {
      reply := SystemError(body.error);
      return;
    }
    var b := body.value;
    if !Present(env.supabaseUrl) || !Present(env.supabasePrivateKey) {
      reply := SystemError(MissingCredentials);
      return;
    }

    var contextText := "";
    effects := effects + [SimilaritySearch(b.message, TopK)];
    var searchResults := search(b.message, TopK);
    if searchResults.Success? {
      contextText := Join(searchResults.value, ContextSeparator);
    }
    var systemInstruction := SystemInstruction(contextText);

    var responseText := "";
    var providerName := "";
    var call: ModelCall;
    if Truthy(b.image) || Truthy(b.useComplexModel) {
      providerName := Label(Gemini);
      var contentParts := [TextPart(b.message)];
      if Truthy(b.image) {
        contentParts := contentParts + [ImageUrlPart(b.image)];
      }
      call := GeminiCall(systemInstruction, contentParts);
    } else {
      providerName := Label(Groq);
      call := GroqCall(systemInstruction, b.message);
    }
    assert call == ModelCallFor(b, ContextText(searchResults));
    effects := effects + [Invoke(call)];
    assert effects == [SimilaritySearch(b.message, TopK), Invoke(call)];
    var response := invoke(call);
    if response.Failure? {
      reply := SystemError(response.error);
      return;
    }
    responseText := ResponseText(response.value);
    reply := ChatReply(200, responseText, providerName);
  }

  // ---------------------------------------------------------------------------
  // Properties
  // ---------------------------------------------------------------------------

  /** Missing Supabase credentials fail the request before any search or model call. */
  lemma CredentialsCheckedFirst(b: ChatBody, env: Env, search: (string, nat) -> Result<seq<string>>,
                                invoke: ModelCall -> Result<ModelContent>)
    requires !SupabaseConfigured(env)
    ensures Handle(Success(b), env, search, invoke).1 == []
    ensures Handle(Success(b), env, search, invoke).0 == ChatReply(500, ErrorPrefix + MissingCredentials, "System")
  {
  }

  /**
   * With credentials, the route searches for the message with k = 3, then makes
   * exactly one model call whose system prompt carries the context; a failed
   * search leaves the context empty and the request goes on.
   */
  lemma SearchThenOneCall(b: ChatBody, env: Env, search: (string, nat) -> Result<seq<string>>,
                          invoke: ModelCall -> Result<ModelContent>)
    requires SupabaseConfigured(env)
    ensures var effects := Handle(Success(b), env, search, invoke).1;
      && |effects| == 2
      && effects[0] == SimilaritySearch(b.message, 3)
      && effects[1].Invoke?
      && ContextOf(effects[1].call.system) == ContextText(search(b.message, 3))
      && (search(b.message, 3).Failure? ==> ContextOf(effects[1].call.system) == "")
  {
    var ctx := ContextText(search(b.message, 3));
    InstructionRoundTrip(ctx);
  }

  /** The system prompt gives back exactly the context it was built from. */
  lemma {:induction false} InstructionRoundTrip(ctx: string)
    ensures ContextOf(SystemInstruction(ctx)) == ctx
  {
    var s := SystemInstruction(ctx);
    assert s == InstructionHead + ctx + InstructionTail;
    assert s[|InstructionHead|..|s| - |InstructionTail|] == ctx;
  }

  /** The prompt always shows the `CONTEXT:` heading directly before the context, even an empty one. */
  lemma ContextHeadingPrecedesContext(ctx: string)
    ensures OccursAt(SystemInstruction(ctx), "CONTEXT:\n    " + ctx, |InstructionHead| - 13)
  {
    var s := SystemInstruction(ctx);
    var k := |InstructionHead| - 13;
    assert InstructionHead[k..] == "CONTEXT:\n    ";
    assert s[k..k + 13 + |ctx|] == InstructionHead[k..] + ctx;
  }

  /** Each retrieved page appears whole, in result order, in the context. */
  lemma ContextKeepsOrder(pages: seq<string>, i: nat)
    requires i < |pages|
    ensures OccursAt(ContextText(Success(pages)), pages[i], JoinOffset(pages, "\n\n", i))
  {
    JoinContainsPart(pages, ContextSeparator, i);
  }

  /**
   * The Gemini model is invoked exactly when `image` or `useComplexModel` is
   * truthy, and a successful reply carries that provider's label.
   */
  lemma RoutingDecision(b: ChatBody, env: Env, search: (string, nat) -> Result<seq<string>>,
                        invoke: ModelCall -> Result<ModelContent>)
    requires SupabaseConfigured(env)
    ensures var (reply, effects) := Handle(Success(b), env, search, invoke);
      && (effects[1].call.GeminiCall? <==> Truthy(b.image) || Truthy(b.useComplexModel))
      && (reply.status == 200 ==>
           reply.provider == (if Truthy(b.image) || Truthy(b.useComplexModel)
                              then "Gemini 2.5 Flash" else "Groq (Llama 3.3)"))
  {
  }

  /**
   * On the Gemini path the text part comes first and an image part follows only
   * when an image is present; the Groq path sends the message as plain text.
   */
  lemma GeminiContentParts(b: ChatBody, ctx: string)
    ensures var call := ModelCallFor(b, ctx);
      && (call.GeminiCall? ==> call.parts[0] == TextPart(b.message)
                               && (|call.parts| == 2 <==> Truthy(b.image)))
      && (call.GroqCall? ==> call.human == b.message)
  {
  }

  /**
   * An empty-string image counts as no image: with the toggle off, Gemini is
   * chosen exactly for a non-empty image string; with it on, whatever the image.
   */
  lemma EmptyImageIsNoImage(m: string, h: seq<Message>, s: string, image: JsValue)
    ensures UsesGemini(ChatBody(m, h, Bool(false), Str(s))) <==> s != ""
    ensures !UsesGemini(ChatBody(m, h, Bool(false), Undefined))
    ensures UsesGemini(ChatBody(m, h, Bool(true), image))
  {
  }

  /** `history` is read from the body but has no effect on the reply or the calls. */
  lemma HistoryIgnored(b: ChatBody, h: seq<Message>, env: Env,
                       search: (string, nat) -> Result<seq<string>>,
                       invoke: ModelCall -> Result<ModelContent>)
    ensures Handle(Success(b), env, search, invoke)
         == Handle(Success(b.(history := h)), env, search, invoke)
  {
  }

  /**
   * Every reply is either a 200 whose provider is a `ModelProvider` label and
   * whose text is the model's content (string content unchanged), or a 500 with
   * provider `System` and text `System Error: <message>`.
   */
  lemma ReplyEnvelope(body: Result<ChatBody>, env: Env,
                      search: (string, nat) -> Result<seq<string>>,
                      invoke: ModelCall -> Result<ModelContent>)
    ensures var (reply, effects) := Handle(body, env, search, invoke);
      || (&& reply.status == 200 && IsProviderLabel(reply.provider)
          && |effects| == 2
          && invoke(effects[1].call).Success?
          && reply.text == ResponseText(invoke(effects[1].call).value))
      || (&& reply.status == 500 && reply.provider == "System" && !IsProviderLabel(reply.provider)
          && StartsWith(reply.text, "System Error: "))
  {
  }
}
