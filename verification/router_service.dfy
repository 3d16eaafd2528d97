/**
 * The front-end bridge to the chat endpoint: it posts the request fields as the
 * JSON body, passes a successful reply through, and replaces every failure
 * with a fixed fallback answer labelled as Gemini. `fetch` is an oracle from
 * the body the endpoint receives to the response.
 */
module RouterService {
  import opened Wrappers
  import opened Runtime
  import opened Types
  import ChatRoute

  /** The reply body the bridge reads: `data.text` and `data.provider`. */
  datatype WireReply = WireReply(text: string, provider: string)

  /** A thrown network error, or a response with its HTTP status and parsed body. */
  datatype FetchResult = NetworkError(message: string) | HttpResponse(status: nat, json: Result<WireReply>)

  const FallbackText := "I'm having trouble connecting to the server. Please check your connection."

  /**
   * The body the endpoint receives: `JSON.stringify` drops an undefined
   * `image`, which the endpoint then reads as undefined.
   */
  function WireBody(req: RouterRequest): (body: ChatRoute.ChatBody)
    ensures body.message == req.message && body.history == req.history
    ensures Truthy(body.useComplexModel) <==> req.useComplexModel
    ensures Truthy(body.image) <==> Present(req.image)
  {
    ChatRoute.ChatBody(req.message, req.history, Bool(req.useComplexModel), FromOption(req.image))
  }

  /** `response.ok`. */
  predicate Ok(status: nat)
  {
    200 <= status <= 299
  }

  function Fallback(): (r: RouterResponse)
    ensures r.provider == Label(Gemini)
  {
    RouterResponse(FallbackText, Label(Gemini))
  }

  /** `routeChatRequest(request)`: never throws. */
  function RouteChatRequest(req: RouterRequest, fetch: ChatRoute.ChatBody -> FetchResult): (r: RouterResponse)
    ensures var outcome := fetch(WireBody(req));
      && (outcome.HttpResponse? && Ok(outcome.status) && outcome.json.Success? ==>
            r == RouterResponse(outcome.json.value.text, outcome.json.value.provider))
      && (!(outcome.HttpResponse? && Ok(outcome.status) && outcome.json.Success?) ==> r == Fallback())
  {
    match fetch(WireBody(req))
    case NetworkError(_) => Fallback()
    case HttpResponse(status, json) =>
      if !Ok(status) then Fallback()
      else match json
        case Failure(_) => Fallback()
        case Success(data) => RouterResponse(data.text, data.provider)
  }

  /** The HTTP response the endpoint's reply becomes. */
  function Deliver(reply: ChatRoute.ChatReply): FetchResult
  {
    HttpResponse(reply.status, Success(WireReply(reply.text, reply.provider)))
  }

  // ---------------------------------------------------------------------------
  // Properties, with the bridge wired to the chat endpoint
  // ---------------------------------------------------------------------------

  /** The endpoint routes to Gemini exactly when the toggle is on or a non-empty image is attached. */
  lemma RoutingOverTheWire(req: RouterRequest)
    ensures ChatRoute.UsesGemini(WireBody(req)) <==> req.useComplexModel || Present(req.image)
  {
  }

  /**
   * End to end, the page receives the model's answer with the label of the
   * provider that produced it, or the fallback: the endpoint's `System` error
   * replies never reach the page.
   */
  lemma EndToEnd(req: RouterRequest, env: Env,
                 search: (string, nat) -> Result<seq<string>>,
                 invoke: ChatRoute.ModelCall -> Result<ChatRoute.ModelContent>)
    ensures var r := RouteChatRequest(req, b => Deliver(ChatRoute.Handle(Success(b), env, search, invoke).0));
      var reply := ChatRoute.Handle(Success(WireBody(req)), env, search, invoke).0;
      && (reply.status == 200 ==> r == RouterResponse(reply.text, reply.provider))
      && (reply.status != 200 ==> r == Fallback())
      && IsProviderLabel(r.provider)
      && (r != Fallback() ==>
            r.provider == Label(if req.useComplexModel || Present(req.image) then Gemini else Groq))
  {
    var reply := ChatRoute.Handle(Success(WireBody(req)), env, search, invoke).0;
    ChatRoute.ReplyEnvelope(Success(WireBody(req)), env, search, invoke);
    ProviderRoundTrip(Gemini);
    ProviderRoundTrip(Groq);
    if reply.status == 200 && RouteChatRequest(req, b => Deliver(ChatRoute.Handle(Success(b), env, search, invoke).0)) != Fallback() {
      ChatRoute.RoutingDecision(WireBody(req), env, search, invoke);
    }
  }
}
