/**
 * The chat page (`Home`): its React state as the fields of a class, and its
 * handlers as methods. `handleSend` awaits the router bridge; the part before
 * the await is `BeginSend`, the part after it is `FinishSend`, and `HandleSend`
 * runs both around the bridge. The clock readings used for message ids and
 * timestamps are parameters.
 */
module ChatPage {
  import opened Wrappers
  import opened Runtime
  import opened Types
  import ChatRoute
  import RouterService

  /** `handleSend`'s early return: nothing to send (blank text and no image), or a reply pending. */
  predicate SendBlocked(input: string, selectedImage: Option<string>, isLoading: bool)
  {
    (Trim(input) == "" && !Present(selectedImage)) || isLoading
  }

  /** `selectedImage || undefined`: an empty image counts as none. */
  function ImageToSend(selectedImage: Option<string>): (r: Option<string>)
    ensures r.Some? <==> Present(selectedImage)
    ensures r.Some? ==> r == selectedImage
  {
    if Present(selectedImage) then selectedImage else None
  }

  /** The user's message: the raw input (not trimmed), id and timestamp from the clock reading `sentAt`. */
  function UserMessage(input: string, selectedImage: Option<string>, sentAt: nat): (m: Message)
    ensures m.sender == User && m.text == input && m.provider == None
  {
    Message(NatToDecimal(sentAt), input, User, sentAt, None, None, ImageToSend(selectedImage))
  }

  /** The AI message for a response; its id is the clock reading `repliedAt` plus one. */
  function AiMessage(response: RouterResponse, repliedAt: nat): (m: Message)
    ensures m.sender == Ai && m.text == response.text && m.provider == Some(response.provider)
    ensures m.image == None
  {
    Message(NatToDecimal(repliedAt + 1), response.text, Ai, repliedAt, Some(response.provider), None, None)
  }

  /** What the page hands to the bridge: the history is the log as it was before this turn. */
  function RequestFor(input: string, history: seq<Message>, deepThinkMode: bool,
                      selectedImage: Option<string>): (r: RouterRequest)
    ensures r.message == input && r.history == history && r.useComplexModel == deepThinkMode
    ensures r.image == ImageToSend(selectedImage)
  {
    RouterRequest(input, history, deepThinkMode, ImageToSend(selectedImage))
  }

  class Home {
    var input: string
    var messages: seq<Message>
    var isLoading: bool
    var deepThinkMode: bool
    var selectedImage: Option<string>

    /**
     * The log alternates user and AI messages, starting with a user message,
     * and a reply is pending exactly when the last message is the user's.
     */
    ghost predicate Valid()
      reads this
    {
      && (isLoading <==> |messages| % 2 == 1)
      && forall i :: 0 <= i < |messages| ==> messages[i].sender == (if i % 2 == 0 then User else Ai)
    }

    constructor ()
      ensures input == "" && messages == [] && !isLoading && !deepThinkMode && selectedImage == None
      ensures Valid()
    {
      input := "";
      messages := [];
      isLoading := false;
      deepThinkMode := false;
      selectedImage := None;
    }

    /** The text box's `onChange`. */
    method SetInput(text: string)
      requires Valid()
      modifies this
      ensures Valid()
      ensures input == text
      ensures messages == old(messages) && isLoading == old(isLoading)
      ensures deepThinkMode == old(deepThinkMode) && selectedImage == old(selectedImage)
    {
      input := text;
    }

    /** The deep-analysis toggle's `onChange`. */
    method SetDeepThinkMode(enabled: bool)
      requires Valid()
      modifies this
      ensures Valid()
      ensures deepThinkMode == enabled
      ensures input == old(input) && messages == old(messages) && isLoading == old(isLoading)
      ensures selectedImage == old(selectedImage)
    {
      deepThinkMode := enabled;
    }

    /** The file reader's `onloadend`, with the data URL it read. */
    method SelectImage(dataUrl: string)
      requires Valid()
      modifies this
      ensures Valid()
      ensures selectedImage == Some(dataUrl)
      ensures input == old(input) && messages == old(messages) && isLoading == old(isLoading)
      ensures deepThinkMode == old(deepThinkMode)
    {
      selectedImage := Some(dataUrl);
    }

    /** `clearImage`. */
    method ClearImage()
      requires Valid()
      modifies this
      ensures Valid()
      ensures selectedImage == None
      ensures input == old(input) && messages == old(messages) && isLoading == old(isLoading)
      ensures deepThinkMode == old(deepThinkMode)
    {
      selectedImage := None;
    }

    /**
     * `handleSend` up to the await: unless blocked, log the user's message,
     * clear the input and the image, mark a reply as pending, and return the
     * request for the bridge.
     */
    method BeginSend(sentAt: nat) returns (request: Option<RouterRequest>)
      requires Valid()
      modifies this
      ensures Valid()
      ensures SendBlocked(old(input), old(selectedImage), old(isLoading)) ==>
        && request == None
        && input == old(input) && messages == old(messages) && isLoading == old(isLoading)
        && deepThinkMode == old(deepThinkMode) && selectedImage == old(selectedImage)
      ensures !SendBlocked(old(input), old(selectedImage), old(isLoading)) ==>
        && request == Some(RequestFor(old(input), old(messages), old(deepThinkMode), old(selectedImage)))
        && messages == old(messages) + [UserMessage(old(input), old(selectedImage), sentAt)]
        && input == "" && selectedImage == None && isLoading
        && deepThinkMode == old(deepThinkMode)
    {
      if (Trim(input) == "" && !(selectedImage.Some? && selectedImage.value != "")) || isLoading {
        return None;
      }
      var userMsg := UserMessage(input, selectedImage, sentAt);
      var history := messages;
      messages := messages + [userMsg];
      input := "";
      isLoading := true;
      var imageToSend := selectedImage;
      ClearImage();
      request := Some(RouterRequest(userMsg.text, history, deepThinkMode, ImageToSend(imageToSend)));
    }

    /** `handleSend` after the await: log the AI message and clear the pending flag. */
    method FinishSend(response: RouterResponse, repliedAt: nat)
      requires Valid() && isLoading
      modifies this
      ensures Valid()
      ensures messages == old(messages) + [AiMessage(response, repliedAt)]
      ensures !isLoading
      ensures input == old(input) && deepThinkMode == old(deepThinkMode) && selectedImage == old(selectedImage)
    {
      messages := messages + [AiMessage(response, repliedAt)];
      isLoading := false;
    }

    /**
     * `handleSend` as a whole: a send that is not blocked adds the user's
     * message and the bridge's answer to it, in that order. The bridge never
     * throws, so the catch branch is never taken.
     */
    method HandleSend(fetch: ChatRoute.ChatBody -> RouterService.FetchResult, sentAt: nat, repliedAt: nat)
      requires Valid()
      modifies this
      ensures Valid()
      ensures SendBlocked(old(input), old(selectedImage), old(isLoading)) ==>
        && input == old(input) && messages == old(messages) && isLoading == old(isLoading)
        && deepThinkMode == old(deepThinkMode) && selectedImage == old(selectedImage)
      ensures !SendBlocked(old(input), old(selectedImage), old(isLoading)) ==>
        var request := RequestFor(old(input), old(messages), old(deepThinkMode), old(selectedImage));
        && messages == old(messages) + [UserMessage(old(input), old(selectedImage), sentAt),
                                        AiMessage(RouterService.RouteChatRequest(request, fetch), repliedAt)]
        && input == "" && selectedImage == None && !isLoading
        && deepThinkMode == old(deepThinkMode)
    {
      var request := BeginSend(sentAt);
      if request.Some? {
        var response := RouterService.RouteChatRequest(request.value, fetch);
        FinishSend(response, repliedAt);
      }
    }

    /** `handleKeyDown`: Enter without Shift sends; every other key changes nothing. */
    method HandleKeyDown(key: string, shiftKey: bool,
                         fetch: ChatRoute.ChatBody -> RouterService.FetchResult, sentAt: nat, repliedAt: nat)
      requires Valid()
      modifies this
      ensures Valid()
      ensures !(key == "Enter" && !shiftKey) || SendBlocked(old(input), old(selectedImage), old(isLoading)) ==>
        && input == old(input) && messages == old(messages) && isLoading == old(isLoading)
        && deepThinkMode == old(deepThinkMode) && selectedImage == old(selectedImage)
      ensures key == "Enter" && !shiftKey && !SendBlocked(old(input), old(selectedImage), old(isLoading)) ==>
        var request := RequestFor(old(input), old(messages), old(deepThinkMode), old(selectedImage));
        && messages == old(messages) + [UserMessage(old(input), old(selectedImage), sentAt),
                                        AiMessage(RouterService.RouteChatRequest(request, fetch), repliedAt)]
        && input == "" && selectedImage == None && !isLoading
        && deepThinkMode == old(deepThinkMode)
    {
      if key == "Enter" && !shiftKey {
        HandleSend(fetch, sentAt, repliedAt);
      }
    }
  }

  // ---------------------------------------------------------------------------
  // Properties
  // ---------------------------------------------------------------------------

  /**
   * A send is blocked exactly when a reply is pending, or the input is only
   * whitespace and no non-empty image is selected.
   */
  lemma SendBlockedIff(input: string, selectedImage: Option<string>, isLoading: bool)
    ensures SendBlocked(input, selectedImage, isLoading)
        <==> isLoading || (IsBlank(input) && !Present(selectedImage))
  {
    TrimEmptyIffBlank(input);
  }

  /**
   * With no reply pending, a non-empty image can be sent with any text, even
   * none; and a text with a character other than white space (at `k`) can be
   * sent with or without an image, whatever white space surrounds it.
   */
  lemma ImageAloneSends(input: string, image: string, selectedImage: Option<string>, k: nat)
    requires image != ""
    ensures !SendBlocked(input, Some(image), false)
    ensures k < |input| && !IsJsWhitespace(input[k]) ==> !SendBlocked(input, selectedImage, false)
  {
    SendBlockedIff(input, Some(image), false);
    SendBlockedIff(input, selectedImage, false);
  }

  /**
   * With a clock that does not go back, the user's and the AI's messages of
   * one turn get different ids. This holds within a turn only: see
   * `IdsCollideAcrossTurns`.
   */
  lemma DistinctIds(input: string, selectedImage: Option<string>, response: RouterResponse,
                    sentAt: nat, repliedAt: nat)
    requires sentAt <= repliedAt
    ensures UserMessage(input, selectedImage, sentAt).id != AiMessage(response, repliedAt).id
  {
    DecimalRoundTrip(sentAt);
    DecimalRoundTrip(repliedAt + 1);
  }

  /**
   * Ids are not unique across turns: the AI message stamped at `t` gets the id
   * `t + 1`, which is also the id of a user message sent one millisecond later,
   * so the two share a React key.
   */
  lemma IdsCollideAcrossTurns(input: string, selectedImage: Option<string>, response: RouterResponse, t: nat)
    ensures AiMessage(response, t).id == UserMessage(input, selectedImage, t + 1).id
  {
  }

  /**
   * End to end with the chat endpoint: a turn that fails at the endpoint shows
   * the bridge's fallback, labelled Gemini; a turn the endpoint answers shows
   * the model's text labelled with the provider that produced it.
   */
  lemma TurnAnswer(input: string, history: seq<Message>, deepThinkMode: bool, selectedImage: Option<string>,
                   env: Env, search: (string, nat) -> Result<seq<string>>,
                   invoke: ChatRoute.ModelCall -> Result<ChatRoute.ModelContent>, repliedAt: nat)
    ensures var request := RequestFor(input, history, deepThinkMode, selectedImage);
      var fetch := b => RouterService.Deliver(ChatRoute.Handle(Success(b), env, search, invoke).0);
      var reply := ChatRoute.Handle(Success(RouterService.WireBody(request)), env, search, invoke).0;
      var m := AiMessage(RouterService.RouteChatRequest(request, fetch), repliedAt);
      && (reply.status == 200 ==> m.text == reply.text && m.provider == Some(reply.provider))
      && (reply.status != 200 ==> m.text == RouterService.FallbackText && m.provider == Some(Label(Gemini)))
      && m.provider.Some? && IsProviderLabel(m.provider.value)
  {
    var request := RequestFor(input, history, deepThinkMode, selectedImage);
    RouterService.EndToEnd(request, env, search, invoke);
  }
}
