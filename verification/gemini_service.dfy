/**
 * The client-side Gemini call: the base64 payload of an image data URL, the
 * ordered parts of the user turn, the prompt string, and the fallback answers
 * that replace every failure. The SDK call `generateContent` is an oracle from
 * the exact request to the response text or the message it throws with.
 */
module GeminiService {
  import opened Wrappers
  import opened Runtime
  import opened Types

  /** A part of the user turn. */
  datatype Part = InlineData(mimeType: string, data: string) | TextPart(text: string)

  datatype Content = Content(role: string, parts: seq<Part>)

  /** The arguments of `generateContent` that the model keeps (the temperature is left out). */
  datatype GenerateRequest = GenerateRequest(model: string, contents: seq<Content>, systemInstruction: string)

  /** `response.text` (absent when the reply has no text), or the message the call threw with. */
  datatype GenerateOutcome = Generated(text: Option<string>) | GenerateFailed(message: string)

  const ModelName := "gemini-2.5-flash"
  const ImageMimeType := "image/jpeg"

  const SystemInstruction :=
    "You are a Senior Financial Analyst for the Myanmar market. \n"
    + "    Use the provided CONTEXT to answer questions accurately. \n"
    + "    If the context is irrelevant, rely on your general knowledge but mention the lack of specific current data.\n"
    + "    You are in \"Deep Analysis\" mode. Provide detailed, structured reasoning."

  const NoTextAnswer := "I analyzed the data but could not generate a textual response."
  const ErrorAnswer :=
    "I encountered an error while performing deep analysis with Gemini. Please check your API key or connection."

  /** `image.split(',')[1] || image`: the segment after the first comma, up to the next one, if non-empty. */
  function Base64Data(image: string): (r: string)
    ensures ',' !in image ==> r == image
    ensures r == image || ',' !in r
  {
    var segments := Split(image, ',');
    assert ',' !in image ==> segments == [image] by {
      if ',' !in image { SplitNoSeparator(image, ','); }
    }
    if |segments| > 1 && segments[1] != "" then segments[1] else image
  }

  /** The text part: the context, a blank line, then the question. */
  function FullPrompt(context: string, prompt: string): string
  {
    context + "\n\nUser Question: " + prompt
  }

  /** The parts of the user turn: the image first when there is one, the text always last. */
  function TurnParts(prompt: string, context: string, image: Option<string>): (parts: seq<Part>)
    ensures |parts| == (if Present(image) then 2 else 1)
    ensures parts[|parts| - 1] == TextPart(FullPrompt(context, prompt))
    ensures Present(image) ==> parts[0] == InlineData("image/jpeg", Base64Data(image.value))
  {
    if Present(image) then [InlineData(ImageMimeType, Base64Data(image.value)), TextPart(FullPrompt(context, prompt))]
    else [TextPart(FullPrompt(context, prompt))]
  }

  /** The request sent for a turn: one user content, the fixed model and system instruction. */
  function RequestFor(prompt: string, context: string, image: Option<string>): GenerateRequest
  {
    GenerateRequest(ModelName, [Content("user", TurnParts(prompt, context, image))], SystemInstruction)
  }

  /** The answer for an outcome: the text if non-empty, otherwise one of the two fixed fallbacks. */
  function Answer(outcome: GenerateOutcome): (r: string)
    ensures r != ""
    ensures outcome.GenerateFailed? ==> r == ErrorAnswer
    ensures outcome.Generated? && !Present(outcome.text) ==> r == NoTextAnswer
    ensures outcome.Generated? && Present(outcome.text) ==> r == outcome.text.value
  {
    match outcome
    case GenerateFailed(_) => ErrorAnswer
    case Generated(text) => if Present(text) then text.value else NoTextAnswer
  }

  /** Builds `contents.parts` by successive pushes. */
  method BuildParts(prompt: string, context: string, image: Option<string>) returns (parts: seq<Part>)
    ensures parts == TurnParts(prompt, context, image)
  {
    var fullPrompt := FullPrompt(context, prompt);
    parts := [];
    if image.Some? && image.value != "" {
      var base64Data := Base64Data(image.value);
      parts := parts + [InlineData(ImageMimeType, base64Data)];
    }
    parts := parts + [TextPart(fullPrompt)];
  }

  /** `callGemini`: never throws; every failure becomes a fixed answer. `history` is not used. */
  method CallGemini(
    prompt: string,
    context: string,
    history: seq<Message>,
    image: Option<string>,
    generate: GenerateRequest -> GenerateOutcome)
    returns (answer: string)
    ensures answer == Answer(generate(RequestFor(prompt, context, image)))
  {
    var parts := BuildParts(prompt, context, image);
    var contents := Content("user", parts);
    var response := generate(GenerateRequest(ModelName, [contents], SystemInstruction));
    if response.GenerateFailed? {
      return ErrorAnswer;
    }
    if response.text.Some? && response.text.value != "" {
      return response.text.value;
    }
    return NoTextAnswer;
  }

  // ---------------------------------------------------------------------------
  // Properties
  // ---------------------------------------------------------------------------

  /**
   * For a data URL `data:<mediatype>[;base64],<data>` (RFC 2397, section 3)
   * with a non-empty payload, the image data is exactly the payload; the
   * media type in the prefix is ignored and the mime type sent is always
   * `image/jpeg`.
   */
  lemma DataUrlPayload(mediaType: string, payload: string)
    requires ',' !in mediaType && ',' !in payload && payload != ""
    ensures Base64Data("data:" + mediaType + "," + payload) == payload
    ensures TurnParts("", "", Some("data:" + mediaType + "," + payload))[0] == InlineData("image/jpeg", payload)
  {
    var head := "data:" + mediaType;
    assert ',' !in head by {
      assert forall i :: 0 <= i < |head| ==> head[i] == ("data:" + mediaType)[i];
      assert ',' !in "data:";
    }
    var rest := [','] + payload;
    assert "data:" + mediaType + "," + payload == head + rest;
    SplitPrefix(head, rest, ',');
    assert rest[1..] == payload;
    SplitNoSeparator(payload, ',');
  }

  /**
   * `split(',')[1]` is the second comma-separated segment: for a string made
   * of comma-free segments, the result is the second segment when it is
   * non-empty, and the whole string otherwise.
   */
  lemma SecondSegment(segments: seq<string>)
    requires |segments| >= 2
    requires forall i :: 0 <= i < |segments| ==> ',' !in segments[i]
    ensures var image := Join(segments, [',']);
      Base64Data(image) == if segments[1] != "" then segments[1] else image
  {
    SplitJoin(segments, ',');
  }
}
