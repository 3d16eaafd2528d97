/**
 * The server-side ingestion endpoint: the password, text and environment checks
 * in that order, then a split of the text into chunks and a sequential upload
 * loop that counts uploads and stops at the first failure.
 *
 * The text splitter and the vector store are oracles. The route reports the
 * external calls it makes, in order, as `Effect`s; a `Sleep` stands for the
 * rate-limiting delay.
 */
module IngestRoute {
  import opened Wrappers
  import opened Runtime

  /** The JSON body the route destructures. */
  datatype IngestBody = IngestBody(text: JsValue, password: JsValue)

  /** `{success: true, message}` or `{error}`. */
  datatype IngestPayload = Uploaded(message: string) | ErrorBody(error: string)

  datatype IngestReply = IngestReply(status: nat, payload: IngestPayload)

  /** An external call the route makes. */
  datatype Effect =
    | SplitText(text: JsValue, chunkSize: nat, chunkOverlap: nat)
    | AddDocument(chunk: string)
    | Sleep(ms: nat)

  const AdminPassword := "admin123"
  const ChunkSize: nat := 1000
  const ChunkOverlap: nat := 200
  const UploadDelayMs: nat := 500

  const MessagePrefix := "Successfully processed and uploaded "
  const MessageSuffix := " chunks to the Knowledge Base."

  const Unauthorized := IngestReply(401, ErrorBody("Unauthorized"))
  const NoText := IngestReply(400, ErrorBody("No text provided"))
  const Misconfigured := IngestReply(500, ErrorBody("Server misconfiguration (missing env vars)"))

  /** The Supabase and Google variables are all set. */
  predicate EnvReady(env: Env)
  {
    Present(env.supabaseUrl) && Present(env.supabasePrivateKey) && Present(env.googleApiKey)
  }

  /** The body passes all three checks. */
  predicate Accepted(b: IngestBody, env: Env)
  {
    b.password == Str(AdminPassword) && Truthy(b.text) && EnvReady(env)
  }

  /** The success message for `count` uploaded chunks. */
  function SuccessMessage(count: nat): string
  {
    MessagePrefix + NatToDecimal(count) + MessageSuffix
  }

  /** The calls of a run that uploads `chunks` one by one, each followed by the delay. */
  function UploadTrace(chunks: seq<string>): (t: seq<Effect>)
    ensures |t| == 2 * |chunks|
  {
    if chunks == [] then []
    else UploadTrace(chunks[..|chunks| - 1]) + [AddDocument(chunks[|chunks| - 1]), Sleep(UploadDelayMs)]
  }

  /** The chunks handed to the vector store, in call order. */
  function Attempted(effects: seq<Effect>): seq<string>
  {
    if effects == [] then []
    else Attempted(effects[..|effects| - 1])
         + (if effects[|effects| - 1].AddDocument? then [effects[|effects| - 1].chunk] else [])
  }

  /** The number of delays in `effects`. */
  function Sleeps(effects: seq<Effect>): nat
  {
    if effects == [] then 0
    else Sleeps(effects[..|effects| - 1]) + (if effects[|effects| - 1].Sleep? then 1 else 0)
  }

  /**
   * The position of the first chunk whose upload throws, searching from `from`;
   * `|chunks|` when none does.
   */
  function FirstFailure(chunks: seq<string>, add: (nat, string) -> Attempt, from: nat): (k: nat)
    requires from <= |chunks|
    ensures from <= k <= |chunks|
    ensures forall i :: from <= i < k ==> add(i, chunks[i]).Done?
    ensures k < |chunks| ==> add(k, chunks[k]).Threw?
    decreases |chunks| - from
  {
    if from == |chunks| then from
    else if add(from, chunks[from]).Threw? then from
    else FirstFailure(chunks, add, from + 1)
  }

  /** `POST /api/ingest`. */
  method Post(
    body: Result<IngestBody>,
    env: Env,
    split: (JsValue, nat, nat) -> Result<seq<string>>,
    add: (nat, string) -> Attempt)
    returns (reply: IngestReply, effects: seq<Effect>)
    ensures body.Failure? ==> reply == IngestReply(500, ErrorBody(body.error)) && effects == []
    ensures body.Success? && body.value.password != Str(AdminPassword)
      ==> reply == Unauthorized && effects == []
    ensures body.Success? && body.value.password == Str(AdminPassword) && !Truthy(body.value.text)
      ==> reply == NoText && effects == []
    ensures body.Success? && body.value.password == Str(AdminPassword) && Truthy(body.value.text)
            && !EnvReady(env)
      ==> reply == Misconfigured && effects == []
    ensures body.Success? && Accepted(body.value, env)
      ==> var text := body.value.text;
          var splitCall := SplitText(text, ChunkSize, ChunkOverlap);
          match split(text, ChunkSize, ChunkOverlap)
          case Failure(e) =>
            reply == IngestReply(500, ErrorBody(e)) && effects == [splitCall]
          case Success(docs) =>
            var k := FirstFailure(docs, add, 0);
            if k == |docs| then
              reply == IngestReply(200, Uploaded(SuccessMessage(|docs|)))
              && effects == [splitCall] + UploadTrace(docs)
            else
              reply == IngestReply(500, ErrorBody(add(k, docs[k]).message))
              && effects == [splitCall] + UploadTrace(docs[..k]) + [AddDocument(docs[k])]
  {
    effects := [];
    if body.Failure? {
      reply := IngestReply(500, ErrorBody(body.error));
      return;
    }
    var text, password := body.value.text, body.value.password;
    if password != Str(AdminPassword) {
      reply := Unauthorized;
      return;
    }
    if !Truthy(text) {
      reply := NoText;
      return;
    }
    if !Present(env.supabaseUrl) || !Present(env.supabasePrivateKey) || !Present(env.googleApiKey) {
      reply := Misconfigured;
      return;
    }

    effects := [SplitText(text, ChunkSize, ChunkOverlap)];
    var splitResult := split(text, ChunkSize, ChunkOverlap);
    if splitResult.Failure? {
      reply := IngestReply(500, ErrorBody(splitResult.error));
      return;
    }
    var docs := splitResult.value;

    var uploadedCount: nat := 0;
    while uploadedCount < |docs|
      invariant uploadedCount <= |docs|
      invariant forall j :: 0 <= j < uploadedCount ==> add(j, docs[j]).Done?
      invariant effects == [SplitText(text, ChunkSize, ChunkOverlap)] + UploadTrace(docs[..uploadedCount])
    {
      var doc := docs[uploadedCount];
      effects := effects + [AddDocument(doc)];
      var outcome := add(uploadedCount, doc);
      if outcome.Threw? {
        FirstFailureIs(docs, add, uploadedCount);
        reply := IngestReply(500, ErrorBody(outcome.message));
        return;
      }
      effects := effects + [Sleep(UploadDelayMs)];
      assert docs[..uploadedCount + 1][..uploadedCount] == docs[..uploadedCount];
      uploadedCount := uploadedCount + 1;
    }
    assert docs[..uploadedCount] == docs;
    FirstFailureIs(docs, add, |docs|);
    reply := IngestReply(200, Uploaded(SuccessMessage(uploadedCount)));
  }

  // ---------------------------------------------------------------------------
  // Properties
  // ---------------------------------------------------------------------------

  /** The first failure is the first position whose upload throws (or the end). */
  lemma {:induction false} FirstFailureIs(chunks: seq<string>, add: (nat, string) -> Attempt, k: nat)
    requires k <= |chunks|
    requires forall i :: 0 <= i < k ==> add(i, chunks[i]).Done?
    requires k < |chunks| ==> add(k, chunks[k]).Threw?
    ensures FirstFailure(chunks, add, 0) == k
  {
    FirstFailureFrom(chunks, add, 0, k);
  }

  lemma {:induction false} FirstFailureFrom(chunks: seq<string>, add: (nat, string) -> Attempt, from: nat, k: nat)
    requires from <= k <= |chunks|
    requires forall i :: from <= i < k ==> add(i, chunks[i]).Done?
    requires k < |chunks| ==> add(k, chunks[k]).Threw?
    ensures FirstFailure(chunks, add, from) == k
    decreases k - from
  {
    if from < k {
      FirstFailureFrom(chunks, add, from + 1, k);
    }
  }

  /** The chunks are handed to the store one at a time, in split order, each exactly once. */
  lemma {:induction false} UploadsInSplitOrder(chunks: seq<string>)
    ensures Attempted(UploadTrace(chunks)) == chunks
    ensures Sleeps(UploadTrace(chunks)) == |chunks|
  {
    if chunks != [] {
      var init := chunks[..|chunks| - 1];
      var t := UploadTrace(init);
      UploadsInSplitOrder(init);
      var a, s := AddDocument(chunks[|chunks| - 1]), Sleep(UploadDelayMs);
      assert UploadTrace(chunks) == (t + [a]) + [s];
      assert (t + [a]) + [s] == t + [a, s];
      assert (t + [a, s])[..|t| + 1] == t + [a];
      assert (t + [a])[..|t|] == t;
      assert init + [chunks[|chunks| - 1]] == chunks;
    }
  }

  /** On a failure at position `k`, the earlier chunks stay uploaded and the failed one was attempted. */
  lemma AbortKeepsEarlierUploads(chunks: seq<string>, k: nat)
    requires k < |chunks|
    ensures Attempted(UploadTrace(chunks[..k]) + [AddDocument(chunks[k])]) == chunks[..k + 1]
    ensures Sleeps(UploadTrace(chunks[..k]) + [AddDocument(chunks[k])]) == k
  {
    var t := UploadTrace(chunks[..k]);
    UploadsInSplitOrder(chunks[..k]);
    assert (t + [AddDocument(chunks[k])])[..|t|] == t;
    assert chunks[..k] + [chunks[k]] == chunks[..k + 1];
  }

  /** The success message embeds the upload count, which can be read back from it. */
  lemma {:induction false} SuccessMessageCount(count: nat)
    ensures var m := SuccessMessage(count);
      && StartsWith(m, MessagePrefix) && EndsWith(m, MessageSuffix)
      && IsDigits(m[|MessagePrefix|..|m| - |MessageSuffix|])
      && DecimalValue(m[|MessagePrefix|..|m| - |MessageSuffix|]) == count
  {
    var m := SuccessMessage(count);
    var d := NatToDecimal(count);
    assert m[|MessagePrefix|..|m| - |MessageSuffix|] == d;
    DecimalRoundTrip(count);
  }

  /** Different counts give different success messages. */
  lemma SuccessMessageInjective(a: nat, b: nat)
    requires SuccessMessage(a) == SuccessMessage(b)
    ensures a == b
  {
    SuccessMessageCount(a);
    SuccessMessageCount(b);
  }

  /**
   * A wrong password never passes the `Accepted` gate, whatever the text and
   * the environment; `Post` answers it with 401 and makes no call.
   */
  lemma PasswordCheckedFirst(text: JsValue, password: JsValue, env: Env)
    requires password != Str(AdminPassword)
    ensures !Accepted(IngestBody(text, password), env)
  {
  }

  /**
   * With the right password and the environment set, a string text passes
   * exactly when it is non-empty: only a falsy value is rejected, so a
   * whitespace-only text is accepted and split.
   */
  lemma WhitespaceTextAccepted(s: string, env: Env)
    requires EnvReady(env)
    ensures Accepted(IngestBody(Str(s), Str(AdminPassword)), env) <==> s != ""
    ensures IsBlank(s) && s != "" ==> Accepted(IngestBody(Str(s), Str(AdminPassword)), env)
  {
  }
}
