/**
 * The admin page: its React state as the fields of a class, the login and
 * logout transitions, and the upload handler. `handleTrain` awaits the ingest
 * endpoint; the part before the await is `BeginTrain`, the part after it is
 * `FinishTrain`, and `HandleTrain` runs both around the `fetch` oracle.
 */
module AdminPage {
  import opened Wrappers
  import opened Runtime
  import IngestRoute

  /** The password the login form compares against. */
  const AdminPassword := "admin123"
  const ProcessingStatus := "Processing..."

  /** The fields of the reply body the page reads: `data.message` and `data.error`. */
  datatype AdminJson = AdminJson(message: Option<string>, error: Option<string>)

  /**
   * What the awaited calls give: `fetch` threw, or a response with its `ok`
   * flag and the parsed body (or the message `response.json()` threw with).
   */
  datatype TrainResponse = NetworkError(message: string) | HttpResponse(ok: bool, json: Result<AdminJson>)

  /** The status line after the upload settles. */
  function StatusFor(outcome: TrainResponse): (s: string)
    ensures outcome.NetworkError? ==> s == "Network Error: " + outcome.message
    ensures outcome.HttpResponse? && outcome.json.Failure? ==> s == "Network Error: " + outcome.json.error
    ensures outcome.HttpResponse? && outcome.json.Success? && outcome.ok
      ==> s == "Success: " + Interpolate(outcome.json.value.message)
    ensures outcome.HttpResponse? && outcome.json.Success? && !outcome.ok
      ==> s == "Error: " + Interpolate(outcome.json.value.error)
  {
    match outcome
    case NetworkError(message) => "Network Error: " + message
    case HttpResponse(ok, json) =>
      match json
      case Failure(message) => "Network Error: " + message
      case Success(data) =>
        if ok then "Success: " + Interpolate(data.message) else "Error: " + Interpolate(data.error)
  }

  /** The text box is cleared only after an ok response with a readable body. */
  predicate ClearsText(outcome: TrainResponse)
  {
    outcome.HttpResponse? && outcome.ok && outcome.json.Success?
  }

  /** The status line is shown in red when it includes `Error`. */
  predicate ShowsError(status: string)
  {
    Includes(status, "Error")
  }

  class Admin {
    var password: string
    var isAuthenticated: bool
    var textData: string
    var status: string
    var isProcessing: bool

    /** While an upload is in flight, the status line says so. */
    predicate Valid()
      reads this
    {
      isProcessing ==> status == ProcessingStatus
    }

    constructor ()
      ensures password == "" && !isAuthenticated && textData == "" && status == "" && !isProcessing
      ensures Valid()
    {
      password := "";
      isAuthenticated := false;
      textData := "";
      status := "";
      isProcessing := false;
    }

    /** The password field's `onChange`. */
    method SetPassword(value: string)
      requires Valid()
      modifies this
      ensures Valid()
      ensures password == value
      ensures isAuthenticated == old(isAuthenticated) && textData == old(textData)
      ensures status == old(status) && isProcessing == old(isProcessing)
    {
      password := value;
    }

    /** The text area's `onChange`. */
    method SetTextData(value: string)
      requires Valid()
      modifies this
      ensures Valid()
      ensures textData == value
      ensures password == old(password) && isAuthenticated == old(isAuthenticated)
      ensures status == old(status) && isProcessing == old(isProcessing)
    {
      textData := value;
    }

    /** `handleLogin`: the right password authenticates; a wrong one leaves the page as it was. */
    method HandleLogin()
      requires Valid()
      modifies this
      ensures Valid()
      ensures isAuthenticated == (old(isAuthenticated) || password == AdminPassword)
      ensures password == old(password) && textData == old(textData)
      ensures status == old(status) && isProcessing == old(isProcessing)
    {
      if password == AdminPassword {
        isAuthenticated := true;
      }
    }

    /** The logout button: back to the login form, the typed password kept. */
    method Logout()
      requires Valid()
      modifies this
      ensures Valid()
      ensures !isAuthenticated
      ensures password == old(password) && textData == old(textData)
      ensures status == old(status) && isProcessing == old(isProcessing)
    {
      isAuthenticated := false;
    }

    /**
     * `handleTrain` up to the await: nothing when the text is blank; otherwise
     * mark the upload as in flight and return the body to post.
     */
    method BeginTrain() returns (request: Option<IngestRoute.IngestBody>)
      requires Valid()
      modifies this
      ensures Valid()
      ensures password == old(password) && isAuthenticated == old(isAuthenticated) && textData == old(textData)
      ensures Trim(old(textData)) == "" ==>
        request == None && status == old(status) && isProcessing == old(isProcessing)
      ensures Trim(old(textData)) != "" ==>
        && request == Some(IngestRoute.IngestBody(Str(textData), Str(password)))
        && isProcessing && status == ProcessingStatus
    {
      if Trim(textData) == "" {
        return None;
      }
      isProcessing := true;
      status := ProcessingStatus;
      request := Some(IngestRoute.IngestBody(Str(textData), Str(password)));
    }

    /**
     * `handleTrain` after the await, which runs only once `BeginTrain` has
     * marked the upload in flight: set the status, clear the text on success,
     * and stop processing.
     */
    method FinishTrain(outcome: TrainResponse)
      requires Valid() && isProcessing
      modifies this
      ensures Valid()
      ensures status == StatusFor(outcome)
      ensures textData == (if ClearsText(outcome) then "" else old(textData))
      ensures !isProcessing
      ensures password == old(password) && isAuthenticated == old(isAuthenticated)
    {
      if outcome.NetworkError? {
        status := "Network Error: " + outcome.message;
      } else if outcome.json.Failure? {
        status := "Network Error: " + outcome.json.error;
      } else if outcome.ok {
        status := "Success: " + Interpolate(outcome.json.value.message);
        textData := "";
      } else {
        status := "Error: " + Interpolate(outcome.json.value.error);
      }
      isProcessing := false;
    }

    /**
     * `handleTrain` as a whole. It has no guard of its own against a second
     * upload in flight; only the disabled button prevents one.
     */
    method HandleTrain(fetch: IngestRoute.IngestBody -> TrainResponse)
      requires Valid()
      modifies this
      ensures Valid()
      ensures password == old(password) && isAuthenticated == old(isAuthenticated)
      ensures Trim(old(textData)) == "" ==>
        textData == old(textData) && status == old(status) && isProcessing == old(isProcessing)
      ensures Trim(old(textData)) != "" ==>
        var outcome := fetch(IngestRoute.IngestBody(Str(old(textData)), Str(old(password))));
        && status == StatusFor(outcome)
        && textData == (if ClearsText(outcome) then "" else old(textData))
        && !isProcessing
    {
      var request := BeginTrain();
      if request.Some? {
        var outcome := fetch(request.value);
        FinishTrain(outcome);
      }
    }
  }

  // ---------------------------------------------------------------------------
  // Properties
  // ---------------------------------------------------------------------------

  /** The button's `disabled` condition: an upload in flight, or blank text. */
  predicate TrainDisabled(isProcessing: bool, textData: string)
  {
    isProcessing || Trim(textData) == ""
  }

  /** The button is disabled for exactly the blank texts that `handleTrain` ignores, and while processing. */
  lemma TrainDisabledIff(isProcessing: bool, textData: string)
    ensures TrainDisabled(isProcessing, textData) <==> isProcessing || IsBlank(textData)
  {
    TrimEmptyIffBlank(textData);
  }

  /** The password that opens the panel is exactly the one the ingest endpoint accepts. */
  lemma LoginMatchesServer(password: string, text: JsValue)
    ensures password == AdminPassword
        <==> IngestRoute.IngestBody(text, Str(password)).password == Str(IngestRoute.AdminPassword)
  {
  }

  /** The response the page receives for one of the ingest endpoint's replies. */
  function Deliver(reply: IngestRoute.IngestReply): TrainResponse
  {
    var json := match reply.payload
      case Uploaded(message) => AdminJson(Some(message), None)
      case ErrorBody(error) => AdminJson(None, Some(error));
    HttpResponse(200 <= reply.status <= 299, Success(json))
  }

  /** End to end with the ingest endpoint: its success reply becomes `Success: <message>` and clears the text. */
  lemma EndpointSuccess(count: nat)
    ensures var ok := Deliver(IngestRoute.IngestReply(200, IngestRoute.Uploaded(IngestRoute.SuccessMessage(count))));
      StatusFor(ok) == "Success: " + IngestRoute.SuccessMessage(count) && ClearsText(ok)
  {
  }

  /**
   * Each of the endpoint's error replies becomes `Error: <error>`, shown in
   * red, and keeps the text; a wrong password shows `Error: Unauthorized`.
   */
  lemma EndpointError(error: string, code: nat)
    requires !(200 <= code <= 299)
    ensures var failed := Deliver(IngestRoute.IngestReply(code, IngestRoute.ErrorBody(error)));
      StatusFor(failed) == "Error: " + error && !ClearsText(failed) && ShowsError(StatusFor(failed))
    ensures StatusFor(Deliver(IngestRoute.Unauthorized)) == "Error: " + "Unauthorized"
  {
    FailuresShowError(Deliver(IngestRoute.IngestReply(code, IngestRoute.ErrorBody(error))));
  }

  /** Every failure that settles an upload shows the status line in red and keeps the text. */
  lemma FailuresShowError(outcome: TrainResponse)
    requires !ClearsText(outcome)
    ensures ShowsError(StatusFor(outcome))
  {
    var s := StatusFor(outcome);
    if outcome.HttpResponse? && outcome.json.Success? {
      assert OccursAt(s, "Error", 0) by { assert s[0..5] == "Error"; }
    } else {
      assert OccursAt(s, "Error", 8) by { assert s[8..13] == "Error"; }
    }
    IncludesIffOccurs(s, "Error");
  }
}
