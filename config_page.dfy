/** The decision logic of the configuration page (app.py): the HTTPS check
    on the endpoint field, the "Test Connection" call and how its result is
    read, the "Save & Link" call, and how the two buttons fill in the page
    message. The URL parser, the OpenAI client and the database insert are
    inputs; the page layout is not modelled. */
module ConfigPage {
  import opened Wrappers
  import opened PyStrings
  import opened Codec

  const ModelNameSeparator: string := "/model_name="
  const RequestError: string :=
    "Sorry, I encountered an error while processing your request. Pls check your credentials or try again later."
  const NoLlmResponse: string :=
    "Sorry, I couldn't get a response from your LLM service. Pls check your credentials or try again later."
  const Saved: string := "Configuration saved successfully!"
  const SaveFailed: string := "Failed to save configuration."

  /** What `urlparse(url)` gives: the parsed scheme, or an exception. */
  datatype UrlParse = Parsed(scheme: string) | ParseRaised

  /** `is_valid_https_url(url)` with `urlparse` as the parser: the scheme
      must be exactly `https` (section 3.1 of RFC 3986 names the scheme
      component), and a parser exception means "not valid". */
  function IsValidHttpsUrl(url: string, urlparse: string -> UrlParse): (r: bool)
    ensures r <==> urlparse(url) == Parsed("https")
  {
    match urlparse(url)
    case Parsed(scheme) => scheme == "https"
    case ParseRaised => false
  }

  /** The `client.chat.completions.create` call of `test_connection`: the
      client's key, base URL and timeout, and the payload. */
  datatype ChatRequest = ChatRequest(apiKey: string, baseUrl: string, timeout: real,
                                     messages: seq<(string, string)>, maxTokens: nat,
                                     temperature: real, topP: real, model: Option<string>)

  /** A `message.content` or `response` attribute: a string, or a value
      whose `.strip()` raises (`None`, for one). */
  datatype Content = Text(s: string) | NotText

  /** What the create call gives: an exception, or a result object whose
      `choices` and `response` attributes may be missing. */
  datatype Completion = CallRaised | Completed(choices: Option<seq<Content>>, response: Option<Content>)

  /** The `(success, message)` pair `test_connection` returns, and the call
      it made, if it got as far as making one. */
  datatype TestOutcome = TestOutcome(ok: bool, message: string, sent: Option<ChatRequest>)

  /** The request for base URL `apiEndpoint` and model field `modelName`:
      a fixed "Hi" probe; `model` is sent only when a name was given. */
  function ProbeRequest(apiKey: string, apiEndpoint: string, modelName: string): (r: ChatRequest)
    ensures r.model.Some? <==> modelName != ""
    ensures r.model.Some? ==> r.model.value == modelName
  {
    ChatRequest(apiKey, apiEndpoint, 10.0, [("user", "Hi")], 100, 0.1, 1.0,
                if modelName != "" then Some(modelName) else None)
  }

  /** How `test_connection` reads the result: the stripped content of the
      first choice, else the stripped `response`, else failure. A content
      that is not a string makes `.strip()` raise. */
  function CompletionReply(result: Completion): (r: (bool, string))
    ensures r.0 ==> r.1 == Strip(r.1)
    ensures result.Completed? && result.choices.Some? && |result.choices.value| > 0
            && result.choices.value[0].Text? ==>
              r == (true, Strip(result.choices.value[0].s))
    ensures result.Completed? && (result.choices.None? || |result.choices.value| == 0)
            && result.response.Some? && result.response.value.Text? ==>
              r == (true, Strip(result.response.value.s))
    ensures r.0 <==>
      || (result.Completed? && result.choices.Some? && |result.choices.value| > 0 && result.choices.value[0].Text?)
      || (result.Completed? && (result.choices.None? || |result.choices.value| == 0)
          && result.response.Some? && result.response.value.Text?)
    ensures !r.0 ==>
      r.1 == if result.Completed? && (result.choices.None? || |result.choices.value| == 0) && result.response.None?
             then NoLlmResponse else RequestError
  {
    match result
    case CallRaised => (false, RequestError)
    case Completed(choices, response) =>
      if choices.Some? && |choices.value| > 0 then
        match choices.value[0]
        case Text(s) => StripIdempotent(s); (true, Strip(s))
        case NotText => (false, RequestError)
      else if response.Some? then
        match response.value
        case Text(s) => StripIdempotent(s); (true, Strip(s))
        case NotText => (false, RequestError)
      else (false, NoLlmResponse)
  }

  /** `test_connection(endpoint, api_key)` as written: the base URL and the
      model name are only assigned when the endpoint holds `/model_name=`;
      without it, building the client reads the unassigned `api_endpoint`,
      which raises, and the generic error is returned without any call. */
  function TestConnection(endpoint: string, apiKey: string, result: Completion): (r: TestOutcome)
    ensures r.sent.None? ==> !r.ok && r.message == RequestError
    ensures r.sent.Some? ==> (r.ok, r.message) == CompletionReply(result)
  {
    match SplitFirstTwo(endpoint, ModelNameSeparator)
    case None => TestOutcome(false, RequestError, None)
    case Some((before, between)) =>
      var apiEndpoint := Strip(before);
      var modelName := Strip(between);
      var request := ProbeRequest(apiKey, apiEndpoint, modelName);
      var (ok, msg) := CompletionReply(result);
      TestOutcome(ok, msg, Some(request))
  }

  /** An endpoint without `/model_name=` never reaches the LLM: the test
      always fails with the generic error. */
  lemma NoSeparatorAlwaysFails(endpoint: string, apiKey: string, result: Completion)
    requires !Contains(endpoint, ModelNameSeparator)
    ensures TestConnection(endpoint, apiKey, result) == TestOutcome(false, RequestError, None)
  {
  }

  /** With `/model_name=` present, the call goes to the stripped text before
      its first occurrence, and carries as `model` the stripped text up to
      its second occurrence, when that is not empty. */
  lemma SeparatorSplitsEndpoint(endpoint: string, apiKey: string, result: Completion)
    requires Contains(endpoint, ModelNameSeparator)
    ensures var r := TestConnection(endpoint, apiKey, result);
      && SplitFirstTwo(endpoint, ModelNameSeparator).Some?
      && var (before, between) := SplitFirstTwo(endpoint, ModelNameSeparator).value;
      && r.sent.Some?
      && r.sent.value.baseUrl == Strip(before) && r.sent.value.apiKey == apiKey
      && (r.sent.value.model.Some? <==> Strip(between) != "")
      && (r.sent.value.model.Some? ==> r.sent.value.model.value == Strip(between))
      && r.sent.value.messages == [("user", "Hi")] && r.sent.value.maxTokens == 100
  {
    var k := FindFrom(endpoint, ModelNameSeparator, 0).value;
    assert OccursAt(endpoint, ModelNameSeparator, k);
  }

  /** A database insert: it returns a value (`is True` or not) or raises. */
  datatype InsertOutcome = Returned(isTrue: bool) | InsertRaised(error: string)

  /** The document handed to `insert_data`. */
  datatype InsertRecord = InsertRecord(userId: string, endpoint: Cipher, apiKey: Cipher)

  datatype SaveOutcome = SaveOutcome(ok: bool, message: string, record: InsertRecord)

  /** `save_configuration(user_id, endpoint, api_key)`: user `"test"` when
      no id was given; success only when the insert returns `True`. */
  function SaveConfiguration(userId: Option<string>, endpoint: Cipher, apiKey: Cipher, insert: InsertOutcome)
    : (r: SaveOutcome)
    ensures r.record == InsertRecord(userId.GetOr("test"), endpoint, apiKey)
    ensures r.ok <==> insert == Returned(true)
    ensures r.ok ==> r.message == Saved
    ensures insert == Returned(false) ==> r.message == SaveFailed
    ensures insert.InsertRaised? ==> r.message == "Save Error: " + insert.error
  {
    var user := if userId.None? then "test" else userId.value;
    var record := InsertRecord(user, endpoint, apiKey);
    match insert
    case InsertRaised(e) => SaveOutcome(false, "Save Error: " + e, record)
    case Returned(isTrue) =>
      if isTrue then SaveOutcome(true, Saved, record)
      else SaveOutcome(false, SaveFailed, record)
  }

  /** The page message of the Streamlit session (`st.session_state`), which
      the two button handlers set. */
  class PageMessage {
    var message: string
    var messageType: string

    constructor ()
      ensures message == "" && messageType == ""
    {
      message := "";
      messageType := "";
    }

    /** The "Test Connection" button: a blank endpoint is reported before
        the HTTPS check; otherwise the stripped endpoint and key are tested
        and the outcome shown. */
    method OnTestConnection(endpoint: string, apiKey: string, urlparse: string -> UrlParse, result: Completion)
      returns (sent: Option<ChatRequest>)
      modifies this
      ensures Strip(endpoint) == "" ==>
        message == "Please enter an endpoint URL." && messageType == "error" && sent.None?
      ensures Strip(endpoint) != "" && !IsValidHttpsUrl(Strip(endpoint), urlparse) ==>
        message == "Endpoint must be a valid HTTPS url." && messageType == "error" && sent.None?
      ensures Strip(endpoint) != "" && IsValidHttpsUrl(Strip(endpoint), urlparse) ==>
        var t := TestConnection(Strip(endpoint), Strip(apiKey), result);
        && sent == t.sent
        && (t.ok ==> message == "\U{2705} Connection successful!" && messageType == "success")
        && (!t.ok ==> message == "Test failed: " + t.message && messageType == "error")
    {
      sent := None;
      if Strip(endpoint) == "" {
        message := "Please enter an endpoint URL.";
        messageType := "error";
      } else if !IsValidHttpsUrl(Strip(endpoint), urlparse) {
        message := "Endpoint must be a valid HTTPS url.";
        messageType := "error";
      } else {
        message := "Testing connection...";
        messageType := "info";
        var outcome := TestConnection(Strip(endpoint), Strip(apiKey), result);
        sent := outcome.sent;
        if outcome.ok {
          message := "\U{2705} Connection successful!";
          messageType := "success";
        } else {
          message := "Test failed: " + outcome.message;
          messageType := "error";
        }
      }
    }

    /** The "Save & Link" button: blank and non-HTTPS endpoints get the same
        message; otherwise the endpoint as typed (not stripped) and the key
        are encrypted and saved for the page's user id. */
    method OnSaveAndLink(userId: Option<string>, endpoint: string, apiKey: string, urlparse: string -> UrlParse,
                         fernet: Key, urlNonce: nat, keyNonce: nat, insert: InsertOutcome)
      returns (saved: Option<InsertRecord>)
      modifies this
      ensures Strip(endpoint) == "" || !IsValidHttpsUrl(Strip(endpoint), urlparse) ==>
        message == "Please enter a valid HTTPS endpoint." && messageType == "error" && saved.None?
      ensures Strip(endpoint) != "" && IsValidHttpsUrl(Strip(endpoint), urlparse) ==>
        var s := SaveConfiguration(userId, Encrypt(fernet, urlNonce, endpoint), Encrypt(fernet, keyNonce, apiKey), insert);
        && saved == Some(s.record)
        && (s.ok ==> message == "\U{2705} Saved! You can now close this window." && messageType == "success")
        && (!s.ok ==> message == "Save failed: " + s.message && messageType == "error")
    {
      saved := None;
      if Strip(endpoint) == "" {
        message := "Please enter a valid HTTPS endpoint.";
        messageType := "error";
      } else if !IsValidHttpsUrl(Strip(endpoint), urlparse) {
        message := "Please enter a valid HTTPS endpoint.";
        messageType := "error";
      } else {
        var encryptedUrl := Encrypt(fernet, urlNonce, endpoint);
        var encryptedKey := Encrypt(fernet, keyNonce, apiKey);
        message := "Saving configuration...";
        messageType := "info";
        var outcome := SaveConfiguration(userId, encryptedUrl, encryptedKey, insert);
        saved := Some(outcome.record);
        if outcome.ok {
          message := "\U{2705} Saved! You can now close this window.";
          messageType := "success";
        } else {
          message := "Save failed: " + outcome.message;
          messageType := "error";
        }
      }
    }
  }
}
