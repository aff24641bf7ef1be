/** The `POST /query` route of the webhook service: read the user id and
    the spoken query from the Alexa request, resolve the user's LLM
    endpoint and key, forward the query, and turn every outcome into one
    spoken reply. Network calls are not made here: the route's outbound
    request is part of its result, and the upstream's answer is an input. */
module Webhook {
  import opened Wrappers
  import opened Codec
  import opened Ssml
  import opened Credentials

  const InvalidRequest: string := "Invalid request format."
  const NotConfigured: string := "You have not configured an LLM yet."
  const CouldNotReach: string := "Sorry, I could not reach your model."
  const NoResponse: string := "No response received."
  const ProcessingError: string := "Sorry, there was an error processing your request."

  /** `session.user.userId` of the request body. `UserPathBroken`: the body,
      `session` or `user` is not a JSON object, so a `.get` raises.
      `NoUserId`: the id is absent or `null`. `UserIdOther`: a number,
      boolean, list or object, with its Python truthiness. */
  datatype UserField = UserPathBroken | NoUserId | UserIdString(id: string) | UserIdOther(truthy: bool)

  /** `request.intent.slots.query.value`. `SlotPathBroken`: an object on the
      way is not a JSON object, so a `.get` raises. */
  datatype SlotField = SlotPathBroken | NoSlotValue | SlotValue(text: string)

  /** The request body, or `NotJson` when `request.json()` raises. */
  datatype Inbound = NotJson | Inbound(user: UserField, slot: SlotField)

  datatype ChatMessage = ChatMessage(role: string, content: string)

  /** The `requests.post` the route makes: URL, headers, JSON payload
      (`model` and `messages`) and timeout in seconds. */
  datatype LlmRequest = LlmRequest(url: string, headers: seq<(string, string)>, model: string,
                                   messages: seq<ChatMessage>, timeout: nat)

  /** `choices[0].message` of the upstream body and the fields around it. */
  datatype MessageField = NoMessage | MessageNotObject | MessageObject(content: Option<PyValue>)
  datatype ChoiceItem = ChoiceNotObject | ChoiceObject(message: MessageField)
  datatype ChoicesField = NoChoices | ChoicesNotList | ChoicesList(items: seq<ChoiceItem>)
  datatype ResponseBody = BodyNotJson | BodyNotObject | BodyObject(choices: ChoicesField)

  /** What the upstream call gives back: a `requests` exception (connection
      error, timeout, invalid URL), or a status code and a body. */
  datatype Upstream = TransportError | HttpResponse(status: int, body: ResponseBody)

  /** The route's result: the value it speaks and the request it forwarded,
      if it forwarded one. */
  datatype Handled = Handled(speech: PyValue, forwarded: Option<LlmRequest>)

  /** Python falsiness of the user id: absent, `null`, `""`, or a falsy
      non-string value. */
  function FalsyUser(user: UserField): (r: bool)
    ensures user.UserPathBroken? ==> !r
    ensures user.NoUserId? ==> r
    ensures user.UserIdOther? ==> (r <==> !user.truthy)
    ensures user.UserIdString? ==> (r <==> |user.id| == 0)
  {
    user.NoUserId? || (user.UserIdString? && user.id == "") || (user.UserIdOther? && !user.truthy)
  }

  /** The user has a stored endpoint that decrypts to a non-empty URL. A
      table's keys are strings, so an id that is not a string never matches
      one; a config file that is a JSON list is not modelled (see README). */
  function HasEndpoint(file: ConfigFile, fernet: Key, user: UserField): (r: bool)
    ensures r ==> && user.UserIdString? && file.Table? && user.id in file.entries
                  && Opens(fernet, file.entries[user.id])
                  && Decrypt(fernet, file.entries[user.id].url.value) != Some("")
    ensures (user.UserIdString? && Load(file, fernet, user.id).0.Some?
             && Load(file, fernet, user.id).0.value != "") ==> r
  {
    user.UserIdString? && Load(file, fernet, user.id).0.Some? && Load(file, fernet, user.id).0.value != ""
  }

  /** The spoken query, `""` when the slot value is absent. */
  function UserInput(slot: SlotField): (r: string)
    requires !slot.SlotPathBroken?
    ensures slot.NoSlotValue? ==> r == ""
    ensures slot.SlotValue? ==> r == slot.text
  {
    if slot.SlotValue? then slot.text else ""
  }

  /** The forwarded request: a bearer token in the `Authorization` header
      (section 2.1 of RFC 6750), model `gpt-4`, one user message, 30 s. */
  function BuildRequest(url: string, key: string, input: string): (r: LlmRequest)
    ensures r.url == url && r.model == "gpt-4" && r.timeout == 30
    ensures r.headers == [("Authorization", "Bearer " + key), ("Content-Type", "application/json")]
    ensures r.messages == [ChatMessage("user", input)]
  {
    LlmRequest(url, [("Authorization", "Bearer " + key), ("Content-Type", "application/json")],
               "gpt-4", [ChatMessage("user", input)], 30)
  }

  /** `response_data.get("choices", [{}])[0].get("message", {}).get("content",
      "No response received.")` on a status-200 body; `None` where that
      expression raises. */
  function UpstreamText(body: ResponseBody): (r: Option<PyValue>)
    ensures r.None? <==>
      || body.BodyNotJson? || body.BodyNotObject?
      || body.choices.ChoicesNotList?
      || (body.choices.ChoicesList? && (|body.choices.items| == 0
            || body.choices.items[0].ChoiceNotObject?
            || body.choices.items[0].message.MessageNotObject?))
    ensures body.BodyObject? && body.choices.NoChoices? ==> r == Some(PyStr(NoResponse))
    ensures body.BodyObject? && body.choices.ChoicesList? && |body.choices.items| > 0
            && body.choices.items[0].ChoiceObject? ==>
              && (body.choices.items[0].message.NoMessage? ==> r == Some(PyStr(NoResponse)))
              && (body.choices.items[0].message.MessageObject? ==>
                    r == Some(body.choices.items[0].message.content.GetOr(PyStr(NoResponse))))
    ensures r.Some? && r.value != PyStr(NoResponse) ==>
      && body.choices.ChoicesList? && |body.choices.items| > 0
      && body.choices.items[0].message.MessageObject?
      && body.choices.items[0].message.content == Some(r.value)
  {
    match body
    case BodyNotJson => None
    case BodyNotObject => None
    case BodyObject(choices) =>
      match choices
      case NoChoices => Some(PyStr(NoResponse))
      case ChoicesNotList => None
      case ChoicesList(items) =>
        if |items| == 0 then None
        else match items[0]
          case ChoiceNotObject => None
          case ChoiceObject(message) =>
            match message
            case NoMessage => Some(PyStr(NoResponse))
            case MessageNotObject => None
            case MessageObject(content) => Some(content.GetOr(PyStr(NoResponse)))
  }

  /** What the route speaks once it has forwarded the query. */
  function ForwardedReply(upstream: Upstream): (r: PyValue)
    ensures upstream.HttpResponse? && upstream.status != 200 ==> r == PyStr(CouldNotReach)
    ensures upstream.HttpResponse? && upstream.status == 200 && UpstreamText(upstream.body).Some? ==>
              r == UpstreamText(upstream.body).value
    ensures upstream.TransportError? || (upstream.status == 200 && UpstreamText(upstream.body).None?) ==>
              r == PyStr(ProcessingError)
  {
    match upstream
    case TransportError => PyStr(ProcessingError)
    case HttpResponse(status, body) =>
      if status != 200 then PyStr(CouldNotReach)
      else UpstreamText(body).GetOr(PyStr(ProcessingError))
  }

  /** The decision chain of the `/query` route. It forwards only for a
      user with a stored, non-empty endpoint, and then only to that
      endpoint with that user's key. */
  function Query(req: Inbound, file: ConfigFile, fernet: Key, upstream: Upstream): (r: Handled)
    ensures r.forwarded.Some? ==>
      && req.Inbound? && req.user.UserIdString? && !req.slot.SlotPathBroken?
      && HasEndpoint(file, fernet, req.user)
      && var (url, key) := Load(file, fernet, req.user.id);
         r.forwarded == Some(BuildRequest(url.value, key.value, UserInput(req.slot)))
  {
    match req
    case NotJson => Handled(PyStr(ProcessingError), None)
    case Inbound(user, slot) =>
      match user
      case UserPathBroken => Handled(PyStr(ProcessingError), None)
      case NoUserId => Handled(PyStr(InvalidRequest), None)
      case UserIdOther(truthy) =>
        if !truthy then Handled(PyStr(InvalidRequest), None)
        else Handled(PyStr(NotConfigured), None)
      case UserIdString(userId) =>
        if userId == "" then Handled(PyStr(InvalidRequest), None)
        else
          var (llmUrl, llmKey) := Load(file, fernet, userId);
          if llmUrl.None? || llmUrl.value == "" then Handled(PyStr(NotConfigured), None)
          else if slot.SlotPathBroken? then Handled(PyStr(ProcessingError), None)
          else
            var request := BuildRequest(llmUrl.value, llmKey.value, UserInput(slot));
            Handled(ForwardedReply(upstream), Some(request))
  }

  /** The JSON the route returns. */
  function Respond(req: Inbound, file: ConfigFile, fernet: Key, upstream: Upstream): (r: AlexaReply)
    ensures r.version == "1.0" && r.speechType == "SSML" && !r.shouldEndSession
    ensures SpokenText(r.ssml) == Some(Str(Query(req, file, fernet, upstream).speech))
  {
    AlexaResponse(Query(req, file, fernet, upstream).speech)
  }

  /** "Invalid request format." is spoken, with nothing forwarded, exactly
      when the request parses and its user id is falsy. */
  lemma InvalidRequestIff(req: Inbound, file: ConfigFile, fernet: Key, upstream: Upstream)
    ensures Query(req, file, fernet, upstream) == Handled(PyStr(InvalidRequest), None)
            <==> req.Inbound? && FalsyUser(req.user)
  {
  }

  /** "You have not configured an LLM yet." is spoken, with nothing
      forwarded, exactly when the user id is truthy but resolves to no
      endpoint or an empty one: no record, an unreadable or missing file,
      or a record that does not decrypt. */
  lemma NotConfiguredIff(req: Inbound, file: ConfigFile, fernet: Key, upstream: Upstream)
    ensures Query(req, file, fernet, upstream) == Handled(PyStr(NotConfigured), None)
            <==> req.Inbound? && !req.user.UserPathBroken? && !FalsyUser(req.user)
                 && !HasEndpoint(file, fernet, req.user)
  {
  }

  /** The route forwards exactly when the user id is truthy, the user is
      configured and the slot path can be read. */
  lemma ForwardsIff(req: Inbound, file: ConfigFile, fernet: Key, upstream: Upstream)
    ensures Query(req, file, fernet, upstream).forwarded.Some?
            <==> && req.Inbound? && !FalsyUser(req.user) && HasEndpoint(file, fernet, req.user)
                 && !req.slot.SlotPathBroken?
  {
  }

  /** The generic error reply, with nothing forwarded, comes exactly from a
      body that is not JSON, a `session` or `user` that is not an object, or
      a configured user whose slot path cannot be read: each makes the route
      raise before any request is sent. */
  lemma ProcessingErrorBeforeForwardIff(req: Inbound, file: ConfigFile, fernet: Key, upstream: Upstream)
    ensures Query(req, file, fernet, upstream) == Handled(PyStr(ProcessingError), None)
            <==> || req.NotJson?
                 || (req.Inbound? && req.user.UserPathBroken?)
                 || (req.Inbound? && !FalsyUser(req.user) && HasEndpoint(file, fernet, req.user)
                     && req.slot.SlotPathBroken?)
  {
  }

  /** A configured user's query answered with status 200 and a string
      `choices[0].message.content` is spoken as exactly that string. */
  lemma UpstreamContentIsSpoken(req: Inbound, file: ConfigFile, fernet: Key, t: string, items: seq<ChoiceItem>)
    requires req.Inbound? && !FalsyUser(req.user) && HasEndpoint(file, fernet, req.user)
    requires !req.slot.SlotPathBroken?
    requires |items| > 0 && items[0] == ChoiceObject(MessageObject(Some(PyStr(t))))
    ensures var upstream := HttpResponse(200, BodyObject(ChoicesList(items)));
      && Query(req, file, fernet, upstream).speech == PyStr(t)
      && SpokenText(Respond(req, file, fernet, upstream).ssml) == Some(t)
  {
  }

  /** Once forwarded: a status other than 200 gives the fixed "could not
      reach" reply and never the upstream body; a 200 gives
      `choices[0].message.content` (or "No response received."), and a body
      that cannot be read that way gives the generic error reply. */
  lemma ForwardedOutcome(req: Inbound, file: ConfigFile, fernet: Key, upstream: Upstream)
    requires Query(req, file, fernet, upstream).forwarded.Some?
    ensures var speech := Query(req, file, fernet, upstream).speech;
      && (upstream.TransportError? ==> speech == PyStr(ProcessingError))
      && (upstream.HttpResponse? && upstream.status != 200 ==> speech == PyStr(CouldNotReach))
      && (upstream.HttpResponse? && upstream.status == 200 ==>
            speech == UpstreamText(upstream.body).GetOr(PyStr(ProcessingError)))
  {
  }

  /** Every reply is one of the five fixed texts or the content the
      upstream returned with status 200 for a forwarded request. */
  lemma ReplyIsFixedOrUpstream(req: Inbound, file: ConfigFile, fernet: Key, upstream: Upstream)
    ensures var r := Query(req, file, fernet, upstream);
      || r.speech in {PyStr(InvalidRequest), PyStr(NotConfigured), PyStr(CouldNotReach),
                      PyStr(NoResponse), PyStr(ProcessingError)}
      || (r.forwarded.Some? && upstream.HttpResponse? && upstream.status == 200
          && UpstreamText(upstream.body) == Some(r.speech))
  {
  }

  /** After a user stores a non-empty endpoint, that user's next request is
      forwarded to it with the stored key as bearer token. */
  lemma ConfiguredUserIsForwarded(file: ConfigFile, fernet: Key, userId: string, llmUrl: string, llmKey: string,
                                  urlNonce: nat, keyNonce: nat, slot: SlotField, upstream: Upstream)
    requires !file.Unreadable? && userId != "" && llmUrl != "" && !slot.SlotPathBroken?
    ensures var stored := Configure(file, fernet, userId, llmUrl, llmKey, urlNonce, keyNonce);
      Query(Inbound(UserIdString(userId), slot), stored, fernet, upstream)
      == Handled(ForwardedReply(upstream), Some(BuildRequest(llmUrl, llmKey, UserInput(slot))))
  {
    LoadAfterConfigure(file, fernet, userId, llmUrl, llmKey, urlNonce, keyNonce);
  }

  /** Storing one user's credentials changes nothing about how another
      user's requests are handled. */
  lemma OtherUsersUnaffected(file: ConfigFile, fernet: Key, userId: string, llmUrl: string, llmKey: string,
                             urlNonce: nat, keyNonce: nat, req: Inbound, upstream: Upstream)
    requires req.Inbound? && req.user.UserIdString? && req.user.id != userId
    ensures Query(req, Configure(file, fernet, userId, llmUrl, llmKey, urlNonce, keyNonce), fernet, upstream)
            == Query(req, file, fernet, upstream)
  {
    ConfigureIsolation(file, fernet, userId, req.user.id, llmUrl, llmKey, urlNonce, keyNonce);
  }
}
