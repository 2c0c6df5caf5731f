/**
 * The webhook (api/slack-events.js): the request gate, the lookup that a
 * trigger reaction starts, and the development-mode endpoint.
 *
 * The handler loads the configuration, takes the development branch, echoes
 * a URL-verification challenge, checks the request signature and finally
 * starts a lookup for a `reaction_added` event with the trigger emoji. The
 * lookup reads the reacted-to message, extracts a charity name, posts a
 * progress message in the thread and replaces it with the report, recovering
 * from failures through two nested catch blocks.
 *
 * The OpenAI calls (`extractCharityName` and the search behind
 * `lookupCharity`) and the two URL parsers are the fields of `Services`; the
 * Slack workspace is the `respond` function of the client.
 */
module SlackEvents {
  import opened Wrappers
  import opened Text
  import opened Config
  import opened CharityLookup
  import opened ReportFormatter
  import opened SlackSignature
  import opened SlackClient

  // ---------------------------------------------------------------------------
  // Requests and responses
  // ---------------------------------------------------------------------------

  /** `event.item`: the message that was reacted to. */
  datatype Item = Item(channel: string, ts: string)

  /** `req.body.event`, with the fields the handler reads. */
  datatype Event = Event(eventType: Option<string>, reaction: Option<string>, item: Option<Item>)

  /** `req.body`, with the fields the handler reads. */
  datatype RequestBody = RequestBody(challenge: Option<string>, event: Option<Event>, message: Option<string>)

  /** `req.body` as a whole: absent (`undefined`), the JSON `null`, or a parsed object. */
  datatype Body = Undefined | Null | Parsed(value: RequestBody)

  /**
   * An incoming request: the parsed body, `JSON.stringify(req.body)` (the
   * text the signature is computed over) and the two signature headers.
   */
  datatype Request = Request(
    body: Body,
    json: string,
    signature: Option<string>,
    timestamp: Option<string>)

  /** The JSON objects the handler answers with. */
  datatype ResponseBody =
    | ChallengeEcho(challenge: string)
    | Acknowledged
    | ErrorOnly(error: string)
    | ErrorDetails(error: string, details: string)
    | MissingMessageField(error: string, example: string)
    | NoCharityName(error: string, message: string)
    | ReportReady(message: string, extractedName: string, charityData: Option<CharityData>, report: string)
    | LookupFailed(message: string, extractedName: string, error: string, errorReport: string, details: string)

  datatype Response = Response(status: nat, body: ResponseBody)

  /** The foreign services the handler calls, other than Slack. */
  datatype Services = Services(
    extractCharityName: Option<string> -> Outcome<Option<string>>,
    searchCharity: string -> Outcome<Option<SearchResponse>>,
    domainName: string -> string,
    hostLabel: string -> string)

  const InternalServerErrorText := "Internal server error"
  const InvalidSignatureText := "Invalid signature"
  const MissingMessageText := "Missing message field in request body"
  const ExampleMessage := "Please research Oxfam charity"
  const NoCharityNameText := "Could not extract charity name from message"
  const LookupFailedText := "Charity lookup failed"
  /** The TypeError message for destructuring `message` out of an undefined `req.body`. */
  const UndefinedBodyText := "Cannot destructure property 'message' of 'req.body' as it is undefined."
  /** The same TypeError when `req.body` is `null`. */
  const NullBodyText := "Cannot destructure property 'message' of 'req.body' as it is null."

  const ReactionAdded := "reaction_added"
  const NodeEnvKey := "NODE_ENV"

  const InternalError := Response(500, ErrorOnly(InternalServerErrorText))

  predicate IsDevelopment(env: Env) {
    NodeEnvKey in env && env[NodeEnvKey] == "development"
  }

  // ---------------------------------------------------------------------------
  // handleCharityLookupRequest
  // ---------------------------------------------------------------------------

  /** The progress message posted before the lookup. */
  function SearchingText(charityName: string): string {
    "\U{1F50D}" + " Searching for \"" + charityName + "\"..."
  }

  /** The outer catch's apology, posted in the thread of the reacted-to message. */
  function GenericPost(item: Item): Call {
    Post(item.channel, item.ts, FormatErrorMessage("", ApiError))
  }

  /** The call log so far, and whether an error is on its way to the enclosing catch. */
  datatype Step = Step(log: seq<Call>, thrown: bool)

  /**
   * The inner try/catch after the progress message: look the charity up,
   * replace the progress message with the report, and when the lookup or that
   * update fails, replace it with the `api_error` text instead.
   */
  function LookupAndUpdateSpec(log: seq<Call>, item: Item, charityName: string, placeholderTs: Option<string>,
                               respond: seq<Call> -> Reply, services: Services): Step
  {
    var lookup := LookupOutcome(charityName, services.searchCharity(charityName), services.domainName);
    var log1 :=
      if lookup.Ok? then log + [Update(item.channel, placeholderTs, CharityReport(lookup.value, charityName, services.hostLabel))]
      else log;
    if lookup.Ok? && respond(log1).Answered? then Step(log1, false)
    else
      var log2 := log1 + [Update(item.channel, placeholderTs, FormatErrorMessage(charityName, ApiError))];
      Step(log2, respond(log2).Failed?)
  }

  /** The outer try block: history, extraction, the extraction-failed post or the progress post and the lookup. */
  function LookupTrySpec(log: seq<Call>, item: Item, respond: seq<Call> -> Reply, services: Services): Step {
    var log1 := log + [History(item.channel, item.ts)];
    var history := respond(log1);
    if history.Failed? || history.messages.None? || |history.messages.value| == 0 then Step(log1, true)
    else
      var extracted := services.extractCharityName(history.messages.value[0].text);
      if extracted.Fail? then Step(log1, true)
      else if !Truthy(extracted.value) then
        var log2 := log1 + [Post(item.channel, item.ts, FormatErrorMessage("", ExtractionFailedError))];
        Step(log2, respond(log2).Failed?)
      else
        var charityName := extracted.value.value;
        var log2 := log1 + [Post(item.channel, item.ts, SearchingText(charityName))];
        var searching := respond(log2);
        if searching.Failed? then Step(log2, true)
        else LookupAndUpdateSpec(log2, item, charityName, searching.ts, respond, services)
  }

  /**
   * The call log after `handleCharityLookupRequest(slack, event)`. Without
   * `event.item` both the try block and the catch block fail on reading
   * `event.item.channel` before any call; otherwise an error that reaches the
   * outer catch adds the apology post, whose own failure is swallowed.
   */
  function LookupRequestLog(log: seq<Call>, item: Option<Item>, respond: seq<Call> -> Reply,
                            services: Services): seq<Call>
  {
    if item.None? then log
    else
      var step := LookupTrySpec(log, item.value, respond, services);
      if step.thrown then step.log + [GenericPost(item.value)] else step.log
  }

  /** The inner try/catch of `handleCharityLookupRequest`; returns whether it rethrows. */
  method LookupAndUpdate(slack: WebClient, item: Item, charityName: string, placeholderTs: Option<string>,
                         services: Services)
    returns (thrown: bool)
    modifies slack
    ensures Step(slack.calls, thrown)
      == LookupAndUpdateSpec(old(slack.calls), item, charityName, placeholderTs, slack.respond, services)
  {
    var charityData := LookupCharity(charityName, services.searchCharity(charityName), services.domainName);
    var failed := charityData.Fail?;
    if charityData.Ok? {
      var report := FormatCharityReport(charityData.value, charityName, services.hostLabel);
      var updated := slack.ChatUpdate(item.channel, placeholderTs, report);
      failed := updated.Failed?;
    }
    if !failed {
      return false;
    }
    var updated := slack.ChatUpdate(item.channel, placeholderTs, FormatErrorMessage(charityName, ApiError));
    thrown := updated.Failed?;
  }

  /** `handleCharityLookupRequest(slack, event)`: never rejects; its effect is the calls it makes. */
  method HandleCharityLookupRequest(slack: WebClient, item: Option<Item>, services: Services)
    modifies slack
    ensures slack.calls == LookupRequestLog(old(slack.calls), item, slack.respond, services)
  {
    if item.None? {
      return;
    }
    var channel, ts := item.value.channel, item.value.ts;
    var thrown := false;
    var result := slack.ConversationsHistory(channel, ts);
    if result.Failed? || result.messages.None? || |result.messages.value| == 0 {
      thrown := true;
    } else {
      var charityName := services.extractCharityName(result.messages.value[0].text);
      if charityName.Fail? {
        thrown := true;
      } else if !Truthy(charityName.value) {
        var posted := slack.PostMessage(channel, ts, FormatErrorMessage("", ExtractionFailedError));
        thrown := posted.Failed?;
      } else {
        var searchingMessage := slack.PostMessage(channel, ts, SearchingText(charityName.value.value));
        if searchingMessage.Failed? {
          thrown := true;
        } else {
          thrown := LookupAndUpdate(slack, item.value, charityName.value.value, searchingMessage.ts, services);
        }
      }
    }
    if thrown {
      var _ := slack.PostMessage(channel, ts, FormatErrorMessage("", ApiError));
    }
  }

  // ---------------------------------------------------------------------------
  // handleDevModeRequest
  // ---------------------------------------------------------------------------

  /** What `handleDevModeRequest(req, res)` answers; it makes no Slack call. */
  function DevModeResponse(body: Body, services: Services): Response {
    if body.Undefined? then Response(500, ErrorDetails(InternalServerErrorText, UndefinedBodyText))
    else if body.Null? then Response(500, ErrorDetails(InternalServerErrorText, NullBodyText))
    else if !Truthy(body.value.message) then Response(400, MissingMessageField(MissingMessageText, ExampleMessage))
    else
      var message := body.value.message.value;
      var extracted := services.extractCharityName(Some(message));
      if extracted.Fail? then Response(500, ErrorDetails(InternalServerErrorText, extracted.message))
      else if !Truthy(extracted.value) then Response(200, NoCharityName(NoCharityNameText, message))
      else
        var charityName := extracted.value.value;
        var lookup := LookupOutcome(charityName, services.searchCharity(charityName), services.domainName);
        if lookup.Fail? then
          Response(200, LookupFailed(message, charityName, LookupFailedText,
                                     FormatErrorMessage(charityName, ApiError), lookup.message))
        else
          Response(200, ReportReady(message, charityName, lookup.value,
                                    CharityReport(lookup.value, charityName, services.hostLabel)))
  }

  method HandleDevModeRequest(body: Body, services: Services) returns (response: Response)
    ensures response == DevModeResponse(body, services)
  {
    if body.Undefined? {
      return Response(500, ErrorDetails(InternalServerErrorText, UndefinedBodyText));
    }
    if body.Null? {
      return Response(500, ErrorDetails(InternalServerErrorText, NullBodyText));
    }
    var message := body.value.message;
    if !Truthy(message) {
      return Response(400, MissingMessageField(MissingMessageText, ExampleMessage));
    }
    var charityName := services.extractCharityName(message);
    if charityName.Fail? {
      return Response(500, ErrorDetails(InternalServerErrorText, charityName.message));
    }
    if !Truthy(charityName.value) {
      return Response(200, NoCharityName(NoCharityNameText, message.value));
    }
    var name := charityName.value.value;
    var charityData := LookupCharity(name, services.searchCharity(name), services.domainName);
    if charityData.Fail? {
      var errorReport := FormatErrorMessage(name, ApiError);
      return Response(200, LookupFailed(message.value, name, LookupFailedText, errorReport, charityData.message));
    }
    var report := FormatCharityReport(charityData.value, name, services.hostLabel);
    response := Response(200, ReportReady(message.value, name, charityData.value, report));
  }

  // ---------------------------------------------------------------------------
  // The handler
  // ---------------------------------------------------------------------------

  /** The response sent and every Slack call made while handling one request. */
  datatype Exchange = Exchange(response: Response, calls: seq<Call>)

  /**
   * The text `JSON.stringify(req.body)` contributes to the signed string:
   * `JSON.stringify(undefined)` is `undefined`, which the template prints as
   * "undefined", and `JSON.stringify(null)` is "null".
   */
  function BodyText(req: Request): string {
    match req.body
    case Undefined => "undefined"
    case Null => "null"
    case Parsed(_) => req.json
  }

  /** The event is a `reaction_added` with the trigger emoji. */
  predicate Triggers(event: Option<Event>, triggerEmoji: string) {
    event.Some? && event.value.eventType == Some(ReactionAdded) && event.value.reaction == Some(triggerEmoji)
  }

  /** The handler after the configuration has loaded outside development mode. */
  function GateSpec(config: AppConfig, req: Request, nowMillis: nat, hmac: (string, string) -> Digest,
                    respond: seq<Call> -> Reply, services: Services): Exchange
  {
    if req.body.Parsed? && Truthy(req.body.value.challenge) then
      Exchange(Response(200, ChallengeEcho(req.body.value.challenge.value)), [])
    else
      var verdict := VerifySlackSignature(BodyText(req), req.signature, req.timestamp, config.signingSecret,
                                          nowMillis, hmac);
      if verdict == Throws then Exchange(InternalError, [])
      else if verdict == Rejected then Exchange(Response(401, ErrorOnly(InvalidSignatureText)), [])
      else if !req.body.Parsed? then Exchange(InternalError, [])
      else
        var event := req.body.value.event;
        var calls :=
          if Triggers(event, config.triggerEmoji) then LookupRequestLog([], event.value.item, respond, services)
          else [];
        Exchange(Response(200, Acknowledged), calls)
  }

  /** The exported handler `(req, res) => …` for one request. */
  function HandleSpec(env: Env, req: Request, nowMillis: nat, hmac: (string, string) -> Digest,
                      respond: seq<Call> -> Reply, services: Services): Exchange
  {
    var config := GetConfig(env);
    if config.Fail? then Exchange(InternalError, [])
    else if IsDevelopment(env) then Exchange(DevModeResponse(req.body, services), [])
    else GateSpec(config.value, req, nowMillis, hmac, respond, services)
  }

  method Handle(env: Env, req: Request, nowMillis: nat, hmac: (string, string) -> Digest,
                respond: seq<Call> -> Reply, services: Services)
    returns (response: Response, calls: seq<Call>)
    ensures Exchange(response, calls) == HandleSpec(env, req, nowMillis, hmac, respond, services)
  {
    var config := GetConfig(env);
    if config.Fail? {
      return InternalError, [];
    }
    if IsDevelopment(env) {
      response := HandleDevModeRequest(req.body, services);
      return response, [];
    }
    var slack := new WebClient(respond);

    if req.body.Parsed? && Truthy(req.body.value.challenge) {
      return Response(200, ChallengeEcho(req.body.value.challenge.value)), slack.calls;
    }

    var verdict := VerifySlackSignature(BodyText(req), req.signature, req.timestamp,
                                        config.value.signingSecret, nowMillis, hmac);
    if verdict == Throws {
      return InternalError, slack.calls;
    }
    if verdict == Rejected {
      return Response(401, ErrorOnly(InvalidSignatureText)), slack.calls;
    }
    if !req.body.Parsed? {
      return InternalError, slack.calls;
    }

    var event := req.body.value.event;
    if Triggers(event, config.value.triggerEmoji) {
      HandleCharityLookupRequest(slack, event.value.item, services);
    }
    return Response(200, Acknowledged), slack.calls;
  }

  // ---------------------------------------------------------------------------
  // What the gate promises
  // ---------------------------------------------------------------------------

  /** A configuration that does not validate is a 500 with no Slack call, in development mode too. */
  lemma ConfigFailureIs500(env: Env, req: Request, nowMillis: nat, hmac: (string, string) -> Digest,
                           respond: seq<Call> -> Reply, services: Services)
    requires !ValidateConfig(env)
    ensures HandleSpec(env, req, nowMillis, hmac, respond, services) == Exchange(InternalError, [])
  {
  }

  /**
   * In development mode the answer is the development endpoint's, with no
   * Slack call: no challenge, timestamp, signature or clock is looked at.
   */
  lemma DevModeNeverVerifies(env: Env, req: Request, nowMillis: nat, hmac: (string, string) -> Digest,
                             respond: seq<Call> -> Reply, services: Services)
    requires ValidateConfig(env) && IsDevelopment(env)
    ensures HandleSpec(env, req, nowMillis, hmac, respond, services) == Exchange(DevModeResponse(req.body, services), [])
  {
  }

  /** A truthy challenge is echoed with 200 before, and whatever, the signature check would decide. */
  lemma ChallengeEchoedBeforeVerification(env: Env, req: Request, nowMillis: nat, hmac: (string, string) -> Digest,
                                          respond: seq<Call> -> Reply, services: Services)
    requires ValidateConfig(env) && !IsDevelopment(env)
    requires req.body.Parsed? && Truthy(req.body.value.challenge)
    ensures HandleSpec(env, req, nowMillis, hmac, respond, services)
      == Exchange(Response(200, ChallengeEcho(req.body.value.challenge.value)), [])
  {
  }

  /**
   * Past the challenge, a request whose signature check returns false is a
   * 401 and one whose check throws (a missing header or one of the wrong
   * byte length) is a 500; neither makes a Slack call.
   */
  lemma SignatureFailuresAnswered(env: Env, req: Request, nowMillis: nat, hmac: (string, string) -> Digest,
                                  respond: seq<Call> -> Reply, services: Services)
    requires ValidateConfig(env) && !IsDevelopment(env)
    requires !(req.body.Parsed? && Truthy(req.body.value.challenge))
    ensures var config := GetConfig(env).value;
      var verdict := VerifySlackSignature(BodyText(req), req.signature, req.timestamp, config.signingSecret,
                                          nowMillis, hmac);
      var exchange := HandleSpec(env, req, nowMillis, hmac, respond, services);
      && (verdict == Rejected ==> exchange == Exchange(Response(401, ErrorOnly(InvalidSignatureText)), []))
      && (verdict == Throws ==> exchange == Exchange(InternalError, []))
  {
  }

  /** A request stamped more than 300 seconds from the clock is refused with 401. */
  lemma StaleRequestRejected(env: Env, req: Request, ts: nat, nowMillis: nat, hmac: (string, string) -> Digest,
                             respond: seq<Call> -> Reply, services: Services)
    requires ValidateConfig(env) && !IsDevelopment(env)
    requires !(req.body.Parsed? && Truthy(req.body.value.challenge))
    requires req.timestamp == Some(NatToDecimal(ts))
    requires Abs(nowMillis / 1000 - ts) > ReplayWindowSeconds
    ensures HandleSpec(env, req, nowMillis, hmac, respond, services)
      == Exchange(Response(401, ErrorOnly(InvalidSignatureText)), [])
  {
    TimestampReadsBack(ts);
  }

  /**
   * A fresh request whose signature header has the wrong UTF-8 length is
   * answered 500, not 401: `timingSafeEqual` throws and the handler's catch
   * reports an internal error.
   */
  lemma MalformedSignatureIs500(env: Env, req: Request, ts: nat, nowMillis: nat, hmac: (string, string) -> Digest,
                                respond: seq<Call> -> Reply, services: Services)
    requires ValidateConfig(env) && !IsDevelopment(env)
    requires !(req.body.Parsed? && Truthy(req.body.value.challenge))
    requires req.timestamp == Some(NatToDecimal(ts))
    requires Abs(nowMillis / 1000 - ts) <= ReplayWindowSeconds
    requires req.signature.None? || Utf8Length(req.signature.value) != 67
    ensures HandleSpec(env, req, nowMillis, hmac, respond, services) == Exchange(InternalError, [])
  {
    TimestampReadsBack(ts);
  }

  /**
   * An authenticated request with a body is acknowledged with `200 {ok:
   * true}`, and the lookup runs, with its calls the only ones made, exactly
   * when the event is a `reaction_added` with the configured trigger emoji.
   */
  lemma AuthenticatedRequestAcknowledged(env: Env, req: Request, nowMillis: nat, hmac: (string, string) -> Digest,
                                         respond: seq<Call> -> Reply, services: Services)
    requires ValidateConfig(env) && !IsDevelopment(env)
    requires req.body.Parsed? && !Truthy(req.body.value.challenge)
    requires VerifySlackSignature(BodyText(req), req.signature, req.timestamp, env[SlackSigningSecretKey],
                                  nowMillis, hmac) == Accepted
    ensures var exchange := HandleSpec(env, req, nowMillis, hmac, respond, services);
      var event := req.body.value.event;
      && exchange.response == Response(200, Acknowledged)
      && (Triggers(event, TriggerEmoji(env)) ==> exchange.calls == LookupRequestLog([], event.value.item, respond, services))
      && (!Triggers(event, TriggerEmoji(env)) ==> exchange.calls == [])
  {
  }

  /**
   * Slack is only called for a request that passed every gate: valid
   * configuration, not development mode, no challenge, an accepted
   * signature, and a trigger reaction on an event that names its item.
   */
  lemma NoCallsUnlessAuthenticatedAndTriggered(env: Env, req: Request, nowMillis: nat,
                                               hmac: (string, string) -> Digest,
                                               respond: seq<Call> -> Reply, services: Services)
    requires HandleSpec(env, req, nowMillis, hmac, respond, services).calls != []
    ensures ValidateConfig(env) && !IsDevelopment(env)
    ensures req.body.Parsed? && !Truthy(req.body.value.challenge)
    ensures VerifySlackSignature(BodyText(req), req.signature, req.timestamp, env[SlackSigningSecretKey],
                                 nowMillis, hmac) == Accepted
    ensures Triggers(req.body.value.event, TriggerEmoji(env))
    ensures req.body.value.event.value.item.Some?
    ensures HandleSpec(env, req, nowMillis, hmac, respond, services).response == Response(200, Acknowledged)
  {
  }

  /**
   * A request without a parsed body is signed over "undefined" or "null";
   * when that signature is accepted, reading `req.body.event` throws and the
   * answer is a 500 with no Slack call.
   */
  lemma BodilessRequestIs500(env: Env, req: Request, nowMillis: nat, hmac: (string, string) -> Digest,
                             respond: seq<Call> -> Reply, services: Services)
    requires ValidateConfig(env) && !IsDevelopment(env)
    requires !req.body.Parsed?
    requires VerifySlackSignature(BodyText(req), req.signature, req.timestamp, env[SlackSigningSecretKey],
                                  nowMillis, hmac) == Accepted
    ensures BodyText(req) == if req.body.Null? then "null" else "undefined"
    ensures HandleSpec(env, req, nowMillis, hmac, respond, services) == Exchange(InternalError, [])
  {
  }

  /** Every answer is 200, 400, 401 or 500, and 400 only comes from the development endpoint. */
  lemma StatusCodes(env: Env, req: Request, nowMillis: nat, hmac: (string, string) -> Digest,
                    respond: seq<Call> -> Reply, services: Services)
    ensures var status := HandleSpec(env, req, nowMillis, hmac, respond, services).response.status;
      && status in {200, 400, 401, 500}
      && (status == 400 ==> IsDevelopment(env))
      && (status == 401 ==> !IsDevelopment(env) && ValidateConfig(env))
  {
  }

  // ---------------------------------------------------------------------------
  // What the lookup promises
  // ---------------------------------------------------------------------------

  /** The reply to the history call made first, when it carries at least one message. */
  predicate HistoryAnswered(item: Item, respond: seq<Call> -> Reply) {
    var reply := respond([History(item.channel, item.ts)]);
    reply.Answered? && reply.messages.Some? && |reply.messages.value| > 0
  }

  /** What the extraction made of the reacted-to message. */
  function Extracted(item: Item, respond: seq<Call> -> Reply, services: Services): Outcome<Option<string>>
    requires HistoryAnswered(item, respond)
  {
    services.extractCharityName(respond([History(item.channel, item.ts)]).messages.value[0].text)
  }

  /** A call made after reading the message: a post into the item's thread or an update in the item's channel. */
  predicate InThread(c: Call, item: Item) {
    !c.History? && c.channel == item.channel && (c.Post? ==> c.threadTs == item.ts)
  }

  /** The inner try/catch adds one or two updates, each of the progress message. */
  lemma UpdateShape(log: seq<Call>, item: Item, charityName: string, placeholderTs: Option<string>,
                    respond: seq<Call> -> Reply, services: Services)
    ensures var step := LookupAndUpdateSpec(log, item, charityName, placeholderTs, respond, services);
      && |log| + 1 <= |step.log| <= |log| + 2
      && step.log[..|log|] == log
      && (forall i :: |log| <= i < |step.log| ==>
            step.log[i].Update? && step.log[i].channel == item.channel && step.log[i].ts == placeholderTs)
  {
    var lookup := LookupOutcome(charityName, services.searchCharity(charityName), services.domainName);
    var step := LookupAndUpdateSpec(log, item, charityName, placeholderTs, respond, services);
    if lookup.Ok? {
      var log1 := log + [Update(item.channel, placeholderTs, CharityReport(lookup.value, charityName, services.hostLabel))];
      assert log1[..|log|] == log;
      if !respond(log1).Answered? {
        assert step.log[..|log1|] == log1;
      }
    } else {
      assert step.log[..|log|] == log;
    }
  }

  /** The outer try block reads the message, then makes at most three calls in the item's thread. */
  lemma TryShape(log: seq<Call>, item: Item, respond: seq<Call> -> Reply, services: Services)
    ensures var step := LookupTrySpec(log, item, respond, services);
      && |log| + 1 <= |step.log| <= |log| + 4
      && step.log[..|log| + 1] == log + [History(item.channel, item.ts)]
      && (forall i :: |log| < i < |step.log| ==> InThread(step.log[i], item))
  {
    var log1 := log + [History(item.channel, item.ts)];
    var step := LookupTrySpec(log, item, respond, services);
    var history := respond(log1);
    if !(history.Failed? || history.messages.None? || |history.messages.value| == 0) {
      var extracted := services.extractCharityName(history.messages.value[0].text);
      if extracted.Ok? {
        var text := if !Truthy(extracted.value) then FormatErrorMessage("", ExtractionFailedError)
                    else SearchingText(extracted.value.value);
        var log2 := log1 + [Post(item.channel, item.ts, text)];
        assert log2[..|log1|] == log1;
        if Truthy(extracted.value) && respond(log2).Answered? {
          UpdateShape(log2, item, extracted.value.value, respond(log2).ts, respond, services);
          assert step.log[..|log2|] == log2;
          assert step.log[..|log1|] == log2[..|log1|];
        }
      }
    }
  }

  /**
   * For every answer Slack and the services can give, the lookup first reads
   * the reacted-to message and then makes at most four more calls, each a
   * post into the item's thread or an update in the item's channel.
   */
  lemma LookupCallShape(item: Item, respond: seq<Call> -> Reply, services: Services)
    ensures var log := LookupRequestLog([], Some(item), respond, services);
      && 2 <= |log| <= 5
      && log[0] == History(item.channel, item.ts)
      && (forall i :: 1 <= i < |log| ==> InThread(log[i], item))
  {
    var step := LookupTrySpec([], item, respond, services);
    TryShape([], item, respond, services);
    assert step.log[0] == step.log[..1][0];
    if step.thrown {
      var log := step.log + [GenericPost(item)];
      assert forall i :: 1 <= i < |step.log| ==> log[i] == step.log[i];
    }
  }

  /**
   * When no charity name is found the lookup makes exactly one post, in the
   * thread, with the `extraction_failed` text, and never updates a message;
   * the apology follows only when that post fails.
   */
  lemma ExtractionFailedPostsOnce(item: Item, respond: seq<Call> -> Reply, services: Services)
    requires HistoryAnswered(item, respond)
    requires Extracted(item, respond, services).Ok? && !Truthy(Extracted(item, respond, services).value)
    ensures var log := LookupRequestLog([], Some(item), respond, services);
      var first := [History(item.channel, item.ts), Post(item.channel, item.ts, ExtractionFailedText)];
      && (respond(first).Answered? ==> log == first)
      && (respond(first).Failed? ==> log == first + [GenericPost(item)])
      && (forall i :: 0 <= i < |log| ==> !log[i].Update?)
  {
    var log1 := [History(item.channel, item.ts)];
    assert [] + log1 == log1;
    var first := log1 + [Post(item.channel, item.ts, ExtractionFailedText)];
    assert first == [History(item.channel, item.ts), Post(item.channel, item.ts, ExtractionFailedText)];
    assert FormatErrorMessage("", ExtractionFailedError) == ExtractionFailedText;
    assert LookupTrySpec([], item, respond, services) == Step(first, respond(first).Failed?);
  }

  /**
   * With a name found, the second call posts `Searching for "<name>"...` in
   * the thread. When that post succeeds, every later update targets the same
   * channel and the `ts` Slack returned for the post: the report when the
   * lookup resolves, then the `api_error` text if that update fails; the
   * `api_error` text at once when the lookup rejects. The apology is posted
   * exactly when that `api_error` update is refused too.
   */
  lemma SearchingPlaceholderThenUpdates(item: Item, respond: seq<Call> -> Reply, services: Services)
    requires HistoryAnswered(item, respond)
    requires Extracted(item, respond, services).Ok? && Truthy(Extracted(item, respond, services).value)
    ensures var charityName := Extracted(item, respond, services).value.value;
      var log := LookupRequestLog([], Some(item), respond, services);
      var placeholder := [History(item.channel, item.ts), Post(item.channel, item.ts, SearchingText(charityName))];
      var lookup := LookupOutcome(charityName, services.searchCharity(charityName), services.domainName);
      && |log| >= 2
      && log[..2] == placeholder
      && (respond(placeholder).Failed? ==> log == placeholder + [GenericPost(item)])
      && (respond(placeholder).Answered? ==>
            var pts := respond(placeholder).ts;
            var errorUpdate := Update(item.channel, pts, FormatErrorMessage(charityName, ApiError));
            && (forall i :: 2 <= i < |log| && log[i].Update? ==> log[i].channel == item.channel && log[i].ts == pts)
            && (lookup.Fail? ==>
                  var withError := placeholder + [errorUpdate];
                  log == if respond(withError).Failed? then withError + [GenericPost(item)] else withError)
            && (lookup.Ok? ==>
                  var reportUpdate := [Update(item.channel, pts, CharityReport(lookup.value, charityName, services.hostLabel))];
                  && (respond(placeholder + reportUpdate).Answered? ==> log == placeholder + reportUpdate)
                  && (respond(placeholder + reportUpdate).Failed? ==>
                        var withError := placeholder + reportUpdate + [errorUpdate];
                        log == if respond(withError).Failed? then withError + [GenericPost(item)] else withError)))
  {
    var charityName := Extracted(item, respond, services).value.value;
    var log1 := [History(item.channel, item.ts)];
    assert [] + log1 == log1;
    var placeholder := log1 + [Post(item.channel, item.ts, SearchingText(charityName))];
    var step := LookupTrySpec([], item, respond, services);
    var log := LookupRequestLog([], Some(item), respond, services);
    if respond(placeholder).Failed? {
      assert step == Step(placeholder, true);
    } else {
      var pts := respond(placeholder).ts;
      assert step == LookupAndUpdateSpec(placeholder, item, charityName, pts, respond, services);
      UpdateShape(placeholder, item, charityName, pts, respond, services);
      assert log[..|step.log|] == step.log;
      assert log[..2] == step.log[..2];
    }
  }

  /**
   * When reading the message fails, comes back empty, or the extraction
   * throws, the lookup's only other call is the apology: the `api_error`
   * text without a name, posted in the thread.
   */
  lemma EarlyFailuresPostApology(item: Item, respond: seq<Call> -> Reply, services: Services)
    requires !HistoryAnswered(item, respond) || Extracted(item, respond, services).Fail?
    ensures LookupRequestLog([], Some(item), respond, services)
      == [History(item.channel, item.ts), Post(item.channel, item.ts, ApiErrorText)]
  {
    var log1 := [History(item.channel, item.ts)];
    assert [] + log1 == log1;
    assert LookupTrySpec([], item, respond, services) == Step(log1, true);
    assert FormatErrorMessage("", ApiError) == ApiErrorText;
  }

  /** A reaction event without an item makes no call at all. */
  lemma MissingItemMakesNoCall(log: seq<Call>, respond: seq<Call> -> Reply, services: Services)
    ensures LookupRequestLog(log, None, respond, services) == log
  {
  }

  // ---------------------------------------------------------------------------
  // What the development endpoint promises
  // ---------------------------------------------------------------------------

  /**
   * The development endpoint answers 400 exactly for a missing or empty
   * message, 500 exactly for a missing body or an extraction that throws, and
   * 200 otherwise; a report is returned only for an extracted name and a
   * lookup that resolved, and it is that lookup's rendering.
   */
  lemma DevModeOutcomes(body: Body, services: Services)
    ensures var response := DevModeResponse(body, services);
      && (response.status == 400 <==> body.Parsed? && !Truthy(body.value.message))
      && (response.status == 500 <==>
            !body.Parsed? || (Truthy(body.value.message) && services.extractCharityName(body.value.message).Fail?))
      && (!body.Parsed? ==>
            response.body == ErrorDetails(InternalServerErrorText, if body.Null? then NullBodyText else UndefinedBodyText))
      && (response.status in {200, 400, 500})
      && (response.body.ReportReady? ==>
            && response.body.extractedName != ""
            && response.body.message == body.value.message.value
            && LookupOutcome(response.body.extractedName, services.searchCharity(response.body.extractedName),
                             services.domainName) == Ok(response.body.charityData)
            && response.body.report
               == CharityReport(response.body.charityData, response.body.extractedName, services.hostLabel))
  {
  }
}
