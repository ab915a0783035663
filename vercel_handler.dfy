/** The serverless entry point of api/chat.js, `handler(req, res)`: the
    request body is already parsed, and the handler answers by mutating the
    response object (`setHeader`, `status`, `json`, `end`). The system prompt
    comes from the inline table of `getSystemPrompt`. */
module VercelHandler {
  import opened JsSemantics
  import opened Prompts
  import opened Gateway

  /** The fields of `req` that the handler reads. */
  datatype Request = Request(httpMethod: string, body: JsValue)

  /** The part of the platform's response object the handler uses. */
  class ServerResponse {
    var statusCode: int
    var headers: map<string, string>
    var body: Body
    var finished: bool

    /** A fresh response, as the platform hands it to the handler. */
    constructor ()
      ensures statusCode == 200 && headers == map[] && body == NoBody && !finished
    {
      statusCode := 200;
      headers := map[];
      body := NoBody;
      finished := false;
    }

    /** `res.setHeader(name, value)`. */
    method SetHeader(name: string, value: string)
      modifies this
      ensures headers == old(headers)[name := value]
      ensures statusCode == old(statusCode) && body == old(body) && finished == old(finished)
    {
      headers := headers[name := value];
    }

    /** `res.status(code)`. */
    method Status(code: int)
      modifies this
      ensures statusCode == code
      ensures headers == old(headers) && body == old(body) && finished == old(finished)
    {
      statusCode := code;
    }

    /** `res.json(payload)`: sends the body and finishes the response. */
    method Json(payload: Body)
      modifies this
      ensures body == payload && finished
      ensures headers == old(headers) && statusCode == old(statusCode)
    {
      body := payload;
      finished := true;
    }

    /** `res.end()`: finishes the response with what was written, here nothing. */
    method End()
      modifies this
      ensures finished
      ensures headers == old(headers) && statusCode == old(statusCode) && body == old(body)
    {
      finished := true;
    }
  }

  /** `handler` as a function of the request and the oracles. */
  function HandlerSpec(req: Request, apiKey: Option<string>,
                       fetch: UpstreamRequest -> Fetched): (o: Outcome)
    ensures req.httpMethod == "OPTIONS" ==> o == PreflightOutcome
    ensures req.httpMethod != "OPTIONS" && req.httpMethod != "POST" ==> o == NotAllowedOutcome
    ensures o.status == 200 || o.status == 405 || o.status == 500
    ensures o.status == 200 <==> req.httpMethod == "OPTIONS" || o.body.Payload?
    ensures o.status == 500 ==> o.body.ErrorPayload? && o.body.error != Text("")
    ensures o.forwarded.Some? ==> req.httpMethod == "POST" && TruthyString(apiKey)
    ensures req.httpMethod == "POST" && Nullish(req.body) ==>
      o == Outcome(500, ErrorPayload(EngineTypeError(DestructureBody)), None)
    ensures req.httpMethod == "POST" && !Nullish(req.body) && !TruthyString(apiKey) ==>
      o == Outcome(500, ErrorPayload(Text(MissingKey)), None)
    ensures o.forwarded.Some? ==>
      && !Nullish(req.body) && StripMessages(Prop(req.body, "messages")).Ok?
      && o.forwarded.value == UpstreamRequest(apiKey.value,
                                              Assemble(SystemPrompt(Prop(req.body, "feature")),
                                                       StripMessages(Prop(req.body, "messages")).value))
    ensures o.forwarded.Some? ==>
      match Settle(fetch(o.forwarded.value))
      case Ok(b) => o.status == 200 && o.body == b
      case Err(e) => o.status == 500 && o.body == ErrorPayload(CaughtMessage(e))
  {
    if req.httpMethod == "OPTIONS" then PreflightOutcome
    else if req.httpMethod != "POST" then NotAllowedOutcome
    else if Nullish(req.body) then Caught(EngineTypeError(DestructureBody), None)
    else
      Exchange(apiKey, Prop(req.body, "messages"), SystemPrompt(Prop(req.body, "feature")), fetch)
  }

  /** `handler(req, res)`: the CORS headers are set first, so they are on
      every response; the status and body end up as `HandlerSpec` says, and
      the response is finished. */
  method Handler(req: Request, apiKey: Option<string>, fetch: UpstreamRequest -> Fetched,
                 res: ServerResponse)
    returns (forwarded: Option<UpstreamRequest>)
    requires res.body == NoBody
    modifies res
    ensures res.headers == old(res.headers) + CorsHeaders
    ensures res.finished
    ensures var o := HandlerSpec(req, apiKey, fetch);
      res.statusCode == o.status && res.body == o.body && forwarded == o.forwarded
  {
    res.SetHeader(AllowOrigin, "*");
    res.SetHeader(AllowMethods, "POST, OPTIONS");
    res.SetHeader(AllowHeaders, "Content-Type");
    assert res.headers == old(res.headers) + CorsHeaders;

    if req.httpMethod == "OPTIONS" {
      res.Status(200);
      res.End();
      return None;
    }
    if req.httpMethod != "POST" {
      res.Status(405);
      res.Json(ErrorPayload(Text(MethodNotAllowed)));
      return None;
    }
    if Nullish(req.body) {
      var failure := Caught(EngineTypeError(DestructureBody), None);
      res.Status(failure.status);
      res.Json(failure.body);
      return None;
    }
    var messages := Prop(req.body, "messages");
    var feature := Prop(req.body, "feature");
    var o := Forward(apiKey, messages, SystemPrompt(feature), fetch);
    res.Status(o.status);
    res.Json(o.body);
    forwarded := o.forwarded;
  }

  /** Every entry of the table is non-empty, so a well-formed request with a
      key always goes upstream as one system message (the feature's prompt,
      or the generic one) followed by the caller's messages reduced to role
      and content, in the caller's order. */
  lemma AlwaysOneSystemMessage(req: Request, apiKey: Option<string>,
                               fetch: UpstreamRequest -> Fetched, items: seq<JsValue>)
    requires req.httpMethod == "POST" && TruthyString(apiKey)
    requires req.body.Obj? && "messages" in req.body.fields && req.body.fields["messages"] == Arr(items)
    requires forall i :: 0 <= i < |items| ==> !Nullish(items[i])
    ensures var o := HandlerSpec(req, apiKey, fetch);
      && o.forwarded.Some?
      && |o.forwarded.value.messages| == |items| + 1
      && o.forwarded.value.messages[0] == SystemMessage(SystemPrompt(Prop(req.body, "feature")))
      && forall i :: 0 <= i < |items| ==> o.forwarded.value.messages[i + 1] == Strip(items[i])
  {
  }

  /** The answer to an ok upstream reply: with a non-empty `choices` whose
      first element is not null, 200 with that choice's text and the
      reply's `id`; with a null first choice, the TypeError's message; with
      a missing or empty `choices`, 500 with a format error carrying the
      reply. The request that went upstream carries the table's prompt. */
  lemma OkReplyAnswer(req: Request, apiKey: Option<string>, fetch: UpstreamRequest -> Fetched,
                      request: UpstreamRequest, data: JsValue)
    requires req.httpMethod == "POST" && TruthyString(apiKey) && !Nullish(req.body)
    requires StripMessages(Prop(req.body, "messages")).Ok?
    requires request == UpstreamRequest(apiKey.value,
                                        Assemble(SystemPrompt(Prop(req.body, "feature")),
                                                 StripMessages(Prop(req.body, "messages")).value))
    requires fetch(request) == Reply(true, Ok(data)) && !Nullish(data)
    ensures var o := HandlerSpec(req, apiKey, fetch);
      && (HasChoices(data) && !Nullish(Index0(Prop(data, "choices"))) ==>
            o == Outcome(200, Payload(ChoiceContent(Index0(Prop(data, "choices"))), Prop(data, "id")),
                         Some(request)))
      && (HasChoices(data) && Nullish(Index0(Prop(data, "choices"))) ==>
            o == Outcome(500, ErrorPayload(EngineTypeError(ChoiceNullish)), Some(request)))
      && (!HasChoices(data) ==> o == Outcome(500, ErrorPayload(FormatError(data)), Some(request)))
  {
  }
}
