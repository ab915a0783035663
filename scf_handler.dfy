/** The cloud-function entry point of index.js, `main_handler(event)`: the
    event carries the HTTP method and the body as a string, possibly
    base64-encoded; the function returns `{statusCode, headers, body}`. The
    system prompt comes from a skill file, read through the `readSkill`
    oracle. Base64 decoding and JSON.parse are oracles too. */
module ScfHandler {
  import opened JsSemantics
  import opened Prompts
  import opened Gateway

  /** The fields of the event that the handler reads. */
  datatype Event = Event(httpMethod: string, body: string, isBase64Encoded: bool)

  /** The returned `{statusCode, headers, body}`; `body` is the JSON text of
      the modelled `Body` (an empty string for `NoBody`). */
  datatype ScfResponse = ScfResponse(statusCode: int, headers: map<string, string>, body: Body)

  /** `res.headers`: the CORS headers and the JSON content type, on every
      response, the preflight included. */
  const ResponseHeaders: map<string, string> := CorsHeaders["Content-Type" := "application/json"]

  /** The text handed to JSON.parse: the event body, base64-decoded first
      when the event says it is encoded. */
  function RequestText(event: Event, decode: string -> string): string {
    if event.isBase64Encoded then decode(event.body) else event.body
  }

  /** `main_handler` as a function of the event and the oracles. */
  function MainHandlerSpec(event: Event, decode: string -> string,
                           parse: string -> Result<JsValue, string>, apiKey: Option<string>,
                           readSkill: string -> ReadResult,
                           fetch: UpstreamRequest -> Fetched): (o: Outcome)
    ensures event.httpMethod == "OPTIONS" ==> o == PreflightOutcome
    ensures event.httpMethod != "OPTIONS" && event.httpMethod != "POST" ==> o == NotAllowedOutcome
    ensures o.status == 200 || o.status == 405 || o.status == 500
    ensures o.status == 200 <==> event.httpMethod == "OPTIONS" || o.body.Payload?
    ensures o.status == 500 ==> o.body.ErrorPayload? && o.body.error != Text("")
    ensures o.forwarded.Some? ==> event.httpMethod == "POST" && TruthyString(apiKey)
    ensures event.httpMethod == "POST" && parse(RequestText(event, decode)).Ok?
              && Nullish(parse(RequestText(event, decode)).value) ==>
      o == Outcome(500, ErrorPayload(EngineTypeError(DestructureBody)), None)
    ensures o.forwarded.Some? ==>
      && parse(RequestText(event, decode)).Ok?
      && var v := parse(RequestText(event, decode)).value;
      && !Nullish(v) && StripMessages(Prop(v, "messages")).Ok?
      && o.forwarded.value == UpstreamRequest(apiKey.value,
                                              Assemble(SkillContent(Prop(v, "feature"), readSkill),
                                                       StripMessages(Prop(v, "messages")).value))
    ensures o.forwarded.Some? ==>
      match Settle(fetch(o.forwarded.value))
      case Ok(b) => o.status == 200 && o.body == b
      case Err(e) => o.status == 500 && o.body == ErrorPayload(CaughtMessage(e))
  {
    if event.httpMethod == "OPTIONS" then PreflightOutcome
    else if event.httpMethod != "POST" then NotAllowedOutcome
    else
      match parse(RequestText(event, decode))
      case Err(message) => Caught(Text(message), None)
      case Ok(request) =>
        if Nullish(request) then Caught(EngineTypeError(DestructureBody), None)
        else
          Exchange(apiKey, Prop(request, "messages"),
                   SkillContent(Prop(request, "feature"), readSkill), fetch)
  }

  /** `main_handler`: `body` is reassigned when the event is base64-encoded,
      and the shared pipeline `Forward` does the rest. Every response
      carries `ResponseHeaders`. */
  method MainHandler(event: Event, decode: string -> string,
                     parse: string -> Result<JsValue, string>, apiKey: Option<string>,
                     readSkill: string -> ReadResult, fetch: UpstreamRequest -> Fetched)
    returns (response: ScfResponse, forwarded: Option<UpstreamRequest>)
    ensures response.headers == ResponseHeaders
    ensures var o := MainHandlerSpec(event, decode, parse, apiKey, readSkill, fetch);
      response.statusCode == o.status && response.body == o.body && forwarded == o.forwarded
  {
    if event.httpMethod == "OPTIONS" {
      return ScfResponse(200, ResponseHeaders, NoBody), None;
    }
    if event.httpMethod != "POST" {
      return ScfResponse(405, ResponseHeaders, ErrorPayload(Text(MethodNotAllowed))), None;
    }
    var body := event.body;
    if event.isBase64Encoded {
      body := decode(event.body);
    }
    var parsed := parse(body);
    if parsed.Err? {
      var failure := Caught(Text(parsed.error), None);
      return ScfResponse(failure.status, ResponseHeaders, failure.body), None;
    }
    if Nullish(parsed.value) {
      var failure := Caught(EngineTypeError(DestructureBody), None);
      return ScfResponse(failure.status, ResponseHeaders, failure.body), None;
    }
    var messages := Prop(parsed.value, "messages");
    var feature := Prop(parsed.value, "feature");
    var o := Forward(apiKey, messages, SkillContent(feature, readSkill), fetch);
    response := ScfResponse(o.status, ResponseHeaders, o.body);
    forwarded := o.forwarded;
  }

  /** Every response, whatever its status, carries the three CORS headers. */
  lemma EveryResponseHasCors()
    ensures forall h :: h in CorsHeaders ==> h in ResponseHeaders && ResponseHeaders[h] == CorsHeaders[h]
  {
  }

  /** A base64-encoded event behaves as the same event with its body
      decoded beforehand and the flag cleared. */
  lemma Base64Transparent(event: Event, decode: string -> string,
                          parse: string -> Result<JsValue, string>, apiKey: Option<string>,
                          readSkill: string -> ReadResult, fetch: UpstreamRequest -> Fetched)
    requires event.isBase64Encoded
    ensures MainHandlerSpec(event, decode, parse, apiKey, readSkill, fetch)
      == MainHandlerSpec(Event(event.httpMethod, decode(event.body), false), decode, parse, apiKey, readSkill, fetch)
  {
  }

  /** The body is parsed before the key is checked: an unparseable body is
      a 500 carrying the parser's message (or '服务器错误' if it is empty),
      whether or not a key is configured, and nothing goes upstream. */
  lemma ParseErrorBeforeKeyCheck(event: Event, decode: string -> string,
                                 parse: string -> Result<JsValue, string>, apiKey: Option<string>,
                                 readSkill: string -> ReadResult, fetch: UpstreamRequest -> Fetched)
    requires event.httpMethod == "POST" && parse(RequestText(event, decode)).Err?
    ensures var message := parse(RequestText(event, decode)).error;
      MainHandlerSpec(event, decode, parse, apiKey, readSkill, fetch)
        == Outcome(500, ErrorPayload(Text(if message == "" then ServerError else message)), None)
  {
  }

  /** With a parsed request object and no usable key, the answer is 500
      'API Key未配置' and nothing goes upstream. */
  lemma MissingKeyNoUpstream(event: Event, decode: string -> string,
                             parse: string -> Result<JsValue, string>, apiKey: Option<string>,
                             readSkill: string -> ReadResult, fetch: UpstreamRequest -> Fetched)
    requires event.httpMethod == "POST"
    requires parse(RequestText(event, decode)).Ok? && !Nullish(parse(RequestText(event, decode)).value)
    requires !TruthyString(apiKey)
    ensures MainHandlerSpec(event, decode, parse, apiKey, readSkill, fetch)
      == Outcome(500, ErrorPayload(Text(MissingKey)), None)
  {
  }

  /** A known feature whose skill file reads as empty text sends the
      caller's messages upstream with no system message in front. */
  lemma EmptySkillFileNoSystemMessage(event: Event, decode: string -> string,
                                      parse: string -> Result<JsValue, string>, apiKey: Option<string>,
                                      readSkill: string -> ReadResult, fetch: UpstreamRequest -> Fetched,
                                      items: seq<JsValue>, feature: JsValue)
    requires event.httpMethod == "POST" && TruthyString(apiKey)
    requires parse(RequestText(event, decode)) == Ok(Obj(map["messages" := Arr(items), "feature" := feature]))
    requires forall i :: 0 <= i < |items| ==> !Nullish(items[i])
    requires FeatureKey(feature) in FeatureKeys && readSkill(SkillFiles[FeatureKey(feature)]) == Found("")
    ensures var o := MainHandlerSpec(event, decode, parse, apiKey, readSkill, fetch);
      o.forwarded.Some? && |o.forwarded.value.messages| == |items|
      && forall i :: 0 <= i < |items| ==> o.forwarded.value.messages[i] == Strip(items[i])
  {
    var request := Obj(map["messages" := Arr(items), "feature" := feature]);
    assert Prop(request, "messages") == Arr(items);
    assert Prop(request, "feature") == feature;
  }

  /** What index.js sends upstream for a parsed request object whose
      messages strip: the key and the stripped messages, with the skill
      file's text in front as the system message when that text is
      non-empty. A known feature whose file is read puts the file's text
      there; one whose read fails puts the default prompt there. */
  lemma SkillPromptForwarded(event: Event, decode: string -> string,
                             parse: string -> Result<JsValue, string>, apiKey: Option<string>,
                             readSkill: string -> ReadResult, fetch: UpstreamRequest -> Fetched,
                             v: JsValue)
    requires event.httpMethod == "POST" && TruthyString(apiKey)
    requires parse(RequestText(event, decode)) == Ok(v) && !Nullish(v)
    requires StripMessages(Prop(v, "messages")).Ok?
    ensures var o := MainHandlerSpec(event, decode, parse, apiKey, readSkill, fetch);
      o.forwarded == Some(UpstreamRequest(apiKey.value,
                                          Assemble(SkillContent(Prop(v, "feature"), readSkill),
                                                   StripMessages(Prop(v, "messages")).value)))
    ensures var o := MainHandlerSpec(event, decode, parse, apiKey, readSkill, fetch);
      var key := FeatureKey(Prop(v, "feature"));
      var stripped := StripMessages(Prop(v, "messages")).value;
      key in FeatureKeys ==>
        match readSkill(SkillFiles[key])
        case Found(text) =>
          text != "" ==> o.forwarded.Some? && o.forwarded.value.messages == [SystemMessage(text)] + stripped
        case Failed(_) =>
          o.forwarded.Some? && o.forwarded.value.messages == [SystemMessage(DefaultPrompt())] + stripped
  {
  }

  /** The answer to an ok upstream reply: with a non-empty `choices` whose
      first element is not null, 200 with that choice's text and the
      reply's `id`; with a null first choice, the TypeError's message; with
      a missing or empty `choices`, 500 with a format error carrying the
      reply. The request has gone upstream in every case. */
  lemma OkReplyAnswer(event: Event, decode: string -> string,
                      parse: string -> Result<JsValue, string>, apiKey: Option<string>,
                      readSkill: string -> ReadResult, fetch: UpstreamRequest -> Fetched,
                      v: JsValue, request: UpstreamRequest, data: JsValue)
    requires event.httpMethod == "POST" && TruthyString(apiKey)
    requires parse(RequestText(event, decode)) == Ok(v) && !Nullish(v)
    requires StripMessages(Prop(v, "messages")).Ok?
    requires request == UpstreamRequest(apiKey.value,
                                        Assemble(SkillContent(Prop(v, "feature"), readSkill),
                                                 StripMessages(Prop(v, "messages")).value))
    requires fetch(request) == Reply(true, Ok(data)) && !Nullish(data)
    ensures var o := MainHandlerSpec(event, decode, parse, apiKey, readSkill, fetch);
      && (HasChoices(data) && !Nullish(Index0(Prop(data, "choices"))) ==>
            o == Outcome(200, Payload(ChoiceContent(Index0(Prop(data, "choices"))), Prop(data, "id")),
                         Some(request)))
      && (HasChoices(data) && Nullish(Index0(Prop(data, "choices"))) ==>
            o == Outcome(500, ErrorPayload(EngineTypeError(ChoiceNullish)), Some(request)))
      && (!HasChoices(data) ==> o == Outcome(500, ErrorPayload(FormatError(data)), Some(request)))
  {
  }
}
