/** The request pipeline both handlers run once the method is POST and the
    body has been read: the API-key check, stripping the caller's messages to
    `{role, content}`, prepending the system prompt, one call upstream, and
    turning the upstream reply into a status and a body. index.js and
    api/chat.js spell this out twice with the same code; it is modelled once. */
module Gateway {
  import opened JsSemantics

  /** A message as forwarded upstream, `{role: msg.role, content: msg.content}`:
      it has these two fields and no other. */
  datatype ChatMessage = ChatMessage(role: JsValue, content: JsValue)

  function SystemMessage(prompt: string): ChatMessage {
    ChatMessage(Str("system"), Str(prompt))
  }

  /** Where the engine throws a TypeError (the engine's wording of the
      message is not modelled; every such message is non-empty). */
  datatype Site =
    | DestructureBody   // `const { messages, feature } = <null or undefined>`
    | MessagesNotArray  // `messages.map` on a value that is not an array
    | MessageNullish    // `msg.role` on a null or undefined message
    | ReplyNullish      // `data.choices` or `errorData.base_resp` on null
    | ChoiceNullish     // `data.choices[0].message` on a null or undefined choice

  /** The `error` text of a failure body. */
  datatype ErrorText =
    | Text(s: string)
    | FormatError(raw: JsValue)  // FormatErrorPrefix followed by the JSON text of raw
    | EngineTypeError(site: Site)

  /** A response body, before JSON serialisation. In `Payload` a field that
      is `Undefined` is dropped by JSON.stringify. */
  datatype Body =
    | NoBody
    | Payload(content: JsValue, id: JsValue)
    | ErrorPayload(error: ErrorText)

  /** The request sent upstream: the bearer key and the messages (the model
      name, temperature and token limit are constants). */
  datatype UpstreamRequest = UpstreamRequest(apiKey: string, messages: seq<ChatMessage>)

  /** What `fetch` gives: a rejected promise with its message, or a reply
      whose `ok` flag is set for a 2xx status and whose `response.json()`
      either parses or throws with a message. */
  datatype Fetched =
    | NetworkError(message: string)
    | Reply(ok: bool, json: Result<JsValue, string>)

  /** A handler's observable result: the status, the body, and the request
      sent upstream, if one was. */
  datatype Outcome = Outcome(status: int, body: Body, forwarded: Option<UpstreamRequest>)

  const AllowOrigin := "Access-Control-Allow-Origin"
  const AllowMethods := "Access-Control-Allow-Methods"
  const AllowHeaders := "Access-Control-Allow-Headers"

  /** The three CORS headers both handlers put on every response. */
  const CorsHeaders: map<string, string> :=
    map[AllowOrigin := "*", AllowMethods := "POST, OPTIONS", AllowHeaders := "Content-Type"]

  const MethodNotAllowed := "Method not allowed"
  const MissingKey := "API Key未配置"
  const RequestFailed := "API请求失败"
  const ServerError := "服务器错误"
  const FormatErrorPrefix := "API返回数据格式错误: "

  /** The outcome of a method other than OPTIONS and POST. */
  const NotAllowedOutcome := Outcome(405, ErrorPayload(Text(MethodNotAllowed)), None)

  /** The outcome of an OPTIONS preflight. */
  const PreflightOutcome := Outcome(200, NoBody, None)

  /** `error.message || '服务器错误'` in the `catch` block: the text of a
      caught error, with an empty message replaced. */
  function CaughtMessage(e: ErrorText): (r: ErrorText)
    ensures r != Text("")
    ensures e != Text("") ==> r == e
    ensures e == Text("") ==> r == Text(ServerError)
  {
    if e == Text("") then Text(ServerError) else e
  }

  /** The body and status of a failure caught by the `catch` block. */
  function Caught(e: ErrorText, forwarded: Option<UpstreamRequest>): (o: Outcome)
    ensures o.status == 500 && o.body.ErrorPayload? && o.body.error != Text("")
    ensures o.body == ErrorPayload(CaughtMessage(e))
    ensures o.forwarded == forwarded
  {
    Outcome(500, ErrorPayload(CaughtMessage(e)), forwarded)
  }

  /** `{role: msg.role, content: msg.content}` for one message. */
  function Strip(msg: JsValue): ChatMessage
    requires !Nullish(msg)
  {
    ChatMessage(Prop(msg, "role"), Prop(msg, "content"))
  }

  /** `items.map(msg => ({role: msg.role, content: msg.content}))`: it throws
      exactly when some message is null or undefined, and otherwise keeps
      every message, in order, stripped to its role and content. */
  function StripEach(items: seq<JsValue>): (r: Result<seq<ChatMessage>, Site>)
    ensures r.Ok? <==> forall i :: 0 <= i < |items| ==> !Nullish(items[i])
    ensures r.Ok? ==> |r.value| == |items|
    ensures r.Ok? ==> forall i :: 0 <= i < |items| ==> r.value[i] == Strip(items[i])
    ensures r.Err? ==> r.error == MessageNullish
  {
    if items == [] then Ok([])
    else if Nullish(items[0]) then Err(MessageNullish)
    else
      match StripEach(items[1..])
      case Ok(rest) => Ok([Strip(items[0])] + rest)
      case Err(site) => Err(site)
  }

  /** `messages.map(...)` on the request's `messages` value: only an array
      has a `map` method. */
  function StripMessages(messages: JsValue): (r: Result<seq<ChatMessage>, Site>)
    ensures !messages.Arr? ==> r == Err(MessagesNotArray)
    ensures messages.Arr? ==> r == StripEach(messages.items)
  {
    if messages.Arr? then StripEach(messages.items) else Err(MessagesNotArray)
  }

  /** The stripped messages after `if (prompt) minimaxMessages.unshift(...)`:
      the caller's messages stay at the tail, in order, and exactly one
      system message is put in front of them when the prompt is non-empty. */
  function Assemble(prompt: string, stripped: seq<ChatMessage>): (r: seq<ChatMessage>)
    ensures |r| == |stripped| + (if prompt != "" then 1 else 0)
    ensures r[|r| - |stripped|..] == stripped
    ensures prompt != "" ==> r[0] == SystemMessage(prompt)
  {
    if prompt != "" then [SystemMessage(prompt)] + stripped else stripped
  }

  /** `errorData.base_resp?.status_msg`. */
  function StatusMessage(errorData: JsValue): JsValue
    requires !Nullish(errorData)
  {
    OptProp(Prop(errorData, "base_resp"), "status_msg")
  }

  /** The error thrown for a reply that is not ok:
      `new Error(errorData.base_resp?.status_msg || 'API请求失败')`. */
  function UpstreamFailure(errorData: JsValue): (r: ErrorText)
    ensures Nullish(errorData) ==> r == EngineTypeError(ReplyNullish)
    ensures !Nullish(errorData) && Truthy(StatusMessage(errorData)) ==>
      r == Text(ToJsString(StatusMessage(errorData)))
    ensures !Nullish(errorData) && !Truthy(StatusMessage(errorData)) ==> r == Text(RequestFailed)
  {
    if Nullish(errorData) then EngineTypeError(ReplyNullish)
    else Text(ToJsString(Or(StatusMessage(errorData), Str(RequestFailed))))
  }

  /** `data.choices && data.choices.length > 0`. */
  predicate HasChoices(data: JsValue)
    requires !Nullish(data)
  {
    var choices := Prop(data, "choices");
    Truthy(choices) && Positive(Prop(choices, "length"))
  }

  /** The reply text of one choice:
      `choice.message?.content || choice?.content || choice?.text`. The first
      truthy candidate wins; when none is truthy, the last one, `text`, is
      taken as it is (possibly undefined or empty). */
  function ChoiceContent(choice: JsValue): (r: JsValue)
    requires !Nullish(choice)
    ensures Truthy(OptProp(Prop(choice, "message"), "content")) ==>
      r == OptProp(Prop(choice, "message"), "content")
    ensures !Truthy(OptProp(Prop(choice, "message"), "content")) && Truthy(Prop(choice, "content")) ==>
      r == Prop(choice, "content")
    ensures !Truthy(OptProp(Prop(choice, "message"), "content")) && !Truthy(Prop(choice, "content")) ==>
      r == Prop(choice, "text")
  {
    Or(OptProp(Prop(choice, "message"), "content"), Or(Prop(choice, "content"), Prop(choice, "text")))
  }

  /** The body of an ok reply, normalised: with a non-empty `choices`, the
      first choice's text and the top-level `id`; otherwise a format error
      carrying the whole reply. */
  function Normalize(data: JsValue): (r: Result<Body, ErrorText>)
    ensures Nullish(data) ==> r == Err(EngineTypeError(ReplyNullish))
    ensures !Nullish(data) && !HasChoices(data) ==> r == Err(FormatError(data))
    ensures r.Ok? ==> !Nullish(data) && HasChoices(data) && r.value.Payload? && r.value.id == Prop(data, "id")
    ensures r.Ok? ==>
      && !Nullish(Index0(Prop(data, "choices")))
      && r.value.content == ChoiceContent(Index0(Prop(data, "choices")))
    ensures !Nullish(data) && HasChoices(data) ==>
      (r.Ok? <==> !Nullish(Index0(Prop(data, "choices"))))
    ensures !Nullish(data) && HasChoices(data) && Nullish(Index0(Prop(data, "choices"))) ==>
      r == Err(EngineTypeError(ChoiceNullish))
  {
    if Nullish(data) then Err(EngineTypeError(ReplyNullish))
    else if HasChoices(data) then
      var first := Index0(Prop(data, "choices"));
      if Nullish(first) then Err(EngineTypeError(ChoiceNullish))
      else Ok(Payload(ChoiceContent(first), Prop(data, "id")))
    else Err(FormatError(data))
  }

  /** What the upstream exchange yields after `fetch`: a success body, or the
      error the `try` block throws. */
  function Settle(reply: Fetched): (r: Result<Body, ErrorText>)
    ensures reply.NetworkError? ==> r == Err(Text(reply.message))
    ensures reply.Reply? && reply.json.Err? ==> r == Err(Text(reply.json.error))
    ensures reply.Reply? && !reply.ok && reply.json.Ok? ==> r == Err(UpstreamFailure(reply.json.value))
    ensures reply.Reply? && reply.ok && reply.json.Ok? ==> r == Normalize(reply.json.value)
  {
    match reply
    case NetworkError(message) => Err(Text(message))
    case Reply(ok, json) =>
      match json
      case Err(message) => Err(Text(message))
      case Ok(value) => if ok then Normalize(value) else Err(UpstreamFailure(value))
  }

  /** The pipeline after the request body is read: the key check comes
      first and ends the request without an upstream call; then the
      messages are stripped (a failure also ends it without a call), the
      prompt is prepended, the request goes upstream once, and its reply is
      settled. Every failure is a 500 with a non-empty error text. */
  function Exchange(apiKey: Option<string>, messages: JsValue, prompt: string,
                    fetch: UpstreamRequest -> Fetched): (o: Outcome)
    ensures o.status == 200 || o.status == 500
    ensures o.status == 200 <==> o.body.Payload?
    ensures o.status == 500 ==> o.body.ErrorPayload? && o.body.error != Text("")
    ensures !TruthyString(apiKey) ==> o == Outcome(500, ErrorPayload(Text(MissingKey)), None)
    ensures o.forwarded.Some? <==> TruthyString(apiKey) && StripMessages(messages).Ok?
    ensures TruthyString(apiKey) && StripMessages(messages).Err? ==>
      o == Outcome(500, ErrorPayload(EngineTypeError(StripMessages(messages).error)), None)
    ensures o.forwarded.Some? ==>
      o.forwarded.value == UpstreamRequest(apiKey.value, Assemble(prompt, StripMessages(messages).value))
    ensures o.forwarded.Some? ==>
      match Settle(fetch(o.forwarded.value))
      case Ok(b) => o.status == 200 && o.body == b
      case Err(e) => o.status == 500 && o.body == ErrorPayload(CaughtMessage(e))
  {
    if !TruthyString(apiKey) then Outcome(500, ErrorPayload(Text(MissingKey)), None)
    else
      match StripMessages(messages)
      case Err(site) => Caught(EngineTypeError(site), None)
      case Ok(stripped) =>
        var request := UpstreamRequest(apiKey.value, Assemble(prompt, stripped));
        match Settle(fetch(request))
        case Ok(body) => Outcome(200, body, Some(request))
        case Err(e) => Caught(e, Some(request))
  }

  /** The pipeline as the handlers run it: `minimaxMessages` is built by
      `map`, and the local sequence is reassigned with the system message in
      front when there is a prompt (the model's rendering of `unshift`). */
  method Forward(apiKey: Option<string>, messages: JsValue, prompt: string,
                 fetch: UpstreamRequest -> Fetched) returns (o: Outcome)
    ensures o == Exchange(apiKey, messages, prompt, fetch)
  {
    if !TruthyString(apiKey) {
      return Outcome(500, ErrorPayload(Text(MissingKey)), None);
    }
    var mapped := StripMessages(messages);
    if mapped.Err? {
      return Caught(EngineTypeError(mapped.error), None);
    }
    var minimaxMessages := mapped.value;
    if prompt != "" {
      minimaxMessages := [SystemMessage(prompt)] + minimaxMessages;
    }
    var request := UpstreamRequest(apiKey.value, minimaxMessages);
    var settled := Settle(fetch(request));
    if settled.Err? {
      return Caught(settled.error, Some(request));
    }
    o := Outcome(200, settled.value, Some(request));
  }

  /** What goes upstream for an array of well-formed messages: the system
      message first when the prompt is non-empty, then each caller message
      reduced to its role and content, in the caller's order. */
  lemma ForwardedMessages(apiKey: Option<string>, items: seq<JsValue>, prompt: string,
                          fetch: UpstreamRequest -> Fetched)
    requires TruthyString(apiKey)
    requires forall i :: 0 <= i < |items| ==> !Nullish(items[i])
    ensures Exchange(apiKey, Arr(items), prompt, fetch).forwarded.Some?
    ensures var sent := Exchange(apiKey, Arr(items), prompt, fetch).forwarded.value.messages;
      var offset := if prompt != "" then 1 else 0;
      && |sent| == |items| + offset
      && (prompt != "" ==> sent[0] == SystemMessage(prompt))
      && forall i :: 0 <= i < |items| ==>
           sent[offset + i] == ChatMessage(Prop(items[i], "role"), Prop(items[i], "content"))
  {
    var stripped := StripEach(items).value;
    var sent := Assemble(prompt, stripped);
    assert Exchange(apiKey, Arr(items), prompt, fetch).forwarded == Some(UpstreamRequest(apiKey.value, sent));
    forall i | 0 <= i < |items|
      ensures sent[|sent| - |stripped| + i] == stripped[i]
    {
      assert sent[|sent| - |stripped|..][i] == stripped[i];
    }
  }

  /** The system messages sent upstream: the caller's own (none is removed
      or merged) plus one more exactly when the prompt is non-empty. */
  function CountSystem(ms: seq<ChatMessage>): (n: nat)
    ensures n <= |ms|
  {
    if ms == [] then 0
    else (if ms[0].role == Str("system") then 1 else 0) + CountSystem(ms[1..])
  }

  lemma {:induction false} AssembleAddsOneSystemMessage(prompt: string, stripped: seq<ChatMessage>)
    ensures CountSystem(Assemble(prompt, stripped)) == CountSystem(stripped) + (if prompt != "" then 1 else 0)
  {
  }

  /** A reply that is not ok gives 500 with `base_resp.status_msg` when it
      is truthy and 'API请求失败' otherwise. */
  lemma UpstreamErrorMapping(apiKey: Option<string>, messages: JsValue, prompt: string,
                             fetch: UpstreamRequest -> Fetched, errorData: JsValue)
    requires TruthyString(apiKey) && StripMessages(messages).Ok?
    requires fetch(UpstreamRequest(apiKey.value, Assemble(prompt, StripMessages(messages).value)))
      == Reply(false, Ok(errorData))
    requires !Nullish(errorData)
    ensures var o := Exchange(apiKey, messages, prompt, fetch);
      && o.status == 500
      && (Truthy(StatusMessage(errorData)) && ToJsString(StatusMessage(errorData)) != "" ==>
            o.body == ErrorPayload(Text(ToJsString(StatusMessage(errorData)))))
      && (Truthy(StatusMessage(errorData)) && ToJsString(StatusMessage(errorData)) == "" ==>
            o.body == ErrorPayload(Text(ServerError)))
      && (!Truthy(StatusMessage(errorData)) ==> o.body == ErrorPayload(Text(RequestFailed)))
  {
  }

  /** A status message that is a non-empty string is reported verbatim. */
  lemma StatusMessageVerbatim(errorData: JsValue, msg: string)
    requires errorData == Obj(map["base_resp" := Obj(map["status_msg" := Str(msg)])])
    ensures msg != "" ==> UpstreamFailure(errorData) == Text(msg)
    ensures msg == "" ==> UpstreamFailure(errorData) == Text(RequestFailed)
  {
  }

  /** When `choices` is an array, the reply is normalised exactly when the
      array is non-empty and its first element is not null, and the
      content is then taken from that first element. */
  lemma ArrayChoices(data: JsValue, choices: seq<JsValue>)
    requires data.Obj? && "choices" in data.fields && data.fields["choices"] == Arr(choices)
    ensures Normalize(data).Ok? <==> choices != [] && !Nullish(choices[0])
    ensures choices == [] ==> Normalize(data) == Err(FormatError(data))
    ensures choices != [] && !Nullish(choices[0]) ==>
      Normalize(data) == Ok(Payload(ChoiceContent(choices[0]), Prop(data, "id")))
  {
  }

  /** Replies without a `choices` field, or with `choices: null`, are format
      errors carrying the whole reply. */
  lemma MissingChoices(data: JsValue)
    requires data.Obj?
    requires "choices" !in data.fields || data.fields["choices"] == Null
    ensures Normalize(data) == Err(FormatError(data))
  {
  }

  /** Worked shapes: `message.content` with an id, a bare `content` without
      an id, and an empty `choices`. */
  lemma NormalizeExamples()
    ensures Normalize(Obj(map["choices" := Arr([Obj(map["message" := Obj(map["content" := Str("x")])])]),
                              "id" := Str("1")]))
      == Ok(Payload(Str("x"), Str("1")))
    ensures Normalize(Obj(map["choices" := Arr([Obj(map["content" := Str("y")])])]))
      == Ok(Payload(Str("y"), Undefined))
    ensures Normalize(Obj(map["choices" := Arr([Obj(map["text" := Str("z")])])]))
      == Ok(Payload(Str("z"), Undefined))
    ensures Normalize(Obj(map["choices" := Arr([])])) == Err(FormatError(Obj(map["choices" := Arr([])])))
  {
  }
}
