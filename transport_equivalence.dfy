/** How the two entry points relate. They gate methods the same way and run
    the same pipeline, so for the same logical request they give the same
    status, body and upstream request, provided they resolve the same
    prompt. The one way they can part is the prompt: index.js reads a skill
    file that may differ from api/chat.js's table, or be empty. */
module TransportEquivalence {
  import opened JsSemantics
  import opened Prompts
  import opened Gateway
  import opened ScfHandler
  import opened VercelHandler

  /** An event whose body (decoded when flagged) parses to `v`, and a
      request whose parsed body is `v`, are answered alike whenever the
      skill file gives the prompt the table gives. */
  lemma TransportsAgree(event: Event, decode: string -> string,
                        parse: string -> Result<JsValue, string>, apiKey: Option<string>,
                        readSkill: string -> ReadResult, fetch: UpstreamRequest -> Fetched,
                        v: JsValue)
    requires parse(RequestText(event, decode)) == Ok(v)
    requires !Nullish(v) ==>
      SkillContent(Prop(v, "feature"), readSkill) == SystemPrompt(Prop(v, "feature"))
    ensures MainHandlerSpec(event, decode, parse, apiKey, readSkill, fetch)
      == HandlerSpec(Request(event.httpMethod, v), apiKey, fetch)
  {
  }

  /** When each skill file holds exactly its feature's table entry, the two
      prompt lookups agree on every feature. */
  lemma SkillFilesMatchTable(feature: JsValue, readSkill: string -> ReadResult)
    requires forall k :: k in FeatureKeys ==> readSkill(SkillFiles[k]) == Found(PromptTable[k])
    ensures SkillContent(feature, readSkill) == SystemPrompt(feature)
  {
  }

  /** With such skill files, the two entry points agree on every request. */
  lemma AgreeWithMatchingSkillFiles(event: Event, decode: string -> string,
                                    parse: string -> Result<JsValue, string>, apiKey: Option<string>,
                                    readSkill: string -> ReadResult, fetch: UpstreamRequest -> Fetched,
                                    v: JsValue)
    requires parse(RequestText(event, decode)) == Ok(v)
    requires forall k :: k in FeatureKeys ==> readSkill(SkillFiles[k]) == Found(PromptTable[k])
    ensures MainHandlerSpec(event, decode, parse, apiKey, readSkill, fetch)
      == HandlerSpec(Request(event.httpMethod, v), apiKey, fetch)
  {
  }

  /** For a feature outside the known six (missing, 0, 7, "x", ...), both
      entry points use the generic prompt, so they agree whatever the skill
      files hold. */
  lemma AgreeOnUnknownFeature(event: Event, decode: string -> string,
                              parse: string -> Result<JsValue, string>, apiKey: Option<string>,
                              readSkill: string -> ReadResult, fetch: UpstreamRequest -> Fetched,
                              v: JsValue)
    requires parse(RequestText(event, decode)) == Ok(v)
    requires !Nullish(v) ==> FeatureKey(Prop(v, "feature")) !in FeatureKeys
    ensures MainHandlerSpec(event, decode, parse, apiKey, readSkill, fetch)
      == HandlerSpec(Request(event.httpMethod, v), apiKey, fetch)
  {
  }

  /** Preflight and method gating do not depend on the transport: OPTIONS
      and every method other than POST are answered alike by both. */
  lemma AgreeOnGating(event: Event, decode: string -> string,
                      parse: string -> Result<JsValue, string>, apiKey: Option<string>,
                      readSkill: string -> ReadResult, fetch: UpstreamRequest -> Fetched,
                      body: JsValue)
    requires event.httpMethod != "POST"
    ensures MainHandlerSpec(event, decode, parse, apiKey, readSkill, fetch)
      == HandlerSpec(Request(event.httpMethod, body), apiKey, fetch)
    ensures event.httpMethod == "OPTIONS" ==>
      MainHandlerSpec(event, decode, parse, apiKey, readSkill, fetch).status == 200
    ensures event.httpMethod != "OPTIONS" ==>
      MainHandlerSpec(event, decode, parse, apiKey, readSkill, fetch).status == 405
  {
  }

  /** The exception: a known feature whose skill file reads as empty text.
      index.js then sends the caller's messages alone, while api/chat.js
      puts the table's prompt in front of them. */
  lemma EmptySkillFileDiverges(event: Event, decode: string -> string,
                               parse: string -> Result<JsValue, string>, apiKey: Option<string>,
                               readSkill: string -> ReadResult, fetch: UpstreamRequest -> Fetched,
                               items: seq<JsValue>, feature: JsValue)
    requires event.httpMethod == "POST" && TruthyString(apiKey)
    requires parse(RequestText(event, decode)) == Ok(Obj(map["messages" := Arr(items), "feature" := feature]))
    requires forall i :: 0 <= i < |items| ==> !Nullish(items[i])
    requires FeatureKey(feature) in FeatureKeys && readSkill(SkillFiles[FeatureKey(feature)]) == Found("")
    ensures var scf := MainHandlerSpec(event, decode, parse, apiKey, readSkill, fetch);
      var vercel := HandlerSpec(Request("POST", Obj(map["messages" := Arr(items), "feature" := feature])),
                                apiKey, fetch);
      && scf.forwarded.Some? && vercel.forwarded.Some?
      && |scf.forwarded.value.messages| == |items|
      && |vercel.forwarded.value.messages| == |items| + 1
      && scf.forwarded != vercel.forwarded
  {
    var body := Obj(map["messages" := Arr(items), "feature" := feature]);
    EmptySkillFileNoSystemMessage(event, decode, parse, apiKey, readSkill, fetch, items, feature);
    AlwaysOneSystemMessage(Request("POST", body), apiKey, fetch, items);
  }
}
