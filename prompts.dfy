/** Prompt resolution: how a request's `feature` selects the system prompt.
    api/chat.js looks the feature up in an inline table of prompt texts
    (`getSystemPrompt`); index.js looks it up in a table of skill-file names,
    reads that file and falls back to a default prompt (`getSkillContent`,
    `getDefaultPrompt`). Both lookups index a JavaScript object, so the key
    is `String(feature)`: `1`, `"1"` and `[1]` select the same entry. */
module Prompts {
  import opened JsSemantics

  /** Prompt texts are opaque here: all the model knows of them is that
      none is empty. */
  type PromptText = s: string | s != "" witness "?"

  const InterviewPrompt: PromptText
  const RewritePrompt: PromptText
  const TitleExpandPrompt: PromptText
  const SpeechPrompt: PromptText
  const TopicPrompt: PromptText
  const VisualPrompt: PromptText

  /** The generic prompt. index.js returns it from `getDefaultPrompt` and
      api/chat.js stores it under `default`; the two texts are the same
      string, so the model holds it once. */
  const GenericPrompt: PromptText

  /** The keys of the six known features. */
  const FeatureKeys: set<string> := {"1", "2", "3", "4", "5", "6"}

  /** The `prompts` object of api/chat.js. */
  const PromptTable: map<string, string> := map[
    "1" := InterviewPrompt,
    "2" := RewritePrompt,
    "3" := TitleExpandPrompt,
    "4" := SpeechPrompt,
    "5" := TopicPrompt,
    "6" := VisualPrompt,
    "default" := GenericPrompt
  ]

  /** The `skillFiles` object of index.js. */
  const SkillFiles: map<string, string> := map[
    "1" := "1-interview.md",
    "2" := "2-storytelling.md",
    "3" := "3-expand.md",
    "4" := "4-tts.md",
    "5" := "5-topic.md",
    "6" := "6-visual.md"
  ]

  /** The key a JavaScript object lookup `table[feature]` uses. */
  function FeatureKey(feature: JsValue): string {
    ToJsString(feature)
  }

  /** `getSystemPrompt(feature)`: `prompts[feature] || prompts.default`. */
  function SystemPrompt(feature: JsValue): (r: string)
    ensures r != ""
    ensures FeatureKey(feature) in FeatureKeys ==> r == PromptTable[FeatureKey(feature)]
    ensures FeatureKey(feature) !in FeatureKeys ==> r == GenericPrompt
  {
    var key := FeatureKey(feature);
    if key in PromptTable && PromptTable[key] != "" then PromptTable[key]
    else PromptTable["default"]
  }

  /** `getDefaultPrompt()`. */
  function DefaultPrompt(): (r: string)
    ensures r != "" && r == PromptTable["default"]
  {
    GenericPrompt
  }

  /** What `readFileSync` of a skill file gives: its text, or a thrown error. */
  datatype ReadResult = Found(text: string) | Failed(reason: string)

  /** `getSkillContent(feature)`, with the read of `skills/<filename>` as
      the oracle `readSkill`. It never fails: an unknown feature and a failed
      read both give the default prompt, and a file that is read is returned
      verbatim, even when it is empty. */
  function SkillContent(feature: JsValue, readSkill: string -> ReadResult): (r: string)
    ensures FeatureKey(feature) !in FeatureKeys ==> r == DefaultPrompt()
    ensures FeatureKey(feature) in FeatureKeys ==>
      match readSkill(SkillFiles[FeatureKey(feature)])
      case Found(text) => r == text
      case Failed(_) => r == DefaultPrompt()
  {
    var key := FeatureKey(feature);
    if key !in SkillFiles || SkillFiles[key] == "" then DefaultPrompt()
    else
      match readSkill(SkillFiles[key])
      case Found(text) => text
      case Failed(_) => DefaultPrompt()
  }

  /** The two tables have the same six feature keys, and every entry of the
      prompt table is non-empty, so `|| prompts.default` only ever applies to
      a key the table lacks. */
  lemma TablesShareKeys()
    ensures SkillFiles.Keys == FeatureKeys
    ensures PromptTable.Keys == FeatureKeys + {"default"}
    ensures forall k :: k in PromptTable ==> PromptTable[k] != ""
    ensures forall k :: k in SkillFiles ==> SkillFiles[k] != ""
  {
  }

  /** A numeric feature is known exactly when it is one of 1..6: `String(n)`
      is never one of the six keys for 0, 7, a negative or a multi-digit
      number. */
  lemma NumericFeatureKnown(n: int)
    ensures FeatureKey(Num(n)) in FeatureKeys <==> 1 <= n <= 6
  {
    DecimalSingleChar(n);
    if 0 <= n < 10 {
      assert FeatureKey(Num(n)) == [DigitChar(n)];
    }
  }

  /** For a numeric feature, getSystemPrompt gives the table entry of 1..6
      and the generic prompt for any other number (0, 7, -1, 10, ...). */
  lemma SystemPromptOfNumber(n: int)
    ensures 1 <= n <= 6 ==>
      IntToDecimal(n) in PromptTable && SystemPrompt(Num(n)) == PromptTable[IntToDecimal(n)]
    ensures !(1 <= n <= 6) ==> SystemPrompt(Num(n)) == GenericPrompt
  {
    NumericFeatureKnown(n);
  }

  /** For a numeric feature, getSkillContent gives the default prompt for any
      number outside 1..6 without reading a file. */
  lemma SkillContentOfNumber(n: int, readSkill: string -> ReadResult)
    ensures !(1 <= n <= 6) ==> SkillContent(Num(n), readSkill) == DefaultPrompt()
    ensures 1 <= n <= 6 ==> IntToDecimal(n) in SkillFiles
    ensures 1 <= n <= 6 && IntToDecimal(n) in SkillFiles && readSkill(SkillFiles[IntToDecimal(n)]).Found? ==>
      SkillContent(Num(n), readSkill) == readSkill(SkillFiles[IntToDecimal(n)]).text
  {
    NumericFeatureKnown(n);
  }

  /** Key coercion: a number, its decimal string and a one-element array of
      it select the same prompt in both lookups. */
  lemma FeatureCoercion(n: int, readSkill: string -> ReadResult)
    ensures SystemPrompt(Num(n)) == SystemPrompt(Str(IntToDecimal(n))) == SystemPrompt(Arr([Num(n)]))
    ensures SkillContent(Num(n), readSkill) == SkillContent(Str(IntToDecimal(n)), readSkill)
      == SkillContent(Arr([Num(n)]), readSkill)
  {
  }

  /** A missing feature, `null`, a boolean or an unknown string gets the
      generic prompt from both lookups. */
  lemma UnknownFeatureGeneric(feature: JsValue, readSkill: string -> ReadResult)
    requires feature.Undefined? || feature.Null? || feature.Bool? || (feature.Str? && feature.s !in FeatureKeys)
    ensures SystemPrompt(feature) == GenericPrompt == SkillContent(feature, readSkill)
  {
  }
}
