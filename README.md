# Chat gateway: prompt resolution and response normalisation

A model of a small gateway in front of a chat-completion API. It has two
entry points that share one decision procedure:

- `main_handler` in index.js, a cloud-function handler. It gets an event
  whose body is a JSON string, possibly base64-encoded, and returns
  `{statusCode, headers, body}`. It takes the system prompt from a per-feature
  skill file and falls back to a default prompt.
- `handler` in api/chat.js, a serverless handler. It gets an already parsed
  request body and answers by mutating the response object. It takes the
  system prompt from an inline table with a `default` entry.

Both handlers do the same steps:

1. Set the CORS headers.
2. Answer OPTIONS with 200 and no body, and any other non-POST method with 405.
3. Read `messages` and `feature` from the body.
4. Check the API key.
5. Strip each message to `{role, content}`.
6. Prepend the system prompt if it is non-empty.
7. Call upstream once.
8. Turn the reply into `{content, id}` with status 200, or `{error}` with status 500.

Modules:

- `JsSemantics` (js_semantics.dfy): the JavaScript semantics the code relies on.
  - JSON values, with `undefined` for a missing property.
  - Truthiness and `||`.
  - `String(v)`, which is also the key an object lookup uses, so `1`, `"1"`
    and `[1]` select the same entry.
  - Property access, which throws a TypeError on `null` and `undefined`.
- `Prompts` (prompts.dfy): `getSystemPrompt`, `getSkillContent` and `getDefaultPrompt`.
- `Gateway` (gateway.dfy): the shared pipeline.
  - The pure specification `Exchange`.
  - The method `Forward`, which builds `minimaxMessages` as a local sequence
    and reassigns it with the system message in front where the handlers call
    `unshift`.
  - Message stripping, prompt assembly, upstream error mapping and reply
    normalisation.
- `ScfHandler` (scf_handler.dfy): `main_handler`, as the method `MainHandler`
  proved against the function `MainHandlerSpec`.
- `VercelHandler` (vercel_handler.dfy): `handler`, as the method `Handler`. It
  mutates a `ServerResponse` object through `SetHeader`, `Status`, `Json` and
  `End`, and is proved against the function `HandlerSpec`.
- `TransportEquivalence` (transport_equivalence.dfy): the lemmas relating the two
  entry points. They agree on every request when the skill file yields the
  table's prompt. They part when a skill file is empty.

Everything outside the process is a parameter of the model:

- the API key from the environment (`Option<string>`);
- base64 decoding (`string -> string`);
- `JSON.parse` (a value, or an error message);
- the skill-file read (`Found(text)` or `Failed`);
- `fetch` (a network error, or a reply with an `ok` flag and a JSON body that
  parses or fails).

Each handler's result is an `Outcome`. It holds the status, the body, and the
request sent upstream, if one was sent. This makes "no upstream call" a
statement about the result.

Three behaviours of the code are worth stating outright:

- A reply without `id` gives a body with no `id` field; it does not become `id: null`. The model
  keeps `Undefined`, which JSON.stringify drops.
- The reply text is the first truthy one of `message.content`, `content` and
  `text`. A falsy value such as `""` or `0` is skipped, not only `null`. When none is truthy, the value of `text`
  is passed through as it is.
- index.js prepends no system message when a skill file reads as empty text.
  `SkillContent` returns the file's text verbatim, even when it is empty.

## Model

| member | source | states |
|---|---|---|
| Prompts.SystemPrompt | api/chat.js:81-170 | the result is never empty; a feature whose key is one of "1".."6" gets that table entry, and any other key (missing, null, 0, 7, "default", ...) gets the generic prompt |
| Prompts.DefaultPrompt | index.js:143-151 | getDefaultPrompt is non-empty and is the same text as the `default` entry of api/chat.js |
| Prompts.SkillContent | index.js:116-140 | total: an unknown feature gives the default prompt, a failed read of the feature's file gives the default prompt, a successful read gives the file text verbatim |
| Prompts.TablesShareKeys | api/chat.js:82-167 | both tables have exactly the six feature keys (plus `default` in the prompt table), and every prompt and file name is non-empty, so the `prompts.default` fallback applies only to missing keys |
| Prompts.NumericFeatureKnown | api/chat.js:169 | a numeric feature selects a table entry if and only if it is between 1 and 6 |
| Prompts.SystemPromptOfNumber | api/chat.js:169 | numeric features 1..6 get their table entry; every other number gets the generic prompt |
| Prompts.SkillContentOfNumber | index.js:126-129 | a number outside 1..6 gets the default prompt whatever the files hold; a number in 1..6 with a readable file gets that file's text |
| Prompts.FeatureCoercion | index.js:126 | `n`, `String(n)` and `[n]` select the same prompt in both lookups |
| Prompts.UnknownFeatureGeneric | api/chat.js:169 | a missing, null, boolean or unknown string feature gets the generic prompt from both lookups |
| Gateway.CaughtMessage | index.js:109 | the `error.message` fallback: an empty message becomes '服务器错误', a non-empty message is kept as it is, so the error text is never empty |
| Gateway.Caught | api/chat.js:72-77 | every caught failure becomes status 500 whose error is the caught error's message (with the '服务器错误' fallback), and the upstream request made so far is kept |
| Gateway.StripEach | index.js:53-56 | the map throws exactly when some message is null or undefined; otherwise it keeps every message in order as exactly `{role, content}`, the literal of index.js:54-55 modelled by the helper `Gateway.Strip` |
| Gateway.StripMessages | api/chat.js:26-29 | `messages.map` throws for a non-array `messages`; for an array it is StripEach |
| Gateway.Assemble | api/chat.js:31-38 | the caller's messages stay at the tail in order, and exactly one system message is put in front when the prompt is non-empty, none otherwise; that message is the helper `Gateway.SystemMessage`, the literal `{role: 'system', content}` of index.js:61-64 |
| Gateway.AssembleAddsOneSystemMessage | index.js:59-65 | the forwarded list has the caller's system messages plus exactly one more when the prompt is non-empty; nothing is deduplicated |
| Gateway.UpstreamFailure | index.js:82-85 | a reply that is not ok gives `String(base_resp.status_msg)` when that value is truthy and 'API请求失败' otherwise; a null error body is a TypeError; the status message is read by the helper `Gateway.StatusMessage`, `errorData.base_resp?.status_msg` of index.js:84 |
| Gateway.StatusMessageVerbatim | api/chat.js:56 | a non-empty string status message is reported verbatim, and an empty one gives 'API请求失败' |
| Gateway.UpstreamErrorMapping | api/chat.js:54-57 | end to end, a non-ok reply is a 500 whose error is the truthy status message (or '服务器错误' if that converts to an empty string), else 'API请求失败' |
| Gateway.ChoiceContent | index.js:91 | the content is the first truthy of `message.content`, `content` and `text`, or `text` as it is when none is truthy |
| Gateway.Normalize | index.js:89-101 | with a non-empty `choices` and a non-null first choice, the result is 200 content from that choice plus the top-level `id`; with missing or empty `choices` it is a format error carrying the whole reply; a null first choice is the TypeError of `choices[0].message`, and a null reply the TypeError of `data.choices`; "non-empty `choices`" is the helper `Gateway.HasChoices`, `data.choices && data.choices.length > 0` of index.js:90, with `length > 0` decided by `JsSemantics.Positive` |
| Gateway.ArrayChoices | api/chat.js:62-70 | for an array `choices`, normalisation succeeds exactly when the array is non-empty with a non-null first element, and an empty array is a format error |
| Gateway.MissingChoices | index.js:99-101 | a reply without `choices`, or with `choices: null`, is a format error carrying the reply |
| Gateway.NormalizeExamples | index.js:90-98 | worked shapes: `message.content` with an id, bare `content` without an id (the id stays undefined), `text`, and an empty `choices` |
| Gateway.Settle | api/chat.js:54-70 | a network error or an unparseable reply body becomes an error with its message; a non-ok reply is mapped by UpstreamFailure; an ok reply is normalised |
| Gateway.Exchange | index.js:42-111 | the status is 200 exactly for a success body and 500 otherwise, with a non-empty error; no usable key gives 500 'API Key未配置' with no upstream call; with a key, `messages` that fail to strip give 500 with the `map` TypeError and no upstream call; a request goes upstream exactly when the key is usable and the messages strip, and it carries the key and the assembled messages; once it has gone, a reply that settles to a body gives 200 with that body, and one that settles to an error gives 500 with that error's message |
| Gateway.Forward | api/chat.js:16-77 | the pipeline as written, with the local `minimaxMessages` reassigned with the system message in front where the source calls `unshift`, ends in exactly the outcome Exchange specifies |
| Gateway.ForwardedMessages | index.js:53-65 | for well-formed messages and a key, the upstream list is the system message (when the prompt is non-empty) followed by each caller message's role and content, in the caller's order |
| ScfHandler.MainHandlerSpec | index.js:5-113 | OPTIONS gives 200 with no body; any other non-POST method gives 405 'Method not allowed'; the status is always 200, 405 or 500; 500 always carries a non-empty error; nothing goes upstream without POST and a usable key; a body that parses to null or undefined is a 500 with the destructuring TypeError and no upstream call; what goes upstream is the key with the parsed request's stripped messages behind the skill text (when non-empty); the text parsed is the helper `ScfHandler.RequestText`, the base64 step of index.js:36-39; after that call a settled body is answered with 200 and a settled error with 500 and its message |
| ScfHandler.MainHandler | index.js:5-113 | the handler as written, with `body` reassigned by base64 decoding, returns the status, body and upstream request of MainHandlerSpec, always with the CORS and JSON headers |
| ScfHandler.EveryResponseHasCors | index.js:7-15 | the headers on every response include the three CORS headers |
| ScfHandler.Base64Transparent | index.js:36-40 | a base64-flagged event is answered as the same event with its body decoded first |
| ScfHandler.ParseErrorBeforeKeyCheck | index.js:36-50 | an unparseable body gives 500 with the parser's message (or '服务器错误'), with or without a key, and nothing goes upstream |
| ScfHandler.MissingKeyNoUpstream | index.js:43-50 | a parsed request with no usable key gives 500 'API Key未配置' and nothing goes upstream |
| ScfHandler.SkillPromptForwarded | index.js:52-80 | for a parsed request whose messages strip, the upstream request carries the key and the stripped messages, with the skill text in front as the system message when it is non-empty: a read file's own text, or the default prompt when the read fails |
| ScfHandler.OkReplyAnswer | index.js:87-101 | for an ok reply, a non-empty `choices` with a non-null first element gives 200 with that choice's text and the reply's `id`; a null first choice gives the TypeError; a missing or empty `choices` gives 500 with a format error carrying the reply |
| ScfHandler.EmptySkillFileNoSystemMessage | index.js:59-65 | when a known feature's skill file reads as empty, the caller's stripped messages go upstream with no system message |
| VercelHandler.HandlerSpec | api/chat.js:2-78 | OPTIONS gives 200 with no body; any other non-POST method gives 405; no usable key gives 500 'API Key未配置' before any upstream call; a null or undefined body is a 500 with the destructuring TypeError and no upstream call; the status is always 200, 405 or 500; what goes upstream is the key with the stripped messages behind the table's prompt; after that call a settled body is answered with 200 and a settled error with 500 and its message |
| VercelHandler.Handler | api/chat.js:2-78 | the handler as written sets the three CORS headers on the response before dispatching, then leaves the response finished with the status, body and upstream request of HandlerSpec |
| VercelHandler.OkReplyAnswer | api/chat.js:59-70 | for an ok reply to the request carrying the table's prompt, a non-empty `choices` with a non-null first element gives 200 with that choice's text and the reply's `id`; a null first choice gives the TypeError; a missing or empty `choices` gives 500 with a format error carrying the reply |
| VercelHandler.AlwaysOneSystemMessage | api/chat.js:26-38 | a well-formed request with a key always goes upstream as exactly one system message with the resolved prompt, followed by the caller's messages stripped, in order |
| TransportEquivalence.TransportsAgree | index.js:34-113 | an event whose body parses to `v` and a request whose body is `v` get the same status, body and upstream request, when the skill file gives the table's prompt |
| TransportEquivalence.SkillFilesMatchTable | index.js:116-140 | if each skill file holds its feature's table entry, getSkillContent and getSystemPrompt agree on every feature |
| TransportEquivalence.AgreeWithMatchingSkillFiles | api/chat.js:16-38 | with such skill files, the two entry points agree on every request, base64-encoded or not |
| TransportEquivalence.AgreeOnUnknownFeature | api/chat.js:169 | for a feature outside the known six, the two entry points agree whatever the skill files hold |
| TransportEquivalence.AgreeOnGating | api/chat.js:8-14 | OPTIONS (200) and every other non-POST method (405) are answered alike by both entry points |
| TransportEquivalence.EmptySkillFileDiverges | index.js:60 | a known feature with an empty skill file makes index.js forward one message fewer than api/chat.js |

## Left out

- The network call, the file read, the environment variable, base64 decoding
  and JSON.parse are parameters of the model (oracles). Their failures are
  modelled, but not how they happen.
- JSON.stringify is not modelled byte by byte. Bodies are structured values.
  A format error carries the raw reply instead of the serialised text.
- Engine TypeErrors carry the place where they are thrown, not V8's wording. Every such message is non-empty.
- The upstream URL, the model name, `temperature`, `max_tokens` and the HTTP
  headers of the upstream call are constants. Only the bearer key and the
  messages are kept.
- The prompt texts are opaque non-empty constants.
- `Num` stands for a safe integer (magnitude below 2^53). JavaScript numbers are doubles, so larger integers are rounded and `String(n)` uses exponent notation from 1e21 on. A `status_msg` of that size is converted differently by `UpstreamFailure`. Fractional numbers and NaN are not modelled.
- Property lookup on an object sees only its own fields. Prototype keys such as `toString` and `constructor` are not modelled. Arrays and strings answer only `length` and index 0.
- JsSemantics.Positive: `length > 0` is decided for numbers, booleans, null and undefined. A `length` that is a string, array or object is taken as not positive, because `Number()` conversion is not modelled.
- `console.error` logging and the `async`/`await` sequencing are left out.
- The `Content-Type` header that the platform's `res.json` adds is left out.
- ScfHandler.MainHandler: the event body is a string. An event with no body, which JSON.parse would see as `undefined`, is not modelled.
- VercelHandler.Handler: requires a response with no body written yet, as the platform hands it over.
