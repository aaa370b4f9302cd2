# DuckAI bridge: protocol translation, forced tool calls, pacing state and event-stream parsing

This project models the core of a bridge that takes OpenAI-style chat
completion requests and answers them through the DuckAI chat endpoint. It
covers two source files.

- `src/openai-service.ts`, the service object. It covers:
  - validating an incoming request;
  - rewriting it for the upstream, with system messages folded into the first
    user message and roles collapsed to user or assistant;
  - the token estimate and the completion envelopes;
  - the tool path, which adds a leading tool-instruction message, validates the
    tools and turns the calls found in the reply into a `tool_calls` completion;
  - the forced tool call, issued when a call is demanded and the reply held
    none. A keyword chain picks the function. Two scanners equivalent to the
    source's regular expressions supply its arguments;
  - the two streams of completion chunks: relayed upstream fragments, and a
    completion replayed as ten-character slices or one tool-calls delta.
- `src/duckai.ts`, the DuckAI client. It covers:
  - its `rateLimitInfo` record (a sliding window of request timestamps, the
    last request time, a limited flag and a retry hint);
  - pruning, loading with migration of the legacy layout, saving and the
    derived status;
  - recording each request;
  - parsing the upstream body in the event-stream format, a simplified form of
    section 9.2 of the WHATWG HTML Living Standard;
  - the 429 wait time.

Both classes are Dafny classes. `DuckAIClient.DuckAI` and
`OpenAIService.OpenAIService` keep the source's fields, and their methods
state the new state through pure specification functions of the old one
(`RateWindow.Cleaned`, `Loaded`, `Recorded`, `ToStored`). Loops in the source
are methods with loop invariants, each proved equal to a reference function:
- the message pass of `transformToDuckAIRequest`;
- the checks of `validateRequest`;
- the body-parsing loops of `chat` and `chatStream`;
- the slicing loop of the tool-path stream.

Everything outside the process is a parameter:
- the clock is an integer `now` in milliseconds;
- a store read is an `Option<StoredRecord>`, and a store write is a returned
  record;
- the challenge exchange (`getVQD`) is a `Result`;
- the chat endpoint is a function from the request sent to its status, its
  `retry-after` header and its body chunks;
- JSON parsing of an event line is a function
  `string -> Option<Option<string>>`: `None` for malformed JSON, `Some(None)`
  for an object whose `message` is missing or falsy (`""`, `0`, `false`,
  `null`);
- the tool service (`shouldUseFunctionCalling`, `validateTools`,
  `detectFunctionCalls`, `extractFunctionCalls`, `generateToolSystemPrompt`)
  is a record of functions supplied by the caller. In `OpenAIService.Env`, the
  random completion id and the separate clock readings of one call are fields.

Where the code and the documented behaviour differ, the model follows the code,
with the one exception recorded under "## Findings":
- The system contents are accumulated with `s += (s ? "\n" : "") + c`. Leading
  empty system contents therefore vanish, and the fold is not a plain
  newline-join (`Translator.JoinedSystem`, `Translator.JoinedSystemPlain`).
- A 429 answer only throws. It never sets the `isLimited` flag, which keeps
  whatever the store held (`DuckAIClient.RateLimitedOutcome`).
- The location pattern `(?:in|for|at)\s+…` has no word boundary. The "at" in
  "what" therefore starts a match: "what is the weather in Paris" yields the
  location "is the weather in Paris". The "at" inside "weather" is followed by
  no white space, so it does not match.
- The streaming client splits each network chunk on its own. A line cut by a
  chunk boundary is therefore read as two lines
  (`EventStream.ChunkFragments`).
- On the forced path an empty message list makes the source read a
  property of `undefined`. The model returns `MissingLastMessage` there.

## Model

| member | source | states |
|---|---|---|
| Translator.TransformToDuckAIRequest | src/openai-service.ts:68-103 | the message pass, the fold and the role collapse compute exactly `UpstreamRequest`: the model defaulted, the system text folded, every message collapsed |
| Translator.AccumulateStep | src/openai-service.ts:77-78 | one step `s += (s ? "\n" : "") + c` of the accumulation extends the newline-join of the contents after the leading empty ones |
| Translator.UpstreamRolesCollapsed | src/openai-service.ts:96-101 | every upstream message has role user or assistant; no system or tool role survives |
| Translator.NonSystemIsFilter | src/openai-service.ts:76-82 | the kept messages are exactly the non-system ones, and every message is either kept or contributes system text |
| Translator.NonSystemPrepend | src/openai-service.ts:76-82 | a leading non-system message stays in front and adds no system text |
| Translator.UpstreamPlacement | src/openai-service.ts:84-101 | no system text leaves the messages as collapsed; otherwise the first user message alone gains the `[System Instruction: …]\n\n` prefix and all other messages keep their text; with no user message, one bracketed user message is inserted at index 0 |
| Translator.JoinedSystemEmpty | src/openai-service.ts:76-84 | the folded text is empty exactly when every system content is empty, so the fold is skipped exactly then |
| Translator.JoinedSystemPlain | src/openai-service.ts:76-79 | when the first system content is non-empty, the fold is the plain newline-join of all system contents in order |
| Translator.TwoSystemMessagesExample | src/openai-service.ts:71-101 | system "A", system "B", user "hi" become the single user message `[System Instruction: A\nB]\n\nhi` |
| Translator.FoldAddsOnlyThePrefix | src/openai-service.ts:87 | the folded first user message is the bracketed text, a blank line, then exactly the text the collapse would send for it |
| Translator.NullUserContentAsWritten | src/openai-service.ts:87 | as written, a system text "S" and a user message with null content give `[System Instruction: S]\n\nnull`; the corrected fold gives `[System Instruction: S]\n\n` |
| Translator.FirstUserIndex | src/openai-service.ts:85 | `find(m => m.role === "user")`: the index returned holds a user message and none before it does; none is found only when there is no user message |
| Translator.EstimateTokens | src/openai-service.ts:64-66 | the estimate is the least n with 4n >= the length, that is ceil(length / 4), with the length counted in characters (see "## Left out") |
| Translator.TextCompletion | src/openai-service.ts:127-147 | a text envelope carries the text, finishes with "stop", estimates both token counts and totals them |
| Translator.ToolCallCompletion | src/openai-service.ts:193-214 | a tool-call envelope carries the calls and no text, finishes with "tool_calls", estimates both token counts and totals them |
| Validation.ValidateRequest | src/openai-service.ts:555-611 | the request is accepted exactly when messages is a non-empty array of messages that all pass the checks and any tools pass validation. It then returns the decoded request with the model defaulted to the Mistral model and stream defaulted to false. Missing or non-array messages, empty messages, the first failing message's error in check order, and invalid tools are each rejected with their own error |
| Validation.MessageRoundTrip | src/openai-service.ts:564-589 | a well-formed message passes the checks and decodes back to itself; a raw message that passes decodes to a well-formed message that encodes back to it |
| ForcedToolCall.ForcedToolName | src/openai-service.ts:228-257 | an explicit `tool_choice` function name wins; otherwise the chosen name is always one of the offered tools |
| ForcedToolCall.CalcCueWithoutCalculator | src/openai-service.ts:236-250 | with no "time" cue, a "calculate" or arithmetic cue and no `calculate` on offer, the first tool is used even when "weather" and `get_weather` are present: only the first matching branch is tried |
| ForcedToolCall.WeatherCue | src/openai-service.ts:251-256 | with no earlier cue, a "weather" cue selects `get_weather` when it is offered, else the first tool |
| ForcedToolCall.NoCueDefault | src/openai-service.ts:235-257 | with none of the cues, the first tool is used |
| ForcedToolCall.TimeCueFirst | src/openai-service.ts:236-242 | a "time" cue (ignoring case) selects `get_current_time` when it is offered, else the first tool, whatever the later cues say |
| ForcedToolCall.ArithmeticCueGivesExpression | src/openai-service.ts:243-263 | without a "time" cue, an arithmetic pattern selects `calculate` when offered, and the calculator then receives an expression |
| ForcedToolCall.OtherToolsGetEmptyArguments | src/openai-service.ts:259-272 | a function other than the calculator and the weather tool receives the arguments `{}` |
| ForcedToolCall.ArithmeticAt | src/openai-service.ts:245 | a match of `\d+\s*[+\-*/]\s*\d+` at a position starts with a digit and ends where the second digit run ends |
| ForcedToolCall.ArithmeticAtShape | src/openai-service.ts:245 | what the scanner returns at a position is a match of the pattern there, split as digits, white space, exactly one operator, white space, digits (`ArithmeticForm`, defined independently of the scanner) |
| ForcedToolCall.ArithmeticAtComplete | src/openai-service.ts:245 | every split of the text at a position into the pattern's five parts is found by the scanner, which ends no earlier than it |
| ForcedToolCall.ArithmeticAtLongest | src/openai-service.ts:245 | the scanner succeeds at a position exactly when a match of the pattern starts there, and returns the end of the longest one |
| ForcedToolCall.ArithmeticMatchLeftmostLongest | src/openai-service.ts:261 | the expression is the leftmost and, there, longest match of the pattern; none is found exactly when the pattern occurs nowhere |
| ForcedToolCall.FirstArithmeticLeftmost | src/openai-service.ts:245 | the search returns the leftmost start of a match; it finds none only when no position starts one |
| ForcedToolCall.ArithmeticMatch | src/openai-service.ts:261-263 | an expression is extracted exactly when the `.test` of line 245 succeeds |
| ForcedToolCall.LocationAt | src/openai-service.ts:266-268 | a location match needs a keyword at the position, and captures a non-empty group that begins after the keyword's end |
| ForcedToolCall.KeywordSpanEnd | src/openai-service.ts:267 | in, for and at, compared without regard to ASCII case, start with different letters, so the keyword found at a position is the only one there |
| ForcedToolCall.LocationAtForm | src/openai-service.ts:266-268 | what the scanner returns is a match of the pattern at that position: a keyword in, for or at, a non-empty white-space run, then the group of letters, white space and commas (`LocationForm`, defined independently of the scanner) |
| ForcedToolCall.LocationAtComplete | src/openai-service.ts:266-268 | every match of the pattern at a position is found, and the scanner's group starts later, or starts there and ends no earlier: the group backtracking settles on |
| ForcedToolCall.LocationAtGreatest | src/openai-service.ts:266-268 | the scanner succeeds at a position exactly when a match of the pattern starts there, and its group is the greatest of all such groups |
| ForcedToolCall.LocationMatchLeftmostGreatest | src/openai-service.ts:266-271 | the location is the trimmed group of the leftmost match and, there, the greatest group; none is found exactly when the pattern occurs nowhere |
| ForcedToolCall.LocationAtShape | src/openai-service.ts:266-268 | the captured group holds only letters, white space and commas and extends as far as they do |
| ForcedToolCall.FirstLocationLeftmost | src/openai-service.ts:266-268 | the search returns the leftmost start of a location match; it finds none only when no position starts one |
| ForcedToolCall.CalculatorExample | src/openai-service.ts:243-263 | "what is 4 + 5" with `calculate` on offer forces `calculate` with `{"expression":"4 + 5"}` |
| ForcedToolCall.WeatherExample | src/openai-service.ts:251-271 | "weather in Tokyo" with `get_weather` on offer forces `get_weather` with `{"location":"Tokyo"}`; the "at" inside "weather" is passed over |
| ForcedToolCall.TokyoMatch | src/openai-service.ts:266-270 | the trimmed location group of "weather in Tokyo" is "Tokyo" |
| ForcedToolCall.NoDigitNoArithmetic | src/openai-service.ts:245 | a text without a digit holds no arithmetic match |
| JsText.FirstWhereLeftmost | src/openai-service.ts:245 | the leftmost-position search that the two pattern scanners share skips only positions where the pattern fails, and finds nothing only when it fails everywhere |
| OpenAIService.OpenAIService.CreateChatCompletion | src/openai-service.ts:105-148 | the result is `CompletionOutcome`. When the challenge succeeds and the tools pass, the client's window gains the clock reading and the record is saved; otherwise the state is unchanged and nothing is written |
| OpenAIService.OpenAIService.CreateChatCompletionWithTools | src/openai-service.ts:150-338 | the result is `WithToolsOutcome`. Invalid tools are rejected before the client is called. The window is recorded exactly when the challenge succeeds and the tools pass |
| OpenAIService.OpenAIService.CreateChatCompletionStream | src/openai-service.ts:340-416 | the result is `CompletionStreamOutcome`: a replayed completion on the tool path, relayed fragments otherwise. The window effect is as for the blocking call |
| OpenAIService.OpenAIService.RegisterFunction | src/openai-service.ts:52-54 | the registry gains or replaces exactly one entry and every other entry is kept |
| OpenAIService.OpenAIService.constructor | src/openai-service.ts:20-24 | a fresh client loaded from the store, the given tool service, and exactly the three built-in names |
| OpenAIService.OpenAIService.GetRateLimitStatus | src/openai-service.ts:620-622 | delegates to the client: the state is reloaded and pruned, and the status is derived from it |
| OpenAIService.ModelsList | src/openai-service.ts:538-553 | getModels: one entry per advertised model, in order, with the call's timestamp and owner "duckai" |
| OpenAIService.Timestamp | src/openai-service.ts:60-62 | the timestamp is the number of whole seconds in the clock reading, rounded down |
| OpenAIService.BuiltInFunctions | src/openai-service.ts:26-50 | the registry starts with exactly `get_current_time`, `calculate` and `get_weather` |
| OpenAIService.CompletionEnvelope | src/openai-service.ts:127-146 | every returned completion has total = prompt + completion tokens, text with "stop" or calls with "tool_calls", and the call's id, timestamp and requested model |
| OpenAIService.AnswerEnvelope | src/openai-service.ts:183-337 | each of the three tool-path envelopes (extracted calls, forced call, text) is well formed and carries the call's id, timestamp and model |
| OpenAIService.PlainRequestGetsText | src/openai-service.ts:117-147 | without tool calling, a successful upstream answer becomes a "stop" completion holding the parsed reply of the translated request, with the prompt estimated from the original messages |
| OpenAIService.InvalidToolsRejected | src/openai-service.ts:156-161 | invalid tools give `Invalid tools: ` followed by the errors joined with ", ", whatever the upstream would answer, and the client is never reached |
| OpenAIService.ForcedFallback | src/openai-service.ts:218-311 | when a call is demanded and none was extracted, the completion holds exactly one forced call to the heuristic's function, no text, finishes with "tool_calls" and estimates the completion tokens from the call's JSON |
| OpenAIService.AutoChoiceKeepsText | src/openai-service.ts:313-337 | without a demand for a call and with no extracted call, the reply is returned as text with "stop" |
| OpenAIService.ToolInstructionLeads | src/openai-service.ts:163-179 | on the tool path the first upstream message is a user message holding the tool instructions, after the folded system text when there is any, and the rest are exactly the non-system messages, in order, with their roles collapsed |
| OpenAIService.StreamReplaysCompletion | src/openai-service.ts:418-536 | the tool-path stream exists exactly when the completion does. It reassembles to the completion's text, ends with its finish reason, and is well framed with one id and timestamp |
| OpenAIService.StreamRelaysFragments | src/openai-service.ts:352-416 | without tool calling the stream reassembles to the upstream fragments in order, finishes with "stop" and is well framed |
| Streaming.StreamWithTools | src/openai-service.ts:426-535 | the replay loop produces exactly `ReplayEvents`: one role chunk, one chunk per slice, the closing pair; or one tool-calls delta and the closing pair |
| Streaming.SlicesConcat | src/openai-service.ts:490-492 | the ten-character slices concatenate back to the content |
| Streaming.SlicesShape | src/openai-service.ts:490-492 | there are ceil(length / 10) slices, each of one to ten characters, all but the last exactly ten |
| Streaming.ReplayRoundTrip | src/openai-service.ts:426-535 | a replayed well-formed completion reassembles to its text (empty for tool calls), ends with its finish reason and is well framed |
| Streaming.ReplayToolCalls | src/openai-service.ts:430-469 | a tool-calls completion is replayed as exactly three events: all the calls with the assistant role, the "tool_calls" finish, `[DONE]` |
| Streaming.ReplayTextLength | src/openai-service.ts:470-531 | a text completion is replayed as 3 + ceil(length / 10) events |
| Streaming.RelayChunksFacts | src/openai-service.ts:389-405 | one chunk per fragment, carrying that fragment, no finish reason, and the role exactly on the first chunk |
| Streaming.RelayRoundTrip | src/openai-service.ts:358-416 | the relayed stream has two more events than fragments, reassembles to them, carries the role only on the first, and closes with "stop" and `[DONE]` |
| Streaming.RelayEmpty | src/openai-service.ts:365-386 | an empty upstream still yields the stop chunk and `[DONE]`, with no role chunk |
| Streaming.ClosingFacts | src/openai-service.ts:366-384 | the closing pair adds no text and sets the finish reason |
| Streaming.FramedClosing | src/openai-service.ts:366-384 | chunks of one stream without a finish reason, once closed, form a well-framed stream |
| Streaming.ReassembleAppend | src/openai-service.ts:389-407 | the text of a stream is the text of its parts in order |
| DuckAIClient.DuckAI.constructor | src/duckai.ts:35-39 | the initial record loaded from the store |
| DuckAIClient.DuckAI.CleanOldTimestamps | src/duckai.ts:44-51 | the window becomes the in-order entries after the cutoff `now - 60000` |
| DuckAIClient.DuckAI.GetCurrentRequestCount | src/duckai.ts:56-59 | prunes and returns the pruned count, never more than before |
| DuckAIClient.DuckAI.LoadRateLimitFromStore | src/duckai.ts:64-89 | nothing stored leaves the state unchanged; otherwise the state is the migrated record, pruned |
| DuckAIClient.DuckAI.SaveRateLimitToStore | src/duckai.ts:94-102 | prunes, then writes the pruned window with the other three fields |
| DuckAIClient.DuckAI.GetRateLimitStatus | src/duckai.ts:107-140 | reloads and prunes, returns the status of the pruned state, and every remaining entry is inside the window |
| DuckAIClient.DuckAI.RecordRequest | src/duckai.ts:239-242 | appends `now`, sets the last request time and saves: the last entry is `now` and the saved record is the new state |
| DuckAIClient.DuckAI.Chat | src/duckai.ts:235-298 | a failed challenge changes nothing and writes nothing. Otherwise the request is recorded and saved, and the reply is the 429 error, the status error or the parsed body |
| DuckAIClient.DuckAI.ChatStream | src/duckai.ts:300-367 | the same bookkeeping; a successful response yields the fragments of every chunk in arrival order |
| DuckAIClient.AvailableModels | src/duckai.ts:369-378 | six distinct models, the default model among them |
| DuckAIClient.RateLimitedOutcome | src/duckai.ts:270-274 | a 429 with `retry-after: n` waits n × 1000 ms, and one without the header waits 60000 ms |
| DuckAIClient.ChatReplyNonEmpty | src/duckai.ts:283-297 | a successful chat always returns non-empty text |
| DuckAIClient.BlockingAndStreamingAgree | src/duckai.ts:283-297 | for a body in one chunk, the blocking reply is the trimmed concatenation of the streamed fragments |
| RateWindow.Prune | src/duckai.ts:47-50 | the kept entries are exactly those after the cutoff, and never more than before |
| RateWindow.PruneAppend | src/duckai.ts:47-50 | pruning keeps order: pruning a concatenation prunes each part |
| RateWindow.PruneIdempotent | src/duckai.ts:44-51 | pruning twice at one time is pruning once |
| RateWindow.PruneCompose | src/duckai.ts:44-51 | pruning at one cutoff and then another is pruning at the later one |
| RateWindow.PruneSortedSuffix | src/duckai.ts:44-51 | on a sorted window, pruning drops a prefix |
| RateWindow.PruneKeepsSorted | src/duckai.ts:44-51 | pruning keeps a sorted window sorted |
| RateWindow.LegacyMigration | src/duckai.ts:69-76 | a legacy record gives an empty window, the last request time or 0, the flag or false, and the retry hint copied |
| RateWindow.CurrentLayoutLoad | src/duckai.ts:77-88 | a current-layout record gives its entries (or none) pruned, with nothing older than the window |
| RateWindow.SaveLoadRoundTrip | src/duckai.ts:64-102 | loading what was saved gives back the saved state, pruned at the later time |
| RateWindow.RecordThenClean | src/duckai.ts:239-242 | recording and saving gives the pruned old window plus `now`, the last request time `now`, and the flag and hint unchanged |
| RateWindow.RecordKeepsSorted | src/duckai.ts:239-240 | with a clock that does not go back, recording keeps the window sorted |
| RateWindow.StatusBounds | src/duckai.ts:122-131 | the counters are never negative. The reset time of a pruned window with a truthy oldest entry is positive, and at most a window when that entry is not in the future. The recommended wait is 0 exactly when the last request is not in the future |
| RateWindow.ShouldWaitBeforeRequest | src/duckai.ts:145-148 | the advice is never to wait, with wait time 0 |
| RateWindow.WaitTimeOfSeconds | src/duckai.ts:270-272 | a header holding the decimal n waits n × 1000 ms; no header waits 60000 ms |
| JsText.ParseIntOfDecimal | src/duckai.ts:272 | `parseInt` reads back what the decimal writer writes |
| EventStream.ParseEventBody | src/duckai.ts:283-297 | the parsing loop returns exactly `ChatReply`: the concatenated fragments, trimmed, or the apology when empty |
| EventStream.ParseStreamChunk | src/duckai.ts:351-360 | the per-chunk loop enqueues exactly the fragments of that chunk's lines |
| EventStream.LineMessage | src/duckai.ts:287-293 | a line contributes a fragment exactly when it starts with `data: `, its remainder parses, and the `message` is non-empty |
| EventStream.Fragments | src/duckai.ts:285-295 | at most one fragment per line, none empty |
| EventStream.ReplyText | src/duckai.ts:297 | the reply is the trimmed text, or the apology exactly when the text is all white space; never empty |
| EventStream.FragmentsAppend | src/duckai.ts:285-295 | the fragments of consecutive lines follow each other |
| EventStream.SkippedLine | src/duckai.ts:288-293 | a malformed or unprefixed line can be dropped anywhere without changing the result |
| EventStream.MessageLine | src/duckai.ts:288-293 | a line with a message adds exactly that message, in its place |
| EventStream.WellFormedAndMalformedLines | src/duckai.ts:283-297 | one good `data:` line and one malformed line give the good fragment alone, with no error |
| EventStream.StreamFragmentsAppend | src/duckai.ts:345-364 | the stream's fragments are those of each chunk in turn |
| EventStream.SingleChunkAgrees | src/duckai.ts:283-297 | a body in one chunk: the streamed fragments, concatenated and trimmed, are the blocking reply |
| JsText.Trim | src/duckai.ts:297 | `trim()` keeps a contiguous part of the text with only white space before and after it, empty exactly when the text is all white space, with no white space at either end |
| JsText.JoinSplit | src/duckai.ts:284 | splitting on a separator and joining on it gives the text back |
| JsText.SplitJoin | src/duckai.ts:284 | joining separator-free pieces and splitting again gives the pieces back |

## Left out

- Network I/O: the `fetch` calls, their request headers, the user agent and the `getVQD` challenge exchange (with the JSDOM evaluation and hashing of `getEncodedVqdHash`). The challenge outcome and the chat endpoint are parameters.
- `ReadableStream`, `TextEncoder`/`TextDecoder` and the `pump()` recursion. Streams are sequences of chunk values. Each chunk is sent as `data: ` + its JSON + a blank line, and the sentinel as `data: [DONE]`; that `data: <json>\n\n` framing and the JSON of a chunk are not modelled.
- The JSON text of a forced call is modelled (`ForcedToolCall.SerializeToolCall`) only for its length, which feeds the token estimate. JSON parsing of event lines is a parameter.
- Randomness and clocks: `generateId`, `Math.random` in the weather built-in, and every `Date.now()`. Each operation takes one clock reading `now`, and the several readings the source takes within one call are taken to be equal. In `chat` and `chatStream`, the reading pushed is also the one inside `saveRateLimitToStore`. In `getRateLimitStatus` (src/duckai.ts:107-116), three readings are taken as one: the one inside `loadRateLimitFromStore`'s `cleanOldTimestamps`, the `const now`, and the one inside `getCurrentRequestCount`'s `cleanOldTimestamps`. The constructor's load and its prune share one reading too. The id, the timestamp and the call id of a completion stay separate fields of `OpenAIService.Env`.
- The bodies of the built-in functions (the clock, the `Function` evaluator and the random weather). `executeToolCall` is also left out, because it delegates to `ToolService.executeFunctionCall`, whose source is not shown.
- `ToolService`, `RateLimitStore` and `SharedRateLimitMonitor` are not part of this model. The tool service's five functions are parameters, and the store is an abstract record.
- Logging (`console.error`) and the text of error bodies.
- `waitIfNeeded` does nothing, and is left out as such.
- Sampling parameters (`temperature`, `top_p` and the rest) are carried as values and never interpreted. Floating point is not modelled.
- Cross-process races on the shared store.
- `ForcedToolCall.ArithmeticMatch`, `ForcedToolCall.LocationMatch`: the scanners implement the two regular expressions by hand. Case folding is ASCII only, and `\s` is the JavaScript white-space set as listed in `JsText.IsJsSpace`.
- `JsText.ParseInt`: `parseInt` is modelled for decimal and `0x` inputs with an optional sign and leading white space. NaN is `None`. The numeric range and the `-0` of JavaScript numbers are not modelled.
- `JsText.ToLower`: `toLowerCase` is ASCII only.
- Translator.TransformToDuckAIRequest: it uses the corrected fold of "## Findings", so a null first-user content after system text yields `[System Instruction: S]\n\n`, where the code writes `…\n\nnull`. The as-written fold is `Translator.FoldSystemAsWritten` / `Translator.UpstreamRequestAsWritten`. `Translator.UpstreamPlacement` and the service outcomes built on it (`OpenAIService.CompletionOutcome`, `OpenAIService.WithToolsOutcome`, `OpenAIService.PlainRequestGetsText`) inherit the correction. They agree with the code whenever that content is not null.
- Translator.EstimateTokens: lengths are counted in Dafny characters, which are Unicode scalar values, whereas JavaScript's `.length` counts UTF-16 code units. Outside the Basic Multilingual Plane they differ: the source estimates "😀😀😀" at 2 tokens, the model at 1.
- Streaming.Slices: `slice(i, i + 10)` counts UTF-16 code units and can split a surrogate pair. The model slices ten scalar values, so text outside the Basic Multilingual Plane is cut into differently sized and differently numbered chunks.
- Streaming.SlicesShape: the ceil(length / 10) count and the ten-character sizes are in scalar values, not UTF-16 code units, for the reason above.
- Streaming.ReplayTextLength: the 3 + ceil(length / 10) event count is in scalar values, not UTF-16 code units, for the reason above.
- Streaming.StreamWithTools: it replays the model's ten-scalar-value slices, not the source's ten-code-unit slices, for the reason above.
- `Validation.ValidateRequest`: the untyped JSON body is reduced to the distinctions the checks make (`RawRequest`). A truthy `stream` value that is not a boolean is not modelled. Neither `tool_choice: null` nor a `{type: "function"}` choice without its `function` member can be represented. `validateRequest` passes both through, and on the forced path the source then throws a `TypeError`: reading `.type` of null at src/openai-service.ts:220, or `.function.name` of undefined at src/openai-service.ts:233.

## Findings

| source | as written | input that shows it | evidently intended | confidence | as-written member | corrected member |
|---|---|---|---|---|---|---|
| src/openai-service.ts:87 | the first user message becomes `` `[System Instruction: ${systemContent}]\n\n${firstUserMsg.content}` ``, so a null content is interpolated as the text "null" | a system message "S" and a user message with `content: null` are sent as `[System Instruction: S]\n\nnull` | null content reads as "" everywhere else in the rewrite (lines 78 and 100), so the message should be `[System Instruction: S]\n\n` | not executed | Translator.NullUserContentAsWritten | Translator.FoldAddsOnlyThePrefix |
