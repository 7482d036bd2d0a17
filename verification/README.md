# SigilBridge in Dafny

A model of SigilBridge, an LLM gateway, and proofs about its hard parts: the codecs between the OpenAI and
Anthropic wire formats and the internal representation, the router with its breakers, health records and selection
strategies, the audit log with its index and pages, the bridge-key cache, the ACP JSON-RPC codec and call loop, the
rate limiter and the budget counters, and the OpenAI event stream.

`dafny verify dfyconfig.toml` checks everything.

## How it is built

Each component has a specification on values (functions over datatypes) and, where the program changes things step by
step, methods or a class with the program's loops and fields that are proved to compute that specification. The
properties are lemmas about the specification or about runs of a small state machine made of it. What each operation
means is also said apart from its specification: about the JSON, the lines, the history or the operations alone.

| files | component |
|---|---|
| `Json`, `IR`, `AnthropicCodec`, `AnthropicReading`, `OpenAICodec`, `OpenAIReading`, `CrossFormat`, `SseStream`, `StreamReading` | `internal/ir` and the stream reader of `internal/adapter/apikey` |
| `Breaker`, `Health`, `Strategy`, `Routing`, `RouterRuns`, `Failover`, `DispatchOutcomes` | `internal/router` |
| `AuditLogging`, `AuditRuns`, `AuditSuccess` | `internal/audit` |
| `AuditIndexing`, `AuditPages`, `Timestamps` | `internal/storage/repos/audit_index.go` |
| `KeyCache`, `CacheRetention`, `BridgeKeys`, `KeyChecks` | `internal/auth` |
| `JsonRpcCodec`, `JsonRpcFailures`, `JsonRpcCalls` | `internal/cliacp` |
| `RateLimiting`, `RateLimitSerial`, `RateLimitRuns`, `BudgetTracking`, `BudgetSerial` | `internal/budget` |
| `Wrappers`, `Seqs`, `Bytes`, `Base64` | shared |

## What the environment is

* Clocks, random draws, provider outcomes, the results of system calls and database statements, and the messages of
  an ACP peer are inputs. The random source succeeds.
* The router has no lock. Each stretch of a dispatch between provider calls is one atomic step with one clock reading;
  everything else interleaves. The rate limiter and the budget tracker interleave statement by statement.
* SQL tables are sequences of rows or maps by primary key, and a statement is atomic.
* Hashes of tokens are injective. JSON text is taken as a value. In the event stream, where bytes matter, the encoder and
  the decoder are parameters, and the text of each chunk actually printed is assumed to be one line between braces that
  parses back; `SseStream.SomeTextServes` gives such a pair for every list of events.
* Nil and empty maps and slices are the same. Token counts, cost estimates and costs are not negative.

## Properties that fail, and when they hold

* An Anthropic document source with both data and a URL keeps only the data: `AnthropicCodec.DocumentLosesURL`
  and `AnthropicCodec.TwoSourcedRequestIsLost`; the exact condition is in `AnthropicCodec.RequestRoundTrip`.
* OpenAI denormalize-then-normalize is not idempotent on every request: `OpenAICodec.NotIdempotent`; the exact
  condition is in `OpenAICodec.SecondTrip`.
* A stop list of one empty string and `response_format` do not cross the formats: `CrossFormat.EmptyStopIsLost` and
  `CrossFormat.ResponseFormatIsLost`; the exact conditions are in `CrossFormat.CrossFormatRoundTrip` and
  `CrossFormat.PipelineIsReencoding`.
* An Anthropic request with tool results in user messages, documents, inline image bytes or block extras does not survive
  the OpenAI form: `CrossFormat.UserToolResultIsLost`; the exact condition is in `CrossFormat.AnthropicThroughOpenAI`.
* A served response loses the arguments of its tool calls, which are whole and not partial: `SseStream.ServedArgumentsAreLost`;
  the exact condition for one event is in `SseStream.ArgumentsSurvive`.
* A tool-call fragment whose partial arguments are neither a string nor missing is printed in a chunk the reader drops
  whole: `SseStream.NumberPartialIsLost` and `SseStream.FragmentSurvives`.
* A day switch that fails after the old audit file is synced leaves a closed handle in place, and no later append ever
  succeeds: a run from an empty log is in `AuditRuns.LogStuckAfterFailedSwitch`, and `AuditRuns.DeadExactly` says in
  which runs it happens.

## Model

| member | source | states |
|---|---|---|
| `Json.CopyExtras` | internal/ir/normalize_anthropic.go:169-188 | The copying loop returns exactly the fields whose names are not reserved, with their values. |
| `IR.BlocksText` | internal/ir/normalize_oai.go:195-206 | The loop joins the texts of the text blocks by newlines, skipping the separator while nothing has been written. |
| `IR.BlocksTextIsLines` | internal/ir/normalize_oai.go:195-206 | The text of blocks is the texts of their text blocks joined by newlines, from the first that is not empty on. |
| `Base64.RoundTrip` | internal/ir/denormalize_anthropic.go:212-214 | RFC 4648, sections 4 (padded) and 5 (URL-safe, unpadded): decoding undoes encoding for every byte string. |
| `AnthropicCodec.ReadContent` | internal/ir/normalize_anthropic.go:99-167 | The recursive content reader, as a loop over the parts, computes the value-level reader: blocks in order, unknown parts skipped, or the first decoding error. |
| `AnthropicCodec.ReadMessages` | internal/ir/normalize_anthropic.go:74-80 | The message loop reads every message in order or returns the first error. |
| `AnthropicCodec.ReadRequest` | internal/ir/normalize_anthropic.go:38-82 | The request reader computes the value-level reader: system, tools, servers, messages and tool_choice, or the error. |
| `AnthropicCodec.WriteContent` | internal/ir/denormalize_anthropic.go:183-195 | The loop writes the encodable blocks in order, leaving out those without a body. |
| `AnthropicCodec.WriteBlock` | internal/ir/denormalize_anthropic.go:197-265 | Branch by branch, one block becomes its extras overlaid with the fields of its own type, or nothing when its part is missing, through tool_result nesting of any depth. |
| `AnthropicCodec.WriteRequest` | internal/ir/denormalize_anthropic.go:28-70 | The request writer computes the value-level encoder. |
| `AnthropicCodec.ContentIsReadable` | internal/ir/normalize_anthropic.go:99-167 | Whatever the reader accepts satisfies the invariant the round trip needs, at every depth: a block of a known type with that type's parts only, and extras without reserved names. |
| `AnthropicCodec.RequestReadsBack` | internal/ir/denormalize_anthropic.go:28-70 | For every request with readable blocks, encoding and reading back gives the request again, except that a document with bytes loses its URL, at any depth. |
| `AnthropicCodec.RequestRoundTrip` | internal/ir/normalize_anthropic.go:38-167 | For every accepted request, normalize, denormalize, normalize gives the same request if and only if no document source, through tool_result nesting of any depth, holds both a URL and data that decodes to some bytes. |
| `AnthropicCodec.DocumentLosesURL` | internal/ir/denormalize_anthropic.go:254-262 | A document with one byte and a URL: every accepted request that holds it does not survive the trip. |
| `AnthropicCodec.TwoSourcedRequestIsLost` | internal/ir/denormalize_anthropic.go:254-262 | Such a request exists: one user message holding that document is accepted and does not come back. |
| `AnthropicReading.ReadingKeepsTexts` | internal/ir/normalize_anthropic.go:99-167 | Reading keeps every text of a content value, at every depth and in order, with the texts defined on the JSON alone: a string is its own, null the empty one, a list has those of its text parts and tool results. |
| `AnthropicReading.AcceptedExactly` | internal/ir/normalize_anthropic.go:99-167 | A content value is read if and only if it has no fault, and otherwise the first fault is the error: not a string, null or list of objects; inline image or document bytes that are not base64; a tool result at fault. |
| `AnthropicReading.OneBlockEach` | internal/ir/normalize_anthropic.go:109-166 | Each part of a known type gives one block of that type, in order, and other parts give none. |
| `AnthropicReading.StringIsOneText` | internal/ir/normalize_anthropic.go:84-103 | A string reads as the list of one text part with that text, as content and as system text, and null content as the empty string. |
| `AnthropicReading.SystemText` | internal/ir/normalize_anthropic.go:84-97 | The system text is the string, or the texts of an acceptable list joined by newlines from the first that is not empty on, and empty in every other case. |
| `AnthropicReading.RequestRead` | internal/ir/normalize_anthropic.go:38-82 | A request is accepted if and only if no message has a fault, and refused for the first; then there is one message for each, with its role and texts. |
| `AnthropicReading.SentOn` | internal/ir/denormalize_anthropic.go:183-265 | From the wire to the wire: what is written of a content value that was read is the list of its known parts, each with its extra fields and the fields of its type, at every depth, defined on the JSON alone. |
| `AnthropicReading.RequestSentOn` | internal/ir/denormalize_anthropic.go:28-70 | From the wire to the wire: an accepted request is sent on with its own fields, its system text as a string if there is any, its servers, and for each message its role and content as sent on. |
| `AnthropicReading.LeftOutExactly` | internal/ir/denormalize_anthropic.go:197-265 | A block is left out if and only if its type names a part it does not have. |
| `OpenAICodec.ReadContent` | internal/ir/normalize_oai.go:144-173 | The part loop computes the value-level reader: absent, null and empty text give nothing, unknown parts are skipped, anything else is an error. |
| `OpenAICodec.ReadMessages` | internal/ir/normalize_oai.go:100-140 | The message loop with its running system text, tool calls appended after content, and tool messages wrapped into one tool result. |
| `OpenAICodec.ReadRequest` | internal/ir/normalize_oai.go:56-142 | The request reader, with the stop and tool loops, computes the value-level reader or its error. |
| `OpenAICodec.WriteContent` | internal/ir/denormalize_oai.go:211-236 | Text-only content is joined into one string; other content keeps text and image parts in order and drops the rest. |
| `OpenAICodec.WriteMessage` | internal/ir/denormalize_oai.go:170-197 | A tool message writes its first tool result and no calls; any other message writes its content and then its tool calls in order. |
| `OpenAICodec.WriteRequest` | internal/ir/denormalize_oai.go:32-76 | The request writer, with its stop, tool and message loops and its optional fields, computes the value-level encoder. |
| `OpenAICodec.AcceptedIsHeld` | internal/ir/normalize_oai.go:100-140 | What the reader accepts holds only plain text, image and call blocks, or for a tool message exactly one tool result of those. |
| `OpenAICodec.RequestReadsBack` | internal/ir/denormalize_oai.go:32-76 | Encoding such a request and reading it back succeeds and gives its settled form: text-only content merged, tool messages without calls, a stop list of one empty string emptied. |
| `OpenAICodec.MessageKeeps` | internal/ir/denormalize_oai.go:170-236 | The settled form keeps the role, the concatenated text, the images in order, the tool-result id, and outside tool messages the tool calls in order; a tool message loses its calls. |
| `OpenAICodec.MessageSettledExactly` | internal/ir/denormalize_oai.go:170-236 | A message survives one trip untouched if and only if its text-only content is empty or one non-empty text, and no calls stand under a tool result. |
| `OpenAICodec.OneTripExactly` | internal/ir/denormalize_oai.go:32-76 | Any request at all, whatever made it, survives one trip through the OpenAI form if and only if the reader could have produced it, every message is settled and the stop list is not one empty string. |
| `OpenAICodec.EncodedIsAccepted` | internal/ir/denormalize_oai.go:32-76 | Whatever the request, the reader accepts what the writer makes of it. |
| `OpenAICodec.SecondTrip` | internal/ir/normalize_oai.go:100-193 | For every accepted request, the second trip changes nothing if and only if no tool message with calls is left with text-only content of several texts or one empty text. |
| `OpenAICodec.NotIdempotent` | internal/ir/denormalize_oai.go:170-183 | A tool message with two text parts and a tool call: the second trip still changes it, so the trip is not idempotent on all requests. |
| `OpenAIReading.RequestRead` | internal/ir/normalize_oai.go:56-142 | Exactly the requests with readable contents and call arguments are accepted; the system text is the non-empty texts of the system and developer messages, wherever they stand, joined by newlines; each other message, in order, gives one with its role, texts, images, calls and, for a tool message, call id. |
| `OpenAIReading.FieldsRead` | internal/ir/normalize_oai.go:56-98 | Tools of other types are dropped, a stop is one string or the strings of a list, a user that is not empty is metadata over any the metadata named, and tool_choice and response_format are kept. |
| `OpenAIReading.MessageWritten` | internal/ir/denormalize_oai.go:170-236 | Any message is written under its role, with the texts and images of its blocks, or of its first tool result for a tool message; only a message not written as a tool result carries its calls. |
| `OpenAIReading.RequestWritten` | internal/ir/denormalize_oai.go:32-76 | A request is written with its system text as one message in front if there is any, then every message, and every tool. |
| `OpenAIReading.FieldsWritten` | internal/ir/denormalize_oai.go:32-76 | The user comes from the metadata, tool_choice and response_format from the extras, and every other field is written as it is. |
| `OpenAIReading.StopWritten` | internal/ir/denormalize_oai.go:32-76 | No stop is left out, one is a string, several are a list of strings in order. |
| `CrossFormat.ThroughAnthropic` | internal/ir/cross_test.go:11-70 | Every OpenAI request read back from its Anthropic form is the same request but for response_format. |
| `CrossFormat.PipelineIsReencoding` | internal/ir/cross_test.go:11-70 | OpenAI to Anthropic to OpenAI sends what direct re-encoding sends, less response_format; the two agree entirely if and only if the request had none. |
| `CrossFormat.EmptyStopIsLost` | internal/ir/normalize_oai.go:182-189 | The request whose stop is a list of one empty string is accepted and does not come back from the full round trip. |
| `CrossFormat.ResponseFormatIsLost` | internal/ir/denormalize_anthropic.go:62-69 | A request with a response format is accepted, and the pipeline sends something else than direct re-encoding. |
| `CrossFormat.CrossFormatRoundTrip` | internal/ir/cross_test.go:11-70 | The full round trip ends with the settled request, and with the very same request if and only if every message is settled and the stop list is not one empty string. |
| `CrossFormat.AnthropicThroughOpenAI` | internal/ir/denormalize_oai.go:170-236 | Every accepted Anthropic request is accepted again after a trip through the OpenAI form and then survives the Anthropic form; it comes back the same if and only if it names no servers, its stop list is not one empty string and every message is one the OpenAI form holds, settled. |
| `CrossFormat.UserToolResultIsLost` | internal/ir/denormalize_oai.go:211-236 | A user message that carries a tool result comes back from the OpenAI form empty. |
| `SseStream.EventsToStream` | internal/ir/denormalize_oai.go:105-168 | The printing loop writes one data frame per event and the closing [DONE] frame. |
| `SseStream.StreamResponse` | internal/router/router.go:114-141 | The loop that serves a response sends the start, one event per block in order, the usage and the stop. |
| `SseStream.StreamedExactly` | internal/router/router.go:114-141 | A served response is its start, each block whole under its own index, the usage, and the stop with its reason. |
| `SseStream.ChunkSays` | internal/ir/denormalize_oai.go:105-168 | Every chunk carries the response's id, model and time and one choice; an error event, and no other, its error; a stop event, and no other, a finish reason, the right one for its stop. |
| `SseStream.DeltaSays` | internal/ir/denormalize_oai.go:115-152 | A start says the assistant's role, a text delta its text, a tool-call delta one call of type function with its id, index, name and partial arguments, and any other event nothing. |
| `SseStream.ParseStream` | internal/adapter/apikey/openai.go:246-295 | The scanning loop computes the value-level reader of a byte stream: it skips lines that are not data, drops chunks that do not decode, and stops at [DONE]. |
| `StreamReading.ChunkReadsAs` | internal/adapter/apikey/openai.go:259-294 | Any JSON value, however shaped: the events of its first choice are its text, every tool-call fragment and its stop, and there are none when a member of any choice has the wrong type. |
| `StreamReading.StreamSays` | internal/adapter/apikey/openai.go:246-297 | Any body, whatever its lines: the reader sends the start and what the data lines say in order, up to the line with the end mark, which is a stop. |
| `SseStream.ChunkReads` | internal/adapter/apikey/openai.go:258-291 | One printed chunk, decoded with the type rules of its struct, gives exactly the events its source event should give. |
| `SseStream.StreamReads` | internal/ir/denormalize_oai.go:105-168 | Reading the bytes that printing any list of events wrote gives Start, then every non-empty text delta (under index 0) and every surviving tool-call fragment with id, name, index and partial, each Stop in place with end_turn, max_tokens and tool_use kept and any other reason turned into end_turn, and one closing Stop; of encoder and decoder it asks only that the chunks printed parse back. |
| `SseStream.SomeTextServes` | internal/ir/denormalize_oai.go:157-165 | For every list of events some encoder and decoder meet what the stream lemmas ask of them. |
| `SseStream.FragmentSurvives` | internal/ir/denormalize_oai.go:129-144 | A tool-call fragment reaches the reader if and only if its partial arguments are a string, or null or missing (read as empty); otherwise its whole chunk is lost. |
| `SseStream.NumberPartialIsLost` | internal/adapter/apikey/openai.go:276-288 | A fragment whose partial arguments are a number is printed and yields no event. |
| `SseStream.ArgumentsSurvive` | internal/ir/denormalize_oai.go:129-144 | A tool-call fragment comes back with the arguments it had if and only if they are one string under __partial. |
| `SseStream.ServedArgumentsAreLost` | internal/router/router.go:114-141 | What a client receives of a served response is the same when the arguments of its tool calls that hold no partial text are emptied. |
| `SseStream.RelayAddsOneStop` | internal/adapter/apikey/openai.go:246-295 | Printing what was read and reading it again, with an encoder and decoder that serve both streams, loses nothing and only adds one more closing Stop. |
| `Strategy.FilterHealthy` | internal/router/strategy/strategy.go:23-34 | The loop keeps the healthy candidates in order, with a weight below one replaced by one. |
| `Strategy.SelectLeast` | internal/router/strategy/strategy.go:45-57 | The loop returns the first healthy candidate with the least key, or none when nobody is healthy. |
| `Strategy.FirstLeastHealthy` | internal/router/strategy/strategy.go:45-57 | Seen from the unfiltered list, the least by a key is healthy, no healthy candidate has a lower key, and every healthy one before it has a higher one. |
| `Strategy.SelectWeighted` | internal/router/strategy/strategy.go:63-86 | The two loops return the healthy candidate whose interval of partial weights holds the draw. |
| `Strategy.WeightedFair` | internal/router/strategy/strategy.go:63-86 | Over the draws from 0 to the total weight, each healthy candidate is picked by exactly as many draws as its defaulted weight. |
| `Strategy.WeightedShare` | internal/router/strategy/strategy.go:23-34 | Each healthy candidate of the unfiltered list is picked by as many draws as its own weight, or by one if that is not positive. |
| `Strategy.WeightedNeverFallsThrough` | internal/router/strategy/strategy.go:79-85 | For every draw below the total the loop stops inside the list, so the return after it is never taken. |
| `Strategy.RoundRobinSelector.Select` | internal/router/strategy/strategy.go:93-103 | One select returns the healthy candidate at next modulo their number and advances next by one modulo that number. |
| `Strategy.RoundRobinSelector.SelectTimes` | internal/router/strategy/strategy.go:93-103 | Any k consecutive selects of one selector object over a stable list return the healthy candidates at those places in order, and as many selects as there are healthy candidates return exactly those, each as often as it is listed. |
| `Strategy.RoundRobinFair` | internal/router/strategy/strategy.go:93-103 | Among the places that n consecutive selects take in a healthy list of n, starting from any value of next, each place comes exactly once. |
| `Strategy.SelectsHealthy` | internal/router/strategy/strategy.go:166-185 | Every strategy answers if and only if someone is healthy, and with a healthy candidate of the list. |
| `Strategy.ChoosesFirst` | internal/router/strategy/strategy.go:45-164 | Seen from the unfiltered list, priority, least in flight and lowest latency choose the first healthy candidate of least priority, calls in flight or latency, and a fresh round robin and first available the first healthy one. |
| `Strategy.RandomChooses` | internal/router/strategy/strategy.go:109-120 | Random chooses the healthy candidate the draw numbers. |
| `Strategy.WeightedChooses` | internal/router/strategy/strategy.go:63-87 | Weighted chooses the healthy candidate whose interval of partial weights holds the draw. |
| `Strategy.NamedKinds` | internal/router/strategy/strategy.go:166-185 | The configured names of each kind; any other name means priority. |
| `Strategy.SelectOnce` | internal/router/strategy/strategy.go:166-185 | A fresh selector of each kind computes the value-level choice. |
| `Breaker.Cell.Allow` | internal/router/breaker.go:32-41 | Closed and half-open breakers allow; an open one allows, and becomes half-open, exactly once its recovery timeout has passed. |
| `Breaker.Cell.Success` | internal/router/breaker.go:43-46 | A success clears the failures and closes the breaker. |
| `Breaker.Cell.Failure` | internal/router/breaker.go:48-54 | A failure is counted, and opens the breaker now when it was half-open or the threshold is reached. |
| `Breaker.FailureExactly` | internal/router/breaker.go:48-54 | A failure counts one; it opens a half-open breaker, and one whose failures reach the threshold, from now on, and leaves any other as it is. |
| `Health.Cell.Success` | internal/router/health.go:22-28 | A success is counted, clears the errors and makes the upstream healthy. |
| `Health.Cell.Failure` | internal/router/health.go:30-39 | An error is counted, clears the successes, and degrades the upstream, to sick from the third on. |
| `Health.Cell.Cooldown` | internal/router/health.go:41-43 | The upstream cools off, counters unchanged. |
| `Health.AfterExactly` | internal/router/health.go:18-47 | After any history of successes, failures and cooldowns the counters are the successes and the failures in a row, and the state is what the last event says, sick from the third failure in a row on. |
| `Routing.Router.constructor` | internal/router/router.go:19-34 | Every pooled upstream gets its own health cell and breaker, both new, and the last pool listing an alias answers for it. |
| `Routing.ByAliasExactly` | internal/router/router.go:19-42 | An alias has a pool if and only if some pool lists it, and then the last one that does. |
| `Routing.Router.ReadCandidates` | internal/router/pool.go:28-36 | The loop makes one candidate per upstream, available when its health says so or is unknown. |
| `Routing.Router.RecoveryCandidates` | internal/router/router.go:60-69 | The loop asks the breakers of cooling upstreams, in order, moving open ones past their timeout to half-open, and offers those that allow. |
| `Routing.Router.Select` | internal/router/router.go:44-58 | The strategy's choice among the available, otherwise its choice among the recoverable, with the breakers moved as asked. |
| `Routing.Router.BeginAttempt` | internal/router/router.go:78-88 | The stretch of an attempt before its call: the upstream to call, the skip under an open breaker, or nobody. |
| `Routing.Router.Finish` | internal/router/router.go:89-107 | The stretch after a call: health and breaker updated, and whether the loop stops, and with what. |
| `Routing.Router.Dispatch` | internal/router/router.go:71-112 | The retry loop computes the value-level dispatch: the final table, the calls made in order, and the result; an unknown alias changes nothing. |
| `Routing.BeginMoves` | internal/router/router.go:44-88 | From coupled state an attempt finds its breaker not open; before the call it moves nothing but breakers from open to half-open past their timeout. |
| `Routing.EndKeepsCoupling` | internal/router/router.go:92-103 | The updates after a call keep health and breaker coupled: equal failure counts, closed exactly below the threshold, healthy exactly at zero failures, never degraded or sick. |
| `RouterRuns.ReachableCoupled` | internal/router/router.go:77-107 | In every state reachable by any interleaving of concurrent dispatches, each upstream's health and breaker are coupled, so the branch that skips an open breaker is never taken. |
| `RouterRuns.NoCallDuringRecovery` | internal/router/breaker.go:32-54 | In every run on a monotone clock, once an upstream has failed threshold times in a row no call to it starts within the recovery timeout of its last failure. |
| `RouterRuns.DeadUpstreamCalls` | internal/router/router.go:71-112 | An upstream that always fails, with at most k calls in flight, is called at most threshold - 1 + k + k * (elapsed / timeout) times; for one dispatch at a time, threshold + elapsed / timeout. |
| `DispatchOutcomes.CandidatesSay` | internal/router/pool.go:28-36 | A candidate carries its upstream's id, weight and priority, and counts as healthy unless it is known to be sick or cooling. |
| `DispatchOutcomes.BeginExactly` | internal/router/router.go:44-88 | From any coupled state an attempt calls someone if and only if some upstream is healthy or its breaker allows a call; a healthy one if there is one. |
| `DispatchOutcomes.NeverCallsOpen` | internal/router/router.go:78-88 | From any state at all, a call starts only under a breaker that is not open any more. |
| `DispatchOutcomes.CallEffects` | internal/router/router.go:89-107 | A success makes the upstream healthy with a closed breaker; a failure cools it and opens the breaker, from then, when it was half-open or the failures reach the threshold; no other upstream is touched. |
| `DispatchOutcomes.DispatchTells` | internal/router/router.go:71-112 | A dispatch that succeeds returns the text its last call answered with, under that upstream's id; one that fails returns the last call's error if that was final or the attempts ran out, and otherwise says nobody is ready, which is then so; every earlier call failed and was not final. |
| `DispatchOutcomes.StepObserved` | internal/router/router.go:71-112 | The history of a run misses nothing: an attempt adds the start of a call if and only if some upstream is ready, and a returning call adds its end. |
| `Failover.HealthyCalledFirst` | internal/router/router.go:71-112 | When no error is final, a dispatch calls distinct upstreams healthy at entry first, all of them before any other if it fails. |
| `Failover.FailureMeansAllFailed` | internal/router/router.go:71-112 | When such a dispatch fails, every upstream healthy at entry was called, and its own call failed. |
| `Failover.FailoverComplete` | internal/router/router.go:71-112 | So a dispatch succeeds whenever some upstream healthy at entry answers when called. |
| `Failover.PriorityOrder` | internal/router/strategy/strategy.go:45-57 | From an all-healthy state under the priority strategy the calls are a prefix of the pool stably sorted by priority, and all of it if every call fails. |
| `KeyCache.Cache.Get` | internal/auth/cache.go:48-64 | A live entry is returned and moved to the front; an expired one is removed; map and list stay in bijection and hold exactly the recency sequence. |
| `KeyCache.Cache.Put` | internal/auth/cache.go:66-86 | The entry goes to the front with a fresh expiry, replacing one of its hash, and the loop evicts from the back beyond the maximum. |
| `KeyCache.Cache.Invalidate` | internal/auth/cache.go:88-97 | Exactly the entry of this hash leaves the map and the list. |
| `KeyCache.Cache.Clear` | internal/auth/cache.go:99-104 | Map and list become empty. |
| `KeyCache.RunRecency` | internal/auth/cache.go:48-104 | After any sequence of operations the entries stand strictly by their last put or hit, most recent first, each with the key and expiry of its last put. |
| `KeyCache.RunBounded` | internal/auth/cache.go:66-86 | After any sequence of operations the cache holds at most its maximum. |
| `KeyCache.EvictsLast` | internal/auth/cache.go:79-85 | A put of a new hash into a full cache drops exactly the entry at the back. |
| `KeyCache.LastIsLeastRecent` | internal/auth/cache.go:79-85 | The entry at the back was put or hit before every other entry. |
| `CacheRetention.RetainedAnswers` | internal/auth/cache.go:48-86 | A hash put and since then not invalidated, cleared or asked for too late, with fewer than the maximum of other hashes put or found between its touches and after the last, is in the cache, and a Get before the expiry answers its last put's key; the condition is on the operations alone. |
| `CacheRetention.HeldIsAlive` | internal/auth/cache.go:48-103 | The cache never holds what was invalidated, cleared or asked for too late since its last put, and each entry expires when its last put said. |
| `BridgeKeys.BridgeKeyStore.ValidateToken` | internal/auth/bridgekey.go:107-138 | The read-through validation computes the value-level answer and leaves the cache as the value-level step does. |
| `BridgeKeys.ValidKeyIsFresh` | internal/auth/bridgekey.go:107-138 | Over any interleaving of puts, revocations, deletes, marks and validations on a monotone clock, each key returned at time t is the decoded row the table held at some instant in (t - ttl, t]. |
| `BridgeKeys.RevokedIsRefused` | internal/auth/bridgekey.go:107-138 | A key with no live row since some instant is refused from ttl after that instant on. |
| `BridgeKeys.NeverWrongPrefix` | internal/auth/bridgekey.go:117-121 | A cached key always carries the prefix of the token that finds it, so that mismatch branch is never taken. |
| `BridgeKeys.StepKeepsUnique` | internal/storage/repos/bridge_keys.go:32-55 | Every table operation keeps ids and hashes unique. |
| `KeyChecks.PrefixExactly` | internal/auth/bridgekey.go:91-101 | A token has the prefix live or test if and only if it is sb_, that word, an underscore and 32 lower-case hex digits. |
| `KeyChecks.TableAnswers` | internal/auth/bridgekey.go:107-140 | Without a cached answer: a well-formed token gets a key if and only if its unrevoked row can be read, and the key says, field by field, what the row says; it is revoked if and only if it has no unrevoked row. |
| `KeyChecks.ValidSaysRow` | internal/auth/bridgekey.go:107-140 | Every key returned in a run says, field by field, what an unrevoked row of the token said at some instant of the last ttl. |
| `KeyChecks.StandingIsAccepted` | internal/auth/bridgekey.go:107-140 | In every run a well-formed token whose readable, unrevoked row is in the table is accepted, whatever the cache holds. |
| `KeyChecks.RetainedIsAnswered` | internal/auth/bridgekey.go:113-122 | Until it expires, a key that the cache operations of a run retain is what its token gets, whatever has become of its row. |
| `KeyChecks.PutExactly` | internal/storage/repos/bridge_keys.go:32-55 | A put is refused if and only if another row holds the hash; otherwise the id's row is the one put, created when it first was, and every other row stays. |
| `JsonRpcCodec.Codec.Send` | internal/cliacp/jsonrpc.go:44-66 | Send appends exactly the frame of its payload, in either framing. |
| `JsonRpcCodec.Codec.Recv` | internal/cliacp/jsonrpc.go:68-106 | The header loop and the body read compute the value-level reader and leave exactly the rest of the input. |
| `JsonRpcCodec.PeerFrameRead` | internal/cliacp/jsonrpc.go:79-106 | A frame with any other header fields around its Content-Length, in front of any input, is read as its payload, whatever bytes that holds, and leaves that input. |
| `JsonRpcCodec.StreamRoundTrip` | internal/cliacp/jsonrpc.go:68-106 | Over any list of such frames, repeated Recv gives exactly the payloads and consumes every byte. |
| `JsonRpcCodec.SentRoundTrip` | internal/cliacp/jsonrpc.go:44-106 | What Send wrote for any list of payloads, repeated Recv gives back; line framing needs payloads without line feeds and without white space at their ends. |
| `JsonRpcFailures.TornBody` | internal/cliacp/jsonrpc.go:101-104 | A stream that ends inside a body is the end of input, with nothing left. |
| `JsonRpcFailures.TornHeader` | internal/cliacp/jsonrpc.go:77-81 | So is one that ends inside a header line. |
| `JsonRpcFailures.NoLength` | internal/cliacp/jsonrpc.go:98-100 | A header that ends without a length is an error, and what follows it is left to read. |
| `JsonRpcFailures.NoColon` | internal/cliacp/jsonrpc.go:86-89 | A header line without a colon is an error, after any other fields, and the lines after it are left. |
| `JsonRpcFailures.NegativeLength` | internal/cliacp/jsonrpc.go:90-96 | A negative length is an error. |
| `JsonRpcFailures.HugeLength` | internal/cliacp/jsonrpc.go:90-96 | A length beyond the largest int is an error. |
| `JsonRpcFailures.LastLengthCounts` | internal/cliacp/jsonrpc.go:90-96 | Of two lengths in one header the last one counts. |
| `JsonRpcFailures.TornLine` | internal/cliacp/jsonrpc.go:69-73 | With line framing a last line without its end is the end of input. |
| `JsonRpcCalls.Process.CallWithHandler` | internal/cliacp/process.go:108-139 | The receive loop computes the value-level call: next id, request sent, messages consumed, replies, handler calls and result, for a handler that may refuse depending on everything seen before. |
| `JsonRpcCalls.Process.HandlePeerMessage` | internal/cliacp/process.go:141-157 | The handler sees the message first; unless it refuses, a request from the peer gets one -32601 reply and anything else none. |
| `JsonRpcCalls.PassedOnStops` | internal/cliacp/process.go:121-138 | The messages a call passes on are exactly those before the first that carries its id or that the handler, given all it has seen, refuses. |
| `JsonRpcCalls.LoopEnds` | internal/cliacp/process.go:121-138 | A call ends at the first message that carries its id (as an integer or float prints) or that the handler refuses, and leaves what follows for later calls. |
| `JsonRpcCalls.LoopSent` | internal/cliacp/process.go:141-157 | Each peer request among the messages passed on is answered exactly once, in order; notifications and stale responses get nothing. |
| `JsonRpcCalls.CallWrites` | internal/cliacp/process.go:108-157 | A call writes its own request under the next id and then, for each request of the peer it passed on, in order, one refusal with that request's id and code -32601, and nothing else. |
| `JsonRpcCalls.SameIdExactly` | internal/cliacp/process.go:226-228 | A number matches the call it equals; a text matches exactly as the decimal and, from a million on, also as the scientific form with one leading digit and no trailing zeros. |
| `JsonRpcCalls.LoopHandled` | internal/cliacp/process.go:141-146 | The handler sees each message before the call's end exactly once, in order. |
| `JsonRpcCalls.CallIds` | internal/cliacp/process.go:116-119 | Over any sequence of calls each has the next id, strictly larger than all before. |
| `JsonRpcCalls.CallsHandled` | internal/cliacp/process.go:108-157 | Over any sequence of calls the handler sees exactly the messages that no call returned, each once, in order. |
| `JsonRpcCalls.EachCallGetsItsAnswer` | internal/cliacp/process.go:121-138 | A peer that answers each call in turn, with anything but answers to it in between, gets each answer to its own call. |
| `RateLimiting.RateLimiter.Allow` | internal/budget/ratelimit.go:41-63 | One uninterrupted call computes the value-level decision and table: the request check, then the token check, each counting before it compares. |
| `RateLimiting.RateLimiter.IncrementAndTotal` | internal/budget/ratelimit.go:70-86 | The upsert, then the sum over the key's and metric's buckets from this one on. |
| `RateLimiting.RateLimiter.Prune` | internal/budget/ratelimit.go:65-68 | Exactly the rows more than ten buckets old are deleted. |
| `RateLimiting.UpsertKeepsKeys` | internal/budget/ratelimit.go:71-75 | The upsert keeps one row per key, metric and bucket. |
| `RateLimiting.RetryOpensNextBucket` | internal/budget/ratelimit.go:88-94 | From the epoch on, the advised wait is 1 to 60 seconds and ends in the very second the next bucket opens. |
| `RateLimiting.BucketExactly` | internal/budget/ratelimit.go:41-47 | Minutes are counted toward zero, so a clock before the epoch reads the mirrored bucket. |
| `RateLimiting.TotalCounts` | internal/budget/ratelimit.go:70-86 | A sum from a bucket on counts what is added to that bucket or a later one of the same key and metric, and nothing else. |
| `RateLimiting.FirstOfTheMinute` | internal/budget/ratelimit.go:41-68 | Run serially on a monotone clock with only request limits and prunes anywhere, a request passes if and only if it is unlimited or fewer limited requests of its key than its limit came before it in its minute. |
| `RateLimiting.PruningChangesNoDecision` | internal/budget/ratelimit.go:65-68 | The same run without its prunes takes the same decision. |
| `RateLimitSerial.BothLimitsExactly` | internal/budget/ratelimit.go:41-63 | Serially on a monotone clock and whatever is pruned, a call with both limits passes if and only if fewer requests than its limit came before it in the minute and its tokens fit beside those of the calls in turn; otherwise it is refused for the first limit it breaks, with the wait until the next minute. |
| `RateLimitRuns.MinuteBounded` | internal/budget/ratelimit.go:41-86 | With increments and sums of any number of calls interleaved statement by statement, any clock readings and failures, one key's minute that no prune reached lets through at most L requests, and at most L tokens, among the calls whose limit is at most L. |
| `RateLimitRuns.SpanBounded` | internal/budget/ratelimit.go:41-86 | Any sixty seconds let through at most 2 L. |
| `RateLimitRuns.AloneIsDecide` | internal/budget/ratelimit.go:41-63 | A call whose statements nothing interrupts ends as the serial limiter decides. |
| `BudgetTracking.Tracker.Check` | internal/budget/tracker.go:28-44 | Err exactly when a positive daily or monthly limit would be exceeded under a hard cap; otherwise whether it would be exceeded. |
| `BudgetTracking.Tracker.Spend` | internal/budget/tracker.go:46-52 | The cents are added to the day's and to the month's counter of the key, nothing else changes. |
| `BudgetSerial.CheckExactly` | internal/budget/tracker.go:28-52 | A check refuses if and only if there is a hard cap and what was spent today or this month leaves no room for the estimate, and otherwise warns if and only if it leaves none; what was spent is summed over the commits alone. |
| `BudgetTracking.CapOvershootBounded` | internal/budget/tracker.go:28-52 | With every clock reading and statement of PreCheck and Commit interleaved freely across day changes, a hard cap on the key's days or months is overshot by at most the largest amount of money in flight. |
| `BudgetTracking.AtMostKInFlight` | internal/budget/tracker.go:28-52 | At most K requests in flight, each costing at most C: no counter passes limit + K * C; an atomic PreCheck puts a request in flight only when it is admitted. |
| `BudgetTracking.MonthIsSumOfDays` | internal/storage/repos/budget.go:33-40 | In every reachable state each month's counter plus its half-done commits equals the sum of that month's daily counters. |
| `BudgetTracking.StepsArePreCheck` | internal/budget/tracker.go:28-44 | The three steps of PreCheck uninterrupted admit exactly whom the whole PreCheck admits. |
| `BudgetTracking.StepsAreCommit` | internal/budget/tracker.go:46-52 | The three steps of Commit uninterrupted spend what Commit spends. |
| `Timestamps.FormatReads` | internal/storage/repos/common.go:38-40 | RFC 3339 with a trimmed nanosecond fraction: parsing the printed text of any UTC instant from year 0 to 9999 gives the instant back. |
| `Timestamps.ParsedIsText` | internal/storage/repos/audit_index.go:167-185 | Parsing accepts only the printed form of a valid date and clock, up to the fraction. |
| `AuditIndexing.AuditIndex.Upsert` | internal/storage/repos/audit_index.go:50-67 | The row with this id is replaced where it stands, or a row is added. |
| `AuditIndexing.PutKeepsSane` | internal/storage/repos/audit_index.go:50-67 | Put keeps ids unique and every stored row readable. |
| `AuditIndexing.AuditIndex.RunQuery` | internal/storage/repos/audit_index.go:81-160 | The query builder, the scan loop and the page cut compute the value-level answer: limit clamped, filters, cursor position, page and next cursor, or the error. |
| `AuditIndexing.CursorReads` | internal/storage/repos/audit_index.go:187-206 | Decoding the cursor of an entry gives its instant and id if and only if the id is not empty; otherwise it is an invalid cursor. |
| `AuditIndexing.SortDescends` | internal/storage/repos/audit_index.go:136-138 | Rows with unique ids sort strictly by descending time text and then id, in byte order. |
| `AuditIndexing.LessIsByteOrder` | internal/storage/repos/audit_index.go:136-142 | The order of texts is byte order: at the first difference the smaller byte, or the end, comes first. |
| `AuditPages.ListedExactly` | internal/storage/repos/audit_index.go:89-119 | The rows a query asks for are exactly those of the table that pass every filter it sets. |
| `AuditPages.ListedInOrder` | internal/storage/repos/audit_index.go:136-142 | Of two rows listed the larger time text comes first, and on equal time texts the larger id. |
| `AuditPages.FaultExactly` | internal/storage/repos/audit_index.go:81-160 | A query is answered if and only if its cursor decodes and every selected row's time can be read, and otherwise the first fault is the error. |
| `AuditPages.PageSize` | internal/storage/repos/audit_index.go:82-88 | Pages hold 100 entries unless the query says otherwise, and never more than 500. |
| `AuditPages.SelectedFromCursor` | internal/storage/repos/audit_index.go:119-127 | The cursor condition of the n-th listed row selects exactly the rows after it, in the same order. |
| `AuditPages.PageFollows` | internal/storage/repos/audit_index.go:154-159 | The query with the cursor after n rows answers with the next rows, at most the limit, and the cursor after those, empty exactly at the end. |
| `AuditPages.FollowListsAll` | internal/storage/repos/audit_index.go:81-160 | Following NextCursor from an empty cursor over rows with unique non-empty ids ends and returns every matching row exactly once, by descending time text and then id. |
| `AuditLogging.Writer.AppendRecord` | internal/audit/writer.go:125-150 | For every outcome of its system calls, an append computes the value-level step: the file's new end, the current file, and the indexed record or the error. |
| `AuditLogging.Writer.SwitchDay` | internal/audit/writer.go:152-171 | The current file fits, or is synced, closed and replaced; each failure leaves what the source leaves. |
| `AuditLogging.Writer.Run` | internal/audit/writer.go:109-123 | The writer loop appends every record, hands on exactly the full appends in order, and keeps the first error. |
| `AuditLogging.Writer.Close` | internal/audit/writer.go:92-107 | The current file is synced and closed and the first error of the writer's life returned. |
| `AuditLogging.Indexer.Run` | internal/audit/index.go:48-66 | The indexer loop puts every item whose statement succeeds, in order, and remembers that one failed. |
| `AuditLogging.DeadAfter` | internal/audit/writer.go:152-171 | An append leaves a closed file handle in place if and only if it was there before, or the day changes, the sync succeeds, and closing the old file or opening the new one fails. |
| `AuditLogging.DeadRun` | internal/audit/writer.go:109-123 | With such a handle the writer loop hands nothing on and writes nothing, for any records and any system calls. |
| `AuditSuccess.AppendExactly` | internal/audit/writer.go:125-171 | An append succeeds if and only if the handle is not a closed one, the day's file is open or gets opened, the record encodes and the whole line is written; then the day's file has grown by exactly the line and no other has changed. |
| `AuditSuccess.TroubleExactly` | internal/audit/writer.go:125-171 | What goes wrong first is the error, and only a write that fails or falls short leaves bytes: those of the line it wrote, at the end of the day's file. |
| `AuditSuccess.HandleAfter` | internal/audit/writer.go:152-171 | Which file the writer is left with after any append. |
| `AuditSuccess.FileOfDay` | internal/audit/writer.go:173-175 | Two records go to the same file if and only if they are of the same day. |
| `AuditSuccess.CloseExactly` | internal/audit/writer.go:92-107 | Close returns the earlier error, or else that of its sync or its close; nothing is changed in the files. |
| `AuditSuccess.SubmitExactly` | internal/audit/writer.go:80-90 | A record is accepted if and only if the shutdown has not begun and the channel has room; without a time it gets the time it was accepted at. |
| `AuditSuccess.WriterRunExactly` | internal/audit/writer.go:109-123 | The writer's loop hands on what was appended, in order, and keeps its first error. |
| `AuditSuccess.IndexerRunExactly` | internal/audit/index.go:48-66 | The indexer's loop puts what the database takes, in order, and remembers whether it refused something. |
| `AuditSuccess.FlawlessRun` | internal/audit/writer.go:109-171 | In a run in which every record encodes and every system call and statement works no error is ever recorded, and the records the writer took are exactly those appended, in order. |
| `AuditSuccess.FlawlessCloses` | internal/audit/writer.go:92-123 | After any such run the log can be drained and closed: Close returns no error, the file is closed, and every accepted record is appended and, unless a later one has its id, indexed. |
| `AuditRuns.DeadExactly` | internal/audit/writer.go:109-171 | In every run before the shutdown closes the file, the handle is closed if and only if the writer took some record whose day switch failed in that way. |
| `AuditRuns.LogStuckAfterFailedSwitch` | internal/audit/writer.go:152-171 | From an empty log: one record on one day, the next day's file cannot be opened, and whatever comes before the shutdown only the first record is ever appended. |
| `AuditRuns.DeadLogStaysDead` | internal/audit/writer.go:125-171 | From then on nothing is ever appended before the shutdown, whatever is submitted and however the system calls go. |
| `AuditRuns.EveryRunKeeps` | internal/audit/writer.go:80-184 | In every state of writer and indexer running side by side, across day switches in any order and any failures or short writes, every appended item slices its file to exactly its record's line, items of a file do not overlap, and nothing is lost or reordered between file and table. |
| `AuditRuns.RowsPointAtLines` | internal/audit/index.go:48-66 | Every index row that was not there at the start carries an accepted record's fields and points at exactly that record's line. |
| `AuditRuns.LaterStepsKeepRows` | internal/audit/writer.go:133-149 | A row that points at its record's line still does after any further events. |
| `AuditRuns.CleanShutdownIndexesAll` | cmd/sigilbridge/commands/serve.go:125-128 | If closing writer and then indexer reports no error, every accepted record whose id no later record reuses has a row that points at its line, and each file is its initial content followed by its lines end to end. |

## Left out

- HTTP servers and handlers, the admin API, CLI and configuration loading, the UI, the plugin glue and process spawning: I/O or thin wrappers.
- Cryptography, token and ULID generation, token estimation, pricing: code of other libraries, or plain arithmetic.
- JSON text syntax and `encoding/json` details (case-insensitive and duplicate keys, number syntax, invalid UTF-8, HTML escapes), and the 64 KiB line limit of the stream scanner.
- The typed outer structs of both request formats are taken as decoded records; a body that fails to decode into them is not modelled, free-form content, extras and tool arguments are.
- White space is ASCII white space in the JSON-RPC and event-stream readers; header names are ASCII.
- The width of Go integers: sums of weights, counters, costs and token counts do not overflow.
- Allocation of a body of the announced Content-Length before it arrives, and the difference between a short body and a closed stream.
- Context cancellation in the ACP receive path, failing writes, and the idle timer: the call theorems are about calls without them. Ids are compared as values, which is exact below 2^53.
- Database errors, except in the rate-limit and budget machines and the audit indexer, where any statement may fail.
- The bridge-key store without a cache, which answers straight from the table, the scope checks, and what the foreign keys of the tables cascade.
- The fresh request id, the receive time and the ingress name of a request.
- The responses of both formats and the Anthropic stream printer.
- Cancellation in `Router.Stream`, whose channel is the sequence of its events, and the in-flight and latency numbers of candidates, which the pool never fills.
- Log rotation and compression, which replace files the index points to, and other processes writing to the audit directory.
- The order of audit rows in time: rows are ordered by time text, whose fractions are trimmed.
- Years outside 0 to 9999, and time texts with a numeric offset or in the lenient forms `time.Parse` also accepts: the texts this program writes have neither.
- AuditIndexing.AuditIndex.RunQuery: refuses a cursor made by hand around a time text of those other forms, which the source accepts; cursors the program itself hands out are not affected.
- Failover.HealthyCalledFirst: speaks of a dispatch that runs alone from any reachable state, as do the lemmas built on it; what concurrent dispatches keep is in `RouterRuns`.
- Joining audit paths: the directory is taken as already clean, and opening a file that fails creates nothing.
- The backing arrays of slices: the audit writer's files, the cache's list and the tables are fields that methods reassign, so aliasing between slices is not visible.
