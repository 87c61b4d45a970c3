# Verification of the router's core

A Dafny model of the parts of the router that carry its state: the candidate selector, the failover and retry loops
with the internal tool loop, the streaming adapters, the two event writers, and the reasoning cache. Code that updates
fields step by step is a class or a method with loops here, proved against a specification function; what the
specification means is proved by lemmas, for all inputs, all runs and all answers of providers and tools.

`dafny verify dfyconfig.toml` checks everything.

## How it is put together

- **Selector** (`Routing`, `RoutingRuns`). The shared selector with its cursor, cooldown map and clock. A run is any
  interleaving of `Begin`, `RecordFailure` and `RecordSuccess` by any number of requests; the instant read under the
  lock is a parameter of each operation. Main results: `CooldownIsExact`, `ExpiriesNeverMoveBack`, `RoundRobinIsFair`,
  `RoundsAreShared`, `FailoverKeepsConfigOrder`, `OutcomeMovesPast`.
- **One request's run** (`Orchestration`, `OrchestrationRuns`, `StreamRuns`, `Conversation`, `Transcripts`,
  `ToolRounds`, `ServedAnswers`, `RateLimits`, `FailoverCooldown`, `ServerTools`, `Serving`). Providers and tools are
  arbitrary functions of everything that happened before. The run writes a log of the calls, streams, tool executions,
  cache writes and selector outcomes. Main results: `FailoverRun`, `TryAdds`, `StreamRun`, `StreamTryAdds`,
  `DeliveredIsJudged`, `StreamsNeverMix`, `CompletionIsTold`, `StreamIsTold`, `CompleteIsOrderly`, `StreamIsOrderly`,
  `CompleteServesLast`, `StreamServesLast`, `AttemptsAre`, `CooledForCalls`, `CooledForStreams`, `CallRetriesLimit`,
  `NextCallSkipsCooled`, `CooledStaysOut`, `ClientReadsWhatWasServed`, `StreamIsPrinted`, `SilentIffFailedOrBlank`.
- **Anthropic streams** (`AnthropicWire`, `AnthropicWriter`, `AnthropicGrammar`, `AnthropicReader`,
  `AnthropicFields`, `AnthropicRoundTrip`, `AnthropicContract`, `AnthropicFinish`, `EventStream`). One side prints the
  event stream, the other parses it. The framing follows "Interpreting an event stream", section 9.2.6 of the WHATWG
  HTML standard, as far as the router implements it. Main results: `TextRoundTrip`, `FramingRoundTrip`,
  `CompleteIffClosed`, `ReplayAndBurstAgree`, `EmissionsAre`, `ClosesWithStop`, `ClosesWithCalls`,
  `ContractAfterCleanEnd`, `Finishing`.
- **OpenAI and Gemini streams** (`ToolCallFragments`, `OpenAIReader`, `OpenAIComplete`, `MessageCuts`, `OpenAIWriter`,
  `GeminiReader`, `GeminiStreams`, `Provider`). Main results: `StreamAgreesWithComplete`, `CutAgreesWithComplete`,
  `CallsAre`, `InterleavingIsIrrelevant`, `ProviderContract` (twice), `ChunkRoundTrip`, `CallsRoundTrip`,
  `TextsAreEmitted`, `ClosesWithFinish`, `ClosesAs`.
- **Reasoning cache** (`ReasoningCache`, `EchoRuns`). Main results: `LookupIsLastWrite`, `Bounded`,
  `EchoRestoresReasoning`, `NothingIsLost`, `RestartLosesNothing`, `CompletionIsEchoed`, `StreamIsEchoed`.
- **Conversation translation** (`Translation`, `RequestShapes`, `PairedRuns`). Main results: `GeminiShowsAll`,
  `AnthropicShowsAll`, `GeminiKeepsPairs`, `AnthropicKeepsPairs`, `AnthropicKeepsOrder`, `RunsStayPaired`,
  `GeminiRunsStayPaired`.

A method is proved against a function of its inputs and its state. What such a function means is then stated without it,
on the inputs and outputs themselves: on positions of the log, of the messages, of the payloads read and of the chunks
printed, field by field.

Payloads are datatypes; turning a payload into JSON text and back is a pair of parameters of which only this is
required: an encoded payload is one line without outer blanks, and decoding undoes encoding. An error report on the
OpenAI wire decodes to a chunk without choices, as any object does that has none. The visiting order of a Go map is an
arbitrary choice. A stream is the list of lines the scanner produced and whether it then failed.

## Where the code differs from what is written about it

The model follows the code in each case.

- Cooldown of completions. The repository's README.md:124 says the window applies only to HTTP 429. The code also cools
  a candidate whose provider is unknown and one whose tool loop fails, and the Anthropic endpoint cools every failed
  completion. Lines 36-37 of the same file say a failed candidate is skipped for the window; on the OpenAI endpoint a
  candidate that failed permanently, or after its retries, is not cooled at all. `TryAdds` and `FailoverRun` state who
  is cooled by a completion, exactly (`CoolsDown`); `FailedToolsAreCooled` and `TransientErrorIsCooled` are such cases.
- Cooldown of streams. A stream is judged by its chunks before anything is made of it: the candidate that delivered is
  cooled exactly on the Anthropic wire and when its stream ended in an error chunk, and credited exactly when it did not
  (`DeliveredIsJudged`, `StreamRun`). So, unlike a completion, a stream whose tool loop fails is credited
  (`FailedToolsAreCredited`), and so is one that returned an error after its content (`BrokenStreamIsCredited`),
  although internal/api/anthropic_stream.go:292-293 speaks of clean streams.
- Served streams without an end. A stream that broke off after content is replayed as it is. Unless exactly one chunk
  has a finish reason and no later one has text, an Anthropic client is not sent a complete message
  (`CompleteIffClosed`); without any finish reason an OpenAI client sees a clean end, with a stop chunk only if there
  are calls. `ClientReadsUnfinished`, `OpenAIClientReadsWhatWasServed` and `BrokenStreamIsServed` say what is read.
- Round robin. Line 38 of the repository's README.md says candidates rotate per request. A candidate may be configured
  twice, and then a success sends the cursor back to its first place (`SuccessIsIdleIff`), so that another candidate may
  never come first (`RepeatedCandidateStarves`). `RoundsAreShared` says what holds for every configuration.
- Retries. The comments at internal/api/chat_completions.go:275-277 and :474 say a 429 is never retried. That holds for
  the first attempt; an error inside the retry loop is not classified again. `CallRetriesLimit` and
  `StreamRetriesLimit` say exactly when a 429 is followed by another attempt, `LimitCanBeRetried` gives a provider on
  which it is.
- Provider contract. internal/chat/port.go:17-21 promises an error only before any content, and a final chunk with a
  finish reason. The Anthropic adapter does not always keep either half. `ContractAfterCleanEnd` and
  `ContractAfterScanFailure` say exactly when it keeps the first, `FinishAfterCleanEnd` the second; `ContractCanFail`,
  `ErrorCanFollowText`, `FinishCanBeMissing` and `FinishCanBeFollowed` are streams on which it does not. For OpenAI and
  Gemini the first half always holds, and the `ProviderContract`s say when the final finish reason is missing; a
  `FinishCanBeMissing` in either module is such a stream.
- Error frames. internal/api/chat_completions.go:593-594 means an error frame to be told from an empty stream. A client
  that reads like the router's own OpenAI adapter cannot: it reads nothing, and no error, exactly when the request
  failed or was served with blank chunks (`SilentIffFailedOrBlank`).
- OpenAI wire. Streamed tool calls are written without an index. `CallsRoundTrip` proves that they come back unchanged
  if and only if there is at most one.
- Tool results for Gemini. internal/adapter/gemini.go:224-227 speaks of an earlier assistant call; the code takes the
  first call with the id anywhere, and none for an empty id. `GeminiKeepsPairs` says exactly when a function response
  keeps its pair. Gemini's own calls have no id, and lose it (`IdlessPairIsLost`) unless they are named like the
  placeholder; a call made by a tool message can take a name away (`ToolCallTakesName`).

## Model

| member | source | states |
|---|---|---|
| Routing.Selector.constructor | internal/routing/routing.go:61-76 | a new selector starts at cursor 0 with no cooldown; its window is thirty seconds unless a readable one is configured |
| Routing.Selector.Begin | internal/routing/routing.go:82-110 | returns the configuration rotated to the cursor without the candidates cooling down, and under round robin moves the cursor just past the first of them |
| Routing.Selector.Scan | internal/routing/routing.go:91-104 | the one pass of `Begin`: what is available in rotated order, and the position of the first available candidate or -1 |
| Routing.Selector.RecordFailure | internal/routing/routing.go:114-124 | the candidate is cooled until now plus the window and nobody else is touched; round robin moves past it if it is configured |
| Routing.Selector.RecordSuccess | internal/routing/routing.go:127-136 | cooldowns stay as they are; round robin moves past the candidate if it is configured |
| Routing.Selector.IndexOf | internal/routing/routing.go:139-146 | the first configured position, or -1 for a stranger |
| Routing.Apply | internal/routing/routing.go:82-136 | every operation keeps the cursor inside the configuration |
| RoutingRuns.ExpiryIsLatestFailure | internal/routing/routing.go:114-118 | after any run a candidate's expiry is its latest failure plus the window, and it has one only if it failed |
| RoutingRuns.EligibleIsRecovered | internal/routing/routing.go:94-104 | with a non-decreasing clock, eligible means that every failure is at least one window old |
| RoutingRuns.AvailableCounts | internal/routing/routing.go:94-104 | a snapshot has every eligible position exactly once and no other |
| RoutingRuns.CooldownIsExact | internal/routing/routing.go:82-124 | in any interleaving, a `Begin` returns a candidate once per configured position if all its failures are a window old, and not at all otherwise |
| RoutingRuns.ExpiriesNeverMoveBack | internal/routing/routing.go:114-136 | no operation, success included, removes or shortens a cooldown |
| RoutingRuns.FailoverKeepsConfigOrder | internal/routing/routing.go:106-108 | without round robin the cursor is 0 for ever and a snapshot is in configuration order |
| RoutingRuns.OutcomeMovesPast | internal/routing/routing.go:114-146 | under round robin, after a failure or success of a configured candidate the next call begins just past its first place and wraps around; a stranger moves nothing |
| RoutingRuns.BeginRotates | internal/routing/routing.go:94-108 | a round-robin `Begin` turns the next snapshot by exactly one place |
| RoutingRuns.SuccessIsIdleIff | internal/routing/routing.go:127-146 | reporting success of the first candidate returned leaves the cursor where `Begin` put it if and only if that candidate was seen at the first place it is configured at |
| RoutingRuns.SuccessOfFirstIsIdle | internal/routing/routing.go:127-136 | so it always does if no candidate is configured twice |
| RoutingRuns.RoundRotates | internal/routing/routing.go:82-136 | a whole round turns what the next call sees by one place and touches no cooldown |
| RoutingRuns.FirstsGoRound | internal/routing/routing.go:82-136 | over steady rounds the first candidates run through the eligible ones in order, around and around |
| RoutingRuns.RoundsAreShared | internal/routing/routing.go:82-136 | for any configuration, if no candidate is configured twice or no round reports success: in m times as many rounds as the first call sees places, each eligible candidate comes first m times for every place it has, and no other ever does |
| RoutingRuns.RoundRobinIsFair | internal/routing/routing.go:82-136 | with no candidate configured twice and a steady eligible set, from every cursor, in m times as many rounds as there are eligible candidates each of them comes first exactly m times |
| RoutingRuns.RepeatedCandidateStarves | internal/routing/routing.go:127-146 | configured as a, a, b, with every round successful, b never comes first |
| Capture.ResponseFromDeltas | internal/api/chat_completions.go:440-454 | computes the collapsed response of a buffered stream |
| Capture.ContentIsTexts | internal/api/chat_completions.go:442-443 | the content is the concatenation of the non-empty texts, whatever the run |
| Capture.CollapseFinished | internal/api/chat_completions.go:440-454 | a run closed by its only final chunk collapses to all its text and that chunk's finish reason, calls, reasoning and usage |
| Capture.CollapseIsLast | internal/api/chat_completions.go:440-454 | any run, with any number of finish reasons: finish reason, calls and reasoning are those of the last chunk that has one, the usage is that of the last of them with a usage |
| Orchestration.Server.CallProvider | internal/api/chat_completions.go:466-472 | one completion call: the provider is shown the conversation under the candidate's model name |
| Orchestration.Server.RememberReasoning | internal/api/chat_completions.go:384-398 | the response's reasoning is remembered under its calls |
| Orchestration.Server.AllServerToolCalls | internal/api/chat_completions.go:252-269 | true exactly for a non-empty batch whose every call is registered and not the client's |
| Orchestration.Server.ExecuteBatch | internal/api/chat_completions.go:412-421 | runs the calls in order and extends the conversation by a call and its result for each; `Transcripts.ExecuteTells` says by what, field by field |
| Orchestration.Server.ExecuteServerTools | internal/api/chat_completions.go:407-435 | the bounded tool loop, continuations never streaming |
| Orchestration.Server.FinishCandidate | internal/api/complete_common.go:25-40 | the shared tail: credit and serve, or cool and fail over; `ServedAnswers.CompleteServesLast` says what is served |
| Orchestration.Server.RetryProvider | internal/api/chat_completions.go:490-497 | further attempts until one succeeds, three in all, later errors not classified |
| Orchestration.Server.CompleteOpenAI | internal/api/chat_completions.go:461-514 | the whole OpenAI completion loop computes `Complete` |
| Orchestration.Server.CompleteAnthropic | internal/api/anthropic_messages.go:210-238 | the whole Anthropic completion loop computes `Complete`, one attempt each |
| Orchestration.Server.CaptureStream | internal/api/chat_completions.go:644-655 | buffers one upstream stream attempt |
| Orchestration.Server.RetryStream | internal/api/chat_completions.go:722-733 | further stream attempts only while they fail empty, three in all |
| Orchestration.Server.StreamWithRetry | internal/api/chat_completions.go:690-718 | serves the attempt that did not fail empty, or gives the candidate up |
| Orchestration.Server.ServeCapture | internal/api/chat_completions.go:738-775 | a clean stream of server calls becomes a burst, everything else is replayed |
| Orchestration.Server.RunStreamCandidates | internal/api/chat_completions.go:660-685 | the whole OpenAI stream loop computes `Stream` |
| Orchestration.Server.RunAnthropicCandidates | internal/api/anthropic_stream.go:266-349 | the whole Anthropic stream loop computes `Stream`, a stream that broke off being cooled |
| OrchestrationRuns.AttemptsAdd | internal/api/chat_completions.go:472-502 | a candidate is asked at most three times, and only once unless the first error is worth a retry |
| OrchestrationRuns.ToolLoopAdds | internal/api/chat_completions.go:407-435 | at most five continuations, nothing recorded, and an all-server batch handed back only when all of them are used up |
| OrchestrationRuns.FinishAdds | internal/api/complete_common.go:25-40 | credited exactly when the tool loop serves, cooled exactly when it fails; at most five continuations, and server calls are only served when all five were used |
| OrchestrationRuns.TryAdds | internal/api/chat_completions.go:465-512 | one candidate's turn: at most eight calls, none exactly for an unknown provider, one after a first 429 or permanent error, cooled exactly when `CoolsDown`, credited exactly when it serves |
| OrchestrationRuns.FailoverRun | internal/api/chat_completions.go:461-514 | calls go in snapshot order; the first candidate that serves is the one served and the only one credited; with none there is nothing to serve; the cooled ones are exactly `CooledBy` |
| OrchestrationRuns.TransientErrorIsCooled | internal/api/anthropic_messages.go:221-227 | on the Anthropic endpoint a failed connection cools the candidate |
| OrchestrationRuns.FailedToolsAreCooled | internal/api/complete_common.go:28-33 | on either endpoint, so does a tool loop that fails |
| Conversation.StartIsConsistent | internal/api/chat_completions.go:461-464 | a request begins with the client's conversation |
| Conversation.ExecuteIsConsistent | internal/api/chat_completions.go:412-425 | executing a batch of server calls keeps the conversation invariant and ends streaming |
| Conversation.ToolLoopIsConsistent | internal/api/chat_completions.go:407-435 | the tool loop keeps it |
| Conversation.CompleteIsConsistent | internal/api/chat_completions.go:461-514 | over all rounds and candidates the conversation is the client's messages followed by one pair per executed call, in order; every provider was shown exactly that as of its turn; only server-owned calls were executed |
| Conversation.StreamIsConsistent | internal/api/chat_completions.go:660-775 | the same over a whole streaming request |
| Transcripts.ExecuteTells | internal/api/chat_completions.go:412-421 | a batch adds to the log one execution per call, in order, each with the tool's answer at its turn, and to the conversation two messages for each: an assistant message with exactly that call and the reasoning, and a tool message with its id and its result |
| Transcripts.CompletionIsTold | internal/api/chat_completions.go:407-514 | over a whole completion, field by field: the final conversation, and the one shown in every request on the way, is the client's followed by those two messages for each call executed by then; requests name the candidate's model and stream only if the client's did and no call was executed; answers and results are what providers and tools answered; only the server's own tools were executed |
| Transcripts.StreamIsTold | internal/api/chat_completions.go:407-775 | the same over a whole streaming request |
| ToolRounds.CompleteIsOrderly | internal/api/chat_completions.go:407-435 | over a whole completion: a batch is executed only right after the response asking for it was remembered, call by call with that response's reasoning, to its end, and a call to the provider follows; whatever is remembered is a response that was just given |
| ToolRounds.StreamIsOrderly | internal/api/chat_completions.go:407-775 | the same over a whole streaming request, where the first response may be a stream that came to a clean end |
| ServedAnswers.CompleteServesLast | internal/api/complete_common.go:25-40 | a completion serves the answer to its last call, unchanged, under the candidate that gave it, and executes nothing after it |
| ServedAnswers.StreamServesLast | internal/api/chat_completions.go:738-786 | a streaming run serves what happened last: the chunks of the last stream, or, after a tool loop, the answer or the error of the last call |
| ServedAnswers.ReplayedIff | internal/api/chat_completions.go:748-762 | a buffered stream is replayed if and only if it broke off, made no calls, or made one that is not the server's |
| ServedAnswers.AttemptsAre | internal/api/chat_completions.go:472-502 | exactly how often a completion asks its candidate: once on the Anthropic wire, or if the first answer is served, a rate limit or an error below 500; otherwise until it answers, three times in all; the last answer counts |
| ServedAnswers.StreamAttemptsAre | internal/api/chat_completions.go:690-733 | the same for streams, as long as attempts fail without a single chunk |
| ServedAnswers.CooledForCalls | internal/api/chat_completions.go:472-512 | a known candidate serves exactly if the last call of its turn succeeded; it is cooled exactly if that call failed and, on the OpenAI wire, the first one met a rate limit or an earlier one had succeeded |
| ServedAnswers.CooledForStreams | internal/api/chat_completions.go:690-718 | a known candidate delivers exactly unless its last attempt failed without a chunk; on the OpenAI wire it is cooled exactly if its first attempt met a rate limit before any chunk, on the Anthropic wire exactly if it delivered nothing or an error chunk; it is credited exactly if it delivered and had no error chunk |
| StreamRuns.StreamTryAdds | internal/api/chat_completions.go:690-733 | one candidate's streaming turn: at most three streams, none exactly for an unknown provider, one unless the first failed empty with an error worth a retry; cooled exactly when `StreamCoolsDown` and credited exactly when `StreamCredits` |
| StreamRuns.ServedCools | internal/api/chat_completions.go:672-675 | a candidate that delivered is cooled if and only if the wire is Anthropic and its stream ended in an error chunk, and credited if and only if it did not |
| StreamRuns.StreamTryCaptures | internal/api/chat_completions.go:690-733 | a candidate is passed over only when all its attempts failed empty; the attempt that did not is the last and is the one handed on |
| StreamRuns.ServeAdds | internal/api/chat_completions.go:738-786 | serving opens no further stream, records no outcome and calls only for the burst path, at most five times; it replays exactly the captured chunks otherwise |
| StreamRuns.StreamIsPicked | internal/api/chat_completions.go:660-685 | a streaming run is the candidate loop up to the stream it picks, and the serving of that stream from the state it left |
| StreamRuns.StreamsNeverMix | internal/api/chat_completions.go:644-786 | of all streams of a request only the last delivered anything, and its candidate is the one served; something is served exactly when there is such a one; output and final state are the serving of it alone; streams go in candidate order, at most three each |
| StreamRuns.StreamRun | internal/api/chat_completions.go:660-775 | the cooled candidates of a streaming run are exactly `StreamCooledBy`, the credited one `StreamCreditedBy`, and the only completion calls are at most five continuations of the one served, on the burst path |
| StreamRuns.DeliveredIsJudged | internal/api/anthropic_stream.go:281-300 | beyond those passed over, a streaming run cools the candidate that delivered exactly on the Anthropic wire and when its stream ended in an error chunk; an error after content or a failed tool loop does not matter |
| StreamRuns.BrokenStreamIsCredited | internal/api/chat_completions.go:672-675 | a stream that returns an error after some text is credited and not cooled, on both wires |
| StreamRuns.FailedLoopIsCredited | internal/api/chat_completions.go:763-769 | so is, in any setting, a clean stream of server calls whose first continuation fails |
| StreamRuns.FailedToolsAreCredited | internal/api/chat_completions.go:763-769 | such a stream |
| RateLimits.CallRetriesLimit | internal/api/chat_completions.go:472-502 | a completion's rate limit is followed by another attempt if and only if the first retry, after a transient first error, met it |
| RateLimits.StreamRetriesLimit | internal/api/chat_completions.go:690-733 | the same for stream attempts |
| RateLimits.LimitCanBeRetried | internal/api/chat_completions.go:488-502 | a provider on which a rate limit is retried on both kinds of request, and not cooled |
| FailoverCooldown.FailuresAreCools | internal/api/chat_completions.go:461-514 | the selector is told of a failure of exactly the candidates the run cooled |
| FailoverCooldown.OpsAre | internal/api/complete_common.go:25-40 | the selector is told of each cooled and each credited candidate, and of nothing else, in order and at its instant |
| FailoverCooldown.NextCallSkipsCooled | internal/routing/routing.go:82-136 | until a window after a completion began, the next call sees, of the candidates that request saw, exactly those it did not cool |
| FailoverCooldown.NextCallSkipsStreamCooled | internal/routing/routing.go:82-136 | the same after a stream |
| FailoverCooldown.CooledStaysOut | internal/routing/routing.go:91-124 | whatever other requests do meanwhile, no call sees a candidate a request cooled until a window after that request began |
| ServerTools.MergeTools | internal/api/chat_completions.go:221-237 | the client's tools as they are, then the server's that they do not shadow |
| ServerTools.UnshadowedNames | internal/api/chat_completions.go:230-236 | the server's part offers exactly the names the client did not declare |
| ServerTools.UnshadowedAre | internal/api/chat_completions.go:230-236 | the server's part is its tools with a name the client did not declare, all of them, in order, with schema and description as they are |
| ServerTools.OwnedIffOfferedByServer | internal/api/chat_completions.go:217-254 | a call is executed internally if and only if its tool was offered from the server's part of the merged list, which shares no name with the client's |
| Serving.StreamCompletion | internal/api/chat_completions.go:568-597 | the OpenAI streaming endpoint: every stream ends in the done frame, chunks carry the served model, and failure is an error frame |
| Serving.AnthropicStream | internal/api/anthropic_stream.go:215-242 | the Anthropic streaming endpoint |
| Serving.StreamIsPrinted | internal/api/sse.go:39-143 | the whole OpenAI stream: one error report with its text, or every captured chunk, or the text and the closing chunk of a completed response; each chunk with its text, calls, finish reason and usage under the response's id and time and the model that served, only the first with the role; and the done frame |
| Serving.FailureIsPrinted | internal/api/anthropic_stream.go:228-242 | a failed Anthropic stream is an error event with its text and a message_stop |
| Serving.ClientReadsWhatWasServed | internal/api/anthropic_stream.go:305-349 | end to end, for every served request: the Anthropic client reads exactly what `Heard` makes of the chunks served, without an error, and is sent one complete well-formed stream if and only if exactly one chunk has a finish reason and no later one has text |
| Serving.ClientReadsFinished | internal/api/anthropic_stream.go:305-349 | if the only finish reason is on the last chunk: one complete well-formed stream, read back as the non-empty texts and that final chunk |
| Serving.ClientReadsUnfinished | internal/api/anthropic_stream.go:305-318 | if no chunk has a finish reason: only the texts are read, and the stream has no end |
| Serving.ClientReadsFailure | internal/api/anthropic_stream.go:230-241 | without a candidate that serves the Anthropic client reads an error and not one chunk |
| Serving.OpenAIClientReadsWhatWasServed | internal/api/sse.go:39-143 | end to end, for every served request: from the text of the stream the OpenAI client reads exactly what `Heard` makes of the chunks served, without an error |
| Serving.BrokenStreamIsServed | internal/api/chat_completions.go:660-685 | a stream that broke off after some text is served: the Anthropic client is left in an open text block, the OpenAI client sees a clean end without a finish reason |
| Serving.SilentIffFailedOrBlank | internal/api/chat_completions.go:580-596 | read as the router reads, an OpenAI stream is silent and without error if and only if the request failed or was served with blank chunks |
| ReasoningCache.Cache.constructor | internal/api/chat_completions.go:303-313 | a new cache has what its file holds, and is empty without one |
| ReasoningCache.Cache.Remember | internal/api/chat_completions.go:338-363 | marks every named call of the session, on overflow keeps the writing session only, and saves the result |
| ReasoningCache.Cache.Save | internal/api/chat_completions.go:321-334 | the file holds the whole cache, if there is a file |
| ReasoningCache.Cache.CountEntries | internal/api/chat_completions.go:355-357 | the sum over the sessions, visited in any order, is the number of cached entries |
| ReasoningCache.Cache.Lookup | internal/api/chat_completions.go:365-372 | the entry of exactly this session and id, or the empty string |
| ReasoningCache.FillReasoningEcho | internal/api/chat_completions.go:170-190 | fills a bare tool-call turn from the cache or with the placeholder |
| ReasoningCache.LookupIsLastWrite | internal/api/chat_completions.go:338-372 | after any history a lookup is the last reasoning remembered for exactly that session and id, or what was loaded, unless another session overflowed the cache since; then it is empty |
| ReasoningCache.JustRemembered | internal/api/chat_completions.go:338-363 | what was just remembered is found under each call that has an id, even when remembering it overflowed the cache |
| ReasoningCache.OverflowKeepsOwnSession | internal/api/chat_completions.go:358-361 | a write never changes the other entries of its own session |
| ReasoningCache.NothingIsLost | internal/api/chat_completions.go:354-361 | as long as there is room for 4096 entries, no write takes anything from another session |
| ReasoningCache.Bounded | internal/api/chat_completions.go:315-363 | from the first write on, whatever was loaded, at most 4096 entries, or a single session that holds everything |
| ReasoningCache.EchoRestoresReasoning | internal/api/chat_completions.go:170-190 | an assistant turn with calls and without reasoning gets the reasoning kept for its first call, or "[reasoning omitted by client]" if there is none, and no other change; every other message is left as it is |
| ReasoningCache.RestartLosesNothing | internal/api/chat_completions.go:303-334 | a cache loaded from the file of another has all that one had |
| EchoRuns.LoopRemembers | internal/api/chat_completions.go:407-435 | whatever the tool loop hands back is the last response it remembered |
| EchoRuns.ExhaustedLoopRemembersAgain | internal/api/chat_completions.go:433-434 | server calls handed back because the rounds are used up are remembered a second time |
| EchoRuns.CompleteRemembers | internal/api/complete_common.go:25-40 | a served completion is the last thing its request remembered |
| EchoRuns.StreamRemembers | internal/api/chat_completions.go:750-775 | so is what a stream answered, unless it broke off |
| EchoRuns.NextTurnEchoes | internal/api/chat_completions.go:338-372 | in any history that has the write of a response, a bare turn with its calls gets its reasoning, unless a later write named the call again or another session overflowed the cache |
| EchoRuns.CompletionIsEchoed | internal/api/chat_completions.go:170-190 | so the next turn of a client that sends the served calls back bare is routed with exactly the reasoning they were served with, whatever other requests remembered before and in between |
| EchoRuns.StreamIsEchoed | internal/api/chat_completions.go:170-190 | the same after a stream, whose reasoning the client never saw |
| EventStream.LinesCons | internal/adapter/anthropic.go:506-514 | scanning takes a terminated line off the front |
| EventStream.LineEndings | internal/adapter/anthropic.go:506-514 | a line may end in a newline, or in a carriage return and a newline |
| EventStream.FieldLines | internal/adapter/anthropic.go:556-570 | a printed field line sets exactly its own field, to exactly the printed value |
| EventStream.ParseFrame | internal/adapter/anthropic.go:493-524 | a printed frame in front of any text is read as that frame, and the rest as before |
| EventStream.FramingRoundTrip | internal/api/anthropic_stream.go:39-49 | printing frames and scanning the text gives back exactly those frames in order |
| EventStream.LastFrameSurvives | internal/adapter/anthropic.go:520-524 | a text cut off in or before its last blank line loses no frame |
| EventStream.FieldsAre | internal/adapter/anthropic.go:556-570 | a field line sets its field to the trimmed text after the colon, with or without a blank; other lines are ignored |
| EventStream.LinesOfJoin | internal/adapter/anthropic.go:535-543 | the payload of several data lines has exactly those lines |
| EventStream.TrimIs | internal/adapter/anthropic.go:556-570 | trimming takes off all blanks at either end and nothing else |
| AnthropicWire.FinishReasonRoundTrip | internal/adapter/anthropic.go:355-368 | a finish reason survives its stop reason if and only if it is stop, length, tool_calls or error; every other becomes stop |
| AnthropicWriter.SSEWriter.EmitMessageStart | internal/api/anthropic_stream.go:54-71 | one message_start, the first time only, with the prompt tokens known by then |
| AnthropicWriter.SSEWriter.ToolUseBlocks | internal/api/anthropic_stream.go:104-117 | one block per call at consecutive indices |
| AnthropicWriter.SSEWriter.EmitDelta | internal/api/anthropic_stream.go:143-173 | what one chunk prints and the state it leaves |
| AnthropicWriter.SSEWriter.WriteResponseBurst | internal/api/anthropic_stream.go:180-207 | what a completed response prints |
| AnthropicWriter.SSEWriter.Replay | internal/api/anthropic_stream.go:305-318 | what a buffered run prints |
| AnthropicGrammar.PartialRunsFollowGrammar | internal/api/anthropic_stream.go:143-159 | every unfinished run prints a beginning of a well-formed stream |
| AnthropicGrammar.FinishedRunsFollowGrammar | internal/api/anthropic_stream.go:54-173 | a run closed by its final chunk prints one complete stream: one message_start, blocks 0, 1, 2, ... each closed before the next opens, text only as block 0, one message_delta, one message_stop |
| AnthropicGrammar.RunsAre | internal/api/anthropic_stream.go:143-173 | any run at all: unfinished it prints a beginning of a well-formed stream, closed the whole of one, otherwise none |
| AnthropicGrammar.CompleteIffClosed | internal/api/anthropic_stream.go:143-173 | a run prints one complete stream if and only if exactly one chunk has a finish reason and no later one has text |
| AnthropicGrammar.BurstsFollowGrammar | internal/api/anthropic_stream.go:180-207 | so does every burst |
| AnthropicGrammar.BurstIsOneChunk | internal/api/anthropic_stream.go:180-207 | on a fresh writer a burst is the response printed as a single chunk |
| AnthropicGrammar.ReplayIs | internal/api/anthropic_stream.go:143-173 | all that a finished run prints, in closed form |
| AnthropicGrammar.BeginsWithPrompt | internal/api/anthropic_stream.go:54-71 | every run begins with the prompt tokens of its first chunk |
| AnthropicGrammar.EndsWithOutcome | internal/api/anthropic_stream.go:119-173 | a run that ends in a finish reason ends with its stop reason, from a written-out table, its completion tokens, and a message_stop |
| AnthropicGrammar.UsageIsLast | internal/api/anthropic_stream.go:143-147 | a writer keeps the last usage it has seen |
| AnthropicGrammar.BurstEndsWithTokens | internal/api/anthropic_stream.go:180-207 | a burst ends with the completion tokens of its own usage, or, if that is zero, of the last one the writer has seen |
| AnthropicGrammar.ReplayAndBurstAgree | internal/api/anthropic_stream.go:143-207 | replaying a run and bursting its collapse print the same text, tool blocks at the same indices, stop reason and output tokens |
| AnthropicReader.StreamState.ToolCalls | internal/adapter/anthropic.go:677-691 | one call per accumulated block, in whatever order the map is visited |
| AnthropicReader.StreamState.HandleBlockStart | internal/adapter/anthropic.go:599-611 | a tool block with an index opens an empty accumulator and counts as content; nothing else does |
| AnthropicReader.StreamState.HandleBlockDelta | internal/adapter/anthropic.go:614-643 | text is emitted, argument text goes to the block of its index |
| AnthropicReader.StreamState.HandleMessageStop | internal/adapter/anthropic.go:657-674 | the final chunk |
| AnthropicReader.StreamState.HandleError | internal/adapter/anthropic.go:695-704 | an error before content, an error chunk after |
| AnthropicReader.StreamState.HandleEvent | internal/adapter/anthropic.go:573-589 | the dispatch over event names |
| AnthropicReader.StreamState.FlushFrame | internal/adapter/anthropic.go:493-504 | handles a pending frame, passing over a malformed one |
| AnthropicReader.StreamState.ConsumeStream | internal/adapter/anthropic.go:482-531 | the whole scan loop computes `Consume`: frames closed by a blank line, the trailing frame after a clean end, an error without content |
| AnthropicReader.CallsRemove | internal/adapter/anthropic.go:677-691 | the calls handed on do not depend on the order in which the map is visited |
| AnthropicReader.FeedAppend | internal/adapter/anthropic.go:573-589 | handling events composes, and stops at the first error |
| AnthropicReader.FailureStays | internal/adapter/anthropic.go:506-514 | lines after an error change nothing |
| AnthropicFields.EmissionsAre | internal/adapter/anthropic.go:573-704 | whatever a provider sends without being an error emits one chunk for each text, message_stop and error event, in order, a text as itself |
| AnthropicFields.BlockGrows | internal/adapter/anthropic.go:634-643 | an open tool block collects exactly its own argument texts, joined in order, whatever comes in between |
| AnthropicFields.ClosesWithStop | internal/adapter/anthropic.go:646-674 | without tool blocks the closing chunk has the last stop reason, translated by a written-out table, and the last prompt and completion tokens with their sum |
| AnthropicFields.ClosesWithCalls | internal/adapter/anthropic.go:657-691 | with tool blocks it says tool_calls and has one call per index: the id and name of the block opened there last and all argument text since, or {} |
| AnthropicRoundTrip.ReadText | internal/adapter/anthropic.go:614-631 | printed text is read as that text, whether or not it opens the block |
| AnthropicRoundTrip.AddBlocksCalls | internal/adapter/anthropic.go:599-643 | tool blocks at consecutive indices never overwrite one another: every call is there once |
| AnthropicRoundTrip.ReadTail | internal/adapter/anthropic.go:646-691 | the printed tail is read as one closing chunk, in any state of the reader |
| AnthropicRoundTrip.RunIsHeard | internal/adapter/anthropic.go:573-704 | any printed run is read without an error, as each non-empty text in order and a closing chunk for each finish reason, which has all calls so far |
| AnthropicRoundTrip.HeardUnfinished | internal/adapter/anthropic.go:614-631 | a run without a finish reason is read as its texts and nothing else |
| AnthropicRoundTrip.EventRoundTrip | internal/api/anthropic_stream.go:143-173 | a finished run is read back as its non-empty texts in order and one final chunk with the same calls (empty arguments as an empty object), completion tokens and finish reason, tool_calls whenever there are calls |
| AnthropicRoundTrip.TextRoundTrip | internal/adapter/anthropic.go:482-531 | the same through the printed text, for any run; it is an error exactly when the run had neither text nor calls |
| AnthropicContract.FeedAll | internal/adapter/anthropic.go:573-704 | any run of events split at its first error event: failure, content and emission follow from what came before |
| AnthropicContract.ContractAfterCleanEnd | internal/adapter/anthropic.go:520-530 | after a clean end it is an error exactly when no content came before the first error event, and an error without a chunk exactly when no message_stop did either |
| AnthropicContract.ContractAfterScanFailure | internal/adapter/anthropic.go:516-518 | a scanner failure is always an error; exactly when it comes without a chunk |
| AnthropicContract.ContractCanFail | internal/adapter/anthropic.go:657-674 | a stream of a single message_stop emits a chunk and returns an error |
| AnthropicFinish.Finishing | internal/adapter/anthropic.go:573-704 | a stream that does not fail has a chunk with a finish reason exactly when an event closes it, and no chunk after one exactly when nothing is emitted after a closing event |
| AnthropicFinish.FinishAfterCleanEnd | internal/adapter/anthropic.go:520-530 | the same for a whole reading without an error |
| AnthropicFinish.FinishCanBeMissing | internal/adapter/anthropic.go:526-530 | text without a message_stop is no error, and has no finish reason |
| AnthropicFinish.FinishCanBeFollowed | internal/adapter/anthropic.go:695-704 | an error event does not end the stream: text can follow the chunk that closed it |
| AnthropicFinish.ErrorCanFollowText | internal/adapter/anthropic.go:516-518 | a scanner failure after a text frame is an error although text was delivered |
| ToolCallFragments.InterleavingIsIrrelevant | internal/adapter/openai.go:544-566 | two interleavings with the same fragments per index mean the same calls |
| ToolCallFragments.CallsAre | internal/adapter/openai.go:339-367 | one call per index in ascending order, with the last id and the last name the fragments of that index give and all their arguments joined, or {} |
| ToolCallFragments.AddHolds | internal/adapter/openai.go:551-566 | the accumulator always holds, per index, the last non-empty id and name and the joined arguments of the fragments so far |
| ToolCallFragments.SortedIndices | internal/adapter/openai.go:347-351 | the indices of the map in ascending order, however it is visited |
| ToolCallFragments.AscendingIsUnique | internal/adapter/openai.go:351 | there is only one ascending order of the same indices |
| ToolCallFragments.BuildCalls | internal/adapter/openai.go:339-367 | one call per index in ascending order, with empty arguments as an empty object |
| OpenAIReader.StreamState.EmitContent | internal/adapter/openai.go:527-533 | non-empty text is emitted and counts as delivered |
| OpenAIReader.StreamState.AccumulateToolCalls | internal/adapter/openai.go:544-566 | a chunk's fragments are all accumulated |
| OpenAIReader.StreamState.Finish | internal/adapter/openai.go:339-367 | the closing chunk |
| OpenAIReader.StreamState.ApplyChoice | internal/adapter/openai.go:507-524 | folds in the first choice, and closes on a finish reason |
| OpenAIReader.StreamState.HandlePayload | internal/adapter/openai.go:470-502 | one payload: `[DONE]`, malformed, or a chunk |
| OpenAIReader.StreamState.HandleScanError | internal/adapter/openai.go:581-587 | an error before text, an error chunk after |
| OpenAIReader.StreamState.FinishStream | internal/adapter/openai.go:591-598 | a stream that runs out without an end |
| OpenAIReader.StreamState.ConsumeStream | internal/adapter/openai.go:415-466 | the whole scan loop computes `Consume` |
| OpenAIReader.EndIsFinal | internal/adapter/openai.go:415-439 | nothing after the payload that ended the stream matters, not even a scanner failure |
| OpenAIReader.ClosesAs | internal/adapter/openai.go:470-598 | every stream: its texts, and a closing chunk with all calls and reasoning; a finish reason closes it with that and its usage, [DONE] with stop if there are calls, running out with stop if there is anything and with an error otherwise, a malformed payload or scanner failure with an error chunk after text and an error before |
| OpenAIReader.LinesArePayloads | internal/adapter/openai.go:455-466 | a data line is a payload, trimmed, with or without a blank after its colon, unless it is blank; other lines are none |
| OpenAIReader.PayloadsAre | internal/adapter/openai.go:470-502 | `[DONE]` ends the stream and is never decoded; any other payload is a chunk if and only if it decodes |
| OpenAIReader.ProviderContract | internal/chat/port.go:17-21 | an error means that nothing was emitted; only the last chunk can carry a finish reason, and it does unless the stream ended at `[DONE]` with no call pending |
| OpenAIReader.FinishCanBeMissing | internal/adapter/openai.go:484-488 | a stream of nothing but `[DONE]` is no error, and has no finish reason |
| OpenAIReader.DoneIsSilent | internal/adapter/openai.go:484-488 | a stream that runs to `[DONE]` is read as nothing if and only if it held neither text nor calls |
| OpenAIComplete.ParseResponse | internal/adapter/openai.go:296-323 | the response built from a complete answer, field by field; only the first choice counts |
| OpenAIComplete.CallsOfSplit | internal/adapter/openai.go:339-367 | calls cut into indexed fragments in any way are put back together |
| OpenAIComplete.ClosedStream | internal/adapter/openai.go:570-577 | a stream closed by a finish reason emits its texts and one final chunk with that chunk's usage |
| OpenAIComplete.StreamAgreesWithComplete | internal/adapter/openai.go:296-323 | however a message is cut into chunks, reading and collapsing them gives the response of the complete answer, but for id, model, and empty arguments |
| MessageCuts.EveryCutSplits | internal/adapter/openai.go:527-566 | cutting a message by any plan that takes every part to its end gives chunks that carry it |
| MessageCuts.CutAgreesWithComplete | internal/adapter/openai.go:296-323 | a message cut by any such plan and streamed is the message completed at once |
| OpenAIWriter.SSEWriter.WriteChunk | internal/api/sse.go:39-96 | one chunk frame under the response's id and time and the model given, the first with the role |
| OpenAIWriter.SSEWriter.WriteResponseBurst | internal/api/sse.go:103-119 | a content chunk if there is content, and a closing chunk |
| OpenAIWriter.SSEWriter.Replay | internal/api/chat_completions.go:778-786 | the chunks of a buffered run, in order |
| OpenAIWriter.OnlyFirstHasRole | internal/api/sse.go:40-44 | each chunk of a run is printed as itself, with its text, calls, finish reason and usage, and only the very first carries the role "assistant" |
| OpenAIWriter.CallsRoundTrip | internal/api/sse.go:48-60 | calls written without an index come back unchanged if and only if there is at most one; several become one |
| OpenAIWriter.ChunkRoundTrip | internal/api/sse.go:39-96 | a finished run printed and read back gives its non-empty texts and one final chunk with the same finish reason and usage |
| OpenAIWriter.RunIsHeard | internal/adapter/openai.go:415-598 | any printed run is read without an error, as its non-empty texts up to the first finish reason and that chunk with all calls so far; without one, as all texts, with a closing stop chunk only if there are calls |
| OpenAIWriter.HeardFinished | internal/api/sse.go:39-96 | for a finished run whose calls come last that is its non-empty texts and its final chunk |
| OpenAIWriter.TextRoundTrip | internal/api/sse.go:39-143 | the same through the printed text closed by the done frame, for any run, whatever follows |
| OpenAIWriter.SilentIffBlank | internal/api/sse.go:39-96 | chunks closed by the done frame are read as nothing if and only if none has text, calls or a finish reason |
| GeminiReader.StreamState.ApplyPart | internal/adapter/gemini.go:544-565 | a part's call replaces the last one, its text is ignored then and emitted otherwise |
| GeminiReader.StreamState.ApplyUsage | internal/adapter/gemini.go:568-575 | only a usage that counts something replaces the last one |
| GeminiReader.StreamState.Break | internal/adapter/gemini.go:579-585 | an error before text, an error chunk after |
| GeminiReader.StreamState.EmitFinal | internal/adapter/gemini.go:589-594 | the closing chunk: the last call, or the accumulated finish reason and usage |
| GeminiReader.StreamState.HandlePayload | internal/adapter/gemini.go:497-540 | one payload; a malformed one ends the stream |
| GeminiReader.StreamState.ConsumeStream | internal/adapter/gemini.go:440-464 | the whole scan loop computes `Consume`, of which `GeminiStreams` says what is emitted and how it closes |
| GeminiReader.RestIsIgnored | internal/adapter/gemini.go:440-464 | nothing after a malformed payload matters |
| GeminiStreams.LinesArePayloads | internal/adapter/gemini.go:486-492 | only a line that begins with `data: `, blank included, is a payload, untrimmed |
| GeminiStreams.TextsAreEmitted | internal/adapter/gemini.go:440-585 | emitted before the closing chunk are exactly the non-empty texts of parts without a call in the first candidates before any malformed payload, in order; a stream that breaks off is closed by an error chunk, and is an error if it has no text |
| GeminiStreams.ClosesWithFinish | internal/adapter/gemini.go:301-314 | a stream without a call that does not break off closes with the last usage that counts anything and the last finish reason: stop, length, content_filter, other for STOP, MAX_TOKENS, SAFETY or RECITATION, OTHER, any other as it is, empty if there is none |
| GeminiStreams.ClosesWithCall | internal/adapter/gemini.go:555-594 | with a call it closes with tool_calls, the last call, and no usage |
| GeminiReader.ProviderContract | internal/chat/port.go:17-21 | an error exactly when the stream broke off before any text, and then nothing was emitted; only the last chunk can carry a finish reason, and exactly when it does |
| GeminiReader.FinishCanBeMissing | internal/adapter/gemini.go:589-594 | a stream of text that names no finish reason closes with a chunk that has none |
| Translation.ToolNameFor | internal/adapter/gemini.go:228-237 | the name of the first call with the result's id, or the placeholder |
| Translation.BuildGeminiContents | internal/adapter/gemini.go:124-198 | the contents of a conversation, which `RequestShapes.GeminiShowsAll` describes field by field |
| Translation.ToolUseBlocks | internal/adapter/anthropic.go:264-279 | a text block if there is text, then one tool_use block per call |
| Translation.BuildAnthropicMessages | internal/adapter/anthropic.go:225-260 | the wire messages of a conversation, which `RequestShapes.AnthropicShowsAll` describes field by field |
| Translation.NameForIsFirst | internal/adapter/gemini.go:228-237 | a result gets the name of the first call with its id, wherever that stands |
| Translation.ContentsAt | internal/adapter/gemini.go:124-164 | one content per message, in message order |
| RequestShapes.GeminiShowsAll | internal/adapter/gemini.go:124-237 | each message is shown to Gemini in its place: as model exactly if it is the assistant's; without calls as its text; with calls as its text, if any, and then each call with id, name and the object its arguments decode to, or {}; a result with its id, the name of the first call with that id or a placeholder, and its content as the object it decodes to, or wrapped |
| RequestShapes.AnthropicShowsAll | internal/adapter/anthropic.go:225-293 | user, assistant and tool messages, and no others, are shown to Anthropic, all of them, in order: plain text, or text and tool_use blocks with id, name and decoded input, or one tool_result of the user with id and content |
| Translation.GeminiPairIsCall | internal/adapter/gemini.go:173-237 | for any conversation: a functionResponse has an earlier functionCall with the same id and name if and only if it answers an earlier call that has the name it gets |
| Translation.GeminiKeepsPairs | internal/adapter/gemini.go:173-237 | unless tool messages make calls: with an id, if and only if an earlier call has that id, however often it is used; without one, if and only if an earlier call without an id is named like the placeholder |
| Translation.IdlessPairIsLost | internal/adapter/gemini.go:228-237 | a call without an id and its result, the pair of which is lost under any other name |
| Translation.ToolCallTakesName | internal/adapter/gemini.go:228-237 | a tool message that makes a call takes the name away from a later pair |
| Translation.NameForNone | internal/adapter/gemini.go:228-237 | a result without an id always gets the placeholder |
| Translation.AnthropicKeepsOrder | internal/adapter/anthropic.go:225-260 | kept messages stand in message order, each at its place |
| Translation.AnthropicKeepsPairs | internal/adapter/anthropic.go:225-279 | every tool message becomes a tool_result, and it has an earlier tool_use with the same id if and only if an earlier call of a message that is sent has it; ids may repeat or be empty |
| PairedRuns.PairStaysAnswered | internal/api/chat_completions.go:417-420 | the pair the tool loop appends leaves every result answered, whatever its id |
| PairedRuns.RunsStayAnswered | internal/api/chat_completions.go:407-435 | over a whole run, the final conversation and every one a provider was shown answer all their results if the client's does |
| PairedRuns.RunsStayPaired | internal/adapter/anthropic.go:225-279 | so every tool_result of the Anthropic request built from it has its tool_use |
| PairedRuns.GeminiRunsStayPaired | internal/adapter/gemini.go:173-237 | over a whole run, whatever the ids of the executed calls: a functionResponse keeps its functionCall if and only if it has an id or an earlier call without one is named like the placeholder |
| PairedRuns.ExecutedPairIsLost | internal/adapter/gemini.go:228-237 | so the pair of an executed call without an id is lost, unless one is named so |

## Left out

- HTTP, headers, authentication, configuration, logging, `/v1/models`, `/v1/tools`, the MCP client and the built-in
  tools: input, output and wiring. The tool registry is a set of names and an arbitrary result per call.
- JSON syntax. Codecs are parameters, and so is what a JSON text decodes to as an object.
- The complete-response halves of the Anthropic and Gemini adapters, whose answers arrive as one object; the OpenAI one
  is modelled because streaming must agree with it.
- Failing writes. `emit`, the writers and saving the cache always succeed; in the original a failure cuts a replay short
  or leaves the file as it was.
- Cancellation and time inside a request. Deadlines reach the model as provider failures.
- Thinking and effort tables; the system prompt of each request format.
- Slice aliasing of the conversation. The messages are a sequence the request's state replaces, and the library sort of
  the call indices is an insertion into a sorted sequence.
- Concurrency below the locks of the selector and the cache: a run is a sequence of whole operations.
- Routing.Selector.constructor: how a duration is read from its text is not modelled; an unreadable one is None.
- AnthropicRoundTrip.EventRoundTrip: the prompt tokens read back are those of the first chunk's usage, because
  message_start goes out before any later usage is known.
- OpenAIWriter.ChunkRoundTrip: reasoning is not part of the OpenAI stream the router writes, so it comes back empty.
- GeminiReader.StreamState.ConsumeStream: of several streamed function calls only the last is kept, as in the original.
- PairedRuns.GeminiRunsStayPaired: assumes that the client's tool messages make no calls of their own, with which a
  pair can be lost, see `ToolCallTakesName`.
- AnthropicRoundTrip.TextRoundTrip: lines have no length limit, while the scanner fails on one over 1 MiB, as it would
  at any other point; `ContractAfterScanFailure` covers what is read then.
- OpenAIWriter.TextRoundTrip: the same limit is not modelled.
- ReasoningCache.Cache.constructor: a file holding a JSON null, after which the first write panics, is not modelled; of
  a badly typed file the model takes whatever decoding leaves.
- AnthropicWriter.SSEWriter.EmitMessageStart: the random message id and the virtual model name are not modelled.
- EchoRuns.CompletionIsEchoed: says nothing about a turn whose first call has no id, because such a call is not
  remembered.
