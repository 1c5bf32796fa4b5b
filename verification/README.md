# Vulpes Core: a verified model of its concurrent and stateful core

Vulpes Core is an LLM gateway: a chat request passes a chain of plugin gates, is sent to the first
provider of a route list that answers, and is streamed back or collected, while events go to observers
through a bounded queue. This project models the parts of it in which goroutines, retries, overflow and
in-place updates interact, and proves what holds of every run.

`dafny verify dfyconfig.toml` checks the whole project.

| file | what it models |
|---|---|
| `Sequences.dfy`, `Capabilities.dfy`, `Collect.dfy` | chunks, usage, errors; `retryable`; `collectResponse` as the loop it is |
| `Relay.dfy`, `RelayEnding.dfy`, `RelayProgress.dfy`, `RelayCharges.dfy`, `RelayLoops.dfy` | a streamed response as a labelled transition system: the forwarder and canceller of `Invoke`, the relay of `executeStream`, `writeStream`, joined by two unbuffered channels (a send and its receive are one step); how it ends; whether it ends; what it is charged for; that it refines the goroutines' own loops |
| `Reconnect.dfy`, `PluginClient.dfy` | the compare-and-swap reconnect protocol for an unbounded set of callers as a transition system, and the client object itself, whose methods are proved against the interference that system allows |
| `QueueModel.dfy`, `ObserverQueue.dfy`, `QueueRun.dfy` | the observer queue as a history of accepted events, as a class over an array shifted in place that refines it, and as producers interleaved with the one goroutine that drains it |
| `Fallback.dfy`, `ChatModel.dfy`, `ChatProperties.dfy`, `ChatMeaning.dfy`, `Pipeline.dfy`, `Accounting.dfy` | the walk along the route list; one chat request as a table of gates, a walk and its bookkeeping; what holds of every request; what each gate, attempt and success comes to, read off the answers; `compile` and `ExecuteChat` as a class whose methods produce exactly that log; usage and terminal events added up over request sequences, relays included |
| `EventStream.dfy` | the event-stream printer, and a reader following sections 9.2.5 and 9.2.6 of the WHATWG HTML Living Standard |
| `Secrets.dfy` | the rewrite of secret references in a JSON-like tree, with keys taken in arbitrary order |

Plugins are adversarial throughout: every answer, error and reply sequence is a parameter. The clock,
UUIDs and the end of a request's context are the environment's to choose.

## What the proofs show about the code

* **A relay can be left behind.** `writeStream` stops reading at the first error chunk, and the relay's
  send is unconditional. As long as the request context lives, every maximal run ends properly if and only
  if no chunk follows an error chunk (`RelayProgress.ProgressWhileContextLives`). But the handler's
  return ends the context, and the forwarder's pending `InvokeNext` may then fail and have its own error
  chunk taken by the relay. So when the context may end, every maximal run ends properly if and only if
  no reply carries an error at all (`RelayProgress.ProgressUnderCancellation`);
  `RelayProgress.LeakAfterLastError` exhibits the run, and `RelayProgress.LeakedRelayNeverSettles` shows
  that such a relay never commits its usage nor reports its end.
* **A stream may go unpaid, though nobody cancels.** `RelayCharges.UsedButNotCharged` is a provider that
  reports its usage and then an error chunk: the writer stops there, the handler returns and ends the
  context, and the leaked relay never commits. In general the charges that are possible are exactly those
  due for a prefix of the replies that does not go on after an error (`RelayCharges.ChargesExactly`). So the
  charge is sure to be for the whole stream if and only if nothing is ever due
  (`RelayCharges.AlwaysPaysExactly`), which is to say that a streaming request is sure to pay for what it
  used if and only if it used nothing and no chunk up to its first error reports tokens
  (`Accounting.AlwaysPaidExactly`). If the context outlives the relay, the charge is right and stays right
  (`RelayCharges.ChargedForAll`), and a request pays for what it used if and only if its provider stops at
  its first error chunk, or used nothing (`Accounting.StreamPays`).
* **A cancelled stream may look complete.** When the context ends while the forwarder holds a chunk, it may
  drop the chunk and close its channel without an error; the relay then reports `request.completed` and the
  writer prints `[DONE]`. `RelayEnding.CancelledStreamMayLookComplete` gives such a run for every error-free
  prefix of every reply list, and `RelayEnding.DoneFollowsPrefixes` says that these prefixes are exactly
  what `[DONE]` may follow. So `[DONE]` always means a complete stream if and only if the plugin sends
  nothing and ends its stream (`RelayEnding.DoneIsCompleteExactly`), and in every run in which the context
  outlives the relay (`RelayProgress.DoneWhileContextLives`).
* **The two fallback loops do not always agree.** Section 11 ("Fallback Semantics") of the gateway's design
  document allows a fallback until the first response chunk; the streaming loop commits to a route as soon
  as `Invoke` returns. `Fallback.LoopsMayDisagree` is an input on which they differ. They reach the same
  verdict if and only if the first stream that a provider opens, after routes that are all passed over, is
  free of error chunks (`Fallback.LoopsAgreeExactly`).
* **`on_overflow: block` does not block.** The same document offers `drop_oldest`, `block` and `fail`; in the
  code "block" and "fail" are one policy (`ObserverQueue.Queue.constructor`), and under it a full queue, and
  nothing else, refuses the new event (`QueueModel.EnqueueLoss`, on an input
  `QueueModel.FullQueueRefuses`).
* **Reconnecting installs one client per generation, but may dial any number.** The comment above
  `reconnect` speaks of preventing a herd of reconnects. `Reconnect.HerdMayDial` gives, for every n, a run
  after which n callers have each dialled a replacement for the same client. `Reconnect.DialsExactly` counts
  the dials of every run; each generation is dialled exactly once if and only if no caller comes to decide
  after another has installed its client (`Reconnect.OneDialPerGeneration`).
* **Collected responses commit a zero usage too;** a relay commits only when the total is positive.
  `Accounting.Owed` follows the code.

## Model

| member | source | states |
|---|---|---|
| Capabilities.LastUsageMeaning | internal/pipeline/pipeline.go:392-394 | the usage in force after a stream is that of the last chunk carrying one, and the initial one if none does |
| Capabilities.TextGrows | internal/pipeline/pipeline.go:402-409 | the text of no chunks is empty; a chunk without choices adds nothing; one choice more in the last chunk adds its delta and then its message, each exactly if it is a string |
| Capabilities.PieceInPlace | internal/pipeline/pipeline.go:402-409 | delta and message of choice j of chunk i stand one after the other in the text, right behind the text of everything before that choice |
| Capabilities.FirstErrorPrefix | internal/pipeline/pipeline.go:389-391 | the error reported for a stream depends only on the chunks up to and including the first error chunk |
| Collect.CollectResponse | internal/pipeline/pipeline.go:384-423 | fails exactly when some chunk carries an error, with the first one and without reading further; otherwise the content is all delta and message strings in order, usage the last seen, id and time from the first named chunk |
| Collect.AppendChoices | internal/pipeline/pipeline.go:402-409 | appends the delta, then the message text of every choice, in order |
| Relay.ChunkConservation | internal/plugins/rpc.go:259-276 | in every reachable state, chunks with the writer, the relay, the forwarder and the dropped one are in order the replies obtained plus at most one synthesised error chunk; only an ended context lets the forwarder drop, and then it leaves |
| Relay.RelayAccumulates | internal/pipeline/pipeline.go:323-345 | the relay's usage, captured text and failure flag are always those of the chunks it absorbed; once gone, with the context alive, it absorbed the whole stream |
| Relay.SyntheticMeans | internal/plugins/rpc.go:261-264 | the chunk synthesised for a failed call has no content, no usage, code `plugin_stream_failed`, status 502, is retryable and no rate limit, and while the context lives carries the text of the call's error |
| Relay.StreamMeans | internal/plugins/rpc.go:259-276 | what the forwarder offers while the context lives: the replies, and after a failed call that chunk |
| Relay.InvStep | internal/pipeline/pipeline.go:320-358 | every step of every process keeps conservation, the control invariant, the writer's stop rule and the accumulators |
| RelayEnding.FramesWritten | internal/httpapi/server.go:103-122 | in every reachable state the frames written are those of the chunks received, and `[DONE]` has been written exactly when the writer stopped without an error chunk |
| RelayEnding.DoneComesLast | internal/pipeline/pipeline.go:321-358 | `[DONE]` is the last action of all; the usage commit, if due, and the one `request.completed` with the last usage come before it |
| RelayEnding.ErrorFrameExcludesDone | internal/httpapi/server.go:104-112 | an error frame is preceded by an `upstream.error` event and never accompanied by `[DONE]` |
| RelayEnding.OneTerminalEvent | internal/pipeline/pipeline.go:346-357 | at every moment at most one terminal event and one commit, the commit first; a final state has exactly the terminal event the received chunks call for |
| RelayEnding.DoneMeansComplete | internal/plugins/rpc.go:268-275 | after `[DONE]` the client has every reply and the plugin had signalled its end, unless the ended context made the forwarder drop a chunk; then it has a prefix |
| RelayEnding.CancelledStreamMayLookComplete | internal/plugins/rpc.go:271-275 | for every stream and every error-free prefix of its replies, a run in which the client gets that prefix and then `[DONE]` |
| RelayEnding.DoneFollowsPrefixes | internal/plugins/rpc.go:259-276 | what may come before `[DONE]` is exactly an error-free prefix of the replies |
| RelayEnding.DoneIsCompleteExactly | internal/httpapi/server.go:103-125 | when the context may end, `[DONE]` always means a complete stream if and only if the plugin sends nothing and ends its stream |
| RelayProgress.StepDecreases | internal/plugins/rpc.go:259-276 | every step of every process decreases one measure |
| RelayProgress.RunsAreFinite | internal/plugins/rpc.go:243-277 | no run is longer than the measure of its first state: five steps a reply and fourteen more |
| RelayProgress.StuckStates | internal/pipeline/pipeline.go:344 | a reachable state where no process can move is final, or the relay is sending to a writer that has stopped |
| RelayProgress.LeakIsForever | internal/pipeline/pipeline.go:344 | such a relay stays that way, and nothing more is ever reported or written |
| RelayProgress.LeakedRelayNeverSettles | internal/pipeline/pipeline.go:344-357 | whatever happens after a leak, the relay has committed no usage and reported no end, and never will |
| RelayProgress.LeakShape | internal/httpapi/server.go:104-112 | a leak means the writer got an error chunk and the forwarder's output went on after it |
| RelayProgress.ChannelsClosedOnce | internal/plugins/rpc.go:244-249 | no step sends on or closes a channel that is already closed |
| RelayProgress.ProgressWhileContextLives | internal/httpapi/server.go:103-112 | while the context lives, every maximal run ends in the final state if and only if no chunk follows an error chunk |
| RelayProgress.ProgressUnderCancellation | internal/plugins/rpc.go:261-267 | when the context may end at any time, every maximal run ends in the final state if and only if no reply carries an error |
| RelayProgress.LeakAfterLastError | internal/plugins/rpc.go:261-267 | for every stream whose last reply is its only error, a run that leaks the relay |
| RelayProgress.AliveIsUndisturbed | internal/pipeline/pipeline.go:320-358 | a run whose context still lives where no process can move counts as one whose context outlives the relay |
| RelayProgress.UndisturbedOutcome | internal/pipeline/pipeline.go:320-358 | if the context lives until the relay has gone or is stuck, the relay leaks exactly if some chunk follows an error chunk, and otherwise passes the whole stream on, whenever the context ends after that |
| RelayProgress.DoneWhileContextLives | internal/plugins/rpc.go:259-276 | if the context outlives the relay, `[DONE]` means that the client has every reply and that the plugin had ended its stream |
| RelayProgress.CaptureIsCollection | internal/pipeline/pipeline.go:323-345 | on an error-free stream whose context outlives the relay, the captured text and usage are those `collectResponse` would return |
| RelayCharges.ChargesExactly | internal/pipeline/pipeline.go:346-348 | over all maximal runs, whenever the context ends, the usage commits possible are exactly those due for a prefix of the replies without a chunk after an error chunk |
| RelayCharges.AlwaysPaysExactly | internal/pipeline/pipeline.go:346-348 | every maximal run charges for the whole stream if and only if nothing is due for it nor for any prefix it may break off after |
| RelayCharges.NeverDueMeans | internal/pipeline/pipeline.go:327-329 | that condition chunk by chunk: there is no rate limiter, or no chunk up to the first error reports tokens and the last usage of the stream is not positive |
| RelayCharges.ChargedForAll | internal/pipeline/pipeline.go:346-348 | once the relay has gone while the context lives, the commit is the one due for the whole stream, and stays so whatever follows |
| RelayCharges.LostAfterError | internal/httpapi/server.go:104-112 | for every stream and every prefix of its replies that ends in the first error, a run in which the context ends only after the writer has stopped there, and nothing is ever committed |
| RelayCharges.UsedButNotCharged | internal/httpapi/server.go:104-112 | a usage chunk and then an error chunk: the usage is due, nobody cancels, and it is never committed |
| RelayLoops.Forward | internal/plugins/rpc.go:243-277 | run by itself, for every way its calls and selects may go, the forwarder sends every chunk it is offered except a last one that gives way to the end of the context, then closes `streamDone` and then its channel |
| RelayLoops.ForwarderRefinesLoop | internal/plugins/rpc.go:243-277 | whatever the interleaving and whenever the context ends, a forwarder that has gone has handed over and dropped exactly what its loop sends and drops |
| RelayLoops.RelayChunks | internal/pipeline/pipeline.go:320-358 | run by itself, the relay passes every chunk on and reports an event per error chunk, then the commit if due, then one terminal event |
| RelayLoops.AccountMeans | internal/pipeline/pipeline.go:340-357 | the report is one `upstream.error` event for each error chunk, then the commit of a positive total if there is a limiter, then `request.completed` with the last usage or, after an error, `request.failed` |
| RelayLoops.RelayRefinesLoop | internal/pipeline/pipeline.go:320-358 | whatever the interleaving, a relay that has gone has reported exactly what its loop reports on the received chunks |
| RelayLoops.PipelineRefinesLoops | internal/pipeline/pipeline.go:320-358 | if the context outlives the relay and no chunk follows an error, every maximal run of the interleaved system does what the three loops do one after the other |
| Reconnect.InvStep | internal/plugins/rpc.go:122-147 | every step of every caller keeps the shared history sound, every caller's view correct, private clients distinct and none lost |
| Reconnect.NoLeak | internal/plugins/rpc.go:122-147 | every client ever dialled is exactly one of current and open, closed exactly once, or held open by exactly one reconnecting caller |
| Reconnect.OneOpenWhenIdle | internal/plugins/rpc.go:122-147 | when no call is in flight, opened minus closed is exactly one |
| Reconnect.OneWinnerPerGeneration | internal/plugins/rpc.go:118-142 | installed clients form a growing, strictly increasing history; each is replaced at most once, after some call saw `ErrShutdown` on it, and never comes back |
| Reconnect.BrokenMeans | internal/plugins/rpc.go:150-158 | a client counts as broken exactly if some call of the run got `ErrShutdown` from its attempt on it |
| Reconnect.AtMostTwoAttempts | internal/plugins/rpc.go:149-163 | a call issues its RPC at most twice, the second time on a strictly newer client and only after `ErrShutdown` on the first |
| Reconnect.HerdMayDial | internal/plugins/rpc.go:123-135 | for every n, a run after which n callers have each dialled a replacement of the first client and none has installed it |
| Reconnect.DialsExactly | internal/plugins/rpc.go:129-146 | in every run the clients dialled are those installed, one for each caller still to decide and one for each time a caller was overtaken; those closed or about to be are the replaced and the overtaken ones |
| Reconnect.OneDialPerGeneration | internal/plugins/rpc.go:136-146 | once no call is in flight, as many clients were dialled as installed if and only if no caller ever came to decide after another had installed its client |
| Reconnect.LateCallerDoesNotDial | internal/plugins/rpc.go:123-130 | a caller that finds its client replaced makes its second attempt on the current one, changing nothing; only one that finds it current goes on to dial |
| Reconnect.NobodyDialsLater | internal/plugins/rpc.go:123-130 | once a client has been replaced, no caller begins to dial on its account, however the run goes on |
| Reconnect.RelyAlong | internal/plugins/rpc.go:122-147 | over any run of the other callers the history only grows and a caller's private client is left alone |
| PluginClient.RPCPluginClient.constructor | internal/plugins/rpc.go:94-101 | a dialled client starts with one open connection, the current one |
| PluginClient.RPCPluginClient.Reconnect | internal/plugins/rpc.go:122-147 | under any interference the result is strictly newer than `stale`; a client dialled here is installed or closed; it fails only if the dial does and dials only if `stale` was current |
| PluginClient.RPCPluginClient.Decide | internal/plugins/rpc.go:136-146 | the faster caller's client wins; the loser's is closed after the lock is released |
| PluginClient.RPCPluginClient.Call | internal/plugins/rpc.go:149-163 | one attempt, and after `ErrShutdown` one more on a strictly newer client, whose answer is returned as it is |
| QueueModel.EnqueueLoss | internal/observability/queue.go:39-54 | an accepted event joins the end; one is refused exactly by a full queue that rejects, which changes nothing, and lost exactly from a full queue that drops, namely event k when event k + capacity is accepted |
| QueueModel.TakeBatchTakes | internal/observability/queue.go:97-108 | a batch is the front of the queue, moves to the end of what was taken, and is empty only if the queue is |
| QueueModel.PositionsMeaning | internal/observability/queue.go:47-49 | the positions of a fate are strictly increasing positions of events with that fate |
| QueueModel.LeftAtPositions | internal/observability/queue.go:97-108 | events that left are an order-preserving, duplicate-free subsequence of those accepted |
| QueueModel.Conservation | internal/observability/queue.go:39-54 | accepted = taken + evicted + queued |
| QueueModel.EvictedAfterSuccessors | internal/observability/queue.go:42-50 | over any operations, event k is evicted only once event k + capacity has been accepted |
| QueueModel.PacedLosesNothing | internal/observability/queue.go:39-54 | at most capacity acceptances between two empty takes lose nothing, over any operations |
| QueueModel.OneMoreLosesTheFirst | internal/observability/queue.go:47-49 | one acceptance more without a take loses exactly the first event: the bound is sharp |
| QueueModel.FullQueueRefuses | internal/observability/queue.go:42-45 | under "block" or "fail" the same event is refused and nothing changes |
| QueueModel.RejectingNeverEvicts | internal/observability/queue.go:43-45 | under "block" or "fail", over any operations, taken then queued is exactly what was accepted |
| QueueModel.BatchesPartition | internal/observability/queue.go:81-95 | flushing hands out everything in order in non-empty batches within the batch size |
| QueueModel.BatchesCount | internal/observability/queue.go:81-95 | the number of batches is the length over the batch size, rounded up |
| ObserverQueue.Queue.constructor | internal/observability/queue.go:24-37 | an empty queue; sizes that are not positive become 10000 and 100; "block" and "fail" reject, anything else drops |
| ObserverQueue.Queue.ShiftDown | internal/observability/queue.go:47 | the in-place copy moves the tail to the front |
| ObserverQueue.Queue.Enqueue | internal/observability/queue.go:39-54 | the in-place update refines the model's step, answer included |
| ObserverQueue.Queue.TakeBatch | internal/observability/queue.go:97-108 | the in-place take refines the model's step, and the batch is a fresh array no later operation can touch |
| ObserverQueue.Queue.Flush | internal/observability/queue.go:81-95 | with no producer active it empties the queue, losing nothing, in exactly the batches the queue is cut into; every observer gets all of them whoever fails, and the log has exactly the failures |
| ObserverQueue.Queue.EmitToAll | internal/observability/queue.go:87-93 | every observer gets the batch once, whether or not others fail, and each failure is logged in turn |
| ObserverQueue.FailureLogMeans | internal/observability/queue.go:89-91 | the log has exactly the observers that fail on the batch, in their order |
| QueueRun.InvStep | internal/observability/queue.go:66-95 | every step of producers and runner keeps the delivery invariant |
| QueueRun.ObserversAgree | internal/observability/queue.go:81-95 | in every reachable state a later observer has a prefix of what an earlier one has, at most one batch shorter, and the batches strung together are a prefix of what was taken |
| QueueRun.ShutdownDrains | internal/observability/queue.go:56-79 | once `done` is closed every event accepted before closing has left the queue, and unless evicted has been given to every observer at its place |
| QueueRun.ClosedAtMeans | internal/observability/queue.go:56-57 | the bound in the shutdown result is the number of events accepted when the queue was closed |
| QueueRun.RunRefinesOps | internal/observability/queue.go:66-108 | any interleaving leaves the history its queue operations leave one after the other |
| QueueRun.PacedRunLosesNothing | internal/observability/queue.go:24-108 | over any paced run nothing is evicted: taken plus queued is everything accepted |
| QueueRun.DrainEnds | internal/observability/queue.go:66-95 | after `closed` has been seen, every run without new events is bounded, and one that cannot go on has closed `done` with an empty queue and everything taken given to every observer |
| QueueRun.LeavingIsDraining | internal/observability/queue.go:74-77 | every reachable state in which the runner has seen `closed` and not yet exited is one from which that holds |
| Fallback.WinnerIsExact | internal/pipeline/pipeline.go:250-287 | a route wins exactly if it succeeds and every earlier one was skipped or failed retryably; likewise for a stop and for exhaustion |
| Fallback.ConfiguredMeaning | internal/pipeline/pipeline.go:251-259 | the routes tried are exactly the configured ones, in increasing order, and the headers are those of the last |
| Fallback.StopPoint | internal/pipeline/pipeline.go:264-287 | at a win or stop the last route tried is the one it happened at, and all before let the walk go on; an exhausted walk has looked at all |
| Fallback.Bound | internal/pipeline/pipeline.go:246-249 | every route may be tried exactly if `max_attempts` is not positive or covers the list; otherwise that many |
| Fallback.BoundStable | internal/pipeline/pipeline.go:246-280 | a success or stop under one bound is the same under every larger bound, and exhaustion can only turn into something at a later route |
| Fallback.MoreAttemptsNeverHurt | internal/pipeline/pipeline.go:246-249 | the same for `max_attempts`, where a value that is not positive or covers the list is the unbounded walk |
| Fallback.CollectMeans | internal/pipeline/pipeline.go:251-280 | one route, collected: skipped if unconfigured, won if its stream has no error chunk, else failed with the error of its refusal or of its first error chunk |
| Fallback.CollectsFirst | internal/pipeline/pipeline.go:250-287 | over the configuration and the answers alone: collecting wins at the first error-free stream and stops at the first error that is not retryable, no rate limit and below 500, each after routes that are unconfigured or failed with another error, in band or not |
| Fallback.StreamsFirst | internal/pipeline/pipeline.go:299-361 | the same for streaming, where only refusals count |
| Fallback.OutcomesRelate | internal/pipeline/pipeline.go:263-280 | collecting succeeds exactly where streaming does and the stream is error-free; where streaming fails both come to the same |
| Fallback.StreamingFindsRoute | internal/pipeline/pipeline.go:299-361 | streaming finds a route whenever collecting does, at no larger index; where streaming finds none both end alike |
| Fallback.LoopsAgreeExactly | internal/pipeline/pipeline.go:299-361 | the loops reach the same verdict if and only if the first stream opened, after routes that are unconfigured or refuse retryably, is free of errors; they have then tried the same providers in the same order |
| Fallback.LoopsMayDisagree | internal/pipeline/pipeline.go:272-280 | a stream that opens and then fails retryably, before a route that delivers: streaming settles on the first, collecting on the second |
| ChatModel.ShortCircuitAppend | internal/pipeline/pipeline.go:155-236 | gates are asked one after the other until one ends the request |
| ChatModel.WonRun | internal/pipeline/pipeline.go:250-287 | a run won at route i consists of the failed attempts before it, its invocation and, unless streaming, the bookkeeping of its response alone |
| ChatProperties.CallsInOrder | internal/pipeline/pipeline.go:143-242 | whatever plugins answer, the calls and events of a request come in the documented order, all but attempts and blocking observers at most once |
| ChatProperties.GatesDecide | internal/pipeline/pipeline.go:155-236 | a request gets past the gates exactly if every configured gate allows it, the cache does not answer, the model is known and the router names a route |
| ChatProperties.ProvidersBehindGates | internal/pipeline/pipeline.go:146-241 | a provider is reached exactly if the pipeline is ready and every gate is open, and each configured gate was asked |
| ChatProperties.CacheHitEndsRequest | internal/pipeline/pipeline.go:196-205 | after a cache hit there is no check, route, attempt, store, commit or later event; streaming requests have no hits |
| ChatMeaning.AuthenticationRefuses | internal/pipeline/pipeline.go:155-162 | failed authentication: nothing but the call has happened, and the error is the plugin's reason or the text of its error |
| ChatMeaning.AuthorizationRefuses | internal/pipeline/pipeline.go:166-174 | failed authorization: what has happened by then, and the denial with its reason or the plugin's error |
| ChatMeaning.PromptRefuses | internal/pipeline/pipeline.go:176-188 | a failing prompt provider: what has happened by then, and the plugin's error |
| ChatMeaning.CacheServes | internal/pipeline/pipeline.go:196-205 | a cache hit answers with the cached content and usage, after the lookup and its event |
| ChatMeaning.RateLimiterRefuses | internal/pipeline/pipeline.go:208-224 | a rate limiter that denies or fails: what has happened by then, and the denial with its reason or the plugin's error |
| ChatMeaning.RoutingRefuses | internal/pipeline/pipeline.go:226-236 | an unknown model, a failing router or one without routes: what has happened by then, and the error of each |
| ChatMeaning.GatesPass | internal/pipeline/pipeline.go:143-242 | past all gates: exactly what has happened by then, and that the attempts are made with the resolved messages, if there are any, else the request's own |
| ChatMeaning.AttemptAdds | internal/pipeline/pipeline.go:250-280 | an unconfigured route adds nothing to the log, a winning one its call, a failing one its call and then its event |
| ChatMeaning.RunMeans | internal/pipeline/pipeline.go:244-361 | for the pipeline's own providers, bound and routes: which route wins, streaming or collecting, in terms of the answers |
| ChatMeaning.StopMeans | internal/pipeline/pipeline.go:264-280 | and at which one the attempts stop |
| ChatMeaning.LastErrorMeans | internal/pipeline/pipeline.go:251-279 | a failed request quotes the error of the last route that failed; where collecting, an unconfigured provider counts and is named |
| ChatMeaning.SuccessMeans | internal/pipeline/pipeline.go:367-375 | after a collected success the response is stored if there is a cache, its usage committed if there is a limiter, the event sent, and then the blocking observers called |
| ChatMeaning.ObserversMean | internal/pipeline/pipeline.go:376-380 | the blocking observers are called in turn, up to and including the first that fails |
| ChatProperties.WhenAsked | internal/pipeline/pipeline.go:196-213 | the cache is asked exactly if the request passes authentication, authorization and prompt, a cache is configured and it does not stream; the rate limiter exactly if it gets as far, one is configured and the cache did not answer |
| ChatProperties.RunInvokes | internal/pipeline/pipeline.go:250-287 | the providers invoked are exactly the configured routes up to the stop point, in order |
| Pipeline.Pipeline.Compile | internal/pipeline/pipeline.go:54-134 | fails exactly if a named optional plugin, provider or observer is not registered under its kind, naming the first; otherwise each optional capability is absent exactly if unnamed and else the one named, a required one is bound exactly if it is registered, exactly the absent required ones are missing, and the pipeline is ready exactly if none is |
| Pipeline.Pipeline.Lookup | internal/pipeline/pipeline.go:68-95 | an unnamed capability is absent, a named one must be registered |
| Pipeline.Pipeline.LookupAll | internal/pipeline/pipeline.go:106-130 | finds how many names are registered before the first that is not |
| Pipeline.Pipeline.ExecuteChat | internal/pipeline/pipeline.go:143-242 | what it does is the log of the model for every answer of the plugins, and its result or error is the one that log's ending calls for; a cache hit answers with the cached content and usage and is the last thing logged; a refused request has an empty result; the cache header is `BYPASS` exactly if the cache was not asked, `HIT` exactly if it answered, and the rate-limit headers are the limiter's account exactly if it was asked and answered with a limit |
| Pipeline.Pipeline.Identify | internal/pipeline/pipeline.go:155-195 | authentication to prompt: the first half of the table, never reaching an unbound authenticator |
| Pipeline.Pipeline.Plan | internal/pipeline/pipeline.go:196-237 | lookup to routing: the second half of the table, with the cache and rate-limit headers |
| Pipeline.Pipeline.Admit | internal/pipeline/pipeline.go:208-237 | rate limit to routing; the limiter's account goes into the headers if it answered with a limit, even when it denies |
| Pipeline.Pipeline.ExecuteNonStream | internal/pipeline/pipeline.go:244-291 | the loop refines the walk: response, usage, headers and index are the winner's alone; otherwise the error quotes the last failure |
| Pipeline.Pipeline.ExecuteStream | internal/pipeline/pipeline.go:293-365 | the loop settles on the route the walk names, or fails like it |
| Pipeline.EndsMeans | internal/pipeline/pipeline.go:244-365 | how the loops leave the result: headers and index of the winner, its stream as it is or its text and usage, an error only if a blocking observer fails; without a winner an error and nothing of any attempt |
| Pipeline.LostMeans | internal/pipeline/pipeline.go:288-290 | a failed request quotes the last error, and its headers name the last route tried, if any was |
| Pipeline.Pipeline.AfterSuccess | internal/pipeline/pipeline.go:367-382 | store, commit and event always happen; the first failing blocking observer is the only failure |
| Accounting.ChatPicks | internal/pipeline/pipeline.go:208-291 | without its relay a request commits only a collected success's usage, and closes its account exactly once unless refused, served from the cache or streamed |
| Accounting.RelayOwes | internal/pipeline/pipeline.go:344-357 | a relay that has gone as far as it can has committed the last usage received, if positive, and reported one end; a leaked one has done neither |
| Accounting.CommitsWhatItOwes | internal/pipeline/pipeline.go:208-291 | a request commits at most once, only behind a check that allowed it, and commits what it owes: failed attempts and leaked relays owe nothing |
| Accounting.OneTerminalEventEach | internal/pipeline/pipeline.go:288-357 | a request and its relay together attempt exactly one terminal event if the gates are open and the relay has not leaked, none otherwise |
| Accounting.StreamPays | internal/pipeline/pipeline.go:323-348 | if its context outlives the relay, a streaming request leaks it exactly if the provider goes on after an error chunk, and pays for what it used exactly if it does not leak or used nothing |
| Accounting.AlwaysPaidExactly | internal/pipeline/pipeline.go:323-348 | whenever the context ends, a streaming request behind a rate limiter is sure to pay for what it used if and only if it used nothing and no chunk up to its first error reports tokens |
| Accounting.TotalCommitted | internal/pipeline/pipeline.go:346-382 | over any sequence of requests total usage committed is the sum owed, in at most one commit each |
| Accounting.SumMeans | internal/pipeline/pipeline.go:346-382 | usages add up component by component |
| Accounting.TotalUsed | internal/pipeline/pipeline.go:346-382 | over any sequence of requests whose contexts outlive their relays and whose streams do not go on after an error, total usage committed is what the winning providers reported |
| EventStream.WriteStream | internal/httpapi/server.go:98-127 | prints the frames of the chunks up to the first error, then `[DONE]` exactly if there was none |
| EventStream.PrintedMeans | internal/httpapi/server.go:103-122 | what is printed, chunk by chunk: an `error` event, a `data` line or nothing, and `[DONE]` at the end |
| EventStream.LineEnds | internal/httpapi/server.go:106 | for the reader a line ends in LF, CR LF or CR |
| EventStream.LineMeans | internal/httpapi/server.go:106-115 | what a complete line does to the reader: dispatch, comment, and the fields `event`, `data` and `id` |
| EventStream.FieldLine | internal/httpapi/server.go:115 | a `name: value` line sets that field to exactly the value, colons and leading spaces included |
| EventStream.RoundTrip | internal/httpapi/server.go:103-122 | for single-line payloads, a standard reader makes of the printed text exactly the events of the frames |
| EventStream.ClientReads | internal/httpapi/server.go:98-127 | in every reachable state with the writer stopped, the client reads the payloads before the first error in order, then one `error` event or the `[DONE]` message; usage-only chunks give nothing |
| EventStream.PayloadsMean | internal/httpapi/server.go:103-122 | what the client is meant to read, chunk by chunk: an `error` event, a message or nothing |
| Secrets.IsSecretRef | internal/secrets/provider.go:29-35 | yields a name exactly for the texts `${secret:NAME}` with a well-formed name, and that name |
| Secrets.TrimSpaceMeaning | internal/secrets/provider.go:74 | trimming removes the white space at both ends, all of it and nothing else |
| Secrets.CharactersAre | internal/secrets/provider.go:10 | by code point, which characters are white space and which may stand in a name |
| Secrets.RefMeans | internal/secrets/provider.go:74-77 | a string is a reference to NAME exactly if it is white space, `${secret:NAME}` with a well-formed name, and white space |
| Secrets.ResolveValue | internal/secrets/provider.go:51-90 | in whatever order keys come, succeeds exactly if no leaf is in error, with the one rewritten value and the secrets referred to added; otherwise reports some leaf's error |
| Secrets.ResolveFields | internal/secrets/provider.go:53-62 | the loop over an object's keys, taken in an arbitrary order, comes to the same for every order |
| Secrets.ResolveItems | internal/secrets/provider.go:63-72 | the loop over an array rewrites every item in place |
| Secrets.ResolvePluginSecrets | internal/secrets/provider.go:37-49 | succeeds exactly if every name referred to is permitted and resolves; returns the rewritten configuration and, for exactly the names referred to, their secrets; or nothing and the error of a name referred to, saying whether it was not permitted or did not resolve |
| Secrets.RewriteIsLocal | internal/secrets/provider.go:51-90 | the result has the same paths, and at the end of each the rewritten value |
| Secrets.ShapeKept | internal/secrets/provider.go:51-90 | shape and keys stay, so does every leaf that is not a reference, white space included; a reference becomes its secret |
| Secrets.NamesAreReferences | internal/secrets/provider.go:85 | the names recorded are exactly those some string leaf refers to |
| Secrets.SucceedsIff | internal/secrets/provider.go:78-84 | resolution succeeds if and only if every name referred to is permitted and resolvable |
| Secrets.SecondPass | internal/secrets/provider.go:73-86 | a second pass succeeds and changes nothing if and only if resolving each secret used changes nothing |
| Secrets.SecondPassIsIdentity | internal/secrets/provider.go:73-86 | in particular when no secret is itself a reference, a second pass succeeds and changes nothing |

## Left out

- Sockets, `net/rpc`, gob, HTTP, YAML, JSON Schema, SHA-256, UUIDs and clocks: a dial succeeds or fails, an RPC answers, reports `ErrShutdown` or fails, and an encoder is any function.
- PluginClient.RPCPluginClient.Interfere: stands for the other callers; it is modelled by its contract alone, which `Reconnect.RelyAlong` shows every run of theirs to meet.
- `Close` of the plugin client, which leaves the closed connection in the field, so that a later call may reconnect: the reconnect results are about runs without it.
- The goroutine that `callOn` abandons when the context ends: a reply counts only when `callOn` returned without error.
- Replies lost inside the plugin: a retried `InvokeNext` may follow a reply that never arrived, so the relay results speak of replies obtained.
- The channels themselves: the processes of a stream are steps of one transition system on values; `RelayLoops` ties the forwarder's and the relay's steps to their loops, and `EventStream.WriteStream` is the writer's.
- Relay.Step: the writer's receive and the frame it writes are one step, whereas the code lets the relay go on, and report, while a received chunk is being written; a frame still follows everything the relay did before sending its chunk, and `[DONE]` everything it did before closing its channel, which is what the order results say.
- What `InvokeCancel` does inside the plugin: the replies of a run are the plugin's answers in that run, so a plugin that reacts to the cancellation by ending or failing its stream is one with other replies, not one whose replies change.
- Write errors of the HTTP connection, which `writeStream` ignores; the two-second limit of the cancelling call.
- Event and prompt properties, timing and transcripts: the property map is shared and mutated by the code, so events carry no properties here.
- Agreement of cache store and lookup: the two keys are computed over different properties.
- Pipeline.Pipeline.ExecuteChat: the identity and tenant that authentication yields, HTTP statuses, retry hints and the text of a failing blocking observer are left out; headers are records in place of strings, and an error carries the plugin's own text or error in place of the sentence around it.
- Collect.CollectResponse: constant fields of the response (object, role, finish reason) are left out, and its usage is a record in place of a map.
- `retry_on`, `do_not_retry_on` and cost providers, which are configured but not used by the loops.
- The plugin and model registries: sets of names and a boolean; registering and starting plugins is not modelled.
- ObserverQueue.Queue: an array of fixed capacity stands for a Go slice that grows by `append`; the ticker's interval and the thirty-second limit on an observer are left out.
- Secrets: numbers, booleans and null are alike; the provider answers the same name alike each time, and the text of its error is not kept.
- UTF-8 and BOM bytes: text is a sequence of characters, and the reader ignores one leading byte order mark; the `retry` field and reconnection of the event-stream reader are left out.
- Process supervision, GitHub and file-system installation, configuration loading and error mapping: operating-system calls and map lookups that would add only easy members.
