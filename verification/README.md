# Verification model of the yaya kernel

This project models the parts of the yaya kernel whose correctness depends on the order of
events, and proves what they keep over every run. Each protocol is a machine of atomic
steps, one for each stretch of code between two `await`s; theorems quantify over every
sequence of enabled steps. Beside each machine stands a class with the source's own fields,
updated in place, one method per step, and each method is proved to take exactly that step.

| part | files |
|---|---|
| shared definitions | `Common` |
| streaming `<think>` filter | `Text`, `ThinkReference`, `ThinkFilter`, `ThinkTheorems`, `ThinkFinalText`, `ThinkOneSpan` |
| event bus | `Bus`, `BusSafety`, `BusTheorems`, `BusProgress`, `BusSubscribers`, `BusAccepts`, `BusClass` |
| agent loop, ReAct strategy, request tracker, turn tasks | `AgentLoop`, `TurnTranscript`, `ReactTheorems`, `RequestTracker`, `TurnTasks` |
| tape, queries, file store, forks, projections | `Tape`, `TapeStore`, `FileStore`, `ForkStore`, `Projections`, `ProjectionRows` |
| compaction and its manager | `Compaction`, `CompactionOverlap`, `CompactionSession`, `CompactionManager`, `CompactionRetries`, `CompactionManagerClass` |
| configuration: environment, flattening, store, provider bootstrap | `EnvConfig`, `EnvNames`, `Flatten`, `Writes`, `ConfigStore`, `StoreOverlap`, `Providers`, `ProviderBootstrap` |
| approval prompts | `Approval`, `ApprovalOutcomes`, `ApprovalClass` |
| session fanout, replay and sweeps | `SessionFanout`, `SessionFanoutTheorems`, `SessionSweeps`, `SessionProgress`, `SessionContextClass` |
| plugin records | `PluginLife` |

Verify everything with `dafny verify dfyconfig.toml`.

## What was found

Some promises of the code or its documentation do not hold on every input. For each the
code is modelled as it is, one lemma gives a run that breaks the promise, and where there is
an exact condition another lemma states it.

- The filter's flush of a short buffer (`plugin.py:614-619`) can cut an open tag in two and
  show reasoning. Cutting a text never matters exactly for the texts in which no `<` stands
  within five characters before an opening `<think>` (`EveryCutAgreesIffSafe`). That two `<`
  are always more than five apart is sufficient, not necessary (`SpreadOutIsSafe`). The final text
  is that of the regular expression, for every cut, exactly if moreover every span is closed
  (`EveryCutEndsAlikeIff`).
- A plugin whose own `plugin.error` handler fails is reported again by the bus and so keeps it
  busy without end: for every number there is a run of that many worker steps with no publish in
  it (`EndlessRun`). The workers come to rest by themselves, however their handlers end, exactly
  if the bus is closed, or nothing pending calls a plugin's handler, or no plugin listens for
  `plugin.error` (`RestsIff`).
- `after_last_anchor` stops at any anchor, so a `turn/provider` stamp or a rename written behind
  a message hides that message from every later summariser (`StampBeforeCompactionLoses`); so does
  a message written while one is awaited. `PartitionIffKept` says exactly when nothing is lost.
- Two compactions of one session at once summarise the same entries twice
  (`TwoAtOnceSummariseTwice`). `EachOnceIff` says, for any number of them under way, exactly when
  each entry is in one summary.
- The docstring of `after_last_anchor` says the result is empty on a tape without anchors; a file
  tape of one message answers with that message (`OneMessageIsTail`), and any without anchors
  with everything on it but the handoff marks (`NoAnchorIsAllTail`).
- A query that filters by kinds without anchors loses its cut (`KindFilterHidesAnchors`): it is
  right exactly if anchors pass the filter, or there is none, or nothing that passes stands before
  the last one (`KindFilterCutsRightIff`). On a fork the child is read without the query's
  filters, so "since the last anchor" is right exactly as long as the fork holds no anchor
  (`ForkReads`).
- A crash can leave a tape's last line without its newline (`CrashLeavesIt`), and the next append
  writes on that line: the new entry cannot be read although the cached id counts it, and a whole
  entry on that line is lost with it (`UnfinishedLineSwallows`). An append is right exactly if the
  file ends in a newline or is blank behind its last one (`AppendExactIff`), and the cache stays
  exact over a run exactly if every append found such a file (`CacheExactIff`).
- When the compaction manager evicts a record at its cap, the evicted run's callback removes the
  record of the run that followed it, and a third run starts beside the second
  (`EvictionUnguards`). The source documents only the second. An eviction by itself breaks nothing
  (`EvictionAlone`); sessions have one run at most, and none once given up, exactly if no run is
  started for a session whose evicted run has not called back yet, or that was given up
  (`SingleFlightIff`).
- Environment paths with a dot inside a part can share a flattened key (`DotsCollide`): every
  variable is found with its own value exactly if no two of them with different values share one
  (`EveryVariableFoundIff`). A path above another one is overwritten or overwrites
  (`AllKeptIffPrefixFree`).
- An `unset` that overlaps the first `set` of a key leaves the store's cache and database different
  (`OverlapDrifts`), and so does a `set` cancelled when its statement has run (`CancelledSetDrifts`).
  They agree on exactly the keys that have not slipped (`InStepIffNotSlipped`): by an `unset` that
  missed the key in the cache while a call before it was about to put it there, or by a call
  cancelled behind its statement without which the cache will not hold what the table does.
  Overlapping `set`s and calls cancelled in time are no danger (`OnlyTheseSlip`).
- `start` called while `stop` runs makes `stop` drop a request that came in between, with its
  future open and its answer thrown away (`RestartDuringStopLoses`). A request is lost so exactly
  if it was let in while `stop` ran and neither answered nor timed out before the end
  (`StopLosesIff`).
- A fanout that waits for a connection's lock sends to it although its replay has just failed
  (`LiveBehindAFailedReplay`); a failed connection has a live event exactly if a fanout stood at it
  when the replay's send failed and its own send succeeded (`LiveBehindAFailureIff`).
- A connection reaped during its replay is announced as attached after it was announced as detached
  (`AttachedAfterDetached`), exactly if the replay then ends well (`AttachedAfterDetachedIff`).
- A connection dropped during its replay whose next send then raises is announced as detached twice
  (`DetachedTwice`); `LifecycleExact` says exactly how often each connection is announced.
- An `attach` cancelled during its replay, or whose tape could not be read, leaves its connection
  registered and its lock free: it is sent live events without a `replay.done` before them
  (`CancelledAttachGoesLive`, `LiveWithoutDoneIff`) and is never announced.
- A heartbeat sent while a sweep is at work does not save a connection the sweep has listed
  (`HeartbeatTooLate`). A sweep drops a connection that has been heard of in time exactly if its
  heartbeat came between the sweep's beginning and the connection's own turn (`DropsAliveIffHeard`).
- An error burst while `remove` awaits `on_unload` unloads a plugin twice and announces it removed
  twice (`BurstDuringRemove`); `UnloadedOnceIffOrderly` says exactly when not.

## Model

| member | source | states |
|---|---|---|
| ThinkTheorems.EveryCutAgreesIffSafe | src/yaya/plugins/llm_openai/plugin.py:572-652 | For a text, all ways of cutting it into chunks show the one-pass reference's text if and only if the text is safe: no `<` outside a span within five characters before an opening tag |
| ThinkTheorems.ShownIsReference | src/yaya/plugins/llm_openai/plugin.py:572-652 | On a safe text every chunking, and on any text the single chunk, shows exactly the reference, ends inside a span exactly when the reference does and has stripped exactly when a span was closed |
| ThinkTheorems.NothingVisibleIsLost | src/yaya/plugins/llm_openai/plugin.py:572-652 | For every chunking of any text the reference's output is a subsequence of what is shown, the filter is inside only if the reference is, and it holds back at most seven characters, a proper prefix of the tag it waits for |
| ThinkTheorems.UnsafeTextLeaks | src/yaya/plugins/llm_openai/plugin.py:604-628 | Every unsafe text has a cut, given by a function, that shows strictly more characters that are no whitespace than the reference |
| ThinkTheorems.SpreadOutIsSafe | src/yaya/plugins/llm_openai/plugin.py:604-628 | Texts whose `<` are pairwise more than five apart are safe |
| ThinkReference.RegexIsReferenceWhenClosed | src/yaya/plugins/llm_openai/plugin.py:718-735 | The regular-expression deletion and the one-pass reference agree on texts whose spans are all closed |
| ThinkFinalText.EveryCutEndsAlikeIff | src/yaya/plugins/llm_openai/plugin.py:414 | For every text: the final text is `_strip_reasoning_tags` of the whole however the text is cut, if and only if the text is safe and no span is left open |
| ThinkFinalText.FinalTextIsStripIffClosed | src/yaya/plugins/llm_openai/plugin.py:414 | For any chunking of a safe text, and for any text in one chunk, the final text equals `_strip_reasoning_tags` of the whole if and only if no span is left open |
| ThinkFinalText.ShortFlushCounterexample | src/yaya/plugins/llm_openai/plugin.py:614-619 | `<a<think>x</think>` has a cut that shows more than the reference |
| ThinkOneSpan.OneSpanIsCutOut | src/yaya/plugins/llm_openai/plugin.py:526-652 | With the tags written out: however `p<think>b</think>r`, without another `<`, is cut, it shows `p` and `r`, ends outside and has stripped |
| ThinkOneSpan.OneSpanFinalText | src/yaya/plugins/llm_openai/plugin.py:414 | Its final text is `p` and `r` without the blanks, tabs and line ends around them |
| ThinkOneSpan.OpenSpanHides | src/yaya/plugins/llm_openai/plugin.py:572-652 | However `p<think>b` is cut it shows `p`, untrimmed, and ends inside |
| ThinkOneSpan.NoSpanIsKept | src/yaya/plugins/llm_openai/plugin.py:572-652 | A text without `<` is shown and returned as it is |
| ThinkOneSpan.SpaceIs | src/yaya/plugins/llm_openai/plugin.py:735 | The characters that count as white space, by code point |
| ThinkFilter.LoopWaits | src/yaya/plugins/llm_openai/plugin.py:572-584 | The feed loop ends, and leaves a buffer that is a proper prefix of the awaited tag |
| ThinkFilter.StreamThinkFilter.Feed | src/yaya/plugins/llm_openai/plugin.py:572-584 | The mutating filter's `feed` is the specification's step on its state |
| ThinkFilter.StreamThinkFilter.Flush | src/yaya/plugins/llm_openai/plugin.py:630-652 | Flushing shows the buffer outside a span, drops it inside one, and empties it |
| ThinkFilter.PartialClose | src/yaya/plugins/llm_openai/plugin.py:586-602 | The scan for a partial close tag keeps the longest suffix of the buffer that could begin one |
| ThinkFilter.Dispatch | src/yaya/plugins/llm_openai/plugin.py:400-414 | Deltas and final text of a whole stream, with trimming exactly when a span was stripped |
| BusTheorems.FifoExactlyOnce | src/yaya/kernel/bus.py:189-277 | In every reachable state each session's accepted publishes are delivered, then in progress, then queued, in publish order; none is delivered twice or unaccepted; each delivery called its snapshot of subscribers once each in order; exactly the delivered ones' futures are resolved |
| BusTheorems.Conserved | src/yaya/kernel/bus.py:189-277 | Every accepted envelope is exactly once among the delivered and the pending |
| BusTheorems.OneLiveWorkerPerSession | src/yaya/kernel/bus.py:231-277 | At most one worker per session is alive and it owns the registered queue, over idle release and recreation |
| BusTheorems.DeliveredToItsSnapshot | src/yaya/kernel/bus.py:253-271 | In every run each delivery called, in order, exactly those subscribed at the moment its envelope was taken off the queue, whoever came or left before or after |
| BusSubscribers.SubscribedIff | src/yaya/kernel/bus.py:145-185 | Over every run, from its actions alone: a subscriber is served for a kind if and only if the run's subscription of that number was made for that kind by that source and nobody removed it since; those of one kind are served in the order they subscribed, none twice |
| BusAccepts.AcceptsExactly | src/yaya/kernel/bus.py:189-344 | A publish on an open bus is accepted with the next number; a failing handler that is not the kernel's is reported as `plugin.error` on `kernel`; nothing else is accepted |
| BusAccepts.WaitsForItsOwn | src/yaya/kernel/bus.py:216-229 | A publisher outside the workers waits for the very envelope it published and goes on only when that is delivered |
| BusAccepts.NobodyIsKeptOut | src/yaya/kernel/bus.py:145-229 | Subscribing, unsubscribing, publishing and closing are possible at any time for anybody who is not waiting |
| BusAccepts.ClosedIff | src/yaya/kernel/bus.py:348-363 | Over every run the bus is closed if and only if somebody has begun to close it |
| BusAccepts.CloseWaits | src/yaya/kernel/bus.py:348-363 | A caller of `close` waits for exactly the workers alive, unless the bus is closed and drained |
| BusTheorems.SnapshotIsStable | src/yaya/kernel/bus.py:253-271 | No step of anybody, unsubscribing included, changes a delivery's targets before it is finished |
| BusTheorems.LiveWorkerCanStep | src/yaya/kernel/bus.py:244-277 | A live worker never blocks on an empty queue: no wake-up is lost |
| BusTheorems.DeadlockFree | src/yaya/kernel/bus.py:216-277 | In every reachable state each undelivered envelope's own worker can run on; each waiting publisher and each caller of `close` can go on or waits for such a worker |
| BusProgress.WorkerStepUsesWork | src/yaya/kernel/bus.py:244-287 | Every worker step but a reported failure lowers a bound on the steps left |
| BusProgress.ReportAddsWork | src/yaya/kernel/bus.py:288-344 | A reported failure trades its own weight for that of the whole delivery of its `plugin.error` |
| BusProgress.EndlessRun | src/yaya/kernel/bus.py:288-344 | From any state of an open bus in which a plugin listens for `plugin.error` and something pending calls a plugin, for every n a run of n worker steps with no publish |
| BusProgress.RestsIff | src/yaya/kernel/bus.py:244-344 | In every reachable state the number of steps the workers can take by themselves is bounded if and only if the bus is closed, or nothing pending calls a plugin's handler, or no plugin listens for `plugin.error` |
| BusTheorems.ClosedAcceptsNothing | src/yaya/kernel/bus.py:189-229 | After `close` no step accepts an envelope or creates a worker, and the bus stays closed |
| BusTheorems.CloseReturnsDrained | src/yaya/kernel/bus.py:348-363 | When `close` returns every accepted envelope is delivered and resolved and every worker gone |
| BusTheorems.CloseAgainIsHarmless | src/yaya/kernel/bus.py:348-363 | Closing a drained bus again changes nothing |
| BusTheorems.CloseDrains | src/yaya/kernel/bus.py:253-277 | Draining takes at most a bounded number of worker steps in any interleaving, and once none can step everything is delivered and everyone waiting can go on |
| BusSafety.StepKeepsInv | src/yaya/kernel/bus.py:145-363 | Every step of the bus keeps the order, ownership, history and close invariants together |
| BusClass.EventBus.Publish | src/yaya/kernel/bus.py:189-229 | The mutating `publish` takes the machine's step and awaits exactly when called outside every worker on an open bus |
| BusClass.EventBus.Finish | src/yaya/kernel/bus.py:253-277 | The end of a delivery resolves the future and releases the session exactly when its queue is empty |
| BusClass.EventBus.CloseBegin | src/yaya/kernel/bus.py:348-361 | `close` up to its await puts one token into every registered queue |
| ReactTheorems.ReactTurn | src/yaya/plugins/strategy_react/plugin.py:189-276 | In the closed loop, for any history, parser and answers: the first decision is `llm`; every tool call lies between two `llm`s; tool calls are at most half the budget; their ids are distinct; format nudges are at least two finished tool round trips apart; `done` publishes the last assistant message |
| ReactTheorems.TurnEndsOnce | src/yaya/kernel/loop.py:628-750 | With any strategy a turn that is not cancelled emits exactly one terminal event, takes at most as many decisions as it has iterations, stamps the provider at most once and only appends messages |
| TurnTranscript.TurnIs | src/yaya/kernel/loop.py:628-750 | From the answers alone, for any strategy: the messages behind the history are, pass by pass, what the strategy appended and the model's answer, or its last answer that was not empty in place of an empty one, or the tool's observation; every request carries its priming and all messages so far; the first answer's provider and model are stamped; the pass that ends the turn decides its one event, `done` publishing the last answer that was not empty |
| TurnTranscript.DecisionIs | src/yaya/plugins/strategy_react/plugin.py:189-276 | What is decided for a final answer, an action, an answer that does not parse, with and without a recent nudge, and anything that is no answer, with the nudge's text written out |
| TurnTranscript.DecimalIsValue | src/yaya/plugins/strategy_react/plugin.py:228-236 | Step numbers in tool call ids are decimal |
| TurnTranscript.HistoryIs | src/yaya/kernel/loop.py:579-626 | A turn starts from the projected history and the user's message, without a second copy of a trailing one |
| ReactTheorems.ToolIdInjective | src/yaya/plugins/strategy_react/plugin.py:189-256 | Tool call ids `rx-<step>` of different steps differ as text |
| ReactTheorems.ToolsAreHalf | src/yaya/kernel/loop.py:628-750 | In a log of that shape tool calls are at most half the decisions |
| AgentLoop.DecideByScan | src/yaya/plugins/strategy_react/plugin.py:189-256 | The forward scan for the last assistant message decides as the specification does |
| AgentLoop.RecentMarkerByScan | src/yaya/plugins/strategy_react/plugin.py:268-276 | The scan finds a retry marker exactly when one is among the recent messages |
| AgentLoop.TurnRunner.RunTurn | src/yaya/kernel/loop.py:628-655 | The mutating turn loop ends in the state the specification's run ends in |
| AgentLoop.TurnRunner.ApplyDecision | src/yaya/kernel/loop.py:657-750 | One decision changes messages, events and stamp as specified, and says whether the turn goes on |
| RequestTracker.Correlated | src/yaya/kernel/loop.py:327-392 | In every reachable state pending ids are the delta-session ids, a request that left is in neither, and a future is resolved only by an event with its own id |
| RequestTracker.CompletedOnce | src/yaya/kernel/loop.py:352-392 | A completed future is never completed again |
| RequestTracker.FateIs | src/yaya/kernel/loop.py:327-392 | Over every run, from its actions alone: a future is resolved if and only if the first thing that happened to its request was an event with its id, cancelled if it was given up while awaited or with all the others, open otherwise; a request can come back exactly if it was answered |
| RequestTracker.DeltaIsItsSession | src/yaya/kernel/loop.py:343-350 | A streamed delta goes to the session its request was issued for |
| RequestTracker.Tracker.Resolve | src/yaya/kernel/loop.py:352-378 | The mutating `resolve` takes the machine's step: both maps lose the id, an open future gets this answer |
| RequestTracker.Tracker.Discard | src/yaya/kernel/loop.py:380-383 | A request that gives up is in neither map; its future is cancelled only if the wait for it had begun |
| TurnTasks.OneTurnPerSession | src/yaya/kernel/loop.py:501-534 | A session has at most one turn that was not asked to stop |
| TurnTasks.WhoIsAsked | src/yaya/kernel/loop.py:480-541 | Over every run: who still runs behind an interrupt, a new message, an end, a callback and a stop |
| TurnTasks.WhoseEntry | src/yaya/kernel/loop.py:501-541 | A new message's task is the one its session's entry names, and the entry goes only by the callback of the very task it names or by a stop |
| TapeStore.ApplyQuery | src/yaya/kernel/session.py:416-457 | Kind filter, anchor cut and limit, in that order, against an independent definition of each |
| TapeStore.AfterLastIsLongestSuffix | src/yaya/kernel/session.py:416-457 | Without a kind filter "after last" is the longest suffix free of anchors, cut to its last entries |
| TapeStore.AfterNamedAnchor | src/yaya/kernel/session.py:416-457 | Asked for what follows a named anchor the store answers with what stands behind the last one of that name, or with nothing |
| TapeStore.KindFilterHidesAnchors | src/yaya/kernel/session.py:428-443 | With a kind filter that leaves anchors out, "after last" cuts nothing |
| TapeStore.KindFilterCutsRightIff | src/yaya/kernel/session.py:428-443 | Filtering by kinds first leaves "after last" right if and only if anchors pass the filter, or there is none, or nothing up to the last one passes |
| FileStore.AppendExactIff | src/yaya/kernel/session.py:335-344 | An append adds its entry with the next number, and leaves the cached id exact, if and only if the file ends in a newline or is blank behind its last one |
| FileStore.UnfinishedLineSwallows | src/yaya/kernel/session.py:335-344 | Behind an unfinished line the new entry cannot be read while the cache counts it, and a whole entry on that line is gone too |
| FileStore.CacheExactIff | src/yaya/kernel/session.py:321-344 | Over any appends, resets, reopens and crashes at any point of a line, the cached next id is always one more than the readable entries if and only if every append found a finished file |
| FileStore.IdsStayNumbered | src/yaya/kernel/session.py:321-344 | And then ids stay 1..n, crashes included |
| FileStore.CachedIdIsUsed | src/yaya/kernel/session.py:335-344 | Once cached the next id is the cache's, whatever the file holds |
| FileStore.ReopenCounts | src/yaya/kernel/session.py:335-344 | A store opened anew counts the readable entries anew |
| FileStore.ResetForgets | src/yaya/kernel/session.py:321-327 | A reset tape is empty and starts at 1, no other tape is touched |
| FileStore.FileTapeStore.Append | src/yaya/kernel/session.py:335-344 | The mutating append takes the machine's step; it keeps the cache exact exactly on a finished file, and there adds the entry with the next number, counted or cached |
| FileStore.FileTapeStore.Tail | src/yaya/kernel/session.py:346-373 | On any file, corrupt, blank and unfinished lines included, the streaming tail is the last n entries of a full load |
| FileStore.FileTapeStore.Load | src/yaya/kernel/session.py:375-392 | Loading keeps exactly the readable lines in order |
| ForkStore.ForkReads | src/yaya/kernel/session.py:250-268 | A fork read whole is parent then child; "since the last anchor" is right if and only if the child holds no anchor |
| Projections.CompactionCutsAlike | src/yaya/kernel/tape_context.py:79-99 | All three readings of `pre + [anchor] + post` are the summary (nothing for frames) followed by the reading of `post`, pending tool calls forgotten |
| Projections.HistoriesAgree | src/yaya/kernel/loop.py:248-290 | On plain messages and anchors the model's context equals the loop's history |
| Projections.TranscriptIsHistory | src/yaya/plugins/web/api.py:388-424 | Without tool traffic the transcript's frames are the loop's history frame by frame |
| Projections.SelectMessages | src/yaya/kernel/tape_context.py:60-99 | The loop that restarts at compaction anchors computes the definition by the last anchor |
| Projections.ProjectEntries | src/yaya/kernel/loop.py:248-290 | The same for the loop's history |
| Projections.FramesFromEntries | src/yaya/plugins/web/api.py:388-424 | The same for the transcript |
| Projections.ResultsMeetCalls | src/yaya/kernel/tape_context.py:180-226 | One assistant row with all calls, then one tool row for each result, each with the id and name of the call of its own position |
| ProjectionRows.EventRow | src/yaya/kernel/tape_context.py:228-234 | An event marked for the context is a system row with its name and data, any other shows nothing |
| ProjectionRows.PendingIs | src/yaya/kernel/tape_context.py:60-96 | Which calls wait for results at the end of a tape |
| ProjectionRows.SummaryIs | src/yaya/kernel/tape_context.py:115-139 | The row of a summary, with its heading |
| ProjectionRows.MessageFrames | src/yaya/plugins/web/api.py:323-348 | The frame of a message, observations and other roles left out |
| ProjectionRows.CallFrames | src/yaya/plugins/web/api.py:351-362 | One start frame for each call, field by field |
| ProjectionRows.ResultFrames | src/yaya/plugins/web/api.py:365-391 | One result frame for each result, field by field, `ok` unless it says otherwise |
| Compaction.PartitionIffKept | src/yaya/kernel/compaction.py:268-315 | Over every interleaving of writers, foreign anchors and compactions one at a time, the summarised windows, the one cut off under way and the tail are exactly the ordinary entries in order if and only if every anchor was written when all of the tail had been handed to the running summariser and no cut-off window failed |
| CompactionOverlap.EachOnceIff | src/yaya/kernel/compaction.py:268-315 | Over every interleaving with any number of compactions under way at once: at every moment each ordinary entry is in exactly one window, summarised or cut off under way, or in the tail, if and only if every anchor was written when all of the tail had been handed to one compaction and no other, and no cut-off window failed |
| CompactionOverlap.TwoAtOnceSummariseTwice | src/yaya/kernel/compaction.py:268-315 | Two compactions of the same tail write two summaries of the same entry |
| Compaction.WindowsPartitionTheTape | src/yaya/kernel/compaction.py:268-315 | With compactions as single steps and no other anchor behind ordinary entries, windows and tail always partition the tape |
| Compaction.NoAnchorIsAllTail | src/yaya/kernel/tape_context.py:143-168 | Without anchors the tail is everything but the handoff marks |
| Compaction.TailNext | src/yaya/kernel/tape_context.py:143-173 | Entry by entry, with the condition written out: an anchor starts the tail anew, a handoff mark adds nothing, everything else is added at its end, events of any other name included |
| Compaction.TailHolds | src/yaya/kernel/tape_context.py:143-173 | The tail holds exactly the entries behind the last anchor that are no events by the name `handoff` |
| Compaction.HandoffIs | src/yaya/kernel/session.py:528-585 | A handoff writes the anchor and its mark, field by field |
| Compaction.DueIff | src/yaya/kernel/compaction.py:148-207 | A compaction is due if and only if there is a threshold and the texts have at least four characters for each of its tokens |
| Compaction.OneMessageIsTail | src/yaya/kernel/tape_context.py:143-168 | A tape of one message and no anchor has that message as its tail, against the docstring |
| Compaction.TapeOnlyGrows | src/yaya/kernel/session.py:528-585 | The old tape is a prefix of every later one |
| Compaction.FreshlyCompacted | src/yaya/kernel/compaction.py:293-315 | Right behind a compaction model and loop see the summary alone, the transcript nothing, a second compaction is a no-op and no threshold triggers one |
| Compaction.OverThresholdUntilAnchor | src/yaya/kernel/compaction.py:148-207 | Once over the threshold the estimate stays over it whatever ordinary entries follow; only an anchor brings it down |
| Compaction.StampBeforeCompactionLoses | src/yaya/kernel/tape_context.py:143-168 | A message, a provider stamp, a message and a compaction: the first message was summarised by nobody and is shown to nobody |
| CompactionSession.Session.AfterLastAnchor | src/yaya/kernel/tape_context.py:143-173 | The query plus the filter for handoff marks give the tail of the specification |
| CompactionSession.Session.CompactUntilAwait | src/yaya/kernel/compaction.py:268-282 | Up to the summariser: the window is the tail, an empty one ends the run |
| CompactionSession.Session.CompactAfterAwait | src/yaya/kernel/compaction.py:283-315 | Behind it, whatever was written and whoever compacted meanwhile: the anchor with the summary and an empty tail, or the error and an unchanged tape |
| CompactionManager.SingleFlightIff | src/yaya/kernel/compaction.py:421-540 | Over every run, handlers taken apart at their awaits: a session has one run at most at any moment, and none any more once it was given up, if and only if no run is started for a session whose run was evicted and has not called back, or that was given up |
| CompactionManager.GivenUpOnce | src/yaya/kernel/compaction.py:483-540 | And then a run given up has called the summariser three times, and its session is published as failed once for good |
| CompactionManager.AtMostThreeTries | src/yaya/kernel/compaction.py:483-540 | In any run whatever a run calls the summariser at most three times |
| CompactionRetries.ThreeFailuresGiveUp | src/yaya/kernel/compaction.py:469-522 | A run whose summariser keeps failing is tried three times, then over, published and disabled |
| CompactionRetries.FailedIff | src/yaya/kernel/compaction.py:483-522 | Over every run a session is published as failed if and only if a run of it gave up |
| CompactionRetries.DisabledAreTheLatest | src/yaya/kernel/compaction.py:524-540 | Over every run that keeps the guard the sessions disabled are the last ones given up, as many as the cap allows |
| CompactionRetries.StartEvicts | src/yaya/kernel/compaction.py:443-467 | What a start adds, and at the cap evicts, with the attempts of the session evicted |
| CompactionRetries.NotDue | src/yaya/kernel/compaction.py:429-433 | A handler whose tape is not due leaves the tables as they were |
| CompactionRetries.SpentAttempts | src/yaya/kernel/compaction.py:478-482 | A run that finds three attempts left behind is over without a call |
| CompactionManager.EvictionUnguards | src/yaya/kernel/compaction.py:443-467 | With a record evicted, the evicted run's callback lets a third run start beside the second |
| CompactionManager.EvictionAlone | src/yaya/kernel/compaction.py:443-467 | The eviction of a run still alive, its session not triggered again, keeps the guard |
| CompactionManagerClass.Manager.OnEventUntilAwait | src/yaya/kernel/compaction.py:421-428 | The handler goes on exactly for a session not the kernel's, not disabled and not tracked |
| CompactionManagerClass.Manager.OnEventAfterAwait | src/yaya/kernel/compaction.py:429-467 | Behind its awaits it starts a run exactly if the tail was read and is over a positive threshold, the guards not looked at again |
| EnvConfig.InsertLookup | src/yaya/kernel/config.py:113-123 | One assignment shows at its own path, hides every path above and below, and changes no other |
| EnvConfig.TouchIs | src/yaya/kernel/config.py:113-118 | A variable that names a namespace alone makes sure it is there and changes nothing else |
| EnvConfig.NestedIsLastWriter | src/yaya/kernel/config.py:99-124 | Nesting any list of variables keeps exactly what the last writer of each path left |
| EnvConfig.AllKeptIffPrefixFree | src/yaya/kernel/config.py:99-124 | With distinct paths every value survives if and only if no path lies above another |
| EnvNames.NestedEnvExtras | src/yaya/kernel/config.py:99-124 | The pass over the environment computes the nesting of its assignments |
| EnvNames.NameRoundTrip | src/yaya/kernel/config.py:105-123 | The variable named after a path of plain parts parses back to that path |
| EnvNames.IgnoredIff | src/yaya/kernel/config.py:99-112 | A variable is left to other sources if and only if its prefix, delimiter or undeclared namespace is missing |
| EnvNames.PartsAre | src/yaya/kernel/config.py:113-118 | Empty parts are skipped, the others count in order and in lower case |
| Flatten.DictIsLeaves | src/yaya/kernel/config.py:346-354 | Flattening writes the leaves in order, each under its dotted path |
| Flatten.EveryVariableFoundIff | src/yaya/kernel/config.py:332-354 | For distinct, prefix-free paths, every variable is found under its dotted path with its own value if and only if no two with different values share a dotted path |
| Flatten.ViewIsWhatWasSet | src/yaya/kernel/config_store.py:173-205 | Then nesting, flattening and reading through `plugin.<ns>.` give a value under `r` exactly if some variable's dotted path is that prefix and `r`, and give that variable's value |
| Flatten.ViewIsNamespace | src/yaya/kernel/config_store.py:173-205 | Without dots inside a part that is exactly the namespace's own path-to-value map |
| Flatten.OrderDoesNotMatter | src/yaya/kernel/config.py:332-354 | ... whatever the order of the variables |
| Flatten.VariableReachesPlugin | src/yaya/kernel/config.py:99-124 | Setting `YAYA_<NS>__<A>__<B>` is what the plugin reads at `a.b` |
| Flatten.DotsCollide | src/yaya/kernel/config.py:346-354 | Two paths, one with a dot inside a part, share a key and one value is gone |
| ConfigStore.MigrationRestarts | src/yaya/kernel/config_store.py:387-434 | However often the migration is killed, at any row, the run that gets through leaves the table of one undisturbed run, marker time aside |
| ConfigStore.MigratedOnce | src/yaya/kernel/config_store.py:403-404 | Once the marker is there no configuration changes a row |
| ConfigStore.MigratedRow | src/yaya/kernel/config_store.py:403-434 | Row by row: a migration leaves the last plain value the configuration gives a key, else what was there, and the marker |
| ConfigStore.CorruptRowIsText | src/yaya/kernel/config_store.py:273-281 | A row that does not decode reads as its own text |
| ConfigStore.FreshInstallView | src/yaya/kernel/config_store.py:304-319 | A plugin's view of a freshly migrated store is its view of the flattened configuration |
| ConfigStore.HintDecidesPrefixes | src/yaya/kernel/config_store.py:450-468 | A dotted prefix is one of the key if and only if it is one of the hint on its update event |
| StoreOverlap.InStepIffNotSlipped | src/yaya/kernel/config_store.py:330-374 | With `set` and `unset` taken apart at their database await, over every run, however calls overlap and wherever they are cancelled: table and cache agree on exactly the keys that have not slipped, by an `unset` whose statement deletes a row it had not seen and a call before it is about to cache, or by a call cancelled behind its statement; any other statement on the key puts it right |
| StoreOverlap.OnlyTheseSlip | src/yaya/kernel/config_store.py:330-374 | Without such an `unset` and such a cancellation, overlapping `set`s and cancellations in time included, cache and table agree as a whole |
| StoreOverlap.OverlapDrifts | src/yaya/kernel/config_store.py:363-370 | An `unset` inside the first `set` of a key leaves the key in the cache and not in the database |
| StoreOverlap.CancelledSetDrifts | src/yaya/kernel/config_store.py:350-352 | A `set` cancelled behind its statement leaves a row and no cached value |
| StoreOverlap.UnsetKnows | src/yaya/kernel/config_store.py:363-374 | What an `unset` goes on with: whether the cache held the key when it was called and the table when its statement ran |
| StoreOverlap.CancelledInTime | src/yaya/kernel/config_store.py:442-448 | A call cancelled before its statement leaves no trace |
| StoreOverlap.OverlappedStore.SetUntilAwait | src/yaya/kernel/config_store.py:345-350 | `set` up to its await: the statement is handed over, table and cache untouched |
| StoreOverlap.OverlappedStore.UnsetUntilAwait | src/yaya/kernel/config_store.py:362-371 | `unset` up to its await: the statement is handed over, and the call remembers whether it saw the key in the cache |
| StoreOverlap.OverlappedStore.WorkerRuns | src/yaya/kernel/config_store.py:442-448 | The database worker runs the next statement |
| StoreOverlap.OverlappedStore.AfterAwait | src/yaya/kernel/config_store.py:350-374 | The oldest suspended call goes on with its half on the cache, and announces the key exactly if it had something to change |
| StoreOverlap.OverlappedStore.Cancelled | src/yaya/kernel/config_store.py:442-448 | A call cancelled at its await: in time its statement is taken back, later only its half on the cache is lost |
| ConfigStore.Store.Set | src/yaya/kernel/config_store.py:330-352 | Error cases in order, else table, cache and event changed together and the cache still the decoded table |
| ConfigStore.Store.Unset | src/yaya/kernel/config_store.py:354-374 | The key leaves table and cache, the event is published exactly if there was something to remove |
| ConfigStore.Store.MigrateFromKernelConfig | src/yaya/kernel/config_store.py:387-434 | The loop writes the migration's rows, marker last, and keeps the cache the decoded table |
| Providers.BootstrapRestarts | src/yaya/kernel/registry.py:556-618 | However many boots die while seeding, the one that gets through leaves the store of one undisturbed boot, marker time aside, and no later boot changes it |
| ProviderBootstrap.BootstrapProvidersNamespace | src/yaya/kernel/registry.py:556-618 | The loop that reads the store anew for every provider computes the writes specified on the store it started from |
| ProviderBootstrap.InstancesMirrorLegacy | src/yaya/kernel/registry.py:589-615 | Afterwards every provider's instance reads the plugin's legacy rows, else its identity, else what it held; and an active provider is set |
| Providers.SeededIs | src/yaya/kernel/registry.py:574-618 | The marker is left by a boot with providers and by no other, and keeps later boots from seeding |
| Providers.PrefixesAre | src/yaya/kernel/registry.py:589-603 | Legacy rows stand under the name with its dashes as underscores, the instance's under the name itself |
| Approval.AllowlistIsExact | src/yaya/kernel/approval.py:320-408 | Over every run a key is listed for a session exactly when a request for it came back with `approve_for_session`, and a pending id has been answered by nobody |
| Approval.OutcomeIsFinal | src/yaya/kernel/approval.py:379-408 | A request's outcome never changes |
| Approval.EveryRequestEnds | src/yaya/kernel/approval.py:365-408 | From any state a request can be run to its outcome by its own deadline |
| Approval.AnsweredByItsOwn | src/yaya/kernel/approval.py:410-460 | A request that asked comes back with a response only if an answer for its own id said just that, or, for `reject`, said something no handler understands |
| ApprovalOutcomes.OutcomeIs | src/yaya/kernel/approval.py:365-460 | Over every run, from its actions alone: a timeout if and only if the deadline came, whatever was answered; a shutdown only if `stop` settled it; a response only as above |
| ApprovalOutcomes.FirstAnswerWins | src/yaya/kernel/approval.py:379-460 | The first answer to an open request is what it comes back with, `reject` for nonsense, unless its deadline comes first, and nothing keeps it from coming back |
| ApprovalOutcomes.RefusedUnlessStarted | src/yaya/kernel/approval.py:338-345 | Unless the last of `start` and `stop` was a `start`, a request is refused without a trace and `stop` does nothing |
| ApprovalOutcomes.SettledComesBack | src/yaya/kernel/approval.py:310-318 | An open request `stop` settles comes back as cancelled by the shutdown, unless its deadline comes first |
| ApprovalOutcomes.StopWithdrawsEach | src/yaya/kernel/approval.py:287-318 | `stop` publishes one withdrawal for each id it found, in order, each before it settles that one; it can always go on, and the next one can begin behind it |
| Approval.ListedRequestsAreSilent | src/yaya/kernel/approval.py:346-377 | Exactly one prompt per request that had to ask, no event at all for one listed at entry or refused |
| Approval.SilentIffGranted | src/yaya/kernel/approval.py:346-361 | In every reachable state a request is answered on the spot, by `approve_for_session` and without an event, if and only if an earlier request for its key came back with `approve_for_session` |
| Approval.StopLosesIff | src/yaya/kernel/approval.py:287-318 | Over every run of `stop`: when it returns nothing is pending, everyone it found is resolved, and a request is left with its future open if and only if it was let in during it and neither answered nor timed out before the end, or had been left so by an earlier `stop` and has not timed out since |
| Approval.StopLeavesNobody | src/yaya/kernel/approval.py:287-318 | With no `start` during it, `stop` leaves nobody behind whom no earlier one has left |
| Approval.RestartDuringStopLoses | src/yaya/kernel/approval.py:287-318 | A `start` during it leaves a request unresolved whose answer is thrown away |
| ApprovalClass.ApprovalRuntime.OnApprovalResponse | src/yaya/kernel/approval.py:410-460 | The handler takes the machine's step and leaves the id not pending |
| ApprovalClass.ApprovalRuntime.WakeUp | src/yaya/kernel/approval.py:379-408 | Behind the await: the outcome, and the allowlist extended exactly for `approve_for_session` |
| SessionFanoutTheorems.ReplayThenLive | src/yaya/kernel/session_context.py:257-331 | Over every run the registry stays within its cap and a connection was sent the missed entries in order, `replay.done`, then live events in order, none twice and none in between; a failed replay a prefix and at most one live event, one cut off by cancellation a prefix and then live events |
| SessionFanoutTheorems.LiveWithoutDoneIff | src/yaya/kernel/session_context.py:484-570 | Over every run a connection that asked for a replay has a live event and no `replay.done` if and only if its attach was cut off or a send of its replay raised, and a fanout's send to it succeeded |
| SessionFanoutTheorems.NoLiveEventIsLostIff | src/yaya/kernel/session_context.py:378-417 | Over every run a registered connection has been sent every event fanned out since it came in, each once and in order, if and only if no fanout was cut off with the connection still before it; it misses exactly one event for each that was |
| SessionFanoutTheorems.AboveIsLater | src/yaya/kernel/session_context.py:502-503 | The replayed entries are exactly those with a greater id, in tape order |
| SessionProgress.MissedIs | src/yaya/kernel/session_context.py:502-503 | Over every run, from its actions alone: the tape holds an entry for each written, and a replay missed exactly those of the entries there when it read that are behind the one named |
| SessionProgress.FirstComeFirstServed | src/yaya/kernel/session_context.py:378-400 | Over every run a fanout serves those registered in the order they came in |
| SessionFanoutTheorems.LifecycleExact | src/yaya/kernel/session_context.py:299-359 | Over every run a connection is announced once exactly if its replay ended well or it had none; it is taken leave of once if it is off the registry, and once more exactly if a send of its replay raised when it was off it already |
| SessionFanoutTheorems.DetachedTwice | src/yaya/kernel/session_context.py:529-537 | The run that shows the second `detached` |
| SessionFanoutTheorems.AttachedAfterDetachedIff | src/yaya/kernel/session_context.py:299-359 | Over every run a connection's `detached` stands before its `attached` if and only if it was dropped while its replay was under way and the replay then ended well |
| SessionFanoutTheorems.LiveBehindAFailureIff | src/yaya/kernel/session_context.py:396-417 | Over every run a connection whose replay failed has a live event if and only if a fanout stood at it when the replay's send failed, and the fanout's send succeeded |
| SessionFanoutTheorems.LiveBehindAFailedReplay | src/yaya/kernel/session_context.py:396-417 | The run from the start that shows it |
| SessionFanoutTheorems.CancelledAttachGoesLive | src/yaya/kernel/session_context.py:502-512 | A cancelled attach leaves its connection registered, and a fanout sends to it behind a bare prefix of the replay |
| SessionFanoutTheorems.AttachedAfterDetached | src/yaya/kernel/session_context.py:299-331 | A connection reaped during its replay is announced after it was taken leave of |
| SessionSweeps.SweepDrops | src/yaya/kernel/session_context.py:475-482 | Over every run a sweep lists exactly the connections silent since before its deadline, and when it is through all of them are off the registry |
| SessionSweeps.DropsAliveIffHeard | src/yaya/kernel/session_context.py:361-376 | Over every run a sweep drops a connection that has been heard of in time if and only if its heartbeat came after the sweep had begun and before its own turn |
| SessionSweeps.HeartbeatTooLate | src/yaya/kernel/session_context.py:475-482 | The run that shows it |
| SessionSweeps.CloseEmptiesTheRegistry | src/yaya/kernel/session_context.py:419-445 | Over every run, when `close` has gone through the list it took itself the registry is empty, and stays so |
| SessionProgress.ClosedIff | src/yaya/kernel/session_context.py:257-445 | Over every run the context is closed if and only if somebody closed it; then nobody is let in, no fanout and no sweep begins, and closing again changes nothing |
| SessionProgress.SweepAndCloseEnd | src/yaya/kernel/session_context.py:441-482 | A sweep and `close` end behind one drop for each connection listed |
| SessionProgress.FanGoesOn | src/yaya/kernel/session_context.py:378-417 | Every step of a fanout brings it nearer its end, and one is possible unless it waits for the lock of a replay |
| SessionContextClass.SessionContext.Attach | src/yaya/kernel/session_context.py:257-331 | Refused when closed or at the cap, in that order, else registered |
| SessionContextClass.SessionContext.Heartbeat | src/yaya/kernel/session_context.py:361-376 | A known connection's last sign of life is now; an unknown one changes nothing |
| SessionContextClass.SessionContext.ReapUntilAwait | src/yaya/kernel/session_context.py:475-480 | A sweep lists exactly the connections silent since before the deadline, and none on a closed context |
| SessionContextClass.SessionContext.ReapOne | src/yaya/kernel/session_context.py:481-482 | One detach of the sweep, the connection not looked at again |
| SessionContextClass.SessionContext.CloseUntilAwait | src/yaya/kernel/session_context.py:419-440 | `close` up to the end of the sweeper: closed, the sweep cut off |
| SessionContextClass.SessionContext.CloseOver | src/yaya/kernel/session_context.py:441-445 | Behind its last detach the registry is empty |
| SessionContextClass.SessionContext.AttachAborted | src/yaya/kernel/session_context.py:502-512 | A cancelled attach or an unreadable tape changes nothing but the connection's phase: it stays registered |
| SessionContextClass.SessionContext.ReplaySend | src/yaya/kernel/session_context.py:505-570 | One send of the replay: next entry, `replay.done`, or off the registry and announced as detached, registered or not |
| PluginLife.ThresholdSpawnsOnce | src/yaya/kernel/registry.py:778-827 | Over any interleaving a loaded plugin has fewer errors in a row than the threshold and the threshold path unloads it at most once |
| PluginLife.CounterIsStreak | src/yaya/kernel/registry.py:684-687 | A loaded plugin's counter is the number of failures since its last success |
| PluginLife.LoadedIffNeverReached | src/yaya/kernel/registry.py:778-827 | Left to itself a plugin stays loaded if and only if its failures in a row never reach the threshold |
| PluginLife.RemovedIsCounted | src/yaya/kernel/registry.py:829-876 | `plugin.removed` is published once for each unload by the threshold path and by `remove`, never by `stop` |
| PluginLife.UnloadedOnceIffOrderly | src/yaya/kernel/registry.py:829-876 | `on_unload` runs at most once if and only if no unload begins while an orderly one awaits it; then the status ladder holds and `plugin.removed` is published at most once |
| PluginLife.AtomicIsOrderly | src/yaya/kernel/registry.py:483-525 | With `stop` and `remove` as single steps that is so for every run |
| PluginLife.BurstDuringRemove | src/yaya/kernel/registry.py:483-525 | An error burst while `remove` awaits `on_unload` gives two `plugin.removed` and a status that leaves `unloaded` |
| PluginLife.PluginRegistry.OnPluginError | src/yaya/kernel/registry.py:778-827 | The handler changes the record as specified and spawns exactly on the breach |

## Left out

- asyncio, sqlite, files, JSON text, clocks, uuids and hashing: atomic steps, sequences and maps, an injective row constructor, deadlines that may fire at any time and ids taken to be fresh stand for them.
- Handlers that themselves raise `CancelledError` (`bus.py:283-284`) kill their worker; the bus model's handlers return or fail.
- Calling `close` of the bus from inside a worker, which would wait for itself.
- BusClass.EventBus: has no method for a publisher's wake-up, which changes nothing but the publisher.
- ReactTheorems.TurnEndsOnce: cancellation is taken at the turn's round trips to other plugins only.
- `tool.error` is not correlated with a turn by the loop; such a turn ends by its step timeout, which is an answer like any other here.
- The regular expressions and JSON of `_parse_assistant` are an arbitrary total function into final, action or error.
- `_render_result`'s fallback for results `json.dumps` refuses, and the rendering of tool results for the model: the renderings are parameters.
- `_merge_tool_call_chunk`, provider clients, usage accounting and every other part of the provider plugin but the filter.
- Cancellation of an approval requester: `request` has no cleanup for it, and it is kept out of the exactly-one-outcome results.
- Approval: one `stop` at a time; a second one started from a restart during the first is not modelled.
- Fingerprint collisions of approval parameters: a key carries the fingerprint, not the parameters.
- Whether replay and live fanout together miss or repeat an event: that depends on the order of subscriptions with the tape's writer and is not decided by the session context.
- SessionFanoutTheorems.ReplayThenLive: fanouts of one session come one after another, as the bus delivers them; concurrent direct calls of `fanout` are not modelled.
- SessionSweeps.SweepDrops: one sweep at a time, as the sweeper's loop runs them; `close` cuts it off at its await.
- EnvNames.NestedEnvExtras: walks on values instead of aliased nested dictionaries, and lower-cases ASCII letters only; what TOML and declared settings add is not modelled.
- Flatten: the declared kernel settings are an arbitrary base without plugin keys.
- ConfigStore.Store.Set: table and cache change in one step; `StoreOverlap` takes the two halves apart.
- ConfigStore.Store.Unset: the same.
- ConfigStore.Store.ListPrefix: the sorted order of `list_prefix` is not modelled.
- CompactionManager.SingleFlightIff: `stop` of the manager is not modelled, and the backoff has no length.
- FileStore: a line cut inside a character of several bytes, which the reader would refuse to decode, is not modelled.
- ForkStore: the ids the third-party in-memory store gives to child entries are not part of this model.
- Projections: the summary message's text is modelled, what a provider does with it is not.
- The rest of the repository: the MCP client, the CLI, HTTP routes, the web UI, logging, the updater, scripts and the tool plugins are I/O, glue or easy arithmetic.
