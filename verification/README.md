# Grain agent runtime: verified model

A Dafny model of the parts of the Grain agent runtime that keep state: the agent loop with
its tool batches and queues, the transcript an `Agent` rebuilds from the loop's events and
the one a session mirrors, the session tree and its crash-recoverable JSONL log, and the
reducers that shorten a transcript under a token budget. Around them are the self-contained
algorithms the runtime relies on: civil dates, argument coercion, output truncation, result
pruning and tool naming.

A model stream is any finite sequence of stream events, a tool is a function of its inputs,
and everything else the outside world decides (cancellation polls, the schedule of a tool
batch, what hooks return, what setters do to the queues between two polls, where a crash
cuts a write) is an arbitrary value quantified over.

`dafny verify dfyconfig.toml` checks the project.

## Layout

| file | models |
|---|---|
| `Messages.dfy`, `TokenEstimates.dfy`, `Bytes.dfy` | transcript messages, call/result pairing, token sums, bytes |
| `Compaction.dfy`, `ContextGuard.dfy`, `OverflowRetry.dfy`, `Pruning.dfy` | the context reducers |
| `SessionTree.dfy`, `JsonlStore.dfy`, `CompactionResume.dfy` | the session tree, its log on disk, and compaction against resume |
| `AgentEvents.dfy` | the events of a run and a monitor for their grammar |
| `ToolBatch.dfy`, `ToolOutcomes.dfy`, `ToolSchedule.dfy` | tool batches: what they mean, what becomes of one call, and running them sequentially or concurrently |
| `MessageQueues.dfy`, `AgentState.dfy`, `SessionMirror.dfy` | steering and follow-up queues, the agent, its session listener |
| `Streaming.dfy`, `Turns.dfy`, `AgentLoop.dfy`, `AgentRuns.dfy` | one reply, which turns a run takes, the loop, whole runs from `prompt` and `continue_` |
| `SessionWrites.dfy`, `HarnessGate.dfy`, `AgentHarness.dfy` | settings changed during a run: the deferred writes, the gate in front of them over whole runs, and the gate around the agent |
| `CivilDate.dfy`, `Timestamps.dfy`, `SchemaCoercion.dfy`, `CoercedValues.dfy`, `Truncate.dfy`, `ToolNames.dfy` | the algorithms |

## Where the code does less than one might expect

Each of these is stated exactly, as an equivalence or with a concrete input:

- A stream with two `Start` events leaves stale partial replies in the loop's context; then,
  and as long as no hook replaces messages only then, the three copies of the transcript
  differ. It is also the only way to break the event grammar (`AgentRuns.PromptWithMirror`,
  `AgentRuns.ContinueWithMirror`). Only the streams of the turns the run ended count; their
  number is that of the run's `TurnEnd` events.
- `continue_` loses the messages it drained when another run is in flight by the time its own
  starts; a run that began and finished between its two locked sections loses nothing
  (`AgentRuns.Continue`).
- Writes land in another order than they were asked for exactly when one lands while an
  older one that still will is queued, in flight or past the gate
  (`SessionWrites.IncreasingIff`); with one flusher and no racing write-throughs, exactly
  when a write goes through while something is queued or in a flusher's hands
  (`SessionWrites.ThroughInOrderIff`, `SessionWrites.OlderWriteLandsLast`).
- The harness sets its gate before the agent can refuse. The gate stays set over an idle
  agent, with later settings queued and no flush to come, exactly when a `continue_` had
  nothing to continue from, or a caller arrived between a run's `AgentEnd` and its end, and
  nothing cleared the gate since (`HarnessGate.StuckIff`, `AgentHarness.Harness.Continue`,
  `AgentHarness.Harness.PromptBetweenEndAndFinish`). Any other refused caller leaves a gate
  that the run which turned it away clears.
- The gate can be open during a run, against agent_harness.rs:856-858: exactly when a
  compaction ended or an earlier run reported after it was last set
  (`HarnessGate.UngatedIff`, `HarnessGate.RunMayBeUngated`).
- A saved compaction resumes to the live transcript only under an exact count condition
  (`CompactionResume.CompactionExactIff`). Once two messages have been dropped a further
  compaction never meets it (`CompactionResume.LaterCompactionAlwaysDrifts`), so the rebuilt
  transcript is then not the compacted one that compaction.rs:629-634 wants to survive.
- A pinned message can still be summarized (`Compaction.PinsKeptIff`), although the comment
  at compaction.rs:298-300 says the summary never loses it; `MessageCountPolicy` can
  separate a call from its result (`Compaction.MessageCountCutMaySeparate`).
- The guard can return nothing (`ContextGuard.GuardedEmptyIff`), and overflow retry can go
  below `min_messages` (`OverflowRetry.FloorCrossedIff`).
- A bare `set_leaf_id` does not survive a reopen (`JsonlStore.LeafSurvivesReopenIff`),
  appending behind a torn line would fuse two lines (`JsonlStore.SurvivedFailureFusesLines`),
  and an append whose state file cannot be written reports an error although the entry is
  stored (`JsonlStore.JsonlSessionStorage.AppendEntry`).
- Coercing under a union takes a second round exactly when the coerced value is taken over by
  a member before the one that gave it (`SchemaCoercion.UnionSettlesIff`,
  `SchemaCoercion.UnionMayNotSettle`).
- A tail can be reported as truncated with every line kept (`Truncate.KeepsEveryLineIff`).

## Model

The main results come first; the rows after them, module by module, are the operations and
the steps they rest on.

| member | source | states |
|---|---|---|
| JsonlStore.OpenRecoversDurable | grain-agent-harness/src/session_jsonl.rs:142-264 | an open recovers every acknowledged append in order, beside them exactly the entries that reached the file whole although a crash or an error kept their append from being acknowledged, and the last one is the leaf |
| JsonlStore.InFlightSurvivesIff | grain-agent-harness/src/session_jsonl.rs:295-318 | the entry a crash interrupted is recovered exactly when its newline was written |
| JsonlStore.LeafSurvivesReopenIff | grain-agent-harness/src/session_jsonl.rs:255-264 | a moved leaf survives a reopen exactly when it is the last entry or there is none |
| JsonlStore.RunsAreRecoverable | grain-agent-harness/src/session_jsonl.rs:142-390 | over every run of opens, appends, leaf moves and crashes the file is an image of the durable entries with at most a torn line behind it |
| CompactionResume.ResumeLosesNothing | grain-agent-harness/src/compaction.rs:770-847 | at every point of every run the live tail is a suffix of the tail a resume rebuilds; before any compaction the two are equal |
| CompactionResume.CompactionExactIff | grain-agent-harness/src/compaction.rs:770-847 | a saved compaction resumes exactly when as many messages lie before the recorded entry as the live transcript stands for; otherwise the rebuilt one is longer by the difference |
| CompactionResume.FirstCompactionExactIff | grain-agent-harness/src/compaction.rs:826-847 | after the first compaction the rebuilt context equals the live one exactly when no empty branch summary precedes the kept entry, or, with nothing kept, the leaf carries no message |
| CompactionResume.LaterCompactionAlwaysDrifts | grain-agent-harness/src/compaction.rs:836-847 | with two messages dropped before it, a further compaction always rebuilds more than is live |
| ToolSchedule.EveryScheduleAgrees | grain-agent-core/src/agent_loop.rs:996-1048 | every schedule that completes gives the same results in source order; each call's events are one start, its accepted updates in some order, one end; nothing is left pending |
| ToolSchedule.LatchAcceptsWhatIsHeard | grain-agent-core/src/agent_loop.rs:1160-1219 | the latch accepts exactly the updates that arrive before the tool returns, in order |
| ToolSchedule.ExecuteParallel | grain-agent-core/src/agent_loop.rs:942-1048 | under any schedule the batch is the determined one and its events add exactly its results to the turn |
| ToolSchedule.ExecuteSequential | grain-agent-core/src/agent_loop.rs:874-940 | call by call, the batch is the determined one too |
| ToolOutcomes.RefusedNeverRuns | grain-agent-core/src/agent_loop.rs:1069-1143 | whatever executing a tool or the after hook would do, the result of a call that is not found, not valid, blocked or cancelled is the same, and an error |
| ToolOutcomes.RunsOnItsArguments | grain-agent-core/src/agent_loop.rs:1238-1308 | a call that may run is executed by the first tool of its name, on the before hook's arguments or else its own; what the after hook gives replaces, field by field, what the tool gave, and a hook that fails replaces it all |
| ToolOutcomes.BatchReports | grain-agent-core/src/agent_loop.rs:1320-1345 | results carry their call's own id and name; a batch ends the run exactly when every call it answered says so, which no refused call can |
| ToolBatch.BatchUnique | grain-agent-core/src/agent_loop.rs:874-1048 | calls, tools and cancellation determine results and terminate flag, so sequential and concurrent execution agree |
| ToolBatch.BatchAnswersPrefix | grain-agent-core/src/agent_loop.rs:931-933 | results answer a non-empty source-order prefix of the calls, all of them without cancellation |
| AgentRuns.PromptWithMirror | grain-agent-core/src/agent.rs:589-618 | after a run the session is the transcript before it with the new messages; the run takes the turns its queues lead to, its turn ends carrying their replies, and, unless a hook replaced messages, the loop's context equals the session exactly when no stream of those turns started twice, which is also exactly when the event grammar holds |
| AgentRuns.ContinueWithMirror | grain-agent-harness/src/agent_harness.rs:855-861 | the same agreement for `continue_`, over the turns its run ended, whatever happens between its locked sections; after a refused loop transcript and session both gain the one synthetic failure |
| AgentRuns.Continue | grain-agent-core/src/agent.rs:546-585 | whatever happens between the locked sections, drained messages head the run that starts, and are lost exactly when another run is in flight by then |
| AgentLoop.RunLoop | grain-agent-core/src/agent_loop.rs:355-569 | a run takes exactly the turns its queues, replies and batches lead to, adds exactly their messages, ends with an `AgentEnd` of its own messages, leaves the queues as the polls leave them, and, unless a hook really replaced messages, the context longer than the transcript by exactly the partials those turns left |
| Turns.WhenItStops | grain-agent-core/src/agent_loop.rs:370-558 | a turn is followed by another exactly when it left results to go back with or a message was delivered; the last one failed, was stopped, or left no results with the steering queue polled empty and the follow-up queue empty |
| Turns.RunDetermined | grain-agent-core/src/agent_loop.rs:355-569 | queues, provider and tools determine how many turns a run has, what each makes of its calls, and the context and queues it leaves |
| AgentLoop.RunTurn | grain-agent-core/src/agent_loop.rs:374-546 | a turn records what was pending, the reply and its results in that order and ends with that reply; it ends the run exactly when the reply failed or a hook stops it; otherwise it is sent back for its calls as the batch decides, and the steering queue is polled once |
| AgentEvents.AcceptedTurnEnds | grain-agent-core/src/agent_loop.rs:478-485 | at every `TurnEnd` no message is open, no call executes, and the results answer the turn's own reply |
| AgentEvents.AcceptedReportsWhatEnded | grain-agent-core/src/agent_loop.rs:561-567 | a run in the grammar ends in an `AgentEnd` with exactly the messages it ended |
| MessageQueues.DeliveredInOrder | grain-agent-core/src/agent.rs:47-59 | deliveries come in the order of enqueueing |
| SessionTree.ForkKeepsBranch | grain-agent-harness/src/session.rs:933-992 | a fork at an entry has that entry's branch as its log, its leaf's branch and its context |
| SessionTree.SettingsAreLastGiven | grain-agent-harness/src/session.rs:578-610 | thinking level, model and active tools of the built context are exactly what the last entry that sets each carries, a reply setting the model too, and the defaults when none does |
| SessionTree.WhatAnEntryAdds | grain-agent-harness/src/session.rs:614-646 | a message is read back as it is, a custom message under its type, a branch summary that says something as the summary of the branch it left, and nothing else |
| SessionTree.AppendExtendsContext | grain-agent-harness/src/session.rs:614-679 | any entry but a compaction adds exactly its own message to the built context |
| SessionTree.SublogKeepsWellFormed | grain-agent-harness/src/session_jsonl.rs:219-233 | skipping any lines of a log keeps that, so a damaged log has no cycle |
| SessionTree.InMemorySessionStorage.AppendEntry | grain-agent-harness/src/session.rs:832-855 | a known id is refused without effect; otherwise log, leaf, index and labels move together and stay what replay gives |
| Compaction.SnapKeepsPairsTogether | grain-agent-harness/src/compaction.rs:136-177 | both halves of a snapped cut are paired, no pair crosses it, and no call waits at the end of the prefix |
| Compaction.CompactionRunBounded | grain-agent-harness/src/compaction.rs:346-352 | compacting again and again without new messages stops within the length of the transcript |
| Compaction.Evaluate | grain-agent-harness/src/compaction.rs:279-353 | a cut is proposed exactly when compaction is due and the budget cut folds at least two messages; it is that cut and a safe one |
| Compaction.ShouldCompactIff | grain-agent-harness/src/compaction.rs:219-241 | due never when off or the window is unknown; above a fixed number of tokens or a full window; above a percentage of the window; or when the reserve does not fit or less than 15% of the window is free |
| Compaction.PinsKeptIff | grain-agent-harness/src/compaction.rs:327-342 | pins survive the final snap exactly when a safe cut lies between the boundary and every pinned message behind it; for a pinned boundary, when the boundary itself is safe |
| ContextGuard.ApplyPolicy | grain-agent-harness/src/context_guard.rs:445-501 | unchanged when it fits; otherwise the least peeling the policy allows, then orphan removal |
| ContextGuard.PeelIsLongestFittingSuffix | grain-agent-harness/src/context_guard.rs:480-500 | `DropOldest` keeps the longest suffix whose estimate fits |
| ContextGuard.OnlyLeadingResultsRemoved | grain-agent-harness/src/context_guard.rs:503-537 | on a paired transcript removal takes exactly the leading run of results, and the rest is paired |
| ContextGuard.GuardIdempotent | grain-agent-harness/src/context_guard.rs:445-501 | guarding a guarded transcript changes nothing |
| ContextGuard.GuardedEmptyIff | grain-agent-harness/src/context_guard.rs:445-537 | for every policy, exactly when the result is empty: all results under `Identity`; always under `KeepRecent(0)`; otherwise when the last message is a result and no suffix starting with anything else fits |
| OverflowRetry.Stream | grain-agent-harness/src/retry_overflow.rs:138-217 | at most `max_retries + 1` calls; the answer is exactly the last call's; an overflow is passed on only when it may not be retried |
| OverflowRetry.RetryChainShrinks | grain-agent-harness/src/retry_overflow.rs:146-201 | every context sent is a suffix of the original, each strictly shorter than the one before |
| OverflowRetry.RetryChainKeepsPairing | grain-agent-harness/src/retry_overflow.rs:146-201 | no context sent holds an orphan if the original is paired |
| OverflowRetry.FloorCrossedIff | grain-agent-harness/src/retry_overflow.rs:165-200 | from any context above the floor a drop goes below it exactly when the head is a call and results to it reach down to the floor |
| SessionWrites.EveryRunConserves | grain-agent-harness/src/agent_harness.rs:1415-1433 | with any number of flushers and failures each deferred write is applied, in flight or queued exactly once |
| SessionWrites.EveryRunKeepsOrder | grain-agent-harness/src/agent_harness.rs:1415-1433 | with one flusher at a time they are applied in the order deferred, all of them once the queue is empty |
| SessionWrites.IncreasingIff | grain-agent-harness/src/agent_harness.rs:933-947 | over every run, with any number of flushers, racing write-throughs and failures, writes land in the order asked for exactly when none lands while an older one that still will is outstanding |
| SessionWrites.ThroughInOrderIff | grain-agent-harness/src/agent_harness.rs:933-947 | over every run with one flusher and write-throughs one at a time that leaves nothing behind, writes land in the order asked for exactly when each write-through found nothing queued and nothing in a flusher's hands |
| HarnessGate.StuckIff | grain-agent-harness/src/agent_harness.rs:776-861 | over every run of callers, compactions, runs and flushes, once all is quiet the gate is still set exactly when a caller set it that was turned away with nothing to continue from, or between a run's report and its end, and nothing cleared it since |
| HarnessGate.UngatedIff | grain-agent-harness/src/agent_harness.rs:855-861 | a run in flight has its gate open exactly when, after it was last set, a compaction ended or an earlier run reported |
| HarnessGate.QuietLeavesNothing | grain-agent-harness/src/agent_harness.rs:735-753 | with no write failing, once all is quiet and the gate is not stuck every deferred write has reached the session exactly once |
| AgentHarness.Harness.Continue | grain-agent-harness/src/agent_harness.rs:855-861 | the gate is left set over an idle agent exactly when none was active and the transcript is empty, or ends in a reply with both queues empty; a run that starts clears it and lands everything queued, in order |
| Timestamps.PrintedParsesBack | grain-agent-harness/src/session.rs:30-45 | parsing a printed timestamp gives back the instant to the millisecond whenever the year prints in four characters |
| CivilDate.DateToDaysAndBack | grain-agent-harness/src/session.rs:47-67 | every calendar date survives conversion to a day number and back |
| CivilDate.DaysToDateAndBack | grain-agent-harness/src/session.rs:719-727 | every day number gives a calendar date and survives the way back |
| CivilDate.DaysFollowCalendar | grain-agent-harness/src/session.rs:719-727 | day 0 is 1 January 1970 and the next date of the calendar, leap years included, is one day later |
| CoercedValues.ToBoolean | grain-agent-core/src/validation.rs:97-120 | exactly which values become true and which false; the others stay |
| CoercedValues.BooleanAndBack | grain-agent-core/src/validation.rs:61-150 | a boolean survives as text, as an integer and as a number |
| CoercedValues.NumberAndBackIff | grain-agent-core/src/validation.rs:48-150 | a number whose text parses back survives as text exactly when it is written the way a parsed number is: whole ones within 64 bits as integers |
| SchemaCoercion.CoerceTwice | grain-agent-core/src/validation.rs:228-273 | without unions and conjunctions coercing twice is coercing once, for every nested value |
| SchemaCoercion.UnionSettlesIff | grain-agent-core/src/validation.rs:213-225 | under a union of such members coercing twice is coercing once exactly when no earlier member than the one that gave the value is the first to accept the coerced value and would change it |
| SchemaCoercion.PrimitiveYieldsType | grain-agent-core/src/validation.rs:61-150 | a coercion that changes a value gives one of the target type, and a value of that type is left alone |
| SchemaCoercion.CoerceWithJsonSchema | grain-agent-core/src/validation.rs:228-273 | the step-by-step procedure terminates and computes the recursive coercion |
| Truncate.TruncateHead | grain-agent-harness/src/truncate.rs:59-135 | the most leading lines that fit both limits, with the counts and the limit that cut |
| Truncate.TruncateTail | grain-agent-harness/src/truncate.rs:138-219 | the most trailing lines that fit both limits, or the longest fitting suffix of the last line |
| Truncate.TruncateStrToBytesFromEnd | grain-agent-harness/src/truncate.rs:221-243 | the longest suffix on a character boundary within the limit |
| Truncate.KeepsEveryLineIff | grain-agent-harness/src/truncate.rs:138-161 | a tail is reported as truncated with every line kept exactly when only the final newline is over the limit |
| Pruning.PruneToolOutputs | grain-agent-harness/src/pruning.rs:79-172 | the array ends as every candidate replaced or as it was, and the outcome is the predicted count and saving or zero |
| Pruning.PruneTwice | grain-agent-harness/src/pruning.rs:135-138 | with such a template a second pass changes nothing |
| Pruning.PrunedKeepsPairing | grain-agent-harness/src/pruning.rs:158-169 | a paired transcript stays paired |
| ToolNames.NormalizeToolNames | grain-ai-agent-headless/src/tool_names.rs:83-108 | length and order kept, names pairwise distinct and safe |
| ToolNames.NormalizedFixedIff | grain-ai-agent-headless/src/tool_names.rs:83-108 | a list is left as it is exactly when its names are safe and distinct |
| ToolNames.SafeNameFixedIff | grain-ai-agent-headless/src/tool_names.rs:48-66 | a name is left alone exactly when it is safe, so the function is idempotent |
| Messages.SuffixKeepsPairing | grain-agent-harness/src/compaction.rs:136-177 | a suffix that does not start on a result keeps every result directly behind its call |
| Messages.DirectlyAnsweredIsOrphanFree | grain-agent-harness/src/context_guard.rs:503-537 | a transcript in the shape the loop writes has no orphan result |
| Messages.FirstCall | grain-agent-core/src/agent_loop.rs:430-437 | calls come in the order of the content that makes them |
| Messages.RolesAre | grain-agent-core/src/types.rs:569-619 | users, assistants and results are who the messages say, and the custom messages that say they are |
| TokenEstimates.Estimator.CostsSumToEstimate | grain-agent-harness/src/context_guard.rs:179-196 | the per-message costs with framing sum to what `estimate_messages` reports |
| TokenEstimates.Estimator.CostsOfSuffix | grain-agent-harness/src/context_guard.rs:179-196 | the running sum from position k is the estimate of the suffix from k |
| Compaction.SnapToSafeBoundary | grain-agent-harness/src/compaction.rs:147-177 | the cut is the least safe one at or after the requested cut, the end counting as safe |
| Compaction.SeparatesPairIff | grain-agent-harness/src/compaction.rs:147-177 | on a paired transcript a cut separates a call from a result exactly when its tail starts on a result |
| Compaction.SnapUnique | grain-agent-harness/src/compaction.rs:147-177 | the snapped cut is determined by its input |
| Compaction.SnapIdempotent | grain-agent-harness/src/compaction.rs:595-596 | snapping an already snapped cut again lands on it, so the second snap of `compact_transcript` changes nothing |
| Compaction.CompactTranscript | grain-agent-harness/src/compaction.rs:584-623 | a usable summary replaces the snapped prefix, the tail is kept; an unusable one changes nothing |
| Compaction.CompactedKeepsPairing | grain-agent-harness/src/compaction.rs:595-622 | the compacted transcript of a paired one is paired |
| Compaction.MessageCountCutMaySeparate | grain-agent-harness/src/compaction.rs:125-134 | a transcript on which the message-count cut falls between a call and its result |
| Compaction.BudgetCutUnique | grain-agent-harness/src/compaction.rs:307-344 | walk, pins and snap together determine one cut |
| Compaction.WalkStartIsShortestTail | grain-agent-harness/src/compaction.rs:311-325 | without pins the walk stops at the shortest tail with the requested recent tokens |
| Compaction.PinnedMessageMayBeSummarized | grain-agent-harness/src/compaction.rs:298-342 | a transcript on which a pinned message ends up in the prefix |
| Compaction.OverWindowAlwaysCompacts | grain-agent-harness/src/compaction.rs:215-243 | whatever the threshold settings, more tokens than the window holds always triggers |
| Compaction.PinBehindTheBoundaryMayBeSummarized | grain-agent-harness/src/compaction.rs:298-342 | a transcript whose boundary is not pinned and whose pinned message is summarized all the same |
| ContextGuard.RemoveOrphanToolResults | grain-agent-harness/src/context_guard.rs:512-537 | exactly the results with no earlier call of their id are removed, order kept |
| ContextGuard.WithoutOrphansIsOrphanFree | grain-agent-harness/src/context_guard.rs:503-537 | after one removal pass no orphan is left |
| ContextGuard.CallsSurvive | grain-agent-harness/src/context_guard.rs:512-537 | removal never drops a call |
| ContextGuard.PeelUnique | grain-agent-harness/src/context_guard.rs:445-501 | the number of dropped messages is determined |
| ContextGuard.Guard | grain-agent-harness/src/context_guard.rs:407-438 | without a known window nothing changes; otherwise the budget is what headroom and system prompt leave of it |
| ContextGuard.GuardedFitsWindow | grain-agent-harness/src/context_guard.rs:407-501 | the result fits the window with headroom and system prompt, or is at most one message |
| ContextGuard.KeepRecentKeepsSuffix | grain-agent-harness/src/context_guard.rs:468-489 | at most the requested number of recent messages is kept, and fewer only when one more would not fit |
| ContextGuard.GuardedFitsOrSingle | grain-agent-harness/src/context_guard.rs:445-501 | the result fits the budget or has at most one message |
| ContextGuard.GuardMayReturnNothing | grain-agent-harness/src/context_guard.rs:445-537 | a paired transcript the guard empties |
| OverflowRetry.DropOldestSafe | grain-agent-harness/src/retry_overflow.rs:225-276 | one message goes, or a call with exactly the results that directly follow and answer it |
| OverflowRetry.SafeDropKeepsPairing | grain-agent-harness/src/retry_overflow.rs:219-276 | a drop leaves a paired context paired |
| OverflowRetry.OverflowIff | grain-agent-harness/src/retry_overflow.rs:163-175 | a stream overflowed exactly when its last event is an error the detector takes for one |
| OverflowRetry.FloorMayBeCrossed | grain-agent-harness/src/retry_overflow.rs:165-200 | a context on which it does |
| Pruning.BuildToolNameMap | grain-agent-harness/src/pruning.rs:176-188 | each call id maps to the name of the last call that carries it |
| Pruning.PickCandidates | grain-agent-harness/src/pruning.rs:85-151 | the scan finds exactly the unprotected, unpruned, large results with enough results after them, and their total saving |
| Pruning.PrunedKeeps | grain-agent-harness/src/pruning.rs:158-169 | length, order and every non-candidate are kept; a candidate changes only in its content |
| Pruning.AllOrNothing | grain-agent-harness/src/pruning.rs:153-171 | nothing changes below the minimum; otherwise the reported saving is the predicted one and meets it |
| Pruning.PlaceholderIsMarked | grain-agent-harness/src/pruning.rs:161-163 | a template that starts with the marker gives placeholders that do |
| Pruning.FillReplaces | grain-agent-harness/src/pruning.rs:156-160 | the placeholder is the template with each place for the tokens filled and nothing else changed |
| Pruning.AlreadyPrunedIff | grain-agent-harness/src/pruning.rs:192-201 | only a result that is one text starting with the marker counts as pruned |
| SessionTree.IsUserMessageIff | grain-agent-harness/src/session.rs:933-992 | which entries a branch can be taken up before: those with a user message, or a custom one that says it is |
| SessionTree.IndexAndLabels | grain-agent-harness/src/session.rs:758-788 | replaying a log builds the index of last positions and the labels last given |
| SessionTree.ReplayStep | grain-agent-harness/src/session.rs:832-855 | one incremental update of index and labels is one more replayed entry |
| SessionTree.LabelIsLastGiven | grain-agent-harness/src/session.rs:842-853 | the last label entry for a target decides: it gives the label its text, or removes it |
| SessionTree.AppendKeepsWellFormed | grain-agent-harness/src/session.rs:379-393 | under fresh ids no entry names itself or a later entry as its parent |
| SessionTree.PathIsChain | grain-agent-harness/src/session.rs:813-830 | the walk to the root gives a parent-linked chain of logged entries that stops where no parent is logged |
| SessionTree.GetPathToRoot | grain-agent-harness/src/session.rs:813-830 | the loop through the index ends and gives the branch |
| SessionTree.AppendExtendsBranch | grain-agent-harness/src/session.rs:379-393 | an entry appended under the leaf extends the branch by itself |
| SessionTree.AppendKeepsPath | grain-agent-harness/src/session.rs:813-830 | no append changes the branch of an older entry |
| SessionTree.InMemorySessionStorage.WithEntries | grain-agent-harness/src/session.rs:758-788 | a store opened on a log has the replayed index and labels and the last entry as leaf |
| SessionTree.InMemorySessionStorage.GetEntry | grain-agent-harness/src/session.rs:804-807 | the index finds an entry exactly when the log has the id |
| SessionTree.Session.NextEntry | grain-agent-harness/src/session.rs:379-393 | a new entry hangs under the leaf, becomes the leaf, and the branch grows by it |
| SessionTree.Session.MoveTo | grain-agent-harness/src/session.rs:536-570 | an unknown target is refused without effect; a summary becomes an entry under the target |
| SessionTree.EntriesToFork | grain-agent-harness/src/session.rs:967-992 | a fork takes the whole log, or the branch at or before an entry, and refuses an unknown one |
| SessionTree.WholeForkKeepsBranchIff | grain-agent-harness/src/session.rs:933-992 | forking everything shows the source's branch exactly when the source's leaf is its last entry |
| SessionTree.BuildSessionContext | grain-agent-harness/src/session.rs:579-687 | the fold gives the summary, the kept messages and those after the compaction, and the settings last set |
| SessionTree.ScanBranch | grain-agent-harness/src/session.rs:579-612 | the first pass finds the last compaction and the last value of each setting |
| SessionTree.AppendKept | grain-agent-harness/src/session.rs:663-671 | before the compaction exactly the messages from the first kept entry on are taken |
| SessionTree.AppendExtendsSettings | grain-agent-harness/src/session.rs:579-612 | an entry changes only the setting it carries |
| SessionTree.SettingsUnique | grain-agent-harness/src/session.rs:578-610 | being last given determines the settings |
| SessionTree.CompactionIsReadAsSummary | grain-agent-harness/src/session.rs:648-672 | a compaction at the end of a branch is read as its summary and the messages from the entry it kept first |
| JsonlStore.RepairKeepsEntries | grain-agent-harness/src/session_jsonl.rs:142-217 | truncating to the last newline changes no recovered entry and leaves complete lines only |
| JsonlStore.AppendedEntryParses | grain-agent-harness/src/session_jsonl.rs:295-318 | an appended line adds exactly its entry to what the file parses to |
| JsonlStore.ReadEntries | grain-agent-harness/src/session_jsonl.rs:180-217 | reading line by line gives the entries of the lines that parse, in order |
| JsonlStore.JsonlSessionStorage.OpenOrInit | grain-agent-harness/src/session_jsonl.rs:72-277 | opening cuts exactly the torn tail, replays the rest and reconciles the leaf |
| JsonlStore.JsonlSessionStorage.AppendEntry | grain-agent-harness/src/session_jsonl.rs:365-390 | a known id is refused without effect; otherwise file and memory grow by the same entry, and an error is returned when the state file cannot be replaced |
| JsonlStore.JsonlSessionStorage.PathToRoot | grain-agent-harness/src/session_jsonl.rs:346-363 | the walk gives the branch |
| JsonlStore.ForkInto | grain-agent-harness/src/session_jsonl.rs:551-582 | the chosen entries are appended behind whatever the target holds, up to the first id it knows |
| JsonlStore.StepKeepsRecoverable | grain-agent-harness/src/session_jsonl.rs:142-390 | opens, appends, leaf moves and crashes at any byte keep the file an image of the durable entries with at most a torn line behind it |
| JsonlStore.Perform | grain-agent-harness/src/session_jsonl.rs:331-390 | appending and moving the leaf do to files and memory what the steps of a run say |
| JsonlStore.PerformOpen | grain-agent-harness/src/session_jsonl.rs:72-277 | and so does opening |
| JsonlStore.SurvivedFailureFusesLines | grain-agent-harness/src/session_jsonl.rs:295-318 | appending behind a fragment parses the fragment and the entry as one line |
| JsonlStore.JsonlSessionStorage.SetLeafId | grain-agent-harness/src/session_jsonl.rs:331-335 | memory moves its leaf in any case, the state file only when it can be replaced |
| JsonlStore.FreshForkHasNoClash | grain-agent-harness/src/session_jsonl.rs:551-582 | into a fresh session distinct entries are all copied |
| CompactionResume.ContributesIff | grain-agent-harness/src/compaction.rs:836-847 | an entry counts towards the cut exactly when it is read as something by itself, or is a branch summary |
| CompactionResume.FirstKeptIsFound | grain-agent-harness/src/compaction.rs:836-847 | the id saved with a compaction is the one at which the rebuilt tail starts |
| CompactionResume.RebuiltIsHeadAndTail | grain-agent-harness/src/session.rs:614-679 | the rebuilt context is the summary and the branch's messages from a boundary on |
| CompactionResume.StepKeepsGood | grain-agent-harness/src/compaction.rs:770-794 | messages, notes, compactions, resumes and leaf moves keep the live transcript behind the boundary a resume uses |
| CompactionResume.EveryBranchReplays | grain-agent-harness/src/session.rs:813-831 | at every point of every run the branch is one of a session: its entries hang under one another, and replaying it gives it back |
| ToolBatch.AddResultsInTurn | grain-agent-core/src/agent_loop.rs:905-934 | events of consecutive calls add their results to the turn one after the other |
| ToolOutcomes.PreparedIff | grain-agent-core/src/agent_loop.rs:1069-1143 | a call is prepared on these arguments exactly when the first tool of its name validates them, the hook lets them pass and nothing was cancelled |
| ToolOutcomes.BlockedIsRefused | grain-agent-core/src/agent_loop.rs:1119-1124 | a call the before hook blocks is refused and told the hook's reason, or that it was blocked |
| ToolOutcomes.RefusedIsTold | grain-agent-core/src/agent_loop.rs:1076-1140 | what the other refused calls are told |
| ToolOutcomes.RefusedInBatch | grain-agent-core/src/agent_loop.rs:874-1048 | exchanging what the tools do changes no result of a refused call in a batch |
| Turns.AnswerUnique | grain-agent-core/src/agent_loop.rs:440-476 | reply, tools and cancellation determine a turn's results and whether it goes back |
| ToolSchedule.SlotStepOk | grain-agent-core/src/agent_loop.rs:1160-1238 | no step of a call loses or repeats an accepted update, and a done call holds the result its inputs determine |
| ToolSchedule.StepKeepsSound | grain-agent-core/src/agent_loop.rs:996-1034 | every step enabled in a sound state keeps each call's events bracketed and only running calls pending |
| ToolSchedule.Preflight | grain-agent-core/src/agent_loop.rs:959-994 | calls are taken in source order up to the first poll that sees a cancellation |
| ToolSchedule.FailTruncated | grain-agent-core/src/agent_loop.rs:814-848 | every call of a cut-off reply is answered, in order, by an error that tells it so, and the run goes on |
| ToolSchedule.ExecuteToolCalls | grain-agent-core/src/agent_loop.rs:850-872 | either way of running a batch gives the determined one; when configured so or when any called tool asks for it no two calls ever execute at once, otherwise the results are reported once every call has ended |
| MessageQueues.PendingMessageQueue.Enqueue | grain-agent-core/src/agent.rs:38-40 | a message joins at the back |
| MessageQueues.PendingMessageQueue.Drain | grain-agent-core/src/agent.rs:47-59 | drains from the front, all or one; nothing only when empty; each enqueued message stays delivered, discarded or queued exactly once |
| MessageQueues.PendingMessageQueue.TakeAll | grain-agent-core/src/agent.rs:60-67 | clearing discards everything whatever the mode and delivers nothing |
| AgentState.Agent.ProcessEvent | grain-agent-core/src/agent.rs:848-877 | the transcript grows exactly by ended messages, pending calls follow tool events, streaming and error fields their own |
| AgentState.Agent.BeginRun | grain-agent-core/src/agent.rs:646-662 | refused without effect on the transcript while a run is active |
| AgentState.Agent.FinishRun | grain-agent-core/src/agent.rs:731-744 | the context becomes the transcript and the agent is idle with nothing pending |
| AgentState.Agent.EmitAll | grain-agent-core/src/agent.rs:825-841 | during a run the transcript stays where it began plus the messages ended so far |
| AgentState.Agent.Enact | grain-agent-core/src/agent.rs:375-445 | setters during a run conserve both queues and deliver nothing |
| AgentState.Agent.Reset | grain-agent-core/src/agent.rs:494-503 | transcript, runtime state and queues are cleared, the queues by discarding |
| SessionMirror.Mirror.OnEvent | grain-agent-harness/src/agent_harness.rs:704-723 | the built context grows by every ended message and nothing else |
| SessionMirror.MirrorEvents | grain-agent-harness/src/agent_harness.rs:704-723 | over any events it grows by exactly the messages the monitor saw end |
| Streaming.StreamAssistantResponse | grain-agent-core/src/agent_loop.rs:579-787 | the context gains the final reply behind the partials further starts left; the events make it the turn's reply unless the stream started twice |
| Streaming.StaleIff | grain-agent-core/src/agent_loop.rs:676-691 | partials are left behind exactly when the stream starts more than once before its end |
| Streaming.ReplyIs | grain-agent-core/src/agent_loop.rs:579-787 | the reply is that of the first terminal event; a refused request or a stream without one is a failure that names model and reason and makes no calls |
| AgentLoop.InjectPending | grain-agent-core/src/agent_loop.rs:381-401 | pending messages are emitted, recorded and added in order, and every copy stays in step |
| AgentLoop.TallyIff | grain-agent-core/src/agent_loop.rs:676-691 | no partial is left over the first turns of a script exactly when no stream of them started twice |
| AgentLoop.TallyReplies | grain-agent-core/src/agent_loop.rs:478-485 | the tally of n turns holds the n replies to their requests, so the turn ends of a run fix how many turns it had |
| AgentLoop.HarnessHookLeavesMessagesIff | grain-agent-harness/src/agent_harness.rs:669-697 | the hook the harness installs always returns a context, and leaves the messages alone exactly when the hook it wraps does |
| AgentRuns.RunPromptMessages | grain-agent-core/src/agent.rs:589-618 | refused while active; otherwise the run's trace is accepted exactly when no partial was left by the turns it ended, and each queue's deliveries are in the new messages in order |
| AgentRuns.RunContinuation | grain-agent-core/src/agent.rs:620-644 | a run that continues the transcript leaves what a prompted run leaves; with nothing to continue from, one failed reply is ended and recorded |
| AgentRuns.EmitFailure | grain-agent-core/src/agent.rs:671-729 | a refused loop still emits a start, an end, a turn end and an agent end for one synthetic failure |
| AgentRuns.EndsInAssistantIff | grain-agent-core/src/agent.rs:554-566 | a transcript ends in a reply when its last message is one, or a custom message that says it is |
| AgentRuns.Decide | grain-agent-core/src/agent.rs:554-579 | which of the four ways `continue_` goes, by the role of the last message, and what it drains |
| AgentRuns.AgreeIff | grain-agent-core/src/agent_loop.rs:676-786 | the counting behind it: without a replacing hook context and transcript are equal exactly when no partial was left |
| AgentRuns.InterfereAll | grain-agent-core/src/agent.rs:554-646 | setters, other runs begun or finished, and whole runs in between: whether one is in flight afterwards, and that no delivery is undone |
| AgentRuns.Resume | grain-agent-core/src/agent.rs:580-644 | from the second locked section on the run starts from the transcript as it then is, or is refused and takes nothing |
| SessionWrites.TwoFlushersReorder | grain-agent-harness/src/agent_harness.rs:1415-1433 | two flushers can apply them out of order |
| SessionWrites.OlderWriteLandsLast | grain-agent-harness/src/agent_harness.rs:744-747 | a run after which the older setting is the one the session keeps |
| SessionWrites.Harness.RecordSessionWrite | grain-agent-harness/src/agent_harness.rs:933-947 | queued during a run; otherwise applied at once with its outcome reported |
| SessionWrites.Harness.FlushPendingSessionWrites | grain-agent-harness/src/agent_harness.rs:1415-1433 | the queue is applied from its head up to the first failure, which stays at the head |
| SessionWrites.EveryRunNumbered | grain-agent-harness/src/agent_harness.rs:933-947 | in every reachable state each write asked for is in one place at most, past the gate, queued, in flight or applied |
| HarnessGate.SomeoneBehind | grain-agent-harness/src/agent_harness.rs:776-861 | behind a set gate there is always the caller that set it, a run that will still report, or a caller turned away |
| HarnessGate.RefusedContinueSticks | grain-agent-core/src/agent.rs:546-579 | a reachable state in which a refused `continue_` leaves a setting queued with no flush to come |
| HarnessGate.LateCallerSticks | grain-agent-core/src/agent.rs:731-744 | the same after a prompt between a run's `AgentEnd` and its end |
| HarnessGate.RunMayBeUngated | grain-agent-harness/src/agent_harness.rs:742-748 | a reachable state in which a run is in flight with its gate open |
| HarnessGate.TurnEndFlushes | grain-agent-harness/src/agent_harness.rs:735-753 | the end of a turn gets what is queued by then into the session, in order, while the run goes on behind its gate |
| HarnessGate.WritesReachable | grain-agent-harness/src/agent_harness.rs:735-753 | every run of the harness does to the writes what a run of flushers and write-throughs does |
| AgentHarness.Harness.Prompt | grain-agent-harness/src/agent_harness.rs:776-790 | refused exactly while a run is active, with the gate set and nothing written or dropped; otherwise the run clears the gate and, unless a write fails, lands everything queued in order |
| AgentHarness.Harness.PromptBetweenEndAndFinish | grain-agent-core/src/agent.rs:731-744 | a prompt between a run's `AgentEnd` and its end is refused, and its gate outlasts the run |
| AgentHarness.Harness.OnEvent | grain-agent-harness/src/agent_harness.rs:735-753 | `TurnEnd` and `AgentEnd` flush, `AgentEnd` clears the gate, and nothing queued is lost or reordered |
| AgentHarness.Harness.Listen | grain-agent-harness/src/agent_harness.rs:735-753 | a run's events leave the gate cleared and the queue in the session in order, unless a write fails |
| CivilDate.YearOfEraExact | grain-agent-harness/src/session.rs:56-61 | the year formula is exact on every day of an era |
| CivilDate.DatesFollowCalendar | grain-agent-harness/src/session.rs:47-67 | consecutive day numbers give consecutive dates |
| Timestamps.FieldsInRange | grain-agent-harness/src/session.rs:47-54 | month, day and time fields are in range and the time fields sum to the time of day |
| Timestamps.FieldsParseBack | grain-agent-harness/src/session.rs:689-717 | each printed field is read back from its fixed position |
| Timestamps.PrintedInForm | grain-agent-harness/src/session.rs:30-45 | a printed timestamp has the form of RFC 3339: digits, and the separators at their places |
| SchemaCoercion.ApplyObjectCoercion | grain-agent-core/src/validation.rs:163-190 | every declared field is coerced by its schema, every other by `additionalProperties`, each once |
| SchemaCoercion.ApplyArrayCoercion | grain-agent-core/src/validation.rs:193-209 | every item is coerced in place by the schema of its position |
| SchemaCoercion.UnionMayNotSettle | grain-agent-core/src/validation.rs:213-225 | a union under which a second round changes the value again |
| CoercedValues.ToText | grain-agent-core/src/validation.rs:121-141 | exactly which values become which text |
| CoercedValues.ToNothing | grain-agent-core/src/validation.rs:142-149 | exactly which values become null |
| CoercedValues.ToNumberIs | grain-agent-core/src/validation.rs:63-80 | null and booleans become zero and one, text the number it parses to, everything else stays |
| CoercedValues.ToInteger | grain-agent-core/src/validation.rs:81-96 | the same for integers: only whole text, saturating at 64 bits |
| CoercedValues.NullAndBack | grain-agent-core/src/validation.rs:61-150 | null survives as the zero of every primitive type |
| CoercedValues.SeveralTypes | grain-agent-core/src/validation.rs:245-260 | a value that has one of several types stays; otherwise the first type that changes it decides |
| Truncate.SplitJoins | grain-agent-harness/src/truncate.rs:62-63 | splitting into lines and joining them gives the content back |
| Truncate.CharBoundaryIff | grain-agent-harness/src/truncate.rs:221-243 | a character starts at every byte whose two highest bits are not 10 |
| Truncate.LongestUnique | grain-agent-harness/src/truncate.rs:59-219 | those lines are determined by content and limits |
| ToolNames.ProviderSafeToolName | grain-ai-agent-headless/src/tool_names.rs:48-66 | the collapsing loop terminates and gives the safe name |
| ToolNames.SafeNameIsSafe | grain-ai-agent-headless/src/tool_names.rs:48-66 | letters, digits and single inner underscores only, never empty |
| ToolNames.SafeNameKeeps | grain-ai-agent-headless/src/tool_names.rs:48-66 | the letters and digits are those of the raw name, in order; without any the name is "tool" |
| ToolNames.MakeUniqueToolName | grain-ai-agent-headless/src/tool_names.rs:68-81 | terminates with the base if free and otherwise the first free number from 2 |
| ToolNames.SuffixInjective | grain-ai-agent-headless/src/tool_names.rs:75-75 | different numbers give different names |

## Left out

- SessionMirror.Mirror.OnEvent: works on the current branch rather than on a `Session` object; `SessionTree.Session.NextEntry` shows that appending to a session appends to its branch. A failed append, which the listener only logs, is not modelled.
- SessionMirror.MirrorEvents: no append fails in the middle of a run, for the same reason.
- AgentRuns.PromptWithMirror: agreement is not claimed for a run in which a hook really replaced the messages, which is what compaction does.
- AgentRuns.ContinueWithMirror: agreement is claimed from the moment the run starts, given that agent and session agree then; a setter in between that replaces the transcript ends it.
- ToolBatch.BatchUnique: tools and hooks are functions of their inputs; a tool that answers differently when run beside another, or that reads the cancellation token it is handed, is outside the claim.
- AgentHarness.Harness.Continue: nothing happens between its locked sections; `HarnessGate.StuckIff` covers callers that interleave.
- JsonlStore.ForkInto: its appends are those whose state file is written; `JsonlStore.JsonlSessionStorage.AppendEntry` says what one that fails leaves.
- CivilDate.DaysToDateAndBack: unbounded integers; the 64-bit and 32-bit widths of the source, and the underflow it reaches on a day of zero in March, are not modelled.
- Timestamps.PrintedParsesBack: covers the years -999 to 9999; a wider year shifts the fixed positions the parser reads.
- SchemaCoercion.CoerceTwice: numbers are reals, so float rounding and the exact text of a float are left to the `parse` and `show` parameters, and validation to `valid`.
- Token arithmetic is on unbounded naturals; saturation is written out only where the source saturates, in the compaction thresholds.
- Timestamps, usage records and display details of messages, entries and tool results are dropped.
- JSON text, the tokenizer and schema compilation are parameters: a line codec without raw newlines that inverts itself, a token cost per message, a validity predicate.
- Locks, executors and real futures: one step per locked section or awaited emission.
- File locking, fsync and power loss: a crash is the death of the process, leaving any byte prefix of the write in flight.
- Summary text, working-set detection and pin heuristics: a summary is any text, a pin any boolean per message.
- Context transforms, signature projection and API keys, which change what is sent but no copy of the transcript.
- The harness's next-turn queue, events to its own listeners, skills, templates and resources.
- Repositories of sessions beyond fork: listing, deleting, metadata.
- Hook expressions, tool keyword selection, memory extraction, semantic compression, `escalation.rs`, `prefix_pin.rs`, `messages.rs`, the CLI, plugins and configuration: heuristics or plumbing that would only add easy members.
