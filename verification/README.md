# Telepace: a verified model of its deterministic core

Telepace runs interviews and an agent for researchers. Language models, respondents, payment gateways and human approvers
answer as they like; around them stands deterministic code that has to behave whatever they answer. This project models that
code and proves what it guarantees. Every outside answer is an arbitrary value: a script, a parameter, or a function about
which nothing is assumed.

`dafny verify dfyconfig.toml` checks everything. One module per component:

| module | component |
|---|---|
| `AgentLog`, `RoundTrip` | the durable log of an agent run, its replay after a restart, and when the replay is exact |
| `ChatLoop`, `Translate` | the tool-calling loop, its confirmation gate, failure limit, compaction and delegation; the provider's message format |
| `RunProtocol`, `ChatProtocol` | driver, log, confirmations, crashes and restarts as one transition system; the loop as a run of it |
| `RunStore` | the run store and the event stream a browser follows |
| `EventLog`, `Projection`, `ReadModels`, `InsightSets` | the event log, the appliers of the read models, and what their interleavings leave behind |
| `Interview`, `InterviewRun`, `Evidence`, `Worker` | the interview moderator, whole interviews, the evidence read model, the analysis worker's transcripts |
| `Pii`, `Harness`, `Overlap` | the redaction scan; the command pipeline with policies, log and memory scopes; replies that overlap inside it |
| `Scores`, `Release` | the arithmetic and the decision of the release gate |
| `Billing` | usage metering and overage |
| `Vad` | the streaming voice-activity detector |
| `Wrappers` | values that may be absent |

Code that works by mutation is a class or a method with loops, proved against a function or a predicate on values; the lemmas
are about those.

## What was found

Where a promise of the code's documentation or tests does not hold in full, the exact condition is proved, with a witness.

- The restart's uncertainty check goes by ids. Call by call it is right at every crash point of a turn if and only if no call
  that passed the gate has the id of an earlier call of the turn; its flag - resume or refuse - if and only if the last such
  call has not; and of the logs it accepts, exactly those have an outcome for every call in which no id is called again before
  its previous call was settled (`RunProtocol.CheckIsRightPerCallIff`, `FlagIsRightIff`, `CertainLogIsSettledIffSerial`).
- Replaying a log gives back the live conversation if and only if no call was denied and every tool turn after the first
  carried text (`RoundTrip.LoopRoundTripIff`).
- Four-message compaction keeps tool calls and results together if and only if the first retained message is not a result
  message. Fresh runs always satisfy this; a resumed run with a memory message need not
  (`ChatLoop.CompactionKeepsPairingIff`, `Translate.ResumedCompactionSplitsPair`).
- "Disabled after three consecutive failures" holds for handler tools, exactly (`ChatLoop.DisabledIffThreeInARow`), and for
  none of the built-in ones: those run whenever the store or permission they need is there, however often they have failed
  (`ChatLoop.BuiltinsAreNeverDisabled`, `ChatLoop.FailedBuiltinRunsAgain`).
- The `last_event_seq` guard absorbs re-applications but never repairs a gap: a row is the fold of its stream if and only if
  nothing was ever jumped over. The tail loop can jump, by reaching a `SpecUpdated` before the request that drafted the study
  has inserted its row (`ReadModels.ProgressIsFoldIffGapFree`, `ReadModels.UpdateBeforeTheRowIsLost`).
- The insight table is not safe under every interleaving. It is exactly when every applier's window, run alone, rebuilds the
  current set or adds nothing foreign to it (`InsightSets.EveryInterleavingConverges`, `OtherwiseSomeInterleavingFails`). A
  synchronisation that read the stream before a new batch and writes after it leaves the old set; and of two analyses that
  append event by event, the later one's set stands if and only if the earlier one had finished when it began
  (`InsightSets.LaterBatchStandsIff`).
- The coverage a stopped interview reports is the average over the items it touched, not over the guide; it is 1 exactly when
  the respondent did not stop (`InterviewRun.FullIffFinished`).
- Replies to different interviews never disturb each other, however they overlap inside the harness. Two replies to the same
  interview do: their turns are numbered consecutively if and only if no reply reads the interview's memory between another
  one's read and write. Otherwise both number their turns alike and one update of the history is lost
  (`Overlap.TurnsAreConsecutiveIff`, `Overlap.OverlapLosesAnUpdate`).
- `SHIP` does not imply that the mean reaches the floor: the mean is rounded to hundredths before it is compared, so it may
  miss the floor by half a hundredth and no more (`Scores.RoundReachesFloorIff`, `Release.ShipsJustBelowFloor`).
- Metered overage is exact if and only if no completion of the organisation was in flight when its quota was crossed. Each one
  that was is reported on top of what is owed. With `k` in flight at most that is `k - 1`, and for every `k` up to the quota
  and one more this is attained (`Billing.MeteringIsExactIff`, `ReportsExactly`, `NeverFarOver`, `BoundIsAttained`).
- An unmarked usage record may have been reported: exactly when the gateway accepted the report and marking it failed
  (`Billing.ReportedAndMarkedIff`).
- The voice detector's "once per detected end" holds if and only if no chunk completes two ends. Chunks of at most a hangover
  and one frame never do; for every hangover, one frame more can (`Vad.ReportsAreEndsIff`, `ShortChunkNeverMerges`,
  `LongerChunkMerges`).

## Model

| member | source | states |
|---|---|---|
| AgentLog.RebuildConversation | interfaces/rest_api/routers/agent.py:160-219 | the replay loop with its pending set and flush helpers returns the folded conversation and the uncertainty flag |
| AgentLog.UncertainIffOpenCall | interfaces/rest_api/routers/agent.py:190-219 | for every log: the flag is set exactly when some logged call has no later outcome of its id |
| AgentLog.RebuildConserves | interfaces/rest_api/routers/agent.py:160-219 | for every log: the rebuilt conversation holds every logged call and every logged outcome once, in log order, and nothing else |
| AgentLog.RebuiltShows | interfaces/rest_api/routers/agent.py:190-217 | for every log: the n-th result of the rebuilt conversation is the n-th logged outcome, its first 4000 characters or all there are, an error exactly if it was one; the n-th tool use is the n-th logged call with its name and arguments |
| AgentLog.ResumedModelSeesEveryOutcome | interfaces/rest_api/routers/agent.py:222-247 | a run that is resumed shows the model an outcome for every call it ever logged |
| RoundTrip.RoundTripIff | interfaces/rest_api/routers/agent.py:160-219 | replaying what tool turns logged gives their conversation (results in logged, truncated form) if and only if no call was denied and each turn after the first has text |
| RoundTrip.LoopRoundTripIff | agents/orchestrator/main.py:299-499 | the same for the loop itself, at any turn boundary of a fresh run without compaction or memories |
| RoundTrip.TextlessTurnBreaksReplay | interfaces/rest_api/routers/agent.py:188-198 | two turns, the second without text, are rebuilt differently from how they were lived |
| ChatLoop.Chat | agents/orchestrator/main.py:267-569 | the loop, for any script of model replies, approvals and handler outcomes: its events, the conversations it sends, and how it ends (answer, model error, synthesis, exhausted budget) |
| ChatLoop.AnnounceCalls | agents/orchestrator/main.py:387-423 | gate of a turn: confirmation request and result for gated calls, a `tool_call` for exactly the allowed ones, all before any execution |
| ChatLoop.GatherOutcomes | agents/orchestrator/main.py:428-444 | every allowed call runs against the failure counts of the turn's start; a refused one yields its error without running |
| ChatLoop.ReportCalls | agents/orchestrator/main.py:445-499 | outcomes are reported in call order; a failure counts up, a success resets |
| ChatLoop.InvokedIff | agents/orchestrator/main.py:571-607 | a handler runs exactly when its gate lets it through, it exists, and its tool stands below three consecutive failures |
| ChatLoop.CountIsFailureRun | agents/orchestrator/main.py:445-466 | in every run a tool's count before a turn is the number of failures it has reported since its last success, in whatever turns |
| ChatLoop.DisabledIffThreeInARow | agents/orchestrator/main.py:591-599 | a call that passes its gate and has a handler is refused as disabled if and only if the tool's last three reported outcomes were failures; otherwise the handler runs and its outcome is reported |
| ChatLoop.OutwardRunsIff | agents/orchestrator/main.py:387-444 | starting a campaign, dispatching invites and pushing insights: such a call runs exactly when a human could be asked and approved it, it has a handler, and its tool's last three outcomes were not all failures |
| ChatLoop.ErrorSaysHowOften | agents/orchestrator/main.py:447-455 | a `tool_error` carries the number of failures in a row that it makes, its own turn's included |
| ChatLoop.DisabledForGood | agents/orchestrator/main.py:591-599 | a handler tool at three failures at a turn boundary stays there and is never run again in that driver run |
| ChatLoop.BuiltinsAreNeverDisabled | agents/orchestrator/main.py:578-590 | in every turn of every run a call to a built-in runs exactly when the store or permission it needs is there, whatever has failed before |
| ChatLoop.FailedBuiltinRunsAgain | agents/orchestrator/main.py:578-599 | after any number of failures in a row the next call to a built-in runs |
| ChatLoop.CompactionKeepsPairingIff | agents/orchestrator/main.py:765-808 | compaction keeps the pairing if and only if the first of the four retained messages is no result message |
| ChatLoop.FreshRunSendsPaired | agents/orchestrator/main.py:299-499 | every conversation a fresh run sends has each tool-use message at once followed by results with the same ids in the same order, through any compactions |
| ChatLoop.EveryTurnIsShown | agents/orchestrator/main.py:300-499 | whatever is compacted, the next request after a turn holds its text, each of its calls, and in the same place each rendered result or error |
| ChatLoop.PlanIsShownIff | agents/orchestrator/main.py:315-325 | a request repeats the plan if and only if some earlier call of the run has updated it successfully |
| ChatLoop.Delegate | agents/orchestrator/main.py:848-915 | delegation succeeds only for allow-listed tools, and the tools it reports are exactly those its subagent announced, in order; none is gated |
| ChatLoop.SubagentRunsAllowListed | agents/orchestrator/main.py:855-897 | what a subagent runs was asked for, exists and is on the allow list; of the built-ins, only its own plan and the reading of artifacts |
| ChatLoop.SubagentNeverAnnouncesGated | agents/orchestrator/main.py:848-915 | a subagent's events contain no gated call |
| ChatLoop.SubagentNeverRunsGated | agents/orchestrator/main.py:848-915 | a subagent never runs a gated handler, whatever its model asks for |
| Translate.TranslateMessages | agents/shared/llm.py:300-363 | the translation loop produces the provider messages of each message in order |
| Translate.TranslationKeepsPairing | agents/shared/llm.py:300-363 | a paired conversation becomes one in which every group of tool calls is at once answered by tool messages with the same ids in order |
| Translate.FreshRunRequestsArePaired | agents/shared/llm.py:300-363 | every request of a fresh run is answered call by call, end to end |
| Translate.EveryTurnReachesTheProvider | agents/shared/llm.py:300-363 | end to end: that request, as translated, holds the turn's text, every call with name and arguments and, call by call, every outcome |
| Translate.ResumedCompactionSplitsPair | agents/orchestrator/main.py:765-808 | a resumed run with a memory message compacts to an orphaned result |
| RunProtocol.StepKeepsInv | interfaces/rest_api/routers/agent.py:89-124 | every step - model turn, gate, append, execute, report, crash, resume, refusal, human decision - keeps the protocol invariant |
| RunProtocol.AtMostOnce | agents/orchestrator/main.py:387-444 | in every reachable state, through any crashes and restarts: each executed call has its `tool_call` in the log and no logged call is executed twice |
| RunProtocol.RelaunchOnlyWhenSettled | interfaces/rest_api/routers/agent.py:222-247 | a run is relaunched only when every logged call has its own outcome, and the rebuilt conversation shows it |
| RunProtocol.UnsettledRunIsNeverRelaunched | interfaces/rest_api/routers/agent.py:222-245 | once a dead run has an executed call without an outcome of its own, it is never resumed, executes nothing more and stays that way, for ever |
| RunProtocol.GatedCallsWereApproved | agents/orchestrator/main.py:387-423 | an executed gated call stands right behind the approving decision of a confirmation for its tool and arguments, and no two calls share one |
| RunProtocol.DecisionsAreFinal | storage/agent_runs.py:668-692 | over any run a confirmation leaves pending at most once and never changes again, and the log only grows |
| RunProtocol.CrashInTheWindow | interfaces/rest_api/routers/agent.py:106-124 | a crash between execution and report is reachable, and leaves a run whose restart is refused |
| RunProtocol.CertainLogIsSettledIffSerial | interfaces/rest_api/routers/agent.py:190-219 | of the logs the check accepts, all calls have an outcome of their own exactly in those that call no id again before its previous call was settled |
| RunProtocol.CheckIsRightPerCallIff | interfaces/rest_api/routers/agent.py:190-219 | call by call, the check is right at every crash point of a turn - refused calls included - if and only if no call that passed the gate has the id of an earlier call of the turn |
| RunProtocol.AllPassed | interfaces/rest_api/routers/agent.py:190-219 | for a turn without refused calls that is: its ids are pairwise distinct |
| RunProtocol.FlagIsRightIff | interfaces/rest_api/routers/agent.py:190-219 | behind a log the check accepts, the flag is right at every crash point of a turn if and only if the last call that passed the gate has an id that no earlier call of the turn has |
| RunProtocol.DuplicateIdsHideAnOutcome | interfaces/rest_api/routers/agent.py:190-219 | the smallest log in which a repeated id hides a call without outcome |
| ChatProtocol.ChatIsARun | agents/orchestrator/main.py:267-569 | the events of the whole loop, for any script with distinct ids and new confirmations, are the log of a run of the protocol, ended as the loop ended |
| ChatProtocol.TurnsAreAPath | agents/orchestrator/main.py:299-499 | the same for any number of its tool turns |
| RunStore.Store.Append | storage/agent_runs.py:553-564 | numbers an event one past the log's length; an unknown run is an error that changes nothing |
| RunStore.Store.ReadEvents | storage/agent_runs.py:585-586 | filtering by number returns exactly the block behind the cursor |
| RunStore.Store.ResolveConfirmation | storage/agent_runs.py:668-692 | decides a pending confirmation of the caller's organisation, returns a decided one unchanged, and nothing to another organisation |
| RunStore.LogIsWhatWasAppended | storage/agent_runs.py:553-564 | after any history of calls a run's log is exactly what was appended to it since its creation, numbered 1..n |
| RunStore.RunningIffNeverEnded | storage/agent_runs.py:566-589 | a run's status is that of its last accepted ending; one that was never ended is still listed as running |
| RunStore.RunKeepsItsData | storage/agent_runs.py:530-581 | after any history a run has the organisation, author and messages it was created with, and the error of its last accepted ending |
| RunStore.FirstAnswerStands | storage/agent_runs.py:668-692 | after any history a confirmation carries the first answer its own organisation gave |
| RunStore.StreamRun | interfaces/rest_api/routers/agent.py:258-283 | with appends interleaved anywhere, a follower delivers the block from its cursor to its last read, in order, once each, and stops only if the run ended, it does not follow, or the client left |
| RunStore.ReconnectIsSeamless | interfaces/rest_api/routers/agent.py:317-336 | reconnecting at the last cursor leaves no gap and repeats nothing |
| EventLog.InMemoryEventStore.Append | storage/event_store/memory.py:21-30 | the log grows by the event, numbered one past its length |
| EventLog.InMemoryEventStore.ReadStream | storage/event_store/memory.py:35-36 | a campaign's stream is its events - every one and no other - in order, with rising numbers |
| EventLog.InMemoryEventStore.ReadFrom | storage/event_store/memory.py:38-41 | at most `limit` events, exactly those behind the given number |
| EventLog.StreamsGrow | storage/event_store/memory.py:21-36 | a stream once read is the beginning of every later one |
| EventLog.Tail | storage/event_store/memory.py:46-54 | waking at any lengths, the tail yields every event once, in order |
| Projection.CampaignProjector.Apply | storage/projections/campaign_projector.py:124-227 | the tables after one event, branch by branch; a draft without its context fails and changes nothing |
| Projection.CampaignProjector.Bump | storage/projections/campaign_projector.py:229-269 | counters are added once per event number; an older number changes nothing |
| Projection.CampaignProjector.ApplyPending | interfaces/mcp_server/server.py:142-171 | the synchronisation applies one stream in order, the draft only with its context |
| Projection.GapFreeIsFold | storage/projections/campaign_projector.py:151-207 | any schedule without gaps, re-applications included, leaves a guarded row equal to the fold of the applied prefix |
| Projection.GapFreeIffCounted | storage/projections/campaign_projector.py:241-269 | a guarded count equals the number of events up to its mark if and only if nothing was ever jumped over |
| Projection.WalkersLeaveNoGap | interfaces/mcp_server/server.py:157-171 | any number of appliers, each starting no further than the row, in any interleaving, leave no gap |
| ReadModels.ProgressIsFoldIffGapFree | storage/projections/campaign_projector.py:193-207 | a campaign's counters are the fold of its stream up to their mark - each counts its own kind of event - if and only if no applier jumped over a counted event |
| ReadModels.FoldCountsOn | storage/projections/campaign_projector.py:193-207 | the fold counts each kind of event by itself - invited, started, completed, abandoned - and sums the durations and coverages of the completions |
| ReadModels.ProgressConverges | interfaces/rest_api/main.py:56-72 | whatever the counters were folded from, appliers that start no further than their mark fold them on, in any interleaving, past everything any of them applied |
| ReadModels.ProgressFromTheStart | interfaces/rest_api/main.py:56-72 | in particular without counters and from the beginning of the stream: each counter is the number of events of its kind up to the mark, durations and coverages are summed over the completions |
| ReadModels.StudyConverges | storage/projections/campaign_projector.py:151-192 | once its row exists, a campaign's title, stage, specification and version are the fold of its stream under such appliers |
| ReadModels.FoldShows | storage/projections/campaign_projector.py:151-192 | that fold shows the title of the last patch with one that is text, each other field as the last patch that names it has it, the stage of the last lifecycle event, the number of updates and the time of the last change |
| ReadModels.StudyFromItsDraft | storage/projections/campaign_projector.py:133-192 | the same from the draft that inserts the row |
| ReadModels.VersionCountsIffGapFree | storage/projections/campaign_projector.py:151-175 | the version counts the specification updates exactly when none was jumped over |
| ReadModels.UpdateBeforeTheRowIsLost | interfaces/rest_api/main.py:67-72 | an update applied before the row exists and then jumped over is missing for ever, whatever is re-applied |
| ReadModels.SpecAgreesOnceCaughtUp | agents/designer/main.py:1617-1625 | a row drafted from a specification that already holds later patches is the same row once those patches are applied again |
| ReadModels.SpecMayStepBack | storage/projections/campaign_projector.py:151-175 | until then a field can go back to an older value |
| InsightSets.RowsRun | storage/projections/campaign_projector.py:208-227 | a campaign's insight rows after any applications are the run over its own events in the order applied |
| InsightSets.EveryInterleavingConverges | storage/projections/campaign_projector.py:208-227 | under the stated condition on the appliers' windows, every interleaving ends with the current set, from any contents |
| InsightSets.OtherwiseSomeInterleavingFails | storage/projections/campaign_projector.py:208-227 | when the condition fails, some interleaving of the same appliers ends with another set |
| InsightSets.CurrentIs | storage/projections/campaign_projector.py:208-227 | the current set of any stream is what was generated behind its last reset, each insight with the id, content and time of its event, whatever else lies there |
| InsightSets.WalkersToTheEndConverge | interfaces/mcp_server/server.py:157-171 | appliers that walk to the end from any starts, one of them through the last reset, leave exactly the insights generated behind it |
| InsightSets.SnapshotIsHarmlessIff | interfaces/mcp_server/server.py:154-171 | a synchronisation that read only a prefix is safe beside a full walker if and only if its prefix already rebuilds the current set, or holds no reset and nothing foreign to it |
| InsightSets.SlowSnapshotLeavesTheOldSet | interfaces/mcp_server/server.py:154-171 | a synchronisation that read before a new batch and writes after it leaves the old set |
| InsightSets.BatchReplacesSet | interfaces/rest_api/worker.py:64-77 | a batch appended in one piece is the current set, whatever came before |
| InsightSets.ShuffledBatches | storage/event_store/memory.py:32-33 | in every interleaving of two batches the set is what the later one generates and what the earlier one appends behind the later one's reset |
| InsightSets.LaterBatchStandsIff | storage/event_store/memory.py:32-33 | the later batch alone is the current set if and only if the earlier one was appended completely before it began |
| Worker.CompletedTranscripts | interfaces/rest_api/worker.py:22-41 | one transcript for each completed interview with turns, by increasing id, with all its turns in order |
| Worker.TranscriptsIgnoreInterleaving | interfaces/rest_api/worker.py:22-41 | the transcripts do not depend on how the interviews' events are interleaved |
| Worker.TranscriptAgreesWithEvidence | interfaces/rest_api/worker.py:22-41 | the transcript sent to the analyst has the turns that the evidence page shows |
| Interview.NextIsFirstOpen | agents/interviewer/main.py:352-371 | the first open item behind the current one, else - if allowed to wrap around - the first open one of the guide; none exactly when the searched part has none |
| Interview.NextIsNext | agents/interviewer/main.py:352-371 | with everything up to the current item covered and nothing after it, the next item is the very next one |
| Interview.Normalize | agents/interviewer/main.py:194-341 | on any guide and memory: no coverage falls, it ends only when nothing behind the current item is open (nothing at all, if the model asked to), it asks only open items and probes only within the limit; on a memory that tracks a spot it is a three-way machine of stop, move on, or probe; without a guide the model's action stands |
| InterviewRun.AvgCoverage | agents/interviewer/main.py:479-482 | the average over the entries, zero without any |
| InterviewRun.OnReply | agents/interviewer/main.py:58-191 | two turns numbered on from the history, the interviewer's with the action's text, else the prose, else the fallback; the new memory; and at a wrap-up the completion with its coverage |
| InterviewRun.Conduct | agents/interviewer/main.py:58-191 | a whole interview from a fresh memory records exactly the machine's events |
| InterviewRun.WrapsUpWithinBudget | agents/interviewer/main.py:194-341 | for any model actions and texts, an interview wraps up within as many replies as there are items and permitted follow-ups |
| InterviewRun.BoundIsAttained | agents/interviewer/main.py:285-341 | a model that always probes uses all of them |
| InterviewRun.OneStepAtATime | agents/interviewer/main.py:194-341 | each outcome uses one follow-up of its item or goes to the very next item; an interview finishes only from the last one |
| InterviewRun.FollowupsAreBounded | agents/interviewer/main.py:294-341 | no item is probed more often than its guide allows |
| InterviewRun.CoverageNeverFalls | agents/interviewer/main.py:220-341 | no item's coverage decreases |
| InterviewRun.MapHoldsCoverage | agents/interviewer/main.py:220-228 | the coverage map holds 1 before the current item, 0 or a half at it, nothing behind it |
| InterviewRun.FullIffFinished | agents/interviewer/main.py:149-160 | the reported coverage is 1 exactly when the respondent did not stop the interview |
| InterviewRun.ReferredItems | agents/interviewer/main.py:118-140 | with the opening item, the recorded turns refer to exactly the items up to the one the interview ended on |
| InterviewRun.TurnsAreNumbered | agents/interviewer/main.py:71-140 | recorded turns are numbered consecutively, alternating respondent and interviewer; only the last event is the completion |
| Evidence.BuildEvidence | interfaces/rest_api/campaign_evidence.py:25-157 | every interview of the campaign gets the row its own events make, with the larger of reported and rebuilt coverage |
| Evidence.RowTells | interfaces/rest_api/campaign_evidence.py:42-135 | for every log, column by column: an interview has a row if and only if some event is about it; its turns are its recorded turns, all and in order, with order, role, text and time; respondent, source, channel and start are those of the last join, else the defaults and the first start; the external reference is that of the respondent's last named invite before the join; duration and coverage are those of the last completion, status and end those of the last completion or abandonment |
| Evidence.RowSummarises | interfaces/rest_api/campaign_evidence.py:75-135 | a row holds the items referred to, whether there are turns, the last reported coverage, and how the interview ended last |
| Evidence.EvidenceAgrees | interfaces/rest_api/campaign_evidence.py:120-157 | for a whole interview with anything interleaved: full coverage is shown if and only if it finished or was stopped on its last item; otherwise the larger of the two computations, or the reported one if it was abandoned after all |
| Pii.EmailSpans | harness/policies/pii.py:50-85 | the cursor scan returns the leftmost, longest, non-overlapping email tokens, after at most three tests for each character and two more for each `@`, failing tests included |
| Pii.ScanIsUnique | harness/policies/pii.py:50-85 | there is only one such list of spans |
| Pii.ReplaceSpans | harness/policies/pii.py:88-97 | exactly the spans are exchanged for the marker; the text between them is kept in order |
| Pii.SpliceRestores | harness/policies/pii.py:88-97 | putting each span's own text in its place gives back the original |
| Pii.RedactionIsComplete | harness/policies/pii.py:100-112 | after replacing the scanned spans no email token is left |
| Pii.MarkersCreateNoEmail | harness/policies/pii.py:106-111 | replacing any other spans of a clean text by a bracketed marker keeps it clean |
| Pii.Redact | harness/policies/pii.py:100-112 | the three stages in order: the result is clean, `email` is reported exactly when there was one, and a text with nothing found is unchanged |
| Pii.RedactedIsClean | harness/policies/pii.py:100-112 | every redaction is clean, whatever the two other patterns match |
| Harness.InMemoryMemory.Update | harness/memory.py:34-35 | merges into one scope and leaves every other |
| Harness.InMemoryMemory.ClaimOnce | harness/memory.py:40-45 | grants a key to its first claimant only |
| Harness.Harness.Handle | harness/orchestrator.py:66-121 | policies, agent, log, memory scope, observers and bounded follow-ups, in place, as the function on values; an agent or a follow-up that raises ends it there |
| Harness.LogGrows | harness/orchestrator.py:66-121 | handling a command only appends to the log, through all its follow-ups |
| Harness.RefusedIffOverBudget | harness/policies/budget.py:19-34 | a command is refused if and only if its campaign's spending, as its interview's or its campaign's memory has it, reaches the hard limit's share of the budget; then one event is logged, nothing is written and no agent runs |
| Harness.TooDeepIff | harness/orchestrator.py:66-71 | follow-ups are handled up to three levels deep; a deeper one changes nothing |
| Harness.PoliciesReport | harness/policies/escalation.py:34-58 | what the policies log of a command they let through: a budget warning, the fields cleaned from its text, and an escalation judged on the cleaned text - each exactly when it applies |
| Harness.PersistedTurnsAreClean | harness/orchestrator.py:74-93 | no respondent turn the harness persists contains an email token, through all follow-ups |
| Harness.ReplyIsLocal | harness/orchestrator.py:99-137 | a reply reads its campaign's scope and its own and writes at most its own |
| Harness.InterviewsDoNotInterfere | harness/orchestrator.py:66-136 | whole replies in any order: each interview's answers, events and memory are those of its replies alone, and no campaign memory changes |
| Overlap.OverlappingInterviewsDoNotInterfere | harness/orchestrator.py:74-136 | the same with any number of replies in flight, interleaved at every read, append and write, as long as no reply to an interview reads between another one's read and write |
| Overlap.OneAtATimeReadsCleanly | harness/orchestrator.py:74-136 | one reply in flight for each interview is enough for that |
| Overlap.LogHoldsEveryReply | harness/orchestrator.py:78-114 | at every moment each reply's log entries are its events in order, but for those still to be appended |
| Overlap.TurnsAreConsecutiveIff | interfaces/rest_api/routers/interviews.py:131-154 | overlapping replies to one interview number their turns consecutively if and only if no reply reads between another one's read and write |
| Overlap.OverlapLosesAnUpdate | interfaces/rest_api/routers/interviews.py:131-154 | two replies that both read first number their turns alike and leave one update of the history |
| Scores.RoundReachesFloorIff | core/domain/release.py:144-162 | a score rounded to hundredths reaches a whole-number floor exactly when it misses it by no more than 0.005 |
| Scores.MeanBetweenSlices | core/domain/release.py:171-177 | the mean lies between the means of two slices |
| Scores.IntervalContainsMean | core/domain/release.py:35-53 | 0 <= low <= reported mean <= high <= 100 |
| Scores.IntervalIs | core/domain/release.py:35-53 | the interval reports, rounded, the sample deviation and the mean less and plus the critical value times the deviation over the root of the number, cut off at 0 and 100 |
| Scores.CriticalFalls | core/domain/release.py:18-46 | more trials never widen the critical value, and beyond thirty degrees it is 1.96 |
| Release.GroupRuns | core/domain/release.py:113-123 | the grouping loop collects, for each case, its bound runs in order |
| Release.ComputeReleaseDecision | core/domain/release.py:56-274 | the record computed with its loops is the function of the evidence |
| Release.EvidenceIs | core/domain/release.py:96-140 | the evidence holds each recorded run of the bound pair of versions once for each runnable case it belongs to, and nothing else |
| Release.RecordSays | core/domain/release.py:136-274 | on that evidence: overall and baseline are the means of the two scores within 0.005, the delta is exactly their difference, and the counts of cases and of critical runs, the slice means and the trial ids are those of the runs |
| Release.BlockersAre | core/domain/release.py:75-248 | the record names every reason to hold there is - each stated on the evidence - and none that is not |
| Release.AgreementSays | core/domain/release.py:204-215 | the agreement is the rounded fraction of agreeing examples of the current calibrations, which are the ones listed |
| Release.CurrentIs | core/domain/release.py:194-203 | the current calibrations are those of the last one's judge, version and rubric, in order |
| Release.FiledCodes | core/domain/release.py:75-79 | blocker codes are distinct, parallel to their messages, and exactly those of the findings |
| Release.ShipsIff | core/domain/release.py:75-253 | SHIP exactly when plan, bindings, cases, repetitions, critical failures, floors, slices and calibration all hold, stated on the evidence |
| Release.RecordDependsOnEvidence | core/domain/release.py:113-274 | the record depends on nothing but the multiset of runs that count, apart from the order of `trial_ids` |
| Release.NoiseIsSameEvidence | core/domain/release.py:113-140 | a run of another version, an unknown case or a hypothesis case does not count |
| Release.OverallBetweenSlices | core/domain/release.py:136-177 | the reported overall score lies between two reported slice scores |
| Release.IntervalContainsOverall | core/domain/release.py:136-151 | the reported interval contains the reported score |
| Release.ShipsJustBelowFloor | core/domain/release.py:144-170 | a mean of 79.996 ships against a floor of 80 |
| Billing.ResolvePlan | core/billing/service.py:65-81 | overage is permitted exactly on a paid plan that has not lapsed; a lapsed one is on the free tier's limits and loses its override |
| Billing.QuotaIs | core/billing/service.py:65-81 | the quota: the account's own override unless a paid plan has lapsed, else the configured one of the plan it is then on, else 20, 200 or 1000 |
| Billing.BillingService.CheckQuota | core/billing/service.py:85-96 | allowed exactly within the quota or on overage |
| Billing.BillingService.RecordCompletion | core/billing/service.py:117-170 | record, decide, report and mark, for any answer of the gateway |
| Billing.ReplayChangesNothing | storage/billing/repo.py:187-224 | a second completion of an interview, with any data, changes nothing |
| Billing.FirstCompletionWins | storage/billing/repo.py:187-224 | the table holds one record for each distinct interview, that of its first completion: qualified if and only if both duration and coverage reach their minimum |
| Billing.OnlyBillableIsReported | core/billing/service.py:152-170 | in any interleaving, no interview of an organisation is reported unless it is on a paid plan that has not lapsed and has a customer to bill |
| Billing.MeteringIsConserved | core/billing/service.py:117-170 | one completion after another, in any order and with duplicates: reports never exceed the qualified interviews beyond the quota, and equal them when the gateway never fails |
| Billing.NeverFarOver | core/billing/service.py:139-170 | with `k` completions in flight, gateway failures and dying processes: at most `k - 1` reports too many |
| Billing.NothingIsForgotten | core/billing/service.py:139-170 | in any interleaving, once all are decided, nothing owed is unreported if the gateway never fails and no process dies |
| Billing.ReportsExactly | core/billing/service.py:139-170 | in any interleaving, with a reliable gateway and everything decided: what is owed, and one more for each completion in flight when the quota was crossed |
| Billing.MeteringIsExactIff | core/billing/service.py:139-170 | exact if and only if none was, or the quota was not crossed |
| Billing.BoundIsAttained | core/billing/service.py:139-170 | for every `k` up to the quota and one more, a run with `k` in flight that owes one report and makes `k` |
| Billing.ReportedAndMarkedIff | core/billing/service.py:155-170 | after any completions: an interview is reported once if its first completion was due and the gateway accepted, marked if marking succeeded too, and reported but unmarked exactly when only marking failed |
| Billing.RetryReportsTwiceIff | core/billing/service.py:130-136 | a retry of unmarked records, which the method leaves to a reconciliation job, reports an interview twice exactly then |
| Vad.EnergyVAD.Push | voice/vad/silero.py:54-74 | the state is determined by the bytes fed so far, and an end is reported exactly when some completed frame is quiet, as are the ones before it back to a loud frame one hangover earlier |
| Vad.FramesAcrossCut | voice/vad/silero.py:56-61 | cutting the stream anywhere finds the same frames and the same left-over bytes |
| Vad.PushInTwo | voice/vad/silero.py:54-74 | pushing a then b leaves the state of pushing them at once and reports an end if and only if that push does |
| Vad.LoudIff | voice/vad/silero.py:62-65 | a frame is loud if and only if the last `window` levels, or all there are, sum up to the threshold for each of them |
| Vad.LoudnessFollowsLevels | voice/vad/silero.py:62-65 | a window of equal levels is loud exactly when that level reaches the threshold; raising levels makes no frame quiet |
| Vad.EndIff | voice/vad/silero.py:65-73 | the hysteresis ends an utterance at a frame exactly when the frame completes a quiet hangover behind a loud frame |
| Vad.EndsAreApart | voice/vad/silero.py:65-73 | two ends are more than a hangover apart with a loud frame in between |
| Vad.EndsTakeFrames | voice/vad/silero.py:65-73 | k ends need at least k times (hangover + 1) frames |
| Vad.PushAll | voice/vad/silero.py:54-74 | a stream pushed in any chunks: how many pushes report |
| Vad.ReportsAreEndsIff | voice/vad/silero.py:3-9 | never more reports than ends, and as many if and only if no chunk completes two ends |
| Vad.ShortChunkNeverMerges | voice/vad/silero.py:54-74 | a chunk of at most a hangover and one frame completes one end at most, whatever was fed before |
| Vad.ShortChunksReportEveryEnd | voice/vad/silero.py:54-74 | chunks of that size report every end |
| Vad.LongerChunkMerges | voice/vad/silero.py:54-74 | for every hangover, a chunk one frame longer that completes two ends and reports once |

## Left out

- Postgres, Redis, Stripe, HTTP, WebSocket, JWT and password hashing: foreign calls. An SQL statement is an atomic step on its table.
- Language-model clients, prompts, and the extraction of actions and patches from their text: the extracted value is arbitrary.
- The Postgres notification queue: it may drop notifications, and no delivery is claimed for it.
- Artifacts, memories and the rendering of results for the model's context: a rendered result is a value of the script; only its truncation in the log is modelled.
- Token counts, latencies and the wording of messages: kept as notices and parameters.
- Two drivers of one run at once: one process drives a run, as the program's startup assumes.
- The routes that create runs and resolve confirmations, channel adapters, dispatch templates, tool wrappers, respondent registration and API keys: plumbing.
- The rubric judges, scoreboards, Markdown rendering, listing queries and the frontend.
- Floating point: means, ratios and levels are exact reals; a square root is any function that is one.
- Edits of the guide, and memory that expires, during an interview.
- The display order of evidence rows and the sort of their turns: turns stay in log order, which for an interview of `InterviewRun.Conduct` is their number order.
- `RegisterRespondents`, `CreateCampaign` and the designer's seeds: agents are arbitrary functions in `Harness`.
- RunStore.StreamRun: does not claim that one connection sees the last events; the status is read after the events, so a reader may have to reconnect once.
- RunProtocol.AtMostOnce: assumes that the ids of one model turn are distinct; across turns and restarts they may repeat. What the restart's check needs of ids is stated exactly by `RunProtocol.CheckIsRightPerCallIff` and its neighbours.
- Release.BlockersAre: says which reasons are named; the figures printed beside a reason are computed with it and not stated apart.
- Evidence.EvidenceAgrees: for a guide named by the caller.
- Pii.Redact: the id and phone patterns are arbitrary span finders, and the word class is any set of characters without `@`, `.` and brackets.
- Overlap.OverlappingInterviewsDoNotInterfere: one write of a scope is one step, as in the in-memory store; the Redis store reads and sets. A process that dies with replies in flight is not modelled there.
- Billing.ReportsExactly: the organisation's account does not change during the period, as in all results about metering; `Billing.NeverFarOver` covers failing gateways and dying processes.
- Billing.RetryReportsTwiceIff: the repository has no reconciliation job; the retry is the one its documentation describes.
- Vad.EnergyVAD.constructor: asks for frames of at least one sample, without which the source's loop would not end.
- EventLog.InMemoryEventStore.AppendMany: one uninterrupted call; what interleaved batches do is stated by `InsightSets.ShuffledBatches`.
- InsightSets.LaterBatchStandsIff: assumes that no insight of one batch is one of the other's, as fresh ids make sure.
- InsightSets.WalkersToTheEndConverge: assumes that insight ids are unique and that rows under them, if any, are the log's.
