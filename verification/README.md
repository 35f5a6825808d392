# Verification of the agent runtime

A Dafny model of the parts of this repository whose correctness rests on more than one function: the agent
loop with its event protocol, the stateful agent around it, the client half of the streaming proxy, the
transcript packer, the generated model catalogue and the provider runtime. `dafny verify dfyconfig.toml`
checks everything.

## What is modelled

**Agent loop** (`AgentTypes`, `ToolBatch`, `ToolReports`, `ToolExecution`, `LoopModel`, `AgentLoop`, `MessageQueue`).
The loop is given twice. `LoopModel` and `ToolBatch` state it as a transition system with one step per turn;
`AgentLoop` and `ToolExecution` are the loops themselves, over message arrays shared by reference, two queues
and an event log, and are proved to do what the transition system says. The language model, the tools, the
hooks, the abort signal and everything that other code puts on the queues are answers of the environment, read
from an arbitrary script with one entry per turn. A run that has used up its script is unfinished, so the
statements about runs hold for every finite part of a run that never ends. A tool may report partial results at
any time, also after it has settled or ended. A parallel batch takes an arbitrary schedule of what happens to its
running calls, and `SchedulesAreInterleavings` shows that schedules are no restriction.

**What is proved of it** (`TraceGrammar`, `TraceShape`, `BatchTheorems`, `BatchProtocol`, `ToolOutcomes`, `RunPending`,
`ResponseTheorems`, `LoopTheorems`, `LoopSafety`, `QueueTheorems`, `TurnReports`). The event protocol is an automaton, and
`AcceptsExactly` says without it which traces it accepts: agent_start (turn_start body turn_end)+ agent_end, each
body a sequence of whole messages, with updates inside assistant messages only, and of blocks of tool executions in
which every execution that is started ends. The three copies of the conversation agree, tool
calls are answered in order and only allowed ones are executed, how each call comes out, whether its batch stops the
run and when the run goes on are told from the environment's answers alone, queued messages are conserved, and the
number of turns is bounded by the work there is. `RunInduction` is the induction principle over runs that these
proofs share; it comes from induction over any fold (`Folds`).

**Agent** (`AgentState`, `SessionModel`, `ContinueTheorems`, `Agent`, `Lifecycle`, `LifecycleMoves`). The agent reduces the events into its own
state, owns the queues and runs the loop; `SessionModel` follows it over any sequence of actions. `Lifecycle`
drops the assumption that nothing throws: executors, listeners and even listeners of the failure handler may. It is
given as moves under any interleaving and as code, and `LifecycleMoves` shows that a run of the code is such moves.

**Proxy client** (`LineFraming`, `ProxyPartial`, `ProxyTheorems`). Chunks of decoded text are cut into lines, lines carry
events, events rebuild the message block by block. The line framing is what the code does, a small part of
section 9.2 of the WHATWG HTML standard. Header names (`Headers`) are compared without regard to case as in
section 5.1 of RFC 9110.

**Packer** (`TranscriptPacker`), **catalogue** (`CatalogueSwap`, `CatalogueData`, `CatalogueValidation`) and
**provider runtime** (`ModelOverlay`, `ProviderRefresh`, `Headers`, `Pricing`, `ThinkingLevels`). In the
catalogue swap every forward file operation may fail at any point, a failing write may leave anything in its
file, and rollback operations succeed. Money is computed over reals.

## Assumptions

The following come from the repository's own interfaces and are visible as `requires` clauses or in the shape
of the environment: loop callbacks do not throw (`packages/agent/src/types.ts:154`,
`packages/agent/src/types.ts:215`; not assumed in `Lifecycle`), and nothing outside a run replaces the
transcript or resets the agent during it. That a stream emits `start` at most once
(`packages/ai/src/types.ts:486`) is not assumed: it is proved to be the exact condition. Call ids are assumed
distinct only where a statement speaks about the events of one id.

## Where the code differs from what one might expect

- `continue` is documented to need a user or tool-result message at the end of the transcript; the code only
  treats an assistant message specially, and then drains the queues (`packages/agent/src/agent.ts:350-377`);
  `Agent.Continue` states exactly what it refuses, and `CustomIsContinued` is a transcript that ends otherwise.
- agent_end is documented as the last event of a run (`packages/agent/src/types.ts:415-427`), but the failure path
  may emit a second one (`packages/agent/src/agent.ts:508-511`), and a tool that outlived its batch, in this run or an
  earlier one (`packages/agent/src/agent-loop.ts:540`), is still heard while listeners of agent_end are awaited, before
  the run is cleared (`packages/agent/src/agent.ts:492`). `AgentEndTwice`, `SurvivorSpeaksLast` and
  `EarlierSurvivorSpeaksLast` are such runs, `AgentEndTwiceExactly` says which runs have two, and
  `DocumentedEndExactly` when the documented rule holds.
- A late tool event is reduced before the agent notices that no run is active
  (`packages/agent/src/agent.ts:529-576`); `LateEventsExact` says which late events do no harm.
- If reading the model store throws outright instead of returning a rejected promise, the finally clause runs
  before the promise is put in its slot, and the provider never refreshes again
  (`packages/ai/src/models.ts:596-616`); `StuckExactly` says exactly when.
- A `toolcall_end` that does not fit its block is ignored where every other mismatch throws, and a
  `toolcall_delta` after the end appends to the word "undefined" (`packages/agent/src/proxy.ts:320-349`;
  `DeltaAfterEnd`).
- Price tiers with a threshold of -1 or below never apply, and of tiers with equal thresholds the first wins.
- The flush nested in the oversized branch of the packer is unreachable
  (`scripts/session-transcripts.ts:214-222`).

## Model

| member | source | states |
|---|---|---|
| MessageQueue.PendingMessageQueue.Enqueue | packages/agent/src/agent.ts:131-133 | A message joins the end of the queue. |
| MessageQueue.PendingMessageQueue.Drain | packages/agent/src/agent.ts:139-152 | What is drained followed by what stays is what was queued; one-at-a-time takes at most one message, `all` leaves none. |
| AgentState.State.ProcessEvent | packages/agent/src/agent.ts:529-566 | The in-place reducer moves the state exactly as the specification `Reduce` does, for every event; the lemmas below say what that does to each field over any trace. |
| AgentState.ReduceAllConcat | packages/agent/src/agent.ts:529-566 | Reducing a trace piece by piece, as the parts of a run deliver it, is reducing it whole. |
| AgentState.ErrorFollowsTrace | packages/agent/src/agent.ts:529-566 | Over any trace the error shown is that of the last turn_end whose assistant message has a non-empty one, or else the old one. |
| AgentState.StreamingFollowsTrace | packages/agent/src/agent.ts:529-566 | Over any trace the message in progress is that of the last message_start or message_update if no message_end or agent_end follows it, none once one of these has followed, and otherwise the old one. |
| AgentState.TranscriptFollowsTrace | packages/agent/src/agent.ts:529-566 | Over any trace whatsoever the transcript grows by the messages the trace ends, in order, and by nothing else. |
| AgentState.PendingIsStartedMinusEnded | packages/agent/src/agent.ts:551-561 | `pendingToolCalls` is the started call ids minus the ended ones, if no id is started again after it ended. |
| AgentState.PendingExact | packages/agent/src/agent.ts:551-561 | That condition is exact: the equation holds after every prefix of a trace if and only if no id is restarted. |
| TraceGrammar.AcceptedTraceIsBracketed | packages/agent/src/types.ts:422-437 | A trace accepted by the protocol automaton has at least four events, starts with its only agent_start and ends with its only agent_end. |
| TraceShape.AcceptsExactly | packages/agent/src/types.ts:415-437 | A trace is accepted if and only if it is agent_start, one or more turns and agent_end; a turn is turn_start, whole messages and tool blocks, and turn_end; a message is its start, updates if it is an assistant's, and a matching end; in a tool block only running executions report or end, and per id as many end as start. |
| ToolExecution.FailToolCallsFromTruncatedMessage | packages/agent/src/agent-loop.ts:381-406 | The loop over a truncated message emits and returns the batch in which every call fails, and executes nothing. |
| ToolExecution.RunningCall.OnUpdate | packages/agent/src/agent-loop.ts:671-690 | A report becomes an update event if updates are accepted, and leaves no event otherwise. |
| ToolExecution.ExecutePreparedToolCall | packages/agent/src/agent-loop.ts:666-707 | Executes the tool once; what it gives is the tool's own result, not an error, if the tool returned and an error with its message if it threw; every report goes through the `acceptingUpdates` flag, and exactly those made before the settlement is noticed are emitted, in order; then the flag is closed and all the call will still show is its end, whatever the tool goes on to report. |
| ToolExecution.RunRace | packages/agent/src/agent-loop.ts:522-542 | Started calls under any schedule of what happens to them, late reports included, emit `Race` of their states. |
| ToolExecution.ExecuteToolCallsSequential | packages/agent/src/agent-loop.ts:433-487 | The sequential loop, abort check included, produces the events, replies, executions and terminate flag of `SequentialBatch`. |
| ToolExecution.ExecuteToolCallsParallel | packages/agent/src/agent-loop.ts:489-554 | Preparation, concurrent processes under any schedule, and the final replies together produce `ParallelBatch`. |
| ToolExecution.ExecuteToolCalls | packages/agent/src/agent-loop.ts:411-426 | One sequential tool, or sequential configuration, makes the whole batch sequential; either way events, replies, executions and stop decision are those of `ExecuteBatch`, which `OneByOne`, `SideBySide`, `ExecutedBatchIsWell`, `EndsTellOutcomes` and `StopsExactly` determine. |
| ToolReports.RunningShows | packages/agent/src/agent-loop.ts:666-707 | A tool that reports at any time, before its settlement, between settlement and end, or after its end, is seen to make exactly the reports before its settlement and then to end. |
| BatchTheorems.SchedulesAreInterleavings | packages/agent/src/agent-loop.ts:522-542 | The schedules of running calls, silent steps included, produce exactly the interleavings of what the calls show: every interleaving has a schedule and every schedule gives one. |
| BatchTheorems.RaceInterleavesProcesses | packages/agent/src/agent-loop.ts:522-542 | Under every schedule and however late the tools report, the concurrent part of a batch interleaves, per call, its reports before settlement and its end. |
| BatchTheorems.InterleavingProjects | packages/agent/src/agent-loop.ts:522-542 | In every interleaving of calls with distinct ids, the events of one id are that call's own events in order. |
| BatchTheorems.EachCallLivesOnce | packages/agent/src/agent-loop.ts:433-554 | In either mode and under every schedule a reached call is started once, updated only in between and ended once; an unreached call leaves no event. |
| BatchTheorems.PendingDuringBatch | packages/agent/src/agent-loop.ts:489-554 | After any prefix of a batch's events, `pendingToolCalls` is the ids started minus the ids ended. |
| RunPending.PendingDuringRun | packages/agent/src/agent-loop.ts:155-275 | Over any part of a whole run whose turns never ask for one call id twice, after every prefix of the events `pendingToolCalls` is the ids started minus the ids ended, and every id in the trace lives one life: start, updates, end. |
| BatchProtocol.RaceObeysProtocol | packages/agent/src/agent-loop.ts:489-554 | Any interleaving of running calls, repeated ids included, keeps the protocol and leaves no tool running. |
| BatchProtocol.BatchObeysProtocol | packages/agent/src/agent-loop.ts:411-554 | A whole batch in either mode takes a quiet turn to a quiet turn. |
| BatchProtocol.BatchCompletesItsReplies | packages/agent/src/agent-loop.ts:411-554 | The messages a batch ends are exactly the replies it returns, in the same order. |
| BatchProtocol.BatchInterleavesTracks | packages/agent/src/agent-loop.ts:433-554 | The events of a batch interleave one track per reached call: its start, updates, end and reply, whole and in this order. |
| BatchProtocol.ModesAgree | packages/agent/src/agent-loop.ts:411-554 | When a call's outcome depends on the call alone, parallel execution gives the same replies in the same order, the same stop decision, the same executions and the same events up to order as sequential. |
| ToolOutcomes.PreparedIffMayExecute | packages/agent/src/agent-loop.ts:600-664 | A call passes preparation if and only if its tool exists, its arguments are valid, no hook throws or blocks and no abort is seen; otherwise its reply is an error. |
| ToolOutcomes.EndsTellOutcomes | packages/agent/src/agent-loop.ts:600-764 | In either mode and under every schedule each tool_execution_end belongs to a reached call and carries, field by field, what the answers say: the refusal if the call may not execute; the failure if the tool or the hook after it threw; else the tool's result, no error, with the fields the hook gives in their place. |
| ToolOutcomes.ComesOutIsUnique | packages/agent/src/agent-loop.ts:600-740 | The answers to one call admit a single result and error flag. |
| ToolOutcomes.EachCallIsTold | packages/agent/src/agent-loop.ts:433-554 | With distinct ids, a listener hears of a reached call its start, its reports up to the settlement in order, and its end with the result above. |
| ToolOutcomes.TrackTellsCall | packages/agent/src/agent-loop.ts:433-487 | Ids distinct or not, a track is what is heard of the call followed by the reply with its id, name, content, details, usage, added tools and error flag. |
| ToolOutcomes.StopsExactly | packages/agent/src/agent-loop.ts:582-584 | A batch asks to stop if and only if it has calls and each reached one was executed, its hook did not throw, and the hook said terminate or left it to a tool that returned it; a tool that threw can thus still be overridden to stop. |
| ToolOutcomes.OneByOne | packages/agent/src/agent-loop.ts:411-487 | A sequential configuration, or one call whose first tool of that name is sequential, makes the batch run its tracks one after the other. |
| ToolOutcomes.SideBySide | packages/agent/src/agent-loop.ts:489-554 | Otherwise the calls are opened in order, whatever interleaving of what they then show comes about under some schedule, and the replies follow in source order. |
| ToolOutcomes.OpeningOpens | packages/agent/src/agent-loop.ts:499-535 | While a parallel batch is prepared an executable call shows its start only, and a refused one its whole life. |
| LoopSafety.ExecutedBatchIsWell | packages/agent/src/agent-loop.ts:411-554 | Over a non-empty prefix that is the whole list unless an abort was seen after its last call, each reply is the call's own and tells how it came out; the executed calls are exactly the allowed ones among them; the batch stops exactly if all of them ask to. |
| LoopSafety.ToolCallsExactly | packages/agent/src/agent-loop.ts:202-203 | The calls that are handled are all tool calls of the message, in source order. |
| AgentLoop.StreamAssistantResponse | packages/agent/src/agent-loop.ts:281-372 | Pushing the partial message once and replacing it in place yields the context of `Streamed` and the events of `ResponseEvents`. |
| ResponseTheorems.ResponseObeysProtocol | packages/agent/src/agent-loop.ts:281-372 | A response is one assistant pair with its updates inside if its stream begins at most once, and breaks the protocol otherwise. |
| ResponseTheorems.StreamIsRelayed | packages/agent/src/agent-loop.ts:281-372 | From the first start of a stream to its terminal event every stream event reaches the listener as a start or an update, in order and with its own partial message; deltas before the start do not. |
| ResponseTheorems.ResponseCompletesFinal | packages/agent/src/agent-loop.ts:281-372 | However it is streamed, a response ends its final message and no other. |
| ResponseTheorems.StreamedExact | packages/agent/src/agent-loop.ts:281-372 | The context grows by exactly the final message if and only if the stream begins at most once. |
| AgentLoop.RunLoop | packages/agent/src/agent-loop.ts:155-275 | The nested loops over shared message arrays, queues and the event log refine the transition system `Run`, for every script of environment answers; `RunGoesOnExactly` says when it goes on. |
| AgentLoop.RunAgentLoop | packages/agent/src/agent-loop.ts:95-118 | Events, returned messages, final context, executions and both queues after a run on a copy of the context are those of `Run`. |
| AgentLoop.RunAgentLoopContinue | packages/agent/src/agent-loop.ts:120-143 | Refused without any effect exactly if the context is empty or ends with an assistant message; otherwise a run without prompts on the caller's own array, which ends as the final context unless a hook replaced it. |
| LoopTheorems.RunObeysProtocol | packages/agent/src/agent-loop.ts:95-275 | A finished run has emitted agent_start (turn_start body turn_end)+ agent_end if and only if every stream it read began at most once; an unfinished one has not broken the protocol under the same condition. |
| LoopTheorems.RunCopies | packages/agent/src/agent-loop.ts:155-275 | At every point of a run `newMessages`, the messages ended in the trace and prompts plus turns agree; at its end agent_end, the last event, carries them. |
| LoopTheorems.RunContext | packages/agent/src/agent-loop.ts:192-245 | As long as the streams the run has read began at most once, its context is the initial one grown by every turn since the last replacement by a hook, or the replacement itself. |
| LoopTheorems.ConversationCopiesAgree | packages/agent/src/agent-loop.ts:95-275 | Returned messages, ended messages and the agent_end payload are equal for every run; if no hook replaced the context, it is the initial one plus them if and only if every stream the run read began at most once. |
| LoopSafety.RunExecutes | packages/agent/src/agent-loop.ts:155-275 | What a run has had executed is exactly what its turns record, in order. |
| LoopSafety.RunIsWellAnswered | packages/agent/src/agent-loop.ts:192-222 | Every turn of every run: a failed response is last and has no replies, a truncated one has all calls answered with errors and none executed and goes on, any other has its calls answered as in `ExecutedWell` and continues unless all of them ask to stop; and the tools have executed these calls and no others. |
| QueueTheorems.RunConservesQueue | packages/agent/src/agent-loop.ts:167-272 | For either queue and any part of a run: injected, then drained, then still queued messages are what was queued at the start followed by what arrived, in FIFO order. |
| QueueTheorems.FinishedRunLosesNothing | packages/agent/src/agent-loop.ts:167-272 | At every normal return everything drained has been injected: injected then still queued is what was queued at the start then what arrived. |
| QueueTheorems.InjectionRules | packages/agent/src/agent-loop.ts:165-272 | For every turn of every run: the first injects what the first poll took; a later one injects what the polls after the turn before it took, from the queues as they then stood; it is a follow-up if and only if the steering poll found nothing and that turn had no continuing batch, and then something is injected; steering one at a time injects at most one message. |
| QueueTheorems.RunGoesOnExactly | packages/agent/src/agent-loop.ts:167-272 | For every turn of every run: the run ends right after it if and only if the response failed, a hook stopped the run, or the turn had no continuing batch and both queues, arrivals included, were empty; otherwise the next turn is taken as soon as there is an answer for it. A first turn is always taken, and a run has finished if and only if its last turn ends it. |
| TurnReports.RunReports | packages/agent/src/agent-loop.ts:195-225 | The turn_end events of any part of a run are those of its turns, in order, each with its response and its replies. |
| QueueTheorems.TurnBound | packages/agent/src/agent-loop.ts:170-272 | Turns minus one are at most the continuing tool batches plus the injected messages. |
| QueueTheorems.FiniteWorkTerminates | packages/agent/src/agent-loop.ts:170-272 | A run that has not ended has been offered no more turns than its continuing batches and all messages ever queued for it can pay for. |
| Agent.Agent.Steer | packages/agent/src/agent.ts:276-278 | Steering queues the message and changes nothing else. |
| Agent.Agent.Prompt | packages/agent/src/agent.ts:339-347 | A prompt is refused while a run is active and otherwise is one whole run of the session model: transcript, queues and idle state included. |
| Agent.Agent.RunPromptMessages | packages/agent/src/agent.ts:398-412 | Running the loop, reducing its events and finishing leaves the session that the model of one run prescribes. |
| Agent.Agent.RunContinuation | packages/agent/src/agent.ts:414-424 | Running the loop on a snapshot without new messages leaves the session that the model of one run prescribes. |
| Agent.Agent.Continue | packages/agent/src/agent.ts:350-377 | Refused exactly when busy, empty, or ended by the assistant with both queues empty, and then nothing changes; otherwise one run of the session model, which `ContinueTheorems` tells case by case. |
| ContinueTheorems.SteeringPromptsFirst | packages/agent/src/agent.ts:361-366 | After an assistant message with steering waiting, the run is prompted with what the steering queue gives up, its first turn injects nothing more, what it returns begins with these prompts, and follow-ups are taken by the run itself only. |
| ContinueTheorems.FollowUpsPromptNext | packages/agent/src/agent.ts:367-372 | With no steering waiting, follow-ups prompt the run in the same way, and its first turn injects what its steering poll finds. |
| ContinueTheorems.ContinuesAsIs | packages/agent/src/agent.ts:350-377 | After any other message the run goes on without prompts and takes from both queues only what it polls. |
| ContinueTheorems.NothingToContinue | packages/agent/src/agent.ts:350-377 | A busy, empty, or answered session with nothing queued stays as it is. |
| ContinueTheorems.PromptRuns | packages/agent/src/agent.ts:339-347 | A prompt runs with both queues as they are, and what it returns begins with the prompts. |
| TurnReports.SessionShowsError | packages/agent/src/agent.ts:471-566 | After any run the agent shows the error of the last turn whose response had one, such as the failed one that ended it, and none if no turn had, whatever it showed before. |
| SessionModel.SessionSound | packages/agent/src/agent.ts:276-377 | Over any sequence of steering, follow-ups, prompts and continues: on each queue everything entered is everything taken followed by what waits, the transcript is the initial one plus what the runs returned, and in an idle agent there is no streaming message, no pending call, and everything ever taken off either queue is in the transcript in queue order, taken as prompts by `continue` or injected. |
| SessionModel.CustomIsContinued | packages/agent/src/agent.ts:350-377 | A transcript that ends in a custom message is continued from as it is. |
| Lifecycle.AlwaysOrderly | packages/agent/src/agent.ts:471-520 | Under every interleaving of starts, emissions, throws anywhere and late tool events at most one run is active, `isStreaming` says so, and an idle agent has no streaming message and no pending call. |
| Lifecycle.StartsExactly | packages/agent/src/agent.ts:471-487 | A run is let in exactly if none is active, with a clean slate; one that is refused leaves no trace. |
| Lifecycle.EveryExitIsClean | packages/agent/src/agent.ts:471-520 | Over every history: the move at which a run is gone is its finally clause, and after it the agent is idle and clean. |
| Lifecycle.FailureIsHandled | packages/agent/src/agent.ts:496-512 | Whatever its listeners throw, after at most four emissions of the failure handler only the finally clause of the run is left. |
| Lifecycle.SurvivorsNeverStart | packages/agent/src/agent-loop.ts:522-542 | Tools that outlive a parallel batch can only emit updates and ends. |
| Lifecycle.LateEventsExact | packages/agent/src/agent.ts:529-576 | Late events are reduced before the check for an active run, so a clean state stays clean throughout any sequence of them if and only if none starts a tool, starts a message or updates one. |
| Lifecycle.Runs.RunWithLifecycle | packages/agent/src/agent.ts:471-494 | With an arbitrary executor the agent ends idle and clean on every path; while the run is active listeners are handed exactly `EmittedTrace`, which includes what surviving tools of this and earlier runs emit between any two events and before the finally clause; the state is the reduction of that trace, cleared, so the transcript gains the delivered messages plus the failure unless its first report was thrown on, and the error shown is that of the failure unless one of the first two was; a second run is refused without effect. |
| Lifecycle.Runs.HandleRunFailure | packages/agent/src/agent.ts:496-512 | Emits the four failure events up to and including the first one a listener throws on, with the late tool events that come in between; the state is reduced over all of them. |
| Lifecycle.DeliveredExactly | packages/agent/src/agent.ts:471-494 | An executor is heard up to and including the first event a listener throws on, and what is caught is that throw, or else its own. |
| Lifecycle.FailureIsOneTurn | packages/agent/src/agent.ts:496-512 | The failure is reported as one whole message, a turn without replies, and an agent_end that carries exactly that message. |
| Lifecycle.FailureShowsError | packages/agent/src/agent.ts:496-562 | The error shown after a failed run is that of the failure, if it has one and no listener threw on the first two reports, and otherwise what the delivered events left. |
| LifecycleMoves.RunIsMoves | packages/agent/src/agent.ts:471-520 | The code form of a run is a sequence of moves of the lifecycle, and both leave the same state. |
| Lifecycle.AgentEndTwiceExactly | packages/agent/src/agent.ts:471-512 | A run whose executor delivered agent_end at most once emits it twice if and only if it was delivered, then something threw, and no listener threw on the first three failure events; late tool events make no difference. |
| Lifecycle.DocumentedEndExactly | packages/agent/src/types.ts:415-427 | The documented rule, agent_end once and last, holds of a run if and only if no surviving tool is heard between its last event and its finally clause, and agent_end was delivered so and nothing threw, or none was delivered and the failure was reported in full. |
| Lifecycle.AgentEndTwice | packages/agent/src/agent.ts:496-512 | A run on which the rule fails: it ends normally, and a listener throws on its agent_end. |
| Lifecycle.SurvivorSpeaksLast | packages/agent/src/agent-loop.ts:522-542 | A run whose only agent_end is not last: a listener throws on the end of one tool of a parallel batch, the failure is reported in full, and the other tool reports before the finally clause. |
| Lifecycle.EarlierSurvivorSpeaksLast | packages/agent/src/agent.ts:471-494 | The same on a run that ends normally, if a tool that outlived an earlier run ends before the finally clause. |
| LineFraming.FramingUnique | packages/agent/src/proxy.ts:192-193 | Newline-terminated lines and a tail without newline are recovered from their concatenation, so there is only one such decomposition. |
| LineFraming.LinesOfConcat | packages/agent/src/proxy.ts:191-193 | The lines of a text cut in two are the lines of the first part followed by those of its tail joined to the rest. |
| LineFraming.SplitLines | packages/agent/src/proxy.ts:192-193 | Splitting a buffer and popping the last part gives its complete lines and its unterminated tail. |
| LineFraming.FedIsWhole | packages/agent/src/proxy.ts:183-207 | Feeding chunk by chunk handles exactly the complete lines of the whole text, in order, and leaves its tail in the buffer. |
| LineFraming.ReadLoop | packages/agent/src/proxy.ts:181-207 | The buffer loop is the fold of its chunks, and handles exactly the complete lines of the whole text. |
| LineFraming.ChunkingInvariance | packages/agent/src/proxy.ts:181-207 | Fed chunk by chunk, two chunkings of one text have handled the same lines and hold the same tail. |
| ProxyPartial.Client.Process | packages/agent/src/proxy.ts:238-367 | Throws exactly when the event does not fit its block, and then leaves the message as it was; else changes it as specified and passes on the event with the completed block, except for unknown events and stray toolcall_ends. |
| ProxyTheorems.ThrowsExactly | packages/agent/src/proxy.ts:238-367 | An event throws if and only if it is a delta, or the end of text or thinking, with no block of its own kind at its index. |
| ProxyTheorems.ChangesExactly | packages/agent/src/proxy.ts:246-349 | An event that fits changes the block at its index as its kind says, and nothing else; arguments are the parse of all JSON received, or none if that fails. |
| ProxyTheorems.SettlesExactly | packages/agent/src/proxy.ts:351-360 | Only done and error set stop reason, usage and error message, and done leaves an earlier error message. |
| ProxyTheorems.PassesExactly | packages/agent/src/proxy.ts:238-367 | Of the events that fit all but unknown ones and stray toolcall_ends are passed on, and the ends carry the block as it then stands. |
| ProxyTheorems.LastSettles | packages/agent/src/proxy.ts:351-360 | Over a whole log the last done or error decides stop reason and usage. |
| ProxyPartial.BlocksAreIndependent | packages/agent/src/proxy.ts:238-367 | In a log that replays, every block is what the events of its own index make of it. |
| ProxyPartial.ReplaysIfBlocksDo | packages/agent/src/proxy.ts:238-367 | A log replays without throwing if and only if the events of each index do by themselves. |
| ProxyPartial.DeltaAfterEnd | packages/agent/src/proxy.ts:320-344 | After start and end of a tool call a further delta leaves the block with "undefined" plus the delta as its JSON, and the arguments read from that. |
| ProxyPartial.StartForgets | packages/agent/src/proxy.ts:246-318 | A start event erases whatever its index held. |
| ProxyPartial.LatestBlockCounts | packages/agent/src/proxy.ts:238-367 | Whatever replayed earlier at an index, earlier starts included, its block is what the sender has of the block started there last. |
| ProxyPartial.ReplayEqualsOriginal | packages/agent/src/proxy.ts:238-367 | For any interleaving, cut off anywhere, in which indices may be started anew any number of times, the client holds at every index exactly what the sender has of the block started there last: its concatenated deltas, arguments parsed from that concatenation, signature and clean-up at the end. |
| ProxyPartial.StreamProxy | packages/agent/src/proxy.ts:181-224 | The rebuilt message, the events pushed to the consumer and the failure, with the error event that ends it, depend on the text alone, not on how it was cut into chunks. |
| ProxyTheorems.StopsAtFirstFailure | packages/agent/src/proxy.ts:195-224 | The stream fails at the first line whose data cannot be read or whose event does not fit: everything before counts, the failure is recorded in the message and pushed last, and later lines are not looked at. |
| ProxyTheorems.PayloadExactly | packages/agent/src/proxy.ts:196-199 | A line carries data if and only if it starts with the prefix and is not blank after it, and the data is trimmed. |
| ProxyTheorems.CarriedIsPayload | packages/agent/src/proxy.ts:196-199 | Whatever trimmed data a line carries between white space is what it is read as. |
| ProxyPartial.ConsumeIsReplay | packages/agent/src/proxy.ts:195-206 | A readable text whose events fit is consumed as the replay of these events, and each event is pushed as it is passed on. |
| ProxyPartial.LogIsPassedOn | packages/agent/src/proxy.ts:195-206 | The events pushed are those received, in order, with only unknown events and toolcall_ends ever missing. |
| ProxyPartial.SentBlocksArrive | packages/agent/src/proxy.ts:181-207 | End to end: any chunking of a text carrying a sender's interleaved blocks, restarted at will, rebuilds the blocks started last and no others, and pushes the events in order. |
| TranscriptPacker.Pack | scripts/session-transcripts.ts:196-241 | The files partition the transcripts in order and without gaps, each within the limit or one oversized transcript alone, numbered consecutively, and no such partition has fewer files. |
| TranscriptPacker.JoinedHead | scripts/session-transcripts.ts:196-241 | The text of a file begins with its first transcript, a blank line and then the rest, so the transcripts stand in order. |
| TranscriptPacker.StaysAhead | scripts/session-transcripts.ts:196-241 | File by file the greedy packing has packed at least as much as any other. |
| TranscriptPacker.SaturatedIsMinimal | scripts/session-transcripts.ts:196-241 | A packing no file of which could have taken the next transcript is minimal. |
| CatalogueSwap.Package.StageData | packages/ai/scripts/generate-models.ts:2573-2586 | The staged directory holds every data file and the manifest if and only if no operation failed. |
| CatalogueSwap.Package.InstallShards | packages/ai/scripts/generate-models.ts:2612-2640 | Without a failure the shards are the new ones, stale ones are gone and the aggregator is new; files of other kinds are never touched. |
| CatalogueSwap.Package.SwapData | packages/ai/scripts/generate-models.ts:2644-2653 | The data directory is the staged one if no step failed and the old one, or its absence, otherwise. |
| CatalogueSwap.Package.RestoreGeneratedCatalog | packages/ai/scripts/generate-models.ts:2596-2604 | Shards and aggregator are as remembered, whatever a failed run left. |
| CatalogueSwap.Package.Install | packages/ai/scripts/generate-models.ts:2573-2665 | All or nothing: all new if and only if no forward operation failed, else shards, aggregator and data as before, even after a torn write; the staging directory is gone either way. |
| CatalogueData.FirstIsFirst | packages/ai/scripts/generate-models.ts:2513-2524 | The model kept for a provider and id is the first listed with them. |
| CatalogueData.Deduplicate | packages/ai/scripts/generate-models.ts:2513-2524 | The nested records hold exactly the first model of every provider and id, and every provider that has one. |
| CatalogueData.GroupByApi | packages/ai/scripts/generate-models.ts:2545-2561 | One group per API in use, holding exactly its models, and the structure records every model's API. |
| CatalogueData.GroupThenFlatten | packages/ai/src/model-catalog.ts:22-27 | Flattening the groups, in any order, gives back the catalogue that was grouped. |
| CatalogueData.ReadProviderStructure | packages/ai/scripts/model-data.ts:61-76 | Succeeds if and only if every group is an object, no id repeats and there is a model, and then records every id under its API; otherwise it names a group that is no object or an id that repeats, or there is no model. |
| CatalogueData.RereadGroups | packages/ai/scripts/model-data.ts:61-76 | Reading back a file that holds the groups of a non-empty catalogue, in any order, succeeds and returns the structure recorded when they were grouped. |
| CatalogueValidation.ValidateModelValue | packages/ai/scripts/model-data.ts:133-178 | No error if and only if the value is a complete model with the expected id, provider and API. |
| CatalogueValidation.ValidateProvider | packages/ai/scripts/model-data.ts:236-263 | No error if and only if the groups are objects, no id repeats, every value is good and ids and APIs are as recorded. |
| CatalogueValidation.ValidateManifest | packages/ai/scripts/model-data.ts:196-223 | No error if and only if the manifest is an object with the right schema, a timestamp that parses as a date, the right structure stamp and hashed file names; each of these problems is reported exactly if it is there. |
| CatalogueValidation.ValidateDirectory | packages/ai/scripts/model-data.ts:186-268 | No error if and only if the directory exists with exactly the expected files, and the manifest and every file are good. |
| CatalogueValidation.ValidatedProviderIsExact | packages/ai/scripts/model-data.ts:225-263 | A provider that validates holds exactly the expected ids, each once, each with matching id, provider and API. |
| Headers.MergeHeaders | packages/ai/src/models.ts:202-216 | The nested loops over the edited object compute `Merge`, insertion order included. |
| Headers.MergeOverrides | packages/ai/src/models.ts:202-216 | A merge is the right-biased override of both objects read as maps keyed by folded name; null suppressors are kept. |
| Headers.MergeExactly | packages/ai/src/models.ts:202-216 | Absent if and only if both are; else what is kept of the base in its order followed by what is added from the override in its order, each name meaning what the override says or else what the base says, an absent object saying nothing. |
| Headers.MergeKeepsCaseUnique | packages/ai/src/models.ts:202-216 | Names stay case-unique if they are in the base, whatever the override spells. |
| Headers.MergeIsAssociative | packages/ai/src/models.ts:202-216 | Merging is associative on all inputs, absent ones and insertion order included, so layers may be grouped either way. |
| ModelOverlay.CurrentModels | packages/ai/src/models.ts:561-569 | The list is the baseline in order with each id overridden by the last dynamic model, then every new id once in order of first appearance. |
| ModelOverlay.OverlayIsUnique | packages/ai/src/models.ts:561-569 | That description determines the list. |
| ModelOverlay.OverlayIsUniqueById | packages/ai/src/models.ts:561-569 | Ids in the list are unique if and only if they are in the baseline. |
| ModelOverlay.OverlayOverrides | packages/ai/src/models.ts:561-569 | Read as maps by id, with unique baseline ids, the list is the baseline overridden by the dynamic models. |
| ProviderRefresh.AlwaysSingleFlight | packages/ai/src/models.ts:596-616 | Under every interleaving of calls and completions at most one refresh runs, its promise is the shared one, and what it writes to the store is what is listed. |
| ProviderRefresh.ListIsLastDelivered | packages/ai/src/models.ts:596-616 | After any run the dynamic list is empty or exactly what the last delivery brought: the stored models of this provider or a completely fetched, not aborted list. |
| ProviderRefresh.StuckExactly | packages/ai/src/models.ts:596-616 | The slot holds a promise while no refresh runs if and only if some refresh was started whose store read threw outright; it then stays so for good. |
| ProviderRefresh.FetchesExactly | packages/ai/src/models.ts:596-616 | A read that succeeds is followed by a fetch if and only if the call that started the refresh allowed the network and no abort is seen; otherwise the refresh has ended and its promise is no longer shared. |
| ProviderRefresh.GoesOnExactly | packages/ai/src/models.ts:596-616 | A complete fetch is followed by the write of that list if and only if no abort is seen; a failed read or fetch and a finished write end the refresh. |
| ProviderRefresh.CallsShare | packages/ai/src/models.ts:596-616 | A call starts a refresh exactly if none is shared, and events of other refreshes change nothing. |
| ProviderRefresh.OfProviderExactly | packages/ai/src/models.ts:601-604 | Of a stored list exactly the provider's models are listed, each as often as stored. |
| ProviderRefresh.OfProviderKeepsOrder | packages/ai/src/models.ts:601-604 | They keep the stored order. |
| ProviderRefresh.Provider.RefreshModels | packages/ai/src/models.ts:596-616 | The call shares the promise in flight and changes nothing, or starts a refresh, as the model prescribes. |
| ProviderRefresh.Provider.ContinueAfterRead | packages/ai/src/models.ts:600-606 | From the answer of the store on: the stored models of this provider are listed, and the refresh fetches or ends. |
| ProviderRefresh.Provider.ContinueAfterFetch | packages/ai/src/models.ts:607-610 | From the fetched list on: an abort discards it, otherwise it is listed and written. |
| ProviderRefresh.Provider.GetModels | packages/ai/src/models.ts:561-569 | The list returned overlays the baseline with the current dynamic models. |
| Pricing.BestExists | packages/ai/src/models.ts:639-648 | There is a best tier, the first among those with the highest threshold below the input tokens, if and only if some tier applies. |
| Pricing.SelectRates | packages/ai/src/models.ts:639-648 | One pass finds the rates of the best tier, or the base rates if none applies. |
| Pricing.Usage.CalculateCost | packages/ai/src/models.ts:639-659 | The whole request is charged at the selected rates, one-hour cache writes at twice the input rate, the total is the sum of the four parts, and nothing is negative when rates and counts are not and one-hour writes are among the cache writes. |
| Pricing.OrderDoesNotMatter | packages/ai/src/models.ts:639-648 | With distinct thresholds any permutation of the tiers selects the same rates. |
| Pricing.EqualThresholdsFollowOrder | packages/ai/src/models.ts:639-648 | With equal thresholds the tier listed first wins, so distinctness is needed. |
| ThinkingLevels.SupportedExactly | packages/ai/src/models.ts:663-672 | Off alone for a model that does not reason; else every level mapped to a value, and of those not mentioned all but the two highest. |
| ThinkingLevels.ClampThinkingLevel | packages/ai/src/models.ts:674-693 | The two searches over the list of levels compute `Clamp`. |
| ThinkingLevels.ClampIsNearest | packages/ai/src/models.ts:674-693 | The least supported level at or above the request, else the greatest below it, else off. |
| ThinkingLevels.ClampIsMonotone | packages/ai/src/models.ts:674-693 | Asking for more never gives less, for every model. |
| ThinkingLevels.ClampIsIdempotent | packages/ai/src/models.ts:674-693 | A clamped level stays as it is, also when nothing is supported. |
| ThinkingLevels.UnknownGetsLeast | packages/ai/src/models.ts:681-682 | A request that is no level gets the least supported one, or off. |
| ThinkingLevels.ClampIsSupported | packages/ai/src/models.ts:663-693 | The answer is supported unless nothing is, which happens exactly to reasoning models that exclude every level. |

## Left out

- Wording of errors: the texts of error results, validation problems and failures are constructors, not strings.
- Message content beyond what the loop looks at: timestamps, usage totals, images, the system prompt, and the switch of model or thinking level between turns.
- `transformContext`, `convertToLlm`, `getApiKey` and the request itself: they shape what the provider is sent, not what the loop does with the answer.
- Hooks that mutate the context or messages they are handed, and aliasing of a replacement context with the loop's own arrays; a replacement is a value here.
- The nine kinds of content event of a provider stream are one kind of update; each carries the partial message as in the source.
- Delivery of events to the agent while the loop runs: `Agent` reduces the recorded events after the loop has returned, which no part of the loop can observe.
- Clearing queues, `reset`, and changes of the queue mode other than before a poll.
- The event protocol on the agent's failure path, apart from its agent_end events: the code itself breaks it there.
- Aborts inside `streamProxy`, failing requests, UTF-8 decoding, and the properties of `JSON.parse` and `parseStreamingJson`, which are arbitrary functions.
- SHA-256, date and JSON parsing and file reading in the validator: the first two are arbitrary functions, parsed files are inputs.
- JavaScript object peculiarities: integer-like property names that change enumeration order, `__proto__`, and names inherited from `Object.prototype` (a model with the id `constructor` would be taken for one already present by the lookup at `packages/ai/scripts/generate-models.ts:2521`).
- The text of generated shards and of the aggregator, sorting of names, console output, and the model fetchers and metadata tables before `packages/ai/scripts/generate-models.ts:2513`.
- `ModelsImpl`, credential resolution, `EventStream`, `lazyStream` and `validateToolArguments`.
- The image model registry, the command-line application, the MCP adapter and the statistics scripts: they would add only easy members.
- CatalogueValidation.ValidateModelValue: states whether there are problems, not which, because the wording of the list is what tells them apart; likewise for the other files, but not for the manifest.
- Pricing.Usage.CalculateCost: does not model floating-point rounding, because money is over reals here.
- Lifecycle.Runs.RunWithLifecycle: does not model the signal and the idle promise, which the state never depends on.
