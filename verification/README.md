# Zest agent core: a Dafny model

The repository runs LLM agents. Everything an agent does is an event in an append-only log; the log is
turned into the messages of the next LLM call, shown to clients over a websocket, and posted to
webhooks. This project models the parts where that can go wrong and proves what they keep.

**From the log to the LLM.** `Events.dfy` has the event kinds. `View.dfy`, `Condenser.dfy`,
`FromEvents.dfy` and `Manipulation.dfy` model `View` and `Condensation`: which events are visible after
condensations, the three filter passes that keep tool calls paired and LLM batches whole, and the
indices at which history may be cut. `Messages.dfy` turns a view into messages. The filter is shown to be
a greatest fixpoint, the cut points are characterised exactly, and a condensation between two cut points
removes exactly its slice.

**The agent's protocol.** `Unmatched.dfy` has the two scans for pending actions. `Session.dfy` describes
one agent's log, status, hook blocks and tool invocations as a value, and every operation on it as a
function; `SessionInvariant.dfy` has the invariant and `SessionSafety.dfy` what holds at an LLM call and
after a rejection.

**With other threads.** A step takes the runner's lock; rejecting, answering a review and pausing take
the conversation's. So `Interleaved.dfy` has every operation in stretches: after each publication, and
while a tool or the LLM works, anything of theirs can land. `InterleavedInvariant.dfy` proves the
invariant of every reachable session nevertheless, `InterleavedSafety.dfy` which promises survive and
exactly when the others fail, `Recording.dfy` that what reaches the agent is in its log as it came,
`Confirmation.dfy` when a session waits and what is pending then, `Execution.dfy` what executing actions
and a step do, and `SessionViews.dfy` what the LLM sees over a whole history of condensations.
`RunLoop.dfy` describes a whole run with everything that comes between its turns, the turns of other runs
on the same runner included, with the stop hook, the stuck detector and the iteration cap;
`HeldBatches.dfy` says which turns execute an action that is stored. `Runner.dfy` is the class whose
methods do these things step by step to fields, each proved against its function. `Restart.dfy` is the
recovery after a crash, also from between two publications.

**Around it.** `EventCenter.dfy` (publish and subscribe through an index of string keys), `Paging.dfy`
(search and page iterator over a growing log), `Replay.dfy` (websocket replay and the client's store),
`RunTasks.dfy` (background runs of a service), `Webhook.dfy` (queue, timer, retries, cancellation),
`Chains.dfy` (chains with early stop, branches and parallel parts) and `StructuredDiff.dfy` (tree diff).

Where the original updates objects there is a class or a method with loops, and its contract equates the
new state with a specification function; the lemmas are about those functions. Concurrency is modelled as
a state machine whose steps are the stretches between two awaits, between two publications, or between
two acquisitions of the lock.

## What the code does that one would not expect

Each point is a lemma below; the model does what the code does. Where a promise fails, the lemma gives the
condition under which it holds.

- An `AgentErrorEvent` does not settle an action for `RunnerContext.get_unmatched_actions`: the next step
  executes the action again (`FailedActionsStayPending`), also after the user rejected what
  `AgentState.get_unmatched_actions` listed (`RejectionSettlesUnanswered`).
- An action that is rejected while a step is under way is executed all the same, exactly if its answer
  came after the step had taken its list and before it got to it (`AnsweredYetInvokedExactly`,
  `RejectedYetInvoked`); its result is then a second answer (`SecondAnswerExactly`).
- A batch that needs confirmation does not always stop its run: it does exactly if no pause, no reset to IDLE
  and no other run's error lands when WAITING is published (`StepWaitsExactly`, `BatchStopsRunExactly`).
  Rejecting the batch makes such a reset before it stores an answer, and the run's own next turn can then
  execute the batch (`ResetBatchIsExecuted`).
- So a stored batch is executed without a new call of `run` exactly by a step, of its own run or of another
  live one, that gets to an action of it: still pending, unblocked and with its tool there
  (`HeldBatchExecutedExactly`, `StoppedBatchExecutedExactly`). And other runs can keep a run that is denied
  going (`RunBounds`).
- The last step that `max_iterations` allows decides: FINISHED, and a pause, are replaced by ERROR
  (`LastStepFails`).
- The LLM condenser takes the summary's offset from the filtered view, but `Condensation.apply` inserts it
  into the unfiltered list. It lands at the cut exactly when the filters removed nothing before it
  (`SummaryLandsAtCut`), and there is a log where it does not (`SummaryCanMissTheCut`). Such a log comes
  about only by a crash or by a late second answer: in every history in which condensations cut at cut
  points and answers from outside go to unanswered actions, the filters drop nothing at an LLM call and
  every summary lands at its cut (`ViewIsWholeAtLLM`, `SummariesLandAtTheirCuts`).
- The restart error is published without an agent id, while the consumer that writes the log is registered
  for one agent. So it never reaches the log and the pending actions are unchanged, although the comment at
  the scan says the error is there for this case (`RestartLosesFirst`).
- A crash between two publications leaves marks of its own: a batch that the LLM never sees
  (`UnsettledBatchIsNotSeen`), a blocked action that is executed (`CrashUnblocks`), a tool called twice
  (`CrashRepeats`), a blocked message that is answered (`CrashAnswersBlockedMessage`).
- Paging with a limit of zero never ends on a non-empty list (`EndsUnlessLimitIsZero`).
- Broadcast callbacks are conversation-level consumers and are dispatched before the agent-level consumer
  that stores the event; they are scheduled on another loop, so neither order is certain. Exactly-once
  replay holds if storing comes first; otherwise an event is missed exactly as `MissedExactly` says.
- `send_message(run=True)` starts runs that `_run_task` does not track (`MessageRunsPileUp`); a second run
  becomes active exactly as `SecondRunExactly` says.
- A webhook timer cancelled in the middle of its post drops its batch (`BatchCanBeDropped`), and events can
  be left with no timer and no post (`EventCanBeStranded`), exactly by the steps `StrandedExactly` names.
- A merging parallel step can lose the flag of a branch that stopped (`MergingCanLoseFlag`): it does exactly
  if the last later branch whose own state has that key has another value there (`FlagSurvivesExactly`).
- Clearing a conversation whose id is a prefix up to a colon clears others (`ColonsBreakClearing`), exactly
  as the ids say (`ClearingSparesExactly`).
- The filter that picks consumers compares ids as printed, so it accepts one that names the word None where
  the event has no id; such a consumer is not delivered to all the same (`DeliveryIsTheScan`,
  `NoneIsMistaken`).
- With repeated tool call ids one round of the filters can leave an action without its result
  (`SharedCallIdsNeedMoreThanOneRound`), exactly if an action it keeps shares its call with one that is gone
  (`OneRoundIsEnoughExactly`).
- The string `"<missing>"` makes a structured diff ambiguous (`MarkerIsAmbiguous`).
- A message that combines several actions drops the reasoning item of the first, and no other message does
  (`ReasoningItemKeptExactly`).

## Model

| member | source | states |
|---|---|---|
| View.BatchFromEvents | zest-agent-server/zest-sdk/sdk/context/view.py:46-67 | the loop builds the batch maps of the log |
| View.BatchesGroupActions | zest-agent-server/zest-sdk/sdk/context/view.py:46-67 | a response is a key exactly if the log has an action of it, and its list holds exactly the ids of those actions |
| View.CallsOfActions | zest-agent-server/zest-sdk/sdk/context/view.py:46-67 | the tool call recorded for an id is the one of the action with that id, and only ids of actions are recorded |
| View.EnforceBatchAtomicity | zest-agent-server/zest-sdk/sdk/context/view.py:266-309 | the loop over batches removes exactly the actions of the responses that lost an action |
| View.FilterUnmatchedToolCalls | zest-agent-server/zest-sdk/sdk/context/view.py:311-370 | the code's three passes compute Filtered |
| View.OneRoundIsEnoughExactly | zest-agent-server/zest-sdk/sdk/context/view.py:311-370 | for any view, unique call ids or not: in the result every action has a result event, every result its action, and every batch is whole, exactly if no action the atomicity pass keeps shares its call with one gone by then |
| View.FilteredIsStable | zest-agent-server/zest-sdk/sdk/context/view.py:311-370 | with unique tool call ids, in the result every action has a result event, every result its action, and every batch of the log is all in or all out |
| View.FilteredIsGreatest | zest-agent-server/zest-sdk/sdk/context/view.py:311-370 | every sub-view with these properties is contained in the result: one round is a greatest fixpoint |
| View.FilteredUnique | zest-agent-server/zest-sdk/sdk/context/view.py:311-370 | the result is the events of the greatest such sub-view, in the order of the view |
| View.FilteredIdempotent | zest-agent-server/zest-sdk/sdk/context/view.py:311-370 | filtering twice is filtering once |
| View.EnforceFirstIsRedundant | zest-agent-server/zest-sdk/sdk/context/view.py:478-479 | the extra atomicity pass of from_events changes nothing |
| View.SharedCallIdsNeedMoreThanOneRound | zest-agent-server/zest-sdk/sdk/context/view.py:311-370 | for one, if two actions share a tool call id, one round can leave an action without its result |
| Manipulation.GroupActions | zest-agent-server/zest-sdk/sdk/context/view.py:117-127 | the grouping loop lists the positions of each response's actions, responses in order of first action |
| Manipulation.ManipulationIndices | zest-agent-server/zest-sdk/sdk/context/view.py:89-242 | the result is strictly increasing, and an index is in it exactly if it is interior neither to a batch with its results nor to a tool loop |
| Manipulation.FindNextManipulationIndex | zest-agent-server/zest-sdk/sdk/context/view.py:409-425 | the smallest cut point at or above the threshold, or the threshold if it lies beyond the end |
| Manipulation.EndsAreCutPoints | zest-agent-server/zest-sdk/sdk/context/view.py:89-110 | 0 and the length are always cut points |
| Manipulation.CutPointsKeepUnits | zest-agent-server/zest-sdk/sdk/context/view.py:138-242 | no cut point separates two actions of a batch, or an action from a later result with its tool call id |
| Manipulation.WithoutThinkingExactly | zest-agent-server/zest-sdk/sdk/context/view.py:138-242 | if no batch opens with thinking blocks, an index is a cut point exactly if no action before it is joined to an action or result of the same response at or after it |
| Manipulation.ToolLoopsAreUncut | zest-agent-server/zest-sdk/sdk/context/view.py:168-231 | from the start of a thinking batch to a later action there is no cut point, if only actions and results lie between |
| Manipulation.OtherEventsStandAlone | zest-agent-server/zest-sdk/sdk/context/view.py:190-201 | a message, a prompt, a summary, whatever is neither an action nor a result, ends every tool loop: it can be cut off on both sides exactly if it lies inside no batch |
| FromEvents.UnhandledCondensationRequestExists | zest-agent-server/zest-sdk/sdk/context/view.py:427-441 | true exactly if some request has no condensation after it |
| FromEvents.ViewFromEvents | zest-agent-server/zest-sdk/sdk/context/view.py:443-487 | the loop with the filters gives the view events, the request flag and the condensations of the log |
| FromEvents.StoredVisibleExactly | zest-agent-server/zest-sdk/sdk/context/view.py:443-476 | before the filters, a stored event is visible exactly if it is an action, a result, a message or a system prompt and no later condensation forgets it |
| FromEvents.SummaryVisibleExactly | zest-agent-server/zest-sdk/sdk/event/condenser.py:83-96 | and a summary, with its text, exactly if its condensation has an offset and no later one forgets it |
| FromEvents.VisibleInLogOrder | zest-agent-server/zest-sdk/sdk/context/view.py:443-476 | the visible stored events have the order of the log, wherever summaries are inserted |
| FromEvents.ViewIsGreatestStable | zest-agent-server/zest-sdk/sdk/context/view.py:443-487 | the view of a stored log is the greatest stable part of its visible events, in order |
| FromEvents.CuttingAtSafePoints | zest-agent-server/zest-sdk/sdk/event/condenser.py:83-96 | after a condensation that forgets the view between two cut points, the view is exactly the old one without that slice, with the summary inserted; the filters remove nothing else |
| FromEvents.SummaryLandsAtCut | zest-agent-server/zest-sdk/sdk/context/condenser/llm_summarizing_condenser.py:240-253 | with the offset that the LLM condenser computes, the summary stands at the cut exactly if the filters removed nothing before it |
| FromEvents.SummaryCanMissTheCut | zest-agent-server/zest-sdk/sdk/event/condenser.py:83-96 | after an action without a result, a condensation that forgets the second of two messages puts its summary before the first |
| Messages.EventsToMessages | zest-agent-server/zest-sdk/sdk/event/base.py:50-85 | the while loop ends and gives one message per run of actions of one response, or the assertion failure |
| Messages.RunsAreMaximal | zest-agent-server/zest-sdk/sdk/event/base.py:59-78 | the runs cover the events in order and no two neighbours belong to the same response |
| Messages.MessagesKeepToolCalls | zest-agent-server/zest-sdk/sdk/event/base.py:50-108 | there is one message per run, and the tool calls of all messages together are those of the events, in order |
| Messages.MessagesKeepParts | zest-agent-server/zest-sdk/sdk/event/llm_convertible/observation.py:46-52 | in each role the messages say, in order, exactly what the events say: every result, rejection and error is a tool message that answers its call, thoughts and agent messages are the assistant's, user messages and summaries the user's, prompts the system's |
| Messages.ResponseMessage | zest-agent-server/zest-sdk/sdk/event/base.py:88-108 | the message of a response has thought, reasoning and thinking blocks of its first action and the tool calls of all; no other message has any of these |
| Messages.MessagesFailExactly | zest-agent-server/zest-sdk/sdk/event/base.py:88-97 | the conversion fails exactly if an action has a thought and follows one of its own response |
| Messages.ViewMessagesNeverFail | zest-agent-server/zest-sdk/sdk/event/base.py:88-97 | on the view of a log in which only the first action of a response has a thought it never fails, condensed or not |
| Messages.PromptIsPaired | zest-agent-server/zest-sdk/sdk/event/base.py:50-108 | in the prompt made from any stored log every tool call is answered by a later tool message with its id, and every tool message answers an earlier call |
| Messages.ReasoningItemKeptExactly | zest-agent-server/zest-sdk/sdk/event/base.py:88-108 | over a whole conversion, the message of a response keeps the reasoning item of its first action exactly if it has one action or there is no item |
| Unmatched.RunnerUnmatchedActions | zest-agent-server/zest-sdk/sdk/agent/runner_context.py:292-317 | the reverse scan returns the pending actions |
| Unmatched.StateUnmatchedActions | zest-agent-server/zest-sdk/sdk/agent/agent_state.py:541-580 | the reverse scan with the extra set returns the unanswered actions |
| Unmatched.PendingIsKeep | zest-agent-server/zest-sdk/sdk/agent/runner_context.py:292-317 | the runner's result is, in log order, exactly the executable actions without a later observation or rejection |
| Unmatched.ScansDifferByErrors | zest-agent-server/zest-sdk/sdk/agent/agent_state.py:541-580 | the state's result is a subsequence of the runner's, and they differ exactly on the actions whose tool call has a later error |
| Confirmation.PendingAfterReply | zest-agent-server/zest-sdk/sdk/agent/agent.py:340-360 | a stored reply adds exactly its executable actions to the pending ones, in order, but for those answered by then, whatever lands in between |
| SessionInvariant.PendingIsOpen | zest-agent-server/zest-sdk/sdk/agent/runner_context.py:292-317 | in a reachable log the pending actions are exactly the executable ones without any answer |
| SessionSafety.AllAnsweredAtLLM | zest-agent-server/zest-sdk/sdk/agent/agent.py:246-270 | when a step gets to the LLM call, every action of a session with the invariant has a later result with its tool call id |
| SessionSafety.ViewIsCompleteAtLLM | zest-agent-server/zest-sdk/sdk/agent/agent.py:266-278 | and without condensations the view keeps every convertible event: the filters lose nothing |
| SessionSafety.MessagesNeverFail | zest-agent-server/zest-sdk/sdk/agent/agent.py:341-357 | the conversion of the view to messages never fails, in a session left by a crash neither |
| SessionSafety.PromptIsPairedAlways | zest-agent-server/zest-sdk/sdk/agent/agent.py:266-290 | so is every prompt of a session, whatever has happened in it |
| SessionSafety.PromptIsWholeAtLLM | zest-agent-server/zest-sdk/sdk/agent/agent.py:266-290 | and when nothing has been condensed, the prompt of an LLM call has the tool call of every action of the session, and its result later |
| Execution.ExecutionInvokes | zest-agent-server/zest-sdk/sdk/agent/agent.py:220-226 | executing a list hands to the tools, in order, exactly the actions it gets to that are unblocked and have their tool, whatever lands in between |
| Execution.StepInvokesExactly | zest-agent-server/zest-sdk/sdk/agent/agent.py:246-253 | an action stored before a step is handed to its tool in it exactly if it is pending and the step gets to it, unblocked and with its tool there |
| Execution.AllHandled | zest-agent-server/zest-sdk/sdk/agent/agent.py:220-226 | unless a tool raises, executing a list stores a result for every action, in order: the hook's reason for a blocked one, else what its tool returned or its error, whatever lands in between |
| Execution.AllHandledOnce | zest-agent-server/zest-sdk/sdk/agent/agent.py:220-226 | if no result lands in between, exactly one per action |
| Execution.UnblockedAreInvoked | zest-agent-server/zest-sdk/sdk/agent/agent.py:641-652 | unless one raises, the tools get exactly the unblocked actions, in order |
| Execution.PendingStepHandlesPending | zest-agent-server/zest-sdk/sdk/agent/agent.py:246-253 | a step with pending actions handles exactly those |
| Execution.FailedActionsStayPending | zest-agent-server/zest-sdk/sdk/agent/runner_context.py:292-317 | after such a step the same actions are pending, in order, without those answered by then: every rejected or observed one is answered, and one with an error only if an answer to it has landed |
| SessionSafety.RejectionSettlesUnanswered | zest-agent-server/zest-sdk/sdk/conversation/impl/conversation_impl.py:565-602 | the user's rejection settles exactly the unanswered actions; what the runner still finds pending has an error; no tool is called |
| Recording.RejectionIsRecorded | zest-agent-server/zest-sdk/sdk/conversation/impl/conversation_impl.py:565-602 | a rejection ends a wait and stores, in order and last in the log, one rejection with the user's reason for each action of the state's scan, and nothing else |
| Recording.AnswerIsRecorded | zest-agent-server/zest-sdk/sdk/conversation/impl/conversation_impl.py:603-644 | an answer ends a wait and is stored as the observation of the first memory review in that scan |
| Recording.NoReviewNoAnswer | zest-agent-server/zest-sdk/sdk/conversation/impl/conversation_impl.py:603-620 | without a review there it changes nothing |
| Recording.StepRecordsOutcome | zest-agent-server/zest-sdk/sdk/agent/agent.py:266-400 | a step that gets to the LLM records what it gets, whatever lands in between: the condensation, every call of the reply in order with what the LLM thought on the first only, its text, the error of a malformed call, the request for a condensation; if the condenser or the LLM fails and no condensation can be requested, it raises |
| Recording.CallIsRecorded | zest-agent-server/zest-sdk/sdk/agent/agent.py:508-624 | a tool call is stored as the LLM made it, executable exactly if it could be parsed and else followed by its error, and marked exactly if the hook blocks it |
| Recording.MessageIsRecorded | zest-agent-server/zest-sdk/sdk/hooks/conversation_hooks.py:148-182 | a user message is stored as it was said and marked exactly if the hook blocks it |
| Recording.SpeakingReopens | zest-agent-server/zest-sdk/sdk/agent/agent_runner.py:99-163 | a session that is spoken to is not FINISHED afterwards |
| Recording.DenialIsRecorded | zest-agent-server/zest-sdk/sdk/agent/agent_runner.py:200-218 | a denial of the stop hook sets the session RUNNING and stores its feedback, if it has any, as a message of the user |
| Recording.BlockedMessageIsTheLast | zest-agent-server/zest-sdk/sdk/agent/agent.py:255-264 | the message that keeps a step from the LLM is the last user message, and marked |
| Execution.FinishedExactly | zest-agent-server/zest-sdk/sdk/agent/agent.py:255-400 | a step finishes an unfinished session only if it reaches a successful finish tool with the pending actions or an unheld reply, finds the last message blocked, or gets a message with content; and then it does, unless the status is set from outside in the meantime |
| SessionSafety.BlockedMessageIsNotAnswered | zest-agent-server/zest-sdk/sdk/hooks/conversation_hooks.py:148-182 | after a user message that a hook blocks, the next step with nothing pending calls neither the LLM nor a tool, removes the mark and finishes |
| Interleaved.QuietStep | zest-agent-server/zest-sdk/sdk/agent/agent.py:229-400 | if nothing lands inside it, the step in stretches is the step in one piece |
| InterleavedInvariant.ExecuteActionInv | zest-agent-server/zest-sdk/sdk/agent/agent.py:627-698 | executing a held action keeps the invariant whatever lands in between, calls the tool unless the action is blocked or has none, and takes its mark |
| InterleavedInvariant.GetActionEventInv | zest-agent-server/zest-sdk/sdk/agent/agent.py:508-624 | storing the action of a tool call, with its error if it cannot be executed, keeps the invariant whatever lands in between, and an executable one is then held |
| InterleavedInvariant.StepInv | zest-agent-server/zest-sdk/sdk/agent/agent.py:229-400 | every step keeps the invariant: ids used once, results backed by actions, errors for what cannot be executed, hook-blocked actions unexecuted and marked or answered, whatever lands between any two of its publications |
| InterleavedSafety.ReachableInv | zest-agent-server/zest-sdk/sdk/agent/agent.py:122-176 | so every session reachable by steps, messages, rejections, reviews, pauses and status changes has it |
| InterleavedSafety.HookBlockedNeverRuns | zest-agent-server/zest-sdk/sdk/hooks/conversation_hooks.py:66-98 | in every such session an action blocked when it was published has not reached its tool, and is still marked until it has an answer |
| InterleavedSafety.NeverExecutedAgain | zest-agent-server/zest-sdk/sdk/agent/agent.py:246-253 | an action answered while no step is under way is never executed again, over any history |
| InterleavedSafety.AnsweredYetInvokedExactly | zest-agent-server/zest-sdk/sdk/agent/agent.py:220-253 | a pending action is handed to its tool although it is answered exactly if the step gets to it, finds it unblocked with its tool, and its answer was stored after the step had taken its list |
| InterleavedSafety.NewAnsweredYetInvokedExactly | zest-agent-server/zest-sdk/sdk/agent/agent.py:340-400 | the same for the actions of a reply, from the start of the step |
| InterleavedSafety.RejectedYetInvoked | zest-agent-server/zest-sdk/sdk/conversation/impl/conversation_impl.py:565-602 | which happens: a rejection that lands when the first of two pending actions gets its result does not stop the second |
| InterleavedSafety.SecondAnswerExactly | zest-agent-server/zest-sdk/sdk/conversation/impl/conversation_impl.py:590-602 | a stored answer is a second one exactly if its action has one already |
| InterleavedSafety.AtMostOneAnswer | zest-agent-server/zest-sdk/sdk/agent/agent.py:627-698 | over every history with no answer landing inside a step, and none between steps for an answered action, every action has at most one answer |
| Confirmation.StepWaits | zest-agent-server/zest-sdk/sdk/agent/agent.py:402-450 | a step turns to WAITING only for a batch that needs confirmation, none of it executed; pending are its actions in order but for those answered in the meantime |
| Confirmation.BatchIsHeld | zest-agent-server/zest-sdk/sdk/agent/agent.py:362-364 | if the batch of a reply needs confirmation the step stores it, executes none of it, pending are its actions but for those answered in the meantime, and the status is WAITING exactly if nothing takes it away when it is published |
| Confirmation.StepWaitsExactly | zest-agent-server/zest-sdk/sdk/agent/agent.py:402-450 | a step turns to WAITING exactly then |
| Confirmation.RiskyBatchIsAskedAbout | zest-agent-server/zest-sdk/sdk/agent/agent.py:402-450 | one risky action or one memory review among the actions of a reply is enough: the step hands nothing to a tool and asks, unless all there is is one action named finish or think |
| Confirmation.HarmlessBatchIsNotAskedAbout | zest-agent-server/zest-sdk/sdk/agent/agent.py:402-450 | with neither, or with such a single action, the step does not turn to WAITING |
| SessionViews.ViewIsWholeAtLLM | zest-agent-server/zest-sdk/sdk/context/view.py:443-487 | over every history in which condensations forget a slice between two cut points of the view and answers from outside go to unanswered actions, the filters drop nothing whenever a step gets to the LLM |
| SessionViews.SummariesLandAtTheirCuts | zest-agent-server/zest-sdk/sdk/context/condenser/llm_summarizing_condenser.py:240-253 | and the next summary stands exactly where its slice was |
| RunLoop.RunBounds | zest-agent-server/zest-sdk/sdk/agent/agent_runner.py:181-280 | if other runs take part in finitely many of its turns, a run ends after at most max(1, max_iterations) steps and at most steps + 1 + (turns of other runs that left FINISHED) denials, in PAUSED, STUCK, FINISHED, WAITING or ERROR; with the steps used up, in ERROR or WAITING |
| RunLoop.RunStepsExactly | zest-agent-server/zest-sdk/sdk/agent/agent_runner.py:181-238 | a run that nothing disturbs at first takes a step exactly if the session is not STUCK and, if it is FINISHED, the stop hook denies that: from IDLE, PAUSED, ERROR, WAITING and RUNNING it always does |
| RunLoop.FirstStepIsRunning | zest-agent-server/zest-sdk/sdk/agent/agent_runner.py:181-238 | and that step finds the session RUNNING |
| RunLoop.StuckRunStops | zest-agent-server/zest-sdk/sdk/agent/agent_runner.py:223-231 | if the stuck detector finds it stuck, it ends in STUCK without a step |
| RunLoop.RunEndsForAReason | zest-agent-server/zest-sdk/sdk/agent/agent_runner.py:190-280 | any run ends in ERROR only if a step raised or the steps are used up, with the error last in the log, in FINISHED only if the stop hook allows it for the session as it then is, in WAITING only after a step of its own |
| RunLoop.LastStepFails | zest-agent-server/zest-sdk/sdk/agent/agent_runner.py:243-262 | the last allowed step decides: WAITING stays, every other status it leaves is replaced by ERROR |
| RunLoop.OtherLastStepFails | zest-agent-server/zest-sdk/sdk/agent/agent_runner.py:243-262 | so does the last step of another run, and only that |
| RunLoop.RunKeepsInvAndWaits | zest-agent-server/zest-sdk/sdk/agent/agent_runner.py:166-280 | a run keeps the invariant whatever lands between and inside its turns, turns of other runs included, and if it ends in WAITING the pending actions are the batch of its last step but for those answered, none executed |
| HeldBatches.PendingExecutedExactly | zest-agent-server/zest-sdk/sdk/agent/agent_runner.py:190-238 | with something pending, what comes between two turns hands some of it to a tool exactly if it is a turn of another run that gets to its step and to an unblocked action with its tool |
| HeldBatches.OwnTurnExecutesExactly | zest-agent-server/zest-sdk/sdk/agent/agent_runner.py:233-238 | the same for the run's own turn |
| HeldBatches.NothingExecutedWithoutTurns | zest-agent-server/zest-sdk/sdk/agent/agent_runner.py:190-238 | over any interruptions without a turn of another run that gets to its step, nothing is executed |
| HeldBatches.ConfirmedBatchComesFirst | zest-agent-server/zest-sdk/sdk/agent/agent_runner.py:233-238 | running again from WAITING, the first step is the execution of exactly the pending actions |
| HeldBatches.RunInvokesExactly | zest-agent-server/zest-sdk/sdk/agent/agent_runner.py:181-280 | over a whole run, an action stored before is handed to its tool exactly if some step, of this run or of another one on the runner, gets to it: pending, unblocked and with its tool there |
| HeldBatches.BatchStopsRunExactly | zest-agent-server/zest-sdk/sdk/agent/agent_runner.py:236-262 | the step that stores a batch to be confirmed stops its run exactly if nothing takes WAITING away when it is published; otherwise the run goes on, or fails if that was its last step |
| HeldBatches.HeldBatchExecutedExactly | zest-agent-server/zest-sdk/sdk/agent/agent_runner.py:181-280 | from the step that stores such a batch on, something of it reaches a tool exactly if some later step, own or other, gets to an action of it |
| HeldBatches.StoppedBatchExecutedExactly | zest-agent-server/zest-sdk/sdk/agent/agent_runner.py:181-280 | and after the run has stopped, exactly if a turn of another run does |
| HeldBatches.ResetBatchIsExecuted | zest-agent-server/zest-sdk/sdk/conversation/impl/conversation_impl.py:565-602 | for one, a reset to IDLE when WAITING is published makes a run with nobody else around execute the batch it has just asked about |
| Runner.AgentRunner.ExecuteAll | zest-agent-server/zest-sdk/sdk/agent/agent.py:220-226 | the loop executes the actions in order until one raises |
| Runner.AgentRunner.StoreActionEvents | zest-agent-server/zest-sdk/sdk/agent/agent.py:340-360 | the loop stores all calls of a reply and collects the executable actions |
| Runner.AgentRunner.RequiresUserConfirmation | zest-agent-server/zest-sdk/sdk/agent/agent.py:402-450 | decides, and sets WAITING exactly if confirmation is needed, which is as `RiskyBatchIsAskedAbout` and `HarmlessBatchIsNotAskedAbout` say |
| Runner.AgentRunner.LastMessageBlocked | zest-agent-server/zest-sdk/sdk/agent/agent.py:255-264 | only the last user message is checked, and its mark is removed |
| Runner.AgentRunner.PrepareMessages | zest-agent-server/zest-sdk/sdk/agent/utils.py:133-184 | the prompt is the messages of the view and always exists |
| Runner.AgentRunner.TakeStep | zest-agent-server/zest-sdk/sdk/agent/agent.py:229-400 | one step with what lands in it, and the prompt exactly when the LLM is called |
| Runner.AgentRunner.RejectPendingActions | zest-agent-server/zest-sdk/sdk/conversation/impl/conversation_impl.py:565-602 | WAITING becomes IDLE, and every unanswered action gets a rejection |
| Runner.AgentRunner.RespondToMemoryReview | zest-agent-server/zest-sdk/sdk/conversation/impl/conversation_impl.py:603-644 | the first pending memory review gets its observation |
| Runner.AgentRunner.RunUntilDone | zest-agent-server/zest-sdk/sdk/agent/agent_runner.py:166-280 | the loop ends, computes Run and keeps the invariant |
| Restart.Recover | zest-agent-server/zest-service/server/event_service.py:344-359 | the recovery, with the error sent through the event center |
| Restart.RestartLosesFirst | zest-agent-server/zest-service/server/event_service.py:344-359 | wherever the server went down: after the recovery the status is ERROR, and the state's list of pending actions has lost exactly its first element if the log consumer names no agent, and is unchanged if it names one |
| Restart.RestartKeepsPending | zest-agent-server/zest-service/server/event_service.py:344-359 | what the runner finds pending, the hook marks and the invocations are unchanged |
| Restart.RestartInv | zest-agent-server/zest-service/server/event_service.py:344-359 | a session with the invariant keeps it and is not RUNNING |
| Restart.CrashBeforeError | zest-agent-server/zest-sdk/sdk/agent/agent.py:508-580 | between an action that cannot be executed and its error, the log has the action without a result, whatever else has landed |
| Restart.RestartLeavesUnsettled | zest-agent-server/zest-service/server/event_service.py:344-359 | the restart does not give it one, and neither scan lists it |
| Restart.UnsettledBatchIsNotSeen | zest-agent-server/zest-sdk/sdk/context/view.py:311-370 | as long as it has none, the view has no action of its response |
| Restart.CrashUnblocks | zest-agent-server/zest-sdk/sdk/agent/agent.py:641-652 | after a crash between taking a block mark and storing the rejection, the next step hands the blocked action to its tool exactly if it gets to it and the tool is there |
| Restart.CrashRepeats | zest-agent-server/zest-sdk/sdk/agent/agent.py:654-698 | after a crash between calling a tool and storing its result, the session keeps the invariant and the next step that gets to the action calls the tool again |
| Restart.CrashAnswersBlockedMessage | zest-agent-server/zest-sdk/sdk/agent/agent.py:255-264 | after a crash between taking the mark of a blocked message and setting FINISHED, the next step gets to the LLM |
| EventCenter.Center.BatchSubscribe | zest-agent-server/zest-sdk/sdk/event/event_center.py:215-234 | the same for each consumer in order |
| EventCenter.Center.Publish | zest-agent-server/zest-sdk/sdk/event/event_center.py:259-358 | calls, in order, the found consumers that accept the event |
| EventCenter.Center.ClearConversation | zest-agent-server/zest-sdk/sdk/event/event_center.py:366-387 | removes the conversation's key and every key with its agent prefix |
| EventCenter.KeyIsInjective | zest-agent-server/zest-sdk/sdk/event/event_center.py:79-93 | for conversation ids without a colon, equal keys mean the same conversation and agent |
| EventCenter.CallsRepresent | zest-agent-server/zest-sdk/sdk/event/event_center.py:195-257 | after any sequence of calls the buckets hold exactly a flat set of consumers kept by the plain rules |
| EventCenter.DeliveryIsExact | zest-agent-server/zest-sdk/sdk/event/event_center.py:286-358 | an event reaches exactly the consumers of that set it is addressed to and whose types it has, each once |
| EventCenter.DeliveryIsByLevel | zest-agent-server/zest-sdk/sdk/event/event_center.py:286-323 | global consumers are called first, then those of the conversation, then those of the agent |
| EventCenter.SubscribingComesLast | zest-agent-server/zest-sdk/sdk/event/event_center.py:195-213 | and within a bucket in the order of subscription |
| EventCenter.DeliveryIsTheScan | zest-agent-server/zest-sdk/sdk/event/event_center.py:100-152 | which is a scan with match_event and should_handle, except for a consumer that names the word None where the event has no id |
| EventCenter.NoneIsMistaken | zest-agent-server/zest-sdk/sdk/event/event_center.py:100-152 | for one, the filter accepts a consumer of conversation "None" for an event without a conversation, and it is not delivered |
| EventCenter.ClearingSparesOthers | zest-agent-server/zest-sdk/sdk/event/event_center.py:366-387 | clearing a conversation leaves deliveries to every other unchanged, order included, and leaves it only the global consumers |
| EventCenter.ClearingSparesExactly | zest-agent-server/zest-sdk/sdk/event/event_center.py:366-387 | clearing v leaves every delivery for conversation w and agent a as it was, whoever is subscribed, exactly if w is not v, does not begin with v + ":agent:", and neither does the agent key, nor is that key v's own |
| EventCenter.ColonsBreakClearing | zest-agent-server/zest-sdk/sdk/event/event_center.py:366-387 | for one, clearing "a" clears "a:agent:b" |
| Paging.SearchEvents | zest-agent-server/zest-service/server/event_service.py:79-138 | filter, stable sort, start and page loop give the page of the sorted list |
| Paging.SortIsStable | zest-agent-server/zest-service/server/event_service.py:116-119 | the list is a sorted permutation of the filtered events in which ties keep their order, also descending |
| Paging.PageHoldsLimit | zest-agent-server/zest-service/server/event_service.py:121-138 | a page is the listed events from the one with its id on, exactly limit of them if others follow, whose first is then named as the next page, else the rest |
| Paging.UnknownPageStartsOver | zest-agent-server/zest-service/server/event_service.py:121-127 | a page id that no listed event has gives the first page |
| Paging.PageIterator | zest-common/common/utils/paging.py:50-63 | over a growing log: every event of the first listing comes out once and in order, none twice; ascending with no earlier timestamps appended, exactly the last listing |
| Paging.EndsUnlessLimitIsZero | zest-common/common/utils/paging.py:50-63 | on an unchanging log the iteration ends exactly if the limit is at least 1 or the list is empty, and then all of it has come out |
| Replay.EveryEventIsSent | zest-agent-server/zest-service/server/sockets.py:61-72 | if storing comes before broadcasting, in every interleaving all events broadcast or logged before are sent by the end of the replay |
| Replay.MissedExactly | zest-agent-server/zest-service/server/sockets.py:61-72 | in any order of storing and broadcasting and for any timestamps, a broadcast event has not been sent when the replay is over exactly if it was broadcast before the subscription and was not logged, or only after the replay had passed its place |
| Replay.UndisturbedReplay | zest-agent-server/zest-service/server/sockets.py:61-72 | subscribing, reading pages and sending lead to the end of the replay, and if nothing else happens the client has been sent exactly the listed log, in order |
| Replay.EventCanBeMissed | zest-common/common/utils/async_utils.py:45-55 | which happens if the broadcast overtakes the log |
| Replay.EventStore.AddEvent | zest-web/src/stores/useEventStore.ts:35-43 | events grows, and uiEvents stays what the arrivals make of it |
| Replay.UiIsFirstOccurrences | zest-web/src/utils/handleEventForUI.ts:5-22 | uiEvents is what arrived without the repetitions of ids |
| Replay.ReplayLeavesUi | zest-web/src/utils/handleEventForUI.ts:13-20 | a replay of events that have arrived changes nothing |
| Replay.ExactlyOnceAtTheClient | zest-agent-server/zest-service/server/sockets.py:61-72 | with storing first, the client shows every such event exactly once after the replay |
| RunTasks.AtMostOneRun | zest-agent-server/zest-service/server/event_service.py:363-391 | in every interleaving at most one background run of run() is active until its reference is cleared, and it is the tracked one |
| RunTasks.RunStartsExactly | zest-agent-server/zest-service/server/event_service.py:363-391 | run() starts a run, and refers to it, exactly if the status is not RUNNING and the run referred to is done; else nothing changes |
| RunTasks.MessageStartsExactly | zest-agent-server/zest-service/server/event_service.py:240-259 | a message starts a run exactly if the status is not RUNNING, and leaves the reference |
| RunTasks.TaskGoesThrough | zest-agent-server/zest-service/server/event_service.py:376-389 | a task gets into its loop and to its end; a tracked one clears the reference when its events are out |
| RunTasks.SecondRunExactly | zest-agent-server/zest-service/server/event_service.py:240-259 | of runs of either kind, a second becomes active exactly if one is and a message starts one while the status is not RUNNING, or run() is not refused |
| RunTasks.NeverTwoRunsExactly | zest-agent-server/zest-service/server/event_service.py:240-391 | over a whole history there are never two exactly if no step does that |
| RunTasks.MessageRunsPileUp | zest-agent-server/zest-service/server/event_service.py:240-259 | for one, any number of runs started by messages can be active at once |
| Webhook.StepAccount | zest-agent-server/zest-service/server/conversation_service.py:775-826 | every step keeps each event's balance of received against posted, queued, in flight and dropped |
| Webhook.ArrivalFlushesExactly | zest-agent-server/zest-service/server/conversation_service.py:754-765 | an event that fills the buffer is posted with all that wait, and one that does not waits behind them |
| Webhook.ClosingFlushes | zest-agent-server/zest-service/server/conversation_service.py:767-773 | closing posts all that wait |
| Webhook.TimerFlushes | zest-agent-server/zest-service/server/conversation_service.py:834-841 | so does a timer when its delay is over |
| Webhook.DeliveredAtAnyAttempt | zest-agent-server/zest-service/server/conversation_service.py:797-826 | a batch is delivered if any of its num_retries + 1 attempts succeeds, and goes back to the end of the queue if none does |
| Webhook.StepInv | zest-agent-server/zest-service/server/conversation_service.py:754-846 | only timers are cancelled, the reference is to a live timer, and the queue is shorter than the buffer until a post has failed for good |
| Webhook.EveryRunIsAccounted | zest-agent-server/zest-service/server/conversation_service.py:746-846 | in every interleaving each event is received as often as it is posted, queued, in flight or dropped, and the queue bound holds |
| Webhook.AllPostedAfterClosing | zest-agent-server/zest-service/server/conversation_service.py:746-846 | once closed, if nothing more arrives and no post fails for good then, when all coroutines have ended, everything that ever came in is posted, but for batches dropped by a cancellation |
| Webhook.EventsKeepOrder | zest-agent-server/zest-service/server/conversation_service.py:775-826 | until a post has failed for good, in every interleaving the queue is the end of what has come in and every batch under way a part of it in one piece |
| Webhook.StrandedExactly | zest-agent-server/zest-service/server/conversation_service.py:754-846 | a step leaves events with no timer and no post exactly if the last job ends and the queue is not empty then: after a post that succeeded or failed for good, or by a cancellation |
| Webhook.RunStrandsExactly | zest-agent-server/zest-service/server/conversation_service.py:754-846 | and a run does at some time exactly if some step does |
| Webhook.EventCanBeStranded | zest-agent-server/zest-service/server/conversation_service.py:764-765 | for one, an event that arrives during a timer's post gets no timer of its own |
| Webhook.BatchCanBeDropped | zest-agent-server/zest-service/server/conversation_service.py:828-833 | a batch can be dropped |
| Chains.Chain.Invoke | zest-common/common/chain/chain.py:429-475 | invoking computes the chain's result and leaves its state in the context |
| Chains.InvokeStep | zest-common/common/chain/chain.py:189-199 | a step's effect on value and context, stop included |
| Chains.InvokeBranches | zest-common/common/chain/chain.py:235-265 | the parallel step's effect: branches on copies, merged and flagged in order |
| Chains.ThenIsSequencing | zest-common/common/chain/chain.py:289-299 | a chain built by then is its first part and, only if that did not stop, its second on the output and context, executed steps concatenated |
| Chains.ExecutedIsPrefix | zest-common/common/chain/chain.py:447-473 | the executed steps are a prefix of the chain, all of it if nothing stopped |
| Chains.BranchIsInlined | zest-common/common/chain/chain.py:189-199 | a branch step is as if the taken chain stood in its place |
| Chains.ResolvingKeepsMeaning | zest-common/common/chain/chain.py:189-199 | resolving branches at every depth gives a branch-free chain with the same output, context and stop, run to its last step: a stop at any depth stops the whole |
| Chains.ParallelNeverStops | zest-common/common/chain/chain.py:235-265 | a parallel step never stops its chain, hands on every branch's output under its key, and without merging only sets the flags of the branches that stopped |
| Chains.MergedFlagExactly | zest-common/common/chain/chain.py:249-263 | with merging, a key that is no remaining branch's own flag is true at the end exactly if the last branch whose state holds it has it true, or, if none holds it, it was true before |
| Chains.FlagSurvivesExactly | zest-common/common/chain/chain.py:249-263 | so the flag of a branch that stopped survives a merging parallel step exactly if no later branch holds it or the last that does has it true |
| Chains.MergingCanLoseFlag | zest-common/common/chain/chain.py:249-263 | for one, a later branch that clears the flag takes it away |
| Chains.StopIfReachesOut | zest-common/common/chain/chain.py:349-373 | stop_if in a branch ends the outer chain with its output; in a parallel branch the outer chain goes on |
| StructuredDiff.StructuredDiff | zest-common/common/utils/pydantic_diff.py:18-65 | the recursion with its loops computes the difference |
| StructuredDiff.SameIsEqual | zest-common/common/utils/pydantic_diff.py:22-42 | the difference is empty exactly if the trees are equal |
| StructuredDiff.PatchReachesTarget | zest-common/common/utils/pydantic_diff.py:26-65 | patching a with the difference gives b exactly if b does not have the marker at a place where the trees differ |
| StructuredDiff.NoMarkerIsClean | zest-common/common/utils/pydantic_diff.py:33-37 | which holds for every a if b does not contain the marker |
| StructuredDiff.MarkerIsAmbiguous | zest-common/common/utils/pydantic_diff.py:33-37 | with the marker, adding and removing a key have the same difference |
| StructuredDiff.DiffBackwards | zest-common/common/utils/pydantic_diff.py:18-65 | the difference from b to a is the same tree with every pair swapped |
| StructuredDiff.SwappedPatchUndoes | zest-common/common/utils/pydantic_diff.py:18-65 | so the swapped difference takes b back to a, under the same condition on a |

## Left out

- LLM calls, tool executors, the condenser's decision, the confirmation policy, the stuck detector, hooks: parameters that answer with any reply, result, verdict or exception.
- Messages: system prompt building, skills, memory and hook context added to a user message, and other text formatting; contents are strings.
- Session: a tool that publishes events or changes the status itself, and sub-agents with their own logs.
- Interleaved: two stretches of the same step never overlap, and within a turn nothing lands between the loop's checks and the step's first look at the log; a rejection that lands goes to any executable action of the log, since the scan comes before the lock.
- FreshReply: the LLM gives every response and every tool call an id not used before; with repeated ids one round of the filter is enough exactly as `OneRoundIsEnoughExactly` says.
- ViewFromEvents: requires that ids identify events, as generated UUIDs do; UUIDs are modelled as numbers that are never given twice.
- HandleReply: the critic's evaluation, and the exceptions of the security analyzer.
- RunUntilDone: wall-clock times and the tracing decorators; it ends if other runs take part in finitely many of its turns.
- EventCenter: exceptions in a consumer are swallowed and count as delivered; the deprecated scope calls and the counters.
- SearchEvents: timestamps are numbers rather than ISO strings, and the filters are one predicate per event.
- PageIterator: requires a limit of at least 1, since with less the original does not end; `EndsUnlessLimitIsZero` covers the rest.
- EventsSocket: authentication, the initial state event, the receive loop, reconnection of the transport and send errors.
- RunTasks: what conversation.run does inside a task, which is RunLoop; shutting down; a tracked task that still publishes its final state does not count as active.
- WebhookSubscriber: HTTP, headers and serialization; a cancellation of a caller's own coroutine; whether the server got a post whose response was lost to a cancellation.
- Chains: exceptions in functions and predicates, predicates that change the context, metadata, and chains extended after they were put into a branch. Parallel branches get their copies of the context up front.
- StructuredDiff: normalization of models, tuples and bytes, and the printed form; trees are taken up to Python's `==`, under which `True` is 1.
- AgentState.to_dict and from_dict, storage, HTTP routers and the user interface.
