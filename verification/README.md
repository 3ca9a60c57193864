# Incident Guard: the durable agent runtime, verified

A Dafny model of Incident Guard's event-sourced agent runtime and of the code around it that must agree with it: the
event store, the run projector, the runtime that acts on nothing but its log, crash recovery, the context trimmer, the
in-memory runtime, the incident projector and the invariant checker.

## How the model is laid out

| files | content |
|---|---|
| `Events`, `Projection`, `RunModels`, `ToolPipeline` | events and responses as datatypes; the projector as a fold; the status table; preflight and the gate before a handler |
| `Runtime` | the durable runtime as a transition system: the driver's next action is a function of the log; labels for driver steps, replies, exceptions, timeouts, crashes, restarts, cancellations, submissions and operator decisions; a history of handler entries |
| `RuntimeInvariant`, `Conversation`, `DriverLemmas`, `InvariantSteps`, `RuntimeSafety`, `RuntimeRuns` | the invariant of every world, kept by every event, every driver action and every label |
| `RuntimeTheorems`, `InboxLaws`, `ProviderRequests` | what that means for every run: safety, delivery, well-formed requests |
| `Termination`, `Recovery` | the driver stops whenever provider and tools answer; where a crash is transparent, exactly |
| `LogLaws`, `ProjectorLimits` | what holds of every accepted log, and where the projector alone promises less than the runtime keeps |
| `ProjectedState`, `NextActions`, `IncidentLaws` | both projectors and the driver against the raw log: which logs are accepted, what every part of the state is, and what every action needs, read off the events without a fold |
| `EventStore`, `RunProjector`, `DurableRuntime` | the store, the projector's loop and the runtime class in imperative form; the runtime's ghost history is a run of the transition system, so every theorem about runs is one about the class |
| `ReactRuntime`, `Equivalence` | the in-memory loop over provider dictionaries, and the proof when exactly the durable runtime refines it |
| `ContextEngine`, `TrimmingTheorems`, `EventContext` | grouping, trimming and pins, in imperative form and as theorems |
| `IncidentState`, `InvariantChecker` | two independent readers of the same log |
| `ToolBatches` | concurrent batches on one tool executor: lanes, permits, order of answers, no deadlock |
| `SampleRuns` | concrete runs that reach the situations the theorems speak of |

A world of the transition system has three parts: the stored log, the place where the driver is (no process, ready,
between the two appends of one action, or at one of the two suspension points), and the list of handlers entered so
far, which nothing reads. Every label makes at most one store transaction; the only exception, an operator's rejection
followed by `run.failed`, has a label for dying in between.

## Assumptions

- One driver process per run at a time. `Recovery.RejectionRace` shows what two writers can do.
- The segments between the two suspension points (the provider's stream and the tool executor) are atomic, so others act
  only while the driver is away or suspended there.
- The registry, the policy and schema validation are fixed pure functions.
- Message ids given to the inbox are new; `ProjectorLimits.SubmissionAccepted` shows that this is exactly what is needed.
  Model call ids need not be new for any safety property; where new ids matter the theorem says so.
- An absent message id or role is replaced by the inbox before the model's `Submit`.
- Strings are sequences of characters; white space is what Python's `str.strip` removes.

## What the code does not promise

Each of these is a theorem with the exact condition, and each situation is reached by a concrete run or input.

- Messages for a next step are documented to be consumed exactly once, but those that are still pending when the run
  completes never are: a completed run has delivered exactly the ones after whose submission a step started
  (`InboxLaws.NextStepDelivery`; reached in `SampleRuns.UndeliveredAtCompletion`). Messages for a next turn are all
  delivered before completion (`InboxLaws.DeliveredOnceInOrder`).
- A crash between `turn.started` and the delivery of its messages always changes the rest of the log: the messages wait
  for the next turn (`Recovery.CrashInTurn`; `SampleRuns.CrashDelaysDelivery`).
- A result that a cancellation overtakes is lost by a crash (`Recovery.Overtaken`; `SampleRuns.CrashLosesResult`).
- A decision that names another call than the waiting one makes the runtime request the same approval again
  (`Recovery.NextAfterDecision`); the incident projector rejects the logs with such decisions and no others
  (`IncidentState.RuntimeLogsWithIncident`; both reached in `SampleRuns.MisdirectedDecision`).
- A response that reuses a call id leaves that call unanswered in every later request
  (`RuntimeTheorems.RequestsWellFormed`; `SampleRuns.ReusedCallUnanswered`).
- A run may be started, or sent a message, with the role "tool". Its context then cannot be trimmed: below its full size
  every budget is answered with the orphan error, and this is the only cause of that error when call ids are fresh
  (`ProviderRequests.TrimmedRequestsWellFormed`; `SampleRuns.ToolTextCannotBeTrimmed`).
- The durable runtime sends every message with the tool role with an error flag, also a text that a run was started with; the
  in-memory runtime sends what it was given. So the two ask alike if and only if the initial messages are given as the durable
  runtime sends them (`Equivalence.DurableEqualsInMemory`; an input in `Equivalence.ToolTextAskedDifferently`).
- The snapshot constructor accepts message sources out of order, but rejects what trimming makes of them
  (`TrimmingTheorems.RejectedExactly`, `NeverRejectedExactly`; an input in `TrimmingTheorems.DisorderedIsRejected`).
- A submission with a used message id is stored and makes the log one that no projector accepts
  (`ProjectorLimits.SubmissionAccepted`, `DurableRuntime.EventDrivenAgentRuntime.Submit`; `SampleRuns.UsedIdBreaksLog`).
- With two writers the operator's own `run.failed` can follow the driver's, and then the log is rejected, exactly when the
  rejection named the waiting call (`Recovery.RejectionRace`; `SampleRuns.RaceBreaksLog`).

## Model

| member | source | states |
|---|---|---|
| RuntimeRuns.RunsAreGood | incident_guard/agents/event_runtime.py:178-331 | the invariant of log, projection, place and entries holds after every interleaving of driver, operator, canceller, submitter, crash and restart |
| RuntimeRuns.GateAtCursor | incident_guard/agents/event_runtime.py:473-529 | for the started call the loop's and the executor's reading of the decisions agree: a call that passed preflight is let into its handler, a rejected one is refused with its preflight error |
| NextActions.NextActionExactly | incident_guard/agents/event_runtime.py:234-518 | in every state of every accepted log the driver takes an action if and only if the raw events call for it: which status, open step, response, requests, decisions, budgets and pending messages lead to each event, to the provider, to a handler, or to a halt |
| NextActions.BudgetExactly | incident_guard/agents/event_runtime.py:729-747 | the budget failure from the raw log: the sum of all tokens read and written is looked at before the number of all calls |
| NextActions.FirstDecisionExactly | incident_guard/agents/event_runtime.py:589-608 | the loop's scan finds the first decision that follows a request for the call, and nothing if and only if there is none |
| NextActions.LastDecisionExactly | incident_guard/agents/event_runtime.py:58-91 | the executor's scan finds the last decision for the call, and nothing if and only if there is none |
| NextActions.PendingExactly | incident_guard/events/inbox.py:100-123 | the pending messages of a boundary are those submitted for it and consumed nowhere in the log, in the order of submission |
| RuntimeTheorems.EveryAppendIsAccepted | incident_guard/agents/event_runtime.py:668-678 | every stored prefix of every runtime log is accepted by the projector, and each status change on the way is an edge of the transition table |
| RuntimeTheorems.CutAnywhere | incident_guard/agents/event_runtime.py:203-210 | every run can be cut after any of its labels: the process can die there and be started again, and what was stored by then is a prefix of the final log |
| RuntimeTheorems.MutationsEnteredOnce | incident_guard/agents/event_runtime.py:510-570 | a handler entered twice is a reading one: no mutating handler is entered twice, whatever crashes and restarts happen |
| RuntimeTheorems.EntriesAreApproved | incident_guard/agents/event_runtime.py:474-529 | a handler that needs approval is entered only after a request for that call and a later grant, with first and last decision both true, and a mutating one only if it was not entered before |
| RuntimeTheorems.EntriesAreProper | incident_guard/agents/tool_pipeline.py:302-392 | every handler entered in any run is that of a call as the log requested it, of a registered tool, with arguments that its schema and its lane accept and that the policy does not deny |
| RuntimeTheorems.FailuresKnown | incident_guard/agents/event_runtime.py:546-565 | in every runtime log a tool.failed with an execution error or a timeout is that of a call requested as reading |
| RuntimeTheorems.ObservationWrites | incident_guard/agents/event_runtime.py:530-565 | for a mutating call an error object with either of these codes ends the run as uncertain; any other error is a failure with its output, a success a completion with it |
| RuntimeTheorems.ExceptionWrites | incident_guard/agents/event_runtime.py:528-546 | a handler that raises ends the run as uncertain for a mutating call and fails a reading one |
| RuntimeTheorems.ResponseWrites | incident_guard/agents/event_runtime.py:391-407 | the stored response has the provider's text, stop reason, calls and input and output tokens |
| RuntimeTheorems.EndingsExactly | incident_guard/agents/event_runtime.py:296-331 | a run that is cancelled or broken off ends as uncertain with the first started mutating call if there is one |
| RuntimeTheorems.OutcomesAreKnown | incident_guard/agents/event_runtime.py:315-331 | a finished run is FAILED_UNCERTAIN if and only if some mutating call is still started |
| RuntimeTheorems.CompletedIsFinished | incident_guard/agents/event_runtime.py:333-364 | a completed run has every tool terminal, every started step completed, no pending next-turn message, and tokens and calls within the limits |
| RuntimeTheorems.BudgetsHold | incident_guard/agents/event_runtime.py:256-295 | over the whole life of a run at most max_steps steps start and at most max_tool_calls calls are requested |
| RuntimeTheorems.RequestsWellFormed | incident_guard/agents/event_runtime.py:280-290 | at every provider request each earlier call has exactly one result, directly after its message and in call order, if and only if no response reused an earlier call id |
| Conversation.WellFormedExactly | incident_guard/agents/event_runtime.py:716-727 | a request is well-formed if and only if every message with calls is followed directly by their answers, in call order and under the called names, and there are no other results |
| Conversation.FreshExactly | incident_guard/agents/event_runtime.py:409-419 | call ids are fresh if and only if no two responses have one in common |
| ProviderRequests.TrimmedRequestsWellFormed | incident_guard/agents/event_runtime.py:716-727 | with fresh call ids the context trimmed to any budget is a well-formed request within the budget with all pins; it fails only with the two budget errors for what must stay, or with the orphan error if and only if it has to be trimmed and a text message has the tool role |
| InboxLaws.DeliveredOnceInOrder | incident_guard/events/inbox.py:92-124 | in every run the delivered messages of a boundary are distinct and a prefix of those submitted for it; a completed run has delivered all next-turn messages |
| InboxLaws.DeliveryInOrder | incident_guard/events/inbox.py:100-123 | delivered followed by pending is submitted, for each boundary |
| InboxLaws.NextStepDelivery | incident_guard/agents/event_runtime.py:256-278 | a message for a next step is delivered in every run in which a step starts after its submission, and a completed run has delivered no other |
| InboxLaws.DeliveredAsSubmitted | incident_guard/events/projection.py:323-336 | in every accepted log a delivery adds exactly one message, with the submitted role and content |
| Termination.TickLowers | incident_guard/agents/event_runtime.py:237-314 | with an environment that answers, every move of the driver lowers a lexicographic rank of activity, steps left, phase, delivery, calls left, tool work and place |
| Recovery.CrashTransparency | incident_guard/agents/event_runtime.py:203-210 | with a deterministic provider and deterministic tools, a crash and restart at any point leaves the final log unchanged if and only if no next-turn delivery is under way, no mutating call is between start and result (unless its outcome will stay unknown anyway), and no result is overtaken by a cancellation |
| Recovery.ManyCrashes | incident_guard/agents/event_runtime.py:234-331 | any number of such crashes, anywhere, leaves the final log as the uncrashed run writes it |
| Recovery.CrashInTurn | incident_guard/agents/event_runtime.py:346-358 | a crash between turn.started and the delivery of its messages always changes the final log |
| Recovery.Overtaken | incident_guard/agents/event_runtime.py:238-244 | with a cancellation requested while a read tool runs, a crash always changes the final log |
| Recovery.InterruptedRejection | incident_guard/agents/event_runtime.py:94-137 | dying between a rejecting decision and run.failed loses nothing if and only if the decision names the waiting call |
| Recovery.NextAfterDecision | incident_guard/agents/event_runtime.py:478-509 | after a decision the driver starts or fails the waiting call if it is the one named, and otherwise requests the same approval again |
| Recovery.RejectionRace | incident_guard/agents/event_runtime.py:125-137 | with two writers the operator's own run.failed makes the log rejected if and only if the rejection names the waiting call |
| Recovery.HistoryIrrelevant | incident_guard/agents/event_runtime.py:234-238 | two drivers with equal logs and places write equal logs: the runtime keeps no state of its own |
| LogLaws.PrefixAccepted | incident_guard/events/projection.py:135-160 | acceptance is closed under prefixes |
| ProjectedState.AcceptedExactly | incident_guard/events/projection.py:135-390 | a log is accepted if and only if every event may follow the ones before it, as read off these events alone |
| ProjectedState.ProjectionExactly | incident_guard/events/projection.py:135-390 | every part of the projection from the raw log: status, turn, step and failure from the last event that concerns them; steps, responses, tools and inbox from the events that made them, in order, field by field |
| LogLaws.StepLaws | incident_guard/events/projection.py:189-209 | in every accepted log completed steps increase strictly, those of a turn are numbered 1 to k, and an open step is k + 1 |
| LogLaws.CompletedSteps | incident_guard/events/projection.py:291-311 | in every accepted log each completed step has exactly one response and only finished tools |
| LogLaws.LifeCycles | incident_guard/events/projection.py:240-290 | the events of each call are one request, starts, then at most one end, and the projected state is the one they lead to |
| ProjectorLimits.ForbiddenTransitions | incident_guard/events/projection.py:357-374 | exactly which accepted events change the status against the transition table |
| ProjectorLimits.TurnOverOpenStep | incident_guard/events/projection.py:168-174 | a step that is open when a turn starts is never completed, however the log goes on |
| ToolPipeline.GateFollowsPreflight | incident_guard/agents/tool_pipeline.py:302-392 | a preflight rejection is what execute returns, and a call that passes preflight enters its handler exactly with the approval it needs |
| ToolPipeline.PreflightExactly | incident_guard/agents/tool_pipeline.py:302-345 | preflight by cases on registry, schema, lane argument and policy, with the error of each; it proceeds if and only if none of them objects, and asks exactly when the policy asks |
| ToolPipeline.GateExactly | incident_guard/agents/tool_pipeline.py:333-392 | a handler is entered if and only if nobody objects and the approval that a mutating tool or an asking policy needs is given; otherwise which error is returned |
| EventStore.SQLiteEventStore.AppendBatch | incident_guard/events/event_store.py:183-256 | a batch is stored whole with the next sequences of its run, or, exactly when the run id is blank or an event id is taken, nothing changes |
| EventStore.SQLiteEventStore.Append | incident_guard/events/event_store.py:179-181 | one event, with the next sequence of its run |
| EventStore.SQLiteEventStore.Replay | incident_guard/events/event_store.py:258-277 | replay after k is the suffix of the run's stream after its first k events |
| EventStore.InterleavingsStayContiguous | incident_guard/events/event_store.py:204-252 | however batches of different runs interleave and fail, the sequences of each run are 1 to n |
| RunProjector.ProjectRun | incident_guard/events/projection.py:135-390 | the loop over local variables computes the fold, envelope checks included; what the fold is, is stated by ProjectedState.AcceptedExactly, ProjectionExactly and EventContext.MessageComesFrom |
| RunProjector.ReplayedStreamProjects | incident_guard/events/projection.py:147-158 | on what the store replays the envelope checks always pass |
| DurableRuntime.EventDrivenAgentRuntime.constructor | incident_guard/agents/event_runtime.py:143-173 | a new process over a store finds the run where earlier processes have left it, at any point of any of their runs, or an empty one |
| DurableRuntime.EventDrivenAgentRuntime.Safe | incident_guard/agents/event_runtime.py:140-141 | whatever methods have been called: no mutating handler is entered twice, a finished run is uncertain exactly when a mutation is started, the budgets hold |
| DurableRuntime.EventDrivenAgentRuntime.ProjectNow | incident_guard/agents/event_runtime.py:175-176 | replaying and folding the stored events gives the projection of the log |
| DurableRuntime.EventDrivenAgentRuntime.Append | incident_guard/agents/event_runtime.py:668-678 | the stream is accepted before and after the append, and the append is a step of the transition system |
| DurableRuntime.EventDrivenAgentRuntime.Run | incident_guard/agents/event_runtime.py:178-201 | refuses an existing run and blank roles and changes nothing then; otherwise stores the initial batch and, unless the process dies, comes to a finished or waiting run; it dies only when a call out of it is foreseen not to come back |
| DurableRuntime.EventDrivenAgentRuntime.Resume | incident_guard/agents/event_runtime.py:203-210 | refuses a missing run, leaves a finished one alone, and otherwise, unless the process dies, comes to a finished or waiting run |
| DurableRuntime.EventDrivenAgentRuntime.Drive | incident_guard/agents/event_runtime.py:234-331 | the loop terminates, by the rank, with a finished or waiting run unless the process dies at a call out of it; all it did is a run of the transition system |
| DurableRuntime.EventDrivenAgentRuntime.Round | incident_guard/agents/event_runtime.py:237-279 | one iteration writes what the log calls for at each of its appends |
| DurableRuntime.EventDrivenAgentRuntime.ActOnResponse | incident_guard/agents/event_runtime.py:292-314 | budgets, tools and the end of the step, again as the log calls for |
| DurableRuntime.EventDrivenAgentRuntime.SettleCompletedStep | incident_guard/agents/event_runtime.py:333-364 | goes on exactly for an unsettled or tool-use step; otherwise starts a turn and delivers its messages, or ends the run, with exactly these events |
| DurableRuntime.EventDrivenAgentRuntime.StartStep | incident_guard/agents/event_runtime.py:257-278 | writes the deliveries of all pending next-step messages and the start of the step, and nothing else |
| DurableRuntime.EventDrivenAgentRuntime.GenerateResponse | incident_guard/agents/event_runtime.py:280-290 | the last event is the response that the provider gave, unless the run is being cancelled; exceptions and timeouts end the run |
| DurableRuntime.EventDrivenAgentRuntime.EnsureToolRequests | incident_guard/agents/event_runtime.py:409-431 | afterwards every call of the response has a record, and each request was the one the log called for |
| DurableRuntime.EventDrivenAgentRuntime.ExecuteCurrentTools | incident_guard/agents/event_runtime.py:433-570 | works on the tools as they were when the loop began, yet does at each of them what the current log calls for; going on, every tool is finished |
| DurableRuntime.EventDrivenAgentRuntime.LaunchTool | incident_guard/agents/event_runtime.py:446-518 | a requested call is rejected, or waits, or fails the run, or is started |
| DurableRuntime.EventDrivenAgentRuntime.TakeObservation | incident_guard/agents/event_runtime.py:528-565 | by cases on the answer, the one event written: an uncertain end for a mutating call whose handler raises or answers with an execution error or a timeout, a failure or a completion with the output otherwise, the abort when time runs out |
| DurableRuntime.EventDrivenAgentRuntime.DurableApproval | incident_guard/agents/event_runtime.py:589-608 | the scan finds the first decision after a request |
| DurableRuntime.EventDrivenAgentRuntime.RequestApproval | incident_guard/agents/event_runtime.py:58-91 | the provider finds the last decision, for the recorded call only |
| DurableRuntime.EventDrivenAgentRuntime.Cancel | incident_guard/agents/event_runtime.py:212-221 | appends run.cancelling exactly to a running or waiting run |
| DurableRuntime.EventDrivenAgentRuntime.Submit | incident_guard/events/inbox.py:43-90 | refuses a run that is not running and blank id, role or content; otherwise stores the message, and the log stays accepted if and only if the id is new |
| DurableRuntime.EventDrivenAgentRuntime.ConsumeForStep | incident_guard/events/inbox.py:92-124 | exactly the pending messages of the boundary are consumed, in order and in one transaction |
| DurableRuntime.EventDrivenAgentRuntime.Decide | incident_guard/agents/event_runtime.py:94-137 | decides exactly a requested call of a waiting run and refuses everything else; a rejection also fails the run unless the process dies between the appends |
| DurableRuntime.EventDrivenAgentRuntime.Fail | incident_guard/agents/event_runtime.py:646-654 | writes the failure, or, when the run is being cancelled, the end of the cancellation |
| DurableRuntime.EventDrivenAgentRuntime.FinishCancellation | incident_guard/agents/event_runtime.py:636-644 | writes the cancellation, or an uncertain failure with the first started mutation |
| DurableRuntime.EventDrivenAgentRuntime.UncertainMutationOf | incident_guard/agents/event_runtime.py:749-758 | the first started mutating tool, if any |
| DurableRuntime.EventDrivenAgentRuntime.BudgetFailureOf | incident_guard/agents/event_runtime.py:729-747 | tokens before calls, over all responses |
| ReactRuntime.StructuredAgentRuntime.Run | incident_guard/agents/react_runtime.py:112-198 | contexts, steps, status and failure reason are those of the recursive loop, of which ReactRuntime.LoopExactly states what they are, and the run record passes its constructor's checks |
| ReactRuntime.LoopExactly | incident_guard/agents/react_runtime.py:112-198 | what the loop records and returns: each response answers its request, each tool step has one observation for each call and adds the response and its results to the next context, and the loop ends for one of six causes, with all tokens and calls counted |
| ReactRuntime.StructuredAgentRuntime.ExecuteBatch | incident_guard/agents/react_runtime.py:146-152 | one observation for each call, in call order, with the output of its tool |
| Equivalence.DurableEqualsInMemory | incident_guard/agents/react_runtime.py:112-198 | for every script, every limit and all initial messages with any keys, with reading tools and fresh call ids: both runtimes ask with the same contexts if and only if every initial message is given as the durable runtime sends it; then they also end with the same status and failure reason |
| Equivalence.SameEndingWhenAlike | incident_guard/agents/react_runtime.py:112-198 | with any initial messages and a provider that does not tell the two renderings of them apart, both runtimes end alike and their contexts differ in nothing but these messages |
| Equivalence.SameRequestsOnlyAsSent | incident_guard/events/projection.py:36-47 | an initial message that is not given as the durable runtime sends it makes the first contexts differ, in every script |
| Equivalence.ToolTextAskedDifferently | incident_guard/events/projection.py:36-47 | an input: a text with the tool role and no error flag |
| Equivalence.StepRendered | incident_guard/agents/react_runtime.py:218-244 | the dictionaries that the projector's messages of a tool step are sent as are those that the in-memory runtime appends |
| Equivalence.ToolRound | incident_guard/agents/react_runtime.py:218-244 | a whole tool step of the durable runtime extends the context by the response and the results of its calls in order, and by nothing else |
| RunModels.TransitionExactly | incident_guard/agents/run_models.py:143-151 | a transition succeeds if and only if the table has the edge and a reason is given exactly for failures; it never leaves a terminal status |
| ContextEngine.GroupMessages | incident_guard/context/context_engine.py:365-399 | the cursor loop computes the groups of the list |
| ContextEngine.Apply | incident_guard/context/context_engine.py:282-352 | the loop over the groups computes the greedy choice, of which TrimmingTheorems.TrimmingIsOptimal states what it is; its second overflow check never fires |
| ContextEngine.CeilingOfBytes | incident_guard/context/context_engine.py:74-80 | the estimate covers every byte and is not one token too high |
| ContextEngine.EstimateExactly | incident_guard/context/context_engine.py:74-99 | a conversation costs its overhead, and one more message adds the message overhead and the least number of tokens that covers its bytes |
| TrimmingTheorems.GroupsExactly | incident_guard/context/context_engine.py:365-399 | the groups cover the messages without gaps; each is one text or a response with all directly following results of its calls, and is complete if and only if each of its calls is answered in it |
| TrimmingTheorems.OrphanExactly | incident_guard/context/context_engine.py:374-397 | grouping reports an orphan if and only if some message with the tool role does not belong to the results that directly follow the message that called for it |
| TrimmingTheorems.TrimmingRefuses | incident_guard/context/context_engine.py:282-318 | budgets below one and orphans are refused, a context that fits is left alone, and when what must stay is too large the error says whether a message is pinned |
| TrimmingTheorems.SignaturesAgree | incident_guard/context/context_engine.py:401-409 | two groups have the same signature if and only if they have equally many results and the k-th ones agree in name and output |
| TrimmingTheorems.TrimmingIsOptimal | incident_guard/context/context_engine.py:292-327 | when trimming is needed and the pinned groups fit, the choice is selectable and lexicographically greater, newest first, than every other selectable one; selectable is said of the messages: all pins, no unanswered calls, no results that another kept group has too, within the budget |
| TrimmingTheorems.KeptExactly | incident_guard/context/context_engine.py:327-352 | the kept messages and their sources are those at the positions of the kept groups, all of them and in increasing order |
| TrimmingTheorems.TrimmingKeepsGroups | incident_guard/context/context_engine.py:327-352 | the kept messages regroup into exactly the kept groups and fit the budget |
| TrimmingTheorems.PinsSurvive | incident_guard/context/context_engine.py:293-301 | every pin survives with its reason |
| TrimmingTheorems.RejectedExactly | incident_guard/context/context_engine.py:113-157 | the constructor rejects the trimmed snapshot if and only if one is built and the kept sources are out of order or beyond the last sequence |
| TrimmingTheorems.NeverRejected | incident_guard/context/context_engine.py:338-352 | with sources that increase up to the last sequence no budget leads to a rejected snapshot |
| TrimmingTheorems.NeverRejectedExactly | incident_guard/context/context_engine.py:130-157 | and only then: of messages that can be grouped, the sources are in order if and only if no pins, no estimate, no estimator and no budget lead to a rejection |
| TrimmingTheorems.DisorderedIsRejected | incident_guard/context/context_engine.py:130-157 | an input: a valid snapshot with sources 1, 3, 2 is trimmed to a rejected one |
| TrimmingTheorems.TrimmedWellFormed | incident_guard/context/context_engine.py:365-399 | trimming a well-formed request yields a well-formed request, or the orphan error if and only if there is something to trim and a text message has the tool role |
| TrimmingTheorems.WellFormedGroups | incident_guard/context/context_engine.py:374-397 | grouping a well-formed request reports an orphan if and only if a text message has the tool role; otherwise every group is complete |
| EventContext.MessageComesFrom | incident_guard/context/context_engine.py:198-223 | the i-th projected message is the one appended by the i-th message event, and it is what the raw event says: role and text, the response with its calls, the result under its requested name with its error flag, or the text as submitted |
| EventContext.SourcesAligned | incident_guard/context/context_engine.py:221-224 | for every accepted log there are as many sources as messages, and they increase, so the alignment error is unreachable |
| EventContext.SelectPins | incident_guard/context/context_engine.py:236-265 | the pins are exactly all evidence and the latest alert, goal and operator input, with their reasons |
| EventContext.ProjectContext | incident_guard/context/context_engine.py:198-234 | fails exactly when the projector does, and otherwise gives a valid snapshot of the log |
| IncidentState.ProjectIncident | incident_guard/context/incident_state.py:112-239 | the loop computes the fold; what the fold is, is stated by IncidentLaws.AdmittedExactly and IncidentExactly |
| IncidentLaws.AdmittedExactly | incident_guard/context/incident_state.py:112-239 | the incident projector accepts a log if and only if the run projector does and every event may be noted after the ones before it, as read off these events alone |
| IncidentLaws.IncidentExactly | incident_guard/context/incident_state.py:112-239 | every part of the incident from the raw log: evidence, the facts confirmed last, the latest hypothesis and the unfinished items with their sequences; one action for each mutating request with the end and the result of its call; one approval for each request with its decision |
| IncidentState.ActionsAreMutatingTools | incident_guard/context/incident_state.py:152-184 | on logs that both projectors accept, without completions flagged as errors, actions are exactly the mutating tools in order and state |
| IncidentState.PendingApproval | incident_guard/context/incident_state.py:185-215 | no approval is pending while running, exactly one while waiting, and a decision is acceptable if and only if it names that one |
| IncidentState.ClaimsCiteEarlierEvidence | incident_guard/context/incident_state.py:257-272 | facts and hypothesis cite only evidence recorded before them |
| IncidentState.RuntimeLogsWithIncident | incident_guard/context/incident_state.py:185-215 | a runtime log has an incident state if and only if every decision named the waiting call |
| InvariantChecker.Check | incident_guard/evals/evaluator.py:84-129 | the loop computes the report, and a finding is in it if and only if it is due |
| InvariantChecker.FindingsExactly | incident_guard/evals/evaluator.py:84-129 | each kind of finding is reported if and only if the raw log has its cause: a start of a call last requested as mutating whose last approval event grants nothing; a second completion of a mutating call; a response over the context budget; a rejected log. Findings come in the order of their events |
| InvariantChecker.AcceptedLogsAreClean | incident_guard/evals/evaluator.py:108-128 | an event invariant violation is reported exactly for rejected logs, and accepted logs have no duplicate mutation |
| InvariantChecker.ReportedMutationsNeverRan | incident_guard/evals/evaluator.py:105-107 | on runtime logs every unapproved mutation reported is a call that its preflight rejected and whose handler was never entered |
| ToolBatches.LanesExclusive | incident_guard/agents/tool_pipeline.py:345-350 | in every run of concurrent batches two calls with their handlers under way at once do not conflict: they are not both of mutating tools with the same lane argument text, or without one the same tool |
| ToolBatches.LaneExactly | incident_guard/agents/tool_pipeline.py:442-450 | two calls have the same lane if and only if they conflict |
| ToolBatches.HandledAreAcceptable | incident_guard/agents/tool_pipeline.py:333-350 | in every run of concurrent batches no handler is under way for an unknown tool, rejected arguments or a missing lane argument |
| ToolBatches.ConcurrencyBounded | incident_guard/agents/tool_pipeline.py:274-300 | at most max_read_concurrency calls of a reading batch are under way, and at most one of a batch with a mutation, begun when all before it are answered |
| ToolBatches.AnswersStay | incident_guard/agents/tool_pipeline.py:289-300 | each answer is recorded at the place of its call, by the one step that answers it, and never changes |
| ToolBatches.NeverStuck | incident_guard/agents/tool_pipeline.py:291-350 | locks and permits never deadlock: while a call is unanswered some call can move on |
| ToolBatches.MovesLower | incident_guard/agents/tool_pipeline.py:291-350 | every move lowers the work left, so batches are answered in the end |
| SampleRuns.MutationRunsOnce | incident_guard/agents/event_runtime.py:519-521 | a concrete run enters a mutating handler, dies there, restarts, and ends uncertain without entering it again |
| SampleRuns.UndeliveredAtCompletion | incident_guard/agents/event_runtime.py:346-361 | a concrete run is completed with a message for a next step still pending |
| SampleRuns.CrashDelaysDelivery | incident_guard/agents/event_runtime.py:351-358 | a concrete run comes to an opened turn, and a crash there changes its final log |
| SampleRuns.CrashLosesResult | incident_guard/agents/event_runtime.py:528-565 | a concrete run is cancelled while a read tool runs, and a crash there changes its final log |
| SampleRuns.ReusedCallUnanswered | incident_guard/agents/event_runtime.py:409-419 | a concrete run asks the provider with a request in which a reused call has no result |
| SampleRuns.ToolTextCannotBeTrimmed | incident_guard/agents/event_runtime.py:184-195 | a run started with a text of role tool cannot have its context trimmed |
| SampleRuns.UsedIdBreaksLog | incident_guard/events/inbox.py:66-90 | a concrete run gets a message and then another with the same id: its log is rejected |
| SampleRuns.CancelledRunCouldComplete | incident_guard/events/projection.py:366-371 | a concrete cancelling run, which the driver will end as cancelled and the projector would let complete |
| SampleRuns.StepCouldBeLeft | incident_guard/events/projection.py:168-174 | a concrete run with an open step, over which the projector would accept a turn |
| SampleRuns.RaceBreaksLog | incident_guard/agents/event_runtime.py:125-137 | a concrete run waits, two writers reject its call, and the log they leave is rejected |
| SampleRuns.MisdirectedDecision | incident_guard/agents/event_runtime.py:94-137 | a concrete run waits for one call, the operator decides another: the driver asks again and the log has no incident state |

## Left out

- Payload text: a missing key or a value of the wrong JSON type has no counterpart, because payloads are datatypes; blank strings and out-of-range numbers do.
- Arguments, approval reasons and error texts: arguments are one canonical text, failure reasons are constructors, approval reasons are dropped, and the messages of error objects are kept only where the runtime copies them.
- Effects, stop reasons, inbox kinds and inbox targets are closed enumerations, as the runtime and its inbox write them; the projector alone accepts other non-blank texts there, so what is said of every accepted log leaves such logs out.
- Event times and unknown future schema versions beyond the projector's check of them.
- FileToolResultStore and its payload fields: results are stored as they are observed.
- The live event broker, the goal gate, tool hooks and result normalisation: no durable property modelled here depends on them.
- Fairness of locks and permits in `ToolBatches`: whoever may move on can be the next; the in-memory runtime is modelled with the results of a batch in call order, which is what batches give.
- Equivalence.DurableEqualsInMemory: tools of the scripts read and do not raise, no approval is asked for, and nobody cancels, submits or crashes, because the in-memory runtime has no counterpart for these. Initial messages may have any of the keys that a provider message can have, but no others.
- DurableRuntime.EventDrivenAgentRuntime.Drive: the method itself dies only at its suspension points. A process killed between two appends is a new object: the constructor takes the ghost history up to any label as its past, and `RuntimeTheorems.CutAnywhere` says that it may.
- ReactRuntime.StructuredAgentRuntime.Run: the goal gate, the timeout and tool executors that raise are left out; the registry executor never raises.
- Termination.TickLowers: says that the driver stops when provider and tools answer; nothing makes them answer.
- Timeouts are events that may happen at a suspension point; wall-clock time is not modelled.
- SQLite's own transactions, locks and threads: a batch either happens or does not.
- IncidentCLIService, MCP, Docker, the web console, the OpenAI provider, SSE and the LangGraph baseline.
