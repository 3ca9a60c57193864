/** What every world of the durable runtime satisfies. */
module RuntimeInvariant {
  import opened Events
  import opened RunModels
  import opened Projection
  import opened ToolPipeline
  import opened Runtime
  import opened Conversation

  /* ---------------------------------------------------------------- steps */

  /** Completed steps are those of earlier turns and exactly 1..k of this one; at most one more is open. */
  predicate StepsOk(p: RunProjection) {
    && p.turn >= 1
    && (forall i | 0 <= i < |p.completed| :: p.completed[i].turn <= p.turn && p.completed[i].step >= 1)
    && (forall i | 0 <= i < |p.completed| ::
          p.completed[i].turn == p.turn ==> p.completed[i].step <= StepsOfTurn(p.completed, p.turn))
    && (p.step.None? ==> StepsOfTurn(p.completed, p.turn) == 0)
    && (p.step.Some? ==>
          && p.step.value >= 1
          && (p.HasOpenStep() ==> p.step.value == StepsOfTurn(p.completed, p.turn) + 1)
          && (!p.HasOpenStep() ==> p.step.value == StepsOfTurn(p.completed, p.turn)))
  }

  predicate RecordOk(r: AssistantRecord) {
    NonNegative(r.inputTokens) && NonNegative(r.outputTokens) && (r.stop.ToolUse? <==> r.toolCalls != [])
  }

  /** Assistant records belong to completed steps or to the open one; a completed current step has one. */
  predicate AssistantsOk(p: RunProjection) {
    && (forall i | 0 <= i < |p.assistants| ::
          p.assistants[i].key in p.completed || (p.HasOpenStep() && p.assistants[i].key == p.OpenKey()))
    && (p.step.Some? && !p.HasOpenStep() ==> p.CurrentAssistant().Some?)
    && (forall i | 0 <= i < |p.assistants| :: RecordOk(p.assistants[i]))
  }

  /* ---------------------------------------------------------------- tools */

  /** The calls of a response that have no record among `known`, with their positions. */
  function FreshCalls(calls: seq<ToolCall>, known: seq<ToolRecord>): (r: seq<(int, ToolCall)>)
    ensures |r| <= |calls|
  {
    if calls == [] then []
    else
      FreshCalls(calls[..|calls| - 1], known)
      + (if KnowsTool(known, calls[|calls| - 1].id) then [] else [(|calls| - 1, calls[|calls| - 1])])
  }

  lemma {:induction false} FreshCallsAre(calls: seq<ToolCall>, known: seq<ToolRecord>)
    ensures forall i | 0 <= i < |FreshCalls(calls, known)| :: FreshFrom(calls, known, FreshCalls(calls, known)[i])
    ensures forall i, j | 0 <= i < j < |FreshCalls(calls, known)| :: FreshCalls(calls, known)[i].0 < FreshCalls(calls, known)[j].0
  {
    if calls != [] {
      var front := calls[..|calls| - 1];
      FreshCallsAre(front, known);
      assert forall r | FreshFrom(front, known, r) :: FreshFrom(calls, known, r);
    }
  }

  predicate FreshFrom(calls: seq<ToolCall>, known: seq<ToolRecord>, r: (int, ToolCall)) {
    0 <= r.0 < |calls| && calls[r.0] == r.1 && !KnowsTool(known, r.1.id)
  }

  predicate Records(cfg: Config, t: ToolRecord, request: (int, ToolCall)) {
    && CallOf(t) == request.1 && t.callIndex == request.0
    && t.effect == ToolEffect(cfg.pipeline, request.1)
    && !Blank(t.callId)
  }

  predicate Apart(a: ToolCall, b: ToolCall) {
    a.id != b.id
  }

  predicate DistinctIds(calls: seq<ToolCall>) {
    && (forall i, j {:trigger Apart(calls[i], calls[j])} | 0 <= i < j < |calls| :: Apart(calls[i], calls[j]))
    && (forall i | 0 <= i < |calls| :: !Blank(calls[i].id) && !Blank(calls[i].name))
  }

  /** The tools from `base` on are the fresh calls of the current response, in order, as far as requested. */
  predicate RequestsOk(cfg: Config, p: RunProjection, base: nat, calls: seq<ToolCall>)
    requires base <= |p.tools|
  {
    var todo := FreshCalls(calls, p.tools[..base]);
    && DistinctIds(calls)
    && |p.tools| - base <= |todo|
    && (forall j | 0 <= j < |p.tools| - base :: Records(cfg, p.tools[base + j], todo[j]))
  }

  /** Whether every fresh call of the current response has been requested. */
  predicate AllRequested(p: RunProjection, base: nat)
    requires base <= |p.tools|
  {
    && p.HasOpenStep() && p.CurrentAssistant().Some?
    && |p.tools| - base == |FreshCalls(p.CurrentAssistant().value.toolCalls, p.tools[..base])|
  }

  /** Tools before `base` belong to completed steps, those from `base` on to the open step. Everything
      before `cursor` is finished, everything after it untouched. */
  predicate ToolsOk(cfg: Config, p: RunProjection, base: nat, cursor: nat) {
    && base <= cursor <= |p.tools|
    && UniqueTools(p.tools)
    && (forall i | 0 <= i < cursor :: p.tools[i].IsDone())
    && (forall i | cursor < i < |p.tools| :: p.tools[i].state.Requested?)
    && (cursor < |p.tools| ==> !p.tools[cursor].IsDone())
    && (forall i | 0 <= i < base :: p.tools[i].key in p.completed)
    && (base < |p.tools| ==> p.HasOpenStep() && p.CurrentAssistant().Some?)
    && (forall i | base <= i < |p.tools| :: p.tools[i].key == p.OpenKey())
    && (p.HasOpenStep() && p.CurrentAssistant().Some? ==>
          && RequestsOk(cfg, p, base, p.CurrentAssistant().value.toolCalls)
          && (!AllRequested(p, base) ==> cursor == base && (base < |p.tools| ==> p.tools[base].state.Requested?)))
    && (forall i | 0 <= i < |p.tools| :: p.tools[i].effect == ToolEffect(cfg.pipeline, CallOf(p.tools[i])))
  }

  /* ---------------------------------------------------------------- budgets */

  predicate BudgetsOk(cfg: Config, p: RunProjection, base: nat) {
    && |p.completed| + (if p.HasOpenStep() then 1 else 0) <= cfg.limits.maxSteps
    && (BudgetFailure(cfg.limits, p).Some? ==> p.HasOpenStep() && p.CurrentAssistant().Some? && |p.tools| == base)
    && |p.tools| <= cfg.limits.maxToolCalls
    && base + (if p.HasOpenStep() && p.CurrentAssistant().Some? then |p.CurrentAssistant().value.toolCalls| else 0)
       <= CallCount(p.assistants)
  }

  /* ---------------------------------------------------------------- approvals */

  /** Every request in the log is for a tool up to the cursor. */
  predicate RequestsKnown(log: seq<Event>, tools: seq<ToolRecord>, cursor: nat) {
    forall i | 0 <= i < |log| && log[i].ApprovalRequested? ::
      && log[i].requestId == ApprovalOf(log[i].callId)
      && IndexOfTool(tools, log[i].callId) <= cursor
      && IndexOfTool(tools, log[i].callId) < |tools|
  }

  predicate HasRequest(log: seq<Event>, id: RequestId) {
    log != [] && ((log[|log| - 1].ApprovalRequested? && log[|log| - 1].requestId == id) || HasRequest(log[..|log| - 1], id))
  }

  /** Every decision answers an earlier request. */
  predicate DecisionsAnswer(log: seq<Event>) {
    log == []
    || (DecisionsAnswer(log[..|log| - 1])
        && (log[|log| - 1].ApprovalDecided? ==> HasRequest(log[..|log| - 1], log[|log| - 1].requestId)))
  }

  /** Both scans agree on the tool at the cursor, and it is started only with the approval it needs. */
  predicate CursorOk(cfg: Config, log: seq<Event>, t: ToolRecord) {
    && FirstDecision(log, t.callId) == LastDecision(log, t.callId)
    && (t.state.Started? && RunPreflight(cfg.pipeline, CallOf(t)).Proceed? && NeedsApproval(cfg.pipeline, CallOf(t)) ==>
          FirstDecision(log, t.callId) == Some(true))
  }

  /** A waiting run waits for the undecided tool at the cursor. */
  predicate WaitOk(cfg: Config, log: seq<Event>, p: RunProjection, base: nat, cursor: nat)
    requires base <= |p.tools|
  {
    && cursor < |p.tools| && AllRequested(p, base)
    && BudgetFailure(cfg.limits, p).None?
    && p.CurrentAssistant().value.stop.ToolUse?
    && p.tools[cursor].state.Requested?
    && WasRequested(log, p.tools[cursor].callId)
    && FirstDecision(log, p.tools[cursor].callId).None?
    && RunPreflight(cfg.pipeline, CallOf(p.tools[cursor])).Proceed?
    && NeedsApproval(cfg.pipeline, CallOf(p.tools[cursor]))
  }

  predicate ApprovalsOk(cfg: Config, log: seq<Event>, p: RunProjection, base: nat, cursor: nat)
    requires base <= |p.tools|
  {
    && RequestsKnown(log, p.tools, cursor)
    && DecisionsAnswer(log)
    && (cursor < |p.tools| ==> CursorOk(cfg, log, p.tools[cursor]))
    && (p.status.WaitingApproval? ==> WaitOk(cfg, log, p, base, cursor))
  }

  /* ---------------------------------------------------------------- handlers and places */

  /** A request for the call that some later decision granted. */
  predicate Granted(log: seq<Event>, callId: string) {
    exists i, j | 0 <= i < j < |log| ::
      log[i] == ApprovalRequested(ApprovalOf(callId), callId) && log[j] == ApprovalDecided(ApprovalOf(callId), true)
  }

  predicate EntryOk(cfg: Config, log: seq<Event>, p: RunProjection, callId: string) {
    var i := IndexOfTool(p.tools, callId);
    && i < |p.tools| && !p.tools[i].state.Requested?
    && RunPreflight(cfg.pipeline, CallOf(p.tools[i])).Proceed?
    && (NeedsApproval(cfg.pipeline, CallOf(p.tools[i])) ==> Granted(log, callId))
  }

  predicate EntriesOk(cfg: Config, log: seq<Event>, p: RunProjection, entered: seq<string>) {
    && (forall i | 0 <= i < |entered| :: EntryOk(cfg, log, p, entered[i]))
    && (forall i, j | 0 <= i < j < |entered| && entered[i] == entered[j] ::
          ToolEffect(cfg.pipeline, CallOf(p.tools[IndexOfTool(p.tools, entered[i])])).Read?)
  }

  /** The tool at the cursor is the one being handled. */
  predicate AtCursor(p: RunProjection, cursor: nat, call: ToolCall) {
    cursor < |p.tools| && CallOf(p.tools[cursor]) == call && p.tools[cursor].state.Started?
  }

  predicate PlaceOk(cfg: Config, w: World, p: RunProjection, cursor: nat) {
    match w.place
    case Idle => true
    case Ready => true
    case TurnOpened => p.status.Running? && p.step.None? && PendingIds(p.inbox, NextTurn) != []
    case Rejecting(callId, output) =>
      && p.status.Running? && cursor < |p.tools| && AtCursor(p, cursor, CallOf(p.tools[cursor]))
      && p.tools[cursor].callId == callId
      && RunPreflight(cfg.pipeline, CallOf(p.tools[cursor])) == Rejected(output)
    case Starting(call) =>
      && p.status.Running? && AtCursor(p, cursor, call)
      && (ToolEffect(cfg.pipeline, call).Mutate? ==> call.id !in w.entered && RunPreflight(cfg.pipeline, call).Proceed?)
    case InProvider => (p.status.Running? || p.status.Cancelling?) && p.HasOpenStep() && p.CurrentAssistant().None?
    case InTool(call, gate) =>
      && (p.status.Running? || p.status.Cancelling?) && AtCursor(p, cursor, call)
      && (gate.Enter? ==> call.id in w.entered)
      && (RunPreflight(cfg.pipeline, call).Proceed? ==> gate.Enter?)
      && (gate.Refuse? ==> RunPreflight(cfg.pipeline, call) == Rejected(gate.output))
      && (ToolEffect(cfg.pipeline, call).Mutate? ==> gate.Enter?)
  }

  /** A finished run ends uncertain exactly when a mutation is still started; a completed one has no open step. */
  predicate OutcomeOk(p: RunProjection) {
    && (p.status.IsTerminal() ==> (p.status.FailedUncertain? <==> HasUncertain(p)))
    && (p.status.Completed? ==> p.step.Some? && !p.HasOpenStep() && PendingIds(p.inbox, NextTurn) == [])
    && !p.status.Created?
  }

  predicate InboxOk(p: RunProjection) {
    forall i, j | 0 <= i < j < |p.inbox| :: p.inbox[i].messageId != p.inbox[j].messageId
  }

  predicate InboxNamed(p: RunProjection) {
    forall i | 0 <= i < |p.inbox| :: !Blank(p.inbox[i].messageId) && !BlankRole(p.inbox[i].role)
  }

  /** The invariant of a projection, given how far the driver has come in the tools. */
  ghost predicate StateOk(cfg: Config, log: seq<Event>, p: RunProjection, base: nat, cursor: nat) {
    && StepsOk(p) && AssistantsOk(p) && ToolsOk(cfg, p, base, cursor) && BudgetsOk(cfg, p, base)
    && ApprovalsOk(cfg, log, p, base, cursor) && OutcomeOk(p) && InboxOk(p) && InboxNamed(p)
    && ConversationOk(p, base, cursor)
  }

  /* ---------------------------------------------------------------- the history */

  predicate FirstPending(inbox: seq<InboxItem>, target: InboxTarget, messageId: string) {
    PendingIds(inbox, target) != [] && PendingIds(inbox, target)[0] == messageId
  }

  /** No step is open, and the turn has not ended: the next step is due. */
  predicate AwaitsStep(p: RunProjection) {
    !p.HasOpenStep() && (p.step.Some? ==> p.CurrentAssistant().Some? && p.CurrentAssistant().value.stop.ToolUse?)
  }

  /** Messages are delivered in order, those for a next step when a step is due; a step starts with none of them pending, and
      a run is not completed while a step is due. */
  predicate DeliveryLawful(p: RunProjection, e: Event) {
    && (e.InboxConsumed? ==>
          || (FirstPending(p.inbox, NextStep, e.messageId) && AwaitsStep(p))
          || FirstPending(p.inbox, NextTurn, e.messageId))
    && (e.StepStarted? ==> PendingIds(p.inbox, NextStep) == [])
    && (e.RunCompleted? ==> !AwaitsStep(p))
  }

  /** An error after which nobody knows what a mutation has done. */
  predicate LosesOutcome(output: Content) {
    output.ErrorObject? && (output.code.ExecutionFailed? || output.code.Timeout?)
  }

  /** Only a reading call fails with such an error. */
  predicate FailureLawful(tools: seq<ToolRecord>, e: Event) {
    e.ToolFailed? && LosesOutcome(e.output) ==>
      IndexOfTool(tools, e.callId) < |tools| && tools[IndexOfTool(tools, e.callId)].effect.Read?
  }

  /** The kinds of events the runtime, its operators and its inbox write. */
  predicate IsRuntimeEvent(e: Event) {
    && !e.ContextInjected? && !e.AlertReceived? && !e.GoalSet? && !e.EvidenceRecorded? && !e.FactConfirmed?
    && !e.HypothesisUpdated? && !e.WorkItemAdded? && !e.WorkItemCompleted? && !e.Unsupported?
    && (e.ToolCompleted? ==> !e.isError)
  }

  /** What the runtime observes beyond the projector's guards when it appends `e` to `log`. */
  predicate Lawful(cfg: Config, log: seq<Event>, p: RunProjection, e: Event) {
    && IsRuntimeEvent(e)
    && (Advance(p, e).status == p.status || AllowedTransition(p.status, Advance(p, e).status))
    && (e.TurnStarted? ==> !p.HasOpenStep())
    && DeliveryLawful(p, e) && FailureLawful(p.tools, e)
    && (e.ApprovalRequested? ==> e.requestId == ApprovalOf(e.callId) && !Blank(e.callId) && LastDecision(log, e.callId).None?)
    && (e.ApprovalDecided? ==> HasRequest(log, e.requestId))
    && (e.ToolRequested? ==> e.effect == ToolEffect(cfg.pipeline, ToolCall(e.callId, e.name, e.arguments)))
    && (e.ToolStarted? ==> StartLawful(cfg, log, p.tools, IndexOfTool(p.tools, e.callId)))
  }

  /** A tool is started with the approval it needs, or to be rejected by its preflight. */
  predicate StartLawful(cfg: Config, log: seq<Event>, tools: seq<ToolRecord>, i: nat) {
    && i < |tools| && tools[i].state.Requested?
    && (RunPreflight(cfg.pipeline, CallOf(tools[i])).Proceed? && NeedsApproval(cfg.pipeline, CallOf(tools[i])) ==>
          LastDecision(log, tools[i].callId) == Some(true))
  }

  predicate LawfulLog(cfg: Config, log: seq<Event>) {
    log == []
    || (var front := log[..|log| - 1];
        && LawfulLog(cfg, front)
        && Project(front).Some? && Accepts(Project(front).value, front == [], log[|log| - 1])
        && Lawful(cfg, front, Project(front).value, log[|log| - 1]))
  }

  lemma {:induction false} LawfulSnoc(cfg: Config, log: seq<Event>, e: Event)
    requires LawfulLog(cfg, log) && Project(log).Some? && Accepts(Project(log).value, log == [], e)
    requires Lawful(cfg, log, Project(log).value, e)
    ensures LawfulLog(cfg, log + [e])
  {
    hide Accepts, Lawful;
    assert (log + [e])[..|log + [e]| - 1] == log;
  }

  ghost predicate WorldOk(cfg: Config, w: World, base: nat, cursor: nat)
    requires Project(w.log).Some?
  {
    && LawfulLog(cfg, w.log)
    && StateOk(cfg, w.log, StateOf(w), base, cursor)
    && EntriesOk(cfg, w.log, StateOf(w), w.entered)
    && PlaceOk(cfg, w, StateOf(w), cursor)
  }

  ghost predicate Invariant(cfg: Config, w: World) {
    && Project(w.log).Some?
    && if w.log == [] then w == EMPTY_WORLD else exists base: nat, cursor: nat :: WorldOk(cfg, w, base, cursor)
  }
}
