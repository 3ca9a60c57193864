/** The durable runtime as a transition system. The driver keeps nothing between iterations, so its next
    action is a function of the log; a world adds where the driver currently is and, as history only,
    which handlers have been entered. */
module Runtime {
  import opened Events
  import opened Projection
  import opened ToolPipeline

  datatype Limits = Limits(maxSteps: nat, maxToolCalls: nat, maxTokens: nat)

  datatype Config = Config(limits: Limits, pipeline: Pipeline) {
    predicate Valid() {
      limits.maxSteps >= 1 && pipeline.Valid()
    }
  }

  /* ---------------------------------------------------------------- reading approvals from the log */

  predicate WasRequested(log: seq<Event>, callId: string) {
    ApprovalRequested(ApprovalOf(callId), callId) in log
  }

  predicate Decides(e: Event, callId: string) {
    e.ApprovalDecided? && e.requestId == ApprovalOf(callId)
  }

  /** The loop's scan: the first decision that follows a request for the call. */
  function FirstDecision(log: seq<Event>, callId: string): Option<bool> {
    if log == [] then None
    else
      var before := log[..|log| - 1];
      var found := FirstDecision(before, callId);
      if found.Some? then found
      else if Decides(log[|log| - 1], callId) && WasRequested(before, callId) then Some(log[|log| - 1].approved)
      else None
  }

  /** The executor's scan: the last decision for the call, wherever it stands. */
  function LastDecision(log: seq<Event>, callId: string): Option<bool> {
    if log == [] then None
    else if Decides(log[|log| - 1], callId) then Some(log[|log| - 1].approved)
    else LastDecision(log[..|log| - 1], callId)
  }

  function CallOf(t: ToolRecord): ToolCall {
    ToolCall(t.callId, t.name, t.arguments)
  }

  /** The durable approval provider: the recorded call must be the requested one. */
  function LookUpApproval(log: seq<Event>, p: RunProjection, call: ToolCall): Approval {
    var i := IndexOfTool(p.tools, call.id);
    if i == |p.tools| || CallOf(p.tools[i]) != call || !WasRequested(log, call.id) then NotRequested
    else match LastDecision(log, call.id)
         case None => Undecided
         case Some(approved) => Decided(approved)
  }

  /* ---------------------------------------------------------------- reading the projection */

  /** Position of the first mutating tool that is started, or the number of tools. */
  function UncertainIndex(tools: seq<ToolRecord>): (r: nat)
    ensures r <= |tools|
  {
    if tools == [] then 0
    else if IsUncertain(tools[0]) then 0
    else 1 + UncertainIndex(tools[1..])
  }

  lemma {:induction false} UncertainIndexFirst(tools: seq<ToolRecord>)
    ensures var r := UncertainIndex(tools);
            && (r < |tools| ==> IsUncertain(tools[r]))
            && forall i | 0 <= i < r :: !IsUncertain(tools[i])
  {
    if tools != [] && !IsUncertain(tools[0]) {
      UncertainIndexFirst(tools[1..]);
    }
  }

  predicate IsUncertain(t: ToolRecord) {
    t.state.Started? && t.effect.Mutate?
  }

  predicate HasUncertain(p: RunProjection) {
    UncertainIndex(p.tools) < |p.tools|
  }

  function OrZero(n: Option<int>): int {
    if n.Some? then n.value else 0
  }

  function TokenCount(records: seq<AssistantRecord>): int {
    if records == [] then 0
    else
      var r := records[|records| - 1];
      TokenCount(records[..|records| - 1]) + OrZero(r.inputTokens) + OrZero(r.outputTokens)
  }

  function CallCount(records: seq<AssistantRecord>): nat {
    if records == [] then 0
    else CallCount(records[..|records| - 1]) + |records[|records| - 1].toolCalls|
  }

  lemma {:induction false} CountsSnoc(records: seq<AssistantRecord>, r: AssistantRecord)
    ensures CallCount(records + [r]) == CallCount(records) + |r.toolCalls|
    ensures TokenCount(records + [r]) == TokenCount(records) + OrZero(r.inputTokens) + OrZero(r.outputTokens)
  {
    assert (records + [r])[..|records + [r]| - 1] == records;
  }

  function BudgetFailure(limits: Limits, p: RunProjection): Option<Reason> {
    if TokenCount(p.assistants) > limits.maxTokens then Some(TokenBudget(TokenCount(p.assistants), limits.maxTokens))
    else if CallCount(p.assistants) > limits.maxToolCalls then
      Some(ToolCallBudget(CallCount(p.assistants), limits.maxToolCalls))
    else None
  }

  /** Ids of the unconsumed messages for a boundary, in submission order. */
  function PendingIds(inbox: seq<InboxItem>, target: InboxTarget): seq<string> {
    if inbox == [] then []
    else
      (if !inbox[0].consumed && inbox[0].target == target then [inbox[0].messageId] else [])
      + PendingIds(inbox[1..], target)
  }

  function Consumptions(ids: seq<string>): (r: seq<Event>)
    ensures |r| == |ids|
  {
    if ids == [] then [] else [InboxConsumed(ids[0])] + Consumptions(ids[1..])
  }

  /** Position of the first call that has no tool record, or the number of calls. */
  function FirstUnknown(calls: seq<ToolCall>, tools: seq<ToolRecord>): (r: nat)
    ensures r <= |calls|
  {
    if calls == [] then 0
    else if !KnowsTool(tools, calls[0].id) then 0
    else 1 + FirstUnknown(calls[1..], tools)
  }

  lemma {:induction false} FirstUnknownFirst(calls: seq<ToolCall>, tools: seq<ToolRecord>)
    ensures var r := FirstUnknown(calls, tools);
            && (r < |calls| ==> !KnowsTool(tools, calls[r].id))
            && forall i | 0 <= i < r :: KnowsTool(tools, calls[i].id)
  {
    if calls != [] && KnowsTool(tools, calls[0].id) {
      FirstUnknownFirst(calls[1..], tools);
    }
  }

  function ToolsOfStep(tools: seq<ToolRecord>, key: StepKey): seq<ToolRecord> {
    if tools == [] then []
    else ToolsOfStep(tools[..|tools| - 1], key)
         + (if tools[|tools| - 1].key == key then [tools[|tools| - 1]] else [])
  }

  /** Stable insertion by call index. */
  function InsertByIndex(sorted: seq<ToolRecord>, t: ToolRecord): seq<ToolRecord> {
    if sorted == [] || sorted[|sorted| - 1].callIndex <= t.callIndex then sorted + [t]
    else InsertByIndex(sorted[..|sorted| - 1], t) + [sorted[|sorted| - 1]]
  }

  function SortByIndex(tools: seq<ToolRecord>): seq<ToolRecord> {
    if tools == [] then []
    else InsertByIndex(SortByIndex(tools[..|tools| - 1]), tools[|tools| - 1])
  }

  function FirstUnfinished(tools: seq<ToolRecord>): (r: nat)
    ensures r <= |tools|
  {
    if tools == [] then 0
    else if !tools[0].IsDone() then 0
    else 1 + FirstUnfinished(tools[1..])
  }

  lemma {:induction false} FirstUnfinishedFirst(tools: seq<ToolRecord>)
    ensures var r := FirstUnfinished(tools);
            && (r < |tools| ==> !tools[r].IsDone())
            && forall i | 0 <= i < r :: tools[i].IsDone()
  {
    if tools != [] && tools[0].IsDone() {
      FirstUnfinishedFirst(tools[1..]);
    }
  }

  /* ---------------------------------------------------------------- the driver's next action */

  datatype Action =
    | Halt
    | Write(batch: seq<Event>)
    | OpenTurn
    | AskProvider
    | RejectTool(rejected: string, output: Content)
    | StartTool(call: ToolCall)
    | RunTool(call: ToolCall)

  function UncertainEvent(p: RunProjection): Event
    requires HasUncertain(p)
  {
    RunFailedUncertain(UncertainMutation(p.tools[UncertainIndex(p.tools)].callId))
  }

  /** `_finish_cancellation`. */
  function CancellationEvent(p: RunProjection): Event {
    if HasUncertain(p) then UncertainEvent(p) else RunCancelled
  }

  /** `_fail`. */
  function FailEvent(p: RunProjection, reason: Reason): Event {
    if p.status.Cancelling? then CancellationEvent(p) else RunFailed(reason)
  }

  /** The handlers of the drive loop's try block. */
  function AbortEvent(p: RunProjection, reason: Reason): Event {
    if HasUncertain(p) then UncertainEvent(p) else FailEvent(p, reason)
  }

  function NextAction(cfg: Config, log: seq<Event>, p: RunProjection): Action {
    if p.status.IsTerminal() || p.status.WaitingApproval? then Halt
    else if p.status.Cancelling? then Write([CancellationEvent(p)])
    else if HasUncertain(p) then Write([UncertainEvent(p)])
    else if p.step.Some? && !p.HasOpenStep() && p.CurrentAssistant().None? then
      Write([RunFailed(MissingResponse)])
    else if p.step.Some? && !p.HasOpenStep() && p.CurrentAssistant().value.stop.EndTurn? then
      if PendingIds(p.inbox, NextTurn) != [] then OpenTurn else Write([RunCompleted])
    else if p.step.Some? && !p.HasOpenStep() && p.CurrentAssistant().value.stop.MaxTokens? then
      Write([RunFailed(ProviderMaxTokens)])
    else if !p.HasOpenStep() then
      if |p.completed| >= cfg.limits.maxSteps then Write([RunFailed(StepBudget(cfg.limits.maxSteps))])
      else if PendingIds(p.inbox, NextStep) != [] then Write(Consumptions(PendingIds(p.inbox, NextStep)))
      else Write([StepStarted(p.turn, 1 + StepsOfTurn(p.completed, p.turn))])
    else if p.CurrentAssistant().None? then AskProvider
    else if BudgetFailure(cfg.limits, p).Some? then Write([RunFailed(BudgetFailure(cfg.limits, p).value)])
    else if p.CurrentAssistant().value.stop.ToolUse? then ToolAction(cfg, log, p, p.CurrentAssistant().value.toolCalls)
    else Write([StepCompleted(p.turn, p.step.value)])
  }

  function RequestEvent(cfg: Config, call: ToolCall, index: int): Event {
    ToolRequested(call.id, call.name, call.arguments, ToolEffect(cfg.pipeline, call), index)
  }

  function ToolAction(cfg: Config, log: seq<Event>, p: RunProjection, calls: seq<ToolCall>): Action
    requires p.HasOpenStep()
  {
    var missing := FirstUnknown(calls, p.tools);
    if missing < |calls| then Write([RequestEvent(cfg, calls[missing], missing)])
    else
      var tools := SortByIndex(ToolsOfStep(p.tools, p.OpenKey()));
      var i := FirstUnfinished(tools);
      if i == |tools| then Write([StepCompleted(p.turn, p.step.value)])
      else if tools[i].state.Started? then
        if tools[i].effect.Mutate? then Write([RunFailedUncertain(UncertainMutation(tools[i].callId))])
        else RunTool(CallOf(tools[i]))
      else LaunchAction(cfg, log, CallOf(tools[i]), tools[i].effect)
  }

  /** What the loop does with a requested tool. */
  function LaunchAction(cfg: Config, log: seq<Event>, call: ToolCall, effect: Effect): Action {
    match RunPreflight(cfg.pipeline, call)
    case Rejected(output) => RejectTool(call.id, output)
    case Proceed(ask) =>
      if !(effect.Mutate? || ask) then StartTool(call)
      else match FirstDecision(log, call.id)
           case None => Write([ApprovalRequested(ApprovalOf(call.id), call.id)])
           case Some(approved) => if approved then StartTool(call) else Write([RunFailed(OperatorRejected(call.id))])
  }

  /* ---------------------------------------------------------------- worlds and labels */

  /** Where the driver is. `Idle`: no driver process. `Ready`: about to act on the log. The other places
      lie between two appends of one action or at one of the two suspension points. */
  datatype Place =
    | Idle
    | Ready
    | TurnOpened
    | Rejecting(callId: string, output: Content)
    | Starting(call: ToolCall)
    | InProvider
    | InTool(call: ToolCall, gate: Gate)

  datatype World = World(log: seq<Event>, place: Place, entered: seq<string>)

  const EMPTY_WORLD := World([], Idle, [])

  datatype Label =
    | Launch(messages: seq<(Role, string)>)
    | Resume
    | Act
    | SecondHalf
    | Respond(response: Response)
    | ProviderRaises(message: string)
    | Observe(observation: Observation)
    | ToolRaises(message: string)
    | TimeOut
    | Crash
    | Cancel
    | Submit(messageId: string, kind: InboxKind, target: InboxTarget, role: Role, content: string)
    | Settle(callId: string, approved: bool, interrupted: bool)

  function StateOf(w: World): RunProjection
    requires Project(w.log).Some?
  {
    Project(w.log).value
  }

  /** The environment acts only while the driver is away or suspended. */
  predicate Suspended(place: Place) {
    place.Idle? || place.InProvider? || place.InTool?
  }

  predicate Enabled(cfg: Config, w: World, l: Label) {
    && Project(w.log).Some?
    && var p := StateOf(w);
       match l
       case Launch(messages) => w.log == [] && w.place.Idle? && forall i | 0 <= i < |messages| :: !BlankRole(messages[i].0)
       case Resume => w.log != [] && w.place.Idle?
       case Act => w.place.Ready?
       case SecondHalf => w.place.TurnOpened? || w.place.Rejecting? || w.place.Starting?
       case Respond(response) => w.place.InProvider? && response.Valid() && p.step.Some?
       case ProviderRaises(_) => w.place.InProvider?
       case Observe(observation) =>
         w.place.InTool? && (w.place.gate.Refuse? ==> observation == Observation(w.place.gate.output, true))
       case ToolRaises(_) => w.place.InTool? && w.place.gate.Enter?
       case TimeOut => w.place.InProvider? || (w.place.InTool? && w.place.gate.Enter?)
       case Crash => true
       case Cancel => Suspended(w.place) && (p.status.Running? || p.status.WaitingApproval?)
       case Submit(id, _, _, role, content) =>
         && Suspended(w.place) && p.status.Running? && !Blank(id) && !BlankRole(role) && !Blank(content)
         && IndexOfItem(p.inbox, id) == |p.inbox|
       case Settle(callId, _, _) => Suspended(w.place) && p.status.WaitingApproval? && WasRequested(w.log, callId)
  }

  function InitialBatch(messages: seq<(Role, string)>): seq<Event> {
    [RunStarted] + OperatorMessages(messages) + [TurnStarted(1)]
  }

  function OperatorMessages(messages: seq<(Role, string)>): (r: seq<Event>)
    ensures |r| == |messages|
  {
    if messages == [] then []
    else
      OperatorMessages(messages[..|messages| - 1])
      + [OperatorMessage(messages[|messages| - 1].0, messages[|messages| - 1].1)]
  }

  function ResponseEvent(p: RunProjection, r: Response): Event
    requires p.step.Some?
  {
    AssistantMessage(p.turn, p.step.value, r.text, r.stop, r.toolCalls,
                     if r.usage.Some? then Some(r.usage.value.0) else None,
                     if r.usage.Some? then Some(r.usage.value.1) else None)
  }

  /** An observation of a mutating call that leaves its outcome unknown. */
  predicate LeavesUncertain(effect: Effect, o: Observation) {
    && effect.Mutate? && o.isError
    && o.output.ErrorObject? && (o.output.code.ExecutionFailed? || o.output.code.Timeout?)
  }

  function ResultEvent(callId: string, o: Observation): Event {
    if o.isError then ToolFailed(callId, o.output) else ToolCompleted(callId, false, o.output)
  }

  function OutcomeEvent(effect: Effect, callId: string, o: Observation): Event {
    if LeavesUncertain(effect, o) then RunFailedUncertain(UncertainMutation(callId)) else ResultEvent(callId, o)
  }

  function ExceptionEvent(effect: Effect, callId: string, message: string): Event {
    if effect.Mutate? then RunFailedUncertain(UncertainMutation(callId))
    else ToolFailed(callId, ErrorObject(ExecutionFailed, message))
  }

  function Extend(w: World, events: seq<Event>, place: Place): World {
    w.(log := w.log + events, place := place)
  }

  function PerformAction(w: World, a: Action): World
    requires Project(w.log).Some?
  {
    match a
    case Halt => w.(place := Idle)
    case Write(batch) => Extend(w, batch, Ready)
    case OpenTurn => Extend(w, [TurnStarted(StateOf(w).turn + 1)], TurnOpened)
    case AskProvider => w.(place := InProvider)
    case RejectTool(callId, output) => Extend(w, [ToolStarted(callId)], Rejecting(callId, output))
    case StartTool(call) => Extend(w, [ToolStarted(call.id)], Starting(call))
    case RunTool(call) => w.(place := Starting(call))
  }

  /** The second half of an action; entering a handler is recorded. */
  function FinishAction(cfg: Config, w: World): World
    requires Project(w.log).Some?
  {
    match w.place
    case TurnOpened => Extend(w, Consumptions(PendingIds(StateOf(w).inbox, NextTurn)), Ready)
    case Rejecting(callId, output) => Extend(w, [ToolFailed(callId, output)], Ready)
    case Starting(call) =>
      var gate := RunGate(cfg.pipeline, call, LookUpApproval(w.log, StateOf(w), call));
      w.(place := InTool(call, gate), entered := w.entered + (if gate.Enter? then [call.id] else []))
    case _ => w
  }

  /** The world after an enabled label. */
  function Perform(cfg: Config, w: World, l: Label): World
    requires Enabled(cfg, w, l)
  {
    var p := StateOf(w);
    match l
    case Launch(messages) => Extend(w, InitialBatch(messages), Ready)
    case Resume => w.(place := Ready)
    case Act => PerformAction(w, NextAction(cfg, w.log, p))
    case SecondHalf => FinishAction(cfg, w)
    case Respond(response) =>
      if p.status.Cancelling? then w.(place := Ready) else Extend(w, [ResponseEvent(p, response)], Ready)
    case ProviderRaises(message) => Extend(w, [AbortEvent(p, RuntimeFailure(message))], Ready)
    case Observe(o) => Extend(w, [OutcomeEvent(ToolEffect(cfg.pipeline, w.place.call), w.place.call.id, o)], Ready)
    case ToolRaises(message) =>
      Extend(w, [ExceptionEvent(ToolEffect(cfg.pipeline, w.place.call), w.place.call.id, message)], Ready)
    case TimeOut => Extend(w, [AbortEvent(p, RunTimeout)], Ready)
    case Crash => w.(place := Idle)
    case Cancel => Extend(w, [RunCancelling], w.place)
    case Submit(id, kind, target, role, content) => Extend(w, [InboxSubmitted(id, kind, target, role, content)], w.place)
    case Settle(callId, approved, interrupted) =>
      Extend(w, [ApprovalDecided(ApprovalOf(callId), approved)]
                + (if approved || interrupted then [] else [RunFailed(OperatorRejected(callId))]), w.place)
  }

  /** The world that a run leads to from `w`; None when some label is not enabled. */
  function ExecuteFrom(cfg: Config, w: World, run: seq<Label>): Option<World>
    decreases |run|
  {
    if run == [] then Some(w)
    else if Enabled(cfg, w, run[0]) then ExecuteFrom(cfg, Perform(cfg, w, run[0]), run[1..])
    else None
  }

  function Execute(cfg: Config, run: seq<Label>): Option<World> {
    ExecuteFrom(cfg, EMPTY_WORLD, run)
  }
}
