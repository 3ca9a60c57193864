/** The projector: a left fold of the durable log into the state of one run. `Accepts` is the guard of
    one event and `Advance` its effect; a rejected event is the source's ProjectionError. */
module Projection {
  import opened Events

  datatype ToolState = Requested | Started | Succeeded | Errored

  datatype StepKey = StepKey(turn: int, step: int)

  datatype ToolRecord = ToolRecord(callId: string, name: string, arguments: string, effect: Effect,
                                   key: StepKey, callIndex: int, state: ToolState)
  {
    predicate IsDone() {
      state.Succeeded? || state.Errored?
    }
  }

  datatype AssistantRecord = AssistantRecord(key: StepKey, text: string, stop: StopReason, toolCalls: seq<ToolCall>,
                                             inputTokens: Option<int>, outputTokens: Option<int>)

  datatype InboxItem = InboxItem(messageId: string, kind: InboxKind, target: InboxTarget, role: Role,
                                 content: string, consumed: bool)

  datatype Message =
    | Plain(role: Role, content: string)
    | FromAssistant(content: string, toolCalls: seq<ToolCall>)
    | ToolResult(callId: string, name: string, output: Content, isError: bool)

  /** The dictionary a provider is sent for one message; None stands for an absent key. */
  datatype ProviderMessage = ProviderMessage(role: Role, content: Content, toolCalls: Option<seq<ToolCall>>, callId: Option<string>,
                                             name: Option<string>, isError: Option<bool>)

  /** `to_provider_message`: every message with the tool role gets an error flag. */
  function ToProvider(m: Message): ProviderMessage {
    match m
    case Plain(role, content) => ProviderMessage(role, Text(content), None, None, None, if role.Tool? then Some(false) else None)
    case FromAssistant(content, calls) => ProviderMessage(Assistant, Text(content), if calls == [] then None else Some(calls), None, None, None)
    case ToolResult(callId, name, output, isError) => ProviderMessage(Tool, output, None, Some(callId), Some(name), Some(isError))
  }

  /** `provider_messages`. */
  function ProviderMessages(messages: seq<Message>): (r: seq<ProviderMessage>)
    ensures |r| == |messages| && forall i | 0 <= i < |r| :: r[i] == ToProvider(messages[i])
  {
    if messages == [] then [] else ProviderMessages(messages[..|messages| - 1]) + [ToProvider(messages[|messages| - 1])]
  }

  lemma {:induction false} ProviderMessagesConcat(a: seq<Message>, b: seq<Message>)
    ensures ProviderMessages(a + b) == ProviderMessages(a) + ProviderMessages(b)
  {
  }

  /** `tools` and `inbox` are dictionaries in the source; here they are sequences in insertion order. */
  datatype RunProjection = RunProjection(
    status: RunStatus,
    messages: seq<Message>,
    tools: seq<ToolRecord>,
    assistants: seq<AssistantRecord>,
    inbox: seq<InboxItem>,
    turn: int,
    step: Option<int>,
    completed: seq<StepKey>,
    failure: Option<Reason>)
  {
    predicate HasOpenStep() {
      step.Some? && StepKey(turn, step.value) !in completed
    }

    function OpenKey(): StepKey
      requires step.Some?
    {
      StepKey(turn, step.value)
    }

    function CurrentAssistant(): Option<AssistantRecord> {
      if step.None? then None else FindAssistant(assistants, OpenKey())
    }
  }

  const INITIAL := RunProjection(Created, [], [], [], [], 0, None, [], None)

  /** The last record with the given key. */
  function FindAssistant(records: seq<AssistantRecord>, key: StepKey): Option<AssistantRecord> {
    if records == [] then None
    else if records[|records| - 1].key == key then Some(records[|records| - 1])
    else FindAssistant(records[..|records| - 1], key)
  }

  lemma {:induction false} FoundAssistant(records: seq<AssistantRecord>, key: StepKey)
    ensures var r := FindAssistant(records, key);
            && (r.Some? ==> exists i | 0 <= i < |records| :: records[i] == r.value && r.value.key == key)
            && (r.None? ==> forall i | 0 <= i < |records| :: records[i].key != key)
  {
    if records != [] && records[|records| - 1].key != key {
      FoundAssistant(records[..|records| - 1], key);
    }
  }

  /** Position of the tool with the given call id, or the number of tools. */
  function IndexOfTool(tools: seq<ToolRecord>, callId: string): (r: nat)
    ensures r <= |tools|
  {
    if tools == [] then 0
    else if tools[0].callId == callId then 0
    else 1 + IndexOfTool(tools[1..], callId)
  }

  lemma {:induction false} IndexOfToolFirst(tools: seq<ToolRecord>, callId: string)
    ensures var r := IndexOfTool(tools, callId);
            && (r < |tools| ==> tools[r].callId == callId)
            && forall i | 0 <= i < r :: tools[i].callId != callId
  {
    if tools != [] && tools[0].callId != callId {
      IndexOfToolFirst(tools[1..], callId);
    }
  }

  predicate UniqueTools(tools: seq<ToolRecord>) {
    forall i, j | 0 <= i < j < |tools| :: tools[i].callId != tools[j].callId
  }

  predicate KnowsTool(tools: seq<ToolRecord>, callId: string) {
    exists i | 0 <= i < |tools| :: tools[i].callId == callId
  }

  lemma {:induction false} IndexUnderAppend(tools: seq<ToolRecord>, t: ToolRecord, callId: string)
    ensures IndexOfTool(tools + [t], callId)
         == if IndexOfTool(tools, callId) < |tools| then IndexOfTool(tools, callId)
            else if t.callId == callId then |tools| else |tools| + 1
  {
    if tools != [] && tools[0].callId != callId {
      IndexUnderAppend(tools[1..], t, callId);
      assert (tools + [t])[1..] == tools[1..] + [t];
    }
  }

  lemma {:induction false} IndexUnderUpdate(tools: seq<ToolRecord>, i: nat, t: ToolRecord, callId: string)
    requires i < |tools| && t.callId == tools[i].callId
    ensures IndexOfTool(tools[i := t], callId) == IndexOfTool(tools, callId)
  {
    if i > 0 && tools[0].callId != callId {
      IndexUnderUpdate(tools[1..], i - 1, t, callId);
      assert tools[i := t][1..] == tools[1..][i - 1 := t];
    } else if i == 0 {
      assert tools[i := t][1..] == tools[1..];
    }
  }

  lemma {:induction false} KnownAt(tools: seq<ToolRecord>, k: nat)
    requires k < |tools|
    ensures KnowsTool(tools, tools[k].callId)
  {
  }

  lemma {:induction false} UnknownIndex(tools: seq<ToolRecord>, callId: string)
    ensures KnowsTool(tools, callId) <==> IndexOfTool(tools, callId) < |tools|
  {
    IndexOfToolFirst(tools, callId);
  }

  function IndexOfItem(items: seq<InboxItem>, messageId: string): (r: nat)
    ensures r <= |items|
  {
    if items == [] then 0
    else if items[0].messageId == messageId then 0
    else 1 + IndexOfItem(items[1..], messageId)
  }

  lemma {:induction false} IndexOfItemFirst(items: seq<InboxItem>, messageId: string)
    ensures var r := IndexOfItem(items, messageId);
            && (r < |items| ==> items[r].messageId == messageId)
            && forall i | 0 <= i < r :: items[i].messageId != messageId
  {
    if items != [] && items[0].messageId != messageId {
      IndexOfItemFirst(items[1..], messageId);
    }
  }

  function StepsOfTurn(completed: seq<StepKey>, turn: int): nat {
    if completed == [] then 0
    else StepsOfTurn(completed[..|completed| - 1], turn) + (if completed[|completed| - 1].turn == turn then 1 else 0)
  }

  predicate NonNegative(n: Option<int>) {
    n.Some? ==> n.value >= 0
  }

  predicate ToolOfOpenStep(p: RunProjection, callId: string) {
    var i := IndexOfTool(p.tools, callId);
    !Blank(callId) && i < |p.tools| && p.HasOpenStep() && p.tools[i].key == p.OpenKey()
  }

  /** The guards of the projector's branches, after the common one that no event follows a terminal one. */
  predicate Accepts(p: RunProjection, first: bool, e: Event) {
    && !p.status.IsTerminal()
    && match e
       case RunStarted => p.status.Created? && first
       case TurnStarted(turn) => p.status.Running? && turn == p.turn + 1 && turn >= 1
       case OperatorMessage(role, _) => p.status.Running? && !BlankRole(role)
       case ContextInjected(role, _) => p.status.Running? && !BlankRole(role)
       case AlertReceived(role, _) => p.status.Running? && !BlankRole(role)
       case GoalSet(role, _) => p.status.Running? && !BlankRole(role)
       case EvidenceRecorded(role, _, _) => p.status.Running? && !BlankRole(role)
       case StepStarted(turn, step) =>
         && p.status.Running? && p.turn >= 1 && turn == p.turn && step >= 1
         && !p.HasOpenStep()
         && step == 1 + StepsOfTurn(p.completed, p.turn)
       case AssistantMessage(turn, step, _, _, _, input, output) =>
         && p.HasOpenStep() && StepKey(turn, step) == p.OpenKey() && turn >= 1 && step >= 1
         && NonNegative(input) && NonNegative(output)
         && FindAssistant(p.assistants, p.OpenKey()).None?
       case ToolRequested(callId, name, _, _, index) =>
         && p.HasOpenStep() && !Blank(callId) && IndexOfTool(p.tools, callId) == |p.tools|
         && !Blank(name) && index >= 0
       case ToolStarted(callId) =>
         ToolOfOpenStep(p, callId) && !p.tools[IndexOfTool(p.tools, callId)].IsDone()
       case ToolCompleted(callId, _, _) =>
         ToolOfOpenStep(p, callId) && p.tools[IndexOfTool(p.tools, callId)].state.Started?
       case ToolFailed(callId, _) =>
         ToolOfOpenStep(p, callId) && p.tools[IndexOfTool(p.tools, callId)].state.Started?
       case StepCompleted(turn, step) =>
         && p.HasOpenStep() && StepKey(turn, step) == p.OpenKey() && turn >= 1 && step >= 1
         && (forall i | 0 <= i < |p.tools| :: p.tools[i].key == p.OpenKey() ==> p.tools[i].IsDone())
         && FindAssistant(p.assistants, p.OpenKey()).Some?
       case InboxSubmitted(id, _, _, role, _) =>
         !Blank(id) && IndexOfItem(p.inbox, id) == |p.inbox| && !BlankRole(role)
       case InboxConsumed(id) =>
         !Blank(id) && IndexOfItem(p.inbox, id) < |p.inbox| && !p.inbox[IndexOfItem(p.inbox, id)].consumed
       case FactConfirmed(_, _, _) => p.status.Running?
       case HypothesisUpdated(_, _) => p.status.Running?
       case WorkItemAdded(_, _) => p.status.Running?
       case WorkItemCompleted(_) => p.status.Running?
       case ApprovalRequested(_, _) => p.status.Running?
       case ApprovalDecided(_, _) => p.status.WaitingApproval?
       case RunCancelling => p.status.Running? || p.status.WaitingApproval?
       case RunCompleted => !p.status.Created? && !p.HasOpenStep()
       case RunCancelled => p.status.Cancelling?
       case RunFailed(reason) => !p.status.Created? && !BlankReason(reason)
       case RunFailedUncertain(reason) => !p.status.Created? && !BlankReason(reason)
       case Unsupported(_) => false
  }

  function SetToolState(p: RunProjection, callId: string, state: ToolState): RunProjection {
    var i := IndexOfTool(p.tools, callId);
    if i < |p.tools| then p.(tools := p.tools[i := p.tools[i].(state := state)]) else p
  }

  function FinishTool(p: RunProjection, callId: string, output: Content, isError: bool): RunProjection {
    var i := IndexOfTool(p.tools, callId);
    if i < |p.tools| then
      SetToolState(p, callId, if isError then Errored else Succeeded)
        .(messages := p.messages + [ToolResult(callId, p.tools[i].name, output, isError)])
    else p
  }

  function ConsumeItem(p: RunProjection, messageId: string): RunProjection {
    var i := IndexOfItem(p.inbox, messageId);
    if i < |p.inbox| then
      p.(inbox := p.inbox[i := p.inbox[i].(consumed := true)],
         messages := p.messages + [Plain(p.inbox[i].role, p.inbox[i].content)])
    else p
  }

  function AddMessage(p: RunProjection, role: Role, content: string): RunProjection {
    p.(messages := p.messages + [Plain(role, content)])
  }

  /** The effect of an accepted event. */
  function Advance(p: RunProjection, e: Event): RunProjection {
    match e
    case RunStarted => p.(status := Running)
    case TurnStarted(turn) => p.(turn := turn, step := None)
    case OperatorMessage(role, content) => AddMessage(p, role, content)
    case ContextInjected(role, content) => AddMessage(p, role, content)
    case AlertReceived(role, content) => AddMessage(p, role, content)
    case GoalSet(role, content) => AddMessage(p, role, content)
    case EvidenceRecorded(role, content, _) => AddMessage(p, role, content)
    case StepStarted(_, step) => p.(step := Some(step))
    case AssistantMessage(turn, step, text, stop, calls, input, output) =>
      p.(assistants := p.assistants + [AssistantRecord(StepKey(turn, step), text, stop, calls, input, output)],
         messages := p.messages + [FromAssistant(text, calls)])
    case ToolRequested(callId, name, arguments, effect, index) =>
      if p.step.None? then p
      else p.(tools := p.tools + [ToolRecord(callId, name, arguments, effect, p.OpenKey(), index, Requested)])
    case ToolStarted(callId) => SetToolState(p, callId, Started)
    case ToolCompleted(callId, isError, output) => FinishTool(p, callId, output, isError)
    case ToolFailed(callId, output) => FinishTool(p, callId, output, true)
    case StepCompleted(turn, step) => p.(completed := p.completed + [StepKey(turn, step)])
    case InboxSubmitted(id, kind, target, role, content) =>
      p.(inbox := p.inbox + [InboxItem(id, kind, target, role, content, false)])
    case InboxConsumed(id) => ConsumeItem(p, id)
    case ApprovalRequested(_, _) => p.(status := WaitingApproval)
    case ApprovalDecided(_, _) => p.(status := Running)
    case RunCancelling => p.(status := Cancelling)
    case RunCompleted => p.(status := Completed)
    case RunCancelled => p.(status := Cancelled)
    case RunFailed(reason) => p.(status := Failed, failure := Some(reason))
    case RunFailedUncertain(reason) => p.(status := FailedUncertain, failure := Some(reason))
    case FactConfirmed(_, _, _) => p
    case HypothesisUpdated(_, _) => p
    case WorkItemAdded(_, _) => p
    case WorkItemCompleted(_) => p
    case Unsupported(_) => p
  }

  /** The fold of a log from `p`; `first` says whether its first event is the first of the run. */
  function ProjectFrom(p: RunProjection, first: bool, log: seq<Event>): Option<RunProjection>
    decreases |log|
  {
    if log == [] then Some(p)
    else if Accepts(p, first, log[0]) then ProjectFrom(Advance(p, log[0]), false, log[1..])
    else None
  }

  /** The projection of a log, or None when some event is rejected. */
  function Project(log: seq<Event>): Option<RunProjection> {
    ProjectFrom(INITIAL, true, log)
  }

  /** Projecting one more event. */
  function ProjectNext(p: Option<RunProjection>, first: bool, e: Event): Option<RunProjection> {
    if p.Some? && Accepts(p.value, first, e) then Some(Advance(p.value, e)) else None
  }

  lemma {:induction false} ProjectFromSnoc(p: RunProjection, first: bool, log: seq<Event>, e: Event)
    ensures ProjectFrom(p, first, log + [e]) == ProjectNext(ProjectFrom(p, first, log), first && log == [], e)
    decreases |log|
  {
    hide Accepts, Advance;
    if log == [] {
      assert ([e])[1..] == [];
      assert log + [e] == [e];
    } else {
      assert (log + [e])[1..] == log[1..] + [e];
      if Accepts(p, first, log[0]) {
        ProjectFromSnoc(Advance(p, log[0]), false, log[1..], e);
      }
    }
  }

  lemma {:induction false} ProjectSnoc(log: seq<Event>, e: Event)
    ensures Project(log + [e]) == ProjectNext(Project(log), log == [], e)
  {
    hide ProjectFrom, ProjectNext;
    ProjectFromSnoc(INITIAL, true, log, e);
  }

  lemma {:induction false} ProjectLast(log: seq<Event>)
    requires log != []
    ensures Project(log) == ProjectNext(Project(log[..|log| - 1]), |log| == 1, log[|log| - 1])
  {
    hide Project, ProjectNext;
    ProjectSnoc(log[..|log| - 1], log[|log| - 1]);
    assert log[..|log| - 1] + [log[|log| - 1]] == log;
  }
}
