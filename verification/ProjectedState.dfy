/** The projector against the raw log: which logs it accepts, and what each part of the projection is, read off the events
    themselves. */
module ProjectedState {
  import opened Events
  import opened Projection
  import opened LogLaws

  /* ---------------------------------------------------------------- reading the raw log */

  /** Positions of the events of one kind, in order. */
  function Where(log: seq<Event>, kind: Event -> bool): (r: seq<nat>)
    ensures forall k | 0 <= k < |r| :: r[k] < |log| && kind(log[r[k]])
  {
    if log == [] then []
    else Where(log[..|log| - 1], kind) + (if kind(log[|log| - 1]) then [|log| - 1] else [])
  }

  predicate IsRequest(e: Event) { e.ToolRequested? }
  predicate IsResponse(e: Event) { e.AssistantMessage? }
  predicate IsCompletion(e: Event) { e.StepCompleted? }
  predicate IsSubmission(e: Event) { e.InboxSubmitted? }

  lemma {:induction false} WhereSnoc(log: seq<Event>, e: Event, kind: Event -> bool)
    ensures Where(log + [e], kind) == Where(log, kind) + (if kind(e) then [|log|] else [])
  {
    assert (log + [e])[..|log + [e]| - 1] == log;
  }

  /** The positions increase, and they are all there are. */
  lemma {:induction false} WhereExactly(log: seq<Event>, kind: Event -> bool)
    ensures forall i, j | 0 <= i < j < |Where(log, kind)| :: Where(log, kind)[i] < Where(log, kind)[j]
    ensures forall n: nat :: n in Where(log, kind) <==> n < |log| && kind(log[n])
  {
    forall n: nat ensures n in Where(log, kind) <==> n < |log| && kind(log[n]) {
      WhereHas(log, kind, n);
    }
    WhereIncreases(log, kind);
  }

  lemma {:induction false} WhereHas(log: seq<Event>, kind: Event -> bool, n: nat)
    ensures n in Where(log, kind) <==> n < |log| && kind(log[n])
  {
    if log != [] {
      var front, last := log[..|log| - 1], |log| - 1;
      WhereHas(front, kind, n);
      assert n in Where(log, kind) <==> n in Where(front, kind) || (kind(log[last]) && n == last);
      assert n < last ==> front[n] == log[n];
    }
  }

  lemma {:induction false} WhereIncreases(log: seq<Event>, kind: Event -> bool)
    ensures forall i, j | 0 <= i < j < |Where(log, kind)| :: Where(log, kind)[i] < Where(log, kind)[j]
  {
    if log != [] {
      WhereIncreases(log[..|log| - 1], kind);
    }
  }

  /** The status that the last status event leaves. */
  function StatusIn(log: seq<Event>): RunStatus {
    if log == [] then Created
    else match log[|log| - 1]
         case RunStarted => Running
         case ApprovalRequested(_, _) => WaitingApproval
         case ApprovalDecided(_, _) => Running
         case RunCancelling => Cancelling
         case RunCompleted => Completed
         case RunCancelled => Cancelled
         case RunFailed(_) => Failed
         case RunFailedUncertain(_) => FailedUncertain
         case _ => StatusIn(log[..|log| - 1])
  }

  /** How many turns have started. */
  function TurnIn(log: seq<Event>): nat {
    if log == [] then 0 else TurnIn(log[..|log| - 1]) + (if log[|log| - 1].TurnStarted? then 1 else 0)
  }

  /** The step started last in the current turn. */
  function StepIn(log: seq<Event>): Option<int> {
    if log == [] || log[|log| - 1].TurnStarted? then None
    else if log[|log| - 1].StepStarted? then Some(log[|log| - 1].step)
    else StepIn(log[..|log| - 1])
  }

  /** The reason of the failure that has ended the run. */
  function FailureIn(log: seq<Event>): Option<Reason> {
    if log == [] then None
    else if log[|log| - 1].RunFailed? || log[|log| - 1].RunFailedUncertain? then Some(log[|log| - 1].reason)
    else FailureIn(log[..|log| - 1])
  }

  function CompletedIn(log: seq<Event>, turn: int): nat {
    if log == [] then 0
    else
      var e := log[|log| - 1];
      CompletedIn(log[..|log| - 1], turn) + (if e.StepCompleted? && e.turn == turn then 1 else 0)
  }

  predicate IsConsumed(log: seq<Event>, id: string) {
    InboxConsumed(id) in log
  }

  lemma {:induction false} ReadersSnoc(log: seq<Event>, e: Event)
    ensures StatusIn(log + [e])
         == match e
            case RunStarted => Running
            case ApprovalRequested(_, _) => WaitingApproval
            case ApprovalDecided(_, _) => Running
            case RunCancelling => Cancelling
            case RunCompleted => Completed
            case RunCancelled => Cancelled
            case RunFailed(_) => Failed
            case RunFailedUncertain(_) => FailedUncertain
            case _ => StatusIn(log)
    ensures TurnIn(log + [e]) == TurnIn(log) + (if e.TurnStarted? then 1 else 0)
    ensures StepIn(log + [e]) == if e.TurnStarted? then None else if e.StepStarted? then Some(e.step) else StepIn(log)
    ensures FailureIn(log + [e]) == if e.RunFailed? || e.RunFailedUncertain? then Some(e.reason) else FailureIn(log)
    ensures forall t :: CompletedIn(log + [e], t) == CompletedIn(log, t) + (if e.StepCompleted? && e.turn == t then 1 else 0)
  {
    assert (log + [e])[..|log + [e]| - 1] == log;
  }

  /* ---------------------------------------------------------------- what the projection is */

  /** The record of the tool requested at `k`, apart from its state. */
  ghost predicate ToolFrom(log: seq<Event>, k: nat, t: ToolRecord) {
    && k < |log| && log[k].ToolRequested? && StepIn(log[..k]).Some?
    && t.(state := Requested)
       == ToolRecord(log[k].callId, log[k].name, log[k].arguments, log[k].effect, StepKey(TurnIn(log[..k]), StepIn(log[..k]).value),
                     log[k].callIndex, Requested)
  }

  predicate ResponseFrom(log: seq<Event>, k: nat, r: AssistantRecord) {
    && k < |log| && log[k].AssistantMessage?
    && r == AssistantRecord(StepKey(log[k].turn, log[k].step), log[k].text, log[k].stop, log[k].toolCalls, log[k].inputTokens, log[k].outputTokens)
  }

  predicate ItemFrom(log: seq<Event>, k: nat, item: InboxItem) {
    && k < |log| && log[k].InboxSubmitted?
    && item == InboxItem(log[k].messageId, log[k].kind, log[k].target, log[k].role, log[k].content, IsConsumed(log, log[k].messageId))
  }

  predicate StepFrom(log: seq<Event>, k: nat, key: StepKey) {
    k < |log| && log[k].StepCompleted? && key == StepKey(log[k].turn, log[k].step)
  }

  predicate HeadRead(log: seq<Event>, p: RunProjection) {
    p.status == StatusIn(log) && p.turn == TurnIn(log) && p.step == StepIn(log) && p.failure == FailureIn(log)
  }

  predicate StepsRead(log: seq<Event>, p: RunProjection) {
    var at := Where(log, IsCompletion);
    |p.completed| == |at| && forall j | 0 <= j < |at| :: StepFrom(log, at[j], p.completed[j])
  }

  predicate ResponsesRead(log: seq<Event>, p: RunProjection) {
    var at := Where(log, IsResponse);
    |p.assistants| == |at| && forall j | 0 <= j < |at| :: ResponseFrom(log, at[j], p.assistants[j])
  }

  ghost predicate ToolsRead(log: seq<Event>, p: RunProjection) {
    var at := Where(log, IsRequest);
    |p.tools| == |at| && forall j | 0 <= j < |at| :: ToolFrom(log, at[j], p.tools[j])
  }

  predicate InboxRead(log: seq<Event>, p: RunProjection) {
    var at := Where(log, IsSubmission);
    |p.inbox| == |at| && forall j | 0 <= j < |at| :: ItemFrom(log, at[j], p.inbox[j])
  }

  /** Steps, responses, tools and inbox are the events of their kinds, in order. */
  ghost predicate ReadFrom(log: seq<Event>, p: RunProjection) {
    HeadRead(log, p) && StepsRead(log, p) && ResponsesRead(log, p) && ToolsRead(log, p) && InboxRead(log, p)
  }

  lemma {:induction false} HeadNext(log: seq<Event>, p: RunProjection, e: Event)
    requires HeadRead(log, p) && Accepts(p, log == [], e)
    ensures HeadRead(log + [e], Advance(p, e))
  {
    hide StatusIn, TurnIn, StepIn, FailureIn, CompletedIn, FindAssistant, StepsOfTurn, IndexOfTool, IndexOfItem, Blank;
    ReadersSnoc(log, e);
  }

  /** Which events touch responses, completed steps and failures, and how. */
  lemma {:induction false} RecordsAfter(p: RunProjection, first: bool, e: Event)
    requires Accepts(p, first, e)
    ensures Advance(p, e).assistants
         == if e.AssistantMessage? then
              p.assistants + [AssistantRecord(StepKey(e.turn, e.step), e.text, e.stop, e.toolCalls, e.inputTokens, e.outputTokens)]
            else p.assistants
    ensures Advance(p, e).completed == if e.StepCompleted? then p.completed + [StepKey(e.turn, e.step)] else p.completed
  {
    hide FindAssistant, StepsOfTurn, IndexOfTool, IndexOfItem, Blank;
  }

  lemma {:induction false} RecordsNext(log: seq<Event>, p: RunProjection, e: Event)
    requires StepsRead(log, p) && ResponsesRead(log, p) && Accepts(p, log == [], e)
    ensures StepsRead(log + [e], Advance(p, e)) && ResponsesRead(log + [e], Advance(p, e))
  {
    hide Accepts, Advance, Where;
    RecordsAfter(p, log == [], e);
    WhereSnoc(log, e, IsCompletion);
    WhereSnoc(log, e, IsResponse);
    assert forall k | 0 <= k < |log| :: (log + [e])[k] == log[k];
  }

  lemma {:induction false} ToolsNext(log: seq<Event>, p: RunProjection, e: Event)
    requires HeadRead(log, p) && ToolsRead(log, p) && Accepts(p, log == [], e)
    ensures ToolsRead(log + [e], Advance(p, e))
  {
    hide Accepts, Advance, Where, StatusIn, TurnIn, StepIn, FailureIn, IndexOfTool;
    ToolsAfter(p, log == [], e);
    WhereSnoc(log, e, IsRequest);
    var all, q := log + [e], Advance(p, e);
    var at := Where(log, IsRequest);
    assert all[..|log|] == log;
    forall j | 0 <= j < |at| ensures ToolFrom(all, at[j], q.tools[j]) {
      assert all[..at[j]] == log[..at[j]] && all[at[j]] == log[at[j]];
      assert ToolFrom(log, at[j], p.tools[j]);
    }
  }

  predicate DistinctItems(inbox: seq<InboxItem>) {
    forall i, j | 0 <= i < j < |inbox| :: inbox[i].messageId != inbox[j].messageId
  }

  /** No message is consumed before it is submitted. */
  predicate ConsumedKnown(log: seq<Event>, inbox: seq<InboxItem>) {
    forall n | 0 <= n < |log| && log[n].InboxConsumed? :: IndexOfItem(inbox, log[n].messageId) < |inbox|
  }

  lemma {:induction false} ItemKnown(inbox: seq<InboxItem>, i: nat)
    requires i < |inbox|
    ensures IndexOfItem(inbox, inbox[i].messageId) <= i
  {
    IndexOfItemFirst(inbox, inbox[i].messageId);
  }

  lemma {:induction false} InboxNext(log: seq<Event>, p: RunProjection, e: Event)
    requires InboxRead(log, p) && DistinctItems(p.inbox) && ConsumedKnown(log, p.inbox) && Accepts(p, log == [], e)
    ensures InboxRead(log + [e], Advance(p, e))
    ensures DistinctItems(Advance(p, e).inbox) && ConsumedKnown(log + [e], Advance(p, e).inbox)
  {
    hide Accepts, Advance, Where, IndexOfItem;
    InboxShape(p, log == [], e);
    WhereSnoc(log, e, IsSubmission);
    var all, q := log + [e], Advance(p, e);
    var at := Where(log, IsSubmission);
    var which := if e.InboxConsumed? then IndexOfItem(p.inbox, e.messageId) else 0;
    if e.InboxSubmitted? || e.InboxConsumed? {
      IndexOfItemFirst(p.inbox, e.messageId);
    }
    forall j | 0 <= j < |at| ensures ItemFrom(all, at[j], q.inbox[j]) {
      assert all[at[j]] == log[at[j]] && ItemFrom(log, at[j], p.inbox[j]);
      assert IsConsumed(all, p.inbox[j].messageId) <==> IsConsumed(log, p.inbox[j].messageId) || e == InboxConsumed(p.inbox[j].messageId);
    }
    if e.InboxSubmitted? {
      assert !IsConsumed(log, e.messageId);
      assert all[|log|] == e;
    }
    forall n | 0 <= n < |all| && all[n].InboxConsumed? ensures IndexOfItem(q.inbox, all[n].messageId) < |q.inbox| {
      var old_ := IndexOfItem(p.inbox, all[n].messageId);
      IndexOfItemFirst(p.inbox, all[n].messageId);
      IndexOfItemFirst(q.inbox, all[n].messageId);
      assert n < |log| ==> log[n] == all[n];
      assert q.inbox[old_].messageId == all[n].messageId;
      ItemKnown(q.inbox, old_);
    }
  }

  lemma {:induction false} EmptyRead()
    ensures Project([]) == Some(INITIAL) && ReadFrom([], INITIAL) && DistinctItems(INITIAL.inbox) && ConsumedKnown([], INITIAL.inbox)
  {
  }

  lemma {:induction false} ReadNext(log: seq<Event>, p: RunProjection, e: Event)
    requires ReadFrom(log, p) && DistinctItems(p.inbox) && ConsumedKnown(log, p.inbox) && Accepts(p, log == [], e)
    ensures ReadFrom(log + [e], Advance(p, e)) && DistinctItems(Advance(p, e).inbox) && ConsumedKnown(log + [e], Advance(p, e).inbox)
  {
    hide Accepts, Advance, HeadRead, StepsRead, ResponsesRead, ToolsRead, InboxRead, DistinctItems, ConsumedKnown;
    HeadNext(log, p, e);
    RecordsNext(log, p, e);
    ToolsNext(log, p, e);
    InboxNext(log, p, e);
  }

  lemma {:induction false} ProjectedParts(log: seq<Event>)
    requires Project(log).Some?
    ensures ReadFrom(log, Project(log).value) && DistinctItems(Project(log).value.inbox) && ConsumedKnown(log, Project(log).value.inbox)
  {
    hide Accepts, Advance, Project, ReadFrom, DistinctItems, ConsumedKnown;
    if log == [] {
      EmptyRead();
    } else {
      var front, e := log[..|log| - 1], log[|log| - 1];
      ProjectLast(log);
      ProjectedParts(front);
      ReadNext(front, Project(front).value, e);
      assert front + [e] == log;
    }
  }

  lemma {:induction false} KnownByName(tools: seq<ToolRecord>, j: nat)
    requires UniqueTools(tools) && j < |tools|
    ensures IndexOfTool(tools, tools[j].callId) == j
  {
    IndexOfToolFirst(tools, tools[j].callId);
  }

  /** Every part of the projection, from the raw log: status, turn, step and failure are what the last event that concerns them
      says; completed steps, responses, tools and inbox items are the events that made them, in order, with every field as
      given; a tool is in the state that the events of its call have led to, and an item is consumed if and only if the log
      says so. */
  lemma {:induction false} ProjectionExactly(log: seq<Event>)
    requires Project(log).Some?
    ensures ReadFrom(log, Project(log).value)
    ensures forall j | 0 <= j < |Project(log).value.tools| ::
              var t := Project(log).value.tools[j];
              LifeOf(log, t.callId) != [] && t.state == StateAfter(LifeOf(log, t.callId))
  {
    hide Project, ReadFrom, LifeOf, StateAfter, LifeCycle;
    ProjectedParts(log);
    ToolsDistinct(log);
    var tools := Project(log).value.tools;
    forall j | 0 <= j < |tools| ensures LifeOf(log, tools[j].callId) != [] && tools[j].state == StateAfter(LifeOf(log, tools[j].callId)) {
      KnownByName(tools, j);
      KnownAt(tools, j);
      LifeCycles(log, tools[j].callId);
    }
  }

  /* ---------------------------------------------------------------- messages */

  predicate IsMessageEvent(e: Event) {
    || e.OperatorMessage? || e.ContextInjected? || e.AlertReceived? || e.GoalSet? || e.EvidenceRecorded?
    || e.AssistantMessage? || e.ToolCompleted? || e.ToolFailed? || e.InboxConsumed?
  }

  /** The message of the event at `n`: its own role and text; a response with its calls; a result under the name that its call
      was requested by; a delivery with role and text as submitted. */
  ghost predicate IsMessageOf(log: seq<Event>, n: nat, m: Message)
    requires n < |log|
  {
    match log[n]
    case OperatorMessage(role, content) => m == Plain(role, content)
    case ContextInjected(role, content) => m == Plain(role, content)
    case AlertReceived(role, content) => m == Plain(role, content)
    case GoalSet(role, content) => m == Plain(role, content)
    case EvidenceRecorded(role, content, _) => m == Plain(role, content)
    case AssistantMessage(_, _, text, _, calls, _, _) => m == FromAssistant(text, calls)
    case ToolCompleted(id, isError, output) =>
      exists k | 0 <= k < n && log[k].ToolRequested? && log[k].callId == id :: m == ToolResult(id, log[k].name, output, isError)
    case ToolFailed(id, output) =>
      exists k | 0 <= k < n && log[k].ToolRequested? && log[k].callId == id :: m == ToolResult(id, log[k].name, output, true)
    case InboxConsumed(id) =>
      exists k | 0 <= k < n && log[k].InboxSubmitted? && log[k].messageId == id :: m == Plain(log[k].role, log[k].content)
    case _ => false
  }

  /** What an accepted event does to the messages. */
  lemma {:induction false} MessagesAfter(p: RunProjection, first: bool, e: Event)
    requires Accepts(p, first, e)
    ensures var q := Advance(p, e).messages;
            match e
            case OperatorMessage(role, content) => q == p.messages + [Plain(role, content)]
            case ContextInjected(role, content) => q == p.messages + [Plain(role, content)]
            case AlertReceived(role, content) => q == p.messages + [Plain(role, content)]
            case GoalSet(role, content) => q == p.messages + [Plain(role, content)]
            case EvidenceRecorded(role, content, _) => q == p.messages + [Plain(role, content)]
            case AssistantMessage(_, _, text, _, calls, _, _) => q == p.messages + [FromAssistant(text, calls)]
            case ToolCompleted(id, isError, output) =>
              IndexOfTool(p.tools, id) < |p.tools| && q == p.messages + [ToolResult(id, p.tools[IndexOfTool(p.tools, id)].name, output, isError)]
            case ToolFailed(id, output) =>
              IndexOfTool(p.tools, id) < |p.tools| && q == p.messages + [ToolResult(id, p.tools[IndexOfTool(p.tools, id)].name, output, true)]
            case InboxConsumed(id) =>
              var i := IndexOfItem(p.inbox, id);
              i < |p.inbox| && q == p.messages + [Plain(p.inbox[i].role, p.inbox[i].content)]
            case _ => q == p.messages
  {
    hide FindAssistant, StepsOfTurn, IndexOfTool, IndexOfItem, Blank;
  }

  lemma {:induction false} MessageAppended(log: seq<Event>, e: Event)
    requires Project(log).Some? && Accepts(Project(log).value, log == [], e) && IsMessageEvent(e)
    ensures |Advance(Project(log).value, e).messages| == |Project(log).value.messages| + 1
    ensures IsMessageOf(log + [e], |log|, Advance(Project(log).value, e).messages[|Project(log).value.messages|])
  {
    hide Project, Accepts, Advance, Where, StatusIn, TurnIn, StepIn, FailureIn, IndexOfTool, IndexOfItem, HeadRead, StepsRead, ResponsesRead;
    var p, all := Project(log).value, log + [e];
    ProjectedParts(log);
    MessagesAfter(p, log == [], e);
    if e.ToolCompleted? || e.ToolFailed? {
      var i := IndexOfTool(p.tools, e.callId);
      IndexOfToolFirst(p.tools, e.callId);
      var k := Where(log, IsRequest)[i];
      assert ToolFrom(log, k, p.tools[i]) && all[k] == log[k];
    } else if e.InboxConsumed? {
      var i := IndexOfItem(p.inbox, e.messageId);
      IndexOfItemFirst(p.inbox, e.messageId);
      var k := Where(log, IsSubmission)[i];
      assert ItemFrom(log, k, p.inbox[i]) && all[k] == log[k];
    }
  }

  /** The message of an event is the same in every log that begins alike. */
  lemma {:induction false} MessageInPrefix(log: seq<Event>, n: nat, m: nat, message: Message)
    requires n < m <= |log| && IsMessageOf(log[..m], n, message)
    ensures IsMessageOf(log, n, message)
  {
    assert forall k | 0 <= k < m :: log[..m][k] == log[k];
  }

  /* ---------------------------------------------------------------- acceptance */

  predicate IsTerminalStatus(s: RunStatus) {
    s.Completed? || s.Cancelled? || s.Failed? || s.FailedUncertain?
  }

  /** The step started last in the current turn has not been completed. */
  predicate OpenIn(log: seq<Event>) {
    StepIn(log).Some? && StepCompleted(TurnIn(log), StepIn(log).value) !in log
  }

  ghost predicate AnsweredIn(log: seq<Event>, turn: int, step: int) {
    exists k | 0 <= k < |log| :: log[k].AssistantMessage? && log[k].turn == turn && log[k].step == step
  }

  /** The call was requested, in the step that is current now. */
  ghost predicate RequestedNow(log: seq<Event>, id: string) {
    exists k | 0 <= k < |log| ::
      log[k].ToolRequested? && log[k].callId == id && TurnIn(log[..k]) == TurnIn(log) && StepIn(log[..k]) == StepIn(log)
  }

  predicate RequestedIn(log: seq<Event>, id: string) {
    exists k | 0 <= k < |log| :: log[k].ToolRequested? && log[k].callId == id
  }

  predicate SubmittedIn(log: seq<Event>, id: string) {
    exists k | 0 <= k < |log| :: log[k].InboxSubmitted? && log[k].messageId == id
  }

  /** The last event of the call. */
  function LastOf(log: seq<Event>, id: string): Option<Life> {
    if LifeOf(log, id) == [] then None else Some(LifeOf(log, id)[|LifeOf(log, id)| - 1])
  }

  predicate NotNegative(n: Option<int>) {
    n.None? || n.value >= 0
  }

  /** May `e` follow `log`? Everything is read off the events of the log. */
  ghost predicate MayFollow(log: seq<Event>, e: Event) {
    var status, open := StatusIn(log), OpenIn(log);
    && !IsTerminalStatus(status)
    && match e
       case RunStarted => log == []
       case TurnStarted(turn) => status.Running? && turn == TurnIn(log) + 1
       case OperatorMessage(role, _) => status.Running? && !BlankRole(role)
       case ContextInjected(role, _) => status.Running? && !BlankRole(role)
       case AlertReceived(role, _) => status.Running? && !BlankRole(role)
       case GoalSet(role, _) => status.Running? && !BlankRole(role)
       case EvidenceRecorded(role, _, _) => status.Running? && !BlankRole(role)
       case StepStarted(turn, step) => status.Running? && !open && turn == TurnIn(log) >= 1 && step == CompletedIn(log, turn) + 1
       case AssistantMessage(turn, step, _, _, _, input, output) =>
         open && turn == TurnIn(log) && Some(step) == StepIn(log) && NotNegative(input) && NotNegative(output) && !AnsweredIn(log, turn, step)
       case ToolRequested(id, name, _, _, index) => open && !Blank(id) && !RequestedIn(log, id) && !Blank(name) && index >= 0
       case ToolStarted(id) => open && !Blank(id) && RequestedNow(log, id) && !(LastOf(log, id).Some? && LastOf(log, id).value.Ended?)
       case ToolCompleted(id, _, _) => open && !Blank(id) && RequestedNow(log, id) && LastOf(log, id) == Some(Life.Begun)
       case ToolFailed(id, _) => open && !Blank(id) && RequestedNow(log, id) && LastOf(log, id) == Some(Life.Begun)
       case StepCompleted(turn, step) =>
         && open && turn == TurnIn(log) && Some(step) == StepIn(log) && AnsweredIn(log, turn, step)
         && forall id | RequestedNow(log, id) :: LastOf(log, id).Some? && LastOf(log, id).value.Ended?
       case InboxSubmitted(id, _, _, role, _) => !Blank(id) && !BlankRole(role) && !SubmittedIn(log, id)
       case InboxConsumed(id) => !Blank(id) && SubmittedIn(log, id) && !IsConsumed(log, id)
       case FactConfirmed(_, _, _) => status.Running?
       case HypothesisUpdated(_, _) => status.Running?
       case WorkItemAdded(_, _) => status.Running?
       case WorkItemCompleted(_) => status.Running?
       case ApprovalRequested(_, _) => status.Running?
       case ApprovalDecided(_, _) => status.WaitingApproval?
       case RunCancelling => status.Running? || status.WaitingApproval?
       case RunCompleted => !status.Created? && !open
       case RunCancelled => status.Cancelling?
       case RunFailed(reason) => !status.Created? && !BlankReason(reason)
       case RunFailedUncertain(reason) => !status.Created? && !BlankReason(reason)
       case Unsupported(_) => false
  }

  lemma {:induction false} CompletedRead(log: seq<Event>, p: RunProjection, key: StepKey)
    requires StepsRead(log, p)
    ensures key in p.completed <==> StepCompleted(key.turn, key.step) in log
  {
    hide Where;
    var at := Where(log, IsCompletion);
    WhereExactly(log, IsCompletion);
    if key in p.completed {
      var j :| 0 <= j < |p.completed| && p.completed[j] == key;
      assert StepFrom(log, at[j], p.completed[j]);
      assert log[at[j]] == StepCompleted(key.turn, key.step);
    }
    if StepCompleted(key.turn, key.step) in log {
      var n: nat :| n < |log| && log[n] == StepCompleted(key.turn, key.step);
      assert n in at;
      var j :| 0 <= j < |at| && at[j] == n;
      assert StepFrom(log, at[j], p.completed[j]);
    }
  }

  lemma {:induction false} OpenRead(log: seq<Event>, p: RunProjection)
    requires HeadRead(log, p) && StepsRead(log, p)
    ensures p.HasOpenStep() <==> OpenIn(log)
    ensures p.step.Some? ==> p.OpenKey() == StepKey(TurnIn(log), StepIn(log).value)
  {
    hide StepsRead, StatusIn, TurnIn, StepIn, FailureIn;
    if p.step.Some? {
      CompletedRead(log, p, p.OpenKey());
    }
  }

  lemma {:induction false} AnswerRead(log: seq<Event>, p: RunProjection, key: StepKey)
    requires ResponsesRead(log, p)
    ensures FindAssistant(p.assistants, key).Some? <==> AnsweredIn(log, key.turn, key.step)
  {
    hide Where, FindAssistant;
    var at := Where(log, IsResponse);
    WhereExactly(log, IsResponse);
    FoundAssistant(p.assistants, key);
    if FindAssistant(p.assistants, key).Some? {
      var j :| 0 <= j < |p.assistants| && p.assistants[j].key == key;
      assert ResponseFrom(log, at[j], p.assistants[j]);
    }
    if AnsweredIn(log, key.turn, key.step) {
      var n: nat :| n < |log| && log[n].AssistantMessage? && log[n].turn == key.turn && log[n].step == key.step;
      assert n in at;
      var j :| 0 <= j < |at| && at[j] == n;
      assert ResponseFrom(log, at[j], p.assistants[j]);
    }
  }

  lemma {:induction false} ItemRead(log: seq<Event>, p: RunProjection, id: string)
    requires InboxRead(log, p)
    ensures IndexOfItem(p.inbox, id) < |p.inbox| <==> SubmittedIn(log, id)
    ensures IndexOfItem(p.inbox, id) < |p.inbox| ==> (p.inbox[IndexOfItem(p.inbox, id)].consumed <==> IsConsumed(log, id))
  {
    hide Where, IndexOfItem;
    var at := Where(log, IsSubmission);
    WhereExactly(log, IsSubmission);
    IndexOfItemFirst(p.inbox, id);
    var i := IndexOfItem(p.inbox, id);
    if i < |p.inbox| {
      assert ItemFrom(log, at[i], p.inbox[i]);
    }
    if SubmittedIn(log, id) {
      var n: nat :| n < |log| && log[n].InboxSubmitted? && log[n].messageId == id;
      assert n in at;
      var j :| 0 <= j < |at| && at[j] == n;
      assert ItemFrom(log, at[j], p.inbox[j]);
    }
  }

  /** The tool of a call, if it was requested, and whether in the current step. */
  lemma {:induction false} ToolRead(log: seq<Event>, p: RunProjection, id: string)
    requires HeadRead(log, p) && ToolsRead(log, p) && UniqueTools(p.tools)
    ensures IndexOfTool(p.tools, id) < |p.tools| <==> RequestedIn(log, id)
    ensures RequestedNow(log, id) ==> RequestedIn(log, id)
    ensures IndexOfTool(p.tools, id) < |p.tools| && p.step.Some? ==>
              (p.tools[IndexOfTool(p.tools, id)].key == p.OpenKey() <==> RequestedNow(log, id))
  {
    hide Where, IndexOfTool, StatusIn, TurnIn, StepIn, FailureIn;
    var at := Where(log, IsRequest);
    WhereExactly(log, IsRequest);
    IndexOfToolFirst(p.tools, id);
    var i := IndexOfTool(p.tools, id);
    if i < |p.tools| {
      assert ToolFrom(log, at[i], p.tools[i]);
    }
    forall n: nat | n < |log| && log[n].ToolRequested? && log[n].callId == id ensures i < |p.tools| && n == at[i] {
      assert n in at;
      var j :| 0 <= j < |at| && at[j] == n;
      assert ToolFrom(log, at[j], p.tools[j]);
      assert j == i;
    }
  }

  lemma {:induction false} ToolStateRead(log: seq<Event>, id: string)
    requires Project(log).Some? && IndexOfTool(Project(log).value.tools, id) < |Project(log).value.tools|
    ensures var t := Project(log).value.tools[IndexOfTool(Project(log).value.tools, id)];
            && LastOf(log, id).Some?
            && (t.IsDone() <==> LastOf(log, id).value.Ended?) && (t.state.Started? <==> LastOf(log, id).value.Begun?)
  {
    hide Project, LifeOf, LifeCycle, KnowsTool;
    LifeCycles(log, id);
    UnknownIndex(Project(log).value.tools, id);
  }

  lemma {:induction false} CountRead(log: seq<Event>, turn: int)
    requires Project(log).Some?
    ensures StepsOfTurn(Project(log).value.completed, turn) == CompletedIn(log, turn)
    ensures Project(log).value.step.Some? ==> Project(log).value.turn >= 1
  {
    hide Accepts, Advance, Project, StatusIn, TurnIn, StepIn, FailureIn;
    if log == [] {
      NoToolsYet();
    } else {
      var front, e := log[..|log| - 1], log[|log| - 1];
      ProjectLast(log);
      CountRead(front, turn);
      RecordsAfter(Project(front).value, |log| == 1, e);
      StepsAfter(Project(front).value, |log| == 1, e);
      StepNeedsTurn(Project(front).value, |log| == 1, e);
      if e.StepCompleted? {
        StepCountSnoc(Project(front).value.completed, StepKey(e.turn, e.step), turn);
      }
    }
  }

  lemma {:induction false} StepNeedsTurn(p: RunProjection, first: bool, e: Event)
    requires Accepts(p, first, e)
    ensures e.StepStarted? ==> p.turn >= 1
    ensures e.TurnStarted? ==> e.turn == p.turn + 1
  {
    hide FindAssistant, StepsOfTurn, IndexOfTool, IndexOfItem, Blank;
  }

  /* ---------------------------------------------------------------- acceptance, group by group */

  predicate IsToolEvent(e: Event) {
    e.ToolRequested? || e.ToolStarted? || e.ToolCompleted? || e.ToolFailed?
  }

  predicate IsStepEvent(e: Event) {
    e.StepStarted? || e.AssistantMessage? || e.StepCompleted? || e.RunCompleted?
  }

  predicate IsInboxEvent(e: Event) {
    e.InboxSubmitted? || e.InboxConsumed?
  }

  lemma {:induction false} StatusEventsFollow(log: seq<Event>, p: RunProjection, e: Event)
    requires HeadRead(log, p) && !IsToolEvent(e) && !IsStepEvent(e) && !IsInboxEvent(e)
    ensures Accepts(p, log == [], e) <==> MayFollow(log, e)
  {
    hide TurnIn, StepIn, FailureIn, OpenIn, Blank;
    if log == [] {
      assert StatusIn(log).Created?;
    }
  }

  lemma {:induction false} InboxEventsFollow(log: seq<Event>, p: RunProjection, e: Event)
    requires HeadRead(log, p) && InboxRead(log, p) && IsInboxEvent(e)
    ensures Accepts(p, log == [], e) <==> MayFollow(log, e)
  {
    hide StatusIn, TurnIn, StepIn, FailureIn, OpenIn, Blank, InboxRead, IndexOfItem, SubmittedIn, IsConsumed;
    ItemRead(log, p, e.messageId);
  }

  lemma {:induction false} ToolEventsFollow(log: seq<Event>, e: Event)
    requires Project(log).Some? && IsToolEvent(e)
    ensures Accepts(Project(log).value, log == [], e) <==> MayFollow(log, e)
  {
    hide Project, StatusIn, TurnIn, StepIn, FailureIn, OpenIn, Blank, StepsRead, ResponsesRead, ToolsRead, InboxRead, IndexOfTool, RequestedIn,
         RequestedNow, LastOf, FindAssistant, StepsOfTurn;
    var p := Project(log).value;
    ProjectedParts(log);
    ToolsDistinct(log);
    OpenRead(log, p);
    ToolRead(log, p, e.callId);
    if IndexOfTool(p.tools, e.callId) < |p.tools| {
      ToolStateRead(log, e.callId);
    }
  }

  /** All tools of the open step are finished if and only if the last event of each call requested in it is an end. */
  lemma {:induction false} StepToolsRead(log: seq<Event>)
    requires Project(log).Some? && Project(log).value.step.Some?
    ensures var p := Project(log).value;
            (forall i | 0 <= i < |p.tools| :: p.tools[i].key == p.OpenKey() ==> p.tools[i].IsDone())
            <==> forall id | RequestedNow(log, id) :: LastOf(log, id).Some? && LastOf(log, id).value.Ended?
  {
    hide Project, StatusIn, TurnIn, StepIn, FailureIn, ToolsRead, IndexOfTool, RequestedIn, RequestedNow, LastOf, StepsRead, ResponsesRead, InboxRead;
    var p := Project(log).value;
    ProjectedParts(log);
    ToolsDistinct(log);
    forall i | 0 <= i < |p.tools|
      ensures p.tools[i].key == p.OpenKey() <==> RequestedNow(log, p.tools[i].callId)
      ensures LastOf(log, p.tools[i].callId).Some? && (p.tools[i].IsDone() <==> LastOf(log, p.tools[i].callId).value.Ended?)
    {
      KnownByName(p.tools, i);
      ToolRead(log, p, p.tools[i].callId);
      ToolStateRead(log, p.tools[i].callId);
    }
    forall id | RequestedNow(log, id) ensures exists i | 0 <= i < |p.tools| :: p.tools[i].callId == id {
      ToolRead(log, p, id);
      IndexOfToolFirst(p.tools, id);
      assert p.tools[IndexOfTool(p.tools, id)].callId == id;
    }
  }

  lemma {:induction false} StepEventsFollow(log: seq<Event>, e: Event)
    requires Project(log).Some? && IsStepEvent(e)
    ensures Accepts(Project(log).value, log == [], e) <==> MayFollow(log, e)
  {
    hide Project, StatusIn, TurnIn, StepIn, FailureIn, OpenIn, StepsRead, ResponsesRead, ToolsRead, InboxRead, RequestedNow, LastOf, FindAssistant,
         StepsOfTurn, CompletedIn, AnsweredIn;
    var p := Project(log).value;
    ProjectedParts(log);
    StepLaws(log);
    OpenRead(log, p);
    CountRead(log, p.turn);
    if p.step.Some? {
      AnswerRead(log, p, p.OpenKey());
      StepToolsRead(log);
    }
  }

  lemma {:induction false} NextAccepted(log: seq<Event>, e: Event)
    requires Project(log).Some?
    ensures Accepts(Project(log).value, log == [], e) <==> MayFollow(log, e)
  {
    hide Project, Accepts, MayFollow, ReadFrom;
    ProjectedParts(log);
    PartsRead(log, Project(log).value);
    if IsToolEvent(e) {
      ToolEventsFollow(log, e);
    } else if IsStepEvent(e) {
      StepEventsFollow(log, e);
    } else if IsInboxEvent(e) {
      InboxEventsFollow(log, Project(log).value, e);
    } else {
      StatusEventsFollow(log, Project(log).value, e);
    }
  }

  lemma {:induction false} PartsRead(log: seq<Event>, p: RunProjection)
    requires ReadFrom(log, p)
    ensures HeadRead(log, p) && InboxRead(log, p)
  {
    hide HeadRead, InboxRead, StepsRead, ResponsesRead, ToolsRead;
  }

  /** The projector accepts exactly the logs in which every event may follow the ones before it. */
  lemma {:induction false} AcceptedExactly(log: seq<Event>)
    ensures Project(log).Some? <==> forall n | 0 <= n < |log| :: MayFollow(log[..n], log[n])
  {
    hide Project, Accepts, Advance, MayFollow;
    if log == [] {
      EmptyRead();
    } else {
      var front, e := log[..|log| - 1], log[|log| - 1];
      ProjectLast(log);
      AcceptedExactly(front);
      if Project(front).Some? {
        NextAccepted(front, e);
      }
      assert forall n | 0 <= n < |front| :: front[..n] == log[..n] && front[n] == log[n];
      assert log[..|front|] == front;
    }
  }
}
