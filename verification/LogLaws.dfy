/** What holds of every log the projector accepts, whoever wrote it. */
module LogLaws {
  import opened Events
  import opened Projection

  /* ---------------------------------------------------------------- prefixes */

  /** Acceptance is closed under prefixes, so every log that was ever stored on the way is accepted too. */
  lemma {:induction false} PrefixAccepted(log: seq<Event>, n: nat)
    requires Project(log).Some? && n <= |log|
    ensures Project(log[..n]).Some?
    decreases |log|
  {
    if n < |log| {
      ProjectLast(log);
      PrefixAccepted(log[..|log| - 1], n);
      assert log[..|log| - 1][..n] == log[..n];
    } else {
      assert log[..n] == log;
    }
  }

  /** Accepting a log is accepting its events one by one. */
  lemma {:induction false} EventAccepted(log: seq<Event>, n: nat)
    requires Project(log).Some? && n < |log|
    ensures Project(log[..n]).Some? && Project(log[..n + 1]).Some?
    ensures Accepts(Project(log[..n]).value, n == 0, log[n])
    ensures Project(log[..n + 1]).value == Advance(Project(log[..n]).value, log[n])
  {
    hide Accepts, Advance, Project;
    PrefixAccepted(log, n + 1);
    ProjectLast(log[..n + 1]);
    assert log[..n + 1][..n] == log[..n];
  }

  /** The status after an event. */
  lemma {:induction false} StatusAfter(p: RunProjection, first: bool, e: Event)
    requires Accepts(p, first, e)
    ensures Advance(p, e).status
         == match e
            case RunStarted => Running
            case ApprovalRequested(_, _) => WaitingApproval
            case ApprovalDecided(_, _) => Running
            case RunCancelling => Cancelling
            case RunCompleted => Completed
            case RunCancelled => Cancelled
            case RunFailed(_) => Failed
            case RunFailedUncertain(_) => FailedUncertain
            case _ => p.status
  {
    hide StepsOfTurn, FindAssistant, IndexOfTool, IndexOfItem, Blank;
  }

  /* ---------------------------------------------------------------- steps */

  predicate Before(a: StepKey, b: StepKey) {
    a.turn < b.turn || (a.turn == b.turn && a.step < b.step)
  }

  /** Completed steps increase strictly, and those of one turn are numbered 1, 2, 3 and so on. */
  predicate StepsNumbered(completed: seq<StepKey>) {
    && (forall i, j | 0 <= i < j < |completed| :: Before(completed[i], completed[j]))
    && (forall i | 0 <= i < |completed| :: completed[i].step == 1 + StepsOfTurn(completed[..i], completed[i].turn))
  }

  /** No completed step lies beyond the current turn, or beyond those counted in it. */
  predicate StepsBehind(p: RunProjection) {
    && (forall i | 0 <= i < |p.completed| :: p.completed[i].turn <= p.turn)
    && (forall i | 0 <= i < |p.completed| && p.completed[i].turn == p.turn ::
          p.completed[i].step <= StepsOfTurn(p.completed, p.turn))
    && (p.HasOpenStep() ==> p.step.value == 1 + StepsOfTurn(p.completed, p.turn))
    && p.turn >= 0
  }

  lemma {:induction false} StepCountSnoc(completed: seq<StepKey>, key: StepKey, turn: int)
    ensures StepsOfTurn(completed + [key], turn) == StepsOfTurn(completed, turn) + (if key.turn == turn then 1 else 0)
  {
    assert (completed + [key])[..|completed + [key]| - 1] == completed;
  }

  lemma {:induction false} NumberedSnoc(completed: seq<StepKey>, key: StepKey)
    requires StepsNumbered(completed)
    requires forall i | 0 <= i < |completed| :: Before(completed[i], key)
    requires key.step == 1 + StepsOfTurn(completed, key.turn)
    ensures StepsNumbered(completed + [key])
  {
    var all := completed + [key];
    forall i | 0 <= i < |all| ensures all[i].step == 1 + StepsOfTurn(all[..i], all[i].turn) {
      assert all[..i] == completed[..i];
      assert completed[..|completed|] == completed;
    }
  }

  lemma {:induction false} NoneInLaterTurn(completed: seq<StepKey>, turn: int)
    requires forall i | 0 <= i < |completed| :: completed[i].turn < turn
    ensures StepsOfTurn(completed, turn) == 0
  {
    if completed != [] {
      NoneInLaterTurn(completed[..|completed| - 1], turn);
    }
  }

  /** Which events touch the steps, and how. */
  lemma {:induction false} StepsAfter(p: RunProjection, first: bool, e: Event)
    requires Accepts(p, first, e)
    ensures var q := Advance(p, e);
            if e.TurnStarted? then q.turn == p.turn + 1 && q.step.None? && q.completed == p.completed
            else if e.StepStarted? then
              q.turn == p.turn && q.step == Some(1 + StepsOfTurn(p.completed, p.turn)) && q.completed == p.completed
            else if e.StepCompleted? then
              p.HasOpenStep() && q.turn == p.turn && q.step == p.step && q.completed == p.completed + [p.OpenKey()]
            else q.turn == p.turn && q.step == p.step && q.completed == p.completed
  {
    hide FindAssistant, StepsOfTurn, IndexOfTool, IndexOfItem, Blank;
  }

  lemma {:induction false} CompletionKept(p: RunProjection, q: RunProjection)
    requires StepsNumbered(p.completed) && StepsBehind(p) && p.HasOpenStep()
    requires q.turn == p.turn && q.step == p.step && q.completed == p.completed + [p.OpenKey()]
    ensures StepsNumbered(q.completed) && StepsBehind(q)
  {
    hide StepsNumbered, StepsOfTurn;
    NumberedSnoc(p.completed, p.OpenKey());
    StepCountSnoc(p.completed, p.OpenKey(), p.turn);
    assert q.completed[|p.completed|] == p.OpenKey();
  }

  lemma {:induction false} StepLawsKept(p: RunProjection, first: bool, e: Event)
    requires StepsNumbered(p.completed) && StepsBehind(p) && Accepts(p, first, e)
    ensures StepsNumbered(Advance(p, e).completed) && StepsBehind(Advance(p, e))
  {
    hide StepsNumbered, StepsOfTurn, Accepts, Advance;
    StepsAfter(p, first, e);
    if e.TurnStarted? {
      NoneInLaterTurn(p.completed, p.turn + 1);
    } else if e.StepCompleted? {
      CompletionKept(p, Advance(p, e));
    }
  }

  lemma {:induction false} StepLawsInitial()
    ensures Project([]) == Some(INITIAL) && StepsNumbered(INITIAL.completed) && StepsBehind(INITIAL)
    ensures ResponsesOfSteps(INITIAL) && ToolsOfSteps(INITIAL)
  {
  }

  lemma {:induction false} StepLaws(log: seq<Event>)
    requires Project(log).Some?
    ensures StepsNumbered(Project(log).value.completed) && StepsBehind(Project(log).value)
  {
    hide Accepts, Advance, StepsNumbered, StepsBehind, Project;
    if log == [] {
      StepLawsInitial();
    } else {
      ProjectLast(log);
      StepLaws(log[..|log| - 1]);
      StepLawsKept(Project(log[..|log| - 1]).value, |log| == 1, log[|log| - 1]);
    }
  }

  /* ---------------------------------------------------------------- one response, finished tools */

  /** At most one response per step, each in a step that was started; a completed step has one. */
  predicate ResponsesOfSteps(p: RunProjection) {
    && (forall i, j | 0 <= i < j < |p.assistants| :: p.assistants[i].key != p.assistants[j].key)
    && (forall i | 0 <= i < |p.completed| :: HasResponse(p.assistants, p.completed[i]))
    && (forall i | 0 <= i < |p.assistants| :: p.assistants[i].key.turn <= p.turn)
  }

  predicate HasResponse(records: seq<AssistantRecord>, key: StepKey) {
    exists i | 0 <= i < |records| :: records[i].key == key
  }

  predicate ToolsOfSteps(p: RunProjection) {
    forall i | 0 <= i < |p.tools| && p.tools[i].key in p.completed :: p.tools[i].IsDone()
  }

  /** Which events touch the responses, and how. */
  lemma {:induction false} ResponsesAfter(p: RunProjection, first: bool, e: Event)
    requires Accepts(p, first, e)
    ensures if e.AssistantMessage? then
              && p.HasOpenStep() && FindAssistant(p.assistants, p.OpenKey()).None?
              && |Advance(p, e).assistants| == |p.assistants| + 1 && Advance(p, e).assistants[..|p.assistants|] == p.assistants
              && Advance(p, e).assistants[|p.assistants|].key == p.OpenKey()
            else Advance(p, e).assistants == p.assistants
    ensures e.StepCompleted? ==> p.HasOpenStep() && FindAssistant(p.assistants, p.OpenKey()).Some?
  {
    hide FindAssistant, StepsOfTurn, IndexOfTool, IndexOfItem, Blank;
  }

  lemma {:induction false} ResponseLawsKept(p: RunProjection, first: bool, e: Event)
    requires ResponsesOfSteps(p) && StepsBehind(p) && Accepts(p, first, e)
    ensures ResponsesOfSteps(Advance(p, e))
  {
    hide StepsOfTurn, Accepts, Advance, FindAssistant;
    var q := Advance(p, e);
    StepsAfter(p, first, e);
    ResponsesAfter(p, first, e);
    if e.AssistantMessage? {
      FoundAssistant(p.assistants, p.OpenKey());
      assert forall i | 0 <= i < |p.assistants| :: q.assistants[i] == q.assistants[..|p.assistants|][i];
      forall i | 0 <= i < |q.completed| ensures HasResponse(q.assistants, q.completed[i]) {
        var k :| 0 <= k < |p.assistants| && p.assistants[k].key == p.completed[i];
        assert q.assistants[k].key == p.completed[i];
      }
    } else if e.StepCompleted? {
      FoundAssistant(p.assistants, p.OpenKey());
    }
  }

  lemma {:induction false} ToolLawsKept(p: RunProjection, first: bool, e: Event)
    requires ToolsOfSteps(p) && Accepts(p, first, e)
    ensures ToolsOfSteps(Advance(p, e))
  {
    hide StepsOfTurn, FindAssistant, Blank;
    var q := Advance(p, e);
    if e.ToolStarted? || e.ToolCompleted? || e.ToolFailed? {
      IndexOfToolFirst(p.tools, e.callId);
    } else if e.StepCompleted? {
      assert forall i | 0 <= i < |p.tools| && p.tools[i].key in q.completed :: p.tools[i].key in p.completed || p.tools[i].key == p.OpenKey();
    }
  }

  /** Each completed step has exactly one response and only finished tools. */
  lemma {:induction false} CompletedSteps(log: seq<Event>)
    requires Project(log).Some?
    ensures ResponsesOfSteps(Project(log).value) && ToolsOfSteps(Project(log).value)
  {
    hide Accepts, Advance, StepsNumbered, StepsBehind, ResponsesOfSteps, ToolsOfSteps, Project;
    if log == [] {
      StepLawsInitial();
    } else {
      var front := log[..|log| - 1];
      ProjectLast(log);
      CompletedSteps(front);
      StepLaws(front);
      ResponseLawsKept(Project(front).value, |log| == 1, log[|log| - 1]);
      ToolLawsKept(Project(front).value, |log| == 1, log[|log| - 1]);
    }
  }

  /* ---------------------------------------------------------------- the life of a tool call */

  datatype Life = Asked | Begun | Ended(isError: bool)

  /** What an event is in the life of a call, if it belongs to it. */
  function LifeEvent(e: Event, callId: string): Option<Life> {
    match e
    case ToolRequested(id, _, _, _, _) => if id == callId then Some(Asked) else None
    case ToolStarted(id) => if id == callId then Some(Begun) else None
    case ToolCompleted(id, isError, _) => if id == callId then Some(Ended(isError)) else None
    case ToolFailed(id, _) => if id == callId then Some(Ended(true)) else None
    case _ => None
  }

  function LifeOf(log: seq<Event>, callId: string): seq<Life> {
    if log == [] then []
    else
      var last := LifeEvent(log[|log| - 1], callId);
      LifeOf(log[..|log| - 1], callId) + if last.Some? then [last.value] else []
  }

  /** Requested once, then started any number of times, then ended at most once. */
  predicate LifeCycle(life: seq<Life>) {
    life == []
    || (&& life[0].Asked?
        && (forall i | 0 < i < |life| - 1 :: life[i].Begun?)
        && (|life| > 1 ==> !life[|life| - 1].Asked?)
        && (life[|life| - 1].Ended? ==> |life| > 2))
  }

  function StateAfter(life: seq<Life>): ToolState
    requires life != []
  {
    match life[|life| - 1]
    case Asked => Requested
    case Begun => Started
    case Ended(isError) => if isError then Errored else Succeeded
  }

  /** What may come next in a life. */
  predicate Continues(life: seq<Life>, next: Life) {
    match next
    case Asked => life == []
    case Begun => life != [] && !life[|life| - 1].Ended?
    case Ended(_) => life != [] && life[|life| - 1].Begun?
  }

  lemma {:induction false} LifeCycleSnoc(life: seq<Life>, next: Life)
    requires LifeCycle(life) && Continues(life, next)
    ensures LifeCycle(life + [next])
  {
  }

  lemma {:induction false} LifeContinues(p: RunProjection, first: bool, e: Event, callId: string, life: seq<Life>)
    requires Accepts(p, first, e) && LivesAt(p.tools, callId, life) && LifeEvent(e, callId).Some?
    ensures Continues(life, LifeEvent(e, callId).value)
  {
    hide StepsOfTurn, FindAssistant, KnowsTool, Blank;
    UnknownIndex(p.tools, callId);
  }

  lemma {:induction false} LifeStep(p: RunProjection, first: bool, e: Event, callId: string, life: seq<Life>)
    requires Accepts(p, first, e) && LivesAt(p.tools, callId, life)
    ensures var last := LifeEvent(e, callId);
            LivesAt(Advance(p, e).tools, callId, life + if last.Some? then [last.value] else [])
  {
    hide KnowsTool, Accepts, Advance;
    ToolsAfter(p, first, e);
    if LifeEvent(e, callId).None? {
      assert life + [] == life;
    }
    if e.ToolRequested? {
      RequestedTool(p, Advance(p, e), e, callId);
    } else if e.ToolStarted? || e.ToolCompleted? || e.ToolFailed? {
      HandledTool(p.tools, Advance(p, e).tools, e, callId);
      UnknownIndex(p.tools, e.callId);
      IndexOfToolFirst(p.tools, callId);
    }
  }

  /** The record of a call is where the events of its life have come to. */
  predicate LivesAt(tools: seq<ToolRecord>, callId: string, life: seq<Life>) {
    && (life != [] <==> KnowsTool(tools, callId))
    && (life != [] ==> IndexOfTool(tools, callId) < |tools| && tools[IndexOfTool(tools, callId)].state == StateAfter(life))
  }

  lemma {:induction false} RequestedTool(p: RunProjection, q: RunProjection, e: Event, callId: string)
    requires e.ToolRequested? && IndexOfTool(p.tools, e.callId) == |p.tools|
    requires |q.tools| == |p.tools| + 1 && q.tools == p.tools + [q.tools[|p.tools|]]
    requires q.tools[|p.tools|].callId == e.callId && q.tools[|p.tools|].state.Requested?
    ensures && (KnowsTool(q.tools, callId) <==> KnowsTool(p.tools, callId) || e.callId == callId)
            && (KnowsTool(p.tools, callId) ==>
                  && e.callId != callId && IndexOfTool(p.tools, callId) < |p.tools|
                  && IndexOfTool(q.tools, callId) == IndexOfTool(p.tools, callId)
                  && q.tools[IndexOfTool(q.tools, callId)] == p.tools[IndexOfTool(p.tools, callId)])
            && (e.callId == callId ==> IndexOfTool(q.tools, callId) == |p.tools| && q.tools[|p.tools|].state.Requested?)
  {
    hide KnowsTool;
    UnknownIndex(p.tools, callId);
    UnknownIndex(q.tools, callId);
    IndexUnderAppend(p.tools, q.tools[|p.tools|], callId);
  }

  /** What a later event of a call does to the tools. */
  predicate Handled(tools: seq<ToolRecord>, tools': seq<ToolRecord>, e: Event) {
    && (e.ToolStarted? || e.ToolCompleted? || e.ToolFailed?)
    && var k := IndexOfTool(tools, e.callId);
    && k < |tools|
    && tools' == tools[k := tools[k].(state := if e.ToolStarted? then Started else if e.ToolFailed? || e.isError then Errored else Succeeded)]
  }

  /** Which events touch the tools, and how. */
  lemma {:induction false} ToolsAfter(p: RunProjection, first: bool, e: Event)
    requires Accepts(p, first, e)
    ensures var q := Advance(p, e);
            if e.ToolRequested? then
              && p.step.Some? && IndexOfTool(p.tools, e.callId) == |p.tools|
              && q.tools == p.tools + [ToolRecord(e.callId, e.name, e.arguments, e.effect, p.OpenKey(), e.callIndex, Requested)]
            else if e.ToolStarted? || e.ToolCompleted? || e.ToolFailed? then
              && Handled(p.tools, q.tools, e) && !p.tools[IndexOfTool(p.tools, e.callId)].IsDone()
              && p.HasOpenStep() && p.tools[IndexOfTool(p.tools, e.callId)].key == p.OpenKey()
              && (!e.ToolStarted? ==> p.tools[IndexOfTool(p.tools, e.callId)].state.Started?)
            else q.tools == p.tools
  {
    hide FindAssistant, StepsOfTurn, IndexOfTool, IndexOfItem, Blank;
  }

  lemma {:induction false} HandledTool(tools: seq<ToolRecord>, tools': seq<ToolRecord>, e: Event, callId: string)
    requires Handled(tools, tools', e)
    ensures tools[IndexOfTool(tools, e.callId)].callId == e.callId
    ensures KnowsTool(tools', callId) <==> KnowsTool(tools, callId)
    ensures IndexOfTool(tools', callId) == IndexOfTool(tools, callId)
  {
    hide KnowsTool;
    var k := IndexOfTool(tools, e.callId);
    IndexOfToolFirst(tools, e.callId);
    IndexUnderUpdate(tools, k, tools'[k], callId);
    UnknownIndex(tools, callId);
    UnknownIndex(tools', callId);
  }

  lemma {:induction false} EmptyLife()
    ensures LifeCycle([])
  {
  }

  /** The events of every call follow the life cycle, and the projected state is where it has come to. */
  lemma {:induction false} LifeCycles(log: seq<Event>, callId: string)
    requires Project(log).Some?
    ensures LifeCycle(LifeOf(log, callId)) && LivesAt(Project(log).value.tools, callId, LifeOf(log, callId))
  {
    hide Accepts, Advance, LifeCycle, LifeEvent;
    if log == [] {
      EmptyLife();
    } else {
      var front := log[..|log| - 1];
      ProjectLast(log);
      LifeCycles(front, callId);
      var p, e := Project(front).value, log[|log| - 1];
      LifeStep(p, |log| == 1, e, callId, LifeOf(front, callId));
      if LifeEvent(e, callId).Some? {
        LifeContinues(p, |log| == 1, e, callId, LifeOf(front, callId));
        LifeCycleSnoc(LifeOf(front, callId), LifeEvent(e, callId).value);
      } else {
        assert LifeOf(front, callId) + [] == LifeOf(front, callId);
      }
    }
  }

  /* ---------------------------------------------------------------- distinct ids */

  lemma {:induction false} ToolsDistinct(log: seq<Event>)
    requires Project(log).Some?
    ensures UniqueTools(Project(log).value.tools)
  {
    hide Accepts, Advance, Project;
    if log == [] {
      NoToolsYet();
    } else {
      var front := log[..|log| - 1];
      ProjectLast(log);
      ToolsDistinct(front);
      DistinctStays(Project(front).value, |log| == 1, log[|log| - 1]);
    }
  }

  lemma {:induction false} NoToolsYet()
    ensures Project([]) == Some(INITIAL)
  {
  }

  lemma {:induction false} DistinctStays(p: RunProjection, first: bool, e: Event)
    requires UniqueTools(p.tools) && Accepts(p, first, e)
    ensures UniqueTools(Advance(p, e).tools)
  {
    hide Accepts, Advance;
    ToolsAfter(p, first, e);
    if e.ToolRequested? {
      IndexOfToolFirst(p.tools, e.callId);
    }
  }

  /** How an accepted event changes the inbox. */
  lemma {:induction false} InboxShape(p: RunProjection, first: bool, e: Event)
    requires Accepts(p, first, e)
    ensures e.InboxSubmitted? ==>
              && IndexOfItem(p.inbox, e.messageId) == |p.inbox|
              && Advance(p, e).inbox == p.inbox + [InboxItem(e.messageId, e.kind, e.target, e.role, e.content, false)]
    ensures e.InboxConsumed? ==>
              var i := IndexOfItem(p.inbox, e.messageId);
              i < |p.inbox| && Advance(p, e).inbox == p.inbox[i := p.inbox[i].(consumed := true)]
    ensures !e.InboxSubmitted? && !e.InboxConsumed? ==> Advance(p, e).inbox == p.inbox
  {
    hide FindAssistant, StepsOfTurn, KnowsTool, IndexOfTool, Blank;
  }
}
