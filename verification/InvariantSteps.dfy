/** One lemma per kind of event the runtime appends: the projector accepts it where the runtime appends
    it, and the invariant of the projection carries over. */
module InvariantSteps {
  import opened Events
  import opened RunModels
  import opened Projection
  import opened ToolPipeline
  import opened Runtime
  import opened Conversation
  import opened LogLaws
  import opened RuntimeInvariant
  import opened DriverLemmas

  /** Accepting `e` is lawful and keeps the invariant. */
  ghost predicate Keeps(cfg: Config, log: seq<Event>, p: RunProjection, e: Event, base: nat, cursor: nat) {
    Accepts(p, log == [], e) && Lawful(cfg, log, p, e) && StateOk(cfg, log + [e], Advance(p, e), base, cursor)
  }

  predicate Quiet(e: Event) {
    !e.ApprovalRequested? && !e.ApprovalDecided?
  }

  /* ---------------------------------------------------------------- approvals under quiet events */

  lemma {:induction false} RequestsKnownSnoc(log: seq<Event>, e: Event, tools: seq<ToolRecord>, tools': seq<ToolRecord>, cursor: nat, cursor': nat)
    requires RequestsKnown(log, tools, cursor) && cursor <= cursor' && |tools| <= |tools'|
    requires forall i | 0 <= i < |log| && log[i].ApprovalRequested? ::
               IndexOfTool(tools', log[i].callId) == IndexOfTool(tools, log[i].callId)
    requires e.ApprovalRequested? ==>
               && e.requestId == ApprovalOf(e.callId)
               && IndexOfTool(tools', e.callId) <= cursor' && IndexOfTool(tools', e.callId) < |tools'|
    ensures RequestsKnown(log + [e], tools', cursor')
  {
  }

  lemma {:induction false} DecisionsAnswerSnoc(log: seq<Event>, e: Event)
    requires DecisionsAnswer(log)
    requires e.ApprovalDecided? ==> HasRequest(log, e.requestId)
    ensures DecisionsAnswer(log + [e])
  {
    assert (log + [e])[..|log + [e]| - 1] == log;
  }

  /** Events that touch neither tools nor approvals keep the approval part. */
  lemma {:induction false} QuietApprovals(cfg: Config, log: seq<Event>, e: Event, p: RunProjection, q: RunProjection, base: nat, cursor: nat)
    requires base <= cursor <= |p.tools| && ApprovalsOk(cfg, log, p, base, cursor) && Quiet(e)
    requires q.tools == p.tools && !q.status.WaitingApproval?
    ensures ApprovalsOk(cfg, log + [e], q, base, cursor)
  {
    hide RequestsKnown, DecisionsAnswer, NeedsApproval, RunPreflight;
    RequestsKnownSnoc(log, e, p.tools, q.tools, cursor, cursor);
    DecisionsAnswerSnoc(log, e);
    if cursor < |p.tools| {
      ApprovalsSnoc(log, e, p.tools[cursor].callId);
    }
  }

  /** Two projections with the same steps, responses and tools. */
  predicate SameWork(p: RunProjection, q: RunProjection) {
    && q.turn == p.turn && q.step == p.step && q.completed == p.completed
    && q.assistants == p.assistants && q.tools == p.tools
  }

  lemma {:induction false} SameSteps(p: RunProjection, q: RunProjection)
    requires q.turn == p.turn && q.step == p.step && q.completed == p.completed && q.assistants == p.assistants
    ensures StepsOk(p) ==> StepsOk(q)
    ensures AssistantsOk(p) ==> AssistantsOk(q)
    ensures q.HasOpenStep() == p.HasOpenStep() && q.CurrentAssistant() == p.CurrentAssistant()
  {
  }

  lemma {:induction false} SameInbox(p: RunProjection, q: RunProjection)
    requires q.inbox == p.inbox
    ensures InboxOk(p) ==> InboxOk(q)
    ensures InboxNamed(p) ==> InboxNamed(q)
  {
  }

  lemma {:induction false} SameWorkKeeps(cfg: Config, p: RunProjection, q: RunProjection, base: nat, cursor: nat)
    requires SameWork(p, q)
    ensures StepsOk(p) ==> StepsOk(q)
    ensures AssistantsOk(p) ==> AssistantsOk(q)
    ensures ToolsOk(cfg, p, base, cursor) ==> ToolsOk(cfg, q, base, cursor)
    ensures BudgetsOk(cfg, p, base) ==> BudgetsOk(cfg, q, base)
    ensures HasUncertain(p) == HasUncertain(q)
  {
  }

  /* ---------------------------------------------------------------- the end of a run */

  /** When a terminal event may be written. */
  predicate MayEnd(p: RunProjection, e: Event) {
    && !p.status.IsTerminal() && !p.status.Created?
    && match e
       case RunCompleted => p.status.Running? && p.step.Some? && !p.HasOpenStep() && !AwaitsStep(p) && PendingIds(p.inbox, NextTurn) == [] && !HasUncertain(p)
       case RunCancelled => p.status.Cancelling? && !HasUncertain(p)
       case RunFailed(reason) => p.status.Running? && !reason.Free? && !HasUncertain(p)
       case RunFailedUncertain(reason) => !p.status.WaitingApproval? && !reason.Free? && HasUncertain(p)
       case _ => false
  }

  lemma {:induction false} EndKeeps(cfg: Config, log: seq<Event>, p: RunProjection, e: Event, base: nat, cursor: nat)
    requires StateOk(cfg, log, p, base, cursor) && MayEnd(p, e)
    ensures Keeps(cfg, log, p, e, base, cursor)
  {
    hide ConversationOk, InboxOk, InboxNamed, StepsOk, AssistantsOk, ToolsOk, BudgetsOk, ApprovalsOk;
    SameWorkKeeps(cfg, p, Advance(p, e), base, cursor);
    SameInbox(p, Advance(p, e));
    QuietApprovals(cfg, log, e, p, Advance(p, e), base, cursor);
    SameTalk(p, Advance(p, e), base, cursor);
  }

  lemma {:induction false} CancelKeeps(cfg: Config, log: seq<Event>, p: RunProjection, base: nat, cursor: nat)
    requires StateOk(cfg, log, p, base, cursor) && (p.status.Running? || p.status.WaitingApproval?)
    ensures Keeps(cfg, log, p, RunCancelling, base, cursor)
  {
    hide ConversationOk, InboxOk, InboxNamed, StepsOk, AssistantsOk, ToolsOk, BudgetsOk, ApprovalsOk;
    SameWorkKeeps(cfg, p, Advance(p, RunCancelling), base, cursor);
    SameInbox(p, Advance(p, RunCancelling));
    QuietApprovals(cfg, log, RunCancelling, p, Advance(p, RunCancelling), base, cursor);
    SameTalk(p, Advance(p, RunCancelling), base, cursor);
  }

  /* ---------------------------------------------------------------- inbox */

  lemma {:induction false} PendingSnoc(inbox: seq<InboxItem>, item: InboxItem, target: InboxTarget)
    ensures PendingIds(inbox + [item], target)
         == PendingIds(inbox, target) + (if !item.consumed && item.target == target then [item.messageId] else [])
  {
    if inbox != [] {
      PendingSnoc(inbox[1..], item, target);
      assert (inbox + [item])[1..] == inbox[1..] + [item];
    }
  }

  lemma {:induction false} SubmitKeeps(cfg: Config, log: seq<Event>, p: RunProjection, e: Event, base: nat, cursor: nat)
    requires StateOk(cfg, log, p, base, cursor) && p.status.Running?
    requires e.InboxSubmitted? && !Blank(e.messageId) && !BlankRole(e.role) && IndexOfItem(p.inbox, e.messageId) == |p.inbox|
    ensures Keeps(cfg, log, p, e, base, cursor)
  {
    hide ConversationOk, StepsOk, AssistantsOk, ToolsOk, BudgetsOk, ApprovalsOk;
    IndexOfItemFirst(p.inbox, e.messageId);
    SameWorkKeeps(cfg, p, Advance(p, e), base, cursor);
    QuietApprovals(cfg, log, e, p, Advance(p, e), base, cursor);
    SameTalk(p, Advance(p, e), base, cursor);
  }

  lemma {:induction false} ItemIndexIs(inbox: seq<InboxItem>, i: nat)
    requires i < |inbox|
    requires forall a, b | 0 <= a < b < |inbox| :: inbox[a].messageId != inbox[b].messageId
    ensures IndexOfItem(inbox, inbox[i].messageId) == i
  {
    IndexOfItemFirst(inbox, inbox[i].messageId);
  }

  /** Pending messages are unconsumed inbox items. */
  lemma {:induction false} PendingItem(inbox: seq<InboxItem>, target: InboxTarget, k: nat) returns (i: nat)
    requires k < |PendingIds(inbox, target)|
    ensures i < |inbox| && inbox[i].messageId == PendingIds(inbox, target)[k]
    ensures !inbox[i].consumed && inbox[i].target == target
  {
    var here := !inbox[0].consumed && inbox[0].target == target;
    if here && k == 0 {
      i := 0;
    } else {
      i := PendingItem(inbox[1..], target, if here then k - 1 else k);
      i := i + 1;
    }
  }

  /** Consuming the first pending message leaves the others pending. */
  lemma {:induction false} PendingAfterConsume(inbox: seq<InboxItem>, target: InboxTarget, i: nat)
    requires PendingIds(inbox, target) != [] && i < |inbox|
    requires inbox[i].messageId == PendingIds(inbox, target)[0] && !inbox[i].consumed && inbox[i].target == target
    requires forall a, b | 0 <= a < b < |inbox| :: inbox[a].messageId != inbox[b].messageId
    ensures PendingIds(inbox[i := inbox[i].(consumed := true)], target) == PendingIds(inbox, target)[1..]
    ensures forall t: InboxTarget | t != target ::
              PendingIds(inbox[i := inbox[i].(consumed := true)], t) == PendingIds(inbox, t)
  {
    var after := inbox[i := inbox[i].(consumed := true)];
    if i == 0 {
      assert after[1..] == inbox[1..];
    } else {
      var k := if !inbox[0].consumed && inbox[0].target == target then 0 else 1;
      assert k == 1;
      assert after[1..] == inbox[1..][i - 1 := inbox[1..][i - 1].(consumed := true)];
      PendingAfterConsume(inbox[1..], target, i - 1);
    }
  }

  lemma {:induction false} ConsumeKeeps(cfg: Config, log: seq<Event>, p: RunProjection, target: InboxTarget, i: nat, base: nat, cursor: nat)
    requires StateOk(cfg, log, p, base, cursor) && p.status.Running? && !p.HasOpenStep()
    requires i < |p.inbox| && !p.inbox[i].consumed && FirstPending(p.inbox, target, p.inbox[i].messageId)
    requires target.NextStep? ==> AwaitsStep(p)
    ensures Keeps(cfg, log, p, InboxConsumed(p.inbox[i].messageId), base, cursor)
    ensures Advance(p, InboxConsumed(p.inbox[i].messageId)).inbox == p.inbox[i := p.inbox[i].(consumed := true)]
  {
    hide ConversationOk, StepsOk, AssistantsOk, ToolsOk, BudgetsOk, ApprovalsOk;
    var e := InboxConsumed(p.inbox[i].messageId);
    ItemIndexIs(p.inbox, i);
    SameWorkKeeps(cfg, p, Advance(p, e), base, cursor);
    QuietApprovals(cfg, log, e, p, Advance(p, e), base, cursor);
    PlainTalk(p, Advance(p, e), p.inbox[i].role, p.inbox[i].content, base, cursor);
  }

  /* ---------------------------------------------------------------- turns and steps */

  /** `q` is `p`, which has no open step, moved to a turn or step that has no response yet. */
  predicate Moved(p: RunProjection, q: RunProjection) {
    && !p.HasOpenStep() && !(q.HasOpenStep() && q.CurrentAssistant().Some?)
    && q.completed == p.completed && q.tools == p.tools && q.assistants == p.assistants
  }

  lemma {:induction false} MovedTools(cfg: Config, p: RunProjection, q: RunProjection, base: nat, cursor: nat)
    requires ToolsOk(cfg, p, base, cursor) && Moved(p, q)
    ensures base == cursor == |p.tools| && ToolsOk(cfg, q, |p.tools|, |p.tools|)
  {
    hide RequestsOk, UniqueTools, FindAssistant, AllRequested;
  }

  lemma {:induction false} MovedBudgets(cfg: Config, p: RunProjection, q: RunProjection)
    requires BudgetsOk(cfg, p, |p.tools|) && Moved(p, q)
    requires |p.completed| + (if q.HasOpenStep() then 1 else 0) <= cfg.limits.maxSteps
    ensures BudgetsOk(cfg, q, |p.tools|)
  {
    hide FindAssistant;
  }

  lemma {:induction false} StepBounds(cfg: Config, p: RunProjection, base: nat)
    requires StepsOk(p) && BudgetsOk(cfg, p, base)
    ensures p.turn >= 1 && (p.step.Some? ==> p.step.value >= 1) && |p.completed| <= cfg.limits.maxSteps
  {
    hide StepsOfTurn, FindAssistant, BudgetFailure;
  }

  lemma {:induction false} TurnKeeps(cfg: Config, log: seq<Event>, p: RunProjection, base: nat, cursor: nat)
    requires StateOk(cfg, log, p, base, cursor) && p.status.Running? && !p.HasOpenStep()
    ensures Keeps(cfg, log, p, TurnStarted(p.turn + 1), |p.tools|, |p.tools|)
  {
    hide ConversationOk, InboxOk, InboxNamed, ToolsOk, BudgetsOk, ApprovalsOk;
    var e := TurnStarted(p.turn + 1);
    var q := Advance(p, e);
    NoneInLaterTurn(p.completed, p.turn + 1);
    MovedTools(cfg, p, q, base, cursor);
    StepBounds(cfg, p, base);
    MovedBudgets(cfg, p, q);
    SameInbox(p, q);
    QuietApprovals(cfg, log, e, p, q, base, cursor);
    IdleTalk(p, q, base, cursor);
  }

  /** The new step is not among the completed ones and has no response. */
  lemma {:induction false} StepFresh(p: RunProjection, q: RunProjection)
    requires StepsOk(p) && AssistantsOk(p) && !p.HasOpenStep()
    requires q == p.(step := Some(1 + StepsOfTurn(p.completed, p.turn)))
    ensures StepsOk(q) && AssistantsOk(q) && q.HasOpenStep() && q.CurrentAssistant().None?
  {
    assert q.OpenKey() !in p.completed;
    FoundAssistant(p.assistants, q.OpenKey());
  }

  lemma {:induction false} StepKeeps(cfg: Config, log: seq<Event>, p: RunProjection, base: nat, cursor: nat)
    requires StateOk(cfg, log, p, base, cursor) && p.status.Running? && !p.HasOpenStep()
    requires |p.completed| < cfg.limits.maxSteps && PendingIds(p.inbox, NextStep) == []
    ensures Keeps(cfg, log, p, StepStarted(p.turn, 1 + StepsOfTurn(p.completed, p.turn)), |p.tools|, |p.tools|)
    ensures Advance(p, StepStarted(p.turn, 1 + StepsOfTurn(p.completed, p.turn))).HasOpenStep()
    ensures Advance(p, StepStarted(p.turn, 1 + StepsOfTurn(p.completed, p.turn))).CurrentAssistant().None?
  {
    hide ConversationOk, InboxOk, InboxNamed, ToolsOk, BudgetsOk, ApprovalsOk, StepsOk, AssistantsOk, FindAssistant;
    var e := StepStarted(p.turn, 1 + StepsOfTurn(p.completed, p.turn));
    var q := Advance(p, e);
    StepFresh(p, q);
    StepBounds(cfg, p, base);
    MovedTools(cfg, p, q, base, cursor);
    MovedBudgets(cfg, p, q);
    SameInbox(p, q);
    QuietApprovals(cfg, log, e, p, q, base, cursor);
    assert CurrentCalls(q) == [];
    IdleTalk(p, q, base, cursor);
  }

  /** The same projection with its open step completed. */
  predicate Closed(p: RunProjection, q: RunProjection) {
    && p.HasOpenStep() && p.CurrentAssistant().Some?
    && q.turn == p.turn && q.step == p.step && q.assistants == p.assistants && q.tools == p.tools
    && q.completed == p.completed + [p.OpenKey()]
  }

  lemma {:induction false} CloseSteps(p: RunProjection, q: RunProjection)
    requires StepsOk(p) && AssistantsOk(p) && Closed(p, q)
    ensures StepsOk(q) && AssistantsOk(q) && !q.HasOpenStep()
  {
    hide FindAssistant;
    StepCountSnoc(p.completed, p.OpenKey(), p.turn);
  }

  lemma {:induction false} CloseTools(cfg: Config, p: RunProjection, q: RunProjection, base: nat, cursor: nat)
    requires ToolsOk(cfg, p, base, cursor) && cursor == |p.tools| && Closed(p, q) && !q.HasOpenStep()
    ensures ToolsOk(cfg, q, |p.tools|, |p.tools|) && base <= cursor
    ensures forall i | 0 <= i < |p.tools| :: p.tools[i].IsDone()
  {
    hide RequestsOk, UniqueTools, FindAssistant, AllRequested;
    assert forall i | 0 <= i < |p.completed| :: q.completed[i] == p.completed[i];
    assert q.completed[|p.completed|] == p.OpenKey();
  }

  lemma {:induction false} CloseBudgets(cfg: Config, p: RunProjection, q: RunProjection, base: nat, cursor: nat)
    requires ToolsOk(cfg, p, base, cursor) && BudgetsOk(cfg, p, base) && Closed(p, q) && !q.HasOpenStep()
    requires BudgetFailure(cfg.limits, p).None?
    ensures BudgetsOk(cfg, q, |p.tools|)
  {
    hide UniqueTools, FindAssistant, AllRequested;
  }

  /** Every call of a fully requested response has a tool. */
  lemma {:induction false} CloseCalls(cfg: Config, p: RunProjection, base: nat, cursor: nat)
    requires ToolsOk(cfg, p, base, cursor) && cursor == |p.tools| && p.HasOpenStep() && p.CurrentAssistant().Some? && AllRequested(p, base)
    ensures forall k | 0 <= k < |CurrentCalls(p)| :: KnowsTool(p.tools, CurrentCalls(p)[k].id)
    ensures NoneKnown(CurrentCalls(p), p.tools[..base]) ==> cursor - base == |CurrentCalls(p)|
  {
    hide RequestsOk, UniqueTools, FindAssistant;
    var calls := p.CurrentAssistant().value.toolCalls;
    NextRequest(cfg, p, base, calls);
    FirstUnknownFirst(calls, p.tools);
    if NoneKnown(calls, p.tools[..base]) {
      AllFresh(calls, p.tools[..base]);
    }
  }

  /** When no call is known, every call is fresh. */
  lemma {:induction false} AllFresh(calls: seq<ToolCall>, known: seq<ToolRecord>)
    requires NoneKnown(calls, known)
    ensures |FreshCalls(calls, known)| == |calls|
    ensures forall k | 0 <= k < |calls| :: FreshCalls(calls, known)[k] == (k, calls[k])
  {
    if calls != [] {
      AllFresh(calls[..|calls| - 1], known);
    }
  }

  /** Closing the open step: its response is affordable and all its tools are finished. */
  lemma {:induction false} CloseKeeps(cfg: Config, log: seq<Event>, p: RunProjection, base: nat, cursor: nat)
    requires StateOk(cfg, log, p, base, cursor) && p.status.Running? && p.HasOpenStep() && p.CurrentAssistant().Some?
    requires cursor == |p.tools| && AllRequested(p, base) && BudgetFailure(cfg.limits, p).None?
    ensures Keeps(cfg, log, p, StepCompleted(p.turn, p.step.value), |p.tools|, |p.tools|)
  {
    hide ConversationOk, InboxOk, InboxNamed, StepsOk, AssistantsOk, ToolsOk, BudgetsOk, BudgetFailure, RequestsKnown, DecisionsAnswer;
    var e := StepCompleted(p.turn, p.step.value);
    var q := Advance(p, e);
    CloseSteps(p, q);
    CloseTools(cfg, p, q, base, cursor);
    CloseBudgets(cfg, p, q, base, cursor);
    StepBounds(cfg, p, base);
    SameInbox(p, q);
    QuietApprovals(cfg, log, e, p, q, base, cursor);
    CloseCalls(cfg, p, base, cursor);
    CloseTalk(p, q, base, cursor);
  }

  /* ---------------------------------------------------------------- the response */

  lemma {:induction false} AssistantSnoc(records: seq<AssistantRecord>, r: AssistantRecord, key: StepKey)
    ensures FindAssistant(records + [r], key) == if r.key == key then Some(r) else FindAssistant(records, key)
  {
    assert (records + [r])[..|records + [r]| - 1] == records;
  }

  lemma {:induction false} ResponseKeeps(cfg: Config, log: seq<Event>, p: RunProjection, r: Response, base: nat, cursor: nat)
    requires StateOk(cfg, log, p, base, cursor) && p.status.Running? && p.HasOpenStep() && p.CurrentAssistant().None?
    requires r.Valid()
    ensures Keeps(cfg, log, p, ResponseEvent(p, r), |p.tools|, |p.tools|)
  {
    hide ConversationOk, InboxOk, InboxNamed, ApprovalsOk, UniqueTools, Blank, TokenCount, CallCount, IndexOfTool, IndexOfItem, PendingIds, ToolEffect, UncertainIndex;
    var e := ResponseEvent(p, r);
    var q := Advance(p, e);
    var record := q.assistants[|p.assistants|];
    assert base == |p.tools| == cursor;
    AssistantSnoc(p.assistants, record, p.OpenKey());
    CountsSnoc(p.assistants, record);
    SameInbox(p, q);
    QuietApprovals(cfg, log, e, p, q, base, cursor);
    assert CurrentCalls(q) == r.toolCalls && CurrentCalls(p) == [];
    ResponseTalk(p, q, record);
  }

  /* ---------------------------------------------------------------- tools */

  /** The next fresh call is requested. */
  lemma {:induction false} RequestKeeps(cfg: Config, log: seq<Event>, p: RunProjection, base: nat, cursor: nat)
    requires StateOk(cfg, log, p, base, cursor) && p.status.Running? && p.HasOpenStep() && p.CurrentAssistant().Some?
    requires !AllRequested(p, base) && BudgetFailure(cfg.limits, p).None?
    ensures var todo := FreshCalls(p.CurrentAssistant().value.toolCalls, p.tools[..base]);
            var n := |p.tools| - base;
            n < |todo| && Keeps(cfg, log, p, RequestEvent(cfg, todo[n].1, todo[n].0), base, cursor)
  {
    hide ConversationOk, InboxOk, InboxNamed, StepsOk, AssistantsOk, BudgetsOk, ApprovalsOk, UniqueTools, Records, HasCall, FreshCalls, FindAssistant;
    var calls := p.CurrentAssistant().value.toolCalls;
    var todo := FreshCalls(calls, p.tools[..base]);
    var n := |p.tools| - base;
    var e := RequestEvent(cfg, todo[n].1, todo[n].0);
    RequestAccepted(cfg, log == [], p, base, calls);
    RequestToolsOk(cfg, p, base, cursor, calls, e);
    RequestApprovals(cfg, log, p, base, cursor, e);
    RequestBudgets(cfg, p, Advance(p, e), base);
    SameSteps(p, Advance(p, e));
    SameInbox(p, Advance(p, e));
    RequestIsCall(cfg, p, base, calls);
    RequestConversation(p, base, cursor, e);
  }

  lemma {:induction false} RequestAccepted(cfg: Config, first: bool, p: RunProjection, base: nat, calls: seq<ToolCall>)
    requires base <= |p.tools| && RequestsOk(cfg, p, base, calls) && p.HasOpenStep() && p.status.Running?
    requires |p.tools| - base < |FreshCalls(calls, p.tools[..base])|
    ensures var r := FreshCalls(calls, p.tools[..base])[|p.tools| - base];
            !KnowsTool(p.tools, r.1.id) && Accepts(p, first, RequestEvent(cfg, r.1, r.0))
  {
    NextRequest(cfg, p, base, calls);
    FirstUnknownFirst(calls, p.tools);
    FreshCallsAre(calls, p.tools[..base]);
    UnknownIndex(p.tools, FreshCalls(calls, p.tools[..base])[|p.tools| - base].1.id);
  }

  lemma {:induction false} RequestIsCall(cfg: Config, p: RunProjection, base: nat, calls: seq<ToolCall>)
    requires base <= |p.tools| < base + |FreshCalls(calls, p.tools[..base])|
    ensures HasCall(calls, FreshCalls(calls, p.tools[..base])[|p.tools| - base].1.id)
  {
    FreshCallsAre(calls, p.tools[..base]);
    assert FreshFrom(calls, p.tools[..base], FreshCalls(calls, p.tools[..base])[|p.tools| - base]);
  }

  lemma {:induction false} RequestConversation(p: RunProjection, base: nat, cursor: nat, e: Event)
    requires ConversationOk(p, base, cursor) && p.HasOpenStep() && p.CurrentAssistant().Some?
    requires e.ToolRequested? && HasCall(p.CurrentAssistant().value.toolCalls, e.callId)
    ensures ConversationOk(Advance(p, e), base, cursor)
  {
    hide ConversationOk, FindAssistant, HasCall;
    RequestTalk(p, Advance(p, e), Advance(p, e).tools[|p.tools|], base, cursor);
  }

  lemma {:induction false} RequestBudgets(cfg: Config, p: RunProjection, q: RunProjection, base: nat)
    requires BudgetsOk(cfg, p, base) && p.HasOpenStep() && p.CurrentAssistant().Some? && base <= |p.tools|
    requires |p.tools| - base < |p.CurrentAssistant().value.toolCalls| && BudgetFailure(cfg.limits, p).None?
    requires q.turn == p.turn && q.step == p.step && q.completed == p.completed && q.assistants == p.assistants
    requires |q.tools| == |p.tools| + 1
    ensures BudgetsOk(cfg, q, base)
  {
  }

  lemma {:induction false} RequestToolsOk(cfg: Config, p: RunProjection, base: nat, cursor: nat, calls: seq<ToolCall>, e: Event)
    requires ToolsOk(cfg, p, base, cursor) && p.HasOpenStep() && p.CurrentAssistant().Some?
    requires calls == p.CurrentAssistant().value.toolCalls
    requires |p.tools| - base < |FreshCalls(calls, p.tools[..base])|
    requires e == RequestEvent(cfg, FreshCalls(calls, p.tools[..base])[|p.tools| - base].1, FreshCalls(calls, p.tools[..base])[|p.tools| - base].0)
    requires !KnowsTool(p.tools, e.callId)
    ensures ToolsOk(cfg, Advance(p, e), base, cursor)
  {
    var q := Advance(p, e);
    assert q.tools[..base] == p.tools[..base];
    assert forall i | 0 <= i < |p.tools| :: q.tools[i] == p.tools[i];
    RequestRecorded(cfg, p, q, base, calls, e);
    hide RequestsOk;
  }

  lemma {:induction false} RequestRecorded(cfg: Config, p: RunProjection, q: RunProjection, base: nat, calls: seq<ToolCall>, e: Event)
    requires base <= |p.tools| && RequestsOk(cfg, p, base, calls) && e.ToolRequested?
    requires |p.tools| - base < |FreshCalls(calls, p.tools[..base])|
    requires e == RequestEvent(cfg, FreshCalls(calls, p.tools[..base])[|p.tools| - base].1, FreshCalls(calls, p.tools[..base])[|p.tools| - base].0)
    requires |q.tools| == |p.tools| + 1 && q.tools[..|p.tools|] == p.tools
    requires CallOf(q.tools[|p.tools|]) == ToolCall(e.callId, e.name, e.arguments)
    requires q.tools[|p.tools|].callIndex == e.callIndex && q.tools[|p.tools|].effect == e.effect
    ensures RequestsOk(cfg, q, base, calls)
  {
    var todo := FreshCalls(calls, p.tools[..base]);
    FreshCallsAre(calls, p.tools[..base]);
    assert q.tools[..base] == p.tools[..base];
    forall j | 0 <= j < |q.tools| - base ensures Records(cfg, q.tools[base + j], todo[j]) {
      if j < |p.tools| - base {
        assert Records(cfg, p.tools[base + j], todo[j]);
        assert q.tools[base + j] == q.tools[..|p.tools|][base + j];
      }
    }
  }

  lemma {:induction false} RequestApprovals(cfg: Config, log: seq<Event>, p: RunProjection, base: nat, cursor: nat, e: Event)
    requires base <= cursor <= |p.tools| && ApprovalsOk(cfg, log, p, base, cursor)
    requires p.status.Running? && e.ToolRequested? && p.step.Some? && !KnowsTool(p.tools, e.callId)
    ensures ApprovalsOk(cfg, log + [e], Advance(p, e), base, cursor)
  {
    var q := Advance(p, e);
    forall i | 0 <= i < |log| && log[i].ApprovalRequested?
      ensures IndexOfTool(q.tools, log[i].callId) == IndexOfTool(p.tools, log[i].callId)
      ensures log[i].callId != e.callId
    {
      IndexUnderAppend(p.tools, q.tools[|p.tools|], log[i].callId);
      IndexOfToolFirst(p.tools, log[i].callId);
    }
    RequestsKnownSnoc(log, e, p.tools, q.tools, cursor, cursor);
    DecisionsAnswerSnoc(log, e);
    NoRequestNoDecision(log, p.tools, cursor, e.callId);
    ApprovalsSnoc(log, e, q.tools[cursor].callId);
    hide RequestsKnown, DecisionsAnswer, RunPreflight, NeedsApproval;
  }

  /** What changing the state of the tool at the cursor leaves alone. */
  lemma {:induction false} CursorTools(cfg: Config, p: RunProjection, q: RunProjection, base: nat, cursor: nat, state: ToolState)
    requires ToolsOk(cfg, p, base, cursor) && cursor < |p.tools| && AllRequested(p, base)
    requires !state.Requested?
    requires q.tools == p.tools[cursor := p.tools[cursor].(state := state)]
    requires q.assistants == p.assistants && q.step == p.step && q.completed == p.completed && q.turn == p.turn
    ensures ToolsOk(cfg, q, base, if state.Started? then cursor else cursor + 1)
    ensures AllRequested(q, base)
    ensures BudgetsOk(cfg, p, base) ==> BudgetsOk(cfg, q, base)
  {
    assert q.tools[..base] == p.tools[..base];
    SameSteps(p, q);
    RequestsSame(cfg, p, q, base, p.CurrentAssistant().value.toolCalls);
    hide RequestsOk, StepsOk, AssistantsOk;
  }

  lemma {:induction false} RequestsSame(cfg: Config, p: RunProjection, q: RunProjection, base: nat, calls: seq<ToolCall>)
    requires base <= |p.tools| && RequestsOk(cfg, p, base, calls)
    requires |q.tools| == |p.tools| && q.tools[..base] == p.tools[..base]
    requires forall i | 0 <= i < |p.tools| ::
               && CallOf(q.tools[i]) == CallOf(p.tools[i])
               && q.tools[i].callIndex == p.tools[i].callIndex && q.tools[i].effect == p.tools[i].effect
    ensures RequestsOk(cfg, q, base, calls)
  {
    var todo := FreshCalls(calls, p.tools[..base]);
    forall j | 0 <= j < |q.tools| - base ensures Records(cfg, q.tools[base + j], todo[j]) {
      assert Records(cfg, p.tools[base + j], todo[j]);
    }
  }

  lemma {:induction false} CursorRequests(log: seq<Event>, e: Event, tools: seq<ToolRecord>, cursor: nat, t: ToolRecord, next: nat)
    requires RequestsKnown(log, tools, cursor) && cursor < |tools| && t.callId == tools[cursor].callId
    requires Quiet(e) && cursor <= next
    ensures RequestsKnown(log + [e], tools[cursor := t], next)
  {
    forall i | 0 <= i < |log| && log[i].ApprovalRequested?
      ensures IndexOfTool(tools[cursor := t], log[i].callId) == IndexOfTool(tools, log[i].callId)
    {
      IndexUnderUpdate(tools, cursor, t, log[i].callId);
    }
    RequestsKnownSnoc(log, e, tools, tools[cursor := t], cursor, next);
  }

  /** The tool at the cursor is alone with its id; with fresh ids it is the call at the same place. */
  lemma {:induction false} CursorIsCall(cfg: Config, p: RunProjection, base: nat, cursor: nat)
    requires ToolsOk(cfg, p, base, cursor) && cursor < |p.tools|
    ensures !p.tools[cursor].IsDone()
    ensures forall i | 0 <= i < |p.tools| && i != cursor :: p.tools[i].callId != p.tools[cursor].callId
    ensures NoneKnown(CurrentCalls(p), p.tools[..base]) ==>
              cursor - base < |CurrentCalls(p)| && CurrentCalls(p)[cursor - base].id == p.tools[cursor].callId
              && CurrentCalls(p)[cursor - base].name == p.tools[cursor].name
  {
    hide FindAssistant, AllRequested;
    var calls := p.CurrentAssistant().value.toolCalls;
    if NoneKnown(CurrentCalls(p), p.tools[..base]) {
      AllFresh(calls, p.tools[..base]);
      assert Records(cfg, p.tools[base + (cursor - base)], FreshCalls(calls, p.tools[..base])[cursor - base]);
    }
  }

  /** The tool at the cursor is started: it needs no approval, or has it, or is about to be rejected. */
  lemma {:induction false} StartKeeps(cfg: Config, log: seq<Event>, p: RunProjection, base: nat, cursor: nat)
    requires StateOk(cfg, log, p, base, cursor) && p.status.Running?
    requires cursor < |p.tools| && p.tools[cursor].state.Requested? && AllRequested(p, base)
    requires RunPreflight(cfg.pipeline, CallOf(p.tools[cursor])).Proceed? && NeedsApproval(cfg.pipeline, CallOf(p.tools[cursor])) ==>
               FirstDecision(log, p.tools[cursor].callId) == Some(true)
    ensures Keeps(cfg, log, p, ToolStarted(p.tools[cursor].callId), base, cursor)
    ensures Advance(p, ToolStarted(p.tools[cursor].callId)).tools == p.tools[cursor := p.tools[cursor].(state := Started)]
  {
    hide ConversationOk, InboxOk, InboxNamed, StepsOk, AssistantsOk, ToolsOk, BudgetsOk, RequestsKnown, DecisionsAnswer, RunPreflight,
         NeedsApproval, AllRequested, Accepts, Blank;
    var t := p.tools[cursor];
    var e := ToolStarted(t.callId);
    var q := Advance(p, e);
    CursorAccepts(cfg, log == [], p, base, cursor, e);
    SameSteps(p, q);
    SameInbox(p, q);
    CursorTools(cfg, p, q, base, cursor, Started);
    CursorRequests(log, e, p.tools, cursor, q.tools[cursor], cursor);
    DecisionsAnswerSnoc(log, e);
    ApprovalsSnoc(log, e, t.callId);
    assert CallOf(q.tools[cursor]) == CallOf(t);
    assert p.messages + [] == p.messages;
    CursorIsCall(cfg, p, base, cursor);
    CursorTalk(p, q, base, cursor, Started, Text(""));
  }

  /** The events of a tool's life are accepted for the tool at the cursor. */
  lemma {:induction false} CursorAccepts(cfg: Config, first: bool, p: RunProjection, base: nat, cursor: nat, e: Event)
    requires ToolsOk(cfg, p, base, cursor) && cursor < |p.tools| && AllRequested(p, base) && !p.status.IsTerminal()
    requires e.ToolStarted? || e.ToolCompleted? || e.ToolFailed?
    requires e.callId == p.tools[cursor].callId
    requires !e.ToolStarted? ==> p.tools[cursor].state.Started?
    ensures Accepts(p, first, e) && IndexOfTool(p.tools, e.callId) == cursor
  {
    IndexIs(p.tools, cursor);
    var todo := FreshCalls(p.CurrentAssistant().value.toolCalls, p.tools[..base]);
    assert Records(cfg, p.tools[base + (cursor - base)], todo[cursor - base]);
  }

  /** What an event of the tool at the cursor does to the projection. */
  lemma {:induction false} CursorShape(p: RunProjection, cursor: nat, e: Event)
    requires cursor < |p.tools| && (e.ToolStarted? || e.ToolCompleted? || e.ToolFailed?)
    requires IndexOfTool(p.tools, e.callId) == cursor
    ensures var q := Advance(p, e);
            var state := if e.ToolStarted? then Started else if e.ToolFailed? || e.isError then Errored else Succeeded;
            && q.tools == p.tools[cursor := p.tools[cursor].(state := state)]
            && q.assistants == p.assistants && q.step == p.step && q.completed == p.completed && q.turn == p.turn
            && q.inbox == p.inbox && q.status == p.status
            && q.messages == p.messages + if e.ToolStarted? then []
                                          else [ToolResult(e.callId, p.tools[cursor].name, e.output, state.Errored?)]
  {
  }

  /** The tool at the cursor finishes; the cursor moves on. */
  lemma {:induction false} FinishKeeps(cfg: Config, log: seq<Event>, p: RunProjection, e: Event, base: nat, cursor: nat)
    requires StateOk(cfg, log, p, base, cursor) && (p.status.Running? || p.status.Cancelling?)
    requires cursor < |p.tools| && p.tools[cursor].state.Started? && AllRequested(p, base)
    requires (e.ToolCompleted? && !e.isError) || e.ToolFailed?
    requires e.callId == p.tools[cursor].callId && (e.ToolFailed? && LosesOutcome(e.output) ==> p.tools[cursor].effect.Read?)
    ensures Keeps(cfg, log, p, e, base, cursor + 1)
  {
    hide ConversationOk, InboxOk, InboxNamed, StepsOk, AssistantsOk, ToolsOk, BudgetsOk, ApprovalsOk, AllRequested, Accepts, Advance;
    var q := Advance(p, e);
    CursorAccepts(cfg, log == [], p, base, cursor, e);
    CursorShape(p, cursor, e);
    SameSteps(p, q);
    SameInbox(p, q);
    CursorTools(cfg, p, q, base, cursor, q.tools[cursor].state);
    FinishApprovals(cfg, log, p, q, e, base, cursor);
    CursorIsCall(cfg, p, base, cursor);
    CursorTalk(p, q, base, cursor, q.tools[cursor].state, e.output);
  }

  lemma {:induction false} FinishApprovals(cfg: Config, log: seq<Event>, p: RunProjection, q: RunProjection, e: Event, base: nat, cursor: nat)
    requires ToolsOk(cfg, p, base, cursor) && cursor < |p.tools| && ApprovalsOk(cfg, log, p, base, cursor) && Quiet(e)
    requires |q.tools| == |p.tools| && q.tools == p.tools[cursor := q.tools[cursor]]
    requires q.tools[cursor].callId == p.tools[cursor].callId && !q.status.WaitingApproval?
    ensures ApprovalsOk(cfg, log + [e], q, base, cursor + 1)
  {
    CursorRequests(log, e, p.tools, cursor, q.tools[cursor], cursor + 1);
    DecisionsAnswerSnoc(log, e);
    if cursor + 1 < |p.tools| {
      UntouchedDecisions(cfg, log, p, base, cursor);
      ApprovalsSnoc(log, e, p.tools[cursor + 1].callId);
    }
    hide ToolsOk, RequestsKnown, DecisionsAnswer, RunPreflight, NeedsApproval;
  }

  /** Nothing was decided about a tool beyond the cursor. */
  lemma {:induction false} UntouchedDecisions(cfg: Config, log: seq<Event>, p: RunProjection, base: nat, cursor: nat)
    requires RequestsKnown(log, p.tools, cursor) && DecisionsAnswer(log) && ToolsOk(cfg, p, base, cursor) && cursor + 1 < |p.tools|
    ensures FirstDecision(log, p.tools[cursor + 1].callId).None? && LastDecision(log, p.tools[cursor + 1].callId).None?
    ensures p.tools[cursor + 1].state.Requested?
  {
    IndexIs(p.tools, cursor + 1);
    NoRequestNoDecision(log, p.tools, cursor, p.tools[cursor + 1].callId);
  }

  /* ---------------------------------------------------------------- approvals */

  lemma {:induction false} CursorNamed(cfg: Config, p: RunProjection, base: nat, cursor: nat)
    requires ToolsOk(cfg, p, base, cursor) && cursor < |p.tools| && AllRequested(p, base)
    ensures !Blank(p.tools[cursor].callId)
  {
    hide UniqueTools, FindAssistant, Blank;
    var todo := FreshCalls(p.CurrentAssistant().value.toolCalls, p.tools[..base]);
    assert Records(cfg, p.tools[base + (cursor - base)], todo[cursor - base]);
  }

  /** The driver asks for the tool at the cursor. */
  lemma {:induction false} AskKeeps(cfg: Config, log: seq<Event>, p: RunProjection, base: nat, cursor: nat)
    requires StateOk(cfg, log, p, base, cursor) && p.status.Running? && BudgetFailure(cfg.limits, p).None?
    requires cursor < |p.tools| && p.tools[cursor].state.Requested? && AllRequested(p, base)
    requires p.CurrentAssistant().value.stop.ToolUse?
    requires RunPreflight(cfg.pipeline, CallOf(p.tools[cursor])).Proceed? && NeedsApproval(cfg.pipeline, CallOf(p.tools[cursor]))
    requires FirstDecision(log, p.tools[cursor].callId).None?
    ensures Keeps(cfg, log, p, ApprovalRequested(ApprovalOf(p.tools[cursor].callId), p.tools[cursor].callId), base, cursor)
  {
    hide ConversationOk, InboxOk, InboxNamed, StepsOk, AssistantsOk, ToolsOk, BudgetsOk, ApprovalsOk, AllRequested, BudgetFailure;
    var e := ApprovalRequested(ApprovalOf(p.tools[cursor].callId), p.tools[cursor].callId);
    SameWorkKeeps(cfg, p, Advance(p, e), base, cursor);
    SameInbox(p, Advance(p, e));
    AskApprovals(cfg, log, p, base, cursor, e);
    CursorNamed(cfg, p, base, cursor);
    SameTalk(p, Advance(p, e), base, cursor);
  }

  lemma {:induction false} AskApprovals(cfg: Config, log: seq<Event>, p: RunProjection, base: nat, cursor: nat, e: Event)
    requires base <= cursor < |p.tools| && ApprovalsOk(cfg, log, p, base, cursor) && BudgetFailure(cfg.limits, p).None?
    requires p.tools[cursor].state.Requested? && AllRequested(p, base) && UniqueTools(p.tools)
    requires p.CurrentAssistant().value.stop.ToolUse?
    requires RunPreflight(cfg.pipeline, CallOf(p.tools[cursor])).Proceed? && NeedsApproval(cfg.pipeline, CallOf(p.tools[cursor]))
    requires FirstDecision(log, p.tools[cursor].callId).None?
    requires e == ApprovalRequested(ApprovalOf(p.tools[cursor].callId), p.tools[cursor].callId)
    ensures ApprovalsOk(cfg, log + [e], Advance(p, e), base, cursor) && LastDecision(log, e.callId).None?
  {
    hide RequestsKnown, DecisionsAnswer, RunPreflight, NeedsApproval, WasRequested;
    var q := Advance(p, e);
    IndexIs(p.tools, cursor);
    ApprovalsSnoc(log, e, p.tools[cursor].callId);
    RequestsKnownSnoc(log, e, p.tools, p.tools, cursor, cursor);
    DecisionsAnswerSnoc(log, e);
    SameSteps(p, q);
    assert AllRequested(q, base) && BudgetFailure(cfg.limits, q).None?;
  }

  /** An operator decides some requested call while the run waits. */
  lemma {:induction false} DecideKeeps(cfg: Config, log: seq<Event>, p: RunProjection, callId: string, approved: bool, base: nat, cursor: nat)
    requires StateOk(cfg, log, p, base, cursor) && p.status.WaitingApproval? && WasRequested(log, callId)
    ensures Keeps(cfg, log, p, ApprovalDecided(ApprovalOf(callId), approved), base, cursor)
  {
    hide ConversationOk, WasRequested, InboxOk, InboxNamed, StepsOk, AssistantsOk, ToolsOk, BudgetsOk, ApprovalsOk;
    var e := ApprovalDecided(ApprovalOf(callId), approved);
    SameWorkKeeps(cfg, p, Advance(p, e), base, cursor);
    SameInbox(p, Advance(p, e));
    RequestedBefore(log, callId);
    DecideApprovals(cfg, log, p, callId, approved, base, cursor);
    SameTalk(p, Advance(p, e), base, cursor);
  }

  lemma {:induction false} DecideApprovals(cfg: Config, log: seq<Event>, p: RunProjection, callId: string, approved: bool, base: nat, cursor: nat)
    requires base <= cursor <= |p.tools| && ApprovalsOk(cfg, log, p, base, cursor)
    requires p.status.WaitingApproval? && WasRequested(log, callId)
    ensures ApprovalsOk(cfg, log + [ApprovalDecided(ApprovalOf(callId), approved)],
                        Advance(p, ApprovalDecided(ApprovalOf(callId), approved)), base, cursor)
  {
    hide RequestsKnown, DecisionsAnswer, RunPreflight, NeedsApproval, AllRequested, BudgetFailure, WasRequested, Decides;
    var e := ApprovalDecided(ApprovalOf(callId), approved);
    ApprovalsSnoc(log, e, p.tools[cursor].callId);
    RequestsKnownSnoc(log, e, p.tools, p.tools, cursor, cursor);
    RequestedBefore(log, callId);
    DecisionsAnswerSnoc(log, e);
  }

  lemma {:induction false} RequestedBefore(log: seq<Event>, callId: string)
    requires WasRequested(log, callId)
    ensures HasRequest(log, ApprovalOf(callId))
  {
    if log[|log| - 1] != ApprovalRequested(ApprovalOf(callId), callId) {
      RequestedBefore(log[..|log| - 1], callId);
    }
  }
}
