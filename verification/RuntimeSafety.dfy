/** What the driver itself does keeps the invariant, action by action. */
module RuntimeSafety {
  import opened Events
  import opened Projection
  import opened ToolPipeline
  import opened Runtime
  import opened Conversation
  import opened RuntimeInvariant
  import opened DriverLemmas
  import opened InvariantSteps
  import opened LogLaws

  /* ---------------------------------------------------------------- tools only grow */

  /** Records stay where they are; their calls never change, a finished one never changes at all. */
  predicate ToolsGrow(a: seq<ToolRecord>, b: seq<ToolRecord>) {
    && |a| <= |b|
    && forall i | 0 <= i < |a| ::
         && CallOf(b[i]) == CallOf(a[i]) && b[i].effect == a[i].effect && b[i].key == a[i].key
         && (!a[i].state.Requested? ==> !b[i].state.Requested?)
         && (a[i].IsDone() ==> b[i] == a[i])
  }

  lemma {:induction false} AdvanceGrows(p: RunProjection, first: bool, e: Event)
    requires Accepts(p, first, e)
    ensures ToolsGrow(p.tools, Advance(p, e).tools)
  {
    hide Accepts, Advance, IndexOfTool;
    ToolsAfter(p, first, e);
  }

  lemma {:induction false} GrownIndex(a: seq<ToolRecord>, b: seq<ToolRecord>, callId: string)
    requires ToolsGrow(a, b) && IndexOfTool(a, callId) < |a|
    ensures IndexOfTool(b, callId) == IndexOfTool(a, callId)
  {
    IndexOfToolFirst(a, callId);
    IndexOfToolFirst(b, callId);
    var i, j := IndexOfTool(a, callId), IndexOfTool(b, callId);
    assert CallOf(b[i]) == CallOf(a[i]);
    assert j < i ==> CallOf(b[j]) == CallOf(a[j]);
  }

  lemma {:induction false} EntriesGrow(cfg: Config, log: seq<Event>, e: Event, p: RunProjection, q: RunProjection, entered: seq<string>)
    requires EntriesOk(cfg, log, p, entered) && ToolsGrow(p.tools, q.tools)
    ensures EntriesOk(cfg, log + [e], q, entered)
  {
    hide RunPreflight, NeedsApproval, Granted, ToolEffect;
    forall k | 0 <= k < |entered|
      ensures EntryOk(cfg, log + [e], q, entered[k])
      ensures IndexOfTool(q.tools, entered[k]) == IndexOfTool(p.tools, entered[k]) < |p.tools|
    {
      GrownIndex(p.tools, q.tools, entered[k]);
      var i := IndexOfTool(p.tools, entered[k]);
      assert CallOf(q.tools[i]) == CallOf(p.tools[i]);
      if Granted(log, entered[k]) {
        GrantedGrows(log, e, entered[k]);
      }
    }
  }

  /* ---------------------------------------------------------------- one append */

  /** Appending an accepted event that keeps the projection's invariant keeps the world's. */
  lemma {:induction false} Appended(cfg: Config, w: World, e: Event, base: nat, cursor: nat, base': nat, cursor': nat, place: Place)
    requires Project(w.log).Some? && WorldOk(cfg, w, base, cursor)
    requires Keeps(cfg, w.log, StateOf(w), e, base', cursor')
    requires PlaceOk(cfg, Extend(w, [e], place), Advance(StateOf(w), e), cursor')
    ensures Project(Extend(w, [e], place).log) == Some(Advance(StateOf(w), e))
    ensures WorldOk(cfg, Extend(w, [e], place), base', cursor')
  {
    hide StateOk, EntriesOk, PlaceOk, ToolsGrow, Accepts, Lawful, LawfulLog;
    ProjectSnoc(w.log, e);
    LawfulSnoc(cfg, w.log, e);
    AdvanceGrows(StateOf(w), w.log == [], e);
    EntriesGrow(cfg, w.log, e, StateOf(w), Advance(StateOf(w), e), w.entered);
  }

  /** The invariant of a started run, with its witnesses. */
  ghost predicate Good(cfg: Config, w: World) {
    Project(w.log).Some? && w.log != [] && exists base: nat, cursor: nat :: WorldOk(cfg, w, base, cursor)
  }

  lemma {:induction false} GoodAfter(cfg: Config, w: World, e: Event, base: nat, cursor: nat, base': nat, cursor': nat, place: Place)
    requires Project(w.log).Some? && WorldOk(cfg, w, base, cursor)
    requires Keeps(cfg, w.log, StateOf(w), e, base', cursor')
    requires PlaceOk(cfg, Extend(w, [e], place), Advance(StateOf(w), e), cursor')
    ensures Good(cfg, Extend(w, [e], place))
  {
    hide StateOk, EntriesOk, PlaceOk, Accepts, Keeps, WorldOk;
    Appended(cfg, w, e, base, cursor, base', cursor', place);
  }

  /* ---------------------------------------------------------------- starting a run */

  function PlainMessages(messages: seq<(Role, string)>): seq<Message> {
    if messages == [] then []
    else PlainMessages(messages[..|messages| - 1]) + [Plain(messages[|messages| - 1].0, messages[|messages| - 1].1)]
  }

  lemma {:induction false} LaunchProjects(messages: seq<(Role, string)>)
    requires forall i | 0 <= i < |messages| :: !BlankRole(messages[i].0)
    ensures Project([RunStarted] + OperatorMessages(messages))
         == Some(INITIAL.(status := Running, messages := PlainMessages(messages)))
  {
    if messages == [] {
      assert [RunStarted] + OperatorMessages(messages) == [] + [RunStarted];
      ProjectSnoc([], RunStarted);
    } else {
      var front, last := messages[..|messages| - 1], messages[|messages| - 1];
      var e := OperatorMessage(last.0, last.1);
      LaunchProjects(front);
      assert [RunStarted] + OperatorMessages(messages) == ([RunStarted] + OperatorMessages(front)) + [e];
      ProjectSnoc([RunStarted] + OperatorMessages(front), e);
    }
  }

  lemma {:induction false} QuietMessages(messages: seq<(Role, string)>)
    ensures forall i | 0 <= i < |OperatorMessages(messages)| :: OperatorMessages(messages)[i].OperatorMessage?
  {
    if messages != [] {
      QuietMessages(messages[..|messages| - 1]);
    }
  }

  lemma {:induction false} NothingDecided(log: seq<Event>)
    requires forall i | 0 <= i < |log| :: !log[i].ApprovalDecided?
    ensures DecisionsAnswer(log)
  {
    if log != [] {
      NothingDecided(log[..|log| - 1]);
    }
  }

  lemma {:induction false} EmptyLogLawful(cfg: Config)
    ensures Project([]) == Some(INITIAL) && LawfulLog(cfg, [])
  {
  }

  lemma {:induction false} LaunchLawful(cfg: Config, messages: seq<(Role, string)>)
    requires forall i | 0 <= i < |messages| :: !BlankRole(messages[i].0)
    ensures LawfulLog(cfg, [RunStarted] + OperatorMessages(messages))
  {
    hide Project, FirstPending, StartLawful, LastDecision, LawfulLog, PlainMessages, Blank, StepsOfTurn, FindAssistant;
    if messages == [] {
      assert [RunStarted] + OperatorMessages(messages) == [] + [RunStarted];
      EmptyLogLawful(cfg);
      LawfulSnoc(cfg, [], RunStarted);
    } else {
      var front, last := messages[..|messages| - 1], messages[|messages| - 1];
      LaunchLawful(cfg, front);
      LaunchProjects(front);
      LawfulSnoc(cfg, [RunStarted] + OperatorMessages(front), OperatorMessage(last.0, last.1));
      assert [RunStarted] + OperatorMessages(messages)
          == ([RunStarted] + OperatorMessages(front)) + [OperatorMessage(last.0, last.1)];
    }
  }

  lemma {:induction false} PlainWellFormed(messages: seq<(Role, string)>)
    ensures WellFormed(PlainMessages(messages))
  {
    if messages != [] {
      PlainWellFormed(messages[..|messages| - 1]);
      AwaitingSnoc(PlainMessages(messages[..|messages| - 1]), Plain(messages[|messages| - 1].0, messages[|messages| - 1].1));
    }
  }

  lemma {:induction false} LaunchState(cfg: Config, log: seq<Event>, p: RunProjection)
    requires cfg.Valid() && forall i | 0 <= i < |log| :: !log[i].ApprovalRequested? && !log[i].ApprovalDecided?
    requires p == INITIAL.(status := Running, messages := p.messages, turn := 1) && WellFormed(p.messages)
    ensures StateOk(cfg, log, p, 0, 0)
  {
    NothingDecided(log);
  }

  lemma {:induction false} LaunchGood(cfg: Config, messages: seq<(Role, string)>)
    requires cfg.Valid() && forall i | 0 <= i < |messages| :: !BlankRole(messages[i].0)
    ensures Project(InitialBatch(messages))
         == Some(INITIAL.(status := Running, messages := PlainMessages(messages), turn := 1))
    ensures Good(cfg, World(InitialBatch(messages), Ready, []))
  {
    hide StateOk, LawfulLog, Project;
    var start := [RunStarted] + OperatorMessages(messages);
    var log := InitialBatch(messages);
    LaunchProjects(messages);
    LaunchLawful(cfg, messages);
    PlainWellFormed(messages);
    ProjectSnoc(start, TurnStarted(1));
    LawfulSnoc(cfg, start, TurnStarted(1));
    assert log == start + [TurnStarted(1)];
    QuietMessages(messages);
    LaunchState(cfg, log, Project(log).value);
    assert WorldOk(cfg, World(log, Ready, []), 0, 0);
  }

  /* ---------------------------------------------------------------- the driver's actions */

  lemma {:induction false} ReadyPlace(cfg: Config, w: World, p: RunProjection, cursor: nat)
    requires w.place.Ready? || w.place.Idle?
    ensures PlaceOk(cfg, w, p, cursor)
  {
  }

  lemma {:induction false} EndGood(cfg: Config, w: World, e: Event, base: nat, cursor: nat)
    requires Project(w.log).Some? && WorldOk(cfg, w, base, cursor) && MayEnd(StateOf(w), e)
    ensures Good(cfg, Extend(w, [e], Ready))
  {
    hide EntriesOk, PlaceOk, MayEnd, StateOk;
    EndKeeps(cfg, w.log, StateOf(w), e, base, cursor);
    ReadyPlace(cfg, Extend(w, [e], Ready), Advance(StateOf(w), e), cursor);
    GoodAfter(cfg, w, e, base, cursor, base, cursor, Ready);
  }

  /** `after` is `w` with the messages pending for one boundary consumed, and nothing else changed. */
  predicate Consumed(p: RunProjection, q: RunProjection, target: InboxTarget) {
    && SameWork(p, q) && q.status.Running?
    && PendingIds(q.inbox, target) == []
    && forall t: InboxTarget | t != target :: PendingIds(q.inbox, t) == PendingIds(p.inbox, t)
  }

  lemma {:induction false} ConsumptionsAppend(log: seq<Event>, ids: seq<string>)
    requires ids != []
    ensures log + Consumptions(ids) == (log + [InboxConsumed(ids[0])]) + Consumptions(ids[1..])
  {
  }

  /** Consuming every pending message of a boundary, in one batch. */
  lemma {:induction false} ConsumeAll(cfg: Config, w: World, target: InboxTarget, ids: seq<string>, base: nat, cursor: nat)
    requires Project(w.log).Some? && w.place.Ready? && WorldOk(cfg, w, base, cursor) && StateOf(w).status.Running?
    requires !StateOf(w).HasOpenStep() && (target.NextStep? ==> AwaitsStep(StateOf(w)))
    requires ids == PendingIds(StateOf(w).inbox, target)
    ensures var after := Extend(w, Consumptions(ids), Ready);
            && Project(after.log).Some? && WorldOk(cfg, after, base, cursor)
            && Consumed(StateOf(w), StateOf(after), target)
    decreases |ids|
  {
    hide StateOk, EntriesOk, WorldOk, Accepts, Keeps, PendingIds, Project;
    var p := StateOf(w);
    if ids == [] {
      assert w.log + Consumptions(ids) == w.log;
    } else {
      var i := PendingItem(p.inbox, target, 0);
      FirstConsumed(cfg, w, target, i, base, cursor);
      ItemsDistinct(cfg, w, base, cursor);
      PendingAfterConsume(p.inbox, target, i);
      ConsumeAll(cfg, Extend(w, [InboxConsumed(ids[0])], Ready), target, ids[1..], base, cursor);
      ConsumptionsAppend(w.log, ids);
    }
  }

  lemma {:induction false} ItemsDistinct(cfg: Config, w: World, base: nat, cursor: nat)
    requires Project(w.log).Some? && WorldOk(cfg, w, base, cursor)
    ensures InboxOk(StateOf(w))
  {
  }

  lemma {:induction false} FirstConsumed(cfg: Config, w: World, target: InboxTarget, i: nat, base: nat, cursor: nat)
    requires Project(w.log).Some? && w.place.Ready? && WorldOk(cfg, w, base, cursor) && StateOf(w).status.Running?
    requires !StateOf(w).HasOpenStep() && i < |StateOf(w).inbox| && !StateOf(w).inbox[i].consumed
    requires FirstPending(StateOf(w).inbox, target, StateOf(w).inbox[i].messageId)
    requires target.NextStep? ==> AwaitsStep(StateOf(w))
    ensures var after := Extend(w, [InboxConsumed(StateOf(w).inbox[i].messageId)], Ready);
            && Project(after.log).Some? && WorldOk(cfg, after, base, cursor)
            && SameWork(StateOf(w), StateOf(after)) && StateOf(after).status.Running?
            && StateOf(after).inbox == StateOf(w).inbox[i := StateOf(w).inbox[i].(consumed := true)]
  {
    hide StateOk, EntriesOk;
    var e := InboxConsumed(StateOf(w).inbox[i].messageId);
    ConsumeKeeps(cfg, w.log, StateOf(w), target, i, base, cursor);
    Appended(cfg, w, e, base, cursor, base, cursor, Ready);
  }

  /** A requested tool's handler has not been entered. */
  lemma {:induction false} NotEntered(cfg: Config, w: World, base: nat, cursor: nat)
    requires Project(w.log).Some? && WorldOk(cfg, w, base, cursor)
    requires cursor < |StateOf(w).tools| && StateOf(w).tools[cursor].state.Requested?
    ensures StateOf(w).tools[cursor].callId !in w.entered
  {
    hide StepsOk, AssistantsOk, BudgetsOk, ApprovalsOk, RequestsOk, AllRequested, Granted, RunPreflight, NeedsApproval;
    IndexIs(StateOf(w).tools, cursor);
  }

  lemma {:induction false} StartGood(cfg: Config, w: World, base: nat, cursor: nat, place: Place)
    requires Project(w.log).Some? && WorldOk(cfg, w, base, cursor) && w.place.Ready? && StateOf(w).status.Running?
    requires cursor < |StateOf(w).tools| && StateOf(w).tools[cursor].state.Requested? && AllRequested(StateOf(w), base)
    requires var t := StateOf(w).tools[cursor];
             var pre := RunPreflight(cfg.pipeline, CallOf(t));
             || (pre.Rejected? && place == Rejecting(t.callId, pre.output))
             || (pre.Proceed? && place == Starting(CallOf(t))
                 && (NeedsApproval(cfg.pipeline, CallOf(t)) ==> FirstDecision(w.log, t.callId) == Some(true)))
    ensures Good(cfg, Extend(w, [ToolStarted(StateOf(w).tools[cursor].callId)], place))
  {
    hide StepsOk, AssistantsOk, BudgetsOk, ApprovalsOk, ToolsOk, EntriesOk, RunPreflight, NeedsApproval, Keeps, Accepts;
    var p := StateOf(w);
    var e := ToolStarted(p.tools[cursor].callId);
    StartKeeps(cfg, w.log, p, base, cursor);
    NotEntered(cfg, w, base, cursor);
    var q := Advance(p, e);
    assert CallOf(q.tools[cursor]) == CallOf(p.tools[cursor]);
    assert q.status == p.status;
    GoodAfter(cfg, w, e, base, cursor, base, cursor, place);
  }

  lemma {:induction false} LaunchToolGood(cfg: Config, w: World, base: nat, cursor: nat)
    requires Project(w.log).Some? && WorldOk(cfg, w, base, cursor) && w.place.Ready? && StateOf(w).status.Running?
    requires cursor < |StateOf(w).tools| && StateOf(w).tools[cursor].state.Requested? && AllRequested(StateOf(w), base)
    requires BudgetFailure(cfg.limits, StateOf(w)).None? && StateOf(w).CurrentAssistant().value.stop.ToolUse?
    requires !HasUncertain(StateOf(w))
    ensures var t := StateOf(w).tools[cursor];
            Good(cfg, PerformAction(w, LaunchAction(cfg, w.log, CallOf(t), t.effect)))
  {
    hide WorldOk, AllRequested, BudgetFailure, HasUncertain, RunPreflight, ToolEffect, Good, Project, FindAssistant, LaunchAction;
    EffectAtCursor(cfg, w, base, cursor);
    var t := StateOf(w).tools[cursor];
    LaunchIs(cfg, w.log, CallOf(t), t.effect);
    var a := LaunchAction(cfg, w.log, CallOf(t), t.effect);
    if a.RejectTool? {
      StartGood(cfg, w, base, cursor, Rejecting(t.callId, a.output));
    } else if a.StartTool? {
      StartGood(cfg, w, base, cursor, Starting(CallOf(t)));
    } else if FirstDecision(w.log, t.callId).None? {
      AskGood(cfg, w, base, cursor);
    } else {
      EndGood(cfg, w, RunFailed(OperatorRejected(t.callId)), base, cursor);
    }
  }

  /** The launch decision by cases. */
  lemma {:induction false} LaunchIs(cfg: Config, log: seq<Event>, call: ToolCall, effect: Effect)
    ensures var a := LaunchAction(cfg, log, call, effect);
            match RunPreflight(cfg.pipeline, call)
            case Rejected(output) => a == RejectTool(call.id, output)
            case Proceed(ask) =>
              if !(effect.Mutate? || ask) || FirstDecision(log, call.id) == Some(true) then a == StartTool(call)
              else if FirstDecision(log, call.id).None? then a == Write([ApprovalRequested(ApprovalOf(call.id), call.id)])
              else a == Write([RunFailed(OperatorRejected(call.id))])
  {
    hide RunPreflight;
  }

  lemma {:induction false} EffectAtCursor(cfg: Config, w: World, base: nat, cursor: nat)
    requires Project(w.log).Some? && WorldOk(cfg, w, base, cursor) && cursor < |StateOf(w).tools|
    ensures StateOf(w).tools[cursor].effect == ToolEffect(cfg.pipeline, CallOf(StateOf(w).tools[cursor]))
  {
    hide StepsOk, AssistantsOk, BudgetsOk, ApprovalsOk, RequestsOk, EntriesOk, PlaceOk, UniqueTools, AllRequested, ToolEffect;
  }

  lemma {:induction false} AskGood(cfg: Config, w: World, base: nat, cursor: nat)
    requires Project(w.log).Some? && WorldOk(cfg, w, base, cursor) && w.place.Ready? && StateOf(w).status.Running?
    requires cursor < |StateOf(w).tools| && StateOf(w).tools[cursor].state.Requested? && AllRequested(StateOf(w), base)
    requires BudgetFailure(cfg.limits, StateOf(w)).None? && StateOf(w).CurrentAssistant().value.stop.ToolUse?
    requires var t := StateOf(w).tools[cursor];
             && RunPreflight(cfg.pipeline, CallOf(t)).Proceed? && NeedsApproval(cfg.pipeline, CallOf(t))
             && FirstDecision(w.log, t.callId).None?
    ensures var id := StateOf(w).tools[cursor].callId;
            Good(cfg, Extend(w, [ApprovalRequested(ApprovalOf(id), id)], Ready))
  {
    hide StateOk, EntriesOk, AllRequested, BudgetFailure, RunPreflight, NeedsApproval, Good, FirstDecision, Project, Keeps;
    var id := StateOf(w).tools[cursor].callId;
    AskKeeps(cfg, w.log, StateOf(w), base, cursor);
    GoodAfter(cfg, w, ApprovalRequested(ApprovalOf(id), id), base, cursor, base, cursor, Ready);
  }

  /** The parts of a world's invariant, by name. */
  lemma {:induction false} WorldParts(cfg: Config, w: World, base: nat, cursor: nat)
    requires Project(w.log).Some? && WorldOk(cfg, w, base, cursor)
    ensures StateOk(cfg, w.log, StateOf(w), base, cursor)
    ensures StepsOk(StateOf(w)) && AssistantsOk(StateOf(w)) && ToolsOk(cfg, StateOf(w), base, cursor)
    ensures base <= cursor <= |StateOf(w).tools| && (cursor < |StateOf(w).tools| ==> !StateOf(w).tools[cursor].IsDone())
    ensures BudgetsOk(cfg, StateOf(w), base) && ApprovalsOk(cfg, w.log, StateOf(w), base, cursor)
    ensures OutcomeOk(StateOf(w)) && InboxOk(StateOf(w)) && InboxNamed(StateOf(w))
    ensures EntriesOk(cfg, w.log, StateOf(w), w.entered) && PlaceOk(cfg, w, StateOf(w), cursor)
    ensures !StateOf(w).status.Created?
  {
    hide StepsOk, AssistantsOk, BudgetsOk, ApprovalsOk, EntriesOk, PlaceOk, InboxOk, InboxNamed, UniqueTools, RequestsOk;
  }

  lemma {:induction false} ActOnTools(cfg: Config, w: World, base: nat, cursor: nat)
    requires Project(w.log).Some? && WorldOk(cfg, w, base, cursor) && w.place.Ready? && StateOf(w).status.Running?
    requires StateOf(w).HasOpenStep() && StateOf(w).CurrentAssistant().Some? && !HasUncertain(StateOf(w))
    requires BudgetFailure(cfg.limits, StateOf(w)).None? && StateOf(w).CurrentAssistant().value.stop.ToolUse?
    ensures Good(cfg, PerformAction(w, ToolAction(cfg, w.log, StateOf(w), StateOf(w).CurrentAssistant().value.toolCalls)))
  {
    hide WorldOk, BudgetFailure, HasUncertain, Keeps, ToolAction, LaunchAction, ToolEffect, Good, Project, ToolsOk, StateOk, FindAssistant;
    var p := StateOf(w);
    WorldParts(cfg, w, base, cursor);
    NextToolAction(cfg, w.log, p, base, cursor);
    UncertainAtCursor(cfg, p, base, cursor);
    if !AllRequested(p, base) {
      var todo := FreshCalls(p.CurrentAssistant().value.toolCalls, p.tools[..base]);
      var n := |p.tools| - base;
      RequestKeeps(cfg, w.log, p, base, cursor);
      GoodAfter(cfg, w, RequestEvent(cfg, todo[n].1, todo[n].0), base, cursor, base, cursor, Ready);
    } else if cursor == |p.tools| {
      CloseKeeps(cfg, w.log, p, base, cursor);
      GoodAfter(cfg, w, StepCompleted(p.turn, p.step.value), base, cursor, |p.tools|, |p.tools|, Ready);
    } else if p.tools[cursor].state.Started? {
      RunGood(cfg, w, base, cursor);
    } else {
      LaunchToolGood(cfg, w, base, cursor);
    }
  }

  /** Picking up a started read tool again. */
  lemma {:induction false} RunGood(cfg: Config, w: World, base: nat, cursor: nat)
    requires Project(w.log).Some? && WorldOk(cfg, w, base, cursor) && w.place.Ready? && StateOf(w).status.Running?
    requires cursor < |StateOf(w).tools| && StateOf(w).tools[cursor].state.Started? && StateOf(w).tools[cursor].effect.Read?
    ensures Good(cfg, w.(place := Starting(CallOf(StateOf(w).tools[cursor]))))
  {
    hide StateOk, EntriesOk, LawfulLog, Project, RunPreflight, ToolEffect;
    EffectAtCursor(cfg, w, base, cursor);
    NotCreated(cfg, w, base, cursor);
    assert WorldOk(cfg, w.(place := Starting(CallOf(StateOf(w).tools[cursor]))), base, cursor);
  }

  lemma {:induction false} ProjectNonEmpty(log: seq<Event>)
    requires Project(log).Some? && !Project(log).value.status.Created?
    ensures log != []
  {
  }

  /** The driver's next action, by the shape of the projection. */
  lemma {:induction false} NextIs(cfg: Config, log: seq<Event>, p: RunProjection)
    ensures var a := NextAction(cfg, log, p);
            var last := p.CurrentAssistant();
            if p.status.IsTerminal() || p.status.WaitingApproval? then a == Halt
            else if p.status.Cancelling? then a == Write([CancellationEvent(p)])
            else if HasUncertain(p) then a == Write([UncertainEvent(p)])
            else if p.HasOpenStep() then
              if last.None? then a == AskProvider
              else if BudgetFailure(cfg.limits, p).Some? then a == Write([RunFailed(BudgetFailure(cfg.limits, p).value)])
              else if last.value.stop.ToolUse? then a == ToolAction(cfg, log, p, last.value.toolCalls)
              else a == Write([StepCompleted(p.turn, p.step.value)])
            else if p.step.Some? && (last.None? || !last.value.stop.ToolUse?) then
              if last.None? then a == Write([RunFailed(MissingResponse)])
              else if last.value.stop.MaxTokens? then a == Write([RunFailed(ProviderMaxTokens)])
              else if PendingIds(p.inbox, NextTurn) == [] then a == Write([RunCompleted])
              else a == OpenTurn
            else if |p.completed| >= cfg.limits.maxSteps then a == Write([RunFailed(StepBudget(cfg.limits.maxSteps))])
            else if PendingIds(p.inbox, NextStep) != [] then a == Write(Consumptions(PendingIds(p.inbox, NextStep)))
            else a == Write([StepStarted(p.turn, 1 + StepsOfTurn(p.completed, p.turn))])
  {
    hide HasUncertain, BudgetFailure, ToolAction, PendingIds, StepsOfTurn, FindAssistant;
  }

  lemma {:induction false} WriteGood(cfg: Config, w: World, e: Event, base: nat, cursor: nat)
    requires Project(w.log).Some? && WorldOk(cfg, w, base, cursor) && MayEnd(StateOf(w), e)
    requires NextAction(cfg, w.log, StateOf(w)) == Write([e])
    ensures Good(cfg, PerformAction(w, NextAction(cfg, w.log, StateOf(w))))
  {
    hide NextAction, WorldOk, MayEnd;
    EndGood(cfg, w, e, base, cursor);
    hide Good;
  }

  /** The current step is completed and was not a tool step: the turn, or the run, is over. */
  lemma {:induction false} ActSettled(cfg: Config, w: World, base: nat, cursor: nat)
    requires Project(w.log).Some? && WorldOk(cfg, w, base, cursor) && w.place.Ready? && StateOf(w).status.Running?
    requires StateOf(w).step.Some? && !StateOf(w).HasOpenStep() && !HasUncertain(StateOf(w))
    requires StateOf(w).CurrentAssistant().Some? ==> !StateOf(w).CurrentAssistant().value.stop.ToolUse?
    ensures Good(cfg, PerformAction(w, NextAction(cfg, w.log, StateOf(w))))
  {
    hide NextAction, WorldOk, HasUncertain, Good, Project, PendingIds, FindAssistant;
    NextIs(cfg, w.log, StateOf(w));
    if NextAction(cfg, w.log, StateOf(w)) == OpenTurn {
      TurnGood(cfg, w, base, cursor);
    } else {
      WriteGood(cfg, w, NextAction(cfg, w.log, StateOf(w)).batch[0], base, cursor);
    }
  }

  lemma {:induction false} TurnGood(cfg: Config, w: World, base: nat, cursor: nat)
    requires Project(w.log).Some? && WorldOk(cfg, w, base, cursor) && StateOf(w).status.Running?
    requires !StateOf(w).HasOpenStep() && PendingIds(StateOf(w).inbox, NextTurn) != []
    ensures Good(cfg, Extend(w, [TurnStarted(StateOf(w).turn + 1)], TurnOpened))
  {
    hide StateOk, EntriesOk, Good, Keeps, Project, PendingIds;
    TurnKeeps(cfg, w.log, StateOf(w), base, cursor);
    var n := |StateOf(w).tools|;
    GoodAfter(cfg, w, TurnStarted(StateOf(w).turn + 1), base, cursor, n, n, TurnOpened);
  }

  /** No step is open and the turn goes on. */
  lemma {:induction false} ActBetweenSteps(cfg: Config, w: World, base: nat, cursor: nat)
    requires Project(w.log).Some? && WorldOk(cfg, w, base, cursor) && w.place.Ready? && StateOf(w).status.Running?
    requires !StateOf(w).HasOpenStep() && !HasUncertain(StateOf(w))
    requires StateOf(w).step.Some? ==> StateOf(w).CurrentAssistant().Some? && StateOf(w).CurrentAssistant().value.stop.ToolUse?
    ensures Good(cfg, PerformAction(w, NextAction(cfg, w.log, StateOf(w))))
  {
    hide NextAction, WorldOk, HasUncertain, Good, Project, PendingIds, FindAssistant, StepsOfTurn;
    NextIs(cfg, w.log, StateOf(w));
    if |StateOf(w).completed| >= cfg.limits.maxSteps {
      WriteGood(cfg, w, RunFailed(StepBudget(cfg.limits.maxSteps)), base, cursor);
    } else if PendingIds(StateOf(w).inbox, NextStep) != [] {
      ConsumeGood(cfg, w, base, cursor);
    } else {
      StepGood(cfg, w, base, cursor);
    }
  }

  lemma {:induction false} ConsumeGood(cfg: Config, w: World, base: nat, cursor: nat)
    requires Project(w.log).Some? && WorldOk(cfg, w, base, cursor) && w.place.Ready? && StateOf(w).status.Running?
    requires PendingIds(StateOf(w).inbox, NextStep) != [] && AwaitsStep(StateOf(w))
    ensures Good(cfg, Extend(w, Consumptions(PendingIds(StateOf(w).inbox, NextStep)), Ready))
  {
    hide WorldOk, Project, PendingIds;
    ConsumeAll(cfg, w, NextStep, PendingIds(StateOf(w).inbox, NextStep), base, cursor);
    ConsumptionsAppend(w.log, PendingIds(StateOf(w).inbox, NextStep));
  }

  lemma {:induction false} StepGood(cfg: Config, w: World, base: nat, cursor: nat)
    requires Project(w.log).Some? && WorldOk(cfg, w, base, cursor) && StateOf(w).status.Running?
    requires !StateOf(w).HasOpenStep() && |StateOf(w).completed| < cfg.limits.maxSteps && PendingIds(StateOf(w).inbox, NextStep) == []
    ensures Good(cfg, Extend(w, [StepStarted(StateOf(w).turn, 1 + StepsOfTurn(StateOf(w).completed, StateOf(w).turn))], Ready))
  {
    hide StateOk, EntriesOk, Good, Keeps, Project;
    var p := StateOf(w);
    StepKeeps(cfg, w.log, p, base, cursor);
    GoodAfter(cfg, w, StepStarted(p.turn, 1 + StepsOfTurn(p.completed, p.turn)), base, cursor, |p.tools|, |p.tools|, Ready);
  }

  /** A response without calls has no tools. */
  lemma {:induction false} NoToolsWithoutCalls(cfg: Config, w: World, base: nat, cursor: nat)
    requires Project(w.log).Some? && WorldOk(cfg, w, base, cursor)
    requires StateOf(w).HasOpenStep() && StateOf(w).CurrentAssistant().Some? && !StateOf(w).CurrentAssistant().value.stop.ToolUse?
    ensures cursor == |StateOf(w).tools| && base <= cursor && AllRequested(StateOf(w), base)
  {
    hide StepsOk, BudgetsOk, ApprovalsOk, EntriesOk, PlaceOk, UniqueTools;
    FoundAssistant(StateOf(w).assistants, StateOf(w).OpenKey());
    assert RecordOk(StateOf(w).CurrentAssistant().value);
  }

  lemma {:induction false} MoveGood(cfg: Config, w: World, place: Place, base: nat, cursor: nat)
    requires Project(w.log).Some? && WorldOk(cfg, w, base, cursor)
    requires PlaceOk(cfg, w.(place := place), StateOf(w), cursor)
    ensures Good(cfg, w.(place := place))
  {
    assert !StateOf(w).status.Created?;
    ProjectNonEmpty(w.log);
    hide StateOk, EntriesOk, PlaceOk;
    assert WorldOk(cfg, w.(place := place), base, cursor);
  }

  lemma {:induction false} NotCreated(cfg: Config, w: World, base: nat, cursor: nat)
    requires Project(w.log).Some? && WorldOk(cfg, w, base, cursor)
    ensures !StateOf(w).status.Created? && w.log != []
  {
    WorldParts(cfg, w, base, cursor);
    hide WorldOk;
    ProjectNonEmpty(w.log);
  }

  /** Every action of the driver keeps the invariant. */
  lemma {:induction false} ActGood(cfg: Config, w: World, base: nat, cursor: nat)
    requires Project(w.log).Some? && WorldOk(cfg, w, base, cursor) && w.place.Ready?
    ensures Good(cfg, PerformAction(w, NextAction(cfg, w.log, StateOf(w))))
  {
    hide NextAction, WorldOk, BudgetFailure, HasUncertain, ToolAction, Good, Project, PendingIds, FindAssistant, StepsOfTurn;
    var p := StateOf(w);
    NotCreated(cfg, w, base, cursor);
    NextIs(cfg, w.log, p);
    if p.status.IsTerminal() || p.status.WaitingApproval? {
      MoveGood(cfg, w, Idle, base, cursor);
    } else if p.status.Cancelling? || HasUncertain(p) {
      WriteGood(cfg, w, if p.status.Cancelling? then CancellationEvent(p) else UncertainEvent(p), base, cursor);
    } else if p.step.Some? && !p.HasOpenStep() && (p.CurrentAssistant().None? || !p.CurrentAssistant().value.stop.ToolUse?) {
      ActSettled(cfg, w, base, cursor);
    } else if !p.HasOpenStep() {
      ActBetweenSteps(cfg, w, base, cursor);
    } else {
      ActInStep(cfg, w, base, cursor);
    }
  }

  lemma {:induction false} ActInStep(cfg: Config, w: World, base: nat, cursor: nat)
    requires Project(w.log).Some? && WorldOk(cfg, w, base, cursor) && w.place.Ready? && StateOf(w).status.Running?
    requires StateOf(w).HasOpenStep() && !HasUncertain(StateOf(w))
    ensures Good(cfg, PerformAction(w, NextAction(cfg, w.log, StateOf(w))))
  {
    hide NextAction, WorldOk, BudgetFailure, HasUncertain, ToolAction, Good, Project, PendingIds, FindAssistant, StepsOfTurn;
    var p := StateOf(w);
    NextIs(cfg, w.log, p);
    if p.CurrentAssistant().None? {
      MoveGood(cfg, w, InProvider, base, cursor);
    } else if BudgetFailure(cfg.limits, p).Some? {
      BudgetReason(cfg.limits, p);
      WriteGood(cfg, w, RunFailed(BudgetFailure(cfg.limits, p).value), base, cursor);
    } else if p.CurrentAssistant().value.stop.ToolUse? {
      ActOnTools(cfg, w, base, cursor);
    } else {
      CloseGood(cfg, w, base, cursor);
    }
  }

  lemma {:induction false} CloseGood(cfg: Config, w: World, base: nat, cursor: nat)
    requires Project(w.log).Some? && WorldOk(cfg, w, base, cursor) && StateOf(w).status.Running?
    requires StateOf(w).HasOpenStep() && StateOf(w).CurrentAssistant().Some? && !StateOf(w).CurrentAssistant().value.stop.ToolUse?
    requires BudgetFailure(cfg.limits, StateOf(w)).None?
    ensures Good(cfg, Extend(w, [StepCompleted(StateOf(w).turn, StateOf(w).step.value)], Ready))
  {
    hide StateOk, EntriesOk, Good, Keeps, Project, BudgetFailure;
    var p := StateOf(w);
    NoToolsWithoutCalls(cfg, w, base, cursor);
    CloseKeeps(cfg, w.log, p, base, cursor);
    GoodAfter(cfg, w, StepCompleted(p.turn, p.step.value), base, cursor, |p.tools|, |p.tools|, Ready);
  }

  lemma {:induction false} BudgetReason(limits: Limits, p: RunProjection)
    requires BudgetFailure(limits, p).Some?
    ensures !BudgetFailure(limits, p).value.Free?
  {
  }
}
