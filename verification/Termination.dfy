/** The driver in an environment that always answers: every tick lowers a lexicographic rank, so `_drive` terminates. */
module Termination {
  import opened Events
  import opened Projection
  import opened ToolPipeline
  import opened Runtime
  import opened RuntimeInvariant
  import opened DriverLemmas
  import opened LogLaws
  import opened InvariantSteps
  import opened RuntimeSafety
  import opened RuntimeRuns

  /** What the provider makes of the context built from the log: a response, or an exception, be it from the provider or
      from trimming the context. */
  datatype Answer = Answered(response: Response) | Broken(message: string)

  /** A deterministic provider and deterministic tools. */
  datatype Environment = Environment(provider: seq<Event> -> Answer, tool: ToolCall -> Observation) {
    ghost predicate Valid() {
      forall log :: provider(log).Answered? ==> provider(log).response.Valid()
    }
  }

  /** What happens next to a driver that is not idle. */
  function Reply(env: Environment, w: World): Label
    requires Project(w.log).Some?
  {
    match w.place
    case Ready => Act
    case InProvider =>
      (match env.provider(w.log)
       case Answered(response) => Respond(response)
       case Broken(message) => ProviderRaises(message))
    case InTool(call, gate) => Observe(if gate.Refuse? then Observation(gate.output, true) else env.tool(call))
    case _ => SecondHalf
  }

  lemma {:induction false} ReplyEnabled(cfg: Config, env: Environment, w: World)
    requires cfg.Valid() && env.Valid() && Invariant(cfg, w) && !w.place.Idle?
    ensures w.log != [] && Project(w.log).Some? && Enabled(cfg, w, Reply(env, w))
  {
    hide StateOk, EntriesOk, LawfulLog, Project, FindAssistant, NextAction, RunPreflight, NeedsApproval, ToolEffect;
  }

  ghost function Tick(cfg: Config, env: Environment, w: World): (r: World)
    requires cfg.Valid() && env.Valid() && Invariant(cfg, w) && !w.place.Idle?
    ensures Invariant(cfg, r) && r.log != []
  {
    ReplyEnabled(cfg, env, w);
    Preserved(cfg, w, Reply(env, w));
    PerformKeepsLog(cfg, w, Reply(env, w));
    Perform(cfg, w, Reply(env, w))
  }

  /* ---------------------------------------------------------------- the rank */

  datatype Rank = Rank(active: nat, steps: nat, phase: nat, talk: nat, calls: nat, work: nat, place: nat)

  predicate Less(a: Rank, b: Rank) {
    || a.active < b.active
    || (a.active == b.active && (
          || a.steps < b.steps
          || (a.steps == b.steps && (
                || a.phase < b.phase
                || (a.phase == b.phase && (
                      || a.talk < b.talk
                      || (a.talk == b.talk && (
                            || a.calls < b.calls
                            || (a.calls == b.calls && (
                                  a.work < b.work || (a.work == b.work && a.place < b.place)))))))))))
  }

  function Remaining(limit: nat, used: nat): nat {
    if used <= limit then limit - used else 0
  }

  function ToolWork(t: ToolRecord): nat {
    match t.state
    case Requested => 2
    case Started => 1
    case _ => 0
  }

  function Work(tools: seq<ToolRecord>): nat {
    if tools == [] then 0 else ToolWork(tools[0]) + Work(tools[1..])
  }

  function Phase(p: RunProjection): nat {
    if p.HasOpenStep() then 0 else if p.step.None? then 1 else 2
  }

  function PlaceRank(status: RunStatus, place: Place): nat {
    match place
    case Idle => 0
    case Ready => if status.Cancelling? then 1 else 3
    case InTool(_, _) => 1
    case _ => 2
  }

  function Talk(p: RunProjection, place: Place): nat {
    if p.HasOpenStep() then (if p.CurrentAssistant().None? then 1 else 0)
    else |PendingIds(p.inbox, NextStep)| + (if place.TurnOpened? then 1 else 0)
  }

  /** Running or cancelling; steps left; where between steps; what to say first; calls left; tools to finish; place. */
  function RankOf(cfg: Config, p: RunProjection, place: Place): Rank {
    Rank(if p.status.Running? || p.status.Cancelling? then 1 else 0,
         Remaining(cfg.limits.maxSteps, |p.completed|),
         Phase(p), Talk(p, place),
         Remaining(cfg.limits.maxToolCalls, |p.tools|),
         Work(p.tools), PlaceRank(p.status, place))
  }

  function WorldRank(cfg: Config, w: World): Rank {
    if Project(w.log).None? then Rank(0, 0, 0, 0, 0, 0, 0) else RankOf(cfg, StateOf(w), w.place)
  }

  lemma {:induction false} WorkUnderUpdate(tools: seq<ToolRecord>, i: nat, t: ToolRecord)
    requires i < |tools|
    ensures Work(tools[i := t]) == Work(tools) - ToolWork(tools[i]) + ToolWork(t)
  {
    if i > 0 {
      WorkUnderUpdate(tools[1..], i - 1, t);
      assert tools[i := t][1..] == tools[1..][i - 1 := t];
    } else {
      assert tools[i := t][1..] == tools[1..];
    }
  }

  /* ---------------------------------------------------------------- events lower the rank */

  /** The invariant's bounds on steps and calls. */
  predicate WithinLimits(cfg: Config, p: RunProjection) {
    && |p.completed| + (if p.HasOpenStep() then 1 else 0) <= cfg.limits.maxSteps
    && |p.tools| <= cfg.limits.maxToolCalls
  }

  /** The events of the driver's own actions, except inbox deliveries. */
  predicate IsDriverEvent(e: Event) {
    || e.ApprovalRequested? || e.TurnStarted? || e.StepStarted? || e.AssistantMessage? || e.ToolRequested?
    || e.ToolStarted? || e.ToolCompleted? || e.ToolFailed? || e.StepCompleted?
    || e.RunCompleted? || e.RunCancelled? || e.RunFailed? || e.RunFailedUncertain?
  }

  lemma {:induction false} ToolEventLowers(cfg: Config, p: RunProjection, first: bool, e: Event, place: Place, place': Place)
    requires Accepts(p, first, e) && (e.ToolStarted? || e.ToolCompleted? || e.ToolFailed?)
    requires e.ToolStarted? ==> p.tools[IndexOfTool(p.tools, e.callId)].state.Requested?
    requires p.HasOpenStep()
    ensures Less(RankOf(cfg, Advance(p, e), place'), RankOf(cfg, p, place))
  {
    hide StepsOfTurn, FindAssistant, PendingIds, PlaceRank, Accepts, Advance, IndexOfTool, Work;
    var i := IndexOfTool(p.tools, e.callId);
    ToolsAfter(p, first, e);
    CursorShape(p, i, e);
    WorkUnderUpdate(p.tools, i, Advance(p, e).tools[i]);
  }

  lemma {:induction false} EventLowers(cfg: Config, p: RunProjection, first: bool, e: Event, place: Place, place': Place)
    requires Accepts(p, first, e) && IsDriverEvent(e) && (p.status.Running? || p.status.Cancelling?)
    requires WithinLimits(cfg, p) && WithinLimits(cfg, Advance(p, e))
    requires e.TurnStarted? ==> Phase(p) == 2
    requires e.StepStarted? ==> Phase(Advance(p, e)) == 0
    requires e.AssistantMessage? ==> p.CurrentAssistant().None? && Advance(p, e).CurrentAssistant().Some?
    requires e.ToolStarted? ==> p.tools[IndexOfTool(p.tools, e.callId)].state.Requested?
    ensures Less(RankOf(cfg, Advance(p, e), place'), RankOf(cfg, p, place))
  {
    hide StepsOfTurn, FindAssistant, PendingIds, PlaceRank, Work, IndexOfItem, Blank, IndexOfTool;
    if e.ToolStarted? || e.ToolCompleted? || e.ToolFailed? {
      ToolEventLowers(cfg, p, first, e, place, place');
    }
  }

  /* ---------------------------------------------------------------- ticks lower the rank */

  /** What the invariant says about an appended event. */
  lemma {:induction false} AppendedEvent(cfg: Config, w: World, e: Event, place: Place)
    requires Invariant(cfg, w) && w.log != [] && Invariant(cfg, Extend(w, [e], place))
    ensures Project(w.log).Some? && Project(w.log + [e]) == Some(Advance(StateOf(w), e))
    ensures Accepts(StateOf(w), false, e) && Lawful(cfg, w.log, StateOf(w), e)
    ensures WithinLimits(cfg, StateOf(w)) && WithinLimits(cfg, Advance(StateOf(w), e))
    ensures StepsOk(Advance(StateOf(w), e))
  {
    hide WorldOk, LawfulLog, Project, Lawful, Accepts, Advance, StepsOk, WithinLimits;
    var after := Extend(w, [e], place);
    var base: nat, cursor: nat :| WorldOk(cfg, w, base, cursor);
    var base': nat, cursor': nat :| WorldOk(cfg, after, base', cursor');
    WorldLawful(cfg, after, base', cursor');
    LastLawful(cfg, w.log, e);
    WorldWithin(cfg, w, base, cursor);
    WorldWithin(cfg, after, base', cursor');
    ProjectSnoc(w.log, e);
  }

  lemma {:induction false} LastLawful(cfg: Config, log: seq<Event>, e: Event)
    requires LawfulLog(cfg, log + [e])
    ensures Project(log).Some? && Accepts(Project(log).value, log == [], e) && Lawful(cfg, log, Project(log).value, e)
  {
    hide Project, Accepts, Lawful;
    assert (log + [e])[..|log + [e]| - 1] == log;
  }

  lemma {:induction false} WorldWithin(cfg: Config, w: World, base: nat, cursor: nat)
    requires Sound(cfg, w, base, cursor)
    ensures WithinLimits(cfg, StateOf(w)) && StepsOk(StateOf(w))
  {
    hide WorldOk, StepsOk;
    WorldParts(cfg, w, base, cursor);
  }

  lemma {:induction false} AppendLowers(cfg: Config, w: World, e: Event, place: Place)
    requires Invariant(cfg, w) && w.log != [] && Invariant(cfg, Extend(w, [e], place)) && IsDriverEvent(e)
    requires Project(w.log).Some? && (StateOf(w).status.Running? || StateOf(w).status.Cancelling?)
    requires e.TurnStarted? ==> Phase(StateOf(w)) == 2
    requires e.AssistantMessage? ==> StateOf(w).CurrentAssistant().None? && Advance(StateOf(w), e).CurrentAssistant().Some?
    ensures Less(WorldRank(cfg, Extend(w, [e], place)), WorldRank(cfg, w))
  {
    hide Invariant, Project, RankOf, Less, FindAssistant, WithinLimits, LastDecision, FirstPending, RunPreflight, NeedsApproval, IsDriverEvent;
    AppendedEvent(cfg, w, e, place);
    EventLowers(cfg, StateOf(w), false, e, w.place, place);
  }

  /** The kinds of actions on the tools of an open step. */
  lemma {:induction false} ToolActionKind(cfg: Config, log: seq<Event>, p: RunProjection, calls: seq<ToolCall>)
    requires p.HasOpenStep()
    ensures var a := ToolAction(cfg, log, p, calls);
            || a.RejectTool? || a.StartTool? || a.RunTool?
            || (a.Write? && |a.batch| == 1 && IsDriverEvent(a.batch[0]) && !a.batch[0].TurnStarted? && !a.batch[0].AssistantMessage?)
  {
    hide RunPreflight, ToolEffect, SortByIndex, ToolsOfStep, KnowsTool, FirstDecision, FirstUnknown, FirstUnfinished;
  }

  /** The kinds of batches the driver writes. */
  lemma {:induction false} WrittenBatch(cfg: Config, log: seq<Event>, p: RunProjection)
    requires NextAction(cfg, log, p).Write? && !p.status.Created?
    ensures p.status.Running? || p.status.Cancelling?
    ensures var batch := NextAction(cfg, log, p).batch;
            || (|batch| == 1 && IsDriverEvent(batch[0]) && !batch[0].TurnStarted? && !batch[0].AssistantMessage?)
            || (batch == Consumptions(PendingIds(p.inbox, NextStep)) && PendingIds(p.inbox, NextStep) != [] && AwaitsStep(p)
                && p.status.Running?)
  {
    hide NextAction, PendingIds, StepsOfTurn, FindAssistant, BudgetFailure, HasUncertain, ToolAction;
    NextIs(cfg, log, p);
    if p.HasOpenStep() && p.CurrentAssistant().Some? {
      ToolActionKind(cfg, log, p, p.CurrentAssistant().value.toolCalls);
    }
  }

  lemma {:induction false} DeliveryLowers(cfg: Config, w: World, target: InboxTarget, base: nat, cursor: nat)
    requires Sound(cfg, w, base, cursor) && StateOf(w).status.Running? && !StateOf(w).HasOpenStep()
    requires (target.NextStep? && w.place.Ready? && PendingIds(StateOf(w).inbox, NextStep) != [] && AwaitsStep(StateOf(w))) || (target.NextTurn? && w.place.TurnOpened?)
    ensures Less(WorldRank(cfg, Extend(w, Consumptions(PendingIds(StateOf(w).inbox, target)), Ready)), WorldRank(cfg, w))
  {
    hide StateOk, EntriesOk, LawfulLog, Project, PendingIds, FindAssistant;
    var ready := w.(place := Ready);
    assert WorldOk(cfg, ready, base, cursor);
    ConsumeAll(cfg, ready, target, PendingIds(StateOf(w).inbox, target), base, cursor);
    assert SameWork(StateOf(w), StateOf(Extend(w, Consumptions(PendingIds(StateOf(w).inbox, target)), Ready)));
    assert target.NextTurn? ==> target != NextStep;
  }

  /** The driver is between two actions. */
  lemma {:induction false} ActLowers(cfg: Config, w: World, base: nat, cursor: nat)
    requires cfg.Valid() && w.log != [] && Sound(cfg, w, base, cursor) && w.place.Ready?
    requires Invariant(cfg, PerformAction(w, NextAction(cfg, w.log, StateOf(w))))
    ensures Less(WorldRank(cfg, PerformAction(w, NextAction(cfg, w.log, StateOf(w)))), WorldRank(cfg, w))
  {
    hide WorldOk, Project, Invariant, NextAction, RankOf, Less, Phase;
    var p := StateOf(w);
    var a := NextAction(cfg, w.log, p);
    SoundInvariant(cfg, w, base, cursor);
    NotCreated(cfg, w, base, cursor);
    match a
    case Halt => PlaceLowers(cfg, p, w.place, Idle);
    case AskProvider => OpeningActions(cfg, w.log, p); PlaceLowers(cfg, p, w.place, InProvider);
    case RunTool(call) => OpeningActions(cfg, w.log, p); PlaceLowers(cfg, p, w.place, Starting(call));
    case OpenTurn => OpeningActions(cfg, w.log, p); AppendLowers(cfg, w, TurnStarted(p.turn + 1), TurnOpened);
    case RejectTool(id, output) => OpeningActions(cfg, w.log, p); AppendLowers(cfg, w, ToolStarted(id), Rejecting(id, output));
    case StartTool(call) => OpeningActions(cfg, w.log, p); AppendLowers(cfg, w, ToolStarted(call.id), Starting(call));
    case Write(batch) =>
      WrittenBatch(cfg, w.log, p);
      if |batch| == 1 && IsDriverEvent(batch[0]) {
        assert batch == [batch[0]];
        AppendLowers(cfg, w, batch[0], Ready);
      } else {
        DeliveryLowers(cfg, w, NextStep, base, cursor);
      }
  }

  lemma {:induction false} PlaceLowers(cfg: Config, p: RunProjection, place: Place, place': Place)
    requires PlaceRank(p.status, place') < PlaceRank(p.status, place) && !place.TurnOpened? && !place'.TurnOpened?
    ensures Less(RankOf(cfg, p, place'), RankOf(cfg, p, place))
  {
    hide PendingIds, FindAssistant, Work, PlaceRank;
  }

  /** Opening actions are those of a running driver. */
  lemma {:induction false} OpeningActions(cfg: Config, log: seq<Event>, p: RunProjection)
    requires var a := NextAction(cfg, log, p);
             a.OpenTurn? || a.AskProvider? || a.RejectTool? || a.StartTool? || a.RunTool?
    ensures p.status.Running? || p.status.Created?
    ensures NextAction(cfg, log, p).OpenTurn? ==> Phase(p) == 2
  {
    hide NextAction, PendingIds, StepsOfTurn, FindAssistant, BudgetFailure, HasUncertain, ToolAction;
    NextIs(cfg, log, p);
    if p.HasOpenStep() && p.CurrentAssistant().Some? {
      ToolActionKind(cfg, log, p, p.CurrentAssistant().value.toolCalls);
    }
  }

  lemma {:induction false} SecondHalfLowers(cfg: Config, w: World, base: nat, cursor: nat)
    requires cfg.Valid() && w.log != [] && Sound(cfg, w, base, cursor)
    requires w.place.TurnOpened? || w.place.Rejecting? || w.place.Starting?
    requires Invariant(cfg, FinishAction(cfg, w))
    ensures Less(WorldRank(cfg, FinishAction(cfg, w)), WorldRank(cfg, w))
  {
    hide WorldOk, Project, Invariant, RankOf, Less, RunPreflight, RunGate, ToolEffect, LookUpApproval, FindAssistant, PendingIds;
    SoundInvariant(cfg, w, base, cursor);
    PlaceHolds(cfg, w, base, cursor);
    match w.place
    case TurnOpened => DeliveryLowers(cfg, w, NextTurn, base, cursor);
    case Rejecting(id, output) => AppendLowers(cfg, w, ToolFailed(id, output), Ready);
    case Starting(call) =>
      assert w.log + [] == w.log;
      PlaceLowers(cfg, StateOf(w), w.place, FinishAction(cfg, w).place);
  }

  lemma {:induction false} PlaceHolds(cfg: Config, w: World, base: nat, cursor: nat)
    requires Sound(cfg, w, base, cursor)
    ensures PlaceOk(cfg, w, StateOf(w), cursor)
  {
    hide StateOk, EntriesOk, PlaceOk, LawfulLog, Project;
  }

  lemma {:induction false} SoundInvariant(cfg: Config, w: World, base: nat, cursor: nat)
    requires w.log != [] && Sound(cfg, w, base, cursor)
    ensures Invariant(cfg, w)
  {
    hide WorldOk, Project;
  }

  lemma {:induction false} RespondLowers(cfg: Config, w: World, r: Response, base: nat, cursor: nat)
    requires cfg.Valid() && w.log != [] && Sound(cfg, w, base, cursor) && Enabled(cfg, w, Respond(r))
    requires Invariant(cfg, Perform(cfg, w, Respond(r)))
    ensures Less(WorldRank(cfg, Perform(cfg, w, Respond(r))), WorldRank(cfg, w))
  {
    hide WorldOk, Project, Invariant, RankOf, Less, FindAssistant;
    SoundInvariant(cfg, w, base, cursor);
    PlaceHolds(cfg, w, base, cursor);
    var p := StateOf(w);
    if p.status.Cancelling? {
      PlaceLowers(cfg, p, w.place, Ready);
    } else {
      var e := ResponseEvent(p, r);
      AssistantSnoc(p.assistants, Advance(p, e).assistants[|p.assistants|], p.OpenKey());
      AppendLowers(cfg, w, e, Ready);
    }
  }

  lemma {:induction false} RaiseLowers(cfg: Config, w: World, message: string, base: nat, cursor: nat)
    requires cfg.Valid() && w.log != [] && Sound(cfg, w, base, cursor) && Enabled(cfg, w, ProviderRaises(message))
    requires Invariant(cfg, Perform(cfg, w, ProviderRaises(message)))
    ensures Less(WorldRank(cfg, Perform(cfg, w, ProviderRaises(message))), WorldRank(cfg, w))
  {
    hide WorldOk, Project, Invariant, RankOf, Less, FindAssistant, HasUncertain;
    SoundInvariant(cfg, w, base, cursor);
    PlaceHolds(cfg, w, base, cursor);
    AppendLowers(cfg, w, AbortEvent(StateOf(w), RuntimeFailure(message)), Ready);
  }

  lemma {:induction false} ObserveLowers(cfg: Config, w: World, o: Observation, base: nat, cursor: nat)
    requires cfg.Valid() && w.log != [] && Sound(cfg, w, base, cursor) && Enabled(cfg, w, Observe(o))
    requires Invariant(cfg, Perform(cfg, w, Observe(o)))
    ensures Less(WorldRank(cfg, Perform(cfg, w, Observe(o))), WorldRank(cfg, w))
  {
    hide WorldOk, Project, Invariant, RankOf, Less, ToolEffect, RunPreflight, LeavesUncertain, FindAssistant;
    SoundInvariant(cfg, w, base, cursor);
    PlaceHolds(cfg, w, base, cursor);
    AppendLowers(cfg, w, OutcomeEvent(ToolEffect(cfg.pipeline, w.place.call), w.place.call.id, o), Ready);
  }

  /** Every tick of a driver whose provider and tools answer lowers the rank. */
  lemma {:induction false} TickLowers(cfg: Config, env: Environment, w: World)
    requires cfg.Valid() && env.Valid() && Invariant(cfg, w) && !w.place.Idle?
    ensures Less(WorldRank(cfg, Tick(cfg, env, w)), WorldRank(cfg, w))
  {
    hide WorldOk, Project, Less, WorldRank, NextAction, Enabled;
    ReplyEnabled(cfg, env, w);
    var base: nat, cursor: nat :| WorldOk(cfg, w, base, cursor);
    var after := Tick(cfg, env, w);
    match w.place
    case Ready => ActLowers(cfg, w, base, cursor);
    case InProvider =>
      if env.provider(w.log).Answered? {
        RespondLowers(cfg, w, env.provider(w.log).response, base, cursor);
      } else {
        RaiseLowers(cfg, w, env.provider(w.log).message, base, cursor);
      }
    case InTool(call, gate) => ObserveLowers(cfg, w, Reply(env, w).observation, base, cursor);
    case _ => SecondHalfLowers(cfg, w, base, cursor);
  }

  /** Where the driver stops: finished, or waiting for the operator. */
  ghost function Finish(cfg: Config, env: Environment, w: World): (r: World)
    requires cfg.Valid() && env.Valid() && Invariant(cfg, w)
    ensures Invariant(cfg, r) && r.place.Idle? && w.log <= r.log
    decreases WorldRank(cfg, w).active, WorldRank(cfg, w).steps, WorldRank(cfg, w).phase, WorldRank(cfg, w).talk,
              WorldRank(cfg, w).calls, WorldRank(cfg, w).work, WorldRank(cfg, w).place
  {
    if w.place.Idle? then w
    else
      TickLowers(cfg, env, w);
      ReplyEnabled(cfg, env, w);
      PerformKeepsLog(cfg, w, Reply(env, w));
      Finish(cfg, env, Tick(cfg, env, w))
  }
}
