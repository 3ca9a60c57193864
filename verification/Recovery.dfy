/** Crash recovery: with a deterministic environment a crash and restart leaves the final log as it would have been,
    except where an outcome or a delivery was in flight, and exactly there. */
module Recovery {
  import opened Events
  import opened Projection
  import opened ToolPipeline
  import opened Runtime
  import opened RuntimeInvariant
  import opened DriverLemmas
  import opened InvariantSteps
  import opened RuntimeSafety
  import opened RuntimeRuns
  import opened Termination

  /** The driver dies and is started again. */
  function Restart(w: World): World {
    w.(place := Ready)
  }

  lemma {:induction false} RestartSound(cfg: Config, w: World)
    requires Invariant(cfg, w) && w.log != []
    ensures Invariant(cfg, Restart(w))
  {
    hide WorldOk, Project;
    var base: nat, cursor: nat :| WorldOk(cfg, w, base, cursor);
    RestartOk(cfg, w, base, cursor);
  }

  lemma {:induction false} RestartOk(cfg: Config, w: World, base: nat, cursor: nat)
    requires Sound(cfg, w, base, cursor)
    ensures Sound(cfg, Restart(w), base, cursor)
  {
    hide StateOk, EntriesOk, LawfulLog, Project;
  }

  /* ---------------------------------------------------------------- histories do not matter */

  /** The driver reads the log only: which handlers were entered before changes nothing. */
  lemma {:induction false} HistoryIrrelevant(cfg: Config, env: Environment, a: World, b: World)
    requires cfg.Valid() && env.Valid() && Invariant(cfg, a) && Invariant(cfg, b) && a.log == b.log && a.place == b.place
    ensures Finish(cfg, env, a).log == Finish(cfg, env, b).log
    decreases WorldRank(cfg, a).active, WorldRank(cfg, a).steps, WorldRank(cfg, a).phase, WorldRank(cfg, a).talk,
              WorldRank(cfg, a).calls, WorldRank(cfg, a).work, WorldRank(cfg, a).place
  {
    hide Invariant, WorldRank, Project, Tick;
    if !a.place.Idle? {
      TickLowers(cfg, env, a);
      SameTick(cfg, env, a, b);
      HistoryIrrelevant(cfg, env, Tick(cfg, env, a), Tick(cfg, env, b));
    }
  }

  lemma {:induction false} SameTick(cfg: Config, env: Environment, a: World, b: World)
    requires cfg.Valid() && env.Valid() && Invariant(cfg, a) && Invariant(cfg, b) && a.log == b.log && a.place == b.place
    requires !a.place.Idle?
    ensures Tick(cfg, env, a).log == Tick(cfg, env, b).log && Tick(cfg, env, a).place == Tick(cfg, env, b).place
  {
    hide Invariant, NextAction, RunGate, LookUpApproval, OutcomeEvent, PendingIds, Project;
    ReplyEnabled(cfg, env, a);
    ReplyEnabled(cfg, env, b);
  }

  /* ---------------------------------------------------------------- what a restarted driver does */

  function InFlightAction(cfg: Config, t: ToolRecord): Action {
    if ToolEffect(cfg.pipeline, CallOf(t)).Mutate? then Write([RunFailedUncertain(UncertainMutation(t.callId))])
    else RunTool(CallOf(t))
  }

  /** A restarted driver finds a tool in flight: it picks a read tool up again and gives a mutating one up. */
  lemma {:induction false} NextInFlight(cfg: Config, w: World, base: nat, cursor: nat)
    requires Sound(cfg, w, base, cursor) && cursor < |StateOf(w).tools| && StateOf(w).tools[cursor].state.Started?
    requires StateOf(w).status.Running?
    ensures NextAction(cfg, w.log, StateOf(w)) == InFlightAction(cfg, StateOf(w).tools[cursor])
  {
    hide WorldOk, ToolEffect, Project, NextAction, ToolsOk, FindAssistant, ToolAction, HasUncertain, PendingIds, BudgetFailure, StepsOfTurn;
    var p := StateOf(w);
    EffectAtCursor(cfg, w, base, cursor);
    WorldParts(cfg, w, base, cursor);
    UncertainAtCursor(cfg, p, base, cursor);
    NextIs(cfg, w.log, p);
    InFlightStep(cfg, p, base, cursor);
    if ToolEffect(cfg.pipeline, CallOf(p.tools[cursor])).Read? {
      NextToolAction(cfg, w.log, p, base, cursor);
    }
  }

  /** A started tool belongs to an open step whose response asked for tools and is within the budgets. */
  lemma {:induction false} InFlightStep(cfg: Config, p: RunProjection, base: nat, cursor: nat)
    requires ToolsOk(cfg, p, base, cursor) && BudgetsOk(cfg, p, base) && AssistantsOk(p)
    requires cursor < |p.tools| && p.tools[cursor].state.Started?
    ensures p.HasOpenStep() && p.CurrentAssistant().Some? && p.CurrentAssistant().value.stop.ToolUse?
    ensures AllRequested(p, base) && BudgetFailure(cfg.limits, p).None?
  {
    hide BudgetFailure, UniqueTools, FindAssistant, TokenCount, CallCount;
    BusyRequested(cfg, p, base, cursor);
    FoundAssistant(p.assistants, p.OpenKey());
    assert RecordOk(p.CurrentAssistant().value);
  }

  /** In an open step without a response the driver asks the provider. */
  lemma {:induction false} NextAsks(cfg: Config, w: World, base: nat, cursor: nat)
    requires Sound(cfg, w, base, cursor) && StateOf(w).status.Running? && StateOf(w).HasOpenStep() && StateOf(w).CurrentAssistant().None?
    ensures NextAction(cfg, w.log, StateOf(w)) == AskProvider
  {
    hide WorldOk, Project, NextAction, ToolAction, HasUncertain, PendingIds, BudgetFailure, StepsOfTurn, FindAssistant, RequestsOk, AllRequested,
         UniqueTools;
    WorldParts(cfg, w, base, cursor);
    UncertainAtCursor(cfg, StateOf(w), base, cursor);
    NextIs(cfg, w.log, StateOf(w));
  }

  /** A cancelling run is over at the next action. */
  lemma {:induction false} NextCancels(cfg: Config, w: World)
    requires Project(w.log).Some? && StateOf(w).status.Cancelling?
    ensures NextAction(cfg, w.log, StateOf(w)) == Write([CancellationEvent(StateOf(w))])
  {
    hide Project, HasUncertain, PendingIds, BudgetFailure, StepsOfTurn, FindAssistant, ToolAction;
  }

  /** The gate a call in flight meets is decided by its preflight. */
  lemma {:induction false} GateInFlight(cfg: Config, w: World, base: nat, cursor: nat)
    requires cfg.Valid() && Sound(cfg, w, base, cursor) && w.place.InTool?
    ensures w.place.gate == RunGate(cfg.pipeline, w.place.call, LookUpApproval(w.log, StateOf(w), w.place.call))
  {
    hide WorldOk, Project, RunGate, LookUpApproval, RunPreflight, NeedsApproval, ToolEffect, ToolsOk, ApprovalsOk, Granted, FindAssistant;
    WorldParts(cfg, w, base, cursor);
    GateAtCursor(cfg, w.log, StateOf(w), base, cursor, w.place.call);
    if w.place.gate.Enter? {
      EnteredPassed(cfg, w, base, cursor);
    }
  }

  lemma {:induction false} EnteredPassed(cfg: Config, w: World, base: nat, cursor: nat)
    requires Sound(cfg, w, base, cursor) && w.place.InTool? && w.place.gate.Enter?
    ensures RunPreflight(cfg.pipeline, w.place.call).Proceed?
  {
    hide StateOk, Project, RunPreflight, NeedsApproval, ToolEffect, Granted, LawfulLog;
    CursorUnique(cfg, w, base, cursor);
    var i :| 0 <= i < |w.entered| && w.entered[i] == w.place.call.id;
    assert EntryOk(cfg, w.log, StateOf(w), w.entered[i]);
  }

  lemma {:induction false} CursorUnique(cfg: Config, w: World, base: nat, cursor: nat)
    requires Sound(cfg, w, base, cursor) && cursor < |StateOf(w).tools|
    ensures IndexOfTool(StateOf(w).tools, StateOf(w).tools[cursor].callId) == cursor
  {
    hide WorldOk, RequestsOk, AllRequested;
    WorldParts(cfg, w, base, cursor);
    IndexIs(StateOf(w).tools, cursor);
  }

  /* ---------------------------------------------------------------- where a crash is transparent */

  /** What a call in flight will be observed to do. */
  function Outcome(env: Environment, call: ToolCall, gate: Gate): Observation {
    if gate.Refuse? then Observation(gate.output, true) else env.tool(call)
  }

  function ObservedEvent(cfg: Config, env: Environment, call: ToolCall, gate: Gate): Event {
    OutcomeEvent(ToolEffect(cfg.pipeline, call), call.id, Outcome(env, call, gate))
  }

  /** A crash loses nothing: no delivery of next-turn messages is under way; no mutating call is between its start and
      its result, unless its outcome will turn out unknown anyway; and no result is overtaken by a cancellation. */
  predicate Transparent(cfg: Config, env: Environment, w: World)
    requires Project(w.log).Some?
  {
    match w.place
    case TurnOpened => false
    case Rejecting(callId, output) =>
      var i := IndexOfTool(StateOf(w).tools, callId);
      i < |StateOf(w).tools| && StateOf(w).tools[i].effect.Read?
    case Starting(call) => ToolEffect(cfg.pipeline, call).Read? || LeavesUncertain(Mutate, env.tool(call))
    case InTool(call, gate) =>
      if ToolEffect(cfg.pipeline, call).Read? then StateOf(w).status.Running?
      else LeavesUncertain(Mutate, Outcome(env, call, gate))
    case _ => true
  }

  /** Two driver worlds that will write the same log. */
  ghost predicate SameEnd(cfg: Config, env: Environment, a: World, b: World)
    requires cfg.Valid() && env.Valid()
  {
    Invariant(cfg, a) && Invariant(cfg, b) && Finish(cfg, env, a).log == Finish(cfg, env, b).log
  }

  lemma {:induction false} TickEnd(cfg: Config, env: Environment, w: World)
    requires cfg.Valid() && env.Valid() && Invariant(cfg, w) && !w.place.Idle?
    ensures SameEnd(cfg, env, w, Tick(cfg, env, w))
  {
    hide Invariant, Tick, WorldRank;
  }

  lemma {:induction false} HistoryEnd(cfg: Config, env: Environment, a: World, b: World)
    requires cfg.Valid() && env.Valid() && Invariant(cfg, a) && Invariant(cfg, b) && a.log == b.log && a.place == b.place
    ensures SameEnd(cfg, env, a, b)
  {
    hide Invariant, Finish;
    HistoryIrrelevant(cfg, env, a, b);
  }

  /** When two worlds continue with different events, their final logs differ. */
  lemma {:induction false} DifferentEnds(cfg: Config, env: Environment, a: World, b: World, a': World, b': World)
    requires cfg.Valid() && env.Valid() && SameEnd(cfg, env, a, a') && SameEnd(cfg, env, b, b')
    requires a.log == b.log && |a.log| < |a'.log| && |b.log| < |b'.log| && a.log <= a'.log && b.log <= b'.log
    requires a'.log[|a.log|] != b'.log[|b.log|]
    ensures !SameEnd(cfg, env, a, b)
  {
    hide Invariant;
    assert a'.log <= Finish(cfg, env, a').log && b'.log <= Finish(cfg, env, b').log;
    assert Finish(cfg, env, a').log[|a.log|] == a'.log[|a.log|];
    assert Finish(cfg, env, b').log[|b.log|] == b'.log[|b.log|];
  }

  /** What one tick writes. */
  lemma {:induction false} TickWrites(cfg: Config, env: Environment, w: World)
    requires cfg.Valid() && env.Valid() && Invariant(cfg, w) && !w.place.Idle?
    ensures Project(w.log).Some?
    ensures w.place.Ready? ==> Tick(cfg, env, w) == PerformAction(w, NextAction(cfg, w.log, StateOf(w)))
    ensures w.place.Rejecting? || w.place.Starting? || w.place.TurnOpened? ==> Tick(cfg, env, w) == FinishAction(cfg, w)
    ensures w.place.InProvider? && StateOf(w).status.Cancelling? ==>
              if env.provider(w.log).Answered? then Tick(cfg, env, w) == Restart(w)
              else Tick(cfg, env, w) == Extend(w, [CancellationEvent(StateOf(w))], Ready)
    ensures w.place.InTool? ==> Tick(cfg, env, w) == Extend(w, [ObservedEvent(cfg, env, w.place.call, w.place.gate)], Ready)
  {
    hide Invariant, NextAction, RunGate, LookUpApproval, OutcomeEvent, PendingIds, Project, FinishAction, ToolEffect, PerformAction;
    ReplyEnabled(cfg, env, w);
  }

  /* ---------------------------------------------------------------- the places one by one */

  lemma {:induction false} CrashInProvider(cfg: Config, env: Environment, w: World, base: nat, cursor: nat)
    requires cfg.Valid() && env.Valid() && w.log != [] && Invariant(cfg, w) && Sound(cfg, w, base, cursor) && w.place.InProvider?
    ensures SameEnd(cfg, env, w, Restart(w))
  {
    hide Invariant, Finish, Project, WorldOk, NextAction, Tick;
    PlaceHolds(cfg, w, base, cursor);
    RestartSound(cfg, w);
    TickWrites(cfg, env, w);
    TickEnd(cfg, env, w);
    if StateOf(w).status.Running? {
      NextAsks(cfg, w, base, cursor);
      TickWrites(cfg, env, Restart(w));
      TickEnd(cfg, env, Restart(w));
    } else if env.provider(w.log).Broken? {
      NextCancels(cfg, w);
      TickWrites(cfg, env, Restart(w));
      TickEnd(cfg, env, Restart(w));
      HistoryEnd(cfg, env, Tick(cfg, env, w), Tick(cfg, env, Restart(w)));
    }
  }

  /** A restarted driver comes back to a started read tool. */
  lemma {:induction false} BackToReading(cfg: Config, env: Environment, w: World, call: ToolCall, base: nat, cursor: nat)
    requires cfg.Valid() && env.Valid() && w.log != [] && Invariant(cfg, w) && Sound(cfg, w, base, cursor)
    requires StateOf(w).status.Running? && AtCursor(StateOf(w), cursor, call) && ToolEffect(cfg.pipeline, call).Read?
    ensures SameEnd(cfg, env, Restart(w), w.(place := Starting(call)))
  {
    hide Invariant, Finish, Project, WorldOk, NextAction, Tick, ToolEffect;
    RestartSound(cfg, w);
    RestartOk(cfg, w, base, cursor);
    NextInFlight(cfg, w, base, cursor);
    TickWrites(cfg, env, Restart(w));
    TickEnd(cfg, env, Restart(w));
  }

  /** A restarted driver gives a started mutation up. */
  lemma {:induction false} GivenUp(cfg: Config, env: Environment, w: World, call: ToolCall, base: nat, cursor: nat)
    requires cfg.Valid() && env.Valid() && w.log != [] && Invariant(cfg, w) && Sound(cfg, w, base, cursor)
    requires StateOf(w).status.Running? || StateOf(w).status.Cancelling?
    requires AtCursor(StateOf(w), cursor, call) && ToolEffect(cfg.pipeline, call).Mutate?
    ensures SameEnd(cfg, env, Restart(w), Extend(w, [RunFailedUncertain(UncertainMutation(call.id))], Ready))
  {
    hide Invariant, Finish, Project, WorldOk, NextAction, Tick, ToolEffect, ToolsOk;
    RestartSound(cfg, w);
    TickWrites(cfg, env, Restart(w));
    TickEnd(cfg, env, Restart(w));
    if StateOf(w).status.Running? {
      NextInFlight(cfg, w, base, cursor);
    } else {
      NextCancels(cfg, w);
      CancelledInFlight(cfg, w, base, cursor);
    }
  }

  lemma {:induction false} CancelledInFlight(cfg: Config, w: World, base: nat, cursor: nat)
    requires Sound(cfg, w, base, cursor) && cursor < |StateOf(w).tools| && StateOf(w).tools[cursor].state.Started?
    ensures var t := StateOf(w).tools[cursor];
            CancellationEvent(StateOf(w)) == (if ToolEffect(cfg.pipeline, CallOf(t)).Mutate?
                                              then RunFailedUncertain(UncertainMutation(t.callId)) else RunCancelled)
  {
    hide WorldOk, Project, ToolsOk, ToolEffect;
    WorldParts(cfg, w, base, cursor);
    EffectAtCursor(cfg, w, base, cursor);
    UncertainAtCursor(cfg, StateOf(w), base, cursor);
  }

  lemma {:induction false} CrashRejecting(cfg: Config, env: Environment, w: World, base: nat, cursor: nat)
    requires cfg.Valid() && env.Valid() && w.log != [] && Invariant(cfg, w) && Sound(cfg, w, base, cursor) && w.place.Rejecting?
    ensures SameEnd(cfg, env, w, Restart(w)) <==> Transparent(cfg, env, w)
  {
    hide Invariant, Finish, Project, WorldOk, NextAction, Tick, ToolEffect, RunPreflight, RunGate, LookUpApproval;
    PlaceHolds(cfg, w, base, cursor);
    var call := CallOf(StateOf(w).tools[cursor]);
    CursorUnique(cfg, w, base, cursor);
    EffectAtCursor(cfg, w, base, cursor);
    RestartSound(cfg, w);
    TickWrites(cfg, env, w);
    TickEnd(cfg, env, w);
    if ToolEffect(cfg.pipeline, call).Read? {
      BackToReading(cfg, env, w, call, base, cursor);
      RejectedGate(cfg, w, call, base, cursor);
      ReadThrough(cfg, env, w.(place := Starting(call)));
      HistoryEnd(cfg, env, Tick(cfg, env, w), Tick(cfg, env, Tick(cfg, env, w.(place := Starting(call)))));
    } else {
      GivenUp(cfg, env, w, call, base, cursor);
      DifferentEnds(cfg, env, w, Restart(w), Tick(cfg, env, w), Extend(w, [RunFailedUncertain(UncertainMutation(call.id))], Ready));
    }
  }

  lemma {:induction false} RejectedGate(cfg: Config, w: World, call: ToolCall, base: nat, cursor: nat)
    requires cfg.Valid() && Sound(cfg, w, base, cursor) && AtCursor(StateOf(w), cursor, call)
    requires RunPreflight(cfg.pipeline, call).Rejected?
    ensures RunGate(cfg.pipeline, call, LookUpApproval(w.log, StateOf(w), call)) == Refuse(RunPreflight(cfg.pipeline, call).output)
  {
    hide WorldOk, Project, ToolsOk, ApprovalsOk, RunPreflight, RunGate, LookUpApproval, NeedsApproval;
    WorldParts(cfg, w, base, cursor);
    GateAtCursor(cfg, w.log, StateOf(w), base, cursor, call);
  }

  /** A started call goes to the executor and comes back. */
  lemma {:induction false} ReadThrough(cfg: Config, env: Environment, w: World)
    requires cfg.Valid() && env.Valid() && Invariant(cfg, w) && w.place.Starting?
    ensures Project(w.log).Some?
    ensures var call := w.place.call;
            var gate := RunGate(cfg.pipeline, call, LookUpApproval(w.log, StateOf(w), call));
            var inTool := Tick(cfg, env, w);
            && inTool.log == w.log && inTool.place == InTool(call, gate)
            && SameEnd(cfg, env, w, inTool)
            && SameEnd(cfg, env, w, Tick(cfg, env, inTool))
            && Tick(cfg, env, inTool).log == w.log + [ObservedEvent(cfg, env, call, gate)]
            && Tick(cfg, env, inTool).place == Ready
  {
    hide Invariant, Finish, Project, RunGate, LookUpApproval, ObservedEvent, Tick;
    TickWrites(cfg, env, w);
    TickEnd(cfg, env, w);
    TickWrites(cfg, env, Tick(cfg, env, w));
    TickEnd(cfg, env, Tick(cfg, env, w));
  }

  lemma {:induction false} CrashStarting(cfg: Config, env: Environment, w: World, base: nat, cursor: nat)
    requires cfg.Valid() && env.Valid() && w.log != [] && Invariant(cfg, w) && Sound(cfg, w, base, cursor) && w.place.Starting?
    ensures SameEnd(cfg, env, w, Restart(w)) <==> Transparent(cfg, env, w)
  {
    hide Invariant, Finish, Project, WorldOk, NextAction, Tick, ToolEffect, RunPreflight, RunGate, LookUpApproval, NeedsApproval, ToolsOk,
         ApprovalsOk;
    PlaceHolds(cfg, w, base, cursor);
    var call := w.place.call;
    RestartSound(cfg, w);
    if ToolEffect(cfg.pipeline, call).Read? {
      BackToReading(cfg, env, w, call, base, cursor);
    } else {
      WorldParts(cfg, w, base, cursor);
      GateAtCursor(cfg, w.log, StateOf(w), base, cursor, call);
      ReadThrough(cfg, env, w);
      GivenUp(cfg, env, w, call, base, cursor);
      ObservedOrGivenUp(cfg, env, w, Tick(cfg, env, Tick(cfg, env, w)), call, Enter);
    }
  }

  /** A mutation that is observed ends the run as a restart would exactly when its outcome stays unknown. */
  lemma {:induction false} ObservedOrGivenUp(cfg: Config, env: Environment, w: World, w': World, call: ToolCall, gate: Gate)
    requires cfg.Valid() && env.Valid() && SameEnd(cfg, env, w, w') && ToolEffect(cfg.pipeline, call).Mutate?
    requires w'.log == w.log + [ObservedEvent(cfg, env, call, gate)] && w'.place == Ready
    requires SameEnd(cfg, env, Restart(w), Extend(w, [RunFailedUncertain(UncertainMutation(call.id))], Ready))
    ensures SameEnd(cfg, env, w, Restart(w)) <==> LeavesUncertain(Mutate, Outcome(env, call, gate))
  {
    hide Invariant, Finish, ToolEffect, LeavesUncertain, Outcome;
    var given := Extend(w, [RunFailedUncertain(UncertainMutation(call.id))], Ready);
    if LeavesUncertain(Mutate, Outcome(env, call, gate)) {
      HistoryEnd(cfg, env, w', given);
    } else {
      DifferentEnds(cfg, env, w, Restart(w), w', given);
    }
  }

  lemma {:induction false} CrashInTool(cfg: Config, env: Environment, w: World, base: nat, cursor: nat)
    requires cfg.Valid() && env.Valid() && w.log != [] && Invariant(cfg, w) && Sound(cfg, w, base, cursor) && w.place.InTool?
    ensures SameEnd(cfg, env, w, Restart(w)) <==> Transparent(cfg, env, w)
  {
    hide Invariant, Finish, Project, WorldOk, NextAction, Tick, ToolEffect, RunPreflight, RunGate, LookUpApproval, ObservedEvent;
    PlaceHolds(cfg, w, base, cursor);
    var call := w.place.call;
    RestartSound(cfg, w);
    TickWrites(cfg, env, w);
    TickEnd(cfg, env, w);
    if ToolEffect(cfg.pipeline, call).Mutate? {
      GivenUp(cfg, env, w, call, base, cursor);
      ObservedOrGivenUp(cfg, env, w, Tick(cfg, env, w), call, w.place.gate);
    } else if StateOf(w).status.Running? {
      BackToReading(cfg, env, w, call, base, cursor);
      GateInFlight(cfg, w, base, cursor);
      ReadThrough(cfg, env, w.(place := Starting(call)));
      HistoryEnd(cfg, env, w, Tick(cfg, env, w.(place := Starting(call))));
    } else {
      Overtaken(cfg, env, w, base, cursor);
    }
  }

  /** A read result that a cancellation overtakes is lost by a crash. */
  lemma {:induction false} Overtaken(cfg: Config, env: Environment, w: World, base: nat, cursor: nat)
    requires cfg.Valid() && env.Valid() && w.log != [] && Invariant(cfg, w) && Sound(cfg, w, base, cursor) && w.place.InTool?
    requires StateOf(w).status.Cancelling? && AtCursor(StateOf(w), cursor, w.place.call) && ToolEffect(cfg.pipeline, w.place.call).Read?
    ensures !SameEnd(cfg, env, w, Restart(w))
  {
    hide Invariant, Finish, Project, WorldOk, NextAction, Tick, ToolEffect, CancellationEvent;
    RestartSound(cfg, w);
    TickWrites(cfg, env, w);
    TickEnd(cfg, env, w);
    NextCancels(cfg, w);
    CancelledInFlight(cfg, w, base, cursor);
    TickWrites(cfg, env, Restart(w));
    TickEnd(cfg, env, Restart(w));
    DifferentEnds(cfg, env, w, Restart(w), Tick(cfg, env, w), Tick(cfg, env, Restart(w)));
  }

  /** The first messages pending for the two boundaries are different ones. */
  lemma {:induction false} BoundariesDiffer(inbox: seq<InboxItem>)
    requires forall i, j | 0 <= i < j < |inbox| :: inbox[i].messageId != inbox[j].messageId
    requires PendingIds(inbox, NextStep) != [] && PendingIds(inbox, NextTurn) != []
    ensures PendingIds(inbox, NextStep)[0] != PendingIds(inbox, NextTurn)[0]
  {
    var i := PendingItem(inbox, NextStep, 0);
    var j := PendingItem(inbox, NextTurn, 0);
    assert i != j;
  }

  /** What a driver writes first when it finds a turn that has just been opened. */
  lemma {:induction false} NextInNewTurn(cfg: Config, w: World, base: nat, cursor: nat)
    requires Sound(cfg, w, base, cursor) && w.place.TurnOpened?
    ensures var a := NextAction(cfg, w.log, StateOf(w));
            a.Write? && a.batch != [] && a.batch[0] != InboxConsumed(PendingIds(StateOf(w).inbox, NextTurn)[0])
    ensures PendingIds(StateOf(w).inbox, NextTurn) != []
  {
    hide WorldOk, Project, NextAction, ToolAction, HasUncertain, PendingIds, BudgetFailure, StepsOfTurn, FindAssistant;
    PlaceHolds(cfg, w, base, cursor);
    NextIs(cfg, w.log, StateOf(w));
    ItemsDistinct(cfg, w, base, cursor);
    if PendingIds(StateOf(w).inbox, NextStep) != [] {
      BoundariesDiffer(StateOf(w).inbox);
    }
  }

  /** A crash between the start of a turn and the delivery of its messages delays the delivery. */
  lemma {:induction false} CrashInTurn(cfg: Config, env: Environment, w: World, base: nat, cursor: nat)
    requires cfg.Valid() && env.Valid() && w.log != [] && Invariant(cfg, w) && Sound(cfg, w, base, cursor) && w.place.TurnOpened?
    ensures !SameEnd(cfg, env, w, Restart(w))
  {
    hide Invariant, Finish, Project, WorldOk, NextAction, Tick, PendingIds;
    RestartSound(cfg, w);
    TickWrites(cfg, env, w);
    TickEnd(cfg, env, w);
    TickWrites(cfg, env, Restart(w));
    TickEnd(cfg, env, Restart(w));
    NextInNewTurn(cfg, w, base, cursor);
    DifferentEnds(cfg, env, w, Restart(w), Tick(cfg, env, w), Tick(cfg, env, Restart(w)));
  }

  /* ---------------------------------------------------------------- the theorems */

  /** A driver that crashes and is restarted ends with the log it would have ended with anyway, if and only if the crash
      is transparent. */
  lemma {:induction false} CrashTransparency(cfg: Config, env: Environment, w: World)
    requires cfg.Valid() && env.Valid() && Invariant(cfg, w) && w.log != [] && !w.place.Idle?
    ensures Project(w.log).Some? && Invariant(cfg, Restart(w))
    ensures Finish(cfg, env, w).log == Finish(cfg, env, Restart(w)).log <==> Transparent(cfg, env, w)
  {
    hide WorldOk, Finish, Project, Tick;
    RestartSound(cfg, w);
    var base: nat, cursor: nat :| WorldOk(cfg, w, base, cursor);
    match w.place
    case Ready =>
    case InProvider => CrashInProvider(cfg, env, w, base, cursor);
    case TurnOpened => CrashInTurn(cfg, env, w, base, cursor);
    case Rejecting(_, _) => CrashRejecting(cfg, env, w, base, cursor);
    case Starting(_) => CrashStarting(cfg, env, w, base, cursor);
    case InTool(_, _) => CrashInTool(cfg, env, w, base, cursor);
  }

  /** A driver that ticks once for each element, crashing and restarting before the ticks marked true. */
  ghost function Follow(cfg: Config, env: Environment, w: World, crashes: seq<bool>): (r: World)
    requires cfg.Valid() && env.Valid() && Invariant(cfg, w) && w.log != []
    ensures Invariant(cfg, r) && r.log != []
    decreases |crashes|
  {
    if crashes == [] || w.place.Idle? then w
    else
      RestartSound(cfg, w);
      Follow(cfg, env, Tick(cfg, env, if crashes[0] then Restart(w) else w), crashes[1..])
  }

  /** Every crash on the way is transparent. */
  ghost predicate AllTransparent(cfg: Config, env: Environment, w: World, crashes: seq<bool>)
    requires cfg.Valid() && env.Valid() && Invariant(cfg, w) && w.log != []
    decreases |crashes|
  {
    crashes == [] || w.place.Idle?
    || (RestartSound(cfg, w);
        && (crashes[0] ==> Project(w.log).Some? && Transparent(cfg, env, w))
        && AllTransparent(cfg, env, Tick(cfg, env, if crashes[0] then Restart(w) else w), crashes[1..]))
  }

  /** Any number of transparent crashes, wherever they fall, leaves the final log as the uncrashed run writes it. */
  lemma {:induction false} ManyCrashes(cfg: Config, env: Environment, w: World, crashes: seq<bool>)
    requires cfg.Valid() && env.Valid() && Invariant(cfg, w) && w.log != [] && AllTransparent(cfg, env, w, crashes)
    ensures Finish(cfg, env, Follow(cfg, env, w, crashes)).log == Finish(cfg, env, w).log
    decreases |crashes|
  {
    hide Invariant, Finish, Project, Tick, Transparent;
    if crashes != [] && !w.place.Idle? {
      RestartSound(cfg, w);
      var from := if crashes[0] then Restart(w) else w;
      if crashes[0] {
        CrashTransparency(cfg, env, w);
      }
      TickEnd(cfg, env, from);
      ManyCrashes(cfg, env, Tick(cfg, env, from), crashes[1..]);
    }
  }

  /* ---------------------------------------------------------------- the operator's two appends */

  /** The call a waiting run waits for. */
  function WaitingFor(p: RunProjection): Option<string> {
    var i := FirstUnfinished(p.tools);
    if p.status.WaitingApproval? && i < |p.tools| then Some(p.tools[i].callId) else None
  }

  lemma {:induction false} WaitingAtCursor(cfg: Config, w: World, base: nat, cursor: nat)
    requires Sound(cfg, w, base, cursor) && StateOf(w).status.WaitingApproval?
    ensures WaitOk(cfg, w.log, StateOf(w), base, cursor) && WaitingFor(StateOf(w)) == Some(StateOf(w).tools[cursor].callId)
  {
    hide WorldOk, Project, UniqueTools, RequestsOk, WaitOk, AllRequested, BudgetFailure, FindAssistant;
    WorldParts(cfg, w, base, cursor);
    UnfinishedFrom(StateOf(w).tools, 0, cursor);
    assert StateOf(w).tools[0..] == StateOf(w).tools;
    WaitHasTool(cfg, w.log, StateOf(w), base, cursor);
  }

  lemma {:induction false} WaitHasTool(cfg: Config, log: seq<Event>, p: RunProjection, base: nat, cursor: nat)
    requires base <= |p.tools| && WaitOk(cfg, log, p, base, cursor)
    ensures cursor < |p.tools|
  {
    hide AllRequested, BudgetFailure, FindAssistant;
  }

  /** What a driver does with the tool a run waited for, once a decision about some call is stored. */
  function AfterDecision(t: ToolRecord, callId: string, approved: bool): Action {
    if t.callId != callId then Write([ApprovalRequested(ApprovalOf(t.callId), t.callId)])
    else if approved then StartTool(CallOf(t))
    else Write([RunFailed(OperatorRejected(callId))])
  }

  /** What the decision means for the launch of the waiting tool. */
  lemma {:induction false} LaunchAfterDecision(cfg: Config, log: seq<Event>, t: ToolRecord, callId: string, approved: bool)
    requires FirstDecision(log, t.callId).None? && WasRequested(log, t.callId) && t.effect == ToolEffect(cfg.pipeline, CallOf(t))
    requires RunPreflight(cfg.pipeline, CallOf(t)).Proceed? && NeedsApproval(cfg.pipeline, CallOf(t))
    ensures LaunchAction(cfg, log + [ApprovalDecided(ApprovalOf(callId), approved)], CallOf(t), t.effect) == AfterDecision(t, callId, approved)
  {
    hide LaunchAction, RunPreflight, ToolEffect, WasRequested, FirstDecision, LastDecision;
    var e := ApprovalDecided(ApprovalOf(callId), approved);
    ApprovalsSnoc(log, e, t.callId);
    LaunchIs(cfg, log + [e], CallOf(t), t.effect);
  }

  /** The run goes on in its open step with the tools it had. */
  lemma {:induction false} NextWithTools(cfg: Config, w: World, base: nat, cursor: nat)
    requires Sound(cfg, w, base, cursor) && StateOf(w).status.Running? && !HasUncertain(StateOf(w))
    requires AllRequested(StateOf(w), base) && BudgetFailure(cfg.limits, StateOf(w)).None?
    requires StateOf(w).CurrentAssistant().value.stop.ToolUse?
    requires cursor < |StateOf(w).tools| && StateOf(w).tools[cursor].state.Requested?
    ensures NextAction(cfg, w.log, StateOf(w))
         == LaunchAction(cfg, w.log, CallOf(StateOf(w).tools[cursor]), StateOf(w).tools[cursor].effect)
  {
    hide WorldOk, Project, NextAction, ToolAction, HasUncertain, PendingIds, StepsOfTurn, ToolsOk, FindAssistant, FreshCalls, BudgetFailure,
         LaunchAction;
    WorldParts(cfg, w, base, cursor);
    NextIs(cfg, w.log, StateOf(w));
    NextToolAction(cfg, w.log, StateOf(w), base, cursor);
  }

  /** A waiting tool needs the approval it waits for. */
  lemma {:induction false} WaitingTool(cfg: Config, w: World, base: nat, cursor: nat)
    requires Sound(cfg, w, base, cursor) && StateOf(w).status.WaitingApproval?
    ensures base <= cursor < |StateOf(w).tools| && AllRequested(StateOf(w), base) && BudgetFailure(cfg.limits, StateOf(w)).None?
    ensures StateOf(w).CurrentAssistant().value.stop.ToolUse? && StateOf(w).tools[cursor].state.Requested?
    ensures var t := StateOf(w).tools[cursor];
            && FirstDecision(w.log, t.callId).None? && WasRequested(w.log, t.callId) && t.effect == ToolEffect(cfg.pipeline, CallOf(t))
            && RunPreflight(cfg.pipeline, CallOf(t)).Proceed? && NeedsApproval(cfg.pipeline, CallOf(t))
  {
    hide WorldOk, Project, ToolEffect, RunPreflight, NeedsApproval, FindAssistant, BudgetFailure, FirstDecision, WasRequested, AllRequested,
         StateOk, StepsOk, AssistantsOk, ToolsOk, BudgetsOk, ApprovalsOk, OutcomeOk, InboxOk, InboxNamed, EntriesOk, PlaceOk;
    WorldParts(cfg, w, base, cursor);
    WaitingAtCursor(cfg, w, base, cursor);
    EffectAtCursor(cfg, w, base, cursor);
  }

  /** A decision that names another call than the waiting one makes the driver request the same approval again. */
  lemma {:induction false} NextAfterDecision(cfg: Config, w: World, callId: string, approved: bool, base: nat, cursor: nat)
    requires Sound(cfg, w, base, cursor) && w.place.Idle? && StateOf(w).status.WaitingApproval? && WasRequested(w.log, callId)
    ensures var after := Extend(w, [ApprovalDecided(ApprovalOf(callId), approved)], Idle);
            && Sound(cfg, after, base, cursor) && cursor < |StateOf(w).tools|
            && NextAction(cfg, after.log, StateOf(after)) == AfterDecision(StateOf(w).tools[cursor], callId, approved)
  {
    hide WorldOk, Project, WasRequested, NextAction, HasUncertain, Accepts, RunPreflight, FindAssistant, ToolEffect, NeedsApproval, AllRequested,
         BudgetFailure, LaunchAction, FirstDecision, AfterDecision;
    var e := ApprovalDecided(ApprovalOf(callId), approved);
    var after := Extend(w, [e], Idle);
    WaitingTool(cfg, w, base, cursor);
    WaitingIsCertain(cfg, w, base, cursor);
    DecideWorld(cfg, w, callId, approved, base, cursor);
    ProjectSnoc(w.log, e);
    assert StateOf(after) == StateOf(w).(status := Running);
    SameRequests(cfg, StateOf(w), StateOf(after), base);
    NextWithTools(cfg, after, base, cursor);
    LaunchAfterDecision(cfg, w.log, StateOf(w).tools[cursor], callId, approved);
  }

  lemma {:induction false} SameRequests(cfg: Config, p: RunProjection, q: RunProjection, base: nat)
    requires q == p.(status := Running) && base <= |p.tools|
    ensures AllRequested(q, base) == AllRequested(p, base) && BudgetFailure(cfg.limits, q) == BudgetFailure(cfg.limits, p)
    ensures q.CurrentAssistant() == p.CurrentAssistant()
  {
    hide FreshCalls, FindAssistant, TokenCount, CallCount;
  }

  lemma {:induction false} RestingStays(cfg: Config, env: Environment, w: World)
    requires cfg.Valid() && env.Valid() && Invariant(cfg, w) && w.place.Ready?
    requires Project(w.log).Some? && (StateOf(w).status.IsTerminal() || StateOf(w).status.WaitingApproval?)
    ensures Finish(cfg, env, w).log == w.log
  {
    hide Invariant, Project, Tick, WorldRank, NextAction, Finish;
    TickWrites(cfg, env, w);
    TickEnd(cfg, env, w);
    HaltsAtRest(cfg, w.log, StateOf(w));
    IdleStays(cfg, env, Tick(cfg, env, w));
  }

  lemma {:induction false} IdleStays(cfg: Config, env: Environment, w: World)
    requires cfg.Valid() && env.Valid() && Invariant(cfg, w) && w.place.Idle?
    ensures Finish(cfg, env, w) == w
  {
    hide Invariant, Tick, WorldRank;
  }

  lemma {:induction false} HaltsAtRest(cfg: Config, log: seq<Event>, p: RunProjection)
    requires p.status.IsTerminal() || p.status.WaitingApproval?
    ensures NextAction(cfg, log, p) == Halt
  {
    hide ToolAction, HasUncertain, PendingIds, StepsOfTurn, FindAssistant, BudgetFailure;
  }

  /** An operator process that dies between storing a rejection and failing the run loses nothing if and only if the
      rejection names the call the run waits for: then the restarted driver fails the run with the same event. */
  lemma {:induction false} InterruptedRejection(cfg: Config, env: Environment, w: World, callId: string)
    requires cfg.Valid() && env.Valid() && Invariant(cfg, w) && w.log != [] && w.place.Idle?
    requires Project(w.log).Some? && StateOf(w).status.WaitingApproval? && WasRequested(w.log, callId)
    ensures Enabled(cfg, w, Settle(callId, false, true)) && Enabled(cfg, w, Settle(callId, false, false))
    ensures var cut := Perform(cfg, w, Settle(callId, false, true));
            var whole := Perform(cfg, w, Settle(callId, false, false));
            && Invariant(cfg, cut) && cut.log != [] && Invariant(cfg, Restart(cut))
            && (Finish(cfg, env, Restart(cut)).log == whole.log <==> WaitingFor(StateOf(w)) == Some(callId))
  {
    hide WorldOk, Project, WasRequested, NextAction, Finish, Tick, WaitOk;
    var base: nat, cursor: nat :| WorldOk(cfg, w, base, cursor);
    var e := ApprovalDecided(ApprovalOf(callId), false);
    var cut := Perform(cfg, w, Settle(callId, false, true));
    assert [e] + [] == [e];
    assert cut == Extend(w, [e], Idle);
    Preserved(cfg, w, Settle(callId, false, true));
    RestartSound(cfg, cut);
    WaitingAtCursor(cfg, w, base, cursor);
    NextAfterDecision(cfg, w, callId, false, base, cursor);
    RejectedEnd(cfg, env, w, cut, callId, StateOf(w).tools[cursor].callId);
  }

  lemma {:induction false} RejectedEnd(cfg: Config, env: Environment, w: World, cut: World, callId: string, waiting: string)
    requires cfg.Valid() && env.Valid() && Invariant(cfg, Restart(cut)) && cut.log == w.log + [ApprovalDecided(ApprovalOf(callId), false)]
    requires Project(cut.log).Some? && Project(w.log).Some?
    requires NextAction(cfg, cut.log, StateOf(cut))
          == Write([if waiting == callId then RunFailed(OperatorRejected(callId)) else ApprovalRequested(ApprovalOf(waiting), waiting)])
    ensures (Finish(cfg, env, Restart(cut)).log
             == w.log + ([ApprovalDecided(ApprovalOf(callId), false)] + [RunFailed(OperatorRejected(callId))]))
            <==> waiting == callId
  {
    hide Invariant, Project, NextAction, Finish, Tick;
    var start := Restart(cut);
    var whole := w.log + ([ApprovalDecided(ApprovalOf(callId), false)] + [RunFailed(OperatorRejected(callId))]);
    TickWrites(cfg, env, start);
    TickEnd(cfg, env, start);
    var next := Tick(cfg, env, start);
    assert next.log <= Finish(cfg, env, next).log;
    if waiting == callId {
      assert next.log == whole;
      InvariantProjects(cfg, next);
      ProjectSnoc(cut.log, RunFailed(OperatorRejected(callId)));
      RestingStays(cfg, env, next);
    } else {
      assert Finish(cfg, env, next).log[|cut.log|] == next.log[|cut.log|];
    }
  }

  /* ---------------------------------------------------------------- two writers */

  /** A driver that asks for the same approval again stops there, and the run waits. */
  lemma {:induction false} AskedAgain(cfg: Config, env: Environment, cut: World, waiting: string)
    requires cfg.Valid() && env.Valid() && Invariant(cfg, Restart(cut)) && cut.log != [] && Project(cut.log).Some?
    requires NextAction(cfg, cut.log, StateOf(cut)) == Write([ApprovalRequested(ApprovalOf(waiting), waiting)])
    ensures var end := Finish(cfg, env, Restart(cut));
            Project(end.log).Some? && StateOf(end).status.WaitingApproval?
  {
    hide Invariant, Project, NextAction, Finish, Tick, Accepts;
    var start := Restart(cut);
    TickWrites(cfg, env, start);
    TickEnd(cfg, env, start);
    var next := Tick(cfg, env, start);
    InvariantProjects(cfg, next);
    ProjectSnoc(cut.log, ApprovalRequested(ApprovalOf(waiting), waiting));
    RestingStays(cfg, env, next);
  }

  /** The projector accepts a failure of a waiting run. */
  lemma {:induction false} FailureAccepted(log: seq<Event>, callId: string)
    requires log != [] && Project(log).Some? && Project(log).value.status.WaitingApproval?
    ensures Project(log + [RunFailed(OperatorRejected(callId))]).Some?
  {
    hide Project;
    ProjectSnoc(log, RunFailed(OperatorRejected(callId)));
  }

  lemma {:induction false} FailedTwice(log: seq<Event>, callId: string)
    requires Project(log + [RunFailed(OperatorRejected(callId))]).Some?
    ensures Project((log + [RunFailed(OperatorRejected(callId))]) + [RunFailed(OperatorRejected(callId))]).None?
  {
    hide Project;
    var e := RunFailed(OperatorRejected(callId));
    ProjectSnoc(log, e);
    ProjectSnoc(log + [e], e);
  }

  /** Two processes on one run: an operator stores a rejection, and a driver is started before the operator's second append.
      The operator's own `run.failed` then makes the log one that no projector accepts if and only if the rejection names
      the call the run waits for: then the driver has failed the run already; otherwise it has asked again and waits. */
  lemma {:induction false} RejectionRace(cfg: Config, env: Environment, w: World, callId: string)
    requires cfg.Valid() && env.Valid() && Invariant(cfg, w) && w.log != [] && w.place.Idle?
    requires Project(w.log).Some? && StateOf(w).status.WaitingApproval? && WasRequested(w.log, callId)
    ensures Enabled(cfg, w, Settle(callId, false, true))
    ensures var cut := Perform(cfg, w, Settle(callId, false, true));
            && Invariant(cfg, Restart(cut))
            && (Project(Finish(cfg, env, Restart(cut)).log + [RunFailed(OperatorRejected(callId))]).None?
                <==> WaitingFor(StateOf(w)) == Some(callId))
  {
    hide WorldOk, Project, WasRequested, Finish, Invariant, NextAction, WaitOk, Perform, Enabled;
    InterruptedRejection(cfg, env, w, callId);
    var cut := Perform(cfg, w, Settle(callId, false, true));
    CutShape(cfg, w, callId);
    var end := Finish(cfg, env, Restart(cut));
    if WaitingFor(StateOf(w)) == Some(callId) {
      assert end.log == cut.log + [RunFailed(OperatorRejected(callId))];
      InvariantProjects(cfg, end);
      FailedTwice(cut.log, callId);
    } else {
      var base, cursor := RunWitness(cfg, w);
      WaitingAtCursor(cfg, w, base, cursor);
      NextAfterDecision(cfg, w, callId, false, base, cursor);
      AskedAgain(cfg, env, cut, StateOf(w).tools[cursor].callId);
      FailureAccepted(end.log, callId);
    }
  }

  lemma {:induction false} CutShape(cfg: Config, w: World, callId: string)
    requires Enabled(cfg, w, Settle(callId, false, true)) && Enabled(cfg, w, Settle(callId, false, false)) && w.place.Idle?
    ensures var e := ApprovalDecided(ApprovalOf(callId), false);
            var cut := Perform(cfg, w, Settle(callId, false, true));
            && cut == Extend(w, [e], Idle) && cut.log != []
            && Perform(cfg, w, Settle(callId, false, false)).log == cut.log + [RunFailed(OperatorRejected(callId))]
  {
    hide Project, WasRequested;
    var e := ApprovalDecided(ApprovalOf(callId), false);
    assert [e] + [] == [e];
    assert w.log + ([e] + [RunFailed(OperatorRejected(callId))]) == (w.log + [e]) + [RunFailed(OperatorRejected(callId))];
  }

  lemma {:induction false} RunWitness(cfg: Config, w: World) returns (base: nat, cursor: nat)
    requires Invariant(cfg, w) && w.log != []
    ensures Sound(cfg, w, base, cursor)
  {
    hide WorldOk, Project;
    base, cursor :| WorldOk(cfg, w, base, cursor);
  }
}
