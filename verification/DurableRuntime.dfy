/** The durable runtime as it is written: methods that append to the event store and read it back. Its ghost history is a
    run of the transition system, so everything proved of runs holds of it. */
module DurableRuntime {
  import opened Events
  import opened Projection
  import opened ToolPipeline
  import opened Runtime
  import opened RuntimeInvariant
  import opened DriverLemmas
  import opened InvariantSteps
  import opened RuntimeSafety
  import opened RuntimeRuns
  import opened RuntimeTheorems
  import opened Termination
  import opened Recovery
  import opened EventStore
  import opened RunProjector

  /* ---------------------------------------------------------------- fresh event ids */

  function Zeros(n: nat): (r: string)
    ensures |r| == n
  {
    if n == 0 then "" else Zeros(n - 1) + "0"
  }

  function LongestId(rows: seq<RunEvent>): nat {
    if rows == [] then 0
    else
      var rest := LongestId(rows[..|rows| - 1]);
      if |rows[|rows| - 1].eventId| > rest then |rows[|rows| - 1].eventId| else rest
  }

  /** New events with ids that are longer than any in the table, in place of random ones. */
  function Named(events: seq<Event>, longest: nat): (r: seq<NewRunEvent>)
    ensures |r| == |events|
  {
    if events == [] then []
    else
      var n := |events| - 1;
      Named(events[..n], longest) + [NewRunEvent(Zeros(longest + n + 1), events[n], CURRENT_SCHEMA_VERSION)]
  }

  lemma {:induction false} NamedAt(events: seq<Event>, longest: nat, i: nat)
    requires i < |events|
    ensures Named(events, longest)[i] == NewRunEvent(Zeros(longest + i + 1), events[i], CURRENT_SCHEMA_VERSION)
  {
    if i < |events| - 1 {
      NamedAt(events[..|events| - 1], longest, i);
    }
  }

  lemma {:induction false} LongestBounds(rows: seq<RunEvent>)
    ensures forall i | 0 <= i < |rows| :: |rows[i].eventId| <= LongestId(rows)
  {
    if rows != [] {
      LongestBounds(rows[..|rows| - 1]);
    }
  }

  lemma {:induction false} ZerosAreText(n: nat)
    ensures forall i | 0 <= i < n :: Zeros(n)[i] == '0'
  {
    if n > 0 {
      ZerosAreText(n - 1);
    }
  }

  lemma {:induction false} NamedFacts(events: seq<Event>, longest: nat, i: nat)
    requires i < |events|
    ensures |Named(events, longest)[i].eventId| == longest + i + 1 && Named(events, longest)[i].Valid()
  {
    NamedAt(events, longest, i);
    ZerosAreText(longest + i + 1);
    assert Named(events, longest)[i].eventId[0] == '0';
  }

  lemma {:induction false} NamedInsertable(rows: seq<RunEvent>, events: seq<Event>)
    ensures Insertable(rows, Named(events, LongestId(rows)))
    ensures forall i | 0 <= i < |events| :: Named(events, LongestId(rows))[i].Valid()
  {
    hide Named, LongestId, Blank, Zeros;
    LongestBounds(rows);
    var named := Named(events, LongestId(rows));
    forall i | 0 <= i < |events|
      ensures |named[i].eventId| == LongestId(rows) + i + 1 && named[i].Valid()
    {
      NamedFacts(events, LongestId(rows), i);
    }
  }

  lemma {:induction false} NumberedEvents(runId: string, events: seq<Event>, longest: nat, stored: nat)
    ensures EventsOf(Numbered(runId, Named(events, longest), stored)) == events
    ensures forall i | 0 <= i < |events| :: Numbered(runId, Named(events, longest), stored)[i].schemaVersion == CURRENT_SCHEMA_VERSION
  {
    var rows := Numbered(runId, Named(events, longest), stored);
    forall i | 0 <= i < |events|
      ensures EventsOf(rows)[i] == events[i] && rows[i].schemaVersion == CURRENT_SCHEMA_VERSION
    {
      EventsAt(rows, i);
      NumberedAt(runId, Named(events, longest), stored, i);
      NamedAt(events, longest, i);
    }
  }

  lemma {:induction false} EventsConcat(a: seq<RunEvent>, b: seq<RunEvent>)
    ensures EventsOf(a + b) == EventsOf(a) + EventsOf(b)
  {
    if b == [] {
      assert a + b == a;
    } else {
      EventsConcat(a, b[..|b| - 1]);
      EventsSnoc(a + b[..|b| - 1], b[|b| - 1]);
      assert a + b == (a + b[..|b| - 1]) + [b[|b| - 1]];
    }
  }

  /* ---------------------------------------------------------------- what happens while the driver is suspended */

  /** What other actors do to the run in the meantime. */
  datatype Interruption = CancelRequested | MessageSubmitted(id: string, kind: InboxKind, target: InboxTarget, role: Role, content: string)

  /** How a call out of the runtime comes back, if it does. */
  datatype Reply<T> = Returns(value: T) | Raises(message: string) | TimesOut | Dies

  datatype Moment<T> = Moment(meanwhile: seq<Interruption>, reply: Reply<T>)

  /* ---------------------------------------------------------------- labels lower the rank */

  predicate IsDriverLabel(l: Label) {
    l.Act? || l.SecondHalf? || l.Respond? || l.ProviderRaises? || l.Observe? || l.ToolRaises? || l.TimeOut?
  }

  lemma {:induction false} AbortLowers(cfg: Config, w: World, e: Event, base: nat, cursor: nat)
    requires cfg.Valid() && w.log != [] && Sound(cfg, w, base, cursor) && (w.place.InProvider? || w.place.InTool?)
    requires Invariant(cfg, Extend(w, [e], Ready)) && IsDriverEvent(e) && !e.TurnStarted? && !e.AssistantMessage?
    ensures Less(WorldRank(cfg, Extend(w, [e], Ready)), WorldRank(cfg, w))
  {
    hide WorldOk, Project, Invariant, RankOf, Less, FindAssistant;
    SoundInvariant(cfg, w, base, cursor);
    PlaceHolds(cfg, w, base, cursor);
    AppendLowers(cfg, w, e, Ready);
  }

  lemma {:induction false} DriverLowers(cfg: Config, w: World, l: Label)
    requires cfg.Valid() && Invariant(cfg, w) && w.log != [] && Enabled(cfg, w, l) && IsDriverLabel(l)
    ensures Less(WorldRank(cfg, Perform(cfg, w, l)), WorldRank(cfg, w))
  {
    hide WorldOk, Project, Less, WorldRank, NextAction, OutcomeEvent, AbortEvent, ExceptionEvent, FinishAction;
    var base: nat, cursor: nat :| WorldOk(cfg, w, base, cursor);
    Preserved(cfg, w, l);
    match l
    case Act => ActLowers(cfg, w, base, cursor);
    case SecondHalf => SecondHalfLowers(cfg, w, base, cursor);
    case Respond(r) => RespondLowers(cfg, w, r, base, cursor);
    case Observe(o) => ObserveLowers(cfg, w, o, base, cursor);
    case ProviderRaises(message) => RaiseLowers(cfg, w, message, base, cursor);
    case TimeOut =>
      AbortIsDriverEvent(StateOf(w), RunTimeout);
      AbortLowers(cfg, w, AbortEvent(StateOf(w), RunTimeout), base, cursor);
    case ToolRaises(message) =>
      ExceptionIsDriverEvent(ToolEffect(cfg.pipeline, w.place.call), w.place.call.id, message);
      AbortLowers(cfg, w, ExceptionEvent(ToolEffect(cfg.pipeline, w.place.call), w.place.call.id, message), base, cursor);
    case _ =>
  }

  lemma {:induction false} AbortIsDriverEvent(p: RunProjection, reason: Reason)
    ensures IsDriverEvent(AbortEvent(p, reason)) && !AbortEvent(p, reason).TurnStarted? && !AbortEvent(p, reason).AssistantMessage?
  {
    hide HasUncertain;
  }

  lemma {:induction false} ExceptionIsDriverEvent(effect: Effect, id: string, message: string)
    ensures IsDriverEvent(ExceptionEvent(effect, id, message)) && !ExceptionEvent(effect, id, message).TurnStarted?
    ensures !ExceptionEvent(effect, id, message).AssistantMessage?
  {
  }

  lemma {:induction false} LessTransitive(a: Rank, b: Rank, c: Rank)
    requires Less(a, b) && (Less(b, c) || b == c)
    ensures Less(a, c)
  {
  }

  /** A cancellation or submission during a step leaves the rank as it is. */
  lemma {:induction false} MeanwhileRank(cfg: Config, w: World, l: Label)
    requires cfg.Valid() && Invariant(cfg, w) && w.log != [] && Enabled(cfg, w, l) && (l.Cancel? || l.Submit?)
    requires w.place.InProvider? || w.place.InTool?
    ensures WorldRank(cfg, Perform(cfg, w, l)) == WorldRank(cfg, w)
    ensures Perform(cfg, w, l).place == w.place
  {
    hide WorldOk, Project, NextAction, FindAssistant, PendingIds, Work, Lawful, Accepts, Blank, IndexOfItem;
    var base: nat, cursor: nat :| WorldOk(cfg, w, base, cursor);
    Preserved(cfg, w, l);
    var e := if l.Cancel? then RunCancelling else InboxSubmitted(l.messageId, l.kind, l.target, l.role, l.content);
    AppendedEvent(cfg, w, e, w.place);
    InStep(cfg, w, base, cursor);
  }

  lemma {:induction false} InStep(cfg: Config, w: World, base: nat, cursor: nat)
    requires Sound(cfg, w, base, cursor) && (w.place.InProvider? || w.place.InTool?)
    ensures StateOf(w).HasOpenStep() && (StateOf(w).status.Running? || StateOf(w).status.Cancelling?)
  {
    hide WorldOk, Project, RequestsOk, UniqueTools, AllRequested, FindAssistant, RunPreflight, ToolEffect;
    WorldParts(cfg, w, base, cursor);
  }

  lemma {:induction false} ActIs(cfg: Config, w: World)
    requires Project(w.log).Some? && w.place.Ready?
    ensures Enabled(cfg, w, Act) && Perform(cfg, w, Act) == PerformAction(w, NextAction(cfg, w.log, StateOf(w)))
  {
    hide Project, NextAction;
  }

  /** The invariant of a started run, for the runtime's methods. */
  lemma {:induction false} SoundFacts(cfg: Config, w: World)
    requires Invariant(cfg, w) && w.log != []
    ensures Project(w.log).Some? && !StateOf(w).status.Created?
  {
    hide WorldOk, Project;
    var base: nat, cursor: nat :| WorldOk(cfg, w, base, cursor);
    NotCreated(cfg, w, base, cursor);
  }

  /** The rank has gone down. */
  predicate Down(cfg: Config, before: World, after: World) {
    Less(WorldRank(cfg, after), WorldRank(cfg, before))
  }

  lemma {:induction false} DecisionStays(log: seq<Event>, i: nat, callId: string)
    requires i <= |log| && FirstDecision(log[..i], callId).Some?
    ensures FirstDecision(log, callId) == FirstDecision(log[..i], callId)
  {
    if i < |log| {
      assert log[..|log| - 1][..i] == log[..i];
      DecisionStays(log[..|log| - 1], i, callId);
    } else {
      assert log[..i] == log;
    }
  }

  /* ---------------------------------------------------------------- the runtime */

  class EventDrivenAgentRuntime {
    const cfg: Config
    const runId: string
    const store: SQLiteEventStore
    /** What will happen at the next suspension points. */
    var providerMoments: seq<Moment<Response>>
    var toolMoments: seq<Moment<Observation>>
    ghost var history: seq<Label>
    ghost var w: World

    /** A new process over a store. What the store holds of the run, if anything, was written by earlier processes: `past` is
        the run they made, and this process finds it wherever the last of them died. */
    constructor (cfg: Config, runId: string, store: SQLiteEventStore, providerMoments: seq<Moment<Response>>, toolMoments: seq<Moment<Observation>>,
                 ghost past: seq<Label>)
      requires cfg.Valid() && !Blank(runId) && store.Valid()
      requires Execute(cfg, past).Some? && After(cfg, past).log == EventsOf(Stream(store.rows, runId))
      requires forall i | 0 <= i < |store.rows| :: store.rows[i].schemaVersion <= CURRENT_SCHEMA_VERSION
      ensures Valid() && w == After(cfg, past).(place := Idle) && history == past + [Crash]
      ensures this.cfg == cfg && this.runId == runId && this.store == store
    {
      hide Execute;
      Killed(cfg, past);
      this.cfg := cfg;
      this.runId := runId;
      this.store := store;
      this.providerMoments := providerMoments;
      this.toolMoments := toolMoments;
      history := past + [Crash];
      w := After(cfg, past).(place := Idle);
    }

    /** The run's stream in the store. */
    ghost function Log(): seq<Event>
      reads this, store
    {
      EventsOf(Stream(store.rows, runId))
    }

    /** The history is a run that leads to a world with the stored log. */
    ghost predicate Valid()
      reads this, store
    {
      && cfg.Valid() && !Blank(runId) && store.Valid()
      && (forall i | 0 <= i < |store.rows| :: store.rows[i].schemaVersion <= CURRENT_SCHEMA_VERSION)
      && Execute(cfg, history) == Some(w) && w.log == Log()
    }

    lemma {:induction false} Reached()
      requires Valid()
      ensures Invariant(cfg, w)
      ensures w.log != [] ==> Project(w.log).Some? && !StateOf(w).status.Created?
    {
      hide Invariant, ExecuteFrom, Project;
      RunsAreGood(cfg, history);
      if w.log != [] {
        SoundFacts(cfg, w);
      }
    }

    /** What holds of every run holds of this runtime, whichever of its methods have been called and wherever its processes
        have died: no mutating handler is entered twice, a finished run is uncertain exactly when a mutation is still
        started, and the budgets hold. */
    lemma {:induction false} Safe()
      requires Valid() && Project(w.log).Some?
      ensures forall i, j | 0 <= i < j < |w.entered| && w.entered[i] == w.entered[j] ::
                IndexOfTool(StateOf(w).tools, w.entered[i]) < |StateOf(w).tools|
                && StateOf(w).tools[IndexOfTool(StateOf(w).tools, w.entered[i])].effect.Read?
      ensures StateOf(w).status.IsTerminal() ==>
                (StateOf(w).status.FailedUncertain?
                 <==> exists i | 0 <= i < |StateOf(w).tools| :: StateOf(w).tools[i].state.Started? && StateOf(w).tools[i].effect.Mutate?)
      ensures CountSteps(w.log) <= cfg.limits.maxSteps && CountRequests(w.log) <= cfg.limits.maxToolCalls
    {
      hide Execute, Project, CountSteps, CountRequests;
      forall i, j | 0 <= i < j < |w.entered| && w.entered[i] == w.entered[j]
        ensures IndexOfTool(StateOf(w).tools, w.entered[i]) < |StateOf(w).tools|
                && StateOf(w).tools[IndexOfTool(StateOf(w).tools, w.entered[i])].effect.Read?
      {
        MutationsEnteredOnce(cfg, history, i, j);
      }
      if StateOf(w).status.IsTerminal() {
        OutcomesAreKnown(cfg, history);
      }
      BudgetsHold(cfg, history);
    }

    /** `project`: the stored events are replayed and folded. */
    method ProjectNow() returns (p: RunProjection)
      requires Valid() && w.log != []
      ensures Project(w.log) == Some(p)
    {
      hide Execute, Project;
      Reached();
      var replayed := store.Replay(runId, 0);
      assert Stream(store.rows, runId)[0..] == Stream(store.rows, runId);
      ReplayedStreamProjects(store.rows, runId);
      var projected := ProjectRun(runId, replayed.value);
      p := projected.value;
    }

    /** One store transaction, which the label accounts for. */
    method Store(events: seq<Event>, ghost l: Label)
      requires Valid() && Enabled(cfg, w, l) && Perform(cfg, w, l).log == w.log + events
      modifies this`history, this`w, store
      ensures Valid() && w == Perform(cfg, old(w), l) && history == old(history) + [l]
    {
      hide ExecuteFrom, Enabled, Perform, Project, Named, Numbered, Insertable;
      var named := Named(events, LongestId(store.rows));
      NamedInsertable(store.rows, events);
      ghost var rows, longest := store.rows, LongestId(store.rows);
      var stored := store.AppendBatch(runId, named);
      StreamAfterBatch(rows, runId, named, |Stream(rows, runId)|, runId);
      EventsConcat(Stream(rows, runId), Numbered(runId, named, |Stream(rows, runId)|));
      NumberedEvents(runId, events, longest, |Stream(rows, runId)|);
      ExecuteFromSnoc(cfg, EMPTY_WORLD, history, l);
      history := history + [l];
      w := Perform(cfg, w, l);
    }

    /** A label that stores nothing. */
    ghost method Move(l: Label)
      requires Valid() && Enabled(cfg, w, l) && Perform(cfg, w, l).log == w.log
      modifies this`history, this`w
      ensures Valid() && w == Perform(cfg, old(w), l) && history == old(history) + [l]
    {
      hide ExecuteFrom, Enabled, Perform, Project;
      ExecuteFromSnoc(cfg, EMPTY_WORLD, history, l);
      history := history + [l];
      w := Perform(cfg, w, l);
    }

    /** `_append`: the stream is validated before and after. */
    method Append(e: Event, ghost l: Label)
      requires Valid() && w.log != [] && Enabled(cfg, w, l) && Perform(cfg, w, l).log == w.log + [e]
      modifies this`history, this`w, store
      ensures Valid() && w == Perform(cfg, old(w), l) && history == old(history) + [l]
      ensures Project(w.log) == Some(Advance(StateOf(old(w)), e)) && Accepts(StateOf(old(w)), false, e)
    {
      hide ExecuteFrom, Enabled, Perform, Project, Accepts, Advance, Execute;
      var before := ProjectNow();
      ghost var log := w.log;
      Store([e], l);
      Reached();
      AcceptedLast(log, e);
      assert !before.status.IsTerminal();
      var after := ProjectNow();
    }

    /* ------------------------------------------------------------ one driver event */

    /** A driver event; the rank goes down. */
    method Record(e: Event, ghost l: Label)
      requires Valid() && w.log != [] && Enabled(cfg, w, l) && IsDriverLabel(l) && Perform(cfg, w, l).log == w.log + [e]
      modifies this`history, this`w, store
      ensures Valid() && w == Perform(cfg, old(w), l) && history == old(history) + [l]
      ensures Project(w.log) == Some(Advance(StateOf(old(w)), e)) && Accepts(StateOf(old(w)), false, e)
      ensures Down(cfg, old(w), w)
    {
      hide Execute, Enabled, Perform, Project, Accepts, Advance, Less, WorldRank, IsDriverLabel, Invariant;
      Reached();
      DriverLowers(cfg, w, l);
      Append(e, l);
    }

    /** A driver move that stores nothing; the rank goes down. */
    ghost method Step(l: Label)
      requires Valid() && w.log != [] && Enabled(cfg, w, l) && IsDriverLabel(l) && Perform(cfg, w, l).log == w.log
      modifies this`history, this`w
      ensures Valid() && w == Perform(cfg, old(w), l) && history == old(history) + [l] && Down(cfg, old(w), w)
    {
      hide Execute, Enabled, Perform, Project, Less, WorldRank, IsDriverLabel, Invariant;
      Reached();
      DriverLowers(cfg, w, l);
      Move(l);
    }

    /** The event that the log calls for. */
    method WriteNext(e: Event)
      requires Valid() && w.log != [] && w.place.Ready? && Project(w.log).Some? && NextAction(cfg, w.log, StateOf(w)) == Write([e])
      modifies this`history, this`w, store
      ensures Valid() && w == Extend(old(w), [e], Ready) && history == old(history) + [Act]
      ensures Project(w.log) == Some(Advance(StateOf(old(w)), e)) && Accepts(StateOf(old(w)), false, e)
      ensures Down(cfg, old(w), w)
    {
      hide Execute, Enabled, Project, Accepts, Advance, Less, WorldRank, NextAction, Invariant, Down;
      ActIs(cfg, w);
      Record(e, Act);
    }

    /** The driver stops. */
    ghost method Rest()
      requires Valid() && w.log != [] && w.place.Ready? && Project(w.log).Some?
      requires StateOf(w).status.IsTerminal() || StateOf(w).status.WaitingApproval?
      modifies this`history, this`w
      ensures Valid() && w == old(w).(place := Idle) && history == old(history) + [Act]
    {
      hide Execute, Enabled, Project, Less, WorldRank, Invariant, NextAction, Down, HasUncertain, BudgetFailure, ToolAction, PendingIds, FindAssistant,
           StepsOfTurn;
      ActIs(cfg, w);
      NextIs(cfg, w.log, StateOf(w));
      Move(Act);
    }

    /* ------------------------------------------------------------ reading */

    /** `_uncertain_mutation`. */
    method UncertainMutationOf(p: RunProjection) returns (r: Option<ToolRecord>)
      ensures r.Some? <==> HasUncertain(p)
      ensures r.Some? ==> r.value == p.tools[UncertainIndex(p.tools)]
    {
      var i := 0;
      while i < |p.tools|
        invariant 0 <= i <= |p.tools| && forall k | 0 <= k < i :: !IsUncertain(p.tools[k])
      {
        if p.tools[i].state.Started? && p.tools[i].effect.Mutate? {
          UncertainIndexFirst(p.tools);
          return Some(p.tools[i]);
        }
        i := i + 1;
      }
      UncertainIndexFirst(p.tools);
      return None;
    }

    /** `_budget_failure`. */
    method BudgetFailureOf(p: RunProjection) returns (r: Option<Reason>)
      ensures r == BudgetFailure(cfg.limits, p)
    {
      var tokens, calls, i := 0, 0, 0;
      while i < |p.assistants|
        invariant 0 <= i <= |p.assistants|
        invariant tokens == TokenCount(p.assistants[..i]) && calls == CallCount(p.assistants[..i])
      {
        assert p.assistants[..i + 1][..i] == p.assistants[..i];
        tokens := tokens + OrZero(p.assistants[i].inputTokens) + OrZero(p.assistants[i].outputTokens);
        calls := calls + |p.assistants[i].toolCalls|;
        i := i + 1;
      }
      assert p.assistants[..i] == p.assistants;
      if tokens > cfg.limits.maxTokens {
        return Some(TokenBudget(tokens, cfg.limits.maxTokens));
      }
      if calls > cfg.limits.maxToolCalls {
        return Some(ToolCallBudget(calls, cfg.limits.maxToolCalls));
      }
      return None;
    }

    /** `_durable_approval`: the first decision after the request. */
    method DurableApproval(callId: string) returns (r: Option<bool>)
      requires Valid()
      ensures r == FirstDecision(w.log, callId)
    {
      hide Execute, FirstDecision, LastDecision, WasRequested;
      NothingAskedYet(callId);
      var replayed := store.Replay(runId, 0);
      assert Stream(store.rows, runId)[0..] == Stream(store.rows, runId);
      var events := replayed.value;
      var requested, i := false, 0;
      while i < |events|
        invariant 0 <= i <= |events| && EventsOf(events) == w.log
        invariant requested == WasRequested(w.log[..i], callId) && FirstDecision(w.log[..i], callId).None?
      {
        var e := events[i].event;
        EventsAt(events, i);
        assert w.log[..i + 1] == w.log[..i] + [e];
        ApprovalsSnoc(w.log[..i], e, callId);
        if e.ApprovalRequested? && e.requestId == ApprovalOf(callId) && e.callId == callId {
          requested := true;
        } else if requested && e.ApprovalDecided? && e.requestId == ApprovalOf(callId) {
          DecisionStays(w.log, i + 1, callId);
          return Some(e.approved);
        }
        i := i + 1;
      }
      assert w.log[..i] == w.log;
      return None;
    }

    /** `DurableApprovalProvider.request_approval`: the last decision, if the call was requested. */
    method RequestApproval(call: ToolCall) returns (r: Approval)
      requires Valid() && w.log != []
      ensures Project(w.log).Some? && r == LookUpApproval(w.log, StateOf(w), call)
    {
      hide Execute, Project, FirstDecision, LastDecision, WasRequested;
      NothingAskedYet(call.id);
      var p := ProjectNow();
      var at := IndexOfTool(p.tools, call.id);
      if at == |p.tools| || p.tools[at].name != call.name || p.tools[at].arguments != call.arguments {
        IndexOfToolFirst(p.tools, call.id);
        return NotRequested;
      }
      IndexOfToolFirst(p.tools, call.id);
      var replayed := store.Replay(runId, 0);
      assert Stream(store.rows, runId)[0..] == Stream(store.rows, runId);
      var events := replayed.value;
      var requested := false;
      var decision: Option<bool> := None;
      var i := 0;
      while i < |events|
        invariant 0 <= i <= |events| && EventsOf(events) == w.log
        invariant requested == WasRequested(w.log[..i], call.id) && decision == LastDecision(w.log[..i], call.id)
      {
        var e := events[i].event;
        EventsAt(events, i);
        assert w.log[..i + 1] == w.log[..i] + [e];
        ApprovalsSnoc(w.log[..i], e, call.id);
        if e.ApprovalRequested? && e.requestId == ApprovalOf(call.id) && e.callId == call.id {
          requested := true;
        } else if e.ApprovalDecided? && e.requestId == ApprovalOf(call.id) {
          decision := Some(e.approved);
        }
        i := i + 1;
      }
      assert w.log[..i] == w.log;
      if !requested {
        return NotRequested;
      }
      return if decision.None? then Undecided else Decided(decision.value);
    }

    /* ------------------------------------------------------------ endings */

    /** `_fail_uncertain`. */
    method FailUncertain(callId: string, ghost l: Label)
      requires Valid() && w.log != [] && Project(w.log).Some? && Enabled(cfg, w, l) && IsDriverLabel(l)
      requires Perform(cfg, w, l) == Extend(w, [RunFailedUncertain(UncertainMutation(callId))], Ready)
      modifies this`history, this`w, store
      ensures Finished(old(w), old(history))
      ensures w == Extend(old(w), [RunFailedUncertain(UncertainMutation(callId))], Ready) && history == old(history) + [l]
    {
      hide Execute, Enabled, Perform, Project, Accepts, WorldRank, Less, Invariant;
      Record(RunFailedUncertain(UncertainMutation(callId)), l);
    }

    /** `_finish_cancellation`. */
    method FinishCancellation(p: RunProjection, ghost l: Label)
      requires Valid() && w.log != [] && Project(w.log) == Some(p) && Enabled(cfg, w, l) && IsDriverLabel(l)
      requires Perform(cfg, w, l) == Extend(w, [CancellationEvent(p)], Ready)
      modifies this`history, this`w, store
      ensures Finished(old(w), old(history))
      ensures w == Extend(old(w), [CancellationEvent(p)], Ready) && history == old(history) + [l]
    {
      hide Execute, Enabled, Perform, Project, Accepts, WorldRank, Less, Invariant, HasUncertain;
      var uncertain := UncertainMutationOf(p);
      if uncertain.Some? {
        FailUncertain(uncertain.value.callId, l);
      } else {
        Record(RunCancelled, l);
      }
    }

    /** `_fail`. */
    method Fail(reason: Reason, ghost l: Label)
      requires Valid() && w.log != [] && Project(w.log).Some? && Enabled(cfg, w, l) && IsDriverLabel(l)
      requires Perform(cfg, w, l) == Extend(w, [FailEvent(StateOf(w), reason)], Ready)
      modifies this`history, this`w, store
      ensures Finished(old(w), old(history))
      ensures w == Extend(old(w), [FailEvent(StateOf(old(w)), reason)], Ready) && history == old(history) + [l]
    {
      hide Execute, Enabled, Perform, Project, Accepts, WorldRank, Less, Invariant, CancellationEvent, Finished;
      var p := ProjectNow();
      if p.status.Cancelling? {
        FinishCancellation(p, l);
      } else {
        FailNow(reason, l);
      }
    }

    method FailNow(reason: Reason, ghost l: Label)
      requires Valid() && w.log != [] && Project(w.log).Some? && Enabled(cfg, w, l) && IsDriverLabel(l)
      requires Perform(cfg, w, l) == Extend(w, [RunFailed(reason)], Ready)
      modifies this`history, this`w, store
      ensures Finished(old(w), old(history))
      ensures w == Extend(old(w), [RunFailed(reason)], Ready) && history == old(history) + [l]
    {
      hide Execute, Enabled, Perform, Project, Accepts, WorldRank, Less, Invariant;
      Record(RunFailed(reason), l);
    }

    /** The handlers of the drive loop's try block. */
    method Abort(reason: Reason, ghost l: Label)
      requires Valid() && w.log != [] && Project(w.log).Some? && Enabled(cfg, w, l) && IsDriverLabel(l)
      requires Perform(cfg, w, l) == Extend(w, [AbortEvent(StateOf(w), reason)], Ready)
      modifies this`history, this`w, store
      ensures Finished(old(w), old(history))
      ensures w == Extend(old(w), [AbortEvent(StateOf(old(w)), reason)], Ready) && history == old(history) + [l]
    {
      hide Execute, Enabled, Perform, Project, WorldRank, Less, Invariant, FailEvent, HasUncertain, Finished;
      var p := ProjectNow();
      var uncertain := UncertainMutationOf(p);
      if uncertain.Some? {
        FailUncertain(uncertain.value.callId, l);
      } else {
        Fail(reason, l);
      }
    }

    /** One label has ended the run; the driver is about to notice. */
    ghost predicate Finished(before: World, labels: seq<Label>)
      reads this, store
    {
      && Valid() && w.place.Ready? && w.log != [] && Project(w.log).Some? && StateOf(w).status.IsTerminal()
      && |history| == |labels| + 1 && labels <= history && before.log <= w.log && Down(cfg, before, w)
    }

    /* ------------------------------------------------------------ other actors */

    /** `cancel`. */
    method Cancel() returns (ok: bool)
      requires Valid() && Suspended(w.place)
      modifies this`history, this`w, store
      ensures Valid() && (ok <==> old(w).log != [])
      ensures if old(w).log != [] && Project(old(w).log).Some?
                 && (StateOf(old(w)).status.Running? || StateOf(old(w)).status.WaitingApproval?)
              then history == old(history) + [Label.Cancel] && w == Extend(old(w), [RunCancelling], old(w).place)
              else history == old(history) && w == old(w)
    {
      hide Execute, Project, Invariant, Accepts, Advance;
      Reached();
      var empty := IsEmpty();
      if empty {
        return false;
      }
      var p := ProjectNow();
      if !p.status.IsTerminal() && !p.status.Cancelling? {
        Append(RunCancelling, Label.Cancel);
        p := ProjectNow();
      }
      return true;
    }

    method IsEmpty() returns (empty: bool)
      requires Valid()
      ensures empty <==> w.log == []
    {
      hide Execute;
      var replayed := store.Replay(runId, 0);
      assert Stream(store.rows, runId)[0..] == Stream(store.rows, runId);
      empty := replayed.value == [];
    }

    /** `DurableRunInbox.submit`. It does not look whether the message id is new; a used one makes the log one that no
        projector accepts. */
    method Submit(id: string, kind: InboxKind, target: InboxTarget, role: Role, content: string) returns (ok: bool)
      requires Valid() && Suspended(w.place)
      modifies this`history, this`w, store
      ensures Project(old(w).log).Some?
      ensures ok <==> StateOf(old(w)).status.Running? && !Blank(content) && !BlankRole(role) && !Blank(id)
      ensures !ok ==> Valid() && history == old(history) && w == old(w)
      ensures ok && NewItem(StateOf(old(w)), id) ==>
                && Valid() && history == old(history) + [Label.Submit(id, kind, target, role, content)]
                && w == Extend(old(w), [InboxSubmitted(id, kind, target, role, content)], old(w).place)
      ensures ok && !NewItem(StateOf(old(w)), id) ==>
                Log() == old(Log()) + [InboxSubmitted(id, kind, target, role, content)] && Project(Log()).None?
    {
      hide ExecuteFrom, Project, Invariant, IndexOfItem, Blank;
      Reached();
      EmptyLogProjects();
      if Blank(content) || BlankRole(role) || Blank(id) {
        return false;
      }
      var empty := IsEmpty();
      if empty {
        return false;
      }
      var p := ProjectNow();
      if !p.status.Running? {
        return false;
      }
      AppendOne(InboxSubmitted(id, kind, target, role, content));
      ghost var l := Label.Submit(id, kind, target, role, content);
      if NewItem(p, id) {
        ExecuteFromSnoc(cfg, EMPTY_WORLD, history, l);
        history := history + [l];
        w := Perform(cfg, w, l);
      } else {
        UsedIdRejected(w.log, InboxSubmitted(id, kind, target, role, content));
      }
      return true;
    }

    /** `decide_durable_approval`; the process may die between its two appends. */
    method Decide(callId: string, approved: bool, dies: bool) returns (ok: bool)
      requires Valid() && Suspended(w.place)
      modifies this`history, this`w, store
      ensures Valid()
      ensures ok <==> old(w).log != [] && Project(old(w).log).Some? && StateOf(old(w)).status.WaitingApproval?
                      && WasRequested(old(w).log, callId)
      ensures if ok then history == old(history) + [Settle(callId, approved, !approved && dies)]
                         && w == Extend(old(w), [ApprovalDecided(ApprovalOf(callId), approved)]
                                                + (if approved || dies then [] else [RunFailed(OperatorRejected(callId))]), Idle)
              else history == old(history) && w == old(w)
    {
      hide Execute, Project, Invariant;
      Reached();
      var empty := IsEmpty();
      if empty {
        return false;
      }
      var p := ProjectNow();
      if !p.status.WaitingApproval? {
        return false;
      }
      WaitingIsIdle(cfg, w);
      var pending := HasPending(callId);
      if !pending {
        return false;
      }
      var decided := ApprovalDecided(ApprovalOf(callId), approved);
      assert [decided] + [] == [decided];
      if approved {
        Store([decided], Settle(callId, approved, false));
      } else if dies {
        Store([decided], Settle(callId, approved, true));
      } else {
        StoreTwo(decided, RunFailed(OperatorRejected(callId)), Settle(callId, approved, false));
      }
      return true;
    }

    method HasPending(callId: string) returns (pending: bool)
      requires Valid()
      ensures pending <==> WasRequested(w.log, callId)
    {
      hide Execute;
      var replayed := store.Replay(runId, 0);
      assert Stream(store.rows, runId)[0..] == Stream(store.rows, runId);
      var events := replayed.value;
      var i := 0;
      while i < |events|
        invariant 0 <= i <= |events| && EventsOf(events) == w.log
        invariant forall k | 0 <= k < i :: w.log[k] != ApprovalRequested(ApprovalOf(callId), callId)
      {
        EventsAt(events, i);
        if events[i].event == ApprovalRequested(ApprovalOf(callId), callId) {
          assert w.log[i] == ApprovalRequested(ApprovalOf(callId), callId);
          return true;
        }
        i := i + 1;
      }
      return false;
    }

    /** Two transactions that one label accounts for. */
    method StoreTwo(first: Event, second: Event, ghost l: Label)
      requires Valid() && Enabled(cfg, w, l) && Perform(cfg, w, l).log == w.log + ([first] + [second])
      modifies this`history, this`w, store
      ensures Valid() && w == Perform(cfg, old(w), l) && history == old(history) + [l]
    {
      hide ExecuteFrom, Enabled, Perform, Project, Insertable;
      ghost var rows := store.rows;
      AppendOne(first);
      AppendOne(second);
      assert w.log + ([first] + [second]) == (w.log + [first]) + [second];
      ExecuteFromSnoc(cfg, EMPTY_WORLD, history, l);
      history := history + [l];
      w := Perform(cfg, w, l);
    }

    method AppendOne(e: Event)
      requires store.Valid() && !Blank(runId)
      requires forall i | 0 <= i < |store.rows| :: store.rows[i].schemaVersion <= CURRENT_SCHEMA_VERSION
      modifies store
      ensures store.Valid() && Log() == old(Log()) + [e]
      ensures forall i | 0 <= i < |store.rows| :: store.rows[i].schemaVersion <= CURRENT_SCHEMA_VERSION
    {
      hide Numbered, Insertable;
      ghost var rows, longest := store.rows, LongestId(store.rows);
      var named := Named([e], LongestId(store.rows));
      NamedInsertable(rows, [e]);
      var stored := store.AppendBatch(runId, named);
      StreamAfterBatch(rows, runId, named, |Stream(rows, runId)|, runId);
      EventsConcat(Stream(rows, runId), Numbered(runId, named, |Stream(rows, runId)|));
      NumberedEvents(runId, [e], longest, |Stream(rows, runId)|);
    }

    /** What others do while the driver is suspended in a step. Messages with a used id are not submitted. */
    method Meanwhile(interruptions: seq<Interruption>)
      requires Valid() && w.log != [] && (w.place.InProvider? || w.place.InTool?)
      modifies this`history, this`w, store
      ensures Valid() && w.place == old(w).place && w.entered == old(w).entered && old(w.log) <= w.log && w.log != []
      ensures WorldRank(cfg, w) == WorldRank(cfg, old(w)) && old(history) <= history
      ensures Project(old(w).log).Some? && Project(w.log).Some? && SameWork(StateOf(old(w)), StateOf(w))
    {
      hide Execute, Project, Invariant, Enabled, Perform, WorldRank, IndexOfItem;
      Reached();
      var i := 0;
      while i < |interruptions|
        invariant 0 <= i <= |interruptions|
        invariant Valid() && w.place == old(w).place && w.entered == old(w).entered && old(w.log) <= w.log && w.log != []
        invariant WorldRank(cfg, w) == WorldRank(cfg, old(w)) && old(history) <= history
        invariant Project(w.log).Some? && SameWork(StateOf(old(w)), StateOf(w))
      {
        Interrupt(interruptions[i]);
        i := i + 1;
      }
    }

    method Interrupt(x: Interruption)
      requires Valid() && w.log != [] && (w.place.InProvider? || w.place.InTool?)
      modifies this`history, this`w, store
      ensures Valid() && w.place == old(w).place && w.entered == old(w).entered && old(w.log) <= w.log && w.log != []
      ensures WorldRank(cfg, w) == WorldRank(cfg, old(w)) && old(history) <= history
      ensures Project(old(w).log).Some? && Project(w.log).Some? && SameWork(StateOf(old(w)), StateOf(w))
    {
      hide Execute, Project, Invariant, WorldRank, IndexOfItem, Blank, Perform, Enabled;
      Reached();
      match x
      case CancelRequested => CancelNow();
      case MessageSubmitted(id, kind, target, role, content) =>
        var p := ProjectNow();
        if IndexOfItem(p.inbox, id) == |p.inbox| {
          SubmitNow(id, kind, target, role, content);
        }
    }

    method CancelNow()
      requires Valid() && w.log != [] && (w.place.InProvider? || w.place.InTool?)
      modifies this`history, this`w, store
      ensures Valid() && w.place == old(w).place && w.entered == old(w).entered && old(w.log) <= w.log && w.log != []
      ensures WorldRank(cfg, w) == WorldRank(cfg, old(w)) && old(history) <= history
      ensures Project(old(w).log).Some? && Project(w.log).Some? && SameWork(StateOf(old(w)), StateOf(w))
    {
      hide Execute, Project, Invariant, WorldRank, PendingIds, HasUncertain, FindAssistant, StepsOfTurn, Blank, NextAction, Less;
      Reached();
      ghost var before := w;
      var done := Cancel();
      if StateOf(before).status.Running? || StateOf(before).status.WaitingApproval? {
        MeanwhileRank(cfg, before, Label.Cancel);
        Reached();
        AcceptedLast(before.log, RunCancelling);
      }
    }

    method SubmitNow(id: string, kind: InboxKind, target: InboxTarget, role: Role, content: string)
      requires Valid() && w.log != [] && (w.place.InProvider? || w.place.InTool?)
      requires Project(w.log).Some? && IndexOfItem(StateOf(w).inbox, id) == |StateOf(w).inbox|
      modifies this`history, this`w, store
      ensures Valid() && w.place == old(w).place && w.entered == old(w).entered && old(w.log) <= w.log && w.log != []
      ensures WorldRank(cfg, w) == WorldRank(cfg, old(w)) && old(history) <= history
      ensures Project(old(w).log).Some? && Project(w.log).Some? && SameWork(StateOf(old(w)), StateOf(w))
    {
      hide Execute, Project, Invariant, WorldRank, IndexOfItem, Blank, PendingIds, HasUncertain, FindAssistant, StepsOfTurn, NextAction, Less;
      Reached();
      ghost var before := w;
      var done := Submit(id, kind, target, role, content);
      if done {
        MeanwhileRank(cfg, before, Label.Submit(id, kind, target, role, content));
        Reached();
        AcceptedLast(before.log, InboxSubmitted(id, kind, target, role, content));
      }
    }

    /* ------------------------------------------------------------ the drive loop */

    /** The driver is ready, further along than before. */
    ghost predicate Moved(before: World, labels: seq<Label>)
      reads this, store
    {
      && Valid() && w.place.Ready? && w.log != [] && Project(w.log).Some?
      && labels <= history && before.log <= w.log && Down(cfg, before, w)
    }

    ghost predicate Stopping(before: World, labels: seq<Label>)
      reads this, store
    {
      Moved(before, labels) && (StateOf(w).status.IsTerminal() || StateOf(w).status.WaitingApproval?)
    }

    /** The process died at a suspension point. */
    ghost predicate Died(before: World, labels: seq<Label>)
      reads this, store
    {
      && Valid() && w.place.Idle? && w.log != [] && labels <= history && before.log <= w.log
      && |labels| < |history| && history[|history| - 1] == Crash
    }

    /** No call out of the runtime is foreseen not to come back. */
    ghost predicate Lively()
      reads this`providerMoments, this`toolMoments
    {
      && (forall i | 0 <= i < |providerMoments| :: !providerMoments[i].reply.Dies?)
      && (forall i | 0 <= i < |toolMoments| :: !toolMoments[i].reply.Dies?)
    }

    /** What is foreseen is used up. */
    ghost predicate RanOut()
      reads this`providerMoments, this`toolMoments
    {
      providerMoments == [] || toolMoments == []
    }

    /** `DurableRunInbox.consume` at the start of a step. */
    method ConsumeForStep()
      requires Valid() && w.log != [] && w.place.Ready? && Project(w.log).Some?
      requires PendingIds(StateOf(w).inbox, NextStep) != [] ==>
                 NextAction(cfg, w.log, StateOf(w)) == Write(Consumptions(PendingIds(StateOf(w).inbox, NextStep)))
      requires StateOf(w).status.Running? && AwaitsStep(StateOf(w))
      modifies this`history, this`w, store
      ensures Valid() && w.log != [] && w.place.Ready? && Project(w.log).Some? && old(history) <= history && old(w).log <= w.log
      ensures Consumed(StateOf(old(w)), StateOf(w), NextStep)
      ensures w == old(w) || Down(cfg, old(w), w)
      ensures var ids := PendingIds(StateOf(old(w)).inbox, NextStep);
              w == Extend(old(w), Consumptions(ids), Ready) && history == old(history) + if ids == [] then [] else [Act]
    {
      hide Execute, Project, Invariant, WorldRank, Less, NextAction, PendingIds, Consumed, HasUncertain, Enabled;
      Reached();
      ghost var before := w;
      var p := ProjectNow();
      var ids := PendingOf(p, NextStep);
      ConsumedState(cfg, w, NextStep);
      if ids != [] {
        ActIs(cfg, w);
        DriverLowers(cfg, w, Act);
        Store(Consumptions(ids), Act);
      } else {
        assert w.log + [] == w.log && history + [] == history;
      }
    }

    /** The ids of the pending messages for a boundary. */
    method PendingOf(p: RunProjection, target: InboxTarget) returns (ids: seq<string>)
      ensures ids == PendingIds(p.inbox, target)
    {
      hide PendingIds;
      ids := [];
      var i := 0;
      assert p.inbox[0..] == p.inbox;
      while i < |p.inbox|
        invariant 0 <= i <= |p.inbox|
        invariant PendingIds(p.inbox, target) == ids + PendingIds(p.inbox[i..], target)
      {
        PendingFrom(p.inbox, i, target);
        if !p.inbox[i].consumed && p.inbox[i].target == target {
          ids := ids + [p.inbox[i].messageId];
        }
        i := i + 1;
      }
      NothingPending(p.inbox, target);
    }

    /** How the end of a turn is settled: a new turn with its messages, or the end of the run. */
    ghost predicate Settled(before: World, p: RunProjection, flow: Flow)
      reads this
    {
      && p.CurrentAssistant().Some?
      && var pending := PendingIds(p.inbox, NextTurn);
         if !p.CurrentAssistant().value.stop.EndTurn? then flow.Stop? && w == Extend(before, [RunFailed(ProviderMaxTokens)], Ready)
         else if pending == [] then flow.Stop? && w == Extend(before, [RunCompleted], Ready)
         else flow.Again? && w == Extend(before, [TurnStarted(p.turn + 1)] + Consumptions(pending), Ready)
    }

    /** `_settle_completed_step`. */
    method SettleCompletedStep(p: RunProjection) returns (flow: Flow)
      requires Valid() && w.log != [] && w.place.Ready? && Project(w.log) == Some(p)
      requires p.status.Running? && !HasUncertain(p)
      modifies this`history, this`w, store
      ensures flow.Onward? || flow.Again? || flow.Stop?
      ensures flow.Onward? <==> p.step.None? || p.HasOpenStep() || (p.CurrentAssistant().Some? && p.CurrentAssistant().value.stop.ToolUse?)
      ensures !flow.Onward? ==> Settled(old(w), p, flow)
      ensures flow.Onward? ==> Valid() && w == old(w) && history == old(history) && store.rows == old(store.rows)
                               && (p.step.Some? && !p.HasOpenStep() ==> p.CurrentAssistant().Some? && p.CurrentAssistant().value.stop.ToolUse?)
      ensures flow.Again? ==> Moved(old(w), old(history))
      ensures flow.Stop? ==> Stopping(old(w), old(history))
    {
      hide Execute, Project, Invariant, WorldRank, Less, NextAction, PendingIds, HasUncertain, Enabled, FindAssistant, BudgetFailure, ToolAction,
           StepsOfTurn, Accepts, Down, Blank;
      Reached();
      if p.step.None? || p.HasOpenStep() {
        return Onward;
      }
      var assistant := p.CurrentAssistant();
      CompletedHasResponse(cfg, w);
      if assistant.value.stop.ToolUse? {
        return Onward;
      }
      flow := SettleTurn(p, assistant.value.stop);
    }

    /** The turn is over, or the provider has come to its own limit. */
    method SettleTurn(p: RunProjection, stop: StopReason) returns (flow: Flow)
      requires Valid() && w.log != [] && w.place.Ready? && Project(w.log) == Some(p) && p.status.Running? && !HasUncertain(p)
      requires p.step.Some? && !p.HasOpenStep() && p.CurrentAssistant().Some? && p.CurrentAssistant().value.stop == stop && !stop.ToolUse?
      modifies this`history, this`w, store
      ensures flow.Again? || flow.Stop?
      ensures Settled(old(w), p, flow)
      ensures flow.Again? ==> Moved(old(w), old(history))
      ensures flow.Stop? ==> Stopping(old(w), old(history))
    {
      hide Execute, Project, Invariant, WorldRank, Less, NextAction, PendingIds, HasUncertain, Enabled, FindAssistant, BudgetFailure, ToolAction,
           StepsOfTurn, Accepts, Down, Blank;
      NextIs(cfg, w.log, p);
      ActIs(cfg, w);
      if stop.EndTurn? {
        var pending := PendingOf(p, NextTurn);
        if pending != [] {
          OpenTurn(p);
          return Again;
        }
        WriteNext(RunCompleted);
        return Stop;
      }
      Fail(ProviderMaxTokens, Act);
      return Stop;
    }

    /** A new turn is started and its messages are delivered. */
    method OpenTurn(p: RunProjection)
      requires Valid() && w.log != [] && w.place.Ready? && Project(w.log) == Some(p) && p.status.Running?
      requires NextAction(cfg, w.log, p) == Action.OpenTurn
      modifies this`history, this`w, store
      ensures Moved(old(w), old(history))
      ensures w == Extend(old(w), [TurnStarted(p.turn + 1)] + Consumptions(PendingIds(p.inbox, NextTurn)), Ready)
    {
      hide Execute, Project, Invariant, WorldRank, Less, NextAction, PendingIds, Enabled, Accepts;
      ghost var before := w;
      ActIs(cfg, w);
      Record(TurnStarted(p.turn + 1), Act);
      ghost var middle := w;
      Reached();
      var q := ProjectNow();
      var ids := PendingOf(q, NextTurn);
      SecondHalfIs(cfg, w);
      DriverLowers(cfg, w, SecondHalf);
      Store(Consumptions(ids), SecondHalf);
      LessTransitive(WorldRank(cfg, w), WorldRank(cfg, middle), WorldRank(cfg, before));
      Reached();
    }

    /** Ask the provider and wait for what comes back. */
    method AwaitProvider(p: RunProjection) returns (reply: Reply<Response>)
      requires Valid() && w.log != [] && w.place.Ready? && Project(w.log) == Some(p)
      requires p.status.Running? && p.HasOpenStep() && p.CurrentAssistant().None?
      modifies this, store
      ensures Valid() && w.log != [] && w.place.InProvider? && Project(w.log).Some? && SameWork(p, StateOf(w))
      ensures Down(cfg, old(w), w) && old(history) <= history && old(w).log <= w.log
      ensures providerMoments == (if old(providerMoments) == [] then [] else old(providerMoments)[1..]) && toolMoments == old(toolMoments)
      ensures reply == if old(providerMoments) == [] then Dies else old(providerMoments)[0].reply
      ensures old(Lively()) ==> Lively() && (reply.Dies? ==> RanOut())
    {
      hide Execute, Project, Invariant, WorldRank, Less, NextAction, FindAssistant;
      Reached();
      AsksNext(cfg, w);
      ActIs(cfg, w);
      Step(Act);
      var moment := NextProviderMoment();
      Meanwhile(moment.meanwhile);
      reply := moment.reply;
    }

    /** The event keeps what the provider has answered in the current step. */
    ghost predicate IsRecordOf(e: Event, p: RunProjection, r: Response)
      requires p.step.Some?
    {
      && e.AssistantMessage? && e.turn == p.turn && e.step == p.step.value && e.text == r.text && e.stop == r.stop && e.toolCalls == r.toolCalls
      && (r.usage.Some? ==> e.inputTokens == Some(r.usage.value.0) && e.outputTokens == Some(r.usage.value.1))
      && (r.usage.None? ==> e.inputTokens.None? && e.outputTokens.None?)
    }

    /** What has become of the provider's reply. */
    ghost predicate Replied(before: World, reply: Reply<Response>, flow: Flow)
      reads this
      requires Project(before.log).Some? && StateOf(before).step.Some?
    {
      match reply
      case Dies => flow.Gone? && w == before.(place := Idle)
      case TimesOut => flow.Stop? && w == Extend(before, [AbortEvent(StateOf(before), RunTimeout)], Ready)
      case Raises(message) => flow.Stop? && w == Extend(before, [AbortEvent(StateOf(before), RuntimeFailure(message))], Ready)
      case Returns(response) =>
        if !response.Valid() then flow.Stop? && w == Extend(before, [AbortEvent(StateOf(before), RuntimeFailure(""))], Ready)
        else if StateOf(before).status.Cancelling? then flow.Again? && w == before.(place := Ready)
        else flow.Onward? && exists e :: IsRecordOf(e, StateOf(before), response) && w == Extend(before, [e], Ready)
    }

    /** Store the response, unless the run is being cancelled; failures end the run. */
    method TakeReply(p: RunProjection, reply: Reply<Response>) returns (flow: Flow)
      requires Valid() && w.log != [] && w.place.InProvider? && Project(w.log).Some? && SameWork(p, StateOf(w)) && p.step.Some?
      modifies this`history, this`w, store
      ensures flow.Onward? ==> Moved(old(w), old(history)) && StateOf(w).status.Running? && StateOf(w).HasOpenStep()
                               && StateOf(w).CurrentAssistant().Some? && StateOf(w).tools == p.tools
      ensures flow.Again? ==> Moved(old(w), old(history))
      ensures flow.Stop? ==> Stopping(old(w), old(history))
      ensures flow.Gone? ==> Died(old(w), old(history))
      ensures Replied(old(w), reply, flow) && (flow.Gone? <==> reply.Dies?)
    {
      hide Execute, Project, Invariant, WorldRank, Less, NextAction, Accepts, FindAssistant, AbortEvent, HasUncertain, PendingIds, StepsOfTurn,
           Blank, ToolEffect, RunPreflight, RunGate;
      Reached();
      StillRunning(cfg, w);
      match reply
      case Dies =>
        Move(Crash);
        return Gone;
      case TimesOut =>
        Abort(RunTimeout, TimeOut);
        return Stop;
      case Raises(message) =>
        Abort(RuntimeFailure(message), ProviderRaises(message));
        return Stop;
      case Returns(response) =>
        if !response.Valid() {
          Abort(RuntimeFailure(""), ProviderRaises(""));
          return Stop;
        }
        var q := ProjectNow();
        if q.status.Cancelling? {
          Step(Respond(response));
          return Again;
        }
        RespondedState(q, response);
        Record(ResponseEvent(p, response), Respond(response));
        return Onward;
    }

    /** How asking the provider ends: with its response in the log after what others have written meanwhile, unless the run was
        cancelled by then, or with the end of the run, or of the process. */
    ghost predicate Generated(before: World, p: RunProjection, reply: Reply<Response>, flow: Flow)
      reads this
      requires p.step.Some?
    {
      match reply
      case Dies => flow.Gone?
      case TimesOut => flow.Stop?
      case Raises(_) => flow.Stop?
      case Returns(response) =>
        if !response.Valid() then flow.Stop?
        else
          && (flow.Again? || flow.Onward?)
          && (flow.Onward? ==> |w.log| > |before.log| && before.log <= w.log && IsRecordOf(w.log[|w.log| - 1], p, response))
          && (flow.Again? ==> before.log <= w.log && Project(w.log).Some? && StateOf(w).status.Cancelling?)
    }

    lemma {:induction false} FromReply(before: World, asked: World, p: RunProjection, reply: Reply<Response>, flow: Flow)
      requires Project(asked.log).Some? && p.step.Some? && SameWork(p, StateOf(asked)) && before.log <= asked.log
      requires Replied(asked, reply, flow)
      ensures Generated(before, p, reply, flow)
    {
      hide Project, AbortEvent;
      if reply.Returns? {
        SameResponse(p, StateOf(asked), reply.value);
      }
    }

    /** `_generate_response` and `_persist_response`. */
    method GenerateResponse(p: RunProjection) returns (flow: Flow)
      requires Valid() && w.log != [] && w.place.Ready? && Project(w.log) == Some(p)
      requires p.status.Running? && p.HasOpenStep() && p.CurrentAssistant().None?
      modifies this, store
      ensures flow.Onward? ==> Moved(old(w), old(history)) && StateOf(w).status.Running? && StateOf(w).HasOpenStep()
                               && StateOf(w).CurrentAssistant().Some? && StateOf(w).tools == p.tools
      ensures flow.Again? ==> Moved(old(w), old(history))
      ensures Generated(old(w), p, if old(providerMoments) == [] then Dies else old(providerMoments)[0].reply, flow)
      ensures flow.Stop? ==> Stopping(old(w), old(history))
      ensures flow.Gone? ==> Died(old(w), old(history))
      ensures old(Lively()) ==> Lively() && (flow.Gone? ==> RanOut())
    {
      hide Execute, Project, Invariant, WorldRank, Less, FindAssistant, SameWork, EventDrivenAgentRuntime.Generated, EventDrivenAgentRuntime.Lively,
           EventDrivenAgentRuntime.RanOut, PendingIds, StepsOfTurn, AbortEvent, HasUncertain, NextAction, Blank, Accepts;
      ghost var before := w;
      var reply := AwaitProvider(p);
      ghost var asked := w;
      flow := TakeReply(p, reply);
      FromReply(before, asked, p, reply, flow);
      if !flow.Gone? {
        LessTransitive(WorldRank(cfg, w), WorldRank(cfg, asked), WorldRank(cfg, before));
      }
    }

    method NextProviderMoment() returns (m: Moment<Response>)
      modifies this`providerMoments
      ensures providerMoments == (if old(providerMoments) == [] then [] else old(providerMoments)[1..])
      ensures m == if old(providerMoments) == [] then Moment([], Dies) else old(providerMoments)[0]
    {
      if providerMoments == [] {
        return Moment([], Dies);
      }
      m := providerMoments[0];
      providerMoments := providerMoments[1..];
    }

    method NextToolMoment() returns (m: Moment<Observation>)
      modifies this`toolMoments
      ensures toolMoments == (if old(toolMoments) == [] then [] else old(toolMoments)[1..])
      ensures m == if old(toolMoments) == [] then Moment([], Dies) else old(toolMoments)[0]
    {
      if toolMoments == [] {
        return Moment([], Dies);
      }
      m := toolMoments[0];
      toolMoments := toolMoments[1..];
    }

    /** `_ensure_tool_requests`. */
    method EnsureToolRequests(p: RunProjection, calls: seq<ToolCall>)
      requires Valid() && w.log != [] && w.place.Ready? && Project(w.log) == Some(p) && OnTools(cfg, p, calls)
      modifies this`history, this`w, store
      ensures Valid() && w.log != [] && w.place.Ready? && Project(w.log).Some? && OnTools(cfg, StateOf(w), calls)
      ensures SameStepAs(p, StateOf(w)) && (forall k | 0 <= k < |calls| :: KnowsTool(StateOf(w).tools, calls[k].id))
      ensures (w == old(w) || Down(cfg, old(w), w)) && old(history) <= history && old(w).log <= w.log
    {
      hide Execute, Project, Invariant, WorldRank, Less, NextAction, Accepts, KnowsTool, OnTools;
      Reached();
      ResponseDistinct(cfg, w, calls);
      ghost var before := w;
      var index := 0;
      while index < |calls|
        invariant 0 <= index <= |calls|
        invariant Valid() && w.log != [] && w.place.Ready? && Project(w.log).Some? && OnTools(cfg, StateOf(w), calls)
        invariant SameStepAs(p, StateOf(w))
        invariant forall k | 0 <= k < index :: KnowsTool(StateOf(w).tools, calls[k].id)
        invariant forall k | index <= k < |calls| :: KnowsTool(StateOf(w).tools, calls[k].id) <==> KnowsTool(p.tools, calls[k].id)
        invariant (w == before || Down(cfg, before, w)) && old(history) <= history && old(w).log <= w.log
      {
        if !KnowsTool(p.tools, calls[index].id) {
          ghost var previous := w;
          ghost var q := StateOf(w);
          RequestIsNext(cfg, w, calls, index);
          WriteNext(RequestEvent(cfg, calls[index], index));
          RequestKnows(cfg, q, calls, index);
          if previous != before {
            LessTransitive(WorldRank(cfg, w), WorldRank(cfg, previous), WorldRank(cfg, before));
          }
        }
        index := index + 1;
      }
    }

    /** A started call goes through the executor; while its handler runs, others may act. */
    method AwaitTool(call: ToolCall) returns (reply: Reply<Observation>)
      requires Valid() && w.log != [] && w.place == Starting(call) && Project(w.log).Some?
      modifies this, store
      ensures Valid() && w.log != [] && w.place.InTool? && w.place.call == call && Project(w.log).Some?
      ensures SameWork(StateOf(old(w)), StateOf(w))
      ensures Down(cfg, old(w), w) && old(history) <= history && old(w).log <= w.log
      ensures w.place.gate.Refuse? ==> reply == Returns(Observation(w.place.gate.output, true)) && toolMoments == old(toolMoments)
      ensures w.place.gate.Enter? ==>
                && toolMoments == (if old(toolMoments) == [] then [] else old(toolMoments)[1..])
                && reply == if old(toolMoments) == [] then Dies else old(toolMoments)[0].reply
      ensures providerMoments == old(providerMoments)
      ensures old(Lively()) ==> Lively() && (reply.Dies? ==> RanOut())
    {
      hide Execute, Project, Invariant, WorldRank, Less, RunGate, LookUpApproval;
      Reached();
      SecondHalfIs(cfg, w);
      var approval := RequestApproval(call);
      var gate := RunGate(cfg.pipeline, call, approval);
      StartedStores(cfg, w);
      Step(SecondHalf);
      if gate.Refuse? {
        return Returns(Observation(gate.output, true));
      }
      var moment := NextToolMoment();
      Meanwhile(moment.meanwhile);
      return moment.reply;
    }

    /** What has become of the tool's reply. */
    ghost predicate Observed(before: World, call: ToolCall, effect: Effect, reply: Reply<Observation>, flow: Flow)
      reads this
      requires Project(before.log).Some?
    {
      match reply
      case Dies => flow.Gone? && w == before.(place := Idle)
      case TimesOut => flow.Stop? && w == Extend(before, [AbortEvent(StateOf(before), RunTimeout)], Ready)
      case Raises(message) =>
        if effect.Mutate? then flow.Stop? && w == Extend(before, [RunFailedUncertain(UncertainMutation(call.id))], Ready)
        else flow.Onward? && w == Extend(before, [ToolFailed(call.id, ErrorObject(ExecutionFailed, message))], Ready)
      case Returns(o) =>
        if !o.isError then flow.Onward? && w == Extend(before, [ToolCompleted(call.id, false, o.output)], Ready)
        else if effect.Mutate? && o.output.ErrorObject? && (o.output.code.ExecutionFailed? || o.output.code.Timeout?) then
          flow.Stop? && w == Extend(before, [RunFailedUncertain(UncertainMutation(call.id))], Ready)
        else flow.Onward? && w == Extend(before, [ToolFailed(call.id, o.output)], Ready)
    }

    /** What the observation, or its failure, makes of the call. */
    method TakeObservation(call: ToolCall, effect: Effect, reply: Reply<Observation>) returns (flow: Flow)
      requires Valid() && w.log != [] && w.place.InTool? && w.place.call == call && Project(w.log).Some?
      requires effect == ToolEffect(cfg.pipeline, call)
      requires w.place.gate.Refuse? ==> reply == Returns(Observation(w.place.gate.output, true))
      modifies this`history, this`w, store
      ensures flow.Onward? || flow.Stop? || flow.Gone?
      ensures flow.Onward? ==> Moved(old(w), old(history)) && (StateOf(w).status.Running? || StateOf(w).status.Cancelling?)
                               && FinishedTool(StateOf(old(w)), StateOf(w), call.id)
      ensures flow.Stop? ==> Stopping(old(w), old(history))
      ensures flow.Gone? ==> Died(old(w), old(history))
      ensures Observed(old(w), call, effect, reply, flow) && (flow.Gone? <==> reply.Dies?)
    {
      hide Execute, Project, Invariant, WorldRank, Less, ToolEffect, AbortEvent, FinishedTool, LeavesUncertain, FindAssistant, HasUncertain,
           PendingIds, NextAction, RunGate, RunPreflight, LookUpApproval, Blank, StepsOfTurn, IndexOfTool;
      Reached();
      StillRunning(cfg, w);
      ghost var q := StateOf(w);
      match reply
      case Dies =>
        Move(Crash);
        return Gone;
      case TimesOut =>
        Abort(RunTimeout, TimeOut);
        return Stop;
      case Raises(message) =>
        if effect.Mutate? {
          FailUncertain(call.id, ToolRaises(message));
          return Stop;
        }
        Record(ToolFailed(call.id, ErrorObject(ExecutionFailed, message)), ToolRaises(message));
        ToolIsFinished(q, ToolFailed(call.id, ErrorObject(ExecutionFailed, message)));
        return Onward;
      case Returns(observation) =>
        flow := TakeResult(call, effect, observation);
    }

    /** An observation came back. */
    method TakeResult(call: ToolCall, effect: Effect, observation: Observation) returns (flow: Flow)
      requires Valid() && w.log != [] && w.place.InTool? && w.place.call == call && Project(w.log).Some?
      requires effect == ToolEffect(cfg.pipeline, call)
      requires w.place.gate.Refuse? ==> observation == Observation(w.place.gate.output, true)
      modifies this`history, this`w, store
      ensures flow.Onward? || flow.Stop?
      ensures flow.Onward? ==> Moved(old(w), old(history)) && (StateOf(w).status.Running? || StateOf(w).status.Cancelling?)
                               && FinishedTool(StateOf(old(w)), StateOf(w), call.id)
      ensures flow.Stop? ==> Stopping(old(w), old(history))
      ensures Observed(old(w), call, effect, Returns(observation), flow)
    {
      hide Execute, Project, Invariant, WorldRank, Less, ToolEffect, AbortEvent, FinishedTool, FindAssistant, HasUncertain,
           PendingIds, NextAction, RunGate, RunPreflight, LookUpApproval, Blank, StepsOfTurn, IndexOfTool;
      Reached();
      StillRunning(cfg, w);
      ghost var q := StateOf(w);
      if LeavesUncertain(effect, observation) {
        FailUncertain(call.id, Observe(observation));
        return Stop;
      }
      Record(ResultEvent(call.id, observation), Observe(observation));
      ToolIsFinished(q, ResultEvent(call.id, observation));
      return Onward;
    }

    method ExecuteTool(call: ToolCall, effect: Effect) returns (flow: Flow)
      requires Valid() && w.log != [] && w.place == Starting(call) && Project(w.log).Some? && effect == ToolEffect(cfg.pipeline, call)
      modifies this, store
      ensures flow.Onward? || flow.Stop? || flow.Gone?
      ensures flow.Onward? ==> Moved(old(w), old(history)) && (StateOf(w).status.Running? || StateOf(w).status.Cancelling?)
                               && FinishedTool(StateOf(old(w)), StateOf(w), call.id)
      ensures flow.Stop? ==> Stopping(old(w), old(history))
      ensures flow.Gone? ==> Died(old(w), old(history))
      ensures old(Lively()) ==> Lively() && (flow.Gone? ==> RanOut())
    {
      hide Execute, Project, Invariant, WorldRank, Less, ToolEffect, EventDrivenAgentRuntime.Lively, EventDrivenAgentRuntime.RanOut,
           EventDrivenAgentRuntime.Observed, PendingIds, StepsOfTurn, AbortEvent, HasUncertain, NextAction, Blank, FindAssistant, LeavesUncertain;
      ghost var before := w;
      var reply := AwaitTool(call);
      ghost var waiting := w;
      flow := TakeObservation(call, effect, reply);
      if !flow.Gone? {
        LessTransitive(WorldRank(cfg, w), WorldRank(cfg, waiting), WorldRank(cfg, before));
      }
    }

    /** `_execute_current_tools`: the tools as they were when the loop began, in call order. */
    method ExecuteCurrentTools(p: RunProjection, calls: seq<ToolCall>) returns (flow: Flow)
      requires Valid() && w.log != [] && w.place.Ready? && Project(w.log) == Some(p) && OnTools(cfg, p, calls)
      requires forall k | 0 <= k < |calls| :: KnowsTool(p.tools, calls[k].id)
      modifies this, store
      ensures flow.Onward? ==>
                && Valid() && w.log != [] && w.place.Ready? && Project(w.log).Some? && (w == old(w) || Down(cfg, old(w), w))
                && old(history) <= history && old(w).log <= w.log && SameStepAs(p, StateOf(w)) && p.step.Some?
                && (StateOf(w).status.Running? ==> NextAction(cfg, w.log, StateOf(w)) == Write([StepCompleted(p.turn, p.step.value)]))
                && (StateOf(w).status.Running? || (StateOf(w).status.Cancelling? && Down(cfg, old(w), w)))
      ensures flow.Again? ==> Moved(old(w), old(history))
      ensures flow.Stop? ==> Stopping(old(w), old(history))
      ensures flow.Gone? ==> Died(old(w), old(history))
      ensures old(Lively()) ==> Lively() && (flow.Gone? ==> RanOut())
    {
      hide Execute, Project, Invariant, WorldRank, Less, NextAction, KnowsTool, OnTools, ToolsSoFar, SortByIndex, ToolsOfStep, Down, ToolEffect,
           RunPreflight, Sound, SplitAt, FindAssistant, SameStepAs, HandledAt, ToolStands, EventDrivenAgentRuntime.Lively, EventDrivenAgentRuntime.RanOut;
      Reached();
      OnToolsFacts(cfg, p, calls);
      ghost var before := w;
      var tools := SortByIndex(ToolsOfStep(p.tools, p.OpenKey()));
      ghost var base := ToolListStarts(cfg, w, calls);
      var i := 0;
      while i < |tools|
        invariant 0 <= i <= |tools| && base <= |p.tools| && tools == p.tools[base..] && SplitAt(p, base)
        invariant Valid() && w.log != [] && w.place.Ready? && Project(w.log).Some?
        invariant ToolsSoFar(p, StateOf(w), base, i)
        invariant w == before || Down(cfg, before, w)
        invariant old(Lively()) ==> Lively()
        invariant old(history) <= history && before.log <= w.log
        invariant StateOf(w).status.Running? || (StateOf(w).status.Cancelling? && Down(cfg, before, w))
      {
        var t := tools[i];
        ghost var start, q := w, StateOf(w);
        if t.IsDone() {
          SkipDone(p, q, base, i);
          i := i + 1;
          continue;
        }
        var now := ProjectNow();
        if now.status.Cancelling? {
          return Again;
        }
        Reached();
        ToolIsNext(cfg, w, p, calls, base, i);
        var next := HandleTool(t);
        if start != before && !next.Gone? {
          LessDown(cfg, w, start, before);
        }
        if !next.Onward? {
          return next;
        }
        OneMoreDone(p, q, StateOf(w), base, i);
        i := i + 1;
      }
      Reached();
      SoFarSame(p, StateOf(w), base, i);
      if StateOf(w).status.Running? {
        StepIsDone(cfg, w, p, calls, base, i);
      }
      return Onward;
    }

    /** One tool of the loop. */
    method HandleTool(t: ToolRecord) returns (flow: Flow)
      requires Valid() && w.log != [] && w.place.Ready? && Project(w.log).Some? && StateOf(w).status.Running?
      requires ToolStands(cfg, StateOf(w), t)
      requires NextAction(cfg, w.log, StateOf(w))
            == if t.state.Started? then RunTool(CallOf(t)) else LaunchAction(cfg, w.log, CallOf(t), t.effect)
      modifies this, store
      ensures flow.Onward? || flow.Stop? || flow.Gone?
      ensures flow.Onward? ==> Moved(old(w), old(history)) && (StateOf(w).status.Running? || StateOf(w).status.Cancelling?)
                               && HandledAt(StateOf(old(w)), StateOf(w), t.callId)
      ensures flow.Stop? ==> Stopping(old(w), old(history))
      ensures flow.Gone? ==> Died(old(w), old(history))
      ensures old(Lively()) ==> Lively() && (flow.Gone? ==> RanOut())
    {
      hide Execute, Project, Invariant, WorldRank, Less, NextAction, ToolEffect, RunPreflight, FinishedTool, HandledAt, StartedAt, Down,
           LaunchAction, ToolStands, SameStepAs, FindAssistant, HasUncertain, PendingIds, StepsOfTurn, Blank, EventDrivenAgentRuntime.Lively, EventDrivenAgentRuntime.RanOut;
      ghost var before, q := w, StateOf(w);
      StandsFacts(cfg, q, t);
      if t.state.Requested? {
        var launched := LaunchTool(t);
        if launched.Again? {
          return Onward;
        }
        if launched.Stop? {
          return Stop;
        }
      } else {
        ActIs(cfg, w);
        Step(Act);
        StartedTool(q, q, t.callId);
      }
      ghost var started := w;
      flow := ExecuteTool(CallOf(t), t.effect);
      if !flow.Gone? {
        LessDown(cfg, w, started, before);
      }
      if flow.Onward? {
        ThenFinished(q, StateOf(started), StateOf(w), t.callId);
      }
    }

    /** From a requested tool to its start, if nothing is in the way: onward when it is started, again when its preflight
        has rejected it. */
    method LaunchTool(t: ToolRecord) returns (flow: Flow)
      requires Valid() && w.log != [] && w.place.Ready? && Project(w.log).Some? && StateOf(w).status.Running?
      requires ToolStands(cfg, StateOf(w), t) && t.state.Requested?
      requires NextAction(cfg, w.log, StateOf(w)) == LaunchAction(cfg, w.log, CallOf(t), t.effect)
      modifies this`history, this`w, store
      ensures flow.Onward? || flow.Again? || flow.Stop?
      ensures flow.Onward? ==>
                && Valid() && w.log != [] && w.place == Starting(CallOf(t)) && Project(w.log).Some? && StateOf(w).status.Running?
                && StartedAt(StateOf(old(w)), StateOf(w), t.callId) && Down(cfg, old(w), w)
                && old(history) <= history && old(w).log <= w.log
      ensures flow.Again? ==> Moved(old(w), old(history)) && StateOf(w).status.Running? && HandledAt(StateOf(old(w)), StateOf(w), t.callId)
      ensures flow.Stop? ==> Stopping(old(w), old(history))
    {
      hide Execute, Project, Invariant, WorldRank, Less, NextAction, ToolEffect, RunPreflight, HandledAt, StartedAt, Down, Accepts, SameStepAs,
           FirstDecision, LastDecision, FindAssistant, HasUncertain, PendingIds, StepsOfTurn, BudgetFailure, Blank, AllRequested;
      ghost var q := StateOf(w);
      var call := CallOf(t);
      ActIs(cfg, w);
      var preflight := RunPreflight(cfg.pipeline, call);
      if preflight.Rejected? {
        RejectCall(t, preflight.output);
        return Again;
      }
      if t.effect.Mutate? || preflight.ask {
        var approval := DurableApproval(call.id);
        if approval.None? {
          WriteNext(ApprovalRequested(ApprovalOf(call.id), call.id));
          return Stop;
        }
        if !approval.value {
          Fail(OperatorRejected(call.id), Act);
          return Stop;
        }
      }
      Record(ToolStarted(call.id), Act);
      StartedTool(q, StateOf(w), call.id);
      return Onward;
    }

    /** A call that its preflight rejects is started and failed at once. */
    method RejectCall(t: ToolRecord, output: Content)
      requires Valid() && w.log != [] && w.place.Ready? && Project(w.log).Some? && StateOf(w).status.Running?
      requires ToolStands(cfg, StateOf(w), t) && t.state.Requested?
      requires NextAction(cfg, w.log, StateOf(w)) == RejectTool(t.callId, output)
      modifies this`history, this`w, store
      ensures Moved(old(w), old(history)) && StateOf(w).status.Running? && HandledAt(StateOf(old(w)), StateOf(w), t.callId)
    {
      hide Execute, Project, Invariant, WorldRank, Less, NextAction, ToolEffect, RunPreflight, FinishedTool, HandledAt, Down, Accepts;
      ghost var before, q := w, StateOf(w);
      ActIs(cfg, w);
      Record(ToolStarted(t.callId), Act);
      ghost var started := w;
      StartedTool(q, StateOf(w), t.callId);
      SecondHalfIs(cfg, w);
      Record(ToolFailed(t.callId, output), SecondHalf);
      LessDown(cfg, w, started, before);
      ToolIsFinished(StateOf(started), ToolFailed(t.callId, output));
      ThenFinished(q, StateOf(started), StateOf(w), t.callId);
    }

    /** The start of a step: its messages are delivered, then it is opened. */
    method StartStep(p: RunProjection)
      requires Valid() && w.log != [] && w.place.Ready? && Project(w.log) == Some(p) && NeedsStep(cfg, p)
      requires |p.completed| < cfg.limits.maxSteps
      modifies this`history, this`w, store
      ensures Moved(old(w), old(history)) && StateOf(w).status.Running? && StateOf(w).HasOpenStep()
      ensures StateOf(w).CurrentAssistant().None? && !HasUncertain(StateOf(w)) && PendingIds(StateOf(w).inbox, NextStep) == []
      ensures w == Extend(old(w), Consumptions(PendingIds(p.inbox, NextStep)) + [StepStarted(p.turn, 1 + StepsOfTurn(p.completed, p.turn))], Ready)
    {
      hide Execute, Project, Invariant, WorldRank, Less, NextAction, Down, Consumed, NeedsStep, FindAssistant, StepsOfTurn, Accepts, PendingIds,
           HasUncertain;
      Reached();
      ghost var before := w;
      DeliversNext(cfg, w);
      NeedsStepFacts(cfg, p);
      ConsumeForStep();
      StillNeedsStep(cfg, p, StateOf(w));
      var q := ProjectNow();
      var number := 1 + StepsOfTurn(q.completed, q.turn);
      ghost var middle := w;
      Reached();
      NeedsStepFacts(cfg, q);
      StepIsNext(cfg, w);
      WriteNext(StepStarted(q.turn, number));
      if middle != before {
        LessDown(cfg, w, middle, before);
      }
      StepIsOpen(cfg, middle, w);
      ghost var consumed := Consumptions(PendingIds(p.inbox, NextStep));
      assert (before.log + consumed) + [StepStarted(q.turn, number)] == before.log + (consumed + [StepStarted(q.turn, number)]);
    }

    /** `_drive`. */
    method Drive() returns (died: bool)
      requires Valid() && w.log != [] && w.place.Ready?
      modifies this, store
      ensures Valid() && w.log != [] && w.place.Idle? && old(history) <= history && old(w).log <= w.log
      ensures Project(w.log).Some? && (!died ==> StateOf(w).status.IsTerminal() || StateOf(w).status.WaitingApproval?)
      ensures died ==> Died(old(w), old(history))
      ensures old(Lively()) ==> Lively() && (died ==> RanOut())
    {
      hide Execute, Project, Invariant, WorldRank, NextAction, Down, FindAssistant, HasUncertain, BudgetFailure, OnTools, KnowsTool, NeedsStep,
           SameStepAs, Accepts;
      while true
        invariant Valid() && w.log != [] && w.place.Ready? && old(history) <= history && old(w).log <= w.log
        invariant old(Lively()) ==> Lively()
        decreases WorldRank(cfg, w).active, WorldRank(cfg, w).steps, WorldRank(cfg, w).phase, WorldRank(cfg, w).talk,
                  WorldRank(cfg, w).calls, WorldRank(cfg, w).work, WorldRank(cfg, w).place
      {
        ghost var top, labels := w, history;
        var flow := Round();
        if flow.Gone? {
          Reached();
          return true;
        }
        if flow.Stop? {
          Rest();
          return false;
        }
        DownLowers(cfg, w, top);
      }
    }

    /** One iteration of the drive loop. */
    method Round() returns (flow: Flow)
      requires Valid() && w.log != [] && w.place.Ready?
      modifies this, store
      ensures flow.Again? || flow.Stop? || flow.Gone?
      ensures flow.Again? ==> Moved(old(w), old(history))
      ensures flow.Stop? ==> Valid() && w.log != [] && w.place.Ready? && Project(w.log).Some? && old(history) <= history && old(w).log <= w.log
                             && (StateOf(w).status.IsTerminal() || StateOf(w).status.WaitingApproval?)
      ensures flow.Gone? ==> Died(old(w), old(history))
      ensures old(Lively()) ==> Lively() && (flow.Gone? ==> RanOut())
    {
      hide Execute, Project, Invariant, WorldRank, Less, NextAction, Down, FindAssistant, HasUncertain, BudgetFailure, OnTools, KnowsTool, NeedsStep,
           SameStepAs, Accepts, PendingIds, ToolAction, StepsOfTurn, Enabled, Blank, EventDrivenAgentRuntime.Lively,
           EventDrivenAgentRuntime.RanOut;
      Reached();
      var p := ProjectNow();
      if p.status.IsTerminal() || p.status.WaitingApproval? {
        return Stop;
      }
      NextIs(cfg, w.log, p);
      ActIs(cfg, w);
      if p.status.Cancelling? {
        FinishCancellation(p, Act);
        return Stop;
      }
      var uncertain := UncertainMutationOf(p);
      if uncertain.Some? {
        FailUncertain(uncertain.value.callId, Act);
        return Stop;
      }
      flow := WorkOnRun(p);
    }

    /** The rest of an iteration of a running run: the end of a turn, or a step. */
    method WorkOnRun(p: RunProjection) returns (flow: Flow)
      requires Valid() && w.log != [] && w.place.Ready? && Project(w.log) == Some(p) && p.status.Running? && !HasUncertain(p)
      modifies this, store
      ensures flow.Again? || flow.Stop? || flow.Gone?
      ensures flow.Again? ==> Moved(old(w), old(history))
      ensures flow.Stop? ==> Valid() && w.log != [] && w.place.Ready? && Project(w.log).Some? && old(history) <= history && old(w).log <= w.log
                             && (StateOf(w).status.IsTerminal() || StateOf(w).status.WaitingApproval?)
      ensures flow.Gone? ==> Died(old(w), old(history))
      ensures old(Lively()) ==> Lively() && (flow.Gone? ==> RanOut())
    {
      hide Execute, Project, Invariant, WorldRank, Less, NextAction, Down, FindAssistant, HasUncertain, PendingIds, Blank,
           EventDrivenAgentRuntime.Lively, EventDrivenAgentRuntime.RanOut, EventDrivenAgentRuntime.Settled;
      ghost var before := w;
      var settled := SettleCompletedStep(p);
      if !settled.Onward? {
        return settled;
      }
      flow := OpenStep(p);
      if !flow.Onward? {
        return flow;
      }
      var q := ProjectNow();
      ghost var open := w;
      flow := WorkOnStep(q);
      if flow.Again? && open != before {
        LessDown(cfg, w, open, before);
      }
    }

    /** An iteration goes on in the open step, or starts one if the budget allows. */
    method OpenStep(p: RunProjection) returns (flow: Flow)
      requires Valid() && w.log != [] && w.place.Ready? && Project(w.log) == Some(p) && p.status.Running? && !HasUncertain(p)
      requires p.step.Some? && !p.HasOpenStep() ==> p.CurrentAssistant().Some? && p.CurrentAssistant().value.stop.ToolUse?
      modifies this`history, this`w, store
      ensures flow.Onward? || flow.Stop?
      ensures flow.Onward? ==>
                && (if p.HasOpenStep() then w == old(w) && history == old(history) else Moved(old(w), old(history)))
                && Valid() && w.log != [] && w.place.Ready? && Project(w.log).Some?
                && StateOf(w).status.Running? && StateOf(w).HasOpenStep() && !HasUncertain(StateOf(w))
      ensures flow.Stop? ==> Stopping(old(w), old(history)) && w == Extend(old(w), [RunFailed(StepBudget(cfg.limits.maxSteps))], Ready)
    {
      hide Execute, Project, Invariant, WorldRank, Less, NextAction, Down, FindAssistant, HasUncertain, BudgetFailure, NeedsStep, Accepts,
           PendingIds, ToolAction, StepsOfTurn, Enabled, Blank;
      if p.HasOpenStep() {
        return Onward;
      }
      Reached();
      NextIs(cfg, w.log, p);
      ActIs(cfg, w);
      if |p.completed| >= cfg.limits.maxSteps {
        Fail(StepBudget(cfg.limits.maxSteps), Act);
        return Stop;
      }
      NeedsStepIs(cfg, p);
      StartStep(p);
      return Onward;
    }

    /** The rest of an iteration, in an open step. */
    method WorkOnStep(p: RunProjection) returns (flow: Flow)
      requires Valid() && w.log != [] && w.place.Ready? && Project(w.log) == Some(p)
      requires p.status.Running? && p.HasOpenStep() && !HasUncertain(p)
      modifies this, store
      ensures flow.Again? || flow.Stop? || flow.Gone?
      ensures flow.Again? ==> Moved(old(w), old(history))
      ensures flow.Stop? ==> Stopping(old(w), old(history))
      ensures flow.Gone? ==> Died(old(w), old(history))
      ensures old(Lively()) ==> Lively() && (flow.Gone? ==> RanOut())
    {
      hide Execute, Project, Invariant, WorldRank, Less, NextAction, Down, FindAssistant, HasUncertain, BudgetFailure, OnTools, KnowsTool,
           SameStepAs, Accepts, EventDrivenAgentRuntime.Lively, EventDrivenAgentRuntime.RanOut;
      ghost var before := w;
      var q := p;
      if p.CurrentAssistant().None? {
        flow := GenerateResponse(p);
        if !flow.Onward? {
          return flow;
        }
        q := ProjectNow();
        SameToolsSameDoubt(p, q);
      }
      ghost var answered := w;
      flow := ActOnResponse(q);
      if answered != before && !flow.Gone? {
        LessDown(cfg, w, answered, before);
      }
    }

    /** Budgets, tools, and the end of the step. */
    method ActOnResponse(p: RunProjection) returns (flow: Flow)
      requires Valid() && w.log != [] && w.place.Ready? && Project(w.log) == Some(p)
      requires p.status.Running? && p.HasOpenStep() && p.CurrentAssistant().Some? && !HasUncertain(p)
      modifies this, store
      ensures flow.Again? || flow.Stop? || flow.Gone?
      ensures flow.Again? ==> Moved(old(w), old(history))
      ensures flow.Stop? ==> Stopping(old(w), old(history))
      ensures flow.Gone? ==> Died(old(w), old(history))
      ensures old(Lively()) ==> Lively() && (flow.Gone? ==> RanOut())
    {
      hide Execute, Project, Invariant, WorldRank, Less, NextAction, Down, FindAssistant, HasUncertain, BudgetFailure, KnowsTool, ToolAction,
           PendingIds, StepsOfTurn, Enabled, Accepts, EventDrivenAgentRuntime.Lively, EventDrivenAgentRuntime.RanOut;
      NextIs(cfg, w.log, p);
      ActIs(cfg, w);
      var budgetFailure := BudgetFailureOf(p);
      if budgetFailure.Some? {
        Fail(budgetFailure.value, Act);
        return Stop;
      }
      if p.CurrentAssistant().value.stop.ToolUse? {
        flow := UseTools(p, p.CurrentAssistant().value.toolCalls);
        return flow;
      }
      WriteNext(StepCompleted(p.turn, p.step.value));
      return Again;
    }

    method UseTools(p: RunProjection, calls: seq<ToolCall>) returns (flow: Flow)
      requires Valid() && w.log != [] && w.place.Ready? && Project(w.log) == Some(p) && OnTools(cfg, p, calls)
      modifies this, store
      ensures flow.Again? || flow.Stop? || flow.Gone?
      ensures flow.Again? ==> Moved(old(w), old(history))
      ensures flow.Stop? ==> Stopping(old(w), old(history))
      ensures flow.Gone? ==> Died(old(w), old(history))
      ensures old(Lively()) ==> Lively() && (flow.Gone? ==> RanOut())
    {
      hide Execute, Project, Invariant, WorldRank, Less, NextAction, Down, FindAssistant, OnTools, KnowsTool, SameStepAs, Accepts,
           EventDrivenAgentRuntime.Lively, EventDrivenAgentRuntime.RanOut;
      ghost var before := w;
      EnsureToolRequests(p, calls);
      ghost var requested := w;
      var q := ProjectNow();
      flow := ExecuteCurrentTools(q, calls);
      if flow.Onward? {
        ghost var executed := w;
        flow := CompleteStep(q);
        if flow.Again? && executed != requested && w != executed {
          LessDown(cfg, w, executed, requested);
        }
      }
      if requested != before && !flow.Gone? {
        LessDown(cfg, w, requested, before);
      }
    }

    /** After the tools: a cancelling run goes round again, a running one completes the step. */
    method CompleteStep(p: RunProjection) returns (flow: Flow)
      requires Valid() && w.log != [] && w.place.Ready? && Project(w.log).Some? && SameStepAs(p, StateOf(w)) && p.step.Some?
      requires StateOf(w).status.Running? ==> NextAction(cfg, w.log, StateOf(w)) == Write([StepCompleted(p.turn, p.step.value)])
      requires StateOf(w).status.Running? || StateOf(w).status.Cancelling?
      modifies this`history, this`w, store
      ensures flow.Again?
      ensures if StateOf(old(w)).status.Running? then Moved(old(w), old(history)) else Valid() && w == old(w) && history == old(history)
    {
      hide Execute, Project, Invariant, WorldRank, Less, NextAction, Down, SameStepAs, Accepts;
      var r := ProjectNow();
      if r.status.Running? {
        WriteNext(StepCompleted(p.turn, p.step.value));
      }
      return Again;
    }

    /* ------------------------------------------------------------ the entry points */

    /** `run`. */
    method Run(messages: seq<(Role, string)>) returns (r: Option<RunProjection>, died: bool)
      requires Valid() && w.place.Idle?
      modifies this, store
      ensures Valid() && w.place.Idle? && old(history) <= history
      ensures r.Some? <==> old(w).log == [] && forall i | 0 <= i < |messages| :: !BlankRole(messages[i].0)
      ensures r.None? ==> history == old(history) && w == old(w)
      ensures r.Some? ==> InitialBatch(messages) <= w.log && Project(w.log) == r
      ensures r.Some? && !died ==> r.value.status.IsTerminal() || r.value.status.WaitingApproval?
      ensures died ==> r.Some? && Died(old(w), old(history))
      ensures old(Lively()) ==> Lively() && (died ==> RanOut())
    {
      hide Execute, Project, Invariant, InitialBatch, WorldRank, Less, NextAction, Blank, PendingIds, HasUncertain, FindAssistant;
      Reached();
      var empty := IsEmpty();
      if !empty {
        return None, false;
      }
      var i := 0;
      while i < |messages|
        invariant 0 <= i <= |messages| && forall k | 0 <= k < i :: !BlankRole(messages[k].0)
      {
        if BlankRole(messages[i].0) {
          return None, false;
        }
        i := i + 1;
      }
      EmptyLogProjects();
      Store(InitialBatch(messages), Launch(messages));
      LaunchIsNotEmpty(messages);
      ghost var launched := w;
      died := Drive();
      var p := ProjectNow();
      r := Some(p);
    }

    /** `resume`. */
    method Resume() returns (r: Option<RunProjection>, died: bool)
      requires Valid() && w.place.Idle?
      modifies this, store
      ensures Valid() && w.place.Idle? && old(history) <= history && old(w).log <= w.log
      ensures r.Some? <==> old(w).log != []
      ensures r.Some? ==> Project(w.log) == r
      ensures r.Some? && !died ==> r.value.status.IsTerminal() || r.value.status.WaitingApproval?
      ensures died ==> r.Some? && Died(old(w), old(history))
      ensures old(Lively()) ==> Lively() && (died ==> RanOut())
      ensures r.Some? && Project(old(w).log).Some? && StateOf(old(w)).status.IsTerminal() ==> w == old(w) && history == old(history)
    {
      hide Execute, Project, Invariant;
      Reached();
      var empty := IsEmpty();
      if empty {
        return None, false;
      }
      var p := ProjectNow();
      if p.status.IsTerminal() {
        return Some(p), false;
      }
      Move(Label.Resume);
      died := Drive();
      p := ProjectNow();
      r := Some(p);
    }
  }

  lemma {:induction false} AcceptedLast(log: seq<Event>, e: Event)
    requires log != [] && Project(log).Some? && Project(log + [e]).Some?
    ensures Accepts(Project(log).value, false, e) && !Project(log).value.status.IsTerminal()
    ensures Project(log + [e]) == Some(Advance(Project(log).value, e))
  {
    hide Project, Advance;
    ProjectSnoc(log, e);
  }

  /** How one part of the drive loop leaves off: go on, go round again, stop at a finished or waiting run, or gone. */
  datatype Flow = Onward | Again | Stop | Gone

  lemma {:induction false} NothingAskedYet(callId: string)
    ensures !WasRequested([], callId) && FirstDecision([], callId).None? && LastDecision([], callId).None?
  {
  }

  lemma {:induction false} SameResponse(p: RunProjection, q: RunProjection, r: Response)
    requires SameWork(p, q) && p.step.Some?
    ensures q.step.Some? && ResponseEvent(q, r) == ResponseEvent(p, r)
  {
  }

  /** A run waits for an approval only while no driver is under way. */
  lemma {:induction false} WaitingIsIdle(cfg: Config, w: World)
    requires Invariant(cfg, w) && w.log != [] && Project(w.log).Some? && StateOf(w).status.WaitingApproval? && Suspended(w.place)
    ensures w.place.Idle?
  {
    hide WorldOk, Project;
    var base: nat, cursor: nat :| WorldOk(cfg, w, base, cursor);
    WaitingIsCertain(cfg, w, base, cursor);
  }

  /** No message of the run has the id. */
  predicate NewItem(p: RunProjection, id: string) {
    IndexOfItem(p.inbox, id) == |p.inbox|
  }

  lemma {:induction false} UsedIdRejected(log: seq<Event>, e: Event)
    requires Project(log).Some? && e.InboxSubmitted? && !NewItem(Project(log).value, e.messageId)
    ensures Project(log + [e]).None?
  {
    hide Project;
    ProjectSnoc(log, e);
  }

  lemma {:induction false} PendingFrom(inbox: seq<InboxItem>, i: nat, target: InboxTarget)
    requires i < |inbox|
    ensures PendingIds(inbox[i..], target)
         == (if !inbox[i].consumed && inbox[i].target == target then [inbox[i].messageId] else []) + PendingIds(inbox[i + 1..], target)
  {
    assert inbox[i..][1..] == inbox[i + 1..];
  }

  lemma {:induction false} NothingPending(inbox: seq<InboxItem>, target: InboxTarget)
    ensures PendingIds(inbox[|inbox|..], target) == []
  {
  }

  lemma {:induction false} ConsumedState(cfg: Config, w: World, target: InboxTarget)
    requires Invariant(cfg, w) && w.log != [] && w.place.Ready? && Project(w.log).Some?
    requires StateOf(w).status.Running? && !StateOf(w).HasOpenStep() && (target.NextStep? ==> AwaitsStep(StateOf(w)))
    ensures var after := Extend(w, Consumptions(PendingIds(StateOf(w).inbox, target)), Ready);
            Project(after.log).Some? && Consumed(StateOf(w), StateOf(after), target)
  {
    hide WorldOk, Project, PendingIds, Consumed;
    var base: nat, cursor: nat :| WorldOk(cfg, w, base, cursor);
    ConsumeAll(cfg, w, target, PendingIds(StateOf(w).inbox, target), base, cursor);
  }

  lemma {:induction false} CompletedHasResponse(cfg: Config, w: World)
    requires Invariant(cfg, w) && w.log != [] && Project(w.log).Some? && StateOf(w).step.Some? && !StateOf(w).HasOpenStep()
    ensures StateOf(w).CurrentAssistant().Some?
  {
    hide WorldOk, Project, FindAssistant;
    var base: nat, cursor: nat :| WorldOk(cfg, w, base, cursor);
    WorldParts(cfg, w, base, cursor);
  }

  lemma {:induction false} SecondHalfIs(cfg: Config, w: World)
    requires Project(w.log).Some? && (w.place.TurnOpened? || w.place.Rejecting? || w.place.Starting?)
    ensures Enabled(cfg, w, SecondHalf) && Perform(cfg, w, SecondHalf) == FinishAction(cfg, w)
  {
    hide Project, FinishAction;
  }

  lemma {:induction false} AsksNext(cfg: Config, w: World)
    requires Invariant(cfg, w) && w.log != [] && Project(w.log).Some?
    requires StateOf(w).status.Running? && StateOf(w).HasOpenStep() && StateOf(w).CurrentAssistant().None?
    ensures NextAction(cfg, w.log, StateOf(w)) == AskProvider
  {
    hide WorldOk, Project, NextAction, FindAssistant;
    var base: nat, cursor: nat :| WorldOk(cfg, w, base, cursor);
    NextAsks(cfg, w, base, cursor);
  }

  /** In a step the run is running or cancelling. */
  lemma {:induction false} StillRunning(cfg: Config, w: World)
    requires Invariant(cfg, w) && w.log != [] && Project(w.log).Some? && (w.place.InProvider? || w.place.InTool?)
    ensures StateOf(w).HasOpenStep() && (StateOf(w).status.Running? || StateOf(w).status.Cancelling?)
  {
    hide WorldOk, Project, FindAssistant;
    var base: nat, cursor: nat :| WorldOk(cfg, w, base, cursor);
    InStep(cfg, w, base, cursor);
  }

  lemma {:induction false} RespondedState(p: RunProjection, r: Response)
    requires p.HasOpenStep()
    ensures var q := Advance(p, ResponseEvent(p, r));
            q.CurrentAssistant().Some? && q.HasOpenStep() && q.tools == p.tools && q.status == p.status
  {
    var record := Advance(p, ResponseEvent(p, r)).assistants[|p.assistants|];
    AssistantSnoc(p.assistants, record, p.OpenKey());
  }

  /* ---------------------------------------------------------------- the tools of a step */

  /** Running in an open step with an affordable tool response and no unknown outcome. */
  predicate OnTools(cfg: Config, p: RunProjection, calls: seq<ToolCall>) {
    && p.status.Running? && p.HasOpenStep() && p.CurrentAssistant().Some?
    && p.CurrentAssistant().value.stop.ToolUse? && p.CurrentAssistant().value.toolCalls == calls
    && BudgetFailure(cfg.limits, p).None? && !HasUncertain(p)
  }

  /** The same open step with the same response. */
  predicate SameStepAs(p: RunProjection, q: RunProjection) {
    q.turn == p.turn && q.step == p.step && q.completed == p.completed && q.assistants == p.assistants
  }

  lemma {:induction false} ResponseDistinct(cfg: Config, w: World, calls: seq<ToolCall>)
    requires Invariant(cfg, w) && w.log != [] && Project(w.log).Some? && OnTools(cfg, StateOf(w), calls)
    ensures forall i, j | 0 <= i < j < |calls| :: calls[i].id != calls[j].id
  {
    hide WorldOk, Project, FindAssistant, UniqueTools, AllRequested, BudgetFailure, HasUncertain;
    var base: nat, cursor: nat :| WorldOk(cfg, w, base, cursor);
    WorldParts(cfg, w, base, cursor);
    forall i, j | 0 <= i < j < |calls| ensures calls[i].id != calls[j].id {
      ApartPlaces(calls, i, j);
    }
  }

  lemma {:induction false} FirstUnknownIs(calls: seq<ToolCall>, tools: seq<ToolRecord>, i: nat)
    requires i <= |calls| && (forall k | 0 <= k < i :: KnowsTool(tools, calls[k].id))
    requires i < |calls| ==> !KnowsTool(tools, calls[i].id)
    ensures FirstUnknown(calls, tools) == i
  {
    hide KnowsTool;
    FirstUnknownFirst(calls, tools);
  }

  lemma {:induction false} ToolsAreNext(cfg: Config, w: World, calls: seq<ToolCall>)
    requires Project(w.log).Some? && OnTools(cfg, StateOf(w), calls)
    ensures StateOf(w).HasOpenStep() && NextAction(cfg, w.log, StateOf(w)) == ToolAction(cfg, w.log, StateOf(w), calls)
  {
    hide Project, NextAction, ToolAction, HasUncertain, BudgetFailure, FindAssistant, PendingIds, StepsOfTurn;
    NextIs(cfg, w.log, StateOf(w));
  }

  lemma {:induction false} RequestIsNext(cfg: Config, w: World, calls: seq<ToolCall>, i: nat)
    requires Project(w.log).Some? && OnTools(cfg, StateOf(w), calls) && i < |calls|
    requires forall k | 0 <= k < i :: KnowsTool(StateOf(w).tools, calls[k].id)
    requires !KnowsTool(StateOf(w).tools, calls[i].id)
    ensures NextAction(cfg, w.log, StateOf(w)) == Write([RequestEvent(cfg, calls[i], i)])
  {
    hide Project, NextAction, OnTools, KnowsTool, SortByIndex, ToolsOfStep, RequestEvent, LaunchAction;
    ToolsAreNext(cfg, w, calls);
    FirstUnknownIs(calls, StateOf(w).tools, i);
  }

  /** A request makes its call known, and no other. */
  lemma {:induction false} RequestKnows(cfg: Config, p: RunProjection, calls: seq<ToolCall>, i: nat)
    requires OnTools(cfg, p, calls) && i < |calls|
    requires forall k, l | 0 <= k < l < |calls| :: calls[k].id != calls[l].id
    ensures var q := Advance(p, RequestEvent(cfg, calls[i], i));
            && OnTools(cfg, q, calls) && SameStepAs(p, q)
            && (forall k | 0 <= k < |calls| :: KnowsTool(q.tools, calls[k].id) <==> KnowsTool(p.tools, calls[k].id) || k == i)
  {
    hide FindAssistant, BudgetFailure, ToolEffect;
    var q := Advance(p, RequestEvent(cfg, calls[i], i));
    var t := q.tools[|p.tools|];
    SameBudgetOf(cfg, p, q);
    UncertainSnoc(p.tools, t);
    forall k | 0 <= k < |calls| ensures KnowsTool(q.tools, calls[k].id) <==> KnowsTool(p.tools, calls[k].id) || k == i {
      KnowsSnoc(p.tools, t, calls[k].id);
    }
  }

  lemma {:induction false} SameBudgetOf(cfg: Config, p: RunProjection, q: RunProjection)
    requires p.assistants == q.assistants
    ensures BudgetFailure(cfg.limits, p) == BudgetFailure(cfg.limits, q)
  {
  }

  lemma {:induction false} KnowsSnoc(tools: seq<ToolRecord>, t: ToolRecord, id: string)
    ensures KnowsTool(tools + [t], id) <==> KnowsTool(tools, id) || t.callId == id
  {
    assert (tools + [t])[|tools|] == t;
    if KnowsTool(tools, id) {
      var i :| 0 <= i < |tools| && tools[i].callId == id;
      assert (tools + [t])[i].callId == id;
    }
  }

  lemma {:induction false} UncertainSnoc(tools: seq<ToolRecord>, t: ToolRecord)
    requires UncertainIndex(tools) == |tools| && !IsUncertain(t)
    ensures UncertainIndex(tools + [t]) == |tools + [t]|
  {
    UncertainIndexFirst(tools);
    UncertainIndexFirst(tools + [t]);
    assert forall i | 0 <= i < |tools| :: (tools + [t])[i] == tools[i];
    assert (tools + [t])[|tools|] == t;
  }

  /** Passing a call to the executor stores nothing. */
  lemma {:induction false} StartedStores(cfg: Config, w: World)
    requires Project(w.log).Some? && w.place.Starting?
    ensures var gate := RunGate(cfg.pipeline, w.place.call, LookUpApproval(w.log, StateOf(w), w.place.call));
            FinishAction(cfg, w).log == w.log && FinishAction(cfg, w).place == InTool(w.place.call, gate)
  {
    hide Project, RunGate, LookUpApproval;
  }

  /** The tool with this id is finished, and nothing else of the step has changed. */
  predicate FinishedTool(p: RunProjection, q: RunProjection, id: string) {
    var i := IndexOfTool(p.tools, id);
    && i < |p.tools| && SameStepAs(p, q)
    && (q.tools == p.tools[i := p.tools[i].(state := Succeeded)] || q.tools == p.tools[i := p.tools[i].(state := Errored)])
  }

  lemma {:induction false} ToolIsFinished(p: RunProjection, e: Event)
    requires (e.ToolCompleted? || e.ToolFailed?) && Accepts(p, false, e)
    ensures FinishedTool(p, Advance(p, e), e.callId) && Advance(p, e).status == p.status
  {
    CursorShape(p, IndexOfTool(p.tools, e.callId), e);
  }

  /* ---------------------------------------------------------------- the loop over the tools */

  lemma {:induction false} LessDown(cfg: Config, a: World, b: World, c: World)
    requires Down(cfg, b, a) && Down(cfg, c, b)
    ensures Down(cfg, c, a)
  {
    hide Less, WorldRank;
    LessTransitive(WorldRank(cfg, a), WorldRank(cfg, b), WorldRank(cfg, c));
  }

  /** The record is the projection's own, and carries the effect of its call. */
  predicate ToolStands(cfg: Config, p: RunProjection, t: ToolRecord) {
    var i := IndexOfTool(p.tools, t.callId);
    i < |p.tools| && p.tools[i] == t && !t.IsDone() && t.effect == ToolEffect(cfg.pipeline, CallOf(t))
  }

  /** The tool with this id has been started at most, and nothing else has changed. */
  predicate StartedAt(p: RunProjection, q: RunProjection, id: string) {
    var i := IndexOfTool(p.tools, id);
    && i < |p.tools| && SameStepAs(p, q) && IndexOfTool(q.tools, id) == i
    && (q.tools == p.tools || q.tools == p.tools[i := p.tools[i].(state := Started)])
  }

  lemma {:induction false} StartedTool(p: RunProjection, q: RunProjection, id: string)
    requires IndexOfTool(p.tools, id) < |p.tools| && (q == p || q == Advance(p, ToolStarted(id)))
    ensures StartedAt(p, q, id) && q.status == p.status
  {
    if q != p {
      var i := IndexOfTool(p.tools, id);
      CursorShape(p, i, ToolStarted(id));
      IndexOfToolFirst(p.tools, id);
      IndexUnderUpdate(p.tools, i, q.tools[i], id);
    }
  }

  /** The tool with this id has come to its end, and nothing else has changed. */
  predicate HandledAt(p: RunProjection, q: RunProjection, id: string) {
    var i := IndexOfTool(p.tools, id);
    && i < |p.tools| == |q.tools| && SameStepAs(p, q)
    && q.tools[i].IsDone() && q.tools[i].callId == p.tools[i].callId && q.tools[i].key == p.tools[i].key
    && forall k | 0 <= k < |p.tools| && k != i :: q.tools[k] == p.tools[k]
  }

  lemma {:induction false} ThenFinished(p: RunProjection, q: RunProjection, r: RunProjection, id: string)
    requires StartedAt(p, q, id) && FinishedTool(q, r, id)
    ensures HandledAt(p, r, id)
  {
  }

  /** The first `i` tools of the step have been handled since the loop began at `p`; the others are as they were. */
  predicate ToolsSoFar(p: RunProjection, q: RunProjection, base: nat, i: nat) {
    && SameStepAs(p, q) && base + i <= |p.tools| == |q.tools|
    && (forall k | 0 <= k < |p.tools| :: q.tools[k].callId == p.tools[k].callId && q.tools[k].key == p.tools[k].key)
    && (forall k | base + i <= k < |p.tools| :: q.tools[k] == p.tools[k])
    && (forall k | 0 <= k < base + i :: q.tools[k].IsDone())
  }

  lemma {:induction false} SkipDone(p: RunProjection, q: RunProjection, base: nat, i: nat)
    requires ToolsSoFar(p, q, base, i) && base + i < |p.tools| && p.tools[base + i].IsDone()
    ensures ToolsSoFar(p, q, base, i + 1)
  {
  }

  lemma {:induction false} OneMoreDone(p: RunProjection, q: RunProjection, r: RunProjection, base: nat, i: nat)
    requires ToolsSoFar(p, q, base, i) && base + i < |p.tools|
    requires IndexOfTool(q.tools, p.tools[base + i].callId) == base + i && HandledAt(q, r, p.tools[base + i].callId)
    ensures ToolsSoFar(p, r, base, i + 1)
  {
  }

  lemma {:induction false} SoFarSame(p: RunProjection, q: RunProjection, base: nat, i: nat)
    requires ToolsSoFar(p, q, base, i)
    ensures SameStepAs(p, q)
  {
  }

  lemma {:induction false} OnToolsFacts(cfg: Config, p: RunProjection, calls: seq<ToolCall>)
    requires OnTools(cfg, p, calls)
    ensures p.status.Running? && p.HasOpenStep() && p.step.Some?
  {
    hide FindAssistant, BudgetFailure, HasUncertain;
  }

  lemma {:induction false} StandsFacts(cfg: Config, p: RunProjection, t: ToolRecord)
    requires ToolStands(cfg, p, t)
    ensures IndexOfTool(p.tools, t.callId) < |p.tools| && t.effect == ToolEffect(cfg.pipeline, CallOf(t))
    ensures t.state.Requested? || t.state.Started?
  {
    hide ToolEffect;
  }

  lemma {:induction false} ToolListAt(cfg: Config, p: RunProjection, base: nat, cursor: nat)
    requires ToolsOk(cfg, p, base, cursor) && p.HasOpenStep()
    ensures SplitAt(p, base) && ToolsSoFar(p, p, base, 0)
  {
    hide FindAssistant, RequestsOk, UniqueTools, AllRequested;
  }

  /** Where the step's tools begin. */
  lemma {:induction false} ToolListStarts(cfg: Config, w: World, calls: seq<ToolCall>) returns (base: nat)
    requires Invariant(cfg, w) && w.log != [] && Project(w.log).Some? && OnTools(cfg, StateOf(w), calls)
    ensures var p := StateOf(w);
            && base <= |p.tools| && SortByIndex(ToolsOfStep(p.tools, p.OpenKey())) == p.tools[base..]
            && SplitAt(p, base) && ToolsSoFar(p, p, base, 0)
  {
    hide WorldOk, Project, FindAssistant, HasUncertain, BudgetFailure, ToolsOk, SplitAt, ToolsSoFar, SortByIndex, ToolsOfStep;
    var cursor: nat;
    base, cursor :| WorldOk(cfg, w, base, cursor);
    WorldParts(cfg, w, base, cursor);
    ToolsInOrder(cfg, StateOf(w), base, cursor);
    ToolListAt(cfg, StateOf(w), base, cursor);
  }

  /** The loop stands where the invariant's cursor stands. */
  lemma {:induction false} LoopCursor(cfg: Config, w: World, p: RunProjection, base: nat, i: nat)
    requires Invariant(cfg, w) && w.log != [] && Project(w.log).Some? && StateOf(w).HasOpenStep()
    requires SplitAt(p, base) && ToolsSoFar(p, StateOf(w), base, i)
    requires base + i < |p.tools| ==> !p.tools[base + i].IsDone()
    ensures Sound(cfg, w, base, base + i) && ToolsOk(cfg, StateOf(w), base, base + i)
  {
    hide WorldOk, Project, FindAssistant, RequestsOk, UniqueTools, AllRequested;
    var q := StateOf(w);
    var b: nat, c: nat :| WorldOk(cfg, w, b, c);
    WorldParts(cfg, w, b, c);
    OneSplit(q, b, base);
    OneFrontier(q.tools, c, base + i);
  }

  lemma {:induction false} AllAsked(cfg: Config, p: RunProjection, base: nat, cursor: nat, calls: seq<ToolCall>)
    requires ToolsOk(cfg, p, base, cursor) && p.HasOpenStep() && p.CurrentAssistant().Some?
    requires p.CurrentAssistant().value.toolCalls == calls && forall k | 0 <= k < |calls| :: KnowsTool(p.tools, calls[k].id)
    ensures AllRequested(p, base)
  {
    hide FindAssistant, KnowsTool, UniqueTools;
    NextRequest(cfg, p, base, calls);
    FirstUnknownIs(calls, p.tools, |calls|);
    FreshCallsAre(calls, p.tools[..base]);
  }

  lemma {:induction false} StillKnown(p: RunProjection, q: RunProjection, base: nat, i: nat, calls: seq<ToolCall>)
    requires ToolsSoFar(p, q, base, i) && forall k | 0 <= k < |calls| :: KnowsTool(p.tools, calls[k].id)
    ensures forall k | 0 <= k < |calls| :: KnowsTool(q.tools, calls[k].id)
  {
    forall k | 0 <= k < |calls| ensures KnowsTool(q.tools, calls[k].id) {
      var j :| 0 <= j < |p.tools| && p.tools[j].callId == calls[k].id;
      assert q.tools[j].callId == calls[k].id;
    }
  }

  /** What the loop does next is what the log calls for. */
  lemma {:induction false} ToolIsNext(cfg: Config, w: World, p: RunProjection, calls: seq<ToolCall>, base: nat, i: nat)
    requires Invariant(cfg, w) && w.log != [] && Project(w.log).Some? && StateOf(w).status.Running?
    requires OnTools(cfg, p, calls) && (forall k | 0 <= k < |calls| :: KnowsTool(p.tools, calls[k].id))
    requires SplitAt(p, base) && ToolsSoFar(p, StateOf(w), base, i) && base + i < |p.tools| && !p.tools[base + i].IsDone()
    ensures var t := p.tools[base + i];
            && ToolStands(cfg, StateOf(w), t) && IndexOfTool(StateOf(w).tools, t.callId) == base + i
            && NextAction(cfg, w.log, StateOf(w))
               == if t.state.Started? then RunTool(CallOf(t)) else LaunchAction(cfg, w.log, CallOf(t), t.effect)
  {
    hide Invariant, Sound, Project, FindAssistant, ToolsOk, KnowsTool, LaunchAction, ToolAction, NextAction, BudgetFailure, AllRequested, ToolEffect;
    var q, t := StateOf(w), p.tools[base + i];
    LoopCursor(cfg, w, p, base, i);
    StillKnown(p, q, base, i, calls);
    AllAsked(cfg, q, base, base + i, calls);
    CursorUnique(cfg, w, base, base + i);
    EffectsAt(cfg, w, base, base + i);
    SameBudgetOf(cfg, p, q);
    UncertainIndexFirst(p.tools);
    UncertainAtCursor(cfg, q, base, base + i);
    ToolsAreNext(cfg, w, calls);
    NextToolAction(cfg, w.log, q, base, base + i);
  }

  lemma {:induction false} EffectsAt(cfg: Config, w: World, base: nat, cursor: nat)
    requires Sound(cfg, w, base, cursor) && cursor < |StateOf(w).tools|
    ensures StateOf(w).tools[cursor].effect == ToolEffect(cfg.pipeline, CallOf(StateOf(w).tools[cursor]))
  {
    hide WorldOk, Project, ToolEffect;
    EffectAtCursor(cfg, w, base, cursor);
  }

  /** When every tool is handled, the step is completed next. */
  lemma {:induction false} StepIsDone(cfg: Config, w: World, p: RunProjection, calls: seq<ToolCall>, base: nat, i: nat)
    requires Invariant(cfg, w) && w.log != [] && Project(w.log).Some? && StateOf(w).status.Running?
    requires OnTools(cfg, p, calls) && (forall k | 0 <= k < |calls| :: KnowsTool(p.tools, calls[k].id))
    requires SplitAt(p, base) && ToolsSoFar(p, StateOf(w), base, i) && base + i == |p.tools|
    ensures NextAction(cfg, w.log, StateOf(w)) == Write([StepCompleted(p.turn, p.step.value)])
  {
    hide Invariant, Sound, Project, FindAssistant, ToolsOk, KnowsTool, LaunchAction, ToolAction, NextAction, BudgetFailure, AllRequested, ToolEffect;
    var q := StateOf(w);
    LoopCursor(cfg, w, p, base, i);
    StillKnown(p, q, base, i, calls);
    AllAsked(cfg, q, base, base + i, calls);
    SameBudgetOf(cfg, p, q);
    UncertainAtCursor(cfg, q, base, base + i);
    ToolsAreNext(cfg, w, calls);
    NextToolAction(cfg, w.log, q, base, base + i);
  }

  /* ---------------------------------------------------------------- rounds of the drive loop */

  lemma {:induction false} DownLowers(cfg: Config, w: World, top: World)
    requires Down(cfg, top, w)
    ensures Less(WorldRank(cfg, w), WorldRank(cfg, top))
  {
    hide Less, WorldRank;
  }

  lemma {:induction false} EmptyLogProjects()
    ensures Project([]) == Some(INITIAL)
  {
  }

  lemma {:induction false} LaunchIsNotEmpty(messages: seq<(Role, string)>)
    ensures InitialBatch(messages) != []
  {
  }

  /** Between steps of a turn that goes on. */
  predicate NeedsStep(cfg: Config, p: RunProjection) {
    p.status.Running? && AwaitsStep(p) && !HasUncertain(p)
  }

  lemma {:induction false} NeedsStepIs(cfg: Config, p: RunProjection)
    requires p.status.Running? && !p.HasOpenStep() && !HasUncertain(p)
    requires p.step.Some? ==> p.CurrentAssistant().Some? && p.CurrentAssistant().value.stop.ToolUse?
    ensures NeedsStep(cfg, p)
  {
    hide HasUncertain, FindAssistant;
  }

  lemma {:induction false} NeedsStepFacts(cfg: Config, p: RunProjection)
    requires NeedsStep(cfg, p)
    ensures p.status.Running? && !p.HasOpenStep() && AwaitsStep(p)
  {
    hide HasUncertain, FindAssistant;
  }

  lemma {:induction false} StillNeedsStep(cfg: Config, p: RunProjection, q: RunProjection)
    requires NeedsStep(cfg, p) && Consumed(p, q, NextStep)
    ensures NeedsStep(cfg, q) && PendingIds(q.inbox, NextStep) == [] && q.completed == p.completed && q.turn == p.turn
  {
    hide FindAssistant, PendingIds;
  }

  lemma {:induction false} DeliversNext(cfg: Config, w: World)
    requires Project(w.log).Some? && NeedsStep(cfg, StateOf(w)) && |StateOf(w).completed| < cfg.limits.maxSteps
    ensures PendingIds(StateOf(w).inbox, NextStep) != [] ==>
              NextAction(cfg, w.log, StateOf(w)) == Write(Consumptions(PendingIds(StateOf(w).inbox, NextStep)))
  {
    hide Project, NextAction, HasUncertain, FindAssistant, PendingIds, StepsOfTurn, ToolAction, BudgetFailure;
    NextIs(cfg, w.log, StateOf(w));
  }

  lemma {:induction false} StepIsNext(cfg: Config, w: World)
    requires Project(w.log).Some? && NeedsStep(cfg, StateOf(w)) && |StateOf(w).completed| < cfg.limits.maxSteps
    requires PendingIds(StateOf(w).inbox, NextStep) == []
    ensures NextAction(cfg, w.log, StateOf(w)) == Write([StepStarted(StateOf(w).turn, 1 + StepsOfTurn(StateOf(w).completed, StateOf(w).turn))])
  {
    hide Project, NextAction, HasUncertain, FindAssistant, PendingIds, StepsOfTurn, ToolAction, BudgetFailure;
    NextIs(cfg, w.log, StateOf(w));
  }

  lemma {:induction false} StepIsOpen(cfg: Config, w: World, after: World)
    requires Invariant(cfg, w) && w.log != [] && Project(w.log).Some? && NeedsStep(cfg, StateOf(w)) && Project(after.log).Some?
    requires StateOf(after) == StateOf(w).(step := Some(1 + StepsOfTurn(StateOf(w).completed, StateOf(w).turn)))
    ensures StateOf(after).HasOpenStep() && StateOf(after).CurrentAssistant().None? && !HasUncertain(StateOf(after))
  {
    hide WorldOk, Project, StepsOk, AssistantsOk, FindAssistant, StepsOfTurn;
    var base: nat, cursor: nat :| WorldOk(cfg, w, base, cursor);
    WorldParts(cfg, w, base, cursor);
    StepFresh(StateOf(w), StateOf(after));
  }

  lemma {:induction false} SameToolsSameDoubt(p: RunProjection, q: RunProjection)
    requires p.tools == q.tools
    ensures HasUncertain(p) == HasUncertain(q)
  {
  }
}
