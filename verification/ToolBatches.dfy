/** Concurrent batches on one tool executor: reading batches share a bounded number of permits, a batch with a mutating call
    runs its calls one by one, and mutating calls hold the lock of their lane. */
module ToolBatches {
  import opened Events
  import opened ToolPipeline

  datatype Lane = OfTool(name: string) | OfService(text: string)

  /** `argument` is the text of a named argument of a call. */
  datatype Executor = Executor(pipeline: Pipeline, argument: (ToolCall, string) -> string, maxReadConcurrency: nat) {
    predicate Valid() {
      pipeline.Valid() && maxReadConcurrency >= 1
    }

    /** `_lane_for`, for a call whose tool is known. */
    function LaneOf(call: ToolCall): Option<Lane> {
      if call.name !in pipeline.registry || pipeline.registry[call.name].effect.Read? then None
      else if pipeline.registry[call.name].laneArgument.None? then Some(OfTool(pipeline.registry[call.name].name))
      else Some(OfService(argument(call, pipeline.registry[call.name].laneArgument.value)))
    }

    /** What `execute` rejects before it comes to the lane. */
    function EarlyError(call: ToolCall): Option<Content> {
      if call.name !in pipeline.registry then Some(ErrorObject(UnknownTool, call.name))
      else ArgumentError(pipeline, pipeline.registry[call.name], call)
    }

    predicate Mutates(calls: seq<ToolCall>) {
      exists k | 0 <= k < |calls| :: ToolEffect(pipeline, calls[k]).Mutate?
    }
  }

  /** Where a call is: not begun, inside `execute` but without its lane, with its lane up to the end of its handler, answered. */
  datatype Phase = Waiting | Entered | Handling | Done(observation: Observation)

  datatype Batch = Batch(calls: seq<ToolCall>, phases: seq<Phase>, permits: int)

  /** `locks` names the batch and the place of the call that holds a lane. */
  datatype State = State(batches: seq<Batch>, locks: map<Lane, (nat, nat)>)

  const IDLE := State([], map[])

  datatype Label =
    | Submit(calls: seq<ToolCall>)
    | Begin(b: nat, i: nat)
    | Reject(b: nat, i: nat)
    | Lock(b: nat, i: nat)
    | Finish(b: nat, i: nat, observation: Observation)

  function Fresh(n: nat): (r: seq<Phase>)
    ensures |r| == n && forall i | 0 <= i < n :: r[i].Waiting?
  {
    if n == 0 then [] else Fresh(n - 1) + [Waiting]
  }

  predicate Has(s: State, b: nat, i: nat) {
    b < |s.batches| && i < |s.batches[b].phases| && |s.batches[b].phases| == |s.batches[b].calls|
  }

  predicate Enabled(x: Executor, s: State, l: Label) {
    match l
    case Submit(_) => true
    case Begin(b, i) =>
      && Has(s, b, i) && s.batches[b].phases[i].Waiting?
      && if x.Mutates(s.batches[b].calls) then forall j | 0 <= j < i :: s.batches[b].phases[j].Done? else s.batches[b].permits > 0
    case Reject(b, i) => Has(s, b, i) && s.batches[b].phases[i].Entered? && x.EarlyError(s.batches[b].calls[i]).Some?
    case Lock(b, i) =>
      && Has(s, b, i) && s.batches[b].phases[i].Entered? && x.EarlyError(s.batches[b].calls[i]).None?
      && (x.LaneOf(s.batches[b].calls[i]).Some? ==> x.LaneOf(s.batches[b].calls[i]).value !in s.locks)
    case Finish(b, i, _) => Has(s, b, i) && s.batches[b].phases[i].Handling?
  }

  function Move(s: State, b: nat, i: nat, phase: Phase, permits: int): State
    requires Has(s, b, i)
  {
    var batch := s.batches[b];
    s.(batches := s.batches[b := Batch(batch.calls, batch.phases[i := phase], batch.permits + permits)])
  }

  function Perform(x: Executor, s: State, l: Label): State
    requires Enabled(x, s, l)
  {
    match l
    case Submit(calls) => s.(batches := s.batches + [Batch(calls, Fresh(|calls|), x.maxReadConcurrency)])
    case Begin(b, i) => Move(s, b, i, Entered, -1)
    case Reject(b, i) => Move(s, b, i, Done(Observation(x.EarlyError(s.batches[b].calls[i]).value, true)), 1)
    case Lock(b, i) =>
      var lane := x.LaneOf(s.batches[b].calls[i]);
      Move(s, b, i, Handling, 0).(locks := if lane.None? then s.locks else s.locks[lane.value := (b, i)])
    case Finish(b, i, o) =>
      var lane := x.LaneOf(s.batches[b].calls[i]);
      Move(s, b, i, Done(o), 1).(locks := if lane.None? then s.locks else s.locks - {lane.value})
  }

  /** The state that a run leads to; None when some label is not enabled. */
  function Execute(x: Executor, run: seq<Label>): Option<State> {
    if run == [] then Some(IDLE)
    else
      var before := Execute(x, run[..|run| - 1]);
      if before.Some? && Enabled(x, before.value, run[|run| - 1]) then Some(Perform(x, before.value, run[|run| - 1])) else None
  }

  /* ---------------------------------------------------------------- the invariant */

  predicate IsActive(phase: Phase) {
    phase.Entered? || phase.Handling?
  }

  /** How many calls are inside `execute`. */
  function Active(phases: seq<Phase>): nat {
    if phases == [] then 0 else Active(phases[..|phases| - 1]) + (if IsActive(phases[|phases| - 1]) then 1 else 0)
  }

  /** The calls of a batch begin in order, each when all before it are answered. */
  predicate OneByOne(phases: seq<Phase>) {
    forall j, k | 0 <= j < k < |phases| && !phases[k].Waiting? :: phases[j].Done?
  }

  predicate BatchOk(x: Executor, batch: Batch) {
    && |batch.phases| == |batch.calls| && batch.permits + Active(batch.phases) == x.maxReadConcurrency
    && (if x.Mutates(batch.calls) then OneByOne(batch.phases) else batch.permits >= 0)
  }

  predicate Holds(x: Executor, s: State, lane: Lane, b: nat, i: nat) {
    Has(s, b, i) && s.batches[b].phases[i].Handling? && x.LaneOf(s.batches[b].calls[i]) == Some(lane)
  }

  /** A lane is locked exactly by the running call that needs it. */
  ghost predicate LocksOk(x: Executor, s: State) {
    && (forall lane | lane in s.locks :: Holds(x, s, lane, s.locks[lane].0, s.locks[lane].1))
    && (forall lane, b: nat, i: nat | Holds(x, s, lane, b, i) :: lane in s.locks && s.locks[lane] == (b, i))
  }

  ghost predicate Invariant(x: Executor, s: State) {
    (forall b | 0 <= b < |s.batches| :: BatchOk(x, s.batches[b])) && LocksOk(x, s)
  }

  lemma {:induction false} ActiveUpdate(phases: seq<Phase>, i: nat, phase: Phase)
    requires i < |phases|
    ensures Active(phases[i := phase])
         == Active(phases) - (if IsActive(phases[i]) then 1 else 0) + (if IsActive(phase) then 1 else 0)
  {
    var front, after := phases[..|phases| - 1], phases[i := phase];
    if i < |phases| - 1 {
      ActiveUpdate(front, i, phase);
      assert after[..|after| - 1] == front[i := phase];
    } else {
      assert after[..|after| - 1] == front;
    }
  }

  lemma {:induction false} NoneActive(phases: seq<Phase>)
    requires forall i | 0 <= i < |phases| :: !IsActive(phases[i])
    ensures Active(phases) == 0
  {
    if phases != [] {
      NoneActive(phases[..|phases| - 1]);
    }
  }

  /** One call of a batch moves on. */
  lemma {:induction false} MoveKeeps(x: Executor, s: State, b: nat, i: nat, phase: Phase, permits: int)
    requires Invariant(x, s) && Has(s, b, i) && !phase.Waiting?
    requires permits == (if IsActive(s.batches[b].phases[i]) then 1 else 0) - (if IsActive(phase) then 1 else 0)
    requires if x.Mutates(s.batches[b].calls) then forall j | 0 <= j < i :: s.batches[b].phases[j].Done? else s.batches[b].permits + permits >= 0
    requires s.batches[b].phases[i].Done? ==> phase.Done?
    ensures forall c | 0 <= c < |s.batches| :: BatchOk(x, Move(s, b, i, phase, permits).batches[c])
  {
    hide Active, LocksOk, Executor.Mutates;
    var batch := s.batches[b];
    assert BatchOk(x, batch);
    ActiveUpdate(batch.phases, i, phase);
    if x.Mutates(batch.calls) {
      var after := batch.phases[i := phase];
      forall j, k | 0 <= j < k < |after| && !after[k].Waiting? ensures after[j].Done? {
        if k != i {
          assert batch.phases[j].Done?;
        }
      }
    }
  }

  /** Calls that have begun in a batch with a mutating call come after answered ones only. */
  lemma {:induction false} BegunInOrder(x: Executor, s: State, b: nat, i: nat)
    requires Invariant(x, s) && Has(s, b, i) && !s.batches[b].phases[i].Waiting?
    ensures x.Mutates(s.batches[b].calls) ==> forall j | 0 <= j < i :: s.batches[b].phases[j].Done?
    ensures !x.Mutates(s.batches[b].calls) ==> s.batches[b].permits >= 0
  {
    hide Active, LocksOk, Executor.Mutates;
    assert BatchOk(x, s.batches[b]);
  }

  lemma {:induction false} BatchesKept(x: Executor, s: State, l: Label)
    requires x.Valid() && Invariant(x, s) && Enabled(x, s, l)
    ensures forall c | 0 <= c < |Perform(x, s, l).batches| :: BatchOk(x, Perform(x, s, l).batches[c])
  {
    hide Active, LocksOk, Executor.Mutates, Executor.EarlyError, Executor.LaneOf, BatchOk, Invariant;
    match l
    case Submit(calls) => FreshBatch(x, calls); OldBatches(x, s);
    case Begin(b, i) => MoveKeeps(x, s, b, i, Entered, -1);
    case Reject(b, i) =>
      BegunInOrder(x, s, b, i);
      MoveKeeps(x, s, b, i, Done(Observation(x.EarlyError(s.batches[b].calls[i]).value, true)), 1);
    case Lock(b, i) =>
      BegunInOrder(x, s, b, i);
      MoveKeeps(x, s, b, i, Handling, 0);
    case Finish(b, i, o) =>
      BegunInOrder(x, s, b, i);
      MoveKeeps(x, s, b, i, Done(o), 1);
  }

  lemma {:induction false} OldBatches(x: Executor, s: State)
    requires Invariant(x, s)
    ensures forall b | 0 <= b < |s.batches| :: BatchOk(x, s.batches[b])
  {
  }

  lemma {:induction false} FreshBatch(x: Executor, calls: seq<ToolCall>)
    ensures BatchOk(x, Batch(calls, Fresh(|calls|), x.maxReadConcurrency))
  {
    NoneActive(Fresh(|calls|));
  }

  /** A call that is neither running before nor after a move holds no lane; every other call keeps its lane. */
  lemma {:induction false} OthersHold(x: Executor, s: State, t: State, b: nat, i: nat)
    requires Has(s, b, i) && |t.batches| == |s.batches| && (forall c | 0 <= c < |s.batches| && c != b :: t.batches[c] == s.batches[c])
    requires t.batches[b].calls == s.batches[b].calls && |t.batches[b].phases| == |s.batches[b].phases|
    requires forall j | 0 <= j < |s.batches[b].phases| && j != i :: t.batches[b].phases[j] == s.batches[b].phases[j]
    ensures forall lane, c: nat, j: nat | (c, j) != (b, i) :: Holds(x, t, lane, c, j) <==> Holds(x, s, lane, c, j)
  {
    hide Executor.LaneOf;
  }

  lemma {:induction false} LocksKept(x: Executor, s: State, l: Label)
    requires LocksOk(x, s) && Enabled(x, s, l)
    ensures LocksOk(x, Perform(x, s, l))
  {
    hide Executor.Mutates, Executor.EarlyError, Executor.LaneOf;
    var t := Perform(x, s, l);
    if l.Submit? {
      forall lane, b: nat, i: nat | Holds(x, t, lane, b, i) ensures Holds(x, s, lane, b, i) {
        assert b < |s.batches|;
      }
      assert forall lane, b: nat, i: nat | Holds(x, s, lane, b, i) :: Holds(x, t, lane, b, i);
    } else {
      OthersHold(x, s, t, l.b, l.i);
      LocksMove(x, s, t, l.b, l.i, x.LaneOf(s.batches[l.b].calls[l.i]), l);
    }
  }

  /** What one move does to the locks. */
  lemma {:induction false} LocksMove(x: Executor, s: State, t: State, b: nat, i: nat, lane: Option<Lane>, l: Label)
    requires LocksOk(x, s) && Has(s, b, i) && Has(t, b, i) && s.batches[b].calls == t.batches[b].calls
    requires lane == x.LaneOf(s.batches[b].calls[i]) && !l.Submit?
    requires s.batches[b].phases[i].Handling? <==> l.Finish?
    requires t.batches[b].phases[i].Handling? <==> l.Lock?
    requires forall m, c: nat, j: nat | (c, j) != (b, i) :: Holds(x, t, m, c, j) <==> Holds(x, s, m, c, j)
    requires t.locks == if lane.None? || l.Begin? || l.Reject? then s.locks
                        else if l.Lock? then s.locks[lane.value := (b, i)] else s.locks - {lane.value}
    requires l.Lock? && lane.Some? ==> lane.value !in s.locks
    ensures LocksOk(x, t)
  {
    hide Executor.LaneOf;
    assert forall m :: Holds(x, s, m, b, i) <==> l.Finish? && lane == Some(m);
    assert forall m :: Holds(x, t, m, b, i) <==> l.Lock? && lane == Some(m);
    forall m | m in t.locks ensures Holds(x, t, m, t.locks[m].0, t.locks[m].1) {
      if m in s.locks && t.locks[m] == s.locks[m] {
        assert Holds(x, s, m, s.locks[m].0, s.locks[m].1);
      }
    }
    forall m, c: nat, j: nat | Holds(x, t, m, c, j) ensures m in t.locks && t.locks[m] == (c, j) {
      if (c, j) != (b, i) {
        assert Holds(x, s, m, c, j);
      }
    }
  }

  lemma {:induction false} Kept(x: Executor, run: seq<Label>)
    requires x.Valid() && Execute(x, run).Some?
    ensures Invariant(x, Execute(x, run).value)
  {
    hide BatchOk, LocksOk, Enabled, Perform;
    if run != [] {
      Kept(x, run[..|run| - 1]);
      BatchesKept(x, Execute(x, run[..|run| - 1]).value, run[|run| - 1]);
      LocksKept(x, Execute(x, run[..|run| - 1]).value, run[|run| - 1]);
    } else {
      NothingHeld(x);
    }
  }

  lemma {:induction false} NothingHeld(x: Executor)
    ensures LocksOk(x, IDLE)
  {
  }

  /* ---------------------------------------------------------------- the theorems */

  /** Two calls that must not overlap: both of mutating tools, which name a lane argument with the same text in both calls, or are
      the same tool without one. */
  predicate Conflict(x: Executor, call: ToolCall, other: ToolCall) {
    var tools := x.pipeline.registry;
    && call.name in tools && other.name in tools && tools[call.name].effect.Mutate? && tools[other.name].effect.Mutate?
    && match (tools[call.name].laneArgument, tools[other.name].laneArgument)
       case (None, None) => call.name == other.name
       case (Some(a), Some(b)) => x.argument(call, a) == x.argument(other, b)
       case _ => false
  }

  lemma {:induction false} LaneExactly(x: Executor, call: ToolCall, other: ToolCall)
    requires x.Valid()
    ensures x.LaneOf(call).Some? && x.LaneOf(call) == x.LaneOf(other) <==> Conflict(x, call, other)
  {
    var tools := x.pipeline.registry;
    assert call.name in tools ==> tools[call.name].name == call.name;
    assert other.name in tools ==> tools[other.name].name == other.name;
  }

  /** In every run, whatever batches are under way: two calls with their handlers under way at once do not conflict. */
  lemma {:induction false} LanesExclusive(x: Executor, run: seq<Label>, b: nat, i: nat, c: nat, j: nat)
    requires x.Valid() && Execute(x, run).Some?
    requires var s := Execute(x, run).value;
             Has(s, b, i) && Has(s, c, j) && (b, i) != (c, j) && s.batches[b].phases[i].Handling? && s.batches[c].phases[j].Handling?
    ensures var s := Execute(x, run).value; !Conflict(x, s.batches[b].calls[i], s.batches[c].calls[j])
  {
    hide Execute, LocksOk, Executor.LaneOf, Conflict;
    Kept(x, run);
    var s := Execute(x, run).value;
    LaneExactly(x, s.batches[b].calls[i], s.batches[c].calls[j]);
    if x.LaneOf(s.batches[b].calls[i]).Some? {
      HeldByOne(x, s, x.LaneOf(s.batches[b].calls[i]).value, b, i, c, j);
    }
  }

  /** A known tool, arguments that its schema accepts, and its lane argument. */
  predicate IsAcceptable(x: Executor, call: ToolCall) {
    && call.name in x.pipeline.registry
    && var def := x.pipeline.registry[call.name];
       x.pipeline.schemaError(def, call).None? && (def.laneArgument.Some? ==> x.pipeline.hasArgument(call, def.laneArgument.value))
  }

  lemma {:induction false} EarlyExactly(x: Executor, call: ToolCall)
    ensures x.EarlyError(call).None? <==> IsAcceptable(x, call)
    ensures call.name !in x.pipeline.registry ==> x.EarlyError(call) == Some(ErrorObject(UnknownTool, call.name))
    ensures call.name in x.pipeline.registry && !IsAcceptable(x, call) ==>
              x.EarlyError(call).value.ErrorObject? && x.EarlyError(call).value.code.InvalidArguments?
  {
  }

  ghost predicate HandlingAcceptable(x: Executor, s: State) {
    forall b: nat, i: nat | Has(s, b, i) && s.batches[b].phases[i].Handling? :: IsAcceptable(x, s.batches[b].calls[i])
  }

  lemma {:induction false} AcceptableKept(x: Executor, s: State, l: Label)
    requires Enabled(x, s, l) && HandlingAcceptable(x, s)
    ensures HandlingAcceptable(x, Perform(x, s, l))
  {
    hide Executor.Mutates, Executor.EarlyError, Executor.LaneOf, IsAcceptable;
    var t := Perform(x, s, l);
    forall b: nat, i: nat | Has(t, b, i) && t.batches[b].phases[i].Handling? ensures IsAcceptable(x, t.batches[b].calls[i]) {
      if l.Lock? && b == l.b && i == l.i {
        EarlyExactly(x, s.batches[b].calls[i]);
      } else {
        assert Has(s, b, i) && s.batches[b].phases[i].Handling?;
      }
    }
  }

  /** No handler is under way for a call with an unknown tool, rejected arguments or a missing lane argument. */
  lemma {:induction false} HandledAreAcceptable(x: Executor, run: seq<Label>)
    requires Execute(x, run).Some?
    ensures HandlingAcceptable(x, Execute(x, run).value)
  {
    hide HandlingAcceptable, Enabled, Perform;
    if run == [] {
      NoneHandled(x);
    } else {
      HandledAreAcceptable(x, run[..|run| - 1]);
      AcceptableKept(x, Execute(x, run[..|run| - 1]).value, run[|run| - 1]);
    }
  }

  lemma {:induction false} NoneHandled(x: Executor)
    ensures HandlingAcceptable(x, IDLE)
  {
  }

  lemma {:induction false} HeldByOne(x: Executor, s: State, lane: Lane, b: nat, i: nat, c: nat, j: nat)
    requires LocksOk(x, s) && Holds(x, s, lane, b, i)
    ensures Holds(x, s, lane, c, j) ==> (c, j) == (b, i)
  {
  }

  /** At most `max_read_concurrency` calls of a reading batch are inside `execute` at once, and at most one call of a batch with
      a mutating call, which begins only when all calls before it are answered. */
  lemma {:induction false} ConcurrencyBounded(x: Executor, run: seq<Label>, b: nat)
    requires x.Valid() && Execute(x, run).Some? && b < |Execute(x, run).value.batches|
    ensures var batch := Execute(x, run).value.batches[b];
            if x.Mutates(batch.calls) then Active(batch.phases) <= 1 && OneByOne(batch.phases)
            else Active(batch.phases) <= x.maxReadConcurrency
  {
    hide Execute, Active, LocksOk, Executor.Mutates;
    Kept(x, run);
    var batch := Execute(x, run).value.batches[b];
    assert BatchOk(x, batch);
    if x.Mutates(batch.calls) {
      OneActive(batch.phases);
    }
  }

  lemma {:induction false} OneActive(phases: seq<Phase>)
    requires OneByOne(phases)
    ensures Active(phases) <= 1
  {
    if phases != [] {
      var front := phases[..|phases| - 1];
      OneActive(front);
      if IsActive(phases[|phases| - 1]) {
        NoneActive(front);
      }
    }
  }

  /** What the label says about the answer of a call. */
  predicate AnswersWith(x: Executor, s: State, l: Label, b: nat, i: nat, o: Observation)
    requires Enabled(x, s, l)
  {
    || l == Finish(b, i, o)
    || (l == Reject(b, i) && o == Observation(x.EarlyError(s.batches[b].calls[i]).value, true))
  }

  /** The answer of a call is recorded at the place of that call, by the one label that answers it, and never changes. */
  lemma {:induction false} AnswersStay(x: Executor, run: seq<Label>, l: Label, b: nat, i: nat, o: Observation)
    requires Execute(x, run).Some? && Enabled(x, Execute(x, run).value, l) && Has(Perform(x, Execute(x, run).value, l), b, i)
    ensures var s, t := Execute(x, run).value, Perform(x, Execute(x, run).value, l);
            t.batches[b].phases[i] == Done(o)
            <==> AnswersWith(x, s, l, b, i, o) || (Has(s, b, i) && s.batches[b].phases[i] == Done(o))
    ensures AnswersWith(x, Execute(x, run).value, l, b, i, o) ==> !Execute(x, run).value.batches[b].phases[i].Done?
  {
    hide Execute, Executor.Mutates, Executor.EarlyError, Executor.LaneOf;
  }

  predicate Finished(batch: Batch) {
    forall i | 0 <= i < |batch.phases| :: batch.phases[i].Done?
  }

  /** No deadlock: while some call is unanswered, some call can move on, without a new batch. */
  lemma {:induction false} NeverStuck(x: Executor, run: seq<Label>, b: nat, o: Observation) returns (l: Label)
    requires x.Valid() && Execute(x, run).Some? && b < |Execute(x, run).value.batches| && !Finished(Execute(x, run).value.batches[b])
    ensures Enabled(x, Execute(x, run).value, l) && !l.Submit?
  {
    hide Execute, Active, Executor.Mutates, Executor.LaneOf, Executor.EarlyError;
    Kept(x, run);
    var s := Execute(x, run).value;
    if c: nat, i: nat :| Has(s, c, i) && s.batches[c].phases[i].Handling? {
      l := Finish(c, i, o);
    } else if c: nat, i: nat :| Has(s, c, i) && s.batches[c].phases[i].Entered? {
      assert forall lane | lane in s.locks :: Holds(x, s, lane, s.locks[lane].0, s.locks[lane].1);
      l := if x.EarlyError(s.batches[c].calls[i]).Some? then Reject(c, i) else Lock(c, i);
    } else {
      var batch := s.batches[b];
      assert BatchOk(x, batch);
      var i := FirstOpen(batch.phases);
      forall k | 0 <= k < |batch.phases| ensures !IsActive(batch.phases[k]) {
        assert Has(s, b, k);
      }
      NoneActive(batch.phases);
      l := Begin(b, i);
    }
  }

  lemma {:induction false} FirstOpen(phases: seq<Phase>) returns (i: nat)
    requires exists k | 0 <= k < |phases| :: !phases[k].Done?
    ensures i < |phases| && !phases[i].Done? && forall j | 0 <= j < i :: phases[j].Done?
  {
    i := 0;
    while phases[i].Done?
      invariant i < |phases| && forall j | 0 <= j < i :: phases[j].Done?
      invariant exists k | i <= k < |phases| :: !phases[k].Done?
      decreases |phases| - i
    {
      i := i + 1;
    }
  }

  function Left(phase: Phase): nat {
    match phase
    case Waiting => 3
    case Entered => 2
    case Handling => 1
    case Done(_) => 0
  }

  /** How many moves the calls still have to make. */
  function Work(phases: seq<Phase>): nat {
    if phases == [] then 0 else Work(phases[..|phases| - 1]) + Left(phases[|phases| - 1])
  }

  function TotalWork(batches: seq<Batch>): nat {
    if batches == [] then 0 else TotalWork(batches[..|batches| - 1]) + Work(batches[|batches| - 1].phases)
  }

  lemma {:induction false} WorkUpdate(phases: seq<Phase>, i: nat, phase: Phase)
    requires i < |phases|
    ensures Work(phases[i := phase]) == Work(phases) - Left(phases[i]) + Left(phase)
  {
    var front, after := phases[..|phases| - 1], phases[i := phase];
    if i < |phases| - 1 {
      WorkUpdate(front, i, phase);
      assert after[..|after| - 1] == front[i := phase];
    } else {
      assert after[..|after| - 1] == front;
    }
  }

  lemma {:induction false} TotalUpdate(batches: seq<Batch>, b: nat, batch: Batch)
    requires b < |batches|
    ensures TotalWork(batches[b := batch]) == TotalWork(batches) - Work(batches[b].phases) + Work(batch.phases)
  {
    hide Work;
    var front, after := batches[..|batches| - 1], batches[b := batch];
    if b < |batches| - 1 {
      TotalUpdate(front, b, batch);
      assert after[..|after| - 1] == front[b := batch];
    } else {
      assert after[..|after| - 1] == front;
    }
  }

  /** Every move lowers the work that is left, so that, without new batches, every batch is answered in the end. */
  lemma {:induction false} MovesLower(x: Executor, s: State, l: Label)
    requires Enabled(x, s, l) && !l.Submit?
    ensures TotalWork(Perform(x, s, l).batches) < TotalWork(s.batches)
  {
    hide Work, TotalWork, Executor.Mutates, Executor.EarlyError, Executor.LaneOf;
    var after := Perform(x, s, l).batches[l.b];
    WorkUpdate(s.batches[l.b].phases, l.i, after.phases[l.i]);
    TotalUpdate(s.batches, l.b, after);
  }
}
