/** What the invariant means for every run of the durable runtime: any interleaving of driver actions, crashes at
    any append boundary, restarts, cancellations, operator decisions and submissions. */
module RuntimeTheorems {
  import opened Events
  import opened RunModels
  import opened Projection
  import opened ToolPipeline
  import opened Runtime
  import opened Conversation
  import opened RuntimeInvariant
  import opened DriverLemmas
  import opened InvariantSteps
  import opened LogLaws
  import opened RuntimeSafety
  import opened RuntimeRuns
  import opened ProjectedState

  /** The world a run leads to. */
  function After(cfg: Config, run: seq<Label>): World
    requires Execute(cfg, run).Some?
  {
    Execute(cfg, run).value
  }

  /** A run that has started satisfies the invariant with some witnesses. */
  lemma {:induction false} Witness(cfg: Config, run: seq<Label>) returns (base: nat, cursor: nat)
    requires cfg.Valid() && Execute(cfg, run).Some? && After(cfg, run).log != []
    ensures Sound(cfg, After(cfg, run), base, cursor)
  {
    hide WorldOk, Execute, Project;
    RunsAreGood(cfg, run);
    base, cursor :| WorldOk(cfg, After(cfg, run), base, cursor);
  }

  /* ---------------------------------------------------------------- the log */

  lemma {:induction false} LogIsLawful(cfg: Config, run: seq<Label>)
    requires cfg.Valid() && Execute(cfg, run).Some?
    ensures LawfulLog(cfg, After(cfg, run).log) && Project(After(cfg, run).log).Some?
  {
    hide WorldOk, Execute;
    RunsAreGood(cfg, run);
    if After(cfg, run).log != [] {
      var base, cursor := Witness(cfg, run);
      WorldLawful(cfg, After(cfg, run), base, cursor);
    }
  }

  lemma {:induction false} LawfulAt(cfg: Config, log: seq<Event>, n: nat)
    requires LawfulLog(cfg, log) && n < |log|
    ensures LawfulLog(cfg, log[..n]) && Project(log[..n]).Some?
    ensures Accepts(Project(log[..n]).value, n == 0, log[n]) && Lawful(cfg, log[..n], Project(log[..n]).value, log[n])
    ensures Project(log[..n + 1]) == Some(Advance(Project(log[..n]).value, log[n]))
  {
    hide Lawful, Accepts, Advance;
    var front := log[..|log| - 1];
    ProjectLast(log);
    if n == |log| - 1 {
      assert log[..n] == front && log[..n + 1] == log;
    } else {
      LawfulAt(cfg, front, n);
      assert front[..n] == log[..n] && front[..n + 1] == log[..n + 1];
    }
  }

  /** Every log that was ever stored is accepted, so re-projecting after an append never raises, and its status
      path uses only edges of the transition table. */
  lemma {:induction false} EveryAppendIsAccepted(cfg: Config, run: seq<Label>, n: nat)
    requires cfg.Valid() && Execute(cfg, run).Some? && n < |After(cfg, run).log|
    ensures var log := After(cfg, run).log;
            && Project(log[..n]).Some? && Project(log[..n + 1]).Some?
            && var a, b := Project(log[..n]).value.status, Project(log[..n + 1]).value.status;
               a == b || AllowedTransition(a, b)
  {
    hide Execute, Accepts, LawfulLog;
    LogIsLawful(cfg, run);
    LawfulAt(cfg, After(cfg, run).log, n);
  }

  /** A run can be cut anywhere: what was stored by then is a prefix of what is stored in the end, the process can die there,
      and it can be started again. */
  lemma {:induction false} CutAnywhere(cfg: Config, run: seq<Label>, n: nat)
    requires cfg.Valid() && Execute(cfg, run).Some? && n <= |run|
    ensures Execute(cfg, run[..n]).Some? && After(cfg, run[..n]).log <= After(cfg, run).log
    ensures Execute(cfg, run[..n] + [Crash]) == Some(After(cfg, run[..n]).(place := Idle))
    ensures After(cfg, run[..n]).log != [] ==> Execute(cfg, (run[..n] + [Crash]) + [Resume]) == Some(After(cfg, run[..n]).(place := Ready))
    decreases |run|
  {
    hide ExecuteFrom, Enabled, Perform, Invariant, Project;
    if n == |run| {
      assert run[..n] == run;
      Killed(cfg, run);
    } else {
      var front, l := run[..|run| - 1], run[|run| - 1];
      assert front + [l] == run;
      ExecuteFromSnoc(cfg, EMPTY_WORLD, front, l);
      PerformKeepsLog(cfg, After(cfg, front), l);
      CutAnywhere(cfg, front, n);
      assert front[..n] == run[..n];
    }
  }

  lemma {:induction false} Killed(cfg: Config, run: seq<Label>)
    requires cfg.Valid() && Execute(cfg, run).Some?
    ensures Execute(cfg, run + [Crash]) == Some(After(cfg, run).(place := Idle))
    ensures After(cfg, run).log != [] ==> Execute(cfg, (run + [Crash]) + [Resume]) == Some(After(cfg, run).(place := Ready))
  {
    hide ExecuteFrom, Invariant, Project;
    var w := After(cfg, run);
    RunsAreGood(cfg, run);
    InvariantProjects(cfg, w);
    ExecuteFromSnoc(cfg, EMPTY_WORLD, run, Crash);
    ExecuteFromSnoc(cfg, EMPTY_WORLD, run + [Crash], Resume);
  }

  /* ---------------------------------------------------------------- handlers */

  /** A mutating call's handler is entered at most once over the whole life of a run. */
  lemma {:induction false} MutationsEnteredOnce(cfg: Config, run: seq<Label>, i: nat, j: nat)
    requires cfg.Valid() && Execute(cfg, run).Some? && i < j < |After(cfg, run).entered|
    requires After(cfg, run).entered[i] == After(cfg, run).entered[j]
    ensures Project(After(cfg, run).log).Some?
    ensures var p, id := StateOf(After(cfg, run)), After(cfg, run).entered[i];
            && IndexOfTool(p.tools, id) < |p.tools|
            && p.tools[IndexOfTool(p.tools, id)].effect.Read?
  {
    hide Execute, RunPreflight, NeedsApproval, Granted, ToolEffect, Project, WorldOk;
    var w := After(cfg, run);
    RunsAreGood(cfg, run);
    var base, cursor := Witness(cfg, run);
    WorldParts(cfg, w, base, cursor);
    assert EntryOk(cfg, w.log, StateOf(w), w.entered[i]);
    EffectsAre(cfg, w, base, cursor, IndexOfTool(StateOf(w).tools, w.entered[i]));
  }

  lemma {:induction false} EffectsAre(cfg: Config, w: World, base: nat, cursor: nat, i: nat)
    requires Sound(cfg, w, base, cursor) && i < |StateOf(w).tools|
    ensures StateOf(w).tools[i].effect == ToolEffect(cfg.pipeline, CallOf(StateOf(w).tools[i]))
  {
    hide StepsOk, AssistantsOk, BudgetsOk, ApprovalsOk, RequestsOk, EntriesOk, PlaceOk, UniqueTools, AllRequested, ToolEffect, ConversationOk,
         LawfulLog;
  }

  /** A handler is entered only when a started call passes to the executor, and then with the approval that the call
      needs: requested, later granted, with the loop's first-decision scan and the executor's last-decision scan in
      agreement. */
  lemma {:induction false} EntriesAreApproved(cfg: Config, run: seq<Label>, l: Label)
    requires cfg.Valid() && Execute(cfg, run).Some? && Execute(cfg, run + [l]).Some?
    requires After(cfg, run + [l]).entered != After(cfg, run).entered
    ensures var w := After(cfg, run);
            && w.place.Starting?
            && var call := w.place.call;
               && After(cfg, run + [l]).entered == w.entered + [call.id]
               && (NeedsApproval(cfg.pipeline, call) ==>
                     && Granted(w.log, call.id)
                     && FirstDecision(w.log, call.id) == LastDecision(w.log, call.id) == Some(true))
               && (ToolEffect(cfg.pipeline, call).Mutate? ==> call.id !in w.entered)
  {
    hide ExecuteFrom, RunGate, RunPreflight, NeedsApproval, Granted, ToolEffect, Project, WorldOk, StateOk, NextAction, Enabled, Perform;
    var w := After(cfg, run);
    ExecuteFromSnoc(cfg, EMPTY_WORLD, run, l);
    RunsAreGood(cfg, run);
    OnlySecondHalfEnters(cfg, w, l);
    StartedLog(cfg, w);
    var base, cursor := Witness(cfg, run);
    EntryAtCursor(cfg, w, base, cursor);
  }

  lemma {:induction false} StartedLog(cfg: Config, w: World)
    requires Invariant(cfg, w) && w.place.Starting?
    ensures w.log != []
  {
  }

  lemma {:induction false} OnlySecondHalfEnters(cfg: Config, w: World, l: Label)
    requires Enabled(cfg, w, l) && Perform(cfg, w, l).entered != w.entered
    ensures w.place.Starting? && Project(w.log).Some?
    ensures Perform(cfg, w, l).entered == w.entered + [w.place.call.id]
    ensures RunGate(cfg.pipeline, w.place.call, LookUpApproval(w.log, StateOf(w), w.place.call)).Enter?
  {
    hide RunGate, NextAction, LookUpApproval, Project;
    assert w.entered + [] == w.entered;
  }

  lemma {:induction false} EntryAtCursor(cfg: Config, w: World, base: nat, cursor: nat)
    requires cfg.Valid() && Sound(cfg, w, base, cursor) && w.place.Starting?
    requires RunGate(cfg.pipeline, w.place.call, LookUpApproval(w.log, StateOf(w), w.place.call)).Enter?
    ensures var call := w.place.call;
            && (NeedsApproval(cfg.pipeline, call) ==>
                  && Granted(w.log, call.id)
                  && FirstDecision(w.log, call.id) == LastDecision(w.log, call.id) == Some(true))
            && (ToolEffect(cfg.pipeline, call).Mutate? ==> call.id !in w.entered)
  {
    hide WorldOk, RunGate, RunPreflight, NeedsApproval, Granted, ToolEffect, Project, LookUpApproval, RequestsOk, AllRequested, RequestsKnown,
         DecisionsAnswer, WaitOk;
    WorldParts(cfg, w, base, cursor);
    GateAtCursor(cfg, w.log, StateOf(w), base, cursor, w.place.call);
    if NeedsApproval(cfg.pipeline, w.place.call) {
      DecisionFollowsRequest(w.log, w.place.call.id);
    }
  }

  /** The call of the tool, as some event of the log requested it. */
  ghost predicate RequestedAs(log: seq<Event>, id: string, call: ToolCall, effect: Effect) {
    exists k | 0 <= k < |log| :: log[k].ToolRequested? && log[k].callId == id && log[k].effect == effect
                                 && call == ToolCall(id, log[k].name, log[k].arguments)
  }

  lemma {:induction false} RequestOfTool(log: seq<Event>, i: nat)
    requires Project(log).Some? && i < |Project(log).value.tools|
    ensures var t := Project(log).value.tools[i]; RequestedAs(log, t.callId, CallOf(t), t.effect)
  {
    hide Project, HeadRead, StepsRead, ResponsesRead, InboxRead, Where, StatusIn, TurnIn, StepIn, FailureIn;
    ProjectedParts(log);
    var k := Where(log, IsRequest)[i];
    assert ToolFrom(log, k, Project(log).value.tools[i]);
  }

  /** A handler is entered only by a call as the log has requested it, of a registered tool, with arguments that its schema and
      its lane accept, and that the policy does not deny. */
  lemma {:induction false} EntriesAreProper(cfg: Config, run: seq<Label>, i: nat) returns (call: ToolCall)
    requires cfg.Valid() && Execute(cfg, run).Some? && i < |After(cfg, run).entered|
    ensures call.id == After(cfg, run).entered[i] && IsProper(cfg.pipeline, call)
    ensures exists effect :: RequestedAs(After(cfg, run).log, call.id, call, effect)
  {
    hide Execute, RunPreflight, NeedsApproval, Granted, ToolEffect, Project, WorldOk, RequestedAs;
    var w := After(cfg, run);
    RunsAreGood(cfg, run);
    EnteredLog(cfg, w);
    var base, cursor := Witness(cfg, run);
    WorldParts(cfg, w, base, cursor);
    assert EntryOk(cfg, w.log, StateOf(w), w.entered[i]);
    var j := IndexOfTool(StateOf(w).tools, w.entered[i]);
    IndexOfToolFirst(StateOf(w).tools, w.entered[i]);
    call := CallOf(StateOf(w).tools[j]);
    PreflightExactly(cfg.pipeline, call);
    RequestOfTool(w.log, j);
  }

  lemma {:induction false} EnteredLog(cfg: Config, w: World)
    requires Invariant(cfg, w) && w.entered != []
    ensures w.log != []
  {
    hide WorldOk, Project;
  }

  /** A failure in the log never hides what a mutation has done: one that carries an execution error or a timeout is that of a
      call requested as reading. */
  lemma {:induction false} FailuresKnown(cfg: Config, run: seq<Label>, n: nat)
    requires cfg.Valid() && Execute(cfg, run).Some? && n < |After(cfg, run).log|
    requires var e := After(cfg, run).log[n];
             e.ToolFailed? && e.output.ErrorObject? && (e.output.code.ExecutionFailed? || e.output.code.Timeout?)
    ensures var log := After(cfg, run).log;
            && (exists k | 0 <= k < n :: log[k].ToolRequested? && log[k].callId == log[n].callId && log[k].effect.Read?)
            && forall k | 0 <= k < |log| && log[k].ToolRequested? && log[k].callId == log[n].callId :: log[k].effect.Read?
  {
    hide Execute, LawfulLog, Project, Accepts, StartLawful, DeliveryLawful, LastDecision, HasRequest, Advance, RequestedAs, HeadRead, StepsRead,
         ResponsesRead, InboxRead, Where, IndexOfTool;
    var log := After(cfg, run).log;
    LogIsLawful(cfg, run);
    LawfulAt(cfg, log, n);
    var tools := Project(log[..n]).value.tools;
    var i := IndexOfTool(tools, log[n].callId);
    IndexOfToolFirst(tools, log[n].callId);
    RequestOfTool(log[..n], i);
    RequestInPrefix(log, n, log[n].callId, CallOf(tools[i]), tools[i].effect);
    SameRequest(log, log[n].callId);
  }

  lemma {:induction false} RequestInPrefix(log: seq<Event>, n: nat, id: string, call: ToolCall, effect: Effect)
    requires n <= |log| && RequestedAs(log[..n], id, call, effect)
    ensures exists k | 0 <= k < n :: log[k].ToolRequested? && log[k].callId == id && log[k].effect == effect
  {
    var k :| 0 <= k < n && log[..n][k].ToolRequested? && log[..n][k].callId == id && log[..n][k].effect == effect;
    assert log[k] == log[..n][k];
  }

  /** A call is requested at most once. */
  lemma {:induction false} SameRequest(log: seq<Event>, id: string)
    requires Project(log).Some?
    ensures forall j, k | 0 <= j < |log| && 0 <= k < |log| && log[j].ToolRequested? && log[k].ToolRequested? && log[j].callId == log[k].callId == id
              :: j == k
  {
    hide Project, Where, HeadRead, StepsRead, ResponsesRead, InboxRead, StatusIn, TurnIn, StepIn, FailureIn;
    ProjectedParts(log);
    ToolsDistinct(log);
    WhereExactly(log, IsRequest);
    var at, tools := Where(log, IsRequest), Project(log).value.tools;
    forall j, k | 0 <= j < |log| && 0 <= k < |log| && log[j].ToolRequested? && log[k].ToolRequested? && log[j].callId == log[k].callId == id
      ensures j == k
    {
      assert j in at && k in at;
      var a :| 0 <= a < |at| && at[a] == j;
      var b :| 0 <= b < |at| && at[b] == k;
      assert ToolFrom(log, at[a], tools[a]) && ToolFrom(log, at[b], tools[b]);
    }
  }

  /** What is written when a handler, or the gate before it, answers: an execution error or a timeout of a mutating call ends the
      run as uncertain; any other error is a failure with that output; a success is a completion with it. */
  lemma {:induction false} ObservationWrites(cfg: Config, w: World, o: Observation)
    requires Enabled(cfg, w, Observe(o))
    ensures var call := w.place.call;
            var mutates := call.name in cfg.pipeline.registry && cfg.pipeline.registry[call.name].effect.Mutate?;
            var lost := o.output.ErrorObject? && (o.output.code.ExecutionFailed? || o.output.code.Timeout?);
            Perform(cfg, w, Observe(o)).log
            == w.log + [if o.isError && mutates && lost then RunFailedUncertain(UncertainMutation(call.id))
                        else if o.isError then ToolFailed(call.id, o.output)
                        else ToolCompleted(call.id, false, o.output)]
  {
    hide Project;
  }

  /** What is written when a handler raises: the uncertain end for a mutating call, a failure for a reading one. */
  lemma {:induction false} ExceptionWrites(cfg: Config, w: World, message: string)
    requires Enabled(cfg, w, ToolRaises(message))
    ensures var call := w.place.call;
            var mutates := call.name in cfg.pipeline.registry && cfg.pipeline.registry[call.name].effect.Mutate?;
            Perform(cfg, w, ToolRaises(message)).log
            == w.log + [if mutates then RunFailedUncertain(UncertainMutation(call.id))
                        else ToolFailed(call.id, ErrorObject(ExecutionFailed, message))]
  {
    hide Project;
  }

  /** What is written when the provider answers: its text, stop reason, calls and token counts, unless the run is cancelling. */
  lemma {:induction false} ResponseWrites(cfg: Config, w: World, r: Response)
    requires Enabled(cfg, w, Respond(r))
    ensures var p := StateOf(w);
            Perform(cfg, w, Respond(r)).log
            == w.log + (if p.status.Cancelling? then []
                        else match r.usage
                             case None => [AssistantMessage(p.turn, p.step.value, r.text, r.stop, r.toolCalls, None, None)]
                             case Some(usage) =>
                               [AssistantMessage(p.turn, p.step.value, r.text, r.stop, r.toolCalls, Some(usage.0), Some(usage.1))])
  {
    hide Project;
    assert w.log + [] == w.log;
  }

  /** The first started mutating call. */
  predicate FirstInDoubt(p: RunProjection, i: nat) {
    && i < |p.tools| && p.tools[i].state.Started? && p.tools[i].effect.Mutate?
    && forall j | 0 <= j < i :: !(p.tools[j].state.Started? && p.tools[j].effect.Mutate?)
  }

  /** How a run is ended: in doubt when a mutating call is started and the run is cancelled or broken off, as cancelled when it
      is being cancelled, and for the given reason otherwise. */
  lemma {:induction false} EndingsExactly(p: RunProjection, reason: Reason)
    ensures var doubt := exists i | 0 <= i < |p.tools| :: p.tools[i].state.Started? && p.tools[i].effect.Mutate?;
            && (doubt ==> exists i: nat :: FirstInDoubt(p, i) && CancellationEvent(p) == RunFailedUncertain(UncertainMutation(p.tools[i].callId)))
            && (!doubt ==> CancellationEvent(p) == RunCancelled)
            && FailEvent(p, reason) == (if p.status.Cancelling? then CancellationEvent(p) else RunFailed(reason))
            && AbortEvent(p, reason) == (if doubt || p.status.Cancelling? then CancellationEvent(p) else RunFailed(reason))
  {
    UncertainIndexFirst(p.tools);
    var i := UncertainIndex(p.tools);
    if i < |p.tools| {
      assert IsUncertain(p.tools[i]);
      assert FirstInDoubt(p, i);
    }
  }

  /* ---------------------------------------------------------------- how runs end */

  /** A finished run is uncertain exactly when some mutating call is still started. */
  lemma {:induction false} OutcomesAreKnown(cfg: Config, run: seq<Label>)
    requires cfg.Valid() && Execute(cfg, run).Some? && Project(After(cfg, run).log).Some?
    requires StateOf(After(cfg, run)).status.IsTerminal()
    ensures var p := StateOf(After(cfg, run));
            p.status.FailedUncertain? <==> exists i | 0 <= i < |p.tools| :: p.tools[i].state.Started? && p.tools[i].effect.Mutate?
  {
    hide Execute, WorldOk;
    var w := After(cfg, run);
    RunsAreGood(cfg, run);
    StartedWhenTerminal(w.log);
    var base, cursor := Witness(cfg, run);
    WorldParts(cfg, w, base, cursor);
    UncertainIndexFirst(StateOf(w).tools);
    if HasUncertain(StateOf(w)) {
      assert IsUncertain(StateOf(w).tools[UncertainIndex(StateOf(w).tools)]);
    }
  }

  lemma {:induction false} StartedWhenTerminal(log: seq<Event>)
    requires Project(log).Some? && Project(log).value.status.IsTerminal()
    ensures log != []
  {
  }

  /** A completed run has finished every tool and step and delivered every next-turn message, within all budgets. */
  lemma {:induction false} CompletedIsFinished(cfg: Config, run: seq<Label>)
    requires cfg.Valid() && Execute(cfg, run).Some? && Project(After(cfg, run).log).Some?
    requires StateOf(After(cfg, run)).status.Completed?
    ensures var p := StateOf(After(cfg, run));
            && (forall i | 0 <= i < |p.tools| :: p.tools[i].IsDone())
            && CountSteps(After(cfg, run).log) == |p.completed|
            && PendingIds(p.inbox, NextTurn) == []
            && TokenCount(p.assistants) <= cfg.limits.maxTokens
            && CallCount(p.assistants) <= cfg.limits.maxToolCalls
  {
    hide Execute, WorldOk, RequestsOk, UniqueTools, AllRequested, FindAssistant, PendingIds, HasUncertain;
    var w := After(cfg, run);
    StartedWhenTerminal(w.log);
    LogIsLawful(cfg, run);
    StepsCounted(cfg, w.log);
    var base, cursor := Witness(cfg, run);
    WorldParts(cfg, w, base, cursor);
  }

  /* ---------------------------------------------------------------- budgets */

  function CountSteps(log: seq<Event>): nat {
    if log == [] then 0 else CountSteps(log[..|log| - 1]) + (if log[|log| - 1].StepStarted? then 1 else 0)
  }

  function CountRequests(log: seq<Event>): nat {
    if log == [] then 0 else CountRequests(log[..|log| - 1]) + (if log[|log| - 1].ToolRequested? then 1 else 0)
  }

  function StepsBegun(p: RunProjection): nat {
    |p.completed| + (if p.HasOpenStep() then 1 else 0)
  }

  lemma {:induction false} StepsCounted(cfg: Config, log: seq<Event>)
    requires LawfulLog(cfg, log) && Project(log).Some?
    ensures CountSteps(log) == StepsBegun(Project(log).value)
  {
    hide Lawful, Accepts;
    if log != [] {
      var front, e := log[..|log| - 1], log[|log| - 1];
      ProjectLast(log);
      StepsCounted(cfg, front);
      StepLaws(front);
      StepCounted(cfg, front, Project(front).value, e);
    }
  }

  lemma {:induction false} StepCounted(cfg: Config, log: seq<Event>, p: RunProjection, e: Event)
    requires Accepts(p, log == [], e) && Lawful(cfg, log, p, e) && StepsBehind(p)
    ensures StepsBegun(Advance(p, e)) == StepsBegun(p) + (if e.StepStarted? then 1 else 0)
  {
    hide FindAssistant, PendingIds, LastDecision, StartLawful, Blank;
  }

  lemma {:induction false} RequestsCounted(log: seq<Event>)
    requires Project(log).Some?
    ensures CountRequests(log) == |Project(log).value.tools|
  {
    if log != [] {
      ProjectLast(log);
      RequestsCounted(log[..|log| - 1]);
      RequestCounted(Project(log[..|log| - 1]).value, |log| == 1, log[|log| - 1]);
    }
  }

  lemma {:induction false} RequestCounted(p: RunProjection, first: bool, e: Event)
    requires Accepts(p, first, e)
    ensures |Advance(p, e).tools| == |p.tools| + (if e.ToolRequested? then 1 else 0)
  {
    hide FindAssistant, StepsOfTurn;
  }

  /** Over the whole life of a run at most maxSteps steps start and at most maxToolCalls calls are requested. */
  lemma {:induction false} BudgetsHold(cfg: Config, run: seq<Label>)
    requires cfg.Valid() && Execute(cfg, run).Some?
    ensures CountSteps(After(cfg, run).log) <= cfg.limits.maxSteps
    ensures CountRequests(After(cfg, run).log) <= cfg.limits.maxToolCalls
  {
    hide Execute, WorldOk;
    var w := After(cfg, run);
    if w.log != [] {
      LogIsLawful(cfg, run);
      StepsCounted(cfg, w.log);
      RequestsCounted(w.log);
      var base, cursor := Witness(cfg, run);
      WorldParts(cfg, w, base, cursor);
    }
  }

  /* ---------------------------------------------------------------- provider requests */

  /** The messages the provider is asked with are a well-formed request exactly when no response so far has reused
      the call id of an earlier one. */
  lemma {:induction false} RequestsWellFormed(cfg: Config, run: seq<Label>)
    requires cfg.Valid() && Execute(cfg, run).Some? && After(cfg, run).place.InProvider?
    ensures Project(After(cfg, run).log).Some?
    ensures WellFormed(StateOf(After(cfg, run)).messages) <==> FreshIds(StateOf(After(cfg, run)).assistants)
  {
    hide Execute, WorldOk, FreshIds, Awaiting, Project;
    var w := After(cfg, run);
    RunsAreGood(cfg, run);
    var base, cursor := Witness(cfg, run);
    WorldParts(cfg, w, base, cursor);
    WorldTalk(cfg, w, base, cursor);
    assert CurrentCalls(StateOf(w)) == [];
  }
}
