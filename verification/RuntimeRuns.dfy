/** Every label keeps the invariant, so every world of every run satisfies it. */
module RuntimeRuns {
  import opened Events
  import opened Projection
  import opened ToolPipeline
  import opened Runtime
  import opened Conversation
  import opened RuntimeInvariant
  import opened DriverLemmas
  import opened InvariantSteps
  import opened RuntimeSafety

  /* ---------------------------------------------------------------- the second half of an action */

  /** A started tool at the cursor means that its whole response has been requested. */
  lemma {:induction false} BusyRequested(cfg: Config, p: RunProjection, base: nat, cursor: nat)
    requires ToolsOk(cfg, p, base, cursor) && cursor < |p.tools| && p.tools[cursor].state.Started?
    ensures AllRequested(p, base)
  {
    hide RequestsOk, UniqueTools;
  }

  /** The tool at the cursor gets its result. */
  lemma {:induction false} FinishGood(cfg: Config, w: World, e: Event, base: nat, cursor: nat)
    requires Project(w.log).Some? && WorldOk(cfg, w, base, cursor)
    requires StateOf(w).status.Running? || StateOf(w).status.Cancelling?
    requires cursor < |StateOf(w).tools| && StateOf(w).tools[cursor].state.Started?
    requires ((e.ToolCompleted? && !e.isError) || e.ToolFailed?) && e.callId == StateOf(w).tools[cursor].callId
    requires e.ToolFailed? && LosesOutcome(e.output) ==> StateOf(w).tools[cursor].effect.Read?
    ensures Good(cfg, Extend(w, [e], Ready))
  {
    hide WorldOk, StateOk, ToolsOk, AllRequested, Keeps, Good, Project;
    WorldParts(cfg, w, base, cursor);
    BusyRequested(cfg, StateOf(w), base, cursor);
    FinishKeeps(cfg, w.log, StateOf(w), e, base, cursor);
    GoodAfter(cfg, w, e, base, cursor, base, cursor + 1, Ready);
  }

  lemma {:induction false} DecidedWasRequested(log: seq<Event>, callId: string)
    requires FirstDecision(log, callId).Some?
    ensures WasRequested(log, callId)
  {
    var before := log[..|log| - 1];
    if FirstDecision(before, callId).Some? {
      DecidedWasRequested(before, callId);
    }
  }

  /** Behind a started tool that passes preflight, the executor finds the approval it needs: both scans
      agree, and the handler is entered. */
  lemma {:induction false} GateAtCursor(cfg: Config, log: seq<Event>, p: RunProjection, base: nat, cursor: nat, call: ToolCall)
    requires cfg.Valid() && ToolsOk(cfg, p, base, cursor) && ApprovalsOk(cfg, log, p, base, cursor) && AtCursor(p, cursor, call)
    ensures var gate := RunGate(cfg.pipeline, call, LookUpApproval(log, p, call));
            match RunPreflight(cfg.pipeline, call)
            case Proceed(_) => gate.Enter? && (NeedsApproval(cfg.pipeline, call) ==> FirstDecision(log, call.id) == Some(true))
            case Rejected(output) => gate == Refuse(output)
  {
    hide RunPreflight, NeedsApproval, RunGate, RequestsOk, AllRequested, RequestsKnown, DecisionsAnswer, WaitOk;
    GateFollowsPreflight(cfg.pipeline, call, LookUpApproval(log, p, call));
    IndexIs(p.tools, cursor);
    if FirstDecision(log, call.id).Some? {
      DecidedWasRequested(log, call.id);
    }
  }

  lemma {:induction false} EnterEntries(cfg: Config, log: seq<Event>, p: RunProjection, entered: seq<string>, base: nat, cursor: nat, call: ToolCall)
    requires EntriesOk(cfg, log, p, entered) && ToolsOk(cfg, p, base, cursor) && AtCursor(p, cursor, call)
    requires RunPreflight(cfg.pipeline, call).Proceed?
    requires NeedsApproval(cfg.pipeline, call) ==> Granted(log, call.id)
    requires ToolEffect(cfg.pipeline, call).Mutate? ==> call.id !in entered
    ensures EntriesOk(cfg, log, p, entered + [call.id])
  {
    hide RunPreflight, NeedsApproval, ToolEffect, Granted, RequestsOk, AllRequested;
    IndexIs(p.tools, cursor);
    assert EntryOk(cfg, log, p, call.id);
  }

  lemma {:induction false} EnterGood(cfg: Config, w: World, base: nat, cursor: nat)
    requires cfg.Valid() && Project(w.log).Some? && WorldOk(cfg, w, base, cursor) && w.place.Starting?
    ensures Good(cfg, FinishAction(cfg, w))
  {
    hide RunPreflight, NeedsApproval, ToolEffect, RunGate, StateOk, StepsOk, AssistantsOk, ToolsOk, BudgetsOk, ApprovalsOk,
         EntriesOk, LookUpApproval, Granted;
    var call := w.place.call;
    var p := StateOf(w);
    NotCreated(cfg, w, base, cursor);
    WorldParts(cfg, w, base, cursor);
    GateAtCursor(cfg, w.log, p, base, cursor, call);
    if RunPreflight(cfg.pipeline, call).Proceed? {
      if NeedsApproval(cfg.pipeline, call) {
        DecisionFollowsRequest(w.log, call.id);
      }
      EnterEntries(cfg, w.log, p, w.entered, base, cursor, call);
    }
    assert w.entered + [] == w.entered;
    assert WorldOk(cfg, FinishAction(cfg, w), base, cursor);
  }

  lemma {:induction false} TurnConsumed(cfg: Config, w: World, base: nat, cursor: nat)
    requires Project(w.log).Some? && WorldOk(cfg, w, base, cursor) && w.place.TurnOpened?
    ensures Good(cfg, FinishAction(cfg, w))
  {
    hide StateOk, EntriesOk, PendingIds, Project;
    var ready := w.(place := Ready);
    NotCreated(cfg, w, base, cursor);
    assert WorldOk(cfg, ready, base, cursor);
    ConsumeAll(cfg, ready, NextTurn, PendingIds(StateOf(w).inbox, NextTurn), base, cursor);
  }

  lemma {:induction false} SecondHalfGood(cfg: Config, w: World, base: nat, cursor: nat)
    requires cfg.Valid() && Sound(cfg, w, base, cursor) && Enabled(cfg, w, SecondHalf)
    ensures Good(cfg, Perform(cfg, w, SecondHalf))
  {
    hide StateOk, EntriesOk, Good, Project, RunPreflight, NeedsApproval, ToolEffect;
    if w.place.TurnOpened? {
      TurnConsumed(cfg, w, base, cursor);
    } else if w.place.Rejecting? {
      RejectionCodes(cfg.pipeline, CallOf(StateOf(w).tools[cursor]));
      FinishGood(cfg, w, ToolFailed(w.place.callId, w.place.output), base, cursor);
    } else {
      EnterGood(cfg, w, base, cursor);
    }
  }

  ghost predicate Sound(cfg: Config, w: World, base: nat, cursor: nat) {
    Project(w.log).Some? && WorldOk(cfg, w, base, cursor)
  }

  /* ---------------------------------------------------------------- replies, exceptions, timeouts */

  lemma {:induction false} RespondGood(cfg: Config, w: World, r: Response, base: nat, cursor: nat)
    requires Sound(cfg, w, base, cursor) && Enabled(cfg, w, Respond(r))
    ensures Good(cfg, Perform(cfg, w, Respond(r)))
  {
    hide StateOk, EntriesOk, Good, Project, Keeps, FindAssistant;
    var p := StateOf(w);
    if p.status.Cancelling? {
      MoveGood(cfg, w, Ready, base, cursor);
    } else {
      WorldParts(cfg, w, base, cursor);
      ResponseKeeps(cfg, w.log, p, r, base, cursor);
      GoodAfter(cfg, w, ResponseEvent(p, r), base, cursor, |p.tools|, |p.tools|, Ready);
    }
  }

  lemma {:induction false} AbortMayEnd(p: RunProjection, reason: Reason)
    requires (p.status.Running? || p.status.Cancelling?) && !reason.Free?
    ensures MayEnd(p, AbortEvent(p, reason))
  {
  }

  lemma {:induction false} AbortGood(cfg: Config, w: World, reason: Reason, base: nat, cursor: nat)
    requires Sound(cfg, w, base, cursor) && (StateOf(w).status.Running? || StateOf(w).status.Cancelling?) && !reason.Free?
    ensures Good(cfg, Extend(w, [AbortEvent(StateOf(w), reason)], Ready))
  {
    hide WorldOk, Good, MayEnd, AbortEvent, Project;
    NotCreated(cfg, w, base, cursor);
    AbortMayEnd(StateOf(w), reason);
    EndGood(cfg, w, AbortEvent(StateOf(w), reason), base, cursor);
  }

  /** A mutating call whose outcome stays unknown ends the run. */
  lemma {:induction false} UncertainGood(cfg: Config, w: World, base: nat, cursor: nat)
    requires Sound(cfg, w, base, cursor) && (StateOf(w).status.Running? || StateOf(w).status.Cancelling?)
    requires cursor < |StateOf(w).tools| && StateOf(w).tools[cursor].state.Started?
    requires ToolEffect(cfg.pipeline, CallOf(StateOf(w).tools[cursor])).Mutate?
    ensures Good(cfg, Extend(w, [RunFailedUncertain(UncertainMutation(StateOf(w).tools[cursor].callId))], Ready))
  {
    hide WorldOk, Good, Project, ToolEffect, ToolsOk;
    NotCreated(cfg, w, base, cursor);
    EffectAtCursor(cfg, w, base, cursor);
    WorldParts(cfg, w, base, cursor);
    UncertainAtCursor(cfg, StateOf(w), base, cursor);
    EndGood(cfg, w, RunFailedUncertain(UncertainMutation(StateOf(w).tools[cursor].callId)), base, cursor);
  }

  lemma {:induction false} ReplyGood(cfg: Config, w: World, l: Label, base: nat, cursor: nat)
    requires Sound(cfg, w, base, cursor) && Enabled(cfg, w, l) && (l.Observe? || l.ToolRaises?)
    ensures Good(cfg, Perform(cfg, w, l))
  {
    hide StateOk, EntriesOk, Good, Project, ToolEffect, RunPreflight;
    var t := StateOf(w).tools[cursor];
    var uncertain := if l.Observe? then LeavesUncertain(ToolEffect(cfg.pipeline, CallOf(t)), l.observation)
                     else ToolEffect(cfg.pipeline, CallOf(t)).Mutate?;
    EffectAtCursor(cfg, w, base, cursor);
    if uncertain {
      UncertainGood(cfg, w, base, cursor);
    } else {
      FinishGood(cfg, w, if l.Observe? then ResultEvent(t.callId, l.observation)
                         else ToolFailed(t.callId, ErrorObject(ExecutionFailed, l.message)), base, cursor);
    }
  }

  /* ---------------------------------------------------------------- the other actors */

  lemma {:induction false} CancelGood(cfg: Config, w: World, base: nat, cursor: nat)
    requires Sound(cfg, w, base, cursor) && Enabled(cfg, w, Cancel)
    ensures Good(cfg, Perform(cfg, w, Cancel))
  {
    hide StateOk, EntriesOk, Good, Project, Keeps, ToolEffect, RunPreflight, FindAssistant;
    CancelKeeps(cfg, w.log, StateOf(w), base, cursor);
    GoodAfter(cfg, w, RunCancelling, base, cursor, base, cursor, w.place);
  }

  lemma {:induction false} SubmitGood(cfg: Config, w: World, l: Label, base: nat, cursor: nat)
    requires Sound(cfg, w, base, cursor) && Enabled(cfg, w, l) && l.Submit?
    ensures Good(cfg, Perform(cfg, w, l))
  {
    hide StateOk, EntriesOk, Good, Project, Keeps, ToolEffect, RunPreflight, FindAssistant, IndexOfItem;
    var e := InboxSubmitted(l.messageId, l.kind, l.target, l.role, l.content);
    SubmitKeeps(cfg, w.log, StateOf(w), e, base, cursor);
    GoodAfter(cfg, w, e, base, cursor, base, cursor, w.place);
  }

  lemma {:induction false} WaitingIsCertain(cfg: Config, w: World, base: nat, cursor: nat)
    requires Sound(cfg, w, base, cursor) && StateOf(w).status.WaitingApproval?
    ensures !HasUncertain(StateOf(w)) && (Suspended(w.place) ==> w.place.Idle?)
  {
    hide WorldOk, ToolsOk, HasUncertain, RequestsKnown, DecisionsAnswer, CursorOk, AllRequested, BudgetFailure;
    WorldParts(cfg, w, base, cursor);
    UncertainAtCursor(cfg, StateOf(w), base, cursor);
  }

  lemma {:induction false} DecideWorld(cfg: Config, w: World, callId: string, approved: bool, base: nat, cursor: nat)
    requires Sound(cfg, w, base, cursor) && w.place.Idle? && StateOf(w).status.WaitingApproval? && WasRequested(w.log, callId)
    ensures var after := Extend(w, [ApprovalDecided(ApprovalOf(callId), approved)], Idle);
            && Sound(cfg, after, base, cursor) && after.log != []
            && StateOf(after).status.Running? && HasUncertain(StateOf(after)) == HasUncertain(StateOf(w))
  {
    hide WorldOk, StateOk, EntriesOk, Keeps, WasRequested, Project;
    WorldParts(cfg, w, base, cursor);
    DecideKeeps(cfg, w.log, StateOf(w), callId, approved, base, cursor);
    Appended(cfg, w, ApprovalDecided(ApprovalOf(callId), approved), base, cursor, base, cursor, Idle);
  }

  lemma {:induction false} SettleGood(cfg: Config, w: World, l: Label, base: nat, cursor: nat)
    requires Sound(cfg, w, base, cursor) && Enabled(cfg, w, l) && l.Settle?
    ensures Good(cfg, Perform(cfg, w, l))
  {
    hide WorldOk, Keeps, WasRequested, Project, HasUncertain;
    WaitingIsCertain(cfg, w, base, cursor);
    DecideWorld(cfg, w, l.callId, l.approved, base, cursor);
    var after := Extend(w, [ApprovalDecided(ApprovalOf(l.callId), l.approved)], Idle);
    if l.approved || l.interrupted {
      assert Perform(cfg, w, l) == after;
    } else {
      RejectGood(cfg, after, l.callId, base, cursor);
      assert Perform(cfg, w, l).log == after.log + [RunFailed(OperatorRejected(l.callId))];
    }
  }

  lemma {:induction false} RejectGood(cfg: Config, w: World, callId: string, base: nat, cursor: nat)
    requires Sound(cfg, w, base, cursor) && w.place.Idle? && StateOf(w).status.Running? && !HasUncertain(StateOf(w))
    ensures Good(cfg, Extend(w, [RunFailed(OperatorRejected(callId))], Idle))
  {
    hide StateOk, EntriesOk, Good, Keeps, Project, HasUncertain;
    EndKeeps(cfg, w.log, StateOf(w), RunFailed(OperatorRejected(callId)), base, cursor);
    GoodAfter(cfg, w, RunFailed(OperatorRejected(callId)), base, cursor, base, cursor, Idle);
  }

  /* ---------------------------------------------------------------- every label, every run */

  lemma {:induction false} LabelGood(cfg: Config, w: World, l: Label, base: nat, cursor: nat)
    requires cfg.Valid() && w.log != [] && Sound(cfg, w, base, cursor) && Enabled(cfg, w, l)
    ensures Good(cfg, Perform(cfg, w, l))
  {
    hide WorldOk, Good, Project, NextAction, Enabled, Perform;
    if l.Act? {
      ActEnabled(cfg, w);
      ActGood(cfg, w, base, cursor);
    } else if l.SecondHalf? {
      SecondHalfGood(cfg, w, base, cursor);
    } else if l.Respond? {
      RespondGood(cfg, w, l.response, base, cursor);
    } else if l.Observe? || l.ToolRaises? {
      ReplyGood(cfg, w, l, base, cursor);
    } else if l.Cancel? {
      CancelGood(cfg, w, base, cursor);
    } else if l.Submit? {
      SubmitGood(cfg, w, l, base, cursor);
    } else if l.Settle? {
      SettleGood(cfg, w, l, base, cursor);
    } else {
      OtherGood(cfg, w, l, base, cursor);
    }
  }

  lemma {:induction false} ActEnabled(cfg: Config, w: World)
    requires Enabled(cfg, w, Act)
    ensures w.place.Ready? && Project(w.log).Some? && Perform(cfg, w, Act) == PerformAction(w, NextAction(cfg, w.log, StateOf(w)))
  {
  }

  /** Crashes, restarts, provider failures and timeouts. */
  lemma {:induction false} OtherGood(cfg: Config, w: World, l: Label, base: nat, cursor: nat)
    requires w.log != [] && Sound(cfg, w, base, cursor) && Enabled(cfg, w, l)
    requires l.Launch? || l.Resume? || l.Crash? || l.ProviderRaises? || l.TimeOut?
    ensures Good(cfg, Perform(cfg, w, l))
  {
    hide StateOk, EntriesOk, Good, Project, AbortEvent, ToolEffect, RunPreflight, FindAssistant;
    if l.Resume? || l.Crash? {
      MoveGood(cfg, w, if l.Crash? then Idle else Ready, base, cursor);
    } else {
      AbortGood(cfg, w, if l.TimeOut? then RunTimeout else RuntimeFailure(l.message), base, cursor);
    }
  }

  lemma {:induction false} Preserved(cfg: Config, w: World, l: Label)
    requires cfg.Valid() && Invariant(cfg, w) && Enabled(cfg, w, l)
    ensures Invariant(cfg, Perform(cfg, w, l))
  {
    hide WorldOk;
    if w.log == [] {
      if l.Launch? {
        LaunchGood(cfg, l.messages);
        assert Perform(cfg, w, l) == World(InitialBatch(l.messages), Ready, []);
      }
    } else {
      var base: nat, cursor: nat :| WorldOk(cfg, w, base, cursor);
      LabelGood(cfg, w, l, base, cursor);
    }
  }

  lemma {:induction false} WorldLawful(cfg: Config, w: World, base: nat, cursor: nat)
    requires Sound(cfg, w, base, cursor)
    ensures LawfulLog(cfg, w.log)
  {
    hide StateOk, EntriesOk, PlaceOk, LawfulLog, Project;
  }

  lemma {:induction false} WorldTalk(cfg: Config, w: World, base: nat, cursor: nat)
    requires Sound(cfg, w, base, cursor)
    ensures ConversationOk(StateOf(w), base, cursor)
  {
    hide ConversationOk, EntriesOk, PlaceOk, LawfulLog, Project, StepsOk, AssistantsOk, ToolsOk, BudgetsOk, ApprovalsOk, InboxOk, InboxNamed;
  }

  lemma {:induction false} PerformKeepsLog(cfg: Config, w: World, l: Label)
    requires Enabled(cfg, w, l)
    ensures w.log <= Perform(cfg, w, l).log
  {
    hide NextAction, Project, PendingIds, RunGate, LookUpApproval, OutcomeEvent, ExceptionEvent, AbortEvent;
  }

  lemma {:induction false} InvariantProjects(cfg: Config, w: World)
    requires Invariant(cfg, w)
    ensures Project(w.log).Some?
  {
    hide WorldOk, Project;
  }

  lemma {:induction false} EmptyWorldSound(cfg: Config)
    ensures Invariant(cfg, EMPTY_WORLD)
  {
  }

  lemma {:induction false} ExecuteFromSnoc(cfg: Config, w: World, run: seq<Label>, l: Label)
    ensures ExecuteFrom(cfg, w, run + [l])
         == var before := ExecuteFrom(cfg, w, run);
            if before.Some? && Enabled(cfg, before.value, l) then Some(Perform(cfg, before.value, l)) else None
    decreases |run|
  {
    hide Enabled, Perform;
    if run == [] {
      assert run + [l] == [l];
      assert [l][1..] == [];
    } else {
      assert (run + [l])[1..] == run[1..] + [l];
      if Enabled(cfg, w, run[0]) {
        ExecuteFromSnoc(cfg, Perform(cfg, w, run[0]), run[1..], l);
      }
    }
  }

  lemma {:induction false} KeptByRuns(cfg: Config, w: World, run: seq<Label>)
    requires cfg.Valid() && Invariant(cfg, w) && ExecuteFrom(cfg, w, run).Some?
    ensures Invariant(cfg, ExecuteFrom(cfg, w, run).value)
    decreases |run|
  {
    hide Invariant, Enabled, Perform;
    if run != [] {
      Preserved(cfg, w, run[0]);
      KeptByRuns(cfg, Perform(cfg, w, run[0]), run[1..]);
    }
  }

  /** The invariant holds after every run, whatever crashes, restarts, cancellations, decisions and submissions it has. */
  lemma {:induction false} RunsAreGood(cfg: Config, run: seq<Label>)
    requires cfg.Valid() && Execute(cfg, run).Some?
    ensures Invariant(cfg, Execute(cfg, run).value)
  {
    hide Invariant, ExecuteFrom;
    EmptyWorldSound(cfg);
    KeptByRuns(cfg, EMPTY_WORLD, run);
  }
}
