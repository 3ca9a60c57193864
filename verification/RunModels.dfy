/** The result records of a run and the transition table of run statuses. */
module RunModels {
  import opened Events

  predicate AllowedTransition(a: RunStatus, b: RunStatus) {
    match a
    case Created => b.Running? || b.Cancelled?
    case Running => b.WaitingApproval? || b.Cancelling? || b.Completed? || b.Failed? || b.FailedUncertain?
    case WaitingApproval => b.Running? || b.Cancelling? || b.Failed?
    case Cancelling => b.Cancelled? || b.FailedUncertain?
    case _ => false
  }

  datatype ToolObservation = ToolObservation(callId: string, name: string, output: Content, isError: bool)

  datatype StepResult = StepResult(stepNumber: nat, response: Response, observations: seq<ToolObservation>)

  datatype TurnResult = TurnResult(turnNumber: nat, steps: seq<StepResult>)

  datatype AgentRun = AgentRun(status: RunStatus, turns: seq<TurnResult>, failure: Option<Reason>) {
    /** The constructor's checks: a failed run, and no other, has a reason. */
    predicate Valid() {
      (failure.Some? <==> status.Failed? || status.FailedUncertain?) && (failure.Some? ==> !BlankReason(failure.value))
    }

    /** None stands for the illegal transition, or the constructor's rejection. */
    function Transition(target: RunStatus, reason: Option<Reason>): Option<AgentRun> {
      var next := AgentRun(target, turns, reason);
      if AllowedTransition(status, target) && next.Valid() then Some(next) else None
    }

    function AppendTurn(turn: TurnResult): Option<AgentRun> {
      if status.Running? && turn.turnNumber == |turns| + 1 then Some(this.(turns := turns + [turn])) else None
    }
  }

  /** The edges of the table. */
  const EDGES: set<(RunStatus, RunStatus)> := {
    (Created, Running), (Created, Cancelled),
    (Running, WaitingApproval), (Running, Cancelling), (Running, Completed), (Running, Failed), (Running, FailedUncertain),
    (WaitingApproval, Running), (WaitingApproval, Cancelling), (WaitingApproval, Failed),
    (Cancelling, Cancelled), (Cancelling, FailedUncertain)}

  /** A transition succeeds if and only if the table has the edge and a reason is given for a failure and for nothing else. It
      changes status and reason only, gives a valid record, and never leaves a terminal status. */
  lemma {:induction false} TransitionExactly(run: AgentRun, target: RunStatus, reason: Option<Reason>)
    ensures run.Transition(target, reason).Some?
            <==> && (run.status, target) in EDGES
                 && match reason
                    case None => !target.Failed? && !target.FailedUncertain?
                    case Some(r) => (target.Failed? || target.FailedUncertain?) && !BlankReason(r)
    ensures run.Transition(target, reason).Some? ==>
              && run.Transition(target, reason).value == run.(status := target, failure := reason)
              && run.Transition(target, reason).value.Valid() && !run.status.IsTerminal()
  {
    if reason.Some? {
      assert AgentRun(target, run.turns, reason).Valid() <==> (target.Failed? || target.FailedUncertain?) && !BlankReason(reason.value);
    }
  }
}
