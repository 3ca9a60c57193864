/** Where the projector alone promises less than the runtime keeps, and exactly by how much. */
module ProjectorLimits {
  import opened Events
  import opened RunModels
  import opened Projection
  import opened LogLaws

  /** The projector accepts a status change that the transition table forbids exactly for these terminal events. */
  lemma {:induction false} ForbiddenTransitions(p: RunProjection, first: bool, e: Event)
    requires Accepts(p, first, e)
    ensures (Advance(p, e).status != p.status && !AllowedTransition(p.status, Advance(p, e).status))
            <==> ((e.RunCompleted? && (p.status.WaitingApproval? || p.status.Cancelling?))
                  || (e.RunFailed? && p.status.Cancelling?)
                  || (e.RunFailedUncertain? && p.status.WaitingApproval?))
  {
    hide StepsOfTurn, FindAssistant, IndexOfTool, IndexOfItem, Blank;
    StatusAfter(p, first, e);
  }

  /** The projector completes every cancelling run that has no open step. */
  lemma {:induction false} CancelledRunCompletes(log: seq<Event>)
    requires Project(log).Some? && Project(log).value.status.Cancelling?
    ensures Project(log + [RunCompleted]).Some? <==> !Project(log).value.HasOpenStep()
    ensures Project(log + [RunCompleted]).Some? ==> Project(log + [RunCompleted]).value.status.Completed?
  {
    hide Project;
    ProjectSnoc(log, RunCompleted);
  }

  /** A turn is accepted by its number and by the status alone, whether a step is open or not. A step that is open then is
      never completed, however the log goes on. */
  lemma {:induction false} TurnOverOpenStep(log: seq<Event>, turn: int, rest: seq<Event>)
    requires Project(log).Some?
    ensures Project(log + [TurnStarted(turn)]).Some?
            <==> Project(log).value.status.Running? && turn == Project(log).value.turn + 1 && turn >= 1
    ensures Project(log).value.HasOpenStep() && Project((log + [TurnStarted(turn)]) + rest).Some? ==>
              Project(log).value.OpenKey() !in Project((log + [TurnStarted(turn)]) + rest).value.completed
  {
    hide Project, StepsOfTurn;
    var p := Project(log).value;
    ProjectSnoc(log, TurnStarted(turn));
    if p.HasOpenStep() && Project((log + [TurnStarted(turn)]) + rest).Some? {
      NeverCompleted(log + [TurnStarted(turn)], rest, p.OpenKey());
    }
  }

  /** A step of an earlier turn. */
  predicate LeftBehind(p: RunProjection, key: StepKey) {
    key.turn < p.turn && key !in p.completed
  }

  lemma {:induction false} NeverCompleted(log: seq<Event>, rest: seq<Event>, key: StepKey)
    requires Project(log + rest).Some? && (Project(log).Some? ==> LeftBehind(Project(log).value, key))
    ensures LeftBehind(Project(log + rest).value, key)
    decreases |rest|
  {
    hide Project, Accepts, Advance, LeftBehind;
    if rest == [] {
      assert log + rest == log;
    } else {
      var front, e := rest[..|rest| - 1], rest[|rest| - 1];
      assert log + rest == (log + front) + [e];
      ProjectSnoc(log + front, e);
      NeverCompleted(log, front, key);
      StaysBehind(Project(log + front).value, log + front == [], e, key);
    }
  }

  lemma {:induction false} StaysBehind(p: RunProjection, first: bool, e: Event, key: StepKey)
    requires Accepts(p, first, e) && LeftBehind(p, key)
    ensures LeftBehind(Advance(p, e), key)
  {
    hide StepsOfTurn, FindAssistant, IndexOfTool, IndexOfItem, Blank;
  }

  /** Submitting to a running run leaves a log that the projector accepts if and only if the message id is new: `submit` does
      not check it. */
  lemma {:induction false} SubmissionAccepted(log: seq<Event>, id: string, kind: InboxKind, target: InboxTarget, role: Role, content: string)
    requires Project(log).Some? && Project(log).value.status.Running? && !Blank(id) && !BlankRole(role) && !Blank(content)
    ensures Project(log + [InboxSubmitted(id, kind, target, role, content)]).Some?
            <==> forall i | 0 <= i < |Project(log).value.inbox| :: Project(log).value.inbox[i].messageId != id
  {
    hide Project, Blank;
    ProjectSnoc(log, InboxSubmitted(id, kind, target, role, content));
    IndexOfItemFirst(Project(log).value.inbox, id);
  }
}
