/** The incident projector: a second, independent reader of the same log, and how it agrees with the first. */
module IncidentState {
  import opened Events
  import opened Projection
  import opened Runtime
  import opened RuntimeInvariant
  import opened LogLaws

  datatype EvidenceReference = EvidenceReference(summary: string, source: nat)

  datatype Claim = Claim(statement: string, source: nat, evidenceIds: seq<string>)

  datatype ActionStatus = ActionRequested | ActionStarted | ActionCompleted | ActionFailed

  datatype ExecutedAction = ExecutedAction(callId: string, name: string, arguments: string, status: ActionStatus,
                                           requested: nat, terminal: Option<nat>, result: Option<Content>)

  datatype ApprovalStatus = Pending | Approved | Refused

  datatype ApprovalState = ApprovalState(requestId: RequestId, callId: string, status: ApprovalStatus, requested: nat, decided: Option<nat>)

  datatype UnfinishedItem = UnfinishedItem(description: string, source: nat)

  /** Actions and approvals keep their order of insertion. */
  datatype Incident = Incident(
    evidence: map<string, EvidenceReference>,
    facts: map<string, Claim>,
    hypothesis: Option<Claim>,
    actions: seq<ExecutedAction>,
    approvals: seq<ApprovalState>,
    unfinished: map<string, UnfinishedItem>)

  const NO_INCIDENT := Incident(map[], map[], None, [], [], map[])

  function IndexOfAction(actions: seq<ExecutedAction>, callId: string): (r: nat)
    ensures r <= |actions|
    ensures r < |actions| ==> actions[r].callId == callId
    ensures forall i | 0 <= i < r :: actions[i].callId != callId
  {
    if actions == [] then 0 else if actions[0].callId == callId then 0 else 1 + IndexOfAction(actions[1..], callId)
  }

  function IndexOfApproval(approvals: seq<ApprovalState>, id: RequestId): (r: nat)
    ensures r <= |approvals|
    ensures r < |approvals| ==> approvals[r].requestId == id
    ensures forall i | 0 <= i < r :: approvals[i].requestId != id
  {
    if approvals == [] then 0 else if approvals[0].requestId == id then 0 else 1 + IndexOfApproval(approvals[1..], id)
  }

  predicate BlankRequest(id: RequestId) {
    id.OtherRequest? && Blank(id.text)
  }

  predicate Known(s: Incident, evidenceIds: seq<string>) {
    forall i | 0 <= i < |evidenceIds| :: !Blank(evidenceIds[i]) && evidenceIds[i] in s.evidence
  }

  /** The incident projector's own guards. */
  predicate Admits(s: Incident, e: Event) {
    match e
    case EvidenceRecorded(_, _, id) => !Blank(id) && id !in s.evidence
    case FactConfirmed(id, statement, evidenceIds) => !Blank(id) && Known(s, evidenceIds) && !Blank(statement)
    case HypothesisUpdated(statement, evidenceIds) => !Blank(statement) && Known(s, evidenceIds)
    case ToolRequested(callId, name, _, effect, _) => effect.Mutate? ==> !Blank(callId) && !Blank(name)
    case ToolStarted(callId) => !Blank(callId)
    case ToolCompleted(callId, _, _) => !Blank(callId)
    case ToolFailed(callId, _) => !Blank(callId)
    case ApprovalRequested(id, callId) => !BlankRequest(id) && IndexOfApproval(s.approvals, id) == |s.approvals| && !Blank(callId)
    case ApprovalDecided(id, _) =>
      !BlankRequest(id) && IndexOfApproval(s.approvals, id) < |s.approvals| && s.approvals[IndexOfApproval(s.approvals, id)].decided.None?
    case WorkItemAdded(id, description) => !Blank(id) && !Blank(description)
    case WorkItemCompleted(id) => !Blank(id) && id in s.unfinished
    case _ => true
  }

  function UpdateAction(s: Incident, callId: string, f: ExecutedAction -> ExecutedAction): Incident {
    var i := IndexOfAction(s.actions, callId);
    if i < |s.actions| then s.(actions := s.actions[i := f(s.actions[i])]) else s
  }

  function EndAction(s: Incident, n: nat, callId: string, status: ActionStatus, output: Content): Incident {
    UpdateAction(s, callId, (a: ExecutedAction) => a.(status := status, terminal := Some(n), result := Some(output)))
  }

  /** The effect of the event with sequence `n`. */
  function Note(s: Incident, n: nat, e: Event): Incident {
    match e
    case EvidenceRecorded(_, content, id) => s.(evidence := s.evidence[id := EvidenceReference(content, n)])
    case FactConfirmed(id, statement, evidenceIds) => s.(facts := s.facts[id := Claim(statement, n, evidenceIds)])
    case HypothesisUpdated(statement, evidenceIds) => s.(hypothesis := Some(Claim(statement, n, evidenceIds)))
    case ToolRequested(callId, name, arguments, effect, _) =>
      if effect.Read? then s
      else
        var a := ExecutedAction(callId, name, arguments, ActionRequested, n, None, None);
        var i := IndexOfAction(s.actions, callId);
        s.(actions := if i < |s.actions| then s.actions[i := a] else s.actions + [a])
    case ToolStarted(callId) => UpdateAction(s, callId, (a: ExecutedAction) => a.(status := ActionStarted))
    case ToolCompleted(callId, _, output) => EndAction(s, n, callId, ActionCompleted, output)
    case ToolFailed(callId, output) => EndAction(s, n, callId, ActionFailed, output)
    case ApprovalRequested(id, callId) => s.(approvals := s.approvals + [ApprovalState(id, callId, Pending, n, None)])
    case ApprovalDecided(id, approved) =>
      var i := IndexOfApproval(s.approvals, id);
      if i < |s.approvals| then
        s.(approvals := s.approvals[i := s.approvals[i].(status := if approved then Approved else Refused, decided := Some(n))])
      else s
    case WorkItemAdded(id, description) => s.(unfinished := s.unfinished[id := UnfinishedItem(description, n)])
    case WorkItemCompleted(id) => s.(unfinished := s.unfinished - {id})
    case _ => s
  }

  /** The fold from `s`; the first event has sequence `n`. */
  function IncidentFrom(s: Incident, n: nat, log: seq<Event>): Option<Incident>
    decreases |log|
  {
    if log == [] then Some(s)
    else if Admits(s, log[0]) then IncidentFrom(Note(s, n, log[0]), n + 1, log[1..])
    else None
  }

  /** What the incident projector reads from a log, after the run projector has accepted it. */
  function IncidentOf(log: seq<Event>): Option<Incident> {
    if Project(log).None? then None else IncidentFrom(NO_INCIDENT, 1, log)
  }

  lemma {:induction false} IncidentFromSnoc(s: Incident, n: nat, log: seq<Event>, e: Event)
    ensures IncidentFrom(s, n, log + [e])
         == var before := IncidentFrom(s, n, log);
            if before.Some? && Admits(before.value, e) then Some(Note(before.value, n + |log|, e)) else None
    decreases |log|
  {
    hide Admits, Note;
    if log == [] {
      assert log + [e] == [e] && [e][1..] == [];
    } else {
      assert (log + [e])[1..] == log[1..] + [e];
      if Admits(s, log[0]) {
        IncidentFromSnoc(Note(s, n, log[0]), n + 1, log[1..], e);
      }
    }
  }

  lemma {:induction false} IncidentLast(log: seq<Event>)
    requires log != []
    ensures var front, e := log[..|log| - 1], log[|log| - 1];
            IncidentOf(log)
            == if IncidentOf(front).Some? && Accepts(Project(front).value, |log| == 1, e) && Admits(IncidentOf(front).value, e)
               then Some(Note(IncidentOf(front).value, |log|, e)) else None
  {
    hide Admits, Note, Accepts, Advance, Project, IncidentFrom;
    var front, e := log[..|log| - 1], log[|log| - 1];
    assert front + [e] == log;
    ProjectLast(log);
    IncidentFromSnoc(NO_INCIDENT, 1, front, e);
  }

  /** `project`, for a log that the run projector has accepted. */
  method ProjectIncident(log: seq<Event>) returns (r: Option<Incident>)
    ensures r == IncidentOf(log)
  {
    hide Project, Note, Admits, IncidentFrom, Accepts;
    if Project(log).None? {
      return None;
    }
    var s := NO_INCIDENT;
    var i := 0;
    assert log[0..] == log;
    while i < |log|
      invariant 0 <= i <= |log|
      invariant IncidentFrom(NO_INCIDENT, 1, log) == IncidentFrom(s, i + 1, log[i..])
    {
      IncidentNext(s, i + 1, log, i);
      if !Admits(s, log[i]) {
        return None;
      }
      s := Note(s, i + 1, log[i]);
      i := i + 1;
    }
    IncidentDone(s, i + 1, log);
    return Some(s);
  }

  lemma {:induction false} IncidentNext(s: Incident, n: nat, log: seq<Event>, i: nat)
    requires i < |log|
    ensures IncidentFrom(s, n, log[i..]) == if Admits(s, log[i]) then IncidentFrom(Note(s, n, log[i]), n + 1, log[i + 1..]) else None
  {
    hide Admits, Note;
    assert log[i..][1..] == log[i + 1..];
  }

  lemma {:induction false} IncidentDone(s: Incident, n: nat, log: seq<Event>)
    ensures IncidentFrom(s, n, log[|log|..]) == Some(s)
  {
  }

  /* ---------------------------------------------------------------- actions are the mutating tools */

  function Mutating(tools: seq<ToolRecord>): seq<ToolRecord> {
    if tools == [] then []
    else Mutating(tools[..|tools| - 1]) + (if tools[|tools| - 1].effect.Mutate? then [tools[|tools| - 1]] else [])
  }

  function StatusOf(state: ToolState): ActionStatus {
    match state
    case Requested => ActionRequested
    case Started => ActionStarted
    case Succeeded => ActionCompleted
    case Errored => ActionFailed
  }

  /** The same call in the same state. */
  predicate SameCall(a: ExecutedAction, t: ToolRecord) {
    a.callId == t.callId && a.name == t.name && a.arguments == t.arguments && a.status == StatusOf(t.state)
  }

  predicate ActionsMatch(actions: seq<ExecutedAction>, tools: seq<ToolRecord>) {
    |actions| == |tools| && forall i | 0 <= i < |actions| :: SameCall(actions[i], tools[i])
  }

  /** No completed event is flagged as an error. */
  predicate NoneFlagged(log: seq<Event>) {
    forall i | 0 <= i < |log| :: log[i].ToolCompleted? ==> !log[i].isError
  }

  lemma {:induction false} MutatingFound(tools: seq<ToolRecord>, m: nat) returns (k: nat)
    requires m < |Mutating(tools)|
    ensures k < |tools| && Mutating(tools)[m] == tools[k]
  {
    var front := tools[..|tools| - 1];
    if m < |Mutating(front)| {
      k := MutatingFound(front, m);
    } else {
      k := |tools| - 1;
    }
  }

  /** Changing the state of one tool changes the mutating ones at one place, if it is mutating. */
  lemma {:induction false} MutatingUpdate(tools: seq<ToolRecord>, k: nat, state: ToolState) returns (m: nat)
    requires k < |tools|
    ensures tools[k].effect.Mutate? ==>
              && m < |Mutating(tools)| && Mutating(tools)[m] == tools[k]
              && Mutating(tools[k := tools[k].(state := state)]) == Mutating(tools)[m := tools[k].(state := state)]
    ensures tools[k].effect.Read? ==> Mutating(tools[k := tools[k].(state := state)]) == Mutating(tools)
  {
    var front := tools[..|tools| - 1];
    var after := tools[k := tools[k].(state := state)];
    if k < |tools| - 1 {
      m := MutatingUpdate(front, k, state);
      assert after[..|after| - 1] == front[k := front[k].(state := state)];
    } else {
      m := |Mutating(front)|;
      assert after[..|after| - 1] == front;
    }
  }

  /** Updating one tool and its action alike keeps the match. */
  lemma {:induction false} UpdatedMatches(actions: seq<ExecutedAction>, tools: seq<ToolRecord>, k: nat, state: ToolState)
    requires UniqueTools(tools) && ActionsMatch(actions, Mutating(tools)) && k < |tools|
    ensures var i := IndexOfAction(actions, tools[k].callId);
            var after := Mutating(tools[k := tools[k].(state := state)]);
            if tools[k].effect.Mutate? then
              i < |actions|
              && forall a: ExecutedAction | SameCall(a, tools[k].(state := state)) :: ActionsMatch(actions[i := a], after)
            else i == |actions| && ActionsMatch(actions, after)
  {
    hide Mutating, StatusOf;
    var m := MutatingUpdate(tools, k, state);
    MutatingOnce(tools, k);
    var i := IndexOfAction(actions, tools[k].callId);
    if tools[k].effect.Mutate? {
      MutatingDistinct(tools);
      ActionAt(actions, Mutating(tools), m, tools[k].callId);
    }
  }

  /** What a later event of a call does to its action, if it has one. */
  lemma {:induction false} ActionAfter(s: Incident, n: nat, e: Event)
    requires e.ToolStarted? || e.ToolCompleted? || e.ToolFailed?
    ensures var i := IndexOfAction(s.actions, e.callId);
            var after := Note(s, n, e).actions;
            if i == |s.actions| then after == s.actions
            else
              && |after| == |s.actions| && after == s.actions[i := after[i]]
              && after[i].callId == s.actions[i].callId && after[i].name == s.actions[i].name && after[i].arguments == s.actions[i].arguments
              && after[i].status == if e.ToolStarted? then ActionStarted else if e.ToolCompleted? then ActionCompleted else ActionFailed
  {
  }

  /** A later event of a call does the same to its tool and to its action. */
  lemma {:induction false} HandledMatches(s: Incident, n: nat, p: RunProjection, first: bool, e: Event)
    requires Accepts(p, first, e) && (e.ToolStarted? || e.ToolCompleted? || e.ToolFailed?) && (e.ToolCompleted? ==> !e.isError)
    requires UniqueTools(p.tools) && ActionsMatch(s.actions, Mutating(p.tools))
    ensures ActionsMatch(Note(s, n, e).actions, Mutating(Advance(p, e).tools))
  {
    hide Accepts, Advance, Mutating, ActionsMatch, UniqueTools, Note, IndexOfTool;
    ActionAfter(s, n, e);
    ToolsAfter(p, first, e);
    var k := IndexOfTool(p.tools, e.callId);
    IndexOfToolFirst(p.tools, e.callId);
    var state := if e.ToolStarted? then Started else if e.ToolFailed? then Errored else Succeeded;
    UpdatedMatches(s.actions, p.tools, k, state);
    ActionStands(s.actions, p.tools, k);
    var i := IndexOfAction(s.actions, e.callId);
    var after := Note(s, n, e).actions;
    if i < |s.actions| {
      assert SameCall(after[i], p.tools[k].(state := state));
      assert after == s.actions[i := after[i]];
    }
  }

  /** The action of a mutating tool names the same call. */
  lemma {:induction false} ActionStands(actions: seq<ExecutedAction>, tools: seq<ToolRecord>, k: nat)
    requires UniqueTools(tools) && ActionsMatch(actions, Mutating(tools)) && k < |tools|
    ensures var i := IndexOfAction(actions, tools[k].callId);
            tools[k].effect.Mutate? ==> i < |actions| && SameCall(actions[i], tools[k])
  {
    hide Mutating;
    var m := MutatingUpdate(tools, k, tools[k].state);
    if tools[k].effect.Mutate? {
      MutatingDistinct(tools);
      ActionAt(actions, Mutating(tools), m, tools[k].callId);
    }
  }

  /** Only mutating tools are listed. */
  lemma {:induction false} MutatingOnce(tools: seq<ToolRecord>, k: nat)
    requires UniqueTools(tools) && k < |tools|
    ensures tools[k].effect.Read? ==> forall m | 0 <= m < |Mutating(tools)| :: Mutating(tools)[m].callId != tools[k].callId
  {
    if tools[k].effect.Read? {
      forall m | 0 <= m < |Mutating(tools)| ensures Mutating(tools)[m].callId != tools[k].callId {
        var i := MutatingFound(tools, m);
        MutatingMutates(tools, m);
        assert i != k;
      }
    }
  }

  lemma {:induction false} MutatingMutates(tools: seq<ToolRecord>, m: nat)
    requires m < |Mutating(tools)|
    ensures Mutating(tools)[m].effect.Mutate?
  {
    var front := tools[..|tools| - 1];
    if m < |Mutating(front)| {
      MutatingMutates(front, m);
    }
  }

  lemma {:induction false} MutatingDistinct(tools: seq<ToolRecord>)
    requires UniqueTools(tools)
    ensures UniqueTools(Mutating(tools))
  {
    if tools != [] {
      var front := tools[..|tools| - 1];
      MutatingDistinct(front);
      forall m | 0 <= m < |Mutating(front)| ensures Mutating(front)[m].callId != tools[|tools| - 1].callId {
        var i := MutatingFound(front, m);
      }
    }
  }

  lemma {:induction false} ActionAt(actions: seq<ExecutedAction>, tools: seq<ToolRecord>, m: nat, callId: string)
    requires ActionsMatch(actions, tools) && m < |tools| && tools[m].callId == callId && UniqueTools(tools)
    ensures IndexOfAction(actions, callId) == m
  {
    assert SameCall(actions[m], tools[m]);
    var j := IndexOfAction(actions, callId);
    assert SameCall(actions[j], tools[j]);
  }

  /** On logs that both projectors accept, and with no completion flagged as an error, the executed actions are exactly the
      mutating tools, in the same order and states. */
  lemma {:induction false} ActionsAreMutatingTools(log: seq<Event>)
    requires IncidentOf(log).Some? && NoneFlagged(log)
    ensures Project(log).Some? && ActionsMatch(IncidentOf(log).value.actions, Mutating(Project(log).value.tools))
  {
    hide Accepts, Advance, Project, Admits, Note, IncidentFrom, Mutating;
    if log == [] {
      NoToolsYet();
      NoActionsYet();
    } else {
      var front, e := log[..|log| - 1], log[|log| - 1];
      IncidentLast(log);
      ProjectLast(log);
      ActionsAreMutatingTools(front);
      ToolsDistinct(front);
      ActionsStep(IncidentOf(front).value, |log|, Project(front).value, |log| == 1, e);
    }
  }

  lemma {:induction false} NoActionsYet()
    ensures IncidentOf([]) == Some(NO_INCIDENT) && Mutating([]) == []
  {
  }

  lemma {:induction false} ActionsStep(s: Incident, n: nat, p: RunProjection, first: bool, e: Event)
    requires Accepts(p, first, e) && Admits(s, e) && (e.ToolCompleted? ==> !e.isError)
    requires UniqueTools(p.tools) && ActionsMatch(s.actions, Mutating(p.tools))
    ensures ActionsMatch(Note(s, n, e).actions, Mutating(Advance(p, e).tools))
  {
    hide FindAssistant, StepsOfTurn, Mutating;
    if e.ToolStarted? || e.ToolCompleted? || e.ToolFailed? {
      HandledMatches(s, n, p, first, e);
    } else if e.ToolRequested? {
      NewTool(p.tools, Advance(p, e).tools[|p.tools|]);
      NoActionYet(s.actions, p.tools, e.callId);
    } else {
      SameToolsElsewhere(p, first, e);
    }
  }

  /** A call without a tool has no action. */
  lemma {:induction false} NoActionYet(actions: seq<ExecutedAction>, tools: seq<ToolRecord>, callId: string)
    requires ActionsMatch(actions, Mutating(tools)) && IndexOfTool(tools, callId) == |tools|
    ensures IndexOfAction(actions, callId) == |actions|
  {
    hide Mutating;
    IndexOfToolFirst(tools, callId);
    forall i | 0 <= i < |actions| ensures actions[i].callId != callId {
      var k := MutatingFound(tools, i);
      assert SameCall(actions[i], Mutating(tools)[i]);
    }
  }

  lemma {:induction false} NewTool(tools: seq<ToolRecord>, t: ToolRecord)
    ensures Mutating(tools + [t]) == Mutating(tools) + (if t.effect.Mutate? then [t] else [])
  {
    assert (tools + [t])[..|tools + [t]| - 1] == tools;
  }

  lemma {:induction false} SameToolsElsewhere(p: RunProjection, first: bool, e: Event)
    requires Accepts(p, first, e) && !e.ToolStarted? && !e.ToolCompleted? && !e.ToolFailed? && !e.ToolRequested?
    ensures Advance(p, e).tools == p.tools
  {
    hide Accepts, Advance;
    ToolsAfter(p, first, e);
  }

  /* ---------------------------------------------------------------- approvals follow the status */

  /** Request ids are distinct and not blank; all but the last are decided; the last one is undecided exactly while the run
      waits, except that a cancelled or ended run may leave it so. */
  predicate ApprovalsFollow(status: RunStatus, approvals: seq<ApprovalState>) {
    && (forall i, j | 0 <= i < j < |approvals| :: approvals[i].requestId != approvals[j].requestId)
    && (forall i | 0 <= i < |approvals| :: !BlankRequest(approvals[i].requestId))
    && (forall i | 0 <= i < |approvals| - 1 :: approvals[i].decided.Some?)
    && (status.Running? || status.Created? ==> forall i | 0 <= i < |approvals| :: approvals[i].decided.Some?)
    && (status.WaitingApproval? ==> |approvals| > 0 && approvals[|approvals| - 1].decided.None?)
  }

  /** How an admitted event changes the approvals. */
  lemma {:induction false} ApprovalsAfter(s: Incident, n: nat, e: Event)
    requires Admits(s, e)
    ensures var i := if e.ApprovalDecided? then IndexOfApproval(s.approvals, e.requestId) else 0;
            var after := Note(s, n, e).approvals;
            if e.ApprovalRequested? then after == s.approvals + [ApprovalState(e.requestId, e.callId, Pending, n, None)]
            else if e.ApprovalDecided? then
              && i < |s.approvals| && s.approvals[i].decided.None?
              && after == s.approvals[i := s.approvals[i].(status := if e.approved then Approved else Refused, decided := Some(n))]
            else after == s.approvals
  {
  }

  /** What an admitted request or decision looks like. */
  lemma {:induction false} ApprovalsAdmitted(s: Incident, e: Event)
    requires Admits(s, e)
    ensures e.ApprovalRequested? ==> !BlankRequest(e.requestId) && IndexOfApproval(s.approvals, e.requestId) == |s.approvals|
  {
  }

  /** How an accepted event changes the status, as far as approvals are concerned. */
  lemma {:induction false} StatusOfApprovals(p: RunProjection, first: bool, e: Event)
    requires Accepts(p, first, e)
    ensures e.ApprovalRequested? ==> p.status.Running? && Advance(p, e).status.WaitingApproval?
    ensures e.ApprovalDecided? ==> p.status.WaitingApproval? && Advance(p, e).status.Running?
    ensures Advance(p, e).status.WaitingApproval? ==> p.status.WaitingApproval? || e.ApprovalRequested?
    ensures Advance(p, e).status.Running? || Advance(p, e).status.Created? ==> p.status.Running? || p.status.Created? || e.ApprovalDecided?
  {
    hide Advance, FindAssistant, StepsOfTurn, IndexOfTool, IndexOfItem, Blank;
    StatusAfter(p, first, e);
  }

  lemma {:induction false} ApprovalsStep(s: Incident, n: nat, p: RunProjection, first: bool, e: Event)
    requires Accepts(p, first, e) && Admits(s, e) && ApprovalsFollow(p.status, s.approvals)
    ensures ApprovalsFollow(Advance(p, e).status, Note(s, n, e).approvals)
  {
    hide BlankRequest, Accepts, Advance, Admits, Note;
    StatusOfApprovals(p, first, e);
    ApprovalsAdmitted(s, e);
    ApprovalsAfter(s, n, e);
    if e.ApprovalDecided? {
      assert IndexOfApproval(s.approvals, e.requestId) == |s.approvals| - 1;
    }
  }

  lemma {:induction false} ApprovalsFollowStatus(log: seq<Event>)
    requires IncidentOf(log).Some?
    ensures Project(log).Some? && ApprovalsFollow(Project(log).value.status, IncidentOf(log).value.approvals)
  {
    hide Accepts, Advance, Project, Admits, Note, IncidentFrom, ApprovalsFollow;
    if log == [] {
      NoToolsYet();
      NothingAsked();
    } else {
      var front := log[..|log| - 1];
      IncidentLast(log);
      ProjectLast(log);
      ApprovalsFollowStatus(front);
      ApprovalsStep(IncidentOf(front).value, |log|, Project(front).value, |log| == 1, log[|log| - 1]);
    }
  }

  lemma {:induction false} NothingAsked()
    ensures IncidentOf([]) == Some(NO_INCIDENT) && ApprovalsFollow(Created, NO_INCIDENT.approvals)
  {
  }

  /** While a run is running no approval is pending; while it waits exactly one is, the one requested last, and a decision
      is acceptable to the incident projector if and only if it names that one. */
  lemma {:induction false} PendingApproval(log: seq<Event>, id: RequestId, approved: bool)
    requires IncidentOf(log).Some?
    ensures Project(log).Some?
    ensures var approvals := IncidentOf(log).value.approvals;
            var status := Project(log).value.status;
            && (status.Running? ==> forall i | 0 <= i < |approvals| :: approvals[i].decided.Some?)
            && (status.WaitingApproval? ==>
                  && |approvals| > 0 && (forall i | 0 <= i < |approvals| :: approvals[i].decided.None? <==> i == |approvals| - 1)
                  && (IncidentOf(log + [ApprovalDecided(id, approved)]).Some? <==> id == approvals[|approvals| - 1].requestId))
  {
    hide Project, IncidentFrom, BlankRequest;
    ApprovalsFollowStatus(log);
    var e := ApprovalDecided(id, approved);
    var all := log + [e];
    assert all[..|all| - 1] == log;
    IncidentLast(all);
    var approvals := IncidentOf(log).value.approvals;
    var i := IndexOfApproval(approvals, id);
    assert |approvals| > 0 && i == |approvals| - 1 ==> approvals[i].requestId == id;
  }

  /* ---------------------------------------------------------------- claims cite earlier evidence */

  /** Every cited piece of evidence was recorded before the claim. */
  predicate Cites(evidence: map<string, EvidenceReference>, c: Claim) {
    forall i | 0 <= i < |c.evidenceIds| :: c.evidenceIds[i] in evidence && evidence[c.evidenceIds[i]].source < c.source
  }

  predicate ClaimsCited(s: Incident, n: nat) {
    && (forall id | id in s.evidence :: s.evidence[id].source <= n)
    && (forall id | id in s.facts :: s.facts[id].source <= n && Cites(s.evidence, s.facts[id]))
    && (s.hypothesis.Some? ==> s.hypothesis.value.source <= n && Cites(s.evidence, s.hypothesis.value))
  }

  lemma {:induction false} ClaimsStep(s: Incident, n: nat, e: Event)
    requires Admits(s, e) && ClaimsCited(s, n)
    ensures ClaimsCited(Note(s, n + 1, e), n + 1)
  {
    hide Note, Admits, ClaimsCited;
    ClaimsAfter(s, n + 1, e);
    match e
    case EvidenceRecorded(_, content, id) => EvidenceAdded(s, n, id, EvidenceReference(content, n + 1));
    case FactConfirmed(id, statement, ids) => FactAdded(s, n, id, Claim(statement, n + 1, ids));
    case HypothesisUpdated(statement, ids) => HypothesisSet(s, n, Claim(statement, n + 1, ids));
    case _ => SameClaims(s, n, Note(s, n + 1, e));
  }

  predicate SameEvidenceAndClaims(s: Incident, r: Incident) {
    r.evidence == s.evidence && r.facts == s.facts && r.hypothesis == s.hypothesis
  }

  /** How an admitted event changes evidence and claims. */
  lemma {:induction false} ClaimsAfter(s: Incident, n: nat, e: Event)
    requires Admits(s, e)
    ensures match e
            case EvidenceRecorded(_, content, id) =>
              id !in s.evidence && Note(s, n, e) == s.(evidence := s.evidence[id := EvidenceReference(content, n)])
            case FactConfirmed(id, statement, ids) =>
              Known(s, ids) && Note(s, n, e) == s.(facts := s.facts[id := Claim(statement, n, ids)])
            case HypothesisUpdated(statement, ids) =>
              Known(s, ids) && Note(s, n, e) == s.(hypothesis := Some(Claim(statement, n, ids)))
            case _ => SameEvidenceAndClaims(s, Note(s, n, e))
  {
    hide IndexOfApproval, IndexOfAction, Blank, Known;
  }

  lemma {:induction false} StillCites(s: Incident, r: Incident, c: Claim)
    requires Cites(s.evidence, c) && forall id | id in s.evidence :: id in r.evidence && r.evidence[id] == s.evidence[id]
    ensures Cites(r.evidence, c)
  {
  }

  lemma {:induction false} EvidenceAdded(s: Incident, n: nat, id: string, reference: EvidenceReference)
    requires ClaimsCited(s, n) && id !in s.evidence && reference.source == n + 1
    ensures ClaimsCited(s.(evidence := s.evidence[id := reference]), n + 1)
  {
    hide Cites;
    var r := s.(evidence := s.evidence[id := reference]);
    forall k | k in r.facts ensures r.facts[k].source <= n + 1 && Cites(r.evidence, r.facts[k]) {
      StillCites(s, r, s.facts[k]);
    }
    if s.hypothesis.Some? {
      StillCites(s, r, s.hypothesis.value);
    }
  }

  /** A new claim cites what is known, and that was recorded before. */
  lemma {:induction false} NewClaimCites(s: Incident, n: nat, c: Claim)
    requires ClaimsCited(s, n) && Known(s, c.evidenceIds) && c.source == n + 1
    ensures Cites(s.evidence, c)
  {
    hide Blank;
  }

  lemma {:induction false} FactAdded(s: Incident, n: nat, id: string, c: Claim)
    requires ClaimsCited(s, n) && Known(s, c.evidenceIds) && c.source == n + 1
    ensures ClaimsCited(s.(facts := s.facts[id := c]), n + 1)
  {
    hide Cites, Known;
    NewClaimCites(s, n, c);
  }

  lemma {:induction false} HypothesisSet(s: Incident, n: nat, c: Claim)
    requires ClaimsCited(s, n) && Known(s, c.evidenceIds) && c.source == n + 1
    ensures ClaimsCited(s.(hypothesis := Some(c)), n + 1)
  {
    hide Cites, Known;
    NewClaimCites(s, n, c);
  }

  lemma {:induction false} SameClaims(s: Incident, n: nat, r: Incident)
    requires ClaimsCited(s, n) && SameEvidenceAndClaims(s, r)
    ensures ClaimsCited(r, n + 1)
  {
    hide Cites;
  }

  /** Confirmed facts and the current hypothesis cite only evidence recorded before them. */
  lemma {:induction false} ClaimsCiteEarlierEvidence(log: seq<Event>)
    requires IncidentOf(log).Some?
    ensures ClaimsCited(IncidentOf(log).value, |log|)
  {
    hide Accepts, Project, Admits, Note, IncidentFrom, ClaimsCited;
    if log == [] {
      NoClaims();
    } else {
      IncidentLast(log);
      ClaimsCiteEarlierEvidence(log[..|log| - 1]);
      ClaimsStep(IncidentOf(log[..|log| - 1]).value, |log| - 1, log[|log| - 1]);
    }
  }

  lemma {:induction false} NoClaims()
    ensures IncidentOf([]) == Some(NO_INCIDENT) && ClaimsCited(NO_INCIDENT, 0)
  {
  }

  /* ---------------------------------------------------------------- which runtime logs have an incident state */

  /** The approval requested last. */
  function LastRequest(log: seq<Event>): Option<RequestId> {
    if log == [] then None
    else if log[|log| - 1].ApprovalRequested? then Some(log[|log| - 1].requestId)
    else LastRequest(log[..|log| - 1])
  }

  /** Every decision names the request the run was waiting for. */
  predicate DecisionsNamePending(log: seq<Event>) {
    log == []
    || (DecisionsNamePending(log[..|log| - 1])
        && (log[|log| - 1].ApprovalDecided? ==> LastRequest(log[..|log| - 1]) == Some(log[|log| - 1].requestId)))
  }

  /** What the approvals say about the log they were read from. */
  predicate ApprovalsRead(log: seq<Event>, approvals: seq<ApprovalState>) {
    && (LastRequest(log) == if approvals == [] then None else Some(approvals[|approvals| - 1].requestId))
    && (forall i | 0 <= i < |approvals| && approvals[i].decided.Some? && approvals[i].requestId.ApprovalOf? ::
          LastDecision(log, approvals[i].requestId.callId).Some?)
  }

  lemma {:induction false} ReadStep(log: seq<Event>, s: Incident, n: nat, p: RunProjection, e: Event)
    requires Accepts(p, log == [], e) && Admits(s, e) && ApprovalsFollow(p.status, s.approvals) && ApprovalsRead(log, s.approvals)
    ensures ApprovalsRead(log + [e], Note(s, n, e).approvals)
  {
    hide FindAssistant, StepsOfTurn, BlankRequest, Note, Admits;
    assert (log + [e])[..|log + [e]| - 1] == log;
    ApprovalsAfter(s, n, e);
    var q := Note(s, n, e).approvals;
    if e.ApprovalDecided? {
      assert IndexOfApproval(s.approvals, e.requestId) == |s.approvals| - 1;
    }
    forall i | 0 <= i < |q| && q[i].decided.Some? && q[i].requestId.ApprovalOf?
      ensures LastDecision(log + [e], q[i].requestId.callId).Some?
    {
      if i < |s.approvals| && s.approvals[i].decided.Some? {
        assert LastDecision(log, s.approvals[i].requestId.callId).Some?;
      }
    }
  }

  lemma {:induction false} ApprovalsAreRead(log: seq<Event>)
    requires IncidentOf(log).Some?
    ensures ApprovalsRead(log, IncidentOf(log).value.approvals)
  {
    hide Accepts, Project, Admits, Note, IncidentFrom, ApprovalsFollow, ApprovalsRead;
    if log == [] {
      NothingRead();
    } else {
      var front, e := log[..|log| - 1], log[|log| - 1];
      IncidentLast(log);
      ApprovalsAreRead(front);
      ApprovalsFollowStatus(front);
      ReadStep(front, IncidentOf(front).value, |log|, Project(front).value, e);
      assert front + [e] == log;
    }
  }

  lemma {:induction false} NothingRead()
    ensures IncidentOf([]) == Some(NO_INCIDENT) && ApprovalsRead([], NO_INCIDENT.approvals)
  {
  }

  /** A runtime event is admitted unless it is a decision that names no pending request. */
  lemma {:induction false} RuntimeEventAdmitted(cfg: Config, log: seq<Event>, s: Incident, p: RunProjection, e: Event)
    requires Accepts(p, log == [], e) && Lawful(cfg, log, p, e)
    requires ApprovalsFollow(p.status, s.approvals) && ApprovalsRead(log, s.approvals)
    ensures Admits(s, e) <==> (e.ApprovalDecided? ==> LastRequest(log) == Some(e.requestId))
  {
    hide FindAssistant, StepsOfTurn, FirstPending, StartLawful, LastRequest, LastDecision, Blank;
    if e.ApprovalRequested? {
      var i := IndexOfApproval(s.approvals, e.requestId);
    }
  }

  /** The incident projector accepts the log of a run if and only if every operator decision named the call that was
      waiting. */
  lemma {:induction false} RuntimeLogsWithIncident(cfg: Config, log: seq<Event>)
    requires LawfulLog(cfg, log) && Project(log).Some?
    ensures IncidentOf(log).Some? <==> DecisionsNamePending(log)
  {
    hide Accepts, Advance, Project, Admits, Note, IncidentFrom, ApprovalsFollow, ApprovalsRead, Lawful;
    if log == [] {
      NothingRead();
    } else {
      var front, e := log[..|log| - 1], log[|log| - 1];
      ProjectLast(log);
      IncidentLast(log);
      RuntimeLogsWithIncident(cfg, front);
      if IncidentOf(front).Some? {
        ApprovalsAreRead(front);
        ApprovalsFollowStatus(front);
        RuntimeEventAdmitted(cfg, front, IncidentOf(front).value, Project(front).value, e);
      }
    }
  }
}
