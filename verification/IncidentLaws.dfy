/** The incident projector against the raw log: which logs it admits, and what each part of the incident is, read off the events
    themselves. */
module IncidentLaws {
  import opened Events
  import opened Projection
  import opened LogLaws
  import opened ProjectedState
  import opened IncidentState

  /* ---------------------------------------------------------------- reading the raw log */

  /** What an event can be about. */
  datatype Subject =
    | EvidenceOf(id: string)
    | FactOf(id: string)
    | TheHypothesis
    | WorkItemOf(id: string)
    | LifeOfCall(id: string)
    | QuestionOf(requestId: RequestId)
    | AnswerTo(requestId: RequestId)

  predicate About(e: Event, s: Subject) {
    match s
    case EvidenceOf(id) => e.EvidenceRecorded? && e.evidenceId == id
    case FactOf(id) => e.FactConfirmed? && e.factId == id
    case TheHypothesis => e.HypothesisUpdated?
    case WorkItemOf(id) => (e.WorkItemAdded? || e.WorkItemCompleted?) && e.itemId == id
    case LifeOfCall(id) => (e.ToolRequested? || e.ToolStarted? || e.ToolCompleted? || e.ToolFailed?) && e.callId == id
    case QuestionOf(id) => e.ApprovalRequested? && e.requestId == id
    case AnswerTo(id) => e.ApprovalDecided? && e.requestId == id
  }

  /** Where the last event about the subject is. */
  function LastAbout(log: seq<Event>, s: Subject): (r: Option<nat>)
    ensures r.Some? ==> r.value < |log| && About(log[r.value], s)
  {
    if log == [] then None
    else if About(log[|log| - 1], s) then Some(|log| - 1)
    else LastAbout(log[..|log| - 1], s)
  }

  lemma {:induction false} LastAboutSnoc(log: seq<Event>, e: Event, s: Subject)
    ensures LastAbout(log + [e], s) == if About(e, s) then Some(|log|) else LastAbout(log, s)
  {
    assert (log + [e])[..|log + [e]| - 1] == log;
  }

  /** There is an event about the subject, and none after it; or there is none at all. */
  lemma {:induction false} LastAboutExactly(log: seq<Event>, s: Subject)
    ensures match LastAbout(log, s)
            case None => forall j | 0 <= j < |log| :: !About(log[j], s)
            case Some(k) => k < |log| && About(log[k], s) && forall j | k < j < |log| :: !About(log[j], s)
  {
    hide About;
    if log != [] {
      LastAboutExactly(log[..|log| - 1], s);
    }
  }

  /** Evidence is what its event says. */
  function EvidenceIn(log: seq<Event>, id: string): Option<EvidenceReference> {
    match LastAbout(log, EvidenceOf(id))
    case None => None
    case Some(k) => Some(EvidenceReference(log[k].content, k + 1))
  }

  /** A fact is what was confirmed last under its id. */
  function FactIn(log: seq<Event>, id: string): Option<Claim> {
    match LastAbout(log, FactOf(id))
    case None => None
    case Some(k) => Some(Claim(log[k].statement, k + 1, log[k].evidenceIds))
  }

  function HypothesisIn(log: seq<Event>): Option<Claim> {
    match LastAbout(log, TheHypothesis)
    case None => None
    case Some(k) => Some(Claim(log[k].statement, k + 1, log[k].evidenceIds))
  }

  /** An item is unfinished when it was added and not completed since. */
  function WorkItemIn(log: seq<Event>, id: string): Option<UnfinishedItem> {
    match LastAbout(log, WorkItemOf(id))
    case None => None
    case Some(k) => if log[k].WorkItemAdded? then Some(UnfinishedItem(log[k].description, k + 1)) else None
  }

  predicate IsMutation(e: Event) { e.ToolRequested? && e.effect.Mutate? }
  predicate IsQuestion(e: Event) { e.ApprovalRequested? }

  /** The action requested at `k`, with what the last event of its call says. */
  predicate ActionFrom(log: seq<Event>, k: nat, a: ExecutedAction) {
    && k < |log| && IsMutation(log[k])
    && a.callId == log[k].callId && a.name == log[k].name && a.arguments == log[k].arguments && a.requested == k + 1
    && match LastAbout(log, LifeOfCall(log[k].callId))
       case None => false
       case Some(m) =>
         match log[m]
         case ToolStarted(_) => a.status.ActionStarted? && a.terminal.None? && a.result.None?
         case ToolCompleted(_, _, output) => a.status.ActionCompleted? && a.terminal == Some(m + 1) && a.result == Some(output)
         case ToolFailed(_, output) => a.status.ActionFailed? && a.terminal == Some(m + 1) && a.result == Some(output)
         case _ => a.status.ActionRequested? && a.terminal.None? && a.result.None?
  }

  /** The approval requested at `k`, with its decision. */
  predicate ApprovalFrom(log: seq<Event>, k: nat, a: ApprovalState) {
    && k < |log| && IsQuestion(log[k])
    && a.requestId == log[k].requestId && a.callId == log[k].callId && a.requested == k + 1
    && match LastAbout(log, AnswerTo(log[k].requestId))
       case None => a.status.Pending? && a.decided.None?
       case Some(m) => a.status == (if log[m].approved then Approved else Refused) && a.decided == Some(m + 1)
  }

  function Entry<K, V>(entries: map<K, V>, key: K): Option<V> {
    if key in entries then Some(entries[key]) else None
  }

  ghost predicate EntriesRead(log: seq<Event>, s: Incident) {
    && (forall id :: Entry(s.evidence, id) == EvidenceIn(log, id))
    && (forall id :: Entry(s.facts, id) == FactIn(log, id))
    && s.hypothesis == HypothesisIn(log)
    && (forall id :: Entry(s.unfinished, id) == WorkItemIn(log, id))
  }

  predicate ActionsRead(log: seq<Event>, actions: seq<ExecutedAction>) {
    var at := Where(log, IsMutation);
    |actions| == |at| && forall i | 0 <= i < |actions| :: ActionFrom(log, at[i], actions[i])
  }

  predicate QuestionsRead(log: seq<Event>, approvals: seq<ApprovalState>) {
    var at := Where(log, IsQuestion);
    |approvals| == |at| && forall i | 0 <= i < |approvals| :: ApprovalFrom(log, at[i], approvals[i])
  }

  predicate DistinctActions(actions: seq<ExecutedAction>) {
    forall i, j | 0 <= i < j < |actions| :: actions[i].callId != actions[j].callId
  }

  predicate DistinctApprovals(approvals: seq<ApprovalState>) {
    forall i, j | 0 <= i < j < |approvals| :: approvals[i].requestId != approvals[j].requestId
  }

  /* ---------------------------------------------------------------- entries */

  lemma {:induction false} EvidenceNext(log: seq<Event>, s: Incident, e: Event, id: string)
    requires Entry(s.evidence, id) == EvidenceIn(log, id)
    ensures Entry(Note(s, |log| + 1, e).evidence, id) == EvidenceIn(log + [e], id)
  {
    hide LastAbout, IndexOfAction, IndexOfApproval;
    LastAboutSnoc(log, e, EvidenceOf(id));
  }

  lemma {:induction false} FactNext(log: seq<Event>, s: Incident, e: Event, id: string)
    requires Entry(s.facts, id) == FactIn(log, id)
    ensures Entry(Note(s, |log| + 1, e).facts, id) == FactIn(log + [e], id)
  {
    hide LastAbout, IndexOfAction, IndexOfApproval;
    LastAboutSnoc(log, e, FactOf(id));
  }

  lemma {:induction false} HypothesisNext(log: seq<Event>, s: Incident, e: Event)
    requires s.hypothesis == HypothesisIn(log)
    ensures Note(s, |log| + 1, e).hypothesis == HypothesisIn(log + [e])
  {
    hide LastAbout, IndexOfAction, IndexOfApproval;
    LastAboutSnoc(log, e, TheHypothesis);
  }

  lemma {:induction false} WorkItemNext(log: seq<Event>, s: Incident, e: Event, id: string)
    requires Entry(s.unfinished, id) == WorkItemIn(log, id)
    ensures Entry(Note(s, |log| + 1, e).unfinished, id) == WorkItemIn(log + [e], id)
  {
    hide LastAbout, IndexOfAction, IndexOfApproval;
    LastAboutSnoc(log, e, WorkItemOf(id));
  }

  lemma {:induction false} EntriesNext(log: seq<Event>, s: Incident, e: Event)
    requires EntriesRead(log, s)
    ensures EntriesRead(log + [e], Note(s, |log| + 1, e))
  {
    hide Entry, EvidenceIn, FactIn, HypothesisIn, WorkItemIn, Note;
    HypothesisNext(log, s, e);
    forall id ensures Entry(Note(s, |log| + 1, e).evidence, id) == EvidenceIn(log + [e], id) {
      EvidenceNext(log, s, e, id);
    }
    forall id ensures Entry(Note(s, |log| + 1, e).facts, id) == FactIn(log + [e], id) {
      FactNext(log, s, e, id);
    }
    forall id ensures Entry(Note(s, |log| + 1, e).unfinished, id) == WorkItemIn(log + [e], id) {
      WorkItemNext(log, s, e, id);
    }
  }

  /* ---------------------------------------------------------------- actions */

  /** The last event of a call is the end of its life so far. */
  lemma {:induction false} LastOfCall(log: seq<Event>, id: string)
    ensures LastOf(log, id)
         == match LastAbout(log, LifeOfCall(id))
            case None => None
            case Some(k) => LifeEvent(log[k], id)
  {
    if log != [] {
      LastOfCall(log[..|log| - 1], id);
      if LifeEvent(log[|log| - 1], id).None? {
        assert LifeOf(log, id) == LifeOf(log[..|log| - 1], id);
      }
    }
  }

  /** Events of other calls, and none at all, leave an action as it is. */
  lemma {:induction false} ActionStays(log: seq<Event>, k: nat, a: ExecutedAction, e: Event)
    requires ActionFrom(log, k, a) && !About(e, LifeOfCall(a.callId))
    ensures ActionFrom(log + [e], k, a)
  {
    hide LastAbout;
    LastAboutSnoc(log, e, LifeOfCall(a.callId));
  }

  /** A later event of the call changes its action. */
  lemma {:induction false} ActionMoves(log: seq<Event>, k: nat, a: ExecutedAction, e: Event)
    requires ActionFrom(log, k, a) && (e.ToolStarted? || e.ToolCompleted? || e.ToolFailed?) && e.callId == a.callId
    requires e.ToolStarted? ==> !(LastOf(log, e.callId).Some? && LastOf(log, e.callId).value.Ended?)
    ensures ActionFrom(log + [e], k,
                       if e.ToolStarted? then a.(status := ActionStarted)
                       else a.(status := if e.ToolCompleted? then ActionCompleted else ActionFailed,
                               terminal := Some(|log| + 1), result := Some(e.output)))
  {
    hide LastAbout, LastOf;
    LastAboutSnoc(log, e, LifeOfCall(a.callId));
    LastOfCall(log, a.callId);
  }

  /** The actions after one event. */
  lemma {:induction false} ActionsAfter(s: Incident, n: nat, e: Event)
    ensures var i := IndexOfAction(s.actions, if e.ToolRequested? || e.ToolStarted? || e.ToolCompleted? || e.ToolFailed? then e.callId else "");
            Note(s, n, e).actions
            == match e
               case ToolRequested(callId, name, arguments, effect, _) =>
                 if effect.Read? then s.actions
                 else if i < |s.actions| then s.actions[i := ExecutedAction(callId, name, arguments, ActionRequested, n, None, None)]
                 else s.actions + [ExecutedAction(callId, name, arguments, ActionRequested, n, None, None)]
               case ToolStarted(_) => if i < |s.actions| then s.actions[i := s.actions[i].(status := ActionStarted)] else s.actions
               case ToolCompleted(_, _, output) =>
                 if i < |s.actions| then
                   s.actions[i := s.actions[i].(status := ActionCompleted, terminal := Some(n), result := Some(output))]
                 else s.actions
               case ToolFailed(_, output) =>
                 if i < |s.actions| then
                   s.actions[i := s.actions[i].(status := ActionFailed, terminal := Some(n), result := Some(output))]
                 else s.actions
               case _ => s.actions
  {
    hide IndexOfAction, IndexOfApproval;
  }

  lemma {:induction false} NoSuchAction(log: seq<Event>, actions: seq<ExecutedAction>, id: string)
    requires ActionsRead(log, actions) && !RequestedIn(log, id)
    ensures forall i | 0 <= i < |actions| :: actions[i].callId != id
  {
    hide Where, LastAbout;
    var at := Where(log, IsMutation);
    forall i | 0 <= i < |actions| ensures actions[i].callId != id {
      assert ActionFrom(log, at[i], actions[i]);
    }
  }

  lemma {:induction false} ActionRequestedNext(log: seq<Event>, s: Incident, e: Event)
    requires ActionsRead(log, s.actions) && DistinctActions(s.actions) && e.ToolRequested? && !RequestedIn(log, e.callId)
    ensures ActionsRead(log + [e], Note(s, |log| + 1, e).actions) && DistinctActions(Note(s, |log| + 1, e).actions)
  {
    hide Where, LastAbout, Note, ActionFrom, RequestedIn;
    ActionsAfter(s, |log| + 1, e);
    NoSuchAction(log, s.actions, e.callId);
    var at := Where(log, IsMutation);
    WhereSnoc(log, e, IsMutation);
    forall i | 0 <= i < |s.actions| ensures ActionFrom(log + [e], at[i], s.actions[i]) {
      ActionStays(log, at[i], s.actions[i], e);
    }
    if e.effect.Mutate? {
      NewAction(log, e);
    }
  }

  lemma {:induction false} NewAction(log: seq<Event>, e: Event)
    requires IsMutation(e)
    ensures ActionFrom(log + [e], |log|, ExecutedAction(e.callId, e.name, e.arguments, ActionRequested, |log| + 1, None, None))
  {
    LastAboutSnoc(log, e, LifeOfCall(e.callId));
  }

  lemma {:induction false} ActionHandledNext(log: seq<Event>, s: Incident, e: Event)
    requires ActionsRead(log, s.actions) && DistinctActions(s.actions) && (e.ToolStarted? || e.ToolCompleted? || e.ToolFailed?)
    requires e.ToolStarted? ==> !(LastOf(log, e.callId).Some? && LastOf(log, e.callId).value.Ended?)
    ensures ActionsRead(log + [e], Note(s, |log| + 1, e).actions) && DistinctActions(Note(s, |log| + 1, e).actions)
  {
    hide Where, LastAbout, Note, ActionFrom, LastOf;
    ActionsAfter(s, |log| + 1, e);
    var at := Where(log, IsMutation);
    WhereSnoc(log, e, IsMutation);
    var after := Note(s, |log| + 1, e).actions;
    forall i | 0 <= i < |after| ensures ActionFrom(log + [e], at[i], after[i]) {
      assert ActionFrom(log, at[i], s.actions[i]);
      if i == IndexOfAction(s.actions, e.callId) {
        ActionMoves(log, at[i], s.actions[i], e);
      } else {
        ActionStays(log, at[i], s.actions[i], e);
      }
    }
  }

  lemma {:induction false} ActionsNext(log: seq<Event>, s: Incident, e: Event)
    requires ActionsRead(log, s.actions) && DistinctActions(s.actions) && MayFollow(log, e)
    ensures ActionsRead(log + [e], Note(s, |log| + 1, e).actions) && DistinctActions(Note(s, |log| + 1, e).actions)
  {
    hide Where, LastAbout, Note, ActionFrom, LastOf, RequestedIn, StatusIn, OpenIn, Blank;
    if e.ToolRequested? {
      ActionRequestedNext(log, s, e);
    } else if e.ToolStarted? || e.ToolCompleted? || e.ToolFailed? {
      ActionHandledNext(log, s, e);
    } else {
      ActionsAfter(s, |log| + 1, e);
      WhereSnoc(log, e, IsMutation);
      var at := Where(log, IsMutation);
      forall i | 0 <= i < |s.actions| ensures ActionFrom(log + [e], at[i], s.actions[i]) {
        ActionStays(log, at[i], s.actions[i], e);
      }
    }
  }

  /* ---------------------------------------------------------------- approvals */

  lemma {:induction false} ApprovalStays(log: seq<Event>, k: nat, a: ApprovalState, e: Event)
    requires ApprovalFrom(log, k, a) && !About(e, AnswerTo(a.requestId))
    ensures ApprovalFrom(log + [e], k, a)
  {
    hide LastAbout;
    LastAboutSnoc(log, e, AnswerTo(a.requestId));
  }

  lemma {:induction false} ApprovalAnswered(log: seq<Event>, k: nat, a: ApprovalState, e: Event)
    requires ApprovalFrom(log, k, a) && About(e, AnswerTo(a.requestId))
    ensures ApprovalFrom(log + [e], k, a.(status := if e.approved then Approved else Refused, decided := Some(|log| + 1)))
  {
    hide LastAbout;
    LastAboutSnoc(log, e, AnswerTo(a.requestId));
  }

  /** Only what was asked has been answered. */
  ghost predicate AskedFirst(log: seq<Event>) {
    forall id :: LastAbout(log, AnswerTo(id)).Some? ==> LastAbout(log, QuestionOf(id)).Some?
  }

  /** A request is listed if and only if it was made, and decided if and only if it was answered. */
  lemma {:induction false} ApprovalRead(log: seq<Event>, approvals: seq<ApprovalState>, id: RequestId)
    requires QuestionsRead(log, approvals)
    ensures var i := IndexOfApproval(approvals, id);
            && (i < |approvals| <==> LastAbout(log, QuestionOf(id)).Some?)
            && (i < |approvals| ==> (approvals[i].decided.Some? <==> LastAbout(log, AnswerTo(id)).Some?))
  {
    hide Where, LastAbout;
    var at := Where(log, IsQuestion);
    WhereExactly(log, IsQuestion);
    LastAboutExactly(log, QuestionOf(id));
    var i := IndexOfApproval(approvals, id);
    if i < |approvals| {
      assert ApprovalFrom(log, at[i], approvals[i]);
      assert About(log[at[i]], QuestionOf(id));
    }
  }

  /** The approvals after an admitted event. */
  lemma {:induction false} ListedAfter(s: Incident, n: nat, e: Event)
    requires Admits(s, e)
    ensures Note(s, n, e).approvals
         == match e
            case ApprovalRequested(id, callId) => s.approvals + [ApprovalState(id, callId, Pending, n, None)]
            case ApprovalDecided(id, approved) =>
              var i := IndexOfApproval(s.approvals, id);
              s.approvals[i := s.approvals[i].(status := if approved then Approved else Refused, decided := Some(n))]
            case _ => s.approvals
    ensures e.ApprovalRequested? ==> IndexOfApproval(s.approvals, e.requestId) == |s.approvals|
    ensures e.ApprovalDecided? ==> IndexOfApproval(s.approvals, e.requestId) < |s.approvals|
  {
    hide IndexOfAction, IndexOfApproval, Blank;
  }

  lemma {:induction false} QuestionNext(log: seq<Event>, s: Incident, e: Event)
    requires QuestionsRead(log, s.approvals) && DistinctApprovals(s.approvals) && AskedFirst(log) && Admits(s, e) && e.ApprovalRequested?
    ensures QuestionsRead(log + [e], Note(s, |log| + 1, e).approvals) && DistinctApprovals(Note(s, |log| + 1, e).approvals)
  {
    hide Where, LastAbout, Note, Admits, ApprovalFrom, AskedFirst;
    ListedAfter(s, |log| + 1, e);
    var at := Where(log, IsQuestion);
    WhereSnoc(log, e, IsQuestion);
    forall i | 0 <= i < |s.approvals| ensures ApprovalFrom(log + [e], at[i], s.approvals[i]) {
      ApprovalStays(log, at[i], s.approvals[i], e);
    }
    ApprovalRead(log, s.approvals, e.requestId);
    NewApproval(log, e);
  }

  lemma {:induction false} NewApproval(log: seq<Event>, e: Event)
    requires e.ApprovalRequested? && AskedFirst(log) && LastAbout(log, QuestionOf(e.requestId)).None?
    ensures ApprovalFrom(log + [e], |log|, ApprovalState(e.requestId, e.callId, Pending, |log| + 1, None))
  {
    hide LastAbout;
    LastAboutSnoc(log, e, AnswerTo(e.requestId));
    assert LastAbout(log, AnswerTo(e.requestId)).None?;
  }

  lemma {:induction false} AnswerNext(log: seq<Event>, s: Incident, e: Event)
    requires QuestionsRead(log, s.approvals) && DistinctApprovals(s.approvals) && Admits(s, e) && !e.ApprovalRequested?
    ensures QuestionsRead(log + [e], Note(s, |log| + 1, e).approvals) && DistinctApprovals(Note(s, |log| + 1, e).approvals)
  {
    hide Where, LastAbout, Note, Admits, ApprovalFrom;
    ListedAfter(s, |log| + 1, e);
    var at := Where(log, IsQuestion);
    WhereSnoc(log, e, IsQuestion);
    var after := Note(s, |log| + 1, e).approvals;
    forall i | 0 <= i < |after| ensures ApprovalFrom(log + [e], at[i], after[i]) {
      assert ApprovalFrom(log, at[i], s.approvals[i]);
      if e.ApprovalDecided? && i == IndexOfApproval(s.approvals, e.requestId) {
        ApprovalAnswered(log, at[i], s.approvals[i], e);
      } else {
        ApprovalStays(log, at[i], s.approvals[i], e);
      }
    }
  }

  lemma {:induction false} AskedFirstNext(log: seq<Event>, s: Incident, e: Event)
    requires QuestionsRead(log, s.approvals) && AskedFirst(log) && Admits(s, e)
    ensures AskedFirst(log + [e])
  {
    hide QuestionsRead, LastAbout;
    forall id | LastAbout(log + [e], AnswerTo(id)).Some? ensures LastAbout(log + [e], QuestionOf(id)).Some? {
      LastAboutSnoc(log, e, AnswerTo(id));
      LastAboutSnoc(log, e, QuestionOf(id));
      ApprovalRead(log, s.approvals, id);
    }
  }

  /* ---------------------------------------------------------------- the whole incident */

  ghost predicate IncidentRead(log: seq<Event>, s: Incident) {
    EntriesRead(log, s) && ActionsRead(log, s.actions) && QuestionsRead(log, s.approvals)
  }

  ghost predicate IncidentSound(log: seq<Event>, s: Incident) {
    IncidentRead(log, s) && DistinctActions(s.actions) && DistinctApprovals(s.approvals) && AskedFirst(log)
  }

  lemma {:induction false} SoundNext(log: seq<Event>, s: Incident, e: Event)
    requires IncidentSound(log, s) && MayFollow(log, e) && Admits(s, e)
    ensures IncidentSound(log + [e], Note(s, |log| + 1, e))
  {
    hide EntriesRead, ActionsRead, QuestionsRead, DistinctActions, DistinctApprovals, AskedFirst, MayFollow, Admits, Note;
    EntriesNext(log, s, e);
    ActionsNext(log, s, e);
    AskedFirstNext(log, s, e);
    if e.ApprovalRequested? {
      QuestionNext(log, s, e);
    } else {
      AnswerNext(log, s, e);
    }
  }

  lemma {:induction false} NothingRead()
    ensures IncidentOf([]) == Some(NO_INCIDENT) && IncidentSound([], NO_INCIDENT)
  {
  }

  lemma {:induction false} IncidentIsSound(log: seq<Event>)
    requires IncidentOf(log).Some?
    ensures IncidentSound(log, IncidentOf(log).value)
  {
    hide Accepts, Project, Admits, Note, IncidentOf, IncidentSound, MayFollow;
    if log == [] {
      NothingRead();
    } else {
      var front, e := log[..|log| - 1], log[|log| - 1];
      IncidentLast(log);
      IncidentIsSound(front);
      BothAccept(front);
      NextAccepted(front, e);
      SoundNext(front, IncidentOf(front).value, e);
      assert front + [e] == log;
    }
  }

  lemma {:induction false} BothAccept(log: seq<Event>)
    requires IncidentOf(log).Some?
    ensures Project(log).Some?
  {
    hide Project, IncidentFrom;
  }

  /** Every part of the incident is what the events of the log say: evidence, the facts confirmed last, the latest hypothesis and
      the items not completed since, each with the sequence of its event; one action for each mutating request, in order, with the
      end of its call; one approval for each request, in order, with its decision. */
  lemma {:induction false} IncidentExactly(log: seq<Event>)
    requires IncidentOf(log).Some?
    ensures IncidentRead(log, IncidentOf(log).value)
  {
    hide Project, IncidentOf, EntriesRead, ActionsRead, QuestionsRead, DistinctActions, DistinctApprovals, AskedFirst;
    IncidentIsSound(log);
  }

  /* ---------------------------------------------------------------- which logs are admitted */

  ghost predicate AllRecorded(log: seq<Event>, evidenceIds: seq<string>) {
    forall i | 0 <= i < |evidenceIds| :: !Blank(evidenceIds[i]) && LastAbout(log, EvidenceOf(evidenceIds[i])).Some?
  }

  /** May the incident projector note `e` after `log`? Everything is read off the events of the log. */
  ghost predicate MayNote(log: seq<Event>, e: Event) {
    match e
    case EvidenceRecorded(_, _, id) => !Blank(id) && LastAbout(log, EvidenceOf(id)).None?
    case FactConfirmed(id, statement, evidenceIds) => !Blank(id) && !Blank(statement) && AllRecorded(log, evidenceIds)
    case HypothesisUpdated(statement, evidenceIds) => !Blank(statement) && AllRecorded(log, evidenceIds)
    case ToolRequested(callId, name, _, effect, _) => effect.Mutate? ==> !Blank(callId) && !Blank(name)
    case ToolStarted(callId) => !Blank(callId)
    case ToolCompleted(callId, _, _) => !Blank(callId)
    case ToolFailed(callId, _) => !Blank(callId)
    case ApprovalRequested(id, callId) => !BlankRequest(id) && !Blank(callId) && LastAbout(log, QuestionOf(id)).None?
    case ApprovalDecided(id, _) => !BlankRequest(id) && LastAbout(log, QuestionOf(id)).Some? && LastAbout(log, AnswerTo(id)).None?
    case WorkItemAdded(id, description) => !Blank(id) && !Blank(description)
    case WorkItemCompleted(id) => !Blank(id) && WorkItemIn(log, id).Some?
    case _ => true
  }

  lemma {:induction false} AdmitsRead(log: seq<Event>, s: Incident, e: Event)
    requires EntriesRead(log, s) && QuestionsRead(log, s.approvals)
    ensures Admits(s, e) <==> MayNote(log, e)
  {
    hide Blank, LastAbout, QuestionsRead, IndexOfAction, IndexOfApproval;
    if e.ApprovalRequested? || e.ApprovalDecided? {
      ApprovalRead(log, s.approvals, e.requestId);
    } else if e.EvidenceRecorded? {
      assert Entry(s.evidence, e.evidenceId) == EvidenceIn(log, e.evidenceId);
    } else if e.WorkItemCompleted? {
      assert Entry(s.unfinished, e.itemId) == WorkItemIn(log, e.itemId);
    } else if e.FactConfirmed? || e.HypothesisUpdated? {
      forall i | 0 <= i < |e.evidenceIds| ensures e.evidenceIds[i] in s.evidence <==> LastAbout(log, EvidenceOf(e.evidenceIds[i])).Some? {
        assert Entry(s.evidence, e.evidenceIds[i]) == EvidenceIn(log, e.evidenceIds[i]);
      }
    }
  }

  /** The incident projector accepts exactly the logs that the run projector accepts and in which every event may be noted after
      the ones before it. */
  lemma {:induction false} AdmittedExactly(log: seq<Event>)
    ensures IncidentOf(log).Some? <==> Project(log).Some? && forall n | 0 <= n < |log| :: MayNote(log[..n], log[n])
  {
    hide Project, Accepts, Advance, Admits, Note, IncidentOf, MayNote, EntriesRead, ActionsRead, QuestionsRead, DistinctActions,
         DistinctApprovals, AskedFirst;
    if log == [] {
      NothingRead();
      BothAccept(log);
    } else {
      var front, e := log[..|log| - 1], log[|log| - 1];
      ProjectLast(log);
      IncidentLast(log);
      AdmittedExactly(front);
      if IncidentOf(front).Some? {
        IncidentIsSound(front);
        AdmitsRead(front, IncidentOf(front).value, e);
      }
      assert forall n | 0 <= n < |front| :: front[..n] == log[..n] && front[n] == log[n];
      assert log[..|front|] == front;
    }
  }
}
