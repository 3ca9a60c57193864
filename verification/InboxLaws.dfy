/** Delivery of inbox messages: what was submitted, what was delivered, and in which order. */
module InboxLaws {
  import opened Events
  import opened Projection
  import opened Runtime
  import opened RuntimeInvariant
  import opened InvariantSteps
  import opened LogLaws
  import opened RuntimeRuns
  import opened RuntimeTheorems

  /** The message submitted under an id. */
  function Submission(log: seq<Event>, id: string): Option<InboxItem> {
    if log == [] then None
    else
      var before := Submission(log[..|log| - 1], id);
      match log[|log| - 1]
      case InboxSubmitted(messageId, kind, target, role, content) =>
        if before.None? && messageId == id then Some(InboxItem(id, kind, target, role, content, false)) else before
      case _ => before
  }

  /** Ids submitted for a boundary, in order. */
  function Submitted(log: seq<Event>, target: InboxTarget): seq<string> {
    if log == [] then []
    else
      var e := log[|log| - 1];
      Submitted(log[..|log| - 1], target) + (if e.InboxSubmitted? && e.target == target then [e.messageId] else [])
  }

  predicate IsDelivery(log: seq<Event>, e: Event, target: InboxTarget) {
    e.InboxConsumed? && Submission(log, e.messageId).Some? && Submission(log, e.messageId).value.target == target
  }

  /** Ids delivered at a boundary, in order. */
  function Delivered(log: seq<Event>, target: InboxTarget): seq<string> {
    if log == [] then []
    else
      var e := log[|log| - 1];
      Delivered(log[..|log| - 1], target) + (if IsDelivery(log[..|log| - 1], e, target) then [e.messageId] else [])
  }

  /* ---------------------------------------------------------------- items are submissions */

  lemma {:induction false} ItemUnderAppend(inbox: seq<InboxItem>, item: InboxItem, id: string)
    ensures IndexOfItem(inbox + [item], id)
         == if IndexOfItem(inbox, id) < |inbox| then IndexOfItem(inbox, id)
            else if item.messageId == id then |inbox| else |inbox| + 1
  {
    if inbox != [] && inbox[0].messageId != id {
      ItemUnderAppend(inbox[1..], item, id);
      assert (inbox + [item])[1..] == inbox[1..] + [item];
    }
  }

  lemma {:induction false} ItemUnderUpdate(inbox: seq<InboxItem>, i: nat, item: InboxItem, id: string)
    requires i < |inbox| && item.messageId == inbox[i].messageId
    ensures IndexOfItem(inbox[i := item], id) == IndexOfItem(inbox, id)
  {
    if i > 0 && inbox[0].messageId != id {
      ItemUnderUpdate(inbox[1..], i - 1, item, id);
      assert inbox[i := item][1..] == inbox[1..][i - 1 := item];
    } else if i == 0 {
      assert inbox[i := item][1..] == inbox[1..];
    }
  }

  /** The item an id stands for is the submitted message, delivered or not. */
  predicate Stands(inbox: seq<InboxItem>, id: string, submission: Option<InboxItem>) {
    && (submission.Some? <==> IndexOfItem(inbox, id) < |inbox|)
    && (submission.Some? ==> inbox[IndexOfItem(inbox, id)].(consumed := false) == submission.value)
  }

  lemma {:induction false} ItemsAreSubmissions(log: seq<Event>, id: string)
    requires Project(log).Some?
    ensures Stands(Project(log).value.inbox, id, Submission(log, id))
  {
    if log != [] {
      var front, e := log[..|log| - 1], log[|log| - 1];
      ProjectLast(log);
      ItemsAreSubmissions(front, id);
      hide Submission, Project, Accepts, Advance;
      InboxAfter(front, e, id);
    }
  }

  lemma {:induction false} SubmissionSnoc(log: seq<Event>, e: Event, id: string)
    ensures Submission(log + [e], id)
         == if e.InboxSubmitted? && Submission(log, id).None? && e.messageId == id
            then Some(InboxItem(id, e.kind, e.target, e.role, e.content, false)) else Submission(log, id)
  {
    assert (log + [e])[..|log + [e]| - 1] == log;
  }

  lemma {:induction false} InboxAfter(log: seq<Event>, e: Event, id: string)
    requires Project(log).Some? && Accepts(Project(log).value, log == [], e)
    requires Stands(Project(log).value.inbox, id, Submission(log, id))
    ensures Stands(Advance(Project(log).value, e).inbox, id, Submission(log + [e], id))
  {
    hide Project, Submission, Accepts, Advance;
    var p := Project(log).value;
    SubmissionSnoc(log, e, id);
    InboxShape(p, log == [], e);
    IndexOfItemFirst(p.inbox, id);
    if e.InboxSubmitted? {
      ItemUnderAppend(p.inbox, InboxItem(e.messageId, e.kind, e.target, e.role, e.content, false), id);
    } else if e.InboxConsumed? {
      var i := IndexOfItem(p.inbox, e.messageId);
      IndexOfItemFirst(p.inbox, e.messageId);
      ItemUnderUpdate(p.inbox, i, p.inbox[i].(consumed := true), id);
    }
  }

  /* ---------------------------------------------------------------- ids are distinct */

  lemma {:induction false} InboxDistinct(log: seq<Event>)
    requires Project(log).Some?
    ensures InboxOk(Project(log).value)
  {
    if log != [] {
      ProjectLast(log);
      InboxDistinct(log[..|log| - 1]);
      DistinctKept(Project(log[..|log| - 1]).value, |log| == 1, log[|log| - 1]);
    }
  }

  lemma {:induction false} DistinctKept(p: RunProjection, first: bool, e: Event)
    requires InboxOk(p) && Accepts(p, first, e)
    ensures InboxOk(Advance(p, e))
  {
    hide Accepts, Advance;
    InboxShape(p, first, e);
    if e.InboxSubmitted? {
      IndexOfItemFirst(p.inbox, e.messageId);
    }
  }

  /* ---------------------------------------------------------------- order */

  /** Delivered, then still pending, is submitted: at each boundary messages come out once and in the order in which
      they went in. */
  lemma {:induction false} DeliveryInOrder(cfg: Config, log: seq<Event>, target: InboxTarget)
    requires LawfulLog(cfg, log) && Project(log).Some?
    ensures Delivered(log, target) + PendingIds(Project(log).value.inbox, target) == Submitted(log, target)
  {
    if log != [] {
      var front, e := log[..|log| - 1], log[|log| - 1];
      ProjectLast(log);
      DeliveryInOrder(cfg, front, target);
      hide Delivered, Submitted, PendingIds, LawfulLog, Accepts, Lawful;
      PendingAfter(cfg, front, e, target);
    }
  }

  lemma {:induction false} DeliverySnoc(log: seq<Event>, e: Event, target: InboxTarget)
    ensures Submitted(log + [e], target) == Submitted(log, target) + (if e.InboxSubmitted? && e.target == target then [e.messageId] else [])
    ensures Delivered(log + [e], target) == Delivered(log, target) + (if IsDelivery(log, e, target) then [e.messageId] else [])
  {
    hide IsDelivery;
    assert (log + [e])[..|log + [e]| - 1] == log;
  }

  /** A delivery takes the first pending message of its boundary and leaves the other boundary alone. */
  lemma {:induction false} DeliveryTakesFirst(cfg: Config, log: seq<Event>, e: Event, target: InboxTarget)
    requires Project(log).Some? && e.InboxConsumed?
    requires Accepts(Project(log).value, log == [], e) && Lawful(cfg, log, Project(log).value, e)
    ensures PendingIds(Project(log).value.inbox, target)
         == (if IsDelivery(log, e, target) then [e.messageId] else [])
            + PendingIds(Advance(Project(log).value, e).inbox, target)
  {
    hide Project, PendingIds, Submission;
    var p := Project(log).value;
    InboxDistinct(log);
    ItemsAreSubmissions(log, e.messageId);
    var from := if FirstPending(p.inbox, NextStep, e.messageId) then NextStep else NextTurn;
    var i := PendingItem(p.inbox, from, 0);
    ItemIndexIs(p.inbox, i);
    PendingAfterConsume(p.inbox, from, i);
    if target == from {
      assert PendingIds(p.inbox, target) == [e.messageId] + PendingIds(p.inbox, target)[1..];
    }
  }

  lemma {:induction false} PendingAfter(cfg: Config, log: seq<Event>, e: Event, target: InboxTarget)
    requires Project(log).Some? && Accepts(Project(log).value, log == [], e) && Lawful(cfg, log, Project(log).value, e)
    requires Delivered(log, target) + PendingIds(Project(log).value.inbox, target) == Submitted(log, target)
    ensures Delivered(log + [e], target) + PendingIds(Advance(Project(log).value, e).inbox, target) == Submitted(log + [e], target)
  {
    hide Project, PendingIds, Submission, Delivered, Submitted, Lawful, Accepts;
    var p := Project(log).value;
    DeliverySnoc(log, e, target);
    if e.InboxSubmitted? {
      PendingSnoc(p.inbox, InboxItem(e.messageId, e.kind, e.target, e.role, e.content, false), target);
    } else if e.InboxConsumed? {
      DeliveryTakesFirst(cfg, log, e, target);
    }
  }

  /** Ids of all submissions. */
  lemma {:induction false} SubmittedOnce(log: seq<Event>, target: InboxTarget)
    requires Project(log).Some?
    ensures forall i, j | 0 <= i < j < |Submitted(log, target)| :: Submitted(log, target)[i] != Submitted(log, target)[j]
    ensures forall i | 0 <= i < |Submitted(log, target)| ::
              IndexOfItem(Project(log).value.inbox, Submitted(log, target)[i]) < |Project(log).value.inbox|
  {
    if log != [] {
      var front, e := log[..|log| - 1], log[|log| - 1];
      ProjectLast(log);
      SubmittedOnce(front, target);
      forall i | 0 <= i < |Submitted(front, target)|
        ensures IndexOfItem(Project(log).value.inbox, Submitted(front, target)[i]) < |Project(log).value.inbox|
      {
        StaysKnown(Project(front).value, |log| == 1, e, Submitted(front, target)[i]);
      }
      if e.InboxSubmitted? {
        ItemUnderAppend(Project(front).value.inbox, InboxItem(e.messageId, e.kind, e.target, e.role, e.content, false), e.messageId);
      }
    }
  }

  lemma {:induction false} StaysKnown(p: RunProjection, first: bool, e: Event, id: string)
    requires Accepts(p, first, e) && IndexOfItem(p.inbox, id) < |p.inbox|
    ensures IndexOfItem(Advance(p, e).inbox, id) < |Advance(p, e).inbox|
  {
    hide Accepts, Advance;
    InboxShape(p, first, e);
    if e.InboxSubmitted? {
      ItemUnderAppend(p.inbox, InboxItem(e.messageId, e.kind, e.target, e.role, e.content, false), id);
    } else if e.InboxConsumed? {
      var i := IndexOfItem(p.inbox, e.messageId);
      ItemUnderUpdate(p.inbox, i, p.inbox[i].(consumed := true), id);
    }
  }

  /** In every run the messages delivered at a boundary are distinct and a prefix of those submitted for it; when the run
      is completed, every message for a next turn has been delivered. */
  lemma {:induction false} DeliveredOnceInOrder(cfg: Config, run: seq<Label>, target: InboxTarget)
    requires cfg.Valid() && Execute(cfg, run).Some?
    ensures var log := After(cfg, run).log;
            && Delivered(log, target) <= Submitted(log, target)
            && (forall i, j | 0 <= i < j < |Delivered(log, target)| :: Delivered(log, target)[i] != Delivered(log, target)[j])
            && Project(log).Some?
            && (Project(log).value.status.Completed? ==> Delivered(log, NextTurn) == Submitted(log, NextTurn))
  {
    hide Execute, Delivered, Submitted, LawfulLog, Project;
    var log := After(cfg, run).log;
    LogIsLawful(cfg, run);
    DeliveryInOrder(cfg, log, target);
    DeliveryInOrder(cfg, log, NextTurn);
    SubmittedOnce(log, target);
    assert forall i | 0 <= i < |Delivered(log, target)| :: Delivered(log, target)[i] == Submitted(log, target)[i];
    if Project(log).value.status.Completed? {
      CompletedIsFinished(cfg, run);
    }
  }

  /* ---------------------------------------------------------------- messages for a next step */

  predicate Submits(e: Event, id: string) {
    e.InboxSubmitted? && e.messageId == id
  }

  predicate WasSubmitted(log: seq<Event>, id: string) {
    exists i | 0 <= i < |log| :: Submits(log[i], id)
  }

  /** A step starts after the message was submitted. */
  predicate StepFollows(log: seq<Event>, id: string) {
    exists j | 0 <= j < |log| :: log[j].StepStarted? && WasSubmitted(log[..j], id)
  }

  lemma {:induction false} SubmissionsKnown(log: seq<Event>, id: string)
    ensures WasSubmitted(log, id) <==> Submission(log, id).Some?
  {
    if log != [] {
      var front, e := log[..|log| - 1], log[|log| - 1];
      SubmissionsKnown(front, id);
      SubmittedSnoc(front, e, id);
      SubmissionSnoc(front, e, id);
      assert front + [e] == log;
    }
  }

  lemma {:induction false} SubmittedSnoc(log: seq<Event>, e: Event, id: string)
    ensures WasSubmitted(log + [e], id) <==> WasSubmitted(log, id) || Submits(e, id)
  {
    hide Submits;
    var all := log + [e];
    assert all[|log|] == e;
    if WasSubmitted(log, id) {
      var i :| 0 <= i < |log| && Submits(log[i], id);
      assert Submits(all[i], id);
    }
  }

  lemma {:induction false} FollowsSnoc(log: seq<Event>, e: Event, id: string)
    ensures StepFollows(log + [e], id) <==> StepFollows(log, id) || (e.StepStarted? && WasSubmitted(log, id))
  {
    hide WasSubmitted;
    var all := log + [e];
    assert all[|log|] == e && all[..|log|] == log;
    forall j | 0 <= j < |log| ensures all[..j] == log[..j] && all[j] == log[j] {
    }
    if StepFollows(log, id) {
      var j :| 0 <= j < |log| && log[j].StepStarted? && WasSubmitted(log[..j], id);
      assert all[j].StepStarted? && WasSubmitted(all[..j], id);
    }
  }

  lemma {:induction false} FollowsSubmission(log: seq<Event>, id: string)
    requires StepFollows(log, id)
    ensures WasSubmitted(log, id)
  {
    var j :| 0 <= j < |log| && log[j].StepStarted? && WasSubmitted(log[..j], id);
    var i :| 0 <= i < j && Submits(log[..j][i], id);
    assert Submits(log[i], id);
  }

  lemma {:induction false} SubmittedWas(log: seq<Event>, target: InboxTarget, id: string)
    requires id in Submitted(log, target)
    ensures WasSubmitted(log, id)
  {
    var front, e := log[..|log| - 1], log[|log| - 1];
    assert front + [e] == log;
    SubmittedSnoc(front, e, id);
    if id in Submitted(front, target) {
      SubmittedWas(front, target, id);
    }
  }

  /** A due step stays due until it starts. */
  lemma {:induction false} StillAwaits(p: RunProjection, first: bool, e: Event)
    requires Accepts(p, first, e) && AwaitsStep(p) && !e.StepStarted?
    ensures AwaitsStep(Advance(p, e))
  {
    hide FindAssistant, StepsOfTurn, IndexOfTool, IndexOfItem, Blank;
  }

  /** A message for a next step is delivered only when a step is due. */
  lemma {:induction false} DeliveredWhenDue(cfg: Config, log: seq<Event>, e: Event)
    requires Project(log).Some? && IsDelivery(log, e, NextStep)
    requires Accepts(Project(log).value, log == [], e) && Lawful(cfg, log, Project(log).value, e)
    ensures AwaitsStep(Project(log).value)
  {
    hide Project, PendingIds, Submission, AwaitsStep;
    var p := Project(log).value;
    if FirstPending(p.inbox, NextTurn, e.messageId) {
      InboxDistinct(log);
      ItemsAreSubmissions(log, e.messageId);
      var i := PendingItem(p.inbox, NextTurn, 0);
      ItemIndexIs(p.inbox, i);
    }
  }

  /** Of the messages for a next step, no pending one was there when a step started, and after a delivered one a step started
      or is still due. */
  predicate Timely(log: seq<Event>, p: RunProjection) {
    && (forall i | 0 <= i < |PendingIds(p.inbox, NextStep)| :: !StepFollows(log, PendingIds(p.inbox, NextStep)[i]))
    && (forall i | 0 <= i < |Delivered(log, NextStep)| :: StepFollows(log, Delivered(log, NextStep)[i]) || AwaitsStep(p))
  }

  lemma {:induction false} PendingTimely(cfg: Config, log: seq<Event>, e: Event, id: string)
    requires Project(log).Some? && Accepts(Project(log).value, log == [], e) && Lawful(cfg, log, Project(log).value, e)
    requires Timely(log, Project(log).value) && id in PendingIds(Advance(Project(log).value, e).inbox, NextStep)
    ensures !StepFollows(log + [e], id)
  {
    hide Project, PendingIds, Submission, Delivered, Accepts, Advance, StepFollows, AwaitsStep, WasSubmitted, IsDelivery, Lawful;
    var p := Project(log).value;
    FollowsSnoc(log, e, id);
    InboxShape(p, log == [], e);
    if e.InboxSubmitted? {
      PendingSnoc(p.inbox, InboxItem(e.messageId, e.kind, e.target, e.role, e.content, false), NextStep);
      if id !in PendingIds(p.inbox, NextStep) {
        ItemsAreSubmissions(log, id);
        SubmissionsKnown(log, id);
        if StepFollows(log, id) {
          FollowsSubmission(log, id);
        }
      }
    } else if e.InboxConsumed? {
      DeliveryTakesFirst(cfg, log, e, NextStep);
      assert id in PendingIds(p.inbox, NextStep);
    } else if e.StepStarted? {
      NothingPendingAtStep(cfg, log, p, e);
    }
    assert id in PendingIds(p.inbox, NextStep) ==> !StepFollows(log, id);
  }

  lemma {:induction false} NothingPendingAtStep(cfg: Config, log: seq<Event>, p: RunProjection, e: Event)
    requires Lawful(cfg, log, p, e) && e.StepStarted?
    ensures PendingIds(p.inbox, NextStep) == []
  {
    hide PendingIds, AwaitsStep, FirstPending, Advance, StartLawful, LastDecision;
  }

  lemma {:induction false} DeliveryTimely(cfg: Config, log: seq<Event>, e: Event, id: string)
    requires LawfulLog(cfg, log) && Project(log).Some?
    requires Accepts(Project(log).value, log == [], e) && Lawful(cfg, log, Project(log).value, e)
    requires Timely(log, Project(log).value) && id in Delivered(log + [e], NextStep)
    ensures StepFollows(log + [e], id) || AwaitsStep(Advance(Project(log).value, e))
  {
    hide Project, PendingIds, Submitted, Delivered, Accepts, Advance, StepFollows, AwaitsStep, WasSubmitted, Lawful, LawfulLog, IsDelivery;
    var p := Project(log).value;
    FollowsSnoc(log, e, id);
    DeliverySnoc(log, e, NextStep);
    if id in Delivered(log, NextStep) {
      DeliveryInOrder(cfg, log, NextStep);
      assert id in Submitted(log, NextStep);
      SubmittedWas(log, NextStep, id);
    } else {
      DeliveredWhenDue(cfg, log, e);
      DeliveryIsNoStep(log, e);
    }
    if AwaitsStep(p) && !e.StepStarted? {
      StillAwaits(p, log == [], e);
    }
  }

  lemma {:induction false} DeliveryIsNoStep(log: seq<Event>, e: Event)
    ensures IsDelivery(log, e, NextStep) ==> !e.StepStarted?
  {
  }

  lemma {:induction false} AlwaysTimely(cfg: Config, log: seq<Event>)
    requires LawfulLog(cfg, log) && Project(log).Some?
    ensures Timely(log, Project(log).value)
  {
    if log == [] {
      EmptyIsTimely();
    } else {
      hide PendingIds, Delivered, Accepts, Advance, StepFollows, AwaitsStep, Lawful, Project;
      var front, e := log[..|log| - 1], log[|log| - 1];
      ProjectLast(log);
      AlwaysTimely(cfg, front);
      assert front + [e] == log;
      var q := Advance(Project(front).value, e);
      forall i | 0 <= i < |PendingIds(q.inbox, NextStep)| ensures !StepFollows(log, PendingIds(q.inbox, NextStep)[i]) {
        PendingTimely(cfg, front, e, PendingIds(q.inbox, NextStep)[i]);
      }
      forall i | 0 <= i < |Delivered(log, NextStep)| ensures StepFollows(log, Delivered(log, NextStep)[i]) || AwaitsStep(q) {
        DeliveryTimely(cfg, front, e, Delivered(log, NextStep)[i]);
      }
    }
  }

  lemma {:induction false} EmptyIsTimely()
    ensures Project([]).Some? && Timely([], Project([]).value)
  {
  }

  lemma {:induction false} CompletedAwaitsNothing(cfg: Config, log: seq<Event>)
    requires LawfulLog(cfg, log) && Project(log).Some? && Project(log).value.status.Completed?
    ensures !AwaitsStep(Project(log).value)
  {
    hide Project, FindAssistant, StepsOfTurn, IndexOfTool, IndexOfItem, Blank;
    EmptyIsCreated();
    ProjectLast(log);
  }

  lemma {:induction false} EmptyIsCreated()
    ensures Project([]).Some? && Project([]).value.status.Created?
  {
  }

  /** A message submitted for a next step is delivered in every run in which a step starts after its submission, and a
      completed run has delivered no other. */
  lemma {:induction false} NextStepDelivery(cfg: Config, run: seq<Label>, id: string)
    requires cfg.Valid() && Execute(cfg, run).Some? && id in Submitted(After(cfg, run).log, NextStep)
    ensures var log := After(cfg, run).log;
            && (StepFollows(log, id) ==> id in Delivered(log, NextStep))
            && Project(log).Some?
            && (Project(log).value.status.Completed? ==> (id in Delivered(log, NextStep) <==> StepFollows(log, id)))
  {
    hide Execute, Delivered, Submitted, LawfulLog, Project, PendingIds, StepFollows, AwaitsStep;
    var log := After(cfg, run).log;
    LogIsLawful(cfg, run);
    AlwaysTimely(cfg, log);
    DeliveryInOrder(cfg, log, NextStep);
    assert id in Delivered(log, NextStep) || id in PendingIds(Project(log).value.inbox, NextStep);
    if Project(log).value.status.Completed? {
      CompletedAwaitsNothing(cfg, log);
    }
  }

  /** A delivery adds exactly the submitted message to the conversation. */
  lemma {:induction false} DeliveredAsSubmitted(log: seq<Event>, n: nat)
    requires Project(log).Some? && n < |log| && log[n].InboxConsumed?
    ensures Submission(log[..n], log[n].messageId).Some?
    ensures Project(log[..n]).Some? && Project(log[..n + 1]).Some?
    ensures var item := Submission(log[..n], log[n].messageId).value;
            Project(log[..n + 1]).value.messages == Project(log[..n]).value.messages + [Plain(item.role, item.content)]
  {
    hide Project, Submission;
    EventAccepted(log, n);
    ItemsAreSubmissions(log[..n], log[n].messageId);
  }
}
