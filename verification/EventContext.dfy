/** From durable events to a provider context: which event each message came from, and which messages are pinned. */
module EventContext {
  import opened Events
  import opened Projection
  import opened LogLaws
  import opened ContextEngine
  import opened ProjectedState

  /** Sequences, counted from one, of the events that carry a message. */
  function Sources(log: seq<Event>): seq<int> {
    if log == [] then []
    else Sources(log[..|log| - 1]) + (if IsMessageEvent(log[|log| - 1]) then [|log|] else [])
  }

  /* ---------------------------------------------------------------- alignment */

  lemma {:induction false} MessageAdded(p: RunProjection, first: bool, e: Event)
    requires Accepts(p, first, e)
    ensures |Advance(p, e).messages| == |p.messages| + (if IsMessageEvent(e) then 1 else 0)
    ensures p.messages <= Advance(p, e).messages
  {
    hide StepsOfTurn, FindAssistant;
  }

  lemma {:induction false} SourcesAligned(log: seq<Event>)
    requires Project(log).Some?
    ensures |Sources(log)| == |Project(log).value.messages| && Increasing(Sources(log))
    ensures forall i | 0 <= i < |Sources(log)| :: 1 <= Sources(log)[i] <= |log|
  {
    hide Accepts, Advance, Project;
    if log == [] {
      EmptyLogMessages();
    } else {
      var front := log[..|log| - 1];
      ProjectLast(log);
      SourcesAligned(front);
      MessageAdded(Project(front).value, |log| == 1, log[|log| - 1]);
    }
  }

  lemma {:induction false} EmptyLogMessages()
    ensures Project([]) == Some(INITIAL)
  {
  }

  /** The i-th message is the one that the i-th message event appended, with the role and the text of the raw event: before that
      event there are i messages, after it the first i + 1 of the final list. */
  lemma {:induction false} MessageComesFrom(log: seq<Event>, i: nat)
    requires Project(log).Some? && i < |Sources(log)|
    ensures var n := Sources(log)[i] - 1;
            && 0 <= n < |log| && IsMessageEvent(log[n])
            && Project(log[..n]).Some? && Project(log[..n + 1]).Some? && i < |Project(log).value.messages|
            && Project(log[..n]).value.messages == Project(log).value.messages[..i]
            && Project(log[..n + 1]).value.messages == Project(log).value.messages[..i + 1]
            && IsMessageOf(log, n, Project(log).value.messages[i])
  {
    hide Accepts, Advance, Project, IsMessageOf;
    var front, e := log[..|log| - 1], log[|log| - 1];
    ProjectLast(log);
    SourcesAligned(log);
    SourcesAligned(front);
    MessageAdded(Project(front).value, |log| == 1, e);
    assert log[..|log|] == log;
    if i < |Sources(front)| {
      MessageComesFrom(front, i);
      var n := Sources(front)[i] - 1;
      assert front[..n] == log[..n] && front[..n + 1] == log[..n + 1];
      MessageInPrefix(log, n, |front|, Project(log).value.messages[i]);
    } else {
      MessageAppended(front, e);
      assert front + [e] == log;
    }
  }

  /* ---------------------------------------------------------------- pins */

  datatype Category = AlertInput | GoalInput | OperatorInput

  function CategoryOf(e: Event): Option<Category> {
    match e
    case AlertReceived(_, _) => Some(AlertInput)
    case GoalSet(_, _) => Some(GoalInput)
    case OperatorMessage(_, _) => Some(OperatorInput)
    case InboxConsumed(_) => Some(OperatorInput)
    case _ => None
  }

  function ReasonOf(c: Category): PinReason {
    match c
    case AlertInput => AlertPin
    case GoalInput => GoalPin
    case OperatorInput => LatestOperatorInput
  }

  /** Whether the event at `n` is pinned, and why: all evidence, and the latest input of each category. */
  ghost predicate IsPinned(log: seq<Event>, n: nat, reason: PinReason)
    requires n < |log|
  {
    || (log[n].EvidenceRecorded? && reason == EvidencePin)
    || (CategoryOf(log[n]).Some? && reason == ReasonOf(CategoryOf(log[n]).value)
        && forall m | n < m < |log| :: CategoryOf(log[m]) != CategoryOf(log[n]))
  }

  /** The pins are exactly the pinned events. */
  ghost predicate PinsOf(log: seq<Event>, pins: map<int, PinReason>) {
    && (forall s | s in pins :: 1 <= s <= |log| && IsPinned(log, s - 1, pins[s]))
    && (forall n: nat, reason | n < |log| && IsPinned(log, n, reason) :: n + 1 in pins && pins[n + 1] == reason)
  }

  /** Latest event of each category among the first `i`, as sequences. */
  ghost predicate LatestOf(log: seq<Event>, i: nat, latest: map<Category, int>)
    requires i <= |log|
  {
    && (forall c | c in latest ::
          && 1 <= latest[c] <= i && CategoryOf(log[latest[c] - 1]) == Some(c)
          && forall m | latest[c] <= m < i :: CategoryOf(log[m]) != Some(c))
    && (forall m | 0 <= m < i && CategoryOf(log[m]).Some? :: CategoryOf(log[m]).value in latest)
  }

  /** The pins after the latest inputs of the given categories have been added. */
  function WithLatest(pins: map<int, PinReason>, latest: map<Category, int>, categories: seq<Category>): map<int, PinReason> {
    if categories == [] then pins
    else
      var before := WithLatest(pins, latest, categories[..|categories| - 1]);
      var c := categories[|categories| - 1];
      if c in latest then before[latest[c] := ReasonOf(c)] else before
  }

  const CATEGORIES := [AlertInput, GoalInput, OperatorInput]

  lemma {:induction false} AllLatest(pins: map<int, PinReason>, latest: map<Category, int>)
    requires forall c | c in latest :: latest[c] !in pins
    requires forall a, b | a in latest && b in latest && a != b :: latest[a] != latest[b]
    ensures var all := WithLatest(pins, latest, CATEGORIES);
            && (forall s | s in pins :: s in all && all[s] == pins[s])
            && (forall s | s in all :: s in pins || exists c | c in latest :: latest[c] == s && all[s] == ReasonOf(c))
            && (forall c | c in latest :: latest[c] in all && all[latest[c]] == ReasonOf(c))
  {
    assert CATEGORIES[..2] == [AlertInput, GoalInput] && CATEGORIES[..1] == [AlertInput] && CATEGORIES[..0] == [];
    assert [AlertInput, GoalInput][..1] == [AlertInput] && [AlertInput][..0] == [];
    var one := WithLatest(pins, latest, [AlertInput]);
    var two := WithLatest(pins, latest, [AlertInput, GoalInput]);
    assert WithLatest(pins, latest, []) == pins;
    assert one == if AlertInput in latest then pins[latest[AlertInput] := AlertPin] else pins;
    assert two == if GoalInput in latest then one[latest[GoalInput] := GoalPin] else one;
    assert WithLatest(pins, latest, CATEGORIES)
        == if OperatorInput in latest then two[latest[OperatorInput] := LatestOperatorInput] else two;
  }

  /** `_select_pins`: evidence is pinned on the way, the latest inputs at the end. */
  method SelectPins(log: seq<Event>) returns (pins: map<int, PinReason>)
    ensures PinsOf(log, pins)
  {
    var evidence, latest := CollectPins(log);
    pins := evidence;
    var k := 0;
    while k < |CATEGORIES|
      invariant 0 <= k <= |CATEGORIES|
      invariant pins == WithLatest(evidence, latest, CATEGORIES[..k])
    {
      assert CATEGORIES[..k + 1][..k] == CATEGORIES[..k];
      if CATEGORIES[k] in latest {
        pins := pins[latest[CATEGORIES[k]] := ReasonOf(CATEGORIES[k])];
      }
      k := k + 1;
    }
    assert CATEGORIES[..k] == CATEGORIES;
    LatestApart(log, evidence, latest);
    AllLatest(evidence, latest);
    PinsAre(log, evidence, latest, pins);
  }

  ghost predicate EvidenceOf(log: seq<Event>, i: nat, evidence: map<int, PinReason>)
    requires i <= |log|
  {
    && (forall s | s in evidence :: 1 <= s <= i && log[s - 1].EvidenceRecorded? && evidence[s] == EvidencePin)
    && (forall m | 0 <= m < i && log[m].EvidenceRecorded? :: m + 1 in evidence)
  }

  lemma {:induction false} LatestStep(log: seq<Event>, i: nat, latest: map<Category, int>)
    requires i < |log| && LatestOf(log, i, latest)
    ensures LatestOf(log, i + 1, if CategoryOf(log[i]).Some? then latest[CategoryOf(log[i]).value := i + 1] else latest)
  {
    hide CategoryOf;
  }

  lemma {:induction false} LatestApart(log: seq<Event>, evidence: map<int, PinReason>, latest: map<Category, int>)
    requires LatestOf(log, |log|, latest) && EvidenceOf(log, |log|, evidence)
    ensures forall c | c in latest :: latest[c] !in evidence
    ensures forall a, b | a in latest && b in latest && a != b :: latest[a] != latest[b]
  {
  }

  method CollectPins(log: seq<Event>) returns (evidence: map<int, PinReason>, latest: map<Category, int>)
    ensures EvidenceOf(log, |log|, evidence) && LatestOf(log, |log|, latest)
  {
    hide LatestOf, CategoryOf;
    evidence := map[];
    latest := map[];
    var i := 0;
    LatestStart(log);
    while i < |log|
      invariant 0 <= i <= |log|
      invariant EvidenceOf(log, i, evidence) && LatestOf(log, i, latest)
    {
      LatestStep(log, i, latest);
      EvidenceHasNoCategory(log[i]);
      if CategoryOf(log[i]).Some? {
        latest := latest[CategoryOf(log[i]).value := i + 1];
      } else if log[i].EvidenceRecorded? {
        evidence := evidence[i + 1 := EvidencePin];
      }
      i := i + 1;
    }
  }

  lemma {:induction false} LatestStart(log: seq<Event>)
    ensures LatestOf(log, 0, map[])
  {
  }

  lemma {:induction false} EvidenceHasNoCategory(e: Event)
    ensures e.EvidenceRecorded? ==> CategoryOf(e).None?
  {
  }

  /** The latest event of its category is the one noted for it. */
  lemma {:induction false} LatestNoted(log: seq<Event>, latest: map<Category, int>, n: nat)
    requires LatestOf(log, |log|, latest) && n < |log| && CategoryOf(log[n]).Some?
    requires forall m | n < m < |log| :: CategoryOf(log[m]) != CategoryOf(log[n])
    ensures CategoryOf(log[n]).value in latest && latest[CategoryOf(log[n]).value] == n + 1
  {
    hide CategoryOf;
  }

  /** What is noted for a category is pinned. */
  lemma {:induction false} NotedIsPinned(log: seq<Event>, latest: map<Category, int>, c: Category)
    requires LatestOf(log, |log|, latest) && c in latest
    ensures 1 <= latest[c] <= |log| && IsPinned(log, latest[c] - 1, ReasonOf(c))
  {
    hide CategoryOf;
  }

  lemma {:induction false} PinsAre(log: seq<Event>, evidence: map<int, PinReason>, latest: map<Category, int>, pins: map<int, PinReason>)
    requires LatestOf(log, |log|, latest) && EvidenceOf(log, |log|, evidence)
    requires forall s | s in evidence :: s in pins && pins[s] == evidence[s]
    requires forall s | s in pins :: s in evidence || exists c | c in latest :: latest[c] == s && pins[s] == ReasonOf(c)
    requires forall c | c in latest :: latest[c] in pins && pins[latest[c]] == ReasonOf(c)
    ensures PinsOf(log, pins)
  {
    hide CategoryOf, LatestOf;
    forall s | s in pins ensures 1 <= s <= |log| && IsPinned(log, s - 1, pins[s]) {
      if s !in evidence {
        var c :| c in latest && latest[c] == s && pins[s] == ReasonOf(c);
        NotedIsPinned(log, latest, c);
      }
    }
    forall n: nat, reason | n < |log| && IsPinned(log, n, reason) ensures n + 1 in pins && pins[n + 1] == reason {
      if !(log[n].EvidenceRecorded? && reason == EvidencePin) {
        LatestNoted(log, latest, n);
      }
    }
  }

  /** Which events are pinned and why, kind by kind: all evidence; the last alert; the last goal; and of operator messages and
      deliveries together the last one. Nothing else. */
  lemma {:induction false} PinsExactly(log: seq<Event>, pins: map<int, PinReason>, n: nat)
    requires PinsOf(log, pins) && n < |log|
    ensures match log[n]
            case EvidenceRecorded(_, _, _) => n + 1 in pins && pins[n + 1] == EvidencePin
            case AlertReceived(_, _) =>
              && (n + 1 in pins <==> forall m | n < m < |log| :: !log[m].AlertReceived?)
              && (n + 1 in pins ==> pins[n + 1] == AlertPin)
            case GoalSet(_, _) =>
              && (n + 1 in pins <==> forall m | n < m < |log| :: !log[m].GoalSet?)
              && (n + 1 in pins ==> pins[n + 1] == GoalPin)
            case OperatorMessage(_, _) =>
              && (n + 1 in pins <==> forall m | n < m < |log| :: !log[m].OperatorMessage? && !log[m].InboxConsumed?)
              && (n + 1 in pins ==> pins[n + 1] == LatestOperatorInput)
            case InboxConsumed(_) =>
              && (n + 1 in pins <==> forall m | n < m < |log| :: !log[m].OperatorMessage? && !log[m].InboxConsumed?)
              && (n + 1 in pins ==> pins[n + 1] == LatestOperatorInput)
            case _ => n + 1 !in pins
  {
    var c := CategoryOf(log[n]);
    assert c.Some? ==> (IsPinned(log, n, ReasonOf(c.value)) <==> forall m | n < m < |log| :: CategoryOf(log[m]) != c);
    assert log[n].EvidenceRecorded? ==> IsPinned(log, n, EvidencePin);
    if n + 1 in pins {
      assert IsPinned(log, n, pins[n + 1]);
    }
  }

  /* ---------------------------------------------------------------- snapshots of logs */

  /** The snapshot of an accepted log, with its pins. */
  function ContextOf(est: Estimator, log: seq<Event>, pins: map<int, PinReason>): Snapshot
    requires est.Valid() && Project(log).Some?
  {
    var messages := Project(log).value.messages;
    Snapshot(messages, est.EstimateMessages(messages), Sources(log), pins, Sources(log), |log|)
  }

  lemma {:induction false} SourceOf(log: seq<Event>, n: nat)
    requires n < |log| && IsMessageEvent(log[n])
    ensures n + 1 in Sources(log)
  {
    if n < |log| - 1 {
      SourceOf(log[..|log| - 1], n);
    }
  }

  /** For every accepted log the sources align with the messages and contain every pin, so the snapshot passes all of the
      constructor's checks. */
  lemma {:induction false} ContextIsValid(est: Estimator, log: seq<Event>, pins: map<int, PinReason>)
    requires est.Valid() && Project(log).Some? && PinsOf(log, pins)
    ensures ContextOf(est, log, pins).Valid()
  {
    hide Project, Sources;
    SourcesAligned(log);
    forall s | s in pins ensures s in Sources(log) {
      SourceOf(log, s - 1);
    }
  }

  /** `EventContextProjector.project`: None stands for the projection error; there is no alignment error. */
  method ProjectContext(est: Estimator, log: seq<Event>) returns (r: Option<Snapshot>)
    requires est.Valid()
    ensures r.None? <==> Project(log).None?
    ensures r.Some? ==> r.value.Valid() && PinsOf(log, r.value.pinned) && r.value == ContextOf(est, log, r.value.pinned)
  {
    var run := Project(log);
    if run.None? {
      return None;
    }
    var sources: seq<int> := [];
    var i := 0;
    while i < |log|
      invariant 0 <= i <= |log|
      invariant sources == Sources(log[..i])
    {
      assert log[..i + 1][..i] == log[..i];
      if IsMessageEvent(log[i]) {
        sources := sources + [i + 1];
      }
      i := i + 1;
    }
    assert log[..i] == log;
    var pins := SelectPins(log);
    ContextIsValid(est, log, pins);
    return Some(ContextOf(est, log, pins));
  }
}
