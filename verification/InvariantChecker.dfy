/** The runtime's own invariant checker: what it reports about accepted logs, and about the logs of runs. */
module InvariantChecker {
  import opened Events
  import opened Projection
  import opened ToolPipeline
  import opened Runtime
  import opened RuntimeInvariant
  import opened DriverLemmas
  import opened LogLaws
  import opened RuntimeSafety
  import opened RuntimeRuns
  import opened RuntimeTheorems

  datatype Finding =
    | UnapprovedMutation(sequence: nat, callId: string)
    | DuplicateMutation(sequence: nat, callId: string)
    | ContextBudgetViolation(sequence: nat, tokens: int)
    | EventInvariantViolation

  datatype Audit = Audit(approvals: map<string, bool>, effects: map<string, Effect>, completions: map<string, nat>, findings: seq<Finding>)

  /** A decision is noted for every call that was requested under its id, anywhere in the log. */
  function NoteDecision(approvals: map<string, bool>, log: seq<Event>, id: RequestId, approved: bool): map<string, bool> {
    if log == [] then approvals
    else
      var before := NoteDecision(approvals, log[..|log| - 1], id, approved);
      var e := log[|log| - 1];
      if e.ApprovalRequested? && e.requestId == id then before[e.callId := approved] else before
  }

  predicate Mutates(a: Audit, callId: string) {
    callId in a.effects && a.effects[callId].Mutate?
  }

  predicate IsApproved(a: Audit, callId: string) {
    callId in a.approvals && a.approvals[callId]
  }

  function CountOf(a: Audit, callId: string): nat {
    if callId in a.completions then a.completions[callId] else 0
  }

  /** The branches for one event; `all` is the whole log and `n` the event's sequence. */
  function AuditEvent(a: Audit, all: seq<Event>, n: nat, e: Event): Audit {
    match e
    case ToolRequested(callId, _, _, effect, _) => a.(effects := a.effects[callId := effect])
    case ApprovalRequested(_, callId) => a.(approvals := a.approvals[callId := false])
    case ApprovalDecided(id, approved) => a.(approvals := NoteDecision(a.approvals, all, id, approved))
    case ToolStarted(callId) =>
      if Mutates(a, callId) && !IsApproved(a, callId) then a.(findings := a.findings + [UnapprovedMutation(n, callId)]) else a
    case ToolCompleted(callId, _, _) =>
      if !Mutates(a, callId) then a
      else
        var count := CountOf(a, callId) + 1;
        a.(completions := a.completions[callId := count],
           findings := a.findings + if count > 1 then [DuplicateMutation(n, callId)] else [])
    case _ => a
  }

  function BudgetFinding(budget: Option<int>, n: nat, e: Event): seq<Finding> {
    if budget.Some? && e.AssistantMessage? && e.inputTokens.Some? && e.inputTokens.value > budget.value
    then [ContextBudgetViolation(n, e.inputTokens.value)] else []
  }

  const NOTHING_SEEN := Audit(map[], map[], map[], [])

  /** The audit of the first events of `all`. */
  function AuditOf(all: seq<Event>, budget: Option<int>, seen: seq<Event>): Audit {
    if seen == [] then NOTHING_SEEN
    else
      var e := seen[|seen| - 1];
      var a := AuditEvent(AuditOf(all, budget, seen[..|seen| - 1]), all, |seen|, e);
      a.(findings := a.findings + BudgetFinding(budget, |seen|, e))
  }

  /** The report. Projecting twice gives the same result, so no replay mismatch is ever reported. */
  function Findings(budget: Option<int>, log: seq<Event>): seq<Finding> {
    AuditOf(log, budget, log).findings + if Project(log).None? then [EventInvariantViolation] else []
  }

  /** `check`. */
  method Check(budget: Option<int>, events: seq<Event>) returns (findings: seq<Finding>)
    ensures findings == Findings(budget, events)
    ensures forall f :: f in findings <==> Due(budget, events, f)
  {
    hide Project, NoteDecision, Due;
    FindingsExactly(budget, events);
    var a := NOTHING_SEEN;
    var i := 0;
    while i < |events|
      invariant 0 <= i <= |events| && a == AuditOf(events, budget, events[..i])
    {
      assert events[..i + 1][..i] == events[..i];
      a := AuditEvent(a, events, i + 1, events[i]);
      a := a.(findings := a.findings + BudgetFinding(budget, i + 1, events[i]));
      i := i + 1;
    }
    assert events[..i] == events;
    findings := a.findings;
    if Project(events).None? {
      findings := findings + [EventInvariantViolation];
    }
  }

  /* ---------------------------------------------------------------- the report, read off the raw log */

  predicate Requests(e: Event, c: string) { e.ToolRequested? && e.callId == c }

  /** Of the first `n` events the last request of the call is mutating. */
  predicate LastMutating(log: seq<Event>, n: nat, c: string)
    requires n <= |log|
  {
    exists k | 0 <= k < n :: Requests(log[k], c) && log[k].effect.Mutate? && forall j | k < j < n :: !Requests(log[j], c)
  }

  /** An approval event about the call; a decision concerns every call requested under its id, earlier or later. */
  predicate Concerns(log: seq<Event>, e: Event, c: string) {
    (e.ApprovalRequested? && e.callId == c) || (e.ApprovalDecided? && ApprovalRequested(e.requestId, c) in log)
  }

  /** Of the first `n` events the last one that concerns the call grants it. */
  predicate LastGrants(log: seq<Event>, n: nat, c: string)
    requires n <= |log|
  {
    exists k | 0 <= k < n ::
      Concerns(log, log[k], c) && log[k].ApprovalDecided? && log[k].approved && forall j | k < j < n :: !Concerns(log, log[j], c)
  }

  predicate CompletesMutation(log: seq<Event>, k: nat, c: string) {
    k < |log| && log[k].ToolCompleted? && log[k].callId == c && LastMutating(log, k, c)
  }

  predicate CompletedBefore(log: seq<Event>, n: nat, c: string) {
    exists k | 0 <= k < n :: CompletesMutation(log, k, c)
  }

  /** What there is to report; the event with sequence `n` is the one at index `n - 1`. */
  predicate Due(budget: Option<int>, log: seq<Event>, f: Finding) {
    match f
    case UnapprovedMutation(n, c) =>
      0 < n <= |log| && log[n - 1] == ToolStarted(c) && LastMutating(log, n - 1, c) && !LastGrants(log, n - 1, c)
    case DuplicateMutation(n, c) =>
      0 < n <= |log| && CompletesMutation(log, n - 1, c) && CompletedBefore(log, n - 1, c)
    case ContextBudgetViolation(n, tokens) =>
      0 < n <= |log| && log[n - 1].AssistantMessage? && log[n - 1].inputTokens == Some(tokens) && budget.Some? && tokens > budget.value
    case EventInvariantViolation => Project(log).None?
  }

  /** The sequence that a finding names; 0 for the one without an event. */
  function SequenceOf(f: Finding): nat {
    if f.EventInvariantViolation? then 0 else f.sequence
  }

  lemma {:induction false} LastMutatingNext(log: seq<Event>, n: nat, c: string)
    requires n < |log|
    ensures LastMutating(log, n + 1, c) <==> if Requests(log[n], c) then log[n].effect.Mutate? else LastMutating(log, n, c)
  {
    if Requests(log[n], c) {
      if LastMutating(log, n + 1, c) {
        var k :| 0 <= k < n + 1 && Requests(log[k], c) && log[k].effect.Mutate? && forall j | k < j < n + 1 :: !Requests(log[j], c);
        assert k == n;
      }
    } else if LastMutating(log, n, c) {
      var k :| 0 <= k < n && Requests(log[k], c) && log[k].effect.Mutate? && forall j | k < j < n :: !Requests(log[j], c);
      assert forall j | k < j < n + 1 :: !Requests(log[j], c);
    }
  }

  lemma {:induction false} LastGrantsNext(log: seq<Event>, n: nat, c: string)
    requires n < |log|
    ensures LastGrants(log, n + 1, c)
       <==> if Concerns(log, log[n], c) then log[n].ApprovalDecided? && log[n].approved else LastGrants(log, n, c)
  {
    hide Concerns;
    if Concerns(log, log[n], c) {
      if LastGrants(log, n + 1, c) {
        var k :| 0 <= k < n + 1 && Concerns(log, log[k], c) && log[k].ApprovalDecided? && log[k].approved
                 && forall j | k < j < n + 1 :: !Concerns(log, log[j], c);
        assert k == n;
      }
    } else if LastGrants(log, n, c) {
      var k :| 0 <= k < n && Concerns(log, log[k], c) && log[k].ApprovalDecided? && log[k].approved
               && forall j | k < j < n :: !Concerns(log, log[j], c);
      assert forall j | k < j < n + 1 :: !Concerns(log, log[j], c);
    }
  }

  lemma {:induction false} CompletedNext(log: seq<Event>, n: nat, c: string)
    requires n < |log|
    ensures CompletedBefore(log, n + 1, c) <==> CompletedBefore(log, n, c) || CompletesMutation(log, n, c)
  {
    hide CompletesMutation;
  }

  lemma {:induction false} NotedExactly(approvals: map<string, bool>, log: seq<Event>, id: RequestId, approved: bool, c: string)
    ensures var noted := NoteDecision(approvals, log, id, approved);
            if ApprovalRequested(id, c) in log then c in noted && noted[c] == approved
            else (c in noted <==> c in approvals) && (c in noted ==> noted[c] == approvals[c])
  {
    if log != [] {
      NotedExactly(approvals, log[..|log| - 1], id, approved, c);
      assert log == log[..|log| - 1] + [log[|log| - 1]];
    }
  }

  /** The audit's maps and the raw log agree about one call. */
  predicate Noted(log: seq<Event>, n: nat, a: Audit, c: string)
    requires n <= |log|
  {
    && (Mutates(a, c) <==> LastMutating(log, n, c))
    && (IsApproved(a, c) <==> LastGrants(log, n, c))
    && (CountOf(a, c) > 0 <==> CompletedBefore(log, n, c))
  }

  lemma {:induction false} NotedNext(log: seq<Event>, n: nat, a: Audit, c: string, budget: Option<int>)
    requires n < |log| && Noted(log, n, a, c)
    ensures var b := AuditEvent(a, log, n + 1, log[n]);
            Noted(log, n + 1, b.(findings := b.findings + BudgetFinding(budget, n + 1, log[n])), c)
  {
    hide NoteDecision, LastMutating, LastGrants, CompletedBefore;
    var e := log[n];
    LastMutatingNext(log, n, c);
    LastGrantsNext(log, n, c);
    if e.ApprovalDecided? {
      NotedExactly(a.approvals, log, e.requestId, e.approved, c);
    }
    CompletedNext(log, n, c);
  }

  predicate InOrder(findings: seq<Finding>) {
    forall i, j | 0 <= i < j < |findings| :: SequenceOf(findings[i]) < SequenceOf(findings[j])
  }

  /** What one event adds to the findings. */
  function Added(budget: Option<int>, log: seq<Event>, n: nat, a: Audit): (r: seq<Finding>)
    requires n < |log|
    ensures |r| <= 1
  {
    var e := log[n];
    if e.ToolStarted? && Mutates(a, e.callId) && !IsApproved(a, e.callId) then [UnapprovedMutation(n + 1, e.callId)]
    else if e.ToolCompleted? && Mutates(a, e.callId) && CountOf(a, e.callId) > 0 then [DuplicateMutation(n + 1, e.callId)]
    else BudgetFinding(budget, n + 1, e)
  }

  lemma {:induction false} AddedIsDue(budget: Option<int>, log: seq<Event>, n: nat, a: Audit, f: Finding)
    requires n < |log| && forall c: string :: Noted(log, n, a, c)
    ensures f in Added(budget, log, n, a) <==> Due(budget, log, f) && SequenceOf(f) == n + 1
  {
    hide LastMutating, LastGrants, CompletedBefore, Project, Mutates, IsApproved, CountOf, Noted;
    var e := log[n];
    if e.ToolStarted? || e.ToolCompleted? {
      NotedParts(log, n, a, e.callId);
    }
  }

  lemma {:induction false} NotedParts(log: seq<Event>, n: nat, a: Audit, c: string)
    requires n <= |log| && Noted(log, n, a, c)
    ensures Mutates(a, c) <==> LastMutating(log, n, c)
    ensures IsApproved(a, c) <==> LastGrants(log, n, c)
    ensures CountOf(a, c) > 0 <==> CompletedBefore(log, n, c)
  {
  }

  /** The findings about the first `n` events, in order. */
  ghost predicate FoundSo(budget: Option<int>, log: seq<Event>, n: nat, findings: seq<Finding>) {
    InOrder(findings) && forall f :: f in findings <==> Due(budget, log, f) && 0 < SequenceOf(f) <= n
  }

  lemma {:induction false} FoundNext(budget: Option<int>, log: seq<Event>, n: nat, a: Audit)
    requires n < |log| && (forall c: string :: Noted(log, n, a, c)) && FoundSo(budget, log, n, a.findings)
    ensures FoundSo(budget, log, n + 1, a.findings + Added(budget, log, n, a))
  {
    hide Noted, Due, Added;
    var more := Added(budget, log, n, a);
    var after := a.findings + more;
    forall f ensures f in after <==> Due(budget, log, f) && 0 < SequenceOf(f) <= n + 1 {
      AddedIsDue(budget, log, n, a, f);
    }
    if more != [] {
      AddedIsDue(budget, log, n, a, more[0]);
    }
    forall i, j | 0 <= i < j < |after| ensures SequenceOf(after[i]) < SequenceOf(after[j]) {
      assert a.findings[i] in a.findings;
    }
  }

  lemma {:induction false} AddedByEvent(budget: Option<int>, log: seq<Event>, n: nat, a: Audit)
    requires n < |log|
    ensures AuditEvent(a, log, n + 1, log[n]).findings + BudgetFinding(budget, n + 1, log[n]) == a.findings + Added(budget, log, n, a)
  {
    hide NoteDecision, Mutates, IsApproved;
  }

  lemma {:induction false} AuditExactly(budget: Option<int>, log: seq<Event>, n: nat)
    requires n <= |log|
    ensures var a := AuditOf(log, budget, log[..n]);
            (forall c: string :: Noted(log, n, a, c)) && FoundSo(budget, log, n, a.findings)
  {
    hide Noted, FoundSo, AuditEvent, Added, BudgetFinding;
    if n == 0 {
      NothingFound(budget, log);
      forall c: string ensures Noted(log, 0, NOTHING_SEEN, c) {
        NothingNoted(log, c);
      }
    } else {
      assert log[..n][..n - 1] == log[..n - 1];
      AuditExactly(budget, log, n - 1);
      var a := AuditOf(log, budget, log[..n - 1]);
      forall c: string ensures Noted(log, n, AuditOf(log, budget, log[..n]), c) {
        NotedNext(log, n - 1, a, c, budget);
      }
      AddedByEvent(budget, log, n - 1, a);
      FoundNext(budget, log, n - 1, a);
    }
  }

  lemma {:induction false} NothingFound(budget: Option<int>, log: seq<Event>)
    ensures FoundSo(budget, log, 0, [])
  {
  }

  lemma {:induction false} NothingNoted(log: seq<Event>, c: string)
    ensures Noted(log, 0, NOTHING_SEEN, c)
  {
  }

  /** The report holds what is due and nothing else, in the order of the log, and the violation without an event last. */
  lemma {:induction false} FindingsExactly(budget: Option<int>, log: seq<Event>)
    ensures forall f :: f in Findings(budget, log) <==> Due(budget, log, f)
    ensures var r := Findings(budget, log);
            forall i, j | 0 <= i < j < |r| ::
              !r[i].EventInvariantViolation? && (r[j].EventInvariantViolation? || SequenceOf(r[i]) < SequenceOf(r[j]))
  {
    hide AuditOf, Project, LastMutating, LastGrants, CompletedBefore;
    assert log[..|log|] == log;
    AuditExactly(budget, log, |log|);
    var found := AuditOf(log, budget, log).findings;
    assert EventInvariantViolation !in found;
    assert forall i | 0 <= i < |found| :: found[i] in found;
  }

  /* ---------------------------------------------------------------- accepted logs */

  /** How often a call has been completed. */
  function Completions(log: seq<Event>, callId: string): nat {
    if log == [] then 0
    else
      var e := log[|log| - 1];
      Completions(log[..|log| - 1], callId) + (if e.ToolCompleted? && e.callId == callId then 1 else 0)
  }

  /** A call that has been completed has come to its end. */
  lemma {:induction false} CompletedOnce(log: seq<Event>, callId: string)
    requires Project(log).Some?
    ensures Completions(log, callId) <= 1
    ensures Completions(log, callId) == 1 ==> LifeOf(log, callId) != [] && LifeOf(log, callId)[|LifeOf(log, callId)| - 1].Ended?
  {
    hide Accepts, Advance, Project;
    if log != [] {
      var front, e := log[..|log| - 1], log[|log| - 1];
      ProjectLast(log);
      CompletedOnce(front, callId);
      LifeCycles(front, callId);
      if LifeEvent(e, callId).Some? {
        LifeContinues(Project(front).value, |log| == 1, e, callId, LifeOf(front, callId));
      }
    }
  }

  predicate NoDuplicates(findings: seq<Finding>) {
    forall i | 0 <= i < |findings| :: !findings[i].DuplicateMutation?
  }

  lemma {:induction false} AuditCounts(all: seq<Event>, budget: Option<int>, n: nat)
    requires Project(all).Some? && n <= |all|
    ensures var a := AuditOf(all, budget, all[..n]);
            NoDuplicates(a.findings) && forall callId | callId in a.completions :: a.completions[callId] <= Completions(all[..n], callId)
  {
    hide Project, NoteDecision, Completions;
    if n > 0 {
      var seen := all[..n];
      assert seen[..n - 1] == all[..n - 1];
      AuditCounts(all, budget, n - 1);
      var a := AuditOf(all, budget, all[..n - 1]);
      var e := all[n - 1];
      CompletionsSnoc(all[..n - 1], e);
      assert seen == all[..n - 1] + [e];
      if e.ToolCompleted? {
        PrefixAccepted(all, n);
        CompletedOnce(seen, e.callId);
      }
    }
  }

  lemma {:induction false} CompletionsSnoc(log: seq<Event>, e: Event)
    ensures forall callId :: Completions(log + [e], callId)
                          == Completions(log, callId) + (if e.ToolCompleted? && e.callId == callId then 1 else 0)
  {
    assert (log + [e])[..|log + [e]| - 1] == log;
  }

  /** An accepted log yields neither a duplicate mutation nor an event invariant violation; a rejected one yields the latter. */
  lemma {:induction false} AcceptedLogsAreClean(budget: Option<int>, log: seq<Event>)
    ensures EventInvariantViolation in Findings(budget, log) <==> Project(log).None?
    ensures Project(log).Some? ==> NoDuplicates(Findings(budget, log))
  {
    hide Project, AuditOf;
    assert log[..|log|] == log;
    if Project(log).Some? {
      AuditCounts(log, budget, |log|);
    }
    NoViolationAmong(log, budget, |log|);
  }

  lemma {:induction false} NoViolationAmong(all: seq<Event>, budget: Option<int>, n: nat)
    requires n <= |all|
    ensures EventInvariantViolation !in AuditOf(all, budget, all[..n]).findings
  {
    hide NoteDecision;
    if n > 0 {
      assert all[..n][..n - 1] == all[..n - 1];
      NoViolationAmong(all, budget, n - 1);
    }
  }

  /* ---------------------------------------------------------------- the logs of runs */

  /** In the log of a run a decision concerns the one call that its id names. */
  lemma {:induction false} DecisionNoted(cfg: Config, log: seq<Event>, approvals: map<string, bool>, c: string, approved: bool)
    requires LawfulLog(cfg, log)
    ensures var noted := NoteDecision(approvals, log, ApprovalOf(c), approved);
            && (forall d | d != c :: (d in noted <==> d in approvals) && (d in noted ==> noted[d] == approvals[d]))
            && (HasRequest(log, ApprovalOf(c)) ==> c in noted && noted[c] == approved)
  {
    hide Project, Accepts, LastDecision, FirstPending, StartLawful, ToolEffect;
    if log != [] {
      DecisionNoted(cfg, log[..|log| - 1], approvals, c, approved);
    }
  }

  /** The checker's approvals are the executor's: the last decision, if it granted the call. */
  ghost predicate ApprovalsNoted(a: Audit, log: seq<Event>) {
    forall c: string :: IsApproved(a, c) <==> LastDecision(log, c) == Some(true)
  }

  /** The checker's effects are those of the tools. */
  ghost predicate EffectsNoted(a: Audit, tools: seq<ToolRecord>) {
    forall c: string :: Mutates(a, c) ==> IndexOfTool(tools, c) < |tools| && tools[IndexOfTool(tools, c)].effect.Mutate?
  }

  predicate EffectsTrue(cfg: Config, tools: seq<ToolRecord>) {
    forall i | 0 <= i < |tools| :: tools[i].effect == ToolEffect(cfg.pipeline, CallOf(tools[i]))
  }

  /** A mutating call whose preflight rejects it. */
  predicate IsRejected(cfg: Config, tools: seq<ToolRecord>, c: string) {
    var i := IndexOfTool(tools, c);
    i < |tools| && tools[i].effect.Mutate? && RunPreflight(cfg.pipeline, CallOf(tools[i])).Rejected?
  }

  predicate OnlyRejected(cfg: Config, tools: seq<ToolRecord>, findings: seq<Finding>) {
    forall i | 0 <= i < |findings| && findings[i].UnapprovedMutation? :: IsRejected(cfg, tools, findings[i].callId)
  }

  lemma {:induction false} RequestStays(log: seq<Event>, n: nat, id: RequestId)
    requires n <= |log| && HasRequest(log[..n], id)
    ensures HasRequest(log, id)
  {
    if n < |log| {
      assert log[..|log| - 1][..n] == log[..n];
      RequestStays(log[..|log| - 1], n, id);
    } else {
      assert log[..n] == log;
    }
  }

  lemma {:induction false} RequestsAreOfCalls(cfg: Config, log: seq<Event>, id: RequestId)
    requires LawfulLog(cfg, log) && HasRequest(log, id)
    ensures id.ApprovalOf?
  {
    hide Project, Accepts, LastDecision, FirstPending, StartLawful, ToolEffect;
    if !(log[|log| - 1].ApprovalRequested? && log[|log| - 1].requestId == id) {
      RequestsAreOfCalls(cfg, log[..|log| - 1], id);
    }
  }

  lemma {:induction false} ApprovalsNotedNext(cfg: Config, all: seq<Event>, log: seq<Event>, p: RunProjection, e: Event, a: Audit, n: nat)
    requires LawfulLog(cfg, all) && log + [e] <= all && LawfulLog(cfg, log)
    requires Lawful(cfg, log, p, e) && ApprovalsNoted(a, log)
    ensures ApprovalsNoted(AuditEvent(a, all, n, e), log + [e])
  {
    hide LawfulLog, Project, Accepts, FirstPending, StartLawful, ToolEffect, NoteDecision, HasRequest, LastDecision, Advance;
    forall c: string ensures IsApproved(AuditEvent(a, all, n, e), c) <==> LastDecision(log + [e], c) == Some(true) {
      ApprovalsSnoc(log, e, c);
      assert IsApproved(a, c) <==> LastDecision(log, c) == Some(true);
      if e.ApprovalDecided? {
        RequestsAreOfCalls(cfg, log, e.requestId);
        assert all[..|log|] == log;
        RequestStays(all, |log|, e.requestId);
        DecisionNoted(cfg, all, a.approvals, e.requestId.callId, e.approved);
      }
    }
  }

  lemma {:induction false} EffectsNotedNext(cfg: Config, all: seq<Event>, log: seq<Event>, p: RunProjection, e: Event, a: Audit, n: nat)
    requires Accepts(p, log == [], e) && Lawful(cfg, log, p, e) && EffectsNoted(a, p.tools) && EffectsTrue(cfg, p.tools)
    ensures EffectsNoted(AuditEvent(a, all, n, e), Advance(p, e).tools) && EffectsTrue(cfg, Advance(p, e).tools)
  {
    hide FindAssistant, StepsOfTurn, ToolEffect, NoteDecision, LastDecision, FirstPending, StartLawful, HasRequest, IndexOfItem, Blank, RunPreflight;
    var q := Advance(p, e);
    var after := AuditEvent(a, all, n, e);
    AdvanceGrows(p, log == [], e);
    forall i | 0 <= i < |q.tools| ensures q.tools[i].effect == ToolEffect(cfg.pipeline, CallOf(q.tools[i])) {
      if i < |p.tools| {
        assert CallOf(q.tools[i]) == CallOf(p.tools[i]);
      }
    }
    forall c: string | Mutates(after, c) ensures IndexOfTool(q.tools, c) < |q.tools| && q.tools[IndexOfTool(q.tools, c)].effect.Mutate? {
      if e.ToolRequested? && e.callId == c {
        IndexUnderAppend(p.tools, q.tools[|p.tools|], c);
      } else {
        assert Mutates(a, c);
        GrownIndex(p.tools, q.tools, c);
        assert q.tools[IndexOfTool(p.tools, c)].effect == p.tools[IndexOfTool(p.tools, c)].effect;
      }
    }
  }

  lemma {:induction false} FindingsNext(cfg: Config, all: seq<Event>, log: seq<Event>, p: RunProjection, e: Event, a: Audit, n: nat)
    requires Accepts(p, log == [], e) && Lawful(cfg, log, p, e)
    requires ApprovalsNoted(a, log) && EffectsNoted(a, p.tools) && EffectsTrue(cfg, p.tools) && OnlyRejected(cfg, p.tools, a.findings)
    ensures OnlyRejected(cfg, Advance(p, e).tools, AuditEvent(a, all, n, e).findings)
  {
    hide FindAssistant, StepsOfTurn, ToolEffect, NoteDecision, LastDecision, FirstPending, HasRequest, RunPreflight, Advance, Accepts;
    var q := Advance(p, e);
    AdvanceGrows(p, log == [], e);
    forall c: string | IsRejected(cfg, p.tools, c) ensures IsRejected(cfg, q.tools, c) {
      GrownIndex(p.tools, q.tools, c);
      assert CallOf(q.tools[IndexOfTool(p.tools, c)]) == CallOf(p.tools[IndexOfTool(p.tools, c)]);
    }
    if e.ToolStarted? && Mutates(a, e.callId) && !IsApproved(a, e.callId) {
      var i := IndexOfTool(p.tools, e.callId);
      IndexOfToolFirst(p.tools, e.callId);
      assert LastDecision(log, e.callId) != Some(true);
      assert NeedsApproval(cfg.pipeline, CallOf(p.tools[i]));
      assert IsRejected(cfg, p.tools, e.callId);
    }
  }

  lemma {:induction false} AuditOfRun(cfg: Config, all: seq<Event>, budget: Option<int>, n: nat)
    requires LawfulLog(cfg, all) && n <= |all|
    ensures Project(all[..n]).Some?
    ensures var a := AuditOf(all, budget, all[..n]);
            var tools := Project(all[..n]).value.tools;
            ApprovalsNoted(a, all[..n]) && EffectsNoted(a, tools) && EffectsTrue(cfg, tools) && OnlyRejected(cfg, tools, a.findings)
  {
    hide Project, Accepts, Lawful, LawfulLog, ApprovalsNoted, EffectsNoted, EffectsTrue, OnlyRejected, AuditEvent, Advance;
    if n == 0 {
      assert all[..0] == [];
      NothingAudited(cfg);
    } else {
      var log, e := all[..n - 1], all[n - 1];
      AuditOfRun(cfg, all, budget, n - 1);
      LawfulAt(cfg, all, n - 1);
      assert all[..n] == log + [e] && all[..n][..n - 1] == log;
      var a := AuditOf(all, budget, log);
      var p := Project(log).value;
      ApprovalsNotedNext(cfg, all, log, p, e, a, n);
      EffectsNotedNext(cfg, all, log, p, e, a, n);
      FindingsNext(cfg, all, log, p, e, a, n);
      BudgetAside(cfg, log + [e], Advance(p, e).tools, AuditEvent(a, all, n, e), BudgetFinding(budget, n, e));
    }
  }

  lemma {:induction false} NothingAudited(cfg: Config)
    ensures Project([]) == Some(INITIAL) && ApprovalsNoted(NOTHING_SEEN, []) && EffectsNoted(NOTHING_SEEN, [])
    ensures EffectsTrue(cfg, []) && OnlyRejected(cfg, [], [])
  {
  }

  /** Budget findings concern nothing else. */
  lemma {:induction false} BudgetAside(cfg: Config, log: seq<Event>, tools: seq<ToolRecord>, a: Audit, more: seq<Finding>)
    requires ApprovalsNoted(a, log) && EffectsNoted(a, tools) && OnlyRejected(cfg, tools, a.findings)
    requires forall i | 0 <= i < |more| :: more[i].ContextBudgetViolation?
    ensures var b := a.(findings := a.findings + more);
            ApprovalsNoted(b, log) && EffectsNoted(b, tools) && OnlyRejected(cfg, tools, b.findings)
  {
    hide IsRejected, LastDecision;
    var b := a.(findings := a.findings + more);
    assert forall c: string :: IsApproved(b, c) == IsApproved(a, c);
    assert forall c: string :: Mutates(b, c) == Mutates(a, c);
  }

  /** On the log of a run, whatever has happened to it, every unapproved mutation that the checker reports is a call that
      its preflight rejected, and its handler was never entered. */
  lemma {:induction false} ReportedMutationsNeverRan(cfg: Config, run: seq<Label>, budget: Option<int>, i: nat)
    requires cfg.Valid() && Execute(cfg, run).Some? && i < |Findings(budget, After(cfg, run).log)|
    requires Findings(budget, After(cfg, run).log)[i].UnapprovedMutation?
    ensures Project(After(cfg, run).log).Some?
    ensures var c := Findings(budget, After(cfg, run).log)[i].callId;
            IsRejected(cfg, StateOf(After(cfg, run)).tools, c) && c !in After(cfg, run).entered
  {
    hide Execute, Project, LawfulLog, WorldOk, ApprovalsNoted, EffectsNoted, EffectsTrue, AuditOf, RunPreflight, NeedsApproval, Granted, ToolEffect;
    var w := After(cfg, run);
    LogIsLawful(cfg, run);
    assert w.log[..|w.log|] == w.log;
    AuditOfRun(cfg, w.log, budget, |w.log|);
    var c := Findings(budget, w.log)[i].callId;
    assert IsRejected(cfg, StateOf(w).tools, c);
    RunsAreGood(cfg, run);
    NonEmptyFindings(budget, w.log, i);
    var base, cursor := Witness(cfg, run);
    WorldParts(cfg, w, base, cursor);
  }

  lemma {:induction false} NonEmptyFindings(budget: Option<int>, log: seq<Event>, i: nat)
    requires Project(log).Some? && i < |Findings(budget, log)|
    ensures log != []
  {
    hide Project;
  }
}
