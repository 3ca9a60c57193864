/** What the durable runtime sends to the provider, trimmed or not. */
module ProviderRequests {
  import opened Events
  import opened Projection
  import opened Runtime
  import opened Conversation
  import opened RuntimeInvariant
  import opened RuntimeTheorems
  import opened ContextEngine
  import opened EventContext
  import opened TrimmingTheorems

  /** When no response has reused a call id, the context of a run, trimmed to any budget, is a well-formed request within
      the budget that keeps all pins. Its own final check never fires and the snapshot it makes is accepted; it fails
      only for a budget too small for what must stay, or, exactly when there is something to trim, because a text
      message has the tool role. */
  lemma {:induction false} TrimmedRequestsWellFormed(cfg: Config, run: seq<Label>, est: Estimator, pins: map<int, PinReason>, budget: int)
    requires cfg.Valid() && Execute(cfg, run).Some? && After(cfg, run).place.InProvider? && Project(After(cfg, run).log).Some?
    requires FreshIds(StateOf(After(cfg, run)).assistants)
    requires est.Valid() && budget >= 1 && PinsOf(After(cfg, run).log, pins)
    ensures ContextOf(est, After(cfg, run).log, pins).Valid()
    ensures var s := ContextOf(est, After(cfg, run).log, pins);
            var r := Trim(est, s, budget);
            && (r.Trimmed? || r.PinnedContextOverflow? || r.ContextBudgetOverflow? || r.OrphanResult?)
            && (r.OrphanResult? <==> budget < s.estimatedTokens && !NoToolText(s.messages))
            && (r.Trimmed? ==> WellFormed(r.snapshot.messages) && r.snapshot.estimatedTokens <= budget && r.snapshot.pinned == pins)
  {
    hide Execute, Project, FreshIds, WellFormed, Trim, PinsOf, NoToolText;
    var log := After(cfg, run).log;
    var s := ContextOf(est, log, pins);
    RequestsWellFormed(cfg, run);
    ContextIsValid(est, log, pins);
    TrimmedWellFormed(est, s, budget);
    NeverRejected(est, s, budget);
    PositiveBudget(est, s, budget);
    if Trim(est, s, budget).Trimmed? {
      PinsSurvive(est, s, budget);
      WithinBudget(est, s, budget);
    }
  }

  lemma {:induction false} PositiveBudget(est: Estimator, s: Snapshot, budget: int)
    requires est.Valid() && s.Valid() && budget >= 1
    ensures !Trim(est, s, budget).InvalidBudget?
  {
    hide Groups, Mandatory, Tokens, Choice, Cut;
  }

  lemma {:induction false} WithinBudget(est: Estimator, s: Snapshot, budget: int)
    requires est.Valid() && s.Valid() && Trim(est, s, budget).Trimmed?
    ensures Trim(est, s, budget).snapshot.estimatedTokens <= budget
  {
    if s.estimatedTokens > budget {
      TrimmingKeepsGroups(est, s, budget);
    }
  }
}
