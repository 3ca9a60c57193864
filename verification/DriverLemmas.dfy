/** How the driver's readings of log and projection change when one event is appended, and what they
    amount to in a world that satisfies the invariant. */
module DriverLemmas {
  import opened Events
  import opened Projection
  import opened ToolPipeline
  import opened Runtime
  import opened RuntimeInvariant

  /* ---------------------------------------------------------------- approvals */

  lemma {:induction false} ApprovalsSnoc(log: seq<Event>, e: Event, callId: string)
    ensures FirstDecision(log + [e], callId)
         == if FirstDecision(log, callId).Some? then FirstDecision(log, callId)
            else if Decides(e, callId) && WasRequested(log, callId) then Some(e.approved) else None
    ensures LastDecision(log + [e], callId) == if Decides(e, callId) then Some(e.approved) else LastDecision(log, callId)
    ensures WasRequested(log + [e], callId)
         <==> WasRequested(log, callId) || e == ApprovalRequested(ApprovalOf(callId), callId)
  {
    assert (log + [e])[..|log + [e]| - 1] == log;
  }

  /** A call that was never requested has no decision. */
  lemma {:induction false} NoRequestNoDecision(log: seq<Event>, tools: seq<ToolRecord>, cursor: nat, callId: string)
    requires RequestsKnown(log, tools, cursor) && DecisionsAnswer(log)
    requires forall i | 0 <= i < |log| && log[i].ApprovalRequested? :: log[i].callId != callId
    ensures FirstDecision(log, callId).None? && LastDecision(log, callId).None? && !WasRequested(log, callId)
  {
    assert forall i | 0 <= i < |log| && log[i].ApprovalRequested? :: log[i].requestId != ApprovalOf(callId);
    UndecidedLog(log, callId);
  }

  lemma {:induction false} UndecidedLog(log: seq<Event>, callId: string)
    requires DecisionsAnswer(log)
    requires forall i | 0 <= i < |log| && log[i].ApprovalRequested? :: log[i].requestId != ApprovalOf(callId)
    ensures FirstDecision(log, callId).None? && LastDecision(log, callId).None? && !HasRequest(log, ApprovalOf(callId))
  {
    if log != [] {
      var before := log[..|log| - 1];
      assert forall i | 0 <= i < |before| :: before[i] == log[i];
      UndecidedLog(before, callId);
    }
  }

  /** A first decision answers a request that precedes it. */
  lemma {:induction false} DecisionFollowsRequest(log: seq<Event>, callId: string)
    requires FirstDecision(log, callId) == Some(true)
    ensures Granted(log, callId)
  {
    var before := log[..|log| - 1];
    if FirstDecision(before, callId).Some? {
      DecisionFollowsRequest(before, callId);
      GrantedGrows(before, log[|log| - 1], callId);
      assert before + [log[|log| - 1]] == log;
    } else {
      var i :| 0 <= i < |before| && before[i] == ApprovalRequested(ApprovalOf(callId), callId);
      assert log[i] == before[i] && log[|log| - 1] == ApprovalDecided(ApprovalOf(callId), true);
    }
  }

  lemma {:induction false} GrantedGrows(log: seq<Event>, e: Event, callId: string)
    requires Granted(log, callId)
    ensures Granted(log + [e], callId)
  {
    var i, j :| 0 <= i < j < |log| && log[i] == ApprovalRequested(ApprovalOf(callId), callId)
                && log[j] == ApprovalDecided(ApprovalOf(callId), true);
    assert (log + [e])[i] == log[i] && (log + [e])[j] == log[j];
  }

  /* ---------------------------------------------------------------- tools */

  lemma {:induction false} IndexIs(tools: seq<ToolRecord>, i: nat)
    requires i < |tools| && UniqueTools(tools)
    ensures IndexOfTool(tools, tools[i].callId) == i
  {
    IndexOfToolFirst(tools, tools[i].callId);
  }

  /** A finished prefix and an untouched suffix leave only the cursor to be uncertain. */
  lemma {:induction false} UncertainAtCursor(cfg: Config, p: RunProjection, base: nat, cursor: nat)
    requires ToolsOk(cfg, p, base, cursor)
    ensures HasUncertain(p) <==> cursor < |p.tools| && IsUncertain(p.tools[cursor])
    ensures HasUncertain(p) ==> UncertainIndex(p.tools) == cursor
  {
    UncertainIndexFirst(p.tools);
  }

  /** Finished up to here, and not finished here. */
  predicate FrontierAt(tools: seq<ToolRecord>, c: nat) {
    c <= |tools| && (forall i | 0 <= i < c :: tools[i].IsDone()) && (c < |tools| ==> !tools[c].IsDone())
  }

  lemma {:induction false} OneFrontier(tools: seq<ToolRecord>, a: nat, b: nat)
    requires FrontierAt(tools, a) && FrontierAt(tools, b)
    ensures a == b
  {
  }

  /** Tools of completed steps up to here, tools of the open step from here on. */
  predicate SplitAt(p: RunProjection, b: nat) {
    && p.HasOpenStep() && b <= |p.tools|
    && (forall i | 0 <= i < b :: p.tools[i].key in p.completed)
    && (forall i | b <= i < |p.tools| :: p.tools[i].key == p.OpenKey())
  }

  lemma {:induction false} OneSplit(p: RunProjection, a: nat, b: nat)
    requires SplitAt(p, a) && SplitAt(p, b)
    ensures a == b
  {
    assert a < b ==> p.tools[a].key == p.OpenKey();
    assert b < a ==> p.tools[b].key == p.OpenKey();
  }

  /* ---------------------------------------------------------------- requests */

  /** Every unknown call is among the fresh ones. */
  lemma {:induction false} FreshComplete(calls: seq<ToolCall>, known: seq<ToolRecord>, i: nat) returns (j: nat)
    requires i < |calls| && !KnowsTool(known, calls[i].id)
    ensures j < |FreshCalls(calls, known)| && FreshCalls(calls, known)[j].0 == i
  {
    if i == |calls| - 1 {
      j := |FreshCalls(calls, known)| - 1;
    } else {
      j := FreshComplete(calls[..|calls| - 1], known, i);
    }
  }

  /** Calls with the same id are the same call. */
  lemma {:induction false} ApartPlaces(calls: seq<ToolCall>, i: int, j: int)
    requires DistinctIds(calls) && 0 <= i < |calls| && 0 <= j < |calls|
    ensures calls[i].id == calls[j].id ==> i == j
  {
    if i < j {
      assert Apart(calls[i], calls[j]);
    } else if j < i {
      assert Apart(calls[j], calls[i]);
    }
  }

  /** A call is known when it was before this response, or when it has been requested since. */
  lemma {:induction false} KnownIn(cfg: Config, p: RunProjection, base: nat, calls: seq<ToolCall>, i: nat)
    requires base <= |p.tools| && RequestsOk(cfg, p, base, calls) && i < |calls|
    ensures KnowsTool(p.tools, calls[i].id)
            ==> KnowsTool(p.tools[..base], calls[i].id)
                || exists j | 0 <= j < |p.tools| - base :: FreshCalls(calls, p.tools[..base])[j].0 == i
    ensures KnowsTool(p.tools[..base], calls[i].id) ==> KnowsTool(p.tools, calls[i].id)
    ensures forall j | 0 <= j < |p.tools| - base && FreshCalls(calls, p.tools[..base])[j].0 == i ::
              KnowsTool(p.tools, calls[i].id)
  {
    var todo := FreshCalls(calls, p.tools[..base]);
    FreshCallsAre(calls, p.tools[..base]);
    if KnowsTool(p.tools, calls[i].id) {
      var k :| 0 <= k < |p.tools| && p.tools[k].callId == calls[i].id;
      if k < base {
        KnownAt(p.tools[..base], k);
        assert KnowsTool(p.tools[..base], calls[i].id);
      } else {
        assert Records(cfg, p.tools[base + (k - base)], todo[k - base]);
        ApartPlaces(calls, todo[k - base].0, i);
        assert exists j | 0 <= j < |p.tools| - base :: FreshCalls(calls, p.tools[..base])[j].0 == i;
      }
    }
    if KnowsTool(p.tools[..base], calls[i].id) {
      var k :| 0 <= k < base && p.tools[..base][k].callId == calls[i].id;
      KnownAt(p.tools, k);
    }
    forall j | 0 <= j < |p.tools| - base && todo[j].0 == i ensures KnowsTool(p.tools, calls[i].id) {
      assert Records(cfg, p.tools[base + j], todo[j]);
      KnownAt(p.tools, base + j);
    }
  }

  /** The first call without a record is the next fresh one. */
  lemma {:induction false} NextRequest(cfg: Config, p: RunProjection, base: nat, calls: seq<ToolCall>)
    requires base <= |p.tools| && RequestsOk(cfg, p, base, calls)
    ensures var todo := FreshCalls(calls, p.tools[..base]);
            FirstUnknown(calls, p.tools) == if |p.tools| - base < |todo| then todo[|p.tools| - base].0 else |calls|
  {
    var todo := FreshCalls(calls, p.tools[..base]);
    var n := |p.tools| - base;
    var want := if n < |todo| then todo[n].0 else |calls|;
    FreshCallsAre(calls, p.tools[..base]);
    FirstUnknownFirst(calls, p.tools);
    forall i: nat | i < want ensures KnowsTool(p.tools, calls[i].id) {
      KnownIn(cfg, p, base, calls, i);
      if !KnowsTool(p.tools[..base], calls[i].id) {
        var j := FreshComplete(calls, p.tools[..base], i);
      }
    }
    if n < |todo| {
      KnownIn(cfg, p, base, calls, want);
      assert forall j | 0 <= j < n :: todo[j].0 < todo[n].0;
    }
  }

  /* ---------------------------------------------------------------- the tools of the open step */

  lemma {:induction false} StepToolsNone(tools: seq<ToolRecord>, key: StepKey)
    requires forall i | 0 <= i < |tools| :: tools[i].key != key
    ensures ToolsOfStep(tools, key) == []
  {
    if tools != [] {
      StepToolsNone(tools[..|tools| - 1], key);
    }
  }

  lemma {:induction false} StepToolsAre(tools: seq<ToolRecord>, key: StepKey, base: nat)
    requires base <= |tools|
    requires forall i | 0 <= i < base :: tools[i].key != key
    requires forall i | base <= i < |tools| :: tools[i].key == key
    ensures ToolsOfStep(tools, key) == tools[base..]
  {
    if base == |tools| {
      StepToolsNone(tools, key);
    } else {
      var front := tools[..|tools| - 1];
      StepToolsAre(front, key, base);
      assert tools[base..] == front[base..] + [tools[|tools| - 1]];
    }
  }

  lemma {:induction false} SortedStays(tools: seq<ToolRecord>)
    requires forall i, j | 0 <= i < j < |tools| :: tools[i].callIndex < tools[j].callIndex
    ensures SortByIndex(tools) == tools
  {
    if tools != [] {
      var front := tools[..|tools| - 1];
      SortedStays(front);
      assert front + [tools[|tools| - 1]] == tools;
    }
  }

  /** The requested tools of a response carry increasing call indexes. */
  lemma {:induction false} IndexesIncrease(cfg: Config, p: RunProjection, base: nat, calls: seq<ToolCall>)
    requires base <= |p.tools| && RequestsOk(cfg, p, base, calls)
    ensures forall i, j | base <= i < j < |p.tools| :: p.tools[i].callIndex < p.tools[j].callIndex
  {
    var todo := FreshCalls(calls, p.tools[..base]);
    FreshCallsAre(calls, p.tools[..base]);
    forall i, j | base <= i < j < |p.tools| ensures p.tools[i].callIndex < p.tools[j].callIndex {
      assert Records(cfg, p.tools[base + (i - base)], todo[i - base]);
      assert Records(cfg, p.tools[base + (j - base)], todo[j - base]);
    }
  }

  lemma {:induction false} UnfinishedFrom(tools: seq<ToolRecord>, base: nat, cursor: nat)
    requires base <= cursor <= |tools|
    requires forall i | 0 <= i < cursor :: tools[i].IsDone()
    requires cursor < |tools| ==> !tools[cursor].IsDone()
    ensures FirstUnfinished(tools[base..]) == cursor - base
  {
    var mine := tools[base..];
    FirstUnfinishedFirst(mine);
    assert forall k | 0 <= k < |mine| :: mine[k] == tools[base + k];
  }

  /** In an open step the sorted tools are those from `base` on, and the first unfinished one is at the cursor. */
  lemma {:induction false} ToolsInOrder(cfg: Config, p: RunProjection, base: nat, cursor: nat)
    requires ToolsOk(cfg, p, base, cursor) && p.HasOpenStep() && p.CurrentAssistant().Some?
    ensures SortByIndex(ToolsOfStep(p.tools, p.OpenKey())) == p.tools[base..]
    ensures FirstUnfinished(p.tools[base..]) == cursor - base
  {
    hide RequestsOk, UniqueTools, AllRequested;
    StepToolsAre(p.tools, p.OpenKey(), base);
    IndexesIncrease(cfg, p, base, p.CurrentAssistant().value.toolCalls);
    SortedStays(p.tools[base..]);
    UnfinishedFrom(p.tools, base, cursor);
  }

  /** What the driver does inside an open step with an answered, affordable response. */
  lemma {:induction false} NextToolAction(cfg: Config, log: seq<Event>, p: RunProjection, base: nat, cursor: nat)
    requires ToolsOk(cfg, p, base, cursor) && p.HasOpenStep() && p.CurrentAssistant().Some?
    ensures var calls := p.CurrentAssistant().value.toolCalls;
            var todo := FreshCalls(calls, p.tools[..base]);
            var a := ToolAction(cfg, log, p, calls);
            var n := |p.tools| - base;
            if !AllRequested(p, base) then n < |todo| && a == Write([RequestEvent(cfg, todo[n].1, todo[n].0)])
            else if cursor == |p.tools| then a == Write([StepCompleted(p.turn, p.step.value)])
            else if p.tools[cursor].state.Started? then
              a == if p.tools[cursor].effect.Mutate? then Write([RunFailedUncertain(UncertainMutation(p.tools[cursor].callId))])
                   else RunTool(CallOf(p.tools[cursor]))
            else a == LaunchAction(cfg, log, CallOf(p.tools[cursor]), p.tools[cursor].effect)
  {
    hide LaunchAction, RunPreflight, KnowsTool, FindAssistant, SortByIndex, ToolsOfStep, FirstUnknown, FirstUnfinished, UniqueTools, RequestEvent,
         FreshCalls, Records, IndexOfTool, StepsOfTurn;
    var calls := p.CurrentAssistant().value.toolCalls;
    NextRequest(cfg, p, base, calls);
    FreshCallsAre(calls, p.tools[..base]);
    if AllRequested(p, base) {
      ToolsInOrder(cfg, p, base, cursor);
    }
  }
}
