/** What trimming promises: the greatest selection, kept structure, a valid snapshot, a well-formed request. */
module TrimmingTheorems {
  import opened Events
  import opened Projection
  import opened Conversation
  import opened ContextEngine

  /* ---------------------------------------------------------------- optimality */

  /** A selection the policy could make: every pinned group; otherwise only complete groups that repeat no kept tool
      results; all within the budget. */
  predicate Feasible(est: Estimator, s: Snapshot, groups: seq<Group>, budget: int, chosen: seq<bool>)
    requires est.Valid() && |chosen| == |groups| && InRange(s.messages, groups) && |s.sources| == |s.messages|
  {
    && Admissible(s, groups, chosen)
    && Tokens(est, s.messages, groups, chosen) <= budget
  }

  predicate Admissible(s: Snapshot, groups: seq<Group>, chosen: seq<bool>)
    requires |chosen| == |groups| && InRange(s.messages, groups) && |s.sources| == |s.messages|
  {
    && (forall k | 0 <= k < |groups| && HoldsPin(s, groups[k]) :: chosen[k])
    && (forall k | 0 <= k < |groups| && chosen[k] && !HoldsPin(s, groups[k]) ::
          groups[k].complete && !Repeats(s.messages, groups, chosen, k))
  }

  /** At the newest group where they differ, `a` keeps it and `b` does not. */
  predicate GreaterAt(a: seq<bool>, b: seq<bool>, i: nat)
    requires |a| == |b|
  {
    i < |a| && a[i] && !b[i] && forall k | i < k < |a| :: a[k] == b[k]
  }

  predicate Within(a: seq<bool>, b: seq<bool>)
    requires |a| == |b|
  {
    forall k | 0 <= k < |a| && a[k] :: b[k]
  }

  lemma {:induction false} CostGrows(est: Estimator, messages: seq<Message>, groups: seq<Group>, a: seq<bool>, b: seq<bool>, i: nat)
    requires est.Valid() && |a| == |b| == |groups| && InRange(messages, groups) && i <= |groups| && Within(a, b)
    ensures est.Cost(Selected(messages, groups, a, i)) <= est.Cost(Selected(messages, groups, b, i))
    decreases |groups| - i
  {
    if i < |groups| {
      CostGrows(est, messages, groups, a, b, i + 1);
      var block := messages[groups[i].start..groups[i].stop];
      est.CostOfConcat(block, Selected(messages, groups, a, i + 1));
      est.CostOfConcat(block, Selected(messages, groups, b, i + 1));
      est.CostOfConcat([], Selected(messages, groups, a, i + 1));
      est.CostOfConcat([], Selected(messages, groups, b, i + 1));
    }
  }

  /** What the greedy choice has come to at index `i`. */
  predicate Stage(s: Snapshot, groups: seq<Group>, chosen: seq<bool>, i: nat)
    requires |chosen| == |groups| && InRange(s.messages, groups) && |s.sources| == |s.messages|
  {
    && Admissible(s, groups, chosen)
    && forall k | 0 <= k < i && k < |groups| :: chosen[k] == HoldsPin(s, groups[k])
  }

  lemma {:induction false} TakingIsAdmissible(est: Estimator, s: Snapshot, groups: seq<Group>, budget: int, chosen: seq<bool>, g: nat)
    requires est.Valid() && |chosen| == |groups| && g < |groups| && InRange(s.messages, groups) && |s.sources| == |s.messages|
    requires Stage(s, groups, chosen, g + 1) && Takes(est, s.messages, groups, budget, chosen, g)
    ensures Stage(s, groups, chosen[g := true], g)
  {
    hide Tokens, GroupSignature, HoldsPin;
    var after := chosen[g := true];
    forall k | 0 <= k < |groups| && after[k] && !HoldsPin(s, groups[k])
      ensures groups[k].complete && !Repeats(s.messages, groups, after, k)
    {
      if k != g {
        assert !Repeats(s.messages, groups, chosen, k);
      }
    }
  }

  /** A feasible selection that contains all that is chosen so far may contain one more group only if the policy takes it. */
  lemma {:induction false} FeasibleTakes(est: Estimator, s: Snapshot, groups: seq<Group>, budget: int, chosen: seq<bool>, other: seq<bool>, g: nat)
    requires est.Valid() && |chosen| == |other| == |groups| && g < |groups| && InRange(s.messages, groups) && |s.sources| == |s.messages|
    requires Feasible(est, s, groups, budget, other) && Within(chosen, other) && other[g] && !chosen[g] && !HoldsPin(s, groups[g])
    ensures Takes(est, s.messages, groups, budget, chosen, g)
  {
    hide GroupSignature, HoldsPin, Selected;
    CostGrows(est, s.messages, groups, chosen[g := true], other, 0);
    assert !Repeats(s.messages, groups, other, g);
  }

  lemma {:induction false} GreedyKeeps(est: Estimator, messages: seq<Message>, groups: seq<Group>, budget: int, chosen: seq<bool>, i: nat)
    requires est.Valid() && |chosen| == |groups| && i <= |groups| && InRange(messages, groups)
    ensures forall k | i <= k < |groups| :: Greedy(est, messages, groups, budget, chosen, i)[k] == chosen[k]
    decreases i
  {
    hide Takes;
    if i > 0 {
      GreedyKeeps(est, messages, groups, budget, chosen[i - 1 := true], i - 1);
      GreedyKeeps(est, messages, groups, budget, chosen, i - 1);
    }
  }

  lemma {:induction false} GreedyFeasible(est: Estimator, s: Snapshot, groups: seq<Group>, budget: int, chosen: seq<bool>, i: nat)
    requires est.Valid() && |chosen| == |groups| && i <= |groups| && InRange(s.messages, groups) && |s.sources| == |s.messages|
    requires Stage(s, groups, chosen, i) && Tokens(est, s.messages, groups, chosen) <= budget
    ensures Feasible(est, s, groups, budget, Greedy(est, s.messages, groups, budget, chosen, i))
    decreases i
  {
    hide Tokens, GroupSignature, HoldsPin, Repeats;
    if i > 0 {
      if Takes(est, s.messages, groups, budget, chosen, i - 1) {
        TakingIsAdmissible(est, s, groups, budget, chosen, i - 1);
        GreedyFeasible(est, s, groups, budget, chosen[i - 1 := true], i - 1);
      } else {
        GreedyFeasible(est, s, groups, budget, chosen, i - 1);
      }
    }
  }

  lemma {:induction false} GreedyBeats(est: Estimator, s: Snapshot, groups: seq<Group>, budget: int, chosen: seq<bool>, other: seq<bool>, i: nat)
    returns (at: nat)
    requires est.Valid() && |chosen| == |other| == |groups| && i <= |groups| && InRange(s.messages, groups) && |s.sources| == |s.messages|
    requires Stage(s, groups, chosen, i) && Feasible(est, s, groups, budget, other)
    requires forall k | i <= k < |groups| :: chosen[k] == other[k]
    ensures var r := Greedy(est, s.messages, groups, budget, chosen, i); r == other || GreaterAt(r, other, at)
    decreases i
  {
    hide Tokens, GroupSignature, HoldsPin, Repeats, Takes;
    if i == 0 {
      at := 0;
    } else if Takes(est, s.messages, groups, budget, chosen, i - 1) {
      TakingIsAdmissible(est, s, groups, budget, chosen, i - 1);
      if other[i - 1] {
        at := GreedyBeats(est, s, groups, budget, chosen[i - 1 := true], other, i - 1);
      } else {
        at := i - 1;
        GreedyKeeps(est, s.messages, groups, budget, chosen[i - 1 := true], i - 1);
      }
    } else {
      if other[i - 1] && !chosen[i - 1] {
        FeasibleTakes(est, s, groups, budget, chosen, other, i - 1);
      }
      at := GreedyBeats(est, s, groups, budget, chosen, other, i - 1);
    }
  }

  /** The choice is feasible and beats every other feasible selection. */
  lemma {:induction false} GreatestFeasible(est: Estimator, s: Snapshot, budget: int, other: seq<bool>)
    requires est.Valid() && s.Valid() && 1 <= budget < s.estimatedTokens
    requires Groups(s.messages, 0).Some? && InRange(s.messages, Groups(s.messages, 0).value)
    requires Tokens(est, s.messages, Groups(s.messages, 0).value, Mandatory(s, Groups(s.messages, 0).value, 0)) <= budget
    ensures var groups := Groups(s.messages, 0).value;
            var chosen := Choice(est, s, groups, budget);
            && Trim(est, s, budget) == Constructed(Cut(est, s, groups, chosen))
            && Feasible(est, s, groups, budget, chosen)
            && (|other| == |groups| && Feasible(est, s, groups, budget, other) && other != chosen ==>
                  exists i :: 0 <= i < |groups| && GreaterAt(chosen, other, i))
  {
    hide Tokens, GroupSignature, HoldsPin, Repeats, Takes, Greedy, Mandatory, Cut, Groups, Constructed;
    var groups := Groups(s.messages, 0).value;
    var must := Mandatory(s, groups, 0);
    MandatoryStage(s, groups);
    GreedyFeasible(est, s, groups, budget, must, |groups|);
    if |other| == |groups| && Feasible(est, s, groups, budget, other) {
      var at := GreedyBeats(est, s, groups, budget, must, other, |groups|);
    }
  }

  lemma {:induction false} MandatoryStage(s: Snapshot, groups: seq<Group>)
    requires InRange(s.messages, groups) && |s.sources| == |s.messages|
    ensures Stage(s, groups, Mandatory(s, groups, 0), |groups|)
  {
    hide HoldsPin, Repeats;
    forall k | 0 <= k < |groups| ensures Mandatory(s, groups, 0)[k] == HoldsPin(s, groups[k]) {
      MandatoryAt(s, groups, 0, k);
    }
  }

  /* ---------------------------------------------------------------- structure */

  /** The marked groups from index `i` on, renumbered from `offset`. */
  function Renumbered(groups: seq<Group>, chosen: seq<bool>, i: nat, offset: nat): seq<Group>
    requires |chosen| == |groups| && i <= |groups| && forall k | 0 <= k < |groups| :: groups[k].start < groups[k].stop
    decreases |groups| - i
  {
    if i == |groups| then []
    else if chosen[i] then
      var size := groups[i].stop - groups[i].start;
      [Group(offset, offset + size, groups[i].complete)] + Renumbered(groups, chosen, i + 1, offset + size)
    else Renumbered(groups, chosen, i + 1, offset)
  }

  /** What a partition says of each of its groups. */
  predicate IsBlock(messages: seq<Message>, g: Group)
    requires g.start < g.stop <= |messages|
  {
    && !HasToolRole(messages[g.start])
    && FirstBlock(messages[g.start..g.stop]) == g.stop - g.start
    && g.complete == CompleteBlock(messages[g.start..g.stop])
  }

  lemma {:induction false} PartitionBlocks(messages: seq<Message>, groups: seq<Group>, start: nat)
    requires Partition(messages, groups, start) && InRange(messages, groups)
    ensures forall k | 0 <= k < |groups| :: IsBlock(messages, groups[k])
    ensures forall k, l | 0 <= k < l < |groups| :: groups[k].stop <= groups[l].start
    decreases |groups|
  {
    hide CompleteBlock, FirstBlock, HasToolRole;
    if groups != [] {
      var rest := groups[1..];
      PartitionInRange(messages, rest, groups[0].stop);
      PartitionBlocks(messages, rest, groups[0].stop);
      assert forall k | 1 <= k < |groups| :: groups[k] == rest[k - 1];
    }
  }

  lemma {:induction false} SelectedHead(messages: seq<Message>, groups: seq<Group>, chosen: seq<bool>, i: nat)
    requires |chosen| == |groups| && i <= |groups| && InRange(messages, groups)
    requires forall k | 0 <= k < |groups| :: IsBlock(messages, groups[k])
    ensures var out := Selected(messages, groups, chosen, i); out != [] ==> !HasToolRole(out[0])
    decreases |groups| - i
  {
    hide CompleteBlock, FirstBlock, HasToolRole;
    if i < |groups| {
      SelectedHead(messages, groups, chosen, i + 1);
    }
  }

  lemma {:induction false} GroupsOfBlock(block: seq<Message>, rest: seq<Message>, offset: nat)
    requires block != [] && !HasToolRole(block[0]) && FirstBlock(block) == |block|
    requires rest != [] ==> !HasToolRole(rest[0])
    ensures Groups(block + rest, offset) == Prepend([Group(offset, offset + |block|, CompleteBlock(block))], Groups(rest, offset + |block|))
  {
    hide FirstBlock, CompleteBlock;
    BlockAlone(block, rest);
    assert (block + rest)[|block|..] == rest;
    assert (block + rest)[..|block|] == block;
  }

  /** Grouping the kept messages gives back exactly the kept groups: none is split, merged or orphaned. */
  lemma {:induction false} Regroup(messages: seq<Message>, groups: seq<Group>, chosen: seq<bool>, i: nat, offset: nat)
    requires |chosen| == |groups| && i <= |groups| && InRange(messages, groups)
    requires forall k | 0 <= k < |groups| :: IsBlock(messages, groups[k])
    ensures Groups(Selected(messages, groups, chosen, i), offset) == Some(Renumbered(groups, chosen, i, offset))
    decreases |groups| - i
  {
    hide CompleteBlock, FirstBlock, HasToolRole, Groups;
    if i == |groups| {
      EmptyGroups(offset);
    } else if chosen[i] {
      var block := messages[groups[i].start..groups[i].stop];
      var rest := Selected(messages, groups, chosen, i + 1);
      SelectedHead(messages, groups, chosen, i + 1);
      assert block[0] == messages[groups[i].start];
      GroupsOfBlock(block, rest, offset);
      Regroup(messages, groups, chosen, i + 1, offset + |block|);
    } else {
      assert [] + Selected(messages, groups, chosen, i + 1) == Selected(messages, groups, chosen, i + 1);
      Regroup(messages, groups, chosen, i + 1, offset);
    }
  }

  lemma {:induction false} EmptyGroups(offset: nat)
    ensures Groups([], offset) == Some([])
  {
  }

  /** The kept messages fit the budget and regroup into the kept groups, so trimming them again changes nothing. */
  lemma {:induction false} TrimmingKeepsGroups(est: Estimator, s: Snapshot, budget: int)
    requires est.Valid() && s.Valid() && s.estimatedTokens > budget && Trim(est, s, budget).Trimmed?
    ensures Groups(s.messages, 0).Some? && InRange(s.messages, Groups(s.messages, 0).value)
    ensures var groups := Groups(s.messages, 0).value;
            var out := Trim(est, s, budget).snapshot;
            && Groups(out.messages, 0) == Some(Renumbered(groups, Choice(est, s, groups, budget), 0, 0))
            && out.Valid() && out.estimatedTokens == est.EstimateMessages(out.messages) <= budget
            && Trim(est, out, budget) == Trimmed(out)
  {
    hide Groups, Greedy, Mandatory, Renumbered, Selected, SelectedSources;
    var groups := Groups(s.messages, 0).value;
    GroupsFit(s.messages);
    PartitionBlocks(s.messages, groups, 0);
    MandatoryStage(s, groups);
    GreedyFeasible(est, s, groups, budget, Mandatory(s, groups, 0), |groups|);
    Regroup(s.messages, groups, Choice(est, s, groups, budget), 0, 0);
  }

  lemma {:induction false} SourcesAlign(s: Snapshot, groups: seq<Group>, chosen: seq<bool>, i: nat)
    requires |chosen| == |groups| && i <= |groups| && InRange(s.messages, groups) && |s.sources| == |s.messages|
    ensures |SelectedSources(s.sources, groups, chosen, i)| == |Selected(s.messages, groups, chosen, i)|
    decreases |groups| - i
  {
    if i < |groups| {
      SourcesAlign(s, groups, chosen, i + 1);
    }
  }

  /* ---------------------------------------------------------------- groups, read off the messages */

  predicate IsCallOf(m: Message, id: string) {
    m.FromAssistant? && exists c | 0 <= c < |m.toolCalls| :: m.toolCalls[c].id == id
  }

  /** A group is one message that has no tool role, or a message with calls and the results of its calls that follow it. */
  predicate IsRound(messages: seq<Message>, g: Group) {
    && g.start < g.stop <= |messages| && !messages[g.start].ToolResult?
    && (messages[g.start].Plain? ==> !messages[g.start].role.Tool?)
    && (forall k | g.start < k < g.stop :: messages[k].ToolResult? && IsCallOf(messages[g.start], messages[k].callId))
  }

  /** No further result of its calls follows it. */
  predicate EndsRound(messages: seq<Message>, g: Group) {
    g.start < g.stop < |messages| ==> !(messages[g.stop].ToolResult? && IsCallOf(messages[g.start], messages[g.stop].callId))
  }

  /** Every call of the group has a result in it. */
  predicate AllAnswered(messages: seq<Message>, g: Group)
    requires g.start < g.stop <= |messages|
  {
    messages[g.start].FromAssistant? ==>
      forall c | 0 <= c < |messages[g.start].toolCalls| ::
        IsAnswered(messages, g, messages[g.start].toolCalls[c].id)
  }

  lemma {:induction false} CallIds(m: Message, id: string)
    requires m.FromAssistant?
    ensures id in IdsOf(m.toolCalls) <==> IsCallOf(m, id)
  {
  }

  lemma {:induction false} BlockIsRound(messages: seq<Message>, g: Group)
    requires g.start < g.stop <= |messages| && IsBlock(messages, g)
    ensures IsRound(messages, g) && (g.complete <==> AllAnswered(messages, g))
  {
    hide IdsOf, ResultIds;
    var block := messages[g.start..g.stop];
    if OpensGroup(messages[g.start]) {
      var ids := IdsOf(messages[g.start].toolCalls);
      LeadingResultsAre(block[1..], ids);
      forall k | g.start < k < g.stop ensures messages[k].ToolResult? && IsCallOf(messages[g.start], messages[k].callId) {
        assert block[1..][k - g.start - 1] == messages[k];
        CallIds(messages[g.start], messages[k].callId);
      }
      AnsweredExactly(messages, g);
    }
  }

  /** The call has a result in the group. */
  predicate IsAnswered(messages: seq<Message>, g: Group, id: string)
    requires g.start < g.stop <= |messages|
  {
    exists k | g.start < k < g.stop :: messages[k].ToolResult? && messages[k].callId == id
  }

  lemma {:induction false} AnsweredResult(messages: seq<Message>, g: Group, id: string)
    requires g.start < g.stop <= |messages|
    ensures IsAnswered(messages, g, id) <==> id in ResultIds(messages[g.start..g.stop][1..])
  {
    var results := messages[g.start..g.stop][1..];
    if IsAnswered(messages, g, id) {
      var k :| g.start < k < g.stop && messages[k].ToolResult? && messages[k].callId == id;
      assert results[k - g.start - 1] == messages[k];
    }
    if id in ResultIds(results) {
      var k :| 0 <= k < |results| && results[k].ToolResult? && results[k].callId == id;
      assert messages[g.start + 1 + k] == results[k];
    }
  }

  lemma {:induction false} AnsweredExactly(messages: seq<Message>, g: Group)
    requires IsRound(messages, g) && OpensGroup(messages[g.start])
    ensures ResultIds(messages[g.start..g.stop][1..]) == IdsOf(messages[g.start].toolCalls) <==> AllAnswered(messages, g)
  {
    hide ResultIds, IsAnswered, IdsOf;
    var m := messages[g.start];
    var ids, results := IdsOf(m.toolCalls), ResultIds(messages[g.start..g.stop][1..]);
    forall id ensures id in results <==> IsAnswered(messages, g, id) {
      AnsweredResult(messages, g, id);
    }
    forall id ensures id in ids <==> IsCallOf(m, id) {
      CallIds(m, id);
    }
    forall id | IsAnswered(messages, g, id) ensures id in ids {
      AnsweredIsCall(messages, g, id);
    }
    assert forall c | 0 <= c < |m.toolCalls| :: IsCallOf(m, m.toolCalls[c].id);
    if AllAnswered(messages, g) {
      assert forall id | id in ids :: id in results;
      assert ids == results;
    }
  }

  lemma {:induction false} AnsweredIsCall(messages: seq<Message>, g: Group, id: string)
    requires IsRound(messages, g) && IsAnswered(messages, g, id)
    ensures IsCallOf(messages[g.start], id)
  {
    hide IsCallOf;
  }

  /** The groups cover the messages without gaps; each is a round as long as can be, and complete if and only if all of its
      calls are answered in it. */
  lemma {:induction false} GroupsExactly(messages: seq<Message>)
    requires Groups(messages, 0).Some?
    ensures var groups := Groups(messages, 0).value;
            && (groups == [] <==> messages == [])
            && (groups != [] ==> groups[0].start == 0 && groups[|groups| - 1].stop == |messages|)
            && (forall k | 0 <= k < |groups| - 1 :: groups[k].stop == groups[k + 1].start)
            && (forall k | 0 <= k < |groups| ::
                  && IsRound(messages, groups[k]) && EndsRound(messages, groups[k])
                  && (groups[k].complete <==> AllAnswered(messages, groups[k])))
  {
    hide Groups, IsRound, EndsRound, AllAnswered, Partition;
    var groups := Groups(messages, 0).value;
    GroupsFit(messages);
    PartitionBlocks(messages, groups, 0);
    PartitionCovers(messages, groups, 0);
    forall k | 0 <= k < |groups| ensures IsRound(messages, groups[k]) && EndsRound(messages, groups[k]) && (groups[k].complete <==> AllAnswered(messages, groups[k])) {
      BlockIsRound(messages, groups[k]);
      if k < |groups| - 1 {
        RoundEnds(messages, groups[k], groups[k + 1]);
      } else {
        LastRoundEnds(messages, groups[k]);
      }
    }
  }

  lemma {:induction false} RoundEnds(messages: seq<Message>, g: Group, h: Group)
    requires g.start < g.stop == h.start < h.stop <= |messages| && IsBlock(messages, h)
    ensures EndsRound(messages, g)
  {
    hide FirstBlock, CompleteBlock;
  }

  lemma {:induction false} LastRoundEnds(messages: seq<Message>, g: Group)
    requires g.stop == |messages|
    ensures EndsRound(messages, g)
  {
  }

  lemma {:induction false} PartitionCovers(messages: seq<Message>, groups: seq<Group>, start: nat)
    requires Partition(messages, groups, start)
    ensures groups == [] <==> start == |messages|
    ensures groups != [] ==> groups[0].start == start && groups[|groups| - 1].stop == |messages|
    ensures forall k | 0 <= k < |groups| - 1 :: groups[k].stop == groups[k + 1].start
    decreases |groups|
  {
    hide CompleteBlock, FirstBlock, HasToolRole;
    if groups != [] {
      PartitionCovers(messages, groups[1..], groups[0].stop);
      assert forall k | 1 <= k < |groups| :: groups[k] == groups[1..][k - 1];
    }
  }

  /* ---------------------------------------------------------------- orphans, read off the messages */

  /** The message at `j` is one of the results of calls of the message at `i` that directly follow it. */
  predicate Attaches(messages: seq<Message>, i: nat, j: nat) {
    && i < j < |messages| && messages[i].FromAssistant?
    && forall k | i < k <= j :: messages[k].ToolResult? && IsCallOf(messages[i], messages[k].callId)
  }

  /** A message with the tool role that belongs to no calls. */
  ghost predicate IsOrphan(messages: seq<Message>, j: nat) {
    j < |messages| && HasToolRole(messages[j]) && forall i: nat :: !Attaches(messages, i, j)
  }

  ghost predicate Unattached(messages: seq<Message>, start: nat) {
    forall i: nat :: !Attaches(messages, i, start)
  }

  lemma {:induction false} NoCallOf(m: Message)
    ensures !OpensGroup(m) ==> forall id :: !IsCallOf(m, id)
  {
  }

  /** Nothing before `stop` attaches it when results lead from `start` to it and it is no result of the calls there. */
  lemma {:induction false} NotAttached(messages: seq<Message>, start: nat, stop: nat, i: nat)
    requires start < stop <= |messages| && !HasToolRole(messages[start])
    requires forall k | start < k < stop :: messages[k].ToolResult?
    requires stop < |messages| && messages[stop].ToolResult? ==> !IsCallOf(messages[start], messages[stop].callId)
    ensures !Attaches(messages, i, stop)
  {
    hide IsCallOf;
    if i < start < |messages| {
      assert !messages[start].ToolResult?;
    }
  }

  /** Behind a group nothing belongs to the messages before. */
  lemma {:induction false} UnattachedNext(messages: seq<Message>, start: nat)
    requires start < |messages| && !HasToolRole(messages[start])
    ensures Unattached(messages, start + FirstBlock(messages[start..]))
  {
    hide IdsOf, IsCallOf, Attaches;
    var tail := messages[start..];
    var stop := start + FirstBlock(tail);
    NoCallOf(messages[start]);
    if OpensGroup(messages[start]) {
      LeadingResultsAre(tail[1..], IdsOf(messages[start].toolCalls));
      forall k | start < k < stop ensures messages[k].ToolResult? {
        assert tail[1..][k - start - 1] == messages[k];
      }
      if stop < |messages| && messages[stop].ToolResult? {
        assert tail[1..][stop - start - 1] == messages[stop];
        CallIds(messages[start], messages[stop].callId);
      }
    }
    forall i: nat ensures !Attaches(messages, i, stop) {
      NotAttached(messages, start, stop, i);
    }
  }

  lemma {:induction false} OrphanFound(messages: seq<Message>, start: nat) returns (j: nat)
    requires start <= |messages| && Unattached(messages, start) && Groups(messages[start..], start).None?
    ensures IsOrphan(messages, j)
    decreases |messages| - start
  {
    hide FirstBlock, CompleteBlock, Attaches;
    j := start;
    if start == |messages| {
      NoGroups(messages);
      assert false;
    } else if !HasToolRole(messages[start]) {
      var n := FirstBlock(messages[start..]);
      GroupsOpen(messages, start, n);
      UnattachedNext(messages, start);
      j := OrphanFound(messages, start + n);
    }
  }

  /** The group that a position lies in. */
  lemma {:induction false} GroupAround(messages: seq<Message>, groups: seq<Group>, start: nat, j: nat) returns (k: nat)
    requires Partition(messages, groups, start) && start <= j < |messages|
    ensures k < |groups| && groups[k].start <= j < groups[k].stop
    decreases |groups|
  {
    hide FirstBlock, CompleteBlock;
    if j < groups[0].stop {
      k := 0;
    } else {
      k := GroupAround(messages, groups[1..], groups[0].stop, j);
      k := k + 1;
    }
  }

  /** Grouping reports an orphan if and only if a message with the tool role does not directly follow the message that called for
      it, other results of the same calls aside. */
  lemma {:induction false} OrphanExactly(messages: seq<Message>)
    ensures Groups(messages, 0).None? <==> exists j: nat :: IsOrphan(messages, j)
  {
    hide Groups, EndsRound, AllAnswered, Partition;
    assert messages[0..] == messages;
    if Groups(messages, 0).None? {
      var j := OrphanFound(messages, 0);
    } else {
      GroupsExactly(messages);
      GroupsFit(messages);
      forall j: nat | j < |messages| && HasToolRole(messages[j]) ensures exists i: nat :: Attaches(messages, i, j) {
        var groups := Groups(messages, 0).value;
        var k := GroupAround(messages, groups, 0, j);
        assert IsRound(messages, groups[k]);
        assert Attaches(messages, groups[k].start, j);
      }
    }
  }

  predicate HasPin(s: Snapshot) {
    exists k | 0 <= k < |s.sources| :: s.sources[k] in s.pinned
  }

  /** Some group must stay if and only if some message is pinned. */
  lemma {:induction false} MustStay(s: Snapshot, groups: seq<Group>)
    requires Partition(s.messages, groups, 0) && InRange(s.messages, groups) && |s.sources| == |s.messages|
    ensures true in Mandatory(s, groups, 0) <==> HasPin(s)
  {
    hide Mandatory, Partition;
    var must := Mandatory(s, groups, 0);
    if true in must {
      var k :| 0 <= k < |must| && must[k];
      MandatoryAt(s, groups, 0, k);
    }
    if HasPin(s) {
      var j :| 0 <= j < |s.sources| && s.sources[j] in s.pinned;
      var k := GroupAround(s.messages, groups, 0, j);
      MandatoryAt(s, groups, 0, k);
      assert must[k];
    }
  }

  /** What trimming answers before any group is weighed: budgets below one and orphans are refused, a context that fits is left
      alone, and when what must stay is too large the error says whether a message is pinned. */
  lemma {:induction false} TrimmingRefuses(est: Estimator, s: Snapshot, budget: int)
    requires est.Valid() && s.Valid()
    ensures Trim(est, s, budget) == InvalidBudget <==> budget < 1
    ensures 1 <= budget && s.estimatedTokens <= budget ==> Trim(est, s, budget) == Trimmed(s)
    ensures Trim(est, s, budget) == OrphanResult <==> 1 <= budget < s.estimatedTokens && exists j: nat :: IsOrphan(s.messages, j)
    ensures Trim(est, s, budget).PinnedContextOverflow? ==> HasPin(s)
    ensures Trim(est, s, budget).ContextBudgetOverflow? ==> !HasPin(s)
  {
    hide Groups, Tokens, Greedy, IsOrphan, Cut, Partition, Mandatory, HasPin;
    OrphanExactly(s.messages);
    if Groups(s.messages, 0).Some? {
      GroupsFit(s.messages);
      MustStay(s, Groups(s.messages, 0).value);
    }
  }

  /* ---------------------------------------------------------------- repeated results, read off the messages */

  /** The k-th result of a group, counted from 0: the message after the first one at that distance. */
  function ResultOf(messages: seq<Message>, g: Group, k: nat): Message
    requires g.start + 1 + k < |messages|
  {
    messages[g.start + 1 + k]
  }

  predicate SameResult(m: Message, n: Message) {
    m.ToolResult? && n.ToolResult? && m.name == n.name && m.output == n.output
  }

  /** The same results: equally many, and each under the same name and with the same output. */
  predicate SameResults(messages: seq<Message>, g: Group, h: Group) {
    && g.start < g.stop <= |messages| && h.start < h.stop <= |messages| && g.stop - g.start == h.stop - h.start
    && forall k | 0 <= k < g.stop - g.start - 1 :: SameResult(ResultOf(messages, g, k), ResultOf(messages, h, k))
  }

  lemma {:induction false} SignatureAt(messages: seq<Message>)
    requires forall k | 0 <= k < |messages| :: messages[k].ToolResult?
    ensures |Signature(messages)| == |messages|
    ensures forall k | 0 <= k < |messages| :: Signature(messages)[k] == (messages[k].name, messages[k].output)
  {
    if messages != [] {
      SignatureAt(messages[1..]);
      assert forall k | 1 <= k < |messages| :: messages[k] == messages[1..][k - 1];
    }
  }

  lemma {:induction false} SignatureOfRound(messages: seq<Message>, g: Group)
    requires IsRound(messages, g)
    ensures |GroupSignature(messages, g)| == g.stop - g.start - 1
    ensures forall k | 0 <= k < g.stop - g.start - 1 ::
              ResultOf(messages, g, k).ToolResult?
              && GroupSignature(messages, g)[k] == (ResultOf(messages, g, k).name, ResultOf(messages, g, k).output)
  {
    var block := messages[g.start..g.stop];
    var results := block[1..];
    forall k | 0 <= k < |results| ensures results[k] == ResultOf(messages, g, k) && results[k].ToolResult? {
    }
    SignatureAt(results);
    assert [] + Signature(results) == Signature(results);
  }

  /** Two groups have the same signature if and only if they have the same results. */
  lemma {:induction false} SignaturesAgree(messages: seq<Message>, g: Group, h: Group)
    requires IsRound(messages, g) && IsRound(messages, h)
    ensures GroupSignature(messages, g) == GroupSignature(messages, h) <==> SameResults(messages, g, h)
    ensures GroupSignature(messages, g) != [] <==> g.stop - g.start > 1
  {
    hide GroupSignature;
    SignatureOfRound(messages, g);
    SignatureOfRound(messages, h);
    var a, b := GroupSignature(messages, g), GroupSignature(messages, h);
    if a == b {
      forall k | 0 <= k < |a| ensures SameResult(ResultOf(messages, g, k), ResultOf(messages, h, k)) {
        assert a[k] == b[k];
      }
    }
    if SameResults(messages, g, h) {
      forall k | 0 <= k < |a| ensures a[k] == b[k] {
        assert SameResult(ResultOf(messages, g, k), ResultOf(messages, h, k));
      }
    }
  }

  /** Another kept group has the same results, and there are some. */
  predicate RepeatsResults(messages: seq<Message>, groups: seq<Group>, chosen: seq<bool>, g: nat)
    requires |chosen| == |groups| && g < |groups|
  {
    groups[g].stop - groups[g].start > 1 && exists k | 0 <= k < |groups| :: k != g && chosen[k] && SameResults(messages, groups[k], groups[g])
  }

  lemma {:induction false} RepeatsExactly(messages: seq<Message>, groups: seq<Group>, chosen: seq<bool>, g: nat)
    requires |chosen| == |groups| && g < |groups| && InRange(messages, groups)
    requires forall k | 0 <= k < |groups| :: IsRound(messages, groups[k])
    ensures Repeats(messages, groups, chosen, g) <==> RepeatsResults(messages, groups, chosen, g)
  {
    hide GroupSignature, SameResults, IsRound;
    forall k | 0 <= k < |groups|
      ensures GroupSignature(messages, groups[k]) == GroupSignature(messages, groups[g]) <==> SameResults(messages, groups[k], groups[g])
    {
      SignaturesAgree(messages, groups[k], groups[g]);
    }
    SignaturesAgree(messages, groups[g], groups[g]);
  }

  /** A selection that the policy may make, read off the messages: every group with a pin; of the others only groups whose calls
      are all answered and whose results no other kept group repeats; all within the budget. */
  predicate Selectable(est: Estimator, s: Snapshot, groups: seq<Group>, budget: int, chosen: seq<bool>)
    requires est.Valid() && |chosen| == |groups| && InRange(s.messages, groups) && |s.sources| == |s.messages|
  {
    && (forall k | 0 <= k < |groups| && HoldsPin(s, groups[k]) :: chosen[k])
    && (forall k | 0 <= k < |groups| && chosen[k] && !HoldsPin(s, groups[k]) ::
          AllAnswered(s.messages, groups[k]) && !RepeatsResults(s.messages, groups, chosen, k))
    && est.EstimateMessages(Selected(s.messages, groups, chosen, 0)) <= budget
  }

  lemma {:induction false} FeasibleExactly(est: Estimator, s: Snapshot, groups: seq<Group>, budget: int, chosen: seq<bool>)
    requires est.Valid() && |chosen| == |groups| && InRange(s.messages, groups) && |s.sources| == |s.messages|
    requires forall k | 0 <= k < |groups| :: IsRound(s.messages, groups[k]) && (groups[k].complete <==> AllAnswered(s.messages, groups[k]))
    ensures Feasible(est, s, groups, budget, chosen) <==> Selectable(est, s, groups, budget, chosen)
  {
    hide Repeats, RepeatsResults, IsRound, AllAnswered, HoldsPin, Selected;
    forall k | 0 <= k < |groups| ensures Repeats(s.messages, groups, chosen, k) <==> RepeatsResults(s.messages, groups, chosen, k) {
      RepeatsExactly(s.messages, groups, chosen, k);
    }
  }

  /** When trimming is needed and the pinned groups fit, the policy's choice is selectable and greater, newest first, than every
      other selectable one. */
  lemma {:induction false} TrimmingIsOptimal(est: Estimator, s: Snapshot, budget: int, other: seq<bool>)
    requires est.Valid() && s.Valid() && 1 <= budget < s.estimatedTokens
    requires Groups(s.messages, 0).Some? && InRange(s.messages, Groups(s.messages, 0).value)
    requires Tokens(est, s.messages, Groups(s.messages, 0).value, Mandatory(s, Groups(s.messages, 0).value, 0)) <= budget
    ensures var groups := Groups(s.messages, 0).value;
            var chosen := Choice(est, s, groups, budget);
            && Trim(est, s, budget) == Constructed(Cut(est, s, groups, chosen))
            && Selectable(est, s, groups, budget, chosen)
            && (|other| == |groups| && Selectable(est, s, groups, budget, other) && other != chosen ==>
                  exists i :: 0 <= i < |groups| && GreaterAt(chosen, other, i))
  {
    hide Tokens, GroupSignature, HoldsPin, Repeats, Takes, Greedy, Mandatory, Cut, Groups, Constructed, Selectable, Feasible, IsRound, AllAnswered,
         EndsRound;
    var groups := Groups(s.messages, 0).value;
    GroupsExactly(s.messages);
    GreatestFeasible(est, s, budget, other);
    FeasibleExactly(est, s, groups, budget, Choice(est, s, groups, budget));
    if |other| == |groups| {
      FeasibleExactly(est, s, groups, budget, other);
    }
  }

  /* ---------------------------------------------------------------- what is kept, read off the messages */

  /** Indexes of the messages in the marked groups from index `i` on. */
  function KeptIndexes(groups: seq<Group>, chosen: seq<bool>, i: nat): seq<nat>
    requires |chosen| == |groups| && i <= |groups| && forall k | 0 <= k < |groups| :: groups[k].start < groups[k].stop
    decreases |groups| - i
  {
    if i == |groups| then []
    else (if chosen[i] then Span(groups[i].start, groups[i].stop) else []) + KeptIndexes(groups, chosen, i + 1)
  }

  function Span(start: nat, stop: nat): (r: seq<nat>)
    requires start <= stop
    ensures |r| == stop - start && forall k | 0 <= k < |r| :: r[k] == start + k
  {
    seq(stop - start, k requires 0 <= k < stop - start => start + k)
  }

  lemma {:induction false} SpanHas(start: nat, stop: nat, n: nat)
    requires start <= stop
    ensures n in Span(start, stop) <==> start <= n < stop
  {
    if start <= n < stop {
      assert Span(start, stop)[n - start] == n;
    }
  }

  predicate InKeptGroup(groups: seq<Group>, chosen: seq<bool>, i: nat, n: nat)
    requires |chosen| == |groups|
  {
    exists k | i <= k < |groups| :: chosen[k] && groups[k].start <= n < groups[k].stop
  }

  predicate InSequence(groups: seq<Group>) {
    forall k, l | 0 <= k < l < |groups| :: groups[k].stop <= groups[l].start
  }

  lemma {:induction false} KeptMember(groups: seq<Group>, chosen: seq<bool>, i: nat, n: nat)
    requires |chosen| == |groups| && i <= |groups| && forall k | 0 <= k < |groups| :: groups[k].start < groups[k].stop
    ensures n in KeptIndexes(groups, chosen, i) <==> InKeptGroup(groups, chosen, i, n)
    decreases |groups| - i
  {
    if i < |groups| {
      KeptMember(groups, chosen, i + 1, n);
      SpanHas(groups[i].start, groups[i].stop, n);
      assert InKeptGroup(groups, chosen, i, n)
          <==> (chosen[i] && groups[i].start <= n < groups[i].stop) || InKeptGroup(groups, chosen, i + 1, n);
    }
  }

  predicate Ascending(a: seq<nat>) {
    forall j, k | 0 <= j < k < |a| :: a[j] < a[k]
  }

  lemma {:induction false} KeptIncrease(groups: seq<Group>, chosen: seq<bool>, i: nat)
    requires |chosen| == |groups| && i <= |groups| && (forall k | 0 <= k < |groups| :: groups[k].start < groups[k].stop) && InSequence(groups)
    ensures Ascending(KeptIndexes(groups, chosen, i))
    decreases |groups| - i
  {
    hide InKeptGroup;
    if i < |groups| {
      KeptIncrease(groups, chosen, i + 1);
      var rest := KeptIndexes(groups, chosen, i + 1);
      var here := if chosen[i] then Span(groups[i].start, groups[i].stop) else [];
      assert KeptIndexes(groups, chosen, i) == here + rest;
      forall k | 0 <= k < |rest| ensures groups[i].stop <= rest[k] {
        KeptMember(groups, chosen, i + 1, rest[k]);
        KeptBehind(groups, chosen, i, rest[k]);
      }
      Joined(here, rest, groups[i].stop);
    }
  }

  lemma {:induction false} Joined(a: seq<nat>, b: seq<nat>, bound: nat)
    requires Ascending(a) && Ascending(b)
    requires (forall j | 0 <= j < |a| :: a[j] < bound) && forall k | 0 <= k < |b| :: bound <= b[k]
    ensures Ascending(a + b)
  {
  }

  lemma {:induction false} KeptBehind(groups: seq<Group>, chosen: seq<bool>, i: nat, n: nat)
    requires |chosen| == |groups| && i < |groups| && InSequence(groups) && InKeptGroup(groups, chosen, i + 1, n)
    ensures groups[i].stop <= n
  {
  }

  lemma {:induction false} KeptAt(s: Snapshot, groups: seq<Group>, chosen: seq<bool>, i: nat)
    requires |chosen| == |groups| && i <= |groups| && InRange(s.messages, groups) && |s.sources| == |s.messages|
    ensures var at := KeptIndexes(groups, chosen, i);
            && |Selected(s.messages, groups, chosen, i)| == |SelectedSources(s.sources, groups, chosen, i)| == |at|
            && forall j | 0 <= j < |at| ::
                 && at[j] < |s.messages| && Selected(s.messages, groups, chosen, i)[j] == s.messages[at[j]]
                 && SelectedSources(s.sources, groups, chosen, i)[j] == s.sources[at[j]]
    decreases |groups| - i
  {
    if i < |groups| {
      KeptAt(s, groups, chosen, i + 1);
      var here := if chosen[i] then Span(groups[i].start, groups[i].stop) else [];
      var messages := if chosen[i] then s.messages[groups[i].start..groups[i].stop] else [];
      var sources := if chosen[i] then s.sources[groups[i].start..groups[i].stop] else [];
      assert |messages| == |sources| == |here|;
      assert forall j | 0 <= j < |here| :: here[j] < |s.messages| && messages[j] == s.messages[here[j]] && sources[j] == s.sources[here[j]];
    }
  }

  /** The kept messages, and likewise their sources, are those of the kept groups, in their order in the context. */
  lemma {:induction false} KeptExactly(s: Snapshot, groups: seq<Group>, chosen: seq<bool>)
    requires |chosen| == |groups| && InRange(s.messages, groups) && |s.sources| == |s.messages| && InSequence(groups)
    ensures var at := KeptIndexes(groups, chosen, 0);
            && Ascending(at) && (forall n: nat :: n in at <==> InKeptGroup(groups, chosen, 0, n))
            && |Selected(s.messages, groups, chosen, 0)| == |SelectedSources(s.sources, groups, chosen, 0)| == |at|
            && forall j | 0 <= j < |at| ::
                 && at[j] < |s.messages| && Selected(s.messages, groups, chosen, 0)[j] == s.messages[at[j]]
                 && SelectedSources(s.sources, groups, chosen, 0)[j] == s.sources[at[j]]
  {
    hide KeptIndexes, InKeptGroup, Selected, SelectedSources, InSequence;
    KeptIncrease(groups, chosen, 0);
    KeptAt(s, groups, chosen, 0);
    forall n: nat ensures n in KeptIndexes(groups, chosen, 0) <==> InKeptGroup(groups, chosen, 0, n) {
      KeptMember(groups, chosen, 0, n);
    }
  }

  /* ---------------------------------------------------------------- pins and the constructor's checks */

  predicate GroupsIn(groups: seq<Group>, size: nat) {
    forall k | 0 <= k < |groups| :: groups[k].start < groups[k].stop <= size
  }

  /** Every kept source is the source of a message in a kept group. */
  lemma {:induction false} KeptFrom(sources: seq<int>, groups: seq<Group>, chosen: seq<bool>, i: nat, a: nat) returns (k: nat, j: nat)
    requires |chosen| == |groups| && i <= |groups| && GroupsIn(groups, |sources|)
    requires a < |SelectedSources(sources, groups, chosen, i)|
    ensures i <= k < |groups| && groups[k].start <= j < groups[k].stop
    ensures sources[j] == SelectedSources(sources, groups, chosen, i)[a]
    decreases |groups| - i
  {
    var here := if chosen[i] then sources[groups[i].start..groups[i].stop] else [];
    if a < |here| {
      k, j := i, groups[i].start + a;
    } else {
      k, j := KeptFrom(sources, groups, chosen, i + 1, a - |here|);
    }
  }

  /** The source of every message in a kept group is kept. */
  lemma {:induction false} KeptSource(sources: seq<int>, groups: seq<Group>, chosen: seq<bool>, i: nat, k: nat, j: nat)
    requires |chosen| == |groups| && i <= k < |groups| && GroupsIn(groups, |sources|)
    requires chosen[k] && groups[k].start <= j < groups[k].stop
    ensures sources[j] in SelectedSources(sources, groups, chosen, i)
    decreases |groups| - i
  {
    if i == k {
      assert sources[groups[i].start..groups[i].stop][j - groups[i].start] == sources[j];
    } else {
      KeptSource(sources, groups, chosen, i + 1, k, j);
    }
  }

  lemma {:induction false} SourcesIncrease(sources: seq<int>, groups: seq<Group>, chosen: seq<bool>, i: nat)
    requires |chosen| == |groups| && i <= |groups| && Increasing(sources) && GroupsIn(groups, |sources|)
    requires forall k, l | 0 <= k < l < |groups| :: groups[k].stop <= groups[l].start
    ensures Increasing(SelectedSources(sources, groups, chosen, i))
    decreases |groups| - i
  {
    if i < |groups| {
      SourcesIncrease(sources, groups, chosen, i + 1);
      var here := if chosen[i] then sources[groups[i].start..groups[i].stop] else [];
      var rest := SelectedSources(sources, groups, chosen, i + 1);
      forall a, b | 0 <= a < |here| && 0 <= b < |rest| ensures here[a] < rest[b] {
        var k, j := KeptFrom(sources, groups, chosen, i + 1, b);
        assert here[a] == sources[groups[i].start + a];
      }
      IncreasingConcat(here, rest);
    }
  }

  lemma {:induction false} IncreasingConcat(a: seq<int>, b: seq<int>)
    requires Increasing(a) && Increasing(b) && forall i, j | 0 <= i < |a| && 0 <= j < |b| :: a[i] < b[j]
    ensures Increasing(a + b)
  {
  }

  /** Every pin survives trimming, with its reason. */
  lemma {:induction false} PinsSurvive(est: Estimator, s: Snapshot, budget: int)
    requires est.Valid() && s.Valid() && Trim(est, s, budget).Trimmed?
    ensures Trim(est, s, budget).snapshot.pinned == s.pinned
  {
    hide Greedy, Tokens, Mandatory, Selected, SelectedSources, Groups;
    if s.estimatedTokens > budget {
      var groups := Groups(s.messages, 0).value;
      GroupsFit(s.messages);
      var must := Mandatory(s, groups, 0);
      var chosen := Greedy(est, s.messages, groups, budget, must, |groups|);
      MandatoryStage(s, groups);
      GreedyFeasible(est, s, groups, budget, must, |groups|);
      forall p | p in s.pinned ensures p in SelectedSources(s.sources, groups, chosen, 0) {
        var j :| 0 <= j < |s.sources| && s.sources[j] == p;
        var k := GroupAt(s.messages, groups, 0, j);
        assert HoldsPin(s, groups[k]);
        KeptSource(s.sources, groups, chosen, 0, k, j);
      }
      assert Trim(est, s, budget).snapshot.pinned.Keys == s.pinned.Keys;
    }
  }

  /** Every message lies in some group. */
  lemma {:induction false} GroupAt(messages: seq<Message>, groups: seq<Group>, start: nat, j: nat) returns (k: nat)
    requires Partition(messages, groups, start) && start <= j < |messages|
    ensures k < |groups| && groups[k].start <= j < groups[k].stop
    decreases |groups|
  {
    hide CompleteBlock, FirstBlock, HasToolRole;
    if j < groups[0].stop {
      k := 0;
    } else {
      k := GroupAt(messages, groups[1..], groups[0].stop, j);
      k := k + 1;
    }
  }

  /* ---------------------------------------------------------------- when the result is rejected */

  /** What the constructor asks of the source sequences. */
  predicate InOrder(sources: seq<int>, lastSequence: int) {
    Increasing(sources) && forall i | 0 <= i < |sources| :: sources[i] <= lastSequence
  }

  /** The policy gets as far as building a new snapshot. */
  predicate Rebuilds(est: Estimator, s: Snapshot, budget: int)
    requires est.Valid() && s.Valid()
  {
    && 1 <= budget < s.estimatedTokens && Groups(s.messages, 0).Some?
    && (GroupsFit(s.messages);
        var groups := Groups(s.messages, 0).value;
        Tokens(est, s.messages, groups, Mandatory(s, groups, 0)) <= budget)
  }

  /** The sources of the messages that the policy keeps. */
  function KeptSources(est: Estimator, s: Snapshot, budget: int): seq<int>
    requires est.Valid() && s.Valid() && Groups(s.messages, 0).Some?
  {
    GroupsFit(s.messages);
    var groups := Groups(s.messages, 0).value;
    SelectedSources(s.sources, groups, Choice(est, s, groups, budget), 0)
  }

  /** Of all checks of the constructor, only those on the order of the source sequences can fail for a cut snapshot. */
  lemma {:induction false} CutIsValid(est: Estimator, s: Snapshot, groups: seq<Group>, chosen: seq<bool>)
    requires est.Valid() && s.Valid() && |chosen| == |groups| && InRange(s.messages, groups)
    ensures Cut(est, s, groups, chosen).Valid() <==> InOrder(SelectedSources(s.sources, groups, chosen, 0), s.lastSequence)
  {
    hide Tokens, Selected, SelectedSources;
    SourcesAlign(s, groups, chosen, 0);
    var sources := SelectedSources(s.sources, groups, chosen, 0);
    forall i | 0 <= i < |sources| ensures sources[i] >= 1 {
      var k, j := KeptFrom(s.sources, groups, chosen, 0, i);
    }
    if Increasing(sources) && sources != [] && sources[|sources| - 1] <= s.lastSequence {
      assert forall i | 0 <= i < |sources| - 1 :: sources[i] < sources[|sources| - 1];
    }
  }

  /** Trimming a valid snapshot is rejected by the constructor if and only if a new snapshot is built at all and the sources
      it keeps are out of order or beyond the last sequence. */
  lemma {:induction false} RejectedExactly(est: Estimator, s: Snapshot, budget: int)
    requires est.Valid() && s.Valid()
    ensures Trim(est, s, budget).RejectedSnapshot?
            <==> Rebuilds(est, s, budget) && !InOrder(KeptSources(est, s, budget), s.lastSequence)
  {
    hide Greedy, Tokens, Mandatory, Groups, Cut, SelectedSources, InOrder;
    if Groups(s.messages, 0).Some? {
      GroupsFit(s.messages);
      CutIsValid(est, s, Groups(s.messages, 0).value, Choice(est, s, Groups(s.messages, 0).value, budget));
    }
  }

  /** Keeping some of the messages keeps their sources in order. */
  lemma {:induction false} SelectionInOrder(s: Snapshot, groups: seq<Group>, chosen: seq<bool>)
    requires s.Valid() && InOrder(s.sources, s.lastSequence) && |chosen| == |groups|
    requires Partition(s.messages, groups, 0) && InRange(s.messages, groups)
    ensures InOrder(SelectedSources(s.sources, groups, chosen, 0), s.lastSequence)
  {
    hide SelectedSources, Partition;
    PartitionBlocks(s.messages, groups, 0);
    SourcesIncrease(s.sources, groups, chosen, 0);
    var sources := SelectedSources(s.sources, groups, chosen, 0);
    forall i | 0 <= i < |sources| ensures sources[i] <= s.lastSequence {
      var k, j := KeptFrom(s.sources, groups, chosen, 0, i);
    }
  }

  /** A snapshot whose message sources increase up to its last sequence, as the event projector makes them, is trimmed to one
      that passes every check of the constructor, whatever the budget. */
  lemma {:induction false} NeverRejected(est: Estimator, s: Snapshot, budget: int)
    requires est.Valid() && s.Valid() && InOrder(s.sources, s.lastSequence)
    ensures !Trim(est, s, budget).RejectedSnapshot?
    ensures Trim(est, s, budget).Trimmed? ==> InOrder(Trim(est, s, budget).snapshot.sources, s.lastSequence)
  {
    hide Greedy, Tokens, Mandatory, Groups, InOrder, Selected, SelectedSources;
    RejectedExactly(est, s, budget);
    if Groups(s.messages, 0).Some? {
      GroupsFit(s.messages);
      SelectionInOrder(s, Groups(s.messages, 0).value, Choice(est, s, Groups(s.messages, 0).value, budget));
    }
  }

  /** The same messages and sources with every message pinned, and an estimate just above what they cost. */
  function AllPinned(est: Estimator, s: Snapshot): Snapshot
    requires est.Valid()
  {
    s.(estimatedTokens := est.EstimateMessages(s.messages) + 1, pinned := map k | k in s.sources :: EvidencePin)
  }

  /** Marking every group selects every message. */
  lemma {:induction false} SelectedAll(s: Snapshot, groups: seq<Group>, start: nat, i: nat, chosen: seq<bool>)
    requires |s.sources| == |s.messages| && |chosen| == |groups| && i <= |groups| && InRange(s.messages, groups)
    requires Partition(s.messages, groups[i..], start) && forall k | 0 <= k < |groups| :: chosen[k]
    ensures Selected(s.messages, groups, chosen, i) == s.messages[start..]
    ensures SelectedSources(s.sources, groups, chosen, i) == s.sources[start..]
    decreases |groups| - i
  {
    hide CompleteBlock, FirstBlock, HasToolRole;
    if i < |groups| {
      assert groups[i..][1..] == groups[i + 1..];
      SelectedAll(s, groups, groups[i].stop, i + 1, chosen);
      assert s.messages[start..groups[i].stop] + s.messages[groups[i].stop..] == s.messages[start..];
      assert s.sources[start..groups[i].stop] + s.sources[groups[i].stop..] == s.sources[start..];
    }
  }

  /** With every message pinned, the policy keeps every message. */
  lemma {:induction false} AllPinnedKeepsAll(est: Estimator, s: Snapshot)
    requires est.Valid() && s.Valid() && Groups(s.messages, 0).Some?
    ensures var t, budget := AllPinned(est, s), est.EstimateMessages(s.messages);
            t.Valid() && Rebuilds(est, t, budget) && KeptSources(est, t, budget) == s.sources
  {
    hide Groups, Mandatory, Greedy, Selected, SelectedSources, Partition;
    var t, budget := AllPinned(est, s), est.EstimateMessages(s.messages);
    var groups := Groups(t.messages, 0).value;
    GroupsFit(t.messages);
    assert groups[0..] == groups && t.messages[0..] == t.messages && t.sources[0..] == t.sources;
    var must := Mandatory(t, groups, 0);
    MandatoryStage(t, groups);
    forall k | 0 <= k < |groups| ensures must[k] {
      assert t.sources[groups[k].start] in t.pinned;
    }
    SelectedAll(t, groups, 0, 0, must);
    GreedyKeepsAll(est, t.messages, groups, budget, must, |groups|);
  }

  lemma {:induction false} GreedyKeepsAll(est: Estimator, messages: seq<Message>, groups: seq<Group>, budget: int, chosen: seq<bool>, i: nat)
    requires est.Valid() && |chosen| == |groups| && i <= |groups| && InRange(messages, groups)
    requires forall k | 0 <= k < |groups| :: chosen[k]
    ensures Greedy(est, messages, groups, budget, chosen, i) == chosen
    decreases i
  {
    hide Tokens, GroupSignature, Repeats;
    if i > 0 {
      GreedyKeepsAll(est, messages, groups, budget, chosen, i - 1);
    }
  }

  lemma {:induction false} NothingBuilt(est: Estimator, s: Snapshot, budget: int)
    requires est.Valid() && s.Valid() && Groups(s.messages, 0).None?
    ensures !Trim(est, s, budget).RejectedSnapshot?
  {
    hide Groups;
  }

  /** Another snapshot of the same messages and sources. */
  predicate SameContext(s: Snapshot, t: Snapshot) {
    t.messages == s.messages && t.sources == s.sources && t.lastSequence == s.lastSequence
  }

  /** What a caller can check before trimming: of messages that can be grouped, the sources are in order if and only if no
      snapshot of these messages and sources, whatever its pins and its estimate, is rejected at any budget by any
      estimator. */
  lemma {:induction false} NeverRejectedExactly(s: Snapshot)
    requires s.Valid()
    ensures Groups(s.messages, 0).None? || InOrder(s.sources, s.lastSequence)
            <==> forall est: Estimator, t: Snapshot, budget: int | est.Valid() && t.Valid() && SameContext(s, t) ::
                   !Trim(est, t, budget).RejectedSnapshot?
  {
    hide Groups, Trim, InOrder, Rebuilds, KeptSources;
    if InOrder(s.sources, s.lastSequence) {
      forall est: Estimator, t: Snapshot, budget: int | est.Valid() && t.Valid() && SameContext(s, t)
        ensures !Trim(est, t, budget).RejectedSnapshot?
      {
        NeverRejected(est, t, budget);
      }
    } else if Groups(s.messages, 0).None? {
      forall est: Estimator, t: Snapshot, budget: int | est.Valid() && t.Valid() && SameContext(s, t)
        ensures !Trim(est, t, budget).RejectedSnapshot?
      {
        NothingBuilt(est, t, budget);
      }
    } else {
      var est := Estimator(1, 1, 1, m => 0);
      AllPinnedKeepsAll(est, s);
      RejectedExactly(est, AllPinned(est, s), est.EstimateMessages(s.messages));
    }
  }

  /** Messages without calls, whose ids are numbered out of order. */
  const DISORDERED := Snapshot([Plain(User, "a"), Plain(User, "b"), Plain(User, "c")], 4, [1, 3, 2], map[], [1, 2, 3], 3)

  lemma {:induction false} ThreePlainGroups(m: seq<Message>)
    requires |m| == 3 && forall k | 0 <= k < 3 :: !OpensGroup(m[k]) && !HasToolRole(m[k])
    ensures Groups(m, 0) == Some([Group(0, 1, true), Group(1, 2, true), Group(2, 3, true)])
  {
    hide Groups, OpensGroup, HasToolRole;
    NextSingle(m, 2);
    NextSingle(m, 1);
    NextSingle(m, 0);
    NoGroups(m);
    assert m[0..] == m;
    var a, b, c := Group(0, 1, true), Group(1, 2, true), Group(2, 3, true);
    assert Groups(m[3..], 3) == Some([]);
    assert [c] + [] == [c];
    assert Groups(m[2..], 2) == Some([c]);
    assert [b] + [c] == [b, c];
    assert Groups(m[1..], 1) == Some([b, c]);
    assert [a] + [b, c] == [a, b, c];
  }

  /** With no message text to count, each kept message costs one token, beside one for the conversation. */
  lemma {:induction false} ThreePlainTokens(est: Estimator, m: seq<Message>, groups: seq<Group>, chosen: seq<bool>)
    requires est.Valid() && est.messageOverhead == est.conversationOverhead == 1 && forall x :: est.bytes(x) == 0
    requires |m| == 3 && groups == [Group(0, 1, true), Group(1, 2, true), Group(2, 3, true)] && |chosen| == 3
    ensures Tokens(est, m, groups, chosen)
         == 1 + (if chosen[0] then 1 else 0) + (if chosen[1] then 1 else 0) + (if chosen[2] then 1 else 0)
  {
    SelectedThree(m, groups, chosen);
    CostOfPlain(est, Selected(m, groups, chosen, 0));
  }

  lemma {:induction false} NoSignature(m: seq<Message>, g: Group)
    requires g.stop == g.start + 1 <= |m| && m[g.start].Plain?
    ensures GroupSignature(m, g) == []
  {
    assert m[g.start..g.stop] == [m[g.start]];
    assert Signature([m[g.start]][1..]) == [];
  }

  /** The constructor accepts a snapshot whose message sources are not increasing, but rejects what trimming makes of it. */
  lemma {:induction false} DisorderedIsRejected()
    ensures var est := Estimator(1, 1, 1, m => 0);
            DISORDERED.Valid() && Trim(est, DISORDERED, 3) == RejectedSnapshot
  {
    hide Groups, Tokens, Selected, GroupSignature, Greedy;
    var est := Estimator(1, 1, 1, m => 0);
    var m := DISORDERED.messages;
    var groups := [Group(0, 1, true), Group(1, 2, true), Group(2, 3, true)];
    ThreePlainGroups(m);
    NoSignature(m, groups[0]);
    NoSignature(m, groups[1]);
    NoSignature(m, groups[2]);
    var none, one, two, all := [false, false, false], [false, false, true], [false, true, true], [true, true, true];
    ThreePlainTokens(est, m, groups, none);
    ThreePlainTokens(est, m, groups, one);
    ThreePlainTokens(est, m, groups, two);
    ThreePlainTokens(est, m, groups, all);
    MandatoryNone(DISORDERED, groups);
    assert none[2 := true] == one && one[1 := true] == two && two[0 := true] == all;
    GreedyStep(est, m, groups, 3, none, 3);
    GreedyStep(est, m, groups, 3, one, 2);
    GreedyStep(est, m, groups, 3, two, 1);
    GreedyDone(est, m, groups, 3, two);
    LastTwoSources([1, 3, 2], groups, two);
    assert Takes(est, m, groups, 3, none, 2);
    assert Takes(est, m, groups, 3, one, 1);
    assert !Takes(est, m, groups, 3, two, 0);
    assert Choice(est, DISORDERED, groups, 3) == two;
    var cut := Cut(est, DISORDERED, groups, two);
    assert cut.sourceSequences[0] == 3 && cut.sourceSequences[1] == 2;
  }

  lemma {:induction false} MandatoryNone(s: Snapshot, groups: seq<Group>)
    requires |groups| == 3 && InRange(s.messages, groups) && |s.sources| == |s.messages| && s.pinned == map[]
    ensures Mandatory(s, groups, 0) == [false, false, false]
  {
    MandatoryAt(s, groups, 0, 0);
    MandatoryAt(s, groups, 0, 1);
    MandatoryAt(s, groups, 0, 2);
  }

  lemma {:induction false} LastTwoSources(sources: seq<int>, groups: seq<Group>, chosen: seq<bool>)
    requires |sources| == 3 && groups == [Group(0, 1, true), Group(1, 2, true), Group(2, 3, true)] && chosen == [false, true, true]
    ensures SelectedSources(sources, groups, chosen, 0) == [sources[1], sources[2]]
  {
    assert SelectedSources(sources, groups, chosen, 3) == [];
    assert SelectedSources(sources, groups, chosen, 2) == [sources[2]];
    assert SelectedSources(sources, groups, chosen, 1) == [sources[1], sources[2]];
  }

  lemma {:induction false} SelectedThree(m: seq<Message>, groups: seq<Group>, chosen: seq<bool>)
    requires |m| == 3 && groups == [Group(0, 1, true), Group(1, 2, true), Group(2, 3, true)] && |chosen| == 3
    ensures Selected(m, groups, chosen, 0)
         == (if chosen[0] then [m[0]] else []) + ((if chosen[1] then [m[1]] else []) + (if chosen[2] then [m[2]] else []))
  {
    assert Selected(m, groups, chosen, 3) == [];
    assert Selected(m, groups, chosen, 2) == if chosen[2] then [m[2]] else [];
    assert m[1..2] == [m[1]] && m[0..1] == [m[0]] && m[2..3] == [m[2]];
  }

  lemma {:induction false} CostOfPlain(est: Estimator, messages: seq<Message>)
    requires est.Valid() && est.messageOverhead == 1 && forall m :: est.bytes(m) == 0
    ensures est.Cost(messages) == |messages|
  {
    if messages != [] {
      CostOfPlain(est, messages[1..]);
    }
  }

  /* ---------------------------------------------------------------- well-formed requests */

  /** Reading a message list from the front, with some calls already awaited. */
  function AwaitingFrom(awaited: seq<ToolCall>, messages: seq<Message>): Option<seq<ToolCall>>
    decreases |messages|
  {
    if messages == [] then Some(awaited)
    else
      var next := Fit(awaited, messages[0]);
      if next.None? then None else AwaitingFrom(next.value, messages[1..])
  }

  lemma {:induction false} AwaitingFromSnoc(awaited: seq<ToolCall>, messages: seq<Message>, m: Message)
    ensures AwaitingFrom(awaited, messages + [m])
         == if AwaitingFrom(awaited, messages).None? then None else Fit(AwaitingFrom(awaited, messages).value, m)
    decreases |messages|
  {
    if messages == [] {
      assert messages + [m] == [m] && [m][1..] == [];
    } else {
      assert (messages + [m])[1..] == messages[1..] + [m];
      var next := Fit(awaited, messages[0]);
      if next.Some? {
        AwaitingFromSnoc(next.value, messages[1..], m);
      }
    }
  }

  lemma {:induction false} AwaitingBothWays(messages: seq<Message>)
    ensures Awaiting(messages) == AwaitingFrom([], messages)
  {
    if messages != [] {
      var front, last := messages[..|messages| - 1], messages[|messages| - 1];
      AwaitingBothWays(front);
      AwaitingFromSnoc([], front, last);
      assert front + [last] == messages;
    }
  }

  lemma {:induction false} AwaitingConcat(awaited: seq<ToolCall>, a: seq<Message>, b: seq<Message>)
    ensures AwaitingFrom(awaited, a + b)
         == if AwaitingFrom(awaited, a).None? then None else AwaitingFrom(AwaitingFrom(awaited, a).value, b)
    decreases |a|
  {
    if a == [] {
      assert a + b == b;
    } else {
      assert (a + b)[1..] == a[1..] + b;
      var next := Fit(awaited, a[0]);
      if next.Some? {
        AwaitingConcat(next.value, a[1..], b);
      }
    }
  }

  /** When all awaited calls are answered in the end, their results come first, in order. */
  lemma {:induction false} AnswersFirst(calls: seq<ToolCall>, messages: seq<Message>)
    requires AwaitingFrom(calls, messages) == Some([])
    ensures |calls| <= |messages|
    ensures forall k | 0 <= k < |calls| :: messages[k].ToolResult? && messages[k].callId == calls[k].id
    ensures AwaitingFrom(calls, messages[..|calls|]) == Some([]) && AwaitingFrom([], messages[|calls|..]) == Some([])
    decreases |calls|
  {
    if calls == [] {
      assert messages[|calls|..] == messages;
    } else {
      AnswersFirst(calls[1..], messages[1..]);
      assert messages[1..][..|calls| - 1] == messages[..|calls|][1..];
      assert messages[1..][|calls| - 1..] == messages[|calls|..];
      assert forall k | 1 <= k < |calls| :: messages[k] == messages[1..][k - 1] && calls[k] == calls[1..][k - 1];
    }
  }

  /** In a well-formed list the first block is complete, and both it and the rest are well-formed. */
  lemma {:induction false} FirstBlockAnswered(messages: seq<Message>)
    requires messages != [] && AwaitingFrom([], messages) == Some([]) && !HasToolRole(messages[0])
    ensures var n := FirstBlock(messages);
            && CompleteBlock(messages[..n])
            && AwaitingFrom([], messages[..n]) == Some([]) && AwaitingFrom([], messages[n..]) == Some([])
  {
    if OpensGroup(messages[0]) {
      var calls, rest := messages[0].toolCalls, messages[1..];
      AnswersFirst(calls, rest);
      var n := |calls|;
      assert n < |rest| ==> !rest[n].ToolResult? by {
        assert n < |rest| ==> rest[n..][0] == rest[n];
      }
      LeadingResultsExact(rest, IdsOf(calls), n);
      var block := messages[..n + 1];
      assert block[1..] == rest[..n];
      AnsweredIds(calls, rest[..n]);
      assert messages[n + 1..] == rest[n..];
    } else {
      assert messages[..1][1..] == [];
    }
  }

  lemma {:induction false} AnsweredIds(calls: seq<ToolCall>, results: seq<Message>)
    requires |results| == |calls| && forall k | 0 <= k < |calls| :: results[k].ToolResult? && results[k].callId == calls[k].id
    ensures ResultIds(results) == IdsOf(calls)
  {
    forall x | x in IdsOf(calls) ensures x in ResultIds(results) {
      var k :| 0 <= k < |calls| && calls[k].id == x;
      assert results[k].callId == x;
    }
  }

  /** No text message pretends to be a tool result. */
  predicate NoToolText(messages: seq<Message>) {
    forall k | 0 <= k < |messages| :: messages[k].Plain? ==> !messages[k].role.Tool?
  }

  /** Whether a list has such a message depends on its parts. */
  lemma {:induction false} NoToolTextSplit(messages: seq<Message>, n: nat)
    requires n <= |messages|
    ensures NoToolText(messages) <==> NoToolText(messages[..n]) && NoToolText(messages[n..])
  {
    if NoToolText(messages[..n]) && NoToolText(messages[n..]) {
      forall k | 0 <= k < |messages| && messages[k].Plain? ensures !messages[k].role.Tool? {
        assert k < n ==> messages[..n][k] == messages[k];
        assert k >= n ==> messages[n..][k - n] == messages[k];
      }
    }
  }

  /** The first block of a list that begins with no tool role has no such message. */
  lemma {:induction false} BlockHasNoToolText(messages: seq<Message>)
    requires messages != [] && !HasToolRole(messages[0])
    ensures NoToolText(messages[..FirstBlock(messages)])
  {
    if OpensGroup(messages[0]) {
      LeadingResultsAre(messages[1..], IdsOf(messages[0].toolCalls));
      assert forall k | 1 <= k < |messages| :: messages[k] == messages[1..][k - 1];
    }
  }

  /** Grouping a well-formed request reports an orphan if and only if some text message has the tool role; otherwise every
      group is complete. */
  lemma {:induction false} WellFormedGroups(messages: seq<Message>, offset: nat)
    requires AwaitingFrom([], messages) == Some([])
    ensures Groups(messages, offset).None? <==> !NoToolText(messages)
    ensures Groups(messages, offset).Some? ==>
              forall k | 0 <= k < |Groups(messages, offset).value| :: Groups(messages, offset).value[k].complete
    decreases |messages|
  {
    hide CompleteBlock, OpensGroup, NoToolText;
    if messages != [] && !HasToolRole(messages[0]) {
      var n := FirstBlock(messages);
      FirstBlockAnswered(messages);
      BlockHasNoToolText(messages);
      NoToolTextSplit(messages, n);
      WellFormedGroups(messages[n..], offset + n);
    } else {
      FirstIsText(messages);
    }
  }

  /** A well-formed request begins with no result, so a tool role at its head is that of a text. */
  lemma {:induction false} FirstIsText(messages: seq<Message>)
    requires AwaitingFrom([], messages) == Some([]) && (messages == [] || HasToolRole(messages[0]))
    ensures messages == [] <==> NoToolText(messages)
  {
    if messages != [] {
      assert messages[0].Plain? && messages[0].role.Tool?;
    }
  }

  lemma {:induction false} BlocksAnswered(messages: seq<Message>, groups: seq<Group>, start: nat)
    requires Partition(messages, groups, start) && InRange(messages, groups) && AwaitingFrom([], messages[start..]) == Some([])
    ensures forall k | 0 <= k < |groups| :: AwaitingFrom([], messages[groups[k].start..groups[k].stop]) == Some([])
    decreases |groups|
  {
    hide CompleteBlock, FirstBlock, AwaitingFrom;
    if groups != [] {
      var tail := messages[start..];
      var n := groups[0].stop - start;
      FirstOfPartition(messages, groups, start);
      FirstBlockAnswered(tail);
      assert tail[..n] == messages[start..groups[0].stop] && tail[n..] == messages[groups[0].stop..];
      PartitionInRange(messages, groups[1..], groups[0].stop);
      BlocksAnswered(messages, groups[1..], groups[0].stop);
      assert forall k | 1 <= k < |groups| :: groups[k] == groups[1..][k - 1];
    }
  }

  /** The first group of a partition is the first block of what it covers. */
  lemma {:induction false} FirstOfPartition(messages: seq<Message>, groups: seq<Group>, start: nat)
    requires Partition(messages, groups, start) && groups != []
    ensures start < |messages| && groups[0].start == start && FirstBlock(messages[start..]) == groups[0].stop - start
  {
    hide CompleteBlock;
    var stop := groups[0].stop;
    assert messages[start..] == messages[start..stop] + messages[stop..];
    assert groups[1..] != [] ==> !HasToolRole(messages[stop..][0]);
    BlockAlone(messages[start..stop], messages[stop..]);
  }

  lemma {:induction false} SelectedAnswered(messages: seq<Message>, groups: seq<Group>, chosen: seq<bool>, i: nat)
    requires |chosen| == |groups| && i <= |groups| && InRange(messages, groups)
    requires forall k | 0 <= k < |groups| :: AwaitingFrom([], messages[groups[k].start..groups[k].stop]) == Some([])
    ensures AwaitingFrom([], Selected(messages, groups, chosen, i)) == Some([])
    decreases |groups| - i
  {
    if i < |groups| {
      SelectedAnswered(messages, groups, chosen, i + 1);
      AwaitingConcat([], if chosen[i] then messages[groups[i].start..groups[i].stop] else [], Selected(messages, groups, chosen, i + 1));
    }
  }

  /** Trimming a well-formed request yields a well-formed request, or reports an orphan if and only if there is something to
      trim and a text message has the tool role. */
  lemma {:induction false} TrimmedWellFormed(est: Estimator, s: Snapshot, budget: int)
    requires est.Valid() && s.Valid() && WellFormed(s.messages)
    ensures Trim(est, s, budget).OrphanResult? <==> 1 <= budget < s.estimatedTokens && !NoToolText(s.messages)
    ensures Trim(est, s, budget).Trimmed? ==> WellFormed(Trim(est, s, budget).snapshot.messages)
  {
    hide Greedy, Tokens, Mandatory, Groups, Selected, SelectedSources, AwaitingFrom, Awaiting, Partition, NoToolText;
    AwaitingBothWays(s.messages);
    WellFormedGroups(s.messages, 0);
    if Groups(s.messages, 0).Some? {
      var groups := Groups(s.messages, 0).value;
      GroupsFit(s.messages);
      assert s.messages[0..] == s.messages;
      BlocksAnswered(s.messages, groups, 0);
      var chosen := Choice(est, s, groups, budget);
      SelectedAnswered(s.messages, groups, chosen, 0);
      AwaitingBothWays(Selected(s.messages, groups, chosen, 0));
    }
  }
}
