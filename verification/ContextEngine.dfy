/** Context trimming: greedy, newest first, by atomic groups of an assistant message and its tool results. */
module ContextEngine {
  import opened Events
  import opened Projection
  import opened Conversation

  /* ---------------------------------------------------------------- token estimates */

  /** `bytes` stands for the UTF-8 length of a message's canonical JSON text. */
  datatype Estimator = Estimator(bytesPerToken: nat, messageOverhead: nat, conversationOverhead: nat, bytes: Message -> nat) {
    predicate Valid() {
      bytesPerToken >= 1 && messageOverhead >= 1 && conversationOverhead >= 1
    }

    function EstimateText(byteCount: nat): nat
      requires Valid()
    {
      if byteCount == 0 then 0 else (byteCount + bytesPerToken - 1) / bytesPerToken
    }

    function EstimateMessage(m: Message): nat
      requires Valid()
    {
      messageOverhead + EstimateText(bytes(m))
    }

    function Cost(messages: seq<Message>): nat
      requires Valid()
    {
      if messages == [] then 0 else EstimateMessage(messages[0]) + Cost(messages[1..])
    }

    function EstimateMessages(messages: seq<Message>): nat
      requires Valid()
    {
      conversationOverhead + Cost(messages)
    }

    lemma {:induction false} CostOfConcat(a: seq<Message>, b: seq<Message>)
      requires Valid()
      ensures Cost(a + b) == Cost(a) + Cost(b)
    {
      if a == [] {
        assert a + b == b;
      } else {
        CostOfConcat(a[1..], b);
        assert (a + b)[1..] == a[1..] + b;
      }
    }
  }

  /** Rounding up: enough tokens for every byte, and not one token more. */
  lemma {:induction false} CeilingOfBytes(est: Estimator, byteCount: nat)
    requires est.Valid()
    ensures var t := est.EstimateText(byteCount);
            byteCount <= t * est.bytesPerToken && (t > 0 ==> (t - 1) * est.bytesPerToken < byteCount)
  {
    var b := est.bytesPerToken;
    if byteCount > 0 {
      var q, r := (byteCount + b - 1) / b, (byteCount + b - 1) % b;
      assert byteCount + b - 1 == q * b + r;
      assert (q - 1) * b == q * b - b;
    }
  }

  /** As many tokens as it takes for the bytes of one message, and no more. */
  predicate Covers(est: Estimator, m: Message, tokens: nat) {
    && est.bytes(m) <= tokens * est.bytesPerToken
    && forall fewer: nat :: fewer < tokens ==> fewer * est.bytesPerToken < est.bytes(m)
  }

  /** A conversation costs its overhead, and each message its own overhead and the tokens that cover it. */
  lemma {:induction false} EstimateExactly(est: Estimator, messages: seq<Message>, m: Message) returns (tokens: nat)
    requires est.Valid()
    ensures est.EstimateMessages([]) == est.conversationOverhead
    ensures Covers(est, m, tokens)
    ensures est.EstimateMessages(messages + [m]) == est.EstimateMessages(messages) + est.messageOverhead + tokens
  {
    tokens := est.EstimateText(est.bytes(m));
    CeilingOfBytes(est, est.bytes(m));
    forall fewer: nat | fewer < tokens ensures fewer * est.bytesPerToken < est.bytes(m) {
      Multiplied(fewer, tokens - 1, est.bytesPerToken);
    }
    est.CostOfConcat(messages, [m]);
  }

  lemma {:induction false} Multiplied(a: nat, b: nat, factor: nat)
    requires a <= b
    ensures a * factor <= b * factor
  {
  }

  /* ---------------------------------------------------------------- snapshots */

  datatype PinReason = AlertPin | GoalPin | LatestOperatorInput | EvidencePin

  datatype Snapshot = Snapshot(
    messages: seq<Message>,
    estimatedTokens: nat,
    sources: seq<int>,
    pinned: map<int, PinReason>,
    sourceSequences: seq<int>,
    lastSequence: int)
  {
    /** The constructor's checks. */
    predicate Valid() {
      && lastSequence >= 0
      && |sources| == |messages|
      && (forall i | 0 <= i < |sources| :: sources[i] >= 1)
      && (forall s | s in pinned :: s in sources)
      && (forall i | 0 <= i < |sourceSequences| :: sourceSequences[i] >= 1)
      && Increasing(sourceSequences)
      && (sourceSequences != [] ==> sourceSequences[|sourceSequences| - 1] <= lastSequence)
    }
  }

  predicate Increasing(s: seq<int>) {
    forall i, j | 0 <= i < j < |s| :: s[i] < s[j]
  }

  /* ---------------------------------------------------------------- groups */

  /** Messages `start` up to but not including `stop`. */
  datatype Group = Group(start: nat, stop: nat, complete: bool)

  predicate HasToolRole(m: Message) {
    m.ToolResult? || (m.Plain? && m.role.Tool?)
  }

  predicate OpensGroup(m: Message) {
    m.FromAssistant? && m.toolCalls != []
  }

  function IdsOf(calls: seq<ToolCall>): set<string> {
    set k | 0 <= k < |calls| :: calls[k].id
  }

  function ResultIds(messages: seq<Message>): set<string> {
    set k | 0 <= k < |messages| && messages[k].ToolResult? :: messages[k].callId
  }

  /** How many results of the given calls lead the list. */
  function LeadingResults(messages: seq<Message>, ids: set<string>): (r: nat)
    ensures r <= |messages|
  {
    if messages != [] && messages[0].ToolResult? && messages[0].callId in ids then 1 + LeadingResults(messages[1..], ids) else 0
  }

  function FirstBlock(messages: seq<Message>): (r: nat)
    requires messages != []
    ensures 1 <= r <= |messages|
  {
    if OpensGroup(messages[0]) then 1 + LeadingResults(messages[1..], IdsOf(messages[0].toolCalls)) else 1
  }

  predicate CompleteBlock(block: seq<Message>)
    requires block != []
  {
    OpensGroup(block[0]) ==> ResultIds(block[1..]) == IdsOf(block[0].toolCalls)
  }

  /** The groups of a message list whose first message has the given index; None when a result has no call. */
  function Groups(messages: seq<Message>, offset: nat): Option<seq<Group>>
    decreases |messages|
  {
    if messages == [] then Some([])
    else if HasToolRole(messages[0]) then None
    else
      var n := FirstBlock(messages);
      var rest := Groups(messages[n..], offset + n);
      if rest.None? then None
      else Some([Group(offset, offset + n, CompleteBlock(messages[..n]))] + rest.value)
  }

  /** Groups cover the messages from `start` on without gaps, each beginning with a message that is no tool result. */
  predicate Partition(messages: seq<Message>, groups: seq<Group>, start: nat) {
    && start <= |messages|
    && (groups == [] ==> start == |messages|)
    && (groups != [] ==>
          && groups[0].start == start < groups[0].stop <= |messages|
          && !HasToolRole(messages[start])
          && FirstBlock(messages[start..groups[0].stop]) == groups[0].stop - start
          && groups[0].complete == CompleteBlock(messages[start..groups[0].stop])
          && Partition(messages, groups[1..], groups[0].stop))
  }

  lemma {:induction false} LeadingResultsAre(messages: seq<Message>, ids: set<string>)
    ensures var n := LeadingResults(messages, ids);
            && (forall k | 0 <= k < n :: messages[k].ToolResult? && messages[k].callId in ids)
            && (n < |messages| ==> !(messages[n].ToolResult? && messages[n].callId in ids))
  {
    if messages != [] && messages[0].ToolResult? && messages[0].callId in ids {
      LeadingResultsAre(messages[1..], ids);
      assert forall k | 1 <= k < |messages| :: messages[k] == messages[1..][k - 1];
    }
  }

  /** A run of results is counted exactly when every member is a result and the next message is not. */
  lemma {:induction false} LeadingResultsExact(messages: seq<Message>, ids: set<string>, n: nat)
    requires n <= |messages|
    requires forall k | 0 <= k < n :: messages[k].ToolResult? && messages[k].callId in ids
    requires n < |messages| ==> !(messages[n].ToolResult? && messages[n].callId in ids)
    ensures LeadingResults(messages, ids) == n
  {
    LeadingResultsAre(messages, ids);
  }

  /** A block stays a block when cut off, and when a message that is no result follows it. */
  lemma {:induction false} BlockAlone(block: seq<Message>, rest: seq<Message>)
    requires block != [] && !HasToolRole(block[0])
    requires rest != [] ==> !HasToolRole(rest[0])
    ensures FirstBlock(block) == |block| ==> FirstBlock(block + rest) == |block|
  {
    var all := block + rest;
    if OpensGroup(block[0]) && FirstBlock(block) == |block| {
      var ids := IdsOf(block[0].toolCalls);
      LeadingResultsAre(block[1..], ids);
      assert all[1..] == block[1..] + rest;
      LeadingResultsExact(all[1..], ids, |block| - 1);
    } else if FirstBlock(block) == |block| {
      assert |block| == 1 && all[0] == block[0];
    }
  }

  lemma {:induction false} BlockCut(messages: seq<Message>)
    requires messages != []
    ensures FirstBlock(messages[..FirstBlock(messages)]) == FirstBlock(messages)
  {
    var n := FirstBlock(messages);
    var block := messages[..n];
    if OpensGroup(messages[0]) {
      var ids := IdsOf(messages[0].toolCalls);
      LeadingResultsAre(messages[1..], ids);
      assert block[1..] == messages[1..][..n - 1];
      LeadingResultsExact(block[1..], ids, n - 1);
    }
  }

  function Prepend(groups: seq<Group>, rest: Option<seq<Group>>): Option<seq<Group>> {
    if rest.None? then None else Some(groups + rest.value)
  }

  /** The first group of a list that begins with no tool result, then the groups of the rest. */
  lemma {:induction false} GroupsOpen(messages: seq<Message>, start: nat, n: nat)
    requires start < |messages| && !HasToolRole(messages[start]) && n == FirstBlock(messages[start..])
    ensures start + n <= |messages|
    ensures Groups(messages[start..], start)
         == Prepend([Group(start, start + n, CompleteBlock(messages[start..start + n]))], Groups(messages[start + n..], start + n))
  {
    hide FirstBlock, CompleteBlock, OpensGroup;
    assert messages[start..][n..] == messages[start + n..];
    assert messages[start..][..n] == messages[start..start + n];
  }

  lemma {:induction false} NoGroups(messages: seq<Message>)
    ensures Groups(messages[|messages|..], |messages|) == Some([]) && Partition(messages, [], |messages|)
  {
  }

  lemma {:induction false} GroupsOrphan(messages: seq<Message>, offset: nat)
    requires Groups(messages, offset).Some? && messages != []
    ensures !HasToolRole(messages[0])
  {
  }

  lemma {:induction false} GroupsPartition(messages: seq<Message>, start: nat)
    requires start <= |messages| && Groups(messages[start..], start).Some?
    ensures Partition(messages, Groups(messages[start..], start).value, start)
    decreases |messages| - start
  {
    hide Groups, Partition, CompleteBlock, FirstBlock, HasToolRole;
    if start == |messages| {
      NoGroups(messages);
    } else {
      GroupsOrphan(messages[start..], start);
      var n := FirstBlock(messages[start..]);
      GroupsOpen(messages, start, n);
      assert messages[start..][..n] == messages[start..start + n];
      BlockCut(messages[start..]);
      GroupsPartition(messages, start + n);
      ConsPartition(messages, Group(start, start + n, CompleteBlock(messages[start..start + n])),
                    Groups(messages[start + n..], start + n).value);
    }
  }

  lemma {:induction false} ConsPartition(messages: seq<Message>, g: Group, groups: seq<Group>)
    requires g.start < g.stop <= |messages| && !HasToolRole(messages[g.start])
    requires FirstBlock(messages[g.start..g.stop]) == g.stop - g.start
    requires g.complete == CompleteBlock(messages[g.start..g.stop])
    requires Partition(messages, groups, g.stop)
    ensures Partition(messages, [g] + groups, g.start)
  {
    hide CompleteBlock, FirstBlock, HasToolRole;
    assert ([g] + groups)[1..] == groups;
  }

  /* ---------------------------------------------------------------- selections */

  /** A selection marks groups by index. The messages of the marked groups from index `i` on. */
  function Selected(messages: seq<Message>, groups: seq<Group>, chosen: seq<bool>, i: nat): seq<Message>
    requires |chosen| == |groups| && i <= |groups| && InRange(messages, groups)
    decreases |groups| - i
  {
    if i == |groups| then []
    else (if chosen[i] then messages[groups[i].start..groups[i].stop] else []) + Selected(messages, groups, chosen, i + 1)
  }

  predicate InRange(messages: seq<Message>, groups: seq<Group>) {
    forall k | 0 <= k < |groups| :: groups[k].start < groups[k].stop <= |messages|
  }

  function Tokens(est: Estimator, messages: seq<Message>, groups: seq<Group>, chosen: seq<bool>): nat
    requires est.Valid() && |chosen| == |groups| && InRange(messages, groups)
  {
    est.EstimateMessages(Selected(messages, groups, chosen, 0))
  }

  /** Names and contents of a group's tool results. */
  function Signature(messages: seq<Message>): seq<(string, Content)> {
    if messages == [] then []
    else (if messages[0].ToolResult? then [(messages[0].name, messages[0].output)] else []) + Signature(messages[1..])
  }

  function GroupSignature(messages: seq<Message>, g: Group): seq<(string, Content)>
    requires g.start < g.stop <= |messages|
  {
    Signature(messages[g.start..g.stop])
  }

  /** Some marked group has the same, non-empty tool results. */
  predicate Repeats(messages: seq<Message>, groups: seq<Group>, chosen: seq<bool>, g: nat)
    requires |chosen| == |groups| && g < |groups| && InRange(messages, groups)
  {
    && GroupSignature(messages, groups[g]) != []
    && exists k | 0 <= k < |groups| :: k != g && chosen[k] && GroupSignature(messages, groups[k]) == GroupSignature(messages, groups[g])
  }

  /** One step of the greedy choice. */
  predicate Takes(est: Estimator, messages: seq<Message>, groups: seq<Group>, budget: int, chosen: seq<bool>, g: nat)
    requires est.Valid() && |chosen| == |groups| && g < |groups| && InRange(messages, groups)
  {
    && !chosen[g] && groups[g].complete && !Repeats(messages, groups, chosen, g)
    && Tokens(est, messages, groups, chosen[g := true]) <= budget
  }

  /** The groups before index `i` are still to be considered, newest first. */
  function Greedy(est: Estimator, messages: seq<Message>, groups: seq<Group>, budget: int, chosen: seq<bool>, i: nat): (r: seq<bool>)
    requires est.Valid() && |chosen| == |groups| && i <= |groups| && InRange(messages, groups)
    ensures |r| == |groups|
    decreases i
  {
    if i == 0 then chosen
    else if Takes(est, messages, groups, budget, chosen, i - 1) then
      Greedy(est, messages, groups, budget, chosen[i - 1 := true], i - 1)
    else Greedy(est, messages, groups, budget, chosen, i - 1)
  }

  predicate HoldsPin(s: Snapshot, g: Group)
    requires g.start < g.stop <= |s.sources|
  {
    exists k | g.start <= k < g.stop :: s.sources[k] in s.pinned
  }

  /** The groups that must stay, from index `i` on. */
  function Mandatory(s: Snapshot, groups: seq<Group>, i: nat): (r: seq<bool>)
    requires i <= |groups| && InRange(s.messages, groups) && |s.sources| == |s.messages|
    ensures |r| == |groups| - i
    decreases |groups| - i
  {
    if i == |groups| then [] else [HoldsPin(s, groups[i])] + Mandatory(s, groups, i + 1)
  }

  lemma {:induction false} MandatoryAt(s: Snapshot, groups: seq<Group>, i: nat, k: nat)
    requires i <= k < |groups| && InRange(s.messages, groups) && |s.sources| == |s.messages|
    ensures Mandatory(s, groups, i)[k - i] == HoldsPin(s, groups[k])
    decreases |groups| - i
  {
    if i < k {
      MandatoryAt(s, groups, i + 1, k);
    }
  }

  /** Sources of the marked groups from index `i` on. */
  function SelectedSources(sources: seq<int>, groups: seq<Group>, chosen: seq<bool>, i: nat): seq<int>
    requires |chosen| == |groups| && i <= |groups|
    requires forall k | 0 <= k < |groups| :: groups[k].start < groups[k].stop <= |sources|
    decreases |groups| - i
  {
    if i == |groups| then []
    else (if chosen[i] then sources[groups[i].start..groups[i].stop] else []) + SelectedSources(sources, groups, chosen, i + 1)
  }

  datatype Trimming =
    | Trimmed(snapshot: Snapshot)
    | InvalidBudget
    | OrphanResult
    | PinnedContextOverflow(tokens: nat)
    | ContextBudgetOverflow(tokens: nat)
    | RejectedSnapshot

  /** The groups the policy keeps when it has to trim. */
  function Choice(est: Estimator, s: Snapshot, groups: seq<Group>, budget: int): (r: seq<bool>)
    requires est.Valid() && s.Valid() && InRange(s.messages, groups)
    ensures |r| == |groups|
  {
    Greedy(est, s.messages, groups, budget, Mandatory(s, groups, 0), |groups|)
  }

  /** What the policy makes of a snapshot. The result is constructed anew, so the constructor may reject it. */
  function Trim(est: Estimator, s: Snapshot, budget: int): Trimming
    requires est.Valid() && s.Valid()
  {
    if budget < 1 then InvalidBudget
    else if s.estimatedTokens <= budget then Trimmed(s)
    else
      var groups := Groups(s.messages, 0);
      if groups.None? then OrphanResult
      else
        GroupsFit(s.messages);
        var must := Mandatory(s, groups.value, 0);
        var tokens := Tokens(est, s.messages, groups.value, must);
        if tokens > budget then
          if true in must then PinnedContextOverflow(tokens) else ContextBudgetOverflow(tokens)
        else Constructed(Cut(est, s, groups.value, Choice(est, s, groups.value, budget)))
  }

  function Constructed(s: Snapshot): Trimming {
    if s.Valid() then Trimmed(s) else RejectedSnapshot
  }

  /** The snapshot of the marked groups. */
  function Cut(est: Estimator, s: Snapshot, groups: seq<Group>, chosen: seq<bool>): Snapshot
    requires est.Valid() && |chosen| == |groups| && InRange(s.messages, groups) && |s.sources| == |s.messages|
  {
    var sources := SelectedSources(s.sources, groups, chosen, 0);
    Snapshot(Selected(s.messages, groups, chosen, 0), Tokens(est, s.messages, groups, chosen), sources,
             map k | k in s.pinned && k in sources :: s.pinned[k], sources, s.lastSequence)
  }

  lemma {:induction false} GroupsFit(messages: seq<Message>)
    requires Groups(messages, 0).Some?
    ensures Partition(messages, Groups(messages, 0).value, 0) && InRange(messages, Groups(messages, 0).value)
  {
    assert messages[0..] == messages;
    GroupsPartition(messages, 0);
    PartitionInRange(messages, Groups(messages, 0).value, 0);
  }

  lemma {:induction false} PartitionInRange(messages: seq<Message>, groups: seq<Group>, start: nat)
    requires Partition(messages, groups, start)
    ensures InRange(messages, groups)
    ensures forall k | 0 <= k < |groups| :: start <= groups[k].start
    decreases |groups|
  {
    if groups != [] {
      PartitionInRange(messages, groups[1..], groups[0].stop);
      assert forall k | 1 <= k < |groups| :: groups[k] == groups[1..][k - 1];
    }
  }

  /* ---------------------------------------------------------------- the policy's own loops */

  lemma {:induction false} PrependNothing(rest: Option<seq<Group>>)
    ensures Prepend([], rest) == rest
  {
    if rest.Some? {
      assert [] + rest.value == rest.value;
    }
  }

  lemma {:induction false} PrependMore(groups: seq<Group>, g: Group, rest: Option<seq<Group>>)
    ensures Prepend(groups + [g], rest) == Prepend(groups, Prepend([g], rest))
  {
    if rest.Some? {
      assert (groups + [g]) + rest.value == groups + ([g] + rest.value);
    }
  }

  /** A call group reaches as far as the results of its calls do. */
  lemma {:induction false} NextCallGroup(messages: seq<Message>, index: nat, cursor: nat)
    requires index < cursor <= |messages| && OpensGroup(messages[index])
    requires forall k | index < k < cursor :: messages[k].ToolResult? && messages[k].callId in IdsOf(messages[index].toolCalls)
    requires cursor < |messages| ==> !(messages[cursor].ToolResult? && messages[cursor].callId in IdsOf(messages[index].toolCalls))
    ensures var complete := ResultIds(messages[index + 1..cursor]) == IdsOf(messages[index].toolCalls);
            Groups(messages[index..], index) == Prepend([Group(index, cursor, complete)], Groups(messages[cursor..], cursor))
  {
    hide IdsOf, ResultIds, Groups, LeadingResults;
    var tail := messages[index..];
    assert tail[1..] == messages[index + 1..];
    LeadingResultsExact(tail[1..], IdsOf(messages[index].toolCalls), cursor - index - 1);
    GroupsOpen(messages, index, cursor - index);
    assert messages[index..cursor][1..] == messages[index + 1..cursor];
  }

  lemma {:induction false} NextSingle(messages: seq<Message>, index: nat)
    requires index < |messages| && !OpensGroup(messages[index]) && !HasToolRole(messages[index])
    ensures Groups(messages[index..], index) == Prepend([Group(index, index + 1, true)], Groups(messages[index + 1..], index + 1))
  {
    assert messages[index..][1..] == messages[index + 1..];
  }

  /** `_group_messages`: a cursor walks over the messages. */
  method GroupMessages(messages: seq<Message>) returns (r: Option<seq<Group>>)
    ensures r == Groups(messages, 0)
  {
    var groups: seq<Group> := [];
    var index := 0;
    assert messages[0..] == messages;
    PrependNothing(Groups(messages, 0));
    while index < |messages|
      invariant 0 <= index <= |messages|
      invariant Groups(messages, 0) == Prepend(groups, Groups(messages[index..], index))
      decreases |messages| - index
    {
      if OpensGroup(messages[index]) {
        var cursor, complete := CallGroup(messages, index);
        NextCallGroup(messages, index, cursor);
        PrependMore(groups, Group(index, cursor, complete), Groups(messages[cursor..], cursor));
        groups := groups + [Group(index, cursor, complete)];
        index := cursor;
      } else if HasToolRole(messages[index]) {
        return None;
      } else {
        NextSingle(messages, index);
        PrependMore(groups, Group(index, index + 1, true), Groups(messages[index + 1..], index + 1));
        groups := groups + [Group(index, index + 1, true)];
        index := index + 1;
      }
    }
    assert groups + [] == groups;
    return Some(groups);
  }

  /** The inner loop: the results of the calls at `index`, and whether they answer every call. */
  method CallGroup(messages: seq<Message>, index: nat) returns (cursor: nat, complete: bool)
    requires index < |messages| && OpensGroup(messages[index])
    ensures index < cursor <= |messages|
    ensures forall k | index < k < cursor :: messages[k].ToolResult? && messages[k].callId in IdsOf(messages[index].toolCalls)
    ensures cursor < |messages| ==> !(messages[cursor].ToolResult? && messages[cursor].callId in IdsOf(messages[index].toolCalls))
    ensures complete == (ResultIds(messages[index + 1..cursor]) == IdsOf(messages[index].toolCalls))
  {
    var expected := IdsOf(messages[index].toolCalls);
    var observed: set<string> := {};
    cursor := index + 1;
    while cursor < |messages| && messages[cursor].ToolResult? && messages[cursor].callId in expected
      invariant index < cursor <= |messages|
      invariant observed == ResultIds(messages[index + 1..cursor])
      invariant forall k | index < k < cursor :: messages[k].ToolResult? && messages[k].callId in expected
    {
      observed := observed + {messages[cursor].callId};
      ResultIdsSnoc(messages[index + 1..cursor], messages[cursor]);
      assert messages[index + 1..cursor] + [messages[cursor]] == messages[index + 1..cursor + 1];
      cursor := cursor + 1;
    }
    complete := observed == expected;
  }

  lemma {:induction false} ResultIdsSnoc(messages: seq<Message>, m: Message)
    requires m.ToolResult?
    ensures ResultIds(messages + [m]) == ResultIds(messages) + {m.callId}
  {
    var all := messages + [m];
    assert forall k | 0 <= k < |messages| :: all[k] == messages[k];
    assert all[|messages|] == m;
  }

  /** The signatures of the marked groups that have tool results. */
  ghost predicate SeenOf(messages: seq<Message>, groups: seq<Group>, chosen: seq<bool>, seen: set<seq<(string, Content)>>)
    requires |chosen| == |groups| && InRange(messages, groups)
  {
    && (forall k | 0 <= k < |groups| && chosen[k] && GroupSignature(messages, groups[k]) != [] :: GroupSignature(messages, groups[k]) in seen)
    && (forall x | x in seen :: x != [] && exists k | 0 <= k < |groups| :: chosen[k] && GroupSignature(messages, groups[k]) == x)
  }

  lemma {:induction false} SeenMeansRepeated(messages: seq<Message>, groups: seq<Group>, chosen: seq<bool>, seen: set<seq<(string, Content)>>, g: nat)
    requires |chosen| == |groups| && InRange(messages, groups) && g < |groups| && !chosen[g] && SeenOf(messages, groups, chosen, seen)
    ensures Repeats(messages, groups, chosen, g)
            <==> GroupSignature(messages, groups[g]) != [] && GroupSignature(messages, groups[g]) in seen
  {
    hide GroupSignature;
  }

  lemma {:induction false} SeenGrows(messages: seq<Message>, groups: seq<Group>, chosen: seq<bool>, seen: set<seq<(string, Content)>>, g: nat)
    requires |chosen| == |groups| && InRange(messages, groups) && g < |groups| && SeenOf(messages, groups, chosen, seen)
    ensures SeenOf(messages, groups, chosen[g := true],
                   if GroupSignature(messages, groups[g]) != [] then seen + {GroupSignature(messages, groups[g])} else seen)
  {
    hide GroupSignature;
    var after := chosen[g := true];
    forall x | x in seen
      ensures exists k | 0 <= k < |groups| :: after[k] && GroupSignature(messages, groups[k]) == x
    {
      var k :| 0 <= k < |groups| && chosen[k] && GroupSignature(messages, groups[k]) == x;
      assert after[k];
    }
    assert after[g];
  }

  method SeenSignatures(messages: seq<Message>, groups: seq<Group>, chosen: seq<bool>) returns (seen: set<seq<(string, Content)>>)
    requires |chosen| == |groups| && InRange(messages, groups)
    ensures SeenOf(messages, groups, chosen, seen)
  {
    hide GroupSignature;
    seen := {};
    var i := 0;
    while i < |groups|
      invariant 0 <= i <= |groups|
      invariant forall k | 0 <= k < i && chosen[k] && GroupSignature(messages, groups[k]) != [] :: GroupSignature(messages, groups[k]) in seen
      invariant forall x | x in seen :: x != [] && exists k | 0 <= k < |groups| :: chosen[k] && GroupSignature(messages, groups[k]) == x
    {
      if chosen[i] && GroupSignature(messages, groups[i]) != [] {
        seen := seen + {GroupSignature(messages, groups[i])};
      }
      i := i + 1;
    }
  }

  /** `apply`: the pinned groups first, then the others newest first while they fit. */
  method Apply(est: Estimator, s: Snapshot, budget: int) returns (r: Trimming)
    requires est.Valid() && s.Valid()
    ensures r == Trim(est, s, budget)
  {
    hide Greedy, Tokens, GroupSignature, Repeats, Mandatory, Groups, Cut;
    if budget < 1 {
      return InvalidBudget;
    }
    if s.estimatedTokens <= budget {
      return Trimmed(s);
    }
    var found := GroupMessages(s.messages);
    if found.None? {
      return OrphanResult;
    }
    var groups := found.value;
    GroupsFit(s.messages);
    var must := Mandatory(s, groups, 0);
    var tokens := Tokens(est, s.messages, groups, must);
    if tokens > budget {
      return if true in must then PinnedContextOverflow(tokens) else ContextBudgetOverflow(tokens);
    }
    var selected := must;
    var seen := SeenSignatures(s.messages, groups, selected);
    var i := |groups|;
    while i > 0
      invariant 0 <= i <= |groups| == |selected|
      invariant SeenOf(s.messages, groups, selected, seen)
      invariant Greedy(est, s.messages, groups, budget, selected, i) == Greedy(est, s.messages, groups, budget, must, |groups|)
      invariant Tokens(est, s.messages, groups, selected) <= budget
    {
      i := i - 1;
      GreedyStep(est, s.messages, groups, budget, selected, i + 1);
      if selected[i] || !groups[i].complete {
        continue;
      }
      var signature := GroupSignature(s.messages, groups[i]);
      SeenMeansRepeated(s.messages, groups, selected, seen, i);
      if signature != [] && signature in seen {
        continue;
      }
      if Tokens(est, s.messages, groups, selected[i := true]) <= budget {
        SeenGrows(s.messages, groups, selected, seen, i);
        selected := selected[i := true];
        if signature != [] {
          seen := seen + {signature};
        }
      }
    }
    GreedyDone(est, s.messages, groups, budget, selected);
    tokens := Tokens(est, s.messages, groups, selected);
    if tokens > budget {
      assert false; // the second overflow check never fires
    }
    return Constructed(Cut(est, s, groups, selected));
  }

  lemma {:induction false} GreedyStep(est: Estimator, messages: seq<Message>, groups: seq<Group>, budget: int, chosen: seq<bool>, i: nat)
    requires est.Valid() && |chosen| == |groups| && 0 < i <= |groups| && InRange(messages, groups)
    ensures Greedy(est, messages, groups, budget, chosen, i)
         == Greedy(est, messages, groups, budget,
                   if Takes(est, messages, groups, budget, chosen, i - 1) then chosen[i - 1 := true] else chosen, i - 1)
  {
    hide Takes;
  }

  lemma {:induction false} GreedyDone(est: Estimator, messages: seq<Message>, groups: seq<Group>, budget: int, chosen: seq<bool>)
    requires est.Valid() && |chosen| == |groups| && InRange(messages, groups)
    ensures Greedy(est, messages, groups, budget, chosen, 0) == chosen
  {
  }
}
