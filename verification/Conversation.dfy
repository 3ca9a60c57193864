/** When a message list is a well-formed request: every tool call of an assistant message is answered
    once, directly after it and in call order. */
module Conversation {
  import opened Events
  import opened Projection

  /** What awaits an answer after one more message; None when the message does not fit. */
  function Fit(awaited: seq<ToolCall>, m: Message): Option<seq<ToolCall>> {
    match m
    case Plain(_, _) => if awaited == [] then Some([]) else None
    case FromAssistant(_, calls) => if awaited == [] then Some(calls) else None
    case ToolResult(id, name, _, _) =>
      if awaited != [] && awaited[0].id == id && awaited[0].name == name then Some(awaited[1..]) else None
  }

  /** The calls that still await their result, in order. */
  function Awaiting(messages: seq<Message>): Option<seq<ToolCall>> {
    if messages == [] then Some([])
    else
      var before := Awaiting(messages[..|messages| - 1]);
      if before.None? then None else Fit(before.value, messages[|messages| - 1])
  }

  predicate WellFormed(messages: seq<Message>) {
    Awaiting(messages) == Some([])
  }

  lemma {:induction false} AwaitingSnoc(messages: seq<Message>, m: Message)
    ensures Awaiting(messages + [m]) == if Awaiting(messages).None? then None else Fit(Awaiting(messages).value, m)
  {
    assert (messages + [m])[..|messages + [m]| - 1] == messages;
  }

  /* ---------------------------------------------------------------- well-formed requests, read off the messages */

  /** The message at `j` answers the call. */
  predicate Answers(messages: seq<Message>, j: nat, call: ToolCall) {
    j < |messages| && messages[j].ToolResult? && messages[j].callId == call.id && messages[j].name == call.name
  }

  /** Calls of the message at `i`. */
  function CallsAt(messages: seq<Message>, i: nat): seq<ToolCall> {
    if i < |messages| && messages[i].FromAssistant? then messages[i].toolCalls else []
  }

  /** The k-th message after one with calls answers its k-th call, as far as there are messages. */
  predicate AnsweredInPlace(messages: seq<Message>) {
    forall i, k | 0 <= i < |messages| && 0 <= k < |CallsAt(messages, i)| && i + 1 + k < |messages| ::
      Answers(messages, i + 1 + k, CallsAt(messages, i)[k])
  }

  /** The message at `j` is as near to the one at `i` as its calls reach. */
  predicate Reaches(messages: seq<Message>, i: nat, j: nat) {
    i < j <= i + |CallsAt(messages, i)|
  }

  /** Every result stands where some message's calls reach. */
  predicate NoneAstray(messages: seq<Message>) {
    forall j | 0 <= j < |messages| && messages[j].ToolResult? :: exists i: nat | i < j :: Reaches(messages, i, j)
  }

  /** The calls that still await their answer belong to the one message whose calls reach behind the end. */
  ghost predicate AwaitedFrom(messages: seq<Message>, awaited: seq<ToolCall>) {
    && (forall i: nat | Reaches(messages, i, |messages|) :: awaited == CallsAt(messages, i)[|messages| - i - 1..])
    && (awaited != [] ==> exists i: nat :: Reaches(messages, i, |messages|))
  }

  lemma {:induction false} InPlaceInFront(messages: seq<Message>, front: seq<Message>)
    requires messages != [] && front == messages[..|messages| - 1]
    ensures AnsweredInPlace(messages) ==> AnsweredInPlace(front)
    ensures NoneAstray(messages) ==> NoneAstray(front)
    ensures forall i: nat, j: nat | i < |front| :: Reaches(messages, i, j) <==> Reaches(front, i, j)
  {
    assert forall i: nat | i < |front| :: CallsAt(messages, i) == CallsAt(front, i);
    if AnsweredInPlace(messages) {
      forall i, k | 0 <= i < |front| && 0 <= k < |CallsAt(front, i)| && i + 1 + k < |front|
        ensures Answers(front, i + 1 + k, CallsAt(front, i)[k])
      {
        assert Answers(messages, i + 1 + k, CallsAt(messages, i)[k]);
      }
    }
    if NoneAstray(messages) {
      forall j | 0 <= j < |front| && front[j].ToolResult? ensures exists i: nat | i < j :: Reaches(front, i, j) {
        assert messages[j].ToolResult?;
        var i: nat :| i < j && Reaches(messages, i, j);
        assert Reaches(front, i, j);
      }
    }
  }

  lemma {:induction false} NothingReaches(messages: seq<Message>)
    requires AwaitedFrom(messages, [])
    ensures forall i: nat :: !Reaches(messages, i, |messages|)
  {
  }

  lemma {:induction false} StillInPlace(front: seq<Message>, m: Message)
    requires AnsweredInPlace(front)
    requires forall i: nat | Reaches(front, i, |front|) :: Answers(front + [m], |front|, CallsAt(front, i)[|front| - i - 1])
    ensures AnsweredInPlace(front + [m])
  {
    var all := front + [m];
    forall i, k | 0 <= i < |all| && 0 <= k < |CallsAt(all, i)| && i + 1 + k < |all| ensures Answers(all, i + 1 + k, CallsAt(all, i)[k]) {
      assert CallsAt(all, i) == CallsAt(front, i);
      if i + 1 + k == |front| {
        assert Reaches(front, i, |front|);
      } else {
        assert Answers(front, i + 1 + k, CallsAt(front, i)[k]);
      }
    }
  }

  lemma {:induction false} StillNoneAstray(front: seq<Message>, m: Message)
    requires NoneAstray(front) && (m.ToolResult? ==> exists i: nat | i < |front| :: Reaches(front, i, |front|))
    ensures NoneAstray(front + [m])
  {
    var all := front + [m];
    InPlaceInFront(all, front);
    forall j | 0 <= j < |all| && all[j].ToolResult? ensures exists i: nat | i < j :: Reaches(all, i, j) {
      if j < |front| {
        assert front[j].ToolResult?;
        var i: nat :| i < j && Reaches(front, i, j);
        assert Reaches(all, i, j);
      } else {
        var i: nat :| i < j && Reaches(front, i, j);
        assert Reaches(all, i, j);
      }
    }
  }

  /** A message is out of place when it does not answer the call that reaches it. */
  lemma {:induction false} OutOfPlace(front: seq<Message>, m: Message, i: nat)
    requires Reaches(front, i, |front|) && AnsweredInPlace(front + [m])
    ensures Answers(front + [m], |front|, CallsAt(front, i)[|front| - i - 1])
  {
    assert CallsAt(front + [m], i) == CallsAt(front, i);
    assert Answers(front + [m], i + 1 + (|front| - i - 1), CallsAt(front + [m], i)[|front| - i - 1]);
  }

  lemma {:induction false} FitsInPlace(front: seq<Message>, m: Message, awaited: seq<ToolCall>)
    requires AnsweredInPlace(front) && NoneAstray(front) && AwaitedFrom(front, awaited)
    ensures Fit(awaited, m).Some? <==> AnsweredInPlace(front + [m]) && NoneAstray(front + [m])
  {
    hide AnsweredInPlace, NoneAstray;
    var all := front + [m];
    InPlaceInFront(all, front);
    if awaited == [] {
      NothingReaches(front);
      if m.ToolResult? {
        Astray(front, m);
      } else {
        StillInPlace(front, m);
        StillNoneAstray(front, m);
      }
    } else {
      var i: nat :| Reaches(front, i, |front|);
      if Fit(awaited, m).Some? {
        StillInPlace(front, m);
        StillNoneAstray(front, m);
      } else if AnsweredInPlace(all) {
        OutOfPlace(front, m, i);
        assert awaited[0] == CallsAt(front, i)[|front| - i - 1];
      }
    }
  }

  lemma {:induction false} Astray(front: seq<Message>, m: Message)
    requires m.ToolResult? && forall i: nat :: !Reaches(front, i, |front|)
    ensures !NoneAstray(front + [m])
  {
    var all := front + [m];
    InPlaceInFront(all, front);
    assert all[|front|].ToolResult?;
  }

  lemma {:induction false} AwaitedNext(front: seq<Message>, m: Message, awaited: seq<ToolCall>)
    requires AwaitedFrom(front, awaited) && Fit(awaited, m).Some?
    ensures AwaitedFrom(front + [m], Fit(awaited, m).value)
  {
    var all, n := front + [m], |front|;
    InPlaceInFront(all, front);
    if awaited == [] {
      NothingReaches(front);
    }
    forall i: nat | Reaches(all, i, n + 1) ensures Fit(awaited, m).value == CallsAt(all, i)[n - i..] {
      if i < n {
        assert Reaches(front, i, n) && CallsAt(all, i) == CallsAt(front, i);
      }
    }
    if Fit(awaited, m).value != [] {
      if m.ToolResult? {
        var i: nat :| Reaches(front, i, n);
        assert CallsAt(all, i) == CallsAt(front, i) && Reaches(all, i, n + 1);
      } else {
        assert Reaches(all, n, n + 1);
      }
    }
  }

  lemma {:induction false} AwaitingExactly(messages: seq<Message>)
    ensures Awaiting(messages).Some? <==> AnsweredInPlace(messages) && NoneAstray(messages)
    ensures Awaiting(messages).Some? ==> AwaitedFrom(messages, Awaiting(messages).value)
  {
    hide AnsweredInPlace, NoneAstray, AwaitedFrom, Fit;
    if messages == [] {
      NothingAwaited();
    } else {
      var front, m := messages[..|messages| - 1], messages[|messages| - 1];
      assert front + [m] == messages;
      AwaitingExactly(front);
      InPlaceInFront(messages, front);
      if Awaiting(front).Some? {
        FitsInPlace(front, m, Awaiting(front).value);
        if Fit(Awaiting(front).value, m).Some? {
          AwaitedNext(front, m, Awaiting(front).value);
        }
      }
    }
  }

  lemma {:induction false} NothingAwaited()
    ensures AnsweredInPlace([]) && NoneAstray([]) && AwaitedFrom([], [])
  {
  }

  /** A request is well-formed if and only if every message with calls is followed directly by their answers, in call order and
      under the called names, and there are no other results. */
  lemma {:induction false} WellFormedExactly(messages: seq<Message>)
    ensures WellFormed(messages)
       <==> && (forall i, k | 0 <= i < |messages| && 0 <= k < |CallsAt(messages, i)| :: Answers(messages, i + 1 + k, CallsAt(messages, i)[k]))
            && NoneAstray(messages)
  {
    hide NoneAstray, Awaiting;
    AwaitingExactly(messages);
    if WellFormed(messages) {
      NothingReaches(messages);
      forall i, k | 0 <= i < |messages| && 0 <= k < |CallsAt(messages, i)| ensures Answers(messages, i + 1 + k, CallsAt(messages, i)[k]) {
        assert !Reaches(messages, i, |messages|);
      }
    } else if Awaiting(messages).Some? {
      var i: nat :| Reaches(messages, i, |messages|);
      assert !Answers(messages, i + 1 + (|messages| - i - 1), CallsAt(messages, i)[|messages| - i - 1]);
    }
  }

  /* ---------------------------------------------------------------- call ids over a whole run */

  predicate HasCall(calls: seq<ToolCall>, id: string) {
    exists k | 0 <= k < |calls| :: calls[k].id == id
  }

  /** Some response called for this id. */
  predicate Called(records: seq<AssistantRecord>, id: string) {
    records != [] && (HasCall(records[|records| - 1].toolCalls, id) || Called(records[..|records| - 1], id))
  }

  /** No response reuses a call id of an earlier one. */
  predicate FreshIds(records: seq<AssistantRecord>) {
    records == []
    || (FreshIds(records[..|records| - 1])
        && NoneCalled(records[..|records| - 1], records[|records| - 1].toolCalls))
  }

  predicate NoneCalled(records: seq<AssistantRecord>, calls: seq<ToolCall>) {
    forall k | 0 <= k < |calls| :: !Called(records, calls[k].id)
  }

  lemma {:induction false} RecordsSnoc(records: seq<AssistantRecord>, r: AssistantRecord, id: string)
    ensures Called(records + [r], id) <==> Called(records, id) || HasCall(r.toolCalls, id)
    ensures FreshIds(records + [r])
            <==> FreshIds(records) && NoneCalled(records, r.toolCalls)
  {
    assert (records + [r])[..|records + [r]| - 1] == records;
  }

  lemma {:induction false} CalledExactly(records: seq<AssistantRecord>, id: string)
    ensures Called(records, id) <==> exists a | 0 <= a < |records| :: HasCall(records[a].toolCalls, id)
  {
    hide HasCall;
    if records != [] {
      CalledExactly(records[..|records| - 1], id);
    }
  }

  /** Ids are fresh if and only if no two responses have a call id in common. */
  lemma {:induction false} FreshExactly(records: seq<AssistantRecord>)
    ensures FreshIds(records)
       <==> forall a, b | 0 <= a < b < |records| :: forall id :: !(HasCall(records[a].toolCalls, id) && HasCall(records[b].toolCalls, id))
  {
    if records != [] {
      var front, last := records[..|records| - 1], records[|records| - 1];
      FreshExactly(front);
      forall id ensures Called(front, id) <==> exists a | 0 <= a < |front| :: HasCall(front[a].toolCalls, id) {
        CalledExactly(front, id);
      }
      CommonCall(front, last.toolCalls);
    }
  }

  lemma {:induction false} CommonCall(records: seq<AssistantRecord>, calls: seq<ToolCall>)
    ensures NoneCalled(records, calls) <==> forall id | HasCall(calls, id) :: !Called(records, id)
  {
    hide Called;
    if NoneCalled(records, calls) {
      forall id | HasCall(calls, id) ensures !Called(records, id) {
        var k :| 0 <= k < |calls| && calls[k].id == id;
      }
    } else {
      var k :| 0 <= k < |calls| && Called(records, calls[k].id);
      assert HasCall(calls, calls[k].id);
    }
  }

  lemma {:induction false} FoundCalled(records: seq<AssistantRecord>, key: StepKey, id: string)
    requires FindAssistant(records, key).Some? && HasCall(FindAssistant(records, key).value.toolCalls, id)
    ensures Called(records, id)
  {
    if records[|records| - 1].key != key {
      FoundCalled(records[..|records| - 1], key, id);
    }
  }

  /* ---------------------------------------------------------------- the conversation of a run */

  /** The calls of the open step's response. */
  function CurrentCalls(p: RunProjection): seq<ToolCall> {
    if p.HasOpenStep() && p.CurrentAssistant().Some? then p.CurrentAssistant().value.toolCalls else []
  }

  function Outstanding(p: RunProjection, base: nat, cursor: nat): seq<ToolCall> {
    if 0 <= cursor - base <= |CurrentCalls(p)| then CurrentCalls(p)[cursor - base..] else []
  }

  predicate IsFinished(tools: seq<ToolRecord>, id: string) {
    exists i | 0 <= i < |tools| :: tools[i].callId == id && tools[i].IsDone()
  }

  predicate NoneKnown(calls: seq<ToolCall>, tools: seq<ToolRecord>) {
    forall k | 0 <= k < |calls| :: !KnowsTool(tools, calls[k].id)
  }

  /** The request can no longer become well-formed: some awaited call has its result already. */
  predicate Blocked(messages: seq<Message>, tools: seq<ToolRecord>) {
    Awaiting(messages).Some? ==>
      exists k | 0 <= k < |Awaiting(messages).value| :: IsFinished(tools, Awaiting(messages).value[k].id)
  }

  predicate ToolsCalled(records: seq<AssistantRecord>, tools: seq<ToolRecord>) {
    forall i | 0 <= i < |tools| :: Called(records, tools[i].callId)
  }

  predicate IsCovered(tools: seq<ToolRecord>, current: seq<ToolCall>, id: string) {
    KnowsTool(tools, id) || HasCall(current, id)
  }

  /** Every call of every response has a tool, except that those of the open step may still lack one. */
  ghost predicate CallsCovered(records: seq<AssistantRecord>, tools: seq<ToolRecord>, current: seq<ToolCall>) {
    forall id {:trigger IsCovered(tools, current, id)} | Called(records, id) :: IsCovered(tools, current, id)
  }

  /** With fresh ids the unanswered calls of the open step are what the conversation awaits; a reused id blocks it. */
  ghost predicate ConversationOk(p: RunProjection, base: nat, cursor: nat) {
    && base <= cursor <= |p.tools|
    && ToolsCalled(p.assistants, p.tools)
    && CallsCovered(p.assistants, p.tools, CurrentCalls(p))
    && if FreshIds(p.assistants)
       then Awaiting(p.messages) == Some(Outstanding(p, base, cursor)) && NoneKnown(CurrentCalls(p), p.tools[..base])
       else Blocked(p.messages, p.tools)
  }

  /* ---------------------------------------------------------------- what events do to it */

  lemma {:induction false} SameTalk(p: RunProjection, q: RunProjection, base: nat, cursor: nat)
    requires ConversationOk(p, base, cursor)
    requires q.turn == p.turn && q.step == p.step && q.completed == p.completed
    requires q.assistants == p.assistants && q.tools == p.tools && q.messages == p.messages
    ensures ConversationOk(q, base, cursor)
  {
    hide Awaiting, FreshIds, Called, Blocked, ToolsCalled, CallsCovered, NoneKnown;
  }

  /** Between steps nothing is outstanding. */
  lemma {:induction false} IdleTalk(p: RunProjection, q: RunProjection, base: nat, cursor: nat)
    requires ConversationOk(p, base, cursor) && CurrentCalls(p) == [] && CurrentCalls(q) == []
    requires base == cursor == |p.tools|
    requires q.assistants == p.assistants && q.tools == p.tools && q.messages == p.messages
    ensures ConversationOk(q, |q.tools|, |q.tools|)
  {
    hide Awaiting, FreshIds, Called, Blocked, ToolsCalled, CallsCovered, CurrentCalls;
  }

  /** A text message arrives between steps. */
  lemma {:induction false} PlainTalk(p: RunProjection, q: RunProjection, role: Role, content: string, base: nat, cursor: nat)
    requires ConversationOk(p, base, cursor) && CurrentCalls(p) == [] && CurrentCalls(q) == []
    requires q.assistants == p.assistants && q.tools == p.tools && q.messages == p.messages + [Plain(role, content)]
    ensures ConversationOk(q, base, cursor)
  {
    hide FreshIds, Called, ToolsCalled, CallsCovered, CurrentCalls;
    AwaitingSnoc(p.messages, Plain(role, content));
  }

  /** All calls of the open step have a finished tool, and the step is completed. */
  lemma {:induction false} CloseTalk(p: RunProjection, q: RunProjection, base: nat, cursor: nat)
    requires ConversationOk(p, base, cursor) && CurrentCalls(q) == []
    requires q.assistants == p.assistants && q.tools == p.tools && q.messages == p.messages
    requires cursor == |p.tools|
    requires forall k | 0 <= k < |CurrentCalls(p)| :: KnowsTool(p.tools, CurrentCalls(p)[k].id)
    requires NoneKnown(CurrentCalls(p), p.tools[..base]) ==> cursor - base == |CurrentCalls(p)|
    ensures ConversationOk(q, |q.tools|, |q.tools|)
  {
    hide Awaiting, FreshIds, Called, Blocked, ToolsCalled, CurrentCalls;
    if FreshIds(p.assistants) {
      assert Outstanding(p, base, cursor) == [];
    }
    forall id | Called(q.assistants, id) ensures IsCovered(q.tools, CurrentCalls(q), id) {
      assert IsCovered(p.tools, CurrentCalls(p), id);
      if HasCall(CurrentCalls(p), id) {
        var k :| 0 <= k < |CurrentCalls(p)| && CurrentCalls(p)[k].id == id;
      }
    }
  }

  /** A response arrives in an open step that has none; every tool is finished. */
  lemma {:induction false} ResponseTalk(p: RunProjection, q: RunProjection, r: AssistantRecord)
    requires ConversationOk(p, |p.tools|, |p.tools|) && CurrentCalls(p) == [] && CurrentCalls(q) == r.toolCalls
    requires forall i | 0 <= i < |p.tools| :: p.tools[i].IsDone()
    requires q.assistants == p.assistants + [r] && q.tools == p.tools
    requires q.messages == p.messages + [FromAssistant(r.text, r.toolCalls)]
    ensures ConversationOk(q, |p.tools|, |p.tools|)
  {
    hide FreshIds, Called, CurrentCalls, Awaiting;
    AwaitingSnoc(p.messages, FromAssistant(r.text, r.toolCalls));
    forall i | 0 <= i < |p.tools| ensures Called(q.assistants, p.tools[i].callId) {
      RecordsSnoc(p.assistants, r, p.tools[i].callId);
    }
    forall id | Called(q.assistants, id) ensures IsCovered(q.tools, r.toolCalls, id) {
      assert IsCovered(p.tools, [], id) || !Called(p.assistants, id);
      RecordsSnoc(p.assistants, r, id);
    }
    RecordsSnoc(p.assistants, r, "");
    assert p.tools[..|p.tools|] == p.tools;
    if FreshIds(q.assistants) {
      forall k | 0 <= k < |r.toolCalls| ensures !KnowsTool(p.tools, r.toolCalls[k].id) {
        assert forall i | 0 <= i < |p.tools| :: Called(p.assistants, p.tools[i].callId);
      }
    } else if FreshIds(p.assistants) {
      var k :| 0 <= k < |r.toolCalls| && Called(p.assistants, r.toolCalls[k].id);
      assert IsCovered(p.tools, [], r.toolCalls[k].id);
      assert IsFinished(p.tools, r.toolCalls[k].id);
      assert Awaiting(q.messages) == Some(r.toolCalls);
    }
  }

  /** A call of the open step gets its tool. */
  lemma {:induction false} RequestTalk(p: RunProjection, q: RunProjection, t: ToolRecord, base: nat, cursor: nat)
    requires ConversationOk(p, base, cursor) && CurrentCalls(q) == CurrentCalls(p) && HasCall(CurrentCalls(p), t.callId)
    requires q.assistants == p.assistants && q.tools == p.tools + [t] && q.messages == p.messages
    ensures ConversationOk(q, base, cursor)
  {
    hide FreshIds, Called, Awaiting, HasCall;
    assert q.tools[..base] == p.tools[..base];
    CurrentCalled(p, t.callId);
    forall id | Called(q.assistants, id) ensures IsCovered(q.tools, CurrentCalls(q), id) {
      assert IsCovered(p.tools, CurrentCalls(p), id);
      if KnowsTool(p.tools, id) {
        var i :| 0 <= i < |p.tools| && p.tools[i].callId == id;
        assert q.tools[i] == p.tools[i];
      }
    }
    forall id | IsFinished(p.tools, id) ensures IsFinished(q.tools, id) {
      var i :| 0 <= i < |p.tools| && p.tools[i].callId == id && p.tools[i].IsDone();
      assert q.tools[i] == p.tools[i];
    }
  }

  lemma {:induction false} CurrentCalled(p: RunProjection, id: string)
    requires HasCall(CurrentCalls(p), id)
    ensures Called(p.assistants, id)
  {
    FoundCalled(p.assistants, p.OpenKey(), id);
  }

  /** The tool at the cursor changes its state; if it finishes, its result is the next message. */
  lemma {:induction false} CursorTalk(p: RunProjection, q: RunProjection, base: nat, cursor: nat, state: ToolState, output: Content)
    requires ConversationOk(p, base, cursor) && cursor < |p.tools| && CurrentCalls(q) == CurrentCalls(p)
    requires !p.tools[cursor].IsDone() && forall i | 0 <= i < |p.tools| && i != cursor :: p.tools[i].callId != p.tools[cursor].callId
    requires q.assistants == p.assistants && q.tools == p.tools[cursor := p.tools[cursor].(state := state)]
    requires var done := state.Succeeded? || state.Errored?;
             q.messages == p.messages + if done then [ToolResult(p.tools[cursor].callId, p.tools[cursor].name, output, state.Errored?)] else []
    requires NoneKnown(CurrentCalls(p), p.tools[..base]) ==>
               cursor - base < |CurrentCalls(p)| && CurrentCalls(p)[cursor - base].id == p.tools[cursor].callId
               && CurrentCalls(p)[cursor - base].name == p.tools[cursor].name
    ensures ConversationOk(q, base, if state.Succeeded? || state.Errored? then cursor + 1 else cursor)
  {
    hide FreshIds, Called, Awaiting, HasCall, CurrentCalls, Blocked;
    var t := p.tools[cursor];
    assert q.tools[..base] == p.tools[..base];
    forall id | Called(q.assistants, id) ensures IsCovered(q.tools, CurrentCalls(q), id) {
      assert IsCovered(p.tools, CurrentCalls(p), id);
      if KnowsTool(p.tools, id) {
        var i :| 0 <= i < |p.tools| && p.tools[i].callId == id;
        assert q.tools[i].callId == id;
      }
    }
    forall id | IsFinished(p.tools, id) ensures IsFinished(q.tools, id) && id != t.callId {
      var i :| 0 <= i < |p.tools| && p.tools[i].callId == id && p.tools[i].IsDone();
      assert q.tools[i] == p.tools[i];
    }
    if state.Succeeded? || state.Errored? {
      AwaitingSnoc(p.messages, ToolResult(t.callId, t.name, output, state.Errored?));
      if !FreshIds(p.assistants) {
        StillBlocked(p.messages, p.tools, q.tools, ToolResult(t.callId, t.name, output, state.Errored?));
      }
    } else {
      assert p.messages + [] == p.messages;
      if !FreshIds(p.assistants) {
        BlockedGrows(p.messages, p.tools, q.tools);
      }
    }
  }

  lemma {:induction false} BlockedGrows(messages: seq<Message>, tools: seq<ToolRecord>, tools': seq<ToolRecord>)
    requires Blocked(messages, tools) && forall id | IsFinished(tools, id) :: IsFinished(tools', id)
    ensures Blocked(messages, tools')
  {
    hide Awaiting, IsFinished;
  }

  lemma {:induction false} StillBlocked(messages: seq<Message>, tools: seq<ToolRecord>, tools': seq<ToolRecord>, m: Message)
    requires Blocked(messages, tools) && m.ToolResult? && !IsFinished(tools, m.callId)
    requires forall id | IsFinished(tools, id) :: IsFinished(tools', id)
    ensures Blocked(messages + [m], tools')
  {
    hide Awaiting, IsFinished;
    AwaitingSnoc(messages, m);
    if Awaiting(messages + [m]).Some? {
      var awaited := Awaiting(messages).value;
      var k :| 0 <= k < |awaited| && IsFinished(tools, awaited[k].id);
      assert k != 0;
      assert awaited[1..][k - 1] == awaited[k];
      assert IsFinished(tools', Awaiting(messages + [m]).value[k - 1].id);
    }
  }
}
