/** The driver's next action, read off the raw log: what each action needs, and that nothing else leads to it. */
module NextActions {
  import opened Events
  import opened Projection
  import opened ToolPipeline
  import opened Runtime
  import opened LogLaws
  import opened ProjectedState

  /* ---------------------------------------------------------------- budgets */

  function TokensOf(e: Event): int {
    if !e.AssistantMessage? then 0
    else (if e.inputTokens.Some? then e.inputTokens.value else 0) + (if e.outputTokens.Some? then e.outputTokens.value else 0)
  }

  /** All tokens, read and written, of all responses. */
  function TokensIn(log: seq<Event>): int {
    if log == [] then 0 else TokensIn(log[..|log| - 1]) + TokensOf(log[|log| - 1])
  }

  /** All calls of all responses. */
  function CallsIn(log: seq<Event>): nat {
    if log == [] then 0
    else CallsIn(log[..|log| - 1]) + (if log[|log| - 1].AssistantMessage? then |log[|log| - 1].toolCalls| else 0)
  }

  lemma {:induction false} CountsRead(log: seq<Event>)
    requires Project(log).Some?
    ensures TokenCount(Project(log).value.assistants) == TokensIn(log)
    ensures CallCount(Project(log).value.assistants) == CallsIn(log)
  {
    hide Accepts, Advance, Project, TokenCount, CallCount;
    if log == [] {
      NothingCounted();
    } else {
      var front, e := log[..|log| - 1], log[|log| - 1];
      ProjectLast(log);
      CountsRead(front);
      var p := Project(front).value;
      RecordsAfter(p, |log| == 1, e);
      if e.AssistantMessage? {
        CountsSnoc(p.assistants, AssistantRecord(StepKey(e.turn, e.step), e.text, e.stop, e.toolCalls, e.inputTokens, e.outputTokens));
      }
    }
  }

  lemma {:induction false} NothingCounted()
    ensures Project([]) == Some(INITIAL) && TokenCount([]) == 0 && CallCount([]) == 0
  {
  }

  /** The budget that is exceeded: tokens come first, and each sum is over the whole log. */
  lemma {:induction false} BudgetExactly(limits: Limits, log: seq<Event>)
    requires Project(log).Some?
    ensures BudgetFailure(limits, Project(log).value)
         == if TokensIn(log) > limits.maxTokens then Some(TokenBudget(TokensIn(log), limits.maxTokens))
            else if CallsIn(log) > limits.maxToolCalls then Some(ToolCallBudget(CallsIn(log), limits.maxToolCalls))
            else None
  {
    hide Project, TokenCount, CallCount;
    CountsRead(log);
  }

  /* ---------------------------------------------------------------- decisions */

  predicate DecidesAt(log: seq<Event>, k: nat, id: string, approved: bool) {
    k < |log| && log[k] == ApprovalDecided(ApprovalOf(id), approved)
  }

  predicate AsksBefore(log: seq<Event>, k: nat, id: string) {
    exists j | 0 <= j < k :: j < |log| && log[j] == ApprovalRequested(ApprovalOf(id), id)
  }

  /** The decision at `k` is the first one after a request. */
  predicate FirstAt(log: seq<Event>, k: nat, id: string, approved: bool) {
    && DecidesAt(log, k, id, approved) && AsksBefore(log, k, id)
    && forall j | 0 <= j < k && AsksBefore(log, j, id) :: !DecidesAt(log, j, id, true) && !DecidesAt(log, j, id, false)
  }

  /** The decision at `k` is the last one. */
  predicate LastAt(log: seq<Event>, k: nat, id: string, approved: bool) {
    DecidesAt(log, k, id, approved) && forall j | k < j < |log| :: !DecidesAt(log, j, id, true) && !DecidesAt(log, j, id, false)
  }

  lemma {:induction false} AsksInPrefix(log: seq<Event>, k: nat, id: string)
    requires k <= |log|
    ensures AsksBefore(log, k, id) <==> WasRequested(log[..k], id)
  {
    if AsksBefore(log, k, id) {
      var j :| 0 <= j < k && log[j] == ApprovalRequested(ApprovalOf(id), id);
      assert log[..k][j] == log[j];
    }
  }

  lemma {:induction false} NoDecision(id: string)
    ensures forall k: nat, b :: !DecidesAt([], k, id, b)
  {
  }

  lemma {:induction false} DecidesInFront(log: seq<Event>, front: seq<Event>, id: string)
    requires log != [] && front == log[..|log| - 1]
    ensures forall k: nat, b {:trigger DecidesAt(log, k, id, b)} ::
              DecidesAt(log, k, id, b)
              <==> DecidesAt(front, k, id, b) || (k == |front| && Decides(log[k], id) && log[k].approved == b)
    ensures forall k: nat, b :: DecidesAt(front, k, id, b) ==> k < |front|
  {
  }

  /** The loop's scan finds the first decision after a request, and nothing exactly when there is none. */
  lemma {:induction false} FirstDecisionExactly(log: seq<Event>, id: string) returns (at: nat)
    ensures match FirstDecision(log, id)
            case Some(approved) => FirstAt(log, at, id, approved)
            case None => forall k: nat | AsksBefore(log, k, id) :: !DecidesAt(log, k, id, true) && !DecidesAt(log, k, id, false)
  {
    hide WasRequested, AsksBefore, DecidesAt;
    if log == [] {
      NoDecision(id);
      at := 0;
    } else {
      var front := log[..|log| - 1];
      DecidesInFront(log, front, id);
      at := FirstDecisionExactly(front, id);
      forall k: nat | k <= |front| ensures AsksBefore(log, k, id) <==> AsksBefore(front, k, id) {
        AsksInPrefix(log, k, id);
        AsksInPrefix(front, k, id);
        assert log[..k] == front[..k];
      }
      AsksInPrefix(log, |front|, id);
      if FirstDecision(front, id).Some? {
        assert FirstDecision(log, id) == FirstDecision(front, id);
      } else {
        at := |front|;
      }
    }
  }

  /** The executor's scan finds the last decision, and nothing exactly when there is none. */
  lemma {:induction false} LastDecisionExactly(log: seq<Event>, id: string) returns (at: nat)
    ensures match LastDecision(log, id)
            case Some(approved) => LastAt(log, at, id, approved)
            case None => forall k: nat :: !DecidesAt(log, k, id, true) && !DecidesAt(log, k, id, false)
  {
    hide DecidesAt;
    if log == [] {
      NoDecision(id);
      at := 0;
    } else {
      var front := log[..|log| - 1];
      DecidesInFront(log, front, id);
      at := LastDecisionExactly(front, id);
      if Decides(log[|front|], id) {
        at := |front|;
      }
    }
  }

  /* ---------------------------------------------------------------- pending messages */

  predicate IsPending(log: seq<Event>, k: nat, target: InboxTarget) {
    k < |log| && log[k].InboxSubmitted? && log[k].target == target && !IsConsumed(log, log[k].messageId)
  }

  /** Ids of the messages for a boundary that are submitted among the first `n` events and not consumed in all of the log. */
  function PendingIn(log: seq<Event>, n: nat, target: InboxTarget): seq<string>
    requires n <= |log|
  {
    if n == 0 then [] else PendingIn(log, n - 1, target) + (if IsPending(log, n - 1, target) then [log[n - 1].messageId] else [])
  }

  lemma {:induction false} PendingSnoc(inbox: seq<InboxItem>, item: InboxItem, target: InboxTarget)
    ensures PendingIds(inbox + [item], target)
         == PendingIds(inbox, target) + (if !item.consumed && item.target == target then [item.messageId] else [])
  {
    if inbox != [] {
      PendingSnoc(inbox[1..], item, target);
      assert (inbox + [item])[1..] == inbox[1..] + [item];
    } else {
      assert ([] + [item])[1..] == [];
    }
  }

  lemma {:induction false} PendingPrefix(log: seq<Event>, n: nat, inbox: seq<InboxItem>, target: InboxTarget)
    requires n <= |log| && |inbox| == |Where(log[..n], IsSubmission)|
    requires forall j | 0 <= j < |inbox| :: ItemFrom(log, Where(log[..n], IsSubmission)[j], inbox[j])
    ensures PendingIds(inbox, target) == PendingIn(log, n, target)
  {
    hide Where, IsConsumed, PendingIds;
    if n == 0 {
      NothingPending(log, target);
    } else {
      assert log[..n] == log[..n - 1] + [log[n - 1]];
      WhereSnoc(log[..n - 1], log[n - 1], IsSubmission);
      if IsSubmission(log[n - 1]) {
        var front, item := inbox[..|inbox| - 1], inbox[|inbox| - 1];
        PendingPrefix(log, n - 1, front, target);
        PendingSnoc(front, item, target);
        assert front + [item] == inbox;
        assert ItemFrom(log, n - 1, item);
      } else {
        PendingPrefix(log, n - 1, inbox, target);
      }
    }
  }

  lemma {:induction false} NothingPending(log: seq<Event>, target: InboxTarget)
    ensures Where(log[..0], IsSubmission) == [] && PendingIds([], target) == []
  {
  }

  /** The pending messages of a boundary are those submitted for it and not consumed, in the order of submission. */
  lemma {:induction false} PendingExactly(log: seq<Event>, target: InboxTarget)
    requires Project(log).Some?
    ensures PendingIds(Project(log).value.inbox, target) == PendingIn(log, |log|, target)
  {
    hide Project, Where, HeadRead, StepsRead, ResponsesRead, ToolsRead, PendingIds;
    ProjectedParts(log);
    assert log[..|log|] == log;
    PendingPrefix(log, |log|, Project(log).value.inbox, target);
  }

  /* ---------------------------------------------------------------- the tool that is next */

  predicate InIndexOrder(tools: seq<ToolRecord>) {
    forall i, j | 0 <= i < j < |tools| :: tools[i].callIndex <= tools[j].callIndex
  }

  function FirstOpen(tools: seq<ToolRecord>): Option<ToolRecord> {
    if FirstUnfinished(tools) < |tools| then Some(tools[FirstUnfinished(tools)]) else None
  }

  lemma {:induction false} FirstOpenSnoc(tools: seq<ToolRecord>, t: ToolRecord)
    ensures FirstOpen(tools + [t]) == if FirstOpen(tools).Some? then FirstOpen(tools) else if t.IsDone() then None else Some(t)
  {
    var all, r := tools + [t], FirstUnfinished(tools);
    FirstUnfinishedFirst(tools);
    FirstUnfinishedFirst(all);
    assert forall i | 0 <= i < |tools| :: all[i] == tools[i];
    if r < |tools| {
      assert !all[r].IsDone() && FirstUnfinished(all) == r;
    } else if !t.IsDone() {
      assert !all[|tools|].IsDone() && FirstUnfinished(all) == |tools|;
    }
  }

  /** Of two unfinished tools the one with the smaller index, and the earlier one when the indexes are equal. */
  function Better(best: Option<ToolRecord>, t: ToolRecord): Option<ToolRecord> {
    if !t.IsDone() && (best.None? || t.callIndex < best.value.callIndex) then Some(t) else best
  }

  lemma {:induction false} InsertBounded(sorted: seq<ToolRecord>, t: ToolRecord, bound: int)
    requires t.callIndex <= bound && forall i | 0 <= i < |sorted| :: sorted[i].callIndex <= bound
    ensures forall i | 0 <= i < |InsertByIndex(sorted, t)| :: InsertByIndex(sorted, t)[i].callIndex <= bound
  {
    if !(sorted == [] || sorted[|sorted| - 1].callIndex <= t.callIndex) {
      InsertBounded(sorted[..|sorted| - 1], t, bound);
    }
  }

  lemma {:induction false} InsertedOpen(sorted: seq<ToolRecord>, t: ToolRecord)
    requires InIndexOrder(sorted)
    ensures InIndexOrder(InsertByIndex(sorted, t)) && FirstOpen(InsertByIndex(sorted, t)) == Better(FirstOpen(sorted), t)
  {
    hide FirstOpen;
    if sorted == [] || sorted[|sorted| - 1].callIndex <= t.callIndex {
      FirstOpenSnoc(sorted, t);
      FirstOpenIn(sorted);
    } else {
      var front, last := sorted[..|sorted| - 1], sorted[|sorted| - 1];
      InsertedOpen(front, t);
      InsertBounded(front, t, last.callIndex);
      FirstOpenSnoc(InsertByIndex(front, t), last);
      FirstOpenSnoc(front, last);
      assert front + [last] == sorted;
    }
  }

  lemma {:induction false} FirstOpenIn(tools: seq<ToolRecord>)
    ensures FirstOpen(tools).Some? ==> exists i | 0 <= i < |tools| :: tools[i] == FirstOpen(tools).value
  {
  }

  predicate IsOpenAt(tools: seq<ToolRecord>, key: StepKey, i: nat) {
    i < |tools| && tools[i].key == key && !tools[i].IsDone()
  }

  /** The unfinished tool of the step with the smallest index, and the first of those. */
  ghost predicate IsNextAt(tools: seq<ToolRecord>, key: StepKey, i: nat) {
    && IsOpenAt(tools, key, i)
    && forall j: nat | IsOpenAt(tools, key, j) ::
         if j < i then tools[i].callIndex < tools[j].callIndex else tools[i].callIndex <= tools[j].callIndex
  }

  lemma {:induction false} NextAt(tools: seq<ToolRecord>, key: StepKey) returns (i: nat)
    ensures var sorted := SortByIndex(ToolsOfStep(tools, key));
            && InIndexOrder(sorted)
            && match FirstOpen(sorted)
               case None => forall j: nat :: !IsOpenAt(tools, key, j)
               case Some(t) => IsNextAt(tools, key, i) && tools[i] == t
  {
    hide FirstOpen, SortByIndex, IsOpenAt;
    i := 0;
    if tools == [] {
      NothingOpen(key);
    } else {
      var front, t := tools[..|tools| - 1], tools[|tools| - 1];
      i := NextAt(front, key);
      OpenInFront(tools, front, key);
      if t.key == key {
        SortedSnoc(ToolsOfStep(front, key), t);
        InsertedOpen(SortByIndex(ToolsOfStep(front, key)), t);
        var best := FirstOpen(SortByIndex(ToolsOfStep(front, key)));
        if Better(best, t) != best {
          i := |front|;
        }
      } else {
        assert ToolsOfStep(front, key) + [] == ToolsOfStep(front, key);
      }
    }
  }

  lemma {:induction false} NothingOpen(key: StepKey)
    ensures SortByIndex(ToolsOfStep([], key)) == [] && FirstOpen([]).None? && forall j: nat :: !IsOpenAt([], key, j)
  {
  }

  lemma {:induction false} SortedSnoc(tools: seq<ToolRecord>, t: ToolRecord)
    ensures SortByIndex(tools + [t]) == InsertByIndex(SortByIndex(tools), t)
  {
    assert (tools + [t])[..|tools + [t]| - 1] == tools;
  }

  lemma {:induction false} OpenInFront(tools: seq<ToolRecord>, front: seq<ToolRecord>, key: StepKey)
    requires tools != [] && front == tools[..|tools| - 1]
    ensures forall j: nat {:trigger IsOpenAt(tools, key, j)} ::
              IsOpenAt(tools, key, j) <==> IsOpenAt(front, key, j) || (j == |front| && tools[j].key == key && !tools[j].IsDone())
    ensures forall j: nat :: IsOpenAt(front, key, j) ==> j < |front|
  {
  }

  /* ---------------------------------------------------------------- the state of the run, read off the raw log */

  /** The response to the step started last. */
  ghost predicate ResponseIs(log: seq<Event>, stop: StopReason, calls: seq<ToolCall>) {
    exists k | 0 <= k < |log| ::
      log[k].AssistantMessage? && log[k].turn == TurnIn(log) && Some(log[k].step) == StepIn(log) && log[k].stop == stop && log[k].toolCalls == calls
  }

  ghost predicate HasResponded(log: seq<Event>) {
    StepIn(log).Some? && AnsweredIn(log, TurnIn(log), StepIn(log).value)
  }

  /** The mutating call requested at `k` is started and nothing more. */
  predicate InDoubt(log: seq<Event>, k: nat) {
    k < |log| && log[k].ToolRequested? && log[k].effect.Mutate? && LastOf(log, log[k].callId) == Some(Begun)
  }

  ghost predicate AnyDoubt(log: seq<Event>) {
    exists k: nat :: InDoubt(log, k)
  }

  ghost predicate FirstDoubt(log: seq<Event>, id: string) {
    exists k: nat :: InDoubt(log, k) && log[k].callId == id && forall j: nat | j < k :: !InDoubt(log, j)
  }

  /** The call requested at `k` belongs to the current step and has not ended. */
  predicate IsUnfinished(log: seq<Event>, k: nat) {
    && k < |log| && log[k].ToolRequested? && TurnIn(log[..k]) == TurnIn(log) && StepIn(log[..k]) == StepIn(log)
    && !(LastOf(log, log[k].callId).Some? && LastOf(log, log[k].callId).value.Ended?)
  }

  ghost predicate NoneUnfinished(log: seq<Event>) {
    forall k: nat :: !IsUnfinished(log, k)
  }

  /** Of the unfinished calls of the step it has the smallest index, and comes first among those. */
  ghost predicate IsUp(log: seq<Event>, k: nat) {
    && IsUnfinished(log, k)
    && forall j: nat | IsUnfinished(log, j) ::
         if j < k then log[k].callIndex < log[j].callIndex else log[k].callIndex <= log[j].callIndex
  }

  ghost predicate NextIs(log: seq<Event>, call: ToolCall, effect: Effect, life: Life) {
    exists k: nat :: IsUp(log, k) && call == ToolCall(log[k].callId, log[k].name, log[k].arguments) && effect == log[k].effect
                     && LastOf(log, call.id) == Some(life)
  }

  /** The driver may go on: the run is not over, waiting or being cancelled, and no mutating call is in doubt. */
  ghost predicate GoesOn(log: seq<Event>) {
    var status := StatusIn(log);
    !IsTerminalStatus(status) && !status.WaitingApproval? && !status.Cancelling? && !AnyDoubt(log)
  }

  /** The step started last is completed, and its response has this stop reason. */
  ghost predicate ClosedWith(log: seq<Event>, stop: StopReason) {
    StepIn(log).Some? && !OpenIn(log) && exists calls :: ResponseIs(log, stop, calls)
  }

  /** A step may come next: none is open, and the last one, if there is one in this turn, called for tools. */
  ghost predicate StepIsNext(log: seq<Event>) {
    GoesOn(log) && !OpenIn(log) && (StepIn(log).Some? ==> ClosedWith(log, ToolUse))
  }

  function StepsCompleted(log: seq<Event>): nat {
    |Where(log, IsCompletion)|
  }

  /** The open step has its response, and the budgets are kept. */
  ghost predicate WorksOn(limits: Limits, log: seq<Event>) {
    GoesOn(log) && OpenIn(log) && HasResponded(log) && TokensIn(log) <= limits.maxTokens && CallsIn(log) <= limits.maxToolCalls
  }

  predicate AllRequestedIn(log: seq<Event>, calls: seq<ToolCall>) {
    forall i | 0 <= i < |calls| :: RequestedIn(log, calls[i].id)
  }

  /** All calls of the response are requested, so the tools are next. */
  ghost predicate ToolsAreNext(limits: Limits, log: seq<Event>) {
    WorksOn(limits, log) && exists calls :: ResponseIs(log, ToolUse, calls) && AllRequestedIn(log, calls)
  }

  ghost predicate LaunchIsNext(limits: Limits, log: seq<Event>, call: ToolCall, effect: Effect) {
    ToolsAreNext(limits, log) && NextIs(log, call, effect, Asked)
  }

  /** Asked for when the tool is mutating, and when the policy asks. */
  predicate MustAsk(t: Pipeline, call: ToolCall, effect: Effect) {
    effect.Mutate? || (IsProper(t, call) && t.policy(t.registry[call.name], call).Ask?)
  }

  /** The projection says the same. */
  ghost predicate ViewOf(log: seq<Event>, p: RunProjection) {
    && p.status == StatusIn(log) && p.turn == TurnIn(log) && p.step == StepIn(log)
    && (p.HasOpenStep() <==> OpenIn(log))
    && (p.step.Some? && !p.HasOpenStep() ==> p.CurrentAssistant().Some?)
    && |p.completed| == StepsCompleted(log) && StepsOfTurn(p.completed, p.turn) == CompletedIn(log, p.turn)
    && (forall target :: PendingIds(p.inbox, target) == PendingIn(log, |log|, target))
    && TokenCount(p.assistants) == TokensIn(log) && CallCount(p.assistants) == CallsIn(log)
  }

  ghost predicate ResponseSeen(log: seq<Event>, p: RunProjection) {
    && (p.CurrentAssistant().Some? <==> HasResponded(log))
    && forall stop, calls ::
         ResponseIs(log, stop, calls)
         <==> p.CurrentAssistant().Some? && p.CurrentAssistant().value.stop == stop && p.CurrentAssistant().value.toolCalls == calls
  }

  ghost predicate DoubtSeen(log: seq<Event>, p: RunProjection) {
    && (HasUncertain(p) <==> AnyDoubt(log))
    && forall id :: FirstDoubt(log, id) <==> HasUncertain(p) && p.tools[UncertainIndex(p.tools)].callId == id
  }

  ghost predicate NextSeen(log: seq<Event>, p: RunProjection)
    requires p.step.Some?
  {
    var t := FirstOpen(SortByIndex(ToolsOfStep(p.tools, p.OpenKey())));
    && (t.None? <==> NoneUnfinished(log))
    && forall call, effect, life ::
         NextIs(log, call, effect, life)
         <==> t.Some? && call == CallOf(t.value) && effect == t.value.effect && life == if t.value.state.Started? then Begun else Asked
  }

  lemma {:induction false} ResponseRead(log: seq<Event>)
    requires Project(log).Some?
    ensures ResponseSeen(log, Project(log).value)
  {
    hide Project, Where, FindAssistant, StatusIn, TurnIn, StepIn, FailureIn, StepsRead, ToolsRead, InboxRead, ToolsOfSteps;
    var p := Project(log).value;
    ProjectedParts(log);
    CompletedSteps(log);
    if p.step.Some? {
      AnswerRead(log, p, p.OpenKey());
      FoundAssistant(p.assistants, p.OpenKey());
      ResponseAt(log, p);
    }
  }

  lemma {:induction false} ResponseAt(log: seq<Event>, p: RunProjection)
    requires HeadRead(log, p) && ResponsesRead(log, p) && ResponsesOfSteps(p) && p.step.Some?
    ensures forall stop, calls ::
              ResponseIs(log, stop, calls)
              <==> p.CurrentAssistant().Some? && p.CurrentAssistant().value.stop == stop && p.CurrentAssistant().value.toolCalls == calls
  {
    hide Where, FindAssistant, StatusIn, TurnIn, StepIn, FailureIn, HasResponse;
    var at := Where(log, IsResponse);
    WhereExactly(log, IsResponse);
    FoundAssistant(p.assistants, p.OpenKey());
    var r := p.CurrentAssistant();
    if r.Some? {
      var i :| 0 <= i < |p.assistants| && p.assistants[i] == r.value;
      assert ResponseFrom(log, at[i], p.assistants[i]);
    }
    forall k: nat | k < |log| && log[k].AssistantMessage? && log[k].turn == TurnIn(log) && Some(log[k].step) == StepIn(log)
      ensures r.Some? && r.value.stop == log[k].stop && r.value.toolCalls == log[k].toolCalls
    {
      assert k in at;
      var j :| 0 <= j < |at| && at[j] == k;
      assert ResponseFrom(log, at[j], p.assistants[j]);
    }
  }

  lemma {:induction false} ViewIsRead(log: seq<Event>)
    requires Project(log).Some?
    ensures ViewOf(log, Project(log).value)
  {
    hide Project, FindAssistant, StatusIn, TurnIn, StepIn, FailureIn, StepFrom, ToolsRead, InboxRead, ResponsesRead, ToolsOfSteps, OpenIn, TokenCount,
         CallCount, StepsOfTurn, CompletedIn, PendingIds;
    var p := Project(log).value;
    ProjectedParts(log);
    CompletedSteps(log);
    OpenRead(log, p);
    CountRead(log, p.turn);
    CountsRead(log);
    FoundAssistant(p.assistants, if p.step.Some? then p.OpenKey() else StepKey(0, 0));
    forall target ensures PendingIds(p.inbox, target) == PendingIn(log, |log|, target) {
      PendingExactly(log, target);
    }
  }

  /** One tool and its request. */
  ghost predicate ToolSeen(log: seq<Event>, p: RunProjection, k: nat, t: ToolRecord) {
    && k < |log| && log[k].ToolRequested? && CallOf(t) == ToolCall(log[k].callId, log[k].name, log[k].arguments) && t.effect == log[k].effect
    && t.callIndex == log[k].callIndex
    && LastOf(log, log[k].callId) == Some(match t.state
                                          case Requested => Asked
                                          case Started => Begun
                                          case Succeeded => Ended(false)
                                          case Errored => Ended(true))
    && (p.step.Some? ==> (t.key == p.OpenKey() <==> TurnIn(log[..k]) == TurnIn(log) && StepIn(log[..k]) == StepIn(log)))
  }

  lemma {:induction false} ToolsSeen(log: seq<Event>)
    requires Project(log).Some?
    ensures var p := Project(log).value;
            && |p.tools| == |Where(log, IsRequest)|
            && forall j | 0 <= j < |p.tools| :: ToolSeen(log, p, Where(log, IsRequest)[j], p.tools[j])
  {
    hide Project, Where, StatusIn, TurnIn, StepIn, FailureIn, StepsRead, InboxRead, ResponsesRead, LifeOf, LifeCycle;
    var p := Project(log).value;
    ProjectedParts(log);
    ProjectionExactly(log);
    var at := Where(log, IsRequest);
    forall j | 0 <= j < |p.tools| ensures ToolSeen(log, p, at[j], p.tools[j]) {
      assert ToolFrom(log, at[j], p.tools[j]);
      assert LifeOf(log, p.tools[j].callId) != [];
    }
  }

  lemma {:induction false} DoubtRead(log: seq<Event>)
    requires Project(log).Some?
    ensures DoubtSeen(log, Project(log).value)
  {
    hide Project, Where, StatusIn, TurnIn, StepIn, FailureIn, LastOf, UncertainIndex;
    var tools, at := Project(log).value.tools, Where(log, IsRequest);
    ToolsSeen(log);
    WhereExactly(log, IsRequest);
    UncertainIndexFirst(tools);
    var i := UncertainIndex(tools);
    forall k: nat | InDoubt(log, k) ensures i < |tools| && at[i] <= k {
      assert k in at;
      var j :| 0 <= j < |at| && at[j] == k;
      assert IsUncertain(tools[j]);
    }
    if i < |tools| {
      assert IsUncertain(tools[i]);
      assert InDoubt(log, at[i]);
    }
  }

  /** The requests and the tools, in the same order and with the same indexes, are unfinished alike. */
  ghost predicate OpenAlike(log: seq<Event>, tools: seq<ToolRecord>, key: StepKey, at: seq<nat>) {
    && |at| == |tools| && (forall i, j | 0 <= i < j < |at| :: at[i] < at[j])
    && (forall j: nat | j < |at| :: at[j] < |log| && log[at[j]].ToolRequested? && log[at[j]].callIndex == tools[j].callIndex)
    && (forall j: nat | j < |at| :: IsUnfinished(log, at[j]) <==> IsOpenAt(tools, key, j))
    && (forall k: nat | IsUnfinished(log, k) :: k in at)
  }

  lemma {:induction false} UpAt(log: seq<Event>, tools: seq<ToolRecord>, key: StepKey, at: seq<nat>, i: nat)
    requires OpenAlike(log, tools, key, at) && i < |at|
    ensures IsNextAt(tools, key, i) ==> IsUp(log, at[i])
    ensures IsUp(log, at[i]) ==> IsNextAt(tools, key, i)
  {
    hide IsUnfinished;
    if IsNextAt(tools, key, i) {
      forall k: nat | IsUnfinished(log, k)
        ensures if k < at[i] then log[at[i]].callIndex < log[k].callIndex else log[at[i]].callIndex <= log[k].callIndex
      {
        var j :| 0 <= j < |at| && at[j] == k;
        assert IsOpenAt(tools, key, j);
      }
    }
    if IsUp(log, at[i]) {
      forall j: nat | IsOpenAt(tools, key, j)
        ensures if j < i then tools[i].callIndex < tools[j].callIndex else tools[i].callIndex <= tools[j].callIndex
      {
        assert IsUnfinished(log, at[j]);
      }
    }
  }

  lemma {:induction false} NextOnce(tools: seq<ToolRecord>, key: StepKey, i: nat, j: nat)
    requires IsNextAt(tools, key, i) && IsNextAt(tools, key, j)
    ensures i == j
  {
    hide IsOpenAt;
  }

  lemma {:induction false} RequestsAlike(log: seq<Event>)
    requires Project(log).Some? && Project(log).value.step.Some?
    ensures OpenAlike(log, Project(log).value.tools, Project(log).value.OpenKey(), Where(log, IsRequest))
  {
    hide Project, Where, StatusIn, TurnIn, StepIn, FailureIn, LastOf, IsUnfinished, IsOpenAt, ToolSeen;
    var p, at := Project(log).value, Where(log, IsRequest);
    ToolsSeen(log);
    WhereExactly(log, IsRequest);
    forall j: nat | j < |at|
      ensures log[at[j]].callIndex == p.tools[j].callIndex && (IsUnfinished(log, at[j]) <==> IsOpenAt(p.tools, p.OpenKey(), j))
    {
      SameOpen(log, p, at[j], j);
    }
    forall k: nat | IsUnfinished(log, k) ensures k in at {
      UnfinishedRequest(log, k);
    }
  }

  lemma {:induction false} NextRead(log: seq<Event>)
    requires Project(log).Some? && Project(log).value.step.Some?
    ensures NextSeen(log, Project(log).value)
  {
    hide Project, Where, StatusIn, TurnIn, StepIn, FailureIn, LastOf, FirstOpen, SortByIndex, ToolsOfStep, IsUnfinished, IsOpenAt, IsNextAt, IsUp;
    var p, at := Project(log).value, Where(log, IsRequest);
    ToolsSeen(log);
    RequestsAlike(log);
    var i := NextAt(p.tools, p.OpenKey());
    var t := FirstOpen(SortByIndex(ToolsOfStep(p.tools, p.OpenKey())));
    forall k: nat | IsUp(log, k) ensures t.Some? && i < |at| && k == at[i] {
      UpIsUnfinished(log, k);
      var j :| 0 <= j < |at| && at[j] == k;
      UpAt(log, p.tools, p.OpenKey(), at, j);
      NextIsOpen(p.tools, p.OpenKey(), j);
      NextOnce(p.tools, p.OpenKey(), i, j);
    }
    if t.Some? {
      NextIsOpen(p.tools, p.OpenKey(), i);
      UpAt(log, p.tools, p.OpenKey(), at, i);
      assert ToolSeen(log, p, at[i], p.tools[i]);
    }
  }

  lemma {:induction false} UpIsUnfinished(log: seq<Event>, k: nat)
    requires IsUp(log, k)
    ensures IsUnfinished(log, k)
  {
    hide IsUnfinished;
  }

  lemma {:induction false} NextIsOpen(tools: seq<ToolRecord>, key: StepKey, i: nat)
    requires IsNextAt(tools, key, i)
    ensures IsOpenAt(tools, key, i) && i < |tools| && !tools[i].IsDone()
  {
  }

  lemma {:induction false} UnfinishedRequest(log: seq<Event>, k: nat)
    requires IsUnfinished(log, k)
    ensures k < |log| && IsRequest(log[k])
  {
  }

  lemma {:induction false} SameOpen(log: seq<Event>, p: RunProjection, k: nat, j: nat)
    requires p.step.Some? && j < |p.tools| && ToolSeen(log, p, k, p.tools[j])
    ensures IsUnfinished(log, k) <==> IsOpenAt(p.tools, p.OpenKey(), j)
    ensures p.tools[j].callIndex == log[k].callIndex
  {
    hide StatusIn, TurnIn, StepIn, LastOf;
  }

  /* ---------------------------------------------------------------- what each action needs */

  /** When the driver ends the run for a reason. */
  ghost predicate FailsFor(cfg: Config, log: seq<Event>, reason: Reason) {
    match reason
    case StepBudget(n) => StepIsNext(log) && n == cfg.limits.maxSteps && StepsCompleted(log) >= n
    case ProviderMaxTokens => GoesOn(log) && ClosedWith(log, StopReason.MaxTokens)
    case TokenBudget(count, limit) =>
      GoesOn(log) && OpenIn(log) && HasResponded(log) && count == TokensIn(log) && limit == cfg.limits.maxTokens && count > limit
    case ToolCallBudget(count, limit) =>
      && GoesOn(log) && OpenIn(log) && HasResponded(log) && TokensIn(log) <= cfg.limits.maxTokens
      && count == CallsIn(log) && limit == cfg.limits.maxToolCalls && count > limit
    case OperatorRejected(id) =>
      exists call, effect ::
        && LaunchIsNext(cfg.limits, log, call, effect) && call.id == id && IsProper(cfg.pipeline, call) && MustAsk(cfg.pipeline, call, effect)
        && FirstDecision(log, id) == Some(false)
    case _ => false
  }

  /** When the driver writes an event alone. */
  ghost predicate Writes(cfg: Config, log: seq<Event>, e: Event) {
    match e
    case RunCancelled => StatusIn(log).Cancelling? && !AnyDoubt(log)
    case RunFailedUncertain(reason) =>
      && !IsTerminalStatus(StatusIn(log)) && !StatusIn(log).WaitingApproval?
      && reason.UncertainMutation? && FirstDoubt(log, reason.callId)
    case RunCompleted => GoesOn(log) && ClosedWith(log, EndTurn) && PendingIn(log, |log|, NextTurn) == []
    case RunFailed(reason) => FailsFor(cfg, log, reason)
    case StepStarted(turn, step) =>
      && StepIsNext(log) && StepsCompleted(log) < cfg.limits.maxSteps && PendingIn(log, |log|, NextStep) == []
      && turn == TurnIn(log) && step == CompletedIn(log, turn) + 1
    case StepCompleted(turn, step) =>
      && WorksOn(cfg.limits, log) && turn == TurnIn(log) && Some(step) == StepIn(log)
      && ((exists calls :: ResponseIs(log, ToolUse, calls)) ==>
            ToolsAreNext(cfg.limits, log) && NoneUnfinished(log))
    case ToolRequested(id, name, arguments, effect, index) =>
      && WorksOn(cfg.limits, log)
      && exists calls :: ResponseIs(log, ToolUse, calls) && 0 <= index < |calls| && calls[index] == ToolCall(id, name, arguments)
                         && effect == ToolEffect(cfg.pipeline, calls[index]) && !RequestedIn(log, id) && AllRequestedIn(log, calls[..index])
    case ApprovalRequested(requestId, id) =>
      && requestId == ApprovalOf(id)
      && exists call, effect ::
           && LaunchIsNext(cfg.limits, log, call, effect) && call.id == id && IsProper(cfg.pipeline, call)
           && MustAsk(cfg.pipeline, call, effect) && FirstDecision(log, id) == None
    case _ => false
  }

  /** When the driver takes an action. */
  ghost predicate IsCalledFor(cfg: Config, log: seq<Event>, a: Action) {
    match a
    case Halt => IsTerminalStatus(StatusIn(log)) || StatusIn(log).WaitingApproval?
    case OpenTurn => GoesOn(log) && ClosedWith(log, EndTurn) && PendingIn(log, |log|, NextTurn) != []
    case AskProvider => GoesOn(log) && OpenIn(log) && !HasResponded(log)
    case RejectTool(id, output) =>
      exists call, effect ::
        LaunchIsNext(cfg.limits, log, call, effect) && call.id == id && !IsProper(cfg.pipeline, call) && RunPreflight(cfg.pipeline, call) == Rejected(output)
    case StartTool(call) =>
      exists effect ::
        && LaunchIsNext(cfg.limits, log, call, effect) && IsProper(cfg.pipeline, call)
        && (MustAsk(cfg.pipeline, call, effect) ==> FirstDecision(log, call.id) == Some(true))
    case RunTool(call) => ToolsAreNext(cfg.limits, log) && exists effect :: NextIs(log, call, effect, Begun)
    case Write(batch) =>
      || (|batch| == 1 && Writes(cfg, log, batch[0]))
      || (&& StepIsNext(log) && StepsCompleted(log) < cfg.limits.maxSteps && PendingIn(log, |log|, NextStep) != []
          && |batch| == |PendingIn(log, |log|, NextStep)|
          && forall i | 0 <= i < |batch| :: batch[i] == InboxConsumed(PendingIn(log, |log|, NextStep)[i]))
  }

  lemma {:induction false} ConsumptionsExactly(ids: seq<string>)
    ensures forall i | 0 <= i < |ids| :: Consumptions(ids)[i] == InboxConsumed(ids[i])
  {
    if ids != [] {
      ConsumptionsExactly(ids[1..]);
      assert forall i | 1 <= i < |ids| :: ids[i] == ids[1..][i - 1];
    }
  }

  /** Outside an open step there is nothing to do in one. */
  lemma {:induction false} NoWork(limits: Limits, log: seq<Event>)
    requires !GoesOn(log) || !OpenIn(log)
    ensures !WorksOn(limits, log) && !ToolsAreNext(limits, log) && forall call, effect :: !LaunchIsNext(limits, log, call, effect)
  {
    hide GoesOn, OpenIn, ResponseIs, NextIs, AllRequestedIn, TokensIn, CallsIn, HasResponded;
  }

  /** What can be called for when the driver does not go on. */
  lemma {:induction false} Stopped(cfg: Config, log: seq<Event>, a: Action)
    requires !GoesOn(log)
    ensures IsCalledFor(cfg, log, a)
       <==> || (a.Halt? && (IsTerminalStatus(StatusIn(log)) || StatusIn(log).WaitingApproval?))
            || (a.Write? && |a.batch| == 1 && (a.batch[0].RunCancelled? || a.batch[0].RunFailedUncertain?) && Writes(cfg, log, a.batch[0]))
  {
    hide GoesOn, OpenIn, StatusIn, TurnIn, StepIn, ResponseIs, NextIs, TokensIn, CallsIn, HasResponded, WorksOn, ToolsAreNext, LaunchIsNext, ClosedWith,
         PendingIn, AnyDoubt, FirstDoubt, MustAsk, IsProper, FirstDecision, NoneUnfinished, StepsCompleted, CompletedIn, RunPreflight;
    NoWork(cfg.limits, log);
  }

  lemma {:induction false} Halted(cfg: Config, log: seq<Event>, p: RunProjection, a: Action)
    requires ViewOf(log, p) && DoubtSeen(log, p)
    requires p.status.IsTerminal() || p.status.WaitingApproval? || p.status.Cancelling? || HasUncertain(p)
    ensures NextAction(cfg, log, p) == a <==> IsCalledFor(cfg, log, a)
  {
    hide StatusIn, TurnIn, StepIn, OpenIn, ResponseIs, AnyDoubt, FirstDoubt, HasUncertain, HasResponded, PendingIn, NextIs, FirstDecision, RunPreflight,
         TokensIn, CallsIn, StepsCompleted, CompletedIn, FindAssistant, Consumptions, ToolAction, FailsFor, IsCalledFor, UncertainIndex, BudgetFailure,
         PendingIds, StepsOfTurn, TokenCount, CallCount;
    Stopped(cfg, log, a);
  }

  /** Nothing stops the driver before it looks at the step. */
  ghost predicate LooksAtStep(log: seq<Event>, p: RunProjection) {
    && ViewOf(log, p) && ResponseSeen(log, p) && DoubtSeen(log, p)
    && !p.status.IsTerminal() && !p.status.WaitingApproval? && !p.status.Cancelling? && !HasUncertain(p)
  }

  lemma {:induction false} BetweenSteps(cfg: Config, log: seq<Event>, p: RunProjection, a: Action)
    requires LooksAtStep(log, p) && !p.HasOpenStep()
    ensures NextAction(cfg, log, p) == a <==> IsCalledFor(cfg, log, a)
  {
    hide StatusIn, TurnIn, StepIn, OpenIn, ResponseIs, AnyDoubt, FirstDoubt, HasUncertain, HasResponded, PendingIn, NextIs, FirstDecision, RunPreflight,
         TokensIn, CallsIn, StepsCompleted, CompletedIn, FindAssistant, Consumptions, ToolAction, MustAsk, IsProper, WorksOn, ToolsAreNext, LaunchIsNext,
         BudgetFailure, PendingIds, StepsOfTurn, TokenCount, CallCount;
    NoWork(cfg.limits, log);
    ConsumptionsExactly(PendingIds(p.inbox, NextStep));
    if p.CurrentAssistant().Some? {
      assert ResponseIs(log, p.CurrentAssistant().value.stop, p.CurrentAssistant().value.toolCalls);
    }
  }

  lemma {:induction false} InStep(cfg: Config, log: seq<Event>, p: RunProjection, a: Action)
    requires LooksAtStep(log, p) && p.HasOpenStep()
    requires p.CurrentAssistant().None? || BudgetFailure(cfg.limits, p).Some? || !p.CurrentAssistant().value.stop.ToolUse?
    ensures NextAction(cfg, log, p) == a <==> IsCalledFor(cfg, log, a)
  {
    hide StatusIn, TurnIn, StepIn, OpenIn, ResponseIs, AnyDoubt, FirstDoubt, HasUncertain, HasResponded, PendingIn, NextIs, FirstDecision, RunPreflight,
         TokensIn, CallsIn, StepsCompleted, CompletedIn, FindAssistant, Consumptions, ToolAction, MustAsk, IsProper;
  }

  /** Requested and known are the same. */
  lemma {:induction false} KnownRead(log: seq<Event>, id: string)
    requires Project(log).Some?
    ensures KnowsTool(Project(log).value.tools, id) <==> RequestedIn(log, id)
  {
    hide Project, StepsRead, ResponsesRead, InboxRead, IndexOfTool, KnowsTool, RequestedIn, HeadRead, ToolsRead;
    ProjectedParts(log);
    ToolsDistinct(log);
    UnknownIndex(Project(log).value.tools, id);
    ToolRead(log, Project(log).value, id);
  }

  ghost predicate ToolsInStep(cfg: Config, log: seq<Event>, p: RunProjection, calls: seq<ToolCall>) {
    && LooksAtStep(log, p) && p.HasOpenStep() && p.CurrentAssistant().Some? && BudgetFailure(cfg.limits, p).None?
    && p.CurrentAssistant().value.stop.ToolUse? && calls == p.CurrentAssistant().value.toolCalls
    && forall id :: KnowsTool(p.tools, id) <==> RequestedIn(log, id)
  }

  lemma {:induction false} RequestNext(cfg: Config, log: seq<Event>, p: RunProjection, calls: seq<ToolCall>, a: Action)
    requires ToolsInStep(cfg, log, p, calls) && FirstUnknown(calls, p.tools) < |calls|
    ensures ToolAction(cfg, log, p, calls) == a <==> IsCalledFor(cfg, log, a)
  {
    hide StatusIn, TurnIn, StepIn, OpenIn, ResponseIs, AnyDoubt, FirstDoubt, HasUncertain, HasResponded, PendingIn, NextIs, FirstDecision, RunPreflight,
         TokensIn, CallsIn, StepsCompleted, CompletedIn, FindAssistant, Consumptions, MustAsk, IsProper, KnowsTool, RequestedIn, LaunchAction, SortByIndex,
         ToolsOfStep, FirstUnknown;
    FirstUnknownFirst(calls, p.tools);
    var m := FirstUnknown(calls, p.tools);
    assert RequestedIn(log, calls[m].id) == false;
    assert !AllRequestedIn(log, calls);
  }

  /** The call that is to be launched. */
  ghost predicate OneLaunch(cfg: Config, log: seq<Event>, call: ToolCall, effect: Effect) {
    forall c, e :: LaunchIsNext(cfg.limits, log, c, e) <==> c == call && e == effect
  }

  lemma {:induction false} LaunchNext(cfg: Config, log: seq<Event>, call: ToolCall, effect: Effect, a: Action)
    requires ToolsAreNext(cfg.limits, log) && OneLaunch(cfg, log, call, effect) && !NoneUnfinished(log)
    requires (forall c, e :: !NextIs(log, c, e, Begun)) && forall calls | ResponseIs(log, ToolUse, calls) :: AllRequestedIn(log, calls)
    requires forall stop, calls | ResponseIs(log, stop, calls) :: stop.ToolUse?
    ensures LaunchAction(cfg, log, call, effect) == a <==> IsCalledFor(cfg, log, a)
  {
    hide StatusIn, TurnIn, StepIn, OpenIn, ResponseIs, AnyDoubt, FirstDoubt, HasResponded, PendingIn, NextIs, FirstDecision, RunPreflight,
         TokensIn, CallsIn, StepsCompleted, CompletedIn, RequestedIn, IsProper, LaunchIsNext, NoneUnfinished;
    PreflightExactly(cfg.pipeline, call);
    assert LaunchIsNext(cfg.limits, log, call, effect);
    match a
    case Write(batch) =>
      if |batch| == 1 {
        LaunchWrites(cfg, log, call, effect, batch[0]);
      }
      assert batch == (if |batch| == 1 then [batch[0]] else batch);
    case RejectTool(_, _) =>
    case StartTool(_) =>
    case _ =>
  }

  lemma {:induction false} LaunchWrites(cfg: Config, log: seq<Event>, call: ToolCall, effect: Effect, e: Event)
    requires ToolsAreNext(cfg.limits, log) && OneLaunch(cfg, log, call, effect) && !NoneUnfinished(log)
    requires forall calls | ResponseIs(log, ToolUse, calls) :: AllRequestedIn(log, calls)
    requires forall stop, calls | ResponseIs(log, stop, calls) :: stop.ToolUse?
    ensures LaunchAction(cfg, log, call, effect) == Write([e]) <==> Writes(cfg, log, e)
  {
    hide StatusIn, TurnIn, StepIn, OpenIn, ResponseIs, AnyDoubt, FirstDoubt, HasResponded, PendingIn, NextIs, FirstDecision, RunPreflight,
         TokensIn, CallsIn, StepsCompleted, CompletedIn, RequestedIn, IsProper, LaunchIsNext, NoneUnfinished;
    PreflightExactly(cfg.pipeline, call);
    assert LaunchIsNext(cfg.limits, log, call, effect);
    if e.RunFailedUncertain? && e.reason.UncertainMutation? && FirstDoubt(log, e.reason.callId) {
      DoubtIsDoubt(log, e.reason.callId);
    }
  }

  lemma {:induction false} DoubtIsDoubt(log: seq<Event>, id: string)
    requires FirstDoubt(log, id)
    ensures AnyDoubt(log)
  {
    hide InDoubt;
  }

  lemma {:induction false} ToolNext(cfg: Config, log: seq<Event>, p: RunProjection, calls: seq<ToolCall>, a: Action)
    requires ToolsInStep(cfg, log, p, calls) && FirstUnknown(calls, p.tools) == |calls| && NextSeen(log, p)
    ensures ToolAction(cfg, log, p, calls) == a <==> IsCalledFor(cfg, log, a)
  {
    hide StatusIn, TurnIn, StepIn, OpenIn, ResponseIs, AnyDoubt, FirstDoubt, HasResponded, PendingIn, NextIs, FirstDecision, RunPreflight,
         TokensIn, CallsIn, StepsCompleted, CompletedIn, FindAssistant, MustAsk, IsProper, KnowsTool, RequestedIn, LaunchAction, SortByIndex,
         ToolsOfStep, FirstUnknown, FirstUnfinished, NoneUnfinished, UncertainIndex;
    FirstUnknownFirst(calls, p.tools);
    var tools := SortByIndex(ToolsOfStep(p.tools, p.OpenKey()));
    assert AllRequestedIn(log, calls);
    assert ResponseIs(log, ToolUse, calls);
    if FirstOpen(tools).None? {
      StepEnds(cfg, log, a);
    } else {
      var t := FirstOpen(tools).value;
      FirstUnfinishedFirst(tools);
      if t.state.Started? {
        NotInDoubt(p, p.OpenKey(), FirstUnfinished(tools));
        ToolGoesOn(cfg, log, CallOf(t), t.effect, a);
      } else {
        assert OneLaunch(cfg, log, CallOf(t), t.effect);
        LaunchNext(cfg, log, CallOf(t), t.effect, a);
      }
    }
  }

  lemma {:induction false} StepEnds(cfg: Config, log: seq<Event>, a: Action)
    requires ToolsAreNext(cfg.limits, log) && NoneUnfinished(log) && StepIn(log).Some?
    requires (forall c, e, l :: !NextIs(log, c, e, l)) && (forall calls | ResponseIs(log, ToolUse, calls) :: AllRequestedIn(log, calls))
    requires forall stop, calls | ResponseIs(log, stop, calls) :: stop.ToolUse?
    ensures a == Write([StepCompleted(TurnIn(log), StepIn(log).value)]) <==> IsCalledFor(cfg, log, a)
  {
    hide StatusIn, TurnIn, StepIn, OpenIn, ResponseIs, AnyDoubt, FirstDoubt, HasResponded, PendingIn, NextIs, FirstDecision, RunPreflight,
         TokensIn, CallsIn, StepsCompleted, CompletedIn, RequestedIn, IsProper, NoneUnfinished;
    if a.Write? && |a.batch| == 1 && a.batch[0].RunFailedUncertain? && a.batch[0].reason.UncertainMutation?
       && FirstDoubt(log, a.batch[0].reason.callId) {
      DoubtIsDoubt(log, a.batch[0].reason.callId);
    }
  }

  lemma {:induction false} ToolGoesOn(cfg: Config, log: seq<Event>, call: ToolCall, effect: Effect, a: Action)
    requires ToolsAreNext(cfg.limits, log) && !NoneUnfinished(log)
    requires forall c, e, l :: NextIs(log, c, e, l) <==> c == call && e == effect && l.Begun?
    requires forall calls | ResponseIs(log, ToolUse, calls) :: AllRequestedIn(log, calls)
    requires forall stop, calls | ResponseIs(log, stop, calls) :: stop.ToolUse?
    ensures a == RunTool(call) <==> IsCalledFor(cfg, log, a)
  {
    hide StatusIn, TurnIn, StepIn, OpenIn, ResponseIs, AnyDoubt, FirstDoubt, HasResponded, PendingIn, NextIs, FirstDecision, RunPreflight,
         TokensIn, CallsIn, StepsCompleted, CompletedIn, RequestedIn, IsProper, NoneUnfinished;
    assert NextIs(log, call, effect, Begun);
    if a.Write? && |a.batch| == 1 && a.batch[0].RunFailedUncertain? && a.batch[0].reason.UncertainMutation?
       && FirstDoubt(log, a.batch[0].reason.callId) {
      DoubtIsDoubt(log, a.batch[0].reason.callId);
    }
  }

  /** No tool of the step is in doubt. */
  lemma {:induction false} NotInDoubt(p: RunProjection, key: StepKey, i: nat)
    requires !HasUncertain(p) && i < |SortByIndex(ToolsOfStep(p.tools, key))|
    ensures !IsUncertain(SortByIndex(ToolsOfStep(p.tools, key))[i])
  {
    hide IsUncertain;
    UncertainIndexFirst(p.tools);
    var j := SortedFrom(ToolsOfStep(p.tools, key), i);
    var k := ToolOfStepFrom(p.tools, key, j);
  }

  lemma {:induction false} InsertedFrom(sorted: seq<ToolRecord>, t: ToolRecord, i: nat)
    requires i < |InsertByIndex(sorted, t)|
    ensures InsertByIndex(sorted, t)[i] == t || InsertByIndex(sorted, t)[i] in sorted
  {
    if !(sorted == [] || sorted[|sorted| - 1].callIndex <= t.callIndex) && i < |InsertByIndex(sorted[..|sorted| - 1], t)| {
      InsertedFrom(sorted[..|sorted| - 1], t, i);
    }
  }

  lemma {:induction false} SortedFrom(tools: seq<ToolRecord>, i: nat) returns (j: nat)
    requires i < |SortByIndex(tools)|
    ensures j < |tools| && tools[j] == SortByIndex(tools)[i]
  {
    var front, t := tools[..|tools| - 1], tools[|tools| - 1];
    InsertedFrom(SortByIndex(front), t, i);
    if SortByIndex(tools)[i] == t {
      j := |front|;
    } else {
      var k :| 0 <= k < |SortByIndex(front)| && SortByIndex(front)[k] == SortByIndex(tools)[i];
      j := SortedFrom(front, k);
    }
  }

  lemma {:induction false} ToolOfStepFrom(tools: seq<ToolRecord>, key: StepKey, i: nat) returns (j: nat)
    requires i < |ToolsOfStep(tools, key)|
    ensures j < |tools| && tools[j] == ToolsOfStep(tools, key)[i]
  {
    var front := tools[..|tools| - 1];
    if i < |ToolsOfStep(front, key)| {
      j := ToolOfStepFrom(front, key, i);
    } else {
      j := |front|;
    }
  }

  /* ---------------------------------------------------------------- the theorem */

  /** In every state of every log the driver takes the one action that the events of the log call for. */
  lemma {:induction false} NextActionExactly(cfg: Config, log: seq<Event>, a: Action)
    requires Project(log).Some?
    ensures NextAction(cfg, log, Project(log).value) == a <==> IsCalledFor(cfg, log, a)
  {
    hide Project, IsCalledFor, ViewOf, ResponseSeen, DoubtSeen, NextSeen, BudgetFailure, FindAssistant, KnowsTool, RequestedIn, HasUncertain, ToolAction;
    var p := Project(log).value;
    ViewIsRead(log);
    ResponseRead(log);
    DoubtRead(log);
    if p.status.IsTerminal() || p.status.WaitingApproval? || p.status.Cancelling? || HasUncertain(p) {
      Halted(cfg, log, p, a);
    } else if !p.HasOpenStep() {
      BetweenSteps(cfg, log, p, a);
    } else if p.CurrentAssistant().None? || BudgetFailure(cfg.limits, p).Some? || !p.CurrentAssistant().value.stop.ToolUse? {
      InStep(cfg, log, p, a);
    } else {
      var calls := p.CurrentAssistant().value.toolCalls;
      forall id ensures KnowsTool(p.tools, id) <==> RequestedIn(log, id) {
        KnownRead(log, id);
      }
      if FirstUnknown(calls, p.tools) < |calls| {
        RequestNext(cfg, log, p, calls, a);
      } else {
        NextRead(log);
        ToolNext(cfg, log, p, calls, a);
      }
    }
  }
}
