/** Concrete runs: each shows that a situation the theorems speak of is reached. */
module SampleRuns {
  import opened Events
  import opened Projection
  import opened ToolPipeline
  import opened Runtime
  import opened Conversation
  import opened RuntimeInvariant
  import opened DriverLemmas
  import opened RuntimeSafety
  import opened RuntimeRuns
  import opened RuntimeTheorems
  import opened InboxLaws
  import opened Termination
  import opened Recovery
  import opened ContextEngine
  import opened TrimmingTheorems
  import opened IncidentState
  import opened ProjectorLimits

  /* ---------------------------------------------------------------- one label further */

  /** The run leads to the world, whose log has the projection. */
  predicate At(cfg: Config, run: seq<Label>, w: World, p: RunProjection) {
    Execute(cfg, run) == Some(w) && Project(w.log) == Some(p)
  }

  lemma {:induction false} Then(cfg: Config, run: seq<Label>, w: World, p: RunProjection, l: Label)
    requires At(cfg, run, w, p) && Enabled(cfg, w, l)
    ensures Execute(cfg, run + [l]) == Some(Perform(cfg, w, l))
  {
    hide Enabled, Perform, ExecuteFrom, Project;
    ExecuteFromSnoc(cfg, EMPTY_WORLD, run, l);
  }

  /** The label appends one event. */
  lemma {:induction false} ThenStores(cfg: Config, run: seq<Label>, w: World, p: RunProjection, l: Label, e: Event, place: Place)
    requires At(cfg, run, w, p) && Enabled(cfg, w, l) && Perform(cfg, w, l) == Extend(w, [e], place) && Accepts(p, w.log == [], e)
    ensures At(cfg, run + [l], Extend(w, [e], place), Advance(p, e))
  {
    hide Enabled, Perform, Execute, Project, Accepts, Advance;
    Then(cfg, run, w, p, l);
    ProjectSnoc(w.log, e);
  }

  /** The label only moves the driver. */
  lemma {:induction false} ThenMoves(cfg: Config, run: seq<Label>, w: World, p: RunProjection, l: Label, after: World)
    requires At(cfg, run, w, p) && Enabled(cfg, w, l) && Perform(cfg, w, l) == after && after.log == w.log
    ensures At(cfg, run + [l], after, p)
  {
    hide Enabled, Perform, Execute, Project;
    Then(cfg, run, w, p, l);
  }

  /* ---------------------------------------------------------------- the driver */

  lemma {:induction false} Writes(cfg: Config, run: seq<Label>, w: World, p: RunProjection, e: Event)
    requires At(cfg, run, w, p) && w.place.Ready? && NextAction(cfg, w.log, p) == Write([e]) && Accepts(p, w.log == [], e)
    ensures At(cfg, run + [Act], Extend(w, [e], Ready), Advance(p, e))
  {
    hide Execute, Project, Accepts, Advance, NextAction;
    ThenStores(cfg, run, w, p, Act, e, Ready);
  }

  /** An action that stores the start of a tool. */
  lemma {:induction false} Begins(cfg: Config, run: seq<Label>, w: World, p: RunProjection, callId: string, place: Place)
    requires At(cfg, run, w, p) && w.place.Ready? && Accepts(p, w.log == [], ToolStarted(callId))
    requires || (NextAction(cfg, w.log, p).StartTool? && NextAction(cfg, w.log, p).call.id == callId
                 && place == Starting(NextAction(cfg, w.log, p).call))
             || (NextAction(cfg, w.log, p).RejectTool? && NextAction(cfg, w.log, p).rejected == callId
                 && place == Rejecting(callId, NextAction(cfg, w.log, p).output))
    ensures At(cfg, run + [Act], Extend(w, [ToolStarted(callId)], place), Advance(p, ToolStarted(callId)))
  {
    hide Execute, Project, Accepts, Advance, NextAction;
    ThenStores(cfg, run, w, p, Act, ToolStarted(callId), place);
  }

  lemma {:induction false} AsksOrHalts(cfg: Config, run: seq<Label>, w: World, p: RunProjection)
    requires At(cfg, run, w, p) && w.place.Ready? && (NextAction(cfg, w.log, p).AskProvider? || NextAction(cfg, w.log, p).Halt?)
    ensures At(cfg, run + [Act], w.(place := if NextAction(cfg, w.log, p).Halt? then Idle else InProvider), p)
  {
    hide Execute, Project, NextAction;
    ThenMoves(cfg, run, w, p, Act, w.(place := if NextAction(cfg, w.log, p).Halt? then Idle else InProvider));
  }

  lemma {:induction false} Answers(cfg: Config, run: seq<Label>, w: World, p: RunProjection, r: Response)
    requires At(cfg, run, w, p) && w.place.InProvider? && r.Valid() && p.step.Some? && p.status.Running?
    requires Accepts(p, w.log == [], ResponseEvent(p, r))
    ensures At(cfg, run + [Respond(r)], Extend(w, [ResponseEvent(p, r)], Ready), Advance(p, ResponseEvent(p, r)))
  {
    hide Execute, Project, Accepts, Advance;
    ThenStores(cfg, run, w, p, Respond(r), ResponseEvent(p, r), Ready);
  }

  /** The handler is entered. */
  lemma {:induction false} Enters(cfg: Config, run: seq<Label>, w: World, p: RunProjection, call: ToolCall)
    requires At(cfg, run, w, p) && w.place == Starting(call) && RunGate(cfg.pipeline, call, LookUpApproval(w.log, p, call)) == Enter
    ensures At(cfg, run + [SecondHalf], World(w.log, InTool(call, Enter), w.entered + [call.id]), p)
  {
    hide Execute, Project, RunGate, LookUpApproval;
    ThenMoves(cfg, run, w, p, SecondHalf, World(w.log, InTool(call, Enter), w.entered + [call.id]));
  }

  /* ---------------------------------------------------------------- the others */

  lemma {:induction false} Resumes(cfg: Config, run: seq<Label>, w: World, p: RunProjection)
    requires At(cfg, run, w, p) && w.place.Idle? && w.log != []
    ensures At(cfg, run + [Resume], w.(place := Ready), p)
  {
    hide Execute, Project;
    ThenMoves(cfg, run, w, p, Resume, w.(place := Ready));
  }

  lemma {:induction false} Dies(cfg: Config, run: seq<Label>, w: World, p: RunProjection)
    requires At(cfg, run, w, p)
    ensures At(cfg, run + [Crash], w.(place := Idle), p)
  {
    hide Execute, Project;
    ThenMoves(cfg, run, w, p, Crash, w.(place := Idle));
  }

  lemma {:induction false} Grants(cfg: Config, run: seq<Label>, w: World, p: RunProjection, callId: string)
    requires At(cfg, run, w, p) && w.place.Idle? && w.log != [] && p.status.WaitingApproval? && WasRequested(w.log, callId)
    ensures At(cfg, run + [Settle(callId, true, false)], Extend(w, [ApprovalDecided(ApprovalOf(callId), true)], Idle), p.(status := Running))
  {
    hide Execute, Project, WasRequested;
    var e := ApprovalDecided(ApprovalOf(callId), true);
    assert [e] + [] == [e];
    ThenStores(cfg, run, w, p, Settle(callId, true, false), e, Idle);
  }

  /** The handler of a mutating tool returns a result. */
  lemma {:induction false} Returns(cfg: Config, run: seq<Label>, w: World, p: RunProjection, output: Content)
    requires At(cfg, run, w, p) && w.place.InTool? && w.place.gate.Enter?
    requires Accepts(p, w.log == [], ToolCompleted(w.place.call.id, false, output))
    ensures var e := ToolCompleted(w.place.call.id, false, output);
            At(cfg, run + [Observe(Observation(output, false))], Extend(w, [e], Ready), Advance(p, e))
  {
    hide Execute, Project, Accepts, Advance, ToolEffect;
    ThenStores(cfg, run, w, p, Observe(Observation(output, false)), ToolCompleted(w.place.call.id, false, output), Ready);
  }

  /* ---------------------------------------------------------------- events of a tool */

  lemma {:induction false} RequestAdds(p: RunProjection, t: ToolRecord)
    requires p.status.Running? && p.HasOpenStep() && t.key == p.OpenKey() && t.state.Requested? && t.callIndex >= 0
    requires !Blank(t.callId) && !Blank(t.name) && IndexOfTool(p.tools, t.callId) == |p.tools|
    ensures var e := ToolRequested(t.callId, t.name, t.arguments, t.effect, t.callIndex);
            Accepts(p, false, e) && Advance(p, e) == p.(tools := p.tools + [t])
  {
    hide Blank, IndexOfTool, FindAssistant, StepsOfTurn;
  }

  lemma {:induction false} StartChanges(p: RunProjection, i: nat)
    requires p.status.Running? && p.HasOpenStep() && i < |p.tools| && p.tools[i].key == p.OpenKey() && p.tools[i].state.Requested?
    requires !Blank(p.tools[i].callId) && IndexOfTool(p.tools, p.tools[i].callId) == i
    ensures var e := ToolStarted(p.tools[i].callId);
            Accepts(p, false, e) && Advance(p, e) == p.(tools := p.tools[i := p.tools[i].(state := Started)])
  {
    hide Blank, IndexOfTool, FindAssistant, StepsOfTurn;
  }

  lemma {:induction false} EndChanges(p: RunProjection, i: nat, e: Event)
    requires p.status.Running? && p.HasOpenStep() && i < |p.tools| && p.tools[i].key == p.OpenKey() && p.tools[i].state.Started?
    requires !Blank(p.tools[i].callId) && IndexOfTool(p.tools, p.tools[i].callId) == i
    requires (e.ToolCompleted? && !e.isError && e.callId == p.tools[i].callId) || (e.ToolFailed? && e.callId == p.tools[i].callId)
    ensures Accepts(p, false, e)
    ensures Advance(p, e)
         == p.(tools := p.tools[i := p.tools[i].(state := if e.ToolFailed? then Errored else Succeeded)],
               messages := p.messages + [ToolResult(e.callId, p.tools[i].name, e.output, e.ToolFailed?)])
  {
    hide Blank, IndexOfTool, FindAssistant, StepsOfTurn;
  }

  /* ---------------------------------------------------------------- the first provider request */

  /** A run that has started, with the messages it was started with. */
  function Begun(messages: seq<(Role, string)>): RunProjection {
    INITIAL.(status := Running, messages := PlainMessages(messages), turn := 1)
  }

  const FIRST_STEP := StepStarted(1, 1)
  const KEY := StepKey(1, 1)

  function ToRequest(messages: seq<(Role, string)>): seq<Label> {
    [Launch(messages)] + [Act] + [Act]
  }

  lemma {:induction false} NoSteps(messages: seq<(Role, string)>)
    ensures StepsOfTurn([], 1) == 0 && FindAssistant([], KEY).None? && UncertainIndex([]) == 0
    ensures PendingIds([], NextStep) == [] && PendingIds([], NextTurn) == []
  {
  }

  lemma {:induction false} EmptyRun(cfg: Config)
    ensures At(cfg, [], EMPTY_WORLD, INITIAL)
  {
  }

  lemma {:induction false} Launches(cfg: Config, messages: seq<(Role, string)>)
    requires cfg.Valid() && forall i | 0 <= i < |messages| :: !BlankRole(messages[i].0)
    ensures At(cfg, [Launch(messages)], World(InitialBatch(messages), Ready, []), Begun(messages))
  {
    hide Project, Execute;
    EmptyRun(cfg);
    LaunchGood(cfg, messages);
    Then(cfg, [], EMPTY_WORLD, INITIAL, Launch(messages));
    assert [] + [Launch(messages)] == [Launch(messages)];
    assert [] + InitialBatch(messages) == InitialBatch(messages);
  }

  /** Every run comes to its first provider request, if nobody interferes. */
  lemma {:induction false} FirstRequest(cfg: Config, messages: seq<(Role, string)>)
    requires cfg.Valid() && forall i | 0 <= i < |messages| :: !BlankRole(messages[i].0)
    ensures At(cfg, ToRequest(messages), World(InitialBatch(messages) + [FIRST_STEP], InProvider, []), Begun(messages).(step := Some(1)))
  {
    hide Project, Execute, NextAction, PendingIds, StepsOfTurn, FindAssistant, HasUncertain;
    var p := Begun(messages);
    var q := p.(step := Some(1));
    Launches(cfg, messages);
    NoSteps(messages);
    NothingUncertain(p);
    NothingUncertain(q);
    var w := World(InitialBatch(messages), Ready, []);
    NextIs(cfg, w.log, p);
    Writes(cfg, [Launch(messages)], w, p, FIRST_STEP);
    var after := Extend(w, [FIRST_STEP], Ready);
    NextIs(cfg, after.log, q);
    AsksOrHalts(cfg, [Launch(messages)] + [Act], after, q);
  }

  lemma {:induction false} NothingUncertain(p: RunProjection)
    requires p.tools == []
    ensures !HasUncertain(p)
  {
  }

  /* ---------------------------------------------------------------- what the projector would let others write */

  const CANCELLED_EARLY := [Launch([])] + [Crash] + [Cancel]

  /** A run is cancelled between its steps. The driver will end it as cancelled, but the projector would accept a completion. */
  lemma {:induction false} CancelledRunCouldComplete()
    ensures NoTools().Valid() && Execute(NoTools(), CANCELLED_EARLY).Some?
    ensures var w := After(NoTools(), CANCELLED_EARLY);
            && Project(w.log).Some? && NextAction(NoTools(), w.log, StateOf(w)) == Write([RunCancelled])
            && Project(w.log + [RunCompleted]).Some?
  {
    hide Project, Execute, NextAction, StepsOfTurn, FindAssistant, PendingIds;
    var cfg, log, p := NoTools(), InitialBatch([]), Begun([]);
    Launches(cfg, []);
    Dies(cfg, [Launch([])], World(log, Ready, []), p);
    ThenStores(cfg, [Launch([])] + [Crash], World(log, Idle, []), p, Cancel, RunCancelling, Idle);
    NothingUncertain(p.(status := Cancelling));
    NextIs(cfg, log + [RunCancelling], p.(status := Cancelling));
    CancelledRunCompletes(log + [RunCancelling]);
  }

  /** While the driver waits for the provider, the projector would accept a new turn over the open step. */
  lemma {:induction false} StepCouldBeLeft()
    ensures NoTools().Valid() && Execute(NoTools(), ToRequest([])).Some?
    ensures var w := After(NoTools(), ToRequest([]));
            Project(w.log).Some? && StateOf(w).HasOpenStep() && Project(w.log + [TurnStarted(2)]).Some?
  {
    hide Project, Execute;
    FirstRequest(NoTools(), []);
    TurnOverOpenStep(ASKED_LOG, 2, []);
  }

  /* ---------------------------------------------------------------- a message during the only step */

  function Registry(registry: map<string, ToolDefinition>): Config {
    Config(Limits(3, 3, 100), Pipeline(registry, (d, c) => None, (c, a) => true, (d, c) => Allow))
  }

  function NoTools(): Config {
    Registry(map[])
  }

  const DONE := Response("", EndTurn, [], None)
  const DONE_RECORD := AssistantRecord(KEY, "", EndTurn, [], None, None)
  const DONE_EVENT := AssistantMessage(1, 1, "", EndTurn, [], None, None)
  const CLOSE := StepCompleted(1, 1)

  function Item(target: InboxTarget): InboxItem {
    InboxItem("m", Steering, target, User, "x", false)
  }

  function MessageEvent(target: InboxTarget): Event {
    InboxSubmitted("m", Steering, target, User, "x")
  }

  function Asked(target: InboxTarget): RunProjection {
    Begun([]).(step := Some(1), inbox := [Item(target)])
  }

  function Answered(target: InboxTarget): RunProjection {
    Asked(target).(assistants := [DONE_RECORD], messages := [FromAssistant("", [])])
  }

  function AfterStep(target: InboxTarget): RunProjection {
    Answered(target).(completed := [KEY])
  }

  const ASKED_LOG := InitialBatch([]) + [FIRST_STEP]

  function SubmittedLog(target: InboxTarget): seq<Event> {
    ASKED_LOG + [MessageEvent(target)]
  }

  function AnsweredLog(target: InboxTarget): seq<Event> {
    SubmittedLog(target) + [DONE_EVENT]
  }

  function ClosedLog(target: InboxTarget): seq<Event> {
    AnsweredLog(target) + [CLOSE]
  }

  function ToSubmission(target: InboxTarget): seq<Label> {
    ToRequest([]) + [Submit("m", Steering, target, User, "x")]
  }

  function ToClose(target: InboxTarget): seq<Label> {
    ToSubmission(target) + [Respond(DONE)] + [Act]
  }

  lemma {:induction false} Words()
    ensures !Blank("m") && !Blank("x") && !Blank("a") && !Blank("b") && !Blank("look") && !Blank("restart")
  {
    assert "m"[0] == 'm' && "x"[0] == 'x' && "a"[0] == 'a' && "b"[0] == 'b' && "look"[0] == 'l' && "restart"[0] == 'r';
  }

  lemma {:induction false} OneRecord(r: AssistantRecord)
    ensures FindAssistant([r], r.key) == Some(r)
  {
    assert [r][0] == r;
  }

  lemma {:induction false} MessageArrives(target: InboxTarget)
    ensures At(NoTools(), ToSubmission(target), World(SubmittedLog(target), InProvider, []), Asked(target))
  {
    hide Project, Execute, Blank;
    FirstRequest(NoTools(), []);
    Words();
    assert [] + [Item(target)] == [Item(target)];
    assert IndexOfItem([], "m") == 0;
    ThenStores(NoTools(), ToRequest([]), World(ASKED_LOG, InProvider, []), Begun([]).(step := Some(1)),
               Submit("m", Steering, target, User, "x"), MessageEvent(target), InProvider);
  }

  /** A second message with the same id is stored too, and then no projector accepts the log. */
  lemma {:induction false} UsedIdBreaksLog(target: InboxTarget)
    ensures Execute(NoTools(), ToSubmission(target)).Some?
    ensures var w := After(NoTools(), ToSubmission(target));
            && Suspended(w.place) && Project(w.log).Some? && StateOf(w).status.Running?
            && Project(w.log + [MessageEvent(target)]).None?
  {
    hide Project, Execute, Blank;
    Words();
    MessageArrives(target);
    assert [Item(target)][0].messageId == "m";
    SubmissionAccepted(SubmittedLog(target), "m", Steering, target, User, "x");
  }

  lemma {:induction false} StepAnswered(target: InboxTarget)
    ensures At(NoTools(), ToSubmission(target) + [Respond(DONE)], World(AnsweredLog(target), Ready, []), Answered(target))
  {
    hide Project, Execute;
    MessageArrives(target);
    NoSteps([]);
    assert [] + [DONE_RECORD] == [DONE_RECORD] && [] + [FromAssistant("", [])] == [FromAssistant("", [])];
    Answers(NoTools(), ToSubmission(target), World(SubmittedLog(target), InProvider, []), Asked(target), DONE);
  }

  lemma {:induction false} AffordsDone(limits: Limits, p: RunProjection)
    requires p.assistants == [DONE_RECORD] && limits.maxTokens >= 0
    ensures BudgetFailure(limits, p).None?
  {
    assert [DONE_RECORD][..0] == [];
    assert TokenCount([DONE_RECORD]) == 0 && CallCount([DONE_RECORD]) == 0;
  }

  lemma {:induction false} StepCloses(target: InboxTarget)
    ensures At(NoTools(), ToClose(target), World(ClosedLog(target), Ready, []), AfterStep(target))
  {
    hide Project, Execute, NextAction, FindAssistant, BudgetFailure, HasUncertain, PendingIds, StepsOfTurn;
    StepAnswered(target);
    OneRecord(DONE_RECORD);
    AffordsDone(NoTools().limits, Answered(target));
    NothingUncertain(Answered(target));
    NextIs(NoTools(), AnsweredLog(target), Answered(target));
    assert [] + [KEY] == [KEY];
    Writes(NoTools(), ToSubmission(target) + [Respond(DONE)], World(AnsweredLog(target), Ready, []), Answered(target), CLOSE);
  }

  lemma {:induction false} PendingItems(target: InboxTarget)
    ensures PendingIds([Item(target)], NextStep) == if target.NextStep? then ["m"] else []
    ensures PendingIds([Item(target)], NextTurn) == if target.NextTurn? then ["m"] else []
  {
    assert [Item(target)][1..] == [];
  }

  /** What the driver does after the step. */
  lemma {:induction false} AfterClose(target: InboxTarget)
    ensures var a := NextAction(NoTools(), ClosedLog(target), AfterStep(target));
            if target.NextTurn? then a == OpenTurn else a == Write([RunCompleted])
  {
    hide NextAction, FindAssistant, BudgetFailure, HasUncertain, PendingIds, StepsOfTurn;
    OneRecord(DONE_RECORD);
    PendingItems(target);
    NothingUncertain(AfterStep(target));
    NextIs(NoTools(), ClosedLog(target), AfterStep(target));
  }

  /** A message for a next step that arrives during the last step is never delivered: the run is completed with the message
      still pending. */
  lemma {:induction false} UndeliveredAtCompletion()
    ensures NoTools().Valid() && Execute(NoTools(), ToClose(NextStep) + [Act]).Some?
    ensures var w := After(NoTools(), ToClose(NextStep) + [Act]);
            && Project(w.log).Some? && StateOf(w).status.Completed? && PendingIds(StateOf(w).inbox, NextStep) == ["m"]
  {
    hide Project, Execute, NextAction, FindAssistant, PendingIds;
    StepCloses(NextStep);
    AfterClose(NextStep);
    PendingItems(NextStep);
    Writes(NoTools(), ToClose(NextStep), World(ClosedLog(NextStep), Ready, []), AfterStep(NextStep), RunCompleted);
  }

  /** A message for a next turn makes the driver open one; when it dies before the delivery, the rest of the log is another
      than it would have been, whatever the provider and the tools do. */
  lemma {:induction false} CrashDelaysDelivery(env: Environment)
    requires env.Valid()
    ensures NoTools().Valid() && Execute(NoTools(), ToClose(NextTurn) + [Act]).Some?
    ensures var w := After(NoTools(), ToClose(NextTurn) + [Act]);
            w.place.TurnOpened? && w.log != [] && !SameEnd(NoTools(), env, w, Restart(w))
  {
    hide Project, Execute, NextAction, FindAssistant, PendingIds, StepsOfTurn, WorldOk, SameEnd;
    var cfg, run := NoTools(), ToClose(NextTurn);
    var w := World(ClosedLog(NextTurn), Ready, []);
    StepCloses(NextTurn);
    AfterClose(NextTurn);
    ThenStores(cfg, run, w, AfterStep(NextTurn), Act, TurnStarted(2), TurnOpened);
    var after := After(cfg, run + [Act]);
    RunsAreGood(cfg, run + [Act]);
    var base, cursor := Witness(cfg, run + [Act]);
    CrashInTurn(cfg, env, after, base, cursor);
  }

  /* ---------------------------------------------------------------- a tool role at the head of a run */

  const POSING: seq<(Role, string)> := [(Tool, "x")]

  /** A run may be started with a text that has the tool role. Its first provider request is well-formed, but cannot be
      trimmed at all: any budget too small for the whole reports an orphan. */
  lemma {:induction false} ToolTextCannotBeTrimmed(est: Estimator, s: Snapshot, budget: int)
    requires est.Valid() && s.Valid() && 1 <= budget < s.estimatedTokens
    requires s.messages == [Plain(Tool, "x")]
    ensures Execute(NoTools(), ToRequest(POSING)).Some?
    ensures var w := After(NoTools(), ToRequest(POSING));
            w.place.InProvider? && Project(w.log).Some? && StateOf(w).messages == s.messages && WellFormed(s.messages)
    ensures Trim(est, s, budget) == OrphanResult
  {
    hide Project, Execute, Trim, Groups;
    FirstRequest(NoTools(), POSING);
    assert POSING[..0] == [];
    assert PlainMessages(POSING) == [] + [Plain(Tool, "x")];
    PlainWellFormed(POSING);
    assert s.messages[0] == Plain(Tool, "x");
    TrimmedWellFormed(est, s, budget);
  }

  /* ---------------------------------------------------------------- one call */

  const LOOK := ToolDefinition("look", Read, false, None)
  const RESTART := ToolDefinition("restart", Mutate, true, None)

  function Looking(): Config {
    Registry(map["look" := LOOK])
  }

  function Call(name: string): ToolCall {
    ToolCall("a", name, "{}")
  }

  function Calling(name: string): Response {
    Response("", ToolUse, [Call(name)], None)
  }

  function CallRecord(name: string, step: int): AssistantRecord {
    AssistantRecord(StepKey(1, step), "", ToolUse, [Call(name)], None, None)
  }

  function CallTool(name: string, effect: Effect, state: ToolState): ToolRecord {
    ToolRecord("a", name, "{}", effect, KEY, 0, state)
  }

  /** The first step, with its response and the tools so far. */
  function CalledOnce(name: string, tools: seq<ToolRecord>): RunProjection {
    Begun([]).(step := Some(1), assistants := [CallRecord(name, 1)], messages := [FromAssistant("", [Call(name)])], tools := tools)
  }

  function CalledLog(name: string): seq<Event> {
    ASKED_LOG + [AssistantMessage(1, 1, "", ToolUse, [Call(name)], None, None)]
  }

  function RequestedLog(name: string, effect: Effect): seq<Event> {
    CalledLog(name) + [ToolRequested("a", name, "{}", effect, 0)]
  }

  function ToCall(name: string): seq<Label> {
    ToRequest([]) + [Respond(Calling(name))]
  }

  lemma {:induction false} CallArrives(cfg: Config, name: string)
    requires cfg.Valid() && !Blank(name)
    ensures At(cfg, ToCall(name), World(CalledLog(name), Ready, []), CalledOnce(name, []))
  {
    hide Project, Execute, Blank;
    FirstRequest(cfg, []);
    NoSteps([]);
    Words();
    assert [] + [CallRecord(name, 1)] == [CallRecord(name, 1)] && [] + [FromAssistant("", [Call(name)])] == [FromAssistant("", [Call(name)])];
    Answers(cfg, ToRequest([]), World(ASKED_LOG, InProvider, []), Begun([]).(step := Some(1)), Calling(name));
  }

  lemma {:induction false} AffordsCall(limits: Limits, p: RunProjection, name: string)
    requires p.assistants == [CallRecord(name, 1)] && limits.maxToolCalls >= 1
    ensures BudgetFailure(limits, p).None?
  {
    assert [CallRecord(name, 1)][..0] == [];
    assert TokenCount([CallRecord(name, 1)]) == 0 && CallCount([CallRecord(name, 1)]) == 1;
  }

  lemma {:induction false} NoToolYet(name: string)
    ensures FirstUnknown([Call(name)], []) == 0
  {
  }

  lemma {:induction false} OneTool(t: ToolRecord, name: string)
    requires t.callId == "a"
    ensures FirstUnknown([Call(name)], [t]) == 1 && IndexOfTool([t], "a") == 0
    ensures FirstUnfinished([t]) == if t.IsDone() then 1 else 0
    ensures ToolsOfStep([t], t.key) == [t] && SortByIndex([t]) == [t]
  {
    assert [t][..0] == [] && [t][1..] == [];
    assert [t][0].callId == Call(name).id;
    assert [Call(name)][1..] == [];
    assert SortByIndex([]) == [];
  }

  lemma {:induction false} CertainTool(p: RunProjection, t: ToolRecord)
    requires p.tools == [t]
    ensures HasUncertain(p) <==> IsUncertain(t)
  {
    assert [t][1..] == [];
  }

  lemma {:induction false} ThenRequests(cfg: Config, name: string)
    requires cfg.Valid() && cfg.limits.maxToolCalls >= 1 && !Blank(name)
    ensures At(cfg, ToCall(name) + [Act],
               World(RequestedLog(name, ToolEffect(cfg.pipeline, Call(name))), Ready, []),
               CalledOnce(name, [CallTool(name, ToolEffect(cfg.pipeline, Call(name)), Requested)]))
  {
    hide Project, Execute, NextAction, FindAssistant, BudgetFailure, HasUncertain, PendingIds, StepsOfTurn, ToolEffect, Blank, Accepts, Advance;
    var p := CalledOnce(name, []);
    CallArrives(cfg, name);
    Words();
    NothingUncertain(p);
    OneRecord(CallRecord(name, 1));
    AffordsCall(cfg.limits, p, name);
    NextIs(cfg, CalledLog(name), p);
    NoToolYet(name);
    assert IndexOfTool([], "a") == 0;
    var t := CallTool(name, ToolEffect(cfg.pipeline, Call(name)), Requested);
    assert [] + [t] == [t];
    RequestAdds(p, t);
    Writes(cfg, ToCall(name), World(CalledLog(name), Ready, []), p, RequestEvent(cfg, Call(name), 0));
  }

  /** What the driver does with the only tool of the step. */
  lemma {:induction false} OnOneTool(cfg: Config, log: seq<Event>, p: RunProjection, name: string, t: ToolRecord)
    requires cfg.limits.maxToolCalls >= 1 && p == CalledOnce(name, [t]).(messages := p.messages) && t == CallTool(name, t.effect, t.state)
    ensures NextAction(cfg, log, p)
         == if IsUncertain(t) then Write([UncertainEvent(p)])
            else if t.IsDone() then Write([CLOSE])
            else if t.state.Started? then RunTool(Call(name))
            else LaunchAction(cfg, log, Call(name), t.effect)
  {
    hide NextAction, FindAssistant, BudgetFailure, HasUncertain, PendingIds, StepsOfTurn, LaunchAction, SortByIndex, ToolsOfStep, FirstUnfinished,
         FirstUnknown;
    OneRecord(CallRecord(name, 1));
    AffordsCall(cfg.limits, p, name);
    CertainTool(p, t);
    OneTool(t, name);
    NextIs(cfg, log, p);
  }

  lemma {:induction false} StartsOneTool(name: string, effect: Effect)
    ensures Accepts(CalledOnce(name, [CallTool(name, effect, Requested)]), false, ToolStarted("a"))
    ensures Advance(CalledOnce(name, [CallTool(name, effect, Requested)]), ToolStarted("a")) == CalledOnce(name, [CallTool(name, effect, Started)])
  {
    hide Blank, Accepts, Advance, IndexOfTool;
    Words();
    var t := CallTool(name, effect, Requested);
    OneTool(t, name);
    StartChanges(CalledOnce(name, [t]), 0);
    assert [t][0 := t.(state := Started)] == [CallTool(name, effect, Started)];
  }

  function LookedLog(): seq<Event> {
    RequestedLog("look", Read) + [ToolStarted("a")]
  }

  function ToLook(): seq<Label> {
    ToCall("look") + [Act] + [Act] + [SecondHalf]
  }

  lemma {:induction false} Looks()
    ensures At(Looking(), ToLook(), World(LookedLog(), InTool(Call("look"), Enter), ["a"]), CalledOnce("look", [CallTool("look", Read, Started)]))
  {
    hide Project, Execute, NextAction, LookUpApproval, Accepts, Advance;
    var cfg := Looking();
    var p := CalledOnce("look", [CallTool("look", Read, Requested)]);
    Words();
    ThenRequests(cfg, "look");
    OnOneTool(cfg, RequestedLog("look", Read), p, "look", CallTool("look", Read, Requested));
    StartsOneTool("look", Read);
    Begins(cfg, ToCall("look") + [Act], World(RequestedLog("look", Read), Ready, []), p, "a", Starting(Call("look")));
    assert [] + ["a"] == ["a"];
    Enters(cfg, ToCall("look") + [Act] + [Act], World(LookedLog(), Starting(Call("look")), []), Advance(p, ToolStarted("a")), Call("look"));
  }

  /** When the run is cancelled while a reading handler works, a crash loses its result, whatever it is. */
  lemma {:induction false} CrashLosesResult(env: Environment)
    requires env.Valid()
    ensures Looking().Valid() && Execute(Looking(), ToLook() + [Cancel]).Some?
    ensures var w := After(Looking(), ToLook() + [Cancel]);
            w.place == InTool(Call("look"), Enter) && w.log != [] && !SameEnd(Looking(), env, w, Restart(w))
  {
    hide Project, Execute, NextAction, WorldOk, SameEnd;
    var cfg := Looking();
    var before := World(LookedLog(), InTool(Call("look"), Enter), ["a"]);
    var p := CalledOnce("look", [CallTool("look", Read, Started)]);
    Words();
    Looks();
    ThenStores(cfg, ToLook(), before, p, Cancel, RunCancelling, before.place);
    var w := After(cfg, ToLook() + [Cancel]);
    RunsAreGood(cfg, ToLook() + [Cancel]);
    var base, cursor := Witness(cfg, ToLook() + [Cancel]);
    PlaceHolds(cfg, w, base, cursor);
    Overtaken(cfg, env, w, base, cursor);
  }

  /* ---------------------------------------------------------------- a call id used twice */

  const UNKNOWN := ErrorObject(UnknownTool, "look")
  const FAILED_TOOL := ToolRecord("a", "look", "{}", Read, KEY, 0, Errored)
  const ROUND: seq<Message> := [FromAssistant("", [ToolCall("a", "look", "{}")]), ToolResult("a", "look", UNKNOWN, true)]

  function Refused(completed: seq<StepKey>, step: int): RunProjection {
    CalledOnce("look", [FAILED_TOOL]).(messages := ROUND, completed := completed, step := Some(step))
  }

  function RefusedLog(): seq<Event> {
    RequestedLog("look", Read) + [ToolStarted("a")] + [ToolFailed("a", UNKNOWN)]
  }

  function ToRefusal(): seq<Label> {
    ToCall("look") + [Act] + [Act] + [SecondHalf]
  }

  lemma {:induction false} Refuses()
    ensures At(NoTools(), ToRefusal(), World(RefusedLog(), Ready, []), Refused([], 1))
  {
    hide Project, Execute, NextAction;
    var cfg := NoTools();
    var p := CalledOnce("look", [CallTool("look", Read, Requested)]);
    var q := CalledOnce("look", [CallTool("look", Read, Started)]);
    Words();
    ThenRequests(cfg, "look");
    OnOneTool(cfg, RequestedLog("look", Read), p, "look", CallTool("look", Read, Requested));
    StartsOneTool("look", Read);
    Begins(cfg, ToCall("look") + [Act], World(RequestedLog("look", Read), Ready, []), p, "a", Rejecting("a", UNKNOWN));
    FailsOneTool();
    ThenStores(cfg, ToCall("look") + [Act] + [Act], World(RequestedLog("look", Read) + [ToolStarted("a")], Rejecting("a", UNKNOWN), []), q,
               SecondHalf, ToolFailed("a", UNKNOWN), Ready);
  }

  lemma {:induction false} FailsOneTool()
    ensures var q := CalledOnce("look", [CallTool("look", Read, Started)]);
            Accepts(q, false, ToolFailed("a", UNKNOWN)) && Advance(q, ToolFailed("a", UNKNOWN)) == Refused([], 1)
  {
    hide Blank, Accepts, Advance, IndexOfTool;
    Words();
    var t := CallTool("look", Read, Started);
    OneTool(t, "look");
    EndChanges(CalledOnce("look", [t]), 0, ToolFailed("a", UNKNOWN));
    assert [t][0 := t.(state := Errored)] == [FAILED_TOOL];
    assert [FromAssistant("", [Call("look")])] + [ToolResult("a", "look", UNKNOWN, true)] == ROUND;
  }

  function SecondLog(): seq<Event> {
    RefusedLog() + [CLOSE] + [StepStarted(1, 2)]
  }

  function ToSecond(): seq<Label> {
    ToRefusal() + [Act] + [Act] + [Act]
  }

  lemma {:induction false} NoRecordYet()
    ensures FindAssistant([CallRecord("look", 1)], StepKey(1, 2)).None? && StepsOfTurn([KEY], 1) == 1
  {
    OnlyRecord(CallRecord("look", 1), StepKey(1, 2));
    assert [KEY][..0] == [];
    assert StepsOfTurn([], 1) == 0;
  }

  lemma {:induction false} AsksAgain()
    ensures At(NoTools(), ToSecond(), World(SecondLog(), InProvider, []), Refused([KEY], 2))
  {
    hide Project, Execute, NextAction, FindAssistant, BudgetFailure, HasUncertain, PendingIds, StepsOfTurn;
    var cfg := NoTools();
    var p, q := Refused([], 1), Refused([KEY], 1);
    Refuses();
    OnOneTool(cfg, RefusedLog(), p, "look", FAILED_TOOL);
    OneRecord(CallRecord("look", 1));
    NoRecordYet();
    NoSteps([]);
    assert [] + [KEY] == [KEY];
    Writes(cfg, ToRefusal(), World(RefusedLog(), Ready, []), p, CLOSE);
    CertainTool(q, FAILED_TOOL);
    NextIs(cfg, RefusedLog() + [CLOSE], q);
    Writes(cfg, ToRefusal() + [Act], World(RefusedLog() + [CLOSE], Ready, []), q, StepStarted(1, 2));
    CertainTool(Refused([KEY], 2), FAILED_TOOL);
    NextIs(cfg, SecondLog(), Refused([KEY], 2));
    AsksOrHalts(cfg, ToRefusal() + [Act] + [Act], World(SecondLog(), Ready, []), Refused([KEY], 2));
  }

  /** After the second response with the same call. */
  function Again(completed: seq<StepKey>, step: int): RunProjection {
    Refused(completed, step).(assistants := [CallRecord("look", 1)] + [CallRecord("look", 2)],
                              messages := ROUND + [FromAssistant("", [Call("look")])])
  }

  const SECOND_ANSWER := AssistantMessage(1, 2, "", ToolUse, [ToolCall("a", "look", "{}")], None, None)
  const SECOND_CLOSE := StepCompleted(1, 2)

  lemma {:induction false} OnlyRecord(r: AssistantRecord, key: StepKey)
    ensures FindAssistant([r], key) == if r.key == key then Some(r) else None
    ensures TokenCount([r]) == OrZero(r.inputTokens) + OrZero(r.outputTokens) && CallCount([r]) == |r.toolCalls|
  {
    assert [r][..0] == [];
    assert FindAssistant([], key).None? && TokenCount([]) == 0 && CallCount([]) == 0;
  }

  lemma {:induction false} TwoRecords()
    ensures var r := [CallRecord("look", 1)] + [CallRecord("look", 2)];
            && FindAssistant(r, StepKey(1, 2)) == Some(CallRecord("look", 2))
            && FindAssistant(r, StepKey(1, 3)).None?
            && TokenCount(r) == 0 && CallCount(r) == 2
  {
    var a, b := CallRecord("look", 1), CallRecord("look", 2);
    var r := [a] + [b];
    assert r[..|r| - 1] == [a];
    OnlyRecord(a, StepKey(1, 3));
  }

  lemma {:induction false} SameIds()
    ensures !FreshIds([CallRecord("look", 1)] + [CallRecord("look", 2)])
  {
    hide FreshIds, Called;
    var a, b := CallRecord("look", 1), CallRecord("look", 2);
    assert a.toolCalls[0].id == "a";
    RecordsSnoc([], a, "a");
    assert [] + [a] == [a];
    RecordsSnoc([a], b, "a");
    assert Called([a], b.toolCalls[0].id);
  }

  lemma {:induction false} TwoSteps()
    ensures StepsOfTurn([KEY] + [StepKey(1, 2)], 1) == 2
    ensures ToolsOfStep([FAILED_TOOL], StepKey(1, 2)) == [] && SortByIndex([]) == [] && FirstUnfinished([]) == 0
  {
    var keys := [KEY] + [StepKey(1, 2)];
    NoRecordYet();
    assert keys[..|keys| - 1] == [KEY];
    assert [FAILED_TOOL][..0] == [] && ToolsOfStep([], StepKey(1, 2)) == [];
  }

  lemma {:induction false} AnswersAgain()
    ensures At(NoTools(), ToSecond() + [Respond(Calling("look"))] + [Act],
               World(SecondLog() + [SECOND_ANSWER] + [SECOND_CLOSE], Ready, []), Again([KEY] + [StepKey(1, 2)], 2))
  {
    hide Project, Execute, NextAction, FindAssistant, HasUncertain, PendingIds, StepsOfTurn, SortByIndex, ToolsOfStep, FirstUnfinished,
         FirstUnknown, TokenCount, CallCount;
    var cfg := NoTools();
    AsksAgain();
    NoRecordYet();
    Words();
    Answers(cfg, ToSecond(), World(SecondLog(), InProvider, []), Refused([KEY], 2), Calling("look"));
    var p := Again([KEY], 2);
    TwoRecords();
    TwoSteps();
    OneTool(FAILED_TOOL, "look");
    CertainTool(p, FAILED_TOOL);
    NextIs(cfg, SecondLog() + [SECOND_ANSWER], p);
    Writes(cfg, ToSecond() + [Respond(Calling("look"))], World(SecondLog() + [SECOND_ANSWER], Ready, []), p, SECOND_CLOSE);
  }

  function ToReuse(): seq<Label> {
    ToSecond() + [Respond(Calling("look"))] + [Act] + [Act] + [Act]
  }

  /** A provider that uses a call id again in a later response: the driver asks it a third time with a request in which the
      second call has no result. */
  lemma {:induction false} ReusedCallUnanswered()
    ensures NoTools().Valid() && Execute(NoTools(), ToReuse()).Some?
    ensures var w := After(NoTools(), ToReuse());
            w.place.InProvider? && Project(w.log).Some? && !WellFormed(StateOf(w).messages)
  {
    hide Project, Execute, NextAction, FindAssistant, BudgetFailure, HasUncertain, PendingIds, StepsOfTurn, WellFormed, FreshIds;
    var cfg := NoTools();
    var keys := [KEY] + [StepKey(1, 2)];
    var run := ToSecond() + [Respond(Calling("look"))] + [Act];
    var log := SecondLog() + [SECOND_ANSWER] + [SECOND_CLOSE];
    var p, q := Again(keys, 2), Again(keys, 3);
    AnswersAgain();
    TwoRecords();
    SameIds();
    TwoSteps();
    NoSteps([]);
    CertainTool(p, FAILED_TOOL);
    NextIs(cfg, log, p);
    Writes(cfg, run, World(log, Ready, []), p, StepStarted(1, 3));
    CertainTool(q, FAILED_TOOL);
    NextIs(cfg, log + [StepStarted(1, 3)], q);
    AsksOrHalts(cfg, run + [Act], World(log + [StepStarted(1, 3)], Ready, []), q);
    RequestsWellFormed(cfg, ToReuse());
  }

  /* ---------------------------------------------------------------- two mutating calls */

  function Restarting(): Config {
    Registry(map["restart" := RESTART])
  }

  const FIRST := ToolCall("a", "restart", "{}")
  const SECOND := ToolCall("b", "restart", "{}")
  const PAIR := Response("", ToolUse, [FIRST, SECOND], None)
  const PAIR_RECORD := AssistantRecord(KEY, "", ToolUse, [FIRST, SECOND], None, None)
  const REQUEST_FIRST := ToolRequested("a", "restart", "{}", Mutate, 0)
  const REQUEST_SECOND := ToolRequested("b", "restart", "{}", Mutate, 1)
  const ASK_FIRST := ApprovalRequested(ApprovalOf("a"), "a")
  const ASK_SECOND := ApprovalRequested(ApprovalOf("b"), "b")
  const GRANT_FIRST := ApprovalDecided(ApprovalOf("a"), true)
  const OUTPUT := Text("done")

  function ToolA(state: ToolState): ToolRecord {
    ToolRecord("a", "restart", "{}", Mutate, KEY, 0, state)
  }

  function ToolB(): ToolRecord {
    ToolRecord("b", "restart", "{}", Mutate, KEY, 1, Requested)
  }

  function Paired(status: RunStatus, tools: seq<ToolRecord>, results: seq<Message>): RunProjection {
    Begun([]).(status := status, step := Some(1), assistants := [PAIR_RECORD], tools := tools,
               messages := [FromAssistant("", [FIRST, SECOND])] + results)
  }

  function PairLog(): seq<Event> {
    ASKED_LOG + [AssistantMessage(1, 1, "", ToolUse, [FIRST, SECOND], None, None)]
  }

  function BothLog(): seq<Event> {
    PairLog() + [REQUEST_FIRST] + [REQUEST_SECOND]
  }

  function GrantedLog(): seq<Event> {
    BothLog() + [ASK_FIRST] + [GRANT_FIRST]
  }

  function BegunLog(): seq<Event> {
    GrantedLog() + [ToolStarted("a")]
  }

  function FinishedLog(): seq<Event> {
    BegunLog() + [ToolCompleted("a", false, OUTPUT)]
  }

  function ToPair(): seq<Label> {
    ToRequest([]) + [Respond(PAIR)]
  }

  function ToBoth(): seq<Label> {
    ToPair() + [Act] + [Act]
  }

  function ToStart(): seq<Label> {
    ToBoth() + [Act] + [Act] + [Settle("a", true, false)] + [Resume] + [Act]
  }

  function ToHandler(): seq<Label> {
    ToStart() + [SecondHalf]
  }

  function ToWaiting(): seq<Label> {
    ToHandler() + [Observe(Observation(OUTPUT, false))] + [Act] + [Act]
  }

  lemma {:induction false} Pairs()
    ensures At(Restarting(), ToPair(), World(PairLog(), Ready, []), Paired(Running, [], []))
  {
    hide Project, Execute, Blank;
    Words();
    FirstRequest(Restarting(), []);
    NoSteps([]);
    assert [] + [PAIR_RECORD] == [PAIR_RECORD];
    assert [] + [FromAssistant("", [FIRST, SECOND])] == [FromAssistant("", [FIRST, SECOND])] + [];
    Answers(Restarting(), ToRequest([]), World(ASKED_LOG, InProvider, []), Begun([]).(step := Some(1)), PAIR);
  }

  lemma {:induction false} AffordsPair(limits: Limits, p: RunProjection)
    requires p.assistants == [PAIR_RECORD] && limits.maxToolCalls >= 2
    ensures BudgetFailure(limits, p).None?
  {
    assert [PAIR_RECORD][..0] == [];
    assert TokenCount([PAIR_RECORD]) == 0 && CallCount([PAIR_RECORD]) == 2;
  }

  lemma {:induction false} KnownOfPair(a: ToolRecord, b: ToolRecord)
    requires a.callId == "a" && b.callId == "b"
    ensures FirstUnknown([FIRST, SECOND], []) == 0 && FirstUnknown([FIRST, SECOND], [a]) == 1
    ensures FirstUnknown([FIRST, SECOND], [a, b]) == 2
    ensures IndexOfTool([], "a") == 0 && IndexOfTool([a], "b") == 1 && IndexOfTool([a, b], "a") == 0
  {
    var calls := [FIRST, SECOND];
    assert calls[1..] == [SECOND] && calls[1..][1..] == [];
    assert [a][0].callId == "a" && [a, b][0].callId == "a" && [a, b][1].callId == "b";
    assert KnowsTool([a], "a") && !KnowsTool([a], "b") && KnowsTool([a, b], "a") && KnowsTool([a, b], "b");
  }

  lemma {:induction false} OrderOfPair(a: ToolRecord, b: ToolRecord)
    requires a.key == b.key == KEY && a.callIndex == 0 && b.callIndex == 1
    ensures SortByIndex(ToolsOfStep([a, b], KEY)) == [a, b]
    ensures FirstUnfinished([a, b]) == if !a.IsDone() then 0 else if !b.IsDone() then 1 else 2
  {
    assert [a, b][..1] == [a] && [a][..0] == [];
    assert ToolsOfStep([a], KEY) == [a];
    assert ToolsOfStep([a, b], KEY) == [a, b];
    assert SortByIndex([]) == [] && SortByIndex([a]) == [a];
    assert InsertByIndex([a], b) == [a, b];
    assert [a, b][1..] == [b] && [b][1..] == [];
  }

  lemma {:induction false} CertainPair(p: RunProjection, a: ToolRecord, b: ToolRecord)
    requires p.tools == [a, b]
    ensures UncertainIndex(p.tools) == if IsUncertain(a) then 0 else if IsUncertain(b) then 1 else 2
  {
    assert [a, b][1..] == [b] && [b][1..] == [];
  }

  lemma {:induction false} RequestsBoth()
    ensures At(Restarting(), ToBoth(), World(BothLog(), Ready, []), Paired(Running, [ToolA(Requested), ToolB()], []))
  {
    hide Project, Execute, NextAction, FindAssistant, BudgetFailure, HasUncertain, PendingIds, StepsOfTurn, Blank, IndexOfTool, FirstUnknown,
         Accepts, Advance;
    var cfg := Restarting();
    var p, q := Paired(Running, [], []), Paired(Running, [ToolA(Requested)], []);
    Pairs();
    Words();
    OneRecord(PAIR_RECORD);
    KnownOfPair(ToolA(Requested), ToolB());
    NothingUncertain(p);
    AffordsPair(cfg.limits, p);
    NextIs(cfg, PairLog(), p);
    assert [] + [ToolA(Requested)] == [ToolA(Requested)];
    RequestAdds(p, ToolA(Requested));
    Writes(cfg, ToPair(), World(PairLog(), Ready, []), p, REQUEST_FIRST);
    CertainTool(q, ToolA(Requested));
    AffordsPair(cfg.limits, q);
    NextIs(cfg, PairLog() + [REQUEST_FIRST], q);
    assert [ToolA(Requested)] + [ToolB()] == [ToolA(Requested), ToolB()];
    RequestAdds(q, ToolB());
    Writes(cfg, ToPair() + [Act], World(PairLog() + [REQUEST_FIRST], Ready, []), q, REQUEST_SECOND);
  }

  /** What the driver does with the first unfinished tool of the pair. */
  lemma {:induction false} OnPair(log: seq<Event>, state: ToolState, results: seq<Message>)
    ensures var p := Paired(Running, [ToolA(state), ToolB()], results);
            NextAction(Restarting(), log, p)
            == if state.Started? then Write([RunFailedUncertain(UncertainMutation("a"))])
               else LaunchAction(Restarting(), log, if state.Requested? then FIRST else SECOND, Mutate)
  {
    hide NextAction, FindAssistant, BudgetFailure, PendingIds, StepsOfTurn, LaunchAction, SortByIndex, ToolsOfStep, FirstUnfinished, FirstUnknown,
         UncertainIndex;
    var p := Paired(Running, [ToolA(state), ToolB()], results);
    OneRecord(PAIR_RECORD);
    KnownOfPair(ToolA(state), ToolB());
    OrderOfPair(ToolA(state), ToolB());
    CertainPair(p, ToolA(state), ToolB());
    AffordsPair(Restarting().limits, p);
    NextIs(Restarting(), log, p);
  }

  lemma {:induction false} Undecided(log: seq<Event>, id: string)
    requires forall i | 0 <= i < |log| :: !log[i].ApprovalDecided?
    ensures FirstDecision(log, id).None? && LastDecision(log, id).None?
  {
    if log != [] {
      Undecided(log[..|log| - 1], id);
    }
  }

  lemma {:induction false} Decisions()
    ensures FirstDecision(BothLog(), "a").None? && FirstDecision(FinishedLog(), "b").None?
    ensures FirstDecision(GrantedLog(), "a") == Some(true) && LastDecision(BegunLog(), "a") == Some(true)
    ensures WasRequested(BothLog() + [ASK_FIRST], "a") && WasRequested(BegunLog(), "a") && WasRequested(FinishedLog() + [ASK_SECOND], "a")
  {
    hide FirstDecision, LastDecision;
    var asked := BothLog() + [ASK_FIRST];
    assert asked[|asked| - 1] == ASK_FIRST;
    assert BegunLog()[|asked| - 1] == ASK_FIRST && (FinishedLog() + [ASK_SECOND])[|asked| - 1] == ASK_FIRST;
    Undecided(BothLog(), "a");
    Undecided(BothLog(), "b");
    ApprovalsSnoc(BothLog(), ASK_FIRST, "a");
    ApprovalsSnoc(BothLog(), ASK_FIRST, "b");
    ApprovalsSnoc(asked, GRANT_FIRST, "a");
    ApprovalsSnoc(asked, GRANT_FIRST, "b");
    ApprovalsSnoc(GrantedLog(), ToolStarted("a"), "a");
    ApprovalsSnoc(GrantedLog(), ToolStarted("a"), "b");
    ApprovalsSnoc(BegunLog(), ToolCompleted("a", false, OUTPUT), "b");
  }

  lemma {:induction false} AskWaits(p: RunProjection, id: RequestId, callId: string)
    requires p.status.Running?
    ensures Accepts(p, false, ApprovalRequested(id, callId)) && Advance(p, ApprovalRequested(id, callId)) == p.(status := WaitingApproval)
  {
    hide FindAssistant, StepsOfTurn, IndexOfTool;
  }

  lemma {:induction false} RestHalts(log: seq<Event>, p: RunProjection)
    requires p.status.WaitingApproval?
    ensures NextAction(Restarting(), log, p).Halt?
  {
  }

  lemma {:induction false} WaitsForFirst()
    ensures At(Restarting(), ToBoth() + [Act] + [Act], World(BothLog() + [ASK_FIRST], Idle, []),
               Paired(WaitingApproval, [ToolA(Requested), ToolB()], []))
  {
    hide Project, Execute, NextAction, At, Accepts, Advance, FirstDecision, LastDecision, WasRequested;
    var cfg := Restarting();
    var p, q := Paired(Running, [ToolA(Requested), ToolB()], []), Paired(WaitingApproval, [ToolA(Requested), ToolB()], []);
    RequestsBoth();
    Decisions();
    OnPair(BothLog(), Requested, []);
    AskWaits(p, ApprovalOf("a"), "a");
    Writes(cfg, ToBoth(), World(BothLog(), Ready, []), p, ASK_FIRST);
    RestHalts(BothLog() + [ASK_FIRST], q);
    AsksOrHalts(cfg, ToBoth() + [Act], World(BothLog() + [ASK_FIRST], Ready, []), q);
  }

  lemma {:induction false} GrantsFirst()
    ensures At(Restarting(), ToBoth() + [Act] + [Act] + [Settle("a", true, false)] + [Resume], World(GrantedLog(), Ready, []),
               Paired(Running, [ToolA(Requested), ToolB()], []))
  {
    hide Execute, Project, At, WasRequested, FirstDecision, LastDecision;
    var cfg := Restarting();
    var run := ToBoth() + [Act] + [Act];
    WaitsForFirst();
    Decisions();
    Grants(cfg, run, World(BothLog() + [ASK_FIRST], Idle, []), Paired(WaitingApproval, [ToolA(Requested), ToolB()], []), "a");
    Resumes(cfg, run + [Settle("a", true, false)], World(GrantedLog(), Idle, []), Paired(Running, [ToolA(Requested), ToolB()], []));
  }

  /** The first of the two tools starts. */
  lemma {:induction false} FirstStarts()
    ensures var p := Paired(Running, [ToolA(Requested), ToolB()], []);
            Accepts(p, false, ToolStarted("a")) && Advance(p, ToolStarted("a")) == Paired(Running, [ToolA(Started), ToolB()], [])
  {
    hide Blank, IndexOfTool, Accepts, Advance;
    Words();
    KnownOfPair(ToolA(Requested), ToolB());
    StartChanges(Paired(Running, [ToolA(Requested), ToolB()], []), 0);
    assert [ToolA(Requested), ToolB()][0 := ToolA(Started)] == [ToolA(Started), ToolB()];
  }

  /** It finishes. */
  lemma {:induction false} FirstEnds()
    ensures var q := Paired(Running, [ToolA(Started), ToolB()], []);
            && Accepts(q, false, ToolCompleted("a", false, OUTPUT))
            && Advance(q, ToolCompleted("a", false, OUTPUT)) == Paired(Running, [ToolA(Succeeded), ToolB()], [DONE_RESULT])
  {
    hide Blank, IndexOfTool, Accepts, Advance;
    Words();
    KnownOfPair(ToolA(Started), ToolB());
    EndChanges(Paired(Running, [ToolA(Started), ToolB()], []), 0, ToolCompleted("a", false, OUTPUT));
    assert [ToolA(Started), ToolB()][0 := ToolA(Succeeded)] == [ToolA(Succeeded), ToolB()];
    var m := [FromAssistant("", [FIRST, SECOND])];
    assert m + [] == m;
  }

  lemma {:induction false} FirstBegins()
    ensures At(Restarting(), ToStart(), World(BegunLog(), Starting(FIRST), []), Paired(Running, [ToolA(Started), ToolB()], []))
  {
    hide Project, Execute, NextAction, Accepts, Advance, WasRequested, FirstDecision, LastDecision, At;
    var run := ToBoth() + [Act] + [Act] + [Settle("a", true, false)] + [Resume];
    var p := Paired(Running, [ToolA(Requested), ToolB()], []);
    GrantsFirst();
    Decisions();
    FirstStarts();
    OnPair(GrantedLog(), Requested, []);
    Begins(Restarting(), run, World(GrantedLog(), Ready, []), p, "a", Starting(FIRST));
  }

  lemma {:induction false} GateOpens()
    ensures RunGate(Restarting().pipeline, FIRST, LookUpApproval(BegunLog(), Paired(Running, [ToolA(Started), ToolB()], []), FIRST)) == Enter
  {
    hide WasRequested, LastDecision, FirstDecision, IndexOfTool;
    Decisions();
    KnownOfPair(ToolA(Started), ToolB());
  }

  lemma {:induction false} FirstEnters()
    ensures At(Restarting(), ToHandler(), World(BegunLog(), InTool(FIRST, Enter), ["a"]), Paired(Running, [ToolA(Started), ToolB()], []))
  {
    hide At, RunGate, LookUpApproval;
    FirstBegins();
    GateOpens();
    assert [] + ["a"] == ["a"];
    Enters(Restarting(), ToStart(), World(BegunLog(), Starting(FIRST), []), Paired(Running, [ToolA(Started), ToolB()], []), FIRST);
  }

  /** A mutating handler is entered; when the process dies there and is started again, the run ends with an uncertain outcome
      and the handler is not entered again. */
  lemma {:induction false} MutationRunsOnce()
    ensures Restarting().Valid()
    ensures Execute(Restarting(), ToHandler()) == Some(World(BegunLog(), InTool(FIRST, Enter), ["a"]))
    ensures Execute(Restarting(), ToHandler() + [Crash] + [Resume] + [Act])
         == Some(World(BegunLog() + [RunFailedUncertain(UncertainMutation("a"))], Ready, ["a"]))
  {
    hide Project, Execute, NextAction;
    var cfg := Restarting();
    var p := Paired(Running, [ToolA(Started), ToolB()], []);
    Words();
    FirstEnters();
    Dies(cfg, ToHandler(), World(BegunLog(), InTool(FIRST, Enter), ["a"]), p);
    Resumes(cfg, ToHandler() + [Crash], World(BegunLog(), Idle, ["a"]), p);
    OnPair(BegunLog(), Started, []);
    Writes(cfg, ToHandler() + [Crash] + [Resume], World(BegunLog(), Ready, ["a"]), p, RunFailedUncertain(UncertainMutation("a")));
  }

  const DONE_RESULT := ToolResult("a", "restart", OUTPUT, false)

  lemma {:induction false} FinishesFirst()
    ensures At(Restarting(), ToHandler() + [Observe(Observation(OUTPUT, false))], World(FinishedLog(), Ready, ["a"]),
               Paired(Running, [ToolA(Succeeded), ToolB()], [DONE_RESULT]))
  {
    hide Execute, Project, At, Accepts, Advance;
    FirstEnters();
    FirstEnds();
    Returns(Restarting(), ToHandler(), World(BegunLog(), InTool(FIRST, Enter), ["a"]), Paired(Running, [ToolA(Started), ToolB()], []), OUTPUT);
  }

  lemma {:induction false} WaitsForSecond()
    ensures At(Restarting(), ToWaiting(), World(FinishedLog() + [ASK_SECOND], Idle, ["a"]),
               Paired(WaitingApproval, [ToolA(Succeeded), ToolB()], [DONE_RESULT]))
  {
    hide Project, Execute, NextAction, FirstDecision, LastDecision, WasRequested, At, Accepts, Advance;
    var cfg := Restarting();
    var observed := ToHandler() + [Observe(Observation(OUTPUT, false))];
    var p := Paired(Running, [ToolA(Succeeded), ToolB()], [DONE_RESULT]);
    var waiting := Paired(WaitingApproval, [ToolA(Succeeded), ToolB()], [DONE_RESULT]);
    FinishesFirst();
    Decisions();
    OnPair(FinishedLog(), Succeeded, [DONE_RESULT]);
    AskWaits(p, ApprovalOf("b"), "b");
    Writes(cfg, observed, World(FinishedLog(), Ready, ["a"]), p, ASK_SECOND);
    RestHalts(FinishedLog() + [ASK_SECOND], waiting);
    AsksOrHalts(cfg, observed + [Act], World(FinishedLog() + [ASK_SECOND], Ready, ["a"]), waiting);
  }

  /** The second call is the one the run waits for. */
  lemma {:induction false} SecondIsAwaited()
    ensures WaitingFor(Paired(WaitingApproval, [ToolA(Succeeded), ToolB()], [DONE_RESULT])) == Some("b")
  {
    hide FirstUnfinished;
    OrderOfPair(ToolA(Succeeded), ToolB());
  }

  lemma {:induction false} Redecides(w: World, approved: bool)
    requires Project(w.log).Some? && w.place.Idle? && StateOf(w).status.WaitingApproval? && WasRequested(w.log, "a")
    ensures Enabled(Restarting(), w, Settle("a", approved, true))
    ensures Perform(Restarting(), w, Settle("a", approved, true)) == Extend(w, [ApprovalDecided(ApprovalOf("a"), approved)], Idle)
  {
    hide Project, WasRequested;
    var e := ApprovalDecided(ApprovalOf("a"), approved);
    assert [e] + [] == [e];
  }

  /** What the decision for another call leads to. */
  lemma {:induction false} AsksOnceMore(run: seq<Label>, w: World, approved: bool)
    requires Restarting().Valid() && Execute(Restarting(), run) == Some(w) && w.log != [] && Project(w.log).Some?
    requires w.place.Idle? && StateOf(w).status.WaitingApproval? && WasRequested(w.log, "a") && WaitingFor(StateOf(w)) == Some("b")
    ensures var after := Extend(w, [ApprovalDecided(ApprovalOf("a"), approved)], Idle);
            Project(after.log).Some? && LawfulLog(Restarting(), after.log)
            && NextAction(Restarting(), after.log, StateOf(after)) == Write([ASK_SECOND])
  {
    hide Project, Execute, NextAction, WorldOk, WaitOk, WasRequested, LawfulLog, WaitingFor;
    var cfg := Restarting();
    RunsAreGood(cfg, run);
    var base, cursor := Witness(cfg, run);
    WaitingAtCursor(cfg, w, base, cursor);
    NextAfterDecision(cfg, w, "a", approved, base, cursor);
    WorldLawful(cfg, Extend(w, [ApprovalDecided(ApprovalOf("a"), approved)], Idle), base, cursor);
  }

  /** While the run waits for the second call the operator can decide the first one again. Whatever the decision, the driver
      then asks for the second call once more, and the log has no incident state. */
  lemma {:induction false} MisdirectedDecision(approved: bool)
    ensures Restarting().Valid() && Execute(Restarting(), ToWaiting()).Some?
    ensures var w := After(Restarting(), ToWaiting());
            && Project(w.log).Some? && WaitingFor(StateOf(w)) == Some("b") && Enabled(Restarting(), w, Settle("a", approved, true))
            && var after := Perform(Restarting(), w, Settle("a", approved, true));
               && Project(after.log).Some? && NextAction(Restarting(), after.log, StateOf(after)) == Write([ASK_SECOND])
               && IncidentOf(after.log).None?
  {
    hide Project, Execute, NextAction, WasRequested, LawfulLog, IncidentOf, DecisionsNamePending, WaitingFor, Enabled, Perform, FirstDecision,
         LastDecision;
    var cfg, w := Restarting(), World(FinishedLog() + [ASK_SECOND], Idle, ["a"]);
    Proper();
    WaitsForSecond();
    SecondIsAwaited();
    Decisions();
    Redecides(w, approved);
    AsksOnceMore(ToWaiting(), w, approved);
    Misnamed(approved);
    RuntimeLogsWithIncident(cfg, w.log + [ApprovalDecided(ApprovalOf("a"), approved)]);
  }

  lemma {:induction false} Proper()
    ensures Restarting().Valid()
  {
    Words();
  }

  /** The operator rejects the waiting call, a driver is started before the operator's second append, and both fail the run. */
  lemma {:induction false} RaceBreaksLog(env: Environment)
    requires env.Valid()
    ensures Restarting().Valid() && Execute(Restarting(), ToWaiting()).Some?
    ensures var w := After(Restarting(), ToWaiting());
            && Enabled(Restarting(), w, Settle("b", false, true))
            && var cut := Perform(Restarting(), w, Settle("b", false, true));
               && Invariant(Restarting(), Restart(cut))
               && Project(Finish(Restarting(), env, Restart(cut)).log + [RunFailed(OperatorRejected("b"))]).None?
  {
    hide Project, Execute, Invariant, WasRequested, Finish, WaitingFor, Enabled, Perform, FirstDecision, LastDecision;
    var cfg, w := Restarting(), World(FinishedLog() + [ASK_SECOND], Idle, ["a"]);
    Proper();
    WaitsForSecond();
    SecondIsAwaited();
    RunsAreGood(cfg, ToWaiting());
    SecondRequested();
    RejectionRace(cfg, env, w, "b");
  }

  lemma {:induction false} SecondRequested()
    ensures WasRequested(FinishedLog() + [ASK_SECOND], "b")
  {
    assert (FinishedLog() + [ASK_SECOND])[|FinishedLog()|] == ASK_SECOND;
  }

  lemma {:induction false} Misnamed(approved: bool)
    ensures !DecisionsNamePending(FinishedLog() + [ASK_SECOND] + [ApprovalDecided(ApprovalOf("a"), approved)])
  {
    var asked := FinishedLog() + [ASK_SECOND];
    var log := asked + [ApprovalDecided(ApprovalOf("a"), approved)];
    assert log[..|log| - 1] == asked && asked[|asked| - 1] == ASK_SECOND;
    assert LastRequest(asked) == Some(ApprovalOf("b"));
  }
}
