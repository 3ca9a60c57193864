/** The durable runtime refines the in-memory one: with reading tools, fresh call ids and nobody interfering, both ask the
    provider with the same contexts and end the same way, for every provider and every limit, exactly when the initial messages
    are given as the durable runtime sends them. */
module Equivalence {
  import opened Events
  import opened Projection
  import opened ToolPipeline
  import opened Runtime
  import opened Conversation
  import opened RuntimeInvariant
  import opened DriverLemmas
  import opened InvariantSteps
  import opened ContextEngine
  import opened RuntimeSafety
  import opened RuntimeRuns
  import opened Termination
  import opened Recovery
  import opened RunModels
  import opened ReactRuntime

  /** The durable runtime's environment: the provider sees the projected messages. */
  function EnvOf(ask: seq<ProviderMessage> -> Answer, tool: ToolCall -> Observation): Environment {
    Environment(log => if Project(log).Some? then ask(ProviderMessages(Project(log).value.messages)) else Broken(""), tool)
  }

  /** Every tool reads, and no policy asks for approval. */
  ghost predicate Ungated(cfg: Config) {
    forall call :: ToolEffect(cfg.pipeline, call).Read? && RunPreflight(cfg.pipeline, call) != Proceed(true)
  }

  /** `execute`, for an ungated pipeline: a rejected call is observed as its rejection. */
  function Executed(cfg: Config, tool: ToolCall -> Observation): ToolCall -> Observation {
    call => match RunPreflight(cfg.pipeline, call)
            case Rejected(output) => Observation(output, true)
            case Proceed(_) => tool(call)
  }

  /** The messages of the results, as the projector keeps them. */
  function ToolResults(observations: seq<ToolObservation>): (r: seq<Message>)
    ensures |r| == |observations|
  {
    if observations == [] then []
    else
      var o := observations[|observations| - 1];
      ToolResults(observations[..|observations| - 1]) + [ToolResult(o.callId, o.name, o.output, o.isError)]
  }

  /** The messages of a tool step, as the projector keeps them. */
  function StepRecord(step: StepResult): seq<Message> {
    [FromAssistant(step.response.text, step.response.toolCalls)] + ToolResults(step.observations)
  }

  lemma {:induction false} ResultsRendered(observations: seq<ToolObservation>)
    ensures ProviderMessages(ToolResults(observations)) == ResultMessages(observations)
  {
    if observations != [] {
      var o := observations[|observations| - 1];
      ResultsRendered(observations[..|observations| - 1]);
      ProviderMessagesConcat(ToolResults(observations[..|observations| - 1]), [ToolResult(o.callId, o.name, o.output, o.isError)]);
    }
  }

  /** Both runtimes send the same for a tool step. */
  lemma {:induction false} StepRendered(context: seq<Message>, step: StepResult)
    requires step.response.toolCalls != []
    ensures ProviderMessages(context + StepRecord(step)) == ProviderMessages(context) + StepMessages(step)
  {
    ResultsRendered(step.observations);
    ProviderMessagesConcat(context, StepRecord(step));
    ProviderMessagesConcat([FromAssistant(step.response.text, step.response.toolCalls)], ToolResults(step.observations));
  }

  /** The contexts the provider is asked with from a world on. */
  ghost function Requests(cfg: Config, env: Environment, w: World): seq<seq<ProviderMessage>>
    requires cfg.Valid() && env.Valid() && Invariant(cfg, w)
    decreases WorldRank(cfg, w).active, WorldRank(cfg, w).steps, WorldRank(cfg, w).phase, WorldRank(cfg, w).talk,
              WorldRank(cfg, w).calls, WorldRank(cfg, w).work, WorldRank(cfg, w).place
  {
    if w.place.Idle? then []
    else
      TickLowers(cfg, env, w);
      ReplyEnabled(cfg, env, w);
      (if w.place.InProvider? then [ProviderMessages(StateOf(w).messages)] else []) + Requests(cfg, env, Tick(cfg, env, w))
  }

  /** From `a` the driver comes to `b`, asking with the given contexts on the way. */
  ghost predicate Leads(cfg: Config, env: Environment, a: World, b: World, asked: seq<seq<ProviderMessage>>)
    requires cfg.Valid() && env.Valid()
  {
    && Invariant(cfg, a) && Invariant(cfg, b)
    && Finish(cfg, env, a) == Finish(cfg, env, b)
    && Requests(cfg, env, a) == asked + Requests(cfg, env, b)
  }

  lemma {:induction false} TickLeads(cfg: Config, env: Environment, w: World)
    requires cfg.Valid() && env.Valid() && Invariant(cfg, w) && !w.place.Idle?
    ensures Project(w.log).Some?
    ensures Leads(cfg, env, w, Tick(cfg, env, w), if w.place.InProvider? then [ProviderMessages(StateOf(w).messages)] else [])
  {
    hide Invariant, Tick, WorldRank, Project;
    ReplyEnabled(cfg, env, w);
  }

  lemma {:induction false} LeadsOn(cfg: Config, env: Environment, a: World, b: World, c: World, first: seq<seq<ProviderMessage>>, then_: seq<seq<ProviderMessage>>)
    requires cfg.Valid() && env.Valid() && Leads(cfg, env, a, b, first) && Leads(cfg, env, b, c, then_)
    ensures Leads(cfg, env, a, c, first + then_)
  {
    hide Invariant, Finish, Requests;
    assert first + (then_ + Requests(cfg, env, c)) == (first + then_) + Requests(cfg, env, c);
  }

  lemma {:induction false} LeadsSilently(cfg: Config, env: Environment, a: World, b: World, c: World)
    requires cfg.Valid() && env.Valid() && Leads(cfg, env, a, b, []) && Leads(cfg, env, b, c, [])
    ensures Leads(cfg, env, a, c, [])
  {
    hide Leads;
    LeadsOn(cfg, env, a, b, c, [], []);
    var none: seq<seq<ProviderMessage>> := [];
    assert none + none == none;
  }

  /* ---------------------------------------------------------------- one event at a time */

  /** A tick of a ready driver that writes one event. */
  lemma {:induction false} WritesOne(cfg: Config, env: Environment, w: World, e: Event, place: Place)
    requires cfg.Valid() && env.Valid() && Invariant(cfg, w) && !w.place.Idle? && !w.place.InProvider?
    requires Tick(cfg, env, w) == Extend(w, [e], place)
    ensures Leads(cfg, env, w, Extend(w, [e], place), [])
    ensures Project(w.log).Some? && Project(w.log + [e]) == Some(Advance(StateOf(w), e)) && Accepts(StateOf(w), false, e)
  {
    hide Invariant, Tick, Project, Leads, Accepts, Advance;
    ReplyEnabled(cfg, env, w);
    TickLeads(cfg, env, w);
    AppendedEvent(cfg, w, e, place);
  }

  /** The end of a run: a terminal event, then the driver halts. */
  lemma {:induction false} EndsWith(cfg: Config, env: Environment, w: World, e: Event)
    requires cfg.Valid() && env.Valid() && Invariant(cfg, w) && !w.place.Idle?
    requires Tick(cfg, env, w) == Extend(w, [e], Ready)
    requires e.RunCompleted? || e.RunFailed?
    ensures Project(w.log).Some?
    ensures Requests(cfg, env, w) == if w.place.InProvider? then [ProviderMessages(StateOf(w).messages)] else []
    ensures Project(Finish(cfg, env, w).log) == Some(Advance(StateOf(w), e))
  {
    hide Invariant, Tick, Project, Finish, Requests, NextAction;
    var after := Extend(w, [e], Ready);
    ReplyEnabled(cfg, env, w);
    TickLeads(cfg, env, w);
    AppendedEvent(cfg, w, e, Ready);
    RestingStays(cfg, env, after);
    HaltsAtRest(cfg, after.log, StateOf(after));
    TickWrites(cfg, env, after);
    TickLeads(cfg, env, after);
    NoRequestsWhenIdle(cfg, env, Tick(cfg, env, after));
  }

  lemma {:induction false} NoRequestsWhenIdle(cfg: Config, env: Environment, w: World)
    requires cfg.Valid() && env.Valid() && Invariant(cfg, w) && w.place.Idle?
    ensures Requests(cfg, env, w) == []
  {
    hide Invariant, Tick, WorldRank;
  }

  /* ---------------------------------------------------------------- between steps */

  /** A ready driver between two steps of its only turn, where the in-memory loop is at the top of a round. */
  ghost predicate Between(cfg: Config, w: World, context: seq<Message>, taken: nat, calls: nat, tokens: nat) {
    && Invariant(cfg, w) && w.log != [] && w.place.Ready? && Project(w.log).Some?
    && var p := StateOf(w);
       && p.status.Running? && !p.HasOpenStep() && p.inbox == [] && p.failure.None?
       && (p.step.Some? ==> p.CurrentAssistant().Some? && p.CurrentAssistant().value.stop.ToolUse?)
       && p.messages == context && |p.completed| == taken
       && CallCount(p.assistants) == calls && TokenCount(p.assistants) == tokens
  }

  lemma {:induction false} SettledTools(cfg: Config, w: World)
    requires Invariant(cfg, w) && w.log != [] && Project(w.log).Some? && !StateOf(w).HasOpenStep()
    ensures !HasUncertain(StateOf(w))
  {
    hide WorldOk, Project, RequestsOk, UniqueTools, AllRequested, FindAssistant;
    var base: nat, cursor: nat :| WorldOk(cfg, w, base, cursor);
    WorldParts(cfg, w, base, cursor);
    UncertainAtCursor(cfg, StateOf(w), base, cursor);
  }

  /** The step budget is used up. */
  lemma {:induction false} BudgetUsed(cfg: Config, env: Environment, w: World, context: seq<Message>, taken: nat, calls: nat, tokens: nat)
    requires cfg.Valid() && env.Valid() && Between(cfg, w, context, taken, calls, tokens) && taken >= cfg.limits.maxSteps
    ensures Requests(cfg, env, w) == []
    ensures Project(Finish(cfg, env, w).log) == Some(Advance(StateOf(w), RunFailed(StepBudget(cfg.limits.maxSteps))))
  {
    hide Invariant, Tick, Project, Finish, Requests, NextAction, HasUncertain, FindAssistant, StepsOfTurn, PendingIds, BudgetFailure, ToolAction,
         TokenCount, CallCount;
    SettledTools(cfg, w);
    NextIs(cfg, w.log, StateOf(w));
    TickWrites(cfg, env, w);
    EndsWith(cfg, env, w, RunFailed(StepBudget(cfg.limits.maxSteps)));
  }

  /** A step is started and the provider asked with the context. */
  lemma {:induction false} StepOpens(cfg: Config, env: Environment, w: World, context: seq<Message>, taken: nat, calls: nat, tokens: nat)
    returns (asking: World)
    requires cfg.Valid() && env.Valid() && Between(cfg, w, context, taken, calls, tokens) && taken < cfg.limits.maxSteps
    ensures Leads(cfg, env, w, asking, []) && asking.place.InProvider? && asking.log != []
    ensures Project(asking.log).Some?
    ensures var p, q := StateOf(w), StateOf(asking);
            q == p.(step := q.step) && q.HasOpenStep() && q.CurrentAssistant().None?
  {
    hide Invariant, Tick, Project, Finish, Requests, NextAction, HasUncertain, FindAssistant, StepsOfTurn, BudgetFailure, ToolAction,
         TokenCount, CallCount, Leads;
    var p := StateOf(w);
    var e := StepStarted(p.turn, 1 + StepsOfTurn(p.completed, p.turn));
    SettledTools(cfg, w);
    NextIs(cfg, w.log, p);
    TickWrites(cfg, env, w);
    WritesOne(cfg, env, w, e, Ready);
    var started := Extend(w, [e], Ready);
    LeadsInvariant(cfg, env, w, started, []);
    OpenedStep(cfg, w, started);
    AskingWorld(cfg, env, started);
    asking := started.(place := InProvider);
    LeadsSilently(cfg, env, w, started, asking);
  }

  lemma {:induction false} LeadsInvariant(cfg: Config, env: Environment, a: World, b: World, asked: seq<seq<ProviderMessage>>)
    requires cfg.Valid() && env.Valid() && Leads(cfg, env, a, b, asked)
    ensures Invariant(cfg, a) && Invariant(cfg, b)
  {
    hide Invariant, Finish, Requests;
  }

  lemma {:induction false} OpenedStep(cfg: Config, w: World, started: World)
    requires Invariant(cfg, w) && w.log != [] && Project(w.log).Some? && !StateOf(w).HasOpenStep() && Project(started.log).Some?
    requires StateOf(started) == StateOf(w).(step := Some(1 + StepsOfTurn(StateOf(w).completed, StateOf(w).turn)))
    ensures StateOf(started).HasOpenStep() && StateOf(started).CurrentAssistant().None?
  {
    hide WorldOk, Project, StepsOk, AssistantsOk, FindAssistant, StepsOfTurn;
    var base: nat, cursor: nat :| WorldOk(cfg, w, base, cursor);
    WorldParts(cfg, w, base, cursor);
    StepFresh(StateOf(w), StateOf(started));
  }

  lemma {:induction false} AskingWorld(cfg: Config, env: Environment, w: World)
    requires cfg.Valid() && env.Valid() && Invariant(cfg, w) && w.place.Ready? && w.log != [] && Project(w.log).Some?
    requires StateOf(w).status.Running? && StateOf(w).HasOpenStep() && StateOf(w).CurrentAssistant().None?
    ensures Leads(cfg, env, w, w.(place := InProvider), [])
  {
    hide WorldOk, Tick, Project, Leads, NextAction, FindAssistant;
    var base: nat, cursor: nat :| WorldOk(cfg, w, base, cursor);
    NextAsks(cfg, w, base, cursor);
    TickWrites(cfg, env, w);
    TickLeads(cfg, env, w);
  }

  /* ---------------------------------------------------------------- the response */

  /** A ready driver in the open step that has just got `r`: none of its calls is requested yet. */
  ghost predicate Answering(cfg: Config, w: World, r: Response, context: seq<Message>, taken: nat, calls: nat, tokens: nat) {
    && Invariant(cfg, w) && w.log != [] && w.place.Ready? && Project(w.log).Some?
    && var p := StateOf(w);
       && p.status.Running? && p.HasOpenStep() && p.inbox == [] && p.failure.None?
       && p.CurrentAssistant().Some? && p.CurrentAssistant().value.stop == r.stop && p.CurrentAssistant().value.toolCalls == r.toolCalls
       && p.messages == context + [FromAssistant(r.text, r.toolCalls)] && |p.completed| == taken
       && CallCount(p.assistants) == calls + |r.toolCalls| && TokenCount(p.assistants) == tokens + UsageOf(r)
  }

  lemma {:induction false} NotUncertain(cfg: Config, w: World)
    requires Invariant(cfg, w) && w.log != [] && Ungated(cfg)
    ensures Project(w.log).Some? && !HasUncertain(StateOf(w))
  {
    hide WorldOk, Project, RequestsOk, UniqueTools, AllRequested, FindAssistant, ToolEffect, RunPreflight;
    var base: nat, cursor: nat :| WorldOk(cfg, w, base, cursor);
    WorldParts(cfg, w, base, cursor);
    UncertainAtCursor(cfg, StateOf(w), base, cursor);
    if cursor < |StateOf(w).tools| {
      EffectAtCursor(cfg, w, base, cursor);
    }
  }

  /** The provider raises. */
  lemma {:induction false} AskingBreaks(cfg: Config, env: Environment, w: World, message: string)
    requires cfg.Valid() && env.Valid() && Ungated(cfg) && Invariant(cfg, w) && w.log != [] && w.place.InProvider? && Project(w.log).Some?
    requires StateOf(w).status.Running? && env.provider(w.log) == Broken(message)
    ensures Requests(cfg, env, w) == [ProviderMessages(StateOf(w).messages)]
    ensures Project(Finish(cfg, env, w).log) == Some(Advance(StateOf(w), RunFailed(RuntimeFailure(message))))
  {
    hide Invariant, Project, Finish, Requests, HasUncertain;
    NotUncertain(cfg, w);
    ReplyEnabled(cfg, env, w);
    EndsWith(cfg, env, w, RunFailed(RuntimeFailure(message)));
  }

  /** The provider answers. */
  lemma {:induction false} AskingAnswers(cfg: Config, env: Environment, w: World, r: Response, context: seq<Message>, taken: nat, calls: nat, tokens: nat)
    returns (next: World)
    requires cfg.Valid() && env.Valid() && Invariant(cfg, w) && w.log != [] && w.place.InProvider? && Project(w.log).Some?
    requires StateOf(w).status.Running? && env.provider(w.log) == Answered(r)
    requires var p := StateOf(w);
             && p.HasOpenStep() && p.CurrentAssistant().None? && p.inbox == [] && p.failure.None? && p.messages == context
             && |p.completed| == taken
             && CallCount(p.assistants) == calls && TokenCount(p.assistants) == tokens
    ensures Leads(cfg, env, w, next, [ProviderMessages(context)]) && Answering(cfg, next, r, context, taken, calls, tokens)
    ensures StateOf(next).tools == StateOf(w).tools && StateOf(next).completed == StateOf(w).completed
    ensures |StateOf(next).assistants| == |StateOf(w).assistants| + 1
    ensures StateOf(next).assistants[..|StateOf(w).assistants|] == StateOf(w).assistants
    ensures StateOf(next).assistants[|StateOf(w).assistants|].toolCalls == r.toolCalls
  {
    hide Invariant, Project, Finish, Requests, Leads, FindAssistant, CallCount, TokenCount;
    var p := StateOf(w);
    var e := ResponseEvent(p, r);
    ReplyEnabled(cfg, env, w);
    next := Extend(w, [e], Ready);
    assert Tick(cfg, env, w) == next;
    TickLeads(cfg, env, w);
    LeadsInvariant(cfg, env, w, next, [ProviderMessages(context)]);
    AppendedEvent(cfg, w, e, Ready);
    var record := Advance(p, e).assistants[|p.assistants|];
    AssistantSnoc(p.assistants, record, p.OpenKey());
    CountsSnoc(p.assistants, record);
  }

  /** The answer breaks a budget, or needs no tools: one or two events end the run. */
  lemma {:induction false} AnswerEnds(cfg: Config, env: Environment, w: World, r: Response, context: seq<Message>, taken: nat, calls: nat, tokens: nat)
    requires cfg.Valid() && env.Valid() && Ungated(cfg) && r.Valid() && Answering(cfg, w, r, context, taken, calls, tokens)
    requires BudgetFailure(cfg.limits, StateOf(w)).Some?
    ensures Requests(cfg, env, w) == []
    ensures Project(Finish(cfg, env, w).log) == Some(Advance(StateOf(w), RunFailed(BudgetFailure(cfg.limits, StateOf(w)).value)))
  {
    hide Invariant, Tick, Project, Finish, Requests, NextAction, HasUncertain, FindAssistant, StepsOfTurn, PendingIds, BudgetFailure, ToolAction,
         TokenCount, CallCount;
    NotUncertain(cfg, w);
    NextIs(cfg, w.log, StateOf(w));
    TickWrites(cfg, env, w);
    EndsWith(cfg, env, w, RunFailed(BudgetFailure(cfg.limits, StateOf(w)).value));
  }

  /** A step without calls is completed. */
  lemma {:induction false} AnswerCloses(cfg: Config, env: Environment, w: World, r: Response, context: seq<Message>, taken: nat, calls: nat, tokens: nat)
    returns (closed: World)
    requires cfg.Valid() && env.Valid() && Ungated(cfg) && r.Valid() && Answering(cfg, w, r, context, taken, calls, tokens)
    requires BudgetFailure(cfg.limits, StateOf(w)).None? && !r.stop.ToolUse?
    ensures Leads(cfg, env, w, closed, []) && Invariant(cfg, closed) && closed.place.Ready? && closed.log != [] && Project(closed.log).Some?
    ensures var q := StateOf(closed);
            && q.status.Running? && q.step.Some? && !q.HasOpenStep() && !HasUncertain(q) && q.inbox == [] && q.failure == StateOf(w).failure
            && q.CurrentAssistant().Some? && q.CurrentAssistant().value.stop == r.stop
  {
    hide Invariant, Tick, Project, Finish, Requests, NextAction, HasUncertain, FindAssistant, StepsOfTurn, BudgetFailure, ToolAction,
         TokenCount, CallCount, Leads, PendingIds;
    var p := StateOf(w);
    var e := StepCompleted(p.turn, p.step.value);
    NotUncertain(cfg, w);
    NextIs(cfg, w.log, p);
    TickWrites(cfg, env, w);
    WritesOne(cfg, env, w, e, Ready);
    closed := Extend(w, [e], Ready);
    LeadsInvariant(cfg, env, w, closed, []);
    NotUncertain(cfg, closed);
  }

  /** The step without tools is completed, and the run ends with the turn. */
  lemma {:induction false} AnswerSettles(cfg: Config, env: Environment, w: World, r: Response, context: seq<Message>, taken: nat, calls: nat, tokens: nat)
    requires cfg.Valid() && env.Valid() && Ungated(cfg) && r.Valid() && Answering(cfg, w, r, context, taken, calls, tokens)
    requires BudgetFailure(cfg.limits, StateOf(w)).None? && !r.stop.ToolUse?
    ensures Requests(cfg, env, w) == []
    ensures Project(Finish(cfg, env, w).log).Some?
    ensures var q := Project(Finish(cfg, env, w).log).value;
            if r.stop.EndTurn? then q.status.Completed? && q.failure == StateOf(w).failure
            else q.status.Failed? && q.failure == Some(ProviderMaxTokens)
  {
    hide Invariant, Tick, Project, Finish, Requests, NextAction, HasUncertain, FindAssistant, StepsOfTurn, BudgetFailure, ToolAction,
         TokenCount, CallCount, Leads;
    var closed := AnswerCloses(cfg, env, w, r, context, taken, calls, tokens);
    NextIs(cfg, closed.log, StateOf(closed));
    TickWrites(cfg, env, closed);
    EndsWith(cfg, env, closed, if r.stop.EndTurn? then RunCompleted else RunFailed(ProviderMaxTokens));
    SameEnding(cfg, env, w, closed);
  }

  lemma {:induction false} SameEnding(cfg: Config, env: Environment, a: World, b: World)
    requires cfg.Valid() && env.Valid() && Leads(cfg, env, a, b, [])
    ensures Invariant(cfg, a) && Invariant(cfg, b)
    ensures Finish(cfg, env, a) == Finish(cfg, env, b) && Requests(cfg, env, a) == Requests(cfg, env, b)
  {
    hide Invariant, Finish, Requests;
    assert [] + Requests(cfg, env, b) == Requests(cfg, env, b);
  }

  /* ---------------------------------------------------------------- the tools of a step */

  /** The first `asked` calls of the open step are requested and the first `done` of them are finished; `start` is the
      projection right after the response. */
  ghost predicate Working(cfg: Config, tool: ToolCall -> Observation, w: World, start: RunProjection, calls: seq<ToolCall>, asked: nat, done: nat) {
    && Invariant(cfg, w) && w.log != [] && w.place.Ready? && Project(w.log).Some?
    && var p := StateOf(w);
       && p.status.Running? && SameStep(p, start)
       && AskedAndDone(cfg, p, start, calls, asked, done)
       && p.messages == start.messages + ToolResults(ObserveAll(Executed(cfg, tool), calls[..done]))
  }

  /** The same open step, with the same response and inbox. */
  predicate SameStep(p: RunProjection, start: RunProjection) {
    && start.HasOpenStep() && p.turn == start.turn && p.step == start.step && p.completed == start.completed
    && p.assistants == start.assistants && p.inbox == start.inbox && p.failure == start.failure
  }

  predicate AskedAndDone(cfg: Config, p: RunProjection, start: RunProjection, calls: seq<ToolCall>, asked: nat, done: nat) {
    && start.CurrentAssistant().Some? && start.CurrentAssistant().value.toolCalls == calls
    && start.CurrentAssistant().value.stop.ToolUse? && BudgetFailure(cfg.limits, start).None?
    && start.HasOpenStep() && (forall i | 0 <= i < |start.tools| :: start.tools[i].key in start.completed && start.tools[i].IsDone())
    && NoneKnown(calls, start.tools)
    && done <= asked <= |calls| && (done > 0 ==> asked == |calls|)
    && |p.tools| == |start.tools| + asked && p.tools[..|start.tools|] == start.tools
    && forall i | 0 <= i < asked :: ToolFor(p.tools[|start.tools| + i], start.OpenKey(), calls[i], i < done)
  }

  predicate ToolFor(t: ToolRecord, key: StepKey, call: ToolCall, done: bool) {
    CallOf(t) == call && t.key == key && (if done then t.IsDone() else t.state.Requested?)
  }

  lemma {:induction false} InvariantWitness(cfg: Config, w: World) returns (base: nat, cursor: nat)
    requires Invariant(cfg, w) && w.log != []
    ensures Sound(cfg, w, base, cursor)
  {
    hide WorldOk, Project;
    base, cursor :| WorldOk(cfg, w, base, cursor);
  }

  /** Where the invariant puts the driver. */
  lemma {:induction false} WorkingAt(cfg: Config, tool: ToolCall -> Observation, w: World, start: RunProjection, calls: seq<ToolCall>, asked: nat, done: nat)
    requires Working(cfg, tool, w, start, calls, asked, done)
    ensures Sound(cfg, w, |start.tools|, |start.tools| + done)
    ensures AllRequested(StateOf(w), |start.tools|) <==> asked == |calls|
    ensures FreshCalls(calls, StateOf(w).tools[..|start.tools|]) == FreshCalls(calls, start.tools)
  {
    hide Invariant, Sound, Project, BudgetFailure, FindAssistant, ToolResults, ObserveAll, Executed, ToolsOk, AllRequested, FreshCalls, NoneKnown;
    var base, cursor := InvariantWitness(cfg, w);
    WorldTools(cfg, w, base, cursor);
    CursorIs(cfg, StateOf(w), start, calls, asked, done, base, cursor);
    WorkingRequests(cfg, StateOf(w), start, calls, asked, done);
  }

  lemma {:induction false} WorkingRequests(cfg: Config, p: RunProjection, start: RunProjection, calls: seq<ToolCall>, asked: nat, done: nat)
    requires SameStep(p, start) && AskedAndDone(cfg, p, start, calls, asked, done)
    ensures AllRequested(p, |start.tools|) <==> asked == |calls|
    ensures FreshCalls(calls, p.tools[..|start.tools|]) == FreshCalls(calls, start.tools)
  {
    hide BudgetFailure, FindAssistant, FreshCalls;
    AllFresh(calls, start.tools);
  }

  lemma {:induction false} HandledRecords(cfg: Config, p: RunProjection, start: RunProjection, calls: seq<ToolCall>, asked: nat, done: nat)
    requires SameStep(p, start) && AskedAndDone(cfg, p, start, calls, asked, done)
    ensures SplitAt(p, |start.tools|) && FrontierAt(p.tools, |start.tools| + done)
  {
    hide BudgetFailure, FindAssistant, NoneKnown;
    var b := |start.tools|;
    forall i | 0 <= i < |p.tools|
      ensures if i < b then p.tools[i] == start.tools[i] else ToolFor(p.tools[i], p.OpenKey(), calls[i - b], i - b < done)
    {
      if i < b {
        assert p.tools[i] == p.tools[..b][i];
      } else {
        assert ToolFor(p.tools[b + (i - b)], start.OpenKey(), calls[i - b], i - b < done);
      }
    }
  }

  lemma {:induction false} CursorIs(cfg: Config, p: RunProjection, start: RunProjection, calls: seq<ToolCall>, asked: nat, done: nat, base: nat, cursor: nat)
    requires SameStep(p, start) && AskedAndDone(cfg, p, start, calls, asked, done) && ToolsOk(cfg, p, base, cursor)
    ensures base == |start.tools| && cursor == |start.tools| + done
  {
    hide AskedAndDone, BudgetFailure, FindAssistant, RequestsOk, UniqueTools, AllRequested, NoneKnown;
    HandledRecords(cfg, p, start, calls, asked, done);
    OneSplit(p, base, |start.tools|);
    OneFrontier(p.tools, cursor, |start.tools| + done);
  }

  /** What the driver does at this point of the step. */
  function WorkingStep(cfg: Config, p: RunProjection, calls: seq<ToolCall>, asked: nat, done: nat): Action
    requires p.step.Some? && done <= asked <= |calls|
  {
    if asked < |calls| then Write([RequestEvent(cfg, calls[asked], asked)])
    else if done == asked then Write([StepCompleted(p.turn, p.step.value)])
    else match RunPreflight(cfg.pipeline, calls[done])
         case Rejected(output) => RejectTool(calls[done].id, output)
         case Proceed(_) => StartTool(calls[done])
  }

  lemma {:induction false} WorkingAction(cfg: Config, tool: ToolCall -> Observation, w: World, start: RunProjection, calls: seq<ToolCall>, asked: nat, done: nat)
    requires Ungated(cfg) && Working(cfg, tool, w, start, calls, asked, done)
    ensures NextAction(cfg, w.log, StateOf(w)) == WorkingStep(cfg, StateOf(w), calls, asked, done)
  {
    hide WorldOk, Project, NextAction, ToolAction, HasUncertain, PendingIds, BudgetFailure, StepsOfTurn, FindAssistant, ToolsOk, LaunchAction,
         ToolEffect, RunPreflight, AllRequested, ToolResults, ObserveAll, Executed, FirstDecision, Invariant, RequestEvent;
    var p := StateOf(w);
    NotUncertain(cfg, w);
    SameBudget(cfg, p, start);
    NextIs(cfg, w.log, p);
    WorkingToolAction(cfg, tool, w, start, calls, asked, done);
  }

  lemma {:induction false} WorkingToolAction(cfg: Config, tool: ToolCall -> Observation, w: World, start: RunProjection, calls: seq<ToolCall>, asked: nat, done: nat)
    requires Ungated(cfg) && Working(cfg, tool, w, start, calls, asked, done)
    ensures StateOf(w).HasOpenStep() && ToolAction(cfg, w.log, StateOf(w), calls) == WorkingStep(cfg, StateOf(w), calls, asked, done)
  {
    hide WorldOk, Project, ToolAction, HasUncertain, PendingIds, BudgetFailure, StepsOfTurn, FindAssistant, ToolsOk, LaunchAction,
         ToolEffect, RunPreflight, AllRequested, ToolResults, ObserveAll, Executed, FirstDecision, Invariant, FreshCalls, NoneKnown, UniqueTools;
    var p := StateOf(w);
    var b := |start.tools|;
    WorkingAt(cfg, tool, w, start, calls, asked, done);
    WorldTools(cfg, w, b, b + done);
    NextToolAction(cfg, w.log, p, b, b + done);
    AllFresh(calls, start.tools);
    if done < asked {
      EffectAtCursor(cfg, w, b, b + done);
      assert ToolFor(p.tools[b + done], start.OpenKey(), calls[done], false);
      LaunchIs(cfg, w.log, calls[done], p.tools[b + done].effect);
    }
  }

  lemma {:induction false} WorldTools(cfg: Config, w: World, base: nat, cursor: nat)
    requires Sound(cfg, w, base, cursor)
    ensures ToolsOk(cfg, StateOf(w), base, cursor)
  {
    hide WorldOk, ToolsOk;
    WorldParts(cfg, w, base, cursor);
  }

  lemma {:induction false} SameBudget(cfg: Config, p: RunProjection, q: RunProjection)
    requires p.assistants == q.assistants
    ensures BudgetFailure(cfg.limits, p) == BudgetFailure(cfg.limits, q)
  {
  }

  /** One more call is requested. */
  lemma {:induction false} RequestOne(cfg: Config, env: Environment, w: World, start: RunProjection, calls: seq<ToolCall>, asked: nat) returns (next: World)
    requires cfg.Valid() && env.Valid() && Ungated(cfg) && Working(cfg, env.tool, w, start, calls, asked, 0) && asked < |calls|
    ensures Leads(cfg, env, w, next, []) && Working(cfg, env.tool, next, start, calls, asked + 1, 0)
  {
    hide Invariant, Tick, Project, Leads, NextAction, BudgetFailure, FindAssistant, ToolResults, ObserveAll, Executed, NoneKnown, StepsOfTurn;
    var p := StateOf(w);
    var e := RequestEvent(cfg, calls[asked], asked);
    WorkingAction(cfg, env.tool, w, start, calls, asked, 0);
    TickWrites(cfg, env, w);
    next := Extend(w, [e], Ready);
    WritesOne(cfg, env, w, e, Ready);
    LeadsInvariant(cfg, env, w, next, []);
    assert StateOf(next).tools[..|start.tools|] == p.tools[..|start.tools|];
    forall i | 0 <= i < asked + 1
      ensures ToolFor(StateOf(next).tools[|start.tools| + i], start.OpenKey(), calls[i], false)
    {
      if i < asked {
        assert ToolFor(p.tools[|start.tools| + i], start.OpenKey(), calls[i], false);
      }
    }
  }

  lemma {:induction false} RequestAll(cfg: Config, env: Environment, w: World, start: RunProjection, calls: seq<ToolCall>, asked: nat) returns (next: World)
    requires cfg.Valid() && env.Valid() && Ungated(cfg) && Working(cfg, env.tool, w, start, calls, asked, 0)
    ensures Leads(cfg, env, w, next, []) && Working(cfg, env.tool, next, start, calls, |calls|, 0)
    decreases |calls| - asked
  {
    hide Leads, Working;
    AskedBound(cfg, env, w, start, calls, asked, 0);
    if asked == |calls| {
      next := w;
    } else {
      var one := RequestOne(cfg, env, w, start, calls, asked);
      next := RequestAll(cfg, env, one, start, calls, asked + 1);
      LeadsSilently(cfg, env, w, one, next);
    }
  }

  lemma {:induction false} AskedBound(cfg: Config, env: Environment, w: World, start: RunProjection, calls: seq<ToolCall>, asked: nat, done: nat)
    requires cfg.Valid() && env.Valid() && Working(cfg, env.tool, w, start, calls, asked, done)
    ensures done <= asked <= |calls| && Leads(cfg, env, w, w, [])
  {
    hide Invariant, Project, BudgetFailure, FindAssistant, ToolResults, ObserveAll, Executed, NoneKnown, StepsOfTurn, Finish, Requests;
    assert [] + Requests(cfg, env, w) == Requests(cfg, env, w);
  }

  /** The driver comes from the requested tool to its result. */
  lemma {:induction false} ReachResult(cfg: Config, env: Environment, w: World, start: RunProjection, calls: seq<ToolCall>, done: nat) returns (next: World)
    requires cfg.Valid() && env.Valid() && Ungated(cfg) && Working(cfg, env.tool, w, start, calls, |calls|, done) && done < |calls|
    ensures Leads(cfg, env, w, next, []) && next.place.Ready?
    ensures next.log == (w.log + [ToolStarted(calls[done].id)]) + [ResultEvent(calls[done].id, Executed(cfg, env.tool)(calls[done]))]
    ensures Project(w.log + [ToolStarted(calls[done].id)]).Some?
  {
    hide Working, Invariant, Tick, Project, Leads, NextAction, RunPreflight, ToolEffect, Sound, Finish, Requests;
    var call := calls[done];
    WorkingFacts(cfg, env.tool, w, start, calls, |calls|, done);
    WorkingAction(cfg, env.tool, w, start, calls, |calls|, done);
    TickWrites(cfg, env, w);
    var first := Tick(cfg, env, w);
    WritesOne(cfg, env, w, ToolStarted(call.id), first.place);
    LeadsInvariant(cfg, env, w, first, []);
    TickWrites(cfg, env, first);
    if RunPreflight(cfg.pipeline, call).Rejected? {
      next := Tick(cfg, env, first);
      TickLeads(cfg, env, first);
    } else {
      PassedGate(cfg, first);
      ReadThrough(cfg, env, first);
      var inTool := Tick(cfg, env, first);
      TickLeads(cfg, env, first);
      next := Tick(cfg, env, inTool);
      TickLeads(cfg, env, inTool);
      LeadsSilently(cfg, env, first, inTool, next);
    }
    LeadsSilently(cfg, env, w, first, next);
  }

  lemma {:induction false} WorkingFacts(cfg: Config, tool: ToolCall -> Observation, w: World, start: RunProjection, calls: seq<ToolCall>, asked: nat, done: nat)
    requires Working(cfg, tool, w, start, calls, asked, done)
    ensures Invariant(cfg, w) && w.log != [] && w.place.Ready? && Project(w.log).Some? && StateOf(w).status.Running? && StateOf(w).HasOpenStep()
    ensures done <= asked <= |calls|
  {
    hide Invariant, Project, BudgetFailure, FindAssistant, ToolResults, ObserveAll, Executed, NoneKnown;
  }

  /** A started call that passed its preflight enters its handler. */
  lemma {:induction false} PassedGate(cfg: Config, w: World)
    requires cfg.Valid() && Invariant(cfg, w) && w.log != [] && w.place.Starting? && RunPreflight(cfg.pipeline, w.place.call).Proceed?
    ensures Project(w.log).Some?
    ensures RunGate(cfg.pipeline, w.place.call, LookUpApproval(w.log, StateOf(w), w.place.call)).Enter?
  {
    hide Invariant, WorldOk, Project, RunGate, LookUpApproval, RunPreflight, NeedsApproval, ToolEffect, ToolsOk, ApprovalsOk;
    var base, cursor := InvariantWitness(cfg, w);
    WorldParts(cfg, w, base, cursor);
    GateAtCursor(cfg, w.log, StateOf(w), base, cursor, w.place.call);
  }

  /** What starting and finishing the tool at position `c` make of the projection. */
  lemma {:induction false} ResultShape(cfg: Config, p: RunProjection, c: nat, o: Observation)
    requires c < |p.tools| && IndexOfTool(p.tools, p.tools[c].callId) == c
    ensures var id := p.tools[c].callId;
            var q := Advance(Advance(p, ToolStarted(id)), ResultEvent(id, o));
            && SameWorkBut(p, q)
            && q.tools == p.tools[c := p.tools[c].(state := if o.isError then Errored else Succeeded)]
            && q.messages == p.messages + [ToolResult(id, p.tools[c].name, o.output, o.isError)]
  {
    var id := p.tools[c].callId;
    var e := ToolStarted(id);
    var q := Advance(p, e);
    CursorShape(p, c, e);
    IndexUnderUpdate(p.tools, c, q.tools[c], id);
    CursorShape(q, c, ResultEvent(id, o));
    assert p.messages + [] == p.messages;
    assert q.tools[c := q.tools[c].(state := if o.isError then Errored else Succeeded)]
        == p.tools[c := p.tools[c].(state := if o.isError then Errored else Succeeded)];
  }

  predicate SameWorkBut(p: RunProjection, q: RunProjection) {
    && q.turn == p.turn && q.step == p.step && q.completed == p.completed && q.assistants == p.assistants
    && q.inbox == p.inbox && q.failure == p.failure && q.status == p.status
  }

  lemma {:induction false} HandledNext(cfg: Config, p: RunProjection, q: RunProjection, start: RunProjection, calls: seq<ToolCall>, done: nat, state: ToolState)
    requires SameStep(p, start) && AskedAndDone(cfg, p, start, calls, |calls|, done) && done < |calls|
    requires q.tools == p.tools[|start.tools| + done := p.tools[|start.tools| + done].(state := state)]
    requires state.Succeeded? || state.Errored?
    ensures AskedAndDone(cfg, q, start, calls, |calls|, done + 1)
    ensures CallOf(p.tools[|start.tools| + done]) == calls[done]
  {
    hide BudgetFailure, FindAssistant, NoneKnown;
    assert q.tools[..|start.tools|] == p.tools[..|start.tools|];
    assert ToolFor(p.tools[|start.tools| + done], start.OpenKey(), calls[done], false);
    forall i | 0 <= i < |calls|
      ensures ToolFor(q.tools[|start.tools| + i], start.OpenKey(), calls[i], i < done + 1)
    {
      assert ToolFor(p.tools[|start.tools| + i], start.OpenKey(), calls[i], i < done);
    }
  }

  /** One more tool is finished. */
  lemma {:induction false} FinishOne(cfg: Config, env: Environment, w: World, start: RunProjection, calls: seq<ToolCall>, done: nat) returns (next: World)
    requires cfg.Valid() && env.Valid() && Ungated(cfg) && Working(cfg, env.tool, w, start, calls, |calls|, done) && done < |calls|
    ensures Leads(cfg, env, w, next, []) && Working(cfg, env.tool, next, start, calls, |calls|, done + 1)
  {
    hide Invariant, Tick, Project, Leads, FindAssistant, Executed, ToolResults, ObserveAll, Accepts, Sound, AskedAndDone, Advance;
    var p, c, call := StateOf(w), |start.tools| + done, calls[done];
    var o := Executed(cfg, env.tool)(call);
    WorkingAt(cfg, env.tool, w, start, calls, |calls|, done);
    HasCursor(cfg, p, start, calls, done);
    CursorUnique(cfg, w, |start.tools|, c);
    next := ReachResult(cfg, env, w, start, calls, done);
    LeadsInvariant(cfg, env, w, next, []);
    InvariantProjects(cfg, next);
    ProjectSnoc(w.log, ToolStarted(call.id));
    ProjectSnoc(w.log + [ToolStarted(call.id)], ResultEvent(call.id, o));
    ResultShape(cfg, p, c, o);
    HandledNext(cfg, p, StateOf(next), start, calls, done, if o.isError then Errored else Succeeded);
    OneMoreResult(cfg, env.tool, calls, done);
  }

  lemma {:induction false} HasCursor(cfg: Config, p: RunProjection, start: RunProjection, calls: seq<ToolCall>, done: nat)
    requires AskedAndDone(cfg, p, start, calls, |calls|, done) && done < |calls|
    ensures |start.tools| + done < |p.tools| && CallOf(p.tools[|start.tools| + done]) == calls[done]
  {
    hide BudgetFailure, FindAssistant, NoneKnown;
    assert ToolFor(p.tools[|start.tools| + done], start.OpenKey(), calls[done], false);
  }

  lemma {:induction false} OneMoreResult(cfg: Config, tool: ToolCall -> Observation, calls: seq<ToolCall>, done: nat)
    requires done < |calls|
    ensures var o := Executed(cfg, tool)(calls[done]);
            ToolResults(ObserveAll(Executed(cfg, tool), calls[..done + 1]))
            == ToolResults(ObserveAll(Executed(cfg, tool), calls[..done]))
               + [ToolResult(calls[done].id, calls[done].name, o.output, o.isError)]
  {
    hide Executed;
    assert calls[..done + 1][..done] == calls[..done];
    var before := ObserveAll(Executed(cfg, tool), calls[..done]);
    assert (before + [ObserveCall(Executed(cfg, tool), calls[done])])[..|before|] == before;
  }

  lemma {:induction false} FinishAll(cfg: Config, env: Environment, w: World, start: RunProjection, calls: seq<ToolCall>, done: nat) returns (next: World)
    requires cfg.Valid() && env.Valid() && Ungated(cfg) && Working(cfg, env.tool, w, start, calls, |calls|, done)
    ensures Leads(cfg, env, w, next, []) && Working(cfg, env.tool, next, start, calls, |calls|, |calls|)
    decreases |calls| - done
  {
    hide Leads, Working;
    AskedBound(cfg, env, w, start, calls, |calls|, done);
    if done == |calls| {
      next := w;
    } else {
      var one := FinishOne(cfg, env, w, start, calls, done);
      next := FinishAll(cfg, env, one, start, calls, done + 1);
      LeadsSilently(cfg, env, w, one, next);
    }
  }

  /* ---------------------------------------------------------------- a round, and the whole run */

  /** All tools are finished: the step is completed and the next round begins. */
  lemma {:induction false} CloseStep(cfg: Config, env: Environment, w: World, start: RunProjection, calls: seq<ToolCall>) returns (next: World)
    requires cfg.Valid() && env.Valid() && Ungated(cfg) && Working(cfg, env.tool, w, start, calls, |calls|, |calls|)
    ensures Leads(cfg, env, w, next, []) && next.place.Ready? && next.log != [] && Project(next.log).Some? && Invariant(cfg, next)
    ensures StateOf(next) == StateOf(w).(completed := start.completed + [start.OpenKey()])
    ensures StateOf(next).assistants == start.assistants && StateOf(next).inbox == start.inbox && StateOf(next).failure == start.failure
    ensures StateOf(next).status.Running? && !StateOf(next).HasOpenStep()
    ensures StateOf(next).CurrentAssistant() == start.CurrentAssistant() && start.CurrentAssistant().Some?
    ensures start.CurrentAssistant().value.stop.ToolUse?
    ensures StateOf(next).messages == start.messages + ToolResults(ObserveAll(Executed(cfg, env.tool), calls))
  {
    hide Invariant, Tick, Project, Leads, NextAction, BudgetFailure, FindAssistant, ToolResults, ObserveAll, Executed, NoneKnown, StepsOfTurn,
         Accepts;
    var p := StateOf(w);
    var e := StepCompleted(p.turn, p.step.value);
    WorkingAction(cfg, env.tool, w, start, calls, |calls|, |calls|);
    TickWrites(cfg, env, w);
    WritesOne(cfg, env, w, e, Ready);
    next := Extend(w, [e], Ready);
    LeadsInvariant(cfg, env, w, next, []);
    assert calls[..|calls|] == calls;
  }

  /** No step uses an id in `seen` or of an earlier step. */
  predicate FreshSteps(seen: set<string>, steps: seq<StepResult>)
    decreases |steps|
  {
    steps == []
    || (IdsOf(steps[0].response.toolCalls) !! seen && FreshSteps(seen + IdsOf(steps[0].response.toolCalls), steps[1..]))
  }

  /** Everything before an unanswered step is settled. */
  lemma {:induction false} SettledRecords(cfg: Config, w: World)
    requires Invariant(cfg, w) && w.log != [] && Project(w.log).Some?
    requires StateOf(w).HasOpenStep() && StateOf(w).CurrentAssistant().None?
    ensures forall i | 0 <= i < |StateOf(w).tools| :: StateOf(w).tools[i].key in StateOf(w).completed && StateOf(w).tools[i].IsDone()
    ensures ToolsCalled(StateOf(w).assistants, StateOf(w).tools)
    ensures BudgetFailure(cfg.limits, StateOf(w)).None?
  {
    hide Invariant, WorldOk, Project, FindAssistant, RequestsOk, UniqueTools, AllRequested, TokenCount, CallCount, Called, ToolsCalled, CallsCovered,
         Awaiting, FreshIds, Blocked, NoneKnown;
    var base, cursor := InvariantWitness(cfg, w);
    WorldParts(cfg, w, base, cursor);
    WorldTalk(cfg, w, base, cursor);
  }

  lemma {:induction false} SeenIsUnknown(records: seq<AssistantRecord>, tools: seq<ToolRecord>, calls: seq<ToolCall>, seen: set<string>)
    requires ToolsCalled(records, tools) && (forall id | Called(records, id) :: id in seen) && IdsOf(calls) !! seen
    ensures NoneKnown(calls, tools)
  {
    hide Called;
    forall k | 0 <= k < |calls| ensures !KnowsTool(tools, calls[k].id) {
      assert calls[k].id in IdsOf(calls);
    }
  }

  lemma {:induction false} SeenMore(records: seq<AssistantRecord>, r: AssistantRecord, seen: set<string>)
    requires forall id | Called(records, id) :: id in seen
    ensures forall id | Called(records + [r], id) :: id in seen + IdsOf(r.toolCalls)
  {
    hide Called;
    forall id | Called(records + [r], id) ensures id in seen + IdsOf(r.toolCalls) {
      RecordsSnoc(records, r, id);
    }
  }

  /** A whole tool step: from one round of the loop to the next. */
  lemma {:induction false} ToolRound(cfg: Config, env: Environment, w: World, r: Response, seen: set<string>,
                                     context: seq<Message>, taken: nat, calls: nat, tokens: nat) returns (next: World)
    requires cfg.Valid() && env.Valid() && Ungated(cfg) && Answering(cfg, w, r, context, taken, calls, tokens)
    requires BudgetFailure(cfg.limits, StateOf(w)).None? && r.stop.ToolUse? && NoneKnown(r.toolCalls, StateOf(w).tools)
    requires forall i | 0 <= i < |StateOf(w).tools| :: StateOf(w).tools[i].key in StateOf(w).completed && StateOf(w).tools[i].IsDone()
    ensures Leads(cfg, env, w, next, [])
    ensures var step := StepResult(taken + 1, r, ObserveAll(Executed(cfg, env.tool), r.toolCalls));
            Between(cfg, next, context + StepRecord(step), taken + 1, calls + |r.toolCalls|, tokens + UsageOf(r))
    ensures StateOf(next).assistants == StateOf(w).assistants
  {
    hide Invariant, Tick, Project, Leads, BudgetFailure, FindAssistant, ToolResults, ObserveAll, Executed, NoneKnown, TokenCount, CallCount;
    var start := StateOf(w);
    assert start.tools[..|start.tools|] == start.tools;
    NothingObserved(cfg, env.tool, r.toolCalls);
    assert start.messages + [] == start.messages;
    assert Working(cfg, env.tool, w, start, r.toolCalls, 0, 0);
    var asked := RequestAll(cfg, env, w, start, r.toolCalls, 0);
    var done := FinishAll(cfg, env, asked, start, r.toolCalls, 0);
    next := CloseStep(cfg, env, done, start, r.toolCalls);
    LeadsSilently(cfg, env, w, asked, done);
    LeadsSilently(cfg, env, w, done, next);
    var results := ToolResults(ObserveAll(Executed(cfg, env.tool), r.toolCalls));
    assert (context + [FromAssistant(r.text, r.toolCalls)]) + results == context + ([FromAssistant(r.text, r.toolCalls)] + results);
  }

  lemma {:induction false} NothingObserved(cfg: Config, tool: ToolCall -> Observation, calls: seq<ToolCall>)
    ensures ToolResults(ObserveAll(Executed(cfg, tool), calls[..0])) == []
  {
    assert calls[..0] == [];
  }

  /** What a run comes to. */
  ghost predicate ComesTo(cfg: Config, env: Environment, w: World, o: Outcome)
    requires cfg.Valid() && env.Valid()
  {
    && Invariant(cfg, w)
    && Requests(cfg, env, w) == o.requests
    && Project(Finish(cfg, env, w).log).Some?
    && Project(Finish(cfg, env, w).log).value.status == o.status
    && Project(Finish(cfg, env, w).log).value.failure == o.failure
  }

  lemma {:induction false} ComesAfter(cfg: Config, env: Environment, a: World, b: World, asked: seq<seq<ProviderMessage>>, o: Outcome, steps: seq<StepResult>)
    requires cfg.Valid() && env.Valid() && Leads(cfg, env, a, b, asked) && ComesTo(cfg, env, b, o)
    ensures ComesTo(cfg, env, a, Outcome(asked + o.requests, steps, o.status, o.failure))
  {
    hide Invariant, Finish, Requests, Project;
  }

  lemma {:induction false} BudgetsAgree(cfg: Config, w: World, r: Response, context: seq<Message>, taken: nat, calls: nat, tokens: nat)
    requires r.Valid() && Answering(cfg, w, r, context, taken, calls, tokens) && calls <= cfg.limits.maxToolCalls
    ensures BudgetFailure(cfg.limits, StateOf(w))
         == if tokens + UsageOf(r) > cfg.limits.maxTokens then Some(TokenBudget(tokens + UsageOf(r), cfg.limits.maxTokens))
            else if r.stop.ToolUse? && calls + |r.toolCalls| > cfg.limits.maxToolCalls then
              Some(ToolCallBudget(calls + |r.toolCalls|, cfg.limits.maxToolCalls))
            else None
  {
    hide Invariant, Project, FindAssistant, TokenCount, CallCount;
  }

  lemma {:induction false} Simulates(cfg: Config, ask: seq<ProviderMessage> -> Answer, tool: ToolCall -> Observation, w: World, seen: set<string>,
                                     context: seq<Message>, taken: nat, calls: nat, tokens: nat)
    requires cfg.Valid() && EnvOf(ask, tool).Valid() && Ungated(cfg) && Between(cfg, w, context, taken, calls, tokens)
    requires forall id | Called(StateOf(w).assistants, id) :: id in seen
    requires FreshSteps(seen, Loop(cfg.limits, ask, Executed(cfg, tool), ProviderMessages(context), taken, calls, tokens).steps)
    ensures ComesTo(cfg, EnvOf(ask, tool), w, Loop(cfg.limits, ask, Executed(cfg, tool), ProviderMessages(context), taken, calls, tokens))
    decreases cfg.limits.maxSteps - taken, 2
  {
    hide Invariant, Tick, Project, Finish, Requests, Leads, FindAssistant, TokenCount, CallCount, BudgetFailure, StepMessages, ObserveAll,
         Executed, UsageOf, Called, FreshSteps, Working, ProviderMessages, ToProvider;
    var env := EnvOf(ask, tool);
    if taken >= cfg.limits.maxSteps {
      BudgetUsed(cfg, env, w, context, taken, calls, tokens);
    } else {
      var asking := StepOpens(cfg, env, w, context, taken, calls, tokens);
      LeadsInvariant(cfg, env, w, asking, []);
      SettledRecords(cfg, asking);
      SimulatesAnswer(cfg, ask, tool, asking, seen, context, taken, calls, tokens);
      var o := Loop(cfg.limits, ask, Executed(cfg, tool), ProviderMessages(context), taken, calls, tokens);
      ComesAfter(cfg, env, w, asking, [], o, o.steps);
      assert [] + o.requests == o.requests;
    }
  }

  /** The same, from where the provider is asked. */
  lemma {:induction false} SimulatesAnswer(cfg: Config, ask: seq<ProviderMessage> -> Answer, tool: ToolCall -> Observation, w: World, seen: set<string>,
                                           context: seq<Message>, taken: nat, calls: nat, tokens: nat)
    requires cfg.Valid() && EnvOf(ask, tool).Valid() && Ungated(cfg) && taken < cfg.limits.maxSteps
    requires Invariant(cfg, w) && w.log != [] && w.place.InProvider? && Project(w.log).Some? && StateOf(w).status.Running?
    requires var p := StateOf(w);
             && p.HasOpenStep() && p.CurrentAssistant().None? && p.inbox == [] && p.failure.None? && p.messages == context
             && |p.completed| == taken && CallCount(p.assistants) == calls && TokenCount(p.assistants) == tokens
             && (forall i | 0 <= i < |p.tools| :: p.tools[i].key in p.completed && p.tools[i].IsDone())
             && ToolsCalled(p.assistants, p.tools) && BudgetFailure(cfg.limits, p).None?
             && forall id | Called(p.assistants, id) :: id in seen
    requires FreshSteps(seen, Loop(cfg.limits, ask, Executed(cfg, tool), ProviderMessages(context), taken, calls, tokens).steps)
    ensures ComesTo(cfg, EnvOf(ask, tool), w, Loop(cfg.limits, ask, Executed(cfg, tool), ProviderMessages(context), taken, calls, tokens))
    decreases cfg.limits.maxSteps - taken, 1
  {
    hide Invariant, Tick, Project, Finish, Requests, Leads, FindAssistant, TokenCount, CallCount, StepMessages, ObserveAll,
         Executed, UsageOf, Called, FreshSteps, Working, ToolsCalled, ProviderMessages, ToProvider;
    var env := EnvOf(ask, tool);
    var o := Loop(cfg.limits, ask, Executed(cfg, tool), ProviderMessages(context), taken, calls, tokens);
    match ask(ProviderMessages(context))
    case Broken(message) => AskingBreaks(cfg, env, w, message);
    case Answered(r) =>
      var next := AskingAnswers(cfg, env, w, r, context, taken, calls, tokens);
      BudgetsAgree(cfg, next, r, context, taken, calls, tokens);
      if BudgetFailure(cfg.limits, StateOf(next)).Some? {
        AnswerEnds(cfg, env, next, r, context, taken, calls, tokens);
        ComesAfter(cfg, env, w, next, [ProviderMessages(context)], Outcome([], [], o.status, o.failure), o.steps);
      } else if !r.stop.ToolUse? {
        AnswerSettles(cfg, env, next, r, context, taken, calls, tokens);
        ComesAfter(cfg, env, w, next, [ProviderMessages(context)], Outcome([], [], o.status, o.failure), o.steps);
      } else {
        SimulatesTools(cfg, ask, tool, w, next, r, seen, context, taken, calls, tokens);
      }
  }

  lemma {:induction false} SimulatesTools(cfg: Config, ask: seq<ProviderMessage> -> Answer, tool: ToolCall -> Observation, w: World, next: World, r: Response,
                                          seen: set<string>, context: seq<Message>, taken: nat, calls: nat, tokens: nat)
    requires cfg.Valid() && EnvOf(ask, tool).Valid() && Ungated(cfg) && taken < cfg.limits.maxSteps
    requires Project(w.log).Some? && ToolsCalled(StateOf(w).assistants, StateOf(w).tools) && Project(next.log).Some?
    requires forall id | Called(StateOf(w).assistants, id) :: id in seen
    requires forall i | 0 <= i < |StateOf(w).tools| :: StateOf(w).tools[i].key in StateOf(next).completed && StateOf(w).tools[i].IsDone()
    requires Leads(cfg, EnvOf(ask, tool), w, next, [ProviderMessages(context)]) && Answering(cfg, next, r, context, taken, calls, tokens)
    requires StateOf(next).tools == StateOf(w).tools && |StateOf(next).assistants| == |StateOf(w).assistants| + 1
    requires StateOf(next).assistants[..|StateOf(w).assistants|] == StateOf(w).assistants
    requires StateOf(next).assistants[|StateOf(w).assistants|].toolCalls == r.toolCalls
    requires r.Valid() && ask(ProviderMessages(context)) == Answered(r) && r.stop.ToolUse? && BudgetFailure(cfg.limits, StateOf(next)).None?
    requires tokens + UsageOf(r) <= cfg.limits.maxTokens && calls + |r.toolCalls| <= cfg.limits.maxToolCalls
    requires FreshSteps(seen, Loop(cfg.limits, ask, Executed(cfg, tool), ProviderMessages(context), taken, calls, tokens).steps)
    ensures ComesTo(cfg, EnvOf(ask, tool), w, Loop(cfg.limits, ask, Executed(cfg, tool), ProviderMessages(context), taken, calls, tokens))
    decreases cfg.limits.maxSteps - taken, 0
  {
    hide Invariant, Tick, Project, Finish, Requests, Leads, FindAssistant, TokenCount, CallCount, BudgetFailure, StepMessages, ObserveAll,
         Executed, UsageOf, Called, Working, ToolsCalled, Between, ProviderMessages, ToProvider;
    var env := EnvOf(ask, tool);
    var step := StepResult(taken + 1, r, ObserveAll(Executed(cfg, tool), r.toolCalls));
    var rest := Loop(cfg.limits, ask, Executed(cfg, tool), ProviderMessages(context) + StepMessages(step), taken + 1, calls + |r.toolCalls|, tokens + UsageOf(r));
    var o := Loop(cfg.limits, ask, Executed(cfg, tool), ProviderMessages(context), taken, calls, tokens);
    assert o == Outcome([ProviderMessages(context)] + rest.requests, [step] + rest.steps, rest.status, rest.failure);
    assert ([step] + rest.steps)[1..] == rest.steps;
    SeenIsUnknown(StateOf(w).assistants, StateOf(w).tools, r.toolCalls, seen);
    StepRendered(context, step);
    var again := ToolRound(cfg, env, next, r, seen, context, taken, calls, tokens);
    var record := StateOf(next).assistants[|StateOf(w).assistants|];
    SeenMore(StateOf(w).assistants, record, seen);
    assert StateOf(w).assistants + [record] == StateOf(next).assistants;
    Simulates(cfg, ask, tool, again, seen + IdsOf(r.toolCalls), context + StepRecord(step), taken + 1, calls + |r.toolCalls|, tokens + UsageOf(r));
    LeadsOn(cfg, env, w, next, again, [ProviderMessages(context)], []);
    assert [ProviderMessages(context)] + [] == [ProviderMessages(context)];
    ComesAfter(cfg, env, w, again, [ProviderMessages(context)], rest, o.steps);
  }

  /* ---------------------------------------------------------------- the two runtimes */

  /** What the durable runtime reads of its initial messages. */
  function RolesAndTexts(messages: seq<ProviderMessage>): (r: seq<(Role, string)>)
    requires forall i | 0 <= i < |messages| :: messages[i].content.Text?
    ensures |r| == |messages| && forall i | 0 <= i < |r| :: r[i] == (messages[i].role, messages[i].content.text)
  {
    seq(|messages|, i requires 0 <= i < |messages| => (messages[i].role, messages[i].content.text))
  }

  /** What it sends for them. */
  function Started(messages: seq<ProviderMessage>): seq<ProviderMessage>
    requires forall i | 0 <= i < |messages| :: messages[i].content.Text?
  {
    ProviderMessages(PlainMessages(RolesAndTexts(messages)))
  }

  /** No key beside role and content, but the error flag that every message with the tool role is sent with. */
  predicate AsSent(m: ProviderMessage) {
    m.toolCalls.None? && m.callId.None? && m.name.None? && m.isError == if m.role.Tool? then Some(false) else None
  }

  lemma {:induction false} PlainAt(messages: seq<(Role, string)>, i: nat)
    requires i < |messages|
    ensures |PlainMessages(messages)| == |messages| && PlainMessages(messages)[i] == Plain(messages[i].0, messages[i].1)
  {
    if |messages| > 1 {
      PlainAt(messages[..|messages| - 1], if i < |messages| - 1 then i else 0);
    }
  }

  lemma {:induction false} SentAsGiven(messages: seq<ProviderMessage>)
    requires forall i | 0 <= i < |messages| :: messages[i].content.Text?
    ensures Started(messages) == messages <==> forall i | 0 <= i < |messages| :: AsSent(messages[i])
  {
    hide PlainMessages, AsSent, Started;
    var sent := Started(messages);
    StartedLength(messages);
    forall i | 0 <= i < |messages| ensures sent[i] == messages[i] <==> AsSent(messages[i]) {
      SentAt(messages, i);
    }
    if forall i | 0 <= i < |messages| :: AsSent(messages[i]) {
      assert forall i | 0 <= i < |messages| :: sent[i] == messages[i];
    }
  }

  lemma {:induction false} StartedLength(messages: seq<ProviderMessage>)
    requires forall i | 0 <= i < |messages| :: messages[i].content.Text?
    ensures |Started(messages)| == |messages|
  {
    if messages != [] {
      PlainAt(RolesAndTexts(messages), 0);
    }
  }

  lemma {:induction false} SentAt(messages: seq<ProviderMessage>, i: nat)
    requires i < |messages| && forall i | 0 <= i < |messages| :: messages[i].content.Text?
    ensures |Started(messages)| == |messages| && (Started(messages)[i] == messages[i] <==> AsSent(messages[i]))
  {
    hide PlainMessages;
    PlainAt(RolesAndTexts(messages), i);
  }

  function Launched(messages: seq<ProviderMessage>): World
    requires forall i | 0 <= i < |messages| :: messages[i].content.Text?
  {
    World(InitialBatch(RolesAndTexts(messages)), Ready, [])
  }

  /** The first context of the durable runtime. */
  lemma {:induction false} FirstAsked(cfg: Config, env: Environment, messages: seq<ProviderMessage>)
    requires cfg.Valid() && env.Valid()
    requires forall i | 0 <= i < |messages| :: messages[i].content.Text? && !BlankRole(messages[i].role)
    ensures Between(cfg, Launched(messages), PlainMessages(RolesAndTexts(messages)), 0, 0, 0)
    ensures StateOf(Launched(messages)).assistants == []
    ensures Requests(cfg, env, Launched(messages)) != [] && Requests(cfg, env, Launched(messages))[0] == Started(messages)
  {
    hide WorldOk, Project, Tick, Finish, Requests, Leads, FindAssistant, PlainMessages;
    LaunchGood(cfg, RolesAndTexts(messages));
    var w := Launched(messages);
    var asking := StepOpens(cfg, env, w, PlainMessages(RolesAndTexts(messages)), 0, 0, 0);
    LeadsInvariant(cfg, env, w, asking, []);
    SameEnding(cfg, env, w, asking);
    TickLeads(cfg, env, asking);
    LeadsAsking(cfg, env, asking, Tick(cfg, env, asking), [Started(messages)]);
  }

  lemma {:induction false} LeadsAsking(cfg: Config, env: Environment, a: World, b: World, asked: seq<seq<ProviderMessage>>)
    requires cfg.Valid() && env.Valid() && Leads(cfg, env, a, b, asked)
    ensures asked <= Requests(cfg, env, a)
  {
    hide Invariant, Finish, Requests;
  }

  /** For every script of responses, every limit and all initial messages with whatever keys: both runtimes ask with the same
      contexts if and only if every initial message is given as the durable runtime sends it, so in particular only if a
      message with the tool role carries its error flag. Then, if no response reuses a call id, they also ask in the same order
      and end with the same status and failure reason. */
  lemma {:induction false} DurableEqualsInMemory(cfg: Config, ask: seq<ProviderMessage> -> Answer, tool: ToolCall -> Observation,
                                                 messages: seq<ProviderMessage>)
    requires cfg.Valid() && EnvOf(ask, tool).Valid() && Ungated(cfg)
    requires forall i | 0 <= i < |messages| :: messages[i].content.Text? && !BlankRole(messages[i].role)
    requires FreshSteps({}, Loop(cfg.limits, ask, Executed(cfg, tool), messages, 0, 0, 0).steps)
    ensures Invariant(cfg, Launched(messages))
    ensures Requests(cfg, EnvOf(ask, tool), Launched(messages)) == Loop(cfg.limits, ask, Executed(cfg, tool), messages, 0, 0, 0).requests
            <==> forall i | 0 <= i < |messages| :: AsSent(messages[i])
    ensures (forall i | 0 <= i < |messages| :: AsSent(messages[i])) ==>
              ComesTo(cfg, EnvOf(ask, tool), Launched(messages), Loop(cfg.limits, ask, Executed(cfg, tool), messages, 0, 0, 0))
  {
    hide WorldOk, Project, FreshSteps, Executed, ComesTo, Started, AsSent, PlainMessages, Requests, Between, Launched, Finish, Loop;
    SameRequestsOnlyAsSent(cfg, ask, tool, messages);
    SentAsGiven(messages);
    if Started(messages) == messages {
      SimulatesStart(cfg, ask, tool, messages);
      ComesToRequests(cfg, EnvOf(ask, tool), Launched(messages), Loop(cfg.limits, ask, Executed(cfg, tool), messages, 0, 0, 0));
    }
  }

  /** An initial message that is not given as the durable runtime sends it makes the very first contexts differ. */
  lemma {:induction false} SameRequestsOnlyAsSent(cfg: Config, ask: seq<ProviderMessage> -> Answer, tool: ToolCall -> Observation,
                                                  messages: seq<ProviderMessage>)
    requires cfg.Valid() && EnvOf(ask, tool).Valid()
    requires forall i | 0 <= i < |messages| :: messages[i].content.Text? && !BlankRole(messages[i].role)
    ensures Invariant(cfg, Launched(messages))
    ensures Requests(cfg, EnvOf(ask, tool), Launched(messages)) == Loop(cfg.limits, ask, Executed(cfg, tool), messages, 0, 0, 0).requests
            ==> forall i | 0 <= i < |messages| :: AsSent(messages[i])
  {
    hide WorldOk, Project, Executed, Started, AsSent, PlainMessages, Requests, Between, Launched, Loop;
    FirstAsked(cfg, EnvOf(ask, tool), messages);
    SentAsGiven(messages);
    AsksFirst(cfg.limits, ask, Executed(cfg, tool), messages);
    FromBetween(cfg, Launched(messages), PlainMessages(RolesAndTexts(messages)));
  }

  const TOOL_TEXT: seq<ProviderMessage> := [ProviderMessage(Tool, Text("x"), None, None, None, None)]

  /** Started with a text that has the tool role and no error flag, the two runtimes ask with different contexts in every
      script. */
  lemma {:induction false} ToolTextAskedDifferently(cfg: Config, ask: seq<ProviderMessage> -> Answer, tool: ToolCall -> Observation)
    requires cfg.Valid() && EnvOf(ask, tool).Valid()
    ensures Invariant(cfg, Launched(TOOL_TEXT))
    ensures Requests(cfg, EnvOf(ask, tool), Launched(TOOL_TEXT)) != Loop(cfg.limits, ask, Executed(cfg, tool), TOOL_TEXT, 0, 0, 0).requests
  {
    hide WorldOk, Project, Executed, Started, PlainMessages, Requests, Launched, Loop, Invariant;
    SameRequestsOnlyAsSent(cfg, ask, tool, TOOL_TEXT);
    assert !AsSent(TOOL_TEXT[0]);
  }

  lemma {:induction false} AsksFirst(limits: Limits, ask: seq<ProviderMessage> -> Answer, tool: ToolCall -> Observation, messages: seq<ProviderMessage>)
    requires limits.maxSteps >= 1
    ensures Loop(limits, ask, tool, messages, 0, 0, 0).requests != [] && Loop(limits, ask, tool, messages, 0, 0, 0).requests[0] == messages
  {
    hide StepMessages, ObserveAll, UsageOf;
  }

  lemma {:induction false} ComesToRequests(cfg: Config, env: Environment, w: World, o: Outcome)
    requires cfg.Valid() && env.Valid() && ComesTo(cfg, env, w, o)
    ensures Invariant(cfg, w) && Requests(cfg, env, w) == o.requests
  {
    hide Invariant, Requests, Finish, Project;
  }

  lemma {:induction false} FromBetween(cfg: Config, w: World, context: seq<Message>)
    requires Between(cfg, w, context, 0, 0, 0)
    ensures Invariant(cfg, w)
  {
    hide Invariant, Project, FindAssistant;
  }

  /** The durable runtime does what the in-memory loop does that starts with the messages as the durable one sends them. */
  lemma {:induction false} SimulatesStart(cfg: Config, ask: seq<ProviderMessage> -> Answer, tool: ToolCall -> Observation, messages: seq<ProviderMessage>)
    requires cfg.Valid() && EnvOf(ask, tool).Valid() && Ungated(cfg)
    requires forall i | 0 <= i < |messages| :: messages[i].content.Text? && !BlankRole(messages[i].role)
    requires FreshSteps({}, Loop(cfg.limits, ask, Executed(cfg, tool), Started(messages), 0, 0, 0).steps)
    ensures ComesTo(cfg, EnvOf(ask, tool), Launched(messages), Loop(cfg.limits, ask, Executed(cfg, tool), Started(messages), 0, 0, 0))
  {
    hide WorldOk, Project, Loop, FreshSteps, Executed, ComesTo, PlainMessages, Between, Requests;
    FirstAsked(cfg, EnvOf(ask, tool), messages);
    NobodyCalled();
    Simulates(cfg, ask, tool, Launched(messages), {}, PlainMessages(RolesAndTexts(messages)), 0, 0, 0);
  }

  lemma {:induction false} NobodyCalled()
    ensures forall id :: !Called([], id)
  {
  }

  /** Whatever the initial messages: with a provider that does not tell them from what the durable runtime sends for them, both
      runtimes take the same steps and end with the same status and failure reason, and their contexts differ in nothing but
      these messages. */
  lemma {:induction false} SameEndingWhenAlike(cfg: Config, ask: seq<ProviderMessage> -> Answer, tool: ToolCall -> Observation,
                                               messages: seq<ProviderMessage>)
    requires cfg.Valid() && EnvOf(ask, tool).Valid() && Ungated(cfg)
    requires forall i | 0 <= i < |messages| :: messages[i].content.Text? && !BlankRole(messages[i].role)
    requires AnswersAlike(ask, Started(messages), messages)
    requires FreshSteps({}, Loop(cfg.limits, ask, Executed(cfg, tool), messages, 0, 0, 0).steps)
    ensures Invariant(cfg, Launched(messages)) && Project(Finish(cfg, EnvOf(ask, tool), Launched(messages)).log).Some?
    ensures var o := Loop(cfg.limits, ask, Executed(cfg, tool), messages, 0, 0, 0);
            var p := StateOf(Finish(cfg, EnvOf(ask, tool), Launched(messages)));
            && p.status == o.status && p.failure == o.failure
            && AllSameAfter(Started(messages), messages, Requests(cfg, EnvOf(ask, tool), Launched(messages)), o.requests)
  {
    hide Invariant, Project, Loop, FreshSteps, Executed, Started, Requests, Launched, Finish, AnswersAlike, AllSameAfter;
    assert Started(messages) + [] == Started(messages) && messages + [] == messages;
    LoopAlike(cfg.limits, ask, Executed(cfg, tool), Started(messages), messages, [], 0, 0, 0);
    SimulatesStart(cfg, ask, tool, messages);
  }
}
