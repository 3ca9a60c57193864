/** The in-memory runtime: the same loop as the durable one, without a log. */
module ReactRuntime {
  import opened Events
  import opened Projection
  import opened Runtime
  import opened RunModels
  import opened Termination

  /** What a run of the loop comes to: every context the provider was asked with, the steps, and how it ended. */
  datatype Outcome = Outcome(requests: seq<seq<ProviderMessage>>, steps: seq<StepResult>, status: RunStatus, failure: Option<Reason>)

  function UsageOf(r: Response): nat {
    if r.usage.Some? then r.usage.value.0 + r.usage.value.1 else 0
  }

  function ObserveCall(tool: ToolCall -> Observation, call: ToolCall): ToolObservation {
    ToolObservation(call.id, call.name, tool(call).output, tool(call).isError)
  }

  function ObserveAll(tool: ToolCall -> Observation, calls: seq<ToolCall>): (r: seq<ToolObservation>)
    ensures |r| == |calls|
  {
    if calls == [] then [] else ObserveAll(tool, calls[..|calls| - 1]) + [ObserveCall(tool, calls[|calls| - 1])]
  }

  function ResultMessages(observations: seq<ToolObservation>): (r: seq<ProviderMessage>)
    ensures |r| == |observations|
  {
    if observations == [] then []
    else
      var o := observations[|observations| - 1];
      ResultMessages(observations[..|observations| - 1]) + [ProviderMessage(Tool, o.output, None, Some(o.callId), Some(o.name), Some(o.isError))]
  }

  /** `_append_step_context`: the messages a tool step adds to the context. */
  function StepMessages(step: StepResult): seq<ProviderMessage> {
    [ProviderMessage(Assistant, Text(step.response.text), Some(step.response.toolCalls), None, None, None)] + ResultMessages(step.observations)
  }

  /** The loop from a given point: `taken` steps, `calls` requested calls and `tokens` used so far. */
  function Loop(limits: Limits, provider: seq<ProviderMessage> -> Answer, tool: ToolCall -> Observation,
                context: seq<ProviderMessage>, taken: nat, calls: nat, tokens: nat): Outcome
    decreases limits.maxSteps - taken
  {
    if taken >= limits.maxSteps then Outcome([], [], Failed, Some(StepBudget(limits.maxSteps)))
    else
      match provider(context)
      case Broken(message) => Outcome([context], [], Failed, Some(RuntimeFailure(message)))
      case Answered(r) =>
        var used := tokens + UsageOf(r);
        var bare := StepResult(taken + 1, r, []);
        if used > limits.maxTokens then Outcome([context], [bare], Failed, Some(TokenBudget(used, limits.maxTokens)))
        else
          match r.stop
          case EndTurn => Outcome([context], [bare], Completed, None)
          case MaxTokens => Outcome([context], [bare], Failed, Some(ProviderMaxTokens))
          case ToolUse =>
            var asked := calls + |r.toolCalls|;
            if asked > limits.maxToolCalls then
              Outcome([context], [bare], Failed, Some(ToolCallBudget(asked, limits.maxToolCalls)))
            else
              var step := StepResult(taken + 1, r, ObserveAll(tool, r.toolCalls));
              var rest := Loop(limits, provider, tool, context + StepMessages(step), taken + 1, asked, used);
              Outcome([context] + rest.requests, [step] + rest.steps, rest.status, rest.failure)
  }

  /* ---------------------------------------------------------------- contexts that differ at their start */

  /** The provider does not tell two contexts apart by their start. */
  ghost predicate AnswersAlike(provider: seq<ProviderMessage> -> Answer, a: seq<ProviderMessage>, b: seq<ProviderMessage>) {
    forall tail: seq<ProviderMessage> :: provider(a + tail) == provider(b + tail)
  }

  /** The same context after different starts. */
  predicate SameAfter(a: seq<ProviderMessage>, b: seq<ProviderMessage>, x: seq<ProviderMessage>, y: seq<ProviderMessage>) {
    a <= x && b <= y && x[|a|..] == y[|b|..]
  }

  predicate AllSameAfter(a: seq<ProviderMessage>, b: seq<ProviderMessage>, x: seq<seq<ProviderMessage>>, y: seq<seq<ProviderMessage>>) {
    |x| == |y| && forall k | 0 <= k < |x| :: SameAfter(a, b, x[k], y[k])
  }

  /** One round of the loop. */
  lemma {:induction false} LoopIs(limits: Limits, provider: seq<ProviderMessage> -> Answer, tool: ToolCall -> Observation,
                                  context: seq<ProviderMessage>, taken: nat, calls: nat, tokens: nat)
    ensures var o := Loop(limits, provider, tool, context, taken, calls, tokens);
            if taken >= limits.maxSteps then o == Outcome([], [], Failed, Some(StepBudget(limits.maxSteps)))
            else
              match provider(context)
              case Broken(message) => o == Outcome([context], [], Failed, Some(RuntimeFailure(message)))
              case Answered(r) =>
                if GoesOn(limits, r, calls, tokens) then
                  var step := StepResult(taken + 1, r, ObserveAll(tool, r.toolCalls));
                  var rest := Loop(limits, provider, tool, context + StepMessages(step), taken + 1, calls + |r.toolCalls|, tokens + UsageOf(r));
                  o == Outcome([context] + rest.requests, [step] + rest.steps, rest.status, rest.failure)
                else o == Outcome([context], [StepResult(taken + 1, r, [])], EndOf(limits, r, calls, tokens).0, EndOf(limits, r, calls, tokens).1)
  {
    hide StepMessages, ObserveAll, UsageOf;
  }

  /** After this response the loop asks again. */
  predicate GoesOn(limits: Limits, r: Response, calls: nat, tokens: nat) {
    tokens + UsageOf(r) <= limits.maxTokens && r.stop.ToolUse? && calls + |r.toolCalls| <= limits.maxToolCalls
  }

  /** How the loop ends with a response after which it does not ask again. */
  function EndOf(limits: Limits, r: Response, calls: nat, tokens: nat): (RunStatus, Option<Reason>) {
    if tokens + UsageOf(r) > limits.maxTokens then (Failed, Some(TokenBudget(tokens + UsageOf(r), limits.maxTokens)))
    else match r.stop
         case EndTurn => (Completed, None)
         case MaxTokens => (Failed, Some(ProviderMaxTokens))
         case ToolUse => (Failed, Some(ToolCallBudget(calls + |r.toolCalls|, limits.maxToolCalls)))
  }

  /** Two loops whose contexts differ only at a start that the provider does not tell apart take the same steps and end alike. */
  lemma {:induction false} LoopAlike(limits: Limits, provider: seq<ProviderMessage> -> Answer, tool: ToolCall -> Observation, a: seq<ProviderMessage>,
                                     b: seq<ProviderMessage>, tail: seq<ProviderMessage>, taken: nat, calls: nat, tokens: nat)
    requires AnswersAlike(provider, a, b)
    ensures var x, y := Loop(limits, provider, tool, a + tail, taken, calls, tokens), Loop(limits, provider, tool, b + tail, taken, calls, tokens);
            x.steps == y.steps && x.status == y.status && x.failure == y.failure && AllSameAfter(a, b, x.requests, y.requests)
    decreases limits.maxSteps - taken
  {
    hide Loop, StepMessages, ObserveAll, UsageOf, GoesOn, EndOf;
    LoopIs(limits, provider, tool, a + tail, taken, calls, tokens);
    LoopIs(limits, provider, tool, b + tail, taken, calls, tokens);
    if taken < limits.maxSteps {
      assert provider(a + tail) == provider(b + tail);
      assert SameAfter(a, b, a + tail, b + tail);
      if provider(a + tail).Answered? && GoesOn(limits, provider(a + tail).response, calls, tokens) {
        var r := provider(a + tail).response;
        var step := StepResult(taken + 1, r, ObserveAll(tool, r.toolCalls));
        assert (a + tail) + StepMessages(step) == a + (tail + StepMessages(step));
        assert (b + tail) + StepMessages(step) == b + (tail + StepMessages(step));
        LoopAlike(limits, provider, tool, a, b, tail + StepMessages(step), taken + 1, calls + |r.toolCalls|, tokens + UsageOf(r));
      }
    }
  }

  /* ---------------------------------------------------------------- the loop, read off its record */

  /** Tokens that the steps have used. */
  function Used(steps: seq<StepResult>): nat {
    if steps == [] then 0
    else Used(steps[1..]) + (match steps[0].response.usage case None => 0 case Some(u) => u.0 + u.1)
  }

  /** Calls that the steps have asked for. */
  function Asked(steps: seq<StepResult>): nat {
    if steps == [] then 0 else |steps[0].response.toolCalls| + Asked(steps[1..])
  }

  /** One observation for each call, in order, with the output of the tool. */
  predicate IsObserved(tool: ToolCall -> Observation, step: StepResult) {
    && |step.observations| == |step.response.toolCalls|
    && forall j | 0 <= j < |step.observations| ::
         var call := step.response.toolCalls[j];
         step.observations[j] == ToolObservation(call.id, call.name, tool(call).output, tool(call).isError)
  }

  /** The next context: the response with its calls, then one result for each observation, in order. */
  predicate IsNextContext(context: seq<ProviderMessage>, step: StepResult, next: seq<ProviderMessage>) {
    var n := |context|;
    && |next| == n + 1 + |step.observations| && context <= next
    && next[n] == ProviderMessage(Assistant, Text(step.response.text), Some(step.response.toolCalls), None, None, None)
    && forall j | 0 <= j < |step.observations| ::
         var o := step.observations[j];
         next[n + 1..][j] == ProviderMessage(Tool, o.output, None, Some(o.callId), Some(o.name), Some(o.isError))
  }

  /** A step after which the loop has gone on. */
  predicate WentOn(tool: ToolCall -> Observation, step: StepResult) {
    step.response.stop.ToolUse? && IsObserved(tool, step)
  }

  /** How the loop has ended: `tokens` and `calls` are all that was used. */
  ghost predicate EndedSo(limits: Limits, provider: seq<ProviderMessage> -> Answer, tool: ToolCall -> Observation, o: Outcome,
                          taken: nat, calls: nat, tokens: nat) {
    var n := |o.steps|;
    match o.failure
    case Some(StepBudget(max)) =>
      && max == limits.maxSteps && o.status.Failed? && |o.requests| == n && taken + n >= max && tokens <= limits.maxTokens && calls <= limits.maxToolCalls
      && (n > 0 ==> WentOn(tool, o.steps[n - 1]))
    case Some(RuntimeFailure(message)) =>
      && o.status.Failed? && |o.requests| == n + 1 && provider(o.requests[n]) == Broken(message) && tokens <= limits.maxTokens
      && calls <= limits.maxToolCalls && (n > 0 ==> WentOn(tool, o.steps[n - 1]))
    case Some(TokenBudget(count, limit)) =>
      && o.status.Failed? && |o.requests| == n > 0 && o.steps[n - 1].observations == [] && count == tokens && limit == limits.maxTokens && count > limit
    case Some(ToolCallBudget(count, limit)) =>
      && o.status.Failed? && |o.requests| == n > 0 && o.steps[n - 1].observations == [] && o.steps[n - 1].response.stop.ToolUse?
      && tokens <= limits.maxTokens && count == calls && limit == limits.maxToolCalls && count > limit
    case Some(ProviderMaxTokens) =>
      && o.status.Failed? && |o.requests| == n > 0 && o.steps[n - 1].observations == [] && o.steps[n - 1].response.stop.MaxTokens?
      && tokens <= limits.maxTokens
    case None =>
      && o.status.Completed? && |o.requests| == n > 0 && o.steps[n - 1].observations == [] && o.steps[n - 1].response.stop.EndTurn?
      && tokens <= limits.maxTokens
    case _ => false
  }

  /** Each step has its number, its response is what the provider answered to its request, and each but the last led to the next
      request. */
  ghost predicate StepsFollow(provider: seq<ProviderMessage> -> Answer, tool: ToolCall -> Observation, o: Outcome, taken: nat) {
    && |o.steps| <= |o.requests| <= |o.steps| + 1
    && (forall k | 0 <= k < |o.steps| :: provider(o.requests[k]) == Answered(o.steps[k].response) && o.steps[k].stepNumber == taken + k + 1)
    && (forall k | 0 <= k < |o.steps| - 1 :: WentOn(tool, o.steps[k]))
    && (forall k | 0 <= k < |o.requests| - 1 :: IsNextContext(o.requests[k], o.steps[k], o.requests[k + 1]))
  }

  lemma {:induction false} ObservedAll(tool: ToolCall -> Observation, calls: seq<ToolCall>)
    ensures forall j | 0 <= j < |calls| ::
              ObserveAll(tool, calls)[j] == ToolObservation(calls[j].id, calls[j].name, tool(calls[j]).output, tool(calls[j]).isError)
  {
    if calls != [] {
      ObservedAll(tool, calls[..|calls| - 1]);
    }
  }

  lemma {:induction false} ResultsAre(observations: seq<ToolObservation>)
    ensures forall j | 0 <= j < |observations| ::
              var o := observations[j];
              ResultMessages(observations)[j] == ProviderMessage(Tool, o.output, None, Some(o.callId), Some(o.name), Some(o.isError))
  {
    if observations != [] {
      ResultsAre(observations[..|observations| - 1]);
    }
  }

  lemma {:induction false} NextContextIs(context: seq<ProviderMessage>, step: StepResult)
    ensures IsNextContext(context, step, context + StepMessages(step))
  {
    ResultsAre(step.observations);
    var next := context + StepMessages(step);
    assert next[|context| + 1..] == ResultMessages(step.observations);
  }

  lemma {:induction false} FollowsFrom(provider: seq<ProviderMessage> -> Answer, tool: ToolCall -> Observation, request: seq<ProviderMessage>,
                                       step: StepResult, rest: Outcome, taken: nat)
    requires provider(request) == Answered(step.response) && step.stepNumber == taken + 1 && WentOn(tool, step)
    requires StepsFollow(provider, tool, rest, taken + 1) && (rest.requests != [] ==> IsNextContext(request, step, rest.requests[0]))
    ensures StepsFollow(provider, tool, Outcome([request] + rest.requests, [step] + rest.steps, rest.status, rest.failure), taken)
  {
    hide WentOn, IsNextContext;
  }

  lemma {:induction false} EndsFrom(limits: Limits, provider: seq<ProviderMessage> -> Answer, tool: ToolCall -> Observation,
                                    request: seq<ProviderMessage>, step: StepResult, rest: Outcome, taken: nat, calls: nat, tokens: nat)
    requires EndedSo(limits, provider, tool, rest, taken + 1, calls, tokens) && WentOn(tool, step)
    ensures EndedSo(limits, provider, tool, Outcome([request] + rest.requests, [step] + rest.steps, rest.status, rest.failure), taken, calls, tokens)
  {
    hide WentOn;
  }

  /** What the loop records: every request and response, in order, what each tool step observed and added to the context, and why
      it ended, with all tokens and calls counted. */
  lemma {:induction false} LoopExactly(limits: Limits, provider: seq<ProviderMessage> -> Answer, tool: ToolCall -> Observation,
                                       context: seq<ProviderMessage>, taken: nat, calls: nat, tokens: nat)
    requires calls <= limits.maxToolCalls && tokens <= limits.maxTokens
    ensures var o := Loop(limits, provider, tool, context, taken, calls, tokens);
            && (taken < limits.maxSteps ==> o.requests != [] && o.requests[0] == context && |o.requests| <= limits.maxSteps - taken)
            && (taken >= limits.maxSteps ==> o.requests == [])
            && StepsFollow(provider, tool, o, taken)
            && EndedSo(limits, provider, tool, o, taken, calls + Asked(o.steps), tokens + Used(o.steps))
    decreases limits.maxSteps - taken
  {
    hide Loop, StepMessages, ObserveAll, GoesOn, EndOf, StepsFollow, EndedSo, IsNextContext, IsObserved;
    LoopIs(limits, provider, tool, context, taken, calls, tokens);
    if taken >= limits.maxSteps || provider(context).Broken? {
      NoStep(limits, provider, tool, context, taken, calls, tokens);
    } else {
      var r := provider(context).response;
      if GoesOn(limits, r, calls, tokens) {
        var step := StepResult(taken + 1, r, ObserveAll(tool, r.toolCalls));
        RoundGoesOn(limits, tool, step, calls, tokens);
        LoopExactly(limits, provider, tool, context + StepMessages(step), taken + 1, calls + |r.toolCalls|, tokens + UsageOf(r));
        var rest := Loop(limits, provider, tool, context + StepMessages(step), taken + 1, calls + |r.toolCalls|, tokens + UsageOf(r));
        NextContextIs(context, step);
        FollowsFrom(provider, tool, context, step, rest, taken);
        CountedFrom(step, rest.steps);
        EndsFrom(limits, provider, tool, context, step, rest, taken, calls + Asked([step] + rest.steps), tokens + Used([step] + rest.steps));
      } else {
        LastStep(limits, provider, tool, context, r, taken, calls, tokens);
      }
    }
  }

  lemma {:induction false} CountedFrom(step: StepResult, steps: seq<StepResult>)
    ensures Used([step] + steps) == UsageOf(step.response) + Used(steps)
    ensures Asked([step] + steps) == |step.response.toolCalls| + Asked(steps)
  {
    assert ([step] + steps)[1..] == steps;
  }

  lemma {:induction false} RoundGoesOn(limits: Limits, tool: ToolCall -> Observation, step: StepResult, calls: nat, tokens: nat)
    requires GoesOn(limits, step.response, calls, tokens) && step.observations == ObserveAll(tool, step.response.toolCalls)
    ensures WentOn(tool, step) && tokens + UsageOf(step.response) <= limits.maxTokens
    ensures calls + |step.response.toolCalls| <= limits.maxToolCalls
  {
    ObservedAll(tool, step.response.toolCalls);
  }

  /** The loop ends without another step. */
  lemma {:induction false} NoStep(limits: Limits, provider: seq<ProviderMessage> -> Answer, tool: ToolCall -> Observation,
                                  context: seq<ProviderMessage>, taken: nat, calls: nat, tokens: nat)
    requires calls <= limits.maxToolCalls && tokens <= limits.maxTokens && (taken >= limits.maxSteps || provider(context).Broken?)
    ensures var o := if taken >= limits.maxSteps then Outcome([], [], Failed, Some(StepBudget(limits.maxSteps)))
                     else Outcome([context], [], Failed, Some(RuntimeFailure(provider(context).message)));
            StepsFollow(provider, tool, o, taken) && EndedSo(limits, provider, tool, o, taken, calls + Asked([]), tokens + Used([]))
  {
  }

  /** The loop ends with this response. */
  lemma {:induction false} LastStep(limits: Limits, provider: seq<ProviderMessage> -> Answer, tool: ToolCall -> Observation,
                                    context: seq<ProviderMessage>, r: Response, taken: nat, calls: nat, tokens: nat)
    requires provider(context) == Answered(r) && !GoesOn(limits, r, calls, tokens)
    ensures var bare := StepResult(taken + 1, r, []);
            var o := Outcome([context], [bare], EndOf(limits, r, calls, tokens).0, EndOf(limits, r, calls, tokens).1);
            StepsFollow(provider, tool, o, taken) && EndedSo(limits, provider, tool, o, taken, calls + Asked([bare]), tokens + Used([bare]))
  {
    var bare := StepResult(taken + 1, r, []);
    CountedFrom(bare, []);
    assert [bare] + [] == [bare];
  }

  /** The run record of an outcome: all steps in one turn. */
  function RunOf(o: Outcome): AgentRun {
    AgentRun(o.status, if o.steps == [] then [] else [TurnResult(1, o.steps)], o.failure)
  }

  /** An outcome seen from further back in the loop. */
  function Preceded(requests: seq<seq<ProviderMessage>>, steps: seq<StepResult>, o: Outcome): Outcome {
    Outcome(requests + o.requests, steps + o.steps, o.status, o.failure)
  }

  lemma {:induction false} FromTheStart(o: Outcome)
    ensures Preceded([], [], o) == o
  {
    assert [] + o.requests == o.requests && [] + o.steps == o.steps;
  }

  lemma {:induction false} Associate<T>(a: seq<T>, x: T, b: seq<T>)
    ensures (a + [x]) + b == a + ([x] + b) && a + [] == a
  {
  }

  /** One round of the loop, seen from further back. */
  lemma {:induction false} Round(limits: Limits, provider: seq<ProviderMessage> -> Answer, tool: ToolCall -> Observation, requests: seq<seq<ProviderMessage>>,
              steps: seq<StepResult>, context: seq<ProviderMessage>, taken: nat, calls: nat, tokens: nat)
    ensures var whole := Preceded(requests, steps, Loop(limits, provider, tool, context, taken, calls, tokens));
            if taken >= limits.maxSteps then whole == Outcome(requests, steps, Failed, Some(StepBudget(limits.maxSteps)))
            else
              match provider(context)
              case Broken(message) => whole == Outcome(requests + [context], steps, Failed, Some(RuntimeFailure(message)))
              case Answered(r) =>
                var used := tokens + UsageOf(r);
                var asked := calls + |r.toolCalls|;
                var bare := StepResult(taken + 1, r, []);
                var step := StepResult(taken + 1, r, ObserveAll(tool, r.toolCalls));
                if used > limits.maxTokens then
                  whole == Outcome(requests + [context], steps + [bare], Failed, Some(TokenBudget(used, limits.maxTokens)))
                else if r.stop.EndTurn? then whole == Outcome(requests + [context], steps + [bare], Completed, None)
                else if r.stop.MaxTokens? then
                  whole == Outcome(requests + [context], steps + [bare], Failed, Some(ProviderMaxTokens))
                else if asked > limits.maxToolCalls then
                  whole == Outcome(requests + [context], steps + [bare], Failed, Some(ToolCallBudget(asked, limits.maxToolCalls)))
                else whole == Preceded(requests + [context], steps + [step],
                                    Loop(limits, provider, tool, context + StepMessages(step), taken + 1, asked, used))
  {
    hide StepMessages, ObserveAll, UsageOf;
    if taken < limits.maxSteps && provider(context).Answered? {
      var r := provider(context).response;
      var step := StepResult(taken + 1, r, ObserveAll(tool, r.toolCalls));
      var rest := Loop(limits, provider, tool, context + StepMessages(step), taken + 1, calls + |r.toolCalls|, tokens + UsageOf(r));
      Associate(requests, context, rest.requests);
      Associate(steps, step, rest.steps);
    }
  }

  class StructuredAgentRuntime {
    const limits: Limits
    const provider: seq<ProviderMessage> -> Answer
    const tool: ToolCall -> Observation

    constructor (limits: Limits, provider: seq<ProviderMessage> -> Answer, tool: ToolCall -> Observation)
      requires limits.maxSteps >= 1
      ensures this.limits == limits && this.provider == provider && this.tool == tool
    {
      this.limits := limits;
      this.provider := provider;
      this.tool := tool;
    }

    /** `run`, for a runtime without a goal gate. The contexts asked with are returned beside the run record. */
    method Run(messages: seq<ProviderMessage>) returns (run: AgentRun, requests: seq<seq<ProviderMessage>>)
      ensures requests == Loop(limits, provider, tool, messages, 0, 0, 0).requests
      ensures run == RunOf(Loop(limits, provider, tool, messages, 0, 0, 0)) && run.Valid()
    {
      hide Loop, Preceded, StepMessages, ObserveAll;
      var started := AgentRun(Created, [], None).Transition(Running, None).value;
      var context, steps := messages, [];
      var toolCallCount, tokenCount := 0, 0;
      requests := [];
      FromTheStart(Loop(limits, provider, tool, messages, 0, 0, 0));
      var i := 0;
      while i < limits.maxSteps
        invariant 0 <= i <= limits.maxSteps && |steps| == i && toolCallCount >= 0 && tokenCount >= 0
        invariant Loop(limits, provider, tool, messages, 0, 0, 0)
               == Preceded(requests, steps, Loop(limits, provider, tool, context, i, toolCallCount, tokenCount))
      {
        Round(limits, provider, tool, requests, steps, context, i, toolCallCount, tokenCount);
        var reply := provider(context);
        requests := requests + [context];
        if reply.Broken? {
          run := Fail(started, steps, RuntimeFailure(reply.message));
          return;
        }
        var response := reply.response;
        if response.usage.Some? {
          tokenCount := tokenCount + (response.usage.value.0 + response.usage.value.1);
        }
        var bare := StepResult(|steps| + 1, response, []);
        if tokenCount > limits.maxTokens {
          run := Fail(started, steps + [bare], TokenBudget(tokenCount, limits.maxTokens));
          return;
        }
        if response.stop.ToolUse? {
          var requested := |response.toolCalls|;
          if toolCallCount + requested > limits.maxToolCalls {
            run := Fail(started, steps + [bare], ToolCallBudget(toolCallCount + requested, limits.maxToolCalls));
            return;
          }
          var observations := ExecuteBatch(response.toolCalls);
          toolCallCount := toolCallCount + requested;
          var step := StepResult(|steps| + 1, response, observations);
          steps := steps + [step];
          context := context + StepMessages(step);
          i := i + 1;
          continue;
        }
        steps := steps + [bare];
        run := started.AppendTurn(TurnResult(1, steps)).value;
        if response.stop.EndTurn? {
          run := run.Transition(Completed, None).value;
        } else {
          run := run.Transition(Failed, Some(ProviderMaxTokens)).value;
        }
        return;
      }
      Round(limits, provider, tool, requests, steps, context, i, toolCallCount, tokenCount);
      run := Fail(started, steps, StepBudget(limits.maxSteps));
    }

    /** Observations come back in the order of the calls. */
    method ExecuteBatch(calls: seq<ToolCall>) returns (observations: seq<ToolObservation>)
      ensures observations == ObserveAll(tool, calls)
      ensures |observations| == |calls|
      ensures forall j | 0 <= j < |calls| ::
                observations[j] == ToolObservation(calls[j].id, calls[j].name, tool(calls[j]).output, tool(calls[j]).isError)
    {
      observations := [];
      var i := 0;
      while i < |calls|
        invariant 0 <= i <= |calls|
        invariant observations == ObserveAll(tool, calls[..i])
      {
        assert calls[..i + 1][..i] == calls[..i];
        observations := observations + [ObserveCall(tool, calls[i])];
        i := i + 1;
      }
      assert calls[..i] == calls;
      ObservedAll(tool, calls);
    }

    method Fail(run: AgentRun, steps: seq<StepResult>, reason: Reason) returns (r: AgentRun)
      requires run == AgentRun(Running, [], None) && !reason.Free?
      ensures r == AgentRun(Failed, if steps == [] then [] else [TurnResult(1, steps)], Some(reason)) && r.Valid()
    {
      r := run;
      if steps != [] {
        r := r.AppendTurn(TurnResult(1, steps)).value;
      }
      r := r.Transition(Failed, Some(reason)).value;
    }
  }
}
