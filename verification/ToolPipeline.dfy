/** The tool pipeline: registry lookup, argument validation, policy, durable approval, handler. */
module ToolPipeline {
  import opened Events

  datatype PolicyDecision = Allow | Deny(reason: string) | Ask

  datatype ToolDefinition = ToolDefinition(name: string, effect: Effect, requiresApproval: bool,
                                           laneArgument: Option<string>)
  {
    /** The constructor's checks: mutating tools, and only they, require approval and may name a lane. */
    predicate Valid() {
      && !Blank(name)
      && (requiresApproval <==> effect.Mutate?)
      && (laneArgument.Some? ==> effect.Mutate? && !Blank(laneArgument.value))
    }
  }

  /** Schema validation, the presence of a lane argument and the policy are fixed pure functions. */
  datatype Pipeline = Pipeline(
    registry: map<string, ToolDefinition>,
    schemaError: (ToolDefinition, ToolCall) -> Option<string>,
    hasArgument: (ToolCall, string) -> bool,
    policy: (ToolDefinition, ToolCall) -> PolicyDecision)
  {
    predicate Valid() {
      forall name | name in registry :: registry[name].Valid() && registry[name].name == name
    }
  }

  /** `Rejected` is an error observation made before any hook, approval or handler. */
  datatype Preflight = Proceed(ask: bool) | Rejected(output: Content)

  /** How `execute` meets the handler: it is entered, or an error observation replaces it. */
  datatype Gate = Enter | Refuse(output: Content)

  function ToolEffect(t: Pipeline, call: ToolCall): Effect {
    if call.name in t.registry then t.registry[call.name].effect else Read
  }

  function ArgumentError(t: Pipeline, def: ToolDefinition, call: ToolCall): Option<Content> {
    if t.schemaError(def, call).Some? then
      Some(ErrorObject(InvalidArguments, t.schemaError(def, call).value))
    else if def.laneArgument.Some? && !t.hasArgument(call, def.laneArgument.value) then
      Some(ErrorObject(InvalidArguments, def.laneArgument.value))
    else None
  }

  function RunPreflight(t: Pipeline, call: ToolCall): Preflight {
    if call.name !in t.registry then Rejected(ErrorObject(UnknownTool, call.name))
    else
      var def := t.registry[call.name];
      var bad := ArgumentError(t, def, call);
      if bad.Some? then Rejected(bad.value)
      else
        match t.policy(def, call)
        case Deny(reason) => Rejected(ErrorObject(PolicyDenied, reason))
        case Allow => Proceed(false)
        case Ask => Proceed(true)
  }

  /** What the durable approval provider finds for a call: no request, no decision yet, or the decision. */
  datatype Approval = NotRequested | Undecided | Decided(approved: bool)

  /** `execute` up to the handler. A provider that finds no decision raises, and the exception becomes an
      execution_failed observation. */
  function RunGate(t: Pipeline, call: ToolCall, approval: Approval): Gate {
    if call.name !in t.registry then Refuse(ErrorObject(UnknownTool, call.name))
    else
      var def := t.registry[call.name];
      var bad := ArgumentError(t, def, call);
      if bad.Some? then Refuse(bad.value)
      else
        match t.policy(def, call)
        case Deny(reason) => Refuse(ErrorObject(PolicyDenied, reason))
        case Allow => if def.requiresApproval then ApprovalGate(approval) else Enter
        case Ask => ApprovalGate(approval)
  }

  function ApprovalGate(approval: Approval): Gate {
    match approval
    case NotRequested => Refuse(ErrorObject(ExecutionFailed, ""))
    case Undecided => Refuse(ErrorObject(ExecutionFailed, ""))
    case Decided(approved) => if approved then Enter else Refuse(ErrorObject(ApprovalDenied, ""))
  }

  /** The loop asks for approval exactly when the executor will. */
  predicate NeedsApproval(t: Pipeline, call: ToolCall) {
    ToolEffect(t, call).Mutate? || RunPreflight(t, call) == Proceed(true)
  }

  /** A preflight rejection is what `execute` returns for the same call, whatever was decided, and a call
      that passes preflight reaches its handler exactly when the approval it needs was given. */
  lemma {:induction false} GateFollowsPreflight(t: Pipeline, call: ToolCall, approval: Approval)
    requires t.Valid()
    ensures match RunPreflight(t, call)
            case Rejected(output) => RunGate(t, call, approval) == Refuse(output)
            case Proceed(_) => RunGate(t, call, approval).Enter? <==> (NeedsApproval(t, call) ==> approval == Decided(true))
  {
    if call.name in t.registry {
      assert t.registry[call.name].Valid();
    }
  }

  /** A registered tool is called with arguments that its schema and its lane accept, and the policy does not deny it. */
  predicate IsProper(t: Pipeline, call: ToolCall) {
    && call.name in t.registry
    && var def := t.registry[call.name];
       && t.schemaError(def, call).None? && !t.policy(def, call).Deny?
       && (def.laneArgument.Some? ==> t.hasArgument(call, def.laneArgument.value))
  }

  /** What preflight answers, case by case, in the order of its checks. */
  lemma {:induction false} PreflightExactly(t: Pipeline, call: ToolCall)
    ensures RunPreflight(t, call).Proceed? <==> IsProper(t, call)
    ensures call.name !in t.registry ==> RunPreflight(t, call) == Rejected(ErrorObject(UnknownTool, call.name))
    ensures call.name in t.registry ==>
              var def := t.registry[call.name];
              && (t.schemaError(def, call).Some? ==>
                    RunPreflight(t, call) == Rejected(ErrorObject(InvalidArguments, t.schemaError(def, call).value)))
              && (t.schemaError(def, call).None? && def.laneArgument.Some? && !t.hasArgument(call, def.laneArgument.value) ==>
                    RunPreflight(t, call) == Rejected(ErrorObject(InvalidArguments, def.laneArgument.value)))
              && (t.schemaError(def, call).None? && (def.laneArgument.Some? ==> t.hasArgument(call, def.laneArgument.value))
                  && t.policy(def, call).Deny? ==>
                    RunPreflight(t, call) == Rejected(ErrorObject(PolicyDenied, t.policy(def, call).reason)))
              && (IsProper(t, call) ==> RunPreflight(t, call) == Proceed(t.policy(def, call).Ask?))
  {
  }

  /** A handler is entered exactly by a proper call that has the approval it needs: mutating tools always, others when the
      policy asks. What is refused instead is the error of preflight, a denial, or a missing decision. */
  lemma {:induction false} GateExactly(t: Pipeline, call: ToolCall, approval: Approval)
    requires t.Valid()
    ensures IsProper(t, call) ==>
              var def := t.registry[call.name];
              var needed := def.effect.Mutate? || t.policy(def, call).Ask?;
              RunGate(t, call, approval)
              == if needed && approval == Decided(false) then Refuse(ErrorObject(ApprovalDenied, ""))
                 else if needed && approval != Decided(true) then Refuse(ErrorObject(ExecutionFailed, ""))
                 else Enter
    ensures !IsProper(t, call) ==> RunPreflight(t, call).Rejected? && RunGate(t, call, approval) == Refuse(RunPreflight(t, call).output)
  {
    if call.name in t.registry {
      assert t.registry[call.name].Valid();
    }
  }

  /** A rejection before the handler carries none of the codes that leave an outcome unknown. */
  lemma {:induction false} RejectionCodes(t: Pipeline, call: ToolCall)
    requires RunPreflight(t, call).Rejected?
    ensures RunPreflight(t, call).output.ErrorObject?
    ensures !RunPreflight(t, call).output.code.ExecutionFailed? && !RunPreflight(t, call).output.code.Timeout?
  {
  }
}
