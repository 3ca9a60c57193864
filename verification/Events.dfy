/** The vocabulary of the durable log: statuses, tool calls, messages and the event types that the
    projector understands. Payloads are datatypes, so a payload with a missing key or a value of the
    wrong JSON type has no counterpart here; blank strings and out-of-range integers do. */
module Events {

  datatype Option<+T> = None | Some(value: T)

  datatype RunStatus =
    | Created
    | Running
    | WaitingApproval
    | Cancelling
    | Completed
    | Cancelled
    | Failed
    | FailedUncertain
  {
    predicate IsTerminal() {
      Completed? || Cancelled? || Failed? || FailedUncertain?
    }
  }

  datatype Effect = Read | Mutate

  datatype RoleName = System | User | Assistant | Tool | Other(name: string)

  /** A message role; any text is possible, but the four known names are not spelled out. */
  type Role = r: RoleName | r.Other? ==> r.name !in {"system", "user", "assistant", "tool"} witness User

  datatype StopReason = EndTurn | ToolUse | MaxTokens

  datatype ErrorCode =
    | UnknownTool
    | InvalidArguments
    | ExecutionFailed
    | PolicyDenied
    | ApprovalRequired
    | ApprovalDenied
    | Timeout

  /** Tool output: either free text, or the canonical JSON error object, which is the only text the
      runtime ever parses. */
  datatype Content = Text(text: string) | ErrorObject(code: ErrorCode, message: string)

  /** A structured tool call; `arguments` stands for the canonical JSON text of the argument object. */
  datatype ToolCall = ToolCall(id: string, name: string, arguments: string)

  /** Why a run failed. The formatted reasons of the source are kept apart by constructor. */
  datatype Reason =
    | StepBudget(maxSteps: nat)
    | TokenBudget(count: nat, limit: nat)
    | ToolCallBudget(count: nat, limit: nat)
    | OperatorRejected(callId: string)
    | ProviderMaxTokens
    | RunTimeout
    | RuntimeFailure(message: string)
    | MissingResponse
    | UncertainMutation(callId: string)
    | Free(text: string)

  /** The runtime derives the request id from the call id by a fixed prefix; an id of any other form is kept apart. */
  datatype RequestId = ApprovalOf(callId: string) | OtherRequest(text: string)

  datatype InboxKind = Steering | FollowUp | InjectedContext

  datatype InboxTarget = NextStep | NextTurn

  /** An event as the runtime writes it; the store adds run id and sequence. */
  datatype Event =
    | RunStarted
    | TurnStarted(turn: int)
    | OperatorMessage(role: Role, content: string)
    | ContextInjected(role: Role, content: string)
    | AlertReceived(role: Role, content: string)
    | GoalSet(role: Role, content: string)
    | EvidenceRecorded(role: Role, content: string, evidenceId: string)
    | StepStarted(turn: int, step: int)
    | AssistantMessage(turn: int, step: int, text: string, stop: StopReason, toolCalls: seq<ToolCall>,
                       inputTokens: Option<int>, outputTokens: Option<int>)
    | ToolRequested(callId: string, name: string, arguments: string, effect: Effect, callIndex: int)
    | ToolStarted(callId: string)
    | ToolCompleted(callId: string, isError: bool, output: Content)
    | ToolFailed(callId: string, output: Content)
    | StepCompleted(turn: int, step: int)
    | InboxSubmitted(messageId: string, kind: InboxKind, target: InboxTarget, role: Role, content: string)
    | InboxConsumed(messageId: string)
    | FactConfirmed(factId: string, statement: string, evidenceIds: seq<string>)
    | HypothesisUpdated(statement: string, evidenceIds: seq<string>)
    | WorkItemAdded(itemId: string, description: string)
    | WorkItemCompleted(itemId: string)
    | ApprovalRequested(requestId: RequestId, callId: string)
    | ApprovalDecided(requestId: RequestId, approved: bool)
    | RunCancelling
    | RunCompleted
    | RunCancelled
    | RunFailed(reason: Reason)
    | RunFailedUncertain(reason: Reason)
    | Unsupported(eventType: string)

  /** White space as `str.strip` takes it. */
  predicate IsSpace(c: char) {
    var code := c as int;
    || 9 <= code <= 13 || 28 <= code <= 32 || code in {0x85, 0xA0, 0x1680, 0x2028, 0x2029, 0x202F, 0x205F, 0x3000}
    || 0x2000 <= code <= 0x200A
  }

  /** True when stripping white space leaves nothing. */
  predicate Blank(s: string) {
    |s| == 0 || (IsSpace(s[0]) && Blank(s[1..]))
  }

  /** A text is blank if and only if all of its characters are white space. */
  lemma {:induction false} BlankExactly(s: string)
    ensures Blank(s) <==> forall i | 0 <= i < |s| :: IsSpace(s[i])
  {
    hide IsSpace;
    if s != [] {
      BlankExactly(s[1..]);
      assert forall i | 1 <= i < |s| :: s[i] == s[1..][i - 1];
    }
  }

  predicate BlankRole(r: Role) {
    r.Other? && Blank(r.name)
  }

  predicate BlankReason(r: Reason) {
    r.Free? && Blank(r.text)
  }

  /** What a provider may return: distinct, non-blank call ids and names, and calls exactly when the
      stop reason is tool use. */
  datatype Response = Response(text: string, stop: StopReason, toolCalls: seq<ToolCall>, usage: Option<(nat, nat)>) {
    predicate Valid() {
      && (forall i, j | 0 <= i < j < |toolCalls| :: toolCalls[i].id != toolCalls[j].id)
      && (forall i | 0 <= i < |toolCalls| :: !Blank(toolCalls[i].id) && !Blank(toolCalls[i].name))
      && (stop.ToolUse? <==> toolCalls != [])
    }
  }

  datatype Observation = Observation(output: Content, isError: bool)
}
