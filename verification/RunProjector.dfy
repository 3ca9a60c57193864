/** The projector's loop over stored events, with its local variables, proved to be the fold. */
module RunProjector {
  import opened Events
  import opened Projection
  import opened LogLaws
  import opened EventStore

  /** The checks on what the store added to the events. */
  predicate EnvelopesOk(runId: string, stream: seq<RunEvent>) {
    forall i | 0 <= i < |stream| ::
      stream[i].runId == runId && stream[i].sequence == i + 1 && stream[i].schemaVersion <= CURRENT_SCHEMA_VERSION
  }

  /** The projection of a stored stream; None stands for the projection error. */
  function ProjectStored(runId: string, stream: seq<RunEvent>): Option<RunProjection> {
    if EnvelopesOk(runId, stream) then Project(EventsOf(stream)) else None
  }

  /** What the store replays always passes the envelope checks, as long as no event has a future schema version: the
      projection depends on the stored events alone. */
  lemma {:induction false} ReplayedStreamProjects(rows: seq<RunEvent>, runId: string)
    requires Contiguous(Stream(rows, runId))
    requires forall i | 0 <= i < |rows| :: rows[i].schemaVersion <= CURRENT_SCHEMA_VERSION
    ensures ProjectStored(runId, Stream(rows, runId)) == Project(EventsOf(Stream(rows, runId)))
  {
    hide Project;
    StreamRows(rows, runId);
    StreamVersions(rows, runId);
  }

  lemma {:induction false} StreamVersions(rows: seq<RunEvent>, runId: string)
    requires forall i | 0 <= i < |rows| :: rows[i].schemaVersion <= CURRENT_SCHEMA_VERSION
    ensures forall i | 0 <= i < |Stream(rows, runId)| :: Stream(rows, runId)[i].schemaVersion <= CURRENT_SCHEMA_VERSION
  {
    if rows != [] {
      StreamVersions(rows[..|rows| - 1], runId);
    }
  }

  /** A stream with a rejected prefix is rejected. */
  lemma {:induction false} RejectedPrefix(runId: string, stream: seq<RunEvent>, n: nat)
    requires n <= |stream| && ProjectStored(runId, stream[..n]).None?
    ensures ProjectStored(runId, stream).None?
  {
    hide Project;
    if ProjectStored(runId, stream).Some? {
      assert forall i | 0 <= i < n :: stream[..n][i] == stream[i];
      EventsPrefix(stream, n);
      PrefixAccepted(EventsOf(stream), n);
    }
  }

  lemma {:induction false} EventsPrefix(stream: seq<RunEvent>, n: nat)
    requires n <= |stream|
    ensures EventsOf(stream)[..n] == EventsOf(stream[..n])
  {
    forall i | 0 <= i < n ensures EventsOf(stream)[i] == EventsOf(stream[..n])[i] {
      EventsAt(stream, i);
      EventsAt(stream[..n], i);
    }
  }

  /** One more stored event. */
  lemma {:induction false} StoredSnoc(runId: string, stream: seq<RunEvent>, n: nat)
    requires n < |stream|
    ensures var s := stream[n];
            ProjectStored(runId, stream[..n + 1])
            == if ProjectStored(runId, stream[..n]).Some? && s.runId == runId && s.sequence == n + 1
                  && s.schemaVersion <= CURRENT_SCHEMA_VERSION
               then ProjectNext(ProjectStored(runId, stream[..n]), n == 0, s.event) else None
  {
    hide Project, Accepts, Advance;
    assert stream[..n + 1] == stream[..n] + [stream[n]];
    EventsSnoc(stream[..n], stream[n]);
    ProjectSnoc(EventsOf(stream[..n]), stream[n].event);
  }

  predicate RequireOpenStep(turn: int, step: Option<int>, completed: seq<StepKey>) {
    step.Some? && StepKey(turn, step.value) !in completed
  }

  /** The tool of an event: None when the id is blank or unknown, or the tool is not one of the open step. */
  function ToolInOpenStep(tools: seq<ToolRecord>, callId: string, turn: int, step: Option<int>, completed: seq<StepKey>): (r: Option<nat>)
    ensures r.Some? ==> r.value < |tools|
  {
    var i := IndexOfTool(tools, callId);
    if !Blank(callId) && i < |tools| && RequireOpenStep(turn, step, completed) && tools[i].key == StepKey(turn, step.value)
    then Some(i) else None
  }

  predicate IsToolEvent(e: Event) {
    e.ToolRequested? || e.ToolStarted? || e.ToolCompleted? || e.ToolFailed?
  }

  /** The branches for a tool's life; the other variables are not touched. */
  method ToolEvent(e: Event, tools: seq<ToolRecord>, messages: seq<Message>, turn: int, step: Option<int>, completed: seq<StepKey>,
                   ghost p: RunProjection, ghost first: bool)
    returns (ok: bool, tools': seq<ToolRecord>, messages': seq<Message>)
    requires IsToolEvent(e) && !p.status.IsTerminal()
    requires p.tools == tools && p.messages == messages && p.turn == turn && p.step == step && p.completed == completed
    ensures ok == Accepts(p, first, e)
    ensures ok ==> Advance(p, e) == p.(tools := tools', messages := messages')
  {
    hide StepsOfTurn, FindAssistant, IndexOfTool, IndexOfItem, Blank;
    tools', messages' := tools, messages;
    match e
    case ToolRequested(callId, name, arguments, effect, index) =>
      ok := RequireOpenStep(turn, step, completed) && !Blank(callId) && IndexOfTool(tools, callId) == |tools|
            && !Blank(name) && index >= 0;
      if ok {
        tools' := tools + [ToolRecord(callId, name, arguments, effect, StepKey(turn, step.value), index, Requested)];
      }
    case ToolStarted(callId) =>
      var found := ToolInOpenStep(tools, callId, turn, step, completed);
      ok := found.Some? && !tools[found.value].IsDone();
      if ok {
        tools' := tools[found.value := tools[found.value].(state := Started)];
      }
    case ToolCompleted(callId, isError, output) =>
      var found := ToolInOpenStep(tools, callId, turn, step, completed);
      ok := found.Some? && tools[found.value].state.Started?;
      if ok {
        messages' := messages + [ToolResult(callId, tools[found.value].name, output, isError)];
        tools' := tools[found.value := tools[found.value].(state := if isError then Errored else Succeeded)];
      }
    case ToolFailed(callId, output) =>
      var found := ToolInOpenStep(tools, callId, turn, step, completed);
      ok := found.Some? && tools[found.value].state.Started?;
      if ok {
        messages' := messages + [ToolResult(callId, tools[found.value].name, output, true)];
        tools' := tools[found.value := tools[found.value].(state := Errored)];
      }
  }

  predicate IsStatusEvent(e: Event) {
    || e.ApprovalRequested? || e.ApprovalDecided? || e.RunCancelling? || e.RunCompleted? || e.RunCancelled? || e.RunFailed?
    || e.RunFailedUncertain?
  }

  /** The branches for inbox messages. */
  method InboxEvent(e: Event, inbox: seq<InboxItem>, messages: seq<Message>, ghost p: RunProjection, ghost first: bool)
    returns (ok: bool, inbox': seq<InboxItem>, messages': seq<Message>)
    requires (e.InboxSubmitted? || e.InboxConsumed?) && !p.status.IsTerminal()
    requires p.inbox == inbox && p.messages == messages
    ensures ok == Accepts(p, first, e)
    ensures ok ==> Advance(p, e) == p.(inbox := inbox', messages := messages')
  {
    hide StepsOfTurn, FindAssistant, IndexOfTool, IndexOfItem, Blank, BlankRole;
    inbox', messages' := inbox, messages;
    match e
    case InboxSubmitted(id, kind, target, role, content) =>
      ok := !Blank(id) && IndexOfItem(inbox, id) == |inbox| && !BlankRole(role);
      inbox' := inbox + [InboxItem(id, kind, target, role, content, false)];
    case InboxConsumed(id) =>
      var i := IndexOfItem(inbox, id);
      ok := !Blank(id) && i < |inbox| && !inbox[i].consumed;
      if ok {
        messages' := messages + [Plain(inbox[i].role, inbox[i].content)];
        inbox' := inbox[i := inbox[i].(consumed := true)];
      }
  }

  /** The branches for approvals, cancellation and the end of a run. */
  method StatusEvent(e: Event, status: RunStatus, failure: Option<Reason>, openStep: bool, ghost p: RunProjection, ghost first: bool)
    returns (ok: bool, status': RunStatus, failure': Option<Reason>)
    requires IsStatusEvent(e) && !p.status.IsTerminal()
    requires p.status == status && p.failure == failure && p.HasOpenStep() == openStep
    ensures ok == Accepts(p, first, e)
    ensures Advance(p, e) == p.(status := status', failure := failure')
  {
    hide StepsOfTurn, FindAssistant, IndexOfTool, IndexOfItem, Blank;
    failure' := failure;
    match e
    case ApprovalRequested(_, _) =>
      ok, status' := status.Running?, WaitingApproval;
    case ApprovalDecided(_, _) =>
      ok, status' := status.WaitingApproval?, Running;
    case RunCancelling =>
      ok, status' := status.Running? || status.WaitingApproval?, Cancelling;
    case RunCompleted =>
      ok, status' := !openStep && !status.Created?, Completed;
    case RunCancelled =>
      ok, status' := status.Cancelling?, Cancelled;
    case RunFailed(reason) =>
      ok, status', failure' := !status.Created? && !BlankReason(reason), Failed, Some(reason);
    case RunFailedUncertain(reason) =>
      ok, status', failure' := !status.Created? && !BlankReason(reason), FailedUncertain, Some(reason);
  }

  /** `project`. */
  method ProjectRun(runId: string, events: seq<RunEvent>) returns (r: Option<RunProjection>)
    ensures r == ProjectStored(runId, events)
  {
    hide StepsOfTurn, FindAssistant, IndexOfTool, IndexOfItem, Project, EnvelopesOk, Blank, ProjectStored,
         BlankRole, NonNegative;
    var status, failure := Created, None;
    var messages: seq<Message>, tools: seq<ToolRecord>, assistants: seq<AssistantRecord>, inbox: seq<InboxItem> := [], [], [], [];
    var turn, step, completed := 0, None, [];
    var expected := 1;
    NothingStored(runId, events);
    while expected <= |events|
      invariant 1 <= expected <= |events| + 1
      invariant ProjectStored(runId, events[..expected - 1])
             == Some(RunProjection(status, messages, tools, assistants, inbox, turn, step, completed, failure))
      decreases |events| - expected
    {
      var stored := events[expected - 1];
      ghost var before := RunProjection(status, messages, tools, assistants, inbox, turn, step, completed, failure);
      StoredSnoc(runId, events, expected - 1);
      var ok := stored.runId == runId && stored.sequence == expected && stored.schemaVersion <= CURRENT_SCHEMA_VERSION
                && !status.IsTerminal();
      if ok {
        match stored.event
        case RunStarted =>
          ok := status.Created? && expected == 1;
          status := Running;
        case TurnStarted(number) =>
          ok := status.Running? && number >= 1 && number == turn + 1;
          turn, step := turn + 1, None;
        case OperatorMessage(role, content) =>
          ok := status.Running? && !BlankRole(role);
          messages := messages + [Plain(role, content)];
        case ContextInjected(role, content) =>
          ok := status.Running? && !BlankRole(role);
          messages := messages + [Plain(role, content)];
        case AlertReceived(role, content) =>
          ok := status.Running? && !BlankRole(role);
          messages := messages + [Plain(role, content)];
        case GoalSet(role, content) =>
          ok := status.Running? && !BlankRole(role);
          messages := messages + [Plain(role, content)];
        case EvidenceRecorded(role, content, _) =>
          ok := status.Running? && !BlankRole(role);
          messages := messages + [Plain(role, content)];
        case StepStarted(eventTurn, number) =>
          ok := status.Running? && turn >= 1 && number >= 1 && eventTurn == turn
                && !RequireOpenStep(turn, step, completed) && number == 1 + StepsOfTurn(completed, turn);
          step := Some(number);
        case AssistantMessage(eventTurn, number, text, stop, calls, input, output) =>
          ok := RequireOpenStep(turn, step, completed) && eventTurn >= 1 && number >= 1 && eventTurn == turn && Some(number) == step
                && NonNegative(input) && NonNegative(output);
          if ok {
            ok := FindAssistant(assistants, StepKey(turn, number)).None?;
            assistants := assistants + [AssistantRecord(StepKey(turn, number), text, stop, calls, input, output)];
            messages := messages + [FromAssistant(text, calls)];
          }
        case ToolRequested(_, _, _, _, _) =>
          ok, tools, messages := ToolEvent(stored.event, tools, messages, turn, step, completed, before, expected == 1);
        case ToolStarted(_) =>
          ok, tools, messages := ToolEvent(stored.event, tools, messages, turn, step, completed, before, expected == 1);
        case ToolCompleted(_, _, _) =>
          ok, tools, messages := ToolEvent(stored.event, tools, messages, turn, step, completed, before, expected == 1);
        case ToolFailed(_, _) =>
          ok, tools, messages := ToolEvent(stored.event, tools, messages, turn, step, completed, before, expected == 1);
        case StepCompleted(eventTurn, number) =>
          ok := RequireOpenStep(turn, step, completed) && eventTurn >= 1 && number >= 1 && eventTurn == turn && Some(number) == step;
          if ok {
            var unfinished := HasUnfinished(tools, StepKey(turn, number));
            ok := !unfinished && FindAssistant(assistants, StepKey(turn, number)).Some?;
            completed := completed + [StepKey(turn, number)];
          }
        case InboxSubmitted(_, _, _, _, _) =>
          ok, inbox, messages := InboxEvent(stored.event, inbox, messages, before, expected == 1);
        case InboxConsumed(_) =>
          ok, inbox, messages := InboxEvent(stored.event, inbox, messages, before, expected == 1);
        case FactConfirmed(_, _, _) => ok := status.Running?;
        case HypothesisUpdated(_, _) => ok := status.Running?;
        case WorkItemAdded(_, _) => ok := status.Running?;
        case WorkItemCompleted(_) => ok := status.Running?;
        case Unsupported(_) => ok := false;
        case _ =>
          ok, status, failure := StatusEvent(stored.event, status, failure, RequireOpenStep(turn, step, completed), before, expected == 1);
      }
      if !ok {
        assert ProjectStored(runId, events[..expected]).None?;
        RejectedPrefix(runId, events, expected);
        return None;
      }
      expected := expected + 1;
    }
    assert events[..|events|] == events;
    return Some(RunProjection(status, messages, tools, assistants, inbox, turn, step, completed, failure));
  }

  lemma {:induction false} NothingStored(runId: string, events: seq<RunEvent>)
    ensures ProjectStored(runId, events[..0]) == Some(INITIAL)
  {
    assert events[..0] == [];
  }

  /** Whether some tool of the step is neither completed nor failed. */
  method HasUnfinished(tools: seq<ToolRecord>, key: StepKey) returns (found: bool)
    ensures found <==> exists i | 0 <= i < |tools| :: tools[i].key == key && !tools[i].IsDone()
  {
    var i := 0;
    while i < |tools|
      invariant 0 <= i <= |tools| && forall k | 0 <= k < i :: !(tools[k].key == key && !tools[k].IsDone())
    {
      if tools[i].key == key && !tools[i].IsDone() {
        return true;
      }
      i := i + 1;
    }
    return false;
  }
}
