/** One agent's session as a value: its log, its status, what hooks have blocked, and which
    actions have reached a tool. The functions are the effects of the agent's operations; the
    class in Runner.dfy carries them out. */
module Session {
  import opened Events
  import opened Unmatched

  datatype Status = Idle | Running | Paused | Waiting | Finished | Failed | Stuck | Deleting

  datatype Session = Session(
    log: seq<Event>,
    status: Status,
    blockedActions: map<EventId, string>,
    blockedMessages: map<EventId, string>,
    next: nat,              // the next event id
    invoked: seq<EventId>)  // the actions handed to a tool so far, in order

  // ----- the environment --------------------------------------------------------------------

  /** What the hooks say of an action before use and of a user message: a reason to block it. */
  datatype Hooks = Hooks(preToolUse: Event -> Option<string>, userPrompt: Event -> Option<string>)

  datatype ToolResult = Observed(content: string) | ValueError(error: string) | Raised | NoSuchTool

  /** A tool call of a reply; an unknown tool or invalid arguments make it non-executable. */
  datatype RequestedCall = RequestedCall(toolCall: ToolCall, error: Option<string>)

  datatype Reply = Reply(responseId: ResponseId, thought: seq<string>, reasoning: Option<string>,
                         thinkingBlocks: seq<string>, reasoningItem: Option<string>,
                         calls: seq<RequestedCall>, content: string, hasContent: bool, tokens: bool)

  datatype LLMOutcome =
    | Replied(reply: Reply)
    | MalformedCall(error: string)   // FunctionCallValidationError
    | ContextExceeded                // LLMContextWindowExceedError
    | LLMFailed

  datatype Condense =
    | KeepView
    | Condense(forgotten: seq<EventId>, summary: Option<string>, offset: Option<nat>)
    | CondenseFailed

  /** Everything the outside contributes to one step. */
  datatype StepInput = StepInput(
    tool: Event -> ToolResult,
    risky: Event -> bool,          // the confirmation policy's verdict
    condense: Condense,
    llm: LLMOutcome,
    handlesRequests: bool)         // a condenser is set and handles requests

  datatype Outcome = Outcome(s: Session, raised: bool)

  const FINISH := "finish"
  const THINK := "think"
  const MEMORY_REVIEW := "memory_review"

  // ----- AgentState -------------------------------------------------------------------------

  function Append(s: Session, e: Event): Session {
    s.(log := s.log + [e], next := s.next + 1)
  }

  function Note(s: Session, key: string): Session {
    Append(s, StateEvent(Raw(s.next), key))
  }

  function SetStatus(s: Session, status: Status): Session {
    if s.status == status then s else Note(s.(status := status), "execution_status")
  }

  function MarkRunning(s: Session): Session {
    Note(SetStatus(s, Running), "started_at")
  }

  function SetBlockedActions(s: Session, blocked: map<EventId, string>): Session {
    if s.blockedActions == blocked then s else Note(s.(blockedActions := blocked), "blocked_actions")
  }

  function SetBlockedMessages(s: Session, blocked: map<EventId, string>): Session {
    if s.blockedMessages == blocked then s else Note(s.(blockedMessages := blocked), "blocked_messages")
  }

  function PopBlockedAction(s: Session, id: EventId): Session {
    if id in s.blockedActions then SetBlockedActions(s, s.blockedActions - {id}) else s
  }

  function PopBlockedMessage(s: Session, id: EventId): Session {
    if id in s.blockedMessages then SetBlockedMessages(s, s.blockedMessages - {id}) else s
  }

  /** Publishing takes an id first; hooks run, and may record a block, before the event is
      stored. */
  function Prepared(s: Session, a: Event, hooks: Hooks): Session
    requires a.ActionEvent?
  {
    var s1 := s.(next := s.next + 1);
    var verdict := if a.executable then hooks.preToolUse(a) else None;
    if verdict.Some? then SetBlockedActions(s1, s1.blockedActions[a.id := verdict.value]) else s1
  }

  function PublishAction(s: Session, a: Event, hooks: Hooks): Session
    requires a.ActionEvent?
  {
    var s1 := Prepared(s, a, hooks);
    s1.(log := s1.log + [a])
  }

  function UserMessage(s: Session, content: string, hooks: Hooks): Session {
    var m := MessageEvent(Raw(s.next), User, content);
    var s1 := s.(next := s.next + 1);
    var verdict := hooks.userPrompt(m);
    var s2 := if verdict.Some? then SetBlockedMessages(s1, s1.blockedMessages[m.id := verdict.value]) else s1;
    s2.(log := s2.log + [m])
  }

  // ----- executing actions ------------------------------------------------------------------

  function ExecuteAction(s: Session, a: Event, tool: Event -> ToolResult): Outcome
    requires a.ActionEvent?
  {
    if a.id in s.blockedActions then
      var reason := s.blockedActions[a.id];
      var s1 := PopBlockedAction(s, a.id);
      Outcome(Append(s1, UserRejectObservation(Raw(s1.next), a.toolCallId, a.id, reason)), false)
    else
      match tool(a)
      case NoSuchTool => Outcome(s, true)
      case Raised => Outcome(s.(invoked := s.invoked + [a.id]), true)
      case ValueError(error) =>
        Outcome(Append(s.(invoked := s.invoked + [a.id]), AgentErrorEvent(Raw(s.next), a.toolCall.id, error)), false)
      case Observed(content) =>
        var s1 := Append(s.(invoked := s.invoked + [a.id]),
                         ObservationEvent(Raw(s.next), a.toolCall.id, a.id, content));
        Outcome(if a.toolCall.name == FINISH then SetStatus(s1, Finished) else s1, false)
  }

  function ExecuteActions(s: Session, actions: seq<Event>, tool: Event -> ToolResult): Outcome
    requires forall a :: a in actions ==> a.ActionEvent?
    decreases |actions|
  {
    if |actions| == 0 then Outcome(s, false)
    else
      var first := ExecuteAction(s, actions[0], tool);
      if first.raised then first else ExecuteActions(first.s, actions[1..], tool)
  }

  // ----- one step -----------------------------------------------------------------------------

  /** The event for the k-th call of a reply: only the first carries thought and reasoning. */
  function ActionFor(s: Session, reply: Reply, k: nat): Event
    requires k < |reply.calls|
  {
    var c := reply.calls[k];
    ActionEvent(Raw(s.next), reply.responseId, c.toolCall.id, c.toolCall, c.error.None?,
                if k == 0 then reply.thought else [], if k == 0 then reply.reasoning else None,
                if k == 0 then reply.thinkingBlocks else [], if k == 0 then reply.reasoningItem else None)
  }

  /** A call that cannot be executed is stored with its error at once. */
  function GetActionEvent(s: Session, reply: Reply, k: nat, hooks: Hooks): Session
    requires k < |reply.calls|
  {
    var a := ActionFor(s, reply, k);
    var s1 := PublishAction(s, a, hooks);
    if a.executable then s1
    else Append(s1, AgentErrorEvent(Raw(s1.next), a.toolCallId, reply.calls[k].error.value))
  }

  function GetActionEvents(s: Session, reply: Reply, k: nat, hooks: Hooks): Session
    requires k <= |reply.calls|
    decreases |reply.calls| - k
  {
    if k == |reply.calls| then s else GetActionEvents(GetActionEvent(s, reply, k, hooks), reply, k + 1, hooks)
  }

  /** The executable actions among those events. */
  function NewActions(s: Session, reply: Reply, k: nat, hooks: Hooks): seq<Event>
    requires k <= |reply.calls|
    decreases |reply.calls| - k
  {
    if k == |reply.calls| then []
    else
      var rest := NewActions(GetActionEvent(s, reply, k, hooks), reply, k + 1, hooks);
      if reply.calls[k].error.None? then [ActionFor(s, reply, k)] + rest else rest
  }

  predicate NeedsConfirmation(actions: seq<Event>, risky: Event -> bool)
    requires forall a :: a in actions ==> a.ActionEvent?
  {
    && !(|actions| == 1 && actions[0].toolCall.name in [FINISH, THINK])
    && |actions| > 0
    && ((exists i :: 0 <= i < |actions| && risky(actions[i]))
        || exists i :: 0 <= i < |actions| && actions[i].toolCall.name == MEMORY_REVIEW)
  }

  lemma NewActionsAreActions(s: Session, reply: Reply, k: nat, hooks: Hooks)
    requires k <= |reply.calls|
    ensures forall a :: a in NewActions(s, reply, k, hooks) ==> IsExecutable(a)
    decreases |reply.calls| - k
  {
    if k < |reply.calls| {
      NewActionsAreActions(GetActionEvent(s, reply, k, hooks), reply, k + 1, hooks);
    }
  }

  function Tokens(s: Session, reply: Reply): Session {
    if reply.tokens then Note(s, "token_ids") else s
  }

  function HandleReply(s: Session, reply: Reply, input: StepInput, hooks: Hooks): Outcome {
    if |reply.calls| > 0 then
      NewActionsAreActions(s, reply, 0, hooks);
      var actions := NewActions(s, reply, 0, hooks);
      var s1 := GetActionEvents(s, reply, 0, hooks);
      if NeedsConfirmation(actions, input.risky) then Outcome(SetStatus(s1, Waiting), false)
      else
        var done := ExecuteActions(s1, actions, input.tool);
        if done.raised then done else Outcome(Tokens(done.s, reply), false)
    else
      var s1 := Append(s, MessageEvent(Raw(s.next), Agent, reply.content));
      var s2 := Tokens(s1, reply);
      Outcome(if reply.hasContent then SetStatus(s2, Finished) else s2, false)
  }

  function CallLLM(s: Session, input: StepInput, hooks: Hooks): Outcome {
    match input.condense
    case CondenseFailed => Outcome(s, true)
    case Condense(forgotten, summary, offset) =>
      Outcome(Append(s, Condensation(Raw(s.next), forgotten, summary, offset)), false)
    case KeepView =>
      match input.llm
      case MalformedCall(error) => Outcome(UserMessage(s, error, hooks), false)
      case ContextExceeded =>
        if input.handlesRequests then Outcome(Append(s, CondensationRequest(Raw(s.next))), false) else Outcome(s, true)
      case LLMFailed => Outcome(s, true)
      case Replied(reply) => HandleReply(s, reply, input, hooks)
  }

  predicate IsUserMessage(e: Event) {
    e.MessageEvent? && e.source.User?
  }

  /** The id of the last user message, if it is blocked. */
  function BlockedLastMessage(s: Session, n: nat): Option<EventId>
    requires n <= |s.log|
  {
    if n == 0 then None
    else if IsUserMessage(s.log[n - 1]) then
      if s.log[n - 1].id in s.blockedMessages then Some(s.log[n - 1].id) else None
    else BlockedLastMessage(s, n - 1)
  }

  predicate ReachesLLM(s: Session) {
    Pending(s.log) == [] && BlockedLastMessage(s, |s.log|).None?
  }

  lemma PendingAreExecutable(log: seq<Event>, i: nat)
    requires i <= |log|
    ensures forall a :: a in PendingFrom(log, i) ==> a in log && IsExecutable(a)
    decreases |log| - i
  {
    if i < |log| {
      PendingAreExecutable(log, i + 1);
    }
  }

  function Step(s: Session, input: StepInput, hooks: Hooks): Outcome {
    var pending := Pending(s.log);
    if |pending| > 0 then
      PendingAreExecutable(s.log, 0);
      ExecuteActions(s, pending, input.tool)
    else
      match BlockedLastMessage(s, |s.log|)
      case Some(id) => Outcome(SetStatus(PopBlockedMessage(s, id), Finished), false)
      case None => CallLLM(s, input, hooks)
  }

  // ----- between steps ------------------------------------------------------------------------

  function RejectAll(s: Session, actions: seq<Event>, reason: string): Session
    requires forall a :: a in actions ==> a.ActionEvent?
    decreases |actions|
  {
    if |actions| == 0 then s
    else
      var a := actions[0];
      RejectAll(Append(s, UserRejectObservation(Raw(s.next), a.toolCallId, a.id, reason)), actions[1..], reason)
  }

  lemma UnansweredAreExecutable(log: seq<Event>, i: nat)
    requires i <= |log|
    ensures forall a :: a in UnansweredFrom(log, i) ==> a in log && IsExecutable(a)
    decreases |log| - i
  {
    if i < |log| {
      UnansweredAreExecutable(log, i + 1);
    }
  }

  /** The user rejects what the state's scan considers pending. */
  function RejectPending(s: Session, reason: string): Session {
    UnansweredAreExecutable(s.log, 0);
    var pending := UnansweredFrom(s.log, 0);
    RejectAll(if s.status.Waiting? then SetStatus(s, Idle) else s, pending, reason)
  }

  function FirstNamed(actions: seq<Event>, name: string): Option<Event>
    requires forall a :: a in actions ==> a.ActionEvent?
  {
    if |actions| == 0 then None
    else if actions[0].toolCall.name == name then Some(actions[0])
    else FirstNamed(actions[1..], name)
  }

  lemma FirstNamedIn(actions: seq<Event>, name: string)
    requires forall a :: a in actions ==> a.ActionEvent?
    ensures FirstNamed(actions, name).Some? ==> FirstNamed(actions, name).value in actions
  {
  }

  /** The user's answer to a memory review is stored as the action's observation. */
  function AnswerReview(s: Session, content: string): Session {
    UnansweredAreExecutable(s.log, 0);
    var pending := UnansweredFrom(s.log, 0);
    FirstNamedIn(pending, MEMORY_REVIEW);
    match FirstNamed(pending, MEMORY_REVIEW)
    case None => s
    case Some(a) =>
      var s1 := if s.status.Waiting? then SetStatus(s, Idle) else s;
      Append(s1, ObservationEvent(Raw(s1.next), a.toolCallId, a.id, content))
  }
}
