/** A step with what other threads do to the session while it runs. Pausing, rejecting and answering a
    review take the conversation's lock, a step takes the runner's, and a run whose turn has raised stores
    its error without any: so between any two events a step publishes, and while a tool or the LLM is at
    work, anything of theirs can land. */
module Interleaved {
  import opened Events
  import opened Unmatched
  import opened Session
  import S = Session

  /** One effect of another thread. A rejection or an answer goes to an action of the log that was
      found pending at some earlier time; it is not checked again when it lands. */
  datatype Outside =
    | Rejects(i: nat, reason: string)
    | Answers(i: nat, content: string)   // of a memory review
    | Pauses
    | Idles                              // a waiting session is set idle
    | Fails                              // another run's turn has raised; its error event is a note
    | Notes(key: string)

  /** What lands, as a function of the session at that moment. */
  type Landing = Session -> seq<Outside>

  predicate CanAnswer(s: Session, o: Outside) {
    match o
    case Rejects(i, _) => i < |s.log| && IsExecutable(s.log[i])
    case Answers(i, _) => i < |s.log| && IsExecutable(s.log[i]) && s.log[i].toolCall.name == MEMORY_REVIEW
    case _ => false
  }

  function Land(s: Session, o: Outside): Session {
    match o
    case Rejects(i, reason) =>
      if CanAnswer(s, o)
      then Append(s, UserRejectObservation(Raw(s.next), s.log[i].toolCallId, s.log[i].id, reason))
      else s
    case Answers(i, content) =>
      if CanAnswer(s, o) then Append(s, ObservationEvent(Raw(s.next), s.log[i].toolCallId, s.log[i].id, content)) else s
    case Pauses => SetStatus(s, Paused)
    case Fails => SetStatus(s, Failed)
    case Idles => if s.status.Waiting? then SetStatus(s, Idle) else s
    case Notes(key) => Note(s, key)
  }

  function LandAll(s: Session, os: seq<Outside>): Session
    decreases |os|
  {
    if |os| == 0 then s else LandAll(Land(s, os[0]), os[1..])
  }

  /** A moment at which others get in. */
  function Let(s: Session, land: Landing): Session {
    LandAll(s, land(s))
  }

  function Store(s: Session, e: Event, land: Landing): Session {
    Let(Append(s, e), land)
  }

  // ----- the stretches of a step ------------------------------------------------------------------

  function Invoke(s: Session, a: Event, land: Landing): Session {
    Let(s.(invoked := s.invoked + [a.id]), land)
  }

  /** The mark is taken and the rejection stored in two publications; a tool works between its call and
      its result. */
  function ExecuteAction(s: Session, a: Event, tool: Event -> ToolResult, land: Landing): Outcome
    requires a.ActionEvent?
  {
    if a.id in s.blockedActions then
      var s1 := Let(PopBlockedAction(s, a.id), land);
      Outcome(Store(s1, UserRejectObservation(Raw(s1.next), a.toolCallId, a.id, s.blockedActions[a.id]), land), false)
    else
      match tool(a)
      case NoSuchTool => Outcome(s, true)
      case Raised => Outcome(Invoke(s, a, land), true)
      case ValueError(error) =>
        var s1 := Invoke(s, a, land);
        Outcome(Store(s1, AgentErrorEvent(Raw(s1.next), a.toolCall.id, error), land), false)
      case Observed(content) =>
        var s1 := Invoke(s, a, land);
        var s2 := Store(s1, ObservationEvent(Raw(s1.next), a.toolCall.id, a.id, content), land);
        Outcome(if a.toolCall.name == FINISH then Let(SetStatus(s2, Finished), land) else s2, false)
  }

  function ExecuteActions(s: Session, actions: seq<Event>, tool: Event -> ToolResult, land: Landing): Outcome
    requires forall a :: a in actions ==> a.ActionEvent?
    decreases |actions|
  {
    if |actions| == 0 then Outcome(s, false)
    else
      var first := ExecuteAction(s, actions[0], tool, land);
      if first.raised then first else ExecuteActions(first.s, actions[1..], tool, land)
  }

  function PublishAction(s: Session, a: Event, hooks: Hooks, land: Landing): Session
    requires a.ActionEvent?
  {
    var s1 := Let(Prepared(s, a, hooks), land);
    Let(s1.(log := s1.log + [a]), land)
  }

  function UserMessage(s: Session, content: string, hooks: Hooks, land: Landing): Session {
    var m := MessageEvent(Raw(s.next), User, content);
    var s1 := s.(next := s.next + 1);
    var verdict := hooks.userPrompt(m);
    var s2 := if verdict.Some?
              then Let(SetBlockedMessages(s1, s1.blockedMessages[m.id := verdict.value]), land)
              else s1;
    Let(s2.(log := s2.log + [m]), land)
  }

  /** A call that cannot be executed is stored with its error, in two publications. */
  function GetActionEvent(s: Session, reply: Reply, k: nat, hooks: Hooks, land: Landing): Session
    requires k < |reply.calls|
  {
    var a := ActionFor(s, reply, k);
    var s1 := PublishAction(s, a, hooks, land);
    if a.executable then s1
    else Store(s1, AgentErrorEvent(Raw(s1.next), a.toolCallId, reply.calls[k].error.value), land)
  }

  function GetActionEvents(s: Session, reply: Reply, k: nat, hooks: Hooks, land: Landing): Session
    requires k <= |reply.calls|
    decreases |reply.calls| - k
  {
    if k == |reply.calls| then s
    else GetActionEvents(GetActionEvent(s, reply, k, hooks, land), reply, k + 1, hooks, land)
  }

  function NewActions(s: Session, reply: Reply, k: nat, hooks: Hooks, land: Landing): seq<Event>
    requires k <= |reply.calls|
    decreases |reply.calls| - k
  {
    if k == |reply.calls| then []
    else
      var rest := NewActions(GetActionEvent(s, reply, k, hooks, land), reply, k + 1, hooks, land);
      if reply.calls[k].error.None? then [ActionFor(s, reply, k)] + rest else rest
  }

  /** The executable actions so far, with the k-th call's. */
  function WithAction(actions: seq<Event>, s: Session, reply: Reply, k: nat): seq<Event>
    requires k < |reply.calls|
  {
    if reply.calls[k].error.None? then actions + [ActionFor(s, reply, k)] else actions
  }

  lemma WithActionThen(actions: seq<Event>, s: Session, reply: Reply, k: nat, rest: seq<Event>)
    requires k < |reply.calls|
    ensures WithAction(actions, s, reply, k) + rest
         == actions + (if reply.calls[k].error.None? then [ActionFor(s, reply, k)] + rest else rest)
  {
  }

  /** What storing each call keeps, of the session and the executable actions so far, storing all of a
      reply keeps. */
  lemma {:induction false} StoringKeeps(s: Session, reply: Reply, k: nat, actions: seq<Event>, hooks: Hooks,
                                        land: Landing, P: (Session, nat, seq<Event>) -> bool)
    requires k <= |reply.calls| && P(s, k, actions)
    requires forall u: Session, m: nat, so: seq<Event> :: m < |reply.calls| && P(u, m, so) ==>
               P(GetActionEvent(u, reply, m, hooks, land), m + 1, WithAction(so, u, reply, m))
    ensures P(GetActionEvents(s, reply, k, hooks, land), |reply.calls|, actions + NewActions(s, reply, k, hooks, land))
    decreases |reply.calls| - k
  {
    if k < |reply.calls| {
      var t := GetActionEvent(s, reply, k, hooks, land);
      StoringKeeps(t, reply, k + 1, WithAction(actions, s, reply, k), hooks, land, P);
      WithActionThen(actions, s, reply, k, NewActions(t, reply, k + 1, hooks, land));
    } else {
      assert actions + [] == actions;
    }
  }

  lemma NewActionsAreActions(s: Session, reply: Reply, k: nat, hooks: Hooks, land: Landing)
    requires k <= |reply.calls|
    ensures forall a :: a in NewActions(s, reply, k, hooks, land) ==> IsExecutable(a)
    decreases |reply.calls| - k
  {
    if k < |reply.calls| {
      NewActionsAreActions(GetActionEvent(s, reply, k, hooks, land), reply, k + 1, hooks, land);
    }
  }

  function Tokens(s: Session, reply: Reply, land: Landing): Session {
    if reply.tokens then Let(Note(s, "token_ids"), land) else s
  }

  function HandleReply(s: Session, reply: Reply, input: StepInput, hooks: Hooks, land: Landing): Outcome {
    if |reply.calls| > 0 then
      NewActionsAreActions(s, reply, 0, hooks, land);
      var actions := NewActions(s, reply, 0, hooks, land);
      var s1 := GetActionEvents(s, reply, 0, hooks, land);
      if NeedsConfirmation(actions, input.risky) then Outcome(Let(SetStatus(s1, Waiting), land), false)
      else
        var done := ExecuteActions(s1, actions, input.tool, land);
        if done.raised then done else Outcome(Tokens(done.s, reply, land), false)
    else
      var s1 := Store(s, MessageEvent(Raw(s.next), Agent, reply.content), land);
      var s2 := Tokens(s1, reply, land);
      Outcome(if reply.hasContent then Let(SetStatus(s2, Finished), land) else s2, false)
  }

  /** The condenser and the LLM take their time before anything is stored. */
  function CallLLM(s0: Session, input: StepInput, hooks: Hooks, land: Landing): Outcome {
    var s := Let(s0, land);
    match input.condense
    case CondenseFailed => Outcome(s, true)
    case Condense(forgotten, summary, offset) =>
      Outcome(Store(s, Condensation(Raw(s.next), forgotten, summary, offset), land), false)
    case KeepView =>
      match input.llm
      case MalformedCall(error) => Outcome(UserMessage(s, error, hooks, land), false)
      case ContextExceeded =>
        if input.handlesRequests then Outcome(Store(s, CondensationRequest(Raw(s.next)), land), false)
        else Outcome(s, true)
      case LLMFailed => Outcome(s, true)
      case Replied(reply) => HandleReply(s, reply, input, hooks, land)
  }

  /** The list of pending actions is taken once. */
  function Step(s: Session, input: StepInput, hooks: Hooks, land: Landing): Outcome {
    var pending := Pending(s.log);
    if |pending| > 0 then
      PendingAreExecutable(s.log, 0);
      ExecuteActions(Let(s, land), pending, input.tool, land)
    else
      match BlockedLastMessage(s, |s.log|)
      case Some(id) =>
        var s1 := Let(PopBlockedMessage(s, id), land);
        Outcome(Let(SetStatus(s1, Finished), land), false)
      case None => CallLLM(s, input, hooks, land)
  }

  // ----- everything that can happen -------------------------------------------------------------

  datatype Act =
    | DoStep(input: StepInput, land: Landing)
    | SendMessage(content: string, land: Landing)
    | Lands(o: Outside)
    | Reject(reason: string)
    | Review(content: string)
    | StatusTo(status: Status)
    | Start

  function Do(s: Session, act: Act, hooks: Hooks): Session {
    match act
    case DoStep(input, land) => Step(s, input, hooks, land).s
    case SendMessage(content, land) => Say(s, content, hooks, land)
    case Lands(o) => Land(s, o)
    case Reject(reason) => RejectPending(s, reason)
    case Review(content) => AnswerReview(s, content)
    case StatusTo(status) => SetStatus(s, status)
    case Start => MarkRunning(s)
  }

  function Say(s: Session, content: string, hooks: Hooks, land: Landing): Session {
    UserMessage(if s.status.Finished? then SetStatus(s, Idle) else s, content, hooks, land)
  }

  function DoAll(s: Session, acts: seq<Act>, hooks: Hooks): Session {
    if |acts| == 0 then s else Do(DoAll(s, acts[..|acts| - 1], hooks), acts[|acts| - 1], hooks)
  }

  // ----- nothing lands ----------------------------------------------------------------------------

  ghost predicate Quiet(land: Landing) {
    forall s :: land(s) == []
  }

  lemma QuietExecuteAction(s: Session, a: Event, tool: Event -> ToolResult, land: Landing)
    requires Quiet(land) && a.ActionEvent?
    ensures ExecuteAction(s, a, tool, land) == S.ExecuteAction(s, a, tool)
  {
  }

  lemma {:induction false} QuietExecuteActions(s: Session, actions: seq<Event>, tool: Event -> ToolResult,
                                               land: Landing)
    requires Quiet(land) && forall a :: a in actions ==> a.ActionEvent?
    ensures ExecuteActions(s, actions, tool, land) == S.ExecuteActions(s, actions, tool)
    decreases |actions|
  {
    if |actions| > 0 {
      QuietExecuteAction(s, actions[0], tool, land);
      QuietExecuteActions(ExecuteAction(s, actions[0], tool, land).s, actions[1..], tool, land);
    }
  }

  lemma QuietGetActionEvent(s: Session, reply: Reply, k: nat, hooks: Hooks, land: Landing)
    requires Quiet(land) && k < |reply.calls|
    ensures GetActionEvent(s, reply, k, hooks, land) == S.GetActionEvent(s, reply, k, hooks)
  {
  }

  lemma {:induction false} QuietGetActionEvents(s: Session, reply: Reply, k: nat, hooks: Hooks, land: Landing)
    requires Quiet(land) && k <= |reply.calls|
    ensures GetActionEvents(s, reply, k, hooks, land) == S.GetActionEvents(s, reply, k, hooks)
    ensures NewActions(s, reply, k, hooks, land) == S.NewActions(s, reply, k, hooks)
    decreases |reply.calls| - k
  {
    if k < |reply.calls| {
      QuietGetActionEvent(s, reply, k, hooks, land);
      QuietGetActionEvents(GetActionEvent(s, reply, k, hooks, land), reply, k + 1, hooks, land);
    }
  }

  lemma QuietHandleReply(s: Session, reply: Reply, input: StepInput, hooks: Hooks, land: Landing)
    requires Quiet(land)
    ensures HandleReply(s, reply, input, hooks, land) == S.HandleReply(s, reply, input, hooks)
  {
    if |reply.calls| > 0 {
      NewActionsAreActions(s, reply, 0, hooks, land);
      QuietGetActionEvents(s, reply, 0, hooks, land);
      QuietExecuteActions(GetActionEvents(s, reply, 0, hooks, land), NewActions(s, reply, 0, hooks, land),
        input.tool, land);
    }
  }

  /** If nothing lands, a step in stretches is the step in one piece. */
  lemma QuietStep(s: Session, input: StepInput, hooks: Hooks, land: Landing)
    requires Quiet(land)
    ensures Step(s, input, hooks, land) == S.Step(s, input, hooks)
  {
    PendingAreExecutable(s.log, 0);
    if |Pending(s.log)| > 0 {
      QuietExecuteActions(s, Pending(s.log), input.tool, land);
    } else if input.llm.Replied? {
      QuietHandleReply(s, input.llm.reply, input, hooks, land);
    }
  }
}
