/** The agent's state and the operations that change it. Each method does to the fields what the
    function of the same meaning in Interleaved.dfy or RunLoop.dfy does to a session. A parameter land
    says what other threads do to the state while the method runs. */
module Runner {
  import opened Events
  import opened FromEvents
  import opened Messages
  import opened Unmatched
  import opened Session
  import opened SessionInvariant
  import opened SessionSafety
  import opened RunLoop
  import G = InterleavedInvariant
  import H = InterleavedSafety
  import I = Interleaved

  /** Storing the first k calls of a reply has led from start to now, with these executable actions. */
  ghost predicate StoredUpTo(start: Session, now: Session, actions: seq<Event>, reply: Reply, k: nat, hooks: Hooks,
                             land: I.Landing)
    requires k <= |reply.calls|
  {
    && I.GetActionEvents(start, reply, 0, hooks, land) == I.GetActionEvents(now, reply, k, hooks, land)
    && I.NewActions(start, reply, 0, hooks, land) == actions + I.NewActions(now, reply, k, hooks, land)
  }

  lemma StoredOneMore(start: Session, now: Session, actions: seq<Event>, reply: Reply, k: nat, hooks: Hooks,
                      land: I.Landing)
    requires k < |reply.calls| && StoredUpTo(start, now, actions, reply, k, hooks, land)
    ensures StoredUpTo(start, I.GetActionEvent(now, reply, k, hooks, land), I.WithAction(actions, now, reply, k),
            reply, k + 1, hooks, land)
  {
    var t := I.GetActionEvent(now, reply, k, hooks, land);
    I.WithActionThen(actions, now, reply, k, I.NewActions(t, reply, k + 1, hooks, land));
  }

  class AgentRunner {
    var log: seq<Event>
    var status: Status
    var blockedActions: map<EventId, string>
    var blockedMessages: map<EventId, string>
    var next: nat
    var invoked: seq<EventId>
    const hooks: Hooks

    function State(): Session
      reads this
    {
      Session(log, status, blockedActions, blockedMessages, next, invoked)
    }

    constructor (prompt: string, hooks: Hooks)
      ensures State() == Initial(prompt) && this.hooks == hooks
    {
      log, status, next := [SystemPromptEvent(Raw(0), prompt)], Idle, 1;
      blockedActions, blockedMessages, invoked := map[], map[], [];
      this.hooks := hooks;
    }

    // ----- publishing -------------------------------------------------------------------------

    /** Any event but an action or a user message, for which the hooks run. */
    method PublishEvent(event: Event)
      requires event.id == Raw(next)
      modifies this
      ensures State() == Append(old(State()), event)
    {
      log := log + [event];
      next := next + 1;
    }

    method PublishStateChange(key: string)
      modifies this
      ensures State() == Note(old(State()), key)
    {
      PublishEvent(StateEvent(Raw(next), key));
    }

    method SetExecutionStatus(newStatus: Status)
      modifies this
      ensures State() == SetStatus(old(State()), newStatus)
    {
      if status == newStatus {
        return;
      }
      status := newStatus;
      PublishStateChange("execution_status");
    }

    method MarkAsRunning()
      modifies this
      ensures State() == MarkRunning(old(State()))
    {
      SetExecutionStatus(Running);
      PublishStateChange("started_at");
    }

    method ChangeBlockedActions(blocked: map<EventId, string>)
      modifies this
      ensures State() == SetBlockedActions(old(State()), blocked)
    {
      if blockedActions == blocked {
        return;
      }
      blockedActions := blocked;
      PublishStateChange("blocked_actions");
    }

    method ChangeBlockedMessages(blocked: map<EventId, string>)
      modifies this
      ensures State() == SetBlockedMessages(old(State()), blocked)
    {
      if blockedMessages == blocked {
        return;
      }
      blockedMessages := blocked;
      PublishStateChange("blocked_messages");
    }

    method TakeBlockedAction(id: EventId) returns (reason: Option<string>)
      modifies this
      ensures State() == PopBlockedAction(old(State()), id)
      ensures reason == if id in old(blockedActions) then Some(old(blockedActions)[id]) else None
    {
      if id !in blockedActions {
        return None;
      }
      reason := Some(blockedActions[id]);
      ChangeBlockedActions(blockedActions - {id});
    }

    method TakeBlockedMessage(id: EventId) returns (reason: Option<string>)
      modifies this
      ensures State() == PopBlockedMessage(old(State()), id)
      ensures reason == if id in old(blockedMessages) then Some(old(blockedMessages)[id]) else None
    {
      if id !in blockedMessages {
        return None;
      }
      reason := Some(blockedMessages[id]);
      ChangeBlockedMessages(blockedMessages - {id});
    }

    // ----- what other threads do ----------------------------------------------------------------

    method AnswerFromOutside(o: I.Outside)
      modifies this
      ensures State() == I.Land(old(State()), o)
    {
      match o {
        case Rejects(i, reason) =>
          if i < |log| && IsExecutable(log[i]) {
            PublishEvent(UserRejectObservation(Raw(next), log[i].toolCallId, log[i].id, reason));
          }
        case Answers(i, content) =>
          if i < |log| && IsExecutable(log[i]) && log[i].toolCall.name == MEMORY_REVIEW {
            PublishEvent(ObservationEvent(Raw(next), log[i].toolCallId, log[i].id, content));
          }
        case Pauses =>
          SetExecutionStatus(Paused);
        case Fails =>
          SetExecutionStatus(Failed);
        case Idles =>
          if status == Waiting {
            SetExecutionStatus(Idle);
          }
        case Notes(key) =>
          PublishStateChange(key);
      }
    }

    method LetIn(land: I.Landing)
      modifies this
      ensures State() == I.Let(old(State()), land)
    {
      var others := land(State());
      var i := 0;
      assert others[0..] == others;
      while i < |others|
        invariant 0 <= i <= |others|
        invariant I.LandAll(old(State()), others) == I.LandAll(State(), others[i..])
      {
        assert others[i..][1..] == others[i + 1..];
        AnswerFromOutside(others[i]);
        i := i + 1;
      }
    }

    /** An event a step publishes; anything may land right after it. */
    method StoreEvent(event: Event, land: I.Landing)
      requires event.id == Raw(next)
      modifies this
      ensures State() == I.Store(old(State()), event, land)
    {
      PublishEvent(event);
      LetIn(land);
    }

    method ChangeStatus(newStatus: Status, land: I.Landing)
      modifies this
      ensures State() == I.Let(SetStatus(old(State()), newStatus), land)
    {
      SetExecutionStatus(newStatus);
      LetIn(land);
    }

    // ----- storing actions and messages ---------------------------------------------------------

    /** The hooks see the action, and may block it, before it is stored. */
    method PublishActionEvent(action: Event, land: I.Landing)
      requires action.ActionEvent? && action.id == Raw(next)
      modifies this
      ensures State() == I.PublishAction(old(State()), action, hooks, land)
    {
      next := next + 1;
      if action.executable {
        var verdict := hooks.preToolUse(action);
        if verdict.Some? {
          ChangeBlockedActions(blockedActions[action.id := verdict.value]);
        }
      }
      LetIn(land);
      log := log + [action];
      LetIn(land);
    }

    method PublishUserMessage(content: string, land: I.Landing)
      modifies this
      ensures State() == I.UserMessage(old(State()), content, hooks, land)
    {
      var message := MessageEvent(Raw(next), User, content);
      next := next + 1;
      var verdict := hooks.userPrompt(message);
      if verdict.Some? {
        ChangeBlockedMessages(blockedMessages[message.id := verdict.value]);
        LetIn(land);
      }
      log := log + [message];
      LetIn(land);
    }

    // ----- executing --------------------------------------------------------------------------

    method ExecuteActionEvent(action: Event, tool: Event -> ToolResult, land: I.Landing) returns (raised: bool)
      requires action.ActionEvent?
      modifies this
      ensures Outcome(State(), raised) == I.ExecuteAction(old(State()), action, tool, land)
    {
      var reason := TakeBlockedAction(action.id);
      if reason.Some? {
        LetIn(land);
        StoreEvent(UserRejectObservation(Raw(next), action.toolCallId, action.id, reason.value), land);
        return false;
      }
      var result := tool(action);
      if result.NoSuchTool? {
        return true;
      }
      raised := CallTool(action, result, land);
    }

    /** The tool has been found; others get in while it works. */
    method CallTool(action: Event, result: ToolResult, land: I.Landing) returns (raised: bool)
      requires action.ActionEvent? && action.id !in blockedActions && !result.NoSuchTool?
      modifies this
      ensures Outcome(State(), raised) == I.ExecuteAction(old(State()), action, a => result, land)
    {
      invoked := invoked + [action.id];
      LetIn(land);
      match result {
        case Raised =>
          return true;
        case ValueError(error) =>
          StoreEvent(AgentErrorEvent(Raw(next), action.toolCall.id, error), land);
          return false;
        case Observed(content) =>
          StoreEvent(ObservationEvent(Raw(next), action.toolCall.id, action.id, content), land);
          if action.toolCall.name == FINISH {
            ChangeStatus(Finished, land);
          }
          return false;
      }
    }

    method ExecuteAll(actions: seq<Event>, tool: Event -> ToolResult, land: I.Landing) returns (raised: bool)
      requires forall a :: a in actions ==> a.ActionEvent?
      modifies this
      ensures Outcome(State(), raised) == I.ExecuteActions(old(State()), actions, tool, land)
    {
      raised := false;
      var i := 0;
      assert actions[0..] == actions;
      while i < |actions|
        invariant 0 <= i <= |actions|
        invariant I.ExecuteActions(old(State()), actions, tool, land)
                  == I.ExecuteActions(State(), actions[i..], tool, land)
      {
        assert actions[i..][1..] == actions[i + 1..];
        raised := ExecuteActionEvent(actions[i], tool, land);
        if raised {
          return;
        }
        i := i + 1;
      }
    }

    // ----- a step -------------------------------------------------------------------------------

    /** Stores the action of a tool call; one that cannot be executed is not returned. */
    method StoreActionEvent(reply: Reply, k: nat, land: I.Landing) returns (action: Option<Event>)
      requires k < |reply.calls|
      modifies this
      ensures State() == I.GetActionEvent(old(State()), reply, k, hooks, land)
      ensures action == if reply.calls[k].error.None? then Some(ActionFor(old(State()), reply, k)) else None
    {
      var call := reply.calls[k];
      var event := ActionEvent(Raw(next), reply.responseId, call.toolCall.id, call.toolCall, call.error.None?,
                               [], None, [], None);
      if k == 0 {
        event := event.(thought := reply.thought, reasoning := reply.reasoning,
                        thinkingBlocks := reply.thinkingBlocks, reasoningItem := reply.reasoningItem);
      }
      PublishActionEvent(event, land);
      if call.error.Some? {
        StoreEvent(AgentErrorEvent(Raw(next), call.toolCall.id, call.error.value), land);
        return None;
      }
      return Some(event);
    }

    /** Stores the actions of a reply in order. */
    method StoreActionEvents(reply: Reply, land: I.Landing) returns (actions: seq<Event>)
      modifies this
      ensures State() == I.GetActionEvents(old(State()), reply, 0, hooks, land)
      ensures actions == I.NewActions(old(State()), reply, 0, hooks, land)
    {
      actions := [];
      var k := 0;
      while k < |reply.calls|
        invariant 0 <= k <= |reply.calls|
        invariant StoredUpTo(old(State()), State(), actions, reply, k, hooks, land)
      {
        StoredOneMore(old(State()), State(), actions, reply, k, hooks, land);
        var action := StoreActionEvent(reply, k, land);
        if action.Some? {
          actions := actions + [action.value];
        }
        k := k + 1;
      }
    }

    method RequiresUserConfirmation(actions: seq<Event>, risky: Event -> bool) returns (required: bool)
      requires forall a :: a in actions ==> a.ActionEvent?
      modifies this
      ensures required == NeedsConfirmation(actions, risky)
      ensures State() == if required then SetStatus(old(State()), Waiting) else old(State())
    {
      if |actions| == 1 && actions[0].toolCall.name in [FINISH, THINK] {
        return false;
      }
      if |actions| == 0 {
        return false;
      }
      for i := 0 to |actions|
        invariant forall k :: 0 <= k < i ==> !risky(actions[k])
        invariant State() == old(State())
      {
        if risky(actions[i]) {
          SetExecutionStatus(Waiting);
          return true;
        }
      }
      for i := 0 to |actions|
        invariant forall k :: 0 <= k < i ==> actions[k].toolCall.name != MEMORY_REVIEW
        invariant State() == old(State())
      {
        if actions[i].toolCall.name == MEMORY_REVIEW {
          SetExecutionStatus(Waiting);
          return true;
        }
      }
      return false;
    }

    method EmitTokens(reply: Reply, land: I.Landing)
      modifies this
      ensures State() == I.Tokens(old(State()), reply, land)
    {
      if reply.tokens {
        PublishStateChange("token_ids");
        LetIn(land);
      }
    }

    method HandleResponse(reply: Reply, input: StepInput, land: I.Landing) returns (raised: bool)
      modifies this
      ensures Outcome(State(), raised) == I.HandleReply(old(State()), reply, input, hooks, land)
    {
      if |reply.calls| > 0 {
        I.NewActionsAreActions(State(), reply, 0, hooks, land);
        var actions := StoreActionEvents(reply, land);
        var held := RequiresUserConfirmation(actions, input.risky);
        if held {
          LetIn(land);
          return false;
        }
        raised := ExecuteAll(actions, input.tool, land);
        if !raised {
          EmitTokens(reply, land);
        }
      } else {
        StoreEvent(MessageEvent(Raw(next), Agent, reply.content), land);
        EmitTokens(reply, land);
        if reply.hasContent {
          ChangeStatus(Finished, land);
        }
        return false;
      }
    }

    /** Whether the last user message is blocked; then its mark is taken away. */
    method LastMessageBlocked() returns (blocked: bool)
      modifies this
      ensures var id := BlockedLastMessage(old(State()), |old(log)|);
              && blocked == id.Some?
              && State() == if id.Some? then PopBlockedMessage(old(State()), id.value) else old(State())
    {
      var i := |log|;
      while i > 0
        invariant 0 <= i <= |log|
        invariant State() == old(State())
        invariant BlockedLastMessage(State(), |log|) == BlockedLastMessage(State(), i)
      {
        i := i - 1;
        if IsUserMessage(log[i]) {
          var reason := TakeBlockedMessage(log[i].id);
          return reason.Some?;
        }
      }
      return false;
    }

    /** The messages for the LLM; in a reachable session building them never fails. */
    method PrepareMessages() returns (messages: Option<seq<Message>>)
      requires Logged(log, next)
      ensures Convertible(ViewEvents(log)) && messages.Some? && messages == MessagesOf(ViewEvents(log))
    {
      LoggedIsStored(log, next);
      var view := ViewFromEvents(log);
      MessagesNeverFail(State());
      messages := EventsToMessages(view.events);
    }

    method HandleLLM(input: StepInput, land: I.Landing) returns (raised: bool)
      requires input.condense.KeepView?
      modifies this
      ensures Outcome(State(), raised) == I.CallLLM(old(State()), input, hooks, land)
    {
      LetIn(land);
      match input.llm {
        case MalformedCall(error) =>
          PublishUserMessage(error, land);
          raised := false;
        case ContextExceeded =>
          if input.handlesRequests {
            StoreEvent(CondensationRequest(Raw(next)), land);
          }
          raised := !input.handlesRequests;
        case LLMFailed =>
          raised := true;
        case Replied(reply) =>
          raised := HandleResponse(reply, input, land);
      }
    }

    /** The part of a step that gets to the LLM, unless the condenser comes first. */
    method SampleAction(input: StepInput, land: I.Landing) returns (raised: bool, prompt: Option<seq<Message>>)
      requires Logged(log, next)
      modifies this
      ensures Outcome(State(), raised) == I.CallLLM(old(State()), input, hooks, land)
      ensures prompt.Some? <==> input.condense.KeepView?
      ensures prompt.Some? ==> Convertible(ViewEvents(old(log))) && prompt == MessagesOf(ViewEvents(old(log)))
    {
      match input.condense {
        case CondenseFailed =>
          LetIn(land);
          return true, None;
        case Condense(forgotten, summary, offset) =>
          LetIn(land);
          StoreEvent(Condensation(Raw(next), forgotten, summary, offset), land);
          return false, None;
        case KeepView =>
          prompt := PrepareMessages();
          raised := HandleLLM(input, land);
      }
    }

    /** One step of the agent. The prompt is what is sent to the LLM, if the step gets there. */
    method TakeStep(input: StepInput, land: I.Landing) returns (raised: bool, prompt: Option<seq<Message>>)
      requires Logged(log, next)
      modifies this
      ensures Outcome(State(), raised) == I.Step(old(State()), input, hooks, land)
      ensures prompt.Some? <==> ReachesLLM(old(State())) && input.condense.KeepView?
      ensures prompt.Some? ==> Convertible(ViewEvents(old(log))) && prompt == MessagesOf(ViewEvents(old(log)))
    {
      prompt := None;
      var pending := RunnerUnmatchedActions(log);
      PendingAreExecutable(log, 0);
      if |pending| > 0 {
        LetIn(land);
        raised := ExecuteAll(pending, input.tool, land);
        return;
      }
      var blocked := LastMessageBlocked();
      if blocked {
        LetIn(land);
        ChangeStatus(Finished, land);
        return false, None;
      }
      raised, prompt := SampleAction(input, land);
    }

    // ----- what the user does -------------------------------------------------------------------

    method SendUserMessage(content: string, land: I.Landing)
      modifies this
      ensures State() == I.Say(old(State()), content, hooks, land)
    {
      if status == Finished {
        SetExecutionStatus(Idle);
      }
      PublishUserMessage(content, land);
    }

    method RejectPendingActions(reason: string)
      modifies this
      ensures State() == RejectPending(old(State()), reason)
    {
      var pending := StateUnmatchedActions(log);
      UnansweredAreExecutable(log, 0);
      if status == Waiting {
        SetExecutionStatus(Idle);
      }
      ghost var start := State();
      var i := 0;
      assert pending[0..] == pending;
      while i < |pending|
        invariant 0 <= i <= |pending|
        invariant forall a :: a in pending[i..] ==> a.ActionEvent?
        invariant RejectAll(start, pending, reason) == RejectAll(State(), pending[i..], reason)
      {
        var action := pending[i];
        assert pending[i..][1..] == pending[i + 1..];
        PublishEvent(UserRejectObservation(Raw(next), action.toolCallId, action.id, reason));
        i := i + 1;
      }
    }

    method RespondToMemoryReview(content: string)
      modifies this
      ensures State() == AnswerReview(old(State()), content)
    {
      var pending := StateUnmatchedActions(log);
      UnansweredAreExecutable(log, 0);
      var i := 0;
      assert pending[0..] == pending;
      while i < |pending| && pending[i].toolCall.name != MEMORY_REVIEW
        invariant 0 <= i <= |pending|
        invariant forall a :: a in pending[i..] ==> a.ActionEvent?
        invariant FirstNamed(pending, MEMORY_REVIEW) == FirstNamed(pending[i..], MEMORY_REVIEW)
      {
        assert pending[i..][1..] == pending[i + 1..];
        i := i + 1;
      }
      if i == |pending| {
        return;
      }
      var target := pending[i];
      if status == Waiting {
        SetExecutionStatus(Idle);
      }
      PublishEvent(ObservationEvent(Raw(next), target.toolCallId, target.id, content));
    }

    // ----- the run loop -------------------------------------------------------------------------

    method FailWithError()
      modifies this
      ensures State() == Fail(old(State()))
    {
      SetExecutionStatus(Failed);
      PublishStateChange("conversation_error");
    }

    method BeginRun()
      requires Inv(State(), hooks)
      modifies this
      ensures State() == Begin(old(State())) && Inv(State(), hooks)
    {
      BeginInv(State(), hooks);
      if status in {Idle, Paused, Failed} {
        MarkAsRunning();
      }
    }

    method ContinueDenied(feedback: string, land: I.Landing)
      requires Inv(State(), hooks)
      modifies this
      ensures State() == Denied(old(State()), feedback, hooks, land) && Inv(State(), hooks)
    {
      DeniedInv(State(), feedback, hooks, land);
      if feedback != "" {
        PublishUserMessage("[Stop hook feedback] " + feedback, land);
      }
      MarkAsRunning();
    }

    /** What a turn does before it steps: stop asks the stop hook, stuck the stuck detector. */
    method OpenTurn(stop: Session -> StopVerdict, stuck: seq<Event> -> bool, land: I.Landing) returns (opening: Opening)
      requires Inv(State(), hooks)
      modifies this
      ensures opening == OpeningUnder(old(State()), stop(old(State())), stuck(old(log)), hooks, land)
      ensures State() == opening.s && Inv(State(), hooks)
    {
      if status in {Paused, Stuck} {
        return Leaves(State());
      }
      if status == Finished {
        match stop(State()) {
          case Allow =>
            return Leaves(State());
          case Deny(feedback) =>
            ContinueDenied(feedback, land);
            return Retries(State(), true);
        }
      }
      if stuck(log) {
        StatusInv(State(), Stuck, hooks);
        SetExecutionStatus(Stuck);
        return Retries(State(), false);
      }
      BeginInv(State(), hooks);
      if status == Waiting {
        MarkAsRunning();
      }
      return Steps(State());
    }

    /** A turn of another run on this runner. */
    method TakeOtherTurn(i: Interruption)
      requires Inv(State(), hooks) && i.OtherTurn? && FreshInterruption(State(), i)
      modifies this
      ensures State() == Interrupt(old(State()), i, hooks)
    {
      var opening := OpenTurn(s => i.stop, log => i.stuck, i.land);
      if opening.Steps? {
        var raised, prompt := TakeStep(i.input, i.land);
        if !raised && status != Waiting && i.last {
          FailWithError();
        }
      }
    }

    method BeInterrupted(i: Interruption)
      requires Inv(State(), hooks) && FreshInterruption(State(), i)
      modifies this
      ensures State() == Interrupt(old(State()), i, hooks) && Inv(State(), hooks)
    {
      InterruptInv(State(), i, hooks);
      match i
      case Lands(o) => AnswerFromOutside(o);
      case Says(content, land) => SendUserMessage(content, land);
      case OtherBegins => BeginRun();
      case OtherTurn(_, _, _, _, _) => TakeOtherTurn(i);
    }

    /** Counts the turns of other runs among them that leave FINISHED. */
    method BeInterruptedBy(others: seq<Interruption>) returns (finished: nat)
      requires Inv(State(), hooks) && FreshInterruptions(State(), others, hooks)
      modifies this
      ensures State() == InterruptAll(old(State()), others, hooks) && Inv(State(), hooks)
      ensures finished == Finishing(old(State()), others, hooks)
    {
      finished := 0;
      var i := 0;
      assert others[0..] == others;
      while i < |others|
        invariant 0 <= i <= |others| && Inv(State(), hooks)
        invariant FreshInterruptions(State(), others[i..], hooks)
        invariant InterruptAll(old(State()), others, hooks) == InterruptAll(State(), others[i..], hooks)
        invariant Finishing(old(State()), others, hooks) == finished + Finishing(State(), others[i..], hooks)
      {
        assert others[i..][1..] == others[i + 1..];
        BeInterrupted(others[i]);
        if others[i].OtherTurn? && status == Finished {
          finished := finished + 1;
        }
        i := i + 1;
      }
    }

    /** A step, and the three ways it can end the run. */
    method StepAndCheck(w: Surroundings, turn: nat, iteration: nat) returns (ending: Ending)
      requires Inv(State(), hooks) && Fresh(w, hooks)
      modifies this
      ensures var m := MachineOf(w, hooks);
              var o := m.step(old(State()), turn);
              && ending == EndingOf(m, o, turn, iteration)
              && State() == if ending.Ends? then ending.s else o.s
      ensures Inv(State(), hooks) && (ending.Goes? ==> iteration + 1 < w.maxIterations)
    {
      G.StepInv(State(), w.input(State(), turn), hooks, w.during);
      var raised, prompt := TakeStep(w.input(State(), turn), w.during);
      if raised {
        var finished := BeInterruptedBy(w.between(State(), turn + 1));
        FailInv(State(), hooks);
        FailWithError();
        return Ends(State(), true);
      }
      if status == Waiting {
        return Ends(State(), false);
      }
      if iteration + 1 >= w.maxIterations {
        FailInv(State(), hooks);
        FailWithError();
        return Ends(State(), false);
      }
      return Goes;
    }

    /** The other threads first, then what the turn does before it steps. */
    method BeginTurn(w: Surroundings, turn: nat) returns (opening: Opening, finished: nat)
      requires Inv(State(), hooks) && Fresh(w, hooks)
      modifies this
      ensures var m := MachineOf(w, hooks);
              && opening == OpeningOf(m, m.interrupt(old(State()), turn), turn)
              && finished == m.finishing(old(State()), turn)
      ensures State() == opening.s && Inv(State(), hooks)
    {
      finished := BeInterruptedBy(w.between(State(), turn));
      opening := OpenTurn(s => w.stop(s, turn), w.stuck, w.during);
    }

    /** One turn of the loop. */
    method TakeTurn(w: Surroundings, turn: nat, count: Tally) returns (progress: Progress)
      requires Inv(State(), hooks) && Fresh(w, hooks)
      modifies this
      ensures progress == TurnOf(MachineOf(w, hooks), old(State()), turn, count)
      ensures State() == (match progress case Done(r) => r.s case More(s, _) => s) && Inv(State(), hooks)
    {
      var opening, finished := BeginTurn(w, turn);
      var c := count.(others := count.others + finished);
      match opening {
        case Leaves(t) =>
          return Done(ReportOf(t, false, c));
        case Retries(t, denied) =>
          return More(t, if denied then c.(denials := c.denials + 1) else c);
        case Steps(r) =>
          var ending := StepAndCheck(w, turn, count.steps);
          match ending {
            case Ends(t, raised) =>
              return Done(ReportOf(t, raised, c.(steps := if raised then c.steps else c.steps + 1, last := Some(r))));
            case Goes =>
              return More(State(), c.(steps := c.steps + 1, last := Some(r)));
          }
      }
    }

    /** AgentRunner.run. */
    method RunUntilDone(w: Surroundings) returns (report: Report)
      requires Inv(State(), hooks) && EventuallyAlone(w) && Fresh(w, hooks)
      modifies this
      ensures report == Run(old(State()), w, hooks)
      ensures State() == report.s && Inv(State(), hooks)
    {
      ghost var m := MachineOf(w, hooks);
      MachineIsOrderly(w, hooks);
      BeginRun();
      var turn, count := 0, NOTHING;
      while true
        invariant count.steps < m.Cap() && Inv(State(), hooks)
        invariant RunFrom(m, State(), turn, count) == Run(old(State()), w, hooks)
        decreases m.Cap() - count.steps, m.Unquiet(turn), Rank(status)
      {
        ghost var s, c := State(), count;
        var progress := TakeTurn(w, turn, count);
        match progress {
          case Done(r) =>
            return r;
          case More(_, more) =>
            TurnDescends(m, s, turn, c);
            turn, count := turn + 1, more;
        }
      }
    }
  }
}
