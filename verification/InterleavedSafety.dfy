/** What holds over every history, with anything landing inside the steps: which promises survive, and
    exactly when the others fail. */
module InterleavedSafety {
  import opened Events
  import opened FromEvents
  import opened Unmatched
  import opened Session
  import opened SessionInvariant
  import opened InterleavedInvariant
  import I = Interleaved

  // ----- histories --------------------------------------------------------------------------------

  ghost predicate FreshAct(s: Session, act: I.Act) {
    act.DoStep? ==> FreshInput(s, act.input)
  }

  lemma SayInv(s: Session, content: string, hooks: Hooks, land: I.Landing)
    requires Inv(s, hooks)
    ensures Inv(I.Say(s, content, hooks, land), hooks)
  {
    StatusInv(s, Idle, hooks);
    UserMessageInv(if s.status.Finished? then SetStatus(s, Idle) else s, content, hooks, land);
  }

  lemma MarkRunningInv(s: Session, hooks: Hooks)
    requires Inv(s, hooks)
    ensures Inv(MarkRunning(s), hooks)
  {
    StatusInv(s, Running, hooks);
    NoteInv(SetStatus(s, Running), "started_at", hooks);
  }

  /** Every operation keeps the invariant. */
  lemma DoInv(s: Session, act: I.Act, hooks: Hooks)
    requires Inv(s, hooks) && FreshAct(s, act)
    ensures Inv(I.Do(s, act, hooks), hooks)
  {
    match act
    case DoStep(input, land) => StepInv(s, input, hooks, land);
    case SendMessage(content, land) => SayInv(s, content, hooks, land);
    case Lands(o) => LandInv(s, o, hooks);
    case Reject(reason) => RejectPendingInv(s, reason, hooks);
    case Review(content) => AnswerReviewInv(s, content, hooks);
    case StatusTo(status) => StatusInv(s, status, hooks);
    case Start => MarkRunningInv(s, hooks);
  }

  /** At every step of the history the LLM's ids were fresh. */
  ghost predicate FreshHistory(s: Session, acts: seq<I.Act>, hooks: Hooks) {
    forall n :: 0 <= n < |acts| ==> FreshAct(I.DoAll(s, acts[..n], hooks), acts[n])
  }

  lemma FreshFront(s: Session, acts: seq<I.Act>, hooks: Hooks)
    requires FreshHistory(s, acts, hooks) && |acts| > 0
    ensures FreshHistory(s, acts[..|acts| - 1], hooks)
    ensures FreshAct(I.DoAll(s, acts[..|acts| - 1], hooks), acts[|acts| - 1])
  {
    var n := |acts| - 1;
    var before := acts[..n];
    forall m | 0 <= m < n ensures FreshAct(I.DoAll(s, before[..m], hooks), before[m]) {
      assert before[..m] == acts[..m];
    }
    assert FreshAct(I.DoAll(s, acts[..n], hooks), acts[n]);
  }

  lemma {:induction false} HistoryInv(s: Session, acts: seq<I.Act>, hooks: Hooks)
    requires Inv(s, hooks) && FreshHistory(s, acts, hooks)
    ensures Inv(I.DoAll(s, acts, hooks), hooks)
  {
    if |acts| > 0 {
      var before := acts[..|acts| - 1];
      FreshFront(s, acts, hooks);
      HistoryInv(s, before, hooks);
      DoInv(I.DoAll(s, before, hooks), acts[|acts| - 1], hooks);
    }
  }

  /** Every session reachable from the initial one, with anything landing inside its steps, has the
      invariant. */
  lemma ReachableInv(prompt: string, acts: seq<I.Act>, hooks: Hooks)
    requires FreshHistory(Initial(prompt), acts, hooks)
    ensures Inv(I.DoAll(Initial(prompt), acts, hooks), hooks)
  {
    HistoryInv(Initial(prompt), acts, hooks);
  }

  /** An action a hook blocked when it was published never reaches its tool, whatever lands; and until
      it is answered the mark that makes the next step reject it is in place. */
  lemma HookBlockedNeverRuns(prompt: string, acts: seq<I.Act>, hooks: Hooks, a: Event)
    requires FreshHistory(Initial(prompt), acts, hooks)
    requires a in I.DoAll(Initial(prompt), acts, hooks).log && HookBlocked(a, hooks)
    ensures var s := I.DoAll(Initial(prompt), acts, hooks);
            a.id !in s.invoked && (a.id in s.blockedActions || IsAnswered(a, s.log))
  {
    ReachableInv(prompt, acts, hooks);
  }

  // ----- answered before the step -----------------------------------------------------------------

  /** From s to t the log has only grown, and only these actions were handed to tools. */
  ghost predicate InvokesOnly(s: Session, t: Session, ids: set<EventId>) {
    && s.log <= t.log && s.invoked <= t.invoked
    && forall k :: |s.invoked| <= k < |t.invoked| ==> t.invoked[k] in ids
  }

  lemma AddsInvokesNone(s: Session, t: Session, ids: set<EventId>)
    requires Adds(s, t)
    ensures InvokesOnly(s, t, ids)
  {
  }

  lemma OneInvokesOnly(s: Session, a: Event, tool: Event -> ToolResult, land: I.Landing)
    requires a.ActionEvent?
    ensures InvokesOnly(s, I.ExecuteAction(s, a, tool, land).s, {a.id})
  {
    ExecuteActionGrows(s, a, tool, land);
    if a.id in s.blockedActions {
      var s1 := PopBlockedAction(s, a.id);
      LetAdds(s1, land);
      var s2 := I.Let(s1, land);
      LetAdds(Append(s2, UserRejectObservation(Raw(s2.next), a.toolCallId, a.id, s.blockedActions[a.id])), land);
    } else {
      LetAdds(s.(invoked := s.invoked + [a.id]), land);
      ToolInvokesNothingMore(s, a, tool, land);
    }
  }

  lemma ToolInvokesNothingMore(s: Session, a: Event, tool: Event -> ToolResult, land: I.Landing)
    requires a.ActionEvent? && a.id !in s.blockedActions
    ensures I.ExecuteAction(s, a, tool, land).s.invoked == if tool(a).NoSuchTool? then s.invoked else s.invoked + [a.id]
  {
    LetAdds(s.(invoked := s.invoked + [a.id]), land);
    var s1 := I.Invoke(s, a, land);
    match tool(a)
    case ValueError(error) => LetAdds(Append(s1, AgentErrorEvent(Raw(s1.next), a.toolCall.id, error)), land);
    case Observed(content) =>
      var o := ObservationEvent(Raw(s1.next), a.toolCall.id, a.id, content);
      LetAdds(Append(s1, o), land);
      LetAdds(SetStatus(I.Store(s1, o, land), Finished), land);
    case _ =>
  }

  lemma InvokesOnlyTransitive(s: Session, t: Session, u: Session, ids: set<EventId>, more: set<EventId>)
    requires InvokesOnly(s, t, ids) && InvokesOnly(t, u, more)
    ensures InvokesOnly(s, u, ids + more)
  {
  }

  lemma {:induction false} ExecutionInvokesOnly(s: Session, actions: seq<Event>, tool: Event -> ToolResult,
                                                land: I.Landing)
    requires forall a :: a in actions ==> a.ActionEvent?
    ensures InvokesOnly(s, I.ExecuteActions(s, actions, tool, land).s, Ids(actions))
    decreases |actions|
  {
    if |actions| > 0 {
      var first, rest := I.ExecuteAction(s, actions[0], tool, land), actions[1..];
      OneInvokesOnly(s, actions[0], tool, land);
      assert actions == [actions[0]] + rest;
      assert Ids(actions) == {actions[0].id} + Ids(rest);
      if !first.raised {
        ExecutionInvokesOnly(first.s, rest, tool, land);
        InvokesOnlyTransitive(s, first.s, I.ExecuteActions(first.s, rest, tool, land).s, {actions[0].id}, Ids(rest));
      }
    }
  }

  lemma IssuedSpares(actions: seq<Event>, next: nat, x: EventId)
    requires Issued(actions, next) && x.Raw? && x.n < next
    ensures x !in Ids(actions)
  {
  }

  /** What was invoked before is none of them. */
  lemma IssuedSparesAll(actions: seq<Event>, next: nat, invoked: seq<EventId>)
    requires Issued(actions, next) && forall x :: x in invoked ==> x.Raw? && x.n < next
    ensures forall a :: a in actions ==> a.id !in invoked
  {
  }

  lemma MessageAdds(s: Session, content: string, hooks: Hooks, land: I.Landing, ids: set<EventId>)
    ensures InvokesOnly(s, I.UserMessage(s, content, hooks, land), ids)
    ensures I.UserMessage(s, content, hooks, land).invoked == s.invoked
  {
    var m := MessageEvent(Raw(s.next), User, content);
    var s1 := s.(next := s.next + 1);
    var verdict := hooks.userPrompt(m);
    var s2 := s1;
    if verdict.Some? {
      var b := SetBlockedMessages(s1, s1.blockedMessages[m.id := verdict.value]);
      LetAdds(b, land);
      s2 := I.Let(b, land);
    }
    LetAdds(s2.(log := s2.log + [m]), land);
  }

  lemma ExecutedThenTokens(s: Session, actions: seq<Event>, reply: Reply, tool: Event -> ToolResult, land: I.Landing)
    requires forall a :: a in actions ==> a.ActionEvent?
    ensures InvokesOnly(s, I.Tokens(I.ExecuteActions(s, actions, tool, land).s, reply, land), Ids(actions))
    ensures InvokesOnly(s, I.ExecuteActions(s, actions, tool, land).s, Ids(actions))
  {
    ExecutionInvokesOnly(s, actions, tool, land);
    LetAdds(Note(I.ExecuteActions(s, actions, tool, land).s, "token_ids"), land);
  }

  lemma CallsInvokeOnlyNew(s: Session, reply: Reply, input: StepInput, hooks: Hooks, land: I.Landing, x: EventId)
    requires Inv(s, hooks) && FreshReply(s, reply) && x.Raw? && x.n < s.next && |reply.calls| > 0
    ensures var t := I.HandleReply(s, reply, input, hooks, land).s;
            InvokesOnly(s, t, Others(t, x))
  {
    var actions, s1 := I.NewActions(s, reply, 0, hooks, land), I.GetActionEvents(s, reply, 0, hooks, land);
    I.NewActionsAreActions(s, reply, 0, hooks, land);
    GetActionEventsInv(s, reply, hooks, land);
    if NeedsConfirmation(actions, input.risky) {
      LetAdds(SetStatus(s1, Waiting), land);
    } else {
      IssuedSpares(actions, s.next, x);
      ExecutedThenTokens(s1, actions, reply, input.tool, land);
    }
  }

  lemma ReplyInvokesOnlyNew(s: Session, reply: Reply, input: StepInput, hooks: Hooks, land: I.Landing, x: EventId)
    requires Inv(s, hooks) && FreshReply(s, reply) && x.Raw? && x.n < s.next
    ensures var t := I.HandleReply(s, reply, input, hooks, land).s;
            InvokesOnly(s, t, Others(t, x))
  {
    if |reply.calls| > 0 {
      CallsInvokeOnlyNew(s, reply, input, hooks, land, x);
    } else {
      MessageReplyAdds(s, reply, input, hooks, land);
    }
  }

  /** The ids handed to tools, except x. */
  function Others(t: Session, x: EventId): set<EventId> {
    set y | y in t.invoked && y != x
  }

  lemma MessageReplyAdds(s: Session, reply: Reply, input: StepInput, hooks: Hooks, land: I.Landing)
    requires |reply.calls| == 0
    ensures InvokesOnly(s, I.HandleReply(s, reply, input, hooks, land).s, {})
  {
    var m := MessageEvent(Raw(s.next), Agent, reply.content);
    LetAdds(Append(s, m), land);
    var s1 := I.Store(s, m, land);
    LetAdds(Note(s1, "token_ids"), land);
    LetAdds(SetStatus(I.Tokens(s1, reply, land), Finished), land);
  }

  lemma CallInvokesOnlyNew(s0: Session, input: StepInput, hooks: Hooks, land: I.Landing, x: EventId)
    requires Inv(s0, hooks) && FreshInput(s0, input) && x.Raw? && x.n < s0.next
    ensures var t := I.CallLLM(s0, input, hooks, land).s; InvokesOnly(s0, t, Others(t, x))
  {
    var s := I.Let(s0, land);
    LetInv(s0, land, hooks);
    StillFresh(s0, s, input);
    match input.condense
    case CondenseFailed =>
    case Condense(forgotten, summary, offset) =>
      LetAdds(Append(s, Condensation(Raw(s.next), forgotten, summary, offset)), land);
    case KeepView =>
      match input.llm
      case MalformedCall(error) => MessageAdds(s, error, hooks, land, {});
      case ContextExceeded => LetAdds(Append(s, CondensationRequest(Raw(s.next))), land);
      case LLMFailed =>
      case Replied(reply) => ReplyInvokesOnlyNew(s, reply, input, hooks, land, x);
  }

  lemma PendingStepSparesAnswered(s: Session, input: StepInput, land: I.Landing, a: Event)
    requires Logged(s.log, s.next) && IsAnswered(a, s.log)
    requires forall p :: p in Pending(s.log) ==> p.ActionEvent?
    ensures var t := I.ExecuteActions(I.Let(s, land), Pending(s.log), input.tool, land).s;
            InvokesOnly(s, t, Others(t, a.id))
  {
    PendingIsOpen(s);
    AnsweredIsNotPending(s, a);
    LetAdds(s, land);
    ExecutionInvokesOnly(I.Let(s, land), Pending(s.log), input.tool, land);
  }

  lemma BlockedStepInvokesNothing(s: Session, id: EventId, land: I.Landing, ids: set<EventId>)
    ensures InvokesOnly(s, I.Let(SetStatus(I.Let(PopBlockedMessage(s, id), land), Finished), land), ids)
  {
    LetAdds(PopBlockedMessage(s, id), land);
    LetAdds(SetStatus(I.Let(PopBlockedMessage(s, id), land), Finished), land);
  }

  /** An action answered before a step begins is not handed to a tool in it. */
  lemma StepSparesAnswered(s: Session, input: StepInput, hooks: Hooks, land: I.Landing, a: Event)
    requires Inv(s, hooks) && FreshInput(s, input) && a in s.log && IsAnswered(a, s.log)
    ensures var t := I.Step(s, input, hooks, land).s; InvokesOnly(s, t, Others(t, a.id))
  {
    assert Good(a, s.next);
    PendingAreExecutable(s.log, 0);
    if |Pending(s.log)| > 0 {
      PendingStepSparesAnswered(s, input, land, a);
    } else {
      match BlockedLastMessage(s, |s.log|)
      case Some(id) => BlockedStepInvokesNothing(s, id, land, Others(I.Step(s, input, hooks, land).s, a.id));
      case None => CallInvokesOnlyNew(s, input, hooks, land, a.id);
    }
  }

  lemma AnsweredIsNotPending(s: Session, a: Event)
    requires OpenAll(Pending(s.log), s) && IsAnswered(a, s.log)
    ensures a.id !in Ids(Pending(s.log))
  {
    forall b | b in Pending(s.log) ensures b.id != a.id {
      var k :| 0 <= k < |Pending(s.log)| && Pending(s.log)[k] == b;
      assert Open(Pending(s.log)[k], s);
    }
  }

  lemma RejectionAdds(s: Session, actions: seq<Event>, reason: string)
    requires forall a :: a in actions ==> a.ActionEvent?
    ensures Adds(s, RejectAll(s, actions, reason))
    decreases |actions|
  {
    if |actions| > 0 {
      var a := actions[0];
      var s1 := Append(s, UserRejectObservation(Raw(s.next), a.toolCallId, a.id, reason));
      RejectionAdds(s1, actions[1..], reason);
      AddsTransitive(s, s1, RejectAll(s1, actions[1..], reason));
    }
  }

  lemma ReviewAdds(s: Session, content: string)
    ensures Adds(s, AnswerReview(s, content))
  {
    UnansweredAreExecutable(s.log, 0);
    FirstNamedIn(UnansweredFrom(s.log, 0), MEMORY_REVIEW);
  }

  /** What a message, a step and nothing else may do beyond adding events. */
  lemma OtherActsAdd(s: Session, act: I.Act, hooks: Hooks)
    requires !act.DoStep? && !act.SendMessage?
    ensures Adds(s, I.Do(s, act, hooks))
  {
    match act
    case Lands(o) => LandAdds(s, o);
    case Reject(reason) => RejectPendingAdds(s, reason);
    case Review(content) => ReviewAdds(s, content);
    case _ =>
  }

  lemma ActSparesAnswered(s: Session, act: I.Act, hooks: Hooks, a: Event)
    requires Inv(s, hooks) && FreshAct(s, act) && a in s.log && IsAnswered(a, s.log)
    ensures var t := I.Do(s, act, hooks); InvokesOnly(s, t, Others(t, a.id))
  {
    match act
    case DoStep(input, land) => StepSparesAnswered(s, input, hooks, land, a);
    case SendMessage(content, land) => SayInvokesOnly(s, content, hooks, land, Others(I.Do(s, act, hooks), a.id));
    case _ =>
      OtherActsAdd(s, act, hooks);
      AddsInvokesNone(s, I.Do(s, act, hooks), Others(I.Do(s, act, hooks), a.id));
  }

  lemma SayInvokesOnly(s: Session, content: string, hooks: Hooks, land: I.Landing, ids: set<EventId>)
    ensures InvokesOnly(s, I.Say(s, content, hooks, land), ids)
  {
    MessageAdds(if s.status.Finished? then SetStatus(s, Idle) else s, content, hooks, land, ids);
  }

  lemma RejectPendingAdds(s: Session, reason: string)
    ensures Adds(s, RejectPending(s, reason))
  {
    UnansweredAreExecutable(s.log, 0);
    var s1 := if s.status.Waiting? then SetStatus(s, Idle) else s;
    RejectionAdds(s1, UnansweredFrom(s.log, 0), reason);
    AddsTransitive(s, s1, RejectPending(s, reason));
  }

  /** Between two steps: from s on, the log has only grown and a was not handed to a tool. */
  ghost predicate Spared(s: Session, t: Session, a: Event) {
    && s.invoked <= t.invoked && s.log <= t.log
    && forall k :: |s.invoked| <= k < |t.invoked| ==> t.invoked[k] != a.id
  }

  lemma OneMoreAct(s: Session, mid: Session, act: I.Act, hooks: Hooks, a: Event)
    requires Inv(mid, hooks) && FreshAct(mid, act) && Spared(s, mid, a)
    requires a in s.log && IsAnswered(a, s.log)
    ensures Spared(s, I.Do(mid, act, hooks), a)
  {
    AnswersStay(s.log, mid.log[|s.log|..]);
    assert mid.log == s.log + mid.log[|s.log|..];
    ActSparesAnswered(mid, act, hooks, a);
  }

  /** An action that has an observation or a rejection while no step is under way is never executed
      again, over any history and whatever lands inside its steps. */
  lemma {:induction false} NeverExecutedAgain(s: Session, acts: seq<I.Act>, hooks: Hooks, a: Event)
    requires Inv(s, hooks) && FreshHistory(s, acts, hooks)
    requires a in s.log && IsAnswered(a, s.log)
    ensures Spared(s, I.DoAll(s, acts, hooks), a)
  {
    if |acts| > 0 {
      var before := acts[..|acts| - 1];
      FreshFront(s, acts, hooks);
      NeverExecutedAgain(s, before, hooks, a);
      HistoryInv(s, before, hooks);
      OneMoreAct(s, I.DoAll(s, before, hooks), acts[|acts| - 1], hooks, a);
    }
  }

  // ----- answered inside the step -----------------------------------------------------------------

  /** The session when the execution of a list gets to its k-th action, if it does. */
  function Reached(s: Session, actions: seq<Event>, k: nat, tool: Event -> ToolResult, land: I.Landing): Option<Session>
    requires k <= |actions| && forall a :: a in actions ==> a.ActionEvent?
    decreases k
  {
    if k == 0 then Some(s)
    else
      match Reached(s, actions, k - 1, tool, land)
      case None => None
      case Some(u) =>
        var r := I.ExecuteAction(u, actions[k - 1], tool, land);
        if r.raised then None else Some(r.s)
  }

  lemma {:induction false} ReachedInv(s: Session, actions: seq<Event>, k: nat, tool: Event -> ToolResult,
                                      land: I.Landing, hooks: Hooks)
    requires Inv(s, hooks) && HeldAll(actions, s, hooks) && k <= |actions|
    requires forall a :: a in actions ==> a.ActionEvent?
    requires Reached(s, actions, k, tool, land).Some?
    ensures var u := Reached(s, actions, k, tool, land).value;
            Inv(u, hooks) && HeldAll(actions[k..], u, hooks) && s.log <= u.log
    decreases k
  {
    if k > 0 {
      ReachedInv(s, actions, k - 1, tool, land, hooks);
      var u, rest := Reached(s, actions, k - 1, tool, land).value, actions[k - 1..];
      assert rest[0] == actions[k - 1] && rest[1..] == actions[k..];
      assert Held(rest[0], u, hooks);
      ExecuteActionInv(u, actions[k - 1], tool, land, hooks);
      ExecuteActionGrows(u, actions[k - 1], tool, land);
      RestStaysHeld(u, rest, tool, land, hooks);
    } else {
      assert actions[0..] == actions;
    }
  }

  /** Executing a list is executing up to its k-th action and then the rest. */
  lemma {:induction false} ExecutionPassesReached(s: Session, actions: seq<Event>, k: nat, tool: Event -> ToolResult,
                                                  land: I.Landing)
    requires k <= |actions| && forall a :: a in actions ==> a.ActionEvent?
    requires Reached(s, actions, k, tool, land).Some?
    ensures I.ExecuteActions(s, actions, tool, land)
            == I.ExecuteActions(Reached(s, actions, k, tool, land).value, actions[k..], tool, land)
    decreases k
  {
    if k == 0 {
      assert actions[0..] == actions;
    } else {
      ExecutionPassesReached(s, actions, k - 1, tool, land);
      assert actions[k - 1..][0] == actions[k - 1] && actions[k - 1..][1..] == actions[k..];
    }
  }

  /** An answer to a is stored in u.log at or after position from. */
  ghost predicate AnsweredFrom(a: Event, log: seq<Event>, from: nat) {
    exists j :: from <= j < |log| && NamesAction(log[j]) && log[j].actionId == a.id
  }

  /** An execution started from s gets to its k-th action, unblocked and with its tool there, although the
      action has an answer. */
  ghost predicate InvokedThoughAnswered(s: Session, actions: seq<Event>, k: nat, tool: Event -> ToolResult,
                                        land: I.Landing)
    requires k < |actions| && forall a :: a in actions ==> a.ActionEvent?
  {
    var r := Reached(s, actions, k, tool, land);
    r.Some? && IsAnswered(actions[k], r.value.log)
    && I.ExecuteAction(r.value, actions[k], tool, land).s.invoked == r.value.invoked + [actions[k].id]
  }

  /** The execution gets to its k-th action, which is not blocked and has its tool. */
  ghost predicate CallsTool(s: Session, actions: seq<Event>, k: nat, tool: Event -> ToolResult, land: I.Landing)
    requires k < |actions| && forall a :: a in actions ==> a.ActionEvent?
  {
    var r := Reached(s, actions, k, tool, land);
    r.Some? && actions[k].id !in r.value.blockedActions && !tool(actions[k]).NoSuchTool?
  }

  /** The pending actions are executed with no further look at the log: one is invoked although it is
      answered exactly if it is reached, and its answer came after the step had taken its list and before
      it was reached. */
  lemma AnsweredYetInvokedExactly(s: Session, k: nat, tool: Event -> ToolResult, land: I.Landing, hooks: Hooks)
    requires Inv(s, hooks) && k < |Pending(s.log)|
    requires forall a :: a in Pending(s.log) ==> a.ActionEvent?
    ensures var s1, actions := I.Let(s, land), Pending(s.log);
            InvokedThoughAnswered(s1, actions, k, tool, land) <==>
              CallsTool(s1, actions, k, tool, land)
              && AnsweredFrom(actions[k], Reached(s1, actions, k, tool, land).value.log, |s.log|)
  {
    var s1, actions := I.Let(s, land), Pending(s.log);
    TakenIsHeld(s, hooks, land);
    LetAdds(s, land);
    PendingIsOpen(s);
    if Reached(s1, actions, k, tool, land).Some? {
      ReachedInv(s1, actions, k, tool, land, hooks);
      var u := Reached(s1, actions, k, tool, land).value;
      assert Held(actions[k..][0], u, hooks) && actions[k..][0] == actions[k];
      ExecuteActionInv(u, actions[k], tool, land, hooks);
      assert Open(actions[k], s);
      AnswersSince(actions[k], s.log, u.log);
    }
  }

  lemma AnswersSince(a: Event, log: seq<Event>, log': seq<Event>)
    requires log <= log' && !IsAnswered(a, log)
    ensures IsAnswered(a, log') <==> AnsweredFrom(a, log', |log|)
  {
    forall j | 0 <= j < |log| && NamesAction(log'[j]) ensures log'[j].actionId != a.id {
      assert log'[j] == log[j] && log[j] in log;
    }
  }

  /** The same for the actions of a reply: no answer to them is older than the step. */
  lemma NewAnsweredYetInvokedExactly(s: Session, reply: Reply, k: nat, tool: Event -> ToolResult, hooks: Hooks,
                                     land: I.Landing)
    requires Inv(s, hooks) && FreshReply(s, reply) && k < |I.NewActions(s, reply, 0, hooks, land)|
    requires forall a :: a in I.NewActions(s, reply, 0, hooks, land) ==> a.ActionEvent?
    ensures var actions, s1 := I.NewActions(s, reply, 0, hooks, land), I.GetActionEvents(s, reply, 0, hooks, land);
            InvokedThoughAnswered(s1, actions, k, tool, land) <==>
              CallsTool(s1, actions, k, tool, land)
              && AnsweredFrom(actions[k], Reached(s1, actions, k, tool, land).value.log, |s.log|)
  {
    var actions, s1 := I.NewActions(s, reply, 0, hooks, land), I.GetActionEvents(s, reply, 0, hooks, land);
    GetActionEventsInv(s, reply, hooks, land);
    NewActionsAreHeld(s, reply, hooks, land);
    if Reached(s1, actions, k, tool, land).Some? {
      ReachedInv(s1, actions, k, tool, land, hooks);
      var u := Reached(s1, actions, k, tool, land).value;
      assert Held(actions[k..][0], u, hooks) && actions[k..][0] == actions[k];
      ExecuteActionInv(u, actions[k], tool, land, hooks);
      NewIsUnanswered(s, actions[k]);
      AnswersSince(actions[k], s.log, u.log);
    }
  }

  lemma NewIsUnanswered(s: Session, a: Event)
    requires Logged(s.log, s.next) && a.id.Raw? && s.next <= a.id.n
    ensures !IsAnswered(a, s.log)
  {
    forall o | o in s.log && NamesAction(o) ensures o.actionId != a.id {
      assert Backed(o, s.log);
      var b :| b in s.log && b.ActionEvent? && b.toolCallId == o.toolCallId && o.actionId == b.id;
      assert Good(b, s.next);
    }
  }

  /** And it happens: when the result of the first of two pending actions is stored, the user's rejection
      of the second lands, and the second is executed all the same. */
  lemma RejectedYetInvoked(s: Session, tool: Event -> ToolResult, hooks: Hooks, reason: string)
    returns (land: I.Landing)
    requires Inv(s, hooks) && |Pending(s.log)| >= 2 && forall a :: a in Pending(s.log) ==> a.ActionEvent?
    requires forall a :: a in Pending(s.log) ==> a.id !in s.blockedActions && tool(a).Observed?
    ensures InvokedThoughAnswered(I.Let(s, land), Pending(s.log), 1, tool, land)
  {
    var actions := Pending(s.log);
    var a, b := actions[0], actions[1];
    PendingIsHeld(s, hooks);
    assert Held(b, s, hooks) && a in actions && b in actions;
    var i: nat :| i < |s.log| && s.log[i] == b;
    var stored := |s.log| + 1;
    land := (u: Session) => if |u.log| == stored then [I.Rejects(i, reason)] else [];
    assert I.Let(s, land) == s;
    FirstThenRejection(s, a, b, i, tool, land, reason);
    var u := Reached(s, actions, 1, tool, land).value;
    ReachedInv(s, actions, 1, tool, land, hooks);
    assert Held(actions[1..][0], u, hooks);
    ExecuteActionInv(s, a, tool, land, hooks);
    ExecuteActionInv(u, b, tool, land, hooks);
  }

  lemma FirstThenRejection(s: Session, a: Event, b: Event, i: nat, tool: Event -> ToolResult, land: I.Landing,
                           reason: string)
    requires a.ActionEvent? && IsExecutable(b) && i < |s.log| && s.log[i] == b
    requires a.id !in s.blockedActions && tool(a).Observed?
    requires forall u :: land(u) == if |u.log| == |s.log| + 1 then [I.Rejects(i, reason)] else []
    ensures var r := I.ExecuteAction(s, a, tool, land); !r.raised && IsAnswered(b, r.s.log)
  {
    var s1 := s.(invoked := s.invoked + [a.id]);
    assert I.Let(s1, land) == s1;
    var o := ObservationEvent(Raw(s1.next), a.toolCall.id, a.id, tool(a).content);
    var s2 := Append(s1, o);
    assert s2.log[i] == b;
    var e := UserRejectObservation(Raw(s2.next), b.toolCallId, b.id, reason);
    assert land(s2)[1..] == [];
    var s3 := Append(s2, e);
    assert I.LandAll(s3, []) == s3;
    assert I.Let(s2, land) == s3;
    assert e in s3.log;
    LetAdds(SetStatus(s3, Finished), land);
    AddsMeans(s3, I.Let(SetStatus(s3, Finished), land));
  }

  // ----- one answer per action ------------------------------------------------------------------

  /** No action has two answers. */
  ghost predicate SingleAnswers(log: seq<Event>) {
    forall i, j :: 0 <= i < j < |log| && NamesAction(log[i]) && NamesAction(log[j]) ==>
      log[i].actionId != log[j].actionId
  }

  /** An answer that is stored is a second one exactly if its action has one already: so it is with an
      answer that lands, and with the result of an action answered since it was started. */
  lemma SecondAnswerExactly(log: seq<Event>, o: Event, a: Event)
    requires SingleAnswers(log) && (NamesAction(o) ==> o.actionId == a.id)
    ensures SingleAnswers(log + [o]) <==> !(NamesAction(o) && IsAnswered(a, log))
  {
    var log' := log + [o];
    assert log'[|log|] == o && forall k :: 0 <= k < |log| ==> log'[k] == log[k];
    if NamesAction(o) && IsAnswered(a, log) {
      var p :| p in log && NamesAction(p) && p.actionId == a.id;
      var i :| 0 <= i < |log| && log[i] == p;
      assert log'[i].actionId == log'[|log|].actionId;
    } else if NamesAction(o) {
      forall i | 0 <= i < |log| && NamesAction(log[i]) ensures log[i].actionId != o.actionId {
        assert log[i] in log;
      }
    }
  }

  /** No answer lands inside the steps. */
  ghost predicate Mute(land: I.Landing) {
    forall s, i :: 0 <= i < |land(s)| ==> !land(s)[i].Rejects? && !land(s)[i].Answers?
  }

  /** From s to t no answer is stored. */
  ghost predicate NoAnswers(s: Session, t: Session) {
    s.log <= t.log && forall k :: |s.log| <= k < |t.log| ==> !NamesAction(t.log[k])
  }

  lemma NoAnswersTransitive(s: Session, t: Session, u: Session)
    requires NoAnswers(s, t) && NoAnswers(t, u)
    ensures NoAnswers(s, u)
  {
    forall k | |s.log| <= k < |u.log| ensures !NamesAction(u.log[k]) {
      if k < |t.log| {
        assert u.log[k] == t.log[k];
      }
    }
  }

  lemma {:induction false} MuteLandAll(s: Session, os: seq<I.Outside>)
    requires forall i :: 0 <= i < |os| ==> !os[i].Rejects? && !os[i].Answers?
    ensures NoAnswers(s, I.LandAll(s, os))
    decreases |os|
  {
    if |os| > 0 {
      var s1 := I.Land(s, os[0]);
      MuteLandAll(s1, os[1..]);
      NoAnswersTransitive(s, s1, I.LandAll(s1, os[1..]));
    }
  }

  lemma MuteLet(s: Session, land: I.Landing)
    requires Mute(land)
    ensures NoAnswers(s, I.Let(s, land)) && Adds(s, I.Let(s, land))
  {
    MuteLandAll(s, land(s));
    LetAdds(s, land);
  }

  lemma NoAnswersKeeps(s: Session, t: Session)
    requires NoAnswers(s, t)
    ensures SingleAnswers(s.log) ==> SingleAnswers(t.log)
    ensures forall a :: IsAnswered(a, t.log) <==> IsAnswered(a, s.log)
  {
    assert forall k :: 0 <= k < |s.log| ==> t.log[k] == s.log[k];
    forall a ensures IsAnswered(a, t.log) <==> IsAnswered(a, s.log) {
      if IsAnswered(a, t.log) {
        var o :| o in t.log && NamesAction(o) && o.actionId == a.id;
        var k :| 0 <= k < |t.log| && t.log[k] == o;
        assert s.log[k] in s.log;
      }
      if IsAnswered(a, s.log) {
        var o :| o in s.log && NamesAction(o) && o.actionId == a.id;
        assert o in t.log;
      }
    }
  }

  /** Single answers, and only those of one action are new. */
  ghost predicate OneAnswered(s: Session, t: Session, x: EventId) {
    && SingleAnswers(t.log)
    && forall b: Event :: b.ActionEvent? && b.id != x && !IsAnswered(b, s.log) ==> !IsAnswered(b, t.log)
  }

  lemma StoreAnswer(s: Session, o: Event, a: Event)
    requires SingleAnswers(s.log) && a.ActionEvent? && !IsAnswered(a, s.log) && (NamesAction(o) ==> o.actionId == a.id)
    ensures OneAnswered(s, Append(s, o), a.id)
  {
    SecondAnswerExactly(s.log, o, a);
    forall b: Event | b.ActionEvent? && b.id != a.id && !IsAnswered(b, s.log) ensures !IsAnswered(b, s.log + [o]) {
    }
  }

  lemma OneAnsweredAfter(s: Session, t: Session, u: Session, x: EventId)
    requires OneAnswered(s, t, x) && NoAnswers(t, u)
    ensures OneAnswered(s, u, x)
  {
    NoAnswersKeeps(t, u);
  }

  lemma OneAnsweredBefore(s: Session, t: Session, u: Session, x: EventId)
    requires NoAnswers(s, t) && OneAnswered(t, u, x)
    ensures OneAnswered(s, u, x)
  {
    NoAnswersKeeps(s, t);
  }

  lemma ExecuteActionAnswers(s: Session, a: Event, tool: Event -> ToolResult, land: I.Landing)
    requires Mute(land) && SingleAnswers(s.log) && a.ActionEvent? && !IsAnswered(a, s.log)
    ensures OneAnswered(s, I.ExecuteAction(s, a, tool, land).s, a.id)
  {
    if a.id in s.blockedActions {
      var s1 := PopBlockedAction(s, a.id);
      var s2 := I.Let(s1, land);
      MuteLet(s1, land);
      NoAnswersTransitive(s, s1, s2);
      NoAnswersKeeps(s, s2);
      AnswerThenLet(s2, UserRejectObservation(Raw(s2.next), a.toolCallId, a.id, s.blockedActions[a.id]), a, land);
      OneAnsweredBefore(s, s2, I.ExecuteAction(s, a, tool, land).s, a.id);
    } else {
      ToolAnswers(s, a, tool, land);
    }
  }

  lemma AnswerThenLet(s: Session, o: Event, a: Event, land: I.Landing)
    requires Mute(land) && SingleAnswers(s.log) && a.ActionEvent? && !IsAnswered(a, s.log)
    requires NamesAction(o) ==> o.actionId == a.id
    ensures OneAnswered(s, I.Store(s, o, land), a.id)
  {
    StoreAnswer(s, o, a);
    MuteLet(Append(s, o), land);
    OneAnsweredAfter(s, Append(s, o), I.Store(s, o, land), a.id);
  }

  lemma ToolAnswers(s: Session, a: Event, tool: Event -> ToolResult, land: I.Landing)
    requires Mute(land) && SingleAnswers(s.log) && a.ActionEvent? && !IsAnswered(a, s.log) && a.id !in s.blockedActions
    ensures OneAnswered(s, I.ExecuteAction(s, a, tool, land).s, a.id)
  {
    MuteLet(s.(invoked := s.invoked + [a.id]), land);
    var s1 := I.Invoke(s, a, land);
    assert NoAnswers(s, s1);
    NoAnswersKeeps(s, s1);
    match tool(a)
    case ValueError(error) =>
      AnswerThenLet(s1, AgentErrorEvent(Raw(s1.next), a.toolCall.id, error), a, land);
    case Observed(content) =>
      var o := ObservationEvent(Raw(s1.next), a.toolCall.id, a.id, content);
      AnswerThenLet(s1, o, a, land);
      var s2 := I.Store(s1, o, land);
      MuteLet(SetStatus(s2, Finished), land);
      OneAnsweredAfter(s1, s2, SetStatus(s2, Finished), a.id);
      OneAnsweredAfter(s1, SetStatus(s2, Finished), I.Let(SetStatus(s2, Finished), land), a.id);
    case _ =>
  }

  ghost predicate AllUnanswered(actions: seq<Event>, log: seq<Event>) {
    DistinctIds(actions) && forall i :: 0 <= i < |actions| ==> actions[i].ActionEvent? && !IsAnswered(actions[i], log)
  }

  lemma {:induction false} ExecuteActionsAnswer(s: Session, actions: seq<Event>, tool: Event -> ToolResult,
                                                land: I.Landing)
    requires Mute(land) && SingleAnswers(s.log) && AllUnanswered(actions, s.log)
    requires forall a :: a in actions ==> a.ActionEvent?
    ensures SingleAnswers(I.ExecuteActions(s, actions, tool, land).s.log)
    decreases |actions|
  {
    if |actions| > 0 {
      var first, rest := I.ExecuteAction(s, actions[0], tool, land), actions[1..];
      ExecuteActionAnswers(s, actions[0], tool, land);
      if !first.raised {
        RestUnanswered(s, first.s, actions);
        ExecuteActionsAnswer(first.s, rest, tool, land);
      }
    }
  }

  lemma RestUnanswered(s: Session, t: Session, actions: seq<Event>)
    requires |actions| > 0 && AllUnanswered(actions, s.log) && OneAnswered(s, t, actions[0].id)
    ensures AllUnanswered(actions[1..], t.log)
  {
    var rest := actions[1..];
    forall i | 0 <= i < |rest| ensures rest[i].ActionEvent? && !IsAnswered(rest[i], t.log) {
      assert rest[i] == actions[i + 1] && actions[i + 1].id != actions[0].id;
    }
    assert forall i :: 0 <= i < |rest| ==> rest[i] == actions[i + 1];
  }

  lemma MutePublish(s: Session, a: Event, hooks: Hooks, land: I.Landing)
    requires Mute(land) && a.ActionEvent?
    ensures NoAnswers(s, I.PublishAction(s, a, hooks, land))
  {
    var s1 := Prepared(s, a, hooks);
    MuteLet(s1, land);
    var s2 := I.Let(s1, land);
    NoAnswersTransitive(s, s1, s2);
    var s3 := s2.(log := s2.log + [a]);
    MuteLet(s3, land);
    NoAnswersTransitive(s, s2, s3);
    NoAnswersTransitive(s, s3, I.Let(s3, land));
  }

  lemma MuteStoringOne(s: Session, reply: Reply, k: nat, hooks: Hooks, land: I.Landing)
    requires Mute(land) && k < |reply.calls|
    ensures NoAnswers(s, I.GetActionEvent(s, reply, k, hooks, land))
  {
    var a := ActionFor(s, reply, k);
    var s1 := I.PublishAction(s, a, hooks, land);
    MutePublish(s, a, hooks, land);
    if !a.executable {
      var s2 := Append(s1, AgentErrorEvent(Raw(s1.next), a.toolCallId, reply.calls[k].error.value));
      MuteLet(s2, land);
      NoAnswersTransitive(s, s1, s2);
      NoAnswersTransitive(s, s2, I.GetActionEvent(s, reply, k, hooks, land));
    }
  }

  lemma MuteStoring(s: Session, reply: Reply, hooks: Hooks, land: I.Landing)
    requires Mute(land)
    ensures NoAnswers(s, I.GetActionEvents(s, reply, 0, hooks, land))
  {
    var P := (u: Session, m: nat, so: seq<Event>) => NoAnswers(s, u);
    forall u: Session, m: nat, so: seq<Event> | m < |reply.calls| && P(u, m, so)
      ensures P(I.GetActionEvent(u, reply, m, hooks, land), m + 1, I.WithAction(so, u, reply, m))
    {
      MuteStoringOne(u, reply, m, hooks, land);
      NoAnswersTransitive(s, u, I.GetActionEvent(u, reply, m, hooks, land));
    }
    assert P(s, 0, []);
    I.StoringKeeps(s, reply, 0, [], hooks, land, P);
  }

  lemma NewUnanswered(s: Session, reply: Reply, hooks: Hooks, land: I.Landing)
    requires Mute(land) && Inv(s, hooks) && FreshReply(s, reply)
    ensures AllUnanswered(I.NewActions(s, reply, 0, hooks, land), I.GetActionEvents(s, reply, 0, hooks, land).log)
  {
    var actions, s1 := I.NewActions(s, reply, 0, hooks, land), I.GetActionEvents(s, reply, 0, hooks, land);
    GetActionEventsInv(s, reply, hooks, land);
    I.NewActionsAreActions(s, reply, 0, hooks, land);
    MuteStoring(s, reply, hooks, land);
    NoAnswersKeeps(s, s1);
    forall i | 0 <= i < |actions| ensures actions[i].ActionEvent? && !IsAnswered(actions[i], s1.log) {
      assert actions[i] in actions;
      NewIsUnanswered(s, actions[i]);
    }
  }

  lemma ReplyAnswers(s: Session, reply: Reply, input: StepInput, hooks: Hooks, land: I.Landing)
    requires Mute(land) && Inv(s, hooks) && FreshReply(s, reply) && SingleAnswers(s.log) && |reply.calls| > 0
    ensures SingleAnswers(I.HandleReply(s, reply, input, hooks, land).s.log)
  {
    var actions, s1 := I.NewActions(s, reply, 0, hooks, land), I.GetActionEvents(s, reply, 0, hooks, land);
    I.NewActionsAreActions(s, reply, 0, hooks, land);
    NewUnanswered(s, reply, hooks, land);
    MuteStoring(s, reply, hooks, land);
    NoAnswersKeeps(s, s1);
    if NeedsConfirmation(actions, input.risky) {
      LetAfterStatus(s1, Waiting, land);
    } else {
      ExecuteActionsAnswer(s1, actions, input.tool, land);
      var done := I.ExecuteActions(s1, actions, input.tool, land).s;
      MuteLet(Note(done, "token_ids"), land);
      NoAnswersTransitive(done, Note(done, "token_ids"), I.Let(Note(done, "token_ids"), land));
      NoAnswersKeeps(done, I.Let(Note(done, "token_ids"), land));
    }
  }

  lemma LetAfterStatus(s: Session, status: Status, land: I.Landing)
    requires Mute(land)
    ensures NoAnswers(s, I.Let(SetStatus(s, status), land))
    ensures SingleAnswers(s.log) ==> SingleAnswers(I.Let(SetStatus(s, status), land).log)
  {
    MuteLet(SetStatus(s, status), land);
    NoAnswersTransitive(s, SetStatus(s, status), I.Let(SetStatus(s, status), land));
    NoAnswersKeeps(s, I.Let(SetStatus(s, status), land));
  }

  lemma StoreQuietly(s: Session, e: Event, land: I.Landing)
    requires Mute(land) && !NamesAction(e)
    ensures NoAnswers(s, I.Store(s, e, land))
  {
    MuteLet(Append(s, e), land);
    NoAnswersTransitive(s, Append(s, e), I.Store(s, e, land));
  }

  lemma MessageReplyAnswers(s: Session, reply: Reply, input: StepInput, hooks: Hooks, land: I.Landing)
    requires Mute(land) && |reply.calls| == 0
    ensures NoAnswers(s, I.HandleReply(s, reply, input, hooks, land).s)
  {
    var m := MessageEvent(Raw(s.next), Agent, reply.content);
    StoreQuietly(s, m, land);
    var s1 := I.Store(s, m, land);
    StoreQuietly(s1, StateEvent(Raw(s1.next), "token_ids"), land);
    var s2 := I.Tokens(s1, reply, land);
    NoAnswersTransitive(s, s1, s2);
    LetAfterStatus(s2, Finished, land);
    NoAnswersTransitive(s, s2, I.Let(SetStatus(s2, Finished), land));
  }

  lemma MessageAnswers(s: Session, content: string, hooks: Hooks, land: I.Landing)
    requires Mute(land)
    ensures NoAnswers(s, I.UserMessage(s, content, hooks, land))
  {
    var m := MessageEvent(Raw(s.next), User, content);
    var s1 := s.(next := s.next + 1);
    var verdict := hooks.userPrompt(m);
    var s2 := s1;
    if verdict.Some? {
      var b := SetBlockedMessages(s1, s1.blockedMessages[m.id := verdict.value]);
      MuteLet(b, land);
      s2 := I.Let(b, land);
      NoAnswersTransitive(s, b, s2);
    }
    var s3 := s2.(log := s2.log + [m]);
    NoAnswersTransitive(s, s2, s3);
    MuteLet(s3, land);
    NoAnswersTransitive(s, s3, I.Let(s3, land));
  }

  lemma CallAnswers(s0: Session, input: StepInput, hooks: Hooks, land: I.Landing)
    requires Mute(land) && Inv(s0, hooks) && FreshInput(s0, input) && SingleAnswers(s0.log)
    ensures SingleAnswers(I.CallLLM(s0, input, hooks, land).s.log)
  {
    var s := I.Let(s0, land);
    LetInv(s0, land, hooks);
    StillFresh(s0, s, input);
    MuteLet(s0, land);
    NoAnswersKeeps(s0, s);
    var t := I.CallLLM(s0, input, hooks, land).s;
    match input.condense
    case CondenseFailed =>
    case Condense(forgotten, summary, offset) =>
      StoreQuietly(s, Condensation(Raw(s.next), forgotten, summary, offset), land);
      NoAnswersKeeps(s, t);
    case KeepView =>
      match input.llm
      case MalformedCall(error) =>
        MessageAnswers(s, error, hooks, land);
        NoAnswersKeeps(s, t);
      case ContextExceeded =>
        StoreQuietly(s, CondensationRequest(Raw(s.next)), land);
        NoAnswersKeeps(s, I.Store(s, CondensationRequest(Raw(s.next)), land));
      case LLMFailed =>
      case Replied(reply) =>
        if |reply.calls| > 0 {
          ReplyAnswers(s, reply, input, hooks, land);
        } else {
          MessageReplyAnswers(s, reply, input, hooks, land);
          NoAnswersKeeps(s, t);
        }
  }

  lemma StepAnswers(s: Session, input: StepInput, hooks: Hooks, land: I.Landing)
    requires Mute(land) && Inv(s, hooks) && FreshInput(s, input) && SingleAnswers(s.log)
    ensures SingleAnswers(I.Step(s, input, hooks, land).s.log)
  {
    PendingAreExecutable(s.log, 0);
    if |Pending(s.log)| > 0 {
      MuteLet(s, land);
      NoAnswersKeeps(s, I.Let(s, land));
      PendingIsOpen(s);
      PendingUnanswered(s);
      ExecuteActionsAnswer(I.Let(s, land), Pending(s.log), input.tool, land);
    } else {
      match BlockedLastMessage(s, |s.log|)
      case Some(id) =>
        var p := PopBlockedMessage(s, id);
        MuteLet(p, land);
        NoAnswersTransitive(s, p, I.Let(p, land));
        NoAnswersKeeps(s, I.Let(p, land));
        LetAfterStatus(I.Let(p, land), Finished, land);
      case None => CallAnswers(s, input, hooks, land);
    }
  }

  lemma PendingUnanswered(s: Session)
    requires OpenAll(Pending(s.log), s)
    ensures AllUnanswered(Pending(s.log), s.log)
  {
    forall i | 0 <= i < |Pending(s.log)|
      ensures Pending(s.log)[i].ActionEvent? && !IsAnswered(Pending(s.log)[i], s.log)
    {
      assert Open(Pending(s.log)[i], s);
    }
  }

  /** Nothing answers an action inside a step, and between steps only unanswered ones are answered. */
  ghost predicate OrderlyAct(s: Session, act: I.Act) {
    match act
    case DoStep(_, land) => Mute(land)
    case SendMessage(_, land) => Mute(land)
    case Lands(o) => I.CanAnswer(s, o) ==> !IsAnswered(s.log[o.i], s.log)
    case _ => true
  }

  lemma {:induction false} RejectAllAnswers(s: Session, actions: seq<Event>, reason: string)
    requires SingleAnswers(s.log) && AllUnanswered(actions, s.log) && forall a :: a in actions ==> a.ActionEvent?
    ensures SingleAnswers(RejectAll(s, actions, reason).log)
    decreases |actions|
  {
    if |actions| > 0 {
      var a := actions[0];
      var o := UserRejectObservation(Raw(s.next), a.toolCallId, a.id, reason);
      StoreAnswer(s, o, a);
      RestUnanswered(s, Append(s, o), actions);
      RejectAllAnswers(Append(s, o), actions[1..], reason);
    }
  }

  lemma RejectPendingAnswers(s: Session, reason: string)
    requires SingleAnswers(s.log) && Logged(s.log, s.next)
    ensures SingleAnswers(RejectPending(s, reason).log)
  {
    var u := UnansweredFrom(s.log, 0);
    UnansweredAreExecutable(s.log, 0);
    UnansweredIsOpen(s);
    var s1 := if s.status.Waiting? then SetStatus(s, Idle) else s;
    NoAnswersKeeps(s, s1);
    forall i | 0 <= i < |u| ensures u[i].ActionEvent? && !IsAnswered(u[i], s1.log) {
      assert Open(u[i], s);
    }
    RejectAllAnswers(s1, u, reason);
  }

  lemma ReviewAnswers(s: Session, content: string)
    requires SingleAnswers(s.log) && Logged(s.log, s.next)
    ensures SingleAnswers(AnswerReview(s, content).log)
  {
    var u := UnansweredFrom(s.log, 0);
    UnansweredAreExecutable(s.log, 0);
    UnansweredIsOpen(s);
    FirstNamedIn(u, MEMORY_REVIEW);
    if FirstNamed(u, MEMORY_REVIEW).Some? {
      var a := FirstNamed(u, MEMORY_REVIEW).value;
      var i :| 0 <= i < |u| && u[i] == a;
      assert Open(u[i], s);
      var s1 := if s.status.Waiting? then SetStatus(s, Idle) else s;
      NoAnswersKeeps(s, s1);
      StoreAnswer(s1, ObservationEvent(Raw(s1.next), a.toolCallId, a.id, content), a);
    }
  }

  lemma SayAnswers(s: Session, content: string, hooks: Hooks, land: I.Landing)
    requires Mute(land) && SingleAnswers(s.log)
    ensures SingleAnswers(I.Say(s, content, hooks, land).log)
  {
    var s1 := if s.status.Finished? then SetStatus(s, Idle) else s;
    MessageAnswers(s1, content, hooks, land);
    NoAnswersTransitive(s, s1, I.Say(s, content, hooks, land));
    NoAnswersKeeps(s, I.Say(s, content, hooks, land));
  }

  lemma LandAnswers(s: Session, o: I.Outside)
    requires SingleAnswers(s.log) && (I.CanAnswer(s, o) ==> !IsAnswered(s.log[o.i], s.log))
    ensures SingleAnswers(I.Land(s, o).log)
  {
    if I.CanAnswer(s, o) {
      SecondAnswerExactly(s.log, I.Land(s, o).log[|s.log|], s.log[o.i]);
    } else {
      NoAnswersKeeps(s, I.Land(s, o));
    }
  }

  lemma ActAnswers(s: Session, act: I.Act, hooks: Hooks)
    requires Inv(s, hooks) && FreshAct(s, act) && OrderlyAct(s, act) && SingleAnswers(s.log)
    ensures SingleAnswers(I.Do(s, act, hooks).log)
  {
    match act
    case DoStep(input, land) => StepAnswers(s, input, hooks, land);
    case SendMessage(content, land) => SayAnswers(s, content, hooks, land);
    case Lands(o) => LandAnswers(s, o);
    case Reject(reason) => RejectPendingAnswers(s, reason);
    case Review(content) => ReviewAnswers(s, content);
    case StatusTo(status) => NoAnswersKeeps(s, SetStatus(s, status));
    case Start => NoAnswersKeeps(s, MarkRunning(s));
  }

  /** Over such histories every action has at most one answer. */
  lemma {:induction false} AtMostOneAnswer(prompt: string, acts: seq<I.Act>, hooks: Hooks)
    requires FreshHistory(Initial(prompt), acts, hooks)
    requires forall n :: 0 <= n < |acts| ==> OrderlyAct(I.DoAll(Initial(prompt), acts[..n], hooks), acts[n])
    ensures SingleAnswers(I.DoAll(Initial(prompt), acts, hooks).log)
  {
    if |acts| > 0 {
      var n := |acts| - 1;
      var before := acts[..n];
      FreshFront(Initial(prompt), acts, hooks);
      forall m | 0 <= m < n ensures OrderlyAct(I.DoAll(Initial(prompt), before[..m], hooks), before[m]) {
        assert before[..m] == acts[..m];
      }
      AtMostOneAnswer(prompt, before, hooks);
      ReachableInv(prompt, before, hooks);
      assert OrderlyAct(I.DoAll(Initial(prompt), acts[..n], hooks), acts[n]);
      ActAnswers(I.DoAll(Initial(prompt), before, hooks), acts[n], hooks);
    }
  }
}
