/** Waiting for the user, with anything landing inside the step that asks. */
module Confirmation {
  import opened Events
  import opened Unmatched
  import opened Session
  import opened SessionInvariant
  import opened SessionSafety
  import G = InterleavedInvariant
  import H = InterleavedSafety
  import I = Interleaved

  // ----- what is pending, under landing ---------------------------------------------------------

  function AnsweredIds(log: seq<Event>): set<EventId> {
    set o | o in log && NamesAction(o) :: o.actionId
  }

  /** Pending are those of taken that have no answer yet. */
  ghost predicate Tracks(s: Session, taken: seq<Event>) {
    Pending(s.log) == Remove(taken, AnsweredIds(s.log))
  }

  lemma AnsweredIdsAppend(log: seq<Event>, e: Event)
    ensures AnsweredIds(log + [e]) == AnsweredIds(log) + (if NamesAction(e) then {e.actionId} else {})
  {
    forall x | x in AnsweredIds(log) ensures x in AnsweredIds(log + [e]) {
      var o :| o in log && NamesAction(o) && o.actionId == x;
      assert o in log + [e];
    }
    assert e in log + [e];
  }

  lemma {:induction false} RemoveSnoc(taken: seq<Event>, a: Event, gone: set<EventId>)
    ensures Remove(taken + [a], gone) == Remove(taken, gone) + (if a.id in gone then [] else [a])
  {
    if |taken| == 0 {
      assert taken + [a] == [a] && [a][1..] == [];
    } else {
      assert (taken + [a])[1..] == taken[1..] + [a];
      RemoveSnoc(taken[1..], a, gone);
    }
  }

  lemma StoreTracks(s: Session, e: Event, taken: seq<Event>)
    requires Tracks(s, taken) && !e.ActionEvent?
    ensures Tracks(s.(log := s.log + [e], next := s.next + 1), taken)
  {
    AnsweredIdsAppend(s.log, e);
    if NamesAction(e) {
      PendingAnswer(s.log, e, 0);
      RemoveTwice(taken, AnsweredIds(s.log), {e.actionId});
    } else {
      PendingAppend(s.log, e, 0);
      assert AnsweredIds(s.log + [e]) == AnsweredIds(s.log);
    }
  }

  lemma StatusTracks(s: Session, status: Status, taken: seq<Event>)
    requires Tracks(s, taken)
    ensures Tracks(SetStatus(s, status), taken)
  {
    StoreTracks(s, StateEvent(Raw(s.next), "execution_status"), taken);
  }

  lemma LandTracks(s: Session, o: I.Outside, taken: seq<Event>)
    requires Tracks(s, taken)
    ensures Tracks(I.Land(s, o), taken)
  {
    if I.CanAnswer(s, o) {
      StoreTracks(s, I.Land(s, o).log[|s.log|], taken);
    } else {
      match o
      case Pauses => StatusTracks(s, Paused, taken);
      case Fails => StatusTracks(s, Failed, taken);
      case Idles => StatusTracks(s, Idle, taken);
      case Notes(key) => StoreTracks(s, StateEvent(Raw(s.next), key), taken);
      case _ =>
    }
  }

  lemma {:induction false} LandAllTracks(s: Session, os: seq<I.Outside>, taken: seq<Event>)
    requires Tracks(s, taken)
    ensures Tracks(I.LandAll(s, os), taken)
    decreases |os|
  {
    if |os| > 0 {
      LandTracks(s, os[0], taken);
      LandAllTracks(I.Land(s, os[0]), os[1..], taken);
    }
  }

  lemma LetTracks(s: Session, land: I.Landing, taken: seq<Event>)
    requires Tracks(s, taken)
    ensures Tracks(I.Let(s, land), taken)
  {
    LandAllTracks(s, land(s), taken);
  }

  lemma ActionTracks(s: Session, a: Event, taken: seq<Event>)
    requires Tracks(s, taken) && Logged(s.log, s.next) && a.ActionEvent? && a.id !in Ids(s.log)
    ensures Tracks(s.(log := s.log + [a]), if a.executable then taken + [a] else taken)
  {
    PendingAppend(s.log, a, 0);
    AnsweredIdsAppend(s.log, a);
    forall o | o in s.log && NamesAction(o) ensures o.actionId != a.id {
      assert Backed(o, s.log);
    }
    RemoveSnoc(taken, a, AnsweredIds(s.log));
    assert AnsweredIds(s.log + [a]) == AnsweredIds(s.log);
  }

  lemma PublishTracks(s: Session, a: Event, hooks: Hooks, land: I.Landing, taken: seq<Event>)
    requires Inv(s, hooks) && Tracks(s, taken)
    requires a.ActionEvent? && a.id == Raw(s.next) && Fits(a, s.log)
    ensures Tracks(I.PublishAction(s, a, hooks, land), if a.executable then taken + [a] else taken)
  {
    var p := Prepared(s, a, hooks);
    if p.log != s.log {
      StoreTracks(s, p.log[|s.log|], taken);
    }
    LetTracks(p, land, taken);
    G.ReadyToStore(s, a, hooks, land);
    ActionTracks(I.Let(p, land), a, taken);
    LetTracks(I.Let(p, land).(log := I.Let(p, land).log + [a]), land, if a.executable then taken + [a] else taken);
  }

  lemma GetActionEventTracks(s: Session, reply: Reply, k: nat, hooks: Hooks, land: I.Landing, taken: seq<Event>)
    requires Inv(s, hooks) && CanAdd(s, reply, k) && k < |reply.calls| && Tracks(s, taken)
    ensures Tracks(I.GetActionEvent(s, reply, k, hooks, land), I.WithAction(taken, s, reply, k))
  {
    var a := ActionFor(s, reply, k);
    PublishTracks(s, a, hooks, land, taken);
    if !a.executable {
      var s1 := I.PublishAction(s, a, hooks, land);
      var o := AgentErrorEvent(Raw(s1.next), a.toolCallId, reply.calls[k].error.value);
      StoreTracks(s1, o, taken);
      LetTracks(Append(s1, o), land, taken);
    }
  }

  lemma StoringTracks(s: Session, reply: Reply, hooks: Hooks, land: I.Landing, taken: seq<Event>)
    requires Inv(s, hooks) && FreshReply(s, reply) && Tracks(s, taken)
    ensures Tracks(I.GetActionEvents(s, reply, 0, hooks, land), taken + I.NewActions(s, reply, 0, hooks, land))
  {
    var P := (u: Session, m: nat, so: seq<Event>) => G.Stage(u, reply, m, hooks) && Tracks(u, so);
    forall u: Session, m: nat, so: seq<Event> | m < |reply.calls| && P(u, m, so)
      ensures P(I.GetActionEvent(u, reply, m, hooks, land), m + 1, I.WithAction(so, u, reply, m))
    {
      G.NextStage(u, reply, m, hooks, land);
      GetActionEventTracks(u, reply, m, hooks, land, so);
    }
    assert G.Stage(s, reply, 0, hooks) && P(s, 0, taken);
    I.StoringKeeps(s, reply, 0, taken, hooks, land, P);
  }

  /** In a reachable session everything pending is tracked. */
  lemma PendingTracked(s: Session)
    requires Logged(s.log, s.next)
    ensures Tracks(s, Pending(s.log))
  {
    PendingIsOpen(s);
    var gone := AnsweredIds(s.log);
    forall i | 0 <= i < |Pending(s.log)| ensures Pending(s.log)[i].id !in gone {
      assert Open(Pending(s.log)[i], s);
    }
    RemoveAbsent(Pending(s.log), gone);
  }

  lemma {:induction false} RemoveAbsent(s: seq<Event>, gone: set<EventId>)
    requires forall i :: 0 <= i < |s| ==> s[i].id !in gone
    ensures Remove(s, gone) == s
  {
    if |s| > 0 {
      RemoveAbsent(s[1..], gone);
    }
  }

  /** A stored reply adds its executable actions to the pending ones, in order, but for what is answered
      by then. */
  lemma PendingAfterReply(s: Session, reply: Reply, hooks: Hooks, land: I.Landing)
    requires Inv(s, hooks) && FreshReply(s, reply)
    ensures var t := I.GetActionEvents(s, reply, 0, hooks, land);
            Pending(t.log) == Remove(Pending(s.log) + I.NewActions(s, reply, 0, hooks, land), AnsweredIds(t.log))
  {
    PendingTracked(s);
    StoringTracks(s, reply, hooks, land, Pending(s.log));
  }

  // ----- waiting ----------------------------------------------------------------------------------

  /** A step from before gets a batch that needs confirmation. */
  ghost predicate GetsBatch(before: Session, input: StepInput, hooks: Hooks, land: I.Landing) {
    && ReachesLLM(before) && input.condense.KeepView? && input.llm.Replied?
    && var actions := BatchOf(before, input, hooks, land);
       (forall a :: a in actions ==> a.ActionEvent?) && NeedsConfirmation(actions, input.risky)
  }

  function BatchOf(before: Session, input: StepInput, hooks: Hooks, land: I.Landing): seq<Event>
    requires input.llm.Replied?
  {
    I.NewActions(I.Let(before, land), input.llm.reply, 0, hooks, land)
  }

  /** after is before with that batch: stored, and none of it executed. Pending are its actions, in order,
      except those the user has answered in the meantime. */
  ghost predicate HoldsBatch(before: Session, after: Session, input: StepInput, hooks: Hooks, land: I.Landing) {
    && GetsBatch(before, input, hooks, land)
    && Pending(after.log) == Remove(BatchOf(before, input, hooks, land), AnsweredIds(after.log))
    && after.invoked == before.invoked
  }

  /** The session in which WAITING has just been published. */
  function Asking(before: Session, input: StepInput, hooks: Hooks, land: I.Landing): Session
    requires input.llm.Replied?
  {
    SetStatus(I.GetActionEvents(I.Let(before, land), input.llm.reply, 0, hooks, land), Waiting)
  }

  /** A pause, a reset to IDLE as a rejection and a review make it, or another run's error. */
  predicate TakesWaiting(o: I.Outside) {
    o.Pauses? || o.Idles? || o.Fails?
  }

  ghost predicate LeavesWaiting(os: seq<I.Outside>) {
    forall k :: 0 <= k < |os| ==> !TakesWaiting(os[k])
  }

  lemma {:induction false} LandingWaits(s: Session, os: seq<I.Outside>)
    ensures I.LandAll(s, os).status.Waiting? <==> s.status.Waiting? && LeavesWaiting(os)
    decreases |os|
  {
    if |os| > 0 {
      LandingWaits(I.Land(s, os[0]), os[1..]);
      assert os == [os[0]] + os[1..];
    }
  }

  lemma {:induction false} LandingNeverWaits(s: Session, os: seq<I.Outside>)
    requires !s.status.Waiting?
    ensures !I.LandAll(s, os).status.Waiting?
    decreases |os|
  {
    if |os| > 0 {
      LandingNeverWaits(I.Land(s, os[0]), os[1..]);
    }
  }

  lemma LetNeverWaits(s: Session, land: I.Landing)
    requires !s.status.Waiting?
    ensures !I.Let(s, land).status.Waiting?
  {
    LandingNeverWaits(s, land(s));
  }

  lemma ExecutingNeverWaits(s: Session, a: Event, tool: Event -> ToolResult, land: I.Landing)
    requires a.ActionEvent? && !s.status.Waiting?
    ensures !I.ExecuteAction(s, a, tool, land).s.status.Waiting?
  {
    if a.id in s.blockedActions {
      var s1 := PopBlockedAction(s, a.id);
      LetNeverWaits(s1, land);
      var s2 := I.Let(s1, land);
      LetNeverWaits(Append(s2, UserRejectObservation(Raw(s2.next), a.toolCallId, a.id, s.blockedActions[a.id])), land);
    } else {
      LetNeverWaits(s.(invoked := s.invoked + [a.id]), land);
      var s1 := I.Invoke(s, a, land);
      match tool(a)
      case ValueError(error) => LetNeverWaits(Append(s1, AgentErrorEvent(Raw(s1.next), a.toolCall.id, error)), land);
      case Observed(content) =>
        var o := ObservationEvent(Raw(s1.next), a.toolCall.id, a.id, content);
        LetNeverWaits(Append(s1, o), land);
        LetNeverWaits(SetStatus(I.Store(s1, o, land), Finished), land);
      case _ =>
    }
  }

  lemma {:induction false} ExecutionNeverWaits(s: Session, actions: seq<Event>, tool: Event -> ToolResult,
                                               land: I.Landing)
    requires (forall a :: a in actions ==> a.ActionEvent?) && !s.status.Waiting?
    ensures !I.ExecuteActions(s, actions, tool, land).s.status.Waiting?
    decreases |actions|
  {
    if |actions| > 0 {
      var first := I.ExecuteAction(s, actions[0], tool, land);
      ExecutingNeverWaits(s, actions[0], tool, land);
      if !first.raised {
        ExecutionNeverWaits(first.s, actions[1..], tool, land);
      }
    }
  }

  lemma PublishNeverWaits(s: Session, a: Event, hooks: Hooks, land: I.Landing)
    requires a.ActionEvent? && !s.status.Waiting?
    ensures !I.PublishAction(s, a, hooks, land).status.Waiting?
  {
    LetNeverWaits(Prepared(s, a, hooks), land);
    var s1 := I.Let(Prepared(s, a, hooks), land);
    LetNeverWaits(s1.(log := s1.log + [a]), land);
  }

  lemma OneStoredNeverWaits(s: Session, reply: Reply, k: nat, hooks: Hooks, land: I.Landing)
    requires k < |reply.calls| && !s.status.Waiting?
    ensures !I.GetActionEvent(s, reply, k, hooks, land).status.Waiting?
  {
    var a := ActionFor(s, reply, k);
    PublishNeverWaits(s, a, hooks, land);
    var s1 := I.PublishAction(s, a, hooks, land);
    if !a.executable {
      LetNeverWaits(Append(s1, AgentErrorEvent(Raw(s1.next), a.toolCallId, reply.calls[k].error.value)), land);
    }
  }

  lemma StoringNeverWaits(s: Session, reply: Reply, hooks: Hooks, land: I.Landing)
    requires !s.status.Waiting?
    ensures !I.GetActionEvents(s, reply, 0, hooks, land).status.Waiting?
  {
    var P := (u: Session, m: nat, so: seq<Event>) => !u.status.Waiting?;
    forall u: Session, m: nat, so: seq<Event> | m < |reply.calls| && P(u, m, so)
      ensures P(I.GetActionEvent(u, reply, m, hooks, land), m + 1, I.WithAction(so, u, reply, m))
    {
      OneStoredNeverWaits(u, reply, m, hooks, land);
    }
    I.StoringKeeps(s, reply, 0, [], hooks, land, P);
  }

  lemma MessageNeverWaits(s: Session, content: string, hooks: Hooks, land: I.Landing)
    requires !s.status.Waiting?
    ensures !I.UserMessage(s, content, hooks, land).status.Waiting?
  {
    var m := MessageEvent(Raw(s.next), User, content);
    var s1 := s.(next := s.next + 1);
    var verdict := hooks.userPrompt(m);
    var s2 := s1;
    if verdict.Some? {
      var b := SetBlockedMessages(s1, s1.blockedMessages[m.id := verdict.value]);
      LetNeverWaits(b, land);
      s2 := I.Let(b, land);
    }
    LetNeverWaits(s2.(log := s2.log + [m]), land);
  }

  lemma MessageReplyNeverWaits(s: Session, reply: Reply, input: StepInput, hooks: Hooks, land: I.Landing)
    requires |reply.calls| == 0 && !s.status.Waiting?
    ensures !I.HandleReply(s, reply, input, hooks, land).s.status.Waiting?
  {
    var m := MessageEvent(Raw(s.next), Agent, reply.content);
    LetNeverWaits(Append(s, m), land);
    var s1 := I.Store(s, m, land);
    LetNeverWaits(Note(s1, "token_ids"), land);
    LetNeverWaits(SetStatus(I.Tokens(s1, reply, land), Finished), land);
  }

  lemma UnheldReplyNeverWaits(s: Session, reply: Reply, input: StepInput, hooks: Hooks, land: I.Landing)
    requires |reply.calls| > 0 && !s.status.Waiting?
    requires forall a :: a in I.NewActions(s, reply, 0, hooks, land) ==> a.ActionEvent?
    requires !NeedsConfirmation(I.NewActions(s, reply, 0, hooks, land), input.risky)
    ensures !I.HandleReply(s, reply, input, hooks, land).s.status.Waiting?
  {
    var actions, s1 := I.NewActions(s, reply, 0, hooks, land), I.GetActionEvents(s, reply, 0, hooks, land);
    StoringNeverWaits(s, reply, hooks, land);
    ExecutionNeverWaits(s1, actions, input.tool, land);
    LetNeverWaits(Note(I.ExecuteActions(s1, actions, input.tool, land).s, "token_ids"), land);
  }

  lemma HeldReply(s: Session, reply: Reply, input: StepInput, hooks: Hooks, land: I.Landing)
    requires Inv(s, hooks) && FreshReply(s, reply) && Pending(s.log) == [] && |reply.calls| > 0
    requires forall a :: a in I.NewActions(s, reply, 0, hooks, land) ==> a.ActionEvent?
    requires NeedsConfirmation(I.NewActions(s, reply, 0, hooks, land), input.risky)
    ensures var actions, o := I.NewActions(s, reply, 0, hooks, land), I.HandleReply(s, reply, input, hooks, land);
            var asking := SetStatus(I.GetActionEvents(s, reply, 0, hooks, land), Waiting);
            && !o.raised && Pending(o.s.log) == Remove(actions, AnsweredIds(o.s.log)) && o.s.invoked == s.invoked
            && (o.s.status.Waiting? <==> LeavesWaiting(land(asking)))
  {
    var actions, s1 := I.NewActions(s, reply, 0, hooks, land), I.GetActionEvents(s, reply, 0, hooks, land);
    StoringTracks(s, reply, hooks, land, []);
    assert [] + actions == actions;
    StatusTracks(s1, Waiting, actions);
    LetTracks(SetStatus(s1, Waiting), land, actions);
    G.GetActionEventsInv(s, reply, hooks, land);
    G.LetAdds(SetStatus(s1, Waiting), land);
    LandingWaits(SetStatus(s1, Waiting), land(SetStatus(s1, Waiting)));
  }

  lemma NothingPendingStays(s: Session, land: I.Landing)
    requires Pending(s.log) == []
    ensures Pending(I.Let(s, land).log) == []
  {
    LetTracks(s, land, []);
  }

  lemma ReplyNeverWaits(s: Session, reply: Reply, input: StepInput, hooks: Hooks, land: I.Landing)
    requires !s.status.Waiting? && forall a :: a in I.NewActions(s, reply, 0, hooks, land) ==> a.ActionEvent?
    requires !NeedsConfirmation(I.NewActions(s, reply, 0, hooks, land), input.risky)
    ensures !I.HandleReply(s, reply, input, hooks, land).s.status.Waiting?
  {
    if |reply.calls| == 0 {
      MessageReplyNeverWaits(s, reply, input, hooks, land);
    } else {
      UnheldReplyNeverWaits(s, reply, input, hooks, land);
    }
  }

  lemma CallNeverWaits(s0: Session, input: StepInput, hooks: Hooks, land: I.Landing)
    requires ReachesLLM(s0) && !s0.status.Waiting? && !GetsBatch(s0, input, hooks, land)
    ensures !I.CallLLM(s0, input, hooks, land).s.status.Waiting?
  {
    var s := I.Let(s0, land);
    LetNeverWaits(s0, land);
    match input.condense
    case CondenseFailed =>
    case Condense(forgotten, summary, offset) =>
      LetNeverWaits(Append(s, Condensation(Raw(s.next), forgotten, summary, offset)), land);
    case KeepView =>
      match input.llm
      case MalformedCall(error) => MessageNeverWaits(s, error, hooks, land);
      case ContextExceeded => LetNeverWaits(Append(s, CondensationRequest(Raw(s.next))), land);
      case LLMFailed =>
      case Replied(reply) =>
        I.NewActionsAreActions(s, reply, 0, hooks, land);
        ReplyNeverWaits(s, reply, input, hooks, land);
  }

  lemma StepNeverWaits(s: Session, input: StepInput, hooks: Hooks, land: I.Landing)
    requires !s.status.Waiting? && !GetsBatch(s, input, hooks, land)
    ensures !I.Step(s, input, hooks, land).s.status.Waiting?
  {
    PendingAreExecutable(s.log, 0);
    if |Pending(s.log)| > 0 {
      LetNeverWaits(s, land);
      ExecutionNeverWaits(I.Let(s, land), Pending(s.log), input.tool, land);
    } else if BlockedLastMessage(s, |s.log|).Some? {
      var p := PopBlockedMessage(s, BlockedLastMessage(s, |s.log|).value);
      LetNeverWaits(p, land);
      LetNeverWaits(SetStatus(I.Let(p, land), Finished), land);
    } else {
      CallNeverWaits(s, input, hooks, land);
    }
  }

  /** A step that gets a batch that needs confirmation stores it, executes none of it, and ends in WAITING
      exactly if nothing takes the status away when WAITING is published. */
  lemma BatchIsHeld(s: Session, input: StepInput, hooks: Hooks, land: I.Landing)
    requires Inv(s, hooks) && FreshInput(s, input) && GetsBatch(s, input, hooks, land)
    ensures var o := I.Step(s, input, hooks, land);
            && !o.raised && HoldsBatch(s, o.s, input, hooks, land)
            && (o.s.status.Waiting? <==> LeavesWaiting(land(Asking(s, input, hooks, land))))
  {
    var s1 := I.Let(s, land);
    NothingPendingStays(s, land);
    G.LetInv(s, land, hooks);
    G.StillFresh(s, s1, input);
    HeldReply(s1, input.llm.reply, input, hooks, land);
  }

  /** A step turns to WAITING exactly then. */
  lemma StepWaitsExactly(s: Session, input: StepInput, hooks: Hooks, land: I.Landing)
    requires Inv(s, hooks) && FreshInput(s, input) && !s.status.Waiting?
    ensures I.Step(s, input, hooks, land).s.status.Waiting? <==>
            GetsBatch(s, input, hooks, land) && LeavesWaiting(land(Asking(s, input, hooks, land)))
  {
    if GetsBatch(s, input, hooks, land) {
      BatchIsHeld(s, input, hooks, land);
    } else {
      StepNeverWaits(s, input, hooks, land);
    }
  }

  /** And then it holds the batch. */
  lemma StepWaits(s: Session, input: StepInput, hooks: Hooks, land: I.Landing)
    requires Inv(s, hooks) && FreshInput(s, input) && !s.status.Waiting?
    requires I.Step(s, input, hooks, land).s.status.Waiting?
    ensures HoldsBatch(s, I.Step(s, input, hooks, land).s, input, hooks, land)
  {
    StepWaitsExactly(s, input, hooks, land);
    BatchIsHeld(s, input, hooks, land);
  }

  // ----- which batches are asked about ------------------------------------------------------------

  /** The step has a reply with these executable actions. */
  ghost predicate GetsActions(s: Session, input: StepInput, hooks: Hooks, land: I.Landing, actions: seq<Event>) {
    && ReachesLLM(s) && input.condense.KeepView? && input.llm.Replied?
    && actions == BatchOf(s, input, hooks, land) && forall a :: a in actions ==> a.ActionEvent?
  }

  ghost predicate Alone(actions: seq<Event>, name: string) {
    |actions| == 1 && actions[0].ActionEvent? && actions[0].toolCall.name == name
  }

  /** One risky action among them is enough, and so is one memory review: the step hands nothing to a tool
      and asks, unless all there is is one action named finish or think. */
  lemma RiskyBatchIsAskedAbout(s: Session, input: StepInput, hooks: Hooks, land: I.Landing, actions: seq<Event>,
                               a: Event)
    requires Inv(s, hooks) && FreshInput(s, input) && GetsActions(s, input, hooks, land, actions)
    requires a in actions && (input.risky(a) || a.toolCall.name == "memory_review")
    requires !Alone(actions, "finish") && !Alone(actions, "think")
    ensures var o := I.Step(s, input, hooks, land);
            && !o.raised && o.s.invoked == s.invoked
            && (o.s.status.Waiting? <==> LeavesWaiting(land(Asking(s, input, hooks, land))))
  {
    assert GetsBatch(s, input, hooks, land);
    BatchIsHeld(s, input, hooks, land);
  }

  /** Nothing risky and no memory review, or one action named finish or think: the step does not ask. */
  lemma HarmlessBatchIsNotAskedAbout(s: Session, input: StepInput, hooks: Hooks, land: I.Landing, actions: seq<Event>)
    requires Inv(s, hooks) && FreshInput(s, input) && GetsActions(s, input, hooks, land, actions)
    requires !s.status.Waiting?
    requires || (forall a :: a in actions ==> !input.risky(a) && a.toolCall.name != "memory_review")
             || Alone(actions, "finish") || Alone(actions, "think")
    ensures !I.Step(s, input, hooks, land).s.status.Waiting?
  {
    StepWaitsExactly(s, input, hooks, land);
  }
}
