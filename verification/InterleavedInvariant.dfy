/** The session's invariant holds whatever lands inside a step. */
module InterleavedInvariant {
  import opened Events
  import opened View
  import opened FromEvents
  import opened Unmatched
  import opened Session
  import opened SessionInvariant
  import I = Interleaved

  // ----- what lands -------------------------------------------------------------------------------

  /** From s to t only events other than actions are added, with new ids. */
  ghost predicate Adds(s: Session, t: Session) {
    && s.log <= t.log && s.next <= t.next
    && t.blockedActions == s.blockedActions && t.blockedMessages == s.blockedMessages && t.invoked == s.invoked
    && forall k :: |s.log| <= k < |t.log| ==> NewEvent(t.log[k], s.next)
  }

  ghost predicate NewEvent(e: Event, next: nat) {
    !e.ActionEvent? && !e.Condensation? && e.id.Raw? && next <= e.id.n
  }

  lemma AddsTransitive(s: Session, t: Session, u: Session)
    requires Adds(s, t) && Adds(t, u)
    ensures Adds(s, u)
  {
    forall k | |s.log| <= k < |u.log| ensures NewEvent(u.log[k], s.next) {
      if k < |t.log| {
        assert u.log[k] == t.log[k];
      }
    }
  }

  lemma LandAdds(s: Session, o: I.Outside)
    ensures Adds(s, I.Land(s, o))
  {
  }

  lemma {:induction false} LandAllAdds(s: Session, os: seq<I.Outside>)
    ensures Adds(s, I.LandAll(s, os))
    decreases |os|
  {
    if |os| > 0 {
      LandAdds(s, os[0]);
      LandAllAdds(I.Land(s, os[0]), os[1..]);
      AddsTransitive(s, I.Land(s, os[0]), I.LandAll(s, os));
    }
  }

  lemma LetAdds(s: Session, land: I.Landing)
    ensures Adds(s, I.Let(s, land))
  {
    LandAllAdds(s, land(s));
  }

  /** No action is added, no answer is taken away, and an id taken before stays unused. */
  lemma AddsMeans(s: Session, t: Session)
    requires Adds(s, t)
    ensures forall b :: b in t.log && b.ActionEvent? ==> b in s.log
    ensures forall b :: b in s.log ==> b in t.log
    ensures forall b :: IsAnswered(b, s.log) ==> IsAnswered(b, t.log)
    ensures forall x: EventId :: x.Raw? && x.n < s.next && x !in Ids(s.log) ==> x !in Ids(t.log)
  {
    forall b | b in t.log && b.ActionEvent? ensures b in s.log {
      var k :| 0 <= k < |t.log| && t.log[k] == b;
      assert k < |s.log| ==> s.log[k] == b;
    }
    forall b | b in s.log ensures b in t.log {
      var k :| 0 <= k < |s.log| && s.log[k] == b;
      assert t.log[k] == b;
    }
    forall b | IsAnswered(b, s.log) ensures IsAnswered(b, t.log) {
      var o :| o in s.log && NamesAction(o) && o.actionId == b.id;
      assert o in t.log;
    }
    forall x: EventId | x.Raw? && x.n < s.next && x !in Ids(s.log) ensures x !in Ids(t.log) {
      forall e | e in t.log ensures e.id != x {
        var k :| 0 <= k < |t.log| && t.log[k] == e;
        assert k < |s.log| ==> s.log[k] == e && e.id in Ids(s.log);
      }
    }
  }

  lemma LandInv(s: Session, o: I.Outside, hooks: Hooks)
    requires Inv(s, hooks)
    ensures Inv(I.Land(s, o), hooks)
  {
    match o
    case Rejects(i, reason) =>
      if I.CanAnswer(s, o) {
        AnswerInv(s, s.log[i], UserRejectObservation(Raw(s.next), s.log[i].toolCallId, s.log[i].id, reason), hooks);
      }
    case Answers(i, content) =>
      if I.CanAnswer(s, o) {
        AnswerInv(s, s.log[i], ObservationEvent(Raw(s.next), s.log[i].toolCallId, s.log[i].id, content), hooks);
      }
    case Pauses => StatusInv(s, Paused, hooks);
    case Fails => StatusInv(s, Failed, hooks);
    case Idles => StatusInv(s, Idle, hooks);
    case Notes(key) => NoteInv(s, key, hooks);
  }

  /** An answer to an action of the log, whatever answers it has already. */
  lemma AnswerInv(s: Session, a: Event, o: Event, hooks: Hooks)
    requires Inv(s, hooks) && a in s.log && a.ActionEvent? && o.IsObservation() && o.id == Raw(s.next)
    requires o.toolCallId == a.toolCallId && (NamesAction(o) ==> o.actionId == a.id)
    ensures Inv(Append(s, o), hooks)
  {
    ResultFits(a, o, s);
    AppendInv(s, o, hooks);
  }

  lemma {:induction false} LandAllInv(s: Session, os: seq<I.Outside>, hooks: Hooks)
    requires Inv(s, hooks)
    ensures Inv(I.LandAll(s, os), hooks)
    decreases |os|
  {
    if |os| > 0 {
      LandInv(s, os[0], hooks);
      LandAllInv(I.Land(s, os[0]), os[1..], hooks);
    }
  }

  lemma LetInv(s: Session, land: I.Landing, hooks: Hooks)
    requires Inv(s, hooks)
    ensures Inv(I.Let(s, land), hooks) && Adds(s, I.Let(s, land))
  {
    LandAllInv(s, land(s), hooks);
    LetAdds(s, land);
  }

  // ----- executing --------------------------------------------------------------------------------

  /** a is an executable action of the log, and a hook's block of it is still marked. */
  ghost predicate Held(a: Event, s: Session, hooks: Hooks) {
    a in s.log && IsExecutable(a) && (HookBlocked(a, hooks) ==> a.id in s.blockedActions)
  }

  /** The hooks as if they had let a pass: with these the invariant holds while the mark is taken and
      the rejection not yet stored. */
  function Sparing(hooks: Hooks, a: Event): Hooks {
    Hooks(e => if e == a then None else hooks.preToolUse(e), hooks.userPrompt)
  }

  lemma SparingInv(s: Session, a: Event, hooks: Hooks)
    requires Inv(s, hooks)
    ensures Inv(s, Sparing(hooks, a))
  {
    assert forall b :: HookBlocked(b, Sparing(hooks, a)) ==> HookBlocked(b, hooks);
  }

  /** Once a is answered the difference is gone. */
  lemma SparedAndAnswered(s: Session, a: Event, hooks: Hooks)
    requires Inv(s, Sparing(hooks, a)) && a.id !in s.invoked && IsAnswered(a, s.log)
    ensures Inv(s, hooks)
  {
    forall b | b in s.log && HookBlocked(b, hooks)
      ensures b.id !in s.invoked && (b.id in s.blockedActions || IsAnswered(b, s.log))
    {
      if b != a {
        assert HookBlocked(b, Sparing(hooks, a));
      }
    }
  }

  /** Taking a's mark away. */
  lemma TakeMarkInv(s: Session, a: Event, hooks: Hooks)
    requires Inv(s, hooks) && a in s.log && IsExecutable(a) && a.id in s.blockedActions
    ensures var t := PopBlockedAction(s, a.id);
            && Inv(t, Sparing(hooks, a)) && t.invoked == s.invoked && t.blockedActions == s.blockedActions - {a.id}
            && s.next < t.next && a in t.log && (forall b :: b in s.log ==> b in t.log)
  {
    var bare := s.(blockedActions := s.blockedActions - {a.id});
    assert PopBlockedAction(s, a.id) == Note(bare, "blocked_actions");
    forall b | b in s.log && HookBlocked(b, Sparing(hooks, a))
      ensures b.id !in s.invoked && (b.id in bare.blockedActions || IsAnswered(b, s.log))
    {
      assert HookBlocked(b, hooks) && b != a;
      if b.id == a.id {
        SameId(s, a, b);
      }
    }
    NoteInv(bare, "blocked_actions", Sparing(hooks, a));
  }

  lemma RejectBlocked(s: Session, a: Event, tool: Event -> ToolResult, land: I.Landing, hooks: Hooks)
    requires Inv(s, hooks) && Held(a, s, hooks) && a.id in s.blockedActions
    ensures var t := I.ExecuteAction(s, a, tool, land).s;
            Inv(t, hooks) && t.blockedActions == s.blockedActions - {a.id} && t.invoked == s.invoked
  {
    TakeMarkInv(s, a, hooks);
    var s1 := PopBlockedAction(s, a.id);
    var s2 := I.Let(s1, land);
    LetInv(s1, land, Sparing(hooks, a));
    AddsMeans(s1, s2);
    var o := UserRejectObservation(Raw(s2.next), a.toolCallId, a.id, s.blockedActions[a.id]);
    AnswerInv(s2, a, o, Sparing(hooks, a));
    var s3 := Append(s2, o);
    assert o in s3.log;
    if HookBlocked(a, hooks) {
      SparedAndAnswered(s3, a, hooks);
    } else {
      NotSpared(s3, a, hooks);
    }
    LetInv(s3, land, hooks);
  }

  lemma NotSpared(s: Session, a: Event, hooks: Hooks)
    requires Inv(s, Sparing(hooks, a)) && !HookBlocked(a, hooks)
    ensures Inv(s, hooks)
  {
    forall b | b in s.log && HookBlocked(b, hooks)
      ensures b.id !in s.invoked && (b.id in s.blockedActions || IsAnswered(b, s.log))
    {
      assert HookBlocked(b, Sparing(hooks, a));
    }
  }

  lemma InvokeKeeps(s: Session, a: Event, land: I.Landing, hooks: Hooks)
    requires Inv(s, hooks) && Held(a, s, hooks) && a.id !in s.blockedActions
    ensures var t := I.Invoke(s, a, land);
            Inv(t, hooks) && a in t.log && t.blockedActions == s.blockedActions && t.invoked == s.invoked + [a.id]
  {
    var t := s.(invoked := s.invoked + [a.id]);
    assert Good(a, s.next);
    forall b | b in s.log && HookBlocked(b, hooks) ensures b.id != a.id {
      if b.id == a.id {
        SameId(s, a, b);
      }
    }
    LetInv(t, land, hooks);
    AddsMeans(t, I.Let(t, land));
  }

  lemma RunTool(s: Session, a: Event, tool: Event -> ToolResult, land: I.Landing, hooks: Hooks)
    requires Inv(s, hooks) && Held(a, s, hooks) && a.id !in s.blockedActions
    ensures var t := I.ExecuteAction(s, a, tool, land).s;
            Inv(t, hooks) && t.blockedActions == s.blockedActions
            && t.invoked == if tool(a).NoSuchTool? then s.invoked else s.invoked + [a.id]
  {
    InvokeKeeps(s, a, land, hooks);
    var s1 := I.Invoke(s, a, land);
    assert Good(a, s.next);
    match tool(a)
    case ValueError(error) =>
      var o := AgentErrorEvent(Raw(s1.next), a.toolCall.id, error);
      AnswerInv(s1, a, o, hooks);
      LetInv(Append(s1, o), land, hooks);
    case Observed(content) =>
      var o := ObservationEvent(Raw(s1.next), a.toolCall.id, a.id, content);
      AnswerInv(s1, a, o, hooks);
      LetInv(Append(s1, o), land, hooks);
      var s2 := I.Store(s1, o, land);
      StatusInv(s2, Finished, hooks);
      LetInv(SetStatus(s2, Finished), land, hooks);
    case _ =>
  }

  lemma ExecuteActionInv(s: Session, a: Event, tool: Event -> ToolResult, land: I.Landing, hooks: Hooks)
    requires Inv(s, hooks) && Held(a, s, hooks)
    ensures var t := I.ExecuteAction(s, a, tool, land).s;
            && Inv(t, hooks) && t.blockedActions == s.blockedActions - {a.id}
            && t.invoked == s.invoked + (if a.id in s.blockedActions || tool(a).NoSuchTool? then [] else [a.id])
  {
    if a.id in s.blockedActions {
      RejectBlocked(s, a, tool, land, hooks);
    } else {
      RunTool(s, a, tool, land, hooks);
    }
  }

  lemma RejectionGrows(s: Session, a: Event, tool: Event -> ToolResult, land: I.Landing)
    requires a.ActionEvent? && a.id in s.blockedActions
    ensures var t := I.ExecuteAction(s, a, tool, land).s; s.log <= t.log && s.next <= t.next
  {
    var s1 := PopBlockedAction(s, a.id);
    LetAdds(s1, land);
    var s2 := I.Let(s1, land);
    LetAdds(Append(s2, UserRejectObservation(Raw(s2.next), a.toolCallId, a.id, s.blockedActions[a.id])), land);
  }

  lemma ToolGrows(s: Session, a: Event, tool: Event -> ToolResult, land: I.Landing)
    requires a.ActionEvent? && a.id !in s.blockedActions
    ensures var t := I.ExecuteAction(s, a, tool, land).s; s.log <= t.log && s.next <= t.next
  {
    LetAdds(s.(invoked := s.invoked + [a.id]), land);
    var s1 := I.Invoke(s, a, land);
    match tool(a)
    case ValueError(error) => LetAdds(Append(s1, AgentErrorEvent(Raw(s1.next), a.toolCall.id, error)), land);
    case Observed(content) =>
      var o := ObservationEvent(Raw(s1.next), a.toolCall.id, a.id, content);
      LetAdds(Append(s1, o), land);
      LetAdds(SetStatus(I.Store(s1, o, land), Finished), land);
    case _ =>
  }

  /** The log only grows while an action is executed. */
  lemma ExecuteActionGrows(s: Session, a: Event, tool: Event -> ToolResult, land: I.Landing)
    requires a.ActionEvent?
    ensures var t := I.ExecuteAction(s, a, tool, land).s; s.log <= t.log && s.next <= t.next
  {
    if a.id in s.blockedActions {
      RejectionGrows(s, a, tool, land);
    } else {
      ToolGrows(s, a, tool, land);
    }
  }

  ghost predicate HeldAll(actions: seq<Event>, s: Session, hooks: Hooks) {
    DistinctIds(actions) && forall i :: 0 <= i < |actions| ==> Held(actions[i], s, hooks)
  }

  lemma RestStaysHeld(s: Session, actions: seq<Event>, tool: Event -> ToolResult, land: I.Landing, hooks: Hooks)
    requires Inv(s, hooks) && HeldAll(actions, s, hooks) && |actions| > 0
    ensures HeldAll(actions[1..], I.ExecuteAction(s, actions[0], tool, land).s, hooks)
  {
    var t, rest := I.ExecuteAction(s, actions[0], tool, land).s, actions[1..];
    ExecuteActionInv(s, actions[0], tool, land, hooks);
    ExecuteActionGrows(s, actions[0], tool, land);
    forall k | 0 <= k < |rest| ensures Held(rest[k], t, hooks) {
      assert rest[k] == actions[k + 1] && Held(actions[k + 1], s, hooks);
      assert rest[k].id != actions[0].id;
      var j :| 0 <= j < |s.log| && s.log[j] == rest[k];
      assert t.log[j] == rest[k];
    }
  }

  lemma {:induction false} ExecuteActionsInv(s: Session, actions: seq<Event>, tool: Event -> ToolResult,
                                             land: I.Landing, hooks: Hooks)
    requires Inv(s, hooks) && HeldAll(actions, s, hooks)
    ensures Inv(I.ExecuteActions(s, actions, tool, land).s, hooks)
    decreases |actions|
  {
    if |actions| > 0 {
      var first := I.ExecuteAction(s, actions[0], tool, land);
      ExecuteActionInv(s, actions[0], tool, land, hooks);
      if !first.raised {
        RestStaysHeld(s, actions, tool, land, hooks);
        ExecuteActionsInv(first.s, actions[1..], tool, land, hooks);
      }
    }
  }

  /** What a step finds pending is held. */
  lemma PendingIsHeld(s: Session, hooks: Hooks)
    requires Inv(s, hooks)
    ensures HeldAll(Pending(s.log), s, hooks)
  {
    PendingIsOpen(s);
    forall i | 0 <= i < |Pending(s.log)| ensures Held(Pending(s.log)[i], s, hooks) {
      assert Open(Pending(s.log)[i], s);
    }
  }

  /** And still is when others have got in. */
  lemma TakenIsHeld(s: Session, hooks: Hooks, land: I.Landing)
    requires Inv(s, hooks)
    ensures Inv(I.Let(s, land), hooks) && HeldAll(Pending(s.log), I.Let(s, land), hooks)
  {
    PendingIsHeld(s, hooks);
    LetInv(s, land, hooks);
    AddsMeans(s, I.Let(s, land));
    forall i | 0 <= i < |Pending(s.log)| ensures Held(Pending(s.log)[i], I.Let(s, land), hooks) {
      assert Held(Pending(s.log)[i], s, hooks);
    }
  }

  // ----- storing actions --------------------------------------------------------------------------

  lemma FitsStays(a: Event, s: Session, t: Session)
    requires Adds(s, t) && a.ActionEvent? && Fits(a, s.log)
    ensures Fits(a, t.log)
  {
    AddsMeans(s, t);
  }

  /** Just before a new action is stored. */
  lemma ReadyToStore(s: Session, a: Event, hooks: Hooks, land: I.Landing)
    requires Inv(s, hooks) && a.ActionEvent? && a.id == Raw(s.next) && Fits(a, s.log)
    ensures var t := I.Let(Prepared(s, a, hooks), land);
            && Inv(t, hooks) && t.invoked == s.invoked && s.next < t.next && s.log <= t.log
            && a.id !in Ids(t.log) && a.id !in t.invoked && Fits(a, t.log)
            && (HookBlocked(a, hooks) ==> a.id in t.blockedActions)
            && (forall x :: x in s.blockedActions ==> x in t.blockedActions)
            && forall b :: b in t.log && b.ActionEvent? ==> b in s.log
  {
    PreparedKeeps(s, a, hooks);
    var s1 := Prepared(s, a, hooks);
    LetInv(s1, land, hooks);
    AddsMeans(s1, I.Let(s1, land));
    FitsStays(a, s1, I.Let(s1, land));
  }

  ghost predicate SettledBut(log: seq<Event>, a: Event) {
    forall b :: b in log && b.ActionEvent? && !b.executable && b != a ==> HasError(b, log)
  }

  /** The invariant but for the error that a is still to get. */
  ghost predicate InvButError(s: Session, a: Event, hooks: Hooks) {
    && Logged(s.log, s.next) && Guarded(s, hooks) && SettledBut(s.log, a)
    && (forall x :: x in s.invoked ==> x.Raw? && x.n < s.next)
    && a in s.log && a.ActionEvent? && !a.executable
  }

  lemma AppendBut(s: Session, e: Event, a: Event, hooks: Hooks)
    requires InvButError(s, a, hooks) && e.id == Raw(s.next) && !e.ActionEvent? && !e.CondensationSummaryEvent?
             && Fits(e, s.log)
    ensures InvButError(Append(s, e), a, hooks)
  {
    FreshId(s);
    AppendLogged(s.log, s.next, e);
    AnswersStay(s.log, [e]);
    ErrorsStayBut(s.log, e, a);
  }

  lemma ErrorsStayBut(log: seq<Event>, e: Event, a: Event)
    requires SettledBut(log, a) && !e.ActionEvent?
    ensures SettledBut(log + [e], a)
  {
    forall b | b in log + [e] && b.ActionEvent? && !b.executable && b != a ensures HasError(b, log + [e]) {
      assert HasError(b, log);
      var o :| o in log && o.AgentErrorEvent? && o.toolCallId == b.toolCallId;
      assert o in log + [e];
    }
  }

  lemma LandBut(s: Session, o: I.Outside, a: Event, hooks: Hooks)
    requires InvButError(s, a, hooks)
    ensures InvButError(I.Land(s, o), a, hooks)
  {
    if I.CanAnswer(s, o) {
      var b := s.log[o.i];
      var e := if o.Rejects? then UserRejectObservation(Raw(s.next), b.toolCallId, b.id, o.reason)
               else ObservationEvent(Raw(s.next), b.toolCallId, b.id, o.content);
      ResultFits(b, e, s);
      AppendBut(s, e, a, hooks);
    } else if o.Notes? {
      AppendBut(s, StateEvent(Raw(s.next), o.key), a, hooks);
    } else if I.Land(s, o) != s {
      var t := s.(status := if o.Pauses? then Paused else if o.Fails? then Failed else Idle);
      assert InvButError(t, a, hooks);
      AppendBut(t, StateEvent(Raw(s.next), "execution_status"), a, hooks);
    }
  }

  lemma {:induction false} LandAllBut(s: Session, os: seq<I.Outside>, a: Event, hooks: Hooks)
    requires InvButError(s, a, hooks)
    ensures InvButError(I.LandAll(s, os), a, hooks)
    decreases |os|
  {
    if |os| > 0 {
      LandBut(s, os[0], a, hooks);
      LandAllBut(I.Land(s, os[0]), os[1..], a, hooks);
    }
  }

  lemma StoreErrorInv(s: Session, a: Event, error: string, hooks: Hooks)
    requires InvButError(s, a, hooks)
    ensures Inv(Append(s, AgentErrorEvent(Raw(s.next), a.toolCallId, error)), hooks)
  {
    var o := AgentErrorEvent(Raw(s.next), a.toolCallId, error);
    var t := Append(s, o);
    assert Backed(o, s.log);
    AppendBut(s, o, a, hooks);
    assert o in t.log;
  }

  /** What storing changes besides the log's new events. */
  ghost predicate Stored(s: Session, t: Session, a: Event) {
    && s.log <= t.log && s.next < t.next && t.invoked == s.invoked
    && (forall x :: x in s.blockedActions ==> x in t.blockedActions)
    && (forall b :: b in t.log && b.ActionEvent? ==> b in s.log || b == a)
  }

  lemma PublishActionInv(s: Session, a: Event, hooks: Hooks, land: I.Landing)
    requires Inv(s, hooks) && a.ActionEvent? && a.id == Raw(s.next) && a.toolCall.id == a.toolCallId && Fits(a, s.log)
    ensures var t := I.PublishAction(s, a, hooks, land);
            && Stored(s, t, a) && a in t.log
            && (if a.executable then Inv(t, hooks) && Held(a, t, hooks) else InvButError(t, a, hooks))
  {
    ReadyToStore(s, a, hooks, land);
    var s1 := I.Let(Prepared(s, a, hooks), land);
    var s2 := s1.(log := s1.log + [a]);
    StoreActionKeeps(s1, a, hooks);
    assert a in s2.log;
    LetAdds(s2, land);
    AddsMeans(s2, I.Let(s2, land));
    if a.executable {
      LetInv(s2, land, hooks);
    } else {
      ButAfterStoring(s1, a, hooks);
      LandAllBut(s2, land(s2), a, hooks);
    }
  }

  lemma ButAfterStoring(s: Session, a: Event, hooks: Hooks)
    requires Inv(s, hooks) && a.ActionEvent? && !a.executable
    requires Logged(s.log + [a], s.next) && Guarded(s.(log := s.log + [a]), hooks)
    ensures InvButError(s.(log := s.log + [a]), a, hooks)
  {
    forall b | b in s.log + [a] && b.ActionEvent? && !b.executable && b != a ensures HasError(b, s.log + [a]) {
      assert HasError(b, s.log);
      var o :| o in s.log && o.AgentErrorEvent? && o.toolCallId == b.toolCallId;
      assert o in s.log + [a];
    }
  }

  lemma StoreErrorLetInv(s: Session, a: Event, error: string, hooks: Hooks, land: I.Landing)
    requires InvButError(s, a, hooks)
    ensures var t := I.Store(s, AgentErrorEvent(Raw(s.next), a.toolCallId, error), land);
            Inv(t, hooks) && Adds(s, t)
  {
    var o := AgentErrorEvent(Raw(s.next), a.toolCallId, error);
    StoreErrorInv(s, a, error, hooks);
    LetInv(Append(s, o), land, hooks);
    AddsTransitive(s, Append(s, o), I.Store(s, o, land));
  }

  lemma StoredThenAdds(s: Session, t: Session, u: Session, a: Event)
    requires Stored(s, t, a) && Adds(t, u)
    ensures Stored(s, u, a)
  {
    AddsMeans(t, u);
  }

  lemma GetActionEventInv(s: Session, reply: Reply, k: nat, hooks: Hooks, land: I.Landing)
    requires Inv(s, hooks) && CanAdd(s, reply, k) && k < |reply.calls|
    ensures var t, a := I.GetActionEvent(s, reply, k, hooks, land), ActionFor(s, reply, k);
            Inv(t, hooks) && Stored(s, t, a) && (a.executable ==> Held(a, t, hooks))
  {
    var a := ActionFor(s, reply, k);
    PublishActionInv(s, a, hooks, land);
    if !a.executable {
      var s1 := I.PublishAction(s, a, hooks, land);
      StoreErrorLetInv(s1, a, reply.calls[k].error.value, hooks, land);
      StoredThenAdds(s, s1, I.GetActionEvent(s, reply, k, hooks, land), a);
    }
  }

  /** Before the k-th call is stored. */
  ghost predicate Stage(s: Session, reply: Reply, k: nat, hooks: Hooks) {
    Inv(s, hooks) && CanAdd(s, reply, k)
  }

  /** What storing calls does to the rest of the session. */
  ghost predicate Grown(s: Session, t: Session) {
    && s.log <= t.log && s.next <= t.next && t.invoked == s.invoked
    && forall x :: x in s.blockedActions ==> x in t.blockedActions
  }

  lemma GrownTransitive(s: Session, t: Session, u: Session)
    requires Grown(s, t) && Grown(t, u)
    ensures Grown(s, u)
  {
  }

  lemma StoredCanAdd(s: Session, t: Session, reply: Reply, k: nat)
    requires CanAdd(s, reply, k) && k < |reply.calls| && Stored(s, t, ActionFor(s, reply, k))
    ensures CanAdd(t, reply, k + 1)
  {
  }

  lemma NextStage(s: Session, reply: Reply, k: nat, hooks: Hooks, land: I.Landing)
    requires Stage(s, reply, k, hooks) && k < |reply.calls|
    ensures var t := I.GetActionEvent(s, reply, k, hooks, land);
            Stage(t, reply, k + 1, hooks) && Grown(s, t) && s.next < t.next
  {
    GetActionEventInv(s, reply, k, hooks, land);
    StoredCanAdd(s, I.GetActionEvent(s, reply, k, hooks, land), reply, k);
  }

  /** What the executable actions stored so far are: held, and with ids from next on, in order of issue. */
  ghost predicate Issued(actions: seq<Event>, next: nat) {
    DistinctIds(actions) && forall i :: 0 <= i < |actions| ==> actions[i].id.Raw? && next <= actions[i].id.n
  }

  ghost predicate IssuedBefore(actions: seq<Event>, next: nat, end: nat) {
    Issued(actions, next) && forall i :: 0 <= i < |actions| ==> actions[i].id.n < end
  }

  lemma IssuedSnoc(actions: seq<Event>, a: Event, next: nat, end: nat, later: nat)
    requires IssuedBefore(actions, next, end) && a.id == Raw(end) && next <= end < later
    ensures IssuedBefore(actions + [a], next, later)
  {
  }

  ghost predicate EachHeld(actions: seq<Event>, s: Session, hooks: Hooks) {
    forall a :: a in actions ==> Held(a, s, hooks)
  }

  lemma HeldStay(actions: seq<Event>, s: Session, t: Session, hooks: Hooks)
    requires EachHeld(actions, s, hooks) && Grown(s, t)
    ensures EachHeld(actions, t, hooks)
  {
    forall a | a in actions ensures a in t.log {
      var j :| 0 <= j < |s.log| && s.log[j] == a;
      assert t.log[j] == a;
    }
  }

  lemma OneMoreIssued(s: Session, next: nat, reply: Reply, k: nat, actions: seq<Event>, hooks: Hooks, land: I.Landing)
    requires Stage(s, reply, k, hooks) && k < |reply.calls| && next <= s.next && IssuedBefore(actions, next, s.next)
    ensures var t := I.GetActionEvent(s, reply, k, hooks, land);
            IssuedBefore(I.WithAction(actions, s, reply, k), next, t.next)
  {
    NextStage(s, reply, k, hooks, land);
    if reply.calls[k].error.None? {
      IssuedSnoc(actions, ActionFor(s, reply, k), next, s.next, I.GetActionEvent(s, reply, k, hooks, land).next);
    }
  }

  lemma OneMoreHeld(s: Session, reply: Reply, k: nat, actions: seq<Event>, hooks: Hooks, land: I.Landing)
    requires Stage(s, reply, k, hooks) && k < |reply.calls| && EachHeld(actions, s, hooks)
    ensures EachHeld(I.WithAction(actions, s, reply, k), I.GetActionEvent(s, reply, k, hooks, land), hooks)
  {
    var t := I.GetActionEvent(s, reply, k, hooks, land);
    NextStage(s, reply, k, hooks, land);
    HeldStay(actions, s, t, hooks);
    GetActionEventInv(s, reply, k, hooks, land);
  }

  /** Storing a reply. */
  lemma LastStage(s: Session, reply: Reply, hooks: Hooks, land: I.Landing)
    requires Inv(s, hooks) && FreshReply(s, reply)
    ensures var t := I.GetActionEvents(s, reply, 0, hooks, land); Inv(t, hooks) && Grown(s, t)
  {
    var P := (u: Session, m: nat, so: seq<Event>) => Stage(u, reply, m, hooks) && Grown(s, u);
    forall u: Session, m: nat, so: seq<Event> | m < |reply.calls| && P(u, m, so)
      ensures P(I.GetActionEvent(u, reply, m, hooks, land), m + 1, I.WithAction(so, u, reply, m))
    {
      NextStage(u, reply, m, hooks, land);
      GrownTransitive(s, u, I.GetActionEvent(u, reply, m, hooks, land));
    }
    assert Stage(s, reply, 0, hooks) && P(s, 0, []);
    I.StoringKeeps(s, reply, 0, [], hooks, land, P);
  }

  lemma NewActionsIssued(s: Session, reply: Reply, hooks: Hooks, land: I.Landing)
    requires Inv(s, hooks) && FreshReply(s, reply)
    ensures Issued(I.NewActions(s, reply, 0, hooks, land), s.next)
  {
    var P := (u: Session, m: nat, so: seq<Event>) =>
      Stage(u, reply, m, hooks) && s.next <= u.next && IssuedBefore(so, s.next, u.next);
    forall u: Session, m: nat, so: seq<Event> | m < |reply.calls| && P(u, m, so)
      ensures P(I.GetActionEvent(u, reply, m, hooks, land), m + 1, I.WithAction(so, u, reply, m))
    {
      NextStage(u, reply, m, hooks, land);
      OneMoreIssued(u, s.next, reply, m, so, hooks, land);
    }
    assert Stage(s, reply, 0, hooks) && IssuedBefore([], s.next, s.next) && P(s, 0, []);
    I.StoringKeeps(s, reply, 0, [], hooks, land, P);
    var all := I.NewActions(s, reply, 0, hooks, land);
    assert [] + all == all;
    assert IssuedBefore(all, s.next, I.GetActionEvents(s, reply, 0, hooks, land).next);
  }

  /** Its executable actions get new ids. */
  lemma GetActionEventsInv(s: Session, reply: Reply, hooks: Hooks, land: I.Landing)
    requires Inv(s, hooks) && FreshReply(s, reply)
    ensures var t := I.GetActionEvents(s, reply, 0, hooks, land); Inv(t, hooks) && Grown(s, t)
    ensures Issued(I.NewActions(s, reply, 0, hooks, land), s.next)
  {
    LastStage(s, reply, hooks, land);
    NewActionsIssued(s, reply, hooks, land);
  }

  /** And they are held. */
  lemma NewActionsAreHeld(s: Session, reply: Reply, hooks: Hooks, land: I.Landing)
    requires Inv(s, hooks) && FreshReply(s, reply)
    ensures EachHeld(I.NewActions(s, reply, 0, hooks, land), I.GetActionEvents(s, reply, 0, hooks, land), hooks)
  {
    var P := (u: Session, m: nat, so: seq<Event>) => Stage(u, reply, m, hooks) && EachHeld(so, u, hooks);
    forall u: Session, m: nat, so: seq<Event> | m < |reply.calls| && P(u, m, so)
      ensures P(I.GetActionEvent(u, reply, m, hooks, land), m + 1, I.WithAction(so, u, reply, m))
    {
      NextStage(u, reply, m, hooks, land);
      OneMoreHeld(u, reply, m, so, hooks, land);
    }
    assert Stage(s, reply, 0, hooks) && P(s, 0, []);
    I.StoringKeeps(s, reply, 0, [], hooks, land, P);
    assert [] + I.NewActions(s, reply, 0, hooks, land) == I.NewActions(s, reply, 0, hooks, land);
  }

  // ----- a step -----------------------------------------------------------------------------------

  lemma TokensInv(s: Session, reply: Reply, land: I.Landing, hooks: Hooks)
    requires Inv(s, hooks)
    ensures Inv(I.Tokens(s, reply, land), hooks)
  {
    NoteInv(s, "token_ids", hooks);
    LetInv(Note(s, "token_ids"), land, hooks);
  }

  lemma SetStatusInv(s: Session, status: Status, land: I.Landing, hooks: Hooks)
    requires Inv(s, hooks)
    ensures Inv(I.Let(SetStatus(s, status), land), hooks)
  {
    StatusInv(s, status, hooks);
    LetInv(SetStatus(s, status), land, hooks);
  }

  lemma HandleCallsInv(s: Session, reply: Reply, input: StepInput, hooks: Hooks, land: I.Landing)
    requires Inv(s, hooks) && FreshReply(s, reply) && |reply.calls| > 0
    ensures Inv(I.HandleReply(s, reply, input, hooks, land).s, hooks)
  {
    var actions, s1 := I.NewActions(s, reply, 0, hooks, land), I.GetActionEvents(s, reply, 0, hooks, land);
    I.NewActionsAreActions(s, reply, 0, hooks, land);
    GetActionEventsInv(s, reply, hooks, land);
    NewActionsAreHeld(s, reply, hooks, land);
    if NeedsConfirmation(actions, input.risky) {
      SetStatusInv(s1, Waiting, land, hooks);
    } else {
      ExecuteActionsInv(s1, actions, input.tool, land, hooks);
      TokensInv(I.ExecuteActions(s1, actions, input.tool, land).s, reply, land, hooks);
    }
  }

  lemma HandleReplyInv(s: Session, reply: Reply, input: StepInput, hooks: Hooks, land: I.Landing)
    requires Inv(s, hooks) && FreshReply(s, reply)
    ensures Inv(I.HandleReply(s, reply, input, hooks, land).s, hooks)
  {
    if |reply.calls| > 0 {
      HandleCallsInv(s, reply, input, hooks, land);
    } else {
      var m := MessageEvent(Raw(s.next), Agent, reply.content);
      AppendInv(s, m, hooks);
      LetInv(Append(s, m), land, hooks);
      TokensInv(I.Store(s, m, land), reply, land, hooks);
      SetStatusInv(I.Tokens(I.Store(s, m, land), reply, land), Finished, land, hooks);
    }
  }

  lemma MarkMessageInv(s: Session, id: EventId, blocked: map<EventId, string>, land: I.Landing, hooks: Hooks)
    requires Inv(s, hooks) && id.Raw? && id.n < s.next && id !in Ids(s.log)
    ensures var t := I.Let(SetBlockedMessages(s, blocked), land); Inv(t, hooks) && s.next <= t.next && id !in Ids(t.log)
  {
    var b := SetBlockedMessages(s, blocked);
    BlockMessageKeeps(s, id, blocked, hooks);
    LetInv(b, land, hooks);
    AddsMeans(b, I.Let(b, land));
  }

  lemma StoreMessageLetInv(s: Session, m: Event, land: I.Landing, hooks: Hooks)
    requires Inv(s, hooks) && m.MessageEvent? && m.id !in Ids(s.log) && Good(m, s.next)
    ensures Inv(I.Let(s.(log := s.log + [m]), land), hooks)
  {
    StoreMessageInv(s, m, hooks);
    LetInv(s.(log := s.log + [m]), land, hooks);
  }

  lemma UserMessageInv(s: Session, content: string, hooks: Hooks, land: I.Landing)
    requires Inv(s, hooks)
    ensures Inv(I.UserMessage(s, content, hooks, land), hooks)
  {
    var m := MessageEvent(Raw(s.next), User, content);
    var s1 := s.(next := s.next + 1);
    FreshId(s);
    MoreIdsInv(s, hooks);
    if hooks.userPrompt(m).Some? {
      var blocked := s1.blockedMessages[m.id := hooks.userPrompt(m).value];
      MarkMessageInv(s1, m.id, blocked, land, hooks);
      StoreMessageLetInv(I.Let(SetBlockedMessages(s1, blocked), land), m, land, hooks);
    } else {
      StoreMessageLetInv(s1, m, land, hooks);
    }
  }

  lemma StillFresh(s: Session, t: Session, input: StepInput)
    requires Adds(s, t) && FreshInput(s, input)
    ensures FreshInput(t, input)
  {
    AddsMeans(s, t);
  }

  lemma CallLLMInv(s0: Session, input: StepInput, hooks: Hooks, land: I.Landing)
    requires Inv(s0, hooks) && FreshInput(s0, input)
    ensures Inv(I.CallLLM(s0, input, hooks, land).s, hooks)
  {
    var s := I.Let(s0, land);
    LetInv(s0, land, hooks);
    StillFresh(s0, s, input);
    match input.condense
    case CondenseFailed =>
    case Condense(forgotten, summary, offset) =>
      var c := Condensation(Raw(s.next), forgotten, summary, offset);
      AppendInv(s, c, hooks);
      LetInv(Append(s, c), land, hooks);
    case KeepView =>
      match input.llm
      case MalformedCall(error) => UserMessageInv(s, error, hooks, land);
      case ContextExceeded =>
        AppendInv(s, CondensationRequest(Raw(s.next)), hooks);
        LetInv(Append(s, CondensationRequest(Raw(s.next))), land, hooks);
      case LLMFailed =>
      case Replied(reply) => HandleReplyInv(s, reply, input, hooks, land);
  }

  /** A step keeps the invariant, whatever lands while it runs. */
  lemma StepInv(s: Session, input: StepInput, hooks: Hooks, land: I.Landing)
    requires Inv(s, hooks) && FreshInput(s, input)
    ensures Inv(I.Step(s, input, hooks, land).s, hooks)
  {
    PendingAreExecutable(s.log, 0);
    if |Pending(s.log)| > 0 {
      TakenIsHeld(s, hooks, land);
      ExecuteActionsInv(I.Let(s, land), Pending(s.log), input.tool, land, hooks);
    } else {
      match BlockedLastMessage(s, |s.log|)
      case Some(id) => TakeMessageMarkInv(s, id, hooks, land);
      case None => CallLLMInv(s, input, hooks, land);
    }
  }

  lemma TakeMessageMarkInv(s: Session, id: EventId, hooks: Hooks, land: I.Landing)
    requires Inv(s, hooks)
    ensures Inv(I.Let(SetStatus(I.Let(PopBlockedMessage(s, id), land), Finished), land), hooks)
  {
    var b := s.(blockedMessages := s.blockedMessages - {id});
    assert Inv(b, hooks);
    NoteInv(b, "blocked_messages", hooks);
    LetInv(PopBlockedMessage(s, id), land, hooks);
    SetStatusInv(I.Let(PopBlockedMessage(s, id), land), Finished, land, hooks);
  }
}
