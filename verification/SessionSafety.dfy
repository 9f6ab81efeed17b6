/** The promises of the agent's protocol, for every reachable session. */
module SessionSafety {
  import opened Events
  import opened View
  import opened FromEvents
  import opened Messages
  import opened Unmatched
  import opened Session
  import opened SessionInvariant

  // ----- at the LLM call ----------------------------------------------------------------------

  /** A result for the action at i comes later. */
  ghost predicate HasLaterResult(log: seq<Event>, i: nat)
    requires i < |log| && log[i].ActionEvent?
  {
    exists j :: i < j < |log| && log[j].IsObservation() && log[j].toolCallId == log[i].toolCallId
  }

  lemma ExecutableAnswered(s: Session, a: Event) returns (o: Event)
    requires Logged(s.log, s.next) && Pending(s.log) == [] && a in s.log && IsExecutable(a)
    ensures o in s.log && o.IsObservation() && o.toolCallId == a.toolCallId
  {
    PendingIsOpen(s);
    assert !Open(a, s);
    o :| o in s.log && NamesAction(o) && o.actionId == a.id;
    assert Backed(o, s.log);
    var b :| b in s.log && b.ActionEvent? && b.toolCallId == o.toolCallId && o.actionId == b.id;
    SameId(s, a, b);
  }

  lemma ResultComesLater(log: seq<Event>, i: nat, o: Event)
    requires Ordered(log) && i < |log| && log[i].ActionEvent?
    requires o in log && o.IsObservation() && o.toolCallId == log[i].toolCallId
    ensures HasLaterResult(log, i)
  {
    var j :| 0 <= j < |log| && log[j] == o;
    assert forall m :: 0 <= m < i ==> Before(log[m], log[i]);
  }

  lemma AllAnsweredAtLLM(s: Session, hooks: Hooks, i: nat)
    requires Inv(s, hooks) && ReachesLLM(s)
    requires i < |s.log| && s.log[i].ActionEvent?
    ensures HasLaterResult(s.log, i)
  {
    if s.log[i].executable {
      var o := ExecutableAnswered(s, s.log[i]);
      ResultComesLater(s.log, i, o);
    } else {
      assert HasError(s.log[i], s.log);
      var o :| o in s.log && o.AgentErrorEvent? && o.toolCallId == s.log[i].toolCallId;
      ResultComesLater(s.log, i, o);
    }
  }

  ghost predicate NoCondensation(log: seq<Event>) {
    forall e :: e in log ==> !e.Condensation?
  }

  ghost function ConvertibleSet(log: seq<Event>): set<Event> {
    set e | e in log && e.IsLLMConvertible()
  }

  lemma {:induction false} VisibleWithoutCondensation(log: seq<Event>, K: set<Event>)
    requires NoCondensation(log)
    requires forall e :: e in log ==> (e in K <==> e.IsLLMConvertible())
    ensures Visible(log) == Keep(log, K)
  {
    if |log| > 0 {
      assert log == log[..|log| - 1] + [log[|log| - 1]];
      VisibleWithoutCondensation(log[..|log| - 1], K);
    }
  }

  lemma ConvertibleAnswered(log: seq<Event>, i: nat)
    requires i < |log| && log[i].ActionEvent? && HasLaterResult(log, i)
    ensures Answered(log[i], ConvertibleSet(log))
  {
    var j :| i < j < |log| && log[j].IsObservation() && log[j].toolCallId == log[i].toolCallId;
    assert log[j] in ConvertibleSet(log);
  }

  lemma ConvertibleCalledFor(log: seq<Event>, o: Event)
    requires o.IsObservation() && Backed(o, log)
    ensures CalledFor(o, ConvertibleSet(log))
  {
    var a :| a in log && a.ActionEvent? && a.toolCallId == o.toolCallId;
    assert a in ConvertibleSet(log);
  }

  lemma AllAnsweredIsStable(log: seq<Event>, next: nat)
    requires Logged(log, next)
    requires forall i: nat :: i < |log| && log[i].ActionEvent? ==> HasLaterResult(log, i)
    ensures Stable(Keep(log, ConvertibleSet(log)), log, ConvertibleSet(log))
  {
    var K := ConvertibleSet(log);
    KeepMembers(log, K);
    forall a | a in K && a.ActionEvent? ensures Answered(a, K) {
      var i: nat :| i < |log| && log[i] == a;
      ConvertibleAnswered(log, i);
    }
    forall o | o in K && o.IsObservation() ensures CalledFor(o, K) {
      ConvertibleCalledFor(log, o);
    }
  }

  lemma ConvertibleIsStable(s: Session, hooks: Hooks)
    requires Inv(s, hooks) && ReachesLLM(s)
    ensures Stable(Keep(s.log, ConvertibleSet(s.log)), s.log, ConvertibleSet(s.log))
  {
    forall i: nat | i < |s.log| && s.log[i].ActionEvent? ensures HasLaterResult(s.log, i) {
      AllAnsweredAtLLM(s, hooks, i);
    }
    AllAnsweredIsStable(s.log, s.next);
  }

  /** Whenever a step gets to the LLM call and nothing has been condensed, the view keeps every
      event that can be sent: the filters drop nothing. */
  lemma ViewIsCompleteAtLLM(s: Session, hooks: Hooks)
    requires Inv(s, hooks) && ReachesLLM(s) && NoCondensation(s.log)
    ensures ViewEvents(s.log) == Keep(s.log, ConvertibleSet(s.log))
  {
    var log, K := s.log, ConvertibleSet(s.log);
    LoggedIsStored(log, s.next);
    VisibleWithoutCondensation(log, K);
    ConvertibleIsStable(s, hooks);
    KeepMembers(log, K);
    ViewIsGreatestStable(log);
    KeepAll(Visible(log), Elements(ViewEvents(log)));
  }

  /** And the conversion to messages never fails, condensed or not. */
  lemma MessagesNeverFail(s: Session)
    requires Logged(s.log, s.next)
    ensures Convertible(ViewEvents(s.log)) && MessagesOf(ViewEvents(s.log)).Some?
  {
    LoggedIsStored(s.log, s.next);
    ViewMessagesNeverFail(s.log);
  }

  lemma CallIdsOfLog(log: seq<Event>, next: nat)
    requires Logged(log, next)
    ensures CallIdsAgree(log)
  {
    assert forall e :: e in log ==> Good(e, next);
  }

  /** What is sent to the LLM is paired, whatever has happened: every tool call of the prompt is answered
      by a later tool message with its id, and every tool message answers an earlier call. */
  lemma PromptIsPairedAlways(s: Session)
    requires Logged(s.log, s.next)
    ensures Convertible(ViewEvents(s.log)) && MessagesOf(ViewEvents(s.log)).Some?
    ensures var ms := MessagesOf(ViewEvents(s.log)).value;
            && (forall m: nat, c :: m < |ms| && c in ms[m].toolCalls ==> AnsweredLater(ms, m, c.id))
            && (forall n: nat :: n < |ms| && ms[n].role == "tool" ==>
                  ms[n].toolCallId.Some? && CalledBefore(ms, n, ms[n].toolCallId.value))
  {
    LoggedIsStored(s.log, s.next);
    CallIdsOfLog(s.log, s.next);
    PromptIsPaired(s.log);
  }

  /** And when nothing has been condensed, the prompt of an LLM call has the tool call of every action of
      the session, with its result in a later message. */
  lemma PromptIsWholeAtLLM(s: Session, hooks: Hooks, i: nat)
    requires Inv(s, hooks) && ReachesLLM(s) && NoCondensation(s.log)
    requires i < |s.log| && s.log[i].ActionEvent?
    ensures Convertible(ViewEvents(s.log)) && MessagesOf(ViewEvents(s.log)).Some?
    ensures var ms, a := MessagesOf(ViewEvents(s.log)).value, s.log[i];
            exists m: nat :: m < |ms| && a.toolCall in ms[m].toolCalls && AnsweredLater(ms, m, a.toolCall.id)
  {
    MessagesNeverFail(s);
    PromptIsPairedAlways(s);
    ViewIsCompleteAtLLM(s, hooks);
    KeepMembers(s.log, ConvertibleSet(s.log));
    var v := ViewEvents(s.log);
    assert s.log[i] in v;
    var k: nat :| k < |v| && v[k] == s.log[i];
    var m := CallInMessage(v, k);
  }

  // ----- what stays pending ---------------------------------------------------------------------

  /** The events whose id is not in gone. */
  function Remove(s: seq<Event>, gone: set<EventId>): seq<Event> {
    if |s| == 0 then []
    else if s[0].id in gone then Remove(s[1..], gone)
    else [s[0]] + Remove(s[1..], gone)
  }

  lemma {:induction false} RemoveNone(s: seq<Event>)
    ensures Remove(s, {}) == s
  {
    if |s| > 0 {
      RemoveNone(s[1..]);
    }
  }

  lemma {:induction false} RemoveTwice(s: seq<Event>, gone: set<EventId>, more: set<EventId>)
    ensures Remove(Remove(s, gone), more) == Remove(s, gone + more)
  {
    if |s| > 0 {
      RemoveTwice(s[1..], gone, more);
      if s[0].id !in gone {
        assert ([s[0]] + Remove(s[1..], gone))[1..] == Remove(s[1..], gone);
      }
    }
  }

  /** Storing an answer removes exactly the answered action from the pending ones. */
  lemma {:induction false} PendingAnswer(log: seq<Event>, o: Event, i: nat)
    requires i <= |log| && NamesAction(o)
    ensures PendingFrom(log + [o], i) == Remove(PendingFrom(log, i), {o.actionId})
    decreases |log| - i
  {
    var log' := log + [o];
    if i < |log| {
      PendingAnswer(log, o, i + 1);
      assert AnsweredAfter(log', i) <==> AnsweredAfter(log, i) || o.actionId == log[i].id by {
        assert forall j :: i < j < |log| ==> log'[j] == log[j];
        assert log'[|log|] == o;
      }
      assert IsPending(log, i) ==> ([log[i]] + PendingFrom(log, i + 1))[1..] == PendingFrom(log, i + 1);
    } else {
      assert PendingFrom(log', |log| + 1) == [];
    }
  }

  // ----- the user's rejection -------------------------------------------------------------------

  lemma RejectInvokesNothing(s: Session, actions: seq<Event>, reason: string)
    requires forall a :: a in actions ==> a.ActionEvent?
    ensures RejectAll(s, actions, reason).invoked == s.invoked
    decreases |actions|
  {
    if |actions| > 0 {
      var a := actions[0];
      RejectInvokesNothing(Append(s, UserRejectObservation(Raw(s.next), a.toolCallId, a.id, reason)), actions[1..],
        reason);
    }
  }

  lemma RejectGrows(s: Session, actions: seq<Event>, reason: string)
    requires forall a :: a in actions ==> a.ActionEvent?
    ensures s.log <= RejectAll(s, actions, reason).log
    decreases |actions|
  {
    if |actions| > 0 {
      var a := actions[0];
      RejectGrows(Append(s, UserRejectObservation(Raw(s.next), a.toolCallId, a.id, reason)), actions[1..], reason);
    }
  }

  lemma {:induction false} RejectAllSettles(s: Session, actions: seq<Event>, reason: string)
    requires forall a :: a in actions ==> a.ActionEvent?
    ensures Pending(RejectAll(s, actions, reason).log) == Remove(Pending(s.log), Ids(actions))
    decreases |actions|
  {
    if |actions| == 0 {
      RemoveNone(Pending(s.log));
      assert Ids(actions) == {};
    } else {
      var a, rest := actions[0], actions[1..];
      var o := UserRejectObservation(Raw(s.next), a.toolCallId, a.id, reason);
      PendingAnswer(s.log, o, 0);
      RejectAllSettles(Append(s, o), rest, reason);
      RemoveTwice(Pending(s.log), {a.id}, Ids(rest));
      assert actions == [a] + rest;
      assert Ids(actions) == {a.id} + Ids(rest);
    }
  }

  lemma {:induction false} RemoveMembers(s: seq<Event>, gone: set<EventId>)
    ensures forall e :: e in Remove(s, gone) <==> e in s && e.id !in gone
  {
    if |s| > 0 {
      RemoveMembers(s[1..], gone);
      assert s == [s[0]] + s[1..];
    }
  }

  lemma ErrorsStay(log: seq<Event>, log': seq<Event>, e: Event)
    requires log <= log' && e in ErroredSet(log)
    ensures e in ErroredSet(log')
  {
    var i :| 0 <= i < |log| && log[i].ActionEvent? && ErroredAfter(log, i) && log[i] == e;
    var j :| i < j < |log| && log[j].AgentErrorEvent? && log[j].toolCallId == log[i].toolCallId;
    assert log'[i] == log[i] && log'[j] == log[j];
    assert ErroredAfter(log', i);
  }

  lemma ErroredIsNotUnanswered(log: seq<Event>)
    requires DistinctIds(log) && forall e :: e in Pending(log) ==> e in ErroredSet(log)
    ensures UnansweredFrom(log, 0) == []
  {
    ScansDifferByErrors(log);
    KeepNone(Pending(log), PendingSet(log) - ErroredSet(log));
  }

  lemma PendingAfterRejection(s: Session, reason: string)
    ensures var t := RejectPending(s, reason);
            && Pending(t.log) == Remove(Pending(s.log), Ids(UnansweredFrom(s.log, 0)))
            && s.log <= t.log && t.invoked == s.invoked
  {
    UnansweredAreExecutable(s.log, 0);
    var u := UnansweredFrom(s.log, 0);
    var s1 := if s.status.Waiting? then SetStatus(s, Idle) else s;
    PendingAppend(s.log, StateEvent(Raw(s.next), "execution_status"), 0);
    assert Pending(s1.log) == Pending(s.log);
    RejectAllSettles(s1, u, reason);
    RejectGrows(s1, u, reason);
    RejectInvokesNothing(s1, u, reason);
  }

  lemma OnlyErroredLeft(s: Session, t: Session, u: seq<Event>)
    requires DistinctIds(s.log) && s.log <= t.log && u == UnansweredFrom(s.log, 0)
    requires Pending(t.log) == Remove(Pending(s.log), Ids(u))
    ensures forall e :: e in Pending(t.log) ==> e in ErroredSet(t.log)
  {
    ScansDifferByErrors(s.log);
    PendingAreListed(s.log);
    RemoveMembers(Pending(s.log), Ids(u));
    forall e | e in Pending(t.log) ensures e in ErroredSet(t.log) {
      assert e in Pending(s.log) && e !in u;
      ErrorsStay(s.log, t.log, e);
    }
  }

  /** A rejection of what is pending settles exactly what the state's scan returns: after it that
      scan finds nothing, and the runner's scan only actions that have an error, which the next
      step executes again. No tool is called. */
  lemma RejectionSettlesUnanswered(s: Session, reason: string, hooks: Hooks)
    requires Inv(s, hooks)
    ensures var t, u := RejectPending(s, reason), UnansweredFrom(s.log, 0);
            && Pending(t.log) == Remove(Pending(s.log), Ids(u))
            && UnansweredFrom(t.log, 0) == []
            && (forall e :: e in Pending(t.log) ==> e in ErroredSet(t.log))
            && t.invoked == s.invoked
  {
    var t := RejectPending(s, reason);
    PendingAfterRejection(s, reason);
    RejectPendingInv(s, reason, hooks);
    LoggedIsStored(s.log, s.next);
    LoggedIsStored(t.log, t.next);
    OnlyErroredLeft(s, t, UnansweredFrom(s.log, 0));
    ErroredIsNotUnanswered(t.log);
  }

  lemma PendingAreListed(log: seq<Event>)
    requires DistinctIds(log)
    ensures forall e :: e in Pending(log) ==> e in PendingSet(log)
  {
    PendingIsKeep(log);
    KeepMembers(log, PendingSet(log));
  }

  // ----- blocked messages and condensation requests -------------------------------------------

  /** A user message that a hook blocks is not answered: with nothing pending the next step only
      takes the mark away and finishes. */
  lemma BlockedMessageIsNotAnswered(s: Session, content: string, input: StepInput, hooks: Hooks)
    requires Pending(s.log) == [] && hooks.userPrompt(MessageEvent(Raw(s.next), User, content)).Some?
    ensures var t := UserMessage(s, content, hooks);
            var r := Step(t, input, hooks);
            && !ReachesLLM(t) && !r.raised && r.s.status.Finished? && r.s.invoked == s.invoked
            && Raw(s.next) !in r.s.blockedMessages
  {
    var m := MessageEvent(Raw(s.next), User, content);
    var t := UserMessage(s, content, hooks);
    var note := StateEvent(Raw(s.next + 1), "blocked_messages");
    PendingAppend(s.log, note, 0);
    PendingAppend(s.log, m, 0);
    PendingAppend(s.log + [note], m, 0);
    assert t.log == s.log + [note] + [m] || t.log == s.log + [m];
    assert t.log[|t.log| - 1] == m && m.id in t.blockedMessages;
  }

  /** When the context is exceeded and a condenser handles requests, the step leaves an unhandled
      request; a step that stores a condensation leaves none. */
  lemma RequestsAreHandled(s: Session, input: StepInput, hooks: Hooks)
    requires ReachesLLM(s)
    ensures input.condense.KeepView? && input.llm.ContextExceeded? && input.handlesRequests ==>
            UnhandledRequest(Step(s, input, hooks).s.log)
    ensures input.condense.Condense? ==> !UnhandledRequest(Step(s, input, hooks).s.log)
  {
    var t := Step(s, input, hooks).s;
    if input.condense.Condense? || (input.condense.KeepView? && input.llm.ContextExceeded? && input.handlesRequests) {
      assert |t.log| == |s.log| + 1;
      assert t.log[|s.log|].Condensation? || t.log[|s.log|].CondensationRequest?;
    }
  }
}
