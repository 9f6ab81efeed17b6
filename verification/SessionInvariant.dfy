/** What every reachable session keeps. */
module SessionInvariant {
  import opened Events
  import opened View
  import opened FromEvents
  import opened Messages
  import opened Unmatched
  import opened Session

  // ----- the log ------------------------------------------------------------------------------

  /** e may come after f. */
  ghost predicate Before(f: Event, e: Event) {
    && f.id != e.id
    && (e.ActionEvent? && (f.IsObservation() || f.ActionEvent?) ==> f.toolCallId != e.toolCallId)
    && (SameBatch(f, e) ==> e.thought == [])
  }

  ghost predicate Ordered(log: seq<Event>) {
    forall i, j :: 0 <= i < j < |log| ==> Before(log[i], log[j])
  }

  ghost predicate Good(e: Event, next: nat) {
    && e.id.Raw? && e.id.n < next && !e.CondensationSummaryEvent?
    && (e.ActionEvent? ==> e.toolCall.id == e.toolCallId)
  }

  /** o answers an action of the log. */
  ghost predicate Backed(o: Event, log: seq<Event>)
    requires o.IsObservation()
  {
    exists a :: a in log && a.ActionEvent? && a.toolCallId == o.toolCallId && (NamesAction(o) ==> o.actionId == a.id)
  }

  ghost predicate Logged(log: seq<Event>, next: nat) {
    && Ordered(log)
    && (forall e :: e in log ==> Good(e, next))
    && (forall o :: o in log && o.IsObservation() ==> Backed(o, log))
  }

  ghost predicate IsAnswered(a: Event, log: seq<Event>) {
    exists o :: o in log && NamesAction(o) && o.actionId == a.id
  }

  ghost predicate HasError(a: Event, log: seq<Event>)
    requires a.ActionEvent?
  {
    exists o :: o in log && o.AgentErrorEvent? && o.toolCallId == a.toolCallId
  }

  /** Every action that could not be executed has its error. */
  ghost predicate Settled(log: seq<Event>) {
    forall a :: a in log && a.ActionEvent? && !a.executable ==> HasError(a, log)
  }

  lemma LoggedIsStored(log: seq<Event>, next: nat)
    requires Logged(log, next)
    ensures StoredLog(log) && ThoughtFirst(log)
  {
    forall i, j | 0 <= i < j < |log| && log[i].ActionEvent? && log[j].ActionEvent?
      ensures log[i].toolCallId != log[j].toolCallId
    {
      assert Before(log[i], log[j]);
    }
    assert forall i, j :: 0 <= i < j < |log| ==> Before(log[i], log[j]);
    assert forall e :: e in log ==> Good(e, next);
  }

  // ----- the session --------------------------------------------------------------------------

  /** A hook has blocked this action. */
  predicate HookBlocked(a: Event, hooks: Hooks) {
    IsExecutable(a) && hooks.preToolUse(a).Some?
  }

  /** A hook-blocked action has not reached its tool, and is either still marked or answered. */
  ghost predicate Guarded(s: Session, hooks: Hooks) {
    forall a :: a in s.log && HookBlocked(a, hooks) ==>
      a.id !in s.invoked && (a.id in s.blockedActions || IsAnswered(a, s.log))
  }

  ghost predicate Inv(s: Session, hooks: Hooks) {
    && Logged(s.log, s.next)
    && Settled(s.log)
    && Guarded(s, hooks)
    && forall x :: x in s.invoked ==> x.Raw? && x.n < s.next
  }

  // ----- appending ------------------------------------------------------------------------------

  /** What a new event must satisfy besides a fresh id. */
  ghost predicate Fits(e: Event, log: seq<Event>) {
    && (e.ActionEvent? ==>
          forall a :: a in log && a.ActionEvent? ==>
            a.toolCallId != e.toolCallId && (SameBatch(a, e) ==> e.thought == []))
    && (e.IsObservation() ==> Backed(e, log))
  }

  lemma AppendLogged(log: seq<Event>, next: nat, e: Event)
    requires Logged(log, next) && Fits(e, log) && e.id !in Ids(log)
    ensures forall m: nat :: m >= next && Good(e, m) ==> Logged(log + [e], m)
  {
    var log' := log + [e];
    forall f | f in log ensures Before(f, e) {
      if f.IsObservation() {
        assert Backed(f, log);
      }
    }
    forall i, j | 0 <= i < j < |log'| ensures Before(log'[i], log'[j]) {
      if j < |log| {
        assert Before(log[i], log[j]);
      } else {
        assert log[i] in log;
      }
    }
    forall o | o in log' && o.IsObservation() ensures Backed(o, log') {
      assert Backed(o, log);
      var a :| a in log && a.ActionEvent? && a.toolCallId == o.toolCallId && (NamesAction(o) ==> o.actionId == a.id);
      assert a in log';
    }
    forall m: nat | m >= next && Good(e, m) ensures Logged(log', m) {
      forall f | f in log' ensures Good(f, m) {
        if f in log {
          assert Good(f, next);
        }
      }
    }
  }

  lemma AppendSettled(log: seq<Event>, e: Event)
    requires Settled(log) && (e.ActionEvent? ==> e.executable)
    ensures Settled(log + [e])
  {
    forall a | a in log + [e] && a.ActionEvent? && !a.executable ensures HasError(a, log + [e]) {
      assert HasError(a, log);
      var o :| o in log && o.AgentErrorEvent? && o.toolCallId == a.toolCallId;
      assert o in log + [e];
    }
  }

  lemma FreshId(s: Session)
    requires Logged(s.log, s.next)
    ensures Raw(s.next) !in Ids(s.log)
    ensures forall a :: a in s.log ==> a.id.Raw? && a.id.n < s.next
  {
    forall a | a in s.log ensures a.id.Raw? && a.id.n < s.next {
      assert Good(a, s.next);
    }
  }

  lemma AnswersStay(log: seq<Event>, more: seq<Event>)
    ensures forall a :: IsAnswered(a, log) ==> IsAnswered(a, log + more)
  {
    forall a | IsAnswered(a, log) ensures IsAnswered(a, log + more) {
      var o :| o in log && NamesAction(o) && o.actionId == a.id;
      assert o in log + more;
    }
  }

  /** Storing anything but an action keeps the invariant. */
  lemma AppendInv(s: Session, e: Event, hooks: Hooks)
    requires Inv(s, hooks) && e.id == Raw(s.next) && !e.ActionEvent? && !e.CondensationSummaryEvent? && Fits(e, s.log)
    ensures Inv(Append(s, e), hooks)
  {
    FreshId(s);
    AppendLogged(s.log, s.next, e);
    AppendSettled(s.log, e);
    AnswersStay(s.log, [e]);
  }

  lemma NoteInv(s: Session, key: string, hooks: Hooks)
    requires Inv(s, hooks)
    ensures Inv(Note(s, key), hooks)
  {
    AppendInv(s, StateEvent(Raw(s.next), key), hooks);
  }

  lemma StatusInv(s: Session, status: Status, hooks: Hooks)
    requires Inv(s, hooks)
    ensures Inv(SetStatus(s, status), hooks)
  {
    assert Inv(s.(status := status), hooks);
    NoteInv(s.(status := status), "execution_status", hooks);
  }

  lemma BlockMessageKeeps(s: Session, id: EventId, blocked: map<EventId, string>, hooks: Hooks)
    requires Inv(s, hooks) && id.Raw? && id.n < s.next && id !in Ids(s.log)
    ensures var t := SetBlockedMessages(s, blocked); Inv(t, hooks) && s.next <= t.next && id !in Ids(t.log)
  {
    var b := s.(blockedMessages := blocked);
    assert Inv(b, hooks);
    NoteInv(b, "blocked_messages", hooks);
  }

  lemma StoreMessageInv(s: Session, m: Event, hooks: Hooks)
    requires Inv(s, hooks) && m.MessageEvent? && m.id !in Ids(s.log) && Good(m, s.next)
    ensures Inv(s.(log := s.log + [m]), hooks)
  {
    AppendLogged(s.log, s.next, m);
    AppendSettled(s.log, m);
    AnswersStay(s.log, [m]);
  }

  lemma MoreIdsInv(s: Session, hooks: Hooks)
    requires Inv(s, hooks)
    ensures Inv(s.(next := s.next + 1), hooks)
  {
    forall e | e in s.log ensures Good(e, s.next + 1) {
      assert Good(e, s.next);
    }
  }

  // ----- executing ------------------------------------------------------------------------------

  /** a is an action of the log still without an observation or rejection. */
  ghost predicate Open(a: Event, s: Session) {
    a in s.log && IsExecutable(a) && !IsAnswered(a, s.log)
  }

  lemma ResultFits(a: Event, o: Event, s: Session)
    requires a in s.log && a.ActionEvent? && o.IsObservation() && o.toolCallId == a.toolCallId
    requires NamesAction(o) ==> o.actionId == a.id
    ensures Fits(o, s.log)
  {
  }

  lemma SameId(s: Session, a: Event, b: Event)
    requires Logged(s.log, s.next) && a in s.log && b in s.log && a.id == b.id
    ensures a == b
  {
    LoggedIsStored(s.log, s.next);
    SameIdSameEvent(s.log, a, b);
  }

  ghost predicate OpenAll(actions: seq<Event>, s: Session) {
    && (forall i :: 0 <= i < |actions| ==> Open(actions[i], s))
    && DistinctIds(actions)
  }

  /** In a reachable log, pending by position is open. */
  lemma PendingIsOpen(s: Session)
    requires Logged(s.log, s.next)
    ensures OpenAll(Pending(s.log), s)
    ensures forall a :: Open(a, s) ==> a in Pending(s.log)
  {
    LoggedIsStored(s.log, s.next);
    PendingIsKeep(s.log);
    KeepMembers(s.log, PendingSet(s.log));
    KeepDistinct(s.log, PendingSet(s.log));
    forall i | 0 <= i < |s.log| && IsExecutable(s.log[i])
      ensures AnsweredAfter(s.log, i) <==> IsAnswered(s.log[i], s.log)
    {
      AnswerComesAfter(s, i);
    }
  }

  lemma AnswerComesAfter(s: Session, i: nat)
    requires Logged(s.log, s.next) && i < |s.log| && s.log[i].ActionEvent?
    ensures AnsweredAfter(s.log, i) <==> IsAnswered(s.log[i], s.log)
  {
    if o :| o in s.log && NamesAction(o) && o.actionId == s.log[i].id {
      assert Backed(o, s.log);
      var a :| a in s.log && a.ActionEvent? && a.toolCallId == o.toolCallId && o.actionId == a.id;
      SameId(s, a, s.log[i]);
      var j :| 0 <= j < |s.log| && s.log[j] == o;
      assert j < i ==> Before(s.log[j], s.log[i]);
    }
  }

  // ----- new actions ----------------------------------------------------------------------------

  /** The LLM gives every response and every tool call an id of its own. */
  ghost predicate FreshReply(s: Session, reply: Reply) {
    && (forall a :: a in s.log && a.ActionEvent? ==> a.responseId != reply.responseId)
    && FreshCalls(s, reply, 0)
  }

  ghost predicate FreshCalls(s: Session, reply: Reply, k: nat) {
    && (forall m, a :: k <= m < |reply.calls| && a in s.log && a.ActionEvent? ==>
         a.toolCallId != reply.calls[m].toolCall.id)
    && (forall m, n :: k <= m < n < |reply.calls| ==> reply.calls[m].toolCall.id != reply.calls[n].toolCall.id)
  }

  /** Before the k-th call: only call 0 can be the first of its response. */
  ghost predicate CanAdd(s: Session, reply: Reply, k: nat) {
    && k <= |reply.calls| && FreshCalls(s, reply, k)
    && (k == 0 ==> forall a :: a in s.log && a.ActionEvent? ==> a.responseId != reply.responseId)
  }

  /** Just before a new action is stored. */
  ghost predicate ReadyFor(s: Session, t: Session, a: Event, hooks: Hooks) {
    && Inv(t, hooks) && t.invoked == s.invoked && s.next <= t.next
    && a.id !in Ids(t.log) && Fits(a, t.log)
    && forall b :: b in t.log && b.ActionEvent? ==> b in s.log
  }

  lemma BlockKeeps(s: Session, a: Event, reason: string, hooks: Hooks)
    requires Inv(s, hooks) && a.ActionEvent? && a.id.Raw? && a.id.n < s.next && a.id !in Ids(s.log) && Fits(a, s.log)
    ensures var t := SetBlockedActions(s, s.blockedActions[a.id := reason]);
            ReadyFor(s, t, a, hooks) && a.id in t.blockedActions
  {
    var b := s.(blockedActions := s.blockedActions[a.id := reason]);
    assert Inv(b, hooks);
    NoteInv(b, "blocked_actions", hooks);
  }

  lemma IdTaken(s: Session, a: Event, hooks: Hooks)
    requires Inv(s, hooks) && a.ActionEvent? && a.id == Raw(s.next) && Fits(a, s.log)
    ensures ReadyFor(s, s.(next := s.next + 1), a, hooks)
  {
    FreshId(s);
    MoreIdsInv(s, hooks);
  }

  lemma ReadyForTransitive(s: Session, t: Session, u: Session, a: Event, hooks: Hooks)
    requires ReadyFor(s, t, a, hooks) && ReadyFor(t, u, a, hooks)
    ensures ReadyFor(s, u, a, hooks)
  {
  }

  lemma UnblockedPrepared(s: Session, a: Event, hooks: Hooks)
    requires a.ActionEvent? && !HookBlocked(a, hooks)
    ensures Prepared(s, a, hooks) == s.(next := s.next + 1)
  {
  }

  lemma BlockedPreparedKeeps(s: Session, a: Event, hooks: Hooks)
    requires Inv(s, hooks) && a.ActionEvent? && a.id == Raw(s.next) && Fits(a, s.log) && HookBlocked(a, hooks)
    ensures var t := Prepared(s, a, hooks);
            ReadyFor(s, t, a, hooks) && a.id in t.blockedActions && s.next < t.next
  {
    var s1 := s.(next := s.next + 1);
    IdTaken(s, a, hooks);
    BlockKeeps(s1, a, hooks.preToolUse(a).value, hooks);
    ReadyForTransitive(s, s1, Prepared(s, a, hooks), a, hooks);
  }

  lemma PreparedKeeps(s: Session, a: Event, hooks: Hooks)
    requires Inv(s, hooks) && a.ActionEvent? && a.id == Raw(s.next) && Fits(a, s.log)
    ensures var t := Prepared(s, a, hooks);
            && ReadyFor(s, t, a, hooks) && s.next < t.next
            && (HookBlocked(a, hooks) ==> a.id in t.blockedActions)
            && (!a.executable ==> t.log == s.log)
  {
    if HookBlocked(a, hooks) {
      BlockedPreparedKeeps(s, a, hooks);
    } else {
      IdTaken(s, a, hooks);
      UnblockedPrepared(s, a, hooks);
    }
  }

  lemma StoreActionKeeps(s: Session, a: Event, hooks: Hooks)
    requires Inv(s, hooks) && a.ActionEvent? && a.id !in Ids(s.log) && Good(a, s.next) && Fits(a, s.log)
    requires HookBlocked(a, hooks) ==> a.id in s.blockedActions && a.id !in s.invoked
    ensures Logged(s.log + [a], s.next) && Guarded(s.(log := s.log + [a]), hooks)
    ensures a.executable ==> Settled(s.log + [a])
  {
    AppendLogged(s.log, s.next, a);
    AnswersStay(s.log, [a]);
    if a.executable {
      AppendSettled(s.log, a);
    }
  }

  // ----- what is pending ------------------------------------------------------------------------

  /** Storing an event that names no action adds at most that event to the pending ones. */
  lemma {:induction false} PendingAppend(log: seq<Event>, e: Event, i: nat)
    requires i <= |log| && !NamesAction(e)
    ensures PendingFrom(log + [e], i) == PendingFrom(log, i) + (if IsExecutable(e) then [e] else [])
    decreases |log| - i
  {
    var log' := log + [e];
    if i < |log| {
      PendingAppend(log, e, i + 1);
      assert AnsweredAfter(log', i) <==> AnsweredAfter(log, i) by {
        assert forall j :: i < j < |log| ==> log'[j] == log[j];
      }
    } else {
      assert PendingFrom(log', |log| + 1) == [];
    }
  }

  // ----- every step keeps the invariant ---------------------------------------------------------

  /** What the LLM and the condenser may put into a step. */
  ghost predicate FreshInput(s: Session, input: StepInput) {
    input.llm.Replied? ==> FreshReply(s, input.llm.reply)
  }

  lemma RejectAllInv(s: Session, actions: seq<Event>, reason: string, hooks: Hooks)
    requires Inv(s, hooks) && OpenAll(actions, s)
    ensures Inv(RejectAll(s, actions, reason), hooks)
    decreases |actions|
  {
    if |actions| > 0 {
      var a, rest := actions[0], actions[1..];
      assert Open(a, s);
      var o := UserRejectObservation(Raw(s.next), a.toolCallId, a.id, reason);
      ResultFits(a, o, s);
      AppendInv(s, o, hooks);
      forall k | 0 <= k < |rest| ensures Open(rest[k], Append(s, o)) {
        assert Open(actions[k + 1], s);
      }
      RejectAllInv(Append(s, o), rest, reason, hooks);
    }
  }

  /** What the state's scan returns is open, too. */
  lemma UnansweredIsOpen(s: Session)
    requires Logged(s.log, s.next)
    ensures OpenAll(UnansweredFrom(s.log, 0), s)
  {
    LoggedIsStored(s.log, s.next);
    PendingIsOpen(s);
    ScansDifferByErrors(s.log);
    var K := PendingSet(s.log) - ErroredSet(s.log);
    KeepMembers(Pending(s.log), K);
    KeepDistinct(Pending(s.log), K);
    var u := UnansweredFrom(s.log, 0);
    forall i | 0 <= i < |u| ensures Open(u[i], s) {
      assert u[i] in u && u[i] in Pending(s.log);
    }
  }

  lemma RejectPendingInv(s: Session, reason: string, hooks: Hooks)
    requires Inv(s, hooks)
    ensures Inv(RejectPending(s, reason), hooks)
  {
    UnansweredIsOpen(s);
    UnansweredAreExecutable(s.log, 0);
    var u := UnansweredFrom(s.log, 0);
    var s1 := if s.status.Waiting? then SetStatus(s, Idle) else s;
    StatusInv(s, Idle, hooks);
    forall i | 0 <= i < |u| ensures Open(u[i], s1) {
      assert Open(u[i], s);
    }
    RejectAllInv(s1, u, reason, hooks);
  }

  lemma AnswerReviewInv(s: Session, content: string, hooks: Hooks)
    requires Inv(s, hooks)
    ensures Inv(AnswerReview(s, content), hooks)
  {
    UnansweredIsOpen(s);
    UnansweredAreExecutable(s.log, 0);
    var u := UnansweredFrom(s.log, 0);
    FirstNamedIn(u, MEMORY_REVIEW);
    if FirstNamed(u, MEMORY_REVIEW).Some? {
      var a := FirstNamed(u, MEMORY_REVIEW).value;
      var i :| 0 <= i < |u| && u[i] == a;
      assert Open(u[i], s);
      var s1 := if s.status.Waiting? then SetStatus(s, Idle) else s;
      StatusInv(s, Idle, hooks);
      assert Open(a, s1);
      var o := ObservationEvent(Raw(s1.next), a.toolCallId, a.id, content);
      ResultFits(a, o, s1);
      AppendInv(s1, o, hooks);
    }
  }

  // ----- whole histories ------------------------------------------------------------------------

  /** After init_state: the system prompt is stored and nothing has happened. */
  function Initial(prompt: string): Session {
    Session([SystemPromptEvent(Raw(0), prompt)], Idle, map[], map[], 1, [])
  }

}
