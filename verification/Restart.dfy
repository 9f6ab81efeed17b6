/** What the start of the service does to a session that was running when the server went down. */
module Restart {
  import opened Events
  import opened FromEvents
  import opened Unmatched
  import opened Session
  import opened SessionInvariant
  import opened SessionSafety
  import opened View
  import opened Runner
  import G = InterleavedInvariant
  import H = InterleavedSafety
  import I = Interleaved
  import Bus = EventCenter
  import E = Execution

  /** Whether what is published without an agent id gets to the consumer that writes the log. */
  predicate ReachesLog(log: Bus.Consumer, conversation: string) {
    log in Bus.Delivered(Bus.Subscribed(map[], log), Bus.Published({"Event"}), Some(conversation), None)
  }

  const RESTARTED := "A restart occurred while this tool was in progress."

  /** What start() does to the session it finds. */
  function Recovered(s: Session, logConsumer: Bus.Consumer, conversation: string): Session {
    if !s.status.Running? then s
    else
      var s1 := SetStatus(s, Failed);
      var unmatched := UnansweredFrom(s1.log, 0);
      UnansweredAreExecutable(s1.log, 0);
      if |unmatched| == 0 || !ReachesLog(logConsumer, conversation) then s1
      else
        assert unmatched[0] in unmatched;
        Append(s1, AgentErrorEvent(Raw(s1.next), unmatched[0].toolCallId, RESTARTED))
  }

  /** The recovery in start(), for a conversation whose log is written by logConsumer. */
  method Recover(runner: AgentRunner, logConsumer: Bus.Consumer, conversation: string)
    modifies runner
    ensures runner.State() == Recovered(old(runner.State()), logConsumer, conversation)
  {
    if runner.status != Running {
      return;
    }
    runner.SetExecutionStatus(Failed);
    var unmatched := StateUnmatchedActions(runner.log);
    UnansweredAreExecutable(runner.log, 0);
    if |unmatched| > 0 {
      var firstAction := unmatched[0];
      assert firstAction in unmatched;
      var center := new Bus.Center();
      center.Subscribe(logConsumer);
      var called := center.Publish(Bus.Published({"Event"}), Some(conversation), None);
      if logConsumer in called {
        runner.PublishEvent(AgentErrorEvent(Raw(runner.next), firstAction.toolCallId, RESTARTED));
      }
    }
  }

  /** The log consumer of the conversation, as it is registered for an agent or for all. */
  predicate IsLogConsumer(c: Bus.Consumer, conversation: string) {
    c.conversation == Some(conversation) && c.types == Some({"Event"})
  }

  lemma ReachesLogIff(c: Bus.Consumer, conversation: string)
    requires IsLogConsumer(c, conversation)
    ensures ReachesLog(c, conversation) <==> c.agent.None?
  {
    var index := Bus.Subscribed(map[], c);
    assert Bus.ConversationKey(conversation)[0] == 'c' && "global"[0] == 'g';
    if c.agent.None? {
      assert Bus.Targets(index, Some(conversation), None) == [c];
      assert [c][..0] == [] && "Event" in c.types.value;
    } else {
      assert |Bus.SubscriptionKey(c)| > |Bus.ConversationKey(conversation)|;
      assert Bus.Targets(index, Some(conversation), None) == [];
    }
  }

  /** The actions without those of one tool call. */
  function WithoutCall(actions: seq<Event>, call: ToolCallId): seq<Event>
    requires forall a :: a in actions ==> a.ActionEvent?
  {
    if |actions| == 0 then []
    else if actions[0].toolCallId == call then WithoutCall(actions[1..], call)
    else [actions[0]] + WithoutCall(actions[1..], call)
  }

  lemma {:induction false} UnansweredAfterError(log: seq<Event>, o: Event, i: nat)
    requires i <= |log| && o.AgentErrorEvent?
    ensures forall a :: a in UnansweredFrom(log, i) ==> a.ActionEvent?
    ensures UnansweredFrom(log + [o], i) == WithoutCall(UnansweredFrom(log, i), o.toolCallId)
    decreases |log| - i
  {
    var log' := log + [o];
    UnansweredAreExecutable(log, i);
    if i < |log| {
      UnansweredAfterError(log, o, i + 1);
      assert AnsweredAfter(log', i) <==> AnsweredAfter(log, i) by {
        assert forall j :: i < j < |log| ==> log'[j] == log[j];
      }
      if log[i].ActionEvent? {
        ErrorsAfter(log, o, i);
      }
      var rest := UnansweredFrom(log, i + 1);
      assert ([log[i]] + rest)[1..] == rest;
    } else {
      assert UnansweredFrom(log', |log| + 1) == [];
    }
  }

  lemma ErrorsAfter(log: seq<Event>, o: Event, i: nat)
    requires i < |log| && o.AgentErrorEvent? && log[i].ActionEvent?
    ensures ErroredAfter(log + [o], i) <==> ErroredAfter(log, i) || log[i].toolCallId == o.toolCallId
  {
    var log' := log + [o];
    assert log'[|log|] == o && forall j :: 0 <= j < |log| ==> log'[j] == log[j];
  }

  lemma {:induction false} UnansweredAfterNote(log: seq<Event>, n: Event, i: nat)
    requires i <= |log| && n.StateEvent?
    ensures UnansweredFrom(log + [n], i) == UnansweredFrom(log, i)
    decreases |log| - i
  {
    var log' := log + [n];
    if i < |log| {
      UnansweredAfterNote(log, n, i + 1);
      assert forall j :: i < j < |log| ==> log'[j] == log[j];
      assert AnsweredAfter(log', i) <==> AnsweredAfter(log, i);
      assert log[i].ActionEvent? ==> (ErroredAfter(log', i) <==> ErroredAfter(log, i));
    } else {
      assert UnansweredFrom(log', |log| + 1) == [];
    }
  }

  lemma {:induction false} WithoutAbsentCall(actions: seq<Event>, call: ToolCallId)
    requires forall a :: a in actions ==> a.ActionEvent? && a.toolCallId != call
    ensures WithoutCall(actions, call) == actions
  {
    if |actions| > 0 {
      WithoutAbsentCall(actions[1..], call);
    }
  }

  lemma UnansweredCallsDiffer(s: Session)
    requires Logged(s.log, s.next)
    ensures var u := UnansweredFrom(s.log, 0);
            forall k :: 0 < k < |u| ==> u[0].ActionEvent? && u[k].ActionEvent? && u[k].toolCallId != u[0].toolCallId
  {
    var u := UnansweredFrom(s.log, 0);
    UnansweredAreExecutable(s.log, 0);
    UnansweredIsOpen(s);
    LoggedIsStored(s.log, s.next);
    forall k | 0 < k < |u| ensures u[0].ActionEvent? && u[k].ActionEvent? && u[k].toolCallId != u[0].toolCallId {
      var i :| 0 <= i < |s.log| && s.log[i] == u[0];
      var j :| 0 <= j < |s.log| && s.log[j] == u[k];
      assert u[0].id != u[k].id;
      assert Before(s.log[if i < j then i else j], s.log[if i < j then j else i]);
    }
  }

  /** After a restart of a running session the status is ERROR. The state's list of pending actions
      has lost exactly its first element if the log consumer takes every agent's events, and is
      unchanged if it is registered for one agent, as it is. The server may have gone down anywhere. */
  lemma RestartLosesFirst(s: Session, c: Bus.Consumer, conversation: string)
    requires Logged(s.log, s.next) && s.status.Running? && IsLogConsumer(c, conversation)
    ensures var t, u := Recovered(s, c, conversation), UnansweredFrom(s.log, 0);
            && t.status.Failed?
            && UnansweredFrom(t.log, 0) == if |u| > 0 && c.agent.None? then u[1..] else u
  {
    var s1, u := SetStatus(s, Failed), UnansweredFrom(s.log, 0);
    ReachesLogIff(c, conversation);
    UnansweredAfterNote(s.log, StateEvent(Raw(s.next), "execution_status"), 0);
    assert UnansweredFrom(s1.log, 0) == u;
    if |u| > 0 && c.agent.None? {
      UnansweredAreExecutable(s1.log, 0);
      assert u[0] in u;
      UnansweredAfterError(s1.log, AgentErrorEvent(Raw(s1.next), u[0].toolCallId, RESTARTED), 0);
      UnansweredCallsDiffer(s);
      forall a | a in u[1..] ensures a.toolCallId != u[0].toolCallId {
        var k :| 0 <= k < |u[1..]| && u[1..][k] == a;
        assert u[k + 1] == a;
      }
      WithoutAbsentCall(u[1..], u[0].toolCallId);
    }
  }

  /** What the runner finds pending is the same as before, and so are the marks; a session that was not
      running is left alone. */
  lemma RestartKeepsPending(s: Session, c: Bus.Consumer, conversation: string)
    ensures var t := Recovered(s, c, conversation);
            && Pending(t.log) == Pending(s.log) && s.log <= t.log
            && t.blockedActions == s.blockedActions && t.blockedMessages == s.blockedMessages && t.invoked == s.invoked
            && (!s.status.Running? ==> t == s)
  {
    var s1 := SetStatus(s, Failed);
    PendingAppend(s.log, StateEvent(Raw(s.next), "execution_status"), 0);
    var u := UnansweredFrom(s1.log, 0);
    UnansweredAreExecutable(s1.log, 0);
    if |u| > 0 {
      assert u[0] in u;
      PendingAppend(s1.log, AgentErrorEvent(Raw(s1.next), u[0].toolCallId, RESTARTED), 0);
    }
  }

  lemma RestartStoresNoMessage(s: Session, c: Bus.Consumer, conversation: string)
    ensures var t := Recovered(s, c, conversation).log;
            s.log <= t && forall k :: |s.log| <= k < |t| ==> !IsUserMessage(t[k])
  {
  }

  // ----- between two publications -----------------------------------------------------------------

  /** A session that keeps its invariant keeps it over a restart. */
  lemma RestartInv(s: Session, hooks: Hooks, c: Bus.Consumer, conversation: string)
    requires Inv(s, hooks)
    ensures Inv(Recovered(s, c, conversation), hooks) && !Recovered(s, c, conversation).status.Running?
  {
    if s.status.Running? {
      var s1 := SetStatus(s, Failed);
      StatusInv(s, Failed, hooks);
      var u := UnansweredFrom(s1.log, 0);
      UnansweredAreExecutable(s1.log, 0);
      if |u| > 0 {
        var o := AgentErrorEvent(Raw(s1.next), u[0].toolCallId, RESTARTED);
        assert u[0] in s1.log;
        assert Backed(o, s1.log);
        AppendInv(s1, o, hooks);
      }
    }
  }

  ghost predicate HasResult(log: seq<Event>, call: ToolCallId) {
    exists o :: o in log && o.IsObservation() && o.toolCallId == call
  }

  lemma CallsDiffer(s: Session, a: Event, b: Event)
    requires Logged(s.log, s.next) && a in s.log && b in s.log && a.ActionEvent? && b.ActionEvent? && a != b
    ensures a.toolCallId != b.toolCallId
  {
    var i :| 0 <= i < |s.log| && s.log[i] == a;
    var j :| 0 <= j < |s.log| && s.log[j] == b;
    assert Before(s.log[if i < j then i else j], s.log[if i < j then j else i]);
  }

  /** a could not be executed, and has no result. */
  ghost predicate Unsettled(s: Session, a: Event, hooks: Hooks) {
    G.InvButError(s, a, hooks) && !HasResult(s.log, a.toolCallId)
  }

  lemma StoreBesides(s: Session, e: Event, a: Event, hooks: Hooks)
    requires Unsettled(s, a, hooks) && e.id == Raw(s.next) && !e.ActionEvent? && !e.CondensationSummaryEvent?
    requires Fits(e, s.log) && (e.IsObservation() ==> e.toolCallId != a.toolCallId)
    ensures Unsettled(Append(s, e), a, hooks)
  {
    G.AppendBut(s, e, a, hooks);
  }

  lemma FailedBesides(s: Session, a: Event, hooks: Hooks)
    requires Unsettled(s, a, hooks)
    ensures Unsettled(SetStatus(s, Failed), a, hooks)
  {
    assert Unsettled(s.(status := Failed), a, hooks);
    StoreBesides(s.(status := Failed), StateEvent(Raw(s.next), "execution_status"), a, hooks);
  }

  lemma ErrorBesides(s: Session, b: Event, a: Event, hooks: Hooks)
    requires Unsettled(s, a, hooks) && b in s.log && IsExecutable(b)
    ensures Unsettled(Append(s, AgentErrorEvent(Raw(s.next), b.toolCallId, RESTARTED)), a, hooks)
  {
    CallsDiffer(s, b, a);
    var o := AgentErrorEvent(Raw(s.next), b.toolCallId, RESTARTED);
    assert Backed(o, s.log);
    StoreBesides(s, o, a, hooks);
  }

  /** Window one: an action that cannot be executed is stored, its error is not. A restart does not
      store it either, and both scans pass the action over. */
  lemma RestartLeavesUnsettled(s: Session, a: Event, hooks: Hooks, c: Bus.Consumer, conversation: string)
    requires Unsettled(s, a, hooks)
    ensures var t := Recovered(s, c, conversation);
            Unsettled(t, a, hooks) && a !in Pending(t.log) && a !in UnansweredFrom(t.log, 0)
  {
    var t := Recovered(s, c, conversation);
    if s.status.Running? {
      var s1 := SetStatus(s, Failed);
      FailedBesides(s, a, hooks);
      var u := UnansweredFrom(s1.log, 0);
      UnansweredAreExecutable(s1.log, 0);
      if |u| > 0 {
        assert u[0] in u;
        ErrorBesides(s1, u[0], a, hooks);
      }
    }
    PendingAreExecutable(t.log, 0);
    UnansweredAreExecutable(t.log, 0);
  }

  lemma LandBesides(s: Session, o: I.Outside, a: Event, hooks: Hooks)
    requires Unsettled(s, a, hooks)
    ensures Unsettled(I.Land(s, o), a, hooks)
  {
    G.LandBut(s, o, a, hooks);
    if I.CanAnswer(s, o) {
      CallsDiffer(s, s.log[o.i], a);
    }
  }

  lemma {:induction false} LandAllBesides(s: Session, os: seq<I.Outside>, a: Event, hooks: Hooks)
    requires Unsettled(s, a, hooks)
    ensures Unsettled(I.LandAll(s, os), a, hooks)
    decreases |os|
  {
    if |os| > 0 {
      LandBesides(s, os[0], a, hooks);
      LandAllBesides(I.Land(s, os[0]), os[1..], a, hooks);
    }
  }

  /** That is where a crash between the two leaves the session, whatever else lands. */
  lemma CrashBeforeError(s: Session, reply: Reply, k: nat, hooks: Hooks, land: I.Landing)
    requires Inv(s, hooks) && CanAdd(s, reply, k) && k < |reply.calls| && reply.calls[k].error.Some?
    ensures Unsettled(I.PublishAction(s, ActionFor(s, reply, k), hooks, land), ActionFor(s, reply, k), hooks)
  {
    var a := ActionFor(s, reply, k);
    G.ReadyToStore(s, a, hooks, land);
    var s1 := I.Let(Prepared(s, a, hooks), land);
    StoreActionKeeps(s1, a, hooks);
    G.ButAfterStoring(s1, a, hooks);
    var s2 := s1.(log := s1.log + [a]);
    forall o | o in s2.log && o.IsObservation() ensures o.toolCallId != a.toolCallId {
      assert Backed(o, s1.log);
    }
    LandAllBesides(s2, land(s2), a, hooks);
  }

  lemma StableNeedsResults(view: seq<Event>, all: seq<Event>, K: set<Event>, a: Event, b: Event)
    requires Stable(view, all, K) && a in all && b in all && SameBatch(a, b)
    requires forall o :: o in view && o.IsObservation() ==> o.toolCallId != a.toolCallId
    ensures a !in K && b !in K
  {
    assert a in K ==> Answered(a, K);
  }

  lemma ViewIsStable(log: seq<Event>)
    requires StoredLog(log)
    ensures Stable(Visible(log), log, Elements(ViewEvents(log)))
  {
    ViewIsGreatestStable(log);
  }

  /** As long as no result for its call is stored, the view has neither the action nor any other of its
      response: the LLM does not see the batch. */
  lemma UnsettledBatchIsNotSeen(s: Session, a: Event, b: Event)
    requires Logged(s.log, s.next) && a in s.log && b in s.log && SameBatch(a, b)
    requires !HasResult(s.log, a.toolCallId)
    ensures a !in ViewEvents(s.log) && b !in ViewEvents(s.log)
  {
    LoggedIsStored(s.log, s.next);
    VisibleProperties(s.log);
    ViewIsStable(s.log);
    forall o | o in Visible(s.log) && o.IsObservation() ensures o.toolCallId != a.toolCallId {
      assert Derived(o, s.log);
    }
    StableNeedsResults(Visible(s.log), s.log, Elements(ViewEvents(s.log)), a, b);
  }

  /** Executing takes marks away, never sets one. */
  lemma {:induction false} ReachedUnblocked(s: Session, actions: seq<Event>, k: nat, tool: Event -> ToolResult,
                                            land: I.Landing)
    requires k <= |actions| && forall a :: a in actions ==> a.ActionEvent?
    ensures var r := H.Reached(s, actions, k, tool, land);
            r.Some? ==> r.value.blockedActions.Keys <= s.blockedActions.Keys
    decreases k
  {
    if k > 0 {
      ReachedUnblocked(s, actions, k - 1, tool, land);
      if H.Reached(s, actions, k - 1, tool, land).Some? {
        E.ExecutedOne(H.Reached(s, actions, k - 1, tool, land).value, actions[k - 1], tool, land);
      }
    }
  }

  /** Window two: the mark of a blocked action is taken, its rejection not stored. The action is pending
      and no longer marked: the next step hands it to its tool exactly if it gets to it and the tool is
      there. Without the crash no step ever would. */
  lemma CrashUnblocks(s: Session, k: nat, hooks: Hooks, c: Bus.Consumer, conversation: string,
                      tool: Event -> ToolResult, land: I.Landing)
    requires Inv(s, hooks) && k < |Pending(s.log)| && Pending(s.log)[k].id in s.blockedActions
    requires forall a :: a in Pending(s.log) ==> a.ActionEvent?
    ensures var a := Pending(s.log)[k];
            var t := Recovered(PopBlockedAction(s, a.id), c, conversation);
            && Pending(t.log) == Pending(s.log) && a.id !in t.blockedActions && !IsAnswered(a, t.log)
            && (H.CallsTool(I.Let(t, land), Pending(s.log), k, tool, land) <==>
                  H.Reached(I.Let(t, land), Pending(s.log), k, tool, land).Some? && !tool(a).NoSuchTool?)
  {
    var a := Pending(s.log)[k];
    var s1 := PopBlockedAction(s, a.id);
    StillOpen(s, a);
    RestartKeepsPending(s1, c, conversation);
    AnswersPersist(s1, a, c, conversation);
    var t := Recovered(s1, c, conversation);
    G.LetAdds(t, land);
    ReachedUnblocked(I.Let(t, land), Pending(s.log), k, tool, land);
  }

  lemma StillOpen(s: Session, a: Event)
    requires Logged(s.log, s.next) && a in Pending(s.log) && a.id in s.blockedActions
    ensures var t := PopBlockedAction(s, a.id); Pending(t.log) == Pending(s.log) && !IsAnswered(a, t.log)
  {
    PendingAppend(s.log, StateEvent(Raw(s.next), "blocked_actions"), 0);
    PendingIsOpen(s);
    var i :| 0 <= i < |Pending(s.log)| && Pending(s.log)[i] == a;
    assert Open(Pending(s.log)[i], s);
  }

  /** A restart answers nothing. */
  lemma AnswersPersist(s: Session, a: Event, c: Bus.Consumer, conversation: string)
    requires !IsAnswered(a, s.log)
    ensures !IsAnswered(a, Recovered(s, c, conversation).log)
  {
  }

  /** Window three: the tool has been called, its result is not stored. The session keeps its invariant;
      the action is pending as before, and the next step that gets to it calls its tool again. */
  lemma CrashRepeats(s: Session, k: nat, hooks: Hooks, c: Bus.Consumer, conversation: string,
                     tool: Event -> ToolResult, land: I.Landing)
    requires Inv(s, hooks) && k < |Pending(s.log)| && Pending(s.log)[k].id !in s.blockedActions
    requires forall a :: a in Pending(s.log) ==> a.ActionEvent?
    ensures var a := Pending(s.log)[k];
            var t := Recovered(s.(invoked := s.invoked + [a.id]), c, conversation);
            && Inv(t, hooks) && a.id in t.invoked && Pending(t.log) == Pending(s.log)
            && (H.CallsTool(I.Let(t, land), Pending(s.log), k, tool, land) <==>
                  H.Reached(I.Let(t, land), Pending(s.log), k, tool, land).Some? && !tool(a).NoSuchTool?)
  {
    var a := Pending(s.log)[k];
    var s1 := s.(invoked := s.invoked + [a.id]);
    PendingIsOpen(s);
    assert Open(a, s) && Good(a, s.next);
    InvokedInv(s, a, hooks);
    RestartInv(s1, hooks, c, conversation);
    RestartKeepsPending(s1, c, conversation);
    var t := Recovered(s1, c, conversation);
    G.LetAdds(t, land);
    ReachedUnblocked(I.Let(t, land), Pending(s.log), k, tool, land);
  }

  lemma InvokedInv(s: Session, a: Event, hooks: Hooks)
    requires Inv(s, hooks) && Open(a, s) && Good(a, s.next) && a.id !in s.blockedActions
    ensures Inv(s.(invoked := s.invoked + [a.id]), hooks)
  {
    forall b | b in s.log && HookBlocked(b, hooks) ensures b.id != a.id {
      if b.id == a.id {
        SameId(s, a, b);
      }
    }
  }

  lemma {:induction false} BlockedIsMarked(s: Session, n: nat)
    requires n <= |s.log| && BlockedLastMessage(s, n).Some?
    ensures BlockedLastMessage(s, n).value in s.blockedMessages
    decreases n
  {
    if !IsUserMessage(s.log[n - 1]) {
      BlockedIsMarked(s, n - 1);
    }
  }

  lemma {:induction false} LastMessageUnblocked(s: Session, t: Session, n: nat, m: nat, id: EventId)
    requires n <= |s.log| && s.log <= t.log && n <= m <= |t.log|
    requires BlockedLastMessage(s, n) == Some(id) && id !in t.blockedMessages
    requires forall k :: n <= k < m ==> !IsUserMessage(t.log[k])
    ensures BlockedLastMessage(t, m).None?
    decreases m
  {
    if m > n {
      LastMessageUnblocked(s, t, n, m - 1, id);
    } else if !IsUserMessage(s.log[n - 1]) {
      LastMessageUnblocked(s, t, n - 1, m - 1, id);
    }
  }

  /** Window four: the mark of a blocked user message is taken, FINISHED is not set. The next step gets
      to the LLM, with the blocked message in the log. */
  lemma CrashAnswersBlockedMessage(s: Session, id: EventId, hooks: Hooks, c: Bus.Consumer, conversation: string)
    requires Inv(s, hooks) && Pending(s.log) == [] && BlockedLastMessage(s, |s.log|) == Some(id)
    ensures var t := Recovered(PopBlockedMessage(s, id), c, conversation);
            !ReachesLLM(s) && ReachesLLM(t) && Inv(t, hooks)
  {
    var s1 := PopBlockedMessage(s, id);
    var note := StateEvent(Raw(s.next), "blocked_messages");
    BlockedIsMarked(s, |s.log|);
    assert s1.log == s.log + [note];
    var b := s.(blockedMessages := s.blockedMessages - {id});
    assert Inv(b, hooks);
    NoteInv(b, "blocked_messages", hooks);
    RestartInv(s1, hooks, c, conversation);
    PendingAppend(s.log, note, 0);
    RestartKeepsPending(s1, c, conversation);
    RestartStoresNoMessage(s1, c, conversation);
    var t := Recovered(s1, c, conversation);
    forall k | |s.log| <= k < |t.log| ensures !IsUserMessage(t.log[k]) {
      assert k == |s.log| ==> t.log[k] == s1.log[k];
    }
    LastMessageUnblocked(s, t, |s.log|, |t.log|, id);
  }
}
