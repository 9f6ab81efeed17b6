/** What the LLM gets to see over a whole history: if every condensation forgets a slice between two cut
    points of the view, and nothing is answered twice from outside, the filters never drop anything at
    an LLM call, and every summary lands where the condenser meant it. */
module SessionViews {
  import opened Events
  import opened View
  import opened Condenser
  import opened Manipulation
  import opened FromEvents
  import opened Unmatched
  import opened Session
  import opened SessionInvariant
  import G = InterleavedInvariant
  import H = InterleavedSafety
  import I = Interleaved
  import SessionSafety

  // ----- units ------------------------------------------------------------------------------------

  /** An action and its results are visible together. */
  ghost predicate PairsWhole(log: seq<Event>) {
    forall a, o :: a in log && o in log && a.ActionEvent? && o.IsObservation() && o.toolCallId == a.toolCallId ==>
      (a in Visible(log) <==> o in Visible(log))
  }

  ghost predicate BatchesWhole(log: seq<Event>) {
    forall a, b :: a in log && b in log && SameBatch(a, b) ==> (a in Visible(log) <==> b in Visible(log))
  }

  ghost predicate OpenSeen(log: seq<Event>) {
    forall a :: a in log && IsExecutable(a) && !IsAnswered(a, log) ==> a in Visible(log)
  }

  /** What condensations leave whole, and what can still be answered is visible. */
  ghost predicate Units(s: Session) {
    Logged(s.log, s.next) && PairsWhole(s.log) && BatchesWhole(s.log) && OpenSeen(s.log)
  }

  /** What is visible stays so. */
  ghost predicate Shows(s: Session, t: Session) {
    s.log <= t.log && forall e :: e in Visible(s.log) ==> e in Visible(t.log)
  }

  lemma VisibleAppend(log: seq<Event>, e: Event)
    requires !e.Condensation?
    ensures Visible(log + [e]) == Visible(log) + (if e.IsLLMConvertible() then [e] else [])
  {
    assert (log + [e])[..|log|] == log;
  }

  /** What a new event must meet to keep the units whole. */
  ghost predicate Joins(e: Event, log: seq<Event>) {
    && !e.Condensation? && Fits(e, log)
    && (e.ActionEvent? ==> forall b :: b in log && SameBatch(b, e) ==> b in Visible(log))
    && (e.IsObservation() ==>
          forall a :: a in log && a.ActionEvent? && a.toolCallId == e.toolCallId ==> a in Visible(log))
  }

  lemma PairsJoin(log: seq<Event>, next: nat, e: Event)
    requires Logged(log, next) && PairsWhole(log) && Joins(e, log)
    ensures PairsWhole(log + [e])
  {
    VisibleAppend(log, e);
    var log' := log + [e];
    forall o | o in log && o.IsObservation() && e.ActionEvent? ensures o.toolCallId != e.toolCallId {
      assert Backed(o, log);
    }
    forall a, o | a in log' && o in log' && a.ActionEvent? && o.IsObservation() && o.toolCallId == a.toolCallId
      ensures a in Visible(log') <==> o in Visible(log')
    {
      if a in log && o in log {
        assert a in Visible(log) <==> o in Visible(log);
      }
    }
  }

  lemma BatchesJoin(log: seq<Event>, e: Event)
    requires BatchesWhole(log) && Joins(e, log)
    ensures BatchesWhole(log + [e])
  {
    VisibleAppend(log, e);
    var log' := log + [e];
    forall a, b | a in log' && b in log' && SameBatch(a, b) ensures a in Visible(log') <==> b in Visible(log') {
      if a in log && b in log {
        assert a in Visible(log) <==> b in Visible(log);
      } else {
        assert SameBatch(b, a);
      }
    }
  }

  lemma OpenJoin(log: seq<Event>, e: Event)
    requires OpenSeen(log) && !e.Condensation?
    ensures OpenSeen(log + [e])
  {
    VisibleAppend(log, e);
    AnswersStay(log, [e]);
  }

  /** Storing an event. */
  lemma StoreUnits(s: Session, e: Event, next: nat)
    requires Units(s) && Joins(e, s.log) && e.id !in Ids(s.log) && next >= s.next && Good(e, next)
    ensures var t := s.(log := s.log + [e], next := next);
            Units(t) && Shows(s, t) && (e.IsLLMConvertible() ==> e in Visible(t.log))
  {
    AppendLogged(s.log, s.next, e);
    PairsJoin(s.log, s.next, e);
    BatchesJoin(s.log, e);
    OpenJoin(s.log, e);
    VisibleAppend(s.log, e);
  }

  lemma AppendUnits(s: Session, e: Event)
    requires Units(s) && Joins(e, s.log) && e.id == Raw(s.next) && !e.ActionEvent? && !e.CondensationSummaryEvent?
    ensures Units(Append(s, e)) && Shows(s, Append(s, e))
  {
    FreshId(s);
    StoreUnits(s, e, s.next + 1);
  }

  lemma NoteUnits(s: Session, key: string)
    requires Units(s)
    ensures Units(Note(s, key)) && Shows(s, Note(s, key))
  {
    AppendUnits(s, StateEvent(Raw(s.next), key));
  }

  lemma StatusUnits(s: Session, status: Status)
    requires Units(s)
    ensures Units(SetStatus(s, status)) && Shows(s, SetStatus(s, status))
  {
    NoteUnits(s.(status := status), "execution_status");
  }

  /** A result for a visible action. */
  lemma ResultUnits(s: Session, a: Event, o: Event)
    requires Units(s) && a in s.log && a.ActionEvent? && a in Visible(s.log)
    requires o.id == Raw(s.next) && o.IsObservation() && o.toolCallId == a.toolCallId
             && (NamesAction(o) ==> o.actionId == a.id)
    ensures Units(Append(s, o)) && Shows(s, Append(s, o))
  {
    ResultFits(a, o, s);
    LoggedIsStored(s.log, s.next);
    forall b | b in s.log && b.ActionEvent? && b.toolCallId == o.toolCallId ensures b == a {
      SameCall(s, a, b);
    }
    AppendUnits(s, o);
  }

  lemma SameCall(s: Session, a: Event, b: Event)
    requires Logged(s.log, s.next) && a in s.log && b in s.log && a.ActionEvent? && b.ActionEvent?
    requires a.toolCallId == b.toolCallId
    ensures a == b
  {
    var i :| 0 <= i < |s.log| && s.log[i] == a;
    var j :| 0 <= j < |s.log| && s.log[j] == b;
    assert forall m, n :: 0 <= m < n < |s.log| ==> Before(s.log[m], s.log[n]);
  }

  // ----- what lands -------------------------------------------------------------------------------

  /** An answer from outside goes to an action that has none yet. */
  ghost predicate PoliteTo(s: Session, o: I.Outside) {
    I.CanAnswer(s, o) ==> !IsAnswered(s.log[o.i], s.log)
  }

  ghost predicate PoliteAll(s: Session, os: seq<I.Outside>)
    decreases |os|
  {
    |os| > 0 ==> PoliteTo(s, os[0]) && PoliteAll(I.Land(s, os[0]), os[1..])
  }

  ghost predicate Polite(land: I.Landing) {
    forall s :: PoliteAll(s, land(s))
  }

  lemma LandUnits(s: Session, o: I.Outside)
    requires Units(s) && PoliteTo(s, o)
    ensures Units(I.Land(s, o)) && Shows(s, I.Land(s, o))
  {
    match o
    case Rejects(i, reason) =>
      if I.CanAnswer(s, o) {
        ResultUnits(s, s.log[i], UserRejectObservation(Raw(s.next), s.log[i].toolCallId, s.log[i].id, reason));
      }
    case Answers(i, content) =>
      if I.CanAnswer(s, o) {
        ResultUnits(s, s.log[i], ObservationEvent(Raw(s.next), s.log[i].toolCallId, s.log[i].id, content));
      }
    case Pauses => StatusUnits(s, Paused);
    case Fails => StatusUnits(s, Failed);
    case Idles => StatusUnits(s, Idle);
    case Notes(key) => NoteUnits(s, key);
  }

  lemma {:induction false} LandAllUnits(s: Session, os: seq<I.Outside>)
    requires Units(s) && PoliteAll(s, os)
    ensures Units(I.LandAll(s, os)) && Shows(s, I.LandAll(s, os))
    decreases |os|
  {
    if |os| > 0 {
      LandUnits(s, os[0]);
      LandAllUnits(I.Land(s, os[0]), os[1..]);
    }
  }

  lemma LetUnits(s: Session, land: I.Landing)
    requires Units(s) && Polite(land)
    ensures Units(I.Let(s, land)) && Shows(s, I.Let(s, land))
  {
    LandAllUnits(s, land(s));
  }

  lemma StatusLetUnits(s: Session, status: Status, land: I.Landing)
    requires Units(s) && Polite(land)
    ensures var t := I.Let(SetStatus(s, status), land); Units(t) && Shows(s, t)
  {
    StatusUnits(s, status);
    LetUnits(SetStatus(s, status), land);
  }

  lemma NoteLetUnits(s: Session, key: string, land: I.Landing)
    requires Units(s) && Polite(land)
    ensures var t := I.Let(Note(s, key), land); Units(t) && Shows(s, t)
  {
    NoteUnits(s, key);
    LetUnits(Note(s, key), land);
  }

  lemma ResultLetUnits(s: Session, a: Event, o: Event, land: I.Landing)
    requires Units(s) && Polite(land) && a in s.log && a.ActionEvent? && a in Visible(s.log)
    requires o.id == Raw(s.next) && o.IsObservation() && o.toolCallId == a.toolCallId
             && (NamesAction(o) ==> o.actionId == a.id)
    ensures Units(I.Store(s, o, land)) && Shows(s, I.Store(s, o, land))
  {
    ResultUnits(s, a, o);
    LetUnits(Append(s, o), land);
  }

  // ----- executing --------------------------------------------------------------------------------

  ghost predicate AllSeen(actions: seq<Event>, s: Session) {
    forall a :: a in actions ==> a.ActionEvent? && a in s.log && a in Visible(s.log)
  }

  lemma StaysSeen(actions: seq<Event>, s: Session, t: Session)
    requires AllSeen(actions, s) && Shows(s, t)
    ensures AllSeen(actions, t)
  {
    forall a | a in actions ensures a in t.log {
      var i :| 0 <= i < |s.log| && s.log[i] == a;
      assert t.log[i] == a;
    }
  }

  lemma MarkUnits(s: Session, id: EventId)
    requires Units(s)
    ensures Units(PopBlockedAction(s, id)) && Shows(s, PopBlockedAction(s, id))
  {
    NoteUnits(s.(blockedActions := s.blockedActions - {id}), "blocked_actions");
  }

  lemma RejectUnits(s: Session, a: Event, tool: Event -> ToolResult, land: I.Landing)
    requires Units(s) && Polite(land) && AllSeen([a], s) && a.id in s.blockedActions
    ensures var t := I.ExecuteAction(s, a, tool, land).s; Units(t) && Shows(s, t)
  {
    var s1 := PopBlockedAction(s, a.id);
    MarkUnits(s, a.id);
    LetUnits(s1, land);
    var s2 := I.Let(s1, land);
    StaysSeen([a], s, s2);
    assert a in [a];
    ResultLetUnits(s2, a, UserRejectObservation(Raw(s2.next), a.toolCallId, a.id, s.blockedActions[a.id]), land);
  }

  lemma ToolUnits(s: Session, a: Event, tool: Event -> ToolResult, land: I.Landing)
    requires Units(s) && Polite(land) && AllSeen([a], s) && a.id !in s.blockedActions
    ensures var t := I.ExecuteAction(s, a, tool, land).s; Units(t) && Shows(s, t)
  {
    LetUnits(s.(invoked := s.invoked + [a.id]), land);
    var s1 := I.Invoke(s, a, land);
    StaysSeen([a], s, s1);
    assert a in [a] && Good(a, s.next);
    match tool(a)
    case ValueError(error) => ResultLetUnits(s1, a, AgentErrorEvent(Raw(s1.next), a.toolCall.id, error), land);
    case Observed(content) =>
      var o := ObservationEvent(Raw(s1.next), a.toolCall.id, a.id, content);
      ResultLetUnits(s1, a, o, land);
      StatusLetUnits(I.Store(s1, o, land), Finished, land);
    case _ =>
  }

  lemma {:induction false} ExecuteUnits(s: Session, actions: seq<Event>, tool: Event -> ToolResult, land: I.Landing)
    requires Units(s) && Polite(land) && AllSeen(actions, s)
    ensures var t := I.ExecuteActions(s, actions, tool, land).s; Units(t) && Shows(s, t)
    decreases |actions|
  {
    if |actions| > 0 {
      var a, rest := actions[0], actions[1..];
      assert AllSeen([a], s);
      if a.id in s.blockedActions {
        RejectUnits(s, a, tool, land);
      } else {
        ToolUnits(s, a, tool, land);
      }
      var t := I.ExecuteAction(s, a, tool, land).s;
      if !I.ExecuteAction(s, a, tool, land).raised {
        StaysSeen(actions, s, t);
        ExecuteUnits(t, rest, tool, land);
      }
    }
  }

  lemma PendingSeen(s: Session)
    requires Units(s)
    ensures AllSeen(Pending(s.log), s)
  {
    PendingIsOpen(s);
    forall a | a in Pending(s.log) ensures a.ActionEvent? && a in s.log && a in Visible(s.log) {
      var i :| 0 <= i < |Pending(s.log)| && Pending(s.log)[i] == a;
      assert Open(Pending(s.log)[i], s);
    }
  }

  // ----- storing a reply ----------------------------------------------------------------------------

  /** What is stored of a response so far is visible. */
  ghost predicate ResponseSeen(s: Session, response: ResponseId) {
    forall b :: b in s.log && b.ActionEvent? && b.responseId == response ==> b in Visible(s.log)
  }

  lemma PreparedUnits(s: Session, a: Event, hooks: Hooks)
    requires Units(s) && a.ActionEvent?
    ensures Units(Prepared(s, a, hooks)) && Shows(s, Prepared(s, a, hooks))
  {
    var s1 := s.(next := s.next + 1);
    NextIdUnits(s);
    if a.executable && hooks.preToolUse(a).Some? {
      NoteUnits(s1.(blockedActions := s1.blockedActions[a.id := hooks.preToolUse(a).value]), "blocked_actions");
    }
  }

  lemma OldResponseSeen(s: Session, t: Session, response: ResponseId)
    requires ResponseSeen(s, response) && Shows(s, t)
    requires forall b :: b in t.log && b.ActionEvent? ==> b in s.log
    ensures ResponseSeen(t, response)
  {
  }

  lemma PublishUnits(s: Session, a: Event, hooks: Hooks, land: I.Landing)
    requires Inv(s, hooks) && Units(s) && Polite(land)
    requires a.ActionEvent? && a.id == Raw(s.next) && a.toolCall.id == a.toolCallId && Fits(a, s.log)
    requires ResponseSeen(s, a.responseId)
    ensures var t := I.PublishAction(s, a, hooks, land);
            Units(t) && Shows(s, t) && AllSeen([a], t) && ResponseSeen(t, a.responseId)
  {
    var s1 := Prepared(s, a, hooks);
    var s2 := I.Let(s1, land);
    var s3 := s2.(log := s2.log + [a]);
    PreparedUnits(s, a, hooks);
    LetUnits(s1, land);
    G.ReadyToStore(s, a, hooks, land);
    OldResponseSeen(s, s2, a.responseId);
    StoreUnits(s2, a, s2.next);
    LetUnits(s3, land);
    G.LetAdds(s3, land);
    G.AddsMeans(s3, I.Let(s3, land));
    StaysSeen([a], s3, I.Let(s3, land));
    assert ResponseSeen(s3, a.responseId);
    OldResponseSeen(s3, I.Let(s3, land), a.responseId);
  }

  lemma ErrorUnits(s: Session, a: Event, error: string, land: I.Landing)
    requires Units(s) && Polite(land) && AllSeen([a], s) && ResponseSeen(s, a.responseId)
    ensures var t := I.Store(s, AgentErrorEvent(Raw(s.next), a.toolCallId, error), land);
            Units(t) && Shows(s, t) && ResponseSeen(t, a.responseId)
  {
    var o := AgentErrorEvent(Raw(s.next), a.toolCallId, error);
    assert a in [a];
    ResultLetUnits(s, a, o, land);
    G.LetAdds(Append(s, o), land);
    G.AddsMeans(Append(s, o), I.Store(s, o, land));
    OldResponseSeen(s, I.Store(s, o, land), a.responseId);
  }

  lemma GetActionEventUnits(s: Session, reply: Reply, k: nat, hooks: Hooks, land: I.Landing)
    requires Inv(s, hooks) && Units(s) && Polite(land) && CanAdd(s, reply, k) && k < |reply.calls|
    requires ResponseSeen(s, reply.responseId)
    ensures var t := I.GetActionEvent(s, reply, k, hooks, land);
            Units(t) && ResponseSeen(t, reply.responseId)
  {
    var a := ActionFor(s, reply, k);
    PublishUnits(s, a, hooks, land);
    if !a.executable {
      ErrorUnits(I.PublishAction(s, a, hooks, land), a, reply.calls[k].error.value, land);
    }
  }

  ghost predicate WholeStage(s: Session, reply: Reply, k: nat, hooks: Hooks) {
    G.Stage(s, reply, k, hooks) && Units(s) && ResponseSeen(s, reply.responseId)
  }

  lemma NextWholeStage(s: Session, reply: Reply, k: nat, hooks: Hooks, land: I.Landing)
    requires WholeStage(s, reply, k, hooks) && Polite(land) && k < |reply.calls|
    ensures WholeStage(I.GetActionEvent(s, reply, k, hooks, land), reply, k + 1, hooks)
  {
    G.NextStage(s, reply, k, hooks, land);
    GetActionEventUnits(s, reply, k, hooks, land);
  }

  ghost predicate OfResponse(actions: seq<Event>, response: ResponseId) {
    forall a :: a in actions ==> a.ActionEvent? && a.responseId == response
  }

  lemma GetActionEventsUnits(s: Session, reply: Reply, hooks: Hooks, land: I.Landing)
    requires WholeStage(s, reply, 0, hooks) && Polite(land)
    ensures WholeStage(I.GetActionEvents(s, reply, 0, hooks, land), reply, |reply.calls|, hooks)
    ensures OfResponse(I.NewActions(s, reply, 0, hooks, land), reply.responseId)
  {
    var P := (u: Session, m: nat, so: seq<Event>) => WholeStage(u, reply, m, hooks) && OfResponse(so, reply.responseId);
    forall u: Session, m: nat, so: seq<Event> | m < |reply.calls| && P(u, m, so)
      ensures P(I.GetActionEvent(u, reply, m, hooks, land), m + 1, I.WithAction(so, u, reply, m))
    {
      NextWholeStage(u, reply, m, hooks, land);
    }
    I.StoringKeeps(s, reply, 0, [], hooks, land, P);
    assert [] + I.NewActions(s, reply, 0, hooks, land) == I.NewActions(s, reply, 0, hooks, land);
  }

  // ----- at the LLM call ----------------------------------------------------------------------------

  /** Every action has a result, the executable ones an observation or a rejection. */
  ghost predicate AllSettled(log: seq<Event>) {
    forall a :: a in log && a.ActionEvent? ==>
      && (IsExecutable(a) ==> IsAnswered(a, log))
      && exists o :: o in log && o.IsObservation() && o.toolCallId == a.toolCallId
  }

  lemma SettledAtLLM(s: Session, hooks: Hooks)
    requires Inv(s, hooks) && ReachesLLM(s)
    ensures AllSettled(s.log)
  {
    PendingIsOpen(s);
    forall a | a in s.log && a.ActionEvent?
      ensures IsExecutable(a) ==> IsAnswered(a, s.log)
      ensures exists o :: o in s.log && o.IsObservation() && o.toolCallId == a.toolCallId
    {
      assert !Open(a, s);
      var i :| 0 <= i < |s.log| && s.log[i] == a;
      SessionSafety.AllAnsweredAtLLM(s, hooks, i);
    }
  }

  lemma SettledIsStable(s: Session)
    requires Units(s) && AllSettled(s.log)
    ensures Stable(Visible(s.log), s.log, Elements(Visible(s.log)))
  {
    var K := Elements(Visible(s.log));
    LoggedIsStored(s.log, s.next);
    VisibleProperties(s.log);
    forall a | a in K && a.ActionEvent? ensures Answered(a, K) {
      assert Derived(a, s.log);
      var o :| o in s.log && o.IsObservation() && o.toolCallId == a.toolCallId;
      assert o in K;
    }
    forall o | o in K && o.IsObservation() ensures CalledFor(o, K) {
      assert Derived(o, s.log) && Backed(o, s.log);
      var a :| a in s.log && a.ActionEvent? && a.toolCallId == o.toolCallId;
      assert a in K;
    }
  }

  lemma SettledIsWhole(s: Session)
    requires Units(s) && AllSettled(s.log)
    ensures ViewEvents(s.log) == Visible(s.log)
  {
    LoggedIsStored(s.log, s.next);
    SettledIsStable(s);
    WholeIfStable(s.log);
  }

  lemma WholeIfStable(log: seq<Event>)
    requires StoredLog(log) && Stable(Visible(log), log, Elements(Visible(log)))
    ensures ViewEvents(log) == Visible(log)
  {
    ViewIsGreatestStable(log);
    KeepAll(Visible(log), Elements(ViewEvents(log)));
  }

  /** With everything answered, nobody can answer politely: only state changes land. */
  lemma LandSettled(s: Session, o: I.Outside)
    requires AllSettled(s.log) && PoliteTo(s, o)
    ensures var t := I.Land(s, o); Visible(t.log) == Visible(s.log) && AllSettled(t.log)
  {
    if (o.Rejects? || o.Answers?) && o.i < |s.log| {
      assert s.log[o.i] in s.log;
    }
    var t := I.Land(s, o);
    if t.log != s.log {
      var e := t.log[|s.log|];
      assert t.log == s.log + [e] && e.StateEvent?;
      VisibleAppend(s.log, e);
      StaysSettled(s.log, e);
    }
  }

  lemma StaysSettled(log: seq<Event>, e: Event)
    requires AllSettled(log) && !e.ActionEvent?
    ensures AllSettled(log + [e])
  {
    AnswersStay(log, [e]);
    forall a | a in log + [e] && a.ActionEvent?
      ensures IsExecutable(a) ==> IsAnswered(a, log + [e])
      ensures exists o :: o in log + [e] && o.IsObservation() && o.toolCallId == a.toolCallId
    {
      var o :| o in log && o.IsObservation() && o.toolCallId == a.toolCallId;
      assert o in log + [e];
    }
  }

  lemma {:induction false} LandAllSettled(s: Session, os: seq<I.Outside>)
    requires AllSettled(s.log) && PoliteAll(s, os)
    ensures var t := I.LandAll(s, os); Visible(t.log) == Visible(s.log) && AllSettled(t.log)
    decreases |os|
  {
    if |os| > 0 {
      LandSettled(s, os[0]);
      LandAllSettled(I.Land(s, os[0]), os[1..]);
    }
  }

  /** A condensation forgets exactly a slice of the view between two of its cut points. */
  ghost predicate CutsSlice(V: seq<Event>, forgotten: seq<EventId>, a: nat, b: nat) {
    a <= b <= |V| && CutPoint(V, a) && CutPoint(V, b) && forall x :: x in forgotten <==> x in Ids(V[a..b])
  }

  lemma CutIsCut(s: Session, c: Event, a: nat, b: nat)
    requires Units(s) && c.Condensation? && c.id == Raw(s.next) && CutsSlice(ViewEvents(s.log), c.forgotten, a, b)
    ensures CutsAt(s.log, c, a, b)
  {
    FreshId(s);
    AppendLogged(s.log, s.next, c);
    LoggedIsStored(s.log + [c], s.next + 1);
  }

  /** Once applied, an event of the log is still visible exactly if it was and is not in the slice. */
  lemma CutMembers(log: seq<Event>, c: Event, a: nat, b: nat)
    requires CutsAt(log, c, a, b) && ViewEvents(log) == Visible(log)
    ensures forall e: Event :: !e.CondensationSummaryEvent? ==>
            (e in Visible(log + [c]) <==> e in Outside(ViewEvents(log), a, b))
  {
    VisibleStep(log, c);
    AppliedMembers(c, Visible(log));
    OutsideRemembered(log, c, a, b);
  }

  lemma CutPairs(log: seq<Event>, c: Event, a: nat, b: nat)
    requires CutsAt(log, c, a, b) && ViewEvents(log) == Visible(log) && PairsWhole(log)
    ensures PairsWhole(log + [c])
  {
    StoredPrefix(log, c);
    VisibleProperties(log);
    CutMembers(log, c, a, b);
    var V := ViewEvents(log);
    forall x, y | x in log && y in log && x.ActionEvent? && y.IsObservation() && y.toolCallId == x.toolCallId
      ensures x in Visible(log + [c]) <==> y in Visible(log + [c])
    {
      assert x in V <==> y in V;
      if x in V {
        UnitsStayTogether(V, a, b, x, y);
      }
    }
  }

  lemma CutBatches(log: seq<Event>, c: Event, a: nat, b: nat)
    requires CutsAt(log, c, a, b) && ViewEvents(log) == Visible(log) && BatchesWhole(log)
    ensures BatchesWhole(log + [c])
  {
    StoredPrefix(log, c);
    VisibleProperties(log);
    CutMembers(log, c, a, b);
    var V := ViewEvents(log);
    forall x, y | x in log && y in log && SameBatch(x, y) ensures x in Visible(log + [c]) <==> y in Visible(log + [c]) {
      assert x in V <==> y in V;
      if x in V {
        UnitsStayTogether(V, a, b, x, y);
      }
    }
  }

  lemma CutUnits(s: Session, c: Event, a: nat, b: nat)
    requires Units(s) && AllSettled(s.log)
    requires c.Condensation? && c.id == Raw(s.next) && CutsSlice(ViewEvents(s.log), c.forgotten, a, b)
    ensures Units(Append(s, c))
  {
    SettledIsWhole(s);
    CutIsCut(s, c, a, b);
    CutPairs(s.log, c, a, b);
    CutBatches(s.log, c, a, b);
    FreshId(s);
    AppendLogged(s.log, s.next, c);
    AnswersStay(s.log, [c]);
  }

  // ----- a step ---------------------------------------------------------------------------------------

  lemma TokensUnits(s: Session, reply: Reply, land: I.Landing)
    requires Units(s) && Polite(land)
    ensures Units(I.Tokens(s, reply, land))
  {
    NoteLetUnits(s, "token_ids", land);
  }

  lemma CallsUnits(s: Session, reply: Reply, input: StepInput, hooks: Hooks, land: I.Landing)
    requires Inv(s, hooks) && Units(s) && Polite(land) && FreshReply(s, reply) && |reply.calls| > 0
    ensures Units(I.HandleReply(s, reply, input, hooks, land).s)
  {
    var actions, s1 := I.NewActions(s, reply, 0, hooks, land), I.GetActionEvents(s, reply, 0, hooks, land);
    I.NewActionsAreActions(s, reply, 0, hooks, land);
    GetActionEventsUnits(s, reply, hooks, land);
    if NeedsConfirmation(actions, input.risky) {
      StatusLetUnits(s1, Waiting, land);
    } else {
      NewActionsSeen(s, reply, hooks, land);
      ExecuteUnits(s1, actions, input.tool, land);
      TokensUnits(I.ExecuteActions(s1, actions, input.tool, land).s, reply, land);
    }
  }

  lemma NewActionsSeen(s: Session, reply: Reply, hooks: Hooks, land: I.Landing)
    requires Inv(s, hooks) && FreshReply(s, reply)
    requires ResponseSeen(I.GetActionEvents(s, reply, 0, hooks, land), reply.responseId)
    requires OfResponse(I.NewActions(s, reply, 0, hooks, land), reply.responseId)
    ensures AllSeen(I.NewActions(s, reply, 0, hooks, land), I.GetActionEvents(s, reply, 0, hooks, land))
  {
    var actions, s1 := I.NewActions(s, reply, 0, hooks, land), I.GetActionEvents(s, reply, 0, hooks, land);
    G.NewActionsAreHeld(s, reply, hooks, land);
    forall a | a in actions ensures a.ActionEvent? && a in s1.log && a in Visible(s1.log) {
      assert G.Held(a, s1, hooks);
    }
  }

  lemma MessageReplyUnits(s: Session, reply: Reply, input: StepInput, hooks: Hooks, land: I.Landing)
    requires Units(s) && Polite(land) && |reply.calls| == 0
    ensures Units(I.HandleReply(s, reply, input, hooks, land).s)
  {
    var m := MessageEvent(Raw(s.next), Agent, reply.content);
    AppendUnits(s, m);
    LetUnits(Append(s, m), land);
    var s1 := I.Store(s, m, land);
    TokensUnits(s1, reply, land);
    StatusLetUnits(I.Tokens(s1, reply, land), Finished, land);
  }

  lemma NextIdUnits(s: Session)
    requires Units(s)
    ensures Units(s.(next := s.next + 1))
  {
    forall e | e in s.log ensures Good(e, s.next + 1) {
      assert Good(e, s.next);
    }
  }

  lemma StoreMessageUnits(s: Session, m: Event, land: I.Landing)
    requires Units(s) && Polite(land) && m.MessageEvent? && Good(m, s.next) && m.id !in Ids(s.log)
    ensures Units(I.Let(s.(log := s.log + [m]), land))
  {
    StoreUnits(s, m, s.next);
    LetUnits(s.(log := s.log + [m]), land);
  }

  lemma MarkMessageUnits(s: Session, id: EventId, blocked: map<EventId, string>, land: I.Landing)
    requires Units(s) && Polite(land) && id.Raw? && id.n < s.next && id !in Ids(s.log)
    ensures var t := I.Let(SetBlockedMessages(s, blocked), land); Units(t) && s.next <= t.next && id !in Ids(t.log)
  {
    var b := SetBlockedMessages(s, blocked);
    NoteUnits(s.(blockedMessages := blocked), "blocked_messages");
    LetUnits(b, land);
    G.LetAdds(b, land);
    G.AddsMeans(b, I.Let(b, land));
  }

  lemma MessageUnits(s: Session, content: string, hooks: Hooks, land: I.Landing)
    requires Units(s) && Polite(land)
    ensures Units(I.UserMessage(s, content, hooks, land))
  {
    var m := MessageEvent(Raw(s.next), User, content);
    var s1 := s.(next := s.next + 1);
    FreshId(s);
    NextIdUnits(s);
    if hooks.userPrompt(m).Some? {
      var blocked := s1.blockedMessages[m.id := hooks.userPrompt(m).value];
      MarkMessageUnits(s1, m.id, blocked, land);
      StoreMessageUnits(I.Let(SetBlockedMessages(s1, blocked), land), m, land);
    } else {
      StoreMessageUnits(s1, m, land);
    }
  }

  /** A condensation in the step forgets a slice of the view between two cut points. */
  ghost predicate CutsSafely(s: Session, input: StepInput) {
    input.condense.Condense? ==> exists a, b :: CutsSlice(ViewEvents(s.log), input.condense.forgotten, a, b)
  }

  lemma CondenseUnits(s0: Session, input: StepInput, land: I.Landing)
    requires Units(s0) && AllSettled(s0.log) && Polite(land) && input.condense.Condense? && CutsSafely(s0, input)
    ensures var s := I.Let(s0, land);
            var Condense(forgotten, summary, offset) := input.condense;
            Units(I.Store(s, Condensation(Raw(s.next), forgotten, summary, offset), land))
  {
    var s := I.Let(s0, land);
    LetUnits(s0, land);
    LandAllSettled(s0, land(s0));
    SettledIsWhole(s0);
    SettledIsWhole(s);
    var a, b :| CutsSlice(ViewEvents(s0.log), input.condense.forgotten, a, b);
    var c := Condensation(Raw(s.next), input.condense.forgotten, input.condense.summary, input.condense.offset);
    CutUnits(s, c, a, b);
    LetUnits(Append(s, c), land);
  }

  lemma CallUnits(s0: Session, input: StepInput, hooks: Hooks, land: I.Landing)
    requires Inv(s0, hooks) && Units(s0) && AllSettled(s0.log) && Polite(land) && FreshInput(s0, input)
             && CutsSafely(s0, input)
    ensures Units(I.CallLLM(s0, input, hooks, land).s)
  {
    var s := I.Let(s0, land);
    LetUnits(s0, land);
    match input.condense
    case CondenseFailed =>
    case Condense(_, _, _) => CondenseUnits(s0, input, land);
    case KeepView =>
      match input.llm
      case MalformedCall(error) => MessageUnits(s, error, hooks, land);
      case ContextExceeded =>
        AppendUnits(s, CondensationRequest(Raw(s.next)));
        LetUnits(Append(s, CondensationRequest(Raw(s.next))), land);
      case LLMFailed =>
      case Replied(reply) => ReplyUnits(s0, reply, input, hooks, land);
  }

  lemma ReplyUnits(s0: Session, reply: Reply, input: StepInput, hooks: Hooks, land: I.Landing)
    requires Inv(s0, hooks) && Units(s0) && Polite(land) && FreshReply(s0, reply)
    ensures Units(I.HandleReply(I.Let(s0, land), reply, input, hooks, land).s)
  {
    var s := I.Let(s0, land);
    LetUnits(s0, land);
    G.LetInv(s0, land, hooks);
    G.AddsMeans(s0, s);
    if |reply.calls| > 0 {
      CallsUnits(s, reply, input, hooks, land);
    } else {
      MessageReplyUnits(s, reply, input, hooks, land);
    }
  }

  lemma StepUnits(s: Session, input: StepInput, hooks: Hooks, land: I.Landing)
    requires Inv(s, hooks) && Units(s) && Polite(land) && FreshInput(s, input)
             && (ReachesLLM(s) ==> CutsSafely(s, input))
    ensures Units(I.Step(s, input, hooks, land).s)
  {
    PendingAreExecutable(s.log, 0);
    if |Pending(s.log)| > 0 {
      PendingSeen(s);
      LetUnits(s, land);
      StaysSeen(Pending(s.log), s, I.Let(s, land));
      ExecuteUnits(I.Let(s, land), Pending(s.log), input.tool, land);
    } else {
      match BlockedLastMessage(s, |s.log|)
      case Some(id) =>
        NoteUnits(s.(blockedMessages := s.blockedMessages - {id}), "blocked_messages");
        var p := PopBlockedMessage(s, id);
        LetUnits(p, land);
        StatusLetUnits(I.Let(p, land), Finished, land);
      case None =>
        SettledAtLLM(s, hooks);
        CallUnits(s, input, hooks, land);
    }
  }

  // ----- histories --------------------------------------------------------------------------------

  /** Answers from outside go to unanswered actions, and condensations cut at cut points of the view. */
  ghost predicate TidyAct(s: Session, act: I.Act) {
    match act
    case DoStep(input, land) => Polite(land) && (ReachesLLM(s) ==> CutsSafely(s, input))
    case SendMessage(_, land) => Polite(land)
    case Lands(o) => PoliteTo(s, o)
    case _ => true
  }

  lemma {:induction false} RejectAllUnits(s: Session, actions: seq<Event>, reason: string)
    requires Units(s) && AllSeen(actions, s)
    ensures forall a :: a in actions ==> a.ActionEvent?
    ensures Units(RejectAll(s, actions, reason))
    decreases |actions|
  {
    if |actions| > 0 {
      var a := actions[0];
      var o := UserRejectObservation(Raw(s.next), a.toolCallId, a.id, reason);
      ResultUnits(s, a, o);
      StaysSeen(actions, s, Append(s, o));
      RejectAllUnits(Append(s, o), actions[1..], reason);
    }
  }

  lemma UnansweredSeen(s: Session, t: Session)
    requires Units(s) && Shows(s, t)
    ensures AllSeen(UnansweredFrom(s.log, 0), t)
  {
    UnansweredIsOpen(s);
    var u := UnansweredFrom(s.log, 0);
    forall a | a in u ensures a.ActionEvent? && a in s.log && a in Visible(s.log) {
      var i :| 0 <= i < |u| && u[i] == a;
      assert Open(u[i], s);
    }
    StaysSeen(u, s, t);
  }

  lemma RejectPendingUnits(s: Session, reason: string)
    requires Units(s)
    ensures Units(RejectPending(s, reason))
  {
    var s1 := if s.status.Waiting? then SetStatus(s, Idle) else s;
    StatusUnits(s, Idle);
    UnansweredAreExecutable(s.log, 0);
    UnansweredSeen(s, s1);
    RejectAllUnits(s1, UnansweredFrom(s.log, 0), reason);
  }

  lemma ReviewUnits(s: Session, content: string)
    requires Units(s)
    ensures Units(AnswerReview(s, content))
  {
    var u := UnansweredFrom(s.log, 0);
    UnansweredAreExecutable(s.log, 0);
    FirstNamedIn(u, MEMORY_REVIEW);
    if FirstNamed(u, MEMORY_REVIEW).Some? {
      ReviewedUnits(s, FirstNamed(u, MEMORY_REVIEW).value, content);
    }
  }

  lemma ReviewedUnits(s: Session, a: Event, content: string)
    requires Units(s) && a in UnansweredFrom(s.log, 0) && a.ActionEvent?
    ensures var s1 := if s.status.Waiting? then SetStatus(s, Idle) else s;
            Units(Append(s1, ObservationEvent(Raw(s1.next), a.toolCallId, a.id, content)))
  {
    var s1 := if s.status.Waiting? then SetStatus(s, Idle) else s;
    StatusUnits(s, Idle);
    UnansweredSeen(s, s1);
    ResultUnits(s1, a, ObservationEvent(Raw(s1.next), a.toolCallId, a.id, content));
  }

  lemma ActUnits(s: Session, act: I.Act, hooks: Hooks)
    requires Inv(s, hooks) && Units(s) && H.FreshAct(s, act) && TidyAct(s, act)
    ensures Units(I.Do(s, act, hooks))
  {
    match act
    case DoStep(input, land) => StepUnits(s, input, hooks, land);
    case SendMessage(content, land) =>
      StatusUnits(s, Idle);
      MessageUnits(if s.status.Finished? then SetStatus(s, Idle) else s, content, hooks, land);
    case Lands(o) => LandUnits(s, o);
    case Reject(reason) => RejectPendingUnits(s, reason);
    case Review(content) => ReviewUnits(s, content);
    case StatusTo(status) => StatusUnits(s, status);
    case Start =>
      StatusUnits(s, Running);
      NoteUnits(SetStatus(s, Running), "started_at");
  }

  ghost predicate TidyHistory(s: Session, acts: seq<I.Act>, hooks: Hooks) {
    forall n :: 0 <= n < |acts| ==> TidyAct(I.DoAll(s, acts[..n], hooks), acts[n])
  }

  lemma {:induction false} HistoryUnits(prompt: string, acts: seq<I.Act>, hooks: Hooks)
    requires H.FreshHistory(Initial(prompt), acts, hooks) && TidyHistory(Initial(prompt), acts, hooks)
    ensures Units(I.DoAll(Initial(prompt), acts, hooks))
  {
    var s := Initial(prompt);
    if |acts| == 0 {
      assert s.log == [] + [s.log[0]];
    } else {
      var n := |acts| - 1;
      var before := acts[..n];
      H.FreshFront(s, acts, hooks);
      forall m | 0 <= m < n ensures TidyAct(I.DoAll(s, before[..m], hooks), before[m]) {
        assert before[..m] == acts[..m];
      }
      HistoryUnits(prompt, before, hooks);
      H.ReachableInv(prompt, before, hooks);
      assert TidyAct(I.DoAll(s, acts[..n], hooks), acts[n]);
      ActUnits(I.DoAll(s, before, hooks), acts[n], hooks);
    }
  }

  /** Main result: whenever a step gets to the LLM, the filters drop nothing. The view is exactly what
      the condensations have left, after any number of them. */
  lemma ViewIsWholeAtLLM(prompt: string, acts: seq<I.Act>, hooks: Hooks)
    requires H.FreshHistory(Initial(prompt), acts, hooks) && TidyHistory(Initial(prompt), acts, hooks)
    requires ReachesLLM(I.DoAll(Initial(prompt), acts, hooks))
    ensures var log := I.DoAll(Initial(prompt), acts, hooks).log; ViewEvents(log) == Visible(log)
  {
    HistoryUnits(prompt, acts, hooks);
    H.ReachableInv(prompt, acts, hooks);
    SettledAtLLM(I.DoAll(Initial(prompt), acts, hooks), hooks);
    SettledIsWhole(I.DoAll(Initial(prompt), acts, hooks));
  }

  lemma SummaryAtCut(log: seq<Event>, c: Event, a: nat, b: nat)
    requires CutsAt(log, c, a, b) && ViewEvents(log) == Visible(log)
    requires HasSummaryMetadata(c) && c.summaryOffset.value == a
    ensures var V := ViewEvents(log); ViewEvents(log + [c]) == V[..a] + [SummaryEvent(c)] + V[b..]
  {
    SummaryLandsAtCut(log, c, a, b);
    CuttingAtSafePoints(log, c, a, b);
    InsertBetween(ViewEvents(log)[..a], ViewEvents(log)[b..], SummaryEvent(c));
  }

  lemma InsertBetween(A: seq<Event>, B: seq<Event>, e: Event)
    ensures InsertAt(A + B, |A|, e) == A + [e] + B
  {
  }

  /** So the summary of the next condensation lands at its cut. */
  lemma SummariesLandAtTheirCuts(prompt: string, acts: seq<I.Act>, hooks: Hooks, c: Event, a: nat, b: nat)
    requires H.FreshHistory(Initial(prompt), acts, hooks) && TidyHistory(Initial(prompt), acts, hooks)
    requires ReachesLLM(I.DoAll(Initial(prompt), acts, hooks))
    requires CutsAt(I.DoAll(Initial(prompt), acts, hooks).log, c, a, b)
    requires HasSummaryMetadata(c) && c.summaryOffset.value == a
    ensures var log := I.DoAll(Initial(prompt), acts, hooks).log;
            var V := ViewEvents(log);
            ViewEvents(log + [c]) == V[..a] + [SummaryEvent(c)] + V[b..]
  {
    ViewIsWholeAtLLM(prompt, acts, hooks);
    SummaryAtCut(I.DoAll(Initial(prompt), acts, hooks).log, c, a, b);
  }
}
