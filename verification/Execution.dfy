/** What executing a list of actions and a step do, whatever lands in the meantime: what is handed to the
    tools, which results are stored, what stays pending, and when a step finishes the session. */
module Execution {
  import opened Events
  import opened FromEvents
  import opened Unmatched
  import opened Session
  import opened SessionInvariant
  import opened SessionSafety
  import opened Confirmation
  import G = InterleavedInvariant
  import H = InterleavedSafety
  import I = Interleaved

  // ----- one action -------------------------------------------------------------------------------

  /** Executing a raises: its tool is gone, or fails with anything but a ValueError. */
  predicate Raises(a: Event, blocked: map<EventId, string>, tool: Event -> ToolResult) {
    a.id !in blocked && (tool(a).NoSuchTool? || tool(a).Raised?)
  }

  predicate Calls(a: Event, blocked: map<EventId, string>, tool: Event -> ToolResult) {
    a.id !in blocked && !tool(a).NoSuchTool?
  }

  /** t is what executing a leaves of s, besides the log's new events. */
  ghost predicate Executed(s: Session, t: Session, a: Event, tool: Event -> ToolResult) {
    && s.log <= t.log && s.next <= t.next && t.blockedActions == s.blockedActions - {a.id}
    && t.invoked == s.invoked + (if Calls(a, s.blockedActions, tool) then [a.id] else [])
  }

  lemma RejectedOne(s: Session, a: Event, tool: Event -> ToolResult, land: I.Landing)
    requires a.ActionEvent? && a.id in s.blockedActions
    ensures Executed(s, I.ExecuteAction(s, a, tool, land).s, a, tool)
  {
    var s1 := PopBlockedAction(s, a.id);
    G.LetAdds(s1, land);
    var s2 := I.Let(s1, land);
    G.LetAdds(Append(s2, UserRejectObservation(Raw(s2.next), a.toolCallId, a.id, s.blockedActions[a.id])), land);
  }

  lemma CalledOne(s: Session, a: Event, tool: Event -> ToolResult, land: I.Landing)
    requires a.ActionEvent? && a.id !in s.blockedActions
    ensures Executed(s, I.ExecuteAction(s, a, tool, land).s, a, tool)
  {
    assert s.blockedActions - {a.id} == s.blockedActions;
    G.LetAdds(s.(invoked := s.invoked + [a.id]), land);
    var s1 := I.Invoke(s, a, land);
    match tool(a)
    case ValueError(error) => G.LetAdds(Append(s1, AgentErrorEvent(Raw(s1.next), a.toolCall.id, error)), land);
    case Observed(content) =>
      var o := ObservationEvent(Raw(s1.next), a.toolCall.id, a.id, content);
      G.LetAdds(Append(s1, o), land);
      G.LetAdds(SetStatus(I.Store(s1, o, land), Finished), land);
    case _ =>
  }

  lemma ExecutedOne(s: Session, a: Event, tool: Event -> ToolResult, land: I.Landing)
    requires a.ActionEvent?
    ensures Executed(s, I.ExecuteAction(s, a, tool, land).s, a, tool)
    ensures I.ExecuteAction(s, a, tool, land).raised == Raises(a, s.blockedActions, tool)
  {
    if a.id in s.blockedActions {
      RejectedOne(s, a, tool, land);
    } else {
      CalledOne(s, a, tool, land);
    }
  }

  // ----- what is handed to the tools --------------------------------------------------------------

  /** The ids of the actions from k on whose tool is called, in order. */
  ghost function Called(s: Session, actions: seq<Event>, k: nat, tool: Event -> ToolResult,
                        land: I.Landing): seq<EventId>
    requires k <= |actions| && forall a :: a in actions ==> a.ActionEvent?
    decreases |actions| - k
  {
    if k == |actions| then []
    else
      (if H.CallsTool(s, actions, k, tool, land) then [actions[k].id] else [])
      + Called(s, actions, k + 1, tool, land)
  }

  lemma {:induction false} NothingCalled(s: Session, actions: seq<Event>, k: nat, tool: Event -> ToolResult,
                                         land: I.Landing)
    requires k <= |actions| && forall a :: a in actions ==> a.ActionEvent?
    requires H.Reached(s, actions, k, tool, land).None?
    ensures Called(s, actions, k, tool, land) == []
    decreases |actions| - k
  {
    if k < |actions| {
      NothingCalled(s, actions, k + 1, tool, land);
    }
  }

  lemma {:induction false} InvokesFrom(s: Session, actions: seq<Event>, k: nat, tool: Event -> ToolResult,
                                       land: I.Landing)
    requires k <= |actions| && forall a :: a in actions ==> a.ActionEvent?
    requires H.Reached(s, actions, k, tool, land).Some?
    ensures var u := H.Reached(s, actions, k, tool, land).value;
            I.ExecuteActions(u, actions[k..], tool, land).s.invoked == u.invoked + Called(s, actions, k, tool, land)
    decreases |actions| - k
  {
    if k < |actions| {
      var u := H.Reached(s, actions, k, tool, land).value;
      var r := I.ExecuteAction(u, actions[k], tool, land);
      ExecutedOne(u, actions[k], tool, land);
      assert actions[k..][0] == actions[k] && actions[k..][1..] == actions[k + 1..];
      if r.raised {
        NothingCalled(s, actions, k + 1, tool, land);
      } else {
        InvokesFrom(s, actions, k + 1, tool, land);
        CalledThen(u, r.s, actions[k], tool, Called(s, actions, k + 1, tool, land));
      }
    }
  }

  lemma CalledThen(u: Session, t: Session, a: Event, tool: Event -> ToolResult, more: seq<EventId>)
    requires Executed(u, t, a, tool)
    ensures t.invoked + more == u.invoked + ((if Calls(a, u.blockedActions, tool) then [a.id] else []) + more)
  {
  }

  /** Executing a list hands to the tools, in order, exactly the actions it gets to that are not blocked
      and have their tool. */
  lemma ExecutionInvokes(s: Session, actions: seq<Event>, tool: Event -> ToolResult, land: I.Landing)
    requires forall a :: a in actions ==> a.ActionEvent?
    ensures I.ExecuteActions(s, actions, tool, land).s.invoked == s.invoked + Called(s, actions, 0, tool, land)
  {
    assert H.Reached(s, actions, 0, tool, land) == Some(s) && actions[0..] == actions;
    InvokesFrom(s, actions, 0, tool, land);
  }

  lemma {:induction false} CalledMembers(s: Session, actions: seq<Event>, k: nat, tool: Event -> ToolResult,
                                         land: I.Landing, x: EventId)
    requires k <= |actions| && forall a :: a in actions ==> a.ActionEvent?
    ensures x in Called(s, actions, k, tool, land) <==>
            exists j :: k <= j < |actions| && actions[j].id == x && H.CallsTool(s, actions, j, tool, land)
    decreases |actions| - k
  {
    if k < |actions| {
      CalledMembers(s, actions, k + 1, tool, land, x);
    }
  }

  /** A step from s gets to x among the actions pending in s, and calls its tool. */
  ghost predicate StepCalls(s: Session, input: StepInput, land: I.Landing, x: EventId) {
    PendingAreExecutable(s.log, 0);
    exists j :: 0 <= j < |Pending(s.log)| && Pending(s.log)[j].id == x
             && H.CallsTool(I.Let(s, land), Pending(s.log), j, input.tool, land)
  }

  /** An action stored before a step is handed to its tool in it exactly if it is pending and the step gets
      to it, unblocked and with its tool there. */
  lemma StepInvokesExactly(s: Session, input: StepInput, hooks: Hooks, land: I.Landing, x: EventId)
    requires Inv(s, hooks) && FreshInput(s, input) && x.Raw? && x.n < s.next
    ensures var t := I.Step(s, input, hooks, land).s;
            s.log <= t.log && (x in t.invoked <==> x in s.invoked || StepCalls(s, input, land, x))
  {
    PendingAreExecutable(s.log, 0);
    if |Pending(s.log)| > 0 {
      var s1 := I.Let(s, land);
      G.LetAdds(s, land);
      ExecutionInvokes(s1, Pending(s.log), input.tool, land);
      ExecutionGrows(s1, Pending(s.log), input.tool, land);
      CalledMembers(s1, Pending(s.log), 0, input.tool, land, x);
    } else {
      OtherStepsInvokeNew(s, input, hooks, land, x);
    }
  }

  lemma OtherStepsInvokeNew(s: Session, input: StepInput, hooks: Hooks, land: I.Landing, x: EventId)
    requires Inv(s, hooks) && FreshInput(s, input) && x.Raw? && x.n < s.next && Pending(s.log) == []
    ensures var t := I.Step(s, input, hooks, land).s; s.log <= t.log && (x in t.invoked <==> x in s.invoked)
  {
    var t := I.Step(s, input, hooks, land).s;
    match BlockedLastMessage(s, |s.log|)
    case Some(id) => H.BlockedStepInvokesNothing(s, id, land, H.Others(t, x));
    case None => H.CallInvokesOnlyNew(s, input, hooks, land, x);
  }

  /** With something pending, a step hands something to a tool exactly if it gets to one of them so. */
  lemma PendingStepInvokesExactly(s: Session, input: StepInput, hooks: Hooks, land: I.Landing)
    requires Pending(s.log) != [] && forall a :: a in Pending(s.log) ==> a.ActionEvent?
    ensures I.Step(s, input, hooks, land).s.invoked != s.invoked <==>
            exists k: nat :: k < |Pending(s.log)| && H.CallsTool(I.Let(s, land), Pending(s.log), k, input.tool, land)
  {
    var s1, actions := I.Let(s, land), Pending(s.log);
    PendingAreExecutable(s.log, 0);
    G.LetAdds(s, land);
    ExecutionInvokes(s1, actions, input.tool, land);
    var called := Called(s1, actions, 0, input.tool, land);
    if called != [] {
      CalledMembers(s1, actions, 0, input.tool, land, called[0]);
    }
    forall k: nat | k < |actions| && H.CallsTool(s1, actions, k, input.tool, land) ensures called != [] {
      CalledMembers(s1, actions, 0, input.tool, land, actions[k].id);
    }
  }

  /** The ids of the actions not blocked. */
  function Unblocked(actions: seq<Event>, blocked: map<EventId, string>): seq<EventId> {
    if |actions| == 0 then []
    else (if actions[0].id in blocked then [] else [actions[0].id]) + Unblocked(actions[1..], blocked)
  }

  lemma {:induction false} UnblockedSame(actions: seq<Event>, blocked: map<EventId, string>, id: EventId)
    requires forall k :: 0 <= k < |actions| ==> actions[k].id != id
    ensures Unblocked(actions, blocked - {id}) == Unblocked(actions, blocked)
  {
    if |actions| > 0 {
      UnblockedSame(actions[1..], blocked, id);
    }
  }

  lemma UnblockedCons(actions: seq<Event>, blocked: map<EventId, string>)
    requires |actions| > 0 && DistinctIds(actions)
    ensures Unblocked(actions, blocked)
         == (if actions[0].id in blocked then [] else [actions[0].id])
            + Unblocked(actions[1..], blocked - {actions[0].id})
  {
    assert forall k :: 0 <= k < |actions[1..]| ==> actions[1..][k] == actions[k + 1];
    UnblockedSame(actions[1..], blocked, actions[0].id);
  }

  lemma DistinctRest(actions: seq<Event>)
    requires |actions| > 0 && DistinctIds(actions)
    ensures DistinctIds(actions[1..])
  {
  }

  /** Unless one raises, that is all but those the hooks have blocked. */
  lemma {:induction false} UnblockedAreInvoked(s: Session, actions: seq<Event>, tool: Event -> ToolResult,
                                               land: I.Landing)
    requires (forall a :: a in actions ==> a.ActionEvent?) && DistinctIds(actions)
    requires !I.ExecuteActions(s, actions, tool, land).raised
    ensures I.ExecuteActions(s, actions, tool, land).s.invoked == s.invoked + Unblocked(actions, s.blockedActions)
    decreases |actions|
  {
    if |actions| > 0 {
      var a, rest := actions[0], actions[1..];
      var s1 := I.ExecuteAction(s, a, tool, land).s;
      ExecutedOne(s, a, tool, land);
      DistinctRest(actions);
      UnblockedAreInvoked(s1, rest, tool, land);
      UnblockedCons(actions, s.blockedActions);
      CalledThen(s, s1, a, tool, Unblocked(rest, s1.blockedActions));
    }
  }

  // ----- the results ------------------------------------------------------------------------------

  /** o is what executing a leaves in the log: the block's reason, or what the tool says. */
  ghost predicate Handles(o: Event, a: Event, blocked: map<EventId, string>, tool: Event -> ToolResult) {
    && a.ActionEvent?
    && if a.id in blocked then
         o.UserRejectObservation? && o.actionId == a.id && o.toolCallId == a.toolCallId && o.content == blocked[a.id]
       else
         match tool(a)
         case Observed(content) =>
           o.ObservationEvent? && o.actionId == a.id && o.toolCallId == a.toolCall.id && o.content == content
         case ValueError(error) => o.AgentErrorEvent? && o.toolCallId == a.toolCall.id && o.content == error
         case _ => false
  }

  /** From s to t one event is stored, at p, with other events before and after it that only landed. */
  ghost predicate StoredAt(s: Session, t: Session, p: nat, o: Event) {
    s.log <= t.log && |s.log| <= p < |t.log| && t.log[p] == o
  }

  lemma StoredThenLet(s: Session, u: Session, o: Event, land: I.Landing)
    requires s.log <= u.log
    ensures StoredAt(s, I.Store(u, o, land), |u.log|, o)
  {
    G.LetAdds(Append(u, o), land);
    assert Append(u, o).log[|u.log|] == o;
  }

  lemma HandledBlocked(s: Session, a: Event, tool: Event -> ToolResult, land: I.Landing) returns (p: nat)
    requires a.ActionEvent? && a.id in s.blockedActions
    ensures var t := I.ExecuteAction(s, a, tool, land).s;
            |s.log| <= p < |t.log| && Handles(t.log[p], a, s.blockedActions, tool)
  {
    var s1 := PopBlockedAction(s, a.id);
    G.LetAdds(s1, land);
    var s2 := I.Let(s1, land);
    StoredThenLet(s, s2, UserRejectObservation(Raw(s2.next), a.toolCallId, a.id, s.blockedActions[a.id]), land);
    p := |s2.log|;
  }

  lemma HandledByTool(s: Session, a: Event, tool: Event -> ToolResult, land: I.Landing) returns (p: nat)
    requires a.ActionEvent? && a.id !in s.blockedActions && !I.ExecuteAction(s, a, tool, land).raised
    ensures var t := I.ExecuteAction(s, a, tool, land).s;
            |s.log| <= p < |t.log| && Handles(t.log[p], a, s.blockedActions, tool)
  {
    G.LetAdds(s.(invoked := s.invoked + [a.id]), land);
    var s1 := I.Invoke(s, a, land);
    p := |s1.log|;
    match tool(a)
    case ValueError(error) => StoredThenLet(s, s1, AgentErrorEvent(Raw(s1.next), a.toolCall.id, error), land);
    case Observed(content) =>
      var o := ObservationEvent(Raw(s1.next), a.toolCall.id, a.id, content);
      StoredThenLet(s, s1, o, land);
      G.LetAdds(SetStatus(I.Store(s1, o, land), Finished), land);
    case _ =>
  }

  /** The actions are handled one by one by results at the positions ps, in order, none before from. */
  ghost predicate HandledAt(log: seq<Event>, from: nat, actions: seq<Event>, blocked: map<EventId, string>,
                            tool: Event -> ToolResult, ps: seq<nat>) {
    && |ps| == |actions|
    && (forall i :: 0 <= i < |ps| ==> from <= ps[i] < |log| && Handles(log[ps[i]], actions[i], blocked, tool))
    && forall i, j :: 0 <= i < j < |ps| ==> ps[i] < ps[j]
  }

  lemma HandledCons(log: seq<Event>, from: nat, mid: nat, actions: seq<Event>, blocked: map<EventId, string>,
                    tool: Event -> ToolResult, p: nat, ps: seq<nat>)
    requires |actions| > 0 && DistinctIds(actions) && from <= p < mid <= |log|
    requires Handles(log[p], actions[0], blocked, tool)
    requires HandledAt(log, mid, actions[1..], blocked - {actions[0].id}, tool, ps)
    ensures HandledAt(log, from, actions, blocked, tool, [p] + ps)
  {
    var all := [p] + ps;
    forall i | 0 <= i < |all| ensures from <= all[i] < |log| && Handles(log[all[i]], actions[i], blocked, tool) {
      if i > 0 {
        assert all[i] == ps[i - 1] && actions[1..][i - 1] == actions[i];
        assert Handles(log[ps[i - 1]], actions[1..][i - 1], blocked - {actions[0].id}, tool);
      }
    }
  }

  lemma {:induction false} ExecutionGrows(s: Session, actions: seq<Event>, tool: Event -> ToolResult, land: I.Landing)
    requires forall a :: a in actions ==> a.ActionEvent?
    ensures s.log <= I.ExecuteActions(s, actions, tool, land).s.log
    decreases |actions|
  {
    if |actions| > 0 {
      ExecutedOne(s, actions[0], tool, land);
      if !I.ExecuteAction(s, actions[0], tool, land).raised {
        ExecutionGrows(I.ExecuteAction(s, actions[0], tool, land).s, actions[1..], tool, land);
      }
    }
  }

  /** Unless a tool raises, executing a list stores a result for every action, in order, whatever lands in
      between; the blocked ones get their rejection. */
  lemma {:induction false} AllHandled(s: Session, actions: seq<Event>, tool: Event -> ToolResult, land: I.Landing)
    returns (ps: seq<nat>)
    requires (forall a :: a in actions ==> a.ActionEvent?) && DistinctIds(actions)
    requires !I.ExecuteActions(s, actions, tool, land).raised
    ensures HandledAt(I.ExecuteActions(s, actions, tool, land).s.log, |s.log|, actions, s.blockedActions, tool, ps)
    decreases |actions|
  {
    if |actions| == 0 {
      ps := [];
    } else {
      var a, rest := actions[0], actions[1..];
      var s1 := I.ExecuteAction(s, a, tool, land).s;
      var t := I.ExecuteActions(s, actions, tool, land).s;
      ExecutedOne(s, a, tool, land);
      DistinctRest(actions);
      var more := AllHandled(s1, rest, tool, land);
      ExecutionGrows(s1, rest, tool, land);
      var p: nat;
      if a.id in s.blockedActions {
        p := HandledBlocked(s, a, tool, land);
      } else {
        p := HandledByTool(s, a, tool, land);
      }
      assert t.log[p] == s1.log[p];
      HandledCons(t.log, |s.log|, |s1.log|, actions, s.blockedActions, tool, p, more);
      ps := [p] + more;
    }
  }

  // ----- no result lands --------------------------------------------------------------------------

  /** The results in s. */
  function Results(s: seq<Event>): seq<Event> {
    if |s| == 0 then []
    else Results(s[..|s| - 1]) + (if s[|s| - 1].IsObservation() then [s[|s| - 1]] else [])
  }

  lemma ResultsAppend(log: seq<Event>, e: Event)
    ensures Results(log + [e]) == Results(log) + (if e.IsObservation() then [e] else [])
  {
    assert (log + [e])[..|log|] == log;
  }

  lemma NoteResults(s: Session, key: string)
    ensures Results(Note(s, key).log) == Results(s.log)
  {
    ResultsAppend(s.log, StateEvent(Raw(s.next), key));
  }

  lemma StatusResults(s: Session, status: Status)
    ensures Results(SetStatus(s, status).log) == Results(s.log)
  {
    NoteResults(s.(status := status), "execution_status");
  }

  lemma MuteLandResults(s: Session, o: I.Outside)
    requires !o.Rejects? && !o.Answers?
    ensures Results(I.Land(s, o).log) == Results(s.log)
  {
    match o
    case Pauses => StatusResults(s, Paused);
    case Fails => StatusResults(s, Failed);
    case Idles => StatusResults(s, Idle);
    case Notes(key) => NoteResults(s, key);
  }

  lemma {:induction false} MuteLandAllResults(s: Session, os: seq<I.Outside>)
    requires forall i :: 0 <= i < |os| ==> !os[i].Rejects? && !os[i].Answers?
    ensures Results(I.LandAll(s, os).log) == Results(s.log)
    decreases |os|
  {
    if |os| > 0 {
      MuteLandResults(s, os[0]);
      MuteLandAllResults(I.Land(s, os[0]), os[1..]);
    }
  }

  lemma MuteLetResults(s: Session, land: I.Landing)
    requires H.Mute(land)
    ensures Results(I.Let(s, land).log) == Results(s.log)
  {
    MuteLandAllResults(s, land(s));
  }

  /** What one handled action adds to the results. */
  ghost predicate OneMore(before: seq<Event>, after: seq<Event>, a: Event, blocked: map<EventId, string>,
                          tool: Event -> ToolResult) {
    |after| == |before| + 1 && after[..|before|] == before && Handles(after[|before|], a, blocked, tool)
  }

  lemma MuteStoreResult(s: Session, o: Event, land: I.Landing)
    requires H.Mute(land) && o.IsObservation()
    ensures Results(I.Store(s, o, land).log) == Results(s.log) + [o]
  {
    ResultsAppend(s.log, o);
    MuteLetResults(Append(s, o), land);
  }

  lemma MuteStatusResults(s: Session, status: Status, land: I.Landing)
    requires H.Mute(land)
    ensures Results(I.Let(SetStatus(s, status), land).log) == Results(s.log)
  {
    StatusResults(s, status);
    MuteLetResults(SetStatus(s, status), land);
  }

  lemma BlockedHandledOnce(s: Session, a: Event, tool: Event -> ToolResult, land: I.Landing)
    requires H.Mute(land) && a.ActionEvent? && a.id in s.blockedActions
    ensures OneMore(Results(s.log), Results(I.ExecuteAction(s, a, tool, land).s.log), a, s.blockedActions, tool)
  {
    var s1 := PopBlockedAction(s, a.id);
    ResultsAppend(s.log, StateEvent(Raw(s.next), "blocked_actions"));
    MuteLetResults(s1, land);
    var s2 := I.Let(s1, land);
    MuteStoreResult(s2, UserRejectObservation(Raw(s2.next), a.toolCallId, a.id, s.blockedActions[a.id]), land);
  }

  lemma ToolHandledOnce(s: Session, a: Event, tool: Event -> ToolResult, land: I.Landing)
    requires H.Mute(land) && a.ActionEvent? && a.id !in s.blockedActions && !I.ExecuteAction(s, a, tool, land).raised
    ensures OneMore(Results(s.log), Results(I.ExecuteAction(s, a, tool, land).s.log), a, s.blockedActions, tool)
  {
    MuteLetResults(s.(invoked := s.invoked + [a.id]), land);
    var s1 := I.Invoke(s, a, land);
    match tool(a)
    case ValueError(error) => MuteStoreResult(s1, AgentErrorEvent(Raw(s1.next), a.toolCall.id, error), land);
    case Observed(content) =>
      var o := ObservationEvent(Raw(s1.next), a.toolCall.id, a.id, content);
      MuteStoreResult(s1, o, land);
      MuteStatusResults(I.Store(s1, o, land), Finished, land);
    case _ =>
  }

  /** The results after before answer the actions one by one. */
  ghost predicate HandlesAll(before: seq<Event>, after: seq<Event>, actions: seq<Event>,
                             blocked: map<EventId, string>, tool: Event -> ToolResult) {
    && |after| == |before| + |actions| && after[..|before|] == before
    && forall i :: 0 <= i < |actions| ==> Handles(after[|before| + i], actions[i], blocked, tool)
  }

  lemma HandlesCons(r0: seq<Event>, r1: seq<Event>, r2: seq<Event>, actions: seq<Event>, blocked: map<EventId, string>,
                    tool: Event -> ToolResult)
    requires |actions| > 0 && DistinctIds(actions)
    requires OneMore(r0, r1, actions[0], blocked, tool)
    requires HandlesAll(r1, r2, actions[1..], blocked - {actions[0].id}, tool)
    ensures HandlesAll(r0, r2, actions, blocked, tool)
  {
    assert r2[..|r0|] == r1[..|r0|];
    forall i | 0 <= i < |actions| ensures Handles(r2[|r0| + i], actions[i], blocked, tool) {
      if i == 0 {
        assert r2[..|r1|][|r0|] == r1[|r0|];
      } else {
        assert Handles(r2[|r1| + (i - 1)], actions[1..][i - 1], blocked - {actions[0].id}, tool);
      }
    }
  }

  /** If no result lands, there are no others: exactly one per action. */
  lemma {:induction false} AllHandledOnce(s: Session, actions: seq<Event>, tool: Event -> ToolResult, land: I.Landing)
    requires H.Mute(land) && (forall a :: a in actions ==> a.ActionEvent?) && DistinctIds(actions)
    requires !I.ExecuteActions(s, actions, tool, land).raised
    ensures HandlesAll(Results(s.log), Results(I.ExecuteActions(s, actions, tool, land).s.log), actions,
                       s.blockedActions, tool)
    decreases |actions|
  {
    if |actions| > 0 {
      var a, rest := actions[0], actions[1..];
      var s1 := I.ExecuteAction(s, a, tool, land).s;
      ExecutedOne(s, a, tool, land);
      DistinctRest(actions);
      AllHandledOnce(s1, rest, tool, land);
      if a.id in s.blockedActions {
        BlockedHandledOnce(s, a, tool, land);
      } else {
        ToolHandledOnce(s, a, tool, land);
      }
      HandlesCons(Results(s.log), Results(s1.log), Results(I.ExecuteActions(s1, rest, tool, land).s.log), actions,
                  s.blockedActions, tool);
    }
  }

  /** A step with something pending handles exactly that list. */
  lemma PendingStepHandlesPending(s: Session, input: StepInput, hooks: Hooks, land: I.Landing) returns (ps: seq<nat>)
    requires Inv(s, hooks) && Pending(s.log) != [] && !I.Step(s, input, hooks, land).raised
    ensures var t := I.Step(s, input, hooks, land).s;
            && HandledAt(t.log, |s.log|, Pending(s.log), s.blockedActions, input.tool, ps)
            && t.invoked == s.invoked + Unblocked(Pending(s.log), s.blockedActions)
            && (H.Mute(land) ==>
                  HandlesAll(Results(s.log), Results(t.log), Pending(s.log), s.blockedActions, input.tool))
  {
    var s1, actions := I.Let(s, land), Pending(s.log);
    PendingAreExecutable(s.log, 0);
    PendingIsOpen(s);
    G.LetAdds(s, land);
    ps := AllHandled(s1, actions, input.tool, land);
    UnblockedAreInvoked(s1, actions, input.tool, land);
    if H.Mute(land) {
      MuteLetResults(s, land);
      AllHandledOnce(s1, actions, input.tool, land);
    }
  }

  // ----- what stays pending -----------------------------------------------------------------------

  lemma ExecutingTracks(s: Session, a: Event, tool: Event -> ToolResult, land: I.Landing, taken: seq<Event>)
    requires a.ActionEvent? && Tracks(s, taken)
    ensures Tracks(I.ExecuteAction(s, a, tool, land).s, taken)
  {
    if a.id in s.blockedActions {
      var s1 := PopBlockedAction(s, a.id);
      StoreTracks(s, StateEvent(Raw(s.next), "blocked_actions"), taken);
      LetTracks(s1, land, taken);
      var s2 := I.Let(s1, land);
      StoreLetTracks(s2, UserRejectObservation(Raw(s2.next), a.toolCallId, a.id, s.blockedActions[a.id]), land, taken);
    } else {
      ToolTracks(s, a, tool, land, taken);
    }
  }

  lemma StoreLetTracks(s: Session, e: Event, land: I.Landing, taken: seq<Event>)
    requires Tracks(s, taken) && !e.ActionEvent?
    ensures Tracks(I.Store(s, e, land), taken)
  {
    StoreTracks(s, e, taken);
    LetTracks(Append(s, e), land, taken);
  }

  lemma ToolTracks(s: Session, a: Event, tool: Event -> ToolResult, land: I.Landing, taken: seq<Event>)
    requires a.ActionEvent? && a.id !in s.blockedActions && Tracks(s, taken)
    ensures Tracks(I.ExecuteAction(s, a, tool, land).s, taken)
  {
    LetTracks(s.(invoked := s.invoked + [a.id]), land, taken);
    var s1 := I.Invoke(s, a, land);
    match tool(a)
    case ValueError(error) => StoreLetTracks(s1, AgentErrorEvent(Raw(s1.next), a.toolCall.id, error), land, taken);
    case Observed(content) =>
      var o := ObservationEvent(Raw(s1.next), a.toolCall.id, a.id, content);
      StoreLetTracks(s1, o, land, taken);
      var s2 := I.Store(s1, o, land);
      StatusTracks(s2, Finished, taken);
      LetTracks(SetStatus(s2, Finished), land, taken);
    case _ =>
  }

  lemma {:induction false} ExecutionTracks(s: Session, actions: seq<Event>, tool: Event -> ToolResult, land: I.Landing,
                                           taken: seq<Event>)
    requires (forall a :: a in actions ==> a.ActionEvent?) && Tracks(s, taken)
    ensures Tracks(I.ExecuteActions(s, actions, tool, land).s, taken)
    decreases |actions|
  {
    if |actions| > 0 {
      ExecutingTracks(s, actions[0], tool, land, taken);
      if !I.ExecuteAction(s, actions[0], tool, land).raised {
        ExecutionTracks(I.ExecuteAction(s, actions[0], tool, land).s, actions[1..], tool, land, taken);
      }
    }
  }

  /** Whether executing a settles it: it is rejected for its block, or its tool returns an
      observation. An error does not. */
  predicate Settles(a: Event, blocked: map<EventId, string>, tool: Event -> ToolResult) {
    a.id in blocked || tool(a).Observed?
  }

  lemma SettledIsAnswered(s: Session, a: Event, tool: Event -> ToolResult, land: I.Landing)
    requires a.ActionEvent? && Settles(a, s.blockedActions, tool)
    ensures IsAnswered(a, I.ExecuteAction(s, a, tool, land).s.log)
  {
    var t := I.ExecuteAction(s, a, tool, land).s;
    if a.id in s.blockedActions {
      var p := HandledBlocked(s, a, tool, land);
      assert t.log[p] in t.log;
    } else {
      G.LetAdds(s.(invoked := s.invoked + [a.id]), land);
      var s1 := I.Invoke(s, a, land);
      var o := ObservationEvent(Raw(s1.next), a.toolCall.id, a.id, tool(a).content);
      StoredThenLet(s, s1, o, land);
      var s2 := I.Store(s1, o, land);
      G.LetAdds(SetStatus(s2, Finished), land);
      assert t.log[|s1.log|] == o;
      assert o in t.log;
    }
  }

  lemma AnsweredStays(a: Event, log: seq<Event>, log': seq<Event>)
    requires log <= log' && IsAnswered(a, log)
    ensures IsAnswered(a, log')
  {
    var o :| o in log && NamesAction(o) && o.actionId == a.id;
    var k :| 0 <= k < |log| && log[k] == o;
    assert log'[k] == o;
  }

  /** An action of the list is answered afterwards if it was settled or had an answer; and if no answer
      lands, only then. */
  lemma {:induction false} AnsweredByExecution(s: Session, actions: seq<Event>, tool: Event -> ToolResult,
                                               land: I.Landing, k: nat)
    requires (forall a :: a in actions ==> a.ActionEvent?) && DistinctIds(actions) && k < |actions|
    requires !I.ExecuteActions(s, actions, tool, land).raised && Settles(actions[k], s.blockedActions, tool)
    ensures IsAnswered(actions[k], I.ExecuteActions(s, actions, tool, land).s.log)
    decreases |actions|
  {
    var rest := actions[1..];
    var s1 := I.ExecuteAction(s, actions[0], tool, land).s;
    ExecutedOne(s, actions[0], tool, land);
    if k == 0 {
      SettledIsAnswered(s, actions[0], tool, land);
      ExecutionGrows(s1, rest, tool, land);
      AnsweredStays(actions[0], s1.log, I.ExecuteActions(s, actions, tool, land).s.log);
    } else {
      DistinctRest(actions);
      assert rest[k - 1] == actions[k] && actions[k].id != actions[0].id;
      AnsweredByExecution(s1, rest, tool, land, k - 1);
    }
  }

  lemma MuteStoreError(s: Session, a: Event, tool: Event -> ToolResult, land: I.Landing)
    requires H.Mute(land) && a.ActionEvent? && !Settles(a, s.blockedActions, tool)
    ensures H.NoAnswers(s, I.ExecuteAction(s, a, tool, land).s)
  {
    H.MuteLet(s.(invoked := s.invoked + [a.id]), land);
    var s1 := I.Invoke(s, a, land);
    match tool(a)
    case ValueError(error) =>
      var s2 := Append(s1, AgentErrorEvent(Raw(s1.next), a.toolCall.id, error));
      H.MuteLet(s2, land);
      H.NoAnswersTransitive(s, s1, s2);
      H.NoAnswersTransitive(s, s2, I.Let(s2, land));
    case _ =>
  }

  lemma MuteAnswersOnly(s: Session, a: Event, b: Event, tool: Event -> ToolResult, land: I.Landing)
    requires H.Mute(land) && a.ActionEvent? && b.id != a.id && !IsAnswered(b, s.log)
    requires !I.ExecuteAction(s, a, tool, land).raised
    ensures !IsAnswered(b, I.ExecuteAction(s, a, tool, land).s.log)
  {
    var t := I.ExecuteAction(s, a, tool, land).s;
    if a.id in s.blockedActions {
      var s1 := PopBlockedAction(s, a.id);
      H.MuteLet(s1, land);
      var s2 := I.Let(s1, land);
      H.NoAnswersTransitive(s, s1, s2);
      MuteStoreAnswer(s, s2, UserRejectObservation(Raw(s2.next), a.toolCallId, a.id, s.blockedActions[a.id]), b, land);
    } else {
      H.MuteLet(s.(invoked := s.invoked + [a.id]), land);
      var s1 := I.Invoke(s, a, land);
      match tool(a)
      case ValueError(error) => MuteStoreAnswer(s, s1, AgentErrorEvent(Raw(s1.next), a.toolCall.id, error), b, land);
      case Observed(content) =>
        var o := ObservationEvent(Raw(s1.next), a.toolCall.id, a.id, content);
        MuteStoreAnswer(s, s1, o, b, land);
        var s2 := I.Store(s1, o, land);
        H.MuteLet(SetStatus(s2, Finished), land);
        H.NoAnswersTransitive(s2, SetStatus(s2, Finished), I.Let(SetStatus(s2, Finished), land));
        H.NoAnswersKeeps(s2, I.Let(SetStatus(s2, Finished), land));
      case _ =>
    }
  }

  lemma MuteStoreAnswer(s: Session, u: Session, o: Event, b: Event, land: I.Landing)
    requires H.Mute(land) && H.NoAnswers(s, u) && !IsAnswered(b, s.log) && (NamesAction(o) ==> o.actionId != b.id)
    ensures !IsAnswered(b, I.Store(u, o, land).log)
  {
    H.NoAnswersKeeps(s, u);
    H.MuteLet(Append(u, o), land);
    H.NoAnswersKeeps(Append(u, o), I.Store(u, o, land));
  }

  lemma {:induction false} UnsettledIsUnanswered(s: Session, actions: seq<Event>, tool: Event -> ToolResult,
                                                 land: I.Landing, k: nat)
    requires H.Mute(land) && (forall a :: a in actions ==> a.ActionEvent?) && DistinctIds(actions) && k < |actions|
    requires !I.ExecuteActions(s, actions, tool, land).raised
    requires !Settles(actions[k], s.blockedActions, tool) && !IsAnswered(actions[k], s.log)
    ensures !IsAnswered(actions[k], I.ExecuteActions(s, actions, tool, land).s.log)
    decreases |actions|
  {
    var a, rest := actions[0], actions[1..];
    var s1 := I.ExecuteAction(s, a, tool, land).s;
    ExecutedOne(s, a, tool, land);
    if k == 0 {
      MuteStoreError(s, a, tool, land);
      H.NoAnswersKeeps(s, s1);
      OthersUnanswered(s1, a, rest, tool, land);
    } else {
      DistinctRest(actions);
      assert rest[k - 1] == actions[k] && actions[k].id != a.id;
      MuteAnswersOnly(s, a, actions[k], tool, land);
      UnsettledIsUnanswered(s1, rest, tool, land, k - 1);
    }
  }

  lemma {:induction false} OthersUnanswered(s: Session, b: Event, actions: seq<Event>, tool: Event -> ToolResult,
                                            land: I.Landing)
    requires H.Mute(land) && (forall a :: a in actions ==> a.ActionEvent? && a.id != b.id) && !IsAnswered(b, s.log)
    requires !I.ExecuteActions(s, actions, tool, land).raised
    ensures !IsAnswered(b, I.ExecuteActions(s, actions, tool, land).s.log)
    decreases |actions|
  {
    if |actions| > 0 {
      MuteAnswersOnly(s, actions[0], b, tool, land);
      OthersUnanswered(I.ExecuteAction(s, actions[0], tool, land).s, b, actions[1..], tool, land);
    }
  }

  /** After a step with something pending, the same is pending, in order, without what has an answer by
      now: whatever is settled has one; what has an error only is pending again, unless an answer to it has
      landed. */
  lemma FailedActionsStayPending(s: Session, input: StepInput, hooks: Hooks, land: I.Landing)
    requires Inv(s, hooks) && Pending(s.log) != [] && !I.Step(s, input, hooks, land).raised
    ensures var t, actions := I.Step(s, input, hooks, land).s, Pending(s.log);
            && Pending(t.log) == Remove(actions, AnsweredIds(t.log))
            && (forall k :: 0 <= k < |actions| && Settles(actions[k], s.blockedActions, input.tool) ==>
                  actions[k].id in AnsweredIds(t.log))
            && (H.Mute(land) ==>
                  forall k :: 0 <= k < |actions| && !Settles(actions[k], s.blockedActions, input.tool) ==>
                    actions[k].id !in AnsweredIds(t.log))
  {
    var s1, actions := I.Let(s, land), Pending(s.log);
    var t := I.Step(s, input, hooks, land).s;
    PendingAreExecutable(s.log, 0);
    PendingIsOpen(s);
    PendingTracked(s);
    LetTracks(s, land, actions);
    ExecutionTracks(s1, actions, input.tool, land, actions);
    G.LetAdds(s, land);
    forall k | 0 <= k < |actions| && Settles(actions[k], s.blockedActions, input.tool)
      ensures actions[k].id in AnsweredIds(t.log)
    {
      AnsweredByExecution(s1, actions, input.tool, land, k);
    }
    if H.Mute(land) {
      forall k | 0 <= k < |actions| && !Settles(actions[k], s.blockedActions, input.tool)
        ensures actions[k].id !in AnsweredIds(t.log)
      {
        assert Open(actions[k], s);
        H.MuteLet(s, land);
        H.NoAnswersKeeps(s, s1);
        UnsettledIsUnanswered(s1, actions, input.tool, land, k);
      }
    }
  }

  // ----- finishing ----------------------------------------------------------------------------------

  /** Nothing that lands sets the status. */
  ghost predicate Steady(land: I.Landing) {
    forall s :: LeavesWaiting(land(s))
  }

  /** Landing never finishes a session, and if it is steady leaves its status. */
  lemma {:induction false} LandingStatus(s: Session, os: seq<I.Outside>)
    ensures I.LandAll(s, os).status.Finished? ==> s.status.Finished?
    ensures LeavesWaiting(os) ==> I.LandAll(s, os).status == s.status
    decreases |os|
  {
    if |os| > 0 {
      LandingStatus(I.Land(s, os[0]), os[1..]);
      assert os == [os[0]] + os[1..];
    }
  }

  /** From s to t the session is finished only by doing, and then it is if others leave the status. */
  ghost predicate Finishes(s: Session, t: Session, doing: bool, land: I.Landing) {
    && (t.status.Finished? ==> s.status.Finished? || doing)
    && (Steady(land) && (s.status.Finished? || doing) ==> t.status.Finished?)
  }

  lemma LetFinishes(s: Session, t: Session, doing: bool, land: I.Landing)
    requires Finishes(s, t, doing, land)
    ensures Finishes(s, I.Let(t, land), doing, land)
  {
    LandingStatus(t, land(t));
  }

  lemma FinishesThen(s: Session, t: Session, u: Session, doing: bool, more: bool, land: I.Landing)
    requires Finishes(s, t, doing, land) && Finishes(t, u, more, land)
    ensures Finishes(s, u, doing || more, land)
  {
  }

  predicate FinishesAt(actions: seq<Event>, k: nat, blocked: map<EventId, string>, tool: Event -> ToolResult)
    requires k < |actions|
  {
    && actions[k].ActionEvent? && actions[k].toolCall.name == FINISH
    && actions[k].id !in blocked && tool(actions[k]).Observed?
    && forall j :: 0 <= j < k ==> !Raises(actions[j], blocked, tool)
  }

  /** The finish tool is reached and succeeds. */
  predicate FinishReached(actions: seq<Event>, blocked: map<EventId, string>, tool: Event -> ToolResult) {
    exists k :: 0 <= k < |actions| && FinishesAt(actions, k, blocked, tool)
  }

  lemma FinishReachedCons(actions: seq<Event>, blocked: map<EventId, string>, tool: Event -> ToolResult)
    requires |actions| > 0 && DistinctIds(actions)
    ensures FinishReached(actions, blocked, tool)
       <==> FinishesAt(actions, 0, blocked, tool)
            || (!Raises(actions[0], blocked, tool) && FinishReached(actions[1..], blocked - {actions[0].id}, tool))
  {
    var rest, less := actions[1..], blocked - {actions[0].id};
    forall k | 0 <= k < |rest| ensures rest[k] == actions[k + 1] && (rest[k].id in less <==> rest[k].id in blocked) {
    }
    forall k: nat | k < |rest|
      ensures FinishesAt(rest, k, less, tool) && !Raises(actions[0], blocked, tool) <==>
              FinishesAt(actions, k + 1, blocked, tool)
    {
      if FinishesAt(actions, k + 1, blocked, tool) {
        assert !Raises(actions[0], blocked, tool);
        forall j | 0 <= j < k ensures !Raises(rest[j], less, tool) {
          assert !Raises(actions[j + 1], blocked, tool);
        }
      } else if FinishesAt(rest, k, less, tool) && !Raises(actions[0], blocked, tool) {
        forall j | 0 <= j < k + 1 ensures !Raises(actions[j], blocked, tool) {
          assert j > 0 ==> !Raises(rest[j - 1], less, tool);
        }
      }
    }
    if k :| 0 <= k < |actions| && FinishesAt(actions, k, blocked, tool) {
      if k > 0 {
        assert FinishesAt(rest, k - 1, less, tool);
      }
    }
  }

  lemma OneFinishes(s: Session, a: Event, tool: Event -> ToolResult, land: I.Landing)
    requires a.ActionEvent?
    ensures Finishes(s, I.ExecuteAction(s, a, tool, land).s, FinishesAt([a], 0, s.blockedActions, tool), land)
  {
    if a.id in s.blockedActions {
      var s1 := PopBlockedAction(s, a.id);
      LetFinishes(s, s1, false, land);
      var s2 := I.Let(s1, land);
      LetFinishes(s, Append(s2, UserRejectObservation(Raw(s2.next), a.toolCallId, a.id, s.blockedActions[a.id])),
                  false, land);
    } else {
      ToolFinishes(s, a, tool, land);
    }
  }

  lemma ToolFinishes(s: Session, a: Event, tool: Event -> ToolResult, land: I.Landing)
    requires a.ActionEvent? && a.id !in s.blockedActions
    ensures Finishes(s, I.ExecuteAction(s, a, tool, land).s, FinishesAt([a], 0, s.blockedActions, tool), land)
  {
    LetFinishes(s, s.(invoked := s.invoked + [a.id]), false, land);
    var s1 := I.Invoke(s, a, land);
    match tool(a)
    case ValueError(error) =>
      LetFinishes(s, Append(s1, AgentErrorEvent(Raw(s1.next), a.toolCall.id, error)), false, land);
    case Observed(content) =>
      var o := ObservationEvent(Raw(s1.next), a.toolCall.id, a.id, content);
      LetFinishes(s, Append(s1, o), false, land);
      var s2 := I.Store(s1, o, land);
      LetFinishes(s, SetStatus(s2, Finished), true, land);
    case _ =>
  }

  lemma {:induction false} ExecutionFinishes(s: Session, actions: seq<Event>, tool: Event -> ToolResult,
                                             land: I.Landing)
    requires (forall a :: a in actions ==> a.ActionEvent?) && DistinctIds(actions)
    ensures Finishes(s, I.ExecuteActions(s, actions, tool, land).s,
                     FinishReached(actions, s.blockedActions, tool), land)
    decreases |actions|
  {
    if |actions| > 0 {
      var first, rest := I.ExecuteAction(s, actions[0], tool, land), actions[1..];
      FinishReachedCons(actions, s.blockedActions, tool);
      OneFinishes(s, actions[0], tool, land);
      ExecutedOne(s, actions[0], tool, land);
      if !first.raised {
        DistinctRest(actions);
        ExecutionFinishes(first.s, rest, tool, land);
        FinishesThen(s, first.s, I.ExecuteActions(first.s, rest, tool, land).s,
                     FinishesAt([actions[0]], 0, s.blockedActions, tool),
                     FinishReached(rest, first.s.blockedActions, tool), land);
      }
    }
  }

  lemma StoringOneStatus(s: Session, reply: Reply, k: nat, hooks: Hooks, land: I.Landing)
    requires k < |reply.calls|
    ensures Finishes(s, I.GetActionEvent(s, reply, k, hooks, land), false, land)
  {
    var a := ActionFor(s, reply, k);
    LetFinishes(s, Prepared(s, a, hooks), false, land);
    var s1 := I.Let(Prepared(s, a, hooks), land);
    LetFinishes(s, s1.(log := s1.log + [a]), false, land);
    if !a.executable {
      var s2 := I.PublishAction(s, a, hooks, land);
      LetFinishes(s, Append(s2, AgentErrorEvent(Raw(s2.next), a.toolCallId, reply.calls[k].error.value)), false, land);
    }
  }

  lemma StoringStatus(s: Session, reply: Reply, hooks: Hooks, land: I.Landing)
    ensures Finishes(s, I.GetActionEvents(s, reply, 0, hooks, land), false, land)
  {
    var P := (u: Session, m: nat, so: seq<Event>) => Finishes(s, u, false, land);
    forall u: Session, m: nat, so: seq<Event> | m < |reply.calls| && P(u, m, so)
      ensures P(I.GetActionEvent(u, reply, m, hooks, land), m + 1, I.WithAction(so, u, reply, m))
    {
      StoringOneStatus(u, reply, m, hooks, land);
      FinishesThen(s, u, I.GetActionEvent(u, reply, m, hooks, land), false, false, land);
    }
    assert P(s, 0, []);
    I.StoringKeeps(s, reply, 0, [], hooks, land, P);
  }

  /** A reply finishes the session by a message with content, or by the finish tool among its calls. */
  ghost predicate ReplyFinishes(s: Session, reply: Reply, input: StepInput, hooks: Hooks, land: I.Landing) {
    if |reply.calls| == 0 then reply.hasContent
    else
      I.NewActionsAreActions(s, reply, 0, hooks, land);
      var actions := I.NewActions(s, reply, 0, hooks, land);
      && !NeedsConfirmation(actions, input.risky)
      && FinishReached(actions, I.GetActionEvents(s, reply, 0, hooks, land).blockedActions, input.tool)
  }

  /** What a step has to do to finish a session: reach the finish tool with the pending actions or with
      those of a reply that needs no confirmation, find the last message blocked, or get a message with
      content. */
  ghost predicate StepFinishes(s: Session, input: StepInput, hooks: Hooks, land: I.Landing) {
    if |Pending(s.log)| > 0 then FinishReached(Pending(s.log), s.blockedActions, input.tool)
    else if BlockedLastMessage(s, |s.log|).Some? then true
    else
      && input.condense.KeepView? && input.llm.Replied?
      && ReplyFinishes(I.Let(s, land), input.llm.reply, input, hooks, land)
  }

  lemma TokensFinish(s: Session, t: Session, doing: bool, reply: Reply, land: I.Landing)
    requires Finishes(s, t, doing, land)
    ensures Finishes(s, I.Tokens(t, reply, land), doing, land)
  {
    LetFinishes(s, Note(t, "token_ids"), doing, land);
  }

  lemma CallsFinish(s: Session, reply: Reply, input: StepInput, hooks: Hooks, land: I.Landing)
    requires Inv(s, hooks) && FreshReply(s, reply) && |reply.calls| > 0 && !s.status.Finished?
    ensures Finishes(s, I.HandleReply(s, reply, input, hooks, land).s,
                     ReplyFinishes(s, reply, input, hooks, land), land)
  {
    var actions, s1 := I.NewActions(s, reply, 0, hooks, land), I.GetActionEvents(s, reply, 0, hooks, land);
    I.NewActionsAreActions(s, reply, 0, hooks, land);
    StoringStatus(s, reply, hooks, land);
    G.GetActionEventsInv(s, reply, hooks, land);
    if NeedsConfirmation(actions, input.risky) {
      LetFinishes(s, SetStatus(s1, Waiting), false, land);
    } else {
      var done := I.ExecuteActions(s1, actions, input.tool, land).s;
      var doing := FinishReached(actions, s1.blockedActions, input.tool);
      ExecutionFinishes(s1, actions, input.tool, land);
      FinishesThen(s, s1, done, false, doing, land);
      TokensFinish(s, done, doing, reply, land);
    }
  }

  lemma MessageReplyFinishes(s: Session, reply: Reply, input: StepInput, hooks: Hooks, land: I.Landing)
    requires |reply.calls| == 0
    ensures Finishes(s, I.HandleReply(s, reply, input, hooks, land).s, reply.hasContent, land)
  {
    var m := MessageEvent(Raw(s.next), Agent, reply.content);
    LetFinishes(s, Append(s, m), false, land);
    var s1 := I.Store(s, m, land);
    TokensFinish(s, s1, false, reply, land);
    LetFinishes(s, SetStatus(I.Tokens(s1, reply, land), Finished), true, land);
  }

  lemma MessageFinishes(s: Session, content: string, hooks: Hooks, land: I.Landing)
    ensures Finishes(s, I.UserMessage(s, content, hooks, land), false, land)
  {
    var m := MessageEvent(Raw(s.next), User, content);
    var s1 := s.(next := s.next + 1);
    var verdict := hooks.userPrompt(m);
    var s2 := s1;
    if verdict.Some? {
      var b := SetBlockedMessages(s1, s1.blockedMessages[m.id := verdict.value]);
      LetFinishes(s, b, false, land);
      s2 := I.Let(b, land);
    }
    LetFinishes(s, s2.(log := s2.log + [m]), false, land);
  }

  lemma CallFinishes(s0: Session, input: StepInput, hooks: Hooks, land: I.Landing)
    requires Inv(s0, hooks) && FreshInput(s0, input) && ReachesLLM(s0) && !s0.status.Finished?
    ensures Finishes(s0, I.CallLLM(s0, input, hooks, land).s, StepFinishes(s0, input, hooks, land), land)
  {
    var s := I.Let(s0, land);
    LetFinishes(s0, s0, false, land);
    G.LetInv(s0, land, hooks);
    G.StillFresh(s0, s, input);
    match input.condense
    case CondenseFailed =>
    case Condense(forgotten, summary, offset) =>
      LetFinishes(s0, Append(s, Condensation(Raw(s.next), forgotten, summary, offset)), false, land);
    case KeepView =>
      match input.llm
      case MalformedCall(error) =>
        MessageFinishes(s, error, hooks, land);
        FinishesThen(s0, s, I.UserMessage(s, error, hooks, land), false, false, land);
      case ContextExceeded => LetFinishes(s0, Append(s, CondensationRequest(Raw(s.next))), false, land);
      case LLMFailed =>
      case Replied(reply) => RepliedFinishes(s0, s, reply, input, hooks, land);
  }

  lemma RepliedFinishes(s0: Session, s: Session, reply: Reply, input: StepInput, hooks: Hooks, land: I.Landing)
    requires Inv(s, hooks) && FreshReply(s, reply) && Finishes(s0, s, false, land) && !s0.status.Finished?
    ensures Finishes(s0, I.HandleReply(s, reply, input, hooks, land).s,
                     ReplyFinishes(s, reply, input, hooks, land), land)
  {
    if |reply.calls| > 0 {
      CallsFinish(s, reply, input, hooks, land);
    } else {
      MessageReplyFinishes(s, reply, input, hooks, land);
    }
    FinishesThen(s0, s, I.HandleReply(s, reply, input, hooks, land).s, false,
                 ReplyFinishes(s, reply, input, hooks, land), land);
  }

  /** A step finishes a session only so; and then it does, unless the status is set from outside in the
      meantime. */
  lemma FinishedExactly(s: Session, input: StepInput, hooks: Hooks, land: I.Landing)
    requires Inv(s, hooks) && FreshInput(s, input) && !s.status.Finished?
    ensures var t := I.Step(s, input, hooks, land).s;
            && (t.status.Finished? ==> StepFinishes(s, input, hooks, land))
            && (Steady(land) ==> (t.status.Finished? <==> StepFinishes(s, input, hooks, land)))
  {
    PendingAreExecutable(s.log, 0);
    if |Pending(s.log)| > 0 {
      var s1 := I.Let(s, land);
      PendingIsOpen(s);
      G.LetAdds(s, land);
      LetFinishes(s, s, false, land);
      ExecutionFinishes(s1, Pending(s.log), input.tool, land);
      FinishesThen(s, s1, I.Step(s, input, hooks, land).s, false,
                   FinishReached(Pending(s.log), s.blockedActions, input.tool), land);
    } else if BlockedLastMessage(s, |s.log|).Some? {
      var p := PopBlockedMessage(s, BlockedLastMessage(s, |s.log|).value);
      LetFinishes(s, p, false, land);
      LetFinishes(s, SetStatus(I.Let(p, land), Finished), true, land);
    } else {
      CallFinishes(s, input, hooks, land);
    }
  }
}
