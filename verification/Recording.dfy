/** What reaches the agent is recorded in its log as it came: messages, replies, condensations and the
    user's answers, whatever lands in between. */
module Recording {
  import opened Events
  import opened Unmatched
  import opened Session
  import opened SessionInvariant
  import opened SessionSafety
  import E = Execution
  import G = InterleavedInvariant
  import I = Interleaved
  import L = RunLoop

  // ----- one event ----------------------------------------------------------------------------------

  lemma StoredIsThere(s: Session, u: Session, e: Event, land: I.Landing)
    requires s.log <= u.log && e == Append(u, e).log[|u.log|]
    ensures var t := I.Store(u, e, land); s.log <= t.log && |s.log| <= |u.log| < |t.log| && t.log[|u.log|] == e
  {
    G.LetAdds(Append(u, e), land);
  }

  /** A hook's reason to block a message is marked under its id. */
  function MarkedMessage(blocked: map<EventId, string>, m: Event, hooks: Hooks): map<EventId, string> {
    match hooks.userPrompt(m)
    case Some(reason) => blocked[m.id := reason]
    case None => blocked
  }

  /** A user message is in the log as it was said, and marked as blocked exactly if the hook has a reason. */
  lemma MessageIsRecorded(s: Session, content: string, hooks: Hooks, land: I.Landing) returns (p: nat)
    ensures var t := I.UserMessage(s, content, hooks, land);
            && s.log <= t.log && |s.log| <= p < |t.log| && t.log[p] == MessageEvent(Raw(s.next), User, content)
            && t.blockedMessages == MarkedMessage(s.blockedMessages, t.log[p], hooks)
            && t.blockedActions == s.blockedActions && t.invoked == s.invoked
  {
    var m := MessageEvent(Raw(s.next), User, content);
    var s1 := s.(next := s.next + 1);
    var verdict := hooks.userPrompt(m);
    var s2 := s1;
    if verdict.Some? {
      var marked := SetBlockedMessages(s1, s1.blockedMessages[m.id := verdict.value]);
      G.LetAdds(marked, land);
      s2 := I.Let(marked, land);
    }
    p := |s2.log|;
    G.LetAdds(s2.(log := s2.log + [m]), land);
  }

  /** A finished session that is spoken to is not finished any more. */
  lemma SpeakingReopens(s: Session, content: string, hooks: Hooks, land: I.Landing) returns (p: nat)
    ensures var t := I.Say(s, content, hooks, land);
            && !t.status.Finished?
            && s.log <= t.log && |s.log| <= p < |t.log|
            && t.log[p].MessageEvent? && t.log[p].source.User? && t.log[p].content == content
  {
    var s1 := if s.status.Finished? then SetStatus(s, Idle) else s;
    p := MessageIsRecorded(s1, content, hooks, land);
    if I.Say(s, content, hooks, land).status.Finished? {
      E.MessageFinishes(s1, content, hooks, land);
    }
  }

  /** A denial of the stop hook sets the session running, and its feedback, if there is any, is a message of
      the user. */
  lemma DenialIsRecorded(s: Session, feedback: string, hooks: Hooks, land: I.Landing) returns (p: nat)
    ensures var t := L.Denied(s, feedback, hooks, land);
            && t.status.Running? && s.log <= t.log
            && (feedback != "" ==>
                  && |s.log| <= p < |t.log| && t.log[p].MessageEvent? && t.log[p].source.User?
                  && t.log[p].content == "[Stop hook feedback] " + feedback)
            && (feedback == "" ==> forall k :: |s.log| <= k < |t.log| ==> !t.log[k].MessageEvent?)
  {
    p := 0;
    if feedback != "" {
      p := MessageIsRecorded(s, "[Stop hook feedback] " + feedback, hooks, land);
    }
  }

  // ----- replies ------------------------------------------------------------------------------------

  /** e is the action for the k-th call of a reply: the call as the LLM made it, executable exactly if it
      could be parsed, and what the LLM thought with the first call only. */
  predicate Records(e: Event, reply: Reply, k: nat)
    requires k < |reply.calls|
  {
    && e.ActionEvent? && e.responseId == reply.responseId
    && e.toolCall == reply.calls[k].toolCall && e.toolCallId == e.toolCall.id
    && (e.executable <==> reply.calls[k].error.None?)
    && (if k == 0 then
          && e.thought == reply.thought && e.reasoning == reply.reasoning
          && e.thinkingBlocks == reply.thinkingBlocks && e.reasoningItem == reply.reasoningItem
        else e.thought == [] && e.reasoning.None? && e.thinkingBlocks == [] && e.reasoningItem.None?)
  }

  /** A hook's reason to block an executable action is marked under its id, and nothing else is. */
  function Marked(blocked: map<EventId, string>, a: Event, hooks: Hooks): map<EventId, string> {
    if !IsExecutable(a) then blocked
    else
      match hooks.preToolUse(a)
      case Some(reason) => blocked[a.id := reason]
      case None => blocked
  }

  ghost predicate HasErrorAfter(log: seq<Event>, p: nat, call: ToolCallId, error: string) {
    exists q :: p < q < |log| && log[q].AgentErrorEvent? && log[q].toolCallId == call && log[q].content == error
  }

  /** The k-th call is recorded at p, and if it could not be parsed its error comes after it. */
  ghost predicate CallAt(log: seq<Event>, p: nat, reply: Reply, k: nat)
    requires k < |reply.calls|
  {
    && p < |log| && Records(log[p], reply, k)
    && var call := reply.calls[k];
       call.error.Some? ==> HasErrorAfter(log, p, call.toolCall.id, call.error.value)
  }

  lemma CallIsRecorded(s: Session, reply: Reply, k: nat, hooks: Hooks, land: I.Landing) returns (p: nat)
    requires k < |reply.calls|
    ensures var t := I.GetActionEvent(s, reply, k, hooks, land);
            && s.log <= t.log && |s.log| <= p && CallAt(t.log, p, reply, k)
            && t.blockedActions == Marked(s.blockedActions, t.log[p], hooks)
  {
    var a, call := ActionFor(s, reply, k), reply.calls[k];
    var s1 := I.Let(Prepared(s, a, hooks), land);
    G.LetAdds(Prepared(s, a, hooks), land);
    p := |s1.log|;
    var s2 := s1.(log := s1.log + [a]);
    G.LetAdds(s2, land);
    var s3 := I.Let(s2, land);
    assert s3.log[p] == a;
    if call.error.Some? {
      var o := AgentErrorEvent(Raw(s3.next), a.toolCallId, call.error.value);
      G.LetAdds(Append(s3, o), land);
      var t := I.Store(s3, o, land);
      assert t.log[|s3.log|] == o && p < |s3.log|;
    }
  }

  /** The calls from the k-th on are recorded at ps, in order, none before from. */
  ghost predicate RecordedAt(log: seq<Event>, from: nat, reply: Reply, k: nat, ps: seq<nat>)
    requires k <= |reply.calls|
  {
    && |ps| == |reply.calls| - k
    && (forall i :: 0 <= i < |ps| ==> from <= ps[i] && CallAt(log, ps[i], reply, k + i))
    && (forall i, j :: 0 <= i < j < |ps| ==> ps[i] < ps[j])
  }

  lemma CallStays(log: seq<Event>, more: seq<Event>, p: nat, reply: Reply, k: nat)
    requires log <= more && k < |reply.calls| && CallAt(log, p, reply, k)
    ensures CallAt(more, p, reply, k)
  {
    var call := reply.calls[k];
    if call.error.Some? {
      var q :| p < q < |log| && log[q].AgentErrorEvent? && log[q].toolCallId == call.toolCall.id
        && log[q].content == call.error.value;
      assert more[q] == log[q];
    }
  }

  lemma RecordedCons(log: seq<Event>, from: nat, mid: nat, reply: Reply, k: nat, p: nat, ps: seq<nat>)
    requires k < |reply.calls| && from <= p < mid && CallAt(log, p, reply, k)
    requires RecordedAt(log, mid, reply, k + 1, ps) && from <= mid
    ensures RecordedAt(log, from, reply, k, [p] + ps)
  {
    var all := [p] + ps;
    forall i | 0 <= i < |all| ensures from <= all[i] && CallAt(log, all[i], reply, k + i) {
      if i > 0 {
        assert CallAt(log, ps[i - 1], reply, k + 1 + (i - 1));
      }
    }
  }

  lemma {:induction false} CallsAreRecorded(s: Session, reply: Reply, k: nat, hooks: Hooks, land: I.Landing)
    returns (ps: seq<nat>)
    requires k <= |reply.calls|
    ensures var t := I.GetActionEvents(s, reply, k, hooks, land);
            s.log <= t.log && RecordedAt(t.log, |s.log|, reply, k, ps)
    decreases |reply.calls| - k
  {
    ps := [];
    if k < |reply.calls| {
      var p := CallIsRecorded(s, reply, k, hooks, land);
      var mid := I.GetActionEvent(s, reply, k, hooks, land);
      var rest := CallsAreRecorded(mid, reply, k + 1, hooks, land);
      var log := I.GetActionEvents(mid, reply, k + 1, hooks, land).log;
      CallStays(mid.log, log, p, reply, k);
      RecordedCons(log, |s.log|, |mid.log|, reply, k, p, rest);
      ps := [p] + rest;
    }
  }

  // ----- steps --------------------------------------------------------------------------------------

  /** e is new in t. */
  ghost predicate Adds(s: Session, t: Session, e: Event) {
    s.log <= t.log && exists p :: |s.log| <= p < |t.log| && t.log[p] == e
  }

  /** What a step leaves that gets to the LLM. */
  ghost predicate RecordsOutcome(s: Session, o: Outcome, input: StepInput) {
    s.log <= o.s.log
    && match input.condense
       case CondenseFailed => o.raised
       case Condense(forgotten, summary, offset) =>
         !o.raised && exists id :: Adds(s, o.s, Condensation(id, forgotten, summary, offset))
       case KeepView =>
         match input.llm
         case MalformedCall(error) => !o.raised && exists id :: Adds(s, o.s, MessageEvent(id, User, error))
         case ContextExceeded =>
           if input.handlesRequests then !o.raised && exists id :: Adds(s, o.s, CondensationRequest(id)) else o.raised
         case LLMFailed => o.raised
         case Replied(reply) =>
           if reply.calls == [] then !o.raised && exists id :: Adds(s, o.s, MessageEvent(id, Agent, reply.content))
           else exists ps :: RecordedAt(o.s.log, |s.log|, reply, 0, ps)
  }

  lemma RecordedFrom(log: seq<Event>, from: nat, less: nat, more: seq<Event>, reply: Reply, ps: seq<nat>)
    requires log <= more && less <= from && RecordedAt(log, from, reply, 0, ps)
    ensures RecordedAt(more, less, reply, 0, ps)
  {
    forall i | 0 <= i < |ps| ensures less <= ps[i] && CallAt(more, ps[i], reply, 0 + i) {
      CallStays(log, more, ps[i], reply, 0 + i);
    }
  }

  lemma CallsReplyIsRecorded(s: Session, u: Session, reply: Reply, input: StepInput, hooks: Hooks, land: I.Landing)
    returns (ps: seq<nat>)
    requires s.log <= u.log && reply.calls != []
    ensures var o := I.HandleReply(u, reply, input, hooks, land);
            s.log <= o.s.log && RecordedAt(o.s.log, |s.log|, reply, 0, ps)
  {
    I.NewActionsAreActions(u, reply, 0, hooks, land);
    var actions, stored := I.NewActions(u, reply, 0, hooks, land), I.GetActionEvents(u, reply, 0, hooks, land);
    ps := CallsAreRecorded(u, reply, 0, hooks, land);
    G.LetAdds(SetStatus(stored, Waiting), land);
    E.ExecutionGrows(stored, actions, input.tool, land);
    var done := I.ExecuteActions(stored, actions, input.tool, land).s;
    G.LetAdds(Note(done, "token_ids"), land);
    RecordedFrom(stored.log, |u.log|, |s.log|, I.HandleReply(u, reply, input, hooks, land).s.log, reply, ps);
  }

  lemma TextReplyIsRecorded(s: Session, u: Session, reply: Reply, input: StepInput, hooks: Hooks, land: I.Landing)
    requires s.log <= u.log && reply.calls == []
    ensures var o := I.HandleReply(u, reply, input, hooks, land);
            && s.log <= o.s.log && !o.raised && Adds(s, o.s, MessageEvent(Raw(u.next), Agent, reply.content))
  {
    var m := MessageEvent(Raw(u.next), Agent, reply.content);
    StoredIsThere(s, u, m, land);
    var s1 := I.Store(u, m, land);
    G.LetAdds(Note(s1, "token_ids"), land);
    var s2 := I.Tokens(s1, reply, land);
    G.LetAdds(SetStatus(s2, Finished), land);
    var t := I.HandleReply(u, reply, input, hooks, land).s;
    assert t.log[|u.log|] == m;
  }

  /** A step that gets to the LLM records what it gets: the condensation, the reply with every call or its
      text, the message about a malformed call, the request for a condensation; or it raises. */
  lemma StepRecordsOutcome(s: Session, input: StepInput, hooks: Hooks, land: I.Landing)
    requires ReachesLLM(s)
    ensures RecordsOutcome(s, I.Step(s, input, hooks, land), input)
  {
    var u := I.Let(s, land);
    G.LetAdds(s, land);
    match input.condense
    case CondenseFailed =>
    case Condense(forgotten, summary, offset) =>
      StoredIsThere(s, u, Condensation(Raw(u.next), forgotten, summary, offset), land);
      assert Adds(s, I.Step(s, input, hooks, land).s, Condensation(Raw(u.next), forgotten, summary, offset));
    case KeepView =>
      match input.llm
      case MalformedCall(error) =>
        var p := MessageIsRecorded(u, error, hooks, land);
        assert Adds(s, I.Step(s, input, hooks, land).s, MessageEvent(Raw(u.next), User, error));
      case ContextExceeded =>
        StoredIsThere(s, u, CondensationRequest(Raw(u.next)), land);
        assert input.handlesRequests ==> Adds(s, I.Step(s, input, hooks, land).s, CondensationRequest(Raw(u.next)));
      case LLMFailed =>
      case Replied(reply) =>
        if reply.calls == [] {
          TextReplyIsRecorded(s, u, reply, input, hooks, land);
        } else {
          var ps := CallsReplyIsRecorded(s, u, reply, input, hooks, land);
        }
  }

  /** The token ids of a reply are recorded if there are any. */
  lemma TokensAreRecorded(s: Session, reply: Reply, land: I.Landing)
    ensures var t := I.Tokens(s, reply, land);
            if reply.tokens then Adds(s, t, StateEvent(Raw(s.next), "token_ids")) else t == s
  {
    var noted := Note(s, "token_ids");
    G.LetAdds(noted, land);
    assert noted.log[|s.log|] == StateEvent(Raw(s.next), "token_ids");
  }

  // ----- what the user does -------------------------------------------------------------------------

  predicate IsRejectionOf(o: Event, a: Event, reason: string) {
    a.ActionEvent? && o.UserRejectObservation? && o.actionId == a.id && o.toolCallId == a.toolCallId
    && o.content == reason
  }

  lemma {:induction false} RejectionsAreRecorded(s: Session, actions: seq<Event>, reason: string)
    requires forall a :: a in actions ==> a.ActionEvent?
    ensures var t := RejectAll(s, actions, reason);
            && |t.log| == |s.log| + |actions| && s.log <= t.log && t.status == s.status
            && forall i :: 0 <= i < |actions| ==> IsRejectionOf(t.log[|s.log| + i], actions[i], reason)
    decreases |actions|
  {
    if |actions| > 0 {
      var a, rest := actions[0], actions[1..];
      var mid := Append(s, UserRejectObservation(Raw(s.next), a.toolCallId, a.id, reason));
      RejectionsAreRecorded(mid, rest, reason);
      var t := RejectAll(s, actions, reason);
      forall i | 0 <= i < |actions| ensures IsRejectionOf(t.log[|s.log| + i], actions[i], reason) {
        if i > 0 {
          assert IsRejectionOf(t.log[|mid.log| + (i - 1)], rest[i - 1], reason);
        } else {
          assert t.log[|s.log|] == mid.log[|s.log|];
        }
      }
    }
  }

  /** A rejection ends a wait, and every action of the state's scan, and no other, gets the user's reason
      as its rejection, in order, at the end of the log. */
  lemma RejectionIsRecorded(s: Session, reason: string)
    ensures var t, u := RejectPending(s, reason), UnansweredFrom(s.log, 0);
            && t.status == (if s.status.Waiting? then Idle else s.status)
            && |t.log| == |s.log| + (if s.status.Waiting? then 1 else 0) + |u|
            && forall i :: 0 <= i < |u| ==> IsRejectionOf(t.log[|t.log| - |u| + i], u[i], reason)
  {
    UnansweredAreExecutable(s.log, 0);
    var u := UnansweredFrom(s.log, 0);
    var s1 := if s.status.Waiting? then SetStatus(s, Idle) else s;
    RejectionsAreRecorded(s1, u, reason);
  }

  /** The first of the actions with this name is at i. */
  ghost predicate FirstAt(actions: seq<Event>, name: string, i: nat) {
    && i < |actions| && actions[i].ActionEvent? && actions[i].toolCall.name == name
    && forall k :: 0 <= k < i ==> actions[k].ActionEvent? && actions[k].toolCall.name != name
  }

  lemma {:induction false} FirstNamedIsFirst(actions: seq<Event>, name: string)
    requires forall a :: a in actions ==> a.ActionEvent?
    ensures FirstNamed(actions, name).None? <==> forall a :: a in actions ==> a.toolCall.name != name
    ensures FirstNamed(actions, name).Some? ==>
              exists i: nat :: FirstAt(actions, name, i) && Some(actions[i]) == FirstNamed(actions, name)
    decreases |actions|
  {
    if |actions| > 0 {
      var rest := actions[1..];
      assert actions[0] in actions && actions == [actions[0]] + rest;
      FirstNamedIsFirst(rest, name);
      if actions[0].toolCall.name == name {
        assert FirstAt(actions, name, 0);
      } else if FirstNamed(rest, name).Some? {
        var i: nat :| FirstAt(rest, name, i) && rest[i] == FirstNamed(rest, name).value;
        assert actions[i + 1] == rest[i];
        assert FirstAt(actions, name, i + 1);
      }
    }
  }

  lemma FirstIsOne(actions: seq<Event>, name: string, i: nat, j: nat)
    requires FirstAt(actions, name, i) && FirstAt(actions, name, j)
    ensures i == j
  {
  }

  /** The answer to a memory review ends a wait and is the observation of the first review that the state's
      scan lists. */
  lemma AnswerIsRecorded(s: Session, content: string, i: nat)
    requires FirstAt(UnansweredFrom(s.log, 0), "memory_review", i)
    ensures var t, a := AnswerReview(s, content), UnansweredFrom(s.log, 0)[i];
            && t.status == (if s.status.Waiting? then Idle else s.status) && t.invoked == s.invoked
            && |t.log| == |s.log| + (if s.status.Waiting? then 2 else 1)
            && var o := t.log[|t.log| - 1];
               o.ObservationEvent? && o.actionId == a.id && o.toolCallId == a.toolCallId && o.content == content
  {
    var u := UnansweredFrom(s.log, 0);
    UnansweredAreExecutable(s.log, 0);
    FirstNamedIsFirst(u, MEMORY_REVIEW);
    assert u[i] in u;
    var j: nat :| FirstAt(u, MEMORY_REVIEW, j) && Some(u[j]) == FirstNamed(u, MEMORY_REVIEW);
    FirstIsOne(u, MEMORY_REVIEW, i, j);
  }

  /** Without a review to answer, an answer does nothing. */
  lemma NoReviewNoAnswer(s: Session, content: string)
    requires forall a :: a in UnansweredFrom(s.log, 0) && a.ActionEvent? ==> a.toolCall.name != "memory_review"
    ensures AnswerReview(s, content) == s
  {
    UnansweredAreExecutable(s.log, 0);
    var u := UnansweredFrom(s.log, 0);
    FirstNamedIsFirst(u, MEMORY_REVIEW);
    assert FirstNamed(u, MEMORY_REVIEW).None?;
  }

  /** What lands does what it says: an answer goes to its action, a pause pauses, a reset ends a wait. */
  lemma LandingIsRecorded(s: Session, o: I.Outside)
    ensures var t := I.Land(s, o);
            match o
            case Rejects(i, reason) =>
              i < |s.log| && IsExecutable(s.log[i]) ==>
                |t.log| == |s.log| + 1 && IsRejectionOf(t.log[|s.log|], s.log[i], reason) && t.status == s.status
            case Answers(i, content) =>
              i < |s.log| && IsExecutable(s.log[i]) && s.log[i].toolCall.name == "memory_review" ==>
                && |t.log| == |s.log| + 1 && t.log[|s.log|].ObservationEvent? && t.status == s.status
                && t.log[|s.log|].actionId == s.log[i].id && t.log[|s.log|].content == content
            case Pauses => t.status.Paused?
            case Fails => t.status.Failed?
            case Idles => t.status == if s.status.Waiting? then Idle else s.status
            case Notes(key) => |t.log| == |s.log| + 1 && t.status == s.status
  {
  }

  /** Only the last user message counts for whether the next step answers it. */
  lemma {:induction false} BlockedMessageIsTheLast(s: Session, n: nat, id: EventId)
    requires n <= |s.log|
    ensures BlockedLastMessage(s, n) == Some(id) <==>
              exists i :: 0 <= i < n && s.log[i].MessageEvent? && s.log[i].source.User? && s.log[i].id == id
                && id in s.blockedMessages
                && forall k :: i < k < n ==> !(s.log[k].MessageEvent? && s.log[k].source.User?)
    decreases n
  {
    if n > 0 && !IsUserMessage(s.log[n - 1]) {
      BlockedMessageIsTheLast(s, n - 1, id);
    }
  }
}
