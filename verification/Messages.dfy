/** Turning a view into the messages sent to the LLM. */
module Messages {
  import opened Events
  import opened View
  import opened Condenser
  import opened FromEvents

  datatype Message = Message(role: string, content: seq<string>, toolCalls: seq<ToolCall>,
                             toolCallId: Option<ToolCallId>,
                             reasoning: Option<string>, thinkingBlocks: seq<string>, reasoningItem: Option<string>)

  const REJECTED := "Action rejected: "

  function ToLLMMessage(e: Event): Message
    requires e.IsLLMConvertible()
  {
    match e
    case ActionEvent(_, _, _, toolCall, _, thought, reasoning, thinking, item) =>
      Message("assistant", thought, [toolCall], None, reasoning, thinking, item)
    case MessageEvent(_, source, content) =>
      Message(if source.Agent? then "assistant" else "user", [content], [], None, None, [], None)
    case SystemPromptEvent(_, content) => Message("system", [content], [], None, None, [], None)
    case CondensationSummaryEvent(_, content) => Message("user", [content], [], None, None, [], None)
    case UserRejectObservation(_, call, _, content) =>
      Message("tool", [REJECTED + content], [], Some(call), None, [], None)
    case _ => Message("tool", [e.content], [], Some(e.toolCallId), None, [], None)
  }

  /** Positions lo..hi-1 hold consecutive actions of one response, or one other event. */
  predicate IsRun(events: seq<Event>, lo: nat, hi: nat) {
    && lo < hi <= |events|
    && forall k :: lo < k < hi ==> SameBatch(events[lo], events[k])
  }

  /** The tool calls of the actions at lo..hi-1. */
  function ToolCalls(events: seq<Event>, lo: nat, hi: nat): seq<ToolCall>
    requires lo <= hi <= |events|
    decreases hi - lo
  {
    if lo == hi then []
    else (if events[lo].ActionEvent? then [events[lo].toolCall] else []) + ToolCalls(events, lo + 1, hi)
  }

  /** None stands for the assertion failure on a thought after the first action. */
  function Combine(events: seq<Event>, lo: nat, hi: nat): Option<Message>
    requires Convertible(events) && IsRun(events, lo, hi)
  {
    if hi == lo + 1 then Some(ToLLMMessage(events[lo]))
    else
      assert SameBatch(events[lo], events[lo + 1]);
      if exists k :: lo < k < hi && events[k].thought != [] then None
      else Some(Message("assistant", events[lo].thought, ToolCalls(events, lo, hi), None,
                        events[lo].reasoning, events[lo].thinkingBlocks, None))
  }

  predicate Convertible(events: seq<Event>) {
    forall e :: e in events ==> e.IsLLMConvertible()
  }

  // ----- runs -------------------------------------------------------------------------------

  datatype Span = Span(lo: nat, hi: nat)

  /** The end of the maximal run that starts at lo and holds lo..k-1. */
  function RunEnd(events: seq<Event>, lo: nat, k: nat): (hi: nat)
    requires IsRun(events, lo, k)
    ensures k <= hi && IsRun(events, lo, hi)
    ensures hi < |events| ==> !SameBatch(events[lo], events[hi])
    decreases |events| - k
  {
    if k == |events| || !SameBatch(events[lo], events[k]) then k else RunEnd(events, lo, k + 1)
  }

  /** The maximal runs of events[i..]; other events stand alone. */
  function Runs(events: seq<Event>, i: nat): seq<Span>
    requires i <= |events|
    decreases |events| - i
  {
    if i == |events| then []
    else
      var hi := RunEnd(events, i, i + 1);
      [Span(i, hi)] + Runs(events, hi)
  }

  ghost function MessagesFrom(events: seq<Event>, i: nat): Option<seq<Message>>
    requires Convertible(events) && i <= |events|
    decreases |events| - i
  {
    if i == |events| then Some([])
    else
      var hi := RunEnd(events, i, i + 1);
      match Combine(events, i, hi)
      case None => None
      case Some(m) => Prepend([m], MessagesFrom(events, hi))
  }

  ghost function MessagesOf(events: seq<Event>): Option<seq<Message>>
    requires Convertible(events)
  {
    MessagesFrom(events, 0)
  }

  ghost function Prepend(messages: seq<Message>, rest: Option<seq<Message>>): Option<seq<Message>> {
    match rest case None => None case Some(ms) => Some(messages + ms)
  }

  lemma PrependTwice(a: seq<Message>, b: seq<Message>, rest: Option<seq<Message>>)
    ensures Prepend(a, Prepend(b, rest)) == Prepend(a + b, rest)
    ensures Prepend([], rest) == rest
  {
    if rest.Some? {
      assert a + (b + rest.value) == a + b + rest.value && [] + rest.value == rest.value;
    }
  }

  method EventsToMessages(events: seq<Event>) returns (result: Option<seq<Message>>)
    requires Convertible(events)
    ensures result == MessagesOf(events)
  {
    var messages: seq<Message> := [];
    var i := 0;
    PrependTwice([], [], MessagesOf(events));
    while i < |events|
      invariant 0 <= i <= |events|
      invariant MessagesOf(events) == Prepend(messages, MessagesFrom(events, i))
    {
      var j := i + 1;
      if events[i].ActionEvent? {
        while j < |events| && SameBatch(events[i], events[j])
          invariant IsRun(events, i, j)
          invariant RunEnd(events, i, i + 1) == RunEnd(events, i, j)
        {
          j := j + 1;
        }
      }
      var message := Combine(events, i, j);
      if message.None? {
        return None;
      }
      PrependTwice(messages, [message.value], MessagesFrom(events, j));
      messages := messages + [message.value];
      i := j;
    }
    assert messages + [] == messages;
    return Some(messages);
  }

  // ----- what the messages say --------------------------------------------------------------

  /** spans cut i.. up to the end into runs none of which could be extended. */
  ghost predicate MaximalRuns(events: seq<Event>, i: nat, spans: seq<Span>) {
    && i <= |events|
    && (if |spans| == 0 then i == |events| else spans[0].lo == i && spans[|spans| - 1].hi == |events|)
    && (forall k :: 0 <= k < |spans| ==> IsRun(events, spans[k].lo, spans[k].hi))
    && (forall k :: 0 < k < |spans| ==>
         spans[k - 1].hi == spans[k].lo && !SameBatch(events[spans[k - 1].lo], events[spans[k].lo]))
  }

  lemma {:induction false} RunsAreMaximal(events: seq<Event>, i: nat)
    requires i <= |events|
    ensures MaximalRuns(events, i, Runs(events, i))
    decreases |events| - i
  {
    if i < |events| {
      var hi := RunEnd(events, i, i + 1);
      RunsAreMaximal(events, hi);
      var spans, rest := Runs(events, i), Runs(events, hi);
      assert forall k :: 0 < k < |spans| ==> spans[k] == rest[k - 1];
      assert spans[0] == Span(i, hi);
    }
  }

  function MessageCalls(messages: seq<Message>): seq<ToolCall> {
    if |messages| == 0 then [] else messages[0].toolCalls + MessageCalls(messages[1..])
  }

  lemma {:induction false} ToolCallsSplit(events: seq<Event>, lo: nat, mid: nat, hi: nat)
    requires lo <= mid <= hi <= |events|
    ensures ToolCalls(events, lo, hi) == ToolCalls(events, lo, mid) + ToolCalls(events, mid, hi)
    decreases mid - lo
  {
    if lo < mid {
      ToolCallsSplit(events, lo + 1, mid, hi);
    }
  }

  /** One message per maximal run, and together the messages carry every tool call, in order. */
  lemma {:induction false} MessagesKeepToolCalls(events: seq<Event>, i: nat)
    requires Convertible(events) && i <= |events| && MessagesFrom(events, i).Some?
    ensures |MessagesFrom(events, i).value| == |Runs(events, i)|
    ensures MessageCalls(MessagesFrom(events, i).value) == ToolCalls(events, i, |events|)
    decreases |events| - i
  {
    if i < |events| {
      var hi := RunEnd(events, i, i + 1);
      MessagesKeepToolCalls(events, hi);
      ToolCallsSplit(events, i, hi, |events|);
      var m, ms := Combine(events, i, hi).value, MessagesFrom(events, hi).value;
      assert m.toolCalls == ToolCalls(events, i, hi);
      assert ([m] + ms)[1..] == ms;
    }
  }

  /** A piece of text, with the tool call it answers. */
  datatype Part = Part(text: string, answers: Option<ToolCallId>)

  function Parts(content: seq<string>, answers: Option<ToolCallId>): seq<Part> {
    seq(|content|, i requires 0 <= i < |content| => Part(content[i], answers))
  }

  function MessageParts(messages: seq<Message>, role: string): seq<Part> {
    if |messages| == 0 then []
    else
      (if messages[0].role == role then Parts(messages[0].content, messages[0].toolCallId) else [])
      + MessageParts(messages[1..], role)
  }

  /** What an event has to say in a role: results answer as the tool, the user speaks and so do the
      environment and the summaries in the user's place, thoughts are the assistant's. */
  function EventParts(e: Event, role: string): seq<Part> {
    match e
    case ActionEvent(_, _, _, _, _, thought, _, _, _) => if role == "assistant" then Parts(thought, None) else []
    case ObservationEvent(_, call, _, content) => if role == "tool" then [Part(content, Some(call))] else []
    case UserRejectObservation(_, call, _, reason) =>
      if role == "tool" then [Part("Action rejected: " + reason, Some(call))] else []
    case AgentErrorEvent(_, call, content) => if role == "tool" then [Part(content, Some(call))] else []
    case MessageEvent(_, Agent, content) => if role == "assistant" then [Part(content, None)] else []
    case MessageEvent(_, _, content) => if role == "user" then [Part(content, None)] else []
    case SystemPromptEvent(_, content) => if role == "system" then [Part(content, None)] else []
    case CondensationSummaryEvent(_, content) => if role == "user" then [Part(content, None)] else []
    case _ => []
  }

  function AllParts(events: seq<Event>, lo: nat, hi: nat, role: string): seq<Part>
    requires lo <= hi <= |events|
    decreases hi - lo
  {
    if lo == hi then [] else EventParts(events[lo], role) + AllParts(events, lo + 1, hi, role)
  }

  lemma {:induction false} AllPartsSplit(events: seq<Event>, lo: nat, mid: nat, hi: nat, role: string)
    requires lo <= mid <= hi <= |events|
    ensures AllParts(events, lo, hi, role) == AllParts(events, lo, mid, role) + AllParts(events, mid, hi, role)
    decreases mid - lo
  {
    if lo < mid {
      AllPartsSplit(events, lo + 1, mid, hi, role);
    }
  }

  lemma {:induction false} NothingSaid(events: seq<Event>, lo: nat, hi: nat, role: string)
    requires lo <= hi <= |events| && forall k :: lo <= k < hi ==> events[k].ActionEvent? && events[k].thought == []
    ensures AllParts(events, lo, hi, role) == []
    decreases hi - lo
  {
    if lo < hi {
      NothingSaid(events, lo + 1, hi, role);
    }
  }

  lemma RolesDiffer()
    ensures "assistant" != "tool" && "user" != "tool" && "system" != "tool"
    ensures "assistant" != "user" && "assistant" != "system" && "user" != "system"
  {
    assert "assistant"[0] == 'a' && "tool"[0] == 't' && "user"[0] == 'u' && "system"[0] == 's';
  }

  lemma PartsOfOne(e: Event, role: string)
    requires e.IsLLMConvertible()
    ensures MessageParts([ToLLMMessage(e)], role) == EventParts(e, role)
  {
    var m := ToLLMMessage(e);
    assert [m][1..] == [];
    if !e.ActionEvent? {
      assert Parts([m.content[0]], m.toolCallId) == [Part(m.content[0], m.toolCallId)] && m.content == [m.content[0]];
    }
  }

  lemma CombinedParts(events: seq<Event>, lo: nat, hi: nat, role: string)
    requires Convertible(events) && IsRun(events, lo, hi) && Combine(events, lo, hi).Some?
    ensures MessageParts([Combine(events, lo, hi).value], role) == AllParts(events, lo, hi, role)
  {
    var m := Combine(events, lo, hi).value;
    assert [m][1..] == [];
    if hi == lo + 1 {
      PartsOfOne(events[lo], role);
      assert AllParts(events, lo, hi, role) == EventParts(events[lo], role) + [];
    } else {
      assert SameBatch(events[lo], events[lo + 1]);
      NothingSaid(events, lo + 1, hi, role);
    }
  }

  lemma MessagePartsCons(m: Message, ms: seq<Message>, role: string)
    ensures MessageParts([m] + ms, role) == MessageParts([m], role) + MessageParts(ms, role)
  {
    assert ([m] + ms)[1..] == ms && [m][1..] == [];
  }

  /** In every role the messages say what the events say, in order, and nothing else: every result
      answers its tool call, no text is lost, and none changes its role. */
  lemma {:induction false} MessagesKeepParts(events: seq<Event>, i: nat, role: string)
    requires Convertible(events) && i <= |events| && MessagesFrom(events, i).Some?
    ensures MessageParts(MessagesFrom(events, i).value, role) == AllParts(events, i, |events|, role)
    decreases |events| - i
  {
    if i < |events| {
      var hi := RunEnd(events, i, i + 1);
      MessagesKeepParts(events, hi, role);
      AllPartsSplit(events, i, hi, |events|, role);
      CombinedParts(events, i, hi, role);
      MessagePartsCons(Combine(events, i, hi).value, MessagesFrom(events, hi).value, role);
    }
  }

  /** Two neighbours of one response: the second must have no thought. */
  ghost predicate NoLaterThought(events: seq<Event>, i: nat) {
    forall k :: i < k < |events| ==> Quiet(events[k - 1], events[k])
  }

  ghost predicate Quiet(a: Event, b: Event) {
    SameBatch(a, b) ==> b.thought == []
  }

  /** The conversion fails exactly when an action that directly follows one of its own response
      carries a thought. */
  lemma {:induction false} MessagesFailExactly(events: seq<Event>, i: nat)
    requires Convertible(events) && i <= |events|
    ensures MessagesFrom(events, i).Some? <==> NoLaterThought(events, i)
    decreases |events| - i
  {
    if i < |events| {
      var hi := RunEnd(events, i, i + 1);
      MessagesFailExactly(events, hi);
      NoLaterThoughtSplit(events, i, hi);
    }
  }

  lemma NoLaterThoughtSplit(events: seq<Event>, lo: nat, hi: nat)
    requires IsRun(events, lo, hi) && (hi < |events| ==> !SameBatch(events[lo], events[hi]))
    ensures NoLaterThought(events, lo) <==>
            (forall k :: lo < k < hi ==> events[k].thought == []) && NoLaterThought(events, hi)
  {
    if NoLaterThought(events, lo) {
      forall k | lo < k < hi ensures events[k].thought == [] {
        assert Quiet(events[k - 1], events[k]);
      }
    }
    if hi < |events| {
      assert Quiet(events[hi - 1], events[hi]);
    }
  }

  // ----- messages of a view -------------------------------------------------------------------

  /** Only the first action of a response carries a thought. */
  ghost predicate ThoughtFirst(s: seq<Event>) {
    forall i, j :: 0 <= i < j < |s| && SameBatch(s[i], s[j]) ==> s[j].thought == []
  }

  lemma KeepThoughtFirst(s: seq<Event>, K: set<Event>)
    requires ThoughtFirst(s)
    ensures ThoughtFirst(Keep(s, K))
  {
    if |s| > 0 {
      var front := s[..|s| - 1];
      KeepThoughtFirst(front, K);
      KeepMembers(front, K);
      var r := Keep(front, K);
      assert forall i :: 0 <= i < |r| ==> r[i] in r && r[i] in front;
    }
  }

  lemma InsertThoughtFirst(s: seq<Event>, k: nat, e: Event)
    requires ThoughtFirst(s) && !e.ActionEvent?
    ensures ThoughtFirst(InsertAt(s, k, e))
  {
    var t := InsertAt(s, k, e);
    forall i, j | 0 <= i < j < |t| && SameBatch(t[i], t[j]) ensures t[j].thought == [] {
      InsertedAt(s, k, e, i);
      InsertedAt(s, k, e, j);
    }
  }

  lemma CondensedThoughtFirst(c: Event, output: seq<Event>)
    requires c.Condensation? && ThoughtFirst(output) && Convertible(output)
    ensures ThoughtFirst(Apply(c, output)) && Convertible(Apply(c, output))
  {
    AppliedMembers(c, output);
    KeepThoughtFirst(output, set f | f in output && f.id !in c.forgotten);
    if HasSummaryMetadata(c) {
      InsertThoughtFirst(Remembered(c, output), c.summaryOffset.value, SummaryEvent(c));
    }
  }

  lemma AddedThoughtFirst(front: seq<Event>, e: Event)
    requires StoredLog(front) && ThoughtFirst(front + [e]) && e.IsLLMConvertible()
    requires ThoughtFirst(Visible(front)) && Convertible(Visible(front))
    ensures ThoughtFirst(Visible(front) + [e]) && Convertible(Visible(front) + [e])
  {
    var output := Visible(front);
    VisibleProperties(front);
    forall i | 0 <= i < |output| && SameBatch(output[i], e) ensures e.thought == [] {
      assert Derived(output[i], front);
      var k :| 0 <= k < |front| && front[k] == output[i];
      assert (front + [e])[k] == output[i] && (front + [e])[|front|] == e;
    }
  }

  lemma {:induction false} VisibleThoughtFirst(log: seq<Event>)
    requires StoredLog(log) && ThoughtFirst(log)
    ensures ThoughtFirst(Visible(log)) && Convertible(Visible(log))
  {
    if |log| > 0 {
      var front, e := log[..|log| - 1], log[|log| - 1];
      assert log == front + [e];
      StoredPrefix(front, e);
      VisibleThoughtFirst(front);
      if e.Condensation? {
        CondensedThoughtFirst(e, Visible(front));
      } else if e.IsLLMConvertible() {
        AddedThoughtFirst(front, e);
      }
    }
  }

  /** The messages of a view of a log in which only first actions carry thoughts never fail,
      whatever has been condensed. */
  lemma ViewMessagesNeverFail(log: seq<Event>)
    requires StoredLog(log) && ThoughtFirst(log)
    ensures Convertible(ViewEvents(log)) && MessagesOf(ViewEvents(log)).Some?
  {
    ViewIsGreatestStable(log);
    VisibleThoughtFirst(log);
    var K := Elements(ViewEvents(log));
    KeepMembers(Visible(log), K);
    KeepThoughtFirst(Visible(log), K);
    MessagesFailExactly(ViewEvents(log), 0);
  }

  // ----- the reasoning item ---------------------------------------------------------------------

  /** The message of a run that starts with an action keeps its reasoning item exactly if the run is
      that action alone, or there is no item. */
  predicate KeepsReasoningItem(events: seq<Event>, run: Span)
    requires Convertible(events) && IsRun(events, run.lo, run.hi) && events[run.lo].ActionEvent?
  {
    run.hi == run.lo + 1 || events[run.lo].reasoningItem.None?
  }

  lemma CombinedReasoningItem(events: seq<Event>, run: Span)
    requires Convertible(events) && IsRun(events, run.lo, run.hi) && events[run.lo].ActionEvent?
    requires Combine(events, run.lo, run.hi).Some?
    ensures Combine(events, run.lo, run.hi).value.reasoningItem == events[run.lo].reasoningItem <==>
            KeepsReasoningItem(events, run)
  {
  }

  /** The m-th message is that of the m-th run. */
  lemma {:induction false} MessageOfRun(events: seq<Event>, i: nat, m: nat)
    requires Convertible(events) && i <= |events| && MessagesFrom(events, i).Some? && m < |Runs(events, i)|
    ensures m < |MessagesFrom(events, i).value|
    ensures var run := Runs(events, i)[m];
            IsRun(events, run.lo, run.hi) && Combine(events, run.lo, run.hi) == Some(MessagesFrom(events, i).value[m])
    decreases m
  {
    if m > 0 {
      MessageOfRun(events, RunEnd(events, i, i + 1), m - 1);
    }
  }

  /** message stands for a run: it carries the thought, the reasoning and the thinking blocks of the first
      action and the tool calls of all, or, for another event, none of these. */
  ghost predicate StandsFor(message: Message, events: seq<Event>, run: Span)
    requires run.lo <= run.hi <= |events|
  {
    && message.toolCalls == ToolCalls(events, run.lo, run.hi)
    && if run.lo < |events| && events[run.lo].ActionEvent? then
         && message.role == "assistant" && message.content == events[run.lo].thought
         && message.reasoning == events[run.lo].reasoning
         && message.thinkingBlocks == events[run.lo].thinkingBlocks
       else message.reasoning.None? && message.thinkingBlocks == [] && message.reasoningItem.None?
  }

  lemma CombinedStandsFor(events: seq<Event>, run: Span)
    requires Convertible(events) && IsRun(events, run.lo, run.hi) && Combine(events, run.lo, run.hi).Some?
    ensures StandsFor(Combine(events, run.lo, run.hi).value, events, run)
  {
    assert ToolCalls(events, run.lo + 1, run.lo + 1) == [];
    if run.hi > run.lo + 1 {
      assert SameBatch(events[run.lo], events[run.lo + 1]);
    }
  }

  /** Every message stands for its run. */
  lemma ResponseMessage(events: seq<Event>, m: nat)
    requires Convertible(events) && MessagesOf(events).Some? && m < |Runs(events, 0)|
    ensures m < |MessagesOf(events).value| && Runs(events, 0)[m].lo <= Runs(events, 0)[m].hi <= |events|
    ensures StandsFor(MessagesOf(events).value[m], events, Runs(events, 0)[m])
  {
    MessageOfRun(events, 0, m);
    CombinedStandsFor(events, Runs(events, 0)[m]);
  }

  /** Over a whole conversion: the reasoning item of a response is kept exactly if its run is one action,
      or there is none. */
  lemma ReasoningItemKeptExactly(events: seq<Event>, m: nat)
    requires Convertible(events) && MessagesOf(events).Some? && m < |Runs(events, 0)|
    requires var run := Runs(events, 0)[m]; run.lo < |events| && events[run.lo].ActionEvent?
    ensures m < |MessagesOf(events).value| && IsRun(events, Runs(events, 0)[m].lo, Runs(events, 0)[m].hi)
    ensures var run := Runs(events, 0)[m];
            MessagesOf(events).value[m].reasoningItem == events[run.lo].reasoningItem <==>
              KeepsReasoningItem(events, run)
  {
    MessageOfRun(events, 0, m);
    CombinedReasoningItem(events, Runs(events, 0)[m]);
  }

  // ----- calls and their results in a prompt ----------------------------------------------------

  /** A run of its own for an event that is no action, the run of its response for an action. */
  lemma {:induction false} RunAt(events: seq<Event>, i: nat, k: nat) returns (m: nat)
    requires i <= k < |events|
    ensures m < |Runs(events, i)| && Runs(events, i)[m].lo <= k < Runs(events, i)[m].hi
    decreases |events| - i
  {
    var hi := RunEnd(events, i, i + 1);
    if k < hi {
      m := 0;
    } else {
      m := RunAt(events, hi, k);
      m := m + 1;
    }
  }

  lemma {:induction false} RunsInOrder(events: seq<Event>, m: nat, n: nat)
    requires m < n < |Runs(events, 0)|
    ensures Runs(events, 0)[m].hi <= Runs(events, 0)[n].lo
    decreases n
  {
    RunsAreMaximal(events, 0);
    if m < n - 1 {
      RunsInOrder(events, m, n - 1);
      assert IsRun(events, Runs(events, 0)[n - 1].lo, Runs(events, 0)[n - 1].hi);
    }
  }

  lemma {:induction false} ToolCallsMembers(events: seq<Event>, lo: nat, hi: nat)
    requires lo <= hi <= |events|
    ensures forall c :: c in ToolCalls(events, lo, hi) <==>
              exists k :: lo <= k < hi && events[k].ActionEvent? && events[k].toolCall == c
    decreases hi - lo
  {
    if lo < hi {
      ToolCallsMembers(events, lo + 1, hi);
    }
  }

  /** A later message is the result of call c. */
  ghost predicate AnsweredLater(messages: seq<Message>, m: nat, c: ToolCallId) {
    exists n :: m < n < |messages| && messages[n].role == "tool" && messages[n].toolCallId == Some(c)
  }

  /** An earlier message makes call c. */
  ghost predicate CalledBefore(messages: seq<Message>, n: nat, c: ToolCallId) {
    exists m, call :: 0 <= m < n && m < |messages| && call in messages[m].toolCalls && call.id == c
  }

  ghost predicate CallIdsAgree(s: seq<Event>) {
    forall e :: e in s && e.ActionEvent? ==> e.toolCall.id == e.toolCallId
  }

  lemma RunOfSeveral(events: seq<Event>, run: Span)
    requires IsRun(events, run.lo, run.hi) && run.hi > run.lo + 1
    ensures forall k :: run.lo <= k < run.hi ==> events[k].ActionEvent?
  {
    assert SameBatch(events[run.lo], events[run.lo + 1]);
  }

  lemma AloneInItsRun(events: seq<Event>, run: Span, q: nat)
    requires IsRun(events, run.lo, run.hi) && run.lo <= q < run.hi && !events[q].ActionEvent?
    ensures run == Span(q, q + 1)
  {
    if run.hi > run.lo + 1 {
      RunOfSeveral(events, run);
    }
  }

  lemma CallInMessage(events: seq<Event>, k: nat) returns (m: nat)
    requires Convertible(events) && MessagesOf(events).Some? && k < |events| && events[k].ActionEvent?
    ensures m < |Runs(events, 0)| && Runs(events, 0)[m].lo <= k < Runs(events, 0)[m].hi
    ensures m < |MessagesOf(events).value| && events[k].toolCall in MessagesOf(events).value[m].toolCalls
  {
    m := RunAt(events, 0, k);
    ResponseMessage(events, m);
    ToolCallsMembers(events, Runs(events, 0)[m].lo, Runs(events, 0)[m].hi);
  }

  lemma ResultInMessage(events: seq<Event>, q: nat) returns (n: nat)
    requires Convertible(events) && MessagesOf(events).Some? && q < |events| && events[q].IsObservation()
    ensures n < |Runs(events, 0)| && Runs(events, 0)[n] == Span(q, q + 1)
    ensures n < |MessagesOf(events).value|
    ensures var message := MessagesOf(events).value[n];
            message.role == "tool" && message.toolCallId == Some(events[q].toolCallId)
  {
    n := RunAt(events, 0, q);
    MessageOfRun(events, 0, n);
    AloneInItsRun(events, Runs(events, 0)[n], q);
  }

  /** The message of the action at k comes before that of the result at q. */
  lemma PairInMessages(events: seq<Event>, k: nat, q: nat) returns (m: nat, n: nat)
    requires Convertible(events) && MessagesOf(events).Some? && k < |events| && q < |events|
    requires events[k].ActionEvent? && events[q].IsObservation() && events[q].toolCallId == events[k].toolCallId
    requires ResultsFollow(events)
    ensures var ms := MessagesOf(events).value;
            && m < n < |ms| && events[k].toolCall in ms[m].toolCalls
            && ms[n].role == "tool" && ms[n].toolCallId == Some(events[k].toolCallId)
    ensures m < |Runs(events, 0)| && Runs(events, 0)[m].lo <= k < Runs(events, 0)[m].hi
    ensures n < |Runs(events, 0)| && Runs(events, 0)[n] == Span(q, q + 1)
  {
    m := CallInMessage(events, k);
    n := ResultInMessage(events, q);
    if n < m {
      RunsInOrder(events, n, m);
    }
  }

  /** In the prompt made from any stored log, every tool call is answered by a later tool message with
      its id, and every tool message answers an earlier call. */
  lemma PromptIsPaired(log: seq<Event>)
    requires StoredLog(log) && ThoughtFirst(log) && CallIdsAgree(log)
    ensures Convertible(ViewEvents(log)) && MessagesOf(ViewEvents(log)).Some?
    ensures var ms := MessagesOf(ViewEvents(log)).value;
            forall m: nat, c :: m < |ms| && c in ms[m].toolCalls ==> AnsweredLater(ms, m, c.id)
    ensures var ms := MessagesOf(ViewEvents(log)).value;
            forall n: nat :: n < |ms| && ms[n].role == "tool" ==>
              ms[n].toolCallId.Some? && CalledBefore(ms, n, ms[n].toolCallId.value)
  {
    ViewMessagesNeverFail(log);
    var v := ViewEvents(log);
    var ms := MessagesOf(v).value;
    ViewPairs(log);
    MessagesKeepToolCalls(v, 0);
    forall m: nat, c | m < |ms| && c in ms[m].toolCalls ensures AnsweredLater(ms, m, c.id) {
      CallIsAnswered(v, m, c);
    }
    forall n: nat | n < |ms| && ms[n].role == "tool"
      ensures ms[n].toolCallId.Some? && CalledBefore(ms, n, ms[n].toolCallId.value)
    {
      ResultIsCalledFor(v, n);
    }
  }

  /** Every action has a result after it, and every result its action before it. */
  ghost predicate WellPaired(v: seq<Event>) {
    && ResultsFollow(v) && CallIdsAgree(v)
    && (forall a :: a in v && a.ActionEvent? ==> Answered(a, Elements(v)))
    && (forall o :: o in v && o.IsObservation() ==> CalledFor(o, Elements(v)))
  }

  lemma ViewPairs(log: seq<Event>)
    requires StoredLog(log) && CallIdsAgree(log)
    ensures WellPaired(ViewEvents(log))
  {
    VisibleProperties(log);
    ViewIsGreatestStable(log);
    KeepResultsFollow(Visible(log), Elements(ViewEvents(log)));
    KeepMembers(Visible(log), Elements(ViewEvents(log)));
    forall e | e in ViewEvents(log) && e.ActionEvent? ensures e.toolCall.id == e.toolCallId {
      assert Derived(e, log);
    }
  }

  lemma CallIsAnswered(v: seq<Event>, m: nat, c: ToolCall)
    requires Convertible(v) && MessagesOf(v).Some? && WellPaired(v)
    requires m < |MessagesOf(v).value| && m < |Runs(v, 0)| && c in MessagesOf(v).value[m].toolCalls
    ensures AnsweredLater(MessagesOf(v).value, m, c.id)
  {
    var k := ActionOfCall(v, m, c);
    var q := ResultOf(v, k);
    var m', n := PairInMessages(v, k, q);
    SameRun(v, k, m, m');
  }

  lemma ActionOfCall(v: seq<Event>, m: nat, c: ToolCall) returns (k: nat)
    requires Convertible(v) && MessagesOf(v).Some?
    requires m < |MessagesOf(v).value| && m < |Runs(v, 0)| && c in MessagesOf(v).value[m].toolCalls
    ensures k < |v| && v[k].ActionEvent? && v[k].toolCall == c
    ensures Runs(v, 0)[m].lo <= k < Runs(v, 0)[m].hi
  {
    ResponseMessage(v, m);
    var run := Runs(v, 0)[m];
    ToolCallsMembers(v, run.lo, run.hi);
    k :| run.lo <= k < run.hi && v[k].ActionEvent? && v[k].toolCall == c;
  }

  lemma ResultOf(v: seq<Event>, k: nat) returns (q: nat)
    requires WellPaired(v) && k < |v| && v[k].ActionEvent?
    ensures q < |v| && v[q].IsObservation() && v[q].toolCallId == v[k].toolCallId
  {
    assert v[k] in v && Answered(v[k], Elements(v));
    var o :| o in Elements(v) && o.IsObservation() && o.toolCallId == v[k].toolCallId;
    q :| 0 <= q < |v| && v[q] == o;
  }

  lemma SameRun(v: seq<Event>, k: nat, m: nat, n: nat)
    requires m < |Runs(v, 0)| && n < |Runs(v, 0)|
    requires Runs(v, 0)[m].lo <= k < Runs(v, 0)[m].hi && Runs(v, 0)[n].lo <= k < Runs(v, 0)[n].hi
    ensures m == n
  {
    if m < n {
      RunsInOrder(v, m, n);
    } else if n < m {
      RunsInOrder(v, n, m);
    }
  }

  lemma ResultIsCalledFor(v: seq<Event>, n: nat)
    requires Convertible(v) && MessagesOf(v).Some? && WellPaired(v)
    requires n < |MessagesOf(v).value| && n < |Runs(v, 0)| && MessagesOf(v).value[n].role == "tool"
    ensures var message := MessagesOf(v).value[n];
            message.toolCallId.Some? && CalledBefore(MessagesOf(v).value, n, message.toolCallId.value)
  {
    var q := ResultOfMessage(v, n);
    var k := ActionOfResult(v, q);
    var m, n' := PairInMessages(v, k, q);
    SameRun(v, q, n, n');
  }

  lemma ResultOfMessage(v: seq<Event>, n: nat) returns (q: nat)
    requires Convertible(v) && MessagesOf(v).Some?
    requires n < |MessagesOf(v).value| && n < |Runs(v, 0)| && MessagesOf(v).value[n].role == "tool"
    ensures q < |v| && v[q].IsObservation() && Runs(v, 0)[n].lo <= q < Runs(v, 0)[n].hi
  {
    ResponseMessage(v, n);
    MessageOfRun(v, 0, n);
    RolesDiffer();
    q := Runs(v, 0)[n].lo;
    assert !v[q].ActionEvent?;
    OnlyResultsAnswer(v[q]);
  }

  lemma OnlyResultsAnswer(e: Event)
    requires e.IsLLMConvertible()
    ensures ToLLMMessage(e).role == "tool" <==> e.IsObservation()
  {
    RolesDiffer();
  }

  lemma ActionOfResult(v: seq<Event>, q: nat) returns (k: nat)
    requires WellPaired(v) && q < |v| && v[q].IsObservation()
    ensures k < |v| && v[k].ActionEvent? && v[k].toolCallId == v[q].toolCallId
  {
    assert CalledFor(v[q], Elements(v));
    var a :| a in Elements(v) && a.ActionEvent? && a.toolCallId == v[q].toolCallId;
    k :| 0 <= k < |v| && v[k] == a;
  }
}
