/** The entries of an agent's append-only event log, as values. */
module Events {

  datatype Option<+T> = None | Some(value: T)

  /** Event ids are fresh UUIDs, here numbers; a summary event carries the id of its
      condensation with "-summary" appended, so it never equals a stored id. */
  datatype EventId = Raw(n: nat) | SummaryOf(of: EventId)

  type ToolCallId = string
  type ResponseId = string

  datatype Source = Agent | User | Environment

  datatype ToolCall = ToolCall(id: ToolCallId, name: string, arguments: string)

  datatype Event =
    | ActionEvent(id: EventId, responseId: ResponseId, toolCallId: ToolCallId, toolCall: ToolCall,
                  executable: bool, thought: seq<string>, reasoning: Option<string>,
                  thinkingBlocks: seq<string>, reasoningItem: Option<string>)
    | ObservationEvent(id: EventId, toolCallId: ToolCallId, actionId: EventId, content: string)
    | UserRejectObservation(id: EventId, toolCallId: ToolCallId, actionId: EventId, content: string)
    | AgentErrorEvent(id: EventId, toolCallId: ToolCallId, content: string)
    | MessageEvent(id: EventId, source: Source, content: string)
    | SystemPromptEvent(id: EventId, content: string)
    | CondensationSummaryEvent(id: EventId, content: string)
    | Condensation(id: EventId, forgotten: seq<EventId>, summary: Option<string>, summaryOffset: Option<nat>)
    | CondensationRequest(id: EventId)
    | StateEvent(id: EventId, key: string)  // state updates, pauses, token ids, run errors
  {
    /** The subclasses of ObservationBaseEvent. */
    predicate IsObservation() {
      ObservationEvent? || UserRejectObservation? || AgentErrorEvent?
    }

    predicate IsLLMConvertible() {
      ActionEvent? || IsObservation() || MessageEvent? || SystemPromptEvent? || CondensationSummaryEvent?
    }

    /** Neither an action nor a response to one: such an event ends a tool loop. */
    predicate IsNonBatch() {
      !ActionEvent? && !IsObservation()
    }
  }

  function Ids(s: seq<Event>): set<EventId> {
    set e | e in s :: e.id
  }

  /** The elements of s that lie in K, in order. */
  function Keep<T(==)>(s: seq<T>, K: set<T>): seq<T> {
    if |s| == 0 then []
    else
      var front := Keep(s[..|s| - 1], K);
      if s[|s| - 1] in K then front + [s[|s| - 1]] else front
  }

  function Elements<T(==)>(s: seq<T>): set<T> {
    set e | e in s
  }

  lemma KeepMembers<T>(s: seq<T>, K: set<T>)
    ensures forall e :: e in Keep(s, K) <==> e in s && e in K
  {
    if |s| > 0 {
      assert s == s[..|s| - 1] + [s[|s| - 1]];
      KeepMembers(s[..|s| - 1], K);
    }
  }

  lemma KeepSame<T>(s: seq<T>, K: set<T>, L: set<T>)
    requires forall e :: e in s ==> (e in K <==> e in L)
    ensures Keep(s, K) == Keep(s, L)
  {
    if |s| > 0 {
      KeepSame(s[..|s| - 1], K, L);
    }
  }

  lemma KeepAll<T>(s: seq<T>, K: set<T>)
    requires forall e :: e in s ==> e in K
    ensures Keep(s, K) == s
  {
    if |s| > 0 {
      KeepAll(s[..|s| - 1], K);
      assert s == s[..|s| - 1] + [s[|s| - 1]];
    }
  }

  lemma KeepNone<T>(s: seq<T>, K: set<T>)
    requires forall e :: e in s ==> e !in K
    ensures Keep(s, K) == []
  {
    if |s| > 0 {
      KeepNone(s[..|s| - 1], K);
    }
  }

  lemma KeepConcat<T>(s: seq<T>, t: seq<T>, K: set<T>)
    ensures Keep(s + t, K) == Keep(s, K) + Keep(t, K)
  {
    if |t| == 0 {
      assert s + t == s;
    } else {
      assert (s + t)[..|s + t| - 1] == s + t[..|t| - 1];
      KeepConcat(s, t[..|t| - 1], K);
    }
  }

  lemma KeepCons<T>(e: T, s: seq<T>, K: set<T>)
    ensures Keep([e] + s, K) == if e in K then [e] + Keep(s, K) else Keep(s, K)
  {
    KeepConcat([e], s, K);
    assert [e][..0] == [];
  }

  lemma KeepKeep<T>(s: seq<T>, K: set<T>, L: set<T>)
    ensures Keep(Keep(s, K), L) == Keep(s, K * L)
  {
    if |s| > 0 {
      var e := s[|s| - 1];
      KeepKeep(s[..|s| - 1], K, L);
      KeepConcat(Keep(s[..|s| - 1], K), [e], L);
    }
  }
}
