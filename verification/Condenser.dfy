/** Condensation events: which events to forget and where to put the summary. */
module Condenser {
  import opened Events

  /** Built on demand, never stored; its id is derived from the condensation's. */
  function SummaryEvent(c: Event): (e: Event)
    requires c.Condensation? && c.summary.Some?
  {
    CondensationSummaryEvent(SummaryOf(c.id), c.summary.value)
  }

  predicate HasSummaryMetadata(c: Event)
    requires c.Condensation?
  {
    c.summary.Some? && c.summaryOffset.Some?
  }

  /** list.insert: a position past the end appends. */
  function InsertAt(s: seq<Event>, k: nat, e: Event): seq<Event> {
    if k < |s| then s[..k] + [e] + s[k..] else s + [e]
  }

  function Remembered(c: Event, events: seq<Event>): seq<Event>
    requires c.Condensation?
  {
    Keep(events, set e | e in events && e.id !in c.forgotten)
  }

  function Apply(c: Event, events: seq<Event>): seq<Event>
    requires c.Condensation?
  {
    var output := Remembered(c, events);
    if HasSummaryMetadata(c) then InsertAt(output, c.summaryOffset.value, SummaryEvent(c)) else output
  }

  lemma KeepInsert(s: seq<Event>, k: nat, e: Event, K: set<Event>)
    requires e in K
    ensures var k' := if k < |s| then k else |s|;
            Keep(InsertAt(s, k, e), K) == Keep(s[..k'], K) + [e] + Keep(s[k'..], K)
  {
    var k' := if k < |s| then k else |s|;
    assert InsertAt(s, k, e) == s[..k'] + [e] + s[k'..];
    KeepConcat(s[..k'] + [e], s[k'..], K);
    KeepConcat(s[..k'], [e], K);
    assert [e][..0] == [];
  }
}
