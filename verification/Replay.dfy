/** A client connects while events are being logged and broadcast: subscription first, then the
    replay of the log, page by page; and what the client's store makes of what arrives. */
module Replay {
  import opened Events
  import opened Paging

  /** One connection to the server. early, late, read and first are history. */
  datatype Connection = Connection(
    log: seq<Entry>,
    broadcast: set<Entry>,       // the events whose broadcast has run
    subscribed: bool,
    early: set<Entry>,           // those broadcast before the subscription
    searched: bool,              // a page has been read
    pageId: string,              // the next page
    pending: seq<Entry>,         // read but not yet sent
    read: seq<Entry>,            // all read so far
    first: seq<Entry>,           // the listing when the first page was read
    late: set<Entry>,            // those appended where no later page will look
    sent: seq<Entry>)

  const OPENED := Connection([], {}, false, {}, false, NONE, [], [], [], {}, [])

  datatype Step = Append(e: Entry) | Broadcast(e: Entry) | Subscribe | ReadPage | SendNext

  ghost predicate Enabled(s: Connection, step: Step, logFirst: bool) {
    match step
    case Append(e) =>
      && e.id != NONE && (forall x :: x in s.log ==> x.id != e.id)
      && (forall x :: x in s.broadcast && x.id == e.id ==> x == e)
    case Broadcast(e) =>
      && e !in s.broadcast && (forall x :: x in s.log && x.id == e.id ==> x == e)
      && (forall x :: x in s.broadcast ==> x.id != e.id)
      && (logFirst ==> e in s.log)
    case Subscribe => !s.subscribed
    case ReadPage => s.subscribed && s.pending == [] && (!s.searched || s.pageId != NONE)
    case SendNext => s.pending != []
  }

  /** An entry appended now is not read any more: the replay is over, or e sorts before the first entry
      of the page to come. */
  predicate TooLate(s: Connection, e: Entry, q: Query) {
    s.searched && (s.pageId == NONE || exists x :: x in s.log && x.id == s.pageId && !InOrder(x, e, q.descending))
  }

  function Do(s: Connection, step: Step, q: Query): Connection {
    match step
    case Append(e) => s.(log := s.log + [e], late := if TooLate(s, e, q) then s.late + {e} else s.late)
    case Broadcast(e) =>
      if s.subscribed then s.(broadcast := s.broadcast + {e}, sent := s.sent + [e])
      else s.(broadcast := s.broadcast + {e}, early := s.early + {e})
    case Subscribe => s.(subscribed := true)
    case ReadPage =>
      var page := PageOf(Listed(s.log, q), s.pageId, q.limit);
      s.(searched := true, pageId := page.next, pending := page.items, read := s.read + page.items,
         first := if s.searched then s.first else Listed(s.log, q))
    case SendNext =>
      if |s.pending| == 0 then s else s.(pending := s.pending[1..], sent := s.sent + [s.pending[0]])
  }

  /** The replay is over. */
  predicate Replayed(s: Connection) {
    s.searched && s.pageId == NONE && s.pending == []
  }

  /** The search of the socket: everything, in pages of at least one. */
  ghost predicate WholeLog(q: Query) {
    q.limit >= 1 && forall e :: q.passes(e)
  }

  /** The socket's side of a connection, one method per stretch between awaits. */
  class EventsSocket {
    var log: seq<Entry>
    var subscribed: bool
    var searched: bool
    var pageId: string
    var pending: seq<Entry>
    var sent: seq<Entry>
    ghost var broadcast: set<Entry>
    ghost var early: set<Entry>
    ghost var read: seq<Entry>
    ghost var first: seq<Entry>
    ghost var late: set<Entry>
    const q: Query

    ghost function State(): Connection
      reads this
    {
      Connection(log, broadcast, subscribed, early, searched, pageId, pending, read, first, late, sent)
    }

    constructor (q: Query)
      ensures State() == OPENED && this.q == q
    {
      log, subscribed, searched, pageId, pending, sent := [], false, false, NONE, [], [];
      broadcast, early, read, first, late := {}, {}, [], [], {};
      this.q := q;
    }

    method Persist(e: Entry)
      modifies this
      ensures State() == Do(old(State()), Append(e), q)
    {
      if TooLate(State(), e, q) {
        late := late + {e};
      }
      log := log + [e];
    }

    /** The scheduled callback runs: it reaches the client only if it is subscribed by then. */
    method Deliver(e: Entry)
      modifies this
      ensures State() == Do(old(State()), Broadcast(e), q)
    {
      broadcast := broadcast + {e};
      if subscribed {
        sent := sent + [e];
      } else {
        early := early + {e};
      }
    }

    method SubscribeToEvents()
      modifies this
      ensures State() == Do(old(State()), Subscribe, q)
    {
      subscribed := true;
    }

    method NextPage()
      modifies this
      ensures State() == Do(old(State()), ReadPage, q)
    {
      if !searched {
        first := Listed(log, q);
      }
      var page := SearchEvents(log, pageId, q);
      searched, pageId, pending := true, page.next, page.items;
      read := read + page.items;
    }

    method SendOne()
      modifies this
      ensures State() == Do(old(State()), SendNext, q)
    {
      if |pending| > 0 {
        sent := sent + [pending[0]];
        pending := pending[1..];
      }
    }
  }

  // ----- the invariant --------------------------------------------------------------------------

  /** Between two pages, at place p: what lies before and has not been read came too late. */
  ghost predicate AtPlace(s: Connection, q: Query, p: nat) {
    var list := Listed(s.log, q);
    && p < |list| && list[p].id == s.pageId && Iterating(list, p, s.read, s.first, false)
    && forall e :: e in s.late <==> e in list[..p] && e !in s.read
  }

  ghost predicate AtPage(s: Connection, q: Query) {
    exists p: nat :: AtPlace(s, q, p)
  }

  ghost predicate AllRead(s: Connection) {
    && Keep(s.read, Elements(s.first)) == s.first
    && (forall e :: e in s.read ==> e in s.log)
    && (forall e :: e in s.late <==> e in s.log && e !in s.read)
  }

  /** Where the replay is. */
  ghost predicate Reading(s: Connection, q: Query) {
    && (!s.searched ==> s.read == [] && s.pageId == NONE && s.late == {})
    && (s.searched && s.pageId != NONE ==> AtPage(s, q))
    && (s.searched && s.pageId == NONE ==> AllRead(s))
    && Elements(s.first) <= Elements(s.log)
  }

  /** What has been sent: the entries read, up to those pending, and what was broadcast since the
      subscription. */
  ghost predicate Sending(s: Connection) {
    && |s.pending| <= |s.read| && s.pending == s.read[|s.read| - |s.pending|..]
    && (s.searched ==> s.subscribed) && s.early <= s.broadcast
    && (!s.subscribed ==> s.early == s.broadcast)
    && forall e :: e in s.sent <==> e in s.read[..|s.read| - |s.pending|] || (e in s.broadcast && e !in s.early)
  }

  /** With the log first, what was broadcast early is already in the log, and so in the first
      listing. */
  ghost predicate LogFirst(s: Connection) {
    && s.broadcast <= Elements(s.log)
    && (s.searched ==> s.early <= Elements(s.first))
  }

  ghost predicate Inv(s: Connection, q: Query, logFirst: bool) {
    && GoodLog(s.log) && Reading(s, q) && Sending(s)
    && (logFirst ==> LogFirst(s))
  }

  lemma AppendInv(s: Connection, e: Entry, q: Query, logFirst: bool)
    requires Inv(s, q, logFirst) && Enabled(s, Append(e), logFirst) && WholeLog(q)
    ensures GoodLog(s.log + [e]) && Reading(Do(s, Append(e), q), q)
  {
    ElementsGrow(s.log, [e]);
    if s.searched && s.pageId != NONE {
      var p: nat :| AtPlace(s, q, p);
      AppendAtPlace(s, e, q, p);
    } else if s.searched {
      assert forall x :: x in s.log + [e] <==> x in s.log || x == e;
    }
  }

  /** e comes too late exactly if it is inserted before the place of the next page. */
  lemma AppendAtPlace(s: Connection, e: Entry, q: Query, p: nat)
    requires GoodLog(s.log) && s.searched && s.pageId != NONE && AtPlace(s, q, p) && WholeLog(q) && e !in s.log
    requires Elements(s.first) <= Elements(s.log)
    ensures AtPage(Do(s, Append(e), q), q)
  {
    var list, t := Listed(s.log, q), Do(s, Append(e), q);
    var i := InsertAt(list, e, q.descending);
    ListedMembers(s.log, q);
    ListedAppend(s.log, e, q);
    TooLateByPlace(s, e, q, p);
    var p' := if i <= p then p + 1 else p;
    if i <= p {
      InsertBefore(list, p, i, e, Elements(s.first));
    } else {
      InsertBehind(list, p, i, e, Elements(s.first));
    }
    Growing(list, p, Listed(t.log, q), p', s.read, s.first);
    LateAfterInsert(list, p, i, e, s.read, s.late, t.late);
    assert AtPlace(t, q, p');
  }

  lemma TooLateByPlace(s: Connection, e: Entry, q: Query, p: nat)
    requires GoodLog(s.log) && s.searched && s.pageId != NONE && AtPlace(s, q, p) && WholeLog(q)
    ensures TooLate(s, e, q) <==> InsertAt(Listed(s.log, q), e, q.descending) <= p
  {
    var list := Listed(s.log, q);
    ListedMembers(s.log, q);
    SortIsSorted(Filtered(s.log, q.passes), q.descending);
    InsertPlace(list, e, q.descending);
    assert list[p] in s.log;
    forall x | x in s.log && x.id == s.pageId ensures x == list[p] {
      var k :| 0 <= k < |s.log| && s.log[k] == x;
      var l :| 0 <= l < |s.log| && s.log[l] == list[p];
      assert s.log[k].id == s.log[l].id;
    }
  }

  lemma LateAfterInsert(list: seq<Entry>, p: nat, i: nat, e: Entry, read: seq<Entry>, late: set<Entry>,
                        late': set<Entry>)
    requires p < |list| && i <= |list| && e !in list && (forall x :: x in read ==> x in list)
    requires forall x :: x in late <==> x in list[..p] && x !in read
    requires late' == if i <= p then late + {e} else late
    ensures var list', p' := list[..i] + [e] + list[i..], if i <= p then p + 1 else p;
            forall x :: x in late' <==> x in list'[..p'] && x !in read
  {
    var list' := list[..i] + [e] + list[i..];
    if i <= p {
      assert list'[..p + 1] == list[..i] + [e] + list[i..p] && list[..p] == list[..i] + list[i..p];
    } else {
      assert list'[..p] == list[..p];
    }
  }

  lemma FinishedReading(list: seq<Entry>, p: nat, read: seq<Entry>, first: seq<Entry>)
    requires Iterating(list, p, read, first, false) && p == |list|
    ensures Keep(read, Elements(first)) == first && list[..p] == list
  {
    Finished(list, read, first);
  }

  /** Where the next page starts. */
  lemma PlaceToRead(s: Connection, q: Query) returns (p: nat)
    requires Reading(s, q) && (!s.searched || s.pageId != NONE)
    ensures OnPage(Listed(s.log, q), p, s.pageId)
    ensures Iterating(Listed(s.log, q), p, s.read, if s.searched then s.first else Listed(s.log, q), false)
    ensures forall e :: e in s.late <==> e in Listed(s.log, q)[..p] && e !in s.read
  {
    p := 0;
    if s.searched {
      p :| AtPlace(s, q, p);
    } else {
      StartAt(Listed(s.log, q));
    }
  }

  lemma ReadPageReading(s: Connection, q: Query, logFirst: bool)
    requires GoodLog(s.log) && Reading(s, q) && Enabled(s, ReadPage, logFirst) && WholeLog(q)
    ensures Reading(Do(s, ReadPage, q), q)
  {
    var t, list := Do(s, ReadPage, q), Listed(s.log, q);
    var page := PageOf(list, s.pageId, q.limit);
    assert s.log + [] == s.log;
    ListedIsGood(s.log, [], q);
    var p := PlaceToRead(s, q);
    var p' := AtAfterPage(list, p, s.pageId, q.limit, page, s.read, t.first, false);
    LateAfterPage(list, p, p', s.read, s.late);
    ListedMembers(s.log, q);
    if page.next == NONE {
      FinishedReading(list, p', t.read, t.first);
    } else {
      assert AtPlace(t, q, p');
    }
  }

  /** Reading a page makes nothing late. */
  lemma LateAfterPage(list: seq<Entry>, p: nat, p': nat, read: seq<Entry>, late: set<Entry>)
    requires p <= p' <= |list| && DistinctIds(list)
    requires forall e :: e in late <==> e in list[..p] && e !in read
    ensures forall e :: e in late <==> e in list[..p'] && e !in read + list[p..p']
  {
    assert list[..p'] == list[..p] + list[p..p'];
    forall e | e in list[..p] ensures e !in list[p..p'] {
      var i :| 0 <= i < p && list[i] == e;
      forall j | p <= j < p' ensures list[j] != e {
        assert list[i].id != list[j].id;
      }
    }
  }

  lemma ReadPageSending(s: Connection, q: Query)
    requires Sending(s) && s.subscribed && s.pending == []
    ensures Sending(Do(s, ReadPage, q))
  {
    var t := Do(s, ReadPage, q);
    assert t.read[|t.read| - |t.pending|..] == t.pending;
    assert t.read[..|t.read| - |t.pending|] == s.read && s.read[..|s.read|] == s.read;
  }

  lemma SendNextSending(s: Connection, q: Query)
    requires Sending(s) && s.pending != []
    ensures Sending(Do(s, SendNext, q))
  {
    var t := Do(s, SendNext, q);
    var n := |s.read| - |s.pending|;
    assert s.read[n] == s.pending[0];
    assert s.read[..n + 1] == s.read[..n] + [s.pending[0]];
    assert s.read[n + 1..] == t.pending;
  }

  lemma BroadcastSending(s: Connection, e: Entry, q: Query)
    requires Sending(s) && e !in s.broadcast
    ensures Sending(Do(s, Broadcast(e), q))
  {
  }

  lemma LogFirstStep(s: Connection, step: Step, q: Query, logFirst: bool)
    requires LogFirst(s) && Sending(s) && Enabled(s, step, logFirst) && WholeLog(q) && logFirst
    ensures LogFirst(Do(s, step, q))
  {
    match step
    case Append(e) =>
      forall x | x in s.log ensures x in s.log + [e] {
      }
    case ReadPage => ListedMembers(s.log, q);
    case _ =>
  }

  /** Broadcasting, subscribing and sending do not move the replay. */
  lemma SameReading(s: Connection, t: Connection, q: Query)
    requires Reading(s, q) && t.log == s.log && t.searched == s.searched && t.pageId == s.pageId
    requires t.read == s.read && t.first == s.first && t.late == s.late
    ensures Reading(t, q)
  {
    if s.searched && s.pageId != NONE {
      var p: nat :| AtPlace(s, q, p);
      assert AtPlace(t, q, p);
    }
  }

  lemma ReadingStep(s: Connection, step: Step, q: Query, logFirst: bool)
    requires Inv(s, q, logFirst) && Enabled(s, step, logFirst) && WholeLog(q)
    ensures Reading(Do(s, step, q), q) && GoodLog(Do(s, step, q).log)
  {
    match step
    case Append(e) => AppendInv(s, e, q, logFirst);
    case ReadPage => ReadPageReading(s, q, logFirst);
    case _ => SameReading(s, Do(s, step, q), q);
  }

  lemma SendingStep(s: Connection, step: Step, q: Query, logFirst: bool)
    requires Sending(s) && Enabled(s, step, logFirst)
    ensures Sending(Do(s, step, q))
  {
    match step
    case Broadcast(e) => BroadcastSending(s, e, q);
    case ReadPage => ReadPageSending(s, q);
    case SendNext => SendNextSending(s, q);
    case _ =>
  }

  lemma DoInv(s: Connection, step: Step, q: Query, logFirst: bool)
    requires Inv(s, q, logFirst) && Enabled(s, step, logFirst) && WholeLog(q)
    ensures Inv(Do(s, step, q), q, logFirst)
  {
    ReadingStep(s, step, q, logFirst);
    SendingStep(s, step, q, logFirst);
    if logFirst {
      LogFirstStep(s, step, q, logFirst);
    }
  }

  // ----- runs -----------------------------------------------------------------------------------

  ghost predicate Leads(s: Connection, steps: seq<Step>, t: Connection, q: Query, logFirst: bool)
    decreases |steps|
  {
    if |steps| == 0 then t == s
    else Enabled(s, steps[0], logFirst) && Leads(Do(s, steps[0], q), steps[1..], t, q, logFirst)
  }

  lemma {:induction false} RunInv(s: Connection, steps: seq<Step>, t: Connection, q: Query, logFirst: bool)
    requires Inv(s, q, logFirst) && Leads(s, steps, t, q, logFirst) && WholeLog(q)
    ensures Inv(t, q, logFirst)
    decreases |steps|
  {
    if |steps| > 0 {
      DoInv(s, steps[0], q, logFirst);
      RunInv(Do(s, steps[0], q), steps[1..], t, q, logFirst);
    }
  }

  /** If events reach the log before they are broadcast, then in every interleaving, once the
      replay is over, every event broadcast so far has been sent, and so has every event that was
      in the log when the replay began. */
  lemma EveryEventIsSent(steps: seq<Step>, t: Connection, q: Query, e: Entry)
    requires Leads(OPENED, steps, t, q, true) && WholeLog(q) && Replayed(t)
    ensures e in t.broadcast || e in t.first ==> e in t.sent
  {
    RunInv(OPENED, steps, t, q, true);
    SentWhenReplayed(t);
    if e in t.first {
      KeepMembers(t.read, Elements(t.first));
    }
  }

  /** In whatever order events are stored and broadcast, and whatever their timestamps: once the replay
      is over, an event already broadcast has not been sent exactly if its broadcast came before the
      subscription and it is not in the log yet or was appended too late. */
  lemma MissedExactly(steps: seq<Step>, t: Connection, q: Query, logFirst: bool, e: Entry)
    requires Leads(OPENED, steps, t, q, logFirst) && WholeLog(q) && Replayed(t)
    requires e in t.broadcast
    ensures e !in t.sent <==> e in t.early && (e !in t.log || e in t.late)
  {
    RunInv(OPENED, steps, t, q, logFirst);
    SentWhenReplayed(t);
    NotReadExactly(t, q, e);
  }

  lemma SentWhenReplayed(t: Connection)
    requires Sending(t) && t.pending == []
    ensures forall e :: e in t.sent <==> e in t.read || (e in t.broadcast && e !in t.early)
  {
    assert t.read[..|t.read|] == t.read;
  }

  lemma NotReadExactly(t: Connection, q: Query, e: Entry)
    requires Reading(t, q) && Replayed(t)
    ensures e !in t.read <==> e !in t.log || e in t.late
  {
  }

  lemma {:induction false} LeadsOn(s: Connection, steps: seq<Step>, t: Connection, step: Step, q: Query, logFirst: bool)
    requires Leads(s, steps, t, q, logFirst) && Enabled(t, step, logFirst)
    ensures Leads(s, steps + [step], Do(t, step, q), q, logFirst)
    decreases |steps|
  {
    if |steps| == 0 {
      assert (steps + [step])[1..] == [];
    } else {
      assert (steps + [step])[1..] == steps[1..] + [step];
      LeadsOn(Do(s, steps[0], q), steps[1..], t, step, q, logFirst);
    }
  }

  // ----- a replay nobody disturbs -----------------------------------------------------------------

  lemma {:induction false} LeadsThen(s: Connection, a: seq<Step>, m: Connection, b: seq<Step>, t: Connection, q: Query,
                                     logFirst: bool)
    requires Leads(s, a, m, q, logFirst) && Leads(m, b, t, q, logFirst)
    ensures Leads(s, a + b, t, q, logFirst)
    decreases |a|
  {
    if |a| == 0 {
      assert a + b == b;
    } else {
      assert (a + b)[1..] == a[1..] + b;
      LeadsThen(Do(s, a[0], q), a[1..], m, b, t, q, logFirst);
    }
  }

  lemma {:induction false} SendAllPending(s: Connection, q: Query, logFirst: bool)
    returns (steps: seq<Step>, t: Connection)
    ensures Leads(s, steps, t, q, logFirst) && t == s.(pending := [], sent := s.sent + s.pending)
    decreases |s.pending|
  {
    if |s.pending| == 0 {
      steps, t := [], s;
      assert s.sent + [] == s.sent;
    } else {
      var mid := Do(s, SendNext, q);
      var rest: seq<Step>;
      rest, t := SendAllPending(mid, q, logFirst);
      assert s.sent + [s.pending[0]] + s.pending[1..] == s.sent + s.pending;
      assert ([SendNext] + rest)[1..] == rest;
      steps := [SendNext] + rest;
    }
  }

  /** The replay is about to read the page from place p on. */
  ghost predicate ReadyAt(s: Connection, q: Query, p: nat) {
    && s.subscribed && s.pending == [] && (s.searched ==> s.pageId != NONE)
    && OnPage(Listed(s.log, q), p, s.pageId)
  }

  lemma ReplayPage(s: Connection, q: Query, p: nat, logFirst: bool)
    returns (steps: seq<Step>, t: Connection, p': nat)
    requires GoodLog(Listed(s.log, q)) && q.limit >= 1 && ReadyAt(s, q, p)
    ensures Leads(s, steps, t, q, logFirst) && t.log == s.log
    ensures p <= p' <= |Listed(s.log, q)| && t.sent == s.sent + Listed(s.log, q)[p..p']
    ensures if t.pageId == NONE then Replayed(t) && p' == |Listed(s.log, q)| else p < p' && ReadyAt(t, q, p')
  {
    var read := Do(s, ReadPage, q);
    p' := PagePlace(Listed(s.log, q), p, s.pageId, q.limit);
    var sending: seq<Step>;
    sending, t := SendAllPending(read, q, logFirst);
    assert ([ReadPage] + sending)[1..] == sending;
    steps := [ReadPage] + sending;
  }

  lemma SentInParts(sent: seq<Entry>, list: seq<Entry>, p: nat, p': nat)
    requires p <= p' <= |list|
    ensures sent + list[p..p'] + list[p'..] == sent + list[p..]
  {
  }

  lemma {:induction false} ReplayFrom(s: Connection, q: Query, p: nat, logFirst: bool)
    returns (steps: seq<Step>, t: Connection)
    requires GoodLog(Listed(s.log, q)) && q.limit >= 1 && ReadyAt(s, q, p)
    ensures Leads(s, steps, t, q, logFirst) && Replayed(t)
    ensures t.log == s.log && t.sent == s.sent + Listed(s.log, q)[p..]
    decreases |Listed(s.log, q)| - p
  {
    var list := Listed(s.log, q);
    var p': nat;
    steps, t, p' := ReplayPage(s, q, p, logFirst);
    if t.pageId != NONE {
      var mid, first := t, steps;
      var rest: seq<Step>;
      rest, t := ReplayFrom(mid, q, p', logFirst);
      LeadsThen(s, first, mid, rest, t, q, logFirst);
      steps := first + rest;
      SentInParts(s.sent, list, p, p');
    }
  }

  /** A client that subscribes gets the whole log, in the order of the listing and each event once, if
      nothing else happens: reading and sending lead there. */
  lemma UndisturbedReplay(s: Connection, q: Query, logFirst: bool) returns (steps: seq<Step>, t: Connection)
    requires GoodLog(s.log) && WholeLog(q) && !s.subscribed && !s.searched && s.pageId == NONE && s.pending == []
    ensures Leads(s, steps, t, q, logFirst) && Replayed(t)
    ensures t.sent == s.sent + Listed(s.log, q) && forall e :: e in s.log ==> e in t.sent
  {
    var subscribed := Do(s, Subscribe, q);
    assert s.log + [] == s.log;
    ListedIsGood(s.log, [], q);
    ListedMembers(s.log, q);
    var rest: seq<Step>;
    rest, t := ReplayFrom(subscribed, q, 0, logFirst);
    steps := [Subscribe] + rest;
    assert steps[1..] == rest && Listed(s.log, q)[0..] == Listed(s.log, q);
  }

  /** And that can happen: an event broadcast before it is stored never reaches a client that
      connects in between. */
  lemma EventCanBeMissed(e: Entry, q: Query) returns (steps: seq<Step>, t: Connection)
    requires e.id != NONE && WholeLog(q)
    ensures Leads(OPENED, steps, t, q, false) && Replayed(t)
    ensures e in t.broadcast && e in t.log && e !in t.sent
  {
    var s1 := Do(OPENED, Broadcast(e), q);
    LeadsOn(OPENED, [], OPENED, Broadcast(e), q, false);
    var s2 := Do(s1, Subscribe, q);
    LeadsOn(OPENED, [] + [Broadcast(e)], s1, Subscribe, q, false);
    assert PageOf(Listed([], q), NONE, q.limit) == Page([], NONE);
    var s3 := Do(s2, ReadPage, q);
    steps := [] + [Broadcast(e)] + [Subscribe];
    LeadsOn(OPENED, steps, s2, ReadPage, q, false);
    steps := steps + [ReadPage];
    LeadsOn(OPENED, steps, s3, Append(e), q, false);
    steps, t := steps + [Append(e)], Do(s3, Append(e), q);
  }

  // ----- the client -------------------------------------------------------------------------------

  /** v1 is the verdict of isV1Event: only such events are deduplicated. */
  datatype ClientEvent = ClientEvent(id: string, v1: bool, body: string)

  predicate HasId(events: seq<ClientEvent>, id: string) {
    exists i :: 0 <= i < |events| && events[i].id == id
  }

  function HandleEventForUI(event: ClientEvent, uiEvents: seq<ClientEvent>): seq<ClientEvent> {
    if HasId(uiEvents, event.id) then uiEvents else uiEvents + [event]
  }

  /** What uiEvents is after these arrivals. */
  function UiAfter(arrivals: seq<ClientEvent>): seq<ClientEvent> {
    if |arrivals| == 0 then []
    else
      var before, e := UiAfter(arrivals[..|arrivals| - 1]), arrivals[|arrivals| - 1];
      if e.v1 then HandleEventForUI(e, before) else before + [e]
  }

  class EventStore {
    var events: seq<ClientEvent>
    var uiEvents: seq<ClientEvent>

    ghost predicate Valid()
      reads this
    {
      uiEvents == UiAfter(events)
    }

    constructor ()
      ensures Valid() && events == []
    {
      events, uiEvents := [], [];
    }

    method AddEvent(e: ClientEvent)
      requires Valid()
      modifies this
      ensures Valid() && events == old(events) + [e]
    {
      assert (events + [e])[..|events|] == events;
      events := events + [e];
      uiEvents := if e.v1 then HandleEventForUI(e, uiEvents) else uiEvents + [e];
    }

    method ClearEvents()
      modifies this
      ensures Valid() && events == []
    {
      events, uiEvents := [], [];
    }
  }

  /** The arrivals that are not a repetition: not deduplicated, or the first with their id. */
  function FirstOccurrences(arrivals: seq<ClientEvent>): seq<ClientEvent> {
    if |arrivals| == 0 then []
    else
      var before, e := arrivals[..|arrivals| - 1], arrivals[|arrivals| - 1];
      if e.v1 && HasId(before, e.id) then FirstOccurrences(before) else FirstOccurrences(before) + [e]
  }

  lemma {:induction false} UiHasTheIds(arrivals: seq<ClientEvent>, id: string)
    ensures HasId(UiAfter(arrivals), id) <==> HasId(arrivals, id)
  {
    if |arrivals| > 0 {
      var before, e := arrivals[..|arrivals| - 1], arrivals[|arrivals| - 1];
      UiHasTheIds(before, id);
      AppendedId(before, e, id);
      AppendedId(UiAfter(before), e, id);
      assert arrivals == before + [e];
    }
  }

  lemma AppendedId(events: seq<ClientEvent>, e: ClientEvent, id: string)
    ensures HasId(events + [e], id) <==> HasId(events, id) || e.id == id
  {
    assert (events + [e])[|events|] == e;
    if HasId(events, id) {
      var i :| 0 <= i < |events| && events[i].id == id;
      assert (events + [e])[i] == events[i];
    }
  }

  /** uiEvents is what arrived without the repetitions. */
  lemma {:induction false} UiIsFirstOccurrences(arrivals: seq<ClientEvent>)
    ensures UiAfter(arrivals) == FirstOccurrences(arrivals)
  {
    if |arrivals| > 0 {
      UiIsFirstOccurrences(arrivals[..|arrivals| - 1]);
      UiHasTheIds(arrivals[..|arrivals| - 1], arrivals[|arrivals| - 1].id);
    }
  }

  /** Replaying events that have already arrived leaves it unchanged, however often. */
  lemma {:induction false} ReplayLeavesUi(arrivals: seq<ClientEvent>, again: seq<ClientEvent>)
    requires forall i :: 0 <= i < |again| ==> again[i].v1 && HasId(arrivals, again[i].id)
    ensures UiAfter(arrivals + again) == UiAfter(arrivals)
    decreases |again|
  {
    if |again| == 0 {
      assert arrivals + again == arrivals;
    } else {
      var n := |again| - 1;
      assert (arrivals + again)[..|arrivals + again| - 1] == arrivals + again[..n];
      ReplayLeavesUi(arrivals, again[..n]);
      UiHasTheIds(arrivals, again[n].id);
    }
  }

  /** How often an id is shown. */
  function Shown(events: seq<ClientEvent>, id: string): nat {
    if |events| == 0 then 0
    else Shown(events[..|events| - 1], id) + (if events[|events| - 1].id == id then 1 else 0)
  }

  lemma {:induction false} ShownIfThere(events: seq<ClientEvent>, id: string)
    ensures Shown(events, id) > 0 <==> HasId(events, id)
  {
    if |events| > 0 {
      var before, e := events[..|events| - 1], events[|events| - 1];
      ShownIfThere(before, id);
      AppendedId(before, e, id);
      assert events == before + [e];
    }
  }

  lemma {:induction false} ShownOnce(arrivals: seq<ClientEvent>, id: string)
    requires forall i :: 0 <= i < |arrivals| ==> arrivals[i].v1
    ensures Shown(UiAfter(arrivals), id) == if HasId(arrivals, id) then 1 else 0
  {
    if |arrivals| > 0 {
      var before, e := arrivals[..|arrivals| - 1], arrivals[|arrivals| - 1];
      ShownOnce(before, id);
      UiHasTheIds(before, e.id);
      AppendedId(before, e, id);
      assert arrivals == before + [e];
      assert (UiAfter(before) + [e])[..|UiAfter(before)|] == UiAfter(before);
    }
  }

  function Arrived(sent: seq<Entry>): seq<ClientEvent> {
    seq(|sent|, i requires 0 <= i < |sent| => ClientEvent(sent[i].id, true, sent[i].content))
  }

  /** So, with the log first, the client shows every event exactly once: the broadcast ones and those
      that were there before it connected. */
  lemma ExactlyOnceAtTheClient(steps: seq<Step>, t: Connection, q: Query, e: Entry)
    requires Leads(OPENED, steps, t, q, true) && WholeLog(q) && Replayed(t)
    requires e in t.broadcast || e in t.first
    ensures Shown(UiAfter(Arrived(t.sent)), e.id) == 1
  {
    EveryEventIsSent(steps, t, q, e);
    var i :| 0 <= i < |t.sent| && t.sent[i] == e;
    assert Arrived(t.sent)[i].id == e.id;
    ShownOnce(Arrived(t.sent), e.id);
  }
}
