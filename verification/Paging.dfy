/** Searching the event log page by page, while it grows. */
module Paging {
  import opened Events

  /** Ids are not empty; content stands for whatever else the filters look at. */
  datatype Entry = Entry(id: string, timestamp: int, content: string)

  /** limit is not checked by the search itself. */
  datatype Query = Query(passes: Entry -> bool, descending: bool, limit: int)

  /** The empty string is no page id. */
  datatype Page = Page(items: seq<Entry>, next: string)

  const NONE := ""

  predicate InOrder(a: Entry, b: Entry, descending: bool) {
    if descending then a.timestamp >= b.timestamp else a.timestamp <= b.timestamp
  }

  /** Where a stable sort puts e after s: behind everything not to come after it. */
  function InsertAt(s: seq<Entry>, e: Entry, descending: bool): (i: nat)
    ensures i <= |s|
  {
    if |s| == 0 then 0
    else if InOrder(s[|s| - 1], e, descending) then |s|
    else InsertAt(s[..|s| - 1], e, descending)
  }

  function Insert(s: seq<Entry>, e: Entry, descending: bool): seq<Entry> {
    var i := InsertAt(s, e, descending);
    s[..i] + [e] + s[i..]
  }

  function Sort(s: seq<Entry>, descending: bool): seq<Entry> {
    if |s| == 0 then [] else Insert(Sort(s[..|s| - 1], descending), s[|s| - 1], descending)
  }

  function Filtered(log: seq<Entry>, passes: Entry -> bool): seq<Entry> {
    if |log| == 0 then []
    else Filtered(log[..|log| - 1], passes) + (if passes(log[|log| - 1]) then [log[|log| - 1]] else [])
  }

  /** What the query is about: the entries that pass, sorted. */
  function Listed(log: seq<Entry>, q: Query): seq<Entry> {
    Sort(Filtered(log, q.passes), q.descending)
  }

  /** The place of the page's first entry; the start, if there is no such entry. */
  function StartOf(list: seq<Entry>, id: string): (i: nat)
    ensures i <= |list|
  {
    if id == NONE then 0 else FirstFrom(list, id, 0)
  }

  function FirstFrom(list: seq<Entry>, id: string, i: nat): (k: nat)
    requires i <= |list|
    ensures k <= |list|
    decreases |list| - i
  {
    if i == |list| then 0 else if list[i].id == id then i else FirstFrom(list, id, i + 1)
  }

  function PageOf(list: seq<Entry>, id: string, limit: int): Page {
    PageFrom(list, StartOf(list, id), limit)
  }

  function PageFrom(list: seq<Entry>, start: nat, limit: int): Page
    requires start <= |list|
  {
    var size := if limit < 0 then 0 else limit;
    if start + size < |list| then Page(list[start..start + size], list[start + size].id)
    else Page(list[start..], NONE)
  }

  method InsertSorted(sorted: seq<Entry>, e: Entry, descending: bool) returns (more: seq<Entry>)
    ensures more == Insert(sorted, e, descending)
  {
    var k := |sorted|;
    assert sorted[..k] == sorted;
    while k > 0 && !InOrder(sorted[k - 1], e, descending)
      invariant 0 <= k <= |sorted|
      invariant InsertAt(sorted, e, descending) == InsertAt(sorted[..k], e, descending)
    {
      assert sorted[..k][..k - 1] == sorted[..k - 1];
      k := k - 1;
    }
    return sorted[..k] + [e] + sorted[k..];
  }

  method SortEntries(s: seq<Entry>, descending: bool) returns (sorted: seq<Entry>)
    ensures sorted == Sort(s, descending)
  {
    sorted := [];
    for i := 0 to |s|
      invariant sorted == Sort(s[..i], descending)
    {
      assert s[..i + 1][..i] == s[..i];
      sorted := InsertSorted(sorted, s[i], descending);
    }
    assert s[..|s|] == s;
  }

  method FilterEntries(log: seq<Entry>, passes: Entry -> bool) returns (all: seq<Entry>)
    ensures all == Filtered(log, passes)
  {
    all := [];
    for i := 0 to |log|
      invariant all == Filtered(log[..i], passes)
    {
      assert log[..i + 1][..i] == log[..i];
      if !passes(log[i]) {
        continue;
      }
      all := all + [log[i]];
    }
    assert log[..|log|] == log;
  }

  method FindStart(all: seq<Entry>, pageId: string) returns (start: nat)
    ensures start == StartOf(all, pageId)
  {
    start := 0;
    if pageId != NONE {
      var i := 0;
      while i < |all|
        invariant 0 <= i <= |all|
        invariant FirstFrom(all, pageId, 0) == FirstFrom(all, pageId, i)
      {
        if all[i].id == pageId {
          return i;
        }
        i := i + 1;
      }
    }
  }

  /** EventService._search_events_sync. */
  method SearchEvents(log: seq<Entry>, pageId: string, q: Query) returns (page: Page)
    ensures page == PageOf(Listed(log, q), pageId, q.limit)
  {
    var all := FilterEntries(log, q.passes);
    all := SortEntries(all, q.descending);
    var start := FindStart(all, pageId);
    page := TakePage(all, start, q.limit);
  }

  method TakePage(all: seq<Entry>, start: nat, limit: int) returns (page: Page)
    requires start <= |all|
    ensures page == PageFrom(all, start, limit)
  {
    var items: seq<Entry> := [];
    for i := start to |all|
      invariant items == all[start..i] && (|items| == 0 || |items| <= limit)
    {
      if |items| >= limit {
        return Page(items, all[i].id);
      }
      items := items + [all[i]];
    }
    return Page(items, NONE);
  }

  // ----- the list is a stable sort ------------------------------------------------------------

  ghost predicate IsSorted(s: seq<Entry>, descending: bool) {
    forall i, j :: 0 <= i < j < |s| ==> InOrder(s[i], s[j], descending)
  }

  lemma {:induction false} InsertPlace(s: seq<Entry>, e: Entry, descending: bool)
    requires IsSorted(s, descending)
    ensures var i := InsertAt(s, e, descending);
            && (forall k :: 0 <= k < i ==> InOrder(s[k], e, descending))
            && (forall k :: i <= k < |s| ==> !InOrder(s[k], e, descending))
  {
    if |s| > 0 && !InOrder(s[|s| - 1], e, descending) {
      InsertPlace(s[..|s| - 1], e, descending);
    }
  }

  lemma InsertStaysSorted(r: seq<Entry>, e: Entry, descending: bool)
    requires IsSorted(r, descending)
    ensures IsSorted(Insert(r, e, descending), descending)
  {
    var i, t := InsertAt(r, e, descending), Insert(r, e, descending);
    InsertPlace(r, e, descending);
    forall k, l | 0 <= k < l < |t| ensures InOrder(t[k], t[l], descending) {
      assert t[k] == if k < i then r[k] else if k == i then e else r[k - 1];
      assert t[l] == if l < i then r[l] else if l == i then e else r[l - 1];
    }
  }

  lemma {:induction false} SortIsSorted(s: seq<Entry>, descending: bool)
    ensures IsSorted(Sort(s, descending), descending)
  {
    if |s| > 0 {
      SortIsSorted(s[..|s| - 1], descending);
      InsertStaysSorted(Sort(s[..|s| - 1], descending), s[|s| - 1], descending);
    }
  }

  lemma {:induction false} SortIsPermutation(s: seq<Entry>, descending: bool)
    ensures multiset(Sort(s, descending)) == multiset(s)
  {
    if |s| > 0 {
      var front, e := s[..|s| - 1], s[|s| - 1];
      assert s == front + [e];
      SortIsPermutation(front, descending);
      var r := Sort(front, descending);
      var i := InsertAt(r, e, descending);
      assert r == r[..i] + r[i..];
    }
  }

  /** Entries that tie have the order of their ranks. */
  ghost predicate TiesInOrder(s: seq<Entry>, rank: Entry -> int) {
    forall i, j :: 0 <= i < j < |s| && s[i].timestamp == s[j].timestamp ==> rank(s[i]) < rank(s[j])
  }

  lemma InsertKeepsTies(r: seq<Entry>, e: Entry, rank: Entry -> int, descending: bool)
    requires IsSorted(r, descending) && TiesInOrder(r, rank)
    requires forall k :: 0 <= k < |r| ==> rank(r[k]) < rank(e)
    ensures TiesInOrder(Insert(r, e, descending), rank)
  {
    var i, t := InsertAt(r, e, descending), Insert(r, e, descending);
    InsertPlace(r, e, descending);
    forall k, l | 0 <= k < l < |t| && t[k].timestamp == t[l].timestamp ensures rank(t[k]) < rank(t[l]) {
      assert t[k] == if k < i then r[k] else if k == i then e else r[k - 1];
      assert t[l] == if l < i then r[l] else if l == i then e else r[l - 1];
    }
  }

  lemma {:induction false} SortKeepsTies(s: seq<Entry>, rank: Entry -> int, descending: bool)
    requires forall i, j :: 0 <= i < j < |s| ==> rank(s[i]) < rank(s[j])
    ensures TiesInOrder(Sort(s, descending), rank)
  {
    if |s| > 0 {
      var front, e := s[..|s| - 1], s[|s| - 1];
      SortKeepsTies(front, rank, descending);
      SortIsSorted(front, descending);
      SortMembers(front, descending);
      var r := Sort(front, descending);
      forall k | 0 <= k < |r| ensures rank(r[k]) < rank(e) {
        assert r[k] in front;
      }
      InsertKeepsTies(r, e, rank, descending);
    }
  }

  /** The sort is a sorted permutation, and stable: ties keep the order they had, for any ranking that
      the input respects. */
  lemma SortIsStable(s: seq<Entry>, rank: Entry -> int, descending: bool)
    requires forall i, j :: 0 <= i < j < |s| ==> rank(s[i]) < rank(s[j])
    ensures var r := Sort(s, descending);
            && multiset(r) == multiset(s)
            && forall i, j :: 0 <= i < j < |r| ==>
                 if r[i].timestamp == r[j].timestamp then rank(r[i]) < rank(r[j])
                 else if descending then r[i].timestamp > r[j].timestamp
                 else r[i].timestamp < r[j].timestamp
  {
    SortIsSorted(s, descending);
    SortIsPermutation(s, descending);
    SortKeepsTies(s, rank, descending);
  }

  // ----- the iterator ---------------------------------------------------------------------------

  ghost predicate DistinctIds(s: seq<Entry>) {
    forall i, j {:trigger s[i].id, s[j].id} :: 0 <= i < j < |s| ==> s[i].id != s[j].id
  }

  ghost predicate GoodLog(log: seq<Entry>) {
    DistinctIds(log) && forall i :: 0 <= i < |log| ==> log[i].id != NONE
  }

  /** Place p of the list is place p' of the grown one: what was before it still is, and what is
      left of the known entries from there on is the same. */
  ghost predicate Moved(list: seq<Entry>, p: nat, list': seq<Entry>, p': nat, known: set<Entry>) {
    && p < |list| && p' < |list'| && list'[p'] == list[p]
    && (forall e :: e in list[..p] ==> e in list'[..p'])
    && Keep(list'[p'..], known) == Keep(list[p..], known)
  }

  lemma InsertMoves(list: seq<Entry>, p: nat, e: Entry, descending: bool, known: set<Entry>) returns (p': nat)
    requires p < |list| && e !in known
    ensures Moved(list, p, Insert(list, e, descending), p', known)
    ensures InsertAt(list, e, descending) == |list| ==> p' == p
  {
    var i := InsertAt(list, e, descending);
    if i <= p {
      p' := p + 1;
      InsertBefore(list, p, i, e, known);
    } else {
      p' := p;
      InsertBehind(list, p, i, e, known);
    }
  }

  lemma InsertBefore(list: seq<Entry>, p: nat, i: nat, e: Entry, known: set<Entry>)
    requires i <= p < |list|
    ensures Moved(list, p, list[..i] + [e] + list[i..], p + 1, known)
  {
    var t := list[..i] + [e] + list[i..];
    assert t[p + 1..] == list[p..] && t[p + 1] == list[p];
    forall x | x in list[..p] ensures x in t[..p + 1] {
      var k :| 0 <= k < p && list[k] == x;
      assert t[..p + 1][if k < i then k else k + 1] == x;
    }
  }

  lemma InsertBehind(list: seq<Entry>, p: nat, i: nat, e: Entry, known: set<Entry>)
    requires p < i <= |list| && e !in known
    ensures Moved(list, p, list[..i] + [e] + list[i..], p, known)
  {
    var t := list[..i] + [e] + list[i..];
    assert t[p..] == list[p..i] + [e] + list[i..] && list[p..] == list[p..i] + list[i..];
    KeepConcat(list[p..i] + [e], list[i..], known);
    KeepConcat(list[p..i], [e], known);
    KeepConcat(list[p..i], list[i..], known);
    assert [e][..0] == [];
    assert t[..p] == list[..p] && t[p] == list[p];
  }

  lemma MovedTwice(list: seq<Entry>, p: nat, mid: seq<Entry>, m: nat, list': seq<Entry>, p': nat, known: set<Entry>)
    requires Moved(list, p, mid, m, known) && Moved(mid, m, list', p', known)
    ensures Moved(list, p, list', p', known)
  {
  }

  /** Ascending, and every appended entry is at least as late as all there are. */
  ghost predicate Calm(log: seq<Entry>, chunk: seq<Entry>) {
    forall i, j :: 0 <= i < j < |log + chunk| && j >= |log| ==> (log + chunk)[i].timestamp <= (log + chunk)[j].timestamp
  }

  lemma {:induction false} GrowingMoves(log: seq<Entry>, chunk: seq<Entry>, q: Query, p: nat, known: set<Entry>)
    returns (p': nat)
    requires p < |Listed(log, q)| && forall e :: e in chunk ==> e !in known
    ensures Moved(Listed(log, q), p, Listed(log + chunk, q), p', known)
    ensures !q.descending && Calm(log, chunk) ==> p' == p && Listed(log, q) <= Listed(log + chunk, q)
    decreases |chunk|
  {
    if |chunk| == 0 {
      assert log + chunk == log;
      p' := p;
    } else {
      var front, e := chunk[..|chunk| - 1], chunk[|chunk| - 1];
      var before := log + front;
      assert chunk == front + [e] && before + [e] == log + chunk;
      var m := GrowingMoves(log, front, q, p, known);
      if !q.descending && Calm(log, chunk) {
        CalmFront(log, chunk);
      }
      p' := OneMoves(before, e, q, m, known);
      MovedTwice(Listed(log, q), p, Listed(before, q), m, Listed(log + chunk, q), p', known);
    }
  }

  lemma OneMoves(log: seq<Entry>, e: Entry, q: Query, p: nat, known: set<Entry>) returns (p': nat)
    requires p < |Listed(log, q)| && e !in known
    ensures Moved(Listed(log, q), p, Listed(log + [e], q), p', known)
    ensures !q.descending && (forall x :: x in log ==> x.timestamp <= e.timestamp)
            ==> p' == p && Listed(log, q) <= Listed(log + [e], q)
  {
    ListedAppend(log, e, q);
    if !q.descending && (forall x :: x in log ==> x.timestamp <= e.timestamp) {
      LatestGoesLast(log, e, q);
    }
    if q.passes(e) {
      p' := InsertMoves(Listed(log, q), p, e, q.descending, known);
    } else {
      p' := p;
    }
  }

  lemma ListedAppend(log: seq<Entry>, e: Entry, q: Query)
    ensures Listed(log + [e], q) == if q.passes(e) then Insert(Listed(log, q), e, q.descending) else Listed(log, q)
  {
    assert (log + [e])[..|log|] == log;
    var f := Filtered(log, q.passes);
    assert (f + [e])[..|f|] == f && f + [] == f;
    assert Filtered(log + [e], q.passes) == if q.passes(e) then f + [e] else f;
  }

  lemma CalmFront(log: seq<Entry>, chunk: seq<Entry>)
    requires |chunk| > 0 && Calm(log, chunk)
    ensures Calm(log, chunk[..|chunk| - 1])
    ensures forall x :: x in log + chunk[..|chunk| - 1] ==> x.timestamp <= chunk[|chunk| - 1].timestamp
  {
    var all, front := log + chunk, log + chunk[..|chunk| - 1];
    assert all == front + [chunk[|chunk| - 1]];
    forall x | x in front ensures x.timestamp <= chunk[|chunk| - 1].timestamp {
      var i :| 0 <= i < |front| && front[i] == x;
      assert all[i] == x && all[|all| - 1] == chunk[|chunk| - 1];
    }
    forall i, j | 0 <= i < j < |front| && j >= |log| ensures front[i].timestamp <= front[j].timestamp {
      assert all[i] == front[i] && all[j] == front[j];
    }
  }

  lemma LatestGoesLast(log: seq<Entry>, e: Entry, q: Query)
    requires !q.descending && forall x :: x in log ==> x.timestamp <= e.timestamp
    ensures InsertAt(Listed(log, q), e, false) == |Listed(log, q)|
  {
    ListedMembers(log, q);
    var list := Listed(log, q);
    assert |list| > 0 ==> list[|list| - 1] in list;
  }

  lemma {:induction false} FilteredMembers(log: seq<Entry>, passes: Entry -> bool)
    ensures forall x :: x in Filtered(log, passes) <==> x in log && passes(x)
    ensures DistinctIds(log) ==> DistinctIds(Filtered(log, passes))
  {
    if |log| > 0 {
      var front, e := log[..|log| - 1], log[|log| - 1];
      assert log == front + [e];
      FilteredMembers(front, passes);
      var r := Filtered(front, passes);
      if DistinctIds(log) {
        NewestDiffers(front, e, r);
      }
    }
  }

  lemma NewestDiffers(front: seq<Entry>, e: Entry, r: seq<Entry>)
    requires DistinctIds(front + [e]) && forall x :: x in r ==> x in front
    ensures DistinctIds(front) && forall k :: 0 <= k < |r| ==> r[k].id != e.id
  {
    var all := front + [e];
    assert forall k :: 0 <= k < |front| ==> all[k] == front[k];
    forall k | 0 <= k < |r| ensures r[k].id != e.id {
      assert r[k] in front;
      var i :| 0 <= i < |front| && front[i] == r[k];
      assert all[i].id != all[|front|].id;
    }
  }

  lemma {:induction false} SortMembers(s: seq<Entry>, descending: bool)
    ensures forall x :: x in Sort(s, descending) <==> x in s
    ensures DistinctIds(s) ==> DistinctIds(Sort(s, descending))
  {
    if |s| > 0 {
      var front, e := s[..|s| - 1], s[|s| - 1];
      assert s == front + [e];
      SortMembers(front, descending);
      var r := Sort(front, descending);
      InsertMembers(r, e, InsertAt(r, e, descending));
      if DistinctIds(s) {
        NewestDiffers(front, e, r);
        InsertDistinct(r, e, InsertAt(r, e, descending));
      }
    }
  }

  lemma InsertMembers(r: seq<Entry>, e: Entry, i: nat)
    requires i <= |r|
    ensures forall x :: x in r[..i] + [e] + r[i..] <==> x in r || x == e
  {
    assert r == r[..i] + r[i..];
  }

  lemma InsertDistinct(r: seq<Entry>, e: Entry, i: nat)
    requires i <= |r| && DistinctIds(r) && forall k :: 0 <= k < |r| ==> r[k].id != e.id
    ensures DistinctIds(r[..i] + [e] + r[i..])
  {
    var t := r[..i] + [e] + r[i..];
    assert forall k :: 0 <= k < |t| ==> t[k] == if k < i then r[k] else if k == i then e else r[k - 1];
  }

  lemma ListedMembers(log: seq<Entry>, q: Query)
    ensures forall x :: x in Listed(log, q) <==> x in log && q.passes(x)
    ensures DistinctIds(log) ==> DistinctIds(Listed(log, q))
  {
    FilteredMembers(log, q.passes);
    SortMembers(Filtered(log, q.passes), q.descending);
  }

  lemma {:induction false} FirstIsIt(list: seq<Entry>, p: nat, i: nat)
    requires DistinctIds(list) && i <= p < |list|
    ensures FirstFrom(list, list[p].id, i) == p
    decreases p - i
  {
    if i < p {
      FirstIsIt(list, p, i + 1);
    }
  }

  /** Where the iterator is: what it has yielded lies before place p, and the known entries it has
      yielded are those the first list has before the ones still to come. */
  ghost predicate At(list: seq<Entry>, p: nat, yielded: seq<Entry>, first: seq<Entry>) {
    && p <= |list|
    && (forall e :: e in yielded ==> e in list[..p])
    && DistinctIds(yielded)
    && Keep(yielded, Elements(first)) + Keep(list[p..], Elements(first)) == first
  }

  lemma Yielding(list: seq<Entry>, p: nat, n: nat, yielded: seq<Entry>, first: seq<Entry>)
    requires At(list, p, yielded, first) && DistinctIds(list) && p + n <= |list|
    ensures At(list, p + n, yielded + list[p..p + n], first)
  {
    var items := list[p..p + n];
    assert list[p..] == items + list[p + n..];
    KeepConcat(items, list[p + n..], Elements(first));
    KeepConcat(yielded, items, Elements(first));
    YieldingMembers(list, p, n, yielded);
  }

  lemma YieldingMembers(list: seq<Entry>, p: nat, n: nat, yielded: seq<Entry>)
    requires DistinctIds(list) && DistinctIds(yielded) && p + n <= |list| && forall e :: e in yielded ==> e in list[..p]
    ensures var more := yielded + list[p..p + n];
            DistinctIds(more) && forall e :: e in more ==> e in list[..p + n]
  {
    var more := yielded + list[p..p + n];
    forall i | 0 <= i < |yielded| ensures exists k :: 0 <= k < p && list[k] == yielded[i] {
      assert yielded[i] in list[..p];
    }
    forall e | e in more ensures e in list[..p + n] {
      var i :| 0 <= i < |more| && more[i] == e;
      if i < |yielded| {
        var k :| 0 <= k < p && list[k] == yielded[i];
        assert list[..p + n][k] == e;
      } else {
        assert list[..p + n][p + (i - |yielded|)] == e;
      }
    }
    forall i, j | 0 <= i < j < |more| ensures more[i].id != more[j].id {
      if i < |yielded| <= j {
        var k :| 0 <= k < p && list[k] == yielded[i];
        assert more[j] == list[p + (j - |yielded|)];
      }
    }
  }

  lemma Growing(list: seq<Entry>, p: nat, list': seq<Entry>, p': nat, yielded: seq<Entry>, first: seq<Entry>)
    requires At(list, p, yielded, first) && Moved(list, p, list', p', Elements(first))
    ensures At(list', p', yielded, first)
  {
  }

  function Concat(chunks: seq<seq<Entry>>): seq<Entry> {
    if |chunks| == 0 then [] else chunks[0] + Concat(chunks[1..])
  }

  /** All growth is calm. */
  ghost predicate AllCalm(log: seq<Entry>, chunks: seq<seq<Entry>>)
    decreases |chunks|
  {
    |chunks| > 0 ==> Calm(log, chunks[0]) && AllCalm(log + chunks[0], chunks[1..])
  }

  lemma DistinctPrefix(s: seq<Entry>, t: seq<Entry>)
    requires GoodLog(s + t)
    ensures GoodLog(s) && forall e :: e in t ==> e !in s
  {
    assert forall i :: 0 <= i < |s| ==> (s + t)[i] == s[i];
    forall e | e in t ensures e !in s {
      var j :| 0 <= j < |t| && t[j] == e;
      assert (s + t)[|s| + j] == e;
      forall i | 0 <= i < |s| ensures s[i] != e {
        assert (s + t)[i].id != (s + t)[|s| + j].id;
      }
    }
  }

  lemma GoodGrowth(log: seq<Entry>, chunks: seq<seq<Entry>>)
    requires GoodLog(log + Concat(chunks)) && |chunks| > 0
    ensures GoodLog((log + chunks[0]) + Concat(chunks[1..])) && forall e :: e in chunks[0] ==> e !in log
    ensures GoodLog(log)
  {
    assert Concat(chunks) == chunks[0] + Concat(chunks[1..]);
    assert (log + chunks[0]) + Concat(chunks[1..]) == log + Concat(chunks);
    DistinctPrefix(log, Concat(chunks));
  }

  /** What is still unseen, as a bound on the searches to come. */
  ghost predicate OnPage(list: seq<Entry>, p: nat, id: string) {
    p <= |list| && (if id == NONE then p == 0 else p < |list| && list[p].id == id)
  }

  lemma StartAt(first: seq<Entry>)
    ensures At(first, 0, [], first)
  {
    KeepAll(first, Elements(first));
    assert first[0..] == first && [] + first == first;
  }

  lemma StartOfPage(list: seq<Entry>, p: nat, id: string)
    requires DistinctIds(list) && OnPage(list, p, id)
    ensures StartOf(list, id) == p
  {
    if id != NONE {
      FirstIsIt(list, p, 0);
    }
  }

  lemma Finished(list: seq<Entry>, yielded: seq<Entry>, first: seq<Entry>)
    requires At(list, |list|, yielded, first)
    ensures Keep(yielded, Elements(first)) == first && forall e :: e in yielded ==> e in list
  {
    assert list[|list|..] == [] && list[..|list|] == list;
    assert Keep(yielded, Elements(first)) + [] == Keep(yielded, Elements(first));
  }

  lemma GrowOnce(log: seq<Entry>, chunk: seq<Entry>, q: Query, p: nat, yielded: seq<Entry>, first: seq<Entry>)
    returns (p': nat)
    requires p < |Listed(log, q)| && At(Listed(log, q), p, yielded, first)
    requires Elements(first) <= Elements(log) && forall e :: e in chunk ==> e !in log
    ensures var list' := Listed(log + chunk, q);
            && p' < |list'| && list'[p'] == Listed(log, q)[p] && At(list', p', yielded, first)
            && (!q.descending && Calm(log, chunk) ==> p' == p && list'[..p'] == Listed(log, q)[..p])
  {
    p' := GrowingMoves(log, chunk, q, p, Elements(first));
    Growing(Listed(log, q), p, Listed(log + chunk, q), p', yielded, first);
  }

  /** log has grown out of log0, and rest is still to be appended. */
  ghost predicate Grown(log0: seq<Entry>, chunks: seq<seq<Entry>>, q: Query, log: seq<Entry>, rest: seq<seq<Entry>>) {
    && GoodLog(log + Concat(rest)) && log0 <= log && log + Concat(rest) == log0 + Concat(chunks)
    && Elements(Listed(log0, q)) <= Elements(log)
    && (AllCalm(log0, chunks) ==> AllCalm(log, rest))
  }

  /** The iterator is at place p; if all growth is calm, it has yielded exactly what is before. */
  ghost predicate Iterating(list: seq<Entry>, p: nat, yielded: seq<Entry>, first: seq<Entry>, calm: bool) {
    At(list, p, yielded, first) && (calm ==> yielded == list[..p])
  }

  ghost predicate StaysExact(log0: seq<Entry>, chunks: seq<seq<Entry>>, q: Query) {
    !q.descending && AllCalm(log0, chunks)
  }

  lemma AtAfterItems(list: seq<Entry>, p: nat, p': nat, items: seq<Entry>, yielded: seq<Entry>, first: seq<Entry>,
                     calm: bool)
    requires DistinctIds(list) && Iterating(list, p, yielded, first, calm)
    requires p <= p' <= |list| && items == list[p..p']
    ensures Iterating(list, p', yielded + items, first, calm)
  {
    Yielding(list, p, p' - p, yielded, first);
    assert list[..p] + list[p..p'] == list[..p'];
  }

  /** One page: it holds the entries from place p on, and its next id is that of the place behind
      them, if there is one. */
  lemma AtAfterPage(list: seq<Entry>, p: nat, id: string, limit: int, page: Page, yielded: seq<Entry>,
                    first: seq<Entry>, calm: bool)
    returns (p': nat)
    requires GoodLog(list) && OnPage(list, p, id) && limit >= 1 && Iterating(list, p, yielded, first, calm)
    requires page == PageOf(list, id, limit)
    ensures Iterating(list, p', yielded + page.items, first, calm)
    ensures p <= p' <= |list| && page.items == list[p..p']
    ensures if page.next == NONE then p' == |list| else p < p' < |list| && list[p'].id == page.next
  {
    p' := PagePlace(list, p, id, limit);
    AtAfterItems(list, p, p', page.items, yielded, first, calm);
  }

  lemma ListedIsGood(log: seq<Entry>, more: seq<Entry>, q: Query)
    requires GoodLog(log + more)
    ensures GoodLog(Listed(log, q))
  {
    DistinctPrefix(log, more);
    ListedMembers(log, q);
    forall k | 0 <= k < |Listed(log, q)| ensures Listed(log, q)[k].id != NONE {
      assert Listed(log, q)[k] in log;
    }
  }

  lemma PagePlace(list: seq<Entry>, p: nat, id: string, limit: int) returns (p': nat)
    requires GoodLog(list) && OnPage(list, p, id) && limit >= 1
    ensures var page := PageOf(list, id, limit);
            && p <= p' <= |list| && page.items == list[p..p']
            && (if page.next == NONE then p' == |list| else p < p' < |list| && list[p'].id == page.next)
  {
    StartOfPage(list, p, id);
    p' := if p + limit < |list| then p + limit else |list|;
  }

  lemma IterStart(log0: seq<Entry>, chunks: seq<seq<Entry>>, q: Query)
    requires GoodLog(log0 + Concat(chunks))
    ensures Grown(log0, chunks, q, log0, chunks)
    ensures Iterating(Listed(log0, q), 0, [], Listed(log0, q), StaysExact(log0, chunks, q))
  {
    ListedMembers(log0, q);
    StartAt(Listed(log0, q));
  }

  lemma GrownOnce(log0: seq<Entry>, chunks: seq<seq<Entry>>, q: Query, log: seq<Entry>, rest: seq<seq<Entry>>)
    requires Grown(log0, chunks, q, log, rest) && |rest| > 0
    ensures Grown(log0, chunks, q, log + rest[0], rest[1..])
    ensures forall e :: e in rest[0] ==> e !in log
  {
    assert (log + rest[0]) + Concat(rest[1..]) == log + Concat(rest) by {
      assert Concat(rest) == rest[0] + Concat(rest[1..]);
    }
    GoodGrowth(log, rest);
    ElementsGrow(log, rest[0]);
    assert log <= log + rest[0];
    assert AllCalm(log, rest) ==> AllCalm(log + rest[0], rest[1..]);
  }

  lemma ElementsGrow(log: seq<Entry>, chunk: seq<Entry>)
    ensures Elements(log) <= Elements(log + chunk)
  {
    forall e | e in log ensures e in log + chunk {
    }
  }

  lemma IterGrow(log: seq<Entry>, chunk: seq<Entry>, q: Query, p: nat, yielded: seq<Entry>, first: seq<Entry>,
                 calm: bool) returns (p': nat)
    requires p < |Listed(log, q)| && Iterating(Listed(log, q), p, yielded, first, calm)
    requires Elements(first) <= Elements(log) && (forall e :: e in chunk ==> e !in log)
    requires calm ==> !q.descending && Calm(log, chunk)
    ensures var list' := Listed(log + chunk, q);
            && p' < |list'| && list'[p'] == Listed(log, q)[p] && Iterating(list', p', yielded, first, calm)
  {
    p' := GrowOnce(log, chunk, q, p, yielded, first);
  }

  /** page_iterator over a log that grows by one chunk after each search. Every entry of the first
      list comes out exactly once and in order, whatever is appended; nothing comes out twice; and
      if the listing ascends and no appended entry is earlier, exactly the last list comes out. */
  method PageIterator(log0: seq<Entry>, chunks: seq<seq<Entry>>, q: Query)
    returns (yielded: seq<Entry>, log: seq<Entry>)
    requires GoodLog(log0 + Concat(chunks)) && q.limit >= 1
    ensures log0 <= log <= log0 + Concat(chunks)
    ensures Keep(yielded, Elements(Listed(log0, q))) == Listed(log0, q)
    ensures DistinctIds(yielded) && forall e :: e in yielded ==> e in Listed(log, q)
    ensures !q.descending && AllCalm(log0, chunks) ==> yielded == Listed(log, q)
  {
    log, yielded := log0, [];
    var rest, id := chunks, NONE;
    ghost var p: nat := 0;
    ghost var first, calm := Listed(log0, q), StaysExact(log0, chunks, q);
    IterStart(log0, chunks, q);
    while true
      invariant Grown(log0, chunks, q, log, rest)
      invariant OnPage(Listed(log, q), p, id) && Iterating(Listed(log, q), p, yielded, first, calm)
      decreases |rest|, |Listed(log, q)| - p
    {
      ListedIsGood(log, Concat(rest), q);
      var page := SearchEvents(log, id, q);
      p := AtAfterPage(Listed(log, q), p, id, q.limit, page, yielded, first, calm);
      yielded := yielded + page.items;
      id := page.next;
      if id == NONE {
        Finished(Listed(log, q), yielded, first);
        assert Listed(log, q)[..p] == Listed(log, q);
        return;
      }
      if |rest| > 0 {
        GrownOnce(log0, chunks, q, log, rest);
        p := IterGrow(log, rest[0], q, p, yielded, first, calm);
        log, rest := log + rest[0], rest[1..];
      }
    }
  }

  /** A page holds a part of the list in one piece, from the entry with its id on: as many entries as limit
      allows if others follow, and then the next id is that of the first of them. */
  lemma PageHoldsLimit(list: seq<Entry>, p: nat, limit: int)
    requires GoodLog(list) && p < |list| && limit >= 0
    ensures var page := PageOf(list, list[p].id, limit);
            if page.next != NONE
            then p + limit < |list| && page == Page(list[p..p + limit], list[p + limit].id)
            else |page.items| <= limit && page.items == list[p..]
    ensures PageOf(list, NONE, limit) == PageOf(list, list[0].id, limit)
  {
    FirstIsIt(list, p, 0);
    FirstIsIt(list, 0, 0);
  }

  /** A page id that no listed entry has starts over. */
  lemma UnknownPageStartsOver(list: seq<Entry>, id: string, limit: int)
    requires forall e :: e in list ==> e.id != id
    ensures PageOf(list, id, limit) == PageOf(list, NONE, limit)
  {
    NotFound(list, id, 0);
  }

  lemma {:induction false} NotFound(list: seq<Entry>, id: string, i: nat)
    requires i <= |list| && forall e :: e in list ==> e.id != id
    ensures FirstFrom(list, id, i) == 0
    decreases |list| - i
  {
    if i < |list| {
      assert list[i] in list;
      NotFound(list, id, i + 1);
    }
  }

  // ----- a limit of zero --------------------------------------------------------------------------

  /** What has come out after n searches of a log that does not change, and the next page id; the
      iterator stops once that is NONE. */
  function AfterSearches(list: seq<Entry>, limit: int, n: nat): Page {
    if n <= 1 then PageOf(list, NONE, limit)
    else
      var before := AfterSearches(list, limit, n - 1);
      if before.next == NONE then before
      else
        var page := PageOf(list, before.next, limit);
        Page(before.items + page.items, page.next)
  }

  /** All has come out, or the first so many, at least one per search. */
  ghost predicate InProgress(list: seq<Entry>, r: Page, n: nat) {
    || r == Page(list, NONE)
    || (n <= |r.items| < |list| && r.items == list[..|r.items|] && r.next == list[|r.items|].id)
  }

  lemma OnePage(list: seq<Entry>, limit: int, p: nat)
    requires GoodLog(list) && limit >= 1 && p < |list|
    ensures var page := PageOf(list, list[p].id, limit);
            && |page.items| >= 1 && p + |page.items| <= |list| && list[..p] + page.items == list[..p + |page.items|]
            && page.next == if p + |page.items| < |list| then list[p + |page.items|].id else NONE
  {
    FirstIsIt(list, p, 0);
  }

  lemma {:induction false} ProgressAfter(list: seq<Entry>, limit: int, n: nat)
    requires GoodLog(list) && limit >= 1 && n >= 1
    ensures InProgress(list, AfterSearches(list, limit, n), n)
  {
    if n > 1 {
      ProgressAfter(list, limit, n - 1);
      var before := AfterSearches(list, limit, n - 1);
      if before.next != NONE {
        OneMoreSearch(list, limit, n - 1, before);
      }
    } else {
      assert list[0..] == list;
    }
  }

  lemma OneMoreSearch(list: seq<Entry>, limit: int, n: nat, before: Page)
    requires GoodLog(list) && limit >= 1 && InProgress(list, before, n) && before.next != NONE
    ensures var page := PageOf(list, before.next, limit);
            InProgress(list, Page(before.items + page.items, page.next), n + 1)
  {
    OnePage(list, limit, |before.items|);
    assert list[..|list|] == list;
  }

  lemma {:induction false} StuckAfter(list: seq<Entry>, limit: int, n: nat)
    requires GoodLog(list) && limit <= 0 && |list| > 0 && n >= 1
    ensures AfterSearches(list, limit, n) == Page([], list[0].id)
  {
    EmptyPages(list, limit);
    if n > 1 {
      StuckAfter(list, limit, n - 1);
    }
  }

  lemma EmptyPages(list: seq<Entry>, limit: int)
    requires GoodLog(list) && limit <= 0 && |list| > 0
    ensures PageOf(list, list[0].id, limit) == Page([], list[0].id) == PageOf(list, NONE, limit)
  {
    FirstIsIt(list, 0, 0);
  }

  /** The iterator ends on an unchanging log exactly if limit is at least 1 or there is nothing to
      list; and then all of the list has come out. */
  lemma EndsUnlessLimitIsZero(list: seq<Entry>, limit: int)
    requires GoodLog(list)
    ensures (exists n: nat :: n >= 1 && AfterSearches(list, limit, n).next == NONE) <==> limit >= 1 || |list| == 0
    ensures forall n: nat :: n >= 1 && AfterSearches(list, limit, n).next == NONE ==>
            AfterSearches(list, limit, n).items == list
  {
    if limit >= 1 {
      ProgressAfter(list, limit, |list| + 1);
      assert AfterSearches(list, limit, |list| + 1).next == NONE;
      forall n: nat | n >= 1 && AfterSearches(list, limit, n).next == NONE
        ensures AfterSearches(list, limit, n).items == list
      {
        ProgressAfter(list, limit, n);
      }
    } else if |list| == 0 {
      forall n: nat | n >= 1 ensures AfterSearches(list, limit, n) == Page([], NONE) {
        NothingListed(list, limit, n);
      }
      assert AfterSearches(list, limit, 1).next == NONE;
    } else {
      forall n: nat | n >= 1 ensures AfterSearches(list, limit, n).next != NONE {
        StuckAfter(list, limit, n);
      }
    }
  }

  lemma {:induction false} NothingListed(list: seq<Entry>, limit: int, n: nat)
    requires |list| == 0 && n >= 1
    ensures AfterSearches(list, limit, n) == Page([], NONE)
  {
    if n > 1 {
      NothingListed(list, limit, n - 1);
    }
  }
}
