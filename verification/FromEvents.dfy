/** Building the view from the whole log, and what a condensation that forgets the events between
    two cut points does to it. */
module FromEvents {
  import opened Events
  import opened View
  import opened Condenser
  import opened Manipulation

  datatype ViewResult = ViewResult(events: seq<Event>, unhandledCondensationRequest: bool, condensations: seq<Event>)

  /** The convertible events with all condensations applied in order, before any filter. */
  function Visible(log: seq<Event>): seq<Event> {
    if |log| == 0 then []
    else
      var output, e := Visible(log[..|log| - 1]), log[|log| - 1];
      if e.Condensation? then Apply(e, output)
      else if e.IsLLMConvertible() then output + [e]
      else output
  }

  function ViewEvents(log: seq<Event>): seq<Event> {
    Filtered(Enforced(Visible(log), log), log)
  }

  ghost predicate UnhandledRequest(log: seq<Event>) {
    exists i :: 0 <= i < |log| && log[i].CondensationRequest? && forall j :: i < j < |log| ==> !log[j].Condensation?
  }

  method UnhandledCondensationRequestExists(log: seq<Event>) returns (unhandled: bool)
    ensures unhandled == UnhandledRequest(log)
  {
    var i := |log|;
    while i > 0
      invariant 0 <= i <= |log|
      invariant forall j :: i <= j < |log| ==> !log[j].Condensation? && !log[j].CondensationRequest?
    {
      i := i - 1;
      if log[i].Condensation? {
        return false;
      }
      if log[i].CondensationRequest? {
        return true;
      }
    }
    return false;
  }

  method ViewFromEvents(log: seq<Event>) returns (view: ViewResult)
    requires IdsIdentify(log)
    ensures view.events == ViewEvents(log)
    ensures view.unhandledCondensationRequest == UnhandledRequest(log)
    ensures view.condensations == Keep(log, set e | e in log && e.Condensation?)
  {
    var output: seq<Event> := [];
    var condensations: seq<Event> := [];
    ghost var C := set e | e in log && e.Condensation?;
    for i := 0 to |log|
      invariant output == Visible(log[..i])
      invariant condensations == Keep(log[..i], C)
    {
      assert log[..i + 1][..i] == log[..i];
      var event := log[i];
      if event.Condensation? {
        condensations := condensations + [event];
        output := Apply(event, output);
      } else if event.IsLLMConvertible() {
        output := output + [event];
      }
    }
    assert log[..|log|] == log;
    output := EnforceBatchAtomicity(output, log);
    output := FilterUnmatchedToolCalls(output, log);
    var unhandled := UnhandledCondensationRequestExists(log);
    return ViewResult(output, unhandled, condensations);
  }

  // ----- the view of a stored log -----------------------------------------------------------

  ghost predicate DistinctIds(s: seq<Event>) {
    forall i, j :: 0 <= i < j < |s| ==> s[i].id != s[j].id
  }

  /** No result comes before the action it answers. */
  ghost predicate ResultsFollow(s: seq<Event>) {
    forall i, j :: 0 <= i < j < |s| && s[i].IsObservation() && s[j].ActionEvent? ==> s[i].toolCallId != s[j].toolCallId
  }

  /** A log as it is stored: generated ids, each used once; tool call ids unique per action; no
      result before its action. Summary events are never stored. */
  ghost predicate StoredLog(log: seq<Event>) {
    && DistinctIds(log) && ResultsFollow(log) && UniqueCalls(log)
    && forall e :: e in log ==> e.id.Raw? && !e.CondensationSummaryEvent?
  }

  /** e is in the log or is the summary of one of its condensations. */
  ghost predicate Derived(e: Event, log: seq<Event>) {
    e in log || exists c :: c in log && c.Condensation? && c.summary.Some? && e == SummaryEvent(c)
  }

  lemma KeepDistinct(s: seq<Event>, K: set<Event>)
    requires DistinctIds(s)
    ensures DistinctIds(Keep(s, K))
  {
    if |s| > 0 {
      var front := s[..|s| - 1];
      KeepDistinct(front, K);
      KeepMembers(front, K);
      var r := Keep(front, K);
      assert forall i :: 0 <= i < |r| ==> r[i] in r && r[i] in front;
    }
  }

  lemma KeepResultsFollow(s: seq<Event>, K: set<Event>)
    requires ResultsFollow(s)
    ensures ResultsFollow(Keep(s, K))
  {
    if |s| > 0 {
      var front := s[..|s| - 1];
      KeepResultsFollow(front, K);
      KeepMembers(front, K);
      var r := Keep(front, K);
      assert forall i :: 0 <= i < |r| ==> r[i] in r && r[i] in front;
    }
  }

  lemma InsertKeepsOrder(s: seq<Event>, k: nat, e: Event)
    requires DistinctIds(s) && ResultsFollow(s) && e.id !in Ids(s)
    requires e.CondensationSummaryEvent?
    ensures DistinctIds(InsertAt(s, k, e)) && ResultsFollow(InsertAt(s, k, e))
  {
    var t := InsertAt(s, k, e);
    var k' := if k < |s| then k else |s|;
    forall i, j | 0 <= i < j < |t| ensures ComesBefore(t[i], t[j]) {
      InsertedAt(s, k, e, i);
      InsertedAt(s, k, e, j);
    }
  }

  lemma InsertedAt(s: seq<Event>, k: nat, e: Event, i: nat)
    requires i <= |s|
    ensures var t, k' := InsertAt(s, k, e), if k < |s| then k else |s|;
            |t| == |s| + 1 && t[i] == (if i < k' then s[i] else if i == k' then e else s[i - 1])
    ensures i < |s| ==> s[i].id in Ids(s)
    ensures 0 < i ==> s[i - 1].id in Ids(s)
  {
  }

  lemma VisibleProperties(log: seq<Event>)
    requires StoredLog(log)
    ensures DistinctIds(Visible(log)) && ResultsFollow(Visible(log))
    ensures forall e :: e in Visible(log) ==> Derived(e, log)
  {
    if |log| > 0 {
      var front, e := log[..|log| - 1], log[|log| - 1];
      assert log == front + [e];
      StoredPrefix(front, e);
      VisibleProperties(front);
      VisiblePropertiesStep(front, e, Visible(front));
    }
  }

  lemma VisiblePropertiesStep(front: seq<Event>, e: Event, output: seq<Event>)
    requires StoredLog(front + [e])
    requires DistinctIds(output) && ResultsFollow(output)
    requires forall f :: f in output ==> Derived(f, front)
    ensures var next := if e.Condensation? then Apply(e, output)
                        else if e.IsLLMConvertible() then output + [e]
                        else output;
            DistinctIds(next) && ResultsFollow(next) && forall f :: f in next ==> Derived(f, front + [e])
  {
    forall f | f in output ensures Derived(f, front + [e]) {
      assert Derived(f, front);
    }
    if e.Condensation? {
      AppliedMembers(e, output);
      var N := set f | f in output && f.id !in e.forgotten;
      KeepDistinct(output, N);
      KeepResultsFollow(output, N);
      KeepMembers(output, N);
      if HasSummaryMetadata(e) {
        NewSummaryIsFresh(front, e, Remembered(e, output));
        InsertKeepsOrder(Remembered(e, output), e.summaryOffset.value, SummaryEvent(e));
      }
    } else if e.IsLLMConvertible() {
      forall i | 0 <= i < |output| ensures ComesBefore(output[i], e) {
        assert output[i] in output;
        DerivedComesBefore(front, e, output[i]);
      }
    }
  }

  ghost predicate ComesBefore(f: Event, e: Event) {
    f.id != e.id && (f.IsObservation() && e.ActionEvent? ==> f.toolCallId != e.toolCallId)
  }

  lemma DerivedComesBefore(front: seq<Event>, e: Event, f: Event)
    requires StoredLog(front + [e]) && Derived(f, front)
    ensures ComesBefore(f, e)
  {
    if f in front {
      var j :| 0 <= j < |front| && front[j] == f;
      assert (front + [e])[j] == f && (front + [e])[|front|] == e;
    } else {
      assert e in front + [e];
    }
  }

  lemma NewSummaryIsFresh(front: seq<Event>, c: Event, s: seq<Event>)
    requires StoredLog(front + [c]) && c.Condensation? && c.summary.Some?
    requires forall e :: e in s ==> Derived(e, front)
    ensures SummaryOf(c.id) !in Ids(s)
  {
    forall e | e in s ensures e.id != SummaryOf(c.id) {
      if e in front {
        assert e in front + [c];
      } else {
        var d :| d in front && d.Condensation? && d.summary.Some? && e == SummaryEvent(d);
        var j :| 0 <= j < |front| && front[j] == d;
        assert (front + [c])[j].id != (front + [c])[|front|].id;
      }
    }
  }

  /** The visible events of a stored log are a view over it, so the filter theorems apply. */
  lemma VisibleIsViewOver(log: seq<Event>)
    requires StoredLog(log)
    ensures ViewOver(Visible(log), log)
  {
    VisibleProperties(log);
    DerivedIsViewOver(Visible(log), log);
  }

  lemma DerivedIsViewOver(s: seq<Event>, log: seq<Event>)
    requires StoredLog(log)
    requires forall e :: e in s ==> Derived(e, log)
    ensures ViewOver(s, log)
  {
    forall e, f | e in s + log && f in s + log && e.id == f.id ensures e == f {
      if e in log && f in log {
        SameIdSameEvent(log, e, f);
      } else if e !in log && f !in log {
        var c :| c in log && c.Condensation? && c.summary.Some? && e == SummaryEvent(c);
        var d :| d in log && d.Condensation? && d.summary.Some? && f == SummaryEvent(d);
        SameIdSameEvent(log, c, d);
      }
    }
  }

  lemma SameIdSameEvent(log: seq<Event>, e: Event, f: Event)
    requires DistinctIds(log) && e in log && f in log && e.id == f.id
    ensures e == f
  {
    var i :| 0 <= i < |log| && log[i] == e;
    var j :| 0 <= j < |log| && log[j] == f;
  }

  /** The view of a stored log is its visible events cut down to the greatest stable sub-view. */
  lemma ViewIsGreatestStable(log: seq<Event>)
    requires StoredLog(log)
    ensures ViewEvents(log) == Filtered(Visible(log), log)
    ensures ViewEvents(log) == Keep(Visible(log), Elements(ViewEvents(log)))
    ensures Stable(Visible(log), log, Elements(ViewEvents(log)))
    ensures forall K :: Stable(Visible(log), log, K) ==> K <= Elements(ViewEvents(log))
    ensures DistinctIds(ViewEvents(log)) && ResultsFollow(ViewEvents(log))
  {
    VisibleIsViewOver(log);
    EnforceFirstIsRedundant(Visible(log), log);
    FilteredIsStable(Visible(log), log);
    FilteredIsKeep(Visible(log), log);
    forall K | Stable(Visible(log), log, K) ensures K <= Elements(ViewEvents(log)) {
      FilteredIsGreatest(Visible(log), log, K);
    }
    VisibleProperties(log);
    KeepDistinct(Visible(log), Elements(ViewEvents(log)));
    KeepResultsFollow(Visible(log), Elements(ViewEvents(log)));
  }

  // ----- what is visible ------------------------------------------------------------------------

  /** No later condensation forgets id. */
  ghost predicate Kept(log: seq<Event>, i: nat, id: EventId) {
    forall j :: i < j < |log| && log[j].Condensation? ==> id !in log[j].forgotten
  }

  lemma KeptStep(front: seq<Event>, e: Event, i: nat, id: EventId)
    requires i < |front|
    ensures Kept(front + [e], i, id) <==> Kept(front, i, id) && (e.Condensation? ==> id !in e.forgotten)
  {
    assert forall j :: 0 <= j < |front| ==> (front + [e])[j] == front[j];
    assert (front + [e])[|front|] == e;
  }

  lemma NewestIsNotVisible(front: seq<Event>, e: Event)
    requires StoredLog(front + [e])
    ensures e !in Visible(front)
  {
    StoredPrefix(front, e);
    VisibleProperties(front);
    if e in Visible(front) {
      DerivedComesBefore(front, e, e);
    }
  }

  lemma DerivedIsNotItsSummary(front: seq<Event>, e: Event, f: Event)
    requires StoredLog(front + [e]) && Derived(f, front)
    ensures f.id != SummaryOf(e.id)
  {
    if f in front {
      assert f in front + [e];
    } else {
      var d :| d in front && d.Condensation? && d.summary.Some? && f == SummaryEvent(d);
      var j :| 0 <= j < |front| && front[j] == d;
      assert (front + [e])[j].id != (front + [e])[|front|].id;
    }
  }

  /** What one more event makes visible. */
  lemma VisibleOneMore(front: seq<Event>, e: Event, f: Event)
    ensures f in Visible(front + [e]) <==>
              if e.Condensation? then
                (f in Visible(front) && f.id !in e.forgotten) || (HasSummaryMetadata(e) && f == SummaryEvent(e))
              else f in Visible(front) || (f == e && e.IsLLMConvertible())
  {
    assert (front + [e])[..|front|] == front;
    if e.Condensation? {
      AppliedMembers(e, Visible(front));
    }
  }

  /** A stored event is visible exactly if it is an action, a result, a message or a system prompt and no
      later condensation forgets it. */
  lemma {:induction false} StoredVisibleExactly(log: seq<Event>, i: nat)
    requires StoredLog(log) && i < |log|
    ensures log[i] in Visible(log) <==>
            && Kept(log, i, log[i].id)
            && match log[i]
               case ActionEvent(_, _, _, _, _, _, _, _, _) => true
               case ObservationEvent(_, _, _, _) => true
               case UserRejectObservation(_, _, _, _) => true
               case AgentErrorEvent(_, _, _) => true
               case MessageEvent(_, _, _) => true
               case SystemPromptEvent(_, _) => true
               case _ => false
    decreases |log|
  {
    var front, e := log[..|log| - 1], log[|log| - 1];
    assert log == front + [e] && log[i] in log;
    StoredPrefix(front, e);
    VisibleOneMore(front, e, log[i]);
    if i < |front| {
      StoredVisibleExactly(front, i);
      KeptStep(front, e, i, log[i].id);
      assert log[i].id != e.id;
    } else {
      NewestIsNotVisible(front, e);
    }
  }

  lemma OlderSummaryVisible(front: seq<Event>, e: Event, c: Event, summary: Event)
    requires StoredLog(front + [e]) && c in front && summary.id == SummaryOf(c.id) && summary.CondensationSummaryEvent?
    ensures summary in Visible(front + [e]) <==>
              summary in Visible(front) && (e.Condensation? ==> summary.id !in e.forgotten)
  {
    VisibleOneMore(front, e, summary);
    var j :| 0 <= j < |front| && front[j] == c;
    assert (front + [e])[j].id != (front + [e])[|front|].id;
    assert e in front + [e];
  }

  lemma NewestSummaryVisible(front: seq<Event>, e: Event, text: string)
    requires StoredLog(front + [e]) && e.Condensation?
    ensures CondensationSummaryEvent(SummaryOf(e.id), text) in Visible(front + [e]) <==>
            e.summary == Some(text) && e.summaryOffset.Some?
  {
    var summary := CondensationSummaryEvent(SummaryOf(e.id), text);
    VisibleOneMore(front, e, summary);
    NotVisibleYet(front, e, summary);
  }

  /** The summary of a condensation, with its text, is visible exactly if the condensation says where and
      no later one forgets it. */
  lemma {:induction false} SummaryVisibleExactly(log: seq<Event>, i: nat, text: string)
    requires StoredLog(log) && i < |log| && log[i].Condensation?
    ensures CondensationSummaryEvent(SummaryOf(log[i].id), text) in Visible(log) <==>
            log[i].summary == Some(text) && log[i].summaryOffset.Some? && Kept(log, i, SummaryOf(log[i].id))
    decreases |log|
  {
    var front, e := log[..|log| - 1], log[|log| - 1];
    assert log == front + [e];
    if i < |front| {
      StoredPrefix(front, e);
      SummaryVisibleExactly(front, i, text);
      OlderSummaryVisible(front, e, front[i], CondensationSummaryEvent(SummaryOf(log[i].id), text));
      KeptStep(front, e, i, SummaryOf(log[i].id));
    } else {
      NewestSummaryVisible(front, e, text);
    }
  }

  lemma NotVisibleYet(front: seq<Event>, e: Event, summary: Event)
    requires StoredLog(front + [e]) && summary.id == SummaryOf(e.id)
    ensures summary !in Visible(front)
  {
    StoredPrefix(front, e);
    VisibleProperties(front);
    if summary in Visible(front) {
      DerivedIsNotItsSummary(front, e, summary);
    }
  }

  /** Condensing without a place for the summary inserts nothing among the stored events. */
  lemma KeepSkips(s: seq<Event>, k: nat, e: Event, K: set<Event>)
    requires e !in K
    ensures Keep(InsertAt(s, k, e), K) == Keep(s, K)
  {
    var k' := if k < |s| then k else |s|;
    assert InsertAt(s, k, e) == s[..k'] + ([e] + s[k'..]) && s == s[..k'] + s[k'..];
    KeepCons(e, s[k'..], K);
    KeepConcat(s[..k'], [e] + s[k'..], K);
    KeepConcat(s[..k'], s[k'..], K);
  }

  lemma InLogOrderAfter(front: seq<Event>, e: Event, V: seq<Event>, more: seq<Event>)
    requires e !in front && e !in V && (more == [e] || more == [])
    requires Keep(V, Elements(front)) == Keep(front, Elements(V))
    ensures Keep(V + more, Elements(front + [e])) == Keep(front + [e], Elements(V + more))
  {
    var L, W := Elements(front + [e]), Elements(V + more);
    KeepConcat(V, more, L);
    KeepConcat(front, [e], W);
    KeepCons(e, [], L);
    KeepCons(e, [], W);
    KeepSame(V, Elements(front), L);
    KeepSame(front, Elements(V), W);
  }

  /** The visible ones among the stored events have the order of the log. */
  lemma {:induction false} VisibleInLogOrder(log: seq<Event>)
    requires StoredLog(log)
    ensures Keep(Visible(log), Elements(log)) == Keep(log, Elements(Visible(log)))
  {
    if |log| > 0 {
      var front, e := log[..|log| - 1], log[|log| - 1];
      assert log == front + [e];
      StoredPrefix(front, e);
      NewestIsNotVisible(front, e);
      NewestIsNew(front, e);
      VisibleInLogOrder(front);
      var V := Visible(front);
      if e.Condensation? {
        CondensedInLogOrder(front, e);
      } else if e.IsLLMConvertible() {
        InLogOrderAfter(front, e, V, [e]);
      } else {
        InLogOrderAfter(front, e, V, []);
        assert V + [] == V;
      }
    }
  }

  lemma NewestIsNew(front: seq<Event>, e: Event)
    requires StoredLog(front + [e])
    ensures e !in front
  {
    forall j | 0 <= j < |front| ensures front[j] != e {
      assert (front + [e])[j].id != (front + [e])[|front|].id;
    }
  }

  lemma CondensedInLogOrder(front: seq<Event>, c: Event)
    requires StoredLog(front + [c]) && c.Condensation? && c !in front && c !in Visible(front)
    requires Keep(Visible(front), Elements(front)) == Keep(front, Elements(Visible(front)))
    ensures Keep(Apply(c, Visible(front)), Elements(front + [c]))
            == Keep(front + [c], Elements(Apply(c, Visible(front))))
  {
    var V, L := Visible(front), Elements(front + [c]);
    InLogOrderAfter(front, c, V, []);
    assert V + [] == V;
    var N := set f | f in V && f.id !in c.forgotten;
    KeepKeep(V, N, L);
    KeepKeep(V, L, N);
    assert N * L == L * N;
    KeepKeep(front + [c], Elements(V), N);
    AppliedMembers(c, V);
    if HasSummaryMetadata(c) {
      assert SummaryEvent(c) !in L;
      KeepSkips(Remembered(c, V), c.summaryOffset.value, SummaryEvent(c), L);
    }
    KeepSame(front + [c], Elements(V) * N, Elements(Apply(c, V)));
  }

  // ----- cutting at safe points ---------------------------------------------------------------

  /** c forgets exactly view[a..b], between two cut points of the view of the log. */
  ghost predicate CutsAt(log: seq<Event>, c: Event, a: nat, b: nat) {
    && c.Condensation? && StoredLog(log + [c])
    && var V := ViewEvents(log);
       && a <= b <= |V| && CutPoint(V, a) && CutPoint(V, b)
       && forall x :: x in c.forgotten <==> x in Ids(V[a..b])
  }

  lemma StoredPrefix(log: seq<Event>, c: Event)
    requires StoredLog(log + [c])
    ensures StoredLog(log)
  {
    assert forall i :: 0 <= i < |log| ==> (log + [c])[i] == log[i];
    assert forall e :: e in log ==> e in log + [c];
  }

  /** What the view keeps is the part outside the slice. */
  ghost function Outside(V: seq<Event>, a: nat, b: nat): set<Event>
    requires a <= b <= |V|
  {
    Elements(V[..a] + V[b..])
  }

  lemma OutsideMembers(V: seq<Event>, a: nat, b: nat, i: nat)
    requires DistinctIds(V) && a <= b <= |V| && i < |V|
    ensures V[i] in Outside(V, a, b) <==> i < a || b <= i
    ensures V[i].id in Ids(V[a..b]) <==> a <= i < b
  {
    InSlice(V, 0, a, i);
    InSlice(V, a, b, i);
    InSlice(V, b, |V|, i);
    assert V[i] in V[..a] + V[b..] <==> V[i] in V[0..a] || V[i] in V[b..|V|];
    if e :| e in V[a..b] && e.id == V[i].id {
      assert e in V && V[i] in V;
      SameIdSameEvent(V, e, V[i]);
    }
  }

  lemma InSlice(V: seq<Event>, a: nat, b: nat, i: nat)
    requires DistinctIds(V) && a <= b <= |V| && i < |V|
    ensures V[i] in V[a..b] <==> a <= i < b
  {
    if a <= i < b {
      assert V[a..b][i - a] == V[i];
    }
  }

  /** A unit of the view lies wholly inside or wholly outside the slice. */
  lemma UnitsStayTogether(V: seq<Event>, a: nat, b: nat, x: Event, y: Event)
    requires DistinctIds(V) && ResultsFollow(V) && a <= b <= |V| && CutPoint(V, a) && CutPoint(V, b)
    requires x in V && y in V && x.ActionEvent?
    requires SameBatch(x, y) || (y.IsObservation() && y.toolCallId == x.toolCallId)
    ensures x in Outside(V, a, b) <==> y in Outside(V, a, b)
  {
    var p :| 0 <= p < |V| && V[p] == x;
    var q :| 0 <= q < |V| && V[q] == y;
    OutsideMembers(V, a, b, p);
    OutsideMembers(V, a, b, q);
    if y.IsObservation() {
      assert p < q;
    }
    CutKeepsTogether(V, a, p, q);
    CutKeepsTogether(V, b, p, q);
  }

  lemma CutKeepsTogether(V: seq<Event>, idx: nat, p: nat, q: nat)
    requires CutPoint(V, idx) && p < |V| && q < |V| && V[p].ActionEvent?
    requires SameBatch(V[p], V[q]) || (V[q].IsObservation() && V[q].toolCallId == V[p].toolCallId && p < q)
    ensures p < idx <==> q < idx
  {
    if p < idx {
      CutPointsKeepUnits(V, idx, p, q);
    }
    if q < idx && V[q].ActionEvent? {
      CutPointsKeepUnits(V, idx, q, p);
    }
  }

  /** Removing a slice between cut points leaves a stable set. */
  lemma OutsideIsStable(log: seq<Event>, a: nat, b: nat)
    requires StoredLog(log)
    requires a <= b <= |ViewEvents(log)| && CutPoint(ViewEvents(log), a) && CutPoint(ViewEvents(log), b)
    ensures Stable(Visible(log), log, Outside(ViewEvents(log), a, b))
  {
    var V := ViewEvents(log);
    var K := Outside(V, a, b);
    ViewIsGreatestStable(log);
    assert K <= Elements(V) <= Elements(Visible(log));
    forall x | x in K && x.ActionEvent? ensures Answered(x, K) {
      assert Answered(x, Elements(V));
      var o :| o in Elements(V) && o.IsObservation() && o.toolCallId == x.toolCallId;
      UnitsStayTogether(V, a, b, x, o);
    }
    forall o | o in K && o.IsObservation() ensures CalledFor(o, K) {
      assert CalledFor(o, Elements(V));
      var x :| x in Elements(V) && x.ActionEvent? && x.toolCallId == o.toolCallId;
      UnitsStayTogether(V, a, b, x, o);
    }
    forall x, y | x in log && y in log && SameBatch(x, y) ensures x in K <==> y in K {
      assert x in Elements(V) <==> y in Elements(V);
      if x in V && y in V {
        UnitsStayTogether(V, a, b, x, y);
      }
    }
  }

  /** The set the new view consists of. */
  ghost function After(log: seq<Event>, c: Event, a: nat, b: nat): set<Event>
    requires c.Condensation? && a <= b <= |ViewEvents(log)|
  {
    Outside(ViewEvents(log), a, b) + (if HasSummaryMetadata(c) then {SummaryEvent(c)} else {})
  }

  lemma AppliedMembers(c: Event, U: seq<Event>)
    requires c.Condensation?
    ensures forall e :: e in Apply(c, U) <==>
            (e in U && e.id !in c.forgotten) || (HasSummaryMetadata(c) && e == SummaryEvent(c))
  {
    KeepMembers(U, set e | e in U && e.id !in c.forgotten);
  }

  /** Stability over the longer log and over the shorter one differ only in the summary. */
  lemma StableAcrossCondensation(log: seq<Event>, c: Event, W: seq<Event>, U: seq<Event>, K: set<Event>, S: set<Event>)
    requires c.Condensation?
    requires forall s :: s in S ==> s.CondensationSummaryEvent?
    requires Stable(W, log + [c], K) && K - S <= Elements(U)
    requires forall s :: s in S ==> s !in log
    ensures Stable(U, log, K - S)
  {
    var L := K - S;
    forall x | x in L && x.ActionEvent? ensures Answered(x, L) {
      assert Answered(x, K);
    }
    forall o | o in L && o.IsObservation() ensures CalledFor(o, L) {
      assert CalledFor(o, K);
    }
    forall x, y | x in log && y in log && SameBatch(x, y) ensures x in L <==> y in L {
      assert x in log + [c] && y in log + [c];
    }
  }

  lemma AfterIsStable(log: seq<Event>, c: Event, a: nat, b: nat)
    requires CutsAt(log, c, a, b)
    ensures Stable(Visible(log + [c]), log + [c], After(log, c, a, b))
  {
    StoredPrefix(log, c);
    OutsideIsStable(log, a, b);
    OutsideRemembered(log, c, a, b);
    VisibleStep(log, c);
    AppliedMembers(c, Visible(log));
    var L, K := Outside(ViewEvents(log), a, b), After(log, c, a, b);
    assert K <= Elements(Visible(log + [c])) by {
      forall e | e in K ensures e in Visible(log + [c]) {
        if e in L {
          assert e in Visible(log) && e.id !in c.forgotten;
        }
      }
    }
    StableWithSummary(Visible(log), Visible(log + [c]), log, c, L, K);
  }

  lemma StableWithSummary(U: seq<Event>, W: seq<Event>, log: seq<Event>, c: Event, L: set<Event>, K: set<Event>)
    requires Stable(U, log, L) && L <= K <= Elements(W)
    requires forall e :: e in K && e !in L ==> e.CondensationSummaryEvent?
    requires c.Condensation?
    ensures Stable(W, log + [c], K)
  {
    forall x | x in K && x.ActionEvent? ensures Answered(x, K) {
      assert Answered(x, L);
      var o :| o in L && o.IsObservation() && o.toolCallId == x.toolCallId;
      assert o in K;
    }
    forall o | o in K && o.IsObservation() ensures CalledFor(o, K) {
      assert CalledFor(o, L);
      var x :| x in L && x.ActionEvent? && x.toolCallId == o.toolCallId;
      assert x in K;
    }
    forall x, y | x in log + [c] && y in log + [c] && SameBatch(x, y) ensures x in K <==> y in K {
      assert x in log && y in log;
      assert x in L <==> y in L;
    }
  }

  lemma OutsideRemembered(log: seq<Event>, c: Event, a: nat, b: nat)
    requires CutsAt(log, c, a, b)
    ensures forall e :: e in Outside(ViewEvents(log), a, b) <==> e in ViewEvents(log) && e.id !in c.forgotten
    ensures forall e :: e in ViewEvents(log) ==> e in Visible(log)
  {
    StoredPrefix(log, c);
    ViewIsGreatestStable(log);
    var V := ViewEvents(log);
    forall e | e in V ensures e in Outside(V, a, b) <==> e.id !in c.forgotten {
      var i := IndexOf(V, e);
      OutsideMembers(V, a, b, i);
    }
    assert Elements(V) <= Elements(Visible(log));
    forall e | e in V ensures e in Visible(log) {
      assert e in Elements(V);
    }
  }

  lemma IndexOf(V: seq<Event>, e: Event) returns (i: nat)
    requires e in V
    ensures i < |V| && V[i] == e
  {
    i :| 0 <= i < |V| && V[i] == e;
  }

  lemma VisibleStep(log: seq<Event>, c: Event)
    requires c.Condensation?
    ensures Visible(log + [c]) == Apply(c, Visible(log))
  {
    assert (log + [c])[..|log|] == log;
  }

  lemma AfterIsGreatest(log: seq<Event>, c: Event, a: nat, b: nat, K: set<Event>)
    requires CutsAt(log, c, a, b)
    requires Stable(Visible(log + [c]), log + [c], K)
    ensures K <= After(log, c, a, b)
  {
    StoredPrefix(log, c);
    ViewIsGreatestStable(log);
    VisibleStep(log, c);
    var V, U := ViewEvents(log), Visible(log);
    AppliedMembers(c, U);
    var S := if HasSummaryMetadata(c) then {SummaryEvent(c)} else {};
    assert forall e :: e in log ==> e in log + [c];
    StableAcrossCondensation(log, c, Visible(log + [c]), U, K, S);
    OutsideRemembered(log, c, a, b);
    forall e | e in K - S ensures e in Outside(V, a, b) {
      assert e in Elements(V);
    }
  }

  /** Main result: after a condensation that forgets the events between two cut points of the
      view, the new view is the old one without that slice; the filters remove nothing else.
      The summary, when there is one, is inserted, and everything else keeps its order. */
  lemma CuttingAtSafePoints(log: seq<Event>, c: Event, a: nat, b: nat)
    requires CutsAt(log, c, a, b)
    ensures var V, W := ViewEvents(log), ViewEvents(log + [c]);
            if HasSummaryMetadata(c)
            then W == InsertAt(V[..a] + V[b..], SummaryPosition(log, c, a, b), SummaryEvent(c))
            else W == V[..a] + V[b..]
  {
    StoredPrefix(log, c);
    var K := After(log, c, a, b);
    NewViewIsAfter(log, c, a, b);
    VisibleStep(log, c);
    KeptOutside(log, c, a, b);
    if HasSummaryMetadata(c) {
      InsertKept(Remembered(c, Visible(log)), SummaryIndex(log, c), c.summaryOffset.value, SummaryEvent(c), K);
    }
  }

  lemma InsertKept(R: seq<Event>, k: nat, offset: nat, e: Event, K: set<Event>)
    requires e in K && k == if offset < |R| then offset else |R|
    ensures Keep(InsertAt(R, offset, e), K) == InsertAt(Keep(R, K), |Keep(R[..k], K)|, e)
  {
    var A, B := Keep(R[..k], K), Keep(R[k..], K);
    KeepInsert(R, offset, e, K);
    assert R == R[..k] + R[k..];
    KeepConcat(R[..k], R[k..], K);
    assert |B| == 0 ==> B == [];
  }

  /** Where the summary goes in the list of visible events: the offset, or the end. */
  ghost function SummaryIndex(log: seq<Event>, c: Event): nat
    requires c.Condensation? && HasSummaryMetadata(c)
    ensures SummaryIndex(log, c) <= |Remembered(c, Visible(log))|
  {
    var n := |Remembered(c, Visible(log))|;
    if c.summaryOffset.value < n then c.summaryOffset.value else n
  }

  /** Where it ends up in the view: the offset counts visible events, of which the filters keep
      this many. */
  ghost function SummaryPosition(log: seq<Event>, c: Event, a: nat, b: nat): nat
    requires c.Condensation? && HasSummaryMetadata(c)
    requires a <= b <= |ViewEvents(log)|
  {
    |Keep(Remembered(c, Visible(log))[..SummaryIndex(log, c)], After(log, c, a, b))|
  }

  lemma NewViewIsAfter(log: seq<Event>, c: Event, a: nat, b: nat)
    requires CutsAt(log, c, a, b)
    ensures ViewEvents(log + [c]) == Keep(Visible(log + [c]), After(log, c, a, b))
  {
    VisibleIsViewOver(log + [c]);
    EnforceFirstIsRedundant(Visible(log + [c]), log + [c]);
    AfterIsStable(log, c, a, b);
    var K := After(log, c, a, b);
    forall L | Stable(Visible(log + [c]), log + [c], L) ensures L <= K {
      AfterIsGreatest(log, c, a, b, L);
    }
    FilteredUnique(Visible(log + [c]), log + [c], K);
  }

  lemma KeptOutside(log: seq<Event>, c: Event, a: nat, b: nat)
    requires CutsAt(log, c, a, b)
    ensures Keep(Remembered(c, Visible(log)), After(log, c, a, b)) == ViewEvents(log)[..a] + ViewEvents(log)[b..]
  {
    var V, U := ViewEvents(log), Visible(log);
    var N := set e | e in U && e.id !in c.forgotten;
    CutFacts(log, c, a, b);
    KeepOutsideSlice(U, V, a, b, N, After(log, c, a, b));
  }

  /** The facts about the view and the visible events that the cut lemmas below need. */
  lemma CutFacts(log: seq<Event>, c: Event, a: nat, b: nat)
    requires CutsAt(log, c, a, b)
    ensures var V, U, N, K := ViewEvents(log), Visible(log), (set e | e in Visible(log) && e.id !in c.forgotten),
            After(log, c, a, b);
            && V == Keep(U, Elements(V))
            && DistinctIds(V)
            && (forall e :: e in U && e in K ==> e in Outside(V, a, b))
            && (forall e :: e in Outside(V, a, b) ==> e in N && e in K)
            && (forall u :: u in U && u !in N ==> u in Elements(V))
  {
    StoredPrefix(log, c);
    ViewIsGreatestStable(log);
    OutsideRemembered(log, c, a, b);
    VisibleProperties(log);
    var V, U := ViewEvents(log), Visible(log);
    if HasSummaryMetadata(c) {
      NewSummaryIsFresh(log, c, U);
    }
    forall u | u in U && u.id in c.forgotten ensures u in Elements(V) {
      ForgottenInView(U, V, a, b, u);
    }
  }

  lemma ForgottenInView(U: seq<Event>, V: seq<Event>, a: nat, b: nat, u: Event)
    requires DistinctIds(U) && a <= b <= |V|
    requires forall e :: e in V ==> e in U
    requires u in U && u.id in Ids(V[a..b])
    ensures u in V
  {
    var e :| e in V[a..b] && e.id == u.id;
    assert e in V;
    SameIdSameEvent(U, e, u);
  }

  lemma KeepOutsideSlice(U: seq<Event>, V: seq<Event>, a: nat, b: nat, N: set<Event>, K: set<Event>)
    requires a <= b <= |V| && DistinctIds(V) && V == Keep(U, Elements(V))
    requires forall e :: e in U && e in K ==> e in Outside(V, a, b)
    requires forall e :: e in Outside(V, a, b) ==> e in N && e in K
    ensures Keep(Keep(U, N), K) == V[..a] + V[b..]
  {
    var O := Outside(V, a, b);
    KeepKeep(U, N, K);
    KeepKeep(U, Elements(V), O);
    KeepSame(U, N * K, Elements(V) * O);
    KeepOutside(V, a, b);
  }

  lemma KeepOutside(V: seq<Event>, a: nat, b: nat)
    requires a <= b <= |V| && DistinctIds(V)
    ensures Keep(V, Outside(V, a, b)) == V[..a] + V[b..]
  {
    SliceNotOutside(V, a, b);
    ThreeParts(V, a, b);
    KeepEnds(V[..a], V[a..b], V[b..], Outside(V, a, b));
  }

  lemma ThreeParts(V: seq<Event>, a: nat, b: nat)
    requires a <= b <= |V|
    ensures V[..a] + V[a..b] + V[b..] == V
    ensures forall e :: e in V[..a] || e in V[b..] ==> e in Outside(V, a, b)
  {
  }

  lemma KeepEnds(A: seq<Event>, B: seq<Event>, C: seq<Event>, O: set<Event>)
    requires (forall e :: e in A ==> e in O) && (forall e :: e in B ==> e !in O) && (forall e :: e in C ==> e in O)
    ensures Keep(A + B + C, O) == A + C
  {
    KeepTail(A + B, C, O);
    KeepHead(A, B, O);
  }

  lemma SliceNotOutside(V: seq<Event>, a: nat, b: nat)
    requires a <= b <= |V| && DistinctIds(V)
    ensures forall e :: e in V[a..b] ==> e !in Outside(V, a, b)
  {
    forall e | e in V[a..b] ensures e !in Outside(V, a, b) {
      var k := IndexOf(V[a..b], e);
      OutsideMembers(V, a, b, k + a);
    }
  }

  lemma KeepHead(A: seq<Event>, B: seq<Event>, O: set<Event>)
    requires (forall e :: e in A ==> e in O) && (forall e :: e in B ==> e !in O)
    ensures Keep(A + B, O) == A
  {
    KeepConcat(A, B, O);
    KeepAll(A, O);
    KeepNone(B, O);
  }

  lemma KeepTail(A: seq<Event>, B: seq<Event>, O: set<Event>)
    requires forall e :: e in B ==> e in O
    ensures Keep(A + B, O) == Keep(A, O) + B
  {
    KeepConcat(A, B, O);
    KeepAll(B, O);
  }

  // ----- where the summary lands ----------------------------------------------------------------

  /** The condenser takes the offset from the view (its start of forgetting, a) but it is applied
      to the visible events, before the filters. The summary lands at the cut exactly when the
      filters removed nothing among the first a visible events. */
  lemma SummaryLandsAtCut(log: seq<Event>, c: Event, a: nat, b: nat)
    requires CutsAt(log, c, a, b)
    requires HasSummaryMetadata(c) && c.summaryOffset.value == a
    ensures SummaryPosition(log, c, a, b) == a <==> ViewEvents(log)[..a] <= Visible(log)
  {
    var V, U, K := ViewEvents(log), Visible(log), After(log, c, a, b);
    var N := set e | e in U && e.id !in c.forgotten;
    CutFacts(log, c, a, b);
    KeptOutside(log, c, a, b);
    if V[..a] <= U {
      PrefixSurvives(U, V, a, b, N, K, SummaryIndex(log, c));
    }
    if SummaryPosition(log, c, a, b) == a {
      SurvivorsArePrefix(Remembered(c, U), V, a, b, K, SummaryIndex(log, c));
      FirstVisible(U, V, a, b, N, a);
    }
  }

  lemma PrefixSurvives(U: seq<Event>, V: seq<Event>, a: nat, b: nat, N: set<Event>, K: set<Event>, k: nat)
    requires a <= b <= |V| && V[..a] <= U
    requires forall e :: e in Outside(V, a, b) ==> e in N && e in K
    requires k == if a < |Keep(U, N)| then a else |Keep(U, N)|
    ensures |Keep(Keep(U, N)[..k], K)| == a
  {
    assert U == V[..a] + U[a..];
    KeepConcat(V[..a], U[a..], N);
    assert forall e :: e in V[..a] ==> e in Outside(V, a, b);
    KeepAll(V[..a], N);
    assert Keep(U, N)[..k] == V[..a];
    KeepAll(V[..a], K);
  }

  lemma SurvivorsArePrefix(R: seq<Event>, V: seq<Event>, a: nat, b: nat, K: set<Event>, k: nat)
    requires a <= b <= |V| && Keep(R, K) == V[..a] + V[b..]
    requires k <= a && k <= |R| && |Keep(R[..k], K)| == a
    ensures V[..a] <= R
  {
    var A, B := R[..k], R[k..];
    assert R == A + B;
    KeepLength(A, K);
    KeepConcat(A, B, K);
    assert (V[..a] + V[b..])[..a] == V[..a];
  }

  lemma KeepLength(s: seq<Event>, K: set<Event>)
    ensures |Keep(s, K)| <= |s|
    ensures |Keep(s, K)| == |s| ==> Keep(s, K) == s
  {
    if |s| > 0 {
      KeepLength(s[..|s| - 1], K);
    }
  }

  lemma FirstVisible(U: seq<Event>, V: seq<Event>, a: nat, b: nat, N: set<Event>, n: nat)
    requires n <= a <= b <= |V| && V == Keep(U, Elements(V)) && V[..a] <= Keep(U, N)
    requires forall e :: e in Outside(V, a, b) ==> e in N
    requires forall u :: u in U && u !in N ==> u in Elements(V)
    ensures V[..n] <= U
  {
    if n > 0 {
      FirstVisible(U, V, a, b, N, n - 1);
      var P, x := V[..n - 1], V[n - 1];
      forall e | e in P ensures e in N && e in Elements(V) {
        assert e in Outside(V, a, b);
      }
      assert P + [x] == V[..a][..n] && P + [x] == V[..n];
      NextKept(U, P, N, x);
      NextKept(U, P, Elements(V), x);
      assert U[|P|] == x;
    }
  }

  /** The first element of U after a prefix P that K keeps whole is the next kept one, if kept. */
  lemma NextKept(U: seq<Event>, P: seq<Event>, K: set<Event>, x: Event)
    requires P <= U && P + [x] <= Keep(U, K)
    requires forall e :: e in P ==> e in K
    ensures |P| < |U|
    ensures U[|P|] in K ==> U[|P|] == x
  {
    KeepLength(U, K);
    KeepPrefix(U, P, K);
    assert (P + [x])[|P|] == x && (P + [U[|P|]])[|P|] == U[|P|];
  }

  lemma KeepPrefix(U: seq<Event>, P: seq<Event>, K: set<Event>)
    requires P <= U && |P| < |U|
    requires forall e :: e in P ==> e in K
    ensures U[|P|] in K ==> P + [U[|P|]] <= Keep(U, K)
  {
    var u, rest := U[|P|], U[|P| + 1..];
    assert U == P + [u] + rest;
    KeepConcat(P + [u], rest, K);
    if u in K {
      KeepAll(P + [u], K);
    }
  }

  lemma MessagesAreCutPoints(m: Event, n: Event, idx: nat)
    requires m.MessageEvent? && n.MessageEvent? && idx <= 2
    ensures CutPoint([m, n], idx)
  {
    assert forall s: nat :: !BatchStart([m, n], s);
  }

  lemma KeepLastTwo(a: Event, m: Event, n: Event, K: set<Event>)
    requires a !in K && m in K && n in K
    ensures Keep([a, m, n], K) == [m, n]
  {
    assert [a, m, n] == [a] + [m, n];
    KeepConcat([a], [m, n], K);
    KeepNone([a], K);
    KeepAll([m, n], K);
  }

  lemma AllThreeVisible(a: Event, m: Event, n: Event)
    requires a.ActionEvent? && m.MessageEvent? && n.MessageEvent?
    ensures Visible([a, m, n]) == [a, m, n]
  {
    assert [a, m, n][..2] == [a, m] && [a, m][..1] == [a] && [a][..0] == [];
    assert Visible([a]) == [a];
  }

  lemma UnansweredIsDropped(a: Event, m: Event, n: Event)
    requires a.ActionEvent? && m.MessageEvent? && n.MessageEvent? && StoredLog([a, m, n])
    ensures ViewEvents([a, m, n]) == [m, n]
  {
    var log := [a, m, n];
    var K := Elements(ViewEvents(log));
    AllThreeVisible(a, m, n);
    ViewIsGreatestStable(log);
    TwoMessagesStable(a, m, n);
    NeverAnswered(a, m, n, K);
    KeepLastTwo(a, m, n, K);
  }

  lemma TwoMessagesStable(a: Event, m: Event, n: Event)
    requires a.ActionEvent? && m.MessageEvent? && n.MessageEvent?
    ensures Stable([a, m, n], [a, m, n], {m, n})
  {
  }

  lemma NeverAnswered(a: Event, m: Event, n: Event, K: set<Event>)
    requires a.ActionEvent? && m.MessageEvent? && n.MessageEvent? && Stable([a, m, n], [a, m, n], K)
    ensures a !in K
  {
    assert K <= {a, m, n};
    assert forall o :: o in K ==> !o.IsObservation();
  }

  lemma CutsTheSecond(log: seq<Event>, c: Event, m: Event, n: Event)
    requires StoredLog(log + [c]) && ViewEvents(log) == [m, n] && m.MessageEvent? && n.MessageEvent?
    requires c.Condensation? && c.forgotten == [n.id]
    ensures CutsAt(log, c, 1, 2)
  {
    MessagesAreCutPoints(m, n, 1);
    MessagesAreCutPoints(m, n, 2);
    assert [m, n][1..2] == [n];
  }

  lemma SummaryComesFirst(log: seq<Event>, c: Event, a: nat, b: nat)
    requires CutsAt(log, c, a, b) && HasSummaryMetadata(c) && c.summaryOffset.value == a == 1
    requires ViewEvents(log)[0] != Visible(log)[0]
    ensures SummaryPosition(log, c, a, b) == 0
  {
    SummaryLandsAtCut(log, c, a, b);
    assert ViewEvents(log)[..a][0] == ViewEvents(log)[0];
    KeepLength(Remembered(c, Visible(log))[..SummaryIndex(log, c)], After(log, c, a, b));
  }

  /** And it can miss the cut: after an action that has no result, a condensation that forgets the second
      of two messages puts its summary before the first. */
  lemma SummaryCanMissTheCut(a: Event, m: Event, n: Event, c: Event)
    requires a.ActionEvent? && m.MessageEvent? && n.MessageEvent? && StoredLog([a, m, n] + [c])
    requires c.Condensation? && c.forgotten == [n.id] && c.summary.Some? && c.summaryOffset == Some(1)
    ensures CutsAt([a, m, n], c, 1, 2)
    ensures ViewEvents([a, m, n]) == [m, n] && ViewEvents([a, m, n] + [c]) == [SummaryEvent(c), m]
  {
    var log := [a, m, n];
    StoredPrefix(log, c);
    UnansweredIsDropped(a, m, n);
    CutsTheSecond(log, c, m, n);
    AllThreeVisible(a, m, n);
    SummaryComesFirst(log, c, 1, 2);
    CuttingAtSafePoints(log, c, 1, 2);
    FirstOfTwo(m, n, SummaryEvent(c));
  }

  lemma FirstOfTwo(m: Event, n: Event, e: Event)
    ensures InsertAt([m, n][..1] + [m, n][2..], 0, e) == [e, m]
  {
  }
}
