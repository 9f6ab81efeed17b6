/** Where a view may be cut: the boundaries between its atomic units. */
module Manipulation {
  import opened Events

  // ----- the specification ------------------------------------------------------------------

  predicate ActionOf(e: Event, r: ResponseId) {
    e.ActionEvent? && e.responseId == r
  }

  /** Position q holds an action of response r or a result of one. */
  ghost predicate Touches(v: seq<Event>, r: ResponseId, q: nat)
    requires q < |v|
  {
    || ActionOf(v[q], r)
    || (v[q].IsObservation() && CallOf(v, r, v[q].toolCallId))
  }

  /** Response r made tool call c. */
  ghost predicate CallOf(v: seq<Event>, r: ResponseId, c: ToolCallId) {
    exists p :: 0 <= p < |v| && ActionOf(v[p], r) && v[p].toolCallId == c
  }

  /** Boundary idx separates an action of response r from a later action or result of r. */
  ghost predicate Splits(v: seq<Event>, r: ResponseId, idx: nat) {
    && (exists p :: 0 <= p < |v| && p < idx && ActionOf(v[p], r))
    && (exists q :: idx <= q < |v| && Touches(v, r, q))
  }

  /** v[s] is the first action of its response. */
  ghost predicate BatchStart(v: seq<Event>, s: nat) {
    && s < |v| && v[s].ActionEvent?
    && forall p :: 0 <= p < s ==> !ActionOf(v[p], v[s].responseId)
  }

  ghost predicate ThinkingStart(v: seq<Event>, s: nat) {
    BatchStart(v, s) && |v[s].thinkingBlocks| > 0
  }

  /** The batch starting at s spans position k. */
  ghost predicate Spans(v: seq<Event>, s: nat, k: nat) {
    BatchStart(v, s) && Splits(v, v[s].responseId, k)
  }

  /** Every event between s and t that is neither action nor result lies inside a batch that
      starts at or after s: nothing ends a tool loop on the way from s to t. */
  ghost predicate Reaches(v: seq<Event>, s: nat, t: nat) {
    forall k :: s < k < t && k < |v| && v[k].IsNonBatch() ==> exists c :: s <= c < k && Spans(v, c, k)
  }

  /** Boundary idx is inside a tool loop: past the start s of a thinking batch, and not past the
      end of a batch t reached from s. */
  ghost predicate InToolLoop(v: seq<Event>, idx: nat) {
    exists s: nat, t: nat :: s < idx && s <= t && ThinkingStart(v, s) && BatchStart(v, t) && Reaches(v, s, t)
      && EndsAfter(v, t, idx)
  }

  ghost predicate EndsAfter(v: seq<Event>, t: nat, idx: nat)
    requires BatchStart(v, t)
  {
    exists q :: idx <= q < |v| && Touches(v, v[t].responseId, q)
  }

  /** Boundary idx is interior to an atomic unit. */
  ghost predicate Interior(v: seq<Event>, idx: nat) {
    (exists s: nat :: Spans(v, s, idx)) || InToolLoop(v, idx)
  }

  ghost predicate CutPoint(v: seq<Event>, idx: nat) {
    idx <= |v| && !Interior(v, idx)
  }

  ghost predicate StrictlyIncreasing(s: seq<nat>) {
    forall i, j :: 0 <= i < j < |s| ==> s[i] < s[j]
  }

  // ----- batch ranges -----------------------------------------------------------------------

  datatype Range = Range(lo: nat, hi: nat, thinking: bool)

  /** The positions of the actions of response r. */
  function Positions(v: seq<Event>, r: ResponseId): seq<nat> {
    if |v| == 0 then []
    else Positions(v[..|v| - 1], r) + (if ActionOf(v[|v| - 1], r) then [|v| - 1] else [])
  }

  lemma PositionsStep(v: seq<Event>, e: Event, r: ResponseId)
    ensures Positions(v + [e], r) == Positions(v, r) + (if ActionOf(e, r) then [|v|] else [])
  {
    assert (v + [e])[..|v|] == v;
  }

  lemma {:induction false} PositionsMembers(v: seq<Event>, r: ResponseId)
    ensures forall p: nat :: p in Positions(v, r) <==> p < |v| && ActionOf(v[p], r)
  {
    if |v| > 0 {
      var front := v[..|v| - 1];
      PositionsMembers(front, r);
      assert v == front + [v[|v| - 1]];
      PositionsStep(front, v[|v| - 1], r);
    }
  }

  lemma {:induction false} PositionsSorted(v: seq<Event>, r: ResponseId)
    ensures StrictlyIncreasing(Positions(v, r))
  {
    if |v| > 0 {
      var front := v[..|v| - 1];
      var ps := Positions(front, r);
      PositionsSorted(front, r);
      PositionsMembers(front, r);
      assert forall i :: 0 <= i < |ps| ==> ps[i] in ps;
    }
  }

  lemma {:induction false} NoActionNoPosition(v: seq<Event>, r: ResponseId)
    requires forall p :: 0 <= p < |v| ==> !ActionOf(v[p], r)
    ensures Positions(v, r) == []
  {
    if |v| > 0 {
      NoActionNoPosition(v[..|v| - 1], r);
    }
  }

  lemma PositionsBounds(v: seq<Event>, r: ResponseId)
    requires Positions(v, r) != []
    ensures var ps := Positions(v, r);
            forall p :: 0 <= p < |v| && ActionOf(v[p], r) ==> ps[0] <= p <= ps[|ps| - 1]
  {
    PositionsSorted(v, r);
    PositionsMembers(v, r);
  }

  /** An insertion-ordered dictionary from responses to the positions of their actions. */
  ghost predicate Grouped(v: seq<Event>, order: seq<ResponseId>, batches: map<ResponseId, seq<nat>>) {
    && ByFirstPosition(order, batches)
    && (forall r :: r in batches ==> r in order && batches[r] == Positions(v, r))
    && (forall p :: 0 <= p < |v| && v[p].ActionEvent? ==> v[p].responseId in batches)
  }

  ghost predicate ByFirstPosition(order: seq<ResponseId>, batches: map<ResponseId, seq<nat>>) {
    && (forall i :: 0 <= i < |order| ==> order[i] in batches && |batches[order[i]]| > 0)
    && (forall i, j :: 0 <= i < j < |order| ==> batches[order[i]][0] < batches[order[j]][0])
  }

  lemma ByFirstPositionAppend(order: seq<ResponseId>, batches: map<ResponseId, seq<nat>>, r: ResponseId, n: nat)
    requires ByFirstPosition(order, batches) && r !in batches
    requires forall i :: 0 <= i < |order| ==> batches[order[i]][0] < n
    ensures ByFirstPosition(order + [r], batches[r := [n]])
  {
  }

  lemma ByFirstPositionExtend(order: seq<ResponseId>, batches: map<ResponseId, seq<nat>>, r: ResponseId, n: nat)
    requires ByFirstPosition(order, batches) && r in order
    ensures ByFirstPosition(order, batches[r := batches[r] + [n]])
  {
    var b := batches[r := batches[r] + [n]];
    assert forall i :: 0 <= i < |order| ==> b[order[i]][0] == batches[order[i]][0];
  }

  method GroupActions(v: seq<Event>) returns (order: seq<ResponseId>, batches: map<ResponseId, seq<nat>>)
    ensures Grouped(v, order, batches)
  {
    order, batches := [], map[];
    for idx := 0 to |v|
      invariant Grouped(v[..idx], order, batches)
    {
      assert v[..idx + 1] == v[..idx] + [v[idx]];
      var event := v[idx];
      if event.ActionEvent? {
        var r := event.responseId;
        if r !in batches {
          GroupedNew(v[..idx], event, order, batches);
          order, batches := order + [r], batches[r := [idx]];
        } else {
          GroupedOld(v[..idx], event, order, batches);
          batches := batches[r := batches[r] + [idx]];
        }
      } else {
        GroupedSkip(v[..idx], event, order, batches);
      }
    }
    assert v[..|v|] == v;
  }

  lemma GroupedSkip(v: seq<Event>, e: Event, order: seq<ResponseId>, batches: map<ResponseId, seq<nat>>)
    requires Grouped(v, order, batches) && !e.ActionEvent?
    ensures Grouped(v + [e], order, batches)
  {
    forall r | r in batches ensures batches[r] == Positions(v + [e], r) {
      PositionsStep(v, e, r);
    }
  }

  lemma GroupedOld(v: seq<Event>, e: Event, order: seq<ResponseId>, batches: map<ResponseId, seq<nat>>)
    requires Grouped(v, order, batches) && e.ActionEvent? && e.responseId in batches
    ensures Grouped(v + [e], order, batches[e.responseId := batches[e.responseId] + [|v|]])
  {
    var r := e.responseId;
    ByFirstPositionExtend(order, batches, r, |v|);
    forall q | q in batches ensures batches[r := batches[r] + [|v|]][q] == Positions(v + [e], q) {
      PositionsStep(v, e, q);
    }
  }

  lemma FirstPositionsBelow(v: seq<Event>, order: seq<ResponseId>, batches: map<ResponseId, seq<nat>>)
    requires Grouped(v, order, batches)
    ensures forall i :: 0 <= i < |order| ==> batches[order[i]][0] < |v|
  {
    forall i | 0 <= i < |order| ensures batches[order[i]][0] < |v| {
      PositionsMembers(v, order[i]);
      assert batches[order[i]][0] in batches[order[i]];
    }
  }

  lemma GroupedNew(v: seq<Event>, e: Event, order: seq<ResponseId>, batches: map<ResponseId, seq<nat>>)
    requires Grouped(v, order, batches) && e.ActionEvent? && e.responseId !in batches
    ensures Grouped(v + [e], order + [e.responseId], batches[e.responseId := [|v|]])
  {
    var r := e.responseId;
    FirstPositionsBelow(v, order, batches);
    ByFirstPositionAppend(order, batches, r, |v|);
    NoActionNoPosition(v, r);
    forall q | q in batches[r := [|v|]] ensures batches[r := [|v|]][q] == Positions(v + [e], q) {
      PositionsStep(v, e, q);
    }
  }

  /** The last result position of every tool call. */
  method ObservationIndices(v: seq<Event>) returns (last: map<ToolCallId, nat>)
    ensures forall c :: c in last ==> last[c] < |v| && v[last[c]].IsObservation() && v[last[c]].toolCallId == c
    ensures forall q :: 0 <= q < |v| && v[q].IsObservation() ==> v[q].toolCallId in last && q <= last[v[q].toolCallId]
  {
    last := map[];
    for idx := 0 to |v|
      invariant forall c :: c in last ==> last[c] < idx && v[last[c]].IsObservation() && v[last[c]].toolCallId == c
      invariant forall q :: 0 <= q < idx && v[q].IsObservation() ==>
                v[q].toolCallId in last && q <= last[v[q].toolCallId]
    {
      if v[idx].IsObservation() {
        last := last[v[idx].toolCallId := idx];
      }
    }
  }

  /** g is the range of the batch that starts at g.lo. */
  ghost predicate IsRange(v: seq<Event>, g: Range) {
    && BatchStart(v, g.lo)
    && g.lo <= g.hi < |v|
    && Touches(v, v[g.lo].responseId, g.hi)
    && (forall q :: 0 <= q < |v| && Touches(v, v[g.lo].responseId, q) ==> q <= g.hi)
    && g.thinking == (|v[g.lo].thinkingBlocks| > 0)
  }

  method BatchRange(v: seq<Event>, r: ResponseId, positions: seq<nat>, last: map<ToolCallId, nat>) returns (g: Range)
    requires positions == Positions(v, r) && positions != []
    requires forall c :: c in last ==> last[c] < |v| && v[last[c]].IsObservation() && v[last[c]].toolCallId == c
    requires forall q :: 0 <= q < |v| && v[q].IsObservation() ==> v[q].toolCallId in last && q <= last[v[q].toolCallId]
    ensures IsRange(v, g) && g.lo == positions[0]
  {
    PositionsMembers(v, r);
    assert positions[0] in positions && positions[|positions| - 1] in positions;
    PositionsSorted(v, r);
    var lo, hi := positions[0], positions[|positions| - 1];
    var thinking := |v[lo].thinkingBlocks| > 0;
    for n := 0 to |positions|
      invariant positions[|positions| - 1] <= hi < |v|
      invariant Touches(v, r, hi)
      invariant forall m :: 0 <= m < n && v[positions[m]].toolCallId in last ==> last[v[positions[m]].toolCallId] <= hi
    {
      assert positions[n] in positions;
      var c := v[positions[n]].toolCallId;
      if c in last && last[c] > hi {
        assert CallOf(v, r, c);
        hi := last[c];
      }
    }
    g := Range(lo, hi, thinking);
    PositionsBounds(v, r);
    assert BatchStart(v, lo);
    forall q | 0 <= q < |v| && Touches(v, r, q) ensures q <= hi {
      if v[q].IsObservation() {
        var p :| 0 <= p < |v| && ActionOf(v[p], r) && v[p].toolCallId == v[q].toolCallId;
        assert p in positions;
      }
    }
  }

  /** All batch ranges, by start. */
  ghost predicate AllRanges(v: seq<Event>, R: seq<Range>) {
    SortedRanges(v, R) && forall s: nat :: BatchStart(v, s) ==> HasRange(R, s)
  }

  ghost predicate SortedRanges(v: seq<Event>, R: seq<Range>) {
    && (forall i :: 0 <= i < |R| ==> IsRange(v, R[i]))
    && (forall i, j :: 0 <= i < j < |R| ==> R[i].lo < R[j].lo)
  }

  ghost predicate HasRange(R: seq<Range>, s: nat) {
    exists i :: 0 <= i < |R| && R[i].lo == s
  }

  /** The dictionary order is that of the first actions, so the ranges come out sorted and the
      stable sort by start that follows in the source leaves them as they are. */
  method BatchRanges(v: seq<Event>) returns (R: seq<Range>)
    ensures AllRanges(v, R)
  {
    var order, batches := GroupActions(v);
    var last := ObservationIndices(v);
    R := [];
    for n := 0 to |order|
      invariant |R| == n
      invariant forall i :: 0 <= i < n ==> RangeOf(v, order[i], batches, R[i])
    {
      assert order[n] in batches && batches[order[n]] == Positions(v, order[n]);
      var g := BatchRange(v, order[n], batches[order[n]], last);
      R := R + [g];
    }
    RangesComplete(v, order, batches, R);
  }

  ghost predicate RangeOf(v: seq<Event>, r: ResponseId, batches: map<ResponseId, seq<nat>>, g: Range) {
    IsRange(v, g) && r in batches && |batches[r]| > 0 && g.lo == batches[r][0]
  }

  lemma RangesComplete(v: seq<Event>, order: seq<ResponseId>, batches: map<ResponseId, seq<nat>>, R: seq<Range>)
    requires Grouped(v, order, batches)
    requires |R| == |order|
    requires forall i :: 0 <= i < |R| ==> RangeOf(v, order[i], batches, R[i])
    ensures AllRanges(v, R)
  {
    forall s: nat | BatchStart(v, s) ensures HasRange(R, s) {
      var r := v[s].responseId;
      assert r in order;
      var i :| 0 <= i < |order| && order[i] == r;
      assert RangeOf(v, order[i], batches, R[i]);
      PositionsMembers(v, r);
      assert batches[r][0] in Positions(v, r);
      PositionsBounds(v, r);
    }
  }

  lemma RangeSpans(v: seq<Event>, g: Range, idx: nat)
    requires IsRange(v, g)
    ensures Spans(v, g.lo, idx) <==> g.lo < idx <= g.hi
    ensures EndsAfter(v, g.lo, idx) <==> idx <= g.hi
  {
    assert ActionOf(v[g.lo], v[g.lo].responseId);
  }

  // ----- tool loops -------------------------------------------------------------------------

  datatype Loop = Loop(start: nat, end: nat)

  ghost predicate IsLoop(v: seq<Event>, l: Loop) {
    && l.start <= l.end < |v|
    && ThinkingStart(v, l.start)
    && exists t: nat :: l.start <= t && BatchStart(v, t) && Reaches(v, l.start, t) && EndsAfter(v, t, l.end)
  }

  /** No batch from the loop's start up to brk reaches past the loop, and at brk it ended. */
  ghost predicate Closed(v: seq<Event>, R: seq<Range>, l: Loop, brk: nat) {
    && l.end < brk <= |v|
    && (brk < |v| ==> v[brk].IsNonBatch())
    && forall i :: 0 <= i < |R| && l.start <= R[i].lo < brk ==> R[i].hi <= l.end
  }

  /** While a loop is being extended: batches i..j-1 are in it and top reaches its end. */
  ghost predicate Extending(v: seq<Event>, R: seq<Range>, i: nat, j: nat, top: nat, end: nat) {
    && i <= top < j <= |R|
    && R[top].hi == end
    && Reaches(v, R[i].lo, R[top].lo)
    && forall k :: i <= k < j ==> R[k].hi <= end
  }

  /** Extends the tool loop that starts with batch i as far as it goes. */
  method ExtendLoop(v: seq<Event>, R: seq<Range>, i: nat) returns (l: Loop, j: nat, ghost brk: nat)
    requires AllRanges(v, R) && i < |R| && R[i].thinking
    ensures i < j <= |R| && l.start == R[i].lo
    ensures IsLoop(v, l) && Closed(v, R, l, brk)
    ensures forall k :: i <= k < j ==> l.start <= R[k].lo < brk
  {
    var start, end := R[i].lo, R[i].hi;
    ghost var top := i;
    brk := |v|;
    j := i + 1;
    while j < |R|
      invariant Extending(v, R, i, j, top, end)
      invariant brk == |v|
    {
      var k := NonBatchBetween(v, end + 1, R[j].lo);
      if k < R[j].lo {
        brk := k;
        break;
      }
      ExtendingStep(v, R, i, j, top, end);
      if R[j].hi > end {
        end, top := R[j].hi, j;
      }
      j := j + 1;
    }
    l := Loop(start, end);
    LoopFound(v, R, i, j, top, l, brk);
  }

  /** The first event in from..to that is neither action nor result, or a position past to. */
  method NonBatchBetween(v: seq<Event>, from: nat, to: nat) returns (k: nat)
    requires to <= |v|
    ensures from <= k && (k < to ==> v[k].IsNonBatch())
    ensures k >= to ==> forall m :: from <= m < to ==> !v[m].IsNonBatch()
  {
    k := from;
    while k < to && !v[k].IsNonBatch()
      invariant from <= k
      invariant forall m :: from <= m < k && m < to ==> !v[m].IsNonBatch()
    {
      k := k + 1;
    }
  }

  lemma ExtendingStep(v: seq<Event>, R: seq<Range>, i: nat, j: nat, top: nat, end: nat)
    requires j < |R| && Extending(v, R, i, j, top, end)
    requires IsRange(v, R[top]) && R[i].lo <= R[top].lo
    requires forall m :: end < m < R[j].lo && m < |v| ==> !v[m].IsNonBatch()
    ensures if R[j].hi > end then Extending(v, R, i, j + 1, j, R[j].hi) else Extending(v, R, i, j + 1, top, end)
  {
    assert Reaches(v, R[i].lo, R[j].lo) by {
      ReachesNext(v, R, R[i].lo, top, R[j].lo);
    }
  }

  lemma LoopFound(v: seq<Event>, R: seq<Range>, i: nat, j: nat, top: nat, l: Loop, brk: nat)
    requires SortedRanges(v, R) && Extending(v, R, i, j, top, l.end)
    requires R[i].thinking && l.start == R[i].lo
    requires if brk < |v| then j < |R| && l.end < brk < R[j].lo && v[brk].IsNonBatch() else brk == |v| && j == |R|
    ensures IsLoop(v, l) && Closed(v, R, l, brk)
    ensures forall k :: i <= k < j ==> l.start <= R[k].lo < brk
  {
    assert IsLoop(v, l) by {
      assert IsRange(v, R[top]) && IsRange(v, R[i]);
      assert EndsAfter(v, R[top].lo, l.end) by {
        RangeSpans(v, R[top], l.end);
      }
      assert l.start <= R[top].lo && BatchStart(v, R[top].lo) && Reaches(v, l.start, R[top].lo);
    }
    forall k | 0 <= k < |R| ensures R[k].lo <= R[k].hi {
      assert IsRange(v, R[k]);
    }
    assert Closed(v, R, l, brk) by {
      forall k | 0 <= k < |R| && l.start <= R[k].lo < brk ensures R[k].hi <= l.end {
        assert i <= k < j;
      }
    }
  }

  lemma ReachesNext(v: seq<Event>, R: seq<Range>, s: nat, top: nat, t: nat)
    requires top < |R| && IsRange(v, R[top]) && s <= R[top].lo
    requires Reaches(v, s, R[top].lo)
    requires forall m :: R[top].hi < m < t && m < |v| ==> !v[m].IsNonBatch()
    ensures Reaches(v, s, t)
  {
    var g := R[top];
    forall k | s < k < t && k < |v| && v[k].IsNonBatch() ensures exists c :: s <= c < k && Spans(v, c, k) {
      if k > g.lo {
        RangeSpans(v, g, k);
      }
    }
  }

  /** Every loop found is a tool loop, closed, and every thinking batch before n is in one. */
  ghost predicate LoopsUpTo(v: seq<Event>, R: seq<Range>, loops: seq<Loop>, brks: seq<nat>, n: nat) {
    && n <= |R|
    && |brks| == |loops|
    && (forall m :: 0 <= m < |loops| ==> IsLoop(v, loops[m]) && Closed(v, R, loops[m], brks[m]))
    && (forall k :: 0 <= k < n && R[k].thinking ==> exists m :: 0 <= m < |loops| && loops[m].start <= R[k].lo < brks[m])
  }

  method ToolLoops(v: seq<Event>, R: seq<Range>) returns (loops: seq<Loop>, ghost brks: seq<nat>)
    requires AllRanges(v, R)
    ensures LoopsUpTo(v, R, loops, brks, |R|)
  {
    loops, brks := [], [];
    var i := 0;
    while i < |R|
      invariant LoopsUpTo(v, R, loops, brks, i)
    {
      if R[i].thinking {
        var l, j, brk := ExtendLoop(v, R, i);
        AddLoop(v, R, loops, brks, i, l, j, brk);
        loops, brks := loops + [l], brks + [brk];
        i := j;
      } else {
        i := i + 1;
      }
    }
  }

  lemma AddLoop(v: seq<Event>, R: seq<Range>, loops: seq<Loop>, brks: seq<nat>, i: nat, l: Loop, j: nat, brk: nat)
    requires LoopsUpTo(v, R, loops, brks, i)
    requires i <= j <= |R|
    requires IsLoop(v, l) && Closed(v, R, l, brk)
    requires forall k :: i <= k < j ==> l.start <= R[k].lo < brk
    ensures LoopsUpTo(v, R, loops + [l], brks + [brk], j)
  {
    var loops', brks' := loops + [l], brks + [brk];
    forall k | 0 <= k < j && R[k].thinking
      ensures exists m :: 0 <= m < |loops'| && loops'[m].start <= R[k].lo < brks'[m]
    {
      if k < i {
        var m :| 0 <= m < |loops| && loops[m].start <= R[k].lo < brks[m];
        assert loops'[m] == loops[m] && brks'[m] == brks[m];
      } else {
        assert loops'[|loops|] == l && brks'[|loops|] == brk;
      }
    }
  }

  /** idx is strictly inside one of the merged ranges. */
  ghost predicate Covered(merged: seq<Loop>, idx: nat) {
    exists m :: 0 <= m < |merged| && merged[m].start < idx <= merged[m].end
  }

  ghost predicate InSomeLoop(loops: seq<Loop>, p: nat) {
    exists m :: 0 <= m < |loops| && loops[m].start <= p <= loops[m].end
  }

  function Interval(lo: nat, hi: int): (s: set<nat>)
    ensures forall p: nat :: p in s <==> lo <= p <= hi
    decreases hi - lo
  {
    if lo > hi then {} else Interval(lo, hi - 1) + {hi}
  }

  /** The tool loops, followed by batches, among them all those that start in no loop. */
  ghost predicate Merged(R: seq<Range>, n: nat, loops: seq<Loop>, merged: seq<Loop>)
    requires n <= |R|
  {
    && |loops| <= |merged|
    && (forall m :: 0 <= m < |loops| ==> merged[m] == loops[m])
    && (forall m :: |loops| <= m < |merged| ==> IsBatchOf(R, merged[m]))
    && (forall k :: 0 <= k < n && !InSomeLoop(loops, R[k].lo) ==> Loop(R[k].lo, R[k].hi) in merged)
  }

  ghost predicate IsBatchOf(R: seq<Range>, l: Loop) {
    exists k :: 0 <= k < |R| && l == Loop(R[k].lo, R[k].hi)
  }

  method MergeRanges(R: seq<Range>, loops: seq<Loop>) returns (merged: seq<Loop>)
    ensures Merged(R, |R|, loops, merged)
  {
    var loopIndices: set<nat> := {};
    for m := 0 to |loops|
      invariant forall p: nat :: p in loopIndices <==> exists k :: 0 <= k < m && loops[k].start <= p <= loops[k].end
    {
      loopIndices := loopIndices + Interval(loops[m].start, loops[m].end);
    }
    merged := loops;
    for k := 0 to |R|
      invariant Merged(R, k, loops, merged)
    {
      if R[k].lo !in loopIndices {
        merged := merged + [Loop(R[k].lo, R[k].hi)];
        assert merged[|merged| - 1] == Loop(R[k].lo, R[k].hi);
        assert IsBatchOf(R, merged[|merged| - 1]);
      }
    }
  }

  lemma CoveredIsInterior(v: seq<Event>, R: seq<Range>, loops: seq<Loop>, brks: seq<nat>, merged: seq<Loop>, idx: nat)
    requires AllRanges(v, R) && LoopsUpTo(v, R, loops, brks, |R|) && Merged(R, |R|, loops, merged)
    requires Covered(merged, idx)
    ensures Interior(v, idx)
  {
    var m :| 0 <= m < |merged| && merged[m].start < idx <= merged[m].end;
    if m < |loops| {
      LoopIsInterior(v, loops[m], idx);
    } else {
      assert IsBatchOf(R, merged[m]);
      var k :| 0 <= k < |R| && merged[m] == Loop(R[k].lo, R[k].hi);
      RangeSpans(v, R[k], idx);
    }
  }

  lemma LoopIsInterior(v: seq<Event>, l: Loop, idx: nat)
    requires IsLoop(v, l) && l.start < idx <= l.end
    ensures InToolLoop(v, idx)
  {
    var t: nat :| l.start <= t && BatchStart(v, t) && Reaches(v, l.start, t) && EndsAfter(v, t, l.end);
    assert EndsAfter(v, t, idx);
  }

  /** A batch whose start is skipped by the merge lies wholly inside the loop it starts in. */
  lemma SpanIsCovered(v: seq<Event>, R: seq<Range>, loops: seq<Loop>, brks: seq<nat>, merged: seq<Loop>, k: nat,
                      idx: nat)
    requires LoopsUpTo(v, R, loops, brks, |R|) && Merged(R, |R|, loops, merged)
    requires k < |R| && R[k].lo < idx <= R[k].hi
    ensures Covered(merged, idx)
  {
    if InSomeLoop(loops, R[k].lo) {
      var m :| 0 <= m < |loops| && loops[m].start <= R[k].lo <= loops[m].end;
      assert Closed(v, R, loops[m], brks[m]);
      assert merged[m] == loops[m];
    } else {
      assert Loop(R[k].lo, R[k].hi) in merged;
    }
  }

  lemma LoopOf(v: seq<Event>, R: seq<Range>, loops: seq<Loop>, brks: seq<nat>, s: nat) returns (m: nat)
    requires AllRanges(v, R) && LoopsUpTo(v, R, loops, brks, |R|)
    requires ThinkingStart(v, s)
    ensures m < |loops| && Closed(v, R, loops[m], brks[m]) && loops[m].start <= s < brks[m]
  {
    assert HasRange(R, s);
    var i :| 0 <= i < |R| && R[i].lo == s;
    assert IsRange(v, R[i]);
    m :| 0 <= m < |loops| && loops[m].start <= R[i].lo < brks[m];
  }

  lemma LoopIsCovered(v: seq<Event>, R: seq<Range>, loops: seq<Loop>, brks: seq<nat>, merged: seq<Loop>, idx: nat)
    requires AllRanges(v, R) && LoopsUpTo(v, R, loops, brks, |R|) && Merged(R, |R|, loops, merged)
    requires InToolLoop(v, idx)
    ensures Covered(merged, idx)
  {
    var s: nat, t: nat :| s < idx && s <= t && ThinkingStart(v, s) && BatchStart(v, t) && Reaches(v, s, t)
        && EndsAfter(v, t, idx);
    var m := LoopOf(v, R, loops, brks, s);
    assert merged[m] == loops[m];
    assert HasRange(R, t);
    var j :| 0 <= j < |R| && R[j].lo == t;
    ClosedHoldsReached(v, R, loops[m], brks[m], s, j);
    RangeSpans(v, R[j], idx);
  }

  /** What is reached from inside a closed loop is inside it. */
  lemma ClosedHoldsReached(v: seq<Event>, R: seq<Range>, l: Loop, brk: nat, s: nat, j: nat)
    requires AllRanges(v, R) && Closed(v, R, l, brk) && j < |R|
    requires l.start <= s < brk && s <= R[j].lo && Reaches(v, s, R[j].lo)
    ensures R[j].hi <= l.end
  {
    assert IsRange(v, R[j]);
    if brk < |v| {
      forall c: nat | s <= c < brk ensures !Spans(v, c, brk) {
        if BatchStart(v, c) {
          assert HasRange(R, c);
          var n :| 0 <= n < |R| && R[n].lo == c;
          RangeSpans(v, R[n], brk);
        }
      }
    }
  }

  // ----- the property -----------------------------------------------------------------------

  method ManipulationIndices(v: seq<Event>) returns (indices: seq<nat>)
    ensures StrictlyIncreasing(indices)
    ensures forall idx: nat :: idx in indices <==> CutPoint(v, idx)
  {
    if |v| == 0 {
      EndsAreCutPoints(v);
      return [0];
    }
    var R := BatchRanges(v);
    ghost var brks: seq<nat>;
    var loops: seq<Loop>;
    loops, brks := ToolLoops(v, R);
    var merged := MergeRanges(R, loops);
    var result := WithoutInteriors(|v|, merged);
    forall idx: nat | idx <= |v| ensures Covered(merged, idx) <==> Interior(v, idx) {
      CoveredExactly(v, R, loops, brks, merged, idx);
    }
    indices := SortedBelow(result, |v| + 1);
  }

  method WithoutInteriors(n: nat, merged: seq<Loop>) returns (result: set<nat>)
    ensures forall idx: nat :: idx in result <==> idx <= n && !Covered(merged, idx)
  {
    result := Interval(0, n);
    for m := 0 to |merged|
      invariant forall idx: nat :: idx in result <==> idx <= n && !Covered(merged[..m], idx)
    {
      result := result - Interval(merged[m].start + 1, merged[m].end);
      CoveredStep(merged, m);
    }
    assert merged[..|merged|] == merged;
  }

  lemma CoveredExactly(v: seq<Event>, R: seq<Range>, loops: seq<Loop>, brks: seq<nat>, merged: seq<Loop>, idx: nat)
    requires AllRanges(v, R) && LoopsUpTo(v, R, loops, brks, |R|) && Merged(R, |R|, loops, merged)
    ensures Covered(merged, idx) <==> Interior(v, idx)
  {
    if Covered(merged, idx) {
      CoveredIsInterior(v, R, loops, brks, merged, idx);
    }
    if InToolLoop(v, idx) {
      LoopIsCovered(v, R, loops, brks, merged, idx);
    } else if s: nat :| Spans(v, s, idx) {
      assert HasRange(R, s);
      var k :| 0 <= k < |R| && R[k].lo == s;
      RangeSpans(v, R[k], idx);
      SpanIsCovered(v, R, loops, brks, merged, k, idx);
    }
  }

  lemma CoveredStep(merged: seq<Loop>, m: nat)
    requires m < |merged|
    ensures forall idx: nat :: Covered(merged[..m + 1], idx) <==>
              Covered(merged[..m], idx) || merged[m].start < idx <= merged[m].end
  {
    forall idx: nat
      ensures Covered(merged[..m + 1], idx) <==> Covered(merged[..m], idx) || merged[m].start < idx <= merged[m].end
    {
      if Covered(merged[..m], idx) {
        var k :| 0 <= k < m && merged[..m][k].start < idx <= merged[..m][k].end;
        assert merged[..m + 1][k] == merged[..m][k];
      }
      if merged[m].start < idx <= merged[m].end {
        assert merged[..m + 1][m] == merged[m];
      }
    }
  }

  method SortedBelow(s: set<nat>, n: nat) returns (sorted: seq<nat>)
    requires forall x :: x in s ==> x < n
    ensures StrictlyIncreasing(sorted)
    ensures forall x :: x in sorted <==> x in s
  {
    sorted := [];
    for i := 0 to n
      invariant StrictlyIncreasing(sorted)
      invariant forall x :: x in sorted <==> x in s && x < i
    {
      if i in s {
        assert forall k :: 0 <= k < |sorted| ==> sorted[k] in sorted;
        sorted := sorted + [i];
      }
    }
  }

  /** The smallest cut point at or above the threshold, or the threshold if there is none. */
  method FindNextManipulationIndex(v: seq<Event>, threshold: nat) returns (next: nat)
    ensures threshold <= |v| ==> CutPoint(v, next) && threshold <= next
    ensures threshold <= |v| ==> forall idx: nat :: CutPoint(v, idx) && threshold <= idx ==> next <= idx
    ensures threshold > |v| ==> next == threshold
  {
    var indices := ManipulationIndices(v);
    EndsAreCutPoints(v);
    for i := 0 to |indices|
      invariant forall k :: 0 <= k < i ==> indices[k] < threshold
    {
      if indices[i] >= threshold {
        assert indices[i] in indices;
        forall idx: nat | CutPoint(v, idx) && threshold <= idx ensures indices[i] <= idx {
          assert idx in indices;
        }
        return indices[i];
      }
    }
    assert |v| in indices;
    return threshold;
  }

  // ----- what the cut points guarantee --------------------------------------------------------

  lemma EndsAreCutPoints(v: seq<Event>)
    ensures CutPoint(v, 0) && CutPoint(v, |v|)
  {
    assert forall s: nat :: !Spans(v, s, 0) && !Spans(v, s, |v|);
    assert forall t: nat :: BatchStart(v, t) ==> !EndsAfter(v, t, |v|);
  }

  /** No cut point separates two actions of one batch, or an action from a later result. */
  lemma CutPointsKeepUnits(v: seq<Event>, idx: nat, p: nat, q: nat)
    requires CutPoint(v, idx)
    requires p < |v| && q < |v| && p < idx
    requires v[p].ActionEvent?
    requires || (v[q].ActionEvent? && v[q].responseId == v[p].responseId)
             || (v[q].IsObservation() && v[q].toolCallId == v[p].toolCallId && p < q)
    ensures q < idx
  {
    if idx <= q {
      var r := v[p].responseId;
      assert ActionOf(v[p], r);
      assert v[q].IsObservation() && v[q].toolCallId == v[p].toolCallId ==> CallOf(v, r, v[q].toolCallId);
      assert Touches(v, r, q);
      assert Splits(v, r, idx);
      var s := BatchStartOf(v, p);
      assert Spans(v, s, idx);
    }
  }

  lemma BatchStartOf(v: seq<Event>, p: nat) returns (s: nat)
    requires p < |v| && v[p].ActionEvent?
    ensures s <= p && BatchStart(v, s) && v[s].responseId == v[p].responseId
  {
    s := 0;
    while !ActionOf(v[s], v[p].responseId)
      invariant s <= p
      invariant forall k :: 0 <= k < s ==> !ActionOf(v[k], v[p].responseId)
      decreases p - s
    {
      s := s + 1;
    }
  }

  /** From the start s of a thinking batch there is no cut until an event that is neither an
      action nor a result: an action at j with only actions and results in s..j is not cut off. */
  lemma ToolLoopsAreUncut(v: seq<Event>, s: nat, j: nat, idx: nat)
    requires s < idx <= j < |v| && v[s].ActionEvent? && v[s].thinkingBlocks != []
    requires forall p :: 0 <= p < s && v[p].ActionEvent? ==> v[p].responseId != v[s].responseId
    requires v[j].ActionEvent?
    requires forall k :: s <= k <= j ==>
               v[k].ActionEvent? || v[k].ObservationEvent? || v[k].UserRejectObservation? || v[k].AgentErrorEvent?
    ensures !CutPoint(v, idx)
  {
    var t := BatchStartOf(v, j);
    assert Touches(v, v[t].responseId, j);
    if t < s {
      assert ActionOf(v[t], v[t].responseId);
      assert Spans(v, t, idx);
    } else {
      assert Reaches(v, s, t);
      assert EndsAfter(v, t, idx);
      assert ThinkingStart(v, s);
      assert InToolLoop(v, idx);
    }
  }

  /** The event at q is an action of the response of the action at p, or a result of one. */
  ghost predicate Joined(v: seq<Event>, p: nat, q: nat) {
    && p < |v| && q < |v| && v[p].ActionEvent?
    && match v[q]
       case ActionEvent(_, response, _, _, _, _, _, _, _) => response == v[p].responseId
       case ObservationEvent(_, call, _, _) => CallOf(v, v[p].responseId, call)
       case UserRejectObservation(_, call, _, _) => CallOf(v, v[p].responseId, call)
       case AgentErrorEvent(_, call, _) => CallOf(v, v[p].responseId, call)
       case _ => false
  }

  /** A batch with its results has idx inside. */
  ghost predicate InBatch(v: seq<Event>, idx: nat) {
    exists p: nat, q: nat :: p < idx <= q && Joined(v, p, q)
  }

  lemma SpannedExactly(v: seq<Event>, idx: nat)
    ensures InBatch(v, idx) <==> exists s: nat :: Spans(v, s, idx)
  {
    if p: nat, q: nat :| p < idx <= q && Joined(v, p, q) {
      var s := BatchStartOf(v, p);
      assert ActionOf(v[p], v[s].responseId) && Touches(v, v[s].responseId, q);
      assert Spans(v, s, idx);
    }
    if s: nat :| Spans(v, s, idx) {
      var p :| 0 <= p < |v| && p < idx && ActionOf(v[p], v[s].responseId);
      var q :| idx <= q < |v| && Touches(v, v[s].responseId, q);
      assert Joined(v, p, q);
    }
  }

  /** If no batch opens with thinking blocks, the cut points are exactly the boundaries inside no batch. */
  lemma WithoutThinkingExactly(v: seq<Event>, idx: nat)
    requires forall s: nat :: BatchStart(v, s) ==> v[s].thinkingBlocks == []
    ensures CutPoint(v, idx) <==> idx <= |v| && !InBatch(v, idx)
  {
    SpannedExactly(v, idx);
  }

  /** An event that is neither an action nor a result ends every tool loop: it can be cut off on both
      sides, exactly if it lies inside no batch. */
  lemma OtherEventsStandAlone(v: seq<Event>, k: nat)
    requires k < |v| && !v[k].ActionEvent?
    requires !v[k].ObservationEvent? && !v[k].UserRejectObservation? && !v[k].AgentErrorEvent?
    ensures CutPoint(v, k) && CutPoint(v, k + 1) <==> !InBatch(v, k)
    ensures CutPoint(v, k) <==> CutPoint(v, k + 1)
  {
    SpannedExactly(v, k);
    SpannedExactly(v, k + 1);
    assert forall p: nat, q: nat :: Joined(v, p, q) ==> (p < k <= q <==> p < k + 1 <= q);
    if !InBatch(v, k) {
      LoopsEndAt(v, k, k);
      LoopsEndAt(v, k, k + 1);
    }
  }

  lemma LoopsEndAt(v: seq<Event>, k: nat, idx: nat)
    requires k < |v| && v[k].IsNonBatch() && k <= idx <= k + 1
    requires forall s: nat :: !Spans(v, s, k)
    ensures !InToolLoop(v, idx)
  {
    forall s: nat, t: nat | s < idx && s <= t && ThinkingStart(v, s) && BatchStart(v, t) && Reaches(v, s, t)
      ensures !EndsAfter(v, t, idx)
    {
      if t < k && EndsAfter(v, t, idx) {
        assert ActionOf(v[t], v[t].responseId);
        assert Spans(v, t, k);
      }
    }
  }
}
