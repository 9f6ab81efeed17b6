/** The view of the log that is sent to the LLM: condensations applied, tool calls paired with
    their results, LLM batches kept whole. */
module View {
  import opened Events

  // ----- ActionBatch -----------------------------------------------------------------------

  datatype ActionBatch = ActionBatch(
    batches: map<ResponseId, seq<EventId>>,
    actionToResponse: map<EventId, ResponseId>,
    actionToCall: map<EventId, ToolCallId>)

  function BatchOf(events: seq<Event>): ActionBatch {
    if |events| == 0 then ActionBatch(map[], map[], map[])
    else AddAction(BatchOf(events[..|events| - 1]), events[|events| - 1])
  }

  function AddAction(b: ActionBatch, e: Event): ActionBatch {
    if !e.ActionEvent? then b
    else
      var ids := if e.responseId in b.batches then b.batches[e.responseId] else [];
      ActionBatch(b.batches[e.responseId := ids + [e.id]],
                  b.actionToResponse[e.id := e.responseId],
                  b.actionToCall[e.id := e.toolCallId])
  }

  method BatchFromEvents(events: seq<Event>) returns (b: ActionBatch)
    ensures b == BatchOf(events)
  {
    var batches: map<ResponseId, seq<EventId>> := map[];
    var toResponse: map<EventId, ResponseId> := map[];
    var toCall: map<EventId, ToolCallId> := map[];
    for i := 0 to |events|
      invariant ActionBatch(batches, toResponse, toCall) == BatchOf(events[..i])
    {
      assert events[..i + 1][..i] == events[..i];
      var event := events[i];
      if event.ActionEvent? {
        var r := event.responseId;
        if r !in batches {
          batches := batches[r := []];
        }
        batches := batches[r := batches[r] + [event.id]];
        toResponse := toResponse[event.id := r];
        toCall := toCall[event.id := event.toolCallId];
      }
    }
    assert events[..|events|] == events;
    return ActionBatch(batches, toResponse, toCall);
  }

  /** The ids of the actions of one LLM response. */
  function IdsOfResponse(events: seq<Event>, r: ResponseId): set<EventId> {
    set e | e in events && e.ActionEvent? && e.responseId == r :: e.id
  }

  /** The batches partition the ids of the log's actions by response. */
  lemma {:induction false} BatchesGroupActions(events: seq<Event>)
    ensures var b := BatchOf(events);
            && (forall r :: r in b.batches <==> IdsOfResponse(events, r) != {})
            && (forall r :: r in b.batches ==> (set x | x in b.batches[r]) == IdsOfResponse(events, r))
  {
    if |events| > 0 {
      var front, e := events[..|events| - 1], events[|events| - 1];
      BatchesGroupActions(front);
      assert events == front + [e];
      forall r: ResponseId
        ensures IdsOfResponse(events, r)
                == IdsOfResponse(front, r) + (if e.ActionEvent? && e.responseId == r then {e.id} else {})
      {
        SplitLastResponse(front, e, r);
      }
    }
  }

  lemma SplitLastResponse(front: seq<Event>, e: Event, r: ResponseId)
    ensures IdsOfResponse(front + [e], r)
            == IdsOfResponse(front, r) + (if e.ActionEvent? && e.responseId == r then {e.id} else {})
  {
    forall x | x in IdsOfResponse(front, r) ensures x in IdsOfResponse(front + [e], r) {
      var f :| f in front && f.ActionEvent? && f.responseId == r && f.id == x;
      assert f in front + [e];
    }
    assert e in front + [e];
  }

  /** The tool call and the response recorded for an id are those of the action with this id. */
  lemma {:induction false} CallsOfActions(events: seq<Event>)
    requires IdsIdentify(events)
    ensures forall e :: e in events && e.ActionEvent? ==>
            e.id in BatchOf(events).actionToCall && BatchOf(events).actionToCall[e.id] == e.toolCallId
    ensures forall e :: e in events && e.ActionEvent? ==>
            e.id in BatchOf(events).actionToResponse && BatchOf(events).actionToResponse[e.id] == e.responseId
    ensures forall x :: x in BatchOf(events).actionToCall ==> exists e :: e in events && e.ActionEvent? && e.id == x
  {
    if |events| > 0 {
      var front, e := events[..|events| - 1], events[|events| - 1];
      CallsOfActions(front);
      assert events == front + [e];
      assert forall f :: f in front ==> f in events;
      assert e in events;
    }
  }

  // ----- the three filter passes -----------------------------------------------------------

  function ActionCalls(s: seq<Event>): set<ToolCallId> {
    set e | e in s && e.ActionEvent? :: e.toolCallId
  }

  function ObservationCalls(s: seq<Event>): set<ToolCallId> {
    set e | e in s && e.IsObservation() :: e.toolCallId
  }

  predicate ShouldKeep(e: Event, actionCalls: set<ToolCallId>, observationCalls: set<ToolCallId>) {
    if e.IsObservation() then e.toolCallId in actionCalls
    else if e.ActionEvent? then e.toolCallId in observationCalls
    else true
  }

  predicate SameBatch(a: Event, b: Event) {
    a.ActionEvent? && b.ActionEvent? && a.responseId == b.responseId
  }

  /** The responses that have lost an action in view. */
  function BrokenResponses(view: seq<Event>, all: seq<Event>): set<ResponseId> {
    set b | b in all && b.ActionEvent? && b.id !in Ids(view) :: b.responseId
  }

  /** Ids of the actions of the broken responses among R. */
  function BrokenIds(view: seq<Event>, all: seq<Event>, R: set<ResponseId>): set<EventId> {
    set a | a in all && a.ActionEvent? && a.responseId in R && a.responseId in BrokenResponses(view, all) :: a.id
  }

  function Responses(all: seq<Event>): set<ResponseId> {
    set a | a in all && a.ActionEvent? :: a.responseId
  }

  function Broken(view: seq<Event>, all: seq<Event>): set<EventId> {
    BrokenIds(view, all, Responses(all))
  }

  function Enforced(view: seq<Event>, all: seq<Event>): seq<Event> {
    Keep(view, set e | e in view && e.id !in Broken(view, all))
  }

  function Paired(view: seq<Event>): seq<Event> {
    Keep(view, set e | e in view && ShouldKeep(e, ActionCalls(view), ObservationCalls(view)))
  }

  /** Tool calls of the actions of the log that are no longer in view. */
  function GoneCalls(view: seq<Event>, all: seq<Event>): set<ToolCallId> {
    set a | a in all && a.ActionEvent? && a.id !in Ids(view) :: a.toolCallId
  }

  function WithoutOrphans(view: seq<Event>, all: seq<Event>): seq<Event> {
    Keep(view, set e | e in view && !(e.IsObservation() && e.toolCallId in GoneCalls(view, all)))
  }

  function Filtered(view: seq<Event>, all: seq<Event>): seq<Event> {
    WithoutOrphans(Enforced(Paired(view), all), all)
  }

  method EnforceBatchAtomicity(view: seq<Event>, all: seq<Event>) returns (out: seq<Event>)
    ensures out == Enforced(view, all)
  {
    var batch := BatchFromEvents(all);
    BatchesGroupActions(all);
    ResponsesAreBatches(all);
    if batch.batches == map[] {
      KeepAll(view, set e | e in view && e.id !in Broken(view, all));
      return view;
    }
    var viewIds := Ids(view);
    var toRemove: set<EventId> := {};
    var pending := batch.batches.Keys;
    while pending != {}
      invariant pending <= Responses(all)
      invariant toRemove == BrokenIds(view, all, Responses(all) - pending)
      decreases pending
    {
      var r :| r in pending;
      var ids := batch.batches[r];
      BrokenStep(view, all, Responses(all) - pending, r, ids);
      if exists x :: x in ids && x !in viewIds {
        toRemove := toRemove + set x | x in ids;
      }
      pending := pending - {r};
      assert Responses(all) - pending == Responses(all) - (pending + {r}) + {r};
    }
    assert Responses(all) - {} == Responses(all);
    out := Keep(view, set e | e in view && e.id !in toRemove);
  }

  lemma ResponsesAreBatches(all: seq<Event>)
    ensures BatchOf(all).batches.Keys == Responses(all)
  {
    BatchesGroupActions(all);
    forall r | r in BatchOf(all).batches ensures r in Responses(all) {
      assert IdsOfResponse(all, r) != {};
      var x :| x in IdsOfResponse(all, r);
    }
    forall r | r in Responses(all) ensures r in BatchOf(all).batches {
      var a :| a in all && a.ActionEvent? && a.responseId == r;
      assert a.id in IdsOfResponse(all, r);
    }
  }

  lemma BrokenStep(view: seq<Event>, all: seq<Event>, R: set<ResponseId>, r: ResponseId, ids: seq<EventId>)
    requires (set x | x in ids) == IdsOfResponse(all, r)
    ensures BrokenIds(view, all, R + {r}) ==
            BrokenIds(view, all, R) + (if exists x :: x in ids && x !in Ids(view) then set x | x in ids else {})
  {
    assert forall x :: x in ids <==> x in IdsOfResponse(all, r);
    assert r in BrokenResponses(view, all) <==> exists x :: x in ids && x !in Ids(view) by {
      if b :| b in all && b.ActionEvent? && b.id !in Ids(view) && b.responseId == r {
        assert b.id in IdsOfResponse(all, r);
      }
    }
  }

  method FilterUnmatchedToolCalls(view: seq<Event>, all: seq<Event>) returns (out: seq<Event>)
    requires IdsIdentify(all)
    ensures out == Filtered(view, all)
  {
    var actionCalls, observationCalls := ActionCalls(view), ObservationCalls(view);
    var batch := BatchFromEvents(all);
    var kept := Keep(view, set e | e in view && ShouldKeep(e, actionCalls, observationCalls));
    kept := EnforceBatchAtomicity(kept, all);
    var keptIds := Ids(kept);
    var callsToRemove := set x | x in batch.actionToCall && x !in keptIds :: batch.actionToCall[x];
    assert callsToRemove == GoneCalls(kept, all) by {
      CallsOfActions(all);
      forall c | c in GoneCalls(kept, all) ensures c in callsToRemove {
        var a :| a in all && a.ActionEvent? && a.id !in Ids(kept) && a.toolCallId == c;
      }
    }
    out := Keep(kept, set e | e in kept && !(e.IsObservation() && e.toolCallId in callsToRemove));
  }

  ghost predicate IdsIdentify(s: seq<Event>) {
    forall e, f :: e in s && f in s && e.id == f.id ==> e == f
  }

  // ----- what the three passes compute ------------------------------------------------------

  /** K is a sub-view with every tool call answered, every answer called for, and every batch
      of the log all in or all out. */
  ghost predicate Stable(view: seq<Event>, all: seq<Event>, K: set<Event>) {
    && K <= Elements(view)
    && (forall a :: a in K && a.ActionEvent? ==> Answered(a, K))
    && (forall o :: o in K && o.IsObservation() ==> CalledFor(o, K))
    && (forall a, b :: a in all && b in all && SameBatch(a, b) ==> (a in K <==> b in K))
  }

  ghost predicate Answered(a: Event, K: set<Event>)
    requires a.ActionEvent?
  {
    exists o :: o in K && o.IsObservation() && o.toolCallId == a.toolCallId
  }

  ghost predicate CalledFor(o: Event, K: set<Event>)
    requires o.IsObservation()
  {
    exists a :: a in K && a.ActionEvent? && a.toolCallId == o.toolCallId
  }

  /** A view of the log all: ids identify events, and its actions are stored ones. */
  ghost predicate DrawnFrom(view: seq<Event>, all: seq<Event>) {
    IdsIdentify(view + all) && forall e :: e in view && e.ActionEvent? ==> e in all
  }

  /** And no two stored actions share a tool call id. */
  ghost predicate ViewOver(view: seq<Event>, all: seq<Event>) {
    DrawnFrom(view, all) && UniqueCalls(all)
  }

  ghost predicate UniqueCalls(all: seq<Event>) {
    forall a, b :: a in all && b in all && a.ActionEvent? && b.ActionEvent? && a.toolCallId == b.toolCallId ==> a == b
  }

  lemma EnforcedMembers(view: seq<Event>, all: seq<Event>)
    requires DrawnFrom(view, all)
    ensures forall e :: e in Enforced(view, all) <==>
            e in view && (e.ActionEvent? ==> forall b :: b in all && SameBatch(e, b) ==> b in view)
  {
    var K := set e | e in view && e.id !in Broken(view, all);
    KeepMembers(view, K);
    forall e | e in view
      ensures e.id in Broken(view, all) <==> e.ActionEvent? && exists b :: b in all && SameBatch(e, b) && b !in view
    {
      BrokenMeaning(view, all, e);
    }
  }

  lemma InViewById(view: seq<Event>, all: seq<Event>, e: Event)
    requires DrawnFrom(view, all)
    requires e in all
    ensures e.id in Ids(view) <==> e in view
  {
    if f :| f in view && f.id == e.id {
      assert f in view + all && e in view + all;
    }
  }

  lemma BrokenMeaning(view: seq<Event>, all: seq<Event>, e: Event)
    requires DrawnFrom(view, all)
    requires e in view
    ensures e.id in Broken(view, all) <==> e.ActionEvent? && exists b :: b in all && SameBatch(e, b) && b !in view
  {
    if e.id in Broken(view, all) {
      var a :| a in all && a.ActionEvent? && a.responseId in BrokenResponses(view, all) && a.id == e.id;
      assert a in view + all && e in view + all;
      var b :| b in all && b.ActionEvent? && b.id !in Ids(view) && b.responseId == a.responseId;
      assert SameBatch(e, b);
    }
    if e.ActionEvent? && exists b :: b in all && SameBatch(e, b) && b !in view {
      var b :| b in all && SameBatch(e, b) && b !in view;
      InViewById(view, all, b);
      assert b.responseId in BrokenResponses(view, all);
      assert e.responseId in Responses(all);
    }
  }

  /** Membership in the result of each pass. */
  lemma PassMembers(view: seq<Event>, all: seq<Event>)
    requires DrawnFrom(view, all)
    ensures var p, q := Paired(view), Enforced(Paired(view), all);
            && DrawnFrom(p, all) && DrawnFrom(q, all)
            && (forall e :: e in p <==> e in view && ShouldKeep(e, ActionCalls(view), ObservationCalls(view)))
            && (forall e :: e in q <==>
                 e in p && (e.ActionEvent? ==> forall b :: b in all && SameBatch(e, b) ==> b in p))
            && (forall e :: e in Filtered(view, all) <==>
                  e in q && (e.IsObservation() ==>
                    forall a :: a in all && a.ActionEvent? && a.toolCallId == e.toolCallId ==> a in q))
  {
    var p, q := Paired(view), Enforced(Paired(view), all);
    KeepMembers(view, set e | e in view && ShouldKeep(e, ActionCalls(view), ObservationCalls(view)));
    SubViewDrawn(view, p, all);
    EnforcedMembers(p, all);
    SubViewDrawn(view, q, all);
    var K := set e | e in q && !(e.IsObservation() && e.toolCallId in GoneCalls(q, all));
    KeepMembers(q, K);
    forall c: ToolCallId
      ensures c in GoneCalls(q, all) <==> exists a :: a in all && a.ActionEvent? && a.toolCallId == c && a !in q
    {
      GoneMeaning(q, all, c);
    }
  }

  lemma GoneMeaning(view: seq<Event>, all: seq<Event>, c: ToolCallId)
    requires DrawnFrom(view, all)
    ensures c in GoneCalls(view, all) <==> exists a :: a in all && a.ActionEvent? && a.toolCallId == c && a !in view
  {
    if a :| a in all && a.ActionEvent? && a.toolCallId == c && a !in view {
      InViewById(view, all, a);
    }
  }

  lemma SubViewDrawn(view: seq<Event>, sub: seq<Event>, all: seq<Event>)
    requires DrawnFrom(view, all)
    requires forall e :: e in sub ==> e in view
    ensures DrawnFrom(sub, all)
  {
    forall e, f | e in sub + all && f in sub + all && e.id == f.id ensures e == f {
      assert e in view + all && f in view + all;
    }
  }

  lemma SubViewOver(view: seq<Event>, sub: seq<Event>, all: seq<Event>)
    requires ViewOver(view, all)
    requires forall e :: e in sub ==> e in view
    ensures ViewOver(sub, all)
  {
    SubViewDrawn(view, sub, all);
  }

  /** Without unique tool call ids, one round is enough exactly if no action that the atomicity pass keeps
      shares its call with an action that is gone by then. */
  lemma OneRoundIsEnoughExactly(view: seq<Event>, all: seq<Event>)
    requires DrawnFrom(view, all)
    ensures Stable(view, all, Elements(Filtered(view, all))) <==> CallsRemain(view, all)
  {
    if CallsRemain(view, all) {
      OneRoundIsEnough(view, all);
    } else {
      OneRoundIsNotEnough(view, all);
    }
  }

  ghost predicate CallsRemain(view: seq<Event>, all: seq<Event>) {
    var q := Enforced(Paired(view), all);
    forall a :: a in q && a.ActionEvent? ==> a.toolCallId !in GoneCalls(q, all)
  }

  lemma KeptIsAnswered(view: seq<Event>, all: seq<Event>, a: Event)
    requires DrawnFrom(view, all) && CallsRemain(view, all)
    requires a in Filtered(view, all) && a.ActionEvent?
    ensures Answered(a, Elements(Filtered(view, all)))
  {
    PassMembers(view, all);
    var q := Enforced(Paired(view), all);
    assert a in q && a in Paired(view);
    var o :| o in view && o.IsObservation() && o.toolCallId == a.toolCallId;
    assert o.toolCallId in ActionCalls(view);
    assert o in Paired(view) && o in q;
    GoneMeaning(q, all, a.toolCallId);
    assert o in Filtered(view, all);
  }

  lemma KeptIsCalledFor(view: seq<Event>, all: seq<Event>, o: Event)
    requires DrawnFrom(view, all) && o in Filtered(view, all) && o.IsObservation()
    ensures CalledFor(o, Elements(Filtered(view, all)))
  {
    PassMembers(view, all);
    assert o in Paired(view);
    var a :| a in view && a.ActionEvent? && a.toolCallId == o.toolCallId;
    assert a in all && a in Enforced(Paired(view), all);
    assert a in Filtered(view, all);
  }

  lemma KeptWithItsBatch(view: seq<Event>, all: seq<Event>, a: Event, b: Event)
    requires DrawnFrom(view, all) && a in all && b in all && SameBatch(a, b) && a in Filtered(view, all)
    ensures b in Filtered(view, all)
  {
    PassMembers(view, all);
    assert a in Enforced(Paired(view), all);
    forall c | c in all && SameBatch(b, c) ensures c in Paired(view) {
      assert SameBatch(a, c);
    }
    assert b in Paired(view) && b in Enforced(Paired(view), all);
  }

  lemma OneRoundIsEnough(view: seq<Event>, all: seq<Event>)
    requires DrawnFrom(view, all) && CallsRemain(view, all)
    ensures Stable(view, all, Elements(Filtered(view, all)))
  {
    var F := Filtered(view, all);
    KeptIsInView(view, all);
    forall a | a in F && a.ActionEvent? ensures Answered(a, Elements(F)) {
      KeptIsAnswered(view, all, a);
    }
    forall o | o in F && o.IsObservation() ensures CalledFor(o, Elements(F)) {
      KeptIsCalledFor(view, all, o);
    }
    forall a, b | a in all && b in all && SameBatch(a, b) ensures a in F <==> b in F {
      if a in F {
        KeptWithItsBatch(view, all, a, b);
      }
      if b in F {
        KeptWithItsBatch(view, all, b, a);
      }
    }
  }

  lemma KeptIsInView(view: seq<Event>, all: seq<Event>)
    requires DrawnFrom(view, all)
    ensures Elements(Filtered(view, all)) <= Elements(view)
  {
    PassMembers(view, all);
  }

  lemma OneRoundIsNotEnough(view: seq<Event>, all: seq<Event>)
    requires DrawnFrom(view, all) && !CallsRemain(view, all)
    ensures !Stable(view, all, Elements(Filtered(view, all)))
  {
    PassMembers(view, all);
    var q, K := Enforced(Paired(view), all), Elements(Filtered(view, all));
    var a :| a in q && a.ActionEvent? && a.toolCallId in GoneCalls(q, all);
    GoneMeaning(q, all, a.toolCallId);
    assert a in K && !Answered(a, K);
  }

  /** With unique ids that always holds, and one round of the three passes yields a stable sub-view... */
  lemma FilteredIsStable(view: seq<Event>, all: seq<Event>)
    requires ViewOver(view, all)
    ensures Stable(view, all, Elements(Filtered(view, all)))
  {
    PassMembers(view, all);
    var q := Enforced(Paired(view), all);
    forall a | a in q && a.ActionEvent? ensures a.toolCallId !in GoneCalls(q, all) {
      GoneMeaning(q, all, a.toolCallId);
    }
    OneRoundIsEnough(view, all);
  }

  /** ...and every stable sub-view is contained in it: the passes compute a greatest fixpoint. */
  lemma FilteredIsGreatest(view: seq<Event>, all: seq<Event>, K: set<Event>)
    requires ViewOver(view, all)
    requires Stable(view, all, K)
    ensures K <= Elements(Filtered(view, all))
  {
    PassMembers(view, all);
    var p, q := Paired(view), Enforced(Paired(view), all);
    forall e | e in K ensures e in p {
      if e.ActionEvent? {
        assert Answered(e, K);
      } else if e.IsObservation() {
        assert CalledFor(e, K);
      }
    }
    forall e | e in K ensures e in Filtered(view, all) {
      if e.IsObservation() {
        assert CalledFor(e, K);
        var a :| a in K && a.ActionEvent? && a.toolCallId == e.toolCallId;
        assert a in q;
      }
    }
  }

  /** The result keeps the order of the view. */
  lemma FilteredIsKeep(view: seq<Event>, all: seq<Event>)
    requires DrawnFrom(view, all)
    ensures Filtered(view, all) == Keep(view, Elements(Filtered(view, all)))
  {
    var p := Paired(view);
    var K1 := set e | e in view && ShouldKeep(e, ActionCalls(view), ObservationCalls(view));
    var K2 := set e | e in p && e.id !in Broken(p, all);
    var q := Enforced(p, all);
    var K3 := set e | e in q && !(e.IsObservation() && e.toolCallId in GoneCalls(q, all));
    KeepKeep(view, K1, K2);
    KeepKeep(view, K1 * K2, K3);
    KeepMembers(view, K1 * K2 * K3);
    KeepSame(view, K1 * K2 * K3, Elements(Filtered(view, all)));
  }

  /** Hence the result is determined by the stable sub-views of the view. */
  lemma FilteredUnique(view: seq<Event>, all: seq<Event>, K: set<Event>)
    requires ViewOver(view, all)
    requires Stable(view, all, K)
    requires forall L :: Stable(view, all, L) ==> L <= K
    ensures Filtered(view, all) == Keep(view, K)
  {
    FilteredIsStable(view, all);
    FilteredIsGreatest(view, all, K);
    FilteredIsKeep(view, all);
    KeepSame(view, K, Elements(Filtered(view, all)));
  }

  lemma FilteredIdempotent(view: seq<Event>, all: seq<Event>)
    requires ViewOver(view, all)
    ensures Filtered(Filtered(view, all), all) == Filtered(view, all)
  {
    var F := Filtered(view, all);
    var K := Elements(F);
    FilteredIsStable(view, all);
    FilteredIsKeep(view, all);
    KeepMembers(view, K);
    SubViewOver(view, F, all);
    FilteredIsGreatest(F, all, K);
    FilteredIsKeep(F, all);
    PassMembers(F, all);
    KeepAll(F, Elements(Filtered(F, all)));
  }

  /** The stable sub-views of a view are those of the view with broken batches removed. */
  lemma EnforcedKeepsStable(view: seq<Event>, all: seq<Event>, K: set<Event>)
    requires ViewOver(view, all)
    ensures Stable(view, all, K) <==> Stable(Enforced(view, all), all, K)
  {
    EnforcedMembers(view, all);
    if Stable(view, all, K) {
      forall e | e in K ensures e in Enforced(view, all) {
        if e.ActionEvent? {
          forall b | b in all && SameBatch(e, b) ensures b in view {
            assert b in K;
          }
        }
      }
    }
  }

  /** The atomicity pass that from_events runs before the filter changes nothing. */
  lemma EnforceFirstIsRedundant(view: seq<Event>, all: seq<Event>)
    requires ViewOver(view, all)
    ensures Filtered(Enforced(view, all), all) == Filtered(view, all)
  {
    var W := Enforced(view, all);
    EnforcedMembers(view, all);
    SubViewOver(view, W, all);
    var F := Elements(Filtered(view, all));
    FilteredIsStable(view, all);
    EnforcedKeepsStable(view, all, F);
    forall L | Stable(W, all, L) ensures L <= F {
      EnforcedKeepsStable(view, all, L);
      FilteredIsGreatest(view, all, L);
    }
    FilteredUnique(W, all, F);
    FilteredIsKeep(view, all);
    var K := set e | e in view && e.id !in Broken(view, all);
    KeepKeep(view, K, F);
    KeepMembers(view, K);
    KeepSame(view, K * F, F);
  }

  /** For one: once an action b is forgotten, a surviving action a with the same call id is kept and its
      result is dropped. */
  lemma SharedCallIdsNeedMoreThanOneRound(a: Event, b: Event, o: Event)
    requires a.ActionEvent? && b.ActionEvent? && o.IsObservation()
    requires a.toolCallId == b.toolCallId == o.toolCallId
    requires a.responseId != b.responseId && a.id != b.id && b.id != o.id
    ensures Filtered([a, o], [a, b, o]) == [a]
    ensures !Stable([a, o], [a, b, o], {a})
  {
    var view, log := [a, o], [a, b, o];
    assert Paired(view) == view by {
      assert a.toolCallId in ActionCalls(view) && o.toolCallId in ObservationCalls(view);
      KeepAll(view, set e | e in view && ShouldKeep(e, ActionCalls(view), ObservationCalls(view)));
    }
    assert Enforced(view, log) == view by {
      assert a.id in Ids(view);
      assert BrokenResponses(view, log) <= {b.responseId};
      KeepAll(view, set e | e in view && e.id !in Broken(view, log));
    }
    assert b in log && b.id !in Ids(view);
    var K := set e | e in view && !(e.IsObservation() && e.toolCallId in GoneCalls(view, log));
    assert a in K && o !in K;
    assert view[..1] == [a] && [a][..0] == [];
    assert Keep([a], K) == [a];
    assert !Answered(a, {a});
  }
}
