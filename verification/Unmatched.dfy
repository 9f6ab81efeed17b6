/** The two scans of the log for actions that are still to be handled. They differ in what
    counts as an answer. */
module Unmatched {
  import opened Events
  import opened FromEvents

  /** A result that names the action: an observation or a rejection. */
  predicate NamesAction(e: Event) {
    e.ObservationEvent? || e.UserRejectObservation?
  }

  predicate AnsweredAfter(log: seq<Event>, i: nat)
    requires i < |log|
  {
    exists j :: i < j < |log| && NamesAction(log[j]) && log[j].actionId == log[i].id
  }

  /** An error result is matched by tool call id only. */
  predicate ErroredAfter(log: seq<Event>, i: nat)
    requires i < |log| && log[i].ActionEvent?
  {
    exists j :: i < j < |log| && log[j].AgentErrorEvent? && log[j].toolCallId == log[i].toolCallId
  }

  predicate IsExecutable(e: Event) {
    e.ActionEvent? && e.executable
  }

  /** Pending for the runner: executable, and no observation or rejection later. */
  predicate IsPending(log: seq<Event>, i: nat)
    requires i < |log|
  {
    IsExecutable(log[i]) && !AnsweredAfter(log, i)
  }

  /** Pending for the state: in addition, no later error for its tool call. */
  predicate IsUnanswered(log: seq<Event>, i: nat)
    requires i < |log|
  {
    IsPending(log, i) && !ErroredAfter(log, i)
  }

  function PendingFrom(log: seq<Event>, i: nat): seq<Event>
    requires i <= |log|
    decreases |log| - i
  {
    if i == |log| then []
    else if IsPending(log, i) then [log[i]] + PendingFrom(log, i + 1)
    else PendingFrom(log, i + 1)
  }

  function Pending(log: seq<Event>): seq<Event> {
    PendingFrom(log, 0)
  }

  function UnansweredFrom(log: seq<Event>, i: nat): seq<Event>
    requires i <= |log|
    decreases |log| - i
  {
    if i == |log| then []
    else if IsUnanswered(log, i) then [log[i]] + UnansweredFrom(log, i + 1)
    else UnansweredFrom(log, i + 1)
  }

  /** RunnerContext.get_unmatched_actions. */
  method RunnerUnmatchedActions(log: seq<Event>) returns (unmatched: seq<Event>)
    ensures unmatched == Pending(log)
  {
    var observed: set<EventId> := {};
    unmatched := [];
    var i := |log|;
    while i > 0
      invariant 0 <= i <= |log|
      invariant forall x :: x in observed <==> exists j :: i <= j < |log| && NamesAction(log[j]) && log[j].actionId == x
      invariant unmatched == PendingFrom(log, i)
    {
      i := i - 1;
      var event := log[i];
      if NamesAction(event) {
        observed := observed + {event.actionId};
      } else if event.ActionEvent? {
        if event.executable && event.id !in observed {
          unmatched := [event] + unmatched;
        }
      }
    }
  }

  /** AgentState.get_unmatched_actions. */
  method StateUnmatchedActions(log: seq<Event>) returns (unmatched: seq<Event>)
    ensures unmatched == UnansweredFrom(log, 0)
  {
    var observed: set<EventId> := {};
    var observedCalls: set<ToolCallId> := {};
    unmatched := [];
    var i := |log|;
    while i > 0
      invariant 0 <= i <= |log|
      invariant forall x :: x in observed <==> exists j :: i <= j < |log| && NamesAction(log[j]) && log[j].actionId == x
      invariant forall c :: c in observedCalls <==>
                exists j :: i <= j < |log| && log[j].AgentErrorEvent? && log[j].toolCallId == c
      invariant unmatched == UnansweredFrom(log, i)
    {
      i := i - 1;
      var event := log[i];
      if NamesAction(event) {
        observed := observed + {event.actionId};
      } else if event.AgentErrorEvent? {
        observedCalls := observedCalls + {event.toolCallId};
      } else if event.ActionEvent? {
        if event.executable && event.id !in observed && event.toolCallId !in observedCalls {
          unmatched := [event] + unmatched;
        }
      }
    }
  }

  // ----- what the scans return --------------------------------------------------------------

  ghost function PendingSet(log: seq<Event>): set<Event> {
    set i | 0 <= i < |log| && IsPending(log, i) :: log[i]
  }

  /** The actions whose call fails later. */
  ghost function ErroredSet(log: seq<Event>): set<Event> {
    set i | 0 <= i < |log| && log[i].ActionEvent? && ErroredAfter(log, i) :: log[i]
  }

  lemma SetsByPosition(log: seq<Event>, i: nat)
    requires DistinctIds(log) && i < |log|
    ensures log[i] in PendingSet(log) <==> IsPending(log, i)
    ensures log[i].ActionEvent? ==> (log[i] in ErroredSet(log) <==> ErroredAfter(log, i))
  {
    assert forall k :: 0 <= k < |log| && log[k] == log[i] ==> k == i;
  }

  lemma {:induction false} PendingFromIsKeep(log: seq<Event>, i: nat)
    requires DistinctIds(log) && i <= |log|
    ensures PendingFrom(log, i) == Keep(log[i..], PendingSet(log))
    decreases |log| - i
  {
    if i < |log| {
      PendingFromIsKeep(log, i + 1);
      SetsByPosition(log, i);
      assert log[i..] == [log[i]] + log[i + 1..];
      KeepCons(log[i], log[i + 1..], PendingSet(log));
    }
  }

  /** The runner's scan returns, in log order, exactly the executable actions with no later
      observation or rejection. */
  lemma PendingIsKeep(log: seq<Event>)
    requires DistinctIds(log)
    ensures Pending(log) == Keep(log, PendingSet(log))
  {
    PendingFromIsKeep(log, 0);
    assert log[0..] == log;
  }

  lemma {:induction false} UnansweredFromIsKeep(log: seq<Event>, i: nat)
    requires DistinctIds(log) && i <= |log|
    ensures UnansweredFrom(log, i) == Keep(PendingFrom(log, i), PendingSet(log) - ErroredSet(log))
    decreases |log| - i
  {
    if i < |log| {
      UnansweredFromIsKeep(log, i + 1);
      SetsByPosition(log, i);
      var K := PendingSet(log) - ErroredSet(log);
      KeepCons(log[i], PendingFrom(log, i + 1), K);
    }
  }

  /** The state's scan returns the runner's result without the actions whose tool call has a
      later error: a subsequence, differing exactly on actions answered by an error only. */
  lemma ScansDifferByErrors(log: seq<Event>)
    requires DistinctIds(log)
    ensures UnansweredFrom(log, 0) == Keep(Pending(log), PendingSet(log) - ErroredSet(log))
    ensures forall e :: e in Pending(log) && e !in UnansweredFrom(log, 0) <==>
            e in PendingSet(log) && e in ErroredSet(log)
  {
    UnansweredFromIsKeep(log, 0);
    PendingIsKeep(log);
    KeepMembers(log, PendingSet(log));
    KeepMembers(Pending(log), PendingSet(log) - ErroredSet(log));
    forall e | e in PendingSet(log) ensures e in log {
    }
  }
}
