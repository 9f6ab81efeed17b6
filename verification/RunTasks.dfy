/** The background runs of one conversation's service. */
module RunTasks {
  import opened Events

  /** A background task: created, inside conversation.run, waiting for the callbacks, publishing the
      final state. */
  datatype Phase = Scheduled | Looping | Draining | Publishing | Done

  /** tracked tasks were created by run(), the others by send_message. */
  datatype RunTask = RunTask(phase: Phase, tracked: bool)

  datatype Service = Service(tasks: seq<RunTask>, runTask: Option<nat>, running: bool)

  const STARTED := Service([], None, false)

  datatype Step =
    | Run                        // run(), or an accepted confirmation
    | SendAndRun                 // send_message(run=True)
    | Advance(task: nat)
    | StatusIs(running: bool)    // whatever the conversation's status becomes

  /** Not yet started, in its loop, or waiting for its events; not one that has cleared its reference and
      only publishes the final state. */
  predicate Active(t: RunTask) {
    t.phase.Scheduled? || t.phase.Looping? || t.phase.Draining?
  }

  predicate Refused(s: Service) {
    s.running || (s.runTask.Some? && s.runTask.value < |s.tasks| && !s.tasks[s.runTask.value].phase.Done?)
  }

  function NextPhase(t: RunTask): Phase {
    match t.phase
    case Scheduled => Looping
    case Looping => if t.tracked then Draining else Done
    case Draining => Publishing
    case _ => Done
  }

  predicate Enabled(s: Service, step: Step) {
    step.Advance? ==> step.task < |s.tasks| && !s.tasks[step.task].phase.Done?
  }

  /** When a tracked task has drained it clears the reference, whatever that is. */
  function Do(s: Service, step: Step): Service
    requires Enabled(s, step)
  {
    match step
    case Run => if Refused(s) then s else s.(tasks := s.tasks + [RunTask(Scheduled, true)], runTask := Some(|s.tasks|))
    case SendAndRun => if s.running then s else s.(tasks := s.tasks + [RunTask(Scheduled, false)])
    case Advance(i) =>
      var t := s.tasks[i];
      s.(tasks := s.tasks[i := t.(phase := NextPhase(t))], runTask := if t.phase.Draining? then None else s.runTask)
    case StatusIs(running) => s.(running := running)
  }

  class RunService {
    var tasks: seq<RunTask>
    var runTask: Option<nat>
    var running: bool

    function State(): Service
      reads this
    {
      Service(tasks, runTask, running)
    }

    constructor ()
      ensures State() == STARTED
    {
      tasks, runTask, running := [], None, false;
    }

    /** run(); false is the conversation_already_running error. */
    method StartRun() returns (ok: bool)
      modifies this
      ensures ok == !Refused(old(State())) && State() == Do(old(State()), Run)
    {
      if running {
        return false;
      }
      if runTask.Some? && runTask.value < |tasks| && !tasks[runTask.value].phase.Done? {
        return false;
      }
      runTask := Some(|tasks|);
      tasks := tasks + [RunTask(Scheduled, true)];
      return true;
    }

    /** An accepted confirmation runs, and is silent if a run is under way; a refused one does not
        touch the tasks. */
    method RespondToConfirmation(accept: bool)
      modifies this
      ensures State() == if accept then Do(old(State()), Run) else old(State())
    {
      if accept {
        var ok := StartRun();
      }
    }

    method SendMessageAndRun()
      modifies this
      ensures State() == Do(old(State()), SendAndRun)
    {
      if !running {
        tasks := tasks + [RunTask(Scheduled, false)];
      }
    }

    method AdvanceTask(i: nat)
      requires Enabled(State(), Advance(i))
      modifies this
      ensures State() == Do(old(State()), Advance(i))
    {
      if tasks[i].phase == Draining {
        runTask := None;
      }
      tasks := tasks[i := tasks[i].(phase := NextPhase(tasks[i]))];
    }
  }

  /** An active tracked task is the one referred to. */
  ghost predicate Exclusive(s: Service) {
    && (forall i: nat :: i < |s.tasks| && s.tasks[i].tracked && Active(s.tasks[i]) ==> s.runTask == Some(i))
    && (forall i: nat :: i < |s.tasks| && !s.tasks[i].tracked ==> s.tasks[i].phase in {Scheduled, Looping, Done})
    && (s.runTask.Some? ==> s.runTask.value < |s.tasks|)
  }

  lemma StepExclusive(s: Service, step: Step)
    requires Exclusive(s) && Enabled(s, step)
    ensures Exclusive(Do(s, step))
  {
  }

  /** A finishing task never clears a newer one: what it clears is itself. */
  lemma FinishingClearsItself(s: Service, i: nat)
    requires Exclusive(s) && Enabled(s, Advance(i)) && s.tasks[i].phase.Draining?
    ensures s.runTask == Some(i) && Do(s, Advance(i)).runTask.None?
  {
  }

  ghost predicate Leads(s: Service, steps: seq<Step>, t: Service)
    decreases |steps|
  {
    if |steps| == 0 then t == s else Enabled(s, steps[0]) && Leads(Do(s, steps[0]), steps[1..], t)
  }

  lemma {:induction false} RunExclusive(s: Service, steps: seq<Step>, t: Service)
    requires Exclusive(s) && Leads(s, steps, t)
    ensures Exclusive(t)
    decreases |steps|
  {
    if |steps| > 0 {
      StepExclusive(s, steps[0]);
      RunExclusive(Do(s, steps[0]), steps[1..], t);
    }
  }

  /** In every interleaving of run, confirmations, messages, completions and status changes, at most
      one background run started by run() is active, and a draining one clears only itself. */
  lemma AtMostOneRun(steps: seq<Step>, t: Service, i: nat, j: nat)
    requires Leads(STARTED, steps, t) && i < |t.tasks| && j < |t.tasks|
    requires t.tasks[i].tracked && t.tasks[j].tracked && Active(t.tasks[i]) && Active(t.tasks[j])
    ensures i == j && t.runTask == Some(i)
  {
    RunExclusive(STARTED, steps, t);
  }

  // ----- all runs, tracked or not ---------------------------------------------------------------

  /** How many tasks of any kind are active. */
  function Live(tasks: seq<RunTask>): nat {
    if |tasks| == 0 then 0
    else Live(tasks[..|tasks| - 1]) + (if Active(tasks[|tasks| - 1]) then 1 else 0)
  }

  lemma LiveAppend(tasks: seq<RunTask>, t: RunTask)
    ensures Live(tasks + [t]) == Live(tasks) + (if Active(t) then 1 else 0)
  {
    assert (tasks + [t])[..|tasks|] == tasks;
  }

  lemma {:induction false} LiveUpdate(tasks: seq<RunTask>, i: nat, t: RunTask)
    requires i < |tasks|
    ensures Live(tasks[i := t]) + (if Active(tasks[i]) then 1 else 0) == Live(tasks) + (if Active(t) then 1 else 0)
  {
    var n := |tasks| - 1;
    if i == n {
      assert tasks[i := t][..n] == tasks[..n];
    } else {
      assert tasks[i := t][..n] == tasks[..n][i := t];
      LiveUpdate(tasks[..n], i, t);
    }
  }

  /** run() starts a run, which the service then refers to, exactly if the status is not RUNNING and the
      run it refers to, if any, is done; else it changes nothing. */
  lemma RunStartsExactly(s: Service)
    requires Exclusive(s)
    ensures var t := Do(s, Run);
            if !s.running && (s.runTask.None? || s.tasks[s.runTask.value].phase.Done?) then
              && Live(t.tasks) == Live(s.tasks) + 1 && t.runTask == Some(|s.tasks|)
              && t.tasks == s.tasks + [t.tasks[|s.tasks|]] && t.tasks[|s.tasks|].tracked
            else t == s
  {
    LiveAppend(s.tasks, RunTask(Scheduled, true));
  }

  /** A message starts a run exactly if the status is not RUNNING, whatever the service refers to. */
  lemma MessageStartsExactly(s: Service)
    ensures var t := Do(s, SendAndRun);
            if !s.running then
              && Live(t.tasks) == Live(s.tasks) + 1 && t.runTask == s.runTask
              && t.tasks == s.tasks + [t.tasks[|s.tasks|]] && !t.tasks[|s.tasks|].tracked
            else t == s
  {
    LiveAppend(s.tasks, RunTask(Scheduled, false));
  }

  /** A task as it goes on by itself: into its loop, then to its end; a tracked one waits for its events
      first and is not active any more once the reference is cleared. */
  lemma TaskGoesThrough(s: Service, i: nat)
    requires i < |s.tasks| && s.tasks[i].phase.Scheduled?
    ensures var looping := Do(s, Advance(i));
            && looping.tasks[i].phase.Looping? && looping.runTask == s.runTask
            && var left := Do(looping, Advance(i));
               if s.tasks[i].tracked then
                 && Active(left.tasks[i]) && left.runTask == s.runTask
                 && var cleared := Do(left, Advance(i));
                    && !Active(cleared.tasks[i]) && cleared.runTask.None? && !cleared.tasks[i].phase.Done?
                    && Do(cleared, Advance(i)).tasks[i].phase.Done?
               else left.tasks[i].phase.Done? && left.runTask == s.runTask
  {
  }

  /** A second run starts beside one that is active: by a message while the status is not yet RUNNING,
      or by run() beside a message's run in the same gap. */
  predicate StartsSecond(s: Service, step: Step) {
    Live(s.tasks) == 1 && ((step.SendAndRun? && !s.running) || (step.Run? && !Refused(s)))
  }

  /** A step leaves more than one active run exactly then. */
  lemma SecondRunExactly(s: Service, step: Step)
    requires Exclusive(s) && Enabled(s, step) && Live(s.tasks) <= 1
    ensures Live(Do(s, step).tasks) <= 1 <==> !StartsSecond(s, step)
  {
    match step
    case Run => LiveAppend(s.tasks, RunTask(Scheduled, true));
    case SendAndRun => LiveAppend(s.tasks, RunTask(Scheduled, false));
    case Advance(i) => LiveUpdate(s.tasks, i, s.tasks[i].(phase := NextPhase(s.tasks[i])));
    case StatusIs(_) =>
  }

  ghost predicate Trace(states: seq<Service>, steps: seq<Step>) {
    && |states| == |steps| + 1 && states[0] == STARTED
    && forall k :: 0 <= k < |steps| ==> Enabled(states[k], steps[k]) && states[k + 1] == Do(states[k], steps[k])
  }

  lemma {:induction false} TraceExclusive(states: seq<Service>, steps: seq<Step>, k: nat)
    requires Trace(states, steps) && k <= |steps|
    ensures Exclusive(states[k])
  {
    if k > 0 {
      TraceExclusive(states, steps, k - 1);
      StepExclusive(states[k - 1], steps[k - 1]);
    }
  }

  lemma {:induction false} SecondStartedBefore(states: seq<Service>, steps: seq<Step>, m: nat) returns (k: nat)
    requires Trace(states, steps) && m <= |steps| && Live(states[m].tasks) > 1
    ensures k < m && StartsSecond(states[k], steps[k])
  {
    if Live(states[m - 1].tasks) > 1 {
      k := SecondStartedBefore(states, steps, m - 1);
    } else {
      k := m - 1;
      TraceExclusive(states, steps, k);
      SecondRunExactly(states[k], steps[k]);
    }
  }

  /** In every run of the service there are never two active runs exactly if no step starts a second. */
  lemma NeverTwoRunsExactly(states: seq<Service>, steps: seq<Step>)
    requires Trace(states, steps)
    ensures (forall m :: 0 <= m < |states| ==> Live(states[m].tasks) <= 1) <==>
              forall k: nat :: k < |steps| ==> !StartsSecond(states[k], steps[k])
  {
    if m :| 0 <= m < |states| && Live(states[m].tasks) > 1 {
      var k := SecondStartedBefore(states, steps, m);
    }
    if k: nat :| k < |steps| && StartsSecond(states[k], steps[k]) {
      TraceExclusive(states, steps, k);
      SecondRunExactly(states[k], steps[k]);
      assert Live(states[k + 1].tasks) > 1;
    }
  }

  function Messages(n: nat): seq<Step> {
    if n == 0 then [] else [SendAndRun] + Messages(n - 1)
  }

  lemma {:induction false} MessagesLead(s: Service, n: nat) returns (t: Service)
    requires !s.running
    ensures Leads(s, Messages(n), t)
    ensures |t.tasks| == |s.tasks| + n && forall i :: |s.tasks| <= i < |t.tasks| ==>
            t.tasks[i] == RunTask(Scheduled, false)
    ensures forall i :: 0 <= i < |s.tasks| ==> t.tasks[i] == s.tasks[i]
    decreases n
  {
    if n == 0 {
      t := s;
    } else {
      var s1 := Do(s, SendAndRun);
      assert ([SendAndRun] + Messages(n - 1))[1..] == Messages(n - 1);
      t := MessagesLead(s1, n - 1);
      assert s1.tasks[|s.tasks|] == RunTask(Scheduled, false);
    }
  }

  /** Runs started by a message are not tracked: any number of them can be under way before the
      first one has set the status to running. */
  lemma MessageRunsPileUp(n: nat) returns (t: Service)
    ensures Leads(STARTED, Messages(n), t) && |t.tasks| == n && forall i :: 0 <= i < n ==> Active(t.tasks[i])
  {
    t := MessagesLead(STARTED, n);
  }
}
