/** The webhook subscriber: a queue flushed by size or by a timer, with retries, in every
    interleaving of its coroutines between their awaits. */
module Webhook {
  import opened Events

  type Item = nat

  datatype Phase =
    | Created                                     // a task that has not run yet
    | Sleeping                                    // waiting for flush_delay
    | Posting(batch: seq<Item>, attempt: nat)     // waiting for the response
    | Backoff(batch: seq<Item>, attempt: nat)     // waiting for retry_delay
    | Done

  /** A coroutine: the timer's, or a caller's that posts itself. cancelled is a cancellation on its
      way. */
  datatype Job = Job(phase: Phase, isTimer: bool, cancelled: bool)

  /** event_buffer_size and num_retries. */
  datatype Spec = Spec(size: nat, retries: nat)

  datatype Subscriber = Subscriber(
    queue: seq<Item>,
    timer: Option<nat>,          // _flush_timer: the number of a job
    jobs: seq<Job>,
    received: multiset<Item>,
    posted: multiset<Item>,
    dropped: multiset<Item>,
    failed: bool)                // some post has failed for good

  const NEW := Subscriber([], None, [], multiset{}, multiset{}, multiset{}, false)

  // ----- the steps ----------------------------------------------------------------------------

  function CancelTimer(s: Subscriber): Subscriber {
    match s.timer
    case None => s
    case Some(t) =>
      if t < |s.jobs| && !s.jobs[t].phase.Done?
      then s.(jobs := s.jobs[t := s.jobs[t].(cancelled := true)], timer := None)
      else s.(timer := None)
  }

  /** A caller takes the queue as its batch. */
  function StartPost(s: Subscriber): Subscriber {
    s.(queue := [], jobs := s.jobs + [Job(Posting(s.queue, 0), false, false)])
  }

  function Receive(s: Subscriber, e: Item, spec: Spec): Subscriber {
    var s1 := s.(queue := s.queue + [e], received := s.received + multiset{e});
    if |s1.queue| >= spec.size then StartPost(CancelTimer(s1))
    else if s1.timer.None? then s1.(jobs := s1.jobs + [Job(Created, true, false)], timer := Some(|s1.jobs|))
    else s1
  }

  function Close(s: Subscriber): Subscriber {
    var s1 := CancelTimer(s);
    if |s1.queue| > 0 then StartPost(s1) else s1
  }

  function SetPhase(s: Subscriber, i: nat, phase: Phase): Subscriber
    requires i < |s.jobs|
  {
    s.(jobs := s.jobs[i := s.jobs[i].(phase := phase)])
  }

  /** A job ends; a timer's also clears the reference, whichever timer that is to. */
  function Finish(s: Subscriber, i: nat): Subscriber
    requires i < |s.jobs|
  {
    var s1 := SetPhase(s, i, Done);
    if s.jobs[i].isTimer then s1.(timer := None) else s1
  }

  datatype Step = Arrive(e: Item) | Closing | Resume(job: nat) | Respond(job: nat, ok: bool) | CancelLands(job: nat)

  /** What can happen next; responses come from outside. */
  predicate Enabled(s: Subscriber, step: Step) {
    match step
    case Arrive(_) => true
    case Closing => true
    case Resume(i) => i < |s.jobs| && !s.jobs[i].cancelled
        && (s.jobs[i].phase.Created? || s.jobs[i].phase.Sleeping? || s.jobs[i].phase.Backoff?)
    case Respond(i, _) => i < |s.jobs| && !s.jobs[i].cancelled && s.jobs[i].phase.Posting?
    case CancelLands(i) => i < |s.jobs| && s.jobs[i].cancelled && !s.jobs[i].phase.Done?
  }

  function Wake(s: Subscriber, i: nat): Subscriber
    requires Enabled(s, Resume(i))
  {
    match s.jobs[i].phase
    case Created => SetPhase(s, i, Sleeping)
    case Backoff(batch, attempt) => SetPhase(s, i, Posting(batch, attempt + 1))
    case _ =>
      if |s.queue| > 0 then SetPhase(s, i, Posting(s.queue, 0)).(queue := []) else Finish(s, i)
  }

  function Answer(s: Subscriber, i: nat, ok: bool, spec: Spec): Subscriber
    requires Enabled(s, Respond(i, ok))
  {
    var p := s.jobs[i].phase;
    if ok then Finish(s, i).(posted := s.posted + multiset(p.batch))
    else if p.attempt < spec.retries then SetPhase(s, i, Backoff(p.batch, p.attempt))
    else Finish(s, i).(queue := s.queue + p.batch, failed := true)
  }

  function BatchOf(p: Phase): seq<Item> {
    if p.Posting? || p.Backoff? then p.batch else []
  }

  /** A job that is cancelled before it ever ran does not reach its cleanup. */
  function Cancelled(s: Subscriber, i: nat): Subscriber
    requires Enabled(s, CancelLands(i))
  {
    if s.jobs[i].phase.Created? then SetPhase(s, i, Done)
    else Finish(s, i).(dropped := s.dropped + multiset(BatchOf(s.jobs[i].phase)))
  }

  function Do(s: Subscriber, step: Step, spec: Spec): Subscriber
    requires Enabled(s, step)
  {
    match step
    case Arrive(e) => Receive(s, e, spec)
    case Closing => Close(s)
    case Resume(i) => Wake(s, i)
    case Respond(i, ok) => Answer(s, i, ok, spec)
    case CancelLands(i) => Cancelled(s, i)
  }

  /** The object, with ghost counts of what has come in and gone out. */
  class WebhookSubscriber {
    var queue: seq<Item>
    var flushTimer: Option<nat>
    var jobs: seq<Job>
    ghost var received: multiset<Item>
    ghost var posted: multiset<Item>
    ghost var dropped: multiset<Item>
    ghost var failed: bool
    const spec: Spec

    ghost function State(): Subscriber
      reads this
    {
      Subscriber(queue, flushTimer, jobs, received, posted, dropped, failed)
    }

    constructor (spec: Spec)
      ensures State() == NEW && this.spec == spec
    {
      queue, flushTimer, jobs := [], None, [];
      received, posted, dropped, failed := multiset{}, multiset{}, multiset{}, false;
      this.spec := spec;
    }

    method CancelFlushTimer()
      modifies this
      ensures State() == CancelTimer(old(State()))
    {
      if flushTimer.Some? && flushTimer.value < |jobs| && !jobs[flushTimer.value].phase.Done? {
        var t := flushTimer.value;
        jobs := jobs[t := jobs[t].(cancelled := true)];
      }
      flushTimer := None;
    }

    /** Up to the first await of _post_events, in the caller's own coroutine. */
    method PostEvents()
      modifies this
      ensures State() == StartPost(old(State()))
    {
      jobs := jobs + [Job(Posting(queue, 0), false, false)];
      queue := [];
    }

    /** __call__. */
    method Call(e: Item)
      modifies this
      ensures State() == Receive(old(State()), e, spec)
    {
      queue := queue + [e];
      received := received + multiset{e};
      if |queue| >= spec.size {
        CancelFlushTimer();
        PostEvents();
      } else if flushTimer.None? {
        flushTimer := Some(|jobs|);
        jobs := jobs + [Job(Created, true, false)];
      }
    }

    method CloseSubscriber()
      modifies this
      ensures State() == Close(old(State()))
    {
      CancelFlushTimer();
      if |queue| > 0 {
        PostEvents();
      }
    }

    method End(i: nat)
      requires i < |jobs|
      modifies this
      ensures State() == Finish(old(State()), i)
    {
      if jobs[i].isTimer {
        flushTimer := None;
      }
      jobs := jobs[i := jobs[i].(phase := Done)];
    }

    /** A sleep is over: a timer starts, or flushes if there is anything; a retry posts again. */
    method ResumeJob(i: nat)
      requires Enabled(State(), Resume(i))
      modifies this
      ensures State() == Wake(old(State()), i)
    {
      var phase := jobs[i].phase;
      if phase.Created? {
        jobs := jobs[i := jobs[i].(phase := Sleeping)];
      } else if phase.Backoff? {
        jobs := jobs[i := jobs[i].(phase := Posting(phase.batch, phase.attempt + 1))];
      } else if |queue| > 0 {
        jobs := jobs[i := jobs[i].(phase := Posting(queue, 0))];
        queue := [];
      } else {
        End(i);
      }
    }

    method HandleResponse(i: nat, ok: bool)
      requires Enabled(State(), Respond(i, ok))
      modifies this
      ensures State() == Answer(old(State()), i, ok, spec)
    {
      var batch, attempt := jobs[i].phase.batch, jobs[i].phase.attempt;
      if ok {
        posted := posted + multiset(batch);
        End(i);
      } else if attempt < spec.retries {
        jobs := jobs[i := jobs[i].(phase := Backoff(batch, attempt))];
      } else {
        queue := queue + batch;
        failed := true;
        End(i);
      }
    }

    method HandleCancellation(i: nat)
      requires Enabled(State(), CancelLands(i))
      modifies this
      ensures State() == Cancelled(old(State()), i)
    {
      if jobs[i].phase.Created? {
        jobs := jobs[i := jobs[i].(phase := Done)];
        return;
      }
      dropped := dropped + multiset(BatchOf(jobs[i].phase));
      End(i);
    }
  }

  // ----- accounting ---------------------------------------------------------------------------

  /** How often x is in a batch that some job holds. */
  function InFlight(jobs: seq<Job>, x: Item): nat {
    if |jobs| == 0 then 0 else InFlight(jobs[..|jobs| - 1], x) + multiset(BatchOf(jobs[|jobs| - 1].phase))[x]
  }

  lemma {:induction false} InFlightUpdate(jobs: seq<Job>, i: nat, j: Job, x: Item)
    requires i < |jobs|
    ensures InFlight(jobs[i := j], x) + multiset(BatchOf(jobs[i].phase))[x]
            == InFlight(jobs, x) + multiset(BatchOf(j.phase))[x]
  {
    var n := |jobs| - 1;
    if i == n {
      assert jobs[i := j][..n] == jobs[..n];
    } else {
      assert jobs[i := j][..n] == jobs[..n][i := j];
      InFlightUpdate(jobs[..n], i, j, x);
    }
  }

  lemma InFlightAppend(jobs: seq<Job>, j: Job, x: Item)
    ensures InFlight(jobs + [j], x) == InFlight(jobs, x) + multiset(BatchOf(j.phase))[x]
  {
    assert (jobs + [j])[..|jobs|] == jobs;
  }

  /** Where the copies of x are that have come in. */
  function Accounted(s: Subscriber, x: Item): nat {
    s.posted[x] + multiset(s.queue)[x] + InFlight(s.jobs, x) + s.dropped[x]
  }

  lemma SetPhaseAccount(s: Subscriber, i: nat, phase: Phase, x: Item)
    requires i < |s.jobs|
    ensures Accounted(SetPhase(s, i, phase), x) + multiset(BatchOf(s.jobs[i].phase))[x]
            == Accounted(s, x) + multiset(BatchOf(phase))[x]
  {
    InFlightUpdate(s.jobs, i, s.jobs[i].(phase := phase), x);
  }

  lemma CancelAccount(s: Subscriber, x: Item)
    ensures Accounted(CancelTimer(s), x) == Accounted(s, x) && CancelTimer(s).received == s.received
  {
    if s.timer.Some? && s.timer.value < |s.jobs| && !s.jobs[s.timer.value].phase.Done? {
      InFlightUpdate(s.jobs, s.timer.value, s.jobs[s.timer.value].(cancelled := true), x);
    }
  }

  lemma StartPostAccount(s: Subscriber, x: Item)
    ensures Accounted(StartPost(s), x) == Accounted(s, x)
  {
    InFlightAppend(s.jobs, Job(Posting(s.queue, 0), false, false), x);
  }

  /** As many copies of x have come in as have come to be accounted for. */
  ghost predicate SameBalance(s: Subscriber, t: Subscriber, x: Item) {
    t.received[x] + Accounted(s, x) == s.received[x] + Accounted(t, x)
  }

  lemma ReceiveAccount(s: Subscriber, e: Item, spec: Spec, x: Item)
    ensures SameBalance(s, Receive(s, e, spec), x)
  {
    var s1 := s.(queue := s.queue + [e], received := s.received + multiset{e});
    assert Accounted(s1, x) == Accounted(s, x) + (if x == e then 1 else 0);
    if |s1.queue| >= spec.size {
      CancelAccount(s1, x);
      StartPostAccount(CancelTimer(s1), x);
    } else if s1.timer.None? {
      InFlightAppend(s1.jobs, Job(Created, true, false), x);
    }
  }

  lemma TimerWakesAccount(s: Subscriber, i: nat, x: Item)
    requires Enabled(s, Resume(i)) && s.jobs[i].phase.Sleeping?
    ensures SameBalance(s, Wake(s, i), x)
  {
    if |s.queue| > 0 {
      SetPhaseAccount(s, i, Posting(s.queue, 0), x);
    } else {
      SetPhaseAccount(s, i, Done, x);
    }
  }

  lemma WakeAccount(s: Subscriber, i: nat, x: Item)
    requires Enabled(s, Resume(i))
    ensures SameBalance(s, Wake(s, i), x)
  {
    match s.jobs[i].phase
    case Created => SetPhaseAccount(s, i, Sleeping, x);
    case Backoff(batch, attempt) => SetPhaseAccount(s, i, Posting(batch, attempt + 1), x);
    case _ => TimerWakesAccount(s, i, x);
  }

  lemma AnswerAccount(s: Subscriber, i: nat, ok: bool, spec: Spec, x: Item)
    requires Enabled(s, Respond(i, ok))
    ensures SameBalance(s, Answer(s, i, ok, spec), x)
  {
    var p := s.jobs[i].phase;
    if !ok && p.attempt < spec.retries {
      SetPhaseAccount(s, i, Backoff(p.batch, p.attempt), x);
    } else {
      SetPhaseAccount(s, i, Done, x);
      assert multiset(s.queue + p.batch)[x] == multiset(s.queue)[x] + multiset(p.batch)[x];
    }
  }

  lemma CancelledAccount(s: Subscriber, i: nat, x: Item)
    requires Enabled(s, CancelLands(i))
    ensures SameBalance(s, Cancelled(s, i), x)
  {
    SetPhaseAccount(s, i, Done, x);
  }

  lemma CloseAccount(s: Subscriber, x: Item)
    ensures SameBalance(s, Close(s), x)
  {
    CancelAccount(s, x);
    StartPostAccount(CancelTimer(s), x);
  }

  /** Every step keeps the account of every event: what comes in, and nothing else, is added to
      what is posted, queued, in flight or dropped. */
  lemma StepAccount(s: Subscriber, step: Step, spec: Spec, x: Item)
    requires Enabled(s, step)
    ensures SameBalance(s, Do(s, step, spec), x)
  {
    match step
    case Arrive(e) => ReceiveAccount(s, e, spec, x);
    case Closing => CloseAccount(s, x);
    case Resume(i) => WakeAccount(s, i, x);
    case Respond(i, ok) => AnswerAccount(s, i, ok, spec, x);
    case CancelLands(i) => CancelledAccount(s, i, x);
  }

  // ----- the queue and the timers ---------------------------------------------------------------

  /** Only timers are cancelled, and the subscriber does not refer to one that is or has ended. Until
      a post has failed for good, less than event_buffer_size waits in the queue. */
  ghost predicate Inv(s: Subscriber, spec: Spec) {
    && (forall i :: 0 <= i < |s.jobs| && s.jobs[i].cancelled ==> s.jobs[i].isTimer)
    && (s.timer.Some? ==> s.timer.value < |s.jobs| && s.jobs[s.timer.value].isTimer
                          && !s.jobs[s.timer.value].cancelled && !s.jobs[s.timer.value].phase.Done?)
    && (!s.failed ==> |s.queue| < spec.size)
    && (forall i :: 0 <= i < |s.jobs| ==> WithinRetries(s.jobs[i].phase, spec))
  }

  predicate WithinRetries(p: Phase, spec: Spec) {
    (p.Posting? ==> p.attempt <= spec.retries) && (p.Backoff? ==> p.attempt < spec.retries)
  }

  lemma ReceiveInv(s: Subscriber, e: Item, spec: Spec)
    requires Inv(s, spec) && spec.size >= 1
    ensures Inv(Receive(s, e, spec), spec)
  {
  }

  lemma WakeInv(s: Subscriber, i: nat, spec: Spec)
    requires Inv(s, spec) && Enabled(s, Resume(i)) && spec.size >= 1
    ensures Inv(Wake(s, i), spec)
  {
  }

  lemma AnswerInv(s: Subscriber, i: nat, ok: bool, spec: Spec)
    requires Inv(s, spec) && Enabled(s, Respond(i, ok))
    ensures Inv(Answer(s, i, ok, spec), spec)
  {
  }

  lemma CancelledInv(s: Subscriber, i: nat, spec: Spec)
    requires Inv(s, spec) && Enabled(s, CancelLands(i))
    ensures Inv(Cancelled(s, i), spec)
  {
  }

  lemma CloseInv(s: Subscriber, spec: Spec)
    requires Inv(s, spec) && spec.size >= 1
    ensures Inv(Close(s), spec)
  {
  }

  lemma StepInv(s: Subscriber, step: Step, spec: Spec)
    requires Inv(s, spec) && Enabled(s, step) && spec.size >= 1
    ensures Inv(Do(s, step, spec), spec)
  {
    match step
    case Arrive(e) => ReceiveInv(s, e, spec);
    case Closing => CloseInv(s, spec);
    case Resume(i) => WakeInv(s, i, spec);
    case Respond(i, ok) => AnswerInv(s, i, ok, spec);
    case CancelLands(i) => CancelledInv(s, i, spec);
  }

  /** Events are dropped by one kind of step only: a cancellation that reaches a timer in the middle
      of its post. Then exactly its batch is. */
  lemma DroppedOnlyByCancellation(s: Subscriber, step: Step, spec: Spec)
    requires Inv(s, spec) && Enabled(s, step)
    ensures Do(s, step, spec).dropped
         == s.dropped + (if step.CancelLands? && s.jobs[step.job].isTimer
                         then multiset(BatchOf(s.jobs[step.job].phase)) else multiset{})
  {
    if step.CancelLands? {
      assert s.jobs[step.job].cancelled;
    }
  }

  /** A batch goes back to the queue exactly when its attempt number num_retries fails, that is after
      num_retries + 1 attempts; before that it is retried. */
  lemma RequeuedAfterAllAttempts(s: Subscriber, i: nat, spec: Spec)
    requires Inv(s, spec) && Enabled(s, Respond(i, false))
    ensures var t, p := Do(s, Respond(i, false), spec), s.jobs[i].phase;
            && (t.queue == s.queue + p.batch && t.jobs[i].phase.Done? <==> p.attempt == spec.retries)
            && (t.jobs[i].phase == Backoff(p.batch, p.attempt) && t.queue == s.queue <==> p.attempt < spec.retries)
  {
    assert WithinRetries(s.jobs[i].phase, spec);
  }

  // ----- runs -----------------------------------------------------------------------------------

  /** s leads to t by the steps, each possible when it is taken. */
  ghost predicate Leads(s: Subscriber, steps: seq<Step>, t: Subscriber, spec: Spec)
    decreases |steps|
  {
    if |steps| == 0 then t == s else Enabled(s, steps[0]) && Leads(Do(s, steps[0], spec), steps[1..], t, spec)
  }

  lemma {:induction false} RunKeeps(s: Subscriber, steps: seq<Step>, t: Subscriber, spec: Spec, x: Item)
    requires Inv(s, spec) && Leads(s, steps, t, spec) && spec.size >= 1
    ensures Inv(t, spec) && SameBalance(s, t, x)
    decreases |steps|
  {
    if |steps| > 0 {
      var mid := Do(s, steps[0], spec);
      StepInv(s, steps[0], spec);
      StepAccount(s, steps[0], spec, x);
      RunKeeps(mid, steps[1..], t, spec, x);
    }
  }

  /** In every interleaving: each received event is posted, queued, in flight or dropped, as often as
      it was received; and the queue is short until a post has failed for good. */
  lemma EveryRunIsAccounted(steps: seq<Step>, t: Subscriber, spec: Spec, x: Item)
    requires Leads(NEW, steps, t, spec) && spec.size >= 1
    ensures t.received[x] == t.posted[x] + multiset(t.queue)[x] + InFlight(t.jobs, x) + t.dropped[x]
    ensures !t.failed ==> |t.queue| < spec.size
  {
    RunKeeps(NEW, steps, t, spec, x);
    assert multiset(NEW.queue)[x] == 0;
  }

  // ----- where events go --------------------------------------------------------------------------

  lemma CancelKeepsBatches(s: Subscriber, x: Item)
    ensures InFlight(CancelTimer(s).jobs, x) == InFlight(s.jobs, x)
  {
    if s.timer.Some? && s.timer.value < |s.jobs| && !s.jobs[s.timer.value].phase.Done? {
      InFlightUpdate(s.jobs, s.timer.value, s.jobs[s.timer.value].(cancelled := true), x);
    }
  }

  lemma PostTakesQueue(s: Subscriber, x: Item)
    ensures InFlight(StartPost(s).jobs, x) == InFlight(s.jobs, x) + multiset(s.queue)[x]
  {
    InFlightAppend(s.jobs, Job(Posting(s.queue, 0), false, false), x);
  }

  /** An event that fills the buffer is posted with all that wait; one that does not waits with them. */
  lemma ArrivalFlushesExactly(s: Subscriber, e: Item, spec: Spec, x: Item)
    ensures var t := Do(s, Arrive(e), spec);
            if |s.queue| + 1 >= spec.size
            then t.queue == [] && InFlight(t.jobs, x) == InFlight(s.jobs, x) + multiset(s.queue + [e])[x]
            else t.queue == s.queue + [e] && InFlight(t.jobs, x) == InFlight(s.jobs, x)
  {
    var s1 := s.(queue := s.queue + [e], received := s.received + multiset{e});
    if |s.queue| + 1 >= spec.size {
      CancelKeepsBatches(s1, x);
      PostTakesQueue(CancelTimer(s1), x);
    } else {
      InFlightAppend(s.jobs, Job(Created, true, false), x);
    }
  }

  /** Closing posts what waits. */
  lemma ClosingFlushes(s: Subscriber, spec: Spec, x: Item)
    ensures var t := Do(s, Closing, spec);
            t.queue == [] && InFlight(t.jobs, x) == InFlight(s.jobs, x) + multiset(s.queue)[x]
  {
    CancelKeepsBatches(s, x);
    PostTakesQueue(CancelTimer(s), x);
  }

  /** So does a timer when its delay is over. */
  lemma TimerFlushes(s: Subscriber, i: nat, spec: Spec, x: Item)
    requires Enabled(s, Resume(i)) && s.jobs[i].phase.Sleeping?
    ensures var t := Do(s, Resume(i), spec);
            t.queue == [] && InFlight(t.jobs, x) == InFlight(s.jobs, x) + multiset(s.queue)[x]
  {
    TimerWakesAccount(s, i, x);
  }

  /** So many attempts fail, each followed by its delay, and the last one goes as it goes. */
  function Attempts(i: nat, failures: nat, ok: bool): seq<Step> {
    if failures == 0 then [Respond(i, ok)] else [Respond(i, false), Resume(i)] + Attempts(i, failures - 1, ok)
  }

  /** A batch is delivered if any of its num_retries + 1 attempts succeeds, and goes back to the queue if
      none does. */
  lemma {:induction false} DeliveredAtAnyAttempt(s: Subscriber, i: nat, failures: nat, ok: bool, spec: Spec)
    returns (t: Subscriber)
    requires Enabled(s, Respond(i, ok)) && s.jobs[i].phase.attempt + failures <= spec.retries
    requires !ok ==> s.jobs[i].phase.attempt + failures == spec.retries
    ensures Leads(s, Attempts(i, failures, ok), t, spec) && |t.jobs| == |s.jobs| && t.jobs[i].phase.Done?
    ensures var batch := s.jobs[i].phase.batch;
            if ok then t.posted == s.posted + multiset(batch) && t.queue == s.queue
            else t.posted == s.posted && t.queue == s.queue + batch
    decreases failures
  {
    if failures == 0 {
      t := Do(s, Respond(i, ok), spec);
      assert Attempts(i, 0, ok)[1..] == [];
    } else {
      var waiting := Do(s, Respond(i, false), spec);
      var again := Do(waiting, Resume(i), spec);
      t := DeliveredAtAnyAttempt(again, i, failures - 1, ok, spec);
      var rest := Attempts(i, failures - 1, ok);
      assert Attempts(i, failures, ok)[1..] == [Resume(i)] + rest && ([Resume(i)] + rest)[1..] == rest;
    }
  }

  predicate NoArrivals(steps: seq<Step>) {
    forall k :: 0 <= k < |steps| ==> !steps[k].Arrive?
  }

  lemma {:induction false} FailedStays(s: Subscriber, steps: seq<Step>, t: Subscriber, spec: Spec)
    requires Leads(s, steps, t, spec) && s.failed
    ensures t.failed
    decreases |steps|
  {
    if |steps| > 0 {
      FailedStays(Do(s, steps[0], spec), steps[1..], t, spec);
    }
  }

  lemma {:induction false} QueueStaysEmpty(s: Subscriber, steps: seq<Step>, t: Subscriber, spec: Spec)
    requires Leads(s, steps, t, spec) && NoArrivals(steps) && s.queue == [] && !t.failed
    ensures t.queue == []
    decreases |steps|
  {
    if |steps| > 0 {
      var mid := Do(s, steps[0], spec);
      if mid.failed {
        FailedStays(mid, steps[1..], t, spec);
      }
      QueueStaysEmpty(mid, steps[1..], t, spec);
    }
  }

  lemma {:induction false} NothingInFlight(jobs: seq<Job>, x: Item)
    requires AllDone(jobs)
    ensures InFlight(jobs, x) == 0
  {
    if |jobs| > 0 {
      NothingInFlight(jobs[..|jobs| - 1], x);
    }
  }

  /** Once a subscriber is closed and nothing more arrives, if no post fails for good then, when all its
      coroutines have ended, every event that ever came in has been posted, but for the batches dropped
      by a cancellation. */
  lemma AllPostedAfterClosing(steps: seq<Step>, s: Subscriber, more: seq<Step>, t: Subscriber, spec: Spec, x: Item)
    requires Leads(NEW, steps, s, spec) && Leads(Do(s, Closing, spec), more, t, spec) && spec.size >= 1
    requires NoArrivals(more) && !t.failed && AllDone(t.jobs)
    ensures t.received[x] == t.posted[x] + t.dropped[x]
  {
    var closed := Do(s, Closing, spec);
    ClosingFlushes(s, spec, x);
    QueueStaysEmpty(closed, more, t, spec);
    RunKeeps(NEW, steps, s, spec, x);
    StepInv(s, Closing, spec);
    StepAccount(s, Closing, spec, x);
    RunKeeps(closed, more, t, spec, x);
    NothingInFlight(t.jobs, x);
    assert multiset(NEW.queue)[x] == 0 && multiset(t.queue)[x] == 0;
  }

  // ----- the order of events ----------------------------------------------------------------------

  /** What has come in, in order. */
  function Arrivals(steps: seq<Step>): seq<Item> {
    if |steps| == 0 then []
    else (if steps[0].Arrive? then [steps[0].e] else []) + Arrivals(steps[1..])
  }

  ghost predicate IsPart(batch: seq<Item>, all: seq<Item>) {
    exists lo, hi :: 0 <= lo <= hi <= |all| && batch == all[lo..hi]
  }

  /** What waits are the last events that came in, and every batch is a part of them in one piece. */
  ghost predicate InArrivalOrder(s: Subscriber, all: seq<Item>) {
    && |s.queue| <= |all| && s.queue == all[|all| - |s.queue|..]
    && forall i :: 0 <= i < |s.jobs| ==> IsPart(BatchOf(s.jobs[i].phase), all)
  }

  lemma PartOfMore(batch: seq<Item>, all: seq<Item>, e: Item)
    requires IsPart(batch, all)
    ensures IsPart(batch, all + [e])
  {
    var lo, hi :| 0 <= lo <= hi <= |all| && batch == all[lo..hi];
    assert (all + [e])[lo..hi] == batch;
  }

  /** Any batch of the jobs after is one before or what was waiting. */
  ghost predicate BatchesFrom(before: seq<Job>, queue: seq<Item>, after: seq<Job>) {
    forall i :: 0 <= i < |after| ==> BatchFrom(before, queue, i, BatchOf(after[i].phase))
  }

  predicate BatchFrom(before: seq<Job>, queue: seq<Item>, i: nat, batch: seq<Item>) {
    batch == [] || batch == queue || (i < |before| && batch == BatchOf(before[i].phase))
  }

  lemma ArrivalBatches(s: Subscriber, e: Item, spec: Spec)
    ensures BatchesFrom(s.jobs, s.queue + [e], Receive(s, e, spec).jobs)
    ensures var t := Receive(s, e, spec); t.queue == [] || t.queue == s.queue + [e]
  {
  }

  lemma PhaseBatches(s: Subscriber, i: nat, phase: Phase)
    requires i < |s.jobs| && BatchFrom(s.jobs, s.queue, i, BatchOf(phase))
    ensures BatchesFrom(s.jobs, s.queue, SetPhase(s, i, phase).jobs)
  {
  }

  lemma JobBatches(s: Subscriber, i: nat, step: Step, spec: Spec)
    requires Enabled(s, step) && !Do(s, step, spec).failed
    requires match step
             case Resume(j) => i == j
             case Respond(j, _) => i == j
             case CancelLands(j) => i == j
             case _ => false
    ensures BatchesFrom(s.jobs, s.queue, Do(s, step, spec).jobs)
    ensures var t := Do(s, step, spec); t.queue == [] || t.queue == s.queue
  {
    PhaseBatches(s, i, Do(s, step, spec).jobs[i].phase);
  }

  lemma OtherBatches(s: Subscriber, step: Step, spec: Spec)
    requires Enabled(s, step) && !step.Arrive? && !Do(s, step, spec).failed
    ensures BatchesFrom(s.jobs, s.queue, Do(s, step, spec).jobs)
    ensures var t := Do(s, step, spec); t.queue == [] || t.queue == s.queue
  {
    match step
    case Closing =>
    case Resume(i) => JobBatches(s, i, step, spec);
    case Respond(i, _) => JobBatches(s, i, step, spec);
    case CancelLands(i) => JobBatches(s, i, step, spec);
  }

  lemma PartsStay(s: Subscriber, queue: seq<Item>, t: Subscriber, all: seq<Item>)
    requires forall i :: 0 <= i < |s.jobs| ==> IsPart(BatchOf(s.jobs[i].phase), all)
    requires |queue| <= |all| && queue == all[|all| - |queue|..]
    requires BatchesFrom(s.jobs, queue, t.jobs) && (t.queue == [] || t.queue == queue)
    ensures InArrivalOrder(t, all)
  {
    assert IsPart(queue, all) by {
      assert all[|all| - |queue|..|all|] == queue;
    }
    assert IsPart([], all) by {
      assert all[0..0] == [];
    }
    assert all[|all|..] == [];
    forall i | 0 <= i < |t.jobs| ensures IsPart(BatchOf(t.jobs[i].phase), all) {
      assert BatchFrom(s.jobs, queue, i, BatchOf(t.jobs[i].phase));
    }
  }

  lemma StepInOrder(s: Subscriber, step: Step, spec: Spec, all: seq<Item>)
    requires InArrivalOrder(s, all) && Enabled(s, step) && !Do(s, step, spec).failed
    ensures InArrivalOrder(Do(s, step, spec), all + Arrivals([step]))
  {
    assert [step][1..] == [];
    if step.Arrive? {
      var e, more := step.e, all + [step.e];
      assert all + Arrivals([step]) == more && s.queue + [e] == more[|all| - |s.queue|..];
      forall i | 0 <= i < |s.jobs| ensures IsPart(BatchOf(s.jobs[i].phase), more) {
        PartOfMore(BatchOf(s.jobs[i].phase), all, e);
      }
      ArrivalBatches(s, e, spec);
      PartsStay(s, s.queue + [e], Do(s, step, spec), more);
    } else {
      assert all + Arrivals([step]) == all;
      OtherBatches(s, step, spec);
      PartsStay(s, s.queue, Do(s, step, spec), all);
    }
  }

  lemma ArrivalsCons(steps: seq<Step>)
    requires |steps| > 0
    ensures Arrivals(steps) == Arrivals([steps[0]]) + Arrivals(steps[1..])
  {
    assert [steps[0]][1..] == [];
  }

  lemma NotFailedYet(s: Subscriber, steps: seq<Step>, t: Subscriber, spec: Spec)
    requires Leads(s, steps, t, spec) && |steps| > 0 && !t.failed
    ensures !Do(s, steps[0], spec).failed
  {
    if Do(s, steps[0], spec).failed {
      FailedStays(Do(s, steps[0], spec), steps[1..], t, spec);
    }
  }

  /** What every step keeps of the state and of what has come in, a run keeps. */
  lemma {:induction false} RunKeepsWith(s: Subscriber, steps: seq<Step>, t: Subscriber, spec: Spec, all: seq<Item>,
                                        P: (Subscriber, seq<Item>) -> bool)
    requires Leads(s, steps, t, spec) && P(s, all) && !t.failed
    requires forall u: Subscriber, step, so: seq<Item> ::
               P(u, so) && Enabled(u, step) && !Do(u, step, spec).failed ==> P(Do(u, step, spec), so + Arrivals([step]))
    ensures P(t, all + Arrivals(steps))
    decreases |steps|
  {
    if |steps| == 0 {
      assert all + [] == all;
    } else {
      NotFailedYet(s, steps, t, spec);
      ArrivalsCons(steps);
      var one := Arrivals([steps[0]]);
      assert all + Arrivals(steps) == all + one + Arrivals(steps[1..]);
      RunKeepsWith(Do(s, steps[0], spec), steps[1..], t, spec, all + one, P);
    }
  }

  /** Until a post has failed for good, events keep their order: in every interleaving the queue is the
      end of what has come in, and every batch under way is a part of it in one piece. */
  lemma EventsKeepOrder(steps: seq<Step>, t: Subscriber, spec: Spec)
    requires Leads(NEW, steps, t, spec) && !t.failed
    ensures InArrivalOrder(t, Arrivals(steps))
  {
    var P := (u: Subscriber, so: seq<Item>) => InArrivalOrder(u, so);
    forall u: Subscriber, step, so: seq<Item> | P(u, so) && Enabled(u, step) && !Do(u, step, spec).failed
      ensures P(Do(u, step, spec), so + Arrivals([step]))
    {
      StepInOrder(u, step, spec, so);
    }
    RunKeepsWith(NEW, steps, t, spec, [], P);
    assert [] + Arrivals(steps) == Arrivals(steps);
  }

  // ----- what the code does not promise -------------------------------------------------------

  lemma {:induction false} LeadsOn(s: Subscriber, steps: seq<Step>, t: Subscriber, step: Step, spec: Spec)
    requires Leads(s, steps, t, spec) && Enabled(t, step)
    ensures Leads(s, steps + [step], Do(t, step, spec), spec)
    decreases |steps|
  {
    if |steps| == 0 {
      assert (steps + [step])[1..] == [];
    } else {
      assert (steps + [step])[1..] == steps[1..] + [step];
      LeadsOn(Do(s, steps[0], spec), steps[1..], t, step, spec);
    }
  }

  /** One event has come in and its timer is posting it. */
  lemma TimerPosts(spec: Spec, a: Item) returns (steps: seq<Step>, t: Subscriber)
    requires spec.size >= 2
    ensures Leads(NEW, steps, t, spec)
    ensures t == Subscriber([], Some(0), [Job(Posting([a], 0), true, false)], multiset{a}, multiset{}, multiset{},
                            false)
  {
    var s1 := Subscriber([a], Some(0), [Job(Created, true, false)], multiset{a}, multiset{}, multiset{}, false);
    var s2 := Subscriber([a], Some(0), [Job(Sleeping, true, false)], multiset{a}, multiset{}, multiset{}, false);
    t := Subscriber([], Some(0), [Job(Posting([a], 0), true, false)], multiset{a}, multiset{}, multiset{}, false);
    assert Do(NEW, Arrive(a), spec) == s1 && Do(s1, Resume(0), spec) == s2 && Do(s2, Resume(0), spec) == t;
    LeadsOn(NEW, [], NEW, Arrive(a), spec);
    LeadsOn(NEW, [] + [Arrive(a)], s1, Resume(0), spec);
    steps := [] + [Arrive(a)] + [Resume(0)];
    LeadsOn(NEW, steps, s2, Resume(0), spec);
    steps := steps + [Resume(0)];
  }

  // ----- stranded events ------------------------------------------------------------------------

  predicate AllDone(jobs: seq<Job>) {
    forall i :: 0 <= i < |jobs| ==> jobs[i].phase.Done?
  }

  /** Events wait in the queue and nothing is under way that would post them. */
  predicate Stranded(s: Subscriber) {
    AllDone(s.jobs) && s.queue != []
  }

  predicate OthersDone(jobs: seq<Job>, i: nat) {
    forall k :: 0 <= k < |jobs| && k != i ==> jobs[k].phase.Done?
  }

  /** The last job ends and leaves events behind: it has posted while others arrived, it has failed
      for good, or it was cancelled. */
  predicate Strands(s: Subscriber, step: Step, spec: Spec)
    requires Enabled(s, step)
  {
    match step
    case Respond(i, ok) =>
      && OthersDone(s.jobs, i)
      && if ok then s.queue != []
         else s.jobs[i].phase.attempt == spec.retries && s.queue + s.jobs[i].phase.batch != []
    case CancelLands(i) => OthersDone(s.jobs, i) && s.queue != []
    case _ => false
  }

  lemma DoneAfter(s: Subscriber, i: nat, phase: Phase)
    requires i < |s.jobs|
    ensures AllDone(SetPhase(s, i, phase).jobs) <==> phase.Done? && OthersDone(s.jobs, i)
  {
    var t := SetPhase(s, i, phase);
    assert t.jobs[i].phase == phase;
    assert forall k :: 0 <= k < |s.jobs| && k != i ==> t.jobs[k] == s.jobs[k];
  }

  lemma ArrivalDoesNotStrand(s: Subscriber, e: Item, spec: Spec)
    requires Inv(s, spec) && !Stranded(s) && spec.size >= 1
    ensures !Stranded(Receive(s, e, spec))
  {
    var t := Receive(s, e, spec);
    if |s.queue + [e]| < spec.size {
      if s.timer.Some? {
        assert !t.jobs[s.timer.value].phase.Done?;
      } else {
        assert !t.jobs[|s.jobs|].phase.Done?;
      }
    }
  }

  lemma CloseDoesNotStrand(s: Subscriber)
    requires !Stranded(s)
    ensures !Stranded(Close(s))
  {
  }

  lemma WakingDoesNotStrand(s: Subscriber, i: nat, spec: Spec)
    requires Enabled(s, Resume(i)) && !Stranded(s)
    ensures !Stranded(Wake(s, i))
  {
    DoneAfter(s, i, Wake(s, i).jobs[i].phase);
  }

  lemma AnswerStrands(s: Subscriber, i: nat, ok: bool, spec: Spec)
    requires Inv(s, spec) && Enabled(s, Respond(i, ok)) && !Stranded(s)
    ensures Stranded(Answer(s, i, ok, spec)) <==> Strands(s, Respond(i, ok), spec)
  {
    assert WithinRetries(s.jobs[i].phase, spec);
    DoneAfter(s, i, Answer(s, i, ok, spec).jobs[i].phase);
  }

  lemma CancellationStrands(s: Subscriber, i: nat, spec: Spec)
    requires Enabled(s, CancelLands(i)) && !Stranded(s)
    ensures Stranded(Cancelled(s, i)) <==> Strands(s, CancelLands(i), spec)
  {
    DoneAfter(s, i, Done);
  }

  /** A step strands events exactly then. */
  lemma StrandedExactly(s: Subscriber, step: Step, spec: Spec)
    requires Inv(s, spec) && Enabled(s, step) && spec.size >= 1 && !Stranded(s)
    ensures Stranded(Do(s, step, spec)) <==> Strands(s, step, spec)
  {
    match step
    case Arrive(e) => ArrivalDoesNotStrand(s, e, spec);
    case Closing => CloseDoesNotStrand(s);
    case Resume(i) => WakingDoesNotStrand(s, i, spec);
    case Respond(i, ok) => AnswerStrands(s, i, ok, spec);
    case CancelLands(i) => CancellationStrands(s, i, spec);
  }

  /** A run with all its states. */
  ghost predicate Trace(states: seq<Subscriber>, steps: seq<Step>, spec: Spec) {
    && |states| == |steps| + 1 && states[0] == NEW
    && forall k :: 0 <= k < |steps| ==> Enabled(states[k], steps[k]) && states[k + 1] == Do(states[k], steps[k], spec)
  }

  lemma {:induction false} TraceInv(states: seq<Subscriber>, steps: seq<Step>, spec: Spec, k: nat)
    requires Trace(states, steps, spec) && spec.size >= 1 && k <= |steps|
    ensures Inv(states[k], spec)
  {
    if k > 0 {
      TraceInv(states, steps, spec, k - 1);
      StepInv(states[k - 1], steps[k - 1], spec);
    }
  }

  /** The step at k strands what was not stranded before. */
  ghost predicate StrandsAt(states: seq<Subscriber>, steps: seq<Step>, spec: Spec, k: nat)
    requires Trace(states, steps, spec) && k < |steps|
  {
    !Stranded(states[k]) && Strands(states[k], steps[k], spec)
  }

  lemma {:induction false} StrandedBefore(states: seq<Subscriber>, steps: seq<Step>, spec: Spec, m: nat)
    returns (k: nat)
    requires Trace(states, steps, spec) && spec.size >= 1 && m <= |steps| && Stranded(states[m])
    ensures k < m && StrandsAt(states, steps, spec, k)
  {
    if Stranded(states[m - 1]) {
      k := StrandedBefore(states, steps, spec, m - 1);
    } else {
      k := m - 1;
      TraceInv(states, steps, spec, k);
      StrandedExactly(states[k], steps[k], spec);
    }
  }

  /** In every run, events are stranded at some time exactly if some step strands them. */
  lemma RunStrandsExactly(states: seq<Subscriber>, steps: seq<Step>, spec: Spec)
    requires Trace(states, steps, spec) && spec.size >= 1
    ensures (exists m :: 0 <= m < |states| && Stranded(states[m])) <==>
            exists k: nat :: k < |steps| && StrandsAt(states, steps, spec, k)
  {
    if m :| 0 <= m < |states| && Stranded(states[m]) {
      var k := StrandedBefore(states, steps, spec, m);
    }
    if k: nat :| k < |steps| && StrandsAt(states, steps, spec, k) {
      TraceInv(states, steps, spec, k);
      StrandedExactly(states[k], steps[k], spec);
      assert Stranded(states[k + 1]);
    }
  }

  /** For one: an event that arrives while the timer is posting gets no timer of its own. When the
      post is done it stays in the queue until another event or close. */
  lemma EventCanBeStranded(spec: Spec, a: Item, b: Item) returns (steps: seq<Step>, t: Subscriber)
    requires spec.size >= 2
    ensures Leads(NEW, steps, t, spec) && Stranded(t) && t.queue == [b]
  {
    var s0: Subscriber;
    steps, s0 := TimerPosts(spec, a);
    var s1 := Do(s0, Arrive(b), spec);
    assert s1.queue == [b] && s1.jobs == s0.jobs;
    LeadsOn(NEW, steps, s0, Arrive(b), spec);
    steps := steps + [Arrive(b)];
    LeadsOn(NEW, steps, s1, Respond(0, true), spec);
    steps := steps + [Respond(0, true)];
    t := Do(s1, Respond(0, true), spec);
  }

  /** And a batch can be dropped: enough events arrive while the timer is posting, which cancels
      it. */
  lemma BatchCanBeDropped(a: Item, b: Item, c: Item) returns (steps: seq<Step>, t: Subscriber)
    ensures Leads(NEW, steps, t, Spec(2, 0)) && t.dropped == multiset{a}
  {
    var spec := Spec(2, 0);
    var s0: Subscriber;
    steps, s0 := TimerPosts(spec, a);
    var s1 := Do(s0, Arrive(b), spec);
    assert s1.queue == [b] && s1.jobs == s0.jobs && s1.timer == Some(0);
    LeadsOn(NEW, steps, s0, Arrive(b), spec);
    steps := steps + [Arrive(b)];
    var s2 := Do(s1, Arrive(c), spec);
    assert s2.jobs[0] == Job(Posting([a], 0), true, true) && s2.dropped == multiset{};
    LeadsOn(NEW, steps, s1, Arrive(c), spec);
    steps := steps + [Arrive(c)];
    LeadsOn(NEW, steps, s2, CancelLands(0), spec);
    steps := steps + [CancelLands(0)];
    t := Do(s2, CancelLands(0), spec);
  }
}
