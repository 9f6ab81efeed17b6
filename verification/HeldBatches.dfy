/** Which turns execute an action that is stored: of a run, of other runs on the same runner, and so what
    becomes of a batch that is held for confirmation. */
module HeldBatches {
  import opened Events
  import opened Unmatched
  import opened Session
  import opened SessionInvariant
  import opened Confirmation
  import opened Execution
  import opened RunLoop
  import G = InterleavedInvariant
  import H = InterleavedSafety
  import I = Interleaved

  lemma ResumeKeepsPending(s: Session)
    ensures Pending(Resume(s).log) == Pending(s.log) && Resume(s).blockedActions == s.blockedActions
    ensures Resume(s).invoked == s.invoked
  {
    if s.status.Waiting? {
      var n1 := StateEvent(Raw(s.next), "execution_status");
      var n2 := StateEvent(Raw(s.next + 1), "started_at");
      assert Resume(s).log == s.log + [n1] + [n2];
      PendingAppend(s.log, n1, 0);
      PendingAppend(s.log + [n1], n2, 0);
    }
  }

  /** A turn of another run that gets to its step. */
  predicate OpensToStep(s: Session, i: Interruption, hooks: Hooks) {
    i.OtherTurn? && OtherOpening(s, i, hooks).Steps?
  }

  /** Anything but such a turn hands nothing to a tool. */
  lemma OnlyStepsInvoke(s: Session, i: Interruption, hooks: Hooks)
    requires !OpensToStep(s, i, hooks)
    ensures Interrupt(s, i, hooks).invoked == s.invoked && s.log <= Interrupt(s, i, hooks).log
  {
    match i
    case Lands(o) => G.LandAdds(s, o);
    case Says(content, land) =>
      H.MessageAdds(if s.status.Finished? then SetStatus(s, Idle) else s, content, hooks, land, {});
    case OtherTurn(stop, _, _, land, _) =>
      if s.status.Finished? && stop.Deny? {
        H.MessageAdds(s, "[Stop hook feedback] " + stop.feedback, hooks, land, {});
      }
    case _ =>
  }

  /** With something pending, what comes between two turns executes some of it exactly if it is a turn of
      another run that gets to its step and to an action with a tool that no hook has blocked. */
  lemma PendingExecutedExactly(s: Session, i: Interruption, hooks: Hooks)
    requires Pending(s.log) != [] && forall a :: a in Pending(s.log) ==> a.ActionEvent?
    ensures Interrupt(s, i, hooks).invoked != s.invoked
       <==> OpensToStep(s, i, hooks)
            && exists k: nat :: k < |Pending(s.log)|
                 && H.CallsTool(I.Let(Resume(s), i.land), Pending(s.log), k, i.input.tool, i.land)
  {
    if OpensToStep(s, i, hooks) {
      ResumeKeepsPending(s);
      PendingStepInvokesExactly(Resume(s), i.input, hooks, i.land);
    } else {
      OnlyStepsInvoke(s, i, hooks);
    }
  }

  /** The same for the run's own turn. */
  lemma OwnTurnExecutesExactly(s: Session, w: Surroundings, turn: nat, hooks: Hooks)
    requires Pending(s.log) != [] && forall a :: a in Pending(s.log) ==> a.ActionEvent?
    requires OpeningOf(MachineOf(w, hooks), s, turn).Steps?
    ensures var r := Resume(s);
            MachineOf(w, hooks).step(r, turn).s.invoked != s.invoked <==>
              exists k: nat :: k < |Pending(s.log)|
                && H.CallsTool(I.Let(r, w.during), Pending(s.log), k, w.input(r, turn).tool, w.during)
  {
    ResumeKeepsPending(s);
    PendingStepInvokesExactly(Resume(s), w.input(Resume(s), turn), hooks, w.during);
  }

  /** The session before the k-th interruption. */
  function BeforeNth(s: Session, others: seq<Interruption>, k: nat, hooks: Hooks): Session
    requires k <= |others|
  {
    InterruptAll(s, others[..k], hooks)
  }

  /** So over any interruptions in which no such turn occurs, nothing is executed. */
  lemma {:induction false} NothingExecutedWithoutTurns(s: Session, others: seq<Interruption>, hooks: Hooks)
    requires forall k :: 0 <= k < |others| ==> !OpensToStep(BeforeNth(s, others, k, hooks), others[k], hooks)
    ensures InterruptAll(s, others, hooks).invoked == s.invoked
    decreases |others|
  {
    if |others| > 0 {
      assert others[..0] == [] && !OpensToStep(BeforeNth(s, others, 0, hooks), others[0], hooks);
      OnlyStepsInvoke(s, others[0], hooks);
      var t, rest := Interrupt(s, others[0], hooks), others[1..];
      forall k | 0 <= k < |rest| ensures !OpensToStep(BeforeNth(t, rest, k, hooks), rest[k], hooks) {
        assert others[..k + 1][0] == others[0] && others[..k + 1][1..] == rest[..k];
        assert !OpensToStep(BeforeNth(s, others, k + 1, hooks), others[k + 1], hooks);
      }
      NothingExecutedWithoutTurns(t, rest, hooks);
    }
  }

  /** The user's answer is to run again: unless something intervenes, the first step of the next run is
      on the same pending actions. */
  lemma ConfirmedBatchComesFirst(s: Session, w: Surroundings, hooks: Hooks)
    requires Inv(s, hooks) && s.status.Waiting? && Pending(s.log) != []
    requires w.between(s, 0) == [] && !w.stuck(s.log)
    ensures forall a :: a in Pending(s.log) ==> a.ActionEvent?
    ensures Begin(s) == s && OpeningOf(MachineOf(w, hooks), s, 0) == Steps(Resume(s))
    ensures MachineOf(w, hooks).step(Resume(s), 0)
         == I.ExecuteActions(I.Let(Resume(s), w.during), Pending(s.log), w.input(Resume(s), 0).tool, w.during)
  {
    ResumeKeepsPending(s);
    PendingAreExecutable(s.log, 0);
  }

  // ----- the steps of a run -------------------------------------------------------------------------

  /** A step that some run takes: the session it starts from and its surroundings. */
  datatype Taken = Taken(s: Session, input: StepInput, land: I.Landing)

  ghost predicate SomeCalls(steps: seq<Taken>, x: EventId) {
    exists k :: 0 <= k < |steps| && StepCalls(steps[k].s, steps[k].input, steps[k].land, x)
  }

  lemma SomeCallsConcat(a: seq<Taken>, b: seq<Taken>, x: EventId)
    ensures SomeCalls(a + b, x) <==> SomeCalls(a, x) || SomeCalls(b, x)
  {
    if k :| 0 <= k < |a| && StepCalls(a[k].s, a[k].input, a[k].land, x) {
      assert (a + b)[k] == a[k];
    }
    if k :| 0 <= k < |b| && StepCalls(b[k].s, b[k].input, b[k].land, x) {
      assert (a + b)[|a| + k] == b[k];
    }
  }

  lemma OneCalls(t: Taken, x: EventId)
    ensures SomeCalls([t], x) <==> StepCalls(t.s, t.input, t.land, x)
  {
    assert [t][0] == t;
  }

  function StepTaken(s: Session, i: Interruption, hooks: Hooks): seq<Taken> {
    if OpensToStep(s, i, hooks) then [Taken(OtherOpening(s, i, hooks).s, i.input, i.land)] else []
  }

  /** The steps other runs take among the interruptions. */
  function StepsAmong(s: Session, others: seq<Interruption>, hooks: Hooks): seq<Taken>
    decreases |others|
  {
    if |others| == 0 then []
    else StepTaken(s, others[0], hooks) + StepsAmong(Interrupt(s, others[0], hooks), others[1..], hooks)
  }

  /** The steps of one turn of a run: those of other runs before it, its own, and, if it raises, those before
      its error is stored. */
  function StepsInTurn(w: Surroundings, hooks: Hooks, s: Session, turn: nat): seq<Taken> {
    StepsAmong(s, w.between(s, turn), hooks) + OwnSteps(w, hooks, InterruptAll(s, w.between(s, turn), hooks), turn)
  }

  function OwnSteps(w: Surroundings, hooks: Hooks, s: Session, turn: nat): seq<Taken> {
    match OpeningOf(MachineOf(w, hooks), s, turn)
    case Steps(r) =>
      var o := I.Step(r, w.input(r, turn), hooks, w.during);
      [Taken(r, w.input(r, turn), w.during)] + AfterRaise(w, hooks, o, turn)
    case _ => []
  }

  function AfterRaise(w: Surroundings, hooks: Hooks, o: Outcome, turn: nat): seq<Taken> {
    if o.raised then StepsAmong(o.s, w.between(o.s, turn + 1), hooks) else []
  }

  /** The session a step leaves, with what its ending does. */
  function StepLeft(m: Machine, o: Outcome, turn: nat, c: Tally): Session {
    match EndingOf(m, o, turn, c.steps)
    case Goes => o.s
    case Ends(t, _) => t
  }

  /** All steps, own and others, of a run from one turn on. */
  function StepsFrom(w: Surroundings, hooks: Hooks, s: Session, turn: nat, c: Tally): seq<Taken>
    requires EventuallyAlone(w) && c.steps < MachineOf(w, hooks).Cap()
    decreases MachineOf(w, hooks).Cap() - c.steps, MachineOf(w, hooks).Unquiet(turn), Rank(s.status)
  {
    StepsInTurn(w, hooks, s, turn)
    + match TurnOf(MachineOf(w, hooks), s, turn, c)
      case Done(_) => []
      case More(t, c1) =>
        MachineIsOrderly(w, hooks);
        TurnDescends(MachineOf(w, hooks), s, turn, c);
        StepsFrom(w, hooks, t, turn + 1, c1)
  }

  // ----- what they execute --------------------------------------------------------------------------

  /** From s to t the log has grown, and x was handed to a tool exactly if calls. */
  ghost predicate InvokedIf(s: Session, t: Session, x: EventId, calls: bool) {
    s.log <= t.log && (x in t.invoked <==> x in s.invoked || calls)
  }

  lemma InvokedThen(s: Session, t: Session, u: Session, x: EventId, calls: bool, more: bool)
    requires InvokedIf(s, t, x, calls) && InvokedIf(t, u, x, more)
    ensures InvokedIf(s, u, x, calls || more)
  {
  }

  lemma StaysStored(log: seq<Event>, log': seq<Event>, x: EventId)
    requires x in Ids(log) && log <= log'
    ensures x in Ids(log')
  {
    var a :| a in log && a.id == x;
    var k :| 0 <= k < |log| && log[k] == a;
    assert log'[k] == a;
  }

  lemma StepInvokes(s: Session, input: StepInput, hooks: Hooks, land: I.Landing, x: EventId)
    requires Inv(s, hooks) && FreshInput(s, input) && x in Ids(s.log)
    ensures InvokedIf(s, I.Step(s, input, hooks, land).s, x, StepCalls(s, input, land, x))
  {
    FreshId(s);
    StepInvokesExactly(s, input, hooks, land, x);
  }

  lemma OtherTurnInvokes(s: Session, i: Interruption, hooks: Hooks, x: EventId)
    requires Inv(s, hooks) && FreshInterruption(s, i) && OpensToStep(s, i, hooks) && x in Ids(s.log)
    ensures InvokedIf(s, Interrupt(s, i, hooks), x, StepCalls(OtherOpening(s, i, hooks).s, i.input, i.land, x))
  {
    var r := OtherOpening(s, i, hooks).s;
    OtherOpeningInv(s, i, hooks);
    ResumeFresh(s, i.input);
    ResumeKeepsPending(s);
    StaysStored(s.log, r.log, x);
    StepInvokes(r, i.input, hooks, i.land, x);
  }

  lemma InterruptInvokes(s: Session, i: Interruption, hooks: Hooks, x: EventId)
    requires Inv(s, hooks) && FreshInterruption(s, i) && x in Ids(s.log)
    ensures InvokedIf(s, Interrupt(s, i, hooks), x, SomeCalls(StepTaken(s, i, hooks), x))
  {
    if OpensToStep(s, i, hooks) {
      OtherTurnInvokes(s, i, hooks, x);
      OneCalls(Taken(OtherOpening(s, i, hooks).s, i.input, i.land), x);
    } else {
      OnlyStepsInvoke(s, i, hooks);
    }
  }

  /** Over any interruptions, an action stored before is handed to its tool exactly if some turn of another
      run gets to its step and in it to the action: pending, unblocked and with its tool there. */
  lemma {:induction false} InterruptionsInvoke(s: Session, others: seq<Interruption>, hooks: Hooks, x: EventId)
    requires Inv(s, hooks) && FreshInterruptions(s, others, hooks) && x in Ids(s.log)
    ensures InvokedIf(s, InterruptAll(s, others, hooks), x, SomeCalls(StepsAmong(s, others, hooks), x))
    decreases |others|
  {
    if |others| > 0 {
      var t, rest := Interrupt(s, others[0], hooks), others[1..];
      InterruptInvokes(s, others[0], hooks, x);
      InterruptInv(s, others[0], hooks);
      StaysStored(s.log, t.log, x);
      InterruptionsInvoke(t, rest, hooks, x);
      SomeCallsConcat(StepTaken(s, others[0], hooks), StepsAmong(t, rest, hooks), x);
    }
  }

  /** The session a turn leaves. */
  function Left(p: Progress): Session {
    match p
    case Done(r) => r.s
    case More(s, _) => s
  }

  lemma FailInvokesNothing(s: Session)
    ensures s.log <= Fail(s).log && Fail(s).invoked == s.invoked
  {
  }

  lemma EndingInvokes(w: Surroundings, hooks: Hooks, r: Session, turn: nat, c: Tally, x: EventId)
    requires Inv(r, hooks) && Fresh(w, hooks) && x in Ids(r.log)
    ensures var m := MachineOf(w, hooks);
            var o := m.step(r, turn);
            InvokedIf(r, StepLeft(m, o, turn, c), x,
                      StepCalls(r, w.input(r, turn), w.during, x) || SomeCalls(AfterRaise(w, hooks, o, turn), x))
  {
    var o := I.Step(r, w.input(r, turn), hooks, w.during);
    StepInvokes(r, w.input(r, turn), hooks, w.during, x);
    if o.raised {
      G.StepInv(r, w.input(r, turn), hooks, w.during);
      StaysStored(r.log, o.s.log, x);
      InterruptionsInvoke(o.s, w.between(o.s, turn + 1), hooks, x);
      FailInvokesNothing(InterruptAll(o.s, w.between(o.s, turn + 1), hooks));
    } else {
      FailInvokesNothing(o.s);
    }
  }

  lemma OwnStepsInvoke(w: Surroundings, hooks: Hooks, s: Session, turn: nat, c: Tally, x: EventId)
    requires Inv(s, hooks) && Fresh(w, hooks) && x in Ids(s.log) && OpeningOf(MachineOf(w, hooks), s, turn).Steps?
    ensures var m := MachineOf(w, hooks);
            InvokedIf(s, StepLeft(m, m.step(Resume(s), turn), turn, c), x, SomeCalls(OwnSteps(w, hooks, s, turn), x))
  {
    var r := Resume(s);
    BeginInv(s, hooks);
    ResumeKeepsPending(s);
    StaysStored(s.log, r.log, x);
    EndingInvokes(w, hooks, r, turn, c, x);
    var o := I.Step(r, w.input(r, turn), hooks, w.during);
    OneCalls(Taken(r, w.input(r, turn), w.during), x);
    SomeCallsConcat([Taken(r, w.input(r, turn), w.during)], AfterRaise(w, hooks, o, turn), x);
  }

  /** The session a turn leaves from the point where the others have been. */
  function OwnLeft(m: Machine, s: Session, turn: nat, c: Tally): Session {
    match OpeningOf(m, s, turn)
    case Steps(r) => StepLeft(m, m.step(r, turn), turn, c)
    case opening => opening.s
  }

  lemma LeftIsOwnLeft(m: Machine, s: Session, turn: nat, c: Tally)
    ensures Left(TurnOf(m, s, turn, c)) == OwnLeft(m, m.interrupt(s, turn), turn, c)
  {
  }

  lemma OwnTurnInvokes(w: Surroundings, hooks: Hooks, s: Session, turn: nat, c: Tally, x: EventId)
    requires Inv(s, hooks) && Fresh(w, hooks) && x in Ids(s.log)
    ensures InvokedIf(s, OwnLeft(MachineOf(w, hooks), s, turn, c), x, SomeCalls(OwnSteps(w, hooks, s, turn), x))
  {
    var m := MachineOf(w, hooks);
    match OpeningOf(m, s, turn)
    case Steps(_) => OwnStepsInvoke(w, hooks, s, turn, c, x);
    case Retries(_, denied) =>
      if denied {
        DeniedInvokes(s, m.stop(s, turn).feedback, hooks, w.during);
      }
    case Leaves(_) =>
  }

  lemma TurnInvokes(w: Surroundings, hooks: Hooks, s: Session, turn: nat, c: Tally, x: EventId)
    requires Inv(s, hooks) && Fresh(w, hooks) && x in Ids(s.log)
    ensures InvokedIf(s, Left(TurnOf(MachineOf(w, hooks), s, turn, c)), x, SomeCalls(StepsInTurn(w, hooks, s, turn), x))
  {
    var m, others := MachineOf(w, hooks), w.between(s, turn);
    var t := InterruptAll(s, others, hooks);
    InterruptionsInvoke(s, others, hooks, x);
    InterruptAllInv(s, others, hooks);
    StaysStored(s.log, t.log, x);
    OwnTurnInvokes(w, hooks, t, turn, c, x);
    LeftIsOwnLeft(m, s, turn, c);
    SomeCallsConcat(StepsAmong(s, others, hooks), OwnSteps(w, hooks, t, turn), x);
  }

  lemma DeniedInvokes(s: Session, feedback: string, hooks: Hooks, land: I.Landing)
    ensures s.log <= Denied(s, feedback, hooks, land).log && Denied(s, feedback, hooks, land).invoked == s.invoked
  {
    if feedback != "" {
      H.MessageAdds(s, "[Stop hook feedback] " + feedback, hooks, land, {});
    }
  }

  lemma TurnKeepsInv(w: Surroundings, hooks: Hooks, s: Session, turn: nat, c: Tally)
    requires Inv(s, hooks) && Fresh(w, hooks)
    ensures Inv(Left(TurnOf(MachineOf(w, hooks), s, turn, c)), hooks)
  {
    MachineKeeps(w, hooks);
    TurnKeeps(MachineOf(w, hooks), t => Inv(t, hooks), (t, u) => HoldsSomeBatch(t, u, w, hooks), s, turn, c);
  }

  /** Main result: over a whole run, an action stored before is handed to its tool exactly if some step, of
      this run or of another one on the runner, gets to it: pending, unblocked and with its tool there. */
  lemma {:induction false} RunInvokesExactly(w: Surroundings, hooks: Hooks, s: Session, turn: nat, c: Tally, x: EventId)
    requires EventuallyAlone(w) && Fresh(w, hooks) && Inv(s, hooks) && x in Ids(s.log)
    requires MachineOf(w, hooks).Orderly() && c.steps < MachineOf(w, hooks).Cap()
    ensures InvokedIf(s, RunFrom(MachineOf(w, hooks), s, turn, c).s, x, SomeCalls(StepsFrom(w, hooks, s, turn, c), x))
    decreases MachineOf(w, hooks).Cap() - c.steps, MachineOf(w, hooks).Unquiet(turn), Rank(s.status)
  {
    var m := MachineOf(w, hooks);
    TurnInvokes(w, hooks, s, turn, c, x);
    match TurnOf(m, s, turn, c)
    case Done(_) =>
      assert StepsFrom(w, hooks, s, turn, c) == StepsInTurn(w, hooks, s, turn);
    case More(t, c1) =>
      TurnDescends(m, s, turn, c);
      TurnKeepsInv(w, hooks, s, turn, c);
      StaysStored(s.log, t.log, x);
      RunInvokesExactly(w, hooks, t, turn + 1, c1, x);
      SomeCallsConcat(StepsInTurn(w, hooks, s, turn), StepsFrom(w, hooks, t, turn + 1, c1), x);
  }

  // ----- a batch that needs confirmation ------------------------------------------------------------

  /** The step that stores such a batch stops its run exactly if nothing takes WAITING away when it is
      published. Otherwise the run goes on, or fails if that was its last step. */
  lemma BatchStopsRunExactly(w: Surroundings, hooks: Hooks, s: Session, turn: nat, c: Tally, r: Session)
    requires OpeningOf(MachineOf(w, hooks), MachineOf(w, hooks).interrupt(s, turn), turn) == Steps(r)
    requires Inv(r, hooks) && FreshInput(r, w.input(r, turn)) && GetsBatch(r, w.input(r, turn), hooks, w.during)
    ensures var m := MachineOf(w, hooks);
            var h, p := m.step(r, turn).s, TurnOf(m, s, turn, c);
            var stops := LeavesWaiting(w.during(Asking(r, w.input(r, turn), hooks, w.during)));
            && (stops ==> p.Done? && p.r.s == h && h.status.Waiting? && !p.r.raised)
            && (!stops && c.steps + 1 < w.maxIterations ==> p.More? && p.s == h)
            && (!stops && c.steps + 1 >= w.maxIterations ==> p.Done? && p.r.s == Fail(h) && !p.r.raised)
  {
    BatchIsHeld(r, w.input(r, turn), hooks, w.during);
  }

  lemma BatchIsNew(s: Session, input: StepInput, hooks: Hooks, land: I.Landing, a: Event)
    requires Inv(s, hooks) && FreshInput(s, input) && GetsBatch(s, input, hooks, land)
    requires a in BatchOf(s, input, hooks, land)
    ensures var t := I.Step(s, input, hooks, land).s; a.id in Ids(t.log) && a.id !in t.invoked
  {
    var s1, reply := I.Let(s, land), input.llm.reply;
    var s2 := I.GetActionEvents(s1, reply, 0, hooks, land);
    G.LetInv(s, land, hooks);
    G.StillFresh(s, s1, input);
    G.GetActionEventsInv(s1, reply, hooks, land);
    G.NewActionsAreHeld(s1, reply, hooks, land);
    assert G.Held(a, s2, hooks);
    I.NewActionsAreActions(s1, reply, 0, hooks, land);
    G.LetAdds(SetStatus(s2, Waiting), land);
    BatchIsHeld(s, input, hooks, land);
    StaysStored(s2.log, I.Step(s, input, hooks, land).s.log, a.id);
    H.IssuedSparesAll(I.NewActions(s1, reply, 0, hooks, land), s1.next, s.invoked);
  }

  ghost predicate AnyInvoked(batch: seq<Event>, s: Session) {
    exists a :: a in batch && a.id in s.invoked
  }

  ghost predicate AnyCalled(batch: seq<Event>, steps: seq<Taken>) {
    exists a :: a in batch && SomeCalls(steps, a.id)
  }

  lemma NewInRun(w: Surroundings, hooks: Hooks, s: Session, turn: nat, c: Tally, x: EventId)
    requires EventuallyAlone(w) && Fresh(w, hooks) && Inv(s, hooks) && x in Ids(s.log) && x !in s.invoked
    requires MachineOf(w, hooks).Orderly() && c.steps < MachineOf(w, hooks).Cap()
    ensures x in RunFrom(MachineOf(w, hooks), s, turn, c).s.invoked <==> SomeCalls(StepsFrom(w, hooks, s, turn, c), x)
  {
    RunInvokesExactly(w, hooks, s, turn, c, x);
  }

  ghost predicate NewBatch(batch: seq<Event>, s: Session) {
    forall a :: a in batch ==> a.id in Ids(s.log) && a.id !in s.invoked
  }

  lemma NewBatchInRun(w: Surroundings, hooks: Hooks, s: Session, turn: nat, c: Tally, batch: seq<Event>)
    requires EventuallyAlone(w) && Fresh(w, hooks) && Inv(s, hooks) && NewBatch(batch, s)
    requires MachineOf(w, hooks).Orderly() && c.steps < MachineOf(w, hooks).Cap()
    ensures AnyInvoked(batch, RunFrom(MachineOf(w, hooks), s, turn, c).s) <==>
            AnyCalled(batch, StepsFrom(w, hooks, s, turn, c))
  {
    forall a | a in batch
      ensures a.id in RunFrom(MachineOf(w, hooks), s, turn, c).s.invoked <==>
              SomeCalls(StepsFrom(w, hooks, s, turn, c), a.id)
    {
      NewInRun(w, hooks, s, turn, c, a.id);
    }
  }

  lemma BatchAllNew(s: Session, input: StepInput, hooks: Hooks, land: I.Landing)
    requires Inv(s, hooks) && FreshInput(s, input) && GetsBatch(s, input, hooks, land)
    ensures var t := I.Step(s, input, hooks, land).s; NewBatch(BatchOf(s, input, hooks, land), t) && Inv(t, hooks)
  {
    G.StepInv(s, input, hooks, land);
    forall a | a in BatchOf(s, input, hooks, land)
      ensures var t := I.Step(s, input, hooks, land).s; a.id in Ids(t.log) && a.id !in t.invoked
    {
      BatchIsNew(s, input, hooks, land, a);
    }
  }

  /** Main result: after a step has stored such a batch, and as the run goes on, something of the batch is
      handed to a tool exactly if some step, of this run or of another one, gets to an action of it. No
      new call of run is needed. */
  lemma HeldBatchExecutedExactly(w: Surroundings, hooks: Hooks, r: Session, turn: nat, c: Tally,
                                 h: Session, batch: seq<Event>)
    requires EventuallyAlone(w) && Fresh(w, hooks) && Inv(r, hooks)
    requires MachineOf(w, hooks).Orderly() && c.steps < MachineOf(w, hooks).Cap()
    requires GetsBatch(r, w.input(r, turn), hooks, w.during)
    requires h == I.Step(r, w.input(r, turn), hooks, w.during).s
    requires batch == BatchOf(r, w.input(r, turn), hooks, w.during)
    ensures AnyInvoked(batch, RunFrom(MachineOf(w, hooks), h, turn + 1, c).s) <==>
            AnyCalled(batch, StepsFrom(w, hooks, h, turn + 1, c))
  {
    BatchAllNew(r, w.input(r, turn), hooks, w.during);
    NewBatchInRun(w, hooks, h, turn + 1, c, batch);
  }

  /** And after the run has stopped, exactly if a turn of another run does. */
  lemma StoppedBatchExecutedExactly(s: Session, input: StepInput, hooks: Hooks, land: I.Landing,
                                    others: seq<Interruption>)
    requires Inv(s, hooks) && FreshInput(s, input) && GetsBatch(s, input, hooks, land)
    requires FreshInterruptions(I.Step(s, input, hooks, land).s, others, hooks)
    ensures var h, batch := I.Step(s, input, hooks, land).s, BatchOf(s, input, hooks, land);
            AnyInvoked(batch, InterruptAll(h, others, hooks)) <==> AnyCalled(batch, StepsAmong(h, others, hooks))
  {
    var h := I.Step(s, input, hooks, land).s;
    G.StepInv(s, input, hooks, land);
    forall a | a in BatchOf(s, input, hooks, land)
      ensures a.id in InterruptAll(h, others, hooks).invoked <==> SomeCalls(StepsAmong(h, others, hooks), a.id)
    {
      BatchIsNew(s, input, hooks, land, a);
      InterruptionsInvoke(h, others, hooks, a.id);
    }
  }

  // ----- a run that executes its own batch ----------------------------------------------------------

  /** Nobody else comes between the turns, and whenever WAITING is published the status is reset to IDLE. */
  ghost predicate ResetsWaiting(w: Surroundings, input: StepInput) {
    && (forall u: Session, n: nat :: w.between(u, n) == [] && w.input(u, n) == input)
    && (forall log :: !w.stuck(log)) && w.maxIterations == 2 && w.quiet == 0
    && forall u :: w.during(u) == if u.status.Waiting? then [I.Idles] else []
  }

  lemma LetResets(u: Session, w: Surroundings, input: StepInput)
    requires ResetsWaiting(w, input)
    ensures I.Let(u, w.during) == if u.status.Waiting? then SetStatus(u, Idle) else u
  {
    assert [I.Idles][1..] == [];
    assert I.LandAll(I.Land(u, I.Idles), []) == I.Land(u, I.Idles);
  }

  /** A session about to get a reply with one executable call, which no hook blocks. */
  ghost predicate GetsOneCall(s: Session, reply: Reply, hooks: Hooks) {
    && Inv(s, hooks) && FreshReply(s, reply) && ReachesLLM(s) && s.status.Running?
    && |reply.calls| == 1 && reply.calls[0].error.None? && reply.calls[0].toolCall.name !in [FINISH, THINK]
    && hooks.preToolUse(ActionFor(s, reply, 0)).None? && Raw(s.next) !in s.blockedActions
  }

  lemma OneCallStored(s: Session, reply: Reply, input: StepInput, w: Surroundings, hooks: Hooks)
    requires GetsOneCall(s, reply, hooks) && ResetsWaiting(w, input)
    ensures var a := ActionFor(s, reply, 0);
            && I.GetActionEvents(s, reply, 0, hooks, w.during) == s.(log := s.log + [a], next := s.next + 1)
            && I.NewActions(s, reply, 0, hooks, w.during) == [a]
  {
    var a := ActionFor(s, reply, 0);
    LetResets(s.(next := s.next + 1), w, input);
    var s1 := s.(log := s.log + [a], next := s.next + 1);
    LetResets(s1, w, input);
    assert I.GetActionEvent(s, reply, 0, hooks, w.during) == s1;
    assert I.GetActionEvents(s1, reply, 1, hooks, w.during) == s1;
    assert I.NewActions(s1, reply, 1, hooks, w.during) == [];
  }

  lemma PendingAfterReset(s: Session, a: Event, s1: Session)
    requires Pending(s.log) == [] && IsExecutable(a) && s1 == s.(log := s.log + [a], next := s.next + 1)
    requires !s1.status.Waiting? && !s1.status.Idle?
    ensures Pending(SetStatus(SetStatus(s1, Waiting), Idle).log) == [a]
  {
    var n1, n2 := StateEvent(Raw(s1.next), "execution_status"), StateEvent(Raw(s1.next + 1), "execution_status");
    assert SetStatus(SetStatus(s1, Waiting), Idle).log == s.log + [a] + [n1] + [n2];
    PendingAppend(s.log, a, 0);
    PendingAppend(s.log + [a], n1, 0);
    PendingAppend(s.log + [a] + [n1], n2, 0);
  }

  /** After the first step the batch is pending, and the status is IDLE. */
  lemma FirstStep(s: Session, reply: Reply, input: StepInput, w: Surroundings, hooks: Hooks)
    requires GetsOneCall(s, reply, hooks) && ResetsWaiting(w, input)
    requires input.condense.KeepView? && input.llm == Replied(reply) && forall a: Event :: input.risky(a)
    ensures GetsBatch(s, input, hooks, w.during)
    ensures var o, a := I.Step(s, input, hooks, w.during), ActionFor(s, reply, 0);
            && !o.raised && o.s.status.Idle? && Pending(o.s.log) == [a] && o.s.invoked == s.invoked
            && o.s.blockedActions == s.blockedActions
  {
    var a := ActionFor(s, reply, 0);
    var s1 := s.(log := s.log + [a], next := s.next + 1);
    LetResets(s, w, input);
    OneCallStored(s, reply, input, w, hooks);
    assert input.risky([a][0]);
    var asking := SetStatus(s1, Waiting);
    LetResets(asking, w, input);
    PendingAfterReset(s, a, s1);
  }

  /** The next step executes it. */
  lemma SecondStep(h: Session, a: Event, input: StepInput, w: Surroundings, hooks: Hooks)
    requires ResetsWaiting(w, input) && h.status.Idle? && Pending(h.log) == [a] && a.ActionEvent?
    requires a.id !in h.blockedActions && input.tool(a).Observed?
    ensures var o := I.Step(h, input, hooks, w.during);
            !o.raised && o.s.invoked == h.invoked + [a.id] && !o.s.status.Waiting?
  {
    LetResets(h, w, input);
    ExecutedOne(h, a, input.tool, w.during);
    assert [a][1..] == [];
    ExecutionNeverWaits(h, [a], input.tool, w.during);
  }

  lemma FirstTurn(s: Session, h: Session, m: Machine, c: Tally)
    requires m.interrupt(s, 0) == s && m.finishing(s, 0) == 0 && s.status.Running? && !m.stuck(s.log)
    requires m.step(s, 0) == Outcome(h, false) && h.status.Idle? && m.maxIterations == 2 && c == Tally(1, 0, 0, Some(s))
    ensures TurnOf(m, s, 0, NOTHING) == More(h, c)
  {
  }

  lemma SecondTurn(h: Session, m: Machine, c: Tally)
    requires m.interrupt(h, 1) == h && h.status.Idle? && !m.stuck(h.log) && m.maxIterations == 2 && c.steps == 1
    requires !m.step(h, 1).raised && !m.step(h, 1).s.status.Waiting?
    ensures TurnOf(m, h, 1, c).Done? && TurnOf(m, h, 1, c).r.s == Fail(m.step(h, 1).s)
  {
  }

  lemma ResetRun(s: Session, reply: Reply, input: StepInput, w: Surroundings, hooks: Hooks)
    requires GetsOneCall(s, reply, hooks) && ResetsWaiting(w, input) && EventuallyAlone(w)
    requires input.condense.KeepView? && input.llm == Replied(reply) && forall a: Event :: input.risky(a)
    requires forall a: Event :: input.tool(a).Observed?
    ensures Run(s, w, hooks).s.invoked == s.invoked + [ActionFor(s, reply, 0).id]
  {
    var m := MachineOf(w, hooks);
    MachineIsOrderly(w, hooks);
    FirstStep(s, reply, input, w, hooks);
    var h, c := m.step(s, 0).s, Tally(1, 0, 0, Some(s));
    FirstTurn(s, h, m, c);
    SecondStep(h, ActionFor(s, reply, 0), input, w, hooks);
    SecondTurn(h, m, c);
    assert Begin(s) == s;
    assert RunFrom(m, s, 0, NOTHING) == RunFrom(m, h, 1, c);
  }

  /** So a run can execute a batch that it has just asked the user to confirm. It takes nothing but a reset
      of WAITING, which a rejection makes before it stores its answers. */
  lemma ResetBatchIsExecuted(s: Session, reply: Reply, hooks: Hooks) returns (w: Surroundings)
    requires GetsOneCall(s, reply, hooks)
    ensures EventuallyAlone(w) && forall u: Session, n: nat :: w.between(u, n) == []
    ensures GetsBatch(s, w.input(s, 0), hooks, w.during)
    ensures Run(s, w, hooks).s.invoked == s.invoked + [ActionFor(s, reply, 0).id]
  {
    var input := StepInput(e => Observed("done"), e => true, KeepView, Replied(reply), false);
    w := Surroundings((u: Session, n: nat) => [], (u: Session, n: nat) => Allow, log => false,
                      (u: Session, n: nat) => input,
                      (u: Session) => if u.status.Waiting? then [I.Idles] else [], 2, 0);
    FirstStep(s, reply, input, w, hooks);
    ResetRun(s, reply, input, w, hooks);
  }
}
