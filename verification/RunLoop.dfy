/** AgentRunner.run as a function of what surrounds it: how it ends, how often it steps, and what holds
    when it waits for the user. Other runs on the same runner take turns in between, as its lock is held
    for one turn at a time. */
module RunLoop {
  import opened Events
  import opened Unmatched
  import opened Session
  import opened SessionInvariant
  import opened Confirmation
  import E = Execution
  import G = InterleavedInvariant
  import H = InterleavedSafety
  import I = Interleaved

  datatype StopVerdict = Allow | Deny(feedback: string)

  /** What happens to the session between two turns of a run. */
  datatype Interruption =
    | Lands(o: I.Outside)
    | Says(content: string, land: I.Landing)
    | OtherBegins                            // run() is called again
    | OtherTurn(stop: StopVerdict, stuck: bool, input: StepInput, land: I.Landing, last: bool)

  ghost predicate Unfailing(land: I.Landing) {
    forall s, k :: 0 <= k < |land(s)| ==> !land(s)[k].Fails?
  }

  /** No other run has a part in it. */
  ghost predicate OfNoRun(i: Interruption) {
    match i
    case Lands(o) => !o.Fails?
    case Says(_, land) => Unfailing(land)
    case _ => false
  }

  // ----- turns --------------------------------------------------------------------------------------

  function Begin(s: Session): Session {
    if s.status.Idle? || s.status.Paused? || s.status.Failed? then MarkRunning(s) else s
  }

  /** The stop hook denies: its feedback, if any, becomes a user message and the run goes on. */
  function Denied(s: Session, feedback: string, hooks: Hooks, land: I.Landing): Session {
    MarkRunning(if feedback != "" then I.UserMessage(s, "[Stop hook feedback] " + feedback, hooks, land) else s)
  }

  /** ERROR, with the error stored. */
  function Fail(s: Session): Session {
    Note(SetStatus(s, Failed), "conversation_error")
  }

  function Resume(s: Session): Session {
    if s.status.Waiting? then MarkRunning(s) else s
  }

  datatype Opening = Leaves(s: Session) | Retries(s: Session, denied: bool) | Steps(s: Session)

  /** What a turn does before it steps, if it gets that far; denied is what a denial leaves. */
  function Opens(s: Session, stop: StopVerdict, stuck: bool, denied: Session): Opening {
    if s.status.Paused? || s.status.Stuck? then Leaves(s)
    else if s.status.Finished? then if stop.Deny? then Retries(denied, true) else Leaves(s)
    else if stuck then Retries(SetStatus(s, Stuck), false)
    else Steps(Resume(s))
  }

  function OpeningUnder(s: Session, stop: StopVerdict, stuck: bool, hooks: Hooks, land: I.Landing): Opening {
    Opens(s, stop, stuck, if stop.Deny? then Denied(s, stop.feedback, hooks, land) else s)
  }

  function OtherOpening(s: Session, i: Interruption, hooks: Hooks): Opening
    requires i.OtherTurn?
  {
    OpeningUnder(s, i.stop, i.stuck, hooks, i.land)
  }

  /** What a turn of another run leaves. If its step raises, its error comes later. */
  function OtherTurnLeaves(s: Session, i: Interruption, hooks: Hooks): Session
    requires i.OtherTurn?
  {
    match OtherOpening(s, i, hooks)
    case Steps(r) =>
      var o := I.Step(r, i.input, hooks, i.land);
      if !o.raised && !o.s.status.Waiting? && i.last then Fail(o.s) else o.s
    case opening => opening.s
  }

  function Interrupt(s: Session, i: Interruption, hooks: Hooks): Session {
    match i
    case Lands(o) => I.Land(s, o)
    case Says(content, land) => I.Say(s, content, hooks, land)
    case OtherBegins => Begin(s)
    case OtherTurn(_, _, _, _, _) => OtherTurnLeaves(s, i, hooks)
  }

  function InterruptAll(s: Session, others: seq<Interruption>, hooks: Hooks): Session
    decreases |others|
  {
    if |others| == 0 then s else InterruptAll(Interrupt(s, others[0], hooks), others[1..], hooks)
  }

  /** How many of them are turns of another run that leave FINISHED. */
  function Finishing(s: Session, others: seq<Interruption>, hooks: Hooks): nat
    decreases |others|
  {
    if |others| == 0 then 0
    else
      var t := Interrupt(s, others[0], hooks);
      (if others[0].OtherTurn? && t.status.Finished? then 1 else 0) + Finishing(t, others[1..], hooks)
  }

  /** The most turns the status alone allows before the next step or the end. */
  function Rank(status: Status): nat {
    if status.Finished? then 2 else if status.Paused? || status.Stuck? then 0 else 1
  }

  lemma {:induction false} LandingRank(s: Session, os: seq<I.Outside>)
    requires forall k :: 0 <= k < |os| ==> !os[k].Fails?
    ensures Rank(I.LandAll(s, os).status) <= Rank(s.status)
    decreases |os|
  {
    if |os| > 0 {
      LandingRank(I.Land(s, os[0]), os[1..]);
    }
  }

  lemma MessageRank(s: Session, content: string, hooks: Hooks, land: I.Landing)
    requires Unfailing(land)
    ensures Rank(I.UserMessage(s, content, hooks, land).status) <= Rank(s.status)
  {
    var m := MessageEvent(Raw(s.next), User, content);
    var s1 := s.(next := s.next + 1);
    var verdict := hooks.userPrompt(m);
    var s2 := s1;
    if verdict.Some? {
      var b := SetBlockedMessages(s1, s1.blockedMessages[m.id := verdict.value]);
      LandingRank(b, land(b));
      s2 := I.Let(b, land);
    }
    LandingRank(s2.(log := s2.log + [m]), land(s2.(log := s2.log + [m])));
  }

  lemma InterruptRank(s: Session, i: Interruption, hooks: Hooks)
    requires OfNoRun(i)
    ensures Rank(Interrupt(s, i, hooks).status) <= Rank(s.status)
  {
    match i
    case Lands(o) => LandingRank(s, [o]);
    case Says(content, land) => MessageRank(if s.status.Finished? then SetStatus(s, Idle) else s, content, hooks, land);
  }

  ghost predicate NoOthers(others: seq<Interruption>) {
    forall k :: 0 <= k < |others| ==> OfNoRun(others[k])
  }

  lemma {:induction false} InterruptAllRank(s: Session, others: seq<Interruption>, hooks: Hooks)
    requires NoOthers(others)
    ensures Rank(InterruptAll(s, others, hooks).status) <= Rank(s.status)
    decreases |others|
  {
    if |others| > 0 {
      InterruptRank(s, others[0], hooks);
      InterruptAllRank(Interrupt(s, others[0], hooks), others[1..], hooks);
    }
  }

  /** FINISHED comes from another run's turn, or was there. */
  lemma OnlyTurnsFinish(s: Session, i: Interruption, hooks: Hooks)
    requires Interrupt(s, i, hooks).status.Finished? && !i.OtherTurn?
    ensures s.status.Finished?
  {
    match i
    case Says(content, land) =>
      E.MessageFinishes(if s.status.Finished? then SetStatus(s, Idle) else s, content, hooks, land);
    case _ =>
  }

  lemma {:induction false} FinishingCounts(s: Session, others: seq<Interruption>, hooks: Hooks)
    requires InterruptAll(s, others, hooks).status.Finished?
    ensures s.status.Finished? || Finishing(s, others, hooks) >= 1
    decreases |others|
  {
    if |others| > 0 {
      var t := Interrupt(s, others[0], hooks);
      FinishingCounts(t, others[1..], hooks);
      if t.status.Finished? && !others[0].OtherTurn? {
        OnlyTurnsFinish(s, others[0], hooks);
      }
    }
  }

  // ----- the loop -----------------------------------------------------------------------------------

  /** The outside of a run. Everything but the two numbers may depend on the whole session and on the
      turn. From turn quiet on no other run takes part. */
  datatype Surroundings = Surroundings(
    between: (Session, nat) -> seq<Interruption>,
    stop: (Session, nat) -> StopVerdict,       // the stop hook; Allow when there is none
    stuck: seq<Event> -> bool,
    input: (Session, nat) -> StepInput,
    during: I.Landing,                         // what lands inside a step
    maxIterations: int,
    quiet: nat)

  ghost predicate EventuallyAlone(w: Surroundings) {
    forall s: Session, n: nat :: n >= w.quiet ==> NoOthers(w.between(s, n))
  }

  /** How a run ended; last is the session its last step started from, others the turns of other runs
      that left FINISHED. */
  datatype Report = Report(s: Session, raised: bool, steps: nat, denials: nat, others: nat, last: Option<Session>)

  /** The loop's parts as it sees them: what happens before a turn and how many other runs finished in
      it, the stop hook's denial and its effect, the stuck detector, and a step. */
  datatype Machine = Machine(
    interrupt: (Session, nat) -> Session,
    finishing: (Session, nat) -> nat,
    stop: (Session, nat) -> StopVerdict,
    deny: (Session, string) -> Session,
    stuck: seq<Event> -> bool,
    step: (Session, nat) -> Outcome,
    maxIterations: int,
    quiet: nat)
  {
    function Cap(): nat {
      if maxIterations > 1 then maxIterations else 1
    }

    /** FINISHED is counted if it comes from another run; without other runs no interruption brings the
        session closer to FINISHED, or back from PAUSED or STUCK; a denial sets it running. */
    ghost predicate Orderly() {
      && (forall s: Session, n: nat :: interrupt(s, n).status.Finished? ==> s.status.Finished? || finishing(s, n) >= 1)
      && (forall s: Session, n: nat :: n >= quiet ==> Rank(interrupt(s, n).status) <= Rank(s.status))
      && (forall s: Session, feedback: string :: deny(s, feedback).status.Running?)
    }

    function Unquiet(turn: nat): nat {
      if turn < quiet then quiet - turn else 0
    }
  }

  /** A turn of this run. */
  function OpeningOf(m: Machine, s: Session, turn: nat): Opening {
    var stop := m.stop(s, turn);
    Opens(s, stop, m.stuck(s.log), if stop.Deny? then m.deny(s, stop.feedback) else s)
  }

  datatype Ending = Goes | Ends(s: Session, raised: bool)

  /** How a step ends the run, if it does: by raising, by waiting for the user, or as the last one
      allowed. The lock is released before the error of a raise is stored. */
  function EndingOf(m: Machine, o: Outcome, turn: nat, iteration: nat): Ending {
    if o.raised then Ends(Fail(m.interrupt(o.s, turn + 1)), true)
    else if o.s.status.Waiting? then Ends(o.s, false)
    else if iteration + 1 >= m.maxIterations then Ends(Fail(o.s), false)
    else Goes
  }

  /** What has been counted so far. */
  datatype Tally = Tally(steps: nat, denials: nat, others: nat, last: Option<Session>)

  function ReportOf(s: Session, raised: bool, c: Tally): Report {
    Report(s, raised, c.steps, c.denials, c.others, c.last)
  }

  datatype Progress = Done(r: Report) | More(s: Session, c: Tally)

  /** One turn of the loop. */
  function TurnOf(m: Machine, s: Session, turn: nat, c: Tally): Progress {
    var c1 := c.(others := c.others + m.finishing(s, turn));
    match OpeningOf(m, m.interrupt(s, turn), turn)
    case Leaves(t) => Done(ReportOf(t, false, c1))
    case Retries(t, denied) => More(t, if denied then c1.(denials := c1.denials + 1) else c1)
    case Steps(r) =>
      var o := m.step(r, turn);
      match EndingOf(m, o, turn, c.steps)
      case Ends(t, raised) =>
        Done(ReportOf(t, raised, c1.(steps := if raised then c.steps else c.steps + 1, last := Some(r))))
      case Goes => More(o.s, c1.(steps := c.steps + 1, last := Some(r)))
  }

  /** Another step, or a turn closer to quiet, or a status closer to the end. */
  lemma TurnDescends(m: Machine, s: Session, turn: nat, c: Tally)
    requires m.Orderly() && c.steps < m.Cap() && TurnOf(m, s, turn, c).More?
    ensures var More(t, c1) := TurnOf(m, s, turn, c);
            && c.steps <= c1.steps < m.Cap()
            && (c1.steps == c.steps ==>
                (m.Unquiet(turn + 1) < m.Unquiet(turn)
                 || (m.Unquiet(turn + 1) == m.Unquiet(turn) && Rank(t.status) < Rank(s.status))))
  {
  }

  /** The loop from one turn on. */
  function RunFrom(m: Machine, s: Session, turn: nat, c: Tally): Report
    requires m.Orderly() && c.steps < m.Cap()
    decreases m.Cap() - c.steps, m.Unquiet(turn), Rank(s.status)
  {
    match TurnOf(m, s, turn, c)
    case Done(r) => r
    case More(t, c1) =>
      TurnDescends(m, s, turn, c);
      RunFrom(m, t, turn + 1, c1)
  }

  function MachineOf(w: Surroundings, hooks: Hooks): Machine {
    Machine((s: Session, n: nat) => InterruptAll(s, w.between(s, n), hooks),
            (s: Session, n: nat) => Finishing(s, w.between(s, n), hooks),
            w.stop,
            (s: Session, feedback: string) => Denied(s, feedback, hooks, w.during),
            w.stuck,
            (s: Session, n: nat) => I.Step(s, w.input(s, n), hooks, w.during),
            w.maxIterations, w.quiet)
  }

  lemma MachineIsOrderly(w: Surroundings, hooks: Hooks)
    requires EventuallyAlone(w)
    ensures MachineOf(w, hooks).Orderly()
  {
    var m := MachineOf(w, hooks);
    forall s: Session, n: nat | m.interrupt(s, n).status.Finished?
      ensures s.status.Finished? || m.finishing(s, n) >= 1
    {
      FinishingCounts(s, w.between(s, n), hooks);
    }
    forall s: Session, n: nat | n >= m.quiet ensures Rank(m.interrupt(s, n).status) <= Rank(s.status) {
      InterruptAllRank(s, w.between(s, n), hooks);
    }
  }

  const NOTHING := Tally(0, 0, 0, None)

  function Run(s: Session, w: Surroundings, hooks: Hooks): Report
    requires EventuallyAlone(w)
  {
    MachineIsOrderly(w, hooks);
    RunFrom(MachineOf(w, hooks), Begin(s), 0, NOTHING)
  }

  // ----- bounds -------------------------------------------------------------------------------------

  /** From a session and a tally on. */
  ghost predicate WithinBounds(m: Machine, s: Session, c: Tally, r: Report) {
    && c.steps <= r.steps <= m.Cap() && c.others <= r.others
    && r.denials - c.denials <= (r.steps - c.steps) + (r.others - c.others) + (if s.status.Finished? then 1 else 0)
    && r.s.status in {Paused, Stuck, Finished, Waiting, Failed}
    && (r.raised ==> r.s.status == Failed)
    && (!r.raised && r.steps == m.Cap() ==> r.s.status in {Failed, Waiting})
  }

  lemma TurnBounds(m: Machine, s: Session, turn: nat, c: Tally)
    requires m.Orderly() && c.steps < m.Cap()
    ensures match TurnOf(m, s, turn, c)
            case Done(r) => WithinBounds(m, s, c, r)
            case More(t, c1) =>
              && c.steps <= c1.steps && c.others <= c1.others
              && c1.denials - c.denials + (if t.status.Finished? then 1 else 0)
                 <= (c1.steps - c.steps) + (c1.others - c.others) + (if s.status.Finished? then 1 else 0)
  {
  }

  lemma {:induction false} BoundsFrom(m: Machine, s: Session, turn: nat, c: Tally)
    requires m.Orderly() && c.steps < m.Cap()
    ensures WithinBounds(m, s, c, RunFrom(m, s, turn, c))
    decreases m.Cap() - c.steps, m.Unquiet(turn), Rank(s.status)
  {
    TurnBounds(m, s, turn, c);
    match TurnOf(m, s, turn, c)
    case Done(_) =>
    case More(t, c1) =>
      TurnDescends(m, s, turn, c);
      BoundsFrom(m, t, turn + 1, c1);
  }

  /** Every run ends, if other runs take part in finitely many of its turns only: after at most
      max(1, max_iterations) steps, and at most as many stop-hook denials as steps, plus one, plus the
      turns of other runs that left FINISHED. It leaves one of five statuses; when its steps are used
      up, ERROR or WAITING. */
  lemma RunBounds(s: Session, w: Surroundings, hooks: Hooks)
    requires EventuallyAlone(w)
    ensures var r, m := Run(s, w, hooks), MachineOf(w, hooks);
            && r.steps <= m.Cap()
            && r.denials <= r.steps + 1 + r.others
            && r.s.status in {Paused, Stuck, Finished, Waiting, Failed}
            && (r.raised ==> r.s.status == Failed)
            && (!r.raised && r.steps == m.Cap() ==> r.s.status in {Failed, Waiting})
  {
    MachineIsOrderly(w, hooks);
    BoundsFrom(MachineOf(w, hooks), Begin(s), 0, NOTHING);
  }

  ghost predicate CanStep(m: Machine, s: Session) {
    s.status in {Idle, Running, Waiting, Failed, Deleting} && !m.stuck(s.log)
  }

  /** The last allowed step decides: WAITING stays; every other status it leaves, FINISHED and a pause
      included, is replaced by ERROR. */
  lemma LastStepFails(m: Machine, s: Session, turn: nat, c: Tally)
    requires m.Orderly() && c.steps == m.Cap() - 1
    requires CanStep(m, m.interrupt(s, turn)) && !m.step(Resume(m.interrupt(s, turn)), turn).raised
    ensures var left := m.step(Resume(m.interrupt(s, turn)), turn).s;
            var r := RunFrom(m, s, turn, c);
            && r.steps == m.Cap() && !r.raised
            && r.s == if left.status.Waiting? then left else Fail(left)
  {
  }

  // ----- how a run begins and ends ------------------------------------------------------------------

  ghost predicate EndsWithError(log: seq<Event>) {
    |log| > 0 && log[|log| - 1].StateEvent? && log[|log| - 1].key == "conversation_error"
  }

  /** A turn of another run that steps leaves what its step leaves; only its last allowed step, unless it
      waits or raises, is followed by ERROR. */
  lemma OtherLastStepFails(s: Session, i: Interruption, hooks: Hooks)
    requires i.OtherTurn? && OtherOpening(s, i, hooks).Steps?
    ensures var o, t := I.Step(OtherOpening(s, i, hooks).s, i.input, hooks, i.land), Interrupt(s, i, hooks);
            if !o.raised && !o.s.status.Waiting? && i.last
            then t.status.Failed? && EndsWithError(t.log) && o.s.log <= t.log && t.invoked == o.s.invoked
            else t == o.s
  {
  }

  lemma {:induction false} LastStays(m: Machine, s: Session, turn: nat, c: Tally)
    requires m.Orderly() && c.steps < m.Cap() && c.last.Some?
    ensures RunFrom(m, s, turn, c).last.Some?
    decreases m.Cap() - c.steps, m.Unquiet(turn), Rank(s.status)
  {
    match TurnOf(m, s, turn, c)
    case Done(_) =>
    case More(t, c1) =>
      TurnDescends(m, s, turn, c);
      LastStays(m, t, turn + 1, c1);
  }

  lemma TurnSteps(m: Machine, s: Session, turn: nat, c: Tally)
    requires m.Orderly() && c.steps < m.Cap() && CanStep(m, m.interrupt(s, turn))
    ensures RunFrom(m, s, turn, c).last.Some?
  {
    match TurnOf(m, s, turn, c)
    case Done(_) =>
    case More(t, c1) =>
      TurnDescends(m, s, turn, c);
      LastStays(m, t, turn + 1, c1);
  }

  ghost predicate UndisturbedAtFirst(w: Surroundings) {
    EventuallyAlone(w) && forall s: Session :: w.between(s, 0) == [] && w.between(s, 1) == []
  }

  /** A new run takes a step exactly if the session is not STUCK and, if it is FINISHED, the stop hook
      denies that: from IDLE, PAUSED, ERROR, WAITING or RUNNING it always does. */
  lemma RunStepsExactly(s: Session, w: Surroundings, hooks: Hooks)
    requires UndisturbedAtFirst(w) && forall log: seq<Event> :: !w.stuck(log)
    ensures Run(s, w, hooks).last.Some? <==> !s.status.Stuck? && (s.status.Finished? ==> w.stop(s, 0).Deny?)
  {
    var m := MachineOf(w, hooks);
    MachineIsOrderly(w, hooks);
    if s.status.Finished? && w.stop(s, 0).Deny? {
      TurnDescends(m, s, 0, NOTHING);
      assert TurnOf(m, s, 0, NOTHING) == More(m.deny(s, w.stop(s, 0).feedback), Tally(0, 1, 0, None));
      TurnSteps(m, m.deny(s, w.stop(s, 0).feedback), 1, Tally(0, 1, 0, None));
    } else if !s.status.Stuck? && !s.status.Finished? {
      TurnSteps(m, Begin(s), 0, NOTHING);
    }
  }

  /** And that step finds the session RUNNING, whatever it was before: seen on a run of one step. */
  lemma FirstStepIsRunning(s: Session, w: Surroundings, hooks: Hooks)
    requires UndisturbedAtFirst(w) && w.maxIterations <= 1 && !s.status.Deleting?
    requires forall log: seq<Event> :: !w.stuck(log)
    requires Run(s, w, hooks).last.Some?
    ensures Run(s, w, hooks).last.value.status.Running?
  {
    var m := MachineOf(w, hooks);
    MachineIsOrderly(w, hooks);
    var b := Begin(s);
    match TurnOf(m, b, 0, NOTHING)
    case Done(_) =>
    case More(t, c) =>
      TurnDescends(m, b, 0, NOTHING);
      assert RunFrom(m, b, 0, NOTHING) == RunFrom(m, t, 1, c);
      StepOfOne(m, t, c);
  }

  lemma StepOfOne(m: Machine, t: Session, c: Tally)
    requires m.Orderly() && m.maxIterations <= 1 && c.steps == 0 && c.last.None? && m.interrupt(t, 1) == t
    requires t.status.Running? && !m.stuck(t.log)
    ensures RunFrom(m, t, 1, c).last.Some? && RunFrom(m, t, 1, c).last.value.status.Running?
  {
  }

  /** If the stuck detector finds it stuck from the start, a run that is not over at once ends in STUCK
      without a step. */
  lemma StuckRunStops(s: Session, w: Surroundings, hooks: Hooks)
    requires UndisturbedAtFirst(w) && !s.status.Finished? && forall log: seq<Event> :: w.stuck(log)
    ensures Run(s, w, hooks).s.status.Stuck? && Run(s, w, hooks).last.None?
  {
    var m := MachineOf(w, hooks);
    MachineIsOrderly(w, hooks);
    if !s.status.Stuck? {
      var stopped := SetStatus(Begin(s), Stuck);
      TurnDescends(m, Begin(s), 0, NOTHING);
      assert TurnOf(m, Begin(s), 0, NOTHING) == More(stopped, NOTHING);
      assert TurnOf(m, stopped, 1, NOTHING) == Done(ReportOf(stopped, false, NOTHING));
      assert RunFrom(m, Begin(s), 0, NOTHING) == RunFrom(m, stopped, 1, NOTHING);
    } else {
      assert TurnOf(m, s, 0, NOTHING) == Done(ReportOf(s, false, NOTHING));
    }
  }

  /** The reasons for which a run ends. */
  ghost predicate EndsForAReason(m: Machine, r: Report) {
    match r.s.status
    case Failed => (r.raised || r.steps >= m.maxIterations) && EndsWithError(r.s.log)
    case Waiting => !r.raised && r.last.Some?
    case Finished => !r.raised && exists n: nat :: m.stop(r.s, n).Allow?
    case Paused => !r.raised
    case Stuck => !r.raised
    case _ => false
  }

  lemma {:induction false} ReasonFrom(m: Machine, s: Session, turn: nat, c: Tally)
    requires m.Orderly() && c.steps < m.Cap()
    ensures EndsForAReason(m, RunFrom(m, s, turn, c))
    decreases m.Cap() - c.steps, m.Unquiet(turn), Rank(s.status)
  {
    match TurnOf(m, s, turn, c)
    case Done(r) =>
      assert r.s.status.Finished? ==> m.stop(r.s, turn).Allow?;
    case More(t, c1) =>
      TurnDescends(m, s, turn, c);
      ReasonFrom(m, t, turn + 1, c1);
  }

  /** A run ends in ERROR only if a step raised or its steps are used up, and then the error is the last
      event; in FINISHED only if the stop hook allows it for the session as it then is; and in WAITING only
      after a step of its own. */
  lemma RunEndsForAReason(s: Session, w: Surroundings, hooks: Hooks)
    requires EventuallyAlone(w)
    ensures var r := Run(s, w, hooks);
            && (r.s.status.Failed? ==> (r.raised || r.steps >= w.maxIterations) && EndsWithError(r.s.log))
            && (r.s.status.Finished? ==> exists n: nat :: w.stop(r.s, n).Allow?)
            && (r.s.status.Waiting? ==> r.last.Some?)
  {
    MachineIsOrderly(w, hooks);
    ReasonFrom(MachineOf(w, hooks), Begin(s), 0, NOTHING);
  }

  // ----- kept over a run ----------------------------------------------------------------------------

  /** P holds of every session the loop gets to, if its parts keep it; and a wait leaves Q between the
      last step's two sessions, if every step that starts to wait does. */
  ghost predicate Keeps(m: Machine, P: Session -> bool, Q: (Session, Session) -> bool) {
    && (forall s: Session, n: nat :: P(s) ==> P(m.interrupt(s, n)))
    && (forall s: Session, feedback: string :: P(s) ==> P(m.deny(s, feedback)))
    && (forall s: Session, n: nat :: P(s) ==> P(m.step(s, n).s))
    && (forall s: Session, n: nat ::
          P(s) && !s.status.Waiting? && !m.step(s, n).raised && m.step(s, n).s.status.Waiting? ==> Q(s, m.step(s, n).s))
    && (forall s: Session :: P(s) ==> P(MarkRunning(s)))
    && (forall s: Session :: P(s) ==> P(SetStatus(s, Stuck)))
    && (forall s: Session :: P(s) ==> P(Fail(s)))
  }

  lemma OpeningKeeps(m: Machine, P: Session -> bool, Q: (Session, Session) -> bool, s: Session, turn: nat)
    requires Keeps(m, P, Q) && P(s)
    ensures var opening := OpeningOf(m, m.interrupt(s, turn), turn);
            P(opening.s) && (opening.Leaves? || opening.Steps? ==> !opening.s.status.Waiting?)
  {
    assert P(m.interrupt(s, turn));
  }

  lemma EndingKeeps(m: Machine, P: Session -> bool, Q: (Session, Session) -> bool, r: Session, turn: nat,
                    iteration: nat)
    requires Keeps(m, P, Q) && P(r) && !r.status.Waiting?
    ensures var o := m.step(r, turn);
            var ending := EndingOf(m, o, turn, iteration);
            if ending.Goes? then P(o.s) else P(ending.s) && (ending.s.status.Waiting? ==> Q(r, ending.s))
  {
    var o := m.step(r, turn);
    assert P(o.s) && P(m.interrupt(o.s, turn + 1));
  }

  /** What Keeps promises of the end of a run. */
  ghost predicate Kept(r: Report, P: Session -> bool, Q: (Session, Session) -> bool) {
    P(r.s) && (r.s.status.Waiting? ==> r.last.Some? && Q(r.last.value, r.s))
  }

  lemma TurnKeeps(m: Machine, P: Session -> bool, Q: (Session, Session) -> bool, s: Session, turn: nat, c: Tally)
    requires Keeps(m, P, Q) && P(s)
    ensures match TurnOf(m, s, turn, c)
            case Done(r) => Kept(r, P, Q)
            case More(t, _) => P(t)
  {
    OpeningKeeps(m, P, Q, s, turn);
    match OpeningOf(m, m.interrupt(s, turn), turn)
    case Steps(r) => EndingKeeps(m, P, Q, r, turn, c.steps);
    case _ =>
  }

  lemma {:induction false} KeptFrom(m: Machine, P: Session -> bool, Q: (Session, Session) -> bool,
                                    s: Session, turn: nat, c: Tally)
    requires m.Orderly() && c.steps < m.Cap() && Keeps(m, P, Q) && P(s)
    ensures Kept(RunFrom(m, s, turn, c), P, Q)
    decreases m.Cap() - c.steps, m.Unquiet(turn), Rank(s.status)
  {
    TurnKeeps(m, P, Q, s, turn, c);
    match TurnOf(m, s, turn, c)
    case Done(_) =>
    case More(t, c1) =>
      TurnDescends(m, s, turn, c);
      KeptFrom(m, P, Q, t, turn + 1, c1);
  }

  // ----- the invariant ------------------------------------------------------------------------------

  /** The LLM of another run's turn gives fresh ids, too. */
  ghost predicate FreshInterruption(s: Session, i: Interruption) {
    i.OtherTurn? ==> FreshInput(s, i.input)
  }

  ghost predicate FreshInterruptions(s: Session, others: seq<Interruption>, hooks: Hooks)
    decreases |others|
  {
    |others| > 0 ==>
      FreshInterruption(s, others[0]) && FreshInterruptions(Interrupt(s, others[0], hooks), others[1..], hooks)
  }

  /** The LLM never reuses an id. */
  ghost predicate Fresh(w: Surroundings, hooks: Hooks) {
    forall s, n: nat :: Inv(s, hooks) ==> FreshInput(s, w.input(s, n)) && FreshInterruptions(s, w.between(s, n), hooks)
  }

  lemma BeginInv(s: Session, hooks: Hooks)
    requires Inv(s, hooks)
    ensures Inv(Begin(s), hooks) && Inv(Resume(s), hooks)
  {
    H.MarkRunningInv(s, hooks);
  }

  lemma DeniedInv(s: Session, feedback: string, hooks: Hooks, land: I.Landing)
    requires Inv(s, hooks)
    ensures Inv(Denied(s, feedback, hooks, land), hooks)
  {
    if feedback != "" {
      G.UserMessageInv(s, "[Stop hook feedback] " + feedback, hooks, land);
      H.MarkRunningInv(I.UserMessage(s, "[Stop hook feedback] " + feedback, hooks, land), hooks);
    } else {
      H.MarkRunningInv(s, hooks);
    }
  }

  lemma FailInv(s: Session, hooks: Hooks)
    requires Inv(s, hooks)
    ensures Inv(Fail(s), hooks)
  {
    StatusInv(s, Failed, hooks);
    NoteInv(SetStatus(s, Failed), "conversation_error", hooks);
  }

  lemma ResumeFresh(s: Session, input: StepInput)
    requires FreshInput(s, input)
    ensures FreshInput(Resume(s), input)
  {
  }

  lemma OpensInv(s: Session, stop: StopVerdict, stuck: bool, denied: Session, hooks: Hooks)
    requires Inv(s, hooks) && (stop.Deny? ==> Inv(denied, hooks))
    ensures Inv(Opens(s, stop, stuck, denied).s, hooks)
  {
    StatusInv(s, Stuck, hooks);
    BeginInv(s, hooks);
  }

  lemma OtherOpeningInv(s: Session, i: Interruption, hooks: Hooks)
    requires Inv(s, hooks) && i.OtherTurn?
    ensures Inv(OtherOpening(s, i, hooks).s, hooks)
  {
    if i.stop.Deny? {
      DeniedInv(s, i.stop.feedback, hooks, i.land);
      OpensInv(s, i.stop, i.stuck, Denied(s, i.stop.feedback, hooks, i.land), hooks);
    } else {
      OpensInv(s, i.stop, i.stuck, s, hooks);
    }
  }

  lemma OtherTurnInv(s: Session, i: Interruption, hooks: Hooks)
    requires Inv(s, hooks) && i.OtherTurn? && FreshInterruption(s, i)
    ensures Inv(OtherTurnLeaves(s, i, hooks), hooks)
  {
    OtherOpeningInv(s, i, hooks);
    match OtherOpening(s, i, hooks)
    case Steps(r) =>
      ResumeFresh(s, i.input);
      G.StepInv(r, i.input, hooks, i.land);
      FailInv(I.Step(r, i.input, hooks, i.land).s, hooks);
    case _ =>
  }

  lemma InterruptInv(s: Session, i: Interruption, hooks: Hooks)
    requires Inv(s, hooks) && FreshInterruption(s, i)
    ensures Inv(Interrupt(s, i, hooks), hooks)
  {
    match i
    case Lands(o) => G.LandInv(s, o, hooks);
    case Says(content, land) => H.SayInv(s, content, hooks, land);
    case OtherBegins => BeginInv(s, hooks);
    case OtherTurn(_, _, _, _, _) => OtherTurnInv(s, i, hooks);
  }

  lemma {:induction false} InterruptAllInv(s: Session, others: seq<Interruption>, hooks: Hooks)
    requires Inv(s, hooks) && FreshInterruptions(s, others, hooks)
    ensures Inv(InterruptAll(s, others, hooks), hooks)
    decreases |others|
  {
    if |others| > 0 {
      InterruptInv(s, others[0], hooks);
      InterruptAllInv(Interrupt(s, others[0], hooks), others[1..], hooks);
    }
  }

  ghost predicate HoldsSomeBatch(before: Session, after: Session, w: Surroundings, hooks: Hooks) {
    exists n: nat :: HoldsBatch(before, after, w.input(before, n), hooks, w.during)
  }

  lemma MachineKeeps(w: Surroundings, hooks: Hooks)
    requires Fresh(w, hooks)
    ensures Keeps(MachineOf(w, hooks), s => Inv(s, hooks), (s, t) => HoldsSomeBatch(s, t, w, hooks))
  {
    var m := MachineOf(w, hooks);
    forall s: Session, n: nat | Inv(s, hooks) ensures Inv(m.interrupt(s, n), hooks) && Inv(m.step(s, n).s, hooks) {
      InterruptAllInv(s, w.between(s, n), hooks);
      G.StepInv(s, w.input(s, n), hooks, w.during);
    }
    forall s: Session, feedback: string | Inv(s, hooks) ensures Inv(m.deny(s, feedback), hooks) {
      DeniedInv(s, feedback, hooks, w.during);
    }
    forall s: Session | Inv(s, hooks)
      ensures Inv(MarkRunning(s), hooks) && Inv(SetStatus(s, Stuck), hooks) && Inv(Fail(s), hooks)
    {
      H.MarkRunningInv(s, hooks);
      StatusInv(s, Stuck, hooks);
      FailInv(s, hooks);
    }
    forall s: Session, n: nat | Inv(s, hooks) && !s.status.Waiting? && !m.step(s, n).raised
      && m.step(s, n).s.status.Waiting?
      ensures HoldsSomeBatch(s, m.step(s, n).s, w, hooks)
    {
      StepWaits(s, w.input(s, n), hooks, w.during);
    }
  }

  /** A run keeps the session's invariant, whatever other runs and threads do in between and inside its
      steps. And when it ends in WAITING, its last step got a batch that needs confirmation: none of it
      has reached a tool, and the pending actions are that batch, in order, but for those the user has
      answered in the meantime. */
  lemma RunKeepsInvAndWaits(s: Session, w: Surroundings, hooks: Hooks)
    requires Inv(s, hooks) && Fresh(w, hooks) && EventuallyAlone(w)
    ensures var r := Run(s, w, hooks);
            && Inv(r.s, hooks)
            && (r.s.status.Waiting? ==> r.last.Some? && HoldsSomeBatch(r.last.value, r.s, w, hooks))
  {
    BeginInv(s, hooks);
    MachineIsOrderly(w, hooks);
    MachineKeeps(w, hooks);
    KeptFrom(MachineOf(w, hooks), s => Inv(s, hooks), (s, t) => HoldsSomeBatch(s, t, w, hooks), Begin(s), 0, NOTHING);
  }
}
