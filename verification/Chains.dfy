/** Chains of steps with early stop, branches and parallel parts. */
module Chains {
  import opened Events

  datatype Value = Text(s: string) | Flag(b: bool) | Dict(entries: map<string, Value>)

  /** The state a context carries. */
  type State = map<string, Value>

  /** What a step hands on: a value, or the stop of its chain. */
  datatype Returned = Next(value: Value) | Stop(value: Value)

  datatype Effect = Effect(returned: Returned, state: State)

  /** One branch of a parallel step. */
  datatype Named = Named(key: string, steps: seq<Step>)

  datatype Otherwise = NoChain | Otherwise(steps: seq<Step>)

  datatype Step =
    | Function(name: string, func: (Value, State) -> Effect)
    | Passthrough(name: string)
    | Branch(name: string, test: (Value, State) -> bool, ifTrue: seq<Step>, ifFalse: Otherwise)
    | Parallel(name: string, branches: seq<Named>, merge: bool)

  datatype Result = Result(output: Value, state: State, executed: seq<string>, stopped: bool)

  function FlagKey(key: string): string {
    "parallel_stopped_" + key
  }

  // ----- what a chain computes ----------------------------------------------------------------

  /** The effect of one step on its value and its context. */
  function StepEffect(step: Step, value: Value, state: State): Effect
    decreases step, 0
  {
    match step
    case Function(_, func) => func(value, state)
    case Passthrough(_) => Effect(Next(value), state)
    case Branch(_, test, ifTrue, ifFalse) =>
      if test(value, state) then Unwrapped(ChainResult(ifTrue, value, state))
      else
        (match ifFalse
         case NoChain => Effect(Next(value), state)
         case Otherwise(steps) => Unwrapped(ChainResult(steps, value, state)))
    case Parallel(_, branches, merge) => ParallelEffect(branches, merge, value, state, state, map[])
  }

  /** A stop of the inner chain is a stop of the branch. */
  function Unwrapped(r: Result): Effect {
    Effect(if r.stopped then Stop(r.output) else Next(r.output), r.state)
  }

  function ChainResult(steps: seq<Step>, value: Value, state: State): Result
    decreases steps, 0
  {
    if |steps| == 0 then Result(value, state, [], false)
    else
      var e := StepEffect(steps[0], value, state);
      match e.returned
      case Stop(output) => Result(output, e.state, [steps[0].name], true)
      case Next(output) =>
        var rest := ChainResult(steps[1..], output, e.state);
        rest.(executed := [steps[0].name] + rest.executed)
  }

  /** Every branch gets a copy of the state the step began with; merging and flags go to the
      context in order. */
  function ParallelEffect(branches: seq<Named>, merge: bool, value: Value, start: State, state: State,
                          outputs: map<string, Value>): Effect
    decreases branches, 0
  {
    if |branches| == 0 then Effect(Next(Dict(outputs)), state)
    else
      var r := ChainResult(branches[0].steps, value, start);
      ParallelEffect(branches[1..], merge, value, start, AfterBranch(branches[0].key, r, merge, state),
        outputs[branches[0].key := r.output])
  }

  function AfterBranch(key: string, r: Result, merge: bool, state: State): State {
    var merged := if merge then state + r.state else state;
    if r.stopped then merged[FlagKey(key) := Flag(true)] else merged
  }

  // ----- the objects --------------------------------------------------------------------------

  class ChainContext {
    var state: State

    constructor (state: State)
      ensures this.state == state
    {
      this.state := state;
    }

    method Set(key: string, value: Value)
      modifies this
      ensures state == old(state)[key := value]
    {
      state := state[key := value];
    }

    method Extend(values: State)
      modifies this
      ensures state == old(state) + values
    {
      state := state + values;
    }

    /** A copy of its own. */
    method Child() returns (child: ChainContext)
      ensures fresh(child) && child.state == state
    {
      child := new ChainContext(state);
    }
  }

  class Chain {
    var steps: seq<Step>

    constructor (steps: seq<Step>)
      ensures this.steps == steps
    {
      this.steps := steps;
    }

    method ThenStep(step: Step)
      modifies this
      ensures steps == old(steps) + [step]
    {
      steps := steps + [step];
    }

    /** Another chain's steps are copied, also this one's own. */
    method Then(other: Chain)
      modifies this
      ensures steps == old(steps) + old(other.steps)
    {
      steps := steps + other.steps;
    }

    /** Chain.invoke; without a context it starts from an empty one. */
    method Invoke(value: Value, context: ChainContext?) returns (result: Result)
      modifies context
      ensures result == ChainResult(steps, value, if context == null then map[] else old(context.state))
      ensures context != null ==> context.state == result.state
    {
      var runtime: ChainContext;
      if context == null {
        runtime := new ChainContext(map[]);
      } else {
        runtime := context;
      }
      result := InvokeSteps(steps, value, runtime);
    }
  }

  method InvokeSteps(steps: seq<Step>, value: Value, context: ChainContext) returns (result: Result)
    modifies context
    ensures result == ChainResult(steps, value, old(context.state)) && context.state == result.state
    decreases steps, 1
  {
    var current, executed := value, [];
    var i := 0;
    assert steps[0..] == steps;
    while i < |steps|
      invariant 0 <= i <= |steps|
      invariant ChainResult(steps, value, old(context.state))
                == After(executed, ChainResult(steps[i..], current, context.state))
    {
      AfterOne(executed, steps, i, current, context.state);
      var returned := InvokeStep(steps[i], current, context);
      executed := executed + [steps[i].name];
      current := returned.value;
      if returned.Stop? {
        return Result(current, context.state, executed, true);
      }
      i := i + 1;
    }
    return Result(current, context.state, executed, false);
  }

  method InvokeStep(step: Step, value: Value, context: ChainContext) returns (returned: Returned)
    modifies context
    ensures Effect(returned, context.state) == StepEffect(step, value, old(context.state))
    decreases step, 0
  {
    match step
    case Function(_, func) =>
      var e := func(value, context.state);
      context.state := e.state;
      return e.returned;
    case Passthrough(_) =>
      return Next(value);
    case Branch(_, test, ifTrue, ifFalse) =>
      var steps: seq<Step>;
      if test(value, context.state) {
        steps := ifTrue;
      } else {
        match ifFalse
        case NoChain => return Next(value);
        case Otherwise(others) => steps := others;
      }
      var result := InvokeSteps(steps, value, context);
      return if result.stopped then Stop(result.output) else Next(result.output);
    case Parallel(_, branches, merge) =>
      returned := InvokeBranches(branches, merge, value, context);
  }

  method InvokeBranches(branches: seq<Named>, merge: bool, value: Value, context: ChainContext)
    returns (returned: Returned)
    modifies context
    ensures Effect(returned, context.state)
            == ParallelEffect(branches, merge, value, old(context.state), old(context.state), map[])
    decreases branches, 0
  {
    var start := context.state;
    var outputs: map<string, Value> := map[];
    var i := 0;
    assert branches[0..] == branches;
    while i < |branches|
      invariant 0 <= i <= |branches|
      invariant ParallelEffect(branches, merge, value, start, start, map[])
             == ParallelEffect(branches[i..], merge, value, start, context.state, outputs)
    {
      assert branches[i..][1..] == branches[i + 1..];
      var child := new ChainContext(start);
      var result := InvokeSteps(branches[i].steps, value, child);
      outputs := outputs[branches[i].key := result.output];
      if merge {
        context.Extend(child.state);
      }
      if result.stopped {
        context.Set(FlagKey(branches[i].key), Flag(true));
      }
      i := i + 1;
    }
    return Next(Dict(outputs));
  }

  function After(executed: seq<string>, r: Result): Result {
    r.(executed := executed + r.executed)
  }

  lemma AfterOne(executed: seq<string>, steps: seq<Step>, i: nat, value: Value, state: State)
    requires i < |steps|
    ensures var e, more := StepEffect(steps[i], value, state), executed + [steps[i].name];
            After(executed, ChainResult(steps[i..], value, state))
              == if e.returned.Stop? then Result(e.returned.value, e.state, more, true)
                 else After(more, ChainResult(steps[i + 1..], e.returned.value, e.state))
  {
    assert steps[i..][1..] == steps[i + 1..];
    var e := StepEffect(steps[i], value, state);
    if e.returned.Next? {
      var rest := ChainResult(steps[i + 1..], e.returned.value, e.state).executed;
      assert executed + ([steps[i].name] + rest) == executed + [steps[i].name] + rest;
    }
  }

  // ----- sequencing ---------------------------------------------------------------------------

  /** Invoking a chain built by then is invoking the first part and, only if that did not stop,
      the second on its output and context; the executed steps are concatenated. */
  lemma {:induction false} ThenIsSequencing(a: seq<Step>, b: seq<Step>, value: Value, state: State)
    ensures var r := ChainResult(a, value, state);
            ChainResult(a + b, value, state)
            == if r.stopped then r else After(r.executed, ChainResult(b, r.output, r.state))
    decreases |a|
  {
    if |a| == 0 {
      assert a + b == b;
      assert [] + ChainResult(b, value, state).executed == ChainResult(b, value, state).executed;
    } else {
      assert (a + b)[1..] == a[1..] + b;
      var e := StepEffect(a[0], value, state);
      if e.returned.Next? {
        ThenIsSequencing(a[1..], b, e.returned.value, e.state);
        var r := ChainResult(a[1..], e.returned.value, e.state);
        var rest := ChainResult(b, r.output, r.state).executed;
        assert [a[0].name] + (r.executed + rest) == ([a[0].name] + r.executed) + rest;
      }
    }
  }

  /** A function step hands its value and its context on to the rest of the chain, or ends the chain. */
  lemma FunctionThenRest(name: string, func: (Value, State) -> Effect, rest: seq<Step>, value: Value, state: State)
    ensures var r, e := ChainResult([Function(name, func)] + rest, value, state), func(value, state);
            match e.returned
            case Stop(output) => r == Result(output, e.state, [name], true)
            case Next(output) => r == After([name], ChainResult(rest, output, e.state))
  {
    ThenIsSequencing([Function(name, func)], rest, value, state);
    assert [Function(name, func)][1..] == [] && [name] + [] == [name];
  }

  /** A passthrough changes nothing but the list of executed steps. */
  lemma PassthroughChangesNothing(name: string, rest: seq<Step>, value: Value, state: State)
    ensures ChainResult([Passthrough(name)] + rest, value, state) == After([name], ChainResult(rest, value, state))
  {
    ThenIsSequencing([Passthrough(name)], rest, value, state);
    assert [Passthrough(name)][1..] == [] && [name] + [] == [name];
  }

  function Names(steps: seq<Step>): seq<string> {
    seq(|steps|, i requires 0 <= i < |steps| => steps[i].name)
  }

  /** The executed steps are a prefix of the chain: all of it, unless it stopped. */
  lemma {:induction false} ExecutedIsPrefix(steps: seq<Step>, value: Value, state: State)
    ensures var r := ChainResult(steps, value, state);
            && r.executed <= Names(steps)
            && (!r.stopped ==> r.executed == Names(steps))
            && (r.stopped ==> |r.executed| > 0)
    decreases |steps|
  {
    if |steps| > 0 {
      var e := StepEffect(steps[0], value, state);
      assert Names(steps) == [steps[0].name] + Names(steps[1..]);
      if e.returned.Next? {
        ExecutedIsPrefix(steps[1..], e.returned.value, e.state);
      }
    }
  }

  // ----- branches -----------------------------------------------------------------------------

  /** The chain a branch step takes. */
  function Taken(step: Step, value: Value, state: State): seq<Step>
    requires step.Branch?
  {
    if step.test(value, state) then step.ifTrue
    else
      match step.ifFalse
      case NoChain => []
      case Otherwise(steps) => steps
  }

  predicate SameButExecuted(r: Result, q: Result) {
    r.output == q.output && r.state == q.state && r.stopped == q.stopped
  }

  /** A branch is as if the taken chain stood in its place; so a stop in it stops the outer one. */
  lemma BranchIsInlined(step: Step, rest: seq<Step>, value: Value, state: State)
    requires step.Branch?
    ensures SameButExecuted(ChainResult([step] + rest, value, state),
                            ChainResult(Taken(step, value, state) + rest, value, state))
  {
    ThenIsSequencing(Taken(step, value, state), rest, value, state);
    assert ([step] + rest)[1..] == rest;
  }

  /** The steps that run when all branches, at any depth, are resolved as they come. */
  function Resolved(steps: seq<Step>, value: Value, state: State): seq<Step>
    decreases steps, 0
  {
    if |steps| == 0 then []
    else
      var e := StepEffect(steps[0], value, state);
      ResolvedStep(steps[0], value, state)
      + (if e.returned.Stop? then [] else Resolved(steps[1..], e.returned.value, e.state))
  }

  function ResolvedStep(step: Step, value: Value, state: State): seq<Step>
    decreases step, 0
  {
    match step
    case Branch(_, test, ifTrue, ifFalse) =>
      if test(value, state) then Resolved(ifTrue, value, state)
      else
        (match ifFalse
         case NoChain => []
         case Otherwise(steps) => Resolved(steps, value, state))
    case _ => [step]
  }

  predicate AllBranchFree(steps: seq<Step>) {
    forall i :: 0 <= i < |steps| ==> !steps[i].Branch?
  }

  /** flat computes what r says, without branches, and runs to its last step. */
  ghost predicate Flat(flat: seq<Step>, r: Result, value: Value, state: State) {
    && AllBranchFree(flat)
    && SameButExecuted(ChainResult(flat, value, state), r)
    && ChainResult(flat, value, state).executed == Names(flat)
  }

  lemma FlatThen(first: seq<Step>, rest: seq<Step>, steps: seq<Step>, value: Value, state: State)
    requires |steps| > 0 && StepEffect(steps[0], value, state).returned.Next?
    requires var e := StepEffect(steps[0], value, state);
             && Flat(first, ChainResult([steps[0]], value, state), value, state)
             && SameAsStep(ChainResult([steps[0]], value, state), e)
             && Flat(rest, ChainResult(steps[1..], e.returned.value, e.state), e.returned.value, e.state)
    ensures Flat(first + rest, ChainResult(steps, value, state), value, state)
  {
    ThenIsSequencing(first, rest, value, state);
    assert Names(first + rest) == Names(first) + Names(rest);
  }

  /** Resolving every branch gives a chain without branches that computes the same and runs to its
      last step: a stop at any depth is a stop of the whole. */
  lemma {:induction false} ResolvingKeepsMeaning(steps: seq<Step>, value: Value, state: State)
    ensures Flat(Resolved(steps, value, state), ChainResult(steps, value, state), value, state)
    decreases steps, 0
  {
    if |steps| > 0 {
      ResolvingStepKeepsMeaning(steps[0], value, state);
      var e := StepEffect(steps[0], value, state);
      var first := ResolvedStep(steps[0], value, state);
      if e.returned.Stop? {
        assert first + [] == first;
      } else {
        ResolvingKeepsMeaning(steps[1..], e.returned.value, e.state);
        FlatThen(first, Resolved(steps[1..], e.returned.value, e.state), steps, value, state);
      }
    }
  }

  lemma {:induction false} ResolvingStepKeepsMeaning(step: Step, value: Value, state: State)
    ensures Flat(ResolvedStep(step, value, state), ChainResult([step], value, state), value, state)
    ensures SameAsStep(ChainResult([step], value, state), StepEffect(step, value, state))
    decreases step, 0
  {
    assert [step][1..] == [];
    match step
    case Branch(_, test, ifTrue, ifFalse) =>
      if test(value, state) {
        ResolvingKeepsMeaning(ifTrue, value, state);
      } else {
        match ifFalse
        case NoChain =>
        case Otherwise(steps) => ResolvingKeepsMeaning(steps, value, state);
      }
    case _ =>
      assert Names([step]) == [step.name];
  }

  predicate SameAsStep(r: Result, e: Effect) {
    r.output == e.returned.value && r.state == e.state && r.stopped == e.returned.Stop?
  }

  // ----- parallel steps -------------------------------------------------------------------------

  predicate DistinctKeys(branches: seq<Named>) {
    forall i, j :: 0 <= i < j < |branches| ==> branches[i].key != branches[j].key
  }

  function BranchResult(b: Named, value: Value, start: State): Result {
    ChainResult(b.steps, value, start)
  }

  /** The flags of the branches that stopped. */
  function StoppedFlags(branches: seq<Named>, value: Value, start: State): set<string> {
    set i | 0 <= i < |branches| && BranchResult(branches[i], value, start).stopped :: FlagKey(branches[i].key)
  }

  function Raised(flags: set<string>): State {
    map x | x in flags :: Flag(true)
  }

  lemma StoppedFlagsCons(branches: seq<Named>, value: Value, start: State)
    requires |branches| > 0
    ensures StoppedFlags(branches, value, start)
         == (if BranchResult(branches[0], value, start).stopped then {FlagKey(branches[0].key)} else {})
          + StoppedFlags(branches[1..], value, start)
  {
    var rest := branches[1..];
    forall x | x in StoppedFlags(branches, value, start)
      ensures x in StoppedFlags(rest, value, start)
              || (BranchResult(branches[0], value, start).stopped && x == FlagKey(branches[0].key))
    {
      var i :| 0 <= i < |branches| && BranchResult(branches[i], value, start).stopped && x == FlagKey(branches[i].key);
      assert i > 0 ==> rest[i - 1] == branches[i];
    }
    forall x | x in StoppedFlags(rest, value, start) ensures x in StoppedFlags(branches, value, start) {
      var i :| 0 <= i < |rest| && BranchResult(rest[i], value, start).stopped && x == FlagKey(rest[i].key);
      assert branches[i + 1] == rest[i];
    }
  }

  /** Without merging, a parallel step changes nothing in the context but the flags. */
  lemma {:induction false} ParallelState(branches: seq<Named>, value: Value, start: State, state: State,
                                         outputs: map<string, Value>)
    ensures ParallelEffect(branches, false, value, start, state, outputs).state
            == state + Raised(StoppedFlags(branches, value, start))
    decreases |branches|
  {
    if |branches| == 0 {
      assert StoppedFlags(branches, value, start) == {};
    } else {
      var r := BranchResult(branches[0], value, start);
      StoppedFlagsCons(branches, value, start);
      ParallelState(branches[1..], value, start, AfterBranch(branches[0].key, r, false, state),
        outputs[branches[0].key := r.output]);
      RaisedCons(state, FlagKey(branches[0].key), StoppedFlags(branches[1..], value, start));
    }
  }

  lemma RaisedCons(state: State, x: string, flags: set<string>)
    ensures state[x := Flag(true)] + Raised(flags) == state + Raised({x} + flags)
    ensures state + Raised(flags) == state + Raised({} + flags)
  {
    assert {} + flags == flags;
    var a, b := state[x := Flag(true)] + Raised(flags), state + Raised({x} + flags);
    assert a.Keys == b.Keys;
    assert forall k :: k in a ==> a[k] == b[k];
  }

  /** The output of every branch is under its key. */
  ghost predicate HoldsOutputs(d: Value, branches: seq<Named>, value: Value, start: State, others: map<string, Value>) {
    && d.Dict?
    && (forall i :: 0 <= i < |branches| ==>
         branches[i].key in d.entries && d.entries[branches[i].key] == BranchResult(branches[i], value, start).output)
    && (forall k :: k in d.entries ==> k in others || IsKey(branches, k))
    && (forall k :: k in others && !IsKey(branches, k) ==> k in d.entries && d.entries[k] == others[k])
  }

  predicate IsKey(branches: seq<Named>, k: string) {
    exists i :: 0 <= i < |branches| && branches[i].key == k
  }

  lemma {:induction false} ParallelOutputs(branches: seq<Named>, merge: bool, value: Value, start: State,
                                           state: State, outputs: map<string, Value>)
    requires DistinctKeys(branches)
    ensures var e := ParallelEffect(branches, merge, value, start, state, outputs);
            e.returned.Next? && HoldsOutputs(e.returned.value, branches, value, start, outputs)
    decreases |branches|
  {
    if |branches| > 0 {
      var r, rest := BranchResult(branches[0], value, start), branches[1..];
      assert forall i :: 0 <= i < |rest| ==> rest[i] == branches[i + 1];
      var more := outputs[branches[0].key := r.output];
      ParallelOutputs(rest, merge, value, start, AfterBranch(branches[0].key, r, merge, state), more);
      OutputsCons(ParallelEffect(branches, merge, value, start, state, outputs).returned.value, branches, value,
        start, outputs);
    }
  }

  lemma OutputsCons(d: Value, branches: seq<Named>, value: Value, start: State, outputs: map<string, Value>)
    requires |branches| > 0 && DistinctKeys(branches)
    requires HoldsOutputs(d, branches[1..], value, start,
             outputs[branches[0].key := BranchResult(branches[0], value, start).output])
    ensures HoldsOutputs(d, branches, value, start, outputs)
  {
    var rest := branches[1..];
    assert forall i :: 0 <= i < |rest| ==> rest[i] == branches[i + 1];
    assert !IsKey(rest, branches[0].key);
    forall k ensures IsKey(branches, k) <==> k == branches[0].key || IsKey(rest, k) {
      if i :| 0 <= i < |branches| && branches[i].key == k {
        assert i > 0 ==> rest[i - 1].key == k;
      }
      if i :| 0 <= i < |rest| && rest[i].key == k {
        assert branches[i + 1].key == k;
      }
    }
    forall i | 0 <= i < |branches|
      ensures branches[i].key in d.entries
              && d.entries[branches[i].key] == BranchResult(branches[i], value, start).output
    {
      if i > 0 {
        assert rest[i - 1] == branches[i];
      }
    }
  }

  /** A parallel step never stops its chain; it hands on every branch's output, computed from the
      context it began with, under its key; and without merging it only sets the flags of the
      branches that stopped. */
  lemma ParallelNeverStops(step: Step, rest: seq<Step>, value: Value, state: State)
    requires step.Parallel? && DistinctKeys(step.branches)
    ensures var e := StepEffect(step, value, state);
            && e.returned.Next?
            && HoldsOutputs(e.returned.value, step.branches, value, state, map[])
            && (!step.merge ==> e.state == state + Raised(StoppedFlags(step.branches, value, state)))
            && SameButExecuted(ChainResult([step] + rest, value, state), ChainResult(rest, e.returned.value, e.state))
  {
    ParallelOutputs(step.branches, step.merge, value, state, state, map[]);
    ParallelState(step.branches, value, state, state, map[]);
    assert ([step] + rest)[1..] == rest;
  }

  lemma FlagKeysDiffer(key: string, other: string)
    ensures FlagKey(key) == FlagKey(other) <==> key == other
  {
    assert key == FlagKey(key)[17..] && other == FlagKey(other)[17..];
  }

  // ----- flags under merging --------------------------------------------------------------------

  /** The last of the branches whose own final state holds x. */
  function LastHolder(branches: seq<Named>, value: Value, start: State, x: string): Option<nat> {
    if |branches| == 0 then None
    else if x in BranchResult(branches[|branches| - 1], value, start).state then Some(|branches| - 1)
    else LastHolder(branches[..|branches| - 1], value, start, x)
  }

  lemma {:induction false} LastHolderIsLast(branches: seq<Named>, value: Value, start: State, x: string)
    ensures var j := LastHolder(branches, value, start, x);
            && (j.Some? ==> j.value < |branches| && x in BranchResult(branches[j.value], value, start).state)
            && forall k :: (if j.Some? then j.value < k < |branches| else 0 <= k < |branches|)
                 ==> x !in BranchResult(branches[k], value, start).state
  {
    if |branches| > 0 && x !in BranchResult(branches[|branches| - 1], value, start).state {
      LastHolderIsLast(branches[..|branches| - 1], value, start, x);
    }
  }

  /** No branch raises x as its own flag. */
  predicate NotAFlagOf(branches: seq<Named>, x: string) {
    forall i :: 0 <= i < |branches| ==> FlagKey(branches[i].key) != x
  }

  /** The context's entry for x after the branches: that of the last branch whose state holds x. */
  predicate HoldsTrue(branches: seq<Named>, value: Value, start: State, state: State, x: string) {
    LastHolderIsLast(branches, value, start, x);
    match LastHolder(branches, value, start, x)
    case Some(j) => BranchResult(branches[j], value, start).state[x] == Flag(true)
    case None => x in state && state[x] == Flag(true)
  }

  /** The parallel step ends with its last branch. */
  lemma {:induction false} ParallelSnoc(branches: seq<Named>, merge: bool, value: Value, start: State, state: State,
                                        outputs: map<string, Value>)
    requires |branches| > 0
    ensures var front, last := branches[..|branches| - 1], branches[|branches| - 1];
            ParallelEffect(branches, merge, value, start, state, outputs).state
              == AfterBranch(last.key, BranchResult(last, value, start), merge,
                ParallelEffect(front, merge, value, start, state, outputs).state)
    decreases |branches|
  {
    var n := |branches| - 1;
    var r := BranchResult(branches[0], value, start);
    var s1, o1 := AfterBranch(branches[0].key, r, merge, state), outputs[branches[0].key := r.output];
    if n == 0 {
      assert branches[1..] == [] && branches[..0] == [];
    } else {
      ParallelSnoc(branches[1..], merge, value, start, s1, o1);
      assert branches[1..][..n - 1] == branches[..n][1..];
    }
  }

  /** With merging, an entry no branch raises is true at the end exactly if the last branch whose own
      state holds it holds it as true, or, if none holds it, it was true before. */
  lemma {:induction false} MergedFlagExactly(branches: seq<Named>, value: Value, start: State, state: State,
                                             outputs: map<string, Value>, x: string)
    requires NotAFlagOf(branches, x)
    ensures var t := ParallelEffect(branches, true, value, start, state, outputs).state;
            x in t && t[x] == Flag(true) <==> HoldsTrue(branches, value, start, state, x)
    decreases |branches|
  {
    if |branches| > 0 {
      var front, last := branches[..|branches| - 1], branches[|branches| - 1];
      ParallelSnoc(branches, true, value, start, state, outputs);
      MergedFlagExactly(front, value, start, state, outputs, x);
      HoldsTrueSnoc(branches, value, start, state, x);
    }
  }

  lemma HoldsTrueSnoc(branches: seq<Named>, value: Value, start: State, state: State, x: string)
    requires |branches| > 0
    ensures var front, r := branches[..|branches| - 1], BranchResult(branches[|branches| - 1], value, start);
            HoldsTrue(branches, value, start, state, x) <==>
              if x in r.state then r.state[x] == Flag(true) else HoldsTrue(front, value, start, state, x)
  {
    LastHolderIsLast(branches, value, start, x);
    LastHolderIsLast(branches[..|branches| - 1], value, start, x);
  }

  lemma {:induction false} ParallelSplit(branches: seq<Named>, i: nat, value: Value, start: State, state: State,
                                         outputs: map<string, Value>)
    returns (mid: State, more: map<string, Value>)
    requires i <= |branches|
    ensures ParallelEffect(branches, true, value, start, state, outputs)
            == ParallelEffect(branches[i..], true, value, start, mid, more)
    ensures i > 0 && BranchResult(branches[i - 1], value, start).stopped
            ==> FlagKey(branches[i - 1].key) in mid && mid[FlagKey(branches[i - 1].key)] == Flag(true)
    decreases i
  {
    if i == 0 {
      mid, more := state, outputs;
      assert branches[0..] == branches;
    } else {
      var s1, o1 := ParallelSplit(branches, i - 1, value, start, state, outputs);
      var r := BranchResult(branches[i - 1], value, start);
      mid, more := AfterBranch(branches[i - 1].key, r, true, s1), o1[branches[i - 1].key := r.output];
      assert branches[i - 1..][1..] == branches[i..];
    }
  }

  /** So the flag of a branch that stopped survives a merging parallel step exactly if the last later
      branch whose own state holds it, if any, holds it as true. */
  lemma FlagSurvivesExactly(step: Step, i: nat, value: Value, start: State)
    requires step.Parallel? && step.merge && DistinctKeys(step.branches) && i < |step.branches|
    requires BranchResult(step.branches[i], value, start).stopped
    ensures var x, later, t := FlagKey(step.branches[i].key), step.branches[i + 1..],
            StepEffect(step, value, start).state;
            (x in t && t[x] == Flag(true)) <==>
              (LastHolder(later, value, start, x).Some? ==> HoldsTrue(later, value, start, start, x))
  {
    var x, later := FlagKey(step.branches[i].key), step.branches[i + 1..];
    var mid, more := ParallelSplit(step.branches, i + 1, value, start, start, map[]);
    forall k | 0 <= k < |later| ensures FlagKey(later[k].key) != x {
      FlagKeysDiffer(later[k].key, step.branches[i].key);
      assert later[k] == step.branches[i + 1 + k];
    }
    MergedFlagExactly(later, value, start, mid, more, x);
  }

  /** For one, it is lost so: the first branch stops, the second changes nothing, and the flag
      the context had before comes back with its copy. */
  lemma MergingCanLoseFlag(halt: Step, pass: Step, value: Value)
    requires halt == Function("halt", (v: Value, s: State) => Effect(Stop(v), s)) && pass == Passthrough("pass")
    ensures var branches := [Named("a", [halt]), Named("b", [pass])];
            var start: State := map[FlagKey("a") := Flag(false)];
            var t := StepEffect(Parallel("both", branches, true), value, start).state;
            BranchResult(branches[0], value, start).stopped && FlagKey("a") in t && t[FlagKey("a")] == Flag(false)
  {
    var first, second := Named("a", [halt]), Named("b", [pass]);
    var start: State := map[FlagKey("a") := Flag(false)];
    assert [halt][1..] == [] && [pass][1..] == [];
    assert StepEffect(halt, value, start) == Effect(Stop(value), start);
    assert BranchResult(first, value, start) == Result(value, start, ["halt"], true);
    assert StepEffect(pass, value, start) == Effect(Next(value), start) && second.steps[1..] == [];
    assert ChainResult([], value, start) == Result(value, start, [], false);
    assert ChainResult(second.steps, value, start) == Result(value, start, ["pass"] + [], false);
    assert BranchResult(second, value, start).state == start && !BranchResult(second, value, start).stopped;
    MergeTwo(first, second, value, start);
  }

  lemma MergeTwo(first: Named, second: Named, value: Value, start: State)
    ensures ParallelEffect([first, second], true, value, start, start, map[]).state
         == AfterBranch(second.key, BranchResult(second, value, start), true,
                        AfterBranch(first.key, BranchResult(first, value, start), true, start))
  {
    var branches := [first, second];
    assert branches[1..] == [second] && [second][1..] == [];
    var s1 := AfterBranch(first.key, BranchResult(first, value, start), true, start);
    var s2 := AfterBranch(second.key, BranchResult(second, value, start), true, s1);
    var m1: map<string, Value> := map[first.key := BranchResult(first, value, start).output];
    var m2 := m1[second.key := BranchResult(second, value, start).output];
    assert ParallelEffect([], true, value, start, s2, m2).state == s2;
    assert ParallelEffect([second], true, value, start, s1, m1).state == s2;
  }

  /** The step that stop_if adds to a chain. */
  function StopIf(name: string, test: (Value, State) -> bool, output: (Value, State) -> Value): Step {
    Function(name, (v: Value, s: State) => Effect(if test(v, s) then Stop(output(v, s)) else Next(v), s))
  }

  /** stop_if inside a branch ends the outer chain there; inside a parallel branch the outer chain
      goes on. */
  lemma StopIfReachesOut(name: string, test: (Value, State) -> bool, output: (Value, State) -> Value,
                         rest: seq<Step>, outer: seq<Step>, value: Value, state: State)
    requires test(value, state)
    ensures var inner := [StopIf(name, test, output)] + rest;
            && ChainResult(inner, value, state) == Result(output(value, state), state, [name], true)
            && ChainResult([Branch("branch", test, inner, NoChain)] + outer, value, state)
                 == Result(output(value, state), state, ["branch"], true)
            && (ChainResult([Parallel("parallel", [Named("key", inner)], false)] + outer, value, state).stopped
                <==> ChainResult(outer, Dict(map["key" := output(value, state)]),
                  state["parallel_stopped_key" := Flag(true)]).stopped)
  {
    var inner := [StopIf(name, test, output)] + rest;
    var branches := [Named("key", inner)];
    assert FlagKey("key") == "parallel_stopped_key";
    assert branches[1..] == [];
    assert ([Branch("branch", test, inner, NoChain)] + outer)[1..] == outer;
    assert ([Parallel("parallel", branches, false)] + outer)[1..] == outer;
    assert inner[0] == StopIf(name, test, output);
    assert StepEffect(inner[0], value, state) == Effect(Stop(output(value, state)), state);
    var m: map<string, Value> := map["key" := output(value, state)];
    assert ParallelEffect([], false, value, state, state[FlagKey("key") := Flag(true)], m)
        == Effect(Next(Dict(m)), state[FlagKey("key") := Flag(true)]);
    assert ParallelEffect(branches, false, value, state, state, map[])
           == Effect(Next(Dict(m)), state[FlagKey("key") := Flag(true)]);
  }
}
