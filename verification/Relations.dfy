/** Theorems about two runs of the same plan: stopping and resuming, and changing the policy. */
module Relations {
  import opened Basics
  import opened Policies
  import opened Model
  import opened Engine
  import opened System
  import opened Gates
  import opened Calm
  import opened CalmRun

  /** The run has come to its own end: not to a pause, and to a budget stop only under the full budget. */
  ghost predicate Concluded(env: Setting, w: World, s: State) {
    && s.e.pc.Resting?
    && (Over(s.e.pc)
        || (s.e.pc.exit == Return(OutOfBudget)
            && PositiveInt(LastView(s.trace, w.run).maxSteps) == PositiveInt(env.budget)))
  }

  lemma BudgetHalts(env: Setting, h: Handler, view: Run, p: Progress)
    requires p.halted.None? && BudgetStops(env, view, p.rows)
    requires PositiveInt(view.maxSteps) == PositiveInt(env.budget)
    ensures Advance(env, h, p) == Progress(p.rows, p.calls, Some(Budgeted))
  {
    DecideCalmly(env, view, Views(p.rows), 0.0);
    assert p.calls + [] == p.calls;
  }

  /** Why a drive that left this exit had come to its end. */
  function Reason(exit: Exit): Why {
    match exit
    case Return(ending) =>
      (match ending
       case EndedCompleted => AllDone
       case EndedFailed => StepFailed
       case AlreadyReported => StepFailed
       case OutOfBudget => Budgeted
       case _ => AtGate)
    case _ => Raised
  }

  lemma FinaleReason(p: Progress, exit: Exit)
    requires Finale(p, Resting(exit))
    ensures p.halted == Some(Reason(exit))
  {
  }

  /** What the simulation says of a history that has concluded. */
  lemma ConcludedStands(env: Setting, h: Handler, w: World, s: State, p: Progress)
    requires Sim(env, h, w.run, s, p) && Concluded(env, w, s)
    ensures s.w.rows == p.rows && CallsOf(s.trace) == p.calls
    ensures if Over(s.e.pc) then Finale(p, s.e.pc)
            else p.halted.None? && BudgetStops(env, LastView(s.trace, w.run), p.rows)
  {
  }

  /** A concluded history has run the chain to its end. */
  lemma ConcludedIsHalted(env: Setting, h: Handler, w: World, ins: seq<Input>) returns (n: nat)
    requires NeverPrepares(h) && Steady(env, w.run) && CalmAlong(env, h, Start(w), ins)
    requires Concluded(env, w, RunAll(env.cfg, Start(w), ins))
    ensures var s, p := RunAll(env.cfg, Start(w), ins), Chain(env, h, w.rows, n);
            p.halted == Some(Reason(s.e.pc.exit)) && s.w.rows == p.rows && CallsOf(s.trace) == p.calls
  {
    n := EngineFollowsChain(env, h, w, ins);
    var s, p := RunAll(env.cfg, Start(w), ins), Chain(env, h, w.rows, n);
    ConcludedStands(env, h, w, s, p);
    if Over(s.e.pc) {
      FinaleReason(p, s.e.pc.exit);
    } else {
      BudgetHalts(env, h, LastView(s.trace, w.run), p);
      assert Chain(env, h, w.rows, n + 1) == Advance(env, h, p);
      n := n + 1;
    }
  }

  /**
   Stop and resume is invisible. A history cut by any number of pauses, cancels that were re-opened,
   and tighter budgets, at any callbacks, makes the same handler calls in the same order, ends with the
   same rows and for the same reason as one uninterrupted drive of the same run.
   */
  lemma StopAndResumeIsInvisible(env: Setting, h: Handler, w: World, w1: World, cut: seq<Input>, whole: seq<Input>)
    requires NeverPrepares(h) && Steady(env, w.run) && Steady(env, w1.run) && w1.rows == w.rows
    requires CalmAlong(env, h, Start(w), cut) && Concluded(env, w, RunAll(env.cfg, Start(w), cut))
    requires |whole| > 0 && whole[0].Begin? && forall i :: i in whole[1..] ==> !i.Begin?
    requires CalmAlong(env, h, Start(w1), whole) && Concluded(env, w1, RunAll(env.cfg, Start(w1), whole))
    ensures var s, t := RunAll(env.cfg, Start(w), cut), RunAll(env.cfg, Start(w1), whole);
            && CallsOf(s.trace) == CallsOf(t.trace) && s.w.rows == t.w.rows
            && Reason(s.e.pc.exit) == Reason(t.e.pc.exit)
  {
    var n := ConcludedIsHalted(env, h, w, cut);
    var m := ConcludedIsHalted(env, h, w1, whole);
    HaltedIsUnique(env, h, w.rows, n, m);
  }

  // ---- histories in progress ----

  /** In the middle of a beat the calls made are those before it, or those and the beat's own. */
  lemma MidwayCalls(env: Setting, h: Handler, p: Progress, pc: Pc, rows: seq<Row>, calls: seq<nat>)
    requires Midway(env, h, p, pc, rows, calls)
    ensures p.calls <= calls <= Advance(env, h, p).calls
  {
  }

  /** Whatever moment a history has come to, its calls lie between those of two successive stages of the chain. */
  lemma CallsBetween(env: Setting, h: Handler, w: World, ins: seq<Input>) returns (n: nat)
    requires NeverPrepares(h) && Steady(env, w.run) && CalmAlong(env, h, Start(w), ins)
    ensures var calls := CallsOf(RunAll(env.cfg, Start(w), ins).trace);
            Chain(env, h, w.rows, n).calls <= calls <= Chain(env, h, w.rows, n + 1).calls
  {
    n := EngineFollowsChain(env, h, w, ins);
    var s, p := RunAll(env.cfg, Start(w), ins), Chain(env, h, w.rows, n);
    assert Chain(env, h, w.rows, n + 1) == Advance(env, h, p);
    if !Between(s.e.pc) && !Over(s.e.pc) {
      MidwayCalls(env, h, p, s.e.pc, s.w.rows, CallsOf(s.trace));
    }
  }

  lemma {:induction false} CallsGrow(env: Setting, h: Handler, rows: seq<Row>, n: nat, m: nat)
    requires n <= m
    ensures Chain(env, h, rows, n).calls <= Chain(env, h, rows, m).calls
    decreases m - n
  {
    if n < m {
      CallsGrow(env, h, rows, n, m - 1);
    }
  }

  /** At every stage the stricter chain's calls are a prefix; where it did not stop for review the chains agree. */
  lemma StagesUnderAuto(env: Setting, h: Handler, rows: seq<Row>, n: nat, m: nat)
    requires env.terms.policy.Some? && n <= m
    ensures Chain(env, h, rows, n).calls <= Chain(Loosened(env), h, rows, m).calls
    ensures var strict := Chain(env, h, rows, n);
            strict.halted.Some? && strict.halted != Some(AtGate) ==> Chain(Loosened(env), h, rows, m) == strict
  {
    ChainUnderAuto(env, Loosened(env), h, rows, n);
    CallsGrow(Loosened(env), h, rows, n, m);
    if Chain(Loosened(env), h, rows, n).halted.Some? {
      HaltedStays(Loosened(env), h, rows, n, m);
    }
  }

  /** The same run with its policy replaced by `auto_complete`. */
  function Loosened(env: Setting): Setting {
    env.(terms := env.terms.(policy := Some(AUTO_COMPLETE)))
  }

  /** Two prefixes of one sequence are comparable. */
  lemma Comparable(a: seq<nat>, a': seq<nat>, b: seq<nat>, b': seq<nat>, c: seq<nat>)
    requires a <= a' <= c && b <= b' <= c
    ensures a <= b || b <= a
  {
    assert a == c[..|a|] && b == c[..|b|];
  }

  lemma StagesComparable(env: Setting, h: Handler, rows: seq<Row>, n: nat, m: nat, a: seq<nat>, b: seq<nat>)
    requires env.terms.policy.Some?
    requires a <= Chain(env, h, rows, n).calls && b <= Chain(Loosened(env), h, rows, m).calls
    ensures a <= b || b <= a
  {
    var k := if n <= m then m else n;
    StagesUnderAuto(env, h, rows, n, k);
    CallsGrow(Loosened(env), h, rows, m, k);
    Comparable(a, Chain(env, h, rows, n).calls, b, Chain(Loosened(env), h, rows, m).calls,
               Chain(Loosened(env), h, rows, k).calls);
  }

  lemma CallsWithin(env: Setting, h: Handler, w: World, ins: seq<Input>) returns (n: nat)
    requires NeverPrepares(h) && Steady(env, w.run) && CalmAlong(env, h, Start(w), ins)
    ensures CallsOf(RunAll(env.cfg, Start(w), ins).trace) <= Chain(env, h, w.rows, n).calls
  {
    n := CallsBetween(env, h, w, ins);
    n := n + 1;
  }

  lemma CallsComparable(env: Setting, h: Handler, w: World, w1: World, ins: seq<Input>, auto: seq<Input>)
    requires NeverPrepares(h) && env.terms.policy.Some? && w1.rows == w.rows
    requires Steady(env, w.run) && CalmAlong(env, h, Start(w), ins)
    requires Steady(Loosened(env), w1.run) && CalmAlong(Loosened(env), h, Start(w1), auto)
    ensures var s, t := RunAll(env.cfg, Start(w), ins), RunAll(env.cfg, Start(w1), auto);
            CallsOf(s.trace) <= CallsOf(t.trace) || CallsOf(t.trace) <= CallsOf(s.trace)
  {
    var s, t := RunAll(env.cfg, Start(w), ins), RunAll(env.cfg, Start(w1), auto);
    var n := CallsWithin(env, h, w, ins);
    var m := CallsWithin(Loosened(env), h, w1, auto);
    StagesComparable(env, h, w.rows, n, m, CallsOf(s.trace), CallsOf(t.trace));
  }

  /** No history under a stricter policy is ahead of an `auto_complete` run that has ended. */
  lemma StrictStaysBehind(env: Setting, h: Handler, w: World, w1: World, ins: seq<Input>, auto: seq<Input>)
    requires NeverPrepares(h) && env.terms.policy.Some? && w1.rows == w.rows
    requires Steady(env, w.run) && CalmAlong(env, h, Start(w), ins)
    requires Steady(Loosened(env), w1.run) && CalmAlong(Loosened(env), h, Start(w1), auto)
    requires Concluded(Loosened(env), w1, RunAll(env.cfg, Start(w1), auto))
    ensures CallsOf(RunAll(env.cfg, Start(w), ins).trace) <= CallsOf(RunAll(env.cfg, Start(w1), auto).trace)
  {
    var n := CallsBetween(env, h, w, ins);
    var last := ConcludedIsHalted(Loosened(env), h, w1, auto);
    var far := if last <= n then n + 1 else last;
    StagesUnderAuto(env, h, w.rows, n + 1, far);
    HaltedStays(Loosened(env), h, w.rows, last, far);
  }

  /** A run that comes to its end without a review stop is the `auto_complete` run. */
  lemma UnstoppedIsAuto(env: Setting, h: Handler, w: World, w1: World, ins: seq<Input>, auto: seq<Input>)
    requires NeverPrepares(h) && env.terms.policy.Some? && w1.rows == w.rows
    requires Steady(env, w.run) && CalmAlong(env, h, Start(w), ins)
    requires Steady(Loosened(env), w1.run) && CalmAlong(Loosened(env), h, Start(w1), auto)
    requires var s := RunAll(env.cfg, Start(w), ins); Concluded(env, w, s) && Reason(s.e.pc.exit) != AtGate
    ensures var s, t := RunAll(env.cfg, Start(w), ins), RunAll(env.cfg, Start(w1), auto);
            && CallsOf(t.trace) <= CallsOf(s.trace)
            && (Concluded(Loosened(env), w1, t) ==>
                  s.w.rows == t.w.rows && CallsOf(s.trace) == CallsOf(t.trace)
                  && Reason(s.e.pc.exit) == Reason(t.e.pc.exit))
  {
    var t := RunAll(env.cfg, Start(w1), auto);
    var n := ConcludedIsHalted(env, h, w, ins);
    var m := CallsBetween(Loosened(env), h, w1, auto);
    var k := if n <= m then m + 1 else n;
    StagesUnderAuto(env, h, w.rows, n, n);
    StagesUnderAuto(env, h, w.rows, n, k);
    CallsGrow(Loosened(env), h, w.rows, m + 1, k);
    if Concluded(Loosened(env), w1, t) {
      var last := ConcludedIsHalted(Loosened(env), h, w1, auto);
      HaltedIsUnique(Loosened(env), h, w.rows, n, last);
    }
  }

  /**
   Policies order runs. From the same rows, with a handler that ignores the policy, take any history under any
   policy string and any history under `auto_complete`, in progress or at their ends. One has made a prefix of the
   other's handler calls; the stricter one is never ahead of an `auto_complete` run that has ended; and one that
   ends without a review stop is never behind, and ends with the same rows and for the same reason.
   */
  lemma AutoCompleteGoesFurthest(env: Setting, h: Handler, w: World, w1: World, ins: seq<Input>, auto: seq<Input>)
    requires NeverPrepares(h) && env.terms.policy.Some? && w1.rows == w.rows
    requires Steady(env, w.run) && CalmAlong(env, h, Start(w), ins)
    requires Steady(Loosened(env), w1.run) && CalmAlong(Loosened(env), h, Start(w1), auto)
    ensures var s, t := RunAll(env.cfg, Start(w), ins), RunAll(env.cfg, Start(w1), auto);
            var ended := Concluded(Loosened(env), w1, t);
            && (CallsOf(s.trace) <= CallsOf(t.trace) || CallsOf(t.trace) <= CallsOf(s.trace))
            && (ended ==> CallsOf(s.trace) <= CallsOf(t.trace))
            && (Concluded(env, w, s) && Reason(s.e.pc.exit) != AtGate ==>
                  && CallsOf(t.trace) <= CallsOf(s.trace)
                  && (ended ==> s.w.rows == t.w.rows && Reason(s.e.pc.exit) == Reason(t.e.pc.exit)))
  {
    CallsComparable(env, h, w, w1, ins, auto);
    var s := RunAll(env.cfg, Start(w), ins);
    if Concluded(Loosened(env), w1, RunAll(env.cfg, Start(w1), auto)) {
      StrictStaysBehind(env, h, w, w1, ins, auto);
    }
    if Concluded(env, w, s) && Reason(s.e.pc.exit) != AtGate {
      UnstoppedIsAuto(env, h, w, w1, ins, auto);
    }
  }
}
