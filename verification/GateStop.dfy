/** A run stopped at its approval gate stays stopped: driving it again changes nothing. */
module GateStop {
  import opened Basics
  import opened Policies
  import opened Model
  import opened Engine
  import opened System
  import opened Gates
  import opened Failures
  import Budget

  // ---- what a stop for review has read ----

  /** The first unfinished step waits: permitted, within the step budget, and not let through by the settings. */
  ghost predicate HeldForReview(cat: Catalogue, view: Run, steps: seq<Step>) {
    && FirstUnfinished(steps).Some?
    && var step := steps[FirstUnfinished(steps).value];
       && Unstarted(step.status)
       && MissingGrant(cat, step.kind, view.grants).None?
       && WithinStepBudget(view, steps)
       && ResolveGate(cat, view, step).2
  }

  /** The control states of a drive that is stopping for review, or has. */
  predicate Stopping(pc: Pc) {
    match pc
    case Write(t) => t.onward.ThenStop?
    case Log(t) => t.onward.ThenStop?
    case StopStatus => true
    case Drain(after) => after == Quit(Gated)
    case Resting(exit) => exit == Return(Gated)
    case _ => false
  }

  lemma DecideHolds(cat: Catalogue, view: Run, steps: seq<Step>, elapsed: real)
    ensures Stopping(Decide(cat, view, steps, elapsed)) ==> HeldForReview(cat, view, steps)
  {
  }

  lemma StoppingCarried(cfg: Config, e: Engine, reply: Reply, clock: real)
    requires !e.pc.Resting? && !e.pc.ReadSteps?
    ensures Stopping(Resume(cfg, e, reply, clock).pc) ==> Stopping(e.pc) && !Ask(e).GetRun? && !Ask(e).GetSteps?
  {
  }

  ghost predicate HoldInv(cfg: Config, s: State, init: Run) {
    && GateInv(cfg, s, init)
    && (Stopping(s.e.pc) ==> HeldForReview(cfg.cat, LastView(s.trace, init), LastSteps(s.trace)))
  }

  lemma HoldServed(cfg: Config, s: State, t: State, a: Act, clock: real, init: Run)
    requires HoldInv(cfg, s, init) && !s.e.pc.Resting?
    requires a.Called? && a.req == Ask(s.e) && t.trace == s.trace + [a] && t.e == Resume(cfg, s.e, a.reply, clock)
    ensures HoldInv(cfg, t, init)
  {
    GateServed(cfg, s, t, a, clock, init);
    LastSnoc(s.trace, a, init);
    if s.e.pc.ReadSteps? {
      if a.reply.StepRows? {
        DecideHolds(cfg.cat, View(s.e.held, s.e.pc.current), a.reply.steps, clock - s.e.started);
      }
    } else {
      StoppingCarried(cfg, s.e, a.reply, clock);
    }
  }

  lemma HoldStep(cfg: Config, s: State, i: Input, init: Run)
    requires HoldInv(cfg, s, init)
    ensures HoldInv(cfg, Next(cfg, s, i), init)
  {
    match i
    case Move(m) =>
      GateStep(cfg, s, i, init);
      LastSnoc(s.trace, Host(m), init);
    case Begin =>
      GateStep(cfg, s, i, init);
    case Serve(answer, outcome, clock) =>
      if !s.e.pc.Resting? {
        var reply := Perform(s.w, Ask(s.e), answer, outcome).1;
        HoldServed(cfg, s, Next(cfg, s, i), Called(Ask(s.e), reply, Ask(s.e).Invoke? || !answer.Refused?), clock, init);
      }
  }

  lemma {:induction false} HoldAlong(cfg: Config, s: State, ins: seq<Input>, init: Run)
    requires HoldInv(cfg, s, init)
    ensures HoldInv(cfg, RunAll(cfg, s, ins), init)
    decreases |ins|
  {
    if |ins| > 0 {
      HoldStep(cfg, s, ins[0], init);
      HoldAlong(cfg, Next(cfg, s, ins[0]), ins[1..], init);
    }
  }

  // ---- driving a parked run ----

  predicate SameSettings(run: Run, run': Run) {
    run'.(status := run.status) == run
  }

  /** The control states of a drive that is on its way to the gate it will stop at again. */
  ghost predicate Approaching(pc: Pc, run: Run, parked: Run) {
    match pc
    case Resting(exit) => exit.StoreFailed? || (exit == Return(Gated) && run.status.RunAwaiting?)
    case AskSequence => true
    case MarkRunning => true
    case FirstDrain => run.status.RunRunning?
    case ReadRun => run.status.RunRunning?
    case ReadSteps(current) => current.Some? ==> SameSettings(parked, current.value)
    case StopStatus => true
    case Drain(after) => after == Quit(Gated) && run.status.RunAwaiting?
    case _ => false
  }

  /** The parked rows, the log and the settings are as they were; only the status goes back and forth. */
  ghost predicate Parked(cfg: Config, s: State, w: World) {
    && s.w.rows == w.rows && s.w.log == w.log && SameSettings(w.run, s.w.run)
    && (s.w.run.status.RunRunning? || s.w.run.status.RunAwaiting?)
    && (!s.e.pc.Resting? ==> SameSettings(w.run, s.e.held) && !Terminal(s.e.held.status))
    && Approaching(s.e.pc, s.w.run, w.run)
  }

  /** A step waits at a gate that the stored settings do not open. */
  ghost predicate AtClosedGate(cfg: Config, w: World) {
    PositiveInt(w.run.maxWall).None? && Decide(cfg.cat, w.run, Views(w.rows), 0.0) == StopStatus
  }

  lemma StopsAgain(cfg: Config, w: World, view: Run, elapsed: real)
    requires AtClosedGate(cfg, w) && SameSettings(w.run, view)
    ensures Decide(cfg.cat, view, Views(w.rows), elapsed) == StopStatus
  {
  }

  /** One callback of such a drive: it looks, moves the status, or stops at the gate again. */
  lemma ParkedResumes(cfg: Config, e: Engine, w: World, run: Run, run': Run, reply: Reply, clock: real)
    requires AtClosedGate(cfg, w) && !e.pc.Resting? && Approaching(e.pc, run, w.run)
    requires SameSettings(w.run, e.held) && !Terminal(e.held.status)
    requires SameSettings(w.run, run) && SameSettings(w.run, run')
    requires run' == if Ask(e).SetRunStatus? && run' != run then run.(status := Ask(e).status) else run
    requires Ask(e).SetRunStatus? && reply.RunRow? ==> run' == run.(status := Ask(e).status)
    requires Ask(e).GetRun? && reply.RunRow? && reply.run.Some? ==> reply.run.value == run
    requires Ask(e).GetSteps? && reply.StepRows? ==> reply.steps == Views(w.rows)
    ensures Approaching(Resume(cfg, e, reply, clock).pc, run', w.run)
    ensures !Ask(e).Invoke? && !Ask(e).Append? && !Ask(e).SetStepState? && !Ask(e).RunEnd? && !Ask(e).Rollback?
    ensures !Ask(e).GetStep? && (Ask(e).SetRunStatus? ==> Ask(e).status.RunRunning? || Ask(e).status.RunAwaiting?)
    ensures Resume(cfg, e, reply, clock).held == e.held
  {
    if e.pc.ReadSteps? {
      StopsAgain(cfg, w, View(e.held, e.pc.current), clock - e.started);
    }
  }

  lemma ParkedStep(cfg: Config, s: State, w: World, i: Input)
    requires AtClosedGate(cfg, w) && Parked(cfg, s, w) && !i.Move?
    ensures var t := Next(cfg, s, i);
            && Parked(cfg, t, w)
            && (t.trace == s.trace || (|t.trace| == |s.trace| + 1 && t.trace[..|s.trace|] == s.trace
                                       && OnlyLooks(t.trace[|s.trace|])))
  {
    if i.Serve? && !s.e.pc.Resting? {
      var (w', reply) := Perform(s.w, Ask(s.e), i.answer, i.outcome);
      ParkedResumes(cfg, s.e, w, s.w.run, w'.run, reply, i.clock);
    }
  }

  lemma {:induction false} ParkedAlong(cfg: Config, s: State, w: World, ins: seq<Input>)
    requires AtClosedGate(cfg, w) && Parked(cfg, s, w) && forall i :: i in ins ==> !i.Move?
    ensures var t := RunAll(cfg, s, ins);
            && Parked(cfg, t, w)
            && |s.trace| <= |t.trace| && t.trace[..|s.trace|] == s.trace
            && (forall k :: |s.trace| <= k < |t.trace| ==> OnlyLooks(t.trace[k]))
    decreases |ins|
  {
    if |ins| > 0 {
      var mid := Next(cfg, s, ins[0]);
      ParkedStep(cfg, s, w, ins[0]);
      ParkedAlong(cfg, mid, w, ins[1..]);
      var t := RunAll(cfg, s, ins);
      assert forall k :: 0 <= k < |mid.trace| ==> t.trace[..|mid.trace|][k] == t.trace[k];
      assert t.trace[..|s.trace|] == mid.trace[..|s.trace|];
    }
  }

  /** The steps with the first unfinished one awaiting approval. */
  function Waiting(steps: seq<Step>): seq<Step> {
    match FirstUnfinished(steps)
    case None => steps
    case Some(pos) => steps[pos := steps[pos].(status := Awaiting)]
  }

  /** What was held for review is held again by the same settings, once it has been parked. */
  lemma HeldStopsAgain(cat: Catalogue, view: Run, run: Run, steps: seq<Step>)
    requires HeldForReview(cat, view, steps) && SameSettings(run, view) && PositiveInt(run.maxWall).None?
    ensures Decide(cat, run, Waiting(steps), 0.0) == StopStatus
  {
    var pos := FirstUnfinished(steps).value;
    var waiting := Waiting(steps);
    Budget.ExecutedUpdate(steps, pos, waiting[pos]);
    assert waiting[pos].status.Awaiting? && FirstUnfinished(waiting) == Some(pos);
  }

  /** The host's records are what the drive last read, with its own parking and status write. */
  ghost predicate Unchanged(s: State, init: Run) {
    && SameSettings(s.w.run, LastView(s.trace, init)) && s.w.run.status.RunAwaiting?
    && Views(s.w.rows) == Waiting(LastSteps(s.trace))
  }

  /**
   A gate stop is a fixed point. Whatever the handlers, the host and the earlier drives did: when a run that
   stopped at its gate is driven again, any number of times and whatever callbacks fail, with nothing changed and
   no wall budget, no handler is called, no event appended and no step written, and every drive that returns
   stops at the gate, awaiting approval.
   */
  lemma GateStopIsFixed(cfg: Config, w: World, before: seq<Input>, again: seq<Input>)
    requires var s := RunAll(cfg, Start(w), before);
             s.e.pc == Resting(Return(Gated)) && Unchanged(s, w.run) && PositiveInt(s.w.run.maxWall).None?
    requires forall i :: i in again ==> !i.Move?
    ensures var s, t := RunAll(cfg, Start(w), before), RunAll(cfg, Start(w), before + again);
            && t.w.rows == s.w.rows && t.w.log == s.w.log
            && |s.trace| <= |t.trace| && t.trace[..|s.trace|] == s.trace
            && (forall k :: |s.trace| <= k < |t.trace| ==> OnlyLooks(t.trace[k]))
            && (t.e.pc.Resting? ==>
                  t.e.pc.exit.StoreFailed? || (t.e.pc.exit == Return(Gated) && t.w.run.status.RunAwaiting?))
  {
    var s := RunAll(cfg, Start(w), before);
    HoldAlong(cfg, Start(w), before, w.run);
    HeldStopsAgain(cfg.cat, LastView(s.trace, w.run), s.w.run, LastSteps(s.trace));
    ParkedAlong(cfg, s, s.w, again);
    RunAllSplit(cfg, Start(w), before, again);
  }
}
