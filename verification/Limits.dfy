/**
 Where a stronger claim would be false: a drive whose host keeps it busy, a step that comes too late, and
 the stream of a drive that raises on a step's account.
 */
module Limits {
  import opened Basics
  import opened Policies
  import opened Model
  import opened Engine
  import opened System
  import opened Completion
  import opened Termination
  import Stream

  // ---- a drive that is kept busy ----

  const PREPARED: Input := Serve(Served, Prepared(""), 0.0)

  /** One pass in which the handler of the step at `pos` prepares a new, ungated generation. */
  function BusyPass(pos: nat): seq<Input> {
    [PREPARED, PREPARED, PREPARED, PREPARED, Move(PutStep(pos, Pending, false)), PREPARED, PREPARED, PREPARED]
  }

  function BusyPasses(pos: nat, n: nat): seq<Input> {
    if n == 0 then [] else BusyPass(pos) + BusyPasses(pos, n - 1)
  }

  /** The drive is at the start of a pass that dispatches the pending, ungated step at `pos`. */
  ghost predicate KeptBusy(cfg: Config, s: State, pos: nat) {
    && s.e.pc.ReadRun? && !Halting(s.w.run.status) && s.e.started == 0.0
    && pos < |s.w.rows| && s.w.rows[pos].step.status.Pending? && !s.w.rows[pos].step.requiresApproval
    && s.w.rows[pos].step.kind in cfg.registered
    && Decide(cfg.cat, s.w.run, Views(s.w.rows), 0.0) == Write(StartStep(pos, s.w.rows[pos].step))
  }

  /** An input that leaves the run and the engine's clock alone. */
  ghost predicate Quiet(s: State, t: State, pc: Pc, rows: seq<Row>, passes: nat) {
    && t.e.pc == pc && t.e.started == s.e.started && t.w.run == s.w.run && t.w.rows == rows
    && PassCount(t.trace) == PassCount(s.trace) + passes
  }

  lemma ReadsPass(cfg: Config, s: State, pos: nat)
    requires KeptBusy(cfg, s, pos)
    ensures var t := Next(cfg, Next(cfg, s, PREPARED), PREPARED);
            Quiet(s, t, Write(StartStep(pos, s.w.rows[pos].step)), s.w.rows, 1)
  {
    var s1 := Next(cfg, s, PREPARED);
    assert s1.e == s.e.(pc := ReadSteps(Some(s.w.run))) && s1.w == s.w;
    PassCountSnoc(s.trace, Called(GetRun, RunRow(Some(s.w.run)), true));
    PassCountSnoc(s1.trace, Called(GetSteps, StepRows(Views(s.w.rows)), true));
  }

  lemma StartWritten(cfg: Config, s: State, pos: nat, step: Step)
    requires s.e.pc == Write(StartStep(pos, step)) && pos < |s.w.rows|
    ensures Quiet(s, Next(cfg, s, PREPARED), Log(StartStep(pos, step)), PutStatus(s.w.rows, pos, Running), 0)
  {
    PassCountSnoc(s.trace, Next(cfg, s, PREPARED).trace[|s.trace|]);
  }

  lemma StartLogged(cfg: Config, s: State, pos: nat, step: Step)
    requires s.e.pc == Log(StartStep(pos, step)) && step.kind in cfg.registered
    ensures Quiet(s, Next(cfg, s, PREPARED), Call(pos, step), s.w.rows, 0)
  {
    PassCountSnoc(s.trace, Next(cfg, s, PREPARED).trace[|s.trace|]);
  }

  lemma StartsPass(cfg: Config, s: State, mid: State, pos: nat, step: Step)
    requires s.e.pc == Write(StartStep(pos, step)) && pos < |s.w.rows| && step.kind in cfg.registered
    requires mid == Next(cfg, s, PREPARED)
    ensures Quiet(s, Next(cfg, mid, PREPARED), Call(pos, step), PutStatus(s.w.rows, pos, Running), 0)
  {
    StartWritten(cfg, s, pos, step);
    StartLogged(cfg, mid, pos, step);
  }

  lemma HandlerReparks(cfg: Config, s: State, rows: seq<Row>, pos: nat)
    requires pos < |rows| && rows[pos].step.status.Pending? && !rows[pos].step.requiresApproval
    requires s.w.rows == PutStatus(rows, pos, Running)
    ensures Quiet(s, Next(cfg, s, Move(PutStep(pos, Pending, false))), s.e.pc, rows, 0)
  {
    PassCountSnoc(s.trace, Host(PutStep(pos, Pending, false)));
  }

  lemma HandlerPrepares(cfg: Config, s: State, pos: nat, step: Step)
    requires s.e.pc == Call(pos, step)
    ensures Quiet(s, Next(cfg, s, PREPARED), Reread(pos, step), s.w.rows, 0)
  {
    PassCountSnoc(s.trace, Next(cfg, s, PREPARED).trace[|s.trace|]);
  }

  lemma PreparesPass(cfg: Config, s: State, mid: State, rows: seq<Row>, pos: nat)
    requires pos < |rows| && rows[pos].step.status.Pending? && !rows[pos].step.requiresApproval
    requires s.e.pc == Call(pos, rows[pos].step) && s.w.rows == PutStatus(rows, pos, Running)
    requires mid == Next(cfg, s, Move(PutStep(pos, Pending, false)))
    ensures Quiet(s, Next(cfg, mid, PREPARED), Reread(pos, rows[pos].step), rows, 0)
  {
    HandlerReparks(cfg, s, rows, pos);
    HandlerPrepares(cfg, mid, pos, rows[pos].step);
  }

  lemma RereadsPass(cfg: Config, s: State, pos: nat, step: Step)
    requires s.e.pc == Reread(pos, step) && pos < |s.w.rows| && s.w.rows[pos].step.status.Pending?
    ensures var t := Next(cfg, Next(cfg, s, PREPARED), PREPARED);
            Quiet(s, t, ReadRun, s.w.rows, 0)
  {
    var s1 := Next(cfg, s, PREPARED);
    assert s1.e == s.e.(pc := Drain(Again)) && s1.w == s.w;
    PassCountSnoc(s.trace, s1.trace[|s.trace|]);
    PassCountSnoc(s1.trace, Next(cfg, s1, PREPARED).trace[|s1.trace|]);
  }

  /** Four answers, the handler's re-parking, and three more answers. */
  lemma BusyPassInOrder(cfg: Config, s: State, pos: nat)
    ensures var s2 := Next(cfg, Next(cfg, s, PREPARED), PREPARED);
            var s4 := Next(cfg, Next(cfg, s2, PREPARED), PREPARED);
            var s6 := Next(cfg, Next(cfg, s4, Move(PutStep(pos, Pending, false))), PREPARED);
            RunAll(cfg, s, BusyPass(pos)) == Next(cfg, Next(cfg, s6, PREPARED), PREPARED)
  {
    var prepare := Move(PutStep(pos, Pending, false));
    var s4 := Next(cfg, Next(cfg, Next(cfg, Next(cfg, s, PREPARED), PREPARED), PREPARED), PREPARED);
    RunFour(cfg, s, PREPARED, PREPARED, PREPARED, PREPARED);
    RunFour(cfg, s4, prepare, PREPARED, PREPARED, PREPARED);
    RunAllSplit(cfg, s, [PREPARED, PREPARED, PREPARED, PREPARED], [prepare, PREPARED, PREPARED, PREPARED]);
    assert BusyPass(pos) == [PREPARED, PREPARED, PREPARED, PREPARED] + [prepare, PREPARED, PREPARED, PREPARED];
  }

  lemma BusyPassRepeats(cfg: Config, s: State, pos: nat)
    requires KeptBusy(cfg, s, pos)
    ensures var t := RunAll(cfg, s, BusyPass(pos)); Quiet(s, t, ReadRun, s.w.rows, 1)
  {
    var step, prepare := s.w.rows[pos].step, Move(PutStep(pos, Pending, false));
    var s2 := Next(cfg, Next(cfg, s, PREPARED), PREPARED);
    ReadsPass(cfg, s, pos);
    var s4 := Next(cfg, Next(cfg, s2, PREPARED), PREPARED);
    StartsPass(cfg, s2, Next(cfg, s2, PREPARED), pos, step);
    var s6 := Next(cfg, Next(cfg, s4, prepare), PREPARED);
    PreparesPass(cfg, s4, Next(cfg, s4, prepare), s.w.rows, pos);
    RereadsPass(cfg, s6, pos, step);
    BusyPassInOrder(cfg, s, pos);
  }

  /** From such a pass on, any number of passes may follow, so only the host's fuel bounds a drive. */
  lemma {:induction false} BusyDriveGoesOn(cfg: Config, s: State, pos: nat, n: nat)
    requires KeptBusy(cfg, s, pos)
    ensures var t := RunAll(cfg, s, BusyPasses(pos, n));
            t.e.pc.ReadRun? && PassCount(t.trace) == PassCount(s.trace) + n
    decreases n
  {
    if n > 0 {
      var pass, mid := BusyPass(pos), RunAll(cfg, s, BusyPass(pos));
      BusyPassRepeats(cfg, s, pos);
      RunAllSplit(cfg, s, pass, BusyPasses(pos, n - 1));
      BusyDriveGoesOn(cfg, mid, pos, n - 1);
    }
  }

  /** A pending, ungated, permitted step within its budget, under a policy that does not stop at it. */
  ghost predicate Dispatchable(cfg: Config, w: World, pos: nat) {
    && !Terminal(w.run.status)
    && pos < |w.rows| && w.rows[pos].step.status.Pending? && !w.rows[pos].step.requiresApproval
    && w.rows[pos].step.kind in cfg.registered
    && Decide(cfg.cat, w.run, Views(w.rows), 0.0) == Write(StartStep(pos, w.rows[pos].step))
  }

  /** The opening of a drive: the cursor, the running status, the first drain. */
  ghost predicate Opening(w: World, s: State, pc: Pc) {
    && s.e.pc == pc && s.w.rows == w.rows && PassCount(s.trace) == 0
    && (pc.MarkRunning? ==> s.w.run == w.run)
    && (!pc.MarkRunning? ==> s.w.run == w.run.(status := RunRunning))
  }

  lemma OpensSequence(cfg: Config, w: World)
    requires !Terminal(w.run.status)
    ensures Opening(w, Next(cfg, DriveFrom(w), PREPARED), MarkRunning)
  {
    PassCountSnoc([], Next(cfg, DriveFrom(w), PREPARED).trace[0]);
  }

  lemma OpensRun(cfg: Config, w: World, s: State)
    requires Opening(w, s, MarkRunning)
    ensures Opening(w, Next(cfg, s, PREPARED), FirstDrain)
  {
    PassCountSnoc(s.trace, Next(cfg, s, PREPARED).trace[|s.trace|]);
  }

  lemma OpensStream(cfg: Config, w: World, s: State)
    requires Opening(w, s, FirstDrain)
    ensures Opening(w, Next(cfg, s, PREPARED), ReadRun) && Next(cfg, s, PREPARED).e.started == 0.0
  {
    PassCountSnoc(s.trace, Next(cfg, s, PREPARED).trace[|s.trace|]);
  }

  lemma DecideForgetsStatus(cat: Catalogue, run: Run, status: RunStatus, steps: seq<Step>)
    ensures Decide(cat, run.(status := status), steps, 0.0) == Decide(cat, run, steps, 0.0)
  {
  }

  lemma DriveOpens(cfg: Config, w: World, pos: nat, s1: State, s2: State, s3: State)
    requires Dispatchable(cfg, w, pos)
    requires s1 == Next(cfg, DriveFrom(w), PREPARED) && s2 == Next(cfg, s1, PREPARED) && s3 == Next(cfg, s2, PREPARED)
    ensures KeptBusy(cfg, s3, pos) && PassCount(s3.trace) == 0
  {
    OpensSequence(cfg, w);
    OpensRun(cfg, w, s1);
    OpensStream(cfg, w, s2);
    DecideForgetsStatus(cfg.cat, w.run, RunRunning, Views(w.rows));
  }

  /** A drive from such a world may make any number of passes: its host need only prepare that often. */
  lemma DriveMayGoOn(cfg: Config, w: World, pos: nat, n: nat) returns (ins: seq<Input>)
    requires Dispatchable(cfg, w, pos)
    ensures OneDrive(ins)
    ensures var t := RunAll(cfg, DriveFrom(w), ins); t.e.pc == ReadRun && PassCount(t.trace) == n
  {
    var open := [PREPARED, PREPARED, PREPARED];
    var s1 := Next(cfg, DriveFrom(w), PREPARED);
    var s2 := Next(cfg, s1, PREPARED);
    var mid := Next(cfg, s2, PREPARED);
    DriveOpens(cfg, w, pos, s1, s2, mid);
    RunThree(cfg, DriveFrom(w), PREPARED, PREPARED, PREPARED);
    BusyDriveGoesOn(cfg, mid, pos, n);
    RunAllSplit(cfg, DriveFrom(w), open, BusyPasses(pos, n));
    BusyPassesBeginNothing(pos, n);
    ins := open + BusyPasses(pos, n);
  }

  lemma {:induction false} BusyPassesBeginNothing(pos: nat, n: nat)
    ensures OneDrive(BusyPasses(pos, n))
    decreases n
  {
    if n > 0 {
      BusyPassesBeginNothing(pos, n - 1);
    }
  }

  /** Such a world exists: one pending automatic step under `auto_complete`. */
  lemma BusyWorldExists() returns (cfg: Config, w: World)
    ensures Dispatchable(cfg, w, 0) && w.run.policy == Some(AUTO_COMPLETE) && |w.rows| == 1
  {
    var kind := "model_call";
    cfg := Config(Catalogue(map[kind := AutoSafe], map[], map[], map[], {}), {kind}, false);
    w := World(Run(RunOther("planned"), Some(AUTO_COMPLETE), true, JNull, JNull, JNull, JNull),
               [Row(Step(kind, "", Pending, false), None, None)], [], 1);
    assert Views(w.rows) == [w.rows[0].step];
  }

  // ---- a step that comes too late ----

  /** A step appended after the final read of the run is not seen: the run completes with it unfinished. */
  lemma LateStepIsMissed(cfg: Config, s: State, late: Step, outcome: Outcome, clock: real)
    requires s.e.pc.CompleteStatus? && !Done(late.status)
    ensures var t := Next(cfg, Next(cfg, s, Move(AddStep(late))), Serve(Served, outcome, clock));
            && t.w.run.status.RunCompleted?
            && !(forall k :: 0 <= k < |t.w.rows| ==> Done(t.w.rows[k].step.status))
  {
    var t := Next(cfg, Next(cfg, s, Move(AddStep(late))), Serve(Served, outcome, clock));
    assert t.w.rows[|s.w.rows|].step == late;
  }

  // ---- raising on a step's account ----

  /** The start of the step being executed is in the log and not yet in the stream. */
  ghost predicate StartUnseen(s: State) {
    && s.mark + |s.e.yielded| <= |s.w.log|
    && (Behindhand(s.e.pc) ==> s.mark + |s.e.yielded| < |s.w.log|)
  }

  predicate Behindhand(pc: Pc) {
    match pc
    case Call(_, _) => true
    case Resting(exit) => exit.OutcomeUnknown? || exit.HostSignal?
    case _ => false
  }

  lemma BehindhandComes(cfg: Config, e: Engine, reply: Reply, clock: real)
    requires !e.pc.Resting? && Behindhand(Resume(cfg, e, reply, clock).pc)
    ensures Resume(cfg, e, reply, clock).yielded == e.yielded && !Ask(e).NextSequence?
    ensures Behindhand(e.pc) || (Ask(e).Append? && reply.Appended?)
  {
  }

  lemma StartStaysUnseen(cfg: Config, s: State, i: Input)
    requires Stream.StreamInv(s) && StartUnseen(s)
    ensures StartUnseen(Next(cfg, s, i))
  {
    Stream.StreamStep(cfg, s, i);
    if i.Serve? && !s.e.pc.Resting? {
      var (w', reply) := Perform(s.w, Ask(s.e), i.answer, i.outcome);
      Stream.PerformForStream(s.w, Ask(s.e), i.answer, i.outcome);
      if Behindhand(Next(cfg, s, i).e.pc) {
        BehindhandComes(cfg, s.e, reply, i.clock);
      }
    }
  }

  lemma {:induction false} StartUnseenAlong(cfg: Config, s: State, ins: seq<Input>)
    requires Stream.StreamInv(s) && StartUnseen(s)
    ensures StartUnseen(RunAll(cfg, s, ins))
    decreases |ins|
  {
    if |ins| > 0 {
      Stream.StreamStep(cfg, s, ins[0]);
      StartStaysUnseen(cfg, s, ins[0]);
      StartUnseenAlong(cfg, Next(cfg, s, ins[0]), ins[1..]);
    }
  }

  /** A drive that raises because a handler gave no outcome never yields all that was appended. */
  lemma RaisingStreamIsShort(cfg: Config, w: World, ins: seq<Input>)
    requires Stream.LogOk(w)
    ensures var s := RunAll(cfg, Start(w), ins);
            s.e.pc.Resting? && (s.e.pc.exit.OutcomeUnknown? || s.e.pc.exit.HostSignal?)
            ==> s.mark + |s.e.yielded| < |s.w.log|
  {
    StartUnseenAlong(cfg, Start(w), ins);
  }
}
