/**
 Concrete drives from their first callback on: a cancel that lands at each kind of moment at which the engine is
 about to write a status of its own, and a step that is appended after the last reading.
 */
module Moments {
  import opened Basics
  import opened Policies
  import opened Model
  import opened Engine
  import opened System
  import opened Completion
  import opened Scenes

  /** One registered type, no gates by type, and a hook. */
  const PLAIN: Config := Config(Catalogue(map[], map[], map[], map[], {}), {"model_call"}, true)

  const PLANNED: Run := Run(RunOther("planned"), None, false, JNull, JNull, JInt(1), JNull)

  const CANCEL: Input := Move(PutRun(PLANNED.(status := RunCancelled)))

  function Planned(rows: seq<Row>): World {
    World(PLANNED, rows, [], 1)
  }

  function OneRow(status: StepStatus, flagged: bool): seq<Row> {
    [Row(Step("model_call", "", status, flagged), None, None)]
  }

  lemma OneView(status: StepStatus, flagged: bool)
    ensures Views(OneRow(status, flagged)) == [Step("model_call", "", status, flagged)]
  {
  }

  /** The drive after `n` answers meets the input, and the host answers again `m` times. */
  function Drive(rows: seq<Row>, n: nat, i: Input, m: nat): State {
    RunAll(PLAIN, DriveFrom(Planned(rows)), Times(n) + [i] + Times(m))
  }

  ghost predicate CancelledAt(s: State, pc: Pc, rows: seq<Row>) {
    s.e.pc == pc && s.w.rows == rows && s.w.run.status.RunCancelled? && s.e.held == PLANNED
  }

  /** The state in which the cancel has landed. */
  function AtCancel(rows: seq<Row>, n: nat): State {
    Next(PLAIN, ServedFor(PLAIN, DriveFrom(Planned(rows)), n), CANCEL)
  }

  lemma ReadsPlan(rows: seq<Row>)
    ensures Opened(Planned(rows), ServedFor(PLAIN, DriveFrom(Planned(rows)), 4))
  {
    DriveOpens(PLAIN, DriveFrom(Planned(rows)));
  }

  /** Where a drive of these rows stands when its first pass has decided. */
  lemma Decides(rows: seq<Row>)
    ensures var t := ServedFor(PLAIN, DriveFrom(Planned(rows)), 5);
            && t.e.pc == Decide(PLAIN.cat, PLANNED.(status := RunRunning), Views(rows), 0.0)
            && t.e.held == PLANNED && t.w == Planned(rows).(run := PLANNED.(status := RunRunning))
  {
    var s4 := ServedFor(PLAIN, DriveFrom(Planned(rows)), 4);
    ReadsPlan(rows);
    Advances(PLAIN, s4);
    ServedForNext(PLAIN, DriveFrom(Planned(rows)), 4);
  }

  // ---- the run is completed ----

  /** From the status write on, completion takes four callbacks. */
  lemma CompletesInOrder(s: State, s1: State, s2: State, s3: State, s4: State)
    requires s.e.pc.CompleteStatus?
    requires s1 == Next(PLAIN, s, SERVED) && s2 == Next(PLAIN, s1, SERVED)
    requires s3 == Next(PLAIN, s2, SERVED) && s4 == Next(PLAIN, s3, SERVED)
    ensures Arrives(s, s4, Resting(Return(EndedCompleted)), RunCompleted)
  {
    Advances(PLAIN, s);
    Advances(PLAIN, s1);
    Advances(PLAIN, s2);
    Advances(PLAIN, s3);
  }

  lemma Completes(s: State)
    requires s.e.pc.CompleteStatus?
    ensures Arrives(s, ServedFor(PLAIN, s, 4), Resting(Return(EndedCompleted)), RunCompleted)
  {
    ServedForNext(PLAIN, s, 0);
    ServedForNext(PLAIN, s, 1);
    ServedForNext(PLAIN, s, 2);
    ServedForNext(PLAIN, s, 3);
    CompletesInOrder(s, ServedFor(PLAIN, s, 1), ServedFor(PLAIN, s, 2), ServedFor(PLAIN, s, 3), ServedFor(PLAIN, s, 4));
  }

  /** A drive of an empty plan comes to its status write after six callbacks. */
  lemma ComesToCompletion()
    ensures var t := ServedFor(PLAIN, DriveFrom(Planned([])), 6);
            t.e.pc.CompleteStatus? && t.w.rows == [] && t.e.held == PLANNED
  {
    var s := DriveFrom(Planned([]));
    Decides([]);
    Advances(PLAIN, ServedFor(PLAIN, s, 5));
    ServedForNext(PLAIN, s, 5);
  }

  /** A cancel after the final read is overwritten by `completed`. */
  lemma CancelAtCompletion()
    ensures CancelledAt(AtCancel([], 6), CompleteStatus, [])
    ensures var t := Drive([], 6, CANCEL, 4); t.e.pc.Resting? && t.w.run.status.RunCompleted?
  {
    ComesToCompletion();
    Completes(AtCancel([], 6));
    Spliced(PLAIN, DriveFrom(Planned([])), 6, CANCEL, 4);
  }

  /** A step appended after the final read is missed: the run completes, and the step has not been run. */
  lemma StepAfterFinalRead(late: Step)
    requires !Done(late.status)
    ensures var t := Drive([], 6, Move(AddStep(late)), 4);
            && t.e.pc == Resting(Return(EndedCompleted)) && t.w.run.status.RunCompleted?
            && t.w.rows == [Row(late, None, None)]
  {
    var s6 := ServedFor(PLAIN, DriveFrom(Planned([])), 6);
    ComesToCompletion();
    assert [] + [Row(late, None, None)] == [Row(late, None, None)];
    Completes(Next(PLAIN, s6, Move(AddStep(late))));
    Spliced(PLAIN, DriveFrom(Planned([])), 6, Move(AddStep(late)), 4);
  }

  // ---- the drive marks the run running ----

  /** The drive marks the run over the cancel, and comes to its steps. */
  lemma MarksRunning(s: State, s1: State, s2: State, s3: State)
    requires s.e.pc.MarkRunning?
    requires s1 == Next(PLAIN, s, SERVED) && s2 == Next(PLAIN, s1, SERVED) && s3 == Next(PLAIN, s2, SERVED)
    ensures s3.e.pc.ReadSteps? && s3.w.rows == s.w.rows && s3.w.run.status.RunRunning?
  {
    Advances(PLAIN, s);
    Advances(PLAIN, s1);
    Advances(PLAIN, s2);
  }

  /** A cancel before the drive has marked the run is overwritten by `running`, and the run is driven on. */
  lemma CancelAtTheStart()
    ensures CancelledAt(AtCancel([], 1), MarkRunning, [])
    ensures var t := Drive([], 1, CANCEL, 9); t.e.pc.Resting? && t.w.run.status.RunCompleted?
  {
    var s := DriveFrom(Planned([]));
    ServedForNext(PLAIN, s, 0);
    Advances(PLAIN, s);
    var c := AtCancel([], 1);
    ServedForNext(PLAIN, c, 0);
    ServedForNext(PLAIN, c, 1);
    ServedForNext(PLAIN, c, 2);
    MarksRunning(c, ServedFor(PLAIN, c, 1), ServedFor(PLAIN, c, 2), ServedFor(PLAIN, c, 3));
    RunsEmptyPlan(ServedFor(PLAIN, c, 3));
    ServedForAdds(PLAIN, c, 3, 6);
    Spliced(PLAIN, s, 1, CANCEL, 9);
  }

  lemma EmptyPlanIsDone(view: Run, elapsed: real)
    ensures Views([]) == [] && Decide(PLAIN.cat, view, [], elapsed) == FinalRead
  {
  }

  lemma ServesEmptyPlan(s: State)
    requires s.e.pc.ReadSteps? && s.w.rows == []
    ensures Arrives(s, Next(PLAIN, s, SERVED), FinalRead, s.w.run.status)
  {
    EmptyPlanIsDone(View(s.e.held, s.e.pc.current), 0.0 - s.e.started);
    Advances(PLAIN, s);
  }

  lemma EmptyPlanCompletes(s: State, s1: State, s2: State)
    requires s.e.pc.ReadSteps? && s.w.rows == [] && s.w.run.status.RunRunning?
    requires s1 == Next(PLAIN, s, SERVED) && s2 == Next(PLAIN, s1, SERVED)
    ensures s2.e.pc.CompleteStatus?
  {
    ServesEmptyPlan(s);
    Advances(PLAIN, s1);
  }

  lemma RunsEmptyPlan(s: State)
    requires s.e.pc.ReadSteps? && s.w.rows == [] && s.w.run.status.RunRunning?
    ensures var t := ServedFor(PLAIN, s, 6); t.e.pc.Resting? && t.w.run.status.RunCompleted?
  {
    ServedForNext(PLAIN, s, 0);
    ServedForNext(PLAIN, s, 1);
    EmptyPlanCompletes(s, ServedFor(PLAIN, s, 1), ServedFor(PLAIN, s, 2));
    Completes(ServedFor(PLAIN, s, 2));
    ServedForAdds(PLAIN, s, 2, 4);
  }

  // ---- the drive stops at its budget, or for review ----

  lemma PausesInOrder(s: State, s1: State, s2: State, s3: State)
    requires s.e.pc.BudgetStatus?
    requires s1 == Next(PLAIN, s, SERVED) && s2 == Next(PLAIN, s1, SERVED) && s3 == Next(PLAIN, s2, SERVED)
    ensures Arrives(s, s3, Resting(Return(OutOfBudget)), RunPaused)
  {
    Advances(PLAIN, s);
    Advances(PLAIN, s1);
    Advances(PLAIN, s2);
  }

  lemma PausesForBudget(s: State)
    requires s.e.pc.BudgetStatus?
    ensures Arrives(s, ServedFor(PLAIN, s, 3), Resting(Return(OutOfBudget)), RunPaused)
  {
    ServedForNext(PLAIN, s, 0);
    ServedForNext(PLAIN, s, 1);
    ServedForNext(PLAIN, s, 2);
    PausesInOrder(s, ServedFor(PLAIN, s, 1), ServedFor(PLAIN, s, 2), ServedFor(PLAIN, s, 3));
  }

  /** A cancel between the budget event and the budget's pause is overwritten by `paused`. */
  lemma CancelAtTheBudget()
    ensures var rows := OneRow(Completed, false) + OneRow(Pending, false);
            && (exists reason :: CancelledAt(AtCancel(rows, 6), BudgetStatus(reason), rows))
            && var t := Drive(rows, 6, CANCEL, 3); t.e.pc.Resting? && t.w.run.status.RunPaused?
  {
    var rows := OneRow(Completed, false) + OneRow(Pending, false);
    var s := DriveFrom(Planned(rows));
    var s5 := ServedFor(PLAIN, s, 5);
    Decides(rows);
    BudgetIsSpent(rows);
    Advances(PLAIN, s5);
    ServedForNext(PLAIN, s, 5);
    var c := AtCancel(rows, 6);
    assert CancelledAt(c, BudgetStatus(s5.e.pc.reason), rows);
    PausesForBudget(c);
    Spliced(PLAIN, s, 6, CANCEL, 3);
  }

  lemma BudgetIsSpent(rows: seq<Row>)
    requires rows == OneRow(Completed, false) + OneRow(Pending, false)
    ensures Decide(PLAIN.cat, PLANNED.(status := RunRunning), Views(rows), 0.0).BudgetLog?
  {
    var steps := Views(rows);
    assert steps[0].status.Completed? && steps[1].status.Pending?;
    assert steps[..1][..0] == [] && ExecutedCount(steps[..1]) == 1;
    assert ExecutedCount(steps) == 1;
  }

  lemma AwaitingStops()
    ensures Decide(PLAIN.cat, PLANNED.(status := RunRunning), Views(OneRow(Awaiting, true)), 0.0) == StopStatus
  {
    OneView(Awaiting, true);
    assert ExecutedCount(Views(OneRow(Awaiting, true))[..0]) == 0;
  }

  lemma StopsForReview(s: State)
    requires s.e.pc.StopStatus?
    ensures var t := ServedFor(PLAIN, s, 2); t.e.pc.Resting? && t.w.run.status.RunAwaiting?
  {
    ServedForNext(PLAIN, s, 0);
    Advances(PLAIN, s);
    ServedForNext(PLAIN, s, 1);
    Advances(PLAIN, ServedFor(PLAIN, s, 1));
  }

  /** A cancel that lands once the pass has stopped for review is overwritten by `awaiting_approval`. */
  lemma CancelAtTheGate()
    ensures CancelledAt(AtCancel(OneRow(Awaiting, true), 5), StopStatus, OneRow(Awaiting, true))
    ensures var t := Drive(OneRow(Awaiting, true), 5, CANCEL, 2); t.e.pc.Resting? && t.w.run.status.RunAwaiting?
  {
    var rows := OneRow(Awaiting, true);
    Decides(rows);
    AwaitingStops();
    StopsForReview(AtCancel(rows, 5));
    Spliced(PLAIN, DriveFrom(Planned(rows)), 5, CANCEL, 2);
  }

  // ---- the handler runs ----

  lemma ServesStart(s: State, step: Step)
    requires s.e.pc == Write(StartStep(0, step)) && |s.w.rows| == 1 && step.kind in PLAIN.registered
    ensures var t := ServedFor(PLAIN, s, 2);
            && t.e.pc == Call(0, step) && t.e.held == s.e.held && t.w.run == s.w.run
            && t.w.rows == PutStatus(s.w.rows, 0, Running)
  {
    ServedForNext(PLAIN, s, 0);
    ServedForNext(PLAIN, s, 1);
    assert ServedFor(PLAIN, s, 1).e.pc == Log(StartStep(0, step));
  }

  lemma ApprovedStarts()
    ensures Decide(PLAIN.cat, PLANNED.(status := RunRunning), Views(OneRow(Approved, false)), 0.0)
            == Write(StartStep(0, OneRow(Approved, false)[0].step))
  {
    OneView(Approved, false);
    assert ExecutedCount(Views(OneRow(Approved, false))[..0]) == 0;
  }

  /** A drive of one approved step comes to its handler after seven callbacks. */
  lemma ComesToHandler()
    ensures CancelledAt(AtCancel(OneRow(Approved, false), 7), Call(0, OneRow(Approved, false)[0].step),
                        OneRow(Running, false))
  {
    var rows := OneRow(Approved, false);
    Decides(rows);
    ApprovedStarts();
    ServesStart(ServedFor(PLAIN, DriveFrom(Planned(rows)), 5), rows[0].step);
    ServedForAdds(PLAIN, DriveFrom(Planned(rows)), 5, 2);
  }

  /** The failure of the step is written, recorded and drained. */
  lemma RecordsFailure(s: State, s1: State, s2: State, s3: State, message: string)
    requires s.e.pc == Write(FailStep(0, "model_call", message)) && |s.w.rows| == 1
    requires s1 == Next(PLAIN, s, SERVED) && s2 == Next(PLAIN, s1, SERVED) && s3 == Next(PLAIN, s2, SERVED)
    ensures s3.e.pc == Report(0)
  {
    assert s1.e.pc == Log(s.e.pc.t);
    assert s2.e.pc == Drain(After.FailRun(0));
  }

  /** The failure of the run is reported, written and announced. */
  lemma ReportsFailure(s: State, s1: State, s2: State, s3: State, s4: State)
    requires s.e.pc.Report?
    requires s1 == Next(PLAIN, s, SERVED) && s2 == Next(PLAIN, s1, SERVED)
    requires s3 == Next(PLAIN, s2, SERVED) && s4 == Next(PLAIN, s3, SERVED)
    ensures s4.e.pc == Resting(Return(EndedFailed)) && s4.w.run.status.RunFailed?
  {
    Advances(PLAIN, s);
    Advances(PLAIN, s1);
    Advances(PLAIN, s2);
    Advances(PLAIN, s3);
  }

  lemma FailsRun(s: State, message: string)
    requires s.e.pc == Write(FailStep(0, "model_call", message)) && |s.w.rows| == 1
    ensures var t := ServedFor(PLAIN, s, 7); t.e.pc == Resting(Return(EndedFailed)) && t.w.run.status.RunFailed?
  {
    ServedForNext(PLAIN, s, 0);
    ServedForNext(PLAIN, s, 1);
    ServedForNext(PLAIN, s, 2);
    var r := ServedFor(PLAIN, s, 3);
    RecordsFailure(s, ServedFor(PLAIN, s, 1), ServedFor(PLAIN, s, 2), r, message);
    ReportsToEnd(r);
    ServedForAdds(PLAIN, s, 3, 4);
  }

  lemma ReportsToEnd(s: State)
    requires s.e.pc.Report?
    ensures var t := ServedFor(PLAIN, s, 4); t.e.pc == Resting(Return(EndedFailed)) && t.w.run.status.RunFailed?
  {
    ServedForNext(PLAIN, s, 0);
    ServedForNext(PLAIN, s, 1);
    ServedForNext(PLAIN, s, 2);
    ServedForNext(PLAIN, s, 3);
    ReportsFailure(s, ServedFor(PLAIN, s, 1), ServedFor(PLAIN, s, 2), ServedFor(PLAIN, s, 3), ServedFor(PLAIN, s, 4));
  }

  /** The handler of that step reports an error after the cancel. */
  function HandlerErred(message: string): State {
    Next(PLAIN, AtCancel(OneRow(Approved, false), 7), Serve(Served, Erred(message), 0.0))
  }

  lemma Errs(s: State, step: Step, message: string)
    requires s.e.pc == Call(0, step)
    ensures var t := Next(PLAIN, s, Serve(Served, Erred(message), 0.0));
            t.e.pc == Write(FailStep(0, step.kind, message)) && t.w.rows == s.w.rows
  {
  }

  /** A cancel while the handler runs is overwritten by `failed` when the handler reports an error. */
  lemma CancelDuringHandler(message: string)
    ensures var rows := OneRow(Approved, false);
            CancelledAt(AtCancel(rows, 7), Call(0, rows[0].step), OneRow(Running, false))
    ensures var t := RunAll(PLAIN, HandlerErred(message), Times(7));
            t.e.pc == Resting(Return(EndedFailed)) && t.w.run.status.RunFailed?
  {
    ComesToHandler();
    Errs(AtCancel(OneRow(Approved, false), 7), OneRow(Approved, false)[0].step, message);
    FailsRun(HandlerErred(message), message);
    ServedForIsRun(PLAIN, HandlerErred(message), 7);
  }
}
