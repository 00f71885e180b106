/**
 Driving a run whose first unfinished step has already failed. The run fails again, and whether the drive
 reports it is decided by the durable log alone: the one case in which a terminal status has no event.
 */
module Reopened {
  import opened Basics
  import opened Model
  import opened Engine
  import opened System
  import opened Completion
  import opened Failures
  import opened Scenes

  /** Host inputs that keep finished and failed steps and append no failure report. */
  predicate Faithful(s: State, i: Input) {
    KeepsEnded(s, i) && !i.Begin? && (i.Move? && i.move.AddEvent? ==> !i.move.kind.EvRunFailed?)
  }

  predicate FaithfulAlong(cfg: Config, s: State, ins: seq<Input>)
    decreases |ins|
  {
    |ins| == 0 || (Faithful(s, ins[0]) && FaithfulAlong(cfg, Next(cfg, s, ins[0]), ins[1..]))
  }

  /** The control states of such a drive, by whether the failure was in the log when the drive began. */
  predicate Reopening(pc: Pc, pos: nat, reported: bool) {
    match pc
    case AskSequence => true
    case MarkRunning => true
    case FirstDrain => true
    case ReadRun => true
    case ReadSteps(_) => true
    case CheckReport(at) => at == pos
    case QuietFail => reported
    case Report(at) => at == pos && !reported
    case FailStatus => !reported
    case Hook(outcome) => outcome.RunFailed? && !reported
    case Drain(after) => after.Quit? && Ends(after.ending, reported)
    case Resting(exit) => exit.StoreFailed? || (exit.Return? && Ends(exit.ending, reported))
    case _ => false
  }

  predicate Ends(ending: Ending, reported: bool) {
    match ending
    case NothingToDo => true
    case Stopped => true
    case AlreadyReported => reported
    case EndedFailed => !reported
    case _ => false
  }

  /** Control states before the drive could have reported anything itself. */
  predicate Undecided(pc: Pc) {
    pc.AskSequence? || pc.MarkRunning? || pc.FirstDrain? || pc.ReadRun? || pc.ReadSteps? || pc.CheckReport?
  }

  ghost predicate ReopenInv(s: State, pos: nat, reported: bool) {
    && FailedAt(s.w.rows, pos)
    && Reopening(s.e.pc, pos, reported)
    && (Undecided(s.e.pc) ==> (Visible(s.w.log, pos) <==> reported))
  }

  lemma ReopenResumes(cfg: Config, e: Engine, w: World, reply: Reply, clock: real, pos: nat, reported: bool)
    requires !e.pc.Resting? && Reopening(e.pc, pos, reported) && FailedAt(w.rows, pos)
    requires Undecided(e.pc) ==> (Visible(w.log, pos) <==> reported)
    requires Ask(e).GetSteps? && reply.StepRows? ==> reply.steps == Views(w.rows)
    requires Ask(e).EventsAfter? && reply.Batch? ==> reply.events == EventsPast(w.log, Ask(e).after)
    ensures Reopening(Resume(cfg, e, reply, clock).pc, pos, reported)
    ensures Undecided(Resume(cfg, e, reply, clock).pc) ==> Undecided(e.pc)
    ensures Undecided(e.pc) ==> !Ask(e).Append?
    ensures !Ask(e).SetStepState?
  {
    if e.pc.ReadSteps? {
      if reply.StepRows? {
        DecideLooksUp(cfg, View(e.held, e.pc.current), w.rows, clock - e.started, pos);
      }
    } else {
      OthersReopen(cfg, e, reply, clock, pos, reported);
    }
  }

  lemma OthersReopen(cfg: Config, e: Engine, reply: Reply, clock: real, pos: nat, reported: bool)
    requires !e.pc.Resting? && !e.pc.ReadSteps? && Reopening(e.pc, pos, reported)
    requires e.pc.CheckReport? && reply.Batch? ==> (Reported(reply.events, pos) <==> reported)
    ensures var pc := Resume(cfg, e, reply, clock).pc;
            Reopening(pc, pos, reported) && (Undecided(pc) ==> Undecided(e.pc))
    ensures Undecided(e.pc) ==> !Ask(e).Append?
    ensures !Ask(e).SetStepState?
  {
  }

  lemma ReopenStep(cfg: Config, s: State, i: Input, pos: nat, reported: bool)
    requires ReopenInv(s, pos, reported) && Faithful(s, i)
    ensures ReopenInv(Next(cfg, s, i), pos, reported)
  {
    var t := Next(cfg, s, i);
    match i
    case Move(m) =>
      KeepsReports(s.w.log, t.w.log, pos);
    case Serve(answer, outcome, clock) =>
      if !s.e.pc.Resting? {
        var reply := Perform(s.w, Ask(s.e), answer, outcome).1;
        PerformForFailures(s.w, Ask(s.e), answer, outcome);
        ReopenResumes(cfg, s.e, s.w, reply, clock, pos, reported);
      }
  }

  /** An event that is no failure report changes nothing about what is reported. */
  lemma KeepsReports(log: seq<Event>, log': seq<Event>, pos: nat)
    requires log' == log || (|log'| == |log| + 1 && log'[..|log|] == log && !log'[|log|].kind.EvRunFailed?)
    ensures Visible(log', pos) <==> Visible(log, pos)
  {
    if log' != log {
      assert log' == log + [log'[|log|]];
      VisibleSnoc(log, log'[|log|], pos);
    }
  }

  lemma {:induction false} ReopenAlong(cfg: Config, s: State, ins: seq<Input>, pos: nat, reported: bool)
    requires ReopenInv(s, pos, reported) && FaithfulAlong(cfg, s, ins)
    ensures ReopenInv(RunAll(cfg, s, ins), pos, reported)
    decreases |ins|
  {
    if |ins| > 0 {
      ReopenStep(cfg, s, ins[0], pos, reported);
      ReopenAlong(cfg, Next(cfg, s, ins[0]), ins[1..], pos, reported);
    }
  }

  lemma FaithfulIsOneDrive(cfg: Config, s: State, ins: seq<Input>)
    requires FaithfulAlong(cfg, s, ins)
    ensures OneDrive(ins)
    decreases |ins|
  {
    if |ins| > 0 {
      FaithfulIsOneDrive(cfg, Next(cfg, s, ins[0]), ins[1..]);
      assert forall i :: i in ins ==> i == ins[0] || i in ins[1..];
    }
  }

  /**
   A drive over a run that stands at a failed step, if it gets to fail the run, writes the terminal status
   once; it appends the terminal event if and only if the log held no report of the step numbered above zero
   when it began, and calls the hook exactly then.
   */
  lemma ReportedOnlyIfNew(cfg: Config, w: World, ins: seq<Input>, pos: nat)
    requires FailedAt(w.rows, pos) && FaithfulAlong(cfg, DriveFrom(w), ins)
    ensures var s := RunAll(cfg, DriveFrom(w), ins);
            s.e.pc.Resting? && s.e.pc.exit.Return?
            && !s.e.pc.exit.ending.NothingToDo? && !s.e.pc.exit.ending.Stopped? ==>
              && Tally(s.trace, TerminalWrites) == 1
              && (Tally(s.trace, TerminalEvents) == 1 <==> !Visible(w.log, pos))
              && (cfg.hooked ==> Tally(s.trace, HookCalls) == Tally(s.trace, TerminalEvents))
  {
    FaithfulIsOneDrive(cfg, DriveFrom(w), ins);
    CompletionPairing(cfg, w, ins);
    ReopenAlong(cfg, DriveFrom(w), ins, pos, Visible(w.log, pos));
  }

  // ---- drives of a run that stands at a failed step, with every callback answered ----

  /** The drive reads the failed step and looks for its report. */
  lemma LooksUp(cfg: Config, s: State, pos: nat)
    requires s.e.pc.AskSequence? && s.e.held == s.w.run && !Terminal(s.w.run.status) && FailedAt(s.w.rows, pos)
    ensures var t := ServedFor(cfg, s, 6);
            && t.e.pc == (if Visible(s.w.log, pos) then QuietFail else Report(pos))
            && t.w == s.w.(run := s.w.run.(status := RunRunning)) && ReportCount(t.trace) == ReportCount(s.trace)
  {
    var s4 := ServedFor(cfg, s, 4);
    DriveOpens(cfg, s);
    Advances(cfg, s4);
    DecideLooksUp(cfg, View(s4.e.held, s4.e.pc.current), s4.w.rows, 0.0 - s4.e.started, pos);
    ServedForNext(cfg, s, 4);
    Advances(cfg, ServedFor(cfg, s, 5));
    ServedForNext(cfg, s, 5);
  }

  /** A failure that is not in view is reported, whoever has asked before. */
  lemma ReportsInOrder(cfg: Config, s: State, s1: State, s2: State, s3: State, s4: State)
    requires s.e.pc.Report?
    requires s1 == Next(cfg, s, SERVED) && s2 == Next(cfg, s1, SERVED)
    requires s3 == Next(cfg, s2, SERVED) && s4 == Next(cfg, s3, SERVED)
    ensures s4.e.pc == Resting(Return(EndedFailed)) && ReportCount(s4.trace) == ReportCount(s.trace) + 1
    ensures s4.w.rows == s.w.rows && s4.w.nextSeq == s.w.nextSeq + 1
    ensures s4.w.log == s.w.log + [Event(s.w.nextSeq, EvRunFailed, Some(s.e.pc.pos), JNull)]
  {
    Advances(cfg, s);
    Advances(cfg, s1);
    if cfg.hooked {
      Advances(cfg, s2);
      Advances(cfg, s3);
    } else {
      Advances(cfg, s2);
    }
  }

  lemma DriveReports(cfg: Config, s: State, pos: nat)
    requires s.e.pc.AskSequence? && s.e.held == s.w.run && !Terminal(s.w.run.status) && FailedAt(s.w.rows, pos)
    requires !Visible(s.w.log, pos)
    ensures ReportsOnce(s, ServedFor(cfg, s, 10), pos)
  {
    LooksUp(cfg, s, pos);
    ServedForNext(cfg, s, 6);
    ServedForNext(cfg, s, 7);
    ServedForNext(cfg, s, 8);
    ServedForNext(cfg, s, 9);
    ReportsInOrder(cfg, ServedFor(cfg, s, 6), ServedFor(cfg, s, 7), ServedFor(cfg, s, 8), ServedFor(cfg, s, 9),
                   ServedFor(cfg, s, 10));
  }

  /** One drive has ended the run as failed and reported it, and changed no step. */
  ghost predicate ReportsOnce(s: State, t: State, pos: nat) {
    && t.e.pc == Resting(Return(EndedFailed)) && ReportCount(t.trace) == ReportCount(s.trace) + 1
    && t.w.rows == s.w.rows && t.w.nextSeq == s.w.nextSeq + 1
    && t.w.log == s.w.log + [Event(s.w.nextSeq, EvRunFailed, Some(pos), JNull)]
  }

  const REOPENED := Run(RunOther("reopened"), None, false, JNull, JNull, JNull, JNull)

  /** The host re-opens the run and it is driven to its end. */
  function Redrive(): seq<Input> {
    [Move(PutRun(REOPENED)), Begin] + Times(10)
  }

  function ReopenedFrom(cfg: Config, s: State): State {
    Next(cfg, Next(cfg, s, Move(PutRun(REOPENED))), Begin)
  }

  lemma RedriveIsServed(cfg: Config, s: State)
    ensures RunAll(cfg, s, Redrive()) == ServedFor(cfg, ReopenedFrom(cfg, s), 10)
  {
    var s1 := Next(cfg, s, Move(PutRun(REOPENED)));
    ServedForIsRun(cfg, ReopenedFrom(cfg, s), 10);
    assert Redrive()[1..] == [Begin] + Times(10) && ([Begin] + Times(10))[1..] == Times(10);
    assert RunAll(cfg, s1, [Begin] + Times(10)) == RunAll(cfg, ReopenedFrom(cfg, s), Times(10));
  }

  lemma ReopensRun(cfg: Config, s: State)
    requires s.e.pc.Resting?
    ensures var t := ReopenedFrom(cfg, s);
            && t.e == Fresh(REOPENED) && t.w == s.w.(run := REOPENED) && ReportCount(t.trace) == ReportCount(s.trace)
  {
    CountsSnoc(s.trace, Host(PutRun(REOPENED)));
    CountsSnoc(s.trace + [Host(PutRun(REOPENED))], Began(REOPENED));
  }

  lemma RedriveReports(cfg: Config, s: State, pos: nat)
    requires s.e.pc.Resting? && FailedAt(s.w.rows, pos) && !Visible(s.w.log, pos)
    ensures ReportsOnce(s, RunAll(cfg, s, Redrive()), pos)
  {
    ReopensRun(cfg, s);
    DriveReports(cfg, ReopenedFrom(cfg, s), pos);
    RedriveIsServed(cfg, s);
  }

  // ---- when a failure may be reported twice ----

  ghost predicate OnceInEveryRun(cfg: Config, w: World) {
    forall ins :: KeepsEndedAlong(cfg, Start(w), ins) ==> ReportCount(RunAll(cfg, Start(w), ins).trace) <= 1
  }

  lemma {:induction false} KeepsEndedSplit(cfg: Config, s: State, a: seq<Input>, b: seq<Input>)
    requires KeepsEndedAlong(cfg, s, a) && KeepsEndedAlong(cfg, RunAll(cfg, s, a), b)
    ensures KeepsEndedAlong(cfg, s, a + b)
    decreases |a|
  {
    if |a| == 0 {
      assert a + b == b;
    } else {
      assert (a + b)[1..] == a[1..] + b;
      KeepsEndedSplit(cfg, Next(cfg, s, a[0]), a[1..], b);
    }
  }

  lemma {:induction false} WithoutStepsKeeps(cfg: Config, s: State, ins: seq<Input>)
    requires forall i :: i in ins ==> !i.Move? || !i.move.PutStep?
    ensures KeepsEndedAlong(cfg, s, ins)
    decreases |ins|
  {
    if |ins| > 0 {
      WithoutStepsKeeps(cfg, Next(cfg, s, ins[0]), ins[1..]);
    }
  }

  lemma RedriveKeeps(cfg: Config, s: State)
    ensures KeepsEndedAlong(cfg, s, Redrive())
  {
    TimesServes(10);
    WithoutStepsKeeps(cfg, s, Redrive());
  }

  /** Two drives of a run that stands at a failed step whose reports stay out of view. */
  lemma TwoDrivesReportTwice(cfg: Config, s: State, pos: nat)
    requires s.e.pc.Resting? && FailedAt(s.w.rows, pos) && !Visible(s.w.log, pos) && s.w.nextSeq < 1
    ensures KeepsEndedAlong(cfg, s, Redrive() + Redrive())
    ensures ReportCount(RunAll(cfg, s, Redrive() + Redrive()).trace) == ReportCount(s.trace) + 2
  {
    var t := RunAll(cfg, s, Redrive());
    RedriveReports(cfg, s, pos);
    VisibleSnoc(s.w.log, Event(s.w.nextSeq, EvRunFailed, Some(pos), JNull), pos);
    RedriveReports(cfg, t, pos);
    RunAllSplit(cfg, s, Redrive(), Redrive());
    RedriveKeeps(cfg, s);
    RedriveKeeps(cfg, t);
    KeepsEndedSplit(cfg, s, Redrive(), Redrive());
  }

  /** A position past every step that the log mentions. */
  function Bound(log: seq<Event>): nat {
    if |log| == 0 then 0
    else
      var front, last := Bound(log[..|log| - 1]), log[|log| - 1];
      if last.step.Some? && last.step.value >= front then last.step.value + 1 else front
  }

  lemma {:induction false} VisibleIsBounded(log: seq<Event>, pos: nat)
    requires Visible(log, pos)
    ensures pos < Bound(log)
    decreases |log|
  {
    if |log| > 0 {
      var front, last := log[..|log| - 1], log[|log| - 1];
      assert log == front + [last];
      VisibleSnoc(front, last, pos);
      if Visible(front, pos) {
        VisibleIsBounded(front, pos);
      }
    }
  }

  /** A position at which the host can make the run stand, failed, with no report in view. */
  ghost predicate Exposed(rows: seq<Row>, log: seq<Event>, target: nat) {
    && !Visible(log, target)
    && (target < |rows| ==> !Done(rows[target].step.status))
    && (forall k :: 0 <= k < target && k < |rows| ==> !rows[k].step.status.Failed?)
  }

  lemma ExposedFrom(rows: seq<Row>, log: seq<Event>, k: nat) returns (target: nat)
    requires forall stop :: !Blocked(rows, log, stop)
    requires forall j :: 0 <= j < k && j < |rows| ==>
               Done(rows[j].step.status) || (Visible(log, j) && !rows[j].step.status.Failed?)
    ensures Exposed(rows, log, target)
    decreases |rows| + Bound(log) - k
  {
    if !Visible(log, k) && (k < |rows| ==> !Done(rows[k].step.status)) {
      target := k;
    } else {
      if Visible(log, k) {
        VisibleIsBounded(log, k);
      }
      assert !Blocked(rows, log, k);
      target := ExposedFrom(rows, log, k + 1);
    }
  }

  /** The host finishes, or appends finished, every step before the target, and leaves the target failed. */
  function ClearInput(n: nat, target: nat, j: nat): Input {
    var status := if j == target then Failed else Skipped;
    if j < n then Move(PutStep(j, status, false)) else Move(AddStep(Step("", "", status, false)))
  }

  function ClearInputs(n: nat, target: nat, j: nat): seq<Input> {
    if j == 0 then [] else ClearInputs(n, target, j - 1) + [ClearInput(n, target, j - 1)]
  }

  ghost predicate Cleared(s: State, t: State, target: nat, j: nat) {
    && t.e == s.e && t.w.log == s.w.log && t.w.nextSeq == s.w.nextSeq && ReportCount(t.trace) == ReportCount(s.trace)
    && |t.w.rows| == (if j < |s.w.rows| then |s.w.rows| else j)
    && (forall k :: 0 <= k < j ==> t.w.rows[k].step.status == if k == target then Failed else Skipped)
    && (forall k :: j <= k < |s.w.rows| ==> t.w.rows[k] == s.w.rows[k])
  }

  lemma ClearsOne(cfg: Config, s: State, mid: State, target: nat, j: nat)
    requires s.e.pc.Resting? && Exposed(s.w.rows, s.w.log, target) && j <= target && Cleared(s, mid, target, j)
    ensures KeepsEnded(mid, ClearInput(|s.w.rows|, target, j))
    ensures Cleared(s, Next(cfg, mid, ClearInput(|s.w.rows|, target, j)), target, j + 1)
  {
    var i := ClearInput(|s.w.rows|, target, j);
    CountsSnoc(mid.trace, Host(i.move));
  }

  lemma KeepsEndedSnoc(cfg: Config, s: State, ins: seq<Input>, i: Input)
    requires KeepsEndedAlong(cfg, s, ins) && KeepsEnded(RunAll(cfg, s, ins), i)
    ensures KeepsEndedAlong(cfg, s, ins + [i])
  {
    assert KeepsEndedAlong(cfg, Next(cfg, RunAll(cfg, s, ins), i), []);
    KeepsEndedSplit(cfg, s, ins, [i]);
  }

  /** The clearing has gone through position `j`. */
  ghost predicate ClearedBy(cfg: Config, s: State, ins: seq<Input>, target: nat, j: nat) {
    KeepsEndedAlong(cfg, s, ins) && Cleared(s, RunAll(cfg, s, ins), target, j)
  }

  lemma ClearsNext(cfg: Config, s: State, front: seq<Input>, target: nat, j: nat)
    requires s.e.pc.Resting? && Exposed(s.w.rows, s.w.log, target) && j <= target && ClearedBy(cfg, s, front, target, j)
    ensures ClearedBy(cfg, s, front + [ClearInput(|s.w.rows|, target, j)], target, j + 1)
  {
    var mid, last := RunAll(cfg, s, front), ClearInput(|s.w.rows|, target, j);
    ClearsOne(cfg, s, mid, target, j);
    RunAllSnoc(cfg, s, front, last);
    KeepsEndedSnoc(cfg, s, front, last);
  }

  lemma {:induction false} ClearsAlong(cfg: Config, s: State, target: nat, j: nat)
    requires s.e.pc.Resting? && Exposed(s.w.rows, s.w.log, target) && j <= target + 1
    ensures ClearedBy(cfg, s, ClearInputs(|s.w.rows|, target, j), target, j)
    decreases j
  {
    if j > 0 {
      ClearsAlong(cfg, s, target, j - 1);
      ClearsNext(cfg, s, ClearInputs(|s.w.rows|, target, j - 1), target, j - 1);
    }
  }

  /** Where reports are not sure to be seen, some history of re-openings reports one failure twice. */
  lemma ReportedTwice(cfg: Config, w: World) returns (ins: seq<Input>)
    requires !SureFrom(w)
    ensures KeepsEndedAlong(cfg, Start(w), ins) && ReportCount(RunAll(cfg, Start(w), ins).trace) == 2
  {
    var s := Start(w);
    var target := ExposedFrom(w.rows, w.log, 0);
    var clear := ClearInputs(|w.rows|, target, target + 1);
    var t := RunAll(cfg, s, clear);
    ClearsAlong(cfg, s, target, target + 1);
    TwoDrivesReportTwice(cfg, t, target);
    ins := clear + (Redrive() + Redrive());
    RunAllSplit(cfg, s, clear, Redrive() + Redrive());
    KeepsEndedSplit(cfg, s, clear, Redrive() + Redrive());
  }

  /**
   The engine reports a run's failure at most once in every history of drives and re-openings if and only if
   the first event gets a number above zero, or the world is blocked: it holds a failed step, and every step up
   to it that is not done has a report in view already.
   */
  lemma ReportedOnceExactly(cfg: Config, w: World)
    ensures OnceInEveryRun(cfg, w) <==> SureFrom(w)
  {
    if SureFrom(w) {
      forall ins | KeepsEndedAlong(cfg, Start(w), ins)
        ensures ReportCount(RunAll(cfg, Start(w), ins).trace) <= 1
      {
        OneFailureReport(cfg, w, ins);
      }
    } else {
      var ins := ReportedTwice(cfg, w);
    }
  }

  // ---- concrete drives ----

  function FailedWorld(log: seq<Event>, nextSeq: int): World {
    World(REOPENED, [Row(Step("model_call", "", Failed, false), None, None)], log, nextSeq)
  }

  lemma EndsQuietly(cfg: Config, s: State, s1: State, s2: State)
    requires s.e.pc.QuietFail? && s1 == Next(cfg, s, SERVED) && s2 == Next(cfg, s1, SERVED)
    ensures s2.e.pc == Resting(Return(AlreadyReported)) && s2.w.run.status.RunFailed?
  {
    Advances(cfg, s);
    Advances(cfg, s1);
  }

  /** A terminal status without its event: one drive of a re-opened run whose failure was reported before. */
  lemma QuietFailureExists(cfg: Config)
    ensures var s := RunAll(cfg, DriveFrom(FailedWorld([Event(1, EvRunFailed, Some(0), JNull)], 2)), Times(8));
            && s.e.pc == Resting(Return(AlreadyReported)) && s.w.run.status.RunFailed?
            && Tally(s.trace, TerminalWrites) == 1 && Tally(s.trace, TerminalEvents) == 0
  {
    var event := Event(1, EvRunFailed, Some(0), JNull);
    var w := FailedWorld([event], 2);
    var s := DriveFrom(w);
    assert [] + [event] == [event];
    VisibleSnoc([], event, 0);
    LooksUp(cfg, s, 0);
    ServedForNext(cfg, s, 6);
    ServedForNext(cfg, s, 7);
    EndsQuietly(cfg, ServedFor(cfg, s, 6), ServedFor(cfg, s, 7), ServedFor(cfg, s, 8));
    ServedForIsRun(cfg, s, 8);
    TimesServes(8);
    CompletionPairing(cfg, w, Times(8));
  }

  /** A host that numbers events from zero: two drives around one re-opening report the same failure twice. */
  lemma NumberedFromZero(cfg: Config)
    ensures var w := FailedWorld([], 0);
            && KeepsEndedAlong(cfg, Start(w), Redrive() + Redrive())
            && ReportCount(RunAll(cfg, Start(w), Redrive() + Redrive()).trace) == 2
  {
    assert EventsPast([], 0) == [];
    TwoDrivesReportTwice(cfg, Start(FailedWorld([], 0)), 0);
  }
}
