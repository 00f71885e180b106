/** Runs in which the host answers every callback: what one answer does in each control state, and how they add up. */
module Scenes {
  import opened Basics
  import opened Model
  import opened Engine
  import opened System
  import opened Failures

  const SERVED: Input := Serve(Served, Unobserved, 0.0)

  function Times(n: nat): seq<Input> {
    if n == 0 then [] else Times(n - 1) + [SERVED]
  }

  function ServedFor(cfg: Config, s: State, n: nat): State {
    if n == 0 then s else Next(cfg, ServedFor(cfg, s, n - 1), SERVED)
  }

  lemma {:induction false} ServedForIsRun(cfg: Config, s: State, n: nat)
    ensures RunAll(cfg, s, Times(n)) == ServedFor(cfg, s, n)
    decreases n
  {
    if n > 0 {
      ServedForIsRun(cfg, s, n - 1);
      RunAllSnoc(cfg, s, Times(n - 1), SERVED);
    }
  }

  lemma {:induction false} TimesServes(n: nat)
    ensures forall i :: i in Times(n) ==> i == SERVED
    decreases n
  {
    if n > 0 {
      TimesServes(n - 1);
    }
  }

  lemma ServedForNext(cfg: Config, s: State, n: nat)
    ensures ServedFor(cfg, s, n + 1) == Next(cfg, ServedFor(cfg, s, n), SERVED)
  {
  }

  lemma {:induction false} TimesAdds(n: nat, m: nat)
    ensures Times(n + m) == Times(n) + Times(m)
    decreases m
  {
    if m > 0 {
      TimesAdds(n, m - 1);
    }
  }

  lemma ServedForAdds(cfg: Config, s: State, n: nat, m: nat)
    ensures ServedFor(cfg, s, n + m) == ServedFor(cfg, ServedFor(cfg, s, n), m)
  {
    ServedForIsRun(cfg, s, n + m);
    ServedForIsRun(cfg, s, n);
    ServedForIsRun(cfg, ServedFor(cfg, s, n), m);
    TimesAdds(n, m);
    RunAllSplit(cfg, s, Times(n), Times(m));
  }

  /** The control states whose callback leaves the steps alone and that lead on without a handler. */
  predicate Plain(pc: Pc) {
    match pc
    case Resting(_) => false
    case Write(_) => false
    case Log(_) => false
    case Call(_, _) => false
    case UndoHost(_, _, _) => false
    case Reread(_, _) => false
    case Drain(after) => after.Quit?
    case _ => true
  }

  /** Where an answered callback leads. */
  ghost function Turned(cfg: Config, s: State): Pc
    requires Plain(s.e.pc)
  {
    match s.e.pc
    case AskSequence => if Terminal(s.e.held.status) then Resting(Return(NothingToDo)) else MarkRunning
    case MarkRunning => FirstDrain
    case FirstDrain => ReadRun
    case ReadRun => if Halting(s.w.run.status) then Pc.Drain(Quit(Stopped)) else ReadSteps(Some(s.w.run))
    case ReadSteps(current) => Decide(cfg.cat, View(s.e.held, current), Views(s.w.rows), 0.0 - s.e.started)
    case CheckReport(pos) => if Visible(s.w.log, pos) then QuietFail else Report(pos)
    case QuietFail => Pc.Drain(Quit(AlreadyReported))
    case Report(_) => FailStatus
    case FailStatus => if cfg.hooked then Hook(RunFailed) else Pc.Drain(Quit(EndedFailed))
    case Hook(outcome) => Pc.Drain(Quit(if outcome.RunFailed? then EndedFailed else EndedCompleted))
    case BudgetLog(reason) => BudgetStatus(reason)
    case BudgetStatus(reason) => PauseLog(reason)
    case PauseLog(_) => Pc.Drain(Quit(OutOfBudget))
    case StopStatus => Pc.Drain(Quit(Gated))
    case Drain(after) => Resting(Return(after.ending))
    case FinalRead => if Halting(s.w.run.status) then Pc.Drain(Quit(Stopped)) else CompleteStatus
    case CompleteStatus => CompleteLog
    case CompleteLog => if cfg.hooked then Hook(RunCompleted) else Pc.Drain(Quit(EndedCompleted))
  }

  /** The status an answered callback leaves. */
  function Marked(pc: Pc, status: RunStatus): RunStatus {
    match pc
    case MarkRunning => RunRunning
    case QuietFail => RunFailed
    case FailStatus => RunFailed
    case BudgetStatus(_) => RunPaused
    case StopStatus => RunAwaiting
    case CompleteStatus => RunCompleted
    case _ => status
  }

  /** The records an answered callback leaves: with one more event, or with at most another status. */
  function Noted(s: State): World {
    match s.e.pc
    case Report(pos) => AddToLog(s.w, EvRunFailed, Some(pos), JNull)
    case CompleteLog => AddToLog(s.w, EvRunCompleted, None, JNull)
    case BudgetLog(reason) => AddToLog(s.w, EvBudget, None, JObj(map["reason" := JStr(reason)]))
    case PauseLog(reason) => AddToLog(s.w, EvRunPaused, None, JObj(map["reason" := JStr(reason)]))
    case _ => s.w.(run := s.w.run.(status := Marked(s.e.pc, s.w.run.status)))
  }

  /** The control states that ask for something the host holds. */
  predicate Asks(pc: Pc) {
    pc.AskSequence? || pc.FirstDrain? || pc.ReadRun? || pc.ReadSteps? || pc.CheckReport? || pc.FinalRead? || pc.Drain?
  }

  ghost predicate Turns(cfg: Config, s: State, t: State) {
    && Plain(s.e.pc) && t.e.pc == Turned(cfg, s) && t.e.held == s.e.held
    && t.e.started == if s.e.pc.FirstDrain? then 0.0 else s.e.started
  }

  lemma AskTurns(cfg: Config, s: State)
    requires Plain(s.e.pc) && Asks(s.e.pc)
    ensures Turns(cfg, s, Next(cfg, s, SERVED))
  {
  }

  lemma WriteTurns(cfg: Config, s: State)
    requires Plain(s.e.pc) && !Asks(s.e.pc)
    ensures Turns(cfg, s, Next(cfg, s, SERVED))
  {
  }

  lemma AnswerNotes(cfg: Config, s: State)
    requires Plain(s.e.pc)
    ensures Next(cfg, s, SERVED).w == Noted(s)
    ensures ReportCount(Next(cfg, s, SERVED).trace) == ReportCount(s.trace) + (if s.e.pc.Report? then 1 else 0)
  {
    var reply := Perform(s.w, Ask(s.e), Served, Unobserved).1;
    CountsSnoc(s.trace, Act.Called(Ask(s.e), reply, true));
  }

  /** What one answer does, in every control state that leaves the steps alone. */
  lemma Advances(cfg: Config, s: State)
    requires Plain(s.e.pc)
    ensures var t := Next(cfg, s, SERVED);
            && t.e.pc == Turned(cfg, s) && t.e.held == s.e.held
            && t.e.started == (if s.e.pc.FirstDrain? then 0.0 else s.e.started)
            && t.w == Noted(s) && t.w.rows == s.w.rows
            && t.w.run == s.w.run.(status := Marked(s.e.pc, s.w.run.status))
            && ReportCount(t.trace) == ReportCount(s.trace) + (if s.e.pc.Report? then 1 else 0)
  {
    if Asks(s.e.pc) {
      AskTurns(cfg, s);
    } else {
      WriteTurns(cfg, s);
    }
    AnswerNotes(cfg, s);
  }

  /** An answered write of a step: its event is next. */
  lemma StepWritten(cfg: Config, s: State, outcome: Outcome)
    requires s.e.pc.Write? && s.e.pc.t.pos < |s.w.rows|
    ensures var t, step := Next(cfg, s, Serve(Served, outcome, 0.0)), s.e.pc.t;
            && t.e.pc == Log(step)
            && t.w == s.w.(rows := SetState(s.w.rows, step.pos, step.to, step.error, step.refs))
  {
  }

  /** A stretch of answers that leaves the steps alone. */
  ghost predicate Arrives(s: State, t: State, pc: Pc, status: RunStatus) {
    && t.e.pc == pc && t.e.held == s.e.held
    && t.w.rows == s.w.rows && t.w.run == s.w.run.(status := status)
  }

  /** The opening of a drive, up to the reading of the steps. */
  ghost predicate Opened(w: World, t: State) {
    && t.e.pc == ReadSteps(Some(t.w.run)) && t.e.started == 0.0 && t.e.held == w.run
    && t.w == w.(run := w.run.(status := RunRunning))
  }

  lemma DriveOpens(cfg: Config, s: State)
    requires s.e.pc.AskSequence? && s.e.held == s.w.run && !Terminal(s.w.run.status)
    ensures Opened(s.w, ServedFor(cfg, s, 4))
    ensures ReportCount(ServedFor(cfg, s, 4).trace) == ReportCount(s.trace)
  {
    ServedForNext(cfg, s, 0);
    ServedForNext(cfg, s, 1);
    ServedForNext(cfg, s, 2);
    ServedForNext(cfg, s, 3);
    OpensInOrder(cfg, s, ServedFor(cfg, s, 1), ServedFor(cfg, s, 2), ServedFor(cfg, s, 3), ServedFor(cfg, s, 4));
  }

  lemma OpensInOrder(cfg: Config, s: State, s1: State, s2: State, s3: State, s4: State)
    requires s.e.pc.AskSequence? && s.e.held == s.w.run && !Terminal(s.w.run.status)
    requires s1 == Next(cfg, s, SERVED) && s2 == Next(cfg, s1, SERVED)
    requires s3 == Next(cfg, s2, SERVED) && s4 == Next(cfg, s3, SERVED)
    ensures Opened(s.w, s4) && ReportCount(s4.trace) == ReportCount(s.trace)
  {
    Advances(cfg, s);
    Advances(cfg, s1);
    Advances(cfg, s2);
    Advances(cfg, s3);
  }

  /** A run that is answered, meets one other input, and is answered again. */
  lemma Spliced(cfg: Config, s: State, n: nat, i: Input, m: nat)
    ensures RunAll(cfg, s, Times(n) + [i] + Times(m)) == ServedFor(cfg, Next(cfg, ServedFor(cfg, s, n), i), m)
  {
    RunAllSplit(cfg, s, Times(n) + [i], Times(m));
    RunAllSnoc(cfg, s, Times(n), i);
    ServedForIsRun(cfg, s, n);
    ServedForIsRun(cfg, Next(cfg, ServedFor(cfg, s, n), i), m);
  }
}
