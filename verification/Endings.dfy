/** How a drive ends and what it has recorded about the run by then: one ending, one status, its own events. */
module Endings {
  import opened Model
  import opened Engine
  import opened System
  import opened Flight
  import opened Completion

  /** The last run status the engine wrote. */
  function LastStatus(trace: seq<Act>, none: RunStatus): RunStatus {
    if |trace| == 0 then none
    else
      var a := trace[|trace| - 1];
      if a.Called? && a.applied && a.req.SetRunStatus? then a.req.status else LastStatus(trace[..|trace| - 1], none)
  }

  predicate AboutRun(a: Act) {
    a.Called? && a.applied && a.req.Append? && a.req.step.None?
  }

  /** The events the engine appended about the run itself, in order. */
  function RunEvents(trace: seq<Act>): seq<EventKind> {
    if |trace| == 0 then []
    else
      var a := trace[|trace| - 1];
      RunEvents(trace[..|trace| - 1]) + (if AboutRun(a) then [a.req.kind] else [])
  }

  lemma RecordsSnoc(trace: seq<Act>, a: Act, none: RunStatus)
    ensures LastStatus(trace + [a], none) ==
            if a.Called? && a.applied && a.req.SetRunStatus? then a.req.status else LastStatus(trace, none)
    ensures RunEvents(trace + [a]) == RunEvents(trace) + (if AboutRun(a) then [a.req.kind] else [])
  {
    assert (trace + [a])[..|trace|] == trace;
  }

  /** The status and run events that go with an ending. */
  ghost predicate Recorded(ending: Ending, none: RunStatus, status: RunStatus, events: seq<EventKind>) {
    match ending
    case NothingToDo => status == none && events == []
    case Stopped => status == RunRunning && events == []
    case AtReview => status == RunRunning && events == []
    case Gated => status == RunAwaiting && events == []
    case OutOfBudget => status == RunPaused && events == [EvBudget, EvRunPaused]
    case AlreadyReported => status == RunFailed && events == []
    case EndedFailed => status == RunFailed && events == []
    case EndedCompleted => status == RunCompleted && events == [EvRunCompleted]
  }

  ghost predicate Recording(pc: Pc, none: RunStatus, status: RunStatus, events: seq<EventKind>) {
    match pc
    case AskSequence => status == none && events == []
    case MarkRunning => status == none && events == []
    case BudgetStatus(_) => status == RunRunning && events == [EvBudget]
    case PauseLog(_) => status == RunPaused && events == [EvBudget]
    case Hook(outcome) =>
      status == outcome && (outcome == RunFailed || outcome == RunCompleted)
      && events == (if outcome == RunFailed then [] else [EvRunCompleted])
    case CompleteLog => status == RunCompleted && events == []
    case Drain(after) =>
      if after.Quit? then Recorded(after.ending, none, status, events) else status == RunRunning && events == []
    case Resting(exit) =>
      if exit.Return? then Recorded(exit.ending, none, status, events)
      else !exit.StoreFailed? ==> status == RunRunning && events == []
    case _ => status == RunRunning && events == []
  }

  lemma DecideRecords(cfg: Config, view: Run, steps: seq<Step>, elapsed: real, none: RunStatus)
    ensures Recording(Decide(cfg.cat, view, steps, elapsed), none, RunRunning, [])
  {
  }

  lemma ResumeRecords(cfg: Config, e: Engine, reply: Reply, clock: real, applied: bool,
                      none: RunStatus, status: RunStatus, events: seq<EventKind>)
    requires !e.pc.Resting? && Recording(e.pc, none, status, events)
    requires Fits(Ask(e), reply) ==> applied
    ensures var a := Called(Ask(e), reply, applied);
            Recording(Resume(cfg, e, reply, clock).pc, none,
                      if applied && Ask(e).SetRunStatus? then Ask(e).status else status,
                      events + (if AboutRun(a) then [Ask(e).kind] else []))
  {
    assert events + [] == events;
    if e.pc.ReadSteps? && reply.StepRows? {
      DecideRecords(cfg, View(e.held, e.pc.current), reply.steps, clock - e.started, none);
    } else if RecordsRun(e.pc) {
      RecordsRecord(cfg, e, reply, clock, applied, none, status, events);
    } else {
      OthersRecord(cfg, e, reply, clock, applied, none, status, events);
    }
  }

  /** The control states that record something about the run. */
  predicate RecordsRun(pc: Pc) {
    pc.MarkRunning? || pc.QuietFail? || pc.FailStatus? || pc.BudgetLog? || pc.BudgetStatus? || pc.PauseLog?
    || pc.StopStatus? || pc.CompleteStatus? || pc.CompleteLog?
  }

  lemma RecordsRecord(cfg: Config, e: Engine, reply: Reply, clock: real, applied: bool,
                      none: RunStatus, status: RunStatus, events: seq<EventKind>)
    requires RecordsRun(e.pc) && Recording(e.pc, none, status, events)
    requires Fits(Ask(e), reply) ==> applied
    ensures var a := Called(Ask(e), reply, applied);
            Recording(Resume(cfg, e, reply, clock).pc, none,
                      if applied && Ask(e).SetRunStatus? then Ask(e).status else status,
                      events + (if AboutRun(a) then [Ask(e).kind] else []))
  {
    assert events + [] == events;
  }

  lemma OthersRecord(cfg: Config, e: Engine, reply: Reply, clock: real, applied: bool,
                     none: RunStatus, status: RunStatus, events: seq<EventKind>)
    requires !e.pc.Resting? && !RecordsRun(e.pc) && !(e.pc.ReadSteps? && reply.StepRows?)
    requires Recording(e.pc, none, status, events)
    ensures Recording(Resume(cfg, e, reply, clock).pc, none, status, events)
    ensures !Ask(e).SetRunStatus? && !AboutRun(Called(Ask(e), reply, applied))
  {
  }

  ghost predicate RecordInv(s: State, none: RunStatus) {
    Recording(s.e.pc, none, LastStatus(s.trace, none), RunEvents(s.trace))
  }

  lemma RecordStep(cfg: Config, s: State, i: Input, none: RunStatus)
    requires RecordInv(s, none) && !i.Begin?
    ensures RecordInv(Next(cfg, s, i), none)
  {
    match i
    case Move(m) =>
      RecordsSnoc(s.trace, Host(m), none);
      assert RunEvents(s.trace) + [] == RunEvents(s.trace);
    case Serve(answer, outcome, clock) =>
      if !s.e.pc.Resting? {
        var reply := Perform(s.w, Ask(s.e), answer, outcome).1;
        var applied := Ask(s.e).Invoke? || !answer.Refused?;
        AnsweredWasApplied(s.w, Ask(s.e), answer, outcome);
        RecordsSnoc(s.trace, Called(Ask(s.e), reply, applied), none);
        ResumeRecords(cfg, s.e, reply, clock, applied, none, LastStatus(s.trace, none), RunEvents(s.trace));
      }
  }

  lemma {:induction false} RecordAlong(cfg: Config, s: State, ins: seq<Input>, none: RunStatus)
    requires RecordInv(s, none) && OneDrive(ins)
    ensures RecordInv(RunAll(cfg, s, ins), none)
    decreases |ins|
  {
    if |ins| > 0 {
      RecordStep(cfg, s, ins[0], none);
      RecordAlong(cfg, Next(cfg, s, ins[0]), ins[1..], none);
    }
  }

  /**
   A drive that returns has written exactly the status its ending stands for, and the run events that go
   with it: a budget stop is announced, paused and announced as a pause; a gate stop awaits approval; a
   pause or cancel is left as the host wrote it.
   */
  lemma EndingIsRecorded(cfg: Config, w: World, ins: seq<Input>, none: RunStatus)
    requires OneDrive(ins)
    ensures var s := RunAll(cfg, DriveFrom(w), ins);
            s.e.pc.Resting? && s.e.pc.exit.Return? ==>
              Recorded(s.e.pc.exit.ending, none, LastStatus(s.trace, none), RunEvents(s.trace))
  {
    RecordAlong(cfg, DriveFrom(w), ins, none);
  }
}
