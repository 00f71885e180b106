/**
 What one refused callback can leave apart for good: a run that is completed without its event, and a log that never
 learns of a step's end.
 */
module Losses {
  import opened Basics
  import opened Policies
  import opened Model
  import opened Engine
  import opened System
  import opened Flight
  import opened Completion
  import opened Scenes
  import opened Notified
  import opened Replay

  ghost predicate AllDone(rows: seq<Row>) {
    Behind(rows, |rows|)
  }

  // ---- the way to completion ----

  lemma DoneComesToEnd(cfg: Config, view: Run, rows: seq<Row>, elapsed: real)
    requires AllDone(rows)
    ensures Decide(cfg.cat, view, Views(rows), elapsed) == FinalRead
  {
  }

  function LeftToEvent(pc: Pc): int {
    match pc
    case AskSequence => 7
    case MarkRunning => 6
    case FirstDrain => 5
    case ReadRun => 4
    case ReadSteps(_) => 3
    case FinalRead => 2
    case CompleteStatus => 1
    case _ => 0
  }

  /** A drive of a finished plan on its way to the event of its completion. */
  ghost predicate Ending(rows: seq<Row>, log: seq<Event>, s: State) {
    && AllDone(rows) && s.w.rows == rows && s.w.log == log
    && (LeftToEvent(s.e.pc) > 0 || s.e.pc.CompleteLog?)
    && (s.e.pc.AskSequence? ==> !Terminal(s.e.held.status))
    && (s.e.pc.FirstDrain? || s.e.pc.ReadRun? || s.e.pc.ReadSteps? || s.e.pc.FinalRead? ==> s.w.run.status.RunRunning?)
    && (s.e.pc.CompleteLog? ==> s.w.run.status.RunCompleted?)
  }

  lemma EndingAdvances(cfg: Config, rows: seq<Row>, log: seq<Event>, s: State)
    requires Ending(rows, log, s) && !s.e.pc.CompleteLog?
    ensures var t := Next(cfg, s, SERVED);
            Ending(rows, log, t) && LeftToEvent(t.e.pc) < LeftToEvent(s.e.pc)
  {
    Advances(cfg, s);
    if s.e.pc.ReadSteps? {
      DoneComesToEnd(cfg, View(s.e.held, s.e.pc.current), rows, 0.0 - s.e.started);
    }
    EndingTurns(cfg, rows, log, s, Next(cfg, s, SERVED));
  }

  lemma EndingTurns(cfg: Config, rows: seq<Row>, log: seq<Event>, s: State, t: State)
    requires Ending(rows, log, s) && !s.e.pc.CompleteLog?
    requires t.e.pc == Turned(cfg, s) && t.e.held == s.e.held && t.w == Noted(s)
    requires s.e.pc.ReadSteps? ==> t.e.pc == FinalRead
    ensures Ending(rows, log, t) && LeftToEvent(t.e.pc) < LeftToEvent(s.e.pc)
  {
  }

  predicate OnlyAnswers(ins: seq<Input>) {
    forall i :: i in ins ==> i == SERVED
  }

  /** Answered long enough, it comes there. */
  lemma {:induction false} ComesToLastEvent(cfg: Config, rows: seq<Row>, log: seq<Event>, s: State)
    returns (ins: seq<Input>)
    requires Ending(rows, log, s)
    ensures OnlyAnswers(ins)
    ensures var t := RunAll(cfg, s, ins); Ending(rows, log, t) && t.e.pc.CompleteLog?
    decreases LeftToEvent(s.e.pc)
  {
    ins := [];
    if !s.e.pc.CompleteLog? {
      EndingAdvances(cfg, rows, log, s);
      var rest := ComesToLastEvent(cfg, rows, log, Next(cfg, s, SERVED));
      ins := [SERVED] + rest;
      assert ins[0] == SERVED && ins[1..] == rest;
    }
  }

  // ---- a completion without its event ----

  /** An ended run between drives, or at the start of one that will leave it alone. */
  ghost predicate Over(s: State) {
    Terminal(s.w.run.status) && (s.e.pc.Resting? || (s.e.pc.AskSequence? && s.e.held == s.w.run))
  }

  ghost predicate SameBooks(s: State, t: State) {
    && t.w == s.w
    && forall q :: Tally(t.trace, q) == Tally(s.trace, q)
  }

  lemma OverStep(cfg: Config, s: State, i: Input)
    requires Over(s) && !i.Move?
    ensures Over(Next(cfg, s, i)) && SameBooks(s, Next(cfg, s, i))
  {
    if i.Begin? {
      TallySnoc(s.trace, Began(s.w.run));
    } else if s.e.pc.AskSequence? {
      var reply := Perform(s.w, NextSequence, i.answer, i.outcome).1;
      TallySnoc(s.trace, Called(NextSequence, reply, !i.answer.Refused?));
    }
  }

  lemma {:induction false} OverAlong(cfg: Config, s: State, ins: seq<Input>)
    requires Over(s) && forall i :: i in ins ==> !i.Move?
    ensures SameBooks(s, RunAll(cfg, s, ins))
    decreases |ins|
  {
    if |ins| > 0 {
      OverStep(cfg, s, ins[0]);
      OverAlong(cfg, Next(cfg, s, ins[0]), ins[1..]);
    }
  }

  /** The status is `completed`, its event has not been appended, and the hook has not been called. */
  ghost predicate CompletedAlone(s: State) {
    && s.w.run.status.RunCompleted?
    && Tally(s.trace, TerminalWrites) == 1 && Tally(s.trace, TerminalEvents) == 0 && Tally(s.trace, HookCalls) == 0
  }

  lemma RefusedAtLastEvent(cfg: Config, w: World, front: seq<Input>)
    requires OneDrive(front) && Ending(w.rows, w.log, RunAll(cfg, DriveFrom(w), front))
    requires RunAll(cfg, DriveFrom(w), front).e.pc.CompleteLog?
    ensures var s := RunAll(cfg, DriveFrom(w), front + [REFUSED]); s.e.pc.Resting? && CompletedAlone(s)
  {
    var s := RunAll(cfg, DriveFrom(w), front);
    RunAllSnoc(cfg, DriveFrom(w), front, REFUSED);
    AppliedSnoc(s.trace, Called(Append(EvRunCompleted, None, JNull), Broken, false));
    CompletionPairing(cfg, w, front + [REFUSED]);
  }

  /**
   Every run whose plan is finished has a drive, cut by one refused callback, after which it is completed without its
   event, and stays so over every history in which the host answers or does not but makes no move of its own.
   */
  lemma CompletionIsLost(cfg: Config, w: World) returns (before: seq<Input>)
    requires !Terminal(w.run.status) && AllDone(w.rows)
    ensures OneDrive(before) && RunAll(cfg, DriveFrom(w), before).e.pc.Resting?
    ensures forall ins: seq<Input> :: (forall i :: i in ins ==> !i.Move?) ==>
              CompletedAlone(RunAll(cfg, RunAll(cfg, DriveFrom(w), before), ins))
  {
    var front := ComesToLastEvent(cfg, w.rows, w.log, DriveFrom(w));
    RefusedAtLastEvent(cfg, w, front);
    before := front + [REFUSED];
    var s := RunAll(cfg, DriveFrom(w), before);
    forall ins: seq<Input> | forall i :: i in ins ==> !i.Move?
      ensures CompletedAlone(RunAll(cfg, s, ins))
    {
      OverAlong(cfg, s, ins);
    }
  }

  // ---- a log that never learns of a step's end ----

  /** The last step of the plan is the only one left, waits, and is not permitted. */
  ghost predicate LastUnpermitted(cfg: Config, w: World, pos: nat) {
    && |w.rows| == pos + 1 && Behind(w.rows, pos) && !Terminal(w.run.status)
    && var step := w.rows[pos].step;
       && (step.status.Pending? || step.status.Awaiting? || step.status.Approved?)
       && MissingGrant(cfg.cat, step.kind, w.run.grants).Some?
  }

  lemma DecidesToSkip(cfg: Config, w: World, view: Run, pos: nat, elapsed: real)
    requires LastUnpermitted(cfg, w, pos) && view.grants == w.run.grants
    ensures var pc := Decide(cfg.cat, view, Views(w.rows), elapsed);
            pc.Write? && pc.t.pos == pos && pc.t.to == Skipped
  {
    assert !Done(Views(w.rows)[pos].status);
    assert FirstUnfinished(Views(w.rows)) == Some(pos);
  }

  /** The skip has been written and its event is next. */
  ghost predicate AtSkipEvent(w: World, pos: nat, s: State) {
    && s.e.pc.Log? && s.e.pc.t.pos == pos && s.e.pc.t.to == Skipped
    && |s.w.rows| == pos + 1 && Behind(s.w.rows, pos) && s.w.rows[pos].step.status.Skipped?
    && s.w.log == w.log && !Terminal(s.w.run.status)
  }

  lemma SkipsInOrder(cfg: Config, w: World, pos: nat, s: State, s1: State, s2: State)
    requires LastUnpermitted(cfg, w, pos) && Opened(w, s)
    requires s1 == Next(cfg, s, SERVED) && s2 == Next(cfg, s1, SERVED)
    ensures AtSkipEvent(w, pos, s2)
  {
    DecidesToSkip(cfg, w, s.w.run, pos, 0.0);
    Advances(cfg, s);
    StepWritten(cfg, s1, Unobserved);
  }

  lemma ComesToSkipEvent(cfg: Config, w: World, pos: nat) returns (n: nat)
    requires LastUnpermitted(cfg, w, pos)
    ensures AtSkipEvent(w, pos, ServedFor(cfg, Next(cfg, Start(w), Begin), n))
  {
    var b := Next(cfg, Start(w), Begin);
    DriveOpens(cfg, b);
    ServedForNext(cfg, b, 4);
    ServedForNext(cfg, b, 5);
    SkipsInOrder(cfg, w, pos, ServedFor(cfg, b, 4), ServedFor(cfg, b, 5), ServedFor(cfg, b, 6));
    n := 6;
  }

  /** Nothing of the step is in the log yet, and the plan is finished. */
  ghost predicate SkippedUntold(w: World, pos: nat, s: State) {
    && s.e.pc.Resting? && AllDone(s.w.rows) && |s.w.rows| == pos + 1 && s.w.rows[pos].step.status.Skipped?
    && s.w.log == w.log && !Terminal(s.w.run.status)
  }

  lemma RefusedAtSkipEvent(cfg: Config, w: World, pos: nat, s: State)
    requires AtSkipEvent(w, pos, s)
    ensures SkippedUntold(w, pos, Next(cfg, s, REFUSED))
  {
  }

  /** The run has been completed, and the log has gained the run's own event and no more. */
  ghost predicate CompletedUntold(w: World, pos: nat, t: State) {
    && t.e.pc == Resting(Return(EndedCompleted)) && t.w.run.status.RunCompleted?
    && |t.w.rows| == pos + 1 && t.w.rows[pos].step.status.Skipped?
    && exists sequence :: t.w.log == w.log + [Event(sequence, EvRunCompleted, None, JNull)]
  }

  /** What is left of a completion once its status is written. */
  ghost predicate Closing(w: World, pos: nat, s: State) {
    && s.w.run.status.RunCompleted? && |s.w.rows| == pos + 1 && s.w.rows[pos].step.status.Skipped?
    && (s.e.pc == Hook(RunCompleted) || s.e.pc == Pc.Drain(Quit(EndedCompleted))
        || s.e.pc == Resting(Return(EndedCompleted)))
    && exists sequence :: s.w.log == w.log + [Event(sequence, EvRunCompleted, None, JNull)]
  }

  function LeftToRest(pc: Pc): nat {
    if pc.Hook? then 2 else if pc.Drain? then 1 else 0
  }

  lemma ClosingAdvances(cfg: Config, w: World, pos: nat, s: State)
    requires Closing(w, pos, s) && !s.e.pc.Resting?
    ensures var t := Next(cfg, s, SERVED); Closing(w, pos, t) && LeftToRest(t.e.pc) < LeftToRest(s.e.pc)
  {
    Advances(cfg, s);
  }

  lemma {:induction false} Closes(cfg: Config, w: World, pos: nat, s: State) returns (ins: seq<Input>)
    requires Closing(w, pos, s)
    ensures OnlyAnswers(ins) && CompletedUntold(w, pos, RunAll(cfg, s, ins))
    decreases LeftToRest(s.e.pc)
  {
    ins := [];
    if !s.e.pc.Resting? {
      ClosingAdvances(cfg, w, pos, s);
      var rest := Closes(cfg, w, pos, Next(cfg, s, SERVED));
      ins := [SERVED] + rest;
      assert ins[0] == SERVED && ins[1..] == rest;
    }
  }

  lemma EventCloses(cfg: Config, w: World, pos: nat, s: State)
    requires Ending(s.w.rows, w.log, s) && s.e.pc.CompleteLog?
    requires |s.w.rows| == pos + 1 && s.w.rows[pos].step.status.Skipped?
    ensures Closing(w, pos, Next(cfg, s, SERVED))
  {
    Advances(cfg, s);
    assert Next(cfg, s, SERVED).w.log == w.log + [Event(s.w.nextSeq, EvRunCompleted, None, JNull)];
  }

  lemma CompletesUntold(cfg: Config, w: World, pos: nat, s: State) returns (ins: seq<Input>)
    requires SkippedUntold(w, pos, s)
    ensures OnlyAnswers(ins) && CompletedUntold(w, pos, RunAll(cfg, Next(cfg, s, Begin), ins))
  {
    var b := Next(cfg, s, Begin);
    var front := ComesToLastEvent(cfg, s.w.rows, w.log, b);
    var c := RunAll(cfg, b, front);
    EventCloses(cfg, w, pos, c);
    var rest := Closes(cfg, w, pos, Next(cfg, c, SERVED));
    RunAllSnoc(cfg, b, front, SERVED);
    RunAllSplit(cfg, b, front + [SERVED], rest);
    ins := front + [SERVED] + rest;
  }

  /**
   Every run whose one remaining step is not permitted has a history of two drives, the first cut by one refused
   callback, at whose end the run is completed and returned, the step is skipped, and the log replays to the status
   it had before.
   */
  lemma RecordIsLost(cfg: Config, w: World, pos: nat, init: StepStatus) returns (ins: seq<Input>)
    requires LastUnpermitted(cfg, w, pos) && Replayed(w.log, pos, init) == w.rows[pos].step.status
    ensures forall i :: i in ins ==> HandsOff(i, pos)
    ensures var t := RunAll(cfg, Start(w), ins);
            && t.e.pc == Resting(Return(EndedCompleted)) && |t.w.rows| == pos + 1
            && t.w.rows[pos].step.status.Skipped?
            && Replayed(t.w.log, pos, init) == w.rows[pos].step.status
  {
    var n := ComesToSkipEvent(cfg, w, pos);
    var b := Next(cfg, Start(w), Begin);
    var c := ServedFor(cfg, b, n);
    RefusedAtSkipEvent(cfg, w, pos, c);
    var s := Next(cfg, c, REFUSED);
    var rest := CompletesUntold(cfg, w, pos, s);
    ins := TwoDrives(n, rest);
    TwoDrivesRun(cfg, Start(w), n, rest);
    TimesServes(n);
    var t := RunAll(cfg, Start(w), ins);
    var sequence :| t.w.log == w.log + [Event(sequence, EvRunCompleted, None, JNull)];
    ReplayedSnoc(w.log, Event(sequence, EvRunCompleted, None, JNull), pos, init);
  }

  function TwoDrives(n: nat, rest: seq<Input>): seq<Input> {
    [Begin] + Times(n) + [REFUSED] + ([Begin] + rest)
  }

  lemma TwoDrivesRun(cfg: Config, s: State, n: nat, rest: seq<Input>)
    ensures var mid := Next(cfg, ServedFor(cfg, Next(cfg, s, Begin), n), REFUSED);
            RunAll(cfg, s, TwoDrives(n, rest)) == RunAll(cfg, Next(cfg, mid, Begin), rest)
  {
    ServedForIsRun(cfg, Next(cfg, s, Begin), n);
    assert ([Begin] + Times(n))[1..] == Times(n);
    RunAllSnoc(cfg, s, [Begin] + Times(n), REFUSED);
    RunAllSplit(cfg, s, [Begin] + Times(n) + [REFUSED], [Begin] + rest);
    assert ([Begin] + rest)[1..] == rest;
  }
}
