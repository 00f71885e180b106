/**
 A pause or cancel that lands while a drive is under way: exactly when the drive leaves it as the host wrote
 it, and exactly when one of the drive's own status writes comes over it.
 */
module Halts {
  import opened Basics
  import opened Model
  import opened Engine
  import opened System
  import opened Flight

  /** Nobody touches the run or its steps meanwhile; callbacks may fail, but a run that is there is answered. */
  predicate Unhandled(i: Input) {
    match i
    case Begin => false
    case Move(m) => !m.PutRun? && !m.PutStep?
    case Serve(answer, _, _) => !answer.Absent?
  }

  /** Besides, every callback is answered. */
  predicate Undisturbed(i: Input) {
    Unhandled(i) && (i.Serve? ==> i.answer.Served?)
  }

  /** The handler's end fails the step: an error, a crash, or a prepared action the host left failed. */
  predicate Fails(outcome: Outcome, rows: seq<Row>, pos: nat) {
    outcome.Erred? || outcome.Crashed? || (outcome.Prepared? && pos < |rows| && rows[pos].step.status.Failed?)
  }

  /** The engine's next status operation is a write. */
  predicate HeadsForWrite(e: Engine, rows: seq<Row>) {
    match e.pc
    case AskSequence => !Terminal(e.held.status)
    case MarkRunning => true
    case CheckReport(_) => true
    case QuietFail => true
    case Report(_) => true
    case FailStatus => true
    case BudgetLog(_) => true
    case BudgetStatus(_) => true
    case StopStatus => true
    case CompleteStatus => true
    case UndoHost(_, _, _) => true
    case Write(t) => t.onward.ThenStop? || t.onward.ThenFailRun?
    case Log(t) => t.onward.ThenStop? || t.onward.ThenFailRun?
    case Drain(after) => after.FailRun?
    case Reread(pos, _) => pos < |rows| && rows[pos].step.status.Failed?
    case _ => false
  }

  /** The pass has yet to decide, or the handler it dispatches to has yet to answer. */
  predicate Open(pc: Pc) {
    match pc
    case ReadSteps(_) => true
    case Call(_, _) => true
    case Write(t) => t.onward.ThenStart? || t.onward.ThenCall?
    case Log(t) => t.onward.ThenStart? || t.onward.ThenCall?
    case _ => false
  }

  /** The callback is refused, or its answer is lost; a handler always ends somehow. */
  predicate Breaks(e: Engine, i: Input) {
    i.Serve? && !e.pc.Resting? && !Ask(e).Invoke? && (i.answer.Refused? || i.answer.Lost?)
  }

  /** The write the engine heads for is applied: every callback before it is answered, and it is not refused itself. */
  ghost predicate Lands(cfg: Config, s: State, ins: seq<Input>)
    decreases |ins|
  {
    |ins| > 0 && !s.e.pc.Resting?
    && if ins[0].Serve? && Ask(s.e).SetRunStatus? then !ins[0].answer.Refused?
       else !Breaks(s.e, ins[0]) && Lands(cfg, Next(cfg, s, ins[0]), ins[1..])
  }

  /**
   The status will be overwritten: the engine heads for a write, or the pass's decision on the steps it is about
   to read does, or the step it dispatches fails, and no callback fails before that write. Once it is applied the
   rest of the inputs do not matter.
   */
  ghost predicate Overwritten(cfg: Config, s: State, ins: seq<Input>)
    decreases |ins|
  {
    if HeadsForWrite(s.e, s.w.rows) then Lands(cfg, s, ins)
    else if !Open(s.e.pc) || |ins| == 0 || Breaks(s.e, ins[0]) then false
    else if s.e.pc.Call? && ins[0].Serve? then
      Fails(ins[0].outcome, s.w.rows, s.e.pc.pos) && Lands(cfg, Next(cfg, s, ins[0]), ins[1..])
    else Overwritten(cfg, Next(cfg, s, ins[0]), ins[1..])
  }

  /** The status writes of the engine. */
  function StatusWrites(trace: seq<Act>): nat {
    if |trace| == 0 then 0
    else
      var a := trace[|trace| - 1];
      StatusWrites(trace[..|trace| - 1]) + (if a.Called? && a.applied && a.req.SetRunStatus? then 1 else 0)
  }

  lemma WritesSnoc(trace: seq<Act>, a: Act)
    ensures StatusWrites(trace + [a]) ==
            StatusWrites(trace) + (if a.Called? && a.applied && a.req.SetRunStatus? then 1 else 0)
  {
    assert (trace + [a])[..|trace|] == trace;
  }

  /** One input that writes no status. */
  ghost predicate Spared(s: State, t: State) {
    t.w.run == s.w.run && StatusWrites(t.trace) == StatusWrites(s.trace)
  }

  lemma MovesSpare(cfg: Config, s: State, m: HostMove)
    requires Unhandled(Move(m))
    ensures Spared(s, Next(cfg, s, Move(m))) && |s.w.rows| <= |Next(cfg, s, Move(m)).w.rows|
    ensures forall k :: 0 <= k < |s.w.rows| ==> Next(cfg, s, Move(m)).w.rows[k] == s.w.rows[k]
  {
    WritesSnoc(s.trace, Host(m));
  }

  /** What one callback does to the run's status, and that a failed one ends the drive. */
  lemma ServesStatus(cfg: Config, s: State, i: Input)
    requires Unhandled(i) && i.Serve? && !s.e.pc.Resting?
    ensures var t := Next(cfg, s, i);
            && (if Ask(s.e).SetRunStatus? && !i.answer.Refused? then
                  t.w.run.status == Ask(s.e).status && StatusWrites(t.trace) == StatusWrites(s.trace) + 1
                  && !Ask(s.e).status.RunCancelled?
                else Spared(s, t))
            && (Breaks(s.e, i) ==> t.e.pc.Resting?)
  {
    var reply := Perform(s.w, Ask(s.e), i.answer, i.outcome).1;
    WritesSnoc(s.trace, Called(Ask(s.e), reply, Ask(s.e).Invoke? || !i.answer.Refused?));
  }

  // ---- the status is left alone ----

  /** Not heading for a write, and nothing left to decide. */
  predicate Reading(e: Engine, rows: seq<Row>) {
    !HeadsForWrite(e, rows) && !Open(e.pc)
  }

  lemma ReadingAsksNoWrite(e: Engine, rows: seq<Row>)
    requires Reading(e, rows) && !e.pc.Resting?
    ensures !Ask(e).SetRunStatus? && !Ask(e).Invoke?
  {
  }

  lemma ReadingResumes(cfg: Config, e: Engine, w: World, w': World, reply: Reply, clock: real)
    requires Reading(e, w.rows) && !e.pc.Resting? && (Where(e.pc).Some? ==> Where(e.pc).value < |w.rows|)
    requires Ask(e).GetRun? ==> reply == RunRow(Some(w.run)) && Halting(w.run.status)
    requires Ask(e).GetStep? && Ask(e).pos < |w.rows| ==> reply == StepRow(Some(w.rows[Ask(e).pos].step))
    ensures Reading(Resume(cfg, e, reply, clock), w'.rows)
  {
  }

  lemma ReadingStep(cfg: Config, s: State, i: Input)
    requires Placed(s) && Halting(s.w.run.status) && Reading(s.e, s.w.rows) && Unhandled(i)
    ensures var t := Next(cfg, s, i); Placed(t) && Spared(s, t) && Reading(t.e, t.w.rows)
  {
    PlacedStep(cfg, s, i);
    if i.Move? {
      MovesSpare(cfg, s, i.move);
    } else if !s.e.pc.Resting? {
      var (w', reply) := Perform(s.w, Ask(s.e), i.answer, i.outcome);
      ReadingAsksNoWrite(s.e, s.w.rows);
      ServesStatus(cfg, s, i);
      if !Breaks(s.e, i) {
        ReadingResumes(cfg, s.e, s.w, w', reply, i.clock);
      }
    }
  }

  lemma {:induction false} ReadingAlong(cfg: Config, s: State, ins: seq<Input>)
    requires Placed(s) && Halting(s.w.run.status) && Reading(s.e, s.w.rows)
    requires forall i :: i in ins ==> Unhandled(i)
    ensures Spared(s, RunAll(cfg, s, ins))
    decreases |ins|
  {
    if |ins| > 0 {
      ReadingStep(cfg, s, ins[0]);
      ReadingAlong(cfg, Next(cfg, s, ins[0]), ins[1..]);
    }
  }

  // ---- the status is overwritten ----

  /** A status write has come since, and the engine never writes `cancelled`. */
  ghost predicate Written(s: State, writes: nat) {
    StatusWrites(s.trace) > writes && !s.w.run.status.RunCancelled?
  }

  lemma WrittenStep(cfg: Config, s: State, i: Input, writes: nat)
    requires Written(s, writes) && Unhandled(i)
    ensures Written(Next(cfg, s, i), writes)
  {
    if i.Move? {
      MovesSpare(cfg, s, i.move);
    } else if !s.e.pc.Resting? {
      ServesStatus(cfg, s, i);
    }
  }

  lemma {:induction false} WrittenAlong(cfg: Config, s: State, ins: seq<Input>, writes: nat)
    requires Written(s, writes) && forall i :: i in ins ==> Unhandled(i)
    ensures Written(RunAll(cfg, s, ins), writes)
    decreases |ins|
  {
    if |ins| > 0 {
      WrittenStep(cfg, s, ins[0], writes);
      WrittenAlong(cfg, Next(cfg, s, ins[0]), ins[1..], writes);
    }
  }

  lemma HeadingResumes(cfg: Config, e: Engine, w: World, w': World, reply: Reply, clock: real)
    requires HeadsForWrite(e, w.rows) && !Ask(e).SetRunStatus? && Fits(Ask(e), reply)
    requires Ask(e).GetStep? ==> Ask(e).pos < |w.rows| && reply == StepRow(Some(w.rows[Ask(e).pos].step))
    ensures HeadsForWrite(Resume(cfg, e, reply, clock), w'.rows)
  {
  }

  /** One input on the way to a write: the write itself, the end of the drive, or a step nearer. */
  lemma HeadingStep(cfg: Config, s: State, i: Input)
    requires Placed(s) && HeadsForWrite(s.e, s.w.rows) && Unhandled(i)
    ensures var t := Next(cfg, s, i);
            && Placed(t) && !s.e.pc.Resting?
            && (if i.Serve? && Ask(s.e).SetRunStatus? && !i.answer.Refused? then Written(t, StatusWrites(s.trace))
                else Spared(s, t) && (if Breaks(s.e, i) then t.e.pc.Resting? else HeadsForWrite(t.e, t.w.rows)))
  {
    PlacedStep(cfg, s, i);
    if i.Move? {
      MovesSpare(cfg, s, i.move);
    } else {
      var (w', reply) := Perform(s.w, Ask(s.e), i.answer, i.outcome);
      ServesStatus(cfg, s, i);
      if !Ask(s.e).SetRunStatus? && !Breaks(s.e, i) {
        HeadingResumes(cfg, s.e, s.w, w', reply, i.clock);
      }
    }
  }

  /** What becomes of a write the engine heads for. */
  lemma {:induction false} HeadingAlong(cfg: Config, s: State, ins: seq<Input>)
    requires Placed(s) && HeadsForWrite(s.e, s.w.rows) && Halting(s.w.run.status)
    requires forall i :: i in ins ==> Unhandled(i)
    requires RunAll(cfg, s, ins).e.pc.Resting?
    ensures var t := RunAll(cfg, s, ins);
            if Lands(cfg, s, ins) then Written(t, StatusWrites(s.trace)) else Spared(s, t)
    decreases |ins|
  {
    if |ins| > 0 {
      var t := Next(cfg, s, ins[0]);
      HeadingStep(cfg, s, ins[0]);
      if ins[0].Serve? && Ask(s.e).SetRunStatus? && !ins[0].answer.Refused? {
        WrittenAlong(cfg, t, ins[1..], StatusWrites(s.trace));
      } else if Breaks(s.e, ins[0]) {
        ReadingAlong(cfg, t, ins[1..]);
      } else {
        HeadingAlong(cfg, t, ins[1..]);
      }
    }
  }

  // ---- every control state ----

  lemma OpenStep(cfg: Config, s: State, i: Input)
    requires Placed(s) && Open(s.e.pc) && Unhandled(i)
    ensures Placed(Next(cfg, s, i)) && Spared(s, Next(cfg, s, i))
    ensures Breaks(s.e, i) ==> Next(cfg, s, i).e.pc.Resting?
  {
    PlacedStep(cfg, s, i);
    if i.Move? {
      MovesSpare(cfg, s, i.move);
    } else {
      ServesStatus(cfg, s, i);
    }
  }

  /** The handler's answer settles it. */
  lemma AnswerSettles(cfg: Config, s: State, i: Input)
    requires Placed(s) && s.e.pc.Call? && Unhandled(i) && i.Serve?
    ensures var t := Next(cfg, s, i);
            if Fails(i.outcome, s.w.rows, s.e.pc.pos) then HeadsForWrite(t.e, t.w.rows) else Reading(t.e, t.w.rows)
  {
  }

  /** What becomes of the status from a state on. */
  ghost predicate Fate(cfg: Config, s: State, ins: seq<Input>) {
    var t := RunAll(cfg, s, ins);
    if Overwritten(cfg, s, ins) then Written(t, StatusWrites(s.trace)) else Spared(s, t)
  }

  lemma {:induction false} FateAlong(cfg: Config, s: State, ins: seq<Input>)
    requires Placed(s) && Halting(s.w.run.status) && forall i :: i in ins ==> Unhandled(i)
    requires RunAll(cfg, s, ins).e.pc.Resting?
    ensures Fate(cfg, s, ins)
    decreases |ins|
  {
    if HeadsForWrite(s.e, s.w.rows) {
      HeadingAlong(cfg, s, ins);
    } else if !Open(s.e.pc) {
      ReadingAlong(cfg, s, ins);
    } else if |ins| > 0 {
      var t := Next(cfg, s, ins[0]);
      OpenStep(cfg, s, ins[0]);
      if Breaks(s.e, ins[0]) {
        ReadingAlong(cfg, t, ins[1..]);
      } else if s.e.pc.Call? && ins[0].Serve? {
        AnswerSettles(cfg, s, ins[0]);
        if Fails(ins[0].outcome, s.w.rows, s.e.pc.pos) {
          HeadingAlong(cfg, t, ins[1..]);
        } else {
          ReadingAlong(cfg, t, ins[1..]);
        }
      } else {
        FateAlong(cfg, t, ins[1..]);
      }
    }
  }

  /** When every callback is answered, a drive that heads for a write makes it. */
  lemma {:induction false} AnsweredLands(cfg: Config, s: State, ins: seq<Input>)
    requires Placed(s) && HeadsForWrite(s.e, s.w.rows) && Halting(s.w.run.status)
    requires forall i :: i in ins ==> Undisturbed(i)
    requires RunAll(cfg, s, ins).e.pc.Resting?
    ensures Lands(cfg, s, ins)
    decreases |ins|
  {
    if |ins| > 0 {
      assert Undisturbed(ins[0]);
      HeadingStep(cfg, s, ins[0]);
      if !(ins[0].Serve? && Ask(s.e).SetRunStatus?) {
        AnsweredLands(cfg, Next(cfg, s, ins[0]), ins[1..]);
      }
    }
  }

  /**
   A pause or cancel that the host writes at any moment of any drive, with nobody else touching the run and any later
   callback answered, refused or lost: the drive ends without writing a status over it if and only if it was not
   `Overwritten`. A cancel is then still there exactly in that case, since the engine never writes one. When every
   callback is answered, heading for a write is enough.
   */
  lemma HaltKeptExactly(cfg: Config, w: World, before: seq<Input>, ins: seq<Input>)
    requires var s := RunAll(cfg, Start(w), before); !s.e.pc.Resting? && Halting(s.w.run.status)
    requires forall i :: i in ins ==> Unhandled(i)
    requires RunAll(cfg, RunAll(cfg, Start(w), before), ins).e.pc.Resting?
    ensures var s := RunAll(cfg, Start(w), before);
            var t := RunAll(cfg, s, ins);
            && (StatusWrites(t.trace) == StatusWrites(s.trace) <==> !Overwritten(cfg, s, ins))
            && (!Overwritten(cfg, s, ins) ==> t.w.run.status == s.w.run.status)
            && (s.w.run.status.RunCancelled? ==> (t.w.run.status.RunCancelled? <==> !Overwritten(cfg, s, ins)))
            && (HeadsForWrite(s.e, s.w.rows) && (forall i :: i in ins ==> Undisturbed(i)) ==>
                  Overwritten(cfg, s, ins))
  {
    var s := RunAll(cfg, Start(w), before);
    PlacedAlong(cfg, Start(w), before);
    FateAlong(cfg, s, ins);
    if HeadsForWrite(s.e, s.w.rows) && forall i :: i in ins ==> Undisturbed(i) {
      AnsweredLands(cfg, s, ins);
    }
  }

  // ---- two moments in closed form ----

  /** The step did not fail: the drive's next status operation is a read. */
  predicate Sparing(pc: Pc, rows: seq<Row>) {
    match pc
    case Write(t) => t.onward.ThenNextPass?
    case Log(t) => t.onward.ThenNextPass?
    case Reread(pos, step) => !step.status.Failed? && pos < |rows| && !rows[pos].step.status.Failed?
    case ReadRun => true
    case Drain(after) => after.Again? || after == Quit(Stopped) || after == Quit(AtReview)
    case Resting(_) => true
    case _ => false
  }

  /** The step failed: the drive's next status operation writes `failed`. */
  predicate Overwriting(pc: Pc, status: RunStatus, rows: seq<Row>) {
    match pc
    case UndoHost(pos, _, _) => pos < |rows|
    case Write(t) => t.onward.ThenFailRun? && t.pos < |rows|
    case Log(t) => t.onward.ThenFailRun? && t.pos < |rows|
    case Reread(pos, step) => pos < |rows| && rows[pos].step.status.Failed?
    case Report(_) => true
    case FailStatus => true
    case Hook(outcome) => outcome.RunFailed? && status.RunFailed?
    case Drain(after) => after.FailRun? || (after == Quit(EndedFailed) && status.RunFailed?)
    case Resting(exit) => exit == Return(EndedFailed) && status.RunFailed?
    case _ => false
  }

  lemma SparingStep(cfg: Config, s: State, i: Input)
    requires Halting(s.w.run.status) && Sparing(s.e.pc, s.w.rows) && Undisturbed(i)
    ensures var t := Next(cfg, s, i); t.w.run.status == s.w.run.status && Sparing(t.e.pc, t.w.rows)
  {
  }

  lemma OverwritingStep(cfg: Config, s: State, i: Input)
    requires Overwriting(s.e.pc, s.w.run.status, s.w.rows) && Undisturbed(i)
    ensures var t := Next(cfg, s, i); Overwriting(t.e.pc, t.w.run.status, t.w.rows)
  {
  }

  lemma {:induction false} SparingAlong(cfg: Config, s: State, ins: seq<Input>)
    requires Halting(s.w.run.status) && Sparing(s.e.pc, s.w.rows) && forall i :: i in ins ==> Undisturbed(i)
    ensures RunAll(cfg, s, ins).w.run.status == s.w.run.status
    decreases |ins|
  {
    if |ins| > 0 {
      SparingStep(cfg, s, ins[0]);
      SparingAlong(cfg, Next(cfg, s, ins[0]), ins[1..]);
    }
  }

  lemma {:induction false} OverwritingAlong(cfg: Config, s: State, ins: seq<Input>)
    requires Overwriting(s.e.pc, s.w.run.status, s.w.rows) && forall i :: i in ins ==> Undisturbed(i)
    ensures var t := RunAll(cfg, s, ins); t.e.pc.Resting? ==> t.w.run.status.RunFailed?
    decreases |ins|
  {
    if |ins| > 0 {
      OverwritingStep(cfg, s, ins[0]);
      OverwritingAlong(cfg, Next(cfg, s, ins[0]), ins[1..]);
    }
  }

  /**
   A run paused or cancelled while a handler runs still is when the drive has ended if and only if the step does
   not fail; a failing step's run ends `failed`.
   */
  lemma HaltDuringStep(cfg: Config, s: State, outcome: Outcome, clock: real, ins: seq<Input>)
    requires s.e.pc.Call? && s.e.pc.pos < |s.w.rows| && !s.e.pc.step.status.Failed?
    requires Halting(s.w.run.status) && forall i :: i in ins ==> Undisturbed(i)
    requires RunAll(cfg, Next(cfg, s, Serve(Served, outcome, clock)), ins).e.pc.Resting?
    ensures var t := RunAll(cfg, Next(cfg, s, Serve(Served, outcome, clock)), ins);
            && (t.w.run.status == s.w.run.status <==> !Fails(outcome, s.w.rows, s.e.pc.pos))
            && (t.w.run.status == s.w.run.status || t.w.run.status.RunFailed?)
  {
    var next := Next(cfg, s, Serve(Served, outcome, clock));
    if Fails(outcome, s.w.rows, s.e.pc.pos) {
      OverwritingAlong(cfg, next, ins);
    } else {
      SparingAlong(cfg, next, ins);
    }
  }

  /** The pass has decided to stop for review: its next status operation writes `awaiting_approval`. */
  predicate StoppingForReview(pc: Pc, status: RunStatus, rows: seq<Row>) {
    match pc
    case Write(t) => t.onward.ThenStop? && t.pos < |rows|
    case Log(t) => t.onward.ThenStop?
    case StopStatus => true
    case Drain(after) => after == Quit(Gated) && status.RunAwaiting?
    case Resting(exit) => exit == Return(Gated) && status.RunAwaiting?
    case _ => false
  }

  lemma ReviewStep(cfg: Config, s: State, i: Input)
    requires StoppingForReview(s.e.pc, s.w.run.status, s.w.rows) && Undisturbed(i)
    ensures var t := Next(cfg, s, i); StoppingForReview(t.e.pc, t.w.run.status, t.w.rows)
  {
  }

  /** A pause or cancel that lands once a pass has decided to stop for review is overwritten. */
  lemma {:induction false} HaltAtTheGate(cfg: Config, s: State, ins: seq<Input>)
    requires StoppingForReview(s.e.pc, s.w.run.status, s.w.rows) && forall i :: i in ins ==> Undisturbed(i)
    ensures var t := RunAll(cfg, s, ins); t.e.pc.Resting? ==> t.w.run.status.RunAwaiting?
    decreases |ins|
  {
    if |ins| > 0 {
      ReviewStep(cfg, s, ins[0]);
      HaltAtTheGate(cfg, Next(cfg, s, ins[0]), ins[1..]);
    }
  }
}
