/**
 Where a drive goes no further: a run that had ended is left alone, and a step that a prepared action leaves to the
 host's review ends the drive.
 */
module Boundaries {
  import opened Basics
  import opened Model
  import opened Engine
  import opened System
  import opened Gates
  import opened Completion

  /** The callbacks of a drive, without the host's own moves. */
  function CallsOf(trace: seq<Act>): (calls: seq<Act>)
    ensures forall k :: 0 <= k < |calls| ==> calls[k].Called?
  {
    if |trace| == 0 then []
    else
      var a := trace[|trace| - 1];
      CallsOf(trace[..|trace| - 1]) + (if a.Called? then [a] else [])
  }

  lemma CallsOfSnoc(trace: seq<Act>, a: Act)
    ensures CallsOf(trace + [a]) == if a.Called? then CallsOf(trace) + [a] else CallsOf(trace)
  {
    assert (trace + [a])[..|trace|] == trace;
    assert CallsOf(trace) + [] == CallsOf(trace);
  }

  // ---- a run that had ended ----

  ghost predicate LeftAlone(s: State) {
    && (s.e.pc.AskSequence? || s.e.pc == Resting(Return(NothingToDo)) || s.e.pc == Resting(StoreFailed(AskSequence)))
    && forall k :: 0 <= k < |s.trace| && s.trace[k].Called? ==> s.trace[k].req == NextSequence
  }

  lemma {:induction false} LeftAloneAlong(cfg: Config, s: State, ins: seq<Input>)
    requires LeftAlone(s) && OneDrive(ins)
    requires s.e.held.status == RunCompleted || s.e.held.status == RunFailed || s.e.held.status == RunCancelled
    ensures LeftAlone(RunAll(cfg, s, ins))
    decreases |ins|
  {
    if |ins| > 0 {
      LeftAloneAlong(cfg, Next(cfg, s, ins[0]), ins[1..]);
    }
  }

  /** A completed, failed or cancelled run is not touched: the drive asks for the sequence number and returns. */
  lemma EndedRunIsLeftAlone(cfg: Config, w: World, ins: seq<Input>)
    requires OneDrive(ins)
    requires w.run.status == RunCompleted || w.run.status == RunFailed || w.run.status == RunCancelled
    ensures var s := RunAll(cfg, DriveFrom(w), ins);
            && (forall k :: 0 <= k < |s.trace| && s.trace[k].Called? ==> s.trace[k].req == NextSequence)
            && (if s.e.pc.Resting? then s.e.pc.exit == Return(NothingToDo) || s.e.pc.exit == StoreFailed(AskSequence)
                else Ask(s.e) == NextSequence)
  {
    LeftAloneAlong(cfg, DriveFrom(w), ins);
  }

  ghost predicate Marked(s: State) {
    var calls := CallsOf(s.trace);
    && s.e.pc != Resting(Return(NothingToDo)) && s.e.pc != Drain(Quit(NothingToDo))
    && (|calls| == 0 ==> s.e.pc == AskSequence)
    && (|calls| == 1 ==> s.e.pc == if calls[0].reply.Number? then MarkRunning else Resting(StoreFailed(AskSequence)))
    && (|calls| > 0 ==> calls[0].req == NextSequence)
    && (|calls| > 1 ==> calls[0].reply.Number? && calls[1].req == SetRunStatus(RunRunning)
                        && !s.e.pc.AskSequence? && !s.e.pc.MarkRunning?)
  }

  lemma NeverBack(cfg: Config, e: Engine, reply: Reply, clock: real)
    requires !e.pc.Resting? && !e.pc.AskSequence? && e.pc != Drain(Quit(NothingToDo))
    ensures var pc := Resume(cfg, e, reply, clock).pc;
            && !pc.AskSequence? && !pc.MarkRunning?
            && pc != Resting(Return(NothingToDo)) && pc != Drain(Quit(NothingToDo))
  {
  }

  lemma MarkedServed(cfg: Config, s: State, t: State, a: Act, clock: real)
    requires Marked(s) && !s.e.pc.Resting? && a.Called? && a.req == Ask(s.e)
    requires !s.e.held.status.RunCompleted? && !s.e.held.status.RunFailed? && !s.e.held.status.RunCancelled?
    requires t.trace == s.trace + [a] && t.e == Resume(cfg, s.e, a.reply, clock)
    ensures Marked(t) && t.e.held == s.e.held
  {
    CallsOfSnoc(s.trace, a);
    if !s.e.pc.AskSequence? {
      NeverBack(cfg, s.e, a.reply, clock);
    }
  }

  lemma MarkedStep(cfg: Config, s: State, i: Input)
    requires Marked(s) && !i.Begin?
    requires !s.e.held.status.RunCompleted? && !s.e.held.status.RunFailed? && !s.e.held.status.RunCancelled?
    ensures Marked(Next(cfg, s, i)) && Next(cfg, s, i).e.held == s.e.held
  {
    match i
    case Move(m) => CallsOfSnoc(s.trace, Host(m));
    case Serve(answer, outcome, clock) =>
      if !s.e.pc.Resting? {
        var reply := Perform(s.w, Ask(s.e), answer, outcome).1;
        var a := Called(Ask(s.e), reply, Ask(s.e).Invoke? || !answer.Refused?);
        MarkedServed(cfg, s, Next(cfg, s, i), a, clock);
      }
  }

  lemma {:induction false} MarkedAlong(cfg: Config, s: State, ins: seq<Input>)
    requires Marked(s) && OneDrive(ins)
    requires !s.e.held.status.RunCompleted? && !s.e.held.status.RunFailed? && !s.e.held.status.RunCancelled?
    ensures Marked(RunAll(cfg, s, ins))
    decreases |ins|
  {
    if |ins| > 0 {
      MarkedStep(cfg, s, ins[0]);
      MarkedAlong(cfg, Next(cfg, s, ins[0]), ins[1..]);
    }
  }

  /** Any other run is marked running next, whatever its status says. */
  lemma OtherRunIsMarked(cfg: Config, w: World, ins: seq<Input>)
    requires OneDrive(ins)
    requires w.run.status != RunCompleted && w.run.status != RunFailed && w.run.status != RunCancelled
    ensures var s := RunAll(cfg, DriveFrom(w), ins);
            var calls := CallsOf(s.trace);
            && (|calls| > 0 ==> calls[0].req == NextSequence)
            && (|calls| > 1 ==> calls[1].req == SetRunStatus(RunRunning))
            && (|calls| == 1 && calls[0].reply.Number? ==>
                  !s.e.pc.Resting? && Ask(s.e) == SetRunStatus(RunRunning))
            && s.e.pc != Resting(Return(NothingToDo))
  {
    MarkedAlong(cfg, DriveFrom(w), ins);
  }

  // ---- the review boundary of a prepared action ----

  /** What a read of one step shows of its status: the row's, or, with no row, the status its pass had read. */
  function Shown(calls: seq<Act>, k: nat): Option<StepStatus>
    requires k < |calls|
  {
    var a := calls[k];
    if !(a.Called? && a.req.GetStep? && a.reply.StepRow?) then None
    else if a.reply.step.Some? then Some(a.reply.step.value.status)
    else if a.req.pos < |LastSteps(calls[..k])| then Some(LastSteps(calls[..k])[a.req.pos].status)
    else None
  }

  lemma ShownSnoc(calls: seq<Act>, a: Act, k: nat)
    requires k < |calls|
    ensures Shown(calls + [a], k) == Shown(calls, k)
  {
    assert (calls + [a])[..k] == calls[..k];
  }

  predicate AtBoundary(pc: Pc) {
    pc == Drain(Quit(AtReview)) || pc == Resting(Return(AtReview))
    || pc == Resting(StoreFailed(Drain(Quit(AtReview))))
  }

  /** The control states that follow a step's re-read: its drain, and what the drain leads to. */
  predicate Onwards(pc: Pc, pos: nat, shown: StepStatus, calls: seq<Act>, k: nat)
    requires k < |calls|
  {
    var after := if shown == Failed then FailRun(pos) else Again;
    && (k + 1 == |calls| ==> pc == Drain(after))
    && (k + 2 == |calls| ==>
          if calls[k + 1].Called? && calls[k + 1].reply.Batch? then pc == AfterDrain(after)
          else pc == Resting(StoreFailed(Drain(after))))
  }

  predicate Follow(pos: nat, shown: StepStatus, calls: seq<Act>, k: nat) {
    && (k + 1 < |calls| ==> calls[k + 1].Called? && calls[k + 1].req.EventsAfter?)
    && (k + 2 < |calls| ==>
          && calls[k + 2].Called?
          && calls[k + 2].req == if shown == Failed then Append(EvRunFailed, Some(pos), JNull) else GetRun)
  }

  /** The step a pass carries from its decision to the handler's call and the re-read after it. */
  function Held(pc: Pc): Option<(nat, Step)> {
    if pc.Reread? then Some((pc.pos, pc.step)) else Heading(pc)
  }

  lemma HeldIsCarried(cfg: Config, e: Engine, reply: Reply, clock: real)
    requires !e.pc.Resting?
    ensures var e' := Resume(cfg, e, reply, clock);
            && (e.pc.ReadSteps? <==> Ask(e).GetSteps?)
            && (e.pc.ReadSteps? && Held(e'.pc).Some? ==>
                  && reply.StepRows? && Held(e'.pc).value.0 < |reply.steps|
                  && reply.steps[Held(e'.pc).value.0] == Held(e'.pc).value.1)
            && (!e.pc.ReadSteps? && Held(e'.pc).Some? ==> Held(e'.pc) == Held(e.pc))
  {
    if e.pc.ReadSteps? && reply.StepRows? {
      DecideClears(cfg.cat, View(e.held, e.pc.current), reply.steps, clock - e.started);
      assert !Decide(cfg.cat, View(e.held, e.pc.current), reply.steps, clock - e.started).Reread?;
    }
  }

  /** One callback after the re-read, and after its drain. */
  lemma BoundaryMoves(cfg: Config, e: Engine, reply: Reply, clock: real)
    requires !e.pc.Resting?
    ensures var pc := Resume(cfg, e, reply, clock).pc;
            && (AtBoundary(e.pc) ==> Ask(e).EventsAfter? && AtBoundary(pc))
            && (Ask(e).GetStep? <==> e.pc.Reread?)
            && (e.pc.Reread? && reply.StepRow? ==>
                  var shown := if reply.step.Some? then reply.step.value.status else e.pc.step.status;
                  if shown == Awaiting then AtBoundary(pc)
                  else pc == Drain(if shown == Failed then FailRun(e.pc.pos) else Again))
            && (e.pc.Drain? ==>
                  && Ask(e).EventsAfter?
                  && pc == if reply.Batch? then AfterDrain(e.pc.after) else Resting(StoreFailed(e.pc)))
  {
  }

  lemma LastStepsSnoc(calls: seq<Act>, a: Act)
    ensures LastSteps(calls + [a]) ==
            if a.Called? && a.req.GetSteps? && a.reply.StepRows? then a.reply.steps else LastSteps(calls)
  {
    assert (calls + [a])[..|calls|] == calls;
  }

  ghost predicate HeldAsRead(pc: Pc, calls: seq<Act>) {
    Held(pc).Some? ==>
      Held(pc).value.0 < |LastSteps(calls)| && LastSteps(calls)[Held(pc).value.0] == Held(pc).value.1
  }

  lemma HeldStays(cfg: Config, e: Engine, calls: seq<Act>, a: Act, clock: real)
    requires HeldAsRead(e.pc, calls) && !e.pc.Resting? && a.Called? && a.req == Ask(e)
    ensures HeldAsRead(Resume(cfg, e, a.reply, clock).pc, calls + [a])
  {
    HeldIsCarried(cfg, e, a.reply, clock);
    LastStepsSnoc(calls, a);
  }

  lemma ShownNow(e: Engine, calls: seq<Act>, a: Act)
    requires HeldAsRead(e.pc, calls) && !e.pc.Resting? && a.Called? && a.req == Ask(e)
    ensures Shown(calls + [a], |calls|) ==
            if e.pc.Reread? && a.reply.StepRow? then
              Some(if a.reply.step.Some? then a.reply.step.value.status else e.pc.step.status)
            else None
  {
    assert (calls + [a])[..|calls|] == calls;
  }

  /** What a read of one step has shown decides all that follows it. */
  ghost predicate Decides(pc: Pc, calls: seq<Act>, k: nat)
    requires k < |calls| && calls[k].Called?
  {
    var shown := Shown(calls, k);
    && (shown == Some(Awaiting) ==>
          AtBoundary(pc) && forall j :: k < j < |calls| ==> calls[j].Called? && calls[j].req.EventsAfter?)
    && (shown.Some? && shown != Some(Awaiting) ==>
          calls[k].req.GetStep?
          && Onwards(pc, calls[k].req.pos, shown.value, calls, k)
          && Follow(calls[k].req.pos, shown.value, calls, k))
  }

  lemma DecidesLater(cfg: Config, e: Engine, calls: seq<Act>, a: Act, clock: real, k: nat)
    requires k < |calls| && calls[k].Called? && Decides(e.pc, calls, k)
    requires !e.pc.Resting? && a.Called? && a.req == Ask(e)
    ensures Decides(Resume(cfg, e, a.reply, clock).pc, calls + [a], k)
  {
    BoundaryMoves(cfg, e, a.reply, clock);
    ShownSnoc(calls, a, k);
  }

  lemma DecidesNow(cfg: Config, e: Engine, calls: seq<Act>, a: Act, clock: real)
    requires HeldAsRead(e.pc, calls) && !e.pc.Resting? && a.Called? && a.req == Ask(e)
    ensures Decides(Resume(cfg, e, a.reply, clock).pc, calls + [a], |calls|)
  {
    BoundaryMoves(cfg, e, a.reply, clock);
    ShownNow(e, calls, a);
  }

  ghost predicate ReviewInv(s: State) {
    var calls := CallsOf(s.trace);
    HeldAsRead(s.e.pc, calls) && forall k :: 0 <= k < |calls| ==> Decides(s.e.pc, calls, k)
  }

  lemma ReviewServed(cfg: Config, s: State, t: State, a: Act, clock: real)
    requires ReviewInv(s) && !s.e.pc.Resting? && a.Called? && a.req == Ask(s.e)
    requires t.trace == s.trace + [a] && t.e == Resume(cfg, s.e, a.reply, clock)
    ensures ReviewInv(t)
  {
    var calls := CallsOf(s.trace);
    CallsOfSnoc(s.trace, a);
    HeldStays(cfg, s.e, calls, a, clock);
    DecidesNow(cfg, s.e, calls, a, clock);
    forall k | 0 <= k < |calls| ensures Decides(t.e.pc, calls + [a], k) {
      DecidesLater(cfg, s.e, calls, a, clock, k);
    }
  }

  lemma ReviewStep(cfg: Config, s: State, i: Input)
    requires ReviewInv(s) && !i.Begin?
    ensures ReviewInv(Next(cfg, s, i))
  {
    match i
    case Move(m) => CallsOfSnoc(s.trace, Host(m));
    case Serve(answer, outcome, clock) =>
      if !s.e.pc.Resting? {
        var reply := Perform(s.w, Ask(s.e), answer, outcome).1;
        var a := Called(Ask(s.e), reply, Ask(s.e).Invoke? || !answer.Refused?);
        ReviewServed(cfg, s, Next(cfg, s, i), a, clock);
      }
  }

  lemma {:induction false} ReviewAlong(cfg: Config, s: State, ins: seq<Input>)
    requires ReviewInv(s) && OneDrive(ins)
    ensures ReviewInv(RunAll(cfg, s, ins))
    decreases |ins|
  {
    if |ins| > 0 {
      ReviewStep(cfg, s, ins[0]);
      ReviewAlong(cfg, Next(cfg, s, ins[0]), ins[1..]);
    }
  }

  /** A re-read that shows the step awaiting review ends the drive: it drains its stream, returns, and asks no more. */
  lemma ReviewEndsTheDrive(cfg: Config, w: World, ins: seq<Input>, k: nat)
    requires OneDrive(ins)
    requires var calls := CallsOf(RunAll(cfg, DriveFrom(w), ins).trace);
             k < |calls| && Shown(calls, k) == Some(Awaiting)
    ensures var s := RunAll(cfg, DriveFrom(w), ins);
            var calls := CallsOf(s.trace);
            && (forall j :: k < j < |calls| ==> calls[j].req.EventsAfter?)
            && (if s.e.pc.Resting? then
                  s.e.pc.exit == Return(AtReview) || s.e.pc.exit == StoreFailed(Drain(Quit(AtReview)))
                else Ask(s.e).EventsAfter?)
  {
    ReviewAlong(cfg, DriveFrom(w), ins);
    assert Decides(RunAll(cfg, DriveFrom(w), ins).e.pc, CallsOf(RunAll(cfg, DriveFrom(w), ins).trace), k);
  }

  /** Any other status sends the drive on once its stream is drained: to the next pass, or to a failed run's end. */
  lemma OtherReadsGoOn(cfg: Config, w: World, ins: seq<Input>, k: nat)
    requires OneDrive(ins)
    requires var calls := CallsOf(RunAll(cfg, DriveFrom(w), ins).trace);
             k < |calls| && Shown(calls, k).Some? && Shown(calls, k) != Some(Awaiting)
    ensures var s := RunAll(cfg, DriveFrom(w), ins);
            var calls := CallsOf(s.trace);
            var next := if Shown(calls, k) == Some(Failed) then Append(EvRunFailed, Some(calls[k].req.pos), JNull)
                        else GetRun;
            && (|calls| > k + 1 ==> calls[k + 1].req.EventsAfter?)
            && (|calls| > k + 2 ==> calls[k + 2].req == next)
            && (|calls| == k + 1 ==> !s.e.pc.Resting? && Ask(s.e).EventsAfter?)
            && (|calls| == k + 2 && calls[k + 1].reply.Batch? ==> !s.e.pc.Resting? && Ask(s.e) == next)
  {
    ReviewAlong(cfg, DriveFrom(w), ins);
    assert Decides(RunAll(cfg, DriveFrom(w), ins).e.pc, CallsOf(RunAll(cfg, DriveFrom(w), ins).trace), k);
  }
}
