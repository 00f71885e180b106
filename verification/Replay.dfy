/** The event log replays to the step statuses, and lags the store by at most one write. */
module Replay {
  import opened Basics
  import opened Model
  import opened Engine
  import opened System
  import opened Flight

  function StatusOf(kind: EventKind): Option<StepStatus> {
    match kind
    case EvStarted => Some(Running)
    case EvCompleted => Some(Completed)
    case EvFailed => Some(Failed)
    case EvSkipped => Some(Skipped)
    case EvRequired => Some(Awaiting)
    case EvGranted => Some(Approved)
    case _ => None
  }

  /** Whether an event says something about the status of the step at `pos`. */
  predicate Speaks(kind: EventKind, step: Option<nat>, pos: nat) {
    step == Some(pos) && StatusOf(kind).Some?
  }

  /** A reader's reconstruction of one step's status from its initial status and the log alone. */
  function Replayed(log: seq<Event>, pos: nat, init: StepStatus): StepStatus {
    if |log| == 0 then init
    else
      var last := log[|log| - 1];
      if Speaks(last.kind, last.step, pos) then StatusOf(last.kind).value
      else Replayed(log[..|log| - 1], pos, init)
  }

  predicate Records(to: StepStatus) {
    StatusOf(EventOf(to)) == Some(to)
  }

  /** An applied write of the step. */
  predicate Writes(a: Act, pos: nat) {
    a.Called? && a.applied && a.req.SetStepState? && a.req.pos == pos
  }

  /** An applied event of the step. */
  predicate Tells(a: Act, pos: nat) {
    a.Called? && a.applied && a.req.Append? && Speaks(a.req.kind, a.req.step, pos)
  }

  /** The status of the latest applied write of the step, when no event of the step has been applied since. */
  function Unrecorded(trace: seq<Act>, pos: nat): Option<StepStatus> {
    if |trace| == 0 then None
    else
      var a := trace[|trace| - 1];
      if Writes(a, pos) then Some(a.req.to)
      else if Tells(a, pos) then None
      else Unrecorded(trace[..|trace| - 1], pos)
  }

  lemma UnrecordedSnoc(trace: seq<Act>, a: Act, pos: nat)
    ensures Unrecorded(trace + [a], pos) ==
            if Writes(a, pos) then Some(a.req.to) else if Tells(a, pos) then None else Unrecorded(trace, pos)
  {
    assert (trace + [a])[..|trace|] == trace;
  }

  /** The host neither writes the step's status nor speaks about it. */
  predicate HandsOff(i: Input, pos: nat) {
    i.Move? ==> !(i.move.PutStep? && i.move.pos == pos)
                && !(i.move.AddEvent? && Speaks(i.move.kind, i.move.step, pos))
  }

  ghost predicate ReplayInv(s: State, pos: nat, init: StepStatus) {
    && pos < |s.w.rows|
    && (s.e.pc.Write? || s.e.pc.Log? ==> Records(s.e.pc.t.to))
    && (s.e.pc.Log? && s.e.pc.t.pos == pos ==> Unrecorded(s.trace, pos) == Some(s.e.pc.t.to))
    && var replayed, stored := Replayed(s.w.log, pos, init), s.w.rows[pos].step.status;
       match Unrecorded(s.trace, pos)
       case None => replayed == stored
       case Some(to) => stored == to && Records(to)
  }

  /** What one callback does to the records of the step, and whether the host applied it. */
  ghost predicate ReplayReply(w: World, w': World, a: Act, pos: nat)
    requires pos < |w.rows| && a.Called?
  {
    && |w'.rows| == |w.rows|
    && w'.rows[pos].step.status == (if Writes(a, pos) then a.req.to else w.rows[pos].step.status)
    && w'.log == (if a.applied && a.req.Append?
                  then w.log + [Event(w.nextSeq, a.req.kind, a.req.step, a.req.payload)] else w.log)
    && (a.req.SetStepState? && a.reply.StepRow? ==> a.applied)
    && (a.req.Append? && a.reply.Appended? ==> a.applied)
  }

  lemma PerformForReplay(w: World, req: Request, answer: Answer, outcome: Outcome, pos: nat)
    requires pos < |w.rows|
    ensures var (w', reply) := Perform(w, req, answer, outcome);
            ReplayReply(w, w', Called(req, reply, req.Invoke? || !answer.Refused?), pos)
  {
  }

  ghost predicate ReplayResume(e: Engine, e': Engine, req: Request, reply: Reply) {
    && (e'.pc.Write? ==> Records(e'.pc.t.to))
    && (e'.pc.Log? ==> e.pc.Write? && e'.pc.t == e.pc.t && reply.StepRow?)
    && (req.SetStepState? ==> e.pc.Write? && req.pos == e.pc.t.pos && req.to == e.pc.t.to)
    && (e.pc.Write? ==> req.SetStepState?)
    && (req.Append? && StatusOf(req.kind).Some? ==>
          e.pc.Log? && req.kind == EventOf(e.pc.t.to) && req.step == Some(e.pc.t.pos))
  }

  lemma ResumeForReplay(cfg: Config, e: Engine, reply: Reply, clock: real)
    requires !e.pc.Resting?
    ensures ReplayResume(e, Resume(cfg, e, reply, clock), Ask(e), reply)
  {
    if e.pc.ReadSteps? && reply.StepRows? {
      DecideRecords(cfg, View(e.held, e.pc.current), reply.steps, clock - e.started);
    }
  }

  lemma DecideRecords(cfg: Config, view: Run, steps: seq<Step>, elapsed: real)
    ensures var pc := Decide(cfg.cat, view, steps, elapsed); !pc.Log? && (pc.Write? ==> Records(pc.t.to))
  {
  }

  lemma ReplayedSnoc(log: seq<Event>, last: Event, pos: nat, init: StepStatus)
    ensures Replayed(log + [last], pos, init) ==
            if Speaks(last.kind, last.step, pos) then StatusOf(last.kind).value else Replayed(log, pos, init)
  {
    assert (log + [last])[..|log|] == log;
  }

  lemma ServedKeepsReplay(s: State, t: State, a: Act, pos: nat, init: StepStatus)
    requires ReplayInv(s, pos, init) && !s.e.pc.Resting? && a.Called? && t.trace == s.trace + [a]
    requires ReplayReply(s.w, t.w, a, pos) && ReplayResume(s.e, t.e, a.req, a.reply)
    ensures ReplayInv(t, pos, init)
  {
    UnrecordedSnoc(s.trace, a, pos);
    if a.req.Append? {
      ReplayedSnoc(s.w.log, Event(s.w.nextSeq, a.req.kind, a.req.step, a.req.payload), pos, init);
    }
  }

  lemma ReplayStep(cfg: Config, s: State, i: Input, pos: nat, init: StepStatus)
    requires ReplayInv(s, pos, init) && HandsOff(i, pos)
    ensures ReplayInv(Next(cfg, s, i), pos, init)
  {
    match i
    case Move(m) =>
      UnrecordedSnoc(s.trace, Host(m), pos);
      if m.AddEvent? {
        ReplayedSnoc(s.w.log, Event(s.w.nextSeq, m.kind, m.step, m.payload), pos, init);
      }
    case Begin =>
      UnrecordedSnoc(s.trace, Began(s.w.run), pos);
    case Serve(answer, outcome, clock) =>
      if !s.e.pc.Resting? {
        var req := Ask(s.e);
        var reply := Perform(s.w, req, answer, outcome).1;
        PerformForReplay(s.w, req, answer, outcome, pos);
        ResumeForReplay(cfg, s.e, reply, clock);
        ServedKeepsReplay(s, Next(cfg, s, i), Called(req, reply, req.Invoke? || !answer.Refused?), pos, init);
      }
  }

  lemma {:induction false} ReplayAlong(cfg: Config, s: State, ins: seq<Input>, pos: nat, init: StepStatus)
    requires ReplayInv(s, pos, init) && forall i :: i in ins ==> HandsOff(i, pos)
    ensures ReplayInv(RunAll(cfg, s, ins), pos, init)
    decreases |ins|
  {
    if |ins| > 0 {
      ReplayStep(cfg, s, ins[0], pos, init);
      ReplayAlong(cfg, Next(cfg, s, ins[0]), ins[1..], pos, init);
    }
  }

  /**
   What the log says of the step: the stored status, when its latest write has its event; otherwise the write is one
   event ahead, and whatever number and payload that event were given, appending it would catch the log up.
   */
  ghost predicate Replays(s: State, pos: nat, init: StepStatus) {
    && pos < |s.w.rows|
    && var stored := s.w.rows[pos].step.status;
       match Unrecorded(s.trace, pos)
       case None => Replayed(s.w.log, pos, init) == stored
       case Some(to) =>
         && stored == to
         && forall sequence, payload ::
              Replayed(s.w.log + [Event(sequence, EventOf(to), Some(pos), payload)], pos, init) == stored
  }

  lemma InvReplays(s: State, pos: nat, init: StepStatus)
    requires ReplayInv(s, pos, init)
    ensures Replays(s, pos, init)
  {
    if Unrecorded(s.trace, pos).Some? {
      var to := Unrecorded(s.trace, pos).value;
      forall sequence, payload
        ensures Replayed(s.w.log + [Event(sequence, EventOf(to), Some(pos), payload)], pos, init) == to
      {
        ReplayedSnoc(s.w.log, Event(sequence, EventOf(to), Some(pos), payload), pos, init);
      }
    }
  }

  // ---- histories in which no drive follows a failure in the middle of a transition of the step ----

  /** The transition whose write may be in the store before its event is in the log. */
  function Owed(pc: Pc): Option<Transition> {
    match pc
    case Log(t) => Some(t)
    case Resting(exit) =>
      if exit.StoreFailed? && (exit.at.Write? || exit.at.Log?) then Some(exit.at.t) else None
    case _ => None
  }

  predicate Owes(pc: Pc, pos: nat) {
    Owed(pc).Some? && Owed(pc).value.pos == pos
  }

  predicate Settles(cfg: Config, s: State, ins: seq<Input>, pos: nat)
    decreases |ins|
  {
    |ins| == 0
    || ((ins[0].Begin? && s.e.pc.Resting? ==> !Owes(s.e.pc, pos)) && Settles(cfg, Next(cfg, s, ins[0]), ins[1..], pos))
  }

  lemma OwedServed(cfg: Config, s: State, t: State, a: Act, clock: real, pos: nat)
    requires Unrecorded(s.trace, pos).Some? ==> Owes(s.e.pc, pos)
    requires !s.e.pc.Resting? && a.Called? && a.req == Ask(s.e) && (Fits(a.req, a.reply) ==> a.applied)
    requires t.trace == s.trace + [a] && t.e == Resume(cfg, s.e, a.reply, clock)
    requires s.e.pc.Log? ==> Records(s.e.pc.t.to)
    ensures Unrecorded(t.trace, pos).Some? ==> Owes(t.e.pc, pos)
  {
    UnrecordedSnoc(s.trace, a, pos);
  }

  lemma {:induction false} OwedAlong(cfg: Config, s: State, ins: seq<Input>, pos: nat, init: StepStatus)
    requires ReplayInv(s, pos, init) && (forall i :: i in ins ==> HandsOff(i, pos)) && Settles(cfg, s, ins, pos)
    requires Unrecorded(s.trace, pos).Some? ==> Owes(s.e.pc, pos)
    ensures var t := RunAll(cfg, s, ins); Unrecorded(t.trace, pos).Some? ==> Owes(t.e.pc, pos)
    decreases |ins|
  {
    if |ins| > 0 {
      var i := ins[0];
      ReplayStep(cfg, s, i, pos, init);
      if i.Serve? && !s.e.pc.Resting? {
        var reply := Perform(s.w, Ask(s.e), i.answer, i.outcome).1;
        AnsweredWasApplied(s.w, Ask(s.e), i.answer, i.outcome);
        OwedServed(cfg, s, Next(cfg, s, i), Called(Ask(s.e), reply, Ask(s.e).Invoke? || !i.answer.Refused?),
                   i.clock, pos);
      } else if i.Move? {
        UnrecordedSnoc(s.trace, Host(i.move), pos);
      } else if i.Begin? {
        UnrecordedSnoc(s.trace, Began(s.w.run), pos);
      }
      OwedAlong(cfg, Next(cfg, s, i), ins[1..], pos, init);
    }
  }

  // ---- every history ----

  /**
   From any world whose log replays to the step's status, over any number of drives and any failed callbacks: the log
   replays to the stored status, or lags it by the one write whose event was never applied. When no drive is started
   after a callback failed in the middle of a transition of the step, every return and every exit raised on a
   handler's account leaves a log that replays to exactly the stored status.
   */
  lemma LogReplaysToStatus(cfg: Config, w: World, ins: seq<Input>, pos: nat, init: StepStatus)
    requires pos < |w.rows| && Replayed(w.log, pos, init) == w.rows[pos].step.status
    requires forall i :: i in ins ==> HandsOff(i, pos)
    ensures var s := RunAll(cfg, Start(w), ins);
            && Replays(s, pos, init)
            && (Settles(cfg, Start(w), ins, pos) && !Owes(s.e.pc, pos) ==>
                  Replayed(s.w.log, pos, init) == s.w.rows[pos].step.status)
  {
    ReplayAlong(cfg, Start(w), ins, pos, init);
    InvReplays(RunAll(cfg, Start(w), ins), pos, init);
    if Settles(cfg, Start(w), ins, pos) {
      OwedAlong(cfg, Start(w), ins, pos, init);
    }
  }

  // ---- steps that join later ----

  /** The host says nothing about a step that does not exist. */
  predicate SaysNothing(i: Input, pos: nat) {
    i.Move? && i.move.AddEvent? ==> !Speaks(i.move.kind, i.move.step, pos)
  }

  ghost predicate Silent(log: seq<Event>, pos: nat) {
    forall k :: 0 <= k < |log| ==> !Speaks(log[k].kind, log[k].step, pos)
  }

  /** Nothing has been said about the step at `pos`, and every transition under way is for a step before it. */
  ghost predicate SilentInv(s: State, pos: nat) {
    && Placed(s) && (|s.w.rows| <= pos ==> Silent(s.w.log, pos))
    && (s.e.pc.Write? || s.e.pc.Log? ==> Records(s.e.pc.t.to))
  }

  lemma SilentServed(s: State, t: State, req: Request, reply: Reply, pos: nat)
    requires SilentInv(s, pos) && !s.e.pc.Resting? && Placed(t) && |s.w.rows| <= |t.w.rows|
    requires ReplayResume(s.e, t.e, req, reply)
    requires t.w.log == s.w.log
             || (req.Append? && t.w.log == s.w.log + [Event(s.w.nextSeq, req.kind, req.step, req.payload)])
    ensures SilentInv(t, pos)
  {
  }

  lemma PerformAppends(w: World, req: Request, answer: Answer, outcome: Outcome)
    ensures var w' := Perform(w, req, answer, outcome).0;
            w'.log == w.log || (req.Append? && w'.log == w.log + [Event(w.nextSeq, req.kind, req.step, req.payload)])
  {
  }

  lemma SilentStep(cfg: Config, s: State, i: Input, pos: nat)
    requires SilentInv(s, pos) && SaysNothing(i, pos)
    ensures SilentInv(Next(cfg, s, i), pos)
  {
    PlacedStep(cfg, s, i);
    if i.Serve? && !s.e.pc.Resting? {
      var reply := Perform(s.w, Ask(s.e), i.answer, i.outcome).1;
      PerformAppends(s.w, Ask(s.e), i.answer, i.outcome);
      ResumeForReplay(cfg, s.e, reply, i.clock);
      SilentServed(s, Next(cfg, s, i), Ask(s.e), reply, pos);
    }
  }

  lemma {:induction false} SilentAlong(cfg: Config, s: State, ins: seq<Input>, pos: nat)
    requires SilentInv(s, pos) && forall i :: i in ins ==> SaysNothing(i, pos)
    ensures SilentInv(RunAll(cfg, s, ins), pos)
    decreases |ins|
  {
    if |ins| > 0 {
      SilentStep(cfg, s, ins[0], pos);
      SilentAlong(cfg, Next(cfg, s, ins[0]), ins[1..], pos);
    }
  }

  lemma {:induction false} SilentReplays(log: seq<Event>, pos: nat, init: StepStatus)
    requires Silent(log, pos)
    ensures Replayed(log, pos, init) == init
    decreases |log|
  {
    if |log| > 0 {
      SilentReplays(log[..|log| - 1], pos, init);
    }
  }

  /** A step that does not exist has not been written. */
  lemma {:induction false} NotYetWritten(trace: seq<Act>, pos: nat)
    requires forall k :: 0 <= k < |trace| ==> ActWithin(trace[k], pos)
    ensures Unrecorded(trace, pos).None?
    decreases |trace|
  {
    if |trace| > 0 {
      NotYetWritten(trace[..|trace| - 1], pos);
    }
  }

  lemma AppendedReplays(cfg: Config, s: State, added: Step, pos: nat)
    requires SilentInv(s, pos) && pos == |s.w.rows|
    ensures ReplayInv(Next(cfg, s, Move(AddStep(added))), pos, added.status)
    ensures Unrecorded(Next(cfg, s, Move(AddStep(added))).trace, pos).None?
  {
    SilentReplays(s.w.log, pos, added.status);
    NotYetWritten(s.trace, pos);
    UnrecordedSnoc(s.trace, Host(AddStep(added)), pos);
  }

  /**
   The same for a step that a handler or the host appends at any moment of any history: from the status it was
   appended with, the log replays to its stored status, or lags it by the one write whose event was never applied.
   */
  lemma LogReplaysToAppended(cfg: Config, w: World, before: seq<Input>, added: Step, after: seq<Input>)
    requires var pos := |RunAll(cfg, Start(w), before).w.rows|;
             && Silent(w.log, pos) && (forall i :: i in before ==> SaysNothing(i, pos))
             && (forall i :: i in after ==> HandsOff(i, pos))
    ensures var s := RunAll(cfg, Start(w), before);
            var joined, pos := Next(cfg, s, Move(AddStep(added))), |s.w.rows|;
            var t := RunAll(cfg, joined, after);
            && Replays(t, pos, added.status)
            && (Settles(cfg, joined, after, pos) && !Owes(t.e.pc, pos) ==>
                  Replayed(t.w.log, pos, added.status) == t.w.rows[pos].step.status)
  {
    var s := RunAll(cfg, Start(w), before);
    var pos := |s.w.rows|;
    SilentAlong(cfg, Start(w), before, pos);
    var joined := Next(cfg, s, Move(AddStep(added)));
    AppendedReplays(cfg, s, added, pos);
    ReplayAlong(cfg, joined, after, pos, added.status);
    InvReplays(RunAll(cfg, joined, after), pos, added.status);
    if Settles(cfg, joined, after, pos) {
      OwedAlong(cfg, joined, after, pos, added.status);
    }
  }
}
