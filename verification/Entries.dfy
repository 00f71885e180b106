/**
 At most one entry. The engine asks for `running` before every handler call, and asks again before it re-enters
 a step that an interrupted drive left running: that request is where a host can refuse. A host that refuses it
 for a step whose handler it has already seen entered bounds the entries of that step by its own re-parkings,
 whatever answers are lost, wherever drives stop, and however many there are.
 */
module Entries {
  import opened Basics
  import opened Model
  import opened Engine
  import opened System
  import opened Scenes
  import opened Limits

  /** The handler of the step is entered. */
  predicate Enters(a: Act, pos: nat) {
    a.Called? && a.req.Invoke? && a.req.pos == pos
  }

  /** The host puts the step back to a status from which it may be started afresh. */
  predicate Reparks(a: Act, pos: nat) {
    a.Host? && a.move.PutStep? && a.move.pos == pos
    && (a.move.status.Pending? || a.move.status.Awaiting? || a.move.status.Approved?)
  }

  /** An applied request for `running`. */
  predicate Claims(a: Act, pos: nat) {
    a.Called? && a.applied && a.req.SetStepState? && a.req.pos == pos && a.req.to.Running?
  }

  function One(b: bool): nat {
    if b then 1 else 0
  }

  function EntryCount(trace: seq<Act>, pos: nat): nat {
    if |trace| == 0 then 0
    else EntryCount(trace[..|trace| - 1], pos) + One(Enters(trace[|trace| - 1], pos))
  }

  function ReparkCount(trace: seq<Act>, pos: nat): nat {
    if |trace| == 0 then 0
    else ReparkCount(trace[..|trace| - 1], pos) + One(Reparks(trace[|trace| - 1], pos))
  }

  function ClaimCount(trace: seq<Act>, pos: nat): nat {
    if |trace| == 0 then 0
    else ClaimCount(trace[..|trace| - 1], pos) + One(Claims(trace[|trace| - 1], pos))
  }

  /** The handler has been entered since the step was last put back. */
  predicate Entered(trace: seq<Act>, pos: nat) {
    |trace| > 0
    && (Enters(trace[|trace| - 1], pos)
        || (!Reparks(trace[|trace| - 1], pos) && Entered(trace[..|trace| - 1], pos)))
  }

  lemma EntriesSnoc(trace: seq<Act>, a: Act, pos: nat)
    ensures EntryCount(trace + [a], pos) == EntryCount(trace, pos) + One(Enters(a, pos))
    ensures ReparkCount(trace + [a], pos) == ReparkCount(trace, pos) + One(Reparks(a, pos))
    ensures ClaimCount(trace + [a], pos) == ClaimCount(trace, pos) + One(Claims(a, pos))
    ensures Entered(trace + [a], pos) <==> Enters(a, pos) || (!Reparks(a, pos) && Entered(trace, pos))
  {
    assert (trace + [a])[..|trace|] == trace;
  }

  /** The host refuses `running` for a step whose handler has been entered since it was last put back. */
  predicate RefusesReentry(s: State, i: Input, pos: nat) {
    s.e.pc.Write? && s.e.pc.t.pos == pos && s.e.pc.t.to.Running? && Entered(s.trace, pos) && i.Serve? ==>
      i.answer.Refused?
  }

  predicate RefusesAlong(cfg: Config, s: State, ins: seq<Input>, pos: nat)
    decreases |ins|
  {
    |ins| == 0 || (RefusesReentry(s, ins[0], pos) && RefusesAlong(cfg, Next(cfg, s, ins[0]), ins[1..], pos))
  }

  /** `running` has been answered for the step and its handler is next. */
  predicate Claimed(pc: Pc, pos: nat) {
    match pc
    case Log(t) => t.pos == pos && t.onward.ThenCall?
    case Call(at, _) => at == pos
    case _ => false
  }

  /** Only a start is followed by a handler call. */
  predicate CallsAfterStart(pc: Pc) {
    match pc
    case Write(t) => t.onward.ThenCall? ==> t.to.Running?
    case Log(t) => t.onward.ThenCall? ==> t.to.Running?
    case _ => true
  }

  /** How one answered callback moves the claim along. */
  ghost predicate ClaimResume(e: Engine, e': Engine, req: Request, reply: Reply, pos: nat) {
    && CallsAfterStart(e'.pc)
    && (Claimed(e'.pc, pos) ==>
          || (Claimed(e.pc, pos) && !req.Invoke?)
          || (e.pc.Write? && e.pc.t.pos == pos && e.pc.t.to.Running? && req.SetStepState? && reply.StepRow?))
    && (req.SetStepState? ==> e.pc.Write? && e.pc.t.pos == req.pos && e.pc.t.to == req.to)
    && (req.Invoke? ==> Claimed(e.pc, req.pos))
  }

  lemma ResumeClaims(cfg: Config, e: Engine, reply: Reply, clock: real, pos: nat)
    requires !e.pc.Resting? && CallsAfterStart(e.pc)
    ensures ClaimResume(e, Resume(cfg, e, reply, clock), Ask(e), reply, pos)
  {
  }

  /** The ledger of one step: a claim pays for at most one entry, and an unused claim is still held. */
  ghost predicate Ledger(s: State, pos: nat) {
    && CallsAfterStart(s.e.pc)
    && EntryCount(s.trace, pos) + One(Claimed(s.e.pc, pos)) <= ClaimCount(s.trace, pos)
  }

  /** With a host that refuses re-entry. */
  ghost predicate Guarded(s: State, pos: nat) {
    && CallsAfterStart(s.e.pc)
    && (Claimed(s.e.pc, pos) ==> !Entered(s.trace, pos))
    && EntryCount(s.trace, pos) <= ReparkCount(s.trace, pos) + One(Entered(s.trace, pos))
  }

  lemma ServedClaims(cfg: Config, s: State, answer: Answer, outcome: Outcome, clock: real, pos: nat)
    requires !s.e.pc.Resting? && CallsAfterStart(s.e.pc)
    ensures var t, req := Next(cfg, s, Serve(answer, outcome, clock)), Ask(s.e);
            && ClaimResume(s.e, t.e, req, Perform(s.w, req, answer, outcome).1, pos)
            && t.trace == s.trace + [Called(req, Perform(s.w, req, answer, outcome).1, req.Invoke? || !answer.Refused?)]
            && (answer.Refused? && req.SetStepState? ==> !Perform(s.w, req, answer, outcome).1.StepRow?)
  {
    ResumeClaims(cfg, s.e, Perform(s.w, Ask(s.e), answer, outcome).1, clock, pos);
  }

  lemma ClaimServed(cfg: Config, s: State, t: State, a: Act, pos: nat)
    requires CallsAfterStart(s.e.pc) && a.Called? && t.trace == s.trace + [a]
    requires ClaimResume(s.e, t.e, a.req, a.reply, pos)
    requires a.req.SetStepState? && a.reply.StepRow? ==> a.applied
    ensures Ledger(s, pos) ==> Ledger(t, pos)
    ensures Guarded(s, pos)
            && (a.req.SetStepState? && a.req.pos == pos && a.req.to.Running? && Entered(s.trace, pos) ==> !a.applied)
            ==> Guarded(t, pos)
  {
    EntriesSnoc(s.trace, a, pos);
  }

  lemma ClaimStep(cfg: Config, s: State, i: Input, pos: nat)
    requires CallsAfterStart(s.e.pc)
    ensures Ledger(s, pos) ==> Ledger(Next(cfg, s, i), pos)
    ensures Guarded(s, pos) && RefusesReentry(s, i, pos) ==> Guarded(Next(cfg, s, i), pos)
  {
    match i
    case Move(m) => EntriesSnoc(s.trace, Host(m), pos);
    case Begin => EntriesSnoc(s.trace, Began(s.w.run), pos);
    case Serve(answer, outcome, clock) =>
      if !s.e.pc.Resting? {
        var reply := Perform(s.w, Ask(s.e), answer, outcome).1;
        ServedClaims(cfg, s, answer, outcome, clock, pos);
        ClaimServed(cfg, s, Next(cfg, s, i), Called(Ask(s.e), reply, Ask(s.e).Invoke? || !answer.Refused?), pos);
      }
  }

  lemma {:induction false} ClaimsAlong(cfg: Config, s: State, ins: seq<Input>, pos: nat)
    requires CallsAfterStart(s.e.pc)
    ensures Ledger(s, pos) ==> Ledger(RunAll(cfg, s, ins), pos)
    ensures Guarded(s, pos) && RefusesAlong(cfg, s, ins, pos) ==> Guarded(RunAll(cfg, s, ins), pos)
    decreases |ins|
  {
    if |ins| > 0 {
      ClaimStep(cfg, s, ins[0], pos);
      CallsStayAfterStart(cfg, s, ins[0]);
      ClaimsAlong(cfg, Next(cfg, s, ins[0]), ins[1..], pos);
    }
  }

  lemma CallsStayAfterStart(cfg: Config, s: State, i: Input)
    requires CallsAfterStart(s.e.pc)
    ensures CallsAfterStart(Next(cfg, s, i).e.pc)
  {
    if i.Serve? && !s.e.pc.Resting? {
      ResumeClaims(cfg, s.e, Perform(s.w, Ask(s.e), i.answer, i.outcome).1, i.clock, 0);
    }
  }

  /** Whatever the host does, every entry has its own applied request for `running` before it. */
  lemma EntriesNeedClaims(cfg: Config, w: World, ins: seq<Input>, pos: nat)
    ensures var t := RunAll(cfg, Start(w), ins).trace; EntryCount(t, pos) <= ClaimCount(t, pos)
  {
    ClaimsAlong(cfg, Start(w), ins, pos);
  }

  /**
   With a host that refuses `running` for a step it has seen entered, the handler is entered at most once
   between two re-parkings, so at most once more often than the host has put the step back.
   */
  lemma OneEntryPerParking(cfg: Config, w: World, ins: seq<Input>, pos: nat)
    requires RefusesAlong(cfg, Start(w), ins, pos)
    ensures var s := RunAll(cfg, Start(w), ins);
            && EntryCount(s.trace, pos) <= ReparkCount(s.trace, pos) + One(Entered(s.trace, pos))
            && (s.e.pc.Call? && s.e.pc.pos == pos ==> !Entered(s.trace, pos))
  {
    ClaimsAlong(cfg, Start(w), ins, pos);
  }

  // ---- a host that grants `running` every time ----

  /** A drive of this world comes to a running step whose handler it enters. */
  ghost predicate Reenterable(cfg: Config, w: World, pos: nat) {
    && !Terminal(w.run.status) && pos < |w.rows|
    && w.rows[pos].step.status.Running? && w.rows[pos].step.kind in cfg.registered
    && Decide(cfg.cat, w.run, Views(w.rows), 0.0) == Write(StartStep(pos, w.rows[pos].step))
  }

  /** How many answers the drive has still to get; the last is the handler's, and it is lost. */
  ghost predicate Phase(w: World, pos: nat, s: State, left: nat) {
    && pos < |w.rows| && s.w.rows == w.rows && s.w.run.(status := w.run.status) == w.run
    && (if left == 8 || left == 7 then !Terminal(s.w.run.status) else s.w.run.status.RunRunning?)
    && (left == 5 || left == 4 ==> s.e.started == 0.0)
    && match left
       case 8 => s.e.pc.AskSequence? && !Terminal(s.e.held.status)
       case 7 => s.e.pc.MarkRunning?
       case 6 => s.e.pc.FirstDrain?
       case 5 => s.e.pc.ReadRun?
       case 4 => s.e.pc == ReadSteps(Some(s.w.run))
       case 3 => s.e.pc == Write(StartStep(pos, w.rows[pos].step))
       case 2 => s.e.pc == Log(StartStep(pos, w.rows[pos].step))
       case 1 => s.e.pc == Call(pos, w.rows[pos].step)
       case 0 => s.e.pc.Resting?
       case _ => false
  }

  lemma PhaseOpens(cfg: Config, w: World, pos: nat, s: State, left: nat)
    requires Phase(w, pos, s, left) && left > 4
    ensures Phase(w, pos, Next(cfg, s, SERVED), left - 1)
  {
  }

  lemma PhaseDecides(cfg: Config, w: World, pos: nat, s: State)
    requires Phase(w, pos, s, 4) && Reenterable(cfg, w, pos)
    ensures Phase(w, pos, Next(cfg, s, SERVED), 3)
  {
    DecideForgetsStatus(cfg.cat, w.run, RunRunning, Views(w.rows));
  }

  lemma PhaseClaims(cfg: Config, w: World, pos: nat, s: State)
    requires Phase(w, pos, s, 3) && Reenterable(cfg, w, pos)
    ensures Phase(w, pos, Next(cfg, s, SERVED), 2)
  {
    assert SetState(w.rows, pos, Running, Leave, Leave) == w.rows;
  }

  lemma PhaseCalls(cfg: Config, w: World, pos: nat, s: State)
    requires Phase(w, pos, s, 2) && Reenterable(cfg, w, pos)
    ensures Phase(w, pos, Next(cfg, s, SERVED), 1)
  {
    assert AfterTransition(cfg, s.e.pc.t) == Call(pos, w.rows[pos].step);
  }

  lemma PhaseEnters(cfg: Config, w: World, pos: nat, s: State)
    requires Phase(w, pos, s, 1)
    ensures Phase(w, pos, Next(cfg, s, SERVED), 0)
  {
  }

  lemma PhaseAsks(w: World, pos: nat, s: State, left: nat)
    requires Phase(w, pos, s, left) && left > 0
    ensures !s.e.pc.Resting? && (Ask(s.e).Invoke? <==> left == 1) && (Ask(s.e).Invoke? ==> Ask(s.e).pos == pos)
  {
  }

  lemma AnswerCounts(cfg: Config, s: State, pos: nat)
    requires !s.e.pc.Resting?
    ensures var t := Next(cfg, s, SERVED).trace;
            && EntryCount(t, pos) == EntryCount(s.trace, pos) + One(Ask(s.e).Invoke? && Ask(s.e).pos == pos)
            && ReparkCount(t, pos) == ReparkCount(s.trace, pos)
  {
    var reply := Perform(s.w, Ask(s.e), Served, Unobserved).1;
    EntriesSnoc(s.trace, Act.Called(Ask(s.e), reply, true), pos);
  }

  function Answers(n: nat): seq<Input> {
    if n == 0 then [] else [SERVED] + Answers(n - 1)
  }

  lemma {:induction false} PhasesPass(cfg: Config, w: World, pos: nat, s: State, left: nat)
    requires Phase(w, pos, s, left) && Reenterable(cfg, w, pos)
    ensures var t := RunAll(cfg, s, Answers(left));
            && Phase(w, pos, t, 0)
            && EntryCount(t.trace, pos) == EntryCount(s.trace, pos) + One(left > 0)
            && ReparkCount(t.trace, pos) == ReparkCount(s.trace, pos)
    decreases left
  {
    if left > 0 {
      var mid := Next(cfg, s, SERVED);
      PhaseAsks(w, pos, s, left);
      AnswerCounts(cfg, s, pos);
      if left > 4 {
        PhaseOpens(cfg, w, pos, s, left);
      } else if left == 4 {
        PhaseDecides(cfg, w, pos, s);
      } else if left == 3 {
        PhaseClaims(cfg, w, pos, s);
      } else if left == 2 {
        PhaseCalls(cfg, w, pos, s);
      } else {
        PhaseEnters(cfg, w, pos, s);
      }
      PhasesPass(cfg, w, pos, mid, left - 1);
      assert Answers(left)[0] == SERVED && Answers(left)[1..] == Answers(left - 1);
    }
  }

  function Redrives(n: nat): seq<Input> {
    if n == 0 then [] else Redrives(n - 1) + ([Begin] + Answers(8))
  }

  lemma DriveEnters(cfg: Config, w: World, pos: nat, s: State)
    requires Reenterable(cfg, w, pos) && s.e.pc.Resting? && !Terminal(s.w.run.status)
    requires s.w.rows == w.rows && s.w.run.(status := w.run.status) == w.run
    ensures var t := RunAll(cfg, s, [Begin] + Answers(8));
            && Phase(w, pos, t, 0)
            && EntryCount(t.trace, pos) == EntryCount(s.trace, pos) + 1
            && ReparkCount(t.trace, pos) == ReparkCount(s.trace, pos)
  {
    var b := Next(cfg, s, Begin);
    EntriesSnoc(s.trace, Began(s.w.run), pos);
    PhasesPass(cfg, w, pos, b, 8);
    assert ([Begin] + Answers(8))[1..] == Answers(8);
  }

  /**
   What the obligation is for: a host that grants `running` every time, and never puts the step back, has the
   handler of a step left running entered again by every drive whose answer is lost.
   */
  lemma {:induction false} GrantedEveryTime(cfg: Config, w: World, pos: nat, n: nat)
    requires Reenterable(cfg, w, pos)
    ensures var t := RunAll(cfg, Start(w), Redrives(n));
            EntryCount(t.trace, pos) == n && ReparkCount(t.trace, pos) == 0
            && t.e.pc.Resting? && (n > 0 ==> Phase(w, pos, t, 0))
    decreases n
  {
    if n > 0 {
      GrantedEveryTime(cfg, w, pos, n - 1);
      DriveEnters(cfg, w, pos, RunAll(cfg, Start(w), Redrives(n - 1)));
      RunAllSplit(cfg, Start(w), Redrives(n - 1), [Begin] + Answers(8));
    }
  }
}
