/** A drive ends within a bound set by the unfinished steps and by what its host may still add. */
module Termination {
  import opened Basics
  import Policies
  import opened Model
  import opened Engine
  import opened System
  import opened Flight
  import opened Completion

  /** `adds` bounds the steps the host appends, `prepares` the generations its handlers prepare. */
  datatype Fuel = Fuel(adds: nat, prepares: nat)

  predicate Prepares(s: State, i: Input) {
    i.Serve? && s.e.pc.Call? && i.outcome.Prepared?
  }

  /** The host un-finishes no step and stays within its fuel. */
  predicate Affords(s: State, i: Input, f: Fuel) {
    && (i.Move? && i.move.AddStep? ==> f.adds > 0)
    && (i.Move? && i.move.PutStep? && i.move.pos < |s.w.rows| && Done(s.w.rows[i.move.pos].step.status) ==>
          Done(i.move.status))
    && (Prepares(s, i) ==> f.prepares > 0)
  }

  function Burn(s: State, i: Input, f: Fuel): Fuel
    requires Affords(s, i, f)
  {
    if i.Move? && i.move.AddStep? then f.(adds := f.adds - 1)
    else if Prepares(s, i) then f.(prepares := f.prepares - 1)
    else f
  }

  predicate Fueled(cfg: Config, s: State, ins: seq<Input>, f: Fuel)
    decreases |ins|
  {
    |ins| == 0 ||
    (Affords(s, ins[0], f) && Fueled(cfg, Next(cfg, s, ins[0]), ins[1..], Burn(s, ins[0], f)))
  }

  function Unfinished(rows: seq<Row>): nat {
    if |rows| == 0 then 0
    else Unfinished(rows[..|rows| - 1]) + (if Done(rows[|rows| - 1].step.status) then 0 else 1)
  }

  lemma {:induction false} UnfinishedUpdate(rows: seq<Row>, pos: nat, row: Row)
    requires pos < |rows|
    ensures Unfinished(rows[pos := row]) == Others(rows, pos) + (if Done(row.step.status) then 0 else 1)
    ensures Others(rows, pos) >= 0
    decreases |rows|
  {
    var last := |rows| - 1;
    if pos == last {
      assert rows[pos := row][..last] == rows[..last];
    } else {
      assert rows[pos := row][..last] == rows[..last][pos := row];
      UnfinishedUpdate(rows[..last], pos, row);
    }
  }

  /** The unfinished steps besides the one at `pos`. */
  function Others(rows: seq<Row>, pos: nat): int
    requires pos < |rows|
  {
    Unfinished(rows) - (if Done(rows[pos].step.status) then 0 else 1)
  }

  lemma UnfinishedAppend(rows: seq<Row>, row: Row)
    ensures Unfinished(rows + [row]) <= Unfinished(rows) + 1
    ensures forall pos :: 0 <= pos < |rows| ==> Others(rows + [row], pos) <= Others(rows, pos) + 1
  {
    assert (rows + [row])[..|rows|] == rows;
  }

  /** How many more passes may still begin. */
  function PassesLeft(s: State, f: Fuel): int
    requires At(s.e.pc).Some? ==> At(s.e.pc).value < |s.w.rows|
  {
    match At(s.e.pc)
    case Some(pos) => Others(s.w.rows, pos) + f.adds + f.prepares + (if s.e.pc.Reread? then 2 else 1)
    case None => if Looping(s.e.pc) then Unfinished(s.w.rows) + f.adds + f.prepares + 1 else 0
  }

  predicate Looping(pc: Pc) {
    pc.AskSequence? || pc.MarkRunning? || pc.FirstDrain? || pc.ReadRun? || pc.ReadSteps? || pc == Drain(Again)
  }

  /** Callbacks left inside the current pass. */
  function Rank(pc: Pc): nat {
    match pc
    case Resting(_) => 0
    case AskSequence => 5
    case MarkRunning => 4
    case FirstDrain => 3
    case ReadRun => 2
    case ReadSteps(_) => 1
    case CheckReport(_) => 10
    case QuietFail => 9
    case Report(_) => 9
    case FailStatus => 8
    case Hook(_) => 7
    case Write(t) => RankOf(t) + 1
    case Log(t) => RankOf(t)
    case BudgetLog(_) => 10
    case BudgetStatus(_) => 9
    case PauseLog(_) => 8
    case StopStatus => 2
    case Call(_, _) => 7
    case UndoHost(_, _, _) => 6
    case Reread(_, _) => 4
    case Drain(after) => if after.Quit? then 1 else if after.Again? then 3 else 10
    case FinalRead => 11
    case CompleteStatus => 10
    case CompleteLog => 9
  }

  function RankOf(t: Transition): nat {
    if t.onward.ThenStart? then 10 else if t.onward.ThenCall? then 8 else 4
  }

  function Potential(s: State, f: Fuel): int
    requires At(s.e.pc).Some? ==> At(s.e.pc).value < |s.w.rows|
  {
    12 * PassesLeft(s, f) + Rank(s.e.pc)
  }

  /** A transition that leads to the next pass finishes its step. */
  ghost predicate FinishInv(s: State) {
    && (At(s.e.pc).Some? ==> At(s.e.pc).value < |s.w.rows|)
    && (s.e.pc.Write? && s.e.pc.t.onward.ThenNextPass? ==> Done(s.e.pc.t.to))
    && (s.e.pc.Log? && s.e.pc.t.onward.ThenNextPass? ==> Done(s.w.rows[s.e.pc.t.pos].step.status))
  }

  // ---- one host move ----

  lemma MoveSpendsFuel(cfg: Config, s: State, m: HostMove, f: Fuel)
    requires FinishInv(s) && Affords(s, Move(m), f)
    ensures var t := Next(cfg, s, Move(m));
            FinishInv(t) && PassesLeft(t, Burn(s, Move(m), f)) <= PassesLeft(s, f)
  {
    if m.AddStep? {
      UnfinishedAppend(s.w.rows, Row(m.added, None, None));
    } else if m.PutStep? && m.pos < |s.w.rows| {
      UnfinishedUpdate(s.w.rows, m.pos, Apply(s.w, m).rows[m.pos]);
    }
  }

  // ---- one callback ----

  /** The control state moves on: down the ranks within a pass, or on to a new pass. */
  ghost predicate Descends(pc: Pc, pc': Pc, reply: Reply) {
    && (Looping(pc) && Looping(pc') ==> Rank(pc') < Rank(pc))
    && (Looping(pc) && !Looping(pc') && At(pc').Some? ==> pc.ReadSteps?)
    && (At(pc).Some? && At(pc').Some? ==> Rank(pc') < Rank(pc))
    && (At(pc).Some? && Looping(pc') ==>
          pc' == Drain(Again) && ((pc.Log? && pc.t.onward.ThenNextPass?) || pc.Reread?))
    && (!Looping(pc) && At(pc).None? ==> !Looping(pc') && At(pc').None? && (pc'.Resting? || Rank(pc') < Rank(pc)))
    && (pc'.Reread? ==> pc.Call? && reply.Answered? && reply.outcome.Prepared?)
    && (pc'.Write? && pc'.t.onward.ThenNextPass? ==> Done(pc'.t.to))
    && (pc'.Log? ==> pc.Write? && pc'.t == pc.t && reply.StepRow?)
    && Rank(pc') <= 11
  }

  lemma DecideDescends(cat: Policies.Catalogue, view: Run, steps: seq<Step>, elapsed: real, pc: Pc, reply: Reply)
    requires pc.ReadSteps?
    ensures Descends(pc, Decide(cat, view, steps, elapsed), reply)
  {
  }

  lemma WorkDescends(cfg: Config, e: Engine, reply: Reply, clock: real)
    requires At(e.pc).Some?
    ensures Descends(e.pc, Resume(cfg, e, reply, clock).pc, reply)
  {
  }

  lemma ControlDescends(cfg: Config, e: Engine, reply: Reply, clock: real)
    requires !e.pc.Resting? && At(e.pc).None?
    ensures Descends(e.pc, Resume(cfg, e, reply, clock).pc, reply)
  {
    if e.pc.ReadSteps? {
      if reply.StepRows? {
        DecideDescends(cfg.cat, View(e.held, e.pc.current), reply.steps, clock - e.started, e.pc, reply);
      }
    } else {
      OtherControlDescends(cfg, e, reply, clock);
    }
  }

  lemma OtherControlDescends(cfg: Config, e: Engine, reply: Reply, clock: real)
    requires !e.pc.Resting? && At(e.pc).None? && !e.pc.ReadSteps?
    ensures Descends(e.pc, Resume(cfg, e, reply, clock).pc, reply)
  {
  }

  ghost predicate Lower(s: State, f: Fuel, t: State, f': Fuel, pass: bool) {
    && FinishInv(s) && FinishInv(t)
    && (!t.e.pc.Resting? ==> Potential(t, f') < Potential(s, f))
    && PassesLeft(t, f') + (if pass then 1 else 0) <= PassesLeft(s, f)
  }

  lemma ServedDescends(s: State, t: State, req: Request, reply: Reply, f: Fuel)
    requires FinishInv(s) && !s.e.pc.Resting?
    requires Carried(s.e, t.e, req, reply) && RowsReply(s.w, t.w, req, reply)
    requires req.SetStepState? && s.e.pc.Write? ==> req.to == s.e.pc.t.to
    requires Descends(s.e.pc, t.e.pc, reply)
    requires s.e.pc.Call? && reply.Answered? && reply.outcome.Prepared? ==> f.prepares > 0
    ensures Lower(s, f, t,
                  if s.e.pc.Call? && reply.Answered? && reply.outcome.Prepared? then f.(prepares := f.prepares - 1)
                  else f,
                  req.GetSteps?)
  {
    if At(s.e.pc).Some? {
      var pos := At(s.e.pc).value;
      UnfinishedUpdate(s.w.rows, pos, t.w.rows[pos]);
    } else if At(t.e.pc).Some? {
      UnfinishedUpdate(s.w.rows, At(t.e.pc).value, s.w.rows[At(t.e.pc).value]);
    }
  }

  lemma StepDescends(cfg: Config, s: State, i: Input, f: Fuel)
    requires FinishInv(s) && Affords(s, i, f) && i.Serve? && !s.e.pc.Resting?
    ensures Lower(s, f, Next(cfg, s, i), Burn(s, i, f), Ask(s.e).GetSteps?)
  {
    var reply := Perform(s.w, Ask(s.e), i.answer, i.outcome).1;
    PerformRows(s.w, Ask(s.e), i.answer, i.outcome);
    ResumeCarries(cfg, s.e, reply, i.clock);
    if At(s.e.pc).Some? {
      WorkDescends(cfg, s.e, reply, i.clock);
    } else {
      ControlDescends(cfg, s.e, reply, i.clock);
    }
    ServedDescends(s, Next(cfg, s, i), Ask(s.e), reply, f);
  }

  // ---- whole drives ----

  function PassCount(trace: seq<Act>): nat {
    if |trace| == 0 then 0
    else
      var a := trace[|trace| - 1];
      PassCount(trace[..|trace| - 1]) + (if a.Called? && a.req.GetSteps? then 1 else 0)
  }

  function ServeCount(ins: seq<Input>): nat {
    if |ins| == 0 then 0 else (if ins[0].Serve? then 1 else 0) + ServeCount(ins[1..])
  }

  lemma PassCountSnoc(trace: seq<Act>, a: Act)
    ensures PassCount(trace + [a]) == PassCount(trace) + (if a.Called? && a.req.GetSteps? then 1 else 0)
  {
    assert (trace + [a])[..|trace|] == trace;
  }

  /** What one input costs, in callbacks and in passes. */
  lemma OneInput(cfg: Config, s: State, i: Input, f: Fuel)
    requires FinishInv(s) && Affords(s, i, f) && !i.Begin? && !s.e.pc.Resting?
    ensures var t := Next(cfg, s, i);
            && FinishInv(t)
            && (!t.e.pc.Resting? ==>
                  Potential(t, Burn(s, i, f)) + (if i.Serve? then 1 else 0) <= Potential(s, f))
            && PassCount(t.trace) + PassesLeft(t, Burn(s, i, f)) <= PassCount(s.trace) + PassesLeft(s, f)
  {
    match i
    case Move(m) =>
      MoveSpendsFuel(cfg, s, m, f);
      PassCountSnoc(s.trace, Host(m));
    case Serve(answer, outcome, clock) =>
      StepDescends(cfg, s, i, f);
      PassCountSnoc(s.trace, Called(Ask(s.e), Perform(s.w, Ask(s.e), answer, outcome).1,
                                    Ask(s.e).Invoke? || !answer.Refused?));
  }

  lemma RestingStays(cfg: Config, s: State, ins: seq<Input>)
    requires s.e.pc.Resting? && OneDrive(ins)
    ensures RunAll(cfg, s, ins).e == s.e
    ensures PassCount(RunAll(cfg, s, ins).trace) == PassCount(s.trace)
    decreases |ins|
  {
    if |ins| > 0 {
      var t := Next(cfg, s, ins[0]);
      assert ins[0] in ins;
      if ins[0].Move? {
        PassCountSnoc(s.trace, Host(ins[0].move));
      }
      RestingStays(cfg, t, ins[1..]);
    }
  }

  lemma PassesLeftNonNegative(s: State, f: Fuel)
    requires FinishInv(s)
    ensures 0 <= PassesLeft(s, f)
  {
    if At(s.e.pc).Some? {
      UnfinishedUpdate(s.w.rows, At(s.e.pc).value, s.w.rows[At(s.e.pc).value]);
    }
  }

  lemma {:induction false} EndsAlong(cfg: Config, s: State, ins: seq<Input>, f: Fuel)
    requires FinishInv(s) && OneDrive(ins) && Fueled(cfg, s, ins, f)
    ensures var t := RunAll(cfg, s, ins);
            && PassCount(t.trace) <= PassCount(s.trace) + PassesLeft(s, f)
            && (t.e.pc.Resting? || ServeCount(ins) <= Potential(s, f))
    decreases |ins|
  {
    PassesLeftNonNegative(s, f);
    if s.e.pc.Resting? {
      RestingStays(cfg, s, ins);
    } else if |ins| > 0 {
      assert ins[0] in ins;
      OneInput(cfg, s, ins[0], f);
      var t := Next(cfg, s, ins[0]);
      EndsAlong(cfg, t, ins[1..], Burn(s, ins[0], f));
      if t.e.pc.Resting? {
        RestingStays(cfg, t, ins[1..]);
      }
    }
  }

  /**
   A drive from U unfinished steps whose host appends at most A steps and prepares at most P generations
   makes at most U + A + P + 1 passes, and has ended once it was served twelve callbacks for each, plus five.
   */
  lemma DriveEnds(cfg: Config, w: World, ins: seq<Input>, f: Fuel)
    requires OneDrive(ins) && Fueled(cfg, DriveFrom(w), ins, f)
    ensures var t, passes := RunAll(cfg, DriveFrom(w), ins), Unfinished(w.rows) + f.adds + f.prepares + 1;
            && PassCount(t.trace) <= passes
            && (ServeCount(ins) > 12 * passes + 5 ==> t.e.pc.Resting?)
  {
    EndsAlong(cfg, DriveFrom(w), ins, f);
  }
}
