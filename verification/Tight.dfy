/** The bound on the passes of a drive is reached: for which plans and which fuel, and by what drive. */
module Tight {
  import opened Basics
  import opened Policies
  import opened Model
  import opened Engine
  import opened System
  import opened Flight
  import opened Completion
  import opened Termination
  import opened Scenes

  /** One registered type, no gates, no hook. */
  const EASY: Config := Config(Catalogue(map[], map[], map[], map[], {}), {"model_call"}, false)

  const UNLIMITED: Run := Run(RunOther("planned"), None, false, JNull, JNull, JNull, JNull)

  const PLANNED_STEP: Step := Step("model_call", "", StepStatus.Pending, false)

  // ---- fuel over a stretch of inputs ----

  function Left(cfg: Config, s: State, ins: seq<Input>, f: Fuel): Fuel
    requires Fueled(cfg, s, ins, f)
    decreases |ins|
  {
    if |ins| == 0 then f else Left(cfg, Next(cfg, s, ins[0]), ins[1..], Burn(s, ins[0], f))
  }

  lemma {:induction false} FueledSplit(cfg: Config, s: State, a: seq<Input>, b: seq<Input>, f: Fuel)
    requires Fueled(cfg, s, a, f) && Fueled(cfg, RunAll(cfg, s, a), b, Left(cfg, s, a, f))
    ensures Fueled(cfg, s, a + b, f)
    decreases |a|
  {
    if |a| == 0 {
      assert a + b == b;
    } else {
      assert (a + b)[1..] == a[1..] + b && (a + b)[0] == a[0];
      FueledSplit(cfg, Next(cfg, s, a[0]), a[1..], b, Burn(s, a[0], f));
    }
  }

  /** A stretch of a drive: what it makes of the state and the fuel, and how many passes it begins. */
  ghost predicate Leads(s: State, f: Fuel, ins: seq<Input>, t: State, f': Fuel, passes: nat) {
    && OneDrive(ins) && RunAll(EASY, s, ins) == t
    && Fueled(EASY, s, ins, f) && Left(EASY, s, ins, f) == f'
    && PassCount(t.trace) == PassCount(s.trace) + passes
  }

  lemma {:induction false} LeftSplit(cfg: Config, s: State, a: seq<Input>, b: seq<Input>, f: Fuel)
    requires Fueled(cfg, s, a, f) && Fueled(cfg, RunAll(cfg, s, a), b, Left(cfg, s, a, f))
    requires Fueled(cfg, s, a + b, f)
    ensures Left(cfg, s, a + b, f) == Left(cfg, RunAll(cfg, s, a), b, Left(cfg, s, a, f))
    decreases |a|
  {
    if |a| == 0 {
      assert a + b == b;
    } else {
      assert (a + b)[1..] == a[1..] + b && (a + b)[0] == a[0];
      LeftSplit(cfg, Next(cfg, s, a[0]), a[1..], b, Burn(s, a[0], f));
    }
  }

  lemma LeadsOn(s: State, f: Fuel, a: seq<Input>, t: State, f': Fuel, m: nat,
                b: seq<Input>, u: State, f'': Fuel, n: nat)
    requires Leads(s, f, a, t, f', m) && Leads(t, f', b, u, f'', n)
    ensures Leads(s, f, a + b, u, f'', m + n)
  {
    RunAllSplit(EASY, s, a, b);
    FueledSplit(EASY, s, a, b, f);
    LeftSplit(EASY, s, a, b, f);
  }

  lemma OneInputCounts(s: State, i: Input)
    requires !i.Begin?
    ensures PassCount(Next(EASY, s, i).trace) ==
            PassCount(s.trace) + (if i.Serve? && s.e.pc.ReadSteps? then 1 else 0)
  {
    if i.Move? {
      PassCountSnoc(s.trace, Host(i.move));
    } else if !s.e.pc.Resting? {
      var reply := Perform(s.w, Ask(s.e), i.answer, i.outcome).1;
      PassCountSnoc(s.trace, Called(Ask(s.e), reply, Ask(s.e).Invoke? || !i.answer.Refused?));
    }
  }

  lemma OneInputBurns(s: State, f: Fuel, i: Input)
    requires Affords(s, i, f)
    ensures RunAll(EASY, s, [i]) == Next(EASY, s, i)
    ensures Fueled(EASY, s, [i], f) && Left(EASY, s, [i], f) == Burn(s, i, f)
  {
    var t := Next(EASY, s, i);
    assert [i][1..] == [];
    assert RunAll(EASY, s, [i]) == RunAll(EASY, t, []);
    assert Fueled(EASY, t, [], Burn(s, i, f)) && Left(EASY, t, [], Burn(s, i, f)) == Burn(s, i, f);
  }

  /** One input. */
  lemma LeadsOne(s: State, f: Fuel, i: Input)
    requires !i.Begin? && Affords(s, i, f)
    ensures var t := Next(EASY, s, i);
            Leads(s, f, [i], t, Burn(s, i, f), if i.Serve? && s.e.pc.ReadSteps? then 1 else 0)
  {
    OneInputCounts(s, i);
    OneInputBurns(s, f, i);
  }

  // ---- one pass over a simple plan ----

  /** Steps of the registered type, unflagged, that are done or can be started. */
  ghost predicate Simple(rows: seq<Row>) {
    forall k :: 0 <= k < |rows| ==>
      var step := rows[k].step;
      && step.kind == "model_call" && !step.requiresApproval
      && (step.status.Completed? || step.status.Pending? || step.status.Running?)
  }

  ghost predicate Going(s: State) {
    Simple(s.w.rows) && s.w.run == UNLIMITED.(status := RunRunning)
  }

  lemma SimpleDecides(view: Run, rows: seq<Row>, elapsed: real)
    requires Simple(rows) && view == UNLIMITED.(status := RunRunning)
    ensures var d := Decide(EASY.cat, view, Views(rows), elapsed);
            match FirstUnfinished(Views(rows))
            case None => d == FinalRead
            case Some(pos) => d == Write(StartStep(pos, rows[pos].step))
  {
    var turn := FirstUnfinished(Views(rows));
    if turn.Some? {
      assert Views(rows)[turn.value] == rows[turn.value].step;
    }
  }

  /** How far a pass has to go once it has decided; `prepares` says what its handler will answer. */
  ghost predicate Underway(s: State, pos: nat, left: nat, prepares: bool) {
    && Going(s) && pos < |s.w.rows|
    && var status := s.w.rows[pos].step.status;
       match left
       case 6 => s.e.pc.Write? && s.e.pc.t == StartStep(pos, s.w.rows[pos].step) && !Done(status)
       case 5 => s.e.pc.Log? && s.e.pc.t.pos == pos && s.e.pc.t.onward.ThenCall?
                 && s.e.pc.t.onward.step.kind == "model_call" && status.Running?
       case 4 => s.e.pc.Call? && s.e.pc.pos == pos && s.e.pc.step.kind == "model_call" && status.Running?
       case 3 => !prepares && s.e.pc == Write(CompleteStep(pos, "model_call", None)) && status.Running?
       case 2 => if prepares then s.e.pc.Reread? && s.e.pc.pos == pos && status.Running?
                 else s.e.pc == Log(CompleteStep(pos, "model_call", None)) && status.Completed?
       case 1 => s.e.pc == Pc.Drain(Again)
       case 0 => s.e.pc == ReadRun
       case _ => false
  }

  /** The next input of the pass. */
  function NextInput(left: nat, prepares: bool): Input {
    Serve(Served, if left == 4 && prepares then Prepared("") else Outcome.Finished(None), 0.0)
  }

  function Fewer(left: nat, prepares: bool): nat
    requires left > 0
  {
    if left == 4 && prepares then 2 else left - 1
  }

  lemma PassStarts(s: State, pos: nat, prepares: bool)
    requires Underway(s, pos, 6, prepares)
    ensures var t := Next(EASY, s, NextInput(6, prepares));
            Underway(t, pos, 5, prepares) && Unfinished(t.w.rows) == Unfinished(s.w.rows)
  {
    StepWritten(EASY, s, Outcome.Finished(None));
    UnfinishedUpdate(s.w.rows, pos, SetState(s.w.rows, pos, Running, Leave, Leave)[pos]);
  }

  lemma PassRecords(s: State, pos: nat, prepares: bool)
    requires Underway(s, pos, 5, prepares)
    ensures var t := Next(EASY, s, NextInput(5, prepares)); Underway(t, pos, 4, prepares) && t.w.rows == s.w.rows
  {
  }

  lemma PassCalls(s: State, pos: nat, prepares: bool)
    requires Underway(s, pos, 4, prepares)
    ensures var t := Next(EASY, s, NextInput(4, prepares));
            Underway(t, pos, Fewer(4, prepares), prepares) && t.w.rows == s.w.rows
  {
  }

  lemma PassFinishes(s: State, pos: nat, prepares: bool)
    requires Underway(s, pos, 3, prepares)
    ensures var t := Next(EASY, s, NextInput(3, prepares));
            Underway(t, pos, 2, prepares) && Unfinished(t.w.rows) == Unfinished(s.w.rows) - 1
  {
    StepWritten(EASY, s, Outcome.Finished(None));
    UnfinishedUpdate(s.w.rows, pos, SetState(s.w.rows, pos, Completed, Put(None), Put(None))[pos]);
  }

  lemma PassCloses(s: State, pos: nat, left: nat, prepares: bool)
    requires Underway(s, pos, left, prepares) && 0 < left < 3
    ensures var t := Next(EASY, s, NextInput(left, prepares));
            Underway(t, pos, left - 1, prepares) && t.w.rows == s.w.rows
  {
  }

  lemma PassStep(s: State, pos: nat, left: nat, prepares: bool)
    requires Underway(s, pos, left, prepares) && left > 0
    ensures var t := Next(EASY, s, NextInput(left, prepares));
            && Underway(t, pos, Fewer(left, prepares), prepares)
            && Unfinished(t.w.rows) == Unfinished(s.w.rows) - (if left == 3 then 1 else 0)
  {
    if left == 6 {
      PassStarts(s, pos, prepares);
    } else if left == 5 {
      PassRecords(s, pos, prepares);
    } else if left == 4 {
      PassCalls(s, pos, prepares);
    } else if left == 3 {
      PassFinishes(s, pos, prepares);
    } else {
      PassCloses(s, pos, left, prepares);
    }
  }

  /** The fuel a pass takes from here on. */
  function Spent(f: Fuel, left: nat, prepares: bool): Fuel
    requires left >= 4 && prepares ==> f.prepares > 0
  {
    if left >= 4 && prepares then f.(prepares := f.prepares - 1) else f
  }

  lemma {:induction false} PassGoesOn(s: State, f: Fuel, pos: nat, left: nat, prepares: bool)
    returns (ins: seq<Input>, t: State)
    requires Underway(s, pos, left, prepares) && (left >= 4 && prepares ==> f.prepares > 0)
    ensures Leads(s, f, ins, t, Spent(f, left, prepares), 0)
    ensures Going(t) && t.e.pc.ReadRun?
    ensures Unfinished(t.w.rows) == Unfinished(s.w.rows) - (if left >= 3 && !prepares then 1 else 0)
    decreases left
  {
    ins, t := [], s;
    if left > 0 {
      var i := NextInput(left, prepares);
      PassStep(s, pos, left, prepares);
      LeadsOne(s, f, i);
      var mid := Next(EASY, s, i);
      var rest;
      rest, t := PassGoesOn(mid, Burn(s, i, f), pos, Fewer(left, prepares), prepares);
      LeadsOn(s, f, [i], mid, Burn(s, i, f), 0, rest, t, Spent(f, left, prepares), 0);
      ins := [i] + rest;
    }
  }

  // ---- whole drives ----

  lemma ReadsInOrder(s: State, mid: State, t: State)
    requires Going(s) && s.e.pc.ReadRun?
    requires mid == Next(EASY, s, SERVED) && t == Next(EASY, mid, SERVED)
    ensures mid.e.pc.ReadSteps? && t.w == s.w
    ensures match FirstUnfinished(Views(s.w.rows))
            case None => t.e.pc.FinalRead?
            case Some(pos) => t.e.pc == Write(StartStep(pos, s.w.rows[pos].step))
  {
    Advances(EASY, s);
    StepsRead(mid, t);
  }

  lemma StepsRead(s: State, t: State)
    requires Going(s) && s.e.pc == ReadSteps(Some(s.w.run)) && t == Next(EASY, s, SERVED)
    ensures t.w == s.w
    ensures match FirstUnfinished(Views(s.w.rows))
            case None => t.e.pc.FinalRead?
            case Some(pos) => t.e.pc == Write(StartStep(pos, s.w.rows[pos].step))
  {
    Advances(EASY, s);
    SimpleDecides(s.w.run, s.w.rows, 0.0 - s.e.started);
  }

  /** The two readings with which a pass begins. */
  lemma PassBegins(s: State, f: Fuel) returns (ins: seq<Input>, t: State)
    requires Going(s) && s.e.pc.ReadRun?
    ensures Leads(s, f, ins, t, f, 1) && t.w == s.w
    ensures match FirstUnfinished(Views(s.w.rows))
            case None => t.e.pc.FinalRead?
            case Some(pos) => Underway(t, pos, 6, true) && Underway(t, pos, 6, false)
  {
    var mid := Next(EASY, s, SERVED);
    t := Next(EASY, mid, SERVED);
    ReadsInOrder(s, mid, t);
    LeadsOne(s, f, SERVED);
    LeadsOne(mid, f, SERVED);
    LeadsOn(s, f, [SERVED], mid, f, 0, [SERVED], t, f, 1);
    ins := [SERVED] + [SERVED];
  }

  lemma {:induction false} NoneLeft(rows: seq<Row>)
    ensures Unfinished(rows) == 0 <==> FirstUnfinished(Views(rows)).None?
    decreases |rows|
  {
    if |rows| > 0 {
      var front, last := rows[..|rows| - 1], |rows| - 1;
      NoneLeft(front);
      forall k | 0 <= k < last ensures Views(front)[k] == Views(rows)[k] {
      }
      assert Views(rows)[last] == rows[last].step;
    }
  }

  /** From the final read on, the drive is at rest after four answers. */
  lemma Completes(s: State, f: Fuel) returns (ins: seq<Input>, t: State)
    requires Going(s) && s.e.pc.FinalRead?
    ensures Leads(s, f, ins, t, f, 0) && t.e.pc.Resting?
  {
    var s1 := Next(EASY, s, SERVED);
    var s2 := Next(EASY, s1, SERVED);
    var s3 := Next(EASY, s2, SERVED);
    t := Next(EASY, s3, SERVED);
    CompletesInOrder(s, s1, s2, s3, t);
    LeadsOne(s, f, SERVED);
    LeadsOne(s1, f, SERVED);
    LeadsOne(s2, f, SERVED);
    LeadsOne(s3, f, SERVED);
    LeadsOn(s2, f, [SERVED], s3, f, 0, [SERVED], t, f, 0);
    LeadsOn(s1, f, [SERVED], s2, f, 0, [SERVED] + [SERVED], t, f, 0);
    LeadsOn(s, f, [SERVED], s1, f, 0, [SERVED] + ([SERVED] + [SERVED]), t, f, 0);
    ins := [SERVED] + ([SERVED] + ([SERVED] + [SERVED]));
  }

  lemma CompletesInOrder(s: State, s1: State, s2: State, s3: State, s4: State)
    requires Going(s) && s.e.pc.FinalRead?
    requires s1 == Next(EASY, s, SERVED) && s2 == Next(EASY, s1, SERVED)
    requires s3 == Next(EASY, s2, SERVED) && s4 == Next(EASY, s3, SERVED)
    ensures s1.e.pc.CompleteStatus? && s2.e.pc.CompleteLog? && s3.e.pc.Drain? && s4.e.pc.Resting?
  {
    Advances(EASY, s);
    Advances(EASY, s1);
    Advances(EASY, s2);
    Advances(EASY, s3);
  }

  /** One whole pass over an unfinished plan. */
  lemma OnePass(s: State, f: Fuel, prepares: bool) returns (ins: seq<Input>, t: State)
    requires Going(s) && s.e.pc.ReadRun? && Unfinished(s.w.rows) > 0 && (prepares ==> f.prepares > 0)
    ensures Leads(s, f, ins, t, Spent(f, 6, prepares), 1) && Going(t) && t.e.pc.ReadRun?
    ensures Unfinished(t.w.rows) == Unfinished(s.w.rows) - (if prepares then 0 else 1)
  {
    NoneLeft(s.w.rows);
    var front, mid := PassBegins(s, f);
    var pos := FirstUnfinished(Views(s.w.rows)).value;
    var rest;
    rest, t := PassGoesOn(mid, f, pos, 6, prepares);
    LeadsOn(s, f, front, mid, f, 1, rest, t, Spent(f, 6, prepares), 0);
    ins := front + rest;
  }

  /** All the prepared generations first, then one pass for each step, then the one that finds nothing to do. */
  lemma {:induction false} Passes(s: State, f: Fuel) returns (ins: seq<Input>, t: State, f': Fuel)
    requires Going(s) && s.e.pc.ReadRun? && (Unfinished(s.w.rows) > 0 || f.prepares == 0)
    ensures Leads(s, f, ins, t, f', f.prepares + Unfinished(s.w.rows) + 1) && t.e.pc.Resting?
    decreases f.prepares + Unfinished(s.w.rows)
  {
    var front, mid, rest;
    if Unfinished(s.w.rows) > 0 {
      var prepares := f.prepares > 0;
      front, mid := OnePass(s, f, prepares);
      var g := Spent(f, 6, prepares);
      rest, t, f' := Passes(mid, g);
      LeadsOn(s, f, front, mid, g, 1, rest, t, f', g.prepares + Unfinished(mid.w.rows) + 1);
    } else {
      NoneLeft(s.w.rows);
      front, mid := PassBegins(s, f);
      rest, t := Completes(mid, f);
      f' := f;
      LeadsOn(s, f, front, mid, f, 1, rest, t, f, 0);
    }
    ins := front + rest;
  }

  /** The host appends its steps before the drive reads any. */
  lemma {:induction false} Appends(s: State, f: Fuel) returns (ins: seq<Input>, t: State)
    requires Simple(s.w.rows) && s.e.pc.AskSequence?
    ensures Leads(s, f, ins, t, f.(adds := 0), 0)
    ensures t.e == s.e && t.w.run == s.w.run && Simple(t.w.rows)
    ensures Unfinished(t.w.rows) == Unfinished(s.w.rows) + f.adds
    decreases f.adds
  {
    ins, t := [], s;
    if f.adds > 0 {
      var i := Move(AddStep(PLANNED_STEP));
      var mid, g := Next(EASY, s, i), f.(adds := f.adds - 1);
      LeadsOne(s, f, i);
      assert (s.w.rows + [Row(PLANNED_STEP, None, None)])[..|s.w.rows|] == s.w.rows;
      var rest;
      rest, t := Appends(mid, g);
      LeadsOn(s, f, [i], mid, g, 0, rest, t, f.(adds := 0), 0);
      ins := [i] + rest;
    }
  }

  lemma OpensInOrder(s: State, s1: State, s2: State, s3: State)
    requires s.e.pc.AskSequence? && !Terminal(s.e.held.status) && Simple(s.w.rows) && s.w.run == UNLIMITED
    requires s1 == Next(EASY, s, SERVED) && s2 == Next(EASY, s1, SERVED) && s3 == Next(EASY, s2, SERVED)
    ensures s1.e.pc.MarkRunning? && s2.e.pc.FirstDrain? && s3.e.pc.ReadRun?
    ensures Going(s3) && s3.w.rows == s.w.rows
  {
    Advances(EASY, s);
    Advances(EASY, s1);
    Advances(EASY, s2);
  }

  lemma DriveBegins(s: State, f: Fuel) returns (ins: seq<Input>, t: State)
    requires s.e.pc.AskSequence? && !Terminal(s.e.held.status) && Simple(s.w.rows) && s.w.run == UNLIMITED
    ensures Leads(s, f, ins, t, f, 0) && Going(t) && t.e.pc.ReadRun? && t.w.rows == s.w.rows
  {
    var s1 := Next(EASY, s, SERVED);
    var s2 := Next(EASY, s1, SERVED);
    t := Next(EASY, s2, SERVED);
    OpensInOrder(s, s1, s2, t);
    LeadsOne(s, f, SERVED);
    LeadsOne(s1, f, SERVED);
    LeadsOne(s2, f, SERVED);
    LeadsOn(s1, f, [SERVED], s2, f, 0, [SERVED], t, f, 0);
    LeadsOn(s, f, [SERVED], s1, f, 0, [SERVED] + [SERVED], t, f, 0);
    ins := [SERVED] + ([SERVED] + [SERVED]);
  }

  function PlanOf(steps: nat): seq<Row> {
    if steps == 0 then [] else PlanOf(steps - 1) + [Row(PLANNED_STEP, None, None)]
  }

  lemma {:induction false} PlanIsSimple(steps: nat)
    ensures Simple(PlanOf(steps)) && Unfinished(PlanOf(steps)) == steps
    decreases steps
  {
    if steps > 0 {
      PlanIsSimple(steps - 1);
      assert PlanOf(steps)[..|PlanOf(steps)| - 1] == PlanOf(steps - 1);
    }
  }

  /** A drive that takes every pass the bound allows. */
  ghost predicate ReachesBound(w: World, ins: seq<Input>, f: Fuel) {
    var t := RunAll(EASY, DriveFrom(w), ins);
    && OneDrive(ins) && Fueled(EASY, DriveFrom(w), ins, f) && t.e.pc.Resting?
    && PassCount(t.trace) == Unfinished(w.rows) + f.adds + f.prepares + 1
  }

  lemma BoundIsReached(steps: nat, f: Fuel) returns (w: World, ins: seq<Input>)
    requires steps + f.adds > 0 || f.prepares == 0
    ensures Unfinished(w.rows) == steps && ReachesBound(w, ins, f)
  {
    w := World(UNLIMITED, PlanOf(steps), [], 1);
    PlanIsSimple(steps);
    var s, g := DriveFrom(w), f.(adds := 0);
    var a, s1 := Appends(s, f);
    var b, s2 := DriveBegins(s1, g);
    var c, t, left := Passes(s2, g);
    LeadsOn(s1, g, b, s2, g, 0, c, t, left, g.prepares + Unfinished(s2.w.rows) + 1);
    LeadsOn(s, f, a, s1, g, 0, b + c, t, left, g.prepares + Unfinished(s2.w.rows) + 1);
    ins := a + (b + c);
  }

  // ---- plans for which it is not ----

  /** A finished plan that stays finished: no handler is ever called. */
  ghost predicate Idles(s: State) {
    Unfinished(s.w.rows) == 0 && At(s.e.pc).None?
  }

  lemma IdlesStep(cfg: Config, s: State, i: Input, f: Fuel)
    requires Idles(s) && !i.Begin? && Affords(s, i, f) && f.adds == 0
    ensures Idles(Next(cfg, s, i)) && Affords(s, i, Fuel(0, 0)) && Burn(s, i, f) == f
  {
    if i.Move? && i.move.PutStep? && i.move.pos < |s.w.rows| {
      UnfinishedUpdate(s.w.rows, i.move.pos, Apply(s.w, i.move).rows[i.move.pos]);
      UnfinishedUpdate(s.w.rows, i.move.pos, s.w.rows[i.move.pos]);
    } else if i.Serve? && !s.e.pc.Resting? {
      var reply := Perform(s.w, Ask(s.e), i.answer, i.outcome).1;
      PerformRows(s.w, Ask(s.e), i.answer, i.outcome);
      ResumeCarries(cfg, s.e, reply, i.clock);
      NoneLeft(s.w.rows);
    }
  }

  lemma {:induction false} IdlesAlong(cfg: Config, s: State, ins: seq<Input>, f: Fuel)
    requires Idles(s) && OneDrive(ins) && Fueled(cfg, s, ins, f) && f.adds == 0
    ensures Fueled(cfg, s, ins, Fuel(0, 0))
    decreases |ins|
  {
    if |ins| > 0 {
      assert ins[0] in ins;
      IdlesStep(cfg, s, ins[0], f);
      IdlesAlong(cfg, Next(cfg, s, ins[0]), ins[1..], f);
    }
  }

  /**
   For every number of unfinished steps, of appended steps and of prepared generations some drive makes exactly the
   number of passes that bounds them all, if and only if there is a step at all or nothing to prepare: without a step
   no generation can be prepared, and a drive makes at most one pass.
   */
  lemma BoundIsExact(steps: nat, f: Fuel)
    ensures (exists w: World, ins: seq<Input> :: Unfinished(w.rows) == steps && ReachesBound(w, ins, f))
            <==> (steps + f.adds > 0 || f.prepares == 0)
  {
    if steps + f.adds > 0 || f.prepares == 0 {
      var w, ins := BoundIsReached(steps, f);
    } else {
      forall w: World, ins: seq<Input> | Unfinished(w.rows) == steps ensures !ReachesBound(w, ins, f) {
        if OneDrive(ins) && Fueled(EASY, DriveFrom(w), ins, f) {
          IdlesAlong(EASY, DriveFrom(w), ins, f);
          DriveEnds(EASY, w, ins, Fuel(0, 0));
        }
      }
    }
  }
}
