/**
 A run whose step budget is spent, driven any number of times: lost and refused callbacks, pauses, cancels, a wall
 budget, changes of policy and steps the host appends leave it nothing to do but to skip what is not permitted.
 */
module Exhausted {
  import opened Basics
  import opened Policies
  import opened Model
  import opened Engine
  import opened System
  import opened Flight
  import opened Gates
  import opened CalmRun
  import Budget

  /** What stays fixed while all else may change: the grants, and that the budget is at most `floor`. */
  datatype Frame = Frame(cat: Catalogue, grants: Json, floor: nat)

  predicate SpentRun(f: Frame, run: Run) {
    run.grants == f.grants && PositiveInt(run.maxSteps).Some? && PositiveInt(run.maxSteps).value <= f.floor
  }

  /** The step may do no work: it is unfinished and its tool is not granted. */
  predicate Unpermitted(f: Frame, row: Row) {
    !Done(row.step.status) && MissingGrant(f.cat, row.step.kind, f.grants).Some?
  }

  /** A finished step, or one that waits to be started. */
  predicate Idle(status: StepStatus) {
    Done(status) || status.Pending? || status.Awaiting? || status.Approved?
  }

  ghost predicate Waiting(rows: seq<Row>) {
    forall k :: 0 <= k < |rows| ==> Idle(rows[k].step.status)
  }

  /** The host keeps the grants and a spent budget, and leaves the steps to the engine; it may append waiting steps. */
  predicate KeepsSpent(f: Frame, i: Input) {
    i.Move? ==>
      && !i.move.PutStep?
      && (i.move.PutRun? ==> SpentRun(f, i.move.run))
      && (i.move.AddStep? ==> Idle(i.move.added.status))
  }

  /** The plan as it was, with the steps the host has appended. */
  function Grown(rows: seq<Row>, trace: seq<Act>): seq<Row> {
    if |trace| == 0 then rows
    else
      var a, before := trace[|trace| - 1], Grown(rows, trace[..|trace| - 1]);
      if a.Host? && a.move.AddStep? then before + [Row(a.move.added, None, None)] else before
  }

  lemma GrownSnoc(rows: seq<Row>, trace: seq<Act>, a: Act)
    ensures Grown(rows, trace + [a]) ==
            if a.Host? && a.move.AddStep? then Grown(rows, trace) + [Row(a.move.added, None, None)]
            else Grown(rows, trace)
  {
    assert (trace + [a])[..|trace|] == trace;
  }

  /** A step passed over is skipped: its error is cleared and its references stay. */
  function SkipRow(row: Row): Row {
    if Done(row.step.status) then row else Row(row.step.(status := Skipped), None, row.refs)
  }

  /** Every unfinished step before `upTo` is skipped, and nothing else changes. */
  function SkipTo(rows: seq<Row>, upTo: nat): (r: seq<Row>)
    ensures |r| == |rows|
    ensures forall k :: 0 <= k < |rows| ==> r[k] == if k < upTo then SkipRow(rows[k]) else rows[k]
  {
    seq(|rows|, k requires 0 <= k < |rows| => if k < upTo then SkipRow(rows[k]) else rows[k])
  }

  /** Every step before `upTo` was finished or was not permitted. */
  ghost predicate PassedOver(f: Frame, plan: seq<Row>, upTo: nat) {
    upTo <= |plan| && forall k :: 0 <= k < upTo ==> Done(plan[k].step.status) || Unpermitted(f, plan[k])
  }

  /** The step at `upTo` is the first that is unfinished and permitted. */
  ghost predicate AtPermitted(f: Frame, plan: seq<Row>, upTo: nat) {
    upTo < |plan| && !Done(plan[upTo].step.status) && !Unpermitted(f, plan[upTo])
  }

  // ---- one decision ----

  /** The next decision of a spent run: skip the next unpermitted step, or stop at the first permitted one. */
  lemma SpentDecision(f: Frame, view: Run, plan: seq<Row>, upTo: nat, elapsed: real)
    requires SpentRun(f, view) && Waiting(plan) && PassedOver(f, plan, upTo)
    requires Budget.ExecutedRows(SkipTo(plan, upTo)) >= f.floor
    ensures var steps := Views(SkipTo(plan, upTo));
            var d := Decide(f.cat, view, steps, elapsed);
            match FirstUnfinished(steps)
            case None => d.FinalRead? && (forall k :: upTo <= k < |plan| ==> Done(plan[k].step.status))
            case Some(pos) =>
              && upTo <= pos < |plan| && !Done(plan[pos].step.status)
              && (forall k :: upTo <= k < pos ==> Done(plan[k].step.status))
              && (if Unpermitted(f, plan[pos]) then
                    d.Write? && d.t.onward.ThenNextPass? && d.t.pos == pos
                    && d.t.to == Skipped && d.t.error == Put(None) && d.t.refs == Leave
                  else d.BudgetLog?)
  {
    var rows := SkipTo(plan, upTo);
    var turn := FirstUnfinished(Views(rows));
    var last := if turn.Some? then turn.value else |plan|;
    forall k | upTo <= k < last ensures Done(plan[k].step.status) {
      assert Done(Views(rows)[k].status) && rows[k] == plan[k];
    }
    if turn.Some? {
      assert Views(rows)[last] == rows[last].step && rows[last] == plan[last];
    }
  }

  /** Passing over finished steps changes nothing. */
  lemma PassDone(f: Frame, plan: seq<Row>, upTo: nat, pos: nat)
    requires PassedOver(f, plan, upTo) && upTo <= pos <= |plan|
    requires forall k :: upTo <= k < pos ==> Done(plan[k].step.status)
    ensures SkipTo(plan, upTo) == SkipTo(plan, pos) && PassedOver(f, plan, pos)
  {
  }

  /** Skipping the next one skips up to just past it. */
  lemma SkipNext(f: Frame, plan: seq<Row>, upTo: nat)
    requires PassedOver(f, plan, upTo) && upTo < |plan| && Unpermitted(f, plan[upTo])
    ensures SetState(SkipTo(plan, upTo), upTo, Skipped, Put(None), Leave) == SkipTo(plan, upTo + 1)
    ensures PassedOver(f, plan, upTo + 1)
  {
  }

  lemma PlanGrows(f: Frame, plan: seq<Row>, upTo: nat, row: Row)
    requires PassedOver(f, plan, upTo)
    ensures SkipTo(plan + [row], upTo) == SkipTo(plan, upTo) + [row] && PassedOver(f, plan + [row], upTo)
  {
  }

  // ---- every run ----

  /** Where a spent run can be; `seen` is how many steps the engine has last read. */
  ghost predicate Stands(f: Frame, plan: seq<Row>, upTo: nat, seen: nat, pc: Pc) {
    match pc
    case Write(t) =>
      && t.pos == upTo < |plan| && Unpermitted(f, plan[upTo]) && t.onward.ThenNextPass?
      && t.to == Skipped && t.error == Put(None) && t.refs == Leave
    case Log(t) => t.onward.ThenNextPass?
    case BudgetLog(_) => AtPermitted(f, plan, upTo)
    case BudgetStatus(_) => AtPermitted(f, plan, upTo)
    case PauseLog(_) => AtPermitted(f, plan, upTo)
    case Hook(outcome) => outcome.RunCompleted? && seen <= upTo
    case Drain(after) => after.Again? || (after.Quit? && StandsAt(f, plan, upTo, seen, after.ending))
    case Resting(exit) =>
      exit.NeverDriven? || exit.StoreFailed? || (exit.Return? && StandsAt(f, plan, upTo, seen, exit.ending))
    case _ =>
      || pc.AskSequence? || pc.MarkRunning? || pc.FirstDrain? || pc.ReadRun? || pc.ReadSteps?
      || ((pc.FinalRead? || pc.CompleteStatus? || pc.CompleteLog?) && seen <= upTo)
  }

  /** How a drive of a spent run can return. */
  ghost predicate StandsAt(f: Frame, plan: seq<Row>, upTo: nat, seen: nat, ending: Ending) {
    match ending
    case NothingToDo => true
    case Stopped => true
    case OutOfBudget => AtPermitted(f, plan, upTo)
    case EndedCompleted => seen <= upTo
    case _ => false
  }

  ghost predicate SpentInv(f: Frame, plan: seq<Row>, s: State, upTo: nat) {
    && Waiting(plan) && PassedOver(f, plan, upTo) && s.w.rows == SkipTo(plan, upTo)
    && Budget.ExecutedRows(s.w.rows) >= f.floor
    && SpentRun(f, s.w.run) && SpentRun(f, s.e.held)
    && (s.e.pc.ReadSteps? && s.e.pc.current.Some? ==> SpentRun(f, s.e.pc.current.value))
    && CallsOf(s.trace) == []
    && Stands(f, plan, upTo, |LastSteps(s.trace)|, s.e.pc)
  }

  lemma StandsMove(cfg: Config, f: Frame, plan: seq<Row>, s: State, m: HostMove, upTo: nat)
    requires SpentInv(f, plan, s, upTo) && KeepsSpent(f, Move(m)) && !m.AddStep?
    ensures SpentInv(f, plan, Next(cfg, s, Move(m)), upTo)
  {
    CallsSnoc(s.trace, Host(m));
    LastSnoc(s.trace, Host(m), s.w.run);
  }

  lemma StandsGrown(cfg: Config, f: Frame, plan: seq<Row>, s: State, added: Step, upTo: nat)
    requires SpentInv(f, plan, s, upTo) && Idle(added.status)
    ensures SpentInv(f, plan + [Row(added, None, None)], Next(cfg, s, Move(AddStep(added))), upTo)
  {
    CallsSnoc(s.trace, Host(AddStep(added)));
    LastSnoc(s.trace, Host(AddStep(added)), s.w.run);
    PlanGrows(f, plan, upTo, Row(added, None, None));
    Budget.RowsAppend(s.w.rows, Row(added, None, None));
    StandsLonger(f, plan, Row(added, None, None), upTo, |LastSteps(s.trace)|, s.e.pc);
  }

  lemma StandsLonger(f: Frame, plan: seq<Row>, row: Row, upTo: nat, seen: nat, pc: Pc)
    requires Stands(f, plan, upTo, seen, pc)
    ensures Stands(f, plan + [row], upTo, seen, pc)
  {
  }

  /** What an answered or failed callback does when it is not the reading of the steps. */
  lemma StandsOn(cfg: Config, f: Frame, plan: seq<Row>, upTo: nat, seen: nat, e: Engine, reply: Reply, clock: real)
    requires Stands(f, plan, upTo, seen, e.pc) && !e.pc.Resting? && !e.pc.ReadSteps? && !e.pc.Write?
    ensures var pc := Resume(cfg, e, reply, clock).pc;
            && Stands(f, plan, upTo, seen, pc) && !pc.Write?
            && (pc.ReadSteps? ==> e.pc.ReadRun? && reply.RunRow? && pc.current == reply.run)
    ensures Resume(cfg, e, reply, clock).held == e.held
    ensures !Ask(e).GetSteps? && !Ask(e).SetStepState? && !Ask(e).Invoke?
  {
  }

  /** Only the engine's own status writes touch the run, and a read run is the stored one. */
  lemma PerformSpent(f: Frame, w: World, req: Request, answer: Answer, outcome: Outcome)
    requires SpentRun(f, w.run)
    ensures var (w', reply) := Perform(w, req, answer, outcome);
            && SpentRun(f, w'.run)
            && (req.GetRun? && reply.RunRow? && reply.run.Some? ==> SpentRun(f, reply.run.value))
  {
  }

  lemma ServedElsewhere(cfg: Config, f: Frame, plan: seq<Row>, s: State, i: Input, upTo: nat)
    requires SpentInv(f, plan, s, upTo) && i.Serve?
    requires !s.e.pc.Resting? && !s.e.pc.ReadSteps? && !s.e.pc.Write?
    ensures SpentInv(f, plan, Next(cfg, s, i), upTo)
  {
    var req := Ask(s.e);
    var reply := Perform(s.w, req, i.answer, i.outcome).1;
    PerformRows(s.w, req, i.answer, i.outcome);
    PerformSpent(f, s.w, req, i.answer, i.outcome);
    StandsOn(cfg, f, plan, upTo, |LastSteps(s.trace)|, s.e, reply, i.clock);
    var a := Called(req, reply, req.Invoke? || !i.answer.Refused?);
    CallsSnoc(s.trace, a);
    LastSnoc(s.trace, a, s.w.run);
  }

  /** A skip is written, or is not. */
  lemma SkipWrites(cfg: Config, f: Frame, plan: seq<Row>, s: State, i: Input, upTo: nat)
    requires SpentInv(f, plan, s, upTo) && i.Serve? && s.e.pc.Write?
    ensures var t := Next(cfg, s, i);
            && (t.w.rows == SkipTo(plan, upTo + 1)
                || (t.w.rows == s.w.rows && t.e.pc.Resting? && t.e.pc.exit.StoreFailed?))
            && (t.e.pc.Log? ==> t.e.pc.t.onward.ThenNextPass?)
            && (t.e.pc.Log? || (t.e.pc.Resting? && t.e.pc.exit.StoreFailed?))
            && t.e.held == s.e.held && t.w.run == s.w.run
            && Budget.ExecutedRows(t.w.rows) == Budget.ExecutedRows(s.w.rows)
  {
    PerformRows(s.w, Ask(s.e), i.answer, i.outcome);
    SkipNext(f, plan, upTo);
    Budget.RowsUpdate(s.w.rows, upTo, SetState(s.w.rows, upTo, Skipped, Put(None), Leave)[upTo]);
  }

  /** Either way the plan is passed over up to where the rows say. */
  lemma ServedWrite(cfg: Config, f: Frame, plan: seq<Row>, s: State, i: Input, upTo: nat) returns (upTo': nat)
    requires SpentInv(f, plan, s, upTo) && i.Serve? && s.e.pc.Write?
    ensures SpentInv(f, plan, Next(cfg, s, i), upTo')
  {
    var a := Called(Ask(s.e), Perform(s.w, Ask(s.e), i.answer, i.outcome).1, !i.answer.Refused?);
    SkipWrites(cfg, f, plan, s, i, upTo);
    CallsSnoc(s.trace, a);
    LastSnoc(s.trace, a, s.w.run);
    SkipNext(f, plan, upTo);
    upTo' := if Next(cfg, s, i).w.rows == s.w.rows then upTo else upTo + 1;
  }

  /** The pass's decision stands at the first unfinished step of what it read. */
  lemma StandsDecided(f: Frame, view: Run, plan: seq<Row>, upTo: nat, elapsed: real) returns (upTo': nat)
    requires SpentRun(f, view) && Waiting(plan) && PassedOver(f, plan, upTo)
    requires Budget.ExecutedRows(SkipTo(plan, upTo)) >= f.floor
    ensures PassedOver(f, plan, upTo') && SkipTo(plan, upTo') == SkipTo(plan, upTo)
    ensures Stands(f, plan, upTo', |plan|, Decide(f.cat, view, Views(SkipTo(plan, upTo)), elapsed))
    ensures !Decide(f.cat, view, Views(SkipTo(plan, upTo)), elapsed).ReadSteps?
  {
    SpentDecision(f, view, plan, upTo, elapsed);
    var turn := FirstUnfinished(Views(SkipTo(plan, upTo)));
    upTo' := if turn.Some? then turn.value else |plan|;
    PassDone(f, plan, upTo, upTo');
  }

  lemma ReadsTheSteps(cfg: Config, s: State, i: Input)
    requires i.Serve? && s.e.pc.ReadSteps?
    ensures var t, reply := Next(cfg, s, i), Perform(s.w, GetSteps, i.answer, i.outcome).1;
            && t.w == s.w && t.e.held == s.e.held && t.trace == s.trace + [Called(GetSteps, reply, !i.answer.Refused?)]
            && (reply.StepRows? ==>
                  && reply.steps == Views(s.w.rows)
                  && t.e.pc == Decide(cfg.cat, View(s.e.held, s.e.pc.current), Views(s.w.rows), i.clock - s.e.started))
            && (!reply.StepRows? ==> t.e.pc == Resting(StoreFailed(s.e.pc)))
  {
  }

  lemma KeepsStanding(f: Frame, plan: seq<Row>, s: State, t: State, a: Act, upTo: nat, upTo': nat)
    requires SpentInv(f, plan, s, upTo) && t.w == s.w && t.e.held == s.e.held && t.trace == s.trace + [a]
    requires a.Called? && !a.req.Invoke? && !t.e.pc.ReadSteps?
    requires PassedOver(f, plan, upTo') && SkipTo(plan, upTo') == SkipTo(plan, upTo)
    requires Stands(f, plan, upTo',
                    if a.reply.StepRows? && a.req.GetSteps? then |a.reply.steps| else |LastSteps(s.trace)|, t.e.pc)
    ensures SpentInv(f, plan, t, upTo')
  {
    CallsSnoc(s.trace, a);
    LastSnoc(s.trace, a, s.w.run);
  }

  lemma ServedSteps(cfg: Config, f: Frame, plan: seq<Row>, s: State, i: Input, upTo: nat) returns (upTo': nat)
    requires SpentInv(f, plan, s, upTo) && i.Serve? && s.e.pc.ReadSteps? && f.cat == cfg.cat
    ensures SpentInv(f, plan, Next(cfg, s, i), upTo')
  {
    var reply := Perform(s.w, GetSteps, i.answer, i.outcome).1;
    ReadsTheSteps(cfg, s, i);
    upTo' := upTo;
    if reply.StepRows? {
      upTo' := StandsDecided(f, View(s.e.held, s.e.pc.current), plan, upTo, i.clock - s.e.started);
    }
    KeepsStanding(f, plan, s, Next(cfg, s, i), Called(GetSteps, reply, !i.answer.Refused?), upTo, upTo');
  }

  lemma SpentStep(cfg: Config, f: Frame, init: seq<Row>, s: State, i: Input, upTo: nat) returns (upTo': nat)
    requires SpentInv(f, Grown(init, s.trace), s, upTo) && KeepsSpent(f, i) && f.cat == cfg.cat
    ensures SpentInv(f, Grown(init, Next(cfg, s, i).trace), Next(cfg, s, i), upTo')
  {
    var plan := Grown(init, s.trace);
    upTo' := upTo;
    match i
    case Move(m) =>
      GrownSnoc(init, s.trace, Host(m));
      if m.AddStep? {
        StandsGrown(cfg, f, plan, s, m.added, upTo);
      } else {
        StandsMove(cfg, f, plan, s, m, upTo);
      }
    case Begin =>
      GrownSnoc(init, s.trace, Began(s.w.run));
      CallsSnoc(s.trace, Began(s.w.run));
      LastSnoc(s.trace, Began(s.w.run), s.w.run);
    case Serve(answer, outcome, clock) =>
      if !s.e.pc.Resting? {
        var req := Ask(s.e);
        GrownSnoc(init, s.trace, Called(req, Perform(s.w, req, answer, outcome).1, req.Invoke? || !answer.Refused?));
        if s.e.pc.ReadSteps? {
          upTo' := ServedSteps(cfg, f, plan, s, i, upTo);
        } else if s.e.pc.Write? {
          upTo' := ServedWrite(cfg, f, plan, s, i, upTo);
        } else {
          ServedElsewhere(cfg, f, plan, s, i, upTo);
        }
      }
  }

  lemma {:induction false} SpentAlong(cfg: Config, f: Frame, init: seq<Row>, s: State, ins: seq<Input>, upTo: nat)
    returns (upTo': nat)
    requires SpentInv(f, Grown(init, s.trace), s, upTo) && f.cat == cfg.cat
    requires forall i :: i in ins ==> KeepsSpent(f, i)
    ensures var t := RunAll(cfg, s, ins); SpentInv(f, Grown(init, t.trace), t, upTo')
    decreases |ins|
  {
    upTo' := upTo;
    if |ins| > 0 {
      upTo' := SpentStep(cfg, f, init, s, ins[0], upTo);
      upTo' := SpentAlong(cfg, f, init, Next(cfg, s, ins[0]), ins[1..], upTo');
    }
  }

  /** The exits of a drive of a spent run. */
  predicate SpentExit(exit: Exit) {
    exit.NeverDriven? || exit.StoreFailed?
    || (exit.Return? && (exit.ending.NothingToDo? || exit.ending.Stopped? || exit.ending.OutOfBudget?
                         || exit.ending.EndedCompleted?))
  }

  /**
   Once the budget is spent no handler is ever called, over any drives and whatever is lost: the rows are the plan
   with the unpermitted steps up to some place skipped, and nothing else. A drive that pauses for its budget stands
   at the first permitted unfinished step; one that completes has passed over everything it last read.
   */
  lemma SpentRunOnlySkips(cfg: Config, f: Frame, w: World, ins: seq<Input>) returns (upTo: nat)
    requires f.cat == cfg.cat && SpentRun(f, w.run) && Budget.ExecutedRows(w.rows) >= f.floor && Waiting(w.rows)
    requires forall i :: i in ins ==> KeepsSpent(f, i)
    ensures var s := RunAll(cfg, Start(w), ins);
            var plan := Grown(w.rows, s.trace);
            && CallsOf(s.trace) == []
            && PassedOver(f, plan, upTo) && s.w.rows == SkipTo(plan, upTo)
            && (s.e.pc.Resting? ==> SpentExit(s.e.pc.exit))
            && (s.e.pc == Resting(Return(OutOfBudget)) ==> AtPermitted(f, plan, upTo))
            && (s.e.pc == Resting(Return(EndedCompleted)) ==> |LastSteps(s.trace)| <= upTo)
  {
    assert SkipTo(w.rows, 0) == w.rows;
    upTo := SpentAlong(cfg, f, w.rows, Start(w), ins, 0);
  }
}
