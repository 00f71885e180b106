/** The step budget over whole runs: executed steps never exceed it. */
module Budget {
  import opened Basics
  import opened Model
  import opened Engine
  import opened System
  import opened Flight
  import opened Gates

  /** The stored budget stays `limit`, and the host itself never marks a step completed or failed. */
  predicate FixedBudget(i: Input, limit: int) {
    i.Move? ==>
      && (i.move.PutRun? ==> PositiveInt(i.move.run.maxSteps) == Some(limit))
      && (i.move.PutStep? ==> !Executed(i.move.status))
      && (i.move.AddStep? ==> !Executed(i.move.added.status))
  }

  function ExecutedRows(rows: seq<Row>): nat {
    ExecutedCount(Views(rows))
  }

  lemma {:induction false} ExecutedUpdate(steps: seq<Step>, pos: nat, step: Step)
    requires pos < |steps|
    ensures ExecutedCount(steps[pos := step]) ==
            ExecutedCount(steps) - (if Executed(steps[pos].status) then 1 else 0)
                                 + (if Executed(step.status) then 1 else 0)
    decreases |steps|
  {
    var last := |steps| - 1;
    if pos == last {
      assert steps[pos := step][..last] == steps[..last];
    } else {
      assert steps[pos := step][..last] == steps[..last][pos := step];
      ExecutedUpdate(steps[..last], pos, step);
    }
  }

  lemma RowsUpdate(rows: seq<Row>, pos: nat, row: Row)
    requires pos < |rows|
    ensures ExecutedRows(rows[pos := row]) ==
            ExecutedRows(rows) - (if Executed(rows[pos].step.status) then 1 else 0)
                               + (if Executed(row.step.status) then 1 else 0)
  {
    assert Views(rows[pos := row]) == Views(rows)[pos := row.step];
    ExecutedUpdate(Views(rows), pos, row.step);
  }

  lemma RowsAppend(rows: seq<Row>, row: Row)
    ensures ExecutedRows(rows + [row]) == ExecutedRows(rows) + (if Executed(row.step.status) then 1 else 0)
  {
    assert Views(rows + [row])[..|rows|] == Views(rows);
  }

  /** A step is being executed: it has been let through the gates and may yet complete or fail. */
  predicate Working(pc: Pc) {
    Heading(pc).Some? || pc.UndoHost? || (pc.Write? && Executed(pc.t.to))
  }

  ghost predicate BudgetInv(s: State, limit: int, cap: int) {
    && PositiveInt(s.w.run.maxSteps) == Some(limit) && PositiveInt(s.e.held.maxSteps) == Some(limit)
    && (s.e.pc.ReadSteps? && s.e.pc.current.Some? ==> PositiveInt(s.e.pc.current.value.maxSteps) == Some(limit))
    && limit <= cap
    && ExecutedRows(s.w.rows) <= cap
    && (Working(s.e.pc) ==> ExecutedRows(s.w.rows) < cap)
  }

  ghost predicate BudgetResume(e: Engine, e': Engine, req: Request, reply: Reply, limit: int) {
    && e'.held == e.held
    && (e'.pc.ReadSteps? ==> req.GetRun? && reply.RunRow? && e'.pc.current == reply.run)
    && (e.pc.ReadSteps? && Working(e'.pc) && PositiveInt(View(e.held, e.pc.current).maxSteps) == Some(limit) ==>
          reply.StepRows? && ExecutedCount(reply.steps) < limit)
    && (!e.pc.ReadSteps? && Working(e'.pc) ==> Working(e.pc) && (req.SetStepState? ==> !Executed(req.to)))
    && (req.SetStepState? && Executed(req.to) ==> Working(e.pc))
    && (e.pc.ReadSteps? <==> req.GetSteps?)
  }

  lemma DecideWithinBudget(cfg: Config, view: Run, steps: seq<Step>, elapsed: real, limit: int)
    ensures var pc := Decide(cfg.cat, view, steps, elapsed);
            Sound(pc) && (Working(pc) && PositiveInt(view.maxSteps) == Some(limit) ==> ExecutedCount(steps) < limit)
  {
  }

  lemma ResumeForBudget(cfg: Config, e: Engine, reply: Reply, clock: real, limit: int)
    requires !e.pc.Resting? && Sound(e.pc)
    ensures BudgetResume(e, Resume(cfg, e, reply, clock), Ask(e), reply, limit)
    ensures Sound(Resume(cfg, e, reply, clock).pc)
  {
    if e.pc.ReadSteps? {
      if reply.StepRows? {
        DecideWithinBudget(cfg, View(e.held, e.pc.current), reply.steps, clock - e.started, limit);
      }
    } else {
      WorkResumes(cfg, e, reply, clock);
    }
  }

  lemma WorkResumes(cfg: Config, e: Engine, reply: Reply, clock: real)
    requires !e.pc.Resting? && !e.pc.ReadSteps? && Sound(e.pc)
    ensures var e' := Resume(cfg, e, reply, clock);
            && e'.held == e.held && Sound(e'.pc)
            && (e'.pc.ReadSteps? ==> Ask(e).GetRun? && reply.RunRow? && e'.pc.current == reply.run)
            && (Working(e'.pc) ==> Working(e.pc) && (Ask(e).SetStepState? ==> !Executed(Ask(e).to)))
  {
  }

  /** A transition that leads to the handler is an approval or a start. */
  predicate Sound(pc: Pc) {
    (pc.Write? || pc.Log?) && Onward(pc.t).Some? ==> !Executed(pc.t.to)
  }

  lemma PerformForBudget(w: World, req: Request, answer: Answer, outcome: Outcome)
    ensures var (w', reply) := Perform(w, req, answer, outcome);
            && w'.run.maxSteps == w.run.maxSteps
            && (req.GetRun? && reply.RunRow? && reply.run.Some? ==> reply.run.value == w.run)
  {
  }

  lemma BudgetStep(cfg: Config, s: State, i: Input, limit: int, cap: int)
    requires BudgetInv(s, limit, cap) && Sound(s.e.pc) && FixedBudget(i, limit)
    ensures BudgetInv(Next(cfg, s, i), limit, cap) && Sound(Next(cfg, s, i).e.pc)
  {
    match i
    case Move(m) =>
      if m.PutStep? && m.pos < |s.w.rows| {
        RowsUpdate(s.w.rows, m.pos, Apply(s.w, m).rows[m.pos]);
      } else if m.AddStep? {
        RowsAppend(s.w.rows, Row(m.added, None, None));
      }
    case Begin =>
    case Serve(answer, outcome, clock) =>
      if !s.e.pc.Resting? {
        var req := Ask(s.e);
        PerformRows(s.w, req, answer, outcome);
        PerformForBudget(s.w, req, answer, outcome);
        ResumeForBudget(cfg, s.e, Perform(s.w, req, answer, outcome).1, clock, limit);
        if req.SetStepState? && req.pos < |s.w.rows| {
          RowsUpdate(s.w.rows, req.pos, SetState(s.w.rows, req.pos, req.to, req.error, req.refs)[req.pos]);
        }
      }
  }

  lemma {:induction false} BudgetAlong(cfg: Config, s: State, ins: seq<Input>, limit: int, cap: int)
    requires BudgetInv(s, limit, cap) && Sound(s.e.pc)
    requires forall i :: i in ins ==> FixedBudget(i, limit)
    ensures BudgetInv(RunAll(cfg, s, ins), limit, cap)
    decreases |ins|
  {
    if |ins| > 0 {
      BudgetStep(cfg, s, ins[0], limit, cap);
      BudgetAlong(cfg, Next(cfg, s, ins[0]), ins[1..], limit, cap);
    }
  }

  /** Over all drives, at every moment: completed and failed steps stay within the budget or the initial count. */
  lemma ExecutedWithinBudget(cfg: Config, w: World, ins: seq<Input>, limit: int)
    requires PositiveInt(w.run.maxSteps) == Some(limit)
    requires forall i :: i in ins ==> FixedBudget(i, limit)
    ensures var initial := ExecutedRows(w.rows);
            ExecutedRows(RunAll(cfg, Start(w), ins).w.rows) <= if initial > limit then initial else limit
  {
    var initial := ExecutedRows(w.rows);
    BudgetAlong(cfg, Start(w), ins, limit, if initial > limit then initial else limit);
  }
}
