/** Facts every run-level proof shares: which step a control state is working on, and what rows can change. */
module Flight {
  import opened Basics
  import opened Model
  import opened Engine
  import opened System

  /** The position of the step the engine is working on, from the pass's decision to its transition's event. */
  function At(pc: Pc): Option<nat> {
    match pc
    case Write(t) => Some(t.pos)
    case Log(t) => Some(t.pos)
    case Call(pos, _) => Some(pos)
    case UndoHost(pos, _, _) => Some(pos)
    case Reread(pos, _) => Some(pos)
    case _ => None
  }

  predicate Behind(rows: seq<Row>, pos: nat) {
    pos <= |rows| && forall k :: 0 <= k < pos ==> Done(rows[k].step.status)
  }

  /** A pass works on the first unfinished step; it looks up a failure only there, and ends only when all are done. */
  ghost predicate Decided(steps: seq<Step>, pc: Pc) {
    && (At(pc).Some? ==>
          && FirstUnfinished(steps) == At(pc)
          && !steps[At(pc).value].status.Failed? && !steps[At(pc).value].status.Unrecognized?)
    && (pc.CheckReport? ==> FirstUnfinished(steps) == Some(pc.pos) && steps[pc.pos].status.Failed?)
    && (pc.FinalRead? ==> FirstUnfinished(steps).None?)
    && (At(pc).Some? || pc.CheckReport? || pc.FinalRead? || pc.Resting? || pc.BudgetLog? || pc.StopStatus?)
  }

  lemma DecideDecides(cfg: Config, view: Run, steps: seq<Step>, elapsed: real)
    ensures Decided(steps, Decide(cfg.cat, view, steps, elapsed))
  {
  }

  /** Positions are only carried forward between one pass's decision and the next. */
  ghost predicate Carried(e: Engine, e': Engine, req: Request, reply: Reply) {
    && (e.pc.ReadSteps? <==> req.GetSteps?)
    && (e.pc.ReadSteps? ==> e'.pc == Resting(StoreFailed(e.pc)) || (reply.StepRows? && Decided(reply.steps, e'.pc)))
    && (!e.pc.ReadSteps? ==> !e'.pc.CheckReport? && !e'.pc.FinalRead?)
    && (!e.pc.ReadSteps? && At(e'.pc).Some? ==> At(e'.pc) == At(e.pc))
    && (req.SetStepState? ==> At(e.pc) == Some(req.pos))
    && (req.SetStepState? <==> e.pc.Write?)
    && (req.Invoke? ==> At(e.pc) == Some(req.pos))
  }

  lemma ResumeCarries(cfg: Config, e: Engine, reply: Reply, clock: real)
    requires !e.pc.Resting?
    ensures Carried(e, Resume(cfg, e, reply, clock), Ask(e), reply)
  {
    if e.pc.ReadSteps? && reply.StepRows? {
      DecideDecides(cfg, View(e.held, e.pc.current), reply.steps, clock - e.started);
    }
  }

  /** Only a state write changes rows, and a step list is answered as it is stored. */
  ghost predicate RowsReply(w: World, w': World, req: Request, reply: Reply) {
    && (!req.SetStepState? ==> w'.rows == w.rows)
    && (req.SetStepState? ==>
          || (w'.rows == w.rows && !reply.StepRow?)
          || (req.pos < |w.rows| && w'.rows == SetState(w.rows, req.pos, req.to, req.error, req.refs)))
    && (req.GetSteps? && reply.StepRows? ==> reply.steps == Views(w.rows))
  }

  lemma PerformRows(w: World, req: Request, answer: Answer, outcome: Outcome)
    ensures RowsReply(w, Perform(w, req, answer, outcome).0, req, Perform(w, req, answer, outcome).1)
  {
  }

  /** Only a callback that the host applied gets an answer of the right shape. */
  lemma AnsweredWasApplied(w: World, req: Request, answer: Answer, outcome: Outcome)
    ensures Fits(req, Perform(w, req, answer, outcome).1) ==> req.Invoke? || !answer.Refused?
  {
  }

  // ---- positions stay in range ----

  /** The step a control state works on, or was working on when a callback failed. */
  function Where(pc: Pc): Option<nat> {
    if pc.Resting? && pc.exit.StoreFailed? then At(pc.exit.at) else At(pc)
  }

  /** Every state the engine writes and every handler it calls is for a step that exists. */
  predicate ActWithin(a: Act, size: nat) {
    a.Called? ==> (a.req.SetStepState? ==> a.req.pos < size) && (a.req.Invoke? ==> a.req.pos < size)
  }

  ghost predicate Placed(s: State) {
    && (Where(s.e.pc).Some? ==> Where(s.e.pc).value < |s.w.rows|)
    && forall k :: 0 <= k < |s.trace| ==> ActWithin(s.trace[k], |s.w.rows|)
  }

  lemma FailsInPlace(cfg: Config, e: Engine, reply: Reply, clock: real)
    requires !e.pc.Resting?
    ensures var pc := Resume(cfg, e, reply, clock).pc;
            pc.Resting? && pc.exit.StoreFailed? ==> pc.exit.at == e.pc
  {
    if e.pc.ReadSteps? && reply.StepRows? {
      NeverFailsDeciding(cfg, View(e.held, e.pc.current), reply.steps, clock - e.started);
    }
  }

  lemma NeverFailsDeciding(cfg: Config, view: Run, steps: seq<Step>, elapsed: real)
    ensures var pc := Decide(cfg.cat, view, steps, elapsed); !(pc.Resting? && pc.exit.StoreFailed?)
  {
  }

  lemma PlacedStep(cfg: Config, s: State, i: Input)
    requires Placed(s)
    ensures Placed(Next(cfg, s, i)) && |s.w.rows| <= |Next(cfg, s, i).w.rows|
  {
    if i.Serve? && !s.e.pc.Resting? {
      var reply := Perform(s.w, Ask(s.e), i.answer, i.outcome).1;
      PerformRows(s.w, Ask(s.e), i.answer, i.outcome);
      ResumeCarries(cfg, s.e, reply, i.clock);
      FailsInPlace(cfg, s.e, reply, i.clock);
    }
  }

  lemma {:induction false} PlacedAlong(cfg: Config, s: State, ins: seq<Input>)
    requires Placed(s)
    ensures Placed(RunAll(cfg, s, ins)) && |s.w.rows| <= |RunAll(cfg, s, ins).w.rows|
    decreases |ins|
  {
    if |ins| > 0 {
      PlacedStep(cfg, s, ins[0]);
      PlacedAlong(cfg, Next(cfg, s, ins[0]), ins[1..]);
    }
  }
}
