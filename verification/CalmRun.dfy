/**
 The engine refines the chain of beats. However often a calm host pauses, cancels, re-opens or
 re-budgets the run, at any callback, the rows and the handler calls of the system are those of the
 chain after some number of beats.
 */
module CalmRun {
  import opened Basics
  import opened Model
  import opened Engine
  import opened System
  import opened Gates
  import opened Calm

  function CallsOf(trace: seq<Act>): seq<nat> {
    if |trace| == 0 then []
    else
      var a := trace[|trace| - 1];
      CallsOf(trace[..|trace| - 1]) + (if a.Called? && a.req.Invoke? then [a.req.pos] else [])
  }

  lemma CallsSnoc(trace: seq<Act>, a: Act)
    ensures CallsOf(trace + [a]) == CallsOf(trace) + (if a.Called? && a.req.Invoke? then [a.req.pos] else [])
  {
    assert (trace + [a])[..|trace|] == trace;
  }

  /** The rows the running handler started from. */
  function Base(s: State): seq<Row> {
    if |LastSteps(s.trace)| <= |s.w.rows| then s.w.rows[..|LastSteps(s.trace)|] else s.w.rows
  }

  /** The drive before may be followed by another: it was cut by a pause, a cancel or a budget. */
  predicate Cut(exit: Exit) {
    exit.NeverDriven? || exit == Return(Stopped) || exit == Return(OutOfBudget) || exit == Return(NothingToDo)
  }

  /**
   A calm host answers every callback. It may change the run's status and tighten or loosen its budget up to the
   setting's at any moment, append events, and let the handler do its deed; it changes nothing else.
   */
  predicate CalmInput(env: Setting, h: Handler, s: State, i: Input) {
    match i
    case Begin => s.e.pc.Resting? ==> Cut(s.e.pc.exit)
    case Move(m) =>
      && !m.PutStep?
      && (m.PutRun? ==> SameTerms(m.run, env.terms) && Tighter(m.run.maxSteps, env.budget))
      && (m.AddStep? ==>
            s.e.pc.Call? &&
            var added, k := h(s.e.pc.pos, Base(s)).added, |s.w.rows| - |Base(s)|;
            k < |added| && m.added == added[k])
    case Serve(answer, outcome, _) =>
      && answer.Served?
      && (s.e.pc.Call? ==>
            var deed := h(s.e.pc.pos, Base(s));
            |s.w.rows| == |Base(s)| + |deed.added| && outcome == deed.outcome)
  }

  predicate CalmAlong(env: Setting, h: Handler, s: State, ins: seq<Input>)
    decreases |ins|
  {
    |ins| == 0 || (CalmInput(env, h, s, ins[0]) && CalmAlong(env, h, Next(env.cfg, s, ins[0]), ins[1..]))
  }

  /** Control states in which the chain stands between two beats. */
  predicate Between(pc: Pc) {
    match pc
    case Resting(exit) => Cut(exit)
    case Drain(after) => after.Again? || after == Quit(Stopped) || after == Quit(OutOfBudget)
    case _ =>
      pc.AskSequence? || pc.MarkRunning? || pc.FirstDrain? || pc.ReadRun? || pc.ReadSteps?
      || pc.BudgetLog? || pc.BudgetStatus? || pc.PauseLog? || pc.FinalRead?
  }

  /** Control states in which the chain has halted. */
  predicate Over(pc: Pc) {
    match pc
    case Resting(exit) => !Cut(exit) && !exit.StoreFailed?
    case Drain(after) => after.FailRun? || after == Quit(Gated) || after == Quit(AlreadyReported)
                         || after == Quit(EndedFailed) || after == Quit(EndedCompleted)
    case _ =>
      pc.StopStatus? || pc.CheckReport? || pc.QuietFail? || pc.Report? || pc.FailStatus? || pc.Hook?
      || pc.CompleteStatus? || pc.CompleteLog?
  }

  /** The control states in which a drive that ends for this reason carries the ending out. */
  predicate EndsAs(pc: Pc, why: Why) {
    match why
    case AllDone =>
      pc.CompleteStatus? || pc.CompleteLog? || pc == Hook(RunCompleted)
      || pc == Drain(Quit(EndedCompleted)) || pc == Resting(Return(EndedCompleted))
    case StepFailed =>
      pc.CheckReport? || pc.QuietFail? || pc.Report? || pc.FailStatus? || pc == Hook(RunFailed)
      || (pc.Drain? && (pc.after.FailRun? || pc.after == Quit(EndedFailed) || pc.after == Quit(AlreadyReported)))
      || pc == Resting(Return(EndedFailed)) || pc == Resting(Return(AlreadyReported))
    case AtGate => pc.StopStatus? || pc == Drain(Quit(Gated)) || pc == Resting(Return(Gated))
    case Budgeted => false
    case Raised => pc.Resting? && !pc.exit.Return? && !pc.exit.StoreFailed? && !pc.exit.NeverDriven?
  }

  predicate Finale(p: Progress, pc: Pc) {
    p.halted.Some? && EndsAs(pc, p.halted.value)
  }

  predicate OutOfSteps(pc: Pc) {
    pc.BudgetLog? || pc.BudgetStatus? || pc.PauseLog? || pc == Drain(Quit(OutOfBudget))
    || pc == Resting(Return(OutOfBudget))
  }

  ghost predicate Halfway(before: seq<Row>, t: Transition, pc: Pc, rows: seq<Row>) {
    (pc == Write(t) && rows == before) || (pc == Log(t) && rows == PutTransition(before, t))
  }

  /** The handler is at work: it has appended a prefix of what it will append. */
  ghost predicate Acting(h: Handler, started: seq<Row>, pos: nat, rows: seq<Row>) {
    var added := h(pos, started).added;
    && |started| <= |rows| <= |started| + |added|
    && rows == started + NewRows(added[..|rows| - |started|])
  }

  ghost predicate Dispatching(cfg: Config, h: Handler, p: Progress, t: Transition, pos: nat, step: Step,
                              pc: Pc, rows: seq<Row>, calls: seq<nat>)
  {
    var started := Started(p.rows, pos, step);
    var outcome := h(pos, started).outcome;
    var acted := Acted(h, p.rows, pos, step);
    || (calls == p.calls && Halfway(p.rows, t, pc, rows))
    || (calls == p.calls && pc == Write(StartStep(pos, step)) && rows == PutTransition(p.rows, t))
    || (calls == p.calls && pc == Log(StartStep(pos, step)) && rows == started)
    || (calls == p.calls && step.kind !in cfg.registered
        && Halfway(started, FailStep(pos, step.kind, "Unsupported step type"), pc, rows))
    || (calls == p.calls && step.kind in cfg.registered && pc == Call(pos, step) && Acting(h, started, pos, rows))
    || (calls == p.calls + [pos] && step.kind in cfg.registered
        && ((outcome.Crashed? && pc == UndoHost(pos, step.kind, outcome.message) && rows == acted)
            || (Finish(pos, step, outcome).Some? && Halfway(acted, Finish(pos, step, outcome).value, pc, rows))))
  }

  ghost predicate Midway(env: Setting, h: Handler, p: Progress, pc: Pc, rows: seq<Row>, calls: seq<nat>) {
    var d := CalmDecision(env, p.rows);
    && p.halted.None?
    && d.Write? && d.t.pos < |p.rows|
    && match Onward(d.t)
       case None => calls == p.calls && !d.t.onward.ThenFailRun? && Halfway(p.rows, d.t, pc, rows)
       case Some((pos, step)) =>
         && pos == d.t.pos && (d.t.onward.ThenCall? ==> d.t == StartStep(pos, step))
         && (d.t.onward.ThenStart? ==> d.t.error == Leave && d.t.refs == Leave)
         && Dispatching(env.cfg, h, p, d.t, pos, step, pc, rows, calls)
  }

  predicate Steady(env: Setting, run: Run) {
    SameTerms(run, env.terms) && Tighter(run.maxSteps, env.budget)
  }

  /** The simulation: with the chain at `p`, the system is between beats, midway, or over. */
  ghost predicate Sim(env: Setting, h: Handler, init: Run, s: State, p: Progress) {
    && Steadily(env, init, s)
    && if Between(s.e.pc) then Resumable(env, init, s, p)
       else if Over(s.e.pc) then Finale(p, s.e.pc) && s.w.rows == p.rows && CallsOf(s.trace) == p.calls
       else Midway(env, h, p, s.e.pc, s.w.rows, CallsOf(s.trace)) && |LastSteps(s.trace)| == |p.rows|
  }

  ghost predicate Steadily(env: Setting, init: Run, s: State) {
    && Steady(env, s.w.run) && Steady(env, s.e.held)
    && (s.e.pc.ReadSteps? ==> s.e.pc.current.Some? && Steady(env, s.e.pc.current.value)
                              && s.e.pc.current.value == LastView(s.trace, init))
  }

  /** The pass stopped at the budget its own reading of the run had set. */
  predicate BudgetStops(env: Setting, view: Run, rows: seq<Row>) {
    Steady(env, view) && Decide(env.cfg.cat, view, Views(rows), 0.0).BudgetLog?
  }

  ghost predicate Resumable(env: Setting, init: Run, s: State, p: Progress) {
    && p.halted.None? && s.w.rows == p.rows && CallsOf(s.trace) == p.calls
    && (s.e.pc.FinalRead? ==> CalmDecision(env, p.rows).FinalRead?)
    && (OutOfSteps(s.e.pc) ==> BudgetStops(env, LastView(s.trace, init), p.rows))
  }

  // ---- facts about one decision and one answer ----

  /** A tighter budget can only replace a decision by a budget stop. */
  lemma DecideCalmly(env: Setting, view: Run, steps: seq<Step>, elapsed: real)
    requires Steady(env, view)
    ensures var d, calm := Decide(env.cfg.cat, view, steps, elapsed), Decide(env.cfg.cat, Plain(env), steps, 0.0);
            && (d == calm || d.BudgetLog?)
            && (d.BudgetLog? ==> Decide(env.cfg.cat, view, steps, 0.0).BudgetLog?)
            && (PositiveInt(view.maxSteps) == PositiveInt(env.budget) ==> d == calm)
  {
  }

  lemma DecidedTransition(env: Setting, rows: seq<Row>)
    ensures var d := CalmDecision(env, rows);
            && (d.Write? ==> d.t.pos < |rows| && !d.t.onward.ThenFailRun?)
            && (d.Write? && d.t.onward.ThenCall? ==> d.t == StartStep(d.t.pos, d.t.onward.step))
            && (d.Write? && d.t.onward.ThenStart? ==> d.t.error == Leave && d.t.refs == Leave)
            && (d.Write? || d.FinalRead? || d.CheckReport? || d.BudgetLog? || d.StopStatus?
                || (d.Resting? && (d.exit.UnknownStatus? || d.exit.NotPermitted?)))
  {
  }

  ghost predicate CalmReply(w: World, w': World, req: Request, reply: Reply, outcome: Outcome) {
    && Fits(req, reply)
    && w'.rows == (if req.SetStepState? && req.pos < |w.rows|
                   then SetState(w.rows, req.pos, req.to, req.error, req.refs) else w.rows)
    && w'.run == (if req.SetRunStatus? then w.run.(status := req.status) else w.run)
    && (req.GetRun? ==> reply.run == Some(w.run))
    && (req.GetSteps? ==> reply.steps == Views(w.rows))
    && (req.Invoke? ==> reply.outcome == outcome)
  }

  lemma PerformCalmly(w: World, req: Request, outcome: Outcome)
    requires req.SetStepState? ==> req.pos < |w.rows|
    ensures CalmReply(w, Perform(w, req, Served, outcome).0, req, Perform(w, req, Served, outcome).1, outcome)
  {
  }

  // ---- between beats ----

  lemma BetweenServes(cfg: Config, e: Engine, reply: Reply, clock: real)
    requires Between(e.pc) && !e.pc.Resting? && !e.pc.ReadSteps? && !e.pc.FinalRead?
    requires Fits(Ask(e), reply)
    ensures var e' := Resume(cfg, e, reply, clock);
            && Between(e'.pc) && !Over(e'.pc) && !e'.pc.FinalRead? && e'.held == e.held
            && (OutOfSteps(e'.pc) ==> OutOfSteps(e.pc))
            && (e'.pc.ReadSteps? ==> Ask(e).GetRun? && e'.pc.current == reply.run)
            && !Ask(e).Invoke? && !Ask(e).SetStepState? && !Ask(e).GetSteps?
            && (OutOfSteps(e.pc) ==> !Ask(e).GetRun?)
  {
  }

  lemma FinalServes(cfg: Config, e: Engine, reply: Reply, clock: real)
    requires e.pc.FinalRead? && Fits(Ask(e), reply)
    ensures var e' := Resume(cfg, e, reply, clock);
            e'.held == e.held && (e'.pc == Drain(Quit(Stopped)) || e'.pc.CompleteStatus?)
  {
  }

  lemma FinalHalts(env: Setting, h: Handler, p: Progress)
    requires p.halted.None? && CalmDecision(env, p.rows).FinalRead?
    ensures Advance(env, h, p) == Progress(p.rows, p.calls, Some(AllDone))
  {
    assert p.calls + [] == p.calls;
  }

  // ---- over ----

  /** Control states in which a drive that has come to its end carries the ending out. */
  ghost predicate OverTo(e: Engine, e': Engine) {
    && Over(e'.pc) && !Between(e'.pc) && e'.held == e.held
    && !e'.pc.ReadSteps? && !e'.pc.FinalRead? && !OutOfSteps(e'.pc)
  }

  lemma OverGoesOn(cfg: Config, e: Engine, reply: Reply, clock: real)
    requires Over(e.pc) && !e.pc.Resting? && Fits(Ask(e), reply)
    ensures OverTo(e, Resume(cfg, e, reply, clock))
  {
    if e.pc.Drain? {
      assert Resume(cfg, e, reply, clock).pc == AfterDrain(e.pc.after);
    }
  }

  lemma OverAsks(e: Engine)
    requires Over(e.pc) && !e.pc.Resting?
    ensures !Ask(e).Invoke? && !Ask(e).SetStepState?
  {
  }

  lemma OverEndsAs(cfg: Config, e: Engine, reply: Reply, clock: real, why: Why)
    requires EndsAs(e.pc, why) && Over(e.pc) && !e.pc.Resting? && Fits(Ask(e), reply)
    ensures EndsAs(Resume(cfg, e, reply, clock).pc, why)
  {
  }

  lemma OverServes(cfg: Config, e: Engine, reply: Reply, clock: real)
    requires Over(e.pc) && !e.pc.Resting? && Fits(Ask(e), reply)
    ensures var e' := Resume(cfg, e, reply, clock);
            OverTo(e, e') && (forall why :: EndsAs(e.pc, why) ==> EndsAs(e'.pc, why))
    ensures !Ask(e).Invoke? && !Ask(e).SetStepState?
  {
    OverAsks(e);
    OverGoesOn(cfg, e, reply, clock);
    forall why | EndsAs(e.pc, why) ensures EndsAs(Resume(cfg, e, reply, clock).pc, why) {
      OverEndsAs(cfg, e, reply, clock, why);
    }
  }

  // ---- deciding ----

  /** What the chain does on a decision that is not a dispatch: it halts, or there is a transition to make. */
  lemma DecisionAdvances(env: Setting, h: Handler, p: Progress)
    requires p.halted.None?
    ensures var d, q := CalmDecision(env, p.rows), Advance(env, h, p);
            && (Over(d) ==> q.rows == p.rows && q.calls == p.calls && Finale(q, d))
            && (d.Write? ==> Midway(env, h, p, d, p.rows, p.calls))
            && (Over(d) || d.Write? || d.FinalRead? || d.BudgetLog?)
  {
    DecidedTransition(env, p.rows);
    assert p.calls + [] == p.calls;
  }

  // ---- midway ----

  /** What the chain makes of the control state that follows a beat. */
  ghost predicate Landed(q: Progress, pc: Pc, rows: seq<Row>, calls: seq<nat>) {
    && rows == q.rows && calls == q.calls
    && (if q.halted.Some? then Over(pc) && !Between(pc) && EndsAs(pc, q.halted.value)
        else Between(pc) && !Over(pc) && !pc.ReadSteps? && !pc.FinalRead? && !OutOfSteps(pc))
  }

  lemma HalfwayServes(cfg: Config, before: seq<Row>, t: Transition, e: Engine, w: World, w': World,
                      reply: Reply, outcome: Outcome, clock: real)
    requires t.pos < |before| && Halfway(before, t, e.pc, w.rows)
    requires CalmReply(w, w', Ask(e), reply, outcome)
    ensures var e' := Resume(cfg, e, reply, clock);
            && e'.held == e.held
            && (e.pc.Write? ==> e'.pc == Log(t) && Halfway(before, t, e'.pc, w'.rows))
            && (e.pc.Log? ==> e'.pc == AfterTransition(cfg, t) && w'.rows == PutTransition(before, t))
            && !Ask(e).Invoke? && !Ask(e).GetSteps? && !Ask(e).GetRun?
  {
  }

  lemma PlainServes(env: Setting, h: Handler, p: Progress, e: Engine, w: World, w': World,
                    reply: Reply, outcome: Outcome, clock: real, calls: seq<nat>)
    requires Midway(env, h, p, e.pc, w.rows, calls) && Onward(CalmDecision(env, p.rows).t).None?
    requires CalmReply(w, w', Ask(e), reply, outcome)
    ensures var pc := Resume(env.cfg, e, reply, clock).pc;
            || Midway(env, h, p, pc, w'.rows, calls)
            || Landed(Advance(env, h, p), pc, w'.rows, calls)
    ensures !Ask(e).Invoke? && !Ask(e).GetSteps? && !Ask(e).GetRun?
  {
    var t := CalmDecision(env, p.rows).t;
    HalfwayServes(env.cfg, p.rows, t, e, w, w', reply, outcome, clock);
    assert p.calls + [] == p.calls;
  }

  lemma StartedTwice(rows: seq<Row>, t: Transition, pos: nat, step: Step)
    requires pos < |rows| && t.pos == pos && t.error == Leave && t.refs == Leave
    ensures PutTransition(PutTransition(rows, t), StartStep(pos, step)) == Started(rows, pos, step)
  {
  }

  /** A dispatch goes on, or its beat is over and the control state is where the chain says. */
  ghost predicate DispatchLands(cfg: Config, h: Handler, p: Progress, t: Transition, pos: nat, step: Step,
                                pc: Pc, rows: seq<Row>, calls: seq<nat>)
  {
    || Dispatching(cfg, h, p, t, pos, step, pc, rows, calls)
    || (match DispatchBeat(cfg, h, p.rows, pos, step)
        case Go(rows', called) => rows' == rows && pc == Drain(Again) && calls == p.calls + CallList(called)
        case Halt(rows', called, why) =>
          rows' == rows && Over(pc) && !Between(pc) && EndsAs(pc, why) && calls == p.calls + CallList(called))
  }

  /** After the start is recorded the handler is called, or an unregistered type fails. */
  lemma StartedServes(cfg: Config, h: Handler, p: Progress, t: Transition, pos: nat, step: Step, rows: seq<Row>)
    requires pos < |p.rows| && rows == Started(p.rows, pos, step)
    ensures Dispatching(cfg, h, p, t, pos, step, AfterTransition(cfg, StartStep(pos, step)), rows, p.calls)
  {
    var started := Started(p.rows, pos, step);
    assert started + NewRows(h(pos, started).added[..0]) == started;
  }

  /** Approval and start. */
  lemma ApproachServes(cfg: Config, h: Handler, p: Progress, t: Transition, pos: nat, step: Step,
                       e: Engine, w: World, w': World, reply: Reply, outcome: Outcome, clock: real)
    requires pos < |p.rows| && t.pos == pos && t.error == Leave && t.refs == Leave
    requires (t.onward.ThenStart? && t.onward.step == step) || t == StartStep(pos, step)
    requires Halfway(p.rows, t, e.pc, w.rows)
             || (e.pc == Write(StartStep(pos, step)) && w.rows == PutTransition(p.rows, t))
             || (e.pc == Log(StartStep(pos, step)) && w.rows == Started(p.rows, pos, step))
    requires CalmReply(w, w', Ask(e), reply, outcome)
    ensures DispatchLands(cfg, h, p, t, pos, step, Resume(cfg, e, reply, clock).pc, w'.rows, p.calls)
    ensures !Ask(e).Invoke? && !Ask(e).GetSteps? && !Ask(e).GetRun?
  {
    StartedTwice(p.rows, t, pos, step);
    if e.pc.Log? && e.pc.t == StartStep(pos, step) {
      HalfwayServes(cfg, p.rows, StartStep(pos, step), e, w, w', reply, outcome, clock);
      StartedServes(cfg, h, p, t, pos, step, w'.rows);
    }
  }

  /** The handler answers, and its outcome is recorded. */
  lemma HandlerServes(cfg: Config, h: Handler, p: Progress, t: Transition, pos: nat, step: Step,
                      e: Engine, w: World, w': World, reply: Reply, clock: real)
    requires pos < |p.rows| && step.kind in cfg.registered
    requires e.pc == Call(pos, step) && w.rows == Acted(h, p.rows, pos, step)
    requires !h(pos, Started(p.rows, pos, step)).outcome.Prepared?
    requires CalmReply(w, w', Ask(e), reply, h(pos, Started(p.rows, pos, step)).outcome)
    ensures DispatchLands(cfg, h, p, t, pos, step, Resume(cfg, e, reply, clock).pc, w'.rows, p.calls + [pos])
    ensures Ask(e) == Invoke(pos, step)
  {
  }

  lemma UndoServes(cfg: Config, h: Handler, p: Progress, t: Transition, pos: nat, step: Step,
                   e: Engine, w: World, w': World, reply: Reply, outcome: Outcome, clock: real)
    requires pos < |p.rows| && step.kind in cfg.registered
    requires var deed := h(pos, Started(p.rows, pos, step)).outcome;
             deed.Crashed? && e.pc == UndoHost(pos, step.kind, deed.message)
    requires w.rows == Acted(h, p.rows, pos, step) && CalmReply(w, w', Ask(e), reply, outcome)
    ensures DispatchLands(cfg, h, p, t, pos, step, Resume(cfg, e, reply, clock).pc, w'.rows, p.calls + [pos])
    ensures !Ask(e).Invoke? && !Ask(e).GetSteps? && !Ask(e).GetRun?
  {
  }

  /** Recording the end of the step ends the beat. */
  lemma RecordServes(cfg: Config, h: Handler, p: Progress, t: Transition, pos: nat, step: Step,
                     e: Engine, w: World, w': World, reply: Reply, outcome: Outcome, clock: real)
    requires pos < |p.rows| && step.kind in cfg.registered
    requires var deed := h(pos, Started(p.rows, pos, step)).outcome;
             Finish(pos, step, deed).Some?
             && Halfway(Acted(h, p.rows, pos, step), Finish(pos, step, deed).value, e.pc, w.rows)
    requires CalmReply(w, w', Ask(e), reply, outcome)
    ensures DispatchLands(cfg, h, p, t, pos, step, Resume(cfg, e, reply, clock).pc, w'.rows, p.calls + [pos])
    ensures !Ask(e).Invoke? && !Ask(e).GetSteps? && !Ask(e).GetRun?
  {
    var fin := Finish(pos, step, h(pos, Started(p.rows, pos, step)).outcome).value;
    HalfwayServes(cfg, Acted(h, p.rows, pos, step), fin, e, w, w', reply, outcome, clock);
  }

  lemma UnregisteredServes(cfg: Config, h: Handler, p: Progress, t: Transition, pos: nat, step: Step,
                           e: Engine, w: World, w': World, reply: Reply, outcome: Outcome, clock: real)
    requires pos < |p.rows| && step.kind !in cfg.registered
    requires Halfway(Started(p.rows, pos, step), FailStep(pos, step.kind, "Unsupported step type"), e.pc, w.rows)
    requires CalmReply(w, w', Ask(e), reply, outcome)
    ensures DispatchLands(cfg, h, p, t, pos, step, Resume(cfg, e, reply, clock).pc, w'.rows, p.calls)
    ensures !Ask(e).Invoke? && !Ask(e).GetSteps? && !Ask(e).GetRun?
  {
    HalfwayServes(cfg, Started(p.rows, pos, step), FailStep(pos, step.kind, "Unsupported step type"),
                  e, w, w', reply, outcome, clock);
    assert p.calls + [] == p.calls;
  }

  /** The handler's answer is awaited only when its deed is done. */
  ghost predicate DeedDone(h: Handler, e: Engine, started: seq<Row>, w: World, outcome: Outcome) {
    e.pc.Call? ==>
      |w.rows| == |started| + |h(e.pc.pos, started).added| && outcome == h(e.pc.pos, started).outcome
  }

  ghost predicate NeverPrepares(h: Handler) {
    forall pos, rows :: !h(pos, rows).outcome.Prepared?
  }

  lemma DispatchServes(cfg: Config, h: Handler, p: Progress, t: Transition, pos: nat, step: Step,
                       e: Engine, w: World, w': World, reply: Reply, outcome: Outcome, clock: real, calls: seq<nat>)
    requires NeverPrepares(h) && pos < |p.rows| && t.pos == pos && t.error == Leave && t.refs == Leave
    requires (t.onward.ThenStart? && t.onward.step == step) || t == StartStep(pos, step)
    requires Dispatching(cfg, h, p, t, pos, step, e.pc, w.rows, calls) && CalmReply(w, w', Ask(e), reply, outcome)
    requires DeedDone(h, e, Started(p.rows, pos, step), w, outcome)
    ensures DispatchLands(cfg, h, p, t, pos, step, Resume(cfg, e, reply, clock).pc, w'.rows,
                          if Ask(e).Invoke? then calls + [pos] else calls)
    ensures !Ask(e).GetSteps? && !Ask(e).GetRun? && (Ask(e).Invoke? ==> Ask(e).pos == pos)
  {
    var started := Started(p.rows, pos, step);
    if e.pc.Call? {
      assert h(pos, started).added[..|w.rows| - |started|] == h(pos, started).added;
      HandlerServes(cfg, h, p, t, pos, step, e, w, w', reply, clock);
    } else if e.pc.UndoHost? {
      UndoServes(cfg, h, p, t, pos, step, e, w, w', reply, outcome, clock);
    } else if Halfway(p.rows, t, e.pc, w.rows) && calls == p.calls {
      ApproachServes(cfg, h, p, t, pos, step, e, w, w', reply, outcome, clock);
    } else if e.pc.t == StartStep(pos, step) {
      ApproachServes(cfg, h, p, t, pos, step, e, w, w', reply, outcome, clock);
    } else if step.kind !in cfg.registered {
      UnregisteredServes(cfg, h, p, t, pos, step, e, w, w', reply, outcome, clock);
    } else {
      RecordServes(cfg, h, p, t, pos, step, e, w, w', reply, outcome, clock);
    }
  }

  lemma LandsMidway(env: Setting, h: Handler, p: Progress, pos: nat, step: Step,
                    pc: Pc, rows: seq<Row>, calls: seq<nat>)
    requires p.halted.None? && CalmDecision(env, p.rows).Write?
    requires Onward(CalmDecision(env, p.rows).t) == Some((pos, step))
    requires DispatchLands(env.cfg, h, p, CalmDecision(env, p.rows).t, pos, step, pc, rows, calls)
    ensures Midway(env, h, p, pc, rows, calls) || Landed(Advance(env, h, p), pc, rows, calls)
  {
    DecidedTransition(env, p.rows);
  }

  lemma MidwayServes(env: Setting, h: Handler, p: Progress, e: Engine, w: World, w': World,
                     reply: Reply, outcome: Outcome, clock: real, calls: seq<nat>)
    requires NeverPrepares(h) && Midway(env, h, p, e.pc, w.rows, calls)
    requires CalmReply(w, w', Ask(e), reply, outcome)
    requires Onward(CalmDecision(env, p.rows).t).Some? ==>
               var (pos, step) := Onward(CalmDecision(env, p.rows).t).value;
               DeedDone(h, e, Started(p.rows, pos, step), w, outcome)
    ensures var pc := Resume(env.cfg, e, reply, clock).pc;
            var calls' := if Ask(e).Invoke? then calls + [Ask(e).pos] else calls;
            Midway(env, h, p, pc, w'.rows, calls') || Landed(Advance(env, h, p), pc, w'.rows, calls')
    ensures !Ask(e).GetSteps? && !Ask(e).GetRun?
  {
    var t := CalmDecision(env, p.rows).t;
    match Onward(t)
    case None => PlainServes(env, h, p, e, w, w', reply, outcome, clock, calls);
    case Some((pos, step)) =>
      DispatchServes(env.cfg, h, p, t, pos, step, e, w, w', reply, outcome, clock, calls);
      LandsMidway(env, h, p, pos, step, Resume(env.cfg, e, reply, clock).pc, w'.rows,
                  if Ask(e).Invoke? then calls + [pos] else calls);
  }

  lemma HeldStays(cfg: Config, e: Engine, reply: Reply, clock: real)
    requires !e.pc.Resting?
    ensures Resume(cfg, e, reply, clock).held == e.held
    ensures !e.pc.ReadRun? ==> !Resume(cfg, e, reply, clock).pc.ReadSteps?
  {
  }

  // ---- the simulation ----

  /** In a handler call the rows at hand are those the handler was called with. */
  lemma BaseIsStarted(env: Setting, h: Handler, init: Run, s: State, p: Progress)
    requires Sim(env, h, init, s, p) && s.e.pc.Call?
    ensures var d := CalmDecision(env, p.rows);
            && d.Write? && Onward(d.t) == Some((s.e.pc.pos, s.e.pc.step)) && s.e.pc.pos < |p.rows|
            && Base(s) == Started(p.rows, s.e.pc.pos, s.e.pc.step)
            && Acting(h, Base(s), s.e.pc.pos, s.w.rows)
            && s.e.pc.step.kind in env.cfg.registered && CallsOf(s.trace) == p.calls
  {
    var started := Started(p.rows, s.e.pc.pos, s.e.pc.step);
    assert s.w.rows[..|started|] == started;
  }

  lemma ActingGrows(h: Handler, started: seq<Row>, pos: nat, rows: seq<Row>, step: Step)
    requires Acting(h, started, pos, rows)
    requires |rows| < |started| + |h(pos, started).added| && step == h(pos, started).added[|rows| - |started|]
    ensures Acting(h, started, pos, rows + [Row(step, None, None)])
  {
    var added, k := h(pos, started).added, |rows| - |started|;
    assert NewRows(added[..k + 1]) == NewRows(added[..k]) + [Row(step, None, None)];
  }

  lemma SimMove(env: Setting, h: Handler, init: Run, s: State, m: HostMove, p: Progress)
    requires Sim(env, h, init, s, p) && CalmInput(env, h, s, Move(m))
    ensures Sim(env, h, init, Next(env.cfg, s, Move(m)), p)
  {
    LastSnoc(s.trace, Host(m), init);
    CallsSnoc(s.trace, Host(m));
    assert CallsOf(s.trace) + [] == CallsOf(s.trace);
    if m.AddStep? {
      BaseIsStarted(env, h, init, s, p);
      ActingGrows(h, Base(s), s.e.pc.pos, s.w.rows, m.added);
    }
  }

  lemma SimBegin(env: Setting, h: Handler, init: Run, s: State, p: Progress)
    requires Sim(env, h, init, s, p) && CalmInput(env, h, s, Begin)
    ensures Sim(env, h, init, Next(env.cfg, s, Begin), p)
  {
    LastSnoc(s.trace, Began(s.w.run), init);
    CallsSnoc(s.trace, Began(s.w.run));
  }

  /** The pass's decision: the chain's, unless a tighter budget stops it first. */
  lemma SimDecides(env: Setting, h: Handler, init: Run, s: State, t: State, a: Act, elapsed: real, p: Progress)
    returns (p': Progress)
    requires Steadily(env, init, s) && Resumable(env, init, s, p) && s.e.pc.ReadSteps?
    requires a.Called? && a.req.GetSteps? && a.reply == StepRows(Views(s.w.rows)) && t.trace == s.trace + [a]
    requires t.w.rows == s.w.rows && t.w.run == s.w.run && t.e.held == s.e.held
    requires t.e.pc == Decide(env.cfg.cat, s.e.pc.current.value, Views(s.w.rows), elapsed)
    ensures Sim(env, h, init, t, p') && (p' == p || p' == Advance(env, h, p))
  {
    LastSnoc(s.trace, a, init);
    CallsSnoc(s.trace, a);
    assert CallsOf(s.trace) + [] == CallsOf(s.trace);
    DecideCalmly(env, s.e.pc.current.value, Views(s.w.rows), elapsed);
    DecidedTransition(env, p.rows);
    DecisionAdvances(env, h, p);
    p' := if Over(t.e.pc) then Advance(env, h, p) else p;
  }

  /** A served callback in the middle of a beat leaves the system midway, or lands it where the chain is. */
  lemma SimLands(env: Setting, h: Handler, init: Run, s: State, t: State, a: Act, p: Progress) returns (p': Progress)
    requires Steadily(env, init, s) && |LastSteps(s.trace)| == |p.rows|
    requires a.Called? && !a.req.GetSteps? && !a.req.GetRun? && t.trace == s.trace + [a]
    requires Steady(env, t.w.run) && t.e.held == s.e.held
    requires var calls := if a.req.Invoke? then CallsOf(s.trace) + [a.req.pos] else CallsOf(s.trace);
             (Midway(env, h, p, t.e.pc, t.w.rows, calls) || Landed(Advance(env, h, p), t.e.pc, t.w.rows, calls))
    ensures Sim(env, h, init, t, p') && (p' == p || p' == Advance(env, h, p))
  {
    LastSnoc(s.trace, a, init);
    CallsSnoc(s.trace, a);
    assert CallsOf(s.trace) + [] == CallsOf(s.trace);
    if Between(t.e.pc) || Over(t.e.pc) {
      p' := Advance(env, h, p);
      MidwayElsewhere(env, h, p, t.e.pc, t.w.rows, CallsOf(t.trace));
    } else {
      p' := p;
    }
  }

  /** Only transitions, the handler call and the roll-back happen in the middle of a beat. */
  predicate Busy(pc: Pc, rows: seq<Row>) {
    pc.Call? || pc.UndoHost? || (pc.Write? && pc.t.pos < |rows|) || pc.Log?
  }

  lemma DispatchingIsBusy(cfg: Config, h: Handler, p: Progress, t: Transition, pos: nat, step: Step,
                          pc: Pc, rows: seq<Row>, calls: seq<nat>)
    requires pos < |p.rows| && t.pos == pos
    ensures Dispatching(cfg, h, p, t, pos, step, pc, rows, calls) ==> Busy(pc, rows)
  {
  }

  lemma MidwayElsewhere(env: Setting, h: Handler, p: Progress, pc: Pc, rows: seq<Row>, calls: seq<nat>)
    ensures Midway(env, h, p, pc, rows, calls) ==> Busy(pc, rows)
  {
    var d := CalmDecision(env, p.rows);
    if d.Write? && d.t.pos < |p.rows| && Onward(d.t).Some? {
      DispatchingIsBusy(env.cfg, h, p, d.t, d.t.pos, Onward(d.t).value.1, pc, rows, calls);
    }
  }

  lemma SimMidway(env: Setting, h: Handler, init: Run, s: State, outcome: Outcome, clock: real, p: Progress)
    returns (p': Progress)
    requires NeverPrepares(h) && Sim(env, h, init, s, p) && !s.e.pc.Resting?
    requires !Between(s.e.pc) && !Over(s.e.pc) && CalmInput(env, h, s, Serve(Served, outcome, clock))
    ensures Sim(env, h, init, Next(env.cfg, s, Serve(Served, outcome, clock)), p')
    ensures p' == p || p' == Advance(env, h, p)
  {
    var req := Ask(s.e);
    var (w', reply) := Perform(s.w, req, Served, outcome);
    MidwayElsewhere(env, h, p, s.e.pc, s.w.rows, CallsOf(s.trace));
    PerformCalmly(s.w, req, outcome);
    HeldStays(env.cfg, s.e, reply, clock);
    MidwayDeeds(env, h, init, s, outcome, clock, p);
    MidwayServes(env, h, p, s.e, s.w, w', reply, outcome, clock, CallsOf(s.trace));
    p' := SimLands(env, h, init, s, Next(env.cfg, s, Serve(Served, outcome, clock)), Act.Called(req, reply, true), p);
  }

  lemma MidwayDeeds(env: Setting, h: Handler, init: Run, s: State, outcome: Outcome, clock: real, p: Progress)
    requires Sim(env, h, init, s, p) && CalmInput(env, h, s, Serve(Served, outcome, clock))
    requires !Between(s.e.pc) && !Over(s.e.pc)
    ensures Onward(CalmDecision(env, p.rows).t).Some? ==>
              var (pos, step) := Onward(CalmDecision(env, p.rows).t).value;
              DeedDone(h, s.e, Started(p.rows, pos, step), s.w, outcome)
  {
    if s.e.pc.Call? {
      BaseIsStarted(env, h, init, s, p);
    }
  }

  lemma AsksNoWrite(e: Engine)
    requires !e.pc.Resting? && (Between(e.pc) || Over(e.pc))
    ensures !Ask(e).SetStepState?
  {
  }

  lemma SimOver(env: Setting, h: Handler, init: Run, s: State, outcome: Outcome, clock: real, p: Progress)
    requires Sim(env, h, init, s, p) && !s.e.pc.Resting? && Over(s.e.pc) && !Between(s.e.pc)
    ensures Sim(env, h, init, Next(env.cfg, s, Serve(Served, outcome, clock)), p)
  {
    var req := Ask(s.e);
    var reply := Perform(s.w, req, Served, outcome).1;
    AsksNoWrite(s.e);
    PerformCalmly(s.w, req, outcome);
    OverServes(env.cfg, s.e, reply, clock);
    CallsSnoc(s.trace, Act.Called(req, reply, true));
    assert CallsOf(s.trace) + [] == CallsOf(s.trace);
  }

  /** A pause seen by the final read leaves the chain where it is; otherwise the chain has halted. */
  lemma SimFinished(env: Setting, h: Handler, init: Run, s: State, t: State, a: Act, p: Progress)
    returns (p': Progress)
    requires Steadily(env, init, s) && Resumable(env, init, s, p)
    requires a.Called? && a.req.GetRun? && t.trace == s.trace + [a]
    requires t.w.rows == s.w.rows && Steady(env, t.w.run) && t.e.held == s.e.held
    requires t.e.pc == Drain(Quit(Stopped)) || t.e.pc.CompleteStatus?
    ensures Sim(env, h, init, t, p')
    ensures p' == p || p' == Progress(p.rows, p.calls, Some(AllDone))
  {
    CallsSnoc(s.trace, a);
    assert CallsOf(s.trace) + [] == CallsOf(s.trace);
    p' := if t.e.pc.CompleteStatus? then Progress(p.rows, p.calls, Some(AllDone)) else p;
  }

  lemma SimFinal(env: Setting, h: Handler, init: Run, s: State, outcome: Outcome, clock: real, p: Progress)
    returns (p': Progress)
    requires Sim(env, h, init, s, p) && s.e.pc.FinalRead?
    ensures Sim(env, h, init, Next(env.cfg, s, Serve(Served, outcome, clock)), p')
    ensures p' == p || p' == Progress(p.rows, p.calls, Some(AllDone))
  {
    var reply := Perform(s.w, GetRun, Served, outcome).1;
    PerformCalmly(s.w, GetRun, outcome);
    FinalServes(env.cfg, s.e, reply, clock);
    p' := SimFinished(env, h, init, s, Next(env.cfg, s, Serve(Served, outcome, clock)),
                      Act.Called(GetRun, reply, true), p);
  }

  lemma SimBetween(env: Setting, h: Handler, init: Run, s: State, outcome: Outcome, clock: real, p: Progress)
    requires Sim(env, h, init, s, p) && Between(s.e.pc)
    requires !s.e.pc.Resting? && !s.e.pc.ReadSteps? && !s.e.pc.FinalRead?
    ensures Sim(env, h, init, Next(env.cfg, s, Serve(Served, outcome, clock)), p)
  {
    var req := Ask(s.e);
    var reply := Perform(s.w, req, Served, outcome).1;
    AsksNoWrite(s.e);
    PerformCalmly(s.w, req, outcome);
    BetweenServes(env.cfg, s.e, reply, clock);
    LastSnoc(s.trace, Act.Called(req, reply, true), init);
    CallsSnoc(s.trace, Act.Called(req, reply, true));
    assert CallsOf(s.trace) + [] == CallsOf(s.trace);
  }

  /** A served reading of the steps decides the pass and changes nothing else. */
  lemma ReadsServes(cfg: Config, s: State, outcome: Outcome, clock: real)
    requires s.e.pc.ReadSteps?
    ensures var t := Next(cfg, s, Serve(Served, outcome, clock));
            && t.w == s.w && t.trace == s.trace + [Called(GetSteps, StepRows(Views(s.w.rows)), true)]
            && t.e.held == s.e.held
            && t.e.pc == Decide(cfg.cat, View(s.e.held, s.e.pc.current), Views(s.w.rows), clock - s.e.started)
  {
  }

  lemma SimReads(env: Setting, h: Handler, init: Run, s: State, outcome: Outcome, clock: real, p: Progress)
    returns (p': Progress)
    requires Sim(env, h, init, s, p) && s.e.pc.ReadSteps?
    ensures Sim(env, h, init, Next(env.cfg, s, Serve(Served, outcome, clock)), p')
    ensures p' == p || p' == Advance(env, h, p)
  {
    ReadsServes(env.cfg, s, outcome, clock);
    p' := SimDecides(env, h, init, s, Next(env.cfg, s, Serve(Served, outcome, clock)),
                     Act.Called(GetSteps, StepRows(Views(s.w.rows)), true), clock - s.e.started, p);
  }

  lemma SimServe(env: Setting, h: Handler, init: Run, s: State, outcome: Outcome, clock: real, p: Progress)
    returns (p': Progress)
    requires NeverPrepares(h) && Sim(env, h, init, s, p) && CalmInput(env, h, s, Serve(Served, outcome, clock))
    ensures Sim(env, h, init, Next(env.cfg, s, Serve(Served, outcome, clock)), p')
    ensures p' == p || p' == Advance(env, h, p)
  {
    p' := p;
    if !s.e.pc.Resting? {
      if s.e.pc.ReadSteps? {
        p' := SimReads(env, h, init, s, outcome, clock, p);
      } else if s.e.pc.FinalRead? {
        p' := SimFinal(env, h, init, s, outcome, clock, p);
        FinalHalts(env, h, p);
      } else if Between(s.e.pc) {
        SimBetween(env, h, init, s, outcome, clock, p);
      } else if Over(s.e.pc) {
        SimOver(env, h, init, s, outcome, clock, p);
      } else {
        p' := SimMidway(env, h, init, s, outcome, clock, p);
      }
    }
  }

  lemma SimStep(env: Setting, h: Handler, init: Run, s: State, i: Input, p: Progress) returns (p': Progress)
    requires NeverPrepares(h) && Sim(env, h, init, s, p) && CalmInput(env, h, s, i)
    ensures Sim(env, h, init, Next(env.cfg, s, i), p')
    ensures p' == p || p' == Advance(env, h, p)
  {
    match i
    case Move(m) => SimMove(env, h, init, s, m, p); p' := p;
    case Begin => SimBegin(env, h, init, s, p); p' := p;
    case Serve(_, outcome, clock) => p' := SimServe(env, h, init, s, outcome, clock, p);
  }

  lemma {:induction false} SimAlong(env: Setting, h: Handler, init: World, s: State, ins: seq<Input>, n: nat)
    returns (n': nat)
    requires NeverPrepares(h) && CalmAlong(env, h, s, ins)
    requires Sim(env, h, init.run, s, Chain(env, h, init.rows, n))
    ensures Sim(env, h, init.run, RunAll(env.cfg, s, ins), Chain(env, h, init.rows, n'))
    decreases |ins|
  {
    n' := n;
    if |ins| > 0 {
      var p := Chain(env, h, init.rows, n);
      var p' := SimStep(env, h, init.run, s, ins[0], p);
      if p' == p {
        n' := SimAlong(env, h, init, Next(env.cfg, s, ins[0]), ins[1..], n);
      } else {
        assert Chain(env, h, init.rows, n + 1) == Advance(env, h, p);
        n' := SimAlong(env, h, init, Next(env.cfg, s, ins[0]), ins[1..], n + 1);
      }
    }
  }

  /** From any world, over any drives a calm host cuts and resumes, the system stands where the chain does. */
  lemma EngineFollowsChain(env: Setting, h: Handler, w: World, ins: seq<Input>) returns (n: nat)
    requires NeverPrepares(h) && Steady(env, w.run) && CalmAlong(env, h, Start(w), ins)
    ensures Sim(env, h, w.run, RunAll(env.cfg, Start(w), ins), Chain(env, h, w.rows, n))
  {
    n := SimAlong(env, h, w, Start(w), ins, 0);
  }
}
