/**
 The gates over whole runs. Whatever the host does between callbacks, every handler call is for the
 first unfinished step the same pass read, under the grants, budget and approval rules of the run
 record the same pass read.
 */
module Gates {
  import opened Basics
  import opened Policies
  import opened Model
  import opened Engine
  import opened System

  /** The run object the latest drive was given. */
  function LastHeld(trace: seq<Act>, init: Run): Run {
    if |trace| == 0 then init
    else
      var a := trace[|trace| - 1];
      if a.Began? then a.held else LastHeld(trace[..|trace| - 1], init)
  }

  /** The run record of the latest read, or the held object when that read found no run. */
  function LastView(trace: seq<Act>, init: Run): Run {
    if |trace| == 0 then init
    else
      var a, front := trace[|trace| - 1], trace[..|trace| - 1];
      if a.Began? then a.held
      else if a.Called? && a.req.GetRun? && a.reply.RunRow? then View(LastHeld(front, init), a.reply.run)
      else LastView(front, init)
  }

  /** The step list of the latest read. */
  function LastSteps(trace: seq<Act>): seq<Step> {
    if |trace| == 0 then []
    else
      var a := trace[|trace| - 1];
      if a.Called? && a.req.GetSteps? && a.reply.StepRows? then a.reply.steps
      else LastSteps(trace[..|trace| - 1])
  }

  predicate WithinStepBudget(view: Run, steps: seq<Step>) {
    PositiveInt(view.maxSteps).Some? ==> ExecutedCount(steps) < PositiveInt(view.maxSteps).value
  }

  /** All gates are open for the step at `pos`: its turn, permitted, within budget, and not held for review. */
  ghost predicate Cleared(cat: Catalogue, view: Run, steps: seq<Step>, pos: nat, seen: Step) {
    && FirstUnfinished(steps) == Some(pos)
    && steps[pos] == seen
    && !seen.status.Failed? && !seen.status.Unrecognized?
    && MissingGrant(cat, seen.kind, view.grants).None?
    && WithinStepBudget(view, steps)
    && (seen.status.Pending? || seen.status.Awaiting? ==> !ResolveGate(cat, view, seen).2)
  }

  /** The dispatch a control state is heading for: approve, start, or the handler call itself. */
  function Heading(pc: Pc): Option<(nat, Step)> {
    match pc
    case Write(t) => Onward(t)
    case Log(t) => Onward(t)
    case Call(pos, step) => Some((pos, step))
    case _ => None
  }

  function Onward(t: Transition): Option<(nat, Step)> {
    match t.onward
    case ThenStart(step) => Some((t.pos, step))
    case ThenCall(step) => Some((t.pos, step))
    case _ => None
  }

  lemma DecideClears(cat: Catalogue, view: Run, steps: seq<Step>, elapsed: real)
    ensures var heading := Heading(Decide(cat, view, steps, elapsed));
            heading.Some? ==> Cleared(cat, view, steps, heading.value.0, heading.value.1)
  {
  }

  /** Outside the pass's decision a dispatch is only carried forward. */
  lemma HeadingCarried(cfg: Config, e: Engine, reply: Reply, clock: real)
    requires !e.pc.Resting?
    ensures var e' := Resume(cfg, e, reply, clock);
            && e'.held == e.held
            && (e.pc.ReadRun? && e'.pc.ReadSteps? ==>
                  Ask(e).GetRun? && reply.RunRow? && e'.pc.current == reply.run)
            && (!e.pc.ReadRun? ==> !e'.pc.ReadSteps?)
            && (e.pc.ReadSteps? ==>
                  && Ask(e).GetSteps?
                  && (e'.pc == Resting(StoreFailed(e.pc))
                      || (reply.StepRows?
                          && e'.pc == Decide(cfg.cat, View(e.held, e.pc.current), reply.steps, clock - e.started))))
            && (!e.pc.ReadSteps? && Heading(e'.pc).Some? ==>
                  Heading(e'.pc) == Heading(e.pc) && !Ask(e).GetRun? && !Ask(e).GetSteps?)
            && (Ask(e).Invoke? ==> Heading(e.pc) == Some((Ask(e).pos, Ask(e).seen)))
  {
  }

  ghost predicate CallsCleared(cfg: Config, trace: seq<Act>, init: Run) {
    forall k :: 0 <= k < |trace| && trace[k].Called? && trace[k].req.Invoke? ==>
      Cleared(cfg.cat, LastView(trace[..k], init), LastSteps(trace[..k]), trace[k].req.pos, trace[k].req.seen)
  }

  ghost predicate GateInv(cfg: Config, s: State, init: Run) {
    && CallsCleared(cfg, s.trace, init)
    && (!s.e.pc.Resting? ==> s.e.held == LastHeld(s.trace, init))
    && (s.e.pc.ReadSteps? ==> View(s.e.held, s.e.pc.current) == LastView(s.trace, init))
    && (!s.e.pc.Resting? && Heading(s.e.pc).Some? ==>
          Cleared(cfg.cat, LastView(s.trace, init), LastSteps(s.trace),
                  Heading(s.e.pc).value.0, Heading(s.e.pc).value.1))
  }

  lemma LastSnoc(trace: seq<Act>, a: Act, init: Run)
    ensures LastHeld(trace + [a], init) == if a.Began? then a.held else LastHeld(trace, init)
    ensures LastView(trace + [a], init) ==
            if a.Began? then a.held
            else if a.Called? && a.req.GetRun? && a.reply.RunRow? then View(LastHeld(trace, init), a.reply.run)
            else LastView(trace, init)
    ensures LastSteps(trace + [a]) ==
            if a.Called? && a.req.GetSteps? && a.reply.StepRows? then a.reply.steps else LastSteps(trace)
  {
    assert (trace + [a])[..|trace|] == trace;
  }

  lemma ClearedSnoc(cfg: Config, trace: seq<Act>, a: Act, init: Run)
    requires CallsCleared(cfg, trace, init)
    requires a.Called? && a.req.Invoke? ==>
               Cleared(cfg.cat, LastView(trace, init), LastSteps(trace), a.req.pos, a.req.seen)
    ensures CallsCleared(cfg, trace + [a], init)
  {
    assert (trace + [a])[..|trace|] == trace;
    assert forall k :: 0 <= k < |trace| ==> (trace + [a])[..k] == trace[..k];
  }

  lemma GateServed(cfg: Config, s: State, t: State, a: Act, clock: real, init: Run)
    requires GateInv(cfg, s, init) && !s.e.pc.Resting?
    requires a.Called? && a.req == Ask(s.e) && t.trace == s.trace + [a] && t.e == Resume(cfg, s.e, a.reply, clock)
    ensures GateInv(cfg, t, init)
  {
    HeadingCarried(cfg, s.e, a.reply, clock);
    LastSnoc(s.trace, a, init);
    ClearedSnoc(cfg, s.trace, a, init);
    if s.e.pc.ReadSteps? && a.reply.StepRows? {
      DecideClears(cfg.cat, View(s.e.held, s.e.pc.current), a.reply.steps, clock - s.e.started);
    }
  }

  lemma GateStep(cfg: Config, s: State, i: Input, init: Run)
    requires GateInv(cfg, s, init)
    ensures GateInv(cfg, Next(cfg, s, i), init)
  {
    match i
    case Move(m) =>
      LastSnoc(s.trace, Host(m), init);
      ClearedSnoc(cfg, s.trace, Host(m), init);
    case Begin =>
      LastSnoc(s.trace, Began(s.w.run), init);
      ClearedSnoc(cfg, s.trace, Began(s.w.run), init);
    case Serve(answer, outcome, clock) =>
      if !s.e.pc.Resting? {
        var reply := Perform(s.w, Ask(s.e), answer, outcome).1;
        GateServed(cfg, s, Next(cfg, s, i), Called(Ask(s.e), reply, Ask(s.e).Invoke? || !answer.Refused?), clock, init);
      }
  }

  lemma {:induction false} GateAlong(cfg: Config, s: State, ins: seq<Input>, init: Run)
    requires GateInv(cfg, s, init)
    ensures GateInv(cfg, RunAll(cfg, s, ins), init)
    decreases |ins|
  {
    if |ins| > 0 {
      GateStep(cfg, s, ins[0], init);
      GateAlong(cfg, Next(cfg, s, ins[0]), ins[1..], init);
    }
  }

  /**
   Every handler call in every run, over any drives and under any host: the run record and the step
   list the same pass read clear the step through all the gates, from `approved` and `running` too.
   */
  lemma EveryCallIsCleared(cfg: Config, w: World, ins: seq<Input>, k: nat)
    requires var t := RunAll(cfg, Start(w), ins).trace; k < |t| && t[k].Called? && t[k].req.Invoke?
    ensures var t := RunAll(cfg, Start(w), ins).trace;
            Cleared(cfg.cat, LastView(t[..k], w.run), LastSteps(t[..k]), t[k].req.pos, t[k].req.seen)
  {
    GateAlong(cfg, Start(w), ins, w.run);
  }

  // ---- what a cleared call means, in the terms of the stored values ----

  /** A stored value lists a key only when it is an array that holds it as a string. */
  predicate Lists(stored: Json, text: string) {
    stored.JArr? && JStr(text) in stored.items
  }

  predicate Unstarted(status: StepStatus) {
    status.Pending? || status.Awaiting?
  }

  /** The stored settings let a pending or awaiting step of this kind run unreviewed. */
  predicate RunsUnreviewed(cat: Catalogue, view: Run, step: Step) {
    match view.policy
    case None => !step.requiresApproval || view.autoApprove
    case Some(policy) =>
      if step.kind in cat.tiers && cat.tiers[step.kind].HardGated? then
        policy == "auto_complete" && step.kind in cat.preapprovable && Lists(view.preapproved, step.kind)
      else
        policy == "auto_complete"
        || (step.kind in cat.tiers && cat.tiers[step.kind].AutoSafe? && !step.requiresApproval)
  }

  lemma ListsMembers(stored: Json, text: string)
    ensures text in StringMembers(stored) <==> Lists(stored, text)
  {
    if Lists(stored, text) {
      assert JStr(text).text in StringMembers(stored);
    }
  }

  /** The approval matrix: a step is stopped exactly when the stored settings do not let it run unreviewed. */
  lemma StopsUnlessUnreviewed(cat: Catalogue, view: Run, step: Step)
    ensures ResolveGate(cat, view, step).2 <==> !RunsUnreviewed(cat, view, step)
  {
    ListsMembers(view.preapproved, step.kind);
  }

  /**
   Every handler call in every run, told from the stored values alone: a gated type's grant is listed in the
   fresh run, and a step that was pending or awaiting is one the fresh settings let run unreviewed.
   */
  lemma CallsKeepToStoredSettings(cfg: Config, w: World, ins: seq<Input>, k: nat)
    requires var t := RunAll(cfg, Start(w), ins).trace; k < |t| && t[k].Called? && t[k].req.Invoke?
    ensures var t := RunAll(cfg, Start(w), ins).trace;
            var view, step := LastView(t[..k], w.run), t[k].req.seen;
            && (step.kind in cfg.cat.grants ==> Lists(view.grants, cfg.cat.grants[step.kind]))
            && (Unstarted(step.status) ==> RunsUnreviewed(cfg.cat, view, step))
  {
    EveryCallIsCleared(cfg, w, ins, k);
    var t := RunAll(cfg, Start(w), ins).trace;
    var view, step := LastView(t[..k], w.run), t[k].req.seen;
    if step.kind in cfg.cat.grants {
      ListsMembers(view.grants, cfg.cat.grants[step.kind]);
    }
    StopsUnlessUnreviewed(cfg.cat, view, step);
  }

  /** No budget stands in the way: a positive step budget is above the executed steps, a wall budget above the time. */
  predicate WithinBudget(view: Run, steps: seq<Step>, elapsed: real) {
    && (view.maxSteps.JInt? && view.maxSteps.number > 0 ==> ExecutedCount(steps) < view.maxSteps.number)
    && (view.maxSteps == JBool(true) ==> ExecutedCount(steps) < 1)
    && (view.maxWall.JInt? && view.maxWall.number > 0 ==> elapsed < view.maxWall.number as real)
    && (view.maxWall == JBool(true) ==> elapsed < 1.0)
  }

  /** A pass stops for the budget exactly when its permitted, unfailed first unfinished step finds a budget spent. */
  lemma BudgetStopsExactly(cat: Catalogue, view: Run, steps: seq<Step>, elapsed: real)
    ensures Decide(cat, view, steps, elapsed).BudgetLog? <==>
              && FirstUnfinished(steps).Some?
              && var step := steps[FirstUnfinished(steps).value];
                 !step.status.Failed? && !step.status.Unrecognized?
                 && (step.kind in cat.grants ==> Lists(view.grants, cat.grants[step.kind]))
                 && !WithinBudget(view, steps, elapsed)
  {
    if FirstUnfinished(steps).Some? {
      var kind := steps[FirstUnfinished(steps).value].kind;
      if kind in cat.grants {
        ListsMembers(view.grants, cat.grants[kind]);
      }
    }
  }
}
