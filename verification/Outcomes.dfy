/**
 No terminal step state without an authoritative outcome. Every state the engine writes for a step is
 justified by what the same pass has seen: the handler's own answer, or the gate that decided before it.
 */
module Outcomes {
  import opened Basics
  import opened Policies
  import opened Model
  import opened Engine
  import opened System
  import opened Gates

  /** The handler answer of the current pass, if its handler has been called; a new reading of the steps forgets it. */
  function LastAnswer(trace: seq<Act>): Option<(nat, Outcome)> {
    if |trace| == 0 then None
    else
      var a := trace[|trace| - 1];
      if a.Began? || (a.Called? && a.req.GetSteps?) then None
      else if a.Called? && a.req.Invoke? && a.reply.Answered? then Some((a.req.pos, a.reply.outcome))
      else LastAnswer(trace[..|trace| - 1])
  }

  lemma AnswerSnoc(trace: seq<Act>, a: Act)
    ensures LastAnswer(trace + [a]) ==
            if a.Began? || (a.Called? && a.req.GetSteps?) then None
            else if a.Called? && a.req.Invoke? && a.reply.Answered? then Some((a.req.pos, a.reply.outcome))
            else LastAnswer(trace)
  {
    assert (trace + [a])[..|trace|] == trace;
  }

  /** The step may be skipped unrun: it is this pass's first unfinished step, not started, and lacks its grant. */
  ghost predicate Ungranted(cat: Catalogue, view: Run, steps: seq<Step>, pos: nat) {
    && FirstUnfinished(steps) == Some(pos)
    && (steps[pos].status.Pending? || steps[pos].status.Awaiting? || steps[pos].status.Approved?)
    && MissingGrant(cat, steps[pos].kind, view.grants).Some?
  }

  /** What must have been seen for a state write, and what it does to the step's error and references. */
  ghost predicate Justified(cfg: Config, view: Run, steps: seq<Step>, answer: Option<(nat, Outcome)>,
                            pos: nat, to: StepStatus, error: Update<string>, refs: Update<Refs>)
  {
    match to
    case Completed =>
      answer.Some? && answer.value.0 == pos && answer.value.1.Finished? && error == Put(None)
      && refs == Put(if answer.value.1.refs == Some(map[]) then None else answer.value.1.refs)
    case Failed =>
      && refs == Leave && error.Put? && error.value.Some?
      && (if answer.Some? then
            answer.value.0 == pos
            && ((answer.value.1.Erred? && answer.value.1.message == error.value.value)
                || (answer.value.1.Crashed? && answer.value.1.message == error.value.value))
          else pos < |steps| && steps[pos].kind !in cfg.registered)
    case Skipped =>
      && refs == Leave && error == Put(None)
      && (if answer.Some? then answer.value.0 == pos && answer.value.1.NotApplicable?
          else Ungranted(cfg.cat, view, steps, pos))
    case _ =>
      && answer.None? && error == Leave && refs == Leave
      && (to.Running? || (to.Awaiting? && Held(cfg.cat, view, steps, pos))
          || (to.Approved? && Released(cfg.cat, view, steps, pos)))
  }

  /** The pending step is held at its gate. */
  ghost predicate Held(cat: Catalogue, view: Run, steps: seq<Step>, pos: nat) {
    FirstUnfinished(steps) == Some(pos) && steps[pos].status.Pending? && ResolveGate(cat, view, steps[pos]).2
  }

  /** The step was gated and its gate lets it through: planner-flagged, waiting, or cleared by pre-approval. */
  ghost predicate Released(cat: Catalogue, view: Run, steps: seq<Step>, pos: nat) {
    && FirstUnfinished(steps) == Some(pos) && !ResolveGate(cat, view, steps[pos]).2
    && (steps[pos].status.Awaiting? || (steps[pos].status.Pending? &&
          (steps[pos].requiresApproval || PreapprovedGate(cat, view, steps[pos]))))
  }

  ghost predicate JustifiedTransition(cfg: Config, view: Run, steps: seq<Step>, answer: Option<(nat, Outcome)>,
                                      t: Transition)
  {
    Justified(cfg, view, steps, answer, t.pos, t.to, t.error, t.refs)
  }

  /** What each control state has seen in its pass. */
  ghost predicate Seen(cfg: Config, view: Run, steps: seq<Step>, answer: Option<(nat, Outcome)>, pc: Pc) {
    match pc
    case Write(t) => JustifiedTransition(cfg, view, steps, answer, t) && Underway(steps, answer, t)
    case Log(t) => Underway(steps, answer, t)
    case Call(pos, step) => answer.None? && pos < |steps| && steps[pos] == step
    case UndoHost(pos, kind, message) => answer == Some((pos, Crashed(message)))
    case _ => true
  }

  /** On the way to the handler nothing has been answered yet. */
  ghost predicate Underway(steps: seq<Step>, answer: Option<(nat, Outcome)>, t: Transition) {
    && (t.onward.ThenStart? ==> answer.None? && t.pos < |steps| && steps[t.pos] == t.onward.step)
    && (t.onward.ThenCall? ==> answer.None? && t.pos < |steps| && steps[t.pos] == t.onward.step)
  }

  lemma DecideSees(cfg: Config, view: Run, steps: seq<Step>, elapsed: real)
    ensures Seen(cfg, view, steps, None, Decide(cfg.cat, view, steps, elapsed))
  {
  }

  lemma ResumeSees(cfg: Config, e: Engine, reply: Reply, clock: real, view: Run, steps: seq<Step>,
                   answer: Option<(nat, Outcome)>)
    requires !e.pc.Resting? && !e.pc.ReadSteps? && Seen(cfg, view, steps, answer, e.pc)
    ensures var answer' := if Ask(e).Invoke? && reply.Answered? then Some((Ask(e).pos, reply.outcome)) else answer;
            Seen(cfg, view, steps, answer', Resume(cfg, e, reply, clock).pc)
    ensures Ask(e).GetRun? ==> forall v :: Seen(cfg, v, steps, answer, Resume(cfg, e, reply, clock).pc)
    ensures !Ask(e).GetSteps?
  {
  }

  ghost predicate WritesJustified(cfg: Config, trace: seq<Act>, init: Run) {
    forall k :: 0 <= k < |trace| && trace[k].Called? && trace[k].req.SetStepState? ==>
      Justified(cfg, LastView(trace[..k], init), LastSteps(trace[..k]), LastAnswer(trace[..k]),
                trace[k].req.pos, trace[k].req.to, trace[k].req.error, trace[k].req.refs)
  }

  lemma JustifiedSnoc(cfg: Config, trace: seq<Act>, a: Act, init: Run)
    requires WritesJustified(cfg, trace, init)
    requires a.Called? && a.req.SetStepState? ==>
               Justified(cfg, LastView(trace, init), LastSteps(trace), LastAnswer(trace),
                         a.req.pos, a.req.to, a.req.error, a.req.refs)
    ensures WritesJustified(cfg, trace + [a], init)
  {
    assert (trace + [a])[..|trace|] == trace;
    assert forall k :: 0 <= k < |trace| ==> (trace + [a])[..k] == trace[..k];
  }

  ghost predicate OutcomeInv(cfg: Config, s: State, init: Run) {
    && WritesJustified(cfg, s.trace, init)
    && (!s.e.pc.Resting? ==> s.e.held == LastHeld(s.trace, init))
    && (s.e.pc.ReadSteps? ==> View(s.e.held, s.e.pc.current) == LastView(s.trace, init))
    && Seen(cfg, LastView(s.trace, init), LastSteps(s.trace), LastAnswer(s.trace), s.e.pc)
  }

  lemma OutcomeServed(cfg: Config, s: State, t: State, a: Act, clock: real, init: Run)
    requires OutcomeInv(cfg, s, init) && !s.e.pc.Resting?
    requires a.Called? && a.req == Ask(s.e) && t.trace == s.trace + [a] && t.e == Resume(cfg, s.e, a.reply, clock)
    ensures OutcomeInv(cfg, t, init)
  {
    HeadingCarried(cfg, s.e, a.reply, clock);
    LastSnoc(s.trace, a, init);
    AnswerSnoc(s.trace, a);
    JustifiedSnoc(cfg, s.trace, a, init);
    if s.e.pc.ReadSteps? {
      if a.reply.StepRows? {
        DecideSees(cfg, View(s.e.held, s.e.pc.current), a.reply.steps, clock - s.e.started);
      }
    } else {
      ResumeSees(cfg, s.e, a.reply, clock, LastView(s.trace, init), LastSteps(s.trace), LastAnswer(s.trace));
    }
  }

  lemma OutcomeStep(cfg: Config, s: State, i: Input, init: Run)
    requires OutcomeInv(cfg, s, init)
    ensures OutcomeInv(cfg, Next(cfg, s, i), init)
  {
    match i
    case Move(m) =>
      LastSnoc(s.trace, Host(m), init);
      AnswerSnoc(s.trace, Host(m));
      JustifiedSnoc(cfg, s.trace, Host(m), init);
    case Begin =>
      LastSnoc(s.trace, Began(s.w.run), init);
      AnswerSnoc(s.trace, Began(s.w.run));
      JustifiedSnoc(cfg, s.trace, Began(s.w.run), init);
    case Serve(answer, outcome, clock) =>
      if !s.e.pc.Resting? {
        var reply := Perform(s.w, Ask(s.e), answer, outcome).1;
        OutcomeServed(cfg, s, Next(cfg, s, i), Called(Ask(s.e), reply, Ask(s.e).Invoke? || !answer.Refused?),
                      clock, init);
      }
  }

  lemma {:induction false} OutcomeAlong(cfg: Config, s: State, ins: seq<Input>, init: Run)
    requires OutcomeInv(cfg, s, init)
    ensures OutcomeInv(cfg, RunAll(cfg, s, ins), init)
    decreases |ins|
  {
    if |ins| > 0 {
      OutcomeStep(cfg, s, ins[0], init);
      OutcomeAlong(cfg, Next(cfg, s, ins[0]), ins[1..], init);
    }
  }

  /**
   Every step state the engine ever writes, over all drives and hosts: `completed` and `failed` only on the
   answer of the step's own handler in the same pass (or `failed` for a type with no handler), `skipped` only
   when the handler declined or the fresh run lacks the grant, `awaiting_approval` and `approved` only as the
   gate decides; an unobserved outcome writes nothing.
   */
  lemma EveryWriteIsJustified(cfg: Config, w: World, ins: seq<Input>, k: nat)
    requires var t := RunAll(cfg, Start(w), ins).trace; k < |t| && t[k].Called? && t[k].req.SetStepState?
    ensures var t := RunAll(cfg, Start(w), ins).trace;
            Justified(cfg, LastView(t[..k], w.run), LastSteps(t[..k]), LastAnswer(t[..k]),
                      t[k].req.pos, t[k].req.to, t[k].req.error, t[k].req.refs)
  {
    OutcomeAlong(cfg, Start(w), ins, w.run);
  }

  /** A step is parked for approval only when the fresh settings do not let it run unreviewed. */
  lemma ParkedForReview(cfg: Config, w: World, ins: seq<Input>, k: nat)
    requires var t := RunAll(cfg, Start(w), ins).trace;
             k < |t| && t[k].Called? && t[k].req.SetStepState? && t[k].req.to.Awaiting?
    ensures var t := RunAll(cfg, Start(w), ins).trace;
            var steps, pos := LastSteps(t[..k]), t[k].req.pos;
            && FirstUnfinished(steps) == Some(pos) && steps[pos].status.Pending?
            && !RunsUnreviewed(cfg.cat, LastView(t[..k], w.run), steps[pos])
  {
    EveryWriteIsJustified(cfg, w, ins, k);
    var t := RunAll(cfg, Start(w), ins).trace;
    StopsUnlessUnreviewed(cfg.cat, LastView(t[..k], w.run), LastSteps(t[..k])[t[k].req.pos]);
  }
}
