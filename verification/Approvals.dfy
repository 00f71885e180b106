/**
 Approval accounting. A hard-gated step outside the pre-approvable set is dispatched at most once
 per host approval, whatever policies and pre-approvals the run stores, so an approval is consumed
 by one generation and never carries over to a prepared one.
 */
module Approvals {
  import opened Policies
  import opened Model
  import opened Engine
  import opened System
  import opened Flight
  import opened Gates

  predicate AlwaysGated(cat: Catalogue, kind: string) {
    ClassifyStep(cat, kind).HardGated? && kind !in cat.preapprovable
  }

  /** The run always has a policy: legacy runs consult only the planner's flag. */
  predicate KeepsPolicy(i: Input) {
    i.Move? && i.move.PutRun? ==> i.move.run.policy.Some?
  }

  /** A host approval of the step. */
  predicate Approves(a: Act, pos: nat) {
    a.Host? && a.move.PutStep? && a.move.pos == pos && a.move.status.Approved?
  }

  /** A dispatch of the step, re-entries of a step found running aside. */
  predicate Dispatches(a: Act, pos: nat) {
    a.Called? && a.req.Invoke? && a.req.pos == pos && !a.req.seen.status.Running?
  }

  predicate ApprovedByEngine(a: Act, pos: nat) {
    a.Called? && a.req.SetStepState? && a.req.pos == pos && a.req.to.Approved?
  }

  function ApprovalCount(trace: seq<Act>, pos: nat): nat {
    if |trace| == 0 then 0
    else ApprovalCount(trace[..|trace| - 1], pos) + (if Approves(trace[|trace| - 1], pos) then 1 else 0)
  }

  function DispatchCount(trace: seq<Act>, pos: nat): nat {
    if |trace| == 0 then 0
    else DispatchCount(trace[..|trace| - 1], pos) + (if Dispatches(trace[|trace| - 1], pos) then 1 else 0)
  }

  lemma CountsSnoc(trace: seq<Act>, a: Act, pos: nat)
    ensures ApprovalCount(trace + [a], pos) == ApprovalCount(trace, pos) + (if Approves(a, pos) then 1 else 0)
    ensures DispatchCount(trace + [a], pos) == DispatchCount(trace, pos) + (if Dispatches(a, pos) then 1 else 0)
  {
    assert (trace + [a])[..|trace|] == trace;
  }

  /** The engine is on its way to a first entry of the step. */
  predicate InFlight(pc: Pc, pos: nat) {
    Heading(pc).Some? && Heading(pc).value.0 == pos && !Heading(pc).value.1.status.Running?
  }

  function One(b: bool): nat {
    if b then 1 else 0
  }

  /**
   The credit invariant: what has been dispatched, plus what is about to be, is covered by approvals.
   Once `running` is written the approval is spent, so a second `approved` needs a second approval.
   */
  ghost predicate Credit(cat: Catalogue, s: State, pos: nat, kind: string, initial: int) {
    var have := ApprovalCount(s.trace, pos) + initial;
    var used := DispatchCount(s.trace, pos);
    && pos < |s.w.rows| && s.w.rows[pos].step.kind == kind
    && s.w.run.policy.Some? && s.e.held.policy.Some?
    && (s.e.pc.ReadSteps? && s.e.pc.current.Some? ==> s.e.pc.current.value.policy.Some?)
    && (InFlight(s.e.pc, pos) ==> Heading(s.e.pc).value.1.status.Approved? && Starts(s.e.pc))
    && !ApprovesAt(s.e.pc, pos)
    && used + One(InFlight(s.e.pc, pos)) <= have
    && used + One(s.w.rows[pos].step.status.Approved?) + One(InFlight(s.e.pc, pos) && !s.e.pc.Write?) <= have
    && (forall k :: 0 <= k < |s.trace| ==> !ApprovedByEngine(s.trace[k], pos))
  }

  /** The approval itself is the host's: the engine's transition is the start of the step. */
  predicate Starts(pc: Pc) {
    (pc.Write? || pc.Log? ==> pc.t.to.Running? && pc.t.onward.ThenCall?)
  }

  predicate ApprovesAt(pc: Pc, pos: nat) {
    (pc.Write? && pc.t.pos == pos && pc.t.to.Approved?) || (pc.Log? && pc.t.pos == pos && pc.t.to.Approved?)
  }

  /** An always-gated step passes the approval gate only when the host left it approved or running. */
  lemma GatedNeedsApproval(cat: Catalogue, view: Run, steps: seq<Step>, elapsed: real, pos: nat)
    requires view.policy.Some? && pos < |steps| && AlwaysGated(cat, steps[pos].kind)
    ensures var pc := Decide(cat, view, steps, elapsed);
            && (InFlight(pc, pos) ==>
                  steps[pos].status.Approved? && Heading(pc).value.1 == steps[pos] && pc.Write? && Starts(pc))
            && !ApprovesAt(pc, pos)
  {
  }

  ghost predicate ApprovalResume(cfg: Config, e: Engine, e': Engine, req: Request, reply: Reply, clock: real, pos: nat)
  {
    && e'.held == e.held
    && (e'.pc.ReadSteps? ==> req.GetRun? && reply.RunRow? && e'.pc.current == reply.run)
    && (e.pc.ReadSteps? ==>
          || e'.pc == Resting(StoreFailed(e.pc))
          || (reply.StepRows? && e'.pc == Decide(cfg.cat, View(e.held, e.pc.current), reply.steps, clock - e.started)))
    && (!e.pc.ReadSteps? && !ApprovesAt(e.pc, pos) ==> !ApprovesAt(e'.pc, pos))
    && (!e.pc.ReadSteps? && InFlight(e'.pc, pos) ==>
          && InFlight(e.pc, pos) && Heading(e'.pc) == Heading(e.pc) && !req.Invoke?
          && (Starts(e.pc) ==> !e'.pc.Write? && Starts(e'.pc))
          && (e.pc.Write? ==> reply.StepRow? && req.SetStepState?))
    && (req.Invoke? ==> (InFlight(e.pc, pos) && !e.pc.Write? <==> req.pos == pos && !req.seen.status.Running?))
    && (req.SetStepState? ==> e.pc.Write? && e.pc.t.pos == req.pos && e.pc.t.to == req.to)
    && (req.SetStepState? && InFlight(e.pc, pos) ==> req.pos == pos)
  }

  lemma ResumeForApprovals(cfg: Config, e: Engine, reply: Reply, clock: real, pos: nat)
    requires !e.pc.Resting?
    ensures ApprovalResume(cfg, e, Resume(cfg, e, reply, clock), Ask(e), reply, clock, pos)
  {
  }

  lemma PerformForApprovals(w: World, req: Request, answer: Answer, outcome: Outcome)
    ensures var (w', reply) := Perform(w, req, answer, outcome);
            && (w.run.policy.Some? ==> w'.run.policy.Some?)
            && (req.GetRun? && reply.RunRow? && reply.run.Some? ==> reply.run.value == w.run)
  {
  }

  /** The pass's decision takes up a credit only when the stored status is `approved`. */
  lemma DecidedKeepsCredit(cat: Catalogue, s: State, t: State, a: Act, elapsed: real,
                           pos: nat, kind: string, initial: int)
    requires Credit(cat, s, pos, kind, initial) && AlwaysGated(cat, kind) && s.e.pc.ReadSteps?
    requires a.Called? && a.req.GetSteps? && t.trace == s.trace + [a]
    requires t.w == s.w && t.e.held == s.e.held
    requires t.e.pc == Decide(cat, View(s.e.held, s.e.pc.current), Views(s.w.rows), elapsed)
    requires !t.e.pc.ReadSteps?
    ensures Credit(cat, t, pos, kind, initial)
  {
    CountsSnoc(s.trace, a, pos);
    GatedNeedsApproval(cat, View(s.e.held, s.e.pc.current), Views(s.w.rows), elapsed, pos);
  }

  lemma CarriedKeepsCredit(cfg: Config, s: State, t: State, a: Act, clock: real, pos: nat, kind: string, initial: int)
    requires Credit(cfg.cat, s, pos, kind, initial) && !s.e.pc.Resting?
    requires a.Called? && t.trace == s.trace + [a]
    requires RowsReply(s.w, t.w, a.req, a.reply) && ApprovalResume(cfg, s.e, t.e, a.req, a.reply, clock, pos)
    requires s.e.pc.ReadSteps? ==> a.req.GetSteps? && t.e.pc == Resting(StoreFailed(s.e.pc))
    requires t.w.run.policy.Some?
    requires a.req.GetRun? && a.reply.RunRow? && a.reply.run.Some? ==> a.reply.run.value == s.w.run
    ensures Credit(cfg.cat, t, pos, kind, initial)
  {
    CountsSnoc(s.trace, a, pos);
  }

  lemma ServedKeepsCredit(cfg: Config, s: State, t: State, a: Act, clock: real, pos: nat, kind: string, initial: int)
    requires Credit(cfg.cat, s, pos, kind, initial) && AlwaysGated(cfg.cat, kind) && !s.e.pc.Resting?
    requires a.Called? && t.trace == s.trace + [a]
    requires RowsReply(s.w, t.w, a.req, a.reply) && ApprovalResume(cfg, s.e, t.e, a.req, a.reply, clock, pos)
    requires s.e.pc.ReadSteps? ==> a.req.GetSteps? && t.w == s.w
    requires t.w.run.policy.Some?
    requires a.req.GetRun? && a.reply.RunRow? && a.reply.run.Some? ==> a.reply.run.value == s.w.run
    ensures Credit(cfg.cat, t, pos, kind, initial)
  {
    if s.e.pc.ReadSteps? && t.e.pc != Resting(StoreFailed(s.e.pc)) {
      DecidedKeepsCredit(cfg.cat, s, t, a, clock - s.e.started, pos, kind, initial);
    } else {
      CarriedKeepsCredit(cfg, s, t, a, clock, pos, kind, initial);
    }
  }

  lemma MovedKeepsCredit(cfg: Config, s: State, m: HostMove, pos: nat, kind: string, initial: int)
    requires Credit(cfg.cat, s, pos, kind, initial) && KeepsPolicy(Move(m))
    ensures Credit(cfg.cat, Next(cfg, s, Move(m)), pos, kind, initial)
  {
    CountsSnoc(s.trace, Host(m), pos);
  }

  lemma CreditStep(cfg: Config, s: State, i: Input, pos: nat, kind: string, initial: int)
    requires Credit(cfg.cat, s, pos, kind, initial) && AlwaysGated(cfg.cat, kind) && KeepsPolicy(i)
    ensures Credit(cfg.cat, Next(cfg, s, i), pos, kind, initial)
  {
    match i
    case Move(m) =>
      MovedKeepsCredit(cfg, s, m, pos, kind, initial);
    case Begin =>
      CountsSnoc(s.trace, Began(s.w.run), pos);
    case Serve(answer, outcome, clock) =>
      if !s.e.pc.Resting? {
        var reply := Perform(s.w, Ask(s.e), answer, outcome).1;
        PerformRows(s.w, Ask(s.e), answer, outcome);
        PerformForApprovals(s.w, Ask(s.e), answer, outcome);
        ResumeForApprovals(cfg, s.e, reply, clock, pos);
        ServedKeepsCredit(cfg, s, Next(cfg, s, i), Called(Ask(s.e), reply, Ask(s.e).Invoke? || !answer.Refused?),
                          clock, pos, kind, initial);
      }
  }

  lemma {:induction false} CreditAlong(cfg: Config, s: State, ins: seq<Input>, pos: nat, kind: string, initial: int)
    requires Credit(cfg.cat, s, pos, kind, initial) && AlwaysGated(cfg.cat, kind)
    requires forall i :: i in ins ==> KeepsPolicy(i)
    ensures Credit(cfg.cat, RunAll(cfg, s, ins), pos, kind, initial)
    decreases |ins|
  {
    if |ins| > 0 {
      CreditStep(cfg, s, ins[0], pos, kind, initial);
      CreditAlong(cfg, Next(cfg, s, ins[0]), ins[1..], pos, kind, initial);
    }
  }

  /**
   Over all drives and all host behaviour: the engine never approves the step itself, and first
   entries never outnumber host approvals (one of which the step may have had to begin with).
   */
  lemma DispatchesNeedApprovals(cfg: Config, w: World, ins: seq<Input>, pos: nat)
    requires pos < |w.rows| && AlwaysGated(cfg.cat, w.rows[pos].step.kind)
    requires w.run.policy.Some? && forall i :: i in ins ==> KeepsPolicy(i)
    ensures var t := RunAll(cfg, Start(w), ins).trace;
            && DispatchCount(t, pos) <= ApprovalCount(t, pos) + One(w.rows[pos].step.status.Approved?)
            && (forall k :: 0 <= k < |t| ==> !ApprovedByEngine(t[k], pos))
  {
    CreditAlong(cfg, Start(w), ins, pos, w.rows[pos].step.kind, One(w.rows[pos].step.status.Approved?));
  }

  // ---- steps that join later ----

  ghost predicate PolicySet(s: State) {
    && s.w.run.policy.Some? && s.e.held.policy.Some?
    && (s.e.pc.ReadSteps? && s.e.pc.current.Some? ==> s.e.pc.current.value.policy.Some?)
  }

  lemma PolicyStep(cfg: Config, s: State, i: Input)
    requires PolicySet(s) && KeepsPolicy(i)
    ensures PolicySet(Next(cfg, s, i))
  {
    if i.Serve? && !s.e.pc.Resting? {
      PerformForApprovals(s.w, Ask(s.e), i.answer, i.outcome);
      ResumeForApprovals(cfg, s.e, Perform(s.w, Ask(s.e), i.answer, i.outcome).1, i.clock, 0);
    }
  }

  lemma {:induction false} PolicyAlong(cfg: Config, s: State, ins: seq<Input>)
    requires PolicySet(s) && forall i :: i in ins ==> KeepsPolicy(i)
    ensures PolicySet(RunAll(cfg, s, ins))
    decreases |ins|
  {
    if |ins| > 0 {
      PolicyStep(cfg, s, ins[0]);
      PolicyAlong(cfg, Next(cfg, s, ins[0]), ins[1..]);
    }
  }

  /** A step that does not exist yet has not been dispatched. */
  lemma {:induction false} NotYetDispatched(trace: seq<Act>, pos: nat)
    requires forall k :: 0 <= k < |trace| ==> ActWithin(trace[k], pos)
    ensures DispatchCount(trace, pos) == 0
    ensures forall k :: 0 <= k < |trace| ==> !ApprovedByEngine(trace[k], pos)
    decreases |trace|
  {
    if |trace| > 0 {
      NotYetDispatched(trace[..|trace| - 1], pos);
    }
  }

  /** Nothing is under way for a step that does not exist yet. */
  lemma NotHeadedThere(s: State, pos: nat)
    requires Placed(s) && pos == |s.w.rows|
    ensures !InFlight(s.e.pc, pos) && !ApprovesAt(s.e.pc, pos)
  {
  }

  lemma AppendedHasCredit(cfg: Config, s: State, added: Step, pos: nat)
    requires Placed(s) && PolicySet(s) && pos == |s.w.rows|
    ensures Credit(cfg.cat, Next(cfg, s, Move(AddStep(added))), pos, added.kind,
                   One(added.status.Approved?) - ApprovalCount(s.trace, pos))
  {
    NotYetDispatched(s.trace, pos);
    NotHeadedThere(s, pos);
    CountsSnoc(s.trace, Host(AddStep(added)), pos);
  }

  /**
   The same for a step that a handler or the host appends at any moment of any history: from its appending on,
   the engine never approves it, and its first entries never outnumber the host's approvals.
   */
  lemma AppendedNeedApprovals(cfg: Config, w: World, before: seq<Input>, added: Step, after: seq<Input>)
    requires AlwaysGated(cfg.cat, added.kind) && w.run.policy.Some?
    requires forall i :: i in before || i in after ==> KeepsPolicy(i)
    ensures var s := RunAll(cfg, Start(w), before);
            var t, pos := RunAll(cfg, Next(cfg, s, Move(AddStep(added))), after), |s.w.rows|;
            && DispatchCount(t.trace, pos) + ApprovalCount(s.trace, pos)
               <= ApprovalCount(t.trace, pos) + One(added.status.Approved?)
            && (forall k :: 0 <= k < |t.trace| ==> !ApprovedByEngine(t.trace[k], pos))
  {
    var s := RunAll(cfg, Start(w), before);
    PlacedAlong(cfg, Start(w), before);
    PolicyAlong(cfg, Start(w), before);
    AppendedHasCredit(cfg, s, added, |s.w.rows|);
    CreditAlong(cfg, Next(cfg, s, Move(AddStep(added))), after, |s.w.rows|, added.kind,
                One(added.status.Approved?) - ApprovalCount(s.trace, |s.w.rows|));
  }
}
