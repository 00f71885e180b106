/**
 What a pass does when nobody interferes. Under fixed terms, with a deterministic handler and no wall
 budget, one pass is a function of the step rows alone: a `Beat`. A `Chain` of beats is the run.
 */
module Calm {
  import opened Basics
  import opened Policies
  import opened Model
  import opened Engine
  import opened System
  import Budget

  /** The run settings that stay fixed: the approval settings and the grants. */
  datatype Terms = Terms(policy: Option<string>, autoApprove: bool, grants: Json, preapproved: Json)

  /** What a deterministic handler does: the steps it appends and how it ends. */
  datatype Deed = Deed(added: seq<Step>, outcome: Outcome)

  /** A handler sees the step's position and the stored rows, and so ignores the run's policy. */
  type Handler = (nat, seq<Row>) -> Deed

  /** Everything a pass depends on besides the rows. */
  datatype Setting = Setting(cfg: Config, terms: Terms, budget: Json)

  predicate SameTerms(run: Run, terms: Terms) {
    && run.policy == terms.policy && run.autoApprove == terms.autoApprove
    && run.grants == terms.grants && run.preapproved == terms.preapproved
    && PositiveInt(run.maxWall).None?
  }

  /** A budget at least as tight as the other. */
  predicate Tighter(budget: Json, other: Json) {
    PositiveInt(other).Some? ==>
      PositiveInt(budget).Some? && PositiveInt(budget).value <= PositiveInt(other).value
  }

  function Plain(env: Setting): Run {
    Run(RunRunning, env.terms.policy, env.terms.autoApprove, env.terms.grants, env.terms.preapproved, env.budget, JNull)
  }

  function CalmDecision(env: Setting, rows: seq<Row>): Pc {
    Decide(env.cfg.cat, Plain(env), Views(rows), 0.0)
  }

  function PutTransition(rows: seq<Row>, t: Transition): seq<Row> {
    if t.pos < |rows| then SetState(rows, t.pos, t.to, t.error, t.refs) else rows
  }

  function NewRows(added: seq<Step>): (rows: seq<Row>)
    ensures |rows| == |added|
    ensures forall k :: 0 <= k < |added| ==> rows[k] == Row(added[k], None, None)
  {
    seq(|added|, k requires 0 <= k < |added| => Row(added[k], None, None))
  }

  /** The transition that records an authoritative handler outcome. */
  function Finish(pos: nat, step: Step, outcome: Outcome): Option<Transition> {
    match outcome
    case Finished(refs) => Some(CompleteStep(pos, step.kind, refs))
    case NotApplicable(message) => Some(SkipStep(pos, step.kind, message))
    case Erred(message) => Some(FailStep(pos, step.kind, message))
    case Crashed(message) => Some(FailStep(pos, step.kind, message))
    case _ => None
  }

  datatype Why = AllDone | StepFailed | AtGate | Budgeted | Raised

  /** One pass: it goes on to the next, or it halts the run, having called at most one handler. */
  datatype Beat = Go(rows: seq<Row>, called: Option<nat>) | Halt(rows: seq<Row>, called: Option<nat>, why: Why)

  function Started(rows: seq<Row>, pos: nat, step: Step): seq<Row> {
    PutTransition(rows, StartStep(pos, step))
  }

  /** The rows when the handler has done its deed. */
  function Acted(h: Handler, rows: seq<Row>, pos: nat, step: Step): seq<Row> {
    Started(rows, pos, step) + NewRows(h(pos, Started(rows, pos, step)).added)
  }

  function DispatchBeat(cfg: Config, h: Handler, rows: seq<Row>, pos: nat, step: Step): Beat {
    if step.kind !in cfg.registered then
      Halt(PutTransition(Started(rows, pos, step), FailStep(pos, step.kind, "Unsupported step type")), None, StepFailed)
    else
      var acted := Acted(h, rows, pos, step);
      match Finish(pos, step, h(pos, Started(rows, pos, step)).outcome)
      case None => Halt(acted, Some(pos), Raised)
      case Some(t) =>
        if t.onward.ThenFailRun? then Halt(PutTransition(acted, t), Some(pos), StepFailed)
        else Go(PutTransition(acted, t), Some(pos))
  }

  function BeatOf(cfg: Config, h: Handler, rows: seq<Row>, pc: Pc): Beat {
    match pc
    case FinalRead => Halt(rows, None, AllDone)
    case CheckReport(_) => Halt(rows, None, StepFailed)
    case BudgetLog(_) => Halt(rows, None, Budgeted)
    case StopStatus => Halt(rows, None, AtGate)
    case Write(t) =>
      (match t.onward
       case ThenNextPass => Go(PutTransition(rows, t), None)
       case ThenStop => Halt(PutTransition(rows, t), None, AtGate)
       case ThenStart(step) => DispatchBeat(cfg, h, rows, t.pos, step)
       case ThenCall(step) => DispatchBeat(cfg, h, rows, t.pos, step)
       case ThenFailRun => Halt(rows, None, Raised))
    case _ => Halt(rows, None, Raised)
  }

  function TakeBeat(env: Setting, h: Handler, rows: seq<Row>): Beat {
    BeatOf(env.cfg, h, rows, CalmDecision(env, rows))
  }

  /** The run so far: its rows, the handlers called in order, and why it halted, if it did. */
  datatype Progress = Progress(rows: seq<Row>, calls: seq<nat>, halted: Option<Why>)

  function CallList(called: Option<nat>): seq<nat> {
    if called.Some? then [called.value] else []
  }

  function Advance(env: Setting, h: Handler, p: Progress): Progress {
    if p.halted.Some? then p
    else match TakeBeat(env, h, p.rows)
      case Go(rows, called) => Progress(rows, p.calls + CallList(called), None)
      case Halt(rows, called, why) => Progress(rows, p.calls + CallList(called), Some(why))
  }

  function Chain(env: Setting, h: Handler, rows: seq<Row>, n: nat): Progress {
    if n == 0 then Progress(rows, [], None) else Advance(env, h, Chain(env, h, rows, n - 1))
  }

  /** A halted chain stays as it is. */
  lemma {:induction false} HaltedStays(env: Setting, h: Handler, rows: seq<Row>, n: nat, m: nat)
    requires n <= m && Chain(env, h, rows, n).halted.Some?
    ensures Chain(env, h, rows, m) == Chain(env, h, rows, n)
    decreases m - n
  {
    if n < m {
      HaltedStays(env, h, rows, n, m - 1);
    }
  }

  lemma HaltedIsUnique(env: Setting, h: Handler, rows: seq<Row>, n: nat, m: nat)
    requires Chain(env, h, rows, n).halted.Some? && Chain(env, h, rows, m).halted.Some?
    ensures Chain(env, h, rows, n) == Chain(env, h, rows, m)
  {
    if n <= m {
      HaltedStays(env, h, rows, n, m);
    } else {
      HaltedStays(env, h, rows, m, n);
    }
  }

  // ---- policies ----

  /** The decision stops the drive for human review. */
  predicate ForReview(pc: Pc) {
    pc.StopStatus? || (pc.Write? && pc.t.onward.ThenStop?)
  }

  /** The same decision up to what the approval event says. */
  predicate SameEffect(pc: Pc, pc': Pc) {
    pc == pc' || (pc.Write? && pc'.Write? && pc'.t == pc.t.(payload := pc'.t.payload))
  }

  lemma DecisionUnderAuto(env: Setting, auto: Setting, rows: seq<Row>)
    requires env.terms.policy.Some?
    requires auto == env.(terms := env.terms.(policy := Some(AUTO_COMPLETE)))
    ensures ForReview(CalmDecision(env, rows)) || SameEffect(CalmDecision(env, rows), CalmDecision(auto, rows))
  {
  }

  lemma SameEffectSameBeat(cfg: Config, h: Handler, rows: seq<Row>, pc: Pc, pc': Pc)
    requires SameEffect(pc, pc')
    ensures BeatOf(cfg, h, rows, pc) == BeatOf(cfg, h, rows, pc')
  {
  }

  /** A pass that does not stop for review under some policy does the same under `auto_complete`. */
  lemma BeatUnderAuto(env: Setting, auto: Setting, h: Handler, rows: seq<Row>)
    requires env.terms.policy.Some?
    requires auto == env.(terms := env.terms.(policy := Some(AUTO_COMPLETE)))
    ensures var strict, loose := TakeBeat(env, h, rows), TakeBeat(auto, h, rows);
            strict == loose || (strict.Halt? && strict.why.AtGate? && strict.called.None?)
  {
    var pc, pc' := CalmDecision(env, rows), CalmDecision(auto, rows);
    DecisionUnderAuto(env, auto, rows);
    if !ForReview(pc) {
      SameEffectSameBeat(env.cfg, h, rows, pc, pc');
    }
  }

  lemma AdvanceUnderAuto(env: Setting, auto: Setting, h: Handler, p: Progress, q: Progress)
    requires env.terms.policy.Some?
    requires auto == env.(terms := env.terms.(policy := Some(AUTO_COMPLETE)))
    requires p == q || (p.halted == Some(AtGate) && p.calls <= q.calls)
    ensures var strict, loose := Advance(env, h, p), Advance(auto, h, q);
            strict == loose || (strict.halted == Some(AtGate) && strict.calls <= loose.calls)
  {
    if p == q && p.halted.None? {
      BeatUnderAuto(env, auto, h, p.rows);
    }
  }

  /** Up to any pass, the calls made under any policy are a prefix of those made under `auto_complete`. */
  lemma {:induction false} ChainUnderAuto(env: Setting, auto: Setting, h: Handler, rows: seq<Row>, n: nat)
    requires env.terms.policy.Some?
    requires auto == env.(terms := env.terms.(policy := Some(AUTO_COMPLETE)))
    ensures var strict, loose := Chain(env, h, rows, n), Chain(auto, h, rows, n);
            strict == loose || (strict.halted == Some(AtGate) && strict.calls <= loose.calls)
  {
    if n > 0 {
      ChainUnderAuto(env, auto, h, rows, n - 1);
      AdvanceUnderAuto(env, auto, h, Chain(env, h, rows, n - 1), Chain(auto, h, rows, n - 1));
    }
  }

  // ---- gates ----

  lemma ParkingDecision(cat: Catalogue, view: Run, steps: seq<Step>, pos: nat)
    requires pos < |steps| && FirstUnfinished(steps) == Some(pos) && steps[pos].status.Pending?
    requires Decide(cat, view, steps, 0.0).Write? && Decide(cat, view, steps, 0.0).t.onward.ThenStop?
    ensures MissingGrant(cat, steps[pos].kind, view.grants).None?
    ensures BudgetReason(view, steps, 0.0).None?
    ensures ResolveGate(cat, view, steps[pos]).2
  {
  }

  /** Parking a step at its gate is final until something changes: the next pass stops there again. */
  lemma ParkedStops(cat: Catalogue, view: Run, steps: seq<Step>, pos: nat)
    requires pos < |steps| && FirstUnfinished(steps) == Some(pos) && steps[pos].status.Pending?
    requires Decide(cat, view, steps, 0.0).Write? && Decide(cat, view, steps, 0.0).t.onward.ThenStop?
    ensures Decide(cat, view, steps[pos := steps[pos].(status := Awaiting)], 0.0) == StopStatus
  {
    ParkingDecision(cat, view, steps, pos);
    var parked := steps[pos := steps[pos].(status := Awaiting)];
    Budget.ExecutedUpdate(steps, pos, parked[pos]);
    assert parked[pos].status.Awaiting?;
    assert FirstUnfinished(parked) == Some(pos);
  }

  lemma ParksThePending(cat: Catalogue, view: Run, steps: seq<Step>)
    requires Decide(cat, view, steps, 0.0).Write? && Decide(cat, view, steps, 0.0).t.onward.ThenStop?
    ensures var t := Decide(cat, view, steps, 0.0).t;
            && FirstUnfinished(steps) == Some(t.pos) && steps[t.pos].status.Pending?
            && t.to == Awaiting && t.error == Leave && t.refs == Leave
  {
  }

  lemma GateIsFixed(env: Setting, rows: seq<Row>)
    requires ForReview(CalmDecision(env, rows))
    ensures var pc := CalmDecision(env, rows);
            CalmDecision(env, if pc.Write? then PutTransition(rows, pc.t) else rows) == StopStatus
  {
    var pc := CalmDecision(env, rows);
    if pc.Write? {
      ParksThePending(env.cfg.cat, Plain(env), Views(rows));
      ParkedStops(env.cfg.cat, Plain(env), Views(rows), pc.t.pos);
      assert Views(PutTransition(rows, pc.t)) == Views(rows)[pc.t.pos := Views(rows)[pc.t.pos].(status := Awaiting)];
    }
  }
}
