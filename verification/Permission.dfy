/** Advertised step types, and what advertising only permitted types means for a whole run. */
module Permission {
  import opened Basics
  import opened Policies
  import opened Model
  import opened Engine
  import opened System
  import opened Gates
  import opened Outcomes

  // ---- the types offered to a planner ----

  /** Offered: not withheld from free-form plans, and its grant is absent or held. */
  predicate Offered(cat: Catalogue, withheld: set<string>, tools: Json, kind: string) {
    kind !in withheld && MissingGrant(cat, kind, tools).None?
  }

  /** The offered ones among the allowed types, in the order of the allowed types. */
  function Advertised(cat: Catalogue, allowed: seq<string>, withheld: set<string>, tools: Json): seq<string> {
    if |allowed| == 0 then []
    else
      var last := allowed[|allowed| - 1];
      Advertised(cat, allowed[..|allowed| - 1], withheld, tools)
      + (if Offered(cat, withheld, tools, last) then [last] else [])
  }

  /** Exactly the allowed, unwithheld types whose required grant is missing nowhere. */
  lemma {:induction false} AdvertisedExactly(cat: Catalogue, allowed: seq<string>, withheld: set<string>, tools: Json,
                                             kind: string)
    ensures kind in Advertised(cat, allowed, withheld, tools) <==>
            kind in allowed && Offered(cat, withheld, tools, kind)
    decreases |allowed|
  {
    if |allowed| > 0 {
      AdvertisedExactly(cat, allowed[..|allowed| - 1], withheld, tools, kind);
      assert allowed == allowed[..|allowed| - 1] + [allowed[|allowed| - 1]];
    }
  }

  /** They keep the order of the allowed types: a type allowed later only adds at the end. */
  lemma {:induction false} AdvertisedGrow(cat: Catalogue, allowed: seq<string>, withheld: set<string>, tools: Json,
                                          k: nat)
    requires k <= |allowed|
    ensures Advertised(cat, allowed[..k], withheld, tools) <= Advertised(cat, allowed, withheld, tools)
    decreases |allowed|
  {
    if k < |allowed| {
      AdvertisedGrow(cat, allowed[..|allowed| - 1], withheld, tools, k);
      assert allowed[..|allowed| - 1][..k] == allowed[..k];
    } else {
      assert allowed[..k] == allowed;
    }
  }

  method AdvertisedStepTypes(cat: Catalogue, allowed: seq<string>, withheld: set<string>, tools: Json)
    returns (advertised: seq<string>)
    ensures advertised == Advertised(cat, allowed, withheld, tools)
    ensures forall kind :: kind in advertised ==> MissingGrant(cat, kind, tools).None?
  {
    var grants := StringMembers(tools);
    advertised := [];
    var i := 0;
    while i < |allowed|
      invariant 0 <= i <= |allowed|
      invariant advertised == Advertised(cat, allowed[..i], withheld, tools)
      invariant forall kind :: kind in advertised ==> MissingGrant(cat, kind, tools).None?
    {
      assert allowed[..i + 1][..i] == allowed[..i];
      if allowed[i] !in withheld {
        var grant := RequiredGrant(cat, allowed[i]);
        if grant.None? || grant.value in grants {
          advertised := advertised + [allowed[i]];
        }
      }
      i := i + 1;
    }
    assert allowed[..i] == allowed;
  }

  // ---- runs of permitted types ----

  ghost predicate AllPermitted(cat: Catalogue, rows: seq<Row>, tools: Json) {
    forall k :: 0 <= k < |rows| ==> MissingGrant(cat, rows[k].step.kind, tools).None?
  }

  /** The grants stay as they are, and appended steps are permitted. */
  predicate Permits(cat: Catalogue, tools: Json, i: Input) {
    i.Move? ==>
      && (i.move.PutRun? ==> i.move.run.grants == tools)
      && (i.move.AddStep? ==> MissingGrant(cat, i.move.added.kind, tools).None?)
  }

  /** Everything the engine holds or has last read carries these grants, over permitted steps. */
  ghost predicate PermitInv(cfg: Config, s: State, tools: Json, init: Run) {
    && AllPermitted(cfg.cat, s.w.rows, tools)
    && s.w.run.grants == tools && s.e.held.grants == tools
    && (s.e.pc.ReadSteps? && s.e.pc.current.Some? ==> s.e.pc.current.value.grants == tools)
    && !(s.e.pc.Resting? && s.e.pc.exit.NotPermitted?)
    && LastHeld(s.trace, init).grants == tools && LastView(s.trace, init).grants == tools
    && (forall k :: 0 <= k < |LastSteps(s.trace)| ==> MissingGrant(cfg.cat, LastSteps(s.trace)[k].kind, tools).None?)
  }

  lemma DecidePermits(cat: Catalogue, view: Run, rows: seq<Row>, elapsed: real)
    requires AllPermitted(cat, rows, view.grants)
    ensures var pc := Decide(cat, view, Views(rows), elapsed); !(pc.Resting? && pc.exit.NotPermitted?)
  {
  }

  lemma ResumePermits(cfg: Config, e: Engine, rows: seq<Row>, reply: Reply, clock: real, tools: Json)
    requires !e.pc.Resting? && AllPermitted(cfg.cat, rows, tools) && e.held.grants == tools
    requires e.pc.ReadSteps? && e.pc.current.Some? ==> e.pc.current.value.grants == tools
    requires Ask(e).GetSteps? && reply.StepRows? ==> reply.steps == Views(rows)
    requires Ask(e).GetRun? && reply.RunRow? && reply.run.Some? ==> reply.run.value.grants == tools
    ensures var e' := Resume(cfg, e, reply, clock);
            && !(e'.pc.Resting? && e'.pc.exit.NotPermitted?) && e'.held == e.held
            && (e'.pc.ReadSteps? && e'.pc.current.Some? ==> e'.pc.current.value.grants == tools)
  {
    if e.pc.ReadSteps? && reply.StepRows? {
      DecidePermits(cfg.cat, View(e.held, e.pc.current), rows, clock - e.started);
    }
  }

  lemma PerformPermits(cat: Catalogue, w: World, req: Request, answer: Answer, outcome: Outcome, tools: Json)
    requires AllPermitted(cat, w.rows, tools)
    ensures var (w', reply) := Perform(w, req, answer, outcome);
            && AllPermitted(cat, w'.rows, tools) && w'.run.grants == w.run.grants
            && (req.GetRun? && reply.RunRow? && reply.run.Some? ==> reply.run.value == w.run)
            && (req.GetSteps? && reply.StepRows? ==> reply.steps == Views(w.rows))
  {
  }

  lemma PermitServed(cfg: Config, s: State, t: State, a: Act, clock: real, tools: Json, init: Run)
    requires PermitInv(cfg, s, tools, init) && !s.e.pc.Resting?
    requires a.Called? && a.req == Ask(s.e) && t.trace == s.trace + [a] && t.e == Resume(cfg, s.e, a.reply, clock)
    requires AllPermitted(cfg.cat, t.w.rows, tools) && t.w.run.grants == s.w.run.grants
    requires a.req.GetRun? && a.reply.RunRow? && a.reply.run.Some? ==> a.reply.run.value == s.w.run
    requires a.req.GetSteps? && a.reply.StepRows? ==> a.reply.steps == Views(s.w.rows)
    ensures PermitInv(cfg, t, tools, init)
  {
    LastSnoc(s.trace, a, init);
    ResumePermits(cfg, s.e, s.w.rows, a.reply, clock, tools);
  }

  lemma PermitStep(cfg: Config, s: State, i: Input, tools: Json, init: Run)
    requires PermitInv(cfg, s, tools, init) && Permits(cfg.cat, tools, i)
    ensures PermitInv(cfg, Next(cfg, s, i), tools, init)
  {
    match i
    case Move(m) =>
      LastSnoc(s.trace, Host(m), init);
    case Begin =>
      LastSnoc(s.trace, Began(s.w.run), init);
    case Serve(answer, outcome, clock) =>
      if !s.e.pc.Resting? {
        var reply := Perform(s.w, Ask(s.e), answer, outcome).1;
        PerformPermits(cfg.cat, s.w, Ask(s.e), answer, outcome, tools);
        PermitServed(cfg, s, Next(cfg, s, i), Called(Ask(s.e), reply, Ask(s.e).Invoke? || !answer.Refused?),
                     clock, tools, init);
      }
  }

  lemma {:induction false} PermitAlong(cfg: Config, s: State, ins: seq<Input>, tools: Json, init: Run)
    requires PermitInv(cfg, s, tools, init) && forall i :: i in ins ==> Permits(cfg.cat, tools, i)
    ensures PermitInv(cfg, RunAll(cfg, s, ins), tools, init)
    decreases |ins|
  {
    if |ins| > 0 {
      PermitStep(cfg, s, ins[0], tools, init);
      PermitAlong(cfg, Next(cfg, s, ins[0]), ins[1..], tools, init);
    }
  }

  // ---- what the trace shows, at every moment ----

  /** The run and the steps that were last read before each state write. */
  ghost predicate ReadsPermitted(cfg: Config, trace: seq<Act>, tools: Json, init: Run) {
    forall k :: 0 <= k < |trace| && trace[k].Called? && trace[k].req.SetStepState? ==>
      && LastView(trace[..k], init).grants == tools
      && forall j :: 0 <= j < |LastSteps(trace[..k])| ==>
           MissingGrant(cfg.cat, LastSteps(trace[..k])[j].kind, tools).None?
  }

  lemma ReadsSnoc(cfg: Config, trace: seq<Act>, a: Act, tools: Json, init: Run)
    requires ReadsPermitted(cfg, trace, tools, init)
    requires LastView(trace, init).grants == tools
    requires forall j :: 0 <= j < |LastSteps(trace)| ==> MissingGrant(cfg.cat, LastSteps(trace)[j].kind, tools).None?
    ensures ReadsPermitted(cfg, trace + [a], tools, init)
  {
    assert (trace + [a])[..|trace|] == trace;
    assert forall k :: 0 <= k < |trace| ==> (trace + [a])[..k] == trace[..k];
  }

  lemma OneActMore(cfg: Config, s: State, i: Input)
    ensures var t := Next(cfg, s, i);
            t.trace == s.trace || (|t.trace| == |s.trace| + 1 && t.trace == s.trace + [t.trace[|s.trace|]])
  {
  }

  lemma {:induction false} ReadsAlong(cfg: Config, s: State, ins: seq<Input>, tools: Json, init: Run)
    requires PermitInv(cfg, s, tools, init) && ReadsPermitted(cfg, s.trace, tools, init)
    requires forall i :: i in ins ==> Permits(cfg.cat, tools, i)
    ensures ReadsPermitted(cfg, RunAll(cfg, s, ins).trace, tools, init)
    decreases |ins|
  {
    if |ins| > 0 {
      var t := Next(cfg, s, ins[0]);
      PermitStep(cfg, s, ins[0], tools, init);
      OneActMore(cfg, s, ins[0]);
      if t.trace != s.trace {
        ReadsSnoc(cfg, s.trace, t.trace[|s.trace|], tools, init);
      }
      ReadsAlong(cfg, t, ins[1..], tools, init);
    }
  }

  /**
   A plan of advertised types is never skipped by the permission gate: with the grants it was advertised
   under, over any drives and whatever handlers answer, a step is skipped only on its own handler's word in
   the same pass, and none is refused.
   */
  lemma AdvertisedPlanIsNeverSkipped(cfg: Config, w: World, ins: seq<Input>,
                                     allowed: seq<string>, withheld: set<string>, k: nat)
    requires forall j :: 0 <= j < |w.rows| ==>
               w.rows[j].step.kind in Advertised(cfg.cat, allowed, withheld, w.run.grants)
    requires forall i :: i in ins ==> Permits(cfg.cat, w.run.grants, i)
    ensures var s := RunAll(cfg, Start(w), ins);
            && !(s.e.pc.Resting? && s.e.pc.exit.NotPermitted?)
            && (k < |s.trace| && s.trace[k].Called? && s.trace[k].req.SetStepState? && s.trace[k].req.to.Skipped? ==>
                  var answer := LastAnswer(s.trace[..k]);
                  answer.Some? && answer.value.0 == s.trace[k].req.pos && answer.value.1.NotApplicable?)
  {
    forall j | 0 <= j < |w.rows| ensures MissingGrant(cfg.cat, w.rows[j].step.kind, w.run.grants).None? {
      AdvertisedExactly(cfg.cat, allowed, withheld, w.run.grants, w.rows[j].step.kind);
    }
    PermitAlong(cfg, Start(w), ins, w.run.grants, w.run);
    ReadsAlong(cfg, Start(w), ins, w.run.grants, w.run);
    var t := RunAll(cfg, Start(w), ins).trace;
    if k < |t| && t[k].Called? && t[k].req.SetStepState? && t[k].req.to.Skipped? {
      EveryWriteIsJustified(cfg, w, ins, k);
    }
  }
}
