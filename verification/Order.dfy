/** Execution order under a host that appends steps and never un-finishes one. */
module Order {
  import opened Model
  import opened Engine
  import opened System
  import opened Flight
  import opened Gates

  /**
   Steps may be appended, approved, rejected or re-parked at any time; finished ones stay finished, unless it is the
   step whose handler is running.
   */
  predicate AppendOnly(s: State, i: Input) {
    i.Move? && i.move.PutStep? && i.move.pos < |s.w.rows| && Done(s.w.rows[i.move.pos].step.status) ==>
      Done(i.move.status) || (s.e.pc.Call? && s.e.pc.pos == i.move.pos)
  }

  predicate AppendOnlyAlong(cfg: Config, s: State, ins: seq<Input>)
    decreases |ins|
  {
    |ins| == 0 || (AppendOnly(s, ins[0]) && AppendOnlyAlong(cfg, Next(cfg, s, ins[0]), ins[1..]))
  }

  predicate IsCall(a: Act) {
    a.Called? && a.req.Invoke?
  }

  ghost predicate CallsUpTo(trace: seq<Act>, pos: nat) {
    forall k :: 0 <= k < |trace| && IsCall(trace[k]) ==> trace[k].req.pos <= pos
  }

  ghost predicate CallsAscend(trace: seq<Act>) {
    forall j, k :: 0 <= j < k < |trace| && IsCall(trace[j]) && IsCall(trace[k]) ==>
      trace[j].req.pos <= trace[k].req.pos
  }

  ghost predicate CallsBehind(trace: seq<Act>, rows: seq<Row>) {
    forall k :: 0 <= k < |trace| && IsCall(trace[k]) ==> Behind(rows, trace[k].req.pos)
  }

  predicate Completing(pc: Pc) {
    pc.FinalRead? || pc.CompleteStatus? || pc.CompleteLog?
  }

  ghost predicate OrderInv(s: State) {
    && CallsAscend(s.trace)
    && CallsBehind(s.trace, s.w.rows)
    && (At(s.e.pc).Some? ==>
          && At(s.e.pc).value < |s.w.rows|
          && Behind(s.w.rows, At(s.e.pc).value)
          && CallsUpTo(s.trace, At(s.e.pc).value))
    && (Completing(s.e.pc) ==> Behind(s.w.rows, |LastSteps(s.trace)|))
  }

  lemma CompletingCarried(cfg: Config, e: Engine, reply: Reply, clock: real)
    requires !e.pc.Resting?
    ensures Completing(Resume(cfg, e, reply, clock).pc) ==> (e.pc.ReadSteps? || Completing(e.pc))
    ensures Completing(e.pc) ==> !Ask(e).GetSteps?
  {
  }

  lemma ServedKeepsOrder(s: State, t: State, a: Act)
    requires OrderInv(s) && !s.e.pc.Resting?
    requires a.Called? && t.trace == s.trace + [a]
    requires Carried(s.e, t.e, a.req, a.reply) && RowsReply(s.w, t.w, a.req, a.reply)
    requires Completing(t.e.pc) ==> s.e.pc.ReadSteps? || (Completing(s.e.pc) && !a.req.GetSteps?)
    ensures OrderInv(t)
  {
    LastSnoc(s.trace, a, s.w.run);
    if s.e.pc.ReadSteps? && At(t.e.pc).Some? {
      var pos := At(t.e.pc).value;
      forall k | 0 <= k < |t.trace| && IsCall(t.trace[k]) ensures t.trace[k].req.pos <= pos {
        assert Behind(s.w.rows, s.trace[k].req.pos);
      }
    }
    forall k | 0 <= k < |t.trace| && IsCall(t.trace[k]) ensures Behind(t.w.rows, t.trace[k].req.pos) {
      if k < |s.trace| {
        assert t.trace[k] == s.trace[k];
        assert Behind(s.w.rows, s.trace[k].req.pos);
      }
    }
  }

  lemma MovedKeepsOrder(cfg: Config, s: State, m: HostMove)
    requires OrderInv(s) && AppendOnly(s, Move(m))
    ensures OrderInv(Next(cfg, s, Move(m)))
  {
    LastSnoc(s.trace, Host(m), s.w.run);
  }

  lemma OrderStep(cfg: Config, s: State, i: Input)
    requires OrderInv(s) && AppendOnly(s, i)
    ensures OrderInv(Next(cfg, s, i))
  {
    match i
    case Move(m) =>
      MovedKeepsOrder(cfg, s, m);
    case Begin =>
      LastSnoc(s.trace, Began(s.w.run), s.w.run);
    case Serve(answer, outcome, clock) =>
      if !s.e.pc.Resting? {
        var reply := Perform(s.w, Ask(s.e), answer, outcome).1;
        PerformRows(s.w, Ask(s.e), answer, outcome);
        ResumeCarries(cfg, s.e, reply, clock);
        CompletingCarried(cfg, s.e, reply, clock);
        ServedKeepsOrder(s, Next(cfg, s, i), Called(Ask(s.e), reply, Ask(s.e).Invoke? || !answer.Refused?));
      }
  }

  lemma {:induction false} OrderAlong(cfg: Config, s: State, ins: seq<Input>)
    requires OrderInv(s) && AppendOnlyAlong(cfg, s, ins)
    ensures OrderInv(RunAll(cfg, s, ins))
    decreases |ins|
  {
    if |ins| > 0 {
      OrderStep(cfg, s, ins[0]);
      OrderAlong(cfg, Next(cfg, s, ins[0]), ins[1..]);
    }
  }

  /** When a handler is called every earlier step is completed or skipped, and positions never go back. */
  lemma CallsFollowPlanOrder(cfg: Config, w: World, ins: seq<Input>)
    requires AppendOnlyAlong(cfg, Start(w), ins)
    ensures var s := RunAll(cfg, Start(w), ins);
            && (s.e.pc.Call? ==> Behind(s.w.rows, s.e.pc.pos) && CallsUpTo(s.trace, s.e.pc.pos))
            && CallsAscend(s.trace)
  {
    OrderAlong(cfg, Start(w), ins);
  }

  /**
   A run that is being completed has every step finished exactly when the steps that joined after the
   last pass's reading are: a step appended by a handler always joins the drive, one appended later
   than the last reading does not.
   */
  lemma CompletedMeansAllDone(cfg: Config, w: World, ins: seq<Input>)
    requires AppendOnlyAlong(cfg, Start(w), ins)
    ensures var s := RunAll(cfg, Start(w), ins);
            Completing(s.e.pc) ==>
              && |LastSteps(s.trace)| <= |s.w.rows|
              && (Behind(s.w.rows, |s.w.rows|) <==>
                  forall k :: |LastSteps(s.trace)| <= k < |s.w.rows| ==> Done(s.w.rows[k].step.status))
  {
    OrderAlong(cfg, Start(w), ins);
  }

  // ---- handlers that append ----

  /** Steps are appended only while a handler runs. */
  predicate HandlersAppend(s: State, i: Input) {
    AppendOnly(s, i) && (i.Move? && i.move.AddStep? ==> s.e.pc.Call?)
  }

  predicate HandlersAppendAlong(cfg: Config, s: State, ins: seq<Input>)
    decreases |ins|
  {
    |ins| == 0 || (HandlersAppend(s, ins[0]) && HandlersAppendAlong(cfg, Next(cfg, s, ins[0]), ins[1..]))
  }

  ghost predicate JoinInv(s: State) {
    OrderInv(s) && (Completing(s.e.pc) ==> |LastSteps(s.trace)| == |s.w.rows|)
  }

  lemma JoinServed(s: State, t: State, a: Act)
    requires JoinInv(s) && OrderInv(t) && !s.e.pc.Resting?
    requires a.Called? && t.trace == s.trace + [a]
    requires Carried(s.e, t.e, a.req, a.reply) && RowsReply(s.w, t.w, a.req, a.reply)
    requires Completing(t.e.pc) ==> s.e.pc.ReadSteps? || (Completing(s.e.pc) && !a.req.GetSteps?)
    ensures JoinInv(t)
  {
    LastSnoc(s.trace, a, s.w.run);
  }

  lemma JoinStep(cfg: Config, s: State, i: Input)
    requires JoinInv(s) && HandlersAppend(s, i)
    ensures JoinInv(Next(cfg, s, i))
  {
    OrderStep(cfg, s, i);
    match i
    case Move(m) => LastSnoc(s.trace, Host(m), s.w.run);
    case Begin =>
    case Serve(answer, outcome, clock) =>
      if !s.e.pc.Resting? {
        var reply := Perform(s.w, Ask(s.e), answer, outcome).1;
        PerformRows(s.w, Ask(s.e), answer, outcome);
        ResumeCarries(cfg, s.e, reply, clock);
        CompletingCarried(cfg, s.e, reply, clock);
        JoinServed(s, Next(cfg, s, i), Called(Ask(s.e), reply, Ask(s.e).Invoke? || !answer.Refused?));
      }
  }

  lemma {:induction false} JoinAlong(cfg: Config, s: State, ins: seq<Input>)
    requires JoinInv(s) && HandlersAppendAlong(cfg, s, ins)
    ensures JoinInv(RunAll(cfg, s, ins))
    decreases |ins|
  {
    if |ins| > 0 {
      JoinStep(cfg, s, ins[0]);
      JoinAlong(cfg, Next(cfg, s, ins[0]), ins[1..]);
    }
  }

  /** A step that a handler appends joins the same drive: the run completes only when every step is done. */
  lemma AppendedStepsJoin(cfg: Config, w: World, ins: seq<Input>)
    requires HandlersAppendAlong(cfg, Start(w), ins)
    ensures var t := RunAll(cfg, Start(w), ins); Completing(t.e.pc) ==> Behind(t.w.rows, |t.w.rows|)
  {
    JoinAlong(cfg, Start(w), ins);
  }
}
