/**
 What the script means for the records: when a handler is called, what had been written and recorded for its step
 since the steps were last read, and what every event of a step says.
 */
module Records {
  import opened Basics
  import opened Policies
  import opened Model
  import opened Engine
  import opened System
  import opened Flight
  import opened Gates
  import opened Script

  // ---- every callback is the script's ----

  /** The host applied the callback and gave an answer of the right shape. */
  predicate Settled(a: Act) {
    a.Called? && a.applied && Fits(a.req, a.reply)
  }

  predicate AllSettled(calls: seq<Act>) {
    forall k :: 0 <= k < |calls| ==> Settled(calls[k])
  }

  ghost predicate ByScript(cfg: Config, c: Chapter, req: Request) {
    exists elapsed: real :: Asked(c.calls) + [Shape(req)] <= ScriptOf(cfg, c, elapsed)
  }

  ghost predicate Kept(cfg: Config, trace: seq<Act>, init: Run) {
    forall k :: 0 <= k < |trace| && trace[k].Called? ==>
      ByScript(cfg, ChapterOf(trace[..k], init), trace[k].req) && AllSettled(ChapterOf(trace[..k], init).calls)
  }

  ghost predicate KeptSoFar(cfg: Config, s: State, init: Run) {
    Kept(cfg, s.trace, init) && (!s.e.pc.Resting? ==> AllSettled(ChapterOf(s.trace, init).calls))
  }

  lemma KeptSnoc(cfg: Config, trace: seq<Act>, a: Act, init: Run)
    requires Kept(cfg, trace, init)
    requires a.Called? ==> ByScript(cfg, ChapterOf(trace, init), a.req) && AllSettled(ChapterOf(trace, init).calls)
    ensures Kept(cfg, trace + [a], init)
  {
    assert (trace + [a])[..|trace|] == trace;
    forall k | 0 <= k < |trace| ensures (trace + [a])[..k] == trace[..k] {
    }
  }

  lemma AsksByScript(cfg: Config, e: Engine, c: Chapter, elapsed: real)
    requires Follows(cfg, e, c, elapsed) && !e.pc.Resting?
    ensures ByScript(cfg, c, Ask(e))
  {
    FollowersKeepTo(cfg, e, c, elapsed);
  }

  lemma TurnsSettled(c: Chapter, a: Act)
    requires AllSettled(c.calls) && Settled(a)
    ensures AllSettled(Turned(c, a).calls)
  {
  }

  lemma UnansweredRests(cfg: Config, e: Engine, reply: Reply, clock: real)
    requires !e.pc.Resting?
    ensures !Resume(cfg, e, reply, clock).pc.Resting? ==> Fits(Ask(e), reply)
  {
  }

  lemma ServeKeeps(cfg: Config, s: State, i: Input, init: Run, watch: Watch)
    requires OnScript(cfg, s, init, watch) && KeptSoFar(cfg, s, init) && i.Serve? && !s.e.pc.Resting?
    ensures KeptSoFar(cfg, Next(cfg, s, i), init)
  {
    ServeAdds(cfg, s, i, watch);
    var a, c := Exchange(s, i), ChapterOf(s.trace, init);
    AsksByScript(cfg, s.e, c, watch.elapsed);
    KeptSnoc(cfg, s.trace, a, init);
    ChapterTurns(s.trace, a, init);
    UnansweredRests(cfg, s.e, a.reply, i.clock);
    AnsweredWasApplied(s.w, a.req, i.answer, i.outcome);
    if Settled(a) {
      TurnsSettled(c, a);
    }
  }

  lemma KeepsStep(cfg: Config, s: State, i: Input, init: Run, watch: Watch)
    requires OnScript(cfg, s, init, watch) && KeptSoFar(cfg, s, init)
    ensures KeptSoFar(cfg, Next(cfg, s, i), init)
  {
    match i
    case Move(m) =>
      ChapterSnoc(s.trace, Host(m), init);
      KeptSnoc(cfg, s.trace, Host(m), init);
    case Begin =>
      ChapterSnoc(s.trace, Began(s.w.run), init);
      KeptSnoc(cfg, s.trace, Began(s.w.run), init);
    case Serve(_, _, _) =>
      if !s.e.pc.Resting? {
        ServeKeeps(cfg, s, i, init, watch);
      }
  }

  lemma {:induction false} KeepsAlong(cfg: Config, s: State, ins: seq<Input>, init: Run, watch: Watch)
    requires OnScript(cfg, s, init, watch) && KeptSoFar(cfg, s, init)
    ensures KeptSoFar(cfg, RunAll(cfg, s, ins), init)
    decreases |ins|
  {
    if |ins| > 0 {
      ScriptStep(cfg, s, ins[0], init, watch);
      KeepsStep(cfg, s, ins[0], init, watch);
      KeepsAlong(cfg, Next(cfg, s, ins[0]), ins[1..], init, Ticked(cfg, s, ins[0], watch));
    }
  }

  /** Every callback of every run is what the script of its moment says, after others that all were answered. */
  lemma EveryCallbackIsScripted(cfg: Config, w: World, ins: seq<Input>, k: nat)
    requires k < |RunAll(cfg, Start(w), ins).trace| && RunAll(cfg, Start(w), ins).trace[k].Called?
    ensures var trace := RunAll(cfg, Start(w), ins).trace;
            var c := ChapterOf(trace[..k], w.run);
            ByScript(cfg, c, trace[k].req) && AllSettled(c.calls)
  {
    KeepsAlong(cfg, Start(w), ins, w.run, UNSTARTED);
  }

  lemma {:induction false} AskedInOrder(calls: seq<Act>)
    requires AllSettled(calls)
    ensures |Asked(calls)| == |calls| && forall k :: 0 <= k < |calls| ==> Asked(calls)[k] == Shape(calls[k].req)
    decreases |calls|
  {
    if |calls| > 0 {
      AskedInOrder(calls[..|calls| - 1]);
    }
  }

  // ---- what the events of a step say ----

  /** The payload of a step's event, from the run and the step the pass read and the handler's answer. */
  predicate EventSays(cfg: Config, view: Run, step: Step, answer: Option<Outcome>, kind: EventKind, payload: Json) {
    match kind
    case EvStarted => payload == JObj(map["type" := JStr(step.kind)])
    case EvCompleted =>
      && answer.Some? && answer.value.Finished?
      && payload == JObj(map["type" := JStr(step.kind)]
                         + (if answer.value.refs.Some? then answer.value.refs.value else map[]))
    case EvFailed =>
      if step.kind !in cfg.registered then
        payload == JObj(map["type" := JStr(step.kind), "error" := JStr("Unsupported step type")])
      else
        && answer.Some? && (answer.value.Erred? || answer.value.Crashed?)
        && payload == JObj(map["type" := JStr(step.kind), "error" := JStr(answer.value.message)])
    case EvSkipped =>
      if step.kind in cfg.cat.grants && !Lists(view.grants, cfg.cat.grants[step.kind]) then
        payload == JObj(map["type" := JStr(step.kind), "reason" := JStr(cfg.cat.grants[step.kind])])
      else
        && answer.Some? && answer.value.NotApplicable?
        && payload == JObj(map["type" := JStr(step.kind), "reason" := JStr(answer.value.message)])
    case EvRequired => payload == JObj(RequiredFields(cfg.cat, view, step))
    case EvGranted => NeedsRecord(cfg.cat, view, step) && payload == JObj(GrantedFields(cfg.cat, view, step))
    case EvRunFailed => payload == JNull
    case _ => false
  }

  predicate Says(cfg: Config, view: Run, pos: nat, step: Step, answer: Option<Outcome>, line: Line) {
    line.Asks? && line.req.Append? && line.req.step.Some? ==>
      line.req.step == Some(pos) && EventSays(cfg, view, step, answer, line.req.kind, line.req.payload)
  }

  ghost predicate AllSay(cfg: Config, view: Run, pos: nat, step: Step, answer: Option<Outcome>, lines: seq<Line>) {
    forall k :: 0 <= k < |lines| ==> Says(cfg, view, pos, step, answer, lines[k])
  }

  predicate Permitted(cfg: Config, view: Run, kind: string) {
    kind in cfg.cat.grants ==> Lists(view.grants, cfg.cat.grants[kind])
  }

  lemma EndsSay(cfg: Config, view: Run, pos: nat, step: Step, l: Learned)
    ensures AllSay(cfg, view, pos, step, l.answer, EndsFailed(cfg, pos))
    ensures AllSay(cfg, view, pos, step, l.answer, GoesOn(l))
  {
  }

  lemma RereadsSay(cfg: Config, view: Run, pos: nat, step: Step, l: Learned)
    ensures AllSay(cfg, view, pos, step, l.answer, Rereads(cfg, pos, step, l))
  {
    EndsSay(cfg, view, pos, step, l);
  }

  lemma CallsSay(cfg: Config, view: Run, pos: nat, step: Step, l: Learned)
    requires Permitted(cfg, view, step.kind) && step.kind in cfg.registered
    ensures AllSay(cfg, view, pos, step, l.answer, Calls(cfg, pos, step, l))
  {
    EndsSay(cfg, view, pos, step, l);
    RereadsSay(cfg, view, pos, step, l);
  }

  lemma GateSays(cfg: Config, view: Run, pos: nat, step: Step, l: Learned)
    requires Permitted(cfg, view, step.kind)
    ensures AllSay(cfg, view, pos, step, l.answer, AtTheGate(cfg, view, pos, step, l))
  {
    EndsSay(cfg, view, pos, step, l);
    if step.kind in cfg.registered {
      CallsSay(cfg, view, pos, step, l);
    }
  }

  lemma ScriptSays(cfg: Config, c: Chapter, elapsed: real, l: Learned, pos: nat)
    requires AtTurn(c, pos)
    ensures var (view, steps) := c.reading.value;
            AllSay(cfg, view, pos, steps[pos], l.answer, ScriptWith(cfg, c, elapsed, l))
  {
    var (view, steps) := c.reading.value;
    EndsSay(cfg, view, pos, steps[pos], l);
    if Permitted(cfg, view, steps[pos].kind) {
      GateSays(cfg, view, pos, steps[pos], l);
    }
  }

  predicate StepEvent(line: Line) {
    line.Asks? && line.req.Append? && line.req.step.Some?
  }

  lemma NoTurnNoEvent(cfg: Config, c: Chapter, elapsed: real, l: Learned, k: nat)
    requires k < |ScriptWith(cfg, c, elapsed, l)| && StepEvent(ScriptWith(cfg, c, elapsed, l)[k])
    ensures c.reading.Some? && Turn(c.reading.value.1, 0).Some? && AtTurn(c, Turn(c.reading.value.1, 0).value)
  {
  }

  /** Every event of a step, over any drives and any host, is of the step whose turn it was and says what it should. */
  lemma EveryStepEventSays(cfg: Config, w: World, ins: seq<Input>, k: nat)
    requires k < |RunAll(cfg, Start(w), ins).trace|
    requires var a := RunAll(cfg, Start(w), ins).trace[k]; a.Called? && a.req.Append? && a.req.step.Some?
    ensures var trace := RunAll(cfg, Start(w), ins).trace;
            var (c, req) := (ChapterOf(trace[..k], w.run), trace[k].req);
            && AtTurn(c, req.step.value)
            && var (view, steps) := c.reading.value;
               EventSays(cfg, view, steps[req.step.value], HandlerSaid(c.calls), req.kind, req.payload)
  {
    EveryCallbackIsScripted(cfg, w, ins, k);
    var trace := RunAll(cfg, Start(w), ins).trace;
    ScriptedEventSays(cfg, ChapterOf(trace[..k], w.run), trace[k].req);
  }

  lemma ScriptedEventSays(cfg: Config, c: Chapter, req: Request)
    requires ByScript(cfg, c, req) && req.Append? && req.step.Some?
    ensures AtTurn(c, req.step.value)
    ensures var (view, steps) := c.reading.value;
            EventSays(cfg, view, steps[req.step.value], HandlerSaid(c.calls), req.kind, req.payload)
  {
    var elapsed: real :| Asked(c.calls) + [Shape(req)] <= ScriptOf(cfg, c, elapsed);
    var at := |Asked(c.calls)|;
    assert ScriptOf(cfg, c, elapsed)[at] == Asks(req);
    NoTurnNoEvent(cfg, c, elapsed, LearnedOf(c.calls), at);
    ScriptSays(cfg, c, elapsed, LearnedOf(c.calls), Turn(c.reading.value.1, 0).value);
  }

  // ---- what precedes a handler's call ----

  predicate IsCall(line: Line) {
    line.Asks? && line.req.Invoke?
  }

  ghost predicate NoCall(lines: seq<Line>) {
    forall k :: 0 <= k < |lines| ==> !IsCall(lines[k])
  }

  lemma CallsCallOnce(cfg: Config, pos: nat, step: Step, l: Learned)
    ensures |Calls(cfg, pos, step, l)| > 0 && Calls(cfg, pos, step, l)[0] == Asks(Invoke(pos, step))
    ensures NoCall(Calls(cfg, pos, step, l)[1..])
  {
    assert NoCall(EndsFailed(cfg, pos)) && NoCall(GoesOn(l)) && NoCall(Rereads(cfg, pos, step, l));
  }

  lemma DispatchCallsOnce(front: seq<Line>, calls: seq<Line>, k: nat)
    requires NoCall(front) && |calls| > 0 && NoCall(calls[1..])
    requires k < |front + calls| && IsCall((front + calls)[k])
    ensures k == |front| && (front + calls)[..k] == front
  {
    forall j | |front| < j < |front + calls| ensures !IsCall((front + calls)[j]) {
      assert (front + calls)[j] == calls[1..][j - |front| - 1];
    }
  }

  lemma StopCallsNone(cfg: Config, view: Run, pos: nat, step: Step, l: Learned)
    requires !Dispatches(cfg, view, step)
    ensures NoCall(AtTheGate(cfg, view, pos, step, l))
  {
    assert NoCall(EndsFailed(cfg, pos));
  }

  lemma GateCallsOnce(cfg: Config, view: Run, pos: nat, step: Step, l: Learned, k: nat)
    requires k < |AtTheGate(cfg, view, pos, step, l)| && IsCall(AtTheGate(cfg, view, pos, step, l)[k])
    ensures AtTheGate(cfg, view, pos, step, l)[k] == Asks(Invoke(pos, step))
    ensures AtTheGate(cfg, view, pos, step, l)[..k] == Approach(cfg, view, pos, step)
  {
    if Dispatches(cfg, view, step) {
      GatedCalls(cfg, view, pos, step, l);
      CallsCallOnce(cfg, pos, step, l);
      DispatchCallsOnce(Approach(cfg, view, pos, step), Calls(cfg, pos, step, l), k);
    } else {
      StopCallsNone(cfg, view, pos, step, l);
    }
  }

  lemma ScriptCallsOnce(cfg: Config, c: Chapter, elapsed: real, l: Learned, k: nat)
    requires k < |ScriptWith(cfg, c, elapsed, l)| && IsCall(ScriptWith(cfg, c, elapsed, l)[k])
    ensures c.reading.Some? && Turn(c.reading.value.1, 0).Some? && AtTurn(c, Turn(c.reading.value.1, 0).value)
    ensures var (view, steps) := c.reading.value;
            var pos := Turn(steps, 0).value;
            && ScriptWith(cfg, c, elapsed, l)[k] == Asks(Invoke(pos, steps[pos]))
            && ScriptWith(cfg, c, elapsed, l)[..k] == Approach(cfg, view, pos, steps[pos])
  {
    assert NoCall(GoesOn(l)) && NoCall(EndsCompleted(cfg));
    if c.reading.Some? && Turn(c.reading.value.1, 0).Some? {
      var (view, steps) := c.reading.value;
      var pos := Turn(steps, 0).value;
      assert NoCall(EndsFailed(cfg, pos));
      if pos < |steps| && ToTheGate(cfg, view, steps, elapsed, steps[pos]) {
        GateCallsOnce(cfg, view, pos, steps[pos], l, k);
      }
    }
  }

  /**
   Before a handler is called, and since the steps were last read, the drive has started the step and recorded the
   start; and if the step was awaiting, or pending and flagged or hard-gated, it has before that stored the step as
   approved and recorded the approval. Nothing else was asked, and each of these callbacks was applied.
   */
  lemma ApprovalIsRecorded(cfg: Config, w: World, ins: seq<Input>, k: nat)
    requires k < |RunAll(cfg, Start(w), ins).trace|
    requires RunAll(cfg, Start(w), ins).trace[k].Called? && RunAll(cfg, Start(w), ins).trace[k].req.Invoke?
    ensures var trace := RunAll(cfg, Start(w), ins).trace;
            var (c, pos, seen) := (ChapterOf(trace[..k], w.run), trace[k].req.pos, trace[k].req.seen);
            && AtTurn(c, pos) && c.reading.value.1[pos] == seen
            && AllSettled(c.calls)
            && Precedes(cfg, c.reading.value.0, pos, seen, c.calls)
  {
    EveryCallbackIsScripted(cfg, w, ins, k);
    var trace := RunAll(cfg, Start(w), ins).trace;
    ScriptedCallIsPreceded(cfg, ChapterOf(trace[..k], w.run), trace[k].req);
  }

  /** The callbacks between the reading of the steps and the handler's call. */
  predicate Precedes(cfg: Config, view: Run, pos: nat, seen: Step, calls: seq<Act>)
    requires AllSettled(calls)
  {
    if NeedsRecord(cfg.cat, view, seen) then
      && |calls| == 4
      && calls[0].req == SetStepState(pos, Approved, Leave, Leave)
      && calls[1].req == Append(EvGranted, Some(pos), JObj(GrantedFields(cfg.cat, view, seen)))
      && calls[2].req == SetStepState(pos, Running, Leave, Leave)
      && calls[3].req == Append(EvStarted, Some(pos), JObj(map["type" := JStr(seen.kind)]))
    else
      && |calls| == 2
      && calls[0].req == SetStepState(pos, Running, Leave, Leave)
      && calls[1].req == Append(EvStarted, Some(pos), JObj(map["type" := JStr(seen.kind)]))
  }

  lemma ScriptedCallIsPreceded(cfg: Config, c: Chapter, req: Request)
    requires ByScript(cfg, c, req) && req.Invoke? && AllSettled(c.calls)
    ensures AtTurn(c, req.pos) && c.reading.value.1[req.pos] == req.seen
    ensures Precedes(cfg, c.reading.value.0, req.pos, req.seen, c.calls)
  {
    var elapsed: real :| Asked(c.calls) + [Shape(req)] <= ScriptOf(cfg, c, elapsed);
    var at := |Asked(c.calls)|;
    assert ScriptOf(cfg, c, elapsed)[at] == Asks(req) && ScriptOf(cfg, c, elapsed)[..at] == Asked(c.calls);
    ScriptCallsOnce(cfg, c, elapsed, LearnedOf(c.calls), at);
    AskedInOrder(c.calls);
    ReadsAs(cfg, c.reading.value.0, req.pos, req.seen, c.calls);
  }

  lemma ReadsAs(cfg: Config, view: Run, pos: nat, seen: Step, calls: seq<Act>)
    requires AllSettled(calls) && Asked(calls) == Approach(cfg, view, pos, seen) && |Asked(calls)| == |calls|
    requires forall k :: 0 <= k < |calls| ==> Asked(calls)[k] == Shape(calls[k].req)
    ensures Precedes(cfg, view, pos, seen, calls)
  {
    forall k | 0 <= k < |calls| ensures Asks(calls[k].req) == Approach(cfg, view, pos, seen)[k] {
      assert Approach(cfg, view, pos, seen)[k] == Shape(calls[k].req);
      assert Approach(cfg, view, pos, seen)[k] != DRAIN;
    }
  }

  // ---- what a step's row holds ----

  predicate Writes(a: Act, pos: nat) {
    a.Called? && a.applied && a.req.SetStepState? && a.req.pos == pos
  }

  /** The error text last stored for a step, if any write said anything of it. */
  function LastError(trace: seq<Act>, pos: nat, initial: Option<string>): Option<string> {
    if |trace| == 0 then initial
    else
      var a := trace[|trace| - 1];
      if Writes(a, pos) && a.req.error.Put? then a.req.error.value
      else LastError(trace[..|trace| - 1], pos, initial)
  }

  function LastRefs(trace: seq<Act>, pos: nat, initial: Option<Refs>): Option<Refs> {
    if |trace| == 0 then initial
    else
      var a := trace[|trace| - 1];
      if Writes(a, pos) && a.req.refs.Put? then a.req.refs.value
      else LastRefs(trace[..|trace| - 1], pos, initial)
  }

  /** The status last stored for a step, by a write of the engine or of the host. */
  function LastStatus(trace: seq<Act>, pos: nat, initial: StepStatus): StepStatus {
    if |trace| == 0 then initial
    else
      var a := trace[|trace| - 1];
      if Writes(a, pos) then a.req.to
      else if a.Host? && a.move.PutStep? && a.move.pos == pos then a.move.status
      else LastStatus(trace[..|trace| - 1], pos, initial)
  }

  predicate HoldsLast(row: Row, trace: seq<Act>, pos: nat, was: Row) {
    && row.error == LastError(trace, pos, was.error) && row.refs == LastRefs(trace, pos, was.refs)
    && row.step.status == LastStatus(trace, pos, was.step.status)
    && row.step.kind == was.step.kind && row.step.title == was.step.title
  }

  lemma HoldsLastSnoc(row: Row, row': Row, trace: seq<Act>, a: Act, pos: nat, was: Row)
    requires HoldsLast(row, trace, pos, was)
    requires row'.step.kind == row.step.kind && row'.step.title == row.step.title
    requires row'.error == if Writes(a, pos) && a.req.error.Put? then a.req.error.value else row.error
    requires row'.refs == if Writes(a, pos) && a.req.refs.Put? then a.req.refs.value else row.refs
    requires row'.step.status ==
             if Writes(a, pos) then a.req.to
             else if a.Host? && a.move.PutStep? && a.move.pos == pos then a.move.status else row.step.status
    ensures HoldsLast(row', trace + [a], pos, was)
  {
    assert (trace + [a])[..|trace|] == trace;
  }

  lemma HoldsStep(cfg: Config, s: State, i: Input, pos: nat, was: Row)
    requires pos < |s.w.rows| && HoldsLast(s.w.rows[pos], s.trace, pos, was)
    ensures pos < |Next(cfg, s, i).w.rows| && HoldsLast(Next(cfg, s, i).w.rows[pos], Next(cfg, s, i).trace, pos, was)
  {
    var t := Next(cfg, s, i);
    if t.trace != s.trace {
      HoldsLastSnoc(s.w.rows[pos], t.w.rows[pos], s.trace, t.trace[|s.trace|], pos, was);
    }
  }

  lemma {:induction false} HoldsAlong(cfg: Config, s: State, ins: seq<Input>, pos: nat, was: Row)
    requires pos < |s.w.rows| && HoldsLast(s.w.rows[pos], s.trace, pos, was)
    ensures var t := RunAll(cfg, s, ins); pos < |t.w.rows| && HoldsLast(t.w.rows[pos], t.trace, pos, was)
    decreases |ins|
  {
    if |ins| > 0 {
      HoldsStep(cfg, s, ins[0], pos, was);
      HoldsAlong(cfg, Next(cfg, s, ins[0]), ins[1..], pos, was);
    }
  }

  /** Over any drives and any host, a step's row holds what was last written of each of its fields, and its own type. */
  lemma RowsHoldTheLastWrites(cfg: Config, w: World, ins: seq<Input>, pos: nat)
    requires pos < |w.rows|
    ensures var s := RunAll(cfg, Start(w), ins);
            && pos < |s.w.rows|
            && s.w.rows[pos].error == LastError(s.trace, pos, w.rows[pos].error)
            && s.w.rows[pos].refs == LastRefs(s.trace, pos, w.rows[pos].refs)
            && s.w.rows[pos].step.status == LastStatus(s.trace, pos, w.rows[pos].step.status)
            && s.w.rows[pos].step.kind == w.rows[pos].step.kind && s.w.rows[pos].step.title == w.rows[pos].step.title
  {
    HoldsAlong(cfg, Start(w), ins, pos, w.rows[pos]);
  }
}
