/**
 The engine and its host together. The host is an adversary: between any two callbacks, and while
 a handler or the hook runs, it may do any sequence of its moves. A run of the system is a finite
 sequence of inputs, so a theorem over all input sequences covers every interleaving, any number
 of drives, lost answers, and a process that stops at any point.
 */
module System {
  import opened Basics
  import opened Model
  import opened Engine

  /** The host's durable records for one run. `nextSeq` is the number the next event will get. */
  datatype World = World(run: Run, rows: seq<Row>, log: seq<Event>, nextSeq: int)

  datatype HostMove =
    | PutRun(run: Run)
    | PutStep(pos: nat, status: StepStatus, flag: bool)
    | AddStep(added: Step)
    | AddEvent(kind: EventKind, step: Option<nat>, payload: Json)
    | SkipNumbers(gap: nat)

  /** `Refused` callbacks change nothing; a `Lost` one is applied but its answer never arrives. */
  datatype Answer = Served | Absent | Refused | Lost

  datatype Input =
    | Move(move: HostMove)
    | Begin
    | Serve(answer: Answer, outcome: Outcome, clock: real)

  /** What crossed the boundary, in order. */
  datatype Act =
    | Host(move: HostMove)
    | Began(held: Run)
    | Called(req: Request, reply: Reply, applied: bool)

  /** `mark` is the length of the log when the current drive read its starting sequence. */
  datatype State = State(w: World, e: Engine, trace: seq<Act>, mark: nat)

  function Views(rows: seq<Row>): (steps: seq<Step>)
    ensures |steps| == |rows|
    ensures forall k :: 0 <= k < |rows| ==> steps[k] == rows[k].step
  {
    seq(|rows|, k requires 0 <= k < |rows| => rows[k].step)
  }

  function AddToLog(w: World, kind: EventKind, step: Option<nat>, payload: Json): World {
    w.(log := w.log + [Event(w.nextSeq, kind, step, payload)], nextSeq := w.nextSeq + 1)
  }

  function PutStatus(rows: seq<Row>, pos: nat, status: StepStatus): seq<Row>
    requires pos < |rows|
  {
    rows[pos := rows[pos].(step := rows[pos].step.(status := status))]
  }

  function Apply(w: World, m: HostMove): World {
    match m
    case PutRun(run) => w.(run := run)
    case PutStep(pos, status, requiresApproval) =>
      if pos < |w.rows| then
        w.(rows := w.rows[pos := w.rows[pos].(step :=
          w.rows[pos].step.(status := status, requiresApproval := requiresApproval))])
      else w
    case AddStep(step) => w.(rows := w.rows + [Row(step, None, None)])
    case AddEvent(kind, step, payload) => AddToLog(w, kind, step, payload)
    case SkipNumbers(gap) => w.(nextSeq := w.nextSeq + gap)
  }

  function SetState(rows: seq<Row>, pos: nat, to: StepStatus, error: Update<string>, refs: Update<Refs>)
    : (r: seq<Row>)
    requires pos < |rows|
  {
    rows[pos := Row(rows[pos].step.(status := to),
                    Updated(rows[pos].error, error), Updated(rows[pos].refs, refs))]
  }

  /** The events past a sequence number, in log order. */
  function EventsPast(log: seq<Event>, after: int): seq<Event> {
    if |log| == 0 then []
    else
      var last := log[|log| - 1];
      EventsPast(log[..|log| - 1], after) + (if last.sequence > after then [last] else [])
  }

  /** The host's side of one callback: what it changes and what it answers. */
  function Effect(w: World, req: Request, absent: bool, outcome: Outcome): (World, Reply) {
    match req
    case NextSequence => (w, Number(w.nextSeq))
    case GetRun => (w, RunRow(if absent then None else Some(w.run)))
    case GetSteps => (w, StepRows(Views(w.rows)))
    case GetStep(pos) => (w, StepRow(if absent || pos >= |w.rows| then None else Some(w.rows[pos].step)))
    case SetRunStatus(status) =>
      var run := w.run.(status := status);
      (w.(run := run), RunRow(Some(run)))
    case SetStepState(pos, to, error, refs) =>
      if pos >= |w.rows| then (w, Broken)
      else
        var rows := SetState(w.rows, pos, to, error, refs);
        (w.(rows := rows), StepRow(Some(rows[pos].step)))
    case Append(kind, step, payload) =>
      (AddToLog(w, kind, step, payload), Appended(Event(w.nextSeq, kind, step, payload)))
    case EventsAfter(after) => (w, Batch(EventsPast(w.log, after)))
    case Invoke(_, _) => (w, Answered(outcome))
    case RunEnd(_) => (w, Ack)
    case Rollback => (w, Ack)
  }

  /** A refused or lost callback leaves the engine without an answer; a handler always has an outcome. */
  function Perform(w: World, req: Request, answer: Answer, outcome: Outcome): (World, Reply) {
    var (w', reply) := Effect(w, req, answer.Absent?, outcome);
    if req.Invoke? then (w', reply)
    else match answer
      case Served => (w', reply)
      case Absent => (w', reply)
      case Refused => (w, Broken)
      case Lost => (w', Broken)
  }

  function Next(cfg: Config, s: State, i: Input): State {
    match i
    case Move(m) => s.(w := Apply(s.w, m), trace := s.trace + [Host(m)])
    case Begin =>
      if s.e.pc.Resting? then State(s.w, Fresh(s.w.run), s.trace + [Began(s.w.run)], |s.w.log|) else s
    case Serve(answer, outcome, clock) =>
      if s.e.pc.Resting? then s
      else
        var req := Ask(s.e);
        var (w', reply) := Perform(s.w, req, answer, outcome);
        State(w', Resume(cfg, s.e, reply, clock),
              s.trace + [Called(req, reply, req.Invoke? || !answer.Refused?)],
              if s.e.pc.AskSequence? then |s.w.log| else s.mark)
  }

  function RunAll(cfg: Config, s: State, ins: seq<Input>): State
    decreases |ins|
  {
    if |ins| == 0 then s else RunAll(cfg, Next(cfg, s, ins[0]), ins[1..])
  }

  /** No drive has happened yet. */
  function Start(w: World): State {
    State(w, Engine(Resting(NeverDriven), w.run, 0, 0.0, []), [], 0)
  }

  lemma {:induction false} RunAllSplit(cfg: Config, s: State, a: seq<Input>, b: seq<Input>)
    ensures RunAll(cfg, s, a + b) == RunAll(cfg, RunAll(cfg, s, a), b)
    decreases |a|
  {
    if |a| == 0 {
      assert a + b == b;
    } else {
      assert (a + b)[1..] == a[1..] + b;
      RunAllSplit(cfg, Next(cfg, s, a[0]), a[1..], b);
    }
  }

  lemma RunAllSnoc(cfg: Config, s: State, ins: seq<Input>, i: Input)
    ensures RunAll(cfg, s, ins + [i]) == Next(cfg, RunAll(cfg, s, ins), i)
  {
    RunAllSplit(cfg, s, ins, [i]);
    assert RunAll(cfg, Next(cfg, RunAll(cfg, s, ins), i), []) == Next(cfg, RunAll(cfg, s, ins), i);
  }

  lemma RunFour(cfg: Config, s: State, a: Input, b: Input, c: Input, d: Input)
    ensures RunAll(cfg, s, [a, b, c, d]) == Next(cfg, Next(cfg, Next(cfg, Next(cfg, s, a), b), c), d)
  {
    var s1 := Next(cfg, s, a);
    var s2 := Next(cfg, s1, b);
    var s3 := Next(cfg, s2, c);
    assert [a, b, c, d][1..] == [b, c, d] && [b, c, d][1..] == [c, d] && [c, d][1..] == [d];
    assert RunAll(cfg, s3, [d]) == RunAll(cfg, Next(cfg, s3, d), []);
    assert RunAll(cfg, s2, [c, d]) == RunAll(cfg, s3, [d]);
    assert RunAll(cfg, s1, [b, c, d]) == RunAll(cfg, s2, [c, d]);
  }

  lemma RunThree(cfg: Config, s: State, a: Input, b: Input, c: Input)
    ensures RunAll(cfg, s, [a, b, c]) == Next(cfg, Next(cfg, Next(cfg, s, a), b), c)
  {
    var s1 := Next(cfg, s, a);
    var s2 := Next(cfg, s1, b);
    assert [a, b, c][1..] == [b, c] && [b, c][1..] == [c];
    assert RunAll(cfg, s2, [c]) == RunAll(cfg, Next(cfg, s2, c), []);
    assert RunAll(cfg, s1, [b, c]) == RunAll(cfg, s2, [c]);
  }
}
