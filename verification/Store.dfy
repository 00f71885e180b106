/**
 The run store as a mutable object. Its methods are the callbacks of `store.RunStore`, the tool handler
 and the hook; each is proved to be one step of `System`, taken after whatever the host does first.
 */
module Store {
  import opened Basics
  import opened Model
  import opened Engine
  import opened System
  import Stream

  /** Why a drive ends without returning. */
  datatype Exn =
    | StoreError
    | ProcessStopped
    | UnknownStepStatus(pos: nat)
    | RunningStepNotPermitted(pos: nat)
    | StepOutcomeUnknown(pos: nat)
    | HandlerSignal(pos: nat)

  datatype Attempt<+T> = Got(value: T) | Raise(exn: Exn) {
    predicate IsFailure() {
      Raise?
    }

    function PropagateFailure<U>(): Attempt<U>
      requires IsFailure()
    {
      Raise(exn)
    }

    function Extract(): T
      requires !IsFailure()
    {
      value
    }
  }

  /** The host's answer to the pending callback. */
  datatype Turn = Turn(answer: Answer, outcome: Outcome)

  predicate Unanswered(answer: Answer) {
    answer.Refused? || answer.Lost?
  }

  /** Steps keep their positions and types. */
  predicate Grown(rows: seq<Row>, rows': seq<Row>) {
    |rows| <= |rows'| && forall k :: 0 <= k < |rows| ==> rows'[k].step.kind == rows[k].step.kind
  }

  // ---- where each answered callback takes the engine ----

  function AfterStatus(cfg: Config, pc: Pc): Pc {
    match pc
    case MarkRunning => FirstDrain
    case QuietFail => Drain(Quit(AlreadyReported))
    case FailStatus => if cfg.hooked then Hook(RunFailed) else Drain(Quit(EndedFailed))
    case BudgetStatus(reason) => PauseLog(reason)
    case StopStatus => Drain(Quit(Gated))
    case CompleteStatus => CompleteLog
    case _ => pc
  }

  function AfterAppend(cfg: Config, pc: Pc): Pc {
    match pc
    case Report(_) => FailStatus
    case Log(t) => AfterTransition(cfg, t)
    case BudgetLog(reason) => BudgetStatus(reason)
    case PauseLog(_) => Drain(Quit(OutOfBudget))
    case CompleteLog => if cfg.hooked then Hook(RunCompleted) else Drain(Quit(EndedCompleted))
    case _ => pc
  }

  function AfterBatch(e: Engine, events: seq<Event>, now: real): Engine {
    match e.pc
    case FirstDrain => Yield(e, events).(pc := ReadRun, started := now)
    case Drain(after) => Yield(e, events).(pc := AfterDrain(after))
    case CheckReport(pos) => e.(pc := if Reported(events, pos) then QuietFail else Report(pos))
    case _ => e
  }

  function AfterRun(pc: Pc, run: Option<Run>): Pc {
    if run.Some? && Halting(run.value.status) then Drain(Quit(Stopped))
    else if pc.ReadRun? then ReadSteps(run)
    else CompleteStatus
  }

  lemma ResumeBatch(cfg: Config, e: Engine, after: int, events: seq<Event>, now: real)
    requires !e.pc.Resting? && Ask(e) == EventsAfter(after)
    ensures Resume(cfg, e, Batch(events), now) == AfterBatch(e, events, now)
    ensures Resume(cfg, e, Broken, now) == e.(pc := Resting(StoreFailed(e.pc)))
  {
  }

  /** A drain whose answer arrives brings the stream level with the log. */
  lemma DrainCatchesUp(cfg: Config, s: State, turn: Turn, now: real)
    requires Stream.StreamInv(s) && s.e.pc.Drain?
    ensures var t := Next(cfg, s, Serve(turn.answer, turn.outcome, now));
            Stream.StreamInv(t) && (Unanswered(turn.answer) || |t.e.yielded| == |t.w.log| - t.mark)
  {
    var reply := Perform(s.w, Ask(s.e), turn.answer, turn.outcome).1;
    Stream.PerformForStream(s.w, Ask(s.e), turn.answer, turn.outcome);
    Stream.ResumeForStream(cfg, s.e, reply, now);
    Stream.ServedKeepsStream(s, Next(cfg, s, Serve(turn.answer, turn.outcome, now)), Ask(s.e), reply);
  }

  /**
   The host during one drive: its records, and a script of what it does and answers. The ghost state
   follows the automaton over the part of the script that has happened.
   */
  class RunStore {
    const cfg: Config
    var run: Run
    var rows: seq<Row>
    var log: seq<Event>
    var nextSeq: int
    var script: seq<Input>
    var now: real
    ghost const origin: State
    ghost const agenda: seq<Input>
    ghost var past: seq<Input>
    ghost var st: State

    ghost predicate Valid()
      reads this
    {
      && st.w == World(run, rows, log, nextSeq)
      && st == RunAll(cfg, origin, past)
      && past + script == agenda
      && (forall i :: i in script ==> !i.Begin?)
    }

    /** A drive begins on the records that earlier drives and the host have left. */
    constructor (cfg: Config, before: State, script: seq<Input>)
      requires before.e.pc.Resting? && forall i :: i in script ==> !i.Begin?
      ensures Valid() && this.cfg == cfg && origin == before && this.script == script
      ensures agenda == [Begin] + script && st == Next(cfg, before, Begin)
    {
      this.cfg := cfg;
      run, rows, log, nextSeq := before.w.run, before.w.rows, before.w.log, before.w.nextSeq;
      this.script := script;
      now := 0.0;
      origin := before;
      agenda := [Begin] + script;
      past := [Begin];
      st := Next(cfg, before, Begin);
      new;
      RunAllSnoc(cfg, before, [], Begin);
      assert [] + [Begin] == [Begin];
    }

    ghost predicate Asked(req: Request)
      reads this
    {
      Valid() && !st.e.pc.Resting? && Ask(st.e) == req
    }

    /** A callback was answered: the engine has moved on to another control state. */
    ghost predicate Moved(e: Engine, pc: Pc, rows0: seq<Row>, length: nat)
      reads this
    {
      Valid() && st.e == e.(pc := pc) && Grown(rows0, rows) && |script| < length
    }

    /** A callback failed, or the script ends before its answer. */
    ghost predicate Broke(e: Engine, exn: Exn)
      reads this
    {
      && Valid()
      && ((exn.StoreError? && st.e == e.(pc := Resting(StoreFailed(e.pc))))
          || (exn.ProcessStopped? && st.e == e && script == []))
    }

    method Apply(m: HostMove)
      modifies this`run, this`rows, this`log, this`nextSeq
      ensures World(run, rows, log, nextSeq) == System.Apply(World(old(run), old(rows), old(log), old(nextSeq)), m)
      ensures Grown(old(rows), rows)
    {
      match m
      case PutRun(r) => run := r;
      case PutStep(pos, status, flag) =>
        if pos < |rows| {
          rows := rows[pos := rows[pos].(step := rows[pos].step.(status := status, requiresApproval := flag))];
        }
      case AddStep(added) => rows := rows + [Row(added, None, None)];
      case AddEvent(kind, step, payload) =>
        log := log + [Event(nextSeq, kind, step, payload)];
        nextSeq := nextSeq + 1;
      case SkipNumbers(gap) => nextSeq := nextSeq + gap;
    }

    /** The host makes its moves until it answers the pending callback. */
    method Await() returns (r: Attempt<Turn>)
      requires Valid()
      modifies this
      ensures Valid() && st.e == old(st.e) && Grown(old(rows), rows) && |script| <= |old(script)|
      ensures old(past) <= past
      ensures r.Raise? ==> r.exn.ProcessStopped? && script == []
      ensures r.Got? ==> script != [] && script[0] == Serve(r.value.answer, r.value.outcome, now)
    {
      while script != [] && script[0].Move?
        invariant Valid() && st.e == old(st.e) && Grown(old(rows), rows) && |script| <= |old(script)|
        invariant old(past) <= past
        decreases |script|
      {
        Apply(script[0].move);
        RunAllSnoc(cfg, origin, past, script[0]);
        st, past := Next(cfg, st, script[0]), past + [script[0]];
        script := script[1..];
      }
      if script == [] {
        return Raise(ProcessStopped);
      }
      assert script[0] in script;
      now := script[0].clock;
      r := Got(Turn(script[0].answer, script[0].outcome));
    }

    /** The answer has been given: the engine resumes. */
    method Answer(reply: Reply)
      requires script != [] && script[0].Serve? && script[0].clock == now && !st.e.pc.Resting?
      requires st == RunAll(cfg, origin, past) && past + script == agenda && forall i :: i in script ==> !i.Begin?
      requires (World(run, rows, log, nextSeq), reply) == Perform(st.w, Ask(st.e), script[0].answer, script[0].outcome)
      modifies this`script, this`st, this`past
      ensures Valid() && st.e == Resume(cfg, old(st.e), reply, now) && |script| < |old(script)|
      ensures st == Next(cfg, old(st), old(script[0]))
    {
      RunAllSnoc(cfg, origin, past, script[0]);
      st, past := Next(cfg, st, script[0]), past + [script[0]];
      script := script[1..];
    }

    method NextSequence() returns (r: Attempt<int>)
      requires Asked(Request.NextSequence)
      modifies this
      ensures r.Got? ==>
        Moved(old(st.e).(cursor := r.value - 1),
              if Terminal(st.e.held.status) then Resting(Return(NothingToDo)) else MarkRunning,
              old(rows), |old(script)|)
        && st.mark == |log|
      ensures r.Raise? ==> Broke(old(st.e), r.exn)
    {
      var turn :- Await();
      var broken := Unanswered(turn.answer);
      Answer(if broken then Broken else Number(nextSeq));
      r := if broken then Raise(StoreError) else Got(nextSeq);
    }

    method GetRun() returns (r: Attempt<Option<Run>>)
      requires Asked(Request.GetRun)
      modifies this
      ensures r.Got? ==> Moved(old(st.e), AfterRun(old(st.e.pc), r.value), old(rows), |old(script)|)
      ensures r.Raise? ==> Broke(old(st.e), r.exn)
    {
      var turn :- Await();
      var broken := Unanswered(turn.answer);
      var found := if turn.answer.Absent? then None else Some(run);
      Answer(if broken then Broken else RunRow(found));
      r := if broken then Raise(StoreError) else Got(found);
    }

    method GetSteps() returns (r: Attempt<seq<Step>>)
      requires Asked(Request.GetSteps)
      modifies this
      ensures r.Got? ==>
        && r.value == Views(rows)
        && Moved(old(st.e), Decide(cfg.cat, View(st.e.held, old(st.e.pc.current)), r.value, now - st.e.started),
                 old(rows), |old(script)|)
      ensures r.Raise? ==> Broke(old(st.e), r.exn)
    {
      var turn :- Await();
      var broken := Unanswered(turn.answer);
      Answer(if broken then Broken else StepRows(Views(rows)));
      r := if broken then Raise(StoreError) else Got(Views(rows));
    }

    method GetStep(pos: nat) returns (r: Attempt<Option<Step>>)
      requires Asked(Request.GetStep(pos))
      modifies this
      ensures r.Got? ==>
        Moved(old(st.e), AfterReread(pos, if r.value.Some? then r.value.value.status else old(st.e.pc.step.status)),
              old(rows), |old(script)|)
      ensures r.Raise? ==> Broke(old(st.e), r.exn)
    {
      var turn :- Await();
      var broken := Unanswered(turn.answer);
      var found := if turn.answer.Absent? || pos >= |rows| then None else Some(rows[pos].step);
      Answer(if broken then Broken else StepRow(found));
      r := if broken then Raise(StoreError) else Got(found);
    }

    method SetRunStatus(status: RunStatus) returns (r: Attempt<Run>)
      requires Asked(Request.SetRunStatus(status))
      modifies this
      ensures r.Got? ==> Moved(old(st.e), AfterStatus(cfg, old(st.e.pc)), old(rows), |old(script)|)
      ensures r.Raise? ==> Broke(old(st.e), r.exn)
    {
      var turn :- Await();
      if !turn.answer.Refused? {
        run := run.(status := status);
      }
      var broken := Unanswered(turn.answer);
      Answer(if broken then Broken else RunRow(Some(run)));
      r := if broken then Raise(StoreError) else Got(run);
    }

    method SetStepState(pos: nat, to: StepStatus, error: Update<string>, refs: Update<Refs>) returns (r: Attempt<Step>)
      requires Asked(Request.SetStepState(pos, to, error, refs)) && pos < |rows|
      modifies this
      ensures r.Got? ==>
        && Moved(old(st.e), Log(old(st.e.pc.t)), old(rows), |old(script)|)
        && r.value.status == to && r.value.kind == old(rows[pos].step.kind)
      ensures r.Raise? ==> Broke(old(st.e), r.exn)
    {
      var turn :- Await();
      if !turn.answer.Refused? {
        rows := SetState(rows, pos, to, error, refs);
      }
      var broken := Unanswered(turn.answer);
      Answer(if broken then Broken else StepRow(Some(rows[pos].step)));
      r := if broken then Raise(StoreError) else Got(rows[pos].step);
    }

    method AppendEvent(kind: EventKind, step: Option<nat>, payload: Json) returns (r: Attempt<Event>)
      requires Asked(Append(kind, step, payload))
      modifies this
      ensures r.Got? ==> Moved(old(st.e), AfterAppend(cfg, old(st.e.pc)), old(rows), |old(script)|)
      ensures r.Raise? ==> Broke(old(st.e), r.exn)
    {
      var turn :- Await();
      var event := Event(nextSeq, kind, step, payload);
      if !turn.answer.Refused? {
        log, nextSeq := log + [event], nextSeq + 1;
      }
      var broken := Unanswered(turn.answer);
      Answer(if broken then Broken else Appended(event));
      r := if broken then Raise(StoreError) else Got(event);
    }

    /** The durable events past a sequence number. */
    method DrainedEvents(after: int) returns (r: Attempt<seq<Event>>)
      requires Asked(EventsAfter(after))
      modifies this
      ensures r.Got? ==> Grown(old(rows), rows) && |script| < |old(script)|
      ensures r.Got? ==> Valid() && st.e == AfterBatch(old(st.e), r.value, now)
      ensures r.Got? && old(st.e.pc.Drain?) && Stream.StreamInv(origin) ==>
                Stream.StreamInv(st) && |st.e.yielded| == |st.w.log| - st.mark
      ensures r.Raise? ==> Broke(old(st.e), r.exn)
    {
      var turn :- Await();
      var broken := Unanswered(turn.answer);
      var events := EventsPast(log, after);
      if Stream.StreamInv(origin) && st.e.pc.Drain? {
        Stream.StreamAlong(cfg, origin, past);
        DrainCatchesUp(cfg, st, turn, now);
      }
      ResumeBatch(cfg, st.e, after, events, now);
      Answer(if broken then Broken else Batch(events));
      r := if broken then Raise(StoreError) else Got(events);
    }

    /** A handler answers or raises; what it does to the store are the host's moves meanwhile. */
    method Handle(pos: nat, seen: Step) returns (r: Attempt<Outcome>)
      requires Asked(Invoke(pos, seen))
      modifies this
      ensures r.Got? ==> Moved(old(st.e), React(pos, seen, r.value), old(rows), |old(script)|)
      ensures r.Raise? ==> Broke(old(st.e), r.exn)
    {
      var turn :- Await();
      Answer(Answered(turn.outcome));
      r := Got(turn.outcome);
    }

    method OnRunEnd(outcome: RunStatus) returns (r: Attempt<()>)
      requires Asked(RunEnd(outcome))
      modifies this
      ensures r.Got? ==>
        Moved(old(st.e), Drain(Quit(if outcome.RunFailed? then EndedFailed else EndedCompleted)),
              old(rows), |old(script)|)
      ensures r.Raise? ==> Broke(old(st.e), r.exn)
    {
      var turn :- Await();
      var broken := Unanswered(turn.answer);
      Answer(if broken then Broken else Ack);
      r := if broken then Raise(StoreError) else Got(());
    }

    method Rollback() returns (r: Attempt<()>)
      requires Asked(Request.Rollback)
      modifies this
      ensures r.Got? ==>
        Moved(old(st.e), Write(FailStep(old(st.e.pc.pos), old(st.e.pc.kind), old(st.e.pc.message))),
              old(rows), |old(script)|)
      ensures r.Raise? ==> Broke(old(st.e), r.exn)
    {
      var turn :- Await();
      var broken := Unanswered(turn.answer);
      Answer(if broken then Broken else Ack);
      r := if broken then Raise(StoreError) else Got(());
    }

    /** The run as the store has it once no drive is in progress; the run at hand when it has none. */
    method Refresh(held: Run) returns (r: Attempt<Run>)
      requires Valid() && st.e.pc.Resting?
      modifies this
      ensures Valid() && st.e == old(st.e) && old(past) <= past
      ensures r.Got? ==>
        && |past| > |old(past)|
        && var last := past[|past| - 1];
           last.Serve? && !Unanswered(last.answer) && r.value == if last.answer.Absent? then held else run
      ensures r.Raise? ==> r.exn.StoreError? || (r.exn.ProcessStopped? && script == [])
    {
      var turn :- Await();
      RunAllSnoc(cfg, origin, past, script[0]);
      past, script := past + [script[0]], script[1..];
      r := if Unanswered(turn.answer) then Raise(StoreError) else Got(if turn.answer.Absent? then held else run);
    }
  }
}
