/** One failure report per run, across drives: the durable log decides whether a failure was reported. */
module Failures {
  import opened Basics
  import opened Model
  import opened Engine
  import opened System
  import opened Flight

  /** The host takes no finished or failed step back, unless it is the one whose handler is running. */
  predicate KeepsEnded(s: State, i: Input) {
    i.Move? && i.move.PutStep? && i.move.pos < |s.w.rows| ==>
      || (s.e.pc.Call? && s.e.pc.pos == i.move.pos)
      || KeepsEnd(s.w.rows[i.move.pos].step.status, i.move.status)
  }

  predicate KeepsEnd(status: StepStatus, status': StepStatus) {
    (Done(status) ==> Done(status')) && (status.Failed? ==> status'.Failed?)
  }

  /** Every input keeps finished and failed steps; the host may re-open the run, change its settings, and append. */
  predicate KeepsEndedAlong(cfg: Config, s: State, ins: seq<Input>)
    decreases |ins|
  {
    |ins| == 0 || (KeepsEnded(s, ins[0]) && KeepsEndedAlong(cfg, Next(cfg, s, ins[0]), ins[1..]))
  }

  predicate Reports(a: Act) {
    a.Called? && a.applied && a.req.Append? && a.req.kind.EvRunFailed?
  }

  predicate HooksFailed(a: Act) {
    a.Called? && a.req.RunEnd? && a.req.outcome.RunFailed?
  }

  function ReportCount(trace: seq<Act>): nat {
    if |trace| == 0 then 0
    else ReportCount(trace[..|trace| - 1]) + (if Reports(trace[|trace| - 1]) then 1 else 0)
  }

  function HookCount(trace: seq<Act>): nat {
    if |trace| == 0 then 0
    else HookCount(trace[..|trace| - 1]) + (if HooksFailed(trace[|trace| - 1]) then 1 else 0)
  }

  lemma CountsSnoc(trace: seq<Act>, a: Act)
    ensures ReportCount(trace + [a]) == ReportCount(trace) + (if Reports(a) then 1 else 0)
    ensures HookCount(trace + [a]) == HookCount(trace) + (if HooksFailed(a) then 1 else 0)
  {
    assert (trace + [a])[..|trace|] == trace;
  }

  /** The failed step the run cannot get past. */
  ghost predicate FailedAt(rows: seq<Row>, pos: nat) {
    pos < |rows| && rows[pos].step.status.Failed? && Behind(rows, pos)
  }

  /** A drain from zero, which is what the engine looks at, shows a report of this step. */
  ghost predicate Visible(log: seq<Event>, pos: nat) {
    Reported(EventsPast(log, 0), pos)
  }

  predicate ReportOf(event: Event, pos: nat) {
    event.kind.EvRunFailed? && event.step == Some(pos)
  }

  lemma VisibleSnoc(log: seq<Event>, event: Event, pos: nat)
    ensures Visible(log + [event], pos) <==> Visible(log, pos) || (event.sequence > 0 && ReportOf(event, pos))
  {
    assert (log + [event])[..|log|] == log;
    var events, events' := EventsPast(log, 0), EventsPast(log + [event], 0);
    if Visible(log, pos) {
      var e :| e in events && e.kind == EvRunFailed && e.step == Some(pos);
      assert e in events';
    }
    if event.sequence > 0 && ReportOf(event, pos) {
      assert event in events';
    }
  }

  /** The engine sees exactly the reports numbered above zero. */
  lemma {:induction false} VisibleAboveZero(log: seq<Event>, pos: nat)
    ensures Visible(log, pos) <==> exists k :: 0 <= k < |log| && log[k].sequence > 0 && ReportOf(log[k], pos)
    decreases |log|
  {
    if |log| > 0 {
      var front, last := log[..|log| - 1], log[|log| - 1];
      VisibleAboveZero(front, pos);
      VisibleSnoc(front, last, pos);
      assert log == front + [last];
      if k :| 0 <= k < |front| && front[k].sequence > 0 && ReportOf(front[k], pos) {
        assert log[k] == front[k];
      }
      if k :| 0 <= k < |log| - 1 && log[k].sequence > 0 && ReportOf(log[k], pos) {
        assert front[k] == log[k];
      }
    }
  }

  // ---- when a report is sure to be seen ----

  /** A step up to the failed one at `stop` that could still fail has a visible report. */
  ghost predicate Blocked(rows: seq<Row>, log: seq<Event>, stop: nat) {
    && stop < |rows| && rows[stop].step.status.Failed?
    && forall k :: 0 <= k <= stop ==> Done(rows[k].step.status) || Visible(log, k)
  }

  /** The next report gets a number the engine can see, or whatever can fail has one it can see already. */
  ghost predicate Sure(w: World, at: Option<nat>, stop: nat) {
    || w.nextSeq >= 1
    || (Blocked(w.rows, w.log, stop) && (at.Some? ==> at.value < stop && Visible(w.log, at.value)))
  }

  /** The log keeps what it has. */
  ghost predicate LogKept(log: seq<Event>, log': seq<Event>) {
    log' == log || exists event :: log' == log + [event]
  }

  lemma KeptStaysVisible(log: seq<Event>, log': seq<Event>, pos: nat)
    requires LogKept(log, log') && Visible(log, pos)
    ensures Visible(log', pos)
  {
    if log' != log {
      var event :| log' == log + [event];
      VisibleSnoc(log, event, pos);
    }
  }

  lemma BlockedStays(rows: seq<Row>, log: seq<Event>, rows': seq<Row>, log': seq<Event>, stop: nat, at: Option<nat>)
    requires Blocked(rows, log, stop) && LogKept(log, log') && |rows| <= |rows'|
    requires at.Some? ==> at.value < stop && Visible(log, at.value)
    requires forall k :: 0 <= k < |rows| ==>
               at == Some(k) || KeepsEnd(rows[k].step.status, rows'[k].step.status)
    ensures Blocked(rows', log', stop) && (at.Some? ==> Visible(log', at.value))
  {
    forall k | 0 <= k <= stop ensures Done(rows'[k].step.status) || Visible(log', k) {
      if !Done(rows[k].step.status) || at == Some(k) {
        KeptStaysVisible(log, log', k);
      }
    }
    if at.Some? {
      KeptStaysVisible(log, log', at.value);
    }
  }

  /** A pass over blocked rows works before the failed step, on a step whose report is visible. */
  lemma DecidedBeforeStop(rows: seq<Row>, log: seq<Event>, pc: Pc, stop: nat)
    requires Blocked(rows, log, stop) && Decided(Views(rows), pc) && At(pc).Some?
    ensures At(pc).value < stop && Visible(log, At(pc).value)
  {
    var pos := At(pc).value;
    assert Views(rows)[stop] == rows[stop].step && Views(rows)[pos] == rows[pos].step;
  }

  lemma SureServed(s: State, t: State, req: Request, reply: Reply, stop: nat)
    requires Sure(s.w, At(s.e.pc), stop) && !s.e.pc.Resting?
    requires Carried(s.e, t.e, req, reply) && FailureReply(s.w, t.w, req, reply)
    ensures Sure(t.w, At(t.e.pc), stop)
  {
    if t.w.nextSeq < 1 {
      BlockedStays(s.w.rows, s.w.log, t.w.rows, t.w.log, stop, At(s.e.pc));
      if s.e.pc.ReadSteps? && At(t.e.pc).Some? {
        DecidedBeforeStop(s.w.rows, s.w.log, t.e.pc, stop);
      }
    }
  }

  lemma SureMoved(s: State, m: HostMove, stop: nat)
    requires Sure(s.w, At(s.e.pc), stop) && KeepsEnded(s, Move(m))
    ensures Sure(Apply(s.w, m), At(s.e.pc), stop)
  {
    var w := Apply(s.w, m);
    assert LogKept(s.w.log, w.log);
    if w.nextSeq < 1 {
      BlockedStays(s.w.rows, s.w.log, w.rows, w.log, stop, At(s.e.pc));
    }
  }

  /** A report that is made is one the engine will see. */
  lemma SureReport(w: World, pos: nat, payload: Json, stop: nat)
    requires Sure(w, None, stop) && FailedAt(w.rows, pos)
    ensures Visible(w.log + [Event(w.nextSeq, EvRunFailed, Some(pos), payload)], pos)
  {
    VisibleSnoc(w.log, Event(w.nextSeq, EvRunFailed, Some(pos), payload), pos);
  }

  /** The engine is executing a step that has not failed, so nothing has been reported yet. */
  ghost predicate Executing(rows: seq<Row>, pos: nat, reports: nat) {
    reports == 0 && pos < |rows| && Behind(rows, pos)
  }

  predicate Unfailed(t: Transition) {
    && (t.onward.ThenStart? ==> !t.onward.step.status.Failed?)
    && (t.onward.ThenCall? ==> !t.onward.step.status.Failed?)
    && (t.onward.ThenFailRun? ==> t.to.Failed?)
  }

  /** What each control state knows about the run's failure. */
  ghost predicate Knows(cfg: Config, pc: Pc, rows: seq<Row>, reports: nat, hooks: nat) {
    match pc
    case Write(t) => Executing(rows, t.pos, reports) && Unfailed(t)
    case Log(t) => Executing(rows, t.pos, reports) && Unfailed(t)
                   && (t.onward.ThenFailRun? ==> FailedAt(rows, t.pos))
    case Call(pos, step) => Executing(rows, pos, reports) && !step.status.Failed?
    case UndoHost(pos, _, _) => Executing(rows, pos, reports)
    case Reread(pos, step) => Executing(rows, pos, reports) && !step.status.Failed?
    case CheckReport(pos) => FailedAt(rows, pos)
    case Report(pos) => reports == 0 && FailedAt(rows, pos)
    case FailStatus => reports == 1 && hooks == 0
    case Hook(outcome) => cfg.hooked && (outcome.RunFailed? ==> reports == 1 && hooks == 0)
    case Drain(after) =>
      && (after.FailRun? ==> reports == 0 && FailedAt(rows, after.pos))
      && (after == Quit(EndedFailed) ==> reports == 1 && (cfg.hooked ==> hooks == 1))
    case Resting(exit) => exit == Return(EndedFailed) ==> reports == 1 && (cfg.hooked ==> hooks == 1)
    case _ => true
  }

  ghost predicate FailureInv(cfg: Config, s: State, pos: nat, stop: nat) {
    var reports, hooks := ReportCount(s.trace), HookCount(s.trace);
    && Sure(s.w, At(s.e.pc), stop)
    && hooks <= reports <= 1
    && (reports == 1 ==> FailedAt(s.w.rows, pos) && Visible(s.w.log, pos))
    && Knows(cfg, s.e.pc, s.w.rows, reports, hooks)
  }

  lemma DecideKnows(cfg: Config, view: Run, rows: seq<Row>, elapsed: real, reports: nat, hooks: nat, pos: nat)
    requires reports <= 1 && (reports == 1 ==> FailedAt(rows, pos))
    ensures Knows(cfg, Decide(cfg.cat, view, Views(rows), elapsed), rows, reports, hooks)
  {
    DecideDecides(cfg, view, Views(rows), elapsed);
  }

  /** What the host's answer means for the failure's records. */
  ghost predicate FailureReply(w: World, w': World, req: Request, reply: Reply) {
    && RowsReply(w, w', req, reply)
    && w.nextSeq <= w'.nextSeq
    && (req.Append? && reply.Appended? ==> w'.log != w.log)
    && (w'.log == w.log
        || (req.Append? && w'.log == w.log + [Event(w.nextSeq, req.kind, req.step, req.payload)]))
    && (req.EventsAfter? && reply.Batch? ==> reply.events == EventsPast(w.log, req.after))
    && (req.GetStep? && reply.StepRow? && reply.step.Some? ==>
          req.pos < |w.rows| && reply.step.value == w.rows[req.pos].step)
  }

  lemma PerformForFailures(w: World, req: Request, answer: Answer, outcome: Outcome)
    ensures var (w', reply) := Perform(w, req, answer, outcome);
            && FailureReply(w, w', req, reply)
            && (req.Append? ==> (w'.log == w.log <==> answer.Refused?))
  {
  }

  /** The control state after a served callback knows what it must, given the records before it. */
  lemma ExecutionKnows(cfg: Config, e: Engine, w: World, w': World, reply: Reply, clock: real,
                       applied: bool, reports: nat, hooks: nat)
    requires At(e.pc).Some?
    requires Knows(cfg, e.pc, w.rows, reports, hooks) && hooks <= reports <= 1
    requires FailureReply(w, w', Ask(e), reply) && (Fits(Ask(e), reply) ==> applied)
    ensures !Reports(Called(Ask(e), reply, applied)) && !HooksFailed(Called(Ask(e), reply, applied))
    ensures Knows(cfg, Resume(cfg, e, reply, clock).pc, w'.rows, reports, hooks)
  {
  }

  lemma ControlKnows(cfg: Config, e: Engine, w: World, w': World, reply: Reply, clock: real,
                     applied: bool, reports: nat, hooks: nat)
    requires !e.pc.Resting? && !e.pc.ReadSteps? && !e.pc.CheckReport? && At(e.pc).None?
    requires Knows(cfg, e.pc, w.rows, reports, hooks) && hooks <= reports <= 1
    requires w'.rows == w.rows && (Fits(Ask(e), reply) ==> applied)
    ensures var a := Called(Ask(e), reply, applied);
            && (Reports(a) ==> e.pc.Report? && Ask(e).step == Some(e.pc.pos))
            && (HooksFailed(a) ==> reports == 1 && hooks == 0)
            && Knows(cfg, Resume(cfg, e, reply, clock).pc, w'.rows,
                     reports + (if Reports(a) then 1 else 0), hooks + (if HooksFailed(a) then 1 else 0))
  {
  }

  /** Only one step can be the first unfinished one. */
  lemma OneFailure(rows: seq<Row>, pos: nat, pos': nat)
    requires FailedAt(rows, pos) && FailedAt(rows, pos')
    ensures pos == pos'
  {
  }

  lemma LookupKnows(cfg: Config, e: Engine, w: World, reply: Reply, clock: real, reports: nat, hooks: nat, pos: nat)
    requires e.pc.CheckReport? && FailedAt(w.rows, e.pc.pos) && reports <= 1
    requires reports == 1 ==> FailedAt(w.rows, pos) && Visible(w.log, pos)
    requires reply.Batch? ==> reply.events == EventsPast(w.log, 0)
    ensures Knows(cfg, Resume(cfg, e, reply, clock).pc, w.rows, reports, hooks)
    ensures !Ask(e).Append? && !Ask(e).RunEnd? && !Ask(e).SetStepState?
  {
    if reports == 1 {
      OneFailure(w.rows, pos, e.pc.pos);
    }
  }

  lemma ReadingKnows(cfg: Config, e: Engine, w: World, reply: Reply, clock: real, reports: nat, hooks: nat, pos: nat)
    requires e.pc.ReadSteps? && reports <= 1 && (reports == 1 ==> FailedAt(w.rows, pos))
    requires reply.StepRows? ==> reply.steps == Views(w.rows)
    ensures Knows(cfg, Resume(cfg, e, reply, clock).pc, w.rows, reports, hooks)
    ensures !Ask(e).Append? && !Ask(e).RunEnd? && !Ask(e).SetStepState?
  {
    if reply.StepRows? {
      DecideKnows(cfg, View(e.held, e.pc.current), w.rows, clock - e.started, reports, hooks, pos);
    }
  }

  lemma ResumeKnows(cfg: Config, e: Engine, w: World, w': World, reply: Reply, clock: real, applied: bool,
                    reports: nat, hooks: nat, pos: nat)
    requires !e.pc.Resting? && Knows(cfg, e.pc, w.rows, reports, hooks) && hooks <= reports <= 1
    requires reports == 1 ==> FailedAt(w.rows, pos) && Visible(w.log, pos)
    requires FailureReply(w, w', Ask(e), reply) && (Fits(Ask(e), reply) ==> applied)
    ensures var a := Called(Ask(e), reply, applied);
            && (Reports(a) ==> e.pc.Report? && Ask(e).step == Some(e.pc.pos))
            && (HooksFailed(a) ==> reports == 1 && hooks == 0)
            && Knows(cfg, Resume(cfg, e, reply, clock).pc, w'.rows,
                     reports + (if Reports(a) then 1 else 0), hooks + (if HooksFailed(a) then 1 else 0))
  {
    if e.pc.ReadSteps? {
      ReadingKnows(cfg, e, w, reply, clock, reports, hooks, pos);
    } else if e.pc.CheckReport? {
      LookupKnows(cfg, e, w, reply, clock, reports, hooks, pos);
    } else if At(e.pc).Some? {
      ExecutionKnows(cfg, e, w, w', reply, clock, applied, reports, hooks);
    } else {
      ControlKnows(cfg, e, w, w', reply, clock, applied, reports, hooks);
    }
  }

  /** Steps already failed and steps before them are out of the engine's reach. */
  lemma ServedKeepsFailure(cfg: Config, s: State, t: State, a: Act, pos: nat, stop: nat) returns (pos': nat)
    requires FailureInv(cfg, s, pos, stop) && !s.e.pc.Resting? && Sure(t.w, At(t.e.pc), stop)
    requires a.Called? && t.trace == s.trace + [a]
    requires FailureReply(s.w, t.w, a.req, a.reply) && (a.req.Append? ==> (t.w.log == s.w.log <==> !a.applied))
    requires a.req.SetStepState? ==> At(s.e.pc).Some?
    requires Reports(a) ==> s.e.pc.Report? && a.req.step == Some(s.e.pc.pos)
    requires HooksFailed(a) ==> ReportCount(s.trace) == 1 && HookCount(s.trace) == 0
    requires Knows(cfg, t.e.pc, t.w.rows,
                   ReportCount(s.trace) + (if Reports(a) then 1 else 0),
                   HookCount(s.trace) + (if HooksFailed(a) then 1 else 0))
    ensures FailureInv(cfg, t, pos', stop)
  {
    CountsSnoc(s.trace, a);
    pos' := pos;
    if Reports(a) {
      pos' := s.e.pc.pos;
      SureReport(s.w, pos', a.req.payload, stop);
    } else if ReportCount(s.trace) == 1 {
      KeptStaysVisible(s.w.log, t.w.log, pos);
    }
  }

  lemma FailureServed(cfg: Config, s: State, t: State, a: Act, clock: real, pos: nat, stop: nat) returns (pos': nat)
    requires FailureInv(cfg, s, pos, stop) && !s.e.pc.Resting?
    requires a.Called? && a.req == Ask(s.e) && t.trace == s.trace + [a] && t.e == Resume(cfg, s.e, a.reply, clock)
    requires FailureReply(s.w, t.w, a.req, a.reply) && (Fits(a.req, a.reply) ==> a.applied)
    requires a.req.Append? ==> (t.w.log == s.w.log <==> !a.applied)
    ensures FailureInv(cfg, t, pos', stop)
  {
    ResumeCarries(cfg, s.e, a.reply, clock);
    SureServed(s, t, a.req, a.reply, stop);
    ResumeKnows(cfg, s.e, s.w, t.w, a.reply, clock, a.applied, ReportCount(s.trace), HookCount(s.trace), pos);
    pos' := ServedKeepsFailure(cfg, s, t, a, pos, stop);
  }

  lemma FailureStep(cfg: Config, s: State, i: Input, pos: nat, stop: nat) returns (pos': nat)
    requires FailureInv(cfg, s, pos, stop) && KeepsEnded(s, i)
    ensures FailureInv(cfg, Next(cfg, s, i), pos', stop)
  {
    pos' := pos;
    match i
    case Move(m) =>
      HostKeepsFailure(cfg, s, m, pos, stop);
    case Begin =>
      CountsSnoc(s.trace, Began(s.w.run));
    case Serve(answer, outcome, clock) =>
      if !s.e.pc.Resting? {
        var reply := Perform(s.w, Ask(s.e), answer, outcome).1;
        PerformForFailures(s.w, Ask(s.e), answer, outcome);
        AnsweredWasApplied(s.w, Ask(s.e), answer, outcome);
        pos' := FailureServed(cfg, s, Next(cfg, s, i),
                              Called(Ask(s.e), reply, Ask(s.e).Invoke? || !answer.Refused?), clock, pos, stop);
      }
  }

  lemma HostKeepsFailure(cfg: Config, s: State, m: HostMove, pos: nat, stop: nat)
    requires FailureInv(cfg, s, pos, stop) && KeepsEnded(s, Move(m))
    ensures FailureInv(cfg, Next(cfg, s, Move(m)), pos, stop)
  {
    CountsSnoc(s.trace, Host(m));
    SureMoved(s, m, stop);
    if ReportCount(s.trace) == 1 {
      KeptStaysVisible(s.w.log, Apply(s.w, m).log, pos);
    }
    MovedKnows(cfg, s, m, ReportCount(s.trace), HookCount(s.trace));
    if ReportCount(s.trace) == 1 {
      MovedStaysFailed(cfg, s, m, pos);
    }
  }

  lemma MovedStaysFailed(cfg: Config, s: State, m: HostMove, pos: nat)
    requires KeepsEnded(s, Move(m)) && FailedAt(s.w.rows, pos) && At(s.e.pc).None?
    ensures FailedAt(Apply(s.w, m).rows, pos)
  {
  }

  lemma MovedKnows(cfg: Config, s: State, m: HostMove, reports: nat, hooks: nat)
    requires KeepsEnded(s, Move(m)) && Knows(cfg, s.e.pc, s.w.rows, reports, hooks)
    ensures Knows(cfg, s.e.pc, Apply(s.w, m).rows, reports, hooks)
  {
  }

  lemma {:induction false} FailureAlong(cfg: Config, s: State, ins: seq<Input>, pos: nat, stop: nat) returns (pos': nat)
    requires FailureInv(cfg, s, pos, stop) && KeepsEndedAlong(cfg, s, ins)
    ensures FailureInv(cfg, RunAll(cfg, s, ins), pos', stop)
    decreases |ins|
  {
    pos' := pos;
    if |ins| > 0 {
      var mid := FailureStep(cfg, s, ins[0], pos, stop);
      pos' := FailureAlong(cfg, Next(cfg, s, ins[0]), ins[1..], mid, stop);
    }
  }

  /** Reports are sure to be seen from the start, because of their numbers or of the rows the run starts with. */
  ghost predicate SureFrom(w: World) {
    w.nextSeq >= 1 || exists stop :: Blocked(w.rows, w.log, stop)
  }

  /**
   Over any sequence of drives and re-openings, store failures included, from a world in which reports are
   sure to be seen: the failure is reported at most once and its hook called at most once, never without the
   report; a drive that returns failed has reported, and called the hook, exactly once.
   */
  lemma OneFailureReport(cfg: Config, w: World, ins: seq<Input>)
    requires SureFrom(w) && KeepsEndedAlong(cfg, Start(w), ins)
    ensures var s := RunAll(cfg, Start(w), ins);
            && HookCount(s.trace) <= ReportCount(s.trace) <= 1
            && (s.e.pc == Resting(Return(EndedFailed)) ==>
                  ReportCount(s.trace) == 1 && (cfg.hooked ==> HookCount(s.trace) == 1))
  {
    var stop :| w.nextSeq >= 1 || Blocked(w.rows, w.log, stop);
    var _ := FailureAlong(cfg, Start(w), ins, 0, stop);
  }

  // ---- drives after the report ----

  predicate OnlyLooks(a: Act) {
    a.Host? || a.Began?
    || (a.Called? && (a.req.NextSequence? || a.req.GetRun? || a.req.GetSteps? || a.req.EventsAfter?
                      || a.req.SetRunStatus?))
  }

  /** The control states of a drive over a run whose failure is already in the log. */
  predicate Looking(pc: Pc) {
    pc.Resting? || pc.AskSequence? || pc.MarkRunning? || pc.FirstDrain? || pc.ReadRun? || pc.ReadSteps?
    || pc.CheckReport? || pc.QuietFail? || (pc.Drain? && pc.after.Quit?)
  }

  ghost predicate SettledAt(s: State, pos: nat) {
    && FailedAt(s.w.rows, pos) && Visible(s.w.log, pos) && Looking(s.e.pc)
    && (s.e.pc.CheckReport? ==> s.e.pc.pos == pos)
  }

  /** Once the failure is reported and the drive has ended, the run is settled at the failed step. */
  lemma ReportedRunIsSettled(cfg: Config, w: World, ins: seq<Input>) returns (pos: nat)
    requires SureFrom(w) && KeepsEndedAlong(cfg, Start(w), ins)
    requires ReportCount(RunAll(cfg, Start(w), ins).trace) > 0 && RunAll(cfg, Start(w), ins).e.pc.Resting?
    ensures SettledAt(RunAll(cfg, Start(w), ins), pos)
  {
    var stop :| w.nextSeq >= 1 || Blocked(w.rows, w.log, stop);
    pos := FailureAlong(cfg, Start(w), ins, 0, stop);
  }

  lemma DecideLooksUp(cfg: Config, view: Run, rows: seq<Row>, elapsed: real, pos: nat)
    requires FailedAt(rows, pos)
    ensures Decide(cfg.cat, view, Views(rows), elapsed) == CheckReport(pos)
  {
    var steps := Views(rows);
    assert steps[pos].status.Failed?;
    assert FirstUnfinished(steps) == Some(pos);
  }

  lemma OthersStayLooking(cfg: Config, e: Engine, reply: Reply, clock: real)
    requires Looking(e.pc) && !e.pc.Resting? && !e.pc.ReadSteps?
    requires e.pc.CheckReport? && reply.Batch? ==> Reported(reply.events, e.pc.pos)
    ensures var pc := Resume(cfg, e, reply, clock).pc; Looking(pc) && !pc.CheckReport?
  {
  }

  lemma LookingStaysLooking(cfg: Config, s: State, reply: Reply, clock: real, pos: nat)
    requires SettledAt(s, pos) && !s.e.pc.Resting?
    requires s.e.pc.ReadSteps? && reply.StepRows? ==> reply.steps == Views(s.w.rows)
    requires s.e.pc.CheckReport? && reply.Batch? ==> reply.events == EventsPast(s.w.log, 0)
    ensures var pc := Resume(cfg, s.e, reply, clock).pc;
            Looking(pc) && (pc.CheckReport? ==> pc.pos == pos)
  {
    if s.e.pc.ReadSteps? {
      DecideLooksUp(cfg, View(s.e.held, s.e.pc.current), s.w.rows, clock - s.e.started, pos);
    } else {
      OthersStayLooking(cfg, s.e, reply, clock);
    }
  }

  lemma SettledStep(cfg: Config, s: State, i: Input, pos: nat)
    requires SettledAt(s, pos) && KeepsEnded(s, i)
    ensures var t := Next(cfg, s, i);
            && SettledAt(t, pos)
            && (t.trace == s.trace || (|t.trace| == |s.trace| + 1 && t.trace[..|s.trace|] == s.trace
                                       && OnlyLooks(t.trace[|s.trace|])))
  {
    var t := Next(cfg, s, i);
    if i.Serve? && !s.e.pc.Resting? {
      var reply := Perform(s.w, Ask(s.e), i.answer, i.outcome).1;
      PerformForFailures(s.w, Ask(s.e), i.answer, i.outcome);
      LookingStaysLooking(cfg, s, reply, i.clock, pos);
    }
    assert LogKept(s.w.log, t.w.log);
    KeptStaysVisible(s.w.log, t.w.log, pos);
  }

  /** Re-driving a run whose failure was reported writes no step, appends no event, calls no handler and no hook. */
  lemma {:induction false} RedriveLeavesRecords(cfg: Config, s: State, ins: seq<Input>, pos: nat)
    requires SettledAt(s, pos) && KeepsEndedAlong(cfg, s, ins)
    ensures var t := RunAll(cfg, s, ins);
            && SettledAt(t, pos)
            && |s.trace| <= |t.trace| && t.trace[..|s.trace|] == s.trace
            && (forall k :: |s.trace| <= k < |t.trace| ==> OnlyLooks(t.trace[k]))
    decreases |ins|
  {
    if |ins| > 0 {
      var mid := Next(cfg, s, ins[0]);
      SettledStep(cfg, s, ins[0], pos);
      RedriveLeavesRecords(cfg, mid, ins[1..], pos);
      var t := RunAll(cfg, s, ins);
      assert forall k :: 0 <= k < |mid.trace| ==> t.trace[..|mid.trace|][k] == t.trace[k];
      assert t.trace[..|s.trace|] == mid.trace[..|s.trace|];
    }
  }
}
