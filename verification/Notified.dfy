/**
 Exactly when the host's hook hears that a run has failed. The report in the log comes first, and every later drive
 that finds it stays quiet; so what the first callback after the report comes to decides it for good.
 */
module Notified {
  import opened Model
  import opened Engine
  import opened System
  import opened Flight
  import opened Failures
  import opened Scenes
  import opened Reopened

  /** What has come of the report: there is none, nothing has followed it yet, or the status write has or has not. */
  datatype Sequel = Unreported | Unfollowed | Confirmed | Missed

  /** An answered write of the failed status. */
  predicate Confirms(a: Act) {
    a.Called? && a.req == SetRunStatus(RunFailed) && a.reply.RunRow?
  }

  /** The engine's first callback after the report tells: only an answered status write confirms it. */
  function SequelOf(trace: seq<Act>): Sequel {
    if |trace| == 0 then Unreported
    else
      var a, before := trace[|trace| - 1], SequelOf(trace[..|trace| - 1]);
      if Reports(a) then Unfollowed
      else if before.Unfollowed? && a.Called? then (if Confirms(a) then Confirmed else Missed)
      else before
  }

  lemma SequelSnoc(trace: seq<Act>, a: Act)
    ensures SequelOf(trace + [a]) ==
            if Reports(a) then Unfollowed
            else if SequelOf(trace).Unfollowed? && a.Called? then (if Confirms(a) then Confirmed else Missed)
            else SequelOf(trace)
  {
    assert (trace + [a])[..|trace|] == trace;
  }

  /** A report that nothing has followed yet stands before the status write, or its drive is over. */
  predicate Waits(pc: Pc) {
    pc.FailStatus? || pc.Resting? || pc.AskSequence?
  }

  ghost predicate NoticeInv(cfg: Config, s: State) {
    var sequel, hooks := SequelOf(s.trace), HookCount(s.trace);
    && (sequel.Unreported? <==> ReportCount(s.trace) == 0)
    && (s.e.pc.FailStatus? ==> sequel.Unfollowed?)
    && (sequel.Unfollowed? ==> Waits(s.e.pc))
    && (s.e.pc == Hook(RunFailed) ==> sequel.Confirmed?)
    && (sequel.Confirmed? ==>
          if s.e.pc == Hook(RunFailed) || !cfg.hooked then hooks == 0 else hooks == 1)
    && (!sequel.Confirmed? ==> hooks == 0)
  }

  /** How the control states around the report follow one another. */
  ghost predicate NoticeResume(cfg: Config, e: Engine, e': Engine, a: Act) {
    && a.Called?
    && (Reports(a) ==> e.pc.Report?)
    && (e.pc.Report? ==> e'.pc.FailStatus? || e'.pc.Resting?)
    && (e'.pc.FailStatus? ==> e.pc.Report? && Reports(a))
    && (e.pc.FailStatus? ==>
          if Confirms(a) then (cfg.hooked ==> e'.pc == Hook(RunFailed)) && (!cfg.hooked ==> e'.pc != Hook(RunFailed))
          else e'.pc.Resting?)
    && (e'.pc == Hook(RunFailed) ==> e.pc.FailStatus? && Confirms(a) && cfg.hooked)
    && (HooksFailed(a) <==> e.pc == Hook(RunFailed))
    && (e.pc.AskSequence? ==> !Confirms(a))
    && !e'.pc.AskSequence?
  }

  lemma NoticeResumes(cfg: Config, e: Engine, reply: Reply, clock: real, applied: bool)
    requires !e.pc.Resting? && (Fits(Ask(e), reply) ==> applied)
    ensures NoticeResume(cfg, e, Resume(cfg, e, reply, clock), Called(Ask(e), reply, applied))
  {
    if e.pc.ReadSteps? && reply.StepRows? {
      NoticeDecides(cfg, View(e.held, e.pc.current), reply.steps, clock - e.started);
    }
  }

  lemma NoticeDecides(cfg: Config, view: Run, steps: seq<Step>, elapsed: real)
    ensures var pc := Decide(cfg.cat, view, steps, elapsed); !pc.FailStatus? && !pc.Hook? && !pc.AskSequence?
  {
  }

  lemma NoticeServed(cfg: Config, s: State, t: State, a: Act)
    requires NoticeInv(cfg, s) && !s.e.pc.Resting? && NoticeResume(cfg, s.e, t.e, a)
    requires t.trace == s.trace + [a] && (Reports(a) ==> ReportCount(s.trace) == 0)
    requires s.e.pc.Hook? ==> cfg.hooked
    ensures NoticeInv(cfg, t) && (SequelOf(s.trace).Missed? ==> SequelOf(t.trace).Missed?)
  {
    SequelSnoc(s.trace, a);
    CountsSnoc(s.trace, a);
  }

  lemma NoticeStep(cfg: Config, s: State, i: Input, pos: nat, stop: nat)
    requires NoticeInv(cfg, s) && FailureInv(cfg, s, pos, stop)
    ensures NoticeInv(cfg, Next(cfg, s, i))
    ensures SequelOf(s.trace).Missed? ==> SequelOf(Next(cfg, s, i).trace).Missed?
  {
    match i
    case Move(m) =>
      SequelSnoc(s.trace, Host(m));
      CountsSnoc(s.trace, Host(m));
    case Begin =>
      SequelSnoc(s.trace, Began(s.w.run));
      CountsSnoc(s.trace, Began(s.w.run));
    case Serve(answer, outcome, clock) =>
      if !s.e.pc.Resting? {
        var reply := Perform(s.w, Ask(s.e), answer, outcome).1;
        var applied := Ask(s.e).Invoke? || !answer.Refused?;
        AnsweredWasApplied(s.w, Ask(s.e), answer, outcome);
        NoticeResumes(cfg, s.e, reply, clock, applied);
        NoticeServed(cfg, s, Next(cfg, s, i), Called(Ask(s.e), reply, applied));
      }
  }

  lemma {:induction false} NoticeAlong(cfg: Config, s: State, ins: seq<Input>, pos: nat, stop: nat)
    requires NoticeInv(cfg, s) && FailureInv(cfg, s, pos, stop) && KeepsEndedAlong(cfg, s, ins)
    ensures NoticeInv(cfg, RunAll(cfg, s, ins))
    ensures SequelOf(s.trace).Missed? ==> SequelOf(RunAll(cfg, s, ins).trace).Missed?
    decreases |ins|
  {
    if |ins| > 0 {
      NoticeStep(cfg, s, ins[0], pos, stop);
      var pos' := FailureStep(cfg, s, ins[0], pos, stop);
      NoticeAlong(cfg, Next(cfg, s, ins[0]), ins[1..], pos', stop);
    }
  }

  /**
   Over any drives and re-openings, store failures included: once no drive is in progress, the hook has been called
   with `failed` exactly once if and only if the first callback after the report was an answered write of the failed
   status, and otherwise not at all.
   */
  lemma HookedExactly(cfg: Config, w: World, ins: seq<Input>)
    requires cfg.hooked && SureFrom(w) && KeepsEndedAlong(cfg, Start(w), ins)
    requires RunAll(cfg, Start(w), ins).e.pc.Resting?
    ensures var t := RunAll(cfg, Start(w), ins).trace;
            && (HookCount(t) == 1 <==> SequelOf(t).Confirmed?)
            && (HookCount(t) == 0 <==> !SequelOf(t).Confirmed?)
            && (ReportCount(t) == 1 <==> !SequelOf(t).Unreported?)
  {
    var stop :| w.nextSeq >= 1 || Blocked(w.rows, w.log, stop);
    NoticeAlong(cfg, Start(w), ins, 0, stop);
    OneFailureReport(cfg, w, ins);
  }

  /** A hook that has missed its call has missed it for good, whatever is driven, re-opened or answered later. */
  lemma MissedForGood(cfg: Config, w: World, before: seq<Input>, ins: seq<Input>)
    requires SureFrom(w) && KeepsEndedAlong(cfg, Start(w), before)
    requires var s := RunAll(cfg, Start(w), before); SequelOf(s.trace).Missed? && KeepsEndedAlong(cfg, s, ins)
    ensures var t := RunAll(cfg, RunAll(cfg, Start(w), before), ins).trace; ReportCount(t) == 1 && HookCount(t) == 0
  {
    var stop :| w.nextSeq >= 1 || Blocked(w.rows, w.log, stop);
    var s := RunAll(cfg, Start(w), before);
    NoticeAlong(cfg, Start(w), before, 0, stop);
    var pos := FailureAlong(cfg, Start(w), before, 0, stop);
    NoticeAlong(cfg, s, ins, pos, stop);
    var _ := FailureAlong(cfg, s, ins, pos, stop);
  }

  // ---- runs that lose their hook call ----

  const REFUSED: Input := Serve(Refused, Unobserved, 0.0)

  /** A run that stands at a failed step which the log does not report. */
  ghost predicate Unheard(w: World, pos: nat) {
    FailedAt(w.rows, pos) && !Visible(w.log, pos) && !Terminal(w.run.status) && w.nextSeq >= 1
  }

  /** A drive of such a run, answered long enough, has reported the failure and is about to write the status. */
  lemma ComesToStatus(cfg: Config, b: State, pos: nat) returns (n: nat)
    requires b.e.pc.AskSequence? && b.e.held == b.w.run && Unheard(b.w, pos)
    ensures ServedFor(cfg, b, n).e.pc.FailStatus?
  {
    LooksUp(cfg, b, pos);
    Advances(cfg, ServedFor(cfg, b, 6));
    ServedForNext(cfg, b, 6);
    n := 7;
  }

  lemma DrivesToStatus(cfg: Config, w: World, pos: nat) returns (front: seq<Input>)
    requires Unheard(w, pos)
    ensures RunAll(cfg, Start(w), front).e.pc.FailStatus? && KeepsEndedAlong(cfg, Start(w), front)
  {
    var b := Next(cfg, Start(w), Begin);
    var n := ComesToStatus(cfg, b, pos);
    ServedForIsRun(cfg, b, n);
    front := [Begin] + Times(n);
    assert front[1..] == Times(n);
    TimesServes(n);
    WithoutStepsKeeps(cfg, Start(w), front);
  }

  /** A refused status write right after the report makes the hook miss its call. */
  lemma RefusalMisses(cfg: Config, w: World, front: seq<Input>)
    requires SureFrom(w) && KeepsEndedAlong(cfg, Start(w), front) && RunAll(cfg, Start(w), front).e.pc.FailStatus?
    ensures KeepsEndedAlong(cfg, Start(w), front + [REFUSED])
    ensures var s := RunAll(cfg, Start(w), front + [REFUSED]); s.e.pc.Resting? && SequelOf(s.trace).Missed?
  {
    var stop :| w.nextSeq >= 1 || Blocked(w.rows, w.log, stop);
    var s := RunAll(cfg, Start(w), front);
    NoticeAlong(cfg, Start(w), front, 0, stop);
    RunAllSnoc(cfg, Start(w), front, REFUSED);
    SequelSnoc(s.trace, Called(SetRunStatus(RunFailed), Broken, false));
    KeepsEndedSnoc(cfg, Start(w), front, REFUSED);
  }

  /**
   So the call can be lost: every run that stands at an unreported failure has a drive, cut by one refused callback,
   after which the report stands and no history of drives and re-openings ever calls the hook.
   */
  lemma HookIsLost(cfg: Config, w: World, pos: nat) returns (before: seq<Input>)
    requires Unheard(w, pos)
    ensures KeepsEndedAlong(cfg, Start(w), before) && RunAll(cfg, Start(w), before).e.pc.Resting?
    ensures forall ins :: KeepsEndedAlong(cfg, RunAll(cfg, Start(w), before), ins) ==>
              var t := RunAll(cfg, RunAll(cfg, Start(w), before), ins).trace; ReportCount(t) == 1 && HookCount(t) == 0
  {
    var front := DrivesToStatus(cfg, w, pos);
    RefusalMisses(cfg, w, front);
    before := front + [REFUSED];
    forall ins | KeepsEndedAlong(cfg, RunAll(cfg, Start(w), before), ins)
      ensures var t := RunAll(cfg, RunAll(cfg, Start(w), before), ins).trace; ReportCount(t) == 1 && HookCount(t) == 0
    {
      MissedForGood(cfg, w, before, ins);
    }
  }
}
