/** Terminal events, terminal status writes and hook calls: how they pair within one drive. */
module Completion {
  import opened Model
  import opened Engine
  import opened System
  import opened Flight

  datatype Query = TerminalEvents | TerminalWrites | HookCalls

  predicate EndsRun(status: RunStatus) {
    status.RunCompleted? || status.RunFailed?
  }

  predicate Matches(a: Act, q: Query) {
    a.Called? &&
    match q
    case TerminalEvents => a.applied && a.req.Append? && (a.req.kind.EvRunCompleted? || a.req.kind.EvRunFailed?)
    case TerminalWrites => a.applied && a.req.SetRunStatus? && EndsRun(a.req.status)
    case HookCalls => a.req.RunEnd?
  }

  function Tally(trace: seq<Act>, q: Query): nat {
    if |trace| == 0 then 0
    else Tally(trace[..|trace| - 1], q) + (if Matches(trace[|trace| - 1], q) then 1 else 0)
  }

  function Count(a: Act, q: Query): nat {
    if Matches(a, q) then 1 else 0
  }

  lemma TallySnoc(trace: seq<Act>, a: Act)
    ensures Tally(trace + [a], TerminalEvents) == Tally(trace, TerminalEvents) + Count(a, TerminalEvents)
    ensures Tally(trace + [a], TerminalWrites) == Tally(trace, TerminalWrites) + Count(a, TerminalWrites)
    ensures Tally(trace + [a], HookCalls) == Tally(trace, HookCalls) + Count(a, HookCalls)
  {
    assert (trace + [a])[..|trace|] == trace;
  }

  /** One drive, observed from its first callback. */
  function DriveFrom(w: World): State {
    State(w, Fresh(w.run), [], |w.log|)
  }

  predicate OneDrive(ins: seq<Input>) {
    forall i :: i in ins ==> !i.Begin?
  }

  function One(b: bool): nat {
    if b then 1 else 0
  }

  /** What a drive has done when it returns. */
  ghost predicate Settled(cfg: Config, ending: Ending, events: nat, writes: nat, hooks: nat) {
    match ending
    case EndedFailed => events == writes == 1 && hooks == One(cfg.hooked)
    case EndedCompleted => events == writes == 1 && hooks == One(cfg.hooked)
    case AlreadyReported => events == hooks == 0 && writes == 1
    case _ => events == writes == hooks == 0
  }

  ghost predicate Drained(cfg: Config, after: After, events: nat, writes: nat, hooks: nat) {
    if after.Quit? then Settled(cfg, after.ending, events, writes, hooks)
    else events == writes == hooks == 0
  }

  /** What a drive has done when a callback fails; a hook that raises has been called. */
  ghost predicate CutShort(cfg: Config, at: Pc, applied: bool, events: nat, writes: nat, hooks: nat) {
    match at
    case Report(_) => events == One(applied) && writes == hooks == 0
    case FailStatus => events == 1 && writes == One(applied) && hooks == 0
    case QuietFail => writes == One(applied) && events == hooks == 0
    case CompleteStatus => writes == One(applied) && events == hooks == 0
    case CompleteLog => writes == 1 && events == One(applied) && hooks == 0
    case Hook(_) => cfg.hooked && events == writes == hooks == 1
    case Drain(after) => Drained(cfg, after, events, writes, hooks)
    case _ => events == writes == hooks == 0
  }

  /** What a drive has done by the time it is at rest, given whether its last callback was applied. */
  ghost predicate Did(cfg: Config, exit: Exit, applied: bool, events: nat, writes: nat, hooks: nat) {
    match exit
    case Return(ending) => Settled(cfg, ending, events, writes, hooks)
    case StoreFailed(at) => CutShort(cfg, at, applied, events, writes, hooks)
    case _ => events == writes == hooks == 0
  }

  /** What has been done so far, by control state. */
  ghost predicate Ledger(cfg: Config, pc: Pc, applied: bool, events: nat, writes: nat, hooks: nat) {
    match pc
    case FailStatus => events == 1 && writes == 0 && hooks == 0
    case CompleteLog => events == 0 && writes == 1 && hooks == 0
    case Hook(_) => cfg.hooked && events == 1 && writes == 1 && hooks == 0
    case Drain(after) => Drained(cfg, after, events, writes, hooks)
    case Resting(exit) => Did(cfg, exit, applied, events, writes, hooks)
    case _ => events == writes == hooks == 0
  }

  /** Whether the host applied the last callback. */
  predicate LastApplied(trace: seq<Act>) {
    |trace| > 0
    && var a := trace[|trace| - 1];
       if a.Called? then a.applied else LastApplied(trace[..|trace| - 1])
  }

  lemma AppliedSnoc(trace: seq<Act>, a: Act)
    ensures LastApplied(trace + [a]) <==> if a.Called? then a.applied else LastApplied(trace)
  {
    assert (trace + [a])[..|trace|] == trace;
  }

  /** The control states that end a run, and the drains that follow. */
  predicate Closing(pc: Pc) {
    pc.QuietFail? || pc.Report? || pc.FailStatus? || pc.Hook? || pc.CompleteStatus? || pc.CompleteLog? || pc.Drain?
  }

  ghost predicate Moves(cfg: Config, e: Engine, pc: Pc, reply: Reply, applied: bool,
                        events: nat, writes: nat, hooks: nat)
    requires !e.pc.Resting?
  {
    var a := Called(Ask(e), reply, applied);
    Ledger(cfg, pc, applied,
           events + Count(a, TerminalEvents), writes + Count(a, TerminalWrites), hooks + Count(a, HookCalls))
  }

  lemma ClosingAnswered(cfg: Config, e: Engine, reply: Reply, clock: real, events: nat, writes: nat, hooks: nat)
    requires Closing(e.pc) && Ledger(cfg, e.pc, true, events, writes, hooks) && Fits(Ask(e), reply)
    ensures Moves(cfg, e, Resume(cfg, e, reply, clock).pc, reply, true, events, writes, hooks)
  {
  }

  lemma ClosingFails(cfg: Config, e: Engine, reply: Reply, applied: bool, events: nat, writes: nat, hooks: nat)
    requires Closing(e.pc) && Ledger(cfg, e.pc, true, events, writes, hooks)
    ensures Moves(cfg, e, Resting(StoreFailed(e.pc)), reply, applied, events, writes, hooks)
  {
  }

  lemma DecisionMoves(cfg: Config, view: Run, steps: seq<Step>, elapsed: real, applied: bool)
    ensures Ledger(cfg, Decide(cfg.cat, view, steps, elapsed), applied, 0, 0, 0)
  {
  }

  lemma OthersMove(cfg: Config, e: Engine, reply: Reply, clock: real, applied: bool)
    requires !e.pc.Resting? && !Closing(e.pc)
    ensures Moves(cfg, e, Resume(cfg, e, reply, clock).pc, reply, applied, 0, 0, 0)
  {
    AddsNothing(e, reply, applied);
    if e.pc.ReadSteps? && reply.StepRows? {
      DecisionMoves(cfg, View(e.held, e.pc.current), reply.steps, clock - e.started, applied);
    }
  }

  lemma AddsNothing(e: Engine, reply: Reply, applied: bool)
    requires !e.pc.Resting? && !Closing(e.pc)
    ensures var a := Called(Ask(e), reply, applied);
            Count(a, TerminalEvents) == Count(a, TerminalWrites) == Count(a, HookCalls) == 0
  {
  }

  lemma LedgerResume(cfg: Config, e: Engine, reply: Reply, clock: real, applied: bool,
                     events: nat, writes: nat, hooks: nat)
    requires !e.pc.Resting? && Ledger(cfg, e.pc, true, events, writes, hooks)
    requires Fits(Ask(e), reply) ==> applied
    ensures Moves(cfg, e, Resume(cfg, e, reply, clock).pc, reply, applied, events, writes, hooks)
  {
    if !Closing(e.pc) {
      OthersMove(cfg, e, reply, clock, applied);
    } else if Fits(Ask(e), reply) {
      ClosingAnswered(cfg, e, reply, clock, events, writes, hooks);
    } else {
      ClosingFails(cfg, e, reply, applied, events, writes, hooks);
    }
  }

  ghost predicate Balanced(cfg: Config, s: State) {
    Ledger(cfg, s.e.pc, LastApplied(s.trace) || !s.e.pc.Resting?,
           Tally(s.trace, TerminalEvents), Tally(s.trace, TerminalWrites), Tally(s.trace, HookCalls))
  }

  lemma BalanceServed(cfg: Config, s: State, t: State, reply: Reply, applied: bool, clock: real)
    requires Balanced(cfg, s) && !s.e.pc.Resting? && (Fits(Ask(s.e), reply) ==> applied)
    requires t.trace == s.trace + [Called(Ask(s.e), reply, applied)] && t.e == Resume(cfg, s.e, reply, clock)
    ensures Balanced(cfg, t)
  {
    var events, writes := Tally(s.trace, TerminalEvents), Tally(s.trace, TerminalWrites);
    TallySnoc(s.trace, Called(Ask(s.e), reply, applied));
    AppliedSnoc(s.trace, Called(Ask(s.e), reply, applied));
    LedgerResume(cfg, s.e, reply, clock, applied, events, writes, Tally(s.trace, HookCalls));
  }

  lemma BalanceStep(cfg: Config, s: State, i: Input)
    requires Balanced(cfg, s) && !i.Begin?
    ensures Balanced(cfg, Next(cfg, s, i))
  {
    match i
    case Move(m) =>
      TallySnoc(s.trace, Host(m));
      AppliedSnoc(s.trace, Host(m));
    case Serve(answer, outcome, clock) =>
      if !s.e.pc.Resting? {
        var reply := Perform(s.w, Ask(s.e), answer, outcome).1;
        AnsweredWasApplied(s.w, Ask(s.e), answer, outcome);
        BalanceServed(cfg, s, Next(cfg, s, i), reply, Ask(s.e).Invoke? || !answer.Refused?, clock);
      }
  }

  lemma {:induction false} BalanceAlong(cfg: Config, s: State, ins: seq<Input>)
    requires Balanced(cfg, s) && OneDrive(ins)
    ensures Balanced(cfg, RunAll(cfg, s, ins))
    decreases |ins|
  {
    if |ins| > 0 {
      BalanceStep(cfg, s, ins[0]);
      BalanceAlong(cfg, Next(cfg, s, ins[0]), ins[1..]);
    }
  }

  /** As many terminal status writes as terminal events, and as many hook calls where there is a hook. */
  predicate Paired(cfg: Config, events: nat, writes: nat, hooks: nat) {
    events == writes && (cfg.hooked ==> hooks == events)
  }

  /**
   The exits that pair: every return but the one over a failure already reported, every raise, and a failed
   callback unless it stands between the first and the last of an ending's records.
   */
  predicate Pairs(cfg: Config, exit: Exit, applied: bool) {
    match exit
    case Return(ending) => !ending.AlreadyReported?
    case StoreFailed(at) =>
      (match at
       case Report(_) => !applied
       case QuietFail => !applied
       case CompleteStatus => !applied
       case FailStatus => applied && !cfg.hooked
       case CompleteLog => applied && !cfg.hooked
       case Drain(after) => after != Quit(AlreadyReported)
       case _ => true)
    case _ => true
  }

  lemma PairsExactly(cfg: Config, exit: Exit, applied: bool, events: nat, writes: nat, hooks: nat)
    requires Did(cfg, exit, applied, events, writes, hooks)
    ensures Paired(cfg, events, writes, hooks) <==> Pairs(cfg, exit, applied)
  {
  }

  /**
   Every exit of every drive, failed callbacks included: what the drive has appended, written and called is exactly
   what its exit stands for, and the three pair if and only if the exit is one that pairs. There is never more than
   one terminal event or terminal status write, and never a hook call without both.
   */
  lemma CompletionPairing(cfg: Config, w: World, ins: seq<Input>)
    requires OneDrive(ins)
    ensures var s := RunAll(cfg, DriveFrom(w), ins);
            var events, writes, hooks :=
              Tally(s.trace, TerminalEvents), Tally(s.trace, TerminalWrites), Tally(s.trace, HookCalls);
            && events <= 1 && writes <= 1 && hooks <= events && hooks <= writes
            && (s.e.pc.Resting? ==>
                  && Did(cfg, s.e.pc.exit, LastApplied(s.trace), events, writes, hooks)
                  && (Paired(cfg, events, writes, hooks) <==> Pairs(cfg, s.e.pc.exit, LastApplied(s.trace))))
  {
    BalanceAlong(cfg, DriveFrom(w), ins);
    var s := RunAll(cfg, DriveFrom(w), ins);
    if s.e.pc.Resting? {
      PairsExactly(cfg, s.e.pc.exit, LastApplied(s.trace), Tally(s.trace, TerminalEvents),
                   Tally(s.trace, TerminalWrites), Tally(s.trace, HookCalls));
    }
  }

  // ---- a pause or cancel that a drive has read ----

  predicate ReadsHalt(a: Act) {
    a.Called? && a.req.GetRun? && a.reply.RunRow? && a.reply.run.Some?
    && (a.reply.run.value.status == RunPaused || a.reply.run.value.status == RunCancelled)
  }

  /** Nothing but the final drain, whatever the host does meanwhile. */
  predicate OnlyDrains(a: Act) {
    a.Host? || (a.Called? && a.req.EventsAfter?)
  }

  predicate Leaving(pc: Pc) {
    pc == Drain(Quit(Stopped)) || pc == Resting(Return(Stopped)) || pc == Resting(StoreFailed(Drain(Quit(Stopped))))
  }

  ghost predicate HaltInv(s: State) {
    && (forall k :: 0 <= k < |s.trace| && ReadsHalt(s.trace[k]) ==> Leaving(s.e.pc))
    && (forall j, k :: 0 <= j < k < |s.trace| && ReadsHalt(s.trace[j]) ==> OnlyDrains(s.trace[k]))
  }

  lemma LeavingOnlyDrains(cfg: Config, e: Engine, reply: Reply, clock: real)
    requires !e.pc.Resting?
    ensures Leaving(e.pc) ==> Ask(e).EventsAfter? && Leaving(Resume(cfg, e, reply, clock).pc)
    ensures Ask(e).GetRun? && reply.RunRow? && reply.run.Some? && Halting(reply.run.value.status)
            ==> Leaving(Resume(cfg, e, reply, clock).pc)
  {
  }

  lemma HaltStep(cfg: Config, s: State, i: Input)
    requires HaltInv(s) && !i.Begin?
    ensures HaltInv(Next(cfg, s, i))
  {
    if i.Serve? && !s.e.pc.Resting? {
      LeavingOnlyDrains(cfg, s.e, Perform(s.w, Ask(s.e), i.answer, i.outcome).1, i.clock);
    }
  }

  lemma {:induction false} HaltAlong(cfg: Config, s: State, ins: seq<Input>)
    requires HaltInv(s) && OneDrive(ins)
    ensures HaltInv(RunAll(cfg, s, ins))
    decreases |ins|
  {
    if |ins| > 0 {
      HaltStep(cfg, s, ins[0]);
      HaltAlong(cfg, Next(cfg, s, ins[0]), ins[1..]);
    }
  }

  /** Once a read shows the run paused or cancelled, the drive only drains its stream and returns. */
  lemma HaltIsHonoured(cfg: Config, w: World, ins: seq<Input>, seen: nat)
    requires OneDrive(ins)
    requires var s := RunAll(cfg, DriveFrom(w), ins); seen < |s.trace| && ReadsHalt(s.trace[seen])
    ensures var s := RunAll(cfg, DriveFrom(w), ins);
            && Leaving(s.e.pc)
            && (forall k :: seen < k < |s.trace| ==> OnlyDrains(s.trace[k]))
            && Tally(s.trace, TerminalEvents) == Tally(s.trace, TerminalWrites) == Tally(s.trace, HookCalls) == 0
  {
    HaltAlong(cfg, DriveFrom(w), ins);
    BalanceAlong(cfg, DriveFrom(w), ins);
  }
}
