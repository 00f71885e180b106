/**
 The drive as the repository writes it: a re-fetching loop over a mutable store, and a cursor that its
 drain moves. Each method is proved to follow the automaton of `Engine`, so whatever a drive does to the
 store is a run of `System`, and every theorem about runs is a theorem about `ExecuteRunEvents`.
 */
module Driver {
  import opened Basics
  import opened Policies
  import opened Model
  import opened Engine
  import Automaton = Engine
  import opened System
  import opened Store
  import Stream

  /** How a pass ends: with another pass, with nothing left to do, or with the drive. */
  datatype Onward = NextPass | AllDone | Ended

  function Closing(outcome: RunStatus): Ending {
    if outcome.RunFailed? then EndedFailed else EndedCompleted
  }

  /** The exit that goes with an exception; a stopped process is at rest nowhere. */
  predicate Explains(exn: Exn, pc: Pc) {
    match exn
    case StoreError => pc.Resting? && pc.exit.StoreFailed?
    case ProcessStopped => true
    case UnknownStepStatus(pos) => pc == Resting(UnknownStatus(pos))
    case RunningStepNotPermitted(pos) => pc == Resting(NotPermitted(pos))
    case StepOutcomeUnknown(pos) => pc == Resting(OutcomeUnknown(pos))
    case HandlerSignal(pos) => pc == Resting(HostSignal(pos))
  }

  /** A drive in progress: the object it was given, and the variables its generator closes over. */
  class Drive {
    const store: RunStore
    const held: Run
    var cursor: int
    var yielded: seq<Event>
    var started: real

    /** The stream's variables are the automaton's. */
    ghost predicate Tied()
      reads this, store
    {
      store.Valid() && store.st.e == Engine(store.st.e.pc, held, cursor, store.st.e.started, yielded)
    }

    /** The drive is about to make the callback of a control state. */
    ghost predicate Ready(pc: Pc)
      reads this, store
    {
      store.Valid() && store.st.e == Engine(pc, held, cursor, started, yielded)
    }

    ghost predicate Raised(exn: Exn)
      reads this, store
    {
      Tied() && Explains(exn, store.st.e.pc) && (exn.ProcessStopped? ==> store.script == [])
    }

    /** Later in the same drive, with every step still in its place. */
    ghost predicate Later(rows0: seq<Row>, length: nat)
      reads store
    {
      Grown(rows0, store.rows) && |store.script| < length
    }

    /** The store has just begun a drive, and the generator's variables are fresh. */
    constructor (store: RunStore)
      requires store.Valid() && store.st.e == Fresh(store.run)
      ensures this.store == store && held == store.run && Ready(AskSequence)
    {
      this.store := store;
      held := store.run;
      cursor, yielded, started := 0, [], 0.0;
    }

    /** Yields what the log holds past the cursor, one event at a time. */
    method Drain() returns (r: Attempt<()>)
      requires Tied() && (store.st.e.pc.Drain? || store.st.e.pc.FirstDrain?)
      modifies this`cursor, this`yielded, store
      ensures r.Got? ==> Tied() && Later(old(store.rows), |old(store.script)|)
      ensures r.Got? && old(store.st.e.pc.FirstDrain?) ==> store.st.e.pc == ReadRun && store.st.e.started == store.now
      ensures r.Got? && old(store.st.e.pc.Drain?) ==>
                && store.st.e.pc == AfterDrain(old(store.st.e.pc.after))
                && store.st.e.started == old(store.st.e.started)
                && (Stream.StreamInv(store.origin) ==>
                      store.st.mark <= |store.log| && yielded == store.log[store.st.mark..])
      ensures r.Raise? ==> Raised(r.exn)
    {
      var events :- store.DrainedEvents(cursor);
      var i := 0;
      while i < |events|
        invariant 0 <= i <= |events|
        invariant yielded == old(yielded) + events[..i]
        invariant cursor == if i == 0 then old(cursor) else events[i - 1].sequence
        modifies this`cursor, this`yielded
      {
        cursor := events[i].sequence;
        yielded := yielded + [events[i]];
        i := i + 1;
      }
      assert events[..|events|] == events;
      r := Got(());
    }

    /** The drive returned, having yielded everything appended since it began. */
    ghost predicate Returned()
      reads this, store
    {
      && Tied() && store.st.e.pc.Resting? && store.st.e.pc.exit.Return?
      && (Stream.StreamInv(store.origin) ==>
            store.st.mark <= |store.log| && yielded == store.log[store.st.mark..])
    }

    /** The last drain of a drive. */
    method DrainAndReturn() returns (r: Attempt<()>)
      requires Tied() && store.st.e.pc.Drain? && store.st.e.pc.after.Quit?
      modifies this, store
      ensures r.Got? ==> Returned()
      ensures r.Raise? ==> Raised(r.exn)
    {
      r := Drain();
    }

    method SkipStep(pos: nat, kind: string, reason: string) returns (r: Attempt<Step>)
      requires Ready(Write(Automaton.SkipStep(pos, kind, reason))) && pos < |store.rows|
      modifies this, store
      ensures r.Got? ==> Ready(Pc.Drain(Again)) && r.value.status.Skipped?
      ensures r.Got? ==> Later(old(store.rows), |old(store.script)|)
      ensures r.Raise? ==> Raised(r.exn)
    {
      var step :- store.SetStepState(pos, Skipped, Put(None), Leave);
      var _ :- store.AppendEvent(EvSkipped, Some(pos), JObj(map["type" := JStr(kind), "reason" := JStr(reason)]));
      r := Got(step);
    }

    method FailStep(pos: nat, kind: string, message: string) returns (r: Attempt<Step>)
      requires Ready(Write(Automaton.FailStep(pos, kind, message))) && pos < |store.rows|
      modifies this, store
      ensures r.Got? ==> Ready(Pc.Drain(After.FailRun(pos))) && r.value.status.Failed?
      ensures r.Got? ==> Later(old(store.rows), |old(store.script)|)
      ensures r.Raise? ==> Raised(r.exn)
    {
      var step :- store.SetStepState(pos, Failed, Put(Some(message)), Leave);
      var _ :- store.AppendEvent(EvFailed, Some(pos), JObj(map["type" := JStr(kind), "error" := JStr(message)]));
      r := Got(step);
    }

    /** A handler's own error may have left the host's unit of work unusable, so it is rolled back first. */
    method FailCrashed(pos: nat, kind: string, message: string) returns (r: Attempt<Step>)
      requires Ready(UndoHost(pos, kind, message)) && pos < |store.rows|
      modifies this, store
      ensures r.Got? ==> Ready(Pc.Drain(After.FailRun(pos))) && r.value.status.Failed?
      ensures r.Got? ==> Later(old(store.rows), |old(store.script)|)
      ensures r.Raise? ==> Raised(r.exn)
    {
      var _ :- store.Rollback();
      r := FailStep(pos, kind, message);
    }

    method GateForApproval(pos: nat, step: Step, reason: string) returns (r: Attempt<()>)
      requires Ready(Write(ParkStep(pos, step, reason))) && pos < |store.rows|
      modifies this, store
      ensures r.Got? ==> Ready(StopStatus) && Later(old(store.rows), |old(store.script)|)
      ensures r.Raise? ==> Raised(r.exn)
    {
      var _ :- store.SetStepState(pos, Awaiting, Leave, Leave);
      var payload := map["title" := JStr(step.title)];
      if reason != "" {
        payload := payload["reason" := JStr(reason)];
      }
      var _ :- store.AppendEvent(EvRequired, Some(pos), JObj(payload));
      r := Got(());
    }

    /** An empty reference object is stored as none; the event carries the type of the row the store returned. */
    method CompleteStep(pos: nat, step: Step, refs: Option<Refs>) returns (r: Attempt<Step>)
      requires Ready(Write(Automaton.CompleteStep(pos, step.kind, refs)))
      requires pos < |store.rows| && store.rows[pos].step.kind == step.kind
      modifies this, store
      ensures r.Got? ==> Ready(Pc.Drain(Again)) && r.value.status.Completed?
      ensures r.Got? ==> Later(old(store.rows), |old(store.script)|)
      ensures r.Raise? ==> Raised(r.exn)
    {
      var stored :- store.SetStepState(pos, Completed, Put(None), Put(if refs == Some(map[]) then None else refs));
      var payload := map["type" := JStr(stored.kind)] + (if refs.Some? then refs.value else map[]);
      var _ :- store.AppendEvent(EvCompleted, Some(pos), JObj(payload));
      r := Got(stored);
    }

    /** What the handler answered or raised: a transition, a re-read of a prepared action, or the end of the drive. */
    method Conclude(pos: nat, step: Step, outcome: Outcome) returns (r: Attempt<Step>)
      requires Ready(React(pos, step, outcome))
      requires pos < |store.rows| && store.rows[pos].step.kind == step.kind
      modifies this, store
      ensures r.Got? ==> Ready(AfterReread(pos, r.value.status)) && Later(old(store.rows), |old(store.script)|)
      ensures r.Raise? ==> Raised(r.exn)
    {
      match outcome {
        case Prepared(_) =>
          var reread :- store.GetStep(pos);
          r := Got(if reread.Some? then reread.value else step);
        case Unobserved =>
          r := Raise(StepOutcomeUnknown(pos));
        case Signalled =>
          r := Raise(HandlerSignal(pos));
        case NotApplicable(message) =>
          r := SkipStep(pos, step.kind, message);
        case Erred(message) =>
          r := FailStep(pos, step.kind, message);
        case Crashed(message) =>
          r := FailCrashed(pos, step.kind, message);
        case Finished(refs) =>
          r := CompleteStep(pos, step, refs);
      }
    }

    method CallHandler(pos: nat, step: Step) returns (r: Attempt<Step>)
      requires Ready(Call(pos, step))
      requires pos < |store.rows| && store.rows[pos].step.kind == step.kind
      modifies this, store
      ensures r.Got? ==> Ready(AfterReread(pos, r.value.status)) && Later(old(store.rows), |old(store.script)|)
      ensures r.Raise? ==> Raised(r.exn)
    {
      var outcome :- store.Handle(pos, step);
      r := Conclude(pos, step, outcome);
    }

    /** Marks the step running and records its start. */
    method Start(pos: nat, step: Step) returns (r: Attempt<()>)
      requires Ready(Write(StartStep(pos, step)))
      requires pos < |store.rows| && store.rows[pos].step.kind == step.kind
      modifies this, store
      ensures r.Got? ==> Ready(AfterTransition(store.cfg, StartStep(pos, step)))
      ensures r.Got? ==> Later(old(store.rows), |old(store.script)|)
      ensures r.Raise? ==> Raised(r.exn)
    {
      var _ :- store.SetStepState(pos, Running, Leave, Leave);
      var _ :- store.AppendEvent(EvStarted, Some(pos), JObj(map["type" := JStr(step.kind)]));
      r := Got(());
    }

    /** Executes one step; its status afterwards decides how the drive goes on. */
    method RunStep(pos: nat, step: Step) returns (r: Attempt<Step>)
      requires Ready(Write(StartStep(pos, step)))
      requires pos < |store.rows| && store.rows[pos].step.kind == step.kind
      modifies this, store
      ensures r.Got? ==> Ready(AfterReread(pos, r.value.status)) && Later(old(store.rows), |old(store.script)|)
      ensures r.Raise? ==> Raised(r.exn)
    {
      var _ :- Start(pos, step);
      if step.kind !in store.cfg.registered {
        r := FailStep(pos, step.kind, "Unsupported step type");
      } else {
        r := CallHandler(pos, step);
      }
    }

    method NotifyEnd(outcome: RunStatus) returns (r: Attempt<()>)
      requires Ready(if store.cfg.hooked then Hook(outcome) else Pc.Drain(Quit(Closing(outcome))))
      modifies this, store
      ensures r.Got? ==> Ready(Pc.Drain(Quit(Closing(outcome))))
      ensures r.Got? ==> Grown(old(store.rows), store.rows) && |store.script| <= |old(store.script)|
      ensures r.Raise? ==> Raised(r.exn)
    {
      if store.cfg.hooked {
        var _ :- store.OnRunEnd(outcome);
      }
      r := Got(());
    }

    /** Ends the run as failed: the terminal event, the status, then the hook. */
    method FailRun(pos: nat) returns (r: Attempt<()>)
      requires Ready(Report(pos))
      modifies this, store
      ensures r.Got? ==> Ready(Pc.Drain(Quit(EndedFailed))) && Later(old(store.rows), |old(store.script)|)
      ensures r.Raise? ==> Raised(r.exn)
    {
      var _ :- store.AppendEvent(EvRunFailed, Some(pos), JNull);
      var _ :- store.SetRunStatus(RunFailed);
      r := NotifyEnd(RunFailed);
    }

    /** Whether the durable log already holds the failure report of this step. */
    method RunFailureReported(pos: nat) returns (r: Attempt<bool>)
      requires Ready(CheckReport(pos))
      modifies this, store
      ensures r.Got? ==> Ready(if r.value then QuietFail else Report(pos))
      ensures r.Got? ==> Later(old(store.rows), |old(store.script)|)
      ensures r.Raise? ==> Raised(r.exn)
    {
      var events :- store.DrainedEvents(0);
      var i := 0;
      while i < |events| && !(events[i].kind == EvRunFailed && events[i].step == Some(pos))
        invariant 0 <= i <= |events|
        invariant forall k :: 0 <= k < i ==> !(events[k].kind == EvRunFailed && events[k].step == Some(pos))
      {
        i := i + 1;
      }
      r := Got(i < |events|);
    }

    /** The first step that is neither completed nor skipped. */
    method NextStep(steps: seq<Step>) returns (next: Option<nat>)
      ensures next == FirstUnfinished(steps)
    {
      var i := 0;
      while i < |steps| && Done(steps[i].status)
        invariant 0 <= i <= |steps|
        invariant forall k :: 0 <= k < i ==> Done(steps[k].status)
      {
        i := i + 1;
      }
      next := if i < |steps| then Some(i) else None;
    }

    /** Executed steps are counted before the clock is looked at. */
    method BudgetExhaustedReason(view: Run, steps: seq<Step>) returns (reason: Option<string>)
      ensures reason == BudgetReason(view, steps, store.now - started)
    {
      var maxSteps := PositiveInt(view.maxSteps);
      if maxSteps.Some? {
        var executed, i := 0, 0;
        while i < |steps|
          invariant 0 <= i <= |steps|
          invariant executed == ExecutedCount(steps[..i])
        {
          assert steps[..i + 1][..i] == steps[..i];
          executed := executed + if Executed(steps[i].status) then 1 else 0;
          i := i + 1;
        }
        assert steps[..|steps|] == steps;
        if executed >= maxSteps.value {
          return Some("step budget reached");
        }
      }
      var maxWall := PositiveInt(view.maxWall);
      if maxWall.Some? && store.now - started >= maxWall.value as real {
        return Some("time budget reached");
      }
      reason := None;
    }

    /** Exhaustion is an honest pause: the budget event, the paused status, the pause event. */
    method PauseForBudget(reason: string) returns (r: Attempt<()>)
      requires Ready(BudgetLog(reason))
      modifies this, store
      ensures r.Got? ==> Returned()
      ensures r.Raise? ==> Raised(r.exn)
    {
      var _ :- store.AppendEvent(EvBudget, None, JObj(map["reason" := JStr(reason)]));
      var _ :- store.SetRunStatus(RunPaused);
      var _ :- store.AppendEvent(EvRunPaused, None, JObj(map["reason" := JStr(reason)]));
      r := DrainAndReturn();
    }

    /** The step was already failed when this pass read it. */
    method EndFailed(pos: nat) returns (r: Attempt<()>)
      requires Ready(CheckReport(pos))
      modifies this, store
      ensures r.Got? ==> Returned()
      ensures r.Raise? ==> Raised(r.exn)
    {
      var reported :- RunFailureReported(pos);
      if reported {
        var _ :- store.SetRunStatus(RunFailed);
      } else {
        var _ :- FailRun(pos);
      }
      r := DrainAndReturn();
    }

    /** Why a gated step proceeded: the policy's own decision, or a scoped pre-approval. */
    method BuildApproval(view: Run, tier: Option<Tier>, preapproved: bool) returns (payload: Json)
      ensures payload == ApprovalPayload(view.policy, tier, preapproved)
    {
      var fields := map["auto" := JBool(true)];
      if view.policy.Some? && tier.Some? {
        fields := fields["policy" := JStr(view.policy.value)]["classification" := JStr(TierText(tier.value))];
      }
      if preapproved {
        fields := fields["preapproved" := JBool(true)];
      }
      payload := JObj(fields);
    }

    method RecordApproval(view: Run, pos: nat, step: Step, tier: Option<Tier>, preapproved: bool)
      returns (r: Attempt<()>)
      requires Ready(Log(ApproveStep(pos, step, view.policy, tier, preapproved)))
      modifies this, store
      ensures r.Got? ==> Ready(Write(StartStep(pos, step))) && Later(old(store.rows), |old(store.script)|)
      ensures r.Raise? ==> Raised(r.exn)
    {
      var payload := BuildApproval(view, tier, preapproved);
      var _ :- store.AppendEvent(EvGranted, Some(pos), payload);
      r := Got(());
    }

    /** Records the approval that clears a gated step. */
    method GrantApproval(view: Run, pos: nat, step: Step, tier: Option<Tier>, preapproved: bool)
      returns (r: Attempt<()>)
      requires Ready(Write(ApproveStep(pos, step, view.policy, tier, preapproved))) && pos < |store.rows|
      modifies this, store
      ensures r.Got? ==> Ready(Write(StartStep(pos, step))) && Later(old(store.rows), |old(store.script)|)
      ensures r.Raise? ==> Raised(r.exn)
    {
      var _ :- store.SetStepState(pos, Approved, Leave, Leave);
      assert store.st.e.pc == Log(ApproveStep(pos, step, view.policy, tier, preapproved));
      r := RecordApproval(view, pos, step, tier, preapproved);
    }

    /** The approval gate: the drive stops for review, or the step may start. */
    method PassGate(view: Run, pos: nat, step: Step) returns (r: Attempt<bool>)
      requires Ready(ApprovalGate(store.cfg.cat, view, pos, step)) && pos < |store.rows|
      modifies this, store
      ensures r.Got? ==> Ready(if r.value then Write(StartStep(pos, step)) else StopStatus)
      ensures r.Got? ==> Grown(old(store.rows), store.rows) && |store.script| <= |old(store.script)|
      ensures r.Raise? ==> Raised(r.exn)
    {
      if step.status.Pending? || step.status.Awaiting? {
        var (tier, reason, stop) := ResolveGate(store.cfg.cat, view, step);
        if stop {
          if step.status.Pending? {
            var _ :- GateForApproval(pos, step, reason);
          }
          return Got(false);
        }
        var preapproved := PreapprovedGate(store.cfg.cat, view, step);
        if step.requiresApproval || step.status.Awaiting? || preapproved {
          var _ :- GrantApproval(view, pos, step, tier, preapproved);
        }
      }
      r := Got(true);
    }

    /** Runs the step; a review boundary or a failure ends the drive, anything else goes on. */
    method RunAndFollow(pos: nat, step: Step) returns (r: Attempt<bool>)
      requires Ready(Write(StartStep(pos, step)))
      requires pos < |store.rows| && store.rows[pos].step.kind == step.kind
      modifies this, store
      ensures r.Got? ==> if r.value then Ready(ReadRun) && |store.script| < |old(store.script)| else Returned()
      ensures r.Raise? ==> Raised(r.exn)
    {
      var ran :- RunStep(pos, step);
      var _ :- Drain();
      if ran.status.Awaiting? {
        return Got(false);
      }
      if ran.status.Failed? {
        var _ :- FailRun(pos);
        var _ :- DrainAndReturn();
        return Got(false);
      }
      r := Got(true);
    }

    /** Permitted, affordable and approved steps run; the result says whether the drive goes on. */
    method GateAndRun(view: Run, pos: nat, step: Step) returns (r: Attempt<bool>)
      requires Ready(ApprovalGate(store.cfg.cat, view, pos, step))
      requires pos < |store.rows| && store.rows[pos].step.kind == step.kind
      modifies this, store
      ensures r.Got? ==> if r.value then Ready(ReadRun) && |store.script| < |old(store.script)| else Returned()
      ensures r.Raise? ==> Raised(r.exn)
    {
      var cleared :- PassGate(view, pos, step);
      if !cleared {
        var _ :- store.SetRunStatus(RunAwaiting);
        var _ :- DrainAndReturn();
        return Got(false);
      }
      r := RunAndFollow(pos, step);
    }

    /** Declares the run completed: the status, the terminal event, then the hook. */
    method CompleteRun() returns (r: Attempt<()>)
      requires Ready(CompleteStatus)
      modifies this, store
      ensures r.Got? ==> Returned()
      ensures r.Raise? ==> Raised(r.exn)
    {
      var _ :- store.SetRunStatus(RunCompleted);
      var _ :- store.AppendEvent(EvRunCompleted, None, JNull);
      var _ :- NotifyEnd(RunCompleted);
      r := DrainAndReturn();
    }

    /** Completion re-reads the run, so that a pause or cancel during the last step is honoured. */
    method Complete() returns (r: Attempt<()>)
      requires Ready(FinalRead)
      modifies this, store
      ensures r.Got? ==> Returned()
      ensures r.Raise? ==> Raised(r.exn)
    {
      var final :- store.GetRun();
      if final.Some? && Halting(final.value.status) {
        r := DrainAndReturn();
        return;
      }
      r := CompleteRun();
    }

    /** The permission, budget and approval gates, in that order, and the step behind them. */
    method Pass(view: Run, steps: seq<Step>, pos: nat) returns (r: Attempt<bool>)
      requires FirstUnfinished(steps) == Some(pos) && steps == Views(store.rows)
      requires Ready(Decide(store.cfg.cat, view, steps, store.now - started))
      modifies this, store
      ensures r.Got? ==> if r.value then Ready(ReadRun) && |store.script| < |old(store.script)| else Returned()
      ensures r.Raise? ==> Raised(r.exn)
    {
      var step := steps[pos];
      if step.status.Unrecognized? {
        return Raise(UnknownStepStatus(pos));
      }
      if step.status.Failed? {
        var _ :- EndFailed(pos);
        return Got(false);
      }
      var missing := MissingGrant(store.cfg.cat, step.kind, view.grants);
      if missing.Some? {
        if step.status.Running? {
          return Raise(RunningStepNotPermitted(pos));
        }
        var _ :- SkipStep(pos, step.kind, missing.value);
        var _ :- Drain();
        return Got(true);
      }
      var reason := BudgetExhaustedReason(view, steps);
      if reason.Some? {
        var _ :- PauseForBudget(reason.value);
        return Got(false);
      }
      r := GateAndRun(view, pos, step);
    }

    /** Takes the first step that is not done. */
    method TakeStep(current: Option<Run>) returns (r: Attempt<Onward>)
      requires Ready(ReadSteps(current))
      modifies this, store
      ensures r.Got? ==>
        match r.value
        case NextPass => Ready(ReadRun) && |store.script| < |old(store.script)|
        case AllDone => Ready(FinalRead)
        case Ended => Returned()
      ensures r.Raise? ==> Raised(r.exn)
    {
      var steps :- store.GetSteps();
      var turn := NextStep(steps);
      if turn.None? {
        return Got(AllDone);
      }
      var more :- Pass(View(held, current), steps, turn.value);
      r := Got(if more then NextPass else Ended);
    }

    /** Reads the run afresh, so that a pause or cancel is honoured before anything else. */
    method OnePass() returns (r: Attempt<Onward>)
      requires Ready(ReadRun)
      modifies this, store
      ensures r.Got? ==>
        match r.value
        case NextPass => Ready(ReadRun) && |store.script| < |old(store.script)|
        case AllDone => Ready(FinalRead)
        case Ended => Returned()
      ensures r.Raise? ==> Raised(r.exn)
    {
      var current :- store.GetRun();
      if current.Some? && Halting(current.value.status) {
        var _ :- DrainAndReturn();
        return Got(Ended);
      }
      r := TakeStep(current);
    }

    /** Takes the starting cursor; a run that already ended is left alone. */
    method Begin() returns (r: Attempt<bool>)
      requires Ready(AskSequence) && yielded == []
      modifies this, store
      ensures r.Got? ==> if r.value then Ready(ReadRun) else Returned()
      ensures r.Raise? ==> Raised(r.exn)
    {
      var next :- store.NextSequence();
      cursor := next - 1;
      if Terminal(held.status) {
        return Got(false);
      }
      var _ :- store.SetRunStatus(RunRunning);
      var _ :- Drain();
      started := store.now;
      r := Got(true);
    }

    /**
     The drive. Wherever it ends, its store, its stream and its exit are those of the automaton after the
     part of the script that has happened; when it returns, it has yielded everything appended meanwhile.
     */
    method ExecuteRunEvents() returns (r: Attempt<()>)
      requires Ready(AskSequence) && yielded == []
      modifies this, store
      ensures r.Got? ==> Returned()
      ensures r.Raise? ==> Raised(r.exn)
    {
      var open :- Begin();
      if !open {
        return Got(());
      }
      while true
        invariant Ready(ReadRun)
        decreases |store.script|
      {
        var onward :- OnePass();
        if onward.Ended? {
          return Got(());
        }
        if onward.AllDone? {
          break;
        }
      }
      r := Complete();
    }
  }

  /**
   The non-streaming form: the same drive, drained, and then the run as the store has it. Its store ends in the state
   that the automaton reaches from the given records over the part of the script that has happened. A drive that
   returned did so after `ended` inputs, with its stream level with the log; what it answers is the run stored when
   the last read was answered, or the run it was given when the store had none.
   */
  method ExecuteRun(cfg: Config, w: World, script: seq<Input>)
    returns (store: RunStore, r: Attempt<Run>, ghost ended: nat)
    requires forall i :: i in script ==> !i.Begin?
    ensures fresh(store) && store.past + store.script == [Input.Begin] + script
    ensures store.st == RunAll(cfg, Start(w), store.past)
    ensures World(store.run, store.rows, store.log, store.nextSeq) == RunAll(cfg, Start(w), store.past).w
    ensures r.Got? ==>
      && ended < |store.past|
      && var back := RunAll(cfg, Start(w), store.past[..ended]);
         && back.e.pc.Resting? && back.e.pc.exit.Return? && store.st.e == back.e
         && (Stream.LogOk(w) ==> back.mark <= |back.w.log| && back.e.yielded == back.w.log[back.mark..])
    ensures r.Got? ==>
      var last := store.past[|store.past| - 1];
      last.Serve? && !Unanswered(last.answer) && r.value == if last.answer.Absent? then w.run else store.run
    ensures r.Raise? ==>
      || (Explains(r.exn, store.st.e.pc) && (r.exn.ProcessStopped? ==> store.script == []))
      || (r.exn.StoreError? && store.st.e.pc.Resting? && store.st.e.pc.exit.Return?)
  {
    store := new RunStore(cfg, Start(w), script);
    var drive := new Drive(store);
    var drained := drive.ExecuteRunEvents();
    ended := |store.past|;
    ghost var driven := store.past;
    if drained.Raise? {
      r := Raise(drained.exn);
      return;
    }
    r := store.Refresh(w.run);
    assert store.past[..ended] == driven;
  }
}
