/**
 The run engine as an automaton that asks its host one callback at a time.

 `Ask` is the callback the engine makes in a control state and `Resume` is what it does with the
 reply. Everything between two callbacks (the ordered checks of one pass, the approval matrix, the
 reaction to a handler's outcome) is a function of the engine's own state and the reply.
 */
module Engine {
  import opened Basics
  import opened Policies
  import opened Model

  /** `registered` is the tool registry's key set; `hooked` says whether a run-end hook was given. */
  datatype Config = Config(cat: Catalogue, registered: set<string>, hooked: bool)

  /** How a drive returned. */
  datatype Ending =
    | NothingToDo | Stopped | Gated | AtReview | OutOfBudget | AlreadyReported | EndedFailed | EndedCompleted

  /** Why no drive is in progress: none was started, it returned, or it raised. */
  datatype Exit =
    | NeverDriven
    | Return(ending: Ending)
    | UnknownStatus(pos: nat)
    | NotPermitted(pos: nat)
    | OutcomeUnknown(pos: nat)
    | HostSignal(pos: nat)
    | StoreFailed(at: Pc)

  /** What follows a drain of the event log. */
  datatype After = Again | Quit(ending: Ending) | FailRun(pos: nat)

  /** What follows a step transition. */
  datatype Then = ThenNextPass | ThenFailRun | ThenStop | ThenStart(step: Step) | ThenCall(step: Step)

  /** A step transition is one state write followed by the one event that records it. */
  datatype Transition = Transition(
    pos: nat, to: StepStatus, error: Update<string>, refs: Update<Refs>, payload: Json, onward: Then)

  datatype Pc =
    | Resting(exit: Exit)
    | AskSequence
    | MarkRunning
    | FirstDrain
    | ReadRun
    | ReadSteps(current: Option<Run>)
    | CheckReport(pos: nat)
    | QuietFail
    | Report(pos: nat)
    | FailStatus
    | Hook(outcome: RunStatus)
    | Write(t: Transition)
    | Log(t: Transition)
    | BudgetLog(reason: string)
    | BudgetStatus(reason: string)
    | PauseLog(reason: string)
    | StopStatus
    | Call(pos: nat, step: Step)
    | UndoHost(pos: nat, kind: string, message: string)
    | Reread(pos: nat, step: Step)
    | Drain(after: After)
    | FinalRead
    | CompleteStatus
    | CompleteLog

  /** `held` is the run object the drive was given; `cursor` and `yielded` belong to the event stream. */
  datatype Engine = Engine(pc: Pc, held: Run, cursor: int, started: real, yielded: seq<Event>)

  function Fresh(held: Run): Engine {
    Engine(AskSequence, held, 0, 0.0, [])
  }

  function EventOf(to: StepStatus): EventKind {
    match to
    case Skipped => EvSkipped
    case Awaiting => EvRequired
    case Approved => EvGranted
    case Running => EvStarted
    case Completed => EvCompleted
    case Failed => EvFailed
    case _ => EvOther("")
  }

  // ---- the transitions the engine makes ----

  function SkipStep(pos: nat, kind: string, reason: string): Transition {
    Transition(pos, Skipped, Put(None), Leave,
               JObj(map["type" := JStr(kind), "reason" := JStr(reason)]), ThenNextPass)
  }

  function FailStep(pos: nat, kind: string, message: string): Transition {
    Transition(pos, Failed, Put(Some(message)), Leave,
               JObj(map["type" := JStr(kind), "error" := JStr(message)]), ThenFailRun)
  }

  function StartStep(pos: nat, step: Step): Transition {
    Transition(pos, Running, Leave, Leave, JObj(map["type" := JStr(step.kind)]), ThenCall(step))
  }

  /** An empty reference object is stored as "none", and the event carries the references' own keys. */
  function CompleteStep(pos: nat, kind: string, refs: Option<Refs>): Transition {
    var stored := if refs == Some(map[]) then None else refs;
    var shown := if refs.Some? then refs.value else map[];
    Transition(pos, Completed, Put(None), Put(stored),
               JObj(map["type" := JStr(kind)] + shown), ThenNextPass)
  }

  function ParkStep(pos: nat, step: Step, reason: string): Transition {
    var title := map["title" := JStr(step.title)];
    Transition(pos, Awaiting, Leave, Leave,
               JObj(if reason == "" then title else title["reason" := JStr(reason)]), ThenStop)
  }

  function ApproveStep(pos: nat, step: Step, policy: Option<string>, tier: Option<Tier>, preapproved: bool)
    : Transition
  {
    Transition(pos, Approved, Leave, Leave, ApprovalPayload(policy, tier, preapproved), ThenStart(step))
  }

  function ApprovalPayload(policy: Option<string>, tier: Option<Tier>, preapproved: bool): Json {
    var auto := map["auto" := JBool(true)];
    var why := if policy.None? || tier.None? then auto
               else auto["policy" := JStr(policy.value)]["classification" := JStr(TierText(tier.value))];
    JObj(if preapproved then why["preapproved" := JBool(true)] else why)
  }

  function TierText(tier: Tier): string {
    match tier
    case AutoSafe => "auto_safe"
    case ReviewRecommended => "review_recommended"
    case HardGated => "hard_gated"
  }

  // ---- the ordered checks of one pass ----

  /** Why the budget forbids executing the next step: the step budget is looked at before the clock. */
  function BudgetReason(view: Run, steps: seq<Step>, elapsed: real): Option<string> {
    var maxSteps := PositiveInt(view.maxSteps);
    var maxWall := PositiveInt(view.maxWall);
    if maxSteps.Some? && ExecutedCount(steps) >= maxSteps.value then Some("step budget reached")
    else if maxWall.Some? && elapsed >= maxWall.value as real then Some("time budget reached")
    else None
  }

  /** The approval decision: the tier (absent on legacy runs), why, and whether the drive stops here. */
  function ResolveGate(cat: Catalogue, view: Run, step: Step): (Option<Tier>, string, bool) {
    match view.policy
    case None => (None, "", step.requiresApproval && !view.autoApprove)
    case Some(policy) =>
      var tier := ClassifyStep(cat, step.kind);
      var preapproved := step.kind in NormalizePreapproved(cat, view.preapproved);
      (Some(tier), ReasonFor(cat, step.kind), RequiresStop(policy, tier, step.requiresApproval, preapproved))
  }

  predicate PreapprovedGate(cat: Catalogue, view: Run, step: Step) {
    view.policy.Some? && ClassifyStep(cat, step.kind).HardGated?
    && step.kind in NormalizePreapproved(cat, view.preapproved)
  }

  function ApprovalGate(cat: Catalogue, view: Run, pos: nat, step: Step): Pc {
    if step.status.Pending? || step.status.Awaiting? then
      var (tier, reason, stop) := ResolveGate(cat, view, step);
      if stop then
        if step.status.Pending? then Write(ParkStep(pos, step, reason)) else StopStatus
      else if step.requiresApproval || step.status.Awaiting? || PreapprovedGate(cat, view, step) then
        Write(ApproveStep(pos, step, view.policy, tier, PreapprovedGate(cat, view, step)))
      else Write(StartStep(pos, step))
    else Write(StartStep(pos, step))
  }

  function View(held: Run, current: Option<Run>): Run {
    if current.Some? then current.value else held
  }

  /** One pass: vocabulary, already failed, permission, budget, approval, in that order. */
  function Decide(cat: Catalogue, view: Run, steps: seq<Step>, elapsed: real): Pc {
    match FirstUnfinished(steps)
    case None => FinalRead
    case Some(pos) =>
      var step := steps[pos];
      if step.status.Unrecognized? then Resting(UnknownStatus(pos))
      else if step.status.Failed? then CheckReport(pos)
      else
        var missing := MissingGrant(cat, step.kind, view.grants);
        if missing.Some? then
          if step.status.Running? then Resting(NotPermitted(pos))
          else Write(SkipStep(pos, step.kind, missing.value))
        else
          var reason := BudgetReason(view, steps, elapsed);
          if reason.Some? then BudgetLog(reason.value)
          else ApprovalGate(cat, view, pos, step)
  }

  /** Reaction to what the handler answered or raised. */
  function React(pos: nat, step: Step, outcome: Outcome): Pc {
    match outcome
    case Finished(refs) => Write(CompleteStep(pos, step.kind, refs))
    case NotApplicable(message) => Write(SkipStep(pos, step.kind, message))
    case Erred(message) => Write(FailStep(pos, step.kind, message))
    case Prepared(_) => Reread(pos, step)
    case Unobserved => Resting(OutcomeUnknown(pos))
    case Crashed(message) => UndoHost(pos, step.kind, message)
    case Signalled => Resting(HostSignal(pos))
  }

  function AfterTransition(cfg: Config, t: Transition): Pc {
    match t.onward
    case ThenNextPass => Drain(Again)
    case ThenFailRun => Drain(FailRun(t.pos))
    case ThenStop => StopStatus
    case ThenStart(step) => Write(StartStep(t.pos, step))
    case ThenCall(step) =>
      if step.kind in cfg.registered then Call(t.pos, step)
      else Write(FailStep(t.pos, step.kind, "Unsupported step type"))
  }

  /** A prepared generation re-enters the gates, or ends the drive at the host's review boundary. */
  function AfterReread(pos: nat, status: StepStatus): Pc {
    Drain(if status.Awaiting? then Quit(AtReview) else if status.Failed? then FailRun(pos) else Again)
  }

  function AfterDrain(after: After): Pc {
    match after
    case Again => ReadRun
    case Quit(ending) => Resting(Return(ending))
    case FailRun(pos) => Report(pos)
  }

  predicate Reported(events: seq<Event>, pos: nat) {
    exists e :: e in events && e.kind == EvRunFailed && e.step == Some(pos)
  }

  // ---- the automaton ----

  /** The callback an engine that is driving makes next. */
  function Ask(e: Engine): Request
    requires !e.pc.Resting?
  {
    match e.pc
    case AskSequence => NextSequence
    case MarkRunning => SetRunStatus(RunRunning)
    case FirstDrain => EventsAfter(e.cursor)
    case ReadRun => GetRun
    case ReadSteps(_) => GetSteps
    case CheckReport(_) => EventsAfter(0)
    case QuietFail => SetRunStatus(RunFailed)
    case Report(pos) => Append(EvRunFailed, Some(pos), JNull)
    case FailStatus => SetRunStatus(RunFailed)
    case Hook(outcome) => RunEnd(outcome)
    case Write(t) => SetStepState(t.pos, t.to, t.error, t.refs)
    case Log(t) => Append(EventOf(t.to), Some(t.pos), t.payload)
    case BudgetLog(reason) => Append(EvBudget, None, JObj(map["reason" := JStr(reason)]))
    case BudgetStatus(_) => SetRunStatus(RunPaused)
    case PauseLog(reason) => Append(EvRunPaused, None, JObj(map["reason" := JStr(reason)]))
    case StopStatus => SetRunStatus(RunAwaiting)
    case Call(pos, step) => Invoke(pos, step)
    case UndoHost(_, _, _) => Rollback
    case Reread(pos, _) => GetStep(pos)
    case Drain(_) => EventsAfter(e.cursor)
    case FinalRead => GetRun
    case CompleteStatus => SetRunStatus(RunCompleted)
    case CompleteLog => Append(EvRunCompleted, None, JNull)
  }

  /** A reply of the right shape for the request; anything else ends the drive as a host failure. */
  predicate Fits(req: Request, reply: Reply) {
    match req
    case NextSequence => reply.Number?
    case GetRun => reply.RunRow?
    case GetSteps => reply.StepRows?
    case GetStep(_) => reply.StepRow?
    case SetRunStatus(_) => reply.RunRow?
    case SetStepState(_, _, _, _) => reply.StepRow?
    case Append(_, _, _) => reply.Appended?
    case EventsAfter(_) => reply.Batch?
    case Invoke(_, _) => reply.Answered?
    case RunEnd(_) => reply.Ack?
    case Rollback => reply.Ack?
  }

  /** The stream yields the drained batch and moves its cursor to the last event's sequence. */
  function Yield(e: Engine, events: seq<Event>): Engine {
    e.(cursor := if |events| == 0 then e.cursor else events[|events| - 1].sequence,
       yielded := e.yielded + events)
  }

  function Resume(cfg: Config, e: Engine, reply: Reply, clock: real): Engine
    requires !e.pc.Resting?
  {
    if !Fits(Ask(e), reply) then e.(pc := Resting(StoreFailed(e.pc)))
    else match e.pc
      case AskSequence =>
        e.(cursor := reply.n - 1, pc := if Terminal(e.held.status) then Resting(Return(NothingToDo)) else MarkRunning)
      case MarkRunning => e.(pc := FirstDrain)
      case FirstDrain => Yield(e, reply.events).(pc := ReadRun, started := clock)
      case ReadRun =>
        e.(pc := if reply.run.Some? && Halting(reply.run.value.status) then Drain(Quit(Stopped))
                 else ReadSteps(reply.run))
      case ReadSteps(current) =>
        e.(pc := Decide(cfg.cat, View(e.held, current), reply.steps, clock - e.started))
      case CheckReport(pos) => e.(pc := if Reported(reply.events, pos) then QuietFail else Report(pos))
      case QuietFail => e.(pc := Drain(Quit(AlreadyReported)))
      case Report(_) => e.(pc := FailStatus)
      case FailStatus =>
        e.(pc := if cfg.hooked then Hook(RunFailed) else Drain(Quit(EndedFailed)))
      case Hook(outcome) =>
        e.(pc := Drain(Quit(if outcome.RunFailed? then EndedFailed else EndedCompleted)))
      case Write(t) => e.(pc := Log(t))
      case Log(t) => e.(pc := AfterTransition(cfg, t))
      case BudgetLog(reason) => e.(pc := BudgetStatus(reason))
      case BudgetStatus(reason) => e.(pc := PauseLog(reason))
      case PauseLog(_) => e.(pc := Drain(Quit(OutOfBudget)))
      case StopStatus => e.(pc := Drain(Quit(Gated)))
      case Call(pos, step) => e.(pc := React(pos, step, reply.outcome))
      case UndoHost(pos, kind, message) => e.(pc := Write(FailStep(pos, kind, message)))
      case Reread(pos, step) =>
        e.(pc := AfterReread(pos, if reply.step.Some? then reply.step.value.status else step.status))
      case Drain(after) => Yield(e, reply.events).(pc := AfterDrain(after))
      case FinalRead =>
        e.(pc := if reply.run.Some? && Halting(reply.run.value.status) then Drain(Quit(Stopped))
                 else CompleteStatus)
      case CompleteStatus => e.(pc := CompleteLog)
      case CompleteLog =>
        e.(pc := if cfg.hooked then Hook(RunCompleted) else Drain(Quit(EndedCompleted)))
  }
}
