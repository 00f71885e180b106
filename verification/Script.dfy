/**
 What a drive asks of its host, written down from its history alone: after each reading, the callbacks in their order,
 with every status, event and payload in full. The engine never departs from it, over any drives and any host.
 */
module Script {
  import opened Basics
  import opened Policies
  import opened Model
  import opened Engine
  import opened System
  import opened Flight
  import opened Gates

  // ---- the history of a drive, from its beginning or its latest reading of the steps ----

  /** `held` is the run the drive was given, `reading` the run and the steps it has last read, `calls` what followed. */
  datatype Chapter = Chapter(held: Run, reading: Option<(Run, seq<Step>)>, calls: seq<Act>)

  function ChapterOf(trace: seq<Act>, init: Run): Chapter {
    if |trace| == 0 then Chapter(init, None, [])
    else
      var a, before := trace[|trace| - 1], ChapterOf(trace[..|trace| - 1], init);
      match a
      case Host(_) => before
      case Began(held) => Chapter(held, None, [])
      case Called(req, reply, _) =>
        if req.GetSteps? && reply.StepRows? then
          Chapter(before.held, Some((FreshRun(before), reply.steps)), [])
        else before.(calls := before.calls + [a])
  }

  lemma ChapterSnoc(trace: seq<Act>, a: Act, init: Run)
    ensures ChapterOf(trace + [a], init) ==
            (match a
             case Host(_) => ChapterOf(trace, init)
             case Began(held) => Chapter(held, None, [])
             case Called(req, reply, _) =>
               if req.GetSteps? && reply.StepRows? then
                 Chapter(ChapterOf(trace, init).held, Some((FreshRun(ChapterOf(trace, init)), reply.steps)), [])
               else ChapterOf(trace, init).(calls := ChapterOf(trace, init).calls + [a]))
  {
    assert (trace + [a])[..|trace|] == trace;
  }

  /** What the reads and the handler of a chapter have answered. */
  function RunRead(calls: seq<Act>): Option<Option<Run>> {
    if |calls| == 0 then None
    else
      var a := calls[|calls| - 1];
      if a.Called? && a.req.GetRun? && a.reply.RunRow? then Some(a.reply.run) else RunRead(calls[..|calls| - 1])
  }

  function StepRead(calls: seq<Act>): Option<Option<Step>> {
    if |calls| == 0 then None
    else
      var a := calls[|calls| - 1];
      if a.Called? && a.req.GetStep? && a.reply.StepRow? then Some(a.reply.step) else StepRead(calls[..|calls| - 1])
  }

  function HandlerSaid(calls: seq<Act>): Option<Outcome> {
    if |calls| == 0 then None
    else
      var a := calls[|calls| - 1];
      if a.Called? && a.req.Invoke? && a.reply.Answered? then Some(a.reply.outcome)
      else HandlerSaid(calls[..|calls| - 1])
  }

  function LookedUp(calls: seq<Act>): Option<seq<Event>> {
    if |calls| > 0 && calls[0].Called? && calls[0].req.EventsAfter? && calls[0].reply.Batch? then
      Some(calls[0].reply.events)
    else None
  }

  /** All that the script turns on. */
  datatype Learned = Learned(
    run: Option<Option<Run>>, row: Option<Option<Step>>, answer: Option<Outcome>, events: Option<seq<Event>>)

  function LearnedOf(calls: seq<Act>): Learned {
    Learned(RunRead(calls), StepRead(calls), HandlerSaid(calls), LookedUp(calls))
  }

  /** The run of the latest read, or the one the drive was given when the host had none. */
  function FreshRun(c: Chapter): Run {
    match RunRead(c.calls)
    case Some(Some(run)) => run
    case _ => c.held
  }

  lemma LearnedSnoc(calls: seq<Act>, a: Act)
    requires a.Called?
    ensures RunRead(calls + [a]) == if a.req.GetRun? && a.reply.RunRow? then Some(a.reply.run) else RunRead(calls)
    ensures StepRead(calls + [a]) == if a.req.GetStep? && a.reply.StepRow? then Some(a.reply.step) else StepRead(calls)
    ensures HandlerSaid(calls + [a]) ==
            if a.req.Invoke? && a.reply.Answered? then Some(a.reply.outcome) else HandlerSaid(calls)
    ensures LookedUp(calls + [a]) ==
            if |calls| > 0 then LookedUp(calls)
            else if a.req.EventsAfter? && a.reply.Batch? then Some(a.reply.events) else None
  {
    assert (calls + [a])[..|calls|] == calls;
  }

  // ---- the script ----

  /** A script says what is asked, in order, and how the drive leaves off. */
  datatype Line = Asks(req: Request) | Leaves(exit: Exit)

  /** A drain; from which event on it reads is the stream's matter. */
  const DRAIN: Line := Asks(EventsAfter(0))

  function Shape(req: Request): Line {
    if req.EventsAfter? then DRAIN else Asks(req)
  }

  function Asked(calls: seq<Act>): seq<Line> {
    if |calls| == 0 then []
    else
      var a := calls[|calls| - 1];
      Asked(calls[..|calls| - 1]) + (if a.Called? then [Shape(a.req)] else [])
  }

  lemma AskedSnoc(calls: seq<Act>, a: Act)
    ensures Asked(calls + [a]) == Asked(calls) + (if a.Called? then [Shape(a.req)] else [])
  {
    assert (calls + [a])[..|calls|] == calls;
  }

  /** The step whose turn it is: the first that is neither completed nor skipped. */
  function Turn(steps: seq<Step>, from: nat): Option<nat>
    decreases |steps| - from
  {
    if from >= |steps| then None
    else if steps[from].status == Completed || steps[from].status == Skipped then Turn(steps, from + 1)
    else Some(from)
  }

  predicate Ended(status: RunStatus) {
    status == RunCompleted || status == RunFailed || status == RunCancelled
  }

  predicate HeldUp(run: Option<Run>) {
    run.Some? && (run.value.status == RunPaused || run.value.status == RunCancelled)
  }

  predicate Tells(events: seq<Event>, pos: nat) {
    exists k :: 0 <= k < |events| && events[k].kind == EvRunFailed && events[k].step == Some(pos)
  }

  /** A budget that counts: a positive integer, or Python's `True`. */
  function Limit(stored: Json): Option<int> {
    if stored == JBool(true) then Some(1)
    else if stored.JInt? && stored.number > 0 then Some(stored.number) else None
  }

  function Executions(steps: seq<Step>): set<nat> {
    set k: nat | k < |steps| && (steps[k].status == Completed || steps[k].status == Failed)
  }

  /** Why the budget forbids more work: the steps executed come before the clock. */
  function BudgetText(view: Run, steps: seq<Step>, elapsed: real): Option<string> {
    if Limit(view.maxSteps).Some? && |Executions(steps)| >= Limit(view.maxSteps).value then
      Some("step budget reached")
    else if Limit(view.maxWall).Some? && elapsed >= Limit(view.maxWall).value as real then Some("time budget reached")
    else None
  }

  /** What the gate says when it stops a step. */
  function GateText(cat: Catalogue, view: Run, kind: string): string {
    if view.policy.None? then ""
    else if kind !in cat.tiers then "Unrecognized step type '" + kind + "'"
    else if kind in cat.reasons && cat.reasons[kind] != "" then cat.reasons[kind]
    else if cat.tiers[kind] in cat.tierReasons then cat.tierReasons[cat.tiers[kind]]
    else ""
  }

  function TierName(cat: Catalogue, kind: string): string {
    if kind !in cat.tiers then "review_recommended"
    else match cat.tiers[kind]
      case AutoSafe => "auto_safe"
      case ReviewRecommended => "review_recommended"
      case HardGated => "hard_gated"
  }

  predicate HardTier(cat: Catalogue, view: Run, kind: string) {
    view.policy.Some? && kind in cat.tiers && cat.tiers[kind] == HardGated
  }

  /** A step that was gated and may run gets an approval of its own before it starts. */
  predicate NeedsRecord(cat: Catalogue, view: Run, step: Step) {
    step.status == Awaiting
    || (step.status == StepStatus.Pending && (step.requiresApproval || HardTier(cat, view, step.kind)))
  }

  function GrantedFields(cat: Catalogue, view: Run, step: Step): map<string, Json> {
    map["auto" := JBool(true)]
    + (if view.policy.Some? then
         map["policy" := JStr(view.policy.value), "classification" := JStr(TierName(cat, step.kind))]
       else map[])
    + (if HardTier(cat, view, step.kind) then map["preapproved" := JBool(true)] else map[])
  }

  function RequiredFields(cat: Catalogue, view: Run, step: Step): map<string, Json> {
    var reason := GateText(cat, view, step.kind);
    map["title" := JStr(step.title)] + (if reason == "" then map[] else map["reason" := JStr(reason)])
  }

  function CompletedFields(kind: string, refs: Option<Refs>): map<string, Json> {
    map["type" := JStr(kind)] + (if refs.Some? then refs.value else map[])
  }

  // the records of a step's end

  function Skips(pos: nat, kind: string, reason: string): seq<Line> {
    [Asks(SetStepState(pos, Skipped, Put(None), Leave)),
     Asks(Append(EvSkipped, Some(pos), JObj(map["type" := JStr(kind), "reason" := JStr(reason)]))),
     DRAIN]
  }

  function Fails(pos: nat, kind: string, message: string): seq<Line> {
    [Asks(SetStepState(pos, Failed, Put(Some(message)), Leave)),
     Asks(Append(EvFailed, Some(pos), JObj(map["type" := JStr(kind), "error" := JStr(message)]))),
     DRAIN]
  }

  function Finishes(pos: nat, kind: string, refs: Option<Refs>): seq<Line> {
    [Asks(SetStepState(pos, Completed, Put(None), Put(if refs == Some(map[]) then None else refs))),
     Asks(Append(EvCompleted, Some(pos), JObj(CompletedFields(kind, refs)))),
     DRAIN]
  }

  // the ends of a run, and the way on

  function Tell(cfg: Config, outcome: RunStatus): seq<Line> {
    if cfg.hooked then [Asks(RunEnd(outcome))] else []
  }

  /** The stream is brought up to date, and the drive returns. */
  function Quits(ending: Ending): seq<Line> {
    [DRAIN, Leaves(Return(ending))]
  }

  function EndsFailed(cfg: Config, pos: nat): seq<Line> {
    [Asks(Append(EvRunFailed, Some(pos), JNull)), Asks(SetRunStatus(RunFailed))] + Tell(cfg, RunFailed)
    + Quits(EndedFailed)
  }

  function EndsCompleted(cfg: Config): seq<Line> {
    [Asks(SetRunStatus(RunCompleted)), Asks(Append(EvRunCompleted, None, JNull))] + Tell(cfg, RunCompleted)
    + Quits(EndedCompleted)
  }

  /** The next pass reads the run first. */
  function GoesOn(l: Learned): seq<Line> {
    [Asks(GetRun)] + (match l.run
                case None => []
                case Some(run) => if HeldUp(run) then Quits(Stopped) else [Asks(GetSteps)])
  }

  /** With no step left, the run is read once more. */
  function Concludes(cfg: Config, l: Learned): seq<Line> {
    [Asks(GetRun)] + (match l.run
                case None => []
                case Some(run) => if HeldUp(run) then Quits(Stopped) else EndsCompleted(cfg))
  }

  /** A step found failed: whether its report is in the log decides. */
  function LooksUp(cfg: Config, pos: nat, l: Learned): seq<Line> {
    [DRAIN] + (match l.events
               case None => []
               case Some(events) =>
                 if Tells(events, pos) then [Asks(SetRunStatus(RunFailed))] + Quits(AlreadyReported)
                 else EndsFailed(cfg, pos))
  }

  /** A prepared action: the step is read again, and its status decides. */
  function Rereads(cfg: Config, pos: nat, step: Step, l: Learned): seq<Line> {
    [Asks(GetStep(pos))]
    + (match l.row
       case None => []
       case Some(row) =>
         var status := if row.Some? then row.value.status else step.status;
         if status == Awaiting then Quits(AtReview)
         else if status == Failed then [DRAIN] + EndsFailed(cfg, pos)
         else [DRAIN] + GoesOn(l))
  }

  /** The handler's answer decides how the step ends. */
  function Calls(cfg: Config, pos: nat, step: Step, l: Learned): seq<Line> {
    [Asks(Invoke(pos, step))]
    + (match l.answer
       case None => []
       case Some(Finished(refs)) => Finishes(pos, step.kind, refs) + GoesOn(l)
       case Some(NotApplicable(message)) => Skips(pos, step.kind, message) + GoesOn(l)
       case Some(Erred(message)) => Fails(pos, step.kind, message) + EndsFailed(cfg, pos)
       case Some(Crashed(message)) => [Asks(Rollback)] + Fails(pos, step.kind, message) + EndsFailed(cfg, pos)
       case Some(Prepared(_)) => Rereads(cfg, pos, step, l)
       case Some(Unobserved) => [Leaves(OutcomeUnknown(pos))]
       case Some(Signalled) => [Leaves(HostSignal(pos))])
  }

  function Begins(pos: nat, kind: string): seq<Line> {
    [Asks(SetStepState(pos, Running, Leave, Leave)),
     Asks(Append(EvStarted, Some(pos), JObj(map["type" := JStr(kind)])))]
  }

  function Starts(cfg: Config, pos: nat, step: Step, l: Learned): seq<Line> {
    Begins(pos, step.kind)
    + (if step.kind in cfg.registered then Calls(cfg, pos, step, l)
       else Fails(pos, step.kind, "Unsupported step type") + EndsFailed(cfg, pos))
  }

  function Clears(cfg: Config, view: Run, pos: nat, step: Step): seq<Line> {
    if NeedsRecord(cfg.cat, view, step) then
      [Asks(SetStepState(pos, Approved, Leave, Leave)),
       Asks(Append(EvGranted, Some(pos), JObj(GrantedFields(cfg.cat, view, step))))]
    else []
  }

  /** Permitted and affordable: the step is stopped for review, or started, its approval on record if it needs one. */
  function AtTheGate(cfg: Config, view: Run, pos: nat, step: Step, l: Learned): seq<Line> {
    if Unstarted(step.status) && !RunsUnreviewed(cfg.cat, view, step) then
      (if step.status == Awaiting then []
       else [Asks(SetStepState(pos, Awaiting, Leave, Leave)),
             Asks(Append(EvRequired, Some(pos), JObj(RequiredFields(cfg.cat, view, step))))])
      + [Asks(SetRunStatus(RunAwaiting))] + Quits(Gated)
    else
      Clears(cfg, view, pos, step) + Starts(cfg, pos, step, l)
  }

  /** One pass, from its reading on. */
  function Pass(cfg: Config, view: Run, steps: seq<Step>, elapsed: real, l: Learned): seq<Line> {
    match Turn(steps, 0)
    case None => Concludes(cfg, l)
    case Some(pos) =>
      if pos >= |steps| then []
      else
        var step := steps[pos];
        if step.status.Unrecognized? then [Leaves(UnknownStatus(pos))]
        else if step.status == Failed then LooksUp(cfg, pos, l)
        else if step.kind in cfg.cat.grants && !Lists(view.grants, cfg.cat.grants[step.kind]) then
          (if step.status == Running then [Leaves(NotPermitted(pos))]
           else Skips(pos, step.kind, cfg.cat.grants[step.kind]) + GoesOn(l))
        else match BudgetText(view, steps, elapsed)
          case Some(reason) =>
            [Asks(Append(EvBudget, None, JObj(map["reason" := JStr(reason)]))), Asks(SetRunStatus(RunPaused)),
             Asks(Append(EvRunPaused, None, JObj(map["reason" := JStr(reason)])))] + Quits(OutOfBudget)
          case None => AtTheGate(cfg, view, pos, step, l)
  }

  /** The opening of a drive: a run that had ended is left alone. */
  function Opens(held: Run, l: Learned): seq<Line> {
    [Asks(NextSequence)]
    + (if Ended(held.status) then [Leaves(Return(NothingToDo))]
       else [Asks(SetRunStatus(RunRunning)), DRAIN] + GoesOn(l))
  }

  function ScriptWith(cfg: Config, c: Chapter, elapsed: real, l: Learned): seq<Line> {
    match c.reading
    case None => Opens(c.held, l)
    case Some((view, steps)) => Pass(cfg, view, steps, elapsed, l)
  }

  function ScriptOf(cfg: Config, c: Chapter, elapsed: real): seq<Line> {
    ScriptWith(cfg, c, elapsed, LearnedOf(c.calls))
  }

  // ---- what a control state has still to ask, as far as it is settled ----

  function EndingOf(outcome: RunStatus): Ending {
    if outcome == RunFailed then EndedFailed else EndedCompleted
  }

  function RestOfEnd(cfg: Config, outcome: RunStatus): seq<Line> {
    Tell(cfg, outcome) + Quits(EndingOf(outcome))
  }

  function RestOfCall(cfg: Config, pos: nat, step: Step): seq<Line> {
    if step.kind in cfg.registered then [Asks(Invoke(pos, step))]
    else Fails(pos, step.kind, "Unsupported step type") + EndsFailed(cfg, pos)
  }

  function RestOfTransition(cfg: Config, t: Transition): seq<Line> {
    match t.onward
    case ThenNextPass => [DRAIN, Asks(GetRun)]
    case ThenFailRun => [DRAIN] + EndsFailed(cfg, t.pos)
    case ThenStop => [Asks(SetRunStatus(RunAwaiting))] + Quits(Gated)
    case ThenStart(step) =>
      Begins(t.pos, step.kind) + RestOfCall(cfg, t.pos, step)
    case ThenCall(step) => RestOfCall(cfg, t.pos, step)
  }

  function Rest(cfg: Config, e: Engine): seq<Line> {
    match e.pc
    case Resting(exit) => [Leaves(exit)]
    case AskSequence =>
      [Asks(NextSequence)]
      + (if Ended(e.held.status) then [Leaves(Return(NothingToDo))]
         else [Asks(SetRunStatus(RunRunning)), DRAIN, Asks(GetRun)])
    case MarkRunning => [Asks(SetRunStatus(RunRunning)), DRAIN, Asks(GetRun)]
    case FirstDrain => [DRAIN, Asks(GetRun)]
    case ReadRun => [Asks(GetRun)]
    case ReadSteps(_) => [Asks(GetSteps)]
    case CheckReport(_) => [DRAIN]
    case QuietFail => [Asks(SetRunStatus(RunFailed))] + Quits(AlreadyReported)
    case Report(pos) => EndsFailed(cfg, pos)
    case FailStatus => [Asks(SetRunStatus(RunFailed))] + RestOfEnd(cfg, RunFailed)
    case Hook(outcome) => [Asks(RunEnd(outcome))] + Quits(EndingOf(outcome))
    case Write(t) =>
      [Asks(SetStepState(t.pos, t.to, t.error, t.refs)), Asks(Append(EventOf(t.to), Some(t.pos), t.payload))]
      + RestOfTransition(cfg, t)
    case Log(t) => [Asks(Append(EventOf(t.to), Some(t.pos), t.payload))] + RestOfTransition(cfg, t)
    case BudgetLog(reason) =>
      [Asks(Append(EvBudget, None, JObj(map["reason" := JStr(reason)]))), Asks(SetRunStatus(RunPaused)),
       Asks(Append(EvRunPaused, None, JObj(map["reason" := JStr(reason)])))] + Quits(OutOfBudget)
    case BudgetStatus(reason) =>
      [Asks(SetRunStatus(RunPaused)), Asks(Append(EvRunPaused, None, JObj(map["reason" := JStr(reason)])))]
      + Quits(OutOfBudget)
    case PauseLog(reason) => [Asks(Append(EvRunPaused, None, JObj(map["reason" := JStr(reason)])))] + Quits(OutOfBudget)
    case StopStatus => [Asks(SetRunStatus(RunAwaiting))] + Quits(Gated)
    case Call(pos, step) => [Asks(Invoke(pos, step))]
    case UndoHost(pos, kind, message) => [Asks(Rollback)] + Fails(pos, kind, message) + EndsFailed(cfg, pos)
    case Reread(pos, _) => [Asks(GetStep(pos))]
    case Drain(after) =>
      (match after
       case Again => [DRAIN, Asks(GetRun)]
       case Quit(ending) => Quits(ending)
       case FailRun(pos) => [DRAIN] + EndsFailed(cfg, pos))
    case FinalRead => [Asks(GetRun)]
    case CompleteStatus =>
      [Asks(SetRunStatus(RunCompleted)), Asks(Append(EvRunCompleted, None, JNull))] + RestOfEnd(cfg, RunCompleted)
    case CompleteLog => [Asks(Append(EvRunCompleted, None, JNull))] + RestOfEnd(cfg, RunCompleted)
  }

  /** The control states whose answer decides how the script goes on. */
  predicate Learns(pc: Pc) {
    pc.ReadRun? || pc.ReadSteps? || pc.CheckReport? || pc.Call? || pc.Reread? || pc.FinalRead?
  }

  /** The hook is asked only when there is one. */
  predicate HookGiven(cfg: Config, pc: Pc) {
    pc.Hook? ==> cfg.hooked && (pc.outcome == RunFailed || pc.outcome == RunCompleted)
  }

  /** One callback more of what is settled. */
  ghost predicate Steps(cfg: Config, e: Engine, e': Engine) {
    !e.pc.Resting? && HookGiven(cfg, e'.pc) && Rest(cfg, e) == [Shape(Ask(e))] + Rest(cfg, e')
  }

  predicate Recording(pc: Pc) {
    pc.Write? || pc.Log? || pc.UndoHost?
  }

  lemma AnswerWrites(cfg: Config, e: Engine, reply: Reply, clock: real)
    requires e.pc.Write? && Fits(Ask(e), reply)
    ensures Steps(cfg, e, Resume(cfg, e, reply, clock))
  {
    var t := e.pc.t;
    assert Resume(cfg, e, reply, clock).pc == Log(t);
    assert Rest(cfg, e) == [Asks(SetStepState(t.pos, t.to, t.error, t.refs))] + Rest(cfg, e.(pc := Log(t)));
  }

  lemma AnswerLogs(cfg: Config, e: Engine, reply: Reply, clock: real)
    requires e.pc.Log? && Fits(Ask(e), reply)
    ensures Steps(cfg, e, Resume(cfg, e, reply, clock))
  {
    var t := e.pc.t;
    assert Resume(cfg, e, reply, clock).pc == AfterTransition(cfg, t);
    OnwardRests(cfg, e, t);
  }

  lemma OnwardRests(cfg: Config, e: Engine, t: Transition)
    ensures Rest(cfg, e.(pc := AfterTransition(cfg, t))) == RestOfTransition(cfg, t)
  {
  }

  lemma AnswerUndoes(cfg: Config, e: Engine, reply: Reply, clock: real)
    requires e.pc.UndoHost? && Fits(Ask(e), reply)
    ensures Steps(cfg, e, Resume(cfg, e, reply, clock))
  {
    var t := FailStep(e.pc.pos, e.pc.kind, e.pc.message);
    assert Resume(cfg, e, reply, clock).pc == Write(t);
    assert Rest(cfg, e.(pc := Write(t))) == Fails(e.pc.pos, e.pc.kind, e.pc.message) + EndsFailed(cfg, e.pc.pos);
  }

  predicate Closing(pc: Pc) {
    pc.Report? || pc.FailStatus? || pc.Hook? || pc.CompleteStatus? || pc.CompleteLog?
  }

  lemma AnswerEnds(cfg: Config, e: Engine, reply: Reply, clock: real)
    requires Closing(e.pc) && Fits(Ask(e), reply) && HookGiven(cfg, e.pc)
    ensures Steps(cfg, e, Resume(cfg, e, reply, clock))
  {
  }

  lemma AnswerElse(cfg: Config, e: Engine, reply: Reply, clock: real)
    requires !e.pc.Resting? && !Learns(e.pc) && !Recording(e.pc) && !Closing(e.pc) && Fits(Ask(e), reply)
    ensures Steps(cfg, e, Resume(cfg, e, reply, clock))
  {
  }

  /** An answered callback that decides nothing is the next of the rest. */
  lemma AnswerPlain(cfg: Config, e: Engine, reply: Reply, clock: real)
    requires !e.pc.Resting? && !Learns(e.pc) && Fits(Ask(e), reply) && HookGiven(cfg, e.pc)
    ensures Steps(cfg, e, Resume(cfg, e, reply, clock))
  {
    if e.pc.Write? {
      AnswerWrites(cfg, e, reply, clock);
    } else if e.pc.Log? {
      AnswerLogs(cfg, e, reply, clock);
    } else if e.pc.UndoHost? {
      AnswerUndoes(cfg, e, reply, clock);
    } else if Closing(e.pc) {
      AnswerEnds(cfg, e, reply, clock);
    } else {
      AnswerElse(cfg, e, reply, clock);
    }
  }

  // ---- the pass's decision ----

  lemma {:induction false} TurnIsFirst(steps: seq<Step>, from: nat)
    requires from <= |steps| && forall k :: 0 <= k < from ==> Done(steps[k].status)
    ensures Turn(steps, from) == FirstUnfinishedFrom(steps, from)
    decreases |steps| - from
  {
    if from < |steps| && Done(steps[from].status) {
      TurnIsFirst(steps, from + 1);
    }
  }

  lemma ExecutionsSplit(steps: seq<Step>)
    requires |steps| > 0
    ensures var last := |steps| - 1;
            Executions(steps) ==
            Executions(steps[..last]) + (if Executed(steps[last].status) then {last} else {})
    ensures |steps| - 1 !in Executions(steps[..|steps| - 1])
  {
  }

  lemma {:induction false} ExecutionsAreCounted(steps: seq<Step>)
    ensures |Executions(steps)| == ExecutedCount(steps)
    decreases |steps|
  {
    if |steps| > 0 {
      ExecutionsAreCounted(steps[..|steps| - 1]);
      ExecutionsSplit(steps);
    } else {
      assert Executions(steps) == {};
    }
  }

  lemma BudgetTextIsReason(view: Run, steps: seq<Step>, elapsed: real)
    ensures BudgetText(view, steps, elapsed) == BudgetReason(view, steps, elapsed)
  {
    ExecutionsAreCounted(steps);
  }

  lemma GrantedIsRecorded(cat: Catalogue, view: Run, step: Step)
    requires Unstarted(step.status) && RunsUnreviewed(cat, view, step)
    ensures NeedsRecord(cat, view, step) <==>
              step.requiresApproval || step.status.Awaiting? || PreapprovedGate(cat, view, step)
    ensures ApprovalPayload(view.policy, ResolveGate(cat, view, step).0, PreapprovedGate(cat, view, step))
            == JObj(GrantedFields(cat, view, step))
  {
    ListsMembers(view.preapproved, step.kind);
    var fields := ApprovalPayload(view.policy, ResolveGate(cat, view, step).0, PreapprovedGate(cat, view, step)).fields;
    assert fields == GrantedFields(cat, view, step);
  }

  lemma RequiredIsRecorded(cat: Catalogue, view: Run, pos: nat, step: Step)
    ensures ParkStep(pos, step, ResolveGate(cat, view, step).1).payload == JObj(RequiredFields(cat, view, step))
  {
    var reason := GateText(cat, view, step.kind);
    assert ResolveGate(cat, view, step).1 == reason;
    assert map["title" := JStr(step.title)]["reason" := JStr(reason)] ==
           map["title" := JStr(step.title)] + map["reason" := JStr(reason)];
    assert map["title" := JStr(step.title)] + map[] == map["title" := JStr(step.title)];
  }

  const NOTHING: Learned := Learned(None, None, None, None)

  lemma GateFollows(cfg: Config, e: Engine, view: Run, pos: nat, step: Step)
    requires !step.status.Completed? && !step.status.Skipped? && !step.status.Failed? && !step.status.Unrecognized?
    ensures Rest(cfg, e.(pc := ApprovalGate(cfg.cat, view, pos, step))) == AtTheGate(cfg, view, pos, step, NOTHING)
  {
    StopsUnlessUnreviewed(cfg.cat, view, step);
    if Unstarted(step.status) && RunsUnreviewed(cfg.cat, view, step) {
      GrantedIsRecorded(cfg.cat, view, step);
    }
    RequiredIsRecorded(cfg.cat, view, pos, step);
  }

  lemma WorkFollows(cfg: Config, e: Engine, view: Run, steps: seq<Step>, elapsed: real, pos: nat)
    requires FirstUnfinished(steps) == Some(pos) && Turn(steps, 0) == Some(pos)
    requires !steps[pos].status.Failed? && !steps[pos].status.Unrecognized?
    ensures Rest(cfg, e.(pc := Decide(cfg.cat, view, steps, elapsed))) == Pass(cfg, view, steps, elapsed, NOTHING)
  {
    var step := steps[pos];
    if step.kind in cfg.cat.grants {
      ListsMembers(view.grants, cfg.cat.grants[step.kind]);
    }
    BudgetTextIsReason(view, steps, elapsed);
    if MissingGrant(cfg.cat, step.kind, view.grants).None? && BudgetReason(view, steps, elapsed).None? {
      GateFollows(cfg, e, view, pos, step);
    }
  }

  /** The decision heads for what the script says of the reading. */
  lemma DecisionFollows(cfg: Config, e: Engine, view: Run, steps: seq<Step>, elapsed: real)
    ensures Rest(cfg, e.(pc := Decide(cfg.cat, view, steps, elapsed))) == Pass(cfg, view, steps, elapsed, NOTHING)
  {
    TurnIsFirst(steps, 0);
    var first := FirstUnfinished(steps);
    if first.Some? && !steps[first.value].status.Failed? && !steps[first.value].status.Unrecognized? {
      WorkFollows(cfg, e, view, steps, elapsed, first.value);
    }
  }

  // ---- how an answer extends the script ----

  predicate EndsWith(script: seq<Line>, req: Request) {
    |script| > 0 && script[|script| - 1] == Asks(req)
  }

  lemma Joins(a: seq<Line>, b: seq<Line>, c: seq<Line>)
    ensures a + b + c == a + (b + c)
  {
  }

  function AfterRun(run: Option<Run>): seq<Line> {
    if HeldUp(run) then Quits(Stopped) else [Asks(GetSteps)]
  }

  function AfterFinal(cfg: Config, run: Option<Run>): seq<Line> {
    if HeldUp(run) then Quits(Stopped) else EndsCompleted(cfg)
  }

  function AfterLookUp(cfg: Config, pos: nat, events: seq<Event>): seq<Line> {
    if Tells(events, pos) then [Asks(SetRunStatus(RunFailed))] + Quits(AlreadyReported) else EndsFailed(cfg, pos)
  }

  function AfterRow(cfg: Config, pos: nat, status: StepStatus): seq<Line> {
    if status == Awaiting then Quits(AtReview)
    else if status == Failed then [DRAIN] + EndsFailed(cfg, pos)
    else [DRAIN, Asks(GetRun)]
  }

  function AfterAnswer(cfg: Config, pos: nat, step: Step, outcome: Outcome): seq<Line> {
    match outcome
    case Finished(refs) => Finishes(pos, step.kind, refs) + [Asks(GetRun)]
    case NotApplicable(message) => Skips(pos, step.kind, message) + [Asks(GetRun)]
    case Erred(message) => Fails(pos, step.kind, message) + EndsFailed(cfg, pos)
    case Crashed(message) => [Asks(Rollback)] + Fails(pos, step.kind, message) + EndsFailed(cfg, pos)
    case Prepared(_) => [Asks(GetStep(pos))]
    case Unobserved => [Leaves(OutcomeUnknown(pos))]
    case Signalled => [Leaves(HostSignal(pos))]
  }

  lemma GoesOnGrows(front: seq<Line>, l: Learned, run: Option<Run>)
    requires EndsWith(front + GoesOn(l), GetRun)
    ensures front + GoesOn(l.(run := Some(run))) == front + GoesOn(l) + AfterRun(run)
  {
  }

  lemma RereadsGrow(cfg: Config, pos: nat, step: Step, l: Learned, run: Option<Run>)
    requires EndsWith(Rereads(cfg, pos, step, l), GetRun)
    ensures Rereads(cfg, pos, step, l.(run := Some(run))) == Rereads(cfg, pos, step, l) + AfterRun(run)
  {
    GoesOnGrows([Asks(GetStep(pos)), DRAIN], l, run);
    assert [Asks(GetStep(pos))] + ([DRAIN] + GoesOn(l)) == [Asks(GetStep(pos)), DRAIN] + GoesOn(l);
    var l' := l.(run := Some(run));
    assert [Asks(GetStep(pos))] + ([DRAIN] + GoesOn(l')) == [Asks(GetStep(pos)), DRAIN] + GoesOn(l');
  }

  lemma CallsGrow(cfg: Config, pos: nat, step: Step, l: Learned, run: Option<Run>)
    requires EndsWith(Calls(cfg, pos, step, l), GetRun)
    ensures Calls(cfg, pos, step, l.(run := Some(run))) == Calls(cfg, pos, step, l) + AfterRun(run)
  {
    var l' := l.(run := Some(run));
    var call := [Asks(Invoke(pos, step))];
    match l.answer
    case Some(Finished(refs)) =>
      Joins(call, Finishes(pos, step.kind, refs), GoesOn(l));
      Joins(call, Finishes(pos, step.kind, refs), GoesOn(l'));
      GoesOnGrows(call + Finishes(pos, step.kind, refs), l, run);
    case Some(NotApplicable(message)) =>
      Joins(call, Skips(pos, step.kind, message), GoesOn(l));
      Joins(call, Skips(pos, step.kind, message), GoesOn(l'));
      GoesOnGrows(call + Skips(pos, step.kind, message), l, run);
    case Some(Prepared(_)) =>
      RereadsGrow(cfg, pos, step, l, run);
      Joins(call, Rereads(cfg, pos, step, l), AfterRun(run));
    case _ =>
  }

  /** What a dispatch asks before the handler. */
  function Approach(cfg: Config, view: Run, pos: nat, step: Step): seq<Line> {
    Clears(cfg, view, pos, step) + Begins(pos, step.kind)
  }

  predicate Dispatches(cfg: Config, view: Run, step: Step) {
    step.kind in cfg.registered && !(Unstarted(step.status) && !RunsUnreviewed(cfg.cat, view, step))
  }

  lemma GatedCalls(cfg: Config, view: Run, pos: nat, step: Step, l: Learned)
    requires Dispatches(cfg, view, step)
    ensures AtTheGate(cfg, view, pos, step, l) == Approach(cfg, view, pos, step) + Calls(cfg, pos, step, l)
  {
    Joins(Clears(cfg, view, pos, step), Begins(pos, step.kind), Calls(cfg, pos, step, l));
  }

  lemma GatedGrows(cfg: Config, view: Run, pos: nat, step: Step, l: Learned, run: Option<Run>)
    requires EndsWith(AtTheGate(cfg, view, pos, step, l), GetRun)
    ensures AtTheGate(cfg, view, pos, step, l.(run := Some(run))) == AtTheGate(cfg, view, pos, step, l) + AfterRun(run)
  {
    if Dispatches(cfg, view, step) {
      var front := Approach(cfg, view, pos, step);
      GatedCalls(cfg, view, pos, step, l);
      GatedCalls(cfg, view, pos, step, l.(run := Some(run)));
      CallsGrow(cfg, pos, step, l, run);
      assert front + (Calls(cfg, pos, step, l) + AfterRun(run)) == front + Calls(cfg, pos, step, l) + AfterRun(run);
    }
  }

  lemma PassGrows(cfg: Config, view: Run, steps: seq<Step>, elapsed: real, l: Learned, run: Option<Run>)
    requires Turn(steps, 0).Some? && EndsWith(Pass(cfg, view, steps, elapsed, l), GetRun)
    ensures Pass(cfg, view, steps, elapsed, l.(run := Some(run))) ==
            Pass(cfg, view, steps, elapsed, l) + AfterRun(run)
  {
    var pos := Turn(steps, 0).value;
    if pos < |steps| {
      var step := steps[pos];
      var missing := step.kind in cfg.cat.grants && !Lists(view.grants, cfg.cat.grants[step.kind]);
      if !step.status.Unrecognized? && step.status != Failed {
        if missing && step.status != Running {
          GoesOnGrows(Skips(pos, step.kind, cfg.cat.grants[step.kind]), l, run);
        } else if !missing && BudgetText(view, steps, elapsed).None? {
          GatedGrows(cfg, view, pos, step, l, run);
        }
      }
    }
  }

  /** The run has been read for the next pass. */
  lemma RunExtends(cfg: Config, c: Chapter, elapsed: real, l: Learned, run: Option<Run>)
    requires EndsWith(ScriptWith(cfg, c, elapsed, l), GetRun)
    requires c.reading.Some? ==> Turn(c.reading.value.1, 0).Some?
    ensures ScriptWith(cfg, c, elapsed, l.(run := Some(run))) == ScriptWith(cfg, c, elapsed, l) + AfterRun(run)
  {
    match c.reading
    case None =>
      if !Ended(c.held.status) {
        var front := [Asks(NextSequence), Asks(SetRunStatus(RunRunning)), DRAIN];
        var l' := l.(run := Some(run));
        assert Opens(c.held, l) == front + GoesOn(l) && Opens(c.held, l') == front + GoesOn(l');
        GoesOnGrows(front, l, run);
      }
    case Some((view, steps)) => PassGrows(cfg, view, steps, elapsed, l, run);
  }

  /** The run has been read before completion. */
  lemma FinalExtends(cfg: Config, c: Chapter, elapsed: real, l: Learned, run: Option<Run>)
    requires c.reading.Some? && Turn(c.reading.value.1, 0).None? && l.run.None?
    ensures ScriptWith(cfg, c, elapsed, l) == [Asks(GetRun)]
    ensures ScriptWith(cfg, c, elapsed, l.(run := Some(run))) ==
            ScriptWith(cfg, c, elapsed, l) + AfterFinal(cfg, run)
  {
  }

  lemma LookUpExtends(cfg: Config, c: Chapter, elapsed: real, l: Learned, pos: nat, events: seq<Event>)
    requires AtTurn(c, pos) && c.reading.value.1[pos].status == Failed && l.events.None?
    ensures ScriptWith(cfg, c, elapsed, l) == [DRAIN]
    ensures ScriptWith(cfg, c, elapsed, l.(events := Some(events))) == [DRAIN] + AfterLookUp(cfg, pos, events)
  {
  }

  predicate AtTurn(c: Chapter, pos: nat) {
    c.reading.Some? && Turn(c.reading.value.1, 0) == Some(pos) && pos < |c.reading.value.1|
  }

  /** The script of a reading whose step is let through. */
  lemma PassDispatches(cfg: Config, c: Chapter, elapsed: real, l: Learned, pos: nat, req: Request)
    requires AtTurn(c, pos) && EndsWith(ScriptWith(cfg, c, elapsed, l), req) && (req.Invoke? || req.GetStep?)
    ensures var (view, steps) := c.reading.value;
            && Dispatches(cfg, view, steps[pos])
            && forall l' :: ScriptWith(cfg, c, elapsed, l') ==
                            Approach(cfg, view, pos, steps[pos]) + Calls(cfg, pos, steps[pos], l')
  {
    var (view, steps) := c.reading.value;
    PassIsGated(cfg, c, elapsed, l, pos, req);
    GatedDispatches(cfg, view, pos, steps[pos], l, req);
    forall l' ensures ScriptWith(cfg, c, elapsed, l') ==
                      Approach(cfg, view, pos, steps[pos]) + Calls(cfg, pos, steps[pos], l') {
      GatedCalls(cfg, view, pos, steps[pos], l');
    }
  }

  predicate ToTheGate(cfg: Config, view: Run, steps: seq<Step>, elapsed: real, step: Step) {
    && !step.status.Unrecognized? && step.status != Failed
    && !(step.kind in cfg.cat.grants && !Lists(view.grants, cfg.cat.grants[step.kind]))
    && BudgetText(view, steps, elapsed).None?
  }

  lemma {:induction false} OnlyTheGateCalls(
      cfg: Config, view: Run, steps: seq<Step>, elapsed: real, l: Learned, pos: nat, req: Request)
    requires Turn(steps, 0) == Some(pos) && pos < |steps| && !ToTheGate(cfg, view, steps, elapsed, steps[pos])
    requires req.Invoke? || req.GetStep?
    ensures !EndsWith(Pass(cfg, view, steps, elapsed, l), req)
  {
  }

  lemma PassIsGated(cfg: Config, c: Chapter, elapsed: real, l: Learned, pos: nat, req: Request)
    requires AtTurn(c, pos) && EndsWith(ScriptWith(cfg, c, elapsed, l), req) && (req.Invoke? || req.GetStep?)
    ensures var (view, steps) := c.reading.value;
            forall l' {:trigger ScriptWith(cfg, c, elapsed, l')} ::
              ScriptWith(cfg, c, elapsed, l') == AtTheGate(cfg, view, pos, steps[pos], l')
  {
    var (view, steps) := c.reading.value;
    if !ToTheGate(cfg, view, steps, elapsed, steps[pos]) {
      OnlyTheGateCalls(cfg, view, steps, elapsed, l, pos, req);
    }
  }

  lemma GatedDispatches(cfg: Config, view: Run, pos: nat, step: Step, l: Learned, req: Request)
    requires EndsWith(AtTheGate(cfg, view, pos, step, l), req) && (req.Invoke? || req.GetStep?)
    ensures Dispatches(cfg, view, step)
  {
  }

  lemma AnswerExtends(cfg: Config, c: Chapter, elapsed: real, l: Learned, pos: nat, outcome: Outcome)
    requires AtTurn(c, pos) && l.run.None? && l.row.None?
    requires EndsWith(ScriptWith(cfg, c, elapsed, l), Invoke(pos, c.reading.value.1[pos]))
    ensures ScriptWith(cfg, c, elapsed, l.(answer := Some(outcome))) ==
            ScriptWith(cfg, c, elapsed, l) + AfterAnswer(cfg, pos, c.reading.value.1[pos], outcome)
  {
    var (view, steps) := c.reading.value;
    var step := steps[pos];
    PassDispatches(cfg, c, elapsed, l, pos, Invoke(pos, step));
    var approach := Approach(cfg, view, pos, step);
    CallsEndsInCall(cfg, pos, step, l, approach);
    CallsAnswered(cfg, pos, step, l, outcome);
    Joins(approach, [Asks(Invoke(pos, step))], AfterAnswer(cfg, pos, step, outcome));
  }

  lemma CallsAnswered(cfg: Config, pos: nat, step: Step, l: Learned, outcome: Outcome)
    requires l.run.None? && l.row.None?
    ensures Calls(cfg, pos, step, l.(answer := Some(outcome))) ==
            [Asks(Invoke(pos, step))] + AfterAnswer(cfg, pos, step, outcome)
  {
  }

  lemma CallsEndsInCall(cfg: Config, pos: nat, step: Step, l: Learned, front: seq<Line>)
    requires EndsWith(front + Calls(cfg, pos, step, l), Invoke(pos, step)) && l.run.None? && l.row.None?
    ensures Calls(cfg, pos, step, l) == [Asks(Invoke(pos, step))]
  {
    var calls := Calls(cfg, pos, step, l);
    assert (front + calls)[|front + calls| - 1] == calls[|calls| - 1];
  }

  lemma RowExtends(cfg: Config, c: Chapter, elapsed: real, l: Learned, pos: nat, row: Option<Step>)
    requires AtTurn(c, pos) && l.run.None? && l.row.None? && l.answer.Some? && l.answer.value.Prepared?
    requires EndsWith(ScriptWith(cfg, c, elapsed, l), GetStep(pos))
    ensures var step := c.reading.value.1[pos];
            ScriptWith(cfg, c, elapsed, l.(row := Some(row))) ==
            ScriptWith(cfg, c, elapsed, l)
            + AfterRow(cfg, pos, if row.Some? then row.value.status else step.status)
  {
    var (view, steps) := c.reading.value;
    PassDispatches(cfg, c, elapsed, l, pos, GetStep(pos));
  }

  // ---- every run ----

  /** A drive that is over before its script is: it never began, or a callback failed. */
  predicate CutOff(pc: Pc) {
    pc.Resting? && (pc.exit.NeverDriven? || pc.exit.StoreFailed?)
  }

  /** The step a control state works on is the chapter's, as it was read. */
  predicate AtHand(pc: Pc, c: Chapter) {
    match pc
    case Write(t) => OnwardAtHand(t, c)
    case Log(t) => OnwardAtHand(t, c)
    case Call(pos, step) => AtTurn(c, pos) && c.reading.value.1[pos] == step
    case Reread(pos, step) => AtTurn(c, pos) && c.reading.value.1[pos] == step
    case CheckReport(pos) => AtTurn(c, pos) && c.reading.value.1[pos].status == Failed && c.calls == []
    case FinalRead => c.reading.Some? && Turn(c.reading.value.1, 0).None? && c.calls == []
    case _ => true
  }

  predicate OnwardAtHand(t: Transition, c: Chapter) {
    match t.onward
    case ThenStart(step) => AtTurn(c, t.pos) && c.reading.value.1[t.pos] == step
    case ThenCall(step) => AtTurn(c, t.pos) && c.reading.value.1[t.pos] == step
    case _ => true
  }

  /** What has not been learned yet. */
  predicate Unlearned(pc: Pc, l: Learned) {
    && (BeforeRow(pc) ==> l.run.None? && l.row.None?)
    && (pc.Reread? ==> l.answer.Some? && l.answer.value.Prepared?)
  }

  predicate BeforeRow(pc: Pc) {
    pc.Write? || pc.Log? || pc.Call? || pc.UndoHost? || pc.Reread? || pc.FinalRead?
  }

  predicate Draining(pc: Pc) {
    pc.FirstDrain? || pc.Drain? || pc.ReadRun?
  }

  ghost predicate Bookkept(cfg: Config, e: Engine, c: Chapter) {
    && HookGiven(cfg, e.pc) && AtHand(e.pc, c) && Unlearned(e.pc, LearnedOf(c.calls))
    && (Draining(e.pc) ==> |Asked(c.calls)| > 0)
    && (!e.pc.Resting? ==> e.held == c.held)
    && (e.pc.ReadSteps? ==> View(e.held, e.pc.current) == FreshRun(c))
  }

  /** What has been asked since the chapter began, and what is still to be asked, make up the script. */
  ghost predicate Follows(cfg: Config, e: Engine, c: Chapter, elapsed: real) {
    && Bookkept(cfg, e, c)
    && if CutOff(e.pc) then Asked(c.calls) <= ScriptOf(cfg, c, elapsed)
       else Asked(c.calls) + Rest(cfg, e) == ScriptOf(cfg, c, elapsed)
  }

  lemma RestBegins(cfg: Config, e: Engine)
    requires !e.pc.Resting? && HookGiven(cfg, e.pc)
    ensures |Rest(cfg, e)| > 0 && Rest(cfg, e)[0] == Shape(Ask(e))
    ensures Learns(e.pc) ==> Rest(cfg, e) == [Shape(Ask(e))]
  {
  }

  /** A callback that fails leaves the drive with a part of its script. */
  lemma FailsOnScript(cfg: Config, e: Engine, c: Chapter, a: Act, elapsed: real)
    requires Follows(cfg, e, c, elapsed) && !e.pc.Resting?
    requires a.Called? && a.req == Ask(e) && !Fits(a.req, a.reply)
    ensures Follows(cfg, e.(pc := Resting(StoreFailed(e.pc))), c.(calls := c.calls + [a]), elapsed)
  {
    AskedSnoc(c.calls, a);
    FailureTeachesNothing(c.calls, a);
    RestBegins(cfg, e);
    assert Asked(c.calls) + [Shape(a.req)] <= Asked(c.calls) + Rest(cfg, e);
  }

  lemma FailureTeachesNothing(calls: seq<Act>, a: Act)
    requires a.Called? && !Fits(a.req, a.reply)
    ensures LearnedOf(calls + [a]) == LearnedOf(calls)
  {
    LearnedSnoc(calls, a);
  }

  /** What an answered callback leaves of the bookkeeping, when it is no reading of the steps. */
  lemma StaysAtHand(cfg: Config, e: Engine, c: Chapter, a: Act, clock: real)
    requires AtHand(e.pc, c) && !e.pc.Resting? && !e.pc.ReadSteps?
    requires a.Called? && a.req == Ask(e) && Fits(a.req, a.reply)
    ensures AtHand(Resume(cfg, e, a.reply, clock).pc, c.(calls := c.calls + [a]))
  {
  }

  lemma StaysUnlearned(cfg: Config, e: Engine, c: Chapter, a: Act, clock: real)
    requires Unlearned(e.pc, LearnedOf(c.calls)) && !e.pc.Resting? && !e.pc.ReadSteps?
    requires a.Called? && a.req == Ask(e) && Fits(a.req, a.reply)
    ensures Unlearned(Resume(cfg, e, a.reply, clock).pc, LearnedOf(c.calls + [a]))
  {
    LearnedSnoc(c.calls, a);
  }

  lemma BookkeepingGoesOn(cfg: Config, e: Engine, c: Chapter, a: Act, clock: real)
    requires Bookkept(cfg, e, c) && !e.pc.Resting? && !e.pc.ReadSteps?
    requires a.Called? && a.req == Ask(e) && Fits(a.req, a.reply)
    ensures Bookkept(cfg, Resume(cfg, e, a.reply, clock), c.(calls := c.calls + [a]))
  {
    var e' := Resume(cfg, e, a.reply, clock);
    StaysAtHand(cfg, e, c, a, clock);
    StaysUnlearned(cfg, e, c, a, clock);
    assert HookGiven(cfg, e'.pc);
    assert e'.held == e.held;
    AskedSnoc(c.calls, a);
    if e.pc.ReadRun? {
      LearnedSnoc(c.calls, a);
    }
    assert e'.pc.ReadSteps? ==> e.pc.ReadRun?;
  }

  lemma PlainTeachesNothing(e: Engine, c: Chapter, a: Act)
    requires !e.pc.Resting? && !Learns(e.pc) && (Draining(e.pc) ==> |Asked(c.calls)| > 0)
    requires a.Called? && a.req == Ask(e)
    ensures LearnedOf(c.calls + [a]) == LearnedOf(c.calls)
  {
    LearnedSnoc(c.calls, a);
  }

  lemma PlainOnScript(cfg: Config, e: Engine, c: Chapter, a: Act, clock: real, elapsed: real)
    requires Follows(cfg, e, c, elapsed) && !e.pc.Resting? && !Learns(e.pc)
    requires a.Called? && a.req == Ask(e) && Fits(a.req, a.reply)
    ensures Follows(cfg, Resume(cfg, e, a.reply, clock), c.(calls := c.calls + [a]), elapsed)
  {
    var e' := Resume(cfg, e, a.reply, clock);
    BookkeepingGoesOn(cfg, e, c, a, clock);
    AnswerPlain(cfg, e, a.reply, clock);
    PlainTeachesNothing(e, c, a);
    AskedSnoc(c.calls, a);
    Joins(Asked(c.calls), [Shape(a.req)], Rest(cfg, e'));
    PlainIsNoCut(cfg, e, a.reply, clock);
  }

  lemma PlainIsNoCut(cfg: Config, e: Engine, reply: Reply, clock: real)
    requires !e.pc.Resting? && !e.pc.ReadSteps? && Fits(Ask(e), reply)
    ensures !CutOff(Resume(cfg, e, reply, clock).pc)
  {
  }

  /** An answer that decides how to go on: the script grows by what the drive heads for. */
  lemma LearnsOnScript(cfg: Config, e: Engine, c: Chapter, a: Act, clock: real, elapsed: real)
    requires Follows(cfg, e, c, elapsed) && Learns(e.pc) && !e.pc.ReadSteps?
    requires a.Called? && a.req == Ask(e) && Fits(a.req, a.reply)
    requires ScriptWith(cfg, c, elapsed, LearnedOf(c.calls + [a])) ==
             ScriptOf(cfg, c, elapsed) + Rest(cfg, Resume(cfg, e, a.reply, clock))
    ensures Follows(cfg, Resume(cfg, e, a.reply, clock), c.(calls := c.calls + [a]), elapsed)
  {
    BookkeepingGoesOn(cfg, e, c, a, clock);
    AskedSnoc(c.calls, a);
    RestBegins(cfg, e);
    PlainIsNoCut(cfg, e, a.reply, clock);
  }

  lemma ReadRunOnScript(cfg: Config, e: Engine, c: Chapter, a: Act, clock: real, elapsed: real)
    requires Follows(cfg, e, c, elapsed) && e.pc.ReadRun?
    requires a.Called? && a.req == Ask(e) && Fits(a.req, a.reply)
    ensures Follows(cfg, Resume(cfg, e, a.reply, clock), c.(calls := c.calls + [a]), elapsed)
  {
    LearnedSnoc(c.calls, a);
    TurnIsLeft(cfg, c, elapsed, LearnedOf(c.calls), Asked(c.calls));
    RunExtends(cfg, c, elapsed, LearnedOf(c.calls), a.reply.run);
    assert LearnedOf(c.calls + [a]) == LearnedOf(c.calls).(run := Some(a.reply.run));
    LearnsOnScript(cfg, e, c, a, clock, elapsed);
  }

  lemma TurnIsLeft(cfg: Config, c: Chapter, elapsed: real, l: Learned, asked: seq<Line>)
    requires |asked| > 0 && asked + [Asks(GetRun)] == ScriptWith(cfg, c, elapsed, l)
    ensures c.reading.Some? ==> Turn(c.reading.value.1, 0).Some?
    ensures EndsWith(ScriptWith(cfg, c, elapsed, l), GetRun)
  {
    assert (asked + [Asks(GetRun)])[|asked|] == Asks(GetRun);
  }

  lemma FinalReadOnScript(cfg: Config, e: Engine, c: Chapter, a: Act, clock: real, elapsed: real)
    requires Follows(cfg, e, c, elapsed) && e.pc.FinalRead?
    requires a.Called? && a.req == Ask(e) && Fits(a.req, a.reply)
    ensures Follows(cfg, Resume(cfg, e, a.reply, clock), c.(calls := c.calls + [a]), elapsed)
  {
    LearnedSnoc(c.calls, a);
    FinalExtends(cfg, c, elapsed, LearnedOf(c.calls), a.reply.run);
    FinalRests(cfg, e, a.reply, clock);
    assert LearnedOf(c.calls + [a]) == LearnedOf(c.calls).(run := Some(a.reply.run));
    LearnsOnScript(cfg, e, c, a, clock, elapsed);
  }

  lemma FinalRests(cfg: Config, e: Engine, reply: Reply, clock: real)
    requires e.pc.FinalRead? && reply.RunRow?
    ensures Rest(cfg, Resume(cfg, e, reply, clock)) == AfterFinal(cfg, reply.run)
  {
  }

  lemma LookUpOnScript(cfg: Config, e: Engine, c: Chapter, a: Act, clock: real, elapsed: real)
    requires Follows(cfg, e, c, elapsed) && e.pc.CheckReport?
    requires a.Called? && a.req == Ask(e) && Fits(a.req, a.reply)
    ensures Follows(cfg, Resume(cfg, e, a.reply, clock), c.(calls := c.calls + [a]), elapsed)
  {
    LearnedSnoc(c.calls, a);
    LookUpExtends(cfg, c, elapsed, LearnedOf(c.calls), e.pc.pos, a.reply.events);
    assert LearnedOf(c.calls + [a]) == LearnedOf(c.calls).(events := Some(a.reply.events));
    TellsIsReported(a.reply.events, e.pc.pos);
    LearnsOnScript(cfg, e, c, a, clock, elapsed);
  }

  lemma TellsIsReported(events: seq<Event>, pos: nat)
    ensures Tells(events, pos) <==> Reported(events, pos)
  {
    if Reported(events, pos) {
      var e :| e in events && e.kind == EvRunFailed && e.step == Some(pos);
      var k :| 0 <= k < |events| && events[k] == e;
    }
  }

  lemma AnswerOnScript(cfg: Config, e: Engine, c: Chapter, a: Act, clock: real, elapsed: real)
    requires Follows(cfg, e, c, elapsed) && e.pc.Call?
    requires a.Called? && a.req == Ask(e) && Fits(a.req, a.reply)
    ensures Follows(cfg, Resume(cfg, e, a.reply, clock), c.(calls := c.calls + [a]), elapsed)
  {
    LearnedSnoc(c.calls, a);
    var l := LearnedOf(c.calls);
    assert ScriptWith(cfg, c, elapsed, l) == Asked(c.calls) + [Asks(Ask(e))];
    AnswerExtends(cfg, c, elapsed, l, e.pc.pos, a.reply.outcome);
    assert LearnedOf(c.calls + [a]) == l.(answer := Some(a.reply.outcome));
    ReactionRests(cfg, e, e.pc.pos, e.pc.step, a.reply.outcome);
    LearnsOnScript(cfg, e, c, a, clock, elapsed);
  }

  lemma ReactionRests(cfg: Config, e: Engine, pos: nat, step: Step, outcome: Outcome)
    ensures Rest(cfg, e.(pc := React(pos, step, outcome))) == AfterAnswer(cfg, pos, step, outcome)
  {
  }

  lemma RowOnScript(cfg: Config, e: Engine, c: Chapter, a: Act, clock: real, elapsed: real)
    requires Follows(cfg, e, c, elapsed) && e.pc.Reread?
    requires a.Called? && a.req == Ask(e) && Fits(a.req, a.reply)
    ensures Follows(cfg, Resume(cfg, e, a.reply, clock), c.(calls := c.calls + [a]), elapsed)
  {
    LearnedSnoc(c.calls, a);
    var l := LearnedOf(c.calls);
    assert ScriptWith(cfg, c, elapsed, l) == Asked(c.calls) + [Asks(Ask(e))];
    RowExtends(cfg, c, elapsed, l, e.pc.pos, a.reply.step);
    assert LearnedOf(c.calls + [a]) == l.(row := Some(a.reply.step));
    LearnsOnScript(cfg, e, c, a, clock, elapsed);
  }

  /** A reading of the steps opens a chapter. */
  lemma ReadingOnScript(cfg: Config, e: Engine, e': Engine, c: Chapter, steps: seq<Step>, elapsed: real)
    requires Bookkept(cfg, e, c) && e.pc.ReadSteps?
    requires e' == e.(pc := Decide(cfg.cat, View(e.held, e.pc.current), steps, elapsed))
    ensures Follows(cfg, e', Chapter(c.held, Some((FreshRun(c), steps)), []), elapsed)
  {
    var view := View(e.held, e.pc.current);
    DecisionFollows(cfg, e, view, steps, elapsed);
    DecisionAtHand(cfg, c.held, view, steps, elapsed);
    NeverFailsDeciding(cfg, view, steps, elapsed);
  }

  lemma DecisionAtHand(cfg: Config, held: Run, view: Run, steps: seq<Step>, elapsed: real)
    ensures var pc := Decide(cfg.cat, view, steps, elapsed);
            && AtHand(pc, Chapter(held, Some((view, steps)), []))
            && !Draining(pc) && !pc.Reread? && !pc.ReadSteps? && !pc.Hook? && pc != Resting(NeverDriven)
  {
    TurnIsFirst(steps, 0);
  }

  // ---- the clock ----

  /** What the clock says of a drive: since when it works, and how long it had worked at its latest reading. */
  datatype Watch = Watch(since: Option<real>, elapsed: real)

  const UNSTARTED: Watch := Watch(None, 0.0)

  /** A drive works from its first drain on. */
  function Tick(watch: Watch, a: Act, clock: real): Watch {
    match a
    case Host(_) => watch
    case Began(_) => UNSTARTED
    case Called(req, reply, _) =>
      if req.EventsAfter? && reply.Batch? && watch.since.None? then Watch(Some(clock), watch.elapsed)
      else if req.GetSteps? && reply.StepRows? && watch.since.Some? then
        watch.(elapsed := clock - watch.since.value)
      else watch
  }

  function WatchAfter(cfg: Config, s: State, ins: seq<Input>, watch: Watch): Watch
    decreases |ins|
  {
    if |ins| == 0 then watch else WatchAfter(cfg, Next(cfg, s, ins[0]), ins[1..], Ticked(cfg, s, ins[0], watch))
  }

  /** What one input adds to the history moves the watch. */
  function Ticked(cfg: Config, s: State, i: Input, watch: Watch): Watch {
    var trace := Next(cfg, s, i).trace;
    if |trace| == |s.trace| || |trace| == 0 then watch
    else Tick(watch, trace[|trace| - 1], if i.Serve? then i.clock else 0.0)
  }

  predicate Timed(e: Engine, watch: Watch) {
    !e.pc.Resting? ==>
      if e.pc.AskSequence? || e.pc.MarkRunning? || e.pc.FirstDrain? then watch.since.None?
      else watch.since == Some(e.started)
  }

  // ---- every run ----

  ghost predicate OnScript(cfg: Config, s: State, init: Run, watch: Watch) {
    Timed(s.e, watch) && Follows(cfg, s.e, ChapterOf(s.trace, init), watch.elapsed)
  }

  lemma TimedGoesOn(cfg: Config, e: Engine, watch: Watch, a: Act, clock: real)
    requires Timed(e, watch) && !e.pc.Resting? && a.Called? && a.req == Ask(e)
    ensures var w := Tick(watch, a, clock);
            && Timed(Resume(cfg, e, a.reply, clock), w)
            && (e.pc.ReadSteps? && Fits(a.req, a.reply) ==> w.elapsed == clock - e.started)
            && (!e.pc.ReadSteps? || !Fits(a.req, a.reply) ==> w.elapsed == watch.elapsed)
  {
  }

  lemma CallFollows(cfg: Config, e: Engine, c: Chapter, a: Act, clock: real, elapsed: real)
    requires Follows(cfg, e, c, elapsed) && !e.pc.Resting? && !e.pc.ReadSteps?
    requires a.Called? && a.req == Ask(e) && Fits(a.req, a.reply)
    ensures Follows(cfg, Resume(cfg, e, a.reply, clock), c.(calls := c.calls + [a]), elapsed)
  {
    match e.pc
    case ReadRun => ReadRunOnScript(cfg, e, c, a, clock, elapsed);
    case CheckReport(_) => LookUpOnScript(cfg, e, c, a, clock, elapsed);
    case Call(_, _) => AnswerOnScript(cfg, e, c, a, clock, elapsed);
    case Reread(_, _) => RowOnScript(cfg, e, c, a, clock, elapsed);
    case FinalRead => FinalReadOnScript(cfg, e, c, a, clock, elapsed);
    case _ => PlainOnScript(cfg, e, c, a, clock, elapsed);
  }

  lemma OnlyReadingAsks(e: Engine)
    requires !e.pc.Resting?
    ensures Ask(e).GetSteps? <==> e.pc.ReadSteps?
  {
  }

  /** The chapter after a callback. */
  function Turned(c: Chapter, a: Act): Chapter
    requires a.Called?
  {
    if a.req.GetSteps? && a.reply.StepRows? then Chapter(c.held, Some((FreshRun(c), a.reply.steps)), [])
    else c.(calls := c.calls + [a])
  }

  lemma FailsInStep(cfg: Config, e: Engine, reply: Reply, clock: real)
    requires !e.pc.Resting? && !Fits(Ask(e), reply)
    ensures Resume(cfg, e, reply, clock) == e.(pc := Resting(StoreFailed(e.pc)))
  {
  }

  lemma ReadingResumes(cfg: Config, e: Engine, reply: Reply, clock: real)
    requires e.pc.ReadSteps? && reply.StepRows?
    ensures Resume(cfg, e, reply, clock) ==
            e.(pc := Decide(cfg.cat, View(e.held, e.pc.current), reply.steps, clock - e.started))
  {
  }

  lemma ReadingTurns(cfg: Config, e: Engine, c: Chapter, a: Act, clock: real, elapsed: real)
    requires Follows(cfg, e, c, elapsed) && e.pc.ReadSteps? && a.Called? && a.req == Ask(e) && a.reply.StepRows?
    ensures Follows(cfg, Resume(cfg, e, a.reply, clock), Turned(c, a), clock - e.started)
  {
    var e' := Resume(cfg, e, a.reply, clock);
    ReadingResumes(cfg, e, a.reply, clock);
    ReadingOnScript(cfg, e, e', c, a.reply.steps, clock - e.started);
  }

  lemma FailureTurns(cfg: Config, e: Engine, c: Chapter, a: Act, clock: real, elapsed: real)
    requires Follows(cfg, e, c, elapsed) && !e.pc.Resting? && a.Called? && a.req == Ask(e) && !Fits(a.req, a.reply)
    ensures Follows(cfg, Resume(cfg, e, a.reply, clock), c.(calls := c.calls + [a]), elapsed)
  {
    FailsInStep(cfg, e, a.reply, clock);
    FailsOnScript(cfg, e, c, a, elapsed);
  }

  lemma CallbackFollows(cfg: Config, e: Engine, c: Chapter, a: Act, clock: real, elapsed: real)
    requires Follows(cfg, e, c, elapsed) && !e.pc.Resting? && a.Called? && a.req == Ask(e)
    ensures Follows(cfg, Resume(cfg, e, a.reply, clock), Turned(c, a),
                    if e.pc.ReadSteps? && a.reply.StepRows? then clock - e.started else elapsed)
  {
    OnlyReadingAsks(e);
    if e.pc.ReadSteps? && a.reply.StepRows? {
      ReadingTurns(cfg, e, c, a, clock, elapsed);
    } else if Fits(a.req, a.reply) {
      CallFollows(cfg, e, c, a, clock, elapsed);
    } else {
      FailureTurns(cfg, e, c, a, clock, elapsed);
    }
  }

  /** What serving a callback adds to the history. */
  function Exchange(s: State, i: Input): Act
    requires i.Serve? && !s.e.pc.Resting?
  {
    Called(Ask(s.e), Perform(s.w, Ask(s.e), i.answer, i.outcome).1, Ask(s.e).Invoke? || !i.answer.Refused?)
  }

  lemma ServeAdds(cfg: Config, s: State, i: Input, watch: Watch)
    requires i.Serve? && !s.e.pc.Resting?
    ensures Next(cfg, s, i).trace == s.trace + [Exchange(s, i)]
    ensures Next(cfg, s, i).e == Resume(cfg, s.e, Exchange(s, i).reply, i.clock)
    ensures Ticked(cfg, s, i, watch) == Tick(watch, Exchange(s, i), i.clock)
  {
  }

  lemma ExchangeStays(cfg: Config, s: State, t: State, a: Act, clock: real, init: Run, watch: Watch)
    requires OnScript(cfg, s, init, watch) && !s.e.pc.Resting? && a.Called? && a.req == Ask(s.e)
    requires t.trace == s.trace + [a] && t.e == Resume(cfg, s.e, a.reply, clock)
    ensures OnScript(cfg, t, init, Tick(watch, a, clock))
  {
    var c := ChapterOf(s.trace, init);
    CallbackFollows(cfg, s.e, c, a, clock, watch.elapsed);
    CallbackTicks(cfg, s.e, watch, a, clock);
    ChapterTurns(s.trace, a, init);
  }

  lemma ChapterTurns(trace: seq<Act>, a: Act, init: Run)
    requires a.Called?
    ensures ChapterOf(trace + [a], init) == Turned(ChapterOf(trace, init), a)
  {
    ChapterSnoc(trace, a, init);
  }

  lemma ServeStays(cfg: Config, s: State, i: Input, init: Run, watch: Watch)
    requires OnScript(cfg, s, init, watch) && i.Serve? && !s.e.pc.Resting?
    ensures OnScript(cfg, Next(cfg, s, i), init, Ticked(cfg, s, i, watch))
  {
    ServeAdds(cfg, s, i, watch);
    ExchangeStays(cfg, s, Next(cfg, s, i), Exchange(s, i), i.clock, init, watch);
  }

  lemma CallbackTicks(cfg: Config, e: Engine, watch: Watch, a: Act, clock: real)
    requires Timed(e, watch) && !e.pc.Resting? && a.Called? && a.req == Ask(e)
    ensures Timed(Resume(cfg, e, a.reply, clock), Tick(watch, a, clock))
    ensures Tick(watch, a, clock).elapsed ==
            if e.pc.ReadSteps? && a.reply.StepRows? then clock - e.started else watch.elapsed
  {
    TimedGoesOn(cfg, e, watch, a, clock);
    if e.pc.ReadSteps? {
      ReadingFits(e, a.reply);
    }
  }

  lemma ReadingFits(e: Engine, reply: Reply)
    requires e.pc.ReadSteps?
    ensures Fits(Ask(e), reply) <==> reply.StepRows?
  {
  }

  lemma ScriptStep(cfg: Config, s: State, i: Input, init: Run, watch: Watch)
    requires OnScript(cfg, s, init, watch)
    ensures OnScript(cfg, Next(cfg, s, i), init, Ticked(cfg, s, i, watch))
  {
    match i
    case Move(m) => ChapterSnoc(s.trace, Host(m), init);
    case Begin =>
      if s.e.pc.Resting? {
        ChapterSnoc(s.trace, Began(s.w.run), init);
      }
    case Serve(_, _, _) =>
      if !s.e.pc.Resting? {
        ServeStays(cfg, s, i, init, watch);
      }
  }

  lemma {:induction false} ScriptAlong(cfg: Config, s: State, ins: seq<Input>, init: Run, watch: Watch)
    requires OnScript(cfg, s, init, watch)
    ensures OnScript(cfg, RunAll(cfg, s, ins), init, WatchAfter(cfg, s, ins, watch))
    decreases |ins|
  {
    if |ins| > 0 {
      ScriptStep(cfg, s, ins[0], init, watch);
      ScriptAlong(cfg, Next(cfg, s, ins[0]), ins[1..], init, Ticked(cfg, s, ins[0], watch));
    }
  }

  /**
   The engine keeps to the script. Over any drives and any host, what a drive has asked since it began, or since its
   latest reading of the steps, is how the script of that history begins; a drive in progress asks the script's next
   callback; and a drive that rests has asked all of it, unless a callback failed.
   */
  lemma EngineKeepsToScript(cfg: Config, w: World, ins: seq<Input>)
    ensures var s := RunAll(cfg, Start(w), ins);
            var c := ChapterOf(s.trace, w.run);
            var script := ScriptOf(cfg, c, WatchAfter(cfg, Start(w), ins, UNSTARTED).elapsed);
            && Asked(c.calls) <= script
            && (!s.e.pc.Resting? ==> Asked(c.calls) + [Shape(Ask(s.e))] <= script)
            && (s.e.pc.Resting? && !CutOff(s.e.pc) ==> Asked(c.calls) + [Leaves(s.e.pc.exit)] == script)
  {
    ScriptAlong(cfg, Start(w), ins, w.run, UNSTARTED);
    var s := RunAll(cfg, Start(w), ins);
    FollowersKeepTo(cfg, s.e, ChapterOf(s.trace, w.run), WatchAfter(cfg, Start(w), ins, UNSTARTED).elapsed);
  }

  lemma FollowersKeepTo(cfg: Config, e: Engine, c: Chapter, elapsed: real)
    requires Follows(cfg, e, c, elapsed)
    ensures Asked(c.calls) <= ScriptOf(cfg, c, elapsed)
    ensures !e.pc.Resting? ==> Asked(c.calls) + [Shape(Ask(e))] <= ScriptOf(cfg, c, elapsed)
    ensures e.pc.Resting? && !CutOff(e.pc) ==> Asked(c.calls) + [Leaves(e.pc.exit)] == ScriptOf(cfg, c, elapsed)
  {
    if !e.pc.Resting? {
      RestBegins(cfg, e);
      assert Asked(c.calls) + [Rest(cfg, e)[0]] <= Asked(c.calls) + Rest(cfg, e);
    }
  }
}
