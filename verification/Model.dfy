/** What the engine reads and writes: runs, steps, durable events, and its exchanges with a host. */
module Model {
  import opened Basics

  const STEP_STATUSES := {"pending", "awaiting_approval", "approved", "running", "completed", "failed", "skipped"}

  const RUN_STATUSES := {"running", "awaiting_approval", "paused", "cancelled", "completed", "failed"}

  type OddStepStatus = text: string | text !in STEP_STATUSES witness ""

  type OddRunStatus = text: string | text !in RUN_STATUSES witness ""

  datatype StepStatus =
    | Pending | Awaiting | Approved | Running | Completed | Failed | Skipped
    | Unrecognized(text: OddStepStatus)

  /** The run statuses the engine writes or tells apart; a host may store any other text. */
  datatype RunStatus =
    | RunRunning | RunAwaiting | RunPaused | RunCancelled | RunCompleted | RunFailed
    | RunOther(text: OddRunStatus)

  predicate Done(status: StepStatus) {
    status.Completed? || status.Skipped?
  }

  predicate Executed(status: StepStatus) {
    status.Completed? || status.Failed?
  }

  predicate Terminal(status: RunStatus) {
    status.RunCompleted? || status.RunFailed? || status.RunCancelled?
  }

  predicate Halting(status: RunStatus) {
    status.RunPaused? || status.RunCancelled?
  }

  /** The run fields the engine reads. Grants, pre-approvals and budgets are untrusted stored values. */
  datatype Run = Run(
    status: RunStatus,
    policy: Option<string>,
    autoApprove: bool,
    grants: Json,
    preapproved: Json,
    maxSteps: Json,
    maxWall: Json)

  /** The step fields the engine reads. A step's identity is its position in the run. */
  datatype Step = Step(kind: string, title: string, status: StepStatus, requiresApproval: bool)

  type Refs = map<string, Json>

  /** A host's step row: the engine's view plus the two fields it only writes. */
  datatype Row = Row(step: Step, error: Option<string>, refs: Option<Refs>)

  const EVENT_TYPES := {
    "agent.step.started", "agent.step.completed", "agent.step.failed", "agent.step.skipped",
    "agent.approval.required", "agent.approval.granted",
    "agent.run.completed", "agent.run.failed", "agent.run.paused", "agent.run.budget_exhausted"}

  type OddEventType = text: string | text !in EVENT_TYPES witness ""

  /** The event types the engine appends; hosts and handlers append others. */
  datatype EventKind =
    | EvStarted | EvCompleted | EvFailed | EvSkipped | EvRequired | EvGranted
    | EvRunCompleted | EvRunFailed | EvRunPaused | EvBudget
    | EvOther(name: OddEventType)

  datatype Event = Event(sequence: int, kind: EventKind, step: Option<nat>, payload: Json)

  /** "Leave untouched" against "replace", where replacing with `None` clears. */
  datatype Update<+T> = Leave | Put(value: Option<T>)

  function Updated<T>(prior: Option<T>, u: Update<T>): Option<T> {
    match u
    case Leave => prior
    case Put(value) => value
  }

  /** What a tool handler answers or raises. */
  datatype Outcome =
    | Finished(refs: Option<Refs>)
    | NotApplicable(message: string)
    | Erred(message: string)
    | Prepared(message: string)
    | Unobserved
    | Crashed(message: string)
    | Signalled

  /** One callback of the engine to its host: the store operations, the tool handlers and the hook. */
  datatype Request =
    | NextSequence
    | GetRun
    | GetSteps
    | GetStep(pos: nat)
    | SetRunStatus(status: RunStatus)
    | SetStepState(pos: nat, to: StepStatus, error: Update<string>, refs: Update<Refs>)
    | Append(kind: EventKind, step: Option<nat>, payload: Json)
    | EventsAfter(after: int)
    | Invoke(pos: nat, seen: Step)
    | RunEnd(outcome: RunStatus)
    | Rollback

  datatype Reply =
    | Number(n: int)
    | RunRow(run: Option<Run>)
    | StepRow(step: Option<Step>)
    | StepRows(steps: seq<Step>)
    | Batch(events: seq<Event>)
    | Appended(event: Event)
    | Answered(outcome: Outcome)
    | Ack
    | Broken

  /** The first step that is neither completed nor skipped. */
  function FirstUnfinished(steps: seq<Step>): (r: Option<nat>)
    ensures r.None? <==> forall k :: 0 <= k < |steps| ==> Done(steps[k].status)
    ensures r.Some? ==> r.value < |steps| && !Done(steps[r.value].status)
    ensures r.Some? ==> forall k :: 0 <= k < r.value ==> Done(steps[k].status)
  {
    FirstUnfinishedFrom(steps, 0)
  }

  function FirstUnfinishedFrom(steps: seq<Step>, from: nat): (r: Option<nat>)
    requires from <= |steps|
    requires forall k :: 0 <= k < from ==> Done(steps[k].status)
    ensures r.None? <==> forall k :: 0 <= k < |steps| ==> Done(steps[k].status)
    ensures r.Some? ==> r.value < |steps| && !Done(steps[r.value].status)
    ensures r.Some? ==> forall k :: 0 <= k < r.value ==> Done(steps[k].status)
    decreases |steps| - from
  {
    if from == |steps| then None
    else if Done(steps[from].status) then FirstUnfinishedFrom(steps, from + 1)
    else Some(from)
  }

  function ExecutedCount(steps: seq<Step>): nat {
    if |steps| == 0 then 0
    else ExecutedCount(steps[..|steps| - 1]) + (if Executed(steps[|steps| - 1].status) then 1 else 0)
  }

  /** A stored budget counts only when it is a positive integer; Python's `True` is the integer 1. */
  function PositiveInt(stored: Json): Option<int> {
    match stored
    case JInt(n) => if n > 0 then Some(n) else None
    case JBool(flag) => if flag then Some(1) else None
    case _ => None
  }
}
