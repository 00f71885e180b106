/**
 The wire shapes of the host callback API: how a host writes its records as JSON and how the service
 parses them. Each lemma gives the decoding of every encoding: the record itself when it is inside the
 documented vocabulary, and a protocol error, never a coerced value, when it is not.
 */
module Wire {
  import opened Basics
  import opened Model
  import opened System

  /** Host identities: the run's, each step's, and which step an identity names. */
  datatype Naming = Naming(run: string, name: nat -> string, find: string -> Option<nat>)

  ghost predicate Sound(nm: Naming) {
    forall pos: nat :: nm.find(nm.name(pos)) == Some(pos)
  }

  // ---- vocabularies ----

  function StepStatusText(status: StepStatus): string {
    match status
    case Pending => "pending"
    case Awaiting => "awaiting_approval"
    case Approved => "approved"
    case Running => "running"
    case Completed => "completed"
    case Failed => "failed"
    case Skipped => "skipped"
    case Unrecognized(text) => text
  }

  function StepStatusOf(text: string): StepStatus {
    if text == "pending" then Pending
    else if text == "awaiting_approval" then Awaiting
    else if text == "approved" then Approved
    else if text == "running" then Running
    else if text == "completed" then Completed
    else if text == "failed" then Failed
    else if text == "skipped" then Skipped
    else Unrecognized(text)
  }

  function RunStatusText(status: RunStatus): string {
    match status
    case RunRunning => "running"
    case RunAwaiting => "awaiting_approval"
    case RunPaused => "paused"
    case RunCancelled => "cancelled"
    case RunCompleted => "completed"
    case RunFailed => "failed"
    case RunOther(text) => text
  }

  function RunStatusOf(text: string): RunStatus {
    if text == "running" then RunRunning
    else if text == "awaiting_approval" then RunAwaiting
    else if text == "paused" then RunPaused
    else if text == "cancelled" then RunCancelled
    else if text == "completed" then RunCompleted
    else if text == "failed" then RunFailed
    else RunOther(text)
  }

  function KindText(kind: EventKind): string {
    match kind
    case EvStarted => "agent.step.started"
    case EvCompleted => "agent.step.completed"
    case EvFailed => "agent.step.failed"
    case EvSkipped => "agent.step.skipped"
    case EvRequired => "agent.approval.required"
    case EvGranted => "agent.approval.granted"
    case EvRunCompleted => "agent.run.completed"
    case EvRunFailed => "agent.run.failed"
    case EvRunPaused => "agent.run.paused"
    case EvBudget => "agent.run.budget_exhausted"
    case EvOther(text) => text
  }

  function KindOf(text: string): EventKind {
    if text == "agent.step.started" then EvStarted
    else if text == "agent.step.completed" then EvCompleted
    else if text == "agent.step.failed" then EvFailed
    else if text == "agent.step.skipped" then EvSkipped
    else if text == "agent.approval.required" then EvRequired
    else if text == "agent.approval.granted" then EvGranted
    else if text == "agent.run.completed" then EvRunCompleted
    else if text == "agent.run.failed" then EvRunFailed
    else if text == "agent.run.paused" then EvRunPaused
    else if text == "agent.run.budget_exhausted" then EvBudget
    else EvOther(text)
  }

  lemma StepStatusRoundTrip(status: StepStatus, text: string)
    ensures StepStatusOf(StepStatusText(status)) == status
    ensures StepStatusText(StepStatusOf(text)) == text
  {
  }

  lemma RunStatusRoundTrip(status: RunStatus, text: string)
    ensures RunStatusOf(RunStatusText(status)) == status
    ensures RunStatusText(RunStatusOf(text)) == text
  {
  }

  lemma KindRoundTrip(kind: EventKind, text: string)
    ensures KindOf(KindText(kind)) == kind
    ensures KindText(KindOf(text)) == text
  {
  }

  // ---- strict field parsing ----

  function RequiredStr(data: map<string, Json>, key: string): Result<string> {
    match Get(data, key)
    case JStr(text) => if text == "" then Bad else Ok(text)
    case _ => Bad
  }

  function OptionalStr(data: map<string, Json>, key: string): Result<Option<string>> {
    match Get(data, key)
    case JNull => Ok(None)
    case JStr(text) => Ok(Some(text))
    case _ => Bad
  }

  function OptionalBool(data: map<string, Json>, key: string): Result<bool> {
    match Get(data, key)
    case JNull => Ok(false)
    case JBool(flag) => Ok(flag)
    case _ => Bad
  }

  predicate IntOrNull(value: Json) {
    value.JNull? || value.JInt?
  }

  function OptionalInt(data: map<string, Json>, key: string): Result<Json> {
    if IntOrNull(Get(data, key)) then Ok(Get(data, key)) else Bad
  }

  predicate TextsOrNull(value: Json) {
    value.JNull? || (value.JArr? && forall k :: 0 <= k < |value.items| ==> value.items[k].JStr?)
  }

  function OptionalStrList(data: map<string, Json>, key: string): Result<Json> {
    if TextsOrNull(Get(data, key)) then Ok(Get(data, key)) else Bad
  }

  // ---- run snapshots ----

  function EncodeRun(id: string, run: Run): Json {
    JObj(map[
      "id" := JStr(id),
      "status" := JStr(RunStatusText(run.status)),
      "approval_policy" := OptText(run.policy),
      "auto_approve" := JBool(run.autoApprove),
      "allowed_tools_json" := run.grants,
      "budget_max_steps" := run.maxSteps,
      "budget_max_wall_seconds" := run.maxWall,
      "preapproved_tools" := run.preapproved])
  }

  function DecodeRun(data: Json): Result<Run> {
    if !data.JObj? then Bad
    else
      var _ :- RequiredStr(data.fields, "id");
      var status :- RequiredStr(data.fields, "status");
      var policy :- OptionalStr(data.fields, "approval_policy");
      var autoApprove :- OptionalBool(data.fields, "auto_approve");
      var grants :- OptionalStrList(data.fields, "allowed_tools_json");
      var maxSteps :- OptionalInt(data.fields, "budget_max_steps");
      var maxWall :- OptionalInt(data.fields, "budget_max_wall_seconds");
      var preapproved :- OptionalStrList(data.fields, "preapproved_tools");
      Ok(Run(RunStatusOf(status), policy, autoApprove, grants, preapproved, maxSteps, maxWall))
  }

  predicate NonEmpty(value: Json) {
    value.JStr? && value.text != ""
  }

  predicate StringOrNull(value: Json) {
    value.JStr? || value.JNull?
  }

  predicate BoolOrNull(value: Json) {
    value.JBool? || value.JNull?
  }

  predicate IntegerOrNull(value: Json) {
    value.JInt? || value.JNull?
  }

  ghost predicate StringsOrNull(value: Json) {
    value.JNull? || (value.JArr? && forall item :: item in value.items ==> item.JStr?)
  }

  /** Whatever a host sends, a run is accepted exactly when each of its fields holds what it may, missing as null. */
  lemma RunAccepted(data: Json)
    ensures DecodeRun(data).Ok? <==>
      && data.JObj?
      && NonEmpty(Get(data.fields, "id")) && NonEmpty(Get(data.fields, "status"))
      && StringOrNull(Get(data.fields, "approval_policy")) && BoolOrNull(Get(data.fields, "auto_approve"))
      && StringsOrNull(Get(data.fields, "allowed_tools_json"))
      && StringsOrNull(Get(data.fields, "preapproved_tools"))
      && IntegerOrNull(Get(data.fields, "budget_max_steps"))
      && IntegerOrNull(Get(data.fields, "budget_max_wall_seconds"))
  {
    if data.JObj? {
      TextsAreStrings(Get(data.fields, "allowed_tools_json"));
      TextsAreStrings(Get(data.fields, "preapproved_tools"));
    }
  }

  lemma TextsAreStrings(value: Json)
    ensures TextsOrNull(value) <==> StringsOrNull(value)
  {
    if value.JArr? && StringsOrNull(value) {
      forall k | 0 <= k < |value.items| ensures value.items[k].JStr? {
        assert value.items[k] in value.items;
      }
    }
  }

  /** An accepted run says what its fields say. A missing or null switch is off. */
  lemma RunRead(data: Json)
    requires DecodeRun(data).Ok?
    ensures var (run, fields) := (DecodeRun(data).value, data.fields);
      && (run.autoApprove <==> Get(fields, "auto_approve") == JBool(true))
      && Get(fields, "approval_policy") == (if run.policy.Some? then JStr(run.policy.value) else JNull)
      && run.grants == Get(fields, "allowed_tools_json") && run.preapproved == Get(fields, "preapproved_tools")
      && run.maxSteps == Get(fields, "budget_max_steps") && run.maxWall == Get(fields, "budget_max_wall_seconds")
    ensures RunStatusNamed(DecodeRun(data).value.status, Get(data.fields, "status"))
  {
  }

  /** The status of a run against its text. */
  predicate RunStatusNamed(status: RunStatus, text: Json) {
    && (status == RunRunning <==> text == JStr("running"))
    && (status == RunAwaiting <==> text == JStr("awaiting_approval"))
    && (status == RunPaused <==> text == JStr("paused"))
    && (status == RunCancelled <==> text == JStr("cancelled"))
    && (status == RunCompleted <==> text == JStr("completed"))
    && (status == RunFailed <==> text == JStr("failed"))
    && (status.RunOther? ==> text == JStr(status.text))
  }

  /** The documented run vocabulary: stored lists are lists of strings and budgets are integers, or null. */
  predicate RunOnWire(id: string, run: Run) {
    && id != "" && RunStatusText(run.status) != ""
    && TextsOrNull(run.grants) && TextsOrNull(run.preapproved)
    && IntOrNull(run.maxSteps) && IntOrNull(run.maxWall)
  }

  /** A run crosses the wire unchanged exactly when it is in the vocabulary, and is refused otherwise. */
  lemma RunCrossing(id: string, run: Run)
    ensures DecodeRun(EncodeRun(id, run)) == if RunOnWire(id, run) then Ok(run) else Bad
  {
    RunStatusRoundTrip(run.status, "");
  }

  // ---- step snapshots ----

  /** The host's own columns (`error`, `output_refs_json`) travel too; the service does not read them. */
  function EncodeStep(id: string, row: Row): Json {
    JObj(map[
      "id" := JStr(id),
      "type" := JStr(row.step.kind),
      "title" := JStr(row.step.title),
      "status" := JStr(StepStatusText(row.step.status)),
      "requires_approval" := JBool(row.step.requiresApproval),
      "error" := OptText(row.error),
      "output_refs_json" := if row.refs.Some? then JObj(row.refs.value) else JNull])
  }

  function DecodeStep(data: Json): Result<Step> {
    if !data.JObj? then Bad
    else
      var status :- RequiredStr(data.fields, "status");
      if status !in STEP_STATUSES then Bad
      else
        var _ :- RequiredStr(data.fields, "id");
        var kind :- RequiredStr(data.fields, "type");
        var title :- OptionalStr(data.fields, "title");
        var flag :- OptionalBool(data.fields, "requires_approval");
        Ok(Step(kind, if title.Some? then title.value else "", StepStatusOf(status), flag))
  }

  lemma StepAccepted(data: Json)
    ensures DecodeStep(data).Ok? <==>
      && data.JObj?
      && NonEmpty(Get(data.fields, "id")) && NonEmpty(Get(data.fields, "type"))
      && Get(data.fields, "status") in
           {JStr("pending"), JStr("awaiting_approval"), JStr("approved"), JStr("running"), JStr("completed"),
            JStr("failed"), JStr("skipped")}
      && StringOrNull(Get(data.fields, "title")) && BoolOrNull(Get(data.fields, "requires_approval"))
  {
  }

  /** An accepted step says what its fields say: no title is an empty one, and no flag is off. */
  lemma StepRead(data: Json)
    requires DecodeStep(data).Ok?
    ensures var (step, fields) := (DecodeStep(data).value, data.fields);
      && Get(fields, "type") == JStr(step.kind)
      && step.title == (if Get(fields, "title").JStr? then Get(fields, "title").text else "")
      && (step.requiresApproval <==> Get(fields, "requires_approval") == JBool(true))
    ensures StepStatusNamed(DecodeStep(data).value.status, Get(data.fields, "status"))
  {
  }

  predicate StepStatusNamed(status: StepStatus, text: Json) {
    && (status == StepStatus.Pending <==> text == JStr("pending"))
    && (status == Awaiting <==> text == JStr("awaiting_approval"))
    && (status == Approved <==> text == JStr("approved"))
    && (status == Running <==> text == JStr("running"))
    && (status == Completed <==> text == JStr("completed"))
    && (status == Failed <==> text == JStr("failed"))
    && (status == Skipped <==> text == JStr("skipped"))
    && !status.Unrecognized?
  }

  predicate StepOnWire(id: string, step: Step) {
    id != "" && step.kind != "" && !step.status.Unrecognized?
  }

  lemma StepCrossing(id: string, row: Row)
    ensures DecodeStep(EncodeStep(id, row)) == if StepOnWire(id, row.step) then Ok(row.step) else Bad
  {
    StepStatusRoundTrip(row.step.status, "");
  }

  /** A list of steps is accepted when all are, and arrives in order. */
  lemma {:induction false} StepsAccepted(items: seq<Json>)
    ensures DecodeSteps(items).Ok? <==> forall k :: 0 <= k < |items| ==> DecodeStep(items[k]).Ok?
    ensures DecodeSteps(items).Ok? ==>
      && |DecodeSteps(items).value| == |items|
      && forall k :: 0 <= k < |items| ==> DecodeStep(items[k]) == Ok(DecodeSteps(items).value[k])
    decreases |items|
  {
    if |items| > 0 {
      StepsAccepted(items[..|items| - 1]);
      assert forall k :: 0 <= k < |items| - 1 ==> items[..|items| - 1][k] == items[k];
    }
  }

  function EncodeSteps(nm: Naming, rows: seq<Row>): (items: seq<Json>)
    ensures |items| == |rows|
  {
    seq(|rows|, k requires 0 <= k < |rows| => EncodeStep(nm.name(k), rows[k]))
  }

  function DecodeSteps(items: seq<Json>): Result<seq<Step>> {
    if |items| == 0 then Ok([])
    else
      var front :- DecodeSteps(items[..|items| - 1]);
      var last :- DecodeStep(items[|items| - 1]);
      Ok(front + [last])
  }

  ghost predicate AllOnWire(nm: Naming, rows: seq<Row>) {
    forall k :: 0 <= k < |rows| ==> StepOnWire(nm.name(k), rows[k].step)
  }

  lemma AllOnWireSplits(nm: Naming, rows: seq<Row>)
    requires |rows| > 0
    ensures AllOnWire(nm, rows) <==>
            AllOnWire(nm, rows[..|rows| - 1]) && StepOnWire(nm.name(|rows| - 1), rows[|rows| - 1].step)
  {
    var front := rows[..|rows| - 1];
    if !AllOnWire(nm, front) {
      var k :| 0 <= k < |front| && !StepOnWire(nm.name(k), front[k].step);
      assert rows[k] == front[k];
    }
  }

  /** One step outside the vocabulary refuses the whole list. */
  lemma {:induction false} StepsCrossing(nm: Naming, rows: seq<Row>)
    ensures DecodeSteps(EncodeSteps(nm, rows)) == if AllOnWire(nm, rows) then Ok(Views(rows)) else Bad
    decreases |rows|
  {
    if |rows| > 0 {
      var front := rows[..|rows| - 1];
      StepsCrossing(nm, front);
      StepCrossing(nm.name(|rows| - 1), rows[|rows| - 1]);
      AllOnWireSplits(nm, rows);
      assert EncodeSteps(nm, rows)[..|rows| - 1] == EncodeSteps(nm, front);
      assert Views(rows) == Views(front) + [rows[|rows| - 1].step];
    }
  }

  // ---- events ----

  function EncodeEvent(nm: Naming, event: Event): Json {
    JObj(map[
      "sequence" := JInt(event.sequence),
      "type" := JStr(KindText(event.kind)),
      "agent_step_id" := if event.step.Some? then JStr(nm.name(event.step.value)) else JNull,
      "payload_json" := event.payload])
  }

  function DecodeEvent(nm: Naming, data: Json): Result<Event> {
    if !data.JObj? || !Get(data.fields, "sequence").JInt? then Bad
    else
      var kind, id := Get(data.fields, "type"), Get(data.fields, "agent_step_id");
      Ok(Event(Get(data.fields, "sequence").number,
               if kind.JStr? then KindOf(kind.text) else EvOther(""),
               if id.JStr? then nm.find(id.text) else None,
               Get(data.fields, "payload_json")))
  }

  /** Only an event's number is checked; any other field is read as far as it can be. */
  lemma EventRead(nm: Naming, data: Json)
    ensures DecodeEvent(nm, data).Ok? <==> data.JObj? && Get(data.fields, "sequence").JInt?
    ensures DecodeEvent(nm, data).Ok? ==>
      var (event, fields) := (DecodeEvent(nm, data).value, data.fields);
      && Get(fields, "sequence") == JInt(event.sequence)
      && event.payload == Get(fields, "payload_json")
      && event.step == (if Get(fields, "agent_step_id").JStr? then nm.find(Get(fields, "agent_step_id").text) else None)
      && EventNamed(event.kind, Get(fields, "type"))
  {
  }

  /** The type of an event against its text. */
  predicate EventNamed(kind: EventKind, text: Json) {
    && (kind == EvStarted <==> text == JStr("agent.step.started"))
    && (kind == EvCompleted <==> text == JStr("agent.step.completed"))
    && (kind == EvFailed <==> text == JStr("agent.step.failed"))
    && (kind == EvSkipped <==> text == JStr("agent.step.skipped"))
    && (kind == EvRequired <==> text == JStr("agent.approval.required"))
    && (kind == EvGranted <==> text == JStr("agent.approval.granted"))
    && (kind == EvRunCompleted <==> text == JStr("agent.run.completed"))
    && (kind == EvRunFailed <==> text == JStr("agent.run.failed"))
    && (kind == EvRunPaused <==> text == JStr("agent.run.paused"))
    && (kind == EvBudget <==> text == JStr("agent.run.budget_exhausted"))
    && (kind.EvOther? ==> text == JStr(kind.name) || (kind.name == "" && !text.JStr?))
  }

  lemma EventCrossing(nm: Naming, event: Event)
    requires Sound(nm)
    ensures DecodeEvent(nm, EncodeEvent(nm, event)) == Ok(event)
  {
    KindRoundTrip(event.kind, "");
  }

  function EncodeEvents(nm: Naming, events: seq<Event>): (items: seq<Json>)
    ensures |items| == |events|
  {
    seq(|events|, k requires 0 <= k < |events| => EncodeEvent(nm, events[k]))
  }

  function DecodeEvents(nm: Naming, items: seq<Json>): Result<seq<Event>> {
    if |items| == 0 then Ok([])
    else
      var front :- DecodeEvents(nm, items[..|items| - 1]);
      var last :- DecodeEvent(nm, items[|items| - 1]);
      Ok(front + [last])
  }

  lemma {:induction false} EventsAccepted(nm: Naming, items: seq<Json>)
    ensures DecodeEvents(nm, items).Ok? <==> forall k :: 0 <= k < |items| ==> DecodeEvent(nm, items[k]).Ok?
    ensures DecodeEvents(nm, items).Ok? ==>
      && |DecodeEvents(nm, items).value| == |items|
      && forall k :: 0 <= k < |items| ==> DecodeEvent(nm, items[k]) == Ok(DecodeEvents(nm, items).value[k])
    decreases |items|
  {
    if |items| > 0 {
      EventsAccepted(nm, items[..|items| - 1]);
      assert forall k :: 0 <= k < |items| - 1 ==> items[..|items| - 1][k] == items[k];
    }
  }

  lemma {:induction false} EventsCrossing(nm: Naming, events: seq<Event>)
    requires Sound(nm)
    ensures DecodeEvents(nm, EncodeEvents(nm, events)) == Ok(events)
    decreases |events|
  {
    if |events| > 0 {
      var front := events[..|events| - 1];
      EventsCrossing(nm, front);
      EventCrossing(nm, events[|events| - 1]);
      assert EncodeEvents(nm, events)[..|events| - 1] == EncodeEvents(nm, front);
      assert events == front + [events[|events| - 1]];
    }
  }

  // ---- outcome envelopes ----

  /** A host's answer to an invocation; a tool that crashed is reported as failed. */
  function Envelope(outcome: Outcome): Option<Json> {
    match outcome
    case Finished(refs) =>
      Some(JObj(map["outcome" := JStr("completed"), "output_refs" := if refs.Some? then JObj(refs.value) else JNull]))
    case NotApplicable(message) => Some(JObj(map["outcome" := JStr("skipped"), "reason" := JStr(message)]))
    case Prepared(message) => Some(JObj(map["outcome" := JStr("prepared"), "reason" := JStr(message)]))
    case Erred(message) => Some(JObj(map["outcome" := JStr("failed"), "error" := JStr(message)]))
    case Crashed(message) => Some(JObj(map["outcome" := JStr("failed"), "error" := JStr(message)]))
    case Unobserved => None
    case Signalled => None
  }

  function Message(value: Json, default: string): string {
    if value.JStr? && !Blank(value.text) then value.text else default
  }

  /** Only a recognised outcome of the right shape is authoritative. */
  function DecodeOutcome(data: Json): Outcome {
    if !data.JObj? then Unobserved
    else
      var outcome := Get(data.fields, "outcome");
      if outcome == JStr("completed") then
        (match Get(data.fields, "output_refs")
         case JNull => Finished(None)
         case JObj(refs) => Finished(Some(refs))
         case _ => Unobserved)
      else if outcome == JStr("skipped") then
        NotApplicable(Message(Get(data.fields, "reason"), "step not applicable"))
      else if outcome == JStr("prepared") then
        Prepared(Message(Get(data.fields, "reason"), "a new action generation was prepared"))
      else if outcome == JStr("failed") then
        Erred(Message(Get(data.fields, "error"), "step failed on the host"))
      else Unobserved
  }

  /** A text the host may leave out, or send as anything but a visible string. */
  predicate SaysOr(value: Json, message: string, default: string) {
    if value.JStr? && !Blank(value.text) then message == value.text else message == default
  }

  /** Each envelope gives its own outcome, with the host's references or message, or the stock message without one. */
  lemma OutcomeRead(data: Json)
    ensures data.JObj? && Get(data.fields, "outcome") == JStr("completed") && Get(data.fields, "output_refs").JNull? ==>
              DecodeOutcome(data) == Finished(None)
    ensures data.JObj? && Get(data.fields, "outcome") == JStr("completed") && Get(data.fields, "output_refs").JObj? ==>
              DecodeOutcome(data) == Finished(Some(Get(data.fields, "output_refs").fields))
    ensures data.JObj? && Get(data.fields, "outcome") == JStr("skipped") ==>
              DecodeOutcome(data).NotApplicable?
              && SaysOr(Get(data.fields, "reason"), DecodeOutcome(data).message, "step not applicable")
    ensures data.JObj? && Get(data.fields, "outcome") == JStr("prepared") ==>
              DecodeOutcome(data).Prepared?
              && SaysOr(Get(data.fields, "reason"), DecodeOutcome(data).message,
                        "a new action generation was prepared")
    ensures data.JObj? && Get(data.fields, "outcome") == JStr("failed") ==>
              DecodeOutcome(data).Erred?
              && SaysOr(Get(data.fields, "error"), DecodeOutcome(data).message, "step failed on the host")
  {
    assert JStr("completed") != JStr("skipped") && JStr("completed") != JStr("prepared");
    assert JStr("completed") != JStr("failed") && JStr("skipped") != JStr("prepared");
  }

  /** What the engine learns of a handler's outcome across the wire. */
  function Across(outcome: Outcome): Outcome {
    match Envelope(outcome)
    case None => Unobserved
    case Some(data) => DecodeOutcome(data)
  }

  predicate Speaking(outcome: Outcome) {
    match outcome
    case Finished(_) => true
    case Unobserved => true
    case NotApplicable(message) => !Blank(message)
    case Prepared(message) => !Blank(message)
    case Erred(message) => !Blank(message)
    case Crashed(_) => false
    case Signalled => false
  }

  /** An outcome crosses unchanged exactly when it has a message to show, and never turns into another kind of end. */
  lemma OutcomeCrossing(outcome: Outcome)
    ensures Across(outcome) == outcome <==> Speaking(outcome)
    ensures Across(outcome).Finished? <==> outcome.Finished?
    ensures Across(outcome).NotApplicable? <==> outcome.NotApplicable?
    ensures Across(outcome).Prepared? <==> outcome.Prepared?
    ensures Across(outcome).Erred? <==> outcome.Erred? || outcome.Crashed?
    ensures Across(outcome).Unobserved? <==> outcome.Unobserved? || outcome.Signalled?
  {
    assert "completed" != "skipped" && "completed" != "prepared" && "completed" != "failed";
    assert "skipped" != "prepared" && "skipped" != "failed" && "prepared" != "failed";
    assert !IsSpace("step not applicable"[0]) && !IsSpace("step failed on the host"[0]);
    assert !IsSpace("a new action generation was prepared"[0]);
  }

  /** Everything the host may answer, well-formed or not, that is not one of the four envelopes is unobserved. */
  lemma AnythingElseIsUnobserved(data: Json)
    ensures DecodeOutcome(data).Unobserved? <==>
      || !data.JObj?
      || Get(data.fields, "outcome") !in {JStr("completed"), JStr("skipped"), JStr("prepared"), JStr("failed")}
      || (Get(data.fields, "outcome") == JStr("completed")
          && !Get(data.fields, "output_refs").JNull? && !Get(data.fields, "output_refs").JObj?)
    ensures !DecodeOutcome(data).Crashed? && !DecodeOutcome(data).Signalled?
  {
  }
}
