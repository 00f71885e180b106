/**
 The second placement: the same engine behind a store whose every operation is an HTTP callback. A
 callback is encoded, applied by a host to its own records, and its answer strictly decoded. The main
 results say that this placement is the first one: each remote run is a direct run in which some answers
 were lost, and inside the documented vocabulary it is the same run.
 */
module Remote {
  import opened Basics
  import opened Model
  import opened Engine
  import opened System
  import opened Wire

  // ---- the client's side: requests ----

  datatype Call =
    | GetRunCall(run: string)
    | GetStepsCall(run: string)
    | GetStepCall(step: string)
    | PostStatus(run: string, body: map<string, Json>)
    | PostState(step: string, body: map<string, Json>)
    | PostEvent(run: string, body: map<string, Json>)
    | GetNextSequence(run: string)
    | GetEvents(run: string, after: int)
    | PostInvoke(run: string, step: string)
    | PostRunEnd(run: string, body: map<string, Json>)

  datatype Response = Body(data: Json) | Missing | Refusal | Silence

  /** An identity that cannot be one URL path segment is refused before any call is made. */
  predicate IsSegment(id: string) {
    id != "" && id != "." && id != ".."
  }

  function RefsJson(refs: Option<Refs>): Json {
    if refs.Some? then JObj(refs.value) else JNull
  }

  /** Presence flags keep "leave unchanged" apart from "clear". */
  function StateBody(to: StepStatus, error: Update<string>, refs: Update<Refs>): map<string, Json> {
    var flags := map["status" := JStr(StepStatusText(to)), "error_set" := JBool(error.Put?),
                     "output_refs_set" := JBool(refs.Put?)];
    var withError := if error.Put? then flags["error" := OptText(error.value)] else flags;
    if refs.Put? then withError["output_refs" := RefsJson(refs.value)] else withError
  }

  /** The body is built in place: flags first, then only the fields that were given. */
  method BuildStateBody(to: StepStatus, error: Update<string>, refs: Update<Refs>) returns (body: map<string, Json>)
    ensures body == StateBody(to, error, refs)
    ensures "error" in body <==> error.Put?
    ensures "output_refs" in body <==> refs.Put?
  {
    body := map["status" := JStr(StepStatusText(to)), "error_set" := JBool(error.Put?),
                "output_refs_set" := JBool(refs.Put?)];
    if error.Put? {
      body := body["error" := OptText(error.value)];
    }
    if refs.Put? {
      body := body["output_refs" := RefsJson(refs.value)];
    }
  }

  function EventBody(nm: Naming, kind: EventKind, step: Option<nat>, payload: Json): map<string, Json> {
    map["type" := JStr(KindText(kind)),
        "step_id" := if step.Some? then JStr(nm.name(step.value)) else JNull,
        "payload" := payload]
  }

  /** The callback an engine request becomes, unless an identity in its path is refused. */
  function CallFor(nm: Naming, req: Request): Option<Call> {
    match req
    case NextSequence => if IsSegment(nm.run) then Some(GetNextSequence(nm.run)) else None
    case GetRun => if IsSegment(nm.run) then Some(GetRunCall(nm.run)) else None
    case GetSteps => if IsSegment(nm.run) then Some(GetStepsCall(nm.run)) else None
    case GetStep(pos) => if IsSegment(nm.name(pos)) then Some(GetStepCall(nm.name(pos))) else None
    case SetRunStatus(status) =>
      if IsSegment(nm.run) then Some(PostStatus(nm.run, map["status" := JStr(RunStatusText(status))])) else None
    case SetStepState(pos, to, error, refs) =>
      if IsSegment(nm.name(pos)) then Some(PostState(nm.name(pos), StateBody(to, error, refs))) else None
    case Append(kind, step, payload) =>
      if IsSegment(nm.run) then Some(PostEvent(nm.run, EventBody(nm, kind, step, payload))) else None
    case EventsAfter(after) => if IsSegment(nm.run) then Some(GetEvents(nm.run, after)) else None
    case Invoke(pos, _) =>
      if IsSegment(nm.run) && IsSegment(nm.name(pos)) then Some(PostInvoke(nm.run, nm.name(pos))) else None
    case RunEnd(status) =>
      if IsSegment(nm.run) then Some(PostRunEnd(nm.run, map["status" := JStr(RunStatusText(status))])) else None
    case Rollback => None
  }

  // ---- the host's side ----

  function TextAt(body: map<string, Json>, key: string): string {
    if Get(body, key).JStr? then Get(body, key).text else ""
  }

  function ErrorUpdate(body: map<string, Json>): Update<string> {
    if Get(body, "error_set") == JBool(true) then
      Put(if Get(body, "error").JStr? then Some(Get(body, "error").text) else None)
    else Leave
  }

  function RefsUpdate(body: map<string, Json>): Update<Refs> {
    if Get(body, "output_refs_set") == JBool(true) then
      Put(if Get(body, "output_refs").JObj? then Some(Get(body, "output_refs").fields) else None)
    else Leave
  }

  function StepNamed(nm: Naming, id: Json): Option<nat> {
    if id.JStr? then nm.find(id.text) else None
  }

  /** A host that applies each callback as documented, on its own records. */
  function HostServe(nm: Naming, w: World, call: Call, absent: bool, outcome: Outcome): (World, Response) {
    match call
    case GetRunCall(_) => (w, if absent then Missing else Body(EncodeRun(nm.run, w.run)))
    case GetStepsCall(_) => (w, Body(JArr(EncodeSteps(nm, w.rows))))
    case GetStepCall(id) =>
      var pos := nm.find(id);
      (w, if absent || pos.None? || pos.value >= |w.rows| then Missing else Body(EncodeStep(id, w.rows[pos.value])))
    case PostStatus(_, body) =>
      var run := w.run.(status := RunStatusOf(TextAt(body, "status")));
      (w.(run := run), Body(EncodeRun(nm.run, run)))
    case PostState(id, body) =>
      var pos := nm.find(id);
      if pos.None? || pos.value >= |w.rows| then (w, Missing)
      else
        var to := StepStatusOf(TextAt(body, "status"));
        var rows := SetState(w.rows, pos.value, to, ErrorUpdate(body), RefsUpdate(body));
        (w.(rows := rows), Body(EncodeStep(id, rows[pos.value])))
    case PostEvent(_, body) =>
      var kind, step := KindOf(TextAt(body, "type")), StepNamed(nm, Get(body, "step_id"));
      (AddToLog(w, kind, step, Get(body, "payload")),
       Body(EncodeEvent(nm, Event(w.nextSeq, kind, step, Get(body, "payload")))))
    case GetNextSequence(_) => (w, Body(JObj(map["next_sequence" := JInt(w.nextSeq)])))
    case GetEvents(_, after) => (w, Body(JArr(EncodeEvents(nm, EventsPast(w.log, after)))))
    case PostInvoke(_, _) =>
      var envelope := Envelope(outcome);
      (w, if envelope.Some? then Body(envelope.value) else Silence)
    case PostRunEnd(_, _) => (w, Body(JNull))
  }

  // ---- the client's side: answers ----

  function RunReply(response: Response): Reply {
    if response.Body? && DecodeRun(response.data).Ok? then RunRow(Some(DecodeRun(response.data).value)) else Broken
  }

  function StepReply(response: Response): Reply {
    if response.Body? && DecodeStep(response.data).Ok? then StepRow(Some(DecodeStep(response.data).value)) else Broken
  }

  function NumberReply(response: Response): Reply {
    if response.Body? && response.data.JObj? then
      var value := Get(response.data.fields, "next_sequence");
      if value.JInt? && value.number >= 0 then Number(value.number) else Broken
    else Broken
  }

  /**
   Strict decoding of what came back. A failed call is a broken callback, except that an unobserved
   invocation is an outcome of its own and a failed run-end hook is swallowed.
   */
  function Receive(nm: Naming, req: Request, response: Response): Reply {
    match req
    case GetRun => if response.Missing? then RunRow(None) else RunReply(response)
    case SetRunStatus(_) => RunReply(response)
    case GetStep(_) => if response.Missing? then StepRow(None) else StepReply(response)
    case SetStepState(_, _, _, _) => StepReply(response)
    case GetSteps =>
      if response.Body? && response.data.JArr? && DecodeSteps(response.data.items).Ok? then
        StepRows(DecodeSteps(response.data.items).value)
      else Broken
    case NextSequence => NumberReply(response)
    case Append(_, _, _) =>
      if response.Body? && DecodeEvent(nm, response.data).Ok? then Appended(DecodeEvent(nm, response.data).value)
      else Broken
    case EventsAfter(_) =>
      if response.Body? && response.data.JArr? && DecodeEvents(nm, response.data.items).Ok? then
        Batch(DecodeEvents(nm, response.data.items).value)
      else Broken
    case Invoke(_, _) => Answered(if response.Body? then DecodeOutcome(response.data) else Unobserved)
    case RunEnd(_) => Ack
    case Rollback => Ack
  }

  /** One callback of the remote placement. Rolling back is local: the host's own request already did. */
  function RemotePerform(nm: Naming, w: World, req: Request, answer: Answer, outcome: Outcome): (World, Reply) {
    var call := CallFor(nm, req);
    if req.Rollback? then (w, Ack)
    else if call.None? then (w, Receive(nm, req, Silence))
    else if answer.Refused? then (w, Receive(nm, req, Refusal))
    else
      var (w', response) := HostServe(nm, w, call.value, answer.Absent?, outcome);
      (w', Receive(nm, req, if answer.Lost? then Silence else response))
  }

  // ---- the refinement, one callback ----

  /** The records the host would answer with are inside the documented vocabulary. */
  ghost predicate AnswersOnWire(nm: Naming, w: World, req: Request, absent: bool) {
    match req
    case NextSequence => w.nextSeq >= 0
    case GetRun => absent || RunOnWire(nm.run, w.run)
    case GetSteps => AllOnWire(nm, w.rows)
    case GetStep(pos) => absent || pos >= |w.rows| || StepOnWire(nm.name(pos), w.rows[pos].step)
    case SetRunStatus(status) => RunOnWire(nm.run, w.run.(status := status))
    case SetStepState(pos, to, _, _) => pos >= |w.rows| || StepOnWire(nm.name(pos), w.rows[pos].step.(status := to))
    case _ => true
  }

  /** The answer of a direct store that the remote placement's answer amounts to. */
  ghost function Direct(nm: Naming, w: World, req: Request, answer: Answer): Answer {
    if req.Rollback? || req.RunEnd? then Served
    else if CallFor(nm, req).None? || answer.Refused? then Refused
    else if answer.Lost? || !AnswersOnWire(nm, w, req, answer.Absent?) then Lost
    else answer
  }

  function Observed(nm: Naming, req: Request, answer: Answer, outcome: Outcome): Outcome {
    if !req.Invoke? then outcome
    else if CallFor(nm, req).None? || answer.Refused? || answer.Lost? then Unobserved
    else Across(outcome)
  }

  // ---- what is sent, and what is accepted back ----

  /** A state write names the status, flags what it replaces, and carries exactly what it flags. */
  lemma StateBodySays(to: StepStatus, error: Update<string>, refs: Update<Refs>)
    ensures var body := StateBody(to, error, refs);
      && body.Keys == {"status", "error_set", "output_refs_set"}
                      + (if error.Put? then {"error"} else {}) + (if refs.Put? then {"output_refs"} else {})
      && (if to.Unrecognized? then body["status"] == JStr(to.text) else StepStatusNamed(to, body["status"]))
      && body["error_set"] == JBool(error.Put?) && body["output_refs_set"] == JBool(refs.Put?)
      && (error.Put? ==> body["error"] == if error.value.Some? then JStr(error.value.value) else JNull)
      && (refs.Put? ==> body["output_refs"] == if refs.value.Some? then JObj(refs.value.value) else JNull)
  {
  }

  lemma EventBodySays(nm: Naming, kind: EventKind, step: Option<nat>, payload: Json)
    ensures var body := EventBody(nm, kind, step, payload);
      && body.Keys == {"type", "step_id", "payload"}
      && EventNamed(kind, body["type"]) && body["payload"] == payload
      && body["step_id"] == (if step.Some? then JStr(nm.name(step.value)) else JNull)
  {
  }

  /** Each callback goes to the run or the step it is for, and to no place an unsafe identity could reach. */
  lemma CallsSay(nm: Naming, req: Request)
    ensures CallFor(nm, req).Some? <==>
      match req
      case Rollback => false
      case GetStep(pos) => nm.name(pos) !in {"", ".", ".."}
      case SetStepState(pos, _, _, _) => nm.name(pos) !in {"", ".", ".."}
      case Invoke(pos, _) => nm.run !in {"", ".", ".."} && nm.name(pos) !in {"", ".", ".."}
      case _ => nm.run !in {"", ".", ".."}
    ensures CallFor(nm, req).Some? ==>
      match (req, CallFor(nm, req).value)
      case (SetRunStatus(status), PostStatus(run, body)) =>
        && run == nm.run && body.Keys == {"status"}
        && (if status.RunOther? then body["status"] == JStr(status.text) else RunStatusNamed(status, body["status"]))
      case (RunEnd(status), PostRunEnd(run, body)) =>
        && run == nm.run && body.Keys == {"status"}
        && (if status.RunOther? then body["status"] == JStr(status.text) else RunStatusNamed(status, body["status"]))
      case (SetStepState(pos, to, error, refs), PostState(step, body)) =>
        step == nm.name(pos) && body == StateBody(to, error, refs)
      case (Append(kind, step, payload), PostEvent(run, body)) =>
        run == nm.run && body == EventBody(nm, kind, step, payload)
      case (Invoke(pos, _), PostInvoke(run, step)) => run == nm.run && step == nm.name(pos)
      case (GetStep(pos), GetStepCall(step)) => step == nm.name(pos)
      case (EventsAfter(after), GetEvents(run, from)) => run == nm.run && from == after
      case (GetRun, GetRunCall(run)) => run == nm.run
      case (GetSteps, GetStepsCall(run)) => run == nm.run
      case (NextSequence, GetNextSequence(run)) => run == nm.run
      case _ => false
  {
  }

  /** Whatever comes back, it is an answer exactly when it is of the shape the callback needs. */
  lemma AnswersAccepted(nm: Naming, req: Request, response: Response)
    ensures Fits(req, Receive(nm, req, response)) <==>
      match req
      case NextSequence =>
        && response.Body? && response.data.JObj?
        && Get(response.data.fields, "next_sequence").JInt? && Get(response.data.fields, "next_sequence").number >= 0
      case GetRun => response.Missing? || (response.Body? && DecodeRun(response.data).Ok?)
      case SetRunStatus(_) => response.Body? && DecodeRun(response.data).Ok?
      case GetStep(_) => response.Missing? || (response.Body? && DecodeStep(response.data).Ok?)
      case SetStepState(_, _, _, _) => response.Body? && DecodeStep(response.data).Ok?
      case GetSteps =>
        && response.Body? && response.data.JArr?
        && forall k :: 0 <= k < |response.data.items| ==> DecodeStep(response.data.items[k]).Ok?
      case EventsAfter(_) =>
        && response.Body? && response.data.JArr?
        && forall k :: 0 <= k < |response.data.items| ==> DecodeEvent(nm, response.data.items[k]).Ok?
      case Append(_, _, _) => response.Body? && DecodeEvent(nm, response.data).Ok?
      case Invoke(_, _) => true
      case RunEnd(_) => true
      case Rollback => true
  {
    if response.Body? && response.data.JArr? {
      StepsAccepted(response.data.items);
      EventsAccepted(nm, response.data.items);
    }
  }

  lemma StateBodyCrossing(to: StepStatus, error: Update<string>, refs: Update<Refs>)
    ensures var body := StateBody(to, error, refs);
            StepStatusOf(TextAt(body, "status")) == to && ErrorUpdate(body) == error && RefsUpdate(body) == refs
  {
    StepStatusRoundTrip(to, "");
  }

  lemma EventBodyCrossing(nm: Naming, kind: EventKind, step: Option<nat>, payload: Json)
    requires Sound(nm)
    ensures var body := EventBody(nm, kind, step, payload);
            && KindOf(TextAt(body, "type")) == kind && StepNamed(nm, Get(body, "step_id")) == step
            && Get(body, "payload") == payload
  {
    KindRoundTrip(kind, "");
  }

  lemma ListCrossing(nm: Naming, w: World, req: Request, answer: Answer, outcome: Outcome)
    requires Sound(nm) && (req.GetSteps? || req.EventsAfter?)
    ensures RemotePerform(nm, w, req, answer, outcome)
            == Perform(w, req, Direct(nm, w, req, answer), Observed(nm, req, answer, outcome))
  {
    if req.GetSteps? {
      StepsCrossing(nm, w.rows);
    } else {
      EventsCrossing(nm, EventsPast(w.log, req.after));
    }
  }

  lemma RunCrosses(nm: Naming, w: World, answer: Answer, outcome: Outcome)
    requires Sound(nm)
    ensures RemotePerform(nm, w, GetRun, answer, outcome) == Perform(w, GetRun, Direct(nm, w, GetRun, answer), outcome)
  {
    RunCrossing(nm.run, w.run);
  }

  lemma StepCrosses(nm: Naming, w: World, pos: nat, answer: Answer, outcome: Outcome)
    requires Sound(nm)
    ensures var req := GetStep(pos);
            RemotePerform(nm, w, req, answer, outcome) == Perform(w, req, Direct(nm, w, req, answer), outcome)
  {
    if pos < |w.rows| {
      StepCrossing(nm.name(pos), w.rows[pos]);
    }
  }

  lemma StatusCrossing(nm: Naming, w: World, status: RunStatus, answer: Answer, outcome: Outcome)
    requires Sound(nm)
    ensures var req := SetRunStatus(status);
            RemotePerform(nm, w, req, answer, outcome) == Perform(w, req, Direct(nm, w, req, answer), outcome)
  {
    RunStatusRoundTrip(status, "");
    RunCrossing(nm.run, w.run.(status := status));
  }

  lemma StateCrossing(nm: Naming, w: World, pos: nat, to: StepStatus, error: Update<string>, refs: Update<Refs>,
                      answer: Answer, outcome: Outcome)
    requires Sound(nm)
    ensures var req := SetStepState(pos, to, error, refs);
            RemotePerform(nm, w, req, answer, outcome) == Perform(w, req, Direct(nm, w, req, answer), outcome)
  {
    StateBodyCrossing(to, error, refs);
    if pos < |w.rows| {
      StepCrossing(nm.name(pos), SetState(w.rows, pos, to, error, refs)[pos]);
    }
  }

  lemma AppendCrossing(nm: Naming, w: World, kind: EventKind, step: Option<nat>, payload: Json,
                       answer: Answer, outcome: Outcome)
    requires Sound(nm)
    ensures var req := Append(kind, step, payload);
            RemotePerform(nm, w, req, answer, outcome) == Perform(w, req, Direct(nm, w, req, answer), outcome)
  {
    EventBodyCrossing(nm, kind, step, payload);
    EventCrossing(nm, Event(w.nextSeq, kind, step, payload));
  }

  /**
   Every remote callback, on any records, is a direct one: what the host applies is the same, and what
   comes back is the same or nothing.
   */
  lemma RemoteIsDirect(nm: Naming, w: World, req: Request, answer: Answer, outcome: Outcome)
    requires Sound(nm)
    ensures RemotePerform(nm, w, req, answer, outcome)
            == Perform(w, req, Direct(nm, w, req, answer), Observed(nm, req, answer, outcome))
  {
    match req
    case SetRunStatus(status) => StatusCrossing(nm, w, status, answer, outcome);
    case SetStepState(pos, to, error, refs) => StateCrossing(nm, w, pos, to, error, refs, answer, outcome);
    case Append(kind, step, payload) => AppendCrossing(nm, w, kind, step, payload, answer, outcome);
    case Invoke(_, _) =>
    case RunEnd(_) =>
    case Rollback =>
    case GetSteps => ListCrossing(nm, w, req, answer, outcome);
    case EventsAfter(_) => ListCrossing(nm, w, req, answer, outcome);
    case GetRun => RunCrosses(nm, w, answer, outcome);
    case GetStep(pos) => StepCrosses(nm, w, pos, answer, outcome);
    case NextSequence =>
  }

  // ---- the refinement, whole runs ----

  /** The system with the engine in the service: the same engine, behind remote callbacks. */
  function RemoteNext(cfg: Config, nm: Naming, s: State, i: Input): State {
    if i.Serve? && !s.e.pc.Resting? then
      var req := Ask(s.e);
      var (w', reply) := RemotePerform(nm, s.w, req, i.answer, i.outcome);
      State(w', Resume(cfg, s.e, reply, i.clock),
            s.trace + [Called(req, reply, req.Invoke? || req.RunEnd? || req.Rollback?
                                          || (CallFor(nm, req).Some? && !i.answer.Refused?))],
            if s.e.pc.AskSequence? then |s.w.log| else s.mark)
    else Next(cfg, s, i)
  }

  function RemoteAll(cfg: Config, nm: Naming, s: State, ins: seq<Input>): State
    decreases |ins|
  {
    if |ins| == 0 then s else RemoteAll(cfg, nm, RemoteNext(cfg, nm, s, ins[0]), ins[1..])
  }

  ghost function DirectInput(nm: Naming, s: State, i: Input): Input {
    if i.Serve? && !s.e.pc.Resting? then
      Serve(Direct(nm, s.w, Ask(s.e), i.answer), Observed(nm, Ask(s.e), i.answer, i.outcome), i.clock)
    else i
  }

  ghost function DirectInputs(cfg: Config, nm: Naming, s: State, ins: seq<Input>): seq<Input>
    decreases |ins|
  {
    if |ins| == 0 then []
    else [DirectInput(nm, s, ins[0])] + DirectInputs(cfg, nm, RemoteNext(cfg, nm, s, ins[0]), ins[1..])
  }

  lemma RemoteStep(cfg: Config, nm: Naming, s: State, i: Input)
    requires Sound(nm)
    ensures RemoteNext(cfg, nm, s, i) == Next(cfg, s, DirectInput(nm, s, i))
  {
    if i.Serve? && !s.e.pc.Resting? {
      RemoteIsDirect(nm, s.w, Ask(s.e), i.answer, i.outcome);
    }
  }

  /**
   One engine, two placements. Every run of the remote placement, over any records, any host moves and
   any losses, is a run of the direct one, state for state, so whatever is proved of direct runs holds of
   it; where the answers differ, the direct store lost them.
   */
  lemma {:induction false} RemoteRunIsDirectRun(cfg: Config, nm: Naming, s: State, ins: seq<Input>)
    requires Sound(nm)
    ensures RemoteAll(cfg, nm, s, ins) == RunAll(cfg, s, DirectInputs(cfg, nm, s, ins))
    ensures |DirectInputs(cfg, nm, s, ins)| == |ins|
    decreases |ins|
  {
    if |ins| > 0 {
      RemoteStep(cfg, nm, s, ins[0]);
      var next := RemoteNext(cfg, nm, s, ins[0]);
      RemoteRunIsDirectRun(cfg, nm, next, ins[1..]);
      assert DirectInputs(cfg, nm, s, ins)[1..] == DirectInputs(cfg, nm, next, ins[1..]);
    }
  }

  // ---- inside the vocabulary nothing is lost ----

  ghost predicate InVocabulary(nm: Naming, w: World) {
    && RunOnWire(nm.run, w.run) && AllOnWire(nm, w.rows) && w.nextSeq >= 0
  }

  ghost predicate Addressable(nm: Naming) {
    IsSegment(nm.run) && forall pos: nat :: IsSegment(nm.name(pos))
  }

  /** The host keeps its records in the vocabulary, and its handlers' outcomes have a wire form. */
  predicate WireInput(nm: Naming, s: State, i: Input) {
    match i
    case Begin => true
    case Move(m) =>
      && (m.PutRun? ==> RunOnWire(nm.run, m.run))
      && (m.PutStep? ==> !m.status.Unrecognized?)
      && (m.AddStep? ==> m.added.kind != "" && !m.added.status.Unrecognized?)
    case Serve(answer, outcome, _) =>
      !s.e.pc.Resting? ==>
        && (Ask(s.e).Invoke? ==> !answer.Refused? && !answer.Lost? && Speaking(outcome))
        && (Ask(s.e).RunEnd? || Ask(s.e).Rollback? ==> answer.Served?)
  }

  predicate WireAlong(cfg: Config, nm: Naming, s: State, ins: seq<Input>)
    decreases |ins|
  {
    |ins| == 0 || (WireInput(nm, s, ins[0]) && WireAlong(cfg, nm, Next(cfg, s, ins[0]), ins[1..]))
  }

  /** The engine writes only recognised statuses. */
  predicate Recognised(pc: Pc) {
    (pc.Write? || pc.Log?) ==> !pc.t.to.Unrecognized?
  }

  lemma DecideRecognised(cfg: Config, view: Run, steps: seq<Step>, elapsed: real)
    ensures Recognised(Decide(cfg.cat, view, steps, elapsed))
  {
  }

  lemma ResumeRecognised(cfg: Config, e: Engine, reply: Reply, clock: real)
    requires !e.pc.Resting? && Recognised(e.pc)
    ensures Recognised(Resume(cfg, e, reply, clock).pc)
    ensures Ask(e).SetStepState? ==> !Ask(e).to.Unrecognized?
    ensures Ask(e).SetRunStatus? ==> RunStatusText(Ask(e).status) != ""
  {
    if e.pc.ReadSteps? && reply.StepRows? {
      DecideRecognised(cfg, View(e.held, e.pc.current), reply.steps, clock - e.started);
    }
  }

  lemma VocabularyAnswers(nm: Naming, w: World, req: Request, absent: bool)
    requires InVocabulary(nm, w)
    requires req.SetStepState? ==> !req.to.Unrecognized?
    requires req.SetRunStatus? ==> RunStatusText(req.status) != ""
    ensures AnswersOnWire(nm, w, req, absent)
  {
  }

  lemma PerformKeepsVocabulary(nm: Naming, w: World, req: Request, answer: Answer, outcome: Outcome)
    requires InVocabulary(nm, w)
    requires req.SetStepState? ==> !req.to.Unrecognized?
    requires req.SetRunStatus? ==> RunStatusText(req.status) != ""
    ensures InVocabulary(nm, Perform(w, req, answer, outcome).0)
  {
  }

  lemma MoveKeepsVocabulary(nm: Naming, w: World, m: HostMove)
    requires InVocabulary(nm, w) && Addressable(nm)
    requires m.PutRun? ==> RunOnWire(nm.run, m.run)
    requires m.PutStep? ==> !m.status.Unrecognized?
    requires m.AddStep? ==> m.added.kind != "" && !m.added.status.Unrecognized?
    ensures InVocabulary(nm, Apply(w, m))
  {
  }

  lemma WireStep(cfg: Config, nm: Naming, s: State, i: Input)
    requires InVocabulary(nm, s.w) && Addressable(nm) && Recognised(s.e.pc) && WireInput(nm, s, i)
    ensures DirectInput(nm, s, i) == i
    ensures InVocabulary(nm, Next(cfg, s, i).w) && Recognised(Next(cfg, s, i).e.pc)
  {
    match i
    case Move(m) => MoveKeepsVocabulary(nm, s.w, m);
    case Begin =>
    case Serve(answer, outcome, clock) =>
      if !s.e.pc.Resting? {
        ResumeRecognised(cfg, s.e, Perform(s.w, Ask(s.e), answer, outcome).1, clock);
        VocabularyAnswers(nm, s.w, Ask(s.e), answer.Absent?);
        PerformKeepsVocabulary(nm, s.w, Ask(s.e), answer, outcome);
        if Ask(s.e).Invoke? {
          OutcomeCrossing(outcome);
        }
      }
  }

  /** With records and outcomes in the vocabulary the two placements are the same run: steps, status, log and stream. */
  lemma {:induction false} TwoPlacementsAgree(cfg: Config, nm: Naming, s: State, ins: seq<Input>)
    requires Sound(nm) && Addressable(nm)
    requires InVocabulary(nm, s.w) && Recognised(s.e.pc) && WireAlong(cfg, nm, s, ins)
    ensures RemoteAll(cfg, nm, s, ins) == RunAll(cfg, s, ins)
    decreases |ins|
  {
    if |ins| > 0 {
      WireStep(cfg, nm, s, ins[0]);
      RemoteStep(cfg, nm, s, ins[0]);
      TwoPlacementsAgree(cfg, nm, Next(cfg, s, ins[0]), ins[1..]);
    }
  }

  /** In process a crash is rolled back, and the step then fails with the error. */
  lemma CrashInProcess(cfg: Config, s: State, message: string, c0: real, c1: real)
    requires s.e.pc.Call?
    ensures var t := Next(cfg, Next(cfg, s, Serve(Served, Crashed(message), c0)), Serve(Served, Finished(None), c1));
            t.w == s.w && t.e == s.e.(pc := Write(FailStep(s.e.pc.pos, s.e.pc.step.kind, message)))
  {
    assert Next(cfg, s, Serve(Served, Crashed(message), c0)).e
           == s.e.(pc := UndoHost(s.e.pc.pos, s.e.pc.step.kind, message));
  }

  lemma FailureReported(cfg: Config, s: State, message: string, c0: real)
    requires s.e.pc.Call?
    ensures var t := Next(cfg, s, Serve(Served, Erred(message), c0));
            t.w == s.w && t.e == s.e.(pc := Write(FailStep(s.e.pc.pos, s.e.pc.step.kind, message)))
  {
  }

  lemma CrashArrives(nm: Naming, s: State, message: string, c0: real)
    requires s.e.pc.Call? && !Blank(message) && Addressable(nm)
    ensures DirectInput(nm, s, Serve(Served, Crashed(message), c0)) == Serve(Served, Erred(message), c0)
  {
    OutcomeCrossing(Erred(message));
    assert Across(Crashed(message)) == Across(Erred(message));
  }

  lemma CrashOverTheWire(cfg: Config, nm: Naming, s: State, message: string, c0: real)
    requires s.e.pc.Call? && !Blank(message) && Sound(nm) && Addressable(nm)
    ensures var t := RemoteNext(cfg, nm, s, Serve(Served, Crashed(message), c0));
            t.w == s.w && t.e == s.e.(pc := Write(FailStep(s.e.pc.pos, s.e.pc.step.kind, message)))
  {
    RemoteStep(cfg, nm, s, Serve(Served, Crashed(message), c0));
    CrashArrives(nm, s, message, c0);
    FailureReported(cfg, s, message, c0);
  }

  /**
   A tool that crashes on the host is the one outcome with another path: in process the engine rolls
   back and fails the step, over the wire the host rolls back and reports a failure. Both lead to the
   same records and the same control state.
   */
  lemma CrashIsFailure(cfg: Config, nm: Naming, s: State, message: string, c0: real, c1: real)
    requires s.e.pc.Call? && !Blank(message) && Sound(nm) && Addressable(nm)
    ensures var crashed := Next(cfg, s, Serve(Served, Crashed(message), c0));
            var direct := Next(cfg, crashed, Serve(Served, Finished(None), c1));
            var remote := RemoteNext(cfg, nm, s, Serve(Served, Crashed(message), c0));
            direct.w == remote.w && direct.e == remote.e
  {
    CrashInProcess(cfg, s, message, c0, c1);
    CrashOverTheWire(cfg, nm, s, message, c0);
  }

  // ---- the remote registry ----

  /** Every step type dispatches to the host; a type listed twice is a wiring error. */
  method BuildRemoteRegistry(kinds: seq<string>) returns (registry: Result<set<string>>)
    ensures registry.Ok? <==> forall j, k :: 0 <= j < k < |kinds| ==> kinds[j] != kinds[k]
    ensures registry.Ok? ==> registry.value == set kind | kind in kinds
  {
    var registered: set<string> := {};
    var i := 0;
    while i < |kinds|
      invariant 0 <= i <= |kinds|
      invariant registered == set kind | kind in kinds[..i]
      invariant forall j, k :: 0 <= j < k < i ==> kinds[j] != kinds[k]
    {
      if kinds[i] in registered {
        ghost var j :| 0 <= j < i && kinds[j] == kinds[i];
        return Bad;
      }
      assert kinds[..i + 1] == kinds[..i] + [kinds[i]];
      assert forall j :: 0 <= j < i ==> kinds[..i][j] in registered;
      registered := registered + {kinds[i]};
      i := i + 1;
    }
    assert kinds[..i] == kinds;
    registry := Ok(registered);
  }
}
