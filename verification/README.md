# A verified model of the SlimX-Agent run engine

SlimX-Agent drives a plan, a list of steps, against a host that owns all records. This project models
the drive loop, its gate policies, its two placements (in the host's process and behind HTTP callbacks),
the thread bridge that streams a drive to an observer, the capped reader of check output, and the repair and
validation of plans. It proves properties of whole runs: of every sequence of drives, host actions,
lost answers and stops, not of single branches.

How the parts fit together:

- `Basics`, `Policies`, `Model`: values, the two gate policies over arbitrary type tables, run and step records,
  events, and the callbacks an engine makes.
- `Engine`: the drive loop as an automaton that asks its host one callback at a time. `System`: that automaton with
  an adversarial host. Between any two callbacks, and while a handler or the end hook runs, the host may replace
  the run's settings and status, set step states, append steps and append events; it may refuse a callback or lose
  its answer. A run is a finite sequence of inputs, so a statement about every input sequence covers every
  interleaving, any number of drives, and a process that stops anywhere. Host obligations are predicates on inputs
  (`AppendOnly`, `KeepsEnded`, `HandsOff`, `KeepsPolicy`, `KeepsSpent`, `CalmInput`, ...), named where a theorem needs one.
- `Store`, `Driver`: the same loop as the repository writes it, a `while` loop over a mutable store object with a
  cursor. Each method is proved to follow the automaton step by step, so every theorem about `System` runs is
  a theorem about `ExecuteRunEvents` and `ExecuteRun`.
- `Script`: what a drive asks of its host, written down from its history alone: after each reading of the run's steps,
  the callbacks in their order, with every status, event and payload in full, and the exit the drive leaves by. The
  automaton never departs from it. `Records`, `Boundaries`: what that means for approvals, step events and rows, and
  where a drive goes no further.
- `Stream`, `Replay`, `Completion`, `Endings`, `Outcomes`, `Gates`, `GateStop`, `Flight`, `Order`, `Approvals`,
  `Entries`, `Budget`, `Exhausted`, `Failures`, `Reopened`, `Notified`, `Halts`, `Termination`, `Permission`, `Limits`:
  invariants over all runs, and where the code falls short of its texts the exact condition.
- `Scenes`, `Moments`, `Losses`, `Tight`: drives in which callbacks are answered up to some point, and the runs built
  from them: overwritten cancels, records that one refused callback leaves apart, and a drive of the greatest length.
- `Calm`, `CalmRun`, `Relations`: with a deterministic handler, a run is a chain of passes over the step rows alone;
  the engine refines that chain under any pauses and budget changes, and two runs can be compared.
- `Wire`, `Remote`: JSON shapes, strict decoding, and the refinement of the direct placement by the remote one.
- `Bridge`, `Reader`, `Planning`, `Grants`: the remaining components.

Verify with `dafny verify dfyconfig.toml`, adding `--resource-limit 8000000 --verification-time-limit 0`.

Where the code and its own texts disagree, the model follows the code:

- `README.md:103-106` says that a step failure is reported once per run, across drives. The look-up at
  `slimx_agent/engine.py:335` reads the events past sequence 0, so a report numbered 0 is not seen, and
  `docs/service-contract.md:99` lets a host number its first event 0. `Reopened.NumberedFromZero` is a run with two
  reports; `Reopened.ReportedOnceExactly` is the exact condition on the records a run starts with.
- `README.md:99-102` says that a terminal status is written exactly when its event is appended and the hook called.
  The branch at `slimx_agent/engine.py:155-156` writes `failed` alone (`Reopened.QuietFailureExists`), and a callback
  that fails between the three leaves them apart: after a refused `agent.run.completed` a run is completed without its
  event and stays so (`Losses.CompletionIsLost`). `Completion.CompletionPairing` says for every exit what has been
  done and exactly which exits pair.
- `README.md:99-106` has the hook called once for a failure. When the status write after the report fails, later drives
  find the report and stay quiet, so the hook is never called (`Notified.HookIsLost`); `Notified.HookedExactly` is the
  exact condition.
- `slimx_agent/contracts.py:235-239` says that a run can be replayed from its events. A step event that is refused after
  its state write is not appended later, and a later drive may complete the run over it (`Losses.RecordIsLost`).
  `Replay.LogReplaysToStatus` says exactly how far behind the log may be.
- The comment at `slimx_agent/engine.py:135-136` calls termination structural. A handler that keeps preparing
  an ungated generation keeps a drive going (`Limits.DriveMayGoOn`, `Limits.BusyWorldExists`); what bounds a drive
  is what its host may still add (`Termination.DriveEnds`).
- The comment at `slimx_agent/engine.py:249-250` wants a cancel honoured instead of overwritten. It is honoured where
  the run is read; a pause or cancel that lands where the drive is heading for a status write of its own is
  overwritten. `Halts.HaltKeptExactly` says exactly when, at every control state; `Moments` has a run for the start
  (`CancelAtTheStart`), the budget stop (`CancelAtTheBudget`), the gate stop (`CancelAtTheGate`), a failing handler
  (`CancelDuringHandler`) and completion after the final read (`CancelAtCompletion`).
- `slimx_agent/planning.py:136-137` says that data whose `steps` are no list comes back unchanged; the code below it
  replaces them by an empty list.
- `README.md:109-110` takes `completed` to mean that every step is done. A step appended after the last reading is missed
  (`Limits.LateStepIsMissed`, and from the first callback on `Moments.StepAfterFinalRead`);
  `Order.CompletedMeansAllDone` is the exact condition.

## Model

| member | source | states |
|---|---|---|
| `Driver.ExecuteRun` | slimx_agent/engine.py:87-103 | the drained drive, then the run as the store has it or the given one when it has none; the store ends in the state the automaton reaches from the given records over the part of the script that happened, and a raise is the drive's or that last read's |
| `Driver.Drive.ExecuteRunEvents` | slimx_agent/engine.py:106-259 | however the drive ends, store, stream and exit are the automaton's; on return it has yielded everything appended since it began |
| `Driver.Drive.Begin` | slimx_agent/engine.py:118-130 | takes the starting cursor, leaves an ended run alone, marks the run running, drains, and starts the clock after that |
| `Driver.Drive.Drain` | slimx_agent/engine.py:120-124 | yields the drained events in order and leaves the cursor at the last one; a last drain brings the stream level with the log |
| `Driver.Drive.OnePass` | slimx_agent/engine.py:137-141 | a pause or cancel found at the start of a pass ends the drive; otherwise the pass goes on with the run just read |
| `Driver.Drive.TakeStep` | slimx_agent/engine.py:142-145 | the pass takes the first unfinished step of a fresh reading, or the drive goes on to completion |
| `Driver.Drive.NextStep` | slimx_agent/engine.py:143 | the scan finds the first step that is neither completed nor skipped |
| `Driver.Drive.Pass` | slimx_agent/engine.py:146-193 | status vocabulary, earlier failure, permission and budget are applied in the automaton's order before the approval gate |
| `Driver.Drive.EndFailed` | slimx_agent/engine.py:150-160 | an already failed step fails the run, with event and hook only if the log does not hold the report |
| `Driver.Drive.RunFailureReported` | slimx_agent/engine.py:325-336 | the scan decides whether the log holds the failure report of this step |
| `Driver.Drive.BudgetExhaustedReason` | slimx_agent/engine.py:339-358 | counting executed steps and reading the clock gives the budget decision, steps before clock |
| `Driver.Drive.PauseForBudget` | slimx_agent/engine.py:186-193 | budget event, paused status, pause event, then the last drain |
| `Driver.Drive.PassGate` | slimx_agent/engine.py:199-235 | a pending step is parked or started, a waiting one released or left, as the approval decision says |
| `Driver.Drive.GateForApproval` | slimx_agent/engine.py:387-395 | parks the step and records its title and the gate's reason, when there is one |
| `Driver.Drive.GrantApproval` | slimx_agent/engine.py:226-235 | the clearing approval is written and recorded before the start |
| `Driver.Drive.RunStep` | slimx_agent/engine.py:262-309 | a started step ends the way its status afterwards says: next pass, failed run, or review boundary |
| `Driver.Drive.Conclude` | slimx_agent/engine.py:280-309 | each handler outcome leads to its transition, a re-read, or the end of the drive |
| `Driver.Drive.CompleteStep` | slimx_agent/engine.py:300-309 | completion clears the error and stores the references, an empty object as none |
| `Driver.Drive.FailStep` | slimx_agent/engine.py:398-408 | the failure is written with its message and recorded |
| `Driver.Drive.SkipStep` | slimx_agent/engine.py:411-421 | the skip clears the error and is recorded with its reason |
| `Driver.Drive.FailRun` | slimx_agent/engine.py:312-322 | terminal event, failed status, hook, in that order |
| `Driver.Drive.RunAndFollow` | slimx_agent/engine.py:237-247 | a step left waiting ends the drive, a failed one fails the run, any other goes on |
| `Driver.Drive.Complete` | slimx_agent/engine.py:249-259 | a pause or cancel found at the final read is honoured; otherwise the run is completed |
| `Store.RunStore.SetStepState` | slimx_agent/store.py:118-136 | the write lands on the step's row, keeps its type, and returns the new row, unless refused or its answer lost |
| `Store.RunStore.SetRunStatus` | slimx_agent/store.py:116 | the run's status is written and the automaton moves on, unless refused or its answer lost |
| `Store.RunStore.AppendEvent` | slimx_agent/store.py:144-152 | the event gets the next number and the log grows by it |
| `Store.RunStore.DrainedEvents` | slimx_agent/store.py:156-159 | the events past a number in order; the last drain of a drive leaves nothing of the log unseen |
| `Store.RunStore.Await` | slimx_agent/store.py:104-114 | whatever the host does before it answers, steps keep their places and types |
| `Model.FirstUnfinished` | slimx_agent/engine.py:143 | the result is the least position whose step is neither completed nor skipped |
| `Script.EngineKeepsToScript` | slimx_agent/engine.py:106-259 | over any drives and any host, what a drive has asked since it began or last read the steps is how the script of that history begins; a drive in progress asks the script's next callback; a drive that rests has asked all of it and left by the script's exit, unless a callback failed. The script spells out every status, event, payload and exit, the budget's clock included |
| `Records.ApprovalIsRecorded` | slimx_agent/engine.py:220-235 | before every handler call, since the steps were last read, exactly these callbacks were applied: for a step that was awaiting, or pending and flagged or hard-gated, the approved state and its event with its own fields, and then in any case the running state and its event |
| `Records.EveryStepEventSays` | slimx_agent/engine.py:387-421 | every event of a step is of the step whose turn it was and carries its type with the handler's references, error or reason, its title with the gate's reason, or the approval's grounds |
| `Records.EveryCallbackIsScripted` | slimx_agent/engine.py:132-259 | every callback of every run is the script's next, after callbacks that all were applied and answered |
| `Records.RowsHoldTheLastWrites` | slimx_agent/store.py:118-136 | a step's row holds the error, references and status of the last write that said anything of each, and its own type and title |
| `Boundaries.EndedRunIsLeftAlone` | slimx_agent/engine.py:126-127 | of a completed, failed or cancelled run a drive asks for the sequence number and nothing else, and returns |
| `Boundaries.OtherRunIsMarked` | slimx_agent/engine.py:128 | of any other run the next callback marks it running |
| `Boundaries.ReviewEndsTheDrive` | slimx_agent/engine.py:239-243 | once a re-read shows the step awaiting, the drive only drains, and returns at the review boundary |
| `Boundaries.OtherReadsGoOn` | slimx_agent/engine.py:237-247 | any other status leads, after a drain, to the next read of the run, or to the report of a failed one |
| `Stream.StreamEqualsLog` | slimx_agent/engine.py:118-129 | at every moment the yielded events are a gap-free piece of the log in sequence order; on every return they are all of it from the drive's start |
| `Stream.EventsPastIsSuffix` | slimx_agent/store.py:156-159 | a drain answers the exact suffix of the log past the cursor |
| `Limits.RaisingStreamIsShort` | slimx_agent/engine.py:237-238 | a drive that raises without an observed outcome has not yielded everything appended |
| `Replay.LogReplaysToStatus` | slimx_agent/contracts.py:235-239 | over any drives and failed callbacks, folding the log from the initial status gives the stored step status exactly when the step's latest applied write has its event, and lags it by that one write otherwise; every exit does when no drive follows a failure in the middle of a transition of the step |
| `Replay.LogReplaysToAppended` | slimx_agent/contracts.py:235-239 | the same for a step appended at any moment of any history, from the status it was appended with |
| `Losses.RecordIsLost` | slimx_agent/engine.py:411-421 | from any run whose one remaining step waits and is not permitted, a history with one refused callback that returns completed, the step skipped, and the log replaying to its old status |
| `Completion.CompletionPairing` | slimx_agent/engine.py:150-160 | for every exit of every drive, failed callbacks included, how many terminal events, terminal status writes and hook calls there were, and that they pair if and only if the exit is one that pairs |
| `Losses.CompletionIsLost` | slimx_agent/engine.py:255-259 | from any run whose plan is finished, a drive with one refused callback after which it is completed without event or hook call, over every later history without a host move |
| `Completion.HaltIsHonoured` | slimx_agent/engine.py:138-141 | once a read shows a pause or cancel the drive only drains: no handler call, event, hook or terminal status, before it or after |
| `Halts.HaltKeptExactly` | slimx_agent/engine.py:137-259 | a pause or cancel that lands at any moment of any drive, whatever callbacks fail later, is overwritten if and only if the drive heads for a status write, or its coming decision does, or the step it dispatches fails, and no callback fails before that write |
| `Halts.HaltDuringStep` | slimx_agent/engine.py:244-247 | in closed form while a handler runs: the halting status is still there at the end if and only if the step does not fail |
| `Halts.HaltAtTheGate` | slimx_agent/engine.py:214-219 | in closed form once the pass has decided to stop for review: the status ends as awaiting_approval |
| `Moments.CancelAtCompletion` | slimx_agent/engine.py:251-255 | a drive from its first callback in which a cancel after the final read becomes completed |
| `Moments.CancelAtTheStart` | slimx_agent/engine.py:126-128 | one in which a cancel before the run is marked becomes running and the run is driven on |
| `Moments.CancelAtTheBudget` | slimx_agent/engine.py:187-191 | one in which a cancel after the budget event becomes paused |
| `Moments.CancelAtTheGate` | slimx_agent/engine.py:214-219 | one in which a cancel during the gate stop becomes awaiting_approval |
| `Moments.CancelDuringHandler` | slimx_agent/engine.py:244-247 | one in which a cancel during a handler that reports an error becomes failed |
| `Endings.EndingIsRecorded` | slimx_agent/engine.py:138-259 | a returning drive has last written exactly its ending's status and appended exactly its ending's run events in order |
| `Outcomes.EveryWriteIsJustified` | slimx_agent/engine.py:9-13 | every step state ever written is backed by what the same pass saw: the handler's own answer, a missing grant or handler, or the gate's decision, with its exact error and references |
| `Outcomes.ParkedForReview` | slimx_agent/engine.py:207-216 | a step is parked for approval only when it was pending, first, and not allowed to run unreviewed |
| `Outcomes.DecideSees` | slimx_agent/engine.py:161-235 | what a pass decides before any handler call is justified by the run and steps it read |
| `Gates.EveryCallIsCleared` | slimx_agent/engine.py:161-235 | every handler call is for the first unfinished step its pass read, in a recognised unfailed status, permitted by the fresh grants, within the step budget and not held for review |
| `Gates.CallsKeepToStoredSettings` | slimx_agent/policies.py:234-267 | in every run, told from stored values alone: a called step's grant is listed, and one that was pending or awaiting may run unreviewed under the fresh policy, flag and pre-approvals |
| `Gates.StopsUnlessUnreviewed` | slimx_agent/engine.py:361-384 | the approval decision stops a step exactly when policy, tier, flag and pre-approvals do not let it run unreviewed |
| `Gates.BudgetStopsExactly` | slimx_agent/engine.py:161-193 | a pass stops for the budget exactly when its permitted, unfailed first unfinished step finds the step or wall budget spent |
| `Gates.DecideClears` | slimx_agent/engine.py:143-235 | a pass heads for a dispatch only through all the gates |
| `Permission.AdvertisedPlanIsNeverSkipped` | slimx_agent/planning.py:191-206 | with unchanged grants, over any drives and any handlers, a plan of advertised types is never refused for permission, and every skip is on that step's own handler's word in the same pass |
| `Permission.AdvertisedExactly` | slimx_agent/planning.py:191-206 | advertised are exactly the allowed types that are not withheld and miss no grant |
| `Permission.AdvertisedGrow` | slimx_agent/planning.py:198-206 | they stay in the order of the allowed types |
| `Permission.AdvertisedStepTypes` | slimx_agent/planning.py:198-206 | the loop builds that list, in the order of the allowed types |
| `Order.CallsFollowPlanOrder` | slimx_agent/engine.py:132-145 | when a handler is called every earlier step is done, and call positions never go back |
| `Order.CompletedMeansAllDone` | README.md:109-110 | a run being completed has every step done exactly when the steps appended after the last reading are |
| `Order.AppendedStepsJoin` | slimx_agent/engine.py:132-135 | steps that handlers append join the same drive: completion finds every step done |
| `Limits.LateStepIsMissed` | slimx_agent/engine.py:249-255 | a step appended after the final read leaves a completed run with an unfinished step |
| `Moments.StepAfterFinalRead` | slimx_agent/engine.py:249-255 | a whole drive in which a step appended after the final read is missed |
| `Approvals.DispatchesNeedApprovals` | slimx_agent/policies.py:227-231 | for a hard-gated type that cannot be pre-approved the engine never writes approved, and first entries never outnumber host approvals |
| `Approvals.AppendedNeedApprovals` | slimx_agent/policies.py:227-231 | the same for a step appended at any moment of any history, counted from then on |
| `Approvals.GatedNeedsApproval` | slimx_agent/policies.py:234-251 | such a step passes the gates only when its stored status is approved |
| `Entries.EntriesNeedClaims` | slimx_agent/store.py:128-136 | whatever the host does, each handler entry has its own applied request for running |
| `Entries.OneEntryPerParking` | slimx_agent/store.py:128-136 | with a host that refuses running for a step it has seen entered since its last re-park, entries of a step never exceed one plus its re-parks, over all drives, lost answers and stops |
| `Entries.GrantedEveryTime` | slimx_agent/store.py:128-136 | a host that grants running every time has the handler of a step left running entered once by every drive |
| `Budget.ExecutedWithinBudget` | slimx_agent/engine.py:339-352 | over all drives completed and failed steps never exceed the larger of the budget and the initial count |
| `Budget.ExecutedUpdate` | slimx_agent/engine.py:350 | a state write changes the executed count by exactly what it does to one step |
| `Exhausted.SpentRunOnlySkips` | slimx_agent/engine.py:161-193 | with the budget spent and the grants kept, over any drives, lost callbacks, wall budgets, policy changes and appended steps, no handler is called and the rows are the plan with the unpermitted steps up to some place skipped; a budget pause stands at the first permitted one, and completion has passed over all it last read |
| `Exhausted.SpentDecision` | slimx_agent/engine.py:161-193 | a spent run's next decision, at any clock, is a skip of the next unpermitted step, the budget stop at the first permitted one, or completion |
| `Failures.OneFailureReport` | slimx_agent/engine.py:150-160 | over drives and re-openings, from records in which reports are sure to be seen, the failure is reported and its hook called at most once, and exactly once when a drive ends the run as failed |
| `Failures.ReportedRunIsSettled` | slimx_agent/engine.py:150-160 | after a report the run stands at one failed step whose report the look-up sees |
| `Failures.RedriveLeavesRecords` | README.md:103-106 | later drives of such a run write no step, append no event and call neither handler nor hook |
| `Notified.HookedExactly` | slimx_agent/engine.py:312-322 | over drives and re-openings, whenever no drive is in progress, the hook has been called with failed exactly once if and only if the first callback after the report was an answered write of the failed status, and otherwise not at all |
| `Notified.HookIsLost` | slimx_agent/engine.py:150-160 | from any run at an unreported failure, a drive with one refused callback after which the report stands and no history of drives and re-openings calls the hook |
| `Failures.VisibleAboveZero` | slimx_agent/engine.py:333-336 | the look-up sees a step's report exactly when the log holds one numbered above zero |
| `Reopened.ReportedOnlyIfNew` | README.md:99-106 | a drive that fails a run standing at a failed step writes the status once, and event and hook if and only if the log held no report of it numbered above zero |
| `Reopened.ReportedOnceExactly` | README.md:103-106 | a failure is reported at most once in every history of drives and re-openings if and only if the first event is numbered above zero, or a failed step stands behind steps that are done or reported in view |
| `Reopened.NumberedFromZero` | docs/service-contract.md:99 | a run numbered from zero in which two drives around one re-opening report the same failure twice |
| `Reopened.QuietFailureExists` | slimx_agent/engine.py:155-156 | a drive that writes the terminal status and appends no terminal event |
| `Termination.DriveEnds` | slimx_agent/engine.py:132-145 | from U unfinished steps, with at most A appended steps and P prepared generations, at most U + A + P + 1 passes, and the drive has ended after a bounded number of callbacks |
| `Termination.StepDescends` | slimx_agent/engine.py:237-247 | each callback lowers the measure of passes and callbacks left |
| `Tight.BoundIsExact` | slimx_agent/engine.py:132-145 | for every U, A and P some drive makes exactly U + A + P + 1 passes, if and only if U + A is positive or P is zero |
| `Limits.DriveMayGoOn` | slimx_agent/engine.py:135-136 | with a handler that prepares an ungated generation each time, a drive may make any number of passes |
| `Limits.BusyWorldExists` | slimx_agent/engine.py:135-136 | one automatic step under auto_complete is such a world |
| `CalmRun.EngineFollowsChain` | slimx_agent/engine.py:106-259 | under any pauses, re-openings and budget changes the rows and handler calls are those of the chain of passes |
| `Relations.StopAndResumeIsInvisible` | slimx_agent/engine.py:118-143 | a history cut by pauses and tighter budgets makes the same calls in the same order, ends with the same rows and for the same reason as one uninterrupted drive |
| `Relations.AutoCompleteGoesFurthest` | slimx_agent/policies.py:248-257 | of any two histories from the same rows, one under any policy and one under auto_complete, in progress or ended, one's calls are a prefix of the other's; an ended auto_complete run is never behind, and a run that ends without a review stop is the auto_complete run |
| `Calm.BeatUnderAuto` | slimx_agent/engine.py:199-235 | a pass that does not stop for review does the same under auto_complete |
| `GateStop.GateStopIsFixed` | slimx_agent/engine.py:207-219 | after any history, with any handlers, driving a run stopped at its gate again with nothing changed calls nothing, appends nothing, writes no step, and every drive that returns stops there again |
| `Calm.GateIsFixed` | slimx_agent/engine.py:207-219 | a step parked at its gate is one at which the next pass stops |
| `Wire.RunAccepted` | slimx_agent/http_store.py:41-54 | any JSON is a run exactly when it is an object whose id and status are non-empty strings, and whose policy, switch, lists and budgets are each of their type or null or missing |
| `Wire.RunRead` | slimx_agent/http_store.py:158-190 | an accepted run says what its fields say: a missing or null switch is off, and each status has its own text |
| `Wire.StepAccepted` | slimx_agent/http_store.py:68-82 | any JSON is a step exactly when it is an object with a non-empty id and type, one of the seven statuses, a string or null title and a boolean or null flag |
| `Wire.StepRead` | slimx_agent/http_store.py:68-82 | an accepted step says what its fields say: a missing title is empty and a missing flag is off |
| `Wire.StepsAccepted` | slimx_agent/http_store.py:103-104 | a list is accepted exactly when each of its items is, and arrives item by item |
| `Wire.EventRead` | slimx_agent/host_client.py:420-425 | an event is accepted exactly when it is an object with an integer sequence, and says what its fields say |
| `Wire.OutcomeRead` | slimx_agent/http_tools.py:43-72 | each envelope gives its own outcome, with the host's references or visible message, or else the stock message |
| `Wire.RunCrossing` | slimx_agent/http_store.py:41-54 | a run snapshot decodes to itself exactly when it is in the documented vocabulary, and is refused otherwise |
| `Wire.StepCrossing` | slimx_agent/http_store.py:68-82 | likewise a step snapshot; an unrecognised status is refused |
| `Wire.StepsCrossing` | slimx_agent/http_store.py:103-104 | one step outside the vocabulary refuses the whole list, otherwise the list arrives in order |
| `Wire.EventsCrossing` | slimx_agent/host_client.py:349-353 | events arrive as they are stored, in order |
| `Wire.OutcomeCrossing` | slimx_agent/http_tools.py:43-72 | an outcome arrives unchanged exactly when it has a wire form with a visible message, and never becomes another kind of end |
| `Wire.AnythingElseIsUnobserved` | slimx_agent/http_tools.py:15-20 | exactly the answers outside the four envelopes are unobserved outcomes |
| `Remote.BuildStateBody` | slimx_agent/host_client.py:306-316 | the body is built with presence flags, and carries a field only when it was given |
| `Remote.StateBodySays` | slimx_agent/host_client.py:298-318 | a state write names its status, flags what it replaces, and carries exactly what it flags, null to clear |
| `Remote.EventBodySays` | slimx_agent/host_client.py:320-337 | an event's body is its type, its step's identity or null, and its payload |
| `Remote.CallsSay` | slimx_agent/host_client.py:278-380 | each callback goes to its run's or step's own path with its own body, and is made exactly when no identity in the path is empty or made of dots |
| `Remote.AnswersAccepted` | slimx_agent/host_client.py:339-353 | whatever comes back, it is an answer exactly when it has the shape its callback needs |
| `Remote.StateBodyCrossing` | slimx_agent/host_client.py:298-318 | leave, clear and set arrive as leave, clear and set |
| `Remote.RemoteIsDirect` | slimx_agent/http_store.py:99-151 | on any records a remote callback applies what a direct one applies, and answers the same or nothing |
| `Remote.RemoteRunIsDirectRun` | README.md:47-54 | every remote run is, state for state, a direct run in which some answers were lost |
| `Remote.TwoPlacementsAgree` | README.md:47-54 | with records and outcomes in the vocabulary the two placements are the same run: steps, status, log and stream |
| `Remote.CrashIsFailure` | slimx_agent/http_store.py:127-129 | a tool crash, rolled back in process or by the host, leads to the same records and control state |
| `Remote.BuildRemoteRegistry` | slimx_agent/http_tools.py:75-82 | the registry holds exactly the listed types, and building it fails exactly on a duplicate |
| `Bridge.DeliveredInOrder` | slimx_agent/service.py:397-440 | in every interleaving the observer has a prefix of the items in order; the end marker follows all of them, at most once |
| `Bridge.WorkerAlwaysDrains` | slimx_agent/service.py:419-426 | the worker drains the generator to its end, whatever the observer and the event loop do |
| `Bridge.StayingObserverGetsAll` | slimx_agent/service.py:429-440 | an observer that stays has every item and the end once the pipe is empty |
| `Bridge.StayingObserverFinishes` | slimx_agent/service.py:429-440 | an observer that stays has every item and the end after any schedule with three worker steps, one callback and one turn for each entry, stage after stage, whatever is mixed in |
| `Bridge.LiveBridge.Play` | slimx_agent/service.py:407-440 | the mutable queue, flag and callbacks follow the state machine under any schedule |
| `Bridge.NothingAfterTheEnd` | slimx_agent/service.py:403-417 | once the observer has left or the loop has closed nothing more is delivered; after a departure the worker sends at most the entry it was sending, after a close none |
| `Bridge.KeepAlivesChangeNothing` | slimx_agent/service.py:430-435 | a wait that times out sends one keep-alive and changes nothing of the delivery |
| `Reader.ReadBounded` | slimx_agent/service.py:471-491 | the loop retains the first cap bytes of what it reads, a prefix of just that length, flags truncation exactly when there were more, and times out exactly when the deadline comes first |
| `Reader.ReadsToTheStop` | slimx_agent/service.py:473-491 | read is what comes before the first deadline or end, joined, and the loop times out exactly when that is a deadline |
| `Reader.BoundariesDoNotMatter` | slimx_agent/service.py:473-491 | two readings that come to the same bytes and stop alike, by the end or by the deadline, retain the same and give the same flags, whatever the chunks and waits |
| `Reader.BytewiseReadsTheSame` | slimx_agent/service.py:473-491 | any reading equals the reading of its single bytes without waits, deadline included |
| `Reader.ChunkingDoesNotMatter` | slimx_agent/service.py:487-491 | a child that writes the same output in other chunks is read the same |
| `Reader.OutputOfChunks` | slimx_agent/service.py:484-491 | what is read of a child that closes its output is what its chunks join to |
| `Planning.RepairPlanData` | slimx_agent/planning.py:133-179 | the loops build the repaired plan |
| `Planning.RepairIsIdempotent` | slimx_agent/planning.py:133-179 | repairing twice is repairing once, for all JSON |
| `Planning.RepairKeepsAllowlisted` | slimx_agent/planning.py:158-178 | repair keeps exactly the allowlisted object steps, in order, without truncation |
| `Planning.RepairTouchesOnly` | slimx_agent/planning.py:140-142 | only a step's title and instruction may change |
| `Planning.RepairedTitle` | slimx_agent/planning.py:172-177 | a missing or string title comes out visible |
| `Planning.RepairedInstruction` | slimx_agent/planning.py:166-171 | a blank instruction is the first of description, prompt, task and details that says something; any other stays |
| `Planning.TitleComesFrom` | slimx_agent/planning.py:172-177 | a visible title stays; a missing one is the name, and with nothing to say the first sixty characters of the instruction or the step's number |
| `Planning.StepAccepted` | slimx_agent/planning.py:79-108 | any JSON is a plan step exactly when it is an object whose fields hold what the schema lets them, of an allowed type, with a visible instruction where that is the prompt |
| `Planning.StepSays` | slimx_agent/planning.py:79-88 | an accepted step says what its fields say; what is missing is empty, and no approval flag is off |
| `Planning.PlanAccepted` | slimx_agent/planning.py:111-122 | any JSON is a plan exactly when it has one to twelve acceptable steps and its assumptions are strings, and it arrives step by step |
| `Planning.RepairPreservesAcceptance` | slimx_agent/planning.py:90-122 | accepted data stays accepted, with the same types, params, references and approval flags |
| `Planning.AcceptedPlanIsSound` | slimx_agent/planning.py:90-122 | an accepted plan has one to twelve steps of allowed types, each prompted one with a visible instruction |
| `Planning.LongPlansStayRefused` | slimx_agent/planning.py:137-139 | a plan with too many allowlisted steps is refused after repair too |
| `Grants.NormalizeGrants` | slimx_agent/policies.py:408-424 | the loop keeps known keys once each, in order; none stays none |
| `Grants.KnownGrantsMembers` | slimx_agent/policies.py:408-424 | exactly the grantable keys the client named, white space aside |
| `Grants.KnownGrantsGrow` | slimx_agent/policies.py:408-424 | keys stay in the order of their first appearance: a longer list only adds at the end |
| `Grants.NormalizingTwice` | slimx_agent/policies.py:408-424 | normalising a normalised list changes nothing |

## Left out

- Texts: skip and budget reasons and the shortened handler error are short stand-ins or the message itself, since no branch reads them; gate reasons come from the tables, and the quoting of an unknown type in its reason is plain.
- Step and run ids: a step is its position, which an append-only list never changes; only the HTTP placement names steps by id.
- Live ORM objects: the run a drive was given is a value, so a host whose rows change under the engine's hands is modelled by its next read.
- The per-type tier, grant and label tables: theorems hold for every table; the shipped ones are finite facts.
- `commit=False`: every store write is one atomic host step.
- Clock: readings are arbitrary numbers, not required to increase; the wall budget is left out of `Calm` and what builds on it.
- A generator that its consumer closes early: the script ending there has the same effect, and all prefix properties hold.
- Handlers with prepared generations in the two-run theorems: `NeverPrepares` excludes them, as a prepared action depends on the host.
- Host identities on the wire: quoting is not modelled beyond refusing empty and dot-only segments; a name finds its own step.
- The `HttpRunStore` and `HostClient` objects: they hold no run state of their own, so a callback is a function on the host's records.
- Request headers, profiles, lease fields, TLS, timeouts, status-code details, HTTP routes and token checks: plumbing around one callback.
- Processes, signals, `waitid` and process groups around the byte loop; the wait for the group leader after the output closes.
- Event loop internals: a callback runs, a queue read succeeds or times out, the loop closes, each as one atomic step.
- Pydantic: only the plan schema's own fields and its lenient boolean; error messages are one `Bad`.
- Planner and self-check prompts, planner schema dataclasses, registry typing, the host protocols in runtime.py: no hard property.
