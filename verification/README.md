# A model of the production control plane

The repository produces animated episodes through paid, crash-prone services and lets a human
approve what is delivered and published. Behind that stand several step protocols whose
guarantees must survive a crash between any two durable writes. This project models those
protocols in Dafny and proves their guarantees over every run.

How a protocol is modelled. One module holds the durable state, every single write or external
call as a step, and the invariants: a run is a finite list of states, so a crash is a run that
ends early and a restart is one that goes on. A second module states what holds over whole runs.
A class then performs the operations the way the code does, field by field and write by write;
its ghost field `saves` is the run so far, extended by one step of the model at every write, so
the theorems on runs hold for whatever a crash leaves. What lies outside (providers, the
messenger, the renderer, clocks, files on disk, other processes) is a parameter, and calls to it
are counted in the ghost state. Digests and MACs are taken to be injective and are modelled by
what they are computed from.

| files | subject |
|---|---|
| `job_graph`, `runner_model`, `runner_invariants`, `runner_runs`, `republication`, `lineage`, `successor_graph`, `scheduler_model`, `scheduler_loop`, `scheduler_runs`, `two_gate_runner` | job order, bounded-window scheduler, successors under a budget cap, two human gates, publication |
| `delivery_model`, `delivery`, `gate_lock`, `outbox_worker` | delivery of review artifacts at most once, its cancellation-safe lock, the hosted worker |
| `inbound_journal`, `approval_model`, `approval_runs`, `approval` | the reply journal and authenticated approval |
| `render_model`, `render` | write-ahead protocol of the compiled render |
| `billing_model`, `billing` | status snapshot over two stores |
| `metrics_model`, `metrics_counts`, `metrics`, `metrics_ledger` | deduplicated telemetry and its cached report |
| `words`, `grouping`, `captions`, `lines`, `subtitles` | caption cues and subtitle files |
| `wrappers`, `runs`, `texts`, `sorted_sets`, `artifacts`, `receipts` | shared vocabulary |

Where the code does not do what one would expect, the model follows the code and a lemma says so:

- A finished episode whose approved artifact changes on disk falls back to REJECTED when it is
  resumed, accepts a successor and, once its artifacts verify again, can be published a second
  time (`Republication.SecondPublication`). "Publish once" is proved of every run in which
  approved artifacts stay intact (`Republication.IntactPublishesOnce`), and while an artifact
  stays changed the episode does not get past the scheduler at all
  (`Republication.ChangedNeverFinishes`).
- A job whose dependency was refused can never be completed, not even after a successor of that
  dependency is approved, because dependencies name request ids
  (`RunnerRuns.RefusedDependencyIsFinal`).
- A QA callback that answers nothing for a completed job gets the job launched again, so a job is
  launched once more than the callback was silent about it (`SchedulerRuns.LaunchedPerAttempt`,
  `SchedulerRuns.SilenceRelaunches`). A callback that never answers a job keeps the loop going for
  ever: when nothing refuses, raises or changes, the loop ends if and only if every job is answered
  at some attempt (`SchedulerRuns.EndsIffAnswered`, `SchedulerRuns.SilenceForbidsCompletion`).
- A REJECTED resume returns with tasks in flight exactly when an active job is refused or a pending
  one blocked while other tasks run (`SchedulerRuns.RefusalLeavesTasks`,
  `SchedulerRuns.RefusalOvertakes`); every other end leaves none, because an exception cancels and
  awaits them.
- `add_successors` does not repeat the check of the dependency graph. It accepts successors whose
  dependencies are malformed (`SuccessorGraph.MalformedIsAccepted`), and the next resume then fails
  on the graph after it has saved RUNNING: exactly when what was added is not bound in the grown
  list or is cyclic (`SuccessorGraph.SuccessorOrder`, `SuccessorGraph.SuccessorsOrder`,
  `TwoGate.ResumeAfterSuccessors`).
- A drain can report a delivery as delivered while its row is UNKNOWN
  (`Delivery.ReportMatchesRow`).
- The lock of the inbound service can be left while its release is still running
  (`GateLock.ServiceLockCanExitEarly`), in one case only (`GateLock.ServiceLockExits`).
- The first admitted reply to a delivered message decides for good: a reply with any other text
  than the command makes the approval impossible (`ApprovalRuns.WrongReplyIsFinal`).
- Evidence of a render is created exclusively and then written, so a crash in between leaves a
  torn file that blocks recovery for good (`RenderModel.InterruptedRenderIsFinal`).
- The video is hashed before the Director receipt is written and not again before the state is
  saved, so FINAL_QA can be saved beside other bytes (`RenderModel.FinalQaBesideOtherBytes`); it is
  saved beside the completed video exactly when nothing replaced it in between
  (`RenderModel.FinalQaSawTheVideo`).
- Preparing or binding a request again does not pin its records again, so such a replay can only
  leave its marker (`Billing.BillingSnapshotCoordinator.PrepareAndReserve`,
  `Billing.BillingSnapshotCoordinator.CheckpointProviderBinding`).
- A sentence that fits on one line is printed as it is; an empty line inside it breaks the
  subtitle file (`Subtitles.NarrationRoundTrip`).

Verify everything with `dafny verify dfyconfig.toml`.

## Model

| member | source | states |
|---|---|---|
| JobGraph.OrderExistsIffAcyclic | src/hybrid/autonomous.py:1268-1291 | the layered sort of any closed graph yields an order exactly when no chain of dependencies returns to its start |
| JobGraph.OrderSchedules | src/hybrid/autonomous.py:1276-1291 | an order lists every request id once, each after everything it depends on |
| JobGraph.OrderOfSound | src/hybrid/autonomous.py:1268-1291 | for a job list that passes the id and dependency checks: a returned order is a schedule of the declared dependencies, and the refusal is CYCLE exactly when they have a cycle |
| JobGraph.RefusedBeforeOrdering | src/hybrid/autonomous.py:1255-1274 | a list is refused for repeated ids, and otherwise for dependencies exactly when some job has a dependency entry that is not a list, or lists an unknown job, itself, or one job twice |
| JobGraph.OrderIgnoresSupplyOrder | src/hybrid/autonomous.py:1268-1291 | order and refusal depend on the set of jobs, not on the order they are supplied in |
| JobGraph.DependencyMap | src/hybrid/autonomous.py:1255-1274 | which refusal comes first: repeated ids, then any dependency that is malformed, unknown, repeated or the job itself; otherwise the exact dependency map |
| JobGraph.TakeLayer | src/hybrid/autonomous.py:1279-1289 | one layer: exactly the ready ids in increasing order, and exactly the rest of the graph without them |
| JobGraph.TopologicalOrder | src/hybrid/autonomous.py:1268-1291 | the loop over shrinking layers computes the order, or the refusal, that the theorems above are about |
| JobGraph.GraphAt | src/hybrid/autonomous.py:1255-1266 | the map holds for each job exactly the ids its payload declares |
| RunnerModel.AppendAligned | src/hybrid/autonomous.py:1202-1209 | a new successor keeps jobs and job_specs aligned and request ids distinct |
| RunnerModel.AddSuccessorAligned | src/hybrid/autonomous.py:1159-1210 | whatever branch the successor loop takes, an accepted document stays aligned |
| RunnerInvariants.StartSound | src/hybrid/autonomous.py:1088-1147 | every started document is sound: aligned, within the cap, no verdicts, no gates |
| RunnerInvariants.SuccessorKeepsCore | src/hybrid/autonomous.py:1159-1210 | one accepted successor keeps the budget cap, the verdicts and every earlier job in place |
| RunnerInvariants.SuccessorsKeepCore | src/hybrid/autonomous.py:1149-1218 | the same for a whole list of successors |
| RunnerInvariants.RecordKeepsJudged | src/hybrid/autonomous.py:1532-1588 | recording a verdict once, after its dependencies, disturbs no other verdict |
| RunnerInvariants.SaveSound | src/hybrid/autonomous.py:1020-1028 | every save the runner makes keeps the whole document invariant: budget, alignment, judged dependencies, gate binding, completeness past the scheduler |
| RunnerInvariants.StepKeepsCalls | src/hybrid/autonomous.py:2010-2057 | every step, crash included, keeps the publisher calls bounded by the committed intents |
| RunnerInvariants.StepKeepsInv | src/hybrid/autonomous.py:2010-2057 | both of the above for any step of any process |
| RunnerRuns.HoldsAt | src/hybrid/autonomous.py:1938-2004 | in every document of every run, WAITING_VIDEO_APPROVAL and READY_TO_PUBLISH imply approved gates whose path and hash are those of the staged media, and READY, RUNNING and MEDIA_PENDING have no gates |
| RunnerRuns.VerdictsArePermanent | src/hybrid/autonomous.py:1532-1588 | over any run no job is removed or moved and no recorded verdict is overwritten |
| RunnerRuns.RefusedDependencyIsFinal | src/hybrid/autonomous.py:1486-1515 | once a dependency of a job is refused that job never gets a verdict and the episode never leaves the scheduler states, whatever successors are added |
| RunnerRuns.PublicationIsBounded | src/hybrid/autonomous.py:2010-2057 | over any run with crashes and changes of artifacts anywhere the publisher is called at most once more often than a committed publication was rejected because a check found an approved artifact changed |
| RunnerRuns.PublisherSeesApprovedHashes | src/hybrid/autonomous.py:2022-2047 | every call happens with the intent durable and carries exactly the staged hashes that both gates approved |
| RunnerRuns.InterruptedIntentNeverReplays | src/hybrid/autonomous.py:2018-2021 | an interrupted PUBLISH_INTENT is left only by a failed re-validation, and never by a second call |
| RunnerRuns.ApprovalHappened | src/hybrid/autonomous.py:1938-2004 | a document without gates reaches a gated state only through a fresh human approval of the media now staged |
| RunnerRuns.BothGatesArePassedAgain | src/hybrid/autonomous.py:1211-1218 | after successors are added, READY_TO_PUBLISH needs both gates again, thumbnail before video |
| Republication.IntactPublishesOnce | src/hybrid/autonomous.py:1332-1343 | a run in which approved artifacts verify at every point calls the publisher at most once |
| Republication.SecondCallNeedsChange | src/hybrid/autonomous.py:1332-1343 | a second publisher call proves that at some earlier point a publication was already intended or confirmed and an approved artifact did not verify |
| Republication.FindingHappened | src/hybrid/autonomous.py:1293-1318 | whatever a check found changed was changed at a point of the run under this very document |
| Republication.ChangedNeverFinishes | src/hybrid/autonomous.py:1475-1485 | as long as an approved artifact stays changed the episode never leaves READY, RUNNING and REJECTED, whatever is added, judged or resumed |
| Republication.SecondPublication | src/hybrid/autonomous.py:1332-1343 | from any published episode a run that publishes a second time: an approved artifact changes, a resume rejects the episode, an acceptable successor reopens it, the artifacts are restored, and everything passes again |
| Republication.AcceptSuccessor | src/hybrid/autonomous.py:1149-1218 | an escaped episode whose artifacts verify again can be completed with a single further approval |
| Republication.PassGates | src/hybrid/autonomous.py:1837-2004 | freshly staged media can take the episode to READY_TO_PUBLISH again |
| Lineage.LineageHoldsAt | src/hybrid/autonomous.py:1149-1218 | in every reachable document of an episode started without predecessors each successor has its parent, its scene and the verdict its category requires, and the superseded marks are exactly the edges |
| Lineage.ActiveAreLeaves | src/hybrid/autonomous.py:1205-1209 | the active jobs are exactly those that no job names as predecessor |
| Lineage.ChainReachesRoot | src/hybrid/autonomous.py:1171-1190 | following predecessors from any job ends at a started job of the same scene, each step justified |
| Lineage.AppendKeepsEdges | src/hybrid/autonomous.py:1202-1209 | one appended successor keeps the lineage a forest |
| Lineage.AcceptedSuccessor | src/hybrid/autonomous.py:1159-1210 | exactly which new jobs are accepted as successors, told by the job and the document alone (mode, endpoint, cost, predecessor, scene, and a passed first take for a hero or a refused job for a remediation), and what is then appended and marked |
| SchedulerModel.SomethingLaunches | src/hybrid/autonomous.py:1492-1526 | no deadlock: with nothing in flight and nothing blocked, the first pending job in topological order can be launched |
| SchedulerModel.WindowIsRespected | src/hybrid/autonomous.py:1465-1526 | the number of tasks in flight never exceeds provider plus CPU concurrency |
| SchedulerModel.LaunchesFollowDrops | src/hybrid/autonomous.py:1524-1536 | within one resume a job is launched again only after its task ended without an answer of the QA callback; never twice if the callback always answers |
| SchedulerModel.LaunchNeedsApproval | src/hybrid/autonomous.py:1492-1526 | every launch found all dependencies approved in the document saved last |
| SchedulerModel.VerdictIsIndependent | src/hybrid/autonomous.py:1537-1588 | every recorded approval names an independent subject, issuer and human, whatever the callback returned |
| SchedulerLoop.ReadyIsSafe | src/hybrid/autonomous.py:1492-1526 | every launchable job is unjudged, not in flight, and has all its dependencies approved; some job is launchable when nothing is in flight, something is pending and nothing blocked |
| SchedulerLoop.DropKeepsScheduling | src/hybrid/autonomous.py:1534-1536 | a task without an answer leaves everything as it was before its launch, except that one more attempt is counted |
| SchedulerLoop.RecordKeepsScheduling | src/hybrid/autonomous.py:1532-1588 | recording one completed task keeps the scheduling invariant for all the others |
| SchedulerLoop.SettleAllKeeps | src/hybrid/autonomous.py:1529-1588 | the tasks one wait returned are settled in order, each recorded or dropped, up to the first that raises, which ends the resume with nothing in flight |
| SchedulerLoop.ActiveWereApproved | src/hybrid/autonomous.py:1497-1502 | with every job judged and no active one refused every active one is approved, so the error about reusable verdicts cannot happen |
| SchedulerLoop.ExaminedKeeps | src/hybrid/autonomous.py:1466-1515 | the checks at the top of a turn end the resume for one of the stated reasons, or leave launchable jobs |
| SchedulerLoop.LaunchesFit | src/hybrid/autonomous.py:1516-1526 | a turn that goes on launches exactly the first launchable jobs that fit, and then waits for something: the error about unresolved dependencies cannot happen |
| SchedulerLoop.RefusalWasUnavoidable | src/hybrid/autonomous.py:1486-1515 | a refusal was fixed by the jobs and the outside verdicts before the run began |
| SchedulerLoop.CompletionWasClear | src/hybrid/autonomous.py:1465-1491 | reaching MEDIA_PENDING means that every job could be approved from the start |
| SchedulerLoop.CompletionFixesVerdicts | src/hybrid/autonomous.py:1532-1588 | the verdicts of a finished run do not depend on the order of completions |
| SchedulerRuns.AfterIsGood | src/hybrid/autonomous.py:1465-1598 | after any number of turns the loop waits with everything accounted for, or has ended: in MEDIA_PENDING exactly when every job can be approved, with all approved artifacts found intact by the last look and nothing in flight; in REJECTED by a refusal the document shows; or with an error because an artifact changed or a task raised, with nothing in flight |
| SchedulerRuns.VerdictIsTheAnswer | src/hybrid/autonomous.py:1532-1588 | after any number of turns a job judged by the resume is approved if and only if its first answer was a report on this job and these bytes by someone other than the generator that approves and names a reviewer; the approval holds that hash and those names, a valid refusal its codes, and anything else is a contract violation |
| SchedulerRuns.EndsWhenAnswered | src/hybrid/autonomous.py:1465-1588 | if the callback answers every job at some attempt the loop ends, after at most one turn more than there are attempts to make |
| SchedulerRuns.SilenceForbidsCompletion | src/hybrid/autonomous.py:1534-1536 | a job the callback never answers keeps the resume from completing for any number of turns; only a refusal of another job can end it with a document |
| SchedulerRuns.EndsIffAnswered | src/hybrid/autonomous.py:1465-1588 | when nothing refuses, raises or changes, the loop ends if and only if the callback answers every job at some attempt |
| SchedulerRuns.QuietEndsComplete | src/hybrid/autonomous.py:1465-1491 | such a resume ends only by completing |
| SchedulerRuns.CompletesWhenClear | src/hybrid/autonomous.py:1465-1598 | total correctness: if every job can be approved and artifacts stay intact, the loop ends in MEDIA_PENDING with exactly the outside verdicts, for every window and every order of completions |
| SchedulerRuns.LaunchedPerAttempt | src/hybrid/autonomous.py:1524-1588 | a job that got its verdict was launched once for every silent attempt and once more |
| SchedulerRuns.SilenceRelaunches | src/hybrid/autonomous.py:1534-1536 | a job whose first attempt is silent and whose second is answered is launched exactly twice |
| SchedulerRuns.RefusalLeavesTasks | src/hybrid/autonomous.py:1486-1515 | a resume returns with tasks in flight exactly when an active job is refused or a pending one blocked at the top of a turn while others run; every other end, errors included, leaves none |
| SchedulerRuns.RefusalOvertakes | src/hybrid/autonomous.py:1593-1598 | and it happens: of two launchable jobs that fit the window the first to complete is refused, and the resume returns REJECTED with the other task in flight |
| SuccessorGraph.GrownOrder | src/hybrid/autonomous.py:1255-1291 | a job list with an order, grown by new jobs, has an order exactly when the new jobs are bound in the grown list and acyclic among themselves |
| SuccessorGraph.SuccessorOrder | src/hybrid/autonomous.py:1202-1209 | one new successor keeps the order exactly when its own dependencies are bound |
| SuccessorGraph.SuccessorsOrder | src/hybrid/autonomous.py:1149-1218 | the same for what a whole accepted list of successors adds |
| SuccessorGraph.MalformedIsAccepted | src/hybrid/autonomous.py:1159-1210 | every acceptable successor is as acceptable with a malformed dependency list, and the document then has no order |
| TwoGate.ResumeAfterSuccessors | src/hybrid/autonomous.py:1344-1353 | the resume after accepted successors fails on the job graph exactly when the new jobs are unbound or cyclic |
| TwoGate.TwoGateRunner.Start | src/hybrid/autonomous.py:1088-1147 | start is idempotent for the same packet and jobs, refuses any other, and otherwise saves exactly the started document or nothing |
| TwoGate.TwoGateRunner.AddSuccessorJobs | src/hybrid/autonomous.py:1149-1218 | a failed add leaves the durable document untouched; a successful one saves exactly the appended and invalidated document |
| TwoGate.TwoGateRunner.TrySuccessor | src/hybrid/autonomous.py:1159-1210 | one turn of the loop takes the branch, the checks and the refusals of the specification |
| TwoGate.TwoGateRunner.Resume | src/hybrid/autonomous.py:1320-1598 | the result of resume for every state and any number of watched turns: refusals, re-validation of finished episodes, graph errors exactly when the jobs have no order, and the scheduling loop as specified |
| TwoGate.MatchingJobs | src/hybrid/autonomous.py:1070-1082 | the jobs handed to resume match exactly when they carry no other ids and each job of the document is the last one under its id, unchanged |
| TwoGate.AtMostSixtyFour | src/hybrid/autonomous.py:1461-1526 | with the limits the constructor accepts a resume never has more than 64 tasks in flight |
| TwoGate.TwoGateRunner.Schedule | src/hybrid/autonomous.py:1465-1598 | document, log and result after any number of turns are those of the loop that the theorems of SchedulerRuns are about |
| TwoGate.TwoGateRunner.Examine | src/hybrid/autonomous.py:1466-1515 | the checks at the top of the loop, in the order of the code, end as specified or change nothing |
| TwoGate.TwoGateRunner.ValidatePersistedQa | src/hybrid/autonomous.py:1474-1485 | the look over the approved verdicts passes exactly when every artifact verifies when it is reached, and otherwise names a changed one |
| TwoGate.TwoGateRunner.LaunchReady | src/hybrid/autonomous.py:1516-1523 | exactly the first jobs that fit the window are launched |
| TwoGate.TwoGateRunner.RecordCompleted | src/hybrid/autonomous.py:1529-1588 | the completed tasks are recorded in order, tasks without an answer are dropped, and a raising task ends the resume with the others cancelled |
| TwoGate.TwoGateRunner.Revalidate | src/hybrid/autonomous.py:1332-1343 | a finished episode survives exactly when every approved artifact is intact, else it falls to REJECTED, which throws a committed publication away |
| TwoGate.TwoGateRunner.StageDelivery | src/hybrid/autonomous.py:1837-1909 | staging opens the thumbnail gate only in MEDIA_PENDING, for approved TEST quality evidence and decodable files, with hashes of the files |
| TwoGate.StagingIsGuarded | src/hybrid/autonomous.py:1837-1909 | exactly when media are staged, told by the state, the evidence and the files; which document that leaves, with the hashes of the files; and that evidence which is refused rejects the episode |
| TwoGate.MediaPendingIsComplete | src/hybrid/autonomous.py:1847-1862 | the re-check of all verdicts before staging never fails |
| TwoGate.TwoGateRunner.RecordHumanGate | src/hybrid/autonomous.py:1938-2004 | a decision is recorded exactly for the open gate, the staged path, the unchanged bytes and a named human; anything else changes nothing |
| TwoGate.TwoGateRunner.Publish | src/hybrid/autonomous.py:2010-2057 | the publisher is called once, behind the saved intent, exactly when publication is enabled, the episode is READY_TO_PUBLISH and both staged files are on disk with the staged bytes, whose hashes the package carries; only a bound readback is confirmed |
| TwoGate.RefusalSticks | src/hybrid/autonomous.py:1159-1210 | a refusal part-way through the successors is the refusal of the whole list |
| DeliveryModel.StepKeepsFence | src/delivery/controller.py:157-217 | every single write or call of any process keeps the intent file a fence: one call per slot at most, none before the intent, exactly one behind a receipt |
| DeliveryModel.AtMostOneSend | src/delivery/controller.py:157-217 | over any interleaving of drains, deliveries, cancellations, crashes and restarts each slot is sent at most once, a DELIVERED row has a durable video receipt, and no video goes out before the thumbnail receipt is durable |
| DeliveryModel.RowsSettleOnce | src/approval/delivery_session.py:135-166 | a row keeps its binding for ever and leaves PENDING at most once; a receipt is final |
| Delivery.SecondSendIsSilent | src/delivery/controller.py:167-187 | a send that called the messenger fences every later send of the slot, whatever it wants to send |
| Delivery.RepeatedSend | src/delivery/controller.py:71-93 | a returned receipt is returned again without a call; after a call, recovery works exactly when the messenger had returned a valid message id |
| Delivery.SendReturns | src/delivery/controller.py:71-93 | exactly when a send returns a receipt, which one, and when it calls the messenger, told by the slot, the files and the answers |
| Delivery.ChoiceIsGuarded | src/agents/director.py:2000-2080 | exactly when the Director sends something: a destination, an open gate, the received bytes still in place, and for a video a human approval of the delivered thumbnail; and whether the record is the received or a fresh one |
| Delivery.VideoNeedsApprovedThumbnail | src/agents/director.py:2000-2080 | the Director chooses a video only when the stored human approval is of the very bytes of the delivered thumbnail |
| Delivery.DeliveryDesk.Send | src/delivery/controller.py:157-217 | result, slot and call of one send for every branch, in the order of the code |
| Delivery.DeliveryDesk.PostFresh | src/delivery/controller.py:194-217 | intent, call, receipt, read-back and callback, with what each failure leaves behind |
| Delivery.DeliveryDesk.DeliverForApproval | src/agents/director.py:2000-2080 | exactly the artifact of the open gate is sent, or nothing changes |
| Delivery.DeliveryDesk.EnqueueVideo | src/approval/delivery_session.py:63-80 | idempotent for the same binding, refused for another, and never overwriting a row |
| Delivery.DeliveryDesk.DrainOnce | src/approval/delivery_session.py:86-133 | one drain touches only the least pending episode, settles it on the status that follows from what happened, and reports DELIVERED only behind a durable video receipt |
| Delivery.SettledStatus | src/approval/delivery_session.py:86-133 | BLOCKED exactly for a missing or changed thumbnail or an approval that is not authentic; DELIVERED exactly for an acknowledged, registered video receipt behind an intact thumbnail; UNKNOWN otherwise |
| Delivery.DeliveryDesk.Settle | src/approval/delivery_session.py:107-133 | cancellation, failure, missing registration, a receipt of the wrong kind and a failed acknowledgement all end in UNKNOWN |
| Delivery.DeliveryDesk.DrainAll | src/approval/delivery_session.py:266-276 | the inner loop ends on the set of pending rows; without an exception no row stays PENDING, and settled rows are untouched |
| Delivery.ReportMatchesRow | src/approval/delivery_session.py:124-133 | a drain reports the status of the row except exactly when mark_active_unknown ran during a delivery that was then fully acknowledged |
| GateLock.LockIsBalanced | src/delivery/controller.py:119-155 | however thread and task interleave and whichever waits are cancelled: an exit never leaves the delivery lock held or a release under way, releases equal acquisitions, the body is in progress only under the held lock and undisturbed, and after the grant the exit is a cancellation exactly when one was seen |
| GateLock.EntryFindsFree | src/delivery/controller.py:119-155 | nobody is kept from entering by a previous use |
| GateLock.HoldsAt | src/delivery/controller.py:119-155 | the invariant of thread and task at every reachable state, for both forms of the lock |
| GateLock.ServiceLockExits | src/approval/telegram_service.py:470-498 | the lock of the inbound service can be left while its release still runs, but only by a cancellation, without the body having run, and nobody enters before it is free |
| GateLock.OnlySecondCancellationLeavesRelease | src/approval/telegram_service.py:484-486 | such an exit is a second cancellation, of the single shielded wait after a cancelled acquisition |
| GateLock.ServiceLockCanExitEarly | src/approval/telegram_service.py:470-498 | and there is such a run from every point at which the lock can be entered |
| GateLock.SlotLock.RunLocked | src/delivery/controller.py:119-155 | exit, body and lock of one use for any number and placement of cancellations |
| GateLock.SlotLock.AwaitAcquisition | src/delivery/controller.py:124-134 | the waiting loop lasts until the thread is done and reports a cancellation exactly when there was one |
| GateLock.SlotLock.AwaitRelease | src/delivery/controller.py:144-155 | the same for the release |
| GateLock.SlotLock.Balance | src/approval/telegram_service.py:484-486 | a cancelled acquisition is given back and the cancellation raised again; with one shielded wait a second cancellation leaves early |
| OutboxWorker.MoveLosesNothing | src/approval/delivery_session.py:258-276 | every stretch of the event loop keeps the no-lost-wakeup invariant |
| OutboxWorker.NoLostWakeup | src/approval/delivery_session.py:214-276 | a parked worker with a clear event has no announced row still PENDING, except rows pending when the last round ended by an exception |
| OutboxWorker.DeliveryOutboxWorker.DrainTurn | src/approval/delivery_session.py:266-276 | one turn settles one row, or ends the round idle, to be parked or finished |
| OutboxWorker.DeliveryOutboxWorker.Round | src/approval/delivery_session.py:258-276 | a round with no new rows ends, and without an exception leaves none pending |
| OutboxWorker.DeliveryOutboxWorker.Start | src/approval/delivery_session.py:192-200 | a second start is refused while the worker still owns its run |
| OutboxWorker.DeliveryOutboxWorker.RequestStop | src/approval/delivery_session.py:223-239 | a shutdown asks the worker for one more round and touches no row |
| OutboxWorker.DeliveryOutboxWorker.Wake | src/approval/delivery_session.py:214-217 | a delivered wake announces every row committed before it |
| InboundJournal.ReplyIsAdmitted | src/approval/telegram_inbound.py:178-226 | a text reply of any chat type and with any further fields the shape allows is admitted, with exactly its numbers and text, if and only if its sender and chat are trusted |
| InboundJournal.TopLevelIsClosed | src/approval/telegram_inbound.py:178-226 | a further field at the top level is refused |
| InboundJournal.IngestKeeps | src/approval/telegram_inbound.py:238-294 | ingestion keeps the table constraints and valid MACs and only appends |
| InboundJournal.ClaimKeeps | src/approval/telegram_inbound.py:325-350 | a claim changes one row from unconsumed to consumed, with a valid MAC |
| InboundJournal.IngestIsIdempotent | src/approval/telegram_inbound.py:262-294 | re-ingesting an accepted update changes nothing and is accepted; reusing its number, message or place in the thread is refused |
| InboundJournal.ClaimedOnce | src/approval/telegram_inbound.py:325-367 | a claim succeeds once; afterwards every recovery returns the claimed reply |
| InboundJournal.ClaimIsGenuine | src/approval/telegram_inbound.py:296-350 | a claim succeeds exactly for an unconsumed answer in the configured chat whose numbers, hashes and MAC are those of its own claims; it returns these claims and consumes that row only |
| InboundJournal.RecoveryIsGenuine | src/approval/telegram_inbound.py:296-371 | a recovery returns exactly the claims of such a row that is consumed |
| InboundJournal.ConsumedIsStable | src/approval/telegram_inbound.py:352-371 | a consumed reply is what every later recovery returns |
| InboundJournal.RowForIsStable | src/approval/telegram_inbound.py:121-128 | the row of a delivery is unique and stays the same row |
| InboundJournal.Adapter.IngestWebhook | src/approval/telegram_inbound.py:238-294 | nothing changes without the secret or the closed shape; otherwise the table after ingestion |
| InboundJournal.Adapter.ClaimVerifiedReply | src/approval/telegram_inbound.py:325-350 | the reply claimed and the table after it, for any rows, also ones with a bad MAC |
| InboundJournal.Adapter.ReadConsumedReply | src/approval/telegram_inbound.py:352-367 | only a consumed row with a valid MAC is read |
| InboundJournal.Adapter.RevalidateReply | src/approval/telegram_inbound.py:373-383 | a stored document is confirmed exactly when it is the consumed reply |
| ApprovalModel.CommandsDiffer | src/approval/controller.py:20-25 | no command text approves two gates |
| ApprovalModel.StepKeepsApprovals | src/approval/controller.py:77-116 | every stored approval keeps resting on its delivery and on the consumed reply |
| ApprovalModel.StepKeepsOutcomes | src/approval/telegram_service.py:308-353 | every committed result keeps its approval and, for a thumbnail, its outbox row |
| ApprovalModel.ClaimKeepsGrants | src/approval/telegram_inbound.py:325-350 | a claim never grants a second reply for a delivery |
| ApprovalModel.HoldsAt | src/approval/telegram_service.py:417-440 | the approval invariant holds at every crash point |
| ApprovalRuns.RecordsArePermanent | src/approval/receipts.py:92-104 | receipts, approvals, results and outbox bindings are immutable over every run |
| ApprovalRuns.OneClaimPerDelivery | src/approval/telegram_inbound.py:325-371 | over all runs at most one reply is accepted per delivered message, and recovery always returns it |
| ApprovalRuns.ApprovalSaysSo | src/approval/controller.py:20-116 | at every point of every run a stored approval is of the delivered bytes and rests on a trusted reply to that message with the text APROVAR THUMBNAIL or APROVAR VÍDEO and the number of the episode, by the kind of the artifact |
| ApprovalRuns.OneGatePerReply | src/approval/controller.py:118-137 | one reply never approves two gates |
| ApprovalRuns.OutcomeIsComplete | src/approval/telegram_service.py:308-353 | a result always has its approval, and one of a thumbnail its outbox row, bound to the same hash |
| ApprovalRuns.WrongReplyIsFinal | src/approval/controller.py:77-116 | if the first admitted reply is not the exact command the delivery is never approved |
| ApprovalRuns.QuietStepKeepsCompletable | src/approval/telegram_service.py:417-440 | every single write of every process keeps what a replay needs; only for a thumbnail can the move of the episode past the final gate end it |
| ApprovalRuns.CrashLeavesCompletable | src/approval/telegram_service.py:417-440 | after a crash anywhere a replay can still succeed: always for a video, and for a thumbnail until the episode is past the final gate |
| ApprovalRuns.ReplayConverges | src/approval/telegram_service.py:417-440 | crash convergence: after any steps and crashes a replay ends approved, with receipt, state, result and outbox row, with every receipt durable in between, and with exactly one advance of the gate in all |
| ApprovalRuns.GateAdvancesOnce | src/agents/director.py:2137-2182 | each gate is advanced at most once, and exactly once when the run takes the episode through it |
| Approval.ApprovalService.ConfirmDelivery | src/approval/controller.py:31-116 | a delivery is confirmed exactly when it binds the bytes and chat and either an approval is stored or the journaled reply is the command; an existing receipt is returned unchanged |
| Approval.ApprovalService.ClaimOrRecover | src/approval/controller.py:104-115 | fresh or recovered, the reply has authority exactly when the journaled one is the command |
| Approval.ApprovalService.Revalidate | src/approval/controller.py:77-102 | a stored approval of intact bytes always revalidates |
| Approval.ApprovalService.ConfirmDeliveredArtifact | src/agents/director.py:2137-2182 | the episode advances exactly when its gate is open and the delivery can be confirmed |
| Approval.ApprovalService.PersistOutcome | src/approval/telegram_service.py:308-353 | result and outbox row are written together or not at all |
| Approval.ApprovalService.RevalidateCompleted | src/approval/telegram_service.py:390-415 | the exact condition under which a passed gate is acknowledged again |
| Approval.ApprovalService.ProcessRecord | src/approval/telegram_service.py:417-440 | processing ends approved exactly when it can be completed, from whatever a crash has left, and then receipt, state, result and outbox row are all there; otherwise no result is committed |
| Approval.ApprovalService.HandleWebhook | src/approval/telegram_service.py:442-470 | the same for a whole webhook, for registered deliveries and for those recovered from their durable receipt; the first reply to an intact delivery at an open gate succeeds if and only if its text is the command of that gate, spelled out |
| Approval.CommandDecides | src/approval/telegram_service.py:417-440 | nothing but the text of that reply decides, and success leaves approval, state, result and outbox row of the delivered bytes |
| Approval.ApprovalService.RecoverDelivery | src/approval/telegram_service.py:250-270 | an unregistered reply finds its delivery exactly when a durable receipt with its message in its chat can be registered |
| Approval.ApprovalService.RegisterDelivery | src/approval/telegram_service.py:188-217 | registration succeeds exactly for a receipt of the configured chat whose bytes are intact and whose message is unbound or bound to the same record; it is idempotent and never rebinds a message |
| RenderModel.StepKeepsInv | src/agents/director.py:1265-1419 | every write, crash or replacement of the video keeps the render fence and the binding of the Director receipt |
| RenderModel.RendersOnce | src/agents/director.py:1265-1419 | the renderer runs at most once; FINAL_QA is on disk only beside a whole receipt bound to whole intent and completion |
| RenderModel.FinalQaSawTheVideo | src/agents/director.py:1304-1343 | whenever FINAL_QA is saved the process had found the completed video at its check; at the save the video is the completed one exactly when it still has those bytes, in particular when nothing replaced it in between |
| RenderModel.CheckHappened | src/agents/director.py:1166-1228 | a process on its way to the save made its check at one point of the run, and the completion has not changed since |
| RenderModel.FinalQaBesideOtherBytes | src/agents/director.py:1304-1343 | from every recoverable state a run in which FINAL_QA is saved beside any other bytes, replaced after the check |
| RenderModel.EvidenceIsPermanent | src/agents/director.py:1116-1166 | whole evidence files never change |
| RenderModel.CompletedRenderRecovers | src/agents/director.py:1304-1344 | with the completion durable a later call recovers exactly when the video is intact, the episode is on its way and no crash has torn the receipt; the receipt is then the same one |
| RenderModel.RecoverableMeans | src/agents/director.py:1168-1238 | what a recoverable disk looks like, file by file and field by field |
| RenderModel.InterruptedRenderIsFinal | src/agents/director.py:1345-1352 | a crash before the completion is whole, or inside the write of the receipt, is final for every later call |
| Render.RenderDirectory.RenderLocked | src/agents/director.py:1265-1419 | exactly when a call renders, recovers or fails; it calls itself at most once |
| Render.RenderDirectory.Recover | src/agents/director.py:1304-1344 | recovery succeeds exactly in the recoverable states, and then leaves receipt and FINAL_QA |
| Render.RenderDirectory.CallRenderer | src/agents/director.py:1388-1401 | whatever the renderer leaves or returns, it was called once |
| BillingModel.CurrentIsCoherent | src/hybrid/billing_snapshot.py:148-174 | at every crash point a CURRENT snapshot implies that both stores carry its generation, agree on the remote id and equal its copies |
| BillingModel.SnapshotsAdvance | src/hybrid/billing_snapshot.py:110-116 | generations never fall, and each belongs to one CURRENT snapshot at most |
| BillingModel.PublishedGenerationsIncrease | src/hybrid/billing_snapshot.py:176-246 | published generations strictly increase over operations, crashes and restarts |
| BillingModel.IdentitiesAreFinal | src/hybrid/execution.py:637-706 | endpoint, mode, scope, cap, remote id, settled amount and settlement receipt are final |
| BillingModel.SettlementsHold | src/hybrid/standing_budget.py:405-441 | at every point of every run a stored settlement is for the endpoint, remote request, scope and mode of its claim, and the claim is settled at its amount |
| Billing.BillingSnapshotCoordinator.PrepareAndReserve | src/hybrid/billing_snapshot.py:176-192 | succeeds exactly for a request new to both stores and admitted by both; a replay only leaves its marker |
| Billing.BillingSnapshotCoordinator.CheckpointProviderBinding | src/hybrid/billing_snapshot.py:194-214 | succeeds exactly once; a replay binds both stores but publishes nothing |
| Billing.BillingSnapshotCoordinator.MarkUnknown | src/hybrid/billing_snapshot.py:216-226 | succeeds exactly when the claim is unsettled and both stores agree; it publishes what an interrupted operation left |
| Billing.BillingSnapshotCoordinator.SettleVerifiedReceipt | src/hybrid/billing_snapshot.py:228-246 | succeeds exactly for a canonical receipt of the very endpoint, remote request, scope and mode of job and claim that no other receipt has settled; settles once, accepts the same receipt again, and a receipt that does not fit changes neither claims nor receipts |
| Billing.BillingSnapshotCoordinator.SettleClaim | src/hybrid/standing_budget.py:405-441 | receipt and claim change in one transaction, or not at all |
| Billing.BillingSnapshotCoordinator.PublishCurrent | src/hybrid/billing_snapshot.py:155-174 | CURRENT is published exactly for coherently pinned records |
| Billing.BillingSnapshotCoordinator.Reserve | src/hybrid/standing_budget.py:213-269 | a known claim is returned unchanged and not pinned again |
| Billing.BillingSnapshotCoordinator.PrepareIntent | src/hybrid/execution.py:891-955 | a known intent is returned unchanged and not pinned again |
| MetricsModel.ReportFromRows | src/hybrid/autonomous.py:764-849 | the loop computes the sums and the buckets of every dimension |
| MetricsCounts.ReportCounts | src/hybrid/autonomous.py:764-849 | told by the rows alone: requests, unknown and unauthenticated requests and unknown timestamps are numbers of rows, money, tokens, quota, exposure and times are sums of their own field, and models are those named |
| MetricsCounts.ReportBuckets | src/hybrid/autonomous.py:781-812 | there is a bucket for each episode and each worker of some row, and it counts the rows of its key, each unpaid kind on its own |
| MetricsCounts.ReportMonths | src/hybrid/autonomous.py:787-812 | the same for the months, a key being the year and the two-digit month |
| MetricsCounts.ReportExperiments | src/hybrid/autonomous.py:789-812 | the same for experiments and other work |
| MetricsModel.ReportIgnoresOrder | src/hybrid/autonomous.py:764-849 | the report does not depend on the order of the rows |
| MetricsModel.BucketsConserve | src/hybrid/autonomous.py:781-812 | buckets of a dimension and rows without a key in it add up to all rows, in requests, money and both unpaid counts |
| MetricsModel.TotalsConserve | src/hybrid/autonomous.py:781-812 | episodes, experiments and workers each account for every row |
| MetricsModel.MonthsConserve | src/hybrid/autonomous.py:787-788 | months and unknown timestamps account for every request |
| MetricsModel.NoMoneyIffNoneAuthenticated | src/hybrid/autonomous.py:572-583 | total money is null exactly when every row is UNKNOWN or UNAUTHENTICATED |
| MetricsModel.SumIgnoresOrder | src/hybrid/autonomous.py:764-849 | sums are the same for every order of the rows |
| MetricsModel.BucketsOneMore | src/hybrid/autonomous.py:781-812 | one more row changes its own bucket of each dimension and no other |
| Metrics.ReconcileAppends | src/hybrid/autonomous.py:627-688 | the store is an append-only map: a row is added exactly when neither identity is known, otherwise no row changes |
| Metrics.AcceptedExactly | src/hybrid/autonomous.py:530-590 | exactly which observations are accepted, field by field |
| Metrics.OpaqueIs | src/hybrid/autonomous.py:258-336 | what an opaque identifier is, character by character |
| Metrics.RowHolds | src/hybrid/autonomous.py:590-626 | the row holds the observation, every field in its place; only a model outside the catalog is lost |
| Metrics.ReconcileOutcome | src/hybrid/autonomous.py:634-671 | added, replay or conflict, told by the rows that share an identity and what they say |
| Metrics.ConflictsNoted | src/hybrid/autonomous.py:649-671 | the entries a conflict adds: one for each row with a common identity, under the request id if that is common and under the event id otherwise |
| Metrics.ReplayChangesNothing | src/hybrid/autonomous.py:637-648 | an exact replay is recognised whatever worker and time it carries |
| Metrics.DisjointCommute | src/hybrid/autonomous.py:627-688 | observations with different identities commute in outcome and report |
| Metrics.NotedCommutes | src/hybrid/autonomous.py:649-671 | conflicts of different identities do not disturb each other |
| MetricsLedger.SnapshotIsFold | src/hybrid/autonomous.py:340-351 | at every crash point a CURRENT snapshot is the report over the committed rows, and identities are unique |
| MetricsLedger.RowsAreAppended | src/hybrid/autonomous.py:627-688 | rows and conflicts are only ever appended |
| MetricsLedger.AcceptedIsWellformed | src/hybrid/autonomous.py:530-626 | every accepted observation gives a row the reader can accept |
| MetricsLedger.ReadIsExact | src/hybrid/autonomous.py:474-528 | a reader sees a report exactly when the writer is done and the snapshot is at most five minutes old |
| MetricsLedger.ReadMeans | src/hybrid/autonomous.py:474-528 | the status of any snapshot file at any clock: handed out exactly when at most 300 seconds old and of the closed shapes, a month being a year and a number from 01 to 12 |
| MetricsLedger.ReportIsValid | src/hybrid/autonomous.py:384-472 | the reader never rejects a report that the writer computed |
| MetricsLedger.OperationalMetricsLedger.Reconcile | src/hybrid/autonomous.py:530-688 | outcome and tables for every observation; the snapshot afterwards is the report over the rows |
| MetricsLedger.OperationalMetricsLedger.ReadSnapshot | src/hybrid/autonomous.py:474-528 | the status of the snapshot file at any clock |
| MetricsLedger.OperationalMetricsLedger.NoteConflicts | src/hybrid/autonomous.py:649-671 | every matching row is noted once |
| Grouping.GroupedKeeps | src/agents/captions.py:105-120 | greedy groups are the items in order; each is filled item by item and ends only where the next item did not fit |
| Grouping.GreedyIsUnique | src/agents/captions.py:130-143 | no other grouping has these properties |
| Captions.WordCuesKeepWords | src/agents/captions.py:105-128 | cues of timed words show exactly the narrated words in order; a longer cue is a single timed word; no cue ends while the next word fits |
| Captions.FlushKeeps | src/agents/captions.py:122-128 | a cue shows the words of its group, from the start of the first to the end of the last |
| Captions.BuildCuesFromWords | src/agents/captions.py:105-120 | the loop computes those cues |
| Captions.ChunksKeepWords | src/agents/captions.py:130-143 | chunks hold the words of the text in order; a chunk over the limit is a single word; none ends while the next word fits |
| Captions.SplitText | src/agents/captions.py:130-143 | the loop computes those chunks |
| Captions.WrapKeepsWords | src/agents/captions.py:145-156 | wrapping keeps every word and never lengthens the text |
| Captions.FirstLineIsFull | src/agents/captions.py:145-156 | the first line is within the limit unless it is one word, and ends only where the next word does not fit |
| Captions.WrapBreaks | src/agents/captions.py:145-156 | at most 42 characters stay as they are; a longer text becomes the words that fit on a line of 42 and, after one line break, all others |
| Captions.Wrap | src/agents/captions.py:145-156 | the loop computes that wrapping |
| Captions.WindowsTile | src/agents/captions.py:94-102 | windows of a split sentence are contiguous, cover its window and do not run backwards |
| Captions.SharesAreEqual | src/agents/captions.py:94-102 | each window is an equal share of the sentence, up to the rounding of its ends, and begins where the shares before it end |
| Captions.CuesKeepWords | src/agents/captions.py:82-103 | cues of sentences show exactly their words, in order, and each is readable |
| Captions.BuildCuesFromSentences | src/agents/captions.py:82-103 | the loop computes those cues |
| Captions.RoundedIsExact | src/agents/captions.py:122-128 | rounding to milliseconds twice is rounding once |
| Subtitles.StampRoundTrip | src/agents/captions.py:158-165 | reading a printed timestamp gives the milliseconds back, for every time, negative ones included |
| Subtitles.SrtParts | src/agents/captions.py:167-174 | an SRT file is number, times with a comma, text and empty line of each cue |
| Subtitles.VttParts | src/agents/captions.py:176-182 | a WebVTT file is its heading, then times with a full stop, text and empty line of each cue |
| Subtitles.FileRoundTrip | src/agents/captions.py:167-182 | reading a printed SRT or WebVTT file gives its cues back exactly when no text has an empty line |
| Subtitles.NarrationRoundTrip | src/agents/captions.py:82-103 | the file of any narration reads back as its cues exactly when no sentence short enough for one line contains an empty line |
| Subtitles.ToSrt | src/agents/captions.py:167-174 | the printer writes that file |
| Subtitles.ToVtt | src/agents/captions.py:176-182 | the WebVTT printer writes that file |
| Subtitles.FormatTimestamp | src/agents/captions.py:158-165 | hours, minutes, seconds and milliseconds by rounding down |

## Left out

- Network clients, providers, speech, image and video tools, and their schedules: external effects, present only as parameters.
- The serial resume path (`src/hybrid/autonomous.py:1600-1780`): the same guarantees on a simpler path.
- Run ownership and fencing tokens (`src/hybrid/autonomous.py:989-1008`): each operation is one atomic user of the document.
- What `complete_one` does with executor receipts and ledger claims (`src/hybrid/autonomous.py:1381-1460`): every job ends with a result and a verdict report, with no answer, or with an exception.
- Integrity of the stored document (policy digest and record hash on load): the document read is the document saved.
- `Executor`, `StandingBudgetLedger` and `EpisodeStateStore` beyond the fields the protocols pin; capacity and budget admission are flags of the request.
- SQL, JSON encoding, path resolution, reparse-point guards and fsync: tables are maps, transactions and atomic replacement are single steps.
- Other interleavings inside one class method: a method runs alone on its object; interleaving of processes and tasks is covered by the step relations and the theorems on runs.
- The wake-up callback of the inbound service and its HTTP hosting (`src/approval/telegram_service.py:81-118`, `src/approval/telegram_service.py:523-540`).
- Plan approvals and the final publication authorization (`src/approval/receipts.py:14-41`, `src/approval/receipts.py:129-139`): single checks without a protocol.
- Admission of asynchronous renders and their single flight (`src/agents/director.py:1421-1514`): the file lock alone already gives at most one render.
- The second line of a wrapped caption has no limit in the code, so none is claimed.
- White space is space, tab, carriage return and line feed; Unicode spaces are not modelled.
- Floating point: times are exact reals, money is whole micro-USD; decimal texts of one amount are not told apart.
- TwoGate.TwoGateRunner.Schedule: watches the loop for a given number of turns, because the code's loop has no bound of its own; the theorems of `SchedulerRuns` are about every number of turns. A wait that never reports a task is not modelled: `asyncio.wait` then blocks.
- How tasks still in flight go on after a REJECTED resume has returned: they run outside the document, which they do not write.
- RenderModel.RendersOnce: within a render call only this protocol moves the episode state; other moves of the state between two steps are not modelled.
- MetricsLedger.ReadIsExact: asks for years of four digits, because the padding of shorter years in a month key depends on the platform.
- BillingModel.PublishedGenerationsIncrease: holds while the snapshot file stays readable, because an unreadable one counts as generation 0, and while pinned records change only through the coordinator.
- Lineage.LineageHoldsAt: asks that started jobs name no predecessor, because the start does not check one.
- Subtitles.FileRoundTrip: the parsers read what the printers write; they are not general subtitle readers.
- Billing.BillingSnapshotCoordinator.SettleVerifiedReceipt: the receipt text and the document parsed from it are one value, as their only caller passes them (`src/hybrid/billing_reconciler.py:540-547`).
