# Resource controller: a verified model

The controller leases exclusive devices (GPUs, mostly) to jobs. Workers register the devices of their host, take jobs, report on them and send heartbeats; the controller queues, schedules, sweeps, quarantines and recovers. This project models that machinery in Dafny and proves what it promises.

How it is laid out:

- `Model`, `Transactions`, `Queue`: the tables as maps of rows, and what each transaction leaves behind, row by row. `Selector` is the device selector language, `Ordering` the ordered listing of a set.
- `Tables` (with the bookkeeping of its loops in `Steps`): a class that holds the tables in fields and follows the store statement by statement and loop by loop. Every method is proved to be the transaction it stands for, `Perform` carries out any event, and `Serve` any run on a fresh store, so the theorems about runs are theorems about this class.
- `Invariant`, `Effects`, `Ownership`, `Runs`: the invariant, what every transaction keeps, and runs, that is, any interleaving of the transactions with any arguments.
- `Scheduling`, `Submissions`: the operations that are not one transaction, with other transactions before each of their accesses; `Interleaving`: each of them is a run all the same.
- `Outcomes`, `Verdicts`: what each event achieves, in rows and literal seconds, beside what it must not do.
- `Occupancy`, `Handover`, `Kills`, `Deadlines`, `Sweeping`, `Recoveries`, `Scheduling`, `Collision`: the theorems about the controller.
- `Hooks`, `Relay`, `Probes`: the worker's hook ownership, the terminal relay, and the probe labels, each as a state machine (or function) together with the code that implements it.

The unique index on live leases is not assumed anywhere; that no device has two live leases is proved from the transactions alone.

A run may contain every event the controller reacts to, at any time and in any order, and each theorem names what it assumes of the run: usually nothing, or that the clock does not go back (`Clocked`), or that no host registers under a name with a colon in it (`PlainHost`).

## What the code does that its documentation does not say

- Device ids are `host:name`. Two hosts can therefore declare the same device when a host name contains a colon, and the second registration puts a leased device back in the pool. `ColonsBreakExclusivity` is such a run; `StepKeepsValidIff` and `UpsertKeepsValidIff` give the exact condition.
- `Release` trusts its caller. Behind the ownership guard of the status handler it is safe (`ReportKeepsValid`); called for a queued job pinned to a busy device it would free another job's device, and that is the only case (`ReleaseKeepsValidIff`).
- The lease guards in the two restore paths are redundant during a registration, but not in a recovery that runs later (`LateRecoveryNeedsGuardIff` gives the exact condition).
- A registration, and the recovery that follows it in a transaction of its own, count as evidence that a device is free; a registration promotes an unknown device without further proof.
- `rc ps` numbers queued jobs by device. It agrees with the controller on every pinned job, and on a selector job exactly when no pinned job is ahead (`PsAgreement`).
- A heartbeat sets the deadline of a named job's lease to 15 minutes from now, which can be earlier than it was.

## Model

| member | source | states |
|---|---|---|
| Selector.PrintParseRoundTrip | internal/selector/selector.go:37-99 | whatever parses, prints to a text that parses to the same selector, so every stored selector parses again |
| Selector.CommaIsConjunction | internal/selector/selector.go:37-111 | joining two selector texts with a comma parses exactly when both do, has their terms in order, and matches exactly when both match |
| Selector.ContainsOperatorChar | internal/selector/selector.go:80-87 | true exactly when some character is one of the operator characters |
| Selector.ParseSelector | internal/selector/selector.go:37-78 | the loop yields the parse of the text, with the error of the first bad part |
| Selector.PrintSelector | internal/selector/selector.go:89-99 | the loop yields the canonical text of the terms |
| Selector.Match | internal/selector/selector.go:101-161 | true exactly when every term's label is present and satisfies it, in the sense of the rows below |
| Selector.NumericTermMeans | internal/selector/selector.go:114-128 | two numbers satisfy =, !=, >= and <= exactly when x == y, x != y, x >= y and x <= y |
| Selector.QuantityTermMeans | internal/selector/selector.go:114-128 | with infinities among them, by the one order in which they lie at the ends |
| Selector.NaNTermMeans | internal/selector/selector.go:114-128 | a NaN satisfies != and nothing else |
| Selector.QuantitiesAreOrdered | internal/selector/selector.go:114-128 | quantities but NaN are in one total order, that of the reals between the infinities |
| Selector.MixedTermMeans | internal/selector/selector.go:129-150 | a quantity against a text that is none is never in order, and equal only as text |
| Selector.TextTermMeans | internal/selector/selector.go:151-161 | two texts compare rune by rune at the first difference |
| Selector.ComparisonSelects | internal/selector/selector.go:37-161 | the text key>=value, parsed, matches exactly the devices that have the label with a number at least the value's, and so for the other three operators |
| Selector.OneOperatorParses | internal/selector/selector.go:59-78 | around one operator, space is trimmed, and key and value must both be there |
| Selector.TermRefusalsAreTrue | internal/selector/selector.go:59-78 | a term with an operator is refused only for a blank side or, with neither blank, an operator too many |
| Selector.FirstBadPartDecides | internal/selector/selector.go:37-57 | a blank text is refused as empty; otherwise the first bad part decides, as blank or by what is wrong with its term |
| Selector.NoOperatorIff | internal/selector/selector.go:59-78 | a term is refused for want of an operator exactly when it has no equals sign |
| Invariant.ValidIsExclusive | internal/store/allocate.go:252-335 | from the row-wise invariant: no device has two live leases, live leases and active jobs are in bijection with matching device and worker, ready means no live lease, busy means one |
| Invariant.AssignKeepsValid | internal/store/allocate.go:258-335 | an assignment keeps the invariant |
| Invariant.ReleaseKeepsValidIff | internal/store/allocate.go:156-198 | a release keeps the invariant exactly when the job is not a queued one pinned to a busy device |
| Invariant.ReportKeepsValid | internal/server/worker_api.go:705-745 | behind the ownership guard a status report always keeps it |
| Invariant.CancelKeepsValid | internal/store/queue.go:487-505 | cancelling keeps it |
| Invariant.KillKeepsValid | internal/store/queue.go:520-580 | requesting a kill keeps it, finalised or not |
| Invariant.SweepKeepsValid | internal/store/reaper.go:81-292 | a sweep keeps it, whatever its limits, hold-off and retention mode |
| Invariant.HeartbeatKeepsValid | internal/store/reaper.go:467-586 | a heartbeat keeps it, whatever jobs it names, in either retention mode |
| Invariant.UpsertKeepsValidIff | internal/store/store.go:84-277 | a registration keeps it exactly when it takes no leased device from another worker |
| Invariant.UpsertElsewhere | internal/store/store.go:84-277 | a registration changes no other worker's devices (unless it declares them), jobs or live leases |
| Invariant.RecoverKeepsValid | internal/store/recover.go:79-182 | automatic recovery keeps it |
| Invariant.ClearKeepsValid | internal/store/reaper.go:593-606 | an operator's clear keeps it |
| Invariant.RetireKeepsValid | internal/store/retire.go:33-76 | retiring a device keeps it, though it deletes lease rows |
| Runs.StepKeepsValidIff | internal/store/allocate.go:258-335 | of all transactions, only a registration that takes over a leased device breaks the invariant, and every such registration does |
| Runs.RunIsExclusive | internal/store/allocate.go:258-335 | in every state reachable from empty tables under any interleaving: exclusivity and the bijection, without the unique index |
| Runs.RunIsValidIff | internal/store/allocate.go:258-335 | for every run from empty tables, with any hosts: every state along it meets the invariant exactly when no step of it is a registration that takes over a leased device |
| Runs.NeverRequeued | internal/store/queue.go:321-402 | over any run a job never returns to the queue, a finished job never changes state, a placed job never changes device or worker |
| Runs.RunIsTicketed | internal/store/queue.go:79-223 | over any run insertion numbers stay distinct and every stored selector parses to its own text |
| Runs.StepLeaves | internal/store/store.go:84-277 | which transactions alone may place a job, ready a device, retire one, stamp a kill, withdraw a kill flag, renew a lease, touch a worker or write the recovery history |
| Outcomes.ReportIsRecorded | internal/store/allocate.go:156-198 | the owner's report of an end is recorded with that state, reason and time, its lease released, its busy device ready, and nothing else changes |
| Outcomes.StartIsRecorded | internal/store/allocate.go:338-344 | an assigned job handed out or reported running is running, and nothing else changes |
| Outcomes.HandoutCountsIff | internal/store/allocate.go:338-344 | handing a job out changes anything exactly if it is assigned |
| Outcomes.ReportCountsIff | internal/server/worker_api.go:705-745 | a report changes anything exactly if the owner reports the end of an active job or the start of an assigned one |
| Outcomes.KillIsRecorded | internal/store/queue.go:520-580 | a kill of an active job sets the flag, undelivered; finalised, which needs a device out of touch, it also ends the job and releases its lease |
| Outcomes.KillOutcomeMeans | internal/store/queue.go:520-580 | the caller is told refused, finalised or requested, each exactly when it was |
| Outcomes.KillIsRefused | internal/store/queue.go:520-580 | a kill of any other job changes nothing |
| Outcomes.PollIsRecorded | internal/store/queue.go:604-649 | a poll stamps exactly the flags of the worker's active and killed jobs not handed out in the last 30 s |
| Outcomes.CancelIsRecorded | internal/store/queue.go:487-502 | exactly a queued job is taken out of the queue |
| Outcomes.UnreserveIsRecorded | internal/store/queue.go:503-504 | exactly the reservations in the job's name go |
| Outcomes.SubmitIsRecorded | internal/store/queue.go:79-223 | the new row has the request's priority, key, submitter, kind and normalised selector, the time, and the pinned device's ceiling if it asked for no runtime |
| Outcomes.RunHasDistinctKeys | internal/store/queue.go:150-162 | in every reachable state no two jobs share an idempotency key |
| Outcomes.KeyIsSpent | internal/store/queue.go:150-162 | over any run a submission under a key once used changes nothing, whatever became of its job |
| Outcomes.AssignmentIsRecorded | internal/store/allocate.go:258-335 | exactly a queued job goes to a ready device, with its runtime or else the ceiling, its lease due 600 s after the runtime, or in 300 s without one |
| Outcomes.AssignOutcomeMeans | internal/store/allocate.go:258-335 | the caller is told that the device was not ready, or that it was and the job was gone |
| Outcomes.FaultIsRecorded | internal/store/store.go:298-323 | a fault with an explanation takes the device out, one without is not accepted |
| Outcomes.ClearIsRecorded | internal/store/reaper.go:593-606 | a clear puts the device back exactly if it is unhealthy and no active job is on it |
| Outcomes.RetireIsRecorded | internal/store/retire.go:33-76 | an unleased device goes with exactly its past leases, everything else but its labels and reservation as it was; a leased one stays |
| Outcomes.RetireForgets | internal/store/retire.go:33-76 | exactly its own labels and reservation go with it |
| Outcomes.CeilingIsRecorded | internal/store/queue.go:61-75 | one device's ceiling is what was given, zero if negative |
| Outcomes.RelabelIsRecorded | internal/store/labels.go:14-38 | the labels of one device and one origin become those given |
| Verdicts.SweepJudgesJob | internal/store/reaper.go:81-292 | a job, its lease and its device after a sweep, from the seconds its worker was silent and the lease's deadline: lost with its worker, lost with its lease, or as it was |
| Verdicts.SweepJudgesDevice | internal/store/reaper.go:95-165 | a device without a lease is unhealthy past unhealthyAfter, unknown past grace, and otherwise as it was |
| Verdicts.SweepSparesTheRest | internal/store/reaper.go:81-292 | nothing else changes in a sweep |
| Verdicts.SilentWorkersAreWrittenOff | internal/store/reaper.go:95-205 | in every run, a judging sweep unhealthyAfter or more after a worker was last heard takes its devices out and, not retaining, leaves no active job on them |
| Verdicts.ReportsAreOutcomes | internal/store/reaper.go:81-292 | the sweep's four lists, each thing once, told in silence and in what became of the jobs |
| Verdicts.LooseLeaseIsListed | internal/store/reaper.go:206-286 | an overdue lease of no job is listed as itself, once |
| Verdicts.HeartbeatSettlesJob | internal/store/reaper.go:467-586 | a named job's lease is due in 900 s and its lost or unknown device busy; an unnamed one keeps its deadline, and its unknown device is busy only when jobs are not retained |
| Verdicts.HeartbeatSettlesDevice | internal/store/reaper.go:537-580 | an unknown device without a lease is ready exactly if no finalised kill of a job still named is pending on it |
| Verdicts.HeartbeatSparesTheRest | internal/store/reaper.go:467-586 | the worker counts as heard, an answered kill flag goes, and nothing else changes |
| Verdicts.RetainedJobResumes | internal/store/reaper.go:500-517 | where jobs are retained, a sweep that writes the worker off and the heartbeat that names the job leave the job as it was, its device busy, its lease due in 900 s |
| Collision.ColonsBreakExclusivity | internal/server/worker_api.go:218-228 | a concrete run with a host named with a colon that ends with two live leases on one device |
| Handover.EvidenceBetweenLeases | internal/store/reaper.go:571-580 | between any two leases of one device lies the owner's terminal report, a clear, a registration or proof by the owner, or the owner's heartbeat without the finalised-killed job |
| Handover.QuietRunFreesNothing | internal/store/allocate.go:190-195 | runs of sweeps, scheduling, submissions, cancels, kills and faults never add a device to the pool |
| Handover.OccupiedUntilEvidence | internal/store/reaper.go:537-580 | over any run a device occupied by a job stays so, and out of the pool, until an event that is evidence about that job on that device |
| Handover.FinalizedKillOccupies | internal/store/queue.go:520-580 | finalising a kill leaves the job's device occupied by it |
| Handover.NamedKillHoldsDevice | internal/store/reaper.go:571-580 | after a finalised kill the device stays out of the pool over every run without evidence about the job; heartbeats that still name it are none |
| Handover.QuarantineIsOneWay | internal/store/reaper.go:25-37 | while a device stays unhealthy its reason changes only to fault, and only a clear of that device lifts a fault |
| Handover.FaultSurvives | internal/store/store.go:298-323 | a fault survives every run in which the device is neither cleared nor retired |
| Handover.ReasonsAreCurrent | internal/store/store.go:150-163 | in every reachable state a device that is not unhealthy has no reason and no detail, and a detail means a fault |
| Kills.DeliveriesBounded | internal/store/queue.go:597-649 | over T seconds a job is delivered at most T/30 + 1 times, plus once per request made meanwhile |
| Kills.FlagIsWithdrawnIff | internal/store/reaper.go:518-536 | of all steps, only the owner's heartbeat that no longer names a killed job withdraws its flag, and every such heartbeat does |
| Kills.FlagIsOfferedAgain | internal/store/queue.go:604-649 | a flag last delivered 30 s ago or more is due exactly if it still stands and the job is active or killed, and it does stand over every run without that heartbeat |
| Kills.KillIsHandedOut | internal/store/queue.go:520-649 | over any run after a kill of an active job with no delivery and no answer, its worker's next poll at or past second 30 is handed it while it is active or killed |
| Deadlines.NamingRenews | internal/store/reaper.go:467-499 | a heartbeat of its owner naming an active job leaves the job a lease due exactly 15 minutes later, in every reachable state |
| Deadlines.NamedJobsSurviveSweeps | internal/store/reaper.go:437-499 | in every run from empty tables, a sweep less than min(unhealthyAfter, 15 min) after a heartbeat naming an active job does not touch the job |
| Deadlines.UnnamedJobsAreReclaimed | internal/store/reaper.go:206-286 | a job not named after t is gone, and its device quarantined, by the first judging sweep at or past max(its deadline, t + 15 min) |
| Sweeping.HoldOffIsNoAmnesty | internal/store/reaper.go:81-292 | sweeps in the startup window end nothing, and the first judging sweep after them leaves what it would have left without them |
| Sweeping.SweepIsIdempotent | internal/store/reaper.go:81-292 | a sweep repeated at the same time changes nothing |
| Sweeping.SweepEvents | internal/cli/serve.go:362-402 | one notice per device written off, per job lost, per lease expired and per further device an expired lease took out |
| Sweeping.AddUnhealthy | internal/cli/serve.go:362-402 | the first loop: each device written off once, with the reason it is out for |
| Sweeping.AddJobsLost | internal/cli/serve.go:362-402 | the second loop: each lost job once, nothing else |
| Sweeping.AddLapses | internal/cli/serve.go:362-402 | the third loop: each expired lease once, its device once unless already announced |
| Sweeping.AddLapse | internal/cli/serve.go:362-402 | one turn of it |
| Sweeping.AnnouncementsAreExact | internal/cli/serve.go:428-467 | each device that left the pool in this sweep is announced exactly once and no other; each job that became lost exactly once, as lost or as expired |
| Recoveries.RegistrationReconciles | internal/server/worker_api.go:230-268 | after a registration the worker has no active job and no leased device; a device in question is ready exactly when its cause is clearable and the two boot IDs are there and differ, or the proof holds with fewer than three returns in the last 3600 s, else unhealthy; nobody else's rows changed |
| Recoveries.PlainHostOwnsItsDevices | internal/server/worker_api.go:218-228 | in every reachable state a host without a colon meets what the three registration theorems ask of it |
| Recoveries.UpsertInQuestion | internal/store/store.go:179-277 | the verdict of the reconciliation alone, before recovery |
| Recoveries.RestartQuarantines | internal/store/store.go:84-277 | under an equal or missing boot ID the devices in question are unhealthy, with the reason they had or that of a registration |
| Recoveries.RebootReturns | internal/store/store.go:84-277 | under a different boot ID they are ready, but for a fault |
| Recoveries.RegistrationEndsJobs | internal/store/store.go:179-246 | exactly the worker's active jobs are lost, with the reason that tells a reboot from a restart |
| Recoveries.RegistrationReleases | internal/store/store.go:179-246 | exactly their leases are released |
| Recoveries.RegistrationDeclares | internal/store/store.go:137-167 | a new device is entered ready, a declared one is ready unless it is out, another is left alone |
| Recoveries.CeilingsAreDeclared | internal/server/worker_api.go:244-255 | after a whole registration a declared device has the ceiling declared, none if negative, and no other ceiling changed |
| Recoveries.RestartOrReboot | internal/store/store.go:84-277 | in every run, a worker's second registration ends its jobs; under the boot ID of its first their devices are unhealthy, under another they are ready unless they were out |
| Recoveries.RecoveryVerdict | internal/store/recover.go:79-182 | a recovery returns exactly the worker's unleased devices out for a clearable reason, given a proof and fewer than three returns in the last 3600 s |
| Recoveries.OthersUntouched | internal/store/store.go:84-277 | other workers' devices, jobs and live leases survive a whole registration unchanged |
| Recoveries.RebootGuardIsRedundant | internal/store/store.go:264-277 | on the reboot path the lease guard never changes the outcome |
| Recoveries.RecoveryGuardIsRedundant | internal/store/recover.go:95-105 | nor does it in the recovery that follows a registration at once |
| Recoveries.LateRecoveryNeedsGuardIff | internal/store/recover.go:95-105 | run later, recovery without the guard keeps the invariant exactly when no candidate with budget is leased |
| Recoveries.FlapGuardBound | internal/store/recover.go:88-176 | over any run a device's fourth automatic return comes more than an hour after its first, pruning, retiring and re-registering included |
| Recoveries.HistoryStaysShort | internal/store/recover.go:130-176 | the history table never holds more than three rows for a device |
| Recoveries.RemainingIsHonest | internal/store/recover.go:217-244 | the returns reported as left are positive exactly when a proof would return the device now, and fall by one when it does |
| Recoveries.RemainingCounts | internal/store/recover.go:217-244 | three less the returns of the last 3600 s, and not below zero |
| Scheduling.NoOvertaking | internal/store/queue.go:321-402 | whatever runs between its steps, a pass never grants a device to a job while an earlier one, still queued at the end, had it among its candidates |
| Scheduling.AtomicPassIsGreedy | internal/store/queue.go:306-403 | with nothing in between, the grants are those of the simple scheduler over the pass's candidates, and no job left waiting has a ready candidate |
| Scheduling.GreedyMeans | internal/store/queue.go:321-389 | what the simple scheduler does: each entry picks the first of its candidates that was ready and nobody before it picked, and goes without only if there is none |
| Scheduling.GrantsMean | internal/store/queue.go:369-389 | the grants are the picks, in the order of the entries |
| Scheduling.CandidatesMean | internal/store/queue.go:229-301 | a job's candidates are its device, or the devices in the table whose labels match and whose ceiling, if any, is not below its runtime |
| Scheduling.ChoiceAccesses | internal/store/queue.go:322-346 | how often a job's candidates are read: not for a pinned job, twice for a selector, a third time only for a runtime and a match |
| Scheduling.CandidatesInOrder | internal/store/queue.go:229-251 | each once, by id |
| Scheduling.AtomicPassTouchesOnlyGrants | internal/store/queue.go:306-403 | with nothing in between, each grant is one assignment of a queued job to a ready device with one new lease, and every other job, device, lease and table but the reservations is unchanged |
| Scheduling.AtomicReservations | internal/store/queue.go:391-401 | a device is then reserved exactly when a waiting job wants it, for the first that does |
| Interleaving.PassIsARun | internal/store/queue.go:306-403 | a pass with any transactions before each of its accesses (registrations only of hosts without a colon) leaves a state that some such run of events reaches, so every theorem about runs holds after it |
| Interleaving.SubmissionIsARun | internal/store/queue.go:79-223 | so does a submission |
| Interleaving.CancellationIsARun | internal/store/queue.go:487-505 | and a cancellation |
| Interleaving.InterleavedStaysSound | internal/store/allocate.go:252-335 | in particular the invariant, and with it exclusivity, survives them |
| Queue.QueueInOrder | internal/store/queue.go:405-412 | the queue is listed by priority, then time, then insertion |
| Queue.EarlierInQueue | internal/store/queue.go:405-431 | the earlier of two entries has the higher priority, or the same and the earlier time, or both and the lower insertion number |
| Queue.EffectiveMeans | internal/store/labels.go:93-119 | a device has the labels detected or declared, and the detected value counts |
| Queue.ScreenPassesIff | internal/store/queue.go:79-140 | a request passes exactly if it names a command, a submitter and one target, and a selector that suits some device |
| Queue.RefusalsAreTrue | internal/store/queue.go:79-140 | a refusal names the first thing that is wrong with the request |
| Queue.SubmissionIsRecorded | internal/store/queue.go:142-223 | the transaction's outcome by cause, and the row it adds |
| Queue.PositionIsRank | internal/store/queue.go:443-482 | a selector job's position is its index in the queue, a pinned job's its rank among the entries of its device |
| Queue.PsPositions | internal/cli/ps.go:131-136 | the loop numbers each entry by the entries of its device so far |
| Queue.PsAgreement | internal/cli/ps.go:131-136 | the two numberings agree on pinned jobs, and on a selector job exactly when no pinned job is ahead |
| Tables.Store.AssignQueued | internal/store/allocate.go:258-335 | the statements are the assignment transaction, with its three outcomes |
| Tables.Store.StartRunning | internal/store/allocate.go:338-344 | only an assigned job starts running |
| Tables.Store.Release | internal/store/allocate.go:156-198 | the statements are the release whose outcome ReportIsRecorded gives; a second release does nothing |
| Tables.Store.Report | internal/server/worker_api.go:705-745 | the status handler with its ownership guard is the report of ReportIsRecorded, StartIsRecorded and ReportCountsIff |
| Submissions.ScreenedIsScreen | internal/store/queue.go:79-140 | the verdict of the checks, each read apart with other transactions in between, is that of the set-wise screen of what each read saw |
| Submissions.ScreenAccesses | internal/store/queue.go:97-140 | how often the checks read: not for a pinned device, twice for a selector, a third time only for a runtime, a fourth only to refuse it |
| Submissions.EnqueueIsASubmission | internal/store/queue.go:79-223 | so an interleaved submission leaves what the Submit event of a run leaves at its last access, or what the others left if it was refused |
| Submissions.CancelSucceedsIff | internal/store/queue.go:487-505 | a cancellation succeeds exactly if the job is still queued when its first statement runs, and otherwise changes nothing |
| Submissions.CancelIsFinal | internal/store/queue.go:487-505 | whatever runs between its two statements, a cancelled job is killed and no reservation in its name is left |
| Tables.Store.Cancel | internal/store/queue.go:487-505 | the two statements with other transactions before each are the cancellation of CancelIsFinal |
| Tables.Store.CancelJob | internal/store/queue.go:488-502 | the first: only a queued job is cancelled |
| Tables.Store.DropReservations | internal/store/queue.go:503-504 | the second: exactly its reservations go |
| Tables.Store.Kill | internal/store/queue.go:520-580 | the statements are the kill of KillIsRecorded, and the outcome returned that of KillOutcomeMeans |
| Tables.Store.TakeKillRequests | internal/store/queue.go:604-649 | hands out exactly the due flags and stamps exactly those rows |
| Tables.Store.SetDeviceMaxRuntime | internal/store/queue.go:61-75 | one device's ceiling, or unknown device |
| Tables.Store.SetState | internal/store/store.go:298-323 | state, reason and detail together |
| Tables.Store.Clear | internal/store/reaper.go:593-606 | an unhealthy device without a live lease becomes ready |
| Tables.Store.Retire | internal/store/retire.go:33-76 | refused while leased; otherwise everything keyed to the device goes |
| Tables.Store.ReplaceLabels | internal/store/labels.go:14-38 | one device's labels of one source become exactly the set given |
| Tables.Store.LabelSnapshot | internal/store/labels.go:93-119 | effective labels: the detected value wins |
| Tables.Store.UpsertWorker | internal/store/store.go:84-169 | worker row, reap, restore and declare, in order, are the registration of RestartQuarantines and RebootReturns |
| Tables.Store.ReapInFlightJobs | internal/store/store.go:179-246 | the loop over in-flight jobs is the reap, whatever their order |
| Tables.Store.ReapOne | internal/store/store.go:202-244 | one job of it |
| Tables.Store.RestoreRebootedDevices | internal/store/store.go:264-277 | the guarded restore |
| Tables.Store.DeclareDevices | internal/store/store.go:137-167 | the loop over declared devices |
| Tables.Store.Register | internal/server/worker_api.go:230-268 | the handler's order of steps is the registration whose outcome RegistrationReconciles decides |
| Tables.Store.DeclareCeilings | internal/server/worker_api.go:244-255 | every declared device's ceiling is written, negative as none |
| Tables.Store.Recover | internal/store/recover.go:79-182 | the loop over candidates is the recovery, and returns those recovered in id order |
| Tables.Store.RecoverOne | internal/store/recover.go:127-170 | prune, count, and return and record only within budget |
| Tables.Store.RecoveryHistoryFor | internal/store/recover.go:217-244 | exactly the recorded returns inside the window, newest first, and how many are left |
| Tables.Store.Heartbeat | internal/store/reaper.go:467-586 | the statements in order are the heartbeat of HeartbeatSettlesJob and HeartbeatSettlesDevice |
| Tables.Store.RenewLeases | internal/store/reaper.go:481-499 | renews exactly the live leases of the worker's own named active jobs |
| Tables.Store.RestoreNamed | internal/store/reaper.go:500-517 | brings back busy exactly the worker-lost devices of named jobs |
| Tables.Store.ClearAnswered | internal/store/reaper.go:518-536 | clears the flag of a killed job no longer named |
| Tables.Store.SettleUnknown | internal/store/reaper.go:537-580 | settles the worker's unknown devices by lease, named holder and pending kill |
| Tables.Store.Sweep | internal/store/reaper.go:81-292 | the four passes are the sweep of SweepJudgesJob and SweepJudgesDevice, and the result lists each thing it did once, as ReportsAreOutcomes tells |
| Tables.Store.Judge | internal/store/reaper.go:95-140 | the first pass: who is silent for how long, each list as ReportsAreOutcomes tells it |
| Tables.Store.Demote | internal/store/reaper.go:141-165 | the second: the demotions |
| Tables.Store.ReapJobs | internal/store/reaper.go:165-205 | the third: the jobs of devices written off are lost |
| Tables.Store.ReapDevice | internal/store/reaper.go:168-205 | one device of it |
| Tables.Store.ExpireLeases | internal/store/reaper.go:206-286 | the fourth: every overdue lease, in any order |
| Tables.Store.ExpireOne | internal/store/reaper.go:240-286 | one lease of it, with the two kinds of report |
| Tables.Store.QuarantineReasons | internal/store/reaper.go:311-341 | the reason of each known device asked for |
| Tables.Store.LeaseDevices | internal/store/reaper.go:393-431 | an expired job maps to the device of its newest lease, an expired lease to its own |
| Tables.Store.SweepAndNotify | internal/cli/serve.go:428-467 | sweep, read back and announce: each loss said exactly once |
| Tables.Store.Screen | internal/store/queue.go:79-140 | the checks before the transaction, in order, each read with other transactions before it |
| Tables.Store.Offer | internal/store/queue.go:97-140 | the selector's checks: some device matches, and some that does tolerates the runtime |
| Tables.Store.AnyWithin | internal/store/queue.go:118-137 | the ceilings are read once, and once more to word a refusal |
| Tables.Store.Enter | internal/store/queue.go:142-223 | the transaction: the existing job for the key, the error, or exactly the new row |
| Tables.Store.Enqueue | internal/store/queue.go:79-223 | checks and transaction with other transactions before each access are the submission of EnqueueIsASubmission |
| Tables.Store.MatchingDevices | internal/store/queue.go:229-251 | the devices whose labels match, in id order |
| Tables.Store.CeilingFilter | internal/store/queue.go:286-301 | keeps exactly the devices that tolerate the runtime |
| Tables.Store.QueuedIds | internal/store/queue.go:412-431 | the queued jobs in scheduling order |
| Tables.Store.QueuePosition | internal/store/queue.go:449-482 | the count of PositionIsRank |
| Tables.Store.ScheduleOnce | internal/store/queue.go:306-403 | the pass with its loops, other transactions before each access, is the pass NoOvertaking and AtomicPassIsGreedy are about |
| Tables.Store.Visit | internal/store/queue.go:321-401 | one job's turn |
| Tables.Store.Choose | internal/store/queue.go:322-346 | its candidates, read in three accesses |
| Tables.Store.TryEach | internal/store/queue.go:369-389 | the attempts in order, until one succeeds or the job is gone |
| Tables.Store.ReserveEach | internal/store/queue.go:394-401 | what is free is held for the job |
| Hooks.ReleaseOnlyAfterOwner | internal/worker/hooks.go:182-311 | in every run no release runs between the latest acquirer's acquire and its end, each is in that job's name, and takes and releases strictly alternate |
| Hooks.OnePairPerBurst | internal/worker/hooks.go:182-311 | between two takes there is a release, so overlapping jobs share one pair |
| Hooks.ReleaseIsNotLost | internal/worker/hooks.go:238-311 | a release is under way exactly when the device is held by a job that has ended, and running it makes the device idle |
| Hooks.AcquireTakesHold | internal/worker/hooks.go:182-219 | an acquire holds the device under a new epoch unless it was idle and its script failed |
| Hooks.AcquireCallsOffReleases | internal/worker/hooks.go:182-219 | whatever release was under way does nothing after an acquire |
| Hooks.OwnerEndReleases | internal/worker/hooks.go:238-266 | the end of the owner, and of no other job, sets a release under way in its name |
| Hooks.DrainTakesOver | internal/worker/hooks.go:329-360 | a drain takes over exactly a release whose timer runs, and the timer's own goroutine then does nothing |
| Hooks.DeviceHookState.AcquireDevice | internal/worker/hooks.go:182-219 | the method is the acquire step, and hands out the epoch in force |
| Hooks.DeviceHookState.ScheduleRelease | internal/worker/hooks.go:238-266 | arms a release exactly for the current owner |
| Hooks.DeviceHookState.FireRelease | internal/worker/hooks.go:282-311 | releases exactly for the live generation, on behalf of the job that armed it |
| Hooks.DeviceHookState.BeginDrain | internal/worker/hooks.go:340-356 | the drain's critical section |
| Hooks.DrainPendingReleases | internal/worker/hooks.go:329-360 | undisturbed, it releases exactly what was pending |
| Relay.SessionsStayConsistent | internal/server/tty.go:218-292 | registered means not dead and attached; one half per slot; an attached input half with an open pipe uses the current pipe |
| Relay.StaleHalfIsHarmless | internal/server/tty.go:363-381 | no step of a half changes another session, its registration or its pipes |
| Relay.ReplacedInputIsHarmless | internal/server/tty.go:294-303 | a half whose input pipe was replaced closes nothing that is open |
| Relay.CloseReachesAll | internal/server/tty.go:188-199 | a closed session has closed the pipe of every half ever attached |
| Relay.NoSessionIsLeaked | internal/server/tty.go:241-292 | a session out of the registry is dead or some half is about to close it |
| Relay.ConnectAttaches | internal/server/tty.go:218-235 | a stream is attached exactly if its slot is free, with an open pipe for input, and whatever was there is as it was |
| Relay.LeavingTakesSteps | internal/server/tty.go:188-292 | every half that finishes is gone after a bounded number of its own steps, whatever else happens in between |
| Relay.GoneHasLeft | internal/server/tty.go:188-292 | a half that is gone holds no slot; an output half has closed the session and both its pipes, an input half its own |
| Relay.TtyRegistry.Acquire | internal/server/tty.go:218-235 | the method is the attach step; busy exactly when the slot is taken; an input half gets an open pipe |
| Relay.TtyRegistry.NewSession | internal/server/tty.go:150-157 | a new session with two open pipes |
| Relay.TtyRegistry.RenewIn | internal/server/tty.go:173-179 | replaces exactly a closed input pipe of a live session |
| Relay.TtyRegistry.Attach | internal/server/tty.go:226-234 | takes the slot on a given session |
| Relay.TtyRegistry.ForgetLocked | internal/server/tty.go:288-292 | unregisters only the session that is registered |
| Relay.TtyRegistry.AttachedLocked | internal/server/tty.go:263-271 | counts the taken slots |
| Relay.TtyRegistry.Alone | internal/server/tty.go:257-261 | at most one half attached |
| Relay.TtyRegistry.Discard | internal/server/tty.go:363-381 | the first step of a teardown |
| Relay.TtyRegistry.Close | internal/server/tty.go:188-199 | dead, both pipes closed, every half's pipe closed, other sessions untouched |
| Relay.TtyRegistry.Release | internal/server/tty.go:241-253 | detaches, and unregisters a session left with nobody |
| Probes.ClassifyMeans | internal/worker/probe.go:417-432 | a device key is exactly a declared dotless name, a dot and a label; a host key has no dot |
| Probes.NamedMeansLabels | internal/worker/probe.go:445-463 | a source names exactly the declared devices it gives labels |
| Probes.DoubtIsAttributed | internal/worker/probe.go:178-268 | a device is unconfirmed exactly when a source that speaks for it failed |
| Probes.SuccessIsRemembered | internal/worker/probe.go:169-176 | a drop-in that worked is remembered for exactly the devices it named |
| Probes.RemovedProbeIsForgotten | internal/worker/probe.go:152-175 | a drop-in no longer there, or no longer executable, is forgotten |
| Probes.OutagePreservesLabels | internal/worker/probe.go:187-341 | after a drop-in named a device, its failing for any number of passes leaves the device's stored labels unchanged while no other source names it |
| Probes.CoveredDevicesRefresh | internal/worker/worker.go:800-876 | a device no failing source speaks for is replaced with the pass's facts |
| Probes.RoundDecides | internal/server/worker_api.go:408-454 | after a pass a device's stored labels are the fresh facts or exactly what they were, and which |
| Probes.GatherIsLastWord | internal/worker/probe.go:132-341 | under each key of the host and of each device, a pass holds the word of the last source that succeeded and had one |
| Probes.SheetsAreFiled | internal/server/worker_api.go:408-454 | a device's usage sheet is the one sent with its name, the host's the one sent for the host, and what was not sent stands |
| Probes.GpuNamesAreNumbered | internal/worker/probe.go:375-392 | the names nvidia-smi is taken to speak for are gpu and digits |
| Probes.FirstPassSettles | internal/worker/probe.go:225-256 | whether nvidia-smi belongs on the host is settled by the first pass of the run |
| Probes.NvidiaIsRemembered | internal/worker/probe.go:220-268 | what nvidia-smi speaks for while it works, while it fails and once it is gone |
| Probes.MergeProbeFacts | internal/worker/probe.go:445-463 | the loop puts every key where it belongs, in any order |
| Probes.NvidiaScopedDevices | internal/worker/probe.go:375-392 | the declared devices named gpu and digits |
| Probes.Prober.GatherLabels | internal/worker/probe.go:132-341 | the pass, with what it remembers for the next |
| Probes.Prober.UnconfirmUnheard | internal/worker/probe.go:273-293 | an unreadable directory fails every source not heard of |
| Probes.Prober.RunProbes | internal/worker/probe.go:296-340 | the drop-ins in order, with the budget |
| Probes.Prober.LabelsPayload | internal/worker/worker.go:800-876 | what is sent, and that each omission is logged once per episode |
| Probes.MergeLabelMaps | internal/server/worker_api.go:456-470 | the device's own value wins |
| Probes.ApplyDeviceFacts | internal/server/worker_api.go:408-454 | device by device, what is stored afterwards: detected and declared labels, the host's usage sheet and the devices' own |

## Left out

- SQL, transactions' isolation, migrations and connection limits: each transaction is one atomic step; a scheduling pass, a submission and a cancellation, which are not transactions, are interleaved access by access.
- HTTP handlers beyond the guards and the order of steps named above, server-sent events, tokens, the dashboard, CLI rendering and client polling.
- `Store.Allocate`, which bypasses the queue and is not wired in; reading host documents back, and the timestamps of labels and documents.
- Columns no decision reads: exit codes, start times, per-device heartbeat times, release times (a lease is live or not), lease holders and reasons, working directory and environment of a job.
- Times are whole seconds and integers are unbounded; Go's 64-bit durations and counters do not wrap here.
- A worker is identified by its host, where the source hashes the host; a new job's random id is a parameter, and one already in use is refused as the primary key would.
- The reservations table is keyed by device; schema.sql is not part of this model.
- The order of rows where the source does not ask for one is arbitrary.
- `parseQuantity` is a parameter of the matcher: any function from text to an optional number, infinities and NaN included.
- Hook scripts, probes and `nvidia-smi` are inputs (success, failure, facts); process supervision, timeouts and signals are not modelled. That a timer fires at most once is assumed; that it may fire late, or after it was stopped, is not excluded.
- Probe sources are told apart by kind, so a drop-in whose path is literally `builtin` or `nvidia-smi` is not confused with the built-in source of that name.
- The warning a worker logs once about a drop-in that never succeeded.
- The relay's pipes carry no bytes here; a pipe may be closed by its half's context or handoff guard at any time, which covers every time the guard's own test allows.
- The worker's `running` and `started` bookkeeping in `execute` and `reportPreKilled`, and the startup pass over release hooks.
- Runtime ceilings as a promise to the operator: negative requests are not rejected and pinned jobs are not rechecked at assignment, so the code keeps none.
- Webhook delivery, log shipping, tar copy, PTYs: input and output.
