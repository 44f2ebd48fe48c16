# Verified models of the fleet queue and the experiment store

A Dafny model of the scheduling side of the repository: the reservation protocol of the GPU queue
(`bench/fleet_pending.py`, `fleet_pause.py`, `fleet_handoff.py`, `fleet_boot.py`), the experiment store with its
workers and CPU pool (`bench/experiments.py` and its helpers), the queue's priority order, and the exact algorithms
that the tools beside them rely on. `dafny verify dfyconfig.toml` checks all of it.

How the two protocols are modelled:

- **Reservations.** An operation is the list of file replacements that it makes under `.lock`, in order
  (`Reservation`); a crash keeps a prefix. `Recovery` and `Operations` say what every prefix leaves.
  `Commits` and `Handover` say field by field what each finished operation leaves in the files.
  `FleetDirectory` is the imperative form: a controller that may die before any replacement, each method proved to
  carry out its list. `RecoveryLimits` says exactly what a reconcile after a crash does not restore.
  `Admission` is the system: readers that validate outside the lock, operations and admissions cut
  anywhere, registrations, releases, births and deaths of processes, arbitrary queue commands.
  `AdmissionSafety`, `Linearizability`, `CheckedPauses`, `RecordHistory` and `LaterWork` prove what holds over every run.
- **Experiments.** `ExperimentDb` gives each transaction on the tables; `ExperimentStore` is the class whose methods
  are those transactions; `Transactions` says row by row what they answer and leave, and `WorkerSteps` the same of each
  worker's step. `ExperimentRuns` lets any number of workers interleave at transaction, file-lock and process
  boundaries. `ExperimentGraph`, `ExperimentSafety`, `ExperimentPool`, `ExperimentProgress` and `ExperimentLapse` prove
  the invariants over every run.

The other modules are one algorithm each: `Shards` and `Balancing`, `FleetPriority` and
`RankingOrder`, `Dependents`, `ImportGraph`,
`MinimalCores`, `Json` and `Canonical`, `EventStream`, `Acceptance`, `PrefillFit`, `DraftModel`. `Sorting`, `Texts`,
`Walks` and `Wrappers` serve them.

Where the code does less than its description says, the model follows the code and a member states the exact condition:

- After GO in a one-GPU lane a once-parked ticket stays editable, because the parked branch of `inspect` reads only
  the fleet's own `holder` (`Linearizability.OpenAfterAdmission`, `Linearizability.EditsAfterOtherGo`), and its
  supervisor then executes the edited work (`Linearizability.EditedAfterGo`; exactly when:
  `LaterWork.StartMayDiffer`). Every grant of the fleet's lane, and elsewhere every grant of a record that is not
  paused and was never parked, is executed as it was given (`AdmissionSafety.ExecutedIsGranted`).
- A pause that expects a revision compares the revision alone, which starts again at 1 with each registration
  (`CheckedPauses.PauseExpects`, `CheckedPauses.PauseHitsSuccessor`).
- A recorded success of a job can be overwritten by `interrupted` when `ensure_worker` probes the worker lock before a
  worker takes it and writes after that worker is done (`ExperimentLapse.SuccessLasts`,
  `ExperimentLapse.UndoubtedSuccessStays`, `ExperimentRace.SuccessCanLapse`). That is why successes are judged by the
  event log.
- `reach` does not follow a file that the check names by path even where it is also imported further on
  (`ImportGraph.NamedFilesBlock`).
- The canonical form sorts 0.0 and -0.0 apart although Python calls them equal: it decides sameness, with the two zeros
  the same or different, exactly among values that do not have both (`Canonical.CanonicalDecides`,
  `Canonical.SignedZeroSortsApart`).
- `iter_events` also yields objects from members after the array (`EventStream.OnlyTheArray`).
- After a crash between the record and the row of an edit in place, reconcile moves the edited row to the end of the
  queue, unless it was the last one or does not change (`RecoveryLimits.EditOrderRecovers`,
  `RecoveryLimits.EditedRowMovesBack`).
- After a pause that was cut short, reconcile does not withdraw a donor's offer or the priority marks
  (`RecoveryLimits.PauseMarks`).

Assumptions: process ids with start tokens and job identifiers are never handed out twice; SHA-256 names are treated
as the values they digest; the hold of a lane is released only after its supervisor has moved on or its process is gone;
a supervisor registers once, takes one GO, from its own waiter, between registering and starting, and moves its
record's state onward only; the CPU pool's policy is fixed; `execute` is reached only from `worker`.

## Model

| member | source | states |
|---|---|---|
| `Reservation.RowMember` | bench/fleet_pause.py:73-74 | `RowsOf` and `Others` split the queue: a row is in one or the other by its session, and in neither when it is not queued |
| `Reservation.WithoutMember` | bench/fleet_pending.py:157-159 | the index and ticket lists lose exactly the named session |
| `Reservation.ReplaceRow` | bench/fleet_pending.py:358-359 | an edit's projection changes columns 3 and 4 of the session's rows and no other row or column |
| `Recovery.SavePrefix` | bench/fleet_pending.py:140-159 | after any replacement of `save_record` the record is the old or the new one; queue and holders have not moved; the whole save leaves the new one |
| `Recovery.SaveKeepsIndex` | bench/fleet_pending.py:140-159 | at every crash point each session whose record is a valid park is in the parked index |
| `Recovery.RefusedSave` | bench/fleet_pending.py:146-155 | a refused save leaves records, queue and holders alone; the index stays complete |
| `Recovery.ReplacedRows` | bench/fleet_pending.py:358-362 | an edit in place leaves other sessions' rows and their order, and rewrites the session's own rows only |
| `Recovery.ProjectionResult` | bench/fleet_pause.py:83-90 | a projection leaves no row of a parked session, exactly the saved row of a resumed one, every other row in order, and nothing more to project |
| `Recovery.ReconcileIsIdempotent` | bench/fleet_pause.py:53-90 | reconciling again does nothing; records do not change; other sessions' rows keep their order; the session has exactly the row its state calls for |
| `Recovery.SaveReconcileRecovers` | bench/fleet_pause.py:112-113 | from a crash after any replacement of a save and its projection, either nothing visible happened or one reconcile ends where the uninterrupted operation ends |
| `Recovery.PauseRecovers` | bench/fleet_pause.py:100-123 | the same for the records, rows and holders of a whole pause; the withdrawn offer and marks are `PauseMarks` |
| `Recovery.ResumeRecovers` | bench/fleet_pause.py:171-180 | the same for the second locked section of a resume |
| `Recovery.ReconcileRecovers` | bench/fleet_pause.py:75-90 | the same for reconcile itself, upgrading an earlier controller's pause included |
| `Recovery.EditRecovers` | bench/fleet_pending.py:343-370 | the same for an edit of a once-parked ticket: the same records and the same collection of rows, other sessions' in the same order; the edited row's place is `EditOrderRecovers` |
| `RecoveryLimits.EditOrderRecovers` | bench/fleet_pause.py:83-90 | behind the record of such an edit, reconcile brings the uninterrupted queue in its order if and only if the edit was finished, has no row in the queue, does not change its row, or has the last one |
| `RecoveryLimits.EditedRowMovesBack` | bench/fleet_pending.py:357-362 | a queue of two rows, an edit of the first and a crash before its row is rewritten: reconcile puts it last |
| `RecoveryLimits.PauseMarks` | bench/fleet_pause.py:114-122 | after a crash at any point of a pause and a reconcile, an offer or mark still names the session if and only if one did before and the pause was cut short or found the ticket paused already |
| `Operations.OperationShape` | bench/fleet_pause.py:53-180 | every operation saves at most one record, its own session's, before it touches the queue; a refused save ends it; the queue writes leave other sessions alone |
| `Operations.OperationKeeps` | bench/fleet_pending.py:140-159 | at every crash point of pause, failed-check pause, resume, edit, reconcile and transition: holders, other records, other rows and their order are untouched, the record is the old or the saved one, the index stays complete |
| `Operations.SavedIsLater` | bench/fleet_pending.py:343-353 | no operation changes session, ticket, enqueue time, kind, pid or start token; all but an owner's transition make a strictly later version of a queued or paused record of a live supervisor; a commit adds one revision to the very record it validated |
| `Commits.ResumeResumes` | bench/fleet_pause.py:171-180 | a resume that is not refused found the validated record; it leaves it queued, one revision on, without a reason, all else as it was, with its saved row as the session's only row, and every other record, row and holder alone |
| `Commits.PausePauses` | bench/fleet_pause.py:144-149 | a pause that is not refused saw the expected revision; a queued record becomes paused with the reason, one revision on, with its row saved under the record's estimate and note; the row, an offer and both marks of the session are gone, all else is as it was |
| `Commits.FailedCheckPauses` | bench/fleet_pause.py:126-141 | a failed check of the current, queued reservation, unchanged in five fields, is refused or pauses it just so; any other leaves everything alone without an error |
| `Commits.EditIsValid` | bench/fleet_pending.py:300-316 | a change is refused exactly for an experiment's command or directory, an estimate below a minute, or a note with a separator, newline, return or NUL |
| `Commits.EditEdits` | bench/fleet_pending.py:343-370 | an edit that is not refused found the validated record; it leaves the asked values, one revision on, with the replaced ones added to the history, and a row (saved or queued) of the new estimate and note; identity, state, kind and reason stay |
| `Handover.SaveRefusal` | bench/fleet_pending.py:140-159 | a save is refused exactly when a park must be added to a full index or another supervisor has the ticket |
| `Handover.SaveIndexes` | bench/fleet_pending.py:145-159 | after a save the index names the session if and only if the record is a valid park, and the others as before |
| `Handover.SaveLists` | bench/fleet_pending.py:132-137 | the ticket comes first in its session's list, before the others in their order, a thousand in all; other lists stay |
| `Handover.TransitionMoves` | bench/fleet_pending.py:383-392 | only the process that the record names, by pid and start token, moves it; the state alone changes |
| `Handover.OnwardAnswer` | bench/fleet_boot.py:264 | where an owner's record may go from each state |
| `Handover.RegisterRecords` | bench/fleet_pending.py:172-196 | a registration that is not refused had one row of its own process and no hold; the new record has the row's ticket, time, estimate and note and the supervisor's command, at revision 1, and nothing visible beside it changes |
| `Handover.ParkedRowAnswer` | bench/fleet_pending.py:41-49 | a saved row counts exactly if its ticket, session, enqueue time and pid are the record's |
| `Handover.AdmissionAdmits` | bench/fleet_handoff.py:135-171 | refused exactly for a paused session; else the lane's holder names session and process with the record's estimate and note where the record speaks and the row's otherwise, the fleet's lane drops the debt, the session leaves the queue and the marks, and no record changes |
| `Handover.LaneAnswer` | bench/fleet.sh:761-847 | checks have the check lane, single tickets any lane of their pool, everything else the fleet's |
| `Handover.InspectAnswer` | bench/fleet_pending.py:199-218 | which tickets are open to pause and edit, said of the files: live and waiting, with its own single row and no hold, or once parked, paused or rowless, unconflicted, and not the fleet's holder |
| `Handover.ReconcileAnswer` | bench/fleet_pause.py:53-90 | when reconcile refuses, finishes and has nothing to do |
| `Handover.ReconcileRows` | bench/fleet_pause.py:83-90 | reconcile changes the queue alone: a paused ticket's row goes, a resumed one's saved row stays where it is or comes last |
| `Handover.UpgradeAnswer` | bench/fleet_pause.py:71-81 | a pause written in place is upgraded exactly with one row of the record's ticket, pid and enqueue time, which moves to the record under its estimate and note |
| `FleetDirectory.Controller.SaveRecord` | bench/fleet_pending.py:140-159 | carries out `SavePlan`'s replacements in order, as many as the process lives for, and ends or dies accordingly |
| `FleetDirectory.Controller.Archive` | bench/fleet_pending.py:120-137 | refuses another supervisor's ticket, else replaces the ticket record and then the bounded ticket list |
| `FleetDirectory.Controller.Project` | bench/fleet_pause.py:83-90 | refuses a conflicting or doubled row, else makes the one queue replacement that is needed, if any |
| `FleetDirectory.Controller.ReconcileSession` | bench/fleet_pause.py:53-90 | carries out `ReconcilePlan`: codes 0 and 1, the refusals, the upgrade |
| `FleetDirectory.Controller.SetPaused` | bench/fleet_pause.py:100-123 | carries out `SetPausedPlan`: record, row, offer and marks, in that order |
| `FleetDirectory.Controller.Pause` | bench/fleet_pause.py:144-149 | carries out `PausePlan`, refusing a stale expected revision; what it leaves is `PausePauses` |
| `FleetDirectory.Controller.PauseFailed` | bench/fleet_pause.py:126-141 | pauses only the queued reservation that was checked, unchanged in ticket, process, revision and manifest |
| `FleetDirectory.Controller.CommitResume` | bench/fleet_pause.py:171-180 | refuses unless the record is the validated one, else carries out the resume's save and projection; what they leave is `ResumeResumes` |
| `FleetDirectory.Controller.CommitEdit` | bench/fleet_pending.py:343-370 | refuses unless the record is the validated one, else saves the edited record and projects it, through the parked row or in place; what that leaves is `EditEdits` |
| `FleetDirectory.Controller.Transition` | bench/fleet_pending.py:383-392 | refuses anyone but the supervisor that the record names |
| `FleetDirectory.Controller.Register` | bench/fleet_pending.py:172-196 | refuses without its own single unadmitted row, archives an earlier ticket's record first, then saves revision 1 |
| `FleetDirectory.Controller.Admit` | bench/fleet_handoff.py:135-171 | refuses a parked session, else writes the holder with the record's metadata where the record speaks, drops the debt in the fleet lane, and dequeues |
| `FleetDirectory.Controller.Dequeue` | bench/fleet.sh:734-741 | drops the session's rows and then its priority marks |
| `FleetDirectory.Controller.Parked` | bench/fleet_pause.py:30-41 | discovery returns exactly the live valid parks, each once; a stale index entry yields nothing |
| `AdmissionSafety.HeldIsClosed` | bench/fleet_pending.py:162-169 | a record held in the fleet's lane, or elsewhere and neither paused nor ever parked, is closed to pause, resume and edit; at most a reconcile gives an earlier controller's pause its saved row |
| `AdmissionSafety.OperationStep` | bench/fleet_pause.py:53-180 | any operation cut at any point keeps the protocol's invariant |
| `AdmissionSafety.AdmitStep` | bench/fleet.sh:761-847 | so does an admission cut at any point; from the holder's replacement on, the GO of a waiting supervisor is recorded with whatever record its session has |
| `AdmissionSafety.RegisterStep` | bench/fleet_pending.py:172-196 | so does a registration |
| `AdmissionSafety.StepKeeps` | bench/fleet_handoff.py:135-171 | every step keeps the invariant and lets records only stay, become later versions, or be newly registered |
| `AdmissionSafety.ExecutedIsGranted` | bench/fleet_boot.py:343-357 | in every reachable state a supervisor executes its own record and owned it at GO; the ticket, revision, command, directory and manifest are those its record held when the lane's holder was written, always in the fleet's lane and elsewhere for records not paused and never parked |
| `Linearizability.CommitIsAtomic` | bench/fleet_pending.py:343-346 | if an edit or resume commits, the session's record was the validated one in every state since it was read: no update is lost |
| `Linearizability.CommitRaisesRevision` | bench/fleet_pending.py:347-356 | a finished commit has replaced exactly that record, by one of the next revision and the same identity |
| `Linearizability.VersionsOnlyGrow` | bench/fleet_pause.py:171-180 | over a whole run a session's record is kept, replaced by a later version of the same identity, or by a new supervisor's registration |
| `CheckedPauses.FailedCheckIsAtomic` | bench/fleet_pause.py:126-141 | over every run: a failed check saves a pause if and only if the session's record is the queued one that the check read, still live and queued in its one row; then it was that record in every state since, so an older check never pauses a newly edited reservation, although only five fields are compared |
| `CheckedPauses.PauseExpects` | bench/fleet_pause.py:144-149 | over every run: a pause accepted with a revision read earlier acts on the reservation that was read if and only if no other supervisor has registered since; and then on the very record, unless that was paused already |
| `CheckedPauses.PauseHitsSuccessor` | bench/fleet_pause.py:144-149 | a run of two registrations in which a pause that expects the first one's revision pauses the second |
| `RecordHistory.RunsAreModern` | bench/fleet_pending.py:140-159 | in every reachable state each record can be paused, has its row if it is paused, and is in the history under its own supervisor |
| `Linearizability.OpenAfterAdmission` | bench/fleet_pending.py:199-218 | after GO a queued ticket can still be inspected for an edit if and only if it was once parked under the current protocol and the fleet's holder does not name its session |
| `Linearizability.EditsAfterOtherGo` | bench/fleet_pending.py:199-218 | so in a one-GPU lane an edit of a once-parked ticket's command after GO is accepted and saved, still queued |
| `Linearizability.EditedAfterGo` | bench/fleet_boot.py:343-348 | from any safe state with such a granted, unstarted ticket, reading it, committing an edit and starting are possible in turn, and the supervisor executes the new command |
| `LaterWork.StartMayDiffer` | bench/fleet_pending.py:199-218 | in every reachable state, for a granted, unstarted supervisor whose own live record is waiting: some continuation starts other work than the record says now if and only if the supervisor holds neither the fleet's lane nor, with a record that is not paused and was never parked, another lane |
| `ExperimentStore.Store.State` | bench/experiments.py:230-242 | one state change and its event; refused for an unknown job and for a retired one; `running` sets the start for good |
| `ExperimentStore.Store.CheckDependencies` | bench/experiments.py:255-262 | accepts exactly existing prerequisites of the same revision with the same pinned inputs |
| `ExperimentStore.Store.FindLatest` | bench/experiments.py:263-264 | finds the newest job of the fingerprint, or that there is none |
| `ExperimentStore.Store.Submit` | bench/experiments.py:247-278 | joins, reuses or inserts, subscribes the session and drops its withdrawal, as `SubmissionAnswer` says of `Submission` on the tables; a refusal changes nothing |
| `ExperimentStore.Store.SubmitMany` | bench/experiment_submission.py:91-99 | publishes the whole batch or nothing |
| `ExperimentStore.Store.Reuse` | bench/experiment_submission.py:44-64 | succeeds from the cache exactly when the job never started, is no repeat, and its prerequisites have all succeeded |
| `ExperimentStore.Store.Consumers` | bench/experiment_retirement.py:12-24 | returns exactly the subscribers that have not withdrawn and the live jobs that declare or share the job |
| `ExperimentStore.Store.Retire` | bench/experiment_retirement.py:46-70 | records the withdrawal and retires exactly when nobody needs the job and it never ran |
| `ExperimentStore.Store.Used` | bench/experiment_resources.py:145 | the two sums over the leases |
| `ExperimentStore.Store.Head` | bench/experiment_resources.py:143 | the one waiter of the lowest ticket |
| `ExperimentStore.Store.Acquire` | bench/experiment_resources.py:112-153 | refused exactly for a request larger than the pool; else reclaims dead rows, keeps or hands out a ticket, and grants exactly to the head with room and host memory, as `AcquireAnswer` says of `Acquired` on the tables |
| `ExperimentStore.Store.Leave` | bench/experiment_resources.py:213-219 | removes the job's waiter, and its lease if it was acquired |
| `ExperimentStore.Store.PollDependencies` | bench/experiments.py:447-473 | stops, blocks, passes or waits, and for which prerequisites |
| `ExperimentStore.Store.EnsureWorker` | bench/experiments.py:336-352 | launches for a waiting state, marks any other open state interrupted, does nothing to a finished or locked job |
| `Transactions.StateAnswer` | bench/experiments.py:230-242 | which state changes are refused, and that one changes the row's state, its start if it is `running`, its result if there is one, and adds its event, and nothing else |
| `Transactions.FittingAnswer` | bench/experiments.py:255-262 | prerequisites fit exactly if each exists, has the same revision, and pins no input otherwise |
| `Transactions.SubmissionAnswer` | bench/experiments.py:254-278 | a fitting submission returns the last job of the payload and leaves all jobs alone if and only if there is one, it is not retired, no repetition is asked for, and it is not a failure to retry; otherwise it makes the new job, queued, unstarted, with `repeat`; the session is subscribed and its withdrawal dropped; joined, reused and submitted are told apart |
| `Transactions.BatchAnswer` | bench/experiment_submission.py:91-99 | in a published batch each entry's job has the entry's payload with exactly its own and the named earlier entries' jobs as prerequisites, and earlier jobs stay |
| `Transactions.ReuseAnswer` | bench/experiment_submission.py:44-60 | all conditions of a reuse, on the tables |
| `Transactions.RetireRefusal` | bench/experiment_retirement.py:48-59 | a withdrawal is refused exactly for one of six reasons |
| `Transactions.RetireAnswer` | bench/experiment_retirement.py:60-66 | the withdrawal is recorded with its event, and the job becomes retired exactly if nobody else asks, no live job needs it, and it neither started nor ended; every other row stays |
| `Transactions.AcquireAnswer` | bench/experiment_resources.py:126-153 | the answer is yes exactly if a live lease is this process's, or nobody holds one for the job, every surviving waiter's ticket is higher, the live leases leave room, and the host has the request and the reserve |
| `Transactions.AcquireLeases` | bench/experiment_resources.py:127-129 | afterwards the leases are the live ones and the grant, if any, with the request's size |
| `Transactions.AcquireWaiters` | bench/experiment_resources.py:130-142 | and the waiters those alive, unfinished and fitting, with the job's own row at its old ticket or the next one, until it is granted |
| `Transactions.LeaveAnswer` | bench/experiment_resources.py:213-219 | exactly the job's waiter goes, and its lease if it was acquired |
| `Transactions.PollAnswer` | bench/experiments.py:447-473 | goes on if and only if all prerequisites succeeded; blocks the job if and only if one ended otherwise; else waits for exactly those not succeeded |
| `Transactions.RecoveryAnswer` | bench/experiments.py:336-352 | launches exactly for the four waiting states with the lock free, and interrupts any other open job with the lock free |
| `WorkerSteps.ReuseStep` | bench/experiment_submission.py:52-64 | reuse writes success with the cached job's result |
| `WorkerSteps.ReadStep` | bench/experiments.py:336-350 | a recovery doubts exactly a job that is queued for the fleet or running |
| `WorkerSteps.WriteStep` | bench/experiments.py:350-352 | and writes `interrupted` whatever the job is by then, unless it is retired |
| `WorkerSteps.EnterStep` | bench/experiments.py:480-494 | a worker enters an open job that has none |
| `WorkerSteps.DieStep` | bench/experiments.py:480-494 | a dying worker takes its process along and leaves its rows |
| `WorkerSteps.WaitStep` | bench/experiments.py:447-451 | without prerequisites it goes on at once, else it waits in that state |
| `WorkerSteps.PollStep` | bench/experiments.py:447-473 | one round: on, blocked and gone, or unchanged |
| `WorkerSteps.SeekStep` | bench/experiments.py:507-513 | it looks for shared evidence exactly with an identity that no built input taints |
| `WorkerSteps.MeetStep` | bench/experiment_sharing.py:22-34 | it joins a busy claim's owner with a dependency row on it, and waits |
| `WorkerSteps.ClaimSteps` | bench/experiment_sharing.py:16-43 | a free claim is taken and signed; a retired job leaves instead |
| `WorkerSteps.SettleStep` | bench/experiments.py:519-547 | a joined failure blocks it, unless it repeats or retries that job; an intact cached success ends it with that result, unless it repeats; else it goes to the queue |
| `WorkerSteps.EnterAnswer` | bench/experiment_resources.py:187 | it enters the pool waiting |
| `WorkerSteps.AcquireStep` | bench/experiment_resources.py:186-196 | an attempt at the pool is the transaction, and a lease moves it on |
| `WorkerSteps.CommitAnswer` | bench/experiment_resources.py:196-197 | the start is committed before the spawn; a retired job gives its rows back and leaves |
| `WorkerSteps.GiveUpAnswer` | bench/experiment_resources.py:189-195 | giving up in the pool drops the waiter and keeps the leases |
| `WorkerSteps.SpawnAnswer` | bench/experiment_resources.py:198-201 | the process is new and alive, and the lease becomes its |
| `WorkerSteps.FinishAnswer` | bench/experiment_resources.py:202-219 | at the end of the command its process and both rows are gone |
| `WorkerSteps.AbortAnswer` | bench/experiment_resources.py:213-219 | so they are after a failure, as far as they were taken |
| `WorkerSteps.PublishAnswer` | bench/experiments.py:433-442 | covered evidence of an identity that no built input taints is cached under the job |
| `WorkerSteps.RecordAnswer` | bench/experiments.py:412-443 | with evidence the job succeeds with it, without it fails |
| `ExperimentDb.LatestIsUnique` | bench/experiments.py:263-264 | creation order decides one newest job |
| `ExperimentDb.SlotsRemove` | bench/experiment_resources.py:145 | the leased sum does not depend on the order of the rows |
| `ExperimentDb.UsageShrinks` | bench/experiment_resources.py:127-129 | deleting leases never raises the sums |
| `ExperimentGraph.MovesKeep` | bench/experiments.py:230-278 | every transaction keeps: prerequisites older and of the same revision, successes earned, retired jobs unstarted |
| `ExperimentGraph.SubmissionExtends` | bench/experiments.py:255-272 | a submission adds at most one queued job whose prerequisites are older, and no state change |
| `ExperimentGraph.BatchExtends` | bench/experiment_submission.py:91-99 | so does a whole batch |
| `ExperimentGraph.RetireMoves` | bench/experiment_retirement.py:46-66 | a retirement changes only its job, and only one that never ran |
| `ExperimentSafety.StepMoves` | bench/experiments.py:402-567 | every step of every worker is one of those transactions; a success is written only with all prerequisites' successes in the log |
| `ExperimentSafety.GraphIsAcyclic` | bench/experiments.py:255-259 | in every reachable state a chain of prerequisites ends at a strictly older job of the same revision: no cycles |
| `ExperimentSafety.SuccessIsEarned` | bench/experiments.py:447-473 | in every reachable state each success in the log comes after a success of every declared prerequisite, on all three paths |
| `ExperimentSafety.RetiredNeverRuns` | bench/experiment_resources.py:186-197 | over every run, retirement is final and excludes a start and a spawn, in either order |
| `ExperimentPool.CapacityHolds` | bench/experiment_resources.py:126-153 | in every reachable state leased slots and memory are within the pool, and rows belong to their own live worker, a command, or a dead process |
| `ExperimentPool.LeaseGoesToHead` | bench/experiment_resources.py:143-151 | a lease is granted, or granted again in place of a dead process's, only in an acquire of its own job, whose ticket then precedes every other live waiter's |
| `ExperimentPool.TicketKept` | bench/experiment_resources.py:140-142 | a live waiter keeps its ticket across retries and everybody else's steps |
| `ExperimentPool.WaiterKeepsPlace` | bench/experiment_resources.py:126-153 | so it does through any stretch of a run in which its worker stays in the queue |
| `ExperimentPool.NeverOvertaken` | bench/experiment_resources.py:126-153 | during that stretch every lease granted to another job goes to an earlier ticket, a lease granted anew in place of its own dead one included: later arrivals never pass |
| `ExperimentProgress.ClaimsKept` | bench/experiment_sharing.py:8-43 | every step keeps: claims are taken after the prerequisites, held to the end, one owner a key |
| `ExperimentProgress.WaitsDescend` | bench/experiments.py:495-513 | whoever waits, waits for something strictly earlier in one fixed order: older prerequisites, then claim owners, then lower tickets, then leases |
| `ExperimentProgress.NoCircularWait` | bench/experiments.py:447-513 | in no reachable state does a chain of waiting over prerequisites, claims and tickets return to its beginning |
| `ExperimentProgress.PoolingGrants` | bench/experiment_resources.py:143-153 | with nothing live before it and enough host memory a request that fits the pool is granted |
| `ExperimentProgress.NoDeadlock` | bench/experiments.py:447-567 | in every reachable state each worker waits, through some chain, for a job whose own work can go on now, without a death or an abort: its worker can start if it waits for one, get to a later stage or be done, a recovery can end a job that lost its worker in the middle, or a leftover command can end |
| `ExperimentLapse.RetiredWhenUnneeded` | bench/experiment_retirement.py:60-64 | a job becomes retired only in a retirement of it that leaves no active subscriber and no live dependent, unstarted and unfinished |
| `ExperimentLapse.OneClaimOwner` | bench/experiment_sharing.py:19-21 | in every reachable state at most one live worker owns an identity key |
| `ExperimentLapse.SuccessLasts` | bench/experiments.py:336-352 | at each step of a run a success stays recorded if and only if the step is not the late write of a recovery that doubted the job earlier |
| `ExperimentLapse.UndoubtedSuccessStays` | bench/experiments.py:336-352 | over every run a success that no recovery doubts stays recorded for good |
| `ExperimentRace.SuccessCanLapse` | bench/experiments.py:341-352 | a concrete run of thirteen steps in which a recorded success is overwritten by `interrupted` |
| `Shards.ShardAssignment` | bench/cpu_unittest.py:59-70 | every id lands in a shard as often as given; without usable timings, round robin; with them, the tests in descending weight and then by name go one by one to the least shard, each shard is listed by name, and the longest is at most 4/3 - 1/(3 workers) times the longest of any other assignment |
| `Shards.LeastLoaded` | bench/cpu_unittest.py:67 | the index of the least load, then of the fewest tests, then the first |
| `Shards.WeightsAnswer` | bench/cpu_unittest.py:55-64 | a usable timing (positive, at most a day) is its test's own weight; all other tests share one weight, the middle of the usable timings in order: the middle one, or the midpoint of the two |
| `Shards.MedianIsMiddle` | bench/cpu_unittest.py:63 | the median of any timings is that middle |
| `Shards.RoundRobinAnswer` | bench/cpu_unittest.py:61 | round robin gives shard i the ids at i, i + workers and so on, in order |
| `Shards.GreedyIsNearlyBest` | bench/cpu_unittest.py:64-69 | the greedy result against one arbitrary rival partition |
| `Shards.PartitionIsPlacement` | bench/cpu_unittest.py:65-69 | any partition of the tests is a placement with the same shard durations |
| `Shards.MembersPartition` | bench/cpu_unittest.py:65-69 | placing every test on some shard loses and doubles none |
| `Shards.AcceptedPlanRunsEachTestOnce` | bench/cpu_unittest.py:159-168 | under an accepted plan each test is selected by exactly one shard, once |
| `Shards.PlanShards` | bench/cpu_unittest.py:59-70 | the parent's plan for distinct ids is one that its shard children accept |
| `Balancing.LongestFirstBound` | bench/cpu_unittest.py:64-69 | longest-first greedy placement is within 4/3 - 1/(3m) of any other placement's busiest machine |
| `Balancing.LoadsAddUp` | bench/cpu_unittest.py:65-69 | the loads add up to the jobs |
| `FleetPriority.Rank` | bench/fleet_priority.py:103-149 | a malformed row is an error, otherwise the result is the ranking, whose order is `RankedOrder` |
| `FleetPriority.FillBatch` | bench/fleet_priority.py:124-130 | the batch loop stops at the first ticket past the cap |
| `FleetPriority.SmallAnswer` | bench/fleet_priority.py:126 | a lane's small tickets are its rows marked small, each as often as queued |
| `RankingOrder.RankedOrder` | bench/fleet_priority.py:131-149 | of any two ranked tickets the first stands in no later class of yielded, front, starved, batched, aged, the rest, ineligible probes; within starved, batched and aged it is older, within the rest its score is higher, and ties go by place in the queue; said on the lines alone |
| `RankingOrder.HigherScoreFirst` | bench/fleet_priority.py:110-141 | so of two fresh tickets the one with the greater (1 + dependents) / estimate + age / 1800, to four places, is ranked first |
| `RankingOrder.RowAnswer` | bench/fleet_priority.py:105-121 | a ranked row shows its line's age, estimate, score, lane and size |
| `RankingOrder.RoundAnswer` | bench/fleet_priority.py:113 | rounding goes to the nearest integer, and from the middle to the even one |
| `FleetPriority.RankingIsPermutation` | bench/fleet_priority.py:103-149 | the ranking holds each queue line once and ascends by key |
| `FleetPriority.RankedRow` | bench/fleet_priority.py:105-146 | each ranked row is its own line with its age, lane and key |
| `FleetPriority.BatchIsOldestPrefix` | bench/fleet_priority.py:122-130 | for any cap, a lane's batch is a prefix of its small tickets in order of age and then of place in the queue, as long as fits and within the cap unless it is empty |
| `FleetPriority.OnlyOlderPass` | bench/fleet_priority.py:131-149 | only marked tickets and starved tickets no younger are ranked before a starved, eligible one |
| `FleetPriority.TurnRemovesOlder` | bench/fleet_priority.py:131-149 | an unmarked turn of its lane removes a ticket no younger than it; only a returning ticket adds one |
| `FleetPriority.StarvedWaitIsBounded` | bench/fleet_priority.py:103-149 | over every run a ticket that stays starved and eligible waits fewer unmarked turns of its lane than there were tickets no younger at the start and have joined since, resumed or in the place of another |
| `Dependents.Closure` | bench/fleet_priority.py:93-99 | the worklist ends with exactly the jobs reachable from the root, cycles included |
| `Dependents.Downstream` | bench/fleet_priority.py:75-100 | counts exactly the distinct transitive dependents of every job |
| `ImportGraph.Search` | bench/feedback.py:165-182 | round by round, exactly the reachable files with their shortest distances, in the graph where named files are leaves |
| `ImportGraph.ImportIndex.Reach` | bench/feedback.py:165-182 | the memoised search returns that map, and remembers it and nothing else |
| `ImportGraph.NamedFilesBlock` | bench/feedback.py:170-181 | everything that imports lead to is found if and only if, in the graph where named files are leaves, what the named, also imported files import is reachable |
| `ImportGraph.ImportedFileIsMissed` | bench/feedback.py:170-181 | a check, a file that it both names and reaches through an import, and an import of that file that is missed |
| `MinimalCores.CombinationMember` | bench/onepass_quality.py:162 | the tuples of a size are exactly the increasing index tuples |
| `MinimalCores.CombinationsDiffer` | bench/onepass_quality.py:162 | and each is listed once |
| `MinimalCores.SmallestCore` | bench/onepass_quality.py:160-166 | in a nonempty universe every contradictory set includes a minimal core |
| `MinimalCores.FindCores` | bench/onepass_quality.py:160-166 | the pruned search by size returns exactly the minimal contradictory sets, each once |
| `MinimalCores.ContradictoryIffCoreIncluded` | bench/onepass_quality.py:160-166 | a set of rules is contradictory if and only if it includes a listed core |
| `MinimalCores.LogicCore` | bench/onepass_quality.py:135-137 | over all 64 worlds the six rules have the one minimal core U1, U2, U3, U4, U6 |
| `MinimalCores.LogicCores` | bench/onepass_quality.py:160-166 | so the computed list is that core alone |
| `MinimalCores.FourWorlds` | bench/onepass_quality.py:135-146 | exactly four of the 64 worlds satisfy the first five rules, and the sixth forbids the first variable |
| `Json.DumpsIsInjective` | bench/onepass_quality.py:262 | the sort key tells different values apart, strings, escapes and numbers included |
| `Canonical.SameHasOneForm` | bench/onepass_quality.py:257-264 | reordering arrays, outside `statuses` and `witnesses`, never changes the canonical form |
| `Canonical.EqualFormsAreSame` | bench/onepass_quality.py:257-264 | equal forms come from the same answer, types kept apart, up to the sign of a float zero |
| `Canonical.CanonicalDecides` | bench/onepass_quality.py:257-264 | whichever way the two float zeros count and whatever Python's cross-type number comparison answers: among all values with floats from a given set, forms are equal exactly for the values that are the same up to reordering, if and only if the set lacks one of the zeros |
| `Canonical.PairIsDecided` | bench/onepass_quality.py:257-264 | a pair is decided when one of the zeros is on neither side, or no zero is on the right |
| `Canonical.GradingIsExact` | bench/onepass_quality.py:296 | an answer key without float zeros is matched by exactly its reorderings, arrays under `statuses` and `witnesses` not reordered |
| `Canonical.OrderedKeys` | bench/onepass_quality.py:257-264 | under `statuses`, and under `witnesses`, two arrays without float zeros have equal forms if and only if they are the same position by position |
| `Canonical.UnorderedKeys` | bench/onepass_quality.py:257-264 | under any other key if and only if some permutation matches them |
| `Canonical.TypesStayApart` | bench/onepass_quality.py:264 | values of different JSON types never have equal forms |
| `Canonical.SignedZeroSortsApart` | bench/onepass_quality.py:262 | two arrays with elementwise equal floats whose forms differ: 0.0 and -0.0 sort apart beside -1.0 |
| `EventStream.Locate` | census.py:30-36 | whatever the reads return, the search stops at the file's first marker, or finds that there is none |
| `EventStream.ScanChunk` | census.py:39-57 | the character loop over one chunk is the scan of its characters |
| `EventStream.IterEvents` | census.py:29-60 | the stream yields what a reader of the whole text would, however the reads split it |
| `EventStream.DocumentEvents` | census.py:36-57 | for any well-formed trace: the array's objects in order, then the objects in what follows the array |
| `EventStream.OnlyTheArray` | census.py:36-57 | exactly the array's objects if and only if no later member holds an object |
| `EventStream.ArrayEvents` | census.py:36-57 | for a printed array (colon, brackets, objects between commas, any white space): exactly those objects' texts in order, then the objects of later members |
| `EventStream.QuotedPasses` | census.py:41-44 | a string literal passes whatever braces, backslashes and escaped quotes it holds |
| `Acceptance.CheckGroup` | bench/step_acceptance.py:101-117 | the checks of one group accept exactly its valid changes |
| `Acceptance.LengthAnswer` | bench/step_acceptance.py:78-87 | which draft length applies: scrapes with one positive length, equal to a given one; else the given one |
| `Acceptance.CountedAnswer` | bench/step_acceptance.py:94-101 | a counter family absent from both scrapes counts nothing; else a group's count is its change, never negative |
| `Acceptance.TokensAreReached` | bench/step_acceptance.py:101-113 | a group's accepted tokens are the rows that reached each position, added up |
| `Acceptance.ComputeHistogram` | bench/step_acceptance.py:68-119 | accepts exactly the valid intervals and returns their change bin by bin |
| `Acceptance.IntervalsJoin` | bench/step_acceptance.py:122-128 | two valid adjacent intervals make one valid interval |
| `Acceptance.EndpointsTelescope` | bench/step_acceptance.py:122-128 | so do any number, and the endpoint histogram is the sum of theirs |
| `Acceptance.HistogramFromSamples` | bench/step_acceptance.py:122-128 | accepts exactly two or more scrapes whose adjacent intervals are all valid, and returns that sum over the draft length's positions, or up to the last bin that either endpoint names |
| `Acceptance.SurvivorsSum` | bench/step_acceptance.py:139-147 | summation by parts over the first positions |
| `Acceptance.ComputeProfile` | bench/step_acceptance.py:131-149 | positions count the survivors; accepted rows over positions equal accepted tokens; the raw acceptance is their share of the positions drafted |
| `Acceptance.RawIsAverage` | bench/step_acceptance.py:131-149 | the raw acceptance is the average of the cumulative rates over the positions |
| `Acceptance.CumulativeFalls` | bench/step_acceptance.py:144 | the cumulative rate never rises |
| `Acceptance.CumulativeIsChain` | bench/step_acceptance.py:144-145 | it is the product of the conditional rates wherever those are defined |
| `PrefillFit.Points` | bench/step_kernels.py:227-233 | the complete rows become points; one incomplete row stops the fit |
| `PrefillFit.PointAnswer` | bench/step_kernels.py:224-233 | which rows are complete: positive chunks, a positive time, and positive tokens of the row or else of the profile |
| `PrefillFit.GuardAnswer` | bench/step_kernels.py:240-242 | the guard: the determinant exceeds one part in 10^12 of the product of the squared columns |
| `PrefillFit.FoldPrefill` | bench/step_kernels.py:211-248 | takes a saved fit as it is; otherwise returns a fit exactly when the rows have one with sensible costs, and it is their unique minimiser |
| `PrefillFit.SolveMinimises` | bench/step_kernels.py:234-242 | the closed form is the unique minimiser of the squared error over all real pairs |
| `PrefillFit.DeterminantIsNonnegative` | bench/step_kernels.py:239 | Cauchy-Schwarz |
| `PrefillFit.DependentIsRefused` | bench/step_kernels.py:239-241 | proportional columns never pass the guard |
| `PrefillFit.ExactDataIsRecovered` | bench/step_kernels.py:242 | exactly linear data give back their own costs |
| `DraftModel.ExpectedSum` | bench/step_sim.py:137 | the loop's sum is the expectation |
| `DraftModel.ExpectedIsGeometric` | bench/step_sim.py:129-137 | the expected accepted count is the sum of the first k powers of q |
| `DraftModel.ExpectedRises` | bench/step_sim.py:134-141 | it rises strictly for k at least 1, by at most k(k+1)/2 times the difference |
| `DraftModel.PerPositionAcc` | bench/step_sim.py:126-142 | an attainable target is met within k(k+1)/2 times 2^-61; any other leaves q within 2^-61 of the nearer end |
| `DraftModel.ToleranceIs` | bench/step_sim.py:134-141 | that bound, the rate of the expectation times half of the last interval, is k(k+1)/2 times 2^-61 |
| `DraftModel.HalfIsPower` | bench/step_sim.py:134-141 | where 2^-n is what n doublings bring back to one |

## Left out

- Reservation records: timestamps, `phase`, log paths, environment and host fields are not modelled, so a change of those alone does not disturb a reader here, while the code refuses the commit.
- Malformed directories: short or unreadable queue rows, damaged JSON, the index's byte limit, file modes and symbolic links are not modelled; a row has its seven columns and a record its fields.
- A forced kick or a hand-made release of a live hold, and a lease that is lost while its holder lives, are outside the protocol; both reopen edits before start.
- Remote and environmental evidence at admission (ssh, containers, the fleet lease, host memory, preparation checks) enters only as which steps are taken.
- `offer`, `successor` and `clear` of restore debt: only the withdrawal of an offer by a pause is modelled.
- Experiments: result contents beyond artifacts, passed and covered, run logs, timings, deliveries, retry bookkeeping and legacy GPU jobs are not modelled; a retry is a submission with `retry_failed`, its `retried` answer a parameter.
- Experiments: a withdrawal's reason stands for its text without surrounding white space, and a repetition is asked for or not.
- Reservation records keep the pause reason as it is given; the cut to 4000 characters is not modelled.
- Deadlines only abort: a worker in the pool may give up at any time, and any worker may fail at any time.
- Progress assumes that a running command ends and that the host has the memory a granted request asks for.
- ExperimentProgress.NoDeadlock: says that some work can always go on, with `Settle`'s answers and the free host memory chosen for it, not that a fair scheduler lets every job finish.
- Floats are reals: rounding, infinities and NaN are not modelled in `Shards`, `FleetPriority`, `Acceptance`, `PrefillFit` and `DraftModel`; `round` in ages is kept.
- JSON strings with lone surrogates and non-finite numbers are not modelled; a float is its printed text.
- `EventStream` stops at the object texts; `json.loads` of each and gzip decoding are not modelled.
- Sampling, rendering and grading around the minimal cores (`_ledger`, `_portfolio`, the rest of `assess`) are left out: the witness check compares each field with a constant.
- `Graph.eager` is another closure over imports, like `Dependents.Closure`; `CostModel.decode_ms_for_ctx`, `prefill_ms` and the clamps are single formulas. None is modelled.
- Output capture, signals, receipts, pins and command lines are left out.
