/**
 Any number of workers over one store. Each step is one transaction, one file lock operation, or one process
 event; between steps anything else may happen, and any process may die.
 */
module ExperimentRuns {
  import opened Wrappers
  import opened ExperimentDb

  /** Where a worker is; it holds its job's worker lock all the time. */
  datatype Stage =
    | Entering
    | Depending
    | Ready
    | Claiming(joined: Option<JobId>)
    | Claimed(joined: Option<JobId>)
    | Owning(joined: Option<JobId>)
    | Dispatched
    | Pooling
    | Leased
    | Launching
    | Executing(proc: nat)
    | Ended(evidence: Option<Evidence>)

  /** `holds` is the evidence claim whose lock this worker has. */
  datatype Worker = Worker(pid: nat, stage: Stage, holds: Option<Key>)

  /** `ensure_worker` between its lock probe, its read of the state, and its write. */
  datatype Recovery = Probed(job: JobId) | Doubting(job: JobId)

  /** `owners` is what the claim files say; `used` are the process ids handed out so far. */
  datatype System = System(db: Db, policy: Policy, workers: map<JobId, Worker>, owners: map<Key, JobId>,
                           recoveries: map<nat, Recovery>,
                           alive: set<nat>, used: set<nat>, spawned: set<JobId>)

  datatype Step =
    | Submit(session: Session, payload: Payload, repeat: bool, retryFailed: bool, newId: JobId)
    | SubmitBatch(session: Session, requests: seq<Request>, repeat: bool, newIds: seq<JobId>)
    | Reuse(job: JobId)
    | Retire(session: Session, job: JobId, replacement: JobId, reason: string)
    | Probe(recoverer: nat, job: JobId)
    | Read(recoverer: nat)
    | Write(recoverer: nat)
    | Enter(job: JobId, pid: nat)
    | Wait(job: JobId)
    | Poll(job: JobId)
    | Seek(job: JobId)
    | MeetOwner(job: JobId)
    | Take(job: JobId)
    | Sign(job: JobId)
    | Settle(job: JobId, retried: bool, intact: bool)
    | EnterPool(job: JobId)
    | Acquire(job: JobId, free: nat)
    | GiveUp(job: JobId)
    | Commit(job: JobId)
    | Spawn(job: JobId, pid: nat)
    | Rebind(job: JobId)
    | Finish(job: JobId, outcome: Option<Evidence>)
    | Abort(job: JobId)
    | Publish(job: JobId)
    | Record(job: JobId)
    | Die(job: JobId)
    | Exit(pid: nat)

  // ---- helpers

  predicate Locked(s: System, key: Key) {
    exists j :: j in s.workers && s.workers[j].holds == Some(key)
  }

  function Gone(s: System, job: JobId): System {
    s.(workers := s.workers - {job})
  }

  function To(s: System, job: JobId, stage: Stage): System
    requires job in s.workers
  {
    s.(workers := s.workers[job := s.workers[job].(stage := stage)])
  }

  /** A state change and the stage it leads to; a retired job ends its worker. */
  function StateTo(s: System, job: JobId, state: JobState, stage: Stage): System
    requires job in s.workers
  {
    match SetState(s.db, job, state, None)
    case Ok(db) => To(s.(db := db), job, stage)
    case Err(_) => Gone(s, job)
  }

  /** A last state change. */
  function StateGone(s: System, job: JobId, state: JobState, result: Option<Evidence>): System {
    match SetState(s.db, job, state, result)
    case Ok(db) => Gone(s.(db := db), job)
    case Err(_) => Gone(s, job)
  }

  predicate In(s: System, job: JobId) {
    job in s.workers && job in s.db.jobs
  }

  function KeyOf(s: System, job: JobId): Option<Key>
    requires job in s.db.jobs
  {
    s.db.jobs[job].payload.key
  }

  predicate InPool(stage: Stage) {
    stage.Pooling? || stage.Leased? || stage.Launching? || stage.Executing?
  }

  predicate HasLease(stage: Stage) {
    stage.Leased? || stage.Launching? || stage.Executing?
  }

  /** The shared check that this job joined did not pass. */
  predicate JoinFailed(s: System, job: JobId, joined: Option<JobId>, retried: bool)
    requires job in s.db.jobs
  {
    joined.Some? && joined.value in s.db.jobs && s.db.jobs[joined.value].payload.key == KeyOf(s, job)
    && Terminal(s.db.jobs[joined.value].state) && s.db.jobs[joined.value].state != Succeeded
    && !s.db.jobs[job].repeat && !retried
  }

  ghost predicate Enabled(s: System, step: Step) {
    match step
    case Submit(_, _, _, _, newId) => newId !in s.db.jobs
    case SubmitBatch(_, requests, _, newIds) => |newIds| == |requests| && NewIds(s.db, newIds)
    case Reuse(job) => job in s.db.jobs && job !in s.workers && Reusable(s.db, job, true)
    case Retire(session, job, replacement, reason) => RetireError(s.db, session, job, replacement, reason).None?
    case Probe(r, job) => r !in s.recoveries && job in s.db.jobs && job !in s.workers && !Terminal(s.db.jobs[job].state)
    case Read(r) => r in s.recoveries && s.recoveries[r].Probed? && s.recoveries[r].job in s.db.jobs
    case Write(r) => r in s.recoveries && s.recoveries[r].Doubting?
    case Enter(job, pid) => job in s.db.jobs && job !in s.workers && !Terminal(s.db.jobs[job].state) && pid !in s.used
    case Wait(job) => In(s, job) && s.workers[job].stage.Entering?
    case Poll(job) => In(s, job) && s.workers[job].stage.Depending? && forall d :: d in s.db.jobs[job].payload.deps ==>
        d in s.db.jobs
    case Seek(job) => In(s, job) && s.workers[job].stage.Ready?
    case MeetOwner(job) =>
      In(s, job) && s.workers[job].stage.Claiming? && KeyOf(s, job).Some? && Locked(s, KeyOf(s, job).value)
      && KeyOf(s, job).value in s.owners && Some(s.owners[KeyOf(s, job).value]) != s.workers[job].stage.joined
    case Take(job) =>
      In(s, job) && s.workers[job].stage.Claiming? && KeyOf(s, job).Some?
      && (s.db.jobs[job].state == Retired || !Locked(s, KeyOf(s, job).value))
    case Sign(job) => In(s, job) && s.workers[job].stage.Claimed? && KeyOf(s, job).Some?
    case Settle(job, _, _) => In(s, job) && s.workers[job].stage.Owning?
    case EnterPool(job) => In(s, job) && s.workers[job].stage.Dispatched?
    case Acquire(job, _) => In(s, job) && s.workers[job].stage.Pooling? && !TooLarge(s.db.jobs[job].payload, s.policy)
    case GiveUp(job) => In(s, job) && s.workers[job].stage.Pooling?
    case Commit(job) => In(s, job) && s.workers[job].stage.Leased?
    case Spawn(job, pid) => In(s, job) && s.workers[job].stage.Launching? && pid !in s.used
    case Rebind(job) => In(s, job) && s.workers[job].stage.Executing? && job in s.db.leases
    case Finish(job, _) => In(s, job) && s.workers[job].stage.Executing?
    case Abort(job) => In(s, job) && !s.workers[job].stage.Ended?
    case Publish(job) =>
      In(s, job) && s.workers[job].stage.Ended? && s.workers[job].stage.evidence.Some?
      && s.workers[job].stage.evidence.value.covered
      && KeyOf(s, job).Some? && CacheableDependencies(s.db, s.db.jobs[job].payload)
    case Record(job) => In(s, job) && s.workers[job].stage.Ended?
    case Die(job) => job in s.workers
    case Exit(pid) => pid in s.alive && forall j :: j in s.workers ==> s.workers[j].pid != pid
  }

  /** The deadline, or a retirement seen while waiting for the pool. */
  function LeavePool(s: System, job: JobId): System
    requires In(s, job)
  {
    var left := s.(db := LeftPool(s.db, job, false));
    if s.db.jobs[job].state == Retired then Gone(left, job) else To(left, job, Ended(None))
  }

  /** Requests, retirements and recovery. */
  predicate ByClient(step: Step) {
    step.Submit? || step.SubmitBatch? || step.Reuse? || step.Retire? || step.Probe? || step.Read? || step.Write?
  }

  /** A worker on its way to the pool. */
  predicate OnTheWay(step: Step) {
    step.Enter? || step.Wait? || step.Poll? || step.Seek? || step.MeetOwner? || step.Take? || step.Sign? || step.Settle?
  }

  ghost function NextForClient(s: System, step: Step): System
    requires ByClient(step) && Enabled(s, step)
  {
    match step
    case Submit(session, p, repeat, retryFailed, newId) =>
      var done := Submission(s.db, session, p, repeat, retryFailed, newId);
      if done.None? then s else s.(db := done.value.0)
    case SubmitBatch(session, requests, repeat, newIds) =>
      var done := Batch(s.db, session, requests, repeat, newIds, |requests|);
      if done.None? then s else s.(db := done.value.0)
    case Reuse(job) => s.(db := SetState(s.db, job, Succeeded, s.db.jobs[s.db.cache[KeyOf(s, job).value]].result).value)
    case Retire(session, job, replacement, reason) => s.(db := RetiredDb(s.db, session, job, replacement, reason))
    case Probe(r, job) => s.(recoveries := s.recoveries[r := Probed(job)])
    case Read(r) =>
      var job := s.recoveries[r].job;
      if Terminal(s.db.jobs[job].state) || AwaitsWorker(s.db.jobs[job].state) then s.(recoveries := s.recoveries - {r})
      else s.(recoveries := s.recoveries[r := Doubting(job)])
    case Write(r) =>
      var done := SetState(s.db, s.recoveries[r].job, Interrupted, None);
      s.(recoveries := s.recoveries - {r}, db := if done.Ok? then done.value else s.db)
  }

  ghost function NextOnTheWay(s: System, step: Step): System
    requires OnTheWay(step) && Enabled(s, step)
  {
    match step
    case Enter(job, pid) => s.(workers := s.workers[job := Worker(pid, Entering, None)], alive := s.alive + {pid},
                               used := s.used + {pid})
    case Wait(job) => if s.db.jobs[job].payload.deps == {} then To(s, job, Ready)
      else StateTo(s, job, WaitingDependencies, Depending)
    case Poll(job) =>
      var polled := Polled(s.db, job);
      (match polled.1
       case Passed => To(s, job, Ready)
       case Stopped => Gone(s.(db := polled.0), job)
       case Pending(_) => s)
    case Seek(job) =>
      if KeyOf(s, job).Some? && CacheableDependencies(s.db, s.db.jobs[job].payload) then To(s, job, Claiming(None))
      else StateTo(s, job, QueuedFleet, Dispatched)
    case MeetOwner(job) =>
      var owner := s.owners[KeyOf(s, job).value];
      StateTo(s.(db := JoinedOwner(s.db, job, owner)), job, WaitingEvidence, Claiming(Some(owner)))
    case Take(job) =>
      if s.db.jobs[job].state == Retired then Gone(s, job)
      else s.(workers := s.workers[job := s.workers[job].(stage := Claimed(s.workers[job].stage.joined),
                                                          holds := KeyOf(s, job))])
    case Sign(job) => To(s.(owners := s.owners[KeyOf(s, job).value := job]), job, Owning(s.workers[job].stage.joined))
    case Settle(job, retried, intact) =>
      if JoinFailed(s, job, s.workers[job].stage.joined, retried) then StateGone(s, job, Blocked, None)
      else if Hit(s.db, KeyOf(s, job)) && !s.db.jobs[job].repeat && intact then
        StateGone(s, job, Succeeded, s.db.jobs[s.db.cache[KeyOf(s, job).value]].result)
      else StateTo(s, job, QueuedFleet, Dispatched)
  }

  ghost function NextInPool(s: System, step: Step): System
    requires !ByClient(step) && !OnTheWay(step) && Enabled(s, step)
  {
    match step
    case EnterPool(job) => StateTo(s, job, WaitingCpu, Pooling)
    case Acquire(job, free) =>
      var done := Acquired(s.db, job, s.workers[job].pid, s.policy, s.alive, free);
      if done.1 then To(s.(db := done.0), job, Leased) else s.(db := done.0)
    case GiveUp(job) => LeavePool(s, job)
    case Commit(job) =>
      (match SetState(s.db, job, Running, None)
       case Ok(db) => To(s.(db := db), job, Launching)
       case Err(_) => Gone(s.(db := LeftPool(s.db, job, true)), job))
    case Spawn(job, pid) => To(s.(alive := s.alive + {pid}, used := s.used + {pid}, spawned := s.spawned + {job}), job,
                               Executing(pid))
    case Rebind(job) =>
      s.(db := s.db.(leases := s.db.leases[job := s.db.leases[job].(pid := s.workers[job].stage.proc)]))
    case Finish(job, outcome) =>
        To(s.(db := LeftPool(s.db, job, true), alive := s.alive - {s.workers[job].stage.proc}), job, Ended(outcome))
    case Abort(job) =>
      var stage := s.workers[job].stage;
      var db := if InPool(stage) then LeftPool(s.db, job, HasLease(stage)) else s.db;
      To(s.(db := db, alive := if stage.Executing? then s.alive - {stage.proc} else s.alive), job, Ended(None))
    case Publish(job) => s.(db := s.db.(cache := s.db.cache[KeyOf(s, job).value := job]))
    case Record(job) =>
      var evidence := s.workers[job].stage.evidence;
      StateGone(s, job, if evidence.Some? then Succeeded else Failed, evidence)
    case Die(job) => Gone(s.(alive := s.alive - {s.workers[job].pid}), job)
    case Exit(pid) => s.(alive := s.alive - {pid})
  }

  ghost function Next(s: System, step: Step): System
    requires Enabled(s, step)
  {
    if ByClient(step) then NextForClient(s, step) else if OnTheWay(step) then NextOnTheWay(s, step)
      else NextInPool(s, step)
  }

  ghost predicate StepAt(run: seq<System>, steps: seq<Step>, i: nat)
    requires i < |steps| && |run| == |steps| + 1
  {
    Enabled(run[i], steps[i]) && run[i + 1] == Next(run[i], steps[i])
  }

  ghost predicate Initial(s: System) {
    s.db == Db(map[], {}, map[], {}, map[], map[], map[], 0, 0, []) && s.workers == map[] && s.owners == map[]
    && s.recoveries == map[]
    && s.alive == {} && s.spawned == {}
  }

  ghost predicate IsRun(run: seq<System>, steps: seq<Step>) {
    |run| == |steps| + 1 && Initial(run[0]) && forall i :: 0 <= i < |steps| ==> StepAt(run, steps, i)
  }
}
