/** The CPU pool over whole runs: capacity, one lease a job, and first come, first served. */
module ExperimentPool {
  import opened Wrappers
  import opened ExperimentDb
  import opened ExperimentRuns
  import opened ExperimentSafety

  ghost predicate WithinCapacity(s: System) {
    SlotsUsed(s.db.leases) <= s.policy.slots && MemoryUsed(s.db.leases) <= s.policy.memory
  }

  ghost predicate TicketsOk(db: Db) {
    && (forall j :: j in db.waiters ==> db.waiters[j].ticket <= db.lastTicket)
    && (forall i, j :: i in db.waiters && j in db.waiters && i != j ==> db.waiters[i].ticket != db.waiters[j].ticket)
  }

  /** A process id is handed out once; each live worker has its own. */
  ghost predicate PidsOk(s: System) {
    && s.alive <= s.used
    && (forall j :: j in s.workers ==> s.workers[j].pid in s.alive)
    && (forall i, j :: i in s.workers && j in s.workers && s.workers[i].pid == s.workers[j].pid ==> i == j)
    && (forall i, j :: i in s.workers && j in s.workers && s.workers[i].stage.Executing? ==>
        s.workers[i].stage.proc in s.used && s.workers[i].stage.proc != s.workers[j].pid)
  }

  /** A waiter's row belongs to its own worker in the pool's queue, or to a process that is gone. */
  ghost predicate WaiterOk(s: System, k: JobId) {
    k in s.db.waiters ==>
      s.db.waiters[k].pid in s.used
      && (s.db.waiters[k].pid in s.alive ==>
          k in s.workers && s.workers[k].pid == s.db.waiters[k].pid && s.workers[k].stage.Pooling?)
  }

  /** A lease's process is its own worker past the queue, a command, or gone. */
  ghost predicate LeaseOk(s: System, k: JobId) {
    k in s.db.leases ==>
      s.db.leases[k].pid in s.used
      && forall j :: j in s.workers && s.workers[j].pid == s.db.leases[k].pid ==> j == k && HasLease(s.workers[j].stage)
  }

  ghost predicate PoolOk(s: System) {
    && WithinCapacity(s) && TicketsOk(s.db) && PidsOk(s)
    && (forall k :: k in s.db.waiters ==> WaiterOk(s, k))
    && (forall k :: k in s.db.leases ==> LeaseOk(s, k))
  }

  // ---- the tables of the pool

  ghost predicate SamePool(a: Db, b: Db) {
    a.leases == b.leases && a.waiters == b.waiters && a.lastTicket == b.lastTicket
  }

  lemma {:induction false} SubmissionKeepsPool(s: System, step: Step)
    requires Enabled(s, step) && IsSubmission(step)
    ensures SamePool(s.db, Next(s, step).db) && Next(s, step) == s.(db := Next(s, step).db)
  {
    match step
    case Submit(_, _, _, _, _) =>
    case SubmitBatch(session, requests, repeat, newIds) =>
        BatchKeepsPool(s.db, session, requests, repeat, newIds, |requests|);
    case Reuse(_) =>
    case Retire(_, _, _, _) =>
  }

  lemma {:induction false} BatchKeepsPool(a: Db, session: Session, requests: seq<Request>, repeat: bool,
                                          newIds: seq<JobId>, n: nat)
    requires n <= |requests| && |newIds| == |requests|
    ensures Batch(a, session, requests, repeat, newIds, n).Some? ==>
              SamePool(a, Batch(a, session, requests, repeat, newIds, n).value.0)
    decreases n
  {
    if n > 0 {
      BatchKeepsPool(a, session, requests, repeat, newIds, n - 1);
    }
  }

  // ---- acquire

  lemma {:induction false} ReclaimedFits(a: Db, policy: Policy, alive: set<nat>)
    ensures SlotsUsed(Reclaimed(a, policy, alive).leases) <= SlotsUsed(a.leases)
    ensures MemoryUsed(Reclaimed(a, policy, alive).leases) <= MemoryUsed(a.leases)
  {
    UsageShrinks(LiveLeases(a, alive), a.leases);
  }

  lemma {:induction false} GrantedUses(db: Db, job: JobId, pid: nat, slots: nat, memory: nat)
    requires job !in db.leases
    ensures SlotsUsed(Granted(db, job, pid, slots, memory).leases) == SlotsUsed(db.leases) + slots
    ensures MemoryUsed(Granted(db, job, pid, slots, memory).leases) == MemoryUsed(db.leases) + memory
  {
    var after := Granted(db, job, pid, slots, memory).leases;
    SlotsRemove(after, job);
    MemoryRemove(after, job);
    assert after - {job} == db.leases;
  }

  lemma {:induction false} AcquireFits(db: Db, job: JobId, pid: nat, policy: Policy, alive: set<nat>, free: nat)
    requires job in db.jobs && SlotsUsed(db.leases) <= policy.slots && MemoryUsed(db.leases) <= policy.memory
    ensures var b := Acquired(db, job, pid, policy, alive, free).0;
            SlotsUsed(b.leases) <= policy.slots && MemoryUsed(b.leases) <= policy.memory
  {
    ReclaimedFits(db, policy, alive);
    var p := db.jobs[job].payload;
    var clean := Reclaimed(db, policy, alive);
    if job !in clean.leases {
      GrantedUses(Enrolled(clean, job, pid, p.slots, p.memory), job, pid, p.slots, p.memory);
    }
  }

  lemma {:induction false} EnrolledTickets(db: Db, job: JobId, pid: nat, slots: nat, memory: nat)
    requires TicketsOk(db)
    ensures TicketsOk(Enrolled(db, job, pid, slots, memory))
  {
  }

  lemma {:induction false} AcquireTickets(db: Db, job: JobId, pid: nat, policy: Policy, alive: set<nat>, free: nat)
    requires job in db.jobs && TicketsOk(db)
    ensures TicketsOk(Acquired(db, job, pid, policy, alive, free).0)
  {
    var p := db.jobs[job].payload;
    var clean := Reclaimed(db, policy, alive);
    assert TicketsOk(clean);
    var waiting := Enrolled(clean, job, pid, p.slots, p.memory);
    EnrolledTickets(clean, job, pid, p.slots, p.memory);
    assert TicketsOk(Granted(waiting, job, pid, p.slots, p.memory));
  }

  lemma {:induction false} LeftFits(db: Db, job: JobId, acquired: bool)
    ensures SlotsUsed(LeftPool(db, job, acquired).leases) <= SlotsUsed(db.leases)
    ensures MemoryUsed(LeftPool(db, job, acquired).leases) <= MemoryUsed(db.leases)
  {
    UsageShrinks(LeftPool(db, job, acquired).leases, db.leases);
  }

  lemma {:induction false} RebindUses(leases: map<JobId, Lease>, job: JobId, pid: nat)
    requires job in leases
    ensures SlotsUsed(leases[job := leases[job].(pid := pid)]) == SlotsUsed(leases)
    ensures MemoryUsed(leases[job := leases[job].(pid := pid)]) == MemoryUsed(leases)
  {
    var after := leases[job := leases[job].(pid := pid)];
    SlotsRemove(after, job);
    SlotsRemove(leases, job);
    MemoryRemove(after, job);
    MemoryRemove(leases, job);
    assert after - {job} == leases - {job};
  }

  // ---- steps

  /** At most this job's worker changes: it moves on or goes, with the process it had. */
  ghost predicate Steers(s: System, x: System, job: JobId) {
    && x.used == s.used && x.alive <= s.alive && x.policy == s.policy
    && (forall j :: j in s.workers && j != job ==> j in x.workers)
    && (forall j :: j in x.workers ==>
        j in s.workers && x.workers[j].pid == s.workers[j].pid && (j != job ==> x.workers[j] == s.workers[j]))
    && (forall j :: j in x.workers ==> x.workers[j].pid in x.alive)
    && (job in x.workers && x.workers[job].stage.Executing? ==> x.workers[job].stage == s.workers[job].stage)
  }

  function JobOf(step: Step): JobId {
    if step.Probe? || step.Read? || step.Write? || step.Exit? || step.SubmitBatch? || step.Submit? then "" else step.job
  }

  lemma {:induction false} SilentSteers(s: System, step: Step)
    requires PidsOk(s) && Enabled(s, step) && IsSilent(step) && !step.Enter? && !step.Spawn?
    ensures Steers(s, Next(s, step), JobOf(step))
  {
    hide Enabled, Next, Steers;
    if step.Probe? || step.Read? {
      RecoverySteers(s, step);
    } else if step.Die? || step.Exit? {
      DeathSteers(s, step);
    } else {
      ClaimSteers(s, step);
    }
  }

  lemma {:induction false} RecoverySteers(s: System, step: Step)
    requires PidsOk(s) && Enabled(s, step) && (step.Probe? || step.Read?)
    ensures Steers(s, Next(s, step), JobOf(step))
  {
    hide NextOnTheWay, NextInPool, AwaitsWorker;
  }

  lemma {:induction false} DeathSteers(s: System, step: Step)
    requires PidsOk(s) && Enabled(s, step) && (step.Die? || step.Exit?)
    ensures Steers(s, Next(s, step), JobOf(step))
  {
    hide NextForClient, NextOnTheWay;
  }

  lemma {:induction false} ClaimSteers(s: System, step: Step)
    requires PidsOk(s) && Enabled(s, step) && (step.Take? || step.Sign?)
    ensures Steers(s, Next(s, step), JobOf(step))
  {
    hide NextForClient, NextInPool, Locked;
  }

  /** One worker changes its stage, or goes, or nothing happens to the workers. */
  ghost predicate Small(s: System, x: System, job: JobId) {
    && x.used == s.used && x.policy == s.policy
    && (x.workers == s.workers || x.workers == s.workers - {job}
        || (job in s.workers && job in x.workers && x.workers == s.workers[job := x.workers[job]]
            && x.workers[job].pid == s.workers[job].pid
            && (x.workers[job].stage.Executing? ==> x.workers[job].stage == s.workers[job].stage)))
  }

  lemma {:induction false} SmallSteers(s: System, x: System, job: JobId)
    requires PidsOk(s) && Small(s, x, job) && x.alive == s.alive
    ensures Steers(s, x, job)
  {
  }

  predicate IsEarly(step: Step) {
    step.Write? || step.Wait? || step.Poll? || step.Seek?
  }

  predicate IsLate(step: Step) {
    step.MeetOwner? || step.Settle? || step.EnterPool? || step.Record?
  }

  lemma {:induction false} EarlySmall(s: System, step: Step)
    requires Enabled(s, step) && IsEarly(step)
    ensures SmallAndSame(s, Next(s, step), JobOf(step))
  {
    match step
    case Write(r) => WriteSmall(s, r);
    case Wait(job) => WaitSmall(s, job);
    case Poll(job) => PollSmall(s, job);
    case Seek(job) => SeekSmall(s, job);
  }

  lemma {:induction false} WriteSmall(s: System, r: nat)
    requires Enabled(s, Write(r))
    ensures SmallAndSame(s, Next(s, Write(r)), "")
  {
  }

  lemma {:induction false} WaitSmall(s: System, job: JobId)
    requires Enabled(s, Wait(job))
    ensures SmallAndSame(s, Next(s, Wait(job)), job)
  {
    hide StateTo;
    StateToSmall(s, job, WaitingDependencies, Depending);
  }

  lemma {:induction false} PollSmall(s: System, job: JobId)
    requires Enabled(s, Poll(job))
    ensures SmallAndSame(s, Next(s, Poll(job)), job)
  {
  }

  lemma {:induction false} SeekSmall(s: System, job: JobId)
    requires Enabled(s, Seek(job))
    ensures SmallAndSame(s, Next(s, Seek(job)), job)
  {
    hide StateTo, CacheableDependencies;
    StateToSmall(s, job, QueuedFleet, Dispatched);
  }

  /** What the helpers of a step leave: one worker's change, and the pool's tables. */
  ghost predicate SmallAndSame(s: System, x: System, job: JobId) {
    Small(s, x, job) && x.alive == s.alive && SamePool(s.db, x.db)
  }

  lemma {:induction false} StateToSmall(s: System, job: JobId, state: JobState, stage: Stage)
    requires In(s, job) && !stage.Executing?
    ensures SmallAndSame(s, StateTo(s, job, state, stage), job)
  {
  }

  lemma {:induction false} StateGoneSmall(s: System, job: JobId, state: JobState, result: Option<Evidence>)
    ensures SmallAndSame(s, StateGone(s, job, state, result), job)
  {
  }

  lemma {:induction false} MeetSmall(s: System, job: JobId)
    requires Enabled(s, MeetOwner(job))
    ensures SmallAndSame(s, Next(s, MeetOwner(job)), job)
  {
    hide StateTo, SetState, Locked;
    var owner := s.owners[KeyOf(s, job).value];
    StateToSmall(s.(db := JoinedOwner(s.db, job, owner)), job, WaitingEvidence, Claiming(Some(owner)));
  }

  lemma {:induction false} SettleSmall(s: System, job: JobId, retried: bool, intact: bool)
    requires Enabled(s, Settle(job, retried, intact))
    ensures SmallAndSame(s, Next(s, Settle(job, retried, intact)), job)
  {
    hide StateTo, StateGone, SetState, JoinFailed, SmallAndSame;
    StateGoneSmall(s, job, Blocked, None);
    if Hit(s.db, KeyOf(s, job)) {
      StateGoneSmall(s, job, Succeeded, s.db.jobs[s.db.cache[KeyOf(s, job).value]].result);
    }
    StateToSmall(s, job, QueuedFleet, Dispatched);
  }

  lemma {:induction false} LateSmall(s: System, step: Step)
    requires Enabled(s, step) && IsLate(step)
    ensures SmallAndSame(s, Next(s, step), JobOf(step))
  {
    hide SmallAndSame, StateTo, StateGone;
    match step
    case MeetOwner(job) => MeetSmall(s, job);
    case Settle(job, retried, intact) => SettleSmall(s, job, retried, intact);
    case EnterPool(job) => StateToSmall(s, job, WaitingCpu, Pooling);
    case Record(job) =>
      StateGoneSmall(s, job, Succeeded, s.workers[job].stage.evidence);
      StateGoneSmall(s, job, Failed, None);
  }

  lemma {:induction false} CommitSmall(s: System, job: JobId)
    requires Enabled(s, Commit(job))
    ensures Small(s, Next(s, Commit(job)), job) && Next(s, Commit(job)).alive == s.alive
  {
  }

  lemma {:induction false} StateSteers(s: System, step: Step)
    requires PidsOk(s) && Enabled(s, step) && !IsSubmission(step) && !IsSilent(step) && !IsPool(step)
    ensures Steers(s, Next(s, step), JobOf(step)) && (!step.Commit? ==> SamePool(s.db, Next(s, step).db))
  {
    hide Enabled, Next, Steers, PidsOk;
    if IsEarly(step) {
      EarlySmall(s, step);
    } else if step.Commit? {
      CommitSmall(s, step.job);
    } else {
      LateSmall(s, step);
    }
    SmallSteers(s, Next(s, step), JobOf(step));
  }

  lemma {:induction false} PoolSmall(s: System, step: Step)
    requires Enabled(s, step) && IsPool(step)
    ensures Small(s, Next(s, step), JobOf(step)) && step.job in s.workers
    ensures Next(s, step).alive == s.alive
            || ((step.Finish? || step.Abort?) && s.workers[step.job].stage.Executing?
                && Next(s, step).alive == s.alive - {s.workers[step.job].stage.proc})
  {
    hide Acquired, LeftPool, CacheableDependencies;
  }

  lemma {:induction false} PoolSteers(s: System, step: Step)
    requires PidsOk(s) && Enabled(s, step) && IsPool(step)
    ensures Steers(s, Next(s, step), JobOf(step))
  {
    hide Enabled, Next;
    PoolSmall(s, step);
    SmallSteers(s, Next(s, step).(alive := s.alive), JobOf(step));
  }

  lemma {:induction false} SteersPids(s: System, x: System, job: JobId)
    requires PidsOk(s) && Steers(s, x, job)
    ensures PidsOk(x)
  {
  }

  lemma {:induction false} EnterPids(s: System, job: JobId, pid: nat)
    requires PidsOk(s) && Enabled(s, Enter(job, pid))
    ensures PidsOk(Next(s, Enter(job, pid)))
  {
  }

  lemma {:induction false} SpawnPids(s: System, job: JobId, pid: nat)
    requires PidsOk(s) && Enabled(s, Spawn(job, pid))
    ensures PidsOk(Next(s, Spawn(job, pid)))
  {
  }

  lemma {:induction false} PidsKept(s: System, step: Step)
    requires PidsOk(s) && Enabled(s, step)
    ensures PidsOk(Next(s, step))
  {
    hide Enabled, Next, Steers;
    if IsSubmission(step) {
      SubmissionKeepsPool(s, step);
    } else if step.Enter? {
      EnterPids(s, step.job, step.pid);
    } else if step.Spawn? {
      SpawnPids(s, step.job, step.pid);
    } else {
      if IsSilent(step) {
        SilentSteers(s, step);
      } else if IsPool(step) {
        PoolSteers(s, step);
      } else {
        StateSteers(s, step);
      }
      SteersPids(s, Next(s, step), JobOf(step));
    }
  }

  // ---- rows

  /** Waiting workers go on waiting or die; workers with a lease keep it or go; new workers have new processes. */
  ghost predicate KeepsPlaces(s: System, x: System) {
    && s.used <= x.used && x.alive <= s.alive + (x.used - s.used)
    && (forall j :: j in s.workers && s.workers[j].stage.Pooling? && s.workers[j].pid in x.alive ==>
          j in x.workers && x.workers[j].pid == s.workers[j].pid && x.workers[j].stage.Pooling?)
    && (forall j :: j in x.workers ==>
          x.workers[j].pid !in s.used
          || (j in s.workers && x.workers[j].pid == s.workers[j].pid
              && (HasLease(s.workers[j].stage) ==> HasLease(x.workers[j].stage))))
  }

  ghost predicate RowsOk(s: System) {
    && (forall k :: k in s.db.waiters ==> WaiterOk(s, k))
    && (forall k :: k in s.db.leases ==> LeaseOk(s, k))
  }

  lemma {:induction false} PlacesRows(s: System, x: System)
    requires RowsOk(s) && SamePool(s.db, x.db) && KeepsPlaces(s, x)
    ensures RowsOk(x)
  {
    forall k | k in x.db.waiters ensures WaiterOk(x, k) {
      assert WaiterOk(s, k);
    }
    forall k | k in x.db.leases ensures LeaseOk(x, k) {
      assert LeaseOk(s, k);
    }
  }

  /** The stepping job did not wait in the pool, and has not lost a lease. */
  ghost predicate PlaceOf(s: System, x: System, job: JobId) {
    job in s.workers ==>
      && (s.workers[job].stage.Pooling? && s.workers[job].pid in x.alive ==>
          job in x.workers && x.workers[job].stage.Pooling?)
      && (HasLease(s.workers[job].stage) && job in x.workers ==> HasLease(x.workers[job].stage))
  }

  lemma {:induction false} SteersPlaces(s: System, x: System, job: JobId)
    requires Steers(s, x, job) && PlaceOf(s, x, job)
    ensures KeepsPlaces(s, x)
  {
  }

  lemma {:induction false} SilentPlace(s: System, step: Step)
    requires PidsOk(s) && Enabled(s, step) && IsSilent(step) && !step.Enter? && !step.Spawn?
    ensures KeepsPlaces(s, Next(s, step))
  {
    hide Enabled, Next, Steers, PlaceOf, KeepsPlaces, PidsOk;
    SilentSteers(s, step);
    SilentPlaceOf(s, step);
    SteersPlaces(s, Next(s, step), JobOf(step));
  }

  lemma {:induction false} SilentPlaceOf(s: System, step: Step)
    requires Enabled(s, step) && IsSilent(step) && !step.Enter? && !step.Spawn?
    ensures PlaceOf(s, Next(s, step), JobOf(step))
  {
  }

  lemma {:induction false} EnterPlaces(s: System, job: JobId, pid: nat)
    requires PidsOk(s) && Enabled(s, Enter(job, pid))
    ensures KeepsPlaces(s, Next(s, Enter(job, pid)))
  {
  }

  lemma {:induction false} SpawnPlaces(s: System, job: JobId, pid: nat)
    requires PidsOk(s) && Enabled(s, Spawn(job, pid))
    ensures KeepsPlaces(s, Next(s, Spawn(job, pid)))
  {
  }

  lemma {:induction false} StatePlace(s: System, step: Step)
    requires Enabled(s, step) && !IsSubmission(step) && !IsSilent(step) && !IsPool(step)
    ensures PlaceOf(s, Next(s, step), JobOf(step))
  {
  }

  lemma {:induction false} StateRows(s: System, step: Step)
    requires RowsOk(s) && PidsOk(s) && Enabled(s, step) && !IsSubmission(step) && !IsSilent(step) && !IsPool(step)
    requires !step.Commit?
    ensures RowsOk(Next(s, step))
  {
    StateSteers(s, step);
    StatePlace(s, step);
    SteersPlaces(s, Next(s, step), JobOf(step));
    PlacesRows(s, Next(s, step));
  }

  lemma {:induction false} CommitRows(s: System, job: JobId)
    requires RowsOk(s) && PidsOk(s) && Enabled(s, Commit(job))
    ensures RowsOk(Next(s, Commit(job)))
  {
    var x := Next(s, Commit(job));
    StateSteers(s, Commit(job));
    if SetState(s.db, job, Running, None).Ok? {
      StatePlace(s, Commit(job));
      SteersPlaces(s, x, job);
      PlacesRows(s, x);
    } else {
      LeaverRows(s, x, job, true);
    }
  }

  lemma {:induction false} LeftRows(s: System, job: JobId, acquired: bool)
    requires RowsOk(s)
    ensures RowsOk(s.(db := LeftPool(s.db, job, acquired)))
  {
    var x := s.(db := LeftPool(s.db, job, acquired));
    forall k | k in x.db.waiters ensures WaiterOk(x, k) {
      assert WaiterOk(s, k);
    }
    forall k | k in x.db.leases ensures LeaseOk(x, k) {
      assert LeaseOk(s, k);
    }
  }

  /** The worker of this job leaves the pool with its rows. */
  lemma {:induction false} LeaverRows(s: System, x: System, job: JobId, acquired: bool)
    requires RowsOk(s) && PidsOk(s) && job in s.workers && SamePool(x.db, LeftPool(s.db, job, acquired))
    requires Steers(s, x, job)
    requires HasLease(s.workers[job].stage) ==> acquired
    ensures RowsOk(x)
  {
    LeftRows(s, job, acquired);
    forall k | k in x.db.waiters ensures WaiterOk(x, k) {
      assert WaiterOk(s, k);
    }
    forall k | k in x.db.leases ensures LeaseOk(x, k) {
      assert LeaseOk(s, k);
    }
  }

  /** A row after an acquire was there before, or is the acquiring job's own, with its process. */
  lemma {:induction false} AcquiredWaiters(db: Db, job: JobId, pid: nat, policy: Policy, alive: set<nat>, free: nat,
                                           k: JobId)
    requires job in db.jobs
    ensures var r := Acquired(db, job, pid, policy, alive, free);
            && (k in r.0.waiters ==>
                (k in db.waiters && r.0.waiters[k] == db.waiters[k]) || (k == job && r.0.waiters[k].pid == pid))
            && (r.1 && k == job ==> k !in r.0.waiters || (k in db.leases && db.leases[k].pid == pid))
  {
    hide IsHead, Fits, Eligible;
  }

  lemma {:induction false} AcquiredLeases(db: Db, job: JobId, pid: nat, policy: Policy, alive: set<nat>, free: nat,
                                          k: JobId)
    requires job in db.jobs
    ensures var r := Acquired(db, job, pid, policy, alive, free);
            k in r.0.leases ==>
              || (k in db.leases && r.0.leases[k] == db.leases[k])
              || (k == job && r.0.leases[k].pid == pid && r.1)
  {
    hide IsHead, Fits, Eligible;
  }

  lemma {:induction false} AcquireWaiter(s: System, job: JobId, free: nat, k: JobId)
    requires RowsOk(s) && PidsOk(s) && Enabled(s, Acquire(job, free))
    ensures WaiterOk(Next(s, Acquire(job, free)), k)
  {
    AcquiredWaiters(s.db, job, s.workers[job].pid, s.policy, s.alive, free, k);
    if k in s.db.waiters {
      assert WaiterOk(s, k);
    }
    if k in s.db.leases {
      assert LeaseOk(s, k);
    }
  }

  lemma {:induction false} AcquireLease(s: System, job: JobId, free: nat, k: JobId)
    requires RowsOk(s) && PidsOk(s) && Enabled(s, Acquire(job, free))
    ensures LeaseOk(Next(s, Acquire(job, free)), k)
  {
    AcquiredLeases(s.db, job, s.workers[job].pid, s.policy, s.alive, free, k);
    if k in s.db.leases {
      assert LeaseOk(s, k);
    }
  }

  lemma {:induction false} RebindRows(s: System, job: JobId)
    requires RowsOk(s) && PidsOk(s) && Enabled(s, Rebind(job))
    ensures RowsOk(Next(s, Rebind(job)))
  {
    var x := Next(s, Rebind(job));
    forall k | k in x.db.waiters ensures WaiterOk(x, k) {
      assert WaiterOk(s, k);
    }
    forall k | k in x.db.leases ensures LeaseOk(x, k) {
      assert LeaseOk(s, k);
    }
  }

  // ---- all steps keep the pool

  lemma {:induction false} AcquireKeepsPool(s: System, job: JobId, free: nat)
    requires PoolOk(s) && Enabled(s, Acquire(job, free))
    ensures PoolOk(Next(s, Acquire(job, free)))
  {
    hide Acquired, WaiterOk, LeaseOk, TicketsOk, PidsOk;
    var x := Next(s, Acquire(job, free));
    AcquireFits(s.db, job, s.workers[job].pid, s.policy, s.alive, free);
    AcquireTickets(s.db, job, s.workers[job].pid, s.policy, s.alive, free);
    PidsKept(s, Acquire(job, free));
    forall k | k in x.db.waiters ensures WaiterOk(x, k) {
      AcquireWaiter(s, job, free, k);
    }
    forall k | k in x.db.leases ensures LeaseOk(x, k) {
      AcquireLease(s, job, free, k);
    }
  }

  /** Leaving frees room and tickets. */
  lemma {:induction false} LeavingKeepsPool(s: System, x: System, job: JobId, acquired: bool)
    requires PoolOk(s) && job in s.workers && SamePool(x.db, LeftPool(s.db, job, acquired)) && Steers(s, x, job)
    requires x.policy == s.policy
    requires HasLease(s.workers[job].stage) ==> acquired
    ensures PoolOk(x)
  {
    LeftFits(s.db, job, acquired);
    LeaverRows(s, x, job, acquired);
    SteersPids(s, x, job);
  }

  /** `Abort` outside the pool touches no row. */
  lemma {:induction false} AbortKeepsPool(s: System, job: JobId)
    requires PoolOk(s) && Enabled(s, Abort(job))
    ensures PoolOk(Next(s, Abort(job)))
  {
    var x := Next(s, Abort(job));
    var stage := s.workers[job].stage;
    PoolSteers(s, Abort(job));
    if InPool(stage) {
      LeavingKeepsPool(s, x, job, HasLease(stage));
    } else {
      assert PlaceOf(s, x, job);
      SteersPlaces(s, x, job);
      PlacesRows(s, x);
      SteersPids(s, x, job);
    }
  }

  lemma {:induction false} PoolStepKeepsPool(s: System, step: Step)
    requires PoolOk(s) && Enabled(s, step) && IsPool(step)
    ensures PoolOk(Next(s, step))
  {
    hide Enabled, Next, PoolOk;
    match step
    case Acquire(job, free) => AcquireKeepsPool(s, job, free);
    case GiveUp(job) => GiveUpKeepsPool(s, job);
    case Rebind(job) => RebindKeepsPool(s, job);
    case Finish(job, outcome) => FinishKeepsPool(s, job, outcome);
    case Abort(job) => AbortKeepsPool(s, job);
    case Publish(job) => PublishKeepsPool(s, job);
  }

  lemma {:induction false} GiveUpKeepsPool(s: System, job: JobId)
    requires PoolOk(s) && Enabled(s, GiveUp(job))
    ensures PoolOk(Next(s, GiveUp(job)))
  {
    hide Steers, PoolOk;
    PoolOkPids(s);
    PoolSteers(s, GiveUp(job));
    LeavingKeepsPool(s, Next(s, GiveUp(job)), job, false);
  }

  lemma {:induction false} FinishKeepsPool(s: System, job: JobId, outcome: Option<Evidence>)
    requires PoolOk(s) && Enabled(s, Finish(job, outcome))
    ensures PoolOk(Next(s, Finish(job, outcome)))
  {
    hide Steers, PoolOk;
    PoolOkPids(s);
    PoolSteers(s, Finish(job, outcome));
    LeavingKeepsPool(s, Next(s, Finish(job, outcome)), job, true);
  }

  lemma {:induction false} RebindKeepsPool(s: System, job: JobId)
    requires PoolOk(s) && Enabled(s, Rebind(job))
    ensures PoolOk(Next(s, Rebind(job)))
  {
    RebindRows(s, job);
    RebindUses(s.db.leases, job, s.workers[job].stage.proc);
    PidsKept(s, Rebind(job));
  }

  lemma {:induction false} PublishKeepsPool(s: System, job: JobId)
    requires PoolOk(s) && Enabled(s, Publish(job))
    ensures PoolOk(Next(s, Publish(job)))
  {
    var x := Next(s, Publish(job));
    PoolSteers(s, Publish(job));
    assert PlaceOf(s, x, job);
    SteersPlaces(s, x, job);
    PlacesRows(s, x);
    PidsKept(s, Publish(job));
    SameTables(s, x);
  }

  lemma {:induction false} PoolOkPids(s: System)
    requires PoolOk(s)
    ensures PidsOk(s)
  {
  }

  lemma {:induction false} PoolOkParts(s: System)
    requires PoolOk(s)
    ensures WithinCapacity(s) && TicketsOk(s.db) && PidsOk(s) && RowsOk(s)
  {
  }

  lemma {:induction false} PoolOkFrom(s: System)
    requires WithinCapacity(s) && TicketsOk(s.db) && PidsOk(s) && RowsOk(s)
    ensures PoolOk(s)
  {
  }

  lemma {:induction false} LeftTickets(db: Db, job: JobId)
    requires TicketsOk(db)
    ensures TicketsOk(LeftPool(db, job, true)) && forall e: Db :: SamePool(e, db) ==> TicketsOk(e)
  {
  }

  lemma {:induction false} CommitKeepsPool(s: System, job: JobId)
    requires PoolOk(s) && Enabled(s, Commit(job))
    ensures PoolOk(Next(s, Commit(job)))
  {
    hide RowsOk, PidsOk, TicketsOk, WaiterOk, LeaseOk;
    var x := Next(s, Commit(job));
    PoolOkParts(s);
    CommitRows(s, job);
    PidsKept(s, Commit(job));
    LeftFits(s.db, job, true);
    LeftTickets(s.db, job);
    PoolOkFrom(x);
  }

  lemma {:induction false} SameTables(s: System, x: System)
    requires WithinCapacity(s) && TicketsOk(s.db) && SamePool(s.db, x.db) && x.policy == s.policy && RowsOk(x)
    requires PidsOk(x)
    ensures PoolOk(x)
  {
  }

  lemma {:induction false} SilentPolicy(s: System, step: Step)
    requires Enabled(s, step) && IsSilent(step)
    ensures Next(s, step).policy == s.policy
  {
  }

  lemma {:induction false} SilentKeepsPool(s: System, step: Step)
    requires PoolOk(s) && Enabled(s, step) && IsSilent(step)
    ensures PoolOk(Next(s, step)) && Next(s, step).policy == s.policy
  {
    hide Next;
    SilentStep(s, step);
    SilentPolicy(s, step);
    PidsKept(s, step);
    if step.Enter? {
      EnterPlaces(s, step.job, step.pid);
    } else if step.Spawn? {
      SpawnPlaces(s, step.job, step.pid);
    } else {
      SilentPlace(s, step);
    }
    PlacesRows(s, Next(s, step));
    SameTables(s, Next(s, step));
  }

  lemma {:induction false} StateKeepsPool(s: System, step: Step)
    requires PoolOk(s) && Enabled(s, step) && !IsSubmission(step) && !IsSilent(step) && !IsPool(step)
    ensures PoolOk(Next(s, step))
  {
    if step.Commit? {
      CommitKeepsPool(s, step.job);
    } else {
      StateSteers(s, step);
      StateRows(s, step);
      PidsKept(s, step);
      SameTables(s, Next(s, step));
    }
  }

  lemma {:induction false} StepKeepsPool(s: System, step: Step)
    requires PoolOk(s) && Enabled(s, step)
    ensures PoolOk(Next(s, step)) && Next(s, step).policy == s.policy
  {
    hide Enabled, Next, WithinCapacity, TicketsOk, PidsOk;
    if IsSubmission(step) {
      SubmissionKeepsPool(s, step);
      PlacesRows(s, Next(s, step));
      PidsKept(s, step);
      SameTables(s, Next(s, step));
    } else if IsSilent(step) {
      SilentKeepsPool(s, step);
    } else if IsPool(step) {
      PoolStepKeepsPool(s, step);
      PoolSteers(s, step);
    } else {
      StateKeepsPool(s, step);
      StateSteers(s, step);
    }
  }

  lemma {:induction false} EmptyPool(s: System)
    requires Initial(s)
    ensures PoolOk(s)
  {
  }

  /**
   Leased slots and memory stay within the pool's capacity in every reachable state; a job has at most one
   lease, its row.
   */
  lemma {:induction false} CapacityHolds(run: seq<System>, steps: seq<Step>, i: nat)
    requires IsRun(run, steps) && i < |run|
    ensures PoolOk(run[i]) && run[i].policy == run[0].policy
    ensures SlotsUsed(run[i].db.leases) <= run[0].policy.slots && MemoryUsed(run[i].db.leases) <= run[0].policy.memory
    decreases i
  {
    hide Enabled, Next, TicketsOk, PidsOk, WaiterOk, LeaseOk;
    if i == 0 {
      EmptyPool(run[0]);
    } else {
      CapacityHolds(run, steps, i - 1);
      assert StepAt(run, steps, i - 1);
      StepKeepsPool(run[i - 1], steps[i - 1]);
    }
  }

  // ---- first come, first served

  /** In the queue of the pool, with a live process and a request that the pool can hold. */
  ghost predicate Awaiting(s: System, k: JobId) {
    k in s.db.waiters && Eligible(s.db, s.db.waiters[k], k, s.policy, s.alive)
  }

  lemma {:induction false} HeadOnly(db: Db, job: JobId, pid: nat, policy: Policy, alive: set<nat>, free: nat, k: JobId)
    requires job in db.jobs && TicketsOk(db) && k in db.waiters && Eligible(db, db.waiters[k], k, policy, alive)
    requires k != job
    requires var x := Acquired(db, job, pid, policy, alive, free).0.leases;
             job in x && (job in db.leases ==> x[job] != db.leases[job])
    ensures job in db.waiters && Eligible(db, db.waiters[job], job, policy, alive)
    ensures db.waiters[job].ticket < db.waiters[k].ticket
  {
    var p := db.jobs[job].payload;
    var clean := Reclaimed(db, policy, alive);
    var waiting := Enrolled(clean, job, pid, p.slots, p.memory);
    assert k in waiting.waiters && waiting.waiters[k] == db.waiters[k];
    assert IsHead(waiting.waiters, job);
  }

  /** The step gives the job a lease row: its first, or in an acquire a new one in place of a dead process's. */
  ghost predicate GrantsLease(s: System, step: Step, job: JobId)
    requires Enabled(s, step)
  {
    var before, behind := s.db.leases, Next(s, step).db.leases;
    job in behind && (job in before ==> step.Acquire? && behind[job] != before[job])
  }

  /** A lease is granted only in an acquire of its own job, and then no other live waiter has an earlier ticket. */
  lemma {:induction false} LeaseGoesToHead(s: System, step: Step, job: JobId, k: JobId)
    requires PoolOk(s) && Enabled(s, step) && GrantsLease(s, step, job) && Awaiting(s, k) && k != job
    ensures step.Acquire? && step.job == job && Awaiting(s, job) && s.db.waiters[job].ticket < s.db.waiters[k].ticket
  {
    if job in s.db.leases {
      RegrantIsOwn(s, step.job, step.free, job);
    } else {
      OnlyAcquireLeases(s, step, job);
    }
    AcquireDb(s, job, step.free);
    HeadOnly(s.db, job, s.workers[job].pid, s.policy, s.alive, step.free, k);
  }

  lemma {:induction false} RegrantIsOwn(s: System, j: JobId, free: nat, job: JobId)
    requires Enabled(s, Acquire(j, free)) && job in s.db.leases
    requires job in Next(s, Acquire(j, free)).db.leases && Next(s, Acquire(j, free)).db.leases[job] != s.db.leases[job]
    ensures j == job
  {
    hide Acquired, Next;
    AcquireDb(s, j, free);
    AcquiredLeases(s.db, j, s.workers[j].pid, s.policy, s.alive, free, job);
  }

  /** The other pool steps, and a refused commit, add no lease. */
  lemma {:induction false} PoolLeases(s: System, step: Step)
    requires Enabled(s, step) && IsPool(step) && !step.Acquire?
    ensures Next(s, step).db.leases.Keys <= s.db.leases.Keys
  {
    hide Enabled, Next;
    PoolTables(s, step);
  }

  /** The tables after the pool steps other than an acquire, and whether the worker still waits there. */
  ghost predicate LeavesTables(s: System, step: Step, x: System)
    requires IsPool(step)
  {
    x.db.leases.Keys <= s.db.leases.Keys
    && (x.db.waiters == s.db.waiters
        || (x.db.waiters == s.db.waiters - {step.job}
            && (step.job in x.workers ==> !x.workers[step.job].stage.Pooling?)))
  }

  lemma {:induction false} PoolTables(s: System, step: Step)
    requires Enabled(s, step) && IsPool(step) && !step.Acquire?
    ensures LeavesTables(s, step, Next(s, step))
  {
    hide Enabled, Next, LeavesTables;
    match step
    case GiveUp(job) => GiveUpTables(s, job);
    case Rebind(job) => RebindTables(s, job);
    case Finish(job, outcome) => FinishTables(s, job, outcome);
    case Abort(job) => AbortTables(s, job);
    case Publish(job) => PublishTables(s, job);
  }

  lemma {:induction false} GiveUpTables(s: System, job: JobId)
    requires Enabled(s, GiveUp(job))
    ensures LeavesTables(s, GiveUp(job), Next(s, GiveUp(job)))
  {
  }

  lemma {:induction false} RebindTables(s: System, job: JobId)
    requires Enabled(s, Rebind(job))
    ensures LeavesTables(s, Rebind(job), Next(s, Rebind(job)))
  {
  }

  lemma {:induction false} FinishTables(s: System, job: JobId, outcome: Option<Evidence>)
    requires Enabled(s, Finish(job, outcome))
    ensures LeavesTables(s, Finish(job, outcome), Next(s, Finish(job, outcome)))
  {
  }

  lemma {:induction false} AbortTables(s: System, job: JobId)
    requires Enabled(s, Abort(job))
    ensures LeavesTables(s, Abort(job), Next(s, Abort(job)))
  {
  }

  lemma {:induction false} PublishTables(s: System, job: JobId)
    requires Enabled(s, Publish(job))
    ensures LeavesTables(s, Publish(job), Next(s, Publish(job)))
  {
  }

  /** A commit leaves the pool's tables, or a refused one takes its own rows away. */
  lemma {:induction false} CommitTables(s: System, job: JobId)
    requires Enabled(s, Commit(job))
    ensures SamePool(Next(s, Commit(job)).db, s.db) || SamePool(Next(s, Commit(job)).db, LeftPool(s.db, job, true))
    ensures job in s.workers && s.workers[job].stage.Leased?
  {
    hide LeftPool;
  }

  lemma {:induction false} OnlyAcquireLeases(s: System, step: Step, job: JobId)
    requires PoolOk(s) && Enabled(s, step) && job !in s.db.leases && job in Next(s, step).db.leases
    ensures step.Acquire? && step.job == job
  {
    if IsSubmission(step) {
      SubmissionKeepsPool(s, step);
    } else if IsSilent(step) {
      SilentStep(s, step);
    } else if step.Acquire? {
      AcquiredLeases(s.db, step.job, s.workers[step.job].pid, s.policy, s.alive, step.free, job);
    } else if IsPool(step) {
      PoolLeases(s, step);
    } else if step.Commit? {
      CommitTables(s, step.job);
    } else {
      StateSteers(s, step);
    }
  }

  /** A live waiter's ticket does not change while its worker stays in the queue. */
  lemma {:induction false} TicketKept(s: System, step: Step, k: JobId)
    requires PoolOk(s) && Enabled(s, step) && Awaiting(s, k)
    requires k in Next(s, step).workers && Next(s, step).workers[k].pid == s.db.waiters[k].pid
    requires Next(s, step).workers[k].stage.Pooling?
    ensures k in Next(s, step).db.waiters && Next(s, step).db.waiters[k].ticket == s.db.waiters[k].ticket
    ensures Next(s, step).db.waiters[k].pid == s.db.waiters[k].pid
  {
    hide Enabled, Next, TicketsOk, LeaseOk, Acquired, WithinCapacity, Steers;
    assert WaiterOk(s, k);
    if IsSubmission(step) {
      SubmissionKeepsPool(s, step);
    } else if IsSilent(step) {
      SilentStep(s, step);
    } else if step.Acquire? {
      AcquireTicketKept(s, step.job, step.free, k);
    } else if IsPool(step) {
      PoolWaiters(s, step);
    } else {
      StateWaiters(s, step);
    }
  }

  lemma {:induction false} StateWaiters(s: System, step: Step)
    requires PidsOk(s) && Enabled(s, step) && !IsSubmission(step) && !IsSilent(step) && !IsPool(step)
    ensures forall k :: k in s.db.waiters && k in s.workers && s.workers[k].stage.Pooling? ==>
              k in Next(s, step).db.waiters && Next(s, step).db.waiters[k] == s.db.waiters[k]
  {
    hide Enabled, Next, Steers;
    if step.Commit? {
      CommitTables(s, step.job);
    } else {
      StateSteers(s, step);
    }
  }

  lemma {:induction false} AcquireKeepsTicket(db: Db, job: JobId, pid: nat, policy: Policy, alive: set<nat>, free: nat,
                                              k: JobId)
    requires job in db.jobs && k in db.waiters && Eligible(db, db.waiters[k], k, policy, alive)
    ensures var r := Acquired(db, job, pid, policy, alive, free);
            (k == job && r.1)
            || (k in r.0.waiters && r.0.waiters[k].ticket == db.waiters[k].ticket
                && (r.0.waiters[k].pid == db.waiters[k].pid || (k == job && r.0.waiters[k].pid == pid)))
  {
  }

  lemma {:induction false} AcquireTicketKept(s: System, job: JobId, free: nat, k: JobId)
    requires Enabled(s, Acquire(job, free)) && Awaiting(s, k) && WaiterOk(s, k)
    requires var x := Next(s, Acquire(job, free)); k in x.workers && x.workers[k].stage.Pooling?
    ensures var x := Next(s, Acquire(job, free));
            k in x.db.waiters && x.db.waiters[k].ticket == s.db.waiters[k].ticket
            && x.db.waiters[k].pid == s.db.waiters[k].pid
  {
    hide Next, Acquired;
    AcquireDb(s, job, free);
    AcquireKeepsTicket(s.db, job, s.workers[job].pid, s.policy, s.alive, free, k);
    if k == job {
      QueuedStays(s, k, free);
    }
  }

  lemma {:induction false} QueuedStays(s: System, k: JobId, free: nat)
    requires Enabled(s, Acquire(k, free)) && k in Next(s, Acquire(k, free)).workers
    requires Next(s, Acquire(k, free)).workers[k].stage.Pooling?
    ensures !Acquired(s.db, k, s.workers[k].pid, s.policy, s.alive, free).1
  {
  }

  lemma {:induction false} PoolWaiters(s: System, step: Step)
    requires Enabled(s, step) && IsPool(step) && !step.Acquire?
    ensures Next(s, step).db.waiters == s.db.waiters
            || (Next(s, step).db.waiters == s.db.waiters - {step.job}
                && (step.job in Next(s, step).workers ==> !Next(s, step).workers[step.job].stage.Pooling?))
  {
    hide Enabled, Next;
    PoolTables(s, step);
  }

  /** From state i to state j the job's worker stays in the pool's queue, alive, with a job that is not over. */
  ghost predicate QueuedThrough(run: seq<System>, i: nat, j: nat, k: JobId)
    requires i <= j < |run|
  {
    Awaiting(run[i], k)
    && forall m :: i <= m <= j ==> StillQueued(run[m], k, run[i].db.waiters[k].pid)
  }

  ghost predicate StillQueued(s: System, k: JobId, pid: nat) {
    k in s.workers && s.workers[k].pid == pid && s.workers[k].stage.Pooling? && pid in s.alive && k in s.db.jobs
    && !Terminal(s.db.jobs[k].state)
  }

  /** The row keeps the request's size: it was the job's payload when it enrolled. */
  ghost predicate WaiterSize(s: System, k: JobId) {
    k in s.db.waiters && s.db.waiters[k].slots <= s.policy.slots && s.db.waiters[k].memory <= s.policy.memory
  }

  lemma {:induction false} SizeKept(s: System, step: Step, k: JobId)
    requires PoolOk(s) && Enabled(s, step) && WaiterSize(s, k) && k in Next(s, step).db.waiters
    ensures WaiterSize(Next(s, step), k)
  {
    hide Next, PoolOk, Steers, Acquired;
    PoolOkPids(s);
    StepKeepsPool(s, step);
    if IsSubmission(step) {
      SubmissionKeepsPool(s, step);
    } else if IsSilent(step) {
      SilentStep(s, step);
    } else if step.Acquire? {
      AcquireDb(s, step.job, step.free);
      AcquireSize(s.db, step.job, s.workers[step.job].pid, s.policy, s.alive, step.free, k);
    } else if IsPool(step) {
      PoolSize(s, step, k);
    } else {
      if step.Commit? {
        CommitTables(s, step.job);
      } else {
        StateSteers(s, step);
      }
    }
  }

  lemma {:induction false} AcquireDb(s: System, job: JobId, free: nat)
    requires Enabled(s, Acquire(job, free))
    ensures Next(s, Acquire(job, free)).db == Acquired(s.db, job, s.workers[job].pid, s.policy, s.alive, free).0
  {
    hide Acquired;
  }

  lemma {:induction false} AcquireSize(db: Db, job: JobId, pid: nat, policy: Policy, alive: set<nat>, free: nat,
                                       k: JobId)
    requires job in db.jobs && !TooLarge(db.jobs[job].payload, policy) && k in db.waiters
    requires db.waiters[k].slots <= policy.slots && db.waiters[k].memory <= policy.memory
    ensures var b := Acquired(db, job, pid, policy, alive, free).0; k in b.waiters ==>
              b.waiters[k].slots <= policy.slots && b.waiters[k].memory <= policy.memory
  {
  }

  lemma {:induction false} PoolSize(s: System, step: Step, k: JobId)
    requires Enabled(s, step) && IsPool(step) && !step.Acquire? && k in s.db.waiters && k in Next(s, step).db.waiters
    ensures Next(s, step).db.waiters[k] == s.db.waiters[k]
  {
    hide Enabled, Next;
    PoolTables(s, step);
  }

  lemma {:induction false} PlaceStep(s: System, step: Step, k: JobId, pid: nat)
    requires PoolOk(s) && Enabled(s, step) && Awaiting(s, k) && s.db.waiters[k].pid == pid
    requires StillQueued(s, k, pid) && StillQueued(Next(s, step), k, pid)
    ensures Awaiting(Next(s, step), k) && Next(s, step).db.waiters[k].ticket == s.db.waiters[k].ticket
    ensures Next(s, step).db.waiters[k].pid == pid
  {
    TicketKept(s, step, k);
    SizeKept(s, step, k);
  }

  /** So it keeps its ticket through all of them. */
  lemma {:induction false} WaiterKeepsPlace(run: seq<System>, steps: seq<Step>, i: nat, j: nat, k: JobId)
    requires IsRun(run, steps) && i <= j < |run| && QueuedThrough(run, i, j, k)
    ensures Awaiting(run[j], k) && run[j].db.waiters[k].ticket == run[i].db.waiters[k].ticket
    ensures run[j].db.waiters[k].pid == run[i].db.waiters[k].pid
    decreases j
  {
    if i < j {
      WaiterKeepsPlace(run, steps, i, j - 1, k);
      CapacityHolds(run, steps, j - 1);
      assert StepAt(run, steps, j - 1);
      PlaceStep(run[j - 1], steps[j - 1], k, run[i].db.waiters[k].pid);
    }
  }

  /**
   While a live waiter stays in the queue, every lease goes to a waiter with an earlier ticket: later arrivals
   never overtake it.
   */
  lemma {:induction false} NeverOvertaken(run: seq<System>, steps: seq<Step>, i: nat, j: nat, k: JobId, job: JobId)
    requires IsRun(run, steps) && i <= j < |steps| && QueuedThrough(run, i, j, k) && job != k
    requires StepAt(run, steps, j) && GrantsLease(run[j], steps[j], job)
    ensures Awaiting(run[j], job) && run[j].db.waiters[job].ticket < run[i].db.waiters[k].ticket
  {
    WaiterKeepsPlace(run, steps, i, j, k);
    CapacityHolds(run, steps, j);
    LeaseGoesToHead(run[j], steps[j], job, k);
  }
}
