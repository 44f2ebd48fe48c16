/** Who waits for whom: declared prerequisites, identity claims and pool tickets never wait in a circle. */
module ExperimentProgress {
  import opened Wrappers
  import opened ExperimentDb
  import opened ExperimentRuns
  import opened ExperimentGraph
  import opened ExperimentSafety
  import opened ExperimentPool

  // ---- claims

  predicate MayHold(stage: Stage) {
    !stage.Entering? && !stage.Depending? && !stage.Ready? && !stage.Claiming?
  }

  predicate Keyed(stage: Stage) {
    stage.Claiming? || stage.Claimed?
  }

  /** A claim is taken after the prerequisites and kept to the end; a key has one owner. */
  ghost predicate ClaimsOk(s: System) {
    && (forall j :: j in s.workers && s.workers[j].holds.Some? ==> MayHold(s.workers[j].stage))
    && (forall i, j ::
          i in s.workers && j in s.workers && s.workers[i].holds.Some? && s.workers[i].holds == s.workers[j].holds ==>
            i == j)
    && (forall j :: j in s.workers && Keyed(s.workers[j].stage) ==> j in s.db.jobs && KeyOf(s, j).Some?)
  }

  /** Stages follow each other; only `Take` gives a claim, and only to a worker that was waiting for a free key. */
  ghost predicate ClaimMoves(s: System, step: Step, x: System, j: JobId) {
    j in x.workers ==>
      && (j !in s.workers ==> x.workers[j].holds.None? && x.workers[j].stage == Entering)
      && (j in s.workers ==>
            && (x.workers[j].holds == s.workers[j].holds
                || (step == Take(j) && j in s.db.jobs && x.workers[j].holds == KeyOf(s, j) && KeyOf(s, j).Some?
                    && !Locked(s, KeyOf(s, j).value)))
            && (MayHold(s.workers[j].stage)
                || (x.workers[j].holds.Some? && x.workers[j].holds != s.workers[j].holds) ==>
                   MayHold(x.workers[j].stage))
            && (Keyed(x.workers[j].stage) ==> Keyed(s.workers[j].stage) || (j in s.db.jobs && KeyOf(s, j).Some?)))
  }

  lemma {:induction false} SilentClaims(s: System, step: Step, j: JobId)
    requires Enabled(s, step) && IsSilent(step)
    ensures ClaimMoves(s, step, Next(s, step), j)
  {
    hide CacheableDependencies, AwaitsWorker;
  }

  lemma {:induction false} PoolClaims(s: System, step: Step, j: JobId)
    requires Enabled(s, step) && IsPool(step)
    ensures ClaimMoves(s, step, Next(s, step), j)
  {
    hide NextForClient, NextOnTheWay, Acquired, LeftPool, CacheableDependencies, Locked;
  }

  lemma {:induction false} EarlyClaims(s: System, step: Step, j: JobId)
    requires Enabled(s, step) && IsEarly(step)
    ensures ClaimMoves(s, step, Next(s, step), j)
  {
  }

  lemma {:induction false} EnterPoolClaims(s: System, step: Step, j: JobId)
    requires Enabled(s, step) && (step.EnterPool? || step.Record? || step.Commit?)
    ensures ClaimMoves(s, step, Next(s, step), j)
  {
  }

  lemma {:induction false} SettleClaims(s: System, step: Step, j: JobId)
    requires Enabled(s, step) && (step.MeetOwner? || step.Settle?)
    ensures ClaimMoves(s, step, Next(s, step), j)
  {
    hide SetState, JoinFailed, Hit;
  }

  lemma {:induction false} LateClaims(s: System, step: Step, j: JobId)
    requires Enabled(s, step) && (IsLate(step) || step.Commit?)
    ensures ClaimMoves(s, step, Next(s, step), j)
  {
    hide Enabled, Next, ClaimMoves;
    if step.MeetOwner? || step.Settle? {
      SettleClaims(s, step, j);
    } else {
      EnterPoolClaims(s, step, j);
    }
  }

  lemma {:induction false} AllClaims(s: System, step: Step, j: JobId)
    requires Enabled(s, step)
    ensures ClaimMoves(s, step, Next(s, step), j)
  {
    hide Enabled, Next;
    if IsSubmission(step) {
      SubmissionStages(s, step, j);
    } else if IsSilent(step) {
      SilentClaims(s, step, j);
    } else if IsPool(step) {
      PoolClaims(s, step, j);
    } else if IsEarly(step) {
      EarlyClaims(s, step, j);
    } else {
      LateClaims(s, step, j);
    }
  }

  lemma {:induction false} ClaimKept(s: System, step: Step, x: System, j: JobId)
    requires ClaimsOk(s) && ClaimMoves(s, step, x, j) && KeepsRows(s.db.jobs, x.db.jobs) && j in x.workers
    ensures x.workers[j].holds.Some? ==> MayHold(x.workers[j].stage)
    ensures Keyed(x.workers[j].stage) ==> j in x.db.jobs && KeyOf(x, j).Some?
  {
  }

  lemma {:induction false} OneOwner(s: System, step: Step, x: System, i: JobId, j: JobId)
    requires ClaimsOk(s) && ClaimMoves(s, step, x, i) && ClaimMoves(s, step, x, j)
    requires i in x.workers && j in x.workers && x.workers[i].holds.Some? && x.workers[i].holds == x.workers[j].holds
    ensures i == j
  {
  }

  lemma {:induction false} ClaimsKept(s: System, step: Step)
    requires ClaimsOk(s) && Safe(s) && Enabled(s, step)
    ensures ClaimsOk(Next(s, step))
  {
    hide Enabled, Next, ClaimMoves, Safe;
    var x := Next(s, step);
    StepKeepsSafe(s, step);
    forall j | j in x.workers
      ensures (x.workers[j].holds.Some? ==> MayHold(x.workers[j].stage))
      ensures Keyed(x.workers[j].stage) ==> j in x.db.jobs && KeyOf(x, j).Some?
    {
      AllClaims(s, step, j);
      ClaimKept(s, step, x, j);
    }
    forall i, j | i in x.workers && j in x.workers && x.workers[i].holds.Some?
        && x.workers[i].holds == x.workers[j].holds
      ensures i == j
    {
      AllClaims(s, step, i);
      AllClaims(s, step, j);
      OneOwner(s, step, x, i, j);
    }
  }

  // ---- waiting

  /** A worker, or a lease that its process still uses. */
  datatype Node = Of(job: JobId) | Held(job: JobId)

  /** The ticket that the job has, or would be given now. */
  ghost function TicketOf(s: System, j: JobId): nat {
    if Awaiting(s, j) then s.db.waiters[j].ticket else s.db.lastTicket + 1
  }

  ghost predicate Waits(s: System, a: Node, b: Node) {
    a.Of? && In(s, a.job) &&
    match s.workers[a.job].stage
    case Depending =>
      b.Of? && (forall d :: d in s.db.jobs[a.job].payload.deps ==> d in s.db.jobs)
      && Polled(s.db, a.job).1.Pending? && b.job in Polled(s.db, a.job).1.waiting
    case Claiming(_) =>
      b.Of? && s.db.jobs[a.job].state != Retired && b.job in s.workers && KeyOf(s, a.job).Some?
      && s.workers[b.job].holds == KeyOf(s, a.job)
    case Pooling => WaitsInPool(s, a.job, b)
    case _ => false
  }

  /** A finished job, or one whose request is too large, waits for nobody. */
  ghost predicate WaitsInPool(s: System, j: JobId, b: Node)
    requires j in s.db.jobs
  {
    var live := LiveLeases(s.db, s.alive);
    && !Terminal(s.db.jobs[j].state) && !TooLarge(s.db.jobs[j].payload, s.policy)
    && (match b
        case Held(k) => k in live
            && (k == j || !Fits(live, s.db.jobs[j].payload.slots, s.db.jobs[j].payload.memory, s.policy))
        case Of(k) => k != j && Awaiting(s, k) && s.db.waiters[k].ticket < TicketOf(s, j))
  }

  /** Prerequisites by age, then claims, then tickets, then work that needs nobody. */
  ghost function Class(s: System, n: Node): nat {
    if n.Of? && In(s, n.job) then
      match s.workers[n.job].stage
      case Depending => 3
      case Claiming(_) => 2
      case Pooling => 1
      case _ => 0
    else 0
  }

  ghost function Place(s: System, n: Node): nat {
    if n.Of? && In(s, n.job) then
      match s.workers[n.job].stage
      case Depending => s.db.jobs[n.job].born
      case Pooling => TicketOf(s, n.job)
      case _ => 0
    else 0
  }

  ghost predicate Before(s: System, a: Node, b: Node) {
    Class(s, a) < Class(s, b) || (Class(s, a) == Class(s, b) && Place(s, a) < Place(s, b))
  }

  ghost predicate Sound(s: System) {
    Safe(s) && PoolOk(s) && ClaimsOk(s)
  }

  /** Waiting always looks at something that comes before. */
  lemma {:induction false} WaitsDescend(s: System, a: Node, b: Node)
    requires Sound(s) && Waits(s, a, b)
    ensures Before(s, b, a)
  {
    match s.workers[a.job].stage
    case Depending =>
      assert b.job in s.db.jobs[a.job].payload.deps;
      assert s.db.jobs[b.job].born < s.db.jobs[a.job].born;
    case Claiming(_) => assert MayHold(s.workers[b.job].stage);
    case Pooling =>
      if b.Of? {
        assert WaiterOk(s, b.job);
      }
    case _ =>
  }

  /** A chain of waiting. */
  ghost predicate Chain(s: System, path: seq<Node>) {
    |path| > 0 && forall i :: 0 <= i < |path| - 1 ==> Waits(s, path[i], path[i + 1])
  }

  lemma {:induction false} ChainDescends(s: System, path: seq<Node>)
    requires Sound(s) && Chain(s, path) && |path| > 1
    ensures Before(s, path[|path| - 1], path[0])
    decreases |path|
  {
    var n := |path| - 1;
    WaitsDescend(s, path[n - 1], path[n]);
    if n > 1 {
      ChainDescends(s, path[..n]);
    }
  }

  lemma {:induction false} StepKeepsSound(s: System, step: Step)
    requires Sound(s) && Enabled(s, step)
    ensures Sound(Next(s, step))
  {
    hide Enabled, Next;
    StepKeepsSafe(s, step);
    StepKeepsPool(s, step);
    ClaimsKept(s, step);
  }

  lemma {:induction false} StartIsSound(s: System)
    requires Initial(s)
    ensures Sound(s)
  {
  }

  lemma {:induction false} RunsAreSound(run: seq<System>, steps: seq<Step>, i: nat)
    requires IsRun(run, steps) && i < |run|
    ensures Sound(run[i])
    decreases i
  {
    hide Enabled, Next, Sound;
    if i == 0 {
      StartIsSound(run[0]);
    } else {
      RunsAreSound(run, steps, i - 1);
      assert StepAt(run, steps, i - 1);
      StepKeepsSound(run[i - 1], steps[i - 1]);
    }
  }

  /** In no reachable state does a chain of waiting come back to where it began. */
  lemma {:induction false} NoCircularWait(run: seq<System>, steps: seq<Step>, i: nat, path: seq<Node>)
    requires IsRun(run, steps) && i < |run| && Chain(run[i], path) && |path| > 1
    ensures path[0] != path[|path| - 1]
  {
    RunsAreSound(run, steps, i);
    ChainDescends(run[i], path);
  }

  // ---- somebody can always move

  /** How far a worker is. */
  function Along(stage: Stage): nat {
    match stage
    case Entering => 0
    case Depending => 1
    case Ready => 2
    case Claiming(_) => 3
    case Claimed(_) => 4
    case Owning(_) => 5
    case Dispatched => 6
    case Pooling => 7
    case Leased => 8
    case Launching => 9
    case Executing(_) => 10
    case Ended(_) => 11
  }

  /**
   The job's own work: no death, no abort, nobody else's request, a worker only for a job that waits for one, and
   giving up in the pool only with a job that is over or too large for it.
   */
  ghost predicate IsWork(s: System, step: Step, j: JobId) {
    match step
    case Enter(job, _) => job == j && j in s.db.jobs && AwaitsWorker(s.db.jobs[j].state)
    case Wait(job) => job == j
    case Poll(job) => job == j
    case Seek(job) => job == j
    case Take(job) => job == j
    case Sign(job) => job == j
    case Settle(job, _, _) => job == j
    case EnterPool(job) => job == j
    case Acquire(job, _) => job == j
    case GiveUp(job) => job == j && In(s, j)
        && (Terminal(s.db.jobs[j].state) || TooLarge(s.db.jobs[j].payload, s.policy))
    case Commit(job) => job == j
    case Spawn(job, _) => job == j
    case Finish(job, _) => job == j
    case Record(job) => job == j
    case _ => false
  }

  /** The job's work goes on: its worker starts, gets further, or is done. */
  ghost predicate Turns(s: System, step: Step, j: JobId) {
    && Enabled(s, step) && IsWork(s, step, j)
    && (if j in s.workers then j !in Next(s, step).workers
        || Along(Next(s, step).workers[j].stage) > Along(s.workers[j].stage)
        else j in Next(s, step).workers)
  }

  /** One recovery of the job, from the lock probe to the write, ends it as interrupted. */
  ghost predicate Interrupts(s: System, j: JobId, r: nat) {
    && Enabled(s, Probe(r, j))
    && var a := Next(s, Probe(r, j));
    && Enabled(a, Read(r))
    && var b := Next(a, Read(r));
    && Enabled(b, Write(r))
    && var c := Next(b, Write(r));
       j in c.db.jobs && c.db.jobs[j].state == Interrupted
  }

  /** A job whose worker was lost in the middle of its work, and which a recovery can end now. */
  ghost predicate Recovers(s: System, j: JobId) {
    j !in s.workers && exists r :: Interrupts(s, j, r)
  }

  /** A command that outlived its worker. */
  ghost predicate Leftover(s: System, pid: nat) {
    pid in s.alive && forall j :: j in s.workers ==> s.workers[j].pid != pid && s.workers[j].stage != Executing(pid)
  }

  /** The worker runs as this process, or runs its command as this process. */
  ghost predicate Uses(s: System, j: JobId, pid: nat) {
    j in s.workers && (s.workers[j].pid == pid || s.workers[j].stage == Executing(pid))
  }

  /**
   A worker's own next step, a worker to start for a prerequisite that waits for one, the recovery of one that lost its
   worker, the next step of the worker whose process has the lease, or the end of a leftover command that has it.
   */
  ghost predicate CanMove(s: System, n: Node) {
    match n
    case Of(j) => (exists step :: Turns(s, step, j)) || Recovers(s, j)
    case Held(k) =>
      k in s.db.leases && var pid := s.db.leases[k].pid;
      (Leftover(s, pid) && Enabled(s, Exit(pid))) || exists j, step :: Uses(s, j, pid) && Turns(s, step, j)
  }

  ghost predicate Waitless(s: System, n: Node) {
    forall m :: !Waits(s, n, m)
  }

  lemma {:induction false} UnusedPid(used: set<nat>) returns (pid: nat)
    ensures pid !in used && forall p :: p in used ==> p < pid
    decreases |used|
  {
    if used == {} {
      pid := 0;
    } else {
      var p :| p in used;
      pid := UnusedPid(used - {p});
      assert used == used - {p} + {p};
      if pid <= p {
        pid := p + 1;
      }
    }
  }

  lemma {:induction false} PendingIsSomething(db: Db, j: JobId)
    requires j in db.jobs && forall d :: d in db.jobs[j].payload.deps ==> d in db.jobs
    ensures Polled(db, j).1.Pending? ==> exists b :: b in Polled(db, j).1.waiting
  {
  }

  lemma {:induction false} PollTurns(s: System, j: JobId)
    requires Enabled(s, Poll(j)) && !Polled(s.db, j).1.Pending?
    ensures Turns(s, Poll(j), j)
  {
    hide Polled;
  }

  lemma {:induction false} DependingMoves(s: System, j: JobId)
    requires Sound(s) && In(s, j) && s.workers[j].stage.Depending? && Waitless(s, Of(j))
    ensures Turns(s, Poll(j), j)
  {
    var verdict := Polled(s.db, j).1;
    forall b | verdict.Pending? ensures b !in verdict.waiting {
      assert !Waits(s, Of(j), Of(b));
    }
    PendingIsSomething(s.db, j);
    PollTurns(s, j);
  }

  lemma {:induction false} ClaimingMoves(s: System, j: JobId)
    requires Sound(s) && In(s, j) && s.workers[j].stage.Claiming? && Waitless(s, Of(j))
    ensures Turns(s, Take(j), j)
  {
    hide Enabled, Next, Turns;
    forall b | b in s.workers && s.workers[b].holds == Some(KeyOf(s, j).value) ensures s.db.jobs[j].state == Retired {
      assert !Waits(s, Of(j), Of(b));
    }
    TakeTurns(s, j);
  }

  lemma {:induction false} TakeTurns(s: System, j: JobId)
    requires In(s, j) && s.workers[j].stage.Claiming? && KeyOf(s, j).Some?
    requires s.db.jobs[j].state == Retired || !Locked(s, KeyOf(s, j).value)
    ensures Turns(s, Take(j), j)
  {
  }

  lemma {:induction false} NothingUsed(leases: map<JobId, Lease>)
    requires leases == map[]
    ensures SlotsUsed(leases) == 0 && MemoryUsed(leases) == 0
  {
  }

  lemma {:induction false} RoomNow(s: System, j: JobId)
    requires In(s, j) && s.workers[j].stage.Pooling? && Waitless(s, Of(j))
    requires !Terminal(s.db.jobs[j].state) && !TooLarge(s.db.jobs[j].payload, s.policy)
    ensures var live := LiveLeases(s.db, s.alive);
            j !in live && Fits(live, s.db.jobs[j].payload.slots, s.db.jobs[j].payload.memory, s.policy)
  {
    var live := LiveLeases(s.db, s.alive);
    forall k | k in live
      ensures k != j && Fits(live, s.db.jobs[j].payload.slots, s.db.jobs[j].payload.memory, s.policy)
    {
      assert !Waits(s, Of(j), Held(k));
    }
    if live == map[] {
      NothingUsed(live);
    } else {
      var k :| k in live;
    }
  }

  lemma {:induction false} HeadNow(s: System, j: JobId, waiting: Db)
    requires PoolOk(s) && In(s, j) && s.workers[j].stage.Pooling? && Waitless(s, Of(j))
    requires !Terminal(s.db.jobs[j].state) && !TooLarge(s.db.jobs[j].payload, s.policy)
    requires waiting == Enrolled(Reclaimed(s.db, s.policy, s.alive), j, s.workers[j].pid, s.db.jobs[j].payload.slots,
                                 s.db.jobs[j].payload.memory)
    ensures IsHead(waiting.waiters, j)
  {
    forall k | k in waiting.waiters ensures waiting.waiters[j].ticket <= waiting.waiters[k].ticket {
      assert !Waits(s, Of(j), Of(k));
    }
  }

  /** With nothing live before it and enough host memory, a request that the pool can hold is granted. */
  lemma {:induction false} PoolingGrants(s: System, j: JobId)
    requires Sound(s) && In(s, j) && s.workers[j].stage.Pooling? && Waitless(s, Of(j))
    requires !Terminal(s.db.jobs[j].state) && !TooLarge(s.db.jobs[j].payload, s.policy)
    ensures Acquired(s.db, j, s.workers[j].pid, s.policy, s.alive, s.db.jobs[j].payload.memory + s.policy.reserve).1
  {
    var p := s.db.jobs[j].payload;
    RoomNow(s, j);
    HeadNow(s, j, Enrolled(Reclaimed(s.db, s.policy, s.alive), j, s.workers[j].pid, p.slots, p.memory));
  }

  lemma {:induction false} PoolingMoves(s: System, j: JobId)
    requires Sound(s) && In(s, j) && s.workers[j].stage.Pooling? && Waitless(s, Of(j))
    ensures exists step :: Turns(s, step, j)
  {
    hide Enabled, Next, Turns, Sound, Waitless, Acquired;
    if Terminal(s.db.jobs[j].state) || TooLarge(s.db.jobs[j].payload, s.policy) {
      GiveUpTurns(s, j);
    } else {
      PoolingGrants(s, j);
      GrantTurns(s, j, s.db.jobs[j].payload.memory + s.policy.reserve);
    }
  }

  lemma {:induction false} GiveUpTurns(s: System, j: JobId)
    requires In(s, j) && s.workers[j].stage.Pooling?
    requires Terminal(s.db.jobs[j].state) || TooLarge(s.db.jobs[j].payload, s.policy)
    ensures Turns(s, GiveUp(j), j)
  {
  }

  lemma {:induction false} GrantTurns(s: System, j: JobId, free: nat)
    requires In(s, j) && s.workers[j].stage.Pooling? && !TooLarge(s.db.jobs[j].payload, s.policy)
    requires Acquired(s.db, j, s.workers[j].pid, s.policy, s.alive, free).1
    ensures Turns(s, Acquire(j, free), j)
  {
    hide Acquired;
  }

  lemma {:induction false} EnteringMoves(s: System, j: JobId)
    requires In(s, j) && s.workers[j].stage.Entering?
    ensures Turns(s, Wait(j), j)
  {
  }

  lemma {:induction false} ReadyMoves(s: System, j: JobId)
    requires In(s, j) && s.workers[j].stage.Ready?
    ensures Turns(s, Seek(j), j)
  {
  }

  lemma {:induction false} ClaimedMoves(s: System, j: JobId)
    requires ClaimsOk(s) && In(s, j) && s.workers[j].stage.Claimed?
    ensures Turns(s, Sign(j), j)
  {
  }

  lemma {:induction false} DispatchedMoves(s: System, j: JobId)
    requires In(s, j) && s.workers[j].stage.Dispatched?
    ensures Turns(s, EnterPool(j), j)
  {
  }

  lemma {:induction false} OwningMoves(s: System, j: JobId)
    requires In(s, j) && s.workers[j].stage.Owning?
    ensures Turns(s, Settle(j, false, false), j)
  {
  }

  lemma {:induction false} LeasedMoves(s: System, j: JobId)
    requires In(s, j) && s.workers[j].stage.Leased?
    ensures Turns(s, Commit(j), j)
  {
  }

  lemma {:induction false} ExecutingMoves(s: System, j: JobId)
    requires In(s, j) && s.workers[j].stage.Executing?
    ensures Turns(s, Finish(j, None), j)
  {
  }

  lemma {:induction false} EndedMoves(s: System, j: JobId)
    requires In(s, j) && s.workers[j].stage.Ended?
    ensures Turns(s, Record(j), j)
  {
  }

  lemma {:induction false} LaunchingMoves(s: System, j: JobId)
    requires In(s, j) && s.workers[j].stage.Launching?
    ensures exists step :: Turns(s, step, j)
  {
    var pid := UnusedPid(s.used);
    assert Turns(s, Spawn(j, pid), j);
  }

  lemma {:induction false} WorkerMoves(s: System, j: JobId)
    requires Sound(s) && In(s, j) && Waitless(s, Of(j))
    ensures exists step :: Turns(s, step, j)
  {
    hide Enabled, Next, Turns, Waitless;
    match s.workers[j].stage
    case Entering => EnteringMoves(s, j);
    case Depending => DependingMoves(s, j);
    case Ready => ReadyMoves(s, j);
    case Claiming(_) => ClaimingMoves(s, j);
    case Claimed(_) => ClaimedMoves(s, j);
    case Owning(_) => OwningMoves(s, j);
    case Dispatched => DispatchedMoves(s, j);
    case Pooling => PoolingMoves(s, j);
    case Leased => LeasedMoves(s, j);
    case Launching => LaunchingMoves(s, j);
    case Executing(_) => ExecutingMoves(s, j);
    case Ended(_) => EndedMoves(s, j);
  }

  /** Something that is waited for: a worker, a job still to be run, or a live lease. */
  ghost predicate Standing(s: System, n: Node) {
    match n
    case Of(j) => In(s, j) || (j in s.db.jobs && j !in s.workers && !Terminal(s.db.jobs[j].state))
    case Held(k) => k in LiveLeases(s.db, s.alive)
  }

  lemma {:induction false} WaitedForStands(s: System, a: Node, b: Node)
    requires Sound(s) && Waits(s, a, b)
    ensures Standing(s, b)
  {
    if b.Of? && b.job in s.workers {
      assert b.job in s.db.jobs;
    } else if s.workers[a.job].stage.Depending? {
      PendingIsOpen(s.db, a.job, b.job);
    } else if s.workers[a.job].stage.Pooling? && b.Of? {
      assert WaiterOk(s, b.job);
    }
  }

  lemma {:induction false} PendingIsOpen(db: Db, job: JobId, d: JobId)
    requires job in db.jobs && forall e :: e in db.jobs[job].payload.deps ==> e in db.jobs
    requires Polled(db, job).1.Pending? && d in Polled(db, job).1.waiting
    ensures d in db.jobs && !Terminal(db.jobs[d].state)
  {
    var deps := db.jobs[job].payload.deps;
    assert d in deps && db.jobs[d].state != Succeeded;
    assert d !in Bad(db, deps);
  }

  lemma {:induction false} StandingMoves(s: System, n: Node)
    requires Sound(s) && Standing(s, n) && Waitless(s, n)
    ensures CanMove(s, n)
  {
    hide Next, Turns, Enabled, Waitless, Sound;
    match n
    case Of(j) =>
      if j in s.workers {
        WorkerMoves(s, j);
      } else {
        WorkerlessMoves(s, j);
      }
    case Held(k) => LeaseMoves(s, k);
  }

  lemma {:induction false} LeaseMoves(s: System, k: JobId)
    requires Sound(s) && k in LiveLeases(s.db, s.alive)
    ensures CanMove(s, Held(k))
  {
    hide Next, Turns, Enabled, Sound;
    var pid := s.db.leases[k].pid;
    if j :| Uses(s, j, pid) {
      UserMoves(s, k, j);
    } else {
      forall j | j in s.workers ensures s.workers[j].pid != pid && s.workers[j].stage != Executing(pid) {
        assert !Uses(s, j, pid);
      }
      ExitIsEnabled(s, pid);
    }
  }

  lemma {:induction false} UserMoves(s: System, k: JobId, j: JobId)
    requires Sound(s) && k in s.db.leases && Uses(s, j, s.db.leases[k].pid)
    ensures exists step :: Turns(s, step, j)
  {
    hide Enabled, Next, Turns;
    assert LeaseOk(s, k);
    assert j in s.db.jobs;
    if s.workers[j].pid == s.db.leases[k].pid {
      LeaseholderMoves(s, k);
    } else {
      ExecutingMoves(s, j);
    }
  }

  lemma {:induction false} WorkerlessMoves(s: System, j: JobId)
    requires j in s.db.jobs && j !in s.workers && !Terminal(s.db.jobs[j].state)
    ensures (exists step :: Turns(s, step, j)) || Recovers(s, j)
  {
    hide Enabled, Next, Turns, Interrupts;
    if AwaitsWorker(s.db.jobs[j].state) {
      EnterTurns(s, j);
    } else {
      var r := UnusedPid(s.recoveries.Keys);
      RecoveryEnds(s, j, r);
    }
  }

  lemma {:induction false} EnterTurns(s: System, j: JobId)
    requires j in s.db.jobs && j !in s.workers && AwaitsWorker(s.db.jobs[j].state) && !Terminal(s.db.jobs[j].state)
    ensures exists step :: Turns(s, step, j)
  {
    var pid := UnusedPid(s.used);
    assert Turns(s, Enter(j, pid), j);
  }

  lemma {:induction false} RecoveryEnds(s: System, j: JobId, r: nat)
    requires j in s.db.jobs && j !in s.workers && !Terminal(s.db.jobs[j].state) && !AwaitsWorker(s.db.jobs[j].state)
    requires r !in s.recoveries
    ensures Interrupts(s, j, r)
  {
    hide NextOnTheWay, NextInPool;
  }

  lemma {:induction false} ExitIsEnabled(s: System, pid: nat)
    requires Leftover(s, pid)
    ensures Enabled(s, Exit(pid))
  {
  }

  lemma {:induction false} LeaseholderMoves(s: System, k: JobId)
    requires Sound(s) && k in s.workers && HasLease(s.workers[k].stage)
    ensures exists step :: Turns(s, step, k)
  {
    hide Enabled, Next, Turns;
    assert k in s.db.jobs;
    assert Waitless(s, Of(k));
    WorkerMoves(s, k);
  }

  /** From any standing node, waiting leads to one whose work can go on. */
  lemma {:induction false} SomeoneMoves(s: System, n: Node) returns (path: seq<Node>)
    requires Sound(s) && Standing(s, n)
    ensures Chain(s, path) && path[0] == n && CanMove(s, path[|path| - 1])
    decreases Class(s, n), Place(s, n)
  {
    hide Enabled, Next, Sound, Standing, Waits, CanMove, Class, Place;
    if m :| Waits(s, n, m) {
      WaitsDescend(s, n, m);
      WaitedForStands(s, n, m);
      var rest := SomeoneMoves(s, m);
      path := [n] + rest;
    } else {
      StandingMoves(s, n);
      path := [n];
    }
  }

  /** In every reachable state each worker waits, at the end of some chain, for something whose work can go on now. */
  lemma {:induction false} NoDeadlock(run: seq<System>, steps: seq<Step>, i: nat, j: JobId) returns (path: seq<Node>)
    requires IsRun(run, steps) && i < |run| && j in run[i].workers
    ensures Chain(run[i], path) && path[0] == Of(j) && CanMove(run[i], path[|path| - 1])
  {
    RunsAreSound(run, steps, i);
    path := SomeoneMoves(run[i], Of(j));
  }
}
