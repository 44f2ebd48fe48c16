/**
 Over every run of any number of workers: successes are earned, retired jobs never run, and the graph stays
 acyclic.
 */
module ExperimentSafety {
  import opened Wrappers
  import opened ExperimentDb
  import opened ExperimentGraph
  import opened ExperimentRuns

  /** Stages reached only after every prerequisite was seen to have succeeded. */
  predicate Past(stage: Stage) {
    !stage.Entering? && !stage.Depending? && stage != Ended(None)
  }

  ghost predicate PastOk(s: System) {
    forall j :: j in s.workers ==> j in s.db.jobs && (Past(s.workers[j].stage) ==> Earned(s.db.jobs, s.db.events, j))
  }

  /** A command is spawned only after its job's `running` transition has committed. */
  ghost predicate RunOk(s: System) {
    && (forall j :: j in s.workers && (s.workers[j].stage.Launching? || s.workers[j].stage.Executing?) ==>
        j in s.db.jobs && s.db.jobs[j].started)
    && (forall j :: j in s.spawned ==> j in s.db.jobs && s.db.jobs[j].started)
  }

  ghost predicate Safe(s: System) {
    GraphOk(s.db) && PastOk(s) && RunOk(s)
  }

  // ---- every step is one of the transactions

  lemma {:induction false} QuietMoves(a: Db, b: Db)
    requires GraphOk(a) && b.jobs == a.jobs && b.births == a.births && b.events == a.events
    ensures Moves(a, b)
  {
    NoChangeExtends(a, b);
  }

  lemma {:induction false} StateMoves(a: Db, job: JobId, state: JobState, result: Option<Evidence>)
    requires GraphOk(a) && (state == Succeeded ==> Earned(a.jobs, a.events, job)) && state != Retired
    ensures var r := SetState(a, job, state, result); Moves(a, if r.Ok? then r.value else a)
  {
    var r := SetState(a, job, state, result);
    if r.Ok? {
      SetStateMoves(a, job, state, result);
      assert Sets(a, r.value, job, state, result);
    } else {
      QuietMoves(a, a);
    }
  }

  /** All prerequisites are in state `succeeded` now, so the log has their successes. */
  lemma {:induction false} SucceededNow(db: Db, job: JobId)
    requires GraphOk(db) && job in db.jobs
    requires forall d :: d in db.jobs[job].payload.deps ==> d in db.jobs && db.jobs[d].state == Succeeded
    ensures Earned(db.jobs, db.events, job)
  {
  }

  predicate IsSubmission(step: Step) {
    step.Submit? || step.SubmitBatch? || step.Reuse? || step.Retire?
  }

  lemma {:induction false} SubmissionStepMoves(s: System, step: Step)
    requires Safe(s) && Enabled(s, step) && IsSubmission(step)
    ensures Moves(s.db, Next(s, step).db)
  {
    hide Next, GraphOk, Extends, Sets;
    match step
    case Submit(_, _, _, _, _) => SubmitMoves(s, step);
    case SubmitBatch(_, _, _, _) => SubmitMoves(s, step);
    case Reuse(job) => ReuseMoves(s, job);
    case Retire(session, job, replacement, reason) => RetireStepMoves(s, step);
  }

  /** A submission adds at most queued jobs; a refused one changes nothing. */
  lemma {:induction false} SubmitMoves(s: System, step: Step)
    requires Safe(s) && Enabled(s, step) && (step.Submit? || step.SubmitBatch?)
    ensures Extends(s.db, Next(s, step).db)
  {
    hide Submission, Batch, Extends, GraphOk, NewIds;
    NoChangeExtends(s.db, s.db);
    match step
    case Submit(session, p, repeat, retryFailed, newId) =>
      if Submission(s.db, session, p, repeat, retryFailed, newId).Some? {
        SubmissionExtends(s.db, session, p, repeat, retryFailed, newId);
      }
    case SubmitBatch(session, requests, repeat, newIds) =>
      if Batch(s.db, session, requests, repeat, newIds, |requests|).Some? {
        BatchExtends(s.db, session, requests, repeat, newIds, |requests|);
      }
  }

  lemma {:induction false} ReuseMoves(s: System, job: JobId)
    requires Safe(s) && Enabled(s, Reuse(job))
    ensures Moves(s.db, Next(s, Reuse(job)).db)
  {
    hide Moves, GraphOk, Earned;
    SucceededNow(s.db, job);
    StateMoves(s.db, job, Succeeded, s.db.jobs[s.db.cache[KeyOf(s, job).value]].result);
  }

  lemma {:induction false} RetireStepMoves(s: System, step: Step)
    requires Safe(s) && Enabled(s, step) && step.Retire?
    ensures Moves(s.db, Next(s, step).db)
  {
    hide Moves, GraphOk, RetiredDb, RetireError;
    RetireMoves(s.db, step.session, step.job, step.replacement, step.reason);
  }

  /** Steps that leave the tables alone. */
  predicate IsSilent(step: Step) {
    step.Probe? || step.Read? || step.Enter? || step.Take? || step.Sign? || step.Spawn? || step.Die? || step.Exit?
  }

  /** Steps that change only leases, waiters or the cache. */
  predicate IsPool(step: Step) {
    step.Acquire? || step.GiveUp? || step.Rebind? || step.Finish? || step.Abort? || step.Publish?
  }

  ghost predicate SameJobs(a: Db, b: Db) {
    b.jobs == a.jobs && b.births == a.births && b.events == a.events
  }

  lemma {:induction false} SilentStep(s: System, step: Step)
    requires Enabled(s, step) && IsSilent(step)
    ensures Next(s, step).db == s.db
  {
  }

  lemma {:induction false} PoolStep(s: System, step: Step)
    requires Enabled(s, step) && IsPool(step)
    ensures SameJobs(s.db, Next(s, step).db)
  {
    hide Enabled, Next, SameJobs;
    if step.Acquire? {
      AcquireStep(s, step.job, step.free);
    } else if step.Rebind? || step.Publish? {
      RowStep(s, step);
    } else {
      LeavingStep(s, step);
    }
  }

  lemma {:induction false} RowStep(s: System, step: Step)
    requires Enabled(s, step) && (step.Rebind? || step.Publish?)
    ensures SameJobs(s.db, Next(s, step).db)
  {
    hide NextForClient, NextOnTheWay, CacheableDependencies;
  }

  lemma {:induction false} LeavingStep(s: System, step: Step)
    requires Enabled(s, step) && (step.GiveUp? || step.Finish? || step.Abort?)
    ensures SameJobs(s.db, Next(s, step).db)
  {
    hide Enabled, Next, SameJobs;
    match step
    case GiveUp(job) => GiveUpStep(s, job);
    case Finish(job, outcome) => FinishStep(s, job, outcome);
    case Abort(job) => AbortStep(s, job);
  }

  lemma {:induction false} GiveUpStep(s: System, job: JobId)
    requires Enabled(s, GiveUp(job))
    ensures SameJobs(s.db, Next(s, GiveUp(job)).db)
  {
  }

  lemma {:induction false} FinishStep(s: System, job: JobId, outcome: Option<Evidence>)
    requires Enabled(s, Finish(job, outcome))
    ensures SameJobs(s.db, Next(s, Finish(job, outcome)).db)
  {
  }

  lemma {:induction false} AbortStep(s: System, job: JobId)
    requires Enabled(s, Abort(job))
    ensures SameJobs(s.db, Next(s, Abort(job)).db)
  {
  }

  lemma {:induction false} AcquireStep(s: System, job: JobId, free: nat)
    requires Enabled(s, Acquire(job, free))
    ensures SameJobs(s.db, Next(s, Acquire(job, free)).db)
  {
    hide IsHead, Fits, NextForClient, NextOnTheWay, Eligible, Locked, SetState, CacheableDependencies;
    assert SameJobs(s.db, Acquired(s.db, job, s.workers[job].pid, s.policy, s.alive, free).0);
  }

  lemma {:induction false} WaitMoves(s: System, job: JobId)
    requires Safe(s) && Enabled(s, Wait(job))
    ensures Moves(s.db, Next(s, Wait(job)).db)
  {
    hide Moves, GraphOk;
    QuietMoves(s.db, s.db);
    StateMoves(s.db, job, WaitingDependencies, None);
  }

  lemma {:induction false} PollMoves(s: System, job: JobId)
    requires Safe(s) && Enabled(s, Poll(job))
    ensures Moves(s.db, Next(s, Poll(job)).db)
  {
    hide Moves, GraphOk, Unmet;
    QuietMoves(s.db, s.db);
    StateMoves(s.db, job, Blocked, None);
  }

  lemma {:induction false} SeekMoves(s: System, job: JobId)
    requires Safe(s) && Enabled(s, Seek(job))
    ensures Moves(s.db, Next(s, Seek(job)).db)
  {
    hide Moves, GraphOk, CacheableDependencies;
    QuietMoves(s.db, s.db);
    StateMoves(s.db, job, QueuedFleet, None);
  }

  lemma {:induction false} RecordMoves(s: System, job: JobId)
    requires Safe(s) && Enabled(s, Record(job))
    ensures Moves(s.db, Next(s, Record(job)).db)
  {
    hide Moves, GraphOk, Earned;
    StateMoves(s.db, job, Failed, None);
    if s.workers[job].stage.evidence.Some? {
      assert Past(s.workers[job].stage);
      StateMoves(s.db, job, Succeeded, s.workers[job].stage.evidence);
    }
  }

  lemma {:induction false} WriteMoves(s: System, r: nat)
    requires Safe(s) && Enabled(s, Write(r))
    ensures Moves(s.db, Next(s, Write(r)).db)
  {
    hide Moves, GraphOk;
    StateMoves(s.db, s.recoveries[r].job, Interrupted, None);
  }

  lemma {:induction false} EnterPoolMoves(s: System, job: JobId)
    requires Safe(s) && Enabled(s, EnterPool(job))
    ensures Moves(s.db, Next(s, EnterPool(job)).db)
  {
    hide Moves, GraphOk;
    StateMoves(s.db, job, WaitingCpu, None);
  }

  lemma {:induction false} MeetMoves(s: System, job: JobId)
    requires Safe(s) && Enabled(s, MeetOwner(job))
    ensures Moves(s.db, Next(s, MeetOwner(job)).db)
  {
    var joined := JoinedOwner(s.db, job, s.owners[KeyOf(s, job).value]);
    var r := SetState(joined, job, WaitingEvidence, None);
    if r.Ok? {
      assert Sets(s.db, r.value, job, WaitingEvidence, None);
    } else {
      QuietMoves(s.db, joined);
    }
  }

  lemma {:induction false} SettleMoves(s: System, job: JobId, retried: bool, intact: bool)
    requires Safe(s) && Enabled(s, Settle(job, retried, intact))
    ensures Moves(s.db, Next(s, Settle(job, retried, intact)).db)
  {
    hide Moves, GraphOk, Earned, JoinFailed;
    if JoinFailed(s, job, s.workers[job].stage.joined, retried) {
      StateMoves(s.db, job, Blocked, None);
    } else if Hit(s.db, KeyOf(s, job)) && !s.db.jobs[job].repeat && intact {
      assert Past(s.workers[job].stage);
      StateMoves(s.db, job, Succeeded, s.db.jobs[s.db.cache[KeyOf(s, job).value]].result);
    } else {
      StateMoves(s.db, job, QueuedFleet, None);
    }
  }

  lemma {:induction false} CommitMoves(s: System, job: JobId)
    requires Safe(s) && Enabled(s, Commit(job))
    ensures Moves(s.db, Next(s, Commit(job)).db)
  {
    hide Moves, GraphOk;
    StateMoves(s.db, job, Running, None);
    if SetState(s.db, job, Running, None).Err? {
      QuietMoves(s.db, LeftPool(s.db, job, true));
    }
  }

  /** Each step makes one of the moves that keep the graph. */
  lemma {:induction false} StepMoves(s: System, step: Step)
    requires Safe(s) && Enabled(s, step)
    ensures Moves(s.db, Next(s, step).db)
  {
    hide Enabled, Next, Moves, GraphOk;
    if IsSubmission(step) {
      SubmissionStepMoves(s, step);
    } else if IsSilent(step) {
      SilentStep(s, step);
      QuietMoves(s.db, s.db);
    } else if IsPool(step) {
      PoolStep(s, step);
      QuietMoves(s.db, Next(s, step).db);
    } else {
      StateStepMoves(s, step);
    }
  }

  lemma {:induction false} StateStepMoves(s: System, step: Step)
    requires Safe(s) && Enabled(s, step) && !IsSubmission(step) && !IsSilent(step) && !IsPool(step)
    ensures Moves(s.db, Next(s, step).db)
  {
    hide Enabled, Next, Moves, Safe;
    match step
    case Write(r) => WriteMoves(s, r);
    case Wait(job) => WaitMoves(s, job);
    case Poll(job) => PollMoves(s, job);
    case Seek(job) => SeekMoves(s, job);
    case MeetOwner(job) => MeetMoves(s, job);
    case Settle(job, retried, intact) => SettleMoves(s, job, retried, intact);
    case EnterPool(job) => EnterPoolMoves(s, job);
    case Commit(job) => CommitMoves(s, job);
    case Record(job) => RecordMoves(s, job);
  }

  // ---- stages

  /** A worker gets past its prerequisites only by having none, or by a round that found them all succeeded. */
  ghost predicate PassesNow(s: System, step: Step, j: JobId) {
    In(s, j) && ((step == Wait(j) && s.db.jobs[j].payload.deps == {})
                 || (step == Poll(j) && Enabled(s, step) && Polled(s.db, j).1 == Passed))
  }

  ghost predicate CameFrom(s: System, step: Step, x: System, j: JobId) {
    j in x.workers ==>
      && (j in s.workers || (step.Enter? && step.job == j && x.workers[j].stage == Entering))
      && (Past(x.workers[j].stage) ==> j in s.workers && (Past(s.workers[j].stage) || PassesNow(s, step, j)))
      && ((x.workers[j].stage.Launching? || x.workers[j].stage.Executing?) ==>
            j in s.workers && (s.workers[j].stage.Launching? || s.workers[j].stage.Executing? || step == Commit(j)))
  }

  lemma {:induction false} SubmissionStages(s: System, step: Step, j: JobId)
    requires Enabled(s, step) && IsSubmission(step)
    ensures CameFrom(s, step, Next(s, step), j) && Next(s, step).workers == s.workers
    ensures Next(s, step).spawned == s.spawned
  {
    hide Submission, Batch, RetiredDb, SetState, Reusable;
  }

  lemma {:induction false} SilentStages(s: System, step: Step, j: JobId)
    requires Enabled(s, step) && IsSilent(step)
    ensures CameFrom(s, step, Next(s, step), j)
  {
    hide Locked;
  }

  lemma {:induction false} PoolStages(s: System, step: Step, j: JobId)
    requires Enabled(s, step) && IsPool(step)
    ensures CameFrom(s, step, Next(s, step), j)
  {
    hide Acquired, LeftPool, CacheableDependencies;
  }

  lemma {:induction false} EarlyStages(s: System, step: Step, j: JobId)
    requires Enabled(s, step) && (step.Write? || step.Wait? || step.Poll? || step.Seek?)
    ensures CameFrom(s, step, Next(s, step), j)
  {
    hide SetState, CacheableDependencies, Unmet;
  }

  lemma {:induction false} LateStages(s: System, step: Step, j: JobId)
    requires Enabled(s, step) && (step.MeetOwner? || step.Settle? || step.EnterPool? || step.Commit? || step.Record?)
    ensures CameFrom(s, step, Next(s, step), j)
  {
    hide SetState, JoinFailed, Locked, LeftPool;
  }

  lemma {:induction false} StateStages(s: System, step: Step, j: JobId)
    requires Enabled(s, step) && !IsSubmission(step) && !IsSilent(step) && !IsPool(step)
    ensures CameFrom(s, step, Next(s, step), j)
  {
    hide Enabled, Next, CameFrom;
    if step.Write? || step.Wait? || step.Poll? || step.Seek? {
      EarlyStages(s, step, j);
    } else {
      LateStages(s, step, j);
    }
  }

  lemma {:induction false} Stages(s: System, step: Step, j: JobId)
    requires Enabled(s, step)
    ensures CameFrom(s, step, Next(s, step), j)
  {
    hide Enabled, Next, CameFrom;
    if IsSubmission(step) {
      SubmissionStages(s, step, j);
    } else if IsSilent(step) {
      SilentStages(s, step, j);
    } else if IsPool(step) {
      PoolStages(s, step, j);
    } else {
      StateStages(s, step, j);
    }
  }

  lemma {:induction false} PastKept(s: System, step: Step, j: JobId)
    requires Safe(s) && Enabled(s, step) && j in Next(s, step).workers
    ensures var x := Next(s, step); j in x.db.jobs && (Past(x.workers[j].stage) ==> Earned(x.db.jobs, x.db.events, j))
  {
    hide Next, Moves, Earned;
    var x := Next(s, step);
    Stages(s, step, j);
    StepMoves(s, step);
    MovesKeepRows(s.db, x.db);
    if Past(x.workers[j].stage) {
      if PassesNow(s, step, j) {
        PassedEarned(s, step, j);
      }
      assert Earned(s.db.jobs, s.db.events, j);
      EarnedStays(s.db.jobs, x.db.jobs, s.db.events, x.db.events, j);
    }
  }

  lemma {:induction false} PassedEarned(s: System, step: Step, j: JobId)
    requires Safe(s) && PassesNow(s, step, j)
    ensures Earned(s.db.jobs, s.db.events, j)
  {
    if step == Poll(j) {
      var deps := s.db.jobs[j].payload.deps;
      forall d | d in deps ensures s.db.jobs[d].state == Succeeded {
        assert d !in Unmet(s.db, deps);
      }
      SucceededNow(s.db, j);
    }
  }

  lemma {:induction false} CommitStarts(s: System, job: JobId)
    requires Enabled(s, Commit(job))
    ensures var x := Next(s, Commit(job)); job in x.workers ==> job in x.db.jobs && x.db.jobs[job].started
  {
  }

  lemma {:induction false} ClientsSpawnNothing(s: System, step: Step)
    requires Enabled(s, step) && ByClient(step)
    ensures Next(s, step).spawned == s.spawned
  {
    hide NextOnTheWay, NextInPool, Submission, Batch, RetiredDb, SetState;
  }

  lemma {:induction false} WaySpawnsNothing(s: System, step: Step)
    requires Enabled(s, step) && OnTheWay(step)
    ensures Next(s, step).spawned == s.spawned
  {
    hide NextForClient, NextInPool, SetState, Polled, JoinFailed, Hit, Locked, CacheableDependencies;
  }

  lemma {:induction false} SpawnedGrows(s: System, step: Step, j: JobId)
    requires Enabled(s, step) && j in Next(s, step).spawned
    ensures j in s.spawned || (step.Spawn? && step.job == j && j in s.workers && s.workers[j].stage.Launching?)
  {
    hide NextForClient, NextOnTheWay, SetState, Acquired, LeftPool, Locked, CacheableDependencies;
    if ByClient(step) {
      ClientsSpawnNothing(s, step);
    } else if OnTheWay(step) {
      WaySpawnsNothing(s, step);
    }
  }

  lemma {:induction false} StartedKept(s: System, step: Step, j: JobId)
    requires Safe(s) && Enabled(s, step) && j in Next(s, step).workers
    requires Next(s, step).workers[j].stage.Launching? || Next(s, step).workers[j].stage.Executing?
    ensures j in Next(s, step).db.jobs && Next(s, step).db.jobs[j].started
  {
    hide Next, Moves;
    Stages(s, step, j);
    if step == Commit(j) {
      CommitStarts(s, j);
    } else {
      StepMoves(s, step);
      MovesKeepRows(s.db, Next(s, step).db);
    }
  }

  lemma {:induction false} SpawnedKept(s: System, step: Step, j: JobId)
    requires Safe(s) && Enabled(s, step) && j in Next(s, step).spawned
    ensures j in Next(s, step).db.jobs && Next(s, step).db.jobs[j].started
  {
    hide Next, Moves;
    SpawnedGrows(s, step, j);
    StepMoves(s, step);
    MovesKeepRows(s.db, Next(s, step).db);
  }

  lemma {:induction false} RunKept(s: System, step: Step)
    requires Safe(s) && Enabled(s, step)
    ensures RunOk(Next(s, step))
  {
    hide Enabled, Next, Safe;
    var x := Next(s, step);
    forall j | j in x.workers && (x.workers[j].stage.Launching? || x.workers[j].stage.Executing?)
      ensures j in x.db.jobs && x.db.jobs[j].started
    {
      StartedKept(s, step, j);
    }
    forall j | j in x.spawned ensures j in x.db.jobs && x.db.jobs[j].started {
      SpawnedKept(s, step, j);
    }
  }

  lemma {:induction false} StepKeepsSafe(s: System, step: Step)
    requires Safe(s) && Enabled(s, step)
    ensures Safe(Next(s, step)) && KeepsRows(s.db.jobs, Next(s, step).db.jobs) && s.db.events <= Next(s, step).db.events
  {
    hide Enabled, Next, Moves, GraphOk, KeepsRows, RunOk;
    var x := Next(s, step);
    StepMoves(s, step);
    MovesKeepRows(s.db, x.db);
    MovesKeep(s.db, x.db);
    RunKept(s, step);
    forall j | j in x.workers
      ensures j in x.db.jobs && (Past(x.workers[j].stage) ==> Earned(x.db.jobs, x.db.events, j))
    {
      PastKept(s, step, j);
    }
  }

  // ---- runs

  lemma {:induction false} RunsAreSafe(run: seq<System>, steps: seq<Step>, i: nat)
    requires IsRun(run, steps) && i < |run|
    ensures Safe(run[i])
    decreases i
  {
    hide Enabled, Next, KeepsRows;
    if i > 0 {
      RunsAreSafe(run, steps, i - 1);
      assert StepAt(run, steps, i - 1);
      StepKeepsSafe(run[i - 1], steps[i - 1]);
    }
  }

  /** Prerequisites are strictly older and of the same revision, in every reachable state. */
  lemma {:induction false} GraphIsAcyclic(run: seq<System>, steps: seq<Step>, i: nat, path: seq<JobId>)
    requires IsRun(run, steps) && i < |run| && |path| > 1 && path[0] in run[i].db.jobs
    requires forall k :: 0 <= k < |path| - 1 ==>
              path[k] in run[i].db.jobs && path[k + 1] in run[i].db.jobs[path[k]].payload.deps
    ensures path[|path| - 1] in run[i].db.jobs && path[|path| - 1] != path[0]
    ensures run[i].db.jobs[path[|path| - 1]].born < run[i].db.jobs[path[0]].born
    ensures run[i].db.jobs[path[|path| - 1]].payload.revision == run[i].db.jobs[path[0]].payload.revision
    decreases |path|
  {
    RunsAreSafe(run, steps, i);
    var n := |path| - 1;
    if n > 1 {
      GraphIsAcyclic(run, steps, i, path[..n]);
    }
    assert path[n] in run[i].db.jobs[path[n - 1]].payload.deps;
  }

  /** A success in the log comes after a success of every declared prerequisite, on whichever path it was reached. */
  lemma {:induction false} SuccessIsEarned(run: seq<System>, steps: seq<Step>, i: nat, at: nat, d: JobId)
    requires IsRun(run, steps) && i < |run| && at < |run[i].db.events| && run[i].db.events[at].kind == Became(Succeeded)
    ensures run[i].db.events[at].job in run[i].db.jobs
    ensures d in run[i].db.jobs[run[i].db.events[at].job].payload.deps ==>
              exists k :: 0 <= k < at && run[i].db.events[k] == Event(d, Became(Succeeded))
  {
    RunsAreSafe(run, steps, i);
    assert Earned(run[i].db.jobs, run[i].db.events[..at], run[i].db.events[at].job);
    if d in run[i].db.jobs[run[i].db.events[at].job].payload.deps {
      assert SucceededIn(run[i].db.events[..at], d);
    }
  }

  lemma {:induction false} RowsKept(run: seq<System>, steps: seq<Step>, i: nat, j: nat)
    requires IsRun(run, steps) && i <= j < |run|
    ensures KeepsRows(run[i].db.jobs, run[j].db.jobs)
    decreases j
  {
    hide Enabled, Next, Safe;
    if i < j {
      RowsKept(run, steps, i, j - 1);
      RunsAreSafe(run, steps, j - 1);
      assert StepAt(run, steps, j - 1);
      StepKeepsSafe(run[j - 1], steps[j - 1]);
    }
  }

  /** Retirement is final, and no run both retires a job and starts it, in either order. */
  lemma {:induction false} RetiredNeverRuns(run: seq<System>, steps: seq<Step>, i: nat, j: nat, job: JobId)
    requires IsRun(run, steps) && i <= j < |run| && job in run[i].db.jobs
    ensures job in run[j].db.jobs
    ensures run[i].db.jobs[job].state == Retired ==>
              run[j].db.jobs[job].state == Retired && !run[j].db.jobs[job].started && job !in run[j].spawned
    ensures job in run[i].spawned || run[i].db.jobs[job].started ==> run[j].db.jobs[job].state != Retired
  {
    RowsKept(run, steps, i, j);
    RunsAreSafe(run, steps, i);
    RunsAreSafe(run, steps, j);
  }
}
