/** How far a recorded success, a retirement and a claim can be relied on later. */
module ExperimentLapse {
  import opened Wrappers
  import opened ExperimentDb
  import opened ExperimentRuns
  import opened ExperimentGraph
  import opened ExperimentSafety
  import opened ExperimentPool
  import opened ExperimentProgress

  // ---- retirement

  /**
   A job is retired only by a withdrawal that leaves it no subscriber and no live dependent, and never after a
   start.
   */
  lemma {:induction false} RetiredWhenUnneeded(s: System, step: Step, job: JobId)
    requires Safe(s) && Enabled(s, step) && job in s.db.jobs && s.db.jobs[job].state != Retired
    requires job in Next(s, step).db.jobs && Next(s, step).db.jobs[job].state == Retired
    ensures step.Retire? && step.job == job
    ensures var w := Withdrawn(s.db, step.session, job, step.replacement, step.reason);
            ActiveSubscribers(w, job) == {} && Dependents(w, job) == {} && !s.db.jobs[job].started
            && !Terminal(s.db.jobs[job].state)
  {
    hide Next, Enabled, GraphOk;
    if IsSilent(step) {
      SilentStep(s, step);
    } else if IsPool(step) {
      PoolStep(s, step);
    } else if step.SubmitBatch? || step.Submit? {
      SubmitMoves(s, step);
    } else if step.Reuse? {
      ReuseState(s, step.job, job);
    } else if step.Retire? {
      RetireState(s, step, job);
    } else {
      OneStateChange(s, step, job);
    }
  }

  lemma {:induction false} ReuseState(s: System, j: JobId, job: JobId)
    requires Enabled(s, Reuse(j)) && job in s.db.jobs
    ensures job in Next(s, Reuse(j)).db.jobs
    ensures Next(s, Reuse(j)).db.jobs[job].state == if j == job then Succeeded else s.db.jobs[job].state
  {
  }

  /** A retirement changes at most its own job, and then because that job is not needed. */
  lemma {:induction false} RetireState(s: System, step: Step, job: JobId)
    requires Enabled(s, step) && step.Retire? && job in s.db.jobs
    ensures job in Next(s, step).db.jobs
    ensures Next(s, step).db.jobs[job].state != s.db.jobs[job].state ==>
              step.job == job && Unneeded(Withdrawn(s.db, step.session, job, step.replacement, step.reason), job)
  {
    hide ActiveSubscribers, Dependents;
  }

  ghost predicate OneState(s: System, step: Step, x: System, job: JobId)
    requires job in s.db.jobs
  {
    && job in x.db.jobs
    && (x.db.jobs[job].state != s.db.jobs[job].state ==>
          x.db.jobs[job].state != Retired
          && (if step.Write? then step.recoverer in s.recoveries && s.recoveries[step.recoverer].job == job
              else JobOf(step) == job))
  }

  /** Only this job's state may differ, and it is not retired now. */
  ghost predicate OneChange(a: Db, b: Db, j: JobId, job: JobId)
    requires job in a.jobs
  {
    job in b.jobs && (b.jobs[job].state != a.jobs[job].state ==> b.jobs[job].state != Retired && j == job)
  }

  lemma {:induction false} SetChange(db: Db, j: JobId, state: JobState, result: Option<Evidence>, job: JobId)
    requires job in db.jobs && state != Retired
    ensures var r := SetState(db, j, state, result); OneChange(db, if r.Ok? then r.value else db, j, job)
  {
  }

  lemma {:induction false} StateToChange(s: System, j: JobId, state: JobState, stage: Stage, job: JobId)
    requires In(s, j) && job in s.db.jobs && state != Retired
    ensures OneChange(s.db, StateTo(s, j, state, stage).db, j, job)
  {
    SetChange(s.db, j, state, None, job);
  }

  lemma {:induction false} StateGoneChange(s: System, j: JobId, state: JobState, result: Option<Evidence>, job: JobId)
    requires job in s.db.jobs && state != Retired
    ensures OneChange(s.db, StateGone(s, j, state, result).db, j, job)
  {
    SetChange(s.db, j, state, result, job);
  }

  lemma {:induction false} PollState(s: System, j: JobId, job: JobId)
    requires Enabled(s, Poll(j)) && job in s.db.jobs
    ensures OneState(s, Poll(j), Next(s, Poll(j)), job)
  {
    hide Unmet, Bad;
    SetChange(s.db, j, Blocked, None, job);
  }

  lemma {:induction false} CommitState(s: System, j: JobId, job: JobId)
    requires Enabled(s, Commit(j)) && job in s.db.jobs
    ensures OneState(s, Commit(j), Next(s, Commit(j)), job)
  {
    hide SetState;
    SetChange(s.db, j, Running, None, job);
  }

  lemma {:induction false} EarlyState(s: System, step: Step, job: JobId)
    requires Enabled(s, step) && IsEarly(step) && job in s.db.jobs
    ensures OneState(s, step, Next(s, step), job)
  {
    hide StateTo, SetState, CacheableDependencies;
    match step
    case Write(r) => SetChange(s.db, s.recoveries[r].job, Interrupted, None, job);
    case Wait(j) => StateToChange(s, j, WaitingDependencies, Depending, job);
    case Poll(j) => PollState(s, j, job);
    case Seek(j) => StateToChange(s, j, QueuedFleet, Dispatched, job);
  }

  lemma {:induction false} MeetState(s: System, j: JobId, job: JobId)
    requires Enabled(s, MeetOwner(j)) && job in s.db.jobs
    ensures OneState(s, MeetOwner(j), Next(s, MeetOwner(j)), job)
  {
    hide StateTo, Locked;
    var owner := s.owners[KeyOf(s, j).value];
    StateToChange(s.(db := JoinedOwner(s.db, j, owner)), j, WaitingEvidence, Claiming(Some(owner)), job);
  }

  lemma {:induction false} SettleState(s: System, j: JobId, retried: bool, intact: bool, job: JobId)
    requires Enabled(s, Settle(j, retried, intact)) && job in s.db.jobs
    ensures OneState(s, Settle(j, retried, intact), Next(s, Settle(j, retried, intact)), job)
  {
    hide StateTo, StateGone, JoinFailed;
    StateGoneChange(s, j, Blocked, None, job);
    if Hit(s.db, KeyOf(s, j)) {
      StateGoneChange(s, j, Succeeded, s.db.jobs[s.db.cache[KeyOf(s, j).value]].result, job);
    }
    StateToChange(s, j, QueuedFleet, Dispatched, job);
  }

  lemma {:induction false} LateState(s: System, step: Step, job: JobId)
    requires Enabled(s, step) && (step.EnterPool? || step.Record? || step.Commit?) && job in s.db.jobs
    ensures OneState(s, step, Next(s, step), job)
  {
    hide StateTo, StateGone;
    match step
    case EnterPool(j) => StateToChange(s, j, WaitingCpu, Pooling, job);
    case Commit(j) => CommitState(s, j, job);
    case Record(j) =>
      StateGoneChange(s, j, Succeeded, s.workers[j].stage.evidence, job);
      StateGoneChange(s, j, Failed, None, job);
  }

  /** A worker's or a recovery's transaction changes only its own job's state, and never to retired. */
  lemma {:induction false} OneStateChange(s: System, step: Step, job: JobId)
    requires Enabled(s, step) && !IsSubmission(step) && !IsSilent(step) && !IsPool(step) && job in s.db.jobs
    ensures OneState(s, step, Next(s, step), job)
  {
    hide Enabled, Next, OneState;
    match step
    case MeetOwner(j) => MeetState(s, j, job);
    case Settle(j, retried, intact) => SettleState(s, j, retried, intact, job);
    case _ =>
      if IsEarly(step) {
        EarlyState(s, step, job);
      } else {
        LateState(s, step, job);
      }
  }

  // ---- claims

  /** At most one live worker owns an identity key, in every reachable state. */
  lemma {:induction false} OneClaimOwner(run: seq<System>, steps: seq<Step>, i: nat, a: JobId, b: JobId, key: Key)
    requires IsRun(run, steps) && i < |run| && a in run[i].workers && b in run[i].workers
    requires run[i].workers[a].holds == Some(key) && run[i].workers[b].holds == Some(key)
    ensures a == b && a in run[i].db.jobs && (run[i].workers[a].stage.Claimed? ==> KeyOf(run[i], a).Some?)
  {
    RunsAreSound(run, steps, i);
  }

  // ---- lapsed successes

  /** Nobody works on a job that has succeeded. */
  ghost predicate DoneIsLeft(s: System) {
    forall j :: j in s.workers ==> j in s.db.jobs && s.db.jobs[j].state != Succeeded
  }

  lemma {:induction false} SubmissionsLeaveStates(s: System, step: Step, job: JobId)
    requires Safe(s) && Enabled(s, step) && (step.Submit? || step.SubmitBatch?) && job in s.db.jobs
    ensures job in Next(s, step).db.jobs && Next(s, step).db.jobs[job] == s.db.jobs[job]
  {
    hide Enabled, Next, Safe;
    SubmitMoves(s, step);
  }

  lemma {:induction false} WriteLapses(s: System, r: nat, job: JobId)
    requires Enabled(s, Write(r)) && job in s.db.jobs && s.db.jobs[job].state == Succeeded
    ensures job in Next(s, Write(r)).db.jobs
    ensures Next(s, Write(r)).db.jobs[job].state == if s.recoveries[r] == Doubting(job) then Interrupted else Succeeded
  {
  }

  lemma {:induction false} DoneIsNotRetired(s: System, step: Step, job: JobId)
    requires Enabled(s, step) && (step.Reuse? || step.Retire?) && job in s.db.jobs && s.db.jobs[job].state == Succeeded
    ensures job in Next(s, step).db.jobs && Next(s, step).db.jobs[job].state == Succeeded
  {
    hide Next;
    if step.Reuse? {
      ReuseState(s, step.job, job);
    } else {
      RetireState(s, step, job);
    }
  }

  lemma {:induction false} WorkersLeaveOthers(s: System, step: Step, job: JobId)
    requires DoneIsLeft(s) && Enabled(s, step) && !IsSubmission(step) && !IsSilent(step) && !IsPool(step)
    requires !step.Write?
    requires job in s.db.jobs && s.db.jobs[job].state == Succeeded
    ensures job in Next(s, step).db.jobs && Next(s, step).db.jobs[job].state == Succeeded
  {
    hide Next;
    OneStateChange(s, step, job);
    assert JobOf(step) in s.workers;
  }

  /** A success is overwritten only by a recovery that doubted the job before it. */
  lemma {:induction false} LapseIsLateRecovery(s: System, step: Step, job: JobId)
    requires Safe(s) && DoneIsLeft(s) && Enabled(s, step) && job in s.db.jobs && s.db.jobs[job].state == Succeeded
    ensures job in Next(s, step).db.jobs
    ensures Next(s, step).db.jobs[job].state != Succeeded <==>
              step.Write? && s.recoveries[step.recoverer] == Doubting(job)
  {
    hide Next, Safe, DoneIsLeft;
    if step.Submit? || step.SubmitBatch? {
      SubmissionsLeaveStates(s, step, job);
    } else if IsSubmission(step) {
      DoneIsNotRetired(s, step, job);
    } else if IsSilent(step) {
      SilentStep(s, step);
    } else if IsPool(step) {
      PoolStep(s, step);
    } else if step.Write? {
      WriteLapses(s, step.recoverer, job);
    } else {
      WorkersLeaveOthers(s, step, job);
    }
  }

  /** Whoever records a success leaves. */
  lemma {:induction false} SuccessEndsWorker(s: System, step: Step, j: JobId)
    requires Enabled(s, step) && !IsSubmission(step) && !IsSilent(step) && !IsPool(step) && j in s.db.jobs
    requires s.db.jobs[j].state != Succeeded
    requires j in Next(s, step).db.jobs && Next(s, step).db.jobs[j].state == Succeeded
    ensures j !in Next(s, step).workers
  {
    hide Enabled, Next;
    OneStateChange(s, step, j);
    if IsEarly(step) {
      NoEarlySuccess(s, step, j);
    } else {
      LateSuccess(s, step, j);
    }
  }

  lemma {:induction false} NoEarlySuccess(s: System, step: Step, j: JobId)
    requires Enabled(s, step) && IsEarly(step) && j in s.db.jobs && s.db.jobs[j].state != Succeeded
    ensures j in Next(s, step).db.jobs ==> Next(s, step).db.jobs[j].state != Succeeded
  {
    hide CacheableDependencies, Unmet;
  }

  /** After the step either the worker is gone or its job has not succeeded. */
  ghost predicate GoneOrOpen(x: System, j: JobId) {
    j !in x.workers || (j in x.db.jobs && x.db.jobs[j].state != Succeeded)
  }

  lemma {:induction false} StateGoneGoes(s: System, j: JobId, state: JobState, result: Option<Evidence>)
    ensures j !in StateGone(s, j, state, result).workers
  {
  }

  lemma {:induction false} StateToOpen(s: System, j: JobId, state: JobState, stage: Stage)
    requires In(s, j) && state != Succeeded
    ensures GoneOrOpen(StateTo(s, j, state, stage), j)
  {
  }

  lemma {:induction false} SettleSuccess(s: System, j: JobId, retried: bool, intact: bool)
    requires Enabled(s, Settle(j, retried, intact))
    ensures GoneOrOpen(Next(s, Settle(j, retried, intact)), j)
  {
    hide StateTo, StateGone, JoinFailed;
    StateGoneGoes(s, j, Blocked, None);
    StateToOpen(s, j, QueuedFleet, Dispatched);
    if Hit(s.db, KeyOf(s, j)) {
      StateGoneGoes(s, j, Succeeded, s.db.jobs[s.db.cache[KeyOf(s, j).value]].result);
    }
  }

  lemma {:induction false} MeetSuccess(s: System, j: JobId)
    requires Enabled(s, MeetOwner(j))
    ensures GoneOrOpen(Next(s, MeetOwner(j)), j)
  {
    hide StateTo, Locked;
    var owner := s.owners[KeyOf(s, j).value];
    StateToOpen(s.(db := JoinedOwner(s.db, j, owner)), j, WaitingEvidence, Claiming(Some(owner)));
  }

  lemma {:induction false} RestSuccess(s: System, step: Step, j: JobId)
    requires Enabled(s, step) && (step.EnterPool? || step.Commit? || step.Record?) && step.job == j
    ensures GoneOrOpen(Next(s, step), j)
  {
  }

  lemma {:induction false} LateSuccess(s: System, step: Step, j: JobId)
    requires Enabled(s, step) && (IsLate(step) || step.Commit?) && JobOf(step) == j
    ensures GoneOrOpen(Next(s, step), j)
  {
    hide Enabled, Next, GoneOrOpen;
    match step
    case Settle(_, retried, intact) => SettleSuccess(s, j, retried, intact);
    case MeetOwner(_) => MeetSuccess(s, j);
    case _ => RestSuccess(s, step, j);
  }

  lemma {:induction false} SubmissionWorkers(s: System, step: Step, j: JobId)
    requires Safe(s) && DoneIsLeft(s) && Enabled(s, step) && IsSubmission(step) && j in s.workers
    ensures j in Next(s, step).db.jobs && Next(s, step).db.jobs[j].state != Succeeded
  {
    hide Next, Safe;
    if step.Submit? || step.SubmitBatch? {
      SubmissionsLeaveStates(s, step, j);
    } else if step.Reuse? {
      ReuseState(s, step.job, j);
    } else {
      RetireKeepsOpen(s, step, j);
    }
  }

  lemma {:induction false} RetireKeepsOpen(s: System, step: Step, j: JobId)
    requires Enabled(s, step) && step.Retire? && j in s.db.jobs && s.db.jobs[j].state != Succeeded
    ensures j in Next(s, step).db.jobs && Next(s, step).db.jobs[j].state != Succeeded
  {
    hide ActiveSubscribers, Dependents;
  }

  lemma {:induction false} DoneKept(s: System, step: Step, j: JobId)
    requires Safe(s) && DoneIsLeft(s) && Enabled(s, step) && j in Next(s, step).workers
    ensures j in Next(s, step).db.jobs && Next(s, step).db.jobs[j].state != Succeeded
  {
    hide Next, Safe;
    PastKept(s, step, j);
    if IsSubmission(step) {
      SubmissionStages(s, step, j);
      SubmissionWorkers(s, step, j);
    } else if IsSilent(step) {
      SilentStep(s, step);
      SilentStages(s, step, j);
    } else if IsPool(step) {
      PoolStep(s, step);
      PoolStages(s, step, j);
    } else {
      StateStages(s, step, j);
      if Next(s, step).db.jobs[j].state == Succeeded {
        SuccessEndsWorker(s, step, j);
      }
    }
  }

  lemma {:induction false} RunsLeaveDone(run: seq<System>, steps: seq<Step>, i: nat)
    requires IsRun(run, steps) && i < |run|
    ensures Safe(run[i]) && DoneIsLeft(run[i])
    decreases i
  {
    hide Enabled, Next, Safe;
    RunsAreSafe(run, steps, i);
    if i > 0 {
      RunsLeaveDone(run, steps, i - 1);
      assert StepAt(run, steps, i - 1);
      forall j | j in run[i].workers ensures j in run[i].db.jobs && run[i].db.jobs[j].state != Succeeded {
        DoneKept(run[i - 1], steps[i - 1], j);
      }
    }
  }

  /** At each step of a run a success is overwritten exactly by the late write of a recovery that doubted its job. */
  lemma {:induction false} SuccessLasts(run: seq<System>, steps: seq<Step>, i: nat, job: JobId)
    requires IsRun(run, steps) && i < |steps| && job in run[i].db.jobs && run[i].db.jobs[job].state == Succeeded
    ensures job in run[i + 1].db.jobs
    ensures run[i + 1].db.jobs[job].state == Succeeded
            <==> !(steps[i].Write? && steps[i].recoverer in run[i].recoveries
                   && run[i].recoveries[steps[i].recoverer] == Doubting(job))
  {
    RunsLeaveDone(run, steps, i);
    assert StepAt(run, steps, i);
    LapseIsLateRecovery(run[i], steps[i], job);
  }

  /** No recovery is about to write that this job was interrupted. */
  ghost predicate Undoubted(s: System, job: JobId) {
    forall r :: r in s.recoveries ==> s.recoveries[r] != Doubting(job)
  }

  lemma {:induction false} WorkersLeaveRecoveries(s: System, step: Step)
    requires Enabled(s, step) && !ByClient(step)
    ensures Next(s, step).recoveries == s.recoveries
  {
    hide NextForClient, NextOnTheWay, SetState, LeftPool, Acquired, CacheableDependencies, Locked;
    if OnTheWay(step) {
      WayLeavesRecoveries(s, step);
    }
  }

  lemma {:induction false} WayLeavesRecoveries(s: System, step: Step)
    requires Enabled(s, step) && OnTheWay(step)
    ensures Next(s, step).recoveries == s.recoveries
  {
    hide NextForClient, NextInPool, SetState, Polled, JoinFailed, Hit, Locked, CacheableDependencies;
  }

  /** A finished job is not doubted anew. */
  lemma {:induction false} NoNewDoubt(s: System, step: Step, job: JobId)
    requires Enabled(s, step) && job in s.db.jobs && Terminal(s.db.jobs[job].state) && Undoubted(s, job)
    ensures Undoubted(Next(s, step), job)
  {
    if !ByClient(step) {
      WorkersLeaveRecoveries(s, step);
    }
  }

  /** Over whole runs: a success that no recovery doubts stays recorded. */
  lemma {:induction false} UndoubtedSuccessStays(run: seq<System>, steps: seq<Step>, i: nat, j: nat, job: JobId)
    requires IsRun(run, steps) && i <= j < |run| && job in run[i].db.jobs && run[i].db.jobs[job].state == Succeeded
    requires Undoubted(run[i], job)
    ensures job in run[j].db.jobs && run[j].db.jobs[job].state == Succeeded && Undoubted(run[j], job)
    decreases j
  {
    hide Enabled, Next;
    if i < j {
      UndoubtedSuccessStays(run, steps, i, j - 1, job);
      assert StepAt(run, steps, j - 1);
      SuccessLasts(run, steps, j - 1, job);
      NoNewDoubt(run[j - 1], steps[j - 1], job);
    }
  }
}
