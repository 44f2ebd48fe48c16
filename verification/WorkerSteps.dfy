/** What a worker's step does to its job, its claim and its place in the pool. */
module WorkerSteps {
  import opened Wrappers
  import opened ExperimentDb
  import opened ExperimentRuns
  import opened Transactions

  /** Only this worker may have changed, and it is at this stage or gone. */
  ghost predicate WorkerAt(s: System, x: System, job: JobId, stage: Option<Stage>) {
    && job in s.workers && x.policy == s.policy && x.recoveries == s.recoveries && x.used == s.used
    && match stage
       case None => x.workers == s.workers - {job}
       case Some(at) => x.workers == s.workers[job := s.workers[job].(stage := at)]
  }

  /** The job takes the state and its worker goes on; a retired job keeps its state, and its worker leaves. */
  ghost predicate Enters(s: System, x: System, job: JobId, state: JobState, result: Option<Evidence>,
                         stage: Option<Stage>) {
    && job in s.db.jobs && x.owners == s.owners && x.alive == s.alive && x.spawned == s.spawned
    && if s.db.jobs[job].state == Retired then x.db == s.db && WorkerAt(s, x, job, None)
       else OnlyBecame(s.db, x.db, job, state, result) && WorkerAt(s, x, job, stage)
  }

  lemma {:induction false} StateToAnswer(s: System, job: JobId, state: JobState, stage: Stage)
    requires In(s, job) && state != Retired
    ensures Enters(s, StateTo(s, job, state, stage), job, state, None, Some(stage))
  {
    StateAnswer(s.db, job, state, None);
  }

  lemma {:induction false} StateGoneAnswer(s: System, job: JobId, state: JobState, result: Option<Evidence>)
    requires In(s, job) && state != Retired
    ensures Enters(s, StateGone(s, job, state, result), job, state, result, None)
  {
    StateAnswer(s.db, job, state, result);
  }

  // ---- reuse, recovery, and the beginning and end of a worker

  /** Reuse succeeds with the cached job's result. */
  lemma {:induction false} ReuseStep(s: System, job: JobId)
    requires Enabled(s, Reuse(job))
    ensures var x, key := Next(s, Reuse(job)), s.db.jobs[job].payload.key;
            && key.Some? && key.value in s.db.cache && s.db.cache[key.value] in s.db.jobs && x == s.(db := x.db)
            && OnlyBecame(s.db, x.db, job, Succeeded, s.db.jobs[s.db.cache[key.value]].result)
  {
    StateAnswer(s.db, job, Succeeded, s.db.jobs[s.db.cache[s.db.jobs[job].payload.key.value]].result);
  }

  /** A recovery that found no worker looks at the state, and doubts exactly a job that had left its waiting states. */
  lemma {:induction false} ReadStep(s: System, r: nat)
    requires Enabled(s, Read(r))
    ensures var x, job := Next(s, Read(r)), s.recoveries[r].job;
            x == s.(recoveries := if s.db.jobs[job].state in {QueuedFleet, Running}
                                  then s.recoveries[r := Doubting(job)] else s.recoveries - {r})
  {
  }

  /** A recovery that doubts a job writes it as interrupted, whatever it is by then, unless it is retired. */
  lemma {:induction false} WriteStep(s: System, r: nat)
    requires Enabled(s, Write(r))
    ensures var x, job := Next(s, Write(r)), s.recoveries[r].job;
            && x == s.(recoveries := s.recoveries - {r}, db := x.db)
            && (job in s.db.jobs && s.db.jobs[job].state != Retired ==> OnlyBecame(s.db, x.db, job, Interrupted, None))
            && (job !in s.db.jobs || s.db.jobs[job].state == Retired ==> x.db == s.db)
  {
    StateAnswer(s.db, s.recoveries[r].job, Interrupted, None);
  }

  /** A worker comes to an open job that has none, with a new process of its own. */
  lemma {:induction false} EnterStep(s: System, job: JobId, pid: nat)
    requires Enabled(s, Enter(job, pid))
    ensures job in s.db.jobs && job !in s.workers && s.db.jobs[job].state !in OVER && pid !in s.used
    ensures Next(s, Enter(job, pid)) ==
            s.(workers := s.workers[job := Worker(pid, Entering, None)], alive := s.alive + {pid},
               used := s.used + {pid})
  {
  }

  /** A worker that dies takes its process with it and leaves its rows; a leftover's end is just that. */
  lemma {:induction false} DieStep(s: System, job: JobId, pid: nat)
    ensures Enabled(s, Die(job)) ==>
              Next(s, Die(job)) == s.(workers := s.workers - {job}, alive := s.alive - {s.workers[job].pid})
    ensures Enabled(s, Exit(pid)) ==> Next(s, Exit(pid)) == s.(alive := s.alive - {pid})
  {
  }

  // ---- prerequisites and claims

  /** A worker without prerequisites goes on at once; with some it waits for them. */
  lemma {:induction false} WaitStep(s: System, job: JobId)
    requires Enabled(s, Wait(job))
    ensures var x := Next(s, Wait(job));
            if s.db.jobs[job].payload.deps == {} then x == s.(workers := x.workers) && WorkerAt(s, x, job, Some(Ready))
            else Enters(s, x, job, WaitingDependencies, None, Some(Depending))
  {
    hide StateTo, Enters;
    StateToAnswer(s, job, WaitingDependencies, Depending);
  }

  /** It goes on once all prerequisites succeeded; it ends, blocked, once one ended otherwise; else it waits. */
  lemma {:induction false} PollStep(s: System, job: JobId)
    requires Enabled(s, Poll(job))
    ensures var x, deps := Next(s, Poll(job)), s.db.jobs[job].payload.deps;
            var failed := exists d :: d in deps && s.db.jobs[d].state in OVER && s.db.jobs[d].state != Succeeded;
            && (s.db.jobs[job].state in OVER ==> x == s.(workers := s.workers - {job}))
            && (s.db.jobs[job].state !in OVER ==>
                  && (failed ==> Enters(s, x, job, Blocked, None, None))
                  && ((forall d :: d in deps ==> s.db.jobs[d].state == Succeeded) ==>
                        x == s.(workers := x.workers) && WorkerAt(s, x, job, Some(Ready)))
                  && (!failed && (exists d :: d in deps && s.db.jobs[d].state != Succeeded) ==> x == s))
  {
    hide SetState, Terminal, OnlyBecame, Polled;
    PollAnswer(s.db, job);
  }

  /**
   With its prerequisites met it looks for shared evidence exactly if it has an identity that no built input
   taints.
   */
  lemma {:induction false} SeekStep(s: System, job: JobId)
    requires Enabled(s, Seek(job))
    ensures var x := Next(s, Seek(job));
            var p := s.db.jobs[job].payload;
            if p.key.Some? && forall d :: d in p.deps && d in s.db.jobs ==>
                 s.db.jobs[d].payload.outputs == false
                 && (s.db.jobs[d].result.Some? ==> s.db.jobs[d].result.value.artifacts == false)
            then x == s.(workers := x.workers) && WorkerAt(s, x, job, Some(Claiming(None)))
            else Enters(s, x, job, QueuedFleet, None, Some(Dispatched))
  {
    hide StateTo, Enters;
    StateToAnswer(s, job, QueuedFleet, Dispatched);
  }

  /**
   A busy claim's owner is joined: its job is kept alive by a dependency row, and the worker waits for its
   evidence.
   */
  lemma {:induction false} MeetStep(s: System, job: JobId)
    requires Enabled(s, MeetOwner(job))
    ensures var key := s.db.jobs[job].payload.key;
            && key.Some? && key.value in s.owners && (exists j :: j in s.workers && s.workers[j].holds == key)
            && Enters(s.(db := s.db.(shared := s.db.shared + {(job, s.owners[key.value])})), Next(s, MeetOwner(job)),
                      job,
                      WaitingEvidence, None, Some(Claiming(Some(s.owners[key.value]))))
  {
    hide StateTo, Enters;
    var owner := s.owners[s.db.jobs[job].payload.key.value];
    StateToAnswer(s.(db := JoinedOwner(s.db, job, owner)), job, WaitingEvidence, Claiming(Some(owner)));
  }

  /** A free claim is taken and signed; a retired job leaves instead. */
  lemma {:induction false} ClaimSteps(s: System, job: JobId)
    ensures Enabled(s, Take(job)) ==>
              var x, key := Next(s, Take(job)), s.db.jobs[job].payload.key;
              && key.Some? && x == s.(workers := x.workers)
              && (if s.db.jobs[job].state == Retired then x.workers == s.workers - {job}
                  else
                    && (forall j :: j in s.workers ==> s.workers[j].holds != key)
                    && x.workers.Keys == s.workers.Keys && x.workers[job].holds == key && x.workers[job].stage.Claimed?
                    && forall j :: j in s.workers && j != job ==> x.workers[j] == s.workers[j])
    ensures Enabled(s, Sign(job)) ==>
              var x, key := Next(s, Sign(job)), s.db.jobs[job].payload.key;
              key.Some? && x.owners == s.owners[key.value := job] && x.db == s.db && x.alive == s.alive
              && WorkerAt(s, x, job, Some(Owning(s.workers[job].stage.joined)))
  {
  }

  /** The check that was joined ended without success, and covers the same identity. */
  ghost predicate JoinedEndedBadly(s: System, job: JobId, joined: Option<JobId>)
    requires job in s.db.jobs
  {
    joined.Some? && joined.value in s.db.jobs && s.db.jobs[joined.value].payload.key == s.db.jobs[job].payload.key
    && s.db.jobs[joined.value].state in OVER && s.db.jobs[joined.value].state != Succeeded
  }

  /** A cached success of the identity, with full coverage. */
  ghost predicate CachedSuccess(s: System, job: JobId, source: JobId)
    requires job in s.db.jobs
  {
    var key := s.db.jobs[job].payload.key;
    key.Some? && key.value in s.db.cache && s.db.cache[key.value] == source && source in s.db.jobs
    && s.db.jobs[source].state == Succeeded && s.db.jobs[source].result.Some? && s.db.jobs[source].result.value.covered
  }

  /**
   The claim's owner is blocked by the failure of the check it waited for, unless it repeats or retries that check; else
   it takes over an intact cached success, unless it repeats; else it goes on to its own run.
   */
  lemma {:induction false} SettleStep(s: System, job: JobId, retried: bool, intact: bool)
    requires Enabled(s, Settle(job, retried, intact))
    ensures var x := Next(s, Settle(job, retried, intact));
            var once := s.db.jobs[job].repeat == false;
            var failed := once && !retried && JoinedEndedBadly(s, job, s.workers[job].stage.joined);
            && (failed ==> Enters(s, x, job, Blocked, None, None))
            && (!failed ==>
                  && (forall source :: once && intact && CachedSuccess(s, job, source) ==>
                        Enters(s, x, job, Succeeded, s.db.jobs[source].result, None))
                  && ((forall source :: !(once && intact && CachedSuccess(s, job, source))) ==>
                        Enters(s, x, job, QueuedFleet, None, Some(Dispatched))))
  {
    hide StateTo, StateGone, Enters;
    StateToAnswer(s, job, QueuedFleet, Dispatched);
    StateGoneAnswer(s, job, Blocked, None);
    assert Hit(s.db, KeyOf(s, job)) <==>
        CachedSuccess(s, job, if Hit(s.db, KeyOf(s, job)) then s.db.cache[KeyOf(s, job).value] else job);
    if Hit(s.db, KeyOf(s, job)) {
      StateGoneAnswer(s, job, Succeeded, s.db.jobs[s.db.cache[KeyOf(s, job).value]].result);
    }
    forall source | CachedSuccess(s, job, source)
        ensures Hit(s.db, KeyOf(s, job)) && source == s.db.cache[KeyOf(s, job).value] {
    }
  }

  // ---- the pool

  /** An attempt at the pool changes the store as the transaction does, and a lease moves the worker on. */
  lemma {:induction false} AcquireStep(s: System, job: JobId, free: nat)
    requires Enabled(s, Acquire(job, free))
    ensures var x, done := Next(s, Acquire(job, free)),
                           Acquired(s.db, job, s.workers[job].pid, s.policy, s.alive, free);
            && s.db.jobs[job].payload.slots <= s.policy.slots && s.db.jobs[job].payload.memory <= s.policy.memory
            && x == s.(db := done.0, workers := x.workers)
            && WorkerAt(s, x, job, Some(if done.1 then Leased else Pooling))
  {
    hide Acquired;
  }

  /** A worker enters the pool in state waiting_cpu. */
  lemma {:induction false} EnterAnswer(s: System, job: JobId)
    requires Enabled(s, EnterPool(job))
    ensures Enters(s, Next(s, EnterPool(job)), job, WaitingCpu, None, Some(Pooling))
  {
    hide StateTo, Enters;
    StateToAnswer(s, job, WaitingCpu, Pooling);
  }

  /** The start is committed before anything is spawned; a retired job gives its rows back and its worker leaves. */
  lemma {:induction false} CommitAnswer(s: System, job: JobId)
    requires Enabled(s, Commit(job))
    ensures s.db.jobs[job].state != Retired ==>
              Enters(s, Next(s, Commit(job)), job, Running, None, Some(Launching))
    ensures s.db.jobs[job].state == Retired ==>
              var x := Next(s, Commit(job));
              && WorkerAt(s, x, job, None) && x.db.jobs == s.db.jobs && x.db.events == s.db.events
              && x.db.leases == s.db.leases - {job} && x.db.waiters == s.db.waiters - {job}
  {
    StateAnswer(s.db, job, Running, None);
  }

  /** The pool's rows of the job are gone, and no other row. */
  ghost predicate LeftWith(s: System, x: System, job: JobId, leaseToo: bool) {
    && x.db.waiters == s.db.waiters - {job} && x.db.leases == (if leaseToo then s.db.leases - {job} else s.db.leases)
    && x.db.jobs == s.db.jobs && x.db.events == s.db.events && x.db.shared == s.db.shared && x.db.cache == s.db.cache
    && x.owners == s.owners && x.spawned == s.spawned
  }

  /** Giving up leaves the queue: a retired job's worker goes, any other ends without evidence. */
  lemma {:induction false} GiveUpAnswer(s: System, job: JobId)
    requires Enabled(s, GiveUp(job))
    ensures var x := Next(s, GiveUp(job));
            && LeftWith(s, x, job, false) && x.alive == s.alive
            && WorkerAt(s, x, job, if s.db.jobs[job].state == Retired then None else Some(Ended(None)))
  {
  }

  /** The spawned process is new and alive, its job is on record as spawned, and the lease becomes the process's. */
  lemma {:induction false} SpawnAnswer(s: System, job: JobId, pid: nat)
    ensures Enabled(s, Spawn(job, pid)) ==>
              var x := Next(s, Spawn(job, pid));
              && pid !in s.used && x.used == s.used + {pid} && x.alive == s.alive + {pid} && x.db == s.db
              && x.spawned == s.spawned + {job} && s.workers[job].stage == Launching
              && x.workers == s.workers[job := s.workers[job].(stage := Executing(pid))]
    ensures Enabled(s, Rebind(job)) ==>
              var x := Next(s, Rebind(job));
              && s.workers[job].stage.Executing? && x == s.(db := x.db) && x.db == s.db.(leases := x.db.leases)
              && x.db.leases == s.db.leases[job := s.db.leases[job].(pid := s.workers[job].stage.proc)]
  {
  }

  /** The end of a command: its process is gone, its rows are gone, and the worker has its outcome. */
  lemma {:induction false} FinishAnswer(s: System, job: JobId, outcome: Option<Evidence>)
    requires Enabled(s, Finish(job, outcome))
    ensures var x := Next(s, Finish(job, outcome));
            && s.workers[job].stage.Executing? && x.alive == s.alive - {s.workers[job].stage.proc}
            && LeftWith(s, x, job, true) && WorkerAt(s, x, job, Some(Ended(outcome)))
  {
  }

  /** A failure anywhere: a command is stopped, rows held are given back, and the worker has no evidence. */
  lemma {:induction false} AbortAnswer(s: System, job: JobId)
    requires Enabled(s, Abort(job))
    ensures var x, stage := Next(s, Abort(job)), s.workers[job].stage;
            && WorkerAt(s, x, job, Some(Ended(None)))
            && x.alive == (if stage.Executing? then s.alive - {stage.proc} else s.alive)
            && (stage.Pooling? ==> LeftWith(s, x, job, false))
            && (stage.Leased? || stage.Launching? || stage.Executing? ==> LeftWith(s, x, job, true))
            && (!stage.Pooling? && !stage.Leased? && !stage.Launching? && !stage.Executing? ==> x.db == s.db)
  {
  }

  /** Covered evidence of an identity that no built input taints is cached under the job, and nothing else changes. */
  lemma {:induction false} PublishAnswer(s: System, job: JobId)
    requires Enabled(s, Publish(job))
    ensures var x, p, stage := Next(s, Publish(job)), s.db.jobs[job].payload, s.workers[job].stage;
            && stage.Ended? && stage.evidence.Some? && stage.evidence.value.covered == true
            && (forall d :: d in p.deps && d in s.db.jobs ==>
                  s.db.jobs[d].payload.outputs == false
                  && (s.db.jobs[d].result.Some? ==> s.db.jobs[d].result.value.artifacts == false))
            && p.key.Some? && x == s.(db := s.db.(cache := s.db.cache[p.key.value := job]))
  {
  }

  /** A worker ends its job as succeeded with evidence, and as failed without. */
  lemma {:induction false} RecordAnswer(s: System, job: JobId)
    requires Enabled(s, Record(job))
    ensures var evidence := s.workers[job].stage.evidence;
            && (evidence.Some? ==> Enters(s, Next(s, Record(job)), job, Succeeded, evidence, None))
            && (evidence.None? ==> Enters(s, Next(s, Record(job)), job, Failed, None, None))
  {
    hide StateGone, Enters;
    StateGoneAnswer(s, job, Succeeded, s.workers[job].stage.evidence);
    StateGoneAnswer(s, job, Failed, None);
  }
}
