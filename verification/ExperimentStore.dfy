/** The store's methods: each is one transaction on the tables, tied to what that transaction does. */
module ExperimentStore {
  import opened Wrappers
  import opened ExperimentDb

  class Store {
    var jobs: map<JobId, Job>
    var subscribers: set<(JobId, Session)>
    var withdrawals: map<(JobId, Session), (JobId, string)>
    var shared: set<(JobId, JobId)>
    var cache: map<Key, JobId>
    var leases: map<JobId, Lease>
    var waiters: map<JobId, Waiter>
    var lastTicket: nat
    var births: nat
    var events: seq<Event>

    function Contents(): Db
      reads this
    {
      Db(jobs, subscribers, withdrawals, shared, cache, leases, waiters, lastTicket, births, events)
    }

    /** Roll back to a snapshot. */
    method Restore(db: Db)
      modifies this
      ensures Contents() == db
    {
      jobs, subscribers, withdrawals, shared, cache := db.jobs, db.subscribers, db.withdrawals, db.shared, db.cache;
      leases, waiters, lastTicket, births, events := db.leases, db.waiters, db.lastTicket, db.births, db.events;
    }

    /** `state`. */
    method State(job: JobId, state: JobState, result: Option<Evidence>) returns (refused: Option<Refusal>)
      modifies this
      ensures match SetState(old(Contents()), job, state, result)
              case Ok(db) => refused == None && Contents() == db
              case Err(e) => refused == Some(e) && Contents() == old(Contents())
    {
      if job !in jobs {
        return Some(UnknownJob);
      }
      var previous := jobs[job];
      if previous.state == Retired && state != Retired {
        return Some(RetiredJob);
      }
      var started := previous.started;
      if state == Running {
        started := true;
      }
      jobs := jobs[job := previous.(state := state, started := started,
                                    result := if result.Some? then result else previous.result)];
      events := events + [Event(job, Became(state))];
      refused := None;
    }

    /** The dependency checks of `submit`. */
    method CheckDependencies(p: Payload) returns (refused: Option<Refusal>)
      ensures refused.None? <==> DependenciesFit(Contents(), p)
    {
      var todo := p.deps;
      while todo != {}
        invariant todo <= p.deps
        invariant forall dep :: dep in p.deps - todo ==> DependencyFits(Contents(), p, dep)
        decreases |todo|
      {
        var dep :| dep in todo;
        if dep !in jobs {
          return Some(UnknownJob);
        }
        if jobs[dep].payload.revision != p.revision {
          return Some(OtherRevision);
        }
        if !InputsAgree(jobs[dep].payload, p) {
          return Some(OtherInputs);
        }
        todo := todo - {dep};
      }
      refused := None;
    }

    /** The newest job of the same fingerprint. */
    method FindLatest(p: Payload) returns (prior: Option<JobId>)
      ensures IsLatest(Contents(), p, prior)
    {
      prior := None;
      var todo := jobs.Keys;
      while todo != {}
        invariant todo <= jobs.Keys
        invariant prior.Some? ==> prior.value in jobs && jobs[prior.value].payload == p
        invariant forall j :: j in jobs.Keys - todo && jobs[j].payload == p ==>
                    prior.Some? && jobs[j].born <= jobs[prior.value].born
        decreases |todo|
      {
        var j :| j in todo;
        if jobs[j].payload == p && (prior.None? || jobs[j].born > jobs[prior.value].born) {
          prior := Some(j);
        }
        todo := todo - {j};
      }
    }

    /** The insertion or the join, with its subscription and event. */
    method Publish(session: Session, p: Payload, repeat: bool, retryFailed: bool, prior: Option<JobId>,
                   newId: JobId) returns (job: JobId)
      requires prior.Some? ==> prior.value in jobs
      modifies this
      ensures (Contents(), job) == SubmittedDb(old(Contents()), session, p, repeat, prior, retryFailed, newId)
    {
      if prior.Some? && jobs[prior.value].state != Retired && !repeat
          && !(retryFailed && Retryable(jobs[prior.value].state)) {
        job := prior.value;
        events := events + [Event(job, if Terminal(jobs[job].state) then Reused else Joined)];
      } else {
        job := newId;
        jobs := jobs[job := Job(p, Queued, false, births, repeat, None)];
        births := births + 1;
        events := events + [Event(job, Submitted)];
      }
      subscribers := subscribers + {(job, session)};
      withdrawals := withdrawals - {(job, session)};
    }

    /** `submit`. */
    method Submit(session: Session, p: Payload, repeat: bool, retryFailed: bool,
                  newId: JobId) returns (r: Result<JobId, Refusal>)
      requires WellNumbered(Contents())
      modifies this
      ensures match Submission(old(Contents()), session, p, repeat, retryFailed, newId)
              case None => r.Err? && Contents() == old(Contents())
              case Some((db, job)) => r == Ok(job) && Contents() == db
    {
      var refused := CheckDependencies(p);
      if refused.Some? {
        return Err(refused.value);
      }
      var prior := FindLatest(p);
      LatestIsUnique(Contents(), p, prior);
      var job := Publish(session, p, repeat, retryFailed, prior, newId);
      r := Ok(job);
    }

    /** The transaction of `submit_many`. */
    method SubmitMany(session: Session, requests: seq<Request>, repeat: bool,
                      newIds: seq<JobId>) returns (r: Result<seq<JobId>, Refusal>)
      requires WellNumbered(Contents()) && |newIds| == |requests| && NewIds(Contents(), newIds)
      modifies this
      ensures match Batch(old(Contents()), session, requests, repeat, newIds, |requests|)
              case None => r.Err? && Contents() == old(Contents())
              case Some((db, ids)) => r == Ok(ids) && Contents() == db
    {
      hide Submission, WithNeeds, WellNumbered;
      var saved := Contents();
      var ids: seq<JobId> := [];
      for i := 0 to |requests|
        invariant Batch(saved, session, requests, repeat, newIds, i) == Some((Contents(), ids))
        invariant WellNumbered(Contents()) && |ids| == i && NewIds(Contents(), newIds[i..])
      {
        ghost var before := Contents();
        var one := Submit(session, WithNeeds(requests[i], ids), repeat, false, newIds[i]);
        if one.Err? {
          Restore(saved);
          BatchStops(saved, session, requests, repeat, newIds, i + 1, |requests|);
          return Err(one.error);
        }
        SubmissionNumbers(before, session, WithNeeds(requests[i], ids), repeat, false, newIds[i]);
        IdsLeft(before, Contents(), newIds, i);
        ids := ids + [one.value];
      }
      r := Ok(ids);
    }

    /** `reuse`, under the job's worker lock. */
    method Reuse(job: JobId, intact: bool) returns (done: bool)
      requires job in jobs && forall d :: d in jobs[job].payload.deps ==> d in jobs
      modifies this
      ensures done == Reusable(old(Contents()), job, intact)
      ensures Contents() == if done then
                SetState(old(Contents()), job, Succeeded, old(jobs[cache[jobs[job].payload.key.value]].result)).value
                else old(Contents())
    {
      var row := jobs[job];
      if Terminal(row.state) || row.started || row.repeat || row.payload.key.None?
          || !CacheableDependencies(Contents(), row.payload) {
        return false;
      }
      if exists d :: d in row.payload.deps && jobs[d].state != Succeeded {
        return false;
      }
      if row.payload.key.value !in cache || cache[row.payload.key.value] !in jobs {
        return false;
      }
      var source := jobs[cache[row.payload.key.value]];
      if source.state != Succeeded || source.result.None? || !source.result.value.passed || !source.result.value.covered
          || !intact {
        return false;
      }
      var refused := State(job, Succeeded, source.result);
      done := true;
    }

    /** `consumers`. */
    method Consumers(job: JobId) returns (active: set<Session>, dependents: set<JobId>)
      ensures active == ActiveSubscribers(Contents(), job)
      ensures dependents == Dependents(Contents(), job)
    {
      active := Subscribed(job);
      dependents := Declared(job);
      dependents := SharedDependents(job, dependents);
    }

    /** The subscribers that have not withdrawn. */
    method Subscribed(job: JobId) returns (active: set<Session>)
      ensures active == ActiveSubscribers(Contents(), job)
    {
      active := {};
      var rows := subscribers;
      while rows != {}
        invariant rows <= subscribers
        invariant active == set row | row in subscribers - rows && row.0 == job && row !in withdrawals :: row.1
        decreases |rows|
      {
        var row :| row in rows;
        if row.0 == job && row !in withdrawals {
          active := active + {row.1};
        }
        rows := rows - {row};
      }
    }

    /** The live jobs that declare this one. */
    method Declared(job: JobId) returns (dependents: set<JobId>)
      ensures dependents == set j | j in jobs.Keys && j != job && LiveDemand(jobs[j].state)
                && job in jobs[j].payload.deps
    {
      dependents := {};
      var todo := jobs.Keys;
      while todo != {}
        invariant todo <= jobs.Keys
        invariant dependents == set j | j in jobs.Keys - todo && j != job && LiveDemand(jobs[j].state)
                    && job in jobs[j].payload.deps
        decreases |todo|
      {
        var j :| j in todo;
        if LiveDemand(jobs[j].state) && j != job && job in jobs[j].payload.deps {
          dependents := dependents + {j};
        }
        todo := todo - {j};
      }
    }

    /** The rows that waiting for identical evidence added. */
    method SharedDependents(job: JobId, declared: set<JobId>) returns (dependents: set<JobId>)
      requires declared == set j | j in jobs.Keys && j != job && LiveDemand(jobs[j].state)
                && job in jobs[j].payload.deps
      ensures dependents == Dependents(Contents(), job)
    {
      dependents := declared;
      var rows := shared;
      while rows != {}
        invariant rows <= shared
        invariant dependents == declared + set row | row in shared - rows && row.1 == job && row.0 in jobs
                    && row.0 != job && LiveDemand(jobs[row.0].state) :: row.0
        decreases |rows|
      {
        var row :| row in rows;
        if row.1 == job && row.0 in jobs && LiveDemand(jobs[row.0].state) && row.0 != job {
          dependents := dependents + {row.0};
        }
        rows := rows - {row};
      }
      forall j ensures j in dependents <==> j in Dependents(Contents(), job) {
        assert (j, job) in shared - rows <==> (j, job) in shared;
      }
    }

    /** `retire`. */
    method Retire(session: Session, stale: JobId, replacement: JobId, reason: string) returns (r: Result<bool, Refusal>)
      modifies this
      ensures match RetireError(old(Contents()), session, stale, replacement, reason)
              case Some(e) => r == Err(e) && Contents() == old(Contents())
              case None => Contents() == RetiredDb(old(Contents()), session, stale, replacement, reason)
                           && r == Ok(Unneeded(Withdrawn(old(Contents()), session, stale, replacement, reason), stale))
    {
      if stale == replacement {
        return Err(SameJob);
      }
      if reason == "" {
        return Err(NoReason);
      }
      if (stale, session) !in subscribers || (replacement, session) !in subscribers {
        return Err(Unsubscribed);
      }
      if stale !in jobs || replacement !in jobs {
        return Err(UnknownJob);
      }
      var row, next := jobs[stale], jobs[replacement];
      if row.payload.kind != next.payload.kind {
        return Err(OtherKind);
      }
      if Terminal(next.state) && next.state != Succeeded {
        return Err(NotViable);
      }
      withdrawals := withdrawals[(stale, session) := (replacement, reason)];
      var active, dependents := Consumers(stale);
      var retired := active == {} && dependents == {} && !row.started && !Terminal(row.state);
      if retired {
        var refused := State(stale, Retired, None);
      }
      events := events + [Event(replacement, Supersession(stale))];
      r := Ok(retired);
    }

    /** Delete the leases of dead processes. */
    method ReclaimLeases(alive: set<nat>)
      modifies this`leases
      ensures leases == LiveLeases(old(Contents()), alive)
    {
      var held := leases;
      var todo := held.Keys;
      while todo != {}
        invariant todo <= held.Keys
        invariant leases == map j | j in held && (j in todo || held[j].pid in alive) :: held[j]
        decreases |todo|
      {
        var j :| j in todo;
        if held[j].pid !in alive {
          leases := leases - {j};
        }
        todo := todo - {j};
      }
    }

    /** Delete the waiters that are dead, finished, or too large for the pool. */
    method ReclaimWaiters(policy: Policy, alive: set<nat>)
      modifies this`waiters
      ensures waiters == EligibleWaiters(old(Contents()), policy, alive)
    {
      var queued, db := waiters, Contents();
      var todo := queued.Keys;
      while todo != {}
        invariant todo <= queued.Keys
        invariant waiters == map j | j in queued && (j in todo || Eligible(db, queued[j], j, policy, alive)) ::
                    queued[j]
        decreases |todo|
      {
        var j :| j in todo;
        if j !in jobs || Terminal(jobs[j].state) || queued[j].pid !in alive || queued[j].slots > policy.slots
            || queued[j].memory > policy.memory {
          waiters := waiters - {j};
        }
        todo := todo - {j};
      }
    }

    /** The sums over the leases. */
    method Used() returns (slots: nat, memory: nat)
      ensures slots == SlotsUsed(leases) && memory == MemoryUsed(leases)
    {
      slots, memory := 0, 0;
      var left := leases;
      while left != map[]
        invariant forall j :: j in left ==> j in leases && leases[j] == left[j]
        invariant slots + SlotsUsed(left) == SlotsUsed(leases) && memory + MemoryUsed(left) == MemoryUsed(leases)
        decreases |left|
      {
        var j :| j in left;
        SlotsRemove(left, j);
        MemoryRemove(left, j);
        slots, memory := slots + left[j].slots, memory + left[j].memory;
        left := left - {j};
      }
    }

    /** The waiter of the lowest ticket. */
    method Head() returns (head: Option<JobId>)
      requires WellNumbered(Contents())
      ensures head.None? <==> waiters == map[]
      ensures head.Some? ==> forall j :: IsHead(waiters, j) <==> j == head.value
    {
      head := None;
      var todo := waiters.Keys;
      while todo != {}
        invariant todo <= waiters.Keys
        invariant head.Some? ==> head.value in waiters
        invariant forall j :: j in waiters.Keys - todo ==> head.Some? && waiters[head.value].ticket <= waiters[j].ticket
        decreases |todo|
      {
        var j :| j in todo;
        if head.None? || waiters[j].ticket < waiters[head.value].ticket {
          head := Some(j);
        }
        todo := todo - {j};
      }
    }

    /** `acquire`: refused for a request larger than the pool, otherwise whether the job holds a lease now. */
    method Acquire(job: JobId, pid: nat, policy: Policy, alive: set<nat>, free: nat) returns (r: Option<bool>)
      requires job in jobs && WellNumbered(Contents())
      modifies this
      ensures r.None? <==> old(jobs[job]).payload.slots > policy.slots || old(jobs[job]).payload.memory > policy.memory
      ensures r.None? ==> Contents() == old(Contents())
      ensures r.Some? ==> (Contents(), r.value) == Acquired(old(Contents()), job, pid, policy, alive, free)
    {
      var p := jobs[job].payload;
      if p.slots > policy.slots || p.memory > policy.memory {
        return None;
      }
      ghost var db := Contents();
      ReclaimLeases(alive);
      assert EligibleWaiters(Contents(), policy, alive) == EligibleWaiters(db, policy, alive);
      ReclaimWaiters(policy, alive);
      if Terminal(jobs[job].state) {
        return Some(false);
      }
      if job in leases {
        return Some(leases[job].pid == pid);
      }
      r := Enroll(job, pid, policy, free);
    }

    /** The second half of `acquire`: take a ticket, and the lease if it is this ticket's turn and there is room. */
    method Enroll(job: JobId, pid: nat, policy: Policy, free: nat) returns (r: Option<bool>)
      requires job in jobs && job !in leases && WellNumbered(Contents())
      modifies this
      ensures r.Some?
      ensures var p := old(jobs[job].payload);
              var waiting := Enrolled(old(Contents()), job, pid, p.slots, p.memory);
              (Contents(), r.value) ==
                if IsHead(waiting.waiters, job) && Fits(waiting.leases, p.slots, p.memory, policy)
                    && free >= p.memory + policy.reserve
                then (Granted(waiting, job, pid, p.slots, p.memory), true) else (waiting, false)
    {
      var p := jobs[job].payload;
      if job in waiters {
        waiters := waiters[job := Waiter(waiters[job].ticket, pid, p.slots, p.memory)];
      } else {
        lastTicket := lastTicket + 1;
        waiters := waiters[job := Waiter(lastTicket, pid, p.slots, p.memory)];
      }
      var head := Head();
      if head != Some(job) {
        return Some(false);
      }
      var slots, memory := Used();
      if slots + p.slots > policy.slots || memory + p.memory > policy.memory || free < p.memory + policy.reserve {
        return Some(false);
      }
      leases := leases[job := Lease(pid, p.slots, p.memory)];
      waiters := waiters - {job};
      r := Some(true);
    }

    /** `run_cpu`'s finally block. */
    method Leave(job: JobId, acquired: bool)
      modifies this
      ensures Contents() == LeftPool(old(Contents()), job, acquired)
    {
      waiters := waiters - {job};
      if acquired {
        leases := leases - {job};
      }
    }

    /** One round of `wait_dependencies`. */
    method PollDependencies(job: JobId) returns (verdict: Verdict)
      requires job in jobs && forall d :: d in jobs[job].payload.deps ==> d in jobs
      modifies this
      ensures (Contents(), verdict) == Polled(old(Contents()), job)
    {
      if Terminal(jobs[job].state) {
        return Stopped;
      }
      var deps := jobs[job].payload.deps;
      var bad := Bad(Contents(), deps);
      if bad != {} {
        var refused := State(job, Blocked, None);
        return Stopped;
      }
      var pending := Unmet(Contents(), deps);
      verdict := if pending == {} then Passed else Pending(pending);
    }

    /** `ensure_worker`, from the launch lock on. */
    method EnsureWorker(job: JobId, lockFree: bool) returns (launch: bool)
      requires job in jobs
      modifies this
      ensures (Contents(), launch) == Recovered(old(Contents()), job, lockFree)
    {
      if Terminal(jobs[job].state) || !lockFree {
        return false;
      }
      if !AwaitsWorker(jobs[job].state) {
        var refused := State(job, Interrupted, None);
        return false;
      }
      launch := true;
    }
  }
}
