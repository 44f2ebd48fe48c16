/**
 The experiment store's tables and what one transaction does to them: bench/experiments.py,
 experiment_submission.py, experiment_retirement.py and experiment_resources.py.
 */
module ExperimentDb {
  import opened Wrappers

  type JobId = string
  type Session = string
  type Key = string

  datatype JobState =
    | Queued | WaitingDependencies | WaitingEvidence | QueuedFleet | WaitingCpu | Running
    | Succeeded | Failed | Blocked | Incomplete | Interrupted | Retired

  predicate Terminal(s: JobState) {
    s.Succeeded? || s.Failed? || s.Blocked? || s.Incomplete? || s.Interrupted? || s.Retired?
  }

  /** What the fingerprint covers; `rest` stands for the command, environment and source snapshot. */
  datatype Payload = Payload(kind: string, revision: string, inputs: map<string, string>, deps: set<JobId>,
                             key: Option<Key>,
                             outputs: bool, slots: nat, memory: nat, rest: string)

  /** The parts of a result that decide reuse. */
  datatype Evidence = Evidence(artifacts: bool, passed: bool, covered: bool)

  /** `born` is the place in creation order; `started` is whether the job ever ran. */
  datatype Job = Job(payload: Payload, state: JobState, started: bool, born: nat, repeat: bool,
                     result: Option<Evidence>)

  datatype Lease = Lease(pid: nat, slots: nat, memory: nat)

  datatype Waiter = Waiter(ticket: nat, pid: nat, slots: nat, memory: nat)

  datatype Kind = Became(state: JobState) | Submitted | Joined | Reused | Supersession(superseded: JobId)

  datatype Event = Event(job: JobId, kind: Kind)

  /** The tables. `shared` holds the dependency rows that waiting for identical evidence adds. */
  datatype Db = Db(jobs: map<JobId, Job>, subscribers: set<(JobId, Session)>,
                   withdrawals: map<(JobId, Session), (JobId, string)>,
                   shared: set<(JobId, JobId)>, cache: map<Key, JobId>, leases: map<JobId, Lease>,
                   waiters: map<JobId, Waiter>,
                   lastTicket: nat, births: nat, events: seq<Event>)

  datatype Refusal =
    | UnknownJob | RetiredJob | OtherRevision | OtherInputs | Unsubscribed | OtherKind | NotViable | SameJob | NoReason

  // ---- Store.state

  function Moved(job: Job, state: JobState, result: Option<Evidence>): Job {
    job.(state := state, started := job.started || state == Running,
         result := if result.Some? then result else job.result)
  }

  function SetState(db: Db, job: JobId, state: JobState, result: Option<Evidence>): Result<Db, Refusal> {
    if job !in db.jobs then Err(UnknownJob)
    else if db.jobs[job].state == Retired && state != Retired then Err(RetiredJob)
    else Ok(db.(jobs := db.jobs[job := Moved(db.jobs[job], state, result)],
                events := db.events + [Event(job, Became(state))]))
  }

  // ---- Store.submit

  /** The external inputs that a prerequisite pinned are pinned alike. */
  predicate InputsAgree(earlier: Payload, later: Payload) {
    forall path :: path in earlier.inputs ==> path in later.inputs && later.inputs[path] == earlier.inputs[path]
  }

  predicate DependencyFits(db: Db, p: Payload, dep: JobId) {
    dep in db.jobs && db.jobs[dep].payload.revision == p.revision && InputsAgree(db.jobs[dep].payload, p)
  }

  predicate DependenciesFit(db: Db, p: Payload) {
    forall dep :: dep in p.deps ==> DependencyFits(db, p, dep)
  }

  /** The job that a new request joins: the last one created with the same payload. */
  ghost predicate IsLatest(db: Db, p: Payload, prior: Option<JobId>) {
    match prior
    case None => forall j :: j in db.jobs ==> db.jobs[j].payload != p
    case Some(o) => o in db.jobs && db.jobs[o].payload == p && forall j :: j in db.jobs && db.jobs[j].payload == p ==>
        db.jobs[j].born <= db.jobs[o].born
  }

  predicate Retryable(s: JobState) {
    s.Failed? || s.Blocked? || s.Interrupted?
  }

  predicate Joins(db: Db, prior: Option<JobId>, repeat: bool, retryFailed: bool)
    requires prior.Some? ==> prior.value in db.jobs
  {
    prior.Some? && db.jobs[prior.value].state != Retired && !repeat
    && !(retryFailed && Retryable(db.jobs[prior.value].state))
  }

  /** The transaction of `submit` once its dependencies fit; `newId` is the new job's identifier. */
  function SubmittedDb(db: Db, session: Session, p: Payload, repeat: bool, prior: Option<JobId>, retryFailed: bool,
                       newId: JobId): (Db, JobId)
    requires prior.Some? ==> prior.value in db.jobs
  {
    var joins := Joins(db, prior, repeat, retryFailed);
    var job := if joins then prior.value else newId;
    var kind := if !joins then Submitted else if Terminal(db.jobs[job].state) then Reused else Joined;
    (db.(jobs := if joins then db.jobs else db.jobs[newId := Job(p, Queued, false, db.births, repeat, None)],
         births := if joins then db.births else db.births + 1,
         subscribers := db.subscribers + {(job, session)},
         withdrawals := db.withdrawals - {(job, session)},
         events := db.events + [Event(job, kind)]), job)
  }

  // ---- reuse

  predicate CacheableDependencies(db: Db, p: Payload) {
    forall d :: d in p.deps && d in db.jobs ==>
      !db.jobs[d].payload.outputs && !(db.jobs[d].result.Some? && db.jobs[d].result.value.artifacts)
  }

  predicate Hit(db: Db, key: Option<Key>) {
    key.Some? && key.value in db.cache && db.cache[key.value] in db.jobs
    && db.jobs[db.cache[key.value]].state == Succeeded && db.jobs[db.cache[key.value]].result.Some?
    && db.jobs[db.cache[key.value]].result.value.covered
  }

  /** `intact`: the cached artifacts still match their digests. */
  predicate Reusable(db: Db, job: JobId, intact: bool)
    requires job in db.jobs
  {
    var row := db.jobs[job];
    && !Terminal(row.state) && !row.started && !row.repeat && CacheableDependencies(db, row.payload)
    && (forall d :: d in row.payload.deps ==> d in db.jobs && db.jobs[d].state == Succeeded)
    && Hit(db, row.payload.key) && db.jobs[db.cache[row.payload.key.value]].result.value.passed && intact
  }

  // ---- retire

  /** Subscribers that have not withdrawn. */
  function ActiveSubscribers(db: Db, job: JobId): set<Session> {
    set row | row in db.subscribers && row.0 == job && row !in db.withdrawals :: row.1
  }

  predicate LiveDemand(s: JobState) {
    !Terminal(s) || s == Incomplete
  }

  /** Live jobs that declare this one, or wait for its evidence. */
  function Dependents(db: Db, job: JobId): set<JobId> {
    set j | j in db.jobs && j != job && LiveDemand(db.jobs[j].state)
    && (job in db.jobs[j].payload.deps || (j, job) in db.shared)
  }

  function RetireError(db: Db, session: Session, stale: JobId, replacement: JobId, reason: string): Option<Refusal> {
    if stale == replacement then Some(SameJob)
    else if reason == "" then Some(NoReason)
    else if (stale, session) !in db.subscribers || (replacement, session) !in db.subscribers then Some(Unsubscribed)
    else if stale !in db.jobs || replacement !in db.jobs then Some(UnknownJob)
    else if db.jobs[stale].payload.kind != db.jobs[replacement].payload.kind then Some(OtherKind)
    else if Terminal(db.jobs[replacement].state) && db.jobs[replacement].state != Succeeded then Some(NotViable)
    else None
  }

  function Withdrawn(db: Db, session: Session, stale: JobId, replacement: JobId, reason: string): Db {
    db.(withdrawals := db.withdrawals[(stale, session) := (replacement, reason)])
  }

  /** Nobody asks for it, nothing needs it, and it never ran. */
  predicate Unneeded(db: Db, job: JobId)
    requires job in db.jobs
  {
    ActiveSubscribers(db, job) == {} && Dependents(db, job) == {} && !db.jobs[job].started
    && !Terminal(db.jobs[job].state)
  }

  function RetiredDb(db: Db, session: Session, stale: JobId, replacement: JobId, reason: string): Db
    requires RetireError(db, session, stale, replacement, reason).None?
  {
    var w := Withdrawn(db, session, stale, replacement, reason);
    var moved := if Unneeded(w, stale) then SetState(w, stale, Retired, None).value else w;
    moved.(events := moved.events + [Event(replacement, Supersession(stale))])
  }

  // ---- acquire

  datatype Policy = Policy(slots: nat, memory: nat, reserve: nat)

  function LiveLeases(db: Db, alive: set<nat>): map<JobId, Lease> {
    map j | j in db.leases && db.leases[j].pid in alive :: db.leases[j]
  }

  /** A waiter that `acquire` keeps. */
  predicate Eligible(db: Db, w: Waiter, job: JobId, policy: Policy, alive: set<nat>) {
    job in db.jobs && !Terminal(db.jobs[job].state) && w.pid in alive && w.slots <= policy.slots
    && w.memory <= policy.memory
  }

  function EligibleWaiters(db: Db, policy: Policy, alive: set<nat>): map<JobId, Waiter> {
    map j | j in db.waiters && Eligible(db, db.waiters[j], j, policy, alive) :: db.waiters[j]
  }

  function Reclaimed(db: Db, policy: Policy, alive: set<nat>): Db {
    db.(leases := LiveLeases(db, alive), waiters := EligibleWaiters(db, policy, alive))
  }

  /** The upsert keeps the ticket of a job that is waiting already. */
  function Enrolled(db: Db, job: JobId, pid: nat, slots: nat, memory: nat): Db {
    if job in db.waiters then db.(waiters := db.waiters[job := Waiter(db.waiters[job].ticket, pid, slots, memory)])
    else db.(waiters := db.waiters[job := Waiter(db.lastTicket + 1, pid, slots, memory)],
             lastTicket := db.lastTicket + 1)
  }

  predicate IsHead(waiters: map<JobId, Waiter>, job: JobId) {
    job in waiters && forall j :: j in waiters ==> waiters[job].ticket <= waiters[j].ticket
  }

  ghost function SlotsUsed(leases: map<JobId, Lease>): nat
    decreases |leases|
  {
    if leases == map[] then 0 else var j :| j in leases; leases[j].slots + SlotsUsed(leases - {j})
  }

  ghost function MemoryUsed(leases: map<JobId, Lease>): nat
    decreases |leases|
  {
    if leases == map[] then 0 else var j :| j in leases; leases[j].memory + MemoryUsed(leases - {j})
  }

  ghost predicate Fits(leases: map<JobId, Lease>, slots: nat, memory: nat, policy: Policy) {
    SlotsUsed(leases) + slots <= policy.slots && MemoryUsed(leases) + memory <= policy.memory
  }

  /** A request larger than the whole pool is an error, raised before the transaction. */
  predicate TooLarge(p: Payload, policy: Policy) {
    p.slots > policy.slots || p.memory > policy.memory
  }

  function Granted(db: Db, job: JobId, pid: nat, slots: nat, memory: nat): Db {
    db.(leases := db.leases[job := Lease(pid, slots, memory)], waiters := db.waiters - {job})
  }

  /** One `acquire` transaction of a job with this pid; `free` is the host memory that is available. */
  ghost function Acquired(db: Db, job: JobId, pid: nat, policy: Policy, alive: set<nat>, free: nat): (Db, bool)
    requires job in db.jobs
  {
    var p := db.jobs[job].payload;
    var clean := Reclaimed(db, policy, alive);
    if Terminal(db.jobs[job].state) then (clean, false)
    else if job in clean.leases then (clean, clean.leases[job].pid == pid)
    else
      var waiting := Enrolled(clean, job, pid, p.slots, p.memory);
      if IsHead(waiting.waiters, job) && Fits(waiting.leases, p.slots, p.memory, policy)
          && free >= p.memory + policy.reserve
      then (Granted(waiting, job, pid, p.slots, p.memory), true) else (waiting, false)
  }

  /** `run_cpu`'s finally block. */
  function LeftPool(db: Db, job: JobId, acquired: bool): Db {
    db.(waiters := db.waiters - {job}, leases := if acquired then db.leases - {job} else db.leases)
  }

  // ---- whole submissions

  /** Identifiers name rows: each job has its own place in the creation order, and tickets are handed out once. */
  ghost predicate WellNumbered(db: Db) {
    && (forall j :: j in db.jobs ==> db.jobs[j].born < db.births)
    && (forall i, j :: i in db.jobs && j in db.jobs && i != j ==> db.jobs[i].born != db.jobs[j].born)
    && (forall j :: j in db.waiters ==> db.waiters[j].ticket <= db.lastTicket)
    && (forall i, j :: i in db.waiters && j in db.waiters && i != j ==> db.waiters[i].ticket != db.waiters[j].ticket)
  }

  ghost function Latest(db: Db, p: Payload): (r: Option<JobId>)
    ensures r.Some? ==> r.value in db.jobs
  {
    if exists j :: IsLatest(db, p, Some(j)) then var j :| IsLatest(db, p, Some(j)); Some(j) else None
  }

  lemma {:induction false} LatestIsUnique(db: Db, p: Payload, prior: Option<JobId>)
    requires WellNumbered(db) && IsLatest(db, p, prior)
    ensures Latest(db, p) == prior
  {
    if prior.Some? {
      var l := Latest(db, p);
      assert l.Some? && IsLatest(db, p, l);
      assert db.jobs[l.value].born == db.jobs[prior.value].born;
    } else {
      forall j ensures !IsLatest(db, p, Some(j)) {
      }
    }
  }

  /** `submit`: nothing, when a prerequisite is unknown or tests something else. */
  ghost function Submission(db: Db, session: Session, p: Payload, repeat: bool, retryFailed: bool,
                            newId: JobId): Option<(Db, JobId)> {
    if !DependenciesFit(db, p) then None
      else Some(SubmittedDb(db, session, p, repeat, Latest(db, p), retryFailed, newId))
  }

  /** One entry of a batch; `needs` names earlier entries by position. */
  datatype Request = Request(payload: Payload, needs: set<nat>)

  function WithNeeds(r: Request, ids: seq<JobId>): Payload {
    r.payload.(deps := r.payload.deps + (set n | n in r.needs && n < |ids| :: ids[n]))
  }

  /** The batch's one transaction; a refusal anywhere undoes all of it. */
  ghost function Batch(db: Db, session: Session, requests: seq<Request>, repeat: bool, newIds: seq<JobId>,
                       n: nat): Option<(Db, seq<JobId>)>
    requires n <= |requests| && |newIds| == |requests|
  {
    if n == 0 then Some((db, []))
    else
      var before := Batch(db, session, requests, repeat, newIds, n - 1);
      if before.None? then None
      else
        var one := Submission(before.value.0, session, WithNeeds(requests[n - 1], before.value.1), repeat, false,
                              newIds[n - 1]);
        if one.None? then None else Some((one.value.0, before.value.1 + [one.value.1]))
  }

  /** Identifiers not used yet, all different. */
  ghost predicate NewIds(db: Db, newIds: seq<JobId>) {
    (forall i :: 0 <= i < |newIds| ==> newIds[i] !in db.jobs)
    && (forall i, j :: 0 <= i < j < |newIds| ==> newIds[i] != newIds[j])
  }

  lemma {:induction false} IdsLeft(a: Db, b: Db, newIds: seq<JobId>, i: nat)
    requires i < |newIds| && NewIds(a, newIds[i..]) && forall j :: j in b.jobs ==> j in a.jobs || j == newIds[i]
    ensures NewIds(b, newIds[i + 1..])
  {
    assert newIds[i..][0] == newIds[i] && newIds[i..][1..] == newIds[i + 1..];
  }

  lemma {:induction false} BatchStops(db: Db, session: Session, requests: seq<Request>, repeat: bool,
                                      newIds: seq<JobId>, i: nat, n: nat)
    requires i <= n <= |requests| && |newIds| == |requests| && Batch(db, session, requests, repeat, newIds, i).None?
    ensures Batch(db, session, requests, repeat, newIds, n).None?
    decreases n
  {
    if i < n {
      BatchStops(db, session, requests, repeat, newIds, i, n - 1);
    }
  }

  /** A submission adds at most the new job and keeps the numbering. */
  lemma {:induction false} SubmissionNumbers(db: Db, session: Session, p: Payload, repeat: bool, retryFailed: bool,
                                             newId: JobId)
    requires WellNumbered(db) && newId !in db.jobs && Submission(db, session, p, repeat, retryFailed, newId).Some?
    ensures var next := Submission(db, session, p, repeat, retryFailed, newId).value;
            && WellNumbered(next.0) && next.1 in next.0.jobs
            && (next.0.jobs == db.jobs
                || next.0.jobs == db.jobs[newId := Job(p, Queued, false, db.births, repeat, None)])
            && next.0.jobs[next.1].payload == p
  {
    var prior := Latest(db, p);
    if prior.Some? {
      assert IsLatest(db, p, prior);
    }
  }

  // ---- sums over leases, in any order

  lemma {:induction false} SlotsRemove(leases: map<JobId, Lease>, j: JobId)
    requires j in leases
    ensures SlotsUsed(leases) == leases[j].slots + SlotsUsed(leases - {j})
    decreases |leases|
  {
    var k :| k in leases && SlotsUsed(leases) == leases[k].slots + SlotsUsed(leases - {k});
    if k != j {
      SlotsRemove(leases - {k}, j);
      SlotsRemove(leases - {j}, k);
      assert leases - {k} - {j} == leases - {j} - {k};
    }
  }

  lemma {:induction false} MemoryRemove(leases: map<JobId, Lease>, j: JobId)
    requires j in leases
    ensures MemoryUsed(leases) == leases[j].memory + MemoryUsed(leases - {j})
    decreases |leases|
  {
    var k :| k in leases && MemoryUsed(leases) == leases[k].memory + MemoryUsed(leases - {k});
    if k != j {
      MemoryRemove(leases - {k}, j);
      MemoryRemove(leases - {j}, k);
      assert leases - {k} - {j} == leases - {j} - {k};
    }
  }

  /** Fewer leases use no more. */
  lemma {:induction false} UsageShrinks(small: map<JobId, Lease>, big: map<JobId, Lease>)
    requires forall j :: j in small ==> j in big && big[j] == small[j]
    ensures SlotsUsed(small) <= SlotsUsed(big) && MemoryUsed(small) <= MemoryUsed(big)
    decreases |big|
  {
    if big == map[] {
      assert small == map[];
    } else {
      var j :| j in big;
      SlotsRemove(big, j);
      MemoryRemove(big, j);
      if j in small {
        SlotsRemove(small, j);
        MemoryRemove(small, j);
        UsageShrinks(small - {j}, big - {j});
      } else {
        UsageShrinks(small, big - {j});
      }
    }
  }

  // ---- one look at the prerequisites, and recovery

  datatype Verdict = Passed | Stopped | Pending(waiting: set<JobId>)

  /** The prerequisites that have not succeeded. */
  function Unmet(db: Db, deps: set<JobId>): set<JobId>
    requires forall d :: d in deps ==> d in db.jobs
  {
    set d | d in deps && db.jobs[d].state != Succeeded
  }

  /** The prerequisites that ended in anything but a success. */
  function Bad(db: Db, deps: set<JobId>): set<JobId>
    requires forall d :: d in deps ==> d in db.jobs
  {
    set d | d in deps && Terminal(db.jobs[d].state) && db.jobs[d].state != Succeeded
  }

  /** `wait_dependencies`, one round: whether to go on, stop, or wait, and for which. */
  function Polled(db: Db, job: JobId): (Db, Verdict)
    requires job in db.jobs && forall d :: d in db.jobs[job].payload.deps ==> d in db.jobs
  {
    var deps := db.jobs[job].payload.deps;
    var bad := Bad(db, deps);
    var pending := Unmet(db, deps);
    if Terminal(db.jobs[job].state) then (db, Stopped)
    else if bad != {} then (SetState(db, job, Blocked, None).value, Stopped)
    else (db, if pending == {} then Passed else Pending(pending))
  }

  predicate AwaitsWorker(s: JobState) {
    s.Queued? || s.WaitingDependencies? || s.WaitingCpu? || s.WaitingEvidence?
  }

  /** `ensure_worker` once it holds the launch lock: the new tables, and whether to start a worker. */
  function Recovered(db: Db, job: JobId, lockFree: bool): (Db, bool)
    requires job in db.jobs
  {
    if Terminal(db.jobs[job].state) || !lockFree then (db, false)
    else if AwaitsWorker(db.jobs[job].state) then (db, true)
    else (SetState(db, job, Interrupted, None).value, false)
  }

  /** `cpu_claim` meets a busy claim whose owner file names another job than before. */
  function JoinedOwner(db: Db, job: JobId, owner: JobId): Db {
    db.(shared := db.shared + {(job, owner)})
  }
}
