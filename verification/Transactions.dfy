/** What each transaction answers and leaves, row by row, said on the tables alone. */
module Transactions {
  import opened Wrappers
  import opened ExperimentDb

  const OVER := {Succeeded, Failed, Blocked, Incomplete, Interrupted, Retired}

  /** All tables but the jobs and the events. */
  ghost predicate SameRest(a: Db, b: Db) {
    && a.subscribers == b.subscribers && a.withdrawals == b.withdrawals && a.shared == b.shared && a.cache == b.cache
    && a.leases == b.leases && a.waiters == b.waiters && a.lastTicket == b.lastTicket && a.births == b.births
  }

  // ---- state

  /** The row after a state change: `running` starts it for good, and a result is kept until another comes. */
  ghost predicate BecameRow(row: Job, was: Job, state: JobState, result: Option<Evidence>) {
    && row.state == state && row.payload == was.payload && row.born == was.born && row.repeat == was.repeat
    && (row.started <==> was.started || state == Running)
    && row.result == (match result case Some(_) => result case None => was.result)
  }

  /** One job has become this, and nothing else has changed. */
  ghost predicate OnlyBecame(a: Db, b: Db, job: JobId, state: JobState, result: Option<Evidence>) {
    && job in a.jobs && job in b.jobs && b.jobs == a.jobs[job := b.jobs[job]]
    && BecameRow(b.jobs[job], a.jobs[job], state, result)
    && b.events == a.events + [Event(job, Became(state))] && SameRest(a, b)
  }

  /** A known job takes any state, but a retired one stays retired. */
  lemma {:induction false} StateAnswer(db: Db, job: JobId, state: JobState, result: Option<Evidence>)
    ensures SetState(db, job, state, result).Ok? <==>
              job in db.jobs && (db.jobs[job].state == Retired ==> state == Retired)
    ensures SetState(db, job, state, result).Ok? ==>
              OnlyBecame(db, SetState(db, job, state, result).value, job, state, result)
  {
  }

  // ---- submit

  /** The job is the last one made for this payload. */
  ghost predicate LastFor(db: Db, p: Payload, o: JobId) {
    o in db.jobs && db.jobs[o].payload == p
    && forall j :: j in db.jobs && db.jobs[j].payload == p ==> db.jobs[j].born <= db.jobs[o].born
  }

  /** The last job for the payload answers for it: not withdrawn from all, no repetition, and not a failure to retry. */
  ghost predicate AnswersFor(db: Db, p: Payload, repeat: bool, retryFailed: bool, o: JobId) {
    && LastFor(db, p, o) && db.jobs[o].state != Retired && repeat == false
    && !(retryFailed && db.jobs[o].state in {Failed, Blocked, Interrupted})
  }

  /** Prerequisites are known, test the same revision, and pinned no input that is pinned otherwise now. */
  lemma {:induction false} FittingAnswer(db: Db, p: Payload)
    ensures DependenciesFit(db, p) <==>
            forall d :: d in p.deps ==>
              && d in db.jobs && db.jobs[d].payload.revision == p.revision
              && forall path :: path in db.jobs[d].payload.inputs ==>
                   path in p.inputs && p.inputs[path] == db.jobs[d].payload.inputs[path]
  {
    assert forall d :: d in p.deps ==> (DependencyFits(db, p, d) <==>
             (d in db.jobs && db.jobs[d].payload.revision == p.revision && InputsAgree(db.jobs[d].payload, p)));
  }

  lemma {:induction false} LastIsLatest(db: Db, p: Payload)
    requires WellNumbered(db)
    ensures match Latest(db, p)
            case Some(o) => LastFor(db, p, o) && forall j :: LastFor(db, p, j) ==> j == o
            case None => forall j :: j in db.jobs ==> db.jobs[j].payload != p
  {
    match Latest(db, p)
    case Some(o) =>
      forall j | LastFor(db, p, j) ensures j == o {
        assert db.jobs[j].born == db.jobs[o].born;
      }
    case None =>
      if j :| j in db.jobs && db.jobs[j].payload == p {
        SomeLatest(db, p, j);
      }
  }

  lemma {:induction false} SomeLatest(db: Db, p: Payload, j: JobId)
    requires WellNumbered(db) && j in db.jobs && db.jobs[j].payload == p
    ensures Latest(db, p).Some?
  {
    var o := SomeLast(db, p, j);
    assert IsLatest(db, p, Some(o));
  }

  lemma {:induction false} SomeLast(db: Db, p: Payload, j: JobId) returns (o: JobId)
    requires WellNumbered(db) && j in db.jobs && db.jobs[j].payload == p
    ensures LastFor(db, p, o)
    decreases db.births - db.jobs[j].born
  {
    if k :| k in db.jobs && db.jobs[k].payload == p && db.jobs[k].born > db.jobs[j].born {
      o := SomeLast(db, p, k);
    } else {
      o := j;
    }
  }

  /** What a submission of this payload by this session leaves besides its job's row. */
  ghost predicate Subscribed(a: Db, b: Db, session: Session, job: JobId) {
    && b.subscribers == a.subscribers + {(job, session)}
    && (forall r :: r in b.withdrawals <==> r in a.withdrawals && r != (job, session))
    && (forall r :: r in b.withdrawals ==> b.withdrawals[r] == a.withdrawals[r])
    && b.shared == a.shared && b.cache == a.cache && b.leases == a.leases && b.waiters == a.waiters
    && b.lastTicket == a.lastTicket
  }

  /**
   A submission is refused exactly for a prerequisite that does not fit. Otherwise it joins the last job for the
   payload, leaving all jobs alone, if that answers for it; if not, it makes the new queued job.
   */
  lemma {:induction false} SubmissionAnswer(db: Db, session: Session, p: Payload, repeat: bool, retryFailed: bool,
                                            newId: JobId)
    requires WellNumbered(db) && newId !in db.jobs
    ensures var done := Submission(db, session, p, repeat, retryFailed, newId);
            (done.Some? <==> DependenciesFit(db, p))
            && match done
               case None => true
               case Some((b, job)) =>
                 && Subscribed(db, b, session, job)
                 && (forall o :: AnswersFor(db, p, repeat, retryFailed, o) ==>
                       && job == o && b.jobs == db.jobs && b.births == db.births
                       && b.events == db.events + [Event(o, if db.jobs[o].state in OVER then Reused else Joined)])
                 && ((forall o :: !AnswersFor(db, p, repeat, retryFailed, o)) ==>
                       && job == newId && b.births == db.births + 1
                       && b.jobs == db.jobs[newId := Job(p, Queued, false, db.births, repeat, None)]
                       && b.events == db.events + [Event(newId, Submitted)])
  {
    hide WellNumbered, DependenciesFit, Latest, AnswersFor, Joins, Subscribed, SubmittedDb;
    JoinAnswer(db, p, repeat, retryFailed);
    SubmittedRows(db, session, p, repeat, Latest(db, p), retryFailed, newId);
    if o :| AnswersFor(db, p, repeat, retryFailed, o) {
      assert Joins(db, Latest(db, p), repeat, retryFailed) && o == Latest(db, p).value;
    }
  }

  lemma {:induction false} SubmittedRows(db: Db, session: Session, p: Payload, repeat: bool, prior: Option<JobId>,
                                         retryFailed: bool, newId: JobId)
    requires prior.Some? ==> prior.value in db.jobs
    ensures var (b, job) := SubmittedDb(db, session, p, repeat, prior, retryFailed, newId);
            && Subscribed(db, b, session, job)
            && (Joins(db, prior, repeat, retryFailed) ==>
                  && prior == Some(job) && b.jobs == db.jobs && b.births == db.births
                  && b.events == db.events + [Event(job, if db.jobs[job].state in OVER then Reused else Joined)])
            && (!Joins(db, prior, repeat, retryFailed) ==>
                  && job == newId && b.births == db.births + 1
                  && b.jobs == db.jobs[newId := Job(p, Queued, false, db.births, repeat, None)]
                  && b.events == db.events + [Event(newId, Submitted)])
  {
  }

  lemma {:induction false} JoinAnswer(db: Db, p: Payload, repeat: bool, retryFailed: bool)
    requires WellNumbered(db)
    ensures var prior := Latest(db, p);
            && (Joins(db, prior, repeat, retryFailed) <==> exists o :: AnswersFor(db, p, repeat, retryFailed, o))
            && (forall o :: AnswersFor(db, p, repeat, retryFailed, o) ==> prior == Some(o))
  {
    hide WellNumbered, Latest, LastFor;
    LastIsLatest(db, p);
    var prior := Latest(db, p);
    if Joins(db, prior, repeat, retryFailed) {
      assert AnswersFor(db, p, repeat, retryFailed, prior.value);
    }
    forall o | AnswersFor(db, p, repeat, retryFailed, o) ensures prior == Some(o) {
      LastIsKnown(db, p, o);
    }
  }

  lemma {:induction false} LastIsKnown(db: Db, p: Payload, o: JobId)
    requires LastFor(db, p, o)
    ensures o in db.jobs && db.jobs[o].payload == p
  {
  }

  /** In a published batch each entry's job has the entry's payload with the named earlier jobs as prerequisites. */
  lemma {:induction false} BatchAnswer(db: Db, session: Session, requests: seq<Request>, repeat: bool,
                                       newIds: seq<JobId>,
                                       n: nat)
    requires WellNumbered(db) && n <= |requests| && |newIds| == |requests| && NewIds(db, newIds)
    requires Batch(db, session, requests, repeat, newIds, n).Some?
    ensures var (b, ids) := Batch(db, session, requests, repeat, newIds, n).value;
            && |ids| == n && WellNumbered(b) && NewIds(b, newIds[n..])
            && (forall j :: j in db.jobs ==> j in b.jobs && b.jobs[j] == db.jobs[j])
            && forall i :: 0 <= i < n ==> EntryPublished(b, session, requests[i], ids, i)
    decreases n
  {
    hide WellNumbered, Submission, NewIds, WithNeeds, EntryPublished;
    if n == 0 {
      assert newIds[0..] == newIds;
    } else {
      BatchAnswer(db, session, requests, repeat, newIds, n - 1);
      var (a, ids) := Batch(db, session, requests, repeat, newIds, n - 1).value;
      EntryAnswer(a, session, requests, repeat, newIds, ids, n - 1);
      var (b, all) := Batch(db, session, requests, repeat, newIds, n).value;
      forall i | 0 <= i < n - 1 ensures EntryPublished(b, session, requests[i], all, i) {
        assert EntryPublished(a, session, requests[i], ids, i);
        EntryStays(a, b, session, requests[i], ids, all, i);
      }
    }
  }

  ghost predicate EntryPublished(b: Db, session: Session, r: Request, ids: seq<JobId>, i: nat) {
    && i < |ids| && ids[i] in b.jobs && (ids[i], session) in b.subscribers
    && b.jobs[ids[i]].payload == r.payload.(deps := b.jobs[ids[i]].payload.deps)
    && forall d :: d in b.jobs[ids[i]].payload.deps <==>
       d in r.payload.deps || exists n :: n in r.needs && n < i && d == ids[n]
  }

  lemma {:induction false} EntryStays(a: Db, b: Db, session: Session, r: Request, ids: seq<JobId>, all: seq<JobId>,
                                      i: nat)
    requires EntryPublished(a, session, r, ids, i) && ids <= all && a.subscribers <= b.subscribers
    requires forall j :: j in a.jobs ==> j in b.jobs && b.jobs[j] == a.jobs[j]
    ensures EntryPublished(b, session, r, all, i)
  {
    var deps := b.jobs[all[i]].payload.deps;
    forall d ensures d in deps <==> d in r.payload.deps || exists n :: n in r.needs && n < i && d == all[n] {
      if n :| n in r.needs && n < i && d == all[n] {
        assert d == ids[n];
      }
      if n :| n in r.needs && n < i && d == ids[n] {
        assert d == all[n];
      }
    }
  }

  lemma {:induction false} EntryAnswer(a: Db, session: Session, requests: seq<Request>, repeat: bool,
                                       newIds: seq<JobId>,
                                       ids: seq<JobId>, i: nat)
    requires WellNumbered(a) && i < |requests| && |newIds| == |requests| && |ids| == i && NewIds(a, newIds[i..])
    requires Submission(a, session, WithNeeds(requests[i], ids), repeat, false, newIds[i]).Some?
    ensures var (b, job) := Submission(a, session, WithNeeds(requests[i], ids), repeat, false, newIds[i]).value;
            && WellNumbered(b) && NewIds(b, newIds[i + 1..]) && a.subscribers <= b.subscribers
            && (forall j :: j in a.jobs ==> j in b.jobs && b.jobs[j] == a.jobs[j])
            && EntryPublished(b, session, requests[i], ids + [job], i)
  {
    hide WellNumbered, Submission, DependenciesFit;
    var p := WithNeeds(requests[i], ids);
    assert newIds[i..][0] == newIds[i];
    SubmissionAnswer(a, session, p, repeat, false, newIds[i]);
    SubmissionNumbers(a, session, p, repeat, false, newIds[i]);
    var (b, job) := Submission(a, session, p, repeat, false, newIds[i]).value;
    IdsLeft(a, b, newIds, i);
    if o :| AnswersFor(a, p, repeat, false, o) {
      assert job == o;
    }
    assert b.jobs[job].payload == p;
    forall d ensures d in p.deps <==>
        d in requests[i].payload.deps || exists n :: n in requests[i].needs && n < i && d == (ids + [job])[n] {
      if n :| n in requests[i].needs && n < i && d == (ids + [job])[n] {
        assert d == ids[n];
      }
      if n :| n in requests[i].needs && n < |ids| && d == ids[n] {
        assert d == (ids + [job])[n];
      }
    }
  }

  // ---- reuse

  /** A submission is answered from the cache exactly under these conditions. */
  lemma {:induction false} ReuseAnswer(db: Db, job: JobId, intact: bool)
    requires job in db.jobs && forall d :: d in db.jobs[job].payload.deps ==> d in db.jobs
    ensures var row := db.jobs[job];
            Reusable(db, job, intact) <==>
            && row.state !in OVER && row.started == false && row.repeat == false && intact
            && (forall d :: d in row.payload.deps ==>
                  && db.jobs[d].state == Succeeded && db.jobs[d].payload.outputs == false
                  && (db.jobs[d].result.Some? ==> db.jobs[d].result.value.artifacts == false))
            && row.payload.key.Some? && row.payload.key.value in db.cache && db.cache[row.payload.key.value] in db.jobs
            && var source := db.jobs[db.cache[row.payload.key.value]];
               source.state == Succeeded && source.result.Some? && source.result.value.covered
               && source.result.value.passed
  {
  }

  // ---- retire

  /** A withdrawal needs two different subscribed requests of one kind, a reason, and a replacement that is viable. */
  lemma {:induction false} RetireRefusal(db: Db, session: Session, stale: JobId, replacement: JobId, reason: string)
    ensures RetireError(db, session, stale, replacement, reason).None? <==>
            && stale != replacement && reason != "" && (stale, session) in db.subscribers
            && (replacement, session) in db.subscribers && stale in db.jobs && replacement in db.jobs
            && db.jobs[stale].payload.kind == db.jobs[replacement].payload.kind
            && (db.jobs[replacement].state in OVER ==> db.jobs[replacement].state == Succeeded)
  {
  }

  /** Another session still asks for the job. */
  ghost predicate Asked(db: Db, session: Session, stale: JobId) {
    exists other :: other != session && (stale, other) in db.subscribers && (stale, other) !in db.withdrawals
  }

  /** A job that is not over, or is to be completed, declares this one or waits for its evidence. */
  ghost predicate Needed(db: Db, stale: JobId) {
    exists j :: j in db.jobs && j != stale && (db.jobs[j].state !in OVER || db.jobs[j].state == Incomplete)
      && (stale in db.jobs[j].payload.deps || (j, stale) in db.shared)
  }

  lemma {:induction false} UnneededAnswer(db: Db, session: Session, stale: JobId, replacement: JobId, reason: string)
    requires stale in db.jobs
    ensures Unneeded(Withdrawn(db, session, stale, replacement, reason), stale) <==>
            && !Asked(db, session, stale) && !Needed(db, stale) && db.jobs[stale].started == false
            && db.jobs[stale].state !in OVER
  {
    var w := Withdrawn(db, session, stale, replacement, reason);
    assert ActiveSubscribers(w, stale) == {} <==> !Asked(db, session, stale) by {
      if other :| other != session && (stale, other) in db.subscribers && (stale, other) !in db.withdrawals {
        assert other in ActiveSubscribers(w, stale);
      }
      if other :| other in ActiveSubscribers(w, stale) {
        assert (stale, other) in w.subscribers && (stale, other) !in w.withdrawals;
      }
    }
    assert Dependents(w, stale) == {} <==> !Needed(db, stale) by {
      if j :| j in db.jobs && j != stale && (db.jobs[j].state !in OVER || db.jobs[j].state == Incomplete)
              && (stale in db.jobs[j].payload.deps || (j, stale) in db.shared) {
        assert j in Dependents(w, stale);
      }
      if j :| j in Dependents(w, stale) {
        assert j in db.jobs;
      }
    }
  }

  /**
   The withdrawal is recorded, and the job is retired exactly if nobody else asks, nothing needs it, and it
   never ran.
   */
  lemma {:induction false} RetireAnswer(db: Db, session: Session, stale: JobId, replacement: JobId, reason: string)
    requires RetireError(db, session, stale, replacement, reason).None?
    ensures var b := RetiredDb(db, session, stale, replacement, reason);
            && b.withdrawals == db.withdrawals[(stale, session) := (replacement, reason)]
            && b.subscribers == db.subscribers && b.shared == db.shared && b.cache == db.cache && b.leases == db.leases
            && b.waiters == db.waiters && b.lastTicket == db.lastTicket && b.births == db.births
            && (if !Asked(db, session, stale) && !Needed(db, stale) && db.jobs[stale].started == false
                   && db.jobs[stale].state !in OVER
                then
                  && b.jobs == db.jobs[stale := db.jobs[stale].(state := Retired)]
                  && b.events == db.events + [Event(stale, Became(Retired)), Event(replacement, Supersession(stale))]
                else b.jobs == db.jobs && b.events == db.events + [Event(replacement, Supersession(stale))])
  {
    hide Asked, Needed, Unneeded;
    UnneededAnswer(db, session, stale, replacement, reason);
  }

  // ---- the pool

  /** A waiter that stays in the queue: its job is not over, its process lives, and the pool can hold its request. */
  ghost predicate Stays(db: Db, j: JobId, policy: Policy, alive: set<nat>) {
    && j in db.waiters && j in db.jobs && db.jobs[j].state !in OVER && db.waiters[j].pid in alive
    && db.waiters[j].slots <= policy.slots && db.waiters[j].memory <= policy.memory
  }

  /** The leases of live processes. */
  ghost predicate Living(db: Db, live: map<JobId, Lease>, alive: set<nat>) {
    && (forall j :: j in live <==> j in db.leases && db.leases[j].pid in alive)
    && forall j :: j in live ==> live[j] == db.leases[j]
  }

  /** The job's ticket comes before all others that stay; a new ticket comes after them. */
  ghost predicate FirstInLine(db: Db, job: JobId, policy: Policy, alive: set<nat>) {
    forall k :: k != job && Stays(db, k, policy, alive) ==>
      Stays(db, job, policy, alive) && db.waiters[job].ticket < db.waiters[k].ticket
  }

  /** A lease is granted now: none is alive, it is this job's turn, and pool and host have room above the reserve. */
  ghost predicate Grants(db: Db, job: JobId, policy: Policy, alive: set<nat>, free: nat, live: map<JobId, Lease>)
    requires job in db.jobs
  {
    var p := db.jobs[job].payload;
    && db.jobs[job].state !in OVER && job !in live && FirstInLine(db, job, policy, alive)
    && SlotsUsed(live) + p.slots <= policy.slots && MemoryUsed(live) + p.memory <= policy.memory
    && p.memory + policy.reserve <= free
  }

  /** The answer is whether the job's own process holds its lease now. */
  lemma {:induction false} AcquireAnswer(db: Db, job: JobId, pid: nat, policy: Policy, alive: set<nat>, free: nat,
                                         live: map<JobId, Lease>)
    requires job in db.jobs && WellNumbered(db) && Living(db, live, alive)
    ensures Acquired(db, job, pid, policy, alive, free).1 <==>
            || (db.jobs[job].state !in OVER && job in live && live[job].pid == pid)
            || Grants(db, job, policy, alive, free, live)
  {
    hide SlotsUsed, MemoryUsed, Stays;
    LivingLeases(db, live, alive);
    if db.jobs[job].state !in OVER && job !in live {
      HeadAnswer(db, job, pid, policy, alive);
    }
  }

  lemma {:induction false} LivingLeases(db: Db, live: map<JobId, Lease>, alive: set<nat>)
    requires Living(db, live, alive)
    ensures live == LiveLeases(db, alive)
  {
  }

  /**
   The waiters once the job has its place: who stays keeps its row, and the job keeps its ticket or gets the
   next one.
   */
  lemma {:induction false} LineAnswer(db: Db, job: JobId, pid: nat, policy: Policy, alive: set<nat>)
    requires job in db.jobs && WellNumbered(db)
    ensures var p := db.jobs[job].payload;
            var e := Enrolled(Reclaimed(db, policy, alive), job, pid, p.slots, p.memory);
            && (forall k :: k != job ==>
                  (k in e.waiters <==> Stays(db, k, policy, alive))
                  && (k in e.waiters ==> e.waiters[k] == db.waiters[k]))
            && job in e.waiters
            && e.waiters[job] == Waiter(if Stays(db, job, policy, alive) then db.waiters[job].ticket
                                        else db.lastTicket + 1,
                                        pid, p.slots, p.memory)
            && e.lastTicket == (if Stays(db, job, policy, alive) then db.lastTicket else db.lastTicket + 1)
            && e.leases == LiveLeases(db, alive)
            && e.jobs == db.jobs && e.events == db.events && e.subscribers == db.subscribers
            && e.withdrawals == db.withdrawals && e.shared == db.shared && e.cache == db.cache && e.births == db.births
  {
    EligibleStay(db, policy, alive);
    hide Stays, Eligible;
  }

  lemma {:induction false} EligibleStay(db: Db, policy: Policy, alive: set<nat>)
    ensures forall k :: k in EligibleWaiters(db, policy, alive) <==> Stays(db, k, policy, alive)
    ensures forall k :: k in EligibleWaiters(db, policy, alive) ==>
              EligibleWaiters(db, policy, alive)[k] == db.waiters[k]
    ensures forall k :: Stays(db, k, policy, alive) ==> k in db.waiters
  {
  }

  lemma {:induction false} HeadAnswer(db: Db, job: JobId, pid: nat, policy: Policy, alive: set<nat>)
    requires job in db.jobs && WellNumbered(db)
    ensures var p := db.jobs[job].payload;
            IsHead(Enrolled(Reclaimed(db, policy, alive), job, pid, p.slots, p.memory).waiters, job) <==>
            FirstInLine(db, job, policy, alive)
  {
    LineAnswer(db, job, pid, policy, alive);
    TicketsApart(db, job, policy, alive);
    hide Enrolled, Reclaimed, Stays, WellNumbered;
  }

  lemma {:induction false} TicketsApart(db: Db, job: JobId, policy: Policy, alive: set<nat>)
    requires WellNumbered(db)
    ensures forall k :: k != job && Stays(db, k, policy, alive) ==>
              k in db.waiters && db.waiters[k].ticket <= db.lastTicket
    ensures forall k :: k != job && Stays(db, k, policy, alive) && Stays(db, job, policy, alive) ==>
              job in db.waiters && db.waiters[k].ticket != db.waiters[job].ticket
  {
  }

  /**
   The leases after an acquire: dead rows are gone, and a grant's row is the request's. No other table but the
   waiters moves.
   */
  lemma {:induction false} AcquireLeases(db: Db, job: JobId, pid: nat, policy: Policy, alive: set<nat>, free: nat,
                                         live: map<JobId, Lease>)
    requires job in db.jobs && WellNumbered(db) && Living(db, live, alive)
    ensures var b := Acquired(db, job, pid, policy, alive, free).0;
            var p := db.jobs[job].payload;
            && b.jobs == db.jobs && b.events == db.events && b.subscribers == db.subscribers
            && b.withdrawals == db.withdrawals && b.shared == db.shared && b.cache == db.cache && b.births == db.births
            && b.leases == if Grants(db, job, policy, alive, free, live) then live[job := Lease(pid, p.slots, p.memory)]
                           else live
  {
    LivingLeases(db, live, alive);
    LineAnswer(db, job, pid, policy, alive);
    HeadAnswer(db, job, pid, policy, alive);
    hide SlotsUsed, MemoryUsed, IsHead, FirstInLine, Enrolled, Stays, LiveLeases, EligibleWaiters, WellNumbered, Living;
  }

  /**
   The waiters after it: who stays keeps its row, and an ungranted request has one, with its ticket or the next
   one.
   */
  lemma {:induction false} AcquireWaiters(db: Db, job: JobId, pid: nat, policy: Policy, alive: set<nat>, free: nat,
                                          live: map<JobId, Lease>)
    requires job in db.jobs && WellNumbered(db) && Living(db, live, alive)
    ensures var b := Acquired(db, job, pid, policy, alive, free).0;
            forall k :: k != job ==>
              (k in b.waiters <==> Stays(db, k, policy, alive)) && (k in b.waiters ==> b.waiters[k] == db.waiters[k])
    ensures db.jobs[job].state !in OVER && job !in live ==>
              var b := Acquired(db, job, pid, policy, alive, free).0;
              var p, kept := db.jobs[job].payload, Stays(db, job, policy, alive);
              && (job in b.waiters <==> !Grants(db, job, policy, alive, free, live))
              && (job in b.waiters ==>
                    b.waiters[job] == Waiter(if kept then db.waiters[job].ticket else db.lastTicket + 1, pid, p.slots,
                                             p.memory))
              && b.lastTicket == if kept then db.lastTicket else db.lastTicket + 1
    ensures db.jobs[job].state in OVER || job in live ==>
              var b := Acquired(db, job, pid, policy, alive, free).0;
              (job in b.waiters <==> Stays(db, job, policy, alive)) && b.lastTicket == db.lastTicket
  {
    LivingLeases(db, live, alive);
    LineAnswer(db, job, pid, policy, alive);
    HeadAnswer(db, job, pid, policy, alive);
    EligibleStay(db, policy, alive);
    hide SlotsUsed, MemoryUsed, IsHead, FirstInLine, Enrolled, Stays, LiveLeases, EligibleWaiters, WellNumbered, Living;
  }

  /** Leaving takes the waiter's row away, and the lease's only after a grant. */
  lemma {:induction false} LeaveAnswer(db: Db, job: JobId, acquired: bool)
    ensures var b := LeftPool(db, job, acquired);
            && (forall j :: j in b.waiters <==> j in db.waiters && j != job)
            && (forall j :: j in b.waiters ==> b.waiters[j] == db.waiters[j])
            && (forall j :: j in b.leases <==> j in db.leases && (j != job || !acquired))
            && (forall j :: j in b.leases ==> b.leases[j] == db.leases[j])
            && b.jobs == db.jobs && b.events == db.events && b.lastTicket == db.lastTicket
  {
  }

  // ---- prerequisites and recovery

  /**
   A round of waiting goes on exactly if all prerequisites succeeded, and blocks the job exactly if one ended
   otherwise.
   */
  lemma {:induction false} PollAnswer(db: Db, job: JobId)
    requires job in db.jobs && forall d :: d in db.jobs[job].payload.deps ==> d in db.jobs
    ensures var deps, over := db.jobs[job].payload.deps, db.jobs[job].state in OVER;
            var (b, verdict) := Polled(db, job);
            var failed := exists d :: d in deps && db.jobs[d].state in OVER && db.jobs[d].state != Succeeded;
            && (verdict == Passed <==> !over && forall d :: d in deps ==> db.jobs[d].state == Succeeded)
            && (verdict == Stopped <==> over || failed)
            && (verdict.Pending? ==> forall d :: d in verdict.waiting <==> d in deps && db.jobs[d].state != Succeeded)
            && (!over && failed ==> OnlyBecame(db, b, job, Blocked, None))
            && (over || !failed ==> b == db)
  {
    BadAndUnmet(db, db.jobs[job].payload.deps);
    hide Bad, Unmet;
  }

  lemma {:induction false} BadAndUnmet(db: Db, deps: set<JobId>)
    requires forall d :: d in deps ==> d in db.jobs
    ensures forall d :: d in Bad(db, deps) <==> d in deps && db.jobs[d].state in OVER && db.jobs[d].state != Succeeded
    ensures forall d :: d in Unmet(db, deps) <==> d in deps && db.jobs[d].state != Succeeded
  {
  }

  /** A worker is launched for an open job that waits for one; any other open job without a worker is interrupted. */
  lemma {:induction false} RecoveryAnswer(db: Db, job: JobId, lockFree: bool)
    requires job in db.jobs
    ensures var state := db.jobs[job].state;
            var waits := state in {Queued, WaitingDependencies, WaitingCpu, WaitingEvidence};
            var (b, launch) := Recovered(db, job, lockFree);
            && (launch <==> lockFree && waits)
            && (lockFree && state !in OVER && !waits ==> OnlyBecame(db, b, job, Interrupted, None))
            && (!lockFree || state in OVER || waits ==> b == db)
  {
  }
}
