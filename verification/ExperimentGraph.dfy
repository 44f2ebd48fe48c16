/**
 What transactions keep true of the job table and the event log: an acyclic graph, earned successes, final
 retirement.
 */
module ExperimentGraph {
  import opened Wrappers
  import opened ExperimentDb

  // ---- the invariants

  /** Every prerequisite is an older job that tests the same revision and pins the same inputs. */
  ghost predicate OlderDependencies(db: Db) {
    forall j, d :: j in db.jobs && d in db.jobs[j].payload.deps ==>
      d in db.jobs && db.jobs[d].born < db.jobs[j].born && db.jobs[d].payload.revision == db.jobs[j].payload.revision
      && InputsAgree(db.jobs[d].payload, db.jobs[j].payload)
  }

  ghost predicate Numbered(db: Db) {
    && (forall j :: j in db.jobs ==> db.jobs[j].born < db.births)
    && (forall i, j :: i in db.jobs && j in db.jobs && i != j ==> db.jobs[i].born != db.jobs[j].born)
  }

  ghost predicate SucceededIn(events: seq<Event>, job: JobId) {
    Event(job, Became(Succeeded)) in events
  }

  /** All declared prerequisites have a success in the log. */
  ghost predicate Earned(jobs: map<JobId, Job>, events: seq<Event>, job: JobId) {
    job in jobs && forall d :: d in jobs[job].payload.deps ==> SucceededIn(events, d)
  }

  ghost predicate LogOk(db: Db) {
    && (forall j :: j in db.jobs && db.jobs[j].state == Succeeded ==> SucceededIn(db.events, j))
    && (forall i :: 0 <= i < |db.events| && db.events[i].kind == Became(Succeeded) ==>
        Earned(db.jobs, db.events[..i], db.events[i].job))
  }

  /** A retired job never ran. */
  ghost predicate RetiredOk(db: Db) {
    forall j :: j in db.jobs && db.jobs[j].state == Retired ==> !db.jobs[j].started
  }

  ghost predicate GraphOk(db: Db) {
    Numbered(db) && OlderDependencies(db) && LogOk(db) && RetiredOk(db)
  }

  // ---- what a transaction does to jobs and log

  ghost predicate NoChanges(events: seq<Event>) {
    forall e :: e in events ==> !e.kind.Became?
  }

  /** The rows that stay. */
  ghost predicate KeepsRows(a: map<JobId, Job>, b: map<JobId, Job>) {
    forall j :: j in a ==>
      && j in b && b[j].payload == a[j].payload && b[j].born == a[j].born && b[j].repeat == a[j].repeat
      && (a[j].started ==> b[j].started) && (a[j].state == Retired ==> b[j].state == Retired)
  }

  /** Perhaps new queued jobs, and no state change. */
  ghost predicate Extends(a: Db, b: Db) {
    && a.births <= b.births && Numbered(b) && OlderDependencies(b)
    && (forall j :: j in a.jobs ==> j in b.jobs && b.jobs[j] == a.jobs[j])
    && (forall j :: j in b.jobs && j !in a.jobs ==> b.jobs[j].state == Queued && !b.jobs[j].started)
    && a.events <= b.events && NoChanges(b.events[|a.events|..])
  }

  /** One job's state changes; the success of a job is earned, and only an unstarted job retires. */
  ghost predicate Sets(a: Db, b: Db, job: JobId, state: JobState, result: Option<Evidence>) {
    && job in a.jobs && b.births == a.births && b.jobs == a.jobs[job := Moved(a.jobs[job], state, result)]
    && (a.jobs[job].state == Retired ==> state == Retired)
    && (state == Succeeded ==> Earned(a.jobs, a.events, job))
    && (state == Retired ==> !a.jobs[job].started)
    && a.events + [Event(job, Became(state))] <= b.events && NoChanges(b.events[|a.events| + 1..])
  }

  ghost predicate Moves(a: Db, b: Db) {
    Extends(a, b) || exists job, state, result :: Sets(a, b, job, state, result)
  }

  lemma {:induction false} MovesKeepRows(a: Db, b: Db)
    requires Moves(a, b)
    ensures KeepsRows(a.jobs, b.jobs) && a.events <= b.events
  {
    if !Extends(a, b) {
      var job, state, result :| Sets(a, b, job, state, result);
      assert a.events <= a.events + [Event(job, Became(state))];
    }
  }

  lemma {:induction false} EarnedStays(a: map<JobId, Job>, b: map<JobId, Job>, events: seq<Event>, more: seq<Event>,
                                       job: JobId)
    requires Earned(a, events, job) && KeepsRows(a, b) && events <= more
    ensures Earned(b, more, job)
  {
    forall d | d in b[job].payload.deps ensures SucceededIn(more, d) {
      assert SucceededIn(events, d);
      var i :| 0 <= i < |events| && events[i] == Event(d, Became(Succeeded));
      assert more[i] == events[i];
    }
  }

  lemma {:induction false} LogPrefix(a: Db, b: Db, i: nat)
    requires LogOk(a) && KeepsRows(a.jobs, b.jobs) && a.events <= b.events && i < |a.events|
    requires a.events[i].kind == Became(Succeeded)
    ensures Earned(b.jobs, b.events[..i], b.events[i].job)
  {
    assert a.events[..i] == b.events[..i];
    EarnedStays(a.jobs, b.jobs, a.events[..i], b.events[..i], a.events[i].job);
  }

  lemma {:induction false} NoLateChange(events: seq<Event>, n: nat)
    requires n <= |events| && NoChanges(events[n..])
    ensures forall i :: n <= i < |events| ==> !events[i].kind.Became?
  {
    forall i | n <= i < |events| ensures !events[i].kind.Became? {
      assert events[n..][i - n] == events[i];
    }
  }

  lemma {:induction false} ExtendsKeeps(a: Db, b: Db)
    requires GraphOk(a) && Extends(a, b)
    ensures GraphOk(b)
  {
    forall i | 0 <= i < |b.events| && b.events[i].kind == Became(Succeeded)
      ensures Earned(b.jobs, b.events[..i], b.events[i].job)
    {
      NoLateChange(b.events, |a.events|);
      LogPrefix(a, b, i);
    }
  }

  lemma {:induction false} SetsKeeps(a: Db, b: Db, job: JobId, state: JobState, result: Option<Evidence>)
    requires GraphOk(a) && Sets(a, b, job, state, result)
    ensures GraphOk(b)
  {
    var n := |a.events|;
    assert b.events[n] == (a.events + [Event(job, Became(state))])[n];
    assert a.events <= a.events + [Event(job, Became(state))];
    SetsLog(a, b, job, state, result);
    forall j | j in b.jobs && b.jobs[j].state == Succeeded ensures SucceededIn(b.events, j) {
      if j == job {
        assert b.events[n] == Event(j, Became(Succeeded));
      } else {
        assert SucceededIn(a.events, j);
      }
    }
  }

  lemma {:induction false} SetsLog(a: Db, b: Db, job: JobId, state: JobState, result: Option<Evidence>)
    requires LogOk(a) && Sets(a, b, job, state, result)
    ensures forall i :: 0 <= i < |b.events| && b.events[i].kind == Became(Succeeded) ==>
              Earned(b.jobs, b.events[..i], b.events[i].job)
  {
    var n := |a.events|;
    var more := a.events + [Event(job, Became(state))];
    assert a.events <= more <= b.events;
    forall i | 0 <= i < |b.events| && b.events[i].kind == Became(Succeeded)
      ensures Earned(b.jobs, b.events[..i], b.events[i].job)
    {
      NoLateChange(b.events, n + 1);
      if i == n {
        assert b.events[n] == more[n] && b.events[..n] == a.events;
        EarnedStays(a.jobs, b.jobs, a.events, a.events, job);
      } else {
        LogPrefix(a, b, i);
      }
    }
  }

  /** Every transaction keeps the graph, the log and the retirements. */
  lemma {:induction false} MovesKeep(a: Db, b: Db)
    requires GraphOk(a) && Moves(a, b)
    ensures GraphOk(b)
  {
    if Extends(a, b) {
      ExtendsKeeps(a, b);
    } else {
      var job, state, result :| Sets(a, b, job, state, result);
      SetsKeeps(a, b, job, state, result);
    }
  }

  // ---- the transactions

  lemma {:induction false} SetStateMoves(a: Db, job: JobId, state: JobState, result: Option<Evidence>)
    requires SetState(a, job, state, result).Ok? && (state == Succeeded ==> Earned(a.jobs, a.events, job))
    requires state == Retired ==> !a.jobs[job].started
    ensures Sets(a, SetState(a, job, state, result).value, job, state, result)
  {
  }

  lemma {:induction false} NoChangeExtends(a: Db, b: Db)
    requires GraphOk(a) && b.jobs == a.jobs && b.births == a.births && b.events == a.events
    ensures Extends(a, b)
  {
  }

  lemma {:induction false} NewJobFits(a: Db, b: Db, p: Payload, repeat: bool, newId: JobId)
    requires Numbered(a) && OlderDependencies(a) && DependenciesFit(a, p) && newId !in a.jobs
    requires b.jobs == a.jobs[newId := Job(p, Queued, false, a.births, repeat, None)] && b.births == a.births + 1
    ensures Numbered(b) && OlderDependencies(b)
  {
    hide OlderDependencies, DependenciesFit;
    NewJobIsYounger(a, b, p, repeat, newId);
  }

  lemma {:induction false} NewJobIsYounger(a: Db, b: Db, p: Payload, repeat: bool, newId: JobId)
    requires Numbered(a) && OlderDependencies(a) && DependenciesFit(a, p) && newId !in a.jobs
    requires b.jobs == a.jobs[newId := Job(p, Queued, false, a.births, repeat, None)]
    ensures OlderDependencies(b)
  {
    forall d | d in p.deps ensures DependencyFits(a, p, d) {
    }
  }

  lemma {:induction false} SubmissionExtends(a: Db, session: Session, p: Payload, repeat: bool, retryFailed: bool,
                                             newId: JobId)
    requires GraphOk(a) && newId !in a.jobs && Submission(a, session, p, repeat, retryFailed, newId).Some?
    ensures Extends(a, Submission(a, session, p, repeat, retryFailed, newId).value.0)
  {
    hide Submission, DependenciesFit, Numbered, OlderDependencies, NoChanges;
    var b := Submission(a, session, p, repeat, retryFailed, newId).value.0;
    SubmissionEvents(a, session, p, repeat, retryFailed, newId);
    if b.jobs == a.jobs {
      SameJobsFit(a, b);
    } else {
      NewJobFits(a, b, p, repeat, newId);
    }
  }

  lemma {:induction false} SameJobsFit(a: Db, b: Db)
    requires Numbered(a) && OlderDependencies(a) && b.jobs == a.jobs && b.births == a.births
    ensures Numbered(b) && OlderDependencies(b)
  {
  }

  lemma {:induction false} SubmissionEvents(a: Db, session: Session, p: Payload, repeat: bool, retryFailed: bool,
                                            newId: JobId)
    requires Submission(a, session, p, repeat, retryFailed, newId).Some?
    ensures var b := Submission(a, session, p, repeat, retryFailed, newId).value.0;
            && DependenciesFit(a, p) && a.events <= b.events && NoChanges(b.events[|a.events|..])
            && (if b.jobs == a.jobs then b.births == a.births || newId in a.jobs
                else
                  && b.jobs == a.jobs[newId := Job(p, Queued, false, a.births, repeat, None)]
                  && b.births == a.births + 1)
  {
    var b := Submission(a, session, p, repeat, retryFailed, newId).value.0;
    assert b.events[|a.events|..] == [b.events[|a.events|]];
  }

  lemma {:induction false} ExtendsTwice(a: Db, b: Db, c: Db)
    requires Extends(a, b) && Extends(b, c)
    ensures Extends(a, c)
  {
    forall e | e in c.events[|a.events|..] ensures !e.kind.Became? {
      var i :| 0 <= i < |c.events[|a.events|..]| && c.events[|a.events|..][i] == e;
      if i < |b.events| - |a.events| {
        assert b.events[|a.events|..][i] == e;
      } else {
        assert c.events[|b.events|..][i - (|b.events| - |a.events|)] == e;
      }
    }
  }

  lemma {:induction false} BatchExtends(a: Db, session: Session, requests: seq<Request>, repeat: bool,
                                        newIds: seq<JobId>, n: nat)
    requires GraphOk(a) && n <= |requests| && |newIds| == |requests| && NewIds(a, newIds)
    requires Batch(a, session, requests, repeat, newIds, n).Some?
    ensures var b := Batch(a, session, requests, repeat, newIds, n).value;
            && Extends(a, b.0) && GraphOk(b.0) && |b.1| == n
            && (forall j :: j in b.0.jobs ==> j in a.jobs || j in newIds[..n])
    decreases n
  {
    hide Submission, WithNeeds, GraphOk;
    if n == 0 {
      NoChangeExtends(a, a);
    } else {
      BatchExtends(a, session, requests, repeat, newIds, n - 1);
      var b := Batch(a, session, requests, repeat, newIds, n - 1).value;
      var p := WithNeeds(requests[n - 1], b.1);
      SubmissionExtends(b.0, session, p, repeat, false, newIds[n - 1]);
      SubmissionEvents(b.0, session, p, repeat, false, newIds[n - 1]);
      var c := Batch(a, session, requests, repeat, newIds, n).value;
      ExtendsKeeps(b.0, c.0);
      ExtendsTwice(a, b.0, c.0);
    }
  }

  /** A retirement is of a job that nobody wants, nothing live needs, and that never ran. */
  lemma {:induction false} RetireMoves(a: Db, session: Session, stale: JobId, replacement: JobId, reason: string)
    requires GraphOk(a) && RetireError(a, session, stale, replacement, reason).None?
    ensures Moves(a, RetiredDb(a, session, stale, replacement, reason))
  {
    var w := Withdrawn(a, session, stale, replacement, reason);
    var b := RetiredDb(a, session, stale, replacement, reason);
    if Unneeded(w, stale) {
      assert b.events[|a.events| + 1..] == [Event(replacement, Supersession(stale))];
      assert Sets(a, b, stale, Retired, None);
    } else {
      assert b.events[|a.events|..] == [Event(replacement, Supersession(stale))];
      assert Extends(a, b);
    }
  }
}
