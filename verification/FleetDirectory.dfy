/**
 The fleet directory as the controllers change it, one file replacement at a time. The process may die
 before any replacement: `life` is how many it still makes.
 */
module FleetDirectory {
  import opened Wrappers
  import opened Reservation
  import opened Recovery
  import opened Admission
  import opened Sorting

  datatype End = Died | Ended(outcome: Outcome)

  /** As much of the plan as a process with that many replacements left carries out. */
  ghost predicate Performed(before: Dir, life: nat, plan: Plan, after: Dir, left: nat, end: End) {
    if life < |plan.writes| then after == After(before, plan.writes[..life]) && left == 0 && end == Died
    else after == After(before, plan.writes) && left == life - |plan.writes| && end == Ended(plan.outcome)
  }

  lemma {:induction false} PerformedThen(d: Dir, life: nat, p: Plan, e: Dir, left: nat, end: End, q: Plan)
    requires Performed(d, life, p, e, left, end) && (end.Died? || end.outcome.Refused?)
    ensures Performed(d, life, Then(p, q), e, left, end)
  {
    if end.Died? && !p.outcome.Refused? {
      assert (p.writes + q.writes)[..life] == p.writes[..life];
    }
  }

  lemma {:induction false} PerformedBoth(d: Dir, life: nat, p: Plan, e: Dir, left: nat, o: Outcome, q: Plan, f: Dir,
                                         rest: nat, end: End)
    requires Performed(d, life, p, e, left, Ended(o)) && !o.Refused? && Performed(e, left, q, f, rest, end)
    ensures Performed(d, life, Then(p, q), f, rest, end)
  {
    AfterConcat(d, p.writes, q.writes);
    if left < |q.writes| {
      PrefixOfTwo(d, p.writes, q.writes, life);
    }
  }

  function Adds(d: Dir, v: Record): seq<Write> {
    if IsPark(v) && v.session !in d.parkedIndex then [WriteIndex(d.parkedIndex + [v.session])] else []
  }

  /** The replacements of `save_record`, one after the other. */
  lemma {:induction false} SaveSteps(d: Dir, v: Record)
    requires Projected(v) == v && !(IsPark(v) && v.session !in d.parkedIndex && |d.parkedIndex| >= LIMIT)
    ensures var key := (v.session, v.ticket);
            var listed := Take([v.ticket]
                               + Reservation.Without(if v.session in d.tickets then d.tickets[v.session] else [],
                                                     v.ticket), LIMIT);
            if key in d.archive && !SameSupervisor(d.archive[key], v) then
              SavePlan(d, v) == Plan(Adds(d, v), Refused("reservation ticket belongs to a different supervisor"))
            else
              SavePlan(d, v) == Plan(Adds(d, v) + [WriteArchive(key, v)] + [WriteTickets(v.session, listed)]
                                     + [WriteRecord(v)]
                                     + (if !IsPark(v) && v.session in d.parkedIndex then
                                        [WriteIndex(Reservation.Without(d.parkedIndex, v.session))] else []), Done)
  {
  }

  lemma {:induction false} SavedLeavesQueue(d: Dir, v: Record)
    requires SavePlan(d, v).outcome.Done?
    ensures After(d, SavePlan(d, v).writes).queue == d.queue
  {
    var ws := SavePlan(d, v).writes;
    SavePrefix(d, v, |ws|);
    assert ws[..|ws|] == ws;
  }

  lemma {:induction false} NothingWritten(d: Dir)
    ensures After(d, []) == d
  {
  }

  class Controller {
    var records: map<string, Record>
    var archive: map<(string, string), Record>
    var tickets: map<string, seq<string>>
    var parkedIndex: seq<string>
    var queue: seq<Row>
    var holders: map<string, Holder>
    var debtTarget: Option<string>
    var front: string
    var yielded: string
    var life: nat

    function Contents(): Dir
      reads this
    {
      Dir(records, archive, tickets, parkedIndex, queue, holders, debtTarget, front, yielded)
    }

    method Put(w: Write) returns (alive: bool)
      modifies this
      ensures alive == (old(life) > 0)
      ensures Contents() == (if alive then Apply(old(Contents()), w) else old(Contents()))
                && life == (if alive then old(life) - 1 else 0)
    {
      alive := life > 0;
      if !alive {
        return;
      }
      life := life - 1;
      match w
      case WriteIndex(sessions) => parkedIndex := sessions;
      case WriteArchive(key, value) => archive := archive[key := value];
      case WriteTickets(session, listed) => tickets := tickets[session := listed];
      case WriteRecord(value) => records := records[value.session := value];
      case WriteQueue(rows) => queue := rows;
      case WriteDebt(target) => debtTarget := target;
      case ClearFront => front := "";
      case ClearYield => yielded := "";
      case WriteHolder(lane, holder) => holders := holders[lane := holder];
      case RemoveHolder(lane) => holders := holders - {lane};
    }

    /** The replacements made so far are the given ones. */
    ghost predicate Made(d: Dir, l: nat, made: seq<Write>)
      reads this
    {
      |made| <= l && life == l - |made| && Contents() == After(d, made)
    }

    /** The next replacement of a plan; if the process dies here, the plan was cut here. */
    method Step(w: Write, ghost d: Dir, ghost l: nat, ghost made: seq<Write>, ghost plan: Plan) returns (alive: bool)
      requires Made(d, l, made) && made + [w] <= plan.writes
      modifies this
      ensures alive ==> Made(d, l, made + [w])
      ensures !alive ==> Performed(d, l, plan, Contents(), life, Died)
    {
      alive := Put(w);
      if alive {
        assert (made + [w])[..|made|] == made;
      } else {
        assert plan.writes[..l] == made;
      }
    }

    /** `save_record`. */
    method SaveRecord(given: Record) returns (end: End)
      modifies this
      ensures Performed(old(Contents()), old(life), SavePlan(old(Contents()), given), Contents(), life, end)
    {
      var v := Projected(given);
      var parks, indexed := IsPark(v), parkedIndex;
      ghost var d, l, plan, made := Contents(), life, SavePlan(Contents(), given), [];
      if parks && v.session !in indexed {
        if |indexed| >= LIMIT {
          return Ended(Refused("too many parked reservations"));
        }
        var alive := Step(WriteIndex(indexed + [v.session]), d, l, made, plan);
        if !alive {
          return Died;
        }
        made := made + [WriteIndex(indexed + [v.session])];
      }
      end := SaveRest(v, parks, indexed, d, l, made, plan);
    }

    /** The rest of `save_record`: `_archive`, the current record, and the index removal. */
    method SaveRest(v: Record, parks: bool, indexed: seq<string>, ghost d: Dir, ghost l: nat, ghost made: seq<Write>,
                    ghost plan: Plan) returns (end: End)
      requires Projected(v) == v && parks == IsPark(v) && indexed == d.parkedIndex && Made(d, l, made)
      requires plan == SavePlan(d, v) && !(parks && v.session !in indexed && |indexed| >= LIMIT)
      requires made == Adds(d, v) && archive == d.archive && tickets == d.tickets
      modifies this
      ensures Performed(d, l, plan, Contents(), life, end)
    {
      SaveSteps(d, v);
      var key := (v.session, v.ticket);
      if key in archive && !SameSupervisor(archive[key], v) {
        return Ended(Refused("reservation ticket belongs to a different supervisor"));
      }
      var listed := Take([v.ticket] + Without(if v.session in tickets then tickets[v.session] else [], v.ticket),
                         LIMIT);
      end := ArchiveAndCommit(v, listed, parks, indexed, d, l, made, plan);
    }

    method ArchiveAndCommit(v: Record, listed: seq<string>, parks: bool, indexed: seq<string>, ghost d: Dir,
                            ghost l: nat, ghost made: seq<Write>, ghost plan: Plan) returns (end: End)
      requires Made(d, l, made) && plan.outcome == Done
      requires plan.writes == made + [WriteArchive((v.session, v.ticket), v)] + [WriteTickets(v.session, listed)]
                + [WriteRecord(v)]
                              + (if !parks && v.session in indexed then [WriteIndex(Without(indexed, v.session))]
                                 else [])
      modifies this
      ensures Performed(d, l, plan, Contents(), life, end)
    {
      var alive := Step(WriteArchive((v.session, v.ticket), v), d, l, made, plan);
      if !alive {
        return Died;
      }
      alive := Step(WriteTickets(v.session, listed), d, l, made + [WriteArchive((v.session, v.ticket), v)], plan);
      if !alive {
        return Died;
      }
      end := CommitRecord(v, parks, indexed, d, l,
                          made + [WriteArchive((v.session, v.ticket), v)] + [WriteTickets(v.session, listed)], plan);
    }

    method CommitRecord(v: Record, parks: bool, indexed: seq<string>, ghost d: Dir, ghost l: nat,
                        ghost made: seq<Write>, ghost plan: Plan) returns (end: End)
      requires Made(d, l, made) && plan.outcome == Done
      requires plan.writes == made + [WriteRecord(v)]
                + (if !parks && v.session in indexed then [WriteIndex(Without(indexed, v.session))] else [])
      modifies this
      ensures Performed(d, l, plan, Contents(), life, end)
    {
      assert made + [WriteRecord(v)] + [] == made + [WriteRecord(v)];
      var alive := Step(WriteRecord(v), d, l, made, plan);
      if !alive {
        return Died;
      }
      if !parks && v.session in indexed {
        alive := Step(WriteIndex(Without(indexed, v.session)), d, l, made + [WriteRecord(v)], plan);
        if !alive {
          return Died;
        }
      }
      end := Ended(Done);
    }

    /** One replacement, when it is needed. */
    method Maybe(needed: bool, w: Write) returns (end: End)
      modifies this
      ensures Performed(old(Contents()), old(life), Plan(if needed then [w] else [], Done), Contents(), life, end)
    {
      AfterOne(Contents(), w);
      assert [w][..0] == [];
      end := Ended(Done);
      if needed {
        var alive := Put(w);
        if !alive {
          end := Died;
        }
      }
    }

    /** The last part of `reconcile`: the rows follow the record. */
    method Project(v: Record, saved: Row) returns (end: End)
      modifies this
      ensures Performed(old(Contents()), old(life), ProjectionPlan(old(Contents()), v, saved), Contents(), life, end)
    {
      var rows := queue;
      var physical := RowsOf(rows, v.session);
      if |physical| > 1 || (|physical| == 1 && Identity(physical[0]) != Identity(saved)) {
        return Ended(Refused("saved reservation conflicts with another queued identity"));
      }
      if v.state == Paused {
        end := Maybe(physical != [], WriteQueue(Others(rows, v.session)));
      } else {
        end := Maybe(physical != [saved], WriteQueue(Others(rows, v.session) + [saved]));
      }
    }

    /** `reconcile`. */
    method ReconcileSession(procs: Processes, session: string, pid: Option<int>) returns (end: End)
      modifies this
      ensures Performed(old(Contents()), old(life), ReconcilePlan(old(Contents()), procs, session, pid), Contents(),
                        life, end)
    {
      if session !in records {
        return Ended(Ordinary);
      }
      var v := records[session];
      if !v.supported || (v.state != Paused && v.state != Queued) || !Live(procs, v) {
        return Ended(Ordinary);
      }
      if pid.Some? && v.pid != pid.value {
        if ParkedRow(v).Some? || v.state == Paused {
          return Ended(Refused("session belongs to a live parked reservation"));
        }
        return Ended(Ordinary);
      }
      if ParkedRow(v).Some? {
        end := Project(v, v.parked.value);
      } else if !Upgradable(Contents(), v) {
        end := Ended(Ordinary);
      } else {
        end := Upgrade(v);
      }
    }

    method Upgrade(v: Record) returns (end: End)
      requires Upgradable(Contents(), v)
      modifies this
      ensures var d := old(Contents());
              var u := Upgraded(d, v);
              Performed(d, old(life), Then(SavePlan(d, u), ProjectionPlan(d, u, u.parked.value)), Contents(), life, end)
    {
      ghost var d, l := Contents(), life;
      var u := v.(parked := Some(RowsOf(queue, v.session)[0].(estimate := v.estimate, note := v.note)));
      end := SaveRecord(u);
      ghost var e, m := Contents(), life;
      if end.Died? || end.outcome.Refused? {
        PerformedThen(d, l, SavePlan(d, u), e, m, end, ProjectionPlan(d, u, u.parked.value));
        return;
      }
      SavedLeavesQueue(d, u);
      ghost var o := end.outcome;
      end := Project(u, u.parked.value);
      PerformedBoth(d, l, SavePlan(d, u), e, m, o, ProjectionPlan(d, u, u.parked.value), Contents(), life, end);
    }

    /** A save, and the reconcile after it. */
    method SaveThenReconcile(procs: Processes, v: Record) returns (end: End)
      modifies this
      ensures Performed(old(Contents()), old(life), SaveAndReconcile(old(Contents()), procs, v), Contents(), life, end)
    {
      ghost var d, l := Contents(), life;
      end := SaveRecord(v);
      ghost var e, m := Contents(), life;
      ghost var rest := ReconcilePlan(After(d, SavePlan(d, v).writes), procs, v.session, Some(v.pid));
      if end.Died? || end.outcome.Refused? {
        PerformedThen(d, l, SavePlan(d, v), e, m, end, rest);
        return;
      }
      ghost var o := end.outcome;
      end := ReconcileSession(procs, v.session, Some(v.pid));
      PerformedBoth(d, l, SavePlan(d, v), e, m, o, rest, Contents(), life, end);
    }

    /** `set_paused`. */
    method SetPaused(procs: Processes, v: Record, reason: string) returns (end: End)
      modifies this
      ensures Performed(old(Contents()), old(life), SetPausedPlan(old(Contents()), procs, v, reason), Contents(), life,
                        end)
    {
      if v.state == Paused {
        end := ReconcileSession(procs, v.session, Some(v.pid));
        return;
      }
      ghost var d, l := Contents(), life;
      var row := QueuedRow(Contents(), v.session);
      if row.Err? {
        return Ended(Refused(row.error));
      }
      var u := PausedRecord(v, row.value, reason);
      end := SaveThenReconcile(procs, u);
      ghost var e, m := Contents(), life;
      if end.Died? || end.outcome.Refused? {
        PerformedThen(d, l, SaveAndReconcile(d, procs, u), e, m, end, PauseTail(d, v.session));
        return;
      }
      SaveReconcileKeepsMarks(d, procs, u);
      ghost var o := end.outcome;
      end := Withdraw(v.session);
      PerformedBoth(d, l, SaveAndReconcile(d, procs, u), e, m, o, PauseTail(d, v.session), Contents(), life, end);
    }

    /** The end of `set_paused`: the donor's offer and the priority marks. */
    method Withdraw(session: string) returns (end: End)
      modifies this
      ensures Performed(old(Contents()), old(life), PauseTail(old(Contents()), session), Contents(), life, end)
    {
      ghost var d, l, plan := Contents(), life, PauseTail(Contents(), session);
      ghost var made: seq<Write> := [];
      if debtTarget == Some(session) {
        var alive := Step(WriteDebt(None), d, l, made, plan);
        if !alive {
          return Died;
        }
        AfterOne(d, WriteDebt(None));
        made := [WriteDebt(None)];
      }
      end := ClearMarks(session, d, l, made, plan);
    }

    /** The two priority marks, where they name the session: the end of a pause and of `_dequeue`. */
    method ClearMarks(session: string, ghost d: Dir, ghost l: nat, ghost made: seq<Write>,
                      ghost plan: Plan) returns (end: End)
      requires Made(d, l, made) && front == d.front && yielded == d.yielded && plan.outcome == Done
      requires plan.writes == made + (if d.front == session then [ClearFront] else [])
                + (if d.yielded == session then [ClearYield] else [])
      modifies this
      ensures Performed(d, l, plan, Contents(), life, end)
    {
      ghost var done := made;
      if front == session {
        var alive := Step(ClearFront, d, l, done, plan);
        if !alive {
          return Died;
        }
        assert (done + [ClearFront])[..|done|] == done;
        done := done + [ClearFront];
      }
      if yielded == session {
        var alive := Step(ClearYield, d, l, done, plan);
        if !alive {
          return Died;
        }
        done := done + [ClearYield];
      }
      assert done == plan.writes;
      end := Ended(Done);
    }

    /** `pause`. */
    method Pause(procs: Processes, session: string, reason: string, expected: Option<nat>) returns (end: End)
      modifies this
      ensures Performed(old(Contents()), old(life), PausePlan(old(Contents()), procs, session, reason, expected),
                        Contents(), life, end)
    {
      var owned := Owned(Contents(), procs, session);
      if owned.Err? {
        return Ended(Refused(owned.error));
      }
      if expected.Some? && owned.value.revision != expected.value {
        return Ended(Refused("reservation revision changed; inspect before pausing"));
      }
      end := SetPaused(procs, owned.value, reason);
    }

    /** `pause_failed`. */
    method PauseFailed(procs: Processes, session: string, checked: Record, reason: string) returns (end: End)
      modifies this
      ensures Performed(old(Contents()), old(life), PauseFailedPlan(old(Contents()), procs, session, checked, reason),
                        Contents(), life, end)
    {
      var owned := Owned(Contents(), procs, session);
      if owned.Err? {
        return Ended(Ordinary);
      }
      var v := owned.value;
      if v.ticket != checked.ticket || v.pid != checked.pid || v.start != checked.start
          || v.revision != checked.revision
         || v.manifest != checked.manifest || v.state != Queued {
        return Ended(Ordinary);
      }
      end := SetPaused(procs, v, reason);
    }

    /** The second locked section of `resume`. */
    method CommitResume(procs: Processes, session: string, original: Record) returns (end: End)
      modifies this
      ensures Performed(old(Contents()), old(life), ResumeCommit(old(Contents()), procs, session, original), Contents(),
                        life, end)
    {
      var owned := Owned(Contents(), procs, session);
      if owned.Err? {
        return Ended(Refused(owned.error));
      }
      if owned.value != original {
        return Ended(Refused("reservation changed while checking resume"));
      }
      end := SaveThenReconcile(procs, ResumedRecord(original));
    }

    /** The second locked section of `edit`. */
    method CommitEdit(procs: Processes, session: string, original: Record, updated: Record) returns (end: End)
      modifies this
      ensures Performed(old(Contents()), old(life), EditCommit(old(Contents()), procs, session, original, updated),
                        Contents(), life, end)
    {
      var found := Inspect(Contents(), procs, session);
      if found.Err? {
        return Ended(Refused(found.error));
      }
      if found.value.value != original {
        return Ended(Refused("reservation changed during preflight"));
      }
      var v := EditedRecord(original, updated);
      if !found.value.projected {
        end := SaveThenReconcile(procs, v);
        return;
      }
      var rows := ReplaceRow(queue, session, v.estimate, v.note);
      ghost var d, l := Contents(), life;
      end := SaveRecord(v);
      ghost var e, m := Contents(), life;
      if end.Died? || end.outcome.Refused? {
        PerformedThen(d, l, SavePlan(d, v), e, m, end, Plan([WriteQueue(rows)], Done));
        return;
      }
      ghost var o := end.outcome;
      end := Maybe(true, WriteQueue(rows));
      PerformedBoth(d, l, SavePlan(d, v), e, m, o, Plan([WriteQueue(rows)], Done), Contents(), life, end);
    }

    /** `transition`. */
    method Transition(session: string, pid: int, start: string, state: Option<State>) returns (end: End)
      modifies this
      ensures Performed(old(Contents()), old(life), TransitionPlan(old(Contents()), session, pid, start, state),
                        Contents(), life, end)
    {
      if session !in records || records[session].pid != pid || records[session].start != start {
        return Ended(Refused("queued command ownership changed"));
      }
      var v := records[session];
      if state.Some? {
        v := v.(state := state.value);
      }
      end := SaveRecord(v);
    }

    /** `_archive`. */
    method Archive(v: Record) returns (end: End)
      modifies this
      ensures Performed(old(Contents()), old(life), ArchivePlan(old(Contents()), v), Contents(), life, end)
    {
      var key := (v.session, v.ticket);
      if key in archive && !SameSupervisor(archive[key], v) {
        return Ended(Refused("reservation ticket belongs to a different supervisor"));
      }
      var listed := Take([v.ticket] + Without(if v.session in tickets then tickets[v.session] else [], v.ticket),
                         LIMIT);
      ghost var d, l, plan := Contents(), life, ArchivePlan(Contents(), v);
      var alive := Step(WriteArchive(key, v), d, l, [], plan);
      if !alive {
        return Died;
      }
      alive := Step(WriteTickets(v.session, listed), d, l, [WriteArchive(key, v)], plan);
      if !alive {
        return Died;
      }
      assert [WriteArchive(key, v)] + [WriteTickets(v.session, listed)] == plan.writes;
      end := Ended(Done);
    }

    /** `register`. */
    method Register(draft: Draft) returns (end: End)
      modifies this
      ensures Performed(old(Contents()), old(life), RegisterPlan(old(Contents()), draft), Contents(), life, end)
    {
      var row := QueuedRow(Contents(), draft.session);
      if row.Err? {
        return Ended(Refused(row.error));
      }
      if row.value.pid != draft.pid {
        return Ended(Refused("reservation belongs to another process"));
      }
      var v := Registered(row.value, draft);
      ghost var d, l := Contents(), life;
      ghost var first := Plan([], Done);
      end := Ended(Done);
      if draft.session in records && records[draft.session].ticket != row.value.ticket {
        first := ArchivePlan(Contents(), records[draft.session]);
        end := Archive(records[draft.session]);
      }
      ghost var e, m := Contents(), life;
      ghost var rest := SavePlan(After(d, first.writes), v);
      if end.Died? || end.outcome.Refused? {
        PerformedThen(d, l, first, e, m, end, rest);
        return;
      }
      ghost var o := end.outcome;
      end := SaveRecord(v);
      PerformedBoth(d, l, first, e, m, o, rest, Contents(), life, end);
    }

    /** `admit` and the `_dequeue` after it, with the lane free and the session at its front. */
    method Admit(procs: Processes, session: string, lane: string, pid: int) returns (end: End)
      requires RowsOf(queue, session) != []
      modifies this
      ensures Performed(old(Contents()), old(life), AdmitPlan(old(Contents()), procs, session, lane, pid), Contents(),
                        life, end)
    {
      if IsPaused(Contents(), procs, session) {
        return Ended(Refused("paused"));
      }
      var row := RowsOf(queue, session)[0];
      var estimate, note := row.estimate, row.note;
      if Speaks(Contents(), procs, session, pid) {
        estimate, note := records[session].estimate, records[session].note;
      }
      end := Hold(Holder(session, pid, estimate, note, row.kind), lane,
                  AdmitPlan(Contents(), procs, session, lane, pid));
    }

    /** The holder, the debt in the fleet's lane, and the dequeueing. */
    method Hold(holder: Holder, lane: string, ghost plan: Plan) returns (end: End)
      requires plan.outcome == Done
      requires plan.writes == [WriteHolder(lane, holder)] + (if lane == FLEET then [WriteDebt(None)] else [])
                              + [WriteQueue(Others(queue, holder.session))]
                              + (if front == holder.session then [ClearFront] else [])
                              + (if yielded == holder.session then [ClearYield] else [])
      modifies this
      ensures Performed(old(Contents()), old(life), plan, Contents(), life, end)
    {
      hide After, Others, Performed;
      ghost var d, l, made := Contents(), life, [WriteHolder(lane, holder)];
      NothingWritten(d);
      assert [] + [WriteHolder(lane, holder)] == made;
      var alive := Step(WriteHolder(lane, holder), d, l, [], plan);
      if !alive {
        return Died;
      }
      AfterOne(d, WriteHolder(lane, holder));
      if lane == FLEET {
        alive := DropDebt(d, l, made, plan);
        made := made + [WriteDebt(None)];
        if !alive {
          return Died;
        }
      }
      end := Dequeue(holder.session, d, l, made, plan);
    }

    /** `restore-debt.json` is removed. */
    method DropDebt(ghost d: Dir, ghost l: nat, ghost made: seq<Write>, ghost plan: Plan) returns (alive: bool)
      requires Made(d, l, made) && made + [WriteDebt(None)] <= plan.writes
      modifies this
      ensures alive ==> Made(d, l, made + [WriteDebt(None)])
      ensures alive ==> queue == old(queue) && front == old(front) && yielded == old(yielded)
      ensures !alive ==> Performed(d, l, plan, Contents(), life, Died)
    {
      hide Performed;
      alive := Step(WriteDebt(None), d, l, made, plan);
      assert (made + [WriteDebt(None)])[..|made|] == made;
    }

    /** `_dequeue`: the row, then the priority marks. */
    method Dequeue(session: string, ghost d: Dir, ghost l: nat, ghost made: seq<Write>,
                   ghost plan: Plan) returns (end: End)
      requires Made(d, l, made) && queue == d.queue && front == d.front && yielded == d.yielded && plan.outcome == Done
      requires plan.writes == made + [WriteQueue(Others(d.queue, session))]
                              + (if d.front == session then [ClearFront] else [])
                              + (if d.yielded == session then [ClearYield] else [])
      modifies this
      ensures Performed(d, l, plan, Contents(), life, end)
    {
      var alive := Step(WriteQueue(Others(queue, session)), d, l, made, plan);
      if !alive {
        return Died;
      }
      ghost var done := made + [WriteQueue(Others(d.queue, session))];
      AfterOne(After(d, made), WriteQueue(Others(d.queue, session)));
      assert done[..|done| - 1] == made;
      end := ClearMarks(session, d, l, done, plan);
    }

    /** `parked`: the live parks, found through the index. A stale entry finds nothing. */
    method Parked(procs: Processes) returns (result: seq<Record>)
      requires KeysMatch(Contents()) && IndexCovers(Contents())
      ensures forall v :: v in result <==>
                v.session in records && records[v.session] == v && IsPark(v) && Live(procs, v)
      ensures Distinct(result)
    {
      result := [];
      for i := 0 to |parkedIndex|
        invariant forall v :: v in result <==>
                    v.session in parkedIndex[..i] && v.session in records && records[v.session] == v && IsPark(v)
                    && Live(procs, v)
        invariant Distinct(result)
      {
        var session := parkedIndex[i];
        assert parkedIndex[..i + 1] == parkedIndex[..i] + [session];
        if session !in parkedIndex[..i] && session in records && IsPark(records[session])
            && Live(procs, records[session]) {
          result := result + [records[session]];
        }
      }
    }
  }
}
