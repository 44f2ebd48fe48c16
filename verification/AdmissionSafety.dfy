/** No lost update, increasing revisions, and the granted command: over every run of the reservation protocol. */
module AdmissionSafety {
  import opened Wrappers
  import opened Reservation
  import opened Recovery
  import opened Operations
  import opened Admission

  // ---- what one step may do to the records

  /** Saving a record again leaves it as it is. */
  ghost predicate Tidy(d: Dir) {
    forall s :: s in d.records ==> Projected(d.records[s]) == d.records[s]
  }

  ghost predicate WellKept(d: Dir) {
    KeysMatch(d) && RowsMatch(d) && IndexCovers(d) && Tidy(d)
  }

  /** The record of a session after a step: unchanged, a later version, or a newly registered one. */
  ghost predicate Moves(w: World, e: Dir, s: string) {
    && (s in w.dir.records ==> s in e.records)
    && (s in e.records && !SameRecord(w.dir, e, s) ==>
          Owner(e.records[s]) !in w.registered
          || (s in w.dir.records && SameIdentity(e.records[s], w.dir.records[s])
              && Later(e.records[s], w.dir.records[s])))
  }

  ghost predicate AllMove(w: World, e: Dir) {
    forall s :: s in w.dir.records || s in e.records ==> Moves(w, e, s)
  }

  // ---- readers

  ghost predicate Superseded(now: Record, then0: Record) {
    Owner(now) != Owner(then0) || Later(now, then0)
  }

  ghost predicate ReadingOk(w: World, r: Reading) {
    var s := r.value.session;
    && s in w.dir.records && Owner(r.value) in w.registered
    && (if r.disturbed then Superseded(w.dir.records[s], r.value) else w.dir.records[s] == r.value)
  }

  ghost predicate ReadingsOk(w: World) {
    forall c :: c in w.readings ==> ReadingOk(w, w.readings[c])
  }

  lemma {:induction false} SupersededStays(a: Record, b: Record, c: Record)
    requires Superseded(b, c) && Owner(a) == Owner(b) && Later(a, b)
    ensures Superseded(a, c)
  {
  }

  lemma {:induction false} ReadingMoves(w: World, e: Dir, r: Reading)
    requires ReadingOk(w, r) && Moves(w, e, r.value.session)
    ensures var s := r.value.session;
            && s in e.records
            && (if r.disturbed || !SameRecord(w.dir, e, s) then Superseded(e.records[s], r.value)
                else e.records[s] == r.value)
  {
    var s := r.value.session;
    if !SameRecord(w.dir, e, s) && Owner(e.records[s]) in w.registered && r.disturbed {
      SupersededStays(e.records[s], w.dir.records[s], r.value);
    }
  }

  lemma {:induction false} ReadingsMove(w: World, e: Dir)
    requires ReadingsOk(w) && AllMove(w, e)
    ensures ReadingsOk(Written(w, e))
  {
    forall c | c in w.readings ensures ReadingOk(Written(w, e), Written(w, e).readings[c]) {
      ReadingMoves(w, e, w.readings[c]);
    }
  }

  // ---- the hold and what it was granted for

  /** The same work: what the supervisor will execute. */
  predicate SameWork(a: Record, b: Record) {
    && Owner(a) == Owner(b) && a.session == b.session && a.ticket == b.ticket && a.revision == b.revision
    && a.command == b.command && a.cwd == b.cwd && a.manifest == b.manifest
  }

  ghost predicate Holds(d: Dir, lane: string, p: Supervisor, s: string) {
    HeldBy(d, lane, s) && d.holders[lane].pid == p.0
  }

  /**
   Once held, only its supervisor changes it: in the fleet's lane any record, elsewhere one that is not paused
   and was never parked.
   */
  predicate Sealed(lane: string, v: Record) {
    lane == FLEET || (v.state != Paused && ParkedRow(v).None?)
  }

  /**
   While the record is the supervisor's, so was the one it was granted for, and until it starts the lane is held for
   it; if the granted record was sealed, its work is unchanged.
   */
  ghost predicate GrantOk(w: World, p: Supervisor) {
    p in w.granted && p in w.registered &&
    var s, g := w.registered[p], w.granted[p];
    Alive(w, p) && s in w.dir.records && Owner(w.dir.records[s]) == p ==>
      var v := w.dir.records[s];
      && g.record.Some? && Owner(g.record.value) == p
      && (Rank(v.state) > 0 || Holds(w.dir, g.lane, p, s))
      && (Sealed(g.lane, g.record.value) ==> SameWork(v, g.record.value) && (Rank(v.state) > 0 || Sealed(g.lane, v)))
  }

  ghost predicate GrantsOk(w: World) {
    forall p :: p in w.granted ==> GrantOk(w, p)
  }

  /** What a supervisor executes is its own, and what it was granted if that was sealed. */
  ghost predicate StartOk(w: World, p: Supervisor) {
    && p in w.started && p in w.granted && w.granted[p].record.Some?
    && Owner(w.started[p]) == p && Owner(w.granted[p].record.value) == p
    && (Sealed(w.granted[p].lane, w.granted[p].record.value) ==> SameWork(w.started[p], w.granted[p].record.value))
  }

  ghost predicate StartsOk(w: World) {
    forall p :: p in w.started ==> StartOk(w, p)
  }

  ghost predicate OwnersOk(w: World) {
    && (forall s :: s in w.dir.records ==>
        Owner(w.dir.records[s]) in w.registered && w.registered[Owner(w.dir.records[s])] == s)
    && (forall p :: p in w.registered ==> p in w.born)
    && (forall pid :: pid in w.procs ==> (pid, w.procs[pid]) in w.born)
  }

  ghost predicate Inv(w: World) {
    WellKept(w.dir) && ReadingsOk(w) && GrantsOk(w) && StartsOk(w) && OwnersOk(w)
  }

  // ---- steps that write records

  /** Started, or held in a lane that seals it. */
  ghost predicate Closed(d: Dir, s: string) {
    s in d.records && (Rank(d.records[s].state) > 0 || exists lane :: HeldBy(d, lane, s) && Sealed(lane, d.records[s]))
  }

  /** The work is kept; a record still waiting stays paused, so it is one that only the fleet's lane seals. */
  predicate KeepsWork(v: Record, was: Record) {
    SameWork(v, was) && (Rank(v.state) > 0 || (v.state == Paused && was.state == Paused))
  }

  /** A closed record keeps its work. */
  ghost predicate Guarded(w: World, e: Dir, s: string) {
    s in w.dir.records && s in e.records && e.records[s] != w.dir.records[s] && Owner(e.records[s]) in w.registered
    && Closed(w.dir, s) ==>
      KeepsWork(e.records[s], w.dir.records[s])
  }

  ghost predicate RecordStep(w: World, e: Dir) {
    && WellKept(e) && e.holders == w.dir.holders
    && forall s :: s in w.dir.records || s in e.records ==> Moves(w, e, s) && Guarded(w, e, s)
  }

  lemma {:induction false} GrantKept(w: World, e: Dir, p: Supervisor)
    requires GrantOk(w, p) && RecordStep(w, e)
    ensures GrantOk(Written(w, e), p)
  {
    var s, g := w.registered[p], w.granted[p];
    if Alive(w, p) && s in e.records && Owner(e.records[s]) == p {
      assert Moves(w, e, s) && Guarded(w, e, s);
      if Rank(w.dir.records[s].state) > 0 || (g.record.Some? && Sealed(g.lane, g.record.value)) {
        assert Closed(w.dir, s);
      }
    }
  }

  lemma {:induction false} RecordStepKeeps(w: World, e: Dir)
    requires Inv(w) && RecordStep(w, e)
    ensures var x := Written(w, e); WellKept(x.dir) && ReadingsOk(x) && GrantsOk(x) && StartsOk(x)
  {
    ReadingsMove(w, e);
    forall p | p in w.granted ensures GrantOk(Written(w, e), p) {
      GrantKept(w, e, p);
    }
    forall p | p in w.started ensures StartOk(Written(w, e), p) {
      assert StartOk(w, p);
    }
  }

  lemma {:induction false} OwnersKept(w: World, e: Dir)
    requires OwnersOk(w) && RecordStep(w, e)
    requires forall s :: s in e.records ==> Owner(e.records[s]) in w.registered
    ensures OwnersOk(Written(w, e))
  {
    forall s | s in e.records ensures w.registered[Owner(e.records[s])] == s {
      assert Moves(w, e, s);
    }
  }

  // ---- operations

  lemma {:induction false} RowsKept(d: Dir, c: Dir, s: string, saved: Option<Record>)
    requires RowsMatch(d) && KeysMatch(d) && Kept(d, c, s, saved)
    requires saved.Some? ==> s in d.records && SameIdentity(Projected(saved.value), d.records[s])
    ensures RowsMatch(c)
  {
    forall r | r in c.queue && r.session in c.records && c.records[r.session].ticket == r.ticket
      ensures c.records[r.session].enqueued == r.enqueued
    {
      if r.session == s {
        assert Sourced(d, s, r);
      } else {
        RowMember(c.queue, s, r);
        RowMember(d.queue, s, r);
      }
    }
  }

  /**
   A held record that its lane seals is closed to every operation but its owner's: at most, a reconcile gives an earlier
   controller's pause its saved row.
   */
  lemma {:induction false} HeldIsClosed(d: Dir, procs: Processes, op: Operation, lane: string)
    requires HeldBy(d, lane, op.session) && op.session in d.records && Sealed(lane, d.records[op.session])
    requires !op.Transition?
    ensures SavedBy(d, procs, op).Some? ==>
              op.Reconcile? && Upgradable(d, d.records[op.session])
              && SavedBy(d, procs, op) == Some(Upgraded(d, d.records[op.session]))
  {
    assert HeldAnywhere(d, op.session);
    assert Inspect(d, procs, op.session).Err?;
  }

  /** The owner's transitions that the protocol takes. */
  ghost predicate Proper(w: World, op: Operation) {
    op.Transition? ==>
      op.session in w.dir.records && (op.state.Some? ==> Onward(w.dir.records[op.session].state, op.state.value))
  }

  /** A version that the protocol may put in place of another. */
  ghost predicate Successor(w: World, s: string, v: Record, was: Record) {
    && SameIdentity(v, was)
    && (v == was || (Later(v, was) && (Closed(w.dir, s) ==> KeepsWork(v, was))))
  }

  lemma {:induction false} SavedMoves(w: World, op: Operation)
    requires Inv(w) && Proper(w, op) && SavedBy(w.dir, w.procs, op).Some?
    ensures op.session in w.dir.records
    ensures Successor(w, op.session, Projected(SavedBy(w.dir, w.procs, op).value), w.dir.records[op.session])
  {
    var d, s := w.dir, op.session;
    SavedIsLater(d, w.procs, op);
    assert Projected(d.records[s]) == d.records[s];
    forall lane | !op.Transition? && HeldBy(d, lane, s) && Sealed(lane, d.records[s])
      ensures KeepsWork(Projected(SavedBy(d, w.procs, op).value), d.records[s])
    {
      HeldIsClosed(d, w.procs, op, lane);
    }
  }

  /** The session's record gives way to a successor; nothing else moves. */
  lemma {:induction false} SuccessorStep(w: World, e: Dir, s: string, v: Record)
    requires Inv(w) && s in w.dir.records && Successor(w, s, v, w.dir.records[s]) && Projected(v) == v
    requires RowsMatch(e) && IndexCovers(e) && e.holders == w.dir.holders
    requires e.records == w.dir.records || e.records == w.dir.records[s := v]
    ensures RecordStep(w, e) && OwnersOk(Written(w, e))
  {
    hide GrantsOk, StartsOk, ReadingsOk, RowsMatch, IndexCovers;
    assert Owner(v) == Owner(w.dir.records[s]);
    OwnersKept(w, e);
  }

  /** Any operation, cut at any point. */
  lemma {:induction false} OperationStep(w: World, op: Operation, n: nat)
    requires Inv(w) && Proper(w, op) && n <= |PlanOf(w.dir, w.procs, op).writes|
    ensures Inv(Written(w, After(w.dir, PlanOf(w.dir, w.procs, op).writes[..n])))
    ensures RecordStep(w, After(w.dir, PlanOf(w.dir, w.procs, op).writes[..n]))
  {
    var d, s, saved := w.dir, op.session, SavedBy(w.dir, w.procs, op);
    var e := After(d, PlanOf(d, w.procs, op).writes[..n]);
    OperationKeeps(d, w.procs, op, n);
    if saved.Some? {
      SavedMoves(w, op);
      RowsKept(d, e, s, saved);
      SuccessorStep(w, e, s, Projected(saved.value));
    } else {
      RowsKept(d, e, s, saved);
      Unmoved(w, e);
    }
    RecordStepKeeps(w, e);
  }

  lemma {:induction false} Unmoved(w: World, e: Dir)
    requires Inv(w) && e.records == w.dir.records && e.holders == w.dir.holders && RowsMatch(e) && IndexCovers(e)
    ensures RecordStep(w, e) && OwnersOk(Written(w, e))
  {
  }

  // ---- the other steps

  lemma {:induction false} LookStep(w: World, reader: nat, s: string)
    requires Inv(w) && Inspect(w.dir, w.procs, s).Ok?
    ensures Inv(Next(w, Look(reader, s)))
  {
    InspectedIsCurrent(w.dir, w.procs, s);
  }

  lemma {:induction false} ReaderGone(w: World, reader: nat)
    requires Inv(w)
    ensures Inv(w.(readings := w.readings - {reader}))
  {
  }

  /** An environment step: no record changes, and no hold is lost that a waiting supervisor still needs. */
  lemma {:induction false} QueueStep(w: World, rows: seq<Row>)
    requires Inv(w) && RowsMatch(w.dir.(queue := rows))
    ensures Inv(w.(dir := w.dir.(queue := rows)))
  {
    var x := w.(dir := w.dir.(queue := rows));
    assert Written(w, x.dir).dir == x.dir && forall c :: c in w.readings ==>
        Written(w, x.dir).readings[c] == w.readings[c];
    assert Written(w, x.dir).readings == w.readings;
    Unmoved(w, x.dir);
    RecordStepKeeps(w, x.dir);
    assert Written(w, x.dir) == x;
  }

  /** Nobody gains life, and a waiting supervisor keeps its hold. */
  ghost predicate Spares(w: World, x: World, p: Supervisor)
    requires p in w.granted
  {
    p in w.registered && Alive(x, p) ==>
      var s, lane := w.registered[p], w.granted[p].lane;
      && Alive(w, p)
      && (Holds(w.dir, lane, p, s) ==>
            Holds(x.dir, lane, p, s) || s !in w.dir.records || Owner(w.dir.records[s]) != p
            || Rank(w.dir.records[s].state) > 0)
  }

  /** A step of the world outside: no record, row or reading changes. */
  ghost predicate Outside(w: World, x: World) {
    && x.dir.records == w.dir.records && x.dir.queue == w.dir.queue && x.dir.parkedIndex == w.dir.parkedIndex
    && x.readings == w.readings && x.registered == w.registered && x.granted == w.granted && x.started == w.started
    && forall p :: p in w.granted ==> Spares(w, x, p)
  }

  lemma {:induction false} OutsideKeeps(w: World, x: World)
    requires Inv(w) && Outside(w, x) && OwnersOk(x)
    ensures Inv(x) && AllMove(w, x.dir)
  {
    forall q | q in x.granted ensures GrantOk(x, q) {
      assert GrantOk(w, q) && Spares(w, x, q);
    }
    forall q | q in x.started ensures StartOk(x, q) {
      assert StartOk(w, q);
    }
    forall c | c in x.readings ensures ReadingOk(x, x.readings[c]) {
      assert ReadingOk(w, w.readings[c]);
    }
  }

  lemma {:induction false} BirthStep(w: World, p: Supervisor)
    requires Inv(w) && Enabled(w, Birth(p))
    ensures Inv(Next(w, Birth(p))) && AllMove(w, Next(w, Birth(p)).dir)
  {
    hide WellKept, ReadingsOk, StartsOk, AllMove;
    var x := Next(w, Birth(p));
    forall q | q in w.granted ensures Spares(w, x, q) {
      assert GrantOk(w, q);
    }
    OutsideKeeps(w, x);
  }

  lemma {:induction false} DeathStep(w: World, pid: int)
    requires Inv(w) && Enabled(w, Death(pid))
    ensures Inv(Next(w, Death(pid))) && AllMove(w, Next(w, Death(pid)).dir)
  {
    hide WellKept, ReadingsOk, StartsOk, GrantsOk, AllMove;
    OutsideKeeps(w, Next(w, Death(pid)));
  }

  lemma {:induction false} ReleaseStep(w: World, lane: string)
    requires Inv(w) && Enabled(w, Release(lane))
    ensures Inv(Next(w, Release(lane))) && AllMove(w, Next(w, Release(lane)).dir)
  {
    hide WellKept, ReadingsOk, StartsOk, AllMove;
    OutsideKeeps(w, Next(w, Release(lane)));
  }

  // ---- admission

  /** What the replacements of an admission leave: the records, and the lane's holder from the first one on. */
  ghost predicate Admitting(d: Dir, e: Dir, lane: string, h: Holder) {
    && e.records == d.records && e.parkedIndex == d.parkedIndex
    && (e.holders == d.holders || e.holders == d.holders[lane := h])
    && (e.queue == d.queue || e.queue == Others(d.queue, h.session))
  }

  lemma {:induction false} AdmittingPrefix(d: Dir, ws: seq<Write>, lane: string, h: Holder)
    requires forall w :: w in ws ==>
              w == WriteHolder(lane, h) || w == WriteQueue(Others(d.queue, h.session)) || w.WriteDebt? || w.ClearFront?
              || w.ClearYield?
    ensures Admitting(d, After(d, ws), lane, h)
    ensures WriteHolder(lane, h) in ws ==> lane in After(d, ws).holders && After(d, ws).holders[lane] == h
  {
    if ws != [] {
      assert ws[|ws| - 1] in ws;
      AdmittingPrefix(d, ws[..|ws| - 1], lane, h);
      assert WriteHolder(lane, h) in ws ==>
          WriteHolder(lane, h) in ws[..|ws| - 1] || ws[|ws| - 1] == WriteHolder(lane, h);
    }
  }

  lemma {:induction false} AdmitWrites(d: Dir, procs: Processes, s: string, lane: string, pid: int, n: nat)
    requires RowsOf(d.queue, s) != [] && n <= |AdmitPlan(d, procs, s, lane, pid).writes|
    ensures var e := After(d, AdmitPlan(d, procs, s, lane, pid).writes[..n]);
            exists h: Holder :: h.session == s && h.pid == pid && Admitting(d, e, lane, h)
                && (n > 0 ==> lane in e.holders && e.holders[lane] == h)
  {
    var ws := AdmitPlan(d, procs, s, lane, pid).writes;
    if n == 0 {
      assert ws[..0] == [];
      assert Admitting(d, d, lane, Holder(s, pid, 0, "", ""));
    } else {
      var h := ws[0].holder;
      assert ws[..n][0] == ws[0];
      AdmittingPrefix(d, ws[..n], lane, h);
    }
  }

  lemma {:induction false} FewerRowsMatch(d: Dir, e: Dir, s: string)
    requires RowsMatch(d) && e.records == d.records && (e.queue == d.queue || e.queue == Others(d.queue, s))
    ensures RowsMatch(e)
  {
    forall r | r in e.queue ensures r in d.queue {
      RowMember(d.queue, s, r);
    }
  }

  /** The lane was empty, so nobody waiting to start held it. */
  lemma {:induction false} AdmittedKeeps(w: World, e: Dir, lane: string, h: Holder)
    requires Inv(w) && Admitting(w.dir, e, lane, h) && lane !in w.dir.holders
    ensures Inv(Written(w, e))
  {
    var x := Written(w, e);
    FewerRowsMatch(w.dir, e, h.session);
    forall q | q in x.granted ensures GrantOk(x, q) {
      assert GrantOk(w, q);
    }
    forall q | q in x.started ensures StartOk(x, q) {
      assert StartOk(w, q);
    }
    forall c | c in x.readings ensures ReadingOk(x, x.readings[c]) {
      assert ReadingOk(w, w.readings[c]);
    }
  }

  lemma {:induction false} GrantAdded(x: World, p: Supervisor, s: string, lane: string)
    requires Inv(x) && p in x.registered && x.registered[p] == s && p !in x.started && Holds(x.dir, lane, p, s)
    ensures Inv(x.(granted := x.granted[p := GrantOf(x.dir, lane, s)]))
  {
    var y := x.(granted := x.granted[p := GrantOf(x.dir, lane, s)]);
    forall q | q in y.granted ensures GrantOk(y, q) {
      if q != p {
        assert GrantOk(x, q);
      }
    }
    forall q | q in y.started ensures StartOk(y, q) {
      assert StartOk(x, q);
    }
    forall c | c in y.readings ensures ReadingOk(y, y.readings[c]) {
      assert ReadingOk(x, x.readings[c]);
    }
  }

  lemma {:induction false} AdmitStep(w: World, s: string, lane: string, pid: int, n: nat)
    requires Inv(w) && Enabled(w, Admit(s, lane, pid, n))
    ensures Inv(Next(w, Admit(s, lane, pid, n)))
  {
    var e := After(w.dir, AdmitPlan(w.dir, w.procs, s, lane, pid).writes[..n]);
    AdmitWrites(w.dir, w.procs, s, lane, pid, n);
    var h: Holder :| h.session == s && h.pid == pid && Admitting(w.dir, e, lane, h)
        && (n > 0 ==> lane in e.holders && e.holders[lane] == h);
    AdmittedKeeps(w, e, lane, h);
    var p := (pid, w.procs[pid]);
    if n > 0 && Waiting(w, p, s) {
      GrantAdded(Written(w, e), p, s, lane);
    }
  }

  // ---- registration

  lemma {:induction false} ArchiveIsQuiet(d: Dir, v: Record, n: nat)
    requires n <= |ArchivePlan(d, v).writes|
    ensures SameView(After(d, ArchivePlan(d, v).writes[..n]), d)
    ensures After(d, ArchivePlan(d, v).writes[..n]).parkedIndex == d.parkedIndex
  {
    var ws := ArchivePlan(d, v).writes;
    QuietPrefix(ws, n);
    QuietKeepsView(d, ws[..n]);
    NoIndexWrite(d, ws[..n]);
  }

  lemma {:induction false} RegisterWrites(d: Dir, draft: Draft, n: nat)
    requires KeysMatch(d) && IndexCovers(d) && n <= |RegisterPlan(d, draft).writes|
    ensures var e := After(d, RegisterPlan(d, draft).writes[..n]);
            && e.queue == d.queue && e.holders == d.holders && IndexCovers(e)
            && (e.records == d.records
                || (QueuedRow(d, draft.session).Ok?
                    && e.records == d.records[draft.session := Registered(QueuedRow(d, draft.session).value, draft)]))
  {
    var row := QueuedRow(d, draft.session);
    var ws := RegisterPlan(d, draft).writes;
    if row.Err? || row.value.pid != draft.pid {
      assert ws[..n] == [];
    } else {
      var v := Registered(row.value, draft);
      var archives := draft.session in d.records && d.records[draft.session].ticket != row.value.ticket;
      var first := if archives then ArchivePlan(d, d.records[draft.session]) else Plan([], Done);
      RegisterParts(d, first, v, archives, n);
    }
  }

  lemma {:induction false} IndexDependsOnView(d: Dir, e: Dir)
    requires IndexCovers(d)
    ensures SameView(e, d) && e.parkedIndex == d.parkedIndex ==> IndexCovers(e)
  {
  }

  lemma {:induction false} RegisterParts(d: Dir, first: Plan, v: Record, archives: bool, n: nat)
    requires IndexCovers(d) && Projected(v) == v
    requires first == if archives && v.session in d.records then ArchivePlan(d, d.records[v.session])
              else Plan([], Done)
    requires n <= |Then(first, SavePlan(After(d, first.writes), v)).writes|
    ensures var e := After(d, Then(first, SavePlan(After(d, first.writes), v)).writes[..n]);
            && e.queue == d.queue && e.holders == d.holders && IndexCovers(e)
            && (e.records == d.records || e.records == d.records[v.session := v])
  {
    hide SavePlan, ArchivePlan, IndexCovers, Projected;
    var mid := After(d, first.writes);
    var k := |first.writes|;
    assert first.writes[..k] == first.writes;
    if archives && v.session in d.records {
      ArchiveIsQuiet(d, d.records[v.session], k);
      ArchiveIsQuiet(d, d.records[v.session], if n < k then n else k);
    }
    IndexDependsOnView(d, mid);
    IndexDependsOnView(d, After(d, first.writes[..if n < k then n else k]));
    if !first.outcome.Refused? {
      PrefixOfTwo(d, first.writes, SavePlan(mid, v).writes, n);
      if n > k {
        SavePartKept(mid, v.session, v, n - k);
      }
    }
  }

  /** A registration's row is its session's only row, so the rows still match. */
  lemma {:induction false} RegisterRows(d: Dir, draft: Draft)
    requires KeysMatch(d) && RowsMatch(d) && QueuedRow(d, draft.session).Ok?
    ensures RowsMatch(d.(records := d.records[draft.session := Registered(QueuedRow(d, draft.session).value, draft)]))
  {
    var rows := RowsOf(d.queue, draft.session);
    forall r | r in d.queue && r.session == draft.session ensures r == rows[0] {
      RowMember(d.queue, draft.session, r);
    }
  }

  lemma {:induction false} MoreRegistered(x: World, p: Supervisor, s: string)
    requires WellKept(x.dir) && ReadingsOk(x) && GrantsOk(x) && StartsOk(x) && p !in x.registered
    requires forall t :: t in x.dir.records ==>
               (Owner(x.dir.records[t]) == p && t == s)
               || (Owner(x.dir.records[t]) in x.registered && x.registered[Owner(x.dir.records[t])] == t)
    requires (forall q :: q in x.registered ==> q in x.born) && p in x.born
    requires forall pid :: pid in x.procs ==> (pid, x.procs[pid]) in x.born
    ensures Inv(x.(registered := x.registered[p := s]))
  {
    var y := x.(registered := x.registered[p := s]);
    forall q | q in y.granted ensures GrantOk(y, q) {
      assert GrantOk(x, q);
    }
    forall q | q in y.started ensures StartOk(y, q) {
      assert StartOk(x, q);
    }
    forall c | c in y.readings ensures ReadingOk(y, y.readings[c]) {
      assert ReadingOk(x, x.readings[c]);
    }
  }

  lemma {:induction false} RegisterStep(w: World, draft: Draft, n: nat)
    requires Inv(w) && Enabled(w, Register(draft, n))
    ensures Inv(Next(w, Register(draft, n))) && RecordStep(w, Next(w, Register(draft, n)).dir)
  {
    hide RegisterPlan, After, GrantsOk, StartsOk, ReadingsOk, QueuedRow;
    var d, p := w.dir, (draft.pid, draft.start);
    var e := After(d, RegisterPlan(d, draft).writes[..n]);
    RegisterWrites(d, draft, n);
    if e.records == d.records {
      Unmoved(w, e);
    } else {
      RegisterRows(d, draft);
      FreshRecord(w, e, draft);
    }
    RecordStepKeeps(w, e);
    MoreRegistered(Written(w, e), p, draft.session);
  }

  lemma {:induction false} FreshRecord(w: World, e: Dir, draft: Draft)
    requires Inv(w) && (draft.pid, draft.start) !in w.registered && QueuedRow(w.dir, draft.session).Ok?
    requires e.records == w.dir.records[draft.session := Registered(QueuedRow(w.dir, draft.session).value, draft)]
    requires RowsMatch(e) && IndexCovers(e) && e.holders == w.dir.holders
    ensures RecordStep(w, e)
  {
    assert Owner(e.records[draft.session]) == (draft.pid, draft.start);
  }

  // ---- start

  lemma {:induction false} MoveStep(w: World, p: Supervisor, state: Option<State>, n: nat)
    requires Inv(w) && Enabled(w, Move(p, state, n))
    ensures Inv(Next(w, Move(p, state, n))) && RecordStep(w, Next(w, Move(p, state, n)).dir)
  {
    OperationStep(w, Transition(w.registered[p], p.0, p.1, state), n);
  }

  lemma {:induction false} StartedState(d: Dir, s: string, v: Record)
    requires v.session == s && v.state == Running && SavePlan(d, v).outcome.Done?
    ensures var e := After(d, SavePlan(d, v).writes); s in e.records && e.records[s].state == Running
  {
    var ws := SavePlan(d, v).writes;
    assert ws[..|ws|] == ws;
    SavePrefix(d, v, |ws|);
  }

  lemma {:induction false} StartStep(w: World, p: Supervisor)
    requires Inv(w) && Enabled(w, Start(p))
    ensures Inv(Next(w, Start(p))) && RecordStep(w, Next(w, Start(p)).dir)
  {
    hide Inv, RecordStep, SavePlan, After, SameWork;
    var s := w.registered[p];
    KeysAreSessions(w);
    var v := w.dir.records[s].(state := Running);
    var ws := SavePlan(w.dir, v).writes;
    assert ws[..|ws|] == ws;
    StartedState(w.dir, s, v);
    OperationStep(w, Transition(s, p.0, p.1, Some(Running)), |ws|);
    GrantedWork(w, p, v);
    StartAdded(Written(w, After(w.dir, ws)), p, v);
  }

  lemma {:induction false} KeysAreSessions(w: World)
    requires Inv(w)
    ensures KeysMatch(w.dir)
  {
  }

  lemma {:induction false} GrantedWork(w: World, p: Supervisor, v: Record)
    requires Inv(w) && Alive(w, p) && p in w.granted && w.registered[p] in w.dir.records
    requires Owner(w.dir.records[w.registered[p]]) == p
    requires v == w.dir.records[w.registered[p]].(state := Running)
    ensures var g := w.granted[p];
            g.record.Some? && Owner(g.record.value) == p && Owner(v) == p
            && (Sealed(g.lane, g.record.value) ==> SameWork(v, g.record.value))
  {
    assert GrantOk(w, p);
  }

  lemma {:induction false} StartAdded(x: World, p: Supervisor, v: Record)
    requires Inv(x) && p in x.granted && x.granted[p].record.Some? && Owner(v) == p
    requires Owner(x.granted[p].record.value) == p
    requires Sealed(x.granted[p].lane, x.granted[p].record.value) ==> SameWork(v, x.granted[p].record.value)
    ensures Inv(x.(started := x.started[p := v]))
  {
    var y := x.(started := x.started[p := v]);
    forall q | q in y.started ensures StartOk(y, q) {
      if q != p {
        assert StartOk(x, q);
      }
    }
    forall q | q in y.granted ensures GrantOk(y, q) {
      assert GrantOk(x, q);
    }
    forall c | c in y.readings ensures ReadingOk(y, y.readings[c]) {
      assert ReadingOk(x, x.readings[c]);
    }
  }

  // ---- runs

  lemma {:induction false} StepKeeps(w: World, step: Step)
    requires Inv(w) && Enabled(w, step)
    ensures Inv(Next(w, step)) && AllMove(w, Next(w, step).dir)
  {
    hide Enabled, Next, Inv, RecordStep, AllMove;
    match step
    case Look(reader, s) => LookKeeps(w, reader, s);
    case Act(op, n) => ActKeeps(w, op, n);
    case Commit(reader, op, n) => CommitKeeps(w, reader, op, n);
    case Register(draft, n) =>
      RegisterStep(w, draft, n);
      RecordStepMoves(w, Next(w, step).dir);
    case Requeue(rows) => RequeueKeeps(w, rows);
    case Admit(s, lane, pid, n) => AdmitKeeps(w, s, lane, pid, n);
    case Start(p) =>
      StartStep(w, p);
      RecordStepMoves(w, Next(w, step).dir);
    case Move(p, state, n) =>
      MoveStep(w, p, state, n);
      RecordStepMoves(w, Next(w, step).dir);
    case Release(lane) => ReleaseStep(w, lane);
    case Birth(p) => BirthStep(w, p);
    case Death(pid) => DeathStep(w, pid);
  }

  lemma {:induction false} RecordStepMoves(w: World, e: Dir)
    requires RecordStep(w, e)
    ensures AllMove(w, e)
  {
  }

  lemma {:induction false} NothingMoves(w: World, e: Dir)
    requires e.records == w.dir.records
    ensures AllMove(w, e)
  {
  }

  lemma {:induction false} LookKeeps(w: World, reader: nat, s: string)
    requires Inv(w) && Enabled(w, Look(reader, s))
    ensures Inv(Next(w, Look(reader, s))) && AllMove(w, Next(w, Look(reader, s)).dir)
  {
    hide Inv, AllMove, Inspect;
    LookStep(w, reader, s);
    NothingMoves(w, w.dir);
  }

  lemma {:induction false} ActKeeps(w: World, op: Operation, n: nat)
    requires Inv(w) && Enabled(w, Act(op, n))
    ensures Inv(Next(w, Act(op, n))) && AllMove(w, Next(w, Act(op, n)).dir)
  {
    hide Inv, AllMove, RecordStep, PlanOf, After;
    OperationStep(w, op, n);
    RecordStepMoves(w, Next(w, Act(op, n)).dir);
  }

  lemma {:induction false} CommitKeeps(w: World, reader: nat, op: Operation, n: nat)
    requires Inv(w) && Enabled(w, Commit(reader, op, n))
    ensures Inv(Next(w, Commit(reader, op, n))) && AllMove(w, Next(w, Commit(reader, op, n)).dir)
  {
    hide Inv, AllMove, RecordStep, PlanOf, After, Asks;
    var left := w.(readings := w.readings - {reader});
    ReaderGone(w, reader);
    OperationStep(left, op, n);
    RecordStepMoves(left, Next(w, Commit(reader, op, n)).dir);
    SameMoves(left, w, Next(w, Commit(reader, op, n)).dir);
  }

  lemma {:induction false} SameMoves(a: World, b: World, e: Dir)
    requires a.dir == b.dir && a.registered == b.registered && AllMove(a, e)
    ensures AllMove(b, e)
  {
    forall s | s in b.dir.records || s in e.records ensures Moves(b, e, s) {
      assert Moves(a, e, s);
    }
  }

  lemma {:induction false} RequeueKeeps(w: World, rows: seq<Row>)
    requires Inv(w) && Enabled(w, Requeue(rows))
    ensures Inv(Next(w, Requeue(rows))) && AllMove(w, Next(w, Requeue(rows)).dir)
  {
    hide Inv, AllMove, RowsMatch;
    QueueStep(w, rows);
    NothingMoves(w, w.dir.(queue := rows));
  }

  lemma {:induction false} AdmitKeeps(w: World, s: string, lane: string, pid: int, n: nat)
    requires Inv(w) && Enabled(w, Admit(s, lane, pid, n))
    ensures Inv(Next(w, Admit(s, lane, pid, n))) && AllMove(w, Next(w, Admit(s, lane, pid, n)).dir)
  {
    hide Inv, AllMove, AdmitPlan, After;
    AdmitStep(w, s, lane, pid, n);
    AdmitWrites(w.dir, w.procs, s, lane, pid, n);
    NothingMoves(w, Next(w, Admit(s, lane, pid, n)).dir);
  }

  lemma {:induction false} RunsKeepInvariant(run: seq<World>, steps: seq<Step>, i: nat)
    requires IsRun(run, steps) && i < |run|
    ensures Inv(run[i])
  {
    hide Enabled, Next, AllMove;
    if i > 0 {
      RunsKeepInvariant(run, steps, i - 1);
      assert StepAt(run, steps, i - 1);
      StepKeeps(run[i - 1], steps[i - 1]);
    }
  }

  /**
   Every supervisor executes its own record, and it was the owner at GO. What it executes is what its record said
   when the lane's holder was written: always in the fleet's lane, and elsewhere if the record was not paused and
   never parked.
   */
  lemma {:induction false} ExecutedIsGranted(run: seq<World>, steps: seq<Step>, i: nat, p: Supervisor)
    requires IsRun(run, steps) && i < |run| && p in run[i].started
    ensures p in run[i].granted && run[i].granted[p].record.Some?
    ensures Owner(run[i].started[p]) == p && Owner(run[i].granted[p].record.value) == p
    ensures var g := run[i].granted[p]; Sealed(g.lane, g.record.value) ==> SameWork(run[i].started[p], g.record.value)
  {
    RunsKeepInvariant(run, steps, i);
    assert StartOk(run[i], p);
  }
}
