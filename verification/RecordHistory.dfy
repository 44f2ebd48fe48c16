/** Every record of a run was made by the current controller, and its ticket's history is its own supervisor's. */
module RecordHistory {
  import opened Wrappers
  import opened Reservation
  import opened Recovery
  import opened Operations
  import opened Admission
  import opened AdmissionSafety
  import opened Linearizability

  /** Made by the current controller: it can be paused, and a pause has its row. */
  predicate IsModern(v: Record) {
    v.supported && (v.state == Paused ==> ParkedRow(v).Some?)
  }

  predicate Archived(d: Dir, v: Record) {
    (v.session, v.ticket) in d.archive && SameSupervisor(d.archive[(v.session, v.ticket)], v)
  }

  ghost predicate Modern(d: Dir) {
    forall s :: s in d.records ==> d.records[s].session == s && IsModern(d.records[s]) && Archived(d, d.records[s])
  }

  // ---- a save

  /** The archive first, then the record. */
  ghost predicate SavedInOrder(d: Dir, e: Dir, v: Record) {
    && (e.archive == d.archive || e.archive == d.archive[(v.session, v.ticket) := v])
    && (e.records == d.records
        || (e.records == d.records[v.session := v] && e.archive == d.archive[(v.session, v.ticket) := v]))
  }

  lemma {:induction false} InOrderIsModern(d: Dir, e: Dir, v: Record)
    requires Modern(d) && SavedInOrder(d, e, v) && IsModern(v)
    requires (v.session, v.ticket) in d.archive ==> SameSupervisor(d.archive[(v.session, v.ticket)], v)
    ensures Modern(e)
  {
  }

  lemma {:induction false} SavedPart(d: Dir, v: Record, n: nat)
    requires SavePlan(d, v).outcome.Done? && n <= |SavePlan(d, v).writes|
    ensures SavedInOrder(d, After(d, SavePlan(d, v).writes[..n]), Projected(v))
  {
    hide Before, Behind, SavePlan, AllQuiet, After, Projected;
    SaveParts(d, v);
    var a, r, b := Before(d, v), WriteRecord(Projected(v)), Behind(d, v);
    var ws, u := SavePlan(d, v).writes, Projected(v);
    var key := (u.session, u.ticket);
    SavePrefix(d, v, n);
    ProjectedKey(v);
    BeforeArchives(d, v);
    assert forall w :: w in ws[..n] ==> w in ws;
    assert forall w :: w in ws ==> w in a || w == r || w in b;
    OneArchive(d, ws[..n], key, u);
    if n <= |a| {
      assert ws[..n] == a[..n];
      QuietPrefix(a, n);
      QuietKeepsView(d, a[..n]);
    } else {
      assert ws[..n][..|a|] == a;
      assert WriteArchive(key, u) in ws[..n];
    }
  }

  lemma {:induction false} ProjectedKey(v: Record)
    ensures Projected(v).session == v.session && Projected(v).ticket == v.ticket
  {
  }

  lemma {:induction false} BeforeArchives(d: Dir, v: Record)
    ensures var u := Projected(v);
            && WriteArchive((u.session, u.ticket), u) in Before(d, v)
            && (forall w :: w in Before(d, v) && w.WriteArchive? ==> w == WriteArchive((u.session, u.ticket), u))
            && (forall w :: w in Behind(d, v) ==> !w.WriteArchive?)
  {
    var b := Before(d, v);
    assert b[|b| - 2] == WriteArchive((Projected(v).session, Projected(v).ticket), Projected(v));
  }

  lemma {:induction false} SavePartModern(d: Dir, v: Record, n: nat)
    requires Modern(d) && IsModern(Projected(v)) && n <= |SavePlan(d, v).writes|
    ensures Modern(After(d, SavePlan(d, v).writes[..n]))
  {
    hide After, IsModern, Projected;
    var ws := SavePlan(d, v).writes;
    if SavePlan(d, v).outcome.Done? {
      hide SavedInOrder;
      SavedPart(d, v, n);
      InOrderIsModern(d, After(d, ws[..n]), Projected(v));
    } else {
      RefusedSave(d, v, n);
      NoArchiveWrite(d, ws[..n]);
      SameHistory(d, After(d, ws[..n]));
    }
  }

  lemma {:induction false} SameHistory(d: Dir, e: Dir)
    requires Modern(d) && e.records == d.records && e.archive == d.archive
    ensures Modern(e)
  {
  }

  // ---- operations

  lemma {:induction false} GentleModern(e: Dir, d: Dir, s: string, ws: seq<Write>)
    requires AllGentle(d, s, ws) && e.queue == d.queue && Modern(e)
    ensures Modern(After(e, ws))
  {
    hide Modern;
    GentlePrefix(e, d, s, ws);
    NoArchiveWrite(e, ws);
    SameHistory(e, After(e, ws));
  }

  lemma {:induction false} ShapedModern(d: Dir, s: string, saved: Option<Record>, plan: Plan, n: nat)
    requires Modern(d) && Shaped(d, s, saved, plan) && n <= |plan.writes|
    requires saved.Some? ==> IsModern(Projected(saved.value))
    ensures Modern(After(d, plan.writes[..n]))
  {
    hide Modern, After, SavePlan, Gentle;
    if saved.None? {
      GentleModern(d, d, s, plan.writes[..n]);
    } else {
      var a := SavePlan(d, saved.value).writes;
      var b := plan.writes[|a|..];
      assert plan.writes == a + b;
      PrefixOfTwo(d, a, b, n);
      if n <= |a| {
        SavePartModern(d, saved.value, n);
      } else {
        assert a[..|a|] == a;
        SavePartModern(d, saved.value, |a|);
        SavePartKept(d, s, saved.value, |a|);
        GentleModern(After(d, a), d, s, b[..n - |a|]);
      }
    }
  }

  /** The saved record of an operation that the protocol takes. */
  lemma {:induction false} SavedIsModern(d: Dir, procs: Processes, op: Operation)
    requires KeysMatch(d) && RowsMatch(d) && Modern(d) && SavedBy(d, procs, op).Some?
    requires op.Transition? && op.state.Some? ==> op.state.value != Paused
    ensures IsModern(Projected(SavedBy(d, procs, op).value))
  {
    hide Inspect, SaveAndReconcile, QueuedRow, Upgraded, Upgradable;
    var s := op.session;
    SavedIsLater(d, procs, op);
    var v := SavedBy(d, procs, op).value;
    if v.state == Paused {
      if op.Pause? {
        PausedHasRow(d, procs, s, op.reason);
      } else if op.PauseFailed? {
        PausedHasRow(d, procs, s, op.reason);
      } else if op.Edit? {
        EditHasRow(d, procs, op);
      }
    }
  }

  lemma {:induction false} PausedHasRow(d: Dir, procs: Processes, s: string, reason: string)
    requires KeysMatch(d) && RowsMatch(d) && Modern(d) && Owned(d, procs, s).Ok?
    ensures var saved := SavedByPause(d, procs, Owned(d, procs, s).value, reason);
            saved.Some? ==> ParkedRow(Projected(saved.value)).Some?
  {
    hide Inspect, QueuedRow;
    InspectedIsCurrent(d, procs, s);
    var v := Owned(d, procs, s).value;
    if v.state == Queued && QueuedRow(d, s).Ok? {
      PausedIsOncePaused(d, procs, s, reason);
    }
  }

  lemma {:induction false} EditHasRow(d: Dir, procs: Processes, op: Operation)
    requires KeysMatch(d) && Modern(d) && op.Edit? && SavedBy(d, procs, op).Some?
    ensures var v := Projected(SavedBy(d, procs, op).value); v.state == Paused ==> ParkedRow(v).Some?
  {
    hide Inspect;
    InspectedIsCurrent(d, procs, op.session);
  }

  lemma {:induction false} OperationModern(w: World, op: Operation, n: nat)
    requires Inv(w) && Modern(w.dir) && n <= |PlanOf(w.dir, w.procs, op).writes|
    requires op.Transition? && op.state.Some? ==> op.state.value != Paused
    ensures Modern(After(w.dir, PlanOf(w.dir, w.procs, op).writes[..n]))
  {
    hide Modern, Inv, PlanOf, SavedBy, Shaped, After, IsModern;
    WellKeptInRuns(w);
    OperationShape(w.dir, w.procs, op);
    if SavedBy(w.dir, w.procs, op).Some? {
      SavedIsModern(w.dir, w.procs, op);
    }
    ShapedModern(w.dir, op.session, SavedBy(w.dir, w.procs, op), PlanOf(w.dir, w.procs, op), n);
  }

  // ---- registration

  lemma {:induction false} ArchiveModern(d: Dir, u: Record, n: nat)
    requires Modern(d) && u.session in d.records && u == d.records[u.session] && n <= |ArchivePlan(d, u).writes|
    ensures Modern(After(d, ArchivePlan(d, u).writes[..n]))
  {
    hide After;
    var ws := ArchivePlan(d, u).writes;
    ArchiveIsQuiet(d, u, n);
    assert forall w :: w in ws[..n] ==> w in ws;
    OneArchive(d, ws[..n], (u.session, u.ticket), u);
    assert SavedInOrder(d, After(d, ws[..n]), u);
    InOrderIsModern(d, After(d, ws[..n]), u);
  }

  lemma {:induction false} RegisterModern(d: Dir, draft: Draft, n: nat)
    requires KeysMatch(d) && Modern(d) && n <= |RegisterPlan(d, draft).writes|
    ensures Modern(After(d, RegisterPlan(d, draft).writes[..n]))
  {
    hide Modern, After, SavePlan, ArchivePlan, QueuedRow, IsModern;
    var row := QueuedRow(d, draft.session);
    var ws := RegisterPlan(d, draft).writes;
    if row.Err? || row.value.pid != draft.pid {
      assert ws[..n] == [];
      NothingAfter(d);
    } else {
      var v := Registered(row.value, draft);
      NewIsModern(row.value, draft);
      if draft.session in d.records && d.records[draft.session].ticket != row.value.ticket {
        ThenModern(d, d.records[draft.session], v, n);
      } else {
        NothingAfter(d);
        assert ws == [] + SavePlan(d, v).writes == SavePlan(d, v).writes;
        SavePartModern(d, v, n);
      }
    }
  }

  lemma {:induction false} NewIsModern(row: Row, draft: Draft)
    ensures IsModern(Projected(Registered(row, draft)))
  {
  }

  lemma {:induction false} ThenModern(d: Dir, u: Record, v: Record, n: nat)
    requires Modern(d) && u.session in d.records && u == d.records[u.session] && IsModern(Projected(v))
    requires var first := ArchivePlan(d, u); n <= |Then(first, SavePlan(After(d, first.writes), v)).writes|
    ensures var first := ArchivePlan(d, u);
            Modern(After(d, Then(first, SavePlan(After(d, first.writes), v)).writes[..n]))
  {
    hide Modern, After, SavePlan, ArchivePlan, IsModern;
    var first := ArchivePlan(d, u);
    var a, k := first.writes, |first.writes|;
    var mid := After(d, a);
    assert a[..k] == a;
    ArchiveModern(d, u, k);
    if first.outcome.Refused? {
      ArchiveModern(d, u, n);
    } else {
      var b := SavePlan(mid, v).writes;
      PrefixOfTwo(d, a, b, n);
      if n <= k {
        ArchiveModern(d, u, n);
      } else {
        SavePartModern(mid, v, n - k);
      }
    }
  }

  // ---- runs

  lemma {:induction false} AdmitModern(w: World, s: string, lane: string, pid: int, n: nat)
    requires Modern(w.dir) && RowsOf(w.dir.queue, s) != [] && n <= |AdmitPlan(w.dir, w.procs, s, lane, pid).writes|
    ensures Modern(After(w.dir, AdmitPlan(w.dir, w.procs, s, lane, pid).writes[..n]))
  {
    hide Modern, After, IsPaused, Speaks;
    var ws := AdmitPlan(w.dir, w.procs, s, lane, pid).writes;
    AdmitWrites(w.dir, w.procs, s, lane, pid, n);
    assert forall x :: x in ws[..n] ==> x in ws;
    NoArchiveWrite(w.dir, ws[..n]);
    SameHistory(w.dir, After(w.dir, ws[..n]));
  }

  lemma {:induction false} StepModern(w: World, step: Step)
    requires Inv(w) && Modern(w.dir) && Enabled(w, step)
    ensures Modern(Next(w, step).dir)
  {
    hide Inv, Modern, After, PlanOf, RegisterPlan, AdmitPlan, TransitionPlan, Inspect;
    match step
    case Act(op, n) => OperationModern(w, op, n);
    case Commit(reader, op, n) => OperationModern(w, op, n);
    case Register(draft, n) =>
      WellKeptInRuns(w);
      RegisterModern(w.dir, draft, n);
    case Admit(s, lane, pid, n) => AdmitModern(w, s, lane, pid, n);
    case Start(p) => MoveModern(w, p, Some(Running),
                                |TransitionPlan(w.dir, w.registered[p], p.0, p.1, Some(Running)).writes|);
    case Move(p, state, n) => MoveModern(w, p, state, n);
    case _ => SameHistory(w.dir, Next(w, step).dir);
  }

  lemma {:induction false} MoveModern(w: World, p: Supervisor, state: Option<State>, n: nat)
    requires Inv(w) && Modern(w.dir) && p in w.registered && (state.Some? ==> state.value != Paused)
    requires n <= |TransitionPlan(w.dir, w.registered[p], p.0, p.1, state).writes|
    ensures Modern(After(w.dir, TransitionPlan(w.dir, w.registered[p], p.0, p.1, state).writes[..n]))
    ensures var ws := TransitionPlan(w.dir, w.registered[p], p.0, p.1, state).writes; ws[..|ws|] == ws
  {
    hide Modern, Inv, After;
    OperationModern(w, Transition(w.registered[p], p.0, p.1, state), n);
  }

  /**
   In every reachable state each record was made by the current controller and archived first under its
   supervisor.
   */
  lemma {:induction false} RunsAreModern(run: seq<World>, steps: seq<Step>, i: nat)
    requires IsRun(run, steps) && i < |run|
    ensures Modern(run[i].dir)
    decreases i
  {
    hide Enabled, Next, Inv, IsModern, Archived;
    if i > 0 {
      RunsAreModern(run, steps, i - 1);
      RunsKeepInvariant(run, steps, i - 1);
      assert StepAt(run, steps, i - 1);
      StepModern(run[i - 1], steps[i - 1]);
    }
  }
}
