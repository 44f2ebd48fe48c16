/** Pauses that rest on an earlier reading: after a failed check, and with an expected revision. */
module CheckedPauses {
  import opened Wrappers
  import opened Reservation
  import opened Recovery
  import opened Operations
  import opened Admission
  import opened AdmissionSafety
  import opened Linearizability

  /** What one step makes of a session's record. */
  lemma {:induction false} StepMovesRecord(run: seq<World>, steps: seq<Step>, k: nat, s: string)
    requires IsRun(run, steps) && k < |steps| && s in run[k].dir.records
    ensures s in run[k + 1].dir.records && Moves(run[k], run[k + 1].dir, s)
    ensures Owner(run[k].dir.records[s]) in run[k].registered
    ensures forall p :: p in run[k].registered ==> p in run[k + 1].registered
  {
    hide Enabled, Next, SameIdentity, Later, SameRecord;
    RunStep(run, steps, k, 0);
    OwnersAreRegistered(run[k], s);
  }

  lemma {:induction false} OwnersAreRegistered(w: World, s: string)
    requires Inv(w) && s in w.dir.records
    ensures Owner(w.dir.records[s]) in w.registered
  {
  }

  /** Once superseded, a record stays so. */
  lemma {:induction false} StaysSuperseded(run: seq<World>, steps: seq<Step>, k: nat, j: nat, s: string, v: Record)
    requires IsRun(run, steps) && k <= j < |run| && s in run[k].dir.records
    requires Owner(v) in run[k].registered && Superseded(run[k].dir.records[s], v)
    ensures s in run[j].dir.records && Owner(v) in run[j].registered && Superseded(run[j].dir.records[s], v)
    decreases j
  {
    hide Enabled, Next, Later;
    if k < j {
      StaysSuperseded(run, steps, k, j - 1, s, v);
      StepMovesRecord(run, steps, j - 1, s);
      var a, b := run[j].dir.records[s], run[j - 1].dir.records[s];
      if a != b && Owner(a) in run[j - 1].registered {
        SupersededStays(a, b, v);
      }
    }
  }

  /** A record is kept or superseded. */
  lemma {:induction false} KeptOrSuperseded(run: seq<World>, steps: seq<Step>, i: nat, k: nat, s: string)
    requires IsRun(run, steps) && i <= k < |run| && s in run[i].dir.records
    ensures s in run[k].dir.records && Owner(run[i].dir.records[s]) in run[k].registered
    ensures run[k].dir.records[s] == run[i].dir.records[s] || Superseded(run[k].dir.records[s], run[i].dir.records[s])
    decreases k
  {
    hide Enabled, Next, Later, Inv;
    RunsKeepInvariant(run, steps, i);
    OwnersAreRegistered(run[i], s);
    if i < k {
      KeptOrSuperseded(run, steps, i, k - 1, s);
      StepMovesRecord(run, steps, k - 1, s);
      var v, a, b := run[i].dir.records[s], run[k].dir.records[s], run[k - 1].dir.records[s];
      if a != b && b != v && Owner(a) in run[k - 1].registered {
        SupersededStays(a, b, v);
      }
    }
  }

  /** A record that is not superseded at the end was the same all the time. */
  lemma {:induction false} UnsupersededIsUnchanged(run: seq<World>, steps: seq<Step>, i: nat, k: nat, j: nat, s: string)
    requires IsRun(run, steps) && i <= k <= j < |run| && s in run[i].dir.records && s in run[j].dir.records
    requires !Superseded(run[j].dir.records[s], run[i].dir.records[s])
    ensures s in run[k].dir.records && run[k].dir.records[s] == run[i].dir.records[s]
  {
    hide Enabled, Next, Superseded;
    KeptOrSuperseded(run, steps, i, k, s);
    if run[k].dir.records[s] != run[i].dir.records[s] {
      StaysSuperseded(run, steps, k, j, s, run[i].dir.records[s]);
    }
  }

  // ---- a failed check

  /** The guard of `pause_failed`, and what it needs to save. */
  lemma {:induction false} FailedCheckGuard(d: Dir, procs: Processes, s: string, checked: Record, reason: string)
    requires KeysMatch(d)
    ensures SavedBy(d, procs, PauseFailed(s, checked, reason)).Some? ==>
              && Owned(d, procs, s).Ok? && QueuedRow(d, s).Ok? && s in d.records
              && Owned(d, procs, s).value == d.records[s]
              && d.records[s].state == Queued && Owner(d.records[s]) == Owner(checked)
              && d.records[s].revision == checked.revision
  {
    hide Inspect, SaveAndReconcile, QueuedRow;
    if Owned(d, procs, s).Ok? {
      InspectedIsCurrent(d, procs, s);
    }
  }

  lemma {:induction false} FailedCheckActs(d: Dir, procs: Processes, s: string, reason: string)
    requires KeysMatch(d) && RowsMatch(d) && Owned(d, procs, s).Ok? && QueuedRow(d, s).Ok?
    requires s in d.records && d.records[s].state == Queued
    ensures SavedBy(d, procs, PauseFailed(s, d.records[s], reason)).Some?
  {
    hide Inspect, QueuedRow, SaveAndReconcile;
    InspectedIsCurrent(d, procs, s);
    var v := d.records[s];
    PausedIsOncePaused(d, procs, s, reason);
    NeverOrdinary(d, procs, PausedRecord(v, QueuedRow(d, s).value, reason));
  }

  lemma {:induction false} NeverOrdinary(d: Dir, procs: Processes, v: Record)
    requires OncePaused(procs, v)
    ensures SaveAndReconcile(d, procs, v).outcome != Ordinary
  {
    hide SavePlan, ReconcilePlan, OncePaused;
    SaveEnds(d, v);
    if !SaveAndReconcile(d, procs, v).outcome.Refused? {
      SavedThenReconciled(d, procs, v, None);
    }
  }

  /**
   A failed check pauses a reservation if and only if its record is the one that was checked, still owned by a live
   supervisor and queued in its own single row. Then the record was that one in every state since the check read it:
   an older check never pauses a newly edited reservation, although only five fields are compared.
   */
  lemma {:induction false} FailedCheckIsAtomic(run: seq<World>, steps: seq<Step>, i: nat, j: nat, s: string,
                                               reason: string)
    requires IsRun(run, steps) && i <= j < |run| && s in run[i].dir.records && run[i].dir.records[s].state == Queued
    ensures var checked, w := run[i].dir.records[s], run[j];
            SavedBy(w.dir, w.procs, PauseFailed(s, checked, reason)).Some? <==>
            && s in w.dir.records && w.dir.records[s] == checked
            && Owned(w.dir, w.procs, s).Ok? && QueuedRow(w.dir, s).Ok?
    ensures SavedBy(run[j].dir, run[j].procs, PauseFailed(s, run[i].dir.records[s], reason)).Some? ==>
              forall k :: i <= k <= j ==> s in run[k].dir.records && run[k].dir.records[s] == run[i].dir.records[s]
  {
    hide Enabled, Next, Inv, SavedBy, Owned, QueuedRow, Superseded;
    var checked, d, procs := run[i].dir.records[s], run[j].dir, run[j].procs;
    RunsKeepInvariant(run, steps, j);
    WellKeptInRuns(run[j]);
    if SavedBy(d, procs, PauseFailed(s, checked, reason)).Some? {
      FailedCheckGuard(d, procs, s, checked, reason);
      NotSuperseded(d.records[s], checked);
      forall k | i <= k <= j ensures s in run[k].dir.records && run[k].dir.records[s] == checked {
        UnsupersededIsUnchanged(run, steps, i, k, j, s);
      }
      assert d.records[s] == checked;
    }
    if s in d.records && d.records[s] == checked && Owned(d, procs, s).Ok? && QueuedRow(d, s).Ok? {
      FailedCheckActs(d, procs, s, reason);
    }
  }

  lemma {:induction false} NotSuperseded(a: Record, b: Record)
    requires a.state == Queued && b.state == Queued && Owner(a) == Owner(b) && a.revision == b.revision
    ensures !Superseded(a, b)
  {
  }

  // ---- an expected revision

  /** No other supervisor has registered for the session in between. */
  ghost predicate SameOwnerThroughout(run: seq<World>, i: nat, j: nat, s: string)
    requires i <= j < |run| && s in run[i].dir.records
  {
    forall k :: i <= k <= j ==> s in run[k].dir.records && Owner(run[k].dir.records[s]) == Owner(run[i].dir.records[s])
  }

  lemma {:induction false} OwnerNeverReturns(run: seq<World>, steps: seq<Step>, k: nat, j: nat, s: string,
                                             p: Supervisor)
    requires IsRun(run, steps) && k <= j < |run| && s in run[k].dir.records
    requires p in run[k].registered && Owner(run[k].dir.records[s]) != p
    ensures s in run[j].dir.records && p in run[j].registered && Owner(run[j].dir.records[s]) != p
    decreases j
  {
    hide Enabled, Next, Later;
    if k < j {
      OwnerNeverReturns(run, steps, k, j - 1, s, p);
      StepMovesRecord(run, steps, j - 1, s);
    }
  }

  lemma {:induction false} IdentityKept(run: seq<World>, steps: seq<Step>, i: nat, j: nat, s: string)
    requires IsRun(run, steps) && i <= j < |run| && s in run[i].dir.records
    ensures s in run[j].dir.records
    ensures SameIdentity(run[j].dir.records[s], run[i].dir.records[s]) <==> SameOwnerThroughout(run, i, j, s)
  {
    hide Enabled, Next, Later, Inv;
    var v := run[i].dir.records[s];
    VersionsOnlyGrow(run, steps, i, j, s);
    if SameIdentity(run[j].dir.records[s], v) {
      forall k | i <= k <= j ensures s in run[k].dir.records && Owner(run[k].dir.records[s]) == Owner(v) {
        VersionsOnlyGrow(run, steps, i, k, s);
        if Owner(run[k].dir.records[s]) != Owner(v) {
          OwnerNeverReturns(run, steps, k, j, s, Owner(v));
        }
      }
    }
  }

  /**
   A pause that expects the revision read earlier and is accepted acts on the reservation that was read if and only
   if no other supervisor has registered since; and then on the very record, unless that was paused already.
   */
  lemma {:induction false} PauseExpects(run: seq<World>, steps: seq<Step>, i: nat, j: nat, s: string)
    requires IsRun(run, steps) && i <= j < |run| && s in run[i].dir.records
    requires Owned(run[j].dir, run[j].procs, s).Ok?
    requires Owned(run[j].dir, run[j].procs, s).value.revision == run[i].dir.records[s].revision
    ensures var v, u := run[i].dir.records[s], Owned(run[j].dir, run[j].procs, s).value;
            && s in run[j].dir.records && u == run[j].dir.records[s]
            && (SameIdentity(u, v) <==> SameOwnerThroughout(run, i, j, s))
            && (SameIdentity(u, v) && v.state != Paused ==> u == v)
  {
    hide Enabled, Next, Inv, Inspect, SameIdentity;
    InspectedIsCurrent(run[j].dir, run[j].procs, s);
    IdentityKept(run, steps, i, j, s);
    VersionsOnlyGrow(run, steps, i, j, s);
    SameRevision(run[j].dir.records[s], run[i].dir.records[s]);
  }

  lemma {:induction false} SameRevision(u: Record, v: Record)
    requires Version(u, v) && u.revision == v.revision && Rank(u.state) == 0
    ensures SameIdentity(u, v) && v.state != Paused ==> u == v
  {
  }

  // ---- a pause that reaches another reservation

  /** What a registration that nothing refuses leaves. */
  ghost predicate RegisteredIn(d: Dir, e: Dir, v: Record) {
    && e.records == d.records[v.session := v] && e.queue == d.queue && e.holders == d.holders
    && (v.session, v.ticket) in e.archive && e.archive[(v.session, v.ticket)] == v
    && forall key :: key in e.archive ==>
         key in d.archive || key == (v.session, v.ticket)
         || (v.session in d.records && key == (v.session, d.records[v.session].ticket))
  }

  lemma {:induction false} FreshSave(d: Dir, v: Record)
    requires (v.session, v.ticket) !in d.archive && Projected(v) == v && v.state == Queued
    ensures SavePlan(d, v).outcome.Done?
    ensures var e := After(d, SavePlan(d, v).writes);
            && e.records == d.records[v.session := v] && e.queue == d.queue && e.holders == d.holders
            && e.archive == d.archive[(v.session, v.ticket) := v]
  {
    hide After, SavePlan;
    SaveHistory(d, v);
    var ws := SavePlan(d, v).writes;
    assert ws[..|ws|] == ws;
    SavePrefix(d, v, |ws|);
  }

  lemma {:induction false} ArchiveSucceeds(d: Dir, v: Record)
    requires OwnHistory(d, v)
    ensures ArchivePlan(d, v).outcome.Done?
    ensures var e := After(d, ArchivePlan(d, v).writes);
            SameView(e, d) && e.archive == d.archive[(v.session, v.ticket) := v]
  {
    hide After;
    var ws := ArchivePlan(d, v).writes;
    assert WriteArchive((v.session, v.ticket), v) in ws;
    assert ws[..|ws|] == ws;
    ArchiveIsQuiet(d, v, |ws|);
    OneArchive(d, ws, (v.session, v.ticket), v);
  }

  lemma {:induction false} RegisterSucceeds(d: Dir, draft: Draft)
    requires KeysMatch(d) && QueuedRow(d, draft.session).Ok? && QueuedRow(d, draft.session).value.pid == draft.pid
    requires (draft.session, QueuedRow(d, draft.session).value.ticket) !in d.archive
    requires draft.session in d.records ==>
               && OwnHistory(d, d.records[draft.session])
               && d.records[draft.session].ticket != QueuedRow(d, draft.session).value.ticket
    ensures RegisteredIn(d, After(d, RegisterPlan(d, draft).writes),
                         Registered(QueuedRow(d, draft.session).value, draft))
  {
    hide After, SavePlan, ArchivePlan, QueuedRow;
    var v := Registered(QueuedRow(d, draft.session).value, draft);
    assert Projected(v) == v;
    if draft.session in d.records {
      var u := d.records[draft.session];
      ArchiveSucceeds(d, u);
      var mid := After(d, ArchivePlan(d, u).writes);
      FreshSave(mid, v);
      AfterConcat(d, ArchivePlan(d, u).writes, SavePlan(mid, v).writes);
    } else {
      FreshSave(d, v);
      NothingAfter(d);
      assert [] + SavePlan(d, v).writes == SavePlan(d, v).writes;
    }
  }

  const FIRST := Row("1", "s", "0", 30, "", "boot", 1)
  const SECOND := Row("2", "s", "5", 30, "", "boot", 2)
  const ONE := Draft("s", 1, "a", ["run"], "/", "boot", None, false)
  const TWO := Draft("s", 2, "b", ["other"], "/", "boot", None, false)

  function Beginning(): World {
    World(Dir(map[], map[], map[], [], [FIRST], map[], None, "", ""), map[1 := "a", 2 := "b"], {(1, "a"), (2, "b")},
          map[],
          map[], map[], map[])
  }

  lemma {:induction false} OnlyRow(d: Dir, r: Row)
    requires d.queue == [r] && d.holders == map[]
    ensures QueuedRow(d, r.session) == Ok(r) && RowsOf(d.queue, r.session) == [r]
  {
    OneRow(r, r.session);
  }

  /** A whole registration, as a step of a run. */
  lemma {:induction false} RegisterNext(w: World, draft: Draft, r: Row) returns (step: Step)
    requires KeysMatch(w.dir) && w.dir.queue == [r] && w.dir.holders == map[] && r.session == draft.session
    requires r.pid == draft.pid && (r.session, r.ticket) !in w.dir.archive
    requires Alive(w, (draft.pid, draft.start)) && (draft.pid, draft.start) !in w.registered
    requires r.session in w.dir.records ==>
               OwnHistory(w.dir, w.dir.records[r.session]) && w.dir.records[r.session].ticket != r.ticket
    ensures Enabled(w, step)
    ensures var x := Next(w, step);
            && RegisteredIn(w.dir, x.dir, Registered(r, draft)) && x.procs == w.procs
            && x.registered == w.registered[(draft.pid, draft.start) := draft.session]
  {
    hide RegisterPlan, After, QueuedRow, RowsOf, RegisteredIn;
    OnlyRow(w.dir, r);
    RegisterSucceeds(w.dir, draft);
    var ws := RegisterPlan(w.dir, draft).writes;
    assert ws[..|ws|] == ws;
    step := Register(draft, |ws|);
  }

  /** The first registration, the next ticket's row in its place, and the second registration. */
  lemma {:induction false} TwoRegistrations() returns (run: seq<World>, steps: seq<Step>)
    ensures IsRun(run, steps) && |run| == 4
    ensures "s" in run[1].dir.records && run[1].dir.records["s"] == Registered(FIRST, ONE)
    ensures run[3].dir.records == map["s" := Registered(SECOND, TWO)] && run[3].procs == Beginning().procs
    ensures run[3].dir.queue == [SECOND] && run[3].dir.holders == map[]
  {
    hide Enabled, Next, IsRun, Initial;
    var w, g := Beginning(), Requeue([SECOND]);
    BeginningIsInitial();
    var f := RegisterNext(w, ONE, FIRST);
    var a := Next(w, f);
    var b := RowsReplaced(a, SECOND);
    var h := RegisterNext(b, TWO, SECOND);
    var c := Next(b, h);
    assert c.dir.records == map["s" := Registered(SECOND, TWO)];
    run, steps := [w, a, b, c], [f, g, h];
    ThreeSteps(w, a, b, c, f, g, h);
  }

  lemma {:induction false} BeginningIsInitial()
    ensures Initial(Beginning())
  {
  }

  lemma {:induction false} RowsReplaced(a: World, r: Row) returns (b: World)
    requires r.session in a.dir.records ==> a.dir.records[r.session].ticket != r.ticket
    ensures Enabled(a, Requeue([r])) && b == Next(a, Requeue([r])) && b == a.(dir := a.dir.(queue := [r]))
  {
    RowsFit(a.dir, r);
    b := Next(a, Requeue([r]));
  }

  lemma {:induction false} ThreeSteps(w: World, a: World, b: World, c: World, f: Step, g: Step, h: Step)
    requires Initial(w) && Enabled(w, f) && a == Next(w, f) && Enabled(a, g) && b == Next(a, g)
    requires Enabled(b, h) && c == Next(b, h)
    ensures IsRun([w, a, b, c], [f, g, h])
  {
    hide Enabled, Next, Initial;
    var run, steps := [w, a, b, c], [f, g, h];
    assert StepAt(run, steps, 0) && StepAt(run, steps, 1) && StepAt(run, steps, 2);
  }

  lemma {:induction false} RowsFit(d: Dir, r: Row)
    requires r.session in d.records ==> d.records[r.session].ticket != r.ticket
    ensures RowsMatch(d.(queue := [r]))
  {
  }

  /** A session registered twice: a pause that expects the revision of the first pauses the second. */
  lemma {:induction false} PauseHitsSuccessor(reason: string) returns (run: seq<World>, steps: seq<Step>)
    ensures IsRun(run, steps) && |run| == 4 && "s" in run[1].dir.records
    ensures var v, w := run[1].dir.records["s"], run[3];
            && Owned(w.dir, w.procs, "s").Ok? && Owned(w.dir, w.procs, "s").value.revision == v.revision
            && SavedBy(w.dir, w.procs, Pause("s", reason, Some(v.revision))).Some?
            && !SameIdentity(Owned(w.dir, w.procs, "s").value, v)
  {
    hide Inspect, IsRun, SavedBy;
    run, steps := TwoRegistrations();
    SuccessorIsPaused(run[3].dir, run[3].procs, reason);
  }

  lemma {:induction false} SuccessorIsPaused(d: Dir, procs: Processes, reason: string)
    requires d.records == map["s" := Registered(SECOND, TWO)] && d.queue == [SECOND] && d.holders == map[]
    requires procs == map[1 := "a", 2 := "b"]
    ensures Inspect(d, procs, "s") == Ok(Inspected(Registered(SECOND, TWO), true))
    ensures SavedBy(d, procs, Pause("s", reason, Some(1))).Some?
  {
    hide QueuedRow, RowsOf, SavePlan, ReconcilePlan, SaveAndReconcile;
    OnlyRow(d, SECOND);
  }
}
