/** What the protocol's invariant gives whole runs: atomic commits, growing versions, and where edits stay open. */
module Linearizability {
  import opened Wrappers
  import opened Reservation
  import opened Recovery
  import opened Operations
  import opened Admission
  import opened AdmissionSafety

  predicate Uses(step: Step, reader: nat) {
    (step.Look? || step.Commit?) && step.reader == reader
  }

  lemma {:induction false} ReadingStays(w: World, step: Step, reader: nat)
    requires Enabled(w, step) && reader in w.readings && !Uses(step, reader)
    ensures reader in Next(w, step).readings && Next(w, step).readings[reader].value == w.readings[reader].value
    ensures w.readings[reader].disturbed ==> Next(w, step).readings[reader].disturbed
  {
    hide PlanOf, AdmitPlan, RegisterPlan, TransitionPlan, After, SameRecord, Inspect;
  }

  /** A run in which a reader looks at step i and next acts at step j. */
  ghost predicate Span(run: seq<World>, steps: seq<Step>, i: nat, j: nat, reader: nat) {
    && IsRun(run, steps) && i < j < |steps| && steps[i].Look? && steps[i].reader == reader
    && forall k :: i < k < j ==> !Uses(steps[k], reader)
  }

  /** One step of a run: both states are safe, and a reader that the step does not use keeps its reading. */
  lemma {:induction false} RunStep(run: seq<World>, steps: seq<Step>, k: nat, reader: nat)
    requires IsRun(run, steps) && k < |steps|
    ensures Inv(run[k]) && Inv(run[k + 1]) && AllMove(run[k], run[k + 1].dir)
    ensures forall p :: p in run[k].registered ==> p in run[k + 1].registered
    ensures reader in run[k].readings && !Uses(steps[k], reader) ==>
              && reader in run[k + 1].readings && run[k + 1].readings[reader].value == run[k].readings[reader].value
              && (run[k].readings[reader].disturbed ==> run[k + 1].readings[reader].disturbed)
  {
    hide Enabled, Next, Inv, AllMove;
    RunsKeepInvariant(run, steps, k);
    RunsKeepInvariant(run, steps, k + 1);
    assert StepAt(run, steps, k);
    StepKeeps(run[k], steps[k]);
    RegisteredGrows(run[k], steps[k]);
    if reader in run[k].readings && !Uses(steps[k], reader) {
      ReadingStays(run[k], steps[k], reader);
    }
  }

  lemma {:induction false} RegisteredGrows(w: World, step: Step)
    requires Enabled(w, step)
    ensures forall p :: p in w.registered ==> p in Next(w, step).registered
  {
  }

  lemma {:induction false} LookedAt(run: seq<World>, steps: seq<Step>, i: nat)
    requires IsRun(run, steps) && i < |steps| && steps[i].Look?
    ensures steps[i].reader in run[i + 1].readings
  {
    assert StepAt(run, steps, i);
  }

  /** Once disturbed, a reading stays disturbed until its reader acts. */
  lemma {:induction false} SpanReading(run: seq<World>, steps: seq<Step>, i: nat, j: nat, reader: nat, k: nat)
    requires Span(run, steps, i, j, reader) && i < k <= j
    ensures reader in run[i + 1].readings && reader in run[k].readings && reader in run[j].readings
    ensures run[k].readings[reader].value == run[i + 1].readings[reader].value
    ensures run[j].readings[reader].value == run[i + 1].readings[reader].value
    ensures run[k].readings[reader].disturbed ==> run[j].readings[reader].disturbed
    decreases j - k
  {
    hide Enabled, Next, Inv, AllMove;
    SpanForward(run, steps, i, j, reader, k);
    if k < j {
      RunStep(run, steps, k, reader);
      SpanReading(run, steps, i, j, reader, k + 1);
    }
  }

  lemma {:induction false} SpanForward(run: seq<World>, steps: seq<Step>, i: nat, j: nat, reader: nat, k: nat)
    requires Span(run, steps, i, j, reader) && i < k <= j
    ensures reader in run[i + 1].readings && reader in run[k].readings
    ensures run[k].readings[reader].value == run[i + 1].readings[reader].value
    decreases k
  {
    hide Enabled, Next, Inv, AllMove;
    LookedAt(run, steps, i);
    if k > i + 1 {
      SpanForward(run, steps, i, j, reader, k - 1);
      RunStep(run, steps, k - 1, reader);
    }
  }

  lemma {:induction false} CommitInspects(d: Dir, procs: Processes, op: Operation)
    requires (op.Resume? || op.Edit?) && !PlanOf(d, procs, op).outcome.Refused?
    ensures Inspect(d, procs, op.session).Ok? && Inspect(d, procs, op.session).value.value == op.original
  {
    hide Inspect, SavePlan, ReconcilePlan, SaveAndReconcile;
  }

  lemma {:induction false} CommitNeedsTheRecord(w: World, reader: nat, op: Operation)
    requires Inv(w) && reader in w.readings && (op.Resume? || op.Edit?) && op.original == w.readings[reader].value
    requires op.session == op.original.session && !PlanOf(w.dir, w.procs, op).outcome.Refused?
    ensures op.session in w.dir.records && w.dir.records[op.session] == op.original && !w.readings[reader].disturbed
  {
    CommitInspects(w.dir, w.procs, op);
    InspectedIsCurrent(w.dir, w.procs, op.session);
    assert ReadingOk(w, w.readings[reader]);
  }

  /** A commit that is not refused: the session's record was the validated one all the time since it was read,
      so the whole edit or resume might as well have happened at its commit. No update is lost. */
  lemma {:induction false} CommitIsAtomic(run: seq<World>, steps: seq<Step>, i: nat, j: nat, op: Operation, n: nat,
                                          k: nat)
    requires i < |steps| && steps[i].Look? && Span(run, steps, i, j, steps[i].reader)
    requires steps[j] == Commit(steps[i].reader, op, n)
    requires (op.Resume? || op.Edit?) && !PlanOf(run[j].dir, run[j].procs, op).outcome.Refused? && i < k <= j
    ensures op.session in run[k].dir.records && run[k].dir.records[op.session] == op.original
  {
    hide Enabled, Next, Inv, PlanOf;
    var reader := steps[i].reader;
    SpanReading(run, steps, i, j, reader, k);
    RunsKeepInvariant(run, steps, j);
    RunsKeepInvariant(run, steps, k);
    CommitEnabled(run, steps, j);
    CommitNeedsTheRecord(run[j], reader, op);
    UndisturbedRecord(run[k], reader);
  }

  lemma {:induction false} CommitEnabled(run: seq<World>, steps: seq<Step>, j: nat)
    requires IsRun(run, steps) && j < |steps| && steps[j].Commit? && steps[j].reader in run[j].readings
    ensures var op := steps[j].op;
            && (op.Resume? || op.Edit?) && op.original == run[j].readings[steps[j].reader].value
            && op.session == op.original.session
  {
    assert StepAt(run, steps, j);
  }

  lemma {:induction false} UndisturbedRecord(w: World, reader: nat)
    requires Inv(w) && reader in w.readings && !w.readings[reader].disturbed
    ensures var v := w.readings[reader].value; v.session in w.dir.records && w.dir.records[v.session] == v
  {
    assert ReadingOk(w, w.readings[reader]);
  }

  // ---- versions

  /**
   Over a whole run a session's record is kept, replaced by a later version, or by a new supervisor's
   registration.
   */
  lemma {:induction false} VersionsOnlyGrow(run: seq<World>, steps: seq<Step>, i: nat, j: nat, s: string)
    requires IsRun(run, steps) && i <= j < |run| && s in run[i].dir.records
    ensures s in run[j].dir.records && Owner(run[i].dir.records[s]) in run[j].registered
    ensures Version(run[j].dir.records[s], run[i].dir.records[s])
    decreases j
  {
    hide Enabled, Next, AllMove, Version;
    if i == j {
      RunsKeepInvariant(run, steps, i);
      SameVersion(run[i].dir.records[s]);
    } else {
      VersionsOnlyGrow(run, steps, i, j - 1, s);
      RunStep(run, steps, j - 1, 0);
      VersionMoves(run[j - 1], run[j].dir, s, run[i].dir.records[s]);
    }
  }

  ghost predicate Version(a: Record, b: Record) {
    Owner(a) == Owner(b) ==> a == b || (SameIdentity(a, b) && Later(a, b))
  }

  lemma {:induction false} SameVersion(v: Record)
    ensures Version(v, v)
  {
  }

  lemma {:induction false} VersionMoves(w: World, e: Dir, s: string, b: Record)
    requires Inv(w) && AllMove(w, e) && s in w.dir.records && Version(w.dir.records[s], b) && Owner(b) in w.registered
    ensures s in e.records && Version(e.records[s], b)
  {
    assert Moves(w, e, s);
  }

  lemma {:induction false} WellKeptInRuns(w: World)
    requires Inv(w)
    ensures KeysMatch(w.dir) && RowsMatch(w.dir)
  {
  }

  lemma {:induction false} CommitSaves(d: Dir, procs: Processes, op: Operation)
    requires (op.Resume? || op.Edit?) && !PlanOf(d, procs, op).outcome.Refused?
    ensures SavedBy(d, procs, op).Some? && SavedBy(d, procs, op).value.session == op.original.session
  {
    hide Inspect, SavePlan, ReconcilePlan, SaveAndReconcile;
  }

  /** A commit that finishes has replaced exactly the validated record, by one of the next revision. */
  lemma {:induction false} CommitRaisesRevision(w: World, op: Operation)
    requires Inv(w) && (op.Resume? || op.Edit?) && op.session == op.original.session
    requires PlanOf(w.dir, w.procs, op).outcome.Done?
    ensures var e := After(w.dir, PlanOf(w.dir, w.procs, op).writes);
            && op.session in w.dir.records && w.dir.records[op.session] == op.original
            && op.session in e.records && e.records == w.dir.records[op.session := e.records[op.session]]
            && e.records[op.session].revision == op.original.revision + 1
            && SameIdentity(e.records[op.session], op.original)
  {
    hide Inspect, PlanOf, After, Shaped, Inv;
    var d, saved := w.dir, SavedBy(w.dir, w.procs, op);
    WellKeptInRuns(w);
    CommitInspects(d, w.procs, op);
    CommitSaves(d, w.procs, op);
    InspectedIsCurrent(d, w.procs, op.session);
    OperationShape(d, w.procs, op);
    SavedIsLater(d, w.procs, op);
    FinishedSave(d, op.session, saved.value, PlanOf(d, w.procs, op));
  }

  lemma {:induction false} FinishedSave(d: Dir, s: string, v: Record, plan: Plan)
    requires Shaped(d, s, Some(v), plan) && plan.outcome.Done?
    ensures After(d, plan.writes).records == d.records[s := Projected(v)]
  {
    var a := SavePlan(d, v).writes;
    var b := plan.writes[|a|..];
    assert plan.writes == a + b && a[..|a|] == a;
    SavePrefix(d, v, |a|);
    AfterConcat(d, a, b);
    GentlePrefix(After(d, a), d, s, b);
  }

  // ---- where edits stay open after admission

  /**
   After GO a queued ticket can still be inspected for an edit exactly when it has a parked row and the fleet's
   holder is not its own.
   */
  lemma {:induction false} OpenAfterAdmission(d: Dir, procs: Processes, s: string, lane: string, pid: int)
    requires KeysMatch(d) && RowsOf(d.queue, s) != [] && lane !in d.holders
    requires s in d.records && d.records[s].state == Queued && Live(procs, d.records[s])
    ensures var e := After(d, AdmitPlan(d, procs, s, lane, pid).writes);
            Inspect(e, procs, s).Ok? <==>
            lane != FLEET && !HeldBy(d, FLEET, s) && d.records[s].supported && ParkedRow(d.records[s]).Some?
  {
    var e := After(d, AdmitPlan(d, procs, s, lane, pid).writes);
    AdmittedDir(d, procs, s, lane, pid);
    assert HeldAnywhere(e, s);
    assert HeldBy(e, FLEET, s) <==> lane == FLEET || HeldBy(d, FLEET, s);
  }

  lemma {:induction false} AdmittedDir(d: Dir, procs: Processes, s: string, lane: string, pid: int)
    requires RowsOf(d.queue, s) != [] && !IsPaused(d, procs, s)
    ensures var e := After(d, AdmitPlan(d, procs, s, lane, pid).writes);
            && e.records == d.records && RowsOf(e.queue, s) == [] && lane in e.holders && e.holders[lane].session == s
            && e.archive == d.archive && e.holders == d.holders[lane := e.holders[lane]]
  {
    hide IsPaused, RowsOf, After;
    var ws := AdmitPlan(d, procs, s, lane, pid).writes;
    AdmitWrites(d, procs, s, lane, pid, |ws|);
    assert ws[..|ws|] == ws;
    AdmittedQueue(d, procs, s, lane, pid);
    NoArchiveWrite(d, ws);
  }

  lemma {:induction false} NoArchiveWrite(d: Dir, ws: seq<Write>)
    requires forall w :: w in ws ==> !w.WriteArchive?
    ensures After(d, ws).archive == d.archive
  {
    if ws != [] {
      assert ws[|ws| - 1] in ws;
      NoArchiveWrite(d, ws[..|ws| - 1]);
    }
  }

  lemma {:induction false} AdmittedQueue(d: Dir, procs: Processes, s: string, lane: string, pid: int)
    requires RowsOf(d.queue, s) != [] && !IsPaused(d, procs, s)
    ensures RowsOf(After(d, AdmitPlan(d, procs, s, lane, pid).writes).queue, s) == []
  {
    var ws := AdmitPlan(d, procs, s, lane, pid).writes;
    var at := if lane == FLEET then 2 else 1;
    assert ws[at] == WriteQueue(Others(d.queue, s)) && ws[at] in ws;
    AdmitQueue(d, ws, s);
    OthersOfOthers(d.queue, s);
  }

  lemma {:induction false} AdmitQueue(d: Dir, ws: seq<Write>, s: string)
    requires forall w :: w in ws && w.WriteQueue? ==> w.rows == Others(d.queue, s)
    ensures (exists w :: w in ws && w.WriteQueue?) ==> After(d, ws).queue == Others(d.queue, s)
  {
    if ws != [] {
      var last := ws[|ws| - 1];
      assert last in ws;
      AdmitQueue(d, ws[..|ws| - 1], s);
      if !last.WriteQueue? && exists w :: w in ws && w.WriteQueue? {
        var w :| w in ws && w.WriteQueue?;
        assert w in ws[..|ws| - 1];
      }
    }
  }

  /** The ticket's history is this supervisor's, so saving its record is not refused. */
  predicate OwnHistory(d: Dir, v: Record) {
    (v.session, v.ticket) in d.archive ==> SameSupervisor(d.archive[(v.session, v.ticket)], v)
  }

  function NewCommand(command: seq<string>): Change {
    Change(Some(command), None, None, None, None)
  }

  /**
   A once-parked queued record without a row that the fleet's holder does not name: what GO in a one-GPU lane
   leaves.
   */
  predicate StillOpen(d: Dir, procs: Processes, s: string) {
    && s in d.records && d.records[s].session == s && OncePaused(procs, d.records[s]) && d.records[s].state == Queued
    && !d.records[s].experiment && OwnHistory(d, d.records[s]) && RowsOf(d.queue, s) == [] && !HeldBy(d, FLEET, s)
  }

  lemma {:induction false} AdmittedIsOpen(d: Dir, procs: Processes, s: string, lane: string, pid: int)
    requires KeysMatch(d) && RowsOf(d.queue, s) != [] && lane !in d.holders && !HeldBy(d, FLEET, s) && lane != FLEET
    requires s in d.records && d.records[s].state == Queued && OncePaused(procs, d.records[s])
    requires !d.records[s].experiment
    requires OwnHistory(d, d.records[s])
    ensures StillOpen(After(d, AdmitPlan(d, procs, s, lane, pid).writes), procs, s)
  {
    hide AdmitPlan, After;
    AdmittedDir(d, procs, s, lane, pid);
  }

  lemma {:induction false} SaveHistory(d: Dir, v: Record)
    requires OwnHistory(d, v) && (IsPark(Projected(v)) ==> v.session in d.parkedIndex)
    ensures SavePlan(d, v).outcome.Done?
    ensures After(d, SavePlan(d, v).writes).archive == d.archive[(v.session, v.ticket) := Projected(v)]
  {
    hide After, Apply;
    SaveParts(d, v);
    var writes := SavePlan(d, v).writes;
    assert WriteArchive((v.session, v.ticket), Projected(v)) in writes;
    OneArchive(d, writes, (v.session, v.ticket), Projected(v));
  }

  lemma {:induction false} OneArchive(d: Dir, ws: seq<Write>, key: (string, string), v: Record)
    requires forall w :: w in ws && w.WriteArchive? ==> w == WriteArchive(key, v)
    ensures After(d, ws).archive == if WriteArchive(key, v) in ws then d.archive[key := v] else d.archive
  {
    if ws != [] {
      var rest, last := ws[..|ws| - 1], ws[|ws| - 1];
      assert forall w :: w in ws <==> w in rest || w == last;
      OneArchive(d, rest, key, v);
    }
  }

  /** Saving a once-parked record that has no row: the record, its history, and a queued one's row back in the queue. */
  lemma {:induction false} OpenSave(d: Dir, procs: Processes, v: Record)
    requires OncePaused(procs, v) && OwnHistory(d, v) && RowsOf(d.queue, v.session) == []
    requires IsPark(Projected(v)) ==> v.session in d.parkedIndex
    ensures var plan := SaveAndReconcile(d, procs, v);
            var e := After(d, plan.writes);
            && plan.outcome.Done? && e.records == d.records[v.session := Projected(v)] && e.holders == d.holders
            && OwnHistory(e, Projected(v))
  {
    hide SavePlan, After, RowsOf, Others;
    SaveHistory(d, v);
    var a := SavePlan(d, v).writes;
    var e := After(d, a);
    assert a[..|a|] == a;
    SavePrefix(d, v, |a|);
    ProjectedStays(procs, v);
    ReconcileProjects(e, procs, v.session, Some(v.pid));
    var w := WriteQueue(Others(e.queue, v.session) + [Projected(v).parked.value]);
    var rest := if v.state == Paused then [] else [w];
    assert ReconcilePlan(e, procs, v.session, Some(v.pid)) == Plan(rest, Done);
    AfterConcat(d, a, rest);
    NothingAfter(e);
    AfterOne(e, w);
  }

  lemma {:induction false} NothingAfter(d: Dir)
    ensures After(d, []) == d
  {
  }

  lemma {:induction false} OpenEdit(d: Dir, procs: Processes, s: string, command: seq<string>)
    requires StillOpen(d, procs, s)
    ensures var v := d.records[s];
            && Inspect(d, procs, s) == Ok(Inspected(v, false))
            && PlanOf(d, procs, Edit(s, v, NewCommand(command))) ==
               SaveAndReconcile(d, procs, EditedRecord(v, v.(command := command)))
  {
    hide SaveAndReconcile, RowsOf;
  }

  /** So after GO in a one-GPU lane an edit of a once-parked ticket's command is never refused, and commits. */
  lemma {:induction false} EditsAfterOtherGo(d: Dir, procs: Processes, s: string, lane: string, pid: int,
                                             command: seq<string>)
    requires KeysMatch(d) && RowsOf(d.queue, s) != [] && lane !in d.holders && !HeldBy(d, FLEET, s) && lane != FLEET
    requires s in d.records && d.records[s].state == Queued && OncePaused(procs, d.records[s])
    requires !d.records[s].experiment
    requires OwnHistory(d, d.records[s])
    ensures var e := After(d, AdmitPlan(d, procs, s, lane, pid).writes);
            var plan := PlanOf(e, procs, Edit(s, d.records[s], NewCommand(command)));
            && plan.outcome.Done? && s in After(e, plan.writes).records
            && After(e, plan.writes).records[s].command == command && After(e, plan.writes).records[s].state == Queued
  {
    hide AdmitPlan, After, SaveAndReconcile, RowsOf, PlanOf, Inspect;
    var e := After(d, AdmitPlan(d, procs, s, lane, pid).writes);
    AdmittedIsOpen(d, procs, s, lane, pid);
    AdmittedDir(d, procs, s, lane, pid);
    OpenEdit(e, procs, s, command);
    OpenSave(e, procs, EditedRecord(d.records[s], d.records[s].(command := command)));
  }

  /**
   And the supervisor executes it: an edit between a GO in a one-GPU lane and the start replaces the work
   that was granted.
   */
  lemma {:induction false} EditedAfterGo(w: World, p: Supervisor, reader: nat, command: seq<string>)
    requires Inv(w) && p in w.registered && p in w.granted && p !in w.started
    requires var s := w.registered[p];
             StillOpen(w.dir, w.procs, s) && Owner(w.dir.records[s]) == p
    ensures var s := w.registered[p];
            var edit := Edit(s, w.dir.records[s], NewCommand(command));
            && Enabled(w, Look(reader, s))
            && var a := Next(w, Look(reader, s));
               var n := |PlanOf(a.dir, a.procs, edit).writes|;
            && Enabled(a, Commit(reader, edit, n))
            && var b := Next(a, Commit(reader, edit, n));
            && Enabled(b, Start(p))
            && var c := Next(b, Start(p));
               p in c.started && c.started[p].command == command && c.granted == w.granted
  {
    hide SaveAndReconcile, RowsOf, PlanOf, Inspect, After, Inv, TransitionPlan, OncePaused;
    var s := w.registered[p];
    var v := w.dir.records[s];
    var u := EditedRecord(v, v.(command := command));
    OpenEdit(w.dir, w.procs, s, command);
    EditedStaysOnce(w.procs, v, u);
    OpenSave(w.dir, w.procs, u);
    var plan := SaveAndReconcile(w.dir, w.procs, u);
    assert plan.writes[..|plan.writes|] == plan.writes;
    var e := After(w.dir, plan.writes);
    StartIsOpen(e, s, Projected(u));
    assert Changed(v, NewCommand(command)) == Ok(v.(command := command));
  }

  lemma {:induction false} EditedStaysOnce(procs: Processes, v: Record, u: Record)
    requires OncePaused(procs, v) && v.state == Queued
    requires exists command :: u == EditedRecord(v, v.(command := command))
    ensures OncePaused(procs, u) && u.state == Queued && Projected(u).state == Queued && Live(procs, v)
    ensures Projected(u).command == u.command && Owner(Projected(u)) == Owner(v) && Projected(u).session == v.session
  {
  }

  lemma {:induction false} StartIsOpen(d: Dir, s: string, v: Record)
    requires s in d.records && d.records[s] == v && Rank(v.state) == 0 && v.session == s && OwnHistory(d, v)
    ensures TransitionPlan(d, s, v.pid, v.start, Some(Running)).outcome.Done? && Onward(v.state, Running)
  {
  }
}
