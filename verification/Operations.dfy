/** What every operation on a reservation keeps, at every point where it may be cut short. */
module Operations {
  import opened Wrappers
  import opened Reservation
  import opened Recovery

  datatype Operation =
    | Pause(session: string, reason: string, expected: Option<nat>)
    | PauseFailed(session: string, checked: Record, reason: string)
    | Resume(session: string, original: Record)
    | Edit(session: string, original: Record, change: Change)
    | Reconcile(session: string, caller: Option<int>)
    | Transition(session: string, pid: int, start: string, state: Option<State>)

  /** The locked section of the operation. */
  function PlanOf(d: Dir, procs: Processes, op: Operation): Plan {
    match op
    case Pause(s, reason, expected) => PausePlan(d, procs, s, reason, expected)
    case PauseFailed(s, checked, reason) => PauseFailedPlan(d, procs, s, checked, reason)
    case Resume(s, original) => ResumeCommit(d, procs, s, original)
    case Edit(s, original, change) =>
      (match Changed(original, change)
       case Err(why) => Plan([], Refused(why))
       case Ok(updated) => EditCommit(d, procs, s, original, updated))
    case Reconcile(s, caller) => ReconcilePlan(d, procs, s, caller)
    case Transition(s, pid, start, state) => TransitionPlan(d, s, pid, start, state)
  }

  /** The record that the operation saves, when it saves one. */
  function SavedBy(d: Dir, procs: Processes, op: Operation): Option<Record> {
    var s := op.session;
    match op
    case Pause(_, reason, expected) =>
      if Owned(d, procs, s).Ok? && (expected.Some? ==> expected.value == Owned(d, procs, s).value.revision)
      then SavedByPause(d, procs, Owned(d, procs, s).value, reason) else None
    case PauseFailed(_, checked, reason) =>
      if Owned(d, procs, s).Ok? && PauseFailedPlan(d, procs, s, checked, reason).outcome != Ordinary
      then SavedByPause(d, procs, Owned(d, procs, s).value, reason) else None
    case Resume(_, original) =>
      if Owned(d, procs, s) == Ok(original) then Some(ResumedRecord(original)) else None
    case Edit(_, original, change) =>
      if Changed(original, change).Ok? && Inspect(d, procs, s).Ok? && Inspect(d, procs, s).value.value == original
      then Some(EditedRecord(original, Changed(original, change).value)) else None
    case Reconcile(_, caller) => SavedByReconcile(d, procs, s, caller)
    case Transition(_, pid, start, state) =>
      if s in d.records && d.records[s].pid == pid && d.records[s].start == start
      then Some(if state.Some? then d.records[s].(state := state.value) else d.records[s]) else None
  }

  function SavedByReconcile(d: Dir, procs: Processes, s: string, pid: Option<int>): Option<Record> {
    if s in d.records && d.records[s].supported && d.records[s].state == Paused && Live(procs, d.records[s])
       && (pid.Some? ==> pid.value == d.records[s].pid) && ParkedRow(d.records[s]).None? && Upgradable(d, d.records[s])
    then Some(Upgraded(d, d.records[s])) else None
  }

  function SavedByPause(d: Dir, procs: Processes, v: Record, reason: string): Option<Record> {
    if v.state == Paused then SavedByReconcile(d, procs, v.session, Some(v.pid))
    else if QueuedRow(d, v.session).Ok? then Some(PausedRecord(v, QueuedRow(d, v.session).value, reason)) else None
  }

  /** The row's ticket and enqueue time come from a row already queued or from the session's record. */
  ghost predicate Sourced(d: Dir, s: string, r: Row) {
    (exists q :: q in d.queue && q.session == s && q.ticket == r.ticket && q.enqueued == r.enqueued)
    || (s in d.records && r.ticket == d.records[s].ticket && r.enqueued == d.records[s].enqueued)
  }

  ghost predicate AllSourced(d: Dir, s: string, rows: seq<Row>) {
    forall r :: r in rows && r.session == s ==> Sourced(d, s, r)
  }

  /** A queue write that leaves other sessions' rows alone, or a mark or offer withdrawn. */
  ghost predicate Gentle(d: Dir, s: string, w: Write) {
    w.WriteDebt? || w.ClearFront? || w.ClearYield?
    || (w.WriteQueue? && Others(w.rows, s) == Others(d.queue, s) && AllSourced(d, s, w.rows))
  }

  ghost predicate AllGentle(d: Dir, s: string, ws: seq<Write>) {
    forall w :: w in ws ==> Gentle(d, s, w)
  }

  /** The writes are those of the save, if there is one, and gentle ones after it. */
  ghost predicate Shaped(d: Dir, s: string, saved: Option<Record>, plan: Plan) {
    if saved.None? then AllGentle(d, s, plan.writes)
    else
      var save := SavePlan(d, saved.value);
      && saved.value.session == s
      && |save.writes| <= |plan.writes| && plan.writes[..|save.writes|] == save.writes
      && AllGentle(d, s, plan.writes[|save.writes|..])
      && (save.outcome.Refused? ==> plan == save)
  }

  ghost predicate SameTicket(d: Dir, v: Record) {
    v.session in d.records && v.ticket == d.records[v.session].ticket && v.enqueued == d.records[v.session].enqueued
  }

  lemma {:induction false} OthersHaveOtherSessions(d: Dir, s: string)
    ensures forall r :: r in Others(d.queue, s) ==> r.session != s
  {
    forall r | r in Others(d.queue, s) ensures r.session != s {
      RowMember(d.queue, s, r);
    }
  }

  lemma {:induction false} ProjectionIsGentle(d: Dir, v: Record)
    requires SameTicket(d, v) && ParkedRow(v).Some?
    ensures AllGentle(d, v.session, ProjectionPlan(d, v, v.parked.value).writes)
  {
    LeftOver(d.queue, v.parked.value, v.session);
    OthersHaveOtherSessions(d, v.session);
    assert Sourced(d, v.session, v.parked.value);
  }

  lemma {:induction false} ReplacedIsGentle(d: Dir, s: string, estimate: int, note: Field)
    ensures Gentle(d, s, WriteQueue(ReplaceRow(d.queue, s, estimate, note)))
  {
    var rows := ReplaceRow(d.queue, s, estimate, note);
    ReplacedRows(d.queue, s, estimate, note);
    forall r | r in rows && r.session == s ensures Sourced(d, s, r) {
      var i :| 0 <= i < |rows| && rows[i] == r;
      assert d.queue[i] in d.queue && d.queue[i].session == s && d.queue[i].ticket == r.ticket;
    }
  }

  lemma {:induction false} AppendShape(d: Dir, s: string, v: Record, rest: Plan)
    requires v.session == s && SavePlan(d, v).outcome.Done? ==> AllGentle(d, s, rest.writes)
    requires v.session == s
    ensures Shaped(d, s, Some(v), Then(SavePlan(d, v), rest))
  {
    var a := SavePlan(d, v).writes;
    assert (a + rest.writes)[..|a|] == a && (a + rest.writes)[|a|..] == rest.writes;
    assert a[..|a|] == a && a[|a|..] == [];
  }

  lemma {:induction false} ReconcileAfterSaveIsGentle(d: Dir, procs: Processes, v: Record)
    requires SavePlan(d, v).outcome.Done? && SameTicket(d, v)
    requires v.state == Paused ==> ParkedRow(v).Some?
    ensures AllGentle(d, v.session,
                      ReconcilePlan(After(d, SavePlan(d, v).writes), procs, v.session, Some(v.pid)).writes)
  {
    var ws := SavePlan(d, v).writes;
    assert ws[..|ws|] == ws;
    SavePrefix(d, v, |ws|);
    var e := After(d, ws);
    var u := e.records[v.session];
    assert u == Projected(v);
    if ParkedRow(u).Some? {
      ProjectionIsGentle(e, u);
      GentleEarlier(d, e, v.session, ProjectionPlan(e, u, u.parked.value).writes);
    }
  }

  lemma {:induction false} GentleEarlier(d: Dir, e: Dir, s: string, ws: seq<Write>)
    requires AllGentle(e, s, ws) && e.queue == d.queue && s in e.records && SameTicket(d, e.records[s])
    requires e.records[s].session == s
    ensures AllGentle(d, s, ws)
  {
    forall w | w in ws && w.WriteQueue? ensures AllSourced(d, s, w.rows) {
      forall r | r in w.rows && r.session == s ensures Sourced(d, s, r) {
        assert Sourced(e, s, r);
      }
    }
  }

  lemma {:induction false} SaveAndReconcileShape(d: Dir, procs: Processes, v: Record)
    requires SameTicket(d, v) && (v.state == Paused ==> ParkedRow(v).Some?)
    ensures Shaped(d, v.session, Some(v), SaveAndReconcile(d, procs, v))
  {
    if SavePlan(d, v).outcome.Done? {
      ReconcileAfterSaveIsGentle(d, procs, v);
    }
    AppendShape(d, v.session, v, ReconcilePlan(After(d, SavePlan(d, v).writes), procs, v.session, Some(v.pid)));
  }

  lemma {:induction false} ReconcileShape(d: Dir, procs: Processes, s: string, pid: Option<int>)
    requires KeysMatch(d)
    ensures Shaped(d, s, SavedByReconcile(d, procs, s, pid), ReconcilePlan(d, procs, s, pid))
  {
    var saved := SavedByReconcile(d, procs, s, pid);
    if saved.Some? {
      var u := saved.value;
      RowMember(d.queue, s, RowsOf(d.queue, s)[0]);
      ProjectionIsGentle(d, u);
      AppendShape(d, s, u, ProjectionPlan(d, u, u.parked.value));
    } else if s in d.records && ParkedRow(d.records[s]).Some? {
      ProjectionIsGentle(d, d.records[s]);
    }
  }

  lemma {:induction false} TailShape(d: Dir, s: string, v: Record, p: Plan, tail: seq<Write>)
    requires Shaped(d, s, Some(v), p) && AllGentle(d, s, tail)
    ensures Shaped(d, s, Some(v), Then(p, Plan(tail, Done)))
  {
    var a := SavePlan(d, v).writes;
    assert (p.writes + tail)[..|a|] == p.writes[..|a|];
    assert (p.writes + tail)[|a|..] == p.writes[|a|..] + tail;
  }

  lemma {:induction false} SetPausedShape(d: Dir, procs: Processes, v: Record, reason: string)
    requires KeysMatch(d) && RowsMatch(d) && v.session in d.records && Owned(d, procs, v.session) == Ok(v)
    ensures Shaped(d, v.session, SavedByPause(d, procs, v, reason), SetPausedPlan(d, procs, v, reason))
  {
    if v.state == Paused {
      ReconcileShape(d, procs, v.session, Some(v.pid));
    } else if QueuedRow(d, v.session).Ok? {
      FreshPauseShape(d, procs, v, reason);
    }
  }

  lemma {:induction false} FreshPauseShape(d: Dir, procs: Processes, v: Record, reason: string)
    requires KeysMatch(d) && RowsMatch(d) && v.session in d.records && Owned(d, procs, v.session) == Ok(v)
    requires v.state != Paused && QueuedRow(d, v.session).Ok?
    ensures Shaped(d, v.session, Some(PausedRecord(v, QueuedRow(d, v.session).value, reason)),
                   SetPausedPlan(d, procs, v, reason))
  {
    InspectedIsCurrent(d, procs, v.session);
    PausedIsOncePaused(d, procs, v.session, reason);
    var u := PausedRecord(v, QueuedRow(d, v.session).value, reason);
    SaveAndReconcileShape(d, procs, u);
    TailShape(d, v.session, u, SaveAndReconcile(d, procs, u), PauseTail(d, v.session).writes);
  }

  lemma {:induction false} EditShape(d: Dir, procs: Processes, s: string, original: Record, change: Change)
    requires KeysMatch(d) && Changed(original, change).Ok? && Inspect(d, procs, s).Ok?
    requires Inspect(d, procs, s).value.value == original
    ensures Shaped(d, s, Some(EditedRecord(original, Changed(original, change).value)),
                   EditCommit(d, procs, s, original, Changed(original, change).value))
  {
    InspectedIsCurrent(d, procs, s);
    hide Inspect, SavePlan, ReconcilePlan, SaveAndReconcile;
    var v := EditedRecord(original, Changed(original, change).value);
    if !Inspect(d, procs, s).value.projected {
      SaveAndReconcileShape(d, procs, v);
    } else {
      ReplacedIsGentle(d, s, v.estimate, v.note);
      AppendShape(d, s, v, Plan([WriteQueue(ReplaceRow(d.queue, s, v.estimate, v.note))], Done));
    }
  }

  lemma {:induction false} PauseFailedShape(d: Dir, procs: Processes, op: Operation)
    requires KeysMatch(d) && RowsMatch(d) && op.PauseFailed?
    ensures Shaped(d, op.session, SavedBy(d, procs, op), PlanOf(d, procs, op))
  {
    if Owned(d, procs, op.session).Ok? {
      InspectedIsCurrent(d, procs, op.session);
      SetPausedShape(d, procs, Owned(d, procs, op.session).value, op.reason);
    }
  }

  /** Every operation saves at most one record, its own session's, before touching anything else. */
  lemma {:induction false} OperationShape(d: Dir, procs: Processes, op: Operation)
    requires KeysMatch(d) && RowsMatch(d)
    ensures Shaped(d, op.session, SavedBy(d, procs, op), PlanOf(d, procs, op))
  {
    hide Inspect, SavePlan, ReconcilePlan, SetPausedPlan, SavedByPause, SavedByReconcile, SaveAndReconcile;
    var s := op.session;
    match op
    case Pause(_, reason, expected) =>
      if Owned(d, procs, s).Ok? {
        InspectedIsCurrent(d, procs, s);
        SetPausedShape(d, procs, Owned(d, procs, s).value, reason);
      }
    case PauseFailed(_, checked, reason) =>
      PauseFailedShape(d, procs, op);
    case Resume(_, original) =>
      if Owned(d, procs, s) == Ok(original) {
        InspectedIsCurrent(d, procs, s);
        SaveAndReconcileShape(d, procs, ResumedRecord(original));
      }
    case Edit(_, original, change) =>
      if SavedBy(d, procs, op).Some? {
        EditShape(d, procs, s, original, change);
      }
    case Reconcile(_, caller) => ReconcileShape(d, procs, s, caller);
    case Transition(_, pid, start, state) =>
      if SavedBy(d, procs, op).Some? {
        AppendShape(d, s, SavedBy(d, procs, op).value, Plan([], Done));
      }
  }

  // ---- every crash point of every operation

  lemma {:induction false} GentlePrefix(e: Dir, d: Dir, s: string, ws: seq<Write>)
    requires AllGentle(d, s, ws) && e.queue == d.queue
    ensures var c := After(e, ws);
            && c.records == e.records && c.holders == e.holders && c.parkedIndex == e.parkedIndex
            && Others(c.queue, s) == Others(d.queue, s) && AllSourced(d, s, c.queue)
  {
    if ws != [] {
      assert ws[|ws| - 1] in ws;
      GentlePrefix(e, d, s, ws[..|ws| - 1]);
      assert Gentle(d, s, ws[|ws| - 1]);
    }
  }

  /** What is left untouched, whatever has been written so far. */
  ghost predicate Kept(d: Dir, c: Dir, s: string, saved: Option<Record>) {
    && c.holders == d.holders
    && Others(c.queue, s) == Others(d.queue, s) && AllSourced(d, s, c.queue)
    && (c.records == d.records || (saved.Some? && c.records == d.records[s := Projected(saved.value)]))
    && (IndexCovers(d) ==> IndexCovers(c))
  }

  lemma {:induction false} SavePartKept(d: Dir, s: string, v: Record, n: nat)
    requires v.session == s && n <= |SavePlan(d, v).writes|
    ensures Kept(d, After(d, SavePlan(d, v).writes[..n]), s, Some(v))
    ensures After(d, SavePlan(d, v).writes[..n]).queue == d.queue
  {
    if SavePlan(d, v).outcome.Done? {
      SavePrefix(d, v, n);
      if IndexCovers(d) {
        SaveKeepsIndex(d, v, n);
      }
    } else {
      RefusedSave(d, v, n);
    }
    assert After(d, SavePlan(d, v).writes[..n]).queue == d.queue;
  }

  lemma {:induction false} ShapedKept(d: Dir, s: string, saved: Option<Record>, plan: Plan, n: nat)
    requires Shaped(d, s, saved, plan) && n <= |plan.writes|
    ensures Kept(d, After(d, plan.writes[..n]), s, saved)
  {
    if saved.None? {
      GentlePrefix(d, d, s, plan.writes[..n]);
    } else {
      var a := SavePlan(d, saved.value).writes;
      var b := plan.writes[|a|..];
      assert plan.writes == a + b;
      PrefixOfTwo(d, a, b, n);
      if n <= |a| {
        SavePartKept(d, s, saved.value, n);
      } else {
        assert a[..|a|] == a;
        SavePartKept(d, s, saved.value, |a|);
        GentlePrefix(After(d, a), d, s, b[..n - |a|]);
      }
    }
  }

  /** At every crash point of every operation: other sessions' records and rows, their order, and every
      hold are as before; the session's record is the old or the one being saved; the index is complete. */
  lemma {:induction false} OperationKeeps(d: Dir, procs: Processes, op: Operation, n: nat)
    requires KeysMatch(d) && RowsMatch(d) && n <= |PlanOf(d, procs, op).writes|
    ensures Kept(d, After(d, PlanOf(d, procs, op).writes[..n]), op.session, SavedBy(d, procs, op))
  {
    OperationShape(d, procs, op);
    ShapedKept(d, op.session, SavedBy(d, procs, op), PlanOf(d, procs, op), n);
  }

  /** What identifies a reservation. */
  predicate SameIdentity(a: Record, b: Record) {
    && a.session == b.session && a.ticket == b.ticket && a.enqueued == b.enqueued && a.kind == b.kind
    && a.pid == b.pid && a.start == b.start && a.supported == b.supported && a.experiment == b.experiment
  }

  function Rank(state: State): nat {
    match state
    case Queued => 0
    case Paused => 0
    case Running => 1
    case Finishing => 2
    case Finished => 3
    case Cancelled => 3
  }

  /**
   A later version of the same reservation: a higher revision, or the same one further on, or an earlier controller's
   pause that has got its saved row.
   */
  predicate Later(a: Record, b: Record) {
    || a.revision > b.revision
    || (a.revision == b.revision && Rank(a.state) > Rank(b.state))
    || (a.revision == b.revision && a.state == Paused && b.state == Paused && ParkedRow(a).Some? && ParkedRow(b).None?)
  }

  lemma {:induction false} UpgradeIsLater(d: Dir, procs: Processes, s: string, caller: Option<int>)
    requires KeysMatch(d) && SavedByReconcile(d, procs, s, caller).Some?
    ensures s in d.records && SameIdentity(Projected(SavedByReconcile(d, procs, s, caller).value), d.records[s])
    ensures Later(Projected(SavedByReconcile(d, procs, s, caller).value), d.records[s])
    ensures var v, current := Projected(SavedByReconcile(d, procs, s, caller).value), d.records[s];
            && Rank(current.state) == 0 && Live(procs, current)
            && v.revision == current.revision && v.command == current.command && v.cwd == current.cwd
            && v.manifest == current.manifest
  {
    RowMember(d.queue, s, RowsOf(d.queue, s)[0]);
  }

  lemma {:induction false} PauseIsLater(d: Dir, procs: Processes, s: string, reason: string)
    requires KeysMatch(d) && Owned(d, procs, s).Ok?
    ensures s in d.records && Owned(d, procs, s).value == d.records[s] && Rank(d.records[s].state) == 0
    ensures Live(procs, d.records[s])
    ensures var saved := SavedByPause(d, procs, d.records[s], reason);
            saved.Some? ==>
              SameIdentity(Projected(saved.value), d.records[s]) && Later(Projected(saved.value), d.records[s])
  {
    InspectedIsCurrent(d, procs, s);
    var v := d.records[s];
    if v.state == Paused && SavedByReconcile(d, procs, s, Some(v.pid)).Some? {
      UpgradeIsLater(d, procs, s, Some(v.pid));
    }
  }

  /** The saved record is a later version of the current one, of the same identity, from a live supervisor. */
  ghost predicate Improves(d: Dir, procs: Processes, op: Operation, v: Record) {
    op.session in d.records &&
    var current := d.records[op.session];
    && SameIdentity(v, current)
    && (op.Transition? || (Later(v, current) && Rank(current.state) == 0 && Live(procs, current)))
    && (op.Resume? || op.Edit? ==> v.revision == current.revision + 1 && op.original == current)
    && (op.Transition? || op.Reconcile? ==>
        v.revision == current.revision && v.command == current.command && v.cwd == current.cwd
        && v.manifest == current.manifest)
  }

  lemma {:induction false} ResumeIsLater(d: Dir, procs: Processes, op: Operation)
    requires KeysMatch(d) && op.Resume? && SavedBy(d, procs, op).Some?
    ensures Improves(d, procs, op, Projected(SavedBy(d, procs, op).value))
  {
    hide Inspect;
    InspectedIsCurrent(d, procs, op.session);
  }

  lemma {:induction false} EditIsLater(d: Dir, procs: Processes, op: Operation)
    requires KeysMatch(d) && op.Edit? && SavedBy(d, procs, op).Some?
    ensures Improves(d, procs, op, Projected(SavedBy(d, procs, op).value))
  {
    hide Inspect;
    InspectedIsCurrent(d, procs, op.session);
  }

  /** No operation changes a reservation's identity; each but an owner's transition makes a later version. */
  lemma {:induction false} SavedIsLater(d: Dir, procs: Processes, op: Operation)
    requires KeysMatch(d) && SavedBy(d, procs, op).Some?
    ensures Improves(d, procs, op, Projected(SavedBy(d, procs, op).value))
  {
    hide SavedByPause, SavedByReconcile, Inspect;
    var s := op.session;
    match op
    case Pause(_, reason, _) => PauseIsLater(d, procs, s, reason);
    case PauseFailed(_, _, reason) => PauseIsLater(d, procs, s, reason);
    case Resume(_, _) => ResumeIsLater(d, procs, op);
    case Edit(_, _, _) => EditIsLater(d, procs, op);
    case Reconcile(_, caller) => UpgradeIsLater(d, procs, s, caller);
    case Transition(_, _, _, _) =>
  }
}
