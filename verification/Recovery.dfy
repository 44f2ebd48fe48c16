/** What survives a crash after any file replacement of a pause, a resume or an edit. */
module Recovery {
  import opened Wrappers
  import opened Reservation

  lemma {:induction false} AfterConcat(d: Dir, a: seq<Write>, b: seq<Write>)
    ensures After(d, a + b) == After(After(d, a), b)
  {
    if b == [] {
      assert a + b == a;
    } else {
      var n := |b| - 1;
      AfterConcat(d, a, b[..n]);
      assert (a + b)[..|a + b| - 1] == a + b[..n];
    }
  }

  lemma {:induction false} AfterOne(d: Dir, w: Write)
    ensures After(d, [w]) == Apply(d, w)
  {
    assert [w][..0] == [];
  }

  /** A prefix of two steps is a prefix of the first, or the first and a prefix of the second. */
  lemma {:induction false} PrefixOfTwo(d: Dir, a: seq<Write>, b: seq<Write>, n: nat)
    requires n <= |a| + |b|
    ensures n <= |a| ==> After(d, (a + b)[..n]) == After(d, a[..n])
    ensures n >= |a| ==> After(d, (a + b)[..n]) == After(After(d, a), b[..n - |a|])
  {
    if n <= |a| {
      assert (a + b)[..n] == a[..n];
    }
    if n >= |a| {
      assert (a + b)[..n] == a + b[..n - |a|];
      AfterConcat(d, a, b[..n - |a|]);
    }
  }

  // ---- which files a write touches

  /** Neither a current record nor the queue nor a holder. */
  predicate Quiet(w: Write) {
    w.WriteIndex? || w.WriteArchive? || w.WriteTickets? || w.WriteDebt? || w.ClearFront? || w.ClearYield?
  }

  ghost predicate AllQuiet(ws: seq<Write>) {
    forall w :: w in ws ==> Quiet(w)
  }

  ghost predicate SameView(a: Dir, b: Dir) {
    a.records == b.records && a.queue == b.queue && a.holders == b.holders
  }

  lemma {:induction false} QuietKeepsView(d: Dir, ws: seq<Write>)
    requires AllQuiet(ws)
    ensures SameView(After(d, ws), d)
  {
    if ws != [] {
      assert ws[|ws| - 1] in ws;
      QuietKeepsView(d, ws[..|ws| - 1]);
    }
  }

  lemma {:induction false} NoIndexWrite(d: Dir, ws: seq<Write>)
    requires forall w :: w in ws ==> !w.WriteIndex?
    ensures After(d, ws).parkedIndex == d.parkedIndex
  {
    if ws != [] {
      assert ws[|ws| - 1] in ws;
      NoIndexWrite(d, ws[..|ws| - 1]);
    }
  }

  // ---- save_record

  /** The files that save_record prepares before the current record. */
  function Before(d: Dir, v0: Record): seq<Write> {
    var v := Projected(v0);
    var earlier := if v.session in d.tickets then d.tickets[v.session] else [];
    (if IsPark(v) && v.session !in d.parkedIndex then [WriteIndex(d.parkedIndex + [v.session])] else [])
    + [WriteArchive((v.session, v.ticket), v),
       WriteTickets(v.session, Take([v.ticket] + Reservation.Without(earlier, v.ticket), LIMIT))]
  }

  function Behind(d: Dir, v0: Record): seq<Write> {
    var v := Projected(v0);
    if !IsPark(v) && v.session in d.parkedIndex then [WriteIndex(Reservation.Without(d.parkedIndex, v.session))] else []
  }

  lemma {:induction false} SaveParts(d: Dir, v: Record)
    requires SavePlan(d, v).outcome.Done?
    ensures SavePlan(d, v).writes == Before(d, v) + ([WriteRecord(Projected(v))] + Behind(d, v))
    ensures AllQuiet(Before(d, v)) && AllQuiet(Behind(d, v))
  {
  }

  lemma {:induction false} QuietPrefix(ws: seq<Write>, n: nat)
    requires AllQuiet(ws) && n <= |ws|
    ensures AllQuiet(ws[..n])
  {
  }

  /** Every session whose current record is a valid park is discoverable. */
  ghost predicate IndexCovers(d: Dir) {
    forall s :: s in d.records && IsPark(d.records[s]) ==> s in d.parkedIndex
  }

  /** At every crash point of save_record the record is the old or the new one, and nothing else visible moved. */
  lemma {:induction false} SavePrefix(d: Dir, v: Record, n: nat)
    requires SavePlan(d, v).outcome.Done? && n <= |SavePlan(d, v).writes|
    ensures var c := After(d, SavePlan(d, v).writes[..n]);
            && c.queue == d.queue && c.holders == d.holders
            && (c.records == d.records || c.records == d.records[v.session := Projected(v)])
            && (n == |SavePlan(d, v).writes| ==> c.records == d.records[v.session := Projected(v)])
  {
    hide Before, Behind, SavePlan, AllQuiet;
    SaveParts(d, v);
    var a, r, b := Before(d, v), WriteRecord(Projected(v)), Behind(d, v);
    PrefixOfTwo(d, a, [r] + b, n);
    if n <= |a| {
      QuietPrefix(a, n);
      QuietKeepsView(d, a[..n]);
    } else {
      var m := n - |a|;
      PrefixOfTwo(After(d, a), [r], b, m);
      QuietKeepsView(d, a);
      AfterOne(After(d, a), r);
      assert [r][..1] == [r];
      QuietPrefix(b, m - 1);
      QuietKeepsView(After(After(d, a), [r]), b[..m - 1]);
    }
  }

  lemma {:induction false} BeforeCovers(d: Dir, v: Record, n: nat)
    requires n <= |Before(d, v)|
    ensures var c := After(d, Before(d, v)[..n]);
            && (forall s :: s in d.parkedIndex ==> s in c.parkedIndex)
            && (n == |Before(d, v)| && IsPark(Projected(v)) ==> v.session in c.parkedIndex)
            && (!IsPark(Projected(v)) ==> c.parkedIndex == d.parkedIndex)
  {
    var a := Before(d, v);
    if a[0].WriteIndex? {
      if n == 0 {
        assert a[..0] == [];
      } else {
        PrefixOfTwo(d, [a[0]], a[1..], n);
        assert a == [a[0]] + a[1..] && [a[0]][..1] == [a[0]];
        AfterOne(d, a[0]);
        NoIndexWrite(Apply(d, a[0]), a[1..][..n - 1]);
      }
    } else {
      NoIndexWrite(d, a[..n]);
    }
  }

  lemma {:induction false} SaveEnds(d: Dir, v: Record)
    ensures SavePlan(d, v).outcome.Done? || SavePlan(d, v).outcome.Refused?
  {
  }

  /** The parked index is complete at every crash point: added to before the record, removed from after it. */
  lemma {:induction false} SaveKeepsIndex(d: Dir, v: Record, n: nat)
    requires IndexCovers(d) && SavePlan(d, v).outcome.Done? && n <= |SavePlan(d, v).writes|
    ensures IndexCovers(After(d, SavePlan(d, v).writes[..n]))
  {
    hide Before, Behind, SavePlan, AllQuiet;
    SaveParts(d, v);
    var a, r, b := Before(d, v), WriteRecord(Projected(v)), Behind(d, v);
    PrefixOfTwo(d, a, [r] + b, n);
    if n <= |a| {
      BeforeCovers(d, v, n);
      QuietPrefix(a, n);
      QuietKeepsView(d, a[..n]);
    } else {
      var m := n - |a|;
      assert a[..|a|] == a;
      BeforeCovers(d, v, |a|);
      QuietKeepsView(d, a);
      PrefixOfTwo(After(d, a), [r], b, m);
      AfterOne(After(d, a), r);
      assert [r][..1] == [r];
      IndexAfterRecord(After(After(d, a), [r]), d, v, m - 1);
    }
  }

  lemma {:induction false} IndexAfterRecord(e: Dir, d: Dir, v: Record, n: nat)
    requires n <= |Behind(d, v)| && e.records == d.records[v.session := Projected(v)] && IndexCovers(d)
    requires forall s :: s in d.parkedIndex ==> s in e.parkedIndex
    requires IsPark(Projected(v)) ==> v.session in e.parkedIndex
    ensures IndexCovers(After(e, Behind(d, v)[..n]))
  {
    var b := Behind(d, v);
    if n == 0 {
      assert b[..0] == [];
    } else {
      assert b[..1] == [b[0]];
      AfterOne(e, b[0]);
      forall s | s in e.records && IsPark(e.records[s]) ensures s in Reservation.Without(d.parkedIndex, v.session) {
        WithoutMember(d.parkedIndex, v.session, s);
      }
    }
  }

  /** A refused save leaves the record as it was; at most the advisory index has one entry more. */
  lemma {:induction false} RefusedSave(d: Dir, v: Record, n: nat)
    requires SavePlan(d, v).outcome.Refused? && n <= |SavePlan(d, v).writes|
    ensures SameView(After(d, SavePlan(d, v).writes[..n]), d)
    ensures IndexCovers(d) ==> IndexCovers(After(d, SavePlan(d, v).writes[..n]))
  {
    var ws := SavePlan(d, v).writes;
    if n == 1 {
      assert ws[..1] == [ws[0]];
      AfterOne(d, ws[0]);
    } else {
      assert ws[..0] == [];
    }
  }

  // ---- rows

  lemma {:induction false} OthersConcat(a: seq<Row>, b: seq<Row>, s: string)
    ensures Others(a + b, s) == Others(a, s) + Others(b, s)
    ensures RowsOf(a + b, s) == RowsOf(a, s) + RowsOf(b, s)
  {
    OthersOfConcat(a, b, s);
    RowsOfConcat(a, b, s);
  }

  lemma {:induction false} OthersOfConcat(a: seq<Row>, b: seq<Row>, s: string)
    ensures Others(a + b, s) == Others(a, s) + Others(b, s)
  {
    if a == [] {
      assert a + b == b;
    } else {
      var x, rest := if a[0].session != s then [a[0]] else [], a[1..] + b;
      assert (a + b)[1..] == rest;
      OthersOfConcat(a[1..], b, s);
      assert Others(a + b, s) == x + (Others(a[1..], s) + Others(b, s));
    }
  }

  lemma {:induction false} RowsOfConcat(a: seq<Row>, b: seq<Row>, s: string)
    ensures RowsOf(a + b, s) == RowsOf(a, s) + RowsOf(b, s)
  {
    if a == [] {
      assert a + b == b;
    } else {
      var x, rest := if a[0].session == s then [a[0]] else [], a[1..] + b;
      assert (a + b)[1..] == rest;
      RowsOfConcat(a[1..], b, s);
      assert RowsOf(a + b, s) == x + (RowsOf(a[1..], s) + RowsOf(b, s));
    }
  }

  lemma {:induction false} OthersOfOthers(rows: seq<Row>, s: string)
    ensures Others(Others(rows, s), s) == Others(rows, s) && RowsOf(Others(rows, s), s) == []
  {
    if rows != [] {
      var rest := Others(rows[1..], s);
      OthersOfOthers(rows[1..], s);
      if rows[0].session != s {
        OthersConcat([rows[0]], rest, s);
        OneRow(rows[0], s);
      } else {
        assert Others(rows, s) == rest;
      }
    }
  }

  lemma {:induction false} OneRow(r: Row, s: string)
    ensures r.session == s ==> RowsOf([r], s) == [r] && Others([r], s) == []
    ensures r.session != s ==> RowsOf([r], s) == [] && Others([r], s) == [r]
  {
    assert [r][1..] == [];
  }

  lemma {:induction false} RowsSplit(rows: seq<Row>, s: string)
    ensures multiset(rows) == multiset(RowsOf(rows, s)) + multiset(Others(rows, s))
  {
    if rows != [] {
      RowsSplit(rows[1..], s);
      assert rows == [rows[0]] + rows[1..];
    }
  }

  lemma {:induction false} ReplacedRows(rows: seq<Row>, s: string, estimate: int, note: Field)
    ensures Others(ReplaceRow(rows, s, estimate, note), s) == Others(rows, s)
    ensures RowsOf(ReplaceRow(rows, s, estimate, note), s) == ReplaceRow(RowsOf(rows, s), s, estimate, note)
  {
    if rows != [] {
      var rest := ReplaceRow(rows[1..], s, estimate, note);
      var first := if rows[0].session == s then rows[0].(estimate := estimate, note := note) else rows[0];
      ReplacedRows(rows[1..], s, estimate, note);
      assert ReplaceRow(rows, s, estimate, note) == [first] + rest;
      OthersConcat([first], rest, s);
      OneRow(first, s);
      if rows[0].session == s {
        assert RowsOf(rows, s) == [rows[0]] + RowsOf(rows[1..], s);
        assert ReplaceRow(RowsOf(rows, s), s, estimate, note) == [first]
            + ReplaceRow(RowsOf(rows[1..], s), s, estimate, note);
      }
    }
  }

  // ---- reconcile

  /** The queue that a projection leaves. */
  lemma {:induction false} ProjectionResult(d: Dir, v: Record, saved: Row)
    requires saved.session == v.session && !ProjectionPlan(d, v, saved).outcome.Refused?
    ensures var p := ProjectionPlan(d, v, saved);
            var e := After(d, p.writes);
            && p.outcome.Done? && |p.writes| <= 1
            && e == d.(queue := e.queue)
            && Others(e.queue, v.session) == Others(d.queue, v.session)
            && RowsOf(e.queue, v.session) == (if v.state == Paused then [] else [saved])
            && ProjectionPlan(e, v, saved) == Plan([], Done)
  {
    var p := ProjectionPlan(d, v, saved);
    if p.writes != [] {
      AfterOne(d, p.writes[0]);
      assert p.writes == [p.writes[0]];
      LeftOver(d.queue, saved, v.session);
    }
  }

  lemma {:induction false} LeftOver(rows: seq<Row>, saved: Row, s: string)
    requires saved.session == s
    ensures Others(Others(rows, s), s) == Others(rows, s) && RowsOf(Others(rows, s), s) == []
    ensures Others(Others(rows, s) + [saved], s) == Others(rows, s) && RowsOf(Others(rows, s) + [saved], s) == [saved]
  {
    OthersOfOthers(rows, s);
    OthersConcat(Others(rows, s), [saved], s);
    OneRow(saved, s);
    assert Others(rows, s) + [] == Others(rows, s);
  }

  /** A live, current-protocol reservation that is parked or was resumed from a park. */
  ghost predicate Resumable(d: Dir, procs: Processes, s: string) {
    s in d.records && d.records[s].session == s && OncePaused(procs, d.records[s])
  }

  ghost predicate ByOwner(d: Dir, s: string, who: Option<int>) {
    s in d.records && (who.None? || who.value == d.records[s].pid)
  }

  lemma {:induction false} ReconcileProjects(d: Dir, procs: Processes, s: string, who: Option<int>)
    requires Resumable(d, procs, s) && ByOwner(d, s, who)
    ensures ReconcilePlan(d, procs, s, who) == ProjectionPlan(d, d.records[s], d.records[s].parked.value)
  {
  }

  /** Reconciling twice is reconciling once; other sessions' rows keep their order; no record changes. */
  lemma {:induction false} ReconcileIsIdempotent(d: Dir, procs: Processes, s: string, who: Option<int>)
    requires Resumable(d, procs, s) && ByOwner(d, s, who) && !ReconcilePlan(d, procs, s, who).outcome.Refused?
    ensures var e := After(d, ReconcilePlan(d, procs, s, who).writes);
            && ReconcilePlan(e, procs, s, who) == Plan([], Done)
            && e == d.(queue := e.queue) && Others(e.queue, s) == Others(d.queue, s)
            && RowsOf(e.queue, s) == (if d.records[s].state == Paused then [] else [d.records[s].parked.value])
  {
    ReconcileProjects(d, procs, s, who);
    ProjectionResult(d, d.records[s], d.records[s].parked.value);
    ReconcileProjects(After(d, ReconcilePlan(d, procs, s, who).writes), procs, s, who);
  }

  // ---- recovery

  /** Nothing visible happened, or reconciling finishes what was begun. */
  ghost predicate AllOrNothing(d: Dir, c: Dir, end: Dir, procs: Processes, s: string, who: Option<int>) {
    SameView(c, d) ||
    (var p := ReconcilePlan(c, procs, s, who); p.outcome.Done? && SameView(After(c, p.writes), end))
  }

  lemma {:induction false} ProjectedStays(procs: Processes, v: Record)
    requires OncePaused(procs, v)
    ensures OncePaused(procs, Projected(v)) && Projected(v).session == v.session && Projected(v).pid == v.pid
  {
  }

  lemma {:induction false} OneWriteOnView(a: Dir, b: Dir, ws: seq<Write>)
    requires SameView(a, b) && |ws| == 1 && ws[0].WriteQueue?
    ensures SameView(After(a, ws), After(b, ws))
  {
    assert ws == [ws[0]];
    AfterOne(a, ws[0]);
    AfterOne(b, ws[0]);
  }

  lemma {:induction false} ProjectionOnView(a: Dir, b: Dir, v: Record, saved: Row)
    requires SameView(a, b)
    ensures ProjectionPlan(a, v, saved) == ProjectionPlan(b, v, saved)
    ensures SameView(After(a, ProjectionPlan(a, v, saved).writes), After(b, ProjectionPlan(a, v, saved).writes))
  {
    var ws := ProjectionPlan(a, v, saved).writes;
    if ws != [] {
      OneWriteOnView(a, b, ws);
    }
  }

  lemma {:induction false} ReconcileDependsOnView(a: Dir, b: Dir, procs: Processes, s: string, who: Option<int>)
    requires SameView(a, b) && Resumable(a, procs, s) && ByOwner(a, s, who)
    ensures ReconcilePlan(a, procs, s, who) == ReconcilePlan(b, procs, s, who)
    ensures SameView(After(a, ReconcilePlan(a, procs, s, who).writes), After(b, ReconcilePlan(b, procs, s, who).writes))
  {
    hide ReconcilePlan;
    ReconcileProjects(a, procs, s, who);
    ReconcileProjects(b, procs, s, who);
    ProjectionOnView(a, b, a.records[s], a.records[s].parked.value);
  }

  lemma {:induction false} SavedThenReconciled(d: Dir, procs: Processes, v: Record, who: Option<int>)
    requires OncePaused(procs, v) && !SaveAndReconcile(d, procs, v).outcome.Refused?
    requires who.None? || who.value == v.pid
    ensures var e := After(d, SavePlan(d, v).writes);
            && SavePlan(d, v).outcome.Done? && Resumable(e, procs, v.session) && ByOwner(e, v.session, who)
            && e.records == d.records[v.session := Projected(v)] && e.queue == d.queue && e.holders == d.holders
            && SaveAndReconcile(d, procs, v).writes == SavePlan(d, v).writes
               + ReconcilePlan(e, procs, v.session, who).writes
            && !ReconcilePlan(e, procs, v.session, who).outcome.Refused?
            && SaveAndReconcile(d, procs, v).outcome.Done?
  {
    var ws := SavePlan(d, v).writes;
    assert ws[..|ws|] == ws;
    SavePrefix(d, v, |ws|);
    ProjectedStays(procs, v);
    var e := After(d, ws);
    ReconcileProjects(e, procs, v.session, who);
    ReconcileProjects(e, procs, v.session, Some(v.pid));
  }

  /** The common core: saving a once-parked record, projecting it, then only quiet writes. */
  lemma {:induction false} SaveReconcileRecovers(d: Dir, procs: Processes, v: Record, tail: seq<Write>, n: nat,
                                                 who: Option<int>)
    requires OncePaused(procs, v) && !SaveAndReconcile(d, procs, v).outcome.Refused? && AllQuiet(tail)
    requires (who.None? || who.value == v.pid) && n <= |SaveAndReconcile(d, procs, v).writes| + |tail|
    ensures var ws := SaveAndReconcile(d, procs, v).writes + tail;
            AllOrNothing(d, After(d, ws[..n]), After(d, ws), procs, v.session, who)
  {
    hide SavePlan, ReconcilePlan, SaveAndReconcile, OncePaused, After;
    SavedThenReconciled(d, procs, v, who);
    var save := SavePlan(d, v).writes;
    var e := After(d, save);
    var rec := ReconcilePlan(e, procs, v.session, who).writes;
    AtMostOneWrite(e, procs, v.session, who);
    ThreeParts(d, save, rec, tail, n);
    QuietKeepsView(After(e, rec), tail);
    if n <= |save| {
      CrashInSave(d, procs, v, n, who);
    } else {
      CrashAfterProjection(e, procs, v.session, tail, n - |save|, who);
    }
  }

  /** Three steps, the middle one of at most one write: a prefix ends in the first or in the last. */
  lemma {:induction false} ThreeParts(d: Dir, a: seq<Write>, b: seq<Write>, t: seq<Write>, n: nat)
    requires |b| <= 1 && n <= |a + b| + |t|
    ensures After(d, a + b + t) == After(After(After(d, a), b), t)
    ensures n <= |a| ==> After(d, (a + b + t)[..n]) == After(d, a[..n])
    ensures n > |a| ==>
              && |b| <= n - |a| <= |b| + |t|
              && After(d, (a + b + t)[..n]) == After(After(After(d, a), b), t[..n - |a| - |b|])
  {
    hide After;
    AfterConcat(d, a, b);
    AfterConcat(d, a + b, t);
    PrefixOfTwo(d, a + b, t, n);
    if n <= |a| {
      PrefixOfTwo(d, a, b, n);
    }
  }

  lemma {:induction false} CrashInSave(d: Dir, procs: Processes, v: Record, n: nat, who: Option<int>)
    requires OncePaused(procs, v) && !SaveAndReconcile(d, procs, v).outcome.Refused?
    requires who.None? || who.value == v.pid
    requires n <= |SavePlan(d, v).writes|
    ensures SavePlan(d, v).outcome.Done?
    ensures var e := After(d, SavePlan(d, v).writes);
            AllOrNothing(d, After(d, SavePlan(d, v).writes[..n]),
                         After(e, ReconcilePlan(e, procs, v.session, who).writes), procs, v.session, who)
  {
    hide SavePlan, ReconcilePlan, ProjectionPlan, SaveAndReconcile;
    SavedThenReconciled(d, procs, v, who);
    SavePrefix(d, v, n);
    var e, c := After(d, SavePlan(d, v).writes), After(d, SavePlan(d, v).writes[..n]);
    ReconcileIsIdempotent(e, procs, v.session, who);
    ReconcileProjects(e, procs, v.session, who);
    ProjectionResult(e, e.records[v.session], e.records[v.session].parked.value);
    if c.records != d.records {
      ReconcileDependsOnView(e, c, procs, v.session, who);
    }
  }

  /** Once the projection is written, or was not needed, what follows is quiet and reconcile finds nothing to do. */
  lemma {:induction false} CrashAfterProjection(e: Dir, procs: Processes, s: string, tail: seq<Write>, n: nat,
                                                who: Option<int>)
    requires Resumable(e, procs, s) && ByOwner(e, s, who) && !ReconcilePlan(e, procs, s, who).outcome.Refused?
    requires AllQuiet(tail)
    requires var rec := ReconcilePlan(e, procs, s, who).writes; |rec| <= n <= |rec| + |tail|
    ensures var rec := ReconcilePlan(e, procs, s, who).writes;
            var f, c := After(e, rec), After(After(e, rec), tail[..n - |rec|]);
            ReconcilePlan(c, procs, s, who) == Plan([], Done) && SameView(After(c, []), f)
  {
    var rec := ReconcilePlan(e, procs, s, who).writes;
    var f := After(e, rec);
    ReconcileIsIdempotent(e, procs, s, who);
    QuietPrefix(tail, n - |rec|);
    QuietKeepsView(f, tail[..n - |rec|]);
    SettledStays(f, After(f, tail[..n - |rec|]), procs, s, who);
  }

  lemma {:induction false} AtMostOneWrite(e: Dir, procs: Processes, s: string, who: Option<int>)
    requires Resumable(e, procs, s) && ByOwner(e, s, who)
    ensures |ReconcilePlan(e, procs, s, who).writes| <= 1
  {
    ReconcileProjects(e, procs, s, who);
  }

  lemma {:induction false} SettledStays(f: Dir, c: Dir, procs: Processes, s: string, who: Option<int>)
    requires SameView(f, c) && Resumable(f, procs, s) && ByOwner(f, s, who)
    requires ReconcilePlan(f, procs, s, who) == Plan([], Done)
    ensures ReconcilePlan(c, procs, s, who) == Plan([], Done) && After(c, []) == c
  {
    ReconcileDependsOnView(f, c, procs, s, who);
  }

  /** The session's row, where it is its record's row, was enqueued when the record says. */
  ghost predicate RowsMatch(d: Dir) {
    forall r :: r in d.queue && r.session in d.records && d.records[r.session].ticket == r.ticket ==>
      d.records[r.session].enqueued == r.enqueued
  }

  ghost predicate KeysMatch(d: Dir) {
    forall s :: s in d.records ==> d.records[s].session == s
  }

  lemma {:induction false} InspectedIsCurrent(d: Dir, procs: Processes, s: string)
    requires Inspect(d, procs, s).Ok?
    ensures var v := Inspect(d, procs, s).value.value;
            s in d.records && v == d.records[s] && Live(procs, v) && (v.state == Queued || v.state == Paused)
  {
  }

  lemma {:induction false} PausedIsOncePaused(d: Dir, procs: Processes, s: string, reason: string)
    requires KeysMatch(d) && RowsMatch(d) && Owned(d, procs, s).Ok? && QueuedRow(d, s).Ok?
    requires Owned(d, procs, s).value.state == Queued
    ensures OncePaused(procs, PausedRecord(Owned(d, procs, s).value, QueuedRow(d, s).value, reason))
  {
    InspectedIsCurrent(d, procs, s);
    var v, row := Owned(d, procs, s).value, QueuedRow(d, s).value;
    assert row == RowsOf(d.queue, s)[0];
    RowMember(d.queue, s, row);
    if OncePaused(procs, v) {
      assert Identity(row) == Identity(v.parked.value);
    } else {
      assert v.ticket == row.ticket && v.pid == row.pid;
    }
  }

  lemma {:induction false} TailIsQuiet(d: Dir, s: string)
    ensures AllQuiet(PauseTail(d, s).writes)
  {
  }

  /** From a crash after any write of a pause: nothing happened, or reconcile completes the pause. */
  lemma {:induction false} PauseRecovers(d: Dir, procs: Processes, s: string, reason: string, expected: Option<nat>,
                                         n: nat, who: Option<int>)
    requires KeysMatch(d) && RowsMatch(d) && PausePlan(d, procs, s, reason, expected).outcome.Done?
    requires n <= |PausePlan(d, procs, s, reason, expected).writes| && ByOwner(d, s, who)
    ensures var ws := PausePlan(d, procs, s, reason, expected).writes;
            AllOrNothing(d, After(d, ws[..n]), After(d, ws), procs, s, who)
  {
    InspectedIsCurrent(d, procs, s);
    var v := Owned(d, procs, s).value;
    if v.state == Paused {
      ReconcileRecovers(d, procs, s, n, who);
    } else {
      var row := QueuedRow(d, s).value;
      PausedIsOncePaused(d, procs, s, reason);
      TailIsQuiet(d, s);
      SaveReconcileRecovers(d, procs, PausedRecord(v, row, reason), PauseTail(d, s).writes, n, who);
    }
  }

  /** The upgrade of an earlier controller's pause is a save followed by the same projection. */
  lemma {:induction false} UpgradeIsSave(d: Dir, procs: Processes, s: string, who: Option<int>)
    requires KeysMatch(d) && s in d.records && d.records[s].supported && Live(procs, d.records[s])
    requires ParkedRow(d.records[s]).None? && Upgradable(d, d.records[s]) && ByOwner(d, s, who)
    requires !ReconcilePlan(d, procs, s, who).outcome.Refused?
    ensures OncePaused(procs, Upgraded(d, d.records[s]))
    ensures ReconcilePlan(d, procs, s, who) == SaveAndReconcile(d, procs, Upgraded(d, d.records[s]))
  {
    var v := d.records[s];
    var u := Upgraded(d, v);
    RowMember(d.queue, s, RowsOf(d.queue, s)[0]);
    var ws := SavePlan(d, u).writes;
    assert ws[..|ws|] == ws;
    SavePrefix(d, u, |ws|);
    ProjectedStays(procs, u);
    ReconcileProjects(After(d, ws), procs, s, Some(u.pid));
    assert Projected(u) == u;
  }

  lemma {:induction false} DoneIsParkedOrUpgraded(d: Dir, procs: Processes, s: string)
    requires s in d.records && ReconcilePlan(d, procs, s, Some(d.records[s].pid)).outcome.Done?
    ensures d.records[s].supported && Live(procs, d.records[s])
    ensures d.records[s].state == Queued || d.records[s].state == Paused
    ensures ParkedRow(d.records[s]).None? ==> Upgradable(d, d.records[s])
  {
    hide SavePlan, ProjectionPlan;
  }

  /** A projection is at most one write, so a crash is before or behind all of it. */
  lemma {:induction false} ProjectionRecovers(d: Dir, procs: Processes, s: string, n: nat, owner: Option<int>,
                                              who: Option<int>)
    requires Resumable(d, procs, s) && ByOwner(d, s, who) && ByOwner(d, s, owner)
    requires ReconcilePlan(d, procs, s, owner).outcome.Done?
    requires n <= |ReconcilePlan(d, procs, s, owner).writes|
    ensures var ws := ReconcilePlan(d, procs, s, owner).writes; AllOrNothing(d, After(d, ws[..n]), After(d, ws), procs,
        s, who)
  {
    hide ReconcilePlan, ProjectionPlan;
    var ws := ReconcilePlan(d, procs, s, owner).writes;
    ReconcileProjects(d, procs, s, owner);
    ReconcileProjects(d, procs, s, who);
    AtMostOneWrite(d, procs, s, owner);
    ReconcileIsIdempotent(d, procs, s, who);
    if n == 0 {
      assert ws[..0] == [];
    } else {
      assert ws[..n] == ws;
      SettledStays(After(d, ws), After(d, ws), procs, s, who);
    }
  }

  /** From a crash after any write of reconcile itself, reconciling again completes it. */
  lemma {:induction false} ReconcileRecovers(d: Dir, procs: Processes, s: string, n: nat, who: Option<int>)
    requires KeysMatch(d) && ByOwner(d, s, who) && ReconcilePlan(d, procs, s, Some(d.records[s].pid)).outcome.Done?
    requires n <= |ReconcilePlan(d, procs, s, Some(d.records[s].pid)).writes|
    ensures var ws := ReconcilePlan(d, procs, s, Some(d.records[s].pid)).writes;
            AllOrNothing(d, After(d, ws[..n]), After(d, ws), procs, s, who)
  {
    hide ReconcilePlan, AllOrNothing, SaveAndReconcile;
    var owner := Some(d.records[s].pid);
    DoneIsParkedOrUpgraded(d, procs, s);
    if ParkedRow(d.records[s]).Some? {
      ProjectionRecovers(d, procs, s, n, owner, who);
    } else {
      var ws := ReconcilePlan(d, procs, s, owner).writes;
      UpgradeIsSave(d, procs, s, owner);
      SaveReconcileRecovers(d, procs, Upgraded(d, d.records[s]), [], n, who);
      assert ws + [] == ws;
    }
  }

  /** From a crash after any write of a resume: still parked, or reconcile completes the resume. */
  lemma {:induction false} ResumeRecovers(d: Dir, procs: Processes, s: string, original: Record, n: nat,
                                          who: Option<int>)
    requires KeysMatch(d) && ResumeCommit(d, procs, s, original).outcome.Done?
    requires original.state == Paused && ParkedRow(original).Some?
    requires n <= |ResumeCommit(d, procs, s, original).writes| && ByOwner(d, s, who)
    ensures var ws := ResumeCommit(d, procs, s, original).writes;
            AllOrNothing(d, After(d, ws[..n]), After(d, ws), procs, s, who)
  {
    InspectedIsCurrent(d, procs, s);
    SaveReconcileRecovers(d, procs, ResumedRecord(original), [], n, who);
    assert ResumeCommit(d, procs, s, original).writes + [] == ResumeCommit(d, procs, s, original).writes;
  }

  /** The rows are the same as a collection, those of other sessions in the same order, and so are the records. */
  ghost predicate SameRowSet(a: Dir, b: Dir, s: string) {
    a.records == b.records && a.holders == b.holders && multiset(a.queue) == multiset(b.queue)
    && Others(a.queue, s) == Others(b.queue, s)
  }

  /** From a crash after any write of an edit of a once-parked ticket. */
  lemma {:induction false} EditRecovers(d: Dir, procs: Processes, s: string, original: Record, change: Change, n: nat,
                                        who: Option<int>)
    requires KeysMatch(d) && ParkedRow(original).Some? && original.supported && Changed(original, change).Ok?
    requires EditCommit(d, procs, s, original, Changed(original, change).value).outcome.Done?
    requires n <= |EditCommit(d, procs, s, original, Changed(original, change).value).writes| && ByOwner(d, s, who)
    ensures var ws := EditCommit(d, procs, s, original, Changed(original, change).value).writes;
            var c, end := After(d, ws[..n]), After(d, ws);
            SameView(c, d) ||
            (var p := ReconcilePlan(c, procs, s, who); p.outcome.Done? && SameRowSet(After(c, p.writes), end, s))
  {
    hide Inspect, SavePlan, ReconcilePlan, SaveAndReconcile, OncePaused;
    InspectedIsCurrent(d, procs, s);
    var v := EditedRecord(original, Changed(original, change).value);
    EditStaysOncePaused(d, procs, s, original, change);
    if !Inspect(d, procs, s).value.projected {
      SaveReconcileRecovers(d, procs, v, [], n, who);
      assert SaveAndReconcile(d, procs, v).writes + [] == SaveAndReconcile(d, procs, v).writes;
    } else {
      SaveEnds(d, v);
      ProjectedEditRecovers(d, procs, s, v, n, who);
    }
  }

  lemma {:induction false} EditStaysOncePaused(d: Dir, procs: Processes, s: string, original: Record, change: Change)
    requires KeysMatch(d) && ParkedRow(original).Some? && original.supported && Changed(original, change).Ok?
    requires Inspect(d, procs, s).Ok? && Inspect(d, procs, s).value.value == original
    ensures var v := EditedRecord(original, Changed(original, change).value);
            && OncePaused(procs, v) && v.session == s && v.pid == original.pid
            && (Inspect(d, procs, s).value.projected ==>
                  v.state == Queued && |RowsOf(d.queue, s)| == 1
                  && Identity(RowsOf(d.queue, s)[0]) == Identity(v.parked.value))
  {
  }

  /** An edit in place of a resumed ticket: reconcile may move its row to the end, and changes nothing else. */
  lemma {:induction false} ProjectedEditRecovers(d: Dir, procs: Processes, s: string, v: Record, n: nat,
                                                 who: Option<int>)
    requires KeysMatch(d) && s in d.records && v.session == s && OncePaused(procs, v) && v.state == Queued
    requires who.None? || who.value == v.pid
    requires SavePlan(d, v).outcome.Done? && |RowsOf(d.queue, s)| == 1
    requires Identity(RowsOf(d.queue, s)[0]) == Identity(v.parked.value)
    requires n <= |SavePlan(d, v).writes| + 1
    ensures var ws := SavePlan(d, v).writes + [WriteQueue(ReplaceRow(d.queue, s, v.estimate, v.note))];
            var c, end := After(d, ws[..n]), After(d, ws);
            SameView(c, d) ||
            (var p := ReconcilePlan(c, procs, s, who); p.outcome.Done? && SameRowSet(After(c, p.writes), end, s))
  {
    hide SavePlan, ReconcilePlan, AllQuiet;
    var save, q := SavePlan(d, v).writes, WriteQueue(ReplaceRow(d.queue, s, v.estimate, v.note));
    var e := After(d, save);
    assert save[..|save|] == save;
    SavePrefix(d, v, |save|);
    PrefixOfTwo(d, save, [q], n);
    PrefixOfTwo(d, save, [q], |save| + 1);
    assert (save + [q])[..|save| + 1] == save + [q] && [q][..1] == [q];
    AfterOne(e, q);
    EditedRows(d, s, v);
    if n <= |save| {
      SavePrefix(d, v, n);
      if After(d, save[..n]).records != d.records {
        EditCrashRecovers(d, After(d, save[..n]), Apply(e, q), procs, s, v, who);
      }
    } else {
      EditIsSettled(Apply(e, q), procs, s, v, who);
    }
  }

  /** The edited row is the record's saved row. */
  lemma {:induction false} EditedRows(d: Dir, s: string, v: Record)
    requires v.session == s && ParkedRow(v).Some? && |RowsOf(d.queue, s)| == 1
    requires Identity(RowsOf(d.queue, s)[0]) == Identity(v.parked.value)
    ensures var rows := ReplaceRow(d.queue, s, v.estimate, v.note);
            RowsOf(rows, s) == [Projected(v).parked.value] && Others(rows, s) == Others(d.queue, s)
  {
    ReplacedRows(d.queue, s, v.estimate, v.note);
    assert ReplaceRow(RowsOf(d.queue, s), s, v.estimate, v.note) == [Projected(v).parked.value];
  }

  /** Between the record and the row: reconcile brings the same collection of rows. */
  lemma {:induction false} EditCrashRecovers(d: Dir, c: Dir, end: Dir, procs: Processes, s: string, v: Record,
                                             who: Option<int>)
    requires v.session == s && OncePaused(procs, v) && v.state == Queued && (who.None? || who.value == v.pid)
    requires |RowsOf(d.queue, s)| == 1 && Identity(RowsOf(d.queue, s)[0]) == Identity(v.parked.value)
    requires c.records == d.records[s := Projected(v)] && c.queue == d.queue && c.holders == d.holders
    requires end.records == c.records && end.holders == c.holders
    requires RowsOf(end.queue, s) == [Projected(v).parked.value] && Others(end.queue, s) == Others(d.queue, s)
    ensures var p := ReconcilePlan(c, procs, s, who); p.outcome.Done? && SameRowSet(After(c, p.writes), end, s)
  {
    hide ReconcilePlan;
    var saved := Projected(v).parked.value;
    ProjectedStays(procs, v);
    ReconcileProjects(c, procs, s, who);
    ProjectionResult(c, c.records[s], saved);
    RowsSplit(After(c, ReconcilePlan(c, procs, s, who).writes).queue, s);
    RowsSplit(end.queue, s);
  }

  /** After the row: nothing is left to do. */
  lemma {:induction false} EditIsSettled(end: Dir, procs: Processes, s: string, v: Record, who: Option<int>)
    requires v.session == s && OncePaused(procs, v) && v.state == Queued && (who.None? || who.value == v.pid)
    requires s in end.records && end.records[s] == Projected(v) && RowsOf(end.queue, s) == [Projected(v).parked.value]
    ensures var p := ReconcilePlan(end, procs, s, who); p.outcome.Done? && SameRowSet(After(end, p.writes), end, s)
  {
    hide ReconcilePlan;
    ProjectedStays(procs, v);
    ReconcileProjects(end, procs, s, who);
  }

  // ---- the offer and the priority marks

  predicate KeepsMarks(w: Write) {
    !w.WriteDebt? && !w.ClearFront? && !w.ClearYield?
  }

  ghost predicate SameMarks(a: Dir, b: Dir) {
    a.debtTarget == b.debtTarget && a.front == b.front && a.yielded == b.yielded
  }

  lemma {:induction false} MarksKept(d: Dir, ws: seq<Write>)
    requires NoMarks(ws)
    ensures SameMarks(After(d, ws), d)
  {
    if ws != [] {
      assert ws[|ws| - 1] in ws;
      MarksKept(d, ws[..|ws| - 1]);
    }
  }

  ghost predicate NoMarks(ws: seq<Write>) {
    forall w :: w in ws ==> KeepsMarks(w)
  }

  lemma {:induction false} SaveWritesNoMarks(d: Dir, v: Record)
    ensures NoMarks(SavePlan(d, v).writes)
  {
  }

  lemma {:induction false} ProjectionWritesNoMarks(d: Dir, v: Record, saved: Row)
    ensures NoMarks(ProjectionPlan(d, v, saved).writes)
  {
  }

  lemma {:induction false} ReconcileWritesNoMarks(d: Dir, procs: Processes, session: string, pid: Option<int>)
    ensures NoMarks(ReconcilePlan(d, procs, session, pid).writes)
  {
    if session in d.records {
      var v := d.records[session];
      if ParkedRow(v).Some? {
        ProjectionWritesNoMarks(d, v, v.parked.value);
      } else if Upgradable(d, v) {
        var u := Upgraded(d, v);
        SaveWritesNoMarks(d, u);
        ProjectionWritesNoMarks(d, u, u.parked.value);
      }
    }
  }

  lemma {:induction false} SaveReconcileKeepsMarks(d: Dir, procs: Processes, v: Record)
    ensures SameMarks(After(d, SaveAndReconcile(d, procs, v).writes), d)
  {
    SaveWritesNoMarks(d, v);
    ReconcileWritesNoMarks(After(d, SavePlan(d, v).writes), procs, v.session, Some(v.pid));
    MarksKept(d, SaveAndReconcile(d, procs, v).writes);
  }
}
