/**
 Where a reconcile after a crash does less than the uninterrupted operation: the place of an edited row, and
 priority marks.
 */
module RecoveryLimits {
  import opened Wrappers
  import opened Reservation
  import opened Recovery

  // ---- the place of an edited row

  lemma {:induction false} NoRowsOf(rows: seq<Row>, s: string)
    requires RowsOf(rows, s) == []
    ensures Others(rows, s) == rows && forall r :: r in rows ==> r.session != s
  {
    if rows != [] {
      NoRowsOf(rows[1..], s);
    }
  }

  /** Moving the session's one row to the end is replacing it where it is, exactly if it is the last row. */
  lemma {:induction false} MovedOrReplaced(rows: seq<Row>, s: string, saved: Row, estimate: int, note: Field)
    requires |RowsOf(rows, s)| == 1 && RowsOf(ReplaceRow(rows, s, estimate, note), s) == [saved]
    ensures rows != []
    ensures Others(rows, s) + [saved] == ReplaceRow(rows, s, estimate, note) <==> rows[|rows| - 1].session == s
  {
    hide RowsOf, Others;
    assert rows != [] by { NoRows(s); }
    var k, edited := |rows| - 1, ReplaceRow(rows, s, estimate, note);
    RowMember(edited, s, saved);
    if Others(rows, s) + [saved] == edited {
      assert edited[k] == saved;
    }
    if rows[k].session == s {
      assert rows == rows[..k] + [rows[k]];
      LastReplaced(rows[..k], rows[k], s, saved, estimate, note);
    }
  }

  lemma {:induction false} NoRows(s: string)
    ensures RowsOf([], s) == []
  {
  }

  lemma {:induction false} LastReplaced(front: seq<Row>, last: Row, s: string, saved: Row, estimate: int, note: Field)
    requires last.session == s && |RowsOf(front + [last], s)| == 1
    requires RowsOf(ReplaceRow(front + [last], s, estimate, note), s) == [saved]
    ensures Others(front + [last], s) + [saved] == ReplaceRow(front + [last], s, estimate, note)
  {
    hide RowsOf, Others;
    var edited := last.(estimate := estimate, note := note);
    OthersConcat(front, [last], s);
    OneRow(last, s);
    NoRowsOf(front, s);
    assert ReplaceRow(front + [last], s, estimate, note) == front + [edited];
    LastOfOne(front, edited, s, saved);
  }

  lemma {:induction false} LastOfOne(front: seq<Row>, last: Row, s: string, saved: Row)
    requires RowsOf(front, s) == [] && last.session == s && RowsOf(front + [last], s) == [saved]
    ensures last == saved
  {
    RowsOfConcat(front, [last], s);
    OneRow(last, s);
    assert RowsOf(front + [last], s) == [last];
    assert [last][0] == [saved][0];
  }

  /** An edit's row keeps its place through a crash: it is not in the queue, does not change, or is the last one. */
  predicate KeepsPlace(d: Dir, procs: Processes, v: Record) {
    var s := v.session;
    Inspect(d, procs, s).Ok? && ParkedRow(v).Some? &&
    (!Inspect(d, procs, s).value.projected || RowsOf(d.queue, s) == [Projected(v).parked.value]
     || (d.queue != [] && d.queue[|d.queue| - 1].session == s))
  }

  /**
   After a crash behind the record of an edit of a once-parked ticket, reconcile brings the queue of the
   uninterrupted edit, order included, if and only if the edit was finished or its row keeps its place.
   */
  lemma {:induction false} EditOrderRecovers(d: Dir, procs: Processes, s: string, original: Record, change: Change,
                                             n: nat,
                                             who: Option<int>)
    requires KeysMatch(d) && ParkedRow(original).Some? && original.supported && Changed(original, change).Ok?
    requires EditCommit(d, procs, s, original, Changed(original, change).value).outcome.Done?
    requires n <= |EditCommit(d, procs, s, original, Changed(original, change).value).writes| && ByOwner(d, s, who)
    ensures var v := EditedRecord(original, Changed(original, change).value);
            var ws := EditCommit(d, procs, s, original, Changed(original, change).value).writes;
            var c, end := After(d, ws[..n]), After(d, ws);
            c.records != d.records ==>
              (After(c, ReconcilePlan(c, procs, s, who).writes).queue == end.queue <==>
               n == |ws| || KeepsPlace(d, procs, v))
  {
    hide Inspect, SavePlan, ReconcilePlan, SaveAndReconcile, OncePaused;
    InspectedIsCurrent(d, procs, s);
    var v := EditedRecord(original, Changed(original, change).value);
    EditStaysOncePaused(d, procs, s, original, change);
    if !Inspect(d, procs, s).value.projected {
      SaveReconcileRecovers(d, procs, v, [], n, who);
      assert SaveAndReconcile(d, procs, v).writes + [] == SaveAndReconcile(d, procs, v).writes;
    } else {
      SaveEnds(d, v);
      PlaceRecovers(d, procs, s, v, n, who);
    }
  }

  lemma {:induction false} PlaceRecovers(d: Dir, procs: Processes, s: string, v: Record, n: nat, who: Option<int>)
    requires KeysMatch(d) && s in d.records && v.session == s && OncePaused(procs, v) && v.state == Queued
    requires who.None? || who.value == v.pid
    requires SavePlan(d, v).outcome.Done? && |RowsOf(d.queue, s)| == 1
    requires Identity(RowsOf(d.queue, s)[0]) == Identity(v.parked.value)
    requires n <= |SavePlan(d, v).writes| + 1
    ensures var ws := SavePlan(d, v).writes + [WriteQueue(ReplaceRow(d.queue, s, v.estimate, v.note))];
            var c, end := After(d, ws[..n]), After(d, ws);
            var saved := Projected(v).parked.value;
            c.records != d.records ==>
              (After(c, ReconcilePlan(c, procs, s, who).writes).queue == end.queue <==>
                 n == |ws| || RowsOf(d.queue, s) == [saved] || (d.queue != [] && d.queue[|d.queue| - 1].session == s))
  {
    hide SavePlan, ReconcilePlan, AllQuiet, Identity, ReplaceRow;
    var save, q := SavePlan(d, v).writes, WriteQueue(ReplaceRow(d.queue, s, v.estimate, v.note));
    var e := After(d, save);
    assert save[..|save|] == save;
    SavePrefix(d, v, |save|);
    PrefixOfTwo(d, save, [q], n);
    PrefixOfTwo(d, save, [q], |save| + 1);
    assert (save + [q])[..|save| + 1] == save + [q] && [q][..1] == [q];
    AfterOne(e, q);
    EditedRows(d, s, v);
    if n <= |save| {
      SavePrefix(d, v, n);
      if After(d, save[..n]).records != d.records {
        BehindRecord(d, After(d, save[..n]), procs, s, v, who);
      }
    } else {
      ProjectedStays(procs, v);
      ReconcileProjects(Apply(e, q), procs, s, who);
    }
  }

  /** Between the record and the row. */
  lemma {:induction false} BehindRecord(d: Dir, c: Dir, procs: Processes, s: string, v: Record, who: Option<int>)
    requires v.session == s && OncePaused(procs, v) && v.state == Queued && (who.None? || who.value == v.pid)
    requires |RowsOf(d.queue, s)| == 1 && Identity(RowsOf(d.queue, s)[0]) == Identity(v.parked.value)
    requires c.records == d.records[s := Projected(v)] && c.queue == d.queue
    ensures var saved, edited := Projected(v).parked.value, ReplaceRow(d.queue, s, v.estimate, v.note);
            After(c, ReconcilePlan(c, procs, s, who).writes).queue == edited <==>
            RowsOf(d.queue, s) == [saved] || (d.queue != [] && d.queue[|d.queue| - 1].session == s)
  {
    hide ReconcilePlan, ReplaceRow;
    var saved := Projected(v).parked.value;
    ProjectedStays(procs, v);
    ReconcileProjects(c, procs, s, who);
    EditedRows(d, s, v);
    if RowsOf(d.queue, s) == [saved] {
      SameRowStays(d.queue, s, saved, v.estimate, v.note);
    } else {
      var w := WriteQueue(Others(d.queue, s) + [saved]);
      assert ReconcilePlan(c, procs, s, who).writes == [w];
      AfterOne(c, w);
      MovedOrReplaced(d.queue, s, saved, v.estimate, v.note);
    }
  }

  lemma {:induction false} SameRowStays(rows: seq<Row>, s: string, saved: Row, estimate: int, note: Field)
    requires RowsOf(rows, s) == [saved] && saved.estimate == estimate && saved.note == note
    ensures ReplaceRow(rows, s, estimate, note) == rows
  {
    forall i | 0 <= i < |rows| ensures ReplaceRow(rows, s, estimate, note)[i] == rows[i] {
      RowMember(rows, s, rows[i]);
    }
  }

  // ---- an edited row that moves

  const SAVED := Row("1", "a", "0", 30, "", "boot", 7)
  const RESUMED := Record("a", "1", "0", 7, "t", true, Queued, 3, ["run"], "/", 30, "", "boot", None, false,
                          Some(SAVED), "", [])
  const BEHIND := Row("2", "b", "0", 30, "", "boot", 8)
  const TWO_ROWS := Dir(map["a" := RESUMED], map[], map[], [], [SAVED, BEHIND], map[], None, "", "")
  const LONGER := Change(None, None, Some(40), None, None)

  /** A resumed ticket before another one, edited to a new estimate, with a crash before its row is rewritten. */
  lemma {:induction false} EditedRowMovesBack()
    ensures var procs := map[7 := "t"];
            var plan := EditCommit(TWO_ROWS, procs, "a", RESUMED, Changed(RESUMED, LONGER).value);
            && plan.outcome.Done? && |plan.writes| == 4
            && After(TWO_ROWS, plan.writes).queue == [SAVED.(estimate := 40), BEHIND]
            && var c := After(TWO_ROWS, plan.writes[..3]);
               After(c, ReconcilePlan(c, procs, "a", None).writes).queue == [BEHIND, SAVED.(estimate := 40)]
  {
    hide SavePlan, ReconcilePlan, ReplaceRow, RowsOf, Others, After;
    var d, procs := TWO_ROWS, map[7 := "t"];
    var v := EditedRecord(RESUMED, RESUMED.(estimate := 40));
    ExampleInspect();
    ExampleSave(v);
    var save, edited := SavePlan(d, v).writes, WriteQueue(ReplaceRow(d.queue, "a", 40, ""));
    var plan := EditCommit(d, procs, "a", RESUMED, Changed(RESUMED, LONGER).value);
    assert plan.writes == save + [edited];
    assert plan.writes[..3] == save && save[..3] == save;
    SavePrefix(d, v, 3);
    AfterConcat(d, save, [edited]);
    AfterOne(After(d, save), edited);
    assert edited.rows == [SAVED.(estimate := 40), BEHIND];
    ExampleReconcile(After(d, save), procs, v);
  }

  lemma {:induction false} ExampleInspect()
    ensures Inspect(TWO_ROWS, map[7 := "t"], "a") == Ok(Inspected(RESUMED, true))
    ensures Changed(RESUMED, LONGER) == Ok(RESUMED.(estimate := 40))
  {
    ExampleRows();
  }

  lemma {:induction false} ExampleRows()
    ensures RowsOf([SAVED, BEHIND], "a") == [SAVED] && Others([SAVED, BEHIND], "a") == [BEHIND]
  {
    assert [SAVED, BEHIND] == [SAVED] + [BEHIND];
    OthersConcat([SAVED], [BEHIND], "a");
    OneRow(SAVED, "a");
    OneRow(BEHIND, "a");
  }

  lemma {:induction false} ExampleSave(v: Record)
    requires v == EditedRecord(RESUMED, RESUMED.(estimate := 40))
    ensures SavePlan(TWO_ROWS, v).outcome.Done? && |SavePlan(TWO_ROWS, v).writes| == 3
  {
  }

  lemma {:induction false} ExampleReconcile(c: Dir, procs: Processes, v: Record)
    requires v == EditedRecord(RESUMED, RESUMED.(estimate := 40)) && procs == map[7 := "t"]
    requires "a" in c.records && c.records["a"] == Projected(v) && c.queue == [SAVED, BEHIND]
    ensures After(c, ReconcilePlan(c, procs, "a", None).writes).queue == [BEHIND, SAVED.(estimate := 40)]
  {
    ExampleRows();
    ReconcileProjects(c, procs, "a", None);
    assert Projected(v).parked.value == SAVED.(estimate := 40);
    var w := WriteQueue([BEHIND, SAVED.(estimate := 40)]);
    assert Others(c.queue, "a") + [SAVED.(estimate := 40)] == w.rows;
    assert ReconcilePlan(c, procs, "a", None).writes == [w];
    AfterOne(c, w);
  }

  // ---- the marks that a pause withdraws

  /** The donor's offer or a priority mark names the session. */
  predicate Marked(d: Dir, s: string) {
    d.debtTarget == Some(s) || d.front == s || d.yielded == s
  }

  predicate OnlyUnmarks(w: Write) {
    KeepsMarks(w) || w == WriteDebt(None) || w.ClearFront? || w.ClearYield?
  }

  lemma {:induction false} UnmarkedAfter(d: Dir, ws: seq<Write>)
    requires forall w :: w in ws ==> OnlyUnmarks(w)
    ensures After(d, ws).debtTarget == if WriteDebt(None) in ws then None else d.debtTarget
    ensures After(d, ws).front == if ClearFront in ws then "" else d.front
    ensures After(d, ws).yielded == if ClearYield in ws then "" else d.yielded
  {
    hide OnlyUnmarks, Apply;
    if ws != [] {
      var rest, last := ws[..|ws| - 1], ws[|ws| - 1];
      assert forall w :: w in ws <==> w in rest || w == last;
      UnmarkedAfter(d, rest);
      OneUnmarks(After(d, rest), last);
    }
  }

  lemma {:induction false} OneUnmarks(d: Dir, w: Write)
    requires OnlyUnmarks(w)
    ensures Apply(d, w).debtTarget == if w == WriteDebt(None) then None else d.debtTarget
    ensures Apply(d, w).front == if w == ClearFront then "" else d.front
    ensures Apply(d, w).yielded == if w == ClearYield then "" else d.yielded
  {
  }

  lemma {:induction false} ReconcileKeepsMarked(d: Dir, procs: Processes, s: string, who: Option<int>)
    ensures Marked(After(d, ReconcilePlan(d, procs, s, who).writes), s) <==> Marked(d, s)
  {
    ReconcileWritesNoMarks(d, procs, s, who);
    OtherWritesKeepMarked(d, s, ReconcilePlan(d, procs, s, who).writes);
  }

  /** Replacements that leave the marks, and then a part of the pause's tail. */
  lemma {:induction false} TailMarks(d: Dir, s: string, first: seq<Write>, n: nat)
    requires s != "" && NoMarks(first)
    requires n <= |first| + |PauseTail(d, s).writes|
    ensures var ws := first + PauseTail(d, s).writes; Marked(After(d, ws[..n]), s) <==> Marked(d, s) && n < |ws|
  {
    hide After;
    var tail := PauseTail(d, s).writes;
    var ws := first + tail;
    assert forall w :: w in ws[..n] ==> w in ws;
    UnmarkedAfter(d, ws[..n]);
    if n == |ws| {
      assert ws[..n] == ws && forall w :: w in tail ==> w in ws;
    } else if tail != [] {
      NotYet(first, tail, n);
    }
  }

  lemma {:induction false} NotYet(first: seq<Write>, tail: seq<Write>, n: nat)
    requires tail != [] && n < |first| + |tail| && tail[|tail| - 1] !in first
    requires forall i, j :: 0 <= i < j < |tail| ==> tail[i] != tail[j]
    ensures tail[|tail| - 1] !in (first + tail)[..n]
  {
  }

  /**
   A pause withdraws the offer and the marks that name its session last, and reconcile never does: after a crash and
   a reconcile one of them still names it if and only if one did before and the pause was cut short, or there was
   nothing to pause. A session has a name: the shell refuses an empty one.
   */
  lemma {:induction false} PauseMarks(d: Dir, procs: Processes, s: string, reason: string, expected: Option<nat>,
                                      n: nat, who: Option<int>)
    requires KeysMatch(d) && PausePlan(d, procs, s, reason, expected).outcome.Done? && s != ""
    requires n <= |PausePlan(d, procs, s, reason, expected).writes|
    ensures var ws := PausePlan(d, procs, s, reason, expected).writes;
            var c := After(d, ws[..n]);
            Marked(After(c, ReconcilePlan(c, procs, s, who).writes), s) <==>
            Marked(d, s) && (n < |ws| || Owned(d, procs, s).value.state == Paused)
  {
    hide ReconcilePlan, SavePlan, After, PauseTail, Marked;
    InspectedIsCurrent(d, procs, s);
    var v := Owned(d, procs, s).value;
    var ws := PausePlan(d, procs, s, reason, expected).writes;
    ReconcileKeepsMarked(After(d, ws[..n]), procs, s, who);
    if v.state == Paused {
      ReconcileWritesNoMarks(d, procs, s, Some(v.pid));
      assert forall w :: w in ws[..n] ==> w in ws;
      OtherWritesKeepMarked(d, s, ws[..n]);
    } else {
      var paused := PausedRecord(v, QueuedRow(d, s).value, reason);
      SaveWritesNoMarks(d, paused);
      ReconcileWritesNoMarks(After(d, SavePlan(d, paused).writes), procs, s, Some(v.pid));
      TailMarks(d, s, SaveAndReconcile(d, procs, paused).writes, n);
    }
  }

  lemma {:induction false} OtherWritesKeepMarked(d: Dir, s: string, ws: seq<Write>)
    requires NoMarks(ws)
    ensures Marked(After(d, ws), s) <==> Marked(d, s)
  {
    MarksKept(d, ws);
  }
}
