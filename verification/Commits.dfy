/**
 What a finished operation on a reservation leaves, field by field, in its record, its row and the files beside
 them.
 */
module Commits {
  import opened Wrappers
  import opened Reservation
  import opened Recovery
  import opened RecoveryLimits

  /** The queue's rows of other sessions are as they were, and the session's are these. */
  ghost predicate Queues(d: Dir, e: Dir, s: string, rows: seq<Row>) {
    RowsOf(e.queue, s) == rows && Others(e.queue, s) == Others(d.queue, s)
  }

  /** The columns and fields that identify a reservation, and the work that it is for. */
  ghost predicate SameTicketAndWork(a: Record, b: Record) {
    && a.session == b.session && a.ticket == b.ticket && a.enqueued == b.enqueued && a.pid == b.pid
    && a.start == b.start
    && a.command == b.command && a.cwd == b.cwd && a.estimate == b.estimate && a.note == b.note && a.kind == b.kind
    && a.manifest == b.manifest && a.experiment == b.experiment && a.supported == b.supported && a.history == b.history
  }

  lemma {:induction false} WholeSave(d: Dir, v: Record)
    requires SavePlan(d, v).outcome.Done?
    ensures var e := After(d, SavePlan(d, v).writes);
            e.records == d.records[v.session := Projected(v)] && e.queue == d.queue && e.holders == d.holders
  {
    hide SavePlan, After, Projected;
    var ws := SavePlan(d, v).writes;
    assert ws[..|ws|] == ws;
    SavePrefix(d, v, |ws|);
  }

  // ---- save and reconcile

  /** A once-parked record that is saved and reconciled: no row if it is paused, else its saved row. */
  lemma {:induction false} SavedAndProjected(d: Dir, procs: Processes, v: Record)
    requires OncePaused(procs, v) && !SaveAndReconcile(d, procs, v).outcome.Refused?
    ensures SaveAndReconcile(d, procs, v).outcome.Done?
    ensures var e := After(d, SaveAndReconcile(d, procs, v).writes);
            && e.records == d.records[v.session := Projected(v)] && e.holders == d.holders
            && Queues(d, e, v.session, if v.state == Paused then [] else [Projected(v).parked.value])
  {
    hide SavePlan, ReconcilePlan, After, OncePaused, Others, RowsOf;
    SavedThenReconciled(d, procs, v, Some(v.pid));
    var e := After(d, SavePlan(d, v).writes);
    AfterConcat(d, SavePlan(d, v).writes, ReconcilePlan(e, procs, v.session, Some(v.pid)).writes);
    ReconcileIsIdempotent(e, procs, v.session, Some(v.pid));
    ProjectedState(v);
  }

  lemma {:induction false} ProjectedState(v: Record)
    ensures Projected(v).state == v.state
  {
  }

  /** A record without a saved row that is saved and reconciled, and not paused: the queue is left alone. */
  lemma {:induction false} SavedUnparked(d: Dir, procs: Processes, v: Record)
    requires ParkedRow(v).None? && v.state != Paused && !SaveAndReconcile(d, procs, v).outcome.Refused?
    ensures var e := After(d, SaveAndReconcile(d, procs, v).writes);
            e.records == d.records[v.session := v] && e.holders == d.holders && e.queue == d.queue
  {
    hide After;
    var a := SavePlan(d, v).writes;
    SaveEnds(d, v);
    WholeSave(d, v);
    var e := After(d, a);
    assert ReconcilePlan(e, procs, v.session, Some(v.pid)).writes == [];
    assert SaveAndReconcile(d, procs, v).writes == a + [] == a;
  }

  // ---- resume

  lemma {:induction false} ResumeNeedsOriginal(d: Dir, procs: Processes, s: string, original: Record)
    requires KeysMatch(d) && !ResumeCommit(d, procs, s, original).outcome.Refused?
    ensures s in d.records && d.records[s] == original && original.session == s && Live(procs, original)
    ensures original.supported
    ensures original.state == Queued || original.state == Paused
  {
    hide Inspect, SaveAndReconcile;
    InspectedIsCurrent(d, procs, s);
  }

  /**
   A resume that is not refused: the very record that was validated is queued again, one revision on, without a
   reason; everything else in it is as it was, and a saved row is back in the queue with its estimate and note.
   */
  lemma {:induction false} ResumeResumes(d: Dir, procs: Processes, s: string, original: Record)
    requires KeysMatch(d) && original.state == Paused && !ResumeCommit(d, procs, s, original).outcome.Refused?
    ensures var e := After(d, ResumeCommit(d, procs, s, original).writes);
            && s in d.records && d.records[s] == original && s in e.records
            && e.records == d.records[s := e.records[s]] && e.holders == d.holders
            && var v := e.records[s];
            && v.state == Queued && v.revision == original.revision + 1 && v.reason == ""
            && SameTicketAndWork(v, original) && v.history == original.history
            && (ParkedRow(original).Some? ==>
                  var row := original.parked.value.(estimate := original.estimate, note := original.note);
                  v.parked == Some(row) && Queues(d, e, s, [row]))
            && (ParkedRow(original).None? ==> v.parked == original.parked && e.queue == d.queue)
  {
    hide Inspect, SavePlan, ReconcilePlan, After, Queues;
    ResumeNeedsOriginal(d, procs, s, original);
    var v := ResumedRecord(original);
    if ParkedRow(original).Some? {
      SavedAndProjected(d, procs, v);
    } else {
      SavedUnparked(d, procs, v);
    }
  }

  // ---- pause

  /** What a pause that saves leaves: the paused record with its row, no row in the queue, no offer and no mark. */
  ghost predicate PausedFrom(d: Dir, e: Dir, s: string, reason: string) {
    && s in d.records && s in e.records && |RowsOf(d.queue, s)| == 1
    && e.records == d.records[s := e.records[s]] && e.holders == d.holders
    && var was, v := d.records[s], e.records[s];
    && v.state == Paused && v.reason == reason && v.revision == was.revision + 1 && SameTicketAndWork(v, was)
    && v.parked == Some(RowsOf(d.queue, s)[0].(estimate := was.estimate, note := was.note))
    && Queues(d, e, s, [])
    && e.debtTarget == (if d.debtTarget == Some(s) then None else d.debtTarget)
    && e.front == (if d.front == s then "" else d.front)
    && e.yielded == (if d.yielded == s then "" else d.yielded)
  }

  lemma {:induction false} TailApplied(d: Dir, e: Dir, s: string)
    requires SameMarks(e, d)
    ensures var f := After(e, PauseTail(d, s).writes);
            && f.records == e.records && f.queue == e.queue && f.holders == e.holders
            && f.debtTarget == (if d.debtTarget == Some(s) then None else d.debtTarget)
            && f.front == (if d.front == s then "" else d.front)
            && f.yielded == (if d.yielded == s then "" else d.yielded)
  {
    hide After;
    var ws := PauseTail(d, s).writes;
    TailIsQuiet(d, s);
    QuietKeepsView(e, ws);
    UnmarkedAfter(e, ws);
  }

  lemma {:induction false} SetPausedPauses(d: Dir, procs: Processes, s: string, reason: string)
    requires KeysMatch(d) && RowsMatch(d) && Owned(d, procs, s).Ok? && d.records[s].state == Queued
    requires !SetPausedPlan(d, procs, d.records[s], reason).outcome.Refused?
    ensures PausedFrom(d, After(d, SetPausedPlan(d, procs, d.records[s], reason).writes), s, reason)
  {
    hide Inspect, After, SavePlan, ReconcilePlan, SaveAndReconcile, PauseTail, OncePaused, SameMarks;
    InspectedIsCurrent(d, procs, s);
    var v := d.records[s];
    var row := QueuedRow(d, s).value;
    var paused := PausedRecord(v, row, reason);
    PausedIsOncePaused(d, procs, s, reason);
    SavedAndProjected(d, procs, paused);
    var ws := SaveAndReconcile(d, procs, paused).writes;
    SaveReconcileKeepsMarks(d, procs, paused);
    AfterConcat(d, ws, PauseTail(d, s).writes);
    TailApplied(d, After(d, ws), s);
    ProjectedPause(d, procs, s, reason);
  }

  lemma {:induction false} ProjectedPause(d: Dir, procs: Processes, s: string, reason: string)
    requires KeysMatch(d) && RowsMatch(d) && Owned(d, procs, s).Ok? && QueuedRow(d, s).Ok?
    requires Owned(d, procs, s).value.state == Queued
    ensures var v := Owned(d, procs, s).value;
            var u := PausedRecord(v, QueuedRow(d, s).value, reason);
            Projected(u) == u && SameTicketAndWork(u, v)
  {
    hide Inspect, QueuedRow;
    PausedIsOncePaused(d, procs, s, reason);
  }

  /** A pause of a queued reservation that is not refused saw the revision it expected, and pauses it. */
  lemma {:induction false} PausePauses(d: Dir, procs: Processes, s: string, reason: string, expected: Option<nat>)
    requires KeysMatch(d) && RowsMatch(d) && !PausePlan(d, procs, s, reason, expected).outcome.Refused?
    ensures s in d.records && (expected.Some? ==> d.records[s].revision == expected.value)
    ensures d.records[s].state == Queued ==>
              PausedFrom(d, After(d, PausePlan(d, procs, s, reason, expected).writes), s, reason)
    ensures d.records[s].state == Paused && ParkedRow(d.records[s]).Some? ==>
              var e := After(d, PausePlan(d, procs, s, reason, expected).writes);
              e.records == d.records && e.holders == d.holders && Queues(d, e, s, []) && SameMarks(e, d)
  {
    hide Inspect, After, SavePlan, PausedFrom, Queues;
    InspectedIsCurrent(d, procs, s);
    var v := d.records[s];
    if v.state == Queued {
      SetPausedPauses(d, procs, s, reason);
    } else if ParkedRow(v).Some? {
      PausedAgain(d, procs, s);
    }
  }

  lemma {:induction false} PausedAgain(d: Dir, procs: Processes, s: string)
    requires KeysMatch(d) && s in d.records && OncePaused(procs, d.records[s]) && d.records[s].state == Paused
    requires !ReconcilePlan(d, procs, s, Some(d.records[s].pid)).outcome.Refused?
    ensures var e := After(d, ReconcilePlan(d, procs, s, Some(d.records[s].pid)).writes);
            e.records == d.records && e.holders == d.holders && Queues(d, e, s, []) && SameMarks(e, d)
  {
    hide After, ReconcilePlan;
    ReconcileIsIdempotent(d, procs, s, Some(d.records[s].pid));
  }

  /**
   The reservation that was checked is the current one: open to pauses, still queued, and unchanged in five
   fields.
   */
  ghost predicate StillChecked(d: Dir, procs: Processes, s: string, checked: Record) {
    && Owned(d, procs, s).Ok? && d.records[s].state == Queued
    && (d.records[s].ticket, d.records[s].pid, d.records[s].start) == (checked.ticket, checked.pid, checked.start)
    && d.records[s].revision == checked.revision && d.records[s].manifest == checked.manifest
  }

  /**
   A failed check of the current reservation pauses it, unless that is refused; any other is left alone without
   an error.
   */
  lemma {:induction false} FailedCheckPauses(d: Dir, procs: Processes, s: string, checked: Record, reason: string)
    requires KeysMatch(d) && RowsMatch(d)
    ensures StillChecked(d, procs, s, checked) ==>
              var p := PauseFailedPlan(d, procs, s, checked, reason);
              !p.outcome.Ordinary? && (p.outcome.Done? ==> PausedFrom(d, After(d, p.writes), s, reason))
    ensures !StillChecked(d, procs, s, checked) ==> PauseFailedPlan(d, procs, s, checked, reason) == Plan([], Ordinary)
  {
    hide Inspect, After, SaveAndReconcile, PausedFrom, OncePaused;
    if Owned(d, procs, s).Ok? {
      InspectedIsCurrent(d, procs, s);
      if StillChecked(d, procs, s, checked) {
        var p := SetPausedPlan(d, procs, d.records[s], reason);
        if !p.outcome.Refused? {
          SetPausedPauses(d, procs, s, reason);
        }
        assert !p.outcome.Ordinary?;
      }
    }
  }

  // ---- edit

  function Or<T>(o: Option<T>, otherwise: T): T {
    if o.Some? then o.value else otherwise
  }

  /** An edit is refused for an experiment's command, an estimate below a minute, and a note that breaks the row. */
  lemma {:induction false} EditIsValid(v: Record, c: Change)
    ensures Changed(v, c).Ok? <==>
            && !(v.experiment && (c.command.Some? || c.cwd.Some?))
            && (c.estimate.Some? ==> c.estimate.value >= 1)
            && (c.note.Some? ==> forall x :: x in c.note.value ==> x !in "|\n\r\0")
  {
    if c.note.Some? {
      CleanNote(c.note.value);
    }
  }

  lemma {:induction false} CleanNote(note: string)
    ensures Clean(note) <==> forall x :: x in note ==> x !in "|\n\r\0"
  {
    assert forall i :: 0 <= i < |note| ==> note[i] in note;
  }

  /** The edited record: what was asked for, one revision on, with the replaced values in its history. */
  ghost predicate EditedFrom(v: Record, was: Record, c: Change) {
    && v.command == Or(c.command, was.command) && v.cwd == Or(c.cwd, was.cwd)
    && v.estimate == Or(c.estimate, was.estimate) && v.note == (if c.note.Some? then c.note.value else was.note)
    && v.manifest == (if c.manifest.Some? then c.manifest else was.manifest)
    && v.revision == was.revision + 1
    && v.history == was.history + [Revision(was.revision, was.command, was.cwd, was.estimate, was.note)]
    && v.session == was.session && v.ticket == was.ticket && v.enqueued == was.enqueued && v.pid == was.pid
    && v.start == was.start && v.kind == was.kind && v.experiment == was.experiment && v.supported == was.supported
    && v.state == was.state && v.reason == was.reason
    && v.parked == (if ParkedRow(was).Some? then Some(was.parked.value.(estimate := v.estimate, note := v.note))
                    else was.parked)
  }

  /** The row of an edit: none of a paused ticket, else one row with the new estimate and note. */
  ghost predicate EditedRow(d: Dir, e: Dir, s: string, v: Record) {
    if v.state == Paused && v.supported && ParkedRow(v).Some? then Queues(d, e, s, [])
    else
      && |RowsOf(e.queue, s)| == 1 && Others(e.queue, s) == Others(d.queue, s)
      && RowsOf(e.queue, s)[0].estimate == v.estimate && RowsOf(e.queue, s)[0].note == v.note
      && RowsOf(e.queue, s)[0].ticket == v.ticket && RowsOf(e.queue, s)[0].pid == v.pid
  }

  /** An edit that is not refused leaves exactly the edited record, and its row. */
  lemma {:induction false} EditEdits(d: Dir, procs: Processes, s: string, original: Record, c: Change)
    requires KeysMatch(d) && Changed(original, c).Ok?
    requires !EditCommit(d, procs, s, original, Changed(original, c).value).outcome.Refused?
    ensures var e := After(d, EditCommit(d, procs, s, original, Changed(original, c).value).writes);
            && s in d.records && d.records[s] == original && s in e.records
            && e.records == d.records[s := e.records[s]] && e.holders == d.holders
            && EditedFrom(e.records[s], original, c) && EditedRow(d, e, s, e.records[s])
  {
    hide Inspect, SavePlan, ReconcilePlan, After, SaveAndReconcile;
    InspectedIsCurrent(d, procs, s);
    var v := EditedRecord(original, Changed(original, c).value);
    ProjectedEdit(original, c);
    InspectedRow(d, procs, s);
    if Inspect(d, procs, s).value.projected {
      SaveEnds(d, v);
      EditedInPlace(d, s, v);
    } else {
      SavedAndProjected(d, procs, v);
    }
  }

  lemma {:induction false} ProjectedEdit(was: Record, c: Change)
    requires Changed(was, c).Ok?
    ensures EditedFrom(Projected(EditedRecord(was, Changed(was, c).value)), was, c)
  {
  }

  /** Where the edited row is: in the queue, or saved with the record. */
  lemma {:induction false} InspectedRow(d: Dir, procs: Processes, s: string)
    requires KeysMatch(d) && Inspect(d, procs, s).Ok?
    ensures var i := Inspect(d, procs, s).value;
            if i.projected then
              && |RowsOf(d.queue, s)| == 1 && RowsOf(d.queue, s)[0].ticket == i.value.ticket
              && RowsOf(d.queue, s)[0].pid == i.value.pid
              && (i.value.state == Paused ==> ParkedRow(i.value).None? || !i.value.supported)
            else OncePaused(procs, i.value)
  {
  }

  lemma {:induction false} EditedInPlace(d: Dir, s: string, v: Record)
    requires v.session == s && |RowsOf(d.queue, s)| == 1 && SavePlan(d, v).outcome.Done?
    ensures var w := WriteQueue(ReplaceRow(d.queue, s, v.estimate, v.note));
            var e := After(d, SavePlan(d, v).writes + [w]);
            && e.records == d.records[s := Projected(v)] && e.holders == d.holders
            && Queues(d, e, s, [RowsOf(d.queue, s)[0].(estimate := v.estimate, note := v.note)])
  {
    hide SavePlan, After, Projected;
    var a, w := SavePlan(d, v).writes, WriteQueue(ReplaceRow(d.queue, s, v.estimate, v.note));
    WholeSave(d, v);
    AfterConcat(d, a, [w]);
    AfterOne(After(d, a), w);
    ReplacedRows(d.queue, s, v.estimate, v.note);
    assert ReplaceRow(RowsOf(d.queue, s), s, v.estimate, v.note) ==
           [RowsOf(d.queue, s)[0].(estimate := v.estimate, note := v.note)] by {
      RowMember(d.queue, s, RowsOf(d.queue, s)[0]);
    }
  }
}
