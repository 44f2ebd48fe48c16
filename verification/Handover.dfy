/** Registration, admission and an owner's moves, and what a save does to the lists: said of the files they leave. */
module Handover {
  import opened Wrappers
  import opened Reservation
  import opened Recovery
  import opened RecoveryLimits
  import opened Admission
  import opened AdmissionSafety
  import opened Linearizability
  import opened Commits

  // ---- the lists that a save keeps

  /** A record that discovery must find. */
  predicate MustBeFound(v: Record) {
    v.state == Paused && v.supported == true && ParkedRow(v).Some?
  }

  /** A save is refused exactly for a full index and for another supervisor's ticket. */
  lemma {:induction false} SaveRefusal(d: Dir, v: Record)
    ensures SavePlan(d, v).outcome.Refused? <==>
            || (MustBeFound(v) && v.session !in d.parkedIndex && |d.parkedIndex| >= 1000)
            || ((v.session, v.ticket) in d.archive
                && var other := d.archive[(v.session, v.ticket)];
                   (other.session, other.ticket, other.pid, other.start) != (v.session, v.ticket, v.pid, v.start))
    ensures SavePlan(d, v).outcome.Done? || SavePlan(d, v).outcome.Refused?
  {
    SavedKey(v);
  }

  lemma {:induction false} SavedKey(v: Record)
    ensures var u := Projected(v);
            && u.session == v.session && u.ticket == v.ticket && u.pid == v.pid && u.start == v.start
            && (IsPark(u) <==> MustBeFound(v))
  {
  }

  /** After a save: the index names the session exactly if it must be found, and all others as before. */
  lemma {:induction false} SaveIndexes(d: Dir, v: Record)
    requires SavePlan(d, v).outcome.Done?
    ensures var e := After(d, SavePlan(d, v).writes);
            forall s :: s in e.parkedIndex <==> if s == v.session then MustBeFound(v) else s in d.parkedIndex
  {
    hide After, Projected;
    SavedKey(v);
    var ws := SavePlan(d, v).writes;
    forall s ensures s in Without(d.parkedIndex, v.session) <==> s in d.parkedIndex && s != v.session {
      WithoutMember(d.parkedIndex, v.session, s);
    }
    OneIndex(d, ws);
  }

  lemma {:induction false} OneIndex(d: Dir, ws: seq<Write>)
    requires forall i, j :: 0 <= i < |ws| && 0 <= j < |ws| && ws[i].WriteIndex? && ws[j].WriteIndex? ==> ws[i] == ws[j]
    ensures (forall w :: w in ws ==> !w.WriteIndex?) ==> After(d, ws).parkedIndex == d.parkedIndex
    ensures forall w :: w in ws && w.WriteIndex? ==> After(d, ws).parkedIndex == w.sessions
  {
    if ws != [] {
      var rest, last := ws[..|ws| - 1], ws[|ws| - 1];
      assert forall w :: w in ws <==> w in rest || w == last;
      OneIndex(d, rest);
    }
  }

  /** The ticket is first in the session's list, before the others in their order, up to a thousand. */
  lemma {:induction false} SaveLists(d: Dir, v: Record)
    requires SavePlan(d, v).outcome.Done?
    ensures var e := After(d, SavePlan(d, v).writes);
            var earlier := if v.session in d.tickets then d.tickets[v.session] else [];
            var others := Without(earlier, v.ticket);
            && v.session in e.tickets
            && (|others| < 1000 ==> e.tickets[v.session] == [v.ticket] + others)
            && (|others| >= 1000 ==> e.tickets[v.session] == [v.ticket] + others[..999])
            && (forall s :: s != v.session && s in d.tickets ==> s in e.tickets && e.tickets[s] == d.tickets[s])
  {
    hide After, Projected, IsPark;
    SavedKey(v);
    var ws := SavePlan(d, v).writes;
    var earlier := if v.session in d.tickets then d.tickets[v.session] else [];
    var listed := Reservation.Take([v.ticket] + Without(earlier, v.ticket), LIMIT);
    var w := WriteTickets(v.session, listed);
    assert w in ws;
    OneTickets(d, ws, v.session, listed);
  }

  lemma {:induction false} OneTickets(d: Dir, ws: seq<Write>, s: string, listed: seq<string>)
    requires forall w :: w in ws && w.WriteTickets? ==> w == WriteTickets(s, listed)
    ensures After(d, ws).tickets == if WriteTickets(s, listed) in ws then d.tickets[s := listed] else d.tickets
  {
    if ws != [] {
      var rest, last := ws[..|ws| - 1], ws[|ws| - 1];
      assert forall w :: w in ws <==> w in rest || w == last;
      OneTickets(d, rest, s, listed);
    }
  }

  // ---- transition

  /** Only the supervisor that the record names moves it, and it changes the state alone. */
  lemma {:induction false} TransitionMoves(d: Dir, s: string, pid: int, start: string, state: Option<State>)
    requires KeysMatch(d)
    ensures !TransitionPlan(d, s, pid, start, state).outcome.Refused? ==>
              var e := After(d, TransitionPlan(d, s, pid, start, state).writes);
              && s in d.records && d.records[s].pid == pid && d.records[s].start == start && s in e.records
              && e.records == d.records[s := e.records[s]] && e.queue == d.queue && e.holders == d.holders
              && SameTicketAndWork(e.records[s], d.records[s]) && e.records[s].revision == d.records[s].revision
              && e.records[s].reason == d.records[s].reason
              && e.records[s].state == Or(state, d.records[s].state)
    ensures s in d.records && d.records[s].pid == pid && d.records[s].start == start ==>
              TransitionPlan(d, s, pid, start, state).outcome ==
              SavePlan(d, d.records[s].(state := Or(state, d.records[s].state))).outcome
  {
    hide SavePlan, After;
    if s in d.records && d.records[s].pid == pid && d.records[s].start == start {
      var v := d.records[s].(state := Or(state, d.records[s].state));
      SaveEnds(d, v);
      if SavePlan(d, v).outcome.Done? {
        WholeSave(d, v);
      }
    }
  }

  /** Where an owner's own record may go: on from waiting to running to its end, or to the same state once it runs. */
  lemma {:induction false} OnwardAnswer(from: State, to: State)
    ensures Onward(from, to) <==>
            match from
            case Queued => to in {Running, Finishing, Finished, Cancelled}
            case Paused => to in {Running, Finishing, Finished, Cancelled}
            case Running => to in {Running, Finishing, Finished, Cancelled}
            case Finishing => to in {Finishing, Finished, Cancelled}
            case Finished => to == Finished
            case Cancelled => to == Cancelled
  {
  }

  // ---- registration

  /**
   A registration that is not refused: the row is the supervisor's own, and the new record is the row's, at
   revision 1.
   */
  lemma {:induction false} RegisterRecords(d: Dir, draft: Draft)
    requires KeysMatch(d) && !RegisterPlan(d, draft).outcome.Refused?
    ensures var e, s := After(d, RegisterPlan(d, draft).writes), draft.session;
            && (forall lane :: lane in d.holders ==> d.holders[lane].session != s) && |RowsOf(d.queue, s)| == 1
            && s in e.records && e.records == d.records[s := e.records[s]] && e.queue == d.queue
            && e.holders == d.holders
            && var row, v := RowsOf(d.queue, s)[0], e.records[s];
            && row.pid == draft.pid && v.pid == row.pid && v.ticket == row.ticket && v.enqueued == row.enqueued
            && v.estimate == row.estimate && v.note == row.note && v.session == s
            && v.start == draft.start && v.command == draft.command && v.cwd == draft.cwd && v.kind == draft.kind
            && v.manifest == draft.manifest && v.experiment == draft.experiment
            && v.state == Queued && v.revision == 1 && v.history == [] && v.parked == None && v.supported == true
  {
    hide SavePlan, ArchivePlan, After, RowsOf;
    var row := QueuedRow(d, draft.session);
    var v := Registered(row.value, draft);
    assert Projected(v) == v;
    if draft.session in d.records && d.records[draft.session].ticket != row.value.ticket {
      var u := d.records[draft.session];
      var a := ArchivePlan(d, u).writes;
      assert a[..|a|] == a;
      ArchiveIsQuiet(d, u, |a|);
      var mid := After(d, a);
      SaveEnds(mid, v);
      WholeSave(mid, v);
      AfterConcat(d, a, SavePlan(mid, v).writes);
    } else {
      NothingAfter(d);
      SaveEnds(d, v);
      WholeSave(d, v);
      assert [] + SavePlan(d, v).writes == SavePlan(d, v).writes;
    }
  }

  // ---- admission

  /** The record speaks for the ticket: it is the row's, of this live process, and queued. */
  ghost predicate RecordSpeaks(d: Dir, procs: Processes, s: string, pid: int) {
    && RowsOf(d.queue, s) != [] && s in d.records && d.records[s].state == Queued
    && d.records[s].ticket == RowsOf(d.queue, s)[0].ticket && d.records[s].pid == pid
    && pid in procs && procs[pid] == d.records[s].start && d.records[s].start != ""
  }

  /** The session is paused: by a live supervisor's record, with its saved row or its row in the queue. */
  ghost predicate PausedNow(d: Dir, procs: Processes, s: string) {
    && s in d.records && d.records[s].state == Paused && d.records[s].supported == true
    && d.records[s].pid in procs && procs[d.records[s].pid] == d.records[s].start && d.records[s].start != ""
    && (ParkedRow(d.records[s]).Some?
        || (RowsOf(d.queue, s) != [] && RowsOf(d.queue, s)[0].ticket == d.records[s].ticket
            && RowsOf(d.queue, s)[0].pid == d.records[s].pid))
  }

  /** Whose row is saved: the one with the record's ticket, session, enqueue time and process. */
  lemma {:induction false} ParkedRowAnswer(v: Record)
    ensures ParkedRow(v).Some? <==>
            v.parked.Some? && (v.parked.value.ticket, v.parked.value.session, v.parked.value.enqueued,
                               v.parked.value.pid)
                                == (v.ticket, v.session, v.enqueued, v.pid)
    ensures ParkedRow(v).Some? ==> ParkedRow(v) == v.parked
  {
  }

  /**
   Admission is refused exactly for a paused session. Otherwise the lane's holder names the session and the process,
   with the record's estimate and note where the record speaks and else the row's; the fleet's lane drops the debt; the
   session leaves the queue and the marks; and no record changes.
   */
  lemma {:induction false} AdmissionAdmits(d: Dir, procs: Processes, s: string, lane: string, pid: int)
    requires RowsOf(d.queue, s) != []
    ensures AdmitPlan(d, procs, s, lane, pid).outcome.Refused? <==> PausedNow(d, procs, s)
    ensures PausedNow(d, procs, s) ==> AdmitPlan(d, procs, s, lane, pid).writes == []
    ensures !PausedNow(d, procs, s) ==>
              var e := After(d, AdmitPlan(d, procs, s, lane, pid).writes);
              var row := RowsOf(d.queue, s)[0];
              && e.records == d.records && e.archive == d.archive && e.parkedIndex == d.parkedIndex
              && lane in e.holders && e.holders == d.holders[lane := e.holders[lane]]
              && e.holders[lane] == (if RecordSpeaks(d, procs, s, pid)
                                     then Holder(s, pid, d.records[s].estimate, d.records[s].note, row.kind)
                                     else Holder(s, pid, row.estimate, row.note, row.kind))
              && e.debtTarget == (if lane == "fleet" then None else d.debtTarget)
              && Queues(d, e, s, [])
              && e.front == (if d.front == s then "" else d.front)
              && e.yielded == (if d.yielded == s then "" else d.yielded)
  {
    assert IsPaused(d, procs, s) <==> PausedNow(d, procs, s);
    if !PausedNow(d, procs, s) {
      AdmissionFiles(d, procs, s, lane, pid);
    }
  }

  lemma {:induction false} AdmissionFiles(d: Dir, procs: Processes, s: string, lane: string, pid: int)
    requires RowsOf(d.queue, s) != [] && !IsPaused(d, procs, s)
    ensures var e := After(d, AdmitPlan(d, procs, s, lane, pid).writes);
            var row := RowsOf(d.queue, s)[0];
            && e.records == d.records && e.archive == d.archive && e.parkedIndex == d.parkedIndex
            && lane in e.holders && e.holders == d.holders[lane := e.holders[lane]]
            && e.holders[lane] == (if RecordSpeaks(d, procs, s, pid)
                                   then Holder(s, pid, d.records[s].estimate, d.records[s].note, row.kind)
                                   else Holder(s, pid, row.estimate, row.note, row.kind))
            && e.debtTarget == (if lane == "fleet" then None else d.debtTarget)
            && Queues(d, e, s, [])
            && e.front == (if d.front == s then "" else d.front)
            && e.yielded == (if d.yielded == s then "" else d.yielded)
  {
    hide After, RowsOf, Others, IsPaused, AdmitPlan;
    AdmittedDir(d, procs, s, lane, pid);
    AdmittedQueueIs(d, procs, s, lane, pid);
    AdmissionHolder(d, procs, s, lane, pid);
    AdmissionMarks(d, procs, s, lane, pid);
  }

  lemma {:induction false} AdmissionHolder(d: Dir, procs: Processes, s: string, lane: string, pid: int)
    requires RowsOf(d.queue, s) != [] && !IsPaused(d, procs, s)
    ensures var e := After(d, AdmitPlan(d, procs, s, lane, pid).writes);
            var row := RowsOf(d.queue, s)[0];
            && lane in e.holders
            && e.holders[lane] == (if RecordSpeaks(d, procs, s, pid)
                                   then Holder(s, pid, d.records[s].estimate, d.records[s].note, row.kind)
                                   else Holder(s, pid, row.estimate, row.note, row.kind))
  {
    hide After, RowsOf, Others, IsPaused;
    var ws := AdmitPlan(d, procs, s, lane, pid).writes;
    assert ws[0] in ws;
    OneHolder(d, ws, lane, ws[0].holder);
  }

  lemma {:induction false} AdmissionMarks(d: Dir, procs: Processes, s: string, lane: string, pid: int)
    requires RowsOf(d.queue, s) != [] && !IsPaused(d, procs, s)
    ensures var e := After(d, AdmitPlan(d, procs, s, lane, pid).writes);
            && e.parkedIndex == d.parkedIndex
            && e.debtTarget == (if lane == "fleet" then None else d.debtTarget)
            && e.front == (if d.front == s then "" else d.front)
            && e.yielded == (if d.yielded == s then "" else d.yielded)
  {
    hide After, RowsOf, Others, IsPaused, Speaks;
    var ws := AdmitPlan(d, procs, s, lane, pid).writes;
    MarksAmong(ws[0], lane == FLEET, WriteQueue(Others(d.queue, s)), d.front == s, d.yielded == s);
    UnmarkedAfter(d, ws);
    NoIndexWrite(d, ws);
  }

  lemma {:induction false} MarksAmong(h: Write, fleet: bool, q: Write, front: bool, yielded: bool)
    requires h.WriteHolder? && q.WriteQueue?
    ensures var ws := [h] + (if fleet then [WriteDebt(None)] else []) + [q] + (if front then [ClearFront] else [])
                      + (if yielded then [ClearYield] else []);
            && (WriteDebt(None) in ws <==> fleet) && (ClearFront in ws <==> front) && (ClearYield in ws <==> yielded)
            && forall w :: w in ws ==> OnlyUnmarks(w) && !w.WriteIndex?
  {
  }

  lemma {:induction false} AdmittedQueueIs(d: Dir, procs: Processes, s: string, lane: string, pid: int)
    requires RowsOf(d.queue, s) != [] && !IsPaused(d, procs, s)
    ensures var e := After(d, AdmitPlan(d, procs, s, lane, pid).writes);
            Others(e.queue, s) == Others(d.queue, s) && RowsOf(e.queue, s) == []
  {
    hide After, IsPaused;
    var ws := AdmitPlan(d, procs, s, lane, pid).writes;
    var at := if lane == FLEET then 2 else 1;
    assert ws[at] == WriteQueue(Others(d.queue, s)) && ws[at] in ws;
    AdmitQueue(d, ws, s);
    OthersOfOthers(d.queue, s);
  }

  lemma {:induction false} OneHolder(d: Dir, ws: seq<Write>, lane: string, h: Holder)
    requires forall w :: w in ws && (w.WriteHolder? || w.RemoveHolder?) ==> w == WriteHolder(lane, h)
    ensures After(d, ws).holders == if WriteHolder(lane, h) in ws then d.holders[lane := h] else d.holders
  {
    if ws != [] {
      var rest, last := ws[..|ws| - 1], ws[|ws| - 1];
      assert forall w :: w in ws <==> w in rest || w == last;
      OneHolder(d, rest, lane, h);
    }
  }

  /** Probes and boots queue for the fleet; the two one-GPU kinds have lanes of their own, single checks a pool. */
  lemma {:induction false} LaneAnswer(kind: string, lane: string)
    ensures kind == "check" ==> (LaneFits(kind, lane) <==> lane == "check")
    ensures kind == "single" ==> (LaneFits(kind, lane) <==> lane != "fleet" && lane != "check")
    ensures kind !in {"check", "single"} ==> (LaneFits(kind, lane) <==> lane == "fleet")
  {
  }

  // ---- what may be edited

  /** The parked branch: a once-parked record of a live supervisor that still waits. */
  ghost predicate OnceParked(d: Dir, procs: Processes, s: string) {
    && s in d.records && d.records[s].state in {Queued, Paused} && d.records[s].supported == true
    && ParkedRow(d.records[s]).Some? && Live(procs, d.records[s])
  }

  /** No other identity is queued under the session's name: no row, or one whose five columns are the saved row's. */
  ghost predicate NoConflict(d: Dir, s: string, saved: Row) {
    |RowsOf(d.queue, s)| == 0
    || (|RowsOf(d.queue, s)| == 1
        && var r := RowsOf(d.queue, s)[0];
           (r.ticket, r.session, r.enqueued, r.kind, r.pid)
             == (saved.ticket, saved.session, saved.enqueued, saved.kind, saved.pid))
  }

  /** The ticket's own row is the session's only one, and no lane's holder names the session. */
  ghost predicate OwnRow(d: Dir, s: string) {
    && s in d.records && (forall lane :: lane in d.holders ==> d.holders[lane].session != s)
    && |RowsOf(d.queue, s)| == 1
    && RowsOf(d.queue, s)[0].ticket == d.records[s].ticket && RowsOf(d.queue, s)[0].pid == d.records[s].pid
  }

  /**
   A ticket can be inspected for an edit exactly if it waits under a live supervisor and either its own row is queued
   and it is admitted nowhere, or it was once parked, is paused or without a row, and the fleet's holder is not its own.
   */
  lemma {:induction false} InspectAnswer(d: Dir, procs: Processes, s: string)
    ensures Inspect(d, procs, s).Ok? <==>
            && s in d.records && d.records[s].state in {Queued, Paused} && Live(procs, d.records[s])
            && if OnceParked(d, procs, s) then
                 && ("fleet" in d.holders ==> d.holders["fleet"].session != s)
                 && NoConflict(d, s, d.records[s].parked.value)
                 && (d.records[s].state == Paused || RowsOf(d.queue, s) == [] || OwnRow(d, s))
               else OwnRow(d, s)
    ensures Inspect(d, procs, s).Ok? ==>
              && Inspect(d, procs, s).value.value == d.records[s]
              && (Inspect(d, procs, s).value.projected <==>
                  !(OnceParked(d, procs, s) && (d.records[s].state == Paused || RowsOf(d.queue, s) == [])))
  {
    hide RowsOf;
    ParkedIs(d, s);
  }

  lemma {:induction false} ParkedIs(d: Dir, s: string)
    ensures s in d.records && ParkedRow(d.records[s]).Some? ==> d.records[s].parked.Some?
  {
  }

  // ---- reconcile

  /** The record calls for a projection, or for the upgrade of an earlier controller's pause. */
  ghost predicate Projects(d: Dir, procs: Processes, s: string, who: Option<int>) {
    && s in d.records && d.records[s].supported == true && d.records[s].state in {Queued, Paused}
    && Live(procs, d.records[s]) && (who.Some? ==> who.value == d.records[s].pid)
  }

  /**
   Reconcile refuses another process's paused or once-parked session, and a conflicting row; it finishes for a
   once-parked record of its own; and it has nothing to do for a ticket that was never parked and is not paused.
   */
  lemma {:induction false} ReconcileAnswer(d: Dir, procs: Processes, s: string, who: Option<int>)
    requires KeysMatch(d)
    ensures Projects(d, procs, s, who) && ParkedRow(d.records[s]).Some? ==>
              && (ReconcilePlan(d, procs, s, who).outcome.Done? <==> NoConflict(d, s, d.records[s].parked.value))
              && (ReconcilePlan(d, procs, s, who).outcome.Refused? <==> !NoConflict(d, s, d.records[s].parked.value))
    ensures Projects(d, procs, s, who) && ParkedRow(d.records[s]).None? && d.records[s].state == Queued ==>
              ReconcilePlan(d, procs, s, who) == Plan([], Ordinary)
    ensures Projects(d, procs, s, None) && who.Some? && who.value != d.records[s].pid ==>
              && ReconcilePlan(d, procs, s, who).writes == []
              && (d.records[s].state == Paused || ParkedRow(d.records[s]).Some? ==>
                    ReconcilePlan(d, procs, s, who).outcome.Refused?)
              && (d.records[s].state == Queued && ParkedRow(d.records[s]).None? ==>
                    ReconcilePlan(d, procs, s, who).outcome == Ordinary)
    ensures (s in d.records ==>
               d.records[s].supported == false || d.records[s].state !in {Queued, Paused}
               || !Live(procs, d.records[s])) ==>
              ReconcilePlan(d, procs, s, who) == Plan([], Ordinary)
  {
    hide SavePlan, RowsOf, Others;
    ParkedIs(d, s);
    if |RowsOf(d.queue, s)| == 0 {
      assert RowsOf(d.queue, s) == [];
    }
  }

  /** Where reconcile finishes: a paused ticket has no row; a resumed one keeps its saved row, or gets it back last. */
  lemma {:induction false} ReconcileRows(d: Dir, procs: Processes, s: string, who: Option<int>)
    requires Projects(d, procs, s, who) && ParkedRow(d.records[s]).Some? && KeysMatch(d)
    requires ReconcilePlan(d, procs, s, who).outcome.Done?
    ensures var e, saved := After(d, ReconcilePlan(d, procs, s, who).writes), d.records[s].parked.value;
            && e == d.(queue := e.queue)
            && (d.records[s].state == Paused ==> Queues(d, e, s, []))
            && (d.records[s].state == Queued ==>
                  e.queue == if RowsOf(d.queue, s) == [saved] then d.queue else Others(d.queue, s) + [saved])
  {
    hide After, SavePlan, RowsOf, Others;
    ParkedIs(d, s);
    var v := d.records[s];
    var p := ProjectionPlan(d, v, v.parked.value);
    assert ReconcilePlan(d, procs, s, who) == p;
    ProjectionResult(d, v, v.parked.value);
    if p.writes == [] {
      NothingAfter(d);
    } else {
      assert p.writes == [p.writes[0]];
      AfterOne(d, p.writes[0]);
    }
  }

  /** The one row of a pause that an earlier controller wrote in place. */
  ghost predicate PausedInPlace(d: Dir, s: string) {
    && s in d.records && |RowsOf(d.queue, s)| == 1
    && var r := RowsOf(d.queue, s)[0];
       (r.ticket, r.pid, r.enqueued) == (d.records[s].ticket, d.records[s].pid, d.records[s].enqueued)
  }

  /**
   A pause that was written in place is upgraded: its row, with the record's estimate and note, moves to the
   record.
   */
  lemma {:induction false} UpgradeAnswer(d: Dir, procs: Processes, s: string, who: Option<int>)
    requires Projects(d, procs, s, who) && ParkedRow(d.records[s]).None? && d.records[s].state == Paused && KeysMatch(d)
    ensures !PausedInPlace(d, s) ==> ReconcilePlan(d, procs, s, who) == Plan([], Ordinary)
    ensures PausedInPlace(d, s) && !ReconcilePlan(d, procs, s, who).outcome.Refused? ==>
              var e, v := After(d, ReconcilePlan(d, procs, s, who).writes), d.records[s];
              var row := RowsOf(d.queue, s)[0].(estimate := v.estimate, note := v.note);
              && e.records == d.records[s := v.(parked := Some(row))] && e.holders == d.holders && Queues(d, e, s, [])
  {
    hide After, SavePlan, ProjectionPlan, RowsOf, Others;
    if PausedInPlace(d, s) && !ReconcilePlan(d, procs, s, who).outcome.Refused? {
      var u := Upgraded(d, d.records[s]);
      RowMember(d.queue, s, RowsOf(d.queue, s)[0]);
      assert ParkedRow(u) == u.parked && Projected(u) == u && u.session == s;
      var a, p := SavePlan(d, u), ProjectionPlan(d, u, u.parked.value);
      assert ReconcilePlan(d, procs, s, who) == Then(a, p);
      SaveEnds(d, u);
      WholeSave(d, u);
      ProjectionResult(d, u, u.parked.value);
      AfterConcat(d, a.writes, p.writes);
      ProjectionElsewhere(d, After(d, a.writes), u);
    }
  }

  /** At most one write of the queue changes the queue alone, and to the same rows wherever it is made. */
  lemma {:induction false} ProjectionElsewhere(d: Dir, e: Dir, u: Record)
    requires u.parked.Some? && e.queue == d.queue
    ensures var p := ProjectionPlan(d, u, u.parked.value);
            After(e, p.writes) == e.(queue := After(d, p.writes).queue)
  {
    hide RowsOf, Others, Identity;
    var ws := ProjectionPlan(d, u, u.parked.value).writes;
    QueueWrite(d, e, ws);
  }

  lemma {:induction false} QueueWrite(d: Dir, e: Dir, ws: seq<Write>)
    requires e.queue == d.queue && (ws == [] || (|ws| == 1 && ws[0].WriteQueue?))
    ensures After(e, ws) == e.(queue := After(d, ws).queue)
  {
    hide After;
    if ws == [] {
      NothingAfter(d);
      NothingAfter(e);
    } else {
      assert ws == [ws[0]];
      AfterOne(d, ws[0]);
      AfterOne(e, ws[0]);
    }
  }
}
