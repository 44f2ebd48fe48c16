/**
 bench/fleet_pending.py and bench/fleet_pause.py: a reservation's authoritative record, the queue row
 that projects it, and the files beside them. Each operation is the list of file replacements it
 makes, in order; a crash cuts the list short.
 */
module Reservation {
  import opened Wrappers

  /** A queue column: the file separates columns by '|' and rows by newlines. */
  type Field = s: string | Clean(s)

  predicate Clean(s: string) {
    forall i :: 0 <= i < |s| ==> s[i] != '|' && s[i] != '\n' && s[i] != '\r' && s[i] != '\0'
  }

  /** Queue columns 0 to 6. */
  datatype Row = Row(ticket: Field, session: Field, enqueued: Field, estimate: int, note: Field, kind: Field, pid: int)

  datatype State = Queued | Paused | Running | Finishing | Finished | Cancelled

  datatype Revision = Revision(revision: nat, command: seq<string>, cwd: string, estimate: int, note: Field)

  /** The record; `supported` is `pause_protocol == 1`. */
  datatype Record = Record(session: Field, ticket: Field, enqueued: Field, pid: int, start: string, supported: bool,
                           state: State, revision: nat, command: seq<string>, cwd: string, estimate: int, note: Field,
                           kind: Field, manifest: Option<string>, experiment: bool, parked: Option<Row>, reason: string,
                           history: seq<Revision>)

  datatype Holder = Holder(session: string, pid: int, estimate: int, note: string, kind: string)

  /** The fleet directory. `holders` is keyed by lane. */
  datatype Dir = Dir(records: map<string, Record>, archive: map<(string, string), Record>,
                     tickets: map<string, seq<string>>,
                     parkedIndex: seq<string>, queue: seq<Row>, holders: map<string, Holder>,
                     debtTarget: Option<string>, front: string, yielded: string)

  /** One atomic file replacement. */
  datatype Write =
    | WriteIndex(sessions: seq<string>)
    | WriteArchive(key: (string, string), value: Record)
    | WriteTickets(session: string, tickets: seq<string>)
    | WriteRecord(value: Record)
    | WriteQueue(rows: seq<Row>)
    | WriteDebt(target: Option<string>)
    | ClearFront
    | ClearYield
    | WriteHolder(lane: string, holder: Holder)
    | RemoveHolder(lane: string)

  function Apply(d: Dir, w: Write): Dir {
    match w
    case WriteIndex(sessions) => d.(parkedIndex := sessions)
    case WriteArchive(key, value) => d.(archive := d.archive[key := value])
    case WriteTickets(session, tickets) => d.(tickets := d.tickets[session := tickets])
    case WriteRecord(value) => d.(records := d.records[value.session := value])
    case WriteQueue(rows) => d.(queue := rows)
    case WriteDebt(target) => d.(debtTarget := target)
    case ClearFront => d.(front := "")
    case ClearYield => d.(yielded := "")
    case WriteHolder(lane, holder) => d.(holders := d.holders[lane := holder])
    case RemoveHolder(lane) => d.(holders := d.holders - {lane})
  }

  function After(d: Dir, ws: seq<Write>): Dir {
    if ws == [] then d else Apply(After(d, ws[..|ws| - 1]), ws[|ws| - 1])
  }

  /** How an operation ends: as `reconcile` codes 0 and 1 report it, or by raising. */
  datatype Outcome = Done | Ordinary | Refused(why: string)

  datatype Plan = Plan(writes: seq<Write>, outcome: Outcome)

  /** Another step after this one, unless this one raised. */
  function Then(p: Plan, q: Plan): Plan {
    if p.outcome.Refused? then p else Plan(p.writes + q.writes, q.outcome)
  }

  const LIMIT := 1000

  /** Live processes with their start tokens. */
  type Processes = map<int, string>

  predicate Live(procs: Processes, v: Record) {
    v.start != "" && v.pid in procs && procs[v.pid] == v.start
  }

  /** The columns that an edit never changes. */
  function Identity(r: Row): (Field, Field, Field, Field, int) {
    (r.ticket, r.session, r.enqueued, r.kind, r.pid)
  }

  /** `parked_row`: the saved row, if it is this reservation's. */
  function ParkedRow(v: Record): Option<Row> {
    if v.parked.Some? && v.parked.value.ticket == v.ticket && v.parked.value.session == v.session
       && v.parked.value.enqueued == v.enqueued && v.parked.value.pid == v.pid
    then v.parked else None
  }

  function RowsOf(rows: seq<Row>, session: string): seq<Row> {
    if rows == [] then [] else (if rows[0].session == session then [rows[0]] else []) + RowsOf(rows[1..], session)
  }

  function Others(rows: seq<Row>, session: string): seq<Row> {
    if rows == [] then [] else (if rows[0].session != session then [rows[0]] else []) + Others(rows[1..], session)
  }

  function Without(sessions: seq<string>, session: string): seq<string> {
    if sessions == [] then []
      else (if sessions[0] != session then [sessions[0]] else []) + Without(sessions[1..], session)
  }

  lemma {:induction false} WithoutMember(sessions: seq<string>, session: string, s: string)
    ensures s in Without(sessions, session) <==> s in sessions && s != session
  {
    if sessions != [] {
      WithoutMember(sessions[1..], session, s);
    }
  }

  lemma {:induction false} RowMember(rows: seq<Row>, session: string, r: Row)
    ensures r in RowsOf(rows, session) <==> r in rows && r.session == session
    ensures r in Others(rows, session) <==> r in rows && r.session != session
  {
    if rows != [] {
      RowMember(rows[1..], session, r);
    }
  }

  function Take(tickets: seq<string>, n: nat): seq<string> {
    if |tickets| <= n then tickets else tickets[..n]
  }

  // ---- save_record

  /** The saved row carries the record's estimate and note. */
  function Projected(v: Record): Record {
    if ParkedRow(v).Some? then v.(parked := Some(v.parked.value.(estimate := v.estimate, note := v.note))) else v
  }

  /** A valid park: what the parked index is for. */
  predicate IsPark(v: Record) {
    v.state == Paused && v.supported && ParkedRow(v).Some?
  }

  predicate SameSupervisor(a: Record, b: Record) {
    a.session == b.session && a.ticket == b.ticket && a.pid == b.pid && a.start == b.start
  }

  /** The index entry first, the history next, the current record, and last the index removal. */
  function SavePlan(d: Dir, v0: Record): Plan {
    var v := Projected(v0);
    var adds := IsPark(v) && v.session !in d.parkedIndex;
    var key := (v.session, v.ticket);
    var earlier := if v.session in d.tickets then d.tickets[v.session] else [];
    if adds && |d.parkedIndex| >= LIMIT then Plan([], Refused("too many parked reservations"))
    else if key in d.archive && !SameSupervisor(d.archive[key], v) then
      Plan(if adds then [WriteIndex(d.parkedIndex + [v.session])] else [],
           Refused("reservation ticket belongs to a different supervisor"))
    else
      Plan((if adds then [WriteIndex(d.parkedIndex + [v.session])] else [])
           + [WriteArchive(key, v), WriteTickets(v.session, Take([v.ticket] + Without(earlier, v.ticket), LIMIT)),
              WriteRecord(v)]
           + (if !IsPark(v) && v.session in d.parkedIndex then [WriteIndex(Without(d.parkedIndex, v.session))] else []),
           Done)
  }

  // ---- reconcile

  /** The queue write that makes the rows agree with a parked or resumed record, if one is needed. */
  function ProjectionPlan(d: Dir, v: Record, saved: Row): Plan {
    var physical := RowsOf(d.queue, v.session);
    if |physical| > 1 || (|physical| == 1 && Identity(physical[0]) != Identity(saved)) then
      Plan([], Refused("saved reservation conflicts with another queued identity"))
    else if v.state == Paused then
      Plan(if physical != [] then [WriteQueue(Others(d.queue, v.session))] else [], Done)
    else
      Plan(if physical != [saved] then [WriteQueue(Others(d.queue, v.session) + [saved])] else [], Done)
  }

  /** A pause that an earlier controller wrote in place: its one matching row. */
  predicate Upgradable(d: Dir, v: Record) {
    var physical := RowsOf(d.queue, v.session);
    v.state == Paused && |physical| == 1 && physical[0].ticket == v.ticket && physical[0].pid == v.pid
    && physical[0].enqueued == v.enqueued
  }

  function Upgraded(d: Dir, v: Record): Record
    requires Upgradable(d, v)
  {
    v.(parked := Some(RowsOf(d.queue, v.session)[0].(estimate := v.estimate, note := v.note)))
  }

  /** Outcome Done is return code 0, Ordinary is code 1. */
  function ReconcilePlan(d: Dir, procs: Processes, session: string, pid: Option<int>): Plan {
    if session !in d.records then Plan([], Ordinary)
    else
      var v := d.records[session];
      if !v.supported || (v.state != Paused && v.state != Queued) || !Live(procs, v) then Plan([], Ordinary)
      else if pid.Some? && v.pid != pid.value then
        if ParkedRow(v).Some? || v.state == Paused then
            Plan([], Refused("session belongs to a live parked reservation"))
        else Plan([], Ordinary)
      else if ParkedRow(v).Some? then ProjectionPlan(d, v, v.parked.value)
      else if !Upgradable(d, v) then Plan([], Ordinary)
      else
        var u := Upgraded(d, v);
        Then(SavePlan(d, u), ProjectionPlan(d, u, u.parked.value))
  }

  // ---- inspect, pause, resume, edit

  predicate HeldBy(d: Dir, lane: string, session: string) {
    lane in d.holders && d.holders[lane].session == session
  }

  predicate HeldAnywhere(d: Dir, session: string) {
    exists lane :: lane in d.holders && d.holders[lane].session == session
  }

  /** `queued`: the session's only row, unless it is admitted in any lane. */
  function QueuedRow(d: Dir, session: string): Result<Row, string> {
    if HeldAnywhere(d, session) then Err("reservation already admitted; edits are closed")
    else if |RowsOf(d.queue, session)| != 1 then Err("reservation is no longer queued")
    else Ok(RowsOf(d.queue, session)[0])
  }

  /** The record and whether it is edited through its row in the queue. */
  datatype Inspected = Inspected(value: Record, projected: bool)

  predicate OncePaused(procs: Processes, v: Record) {
    (v.state == Paused || v.state == Queued) && v.supported && ParkedRow(v).Some? && Live(procs, v)
  }

  function Inspect(d: Dir, procs: Processes, session: string): Result<Inspected, string> {
    var known := session in d.records;
    var physical := RowsOf(d.queue, session);
    if known && OncePaused(procs, d.records[session]) && HeldBy(d, "fleet", session) then
      Err("reservation already admitted; edits are closed")
    else if known && OncePaused(procs, d.records[session])
      && (|physical| > 1 || (|physical| == 1
                             && Identity(physical[0]) != Identity(d.records[session].parked.value))) then
      Err("parked reservation conflicts with another queued identity")
    else if known && OncePaused(procs, d.records[session])
        && (d.records[session].state == Paused || physical == []) then
      Ok(Inspected(d.records[session], false))
    else
      var row := QueuedRow(d, session);
      if row.Err? then Err(row.error)
      else if !known || d.records[session].ticket != row.value.ticket || d.records[session].pid != row.value.pid then
        Err("command editing requires a new fleet.sh run reservation")
      else if (d.records[session].state != Queued && d.records[session].state != Paused)
          || !Live(procs, d.records[session]) then
        Err("reservation has started or its supervisor is no longer alive")
      else Ok(Inspected(d.records[session], true))
  }

  function Owned(d: Dir, procs: Processes, session: string): Result<Record, string> {
    var found := Inspect(d, procs, session);
    if found.Err? then Err(found.error)
    else if !found.value.value.supported then Err("this pinned controller cannot pause")
    else Ok(found.value.value)
  }

  function PausedRecord(v: Record, row: Row, reason: string): Record {
    v.(state := Paused, reason := reason, revision := v.revision + 1,
       parked := Some(row.(estimate := v.estimate, note := v.note)))
  }

  /** What a pause does after its record and row: a donor's offer and the priority marks are withdrawn. */
  function PauseTail(d: Dir, session: string): Plan {
    Plan((if d.debtTarget == Some(session) then [WriteDebt(None)] else [])
         + (if d.front == session then [ClearFront] else [])
         + (if d.yielded == session then [ClearYield] else []), Done)
  }

  function SaveAndReconcile(d: Dir, procs: Processes, v: Record): Plan {
    var save := SavePlan(d, v);
    Then(save, ReconcilePlan(After(d, save.writes), procs, v.session, Some(v.pid)))
  }

  function SetPausedPlan(d: Dir, procs: Processes, v: Record, reason: string): Plan {
    if v.state == Paused then ReconcilePlan(d, procs, v.session, Some(v.pid))
    else
      var row := QueuedRow(d, v.session);
      if row.Err? then Plan([], Refused(row.error))
      else
        var p := SaveAndReconcile(d, procs, PausedRecord(v, row.value, reason));
        Then(p, PauseTail(d, v.session))
  }

  function PausePlan(d: Dir, procs: Processes, session: string, reason: string, expected: Option<nat>): Plan {
    var owned := Owned(d, procs, session);
    if owned.Err? then Plan([], Refused(owned.error))
    else if expected.Some? && owned.value.revision != expected.value then
      Plan([], Refused("reservation revision changed; inspect before pausing"))
    else SetPausedPlan(d, procs, owned.value, reason)
  }

  /** A failed check pauses only the reservation that it checked, still queued and unchanged. */
  function PauseFailedPlan(d: Dir, procs: Processes, session: string, checked: Record, reason: string): Plan {
    var owned := Owned(d, procs, session);
    if owned.Err? then Plan([], Ordinary)
    else
      var v := owned.value;
      if v.ticket != checked.ticket || v.pid != checked.pid || v.start != checked.start
          || v.revision != checked.revision
         || v.manifest != checked.manifest || v.state != Queued
      then Plan([], Ordinary)
      else SetPausedPlan(d, procs, v, reason)
  }

  function ResumedRecord(v: Record): Record {
    v.(state := Queued, reason := "", revision := v.revision + 1)
  }

  /** The second locked section of `resume`, after validating `original` outside the lock. */
  function ResumeCommit(d: Dir, procs: Processes, session: string, original: Record): Plan {
    var owned := Owned(d, procs, session);
    if owned.Err? then Plan([], Refused(owned.error))
    else if owned.value != original then Plan([], Refused("reservation changed while checking resume"))
    else SaveAndReconcile(d, procs, ResumedRecord(original))
  }

  datatype Change = Change(command: Option<seq<string>>, cwd: Option<string>, estimate: Option<int>,
                           note: Option<string>,
                           manifest: Option<string>)

  /** The edited record, as it is validated outside the lock. */
  function Changed(v: Record, c: Change): Result<Record, string> {
    if (c.command.Some? || c.cwd.Some?) && v.experiment then
        Err("submit experiments have immutable evidence identities")
    else if c.estimate.Some? && c.estimate.value < 1 then Err("estimate must be a positive number of minutes")
    else if c.note.Some? && !Clean(c.note.value) then Err("note cannot contain queue separators or newlines")
    else Ok(v.(command := if c.command.Some? then c.command.value else v.command,
               cwd := if c.cwd.Some? then c.cwd.value else v.cwd,
               estimate := if c.estimate.Some? then c.estimate.value else v.estimate,
               note := if c.note.Some? then c.note.value else v.note,
               manifest := if c.manifest.Some? then c.manifest else v.manifest))
  }

  function EditedRecord(original: Record, updated: Record): Record {
    updated.(revision := original.revision + 1,
             history := original.history
                 + [Revision(original.revision, original.command, original.cwd, original.estimate, original.note)])
  }

  function ReplaceRow(rows: seq<Row>, session: string, estimate: int, note: Field): (r: seq<Row>)
    ensures |r| == |rows|
    ensures forall i :: 0 <= i < |rows| ==>
              r[i] == if rows[i].session == session then rows[i].(estimate := estimate, note := note) else rows[i]
  {
    seq(|rows|, i requires 0 <= i < |rows| => if rows[i].session == session then
        rows[i].(estimate := estimate, note := note) else rows[i])
  }

  /** The second locked section of `edit`. */
  function EditCommit(d: Dir, procs: Processes, session: string, original: Record, updated: Record): Plan {
    var found := Inspect(d, procs, session);
    if found.Err? then Plan([], Refused(found.error))
    else if found.value.value != original then Plan([], Refused("reservation changed during preflight"))
    else
      var v := EditedRecord(original, updated);
      if !found.value.projected then SaveAndReconcile(d, procs, v)
      else Then(SavePlan(d, v), Plan([WriteQueue(ReplaceRow(d.queue, session, v.estimate, v.note))], Done))
  }

  /** An owner's state change: only the supervisor that the record names may make it. */
  function TransitionPlan(d: Dir, session: string, pid: int, start: string, state: Option<State>): Plan {
    if session !in d.records || d.records[session].pid != pid || d.records[session].start != start then
      Plan([], Refused("queued command ownership changed"))
    else SavePlan(d, if state.Some? then d.records[session].(state := state.value) else d.records[session])
  }
}
