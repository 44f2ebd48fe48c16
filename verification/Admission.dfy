/**
 Reservations over whole runs: readers that validate outside the lock, operations cut short by a crash,
 admission to a lane, and the supervisors that run what was admitted. One step is one locked section.
 */
module Admission {
  import opened Wrappers
  import opened Reservation
  import opened Recovery
  import opened Operations

  const FLEET := "fleet"

  /** A process with its start token. */
  type Supervisor = (int, string)

  function Owner(v: Record): Supervisor {
    (v.pid, v.start)
  }

  // ---- admission (`_try_hold`, `admission`, `admit`, `_dequeue`)

  /** `paused`. */
  predicate IsPaused(d: Dir, procs: Processes, s: string) {
    s in d.records && d.records[s].state == Paused && d.records[s].supported && Live(procs, d.records[s])
    && (ParkedRow(d.records[s]).Some?
        || (RowsOf(d.queue, s) != [] && RowsOf(d.queue, s)[0].ticket == d.records[s].ticket
            && RowsOf(d.queue, s)[0].pid == d.records[s].pid))
  }

  /** `metadata`: whether the record, and not the row, speaks for the ticket at GO. */
  predicate Speaks(d: Dir, procs: Processes, s: string, pid: int) {
    RowsOf(d.queue, s) != [] && s in d.records && d.records[s].ticket == RowsOf(d.queue, s)[0].ticket
    && d.records[s].pid == pid
    && d.records[s].state == Queued && Live(procs, d.records[s])
  }

  function LaneOf(kind: string): string {
    if kind == "single" || kind == "check" then kind else FLEET
  }

  /** `lane` is the row's lane, or one of the single pool's other holders. */
  predicate LaneFits(kind: string, lane: string) {
    if LaneOf(kind) == "single" then lane != FLEET && lane != "check" else lane == LaneOf(kind)
  }

  function AdmitPlan(d: Dir, procs: Processes, s: string, lane: string, pid: int): Plan
    requires RowsOf(d.queue, s) != []
  {
    var row := RowsOf(d.queue, s)[0];
    if IsPaused(d, procs, s) then Plan([], Refused("paused"))
    else
      var spoken := Speaks(d, procs, s, pid);
      var estimate := if spoken then d.records[s].estimate else row.estimate;
      var note := if spoken then d.records[s].note else row.note;
      Plan([WriteHolder(lane, Holder(s, pid, estimate, note, row.kind))]
           + (if lane == FLEET then [WriteDebt(None)] else [])
           + [WriteQueue(Others(d.queue, s))]
           + (if d.front == s then [ClearFront] else []) + (if d.yielded == s then [ClearYield] else []), Done)
  }

  // ---- register

  function ArchivePlan(d: Dir, v: Record): Plan {
    var key := (v.session, v.ticket);
    var earlier := if v.session in d.tickets then d.tickets[v.session] else [];
    if key in d.archive && !SameSupervisor(d.archive[key], v) then
      Plan([], Refused("reservation ticket belongs to a different supervisor"))
    else
      Plan([WriteArchive(key, v),
            WriteTickets(v.session, Take([v.ticket] + Reservation.Without(earlier, v.ticket), LIMIT))], Done)
  }

  /** What a supervisor brings to its registration. */
  datatype Draft = Draft(session: Field, pid: int, start: string, command: seq<string>, cwd: string, kind: Field,
                         manifest: Option<string>, experiment: bool)

  function Registered(row: Row, draft: Draft): Record {
    Record(draft.session, row.ticket, row.enqueued, draft.pid, draft.start, true, Queued, 1, draft.command, draft.cwd,
           row.estimate, row.note, draft.kind, draft.manifest, draft.experiment, None, "", [])
  }

  function RegisterPlan(d: Dir, draft: Draft): Plan {
    var row := QueuedRow(d, draft.session);
    if row.Err? then Plan([], Refused(row.error))
    else if row.value.pid != draft.pid then Plan([], Refused("reservation belongs to another process"))
    else
      var first := if draft.session in d.records && d.records[draft.session].ticket != row.value.ticket
                   then ArchivePlan(d, d.records[draft.session]) else Plan([], Done);
      Then(first, SavePlan(After(d, first.writes), Registered(row.value, draft)))
  }

  // ---- the steps

  /** A reader between its first locked section and its commit, and whether the record changed meanwhile. */
  datatype Reading = Reading(value: Record, disturbed: bool)

  /** A GO: the lane, and the session's record when the lane's holder was written, if it had one. */
  datatype Grant = Grant(lane: string, record: Option<Record>)

  /** `registered` gives each supervisor's session, `granted` the GO that its waiter got, `started` what it executes. */
  datatype World = World(dir: Dir, procs: Processes, born: set<Supervisor>, readings: map<nat, Reading>,
                         registered: map<Supervisor, string>, granted: map<Supervisor, Grant>,
                             started: map<Supervisor, Record>)

  datatype Step =
    | Look(reader: nat, session: string)
    | Act(op: Operation, n: nat)
    | Commit(reader: nat, op: Operation, n: nat)
    | Register(draft: Draft, n: nat)
    | Requeue(rows: seq<Row>)
    | Admit(session: string, lane: string, pid: int, n: nat)
    | Start(owner: Supervisor)
    | Move(owner: Supervisor, state: Option<State>, n: nat)
    | Release(lane: string)
    | Birth(owner: Supervisor)
    | Death(pid: int)

  predicate Alive(w: World, p: Supervisor) {
    p.0 in w.procs && w.procs[p.0] == p.1
  }

  /** An edit that asks for something; one that changes nothing returns before its second section. */
  predicate Asks(c: Change, v: Record) {
    Changed(v, c) != Ok(v) || c.command.Some? || c.cwd.Some? || c.manifest.Some?
  }

  /** A state that a supervisor moves its own record on to. */
  predicate Onward(from: State, to: State) {
    (to == from && Rank(to) > 0) || Rank(to) > Rank(from)
  }

  /** The queue's own commands never change columns 0 to 2: a ticket keeps its enqueue time. */
  ghost predicate Enabled(w: World, step: Step) {
    var d := w.dir;
    match step
    case Look(_, s) => Inspect(d, w.procs, s).Ok?
    case Act(op, n) => (op.Pause? || op.PauseFailed? || op.Reconcile?) && n <= |PlanOf(d, w.procs, op).writes|
    case Commit(reader, op, n) =>
      reader in w.readings && (op.Resume? || op.Edit?) && op.original == w.readings[reader].value
      && op.session == op.original.session
      && (op.Resume? ==> op.original.state == Paused) && (op.Edit? ==> Asks(op.change, op.original))
      && n <= |PlanOf(d, w.procs, op).writes|
    case Register(draft, n) =>
        Alive(w, (draft.pid, draft.start)) && (draft.pid, draft.start) !in w.registered
        && n <= |RegisterPlan(d, draft).writes|
    case Requeue(rows) => RowsMatch(d.(queue := rows))
    case Admit(s, lane, pid, n) =>
      lane !in d.holders && pid in w.procs && RowsOf(d.queue, s) != [] && LaneFits(RowsOf(d.queue, s)[0].kind, lane)
      && n <= |AdmitPlan(d, w.procs, s, lane, pid).writes|
    case Start(p) =>
      Alive(w, p) && p in w.granted && p in w.registered && p !in w.started
      && TransitionPlan(d, w.registered[p], p.0, p.1, Some(Running)).outcome.Done?
      && Onward(d.records[w.registered[p]].state, Running)
    case Move(p, state, n) =>
      Alive(w, p) && p in w.registered && w.registered[p] in d.records
      && (state.Some? ==> Onward(d.records[w.registered[p]].state, state.value))
      && n <= |TransitionPlan(d, w.registered[p], p.0, p.1, state).writes|
    case Release(lane) =>
      lane in d.holders
      && (d.holders[lane].pid !in w.procs || d.holders[lane].session !in d.records
          || Rank(d.records[d.holders[lane].session].state) > 0)
    case Birth(p) => p.0 !in w.procs && p !in w.born && p.1 != ""
    case Death(pid) => pid in w.procs
  }

  predicate SameRecord(a: Dir, b: Dir, s: string) {
    (s in a.records <==> s in b.records) && (s in a.records ==> a.records[s] == b.records[s])
  }

  /** The directory after some replacements; readers of a changed record are disturbed. */
  function Written(w: World, d: Dir): World {
    w.(dir := d, readings := map r | r in w.readings ::
       w.readings[r].(disturbed := w.readings[r].disturbed || !SameRecord(w.dir, d, w.readings[r].value.session)))
  }

  /** The session's supervisor has registered, and its waiter has no GO yet: the first GO ends the waiter. */
  predicate Waiting(w: World, p: Supervisor, s: string) {
    p in w.registered && w.registered[p] == s && p !in w.granted && p !in w.started
  }

  function GrantOf(d: Dir, lane: string, s: string): Grant {
    Grant(lane, if s in d.records then Some(d.records[s]) else None)
  }

  function Next(w: World, step: Step): World
    requires Enabled(w, step)
  {
    var d := w.dir;
    match step
    case Look(reader, s) => w.(readings := w.readings[reader := Reading(Inspect(d, w.procs, s).value.value, false)])
    case Act(op, n) => Written(w, After(d, PlanOf(d, w.procs, op).writes[..n]))
    case Commit(reader, op, n) =>
        Written(w.(readings := w.readings - {reader}), After(d, PlanOf(d, w.procs, op).writes[..n]))
    case Register(draft, n) =>
      var next := Written(w, After(d, RegisterPlan(d, draft).writes[..n]));
      next.(registered := w.registered[(draft.pid, draft.start) := draft.session])
    case Requeue(rows) => w.(dir := d.(queue := rows))
    case Admit(s, lane, pid, n) =>
      var next := Written(w, After(d, AdmitPlan(d, w.procs, s, lane, pid).writes[..n]));
      if n > 0 && Waiting(w, (pid, w.procs[pid]), s)
      then next.(granted := w.granted[(pid, w.procs[pid]) := GrantOf(d, lane, s)]) else next
    case Start(p) =>
      var next := After(d, TransitionPlan(d, w.registered[p], p.0, p.1, Some(Running)).writes);
      Written(w, next).(started := w.started[p := d.records[w.registered[p]].(state := Running)])
    case Move(p, state, n) => Written(w, After(d, TransitionPlan(d, w.registered[p], p.0, p.1, state).writes[..n]))
    case Release(lane) => w.(dir := d.(holders := d.holders - {lane}))
    case Birth(p) => w.(procs := w.procs[p.0 := p.1], born := w.born + {p})
    case Death(pid) => w.(procs := w.procs - {pid})
  }

  ghost predicate StepAt(run: seq<World>, steps: seq<Step>, i: nat)
    requires i < |steps| && |run| == |steps| + 1
  {
    Enabled(run[i], steps[i]) && run[i + 1] == Next(run[i], steps[i])
  }

  /** The states a run passes through. */
  ghost predicate IsRun(run: seq<World>, steps: seq<Step>) {
    |run| == |steps| + 1 && Initial(run[0])
    && forall i :: 0 <= i < |steps| ==> StepAt(run, steps, i)
  }

  /** An empty fleet: no records, nobody admitted. Rows may already be queued. */
  ghost predicate Initial(w: World) {
    w.dir.records == map[] && w.dir.holders == map[] && w.readings == map[] && w.registered == map[]
    && w.granted == map[] && w.started == map[]
    && forall pid :: pid in w.procs ==> (pid, w.procs[pid]) in w.born
  }
}
