/** For which granted tickets a start can still execute other work than their records say now. */
module LaterWork {
  import opened Wrappers
  import opened Reservation
  import opened Recovery
  import opened Operations
  import opened Admission
  import opened AdmissionSafety
  import opened Linearizability
  import opened RecordHistory

  /** A run that goes on from this state. */
  ghost predicate Continues(w: World, run: seq<World>, steps: seq<Step>) {
    |run| == |steps| + 1 && run[0] == w && forall i :: 0 <= i < |steps| ==> StepAt(run, steps, i)
  }

  /** Some continuation starts this supervisor with other work. */
  ghost predicate MayDiffer(w: World, p: Supervisor, v: Record) {
    exists run: seq<World>, steps: seq<Step> :: Continues(w, run, steps) && StartsOther(run[|run| - 1], p, v)
  }

  ghost predicate StartsOther(w: World, p: Supervisor, v: Record) {
    p in w.started && !SameWork(w.started[p], v)
  }

  /** Granted, not started, and its own record is still waiting. */
  ghost predicate Pending(w: World, p: Supervisor) {
    && p in w.granted && p in w.registered && p !in w.started
    && w.registered[p] in w.dir.records && Owner(w.dir.records[w.registered[p]]) == p
    && Rank(w.dir.records[w.registered[p]].state) == 0
  }

  /** The supervisor holds a lane that seals its record. */
  ghost predicate Shut(d: Dir, p: Supervisor, s: string) {
    s in d.records && exists lane :: Holds(d, lane, p, s) && Sealed(lane, d.records[s])
  }

  // ---- a sealed record stays as it is

  /** The same world with another grant on the supervisor's account. */
  function Regranted(w: World, p: Supervisor, g: Grant): World {
    w.(granted := w.granted[p := g])
  }

  lemma {:induction false} RegrantedSteps(w: World, p: Supervisor, g: Grant, step: Step)
    requires p in w.granted && Enabled(w, step)
    ensures Enabled(Regranted(w, p, g), step)
    ensures p in Next(w, step).granted && Next(Regranted(w, p, g), step) == Regranted(Next(w, step), p, g)
  {
    hide AdmitPlan, RegisterPlan, PlanOf, TransitionPlan, After, Inspect;
    var x, y := Next(Regranted(w, p, g), step), Regranted(Next(w, step), p, g);
    if step.Admit? {
      AdmitRegranted(w, p, g, step);
    } else {
      assert x.granted == y.granted;
    }
  }

  lemma {:induction false} AdmitRegranted(w: World, p: Supervisor, g: Grant, step: Step)
    requires p in w.granted && step.Admit? && Enabled(w, step)
    ensures p in Next(w, step).granted && Next(Regranted(w, p, g), step) == Regranted(Next(w, step), p, g)
  {
    hide AdmitPlan, After;
    var q := (step.pid, w.procs[step.pid]);
    assert Waiting(w, q, step.session) ==> q != p;
    assert Next(Regranted(w, p, g), step).granted == Regranted(Next(w, step), p, g).granted;
  }

  lemma {:induction false} RegrantedRuns(w: World, p: Supervisor, g: Grant, run: seq<World>, steps: seq<Step>, i: nat)
    requires p in w.granted && Inv(Regranted(w, p, g)) && Continues(w, run, steps) && i < |run|
    ensures p in run[i].granted && Inv(Regranted(run[i], p, g))
    decreases i
  {
    hide Enabled, Next, Inv, AllMove, Regranted;
    if i > 0 {
      RegrantedRuns(w, p, g, run, steps, i - 1);
      assert StepAt(run, steps, i - 1);
      RegrantedSteps(run[i - 1], p, g, steps[i - 1]);
      StepKeeps(Regranted(run[i - 1], p, g), steps[i - 1]);
    }
  }

  lemma {:induction false} ShutNeverDiffers(w: World, p: Supervisor)
    requires Inv(w) && Pending(w, p) && Shut(w.dir, p, w.registered[p])
    ensures !MayDiffer(w, p, w.dir.records[w.registered[p]])
  {
    hide Inv, Enabled, Next, SameWork;
    var s := w.registered[p];
    var v := w.dir.records[s];
    var lane :| Holds(w.dir, lane, p, s) && Sealed(lane, v);
    var g := GrantOf(w.dir, lane, s);
    GrantAdded(w, p, s, lane);
    forall run: seq<World>, steps: seq<Step> | Continues(w, run, steps) ensures !StartsOther(run[|run| - 1], p, v) {
      var n := |run| - 1;
      RegrantedRuns(w, p, g, run, steps, n);
      if p in run[n].started {
        StartedAsGranted(Regranted(run[n], p, g), p);
      }
    }
  }

  lemma {:induction false} StartedAsGranted(x: World, p: Supervisor)
    requires Inv(x) && p in x.started
    ensures StartOk(x, p)
  {
  }

  // ---- an open record can be replaced before the start

  /** The record was made by the current controller, and its history is its own. */
  predicate Current(d: Dir, procs: Processes, v: Record) {
    v.supported && Live(procs, v) && OwnHistory(d, v) && (v.state == Paused ==> ParkedRow(v).Some?)
  }

  lemma {:induction false} OpenIsParked(w: World, p: Supervisor)
    requires Inv(w) && Pending(w, p) && !Shut(w.dir, p, w.registered[p])
    requires Current(w.dir, w.procs, w.dir.records[w.registered[p]])
    ensures OncePaused(w.procs, w.dir.records[w.registered[p]])
    ensures HeldBy(w.dir, FLEET, w.registered[p]) ==> w.dir.holders[FLEET].pid != p.0
  {
    var s := w.registered[p];
    assert GrantOk(w, p) && KeysMatch(w.dir);
    assert Holds(w.dir, w.granted[p].lane, p, s);
    assert !Sealed(w.granted[p].lane, w.dir.records[s]);
    assert HeldBy(w.dir, FLEET, s) && w.dir.holders[FLEET].pid == p.0 ==> Holds(w.dir, FLEET, p, s);
  }

  /** What stays the same while the way to an edit is cleared. */
  ghost predicate Cleared(w: World, x: World, p: Supervisor) {
    && x.dir.records == w.dir.records && x.dir.archive == w.dir.archive && x.dir.parkedIndex == w.dir.parkedIndex
    && x.registered == w.registered && x.granted == w.granted && x.started == w.started
    && p.0 in x.procs && x.procs[p.0] == p.1
  }

  /** Two runs in a row. */
  lemma {:induction false} OneMore(w: World, run: seq<World>, steps: seq<Step>, step: Step)
    requires Continues(w, run, steps) && run != [] && Enabled(run[|run| - 1], step)
    ensures Continues(w, run + [Next(run[|run| - 1], step)], steps + [step])
  {
    hide Enabled, Next;
    var n, x := |steps|, Next(run[|run| - 1], step);
    var run', steps' := run + [x], steps + [step];
    forall i | 0 <= i < |steps'| ensures StepAt(run', steps', i) {
      if i < n {
        assert StepAt(run, steps, i);
      }
    }
  }

  lemma {:induction false} Standstill(w: World)
    ensures Continues(w, [w], [])
  {
  }

  /** Another process's hold of the fleet under this session's name ends when that process dies. */
  lemma {:induction false} FleetCleared(w: World, p: Supervisor, s: string) returns (run: seq<World>, steps: seq<Step>)
    requires Inv(w) && Alive(w, p) && (HeldBy(w.dir, FLEET, s) ==> w.dir.holders[FLEET].pid != p.0)
    ensures Continues(w, run, steps)
    ensures var x := run[|run| - 1]; Inv(x) && Cleared(w, x, p) && !HeldBy(x.dir, FLEET, s)
  {
    hide Inv, AllMove;
    Standstill(w);
    run, steps := [w], [];
    if HeldBy(w.dir, FLEET, s) {
      var q := w.dir.holders[FLEET].pid;
      if q in w.procs {
        OneMore(w, run, steps, Death(q));
        StepKeeps(w, Death(q));
        run, steps := run + [Next(w, Death(q))], steps + [Death(q)];
      }
      var x := run[|run| - 1];
      OneMore(w, run, steps, Release(FLEET));
      StepKeeps(x, Release(FLEET));
      run, steps := run + [Next(x, Release(FLEET))], steps + [Release(FLEET)];
    }
  }

  /** The queue's commands may take all rows away. */
  lemma {:induction false} QueueCleared(w: World, run: seq<World>, steps: seq<Step>, p: Supervisor, s: string)
    returns (run': seq<World>, steps': seq<Step>)
    requires Continues(w, run, steps) && Inv(run[|run| - 1]) && Cleared(w, run[|run| - 1], p)
    requires !HeldBy(run[|run| - 1].dir, FLEET, s)
    ensures Continues(w, run', steps')
    ensures var x := run'[|run'| - 1];
            Inv(x) && Cleared(w, x, p) && !HeldBy(x.dir, FLEET, s) && x.dir.queue == []
  {
    hide Inv, AllMove;
    var x := run[|run| - 1];
    OneMore(w, run, steps, Requeue([]));
    StepKeeps(x, Requeue([]));
    run', steps' := run + [Next(x, Requeue([]))], steps + [Requeue([])];
  }

  /** A longer estimate, which every ticket may ask for. */
  function Longer(v: Record): Change {
    Change(None, None, Some(if v.estimate < 1 then 1 else v.estimate + 1), None, None)
  }

  /** With the way cleared, a longer estimate can be committed, and the start executes that revision. */
  lemma {:induction false} ClearedDiffers(w: World, run: seq<World>, steps: seq<Step>, p: Supervisor)
    requires Continues(w, run, steps) && run != [] && Inv(w) && Pending(w, p)
    requires Current(w.dir, w.procs, w.dir.records[w.registered[p]])
    requires OncePaused(w.procs, w.dir.records[w.registered[p]])
    requires var x := run[|run| - 1];
             Inv(x) && Cleared(w, x, p) && !HeldBy(x.dir, FLEET, w.registered[p]) && x.dir.queue == []
    ensures MayDiffer(w, p, w.dir.records[w.registered[p]])
  {
    hide Inv, Enabled, Next, SameWork, StepAt, MayDiffer, StartsOther, Continues, OncePaused, Longer, PlanOf;
    var x, s := run[|run| - 1], w.registered[p];
    var v := w.dir.records[s];
    var edit := Edit(s, v, Longer(v));
    InvKeys(x);
    OnceMore(w, x, p, s);
    LongerEdit(x, p, s);
    var n := |PlanOf(x.dir, x.procs, edit).writes|;
    var run', steps' := ThreeMore(w, run, steps, Look(0, s), Commit(0, edit, n), Start(p));
    OtherRevision(run'[|run'| - 1], p, v);
    Differs(w, run', steps', p, v);
  }

  lemma {:induction false} OnceMore(w: World, x: World, p: Supervisor, s: string)
    requires Cleared(w, x, p) && s in w.dir.records && Owner(w.dir.records[s]) == p
    requires OncePaused(w.procs, w.dir.records[s]) && OwnHistory(w.dir, w.dir.records[s])
    ensures OncePaused(x.procs, x.dir.records[s]) && OwnHistory(x.dir, x.dir.records[s])
  {
  }

  lemma {:induction false} ThreeMore(w: World, run: seq<World>, steps: seq<Step>, f: Step, g: Step, h: Step)
    returns (run': seq<World>, steps': seq<Step>)
    requires Continues(w, run, steps) && run != [] && Enabled(run[|run| - 1], f)
    requires Enabled(Next(run[|run| - 1], f), g) && Enabled(Next(Next(run[|run| - 1], f), g), h)
    ensures Continues(w, run', steps') && run' != []
    ensures run'[|run'| - 1] == Next(Next(Next(run[|run| - 1], f), g), h)
  {
    hide Enabled, Next, Continues;
    var a := Next(run[|run| - 1], f);
    var b := Next(a, g);
    OneMore(w, run, steps, f);
    OneMore(w, run + [a], steps + [f], g);
    OneMore(w, run + [a] + [b], steps + [f] + [g], h);
    run', steps' := run + [a] + [b] + [Next(b, h)], steps + [f] + [g] + [h];
  }

  lemma {:induction false} Differs(w: World, run: seq<World>, steps: seq<Step>, p: Supervisor, v: Record)
    requires run != [] && Continues(w, run, steps) && StartsOther(run[|run| - 1], p, v)
    ensures MayDiffer(w, p, v)
  {
  }

  lemma {:induction false} OtherRevision(c: World, p: Supervisor, v: Record)
    requires p in c.started && c.started[p].revision == v.revision + 1
    ensures StartsOther(c, p, v)
  {
  }

  lemma {:induction false} InvKeys(w: World)
    requires Inv(w)
    ensures KeysMatch(w.dir) && IndexCovers(w.dir)
  {
  }

  /** Reading, editing and starting, one after the other. */
  lemma {:induction false} LongerEdit(x: World, p: Supervisor, s: string)
    requires KeysMatch(x.dir) && IndexCovers(x.dir) && x.dir.queue == [] && !HeldBy(x.dir, FLEET, s)
    requires p in x.registered && x.registered[p] == s && p in x.granted && p !in x.started
    requires s in x.dir.records && Owner(x.dir.records[s]) == p && OncePaused(x.procs, x.dir.records[s])
    requires OwnHistory(x.dir, x.dir.records[s])
    ensures var v := x.dir.records[s];
            var edit := Edit(s, v, Longer(v));
            && Enabled(x, Look(0, s))
            && var a := Next(x, Look(0, s));
               var n := |PlanOf(x.dir, x.procs, edit).writes|;
            && Enabled(a, Commit(0, edit, n))
            && var b := Next(a, Commit(0, edit, n));
            && Enabled(b, Start(p))
            && var c := Next(b, Start(p));
               p in c.started && c.started[p].revision == v.revision + 1
  {
    hide SaveAndReconcile, RowsOf, PlanOf, Inspect, After, TransitionPlan, OncePaused;
    var v := x.dir.records[s];
    var u := EditedRecord(v, Changed(v, Longer(v)).value);
    LongerPlan(x.dir, x.procs, s);
    LongerStays(x.procs, v, u);
    assert RowsOf([], s) == [] by { NoRows(s); }
    OpenSave(x.dir, x.procs, u);
    var plan := SaveAndReconcile(x.dir, x.procs, u);
    assert plan.writes[..|plan.writes|] == plan.writes;
    var e := After(x.dir, plan.writes);
    StartIsOpen(e, s, Projected(u));
  }

  lemma {:induction false} NoRows(s: string)
    ensures RowsOf([], s) == []
  {
  }

  lemma {:induction false} LongerPlan(d: Dir, procs: Processes, s: string)
    requires s in d.records && d.records[s].session == s && OncePaused(procs, d.records[s]) && d.queue == []
    requires !HeldBy(d, FLEET, s)
    ensures var v := d.records[s];
            && Inspect(d, procs, s) == Ok(Inspected(v, false)) && Changed(v, Longer(v)).Ok?
            && Changed(v, Longer(v)) != Ok(v)
            && PlanOf(d, procs, Edit(s, v, Longer(v))) ==
               SaveAndReconcile(d, procs, EditedRecord(v, Changed(v, Longer(v)).value))
  {
    hide SaveAndReconcile;
    NoRows(s);
  }

  lemma {:induction false} LongerStays(procs: Processes, v: Record, u: Record)
    requires OncePaused(procs, v) && Changed(v, Longer(v)).Ok? && u == EditedRecord(v, Changed(v, Longer(v)).value)
    ensures OncePaused(procs, u) && u.state == v.state && Projected(u).state == v.state && Live(procs, v)
    ensures u.session == v.session && u.ticket == v.ticket && u.pid == v.pid && u.start == v.start
    ensures Projected(u).revision == v.revision + 1 && Owner(Projected(u)) == Owner(v)
    ensures Projected(u).session == v.session && IsPark(Projected(u)) == IsPark(v)
  {
  }

  lemma {:induction false} StateMayDiffer(w: World, p: Supervisor)
    requires Inv(w) && Pending(w, p) && Current(w.dir, w.procs, w.dir.records[w.registered[p]])
    ensures MayDiffer(w, p, w.dir.records[w.registered[p]]) <==> !Shut(w.dir, p, w.registered[p])
  {
    hide Inv, Shut, MayDiffer, Sealed;
    var s := w.registered[p];
    if Shut(w.dir, p, s) {
      ShutNeverDiffers(w, p);
    } else {
      OpenIsParked(w, p);
      var run, steps := FleetCleared(w, p, s);
      run, steps := QueueCleared(w, run, steps, p, s);
      ClearedDiffers(w, run, steps, p);
    }
  }

  lemma {:induction false} ModernIsCurrent(w: World, s: string)
    requires Modern(w.dir) && s in w.dir.records && Live(w.procs, w.dir.records[s])
    ensures Current(w.dir, w.procs, w.dir.records[s])
  {
  }

  /**
   The exact condition, in every reachable state: for a granted supervisor that has not started, with its own live
   record still waiting, a later start can execute other work than the record says now if and only if the supervisor
   holds neither the fleet's lane nor, with a record that is not paused and was never parked, another lane.
   */
  lemma {:induction false} StartMayDiffer(run: seq<World>, steps: seq<Step>, i: nat, p: Supervisor)
    requires IsRun(run, steps) && i < |run| && Pending(run[i], p)
    requires Live(run[i].procs, run[i].dir.records[run[i].registered[p]])
    ensures MayDiffer(run[i], p, run[i].dir.records[run[i].registered[p]]) <==>
            !Shut(run[i].dir, p, run[i].registered[p])
  {
    hide Enabled, Next, Inv, Modern, Shut, MayDiffer;
    RunsKeepInvariant(run, steps, i);
    RunsAreModern(run, steps, i);
    ModernIsCurrent(run[i], run[i].registered[p]);
    StateMayDiffer(run[i], p);
  }
}
