/**
 A run in which a recorded success is overwritten: a recovery probes the lock before the worker takes it, and
 writes after.
 */
module ExperimentRace {
  import opened Wrappers
  import opened ExperimentDb
  import opened ExperimentRuns

  const JOB: JobId := "a"
  const PAYLOAD := Payload("cpu", "r", map[], {}, None, false, 1, 16, "")
  const POLICY := Policy(2, 64, 0)
  const PASSED := Evidence(false, true, true)

  /** The states of the run differ in these parts only. */
  datatype Scene = Scene(row: Job, stage: Option<Stage>, recovery: Option<Recovery>, leased: bool, ticket: nat,
                         events: seq<Event>,
                         alive: set<nat>, used: set<nat>, spawned: set<JobId>)

  function Row(state: JobState, started: bool, result: Option<Evidence>): Job {
    Job(PAYLOAD, state, started, 0, false, result)
  }

  function At(c: Scene): System {
    System(Db(map[JOB := c.row], {(JOB, "s")}, map[], {}, map[],
              if c.leased then map[JOB := Lease(1, 1, 16)] else map[], map[], c.ticket, 1, c.events),
           POLICY, if c.stage.Some? then map[JOB := Worker(1, c.stage.value, None)] else map[], map[],
           if c.recovery.Some? then map[0 := c.recovery.value] else map[], c.alive, c.used, c.spawned)
  }

  const EMPTY := System(Db(map[], {}, map[], {}, map[], map[], map[], 0, 0, []), POLICY, map[], map[], map[], {}, {},
                        {})

  function Ev(state: JobState): Event {
    Event(JOB, Became(state))
  }

  const E0 := [Event(JOB, Submitted)]
  const E1 := E0 + [Ev(QueuedFleet)]
  const E2 := E1 + [Ev(WaitingCpu)]
  const E3 := E2 + [Ev(Running)]
  const E4 := E3 + [Ev(Succeeded)]
  const E5 := E4 + [Ev(Interrupted)]

  const SCENES := [
    Scene(Row(Queued, false, None), None, None, false, 0, E0, {}, {}, {}),
    Scene(Row(Queued, false, None), None, Some(Probed(JOB)), false, 0, E0, {}, {}, {}),
    Scene(Row(Queued, false, None), Some(Entering), Some(Probed(JOB)), false, 0, E0, {1}, {1}, {}),
    Scene(Row(Queued, false, None), Some(Ready), Some(Probed(JOB)), false, 0, E0, {1}, {1}, {}),
    Scene(Row(QueuedFleet, false, None), Some(Dispatched), Some(Probed(JOB)), false, 0, E1, {1}, {1}, {}),
    Scene(Row(QueuedFleet, false, None), Some(Dispatched), Some(Doubting(JOB)), false, 0, E1, {1}, {1}, {}),
    Scene(Row(WaitingCpu, false, None), Some(Pooling), Some(Doubting(JOB)), false, 0, E2, {1}, {1}, {}),
    Scene(Row(WaitingCpu, false, None), Some(Leased), Some(Doubting(JOB)), true, 1, E2, {1}, {1}, {}),
    Scene(Row(Running, true, None), Some(Launching), Some(Doubting(JOB)), true, 1, E3, {1}, {1}, {}),
    Scene(Row(Running, true, None), Some(Executing(2)), Some(Doubting(JOB)), true, 1, E3, {1, 2}, {1, 2}, {JOB}),
    Scene(Row(Running, true, None), Some(Ended(Some(PASSED))), Some(Doubting(JOB)), false, 1, E3, {1}, {1, 2}, {JOB}),
    Scene(Row(Succeeded, true, Some(PASSED)), None, Some(Doubting(JOB)), false, 1, E4, {1}, {1, 2}, {JOB}),
    Scene(Row(Interrupted, true, Some(PASSED)), None, None, false, 1, E5, {1}, {1, 2}, {JOB})]

  const STEPS := [
    Probe(0, JOB), Enter(JOB, 1), Wait(JOB), Seek(JOB), Read(0), EnterPool(JOB), Acquire(JOB, 16), Commit(JOB),
        Spawn(JOB, 2),
    Finish(JOB, Some(PASSED)), Record(JOB), Write(0)]

  ghost predicate Goes(a: System, step: Step, b: System) {
    Enabled(a, step) && Next(a, step) == b
  }

  lemma {:induction false} Submits()
    ensures Goes(EMPTY, Submit("s", PAYLOAD, false, false, JOB), At(SCENES[0]))
  {
    assert Latest(EMPTY.db, PAYLOAD) == None;
  }

  lemma {:induction false} Probes()
    ensures Goes(At(SCENES[0]), STEPS[0], At(SCENES[1]))
  {
  }

  lemma {:induction false} Enters()
    ensures Goes(At(SCENES[1]), STEPS[1], At(SCENES[2]))
  {
  }

  lemma {:induction false} Waits()
    ensures Goes(At(SCENES[2]), STEPS[2], At(SCENES[3]))
  {
  }

  lemma {:induction false} Dispatches()
    ensures Goes(At(SCENES[3]), STEPS[3], At(SCENES[4]))
  {
  }

  lemma {:induction false} Doubts()
    ensures Goes(At(SCENES[4]), STEPS[4], At(SCENES[5]))
  {
  }

  lemma {:induction false} Queues()
    ensures Goes(At(SCENES[5]), STEPS[5], At(SCENES[6]))
  {
  }

  lemma {:induction false} Granting()
    ensures var db := At(SCENES[6]).db;
            Acquired(db, JOB, 1, POLICY, {1}, 16) == (db.(leases := map[JOB := Lease(1, 1, 16)], lastTicket := 1), true)
  {
    var db := At(SCENES[6]).db;
    assert Reclaimed(db, POLICY, {1}) == db;
    var waiting := Enrolled(db, JOB, 1, 1, 16);
    assert waiting.waiters == map[JOB := Waiter(1, 1, 1, 16)] && IsHead(waiting.waiters, JOB);
    assert SlotsUsed(waiting.leases) == 0 && MemoryUsed(waiting.leases) == 0;
  }

  lemma {:induction false} Acquires()
    ensures Goes(At(SCENES[6]), STEPS[6], At(SCENES[7]))
  {
    hide Acquired;
    Granting();
  }

  lemma {:induction false} Commits()
    ensures Goes(At(SCENES[7]), STEPS[7], At(SCENES[8]))
  {
  }

  lemma {:induction false} Spawns()
    ensures Goes(At(SCENES[8]), STEPS[8], At(SCENES[9]))
  {
  }

  lemma {:induction false} Finishes()
    ensures Goes(At(SCENES[9]), STEPS[9], At(SCENES[10]))
  {
    assert LeftPool(At(SCENES[9]).db, JOB, true) == At(SCENES[10]).db;
  }

  lemma {:induction false} Records()
    ensures Goes(At(SCENES[10]), STEPS[10], At(SCENES[11]))
  {
  }

  lemma {:induction false} Overwrites()
    ensures Goes(At(SCENES[11]), STEPS[11], At(SCENES[12]))
  {
  }

  /** The run: its twelfth state has the job succeeded, its last has it interrupted. */
  lemma {:induction false} SuccessCanLapse() returns (run: seq<System>, steps: seq<Step>)
    ensures IsRun(run, steps) && |steps| == 13
    ensures JOB in run[12].db.jobs && run[12].db.jobs[JOB].state == Succeeded
    ensures JOB in run[13].db.jobs && run[13].db.jobs[JOB].state == Interrupted
  {
    run := [EMPTY] + seq(13, i requires 0 <= i < 13 => At(SCENES[i]));
    steps := [Submit("s", PAYLOAD, false, false, JOB)] + STEPS;
    hide Enabled, Next, At;
    Submits();
    forall i | 0 <= i < |steps| ensures StepAt(run, steps, i) {
      if 1 <= i {
        StepsFollow(i - 1);
      }
    }
    Ends();
  }

  lemma {:induction false} Ends()
    ensures Initial(EMPTY)
    ensures JOB in At(SCENES[11]).db.jobs && At(SCENES[11]).db.jobs[JOB].state == Succeeded
    ensures JOB in At(SCENES[12]).db.jobs && At(SCENES[12]).db.jobs[JOB].state == Interrupted
  {
  }

  lemma {:induction false} StepsFollow(i: nat)
    requires i < 12
    ensures Goes(At(SCENES[i]), STEPS[i], At(SCENES[i + 1]))
  {
    hide Goes, At;
    if i == 0 {
      Probes();
    } else if i == 1 {
      Enters();
    } else if i == 2 {
      Waits();
    } else if i == 3 {
      Dispatches();
    } else if i == 4 {
      Doubts();
    } else if i == 5 {
      Queues();
    } else if i == 6 {
      Acquires();
    } else if i == 7 {
      Commits();
    } else if i == 8 {
      Spawns();
    } else if i == 9 {
      Finishes();
    } else if i == 10 {
      Records();
    } else {
      Overwrites();
    }
  }
}
