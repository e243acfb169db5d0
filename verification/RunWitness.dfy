/** A run that completes, and is marked `failed` afterwards. */
module RunWitness {
  import opened Options
  import opened Tables
  import opened StoreSpec
  import opened RunSpec
  import opened RunLifecycle
  import opened RunVerdicts

  /** A slice of task `t` takes the task's number for its lease and its token. */
  function DriveOf(t: TaskId): Drive {
    Drive(7, 100, t, t)
  }

  function LeaseOf(t: TaskId): Lease {
    Lease(t, 7, Digest(t), 100, 0)
  }

  function Held(row: Task, t: TaskId): Task {
    row.(status := Leased, leaseId := Some(t), workerId := Some(7), leasedUntil := Some(100), attempt := 1)
  }

  function RunIs(status: RunStatus): map<RunId, Run> {
    map[0 := NewRun(None, None).(status := status)]
  }

  const FIRST: Task := NewTask(0, RunTask, DEFAULT_MAX_ATTEMPTS, 0, None)
  const SECOND: Task := NewTask(0, ContinueTask, DEFAULT_MAX_ATTEMPTS, 0, None)
  const THIRD: Task := NewTask(0, ResumeTask, 1, 0, None)

  lemma AfterAppend(history: seq<Action>, a: Action)
    ensures After(history + [a]) == Step(After(history), a)
  {
    assert (history + [a])[..|history|] == history;
  }

  function Driving(tasks: map<TaskId, Task>, held: set<TaskId>, status: RunStatus, events: seq<Event>): Db {
    Db(RunIs(status), tasks, map t | t in held :: LeaseOf(t), [], events)
  }

  // ---- what one call does ----

  lemma ClaimHolds(db: Db, t: TaskId)
    requires t in db.tasks && t !in db.leases && 0 in db.runs && !Terminal(db.runs[0].status) && db.runs[0].requestedAt == None
    requires db.tasks[t].runId == 0 && db.tasks[t].status == Pending && db.tasks[t].attempt == 0 && db.tasks[t].dueAt == 0
    ensures ClaimTask(db, t, 7, 100, 0, t, t).0 ==
              db.(runs := db.runs[0 := db.runs[0].(status := Running)], tasks := db.tasks[t := Held(db.tasks[t], t)], leases := db.leases[t := LeaseOf(t)])
  {
  }

  lemma CompleteSettles(db: Db, t: TaskId)
    requires t in db.tasks && t in db.leases && db.leases[t] == LeaseOf(t) && db.tasks[t].HeldUnder(t)
    ensures Complete(db, t, t, 0) == (db.(tasks := db.tasks[t := db.tasks[t].(status := Settled)], leases := db.leases - {t}), true)
  {
  }

  // ---- the run, step by step ----

  function Reached(tasks: map<TaskId, Task>, held: set<TaskId>, status: RunStatus, events: seq<Event>): State {
    State(Driving(tasks, held, status, events), 0, map[])
  }

  const STARTED: State := Reached(map[1 := Held(FIRST, 1)], {1}, Running, [])
  const PROCEEDED: State := Reached(map[1 := Held(FIRST, 1), 2 := SECOND], {1}, Queued, [])
  const BESIDE: State := Reached(map[1 := Held(FIRST, 1), 2 := Held(SECOND, 2)], {1, 2}, Running, [])
  const DONE: Task := Held(FIRST, 1).(status := Settled)
  const AWAITS: State := Reached(map[1 := DONE, 2 := Held(SECOND, 2)], {2}, Waiting, [Event(0, RunAwaiting)])
  const WOKEN: State := Reached(map[1 := DONE, 2 := Held(SECOND, 2), 3 := THIRD], {2}, Waiting, [Event(0, RunAwaiting)])
  const TAKEN: State := Reached(map[1 := DONE, 2 := Held(SECOND, 2), 3 := Held(THIRD, 3)], {2, 3}, Running, [Event(0, RunAwaiting)])

  const START: Action := Start(0, None, None, 1, Some(DriveOf(1)))
  const PROCEED: Action := Proceed(0, ContinueTask, 2, None)

  lemma Starts()
    ensures Step(INITIAL, START) == STARTED
  {
    ClaimHolds(Db(RunIs(Queued), map[1 := FIRST], map[], [], []), 1);
  }

  lemma Proceeds()
    ensures Step(STARTED, PROCEED) == PROCEEDED
  {
  }

  lemma ProceedsBeside()
    ensures Step(PROCEEDED, Claim(2, 7, 100, 2, 2)) == BESIDE
  {
    ClaimHolds(PROCEEDED.db, 2);
  }

  lemma FirstAwaits()
    ensures Step(BESIDE, End(1, 1, Awaits)) == AWAITS
  {
    CompleteSettles(BESIDE.db, 1);
  }

  lemma IsWoken()
    ensures Step(AWAITS, Resume(0, 3, 0, 1)) == WOKEN
  {
  }

  lemma WakeIsTaken()
    ensures Step(WOKEN, Claim(3, 7, 100, 3, 3)) == TAKEN
  {
    ClaimHolds(WOKEN.db, 3);
  }

  lemma SecondCompletes()
    ensures var s := Step(TAKEN, End(2, 2, Completes));
            && s.db.runs == RunIs(Completed) && s.db.events == [Event(0, RunAwaiting), Event(0, RunCompleted)] && s.now == 0
            && 3 in s.db.tasks && s.db.tasks[3] == Held(THIRD, 3) && 3 in s.db.leases && s.db.leases[3] == LeaseOf(3)
  {
    CompleteSettles(TAKEN.db, 2);
  }

  /** The run is started and driven, and a second slice of it is driven beside the first. The first awaits,
      and the wake that follows is given one attempt. The second completes the run. */
  lemma CompletedWithOneHeld() returns (history: seq<Action>)
    ensures After(history) == Step(TAKEN, End(2, 2, Completes))
  {
    history := [];
    Starts();
    AfterAppend(history, START); history := history + [START];
    Proceeds();
    AfterAppend(history, PROCEED); history := history + [PROCEED];
    ProceedsBeside();
    AfterAppend(history, Claim(2, 7, 100, 2, 2)); history := history + [Claim(2, 7, 100, 2, 2)];
    FirstAwaits();
    AfterAppend(history, End(1, 1, Awaits)); history := history + [End(1, 1, Awaits)];
    IsWoken();
    AfterAppend(history, Resume(0, 3, 0, 1)); history := history + [Resume(0, 3, 0, 1)];
    WakeIsTaken();
    AfterAppend(history, Claim(3, 7, 100, 3, 3)); history := history + [Claim(3, 7, 100, 3, 3)];
    AfterAppend(history, End(2, 2, Completes)); history := history + [End(2, 2, Completes)];
  }

  /** A COMPLETED RUN TURNS FAILED. The holder of the wake spends its one attempt, and the failure path marks
      the run all the same. */
  lemma CompletedTurnsFailed() returns (history: seq<Action>, a: Action)
    ensures After(history).db.runs == RunIs(Completed) && Event(0, RunCompleted) in After(history).db.events
    ensures 0 in After(history + [a]).db.runs && After(history + [a]).db.runs[0].status == Failed
  {
    history := CompletedWithOneHeld();
    a := End(3, 3, Fails);
    SecondCompletes();
    AfterAppend(history, a);
    RelabelledIffExhausted(After(history), a, 0);
    NoResurrection(history, [a], 0);
  }
}
