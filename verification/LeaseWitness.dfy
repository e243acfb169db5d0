/** Two schedules of single storage operations: one in which a claim goes uncounted, as its candidate was read
    before another claim opened and lapsed, and one in which a cancelled run is given no verdict. */
module LeaseWitness {
  import opened Options
  import opened Tables
  import opened StorageOps
  import opened LeaseProtocol
  import opened LeaseBudget

  const ROW: Task := Task(0, RunTask, Pending, 0, 0, 0, 3, 0, None, None, None, None)

  function Draw(lease: LeaseId): Choice {
    Choice(lease, lease, 0, [lease])
  }

  /** One step of a process that leaves task rows and mints alone. */
  lemma Goes(schedule: seq<Action>, pid: Pid, choice: Choice, q: Process) returns (longer: seq<Action>)
    requires var s := After(schedule);
             && pid in s.procs && !s.procs[pid].Mint? && !s.procs[pid].Take? && !q.Claimed?
             && (s.db, q) == Next(s.db, s.now, s.procs[pid], choice)
    ensures var s, s' := After(schedule), After(longer);
            s' == s.(procs := s.procs[pid := q], history := s'.history) && Past(s'.history, 0) == Past(s.history, 0)
  {
    longer := schedule + [Advance(pid, choice)];
    AfterAppend(schedule, Advance(pid, choice));
    StepHistory(After(schedule), Advance(pid, choice), 0);
  }

  /** A process that calls. */
  lemma Calls(schedule: seq<Action>, a: Action) returns (longer: seq<Action>)
    requires Enabled(After(schedule), a) && (a.CallClaim? || a.CallSweep?)
    ensures After(longer) == Do(After(schedule), a)
  {
    longer := schedule + [a];
    AfterAppend(schedule, a);
  }

  function TheClaim(worker: WorkerId): Claim {
    Claim(0, ROW, worker, 0, 0)
  }

  predicate CanOpen(s: State, lease: LeaseId) {
    && s.now == 0 && s.db.runs == map[]
    && 0 in s.db.tasks && s.db.tasks[0].status == Pending && s.db.tasks[0].dueAt == 0
    && lease !in s.minted && lease !in s.minted.Values
  }

  lemma Mints(schedule: seq<Action>, pid: Pid, worker: WorkerId, lease: LeaseId) returns (longer: seq<Action>)
    requires var s := After(schedule); CanOpen(s, lease) && pid in s.procs && s.procs[pid] == Mint(TheClaim(worker))
    ensures var s, s' := After(schedule), After(longer);
            && s' == s.(
                 db := InsertLease(s.db, lease, Lease(0, worker, Digest(lease), 0, 0)),
                 procs := s.procs[pid := Take(TheClaim(worker), lease, lease)],
                 minted := s.minted[lease := lease],
                 history := s'.history)
            && Past(s'.history, 0) == Past(s.history, 0)
  {
    var a := Advance(pid, Draw(lease));
    longer := schedule + [a];
    AfterAppend(schedule, a);
    StepHistory(After(schedule), a, 0);
  }

  lemma Takes(schedule: seq<Action>, pid: Pid, worker: WorkerId, lease: LeaseId) returns (longer: seq<Action>)
    requires var s := After(schedule);
             && s.now == 0 && 0 in s.db.tasks && s.db.tasks[0].status == Pending && s.db.tasks[0].dueAt == 0
             && pid in s.procs && s.procs[pid] == Take(TheClaim(worker), lease, lease)
    ensures var s, s' := After(schedule), After(longer);
            && s'.db == TakeTask(s.db, 0, 0, lease, worker, 0, 0)
            && s'.procs == s.procs[pid := StartRun(TheClaim(worker), lease, lease)]
            && s'.now == s.now && s'.minted == s.minted
            && Past(s'.history, 0) == Past(s.history, 0) + [Opened(Some(lease))]
  {
    var a := Advance(pid, Draw(lease));
    longer := schedule + [a];
    AfterAppend(schedule, a);
    StepHistory(After(schedule), a, 0);
  }

  lemma Decides(schedule: seq<Action>, pid: Pid, worker: WorkerId) returns (longer: seq<Action>)
    requires var s := After(schedule);
             && s.now == 0 && s.db.runs == map[] && pid in s.procs && s.procs[pid] == RowRead(0, ROW, worker, 0)
    ensures var s, s' := After(schedule), After(longer);
            s' == s.(procs := s.procs[pid := Mint(TheClaim(worker))], history := s'.history) && Past(s'.history, 0) == Past(s.history, 0)
  {
    longer := Goes(schedule, pid, Draw(0), Attempt(TheClaim(worker)));
    longer := Goes(longer, pid, Draw(0), Mint(TheClaim(worker)));
  }

  lemma Acquires(schedule: seq<Action>, pid: Pid, worker: WorkerId, lease: LeaseId) returns (longer: seq<Action>)
    requires var s := After(schedule); CanOpen(s, lease) && pid in s.procs && s.procs[pid] == Mint(TheClaim(worker))
    ensures var s, s' := After(schedule), After(longer);
            && s'.db == TakeTask(InsertLease(s.db, lease, Lease(0, worker, Digest(lease), 0, 0)), 0, 0, lease, worker, 0, 0)
            && s'.procs == s.procs[pid := StartRun(TheClaim(worker), lease, lease)]
            && s'.now == s.now && s'.minted == s.minted[lease := lease]
            && Past(s'.history, 0) == Past(s.history, 0) + [Opened(Some(lease))]
  {
    longer := Mints(schedule, pid, worker, lease);
    longer := Takes(longer, pid, worker, lease);
  }

  /** A worker that read the row as it was born takes it, writing attempt 1. */
  lemma Opens(schedule: seq<Action>, pid: Pid, worker: WorkerId, lease: LeaseId) returns (longer: seq<Action>)
    requires var s := After(schedule); CanOpen(s, lease) && pid in s.procs && s.procs[pid] == RowRead(0, ROW, worker, 0)
    ensures var s, s' := After(schedule), After(longer);
            && s'.db == TakeTask(InsertLease(s.db, lease, Lease(0, worker, Digest(lease), 0, 0)), 0, 0, lease, worker, 0, 0)
            && s'.procs == s.procs[pid := StartRun(TheClaim(worker), lease, lease)]
            && s'.now == s.now && s'.minted == s.minted[lease := lease]
            && Past(s'.history, 0) == Past(s.history, 0) + [Opened(Some(lease))]
  {
    longer := Decides(schedule, pid, worker);
    longer := Acquires(longer, pid, worker, lease);
  }

  lemma ListsOne(db: Db, lease: LeaseId)
    requires lease in db.leases && db.leases[lease].expiresAt == 0 && db.leases[lease].taskId == 0
    ensures Listed(db, [lease], 0) == [(lease, 0)]
  {
    assert [lease][1..] == [];
  }

  lemma Lists(schedule: seq<Action>, pid: Pid, lease: LeaseId) returns (longer: seq<Action>)
    requires var s := After(schedule);
             && s.now == 0 && pid in s.procs && s.procs[pid] == SweepStamp
             && lease in s.db.leases && s.db.leases[lease].expiresAt == 0 && s.db.leases[lease].taskId == 0
    ensures var s, s' := After(schedule), After(longer);
            s' == s.(procs := s.procs[pid := SweepNext(0, [(lease, 0)])], history := s'.history) && Past(s'.history, 0) == Past(s.history, 0)
  {
    ListsOne(After(schedule).db, lease);
    longer := Goes(schedule, pid, Draw(lease), SweepRead(0));
    longer := Goes(longer, pid, Draw(lease), SweepNext(0, [(lease, 0)]));
  }

  lemma Lapses(schedule: seq<Action>, pid: Pid, lease: LeaseId) returns (longer: seq<Action>)
    requires var s := After(schedule);
             && s.now == 0 && pid in s.procs && s.procs[pid] == SweepNext(0, [(lease, 0)])
             && 0 in s.db.tasks && s.db.tasks[0].HeldUnder(lease) && s.db.tasks[0].attempt == 1
    ensures var s, s' := After(schedule), After(longer);
            && s'.db == SweepLease(s.db, lease, 0, 0) && s'.now == s.now && s'.minted == s.minted
            && (forall q :: q in s.procs && q != pid ==> q in s'.procs && s'.procs[q] == s.procs[q])
            && Past(s'.history, 0) == Past(s.history, 0) + [Closed(Some(lease), false)]
  {
    var a := Advance(pid, Draw(lease));
    longer := schedule + [a];
    AfterAppend(schedule, a);
    SweepsOne(After(schedule).db, lease);
    StepHistory(After(schedule), a, 0);
  }

  lemma SweepsOne(db: Db, lease: LeaseId)
    requires 0 in db.tasks && db.tasks[0].HeldUnder(lease) && db.tasks[0].attempt == 1
    ensures Next(db, 0, SweepNext(0, [(lease, 0)]), Draw(lease)) == (SweepLease(db, lease, 0, 0), SweepNext(0, []))
    ensures Seen(RowAt(db.tasks, 0), RowAt(SweepLease(db, lease, 0, 0).tasks, 0)) == [Closed(Some(lease), false)]
  {
    assert [(lease, 0)][0] == (lease, 0) && [(lease, 0)][1..] == [];
  }

  lemma Begins() returns (schedule: seq<Action>)
    ensures var s := After(schedule);
            && s == INITIAL.(db := INITIAL.db.(tasks := map[0 := ROW]), used := {0}, procs := map[1 := RowRead(0, ROW, 7, 0), 2 := RowRead(0, ROW, 8, 0)], history := s.history)
            && Past(s.history, 0) == []
  {
    assert After([]) == INITIAL;
    AfterAppend([], Enqueue(0, ROW));
    StepHistory(INITIAL, Enqueue(0, ROW), 0);
    schedule := [] + [Enqueue(0, ROW)];
    assert After(schedule).db.tasks == map[0 := ROW];
    schedule := Calls(schedule, CallClaim(1, 0, 7, 0));
    schedule := Calls(schedule, CallClaim(2, 0, 8, 0));
  }

  predicate Midway(s: State, h: seq<Entry>) {
    && s.now == 0 && s.db.runs == map[] && s.minted == map[0 := 0]
    && 1 in s.procs && s.procs[1] == RowRead(0, ROW, 7, 0)
    && 0 in s.db.tasks && Past(s.history, 0) == h
  }

  lemma OtherOpens() returns (schedule: seq<Action>)
    ensures var s := After(schedule);
            && Midway(s, [Opened(Some(0))]) && 3 !in s.procs
            && s.db.tasks[0] == ROW.(status := Leased, leaseId := Some(0), workerId := Some(8), leasedUntil := Some(0), attempt := 1)
            && s.db.leases == map[0 := Lease(0, 8, Digest(0), 0, 0)]
  {
    schedule := Begins();
    schedule := Opens(schedule, 2, 8, 0);
  }

  lemma OtherIsListed() returns (schedule: seq<Action>)
    ensures var s := After(schedule);
            && Midway(s, [Opened(Some(0))]) && 3 in s.procs && s.procs[3] == SweepNext(0, [(0, 0)])
            && s.db.tasks[0].HeldUnder(0) && s.db.tasks[0].attempt == 1 && s.db.tasks[0].retryDelay == 0
  {
    schedule := OtherOpens();
    schedule := Calls(schedule, CallSweep(3));
    schedule := Lists(schedule, 3, 0);
  }

  /** Worker 8's claim has opened and lapsed while worker 7 still holds the row it read. */
  lemma OtherLapses() returns (schedule: seq<Action>)
    ensures var s := After(schedule);
            && Midway(s, [Opened(Some(0)), Closed(Some(0), false)])
            && s.db.tasks[0].status == Pending && s.db.tasks[0].dueAt == 0
  {
    schedule := OtherIsListed();
    schedule := Lapses(schedule, 3, 0);
  }

  /** Two claims opened; the row counts one. */
  lemma StaleClaimGoesUncounted() returns (schedule: seq<Action>)
    ensures var s := After(schedule);
            0 in s.db.tasks && s.db.tasks[0].attempt == 1 && Openings(Past(s.history, 0)) == 2
  {
    schedule := OtherLapses();
    var before := After(schedule);
    schedule := Opens(schedule, 1, 7, 1);
    TwoOpenings();
  }

  lemma TwoOpenings()
    ensures Openings([Opened(Some(0)), Closed(Some(0), false)] + [Opened(Some(1))]) == 2
  {
    var seen: seq<Entry> := [Opened(Some(0)), Closed(Some(0), false), Opened(Some(1))];
    assert [Opened(Some(0)), Closed(Some(0), false)] + [Opened(Some(1))] == seen;
    assert seen[..2][..1] == [Opened(Some(0))] && [Opened(Some(0))][..0] == [];
    assert Openings([Opened(Some(0))]) == 1;
    assert Openings(seen[..2]) == 1;
  }

  // ---- a claim that dies between settling a run and saying so ----

  const STOPPED: Run := Run(Queued, None, None, Some(0), Some(Stop), None, 1, 0, None, None)

  function Ended(): Run {
    STOPPED.Unlatched().(status := Cancelled)
  }

  /** One step of a process that neither draws, takes nor wins. */
  lemma Moves(schedule: seq<Action>, pid: Pid, db: Db, q: Process) returns (longer: seq<Action>)
    requires var s := After(schedule);
             && pid in s.procs && !s.procs[pid].Mint? && !s.procs[pid].Take? && !q.Claimed?
             && (db, q) == Next(s.db, s.now, s.procs[pid], Draw(0))
    ensures var s, s' := After(schedule), After(longer);
            s'.db == db && s'.now == s.now && s'.procs == s.procs[pid := q]
  {
    longer := schedule + [Advance(pid, Draw(0))];
    AfterAppend(schedule, Advance(pid, Draw(0)));
  }

  function Stopping(task: Task, run: Run): Db {
    Db(map[0 := run], map[0 := task], map[], [], [])
  }

  lemma BeginsStopped() returns (schedule: seq<Action>)
    ensures var s := After(schedule); s.db == Stopping(ROW, STOPPED) && s.now == 0 && s.procs == map[1 := RowRead(0, ROW, 7, 0)]
  {
    assert After([]) == INITIAL;
    AfterAppend([], Enqueue(0, ROW));
    schedule := [] + [Enqueue(0, ROW)];
    AfterAppend(schedule, WriteRun(0, STOPPED));
    schedule := schedule + [WriteRun(0, STOPPED)];
    assert After(schedule).db == Stopping(ROW, STOPPED);
    schedule := Calls(schedule, CallClaim(1, 0, 7, 0));
  }

  const KILLED: Db := Stopping(ROW.(status := Dead), STOPPED)
  const ENDED: Db := Stopping(ROW.(status := Dead), Ended())

  lemma Withholds()
    ensures Next(Stopping(ROW, STOPPED), 0, RowRead(0, ROW, 7, 0), Draw(0)) == (Stopping(ROW, STOPPED), Attempt(TheClaim(7)))
    ensures Next(Stopping(ROW, STOPPED), 0, Attempt(TheClaim(7)), Draw(0)) == (Stopping(ROW, STOPPED), Withhold(TheClaim(7), true))
  {
  }

  lemma Kills()
    ensures Next(Stopping(ROW, STOPPED), 0, Withhold(TheClaim(7), true), Draw(0)) == (KILLED, AskHolders(TheClaim(7), true))
  {
    assert KillPending(Stopping(ROW, STOPPED), 0).tasks == KILLED.tasks;
  }

  lemma Cancels()
    ensures Next(KILLED, 0, AskHolders(TheClaim(7), true), Draw(0)) == (KILLED, Settle(TheClaim(7), true))
    ensures Next(KILLED, 0, Settle(TheClaim(7), true), Draw(0)) == (ENDED, NoteSettled(0, true))
  {
    assert !HasLiveHolder(KILLED, 0, 0);
    assert SettleLatched(KILLED, 0, true).runs == ENDED.runs;
  }

  /** The claim finds the run asked to stop, and kills its task. */
  lemma KillsStopped() returns (schedule: seq<Action>)
    ensures var s := After(schedule); s.db == KILLED && s.now == 0 && s.procs == map[1 := AskHolders(TheClaim(7), true)]
  {
    schedule := BeginsStopped();
    Withholds();
    schedule := Moves(schedule, 1, Stopping(ROW, STOPPED), Attempt(TheClaim(7)));
    schedule := Moves(schedule, 1, Stopping(ROW, STOPPED), Withhold(TheClaim(7), true));
    Kills();
    schedule := Moves(schedule, 1, KILLED, AskHolders(TheClaim(7), true));
    assert After(schedule).procs == map[1 := AskHolders(TheClaim(7), true)];
  }

  /** It cancels the run. */
  lemma CancelsStopped() returns (schedule: seq<Action>)
    ensures var s := After(schedule); s.db == ENDED && s.procs == map[1 := NoteSettled(0, true)]
  {
    schedule := KillsStopped();
    Cancels();
    schedule := Moves(schedule, 1, KILLED, Settle(TheClaim(7), true));
    schedule := Moves(schedule, 1, ENDED, NoteSettled(0, true));
    assert After(schedule).procs == map[1 := NoteSettled(0, true)];
  }

  /** CANCELLED WITHOUT A VERDICT. The event is a write of its own, and the claim crashes before it. */
  lemma CrashLosesVerdict() returns (schedule: seq<Action>)
    ensures var s := After(schedule);
            && 0 in s.db.runs && s.db.runs[0].status == Cancelled && s.db.events == [] && s.procs == map[]
  {
    schedule := CancelsStopped();
    AfterAppend(schedule, Crash(1));
    schedule := schedule + [Crash(1)];
  }
}
