/** Two schedules of single storage operations that leave a run queued with nothing pending: a spent task is
    killed in one write and its run failed in another, and after a crash between them nobody fails it. */
module StrandedRun {
  import opened Options
  import opened Tables
  import opened StorageOps
  import opened LeaseProtocol
  import opened LeaseBudget
  import opened LeaseWitness

  const WAITING_RUN: Run := Run(Queued, None, None, None, None, None, 0, 0, None, None)

  function Counting(claims: nat): Task {
    ROW.(attempt := claims)
  }

  /** The one run, its one task, and the lease it is held under if it is. */
  function Rows(status: RunStatus, task: Task, leases: map<LeaseId, Lease>): Db {
    Db(map[0 := WAITING_RUN.(status := status)], map[0 := task], leases, [], [])
  }

  function Idle(claims: nat): Db {
    Rows(Queued, Counting(claims), map[])
  }

  function Drawn(l: LeaseId, ttl: nat): map<LeaseId, Lease> {
    map[l := Lease(0, 7, Digest(l), ttl, 0)]
  }

  function Held(claims: nat, l: LeaseId, ttl: nat): Task {
    Counting(claims).(status := Leased, leaseId := Some(l), workerId := Some(7), leasedUntil := Some(ttl))
  }

  function Candidate(claims: nat, ttl: nat): Claim {
    Claim(0, Counting(claims), 7, ttl, 0)
  }

  // ---- what each operation does ----

  lemma Decides(k: nat, ttl: nat, choice: Choice)
    requires k < MAX_CLAIMS
    ensures Next(Idle(k), 0, RowRead(0, Counting(k), 7, ttl), choice) == (Idle(k), Attempt(Candidate(k, ttl)))
    ensures Next(Idle(k), 0, Attempt(Candidate(k, ttl)), choice) == (Idle(k), Mint(Candidate(k, ttl)))
  {
  }

  lemma Draws(k: nat, ttl: nat)
    ensures Next(Idle(k), 0, Mint(Candidate(k, ttl)), Draw(k)) == (Rows(Queued, Counting(k), Drawn(k, ttl)), Take(Candidate(k, ttl), k, k))
  {
    assert Idle(k).leases[k := Lease(0, 7, Digest(k), ttl, 0)] == Drawn(k, ttl);
  }

  lemma TakesIt(k: nat, ttl: nat)
    ensures Next(Rows(Queued, Counting(k), Drawn(k, ttl)), 0, Take(Candidate(k, ttl), k, k), Draw(k)) ==
              (Rows(Queued, Held(k + 1, k, ttl), Drawn(k, ttl)), StartRun(Candidate(k, ttl), k, k))
  {
    var db := Rows(Queued, Counting(k), Drawn(k, ttl));
    assert TakeTask(db, 0, k, k, 7, ttl, 0).tasks == map[0 := Held(k + 1, k, ttl)];
  }

  function Swept(k: nat): Task {
    if k < MAX_CLAIMS then Counting(k) else Counting(k).(status := Dead)
  }

  lemma Sweeps(k: nat)
    ensures var held := Rows(Queued, Held(k + 1, k, 0), Drawn(k, 0));
            && Next(held, 0, SweepStamp, Draw(k)) == (held, SweepRead(0))
            && Next(held, 0, SweepRead(0), Draw(k)) == (held, SweepNext(0, [(k, 0)]))
  {
    ListsOne(Rows(Queued, Held(k + 1, k, 0), Drawn(k, 0)), k);
  }

  lemma Lapse(k: nat)
    ensures Next(Rows(Queued, Held(k + 1, k, 0), Drawn(k, 0)), 0, SweepNext(0, [(k, 0)]), Draw(k)) ==
              (Rows(Queued, Swept(k + 1), map[]), if k + 1 < MAX_CLAIMS then SweepNext(0, []) else SweepFail(0, [], 0))
  {
    var held := Rows(Queued, Held(k + 1, k, 0), Drawn(k, 0));
    assert [(k, 0)][0] == (k, 0) && [(k, 0)][1..] == [];
    assert SweepLease(held, k, 0, 0) == Rows(Queued, Swept(k + 1), map[]);
  }

  // ---- schedules ----

  /** Where a schedule stands: the tables, the one process there is, and which ids were drawn. */
  ghost predicate At(s: State, db: Db, pid: Pid, p: Process, drawn: nat) {
    s.db == db && s.now == 0 && s.procs == map[pid := p] && DrawnBelow(s, drawn)
  }

  ghost predicate DrawnBelow(s: State, drawn: nat) {
    (forall l :: l in s.minted ==> l < drawn) && (forall token :: token in s.minted.Values ==> token < drawn)
  }

  ghost predicate Quiet(s: State, db: Db, drawn: nat) {
    s.db == db && s.now == 0 && s.procs == map[] && DrawnBelow(s, drawn)
  }

  lemma Calls(schedule: seq<Action>, db: Db, drawn: nat, a: Action, p: Process) returns (longer: seq<Action>)
    requires Quiet(After(schedule), db, drawn) && Enabled(After(schedule), a)
    requires a.CallClaim? || a.CallSweep? || a.CallSettle?
    requires Do(After(schedule), a) == Spawn(After(schedule), a.pid, p)
    ensures At(After(longer), db, a.pid, p, drawn)
  {
    longer := schedule + [a];
    AfterAppend(schedule, a);
  }

  lemma Goes(schedule: seq<Action>, db: Db, pid: Pid, p: Process, drawn: nat, choice: Choice, db': Db, q: Process) returns (longer: seq<Action>)
    requires At(After(schedule), db, pid, p, drawn) && !p.Mint? && Next(db, 0, p, choice) == (db', q)
    ensures At(After(longer), db', pid, q, drawn)
  {
    longer := schedule + [Advance(pid, choice)];
    AfterAppend(schedule, Advance(pid, choice));
  }

  lemma ValuesBelow(minted: map<LeaseId, Token>, n: nat, more: map<LeaseId, Token>)
    requires (forall token :: token in minted.Values ==> token < n) && more == minted[n := n]
    ensures forall token :: token in more.Values ==> token < n + 1
  {
    forall token | token in more.Values
      ensures token < n + 1
    {
      var l :| l in more && more[l] == token;
      assert l != n ==> minted[l] in minted.Values;
    }
  }

  lemma Mints(schedule: seq<Action>, db: Db, pid: Pid, p: Process, drawn: nat, db': Db, q: Process) returns (longer: seq<Action>)
    requires At(After(schedule), db, pid, p, drawn) && p.Mint? && Next(db, 0, p, Draw(drawn)) == (db', q)
    ensures At(After(longer), db', pid, q, drawn + 1)
  {
    var s, a := After(schedule), Advance(pid, Draw(drawn));
    longer := schedule + [a];
    AfterAppend(schedule, a);
    assert Enabled(s, a);
    ValuesBelow(s.minted, drawn, After(longer).minted);
  }

  lemma Dies(schedule: seq<Action>, db: Db, pid: Pid, p: Process, drawn: nat) returns (longer: seq<Action>)
    requires At(After(schedule), db, pid, p, drawn)
    ensures Quiet(After(longer), db, drawn)
  {
    longer := schedule + [Crash(pid)];
    AfterAppend(schedule, Crash(pid));
  }

  lemma Begins() returns (schedule: seq<Action>)
    ensures Quiet(After(schedule), Idle(0), 0)
  {
    assert After([]) == INITIAL;
    AfterAppend([], Enqueue(0, ROW));
    schedule := [] + [Enqueue(0, ROW)];
    AfterAppend(schedule, WriteRun(0, WAITING_RUN));
    schedule := schedule + [WriteRun(0, WAITING_RUN)];
  }

  /** A claim takes the task and is about to start the run. */
  lemma Claims(schedule: seq<Action>, k: nat, ttl: nat) returns (longer: seq<Action>)
    requires k < MAX_CLAIMS && Quiet(After(schedule), Idle(k), k)
    ensures At(After(longer), Rows(Queued, Held(k + 1, k, ttl), Drawn(k, ttl)), 1, StartRun(Candidate(k, ttl), k, k), k + 1)
  {
    var c := Candidate(k, ttl);
    longer := Calls(schedule, Idle(k), k, CallClaim(1, 0, 7, ttl), RowRead(0, Counting(k), 7, ttl));
    Decides(k, ttl, Draw(k));
    longer := Goes(longer, Idle(k), 1, RowRead(0, Counting(k), 7, ttl), k, Draw(k), Idle(k), Attempt(c));
    longer := Goes(longer, Idle(k), 1, Attempt(c), k, Draw(k), Idle(k), Mint(c));
    Draws(k, ttl);
    longer := Mints(longer, Idle(k), 1, Mint(c), k, Rows(Queued, Counting(k), Drawn(k, ttl)), Take(c, k, k));
    TakesIt(k, ttl);
    longer := Goes(longer, Rows(Queued, Counting(k), Drawn(k, ttl)), 1, Take(c, k, k), k + 1, Draw(k), Rows(Queued, Held(k + 1, k, ttl), Drawn(k, ttl)), StartRun(c, k, k));
  }

  /** It dies there, and a sweep lapses its lease. */
  lemma Lapses(schedule: seq<Action>, k: nat) returns (longer: seq<Action>)
    requires k < MAX_CLAIMS && Quiet(After(schedule), Idle(k), k)
    ensures At(After(longer), Rows(Queued, Swept(k + 1), map[]), 2, if k + 1 < MAX_CLAIMS then SweepNext(0, []) else SweepFail(0, [], 0), k + 1)
  {
    var held := Rows(Queued, Held(k + 1, k, 0), Drawn(k, 0));
    longer := Claims(schedule, k, 0);
    longer := Dies(longer, held, 1, StartRun(Candidate(k, 0), k, k), k + 1);
    longer := Calls(longer, held, k + 1, CallSweep(2), SweepStamp);
    Sweeps(k);
    longer := Goes(longer, held, 2, SweepStamp, k + 1, Draw(k), held, SweepRead(0));
    longer := Goes(longer, held, 2, SweepRead(0), k + 1, Draw(k), held, SweepNext(0, [(k, 0)]));
    Lapse(k);
    longer := Goes(longer, held, 2, SweepNext(0, [(k, 0)]), k + 1, Draw(k), Rows(Queued, Swept(k + 1), map[]), if k + 1 < MAX_CLAIMS then SweepNext(0, []) else SweepFail(0, [], 0));
  }

  lemma {:induction false} LapsedTimes(k: nat) returns (schedule: seq<Action>)
    requires k < MAX_CLAIMS
    ensures Quiet(After(schedule), Idle(k), k)
  {
    if k == 0 {
      schedule := Begins();
    } else {
      schedule := LapsedTimes(k - 1);
      schedule := Lapses(schedule, k - 1);
      schedule := Dies(schedule, Idle(k), 2, SweepNext(0, []), k);
    }
  }

  /** The run is queued and asked nothing, every task is dead, and nobody is at work. */
  ghost predicate Stranded(s: State) {
    && 0 in s.db.runs && s.db.runs[0].status == Queued && s.db.runs[0].requestedAt == None
    && (forall t :: t in s.db.tasks ==> s.db.tasks[t].status == Dead)
    && s.procs == map[]
  }

  /** A SWEEP STRANDS A RUN. Eight claims die before they start the run; the last sweep abandons the task, and
      crashes before it fails the run. */
  lemma SweepStrandsRun() returns (schedule: seq<Action>)
    ensures Stranded(After(schedule))
  {
    schedule := LapsedTimes(7);
    schedule := Lapses(schedule, 7);
    schedule := Dies(schedule, Rows(Queued, Swept(8), map[]), 2, SweepFail(0, [], 0), 8);
  }

  // ---- the same at the claim ----

  /** Claimed eight times, failed once. */
  const SPENT: Task := Counting(8).(errorAttempt := 1)
  const LAST: Task := Held(8, 7, 1)

  lemma StartsIt()
    ensures Next(Rows(Queued, LAST, Drawn(7, 1)), 0, StartRun(Candidate(7, 1), 7, 7), Draw(0)) == (Rows(Running, LAST, Drawn(7, 1)), Claimed(7))
  {
    assert SetStatusIf(Rows(Queued, LAST, Drawn(7, 1)), 0, NON_TERMINAL, Running).runs == map[0 := WAITING_RUN.(status := Running)];
  }

  lemma Presents()
    ensures var db := Rows(Running, LAST, Drawn(7, 1));
            && Next(db, 0, SettleRead(Fails, 0, 7), Draw(0)) == (db, SettleCheck(Fails, 0, 7, LAST))
            && Next(db, 0, SettleCheck(Fails, 0, 7, LAST), Draw(0)) == (db, SettleStamp(Fails, 0, 7, LAST, 7))
            && Next(db, 0, SettleStamp(Fails, 0, 7, LAST, 7), Draw(0)) == (db, SettleWrite(Fails, 0, 7, LAST, 7, 0))
  {
  }

  lemma FailsIt()
    ensures Next(Rows(Running, LAST, Drawn(7, 1)), 0, SettleWrite(Fails, 0, 7, LAST, 7, 0), Draw(0)) == (Rows(Running, SPENT, Drawn(7, 1)), Drop(7))
    ensures Next(Rows(Running, SPENT, Drawn(7, 1)), 0, Drop(7), Draw(0)) == (Rows(Running, SPENT, map[]), Finished)
  {
    assert FailHeld(Rows(Running, LAST, Drawn(7, 1)), 0, 7, LAST, 0).tasks == map[0 := SPENT];
    assert Drawn(7, 1) - {7} == map[];
  }

  lemma KillsIt()
    ensures var db, c := Rows(Queued, SPENT, map[]), Claim(0, SPENT, 7, 0, 0);
            && Next(db, 0, RowRead(0, SPENT, 7, 0), Draw(0)) == (db, Attempt(c))
            && Next(db, 0, Attempt(c), Draw(0)) == (Rows(Queued, SPENT.(status := Dead), map[]), FailExhausted(0))
  {
    assert KillPending(Rows(Queued, SPENT, map[]), 0).tasks == map[0 := SPENT.(status := Dead)];
  }

  /** The eighth claim is held. */
  lemma HeldLast() returns (schedule: seq<Action>)
    ensures Quiet(After(schedule), Rows(Running, LAST, Drawn(7, 1)), 8)
  {
    schedule := LapsedTimes(7);
    schedule := Claims(schedule, 7, 1);
    StartsIt();
    schedule := Goes(schedule, Rows(Queued, LAST, Drawn(7, 1)), 1, StartRun(Candidate(7, 1), 7, 7), 8, Draw(0), Rows(Running, LAST, Drawn(7, 1)), Claimed(7));
    schedule := Dies(schedule, Rows(Running, LAST, Drawn(7, 1)), 1, Claimed(7), 8);
  }

  lemma PresentsLast() returns (schedule: seq<Action>)
    ensures At(After(schedule), Rows(Running, LAST, Drawn(7, 1)), 3, SettleWrite(Fails, 0, 7, LAST, 7, 0), 8)
  {
    var db := Rows(Running, LAST, Drawn(7, 1));
    schedule := HeldLast();
    schedule := Calls(schedule, db, 8, CallSettle(3, Fails, 0, 7), SettleRead(Fails, 0, 7));
    Presents();
    schedule := Goes(schedule, db, 3, SettleRead(Fails, 0, 7), 8, Draw(0), db, SettleCheck(Fails, 0, 7, LAST));
    schedule := Goes(schedule, db, 3, SettleCheck(Fails, 0, 7, LAST), 8, Draw(0), db, SettleStamp(Fails, 0, 7, LAST, 7));
    schedule := Goes(schedule, db, 3, SettleStamp(Fails, 0, 7, LAST, 7), 8, Draw(0), db, SettleWrite(Fails, 0, 7, LAST, 7, 0));
  }

  /** Its holder reports a failure, which is not its last; then somebody queues the run again. */
  lemma FailedOnce() returns (schedule: seq<Action>)
    ensures Quiet(After(schedule), Rows(Queued, SPENT, map[]), 8)
  {
    schedule := PresentsLast();
    FailsIt();
    schedule := Goes(schedule, Rows(Running, LAST, Drawn(7, 1)), 3, SettleWrite(Fails, 0, 7, LAST, 7, 0), 8, Draw(0), Rows(Running, SPENT, Drawn(7, 1)), Drop(7));
    schedule := Goes(schedule, Rows(Running, SPENT, Drawn(7, 1)), 3, Drop(7), 8, Draw(0), Rows(Running, SPENT, map[]), Finished);
    schedule := Dies(schedule, Rows(Running, SPENT, map[]), 3, Finished, 8);
    AfterAppend(schedule, WriteRun(0, WAITING_RUN));
    schedule := schedule + [WriteRun(0, WAITING_RUN)];
  }

  /** A CLAIM STRANDS A RUN. It finds the task claimed too often, kills it, and crashes before it fails the run. */
  lemma ClaimStrandsRun() returns (schedule: seq<Action>)
    ensures Stranded(After(schedule))
  {
    var db, killed, c := Rows(Queued, SPENT, map[]), Rows(Queued, SPENT.(status := Dead), map[]), Claim(0, SPENT, 7, 0, 0);
    schedule := FailedOnce();
    schedule := Calls(schedule, db, 8, CallClaim(4, 0, 7, 0), RowRead(0, SPENT, 7, 0));
    KillsIt();
    schedule := Goes(schedule, db, 4, RowRead(0, SPENT, 7, 0), 8, Draw(0), db, Attempt(c));
    schedule := Goes(schedule, db, 4, Attempt(c), 8, Draw(0), killed, FailExhausted(0));
    schedule := Dies(schedule, killed, 4, FailExhausted(0), 8);
  }
}
