/** What the store's methods do to a database, row by row and in the words of its columns. */
module StoreLaws {
  import opened Options
  import opened Tables
  import opened StorageOps
  import opened StoreSpec

  // ---- words ----

  predicate IsLive(db: Db, run: RunId) {
    run in db.runs && (db.runs[run].status == Queued || db.runs[run].status == Running || db.runs[run].status == Waiting)
  }

  predicate IsHeldUnder(row: Task, lease: LeaseId) {
    row.status == Leased && row.leaseId == Some(lease)
  }

  /** The lease the task names is there, names the task back, is unexpired and has this token's hash. */
  predicate Presents(db: Db, t: TaskId, token: Token, at: Time) {
    && t in db.tasks && db.tasks[t].leaseId.Some? && db.tasks[t].leaseId.value in db.leases
    && var lease := db.leases[db.tasks[t].leaseId.value];
       lease.taskId == t && at < lease.expiresAt && lease.tokenHash == Digest(token)
  }

  /** Some task of the run is in somebody's hands past `at`. */
  predicate IsBusy(db: Db, run: RunId, at: Time) {
    exists t :: t in db.tasks && db.tasks[t].runId == run && db.tasks[t].status == Leased
      && db.tasks[t].leasedUntil.Some? && at < db.tasks[t].leasedUntil.value
  }

  // ---- claiming ----

  /** A task claimed eight times already is killed, and its run failed if it is queued. */
  lemma SpentClaim(db: Db, t: TaskId, worker: WorkerId, ttl: nat, at: Time, lease: LeaseId, token: Token)
    requires t in db.tasks && db.tasks[t].attempt >= 8
    ensures var row := db.tasks[t]; var run := row.runId;
            ClaimTask(db, t, worker, ttl, at, lease, token) ==
              (db.(tasks := if row.status == Pending then db.tasks[t := row.(status := Dead)] else db.tasks,
                   runs := if run in db.runs && db.runs[run].status == Queued then db.runs[run := db.runs[run].(status := Failed)] else db.runs),
               false)
  {
  }

  /** What becomes of a run asked to stop or pause, once nobody is left to see it: a suspend leaves it waiting,
      anything higher cancels it, and the latch is cleared. */
  function Withheld(row: Run): Run {
    Run(if row.intent == Some(Suspend) then Waiting else Cancelled, row.principal, row.threadId,
      None, None, None, row.controlSeq, row.messageSeq,
      if row.intent == Some(Suspend) then Some(Suspended) else None, row.resumeCheckpoint)
  }

  /** A WITHHELD CLAIM. Of a run with a latch no task is claimed: a pending one is killed, and then, unless the
      run is running or some task of it is still in somebody's hands, the latch is honoured, with its event. */
  lemma WithheldClaim(db: Db, t: TaskId, worker: WorkerId, ttl: nat, at: Time, lease: LeaseId, token: Token)
    requires t in db.tasks && db.tasks[t].attempt < 8
    requires db.tasks[t].runId in db.runs && db.runs[db.tasks[t].runId].requestedAt.Some?
    ensures var row := db.tasks[t]; var run := row.runId; var asked := db.runs[run];
            var honoured := row.status == Pending && (asked.status == Queued || asked.status == Waiting) && !IsBusy(db, run, at);
            ClaimTask(db, t, worker, ttl, at, lease, token) ==
              (db.(tasks := if row.status == Pending then db.tasks[t := row.(status := Dead)] else db.tasks,
                   runs := if honoured then db.runs[run := Withheld(asked)] else db.runs,
                   events := if honoured then db.events + [Event(run, if asked.intent == Some(Suspend) then RunSuspended else RunCancelled)] else db.events),
               false)
  {
    if db.tasks[t].status == Pending {
      BusyAfterKill(db, t, db.tasks[t].runId, at);
    }
  }

  lemma BusyAfterKill(db: Db, t: TaskId, run: RunId, at: Time)
    requires t in db.tasks && db.tasks[t].status == Pending
    ensures IsBusy(db, run, at) <==> HasLiveHolder(KillPending(db, t), run, at)
  {
    var killed := KillPending(db, t);
    if IsBusy(db, run, at) {
      var u :| u in db.tasks && db.tasks[u].runId == run && db.tasks[u].status == Leased
        && db.tasks[u].leasedUntil.Some? && at < db.tasks[u].leasedUntil.value;
      assert killed.tasks[u] == db.tasks[u];
    }
    if HasLiveHolder(killed, run, at) {
      var u :| u in killed.tasks && IsLiveHolder(killed.tasks[u], run, at);
      assert killed.tasks[u] == db.tasks[u];
    }
  }

  /** A task that is gone, not pending or not yet due is left alone. */
  lemma EarlyClaim(db: Db, t: TaskId, worker: WorkerId, ttl: nat, at: Time, lease: LeaseId, token: Token)
    requires lease !in db.leases
    requires t in db.tasks ==>
               && db.tasks[t].attempt < 8 && (db.tasks[t].status != Pending || at < db.tasks[t].dueAt)
               && (db.tasks[t].runId in db.runs ==> db.runs[db.tasks[t].runId].requestedAt == None)
    ensures ClaimTask(db, t, worker, ttl, at, lease, token) == (db, false)
  {
    assert db.leases[lease := Lease(t, worker, Digest(token), at + ttl, at)] - {lease} == db.leases;
  }

  /** AN OPEN CLAIM. A pending task that is due is leased to the caller, its live run runs, and one claim more is
      counted. */
  lemma OpenClaim(db: Db, t: TaskId, worker: WorkerId, ttl: nat, at: Time, lease: LeaseId, token: Token)
    requires t in db.tasks && db.tasks[t].attempt < 8 && lease !in db.leases
    requires IsLive(db, db.tasks[t].runId) && db.runs[db.tasks[t].runId].requestedAt == None
    requires db.tasks[t].status == Pending && db.tasks[t].dueAt <= at
    ensures var row := db.tasks[t];
            ClaimTask(db, t, worker, ttl, at, lease, token) ==
              (db.(tasks := db.tasks[t := row.(status := Leased, leaseId := Some(lease), workerId := Some(worker),
                                               leasedUntil := Some(at + ttl), attempt := row.attempt + 1)],
                   leases := db.leases[lease := Lease(t, worker, Digest(token), at + ttl, at)],
                   runs := db.runs[row.runId := db.runs[row.runId].(status := Running)]),
               true)
  {
  }

  /** Where its run is finished, or gone, the task is killed instead, and no lease is left. */
  lemma RetiredClaim(db: Db, t: TaskId, worker: WorkerId, ttl: nat, at: Time, lease: LeaseId, token: Token)
    requires t in db.tasks && db.tasks[t].attempt < 8 && lease !in db.leases
    requires !IsLive(db, db.tasks[t].runId) && (db.tasks[t].runId in db.runs ==> db.runs[db.tasks[t].runId].requestedAt == None)
    requires db.tasks[t].status == Pending && db.tasks[t].dueAt <= at
    ensures var row := db.tasks[t];
            ClaimTask(db, t, worker, ttl, at, lease, token) ==
              (db.(tasks := db.tasks[t := row.(status := Dead, leaseId := None, workerId := None, leasedUntil := None, attempt := row.attempt + 1)]),
               false)
  {
    var row := db.tasks[t];
    var taken := row.(status := Leased, leaseId := Some(lease), workerId := Some(worker), leasedUntil := Some(at + ttl), attempt := row.attempt + 1);
    var dead := row.(status := Dead, leaseId := None, workerId := None, leasedUntil := None, attempt := row.attempt + 1);
    assert db.leases[lease := Lease(t, worker, Digest(token), at + ttl, at)] - {lease} == db.leases;
    assert db.tasks[t := taken][t := dead] == db.tasks[t := dead];
  }

  // ---- holding ----

  /** A HEARTBEAT. The holder of an unexpired lease moves it, and the task held under it by that worker, to `ttl`
      from now. Where the task no longer names it the lease is dropped; anybody else changes nothing. */
  lemma BeatExtends(db: Db, lease: LeaseId, token: Token, ttl: nat, at: Time)
    ensures Heartbeat(db, lease, token, ttl, at) ==
              if lease !in db.leases || db.leases[lease].expiresAt <= at || db.leases[lease].tokenHash != Digest(token) then (db, false)
              else
                var held := db.leases[lease];
                if held.taskId in db.tasks && IsHeldUnder(db.tasks[held.taskId], lease) && db.tasks[held.taskId].workerId == Some(held.workerId)
                then (db.(leases := db.leases[lease := held.(expiresAt := at + ttl, lastHeartbeatAt := at)],
                          tasks := db.tasks[held.taskId := db.tasks[held.taskId].(leasedUntil := Some(at + ttl))]),
                      true)
                else (db.(leases := db.leases - {lease}), false)
  {
    if lease in db.leases {
      var held := db.leases[lease];
      assert db.leases[lease := held.(expiresAt := at + ttl, lastHeartbeatAt := at)] - {lease} == db.leases - {lease};
    }
  }

  // ---- settling ----

  /** The current holder completes its task and its lease is dropped; nobody else changes anything. */
  lemma HolderCompletes(db: Db, t: TaskId, token: Token, at: Time)
    ensures Complete(db, t, token, at) ==
              if Presents(db, t, token, at) && db.tasks[t].status == Leased
              then (db.(tasks := db.tasks[t := db.tasks[t].(status := TaskStatus.Settled)], leases := db.leases - {db.tasks[t].leaseId.value}), true)
              else (db, false)
  {
  }

  /** A FAILURE. The current holder gives its task back with one error more, due again after its delay, or dead
      once its errors are spent; the lease presented is dropped even when the task is no longer leased. */
  lemma HolderFails(db: Db, t: TaskId, token: Token, at: Time)
    ensures Fail(db, t, token, at) ==
              if !Presents(db, t, token, at) then (db, false)
              else
                var row := db.tasks[t];
                var spent := row.errorAttempt + 1 >= row.maxAttempts;
                (db.(tasks := if row.status != Leased then db.tasks
                              else db.tasks[t := row.(status := if spent then Dead else Pending, errorAttempt := row.errorAttempt + 1,
                                                      dueAt := if spent then row.dueAt else at + row.retryDelay,
                                                      leaseId := None, workerId := None, leasedUntil := None)],
                     leases := db.leases - {row.leaseId.value}),
                 row.status == Leased)
  {
  }

  // ---- sweeping ----

  /** One of the leases found holds this task. */
  ghost predicate IsFound(db: Db, found: seq<(LeaseId, TaskId)>, t: TaskId) {
    t in db.tasks && db.tasks[t].status == Leased && db.tasks[t].leaseId.Some? && (db.tasks[t].leaseId.value, t) in found
  }

  /** The row of a task whose holder vanished: pending again after its delay, with no error charged; dead if it was
      claimed eight times. */
  function Lapsed(row: Task, at: Time): Task {
    Task(row.runId, row.kind, if row.attempt >= 8 then Dead else Pending, if row.attempt >= 8 then row.dueAt else at + row.retryDelay,
      row.attempt, row.errorAttempt, row.maxAttempts, row.retryDelay, None, None, None, row.runAs)
  }

  /** Some task of the run, claimed eight times, is held under a lease found. */
  ghost predicate IsExhausted(db: Db, found: seq<(LeaseId, TaskId)>, run: RunId) {
    exists t :: IsFound(db, found, t) && db.tasks[t].attempt >= 8 && db.tasks[t].runId == run
  }

  /** A lease found that holds its task, or whose task is gone. */
  predicate IsSpent(db: Db, found: seq<(LeaseId, TaskId)>, lease: LeaseId) {
    exists i :: 0 <= i < |found| && found[i].0 == lease && (found[i].1 in db.tasks ==> IsHeldUnder(db.tasks[found[i].1], lease))
  }

  ghost predicate Swept(db: Db, found: seq<(LeaseId, TaskId)>, at: Time, db': Db) {
    && db'.tasks.Keys == db.tasks.Keys
    && (forall t :: t in db.tasks ==> db'.tasks[t] == if IsFound(db, found, t) then Lapsed(db.tasks[t], at) else db.tasks[t])
    && db'.runs.Keys == db.runs.Keys
    && (forall run :: run in db.runs ==>
          db'.runs[run] == if IsLive(db, run) && IsExhausted(db, found, run) then db.runs[run].(status := Failed) else db.runs[run])
    && (forall l :: l in db'.leases <==> l in db.leases && !IsSpent(db, found, l))
    && (forall l :: l in db'.leases ==> db'.leases[l] == db.leases[l])
    && db'.messages == db.messages && db'.events == db.events
  }

  lemma OneIsFound(db: Db, lease: LeaseId, t: TaskId, found: seq<(LeaseId, TaskId)>)
    requires found == [(lease, t)]
    ensures forall u :: IsFound(db, found, u) <==> u == t && t in db.tasks && IsHeldUnder(db.tasks[t], lease)
    ensures forall run :: IsExhausted(db, found, run) <==>
              t in db.tasks && IsHeldUnder(db.tasks[t], lease) && db.tasks[t].attempt >= 8 && db.tasks[t].runId == run
    ensures forall l :: IsSpent(db, found, l) <==> l == lease && (t in db.tasks ==> IsHeldUnder(db.tasks[t], lease))
  {
    assert found[0] == (lease, t);
    forall run
      ensures IsExhausted(db, found, run) <==>
                t in db.tasks && IsHeldUnder(db.tasks[t], lease) && db.tasks[t].attempt >= 8 && db.tasks[t].runId == run
    {
      if t in db.tasks && IsHeldUnder(db.tasks[t], lease) {
        assert IsFound(db, found, t);
      }
    }
  }

  lemma HeldSwept(db: Db, lease: LeaseId, t: TaskId, at: Time)
    requires t in db.tasks && IsHeldUnder(db.tasks[t], lease)
    ensures var row := db.tasks[t];
            ReapOne(db, lease, t, at) ==
              db.(tasks := db.tasks[t := Lapsed(row, at)], leases := db.leases - {lease},
                  runs := if row.attempt >= 8 && IsLive(db, row.runId) then db.runs[row.runId := db.runs[row.runId].(status := Failed)] else db.runs)
  {
  }

  lemma UnheldSwept(db: Db, lease: LeaseId, t: TaskId, at: Time)
    requires t in db.tasks ==> !IsHeldUnder(db.tasks[t], lease)
    ensures ReapOne(db, lease, t, at) == if t in db.tasks then db else db.(leases := db.leases - {lease})
  {
  }

  lemma OneSwept(db: Db, lease: LeaseId, t: TaskId, at: Time)
    ensures Swept(db, [(lease, t)], at, ReapOne(db, lease, t, at))
  {
    OneIsFound(db, lease, t, [(lease, t)]);
    if t in db.tasks && IsHeldUnder(db.tasks[t], lease) {
      HeldSwept(db, lease, t, at);
    } else {
      UnheldSwept(db, lease, t, at);
    }
  }

  /** The tasks of one lease swept, and then of the rest. */
  lemma TasksThen(a: Db, first: seq<(LeaseId, TaskId)>, b: Db, rest: seq<(LeaseId, TaskId)>, at: Time, t: TaskId)
    requires Swept(a, first, at, b) && t in a.tasks
    ensures IsFound(a, first + rest, t) <==> IsFound(a, first, t) || IsFound(b, rest, t)
    ensures IsFound(b, rest, t) ==> b.tasks[t] == a.tasks[t] && !IsFound(a, first, t)
  {
  }

  lemma ExhaustedThen(a: Db, first: seq<(LeaseId, TaskId)>, b: Db, rest: seq<(LeaseId, TaskId)>, at: Time, run: RunId)
    requires Swept(a, first, at, b)
    ensures IsExhausted(a, first + rest, run) <==> IsExhausted(a, first, run) || IsExhausted(b, rest, run)
  {
    forall t | t in a.tasks
      ensures IsFound(a, first + rest, t) <==> IsFound(a, first, t) || IsFound(b, rest, t)
      ensures IsFound(b, rest, t) ==> b.tasks[t] == a.tasks[t]
    {
      TasksThen(a, first, b, rest, at, t);
    }
    if IsExhausted(a, first, run) {
      var t :| IsFound(a, first, t) && a.tasks[t].attempt >= 8 && a.tasks[t].runId == run;
      assert IsFound(a, first + rest, t);
    }
    if IsExhausted(b, rest, run) {
      var t :| IsFound(b, rest, t) && b.tasks[t].attempt >= 8 && b.tasks[t].runId == run;
      assert IsFound(a, first + rest, t);
    }
  }

  lemma SpentThen(a: Db, lease: LeaseId, u: TaskId, b: Db, rest: seq<(LeaseId, TaskId)>, at: Time, l: LeaseId)
    requires Swept(a, [(lease, u)], at, b) && !IsSpent(a, [(lease, u)], l)
    ensures IsSpent(a, [(lease, u)] + rest, l) <==> IsSpent(b, rest, l)
  {
    var all := [(lease, u)] + rest;
    OneIsFound(a, lease, u, [(lease, u)]);
    if IsSpent(b, rest, l) {
      var i :| 0 <= i < |rest| && rest[i].0 == l && (rest[i].1 in b.tasks ==> IsHeldUnder(b.tasks[rest[i].1], l));
      assert all[i + 1] == rest[i];
    }
    if IsSpent(a, all, l) {
      var i :| 0 <= i < |all| && all[i].0 == l && (all[i].1 in a.tasks ==> IsHeldUnder(a.tasks[all[i].1], l));
      assert i > 0 && rest[i - 1] == all[i];
    }
  }

  lemma SweptThen(a: Db, lease: LeaseId, u: TaskId, b: Db, rest: seq<(LeaseId, TaskId)>, at: Time, c: Db)
    requires Swept(a, [(lease, u)], at, b) && Swept(b, rest, at, c)
    ensures Swept(a, [(lease, u)] + rest, at, c)
  {
    var first, all := [(lease, u)], [(lease, u)] + rest;
    forall t | t in a.tasks
      ensures c.tasks[t] == if IsFound(a, all, t) then Lapsed(a.tasks[t], at) else a.tasks[t]
    {
      TasksThen(a, first, b, rest, at, t);
    }
    forall run | run in a.runs
      ensures c.runs[run] == if IsLive(a, run) && IsExhausted(a, all, run) then a.runs[run].(status := Failed) else a.runs[run]
    {
      ExhaustedThen(a, first, b, rest, at, run);
    }
    forall l
      ensures l in c.leases <==> l in a.leases && !IsSpent(a, all, l)
    {
      if !IsSpent(a, first, l) {
        SpentThen(a, lease, u, b, rest, at, l);
      } else {
        var i :| 0 <= i < |first| && first[i].0 == l && (first[i].1 in a.tasks ==> IsHeldUnder(a.tasks[first[i].1], l));
        assert all[i] == first[i];
      }
    }
  }

  lemma {:induction false} ReapSweeps(db: Db, found: seq<(LeaseId, TaskId)>, at: Time)
    ensures Swept(db, found, at, Reap(db, found, at))
    decreases |found|
  {
    if found != [] {
      var (l, t) := found[0];
      OneSwept(db, l, t, at);
      ReapSweeps(ReapOne(db, l, t, at), found[1..], at);
      SweptThen(db, l, t, ReapOne(db, l, t, at), found[1..], at, Reap(db, found, at));
      assert found == [(l, t)] + found[1..];
    }
  }

  /** Held under a lease that names the task back and has expired. */
  predicate HasLapsed(db: Db, t: TaskId, at: Time) {
    && t in db.tasks && db.tasks[t].status == Leased && db.tasks[t].leaseId.Some?
    && db.tasks[t].leaseId.value in db.leases
    && var lease := db.leases[db.tasks[t].leaseId.value]; lease.taskId == t && lease.expiresAt <= at
  }

  ghost predicate LosesItsLast(db: Db, run: RunId, at: Time) {
    exists t :: HasLapsed(db, t, at) && db.tasks[t].attempt >= 8 && db.tasks[t].runId == run
  }

  lemma FoundIsLapsed(db: Db, found: seq<(LeaseId, TaskId)>, at: Time, t: TaskId)
    requires ListsExpired(db, found, at)
    ensures IsFound(db, found, t) <==> HasLapsed(db, t, at)
  {
    if IsFound(db, found, t) {
      var i :| 0 <= i < |found| && found[i] == (db.tasks[t].leaseId.value, t);
    }
  }

  /** A SWEEP FAILS A RUN if and only if the run is live, be it queued, running or waiting, and some task of it that was
      claimed eight times is held under a lease that has expired. No other column of a run changes, and no other run. */
  lemma SweepFailsRunIff(db: Db, found: seq<(LeaseId, TaskId)>, at: Time, run: RunId)
    requires ListsExpired(db, found, at) && run in db.runs
    ensures run in Reap(db, found, at).runs
    ensures Reap(db, found, at).runs[run] ==
              if IsLive(db, run) && LosesItsLast(db, run, at) then db.runs[run].(status := Failed) else db.runs[run]
  {
    ReapSweeps(db, found, at);
    if IsExhausted(db, found, run) {
      var t :| IsFound(db, found, t) && db.tasks[t].attempt >= 8 && db.tasks[t].runId == run;
      FoundIsLapsed(db, found, at, t);
      assert HasLapsed(db, t, at);
    }
    if LosesItsLast(db, run, at) {
      var t :| HasLapsed(db, t, at) && db.tasks[t].attempt >= 8 && db.tasks[t].runId == run;
      FoundIsLapsed(db, found, at, t);
      assert IsFound(db, found, t);
    }
  }

  /** A SWEEP LAPSES A TASK if and only if it is held under a lease that has expired: pending again after its delay with
      no error charged, or dead once it was claimed eight times. Every other task stays as it was, and so do messages and
      events; a task goes with no sweep and comes with none. */
  lemma SweepLapsesTask(db: Db, found: seq<(LeaseId, TaskId)>, at: Time, t: TaskId)
    requires ListsExpired(db, found, at)
    ensures var swept := Reap(db, found, at);
            && swept.messages == db.messages && swept.events == db.events
            && (t in swept.tasks <==> t in db.tasks)
            && (t in db.tasks ==> swept.tasks[t] == if HasLapsed(db, t, at) then Lapsed(db.tasks[t], at) else db.tasks[t])
  {
    ReapSweeps(db, found, at);
    FoundIsLapsed(db, found, at, t);
  }

  /** A SWEEP DROPS A LEASE if and only if it has expired and either holds its task or has lost it. */
  lemma SweepDropsLease(db: Db, found: seq<(LeaseId, TaskId)>, at: Time, lease: LeaseId)
    requires ListsExpired(db, found, at) && lease in db.leases
    ensures var swept := Reap(db, found, at); var row := db.leases[lease];
            && (lease in swept.leases <==> at < row.expiresAt || (row.taskId in db.tasks && !IsHeldUnder(db.tasks[row.taskId], lease)))
            && (lease in swept.leases ==> swept.leases[lease] == row)
  {
    ReapSweeps(db, found, at);
    var row := db.leases[lease];
    if row.expiresAt <= at {
      var i :| 0 <= i < |found| && found[i] == (lease, row.taskId);
    }
  }

  /** A HEARTBEAT KEEPS THE TASK. Once renewed, no sweep before the new expiry touches the task. */
  lemma BeatSparesTask(db: Db, lease: LeaseId, token: Token, ttl: nat, at: Time, found: seq<(LeaseId, TaskId)>, later: Time)
    requires Heartbeat(db, lease, token, ttl, at).1 && later < at + ttl
    requires ListsExpired(Heartbeat(db, lease, token, ttl, at).0, found, later)
    ensures lease in db.leases && db.leases[lease].taskId in db.tasks
    ensures var held := Heartbeat(db, lease, token, ttl, at).0; var t := db.leases[lease].taskId;
            && t in Reap(held, found, later).tasks && Reap(held, found, later).tasks[t] == held.tasks[t]
            && held.tasks[t] == db.tasks[t].(leasedUntil := Some(at + ttl))
            && lease in held.leases && held.leases[lease].expiresAt == at + ttl
  {
    BeatExtends(db, lease, token, ttl, at);
    SweepLapsesTask(Heartbeat(db, lease, token, ttl, at).0, found, later, db.leases[lease].taskId);
  }

  // ---- killing what waits ----

  /** Exactly the run's pending tasks are dead, each otherwise as it was, and nothing else changed. */
  lemma DeadLetterKills(db: Db, run: RunId, t: TaskId)
    ensures var after := DeadLetter(db, run);
            && after == db.(tasks := after.tasks)
            && (t in after.tasks <==> t in db.tasks)
            && (t in db.tasks ==>
                  after.tasks[t] == if db.tasks[t].runId == run && db.tasks[t].status == Pending then db.tasks[t].(status := Dead) else db.tasks[t])
  {
  }
}
