/** What each store method does when nothing runs beside it, as one function of the database. */
module StoreSpec {
  import opened Options
  import opened Tables
  import opened StorageOps

  // ---- claiming ----

  predicate Latched(db: Db, run: RunId) {
    run in db.runs && db.runs[run].requestedAt.Some?
  }

  /** A latched run gets no further slice; with no holder to see the latch, the claim settles it. */
  function WithholdLatched(db: Db, t: TaskId, run: RunId, at: Time): Db
    requires Latched(db, run)
  {
    var stops := db.runs[run].intent != Some(Suspend);
    var killed := KillPending(db, t);
    if !IsPending(db, t) || HasLiveHolder(killed, run, at) || !RunIsIn(killed, run, {Queued, Waiting}) then killed
    else AppendEvent(SettleLatched(killed, run, stops), run, if stops then RunCancelled else RunSuspended)
  }

  function TakeAndStart(db: Db, t: TaskId, candidate: Task, worker: WorkerId, ttl: nat, at: Time, lease: LeaseId, token: Token): (r: (Db, bool))
  {
    var minted := InsertLease(db, lease, Lease(t, worker, Digest(token), at + ttl, at));
    var taken := TakeTask(minted, t, candidate.attempt, lease, worker, at + ttl, at);
    if !CanTake(db, t, at) then (DropLease(taken, lease), false)
    else if RunIsIn(taken, candidate.runId, NON_TERMINAL)
    then (SetStatusIf(taken, candidate.runId, NON_TERMINAL, Running), true)
    else (DropLease(RetireTaken(taken, t, lease), lease), false)
  }

  /** One claim attempt against a candidate row; true when the caller now holds the task. */
  function AttemptClaim(db: Db, t: TaskId, candidate: Task, worker: WorkerId, ttl: nat, at: Time, lease: LeaseId, token: Token): (Db, bool) {
    if candidate.attempt >= MAX_CLAIMS then
      (SetStatusIf(KillPending(db, t), candidate.runId, {Queued}, Failed), false)
    else if Latched(db, candidate.runId) then (WithholdLatched(db, t, candidate.runId, at), false)
    else TakeAndStart(db, t, candidate, worker, ttl, at, lease, token)
  }

  function ClaimTask(db: Db, t: TaskId, worker: WorkerId, ttl: nat, at: Time, lease: LeaseId, token: Token): (Db, bool) {
    if t in db.tasks then AttemptClaim(db, t, db.tasks[t], worker, ttl, at, lease, token) else (db, false)
  }

  // ---- holding and settling ----

  function Heartbeat(db: Db, lease: LeaseId, token: Token, ttl: nat, at: Time): (Db, bool) {
    if !CanRenew(db, lease, token, at) then (db, false)
    else
      var row := db.leases[lease];
      var renewed := RenewLease(db, lease, token, at, at + ttl);
      if StillHeld(renewed, lease, row) then (ExtendTask(renewed, lease, row, at + ttl), true)
      else (DropLease(renewed, lease), false)
  }

  predicate HolderOf(db: Db, t: TaskId, token: Token, at: Time) {
    && t in db.tasks
    && Validates(db, t, db.tasks[t], token, at)
    && db.tasks[t].status == Leased
  }

  function Complete(db: Db, t: TaskId, token: Token, at: Time): (Db, bool) {
    if HolderOf(db, t, token, at)
    then (DropLease(CompleteHeld(db, t, db.tasks[t].leaseId.value), db.tasks[t].leaseId.value), true)
    else (db, false)
  }

  /** A failure drops the lease it presented even when the task no longer held it. */
  function Fail(db: Db, t: TaskId, token: Token, at: Time): (Db, bool) {
    if t in db.tasks && Validates(db, t, db.tasks[t], token, at)
    then (DropLease(FailHeld(db, t, db.tasks[t].leaseId.value, db.tasks[t], at), db.tasks[t].leaseId.value), db.tasks[t].status == Leased)
    else (db, false)
  }

  /** One expired lease, with the run write that follows its transaction. */
  function ReapOne(db: Db, lease: LeaseId, t: TaskId, at: Time): Db {
    var swept := SweepLease(db, lease, t, at);
    if SweepAbandons(db, lease, t) then SetStatusIf(swept, db.tasks[t].runId, NON_TERMINAL, Failed) else swept
  }

  /** A sweep over the lease rows found expired, in the order they were read. */
  function Reap(db: Db, found: seq<(LeaseId, TaskId)>, at: Time): Db
    decreases |found|
  {
    if found == [] then db else Reap(ReapOne(db, found[0].0, found[0].1, at), found[1..], at)
  }

  /** The rows `found` are exactly the leases expired at `at`, each once. */
  ghost predicate ListsExpired(db: Db, found: seq<(LeaseId, TaskId)>, at: Time) {
    && (forall i :: 0 <= i < |found| ==>
          found[i].0 in db.leases && db.leases[found[i].0].expiresAt <= at && db.leases[found[i].0].taskId == found[i].1)
    && (forall l :: l in db.leases && db.leases[l].expiresAt <= at ==> (l, db.leases[l].taskId) in found)
  }

  function Withheld(row: Task, run: RunId): Task {
    if row.runId == run && row.status == Pending then row.(status := Dead) else row
  }

  /** Every pending task of the run, dead. */
  function DeadLetter(db: Db, run: RunId): Db {
    db.(tasks := map t | t in db.tasks :: Withheld(db.tasks[t], run))
  }

  // ---- a whole sweep ----

  /** The row a sweep at `at` leaves in place of this one. */
  function SweptRow(db: Db, t: TaskId, found: seq<(LeaseId, TaskId)>, at: Time): Task
    requires t in db.tasks
  {
    var row := db.tasks[t];
    if row.status == Leased && row.leaseId.Some? && (row.leaseId.value, t) in found then Lapsing(row, at) else row
  }

  /** A sweep lapses exactly the rows held under a lease it found, and touches no other task. */
  lemma {:induction false} ReapRows(db: Db, found: seq<(LeaseId, TaskId)>, at: Time, t: TaskId)
    requires t in db.tasks
    ensures var swept := Reap(db, found, at);
            t in swept.tasks && swept.tasks[t] == SweptRow(db, t, found, at)
    decreases |found|
  {
    if found != [] {
      var (l, u) := found[0];
      var next := ReapOne(db, l, u, at);
      assert found == [found[0]] + found[1..];
      ReapRows(next, found[1..], at, t);
    }
  }
}
