/** The single conditional writes of the engine store, one function each.

    A conditional update returns the row it changed or null, so each function that can lose returns
    the database after it and whether it took effect. */
module StorageOps {
  import opened Options
  import opened Tables

  predicate RunIsIn(db: Db, run: RunId, from: set<RunStatus>) {
    run in db.runs && db.runs[run].status in from
  }

  /** Updates the run when its status is one of `from`; a patch is given as the row to write. */
  function PutRun(db: Db, run: RunId, row: Run): Db {
    db.(runs := db.runs[run := row])
  }

  function PutTask(db: Db, task: TaskId, row: Task): Db {
    db.(tasks := db.tasks[task := row])
  }

  function SetStatusIf(db: Db, run: RunId, from: set<RunStatus>, status: RunStatus): Db {
    if RunIsIn(db, run, from) then PutRun(db, run, db.runs[run].(status := status)) else db
  }

  function AppendEvent(db: Db, run: RunId, kind: EventKind): Db {
    db.(events := db.events + [Event(run, kind)])
  }

  function DropLease(db: Db, lease: LeaseId): Db {
    db.(leases := db.leases - {lease})
  }

  predicate IsPending(db: Db, task: TaskId) {
    task in db.tasks && db.tasks[task].status == Pending
  }

  /** `pending` to `dead`: an exhausted task, a withheld task, a task of a settled run. */
  function KillPending(db: Db, task: TaskId): Db {
    if IsPending(db, task) then PutTask(db, task, db.tasks[task].(status := Dead)) else db
  }

  /** Is some task of the run leased past `at`? */
  predicate HasLiveHolder(db: Db, run: RunId, at: Time) {
    exists t :: t in db.tasks && IsLiveHolder(db.tasks[t], run, at)
  }

  predicate IsLiveHolder(row: Task, run: RunId, at: Time) {
    row.runId == run && row.status == Leased && row.leasedUntil.Some? && row.leasedUntil.value > at
  }

  /** Settles a latched run no holder will ever reach: cancelled, or parked as suspended. */
  function SettleLatched(db: Db, run: RunId, stops: bool): Db {
    if RunIsIn(db, run, {Queued, Waiting}) then
      PutRun(db, run, db.runs[run].Unlatched().(
        status := if stops then Cancelled else Waiting,
        waitReason := if stops then None else Some(Suspended)))
    else db
  }

  function InsertLease(db: Db, lease: LeaseId, row: Lease): Db {
    db.(leases := db.leases[lease := row])
  }

  predicate CanTake(db: Db, task: TaskId, at: Time) {
    IsPending(db, task) && db.tasks[task].dueAt <= at
  }

  /** The claim's compare-and-set on the task. The count is written from the candidate as read. */
  function TakeTask(db: Db, task: TaskId, candidateAttempt: nat, lease: LeaseId, worker: WorkerId, expires: Time, at: Time): Db {
    if CanTake(db, task, at) then
      PutTask(db, task, db.tasks[task].(
        status := Leased,
        leaseId := Some(lease),
        workerId := Some(worker),
        leasedUntil := Some(expires),
        attempt := candidateAttempt + 1))
    else db
  }

  predicate IsHeld(db: Db, task: TaskId, lease: LeaseId) {
    task in db.tasks && db.tasks[task].HeldUnder(lease)
  }

  /** A claim whose run turned out to be finished gives its task up. */
  function RetireTaken(db: Db, task: TaskId, lease: LeaseId): Db {
    if IsHeld(db, task, lease) then PutTask(db, task, db.tasks[task].Released().(status := Dead)) else db
  }

  predicate CanRenew(db: Db, lease: LeaseId, token: Token, at: Time) {
    lease in db.leases && db.leases[lease].tokenHash == Digest(token) && db.leases[lease].expiresAt > at
  }

  function RenewLease(db: Db, lease: LeaseId, token: Token, at: Time, expires: Time): Db {
    if CanRenew(db, lease, token, at) then
      db.(leases := db.leases[lease := db.leases[lease].(expiresAt := expires, lastHeartbeatAt := at)])
    else db
  }

  predicate StillHeld(db: Db, lease: LeaseId, row: Lease) {
    IsHeld(db, row.taskId, lease) && db.tasks[row.taskId].workerId == Some(row.workerId)
  }

  function ExtendTask(db: Db, lease: LeaseId, row: Lease, expires: Time): Db {
    if StillHeld(db, lease, row) then
      PutTask(db, row.taskId, db.tasks[row.taskId].(leasedUntil := Some(expires)))
    else db
  }

  /** Does this token settle this task now? The lease the task names, unexpired, with this digest. */
  predicate Validates(db: Db, task: TaskId, row: Task, token: Token, at: Time) {
    && row.leaseId.Some?
    && row.leaseId.value in db.leases
    && var lease := db.leases[row.leaseId.value];
       lease.taskId == task && lease.expiresAt > at && lease.tokenHash == Digest(token)
  }

  function CompleteHeld(db: Db, task: TaskId, lease: LeaseId): Db {
    if IsHeld(db, task, lease) then PutTask(db, task, db.tasks[task].(status := Settled)) else db
  }

  /** The row a failure writes, from the row as it was read. */
  function Failing(row: Task, read: Task, at: Time): Task {
    var errors := read.errorAttempt + 1;
    var spent := errors >= read.maxAttempts;
    row.Released().(
      status := if spent then Dead else Pending,
      errorAttempt := errors,
      dueAt := if spent then read.dueAt else at + read.retryDelay)
  }

  function FailHeld(db: Db, task: TaskId, lease: LeaseId, read: Task, at: Time): Db {
    if IsHeld(db, task, lease) then PutTask(db, task, Failing(db.tasks[task], read, at)) else db
  }

  /** A lapse: the host vanished. It spends a claim, never an error. */
  function Lapsing(row: Task, at: Time): Task {
    var spent := row.attempt >= MAX_CLAIMS;
    row.Released().(
      status := if spent then Dead else Pending,
      dueAt := if spent then row.dueAt else at + row.retryDelay)
  }

  /** One expired lease, swept in one transaction. */
  function SweepLease(db: Db, lease: LeaseId, task: TaskId, at: Time): Db {
    if task !in db.tasks then DropLease(db, lease)
    else if db.tasks[task].HeldUnder(lease) then
      DropLease(PutTask(db, task, Lapsing(db.tasks[task], at)), lease)
    else db
  }

  /** Did that sweep abandon the task, so that its run must be failed? */
  predicate SweepAbandons(db: Db, lease: LeaseId, task: TaskId) {
    IsHeld(db, task, lease) && db.tasks[task].attempt >= MAX_CLAIMS
  }
}
