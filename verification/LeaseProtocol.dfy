/** The lease protocol at the granularity of single storage operations.

    Any number of workers, heartbeats, settlers and sweepers run at once. Each is a process with a
    program counter; one step is one storage operation (or one reading of the clock), and a process
    may crash between any two of its steps. A transaction is one step. Other writers touch the run
    rows and withhold pending tasks at will. */
module LeaseProtocol {
  import opened Options
  import opened Tables
  import opened StorageOps

  type Pid = nat

  /** A claim's candidate row, as it was read. */
  datatype Claim = Claim(taskId: TaskId, candidate: Task, worker: WorkerId, ttl: nat, at: Time)

  datatype Verdict = Completes | Fails

  datatype Process =
    // claimDueTasks has read its timestamp but not its candidates
    | ScanStamped(worker: WorkerId, ttl: nat, at: Time)
    // claimTask has read its row but not the clock
    | RowRead(taskId: TaskId, row: Task, worker: WorkerId, ttl: nat)
    | Attempt(claim: Claim)
    | FailExhausted(runId: RunId)
    | Withhold(claim: Claim, stops: bool)
    | AskHolders(claim: Claim, stops: bool)
    | Settle(claim: Claim, stops: bool)
    | NoteSettled(runId: RunId, stops: bool)
    | Mint(claim: Claim)
    | Take(claim: Claim, lease: LeaseId, token: Token)
    | StartRun(claim: Claim, lease: LeaseId, token: Token)
    | Retire(claim: Claim, lease: LeaseId)
    // heartbeatLease
    | BeatRead(lease: LeaseId, token: Token, ttl: nat)
    | BeatStamp(lease: LeaseId, held: Lease, token: Token, ttl: nat)
    | BeatRenew(lease: LeaseId, held: Lease, token: Token, ttl: nat, at: Time)
    | BeatTask(lease: LeaseId, held: Lease, expires: Time)
    // completeTask and failTask
    | SettleRead(verdict: Verdict, taskId: TaskId, token: Token)
    | SettleCheck(verdict: Verdict, taskId: TaskId, token: Token, row: Task)
    | SettleStamp(verdict: Verdict, taskId: TaskId, token: Token, row: Task, lease: LeaseId)
    | SettleWrite(verdict: Verdict, taskId: TaskId, token: Token, row: Task, lease: LeaseId, at: Time)
    // the lease row is litter
    | Drop(lease: LeaseId)
    // reapExpiredLeases
    | SweepStamp
    | SweepRead(at: Time)
    | SweepNext(at: Time, todo: seq<(LeaseId, TaskId)>)
    | SweepFail(at: Time, todo: seq<(LeaseId, TaskId)>, runId: RunId)
    | Finished
    | Claimed(lease: LeaseId)

  /** What one task's row was seen to do. */
  datatype Entry = Opened(lease: Option<LeaseId>) | Closed(lease: Option<LeaseId>, failed: bool)

  datatype State = State(
    db: Db,
    now: Time,
    procs: map<Pid, Process>,
    // lease ids already drawn, each with its token; ids and tokens are random, so always fresh
    minted: map<LeaseId, Token>,
    // leases whose claim has been handed to a caller
    granted: set<LeaseId>,
    // task ids ever used; they are not reused
    used: set<TaskId>,
    // observed: which task each lease id was put on, and what each row did
    putOn: map<LeaseId, TaskId>,
    history: map<TaskId, seq<Entry>>)

  datatype Choice = Choice(lease: LeaseId, token: Token, pick: TaskId, expired: seq<LeaseId>)

  datatype Action =
    | Tick(elapsed: nat)
    | Enqueue(task: TaskId, row: Task)
    | Prune(task: TaskId)
    | WriteRun(run: RunId, runRow: Run)
    | WithholdPending(task: TaskId)
    | CallScan(pid: Pid, worker: WorkerId, ttl: nat)
    | CallClaim(pid: Pid, task: TaskId, worker: WorkerId, ttl: nat)
    | CallBeat(pid: Pid, lease: LeaseId, ttl: nat)
    | CallSettle(pid: Pid, verdict: Verdict, task: TaskId, token: Token)
    | CallSweep(pid: Pid)
    | Advance(pid: Pid, choice: Choice)
    | Crash(pid: Pid)

  // ---- one process step ----

  /** The database and the process after its next storage operation. */
  ghost function Next(db: Db, now: Time, p: Process, choice: Choice): (r: (Db, Process)) {
    match p
    case ScanStamped(worker, ttl, at) =>
      if CanTake(db, choice.pick, at)
      then (db, Attempt(Claim(choice.pick, db.tasks[choice.pick], worker, ttl, at)))
      else (db, Finished)
    case RowRead(task, row, worker, ttl) => (db, Attempt(Claim(task, row, worker, ttl, now)))
    case Attempt(c) =>
      if c.candidate.attempt >= MAX_CLAIMS then (KillPending(db, c.taskId), FailExhausted(c.candidate.runId))
      else if c.candidate.runId in db.runs && db.runs[c.candidate.runId].requestedAt.Some?
      then (db, Withhold(c, db.runs[c.candidate.runId].intent != Some(Suspend)))
      else (db, Mint(c))
    case FailExhausted(run) => (SetStatusIf(db, run, {Queued}, Failed), Finished)
    case Withhold(c, stops) =>
      (KillPending(db, c.taskId), if IsPending(db, c.taskId) then AskHolders(c, stops) else Finished)
    case AskHolders(c, stops) =>
      (db, if HasLiveHolder(db, c.candidate.runId, c.at) then Finished else Settle(c, stops))
    case Settle(c, stops) =>
      (SettleLatched(db, c.candidate.runId, stops),
       if RunIsIn(db, c.candidate.runId, {Queued, Waiting}) then NoteSettled(c.candidate.runId, stops) else Finished)
    case NoteSettled(run, stops) => (AppendEvent(db, run, if stops then RunCancelled else RunSuspended), Finished)
    case Mint(c) =>
      (InsertLease(db, choice.lease, Lease(c.taskId, c.worker, Digest(choice.token), c.at + c.ttl, c.at)),
       Take(c, choice.lease, choice.token))
    case Take(c, lease, token) =>
      (TakeTask(db, c.taskId, c.candidate.attempt, lease, c.worker, c.at + c.ttl, c.at),
       if CanTake(db, c.taskId, c.at) then StartRun(c, lease, token) else Drop(lease))
    case StartRun(c, lease, token) =>
      (SetStatusIf(db, c.candidate.runId, NON_TERMINAL, Running),
       if RunIsIn(db, c.candidate.runId, NON_TERMINAL) then Claimed(lease) else Retire(c, lease))
    case Retire(c, lease) => (RetireTaken(db, c.taskId, lease), Drop(lease))
    case BeatRead(lease, token, ttl) =>
      (db, if CanRenew(db, lease, token, now) then BeatStamp(lease, db.leases[lease], token, ttl) else Finished)
    case BeatStamp(lease, row, token, ttl) => (db, BeatRenew(lease, row, token, ttl, now))
    case BeatRenew(lease, row, token, ttl, at) =>
      (RenewLease(db, lease, token, at, at + ttl),
       if CanRenew(db, lease, token, at) then BeatTask(lease, row, at + ttl) else Finished)
    case BeatTask(lease, row, expires) =>
      (ExtendTask(db, lease, row, expires), if StillHeld(db, lease, row) then Finished else Drop(lease))
    case SettleRead(verdict, task, token) =>
      (db, if task in db.tasks then SettleCheck(verdict, task, token, db.tasks[task]) else Finished)
    case SettleCheck(verdict, task, token, row) =>
      (db, if Validates(db, task, row, token, now) then SettleStamp(verdict, task, token, row, row.leaseId.value) else Finished)
    case SettleStamp(verdict, task, token, row, lease) => (db, SettleWrite(verdict, task, token, row, lease, now))
    case SettleWrite(Completes, task, _, row, lease, at) =>
      (CompleteHeld(db, task, lease), if IsHeld(db, task, lease) then Drop(lease) else Finished)
    case SettleWrite(Fails, task, _, row, lease, at) => (FailHeld(db, task, lease, row, at), Drop(lease))
    case Drop(lease) => (DropLease(db, lease), Finished)
    case SweepStamp => (db, SweepRead(now))
    case SweepRead(at) => (db, SweepNext(at, Listed(db, choice.expired, at)))
    case SweepNext(at, todo) =>
      if todo == [] then (db, Finished)
      else
        (SweepLease(db, todo[0].0, todo[0].1, at),
         if SweepAbandons(db, todo[0].0, todo[0].1)
         then SweepFail(at, todo[1..], db.tasks[todo[0].1].runId)
         else SweepNext(at, todo[1..]))
    case SweepFail(at, todo, run) => (SetStatusIf(db, run, NON_TERMINAL, Failed), SweepNext(at, todo))
    case Finished => (db, p)
    case Claimed(_) => (db, p)
  }

  /** The expired rows among `ids`, in that order: a read returns them in an order of its own. */
  function Listed(db: Db, ids: seq<LeaseId>, at: Time): (rows: seq<(LeaseId, TaskId)>)
    ensures forall i :: 0 <= i < |rows| ==> rows[i].0 in db.leases && db.leases[rows[i].0].taskId == rows[i].1
  {
    if ids == [] then []
    else
      var rest := Listed(db, ids[1..], at);
      if ids[0] in db.leases && db.leases[ids[0]].expiresAt <= at
      then [(ids[0], db.leases[ids[0]].taskId)] + rest
      else rest
  }

  // ---- what is observed of a row ----

  function RowAt(tasks: map<TaskId, Task>, t: TaskId): Option<Task> {
    if t in tasks then Some(tasks[t]) else None
  }

  predicate Holds(row: Option<Task>) {
    row.Some? && row.value.status == Leased
  }

  /** What happened to one row in one step. Moving straight from lease to lease shows as a second opening. */
  function Seen(before: Option<Task>, after: Option<Task>): seq<Entry> {
    if Holds(after) then
      if Holds(before) && before.value.leaseId == after.value.leaseId then [] else [Opened(after.value.leaseId)]
    else if Holds(before) then
      [Closed(before.value.leaseId, after.Some? && after.value.errorAttempt > before.value.errorAttempt)]
    else []
  }

  function Past(history: map<TaskId, seq<Entry>>, t: TaskId): seq<Entry> {
    if t in history then history[t] else []
  }

  function Observe(history: map<TaskId, seq<Entry>>, before: map<TaskId, Task>, after: map<TaskId, Task>): map<TaskId, seq<Entry>> {
    map t | t in history.Keys + before.Keys + after.Keys :: Past(history, t) + Seen(RowAt(before, t), RowAt(after, t))
  }

  lemma ObservePast(history: map<TaskId, seq<Entry>>, before: map<TaskId, Task>, after: map<TaskId, Task>, t: TaskId)
    ensures Past(Observe(history, before, after), t) == Past(history, t) + Seen(RowAt(before, t), RowAt(after, t))
  {
  }

  // ---- the whole system ----

  ghost function AdvanceProcess(s: State, pid: Pid, choice: Choice): State
    requires pid in s.procs
  {
    var p := s.procs[pid];
    var (db, q) := Next(s.db, s.now, p, choice);
    s.(db := db,
       procs := s.procs[pid := q],
       minted := if p.Mint? then s.minted[choice.lease := choice.token] else s.minted,
       granted := if q.Claimed? then s.granted + {q.lease} else s.granted,
       putOn := if p.Take? && CanTake(s.db, p.claim.taskId, p.claim.at) then s.putOn[p.lease := p.claim.taskId] else s.putOn,
       history := Observe(s.history, s.db.tasks, db.tasks))
  }

  function Spawn(s: State, pid: Pid, p: Process): State {
    s.(procs := s.procs[pid := p])
  }

  function WithTasks(s: State, db: Db): State {
    s.(db := db, history := Observe(s.history, s.db.tasks, db.tasks))
  }

  /** A draw of a lease id or token never repeats. */
  ghost predicate Fresh(s: State, choice: Choice) {
    choice.lease !in s.minted && choice.token !in s.minted.Values
  }

  /** A task as `enqueueTask` writes it. */
  predicate Newborn(row: Task) {
    row.status == Pending && row.attempt == 0 && row.errorAttempt == 0 && row.leaseId == None
  }

  ghost predicate Enabled(s: State, a: Action) {
    match a
    case Tick(_) => true
    case Enqueue(t, row) => t !in s.used && Newborn(row)
    case Prune(t) => t in s.db.tasks
    case WriteRun(_, _) => true
    case WithholdPending(_) => true
    case CallScan(pid, _, _) => pid !in s.procs
    case CallClaim(pid, t, _, _) => pid !in s.procs && t in s.db.tasks
    // a caller heartbeats the lease its claim returned
    case CallBeat(pid, lease, _) => pid !in s.procs && lease in s.granted && lease in s.minted
    // anybody may present any token
    case CallSettle(pid, _, _, _) => pid !in s.procs
    case CallSweep(pid) => pid !in s.procs
    case Advance(pid, choice) => pid in s.procs && (s.procs[pid].Mint? ==> Fresh(s, choice))
    case Crash(pid) => pid in s.procs
  }

  ghost function Do(s: State, a: Action): State
    requires Enabled(s, a)
  {
    match a
    case Tick(d) => s.(now := s.now + d)
    case Enqueue(t, row) => WithTasks(s, PutTask(s.db, t, row)).(used := s.used + {t})
    case Prune(t) => WithTasks(s, s.db.(tasks := s.db.tasks - {t}))
    case WriteRun(r, row) => s.(db := PutRun(s.db, r, row))
    case WithholdPending(t) => WithTasks(s, KillPending(s.db, t))
    case CallScan(pid, w, ttl) => Spawn(s, pid, ScanStamped(w, ttl, s.now))
    case CallClaim(pid, t, w, ttl) => Spawn(s, pid, RowRead(t, s.db.tasks[t], w, ttl))
    case CallBeat(pid, lease, ttl) => Spawn(s, pid, BeatRead(lease, s.minted[lease], ttl))
    case CallSettle(pid, verdict, t, token) => Spawn(s, pid, SettleRead(verdict, t, token))
    case CallSweep(pid) => Spawn(s, pid, SweepStamp)
    case Advance(pid, choice) => AdvanceProcess(s, pid, choice)
    case Crash(pid) => s.(procs := s.procs - {pid})
  }

  ghost function Step(s: State, a: Action): State {
    if Enabled(s, a) then Do(s, a) else s
  }

  const INITIAL: State := State(Db(map[], map[], map[], [], []), 0, map[], map[], {}, {}, map[], map[])

  /** The state after a schedule: every interleaving, with every crash, is some schedule. */
  ghost function After(schedule: seq<Action>): State {
    if schedule == [] then INITIAL else Step(After(schedule[..|schedule| - 1]), schedule[|schedule| - 1])
  }
}
