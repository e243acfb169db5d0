/** The engine's run-level methods and the worker's terminal branches, as functions of the database.
    Each runs as one transaction. */
module RunSpec {
  import opened Options
  import opened Tables
  import opened StorageOps
  import opened StoreSpec
  import opened InboxSpec

  /** Who would drive the slice at once, and the lease and token drawn for it. */
  datatype Drive = Drive(worker: WorkerId, ttl: nat, lease: LeaseId, token: Token)

  function NewTask(run: RunId, kind: TaskKind, maxAttempts: nat, due: Time, runAs: Option<Principal>): Task {
    Task(run, kind, Pending, due, 0, 0, maxAttempts, 1000, None, None, None, runAs)
  }

  const DEFAULT_MAX_ATTEMPTS: nat := 3
  const RESUME_MAX_ATTEMPTS: nat := 3

  function NewRun(principal: Option<Principal>, thread: Option<ThreadId>): Run {
    Run(Queued, principal, thread, None, None, None, 0, 0, None, None)
  }

  function Driven(db: Db, t: TaskId, drive: Option<Drive>, now: Time): Db {
    match drive
    case None => db
    case Some(d) => ClaimTask(db, t, d.worker, d.ttl, now, d.lease, d.token).0
  }

  // ---- engine.ts ----

  /** The new run takes the messages its thread's finished runs left unread. */
  function OpenRun(db: Db, run: RunId, principal: Option<Principal>, thread: Option<ThreadId>): Db {
    var created := PutRun(db, run, NewRun(principal, thread));
    if thread.Some? then Adopt(created, thread.value, run) else created
  }

  function StartRun(db: Db, run: RunId, principal: Option<Principal>, thread: Option<ThreadId>, t: TaskId, drive: Option<Drive>, now: Time): Db {
    var started := OpenRun(db, run, principal, thread);
    Driven(PutTask(started, t, NewTask(run, RunTask, DEFAULT_MAX_ATTEMPTS, now, None)), t, drive, now)
  }

  datatype Answer = Accepted | Rejected | NotFound

  /** `t` is derived from the run, the kind and the record, so naming a record twice meets the same row. */
  function ProceedRun(db: Db, run: RunId, kind: TaskKind, t: TaskId, drive: Option<Drive>, now: Time): (Db, Answer) {
    if run !in db.runs then (db, NotFound)
    else if Terminal(db.runs[run].status) then (db, Rejected)
    else if t in db.tasks then (db, Accepted)
    else
      var added := PutTask(db, t, NewTask(run, kind, if kind == ResumeTask then RESUME_MAX_ATTEMPTS else DEFAULT_MAX_ATTEMPTS, now, None));
      var requeued := PutRun(added, run, added.runs[run].(status := Queued, waitReason := None, resumeCheckpoint := None));
      (Driven(requeued, t, drive, now), Accepted)
  }

  function IntentRank(intent: Intent): nat {
    match intent
    case Suspend => 0
    case Stop => 1
    case Abort => 2
  }

  predicate Raises(current: Intent, next: Intent) {
    IntentRank(next) > IntentRank(current)
  }

  datatype ControlAnswer = NoRun | AlreadyTerminal | AlreadyRequested | SettledNow | LatchedOnly

  function Latch(row: Run, intent: Intent, asker: Option<Principal>, now: Time): Run {
    var raised := row.(intent := Some(intent), controlSeq := row.controlSeq + 1);
    if row.intent.Some? then raised
    else raised.(requestedAt := Some(now), requestedBy := if asker.Some? then asker else row.requestedBy)
  }

  function ControlRun(db: Db, run: RunId, intent: Intent, asker: Option<Principal>, now: Time): (Db, ControlAnswer) {
    if run !in db.runs then (db, NoRun)
    else
      var row := db.runs[run];
      if Terminal(row.status) then (AppendEvent(db, run, ControlIgnored), AlreadyTerminal)
      else if row.intent.Some? && !Raises(row.intent.value, intent) then (db, AlreadyRequested)
      else if row.status == Running then
        (AppendEvent(PutRun(db, run, Latch(row, intent, asker, now)), run, ControlRequested), LatchedOnly)
      else
        var stops := intent != Suspend;
        var settled := Latch(row, intent, asker, now).Unlatched().(
          status := if stops then Cancelled else Waiting,
          waitReason := if stops then None else Some(Suspended));
        (AppendEvent(PutRun(DeadLetter(db, run), run, settled), run, if stops then RunCancelled else RunSuspended), SettledNow)
  }

  /** Wakes an awaiting run. The run row is left as it is. */
  function ResumeRun(db: Db, run: RunId, t: TaskId, due: Time, maxAttempts: nat): (Db, Answer) {
    if run !in db.runs then (db, NotFound)
    else if db.runs[run].status != Waiting then (db, Rejected)
    else if t in db.tasks then (db, Accepted)
    else (PutTask(db, t, NewTask(run, ResumeTask, maxAttempts, due, None)), Accepted)
  }

  // ---- worker.ts: how a slice ends ----

  datatype Outcome =
    | Yields(nextTask: TaskId, runAs: Option<Principal>)
    | WaitsApproval
    | Awaits
    | Parks(stopped: bool, checkpoint: CheckpointId)
    | Completes
    | Denied
    | AbortedByIntent
    | Skips
    | Fails

  /** Writes the run when it is live, with the event that says so; otherwise the winner stands. */
  function Conclude(db: Db, run: RunId, row: Run, kind: EventKind): Db {
    if RunIsIn(db, run, NON_TERMINAL) then AppendEvent(PutRun(db, run, row), run, kind) else db
  }

  function EndLive(db: Db, run: RunId, outcome: Outcome, now: Time): Db
    requires run in db.runs
  {
    var row := db.runs[run];
    match outcome
    case Yields(next, runAs) =>
      if RunIsIn(db, run, NON_TERMINAL)
      then PutTask(AppendEvent(PutRun(db, run, row.(status := Queued)), run, RunYielded), next, NewTask(run, ResumeTask, RESUME_MAX_ATTEMPTS, now, runAs))
      else db
    case WaitsApproval =>
      if row.intent == Some(Stop) || row.intent == Some(Abort)
      then Conclude(db, run, row.Unlatched().(status := Cancelled, waitReason := None), RunCancelled)
      else Conclude(db, run, row.(status := Waiting, waitReason := Some(ForApproval)), RunWaitingApproval)
    case Awaits => Conclude(db, run, row.(status := Waiting), RunAwaiting)
    case Parks(stopped, checkpoint) =>
      Conclude(db, run,
        row.Unlatched().(
          status := if stopped then Cancelled else Waiting,
          waitReason := if stopped then None else Some(Suspended),
          resumeCheckpoint := Some(checkpoint)),
        if stopped then RunCancelled else RunParked)
    case Completes => Conclude(db, run, row.(status := Completed), RunCompleted)
    case Denied => Conclude(db, run, row.(status := Completed), RunDenied)
    case AbortedByIntent => Conclude(db, run, row.Unlatched().(status := Cancelled), RunCancelled)
    case Skips => AppendEvent(db, run, TaskSkipped)
    case Fails => db
  }

  /** The failure path writes the run `failed` whatever its status. */
  function FailSlice(db: Db, t: TaskId, token: Token, now: Time): Db {
    var (failed, ok) := Fail(db, t, token, now);
    if !ok || t !in failed.tasks then failed
    else
      var run := failed.tasks[t].runId;
      var noted := AppendEvent(failed, run, TaskFailed);
      if failed.tasks[t].status != Dead then noted
      else
        var marked := if run in noted.runs then PutRun(noted, run, noted.runs[run].(status := Failed)) else noted;
        AppendEvent(marked, run, RunFailed)
  }

  /** The end of a slice that holds `t` under `token`; without the lease it is nothing at all. */
  function EndSlice(db: Db, t: TaskId, token: Token, outcome: Outcome, now: Time): Db {
    if outcome.Fails? then FailSlice(db, t, token, now)
    else
      var (done, ok) := Complete(db, t, token, now);
      if !ok || t !in done.tasks then done
      else
        var run := done.tasks[t].runId;
        if run in done.runs then EndLive(done, run, outcome, now)
        else if outcome.Skips? then AppendEvent(done, run, TaskSkipped)
        else done
  }
}
