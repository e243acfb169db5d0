/** The rows the SQL engine keeps, and the whole database as one value.

    ISO timestamps compare like numbers, so a time is a number. Ids are opaque. A hash is injective,
    so a digest is its preimage under a constructor. */
module Tables {
  import opened Options

  type Time = nat
  type RunId = nat
  type TaskId = nat
  type LeaseId = nat
  type Token = nat
  type WorkerId = nat
  type ThreadId = nat
  type CheckpointId = nat
  type Principal = nat
  type Body = nat

  datatype Digest = Digest(token: Token)

  datatype RunStatus = Queued | Running | Waiting | Completed | Failed | Cancelled

  const NON_TERMINAL: set<RunStatus> := {Queued, Running, Waiting}

  predicate Terminal(status: RunStatus) {
    status == Completed || status == Failed || status == Cancelled
  }

  /** The control ladder, lowest first. */
  datatype Intent = Suspend | Stop | Abort

  datatype WaitReason = ForApproval | Suspended

  datatype Run = Run(
    status: RunStatus,
    principal: Option<Principal>,
    threadId: Option<ThreadId>,
    requestedAt: Option<Time>,
    intent: Option<Intent>,
    requestedBy: Option<Principal>,
    controlSeq: nat,
    messageSeq: nat,
    waitReason: Option<WaitReason>,
    resumeCheckpoint: Option<CheckpointId>)
  {
    /** The four latch columns written back to null. */
    function Unlatched(): Run {
      this.(requestedAt := None, intent := None, requestedBy := None)
    }
  }

  datatype TaskStatus = Pending | Leased | Settled | Dead

  datatype TaskKind = RunTask | ContinueTask | ResumeTask

  /** `errorAttempt` is 0 where the column is absent, which is how every reader takes it. */
  datatype Task = Task(
    runId: RunId,
    kind: TaskKind,
    status: TaskStatus,
    dueAt: Time,
    attempt: nat,
    errorAttempt: nat,
    maxAttempts: nat,
    retryDelay: nat,
    leaseId: Option<LeaseId>,
    workerId: Option<WorkerId>,
    leasedUntil: Option<Time>,
    runAs: Option<Principal>)
  {
    predicate HeldUnder(lease: LeaseId) {
      status == Leased && leaseId == Some(lease)
    }

    function Released(): Task {
      this.(leaseId := None, workerId := None, leasedUntil := None)
    }
  }

  datatype Lease = Lease(
    taskId: TaskId,
    workerId: WorkerId,
    tokenHash: Digest,
    expiresAt: Time,
    lastHeartbeatAt: Time)

  datatype Mode = AtTurnEnd | NextStep | Interrupt

  datatype MessageStatus = Unread | Delivered | Withdrawn

  /** A message id is a hash of (run, sender, key). An adopted message's key is the id it had. */
  datatype MessageKey = Client(key: nat) | Adopted(original: MessageId)
  datatype MessageId = MessageId(toRun: RunId, sender: Principal, key: MessageKey)

  datatype Message = Message(
    id: MessageId,
    toRun: RunId,
    mode: Mode,
    body: Body,
    sender: Principal,
    num: nat,
    status: MessageStatus)

  datatype EventKind =
    | RunCompleted
    | RunDenied
    | RunCancelled
    | RunFailed
    | RunSuspended
    | RunParked
    | RunYielded
    | RunAwaiting
    | RunWaitingApproval
    | TaskFailed
    | TaskSkipped
    | ControlRequested
    | ControlIgnored

  datatype Event = Event(runId: RunId, kind: EventKind)

  datatype Db = Db(
    runs: map<RunId, Run>,
    tasks: map<TaskId, Task>,
    leases: map<LeaseId, Lease>,
    messages: seq<Message>,
    events: seq<Event>)

  /** How often a task may be claimed before it is abandoned. */
  const MAX_CLAIMS: nat := 8
}
