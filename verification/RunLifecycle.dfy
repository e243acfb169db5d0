/** Runs over any history of whole methods: starts, proceeds, controls, wakes, claims, heartbeats,
    slice ends, sweeps and deliveries, in any order and by anybody. */
module RunLifecycle {
  import opened Options
  import opened Tables
  import opened StorageOps
  import opened StoreSpec
  import opened InboxSpec
  import opened RunSpec

  datatype Request = Request(intent: Intent, asker: Option<Principal>)

  /** `asked` is observed: the requests made of a run since its latch was last clear. */
  datatype State = State(db: Db, now: Time, asked: map<RunId, seq<Request>>)

  datatype Action =
    | Tick(elapsed: nat)
    | Start(run: RunId, principal: Option<Principal>, thread: Option<ThreadId>, task: TaskId, drive: Option<Drive>)
    | Proceed(run: RunId, kind: TaskKind, task: TaskId, drive: Option<Drive>)
    | Control(run: RunId, intent: Intent, asker: Option<Principal>)
    | Resume(run: RunId, task: TaskId, due: Time, maxAttempts: nat)
    | Claim(task: TaskId, worker: WorkerId, ttl: nat, lease: LeaseId, token: Token)
    | Beat(lease: LeaseId, token: Token, ttl: nat)
    | End(task: TaskId, token: Token, outcome: Outcome)
    | Sweep(found: seq<(LeaseId, TaskId)>)
    | Deliver(id: MessageId, mode: Mode, body: Body)

  /** Drawn ids are new; everything else may be called at any time. */
  predicate Enabled(s: State, a: Action) {
    match a
    case Start(run, _, _, task, _) => run !in s.db.runs && task !in s.db.tasks
    case End(_, _, Yields(next, _)) => next !in s.db.tasks
    case _ => true
  }

  function Apply(db: Db, now: Time, a: Action): Db {
    match a
    case Tick(_) => db
    case Start(run, principal, thread, task, drive) => StartRun(db, run, principal, thread, task, drive, now)
    case Proceed(run, kind, task, drive) => ProceedRun(db, run, kind, task, drive, now).0
    case Control(run, intent, asker) => ControlRun(db, run, intent, asker, now).0
    case Resume(run, task, due, maxAttempts) => ResumeRun(db, run, task, due, maxAttempts).0
    case Claim(task, worker, ttl, lease, token) => ClaimTask(db, task, worker, ttl, now, lease, token).0
    case Beat(lease, token, ttl) => Heartbeat(db, lease, token, ttl, now).0
    case End(task, token, outcome) => EndSlice(db, task, token, outcome, now)
    case Sweep(found) => Reap(db, found, now)
    case Deliver(id, mode, body) => Admit(db, id, mode, body).0
  }

  function Asked(s: State, run: RunId): seq<Request> {
    if run in s.asked then s.asked[run] else []
  }

  /** A request is noted when its run is live, and forgotten once the latch is clear. */
  function Note(s: State, a: Action, db: Db): map<RunId, seq<Request>> {
    map run | run in db.runs && db.runs[run].intent.Some? ::
      if a.Control? && a.run == run && RunIsIn(s.db, run, NON_TERMINAL) then Asked(s, run) + [Request(a.intent, a.asker)] else Asked(s, run)
  }

  function Step(s: State, a: Action): State {
    if !Enabled(s, a) then s
    else
      var db := Apply(s.db, s.now, a);
      State(db, if a.Tick? then s.now + a.elapsed else s.now, Note(s, a, db))
  }

  const INITIAL: State := State(Db(map[], map[], map[], [], []), 0, map[])

  function After(history: seq<Action>): State {
    if history == [] then INITIAL else Step(After(history[..|history| - 1]), history[|history| - 1])
  }
}
