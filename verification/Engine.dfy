/** The engine's doors and one driven slice, each a transaction over the store. */
module SqlEngine {
  import opened Options
  import opened Tables
  import opened StorageOps
  import opened StoreSpec
  import opened InboxSpec
  import opened RunSpec
  import opened SliceSpec
  import opened EngineStore

  class Engine {
    const store: Store

    constructor (store: Store)
      ensures this.store == store
    {
      this.store := store;
    }

    /** Creates the run, adopts its thread's leftovers, enqueues its task and claims it, all at once. */
    method StartRun(run: RunId, principal: Option<Principal>, thread: Option<ThreadId>, t: TaskId, drive: Option<Drive>)
      requires run !in store.runs && t !in store.tasks && (drive.Some? ==> drive.value.lease !in store.leases)
      modifies store
      ensures store.now == old(store.now)
      ensures store.Contents() == RunSpec.StartRun(old(store.Contents()), run, principal, thread, t, drive, store.now)
    {
      store.runs := store.runs[run := NewRun(principal, thread)];
      if thread.Some? {
        var _ := store.AdoptThreadInbox(thread.value, run);
        AdoptKeepsTables(PutRun(old(store.Contents()), run, NewRun(principal, thread)), thread.value, run);
      }
      var _ := store.EnqueueTask(t, NewTask(run, RunTask, DEFAULT_MAX_ATTEMPTS, store.now, None));
      if drive.Some? {
        var _ := store.ClaimTask(t, drive.value.worker, drive.value.ttl, drive.value.lease, drive.value.token);
      }
    }

    method ProceedRun(run: RunId, kind: TaskKind, t: TaskId, drive: Option<Drive>) returns (answer: Answer)
      requires drive.Some? ==> drive.value.lease !in store.leases
      modifies store
      ensures store.now == old(store.now)
      ensures (store.Contents(), answer) == RunSpec.ProceedRun(old(store.Contents()), run, kind, t, drive, store.now)
    {
      if run !in store.runs {
        return NotFound;
      }
      if Terminal(store.runs[run].status) {
        return Rejected;
      }
      var enqueued := store.EnqueueTask(t, NewTask(run, kind, if kind == ResumeTask then RESUME_MAX_ATTEMPTS else DEFAULT_MAX_ATTEMPTS, store.now, None));
      if !enqueued {
        return Accepted;
      }
      var _ := store.UpdateRunIfStatus(run, NON_TERMINAL, (r: Run) => r.(status := Queued, waitReason := None, resumeCheckpoint := None));
      if drive.Some? {
        var _ := store.ClaimTask(t, drive.value.worker, drive.value.ttl, drive.value.lease, drive.value.token);
      }
      answer := Accepted;
    }

    method ControlRun(run: RunId, intent: Intent, asker: Option<Principal>) returns (answer: ControlAnswer)
      modifies store
      ensures store.now == old(store.now)
      ensures (store.Contents(), answer) == RunSpec.ControlRun(old(store.Contents()), run, intent, asker, store.now)
    {
      if run !in store.runs {
        return NoRun;
      }
      var row := store.runs[run];
      if Terminal(row.status) {
        store.RecordEvent(run, ControlIgnored);
        return AlreadyTerminal;
      }
      if row.intent.Some? && !Raises(row.intent.value, intent) {
        return AlreadyRequested;
      }
      var at := if row.intent.Some? then row.requestedAt else Some(store.now);
      var asked := if row.intent == None && asker.Some? then asker else row.requestedBy;
      var latch := (r: Run) => r.(intent := Some(intent), controlSeq := row.controlSeq + 1, requestedAt := at, requestedBy := asked);
      if row.status == Queued || row.status == Waiting {
        var stops := intent != Suspend;
        var _ := store.DeadLetterPendingTasks(run);
        var settled := store.UpdateRunIfStatus(run, {Queued, Waiting}, (r: Run) => latch(r).Unlatched().(
          status := if stops then Cancelled else Waiting,
          waitReason := if stops then None else Some(Suspended)));
        if settled {
          store.RecordEvent(run, if stops then RunCancelled else RunSuspended);
          return SettledNow;
        }
      }
      store.UpdateRun(run, latch);
      store.RecordEvent(run, ControlRequested);
      answer := LatchedOnly;
    }

    /** Wakes a run that waits. Two wakers derive one task id, and the second insert loses. */
    method ResumeRun(run: RunId, t: TaskId, due: Time, maxAttempts: nat) returns (answer: Answer)
      modifies store
      ensures (store.Contents(), answer) == RunSpec.ResumeRun(old(store.Contents()), run, t, due, maxAttempts)
    {
      if run !in store.runs {
        return NotFound;
      }
      if store.runs[run].status != Waiting {
        return Rejected;
      }
      var _ := store.EnqueueTask(t, NewTask(run, ResumeTask, maxAttempts, due, None));
      answer := Accepted;
    }
  }

  lemma {:induction false} AdoptAllKeepsTables(db: Db, rows: seq<Message>, toRun: RunId)
    ensures var next := AdoptAll(db, rows, toRun); next.tasks == db.tasks && next.leases == db.leases
    decreases |rows|
  {
    if rows != [] {
      AdoptAllKeepsTables(AdoptOne(db, rows[0], toRun), rows[1..], toRun);
    }
  }

  lemma AdoptKeepsTables(db: Db, thread: ThreadId, toRun: RunId)
    ensures var next := Adopt(db, thread, toRun); next.tasks == db.tasks && next.leases == db.leases
  {
    AdoptAllKeepsTables(db, LeftOver(db, thread, toRun), toRun);
  }

  /** One slice in a worker's hands: the task it holds, whom it runs as, whom it must hand over to. */
  class Slice {
    const store: Store
    const task: TaskId
    const token: Token
    var sliceAs: Option<Principal>
    var handoverTo: Option<Principal>

    /** Resolves whom the slice runs as before anything can act. */
    constructor (store: Store, task: TaskId, token: Token)
      requires task in store.tasks
      ensures this.store == store && this.task == task && this.token == token
      ensures handoverTo == None
      ensures var row := store.tasks[task];
              sliceAs == SlicePrincipal(row.runAs, if row.runId in store.runs then Some(store.runs[row.runId]) else None)
    {
      this.store, this.task, this.token := store, task, token;
      handoverTo := None;
      var row := store.tasks[task];
      sliceAs := if row.runAs.Some? then row.runAs
                 else if row.runId in store.runs then store.runs[row.runId].principal
                 else None;
    }

    /** The control point, once per step. */
    method Ask(run: RunId, seen: int, through: int) returns (polled: Polled)
      modifies this`handoverTo, store`messages
      ensures (store.Contents(), polled) == (Poll(old(store.Contents()), run, seen, through, sliceAs).0, Poll(old(store.Contents()), run, seen, through, sliceAs).1)
      ensures var asked := Poll(old(store.Contents()), run, seen, through, sliceAs).2;
              handoverTo == if asked.Some? then asked else old(handoverTo)
    {
      if run !in store.runs {
        return Polled(seen, None, []);
      }
      var row := store.runs[run];
      var undrained := row.messageSeq > if through < 0 then 0 else through;
      var park := if row.requestedAt == None then None else if row.intent == Some(Suspend) then Some(ToSuspend) else Some(ToStop);
      if row.controlSeq == seen && !undrained {
        return Polled(row.controlSeq, park, []);
      }
      var delivered, handover := store.DrainMessages(run, through, sliceAs);
      if handover.Some? {
        handoverTo := handover;
      }
      polled := Polled(row.controlSeq, if park.Some? then park else if handover.Some? then Some(ToHandOver) else None, delivered);
    }

    /** The task completes, the run is queued again and the continuation enqueued under whom it was
        handed to; or the run was decided meanwhile, and nothing follows. */
    method Yield(next: TaskId) returns (ended: bool)
      requires next !in store.tasks
      modifies store
      ensures store.now == old(store.now)
      ensures store.Contents() == EndSlice(old(store.Contents()), task, token, Yields(next, handoverTo), store.now)
      ensures ended == Complete(old(store.Contents()), task, token, store.now).1
    {
      ended := store.CompleteTask(task, token);
      if !ended {
        return;
      }
      var run := store.tasks[task].runId;
      var requeued := store.UpdateRunIfStatus(run, NON_TERMINAL, (r: Run) => r.(status := Queued));
      if !requeued {
        return;
      }
      store.RecordEvent(run, RunYielded);
      var _ := store.EnqueueTask(next, NewTask(run, ResumeTask, RESUME_MAX_ATTEMPTS, store.now, handoverTo));
    }

    /** Every other way a slice ends well: the task completes, then the run moves if nobody decided it. */
    method Settle(outcome: Outcome) returns (ended: bool)
      requires !outcome.Yields? && !outcome.Fails?
      modifies store
      ensures store.now == old(store.now)
      ensures store.Contents() == EndSlice(old(store.Contents()), task, token, outcome, store.now)
      ensures ended == Complete(old(store.Contents()), task, token, store.now).1
    {
      ended := store.CompleteTask(task, token);
      if !ended {
        return;
      }
      var run := store.tasks[task].runId;
      if outcome.Skips? {
        store.RecordEvent(run, TaskSkipped);
        return;
      }
      var kind: EventKind;
      var patch: Run -> Run;
      match outcome {
        case WaitsApproval =>
          if run in store.runs && (store.runs[run].intent == Some(Stop) || store.runs[run].intent == Some(Abort)) {
            kind, patch := RunCancelled, (r: Run) => r.Unlatched().(status := Cancelled, waitReason := None);
          } else {
            kind, patch := RunWaitingApproval, (r: Run) => r.(status := Waiting, waitReason := Some(ForApproval));
          }
        case Awaits => kind, patch := RunAwaiting, (r: Run) => r.(status := Waiting);
        case Parks(stopped, checkpoint) =>
          kind := if stopped then RunCancelled else RunParked;
          patch := (r: Run) => r.Unlatched().(
            status := if stopped then Cancelled else Waiting,
            waitReason := if stopped then None else Some(Suspended),
            resumeCheckpoint := Some(checkpoint));
        case Completes => kind, patch := RunCompleted, (r: Run) => r.(status := Completed);
        case Denied => kind, patch := RunDenied, (r: Run) => r.(status := Completed);
        case AbortedByIntent => kind, patch := RunCancelled, (r: Run) => r.Unlatched().(status := Cancelled);
      }
      var settled := store.UpdateRunIfStatus(run, NON_TERMINAL, patch);
      if settled {
        store.RecordEvent(run, kind);
      }
    }

    /** The failure path: the last failure also marks the run, whatever its status was. */
    method FailClaim() returns (failed: bool)
      modifies store
      ensures store.now == old(store.now)
      ensures store.Contents() == EndSlice(old(store.Contents()), task, token, Outcome.Fails, store.now)
      ensures failed == Fail(old(store.Contents()), task, token, store.now).1
    {
      failed := store.FailTask(task, token);
      if failed {
        var row := store.tasks[task];
        store.RecordEvent(row.runId, TaskFailed);
        if row.status == Dead {
          store.UpdateRun(row.runId, (r: Run) => r.(status := Failed));
          store.RecordEvent(row.runId, RunFailed);
        }
      }
    }
  }
}
