/** What the engine's doors and the ends of a slice do to a run and its tasks, in the words of their columns. */
module RunLaws {
  import opened Options
  import opened Tables
  import opened InboxSpec
  import opened RunSpec
  import opened SliceSpec
  import opened StoreLaws

  // ---- starting and proceeding ----

  /** A task as it is enqueued: pending, never claimed, no error charged, in nobody's hands. */
  function Fresh(run: RunId, kind: TaskKind, maxAttempts: nat, due: Time, runAs: Option<Principal>): Task {
    Task(run, kind, Pending, due, 0, 0, maxAttempts, 1000, None, None, None, runAs)
  }

  /** A run on no thread begins queued, with nothing asked of it, both counters at 0 and one task that is due. */
  lemma StartsQueued(db: Db, run: RunId, principal: Option<Principal>, t: TaskId, now: Time)
    ensures RunSpec.StartRun(db, run, principal, None, t, None, now) ==
              db.(runs := db.runs[run := Run(Queued, principal, None, None, None, None, 0, 0, None, None)],
                  tasks := db.tasks[t := Fresh(run, RunTask, 3, now, None)])
  {
  }

  /** A turn on a thread keeps every other run and every other task as they were. */
  lemma TurnStartsQueued(db: Db, run: RunId, principal: Option<Principal>, thread: ThreadId, t: TaskId, now: Time)
    requires run !in db.runs
    ensures var after := RunSpec.StartRun(db, run, principal, Some(thread), t, None, now);
            && after.tasks == db.tasks[t := Fresh(run, RunTask, 3, now, None)]
            && after.leases == db.leases && after.events == db.events
            && after.runs.Keys == db.runs.Keys + {run}
            && (forall r :: r in db.runs ==> after.runs[r] == db.runs[r])
            && after.runs[run] == Run(Queued, principal, Some(thread), None, None, None, 0, after.runs[run].messageSeq, None, None)
  {
    var created := db.(runs := db.runs[run := Run(Queued, principal, Some(thread), None, None, None, 0, 0, None, None)]);
    AdoptMovesOneRun(created, LeftOver(created, thread, run), run);
  }

  lemma {:induction false} AdoptMovesOneRun(db: Db, rows: seq<Message>, run: RunId)
    requires run in db.runs
    ensures var after := AdoptAll(db, rows, run);
            && after.tasks == db.tasks && after.leases == db.leases && after.events == db.events
            && after.runs.Keys == db.runs.Keys
            && (forall r :: r in db.runs && r != run ==> after.runs[r] == db.runs[r])
            && after.runs[run] == db.runs[run].(messageSeq := after.runs[run].messageSeq)
    decreases |rows|
  {
    if rows != [] {
      AdoptMovesOneRun(AdoptOne(db, rows[0], run), rows[1..], run);
    }
  }

  /** PROCEEDING. A missing run is not found, a finished one refused, and a record named before changes nothing;
      otherwise the run is queued again, waiting for nothing, with one task of that kind due now. */
  lemma ProceedQueues(db: Db, run: RunId, kind: TaskKind, t: TaskId, now: Time)
    ensures RunSpec.ProceedRun(db, run, kind, t, None, now) ==
              if run !in db.runs then (db, NotFound)
              else if !IsLive(db, run) then (db, Rejected)
              else if t in db.tasks then (db, Accepted)
              else
                (db.(runs := db.runs[run := db.runs[run].(status := Queued, waitReason := None, resumeCheckpoint := None)],
                     tasks := db.tasks[t := Fresh(run, kind, 3, now, None)]),
                 Accepted)
  {
  }

  /** A door that drives at once claims the very task it enqueued, under the caller's lease, and the run runs. */
  lemma DrivenProceedRuns(db: Db, run: RunId, kind: TaskKind, t: TaskId, d: Drive, now: Time)
    requires IsLive(db, run) && db.runs[run].requestedAt == None && t !in db.tasks && d.lease !in db.leases
    ensures var (after, answer) := RunSpec.ProceedRun(db, run, kind, t, Some(d), now);
            && answer == Accepted && run in after.runs && after.runs[run].status == Running
            && t in after.tasks && IsHeldUnder(after.tasks[t], d.lease) && after.tasks[t].attempt == 1
            && d.lease in after.leases && after.leases[d.lease] == Lease(t, d.worker, Digest(d.token), now + d.ttl, now)
  {
    var queued := db.(runs := db.runs[run := db.runs[run].(status := Queued, waitReason := None, resumeCheckpoint := None)],
                      tasks := db.tasks[t := Fresh(run, kind, 3, now, None)]);
    ProceedQueues(db, run, kind, t, now);
    OpenClaim(queued, t, d.worker, d.ttl, now, d.lease, d.token);
  }

  /** So does a start: the run runs, and its one task is in its caller's hands. */
  lemma DrivenStartRuns(db: Db, run: RunId, principal: Option<Principal>, t: TaskId, d: Drive, now: Time)
    requires t !in db.tasks && d.lease !in db.leases
    ensures var after := RunSpec.StartRun(db, run, principal, None, t, Some(d), now);
            && run in after.runs && after.runs[run].status == Running
            && t in after.tasks && IsHeldUnder(after.tasks[t], d.lease) && after.tasks[t].attempt == 1
            && d.lease in after.leases && after.leases[d.lease] == Lease(t, d.worker, Digest(d.token), now + d.ttl, now)
  {
    var queued := db.(runs := db.runs[run := Run(Queued, principal, None, None, None, None, 0, 0, None, None)],
                      tasks := db.tasks[t := Fresh(run, RunTask, 3, now, None)]);
    StartsQueued(db, run, principal, t, now);
    OpenClaim(queued, t, d.worker, d.ttl, now, d.lease, d.token);
  }

  /** WAKING. Only a waiting run is woken, once for each checkpoint, and its row is left alone. */
  lemma ResumeWakes(db: Db, run: RunId, t: TaskId, due: Time, maxAttempts: nat)
    ensures RunSpec.ResumeRun(db, run, t, due, maxAttempts) ==
              if run !in db.runs then (db, NotFound)
              else if db.runs[run].status != Waiting then (db, Rejected)
              else if t in db.tasks then (db, Accepted)
              else (db.(tasks := db.tasks[t := Fresh(run, ResumeTask, maxAttempts, due, None)]), Accepted)
  {
  }

  // ---- control ----

  /** Nothing higher is asked for than what was: an abort lets nothing through, a stop only an abort, a suspend
      anything but another. */
  predicate AsksNoMore(current: Option<Intent>, next: Intent) {
    || current == Some(Abort)
    || (current == Some(Stop) && next != Abort)
    || (current == Some(Suspend) && next == Suspend)
  }

  /** A REQUEST IS REFUSED, of a live run, if and only if as much was asked before; a refusal writes nothing. */
  lemma RefusedIff(db: Db, run: RunId, intent: Intent, asker: Option<Principal>, now: Time)
    requires IsLive(db, run)
    ensures var (after, answer) := RunSpec.ControlRun(db, run, intent, asker, now);
            && (answer == AlreadyRequested <==> AsksNoMore(db.runs[run].intent, intent))
            && (answer == AlreadyRequested ==> after == db)
            && answer != NoRun && answer != AlreadyTerminal
  {
  }

  /** Of a missing run nothing is asked, and of a finished one the request is noted and nothing else. */
  lemma NothingToControl(db: Db, run: RunId, intent: Intent, asker: Option<Principal>, now: Time)
    requires !IsLive(db, run)
    ensures RunSpec.ControlRun(db, run, intent, asker, now) ==
              if run in db.runs then (db.(events := db.events + [Event(run, ControlIgnored)]), AlreadyTerminal) else (db, NoRun)
  {
  }

  /** A RUNNING RUN IS LATCHED: the intent is what was asked, the sequence one on, and when and by whom it was first
      asked is written once. */
  lemma RunningIsLatched(db: Db, run: RunId, intent: Intent, asker: Option<Principal>, now: Time)
    requires run in db.runs && db.runs[run].status == Running && !AsksNoMore(db.runs[run].intent, intent)
    ensures var row := db.runs[run]; var first := row.intent == None;
            RunSpec.ControlRun(db, run, intent, asker, now) ==
              (db.(runs := db.runs[run := row.(intent := Some(intent), controlSeq := row.controlSeq + 1,
                                               requestedAt := if first then Some(now) else row.requestedAt,
                                               requestedBy := if first && asker.Some? then asker else row.requestedBy)],
                   events := db.events + [Event(run, ControlRequested)]),
               LatchedOnly)
  {
  }

  /** A RUN NOBODY HOLDS IS SETTLED AT ONCE: a suspend leaves it waiting, anything higher cancels it, the latch is left
      clear, and no task of it is pending any more. */
  lemma IdleIsSettled(db: Db, run: RunId, intent: Intent, asker: Option<Principal>, now: Time)
    requires run in db.runs && (db.runs[run].status == Queued || db.runs[run].status == Waiting)
    requires !AsksNoMore(db.runs[run].intent, intent)
    ensures var (after, answer) := RunSpec.ControlRun(db, run, intent, asker, now); var row := db.runs[run];
            && answer == SettledNow
            && after.runs == db.runs[run := Run(
                 if intent == Suspend then Waiting else Cancelled, row.principal, row.threadId, None, None, None,
                 row.controlSeq + 1, row.messageSeq, if intent == Suspend then Some(Suspended) else None, row.resumeCheckpoint)]
            && after.events == db.events + [Event(run, if intent == Suspend then RunSuspended else RunCancelled)]
            && after.leases == db.leases && after.messages == db.messages
            && after.tasks.Keys == db.tasks.Keys
            && (forall t :: t in db.tasks ==>
                  after.tasks[t] == if db.tasks[t].runId == run && db.tasks[t].status == Pending then db.tasks[t].(status := Dead) else db.tasks[t])
            && (forall t :: t in after.tasks && after.tasks[t].runId == run ==> after.tasks[t].status != Pending)
  {
  }

  // ---- the ends of a slice ----

  /** What a good end makes of its live run, but for the task that follows a yield. */
  function Ended(row: Run, outcome: Outcome): Run {
    var clear := row.(requestedAt := None, intent := None, requestedBy := None);
    match outcome
    case Yields(_, _) => row.(status := Queued)
    case WaitsApproval =>
      if row.intent == Some(Stop) || row.intent == Some(Abort) then clear.(status := Cancelled, waitReason := None)
      else row.(status := Waiting, waitReason := Some(ForApproval))
    case Awaits => row.(status := Waiting)
    case Parks(true, checkpoint) => clear.(status := Cancelled, waitReason := None, resumeCheckpoint := Some(checkpoint))
    case Parks(false, checkpoint) => clear.(status := Waiting, waitReason := Some(Suspended), resumeCheckpoint := Some(checkpoint))
    case Completes => row.(status := Completed)
    case Denied => row.(status := Completed)
    case AbortedByIntent => clear.(status := Cancelled)
    case Skips => row
    case Fails => row
  }

  function Noted(row: Run, outcome: Outcome): EventKind {
    match outcome
    case Yields(_, _) => RunYielded
    case WaitsApproval => if row.intent == Some(Stop) || row.intent == Some(Abort) then RunCancelled else RunWaitingApproval
    case Awaits => RunAwaiting
    case Parks(true, _) => RunCancelled
    case Parks(false, _) => RunParked
    case Completes => RunCompleted
    case Denied => RunDenied
    case AbortedByIntent => RunCancelled
    case Skips => TaskSkipped
    case Fails => TaskFailed
  }

  predicate Holds(db: Db, t: TaskId, token: Token, now: Time) {
    Presents(db, t, token, now) && db.tasks[t].status == Leased
  }

  /** A GOOD END, by the holder of a task of a live run: its task is completed and its lease dropped, the run ends as the
      outcome says, with the event that says so, and a yield leaves one task more, under whom it was handed to. */
  lemma GoodEnd(db: Db, t: TaskId, token: Token, outcome: Outcome, now: Time)
    requires Holds(db, t, token, now) && IsLive(db, db.tasks[t].runId) && !outcome.Fails?
    ensures var row := db.tasks[t]; var run := row.runId; var settled := db.tasks[t := row.(status := TaskStatus.Settled)];
            EndSlice(db, t, token, outcome, now) ==
              Db(db.runs[run := Ended(db.runs[run], outcome)],
                 if outcome.Yields? then settled[outcome.nextTask := Fresh(run, ResumeTask, 3, now, outcome.runAs)] else settled,
                 db.leases - {row.leaseId.value}, db.messages, db.events + [Event(run, Noted(db.runs[run], outcome))])
  {
    HolderCompletes(db, t, token, now);
    assert db.runs[db.tasks[t].runId := db.runs[db.tasks[t].runId]] == db.runs;
  }

  /** Where the run was decided meanwhile the winner stands: only the task is completed, and a skip noted. */
  lemma LateEnd(db: Db, t: TaskId, token: Token, outcome: Outcome, now: Time)
    requires Holds(db, t, token, now) && !IsLive(db, db.tasks[t].runId) && !outcome.Fails?
    ensures var row := db.tasks[t];
            EndSlice(db, t, token, outcome, now) ==
              Db(db.runs, db.tasks[t := row.(status := TaskStatus.Settled)], db.leases - {row.leaseId.value}, db.messages,
                 if outcome.Skips? then db.events + [Event(row.runId, TaskSkipped)] else db.events)
  {
    HolderCompletes(db, t, token, now);
  }

  /** Nobody but the holder ends a slice well. */
  lemma ForeignEnd(db: Db, t: TaskId, token: Token, outcome: Outcome, now: Time)
    requires !Holds(db, t, token, now) && !outcome.Fails?
    ensures EndSlice(db, t, token, outcome, now) == db
  {
    HolderCompletes(db, t, token, now);
  }

  /** A BAD END charges the task, and with its last error marks the run `failed`, whatever the run was. */
  lemma BadEnd(db: Db, t: TaskId, token: Token, now: Time)
    requires Holds(db, t, token, now)
    ensures var row := db.tasks[t]; var run := row.runId; var spent := row.errorAttempt + 1 >= row.maxAttempts;
            EndSlice(db, t, token, Outcome.Fails, now) ==
              Db(if spent && run in db.runs then db.runs[run := db.runs[run].(status := Failed)] else db.runs,
                 db.tasks[t := row.(status := if spent then Dead else Pending, errorAttempt := row.errorAttempt + 1,
                                    dueAt := if spent then row.dueAt else now + row.retryDelay,
                                    leaseId := None, workerId := None, leasedUntil := None)],
                 db.leases - {row.leaseId.value}, db.messages,
                 db.events + [Event(run, TaskFailed)] + if spent then [Event(run, RunFailed)] else [])
  {
    HolderFails(db, t, token, now);
  }

  // ---- what a control point sees, and what comes of it ----

  /** The inbox past `through` runs into a message from somebody else than the slice runs as. */
  ghost predicate RunsIntoAnother(db: Db, run: RunId, through: int, runAs: Option<Principal>) {
    runAs.Some? && exists m :: m in db.messages && m.toRun == run && m.num > through && m.mode != AtTurnEnd && m.sender != runAs.value
  }

  /** The counters say there is something to read. */
  predicate HasNews(row: Run, seen: int, through: int) {
    row.controlSeq != seen || row.messageSeq > if through > 0 then through else 0
  }

  lemma {:induction false} SortKeepsRows(rows: seq<Message>)
    ensures forall m :: m in SortByNum(rows) <==> m in rows
  {
    if rows != [] {
      var less, last := rows[..|rows| - 1], rows[|rows| - 1];
      SortKeepsRows(less);
      InsertKeepsRows(SortByNum(less), last);
      assert rows == less + [last];
    }
  }

  lemma {:induction false} InsertKeepsRows(rows: seq<Message>, row: Message)
    ensures forall m :: m in InsertByNum(rows, row) <==> m in rows || m == row
  {
    if rows != [] && rows[|rows| - 1].num > row.num {
      var less, last := rows[..|rows| - 1], rows[|rows| - 1];
      InsertKeepsRows(less, row);
      assert rows == less + [last];
    }
  }

  lemma {:induction false} OwnIsAllIff(rows: seq<Message>, runAs: Option<Principal>)
    ensures Own(rows, runAs) == rows <==> forall m :: m in rows && runAs.Some? ==> m.sender == runAs.value
  {
    if rows != [] {
      OwnIsAllIff(rows[1..], runAs);
      assert rows == [rows[0]] + rows[1..];
    }
  }

  lemma HandsOverIff(db: Db, run: RunId, through: int, runAs: Option<Principal>)
    ensures Drain(db, run, through, runAs).handover.Some? <==> RunsIntoAnother(db, run, through, runAs)
  {
    var rows := Drainable(db.messages, run, through);
    SelectMembers(db.messages, DrainsFrom(run, through));
    SortKeepsRows(Select(db.messages, DrainsFrom(run, through)));
    OwnIsAllIff(rows, runAs);
    forall m
      ensures m in rows <==> m in db.messages && m.toRun == run && m.num > through && m.mode != AtTurnEnd
    {
    }
  }

  /** WHAT A POLL TELLS THE LOOP. To suspend, exactly where a suspend is latched; to stop, exactly where anything higher
      is; to hand over, exactly where nothing is latched and the inbox, read, runs into another's message. */
  lemma ParkIff(db: Db, run: RunId, seen: int, through: int, runAs: Option<Principal>)
    requires run in db.runs
    ensures var row := db.runs[run]; var park := Poll(db, run, seen, through, runAs).1.park; var latched := row.requestedAt.Some?;
            && (park == Some(ToSuspend) <==> latched && row.intent == Some(Suspend))
            && (park == Some(ToStop) <==> latched && row.intent != Some(Suspend))
            && (park == Some(ToHandOver) <==> !latched && HasNews(row, seen, through) && RunsIntoAnother(db, run, through, runAs))
            && Poll(db, run, seen, through, runAs).1.seen == row.controlSeq
  {
    HandsOverIff(db, run, through, runAs);
  }

  /** WHAT A POLL READS: nothing at all where the counters say there is no news, and otherwise what a drain delivers, handing
      over as it does; of a missing run neither. */
  lemma PollReads(db: Db, run: RunId, seen: int, through: int, runAs: Option<Principal>)
    ensures var (after, polled, handover) := Poll(db, run, seen, through, runAs);
            if run !in db.runs then (after, polled, handover) == (db, Polled(seen, None, []), None)
            else if !HasNews(db.runs[run], seen, through) then after == db && polled.deliver == [] && handover == None
            else Drained(after, polled.deliver, handover) == Drain(db, run, through, runAs)
  {
  }

  /** A PARK ENDS AS IT WAS ASKED. A slice that polls a latch and parks on it leaves its run waiting and wakeable if a
      suspend was asked, and cancelled if anything higher was; either way its latch is clear and its checkpoint kept. */
  lemma PolledParkEnds(db: Db, t: TaskId, token: Token, seen: int, through: int, runAs: Option<Principal>, checkpoint: CheckpointId, now: Time, wake: TaskId)
    requires Holds(db, t, token, now) && IsLive(db, db.tasks[t].runId) && db.runs[db.tasks[t].runId].requestedAt.Some?
    requires wake !in db.tasks
    ensures var run := db.tasks[t].runId; var suspends := db.runs[run].intent == Some(Suspend);
            var (polled, point, handover) := Poll(db, run, seen, through, runAs);
            var ended := EndSlice(polled, t, token, Parks(point.park == Some(ToStop), checkpoint), now);
            && run in ended.runs && ended.runs[run].status == (if suspends then Waiting else Cancelled)
            && ended.runs[run].requestedAt == None && ended.runs[run].intent == None && ended.runs[run].requestedBy == None
            && ended.runs[run].resumeCheckpoint == Some(checkpoint)
            && (RunSpec.ResumeRun(ended, run, wake, now, 3).1 == Accepted <==> suspends)
  {
    var run := db.tasks[t].runId;
    var (polled, point, handover) := Poll(db, run, seen, through, runAs);
    ParkIff(db, run, seen, through, runAs);
    assert polled == db.(messages := polled.messages);
    GoodEnd(polled, t, token, Parks(point.park == Some(ToStop), checkpoint), now);
    ResumeWakes(EndSlice(polled, t, token, Parks(point.park == Some(ToStop), checkpoint), now), run, wake, now, 3);
  }
}
