/** No resurrection, and one verdict per run. */
module RunVerdicts {
  import opened Options
  import opened Tables
  import opened StorageOps
  import opened StoreSpec
  import opened InboxSpec
  import opened RunSpec
  import opened RunLifecycle

  predicate IsVerdict(kind: EventKind) {
    kind == RunCompleted || kind == RunDenied || kind == RunCancelled
  }

  /** How many verdicts the run's event stream holds. */
  function Verdicts(events: seq<Event>, run: RunId): nat {
    if events == [] then 0
    else
      var last := events[|events| - 1];
      Verdicts(events[..|events| - 1], run) + (if last.runId == run && IsVerdict(last.kind) then 1 else 0)
  }

  lemma VerdictsAppend(events: seq<Event>, e: Event, run: RunId)
    ensures Verdicts(events + [e], run) == Verdicts(events, run) + (if e.runId == run && IsVerdict(e.kind) then 1 else 0)
  {
    assert (events + [e])[..|events|] == events;
  }

  ghost predicate OneVerdict(db: Db, run: RunId) {
    && Verdicts(db.events, run) <= 1
    && (Verdicts(db.events, run) == 1 ==> run in db.runs && Terminal(db.runs[run].status))
    && (run in db.runs && db.runs[run].status == Completed ==>
          Event(run, RunCompleted) in db.events || Event(run, RunDenied) in db.events)
    && (run in db.runs && db.runs[run].status == Cancelled ==> Event(run, RunCancelled) in db.events)
  }

  /** What a step may do to one run: nothing live after an end, and every end with its verdict. */
  ghost predicate Lawful(db: Db, db': Db, run: RunId) {
    && db.runs.Keys <= db'.runs.Keys
    && db.events <= db'.events
    && (run in db.runs && Terminal(db.runs[run].status) ==>
          && (db'.runs[run].status == db.runs[run].status || db'.runs[run].status == Failed)
          && Verdicts(db'.events, run) == Verdicts(db.events, run))
    && (OneVerdict(db, run) ==> OneVerdict(db', run))
  }

  /** A lawful step that leaves an ended run's status as it is. */
  ghost predicate Firm(db: Db, db': Db, run: RunId) {
    && Lawful(db, db', run)
    && (run in db.runs && Terminal(db.runs[run].status) ==> db'.runs[run].status == db.runs[run].status)
  }

  lemma LawfulThen(a: Db, b: Db, c: Db, run: RunId)
    requires Lawful(a, b, run) && Lawful(b, c, run)
    ensures Lawful(a, c, run)
  {
  }

  /** No status moved and no event came. */
  predicate SameStatuses(db: Db, db': Db) {
    && db'.runs.Keys == db.runs.Keys
    && (forall r :: r in db.runs ==> db'.runs[r].status == db.runs[r].status)
    && db'.events == db.events
  }

  lemma QuietIsLawful(db: Db, db': Db, run: RunId)
    requires SameStatuses(db, db')
    ensures Firm(db, db', run)
  {
  }

  /** A run write that neither ends the run nor revives it, with an event that is no verdict. */
  lemma StatusIsLawful(db: Db, r: RunId, from: set<RunStatus>, status: RunStatus, run: RunId)
    requires from <= NON_TERMINAL && status !in {Completed, Cancelled}
    ensures Firm(db, SetStatusIf(db, r, from, status), run)
  {
  }

  lemma NoteIsLawful(db: Db, r: RunId, kind: EventKind, run: RunId)
    requires !IsVerdict(kind)
    ensures Firm(db, AppendEvent(db, r, kind), run)
  {
    VerdictsAppend(db.events, Event(r, kind), run);
  }

  /** A live run written together with the event that names its end. */
  lemma EndIsLawful(db: Db, r: RunId, row: Run, kind: EventKind, run: RunId)
    requires RunIsIn(db, r, NON_TERMINAL)
    requires IsVerdict(kind) ==> Terminal(row.status)
    requires row.status == Completed ==> kind == RunCompleted || kind == RunDenied
    requires row.status == Cancelled ==> kind == RunCancelled
    ensures Firm(db, AppendEvent(PutRun(db, r, row), r, kind), run)
  {
    VerdictsAppend(db.events, Event(r, kind), run);
  }

  // ---- each method is lawful ----

  lemma ClaimIsLawful(db: Db, t: TaskId, worker: WorkerId, ttl: nat, at: Time, lease: LeaseId, token: Token, run: RunId)
    ensures Firm(db, ClaimTask(db, t, worker, ttl, at, lease, token).0, run)
  {
    if t in db.tasks {
      var row := db.tasks[t];
      if row.attempt >= MAX_CLAIMS {
        QuietIsLawful(db, KillPending(db, t), run);
        StatusIsLawful(KillPending(db, t), row.runId, {Queued}, Failed, run);
      } else if Latched(db, row.runId) {
        WithholdIsLawful(db, t, row.runId, at, run);
      } else {
        TakeIsLawful(db, t, row, worker, ttl, at, lease, token, run);
      }
    }
  }

  lemma WithholdIsLawful(db: Db, t: TaskId, r: RunId, at: Time, run: RunId)
    requires Latched(db, r)
    ensures Firm(db, WithholdLatched(db, t, r, at), run)
  {
    var killed := KillPending(db, t);
    QuietIsLawful(db, killed, run);
    if RunIsIn(killed, r, {Queued, Waiting}) {
      var stops := db.runs[r].intent != Some(Suspend);
      EndIsLawful(killed, r, SettleLatched(killed, r, stops).runs[r], if stops then RunCancelled else RunSuspended, run);
    }
  }

  lemma TakeIsLawful(db: Db, t: TaskId, candidate: Task, worker: WorkerId, ttl: nat, at: Time, lease: LeaseId, token: Token, run: RunId)
    ensures Firm(db, TakeAndStart(db, t, candidate, worker, ttl, at, lease, token).0, run)
  {
    var minted := InsertLease(db, lease, Lease(t, worker, Digest(token), at + ttl, at));
    var taken := TakeTask(minted, t, candidate.attempt, lease, worker, at + ttl, at);
    QuietIsLawful(db, taken, run);
    if CanTake(db, t, at) && RunIsIn(taken, candidate.runId, NON_TERMINAL) {
      StatusIsLawful(taken, candidate.runId, NON_TERMINAL, Running, run);
    } else {
      QuietIsLawful(db, TakeAndStart(db, t, candidate, worker, ttl, at, lease, token).0, run);
    }
  }

  lemma {:induction false} ReapIsLawful(db: Db, found: seq<(LeaseId, TaskId)>, at: Time, run: RunId)
    ensures Firm(db, Reap(db, found, at), run)
    decreases |found|
  {
    if found == [] {
      QuietIsLawful(db, db, run);
    } else {
      var (l, t) := found[0];
      var swept, next := SweepLease(db, l, t, at), ReapOne(db, l, t, at);
      QuietIsLawful(db, swept, run);
      if SweepAbandons(db, l, t) {
        StatusIsLawful(swept, db.tasks[t].runId, NON_TERMINAL, Failed, run);
      }
      ReapIsLawful(next, found[1..], at, run);
    }
  }

  /** Adoption moves messages and their counters, and nothing else. */
  predicate SameButInbox(db: Db, db': Db) {
    && db'.runs.Keys == db.runs.Keys
    && (forall r :: r in db.runs ==> db'.runs[r] == db.runs[r].(messageSeq := db'.runs[r].messageSeq))
    && db'.tasks == db.tasks && db'.leases == db.leases && db'.events == db.events
  }

  lemma {:induction false} AdoptKeepsRest(db: Db, rows: seq<Message>, toRun: RunId)
    ensures SameButInbox(db, AdoptAll(db, rows, toRun))
    decreases |rows|
  {
    if rows != [] {
      assert SameButInbox(db, AdoptOne(db, rows[0], toRun));
      AdoptKeepsRest(AdoptOne(db, rows[0], toRun), rows[1..], toRun);
    }
  }

  lemma StartIsLawful(s: State, a: Action, run: RunId)
    requires a.Start? && Enabled(s, a)
    ensures Firm(s.db, Apply(s.db, s.now, a), run)
  {
    var db := s.db;
    var created := PutRun(db, a.run, NewRun(a.principal, a.thread));
    var adopted := if a.thread.Some? then Adopt(created, a.thread.value, a.run) else created;
    if a.thread.Some? {
      AdoptKeepsRest(created, LeftOver(created, a.thread.value, a.run), a.run);
    }
    var added := PutTask(adopted, a.task, NewTask(a.run, RunTask, DEFAULT_MAX_ATTEMPTS, s.now, None));
    assert Firm(db, created, run);
    QuietIsLawful(created, added, run);
    DriveIsLawful(added, a.task, a.drive, s.now, run);
    LawfulThen(db, created, added, run);
  }

  lemma DriveIsLawful(db: Db, t: TaskId, drive: Option<Drive>, now: Time, run: RunId)
    ensures Firm(db, Driven(db, t, drive, now), run)
  {
    match drive
    case None => QuietIsLawful(db, db, run);
    case Some(d) => ClaimIsLawful(db, t, d.worker, d.ttl, now, d.lease, d.token, run);
  }

  lemma ProceedIsLawful(db: Db, now: Time, a: Action, run: RunId)
    requires a.Proceed?
    ensures Firm(db, Apply(db, now, a), run)
  {
    if a.run in db.runs && !Terminal(db.runs[a.run].status) && a.task !in db.tasks {
      var added := PutTask(db, a.task, NewTask(a.run, a.kind, if a.kind == ResumeTask then RESUME_MAX_ATTEMPTS else DEFAULT_MAX_ATTEMPTS, now, None));
      var requeued := PutRun(added, a.run, added.runs[a.run].(status := Queued, waitReason := None, resumeCheckpoint := None));
      assert Firm(db, requeued, run);
      DriveIsLawful(requeued, a.task, a.drive, now, run);
    } else {
      QuietIsLawful(db, db, run);
    }
  }

  lemma ControlIsLawful(db: Db, now: Time, a: Action, run: RunId)
    requires a.Control?
    ensures Firm(db, Apply(db, now, a), run)
  {
    if a.run in db.runs {
      var row, next := db.runs[a.run], Apply(db, now, a);
      if Terminal(row.status) {
        NoteIsLawful(db, a.run, ControlIgnored, run);
      } else if row.intent.Some? && !Raises(row.intent.value, a.intent) {
        QuietIsLawful(db, db, run);
      } else if row.status == Running {
        EndIsLawful(db, a.run, Latch(row, a.intent, a.asker, now), ControlRequested, run);
      } else {
        QuietIsLawful(db, DeadLetter(db, a.run), run);
        EndIsLawful(DeadLetter(db, a.run), a.run, next.runs[a.run], if a.intent != Suspend then RunCancelled else RunSuspended, run);
      }
    } else {
      QuietIsLawful(db, db, run);
    }
  }

  lemma ConcludeIsLawful(db: Db, r: RunId, row: Run, kind: EventKind, run: RunId)
    requires IsVerdict(kind) ==> Terminal(row.status)
    requires row.status == Completed ==> kind == RunCompleted || kind == RunDenied
    requires row.status == Cancelled ==> kind == RunCancelled
    ensures Firm(db, Conclude(db, r, row, kind), run)
  {
    if RunIsIn(db, r, NON_TERMINAL) {
      EndIsLawful(db, r, row, kind, run);
    } else {
      QuietIsLawful(db, db, run);
    }
  }

  lemma EndLiveIsLawful(db: Db, r: RunId, outcome: Outcome, now: Time, run: RunId)
    requires r in db.runs
    ensures Firm(db, EndLive(db, r, outcome, now), run)
  {
    var row := db.runs[r];
    match outcome
    case Yields(next, runAs) =>
      if RunIsIn(db, r, NON_TERMINAL) {
        EndIsLawful(db, r, row.(status := Queued), RunYielded, run);
        var noted := AppendEvent(PutRun(db, r, row.(status := Queued)), r, RunYielded);
        QuietIsLawful(noted, EndLive(db, r, outcome, now), run);
      } else {
        QuietIsLawful(db, db, run);
      }
    case WaitsApproval =>
      ConcludeIsLawful(db, r, row.Unlatched().(status := Cancelled, waitReason := None), RunCancelled, run);
      ConcludeIsLawful(db, r, row.(status := Waiting, waitReason := Some(ForApproval)), RunWaitingApproval, run);
    case Awaits => ConcludeIsLawful(db, r, row.(status := Waiting), RunAwaiting, run);
    case Parks(stopped, checkpoint) =>
      ConcludeIsLawful(db, r,
        row.Unlatched().(
          status := if stopped then Cancelled else Waiting,
          waitReason := if stopped then None else Some(Suspended),
          resumeCheckpoint := Some(checkpoint)),
        if stopped then RunCancelled else RunParked, run);
    case Completes => ConcludeIsLawful(db, r, row.(status := Completed), RunCompleted, run);
    case Denied => ConcludeIsLawful(db, r, row.(status := Completed), RunDenied, run);
    case AbortedByIntent => ConcludeIsLawful(db, r, row.Unlatched().(status := Cancelled), RunCancelled, run);
    case Skips => NoteIsLawful(db, r, TaskSkipped, run);
    case Fails => QuietIsLawful(db, db, run);
  }

  lemma FailIsLawful(db: Db, t: TaskId, token: Token, now: Time, run: RunId)
    ensures Lawful(db, FailSlice(db, t, token, now), run)
  {
    var (failed, ok) := Fail(db, t, token, now);
    QuietIsLawful(db, failed, run);
    if ok && t in failed.tasks {
      var r := failed.tasks[t].runId;
      var noted := AppendEvent(failed, r, TaskFailed);
      NoteIsLawful(failed, r, TaskFailed, run);
      LawfulThen(db, failed, noted, run);
      if failed.tasks[t].status == Dead {
        var marked := if r in noted.runs then PutRun(noted, r, noted.runs[r].(status := Failed)) else noted;
        assert Lawful(noted, marked, run);
        NoteIsLawful(marked, r, RunFailed, run);
      }
    }
  }

  lemma EndSliceIsLawful(db: Db, t: TaskId, token: Token, outcome: Outcome, now: Time, run: RunId)
    requires !outcome.Fails?
    ensures Firm(db, EndSlice(db, t, token, outcome, now), run)
  {
    var (done, ok) := Complete(db, t, token, now);
    QuietIsLawful(db, done, run);
    if ok && t in done.tasks {
      var r := done.tasks[t].runId;
      if r in done.runs {
        EndLiveIsLawful(done, r, outcome, now, run);
      } else if outcome.Skips? {
        NoteIsLawful(done, r, TaskSkipped, run);
      }
    }
  }

  predicate IsFailure(a: Action) {
    a.End? && a.outcome.Fails?
  }

  lemma StepIsFirm(s: State, a: Action, run: RunId)
    requires !IsFailure(a)
    ensures Firm(s.db, Step(s, a).db, run)
  {
    if Enabled(s, a) {
      match a
      case Start(_, _, _, _, _) => StartIsLawful(s, a, run);
      case Proceed(_, _, _, _) => ProceedIsLawful(s.db, s.now, a, run);
      case Control(_, _, _) => ControlIsLawful(s.db, s.now, a, run);
      case Claim(t, worker, ttl, lease, token) => ClaimIsLawful(s.db, t, worker, ttl, s.now, lease, token, run);
      case End(t, token, outcome) => EndSliceIsLawful(s.db, t, token, outcome, s.now, run);
      case Sweep(found) => ReapIsLawful(s.db, found, s.now, run);
      case _ => QuietIsLawful(s.db, Step(s, a).db, run);
    } else {
      QuietIsLawful(s.db, s.db, run);
    }
  }

  lemma StepIsLawful(s: State, a: Action, run: RunId)
    ensures Lawful(s.db, Step(s, a).db, run)
  {
    if IsFailure(a) {
      FailIsLawful(s.db, a.task, a.token, s.now, run);
    } else {
      StepIsFirm(s, a, run);
    }
  }

  /** The failure that exhausts a task's errors, presented by the task's holder. */
  predicate ExhaustsFor(s: State, a: Action, run: RunId) {
    && IsFailure(a)
    && HolderOf(s.db, a.task, a.token, s.now)
    && s.db.tasks[a.task].runId == run
    && s.db.tasks[a.task].errorAttempt + 1 >= s.db.tasks[a.task].maxAttempts
  }

  /** THE ONE WRITE THAT RELABELS AN END. A finished run changes status in a step exactly when the
      holder of one of its tasks spends that task's last error, and then it turns `failed`. */
  lemma RelabelledIffExhausted(s: State, a: Action, run: RunId)
    requires run in s.db.runs && Terminal(s.db.runs[run].status)
    ensures run in Step(s, a).db.runs
    ensures Step(s, a).db.runs[run].status != s.db.runs[run].status <==>
              ExhaustsFor(s, a, run) && s.db.runs[run].status != Failed
  {
    if !IsFailure(a) {
      StepIsFirm(s, a, run);
    }
  }

  lemma {:induction false} AlwaysOneVerdict(history: seq<Action>, run: RunId)
    ensures OneVerdict(After(history).db, run)
  {
    if history != [] {
      AlwaysOneVerdict(history[..|history| - 1], run);
      StepIsLawful(After(history[..|history| - 1]), history[|history| - 1], run);
    }
  }

  lemma {:induction false} LawfulOver(history: seq<Action>, more: seq<Action>, run: RunId)
    ensures Lawful(After(history).db, After(history + more).db, run)
  {
    if more == [] {
      assert history + more == history;
      QuietIsLawful(After(history).db, After(history).db, run);
    } else {
      var less, a := more[..|more| - 1], more[|more| - 1];
      LawfulOver(history, less, run);
      StepIsLawful(After(history + less), a, run);
      assert (history + more)[..|history + more| - 1] == history + less;
    }
  }

  /** NO RESURRECTION. A finished run never lives again: at most it turns `failed`, and it is given no
      further verdict. */
  lemma NoResurrection(history: seq<Action>, more: seq<Action>, run: RunId)
    requires run in After(history).db.runs && Terminal(After(history).db.runs[run].status)
    ensures run in After(history + more).db.runs
    ensures var before, after := After(history).db, After(history + more).db;
            && (after.runs[run].status == before.runs[run].status || after.runs[run].status == Failed)
            && Verdicts(after.events, run) == Verdicts(before.events, run)
  {
    LawfulOver(history, more, run);
  }

  /** ONE VERDICT. A run's event stream holds at most one verdict; a completed run has a completion or
      a denial, a cancelled run a cancellation, and a live run none. */
  lemma VerdictMatchesStatus(history: seq<Action>, run: RunId)
    requires run in After(history).db.runs
    ensures var db := After(history).db; var status := db.runs[run].status;
            && Verdicts(db.events, run) <= 1
            && (!Terminal(status) ==> Verdicts(db.events, run) == 0)
            && (status == Completed ==> Event(run, RunCompleted) in db.events || Event(run, RunDenied) in db.events)
            && (status == Cancelled ==> Event(run, RunCancelled) in db.events)
  {
    AlwaysOneVerdict(history, run);
  }

  /** A CLAIM WINS exactly when its task is pending, due and within its claims, and its run is live and
      asked nothing of. */
  lemma ClaimWinsIff(db: Db, t: TaskId, worker: WorkerId, ttl: nat, at: Time, lease: LeaseId, token: Token)
    ensures ClaimTask(db, t, worker, ttl, at, lease, token).1 <==>
              && t in db.tasks && db.tasks[t].status == Pending && db.tasks[t].dueAt <= at && db.tasks[t].attempt < MAX_CLAIMS
              && db.tasks[t].runId in db.runs && !Terminal(db.runs[db.tasks[t].runId].status)
              && db.runs[db.tasks[t].runId].requestedAt == None
  {
    if t in db.tasks {
      var minted := InsertLease(db, lease, Lease(t, worker, Digest(token), at + ttl, at));
      assert TakeTask(minted, t, db.tasks[t].attempt, lease, worker, at + ttl, at).runs == db.runs;
    }
  }

  /** NO SLICE AFTER THE END. Once a run is finished, no claim of any of its tasks ever wins again. */
  lemma FinishedRunGetsNoSlice(history: seq<Action>, more: seq<Action>, run: RunId, t: TaskId, worker: WorkerId, ttl: nat, lease: LeaseId, token: Token)
    requires run in After(history).db.runs && Terminal(After(history).db.runs[run].status)
    requires t in After(history + more).db.tasks && After(history + more).db.tasks[t].runId == run
    ensures var s := After(history + more); !ClaimTask(s.db, t, worker, ttl, s.now, lease, token).1
  {
    NoResurrection(history, more, run);
    var s := After(history + more);
    ClaimWinsIff(s.db, t, worker, ttl, s.now, lease, token);
  }
}
