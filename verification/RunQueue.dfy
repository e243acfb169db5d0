/** No stranded queued run: a queued run nobody has asked anything of has a task waiting for it. */
module RunQueue {
  import opened Options
  import opened Tables
  import opened StorageOps
  import opened StoreSpec
  import opened InboxSpec
  import opened RunSpec
  import opened RunLifecycle
  import opened RunVerdicts

  predicate IdleFor(row: Task, run: RunId) {
    row.runId == run && row.status == Pending
  }

  predicate Awaited(db: Db, run: RunId) {
    run in db.runs && db.runs[run].status == Queued && db.runs[run].requestedAt == None
  }

  ghost predicate Fed(db: Db, run: RunId) {
    Awaited(db, run) ==> exists t :: t in db.tasks && IdleFor(db.tasks[t], run)
  }

  /** The run's idle tasks stay idle, and a run waiting for one was already waiting. */
  ghost predicate Spares(db: Db, db': Db, run: RunId) {
    && (Awaited(db', run) ==> Awaited(db, run))
    && (Awaited(db', run) ==> forall t :: t in db.tasks && IdleFor(db.tasks[t], run) ==> t in db'.tasks && IdleFor(db'.tasks[t], run))
  }

  lemma ClaimSpares(db: Db, t: TaskId, worker: WorkerId, ttl: nat, at: Time, lease: LeaseId, token: Token, run: RunId)
    ensures Spares(db, ClaimTask(db, t, worker, ttl, at, lease, token).0, run)
  {
    if t in db.tasks && Latched(db, db.tasks[t].runId) {
      assert !Awaited(db, db.tasks[t].runId);
    }
  }

  lemma {:induction false} ReapSpares(db: Db, found: seq<(LeaseId, TaskId)>, at: Time, run: RunId)
    ensures Spares(db, Reap(db, found, at), run)
    decreases |found|
  {
    if found != [] {
      assert Spares(db, ReapOne(db, found[0].0, found[0].1, at), run);
      ReapSpares(ReapOne(db, found[0].0, found[0].1, at), found[1..], at, run);
    }
  }

  lemma DriveKeepsFed(db: Db, t: TaskId, drive: Option<Drive>, now: Time, run: RunId)
    requires Fed(db, run)
    ensures Fed(Driven(db, t, drive, now), run)
  {
    if drive.Some? {
      var d := drive.value;
      ClaimSpares(db, t, d.worker, d.ttl, now, d.lease, d.token, run);
    }
  }

  lemma StartKeepsFed(s: State, a: Action, run: RunId)
    requires a.Start? && Enabled(s, a) && Fed(s.db, run)
    ensures Fed(Apply(s.db, s.now, a), run)
  {
    var created := PutRun(s.db, a.run, NewRun(a.principal, a.thread));
    var adopted := if a.thread.Some? then Adopt(created, a.thread.value, a.run) else created;
    if a.thread.Some? {
      AdoptKeepsRest(created, LeftOver(created, a.thread.value, a.run), a.run);
    }
    var added := PutTask(adopted, a.task, NewTask(a.run, RunTask, DEFAULT_MAX_ATTEMPTS, s.now, None));
    assert IdleFor(added.tasks[a.task], a.run);
    if run != a.run {
      assert Spares(s.db, added, run);
    }
    DriveKeepsFed(added, a.task, a.drive, s.now, run);
  }

  lemma ProceedKeepsFed(db: Db, now: Time, a: Action, run: RunId)
    requires a.Proceed? && Fed(db, run)
    ensures Fed(Apply(db, now, a), run)
  {
    if a.run in db.runs && !Terminal(db.runs[a.run].status) && a.task !in db.tasks {
      var added := PutTask(db, a.task, NewTask(a.run, a.kind, if a.kind == ResumeTask then RESUME_MAX_ATTEMPTS else DEFAULT_MAX_ATTEMPTS, now, None));
      var requeued := PutRun(added, a.run, added.runs[a.run].(status := Queued, waitReason := None, resumeCheckpoint := None));
      assert IdleFor(requeued.tasks[a.task], a.run);
      if run != a.run {
        assert Spares(db, requeued, run);
      }
      DriveKeepsFed(requeued, a.task, a.drive, now, run);
    }
  }

  lemma ControlSpares(db: Db, now: Time, a: Action, run: RunId)
    requires a.Control?
    ensures Spares(db, Apply(db, now, a), run)
  {
  }

  lemma EndLiveKeepsFed(db: Db, r: RunId, outcome: Outcome, now: Time, run: RunId)
    requires r in db.runs && Fed(db, run) && (outcome.Yields? ==> outcome.nextTask !in db.tasks)
    ensures Fed(EndLive(db, r, outcome, now), run)
  {
    var after := EndLive(db, r, outcome, now);
    if outcome.Yields? && RunIsIn(db, r, NON_TERMINAL) {
      assert IdleFor(after.tasks[outcome.nextTask], r);
      if run != r {
        assert Spares(db, after, run);
      }
    } else {
      assert Spares(db, after, run);
    }
  }

  lemma CompleteSpares(db: Db, t: TaskId, token: Token, now: Time, run: RunId)
    ensures Spares(db, Complete(db, t, token, now).0, run)
  {
  }

  lemma FailSpares(db: Db, t: TaskId, token: Token, now: Time, run: RunId)
    ensures Spares(db, FailSlice(db, t, token, now), run)
  {
    assert Spares(db, Fail(db, t, token, now).0, run);
  }

  lemma EndKeepsFed(db: Db, t: TaskId, token: Token, outcome: Outcome, now: Time, run: RunId)
    requires Fed(db, run) && (outcome.Yields? ==> outcome.nextTask !in db.tasks)
    ensures Fed(EndSlice(db, t, token, outcome, now), run)
  {
    if outcome.Fails? {
      FailSpares(db, t, token, now, run);
    } else {
      var (done, ok) := Complete(db, t, token, now);
      CompleteSpares(db, t, token, now, run);
      if ok && done.tasks[t].runId in done.runs {
        EndLiveKeepsFed(done, done.tasks[t].runId, outcome, now, run);
      }
    }
  }

  lemma OtherSpares(s: State, a: Action, run: RunId)
    requires Enabled(s, a) && (a.Tick? || a.Resume? || a.Beat? || a.Deliver?)
    ensures Spares(s.db, Step(s, a).db, run)
  {
  }

  lemma SparedIsFed(db: Db, db': Db, run: RunId)
    requires Fed(db, run) && Spares(db, db', run)
    ensures Fed(db', run)
  {
  }

  lemma StepKeepsFed(s: State, a: Action, run: RunId)
    requires Fed(s.db, run)
    ensures Fed(Step(s, a).db, run)
  {
    if Enabled(s, a) {
      match a
      case Start(_, _, _, _, _) => StartKeepsFed(s, a, run);
      case Proceed(_, _, _, _) => ProceedKeepsFed(s.db, s.now, a, run);
      case Control(_, _, _) =>
        ControlSpares(s.db, s.now, a, run);
        SparedIsFed(s.db, Step(s, a).db, run);
      case Claim(t, worker, ttl, lease, token) =>
        ClaimSpares(s.db, t, worker, ttl, s.now, lease, token, run);
        SparedIsFed(s.db, Step(s, a).db, run);
      case End(t, token, outcome) => EndKeepsFed(s.db, t, token, outcome, s.now, run);
      case Sweep(found) =>
        ReapSpares(s.db, found, s.now, run);
        SparedIsFed(s.db, Step(s, a).db, run);
      case _ =>
        OtherSpares(s, a, run);
        SparedIsFed(s.db, Step(s, a).db, run);
    }
  }

  /** NO STRANDED RUN. After every history, a queued run with no latch has a pending task of its own. */
  lemma {:induction false} NoStrandedRun(history: seq<Action>, run: RunId)
    ensures Fed(After(history).db, run)
  {
    if history != [] {
      NoStrandedRun(history[..|history| - 1], run);
      StepKeepsFed(After(history[..|history| - 1]), history[|history| - 1], run);
    }
  }
}
