/** The control latch is a running maximum of what was asked since it was last clear. */
module RunLatch {
  import opened Options
  import opened Tables
  import opened StorageOps
  import opened StoreSpec
  import opened InboxSpec
  import opened RunSpec
  import opened RunLifecycle
  import opened RunVerdicts

  predicate Clear(row: Run) {
    row.intent == None && row.requestedAt == None && row.requestedBy == None
  }

  predicate SameLatch(row: Run, row': Run) {
    row'.intent == row.intent && row'.requestedAt == row.requestedAt && row'.requestedBy == row.requestedBy
  }

  /** Other than a request, a step keeps a run's latch or clears it, and never counts. */
  predicate Keeps(db: Db, db': Db, run: RunId) {
    && (run in db.runs ==>
          && run in db'.runs
          && db'.runs[run].controlSeq == db.runs[run].controlSeq
          && (SameLatch(db.runs[run], db'.runs[run]) || Clear(db'.runs[run])))
    && (run !in db.runs && run in db'.runs ==> Clear(db'.runs[run]))
  }

  lemma ClaimKeeps(db: Db, t: TaskId, worker: WorkerId, ttl: nat, at: Time, lease: LeaseId, token: Token, run: RunId)
    ensures Keeps(db, ClaimTask(db, t, worker, ttl, at, lease, token).0, run)
  {
  }

  lemma DriveKeeps(db: Db, t: TaskId, drive: Option<Drive>, now: Time, run: RunId)
    ensures Keeps(db, Driven(db, t, drive, now), run)
  {
    if drive.Some? {
      ClaimKeeps(db, t, drive.value.worker, drive.value.ttl, now, drive.value.lease, drive.value.token, run);
    }
  }

  lemma {:induction false} ReapKeeps(db: Db, found: seq<(LeaseId, TaskId)>, at: Time, run: RunId)
    ensures Keeps(db, Reap(db, found, at), run)
    decreases |found|
  {
    if found != [] {
      assert Keeps(db, ReapOne(db, found[0].0, found[0].1, at), run);
      ReapKeeps(ReapOne(db, found[0].0, found[0].1, at), found[1..], at, run);
    }
  }

  lemma StartKeeps(s: State, a: Action, run: RunId)
    requires a.Start? && Enabled(s, a)
    ensures Keeps(s.db, Apply(s.db, s.now, a), run)
  {
    var created := PutRun(s.db, a.run, NewRun(a.principal, a.thread));
    var adopted := if a.thread.Some? then Adopt(created, a.thread.value, a.run) else created;
    if a.thread.Some? {
      AdoptKeepsRest(created, LeftOver(created, a.thread.value, a.run), a.run);
    }
    var added := PutTask(adopted, a.task, NewTask(a.run, RunTask, DEFAULT_MAX_ATTEMPTS, s.now, None));
    assert Keeps(s.db, added, run);
    DriveKeeps(added, a.task, a.drive, s.now, run);
  }

  lemma ProceedKeeps(db: Db, now: Time, a: Action, run: RunId)
    requires a.Proceed?
    ensures Keeps(db, Apply(db, now, a), run)
  {
    if a.run in db.runs && !Terminal(db.runs[a.run].status) && a.task !in db.tasks {
      var added := PutTask(db, a.task, NewTask(a.run, a.kind, if a.kind == ResumeTask then RESUME_MAX_ATTEMPTS else DEFAULT_MAX_ATTEMPTS, now, None));
      var requeued := PutRun(added, a.run, added.runs[a.run].(status := Queued, waitReason := None, resumeCheckpoint := None));
      assert Keeps(db, requeued, run);
      DriveKeeps(requeued, a.task, a.drive, now, run);
    }
  }

  lemma EndLiveKeeps(db: Db, r: RunId, outcome: Outcome, now: Time, run: RunId)
    requires r in db.runs
    ensures Keeps(db, EndLive(db, r, outcome, now), run)
  {
  }

  lemma EndKeeps(db: Db, t: TaskId, token: Token, outcome: Outcome, now: Time, run: RunId)
    ensures Keeps(db, EndSlice(db, t, token, outcome, now), run)
  {
    var (done, ok) := Complete(db, t, token, now);
    if !outcome.Fails? && ok && done.tasks[t].runId in done.runs {
      EndLiveKeeps(done, done.tasks[t].runId, outcome, now, run);
    }
  }

  lemma OthersKeep(s: State, a: Action, run: RunId)
    requires Enabled(s, a) && !a.Control?
    ensures Keeps(s.db, Apply(s.db, s.now, a), run)
  {
    match a
    case Start(_, _, _, _, _) => StartKeeps(s, a, run);
    case Proceed(_, _, _, _) => ProceedKeeps(s.db, s.now, a, run);
    case Claim(t, worker, ttl, lease, token) => ClaimKeeps(s.db, t, worker, ttl, s.now, lease, token, run);
    case End(t, token, outcome) => EndKeeps(s.db, t, token, outcome, s.now, run);
    case Sweep(found) => ReapKeeps(s.db, found, s.now, run);
    case _ =>
  }

  /** The latch is the highest request, asked first by whoever asked first. */
  ghost predicate IsMaximum(row: Run, asked: seq<Request>) {
    if row.intent == None then row.requestedAt == None && row.requestedBy == None
    else
      && row.requestedAt.Some?
      && asked != []
      && row.requestedBy == asked[0].asker
      && (forall i :: 0 <= i < |asked| ==> IntentRank(asked[i].intent) <= IntentRank(row.intent.value))
      && (exists i :: 0 <= i < |asked| && asked[i].intent == row.intent.value)
  }

  ghost predicate LatchOk(s: State, run: RunId) {
    run in s.db.runs ==> IsMaximum(s.db.runs[run], Asked(s, run))
  }

  lemma RequestRaises(row: Run, asked: seq<Request>, request: Request, now: Time)
    requires IsMaximum(row, asked)
    requires row.intent.Some? ==> Raises(row.intent.value, request.intent)
    requires row.intent == None ==> asked == []
    ensures IsMaximum(Latch(row, request.intent, request.asker, now), asked + [request])
  {
    var next := asked + [request];
    assert next[|next| - 1] == request;
  }

  lemma RequestRefused(row: Run, asked: seq<Request>, request: Request)
    requires IsMaximum(row, asked) && row.intent.Some? && !Raises(row.intent.value, request.intent)
    ensures IsMaximum(row, asked + [request])
  {
    var i :| 0 <= i < |asked| && asked[i].intent == row.intent.value;
    assert (asked + [request])[i] == asked[i];
  }

  lemma ControlKeepsLatchOk(s: State, a: Action, run: RunId)
    requires a.Control? && LatchOk(s, run)
    requires run in s.db.runs && s.db.runs[run].intent == None ==> Asked(s, run) == []
    ensures LatchOk(Step(s, a), run)
  {
    if run != a.run || run !in s.db.runs || Terminal(s.db.runs[run].status) {
      ElsewhereKeepsLatchOk(s, a, run);
    } else {
      var row, request := s.db.runs[run], Request(a.intent, a.asker);
      if row.intent.Some? && !Raises(row.intent.value, a.intent) {
        RequestRefused(row, Asked(s, run), request);
      } else {
        RequestRaises(row, Asked(s, run), request, s.now);
      }
    }
  }

  lemma ElsewhereKeepsLatchOk(s: State, a: Action, run: RunId)
    requires a.Control? && LatchOk(s, run)
    requires run != a.run || run !in s.db.runs || Terminal(s.db.runs[run].status)
    ensures LatchOk(Step(s, a), run)
  {
  }

  lemma StepKeepsLatchOk(s: State, a: Action, run: RunId)
    requires LatchOk(s, run)
    requires run in s.db.runs && s.db.runs[run].intent == None ==> Asked(s, run) == []
    ensures LatchOk(Step(s, a), run)
    ensures var s' := Step(s, a); run in s'.db.runs && s'.db.runs[run].intent == None ==> Asked(s', run) == []
  {
    if Enabled(s, a) {
      if a.Control? {
        ControlKeepsLatchOk(s, a, run);
      } else {
        OthersKeep(s, a, run);
      }
    }
  }

  /** THE LATCH IS A RUNNING MAXIMUM. While it is set, its intent is the highest requested since it was
      last clear, refused requests included, and its requester is the first of them. */
  lemma {:induction false} LatchIsRunningMaximum(history: seq<Action>, run: RunId)
    ensures LatchOk(After(history), run)
    ensures var s := After(history); run in s.db.runs && s.db.runs[run].intent == None ==> Asked(s, run) == []
  {
    if history != [] {
      LatchIsRunningMaximum(history[..|history| - 1], run);
      StepKeepsLatchOk(After(history[..|history| - 1]), history[|history| - 1], run);
    }
  }

  predicate WasAsked(asked: seq<Request>, intent: Intent) {
    exists i :: 0 <= i < |asked| && asked[i].intent == intent
  }

  lemma MaximumByName(row: Run, asked: seq<Request>)
    requires IsMaximum(row, asked) && row.intent.Some?
    ensures row.intent == Some(Abort) <==> WasAsked(asked, Abort)
    ensures row.intent == Some(Stop) <==> !WasAsked(asked, Abort) && WasAsked(asked, Stop)
    ensures row.intent == Some(Suspend) <==> !WasAsked(asked, Abort) && !WasAsked(asked, Stop)
  {
    var i :| 0 <= i < |asked| && asked[i].intent == row.intent.value;
  }

  /** BY NAME. While the latch is set it is an abort if and only if an abort was asked since it was last clear, a stop if
      and only if no abort but a stop was, and otherwise a suspend; and who is named as asking is who asked first. */
  lemma LatchNamesTheHighest(history: seq<Action>, run: RunId)
    requires run in After(history).db.runs && After(history).db.runs[run].intent.Some?
    ensures var s := After(history); var row, asked := s.db.runs[run], Asked(s, run);
            && (row.intent == Some(Abort) <==> WasAsked(asked, Abort))
            && (row.intent == Some(Stop) <==> !WasAsked(asked, Abort) && WasAsked(asked, Stop))
            && (row.intent == Some(Suspend) <==> !WasAsked(asked, Abort) && !WasAsked(asked, Stop))
            && asked != [] && row.requestedBy == asked[0].asker && row.requestedAt.Some?
  {
    LatchIsRunningMaximum(history, run);
    MaximumByName(After(history).db.runs[run], Asked(After(history), run));
  }

  /** And a request is among those asked exactly if its run was live when it came. */
  lemma RequestIsAsked(s: State, a: Action, run: RunId)
    requires a.Control? && a.run == run && run in Step(s, a).db.runs && Step(s, a).db.runs[run].intent.Some?
    ensures Asked(Step(s, a), run) ==
              Asked(s, run) + if run in s.db.runs && s.db.runs[run].status in {Queued, Running, Waiting} then [Request(a.intent, a.asker)] else []
  {
  }

  /** The control sequence moves by one on every latch write, and on nothing else. */
  lemma ControlSeqCountsLatchWrites(s: State, a: Action, run: RunId)
    requires run in s.db.runs
    ensures var s' := Step(s, a);
            && run in s'.db.runs
            && s'.db.runs[run].controlSeq == s.db.runs[run].controlSeq
                 + (if a.Control? && a.run == run
                       && (var answer := ControlRun(s.db, run, a.intent, a.asker, s.now).1; answer == SettledNow || answer == LatchedOnly)
                    then 1 else 0)
  {
    if Enabled(s, a) && !a.Control? {
      OthersKeep(s, a, run);
    }
  }

  /** THE CLAIM PATH SPARES A HELD RUN'S LATCH. A claim clears a set latch exactly when it withholds a
      pending task of that run, the run is queued or waiting, and no live lease of the run exists. */
  lemma ClaimClearsLatchIff(db: Db, t: TaskId, worker: WorkerId, ttl: nat, at: Time, lease: LeaseId, token: Token, run: RunId)
    requires Latched(db, run)
    ensures var after := ClaimTask(db, t, worker, ttl, at, lease, token).0;
            && run in after.runs
            && (!Latched(after, run) <==>
                  && t in db.tasks && db.tasks[t].runId == run && db.tasks[t].status == Pending
                  && db.tasks[t].attempt < MAX_CLAIMS
                  && db.runs[run].status in {Queued, Waiting}
                  && !HasLiveHolder(db, run, at))
  {
    if t in db.tasks && IsPending(db, t) {
      var killed := KillPending(db, t);
      if HasLiveHolder(db, run, at) {
        var u :| u in db.tasks && IsLiveHolder(db.tasks[u], run, at);
        assert killed.tasks[u] == db.tasks[u];
      }
      if HasLiveHolder(killed, run, at) {
        var u :| u in killed.tasks && IsLiveHolder(killed.tasks[u], run, at);
        assert killed.tasks[u] == db.tasks[u];
      }
    }
  }
}
