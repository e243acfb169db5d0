/** A sweep that runs undisturbed recovers every abandoned task; and each store method, run undisturbed,
    is its process of the lease protocol run to its end. */
module LeaseRecovery {
  import opened Options
  import opened Tables
  import opened StorageOps
  import opened StoreSpec
  import P = LeaseProtocol
  import LeaseSafety
  import LeaseBudget

  // ---- one undisturbed sweep ----

  /** A sweep drops only lease rows it found, and alters none. */
  lemma {:induction false} ReapKeepsLeases(db: Db, found: seq<(LeaseId, TaskId)>, at: Time, l: LeaseId)
    requires l in db.leases && (forall i :: 0 <= i < |found| ==> found[i].0 != l)
    ensures var swept := Reap(db, found, at); l in swept.leases && swept.leases[l] == db.leases[l]
    decreases |found|
  {
    if found != [] {
      var next := ReapOne(db, found[0].0, found[0].1, at);
      assert l in next.leases && next.leases[l] == db.leases[l];
      ReapKeepsLeases(next, found[1..], at, l);
    }
  }

  lemma {:induction false} ReapKeepsKeys(db: Db, found: seq<(LeaseId, TaskId)>, at: Time)
    ensures Reap(db, found, at).tasks.Keys == db.tasks.Keys
    decreases |found|
  {
    if found != [] {
      var next := ReapOne(db, found[0].0, found[0].1, at);
      assert next.tasks.Keys == db.tasks.Keys;
      ReapKeepsKeys(next, found[1..], at);
    }
  }

  /** Leased under a lease that is there, names the task back and outlives `at`. */
  predicate Secure(db: Db, t: TaskId, at: Time)
    requires t in db.tasks
  {
    LeaseSafety.NamedBack(db, t) && db.leases[db.tasks[t].leaseId.value].expiresAt > at
  }

  /** The row after recovery: lapsed if it was held under an expired lease, else as it was. */
  function RecoveredRow(db: Db, t: TaskId, at: Time): Task
    requires t in db.tasks
  {
    if db.tasks[t].status == Leased && !Secure(db, t, at) then Lapsing(db.tasks[t], at) else db.tasks[t]
  }

  lemma SweptIsSecure(db: Db, found: seq<(LeaseId, TaskId)>, at: Time, t: TaskId)
    requires LeaseSafety.NamesBack(db) && ListsExpired(db, found, at)
    requires t in db.tasks && t in Reap(db, found, at).tasks && Reap(db, found, at).tasks[t].status == Leased
    ensures Secure(Reap(db, found, at), t, at)
  {
    ReapRows(db, found, at, t);
    ReapKeepsLeases(db, found, at, db.tasks[t].leaseId.value);
  }

  /** CRASH RECOVERY. In every state the protocol reaches, whatever crashed on the way there, one
      undisturbed sweep leaves no task leased under a lease expired at its timestamp; each task it
      moves is one whose lease had expired. */
  lemma SweepRecovers(schedule: seq<P.Action>, found: seq<(LeaseId, TaskId)>)
    requires ListsExpired(P.After(schedule).db, found, P.After(schedule).now)
    ensures var s := P.After(schedule); var swept := Reap(s.db, found, s.now);
            && swept.tasks.Keys == s.db.tasks.Keys
            && (forall t :: t in swept.tasks && swept.tasks[t].status == Leased ==> Secure(swept, t, s.now))
            && (forall t :: t in swept.tasks ==> swept.tasks[t] == RecoveredRow(s.db, t, s.now))
  {
    var s := P.After(schedule);
    LeaseBudget.NoOrphans(schedule);
    ReapKeepsKeys(s.db, found, s.now);
    forall t | t in s.db.tasks
      ensures Reap(s.db, found, s.now).tasks[t] == RecoveredRow(s.db, t, s.now)
      ensures Reap(s.db, found, s.now).tasks[t].status == Leased ==> Secure(Reap(s.db, found, s.now), t, s.now)
    {
      RecoversRow(s.db, found, s.now, t);
    }
  }

  lemma RecoversRow(db: Db, found: seq<(LeaseId, TaskId)>, at: Time, t: TaskId)
    requires LeaseSafety.NamesBack(db) && ListsExpired(db, found, at) && t in db.tasks
    ensures t in Reap(db, found, at).tasks
    ensures Reap(db, found, at).tasks[t] == RecoveredRow(db, t, at)
    ensures Reap(db, found, at).tasks[t].status == Leased ==> Secure(Reap(db, found, at), t, at)
  {
    ReapRows(db, found, at, t);
    if Reap(db, found, at).tasks[t].status == Leased {
      SweptIsSecure(db, found, at, t);
    }
    if db.tasks[t].status == Leased {
      var l := db.tasks[t].leaseId.value;
      if (l, t) in found {
        var i :| 0 <= i < |found| && found[i] == (l, t);
      }
    }
  }

  // ---- a process nobody disturbs ----

  /** `steps` storage operations of one process with nothing between them. */
  ghost function Alone(db: Db, now: Time, p: P.Process, choice: P.Choice, steps: nat): (Db, P.Process)
    decreases steps
  {
    if steps == 0 then (db, p)
    else
      var (next, q) := P.Next(db, now, p, choice);
      Alone(next, now, q, choice, steps - 1)
  }

  lemma {:induction false} Resting(db: Db, now: Time, p: P.Process, choice: P.Choice, steps: nat)
    requires p.Finished? || p.Claimed?
    ensures Alone(db, now, p, choice, steps) == (db, p)
  {
    if steps > 0 {
      Resting(db, now, p, choice, steps - 1);
    }
  }

  /** One step, when it is known what that step does. */
  lemma Onward(db: Db, now: Time, p: P.Process, choice: P.Choice, steps: nat, next: Db, q: P.Process)
    requires steps > 0 && P.Next(db, now, p, choice) == (next, q)
    ensures Alone(db, now, p, choice, steps) == Alone(next, now, q, choice, steps - 1)
  {
  }

  lemma WithheldAlone(db: Db, now: Time, c: P.Claim, stops: bool, choice: P.Choice, steps: nat)
    requires Latched(db, c.candidate.runId) && stops == (db.runs[c.candidate.runId].intent != Some(Suspend)) && c.at == now
    requires steps >= 4
    ensures Alone(db, now, P.Withhold(c, stops), choice, steps) == (WithholdLatched(db, c.taskId, c.candidate.runId, now), P.Finished)
  {
    var killed, run := KillPending(db, c.taskId), c.candidate.runId;
    if !IsPending(db, c.taskId) {
      Resting(killed, now, P.Finished, choice, steps - 1);
    } else {
      assert Alone(db, now, P.Withhold(c, stops), choice, steps) == Alone(killed, now, P.AskHolders(c, stops), choice, steps - 1);
      if HasLiveHolder(killed, run, now) {
        Resting(killed, now, P.Finished, choice, steps - 2);
      } else {
        assert Alone(killed, now, P.AskHolders(c, stops), choice, steps - 1) == Alone(killed, now, P.Settle(c, stops), choice, steps - 2);
        SettledAlone(killed, now, c, stops, choice, steps - 2);
      }
    }
  }

  lemma SettledAlone(db: Db, now: Time, c: P.Claim, stops: bool, choice: P.Choice, steps: nat)
    requires steps >= 2
    ensures Alone(db, now, P.Settle(c, stops), choice, steps) ==
              (if RunIsIn(db, c.candidate.runId, {Queued, Waiting})
               then AppendEvent(SettleLatched(db, c.candidate.runId, stops), c.candidate.runId, if stops then RunCancelled else RunSuspended)
               else db, P.Finished)
  {
    var settled, run := SettleLatched(db, c.candidate.runId, stops), c.candidate.runId;
    if RunIsIn(db, run, {Queued, Waiting}) {
      var noted := AppendEvent(settled, run, if stops then RunCancelled else RunSuspended);
      assert Alone(settled, now, P.NoteSettled(run, stops), choice, steps - 1) == Alone(noted, now, P.Finished, choice, steps - 2);
      Resting(noted, now, P.Finished, choice, steps - 2);
    } else {
      Resting(db, now, P.Finished, choice, steps - 1);
    }
  }

  lemma DroppedAlone(db: Db, now: Time, l: LeaseId, choice: P.Choice, steps: nat)
    requires steps >= 1
    ensures Alone(db, now, P.Drop(l), choice, steps) == (DropLease(db, l), P.Finished)
  {
    Resting(DropLease(db, l), now, P.Finished, choice, steps - 1);
  }

  lemma StartedAlone(db: Db, now: Time, c: P.Claim, choice: P.Choice, steps: nat)
    requires steps >= 3
    ensures Alone(db, now, P.StartRun(c, choice.lease, choice.token), choice, steps) ==
              if RunIsIn(db, c.candidate.runId, NON_TERMINAL)
              then (SetStatusIf(db, c.candidate.runId, NON_TERMINAL, Running), P.Claimed(choice.lease))
              else (DropLease(RetireTaken(db, c.taskId, choice.lease), choice.lease), P.Finished)
  {
    if RunIsIn(db, c.candidate.runId, NON_TERMINAL) {
      Resting(SetStatusIf(db, c.candidate.runId, NON_TERMINAL, Running), now, P.Claimed(choice.lease), choice, steps - 1);
    } else {
      var retired := RetireTaken(db, c.taskId, choice.lease);
      Onward(db, now, P.StartRun(c, choice.lease, choice.token), choice, steps, db, P.Retire(c, choice.lease));
      Onward(db, now, P.Retire(c, choice.lease), choice, steps - 1, retired, P.Drop(choice.lease));
      DroppedAlone(retired, now, choice.lease, choice, steps - 2);
    }
  }

  lemma TakingAlone(db: Db, now: Time, c: P.Claim, choice: P.Choice, steps: nat)
    requires c.at == now && steps >= 4
    ensures var taken := TakeTask(db, c.taskId, c.candidate.attempt, choice.lease, c.worker, now + c.ttl, now);
            Alone(db, now, P.Take(c, choice.lease, choice.token), choice, steps) ==
              if !CanTake(db, c.taskId, now) then (DropLease(taken, choice.lease), P.Finished)
              else if RunIsIn(taken, c.candidate.runId, NON_TERMINAL)
              then (SetStatusIf(taken, c.candidate.runId, NON_TERMINAL, Running), P.Claimed(choice.lease))
              else (DropLease(RetireTaken(taken, c.taskId, choice.lease), choice.lease), P.Finished)
  {
    var taken := TakeTask(db, c.taskId, c.candidate.attempt, choice.lease, c.worker, now + c.ttl, now);
    var q := if CanTake(db, c.taskId, now) then P.StartRun(c, choice.lease, choice.token) else P.Drop(choice.lease);
    Onward(db, now, P.Take(c, choice.lease, choice.token), choice, steps, taken, q);
    if CanTake(db, c.taskId, now) {
      StartedAlone(taken, now, c, choice, steps - 1);
    } else {
      DroppedAlone(taken, now, choice.lease, choice, steps - 1);
    }
  }

  lemma TakenAlone(db: Db, now: Time, c: P.Claim, choice: P.Choice, steps: nat)
    requires c.at == now && steps >= 5
    ensures var (after, p) := Alone(db, now, P.Mint(c), choice, steps);
            && (after, p.Claimed?) == TakeAndStart(db, c.taskId, c.candidate, c.worker, c.ttl, now, choice.lease, choice.token)
            && (if p.Claimed? then p.lease == choice.lease else p.Finished?)
  {
    var minted := InsertLease(db, choice.lease, Lease(c.taskId, c.worker, Digest(choice.token), now + c.ttl, now));
    Onward(db, now, P.Mint(c), choice, steps, minted, P.Take(c, choice.lease, choice.token));
    TakingAlone(minted, now, c, choice, steps - 1);
    assert CanTake(minted, c.taskId, now) == CanTake(db, c.taskId, now);
    var (after, p) := Alone(minted, now, P.Take(c, choice.lease, choice.token), choice, steps - 1);
    assert (after, p.Claimed?) == TakeAndStart(db, c.taskId, c.candidate, c.worker, c.ttl, now, choice.lease, choice.token);
  }

  /** A claim run undisturbed is the claim method. */
  lemma ClaimAlone(db: Db, now: Time, t: TaskId, worker: WorkerId, ttl: nat, choice: P.Choice, steps: nat)
    requires t in db.tasks && steps >= 7
    ensures var (after, p) := Alone(db, now, P.RowRead(t, db.tasks[t], worker, ttl), choice, steps);
            && (after, p.Claimed?) == ClaimTask(db, t, worker, ttl, now, choice.lease, choice.token)
            && (if p.Claimed? then p.lease == choice.lease else p.Finished?)
  {
    var row := db.tasks[t];
    var c := P.Claim(t, row, worker, ttl, now);
    assert Alone(db, now, P.RowRead(t, row, worker, ttl), choice, steps) == Alone(db, now, P.Attempt(c), choice, steps - 1);
    var (next, p) := P.Next(db, now, P.Attempt(c), choice);
    assert Alone(db, now, P.Attempt(c), choice, steps - 1) == Alone(next, now, p, choice, steps - 2);
    if row.attempt >= MAX_CLAIMS {
      var ended := SetStatusIf(next, row.runId, {Queued}, Failed);
      Resting(ended, now, P.Finished, choice, steps - 3);
    } else if Latched(db, row.runId) {
      WithheldAlone(db, now, c, p.stops, choice, steps - 2);
    } else {
      TakenAlone(db, now, c, choice, steps - 2);
    }
  }

  lemma BeatTaskAlone(db: Db, now: Time, l: LeaseId, row: Lease, expires: Time, choice: P.Choice, steps: nat)
    requires steps >= 2
    ensures Alone(db, now, P.BeatTask(l, row, expires), choice, steps) ==
              (if StillHeld(db, l, row) then ExtendTask(db, l, row, expires) else DropLease(db, l), P.Finished)
  {
    if StillHeld(db, l, row) {
      Onward(db, now, P.BeatTask(l, row, expires), choice, steps, ExtendTask(db, l, row, expires), P.Finished);
      Resting(ExtendTask(db, l, row, expires), now, P.Finished, choice, steps - 1);
    } else {
      Onward(db, now, P.BeatTask(l, row, expires), choice, steps, db, P.Drop(l));
      DroppedAlone(db, now, l, choice, steps - 1);
    }
  }

  /** A heartbeat run undisturbed is the heartbeat method. */
  lemma BeatAlone(db: Db, now: Time, l: LeaseId, token: Token, ttl: nat, choice: P.Choice, steps: nat)
    requires steps >= 5
    ensures Alone(db, now, P.BeatRead(l, token, ttl), choice, steps) == (Heartbeat(db, l, token, ttl, now).0, P.Finished)
  {
    if CanRenew(db, l, token, now) {
      var row := db.leases[l];
      var renewed := RenewLease(db, l, token, now, now + ttl);
      Onward(db, now, P.BeatRead(l, token, ttl), choice, steps, db, P.BeatStamp(l, row, token, ttl));
      Onward(db, now, P.BeatStamp(l, row, token, ttl), choice, steps - 1, db, P.BeatRenew(l, row, token, ttl, now));
      Onward(db, now, P.BeatRenew(l, row, token, ttl, now), choice, steps - 2, renewed, P.BeatTask(l, row, now + ttl));
      BeatTaskAlone(renewed, now, l, row, now + ttl, choice, steps - 3);
    } else {
      Onward(db, now, P.BeatRead(l, token, ttl), choice, steps, db, P.Finished);
      Resting(db, now, P.Finished, choice, steps - 1);
    }
  }

  lemma StampedAlone(db: Db, now: Time, verdict: P.Verdict, t: TaskId, token: Token, choice: P.Choice, steps: nat)
    requires steps >= 4 && t in db.tasks && Validates(db, t, db.tasks[t], token, now)
    ensures Alone(db, now, P.SettleCheck(verdict, t, token, db.tasks[t]), choice, steps) ==
              ((if verdict == P.Completes then Complete(db, t, token, now) else Fail(db, t, token, now)).0, P.Finished)
  {
    var row := db.tasks[t];
    var l := row.leaseId.value;
    Onward(db, now, P.SettleCheck(verdict, t, token, row), choice, steps, db, P.SettleStamp(verdict, t, token, row, l));
    Onward(db, now, P.SettleStamp(verdict, t, token, row, l), choice, steps - 1, db, P.SettleWrite(verdict, t, token, row, l, now));
    SettleWriteAlone(db, now, verdict, t, token, row, l, choice, steps - 2);
  }

  /** A settlement run undisturbed is the method that settles. */
  lemma SettleAlone(db: Db, now: Time, verdict: P.Verdict, t: TaskId, token: Token, choice: P.Choice, steps: nat)
    requires steps >= 5
    ensures Alone(db, now, P.SettleRead(verdict, t, token), choice, steps) ==
              ((if verdict == P.Completes then Complete(db, t, token, now) else Fail(db, t, token, now)).0, P.Finished)
  {
    if t in db.tasks {
      var row := db.tasks[t];
      Onward(db, now, P.SettleRead(verdict, t, token), choice, steps, db, P.SettleCheck(verdict, t, token, row));
      if Validates(db, t, row, token, now) {
        StampedAlone(db, now, verdict, t, token, choice, steps - 1);
      } else {
        Onward(db, now, P.SettleCheck(verdict, t, token, row), choice, steps - 1, db, P.Finished);
        Resting(db, now, P.Finished, choice, steps - 2);
      }
    } else {
      Onward(db, now, P.SettleRead(verdict, t, token), choice, steps, db, P.Finished);
      Resting(db, now, P.Finished, choice, steps - 1);
    }
  }

  lemma SettleWriteAlone(db: Db, now: Time, verdict: P.Verdict, t: TaskId, token: Token, row: Task, l: LeaseId, choice: P.Choice, steps: nat)
    requires steps >= 2 && t in db.tasks && row == db.tasks[t] && Validates(db, t, row, token, now) && l == row.leaseId.value
    ensures Alone(db, now, P.SettleWrite(verdict, t, token, row, l, now), choice, steps) ==
              ((if verdict == P.Completes then Complete(db, t, token, now) else Fail(db, t, token, now)).0, P.Finished)
  {
    var (next, p) := P.Next(db, now, P.SettleWrite(verdict, t, token, row, l, now), choice);
    if p.Drop? {
      DroppedAlone(next, now, l, choice, steps - 1);
    } else {
      Resting(next, now, P.Finished, choice, steps - 1);
    }
  }

  /** One lease swept, with the run write that may follow it. */
  lemma SweptAlone(db: Db, now: Time, at: Time, todo: seq<(LeaseId, TaskId)>, choice: P.Choice, steps: nat) returns (left: nat)
    requires todo != [] && steps >= 2
    ensures steps - 2 <= left < steps
    ensures Alone(db, now, P.SweepNext(at, todo), choice, steps) ==
              Alone(ReapOne(db, todo[0].0, todo[0].1, at), now, P.SweepNext(at, todo[1..]), choice, left)
  {
    var (l, t) := todo[0];
    var (swept, p) := P.Next(db, now, P.SweepNext(at, todo), choice);
    assert Alone(db, now, P.SweepNext(at, todo), choice, steps) == Alone(swept, now, p, choice, steps - 1);
    left := steps - 1;
    if SweepAbandons(db, l, t) {
      assert P.Next(swept, now, p, choice) == (ReapOne(db, l, t, at), P.SweepNext(at, todo[1..]));
      left := steps - 2;
    }
  }

  lemma {:induction false} SweepingAlone(db: Db, now: Time, at: Time, todo: seq<(LeaseId, TaskId)>, choice: P.Choice, steps: nat)
    requires steps > 2 * |todo|
    ensures Alone(db, now, P.SweepNext(at, todo), choice, steps) == (Reap(db, todo, at), P.Finished)
    decreases |todo|
  {
    if todo == [] {
      Resting(db, now, P.Finished, choice, steps - 1);
    } else {
      var left := SweptAlone(db, now, at, todo, choice, steps);
      SweepingAlone(ReapOne(db, todo[0].0, todo[0].1, at), now, at, todo[1..], choice, left);
    }
  }

  lemma {:induction false} ListedIsExpired(db: Db, ids: seq<LeaseId>, at: Time)
    ensures var found := P.Listed(db, ids, at);
            && |found| <= |ids|
            && (forall i :: 0 <= i < |found| ==> found[i].0 in db.leases && db.leases[found[i].0].expiresAt <= at && db.leases[found[i].0].taskId == found[i].1)
            && (forall l :: l in ids && l in db.leases && db.leases[l].expiresAt <= at ==> (l, db.leases[l].taskId) in found)
  {
    if ids != [] {
      ListedIsExpired(db, ids[1..], at);
    }
  }

  lemma ReadingAlone(db: Db, now: Time, choice: P.Choice, steps: nat)
    requires steps > 2 * |choice.expired| + 2
    ensures Alone(db, now, P.SweepStamp, choice, steps) == Alone(db, now, P.SweepNext(now, P.Listed(db, choice.expired, now)), choice, steps - 2)
  {
    Onward(db, now, P.SweepStamp, choice, steps, db, P.SweepRead(now));
    Onward(db, now, P.SweepRead(now), choice, steps - 1, db, P.SweepNext(now, P.Listed(db, choice.expired, now)));
  }

  /** A sweep run undisturbed is the sweep method over the expired leases its read returned; a read returns
      them all, in an order of its own. */
  lemma SweepAlone(db: Db, now: Time, choice: P.Choice, steps: nat)
    requires forall l :: l in db.leases && db.leases[l].expiresAt <= now ==> l in choice.expired
    requires steps > 2 * |choice.expired| + 2
    ensures var found := P.Listed(db, choice.expired, now);
            && ListsExpired(db, found, now)
            && Alone(db, now, P.SweepStamp, choice, steps) == (Reap(db, found, now), P.Finished)
  {
    var found := P.Listed(db, choice.expired, now);
    ListedIsExpired(db, choice.expired, now);
    ReadingAlone(db, now, choice, steps);
    SweepingAlone(db, now, now, found, choice, steps - 2);
  }
}
