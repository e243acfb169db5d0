/** Fencing, recoverability and the claim budget, for every schedule of the lease protocol. */
module LeaseTheorems {
  import opened Tables
  import opened LeaseProtocol
  import opened LeaseSafety
  import opened LeaseSteps

  // ---- the invariant holds after every schedule ----

  /** Where the next process gets a lease it takes or drops. */
  lemma NextOwns(s: State, p: Process, choice: Choice)
    requires ProcOk(s, p)
    ensures var q := Next(s.db, s.now, p, choice).1;
            && (q.Take? ==> p.Mint? && q.lease == choice.lease)
            && (q.Drop? ==> (p.Take? && q.lease == p.lease) || q.lease in s.putOn)
  {
  }

  /** A lease just drawn is nobody's, and one a process may take is not put on a task. */
  lemma MovedIsExclusive(s: State, pid: Pid, choice: Choice, q: Process, other: Pid)
    requires Inv(s) && Enabled(s, Advance(pid, choice)) && q == Next(s.db, s.now, s.procs[pid], choice).1
    requires other in s.procs && other != pid
    ensures q.Take? && (s.procs[other].Take? || s.procs[other].Drop?) ==> q.lease != s.procs[other].lease
    ensures s.procs[other].Take? && (q.Take? || q.Drop?) ==> s.procs[other].lease != q.lease
  {
    NextOwns(s, s.procs[pid], choice);
    assert ProcOk(s, s.procs[other]);
  }

  lemma AdvanceIsExclusive(s: State, pid: Pid, choice: Choice, s': State)
    requires Inv(s) && Enabled(s, Advance(pid, choice)) && s' == AdvanceProcess(s, pid, choice)
    ensures Exclusive(s'.procs)
  {
    forall p, q | p in s'.procs && q in s'.procs && p != q && s'.procs[p].Take? && (s'.procs[q].Take? || s'.procs[q].Drop?)
      ensures s'.procs[p].lease != s'.procs[q].lease
    {
      if p == pid {
        MovedIsExclusive(s, pid, choice, s'.procs[pid], q);
      } else if q == pid {
        MovedIsExclusive(s, pid, choice, s'.procs[pid], p);
      }
    }
  }

  lemma ObservedStays(s: State, s': State, mine: set<LeaseId>)
    requires HistoryOk(s) && TasksOk(s') && NamesBack(s'.db) && Guarantee(s, s', mine)
    requires s'.history == Observe(s.history, s.db.tasks, s'.db.tasks)
    ensures HistoryOk(s')
  {
    forall t
      ensures HistoryOf(s'.putOn, RowAt(s'.db.tasks, t), t, Past(s'.history, t))
    {
      ObservedRowStays(s, s', mine, t);
    }
  }

  lemma ObservedRowStays(s: State, s': State, mine: set<LeaseId>, t: TaskId)
    requires HistoryOk(s) && TasksOk(s') && NamesBack(s'.db) && Guarantee(s, s', mine)
    requires s'.history == Observe(s.history, s.db.tasks, s'.db.tasks)
    ensures HistoryOf(s'.putOn, RowAt(s'.db.tasks, t), t, Past(s'.history, t))
  {
    var before, after := RowAt(s.db.tasks, t), RowAt(s'.db.tasks, t);
    ObservePast(s.history, s.db.tasks, s'.db.tasks, t);
    assert HistoryOf(s.putOn, before, t, Past(s.history, t));
    if Holds(after) {
      HeldIsOn(s, s', mine, t);
    }
    HistoryStays(s.putOn, s'.putOn, before, after, t, Past(s.history, t));
  }

  /** A row held after a step is held under a lease put on it: its own from before, or one new to it. */
  lemma HeldIsOn(s: State, s': State, mine: set<LeaseId>, t: TaskId)
    requires TasksOk(s') && NamesBack(s'.db) && Guarantee(s, s', mine) && Holds(RowAt(s'.db.tasks, t))
    ensures var before, after := RowAt(s.db.tasks, t), s'.db.tasks[t];
            && OnTask(s'.putOn, after.leaseId, t)
            && (if after.leaseId.value in s.putOn then Holds(before) && before.value.leaseId == after.leaseId else !Holds(before))
  {
    assert NamedBack(s'.db, t);
  }

  lemma AdvanceKeepsInv(s: State, pid: Pid, choice: Choice, s': State)
    requires Inv(s) && Enabled(s, Advance(pid, choice)) && s' == AdvanceProcess(s, pid, choice)
    ensures Inv(s')
  {
    AdvanceTables(s, pid, choice, s');
    AdvanceRemembers(s, pid, choice, s');
    AdvanceIsExclusive(s, pid, choice, s');
    ObservedStays(s, s', Mine(s.procs[pid]));
    forall q | q in s'.procs
      ensures ProcOk(s', s'.procs[q])
    {
      if q != pid {
        ProcStays(s, s', Mine(s.procs[pid]), s.procs[q]);
      }
    }
  }

  /** A step of the environment settles rows, adds a newborn row, or moves no row. */
  lemma SettlingKeepsInv(s: State, s': State)
    requires Inv(s) && Settles(s, s', {}) && s'.procs == s.procs
    requires s'.history == Observe(s.history, s.db.tasks, s'.db.tasks)
    ensures Inv(s')
  {
    SettlesKeepsTables(s, s', {});
    SettlesGuarantees(s, s', {});
    ObservedStays(s, s', {});
    forall q | q in s.procs
      ensures ProcOk(s', s.procs[q])
    {
      ProcStays(s, s', {}, s.procs[q]);
    }
  }

  lemma NewbornTables(s: State, t: TaskId, row: Task, s': State)
    requires TablesOk(s) && t !in s.used && Newborn(row) && s' == Do(s, Enqueue(t, row))
    ensures TablesOk(s')
  {
    forall u | u in s'.db.tasks && s'.db.tasks[u].status == Leased
      ensures NamedBack(s'.db, u)
    {
      assert NamedBack(s.db, u);
    }
  }

  lemma NewbornGuarantees(s: State, t: TaskId, row: Task, s': State)
    requires TablesOk(s) && t !in s.used && Newborn(row) && s' == Do(s, Enqueue(t, row))
    ensures Guarantee(s, s', {})
  {
    forall u | u in s.db.tasks && s.db.tasks[u].status == Leased
      ensures NamedBack(s.db, u)
    {
    }
  }

  lemma EnqueueKeepsInv(s: State, t: TaskId, row: Task, s': State)
    requires Inv(s) && t !in s.used && Newborn(row) && s' == Do(s, Enqueue(t, row))
    ensures Inv(s')
  {
    NewbornTables(s, t, row, s');
    NewbornGuarantees(s, t, row, s');
    ObservedStays(s, s', {});
    forall q | q in s.procs
      ensures ProcOk(s', s.procs[q])
    {
      ProcStays(s, s', {}, s.procs[q]);
    }
  }

  lemma SpawnKeepsInv(s: State, pid: Pid, p: Process)
    requires Inv(s) && pid !in s.procs && ProcOk(s, p) && !p.Take? && !p.Drop?
    ensures Inv(Spawn(s, pid, p))
  {
    var s' := Spawn(s, pid, p);
    forall q | q in s'.procs
      ensures ProcOk(s', s'.procs[q])
    {
      SameViewSameProc(s, s', s'.procs[q]);
    }
  }

  lemma SameViewSameProc(s: State, s': State, p: Process)
    requires ProcOk(s, p)
    requires s'.db.tasks == s.db.tasks && s'.db.leases == s.db.leases && s'.minted == s.minted && s'.putOn == s.putOn && s'.used == s.used
    ensures ProcOk(s', p)
  {
  }

  lemma CallKeepsInv(s: State, a: Action)
    requires Inv(s) && Enabled(s, a)
    requires a.CallScan? || a.CallClaim? || a.CallBeat? || a.CallSettle? || a.CallSweep?
    ensures Inv(Do(s, a))
  {
    match a
    case CallScan(pid, w, ttl) => SpawnKeepsInv(s, pid, ScanStamped(w, ttl, s.now));
    case CallClaim(pid, t, w, ttl) => SpawnKeepsInv(s, pid, RowRead(t, s.db.tasks[t], w, ttl));
    case CallBeat(pid, lease, ttl) => SpawnKeepsInv(s, pid, BeatRead(lease, s.minted[lease], ttl));
    case CallSettle(pid, verdict, t, token) => SpawnKeepsInv(s, pid, SettleRead(verdict, t, token));
    case CallSweep(pid) => SpawnKeepsInv(s, pid, SweepStamp);
  }

  lemma QuietKeepsInv(s: State, a: Action)
    requires Inv(s) && Enabled(s, a) && (a.Tick? || a.WriteRun? || a.Crash?)
    ensures Inv(Do(s, a))
  {
    var s' := Do(s, a);
    forall q | q in s'.procs
      ensures ProcOk(s', s'.procs[q])
    {
      SameViewSameProc(s, s', s.procs[q]);
    }
  }

  lemma PruneSettles(s: State, t: TaskId)
    requires t in s.db.tasks && s.granted <= s.putOn.Keys
    ensures Settles(s, Do(s, Prune(t)), {})
  {
    var pruned := Do(s, Prune(t)).db;
    assert pruned.leases == s.db.leases;
    assert forall u :: u in pruned.tasks ==> u in s.db.tasks && pruned.tasks[u] == s.db.tasks[u];
  }

  lemma PruneKeepsInv(s: State, t: TaskId)
    requires Inv(s) && t in s.db.tasks
    ensures Inv(Do(s, Prune(t)))
  {
    PruneSettles(s, t);
    SettlingKeepsInv(s, Do(s, Prune(t)));
  }

  lemma WithholdKeepsInv(s: State, t: TaskId)
    requires Inv(s)
    ensures Inv(Do(s, WithholdPending(t)))
  {
    KillSettles(s.db, t, s.putOn);
    SettlingKeepsInv(s, Do(s, WithholdPending(t)));
  }

  lemma TaskWriteKeepsInv(s: State, a: Action)
    requires Inv(s) && Enabled(s, a) && (a.Enqueue? || a.Prune? || a.WithholdPending?)
    ensures Inv(Do(s, a))
  {
    match a
    case Enqueue(t, row) => EnqueueKeepsInv(s, t, row, Do(s, a));
    case Prune(t) => PruneKeepsInv(s, t);
    case WithholdPending(t) => WithholdKeepsInv(s, t);
  }

  lemma StepKeepsInv(s: State, a: Action)
    requires Inv(s)
    ensures Inv(Step(s, a))
  {
    if Enabled(s, a) {
      if a.Advance? {
        AdvanceKeepsInv(s, a.pid, a.choice, Do(s, a));
      } else if a.Enqueue? || a.Prune? || a.WithholdPending? {
        TaskWriteKeepsInv(s, a);
      } else if a.Tick? || a.WriteRun? || a.Crash? {
        QuietKeepsInv(s, a);
      } else {
        CallKeepsInv(s, a);
      }
    }
  }

  /** Every reachable state satisfies the invariant. */
  lemma {:induction false} AlwaysInv(schedule: seq<Action>)
    ensures Inv(After(schedule))
  {
    if schedule != [] {
      AlwaysInv(schedule[..|schedule| - 1]);
      StepKeepsInv(After(schedule[..|schedule| - 1]), schedule[|schedule| - 1]);
    }
  }
}
