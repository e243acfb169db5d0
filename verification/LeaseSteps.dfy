module LeaseSteps {
  import opened Options
  import opened Tables
  import opened StorageOps
  import opened LeaseProtocol
  import opened LeaseSafety

  function Mine(p: Process): set<LeaseId> {
    if p.Take? || p.Drop? then {p.lease} else {}
  }

  // ---- the four effects a step can have on tasks and leases ----

  /** A task goes from leased to pending or finished, and from pending to finished. */
  function Rank(status: TaskStatus): nat {
    match status
    case Leased => 2
    case Pending => 1
    case _ => 0
  }

  /** A row rewritten without changing hands: it stays under its lease, or is no longer leased. */
  predicate KeepsHands(row: Task, row': Task) {
    && (WithinBudget(row) ==> WithinBudget(row'))
    && (row'.leaseId == None || row'.leaseId == row.leaseId)
    && row'.attempt == row.attempt
    && (row'.errorAttempt == row.errorAttempt || (row.status == Leased && row'.status != Leased && row'.errorAttempt == row.errorAttempt + 1))
    && (row'.status != row.status ==> Rank(row'.status) < Rank(row.status))
    && (row.status == TaskStatus.Settled || row.status == Dead ==> row' == row)
    && (row'.status == Leased ==>
          && row.status == Leased
          && row'.leaseId == row.leaseId
          && row'.workerId == row.workerId
          && row'.errorAttempt == row.errorAttempt
          && row'.maxAttempts == row.maxAttempts)
  }

  /** Nothing but tasks and leases moved, in what the invariant reads. */
  predicate SameRest(s: State, s': State) {
    s'.minted == s.minted && s'.putOn == s.putOn && s'.granted <= s'.putOn.Keys && s'.used == s.used
  }

  /** Rows rewritten in place (or gone), lease rows renewed in place or dropped once dead. */
  ghost predicate DbSettles(db: Db, db': Db, putOn: map<LeaseId, TaskId>, mine: set<LeaseId>) {
    && (forall t :: t in db'.tasks ==> t in db.tasks && KeepsHands(db.tasks[t], db'.tasks[t]))
    && (forall l :: l in db'.leases ==> l in db.leases && SameKey(db.leases[l], db'.leases[l]))
    && (forall l :: l in db.leases && l !in db'.leases ==>
          && Unheld(db', l)
          && (l in putOn || l in mine || db.leases[l].taskId !in db'.tasks))
  }

  ghost predicate Settles(s: State, s': State, mine: set<LeaseId>) {
    SameRest(s, s') && DbSettles(s.db, s'.db, s.putOn, mine)
  }

  predicate SameKey(a: Lease, b: Lease) {
    a.taskId == b.taskId && a.workerId == b.workerId && a.tokenHash == b.tokenHash
  }

  lemma SettlesKeepsTables(s: State, s': State, mine: set<LeaseId>)
    requires TablesOk(s) && Settles(s, s', mine)
    ensures TablesOk(s')
  {
    forall t | t in s'.db.tasks && s'.db.tasks[t].status == Leased
      ensures NamedBack(s'.db, t)
    {
      assert KeepsHands(s.db.tasks[t], s'.db.tasks[t]);
      assert NamedBack(s.db, t);
      var l := s.db.tasks[t].leaseId.value;
      assert s'.db.tasks[t].HeldUnder(l);
    }
  }

  lemma SettlesGuarantees(s: State, s': State, mine: set<LeaseId>)
    requires TablesOk(s) && Settles(s, s', mine)
    ensures Guarantee(s, s', mine)
  {
    forall t | t in s'.db.tasks && s'.db.tasks[t].status == Leased && s'.db.tasks[t].leaseId.Some?
      ensures IsHeld(s.db, t, s'.db.tasks[t].leaseId.value)
    {
      assert KeepsHands(s.db.tasks[t], s'.db.tasks[t]);
    }
    assert RowsMove(s, s');
  }

  /** A lease row minted under a fresh id and token. */
  ghost predicate Mints(s: State, s': State, l: LeaseId, token: Token, row: Lease) {
    && l !in s.minted && token !in s.minted.Values
    && row.taskId in s.used && row.tokenHash == Digest(token)
    && s'.minted == s.minted[l := token]
    && s'.putOn == s.putOn && s'.granted == s.granted && s'.used == s.used
    && s'.db.tasks == s.db.tasks
    && s'.db.leases == s.db.leases[l := row]
  }

  lemma MintsKeepsTables(s: State, s': State, l: LeaseId, token: Token, row: Lease)
    requires TablesOk(s) && Mints(s, s', l, token, row)
    ensures TablesOk(s')
  {
    forall m | m in s.minted
      ensures s.minted[m] in s.minted.Values
    {
    }
    forall t | t in s.db.tasks && s.db.tasks[t].status == Leased
      ensures NamedBack(s'.db, t)
    {
      assert NamedBack(s.db, t);
    }
  }

  lemma MintsGuarantees(s: State, s': State, l: LeaseId, token: Token, row: Lease)
    requires TablesOk(s) && Mints(s, s', l, token, row)
    ensures Guarantee(s, s', {})
  {
    forall t | t in s.db.tasks && s.db.tasks[t].status == Leased
      ensures NamedBack(s.db, t)
    {
    }
  }

  /** A pending task put under a lease that was never on a task. */
  ghost predicate Opens(s: State, s': State, t: TaskId, l: LeaseId, row: Task) {
    && l in s.minted && l !in s.putOn && l in s.db.leases
    && s.db.leases[l].taskId == t && row.workerId == Some(s.db.leases[l].workerId)
    && t in s.db.tasks && s.db.tasks[t].status == Pending
    && row.HeldUnder(l) && WithinBudget(row)
    && s'.db.tasks == s.db.tasks[t := row] && s'.db.leases == s.db.leases
    && s'.putOn == s.putOn[l := t]
    && s'.minted == s.minted && s'.granted == s.granted && s'.used == s.used
  }

  lemma OpensKeepsTables(s: State, s': State, t: TaskId, l: LeaseId, row: Task)
    requires TablesOk(s) && Opens(s, s', t, l, row)
    ensures TablesOk(s')
  {
    forall u | u in s'.db.tasks && s'.db.tasks[u].status == Leased
      ensures NamedBack(s'.db, u)
    {
      assert u != t ==> NamedBack(s.db, u);
    }
  }

  lemma OpensGuarantees(s: State, s': State, t: TaskId, l: LeaseId, row: Task)
    requires TablesOk(s) && Opens(s, s', t, l, row)
    ensures Guarantee(s, s', {l})
  {
    forall u | u in s'.db.tasks && u != t && s'.db.tasks[u].status == Leased
      ensures NamedBack(s.db, u)
    {
    }
  }

  // ---- every process step has one of those effects ----

  lemma KillSettles(db: Db, t: TaskId, putOn: map<LeaseId, TaskId>)
    ensures DbSettles(db, KillPending(db, t), putOn, {})
  {
  }

  lemma RetireSettles(db: Db, t: TaskId, l: LeaseId, putOn: map<LeaseId, TaskId>)
    ensures DbSettles(db, RetireTaken(db, t, l), putOn, {})
  {
  }

  lemma ExtendSettles(db: Db, l: LeaseId, held: Lease, expires: Time, putOn: map<LeaseId, TaskId>)
    ensures DbSettles(db, ExtendTask(db, l, held, expires), putOn, {})
  {
  }

  lemma CompleteSettles(db: Db, t: TaskId, l: LeaseId, putOn: map<LeaseId, TaskId>)
    ensures DbSettles(db, CompleteHeld(db, t, l), putOn, {})
  {
  }

  lemma FailSettles(db: Db, t: TaskId, l: LeaseId, read: Task, at: Time, putOn: map<LeaseId, TaskId>)
    requires ErrorsAsRead(db, t, l, read)
    ensures DbSettles(db, FailHeld(db, t, l, read, at), putOn, {})
  {
  }

  lemma RenewSettles(db: Db, l: LeaseId, token: Token, at: Time, expires: Time, putOn: map<LeaseId, TaskId>)
    ensures DbSettles(db, RenewLease(db, l, token, at, expires), putOn, {})
  {
  }

  lemma DropSettles(db: Db, l: LeaseId, putOn: map<LeaseId, TaskId>)
    requires Unheld(db, l)
    ensures DbSettles(db, DropLease(db, l), putOn, {l})
  {
  }

  lemma SweptLeaseIsDead(s: State, l: LeaseId, t: TaskId)
    requires TablesOk(s) && l in s.minted && (l in s.db.leases ==> s.db.leases[l].taskId == t)
    requires t in s.db.tasks ==> s.db.tasks[t].HeldUnder(l)
    ensures forall u :: u in s.db.tasks && u != t ==> !s.db.tasks[u].HeldUnder(l)
  {
    forall u | u in s.db.tasks && u != t
      ensures !s.db.tasks[u].HeldUnder(l)
    {
      if s.db.tasks[u].HeldUnder(l) {
        assert false;
      }
    }
  }

  lemma SweepSettles(s: State, l: LeaseId, t: TaskId, at: Time)
    requires TablesOk(s) && ListOk(s, [(l, t)])
    ensures DbSettles(s.db, SweepLease(s.db, l, t, at), s.putOn, {})
  {
    assert [(l, t)][0] == (l, t);
    var db' := SweepLease(s.db, l, t, at);
    if t !in s.db.tasks || s.db.tasks[t].HeldUnder(l) {
      SweptLeaseIsDead(s, l, t);
      assert Unheld(db', l);
      assert l in s.db.leases ==> l in s.putOn || s.db.leases[l].taskId !in db'.tasks;
    }
    assert forall u :: u in db'.tasks ==> u in s.db.tasks && KeepsHands(s.db.tasks[u], db'.tasks[u]);
  }

  lemma RunWriteSettles(db: Db, db': Db, putOn: map<LeaseId, TaskId>)
    requires db'.tasks == db.tasks && db'.leases == db.leases
    ensures DbSettles(db, db', putOn, {})
  {
  }

  predicate Claiming(p: Process) {
    p.Attempt? || p.Withhold? || p.Retire?
  }

  predicate Holding(p: Process) {
    p.BeatRenew? || p.BeatTask? || p.SettleWrite?
  }

  lemma ClaimingSettles(db: Db, now: Time, p: Process, choice: Choice, putOn: map<LeaseId, TaskId>)
    requires Claiming(p)
    ensures DbSettles(db, Next(db, now, p, choice).0, putOn, {})
  {
    match p
    case Attempt(c) => KillSettles(db, c.taskId, putOn); RunWriteSettles(db, db, putOn);
    case Withhold(c, _) => KillSettles(db, c.taskId, putOn);
    case Retire(c, l) => RetireSettles(db, c.taskId, l, putOn);
  }

  lemma HoldingSettles(db: Db, now: Time, p: Process, choice: Choice, putOn: map<LeaseId, TaskId>)
    requires Holding(p) && (p.SettleWrite? ==> ErrorsAsRead(db, p.taskId, p.lease, p.row))
    ensures DbSettles(db, Next(db, now, p, choice).0, putOn, {})
  {
    match p
    case BeatRenew(l, _, token, ttl, at) => RenewSettles(db, l, token, at, at + ttl, putOn);
    case BeatTask(l, held, expires) => ExtendSettles(db, l, held, expires, putOn);
    case SettleWrite(Completes, t, _, _, l, _) => CompleteSettles(db, t, l, putOn);
    case SettleWrite(Fails, t, _, row, l, at) => FailSettles(db, t, l, row, at, putOn);
  }

  predicate Quiet(p: Process) {
    !Claiming(p) && !Holding(p) && !p.Drop? && !p.SweepNext? && !p.Mint? && !p.Take?
  }

  lemma QuietStep(db: Db, now: Time, p: Process, choice: Choice)
    requires Quiet(p)
    ensures var db' := Next(db, now, p, choice).0; db'.tasks == db.tasks && db'.leases == db.leases
  {
  }

  /** Each step but `Mint` and a `Take` that wins only settles rows and drops dead leases. */
  lemma NextSettles(s: State, p: Process, choice: Choice)
    requires TablesOk(s) && ProcOk(s, p)
    requires !p.Mint? && !(p.Take? && CanTake(s.db, p.claim.taskId, p.claim.at))
    ensures DbSettles(s.db, Next(s.db, s.now, p, choice).0, s.putOn, Mine(p))
  {
    if Claiming(p) {
      ClaimingSettles(s.db, s.now, p, choice, s.putOn);
    } else if Holding(p) {
      HoldingSettles(s.db, s.now, p, choice, s.putOn);
    } else if p.Drop? {
      DropSettles(s.db, p.lease, s.putOn);
    } else if p.SweepNext? && p.todo != [] {
      SweepSettles(s, p.todo[0].0, p.todo[0].1, p.at);
    } else if p.Take? || p.SweepNext? {
      RunWriteSettles(s.db, s.db, s.putOn);
    } else {
      QuietStep(s.db, s.now, p, choice);
      RunWriteSettles(s.db, Next(s.db, s.now, p, choice).0, s.putOn);
    }
  }

  // ---- the invariant is inductive ----

  lemma TakeOpens(s: State, pid: Pid, choice: Choice)
    requires TasksOk(s) && pid in s.procs && ProcOk(s, s.procs[pid])
    requires s.procs[pid].Take? && CanTake(s.db, s.procs[pid].claim.taskId, s.procs[pid].claim.at)
    ensures var p, s' := s.procs[pid], AdvanceProcess(s, pid, choice);
            p.claim.taskId in s'.db.tasks && Opens(s, s', p.claim.taskId, p.lease, s'.db.tasks[p.claim.taskId])
  {
    var p := s.procs[pid];
    var c := p.claim;
    TakenRow(s.db.tasks[c.taskId], c, p.lease);
    assert Next(s.db, s.now, p, choice).0 == PutTask(s.db, c.taskId, TakingRow(s.db.tasks[c.taskId], c, p.lease));
  }

  function TakingRow(row: Task, c: Claim, lease: LeaseId): Task {
    row.(status := Leased, leaseId := Some(lease), workerId := Some(c.worker), leasedUntil := Some(c.at + c.ttl), attempt := c.candidate.attempt + 1)
  }

  lemma TakenRow(row: Task, c: Claim, lease: LeaseId)
    requires WithinBudget(row) && row.status == Pending && c.candidate.attempt < MAX_CLAIMS
    ensures var taken := TakingRow(row, c, lease); taken.HeldUnder(lease) && WithinBudget(taken)
  {
  }

  function MintedRow(c: Claim, token: Token): Lease {
    Lease(c.taskId, c.worker, Digest(token), c.at + c.ttl, c.at)
  }

  lemma MintStepMints(s: State, pid: Pid, choice: Choice)
    requires Enabled(s, Advance(pid, choice)) && ProcOk(s, s.procs[pid]) && s.procs[pid].Mint?
    ensures Mints(s, AdvanceProcess(s, pid, choice), choice.lease, choice.token, MintedRow(s.procs[pid].claim, choice.token))
  {
  }

  lemma MintTables(s: State, pid: Pid, choice: Choice)
    requires TablesOk(s) && Enabled(s, Advance(pid, choice)) && ProcOk(s, s.procs[pid]) && s.procs[pid].Mint?
    ensures var s' := AdvanceProcess(s, pid, choice); TablesOk(s') && Guarantee(s, s', {})
  {
    var s' := AdvanceProcess(s, pid, choice);
    var row := MintedRow(s.procs[pid].claim, choice.token);
    MintStepMints(s, pid, choice);
    MintsKeepsTables(s, s', choice.lease, choice.token, row);
    MintsGuarantees(s, s', choice.lease, choice.token, row);
  }

  lemma TakeTables(s: State, pid: Pid, choice: Choice)
    requires TablesOk(s) && pid in s.procs && ProcOk(s, s.procs[pid])
    requires s.procs[pid].Take? && CanTake(s.db, s.procs[pid].claim.taskId, s.procs[pid].claim.at)
    ensures var s' := AdvanceProcess(s, pid, choice); TablesOk(s') && Guarantee(s, s', {s.procs[pid].lease})
  {
    var p, s' := s.procs[pid], AdvanceProcess(s, pid, choice);
    TakeOpens(s, pid, choice);
    OpensKeepsTables(s, s', p.claim.taskId, p.lease, s'.db.tasks[p.claim.taskId]);
    OpensGuarantees(s, s', p.claim.taskId, p.lease, s'.db.tasks[p.claim.taskId]);
  }

  lemma GrantIsOn(s: State, p: Process, choice: Choice)
    requires ProcOk(s, p) && MintOk(s)
    ensures var q := Next(s.db, s.now, p, choice).1; q.Claimed? ==> q.lease in s.putOn
  {
  }

  lemma SettleTables(s: State, pid: Pid, choice: Choice)
    requires TablesOk(s) && pid in s.procs && ProcOk(s, s.procs[pid])
    requires !s.procs[pid].Mint? && !(s.procs[pid].Take? && CanTake(s.db, s.procs[pid].claim.taskId, s.procs[pid].claim.at))
    ensures var s' := AdvanceProcess(s, pid, choice); TablesOk(s') && Guarantee(s, s', Mine(s.procs[pid]))
  {
    var p, s' := s.procs[pid], AdvanceProcess(s, pid, choice);
    NextSettles(s, p, choice);
    GrantIsOn(s, p, choice);
    assert SameRest(s, s');
    SettlesKeepsTables(s, s', Mine(p));
    SettlesGuarantees(s, s', Mine(p));
  }

  lemma AdvanceTables(s: State, pid: Pid, choice: Choice, s': State)
    requires TablesOk(s) && Enabled(s, Advance(pid, choice)) && ProcOk(s, s.procs[pid])
    requires s' == AdvanceProcess(s, pid, choice)
    ensures TablesOk(s') && Guarantee(s, s', Mine(s.procs[pid]))
  {
    var p := s.procs[pid];
    if p.Mint? {
      MintTables(s, pid, choice);
    } else if p.Take? && CanTake(s.db, p.claim.taskId, p.claim.at) {
      TakeTables(s, pid, choice);
    } else {
      SettleTables(s, pid, choice);
    }
  }

  // What the moving process remembers next is true.

  lemma ClaimRemembers(s: State, s': State, p: Process, choice: Choice)
    requires TablesOk(s) && ProcOk(s, p)
    requires p.ScanStamped? || p.RowRead? || p.Attempt? || p.Withhold? || p.AskHolders? || p.Settle? || p.StartRun? || p.FailExhausted? || p.NoteSettled?
    requires s'.db == Next(s.db, s.now, p, choice).0 && SameRest(s, s')
    ensures ProcOk(s', Next(s.db, s.now, p, choice).1)
  {
  }

  lemma MintRemembers(s: State, s': State, p: Process, choice: Choice)
    requires TablesOk(s) && ProcOk(s, p) && Fresh(s, choice) && p.Mint?
    requires s'.db == Next(s.db, s.now, p, choice).0 && s'.minted == s.minted[choice.lease := choice.token]
    requires s'.putOn == s.putOn && s'.used == s.used
    ensures ProcOk(s', Next(s.db, s.now, p, choice).1)
  {
  }

  lemma TakeRemembers(s: State, s': State, p: Process, choice: Choice)
    requires TablesOk(s) && ProcOk(s, p) && p.Take?
    requires s'.db == Next(s.db, s.now, p, choice).0 && s'.minted == s.minted
    requires s'.putOn == if CanTake(s.db, p.claim.taskId, p.claim.at) then s.putOn[p.lease := p.claim.taskId] else s.putOn
    ensures ProcOk(s', Next(s.db, s.now, p, choice).1)
  {
  }

  /** A lease the heartbeat's task write did not find held is held by nobody. */
  lemma BeatLostIsUnheld(s: State, l: LeaseId, held: Lease)
    requires NamesBack(s.db) && NamesIf(s.db, l, held.taskId, held.workerId) && !StillHeld(s.db, l, held)
    ensures Unheld(s.db, l)
  {
    forall t | t in s.db.tasks
      ensures !s.db.tasks[t].HeldUnder(l)
    {
      if s.db.tasks[t].HeldUnder(l) {
        assert false;
      }
    }
  }

  lemma BeatRemembers(s: State, s': State, p: Process, choice: Choice)
    requires TablesOk(s) && ProcOk(s, p)
    requires p.BeatRead? || p.BeatStamp? || p.BeatRenew? || p.BeatTask?
    requires s'.db == Next(s.db, s.now, p, choice).0 && SameRest(s, s')
    ensures ProcOk(s', Next(s.db, s.now, p, choice).1)
  {
    if p.BeatTask? && !StillHeld(s.db, p.lease, p.held) {
      BeatLostIsUnheld(s, p.lease, p.held);
    }
  }

  /** Once its own task is not held under a lease, nothing is. */
  lemma OnlyItsTaskHolds(s: State, l: LeaseId, t: TaskId)
    requires TasksOk(s) && IsOn(s, l, t) && !IsHeld(s.db, t, l)
    ensures Unheld(s.db, l)
  {
    forall u | u in s.db.tasks
      ensures !s.db.tasks[u].HeldUnder(l)
    {
      if s.db.tasks[u].HeldUnder(l) {
        assert false;
      }
    }
  }

  lemma SettleRemembers(s: State, s': State, p: Process, choice: Choice)
    requires TablesOk(s) && TasksOk(s') && ProcOk(s, p)
    requires p.SettleRead? || p.SettleCheck? || p.SettleStamp?
    requires s'.db == s.db && SameRest(s, s')
    ensures ProcOk(s', Next(s.db, s.now, p, choice).1)
  {
  }

  lemma SettledRemembers(s: State, s': State, p: Process, choice: Choice)
    requires TablesOk(s) && TasksOk(s') && ProcOk(s, p)
    requires p.SettleWrite? || p.Retire?
    requires s'.db == Next(s.db, s.now, p, choice).0 && SameRest(s, s')
    ensures ProcOk(s', Next(s.db, s.now, p, choice).1)
  {
    OnlyItsTaskHolds(s', p.lease, if p.Retire? then p.claim.taskId else p.taskId);
  }

  lemma ListStays(s: State, s': State, todo: seq<(LeaseId, TaskId)>)
    requires todo != [] && ListOk(s, todo) && SameRest(s, s')
    requires forall l :: l in s'.db.leases ==> l in s.db.leases && s'.db.leases[l] == s.db.leases[l]
    ensures ListOk(s', todo) && ListOk(s', todo[1..])
  {
  }

  lemma SweepReads(s: State, s': State, p: Process, choice: Choice)
    requires LeasesOk(s) && p.SweepRead? && s'.db == s.db && SameRest(s, s')
    ensures ProcOk(s', Next(s.db, s.now, p, choice).1)
  {
  }

  lemma SweepRemembers(s: State, s': State, p: Process, choice: Choice)
    requires ProcOk(s, p) && (p.SweepNext? || p.SweepFail?)
    requires s'.db == Next(s.db, s.now, p, choice).0 && SameRest(s, s')
    ensures ProcOk(s', Next(s.db, s.now, p, choice).1)
  {
    if p.todo != [] {
      ListStays(s, s', p.todo);
    }
  }

  lemma EndRemembers(s: State, s': State, p: Process, choice: Choice)
    requires ProcOk(s, p) && (p.SweepStamp? || p.Drop? || p.Finished? || p.Claimed?) && s'.putOn == s.putOn
    ensures ProcOk(s', Next(s.db, s.now, p, choice).1)
  {
  }

  lemma AdvanceRemembers(s: State, pid: Pid, choice: Choice, s': State)
    requires TablesOk(s) && Enabled(s, Advance(pid, choice)) && ProcOk(s, s.procs[pid])
    requires s' == AdvanceProcess(s, pid, choice) && TablesOk(s')
    ensures ProcOk(s', s'.procs[pid])
  {
    var p := s.procs[pid];
    if p.Mint? {
      MintRemembers(s, s', p, choice);
    } else if p.Take? {
      TakeRemembers(s, s', p, choice);
    } else if p.BeatRead? || p.BeatStamp? || p.BeatRenew? || p.BeatTask? {
      BeatRemembers(s, s', p, choice);
    } else if p.SettleRead? || p.SettleCheck? || p.SettleStamp? {
      SettleRemembers(s, s', p, choice);
    } else if p.SettleWrite? || p.Retire? {
      SettledRemembers(s, s', p, choice);
    } else if p.SweepRead? {
      SweepReads(s, s', p, choice);
    } else if p.SweepNext? || p.SweepFail? {
      SweepRemembers(s, s', p, choice);
    } else if p.SweepStamp? || p.Drop? || p.Finished? || p.Claimed? {
      EndRemembers(s, s', p, choice);
    } else {
      ClaimRemembers(s, s', p, choice);
    }
  }
}
