/** What every interleaving of the lease protocol keeps. The proof is by rely and guarantee: every
    step, whoever takes it, stays within `Guarantee`, and what a process remembers survives any step
    within it. */
module LeaseSafety {
  import opened Options
  import opened Tables
  import opened StorageOps
  import opened LeaseProtocol

  // ---- the tables ----

  /** The task's lease exists and names the task and its worker back. */
  predicate NamedBack(db: Db, t: TaskId)
    requires t in db.tasks
  {
    && db.tasks[t].leaseId.Some?
    && db.tasks[t].leaseId.value in db.leases
    && var lease := db.leases[db.tasks[t].leaseId.value];
       lease.taskId == t && db.tasks[t].workerId == Some(lease.workerId)
  }

  /** No leased task is orphaned. */
  ghost predicate NamesBack(db: Db) {
    forall t :: t in db.tasks && db.tasks[t].status == Leased ==> NamedBack(db, t)
  }

  function ErrorLimit(row: Task): nat {
    if row.maxAttempts == 0 then 1 else row.maxAttempts
  }

  predicate WithinBudget(row: Task) {
    && row.attempt <= MAX_CLAIMS
    && row.errorAttempt <= ErrorLimit(row)
    && (row.status == Pending || row.status == Leased ==> row.errorAttempt < ErrorLimit(row))
  }

  ghost predicate LeasesOk(s: State) {
    forall l :: l in s.db.leases ==>
      && l in s.minted
      && s.db.leases[l].tokenHash == Digest(s.minted[l])
      && s.db.leases[l].taskId in s.used
  }

  ghost predicate TasksOk(s: State) {
    forall t :: t in s.db.tasks ==>
      && t in s.used
      && WithinBudget(s.db.tasks[t])
      && (s.db.tasks[t].leaseId.Some? ==> IsOn(s, s.db.tasks[t].leaseId.value, t))
  }

  predicate IsOn(s: State, l: LeaseId, t: TaskId) {
    l in s.putOn && s.putOn[l] == t
  }

  ghost predicate MintOk(s: State) {
    && s.putOn.Keys <= s.minted.Keys
    && s.granted <= s.putOn.Keys
    && (forall l, m :: l in s.minted && m in s.minted && s.minted[l] == s.minted[m] ==> l == m)
  }

  ghost predicate TablesOk(s: State) {
    LeasesOk(s) && TasksOk(s) && MintOk(s) && NamesBack(s.db)
  }

  // ---- what a process may remember ----

  predicate NamesIf(db: Db, l: LeaseId, t: TaskId, worker: WorkerId) {
    l in db.leases ==> db.leases[l].taskId == t && db.leases[l].workerId == worker
  }

  /** While the task is still held under this lease, its error count is the one that was read. */
  predicate ErrorsAsRead(db: Db, t: TaskId, l: LeaseId, read: Task) {
    IsHeld(db, t, l) ==>
      db.tasks[t].errorAttempt == read.errorAttempt && db.tasks[t].maxAttempts == read.maxAttempts
  }

  ghost predicate Unheld(db: Db, l: LeaseId) {
    forall t :: t in db.tasks ==> !db.tasks[t].HeldUnder(l)
  }

  ghost predicate ListOk(s: State, todo: seq<(LeaseId, TaskId)>) {
    forall i :: 0 <= i < |todo| ==>
      && todo[i].0 in s.minted
      && todo[i].1 in s.used
      && (todo[i].0 in s.db.leases ==> s.db.leases[todo[i].0].taskId == todo[i].1)
  }

  ghost predicate ProcOk(s: State, p: Process) {
    match p
    case RowRead(t, row, _, _) => t in s.used
    case Attempt(c) => c.taskId in s.used
    case Mint(c) => c.taskId in s.used && c.candidate.attempt < MAX_CLAIMS
    case Take(c, l, token) =>
      && c.taskId in s.used
      && c.candidate.attempt < MAX_CLAIMS
      && l in s.minted
      && l !in s.putOn
      && (c.taskId in s.db.tasks ==> l in s.db.leases)
      && NamesIf(s.db, l, c.taskId, c.worker)
    case StartRun(c, l, _) => IsOn(s, l, c.taskId)
    case Retire(c, l) => IsOn(s, l, c.taskId)
    case Claimed(l) => l in s.putOn
    case BeatRead(l, _, _) => l in s.putOn
    case BeatStamp(l, row, _, _) => l in s.putOn && NamesIf(s.db, l, row.taskId, row.workerId)
    case BeatRenew(l, row, _, _, _) => l in s.putOn && NamesIf(s.db, l, row.taskId, row.workerId)
    case BeatTask(l, row, _) => l in s.putOn && NamesIf(s.db, l, row.taskId, row.workerId)
    case SettleCheck(_, t, _, row) =>
      row.leaseId.Some? ==> IsOn(s, row.leaseId.value, t) && ErrorsAsRead(s.db, t, row.leaseId.value, row)
    case SettleStamp(_, t, token, row, l) =>
      IsOn(s, l, t) && l in s.minted && s.minted[l] == token && ErrorsAsRead(s.db, t, l, row)
    case SettleWrite(_, t, token, row, l, _) =>
      IsOn(s, l, t) && l in s.minted && s.minted[l] == token && ErrorsAsRead(s.db, t, l, row)
    case Drop(l) => l in s.minted && Unheld(s.db, l)
    case SweepNext(_, todo) => ListOk(s, todo)
    case SweepFail(_, todo, _) => ListOk(s, todo)
    case _ => true
  }

  /** A lease on its way to a task is nobody else's to take or drop. */
  ghost predicate Exclusive(procs: map<Pid, Process>) {
    forall p, q :: p in procs && q in procs && p != q && procs[p].Take? && (procs[q].Take? || procs[q].Drop?) ==>
      procs[p].lease != procs[q].lease
  }

  // ---- what was observed ----

  ghost predicate Bracketed(h: seq<Entry>) {
    && (forall i :: 0 <= i < |h| && i % 2 == 0 ==> h[i].Opened? && h[i].lease.Some?)
    && (forall i :: 0 < i < |h| && i % 2 == 1 ==> h[i].Closed? && h[i].lease == h[i - 1].lease)
    && (forall i, j :: 0 <= i < j < |h| && h[i].Opened? && h[j].Opened? ==> h[i].lease != h[j].lease)
  }

  predicate OnTask(putOn: map<LeaseId, TaskId>, l: Option<LeaseId>, t: TaskId) {
    l.Some? && l.value in putOn && putOn[l.value] == t
  }

  ghost predicate HistoryOf(putOn: map<LeaseId, TaskId>, row: Option<Task>, t: TaskId, h: seq<Entry>) {
    && Bracketed(h)
    && (forall i :: 0 <= i < |h| ==> OnTask(putOn, h[i].lease, t))
    && (if Holds(row) then |h| % 2 == 1 && h[|h| - 1].lease == row.value.leaseId else |h| % 2 == 0)
  }

  ghost predicate HistoryOk(s: State) {
    forall t :: HistoryOf(s.putOn, RowAt(s.db.tasks, t), t, Past(s.history, t))
  }

  ghost predicate Inv(s: State) {
    && TablesOk(s)
    && (forall p :: p in s.procs ==> ProcOk(s, s.procs[p]))
    && Exclusive(s.procs)
    && HistoryOk(s)
  }

  // ---- rely and guarantee ----

  /** What a step may do, as every other process sees it; `mine` are the leases of its own it acts on. */
  ghost predicate Guarantee(s: State, s': State, mine: set<LeaseId>) {
    && s.used <= s'.used
    && (forall l :: l in s.minted ==> l in s'.minted && s'.minted[l] == s.minted[l])
    && (forall l :: l in s.putOn ==> l in s'.putOn && s'.putOn[l] == s.putOn[l])
    && (forall l :: l in s'.putOn ==> l in s.putOn || l in mine)
    && (forall l :: l in s'.db.leases && l in s.minted ==>
          && l in s.db.leases
          && s'.db.leases[l].taskId == s.db.leases[l].taskId
          && s'.db.leases[l].workerId == s.db.leases[l].workerId)
    && (forall l :: l in s.db.leases && l !in s.putOn && l !in mine && s.db.leases[l].taskId in s'.db.tasks ==>
          l in s'.db.leases)
    && (forall t :: t in s'.db.tasks && t in s.used ==> t in s.db.tasks)
    && RowsMove(s, s')
  }

  /** No row passes to a lease that was ever put on a task, nor straight from one lease to another. */
  ghost predicate RowsMove(s: State, s': State) {
    forall t :: t in s'.db.tasks && s'.db.tasks[t].status == Leased && s'.db.tasks[t].leaseId.Some? ==>
      var l := s'.db.tasks[t].leaseId.value;
      if l in s.putOn
      then
        && IsHeld(s.db, t, l)
        && s'.db.tasks[t].errorAttempt == s.db.tasks[t].errorAttempt
        && s'.db.tasks[t].maxAttempts == s.db.tasks[t].maxAttempts
      else !Holds(RowAt(s.db.tasks, t))
  }

  lemma TakeStays(s: State, s': State, mine: set<LeaseId>, p: Process)
    requires LeasesOk(s) && Guarantee(s, s', mine) && ProcOk(s, p)
    requires p.Take? && p.lease !in mine
    ensures ProcOk(s', p)
  {
  }

  lemma DropStays(s: State, s': State, mine: set<LeaseId>, l: LeaseId)
    requires TasksOk(s') && Guarantee(s, s', mine) && l in s.minted && Unheld(s.db, l)
    requires l in s'.putOn ==> l in s.putOn
    ensures Unheld(s'.db, l)
  {
    forall t | t in s'.db.tasks
      ensures !s'.db.tasks[t].HeldUnder(l)
    {
      if s'.db.tasks[t].HeldUnder(l) {
        assert false;
      }
    }
  }

  lemma SettlerStays(s: State, s': State, mine: set<LeaseId>, p: Process)
    requires Guarantee(s, s', mine) && ProcOk(s, p)
    requires p.SettleCheck? || p.SettleStamp? || p.SettleWrite?
    ensures ProcOk(s', p)
  {
  }

  /** What a process remembers survives every step of the others. */
  lemma ProcStays(s: State, s': State, mine: set<LeaseId>, p: Process)
    requires TablesOk(s) && TablesOk(s') && ProcOk(s, p)
    requires Guarantee(s, s', mine)
    requires p.Take? ==> p.lease !in mine
    requires p.Drop? && p.lease in s'.putOn ==> p.lease in s.putOn
    ensures ProcOk(s', p)
  {
    if p.Take? {
      TakeStays(s, s', mine, p);
    } else if p.Drop? {
      DropStays(s, s', mine, p.lease);
    } else if p.SettleCheck? || p.SettleStamp? || p.SettleWrite? {
      SettlerStays(s, s', mine, p);
    } else {
      OthersStay(s, s', mine, p);
    }
  }

  lemma OthersStay(s: State, s': State, mine: set<LeaseId>, p: Process)
    requires LeasesOk(s') && MintOk(s) && Guarantee(s, s', mine) && ProcOk(s, p)
    requires !p.Take? && !p.Drop? && !p.SettleCheck? && !p.SettleStamp? && !p.SettleWrite?
    ensures ProcOk(s', p)
  {
  }

  lemma AppendOpened(h: seq<Entry>, l: LeaseId)
    requires Bracketed(h) && |h| % 2 == 0
    requires forall i :: 0 <= i < |h| ==> h[i].lease != Some(l)
    ensures Bracketed(h + [Opened(Some(l))])
  {
  }

  lemma AppendClosed(h: seq<Entry>, failed: bool)
    requires Bracketed(h) && |h| % 2 == 1
    ensures Bracketed(h + [Closed(h[|h| - 1].lease, failed)])
  {
  }

  lemma HistoryStays(putOn: map<LeaseId, TaskId>, putOn': map<LeaseId, TaskId>, before: Option<Task>, after: Option<Task>, t: TaskId, h: seq<Entry>)
    requires HistoryOf(putOn, before, t, h)
    requires forall l :: l in putOn ==> l in putOn' && putOn'[l] == putOn[l]
    requires Holds(after) ==> OnTask(putOn', after.value.leaseId, t)
    requires Holds(after) && after.value.leaseId.value in putOn ==> Holds(before) && before.value.leaseId == after.value.leaseId
    requires Holds(after) && after.value.leaseId.value !in putOn ==> !Holds(before)
    ensures HistoryOf(putOn', after, t, h + Seen(before, after))
  {
    var seen := Seen(before, after);
    if seen == [] {
      assert h + seen == h;
    } else if Holds(after) {
      AppendOpened(h, after.value.leaseId.value);
    } else {
      AppendClosed(h, after.Some? && after.value.errorAttempt > before.value.errorAttempt);
    }
  }
}
