/** A worker's batch claim: the due tasks in order, each attempted, until enough are held. */
module ClaimScan {
  import opened Options
  import opened Tables
  import opened StorageOps
  import opened StoreSpec

  /** A candidate as the scan read it. */
  datatype Candidate = Candidate(task: TaskId, row: Task)

  /** A lease id and token drawn for one attempt. */
  datatype Draw = Draw(lease: LeaseId, token: Token)

  /** The due pending tasks, each once, earliest due first, as many as the window takes. */
  ghost predicate IsScan(db: Db, found: seq<Candidate>, at: Time, window: nat) {
    && |found| <= window
    && (forall i :: 0 <= i < |found| ==> CanTake(db, found[i].task, at) && found[i].row == db.tasks[found[i].task])
    && (forall i, j :: 0 <= i < j < |found| ==> found[i].task != found[j].task && found[i].row.dueAt <= found[j].row.dueAt)
    && (forall t :: CanTake(db, t, at) ==>
          || Lists(found, t)
          || (|found| == window && forall i :: 0 <= i < |found| ==> found[i].row.dueAt <= db.tasks[t].dueAt))
  }

  lemma {:induction false} EarliestExists(tasks: map<TaskId, Task>, todo: set<TaskId>)
    requires todo != {} && todo <= tasks.Keys
    ensures exists t :: t in todo && forall u :: u in todo ==> tasks[t].dueAt <= tasks[u].dueAt
    decreases |todo|
  {
    var t :| t in todo;
    var rest := todo - {t};
    if rest == {} {
      assert todo == {t};
    } else {
      EarliestExists(tasks, rest);
      var e :| e in rest && forall u :: u in rest ==> tasks[e].dueAt <= tasks[u].dueAt;
      var best := if tasks[t].dueAt <= tasks[e].dueAt then t else e;
      assert best in todo && forall u :: u in todo ==> tasks[best].dueAt <= tasks[u].dueAt;
    }
  }

  /** The scan so far: the earliest of the due tasks found, the others still to find. */
  ghost predicate ScanSoFar(db: Db, found: seq<Candidate>, todo: set<TaskId>, at: Time) {
    && (forall t :: t in todo ==> CanTake(db, t, at))
    && (forall i :: 0 <= i < |found| ==> CanTake(db, found[i].task, at) && found[i].row == db.tasks[found[i].task] && found[i].task !in todo)
    && (forall i, j :: 0 <= i < j < |found| ==> found[i].task != found[j].task && found[i].row.dueAt <= found[j].row.dueAt)
    && (forall i, t :: 0 <= i < |found| && t in todo ==> found[i].row.dueAt <= db.tasks[t].dueAt)
    && (forall t :: CanTake(db, t, at) ==> t in todo || Lists(found, t))
  }

  predicate Lists(found: seq<Candidate>, t: TaskId) {
    exists i :: 0 <= i < |found| && found[i].task == t
  }

  lemma ScanOneMore(db: Db, found: seq<Candidate>, todo: set<TaskId>, at: Time, t: TaskId)
    requires ScanSoFar(db, found, todo, at) && t in todo && forall u :: u in todo ==> db.tasks[t].dueAt <= db.tasks[u].dueAt
    ensures ScanSoFar(db, found + [Candidate(t, db.tasks[t])], todo - {t}, at)
  {
    var more := found + [Candidate(t, db.tasks[t])];
    forall u | CanTake(db, u, at)
      ensures u in todo - {t} || Lists(more, u)
    {
      if Lists(found, u) {
        var i :| 0 <= i < |found| && found[i].task == u;
        assert more[i].task == u;
      } else if u == t {
        assert more[|found|].task == u;
      }
    }
  }

  /** Attempts the candidates in turn while there is room for another claim. */
  function ClaimEach(db: Db, found: seq<Candidate>, worker: WorkerId, ttl: nat, at: Time, drawn: seq<Draw>, room: nat): (Db, seq<TaskId>)
    requires |drawn| >= |found|
    decreases |found|
  {
    if found == [] || room == 0 then (db, [])
    else
      var (next, held) := AttemptClaim(db, found[0].task, found[0].row, worker, ttl, at, drawn[0].lease, drawn[0].token);
      var (last, claimed) := ClaimEach(next, found[1..], worker, ttl, at, drawn[1..], if held then room - 1 else room);
      (last, if held then [found[0].task] + claimed else claimed)
  }

  /** From the `i`-th candidate on, with `claimed` so far, the batch comes to `whole`. */
  ghost predicate ComesTo(db: Db, found: seq<Candidate>, worker: WorkerId, ttl: nat, at: Time, drawn: seq<Draw>, room: nat, i: nat, claimed: seq<TaskId>, whole: (Db, seq<TaskId>))
    requires i <= |found| <= |drawn| && |claimed| <= room
  {
    var (after, more) := ClaimEach(db, found[i..], worker, ttl, at, drawn[i..], room - |claimed|);
    after == whole.0 && claimed + more == whole.1
  }

  lemma ComesToItself(db: Db, found: seq<Candidate>, worker: WorkerId, ttl: nat, at: Time, drawn: seq<Draw>, room: nat)
    requires |found| <= |drawn|
    ensures ComesTo(db, found, worker, ttl, at, drawn, room, 0, [], ClaimEach(db, found, worker, ttl, at, drawn, room))
  {
    assert found[0..] == found && drawn[0..] == drawn;
  }

  lemma ComesToEnd(db: Db, found: seq<Candidate>, worker: WorkerId, ttl: nat, at: Time, drawn: seq<Draw>, room: nat, i: nat, claimed: seq<TaskId>, whole: (Db, seq<TaskId>))
    requires i <= |found| <= |drawn| && |claimed| <= room && (i == |found| || |claimed| == room)
    requires ComesTo(db, found, worker, ttl, at, drawn, room, i, claimed, whole)
    ensures whole == (db, claimed)
  {
    assert claimed + [] == claimed;
  }

  lemma ComesToNext(db: Db, found: seq<Candidate>, worker: WorkerId, ttl: nat, at: Time, drawn: seq<Draw>, room: nat, i: nat, claimed: seq<TaskId>, whole: (Db, seq<TaskId>),
      next: Db, held: bool)
    requires i < |found| <= |drawn| && |claimed| < room
    requires ComesTo(db, found, worker, ttl, at, drawn, room, i, claimed, whole)
    requires (next, held) == AttemptClaim(db, found[i].task, found[i].row, worker, ttl, at, drawn[i].lease, drawn[i].token)
    ensures ComesTo(next, found, worker, ttl, at, drawn, room, i + 1, if held then claimed + [found[i].task] else claimed, whole)
  {
    assert found[i..][1..] == found[i + 1..] && drawn[i..][1..] == drawn[i + 1..];
    var more := ClaimEach(next, found[i + 1..], worker, ttl, at, drawn[i + 1..], if held then room - |claimed| - 1 else room - |claimed|).1;
    assert claimed + ([found[i].task] + more) == claimed + [found[i].task] + more;
  }

  /** The task is held by this worker under a lease that names it back. */
  predicate HeldBy(db: Db, t: TaskId, worker: WorkerId, lease: LeaseId) {
    && t in db.tasks && db.tasks[t].HeldUnder(lease) && db.tasks[t].workerId == Some(worker)
    && lease in db.leases && db.leases[lease].taskId == t && db.leases[lease].workerId == worker
  }

  lemma AttemptHolds(db: Db, t: TaskId, row: Task, worker: WorkerId, ttl: nat, at: Time, d: Draw)
    requires AttemptClaim(db, t, row, worker, ttl, at, d.lease, d.token).1
    ensures HeldBy(AttemptClaim(db, t, row, worker, ttl, at, d.lease, d.token).0, t, worker, d.lease)
  {
  }

  /** An attempt on one task leaves a claim of another as it is. */
  lemma AttemptSpares(db: Db, t: TaskId, row: Task, worker: WorkerId, ttl: nat, at: Time, d: Draw, u: TaskId, lease: LeaseId)
    requires HeldBy(db, u, worker, lease) && u != t && lease != d.lease
    ensures HeldBy(AttemptClaim(db, t, row, worker, ttl, at, d.lease, d.token).0, u, worker, lease)
  {
  }

  predicate Apart(found: seq<Candidate>, drawn: seq<Draw>) {
    && |drawn| >= |found|
    && (forall i, j :: 0 <= i < j < |found| ==> found[i].task != found[j].task)
    && (forall i, j :: 0 <= i < j < |drawn| ==> drawn[i].lease != drawn[j].lease)
  }

  lemma {:induction false} BatchSpares(db: Db, found: seq<Candidate>, worker: WorkerId, ttl: nat, at: Time, drawn: seq<Draw>, room: nat, u: TaskId, lease: LeaseId)
    requires |drawn| >= |found| && HeldBy(db, u, worker, lease)
    requires (forall i :: 0 <= i < |found| ==> found[i].task != u) && (forall i :: 0 <= i < |drawn| ==> drawn[i].lease != lease)
    ensures HeldBy(ClaimEach(db, found, worker, ttl, at, drawn, room).0, u, worker, lease)
    decreases |found|
  {
    if found != [] && room != 0 {
      var (next, held) := AttemptClaim(db, found[0].task, found[0].row, worker, ttl, at, drawn[0].lease, drawn[0].token);
      AttemptSpares(db, found[0].task, found[0].row, worker, ttl, at, drawn[0], u, lease);
      BatchSpares(next, found[1..], worker, ttl, at, drawn[1..], if held then room - 1 else room, u, lease);
    }
  }

  /** Which drawn lease holds the task. */
  ghost predicate HeldByDraw(db: Db, t: TaskId, worker: WorkerId, drawn: seq<Draw>) {
    exists k :: 0 <= k < |drawn| && HeldBy(db, t, worker, drawn[k].lease)
  }

  /** A BATCH HOLDS WHAT IT RETURNS. No more than the room there was, each a candidate, in the order they
      were due, and each still held by this worker, under a drawn lease that names it back, once the whole
      batch is done. */
  lemma {:induction false} BatchHoldsAll(db: Db, found: seq<Candidate>, worker: WorkerId, ttl: nat, at: Time, drawn: seq<Draw>, room: nat)
    requires Apart(found, drawn)
    ensures var (after, claimed) := ClaimEach(db, found, worker, ttl, at, drawn, room);
            && |claimed| <= room
            && IsSubsequence(claimed, found)
            && (forall t :: t in claimed ==> HeldByDraw(after, t, worker, drawn))
    decreases |found|
  {
    if found != [] && room != 0 {
      var (next, held) := AttemptClaim(db, found[0].task, found[0].row, worker, ttl, at, drawn[0].lease, drawn[0].token);
      var rest := if held then room - 1 else room;
      BatchHoldsAll(next, found[1..], worker, ttl, at, drawn[1..], rest);
      var (after, claimed) := ClaimEach(next, found[1..], worker, ttl, at, drawn[1..], rest);
      if held {
        AttemptHolds(db, found[0].task, found[0].row, worker, ttl, at, drawn[0]);
        BatchSpares(next, found[1..], worker, ttl, at, drawn[1..], rest, found[0].task, drawn[0].lease);
        assert HeldByDraw(after, found[0].task, worker, drawn);
      }
      forall t | t in claimed
        ensures HeldByDraw(after, t, worker, drawn)
      {
        var k :| 0 <= k < |drawn[1..]| && HeldBy(after, t, worker, drawn[1..][k].lease);
        assert drawn[k + 1] == drawn[1..][k];
      }
    }
  }

  /** The claimed ids are candidates, in the candidates' order. */
  predicate IsSubsequence(claimed: seq<TaskId>, found: seq<Candidate>) {
    claimed == [] ||
    (found != [] && (IsSubsequence(claimed, found[1..]) || (claimed[0] == found[0].task && IsSubsequence(claimed[1..], found[1..]))))
  }

  // ---- a batch stops for one reason alone ----

  /** Every candidate attempted, each on what the last attempt left, and those that were held. */
  function AttemptAll(db: Db, found: seq<Candidate>, worker: WorkerId, ttl: nat, at: Time, drawn: seq<Draw>): (Db, seq<TaskId>)
    requires |drawn| >= |found|
    decreases |found|
  {
    if found == [] then (db, [])
    else
      var (next, held) := AttemptClaim(db, found[0].task, found[0].row, worker, ttl, at, drawn[0].lease, drawn[0].token);
      var (last, claimed) := AttemptAll(next, found[1..], worker, ttl, at, drawn[1..]);
      (last, if held then [found[0].task] + claimed else claimed)
  }

  /** A BATCH GOES ON UNTIL IT IS FULL. It attempts its candidates in order, and leaves one out only when it holds as many
      tasks as were asked for. */
  lemma {:induction false} BatchGoesOn(db: Db, found: seq<Candidate>, worker: WorkerId, ttl: nat, at: Time, drawn: seq<Draw>, room: nat) returns (n: nat)
    requires |drawn| >= |found|
    ensures n <= |found| && ClaimEach(db, found, worker, ttl, at, drawn, room) == AttemptAll(db, found[..n], worker, ttl, at, drawn)
    ensures n < |found| ==> |ClaimEach(db, found, worker, ttl, at, drawn, room).1| == room
    decreases |found|
  {
    n := 0;
    if found != [] && room != 0 {
      var (next, held) := AttemptClaim(db, found[0].task, found[0].row, worker, ttl, at, drawn[0].lease, drawn[0].token);
      var rest := BatchGoesOn(next, found[1..], worker, ttl, at, drawn[1..], if held then room - 1 else room);
      n := rest + 1;
      assert found[..n][1..] == found[1..][..rest] && found[..n][0] == found[0];
    }
  }
}
