/** The engine store: tables its methods read and conditionally overwrite. */
module EngineStore {
  import opened Options
  import opened Tables
  import opened StorageOps
  import opened StoreSpec
  import opened InboxSpec
  import opened ClaimScan

  class Store {
    var runs: map<RunId, Run>
    var tasks: map<TaskId, Task>
    var leases: map<LeaseId, Lease>
    var messages: seq<Message>
    var events: seq<Event>
    var now: Time

    function Contents(): Db
      reads this
    {
      Db(runs, tasks, leases, messages, events)
    }

    constructor ()
      ensures Contents() == Db(map[], map[], map[], [], []) && now == 0
    {
      runs, tasks, leases, messages, events, now := map[], map[], map[], [], [], 0;
    }

    method UpdateRunIfStatus(run: RunId, from: set<RunStatus>, patch: Run -> Run) returns (updated: bool)
      modifies this`runs
      ensures updated == RunIsIn(old(Contents()), run, from)
      ensures Contents() == if updated then PutRun(old(Contents()), run, patch(old(runs)[run])) else old(Contents())
    {
      updated := run in runs && runs[run].status in from;
      if updated {
        runs := runs[run := patch(runs[run])];
      }
    }

    method UpdateRun(run: RunId, patch: Run -> Run)
      modifies this`runs
      ensures Contents() == if run in old(runs) then PutRun(old(Contents()), run, patch(old(runs)[run])) else old(Contents())
    {
      if run in runs {
        runs := runs[run := patch(runs[run])];
      }
    }

    /** False when a row with that id is already there. */
    method EnqueueTask(t: TaskId, row: Task) returns (enqueued: bool)
      modifies this`tasks
      ensures enqueued == (t !in old(tasks))
      ensures Contents() == if enqueued then PutTask(old(Contents()), t, row) else old(Contents())
    {
      enqueued := t !in tasks;
      if enqueued {
        tasks := tasks[t := row];
      }
    }

    method RecordEvent(run: RunId, kind: EventKind)
      modifies this`events
      ensures Contents() == AppendEvent(old(Contents()), run, kind)
    {
      events := events + [Event(run, kind)];
    }

    /** Everything a claim does once its candidate is chosen. */
    method AttemptClaim(t: TaskId, candidate: Task, worker: WorkerId, ttl: nat, lease: LeaseId, token: Token) returns (claimed: bool)
      requires lease !in leases
      modifies this`runs, this`tasks, this`leases, this`events
      ensures (Contents(), claimed) == StoreSpec.AttemptClaim(old(Contents()), t, candidate, worker, ttl, now, lease, token)
    {
      claimed := false;
      if candidate.attempt >= MAX_CLAIMS {
        if t in tasks && tasks[t].status == Pending {
          tasks := tasks[t := tasks[t].(status := Dead)];
        }
        var _ := UpdateRunIfStatus(candidate.runId, {Queued}, (r: Run) => r.(status := Failed));
        return;
      }
      if candidate.runId in runs && runs[candidate.runId].requestedAt.Some? {
        var stops := runs[candidate.runId].intent != Some(Suspend);
        if t !in tasks || tasks[t].status != Pending {
          return;
        }
        tasks := tasks[t := tasks[t].(status := Dead)];
        if exists u :: u in tasks && IsLiveHolder(tasks[u], candidate.runId, now) {
          return;
        }
        var settled := UpdateRunIfStatus(candidate.runId, {Queued, Waiting}, (r: Run) => r.Unlatched().(
          status := if stops then Cancelled else Waiting,
          waitReason := if stops then None else Some(Suspended)));
        if settled {
          RecordEvent(candidate.runId, if stops then RunCancelled else RunSuspended);
        }
        return;
      }
      leases := leases[lease := Lease(t, worker, Digest(token), now + ttl, now)];
      if t !in tasks || tasks[t].status != Pending || tasks[t].dueAt > now {
        leases := leases - {lease};
        return;
      }
      tasks := tasks[t := tasks[t].(
        status := Leased,
        leaseId := Some(lease),
        workerId := Some(worker),
        leasedUntil := Some(now + ttl),
        attempt := candidate.attempt + 1)];
      claimed := UpdateRunIfStatus(candidate.runId, NON_TERMINAL, (r: Run) => r.(status := Running));
      if !claimed {
        if tasks[t].status == Leased && tasks[t].leaseId == Some(lease) {
          tasks := tasks[t := tasks[t].Released().(status := Dead)];
        }
        leases := leases - {lease};
      }
    }
 
    /** A claim by primary key: the row is read, then attempted. */
    method ClaimTask(t: TaskId, worker: WorkerId, ttl: nat, lease: LeaseId, token: Token) returns (claimed: bool)
      requires lease !in leases
      modifies this`runs, this`tasks, this`leases, this`events
      ensures (Contents(), claimed) == StoreSpec.ClaimTask(old(Contents()), t, worker, ttl, now, lease, token)
    {
      if t !in tasks {
        return false;
      }
      claimed := AttemptClaim(t, tasks[t], worker, ttl, lease, token);
    }

    /** The due tasks, earliest due first, within the window. */
    method ListDue(window: nat) returns (found: seq<Candidate>)
      ensures IsScan(Contents(), found, now, window)
    {
      found := [];
      var todo := set t | t in tasks && tasks[t].status == Pending && tasks[t].dueAt <= now;
      while todo != {} && |found| < window
        invariant |found| <= window && ScanSoFar(Contents(), found, todo, now)
        decreases todo
      {
        EarliestExists(tasks, todo);
        var t :| t in todo && forall u :: u in todo ==> tasks[t].dueAt <= tasks[u].dueAt;
        ScanOneMore(Contents(), found, todo, now, t);
        found := found + [Candidate(t, tasks[t])];
        todo := todo - {t};
      }
    }

    /** Sweeps once, reads its candidates once, and claims until it holds `max` of them, or one. */
    method ClaimDueTasks(worker: WorkerId, ttl: nat, max: int, limit: Option<nat>, drawn: seq<Draw>)
      returns (claimed: seq<TaskId>, ghost expired: seq<(LeaseId, TaskId)>, ghost found: seq<Candidate>)
      requires forall i, j :: 0 <= i < j < |drawn| ==> drawn[i].lease != drawn[j].lease
      requires forall i :: 0 <= i < |drawn| ==> drawn[i].lease !in leases
      requires |drawn| >= if limit.Some? then limit.value else if max * 4 > 10 then max * 4 else 10
      modifies this`runs, this`tasks, this`leases, this`events
      ensures ListsExpired(old(Contents()), expired, now)
      ensures IsScan(Reap(old(Contents()), expired, now), found, now, if limit.Some? then limit.value else if max * 4 > 10 then max * 4 else 10)
      ensures |drawn| >= |found|
      ensures (Contents(), claimed) == ClaimEach(Reap(old(Contents()), expired, now), found, worker, ttl, now, drawn, if max > 1 then max else 1)
    {
      expired := ReapExpiredLeases();
      ReapAddsNoLease(old(Contents()), expired, now);
      var candidates := ListDue(if limit.Some? then limit.value else if max * 4 > 10 then max * 4 else 10);
      found := candidates;
      claimed := ClaimUpTo(candidates, worker, ttl, drawn, if max > 1 then max else 1);
    }

    method ClaimUpTo(candidates: seq<Candidate>, worker: WorkerId, ttl: nat, drawn: seq<Draw>, room: nat) returns (claimed: seq<TaskId>)
      requires |drawn| >= |candidates|
      requires forall i, j :: 0 <= i < j < |drawn| ==> drawn[i].lease != drawn[j].lease
      requires forall i :: 0 <= i < |drawn| ==> drawn[i].lease !in leases
      modifies this`runs, this`tasks, this`leases, this`events
      ensures (Contents(), claimed) == ClaimEach(old(Contents()), candidates, worker, ttl, now, drawn, room)
    {
      claimed := [];
      var i := 0;
      ghost var whole := ClaimEach(Contents(), candidates, worker, ttl, now, drawn, room);
      ComesToItself(Contents(), candidates, worker, ttl, now, drawn, room);
      while i < |candidates| && |claimed| < room
        invariant 0 <= i <= |candidates| && |claimed| <= room
        invariant forall k :: i <= k < |drawn| ==> drawn[k].lease !in leases
        invariant ComesTo(Contents(), candidates, worker, ttl, now, drawn, room, i, claimed, whole)
      {
        var held := Attempt(candidates, worker, ttl, drawn, room, i, claimed, whole);
        if held {
          claimed := claimed + [candidates[i].task];
        }
        i := i + 1;
      }
      ComesToEnd(Contents(), candidates, worker, ttl, now, drawn, room, i, claimed, whole);
    }

    /** One attempt of a batch. */
    method Attempt(candidates: seq<Candidate>, worker: WorkerId, ttl: nat, drawn: seq<Draw>, ghost room: nat, i: nat, ghost claimed: seq<TaskId>, ghost whole: (Db, seq<TaskId>))
      returns (held: bool)
      requires i < |candidates| <= |drawn| && |claimed| < room
      requires forall k, l :: 0 <= k < l < |drawn| ==> drawn[k].lease != drawn[l].lease
      requires forall k :: i <= k < |drawn| ==> drawn[k].lease !in leases
      requires ComesTo(Contents(), candidates, worker, ttl, now, drawn, room, i, claimed, whole)
      modifies this`runs, this`tasks, this`leases, this`events
      ensures forall k :: i < k < |drawn| ==> drawn[k].lease !in leases
      ensures ComesTo(Contents(), candidates, worker, ttl, now, drawn, room, i + 1, if held then claimed + [candidates[i].task] else claimed, whole)
    {
      ghost var before := Contents();
      held := AttemptClaim(candidates[i].task, candidates[i].row, worker, ttl, drawn[i].lease, drawn[i].token);
      AttemptAddsOne(before, candidates[i].task, candidates[i].row, worker, ttl, now, drawn[i]);
      ComesToNext(before, candidates, worker, ttl, now, drawn, room, i, claimed, whole, Contents(), held);
    }

    /** Renews the lease, then asks the task whether it still names it. */
    method HeartbeatLease(lease: LeaseId, token: Token, ttl: nat) returns (held: bool)
      modifies this`tasks, this`leases
      ensures (Contents(), held) == Heartbeat(old(Contents()), lease, token, ttl, now)
    {
      if lease !in leases || leases[lease].expiresAt <= now || leases[lease].tokenHash != Digest(token) {
        return false;
      }
      var row := leases[lease];
      var expires := now + ttl;
      leases := leases[lease := row.(expiresAt := expires, lastHeartbeatAt := now)];
      if row.taskId in tasks && tasks[row.taskId].HeldUnder(lease) && tasks[row.taskId].workerId == Some(row.workerId) {
        tasks := tasks[row.taskId := tasks[row.taskId].(leasedUntil := Some(expires))];
        return true;
      }
      leases := leases - {lease};
      held := false;
    }

    method CompleteTask(t: TaskId, token: Token) returns (completed: bool)
      modifies this`tasks, this`leases
      ensures (Contents(), completed) == Complete(old(Contents()), t, token, now)
    {
      if t !in tasks || !Validates(Contents(), t, tasks[t], token, now) {
        return false;
      }
      var lease := tasks[t].leaseId.value;
      if tasks[t].status != Leased {
        return false;
      }
      tasks := tasks[t := tasks[t].(status := TaskStatus.Settled)];
      leases := leases - {lease};
      completed := true;
    }

    method FailTask(t: TaskId, token: Token) returns (failed: bool)
      modifies this`tasks, this`leases
      ensures (Contents(), failed) == Fail(old(Contents()), t, token, now)
    {
      if t !in tasks || !Validates(Contents(), t, tasks[t], token, now) {
        return false;
      }
      var row := tasks[t];
      var lease := row.leaseId.value;
      var errors := row.errorAttempt + 1;
      var spent := errors >= row.maxAttempts;
      failed := row.status == Leased;
      if failed {
        tasks := tasks[t := row.Released().(
          status := if spent then Dead else Pending,
          errorAttempt := errors,
          dueAt := if spent then row.dueAt else now + row.retryDelay)];
      }
      leases := leases - {lease};
    }

    /** The lease rows expired now, in some order. */
    method ListExpired() returns (found: seq<(LeaseId, TaskId)>)
      ensures ListsExpired(Contents(), found, now)
    {
      found := [];
      var todo := leases.Keys;
      while todo != {}
        invariant todo <= leases.Keys
        invariant forall i :: 0 <= i < |found| ==>
          found[i].0 in leases && leases[found[i].0].expiresAt <= now && leases[found[i].0].taskId == found[i].1
        invariant forall l :: l in leases && l !in todo && leases[l].expiresAt <= now ==> (l, leases[l].taskId) in found
      {
        var l :| l in todo;
        if leases[l].expiresAt <= now {
          found := found + [(l, leases[l].taskId)];
        }
        todo := todo - {l};
      }
    }

    /** One undisturbed sweep. Given that every leased task is named back by its lease, none is left
        under a lease expired now; every other row is as it was. */
    method ReapExpiredLeases() returns (ghost found: seq<(LeaseId, TaskId)>)
      modifies this`runs, this`tasks, this`leases
      ensures ListsExpired(old(Contents()), found, now)
      ensures Contents() == Reap(old(Contents()), found, now)
    {
      var rows := ListExpired();
      found := rows;
      var i := 0;
      while i < |rows|
        invariant 0 <= i <= |rows|
        invariant events == old(events) && messages == old(messages)
        invariant Reap(Contents(), rows[i..], now) == Reap(old(Contents()), rows, now)
      {
        var (l, t) := rows[i];
        assert rows[i..][0] == rows[i] && rows[i..][1..] == rows[i + 1..];
        if t !in tasks {
          leases := leases - {l};
        } else if tasks[t].HeldUnder(l) {
          var row := tasks[t];
          var spent := row.attempt >= MAX_CLAIMS;
          tasks := tasks[t := row.Released().(
            status := if spent then Dead else Pending,
            dueAt := if spent then row.dueAt else now + row.retryDelay)];
          leases := leases - {l};
          if spent {
            var _ := UpdateRunIfStatus(row.runId, NON_TERMINAL, (r: Run) => r.(status := Failed));
          }
        }
        i := i + 1;
      }
    }

    method DeadLetterPendingTasks(run: RunId) returns (count: nat)
      modifies this`tasks
      ensures Contents() == DeadLetter(old(Contents()), run)
      ensures count == |set t | t in old(tasks) && old(tasks)[t].runId == run && old(tasks)[t].status == Pending|
    {
      ghost var before := tasks;
      ghost var pending := set t | t in tasks && tasks[t].runId == run && tasks[t].status == Pending;
      var todo := set t | t in tasks && tasks[t].runId == run && tasks[t].status == Pending;
      count := 0;
      while todo != {}
        invariant todo <= pending
        invariant count + |todo| == |pending|
        invariant tasks.Keys == before.Keys
        invariant forall t :: t in before ==> tasks[t] == if t in todo then before[t] else Withheld(before[t], run)
        decreases todo
      {
        var t :| t in todo;
        tasks := tasks[t := tasks[t].(status := Dead)];
        count := count + 1;
        todo := todo - {t};
      }
      assert tasks == DeadLetter(old(Contents()), run).tasks;
    }

    /** One admission with nobody in between: the number is minted by the same write that checks the run
        is live, and the insert loses to a redelivery. */
    method AdmitMessage(id: MessageId, mode: Mode, body: Body) returns (answer: Admission)
      modifies this`runs, this`messages
      ensures (Contents(), answer) == Admit(old(Contents()), id, mode, body)
    {
      var run := id.toRun;
      if run !in runs {
        return NoSuchRun;
      }
      var num := runs[run].messageSeq + 1;
      var moved := UpdateRunIfStatus(run, NON_TERMINAL, (r: Run) => r.(messageSeq := num));
      if !moved {
        return Bounced(runs[run].status);
      }
      if exists i :: 0 <= i < |messages| && (messages[i].id == id || (messages[i].toRun == run && messages[i].num == num)) {
        return AlreadyKnown(num);
      }
      messages := messages + [Message(id, run, mode, body, id.sender, num, Unread)];
      answer := Admitted(num);
    }

    /** Delivers the run's rows past `after` in order, up to the first from somebody other than `runAs`. */
    method DrainMessages(run: RunId, after: int, runAs: Option<Principal>) returns (delivered: seq<Message>, handover: Option<Principal>)
      modifies this`messages
      ensures Drained(Contents(), delivered, handover) == Drain(old(Contents()), run, after, runAs)
    {
      ghost var before := Contents();
      var rows := Drainable(messages, run, after);
      delivered, handover := [], None;
      assert Mark(messages, []) == messages;
      var i := 0;
      while i < |rows|
        invariant 0 <= i <= |rows|
        invariant messages == Mark(before.messages, rows[..i])
        invariant delivered == rows[..i] && handover == None
        invariant runAs.Some? ==> forall k :: 0 <= k < i ==> rows[k].sender == runAs.value
      {
        if runAs.Some? && rows[i].sender != runAs.value {
          DrainStops(before, run, after, runAs, i);
          handover := Some(rows[i].sender);
          return;
        }
        MarkOneMore(before.messages, rows, i);
        messages := Mark(messages, [rows[i]]);
        delivered := delivered + [rows[i]];
        i := i + 1;
      }
      DrainStops(before, run, after, runAs, i);
    }

    /** The messages left over on the thread, re-admitted to the run one by one; None when the run they
        should go to is not there. */
    method AdoptThreadInbox(thread: ThreadId, toRun: RunId) returns (adopted: Option<nat>)
      modifies this`runs, this`messages
      ensures Contents() == Adopt(old(Contents()), thread, toRun)
      ensures adopted == None <==> toRun !in old(runs) && LeftOver(old(Contents()), thread, toRun) != []
      ensures adopted.Some? ==> adopted.value == |messages| - |old(messages)|
    {
      var left := LeftOver(Contents(), thread, toRun);
      var count, i := 0, 0;
      while i < |left|
        invariant 0 <= i <= |left|
        invariant AdoptAll(Contents(), left[i..], toRun) == AdoptAll(old(Contents()), left, toRun)
        invariant toRun in runs <==> toRun in old(runs)
        invariant i > 0 ==> toRun in runs
        invariant |messages| == |old(messages)| + count
      {
        var m := left[i];
        assert left[i..][0] == m && left[i..][1..] == left[i + 1..];
        ghost var at := Contents();
        var answer := AdmitMessage(MessageId(toRun, m.sender, Adopted(m.id)), AdoptedMode(m.mode), m.body);
        if answer == NoSuchRun {
          NowhereToGo(at, left[i..], toRun);
          return None;
        }
        if answer.Admitted? {
          messages := Withdraw(messages, m.id);
          count := count + 1;
        }
        assert Contents() == AdoptOne(at, m, toRun);
        i := i + 1;
      }
      adopted := Some(count);
    }
  }

  lemma {:induction false} ReapAddsNoLease(db: Db, found: seq<(LeaseId, TaskId)>, at: Time)
    ensures Reap(db, found, at).leases.Keys <= db.leases.Keys
    decreases |found|
  {
    if found != [] {
      ReapAddsNoLease(ReapOne(db, found[0].0, found[0].1, at), found[1..], at);
    }
  }

  lemma AttemptAddsOne(db: Db, t: TaskId, row: Task, worker: WorkerId, ttl: nat, at: Time, d: Draw)
    ensures StoreSpec.AttemptClaim(db, t, row, worker, ttl, at, d.lease, d.token).0.leases.Keys <= db.leases.Keys + {d.lease}
  {
  }

  lemma {:induction false} OwnStops(rows: seq<Message>, runAs: Option<Principal>, i: nat)
    requires i <= |rows| && (runAs.Some? ==> forall k :: 0 <= k < i ==> rows[k].sender == runAs.value)
    requires i < |rows| ==> runAs.Some? && rows[i].sender != runAs.value
    ensures Own(rows, runAs) == rows[..i]
  {
    if i > 0 {
      OwnStops(rows[1..], runAs, i - 1);
    }
  }

  lemma DrainStops(db: Db, run: RunId, after: int, runAs: Option<Principal>, i: nat)
    requires var rows := Drainable(db.messages, run, after);
             && i <= |rows| && (runAs.Some? ==> forall k :: 0 <= k < i ==> rows[k].sender == runAs.value)
             && (i < |rows| ==> runAs.Some? && rows[i].sender != runAs.value)
    ensures var rows := Drainable(db.messages, run, after);
            Drain(db, run, after, runAs) ==
              Drained(db.(messages := Mark(db.messages, rows[..i])), rows[..i], if i == |rows| then None else Some(rows[i].sender))
  {
    OwnStops(Drainable(db.messages, run, after), runAs, i);
  }

  lemma MarkOneMore(messages: seq<Message>, rows: seq<Message>, i: nat)
    requires i < |rows|
    ensures Mark(Mark(messages, rows[..i]), [rows[i]]) == Mark(messages, rows[..i + 1])
  {
    var marked, more := Mark(messages, rows[..i]), Mark(messages, rows[..i + 1]);
    forall j | 0 <= j < |messages|
      ensures Mark(marked, [rows[i]])[j] == more[j]
    {
      if k :| 0 <= k < i && rows[..i][k].id == messages[j].id {
        assert rows[..i + 1][k].id == messages[j].id;
      }
      if rows[i].id == messages[j].id {
        assert rows[..i + 1][i].id == messages[j].id && [rows[i]][0].id == marked[j].id;
      }
    }
  }

  lemma {:induction false} NowhereToGo(db: Db, rows: seq<Message>, toRun: RunId)
    requires toRun !in db.runs
    ensures AdoptAll(db, rows, toRun) == db
    decreases |rows|
  {
    if rows != [] {
      NowhereToGo(db, rows[1..], toRun);
    }
  }
}
