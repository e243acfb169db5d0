/** A worker's batch is a sweep followed by targeted claims, so what holds over any history of whole methods
    holds of batches too. */
module BatchClaims {
  import opened Tables
  import opened StoreSpec
  import opened ClaimScan
  import opened RunLifecycle

  /** The candidates were read from these very rows, each once. */
  predicate ReadFrom(db: Db, found: seq<Candidate>) {
    && (forall i :: 0 <= i < |found| ==> found[i].task in db.tasks && db.tasks[found[i].task] == found[i].row)
    && (forall i, j :: 0 <= i < j < |found| ==> found[i].task != found[j].task)
  }

  lemma AttemptLeavesOthers(db: Db, t: TaskId, row: Task, worker: WorkerId, ttl: nat, at: Time, d: Draw, u: TaskId)
    requires u != t && u in db.tasks
    ensures var after := AttemptClaim(db, t, row, worker, ttl, at, d.lease, d.token).0; u in after.tasks && after.tasks[u] == db.tasks[u]
  {
  }

  lemma AfterAppend(history: seq<Action>, a: Action)
    ensures After(history + [a]) == Step(After(history), a)
  {
    assert (history + [a])[..|history|] == history;
  }

  lemma OneClaim(history: seq<Action>, c: Candidate, worker: WorkerId, ttl: nat, d: Draw)
    requires var s := After(history); c.task in s.db.tasks && s.db.tasks[c.task] == c.row
    ensures var s, s' := After(history), After(history + [Action.Claim(c.task, worker, ttl, d.lease, d.token)]);
            s'.now == s.now && s'.db == AttemptClaim(s.db, c.task, c.row, worker, ttl, s.now, d.lease, d.token).0
  {
    AfterAppend(history, Action.Claim(c.task, worker, ttl, d.lease, d.token));
  }

  lemma {:induction false} EachIsAClaim(history: seq<Action>, found: seq<Candidate>, worker: WorkerId, ttl: nat, drawn: seq<Draw>, room: nat)
      returns (longer: seq<Action>)
    requires |drawn| >= |found| && ReadFrom(After(history).db, found)
    ensures var s := After(history); After(longer).db == ClaimEach(s.db, found, worker, ttl, s.now, drawn, room).0
    ensures history <= longer && forall i :: |history| <= i < |longer| ==> longer[i].Claim?
    decreases |found|
  {
    longer := history;
    if found != [] && room != 0 {
      var s := After(history);
      var (next, held) := AttemptClaim(s.db, found[0].task, found[0].row, worker, ttl, s.now, drawn[0].lease, drawn[0].token);
      OneClaim(history, found[0], worker, ttl, drawn[0]);
      forall i | 1 <= i < |found|
        ensures found[i].task in next.tasks && next.tasks[found[i].task] == found[i].row
      {
        AttemptLeavesOthers(s.db, found[0].task, found[0].row, worker, ttl, s.now, drawn[0], found[i].task);
      }
      longer := EachIsAClaim(history + [Action.Claim(found[0].task, worker, ttl, drawn[0].lease, drawn[0].token)],
        found[1..], worker, ttl, drawn[1..], if held then room - 1 else room);
    }
  }

  /** A BATCH IS A SWEEP AND CLAIMS. From any state a history reaches, the batch over any scan ends with the
      database of that history continued by one sweep and then claims alone. */
  lemma BatchIsSweepAndClaims(history: seq<Action>, expired: seq<(LeaseId, TaskId)>, found: seq<Candidate>, window: nat,
      worker: WorkerId, ttl: nat, drawn: seq<Draw>, room: nat) returns (longer: seq<Action>)
    requires var s := After(history); |drawn| >= |found| && IsScan(Reap(s.db, expired, s.now), found, s.now, window)
    ensures var s := After(history);
            After(longer).db == ClaimEach(Reap(s.db, expired, s.now), found, worker, ttl, s.now, drawn, room).0
    ensures history + [Sweep(expired)] <= longer && forall i :: |history| < i < |longer| ==> longer[i].Claim?
  {
    var swept := history + [Sweep(expired)];
    AfterAppend(history, Sweep(expired));
    assert After(swept).db == Reap(After(history).db, expired, After(history).now) && After(swept).now == After(history).now;
    longer := EachIsAClaim(swept, found, worker, ttl, drawn, room);
  }
}
