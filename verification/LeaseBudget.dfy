/** What one step does to one task row, and what that adds up to over a schedule. */
module LeaseBudget {
  import opened Options
  import opened Tables
  import opened StorageOps
  import opened LeaseProtocol
  import opened LeaseSafety
  import opened LeaseSteps
  import opened LeaseTheorems

  /** A pending row taken by a claim. */
  predicate Taken(before: Task, after: Task) {
    && before.status == Pending && after.status == Leased
    && after.errorAttempt == before.errorAttempt && after.maxAttempts == before.maxAttempts
  }

  predicate RowMoves(s: State, s': State, t: TaskId) {
    match (RowAt(s.db.tasks, t), RowAt(s'.db.tasks, t))
    case (None, Some(row)) => t !in s.used && Newborn(row)
    case (Some(before), Some(after)) => KeepsHands(before, after) || Taken(before, after)
    case (_, None) => true
  }

  lemma MintMovesRow(s: State, pid: Pid, choice: Choice, t: TaskId)
    requires pid in s.procs && s.procs[pid].Mint?
    ensures RowMoves(s, AdvanceProcess(s, pid, choice), t)
  {
    assert AdvanceProcess(s, pid, choice).db.tasks == s.db.tasks;
  }

  lemma TakeMovesRow(s: State, pid: Pid, choice: Choice, t: TaskId)
    requires pid in s.procs && s.procs[pid].Take? && CanTake(s.db, s.procs[pid].claim.taskId, s.procs[pid].claim.at)
    ensures RowMoves(s, AdvanceProcess(s, pid, choice), t)
  {
    TakeWrites(s.db, s.now, s.procs[pid], choice);
  }

  lemma TakeWrites(db: Db, now: Time, p: Process, choice: Choice)
    requires p.Take? && CanTake(db, p.claim.taskId, p.claim.at)
    ensures var after, t := Next(db, now, p, choice).0.tasks, p.claim.taskId;
            && t in after && Taken(db.tasks[t], after[t])
            && (forall u :: u != t ==> RowAt(after, u) == RowAt(db.tasks, u))
  {
  }

  lemma SettleMovesRow(s: State, s': State, mine: set<LeaseId>, t: TaskId)
    requires DbSettles(s.db, s'.db, s.putOn, mine)
    ensures RowMoves(s, s', t)
  {
  }

  lemma AdvanceMovesRow(s: State, pid: Pid, choice: Choice, t: TaskId)
    requires TablesOk(s) && Enabled(s, Advance(pid, choice)) && ProcOk(s, s.procs[pid])
    ensures RowMoves(s, AdvanceProcess(s, pid, choice), t)
  {
    var p := s.procs[pid];
    if p.Mint? {
      MintMovesRow(s, pid, choice, t);
    } else if p.Take? && CanTake(s.db, p.claim.taskId, p.claim.at) {
      TakeMovesRow(s, pid, choice, t);
    } else {
      NextSettles(s, p, choice);
      SettleMovesRow(s, AdvanceProcess(s, pid, choice), Mine(p), t);
    }
  }

  lemma EnvironmentMovesRow(s: State, a: Action, t: TaskId)
    requires Enabled(s, a) && !a.Advance? && TasksOk(s)
    ensures RowMoves(s, Do(s, a), t)
  {
    if a.Enqueue? {
      assert a.task !in s.db.tasks;
    } else if a.WithholdPending? {
      KillMovesRow(s.db, a.task, t);
    } else {
      assert RowAt(Do(s, a).db.tasks, t) in {RowAt(s.db.tasks, t), None};
    }
  }

  lemma KillMovesRow(db: Db, killed: TaskId, t: TaskId)
    ensures var after := KillPending(db, killed).tasks;
            after.Keys == db.tasks.Keys && (t in db.tasks ==> KeepsHands(db.tasks[t], after[t]))
  {
  }

  lemma StepMovesRow(s: State, a: Action, t: TaskId)
    requires Inv(s)
    ensures RowMoves(s, Step(s, a), t)
  {
    if Enabled(s, a) {
      if a.Advance? {
        assert ProcOk(s, s.procs[a.pid]);
        AdvanceMovesRow(s, a.pid, a.choice, t);
      } else {
        EnvironmentMovesRow(s, a, t);
      }
    }
  }

  lemma AfterAppend(schedule: seq<Action>, a: Action)
    ensures After(schedule + [a]) == Step(After(schedule), a)
  {
    assert (schedule + [a])[..|schedule|] == schedule;
  }

  // ---- main results, for every schedule ----

  lemma ClosesOnce(h: seq<Entry>, i: int, j: int)
    requires Bracketed(h) && 0 <= i < j < |h| && h[i].Closed? && h[j].Closed?
    ensures h[i].lease != h[j].lease
  {
    assert h[i - 1].Opened? && h[j - 1].Opened?;
  }

  /** FENCING. The claims on a task open and close in turn, each lease closes at most once, and no
      lease is ever put on two tasks. */
  lemma Fencing(schedule: seq<Action>, t: TaskId, u: TaskId)
    ensures var h, g := Past(After(schedule).history, t), Past(After(schedule).history, u);
            && Bracketed(h)
            && (forall i, j :: 0 <= i < j < |h| && h[i].Closed? && h[j].Closed? ==> h[i].lease != h[j].lease)
            && (t != u ==> forall i, j :: 0 <= i < |h| && 0 <= j < |g| ==> h[i].lease != g[j].lease)
  {
    var h := HistoryAfter(schedule, t);
    var g := HistoryAfter(schedule, u);
    forall i, j | 0 <= i < j < |h| && h[i].Closed? && h[j].Closed?
      ensures h[i].lease != h[j].lease
    {
      ClosesOnce(h, i, j);
    }
  }

  lemma HistoryAfter(schedule: seq<Action>, t: TaskId) returns (h: seq<Entry>)
    ensures h == Past(After(schedule).history, t)
    ensures HistoryOf(After(schedule).putOn, RowAt(After(schedule).db.tasks, t), t, h)
  {
    AlwaysInv(schedule);
    h := Past(After(schedule).history, t);
  }

  predicate SettlesRow(before: Task, after: Task) {
    (after.status == TaskStatus.Settled && before.status != TaskStatus.Settled) || after.errorAttempt != before.errorAttempt
  }

  predicate ReadsOnly(p: Process) {
    || p.ScanStamped? || p.RowRead? || p.AskHolders? || p.Mint? || p.BeatRead? || p.BeatStamp? || p.BeatRenew?
    || p.SettleRead? || p.SettleCheck? || p.SettleStamp? || p.Drop? || p.SweepStamp? || p.SweepRead? || p.Finished? || p.Claimed?
  }

  lemma ReadingMovesNoTask(db: Db, now: Time, p: Process, choice: Choice)
    requires ReadsOnly(p)
    ensures Next(db, now, p, choice).0.tasks == db.tasks
  {
  }

  lemma SweepSettlesNothing(db: Db, now: Time, p: Process, choice: Choice, t: TaskId)
    requires (p.SweepNext? || p.SweepFail?) && t in db.tasks
    ensures var after := Next(db, now, p, choice).0.tasks; t in after && !SettlesRow(db.tasks[t], after[t])
  {
  }

  lemma ClaimSettlesNothing(db: Db, now: Time, p: Process, choice: Choice, t: TaskId)
    requires !ReadsOnly(p) && !p.SettleWrite? && !p.SweepNext? && !p.SweepFail? && t in db.tasks
    ensures var after := Next(db, now, p, choice).0.tasks; t in after && !SettlesRow(db.tasks[t], after[t])
  {
  }

  lemma WriteSettlesItsOwn(db: Db, now: Time, p: Process, choice: Choice, t: TaskId)
    requires p.SettleWrite? && t in db.tasks
    requires var after := Next(db, now, p, choice).0.tasks; t in after && SettlesRow(db.tasks[t], after[t])
    ensures p.taskId == t && IsHeld(db, t, p.lease)
  {
  }

  lemma OnlySettleWrites(s: State, p: Process, choice: Choice, t: TaskId)
    requires t in s.db.tasks && t in Next(s.db, s.now, p, choice).0.tasks
    requires SettlesRow(s.db.tasks[t], Next(s.db, s.now, p, choice).0.tasks[t])
    ensures p.SettleWrite? && p.taskId == t && IsHeld(s.db, t, p.lease)
  {
    if ReadsOnly(p) {
      ReadingMovesNoTask(s.db, s.now, p, choice);
    } else if p.SettleWrite? {
      WriteSettlesItsOwn(s.db, s.now, p, choice, t);
    } else if p.SweepNext? || p.SweepFail? {
      SweepSettlesNothing(s.db, s.now, p, choice, t);
    } else {
      ClaimSettlesNothing(s.db, s.now, p, choice, t);
    }
  }

  lemma EnvironmentSettlesNothing(s: State, a: Action, t: TaskId)
    requires Enabled(s, a) && !a.Advance? && TasksOk(s) && t in s.db.tasks && t in Do(s, a).db.tasks
    ensures !SettlesRow(s.db.tasks[t], Do(s, a).db.tasks[t])
  {
    if a.Enqueue? {
      assert a.task !in s.db.tasks;
    }
  }

  /** A STALE TOKEN NEVER SETTLES. A task is completed, or charged a failure, only by the write of a
      process that presented the token minted with the very lease the task is held under. */
  lemma OnlyTheHolderSettles(schedule: seq<Action>, a: Action, t: TaskId)
    requires t in After(schedule).db.tasks && t in Step(After(schedule), a).db.tasks
    requires SettlesRow(After(schedule).db.tasks[t], Step(After(schedule), a).db.tasks[t])
    ensures var s := After(schedule);
            && a.Advance? && a.pid in s.procs
            && var p := s.procs[a.pid];
            && p.SettleWrite? && p.taskId == t
            && IsHeld(s.db, t, p.lease)
            && p.lease in s.minted && p.token == s.minted[p.lease]
  {
    AlwaysInv(schedule);
    var s := After(schedule);
    if Enabled(s, a) {
      if a.Advance? {
        assert ProcOk(s, s.procs[a.pid]);
        OnlySettleWrites(s, s.procs[a.pid], a.choice, t);
      } else {
        EnvironmentSettlesNothing(s, a, t);
      }
    }
  }

  /** A finished row stays as it is, and one that is gone does not come back. */
  lemma RowRests(s: State, a: Action, t: TaskId)
    requires Inv(s) && t in s.used
    requires t in s.db.tasks ==> s.db.tasks[t].status == TaskStatus.Settled || s.db.tasks[t].status == Dead
    ensures t in Step(s, a).db.tasks ==> t in s.db.tasks && Step(s, a).db.tasks[t] == s.db.tasks[t]
    ensures t in Step(s, a).used
  {
    StepMovesRow(s, a, t);
  }

  /** FINISHED ROWS REST. A completed or dead task never moves again; at most it is pruned. */
  lemma {:induction false} FinishedRests(schedule: seq<Action>, more: seq<Action>, t: TaskId)
    requires t in After(schedule).db.tasks
    requires After(schedule).db.tasks[t].status == TaskStatus.Settled || After(schedule).db.tasks[t].status == Dead
    ensures var s := After(schedule + more);
            t in s.db.tasks ==> s.db.tasks[t] == After(schedule).db.tasks[t]
    ensures t in After(schedule + more).used
  {
    AlwaysInv(schedule);
    if more == [] {
      assert schedule + more == schedule;
    } else {
      var less, a := more[..|more| - 1], more[|more| - 1];
      FinishedRests(schedule, less, t);
      AlwaysInv(schedule + less);
      AfterAppend(schedule + less, a);
      RowRests(After(schedule + less), a, t);
      assert schedule + more == schedule + less + [a];
    }
  }

  /** RECOVERABILITY. However the processes interleave and crash, every leased task names a lease row
      that names it back, so a sweep can always find it; and every row is within its budget. */
  lemma NoOrphans(schedule: seq<Action>)
    ensures NamesBack(After(schedule).db)
    ensures forall t :: t in After(schedule).db.tasks ==> WithinBudget(After(schedule).db.tasks[t])
  {
    AlwaysInv(schedule);
  }

  // ---- counting claims and failures ----

  function Openings(h: seq<Entry>): nat {
    if h == [] then 0 else Openings(h[..|h| - 1]) + (if h[|h| - 1].Opened? then 1 else 0)
  }

  function Failures(h: seq<Entry>): nat {
    if h == [] then 0 else Failures(h[..|h| - 1]) + (if h[|h| - 1].Closed? && h[|h| - 1].failed then 1 else 0)
  }

  lemma CountSeen(h: seq<Entry>, before: Option<Task>, after: Option<Task>)
    ensures var seen := Seen(before, after);
            && Openings(h + seen) == Openings(h) + (if Holds(after) && seen != [] then 1 else 0)
            && Failures(h + seen) == Failures(h)
                 + (if Holds(before) && !Holds(after) && after.Some? && after.value.errorAttempt > before.value.errorAttempt then 1 else 0)
  {
    var seen := Seen(before, after);
    if seen == [] {
      assert h + seen == h;
    } else {
      assert (h + seen)[..|h + seen| - 1] == h;
    }
  }

  lemma {:induction false} BracketCounts(h: seq<Entry>)
    requires Bracketed(h)
    ensures 2 * Openings(h) == |h| + |h| % 2
    ensures 2 * Failures(h) <= |h|
  {
    if |h| >= 2 {
      var less, least := h[..|h| - 1], h[..|h| - 2];
      assert less[..|less| - 1] == least;
      BracketCounts(least);
    }
  }

  /** A claim wins its task. */
  predicate Wins(s: State, a: Action) {
    && a.Advance? && a.pid in s.procs && s.procs[a.pid].Take?
    && CanTake(s.db, s.procs[a.pid].claim.taskId, s.procs[a.pid].claim.at)
  }

  /** A claim that wins does so against the row as it is, not as it was when read. */
  predicate FreshStep(s: State, a: Action) {
    Wins(s, a) ==>
      var c := s.procs[a.pid].claim;
      c.candidate.attempt == s.db.tasks[c.taskId].attempt
  }

  ghost predicate FreshSchedule(schedule: seq<Action>) {
    schedule == [] ||
    var before := schedule[..|schedule| - 1];
    FreshSchedule(before) && FreshStep(After(before), schedule[|schedule| - 1])
  }

  ghost predicate Counted(s: State, t: TaskId) {
    var h := Past(s.history, t);
    && Openings(h) <= MAX_CLAIMS
    && (t !in s.used ==> h == [])
    && (t in s.db.tasks ==> s.db.tasks[t].attempt == Openings(h) && s.db.tasks[t].errorAttempt == Failures(h))
  }

  lemma WinWrites(s: State, a: Action)
    requires Wins(s, a) && ProcOk(s, s.procs[a.pid])
    ensures var c, s' := s.procs[a.pid].claim, Step(s, a);
            && c.taskId in s.db.tasks && c.taskId in s'.db.tasks
            && Taken(s.db.tasks[c.taskId], s'.db.tasks[c.taskId])
            && s'.db.tasks[c.taskId].attempt == c.candidate.attempt + 1 <= MAX_CLAIMS
            && forall u :: u != c.taskId ==> RowAt(s'.db.tasks, u) == RowAt(s.db.tasks, u)
  {
  }

  lemma LosingTakesNothing(s: State, a: Action, t: TaskId)
    requires Inv(s) && Enabled(s, a) && a.Advance? && !Wins(s, a)
    requires t in s.db.tasks && t in Do(s, a).db.tasks
    ensures !Taken(s.db.tasks[t], Do(s, a).db.tasks[t])
  {
    var p := s.procs[a.pid];
    assert ProcOk(s, p);
    if !p.Mint? {
      NextSettles(s, p, a.choice);
    }
  }

  lemma TakenIsWon(s: State, a: Action, t: TaskId)
    requires Inv(s) && t in s.db.tasks && t in Step(s, a).db.tasks && Taken(s.db.tasks[t], Step(s, a).db.tasks[t])
    ensures Wins(s, a) && s.procs[a.pid].claim.taskId == t
    ensures Step(s, a).db.tasks[t].attempt == s.procs[a.pid].claim.candidate.attempt + 1 <= MAX_CLAIMS
  {
    if Wins(s, a) {
      assert ProcOk(s, s.procs[a.pid]);
      WinWrites(s, a);
    } else if Enabled(s, a) {
      if a.Advance? {
        LosingTakesNothing(s, a, t);
      } else {
        EnvironmentTakesNothing(s, a, t);
      }
    }
  }

  lemma EnvironmentTakesNothing(s: State, a: Action, t: TaskId)
    requires Enabled(s, a) && !a.Advance? && TasksOk(s) && t in s.db.tasks && t in Do(s, a).db.tasks
    ensures !Taken(s.db.tasks[t], Do(s, a).db.tasks[t])
  {
    if a.Enqueue? {
      assert a.task !in s.db.tasks;
    }
  }

  lemma StepHistory(s: State, a: Action, t: TaskId)
    ensures Past(Step(s, a).history, t) == Past(s.history, t) + Seen(RowAt(s.db.tasks, t), RowAt(Step(s, a).db.tasks, t))
  {
    if Enabled(s, a) {
      ObservePast(s.history, s.db.tasks, Do(s, a).db.tasks, t);
    }
  }

  /** A fresh step keeps both counts exact. */
  lemma StepKeepsCount(s: State, a: Action, t: TaskId)
    requires Inv(s) && Counted(s, t) && FreshStep(s, a)
    ensures Counted(Step(s, a), t)
  {
    var s' := Step(s, a);
    var before, after := RowAt(s.db.tasks, t), RowAt(s'.db.tasks, t);
    StepMovesRow(s, a, t);
    StepHistory(s, a, t);
    if before.Some? && after.Some? && Taken(before.value, after.value) {
      TakenIsWon(s, a, t);
    }
    UsedGrows(s, a, t);
    MoveKeepsCount(s, s', t);
  }

  lemma MoveKeepsCount(s: State, s': State, t: TaskId)
    requires Counted(s, t) && RowMoves(s, s', t)
    requires var before, after := RowAt(s.db.tasks, t), RowAt(s'.db.tasks, t);
             && Past(s'.history, t) == Past(s.history, t) + Seen(before, after)
             && (before.Some? && after.Some? && Taken(before.value, after.value) ==>
                   after.value.attempt == before.value.attempt + 1 <= MAX_CLAIMS)
    requires t in s.used ==> t in s'.used
    requires t in s.db.tasks ==> t in s.used
    requires t in s'.db.tasks ==> t in s'.used
    ensures Counted(s', t)
  {
    CountSeen(Past(s.history, t), RowAt(s.db.tasks, t), RowAt(s'.db.tasks, t));
  }

  lemma UsedGrows(s: State, a: Action, t: TaskId)
    requires Inv(s)
    ensures t in s.used ==> t in Step(s, a).used
    ensures t in Step(s, a).db.tasks ==> t in Step(s, a).used
  {
    StepKeepsInv(s, a);
  }

  lemma WinCounts(s: State, a: Action)
    requires Inv(s) && Wins(s, a) && Counted(s, s.procs[a.pid].claim.taskId)
    ensures Counted(Step(s, a), s.procs[a.pid].claim.taskId) ==> FreshStep(s, a)
  {
    var t := s.procs[a.pid].claim.taskId;
    assert ProcOk(s, s.procs[a.pid]);
    WinWrites(s, a);
    StepHistory(s, a, t);
    CountSeen(Past(s.history, t), RowAt(s.db.tasks, t), RowAt(Step(s, a).db.tasks, t));
  }

  /** A winning claim counts itself exactly when its candidate was read fresh. */
  lemma CountKeptIffFresh(schedule: seq<Action>, a: Action)
    requires Wins(After(schedule), a)
    requires Counted(After(schedule), After(schedule).procs[a.pid].claim.taskId)
    ensures Counted(Step(After(schedule), a), After(schedule).procs[a.pid].claim.taskId) <==> FreshStep(After(schedule), a)
  {
    AlwaysInv(schedule);
    var s := After(schedule);
    WinCounts(s, a);
    if FreshStep(s, a) {
      StepKeepsCount(s, a, s.procs[a.pid].claim.taskId);
    }
  }

  lemma {:induction false} AlwaysCounted(schedule: seq<Action>, t: TaskId)
    requires FreshSchedule(schedule)
    ensures Counted(After(schedule), t)
  {
    if schedule != [] {
      var before := schedule[..|schedule| - 1];
      AlwaysCounted(before, t);
      AlwaysInv(before);
      StepKeepsCount(After(before), schedule[|schedule| - 1], t);
    }
  }

  /** CLAIM BUDGET. With fresh candidates `attempt` counts claims and `errorAttempt` counts failures,
      exactly; a task is claimed at most 8 times, fails at most as often as it is claimed, and
      whatever mix of lapses and failures it meets it opens and closes at most 16 times in all. */
  lemma ClaimBudget(schedule: seq<Action>, t: TaskId)
    requires FreshSchedule(schedule)
    ensures var s := After(schedule); var h := Past(s.history, t);
            && Openings(h) <= MAX_CLAIMS && |h| <= 2 * MAX_CLAIMS
            && (t in s.db.tasks ==>
                  && s.db.tasks[t].attempt == Openings(h)
                  && s.db.tasks[t].errorAttempt == Failures(h) <= Openings(h)
                  && s.db.tasks[t].errorAttempt <= ErrorLimit(s.db.tasks[t]))
  {
    AlwaysCounted(schedule, t);
    NoOrphans(schedule);
    var h := HistoryAfter(schedule, t);
    BracketCounts(h);
  }

  function Measure(row: Task): int {
    3 * (MAX_CLAIMS - row.attempt) + Rank(row.status)
  }

  /** A row that keeps its hands, or is taken with one more claim counted, moves down. */
  lemma RowDescends(before: Task, after: Task)
    requires WithinBudget(after) && (KeepsHands(before, after) || (Taken(before, after) && after.attempt == before.attempt + 1))
    ensures 0 <= Measure(after) <= Measure(before)
    ensures after.status != before.status ==> Measure(after) < Measure(before)
  {
  }

  /** And one taken with the count written anew moves down exactly if the count went up. */
  lemma RowDescendsIff(before: Task, after: Task)
    requires before.status != after.status && (KeepsHands(before, after) || Taken(before, after))
    ensures Measure(after) < Measure(before) <==> (Taken(before, after) ==> after.attempt > before.attempt)
  {
  }

  lemma StepDescends(s: State, a: Action, t: TaskId)
    requires Inv(s) && FreshStep(s, a) && t in s.db.tasks && t in Step(s, a).db.tasks && WithinBudget(Step(s, a).db.tasks[t])
    ensures var before, after := s.db.tasks[t], Step(s, a).db.tasks[t];
            && 0 <= Measure(after) <= Measure(before)
            && (after.status != before.status ==> Measure(after) < Measure(before))
  {
    StepMovesRow(s, a, t);
    if Taken(s.db.tasks[t], Step(s, a).db.tasks[t]) {
      TakenIsWon(s, a, t);
    }
    RowDescends(s.db.tasks[t], Step(s, a).db.tasks[t]);
  }

  lemma StepDescendsIff(s: State, a: Action, t: TaskId)
    requires Inv(s) && t in s.db.tasks && t in Step(s, a).db.tasks
    requires Step(s, a).db.tasks[t].status != s.db.tasks[t].status
    ensures Measure(Step(s, a).db.tasks[t]) < Measure(s.db.tasks[t]) <==> !TakesBack(s, a, t)
  {
    var before, after := s.db.tasks[t], Step(s, a).db.tasks[t];
    StepMovesRow(s, a, t);
    if Taken(before, after) {
      TakenIsWon(s, a, t);
    } else if Wins(s, a) && s.procs[a.pid].claim.taskId == t {
      assert ProcOk(s, s.procs[a.pid]);
      WinWrites(s, a);
    }
    RowDescendsIff(before, after);
  }

  lemma LastIsFresh(schedule: seq<Action>, a: Action)
    requires FreshSchedule(schedule + [a])
    ensures FreshStep(After(schedule), a)
  {
    assert (schedule + [a])[..|schedule|] == schedule;
  }

  /** A winning claim of the task whose candidate counted fewer claims than the row does by then. */
  predicate TakesBack(s: State, a: Action, t: TaskId) {
    Wins(s, a) && s.procs[a.pid].claim.taskId == t && t in s.db.tasks && s.procs[a.pid].claim.candidate.attempt < s.db.tasks[t].attempt
  }

  /** Whatever the schedule, a change of status lowers the measure exactly when it is no claim that takes the
      count back. */
  lemma MoveDescendsIff(schedule: seq<Action>, a: Action, t: TaskId)
    requires t in After(schedule).db.tasks && t in Step(After(schedule), a).db.tasks
    requires Step(After(schedule), a).db.tasks[t].status != After(schedule).db.tasks[t].status
    ensures Measure(Step(After(schedule), a).db.tasks[t]) < Measure(After(schedule).db.tasks[t]) <==> !TakesBack(After(schedule), a, t)
  {
    AlwaysInv(schedule);
    StepDescendsIff(After(schedule), a, t);
  }

  /** TERMINATION. With fresh candidates every change of a task's status, of whatever kind, lowers one measure. */
  lemma EveryMoveDescends(schedule: seq<Action>, a: Action, t: TaskId)
    requires FreshSchedule(schedule + [a])
    requires t in After(schedule).db.tasks && t in After(schedule + [a]).db.tasks
    ensures var before, after := After(schedule).db.tasks[t], After(schedule + [a]).db.tasks[t];
            && 0 <= Measure(after) <= Measure(before)
            && (after.status != before.status ==> Measure(after) < Measure(before))
  {
    LastIsFresh(schedule, a);
    AfterAppend(schedule, a);
    AlwaysInv(schedule);
    NoOrphans(schedule + [a]);
    StepDescends(After(schedule), a, t);
  }
}
