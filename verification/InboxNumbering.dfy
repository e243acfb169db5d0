/** Admission at the granularity of single storage operations: any number of senders admit messages to
    any runs at once, runs finish at any moment, and a sender may crash between any two operations. */
module InboxNumbering {
  import opened Options
  import opened Tables

  type Pid = nat

  /** What admission reads of a run: is it live, and its counter. A run older than the column has none. */
  datatype Counter = Counter(live: bool, last: Option<nat>)

  const MAX_SEQ_ATTEMPTS: nat := 8

  datatype Answer = Admitted(num: nat) | AlreadyKnown(num: nat) | Bounced | NoSuchRun | Contended

  datatype Process =
    | Read(id: MessageId, tries: nat)
    | ReadMax(id: MessageId, tries: nat)
    | Seed(id: MessageId, tries: nat, seed: nat)
    | Mint(id: MessageId, tries: nat, stored: nat)
    | Reread(id: MessageId, tries: nat)
    | Insert(id: MessageId, num: nat)
    | Done(id: MessageId, answer: Answer)

  /** `rows` is keyed by the primary key. `born` are the runs whose counter was written at creation. */
  datatype State = State(runs: map<RunId, Counter>, rows: map<MessageId, nat>, procs: map<Pid, Process>, born: set<RunId>)

  /** A legacy run is older than the counter and brings the rows it holds already. */
  datatype Action =
    | Create(run: RunId)
    | Legacy(run: RunId, held: map<MessageId, nat>)
    | Finish(run: RunId)
    | Call(pid: Pid, id: MessageId)
    | Advance(pid: Pid)
    | Crash(pid: Pid)

  /** The insert loses to the same id, or to the same number on the same run. */
  ghost predicate Conflicts(rows: map<MessageId, nat>, id: MessageId, num: nat) {
    id in rows || exists other :: other in rows && other.toRun == id.toRun && rows[other] == num
  }

  ghost predicate IsMax(rows: map<MessageId, nat>, run: RunId, top: nat) {
    && (forall id :: id in rows && id.toRun == run ==> rows[id] <= top)
    && (top == 0 || exists id :: id in rows && id.toRun == run && rows[id] == top)
  }

  lemma {:induction false} MaxExists(rows: map<MessageId, nat>, run: RunId)
    ensures exists top :: IsMax(rows, run, top)
    decreases |rows|
  {
    if rows == map[] {
      assert IsMax(rows, run, 0);
    } else {
      var id :| id in rows;
      var rest := rows - {id};
      MaxExists(rest, run);
      var top :| IsMax(rest, run, top);
      if id.toRun == run && rows[id] > top {
        assert IsMax(rows, run, rows[id]);
      } else {
        assert forall other :: other in rest ==> rows[other] == rest[other];
        assert IsMax(rows, run, top);
      }
    }
  }

  ghost function MaxOf(rows: map<MessageId, nat>, run: RunId): (top: nat)
    ensures IsMax(rows, run, top)
  {
    MaxExists(rows, run);
    var top :| IsMax(rows, run, top);
    top
  }

  /** The loop head: another attempt, or the error for contention. */
  function Retry(id: MessageId, tries: nat): Process {
    if tries < MAX_SEQ_ATTEMPTS then Read(id, tries) else Done(id, Contended)
  }

  function Move(s: State, pid: Pid, p: Process): State {
    s.(procs := s.procs[pid := p])
  }

  ghost function AdvanceProcess(s: State, pid: Pid): State
    requires pid in s.procs
  {
    match s.procs[pid]
    case Read(id, tries) =>
      Move(s, pid,
        if id.toRun !in s.runs then Done(id, NoSuchRun)
        else if s.runs[id.toRun].last == None then ReadMax(id, tries)
        else Mint(id, tries, s.runs[id.toRun].last.value))
    case ReadMax(id, tries) => Move(s, pid, Seed(id, tries, MaxOf(s.rows, id.toRun)))
    case Seed(id, tries, seed) =>
      var next := Move(s, pid, Retry(id, tries + 1));
      if id.toRun in s.runs then next.(runs := s.runs[id.toRun := s.runs[id.toRun].(last := Some(seed))]) else next
    case Mint(id, tries, stored) =>
      if id.toRun in s.runs && s.runs[id.toRun] == Counter(true, Some(stored))
      then Move(s, pid, Insert(id, stored + 1)).(runs := s.runs[id.toRun := Counter(true, Some(stored + 1))])
      else Move(s, pid, Reread(id, tries))
    case Reread(id, tries) =>
      Move(s, pid, if id.toRun in s.runs && !s.runs[id.toRun].live then Done(id, Bounced) else Retry(id, tries + 1))
    case Insert(id, num) =>
      if Conflicts(s.rows, id, num) then Move(s, pid, Done(id, AlreadyKnown(num)))
      else Move(s, pid, Done(id, Admitted(num))).(rows := s.rows[id := num])
    case Done(_, _) => s
  }

  /** Rows of one run, as the table's unique index lets them be. */
  ghost predicate IsInbox(held: map<MessageId, nat>, run: RunId) {
    && (forall id :: id in held ==> id.toRun == run)
    && (forall a, b :: a in held && b in held && a != b ==> held[a] != held[b])
  }

  ghost function Step(s: State, a: Action): State {
    match a
    case Create(run) =>
      if run in s.runs then s else s.(runs := s.runs[run := Counter(true, Some(0))], born := s.born + {run})
    case Legacy(run, held) =>
      if run in s.runs || !IsInbox(held, run) then s
      else s.(runs := s.runs[run := Counter(true, None)], rows := s.rows + held)
    case Finish(run) => if run in s.runs then s.(runs := s.runs[run := s.runs[run].(live := false)]) else s
    case Call(pid, id) => if pid in s.procs then s else Move(s, pid, Read(id, 0))
    case Advance(pid) => if pid in s.procs then AdvanceProcess(s, pid) else s
    case Crash(pid) => s.(procs := s.procs - {pid})
  }

  const INITIAL: State := State(map[], map[], map[], {})

  ghost function After(schedule: seq<Action>): State {
    if schedule == [] then INITIAL else Step(After(schedule[..|schedule| - 1]), schedule[|schedule| - 1])
  }

  // ---- the numbers of one run ----

  function Last(s: State, run: RunId): nat {
    if run in s.runs && s.runs[run].last.Some? then s.runs[run].last.value else 0
  }

  /** A message with its number, on its way into the run's inbox and not there yet. */
  predicate Coming(s: State, p: Pid, run: RunId) {
    p in s.procs && s.procs[p].Insert? && s.procs[p].id.toRun == run && s.procs[p].id !in s.rows
  }

  predicate Apart(s: State, p: Pid, q: Pid, run: RunId) {
    Coming(s, p, run) && Coming(s, q, run) && s.procs[p].id != s.procs[q].id ==> s.procs[p].num != s.procs[q].num
  }

  ghost predicate Untaken(rows: map<MessageId, nat>, run: RunId, num: nat) {
    forall id :: id in rows && id.toRun == run ==> rows[id] != num
  }

  /** `top` is no lower than any number a row of the run holds or is about to. */
  ghost predicate Covers(s: State, run: RunId, top: nat) {
    && (forall id :: id in s.rows && id.toRun == run ==> s.rows[id] <= top)
    && (forall p :: Coming(s, p, run) ==> s.procs[p].num <= top)
  }

  ghost predicate ComingApart(s: State, run: RunId) {
    && (forall p, q :: p in s.procs && q in s.procs ==> Apart(s, p, q, run))
    && (forall p :: Coming(s, p, run) ==> Untaken(s.rows, run, s.procs[p].num))
  }

  /** Every number on its way in is free, is no other message's, and with those held is at most the counter. */
  ghost predicate Sound(s: State, run: RunId) {
    && ComingApart(s, run)
    && (run in s.runs && s.runs[run].last.Some? ==> Covers(s, run, s.runs[run].last.value))
  }

  /** Process `pid` is about to write `seed` into the run's counter, whatever it holds by then. */
  predicate Seeds(s: State, pid: Pid, run: RunId) {
    pid in s.procs && s.procs[pid].Seed? && s.procs[pid].id.toRun == run
  }

  // ---- what holds of every run, however it was seeded ----

  predicate AtHome(s: State, p: Process) {
    p.ReadMax? || p.Seed? || p.Insert? ==> p.id.toRun in s.runs
  }

  /** Nothing is numbered while the counter is absent, so a highest number read stays the highest. */
  ghost predicate WaitsForSeed(s: State, p: Process) {
    p.id.toRun in s.runs && s.runs[p.id.toRun].last == None ==>
      !p.Insert? && (p.Seed? ==> IsMax(s.rows, p.id.toRun, p.seed))
  }

  predicate BornUnseeded(s: State, p: Process) {
    p.id.toRun in s.born ==> !p.ReadMax? && !p.Seed? && (p.Insert? ==> p.num >= 1)
  }

  ghost predicate TablesOk(s: State) {
    && (forall id :: id in s.rows ==> id.toRun in s.runs)
    && (forall run :: run in s.born ==> run in s.runs && s.runs[run].last.Some?)
    && (forall id :: id in s.rows && id.toRun in s.born ==> s.rows[id] >= 1)
  }

  /** What the unique index sees to. */
  ghost predicate RowsApart(s: State) {
    forall a, b :: a in s.rows && b in s.rows && a != b && a.toRun == b.toRun ==> s.rows[a] != s.rows[b]
  }

  ghost predicate ProcOk(s: State, p: Process) {
    AtHome(s, p) && WaitsForSeed(s, p) && BornUnseeded(s, p)
  }

  ghost predicate Inv(s: State) {
    TablesOk(s) && RowsApart(s) && forall pid :: pid in s.procs ==> ProcOk(s, s.procs[pid])
  }

  /** What a step may do to the tables without disturbing another process. */
  ghost predicate Spares(s: State, s': State) {
    && s.born <= s'.born
    && (forall run :: run in s'.born && run !in s.born ==> run !in s.runs)
    && (forall run :: run in s.runs ==> run in s'.runs)
    && (forall run :: run in s.runs && s'.runs[run].last == None ==> s.runs[run].last == None && SameRows(s, s', run))
  }

  ghost predicate SameRows(s: State, s': State, run: RunId) {
    forall id: MessageId :: id.toRun == run ==> (id in s.rows <==> id in s'.rows) && (id in s.rows ==> s.rows[id] == s'.rows[id])
  }

  lemma OthersAreSpared(s: State, s': State, p: Process)
    requires ProcOk(s, p) && Spares(s, s')
    ensures ProcOk(s', p)
  {
    var run := p.id.toRun;
    if p.Seed? && run in s'.runs && s'.runs[run].last == None {
      assert run in s.runs;
      SameMax(s, s', run, p.seed);
    }
  }

  lemma SameMax(s: State, s': State, run: RunId, top: nat)
    requires IsMax(s.rows, run, top) && SameRows(s, s', run)
    ensures IsMax(s'.rows, run, top)
  {
    if top != 0 {
      var id :| id in s.rows && id.toRun == run && s.rows[id] == top;
      assert id in s'.rows && s'.rows[id] == top;
    }
  }

  lemma InsertSpares(s: State, pid: Pid)
    requires pid in s.procs && s.procs[pid].Insert? && ProcOk(s, s.procs[pid])
    ensures Spares(s, AdvanceProcess(s, pid))
  {
    var s' := AdvanceProcess(s, pid);
    assert forall run :: run != s.procs[pid].id.toRun ==> SameRows(s, s', run);
  }

  lemma AdvanceSpares(s: State, pid: Pid)
    requires pid in s.procs && ProcOk(s, s.procs[pid])
    ensures Spares(s, AdvanceProcess(s, pid))
  {
    if s.procs[pid].Insert? {
      InsertSpares(s, pid);
    } else {
      assert AdvanceProcess(s, pid).rows == s.rows;
    }
  }

  lemma AdvanceKeepsTables(s: State, pid: Pid)
    requires TablesOk(s) && pid in s.procs && ProcOk(s, s.procs[pid])
    ensures TablesOk(AdvanceProcess(s, pid))
  {
  }

  lemma AdvanceKeepsRowsApart(s: State, pid: Pid)
    requires RowsApart(s) && pid in s.procs
    ensures RowsApart(AdvanceProcess(s, pid))
  {
  }

  lemma MovedIsOk(s: State, pid: Pid)
    requires Inv(s) && pid in s.procs
    ensures var s' := AdvanceProcess(s, pid); ProcOk(s', s'.procs[pid])
  {
    assert ProcOk(s, s.procs[pid]);
  }

  lemma AdvanceKeepsInv(s: State, pid: Pid)
    requires Inv(s) && pid in s.procs
    ensures Inv(AdvanceProcess(s, pid))
  {
    assert ProcOk(s, s.procs[pid]);
    AdvanceSpares(s, pid);
    AdvanceKeepsTables(s, pid);
    AdvanceKeepsRowsApart(s, pid);
    MovedIsOk(s, pid);
    var s' := AdvanceProcess(s, pid);
    forall q | q in s'.procs && q != pid
      ensures ProcOk(s', s'.procs[q])
    {
      assert s'.procs[q] == s.procs[q];
      OthersAreSpared(s, s', s.procs[q]);
    }
  }

  lemma OutsideSpares(s: State, a: Action)
    requires TablesOk(s) && (a.Create? || a.Finish?)
    ensures Spares(s, Step(s, a)) && Step(s, a).procs == s.procs
  {
  }

  lemma LegacySpares(s: State, run: RunId, held: map<MessageId, nat>)
    requires TablesOk(s)
    ensures Spares(s, Step(s, Legacy(run, held))) && Step(s, Legacy(run, held)).procs == s.procs
  {
    if run !in s.runs && IsInbox(held, run) {
      assert forall other :: other in s.runs ==> SameRows(s, Step(s, Legacy(run, held)), other);
    }
  }

  lemma OutsideKeepsTables(s: State, a: Action)
    requires TablesOk(s) && RowsApart(s) && (a.Create? || a.Finish?)
    ensures TablesOk(Step(s, a)) && RowsApart(Step(s, a))
  {
  }

  lemma LegacyKeepsTables(s: State, run: RunId, held: map<MessageId, nat>)
    requires TablesOk(s) && RowsApart(s)
    ensures TablesOk(Step(s, Legacy(run, held))) && RowsApart(Step(s, Legacy(run, held)))
  {
    if run !in s.runs && IsInbox(held, run) {
      var rows := s.rows + held;
      assert forall id :: id in s.rows ==> id !in held;
      assert forall id :: id in rows ==> rows[id] == if id in held then held[id] else s.rows[id];
      assert run !in s.born;
    }
  }

  lemma StepKeepsInv(s: State, a: Action)
    requires Inv(s)
    ensures Inv(Step(s, a))
  {
    if a.Advance? && a.pid in s.procs {
      AdvanceKeepsInv(s, a.pid);
    } else if a.Create? || a.Legacy? || a.Finish? {
      if a.Legacy? {
        LegacySpares(s, a.run, a.held);
        LegacyKeepsTables(s, a.run, a.held);
      } else {
        OutsideSpares(s, a);
        OutsideKeepsTables(s, a);
      }
      forall q | q in s.procs
        ensures ProcOk(Step(s, a), s.procs[q])
      {
        OthersAreSpared(s, Step(s, a), s.procs[q]);
      }
    }
  }

  lemma {:induction false} AlwaysInv(schedule: seq<Action>)
    ensures Inv(After(schedule))
  {
    if schedule != [] {
      AlwaysInv(schedule[..|schedule| - 1]);
      StepKeepsInv(After(schedule[..|schedule| - 1]), schedule[|schedule| - 1]);
    }
  }

  // ---- what keeps one run's numbers sound ----

  ghost predicate NoneNewComing(s: State, s': State, run: RunId) {
    forall p :: Coming(s', p, run) ==> Coming(s, p, run) && s.procs[p] == s'.procs[p]
  }

  lemma QuietKeepsApart(s: State, s': State, run: RunId)
    requires ComingApart(s, run) && SameRows(s, s', run) && NoneNewComing(s, s', run)
    ensures ComingApart(s', run)
  {
    forall p, q | p in s'.procs && q in s'.procs
      ensures Apart(s', p, q, run)
    {
      assert Coming(s', p, run) && Coming(s', q, run) ==> Apart(s, p, q, run);
    }
    forall p | Coming(s', p, run)
      ensures Untaken(s'.rows, run, s'.procs[p].num)
    {
      assert Untaken(s.rows, run, s.procs[p].num);
    }
  }

  /** A step that numbers nothing of this run. */
  lemma QuietKeepsSound(s: State, s': State, run: RunId)
    requires Sound(s, run) && SameRows(s, s', run) && NoneNewComing(s, s', run)
    requires run in s'.runs && s'.runs[run].last.Some? ==> run in s.runs && s'.runs[run].last == s.runs[run].last
    ensures Sound(s', run)
  {
    QuietKeepsApart(s, s', run);
  }

  lemma MintKeepsSound(s: State, pid: Pid, run: RunId)
    requires Sound(s, run) && pid in s.procs && s.procs[pid].Mint? && s.procs[pid].id.toRun == run
    ensures Sound(AdvanceProcess(s, pid), run)
  {
    var s' := AdvanceProcess(s, pid);
    if s'.procs[pid].Insert? {
      forall p, q | p in s'.procs && q in s'.procs
        ensures Apart(s', p, q, run)
      {
        assert p != pid && q != pid ==> Apart(s, p, q, run);
        assert Coming(s', p, run) && p != pid ==> Coming(s, p, run);
        assert Coming(s', q, run) && q != pid ==> Coming(s, q, run);
      }
      forall p | Coming(s', p, run)
        ensures Untaken(s'.rows, run, s'.procs[p].num) && s'.procs[p].num <= s'.procs[pid].num
      {
        assert p != pid ==> Coming(s, p, run) && Untaken(s.rows, run, s.procs[p].num);
      }
    } else {
      QuietKeepsSound(s, s', run);
    }
  }

  lemma InsertKeepsSound(s: State, pid: Pid, run: RunId)
    requires Sound(s, run) && pid in s.procs && s.procs[pid].Insert? && s.procs[pid].id.toRun == run
    ensures Sound(AdvanceProcess(s, pid), run)
  {
    var p, s' := s.procs[pid], AdvanceProcess(s, pid);
    if s'.rows == s.rows {
      QuietKeepsSound(s, s', run);
    } else {
      assert Coming(s, pid, run);
      forall q | Coming(s', q, run)
        ensures q != pid && Coming(s, q, run) && s'.procs[q] == s.procs[q]
        ensures Untaken(s'.rows, run, s'.procs[q].num)
      {
        assert Apart(s, q, pid, run) && Untaken(s.rows, run, s.procs[q].num);
      }
      forall q, r | q in s'.procs && r in s'.procs
        ensures Apart(s', q, r, run)
      {
        assert Coming(s', q, run) && Coming(s', r, run) ==> Apart(s, q, r, run);
      }
    }
  }

  /** A seed is harmless exactly when it is no lower than any number its run's rows hold or are about to. */
  lemma SeedKeepsSoundIff(s: State, pid: Pid, run: RunId)
    requires Sound(s, run) && Seeds(s, pid, run) && run in s.runs
    ensures Sound(AdvanceProcess(s, pid), run) <==> Covers(s, run, s.procs[pid].seed)
  {
    var s' := AdvanceProcess(s, pid);
    QuietKeepsApart(s, s', run);
    forall p
      ensures Coming(s', p, run) == Coming(s, p, run) && (Coming(s, p, run) ==> s'.procs[p] == s.procs[p])
    {
    }
  }

  lemma NewRunIsSound(s: State, a: Action, run: RunId)
    requires Inv(s) && run !in s.runs && (a == Create(run) || (a.Legacy? && a.run == run))
    ensures Sound(Step(s, a), run)
  {
    var s' := Step(s, a);
    forall p
      ensures !Coming(s', p, run)
    {
      assert p in s.procs ==> ProcOk(s, s.procs[p]);
    }
  }

  /** The one step that could set this run's counter back does not. */
  ghost predicate SeedCovers(s: State, a: Action, run: RunId) {
    a.Advance? && Seeds(s, a.pid, run) ==> Covers(s, run, s.procs[a.pid].seed)
  }

  /** A step of another run's process, or one that neither numbers nor seeds. */
  lemma OtherKeepsSound(s: State, pid: Pid, run: RunId)
    requires Sound(s, run) && pid in s.procs
    requires var p := s.procs[pid]; ProcOk(s, p) && (p.id.toRun != run || p.Read? || p.ReadMax? || p.Reread? || p.Done?)
    ensures Sound(AdvanceProcess(s, pid), run)
  {
    var s' := AdvanceProcess(s, pid);
    assert SameRows(s, s', run);
    assert NoneNewComing(s, s', run);
    QuietKeepsSound(s, s', run);
  }

  lemma AdvanceKeepsSound(s: State, pid: Pid, run: RunId)
    requires Inv(s) && Sound(s, run) && SeedCovers(s, Advance(pid), run) && pid in s.procs
    ensures Sound(AdvanceProcess(s, pid), run)
  {
    var p := s.procs[pid];
    assert ProcOk(s, p);
    if p.id.toRun != run || !(p.Mint? || p.Insert? || p.Seed?) {
      OtherKeepsSound(s, pid, run);
    } else if p.Mint? {
      MintKeepsSound(s, pid, run);
    } else if p.Insert? {
      InsertKeepsSound(s, pid, run);
    } else {
      SeedKeepsSoundIff(s, pid, run);
    }
  }

  lemma StepKeepsSound(s: State, a: Action, run: RunId)
    requires Inv(s) && Sound(s, run) && SeedCovers(s, a, run)
    ensures Sound(Step(s, a), run)
  {
    if a.Advance? && a.pid in s.procs {
      AdvanceKeepsSound(s, a.pid, run);
    } else if (a.Create? || a.Legacy?) && a.run == run && run !in s.runs {
      NewRunIsSound(s, a, run);
    } else {
      assert SameRows(s, Step(s, a), run);
      assert NoneNewComing(s, Step(s, a), run);
      QuietKeepsSound(s, Step(s, a), run);
    }
  }

  // ---- which schedules seed a run soundly ----

  /** Every seed written into this run's counter covered its numbers. */
  ghost predicate SeedsCover(schedule: seq<Action>, run: RunId) {
    schedule == [] ||
    var less := schedule[..|schedule| - 1];
    SeedsCover(less, run) && SeedCovers(After(less), schedule[|schedule| - 1], run)
  }

  ghost predicate SeedFindsNone(s: State, a: Action, run: RunId) {
    a.Advance? && Seeds(s, a.pid, run) ==> run in s.runs && s.runs[run].last == None
  }

  /** Every seed written into this run's counter found it still absent. */
  ghost predicate SeedsFindNone(schedule: seq<Action>, run: RunId) {
    schedule == [] ||
    var less := schedule[..|schedule| - 1];
    SeedsFindNone(less, run) && SeedFindsNone(After(less), schedule[|schedule| - 1], run)
  }

  lemma {:induction false} AlwaysSound(schedule: seq<Action>, run: RunId)
    requires SeedsCover(schedule, run)
    ensures Sound(After(schedule), run)
  {
    if schedule != [] {
      var less := schedule[..|schedule| - 1];
      AlwaysSound(less, run);
      AlwaysInv(less);
      StepKeepsSound(After(less), schedule[|schedule| - 1], run);
    }
  }

  lemma AbsentIsCovered(s: State, pid: Pid, run: RunId)
    requires Inv(s) && Seeds(s, pid, run) && run in s.runs && s.runs[run].last == None
    ensures Covers(s, run, s.procs[pid].seed)
  {
    assert ProcOk(s, s.procs[pid]);
    forall p
      ensures !Coming(s, p, run)
    {
      assert p in s.procs ==> ProcOk(s, s.procs[p]);
    }
  }

  /** PINNING THE SEED WOULD DO. Where each seed is written into a counter still absent, what was read is
      still the run's highest number. */
  lemma {:induction false} FirstSeedCovers(schedule: seq<Action>, run: RunId)
    requires SeedsFindNone(schedule, run)
    ensures SeedsCover(schedule, run)
  {
    if schedule != [] {
      var less, a := schedule[..|schedule| - 1], schedule[|schedule| - 1];
      FirstSeedCovers(less, run);
      AlwaysInv(less);
      if a.Advance? && Seeds(After(less), a.pid, run) {
        AbsentIsCovered(After(less), a.pid, run);
      }
    }
  }

  lemma BornIsNoSeed(s: State, a: Action, run: RunId)
    requires Inv(s) && (run in s.born || run !in s.runs)
    ensures SeedFindsNone(s, a, run)
  {
    assert a.Advance? && a.pid in s.procs ==> ProcOk(s, s.procs[a.pid]);
  }

  lemma NotBornLater(s: State, a: Action, run: RunId)
    requires run in Step(s, a).born || run !in Step(s, a).runs
    ensures run in s.born || run !in s.runs
  {
  }

  /** A run whose counter was written at creation is never seeded. */
  lemma {:induction false} BornIsNeverSeeded(schedule: seq<Action>, run: RunId)
    requires run in After(schedule).born || run !in After(schedule).runs
    ensures SeedsFindNone(schedule, run)
  {
    if schedule != [] {
      var less, a := schedule[..|schedule| - 1], schedule[|schedule| - 1];
      AlwaysInv(less);
      NotBornLater(After(less), a, run);
      BornIsNeverSeeded(less, run);
      BornIsNoSeed(After(less), a, run);
    }
  }

  lemma BornIsCovered(schedule: seq<Action>, run: RunId)
    requires run in After(schedule).born
    ensures SeedsCover(schedule, run)
  {
    BornIsNeverSeeded(schedule, run);
    FirstSeedCovers(schedule, run);
  }

  // ---- main results ----

  /** INBOX NUMBERING. Of every run whose seeds covered its numbers, whatever rows it began with, the rows
      carry pairwise distinct numbers, none above the counter once there is one; a born run is such a run.
      A key of one sender names at most one row, as the row id is derived from the triple. */
  lemma NumbersAreDistinct(schedule: seq<Action>, run: RunId)
    requires SeedsCover(schedule, run) || run in After(schedule).born
    ensures var s := After(schedule);
            && (forall a, b :: a in s.rows && b in s.rows && a != b && a.toRun == b.toRun == run ==> s.rows[a] != s.rows[b])
            && (forall id :: id in s.rows && id.toRun == run ==> run in s.runs && (s.runs[run].last.Some? ==> s.rows[id] <= Last(s, run)))
            && (run in s.born ==> run in s.runs && s.runs[run].last.Some? && forall id :: id in s.rows && id.toRun == run ==> 1 <= s.rows[id])
  {
    AlwaysInv(schedule);
    if run in After(schedule).born {
      BornIsCovered(schedule, run);
    }
    AlwaysSound(schedule, run);
  }

  /** Whatever the admission calls a redelivery is one: an insert never loses to a number, only to the very
      row it would have written. */
  lemma ConflictIsRedelivery(schedule: seq<Action>, pid: Pid)
    requires pid in After(schedule).procs && After(schedule).procs[pid].Insert?
    requires var run := After(schedule).procs[pid].id.toRun; SeedsCover(schedule, run) || run in After(schedule).born
    ensures var s := After(schedule); var p := s.procs[pid];
            Conflicts(s.rows, p.id, p.num) <==> p.id in s.rows
  {
    var s := After(schedule);
    var run := s.procs[pid].id.toRun;
    if run in s.born {
      BornIsCovered(schedule, run);
    }
    AlwaysSound(schedule, run);
    assert Coming(s, pid, run) ==> Untaken(s.rows, run, s.procs[pid].num);
  }

  /** A number is minted only while the run is live, and one at a time: of a run with a counter, only a seed
      moves it otherwise, and a born run has no seeds. */
  lemma MintsOnlyWhileLive(schedule: seq<Action>, a: Action, run: RunId)
    requires run in After(schedule).runs && After(schedule).runs[run].last.Some?
    ensures var s, s' := After(schedule), Step(After(schedule), a);
            || Last(s', run) == Last(s, run)
            || (Last(s', run) == Last(s, run) + 1 && s.runs[run].live && s'.runs[run].live)
            || (a.Advance? && Seeds(s, a.pid, run) && run !in s.born)
  {
    AlwaysInv(schedule);
    var s := After(schedule);
    if a.Advance? && a.pid in s.procs {
      assert ProcOk(s, s.procs[a.pid]);
    }
  }

  // ---- when a message can be lost ----

  ghost function Continue(s: State, more: seq<Action>): State
    decreases |more|
  {
    if more == [] then s else Continue(Step(s, more[0]), more[1..])
  }

  /** Nobody seeds this run on the way. */
  ghost predicate SeedFree(s: State, more: seq<Action>, run: RunId)
    decreases |more|
  {
    more == [] || (!(more[0].Advance? && Seeds(s, more[0].pid, run)) && SeedFree(Step(s, more[0]), more[1..], run))
  }

  /** A message no row holds, about to be answered as already known. */
  ghost predicate Doomed(s: State, p: Pid, run: RunId) {
    Coming(s, p, run) && Conflicts(s.rows, s.procs[p].id, s.procs[p].num)
  }

  ghost predicate Dooms(s: State, more: seq<Action>, p: Pid, run: RunId) {
    SeedFree(s, more, run) && Doomed(Continue(s, more), p, run)
  }

  /** With no further seed the run can still come to lose a message. */
  ghost predicate CanLose(s: State, run: RunId) {
    exists more, p :: Dooms(s, more, p, run)
  }

  lemma {:induction false} SoundLosesNothing(s: State, more: seq<Action>, p: Pid, run: RunId)
    requires Inv(s) && Sound(s, run) && SeedFree(s, more, run)
    ensures !Doomed(Continue(s, more), p, run)
    decreases |more|
  {
    if more == [] {
      assert Coming(s, p, run) ==> Untaken(s.rows, run, s.procs[p].num);
    } else {
      StepKeepsInv(s, more[0]);
      StepKeepsSound(s, more[0], run);
      SoundLosesNothing(Step(s, more[0]), more[1..], p, run);
    }
  }

  lemma DoomedCanLose(s: State, p: Pid, run: RunId)
    requires Doomed(s, p, run)
    ensures CanLose(s, run)
  {
    var none: seq<Action> := [];
    assert Dooms(s, none, p, run);
  }

  lemma StepCanLose(s: State, a: Action, run: RunId)
    requires CanLose(Step(s, a), run) && !(a.Advance? && Seeds(s, a.pid, run))
    ensures CanLose(s, run)
  {
    var more, p :| Dooms(Step(s, a), more, p, run);
    var all := [a] + more;
    assert all[0] == a && all[1..] == more;
    assert Dooms(s, all, p, run);
  }

  lemma {:induction false} FreshNat(taken: set<nat>) returns (n: nat)
    ensures forall m :: m in taken ==> m < n
    decreases |taken|
  {
    n := 0;
    if taken != {} {
      var m :| m in taken;
      var rest := taken - {m};
      var k := FreshNat(rest);
      n := if k > m then k else m + 1;
      assert forall other :: other in taken ==> other == m || other in rest;
    }
  }

  lemma FreshSender(s: State, run: RunId) returns (p: Pid, id: MessageId)
    ensures p !in s.procs && id !in s.rows && id.toRun == run
  {
    p := FreshNat(s.procs.Keys);
    assert p !in s.procs.Keys;
    var keys := set other | other in s.rows && other.key.Client? :: other.key.key;
    var key := FreshNat(keys);
    id := MessageId(run, 0, Client(key));
    assert id in s.rows ==> key in keys;
  }

  /** With the counter below a row's number, fresh messages are numbered up to it, and one meets it. */
  lemma {:induction false} LowCounterLoses(s: State, run: RunId, above: MessageId)
    requires run in s.runs && s.runs[run].live && s.runs[run].last.Some?
    requires above in s.rows && above.toRun == run && s.rows[above] > s.runs[run].last.value
    ensures CanLose(s, run)
    decreases s.rows[above] - s.runs[run].last.value
  {
    var last := s.runs[run].last.value;
    var p, id := FreshSender(s, run);
    var s1 := Step(s, Call(p, id));
    var s2 := Step(s1, Advance(p));
    var s3 := Step(s2, Advance(p));
    assert s3.rows == s.rows && s3.procs[p] == Insert(id, last + 1);
    if Conflicts(s.rows, id, last + 1) {
      DoomedCanLose(s3, p, run);
    } else {
      var s4 := Step(s3, Advance(p));
      assert s4.rows == s.rows[id := last + 1] && s4.runs[run] == Counter(true, Some(last + 1));
      LowCounterLoses(s4, run, above);
      StepCanLose(s3, Advance(p), run);
    }
    StepCanLose(s2, Advance(p), run);
    StepCanLose(s1, Advance(p), run);
    StepCanLose(s, Call(p, id), run);
  }

  lemma UncoveredLoses(s: State, run: RunId)
    requires run in s.runs && s.runs[run].live && s.runs[run].last.Some? && !Covers(s, run, s.runs[run].last.value)
    ensures CanLose(s, run)
  {
    var last := s.runs[run].last.value;
    if id :| id in s.rows && id.toRun == run && s.rows[id] > last {
      LowCounterLoses(s, run, id);
    } else {
      var p :| Coming(s, p, run) && s.procs[p].num > last;
      if Doomed(s, p, run) {
        DoomedCanLose(s, p, run);
      } else {
        LowCounterLoses(Step(s, Advance(p)), run, s.procs[p].id);
        StepCanLose(s, Advance(p), run);
      }
    }
  }

  lemma MeetingLoses(s: State, run: RunId)
    requires !ComingApart(s, run)
    ensures CanLose(s, run)
  {
    if p :| Coming(s, p, run) && Conflicts(s.rows, s.procs[p].id, s.procs[p].num) {
      DoomedCanLose(s, p, run);
    } else {
      var p, q :| p in s.procs && q in s.procs && !Apart(s, p, q, run);
      var s' := Step(s, Advance(p));
      assert s'.rows == s.rows[s.procs[p].id := s.procs[p].num];
      assert Doomed(s', q, run);
      DoomedCanLose(s', q, run);
      StepCanLose(s, Advance(p), run);
    }
  }

  /** SOUND IS EXACT. A live run left unseeded can come to answer a new message as already known if and only
      if its numbers are not sound; for any run soundness is enough. */
  lemma CanLoseIffUnsound(schedule: seq<Action>, run: RunId)
    requires run in After(schedule).runs && After(schedule).runs[run].live
    ensures CanLose(After(schedule), run) <==> !Sound(After(schedule), run)
  {
    var s := After(schedule);
    AlwaysInv(schedule);
    if Sound(s, run) {
      forall more, p | SeedFree(s, more, run)
        ensures !Dooms(s, more, p, run)
      {
        SoundLosesNothing(s, more, p, run);
      }
    } else if !ComingApart(s, run) {
      MeetingLoses(s, run);
    } else {
      UncoveredLoses(s, run);
    }
  }

  /** THE SEED RACE. Of a live run with sound numbers, the write of a seed makes a message liable to be lost if
      and only if the seed is below a number some row holds or a message on its way in will. */
  lemma SeedLosesIffBelow(schedule: seq<Action>, pid: Pid, run: RunId)
    requires var s := After(schedule); run in s.runs && s.runs[run].live && Seeds(s, pid, run) && Sound(s, run)
    ensures CanLose(After(schedule + [Advance(pid)]), run) <==> !Covers(After(schedule), run, After(schedule).procs[pid].seed)
  {
    AfterAppend(schedule, Advance(pid));
    SeedKeepsSoundIff(After(schedule), pid, run);
    CanLoseIffUnsound(schedule + [Advance(pid)], run);
  }

  // ---- one admission nobody disturbs ----

  /** An admission of a run with a counter, undisturbed: none for a missing run; a finished one bounces; a live one counts one
      more, and the message is admitted under that number unless the id or the number is taken. */
  lemma UndisturbedAdmission(s: State, pid: Pid, id: MessageId, tries: nat)
    requires pid in s.procs && s.procs[pid] == Read(id, tries) && (id.toRun in s.runs ==> s.runs[id.toRun].last.Some?)
    ensures var s1 := AdvanceProcess(s, pid); id.toRun !in s.runs ==> s1.procs[pid] == Done(id, NoSuchRun) && s1 == s.(procs := s1.procs)
    ensures id.toRun in s.runs ==>
              var s3, counter := AdvanceProcess(AdvanceProcess(AdvanceProcess(s, pid), pid), pid), s.runs[id.toRun];
              var num := counter.last.value + 1; var taken := Conflicts(s.rows, id, num);
              && pid in s3.procs && s3.procs[pid] == Done(id, if !counter.live then Bounced else if taken then AlreadyKnown(num) else Admitted(num))
              && s3.runs == (if counter.live then s.runs[id.toRun := Counter(true, Some(num))] else s.runs)
              && s3.rows == (if counter.live && !taken then s.rows[id := num] else s.rows)
              && (forall q :: q in s.procs && q != pid ==> q in s3.procs && s3.procs[q] == s.procs[q])
  {
  }

  /** The eighth attempt in a row that finds its run live, and its counter moved, is the last. */
  lemma GivesUpAtEight(s: State, pid: Pid, id: MessageId)
    requires pid in s.procs && s.procs[pid] == Reread(id, 7) && id.toRun in s.runs && s.runs[id.toRun].live
    ensures AdvanceProcess(s, pid) == Move(s, pid, Done(id, Contended))
  {
  }

  lemma TriesAgain(s: State, pid: Pid, id: MessageId, tries: nat)
    requires pid in s.procs && s.procs[pid] == Reread(id, tries) && tries < 7 && id.toRun in s.runs && s.runs[id.toRun].live
    ensures AdvanceProcess(s, pid) == Move(s, pid, Read(id, tries + 1))
  {
  }

  // ---- a run older than the counter ----

  lemma AfterAppend(schedule: seq<Action>, a: Action)
    ensures After(schedule + [a]) == Step(After(schedule), a)
  {
    assert (schedule + [a])[..|schedule|] == schedule;
  }

  function Id(key: nat): MessageId {
    MessageId(0, 0, Client(key))
  }

  const HELD: map<MessageId, nat> := map[Id(0) := 3]

  lemma HeldIsTop()
    ensures IsInbox(HELD, 0) && MaxOf(HELD, 0) == 3
  {
    assert IsMax(HELD, 0, MaxOf(HELD, 0)) && HELD[Id(0)] == 3;
  }

  predicate Unseeded(s: State) {
    s.rows == HELD && s.runs == map[0 := Counter(true, None)] && s.born == {}
  }

  lemma OneStep(schedule: seq<Action>, a: Action, pid: Pid, p: Process) returns (longer: seq<Action>)
    requires Unseeded(After(schedule)) && Step(After(schedule), a) == After(schedule).(procs := After(schedule).procs[pid := p])
    ensures After(longer) == After(schedule).(procs := After(schedule).procs[pid := p])
  {
    longer := schedule + [a];
    AfterAppend(schedule, a);
  }

  /** A sender that meets the unseeded run reads its highest number. */
  lemma ReadsTop(schedule: seq<Action>, pid: Pid, id: MessageId) returns (longer: seq<Action>)
    requires Unseeded(After(schedule)) && pid !in After(schedule).procs && id.toRun == 0
    ensures After(longer) == After(schedule).(procs := After(schedule).procs[pid := Seed(id, 0, 3)])
  {
    HeldIsTop();
    longer := OneStep(schedule, Call(pid, id), pid, Read(id, 0));
    longer := OneStep(longer, Advance(pid), pid, ReadMax(id, 0));
    longer := OneStep(longer, Advance(pid), pid, Seed(id, 0, 3));
    ghost var procs: map<Pid, Process> := After(schedule).procs;
    assert procs[pid := Read(id, 0)][pid := ReadMax(id, 0)][pid := Seed(id, 0, 3)] == procs[pid := Seed(id, 0, 3)];
  }

  function Meeting(procs: map<Pid, Process>): State {
    State(map[0 := Counter(true, None)], HELD, procs, {})
  }

  lemma LegacyMeets()
    ensures Step(INITIAL, Legacy(0, HELD)) == Meeting(map[])
  {
    HeldIsTop();
    assert map[] + HELD == HELD;
  }

  lemma OldRun() returns (schedule: seq<Action>)
    ensures After(schedule) == Meeting(map[])
  {
    LegacyMeets();
    schedule := [Legacy(0, HELD)];
    assert schedule[..|schedule| - 1] == [];
  }

  /** Two senders meet a run of one old row, numbered 3; both are about to write the seed 3. */
  lemma BothSeed() returns (schedule: seq<Action>)
    ensures After(schedule) == Meeting(map[1 := Seed(Id(1), 0, 3), 2 := Seed(Id(2), 0, 3)])
  {
    schedule := OldRun();
    schedule := ReadsTop(schedule, 1, Id(1));
    assert After(schedule).procs == map[1 := Seed(Id(1), 0, 3)];
    schedule := ReadsTop(schedule, 2, Id(2));
    assert After(schedule).procs == map[1 := Seed(Id(1), 0, 3), 2 := Seed(Id(2), 0, 3)];
  }

  /** The second is admitted as number 4 before the first writes its seed. */
  lemma OneAdmitted() returns (schedule: seq<Action>)
    ensures After(schedule) == State(map[0 := Counter(true, Some(4))], HELD[Id(2) := 4], map[1 := Seed(Id(1), 0, 3), 2 := Done(Id(2), Admitted(4))], {})
  {
    schedule := BothSeed();
    AfterAppend(schedule, Advance(2)); schedule := schedule + [Advance(2)];
    AfterAppend(schedule, Advance(2)); schedule := schedule + [Advance(2)];
    AfterAppend(schedule, Advance(2)); schedule := schedule + [Advance(2)];
    AfterAppend(schedule, Advance(2)); schedule := schedule + [Advance(2)];
  }

  /** SEEDING TWICE LOSES A MESSAGE. The seed write names no expected value, so it can set a counter
      back; the first sender's new message is then answered as already known, and no row holds it. */
  lemma SeedRaceDropsMessage() returns (schedule: seq<Action>)
    ensures var s := After(schedule);
            && 1 in s.procs && s.procs[1] == Done(Id(1), AlreadyKnown(4))
            && Id(1) !in s.rows
  {
    schedule := OneAdmitted();
    AfterAppend(schedule, Advance(1)); schedule := schedule + [Advance(1)];
    AfterAppend(schedule, Advance(1)); schedule := schedule + [Advance(1)];
    AfterAppend(schedule, Advance(1)); schedule := schedule + [Advance(1)];
    assert After(schedule).rows == HELD[Id(2) := 4];
    AfterAppend(schedule, Advance(1)); schedule := schedule + [Advance(1)];
  }
}
