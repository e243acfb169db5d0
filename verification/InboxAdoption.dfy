/** A conversation's messages over any chain of turns: what one run leaves unread the next one takes. */
module InboxAdoption {
  import opened Options
  import opened Tables
  import opened StorageOps
  import opened InboxSpec
  import opened RunSpec

  datatype Action =
    | Turn(run: RunId, principal: Option<Principal>, thread: Option<ThreadId>)
    | Send(id: MessageId, mode: Mode, body: Body)
    | Read(run: RunId, after: int, runAs: Option<Principal>)
    | SetStatus(run: RunId, status: RunStatus)

  /** Run ids are new, senders name their messages themselves, only a live run reads, and none revives. */
  predicate Enabled(db: Db, a: Action) {
    match a
    case Turn(run, _, _) => run !in db.runs
    case Send(id, _, _) => id.key.Client?
    case Read(run, _, _) => RunIsIn(db, run, NON_TERMINAL)
    case SetStatus(run, status) => run in db.runs && (Terminal(db.runs[run].status) ==> Terminal(status))
  }

  function Do(db: Db, a: Action): Db
    requires Enabled(db, a)
  {
    match a
    case Turn(run, principal, thread) => OpenRun(db, run, principal, thread)
    case Send(id, mode, body) => Admit(db, id, mode, body).0
    case Read(run, after, runAs) => Drain(db, run, after, runAs).db
    case SetStatus(run, status) => PutRun(db, run, db.runs[run].(status := status))
  }

  function Step(db: Db, a: Action): Db {
    if Enabled(db, a) then Do(db, a) else db
  }

  function After(history: seq<Action>): Db {
    if history == [] then Db(map[], map[], map[], [], []) else Step(After(history[..|history| - 1]), history[|history| - 1])
  }

  // ---- one message and its copies ----

  /** The message its sender wrote, of which this id names a copy. */
  function Root(id: MessageId): (r: MessageId)
    ensures r.key.Client?
    decreases id
  {
    match id.key
    case Client(_) => id
    case Adopted(original) => Root(original)
  }

  predicate IsLive(m: Message) {
    m.status != Withdrawn
  }

  /** How many rows hold a live copy of the message. */
  function LiveCopies(messages: seq<Message>, root: MessageId): nat {
    if messages == [] then 0
    else
      var last := messages[|messages| - 1];
      LiveCopies(messages[..|messages| - 1], root) + (if IsLive(last) && Root(last.id) == root then 1 else 0)
  }

  /** How many rows the message was itself admitted as. */
  function TimesSent(messages: seq<Message>, root: MessageId): nat {
    if messages == [] then 0
    else TimesSent(messages[..|messages| - 1], root) + (if messages[|messages| - 1].id == root then 1 else 0)
  }

  // ---- the invariant ----

  predicate DistinctIds(messages: seq<Message>) {
    forall i, j :: 0 <= i < j < |messages| ==> messages[i].id != messages[j].id
  }

  predicate RowOk(db: Db, m: Message) {
    && m.toRun == m.id.toRun && m.sender == m.id.sender
    && m.toRun in db.runs
    && 1 <= m.num <= db.runs[m.toRun].messageSeq
    && (m.status == Withdrawn ==> Terminal(db.runs[m.toRun].status))
  }

  predicate InOrder(messages: seq<Message>) {
    forall i, j :: 0 <= i < j < |messages| && messages[i].toRun == messages[j].toRun ==> messages[i].num < messages[j].num
  }

  predicate TableOk(db: Db) {
    && DistinctIds(db.messages)
    && (forall i :: 0 <= i < |db.messages| ==> RowOk(db, db.messages[i]))
    && InOrder(db.messages)
  }

  // ---- what is left over, in the order it is taken ----

  lemma {:induction false} InsertSplits(rows: seq<Message>, m: Message) returns (k: nat)
    ensures k <= |rows| && InsertByNum(rows, m) == rows[..k] + [m] + rows[k..]
    ensures k > 0 ==> rows[k - 1].num <= m.num
    ensures forall i :: k <= i < |rows| ==> rows[i].num > m.num
  {
    if rows == [] || rows[|rows| - 1].num <= m.num {
      k := |rows|;
    } else {
      var less := rows[..|rows| - 1];
      k := InsertSplits(less, m);
      assert rows[..k] + [m] + rows[k..] == less[..k] + [m] + less[k..] + [rows[|rows| - 1]];
    }
  }

  ghost predicate SameRows(a: seq<Message>, b: seq<Message>) {
    forall m :: m in a <==> m in b
  }

  lemma InsertIsSorted(rows: seq<Message>, m: Message)
    requires Sorted(rows) && DistinctIds(rows) && (forall x :: x in rows ==> x.id != m.id)
    ensures Sorted(InsertByNum(rows, m)) && DistinctIds(InsertByNum(rows, m))
    ensures SameRows(InsertByNum(rows, m), rows + [m])
  {
    var k := InsertSplits(rows, m);
    SpliceIsSorted(rows, k, m);
    SpliceIsDistinct(rows, k, m);
    assert rows == rows[..k] + rows[k..];
  }

  lemma SpliceIsSorted(rows: seq<Message>, k: nat, m: Message)
    requires Sorted(rows) && k <= |rows|
    requires k > 0 ==> rows[k - 1].num <= m.num
    requires forall i :: k <= i < |rows| ==> rows[i].num > m.num
    ensures Sorted(rows[..k] + [m] + rows[k..])
  {
    assert forall i :: 0 <= i < k ==> rows[i].num <= m.num;
  }

  lemma SpliceIsDistinct(rows: seq<Message>, k: nat, m: Message)
    requires DistinctIds(rows) && k <= |rows| && (forall i :: 0 <= i < |rows| ==> rows[i].id != m.id)
    ensures DistinctIds(rows[..k] + [m] + rows[k..])
  {
  }

  lemma {:induction false} SortIsSorted(rows: seq<Message>)
    requires DistinctIds(rows)
    ensures Sorted(SortByNum(rows)) && DistinctIds(SortByNum(rows)) && SameRows(SortByNum(rows), rows)
  {
    if rows != [] {
      var less, last := rows[..|rows| - 1], rows[|rows| - 1];
      SortIsSorted(less);
      LastIsNew(rows);
      assert forall x :: x in SortByNum(less) ==> x in less;
      InsertIsSorted(SortByNum(less), last);
      assert rows == less + [last];
      assert SortByNum(rows) == InsertByNum(SortByNum(less), last);
    }
  }

  lemma LastIsNew(rows: seq<Message>)
    requires DistinctIds(rows) && rows != []
    ensures DistinctIds(rows[..|rows| - 1]) && forall x :: x in rows[..|rows| - 1] ==> x.id != rows[|rows| - 1].id
  {
  }

  lemma {:induction false} SelectIsDistinct(rows: seq<Message>, keep: Message -> bool)
    requires DistinctIds(rows)
    ensures DistinctIds(Select(rows, keep))
  {
    if rows != [] {
      var less, last := rows[..|rows| - 1], rows[|rows| - 1];
      SelectIsDistinct(less, keep);
      SelectMembers(less, keep);
      forall x | x in Select(less, keep)
        ensures x.id != last.id
      {
        var i :| 0 <= i < |less| && less[i] == x;
      }
    }
  }

  /** What is left over: each unread message of the thread's finished runs, once, by number. */
  lemma LeftOverRows(db: Db, thread: ThreadId, run: RunId)
    requires DistinctIds(db.messages)
    ensures var left := LeftOver(db, thread, run);
            && Sorted(left) && DistinctIds(left)
            && forall m :: m in left <==> m in db.messages && IsLeftOver(db, thread, run, m)
  {
    SelectIsDistinct(db.messages, LeftOverFor(db, thread, run));
    SelectMembers(db.messages, LeftOverFor(db, thread, run));
    SortIsSorted(Select(db.messages, LeftOverFor(db, thread, run)));
  }

  // ---- adoption, exactly ----

  /** The row the new run is given for a message it takes. */
  function Copy(m: Message, run: RunId, num: nat): Message {
    Message(MessageId(run, m.sender, Adopted(m.id)), run, AdoptedMode(m.mode), m.body, m.sender, num, Unread)
  }

  function Copies(left: seq<Message>, run: RunId): (r: seq<Message>)
    ensures |r| == |left|
  {
    seq(|left|, i requires 0 <= i < |left| => Copy(left[i], run, i + 1))
  }

  predicate Names(rows: seq<Message>, id: MessageId) {
    exists k :: 0 <= k < |rows| && rows[k].id == id
  }

  /** The table with the messages taken withdrawn. */
  function Taken(messages: seq<Message>, left: seq<Message>): (r: seq<Message>)
    ensures |r| == |messages|
  {
    seq(|messages|, i requires 0 <= i < |messages| =>
      if messages[i].status == Unread && Names(left, messages[i].id) then messages[i].(status := Withdrawn) else messages[i])
  }

  function Adopting(db: Db, left: seq<Message>, run: RunId): Db
    requires run in db.runs
  {
    db.(messages := Taken(db.messages, left) + Copies(left, run), runs := db.runs[run := db.runs[run].(messageSeq := |left|)])
  }

  /** The run was just created: live, uncounted, and no row is its own. */
  predicate JustCreated(db: Db, run: RunId) {
    && run in db.runs && !Terminal(db.runs[run].status) && db.runs[run].messageSeq == 0
    && forall i :: 0 <= i < |db.messages| ==> db.messages[i].toRun != run && db.messages[i].id.toRun != run
  }

  lemma NoConflict(db: Db, left: seq<Message>, k: nat, run: RunId)
    requires JustCreated(db, run) && k < |left| && DistinctIds(left)
    ensures !Conflicts(Adopting(db, left[..k], run).messages, MessageId(run, left[k].sender, Adopted(left[k].id)), run, k + 1)
  {
    var messages := Adopting(db, left[..k], run).messages;
    forall i | 0 <= i < |messages|
      ensures messages[i].id != MessageId(run, left[k].sender, Adopted(left[k].id)) && (messages[i].toRun == run ==> messages[i].num != k + 1)
    {
      if i >= |db.messages| {
        assert messages[i] == Copy(left[i - |db.messages|], run, i - |db.messages| + 1);
      }
    }
  }

  lemma AdoptsNext(db: Db, left: seq<Message>, k: nat, run: RunId)
    requires JustCreated(db, run) && k < |left| && DistinctIds(left)
    requires left[k] in db.messages && left[k].status == Unread
    ensures AdoptOne(Adopting(db, left[..k], run), left[k], run) == Adopting(db, left[..k + 1], run)
    ensures Adopting(db, left[..k + 1], run).messages ==
              Withdraw(Adopting(db, left[..k], run).messages + [Copy(left[k], run, k + 1)], left[k].id)
  {
    NoConflict(db, left, k, run);
    var before, after := Adopting(db, left[..k], run), Adopting(db, left[..k + 1], run);
    var row := Copy(left[k], run, k + 1);
    var result := AdoptOne(before, left[k], run);
    assert result.messages == Withdraw(before.messages + [row], left[k].id);
    forall i | 0 <= i < |result.messages|
      ensures result.messages[i] == after.messages[i]
    {
      if i < |db.messages| {
        NamesOneMore(left, k, db.messages[i].id);
      }
    }
    assert result.messages == after.messages;
  }

  lemma NamesOneMore(left: seq<Message>, k: nat, id: MessageId)
    requires k < |left|
    ensures Names(left[..k + 1], id) <==> Names(left[..k], id) || left[k].id == id
  {
    if Names(left[..k], id) {
      var i :| 0 <= i < k && left[..k][i].id == id;
      assert left[..k + 1][i].id == id;
    }
    if left[k].id == id {
      assert left[..k + 1][k].id == id;
    }
  }

  lemma {:induction false} AdoptsRest(db: Db, left: seq<Message>, k: nat, run: RunId)
    requires JustCreated(db, run) && k <= |left| && DistinctIds(left)
    requires forall m :: m in left ==> m in db.messages && m.status == Unread
    ensures AdoptAll(Adopting(db, left[..k], run), left[k..], run) == Adopting(db, left, run)
    decreases |left| - k
  {
    if k == |left| {
      assert left[..k] == left;
    } else {
      AdoptsNext(db, left, k, run);
      AdoptsRest(db, left, k + 1, run);
      assert left[k..][0] == left[k] && left[k..][1..] == left[k + 1..];
    }
  }

  /** The database as a turn finds it once its own run is created. */
  function Created(db: Db, run: RunId, principal: Option<Principal>, thread: Option<ThreadId>): Db {
    PutRun(db, run, NewRun(principal, thread))
  }

  function LeftFor(db: Db, run: RunId, thread: Option<ThreadId>): seq<Message> {
    if thread.Some? then LeftOver(db, thread.value, run) else []
  }

  /** ADOPTION, EXACTLY. Opening a run withdraws the messages left over on its thread, one and all, and
      appends a copy of each, numbered from 1 in the order they were left. */
  lemma OpenRunAdopts(db: Db, run: RunId, principal: Option<Principal>, thread: Option<ThreadId>)
    requires TableOk(db) && run !in db.runs
    ensures var created := Created(db, run, principal, thread);
            OpenRun(db, run, principal, thread) == Adopting(created, LeftFor(created, run, thread), run)
  {
    var created := Created(db, run, principal, thread);
    var left := LeftFor(created, run, thread);
    NothingAdopted(created, run);
    CreatedIsOk(db, run, principal, thread);
    LeftForRows(created, run, thread);
    AdoptsRest(created, left, 0, run);
    assert left[..0] == [] && left[0..] == left;
  }

  lemma NothingAdopted(db: Db, run: RunId)
    requires run in db.runs && db.runs[run].messageSeq == 0
    ensures Adopting(db, [], run) == db
  {
    assert Taken(db.messages, []) + Copies([], run) == db.messages;
    assert db.runs[run := db.runs[run].(messageSeq := 0)] == db.runs;
  }

  // ---- the table stays in order ----

  lemma AdoptingIsDistinct(db: Db, left: seq<Message>, run: RunId)
    requires JustCreated(db, run) && DistinctIds(db.messages) && DistinctIds(left)
    ensures DistinctIds(Adopting(db, left, run).messages)
  {
    var messages := Adopting(db, left, run).messages;
    forall i, j | 0 <= i < j < |messages|
      ensures messages[i].id != messages[j].id
    {
      if i >= |db.messages| {
        assert left[i - |db.messages|].id != left[j - |db.messages|].id;
      }
    }
  }

  lemma AdoptingKeepsTable(db: Db, left: seq<Message>, run: RunId)
    requires TableOk(db) && JustCreated(db, run) && DistinctIds(left)
    requires forall m :: m in left ==> m in db.messages && m.toRun in db.runs && Terminal(db.runs[m.toRun].status)
    ensures TableOk(Adopting(db, left, run))
  {
    AdoptingIsDistinct(db, left, run);
    AdoptingKeepsOrder(db, left, run);
    var db' := Adopting(db, left, run);
    forall i | 0 <= i < |db'.messages|
      ensures RowOk(db', db'.messages[i])
    {
      if i < |db.messages| {
        assert RowOk(db, db.messages[i]);
        if Names(left, db.messages[i].id) {
          NamedIsFinished(db, left, i);
        }
      }
    }
  }

  lemma AdoptingKeepsOrder(db: Db, left: seq<Message>, run: RunId)
    requires InOrder(db.messages) && JustCreated(db, run)
    ensures InOrder(Adopting(db, left, run).messages)
  {
    var n, messages := |db.messages|, Adopting(db, left, run).messages;
    forall i, j | 0 <= i < j < |messages| && messages[i].toRun == messages[j].toRun
      ensures messages[i].num < messages[j].num
    {
      assert i >= n ==> messages[i] == Copy(left[i - n], run, i - n + 1);
      assert j >= n ==> messages[j] == Copy(left[j - n], run, j - n + 1);
      assert j < n ==> db.messages[i].num < db.messages[j].num;
    }
  }

  lemma NamedIsFinished(db: Db, left: seq<Message>, i: nat)
    requires DistinctIds(db.messages) && i < |db.messages| && Names(left, db.messages[i].id)
    requires forall m :: m in left ==> m in db.messages && m.toRun in db.runs && Terminal(db.runs[m.toRun].status)
    ensures var run := db.messages[i].toRun; run in db.runs && Terminal(db.runs[run].status)
  {
    var k :| 0 <= k < |left| && left[k].id == db.messages[i].id;
    assert left[k] in left;
    var j :| 0 <= j < |db.messages| && db.messages[j] == left[k];
  }

  lemma CreatedIsOk(db: Db, run: RunId, principal: Option<Principal>, thread: Option<ThreadId>)
    requires TableOk(db) && run !in db.runs
    ensures var created := Created(db, run, principal, thread); TableOk(created) && JustCreated(created, run)
  {
    assert forall i :: 0 <= i < |db.messages| ==> RowOk(db, db.messages[i]);
  }

  lemma LeftForRows(db: Db, run: RunId, thread: Option<ThreadId>)
    requires DistinctIds(db.messages)
    ensures var left := LeftFor(db, run, thread);
            && Sorted(left) && DistinctIds(left)
            && (forall m :: m in left ==> m in db.messages && m.status == Unread && m.toRun in db.runs && Terminal(db.runs[m.toRun].status))
  {
    if thread.Some? {
      LeftOverRows(db, thread.value, run);
    }
  }

  lemma TurnKeepsTable(db: Db, run: RunId, principal: Option<Principal>, thread: Option<ThreadId>)
    requires TableOk(db) && run !in db.runs
    ensures TableOk(OpenRun(db, run, principal, thread))
  {
    var created := Created(db, run, principal, thread);
    OpenRunAdopts(db, run, principal, thread);
    CreatedIsOk(db, run, principal, thread);
    LeftForRows(created, run, thread);
    AdoptingKeepsTable(created, LeftFor(created, run, thread), run);
  }

  lemma SendKeepsTable(db: Db, id: MessageId, mode: Mode, body: Body)
    requires TableOk(db)
    ensures TableOk(Admit(db, id, mode, body).0)
  {
    var (db', answer) := Admit(db, id, mode, body);
    if id.toRun in db.runs && !Terminal(db.runs[id.toRun].status) {
      var num := db.runs[id.toRun].messageSeq + 1;
      var minted := PutRun(db, id.toRun, db.runs[id.toRun].(messageSeq := num));
      MintKeepsTable(db, id.toRun, num);
      if answer.Admitted? {
        NewRowKeepsTable(minted, Message(id, id.toRun, mode, body, id.sender, num, Unread));
      }
    }
  }

  lemma MintKeepsTable(db: Db, run: RunId, num: nat)
    requires TableOk(db) && run in db.runs && num == db.runs[run].messageSeq + 1
    ensures TableOk(PutRun(db, run, db.runs[run].(messageSeq := num)))
    ensures forall i :: 0 <= i < |db.messages| && db.messages[i].toRun == run ==> db.messages[i].num < num
  {
    assert forall i :: 0 <= i < |db.messages| ==> RowOk(db, db.messages[i]);
  }

  lemma NewRowKeepsTable(db: Db, m: Message)
    requires TableOk(db) && RowOk(db, m)
    requires forall i :: 0 <= i < |db.messages| ==> db.messages[i].id != m.id && (db.messages[i].toRun == m.toRun ==> db.messages[i].num < m.num)
    ensures TableOk(db.(messages := db.messages + [m]))
  {
    assert forall i :: 0 <= i < |db.messages| ==> RowOk(db, db.messages[i]);
  }

  lemma DrainedRows(db: Db, run: RunId, after: int, runAs: Option<Principal>)
    requires DistinctIds(db.messages)
    ensures forall m :: m in Drain(db, run, after, runAs).delivered ==> m in db.messages && m.toRun == run
  {
    SelectIsDistinct(db.messages, DrainsFrom(run, after));
    SelectMembers(db.messages, DrainsFrom(run, after));
    SortIsSorted(Select(db.messages, DrainsFrom(run, after)));
    var rows := Drainable(db.messages, run, after);
    forall m | m in Own(rows, runAs)
      ensures m in db.messages && m.toRun == run
    {
      assert m in rows;
    }
  }

  /** Only statuses move, and none to `Withdrawn`. */
  predicate OnlyMarked(messages: seq<Message>, messages': seq<Message>) {
    |messages'| == |messages| &&
    forall i :: 0 <= i < |messages| ==> messages'[i] == messages[i] || messages'[i] == messages[i].(status := Delivered)
  }

  lemma MarkKeepsTable(db: Db, db': Db)
    requires TableOk(db) && db'.runs == db.runs && OnlyMarked(db.messages, db'.messages)
    ensures TableOk(db')
  {
    assert forall i :: 0 <= i < |db.messages| ==> RowOk(db, db.messages[i]);
  }

  lemma StepKeepsTable(db: Db, a: Action)
    requires TableOk(db)
    ensures TableOk(Step(db, a))
  {
    if Enabled(db, a) {
      match a
      case Turn(run, principal, thread) => TurnKeepsTable(db, run, principal, thread);
      case Send(id, mode, body) => SendKeepsTable(db, id, mode, body);
      case Read(run, after, runAs) => MarkKeepsTable(db, Drain(db, run, after, runAs).db);
      case SetStatus(run, status) => assert forall i :: 0 <= i < |db.messages| ==> RowOk(db, db.messages[i]);
    }
  }

  lemma {:induction false} AlwaysTableOk(history: seq<Action>)
    ensures TableOk(After(history))
  {
    if history != [] {
      AlwaysTableOk(history[..|history| - 1]);
      StepKeepsTable(After(history[..|history| - 1]), history[|history| - 1]);
    }
  }

  // ---- counting copies ----

  lemma CountsAppend(messages: seq<Message>, m: Message, root: MessageId)
    ensures LiveCopies(messages + [m], root) == LiveCopies(messages, root) + (if IsLive(m) && Root(m.id) == root then 1 else 0)
    ensures TimesSent(messages + [m], root) == TimesSent(messages, root) + (if m.id == root then 1 else 0)
  {
    assert (messages + [m])[..|messages|] == messages;
  }

  lemma WithdrawElsewhere(messages: seq<Message>, id: MessageId)
    requires forall i :: 0 <= i < |messages| ==> messages[i].id != id
    ensures Withdraw(messages, id) == messages
  {
  }

  lemma WithdrawAppend(less: seq<Message>, last: Message, id: MessageId)
    ensures Withdraw(less + [last], id) ==
              Withdraw(less, id) + [if last.id == id && last.status == Unread then last.(status := Withdrawn) else last]
  {
  }

  lemma {:induction false} WithdrawCounts(messages: seq<Message>, id: MessageId, root: MessageId)
    requires DistinctIds(messages)
    requires exists i :: 0 <= i < |messages| && messages[i].id == id && messages[i].status == Unread
    ensures LiveCopies(Withdraw(messages, id), root) == LiveCopies(messages, root) - (if Root(id) == root then 1 else 0)
    ensures TimesSent(Withdraw(messages, id), root) == TimesSent(messages, root)
  {
    var less, last := messages[..|messages| - 1], messages[|messages| - 1];
    assert messages == less + [last];
    WithdrawAppend(less, last, id);
    CountsAppend(less, last, root);
    if last.id == id {
      WithdrawElsewhere(less, id);
      CountsAppend(less, last.(status := Withdrawn), root);
    } else {
      var i :| 0 <= i < |messages| && messages[i].id == id && messages[i].status == Unread;
      assert less[i] == messages[i];
      WithdrawCounts(less, id, root);
      CountsAppend(Withdraw(less, id), last, root);
    }
  }

  /** A row appended as the copy of one that is then withdrawn changes no count. */
  lemma SwapKeepsCounts(before: seq<Message>, row: Message, id: MessageId, root: MessageId)
    requires DistinctIds(before + [row]) && root.key.Client? && row.id.key == Adopted(id) && IsLive(row)
    requires exists j :: 0 <= j < |before| && before[j].id == id && before[j].status == Unread
    ensures var after := Withdraw(before + [row], id);
            LiveCopies(after, root) == LiveCopies(before, root) && TimesSent(after, root) == TimesSent(before, root)
  {
    var j :| 0 <= j < |before| && before[j].id == id && before[j].status == Unread;
    assert (before + [row])[j] == before[j];
    CountsAppend(before, row, root);
    WithdrawCounts(before + [row], id, root);
  }

  lemma StillUnread(db: Db, left: seq<Message>, k: nat, run: RunId)
    requires run in db.runs && k < |left| && DistinctIds(left) && left[k] in db.messages && left[k].status == Unread
    ensures var before := Adopting(db, left[..k], run).messages;
            exists j :: 0 <= j < |before| && before[j].id == left[k].id && before[j].status == Unread
  {
    var j :| 0 <= j < |db.messages| && db.messages[j] == left[k];
    var before := Adopting(db, left[..k], run).messages;
    assert !Names(left[..k], left[k].id);
    assert before[j] == db.messages[j];
  }

  lemma AdoptsNextKeepsCounts(db: Db, left: seq<Message>, k: nat, run: RunId, root: MessageId)
    requires JustCreated(db, run) && k < |left| && DistinctIds(left) && DistinctIds(db.messages) && root.key.Client?
    requires left[k] in db.messages && left[k].status == Unread
    ensures var before, after := Adopting(db, left[..k], run).messages, Adopting(db, left[..k + 1], run).messages;
            LiveCopies(after, root) == LiveCopies(before, root) && TimesSent(after, root) == TimesSent(before, root)
  {
    var before, after := Adopting(db, left[..k], run).messages, Adopting(db, left[..k + 1], run).messages;
    var row := Copy(left[k], run, k + 1);
    AdoptsNext(db, left, k, run);
    AdoptingIsDistinct(db, left[..k + 1], run);
    SameIdsDistinct(before + [row], after);
    StillUnread(db, left, k, run);
    SwapKeepsCounts(before, row, left[k].id, root);
  }

  lemma SameIdsDistinct(a: seq<Message>, b: seq<Message>)
    requires DistinctIds(b) && |a| == |b| && forall i :: 0 <= i < |a| ==> a[i].id == b[i].id
    ensures DistinctIds(a)
  {
  }

  lemma {:induction false} AdoptingKeepsCounts(db: Db, left: seq<Message>, k: nat, run: RunId, root: MessageId)
    requires JustCreated(db, run) && k <= |left| && DistinctIds(left) && DistinctIds(db.messages) && root.key.Client?
    requires forall m :: m in left ==> m in db.messages && m.status == Unread
    ensures var after := Adopting(db, left[..k], run).messages;
            LiveCopies(after, root) == LiveCopies(db.messages, root) && TimesSent(after, root) == TimesSent(db.messages, root)
  {
    if k == 0 {
      assert Taken(db.messages, left[..0]) + Copies(left[..0], run) == db.messages;
    } else {
      AdoptingKeepsCounts(db, left, k - 1, run, root);
      AdoptsNextKeepsCounts(db, left, k - 1, run, root);
    }
  }

  lemma TurnKeepsCounts(db: Db, run: RunId, principal: Option<Principal>, thread: Option<ThreadId>, root: MessageId)
    requires TableOk(db) && run !in db.runs && root.key.Client?
    ensures var after := OpenRun(db, run, principal, thread).messages;
            LiveCopies(after, root) == LiveCopies(db.messages, root) && TimesSent(after, root) == TimesSent(db.messages, root)
  {
    var created := Created(db, run, principal, thread);
    var left := LeftFor(created, run, thread);
    OpenRunAdopts(db, run, principal, thread);
    CreatedIsOk(db, run, principal, thread);
    LeftForRows(created, run, thread);
    AdoptingKeepsCounts(created, left, |left|, run, root);
    assert left[..|left|] == left;
  }

  /** Rows that only come alive add copies; the counts agree exactly when none did. */
  lemma {:induction false} RevivalCounts(messages: seq<Message>, messages': seq<Message>, root: MessageId)
    requires OnlyMarked(messages, messages')
    ensures TimesSent(messages', root) == TimesSent(messages, root)
    ensures LiveCopies(messages', root) >= LiveCopies(messages, root)
    ensures LiveCopies(messages', root) == LiveCopies(messages, root) <==>
              forall i :: 0 <= i < |messages| && Root(messages[i].id) == root ==> (IsLive(messages'[i]) <==> IsLive(messages[i]))
  {
    if messages != [] {
      var n := |messages| - 1;
      RevivalCounts(messages[..n], messages'[..n], root);
      assert messages'[n].id == messages[n].id;
    }
  }

  /** The rows a read would take, as the table lies before it. */
  function Takes(db: Db, run: RunId, after: int, runAs: Option<Principal>): seq<Message> {
    Own(Drainable(db.messages, run, after), runAs)
  }

  predicate HoldsWithdrawn(rows: seq<Message>, root: MessageId) {
    exists m :: m in rows && Root(m.id) == root && m.status == Withdrawn
  }

  /** A READ MARKS WHAT IT FINDS, NOT WHAT IS UNREAD: its update names the row alone. It keeps the number of
      live copies of a message exactly when no row it is about to take is a withdrawn one of that message;
      and while the run is live there is none. */
  lemma ReadKeepsCopiesIff(db: Db, run: RunId, after: int, runAs: Option<Principal>, root: MessageId)
    requires TableOk(db)
    ensures LiveCopies(Drain(db, run, after, runAs).db.messages, root) == LiveCopies(db.messages, root)
            <==> !HoldsWithdrawn(Takes(db, run, after, runAs), root)
    ensures RunIsIn(db, run, NON_TERMINAL) ==> !HoldsWithdrawn(Takes(db, run, after, runAs), root)
  {
    DrainedRows(db, run, after, runAs);
    MarkRevives(db.messages, Takes(db, run, after, runAs), root);
    if RunIsIn(db, run, NON_TERMINAL) {
      LiveTakesNoneWithdrawn(db, run, after, runAs);
    }
  }

  /** Only a finished run's rows are ever withdrawn. */
  lemma LiveTakesNoneWithdrawn(db: Db, run: RunId, after: int, runAs: Option<Principal>)
    requires TableOk(db) && RunIsIn(db, run, NON_TERMINAL)
    ensures forall m :: m in Takes(db, run, after, runAs) ==> m.status != Withdrawn
  {
    DrainedRows(db, run, after, runAs);
    forall m | m in Takes(db, run, after, runAs)
      ensures m.status != Withdrawn
    {
      var i :| 0 <= i < |db.messages| && db.messages[i] == m;
      assert RowOk(db, db.messages[i]);
    }
  }

  lemma MarkRevives(messages: seq<Message>, delivered: seq<Message>, root: MessageId)
    requires DistinctIds(messages) && forall m :: m in delivered ==> m in messages
    ensures LiveCopies(Mark(messages, delivered), root) == LiveCopies(messages, root) <==>
              forall m :: m in delivered && Root(m.id) == root ==> m.status != Withdrawn
  {
    var marked := Mark(messages, delivered);
    RevivalCounts(messages, marked, root);
    forall i | 0 <= i < |messages|
      ensures messages[i] in delivered ==> marked[i].status == Delivered
      ensures messages[i] !in delivered ==> marked[i] == messages[i]
    {
      if messages[i] in delivered {
        var k :| 0 <= k < |delivered| && delivered[k] == messages[i];
      } else {
        forall k | 0 <= k < |delivered|
          ensures delivered[k].id != messages[i].id
        {
          assert delivered[k] in delivered;
        }
      }
    }
  }

  lemma ReadKeepsCounts(db: Db, run: RunId, after: int, runAs: Option<Principal>, root: MessageId)
    requires TableOk(db) && RunIsIn(db, run, NON_TERMINAL)
    ensures var messages := Drain(db, run, after, runAs).db.messages;
            LiveCopies(messages, root) == LiveCopies(db.messages, root) && TimesSent(messages, root) == TimesSent(db.messages, root)
  {
    ReadKeepsCopiesIff(db, run, after, runAs, root);
    DrainedRows(db, run, after, runAs);
    RevivalCounts(db.messages, Drain(db, run, after, runAs).db.messages, root);
  }

  lemma StepKeepsOneCopy(db: Db, a: Action, root: MessageId)
    requires TableOk(db) && root.key.Client? && LiveCopies(db.messages, root) == TimesSent(db.messages, root)
    ensures LiveCopies(Step(db, a).messages, root) == TimesSent(Step(db, a).messages, root)
  {
    if Enabled(db, a) {
      match a
      case Turn(run, principal, thread) => TurnKeepsCounts(db, run, principal, thread, root);
      case Send(id, mode, body) =>
        var (db', answer) := Admit(db, id, mode, body);
        if answer.Admitted? {
          CountsAppend(db.messages, db'.messages[|db.messages|], root);
        }
      case Read(run, after, runAs) => ReadKeepsCounts(db, run, after, runAs, root);
      case SetStatus(_, _) =>
    }
  }

  lemma {:induction false} SentOnce(messages: seq<Message>, root: MessageId)
    requires DistinctIds(messages)
    ensures TimesSent(messages, root) == if (exists i :: 0 <= i < |messages| && messages[i].id == root) then 1 else 0
  {
    if messages != [] {
      var n := |messages| - 1;
      SentOnce(messages[..n], root);
      if exists i :: 0 <= i < n && messages[..n][i].id == root {
        var i :| 0 <= i < n && messages[..n][i].id == root;
        assert messages[i].id == root;
      }
    }
  }

  // ---- main results, for every history of turns ----

  lemma {:induction false} CopiesBalance(history: seq<Action>, root: MessageId)
    requires root.key.Client?
    ensures LiveCopies(After(history).messages, root) == TimesSent(After(history).messages, root)
  {
    if history != [] {
      var before := history[..|history| - 1];
      CopiesBalance(before, root);
      AlwaysTableOk(before);
      StepKeepsOneCopy(After(before), history[|history| - 1], root);
    }
  }

  /** MESSAGES ARE CONSERVED. Over any chain of turns each message its sender had admitted has exactly one
      live copy, unread or delivered; a message never admitted has none. */
  lemma OneLiveCopy(history: seq<Action>, root: MessageId)
    requires root.key.Client?
    ensures var messages := After(history).messages;
            LiveCopies(messages, root) == if (exists i :: 0 <= i < |messages| && messages[i].id == root) then 1 else 0
  {
    CopiesBalance(history, root);
    AlwaysTableOk(history);
    SentOnce(After(history).messages, root);
  }

  // ---- what a copy keeps ----

  /** The message this row copies is in the table, with this row's sender and body. */
  predicate Rooted(messages: seq<Message>, m: Message) {
    exists j :: 0 <= j < |messages| && messages[j].id == Root(m.id) && messages[j].sender == m.sender && messages[j].body == m.body
  }

  predicate AllRooted(messages: seq<Message>) {
    forall i :: 0 <= i < |messages| ==> Rooted(messages, messages[i])
  }

  /** The old rows are all there, with the same names, senders and bodies. */
  predicate Keeps(messages: seq<Message>, messages': seq<Message>) {
    && |messages| <= |messages'|
    && forall i :: 0 <= i < |messages| ==>
         messages'[i].id == messages[i].id && messages'[i].sender == messages[i].sender && messages'[i].body == messages[i].body
  }

  lemma StaysRooted(messages: seq<Message>, messages': seq<Message>, m: Message)
    requires Rooted(messages, m) && Keeps(messages, messages')
    ensures Rooted(messages', m)
  {
    var j :| 0 <= j < |messages| && messages[j].id == Root(m.id) && messages[j].sender == m.sender && messages[j].body == m.body;
    assert messages'[j].id == Root(m.id);
  }

  /** A row that is itself a message, or a copy of a row in the table. */
  predicate FromTable(messages: seq<Message>, m: Message) {
    || m.id.key.Client?
    || exists k :: 0 <= k < |messages| && m.id.key == Adopted(messages[k].id) && m.sender == messages[k].sender && m.body == messages[k].body
  }

  lemma KeepsAllRooted(messages: seq<Message>, messages': seq<Message>)
    requires AllRooted(messages) && Keeps(messages, messages')
    requires forall i :: |messages| <= i < |messages'| ==> FromTable(messages, messages'[i])
    ensures AllRooted(messages')
  {
    forall i | 0 <= i < |messages'|
      ensures Rooted(messages', messages'[i])
    {
      if i < |messages| {
        StaysRooted(messages, messages', messages[i]);
      } else {
        NewIsRooted(messages, messages', i);
      }
    }
  }

  lemma NewIsRooted(messages: seq<Message>, messages': seq<Message>, i: nat)
    requires AllRooted(messages) && Keeps(messages, messages')
    requires i < |messages'| && FromTable(messages, messages'[i])
    ensures Rooted(messages', messages'[i])
  {
    if messages'[i].id.key.Client? {
      assert messages'[i].id == Root(messages'[i].id);
    } else {
      var k :| 0 <= k < |messages| && messages'[i].id.key == Adopted(messages[k].id) && messages'[i].sender == messages[k].sender && messages'[i].body == messages[k].body;
      StaysRooted(messages, messages', messages[k]);
    }
  }

  lemma CopiesAreFromTable(messages: seq<Message>, messages': seq<Message>, left: seq<Message>, run: RunId)
    requires AllRooted(messages) && Keeps(messages, messages') && |messages'| == |messages| + |left|
    requires forall k :: 0 <= k < |left| ==> messages'[|messages| + k] == Copy(left[k], run, k + 1)
    requires forall m :: m in left ==> m in messages
    ensures AllRooted(messages')
  {
    forall i | |messages| <= i < |messages'|
      ensures FromTable(messages, messages'[i])
    {
      var m := left[i - |messages|];
      assert m in left && messages'[|messages| + (i - |messages|)] == Copy(m, run, i - |messages| + 1);
      var k :| 0 <= k < |messages| && messages[k] == m;
    }
    KeepsAllRooted(messages, messages');
  }

  lemma AdoptingKeepsRows(db: Db, left: seq<Message>, run: RunId)
    requires run in db.runs
    ensures Keeps(db.messages, Adopting(db, left, run).messages)
  {
  }

  lemma AdoptingKeepsRooted(db: Db, left: seq<Message>, run: RunId)
    requires AllRooted(db.messages) && run in db.runs && forall m :: m in left ==> m in db.messages
    ensures AllRooted(Adopting(db, left, run).messages)
  {
    AdoptingKeepsRows(db, left, run);
    CopiesAreFromTable(db.messages, Adopting(db, left, run).messages, left, run);
  }

  lemma TurnKeepsRooted(db: Db, run: RunId, principal: Option<Principal>, thread: Option<ThreadId>)
    requires TableOk(db) && AllRooted(db.messages) && run !in db.runs
    ensures AllRooted(OpenRun(db, run, principal, thread).messages)
  {
    var created := Created(db, run, principal, thread);
    OpenRunAdopts(db, run, principal, thread);
    LeftForRows(created, run, thread);
    AdoptingKeepsRooted(created, LeftFor(created, run, thread), run);
  }

  lemma SendKeepsRooted(db: Db, id: MessageId, mode: Mode, body: Body)
    requires AllRooted(db.messages) && id.key.Client?
    ensures AllRooted(Admit(db, id, mode, body).0.messages)
  {
    KeepsAllRooted(db.messages, Admit(db, id, mode, body).0.messages);
  }

  lemma MarkKeepsRooted(messages: seq<Message>, messages': seq<Message>)
    requires AllRooted(messages) && OnlyMarked(messages, messages')
    ensures AllRooted(messages')
  {
    KeepsAllRooted(messages, messages');
  }

  lemma StepKeepsRooted(db: Db, a: Action)
    requires TableOk(db) && AllRooted(db.messages)
    ensures AllRooted(Step(db, a).messages)
  {
    if Enabled(db, a) {
      match a
      case Turn(run, principal, thread) => TurnKeepsRooted(db, run, principal, thread);
      case Send(id, mode, body) => SendKeepsRooted(db, id, mode, body);
      case Read(run, after, runAs) =>
        DrainOnlyMarks(db, run, after, runAs);
        MarkKeepsRooted(db.messages, Drain(db, run, after, runAs).db.messages);
      case SetStatus(_, _) =>
    }
  }

  lemma DrainOnlyMarks(db: Db, run: RunId, after: int, runAs: Option<Principal>)
    ensures OnlyMarked(db.messages, Drain(db, run, after, runAs).db.messages)
  {
  }

  /** A COPY IS THE MESSAGE. Every row, however many turns it was carried over, has the sender and the
      body of the message its sender had admitted. */
  lemma {:induction false} CopiesKeepContent(history: seq<Action>)
    ensures AllRooted(After(history).messages)
  {
    if history != [] {
      var before := history[..|history| - 1];
      CopiesKeepContent(before);
      AlwaysTableOk(before);
      StepKeepsRooted(After(before), history[|history| - 1]);
    }
  }

  /** ADOPTION EMPTIES WHAT IT TAKES FROM, and takes from nobody else: after a turn opened on a thread no
      finished run of that thread has an unread message, and no other row changed. */
  lemma TurnTakesExactlyTheLeftOver(history: seq<Action>, run: RunId, principal: Option<Principal>, thread: ThreadId, i: nat)
    requires run !in After(history).runs && i < |After(history).messages|
    ensures var db, db' := After(history), OpenRun(After(history), run, principal, Some(thread));
            && |db.messages| <= |db'.messages|
            && (db'.messages[i] != db.messages[i] <==> Finished(db, db.messages[i].toRun, thread) && db.messages[i].status == Unread)
            && (db'.messages[i] != db.messages[i] ==> db'.messages[i] == db.messages[i].(status := Withdrawn))
            && !(Finished(db', db'.messages[i].toRun, thread) && db'.messages[i].status == Unread)
  {
    AlwaysTableOk(history);
    TurnTakesRow(After(history), run, principal, thread, i);
  }

  lemma TurnTakesRow(db: Db, run: RunId, principal: Option<Principal>, thread: ThreadId, i: nat)
    requires TableOk(db) && run !in db.runs && i < |db.messages|
    ensures var db' := OpenRun(db, run, principal, Some(thread));
            && |db.messages| <= |db'.messages|
            && (db'.messages[i] != db.messages[i] <==> Finished(db, db.messages[i].toRun, thread) && db.messages[i].status == Unread)
            && (db'.messages[i] != db.messages[i] ==> db'.messages[i] == db.messages[i].(status := Withdrawn))
            && !(Finished(db', db'.messages[i].toRun, thread) && db'.messages[i].status == Unread)
  {
    var created, m := Created(db, run, principal, Some(thread)), db.messages[i];
    var left := LeftOver(created, thread, run);
    OpenRunAdopts(db, run, principal, Some(thread));
    LeftOverRows(created, thread, run);
    assert RowOk(db, m) && m in created.messages;
    assert IsLeftOver(created, thread, run, m) <==> Finished(db, m.toRun, thread) && m.status == Unread;
    if Names(left, m.id) {
      var k :| 0 <= k < |left| && left[k].id == m.id;
      assert left[k] in left;
      var j :| 0 <= j < |db.messages| && db.messages[j] == left[k];
    }
    if m in left {
      var k :| 0 <= k < |left| && left[k] == m;
      assert Names(left, m.id);
    }
  }

  // ---- the next turn reads it ----

  /** ONE HOP IS ENOUGH. What the next turn's first read finds, if nothing else was sent to it, is a copy
      of every message left over, whatever its mode was, by number; messages left by one run stay in the
      order that run had them. */
  lemma NextTurnReadsAll(history: seq<Action>, run: RunId, principal: Option<Principal>, thread: ThreadId)
    requires run !in After(history).runs
    ensures var created := Created(After(history), run, principal, Some(thread));
            var left := LeftOver(created, thread, run);
            && Drainable(OpenRun(After(history), run, principal, Some(thread)).messages, run, -1) == Copies(left, run)
            && (forall i, j :: 0 <= i < j < |left| && left[i].toRun == left[j].toRun ==> left[i].num < left[j].num)
  {
    var db := After(history);
    AlwaysTableOk(history);
    OpenRunAdopts(db, run, principal, Some(thread));
    CreatedIsOk(db, run, principal, Some(thread));
    var created := Created(db, run, principal, Some(thread));
    LeftOverRows(created, thread, run);
    LeftKeepsOrder(created, LeftOver(created, thread, run));
    CopiesAreDrained(created, LeftOver(created, thread, run), run);
  }

  lemma LeftKeepsOrder(db: Db, left: seq<Message>)
    requires InOrder(db.messages) && Sorted(left) && DistinctIds(left) && forall m :: m in left ==> m in db.messages
    ensures forall i, j :: 0 <= i < j < |left| && left[i].toRun == left[j].toRun ==> left[i].num < left[j].num
  {
    forall i, j | 0 <= i < j < |left| && left[i].toRun == left[j].toRun
      ensures left[i].num < left[j].num
    {
      assert left[i] in left && left[j] in left;
      var a :| 0 <= a < |db.messages| && db.messages[a] == left[i];
      var b :| 0 <= b < |db.messages| && db.messages[b] == left[j];
      assert left[i].id != left[j].id;
    }
  }

  lemma CopiesAreDrained(db: Db, left: seq<Message>, run: RunId)
    requires JustCreated(db, run)
    ensures Drainable(Adopting(db, left, run).messages, run, -1) == Copies(left, run)
  {
    TakenIsElsewhere(db, left, run);
    CopiesDrain(left, run);
    DrainsSecond(Taken(db.messages, left), Copies(left, run), run);
  }

  lemma DrainsSecond(others: seq<Message>, own: seq<Message>, run: RunId)
    requires forall i :: 0 <= i < |others| ==> !DrainsFrom(run, -1)(others[i])
    requires forall i :: 0 <= i < |own| ==> DrainsFrom(run, -1)(own[i])
    requires Sorted(own)
    ensures Drainable(others + own, run, -1) == own
  {
    SelectFrom(others, own, DrainsFrom(run, -1));
    SortOfSorted(own);
  }

  lemma TakenIsElsewhere(db: Db, left: seq<Message>, run: RunId)
    requires JustCreated(db, run)
    ensures forall i :: 0 <= i < |db.messages| ==> !DrainsFrom(run, -1)(Taken(db.messages, left)[i])
  {
  }

  lemma CopiesDrain(left: seq<Message>, run: RunId)
    ensures forall i :: 0 <= i < |left| ==> DrainsFrom(run, -1)(Copies(left, run)[i])
    ensures Sorted(Copies(left, run))
  {
  }

  // ---- a slice that outlives its run ----

  lemma AfterAppend(history: seq<Action>, a: Action)
    ensures After(history + [a]) == Step(After(history), a)
  {
    assert (history + [a])[..|history|] == history;
  }

  const HELLO: MessageId := MessageId(0, 7, Client(1))

  function Hello(status: MessageStatus): Message {
    Message(HELLO, 0, NextStep, 5, 7, 1, status)
  }

  /** One run on thread 3 was sent one message and finished; the next turn of the thread has begun. */
  lemma TwoTurns() returns (history: seq<Action>)
    ensures After(history).messages == [Hello(Withdrawn), Copy(Hello(Unread), 1, 1)]
  {
    var first := [Turn(0, None, Some(3))];
    assert After([]) == Db(map[], map[], map[], [], []);
    AfterAppend([], first[0]);
    assert [] + first == first;
    NothingAdopted(Created(After([]), 0, None, Some(3)), 0);
    assert After(first) == Created(After([]), 0, None, Some(3));
    AfterAppend(first, Send(HELLO, NextStep, 5));
    var second := first + [Send(HELLO, NextStep, 5)];
    assert After(second).messages == [Hello(Unread)];
    AfterAppend(second, SetStatus(0, Completed));
    var third := second + [SetStatus(0, Completed)];
    AlwaysTableOk(third);
    var db := After(third);
    assert db.messages == [Hello(Unread)] && Finished(db, 0, 3) && 1 !in db.runs;
    AfterAppend(third, Turn(1, None, Some(3)));
    OpenRunAdopts(db, 1, None, Some(3));
    LeftIsHello(Created(db, 1, None, Some(3)));
    history := third + [Turn(1, None, Some(3))];
  }

  lemma LeftIsHello(db: Db)
    requires db.messages == [Hello(Unread)] && Finished(db, 0, 3)
    ensures LeftOver(db, 3, 1) == [Hello(Unread)]
    ensures 1 in db.runs ==> Adopting(db, [Hello(Unread)], 1).messages == [Hello(Withdrawn), Copy(Hello(Unread), 1, 1)]
  {
    OneSelected(Hello(Unread), LeftOverFor(db, 3, 1));
    HelloIsTaken();
  }

  lemma OneSelected(m: Message, keep: Message -> bool)
    requires keep(m)
    ensures SortByNum(Select([m], keep)) == [m]
  {
    SelectFrom([], [m], keep);
    assert [] + [m] == [m];
    SortOfSorted([m]);
  }

  lemma HelloIsTaken()
    ensures Taken([Hello(Unread)], [Hello(Unread)]) == [Hello(Withdrawn)]
  {
    var left := [Hello(Unread)];
    assert left[0].id == HELLO && Names(left, HELLO);
  }

  lemma HelloIsDrained(messages: seq<Message>)
    requires messages == [Hello(Withdrawn), Copy(Hello(Unread), 1, 1)]
    ensures Drainable(messages, 0, -1) == [Hello(Withdrawn)]
  {
    var keep := DrainsFrom(0, -1);
    var w := [Hello(Withdrawn)];
    assert messages[..1] == w && w[..0] == [];
    assert Select(w, keep) == w;
    assert Select(messages, keep) == w;
    assert SortByNum(w) == InsertByNum(SortByNum([]), w[0]);
  }

  lemma HelloTwice(messages: seq<Message>)
    requires messages == [Hello(Delivered), Copy(Hello(Unread), 1, 1)]
    ensures LiveCopies(messages, HELLO) == 2
  {
    assert messages == [] + [Hello(Delivered)] + [Copy(Hello(Unread), 1, 1)];
    CountsAppend([], Hello(Delivered), HELLO);
    CountsAppend([Hello(Delivered)], Copy(Hello(Unread), 1, 1), HELLO);
    assert Root(Copy(Hello(Unread), 1, 1).id) == Root(HELLO);
  }

  /** A ZOMBIE READ COPIES A MESSAGE. A slice of the finished run that reads once more turns the withdrawn
      row `delivered`: the message then has two live copies. */
  lemma ZombieReadCopies() returns (history: seq<Action>)
    ensures LiveCopies(Drain(After(history), 0, -1, None).db.messages, HELLO) == 2
  {
    history := TwoTurns();
    var messages, w := After(history).messages, [Hello(Withdrawn)];
    HelloIsDrained(messages);
    assert Own(w, None) == w;
    assert w[0].id == HELLO;
    HelloTwice(Mark(messages, w));
  }
}
