/** The run inbox when nothing runs beside it: admission, draining and adoption as functions of the
    database. */
module InboxSpec {
  import opened Options
  import opened Tables
  import opened StorageOps

  // ---- admission ----

  datatype Admission =
    | Admitted(num: nat)
    | AlreadyKnown(num: nat)
    | Bounced(status: RunStatus)
    | NoSuchRun

  /** The insert loses to a row with the same id, or with the same number on the same run. */
  predicate Conflicts(messages: seq<Message>, id: MessageId, run: RunId, num: nat) {
    exists i :: 0 <= i < |messages| && (messages[i].id == id || (messages[i].toRun == run && messages[i].num == num))
  }

  /** Minting a number is the admission check. A redelivery keeps the number it minted. */
  function Admit(db: Db, id: MessageId, mode: Mode, body: Body): (Db, Admission) {
    var run := id.toRun;
    if run !in db.runs then (db, NoSuchRun)
    else if Terminal(db.runs[run].status) then (db, Bounced(db.runs[run].status))
    else
      var num := db.runs[run].messageSeq + 1;
      var minted := PutRun(db, run, db.runs[run].(messageSeq := num));
      if Conflicts(db.messages, id, run, num) then (minted, AlreadyKnown(num))
      else (minted.(messages := db.messages + [Message(id, run, mode, body, id.sender, num, Unread)]), Admitted(num))
  }

  // ---- reading rows in order ----

  function Select(rows: seq<Message>, keep: Message -> bool): (kept: seq<Message>) {
    if rows == [] then []
    else
      var rest, last := Select(rows[..|rows| - 1], keep), rows[|rows| - 1];
      if keep(last) then rest + [last] else rest
  }

  lemma {:induction false} SelectMembers(rows: seq<Message>, keep: Message -> bool)
    ensures forall m :: m in Select(rows, keep) <==> m in rows && keep(m)
  {
    if rows != [] {
      SelectMembers(rows[..|rows| - 1], keep);
      assert rows == rows[..|rows| - 1] + [rows[|rows| - 1]];
    }
  }

  lemma {:induction false} SelectNone(rows: seq<Message>, keep: Message -> bool)
    requires forall i :: 0 <= i < |rows| ==> !keep(rows[i])
    ensures Select(rows, keep) == []
  {
    if rows != [] {
      SelectNone(rows[..|rows| - 1], keep);
    }
  }

  /** Rows of which exactly the last ones are kept. */
  lemma {:induction false} SelectFrom(others: seq<Message>, own: seq<Message>, keep: Message -> bool)
    requires forall i :: 0 <= i < |others| ==> !keep(others[i])
    requires forall i :: 0 <= i < |own| ==> keep(own[i])
    ensures Select(others + own, keep) == own
  {
    if own == [] {
      SelectNone(others, keep);
      assert others + own == others;
    } else {
      var less, last := own[..|own| - 1], own[|own| - 1];
      SelectFrom(others, less, keep);
      assert (others + own)[..|others + own| - 1] == others + less;
    }
  }

  function InsertByNum(rows: seq<Message>, m: Message): seq<Message> {
    if rows == [] || rows[|rows| - 1].num <= m.num then rows + [m]
    else InsertByNum(rows[..|rows| - 1], m) + [rows[|rows| - 1]]
  }

  /** A read sorted by number, oldest first. */
  function SortByNum(rows: seq<Message>): seq<Message> {
    if rows == [] then [] else InsertByNum(SortByNum(rows[..|rows| - 1]), rows[|rows| - 1])
  }

  predicate Sorted(rows: seq<Message>) {
    forall i, j :: 0 <= i < j < |rows| ==> rows[i].num <= rows[j].num
  }

  lemma {:induction false} SortOfSorted(rows: seq<Message>)
    requires Sorted(rows)
    ensures SortByNum(rows) == rows
  {
    if rows != [] {
      SortOfSorted(rows[..|rows| - 1]);
    }
  }

  // ---- draining ----

  predicate Drains(m: Message, run: RunId, after: int) {
    m.toRun == run && m.num > after && m.mode != AtTurnEnd
  }

  function DrainsFrom(run: RunId, after: int): Message -> bool {
    (m: Message) => Drains(m, run, after)
  }

  function Drainable(messages: seq<Message>, run: RunId, after: int): seq<Message> {
    SortByNum(Select(messages, DrainsFrom(run, after)))
  }

  /** The rows before the first one from somebody other than `runAs`. */
  function Own(rows: seq<Message>, runAs: Option<Principal>): (own: seq<Message>)
    ensures own <= rows
    ensures forall m :: m in own && runAs.Some? ==> m.sender == runAs.value
    ensures own == rows || (runAs.Some? && rows[|own|].sender != runAs.value)
  {
    if rows == [] || (runAs.Some? && rows[0].sender != runAs.value) then []
    else [rows[0]] + Own(rows[1..], runAs)
  }

  function Mark(messages: seq<Message>, delivered: seq<Message>): (r: seq<Message>)
    ensures |r| == |messages|
  {
    seq(|messages|, i requires 0 <= i < |messages| =>
      if exists k :: 0 <= k < |delivered| && delivered[k].id == messages[i].id
      then messages[i].(status := Delivered) else messages[i])
  }

  datatype Drained = Drained(db: Db, delivered: seq<Message>, handover: Option<Principal>)

  function Drain(db: Db, run: RunId, after: int, runAs: Option<Principal>): Drained {
    var rows := Drainable(db.messages, run, after);
    var own := Own(rows, runAs);
    Drained(
      db.(messages := Mark(db.messages, own)),
      own,
      if own == rows then None else Some(rows[|own|].sender))
  }

  // ---- adoption ----

  predicate Finished(db: Db, run: RunId, thread: ThreadId) {
    run in db.runs && db.runs[run].threadId == Some(thread) && Terminal(db.runs[run].status)
  }

  predicate IsLeftOver(db: Db, thread: ThreadId, toRun: RunId, m: Message) {
    m.toRun != toRun && Finished(db, m.toRun, thread) && m.status == Unread
  }

  function LeftOverFor(db: Db, thread: ThreadId, toRun: RunId): Message -> bool {
    (m: Message) => IsLeftOver(db, thread, toRun, m)
  }

  /** The unread messages of the thread's finished runs, by number. */
  function LeftOver(db: Db, thread: ThreadId, toRun: RunId): seq<Message> {
    SortByNum(Select(db.messages, LeftOverFor(db, thread, toRun)))
  }

  function AdoptedMode(mode: Mode): Mode {
    if mode == AtTurnEnd then NextStep else mode
  }

  function Withdraw(messages: seq<Message>, id: MessageId): (r: seq<Message>)
    ensures |r| == |messages|
  {
    seq(|messages|, i requires 0 <= i < |messages| =>
      if messages[i].id == id && messages[i].status == Unread then messages[i].(status := Withdrawn) else messages[i])
  }

  function AdoptOne(db: Db, m: Message, toRun: RunId): Db {
    var (next, answer) := Admit(db, MessageId(toRun, m.sender, Adopted(m.id)), AdoptedMode(m.mode), m.body);
    if answer.Admitted? then next.(messages := Withdraw(next.messages, m.id)) else next
  }

  function AdoptAll(db: Db, rows: seq<Message>, toRun: RunId): Db
    decreases |rows|
  {
    if rows == [] then db else AdoptAll(AdoptOne(db, rows[0], toRun), rows[1..], toRun)
  }

  function Adopt(db: Db, thread: ThreadId, toRun: RunId): Db {
    AdoptAll(db, LeftOver(db, thread, toRun), toRun)
  }
}
