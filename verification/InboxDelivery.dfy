/** Delivery of a run's inbox over any history of slices.

    Slices open from the prompt, from a checkpoint or after an approval, poll, save checkpoints, hand over
    and crash, in any order and any number at once; messages are admitted and run rows rewritten all the
    while. Admission and a drain are one step each. */
module InboxDelivery {
  import opened Options
  import opened Tables
  import opened StorageOps
  import opened InboxSpec
  import opened RunSpec
  import opened SliceSpec

  type SliceId = nat

  /** A message as it entered a transcript, and whom the slice that took it ran as. */
  datatype Line = Line(num: nat, sender: Principal, body: Body)
  datatype Shown = Shown(line: Line, under: Option<Principal>)

  datatype Slice = Slice(runAs: Option<Principal>, shown: seq<Shown>, through: int, seen: int, handover: Option<Principal>)

  /** A saved transcript; `runAs` is the principal the continuation task declares. */
  datatype Checkpoint = Checkpoint(shown: seq<Shown>, through: int, runAs: Option<Principal>)

  datatype State = State(db: Db, slices: map<SliceId, Slice>, saved: map<CheckpointId, Checkpoint>)

  datatype Action =
    | Rewrite(other: RunId, row: Run)
    | Send(id: MessageId, mode: Mode, body: Body)
    | Retire(id: MessageId)
    | OpenFresh(sid: SliceId)
    | OpenFrom(sid: SliceId, cid: CheckpointId)
    | OpenApproved(sid: SliceId, cid: CheckpointId)
    | Ask(sid: SliceId)
    | Save(sid: SliceId, cid: CheckpointId)
    | Yield(sid: SliceId, cid: CheckpointId)
    | Crash(sid: SliceId)

  /** Any write to a run row but to the two columns nothing rewrites. */
  function RewriteRun(db: Db, run: RunId, row: Run): Db {
    if run in db.runs then PutRun(db, run, row.(messageSeq := db.runs[run].messageSeq, principal := db.runs[run].principal))
    else PutRun(db, run, NewRun(row.principal, row.threadId))
  }

  function Opened(s: State, run: RunId, sid: SliceId, declared: Option<Principal>, shown: seq<Shown>, through: int): State {
    var runAs := SlicePrincipal(declared, if run in s.db.runs then Some(s.db.runs[run]) else None);
    s.(slices := s.slices[sid := Slice(runAs, shown, through, -1, None)])
  }

  function Entered(delivered: seq<Message>, runAs: Option<Principal>): (r: seq<Shown>)
    ensures |r| == |delivered|
  {
    seq(|delivered|, i requires 0 <= i < |delivered| => Shown(LineOf(delivered[i]), runAs))
  }

  function LineOf(m: Message): Line {
    Line(m.num, m.sender, m.body)
  }

  function Asked(s: State, run: RunId, sid: SliceId): State
    requires sid in s.slices
  {
    var slice := s.slices[sid];
    var (db, polled, handover) := Poll(s.db, run, slice.seen, slice.through, slice.runAs);
    s.(db := db,
       slices := s.slices[sid := slice.(
         shown := slice.shown + Entered(polled.deliver, slice.runAs),
         through := Through(slice.through, polled.deliver),
         seen := polled.seen,
         handover := if handover.Some? then handover else slice.handover)])
  }

  function Step(s: State, run: RunId, a: Action): State {
    match a
    case Rewrite(other, row) => s.(db := RewriteRun(s.db, other, row))
    case Send(id, mode, body) => s.(db := Admit(s.db, id, mode, body).0)
    case Retire(id) => s.(db := s.db.(messages := Withdraw(s.db.messages, id)))
    case OpenFresh(sid) => Opened(s, run, sid, None, [], -1)
    case OpenFrom(sid, cid) =>
      if cid in s.saved then Opened(s, run, sid, s.saved[cid].runAs, s.saved[cid].shown, s.saved[cid].through) else s
    // the approval's checkpoint carries the transcript but not how far it reaches
    case OpenApproved(sid, cid) => if cid in s.saved then Opened(s, run, sid, None, s.saved[cid].shown, -1) else s
    case Ask(sid) => if sid in s.slices then Asked(s, run, sid) else s
    case Save(sid, cid) =>
      if sid in s.slices && cid !in s.saved
      then s.(saved := s.saved[cid := Checkpoint(s.slices[sid].shown, s.slices[sid].through, None)]) else s
    case Yield(sid, cid) =>
      if sid in s.slices && cid !in s.saved
      then s.(saved := s.saved[cid := Checkpoint(s.slices[sid].shown, s.slices[sid].through, s.slices[sid].handover)], slices := s.slices - {sid})
      else s
    case Crash(sid) => s.(slices := s.slices - {sid})
  }

  function Initial(run: RunId, principal: Option<Principal>): State {
    State(Db(map[run := NewRun(principal, None)], map[], map[], [], []), map[], map[])
  }

  function After(run: RunId, principal: Option<Principal>, history: seq<Action>): State {
    if history == [] then Initial(run, principal)
    else Step(After(run, principal, history[..|history| - 1]), run, history[|history| - 1])
  }

  // ---- the run's own messages, in order ----

  predicate IsFor(m: Message, run: RunId) {
    m.toRun == run && m.mode != AtTurnEnd
  }

  function ForRun(run: RunId): Message -> bool {
    (m: Message) => IsFor(m, run)
  }

  /** The run's deliverable rows, as the table lists them. */
  function Inbox(messages: seq<Message>, run: RunId): seq<Message> {
    Select(messages, ForRun(run))
  }

  predicate Ascending(rows: seq<Message>) {
    forall i, j :: 0 <= i < j < |rows| ==> rows[i].num < rows[j].num
  }

  lemma {:induction false} SelectPair(rows: seq<Message>, keep: Message -> bool, run: RunId)
    requires forall m :: m in rows && keep(m) ==> m.toRun == run
    requires forall i, j :: 0 <= i < j < |rows| && rows[i].toRun == run && rows[j].toRun == run ==> rows[i].num < rows[j].num
    ensures Ascending(Select(rows, keep))
  {
    if rows != [] {
      var less, last := rows[..|rows| - 1], rows[|rows| - 1];
      SelectPair(less, keep, run);
      SelectMembers(less, keep);
      forall m | m in Select(less, keep)
        ensures m.num < last.num || !keep(last)
      {
        var i :| 0 <= i < |less| && less[i] == m;
        assert rows[i] == m && rows[|rows| - 1] == last;
      }
    }
  }

  lemma {:induction false} SelectTwice(rows: seq<Message>, all: Message -> bool, some: Message -> bool)
    requires forall m :: m in rows && some(m) ==> all(m)
    ensures Select(rows, some) == Select(Select(rows, all), some)
  {
    if rows != [] {
      var less, last := rows[..|rows| - 1], rows[|rows| - 1];
      SelectTwice(less, all, some);
      if all(last) {
        SelectLast(Select(less, all), last, some);
      }
    }
  }

  lemma SelectLast(rows: seq<Message>, last: Message, keep: Message -> bool)
    ensures Select(rows + [last], keep) == if keep(last) then Select(rows, keep) + [last] else Select(rows, keep)
  {
    assert (rows + [last])[..|rows|] == rows;
  }

  /** Reading from a number on gives the rest of the rows, when the rows ascend. */
  lemma SelectRest(rows: seq<Message>, all: Message -> bool, some: Message -> bool, after: int, k: nat)
    requires forall m :: m in rows ==> (some(m) <==> all(m) && m.num > after)
    requires k <= |Select(rows, all)|
    requires forall i :: 0 <= i < |Select(rows, all)| ==> (i < k <==> Select(rows, all)[i].num <= after)
    ensures Select(rows, some) == Select(rows, all)[k..]
  {
    var whole := Select(rows, all);
    SelectTwice(rows, all, some);
    SelectMembers(rows, all);
    forall i | 0 <= i < |whole|
      ensures some(whole[i]) <==> i >= k
    {
      assert whole[i] in whole;
    }
    SelectTail(whole, k, some);
  }

  lemma SelectTail(rows: seq<Message>, k: nat, some: Message -> bool)
    requires k <= |rows| && forall i :: 0 <= i < |rows| ==> (some(rows[i]) <==> i >= k)
    ensures Select(rows, some) == rows[k..]
  {
    SelectFrom(rows[..k], rows[k..], some);
    assert rows[..k] + rows[k..] == rows;
  }

  // ---- the invariant ----

  /** Every row of a run is numbered, in table order, up to the run's counter. */
  predicate Numbered(db: Db, run: RunId) {
    && run in db.runs
    && (forall i :: 0 <= i < |db.messages| && db.messages[i].toRun == run ==> 1 <= db.messages[i].num <= db.runs[run].messageSeq)
    && (forall i, j :: 0 <= i < j < |db.messages| && db.messages[i].toRun == run && db.messages[j].toRun == run ==>
          db.messages[i].num < db.messages[j].num)
  }

  /** The number of the last of the first `k` rows; -1 for none. */
  function Reached(rows: seq<Message>, k: nat): int
    requires k <= |rows|
  {
    if k == 0 then -1 else rows[k - 1].num
  }

  /** A message enters only a slice that runs as its sender, unless the run belongs to nobody. */
  predicate EnteredAs(shown: Shown, principal: Option<Principal>) {
    shown.under == Some(shown.line.sender) || (shown.under == None && principal == None)
  }

  predicate IsPrefix(rows: seq<Message>, shown: seq<Shown>) {
    |shown| <= |rows| && forall i :: 0 <= i < |shown| ==> shown[i].line == LineOf(rows[i])
  }

  /** The transcript holds exactly the first messages of the inbox, in order, each entered under its own
      sender, and its watermark is the last of them. */
  predicate Faithful(rows: seq<Message>, principal: Option<Principal>, shown: seq<Shown>, through: int) {
    && IsPrefix(rows, shown)
    && through == Reached(rows, |shown|)
    && (forall i :: 0 <= i < |shown| ==> EnteredAs(shown[i], principal))
  }

  /** A handover names the sender of the first message not yet shown. */
  predicate NextIs(rows: seq<Message>, shown: seq<Shown>, handover: Option<Principal>) {
    handover.Some? ==> |shown| < |rows| && rows[|shown|].sender == handover.value
  }

  predicate SliceOk(rows: seq<Message>, principal: Option<Principal>, slice: Slice) {
    && Faithful(rows, principal, slice.shown, slice.through)
    && NextIs(rows, slice.shown, slice.handover)
    && (slice.runAs == None ==> principal == None)
    && (slice.handover.Some? ==> slice.runAs.Some? && slice.runAs != slice.handover)
  }

  predicate CheckpointOk(rows: seq<Message>, principal: Option<Principal>, saved: Checkpoint) {
    Faithful(rows, principal, saved.shown, saved.through) && NextIs(rows, saved.shown, saved.runAs)
  }

  ghost predicate Inv(s: State, run: RunId, principal: Option<Principal>) {
    && Numbered(s.db, run)
    && s.db.runs[run].principal == principal
    && (forall sid :: sid in s.slices ==> SliceOk(Inbox(s.db.messages, run), principal, s.slices[sid]))
    && (forall cid :: cid in s.saved ==> CheckpointOk(Inbox(s.db.messages, run), principal, s.saved[cid]))
  }

  // ---- what a step does to the table ----

  lemma InboxRow(db: Db, run: RunId, i: nat)
    requires Numbered(db, run) && i < |Inbox(db.messages, run)|
    ensures var m := Inbox(db.messages, run)[i]; IsFor(m, run) && 1 <= m.num <= db.runs[run].messageSeq
  {
    SelectMembers(db.messages, ForRun(run));
    assert Inbox(db.messages, run)[i] in Inbox(db.messages, run);
  }

  lemma DrainableIsRest(db: Db, run: RunId, through: int, k: nat)
    requires Numbered(db, run) && k <= |Inbox(db.messages, run)| && through == Reached(Inbox(db.messages, run), k)
    ensures Drainable(db.messages, run, through) == Inbox(db.messages, run)[k..]
    ensures Ascending(Inbox(db.messages, run))
  {
    var rows := Inbox(db.messages, run);
    SelectPair(db.messages, ForRun(run), run);
    forall i | 0 <= i < |rows|
      ensures i < k <==> rows[i].num <= through
    {
      InboxRow(db, run, i);
    }
    SelectRest(db.messages, ForRun(run), DrainsFrom(run, through), through, k);
    SortOfSorted(rows[k..]);
  }

  predicate SameButStatus(a: Message, b: Message) {
    b == a.(status := b.status)
  }

  /** The rows are still there in the same order, only their status moved; more may follow. */
  predicate Extends(rows: seq<Message>, rows': seq<Message>) {
    |rows| <= |rows'| && forall i :: 0 <= i < |rows| ==> SameButStatus(rows[i], rows'[i])
  }

  lemma {:induction false} RestatusKeepsInbox(messages: seq<Message>, messages': seq<Message>, run: RunId)
    requires |messages| == |messages'| && Extends(messages, messages')
    ensures |Inbox(messages, run)| == |Inbox(messages', run)| && Extends(Inbox(messages, run), Inbox(messages', run))
  {
    if messages != [] {
      var n := |messages| - 1;
      RestatusKeepsInbox(messages[..n], messages'[..n], run);
      assert SameButStatus(messages[n], messages'[n]);
    }
  }

  lemma SliceStaysOk(rows: seq<Message>, rows': seq<Message>, principal: Option<Principal>, slice: Slice)
    requires SliceOk(rows, principal, slice) && Extends(rows, rows')
    ensures SliceOk(rows', principal, slice)
  {
    if |slice.shown| > 0 {
      assert SameButStatus(rows[|slice.shown| - 1], rows'[|slice.shown| - 1]);
    }
    forall i | 0 <= i < |slice.shown|
      ensures slice.shown[i].line == LineOf(rows'[i])
    {
      assert SameButStatus(rows[i], rows'[i]);
    }
  }

  lemma CheckpointStaysOk(rows: seq<Message>, rows': seq<Message>, principal: Option<Principal>, saved: Checkpoint)
    requires CheckpointOk(rows, principal, saved) && Extends(rows, rows')
    ensures CheckpointOk(rows', principal, saved)
  {
    if |saved.shown| > 0 {
      assert SameButStatus(rows[|saved.shown| - 1], rows'[|saved.shown| - 1]);
    }
    forall i | 0 <= i < |saved.shown|
      ensures saved.shown[i].line == LineOf(rows'[i])
    {
      assert SameButStatus(rows[i], rows'[i]);
    }
  }

  /** Only the database moved, and the inbox only grew. */
  lemma TableChangeKeepsInv(s: State, s': State, run: RunId, principal: Option<Principal>)
    requires Inv(s, run, principal)
    requires Numbered(s'.db, run) && s'.db.runs[run].principal == principal
    requires s'.slices == s.slices && s'.saved == s.saved
    requires Extends(Inbox(s.db.messages, run), Inbox(s'.db.messages, run))
    ensures Inv(s', run, principal)
  {
    var rows, rows' := Inbox(s.db.messages, run), Inbox(s'.db.messages, run);
    forall sid | sid in s.slices
      ensures SliceOk(rows', principal, s.slices[sid])
    {
      SliceStaysOk(rows, rows', principal, s.slices[sid]);
    }
    forall cid | cid in s.saved
      ensures CheckpointOk(rows', principal, s.saved[cid])
    {
      CheckpointStaysOk(rows, rows', principal, s.saved[cid]);
    }
  }

  lemma SendGrowsInbox(db: Db, id: MessageId, mode: Mode, body: Body, run: RunId)
    requires Numbered(db, run)
    ensures var db' := Admit(db, id, mode, body).0;
            && Numbered(db', run) && db'.runs[run].principal == db.runs[run].principal
            && Extends(Inbox(db.messages, run), Inbox(db'.messages, run))
  {
    var (db', answer) := Admit(db, id, mode, body);
    if answer.Admitted? {
      assert db'.messages[..|db.messages|] == db.messages;
    }
  }

  lemma MarkRestatuses(messages: seq<Message>, delivered: seq<Message>)
    ensures Extends(messages, Mark(messages, delivered))
  {
  }

  lemma RestatusKeepsNumbered(db: Db, db': Db, run: RunId)
    requires Numbered(db, run) && db'.runs == db.runs
    requires |db'.messages| == |db.messages| && Extends(db.messages, db'.messages)
    ensures Numbered(db', run)
  {
    assert forall i :: 0 <= i < |db.messages| ==> SameButStatus(db.messages[i], db'.messages[i]);
  }

  // ---- a poll ----

  lemma {:induction false} ThroughIsLast(through: int, delivered: seq<Message>)
    requires Ascending(delivered) && (delivered != [] ==> delivered[0].num > through)
    ensures Through(through, delivered) == if delivered == [] then through else delivered[|delivered| - 1].num
  {
    if delivered != [] {
      ThroughIsLast(through, delivered[..|delivered| - 1]);
    }
  }

  /** THE SHORTCUT SKIPS NOTHING. Where a poll decides there is nothing new, a drain would have found
      nothing and changed nothing. */
  lemma ShortcutSkipsNothing(db: Db, run: RunId, seen: int, through: int, runAs: Option<Principal>, k: nat)
    requires Numbered(db, run) && k <= |Inbox(db.messages, run)| && through == Reached(Inbox(db.messages, run), k)
    requires NothingNew(db.runs[run], seen, through)
    ensures Drain(db, run, through, runAs) == Drained(db, [], None)
  {
    DrainableIsRest(db, run, through, k);
    var rows := Inbox(db.messages, run);
    if k < |rows| {
      InboxRow(db, run, k);
      assert false;
    }
    assert Mark(db.messages, []) == db.messages;
  }

  /** So a poll is a drain, whether or not it read the inbox. */
  lemma PollIsDrain(db: Db, run: RunId, seen: int, through: int, runAs: Option<Principal>, k: nat)
    requires Numbered(db, run) && k <= |Inbox(db.messages, run)| && through == Reached(Inbox(db.messages, run), k)
    ensures var (db', polled, handover) := Poll(db, run, seen, through, runAs);
            Drained(db', polled.deliver, handover) == Drain(db, run, through, runAs)
  {
    if NothingNew(db.runs[run], seen, through) {
      ShortcutSkipsNothing(db, run, seen, through, runAs, k);
    }
  }

  /** What a drain takes: the next messages up to the first from somebody else, whom it names. */
  predicate TakesNext(rows: seq<Message>, k: nat, runAs: Option<Principal>, deliver: seq<Message>, handover: Option<Principal>) {
    var j := k + |deliver|;
    && j <= |rows| && deliver == rows[k..j]
    && (runAs.Some? ==> forall m :: m in deliver ==> m.sender == runAs.value)
    && (handover == None <==> j == |rows|)
    && (handover.Some? ==> runAs.Some? && rows[j].sender == handover.value && runAs != handover)
  }

  lemma OwnTakesNext(rows: seq<Message>, k: nat, runAs: Option<Principal>, own: seq<Message>)
    requires k <= |rows| && own == Own(rows[k..], runAs)
    ensures TakesNext(rows, k, runAs, own, if own == rows[k..] then None else Some(rows[k..][|own|].sender))
  {
    assert rows[k..k + |own|] == own;
  }

  lemma DrainTakesNext(db: Db, run: RunId, through: int, runAs: Option<Principal>, k: nat)
    requires Numbered(db, run) && k <= |Inbox(db.messages, run)| && through == Reached(Inbox(db.messages, run), k)
    ensures var drained := Drain(db, run, through, runAs); var rows := Inbox(db.messages, run);
            && TakesNext(rows, k, runAs, drained.delivered, drained.handover)
            && Through(through, drained.delivered) == Reached(rows, k + |drained.delivered|)
  {
    var rows := Inbox(db.messages, run);
    DrainableIsRest(db, run, through, k);
    DrainIsOwn(db, run, through, runAs, rows[k..]);
    OwnTakesNext(rows, k, runAs, Own(rows[k..], runAs));
    TakenThrough(rows, k, through, Own(rows[k..], runAs));
  }

  lemma DrainIsOwn(db: Db, run: RunId, through: int, runAs: Option<Principal>, rest: seq<Message>)
    requires Drainable(db.messages, run, through) == rest
    ensures var own := Own(rest, runAs);
            && Drain(db, run, through, runAs).delivered == own
            && Drain(db, run, through, runAs).handover == if own == rest then None else Some(rest[|own|].sender)
  {
  }

  lemma TakenThrough(rows: seq<Message>, k: nat, through: int, own: seq<Message>)
    requires Ascending(rows) && k + |own| <= |rows| && through == Reached(rows, k) && own == rows[k..k + |own|]
    requires own != [] ==> own[0].num > -1
    ensures Through(through, own) == Reached(rows, k + |own|)
  {
    ThroughIsLast(through, own);
  }

  /** So with a poll of a slice whose transcript holds the first `k` messages. */
  lemma PollTakesNext(db: Db, run: RunId, seen: int, through: int, runAs: Option<Principal>, k: nat)
    requires Numbered(db, run) && k <= |Inbox(db.messages, run)| && through == Reached(Inbox(db.messages, run), k)
    ensures var (db', polled, handover) := Poll(db, run, seen, through, runAs); var rows := Inbox(db.messages, run);
            && TakesNext(rows, k, runAs, polled.deliver, handover)
            && Through(through, polled.deliver) == Reached(rows, k + |polled.deliver|)
            && db' == db.(messages := Mark(db.messages, polled.deliver))
  {
    PollIsDrain(db, run, seen, through, runAs, k);
    DrainTakesNext(db, run, through, runAs, k);
  }

  lemma MarkedInbox(messages: seq<Message>, delivered: seq<Message>, run: RunId)
    ensures var rows, rows' := Inbox(messages, run), Inbox(Mark(messages, delivered), run);
            |rows'| == |rows| && Extends(rows, rows') && forall i :: 0 <= i < |rows| ==> rows'[i].sender == rows[i].sender
  {
    MarkRestatuses(messages, delivered);
    RestatusKeepsInbox(messages, Mark(messages, delivered), run);
    var rows, rows' := Inbox(messages, run), Inbox(Mark(messages, delivered), run);
    forall i | 0 <= i < |rows|
      ensures rows'[i].sender == rows[i].sender
    {
      assert SameButStatus(rows[i], rows'[i]);
    }
  }

  // ---- every step keeps the invariant ----

  lemma AskedSliceIsOk(s: State, run: RunId, principal: Option<Principal>, sid: SliceId)
    requires Numbered(s.db, run) && sid in s.slices && SliceOk(Inbox(s.db.messages, run), principal, s.slices[sid])
    ensures SliceOk(Inbox(s.db.messages, run), principal, Asked(s, run, sid).slices[sid])
  {
    var slice, rows := s.slices[sid], Inbox(s.db.messages, run);
    var (db', polled, handover) := Poll(s.db, run, slice.seen, slice.through, slice.runAs);
    PollTakesNext(s.db, run, slice.seen, slice.through, slice.runAs, |slice.shown|);
    TakingKeepsOk(rows, principal, slice, polled.deliver, handover, Asked(s, run, sid).slices[sid]);
  }

  lemma TakingKeepsOk(rows: seq<Message>, principal: Option<Principal>, slice: Slice, deliver: seq<Message>, handover: Option<Principal>, slice': Slice)
    requires SliceOk(rows, principal, slice) && TakesNext(rows, |slice.shown|, slice.runAs, deliver, handover)
    requires slice'.shown == slice.shown + Entered(deliver, slice.runAs) && slice'.runAs == slice.runAs
    requires slice'.through == Reached(rows, |slice.shown| + |deliver|)
    requires slice'.handover == if handover.Some? then handover else slice.handover
    ensures SliceOk(rows, principal, slice')
  {
    NextShown(rows, principal, slice, deliver);
    if slice.handover.Some? && deliver != [] {
      assert false;
    }
  }

  lemma NextShown(rows: seq<Message>, principal: Option<Principal>, slice: Slice, deliver: seq<Message>)
    requires SliceOk(rows, principal, slice)
    requires |slice.shown| + |deliver| <= |rows| && deliver == rows[|slice.shown|..|slice.shown| + |deliver|]
    requires slice.runAs.Some? ==> forall m :: m in deliver ==> m.sender == slice.runAs.value
    ensures var shown := slice.shown + Entered(deliver, slice.runAs);
            IsPrefix(rows, shown) && forall i :: 0 <= i < |shown| ==> EnteredAs(shown[i], principal)
  {
    var k, shown := |slice.shown|, slice.shown + Entered(deliver, slice.runAs);
    forall i | k <= i < |shown|
      ensures shown[i].line == LineOf(rows[i]) && EnteredAs(shown[i], principal)
    {
      assert shown[i] == Shown(LineOf(deliver[i - k]), slice.runAs) && deliver[i - k] == rows[i];
      assert deliver[i - k] in deliver;
    }
  }

  lemma AskKeepsInv(s: State, run: RunId, principal: Option<Principal>, sid: SliceId)
    requires Inv(s, run, principal) && sid in s.slices
    ensures Inv(Asked(s, run, sid), run, principal)
  {
    AskedSliceIsOk(s, run, principal, sid);
    var slice, s' := s.slices[sid], Asked(s, run, sid);
    var mid := s.(slices := s'.slices);
    assert Inv(mid, run, principal);
    assert SliceOk(Inbox(s.db.messages, run), principal, slice);
    PollTakesNext(s.db, run, slice.seen, slice.through, slice.runAs, |slice.shown|);
    var polled := Poll(s.db, run, slice.seen, slice.through, slice.runAs).1;
    MarkRestatuses(s.db.messages, polled.deliver);
    RestatusKeepsInbox(s.db.messages, s'.db.messages, run);
    RestatusKeepsNumbered(s.db, s'.db, run);
    TableChangeKeepsInv(mid, s', run, principal);
  }

  lemma TableStepKeepsInv(s: State, run: RunId, principal: Option<Principal>, a: Action)
    requires Inv(s, run, principal) && (a.Rewrite? || a.Send? || a.Retire?)
    ensures Inv(Step(s, run, a), run, principal)
  {
    var s' := Step(s, run, a);
    match a
    case Rewrite(_, _) => TableChangeKeepsInv(s, s', run, principal);
    case Send(id, mode, body) =>
      SendGrowsInbox(s.db, id, mode, body, run);
      TableChangeKeepsInv(s, s', run, principal);
    case Retire(_) =>
      RestatusKeepsInbox(s.db.messages, s'.db.messages, run);
      RestatusKeepsNumbered(s.db, s'.db, run);
      TableChangeKeepsInv(s, s', run, principal);
  }

  lemma OpenKeepsInv(s: State, run: RunId, principal: Option<Principal>, sid: SliceId, saved: Checkpoint)
    requires Inv(s, run, principal) && CheckpointOk(Inbox(s.db.messages, run), principal, saved)
    ensures Inv(Opened(s, run, sid, saved.runAs, saved.shown, saved.through), run, principal)
  {
  }

  /** An approval's continuation starts over on the inbox; it may do so while its transcript shows none. */
  predicate Careful(s: State, a: Action) {
    a.OpenApproved? && a.cid in s.saved ==> s.saved[a.cid].shown == []
  }

  lemma StepKeepsInv(s: State, run: RunId, principal: Option<Principal>, a: Action)
    requires Inv(s, run, principal) && Careful(s, a)
    ensures Inv(Step(s, run, a), run, principal)
  {
    var rows := Inbox(s.db.messages, run);
    match a
    case Rewrite(_, _) => TableStepKeepsInv(s, run, principal, a);
    case Send(_, _, _) => TableStepKeepsInv(s, run, principal, a);
    case Retire(_) => TableStepKeepsInv(s, run, principal, a);
    case Ask(sid) => if sid in s.slices { AskKeepsInv(s, run, principal, sid); }
    case OpenFresh(sid) => OpenKeepsInv(s, run, principal, sid, Checkpoint([], -1, None));
    case OpenFrom(sid, cid) =>
      if cid in s.saved {
        assert CheckpointOk(rows, principal, s.saved[cid]);
        OpenKeepsInv(s, run, principal, sid, s.saved[cid]);
      }
    case OpenApproved(sid, cid) => if cid in s.saved { OpenKeepsInv(s, run, principal, sid, Checkpoint([], -1, None)); }
    case Save(sid, cid) => if sid in s.slices && cid !in s.saved { assert SliceOk(rows, principal, s.slices[sid]); }
    case Yield(sid, cid) => if sid in s.slices && cid !in s.saved { assert SliceOk(rows, principal, s.slices[sid]); }
    case Crash(_) =>
  }

  predicate CarefulHistory(run: RunId, principal: Option<Principal>, history: seq<Action>) {
    history == [] ||
    var before := history[..|history| - 1];
    CarefulHistory(run, principal, before) && Careful(After(run, principal, before), history[|history| - 1])
  }

  lemma {:induction false} AlwaysInv(run: RunId, principal: Option<Principal>, history: seq<Action>)
    requires CarefulHistory(run, principal, history)
    ensures Inv(After(run, principal, history), run, principal)
  {
    if history != [] {
      var before := history[..|history| - 1];
      AlwaysInv(run, principal, before);
      StepKeepsInv(After(run, principal, before), run, principal, history[|history| - 1]);
    }
  }

  // ---- main results, for every state any history leads to ----

  ghost predicate Reachable(s: State, run: RunId, principal: Option<Principal>) {
    exists history :: CarefulHistory(run, principal, history) && s == After(run, principal, history)
  }

  lemma ReachableInv(s: State, run: RunId, principal: Option<Principal>)
    requires Reachable(s, run, principal)
    ensures Inv(s, run, principal)
  {
    var history :| CarefulHistory(run, principal, history) && s == After(run, principal, history);
    AlwaysInv(run, principal, history);
  }

  /** INBOX DELIVERY. Whatever slices came, crashed, resumed and handed over before it, a slice's
      transcript holds exactly the first messages of the run's inbox, each once, in order of number, and
      each entered while a slice ran as its own sender; its watermark is the last of them. */
  lemma DeliveredInOrder(s: State, run: RunId, principal: Option<Principal>, sid: SliceId)
    requires Reachable(s, run, principal)
    requires sid in s.slices
    ensures var slice := s.slices[sid];
            && Ascending(Inbox(s.db.messages, run))
            && Faithful(Inbox(s.db.messages, run), principal, slice.shown, slice.through)
  {
    ReachableInv(s, run, principal);
    SelectPair(s.db.messages, ForRun(run), run);
  }

  /** A slice that has all its run was sent, or hands over to the sender of the very next message. */
  predicate CaughtUp(rows: seq<Message>, slice: Slice) {
    |slice.shown| <= |rows| && (|slice.shown| < |rows| ==> slice.handover == Some(rows[|slice.shown|].sender))
  }

  lemma AskedIsCaughtUp(s: State, run: RunId, principal: Option<Principal>, sid: SliceId)
    requires Numbered(s.db, run) && sid in s.slices && SliceOk(Inbox(s.db.messages, run), principal, s.slices[sid])
    ensures var s' := Asked(s, run, sid); CaughtUp(Inbox(s'.db.messages, run), s'.slices[sid])
  {
    var slice := s.slices[sid];
    PollTakesNext(s.db, run, slice.seen, slice.through, slice.runAs, |slice.shown|);
    MarkedInbox(s.db.messages, Poll(s.db, run, slice.seen, slice.through, slice.runAs).1.deliver, run);
  }

  /** NOTHING IS LEFT BEHIND. After a poll a slice has everything its run was sent, or hands over to the
      sender of the very next message. */
  lemma PollLeavesNothing(s: State, run: RunId, principal: Option<Principal>, sid: SliceId)
    requires Reachable(s, run, principal)
    requires sid in s.slices
    ensures var s' := Asked(s, run, sid);
            CaughtUp(Inbox(s'.db.messages, run), s'.slices[sid])
  {
    ReachableInv(s, run, principal);
    AskedIsCaughtUp(s, run, principal, sid);
  }

  /** A slice's first poll, when its transcript holds the first `k` messages and it runs as the next one's
      sender, delivers that message. */
  lemma FirstPollDelivers(db: Db, run: RunId, through: int, runAs: Option<Principal>, k: nat)
    requires Numbered(db, run) && k < |Inbox(db.messages, run)| && through == Reached(Inbox(db.messages, run), k)
    requires runAs == Some(Inbox(db.messages, run)[k].sender)
    ensures var deliver := Poll(db, run, -1, through, runAs).1.deliver;
            deliver != [] && deliver[0] == Inbox(db.messages, run)[k]
  {
    PollTakesNext(db, run, -1, through, runAs, k);
  }

  lemma FromOpens(s: State, run: RunId, sid: SliceId, cid: CheckpointId)
    requires cid in s.saved && s.saved[cid].runAs.Some?
    ensures Step(s, run, OpenFrom(sid, cid)).slices[sid] == Slice(s.saved[cid].runAs, s.saved[cid].shown, s.saved[cid].through, -1, None)
  {
  }

  lemma HandedDelivers(db: Db, run: RunId, principal: Option<Principal>, saved: Checkpoint)
    requires Numbered(db, run) && CheckpointOk(Inbox(db.messages, run), principal, saved) && saved.runAs.Some?
    ensures var deliver := Poll(db, run, -1, saved.through, saved.runAs).1.deliver;
            deliver != [] && deliver[0].sender == saved.runAs.value
  {
    FirstPollDelivers(db, run, saved.through, saved.runAs, |saved.shown|);
  }
}
