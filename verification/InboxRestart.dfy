/** What a continuation after an approval does to delivery: its transcript is kept, how far it reaches is not. */
module InboxRestart {
  import opened Options
  import opened Tables
  import opened InboxSpec
  import opened RunSpec
  import opened SliceSpec
  import opened InboxDelivery

  // ---- any history, and its twin whose approvals forget what was shown ----

  /** All of one but what it began with. */
  predicate Tail(whole: seq<Shown>, tail: seq<Shown>) {
    |tail| <= |whole| && whole[|whole| - |tail|..] == tail
  }

  predicate SliceForgets(slice: Slice, twin: Slice) {
    twin == slice.(shown := twin.shown) && Tail(slice.shown, twin.shown)
  }

  predicate CheckpointForgets(saved: Checkpoint, twin: Checkpoint) {
    twin == saved.(shown := twin.shown) && Tail(saved.shown, twin.shown)
  }

  predicate Forgets(s: State, twin: State) {
    && twin.db == s.db
    && twin.slices.Keys == s.slices.Keys && twin.saved.Keys == s.saved.Keys
    && (forall sid :: sid in s.slices ==> SliceForgets(s.slices[sid], twin.slices[sid]))
    && (forall cid :: cid in s.saved ==> CheckpointForgets(s.saved[cid], twin.saved[cid]))
  }

  function TwinOf(s: State, a: Action): Action {
    if a.OpenApproved? && a.cid in s.saved then OpenFresh(a.sid) else a
  }

  lemma AskForgets(s: State, twin: State, run: RunId, sid: SliceId)
    requires Forgets(s, twin) && sid in s.slices
    ensures Forgets(Asked(s, run, sid), Asked(twin, run, sid))
  {
    var slice, other := s.slices[sid], twin.slices[sid];
    assert SliceForgets(slice, other);
    var entered := Entered(Poll(s.db, run, slice.seen, slice.through, slice.runAs).1.deliver, slice.runAs);
    TailGrows(slice.shown, other.shown, entered);
  }

  lemma TailGrows(whole: seq<Shown>, tail: seq<Shown>, more: seq<Shown>)
    requires Tail(whole, tail)
    ensures Tail(whole + more, tail + more)
  {
    assert (whole + more)[|whole| - |tail|..] == whole[|whole| - |tail|..] + more;
  }

  lemma TableForgets(s: State, twin: State, run: RunId, a: Action)
    requires Forgets(s, twin) && (a.Rewrite? || a.Send? || a.Retire? || a.Crash?)
    ensures Forgets(Step(s, run, a), Step(twin, run, a))
  {
  }

  lemma OpenForgets(s: State, twin: State, run: RunId, sid: SliceId, declared: Option<Principal>, shown: seq<Shown>, tail: seq<Shown>, through: int)
    requires Forgets(s, twin) && Tail(shown, tail)
    ensures Forgets(Opened(s, run, sid, declared, shown, through), Opened(twin, run, sid, declared, tail, through))
  {
  }

  /** Two rows that agree, put under one key of two tables that agree. */
  lemma SavedForgets(s: State, twin: State, cid: CheckpointId, saved: Checkpoint, other: Checkpoint)
    requires Forgets(s, twin) && CheckpointForgets(saved, other)
    ensures Forgets(s.(saved := s.saved[cid := saved]), twin.(saved := twin.saved[cid := other]))
  {
    var mine, others := s.saved[cid := saved], twin.saved[cid := other];
    forall c | c in mine
      ensures CheckpointForgets(mine[c], others[c])
    {
      assert c != cid ==> CheckpointForgets(s.saved[c], twin.saved[c]);
    }
  }

  lemma ClosedForgets(s: State, twin: State, sid: SliceId)
    requires Forgets(s, twin)
    ensures Forgets(s.(slices := s.slices - {sid}), twin.(slices := twin.slices - {sid}))
  {
    var mine, others := s.slices - {sid}, twin.slices - {sid};
    forall other | other in mine
      ensures SliceForgets(mine[other], others[other])
    {
      assert SliceForgets(s.slices[other], twin.slices[other]);
    }
  }

  lemma SaveForgets(s: State, twin: State, run: RunId, a: Action)
    requires Forgets(s, twin) && (a.Save? || a.Yield?)
    ensures Forgets(Step(s, run, a), Step(twin, run, a))
  {
    if a.sid in s.slices && a.cid !in s.saved {
      var slice, other := s.slices[a.sid], twin.slices[a.sid];
      assert SliceForgets(slice, other);
      var runAs := if a.Yield? then slice.handover else None;
      var saved, tail := Checkpoint(slice.shown, slice.through, runAs), Checkpoint(other.shown, other.through, runAs);
      SavedForgets(s, twin, a.cid, saved, tail);
      if a.Yield? {
        ClosedForgets(s.(saved := s.saved[a.cid := saved]), twin.(saved := twin.saved[a.cid := tail]), a.sid);
      }
    }
  }

  lemma StepForgets(s: State, twin: State, run: RunId, a: Action)
    requires Forgets(s, twin)
    ensures Forgets(Step(s, run, a), Step(twin, run, TwinOf(s, a)))
  {
    match a
    case Ask(sid) => if sid in s.slices { AskForgets(s, twin, run, sid); }
    case OpenFresh(sid) => OpenForgets(s, twin, run, sid, None, [], [], -1);
    case OpenApproved(sid, cid) => if cid in s.saved { OpenForgets(s, twin, run, sid, None, s.saved[cid].shown, [], -1); }
    case OpenFrom(sid, cid) =>
      if cid in s.saved {
        var saved, other := s.saved[cid], twin.saved[cid];
        assert CheckpointForgets(saved, other);
        OpenForgets(s, twin, run, sid, saved.runAs, saved.shown, other.shown, saved.through);
      }
    case Save(_, _) => SaveForgets(s, twin, run, a);
    case Yield(_, _) => SaveForgets(s, twin, run, a);
    case _ => TableForgets(s, twin, run, a);
  }

  lemma TwinIsCareful(s: State, twin: State, a: Action)
    requires Forgets(s, twin)
    ensures Careful(twin, TwinOf(s, a))
  {
  }

  lemma AfterAppend(run: RunId, principal: Option<Principal>, history: seq<Action>, a: Action)
    ensures After(run, principal, history + [a]) == Step(After(run, principal, history), run, a)
    ensures CarefulHistory(run, principal, history) && Careful(After(run, principal, history), a) ==> CarefulHistory(run, principal, history + [a])
  {
    assert (history + [a])[..|history|] == history;
  }

  lemma {:induction false} TwinHistory(run: RunId, principal: Option<Principal>, history: seq<Action>) returns (twin: seq<Action>)
    ensures CarefulHistory(run, principal, twin)
    ensures Forgets(After(run, principal, history), After(run, principal, twin))
  {
    twin := [];
    if history != [] {
      var before, a := history[..|history| - 1], history[|history| - 1];
      var other := TwinHistory(run, principal, before);
      var s := After(run, principal, before);
      StepForgets(s, After(run, principal, other), run, a);
      TwinIsCareful(s, After(run, principal, other), a);
      AfterAppend(run, principal, other, TwinOf(s, a));
      twin := other + [TwinOf(s, a)];
    }
  }

  lemma SameLength(rows: seq<Message>, principal: Option<Principal>, shown: seq<Shown>, k: nat, through: int)
    requires Ascending(rows) && (forall i :: 0 <= i < |rows| ==> rows[i].num >= 1)
    requires k <= |shown| && Faithful(rows, principal, shown[k..], through)
    ensures Faithful(rows, principal, shown, through) <==> k == 0
  {
    if k == 0 {
      assert shown[k..] == shown;
    } else if |shown| <= |rows| && |shown| > k {
      assert rows[|shown| - k - 1].num < rows[|shown| - 1].num;
    }
  }

  // ---- main results, for every history whatever ----

  ghost predicate Possible(s: State, run: RunId, principal: Option<Principal>) {
    exists history :: s == After(run, principal, history)
  }

  lemma TwinState(s: State, run: RunId, principal: Option<Principal>) returns (twin: State)
    requires Possible(s, run, principal)
    ensures Inv(twin, run, principal) && Forgets(s, twin)
  {
    var history :| s == After(run, principal, history);
    var other := TwinHistory(run, principal, history);
    AlwaysInv(run, principal, other);
    twin := After(run, principal, other);
  }

  /** The transcript from line `k` on is faithful, and the whole of it is only if that is all of it. */
  predicate FaithfulFrom(rows: seq<Message>, principal: Option<Principal>, slice: Slice, k: nat) {
    && k <= |slice.shown|
    && Faithful(rows, principal, slice.shown[k..], slice.through)
    && (Faithful(rows, principal, slice.shown, slice.through) <==> k == 0)
  }

  /** DELIVERY SINCE THE LAST RESTART. Whatever came before, a slice's transcript ends with exactly the first
      messages of the run's inbox, each once, in order, each entered under its own sender, up to its
      watermark; and that is the whole transcript if and only if the transcript agrees with the watermark. */
  lemma DeliveredSinceRestart(s: State, run: RunId, principal: Option<Principal>, sid: SliceId)
    requires Possible(s, run, principal) && sid in s.slices
    ensures exists k :: FaithfulFrom(Inbox(s.db.messages, run), principal, s.slices[sid], k)
  {
    var twin := TwinState(s, run, principal);
    TwinDelivers(twin, run, principal, sid, s.slices[sid]);
  }

  lemma TwinDelivers(twin: State, run: RunId, principal: Option<Principal>, sid: SliceId, slice: Slice)
    requires Inv(twin, run, principal) && sid in twin.slices && SliceForgets(slice, twin.slices[sid])
    ensures exists k :: FaithfulFrom(Inbox(twin.db.messages, run), principal, slice, k)
  {
    var k := |slice.shown| - |twin.slices[sid].shown|;
    var rows := Inbox(twin.db.messages, run);
    assert SliceOk(rows, principal, twin.slices[sid]);
    InboxAscends(twin.db, run);
    SameLength(rows, principal, slice.shown, k, slice.through);
    assert FaithfulFrom(rows, principal, slice, k);
  }

  lemma InboxAscends(db: Db, run: RunId)
    requires Numbered(db, run)
    ensures var rows := Inbox(db.messages, run); Ascending(rows) && forall i :: 0 <= i < |rows| ==> rows[i].num >= 1
  {
    DrainableIsRest(db, run, -1, 0);
    forall i | 0 <= i < |Inbox(db.messages, run)|
      ensures Inbox(db.messages, run)[i].num >= 1
    {
      InboxRow(db, run, i);
    }
  }

  /** EVERY HANDOVER DELIVERS, restarts or not: the slice it asked for runs as the sender it was handed to, and
      its first poll delivers at least that sender's message. */
  lemma HandoverDelivers(s: State, run: RunId, principal: Option<Principal>, cid: CheckpointId, sid: SliceId)
    requires Possible(s, run, principal)
    requires cid in s.saved && s.saved[cid].runAs.Some?
    ensures var slice := Step(s, run, OpenFrom(sid, cid)).slices[sid];
            var deliver := Poll(s.db, run, slice.seen, slice.through, slice.runAs).1.deliver;
            slice.runAs == s.saved[cid].runAs && deliver != [] && deliver[0].sender == s.saved[cid].runAs.value
  {
    var twin := TwinState(s, run, principal);
    assert CheckpointForgets(s.saved[cid], twin.saved[cid]);
    FromOpens(s, run, sid, cid);
    HandedDelivers(s.db, run, principal, twin.saved[cid]);
  }

  /** What the watermark has not passed: nothing, or the next sender's, to whom the slice hands over. */
  predicate LeavesNothing(rows: seq<Message>, slice: Slice) {
    forall i :: 0 <= i < |rows| && rows[i].num > slice.through ==>
      exists j :: 0 <= j <= i && rows[j].num > slice.through && slice.handover == Some(rows[j].sender)
  }

  /** A POLL REACHES ALL, restarts or not. After a poll everything the run was sent is within the slice's
      watermark, or the slice hands over to the sender of the very next message. */
  lemma PollReachesAll(s: State, run: RunId, principal: Option<Principal>, sid: SliceId)
    requires Possible(s, run, principal) && sid in s.slices
    ensures var s' := Asked(s, run, sid); LeavesNothing(Inbox(s'.db.messages, run), s'.slices[sid])
  {
    var twin := TwinState(s, run, principal);
    assert SliceForgets(s.slices[sid], twin.slices[sid]);
    AskKeepsInv(twin, run, principal, sid);
    AskedIsCaughtUp(twin, run, principal, sid);
    CaughtUpLeavesNothing(Asked(twin, run, sid), run, principal, sid);
  }

  lemma CaughtUpLeavesNothing(s: State, run: RunId, principal: Option<Principal>, sid: SliceId)
    requires Inv(s, run, principal) && sid in s.slices && CaughtUp(Inbox(s.db.messages, run), s.slices[sid])
    ensures LeavesNothing(Inbox(s.db.messages, run), s.slices[sid])
  {
    var rows, slice := Inbox(s.db.messages, run), s.slices[sid];
    InboxAscends(s.db, run);
    assert SliceOk(rows, principal, slice);
    var k := |slice.shown|;
    forall i | 0 <= i < |rows| && rows[i].num > slice.through
      ensures exists j :: 0 <= j <= i && rows[j].num > slice.through && slice.handover == Some(rows[j].sender)
    {
      assert i >= k;
      assert k > 0 ==> rows[k - 1].num < rows[k].num;
    }
  }

  // ---- the slice an approval opens ----

  /** THE APPROVAL RESTARTS THE INBOX. A slice opened after an approval holds a transcript its watermark
      agrees with exactly when that transcript shows no inbox message. */
  lemma ApprovalIsFaithfulIffEmpty(s: State, run: RunId, principal: Option<Principal>, sid: SliceId, cid: CheckpointId)
    requires Possible(s, run, principal)
    requires cid in s.saved
    ensures var slice := Step(s, run, OpenApproved(sid, cid)).slices[sid];
            Faithful(Inbox(s.db.messages, run), principal, slice.shown, slice.through) <==> s.saved[cid].shown == []
  {
    var twin := TwinState(s, run, principal);
    RestartIsFaithfulIffEmpty(s.db, run, principal, s.saved[cid].shown);
    RestartOpens(s, run, principal, sid, cid);
  }

  lemma RestartIsFaithfulIffEmpty(db: Db, run: RunId, principal: Option<Principal>, shown: seq<Shown>)
    requires Numbered(db, run)
    ensures Faithful(Inbox(db.messages, run), principal, shown, -1) <==> shown == []
  {
    if shown != [] && |shown| <= |Inbox(db.messages, run)| {
      InboxRow(db, run, |shown| - 1);
    }
  }

  predicate StartsWith(shown: seq<Shown>, sender: Option<Principal>) {
    shown != [] && sender == Some(shown[0].line.sender)
  }

  /** And where it shows some, the first poll begins again with the first message: when that one's sender
      started the run, the transcript then holds it twice. */
  lemma ApprovalShowsTwice(s: State, run: RunId, principal: Option<Principal>, sid: SliceId, cid: CheckpointId)
    requires Reachable(s, run, principal)
    requires cid in s.saved && StartsWith(s.saved[cid].shown, principal)
    ensures var slice := Step(s, run, OpenApproved(sid, cid)).slices[sid];
            var deliver := Poll(s.db, run, slice.seen, slice.through, slice.runAs).1.deliver;
            && slice.shown == s.saved[cid].shown
            && deliver != [] && LineOf(deliver[0]) == s.saved[cid].shown[0].line
  {
    ReachableInv(s, run, principal);
    RestartShowsFirst(s.db, run, principal, s.saved[cid]);
    RestartOpens(s, run, principal, sid, cid);
  }

  lemma RestartOpens(s: State, run: RunId, principal: Option<Principal>, sid: SliceId, cid: CheckpointId)
    requires run in s.db.runs && s.db.runs[run].principal == principal && cid in s.saved
    ensures Step(s, run, OpenApproved(sid, cid)).slices[sid] == Slice(principal, s.saved[cid].shown, -1, -1, None)
  {
  }

  lemma RestartShowsFirst(db: Db, run: RunId, principal: Option<Principal>, saved: Checkpoint)
    requires Numbered(db, run) && CheckpointOk(Inbox(db.messages, run), principal, saved)
    requires StartsWith(saved.shown, principal)
    ensures var deliver := Poll(db, run, -1, -1, principal).1.deliver;
            deliver != [] && LineOf(deliver[0]) == saved.shown[0].line
  {
    FirstPollDelivers(db, run, -1, principal, 0);
  }

  // ---- such a checkpoint, and what becomes of it ----

  const ASKER: Principal := 7
  const NOTE: MessageId := MessageId(0, ASKER, Client(1))

  function NoteRow(status: MessageStatus): Message {
    Message(NOTE, 0, NextStep, 5, ASKER, 1, status)
  }

  function Noted(status: MessageStatus): Db {
    Db(map[0 := NewRun(Some(ASKER), None).(messageSeq := 1)], map[], map[], [NoteRow(status)], [])
  }

  const ONCE: Shown := Shown(Line(1, ASKER, 5), Some(ASKER))

  lemma NoteIsRead(status: MessageStatus)
    ensures Poll(Noted(status), 0, -1, -1, Some(ASKER)) == (Noted(Delivered), Polled(0, None, [NoteRow(status)]), None)
  {
    var messages := [NoteRow(status)];
    assert Select(messages, DrainsFrom(0, -1)) == messages;
    assert SortByNum(messages) == messages;
    assert Own(messages, Some(ASKER)) == messages;
    assert messages[0].id == NOTE;
    assert Mark(messages, messages) == [NoteRow(Delivered)];
  }

  function Reading(shown: seq<Shown>, through: int, seen: int): Slice {
    Slice(Some(ASKER), shown, through, seen, None)
  }

  /** A slice that has not polled yet reads the note onto its transcript. */
  lemma AskReadsNote(s: State, sid: SliceId, status: MessageStatus, shown: seq<Shown>)
    requires s.db == Noted(status) && sid in s.slices && s.slices[sid] == Reading(shown, -1, -1)
    ensures Step(s, 0, Ask(sid)) == s.(db := Noted(Delivered), slices := s.slices[sid := Reading(shown + [ONCE], 1, 0)])
  {
    NoteIsRead(status);
    assert Entered([NoteRow(status)], Some(ASKER)) == [ONCE];
    assert Through(-1, [NoteRow(status)]) == 1;
  }

  lemma NoteIsSent()
    ensures Step(Initial(0, Some(ASKER)), 0, Send(NOTE, NextStep, 5)) == State(Noted(Unread), map[], map[])
  {
  }

  lemma SliceIsOpened()
    ensures Step(State(Noted(Unread), map[], map[]), 0, OpenFresh(1)) == State(Noted(Unread), map[1 := Reading([], -1, -1)], map[])
  {
  }

  /** The run's own principal sends a note, and a slice reads it. */
  lemma NoteIsTaken() returns (history: seq<Action>)
    ensures CarefulHistory(0, Some(ASKER), history)
    ensures After(0, Some(ASKER), history) == State(Noted(Delivered), map[1 := Reading([ONCE], 1, 0)], map[])
  {
    history := [];
    NoteIsSent();
    AfterAppend(0, Some(ASKER), history, Send(NOTE, NextStep, 5)); history := history + [Send(NOTE, NextStep, 5)];
    SliceIsOpened();
    AfterAppend(0, Some(ASKER), history, OpenFresh(1)); history := history + [OpenFresh(1)];
    AskReadsNote(State(Noted(Unread), map[1 := Reading([], -1, -1)], map[]), 1, Unread, []);
    var slices := map[1 := Reading([], -1, -1)];
    assert [] + [ONCE] == [ONCE] && slices[1 := Reading([ONCE], 1, 0)] == map[1 := Reading([ONCE], 1, 0)];
    AfterAppend(0, Some(ASKER), history, Ask(1)); history := history + [Ask(1)];
  }

  /** A NOTE READ TWICE. Its transcript is saved; the slice that continues after the approval shows the one
      note sent twice over. */
  lemma NoteIsShownTwice() returns (history: seq<Action>, cid: CheckpointId, sid: SliceId)
    ensures CarefulHistory(0, Some(ASKER), history)
    ensures var s := After(0, Some(ASKER), history); cid in s.saved && StartsWith(s.saved[cid].shown, Some(ASKER))
    ensures var s := Step(Step(After(0, Some(ASKER), history), 0, OpenApproved(sid, cid)), 0, Ask(sid));
            s.db.messages == [NoteRow(Delivered)] && sid in s.slices && s.slices[sid].shown == [ONCE, ONCE]
  {
    history := NoteIsTaken();
    cid, sid := 1, 2;
    AfterAppend(0, Some(ASKER), history, Save(1, cid)); history := history + [Save(1, cid)];
    var resumed := Step(After(0, Some(ASKER), history), 0, OpenApproved(sid, cid));
    AskReadsNote(resumed, sid, Delivered, [ONCE]);
  }
}
