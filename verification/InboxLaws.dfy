/** What admission, a drain and adoption do to the message table, in the words of its columns. */
module InboxLaws {
  import opened Options
  import opened Tables
  import opened InboxSpec
  import opened RunSpec
  import opened StoreLaws
  import InboxAdoption

  // ---- admission ----

  predicate IsKnown(messages: seq<Message>, id: MessageId, num: nat) {
    exists i :: 0 <= i < |messages| && (messages[i].id == id || (messages[i].toRun == id.toRun && messages[i].num == num))
  }

  /** ADMISSION. A missing run is none, a finished one bounces; a live one counts one more, and unless the id or the
      number is taken it is given one unread row more, under that number. */
  lemma AdmitsOne(db: Db, id: MessageId, mode: Mode, body: Body)
    ensures var run := id.toRun;
            Admit(db, id, mode, body) ==
              if run !in db.runs then (db, NoSuchRun)
              else if !IsLive(db, run) then (db, Bounced(db.runs[run].status))
              else
                var num := db.runs[run].messageSeq + 1;
                var counted := db.runs[run := db.runs[run].(messageSeq := num)];
                if IsKnown(db.messages, id, num) then (db.(runs := counted), AlreadyKnown(num))
                else (db.(runs := counted, messages := db.messages + [Message(id, run, mode, body, id.sender, num, Unread)]), Admitted(num))
  {
  }

  // ---- draining ----

  /** A row a drain may read: the run's, past the watermark, and not left for the turn's end. */
  predicate IsReadable(m: Message, run: RunId, after: int) {
    m.toRun == run && after < m.num && (m.mode == NextStep || m.mode == Interrupt)
  }

  /** What the table's two unique indexes see to. */
  predicate IsTable(messages: seq<Message>) {
    && InboxAdoption.DistinctIds(messages)
    && (forall a, b :: a in messages && b in messages && a.toRun == b.toRun && a.num == b.num ==> a == b)
  }

  predicate IsForeign(m: Message, runAs: Option<Principal>) {
    runAs.Some? && m.sender != runAs.value
  }

  lemma ReadableRows(messages: seq<Message>, run: RunId, after: int)
    requires IsTable(messages)
    ensures IsReading(Drainable(messages, run, after), messages, run, after)
  {
    var kept := Select(messages, DrainsFrom(run, after));
    SelectMembers(messages, DrainsFrom(run, after));
    InboxAdoption.SelectIsDistinct(messages, DrainsFrom(run, after));
    InboxAdoption.SortIsSorted(kept);
    var rows := SortByNum(kept);
    forall m
      ensures m in rows <==> m in messages && IsReadable(m, run, after)
    {
      assert m in rows <==> m in kept;
    }
    forall i, j | 0 <= i < j < |rows|
      ensures rows[i].num < rows[j].num
    {
      assert rows[i] in rows && rows[j] in rows && rows[i].id != rows[j].id;
    }
  }

  /** A readable row with no foreign one at or before it. */
  ghost predicate IsTaken(messages: seq<Message>, run: RunId, after: int, runAs: Option<Principal>, m: Message) {
    && m in messages && IsReadable(m, run, after)
    && forall other :: other in messages && IsReadable(other, run, after) && other.num <= m.num ==> !IsForeign(other, runAs)
  }

  /** The foreign row of the lowest number. */
  ghost predicate IsFirstForeign(messages: seq<Message>, run: RunId, after: int, runAs: Option<Principal>, m: Message) {
    && m in messages && IsReadable(m, run, after) && IsForeign(m, runAs)
    && forall other :: other in messages && IsReadable(other, run, after) && IsForeign(other, runAs) ==> m.num <= other.num
  }

  /** The readable rows, by number. */
  ghost predicate IsReading(rows: seq<Message>, messages: seq<Message>, run: RunId, after: int) {
    && (forall m :: m in rows <==> m in messages && IsReadable(m, run, after))
    && (forall i, j :: 0 <= i < j < |rows| ==> rows[i].num < rows[j].num)
  }

  /** Where the rows of others begin. */
  lemma OwnSplits(rows: seq<Message>, runAs: Option<Principal>) returns (n: nat)
    ensures n == |Own(rows, runAs)| <= |rows| && Own(rows, runAs) == rows[..n]
    ensures forall k :: 0 <= k < n ==> !IsForeign(rows[k], runAs)
    ensures n < |rows| ==> IsForeign(rows[n], runAs)
  {
    var own := Own(rows, runAs);
    n := |own|;
    forall k | 0 <= k < n
      ensures !IsForeign(rows[k], runAs)
    {
      assert own[k] == rows[k] && own[k] in own;
    }
  }

  lemma OwnIsTakenIff(messages: seq<Message>, run: RunId, after: int, runAs: Option<Principal>, rows: seq<Message>, i: nat)
    requires IsReading(rows, messages, run, after) && i < |rows|
    ensures i < |Own(rows, runAs)| <==> IsTaken(messages, run, after, runAs, rows[i])
  {
    var n := OwnSplits(rows, runAs);
    assert rows[i] in rows;
    assert n < |rows| ==> rows[n] in rows;
    if i < n {
      forall other | other in messages && IsReadable(other, run, after) && other.num <= rows[i].num
        ensures !IsForeign(other, runAs)
      {
        assert other in rows;
        var j :| 0 <= j < |rows| && rows[j] == other;
      }
    } else {
      assert rows[n].num <= rows[i].num;
    }
  }

  lemma OwnIffTaken(messages: seq<Message>, run: RunId, after: int, runAs: Option<Principal>, rows: seq<Message>, m: Message)
    requires IsReading(rows, messages, run, after)
    ensures m in Own(rows, runAs) <==> IsTaken(messages, run, after, runAs, m)
  {
    var own := Own(rows, runAs);
    if m in own {
      var i :| 0 <= i < |own| && own[i] == m;
      OwnIsTakenIff(messages, run, after, runAs, rows, i);
    }
    if IsTaken(messages, run, after, runAs, m) {
      assert m in rows;
      var i :| 0 <= i < |rows| && rows[i] == m;
      OwnIsTakenIff(messages, run, after, runAs, rows, i);
      assert own[i] == m;
    }
  }

  lemma NextIsFirstForeign(messages: seq<Message>, run: RunId, after: int, runAs: Option<Principal>, rows: seq<Message>)
    requires IsReading(rows, messages, run, after) && Own(rows, runAs) != rows
    ensures IsFirstForeign(messages, run, after, runAs, rows[|Own(rows, runAs)|])
  {
    var n := OwnSplits(rows, runAs);
    assert rows[n] in rows;
    forall other | other in messages && IsReadable(other, run, after) && IsForeign(other, runAs)
      ensures rows[n].num <= other.num
    {
      assert other in rows;
      var i :| 0 <= i < |rows| && rows[i] == other;
      assert i >= n;
    }
  }

  /** A DRAIN DELIVERS, in ascending order, exactly the readable rows before the first from somebody else, and names the
      sender of that one if there is one. */
  lemma DrainDelivers(db: Db, run: RunId, after: int, runAs: Option<Principal>)
    requires IsTable(db.messages)
    ensures var (delivered, handover) := (Drain(db, run, after, runAs).delivered, Drain(db, run, after, runAs).handover);
            && (forall m :: m in delivered <==> IsTaken(db.messages, run, after, runAs, m))
            && (forall i, j :: 0 <= i < j < |delivered| ==> delivered[i].num < delivered[j].num)
            && (handover == None <==> forall m :: m in db.messages && IsReadable(m, run, after) ==> !IsForeign(m, runAs))
            && (handover.Some? ==> exists m :: IsFirstForeign(db.messages, run, after, runAs, m) && m.sender == handover.value)
  {
    var rows := Drainable(db.messages, run, after);
    var own := Own(rows, runAs);
    ReadableRows(db.messages, run, after);
    forall m
      ensures m in own <==> IsTaken(db.messages, run, after, runAs, m)
    {
      OwnIffTaken(db.messages, run, after, runAs, rows, m);
    }
    if own != rows {
      NextIsFirstForeign(db.messages, run, after, runAs, rows);
      assert Drain(db, run, after, runAs).handover == Some(rows[|own|].sender);
    } else {
      NoneIsForeign(db.messages, run, after, runAs, rows);
      assert Drain(db, run, after, runAs).handover == None;
    }
  }

  lemma NoneIsForeign(messages: seq<Message>, run: RunId, after: int, runAs: Option<Principal>, rows: seq<Message>)
    requires IsReading(rows, messages, run, after) && Own(rows, runAs) == rows
    ensures forall m :: m in messages && IsReadable(m, run, after) ==> !IsForeign(m, runAs)
  {
    forall m | m in messages && IsReadable(m, run, after)
      ensures !IsForeign(m, runAs)
    {
      assert m in rows;
    }
  }

  /** And marks exactly those delivered, whatever their status was; no other row and no other table changes. */
  lemma DrainMarks(db: Db, run: RunId, after: int, runAs: Option<Principal>, i: nat)
    requires IsTable(db.messages) && i < |db.messages|
    ensures var drained := Drain(db, run, after, runAs); var m := db.messages[i];
            && drained.db == db.(messages := drained.db.messages) && |drained.db.messages| == |db.messages|
            && drained.db.messages[i] == if IsTaken(db.messages, run, after, runAs, m) then m.(status := Delivered) else m
  {
    var drained, m := Drain(db, run, after, runAs), db.messages[i];
    DrainDelivers(db, run, after, runAs);
    if m in drained.delivered {
      var k :| 0 <= k < |drained.delivered| && drained.delivered[k] == m;
    } else {
      forall k | 0 <= k < |drained.delivered|
        ensures drained.delivered[k].id != m.id
      {
        assert drained.delivered[k] in drained.delivered && drained.delivered[k] in db.messages;
        var j :| 0 <= j < |db.messages| && db.messages[j] == drained.delivered[k];
      }
    }
  }

  // ---- adoption ----

  /** Its run has ended, on this conversation, and nobody read it. */
  predicate IsLeft(db: Db, thread: ThreadId, m: Message) {
    && m in db.messages && m.status == Unread && m.toRun in db.runs
    && db.runs[m.toRun].threadId == Some(thread)
    && (db.runs[m.toRun].status == Completed || db.runs[m.toRun].status == Failed || db.runs[m.toRun].status == Cancelled)
  }

  /** THE NEXT TURN IS GIVEN IT. Every message left on the thread has an unread row of the new run, from the same sender and
      with the same body: urgent if it was, and otherwise to be read at the next step, even if it was left for the turn's
      end. */
  lemma TurnIsGivenCopy(history: seq<InboxAdoption.Action>, run: RunId, principal: Option<Principal>, thread: ThreadId, m: Message)
    requires run !in InboxAdoption.After(history).runs && IsLeft(InboxAdoption.After(history), thread, m)
    ensures exists row :: row in OpenRun(InboxAdoption.After(history), run, principal, Some(thread)).messages && IsCopy(row, m, run)
  {
    InboxAdoption.AlwaysTableOk(history);
    OpenGivesCopy(InboxAdoption.After(history), run, principal, thread, m);
  }

  predicate IsCopy(row: Message, m: Message, run: RunId) {
    && row.toRun == run && row.sender == m.sender && row.body == m.body && row.status == Unread
    && row.id == MessageId(run, m.sender, Adopted(m.id))
    && row.mode == if m.mode == Interrupt then Interrupt else NextStep
  }

  lemma OpenGivesCopy(db: Db, run: RunId, principal: Option<Principal>, thread: ThreadId, m: Message)
    requires InboxAdoption.TableOk(db) && run !in db.runs && IsLeft(db, thread, m)
    ensures exists row :: row in OpenRun(db, run, principal, Some(thread)).messages && IsCopy(row, m, run)
  {
    var created := InboxAdoption.Created(db, run, principal, Some(thread));
    var left := LeftOver(created, thread, run);
    InboxAdoption.OpenRunAdopts(db, run, principal, Some(thread));
    InboxAdoption.LeftOverRows(created, thread, run);
    assert m in left;
    var k :| 0 <= k < |left| && left[k] == m;
    var messages := OpenRun(db, run, principal, Some(thread)).messages;
    assert messages[|db.messages| + k] == InboxAdoption.Copy(m, run, k + 1);
    assert messages[|db.messages| + k] in messages && IsCopy(messages[|db.messages| + k], m, run);
  }
}
