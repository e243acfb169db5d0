/** The printer of an event stream, undone by the parser. */
module EventPrinter {
  import opened Options
  import opened EventStream

  /** `json` is the text of the event's data. */
  datatype Event = Event(id: Option<string>, name: Option<string>, json: string)

  function Print(e: Event): string {
    (if e.id.Some? then "id: " + e.id.value + "\n" else "")
    + (if e.name.Some? then "event: " + e.name.value + "\n" else "")
    + "data: " + e.json + "\n\n"
  }

  function PrintAll(events: seq<Event>): string {
    if events == [] then "" else Print(events[0]) + PrintAll(events[1..])
  }

  /** JSON text is never empty and holds no line break: it escapes those it means. */
  predicate IsJsonText(json: string) {
    json != "" && '\n' !in json && '\r' !in json
  }

  /** A value that stays on its line: no line feed in it, no carriage return at its end. */
  predicate Clean(value: Option<string>) {
    value.Some? ==> '\n' !in value.value && (value.value != "" ==> value.value[|value.value| - 1] != '\r')
  }

  predicate OneLine(value: Option<string>) {
    value.Some? ==> '\n' !in value.value
  }

  // ---- lines ----

  function Field(name: string, value: string): string {
    name + ": " + value
  }

  function Lines(e: Event): (r: seq<string>)
    ensures r != []
  {
    (if e.id.Some? then [Field("id", e.id.value)] else [])
    + (if e.name.Some? then [Field("event", e.name.value)] else [])
    + [Field("data", e.json)]
  }

  /** Lines a part can be joined from and split into again. */
  predicate Whole(lines: seq<string>) {
    && lines != []
    && (forall i :: 0 <= i < |lines| ==> lines[i] != "" && '\n' !in lines[i] && lines[i][0] != '\r')
    && lines[|lines| - 1][|lines[|lines| - 1]| - 1] != '\r'
  }

  lemma PrintIsLines(e: Event)
    ensures Print(e) == JoinLines(Lines(e)) + "\n\n"
  {
    var data := [Field("data", e.json)];
    assert JoinLines(data) == "data: " + e.json;
    if e.name.Some? {
      assert JoinLines([Field("event", e.name.value)] + data) == "event: " + e.name.value + "\n" + JoinLines(data);
    }
    if e.id.Some? {
      var others := Lines(e.(id := None));
      assert Lines(e) == [Field("id", e.id.value)] + others;
      assert JoinLines(Lines(e)) == "id: " + e.id.value + "\n" + JoinLines(others);
    }
  }

  lemma LinesAreWhole(e: Event)
    requires IsJsonText(e.json) && OneLine(e.id) && OneLine(e.name)
    ensures Whole(Lines(e))
  {
  }

  /** A line feed among joined lines is followed by the next line's first character. */
  lemma {:induction false} FeedIsInside(lines: seq<string>, a: nat)
    requires Whole(lines) && a < |JoinLines(lines)| && JoinLines(lines)[a] == '\n'
    ensures a + 1 < |JoinLines(lines)| && JoinLines(lines)[a + 1] != '\n' && JoinLines(lines)[a + 1] != '\r'
  {
    if |lines| > 1 {
      var first, others := lines[0], JoinLines(lines[1..]);
      JoinStarts(lines[1..]);
      if a > |first| {
        FeedIsInside(lines[1..], a - |first| - 1);
      }
    }
  }

  lemma JoinStarts(lines: seq<string>)
    requires Whole(lines)
    ensures JoinLines(lines) != "" && JoinLines(lines)[0] == lines[0][0]
    ensures lines[0][0] != '\n' && lines[0][0] != '\r'
  {
    assert lines[0][0] in lines[0];
  }

  lemma {:induction false} JoinEnds(lines: seq<string>)
    requires Whole(lines)
    ensures JoinLines(lines) != "" && JoinLines(lines)[|JoinLines(lines)| - 1] != '\r'
  {
    if |lines| > 1 {
      JoinEnds(lines[1..]);
    }
  }

  lemma NoSepInside(lines: seq<string>, rest: string, q: nat)
    requires Whole(lines) && q < |JoinLines(lines)|
    ensures SepAt(JoinLines(lines) + "\n\n" + rest, q) == 0
  {
    var text := JoinLines(lines);
    var s := text + "\n\n" + rest;
    JoinEnds(lines);
    var a := if s[q] == '\r' then q + 1 else q;
    assert a < |text|;
    assert s[a] == text[a];
    if text[a] == '\n' {
      FeedIsInside(lines, a);
      assert s[a + 1] == text[a + 1];
    }
  }

  /** Joined lines, followed by a blank one, are one part. */
  lemma OnePart(lines: seq<string>, rest: string)
    requires Whole(lines)
    ensures Cut(JoinLines(lines) + "\n\n" + rest) == Cut(rest).After(JoinLines(lines))
  {
    var text := JoinLines(lines);
    forall q | 0 <= q < |text|
      ensures SepAt(text + "\n\n" + rest, q) == 0
    {
      NoSepInside(lines, rest, q);
    }
    CutsBefore(text, rest, text + "\n\n" + rest);
  }

  lemma CutsBefore(text: string, rest: string, s: string)
    requires s == text + "\n\n" + rest && forall q :: 0 <= q < |text| ==> SepAt(s, q) == 0
    ensures Cut(s) == Cut(rest).After(text)
  {
    CutsHere(s, |text|);
    assert s[|text| + 2..] == rest;
    assert s[..|text|] == text;
  }

  lemma CutsHere(s: string, p: nat)
    requires p + 1 < |s| && s[p] == '\n' && s[p + 1] == '\n'
    requires forall q :: 0 <= q < p ==> SepAt(s, q) == 0
    ensures Cut(s) == Cut(s[p + 2..]).After(s[..p])
  {
    assert SepAt(s, p) == 2;
    assert FirstSep(s, 0) == p;
    assert Head(s) == s[..p] && Tail(s) == s[p + 2..];
  }

  /** What splitting leaves of joined lines: each but the last without its own carriage return. */
  function Stripped(lines: seq<string>): seq<string> {
    if |lines| <= 1 then lines else [StripReturn(lines[0])] + Stripped(lines[1..])
  }

  lemma IndexIsFirst(s: string, c: char, i: nat)
    requires i <= |s| && (i < |s| ==> s[i] == c) && forall k :: 0 <= k < i ==> s[k] != c
    ensures IndexOf(s, c) == i
  {
  }

  lemma {:induction false} SplitUndoesJoin(lines: seq<string>)
    requires Whole(lines)
    ensures SplitLines(JoinLines(lines)) == Stripped(lines)
  {
    var text, first := JoinLines(lines), lines[0];
    if |lines| == 1 {
      IndexIsFirst(text, '\n', |text|);
    } else {
      IndexIsFirst(text, '\n', |first|);
      assert text[..|first|] == first && text[|first| + 1..] == JoinLines(lines[1..]);
      SplitUndoesJoin(lines[1..]);
    }
  }

  lemma FieldIsRead(f: Partial, field: string, value: string)
    requires field != "" && ':' !in field
    ensures ReadLine(f, Field(field, value)) ==
              if field == "id" then f.(id := Some(value))
              else if field == "event" then f.(name := Some(value))
              else if field == "data" then f.(lines := f.lines + [value])
              else f
  {
    var line := Field(field, value);
    assert line[0] == field[0] && field[0] in field;
    IndexIsFirst(line, ':', |field|);
    assert line[..|field|] == field;
    assert line[|field| + 1..] == " " + value;
    assert (" " + value)[1..] == value;
  }

  function WithoutReturn(value: Option<string>): Option<string> {
    if value.Some? then Some(StripReturn(value.value)) else None
  }

  lemma StripField(field: string, value: string)
    ensures StripReturn(Field(field, value)) == Field(field, StripReturn(value))
  {
    var line := Field(field, value);
    if value == "" {
      assert line[|line| - 1] == ' ';
    } else {
      assert line[|line| - 1] == value[|value| - 1];
      assert line[..|line| - 1] == Field(field, value[..|value| - 1]);
    }
  }

  lemma ReadFirst(f: Partial, lines: seq<string>)
    requires lines != []
    ensures ReadLines(f, lines) == ReadLines(ReadLine(f, lines[0]), lines[1..])
  {
  }

  lemma DataIsRead(f: Partial, json: string)
    ensures ReadLines(f, [Field("data", json)]) == f.(lines := f.lines + [json])
  {
    FieldIsRead(f, "data", json);
    ReadFirst(f, [Field("data", json)]);
  }

  lemma NameIsRead(f: Partial, name: Option<string>, json: string)
    requires f.name == None
    ensures ReadLines(f, Stripped(Lines(Event(None, name, json)))) == f.(name := WithoutReturn(name), lines := f.lines + [json])
  {
    var lines := Lines(Event(None, name, json));
    if name.Some? {
      StripField("event", name.value);
      FieldIsRead(f, "event", StripReturn(name.value));
      assert lines[1..] == [Field("data", json)];
      ReadFirst(f, Stripped(lines));
      assert Stripped(lines)[1..] == [Field("data", json)];
      DataIsRead(f.(name := WithoutReturn(name)), json);
    } else {
      assert lines == [Field("data", json)];
      DataIsRead(f, json);
    }
  }

  lemma EventIsRead(e: Event)
    ensures ReadLines(Partial(None, None, []), Stripped(Lines(e))) == Partial(WithoutReturn(e.id), WithoutReturn(e.name), [e.json])
  {
    var lines, start := Lines(e), Partial(None, None, []);
    if e.id.Some? {
      var others := Lines(Event(None, e.name, e.json));
      StripField("id", e.id.value);
      FieldIsRead(start, "id", StripReturn(e.id.value));
      assert lines[1..] == others;
      ReadFirst(start, Stripped(lines));
      assert Stripped(lines)[1..] == Stripped(others);
      NameIsRead(start.(id := WithoutReturn(e.id)), e.name, e.json);
    } else {
      assert lines == Lines(Event(None, e.name, e.json));
      NameIsRead(start, e.name, e.json);
    }
  }

  /** One printed event, whatever follows it, is read as one frame: the event, but for a carriage return
      at the end of its id or name. */
  lemma PrintedIsRead(e: Event, rest: string)
    requires IsJsonText(e.json) && OneLine(e.id) && OneLine(e.name)
    ensures Drain(Print(e) + rest) == Drained([Frame(WithoutReturn(e.id), WithoutReturn(e.name), e.json)], "").Then(Drain(rest))
  {
    var lines := Lines(e);
    PrintIsLines(e);
    LinesAreWhole(e);
    OnePart(lines, rest);
    assert Print(e) + rest == JoinLines(lines) + "\n\n" + rest;
    PartIsFrame(e);
    FlatFirst(Cut(rest).After(JoinLines(lines)).parts, FrameOf);
  }

  lemma PartIsFrame(e: Event)
    requires IsJsonText(e.json) && OneLine(e.id) && OneLine(e.name)
    ensures FrameOf(JoinLines(Lines(e))) == [Frame(WithoutReturn(e.id), WithoutReturn(e.name), e.json)]
  {
    LinesAreWhole(e);
    SplitUndoesJoin(Lines(e));
    EventIsRead(e);
    assert JoinLines([e.json]) == e.json;
  }

  // ---- main results ----

  /** The frame an event should be read as. */
  function Expected(e: Event): Frame {
    Frame(e.id, e.name, e.json)
  }

  lemma {:induction false} LinesHoldNoFeed(s: string)
    ensures forall i :: 0 <= i < |SplitLines(s)| ==> '\n' !in SplitLines(s)[i]
    decreases |s|
  {
    var i := IndexOf(s, '\n');
    if i < |s| {
      LinesHoldNoFeed(s[i + 1..]);
    }
  }

  predicate PartialOneLine(f: Partial) {
    OneLine(f.id) && OneLine(f.name)
  }

  lemma ReadLineKeepsOneLine(f: Partial, line: string)
    requires PartialOneLine(f) && '\n' !in line
    ensures PartialOneLine(ReadLine(f, line))
  {
  }

  lemma {:induction false} ReadLinesKeepOneLine(f: Partial, lines: seq<string>)
    requires PartialOneLine(f) && forall i :: 0 <= i < |lines| ==> '\n' !in lines[i]
    ensures PartialOneLine(ReadLines(f, lines))
    decreases |lines|
  {
    if lines != [] {
      ReadLineKeepsOneLine(f, lines[0]);
      ReadLinesKeepOneLine(ReadLine(f, lines[0]), lines[1..]);
    }
  }

  lemma {:induction false} FramesAreOneLine(parts: seq<string>, frame: Frame)
    requires frame in FramesOf(parts)
    ensures OneLine(frame.id) && OneLine(frame.name)
  {
    FlatFirst(parts, FrameOf);
    if frame in FrameOf(parts[0]) {
      LinesHoldNoFeed(parts[0]);
      ReadLinesKeepOneLine(Partial(None, None, []), SplitLines(parts[0]));
    } else {
      FramesAreOneLine(parts[1..], frame);
    }
  }

  lemma NothingDrained()
    ensures Drain("") == Drained([], "")
  {
    assert FirstSep("", 0) == 0;
  }

  lemma CleanIffKept(value: Option<string>)
    ensures Clean(value) <==> OneLine(value) && WithoutReturn(value) == value
  {
  }

  lemma LoneEventIsRead(e: Event)
    requires IsJsonText(e.json) && OneLine(e.id) && OneLine(e.name)
    ensures Drain(Print(e)) == Drained([Frame(WithoutReturn(e.id), WithoutReturn(e.name), e.json)], "")
  {
    PrintedIsRead(e, "");
    NothingDrained();
    assert Print(e) + "" == Print(e);
  }

  lemma NoFrameHoldsFeed(s: string, frame: Frame)
    requires !OneLine(frame.id) || !OneLine(frame.name)
    ensures Drain(s).frames != [frame]
  {
    var frames := Drain(s).frames;
    if frames == [frame] {
      assert frames[0] in frames;
      FramesAreOneLine(Cut(s).parts, frame);
    }
  }

  /** AN EVENT ROUND-TRIPS exactly when its id and its name hold no line feed and end in no carriage
      return; whatever text its data is. */
  lemma RoundTripIff(e: Event)
    requires IsJsonText(e.json)
    ensures Drain(Print(e)) == Drained([Expected(e)], "") <==> Clean(e.id) && Clean(e.name)
  {
    CleanIffKept(e.id);
    CleanIffKept(e.name);
    if OneLine(e.id) && OneLine(e.name) {
      LoneEventIsRead(e);
    } else {
      NoFrameHoldsFeed(Print(e), Expected(e));
    }
  }

  function AllExpected(events: seq<Event>): (r: seq<Frame>)
    ensures |r| == |events|
    ensures forall i :: 0 <= i < |events| ==> r[i] == Expected(events[i])
  {
    if events == [] then [] else [Expected(events[0])] + AllExpected(events[1..])
  }

  predicate AllOneLine(events: seq<Event>) {
    forall i :: 0 <= i < |events| ==> OneLine(events[i].id) && OneLine(events[i].name)
  }

  predicate AllClean(events: seq<Event>) {
    forall i :: 0 <= i < |events| ==> Clean(events[i].id) && Clean(events[i].name)
  }

  /** What a stream is read as, where no line feed is in its ids and names. */
  function AllRead(events: seq<Event>): (r: seq<Frame>)
    ensures |r| == |events|
    ensures forall i :: 0 <= i < |events| ==> r[i] == Frame(WithoutReturn(events[i].id), WithoutReturn(events[i].name), events[i].json)
  {
    if events == [] then []
    else [Frame(WithoutReturn(events[0].id), WithoutReturn(events[0].name), events[0].json)] + AllRead(events[1..])
  }

  lemma {:induction false} StreamIsRead(events: seq<Event>)
    requires AllOneLine(events) && forall i :: 0 <= i < |events| ==> IsJsonText(events[i].json)
    ensures Drain(PrintAll(events)) == Drained(AllRead(events), "")
  {
    if events == [] {
      NothingDrained();
    } else {
      PrintedIsRead(events[0], PrintAll(events[1..]));
      StreamIsRead(events[1..]);
    }
  }

  lemma CleanIffRead(events: seq<Event>)
    ensures AllClean(events) <==> AllOneLine(events) && AllRead(events) == AllExpected(events)
  {
    forall i | 0 <= i < |events|
      ensures Clean(events[i].id) <==> OneLine(events[i].id) && WithoutReturn(events[i].id) == events[i].id
      ensures Clean(events[i].name) <==> OneLine(events[i].name) && WithoutReturn(events[i].name) == events[i].name
    {
      CleanIffKept(events[i].id);
      CleanIffKept(events[i].name);
    }
  }

  lemma NoStreamHoldsFeed(s: string, events: seq<Event>)
    requires !AllOneLine(events)
    ensures Drain(s).frames != AllExpected(events)
  {
    if Drain(s).frames == AllExpected(events) {
      var i :| 0 <= i < |events| && !(OneLine(events[i].id) && OneLine(events[i].name));
      assert AllExpected(events)[i] in Drain(s).frames;
      FramesAreOneLine(Cut(s).parts, AllExpected(events)[i]);
    }
  }

  /** THE PARSER UNDOES THE PRINTER, over any events and any chunks the network makes of them, exactly when
      every id and name holds no line feed and ends in no carriage return. */
  lemma StreamRoundTripsIff(events: seq<Event>, chunks: seq<string>)
    requires forall i :: 0 <= i < |events| ==> IsJsonText(events[i].json)
    requires Concat(chunks) == PrintAll(events)
    ensures Feed("", chunks) == Drained(AllExpected(events), "") <==> AllClean(events)
  {
    ChunksDoNotMatter(chunks);
    CleanIffRead(events);
    if AllOneLine(events) {
      StreamIsRead(events);
    } else {
      NoStreamHoldsFeed(PrintAll(events), events);
    }
  }

  // ---- the printer itself ----

  method PrintFrame(e: Event) returns (frame: string)
    ensures frame == Print(e)
  {
    frame := "";
    if e.id.Some? {
      frame := frame + "id: " + e.id.value + "\n";
    }
    if e.name.Some? {
      frame := frame + "event: " + e.name.value + "\n";
    }
    frame := frame + "data: " + e.json + "\n\n";
  }

  /** A stream of events, printed one by one: read in any chunks it gives those events back exactly when
      every id and name is clean. */
  method PrintStream(events: seq<Event>) returns (text: string)
    ensures text == PrintAll(events)
    ensures (forall i :: 0 <= i < |events| ==> IsJsonText(events[i].json)) ==>
              forall chunks :: Concat(chunks) == text ==> (Feed("", chunks) == Drained(AllExpected(events), "") <==> AllClean(events))
  {
    text := "";
    var k := 0;
    while k < |events|
      invariant 0 <= k <= |events|
      invariant text + PrintAll(events[k..]) == PrintAll(events)
    {
      var frame := PrintFrame(events[k]);
      assert PrintAll(events[k..]) == frame + PrintAll(events[k + 1..]) by {
        assert events[k..][0] == events[k] && events[k..][1..] == events[k + 1..];
      }
      text := text + frame;
      k := k + 1;
    }
    if forall i :: 0 <= i < |events| ==> IsJsonText(events[i].json) {
      forall chunks | Concat(chunks) == text
        ensures Feed("", chunks) == Drained(AllExpected(events), "") <==> AllClean(events)
      {
        StreamRoundTripsIff(events, chunks);
      }
    }
  }
}
