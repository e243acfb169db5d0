/** Server-sent events: the printer of one end and the incremental parser of the other. */
module EventStream {
  import opened Options

  datatype Frame = Frame(id: Option<string>, name: Option<string>, data: string)

  // ---- cutting a buffer at blank lines ----

  /** The length of the blank-line separator that starts at `p`: two line ends, each with or without a
      carriage return; 0 if none does. */
  function SepAt(s: string, p: nat): (n: nat)
    requires p <= |s|
    ensures p + n <= |s|
  {
    var a := if p < |s| && s[p] == '\r' then p + 1 else p;
    if a < |s| && s[a] == '\n' then
      var b := if a + 1 < |s| && s[a + 1] == '\r' then a + 2 else a + 1;
      if b < |s| && s[b] == '\n' then b + 1 - p else 0
    else 0
  }

  /** Where the first separator starts, from `p` on; the end if there is none. */
  function FirstSep(s: string, p: nat): (at: nat)
    requires p <= |s|
    ensures p <= at <= |s|
    ensures forall q :: p <= q < at ==> SepAt(s, q) == 0
    ensures at < |s| ==> SepAt(s, at) > 0
    decreases |s| - p
  {
    if p == |s| || SepAt(s, p) > 0 then p else FirstSep(s, p + 1)
  }

  datatype Cuts = Cuts(parts: seq<string>, rest: string)
  {
    function After(part: string): Cuts {
      Cuts([part] + parts, rest)
    }

    function Then(more: Cuts): Cuts {
      Cuts(parts + more.parts, more.rest)
    }
  }

  predicate HasSep(s: string) {
    FirstSep(s, 0) < |s|
  }

  /** What is before the first separator, and what is after it. */
  function Head(s: string): string {
    s[..FirstSep(s, 0)]
  }

  function Tail(s: string): (tail: string)
    requires HasSep(s)
    ensures |tail| < |s|
  {
    s[FirstSep(s, 0) + SepAt(s, FirstSep(s, 0))..]
  }

  /** The complete parts, and what is left after the last separator. */
  function Cut(s: string): Cuts
    decreases |s|
  {
    if HasSep(s) then Cut(Tail(s)).After(Head(s)) else Cuts([], s)
  }

  // ---- one frame ----

  function IndexOf(s: string, c: char): (i: nat)
    ensures i <= |s| && (i < |s| ==> s[i] == c) && forall k :: 0 <= k < i ==> s[k] != c
  {
    if s == "" || s[0] == c then 0 else 1 + IndexOf(s[1..], c)
  }

  /** A line without the carriage return of its own line end. */
  function StripReturn(line: string): string {
    if line != "" && line[|line| - 1] == '\r' then line[..|line| - 1] else line
  }

  function SplitLines(s: string): seq<string>
    decreases |s|
  {
    var i := IndexOf(s, '\n');
    if i == |s| then [s] else [StripReturn(s[..i])] + SplitLines(s[i + 1..])
  }

  function DropSpace(s: string): string {
    if s != "" && s[0] == ' ' then s[1..] else s
  }

  /** What has been read of a frame: its id, its name and its data lines. */
  datatype Partial = Partial(id: Option<string>, name: Option<string>, lines: seq<string>)

  function ReadLine(f: Partial, line: string): Partial {
    if line == "" || line[0] == ':' then f
    else
      var colon := IndexOf(line, ':');
      var field, value := line[..colon], if colon == |line| then "" else DropSpace(line[colon + 1..]);
      if field == "id" then f.(id := Some(value))
      else if field == "event" then f.(name := Some(value))
      else if field == "data" then f.(lines := f.lines + [value])
      else f
  }

  function ReadLines(f: Partial, lines: seq<string>): Partial
    decreases |lines|
  {
    if lines == [] then f else ReadLines(ReadLine(f, lines[0]), lines[1..])
  }

  function JoinLines(lines: seq<string>): string {
    if lines == [] then ""
    else if |lines| == 1 then lines[0]
    else lines[0] + "\n" + JoinLines(lines[1..])
  }

  /** The frame of a part, unless it says nothing. */
  function FrameOf(part: string): seq<Frame> {
    var f := ReadLines(Partial(None, None, []), SplitLines(part));
    if JoinLines(f.lines) != "" || f.id.Some? then [Frame(f.id, f.name, JoinLines(f.lines))] else []
  }

  /** What each element gives, one after the other. */
  function Flat<T, U>(xs: seq<T>, f: T -> seq<U>): seq<U> {
    if xs == [] then [] else f(xs[0]) + Flat(xs[1..], f)
  }

  function FramesOf(parts: seq<string>): seq<Frame> {
    Flat(parts, FrameOf)
  }

  datatype Drained = Drained(frames: seq<Frame>, rest: string)
  {
    function Then(more: Drained): Drained {
      Drained(frames + more.frames, more.rest)
    }
  }

  function Drain(buffer: string): Drained {
    Drained(FramesOf(Cut(buffer).parts), Cut(buffer).rest)
  }

  // ---- the parser, chunk by chunk ----

  /** The parser's buffer over a stream of chunks. */
  class Reader {
    var buffer: string

    constructor ()
      ensures buffer == ""
    {
      buffer := "";
    }

    /** Takes one chunk and gives the frames it completes. */
    method Push(chunk: string) returns (frames: seq<Frame>)
      modifies this
      ensures Drained(frames, buffer) == Drain(old(buffer) + chunk)
    {
      var parts, rest := CutAll(buffer + chunk);
      buffer := rest;
      frames := ReadFrames(parts);
    }

    method ReadFrames(parts: seq<string>) returns (frames: seq<Frame>)
      ensures frames == FramesOf(parts)
    {
      frames := [];
      var i := 0;
      assert parts[0..] == parts;
      while i < |parts|
        invariant 0 <= i <= |parts|
        invariant frames + FramesOf(parts[i..]) == FramesOf(parts)
      {
        FlatFirst(parts[i..], FrameOf);
        assert parts[i..][1..] == parts[i + 1..];
        var frame := ReadFrame(parts[i]);
        frames := frames + frame;
        i := i + 1;
      }
      assert parts[i..] == [];
    }

    /** Takes the first complete part off a text, if there is one. */
    method TakePart(text: string) returns (found: bool, part: string, tail: string)
      ensures found ==> |tail| < |text| && Cut(text) == Cut(tail).After(part)
      ensures !found ==> Cut(text) == Cuts([], text)
    {
      found, part, tail := HasSep(text), Head(text), "";
      if found {
        tail := Tail(text);
      }
    }

    method CutAll(text: string) returns (parts: seq<string>, rest: string)
      ensures Cuts(parts, rest) == Cut(text)
    {
      parts, rest := [], text;
      var more := true;
      assert Cuts([], "").Then(Cut(text)) == Cut(text);
      while more
        invariant !more ==> Cut(rest) == Cuts([], rest)
        invariant Cut(text) == Cuts(parts, "").Then(Cut(rest))
        decreases |rest|, more
      {
        var found, part, tail := TakePart(rest);
        if found {
          PartTaken(Cut(text), parts, part, Cut(rest), Cut(tail));
          parts, rest := parts + [part], tail;
        } else {
          more := false;
        }
      }
      assert Cuts(parts, "").Then(Cuts([], rest)) == Cuts(parts, rest);
    }

    method ReadFrame(part: string) returns (frame: seq<Frame>)
      ensures frame == FrameOf(part)
    {
      var lines := SplitLines(part);
      var f := Partial(None, None, []);
      var i := 0;
      while i < |lines|
        invariant 0 <= i <= |lines|
        invariant ReadLines(f, lines[i..]) == ReadLines(Partial(None, None, []), lines)
      {
        f := ReadLine(f, lines[i]);
        assert lines[i..][0] == lines[i] && lines[i..][1..] == lines[i + 1..];
        i := i + 1;
      }
      var data := JoinLines(f.lines);
      frame := if data != "" || f.id.Some? then [Frame(f.id, f.name, data)] else [];
    }
  }

  /** All the frames of a stream that comes in chunks, and what is left in the buffer. */
  function Feed(buffer: string, chunks: seq<string>): Drained
    decreases |chunks|
  {
    if chunks == [] then Drained([], buffer)
    else
      var first := Drain(buffer + chunks[0]);
      first.Then(Feed(first.rest, chunks[1..]))
  }

  function Concat(chunks: seq<string>): string {
    if chunks == [] then "" else chunks[0] + Concat(chunks[1..])
  }

  // ---- chunks do not matter ----

  lemma {:induction false} SepStays(a: string, b: string, p: nat)
    requires p <= |a| && SepAt(a, p) > 0
    ensures SepAt(a + b, p) == SepAt(a, p)
  {
  }

  /** No separator of the longer text starts before one of the shorter. */
  lemma {:induction false} NoEarlierSep(a: string, b: string, p: nat, q: nat)
    requires q < p < |a| && SepAt(a, p) > 0 && SepAt(a, q) == 0
    ensures SepAt(a + b, q) == 0
  {
  }

  lemma {:induction false} FirstSepStays(a: string, b: string)
    requires FirstSep(a, 0) < |a|
    ensures FirstSep(a + b, 0) == FirstSep(a, 0) && SepAt(a + b, FirstSep(a, 0)) == SepAt(a, FirstSep(a, 0))
  {
    var p := FirstSep(a, 0);
    SepStays(a, b, p);
    forall q | 0 <= q < p
      ensures SepAt(a + b, q) == 0
    {
      NoEarlierSep(a, b, p, q);
    }
  }

  lemma ThenAfter(parts: seq<string>, part: string, more: Cuts)
    ensures Cuts(parts, "").Then(more.After(part)) == Cuts(parts + [part], "").Then(more)
  {
  }

  lemma PartTaken(whole: Cuts, parts: seq<string>, part: string, rest: Cuts, tail: Cuts)
    requires whole == Cuts(parts, "").Then(rest) && rest == tail.After(part)
    ensures whole == Cuts(parts + [part], "").Then(tail)
  {
    ThenAfter(parts, part, tail);
  }

  lemma AfterThen(first: Cuts, part: string, more: Cuts)
    ensures first.After(part).Then(more) == first.Then(more).After(part)
  {
  }

  /** The first part of a text is the first part of any longer one. */
  lemma HeadStays(a: string, b: string)
    requires HasSep(a)
    ensures HasSep(a + b) && Head(a + b) == Head(a) && Tail(a + b) == Tail(a) + b
  {
    FirstSepStays(a, b);
  }

  lemma {:induction false} CutExtends(a: string, b: string)
    ensures Cut(a + b) == Cut(a).Then(Cut(Cut(a).rest + b))
    decreases |a|
  {
    if HasSep(a) {
      HeadStays(a, b);
      CutExtends(Tail(a), b);
      AfterThen(Cut(Tail(a)), Head(a), Cut(Cut(Tail(a)).rest + b));
    } else {
      assert Cut(a) == Cuts([], a);
    }
  }

  lemma FlatFirst<T, U>(xs: seq<T>, f: T -> seq<U>)
    requires xs != []
    ensures Flat(xs, f) == f(xs[0]) + Flat(xs[1..], f)
  {
  }

  lemma Regroup<U>(x: seq<U>, y: seq<U>, z: seq<U>)
    ensures x + (y + z) == x + y + z
  {
  }

  lemma {:induction false} FlatConcat<T, U>(a: seq<T>, b: seq<T>, f: T -> seq<U>)
    ensures Flat(a + b, f) == Flat(a, f) + Flat(b, f)
  {
    if a == [] {
      assert a + b == b;
    } else {
      FlatConcat(a[1..], b, f);
      FlatFirst(a, f);
      FlatFirst(a + b, f);
      Rest(a, b);
      Regroup(f(a[0]), Flat(a[1..], f), Flat(b, f));
    }
  }

  lemma Rest<T>(a: seq<T>, b: seq<T>)
    requires a != []
    ensures (a + b)[0] == a[0] && (a + b)[1..] == a[1..] + b
  {
  }

  lemma {:induction false} DrainThenDrain(a: string, b: string)
    ensures Drain(a + b) == Drain(a).Then(Drain(Drain(a).rest + b))
  {
    CutExtends(a, b);
    FlatConcat(Cut(a).parts, Cut(Cut(a).rest + b).parts, FrameOf);
  }

  lemma ConcatFirst(buffer: string, chunks: seq<string>)
    requires chunks != []
    ensures buffer + Concat(chunks) == (buffer + chunks[0]) + Concat(chunks[1..])
  {
  }

  lemma {:induction false} FeedIsDrain(buffer: string, chunks: seq<string>)
    requires Drain(buffer) == Drained([], buffer)
    ensures Feed(buffer, chunks) == Drain(buffer + Concat(chunks))
    decreases |chunks|
  {
    if chunks == [] {
      assert buffer + Concat(chunks) == buffer;
    } else {
      FeedFirst(buffer, chunks, buffer + chunks[0]);
    }
  }

  lemma {:induction false} FeedFirst(buffer: string, chunks: seq<string>, text: string)
    requires chunks != [] && text == buffer + chunks[0]
    ensures Feed(buffer, chunks) == Drain(buffer + Concat(chunks))
    decreases |chunks|, 0
  {
    RestDrainsNothing(text);
    FeedIsDrain(Drain(text).rest, chunks[1..]);
    DrainThenDrain(text, Concat(chunks[1..]));
    ConcatFirst(buffer, chunks);
  }

  lemma {:induction false} RestDrainsNothing(s: string)
    ensures Drain(Drain(s).rest) == Drained([], Drain(s).rest)
  {
    RestIsUncut(s);
  }

  lemma {:induction false} RestIsUncut(s: string)
    ensures Cut(Cut(s).rest) == Cuts([], Cut(s).rest)
    decreases |s|
  {
    if HasSep(s) {
      RestIsUncut(Tail(s));
    }
  }

  /** CHUNKS DO NOT MATTER. However a text is cut into chunks, even inside a line end, the parser gives the
      frames of the whole text, and keeps the same rest. */
  lemma ChunksDoNotMatter(chunks: seq<string>)
    ensures Feed("", chunks) == Drain(Concat(chunks))
  {
    assert "" + Concat(chunks) == Concat(chunks);
    FeedIsDrain("", chunks);
  }

  // ---- the format, in words ----

  /** A blank line: one line end after another, each a line feed with or without a carriage return before it. */
  lemma SeparatorsAreBlankLines(s: string, p: nat)
    requires p <= |s|
    ensures SepAt(s, p) ==
              if "\n\n" <= s[p..] then 2
              else if "\r\n\n" <= s[p..] || "\n\r\n" <= s[p..] then 3
              else if "\r\n\r\n" <= s[p..] then 4
              else 0
  {
  }

  lemma FirstSepIs(s: string, p: nat)
    requires p <= |s| && (forall q :: 0 <= q < p ==> SepAt(s, q) == 0) && (p < |s| ==> SepAt(s, p) > 0)
    ensures FirstSep(s, 0) == p
  {
  }

  /** A text is cut at its first blank line: what is before it is a part, all of the blank line goes, and the rest is cut
      likewise; a text without one is all rest. */
  lemma CutsAtBlankLines(s: string, p: nat, rest: Cuts)
    requires p <= |s| && (forall q :: 0 <= q < p ==> SepAt(s, q) == 0) && (p < |s| ==> SepAt(s, p) > 0)
    requires rest == Cut(s[p + SepAt(s, p)..])
    ensures Cut(s) == if p == |s| then Cuts([], s) else Cuts([s[..p]] + rest.parts, rest.rest)
  {
    FirstSepIs(s, p);
    if p < |s| {
      assert Head(s) == s[..p] && Tail(s) == s[p + SepAt(s, p)..];
      assert Cut(s) == rest.After(Head(s));
    }
  }

  lemma FeedComesFirst(line: string, more: string)
    requires '\n' !in line
    ensures IndexOf(line + "\n" + more, '\n') == |line|
  {
    var s := line + "\n" + more;
    assert s[..|line|] == line;
    IndexIs(s, '\n', |line|);
  }

  /** A part is split at its line feeds, and a line sheds one carriage return at its end, but for the last. */
  lemma SplitsAtFeeds(line: string, more: string)
    requires '\n' !in line
    ensures SplitLines(line) == [line]
    ensures SplitLines(line + "\r\n" + more) == [line] + SplitLines(more)
    ensures line == "" || line[|line| - 1] != '\r' ==> SplitLines(line + "\n" + more) == [line] + SplitLines(more)
  {
    var plain, returned := line + "\n" + more, (line + "\r") + "\n" + more;
    FeedComesFirst(line, more);
    FeedComesFirst(line + "\r", more);
    assert plain[..|line|] == line && plain[|line| + 1..] == more;
    assert returned[..|line| + 1] == line + "\r" && returned[|line| + 2..] == more;
    assert (line + "\r")[..|line|] == line;
    assert returned == line + "\r\n" + more;
    assert forall k :: 0 <= k < |line| ==> line[k] in line;
  }

  /** What a line gives a field: what follows its colon, one space after it dropped; nothing at all if it has none. */
  function ValueIn(line: string, field: string): Option<string> {
    if line == field then Some("")
    else if field + ": " <= line then Some(line[|field| + 2..])
    else if field + ":" <= line then Some(line[|field| + 1..])
    else None
  }

  /** The field's value in the last line that gives it one. */
  function LastValue(lines: seq<string>, field: string): Option<string> {
    if lines == [] then None
    else
      var last := lines[|lines| - 1];
      if ValueIn(last, field).Some? then ValueIn(last, field) else LastValue(lines[..|lines| - 1], field)
  }

  function AllValues(lines: seq<string>, field: string): seq<string> {
    if lines == [] then []
    else
      var last := lines[|lines| - 1];
      AllValues(lines[..|lines| - 1], field) + if ValueIn(last, field).Some? then [ValueIn(last, field).value] else []
  }

  lemma {:induction false} IndexIs(line: string, c: char, i: nat)
    requires i < |line| && line[i] == c && c !in line[..i]
    ensures IndexOf(line, c) == i
  {
    assert forall k :: 0 <= k < i ==> line[k] == line[..i][k];
  }

  /** The field and its colon come first exactly if the first colon ends that field's name. */
  lemma ColonEndsName(line: string, field: string)
    requires ':' !in field
    ensures field + ":" <= line <==> |field| < |line| && IndexOf(line, ':') == |field| && line[..|field|] == field
  {
    var n := |field|;
    assert n < |line| && line[n] == ':' && line[..n] == field ==> line[..n + 1] == field + ":";
    if field + ":" <= line {
      assert line[..n] == (field + ":")[..n] == field;
      assert line[n] == (field + ":")[n] == ':';
      IndexIs(line, ':', n);
    }
  }

  lemma SpaceAfterColon(line: string, field: string)
    requires field + ":" <= line
    ensures field + ": " <= line <==> |line| > |field| + 1 && line[|field| + 1] == ' '
    ensures DropSpace(line[|field| + 1..]) == if field + ": " <= line then line[|field| + 2..] else line[|field| + 1..]
  {
    var n := |field|;
    assert line[..n + 1] == field + ":";
    if |line| > n + 1 && line[n + 1] == ' ' {
      assert line[..n + 2] == field + ":" + " " == field + ": ";
    }
    if field + ": " <= line {
      assert line[n + 1] == (field + ": ")[n + 1] == ' ';
    }
    assert line[n + 1..] != "" ==> line[n + 1..][0] == line[n + 1] && line[n + 1..][1..] == line[n + 2..];
  }

  lemma ColonBeforeSpace(line: string, field: string)
    ensures field + ": " <= line ==> field + ":" <= line
  {
    assert (field + ": ")[..|field| + 1] == field + ":";
    assert field + ": " <= line ==> line[..|field| + 1] == field + ":";
  }

  lemma FieldOfLine(line: string, field: string)
    requires field != "" && ':' !in field
    ensures ValueIn(line, field).Some? <==> line != "" && line[..IndexOf(line, ':')] == field
    ensures ValueIn(line, field).Some? ==>
              ValueIn(line, field).value == if IndexOf(line, ':') == |line| then "" else DropSpace(line[IndexOf(line, ':') + 1..])
  {
    var i := IndexOf(line, ':');
    ColonEndsName(line, field);
    ColonBeforeSpace(line, field);
    if field + ":" <= line {
      SpaceAfterColon(line, field);
    } else if line == field {
      assert forall k :: 0 <= k < |line| ==> line[k] in field;
      assert line[..i] == line;
    } else if i == |line| {
      assert line[..i] == line;
    }
  }

  lemma LineGives(f: Partial, line: string)
    ensures ReadLine(f, line) == Partial(
              if ValueIn(line, "id").Some? then ValueIn(line, "id") else f.id,
              if ValueIn(line, "event").Some? then ValueIn(line, "event") else f.name,
              f.lines + if ValueIn(line, "data").Some? then [ValueIn(line, "data").value] else [])
  {
    FieldOfLine(line, "id");
    FieldOfLine(line, "event");
    FieldOfLine(line, "data");
  }

  lemma {:induction false} ReadLast(f: Partial, lines: seq<string>)
    requires lines != []
    ensures ReadLines(f, lines) == ReadLine(ReadLines(f, lines[..|lines| - 1]), lines[|lines| - 1])
    decreases |lines|
  {
    if |lines| > 1 {
      ReadLast(ReadLine(f, lines[0]), lines[1..]);
      assert lines[1..][..|lines| - 2] == lines[..|lines| - 1][1..];
    }
  }

  lemma {:induction false} LinesGive(lines: seq<string>)
    ensures ReadLines(Partial(None, None, []), lines) == Partial(LastValue(lines, "id"), LastValue(lines, "event"), AllValues(lines, "data"))
  {
    if lines != [] {
      LinesGive(lines[..|lines| - 1]);
      ReadLast(Partial(None, None, []), lines);
      LineGives(ReadLines(Partial(None, None, []), lines[..|lines| - 1]), lines[|lines| - 1]);
    }
  }

  /** A FRAME, IN WORDS. The last id and the last event name its lines give, and all their data, a line feed between two;
      comments and other fields say nothing, and a part that gives neither data nor an id is no frame. */
  lemma FrameSays(part: string)
    ensures var lines := SplitLines(part); var data := JoinLines(AllValues(lines, "data"));
            FrameOf(part) ==
              if data == "" && LastValue(lines, "id") == None then [] else [Frame(LastValue(lines, "id"), LastValue(lines, "event"), data)]
  {
    LinesGive(SplitLines(part));
  }
}
