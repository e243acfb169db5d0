/** The text of a projected type, and a reader of it. Property names come from schemas nobody vouches for,
    so what is quoted must read back as one name, whatever it holds. */
module CedarText {
  import opened Options
  import opened Projection

  // ---- writing ----

  /** Every `c` replaced, as one pass of `replaceAll`. */
  function ReplaceAll(s: string, c: char, by_: string): string {
    if s == "" then "" else (if s[0] == c then by_ else [s[0]]) + ReplaceAll(s[1..], c, by_)
  }

  /** Backslashes first, then quotes. */
  function CedarQuote(value: string): string {
    "\"" + ReplaceAll(ReplaceAll(value, '\\', "\\\\"), '\"', "\\\"") + "\""
  }

  /** A listing of a set: each element once. The order is the host's collation, which may be any. */
  ghost predicate IsListing(names: seq<string>, keys: set<string>) {
    && (forall i, j :: 0 <= i < j < |names| ==> names[i] != names[j])
    && (forall name :: name in names <==> name in keys)
  }

  function RenderType(shape: Shape, sort: set<string> -> seq<string>): string
    decreases shape, 1, 0
  {
    match shape
    case StringShape => "String"
    case BoolShape => "Bool"
    case LongShape => "Long"
    case SetOf(of) => "Set<" + RenderType(of, sort) + ">"
    case Record(props) => "{" + RenderFields(shape, sort(props.Keys), sort) + "}"
  }

  /** The fields named, joined by commas. */
  function RenderFields(shape: Shape, names: seq<string>, sort: set<string> -> seq<string>): string
    requires shape.Record?
    decreases shape, 0, |names|
  {
    if names == [] then ""
    else
      var first := if names[0] in shape.props then RenderField(shape, names[0], sort) else "";
      if |names| == 1 then first else first + ", " + RenderFields(shape, names[1..], sort)
  }

  function RenderField(shape: Shape, name: string, sort: set<string> -> seq<string>): string
    requires shape.Record? && name in shape.props
    decreases shape, 0, 0
  {
    CedarQuote(name) + (if shape.props[name].required then "" else "?") + ": " + RenderType(shape.props[name].shape, sort)
  }

  // ---- reading ----

  predicate Starts(s: string, prefix: string) {
    prefix <= s
  }

  /** The name up to its closing quote, escapes undone. */
  function ReadQuoted(s: string): (r: Option<(string, string)>)
    ensures r.Some? ==> |r.value.1| < |s|
  {
    if s == "" then None
    else if s[0] == '\"' then Some(("", s[1..]))
    else if s[0] == '\\' then
      if |s| < 2 || s[1] !in ['\\', '\"'] then None
      else match ReadQuoted(s[2..])
        case None => None
        case Some((name, rest)) => Some(([s[1]] + name, rest))
    else match ReadQuoted(s[1..])
      case None => None
      case Some((name, rest)) => Some(([s[0]] + name, rest))
  }

  function ReadType(s: string): (r: Option<(Shape, string)>)
    ensures r.Some? ==> |r.value.1| < |s|
    decreases |s|, 1
  {
    if Starts(s, "String") then Some((StringShape, s[6..]))
    else if Starts(s, "Bool") then Some((BoolShape, s[4..]))
    else if Starts(s, "Long") then Some((LongShape, s[4..]))
    else if Starts(s, "Set<") then
      match ReadType(s[4..])
      case None => None
      case Some((of, rest)) => if Starts(rest, ">") then Some((SetOf(of), rest[1..])) else None
    else if Starts(s, "{}") then Some((Record(map[]), s[2..]))
    else if Starts(s, "{") then ReadFields(s[1..], map[])
    else None
  }

  /** One field: its name, whether it is required, its type. */
  function ReadField(s: string): (r: Option<(string, Prop, string)>)
    ensures r.Some? ==> |r.value.2| < |s|
    decreases |s|, 0
  {
    if !Starts(s, "\"") then None
    else match ReadQuoted(s[1..])
      case None => None
      case Some((name, rest)) =>
        if Starts(rest, "?") then ReadProp(name, false, rest[1..]) else ReadProp(name, true, rest)
  }

  function ReadProp(name: string, required: bool, s: string): (r: Option<(string, Prop, string)>)
    ensures r.Some? ==> |r.value.2| < |s|
    decreases |s|, 0
  {
    if !Starts(s, ": ") then None
    else match ReadType(s[2..])
      case None => None
      case Some((shape, rest)) => Some((name, Prop(shape, required), rest))
  }

  /** The rest of a record's fields, up to its closing brace; a name may come once. */
  function ReadFields(s: string, props: map<string, Prop>): (r: Option<(Shape, string)>)
    ensures r.Some? ==> |r.value.1| < |s|
    decreases |s|, 1
  {
    match ReadField(s)
    case None => None
    case Some((name, prop, rest)) =>
      if name in props then None
      else if Starts(rest, "}") then Some((Record(props[name := prop]), rest[1..]))
      else if Starts(rest, ", ") then ReadFields(rest[2..], props[name := prop])
      else None
  }

  // ---- quoting reads back ----

  function Escape(s: string): string {
    if s == "" then ""
    else (if s[0] == '\\' || s[0] == '\"' then ['\\', s[0]] else [s[0]]) + Escape(s[1..])
  }

  lemma {:induction false} ReplaceAllConcat(a: string, b: string, c: char, by_: string)
    ensures ReplaceAll(a + b, c, by_) == ReplaceAll(a, c, by_) + ReplaceAll(b, c, by_)
  {
    if a == "" {
      assert a + b == b;
    } else {
      assert (a + b)[1..] == a[1..] + b;
      ReplaceAllConcat(a[1..], b, c, by_);
    }
  }

  /** The two passes do not meet: together they escape each character once. */
  lemma {:induction false} TwoPassesAreOne(s: string)
    ensures ReplaceAll(ReplaceAll(s, '\\', "\\\\"), '\"', "\\\"") == Escape(s)
  {
    if s != "" {
      TwoPassesAreOne(s[1..]);
      var head := if s[0] == '\\' then "\\\\" else [s[0]];
      ReplaceAllConcat(head, ReplaceAll(s[1..], '\\', "\\\\"), '\"', "\\\"");
      if s[0] == '\\' {
        assert head[1..] == "\\" && head[1..][1..] == "";
      } else {
        assert head[1..] == "";
      }
    }
  }

  /** QUOTING CANNOT BE BROKEN OUT OF. Whatever the name holds, quotes and backslashes included, what is
      read up to the closing quote is that name and nothing after it. */
  lemma {:induction false} QuotedReadsBack(name: string, rest: string)
    ensures ReadQuoted(Escape(name) + "\"" + rest) == Some((name, rest))
  {
    var s := Escape(name) + "\"" + rest;
    if name == "" {
      assert s[1..] == rest;
    } else {
      QuotedReadsBack(name[1..], rest);
      OneEscapeReads(name[0], name[1..], Escape(name[1..]) + "\"" + rest, rest);
      assert [name[0]] + name[1..] == name;
      assert s == (if name[0] == '\\' || name[0] == '\"' then ['\\', name[0]] else [name[0]]) + (Escape(name[1..]) + "\"" + rest);
    }
  }

  /** One character, escaped or not, before what reads back. */
  lemma OneEscapeReads(first: char, name: string, tail: string, rest: string)
    requires ReadQuoted(tail) == Some((name, rest))
    ensures ReadQuoted((if first == '\\' || first == '\"' then ['\\', first] else [first]) + tail) == Some(([first] + name, rest))
  {
    var s := (if first == '\\' || first == '\"' then ['\\', first] else [first]) + tail;
    if first == '\\' || first == '\"' {
      assert s[2..] == tail;
    } else {
      assert s[1..] == tail;
    }
  }

  // ---- a type reads back ----

  ghost predicate Sorts(sort: set<string> -> seq<string>) {
    forall keys :: IsListing(sort(keys), keys)
  }

  lemma StartsWithIt(prefix: string, rest: string)
    ensures Starts(prefix + rest, prefix) && (prefix + rest)[|prefix|..] == rest
  {
    assert (prefix + rest)[..|prefix|] == prefix;
  }

  lemma StartsElsewise(s: string, prefix: string, i: nat)
    requires i < |s| && i < |prefix| && s[i] != prefix[i]
    ensures !Starts(s, prefix)
  {
  }

  lemma LeafReadsBack(shape: Shape, sort: set<string> -> seq<string>, rest: string)
    requires shape.StringShape? || shape.BoolShape? || shape.LongShape?
    ensures ReadType(RenderType(shape, sort) + rest) == Some((shape, rest))
  {
    var word := RenderType(shape, sort);
    StartsWithIt(word, rest);
    if !shape.StringShape? {
      StartsElsewise(word + rest, "String", 0);
    }
    if shape.LongShape? {
      StartsElsewise(word + rest, "Bool", 0);
    }
  }

  lemma SetReads(of: Shape, text: string, rest: string)
    requires ReadType(text + ">" + rest) == Some((of, ">" + rest))
    ensures ReadType("Set<" + text + ">" + rest) == Some((SetOf(of), rest))
  {
    var s := "Set<" + (text + ">" + rest);
    assert s == "Set<" + text + ">" + rest;
    StartsElsewise(s, "String", 1);
    StartsElsewise(s, "Bool", 0);
    StartsElsewise(s, "Long", 0);
    StartsWithIt("Set<", text + ">" + rest);
    StartsWithIt(">", rest);
  }

  lemma EmptyRecordReads(rest: string)
    ensures ReadType("{}" + rest) == Some((Record(map[]), rest))
  {
    NotAWord("{}" + rest);
    StartsWithIt("{}", rest);
  }

  lemma NotAWord(s: string)
    requires s != "" && s[0] == '{'
    ensures !Starts(s, "String") && !Starts(s, "Bool") && !Starts(s, "Long") && !Starts(s, "Set<")
  {
    StartsElsewise(s, "String", 0);
    StartsElsewise(s, "Bool", 0);
    StartsElsewise(s, "Long", 0);
    StartsElsewise(s, "Set<", 0);
  }

  lemma RecordReads(fields: string, shape: Shape, rest: string)
    requires fields != "" && fields[0] == '\"'
    requires ReadFields(fields, map[]) == Some((shape, rest))
    ensures ReadType("{" + fields) == Some((shape, rest))
  {
    NotAWord("{" + fields);
    StartsElsewise("{" + fields, "{}", 1);
    StartsWithIt("{", fields);
  }

  lemma PropReads(name: string, prop: Prop, text: string, rest: string)
    requires ReadType(text + rest) == Some((prop.shape, rest))
    ensures ReadProp(name, prop.required, ": " + (text + rest)) == Some((name, prop, rest))
  {
    StartsWithIt(": ", text + rest);
  }

  lemma NameReads(name: string, required: bool, after: string)
    requires after != "" && after[0] == ':'
    ensures ReadField(CedarQuote(name) + ((if required then "" else "?") + after)) == ReadProp(name, required, after)
  {
    var mark := if required then "" else "?";
    var tail := Escape(name) + "\"" + (mark + after);
    TwoPassesAreOne(name);
    QuotedReadsBack(name, mark + after);
    assert CedarQuote(name) + (mark + after) == "\"" + tail;
    StartsWithIt("\"", tail);
    if required {
      assert mark + after == after;
      StartsElsewise(after, "?", 0);
    } else {
      StartsWithIt("?", after);
    }
  }

  /** One field reads back, once its type does. */
  lemma FieldReads(name: string, prop: Prop, text: string, rest: string)
    requires ReadType(text + rest) == Some((prop.shape, rest))
    ensures ReadField(CedarQuote(name) + (if prop.required then "" else "?") + ": " + text + rest) == Some((name, prop, rest))
  {
    NameReads(name, prop.required, ": " + (text + rest));
    PropReads(name, prop, text, rest);
    Grouped(CedarQuote(name), if prop.required then "" else "?", text, rest);
  }

  lemma Grouped(quoted: string, mark: string, text: string, rest: string)
    ensures quoted + mark + ": " + text + rest == quoted + (mark + (": " + (text + rest)))
  {
  }

  lemma FieldReadsBack(shape: Shape, name: string, sort: set<string> -> seq<string>, rest: string)
    requires shape.Record? && name in shape.props && Sorts(sort)
    ensures ReadField(RenderField(shape, name, sort) + rest) == Some((name, shape.props[name], rest))
    decreases shape, 0, 0
  {
    var prop := shape.props[name];
    TypeReadsBack(prop.shape, sort, rest);
    FieldReads(name, prop, RenderType(prop.shape, sort), rest);
  }

  lemma LastFieldReads(field: string, name: string, prop: Prop, rest: string, props: map<string, Prop>)
    requires ReadField(field + ("}" + rest)) == Some((name, prop, "}" + rest)) && name !in props
    ensures ReadFields(field + "}" + rest, props) == Some((Record(props[name := prop]), rest))
  {
    assert field + "}" + rest == field + ("}" + rest);
    StartsWithIt("}", rest);
  }

  lemma FieldThenReads(field: string, name: string, prop: Prop, tail: string, props: map<string, Prop>)
    requires ReadField(field + (", " + tail)) == Some((name, prop, ", " + tail)) && name !in props
    ensures ReadFields(field + ", " + tail, props) == ReadFields(tail, props[name := prop])
  {
    assert field + ", " + tail == field + (", " + tail);
    StartsElsewise(", " + tail, "}", 0);
    StartsWithIt(", ", tail);
  }

  function Chosen(props: map<string, Prop>, names: seq<string>): map<string, Prop> {
    map name | name in names && name in props :: props[name]
  }

  lemma ChosenFirst(props: map<string, Prop>, names: seq<string>, done: map<string, Prop>)
    requires names != [] && names[0] in props && names[0] !in names[1..]
    ensures done[names[0] := props[names[0]]] + Chosen(props, names[1..]) == done + Chosen(props, names)
  {
    assert names == [names[0]] + names[1..];
  }

  lemma {:induction false} FieldsReadBack(shape: Shape, names: seq<string>, sort: set<string> -> seq<string>, rest: string, props: map<string, Prop>)
    requires shape.Record? && Sorts(sort) && names != []
    requires forall i, j :: 0 <= i < j < |names| ==> names[i] != names[j]
    requires forall i :: 0 <= i < |names| ==> names[i] in shape.props && names[i] !in props
    ensures ReadFields(RenderFields(shape, names, sort) + "}" + rest, props) == Some((Record(props + Chosen(shape.props, names)), rest))
    decreases shape, 0, |names|
  {
    var name := names[0];
    var field, more := RenderField(shape, name, sort), props[name := shape.props[name]];
    ChosenFirst(shape.props, names, props);
    if |names| == 1 {
      FieldReadsBack(shape, name, sort, "}" + rest);
      LastFieldReads(field, name, shape.props[name], rest, props);
      assert more + Chosen(shape.props, names[1..]) == more;
    } else {
      var others := RenderFields(shape, names[1..], sort);
      var tail := others + "}" + rest;
      FieldReadsBack(shape, name, sort, ", " + tail);
      FieldThenReads(field, name, shape.props[name], tail, props);
      FieldsReadBack(shape, names[1..], sort, rest, more);
      Regroup(field, others, rest);
    }
  }

  lemma Regroup(field: string, others: string, rest: string)
    ensures field + ", " + others + "}" + rest == field + ", " + (others + "}" + rest)
  {
  }

  /** THE TEXT IS THE TYPE. In whatever order the fields were written, a rendered type reads back as exactly
      the shape it was rendered from, names and all, and what follows it is untouched. */
  lemma {:induction false} TypeReadsBack(shape: Shape, sort: set<string> -> seq<string>, rest: string)
    requires Sorts(sort)
    ensures ReadType(RenderType(shape, sort) + rest) == Some((shape, rest))
    decreases shape, 1, 0
  {
    match shape
    case SetOf(of) =>
      var text := RenderType(of, sort);
      TypeReadsBack(of, sort, ">" + rest);
      assert text + (">" + rest) == text + ">" + rest;
      SetReads(of, text, rest);
    case Record(props) =>
      var names := sort(props.Keys);
      assert IsListing(names, props.Keys);
      if names == [] {
        assert forall name :: name in props.Keys ==> name in names;
        assert props == map[];
        EmptyRecordReads(rest);
      } else {
        RecordReadsBack(shape, names, sort, rest);
      }
    case _ => LeafReadsBack(shape, sort, rest);
  }

  lemma RecordReadsBack(shape: Shape, names: seq<string>, sort: set<string> -> seq<string>, rest: string)
    requires shape.Record? && Sorts(sort) && names != [] && IsListing(names, shape.props.Keys)
    ensures ReadType("{" + RenderFields(shape, names, sort) + "}" + rest) == Some((shape, rest))
    decreases shape, 0, |names| + 1
  {
    var fields := RenderFields(shape, names, sort);
    assert forall i :: 0 <= i < |names| ==> names[i] in names;
    FieldsReadBack(shape, names, sort, rest, map[]);
    FieldsStart(shape, names, sort);
    assert map[] + Chosen(shape.props, names) == shape.props;
    BracedReads(fields, shape, rest);
  }

  lemma BracedReads(fields: string, shape: Shape, rest: string)
    requires fields != "" && fields[0] == '\"'
    requires ReadFields(fields + "}" + rest, map[]) == Some((shape, rest))
    ensures ReadType("{" + fields + "}" + rest) == Some((shape, rest))
  {
    RecordReads(fields + "}" + rest, shape, rest);
    assert "{" + fields + "}" + rest == "{" + (fields + "}" + rest);
  }

  lemma FieldsStart(shape: Shape, names: seq<string>, sort: set<string> -> seq<string>)
    requires shape.Record? && names != [] && names[0] in shape.props
    ensures RenderFields(shape, names, sort) != "" && RenderFields(shape, names, sort)[0] == '\"'
  {
    assert RenderField(shape, names[0], sort)[0] == '\"';
  }

  /** So no two shapes share a text, under any two orders. */
  lemma TextsAreApart(a: Shape, b: Shape, sortA: set<string> -> seq<string>, sortB: set<string> -> seq<string>)
    requires Sorts(sortA) && Sorts(sortB) && RenderType(a, sortA) == RenderType(b, sortB)
    ensures a == b
  {
    TypeReadsBack(a, sortA, "");
    TypeReadsBack(b, sortB, "");
    assert RenderType(a, sortA) + "" == RenderType(b, sortB) + "";
  }

  // ---- the text itself ----

  lemma QuotedPlainly()
    ensures CedarQuote("to") == "\"to\""
    ensures CedarQuote("\"") == "\"\\\"\"" && CedarQuote("\\") == "\"\\\\\""
  {
    TwoPassesAreOne("to");
    TwoPassesAreOne("\"");
    TwoPassesAreOne("\\");
    assert "to"[1..] == "o";
    assert Escape("o") == "o" && Escape("to") == "to";
    assert Escape("\"") == "\\\"" && Escape("\\") == "\\\\";
  }

  /** The types as they are written: of a text, a flag and a number. */
  lemma LeavesWrittenOut(sort: set<string> -> seq<string>)
    ensures RenderType(StringShape, sort) == "String" && RenderType(BoolShape, sort) == "Bool" && RenderType(LongShape, sort) == "Long"
  {
  }

  /** Of a set. */
  lemma SetWrittenOut(of: Shape, sort: set<string> -> seq<string>)
    ensures RenderType(SetOf(of), sort) == "Set<" + RenderType(of, sort) + ">"
  {
  }

  /** Of a record of one property, marked if it is not required. */
  lemma FieldWrittenOut(prop: Prop, sort: set<string> -> seq<string>)
    requires sort({"to"}) == ["to"]
    ensures RenderType(Record(map["to" := prop]), sort) ==
              "{" + ("\"to\"" + (if prop.required then "" else "?") + ": " + RenderType(prop.shape, sort)) + "}"
  {
    var shape := Record(map["to" := prop]);
    QuotedPlainly();
    assert shape.props.Keys == {"to"};
    assert RenderFields(shape, ["to"], sort) == RenderField(shape, "to", sort);
  }

  /** And two properties are joined by a comma, in the order the host sorts their names. */
  lemma FieldsAreJoined(shape: Shape, a: string, b: string, sort: set<string> -> seq<string>)
    requires shape.Record? && a in shape.props && b in shape.props && sort(shape.props.Keys) == [a, b]
    ensures RenderType(shape, sort) == "{" + (RenderField(shape, a, sort) + ", " + RenderField(shape, b, sort)) + "}"
  {
    assert [a, b][1..] == [b];
    assert RenderFields(shape, [b], sort) == RenderField(shape, b, sort);
    assert RenderFields(shape, [a, b], sort) == RenderField(shape, a, sort) + ", " + RenderFields(shape, [b], sort);
  }
}
