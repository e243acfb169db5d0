/** The part of a tool's arguments that policies may read: projected from a JSON Schema, and filtered out
    of each call by the same walk. */
module Projection {
  import opened Options

  datatype Json =
    | Null
    | Flag(on: bool)
    | Num(value: real)
    | Str(text: string)
    | Arr(items: seq<Json>)
    | Obj(fields: map<string, Json>)

  datatype Shape =
    | StringShape
    | BoolShape
    | LongShape
    | SetOf(of: Shape)
    | Record(props: map<string, Prop>)

  datatype Prop = Prop(shape: Shape, required: bool)

  // ---- projecting a schema ----

  predicate HasType(schema: Json, name: string) {
    schema.Obj? && "type" in schema.fields && schema.fields["type"] == Str(name)
  }

  /** A member of a schema that is itself an object. */
  predicate HasPart(schema: Json, key: string) {
    schema.Obj? && key in schema.fields && schema.fields[key].Obj?
  }

  function RequiredNames(schema: Json): set<string> {
    if schema.Obj? && "required" in schema.fields && schema.fields["required"].Arr?
    then set j | j in schema.fields["required"].items && j.Str? :: j.text
    else {}
  }

  /** Strings, booleans and integers; sets and closed records of them. All else is opaque to policy. */
  function ProjectShape(schema: Json): Option<Shape> {
    if HasType(schema, "string") then Some(StringShape)
    else if HasType(schema, "boolean") then Some(BoolShape)
    else if HasType(schema, "integer") then Some(LongShape)
    else if HasType(schema, "array") then
      if !HasPart(schema, "items") then None
      else match ProjectShape(schema.fields["items"])
        case None => None
        case Some(of) => Some(SetOf(of))
    else if HasType(schema, "object") && HasPart(schema, "properties") then
      var declared := schema.fields["properties"].fields;
      var props := map name | name in declared && declared[name].Obj? && ProjectShape(declared[name]).Some? ::
        Prop(ProjectShape(declared[name]).value, name in RequiredNames(schema));
      if props == map[] then None else Some(Record(props))
    else None
  }

  method Project(schema: Json) returns (shape: Option<Shape>)
    ensures shape == ProjectShape(schema)
    decreases schema
  {
    if HasType(schema, "string") {
      return Some(StringShape);
    }
    if HasType(schema, "boolean") {
      return Some(BoolShape);
    }
    if HasType(schema, "integer") {
      return Some(LongShape);
    }
    if HasType(schema, "array") {
      if !HasPart(schema, "items") {
        return None;
      }
      var of := Project(schema.fields["items"]);
      return if of.Some? then Some(SetOf(of.value)) else None;
    }
    if !HasType(schema, "object") || !HasPart(schema, "properties") {
      return None;
    }
    var declared := schema.fields["properties"].fields;
    var required := RequiredNames(schema);
    var props: map<string, Prop> := map[];
    var todo := declared.Keys;
    while todo != {}
      invariant todo <= declared.Keys
      invariant props == map name | name in declared && name !in todo && declared[name].Obj? && ProjectShape(declared[name]).Some? ::
        Prop(ProjectShape(declared[name]).value, name in required)
      decreases todo
    {
      var name :| name in todo;
      if declared[name].Obj? {
        var part := Project(declared[name]);
        if part.Some? {
          props := props[name := Prop(part.value, name in required)];
        }
      }
      todo := todo - {name};
    }
    assert props == map name | name in declared && declared[name].Obj? && ProjectShape(declared[name]).Some? ::
      Prop(ProjectShape(declared[name]).value, name in RequiredNames(schema));
    shape := if props == map[] then None else Some(Record(props));
  }

  // ---- filtering a value ----

  function FilterToShape(shape: Shape, value: Json): Json
    decreases shape
  {
    match shape
    case Record(props) =>
      if value.Obj?
      then Obj(map name | name in props && name in value.fields :: FilterToShape(props[name].shape, value.fields[name]))
      else value
    case SetOf(of) =>
      if value.Arr? then Arr(seq(|value.items|, i requires 0 <= i < |value.items| => FilterToShape(of, value.items[i]))) else value
    case _ => value
  }

  method Filter(shape: Shape, value: Json) returns (filtered: Json)
    ensures filtered == FilterToShape(shape, value)
    decreases shape
  {
    if shape.Record? {
      if !value.Obj? {
        return value;
      }
      var fields: map<string, Json> := map[];
      var todo := shape.props.Keys;
      while todo != {}
        invariant todo <= shape.props.Keys
        invariant fields == map name | name in shape.props && name !in todo && name in value.fields ::
          FilterToShape(shape.props[name].shape, value.fields[name])
        decreases todo
      {
        var name :| name in todo;
        if name in value.fields {
          var part := Filter(shape.props[name].shape, value.fields[name]);
          fields := fields[name := part];
        }
        todo := todo - {name};
      }
      return Obj(fields);
    }
    if shape.SetOf? && value.Arr? {
      var items: seq<Json> := [];
      for i := 0 to |value.items|
        invariant items == FilterToShape(shape, value).items[..i]
      {
        var item := Filter(shape.of, value.items[i]);
        items := items + [item];
      }
      return Arr(items);
    }
    filtered := value;
  }

  // ---- what the two must agree on ----

  /** What a schema of the kinds above demands of a value. Anything else it may say only demands more. */
  ghost predicate Conforms(schema: Json, value: Json)
    decreases schema
  {
    if HasType(schema, "string") then value.Str?
    else if HasType(schema, "boolean") then value.Flag?
    else if HasType(schema, "integer") then value.Num? && value.value == value.value.Floor as real
    else if HasType(schema, "array") then
      value.Arr? && (HasPart(schema, "items") ==> forall i :: 0 <= i < |value.items| ==> Conforms(schema.fields["items"], value.items[i]))
    else if HasType(schema, "object") && HasPart(schema, "properties") then
      && value.Obj?
      && RequiredNames(schema) <= value.fields.Keys
      && forall name :: name in schema.fields["properties"].fields && name in value.fields ==>
           Conforms(schema.fields["properties"].fields[name], value.fields[name])
    else true
  }

  const LONG_LIMIT: real := 9223372036854775808.0

  predicate FitsLong(n: real) {
    -LONG_LIMIT <= n < LONG_LIMIT
  }

  /** Cedar's type of a value, records closed at every depth. */
  ghost predicate WellTyped(shape: Shape, value: Json)
    decreases shape
  {
    match shape
    case StringShape => value.Str?
    case BoolShape => value.Flag?
    case LongShape => value.Num? && value.value == value.value.Floor as real && FitsLong(value.value)
    case SetOf(of) => value.Arr? && forall i :: 0 <= i < |value.items| ==> WellTyped(of, value.items[i])
    case Record(props) =>
      && value.Obj?
      && (forall name :: name in value.fields ==> name in props && WellTyped(props[name].shape, value.fields[name]))
      && (forall name :: name in props && props[name].required ==> name in value.fields)
  }

  /** Every number a policy could read fits Cedar's `Long`. */
  ghost predicate LongsFit(shape: Shape, value: Json)
    decreases shape
  {
    match shape
    case LongShape => value.Num? ==> FitsLong(value.value)
    case SetOf(of) => value.Arr? ==> forall i :: 0 <= i < |value.items| ==> LongsFit(of, value.items[i])
    case Record(props) =>
      value.Obj? ==> forall name :: name in props && name in value.fields ==> LongsFit(props[name].shape, value.fields[name])
    case _ => true
  }

  /** THE TWO WALKS AGREE. For every schema that projects and every value that conforms to it, what is left
      of the value has the projected type, closed at every depth, exactly when its integers fit. */
  lemma {:induction false} FilteredIsWellTyped(schema: Json, value: Json)
    requires ProjectShape(schema).Some? && Conforms(schema, value)
    ensures var shape := ProjectShape(schema).value;
            WellTyped(shape, FilterToShape(shape, value)) <==> LongsFit(shape, value)
    decreases schema
  {
    var shape := ProjectShape(schema).value;
    var filtered := FilterToShape(shape, value);
    match shape
    case SetOf(of) =>
      forall i | 0 <= i < |value.items|
        ensures WellTyped(of, filtered.items[i]) <==> LongsFit(of, value.items[i])
      {
        FilteredIsWellTyped(schema.fields["items"], value.items[i]);
      }
    case Record(props) =>
      forall name | name in props && name in value.fields
        ensures WellTyped(props[name].shape, filtered.fields[name]) <==> LongsFit(props[name].shape, value.fields[name])
      {
        FilteredIsWellTyped(schema.fields["properties"].fields[name], value.fields[name]);
      }
    case _ =>
  }

  /** An integer that JSON allows and `Long` does not. */
  lemma BigIntegerIsIllTyped()
    ensures var schema := Obj(map["type" := Str("integer")]); var value := Num(LONG_LIMIT);
            && Conforms(schema, value)
            && ProjectShape(schema) == Some(LongShape)
            && !WellTyped(LongShape, FilterToShape(LongShape, value))
  {
    assert LONG_LIMIT.Floor == 9223372036854775808;
  }

  /** Filtering twice is filtering once, for every shape and every value. */
  lemma {:induction false} FilterIsIdempotent(shape: Shape, value: Json)
    ensures FilterToShape(shape, FilterToShape(shape, value)) == FilterToShape(shape, value)
    decreases shape
  {
    var once := FilterToShape(shape, value);
    match shape
    case SetOf(of) =>
      if value.Arr? {
        forall i | 0 <= i < |value.items|
          ensures FilterToShape(of, once.items[i]) == once.items[i]
        {
          FilterIsIdempotent(of, value.items[i]);
        }
        assert FilterToShape(shape, once).items == once.items;
      }
    case Record(props) =>
      if value.Obj? {
        forall name | name in props && name in value.fields
          ensures FilterToShape(props[name].shape, once.fields[name]) == once.fields[name]
        {
          FilterIsIdempotent(props[name].shape, value.fields[name]);
        }
        assert FilterToShape(shape, once).fields == once.fields;
      }
    case _ =>
  }

  /** And it drops nothing a policy could read: a value that already has the type is left as it is. */
  lemma {:induction false} WellTypedIsKept(shape: Shape, value: Json)
    requires WellTyped(shape, value)
    ensures FilterToShape(shape, value) == value
    decreases shape
  {
    match shape
    case SetOf(of) =>
      forall i | 0 <= i < |value.items|
        ensures FilterToShape(of, value.items[i]) == value.items[i]
      {
        WellTypedIsKept(of, value.items[i]);
      }
      assert FilterToShape(shape, value).items == value.items;
    case Record(props) =>
      forall name | name in value.fields
        ensures FilterToShape(props[name].shape, value.fields[name]) == value.fields[name]
      {
        WellTypedIsKept(props[name].shape, value.fields[name]);
      }
      assert FilterToShape(shape, value).fields == value.fields;
    case _ =>
  }

  // ---- the same, said of schemas and values ----

  predicate IsTagged(schema: Json, tag: string) {
    schema.Obj? && "type" in schema.fields && schema.fields["type"] == Str(tag)
  }

  predicate IsListed(schema: Json, name: string) {
    schema.Obj? && "required" in schema.fields && schema.fields["required"].Arr? && Str(name) in schema.fields["required"].items
  }

  /** The schemas policy can read: texts, flags and integers, arrays of what it can read, and objects that declare at least
      one property it can. */
  predicate IsReadable(schema: Json) {
    || IsTagged(schema, "string") || IsTagged(schema, "boolean") || IsTagged(schema, "integer")
    || (IsTagged(schema, "array") && "items" in schema.fields && schema.fields["items"].Obj? && IsReadable(schema.fields["items"]))
    || (IsTagged(schema, "object") && "properties" in schema.fields && schema.fields["properties"].Obj?
        && exists name :: name in schema.fields["properties"].fields && IsReadable(schema.fields["properties"].fields[name]))
  }

  /** Of a record exactly the readable properties are kept, required exactly as the schema lists them. */
  ghost predicate Describes(shape: Shape, schema: Json)
    decreases shape
  {
    match shape
    case StringShape => IsTagged(schema, "string")
    case BoolShape => IsTagged(schema, "boolean")
    case LongShape => IsTagged(schema, "integer")
    case SetOf(of) => IsTagged(schema, "array") && "items" in schema.fields && Describes(of, schema.fields["items"])
    case Record(props) =>
      && IsTagged(schema, "object") && "properties" in schema.fields && schema.fields["properties"].Obj?
      && var declared := schema.fields["properties"].fields;
         && (forall name :: name in props <==> name in declared && IsReadable(declared[name]))
         && (forall name :: name in props ==> Describes(props[name].shape, declared[name]) && (props[name].required <==> IsListed(schema, name)))
  }

  /** WHICH SCHEMAS PROJECT, AND TO WHAT. Exactly the readable ones, each to the shape that describes it. */
  lemma {:induction false} ProjectsIffReadable(schema: Json)
    ensures ProjectShape(schema).Some? <==> IsReadable(schema)
    ensures ProjectShape(schema).Some? ==> Describes(ProjectShape(schema).value, schema)
    decreases schema
  {
    if IsTagged(schema, "array") && "items" in schema.fields {
      ProjectsIffReadable(schema.fields["items"]);
    } else if IsTagged(schema, "object") && "properties" in schema.fields && schema.fields["properties"].Obj? {
      var declared := schema.fields["properties"].fields;
      forall name | name in declared
        ensures ProjectShape(declared[name]).Some? <==> IsReadable(declared[name])
        ensures ProjectShape(declared[name]).Some? ==> Describes(ProjectShape(declared[name]).value, declared[name])
        ensures IsReadable(declared[name]) ==> declared[name].Obj?
      {
        ProjectsIffReadable(declared[name]);
      }
      RequiredAreListed(schema);
      RecordProjects(schema, declared);
    }
  }

  lemma RequiredAreListed(schema: Json)
    ensures forall name :: name in RequiredNames(schema) <==> IsListed(schema, name)
  {
    if schema.Obj? && "required" in schema.fields && schema.fields["required"].Arr? {
      var items := schema.fields["required"].items;
      forall name | Str(name) in items
        ensures name in RequiredNames(schema)
      {
        assert Str(name).text == name;
      }
    }
  }

  lemma RecordProjects(schema: Json, declared: map<string, Json>)
    requires IsTagged(schema, "object") && "properties" in schema.fields && schema.fields["properties"] == Obj(declared)
    requires forall name :: name in declared ==> (ProjectShape(declared[name]).Some? <==> IsReadable(declared[name]))
    requires forall name :: name in declared && ProjectShape(declared[name]).Some? ==> Describes(ProjectShape(declared[name]).value, declared[name])
    requires forall name :: name in declared && IsReadable(declared[name]) ==> declared[name].Obj?
    requires forall name :: name in RequiredNames(schema) <==> IsListed(schema, name)
    ensures ProjectShape(schema).Some? <==> IsReadable(schema)
    ensures ProjectShape(schema).Some? ==> Describes(ProjectShape(schema).value, schema)
  {
    var props := map name | name in declared && declared[name].Obj? && ProjectShape(declared[name]).Some? ::
      Prop(ProjectShape(declared[name]).value, name in RequiredNames(schema));
    assert ProjectShape(schema) == if props == map[] then None else Some(Record(props));
    if name :| name in declared && IsReadable(declared[name]) {
      assert name in props;
    }
    if props != map[] {
      var name :| name in props;
      assert name in declared && IsReadable(declared[name]);
    }
  }

  /** One step into a value. */
  datatype Hop = Field(name: string) | Item(at: nat)

  /** The text, flag, number or null a path of a value leads to. */
  function Leaf(value: Json, path: seq<Hop>): Option<Json>
    decreases |path|
  {
    if path == [] then (if value.Obj? || value.Arr? then None else Some(value))
    else match path[0]
      case Field(name) => if value.Obj? && name in value.fields then Leaf(value.fields[name], path[1..]) else None
      case Item(at) => if value.Arr? && at < |value.items| then Leaf(value.items[at], path[1..]) else None
  }

  /** The path enters an object, where the shape has a record, by a name the record lacks. */
  predicate LeavesShape(shape: Shape, value: Json, path: seq<Hop>)
    decreases |path|
  {
    path != [] &&
    match path[0]
    case Field(name) =>
      shape.Record? && value.Obj? && (name !in shape.props || (name in value.fields && LeavesShape(shape.props[name].shape, value.fields[name], path[1..])))
    case Item(at) =>
      shape.SetOf? && value.Arr? && at < |value.items| && LeavesShape(shape.of, value.items[at], path[1..])
  }

  /** WHAT A POLICY READS. At every path that stays within the shape the filtered value holds what the call had there, and
      nothing at any other; objects stay objects, and arrays keep their length. */
  lemma {:induction false} FilterReads(shape: Shape, value: Json, path: seq<Hop>)
    ensures var filtered := FilterToShape(shape, value);
            && Leaf(filtered, path) == (if LeavesShape(shape, value, path) then None else Leaf(value, path))
            && filtered.Obj? == value.Obj? && filtered.Arr? == value.Arr?
            && (value.Arr? ==> |filtered.items| == |value.items|)
    decreases |path|
  {
    if path != [] {
      match path[0]
      case Field(name) =>
        if shape.Record? && value.Obj? && name in shape.props && name in value.fields {
          FilterReads(shape.props[name].shape, value.fields[name], path[1..]);
        }
      case Item(at) =>
        if shape.SetOf? && value.Arr? && at < |value.items| {
          FilterReads(shape.of, value.items[at], path[1..]);
        }
    }
  }
}
