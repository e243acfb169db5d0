/** Dispatch over an accepted route list: one route at most, whatever the order they were registered in. */
module Dispatch {
  import opened Options
  import opened Strings
  import opened Routes

  predicate IsStaticFor(route: Route, verb: Verb, path: string) {
    !IsPattern(route) && RouteKey(route.verb, NormalizePath(route.path)) == RouteKey(verb, path)
  }

  /** The literal map: a later entry replaces an earlier one of the same key. */
  function LastStatic(routes: seq<Route>, verb: Verb, path: string): Option<Route> {
    if routes == [] then None
    else
      var last := routes[|routes| - 1];
      if IsStaticFor(last, verb, path) then Some(last) else LastStatic(routes[..|routes| - 1], verb, path)
  }

  predicate IsPatternFor(route: Route, verb: Verb, path: string) {
    IsPattern(route) && route.verb == verb && Matches(Segments(route), Split(path))
  }

  function Bind(route: Route, path: string, decode: string -> string): Matched
    requires Matches(Segments(route), Split(path))
  {
    Matched(route, Params(Segments(route), Split(path), decode))
  }

  function FirstPattern(routes: seq<Route>, verb: Verb, path: string, decode: string -> string): Option<Matched> {
    if routes == [] then None
    else if IsPatternFor(routes[0], verb, path) then Some(Bind(routes[0], path, decode))
    else FirstPattern(routes[1..], verb, path, decode)
  }

  /** Literals first, patterns in order. */
  function Dispatched(routes: seq<Route>, verb: Verb, path: string, decode: string -> string): Option<Matched> {
    match LastStatic(routes, verb, path)
    case Some(route) => Some(Matched(route, map[]))
    case None => FirstPattern(routes, verb, path, decode)
  }

  /** The map of literal routes, and what it answers for one key. */
  method LookUpStatic(routes: seq<Route>, verb: Verb, path: string) returns (route: Option<Route>)
    ensures route == LastStatic(routes, verb, path)
  {
    var routeMap: map<string, Route> := map[];
    var key, k := RouteKey(verb, path), 0;
    while k < |routes|
      invariant 0 <= k <= |routes|
      invariant LastStatic(routes[..k], verb, path) == if key in routeMap then Some(routeMap[key]) else None
    {
      LastStaticOneMore(routes, k, verb, path);
      if !IsPattern(routes[k]) {
        routeMap := routeMap[RouteKey(routes[k].verb, NormalizePath(routes[k].path)) := routes[k]];
      }
      k := k + 1;
    }
    assert routes[..k] == routes;
    route := if key in routeMap then Some(routeMap[key]) else None;
  }

  lemma LastStaticOneMore(routes: seq<Route>, k: nat, verb: Verb, path: string)
    requires k < |routes|
    ensures LastStatic(routes[..k + 1], verb, path) ==
              if IsStaticFor(routes[k], verb, path) then Some(routes[k]) else LastStatic(routes[..k], verb, path)
  {
    assert routes[..k + 1][..k] == routes[..k];
  }

  method MatchPatternRoutes(routes: seq<Route>, verb: Verb, path: string, decode: string -> string) returns (matched: Option<Matched>)
    ensures matched == FirstPattern(routes, verb, path, decode)
  {
    var k := 0;
    while k < |routes|
      invariant 0 <= k <= |routes|
      invariant FirstPattern(routes, verb, path, decode) == FirstPattern(routes[k..], verb, path, decode)
    {
      assert routes[k..][0] == routes[k] && routes[k..][1..] == routes[k + 1..];
      if IsPattern(routes[k]) {
        var params := MatchOne(routes[k], verb, path, decode);
        if params.Some? {
          return Some(Matched(routes[k], params.value));
        }
      }
      k := k + 1;
    }
    matched := None;
  }

  method DispatchRequest(routes: seq<Route>, verb: Verb, path: string, decode: string -> string) returns (matched: Option<Matched>)
    ensures matched == Dispatched(routes, verb, path, decode)
  {
    var route := LookUpStatic(routes, verb, path);
    if route.Some? {
      return Some(Matched(route.value, map[]));
    }
    matched := MatchPatternRoutes(routes, verb, path, decode);
  }

  // ---- clear lists ----

  predicate Clashes(a: Route, b: Route) {
    Ambiguous(a, b) || (!IsPattern(a) && !IsPattern(b) && a.verb == b.verb && NormalizePath(a.path) == NormalizePath(b.path))
  }

  /** No two routes that one request could reach by the same rule. */
  predicate Clear(routes: seq<Route>) {
    forall i, j :: 0 <= i < j < |routes| ==> !Clashes(routes[i], routes[j])
  }

  lemma VerbsAreApart(a: Verb, x: string, b: Verb, y: string)
    ensures RouteKey(a, x) == RouteKey(b, y) <==> a == b && x == y
  {
    SplitsAtFirst(VerbName(a), x, VerbName(b), y, ' ');
    assert RouteKey(a, x) == VerbName(a) + [' '] + x && RouteKey(b, y) == VerbName(b) + [' '] + y;
    assert VerbName(a)[0] == VerbName(b)[0] && |VerbName(a)| == |VerbName(b)| ==> a == b;
  }

  lemma ShapeOfStatic(route: Route)
    requires !IsPattern(route)
    ensures Join(Shape(Segments(route))) == NormalizePath(route.path)
  {
    assert Shape(Segments(route)) == Segments(route);
    JoinUndoesSplit(NormalizePath(route.path));
  }

  lemma SameShape(a: Route, b: Route)
    requires Join(Shape(Segments(a))) == Join(Shape(Segments(b)))
    ensures Shape(Segments(a)) == Shape(Segments(b))
  {
    SplitUndoesJoin(Shape(Segments(a)));
    SplitUndoesJoin(Shape(Segments(b)));
  }

  /** Two routes share a key exactly when they are the same literal path, or patterns of one shape. */
  lemma SharedKeyClashes(a: Route, b: Route)
    requires ConflictKey(a) == ConflictKey(b)
    ensures Clashes(a, b)
  {
    VerbsAreApart(a.verb, Join(Shape(Segments(a))), b.verb, Join(Shape(Segments(b))));
    SameShape(a, b);
    var s, t := Segments(a), Segments(b);
    assert |s| == |Shape(s)| == |t|;
    forall i | 0 <= i < |s|
      ensures IsParam(s[i]) == IsParam(t[i]) && (IsParam(s[i]) || s[i] == t[i])
    {
      assert Shape(s)[i] == Shape(t)[i];
    }
    if !IsPattern(a) {
      JoinUndoesSplit(NormalizePath(a.path));
      JoinUndoesSplit(NormalizePath(b.path));
      assert s == t;
    }
  }

  lemma StaticClashSharesKey(a: Route, b: Route)
    requires Clashes(a, b) && !Ambiguous(a, b)
    ensures ConflictKey(a) == ConflictKey(b)
  {
    ShapeOfStatic(a);
    ShapeOfStatic(b);
  }

  /** THE CHECK IS EXACT, BUT FOR EMPTY IDS. A list is accepted exactly when it is clear, save that literal
      routes may repeat a path where every repeated one but the last has an empty id. */
  lemma AcceptedIff(routes: seq<Route>)
    ensures Accepted(routes) <==>
              forall i, j :: 0 <= i < j < |routes| && Clashes(routes[i], routes[j]) ==> !IsPattern(routes[i]) && routes[i].id == ""
  {
    forall i, j | 0 <= i < j < |routes| && ConflictKey(routes[i]) == ConflictKey(routes[j])
      ensures Clashes(routes[i], routes[j])
    {
      SharedKeyClashes(routes[i], routes[j]);
    }
    forall i, j | 0 <= i < j < |routes| && Clashes(routes[i], routes[j]) && !Ambiguous(routes[i], routes[j])
      ensures ConflictKey(routes[i]) == ConflictKey(routes[j])
    {
      StaticClashSharesKey(routes[i], routes[j]);
    }
  }

  /** Where every route has an id, the check accepts exactly the clear lists. */
  lemma NamedAcceptedIffClear(routes: seq<Route>)
    requires forall i :: 0 <= i < |routes| ==> routes[i].id != ""
    ensures Accepted(routes) <==> Clear(routes)
  {
    AcceptedIff(routes);
  }

  /** Whatever clashes is the same route over again; a clear list is one where nothing does. */
  predicate ClashesAgree(routes: seq<Route>) {
    forall i, j :: 0 <= i < j < |routes| && Clashes(routes[i], routes[j]) ==> routes[i] == routes[j]
  }

  // ---- what a list dispatches to ----

  lemma JointMatchIsAmbiguous(a: Route, b: Route, verb: Verb, path: string)
    requires IsPatternFor(a, verb, path) && IsPatternFor(b, verb, path)
    ensures Ambiguous(a, b)
  {
    OverlapIffJointMatch(Segments(a), Segments(b));
  }

  /** ONE PATTERN AT MOST. In an accepted list, at most one pattern matches a request. */
  lemma OnePatternMatches(routes: seq<Route>, verb: Verb, path: string, i: nat, j: nat)
    requires Accepted(routes) && i < |routes| && j < |routes|
    requires IsPatternFor(routes[i], verb, path) && IsPatternFor(routes[j], verb, path)
    ensures i == j
  {
    JointMatchIsAmbiguous(routes[i], routes[j], verb, path);
    JointMatchIsAmbiguous(routes[j], routes[i], verb, path);
  }

  lemma {:induction false} StaticFound(routes: seq<Route>, verb: Verb, path: string)
    ensures match LastStatic(routes, verb, path)
            case Some(route) => route in routes && IsStaticFor(route, verb, path)
            case None => forall i :: 0 <= i < |routes| ==> !IsStaticFor(routes[i], verb, path)
  {
    if routes != [] {
      var less, last := routes[..|routes| - 1], routes[|routes| - 1];
      StaticFound(less, verb, path);
      assert routes == less + [last];
      if !IsStaticFor(last, verb, path) && LastStatic(less, verb, path) == None {
        forall i | 0 <= i < |routes|
          ensures !IsStaticFor(routes[i], verb, path)
        {
          if i < |less| {
            assert less[i] == routes[i];
          }
        }
      }
    }
  }

  lemma {:induction false} PatternFound(routes: seq<Route>, verb: Verb, path: string, decode: string -> string)
    ensures match FirstPattern(routes, verb, path, decode)
            case Some(matched) => matched.route in routes && IsPatternFor(matched.route, verb, path) && matched == Bind(matched.route, path, decode)
            case None => forall i :: 0 <= i < |routes| ==> !IsPatternFor(routes[i], verb, path)
  {
    if routes != [] {
      PatternFound(routes[1..], verb, path, decode);
    }
  }

  /** Whatever reaches one request by one rule is one route. */
  lemma ReachedAlone(routes: seq<Route>, a: Route, b: Route, verb: Verb, path: string)
    requires ClashesAgree(routes) && a in routes && b in routes
    requires (IsStaticFor(a, verb, path) && IsStaticFor(b, verb, path)) || (IsPatternFor(a, verb, path) && IsPatternFor(b, verb, path))
    ensures a == b
  {
    var i :| 0 <= i < |routes| && routes[i] == a;
    var j :| 0 <= j < |routes| && routes[j] == b;
    if IsStaticFor(a, verb, path) {
      VerbsAreApart(a.verb, NormalizePath(a.path), verb, path);
      VerbsAreApart(b.verb, NormalizePath(b.path), verb, path);
    } else {
      JointMatchIsAmbiguous(a, b, verb, path);
      JointMatchIsAmbiguous(b, a, verb, path);
    }
    if i < j {
      assert Clashes(routes[i], routes[j]);
    } else if j < i {
      assert Clashes(routes[j], routes[i]);
    }
  }

  lemma AgreeingIsOrderFree(routes: seq<Route>, permuted: seq<Route>, verb: Verb, path: string, decode: string -> string)
    requires ClashesAgree(routes) && multiset(permuted) == multiset(routes)
    ensures Dispatched(permuted, verb, path, decode) == Dispatched(routes, verb, path, decode)
  {
    SameMembers(routes, permuted);
    StaticFound(routes, verb, path);
    StaticFound(permuted, verb, path);
    PatternFound(routes, verb, path, decode);
    PatternFound(permuted, verb, path, decode);
    var s, t := LastStatic(routes, verb, path), LastStatic(permuted, verb, path);
    if s.Some? && t.Some? {
      ReachedAlone(routes, s.value, t.value, verb, path);
    }
    var p, q := FirstPattern(routes, verb, path, decode), FirstPattern(permuted, verb, path, decode);
    if p.Some? && q.Some? {
      ReachedAlone(routes, p.value.route, q.value.route, verb, path);
    }
  }

  function MovedLast(routes: seq<Route>, i: nat): seq<Route>
    requires i < |routes|
  {
    routes[..i] + routes[i + 1..] + [routes[i]]
  }

  lemma LastAnswers(routes: seq<Route>, i: nat, verb: Verb, path: string, decode: string -> string)
    requires i < |routes| && IsStaticFor(routes[i], verb, path)
    ensures Dispatched(MovedLast(routes, i), verb, path, decode) == Some(Matched(routes[i], map[]))
  {
    var moved := MovedLast(routes, i);
    assert moved[|moved| - 1] == routes[i];
  }

  lemma MovedIsPermuted(routes: seq<Route>, i: nat)
    requires i < |routes|
    ensures multiset(MovedLast(routes, i)) == multiset(routes)
  {
    assert routes == routes[..i] + [routes[i]] + routes[i + 1..];
  }

  ghost predicate OrderFree(routes: seq<Route>, decode: string -> string) {
    forall permuted, verb, path :: multiset(permuted) == multiset(routes) ==>
      Dispatched(permuted, verb, path, decode) == Dispatched(routes, verb, path, decode)
  }

  /** ORDER DOES NOT MATTER, however an accepted list is permuted, if and only if the routes it repeats are one
      route over again; then every request is given the same route and the same parameters. */
  lemma OrderFreeIff(routes: seq<Route>, decode: string -> string)
    requires Accepted(routes)
    ensures OrderFree(routes, decode) <==> ClashesAgree(routes)
  {
    if ClashesAgree(routes) {
      forall permuted, verb, path | multiset(permuted) == multiset(routes)
        ensures Dispatched(permuted, verb, path, decode) == Dispatched(routes, verb, path, decode)
      {
        AgreeingIsOrderFree(routes, permuted, verb, path, decode);
      }
    } else {
      var i, j :| 0 <= i < j < |routes| && Clashes(routes[i], routes[j]) && routes[i] != routes[j];
      AcceptedIff(routes);
      var verb, path := routes[i].verb, NormalizePath(routes[i].path);
      LastAnswers(routes, i, verb, path, decode);
      LastAnswers(routes, j, verb, path, decode);
      MovedIsPermuted(routes, i);
      MovedIsPermuted(routes, j);
      assert Dispatched(MovedLast(routes, i), verb, path, decode) != Dispatched(MovedLast(routes, j), verb, path, decode);
    }
  }

  /** So of a clear list. */
  lemma OrderDoesNotMatter(routes: seq<Route>, decode: string -> string)
    requires Clear(routes)
    ensures OrderFree(routes, decode)
  {
    AcceptedIff(routes);
    OrderFreeIff(routes, decode);
  }

  lemma SameMembers(a: seq<Route>, b: seq<Route>)
    requires multiset(a) == multiset(b)
    ensures forall r :: r in a <==> r in b
  {
    assert forall r :: r in a <==> r in multiset(a);
    assert forall r :: r in b <==> r in multiset(b);
  }

  /** Two literal routes with empty ids pass the check in either order, and the last one answers. */
  lemma EmptyIdsHideAClash() returns (a: Route, b: Route)
    ensures Accepted([a, b]) && Accepted([b, a])
    ensures Dispatched([a, b], Get, "/x", s => s) == Some(Matched(b, map[]))
    ensures Dispatched([b, a], Get, "/x", s => s) == Some(Matched(a, map[])) && a != b
  {
    a, b := Route("", Get, "/x", 1), Route("", Get, "/x", 2);
    SplitX();
    AcceptedIff([a, b]);
    AcceptedIff([b, a]);
    LastOfTwo(a, b);
    LastOfTwo(b, a);
  }

  lemma SplitX()
    ensures NormalizePath("/x") == "/x" && Split("/x") == ["", "x"]
  {
    SplitUndoesJoin(["", "x"]);
    assert Join(["", "x"]) == "" + "/" + Join(["x"]);
  }

  lemma LastOfTwo(a: Route, b: Route)
    requires IsStaticFor(b, Get, "/x")
    ensures Dispatched([a, b], Get, "/x", s => s) == Some(Matched(b, map[]))
  {
  }

  // ---- who answers, in words ----

  predicate IsLiteralFor(route: Route, verb: Verb, path: string) {
    && (forall i :: 0 <= i < |Segments(route)| ==> !(":" <= Segments(route)[i]))
    && route.verb == verb && NormalizePath(route.path) == path
  }

  lemma LiteralIsStatic(route: Route, verb: Verb, path: string)
    ensures IsStaticFor(route, verb, path) <==> IsLiteralFor(route, verb, path)
  {
    VerbsAreApart(route.verb, NormalizePath(route.path), verb, path);
    assert forall i :: 0 <= i < |Segments(route)| ==> (IsParam(Segments(route)[i]) <==> ":" <= Segments(route)[i]);
  }

  lemma {:induction false} LastLiteral(routes: seq<Route>, verb: Verb, path: string, i: nat)
    requires i < |routes| && IsLiteralFor(routes[i], verb, path)
    requires forall j :: i < j < |routes| ==> !IsLiteralFor(routes[j], verb, path)
    ensures LastStatic(routes, verb, path) == Some(routes[i])
  {
    var n := |routes| - 1;
    LiteralIsStatic(routes[n], verb, path);
    if i < n {
      LastLiteral(routes[..n], verb, path, i);
    }
  }

  /** THE LAST LITERAL ANSWERS: where some route spells the path out, the last of them, binding nothing. */
  lemma LiteralAnswers(routes: seq<Route>, verb: Verb, path: string, decode: string -> string, i: nat)
    requires i < |routes| && IsLiteralFor(routes[i], verb, path)
    requires forall j :: i < j < |routes| ==> !IsLiteralFor(routes[j], verb, path)
    ensures Dispatched(routes, verb, path, decode) == Some(Matched(routes[i], map[]))
  {
    LastLiteral(routes, verb, path, i);
  }

  lemma {:induction false} NoLiteral(routes: seq<Route>, verb: Verb, path: string)
    requires forall j :: 0 <= j < |routes| ==> !IsLiteralFor(routes[j], verb, path)
    ensures LastStatic(routes, verb, path) == None
  {
    if routes != [] {
      LiteralIsStatic(routes[|routes| - 1], verb, path);
      NoLiteral(routes[..|routes| - 1], verb, path);
    }
  }

  predicate IsOpen(route: Route) {
    exists i :: 0 <= i < |Segments(route)| && ":" <= Segments(route)[i]
  }

  lemma {:induction false} FirstAnswers(routes: seq<Route>, verb: Verb, path: string, decode: string -> string, i: nat)
    requires i < |routes| && IsOpen(routes[i]) && MatchPattern(routes[i], verb, path, decode).Some?
    requires forall j :: 0 <= j < i ==> !IsOpen(routes[j]) || MatchPattern(routes[j], verb, path, decode) == None
    ensures FirstPattern(routes, verb, path, decode) == Some(Matched(routes[i], MatchPattern(routes[i], verb, path, decode).value))
  {
    OpenIsPattern(routes[0]);
    if i > 0 {
      FirstAnswers(routes[1..], verb, path, decode, i - 1);
    }
  }

  lemma OpenIsPattern(route: Route)
    ensures IsOpen(route) <==> IsPattern(route)
  {
    assert forall i :: 0 <= i < |Segments(route)| ==> (IsParam(Segments(route)[i]) <==> ":" <= Segments(route)[i]);
  }

  /** THE FIRST PATTERN ANSWERS OTHERWISE, with what it binds. */
  lemma PatternAnswers(routes: seq<Route>, verb: Verb, path: string, decode: string -> string, i: nat)
    requires forall j :: 0 <= j < |routes| ==> !IsLiteralFor(routes[j], verb, path)
    requires i < |routes| && IsOpen(routes[i]) && MatchPattern(routes[i], verb, path, decode).Some?
    requires forall j :: 0 <= j < i ==> !IsOpen(routes[j]) || MatchPattern(routes[j], verb, path, decode) == None
    ensures Dispatched(routes, verb, path, decode) == Some(Matched(routes[i], MatchPattern(routes[i], verb, path, decode).value))
  {
    NoLiteral(routes, verb, path);
    FirstAnswers(routes, verb, path, decode, i);
  }

  /** And nobody where no literal spells the path out and no pattern matches it. */
  lemma {:induction false} NobodyAnswers(routes: seq<Route>, verb: Verb, path: string, decode: string -> string)
    requires forall j :: 0 <= j < |routes| ==> !IsLiteralFor(routes[j], verb, path)
    requires forall j :: 0 <= j < |routes| ==> !IsOpen(routes[j]) || MatchPattern(routes[j], verb, path, decode) == None
    ensures Dispatched(routes, verb, path, decode) == None
  {
    NoLiteral(routes, verb, path);
    NoPattern(routes, verb, path, decode);
  }

  lemma {:induction false} NoPattern(routes: seq<Route>, verb: Verb, path: string, decode: string -> string)
    requires forall j :: 0 <= j < |routes| ==> !IsOpen(routes[j]) || MatchPattern(routes[j], verb, path, decode) == None
    ensures FirstPattern(routes, verb, path, decode) == None
  {
    if routes != [] {
      OpenIsPattern(routes[0]);
      NoPattern(routes[1..], verb, path, decode);
    }
  }
}
