/** Route conflicts, checked when the handler is assembled, against dispatch, when a request comes. */
module Routes {
  import opened Options

  datatype Verb = Delete | Get | Patch | Post | Put

  function VerbName(v: Verb): string {
    match v
    case Delete => "DELETE"
    case Get => "GET"
    case Patch => "PATCH"
    case Post => "POST"
    case Put => "PUT"
  }

  /** `handler` stands for what the route runs. */
  datatype Route = Route(id: string, verb: Verb, path: string, handler: nat)

  // ---- paths ----

  function NormalizePath(path: string): string {
    if path == "" || path[0] != '/' then "/" + path
    else if |path| > 1 && path[|path| - 1] == '/' then path[..|path| - 1]
    else path
  }

  function Split(s: string): (segments: seq<string>)
    ensures segments != []
    ensures forall i :: 0 <= i < |segments| ==> '/' !in segments[i]
  {
    if s == "" then [""]
    else
      var rest := Split(s[1..]);
      if s[0] == '/' then [""] + rest else [[s[0]] + rest[0]] + rest[1..]
  }

  function Join(segments: seq<string>): string {
    if segments == [] then ""
    else if |segments| == 1 then segments[0]
    else segments[0] + "/" + Join(segments[1..])
  }

  predicate IsParam(segment: string) {
    segment != "" && segment[0] == ':'
  }

  function Segments(route: Route): seq<string> {
    Split(NormalizePath(route.path))
  }

  predicate IsPattern(route: Route) {
    exists i :: 0 <= i < |Segments(route)| && IsParam(Segments(route)[i])
  }

  lemma {:induction false} SplitUndoesJoin(segments: seq<string>)
    requires segments != [] && forall i :: 0 <= i < |segments| ==> '/' !in segments[i]
    ensures Split(Join(segments)) == segments
    decreases |segments|, |segments[0]|
  {
    var first := segments[0];
    if first == "" {
      if |segments| > 1 {
        SplitUndoesJoin(segments[1..]);
        assert Join(segments) == "/" + Join(segments[1..]);
        assert Join(segments)[1..] == Join(segments[1..]);
      }
    } else {
      var less := [first[1..]] + segments[1..];
      assert first[0] in first;
      SplitUndoesJoin(less);
      assert Join(segments)[0] == first[0] && Join(segments)[1..] == Join(less);
      assert [first[0]] + first[1..] == first;
      assert less[0] == first[1..] && less[1..] == segments[1..];
    }
  }

  lemma {:induction false} JoinUndoesSplit(s: string)
    ensures Join(Split(s)) == s
  {
    if s != "" {
      var rest := Split(s[1..]);
      JoinUndoesSplit(s[1..]);
      if s[0] == '/' {
        assert Split(s)[1..] == rest;
      } else {
        assert Split(s)[0] == [s[0]] + rest[0] && Split(s)[1..] == rest[1..];
      }
    }
  }

  // ---- matching ----

  predicate SegmentMatches(pattern: string, segment: string) {
    IsParam(pattern) || pattern == segment
  }

  predicate Matches(pattern: seq<string>, segments: seq<string>) {
    |pattern| == |segments| && forall i :: 0 <= i < |pattern| ==> SegmentMatches(pattern[i], segments[i])
  }

  /** The parameters a match binds; a name used twice keeps its last value. */
  function Params(pattern: seq<string>, segments: seq<string>, decode: string -> string): map<string, string>
    requires |pattern| == |segments|
  {
    if pattern == [] then map[]
    else
      var n := |pattern| - 1;
      var less := Params(pattern[..n], segments[..n], decode);
      if IsParam(pattern[n]) then less[pattern[n][1..] := decode(segments[n])] else less
  }

  datatype Matched = Matched(route: Route, params: map<string, string>)

  /** One pattern against one request. */
  function MatchPattern(route: Route, verb: Verb, path: string, decode: string -> string): Option<map<string, string>> {
    if route.verb == verb && Matches(Segments(route), Split(path)) then Some(Params(Segments(route), Split(path), decode)) else None
  }

  method MatchOne(route: Route, verb: Verb, path: string, decode: string -> string) returns (params: Option<map<string, string>>)
    ensures params == MatchPattern(route, verb, path, decode)
  {
    if route.verb != verb {
      return None;
    }
    var pattern, segments := Segments(route), Split(path);
    if |segments| != |pattern| {
      return None;
    }
    var bound: map<string, string> := map[];
    var i := 0;
    while i < |pattern|
      invariant 0 <= i <= |pattern|
      invariant forall k :: 0 <= k < i ==> SegmentMatches(pattern[k], segments[k])
      invariant bound == Params(pattern[..i], segments[..i], decode)
    {
      ParamsOneMore(pattern, segments, decode, i);
      if IsParam(pattern[i]) {
        bound := bound[pattern[i][1..] := decode(segments[i])];
      } else if pattern[i] != segments[i] {
        return None;
      }
      i := i + 1;
    }
    assert pattern[..i] == pattern && segments[..i] == segments;
    params := Some(bound);
  }

  lemma ParamsOneMore(pattern: seq<string>, segments: seq<string>, decode: string -> string, i: nat)
    requires i < |pattern| == |segments|
    ensures var less := Params(pattern[..i], segments[..i], decode);
            Params(pattern[..i + 1], segments[..i + 1], decode) ==
              if IsParam(pattern[i]) then less[pattern[i][1..] := decode(segments[i])] else less
  {
    assert pattern[..i + 1][..i] == pattern[..i] && segments[..i + 1][..i] == segments[..i];
  }

  /** Could one path satisfy both? */
  predicate PatternsOverlap(a: seq<string>, b: seq<string>) {
    |a| == |b| && forall i :: 0 <= i < |a| ==> IsParam(a[i]) || IsParam(b[i]) || a[i] == b[i]
  }

  /** A path that satisfies both, segment by segment. */
  function Meet(a: seq<string>, b: seq<string>): (path: seq<string>)
    requires |a| == |b|
    ensures |path| == |a|
  {
    seq(|a|, i requires 0 <= i < |a| => if !IsParam(a[i]) then a[i] else if !IsParam(b[i]) then b[i] else "x")
  }

  predicate SlashFree(segments: seq<string>) {
    segments != [] && forall i :: 0 <= i < |segments| ==> '/' !in segments[i]
  }

  /** OVERLAP IS JOINT MATCHING. Two patterns overlap exactly when some path matches both. */
  lemma OverlapIffJointMatch(a: seq<string>, b: seq<string>)
    requires SlashFree(a) && SlashFree(b)
    ensures PatternsOverlap(a, b) <==> exists path: string :: Matches(a, Split(path)) && Matches(b, Split(path))
  {
    if PatternsOverlap(a, b) {
      var path := Join(Meet(a, b));
      SplitUndoesJoin(Meet(a, b));
      assert Matches(a, Split(path)) && Matches(b, Split(path));
    }
  }

  // ---- paths and matches, in words ----

  /** A path begins with a slash, one put before it if need be; one that did, and goes on, sheds one slash at its end. */
  lemma NormalizedPath(path: string)
    ensures !("/" <= path) ==> NormalizePath(path) == "/" + path
    ensures forall q: string :: "/" <= path && path == q + "/" && q != "" ==> NormalizePath(path) == q
    ensures "/" <= path && (path == "/" || path[|path| - 1] != '/') ==> NormalizePath(path) == path
  {
    forall q: string | "/" <= path && path == q + "/" && q != ""
      ensures NormalizePath(path) == q
    {
      assert path[|path| - 1] == '/' && path[..|path| - 1] == q;
    }
  }

  predicate IsLastNamed(pattern: seq<string>, name: string, i: nat) {
    i < |pattern| && pattern[i] == ":" + name && forall j :: i < j < |pattern| ==> pattern[j] != ":" + name
  }

  lemma NamedIsParam(segment: string, name: string)
    ensures segment == ":" + name <==> IsParam(segment) && segment[1..] == name
  {
    assert IsParam(segment) ==> segment == ":" + segment[1..];
  }

  lemma {:induction false} ParamsAreNamed(pattern: seq<string>, segments: seq<string>, decode: string -> string, name: string)
    requires |pattern| == |segments|
    ensures name in Params(pattern, segments, decode) <==> exists i :: 0 <= i < |pattern| && pattern[i] == ":" + name
  {
    if pattern != [] {
      var n := |pattern| - 1;
      ParamsAreNamed(pattern[..n], segments[..n], decode, name);
      NamedIsParam(pattern[n], name);
      if i :| 0 <= i < n && pattern[i] == ":" + name {
        assert pattern[..n][i] == ":" + name;
      }
    }
  }

  lemma {:induction false} LastNameBinds(pattern: seq<string>, segments: seq<string>, decode: string -> string, name: string, i: nat)
    requires |pattern| == |segments| && IsLastNamed(pattern, name, i)
    ensures name in Params(pattern, segments, decode) && Params(pattern, segments, decode)[name] == decode(segments[i])
  {
    var n := |pattern| - 1;
    NamedIsParam(pattern[n], name);
    if i < n {
      LastNameBinds(pattern[..n], segments[..n], decode, name, i);
    }
  }

  predicate FitsSegments(pattern: seq<string>, segments: seq<string>) {
    |pattern| == |segments| && forall i :: 0 <= i < |pattern| ==> ":" <= pattern[i] || pattern[i] == segments[i]
  }

  /** A MATCH, IN WORDS. Of the route's verb, and segment for segment: each of the pattern's begins with a colon or is the
      request's. It binds exactly the names after the colons, each to its last segment, decoded. */
  lemma MatchBinds(route: Route, verb: Verb, path: string, decode: string -> string, name: string)
    ensures MatchPattern(route, verb, path, decode).Some? <==> route.verb == verb && FitsSegments(Segments(route), Split(path))
    ensures var pattern, segments, bound := Segments(route), Split(path), MatchPattern(route, verb, path, decode);
            bound.Some? ==>
              && (name in bound.value <==> exists i :: 0 <= i < |pattern| && pattern[i] == ":" + name)
              && (forall i: nat :: IsLastNamed(pattern, name, i) ==> name in bound.value && bound.value[name] == decode(segments[i]))
  {
    var pattern, segments := Segments(route), Split(path);
    assert forall i :: 0 <= i < |pattern| ==> (IsParam(pattern[i]) <==> ":" <= pattern[i]);
    if MatchPattern(route, verb, path, decode).Some? {
      ParamsAreNamed(pattern, segments, decode, name);
      forall i: nat | IsLastNamed(pattern, name, i)
        ensures name in Params(pattern, segments, decode) && Params(pattern, segments, decode)[name] == decode(segments[i])
      {
        LastNameBinds(pattern, segments, decode, name, i);
      }
    }
  }

  // ---- the check at assembly ----

  function Shape(segments: seq<string>): (shape: seq<string>)
    ensures |shape| == |segments|
  {
    seq(|segments|, i requires 0 <= i < |segments| => if IsParam(segments[i]) then ":" else segments[i])
  }

  function ConflictKey(route: Route): string {
    VerbName(route.verb) + " " + Join(Shape(Segments(route)))
  }

  function RouteKey(verb: Verb, path: string): string {
    VerbName(verb) + " " + path
  }

  /** No route reuses the key of an earlier one, unless the earlier one's id is empty. */
  predicate LeavesKey(earlier: Route, later: Route) {
    ConflictKey(earlier) == ConflictKey(later) ==> earlier.id == ""
  }

  predicate KeysFree(routes: seq<Route>) {
    forall i, j :: 0 <= i < j < |routes| ==> LeavesKey(routes[i], routes[j])
  }

  predicate Ambiguous(a: Route, b: Route) {
    IsPattern(a) && IsPattern(b) && a.verb == b.verb && PatternsOverlap(Segments(a), Segments(b))
  }

  predicate NoneAmbiguous(routes: seq<Route>) {
    forall i, j :: 0 <= i < j < |routes| ==> !Ambiguous(routes[i], routes[j])
  }

  predicate Accepted(routes: seq<Route>) {
    KeysFree(routes) && NoneAmbiguous(routes)
  }

  predicate Has(routes: seq<Route>, k: nat, key: string, id: string) {
    exists i :: 0 <= i < k && i < |routes| && ConflictKey(routes[i]) == key && routes[i].id == id
  }

  /** The route's key is in the record, and under its own id unless that is empty. */
  predicate Recorded(route: Route, seen: map<string, string>) {
    ConflictKey(route) in seen && (route.id != "" ==> seen[ConflictKey(route)] == route.id)
  }

  /** The record so far: every route in it, and every entry the id of a route of that key. */
  ghost predicate SeenOk(routes: seq<Route>, k: nat, seen: map<string, string>) {
    && (forall i :: 0 <= i < k && i < |routes| ==> Recorded(routes[i], seen))
    && (forall key :: key in seen ==> Has(routes, k, key, seen[key]))
  }

  predicate KeysFreeUpTo(routes: seq<Route>, k: nat) {
    forall i, j :: 0 <= i < j < k && j < |routes| ==> LeavesKey(routes[i], routes[j])
  }

  method CheckKeys(routes: seq<Route>) returns (ok: bool)
    ensures ok <==> KeysFree(routes)
  {
    var seen: map<string, string> := map[];
    var k := 0;
    while k < |routes|
      invariant 0 <= k <= |routes|
      invariant KeysFreeUpTo(routes, k) && SeenOk(routes, k, seen)
    {
      var key := ConflictKey(routes[k]);
      // an id that is the empty text reads as no id at all
      if key in seen && seen[key] != "" {
        assert Has(routes, k, key, seen[key]);
        return false;
      }
      KeysOneMore(routes, k, key, seen);
      SeenOneMore(routes, k, key, seen);
      seen := seen[key := routes[k].id];
      k := k + 1;
    }
    ok := true;
  }

  lemma StillRecorded(route: Route, seen: map<string, string>, key: string, id: string)
    requires Recorded(route, seen) && (key in seen ==> seen[key] == "")
    ensures Recorded(route, seen[key := id])
  {
  }

  lemma SeenOneMore(routes: seq<Route>, k: nat, key: string, seen: map<string, string>)
    requires k < |routes| && SeenOk(routes, k, seen) && key == ConflictKey(routes[k])
    requires key in seen ==> seen[key] == ""
    ensures SeenOk(routes, k + 1, seen[key := routes[k].id])
  {
    var more := seen[key := routes[k].id];
    StillHas(routes, k, key, seen);
    forall i | 0 <= i < k + 1
      ensures Recorded(routes[i], more)
    {
      if i < k {
        StillRecorded(routes[i], seen, key, routes[k].id);
      } else {
        assert i == k && more[ConflictKey(routes[k])] == routes[k].id;
      }
    }
  }

  lemma KeysOneMore(routes: seq<Route>, k: nat, key: string, seen: map<string, string>)
    requires k < |routes| && KeysFreeUpTo(routes, k) && SeenOk(routes, k, seen) && key == ConflictKey(routes[k])
    requires key in seen ==> seen[key] == ""
    ensures KeysFreeUpTo(routes, k + 1)
  {
    NoEarlierId(routes, k, key, seen);
    forall i, j | 0 <= i < j < k + 1
      ensures LeavesKey(routes[i], routes[j])
    {
      assert j < k || j == k;
    }
  }

  lemma StillHas(routes: seq<Route>, k: nat, key: string, seen: map<string, string>)
    requires k < |routes| && SeenOk(routes, k, seen) && key == ConflictKey(routes[k])
    ensures var more := seen[key := routes[k].id]; forall other :: other in more ==> Has(routes, k + 1, other, more[other])
  {
    var more := seen[key := routes[k].id];
    forall other | other in more
      ensures Has(routes, k + 1, other, more[other])
    {
      if other == key {
        HasLast(routes, k);
      } else {
        HasLonger(routes, k, other, seen[other]);
      }
    }
  }

  lemma NoEarlierId(routes: seq<Route>, k: nat, key: string, seen: map<string, string>)
    requires k < |routes| && SeenOk(routes, k, seen) && (key in seen ==> seen[key] == "")
    ensures forall i :: 0 <= i < k && ConflictKey(routes[i]) == key ==> routes[i].id == ""
  {
    forall i | 0 <= i < k && ConflictKey(routes[i]) == key
      ensures routes[i].id == ""
    {
      assert Recorded(routes[i], seen);
    }
  }

  lemma HasLast(routes: seq<Route>, k: nat)
    requires k < |routes|
    ensures Has(routes, k + 1, ConflictKey(routes[k]), routes[k].id)
  {
  }

  lemma HasLonger(routes: seq<Route>, k: nat, key: string, id: string)
    requires Has(routes, k, key, id)
    ensures Has(routes, k + 1, key, id)
  {
  }

  /** Accepts a route list exactly when no key is reused, but for an empty id, and no two patterns of one
      method overlap. */
  method CheckRouteConflicts(routes: seq<Route>) returns (ok: bool)
    ensures ok <==> Accepted(routes)
  {
    ok := CheckKeys(routes);
    if !ok {
      return;
    }
    for i := 0 to |routes|
      invariant ok && forall a, b :: 0 <= a < i && a < b < |routes| ==> !Ambiguous(routes[a], routes[b])
    {
      ok := CheckAgainstLater(routes, i);
      if !ok {
        return;
      }
    }
  }

  /** Does route `i` overlap no later pattern of its method? */
  method CheckAgainstLater(routes: seq<Route>, i: nat) returns (ok: bool)
    requires i < |routes|
    ensures ok <==> forall b :: i < b < |routes| ==> !Ambiguous(routes[i], routes[b])
  {
    for j := i + 1 to |routes|
      invariant forall b :: i < b < j ==> !Ambiguous(routes[i], routes[b])
    {
      if IsPattern(routes[i]) && IsPattern(routes[j]) && routes[i].verb == routes[j].verb && PatternsOverlap(Segments(routes[i]), Segments(routes[j])) {
        assert Ambiguous(routes[i], routes[j]);
        return false;
      }
    }
    ok := true;
  }
}
