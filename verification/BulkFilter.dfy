/** The bulk row filter of a listing against the decision each row would get on its own. */
module BulkFilter {
  import opened Options
  import A = ApiAccess

  datatype Key = Key(kind: string, id: string)

  /** What a route resolves: a row to load, or a boundary with no row. */
  datatype Target = Row(key: Key) | Within(scope: string, scopeId: string)

  /** A loaded row, with the resources whose grants it inherits. */
  datatype Base = Base(createdBy: Option<string>, scope: Option<string>, scopeId: Option<string>, parents: seq<Key>)

  datatype Load = Loaded(base: Base) | Absent | Threw

  /** The loaders by kind, the kinds core declares, and the grant store if there is one. Loads and grants
      are what they are for the whole of one listing. */
  datatype Deployment = Deployment(loaders: map<string, string -> Load>, core: set<string>, grants: Option<Key -> seq<A.Grant>>)

  const DENY_SHAPE: A.Resource := A.Resource(None, None, None, [])

  // ---- one row on its own ----

  function GrantsAt(d: Deployment, key: Key): seq<A.Grant> {
    if d.grants.Some? then (d.grants.value)(key) else []
  }

  function GrantsOfAll(d: Deployment, keys: seq<Key>): seq<A.Grant> {
    if keys == [] then [] else GrantsOfAll(d, keys[..|keys| - 1]) + GrantsAt(d, keys[|keys| - 1])
  }

  function ShapeOf(d: Deployment, key: Key, base: Base): A.Resource {
    A.Resource(base.createdBy, base.scope, base.scopeId, GrantsAt(d, key) + GrantsOfAll(d, base.parents))
  }

  function Boundary(scope: string, scopeId: string): A.Resource {
    A.Resource(None, Some(scope), Some(scopeId), [])
  }

  /** The shape a single decision loads; None where it throws instead. */
  function SingleShape(d: Deployment, target: Target): Option<A.Resource> {
    match target
    case Within(scope, scopeId) => Some(Boundary(scope, scopeId))
    case Row(key) =>
      if key.kind !in d.loaders then (if key.kind in d.core then None else Some(DENY_SHAPE))
      else match (d.loaders[key.kind])(key.id)
        case Threw => None
        case Absent => Some(DENY_SHAPE)
        case Loaded(base) => Some(ShapeOf(d, key, base))
  }

  predicate Undecidable(d: Deployment, target: Target) {
    SingleShape(d, target) == None
  }

  /** The shape the bulk loader gives: an undecidable row is denied, not an error. */
  function BulkShape(d: Deployment, target: Target): A.Resource {
    match SingleShape(d, target)
    case Some(shape) => shape
    case None => DENY_SHAPE
  }

  // ---- the bulk loader ----

  /** A row whose base was loaded; None for a boundary, an absent row or a load that failed. */
  datatype LoadedRow = LoadedRow(key: Key, base: Base)

  function LoadOne(d: Deployment, target: Target): Option<LoadedRow> {
    match target
    case Within(_, _) => None
    case Row(key) =>
      if key.kind !in d.loaders then None
      else match (d.loaders[key.kind])(key.id)
        case Loaded(base) => Some(LoadedRow(key, base))
        case _ => None
  }

  /** Loads the rows a few at a time, in order. */
  method LoadBatches(d: Deployment, targets: seq<Target>, concurrency: nat) returns (loaded: seq<Option<LoadedRow>>)
    requires concurrency > 0
    ensures |loaded| == |targets| && forall i :: 0 <= i < |targets| ==> loaded[i] == LoadOne(d, targets[i])
  {
    loaded := [];
    var i := 0;
    while i < |targets|
      invariant |loaded| == if i < |targets| then i else |targets|
      invariant forall k :: 0 <= k < |loaded| ==> loaded[k] == LoadOne(d, targets[k])
      decreases |targets| - i
    {
      var end := if i + concurrency < |targets| then i + concurrency else |targets|;
      var k := i;
      while k < end
        invariant i <= k <= end && |loaded| == k
        invariant forall j :: 0 <= j < |loaded| ==> loaded[j] == LoadOne(d, targets[j])
      {
        loaded := loaded + [LoadOne(d, targets[k])];
        k := k + 1;
      }
      i := i + concurrency;
    }
  }

  /** Every grant key a page needs is asked for. */
  predicate Asks(keys: seq<Key>, row: LoadedRow) {
    row.key in keys && forall i :: 0 <= i < |row.base.parents| ==> row.base.parents[i] in keys
  }

  /** The grants of a page, by key; `queries` is what the grant store was asked, one list of keys each time. */
  method GrantsFor(d: Deployment, loaded: seq<Option<LoadedRow>>) returns (grants: map<Key, seq<A.Grant>>, queries: seq<seq<Key>>)
    ensures |queries| == if d.grants.Some? then 1 else 0
    ensures forall key :: key in grants ==> grants[key] == GrantsAt(d, key)
    ensures d.grants.Some? ==> forall i :: 0 <= i < |loaded| && loaded[i].Some? ==>
              loaded[i].value.key in grants && forall k :: 0 <= k < |loaded[i].value.base.parents| ==> loaded[i].value.base.parents[k] in grants
  {
    if d.grants == None {
      return map[], [];
    }
    var keys: seq<Key> := [];
    var i := 0;
    while i < |loaded|
      invariant 0 <= i <= |loaded|
      invariant forall j :: 0 <= j < i && loaded[j].Some? ==> Asks(keys, loaded[j].value)
    {
      if loaded[i].Some? {
        keys := keys + [loaded[i].value.key] + loaded[i].value.base.parents;
        assert Asks(keys, loaded[i].value);
      }
      i := i + 1;
    }
    grants, queries := map key | key in keys :: (d.grants.value)(key), [keys];
  }

  function Found(grants: map<Key, seq<A.Grant>>, key: Key): seq<A.Grant> {
    if key in grants then grants[key] else []
  }

  function FoundAll(grants: map<Key, seq<A.Grant>>, keys: seq<Key>): seq<A.Grant> {
    if keys == [] then [] else FoundAll(grants, keys[..|keys| - 1]) + Found(grants, keys[|keys| - 1])
  }

  function ShapeFrom(row: LoadedRow, grants: map<Key, seq<A.Grant>>): A.Resource {
    A.Resource(row.base.createdBy, row.base.scope, row.base.scopeId, Found(grants, row.key) + FoundAll(grants, row.base.parents))
  }

  lemma {:induction false} FoundIsAsked(d: Deployment, grants: map<Key, seq<A.Grant>>, keys: seq<Key>)
    requires forall key :: key in grants ==> grants[key] == GrantsAt(d, key)
    requires d.grants.Some? ==> forall i :: 0 <= i < |keys| ==> keys[i] in grants
    ensures FoundAll(grants, keys) == GrantsOfAll(d, keys)
  {
    if keys != [] {
      FoundIsAsked(d, grants, keys[..|keys| - 1]);
    }
  }

  /** The shapes of a page, each the one its row would get alone, whatever the width of the loads, and for one
      read of the grant store however long the page. */
  method ByTargets(d: Deployment, targets: seq<Target>, concurrency: nat) returns (shapes: seq<A.Resource>, queries: seq<seq<Key>>)
    requires concurrency > 0
    ensures |queries| == if d.grants.Some? then 1 else 0
    ensures |shapes| == |targets| && forall i :: 0 <= i < |targets| ==> shapes[i] == BulkShape(d, targets[i])
  {
    var loaded := LoadBatches(d, targets, concurrency);
    var grants: map<Key, seq<A.Grant>>;
    grants, queries := GrantsFor(d, loaded);
    shapes := [];
    var i := 0;
    while i < |targets|
      invariant 0 <= i <= |targets| && |shapes| == i
      invariant forall k :: 0 <= k < i ==> shapes[k] == BulkShape(d, targets[k])
    {
      if loaded[i].Some? {
        FoundIsAsked(d, grants, loaded[i].value.base.parents);
        shapes := shapes + [ShapeFrom(loaded[i].value, grants)];
      } else if targets[i].Row? {
        shapes := shapes + [DENY_SHAPE];
      } else {
        shapes := shapes + [Boundary(targets[i].scope, targets[i].scopeId)];
      }
      i := i + 1;
    }
  }

  // ---- the decision and the filter ----

  datatype Posture = Enforcing | Shadowing | Open

  const RESERVED_PREFIX: string := "busyclaw:"

  /** Scopes core reserves are never held, whatever the host's resolver says. */
  function Allowed(scopes: seq<A.Scope>): seq<A.Scope> {
    if scopes == [] then []
    else
      var last := scopes[|scopes| - 1];
      Allowed(scopes[..|scopes| - 1]) + if RESERVED_PREFIX <= last.scope then [] else [last]
  }

  /** One call as the engine decides it, once method, level and caller are fixed. */
  type Permits = (A.Resource, seq<A.Scope>) -> bool

  /** Does a single check of this target let the call through? */
  predicate Passes(d: Deployment, permits: Permits, scopes: seq<A.Scope>, posture: Posture, target: Target) {
    match posture
    case Open => true
    case Shadowing => !Undecidable(d, target)
    case Enforcing => !Undecidable(d, target) && permits(SingleShape(d, target).value, Allowed(scopes))
  }

  predicate Keeps(d: Deployment, permits: Permits, scopes: seq<A.Scope>, posture: Posture, target: Target) {
    posture != Enforcing || permits(BulkShape(d, target), Allowed(scopes))
  }

  /** The rows that satisfy a test, in order. */
  function Keep<T>(rows: seq<T>, test: T -> bool): seq<T> {
    if rows == [] then []
    else Keep(rows[..|rows| - 1], test) + if test(rows[|rows| - 1]) then [rows[|rows| - 1]] else []
  }

  method FilterRows<T>(d: Deployment, permits: Permits, scopes: seq<A.Scope>, posture: Posture, rows: seq<T>, target: T -> Target, concurrency: nat)
    returns (kept: seq<T>)
    requires concurrency > 0
    ensures kept == Keep(rows, r => Keeps(d, permits, scopes, posture, target(r)))
  {
    var test := r => Keeps(d, permits, scopes, posture, target(r));
    if posture == Open {
      KeepAll(rows, test);
      return rows;
    }
    var allowed := Allowed(scopes);
    var targets := seq(|rows|, i requires 0 <= i < |rows| => target(rows[i]));
    var shapes, _ := ByTargets(d, targets, concurrency);
    kept := [];
    var i := 0;
    while i < |rows|
      invariant 0 <= i <= |rows|
      invariant kept == Keep(rows[..i], test)
    {
      assert rows[..i + 1][..i] == rows[..i];
      var permitted := permits(shapes[i], allowed);
      if permitted || posture == Shadowing {
        kept := kept + [rows[i]];
      }
      i := i + 1;
    }
    assert rows[..i] == rows;
  }

  lemma {:induction false} KeepAll<T>(rows: seq<T>, test: T -> bool)
    requires forall i :: 0 <= i < |rows| ==> test(rows[i])
    ensures Keep(rows, test) == rows
  {
    if rows != [] {
      KeepAll(rows[..|rows| - 1], test);
    }
  }

  // ---- what a row's shape holds ----

  predicate IsOwnOrInherited(d: Deployment, key: Key, base: Base, g: A.Grant) {
    d.grants.Some? && (g in (d.grants.value)(key) || exists i :: 0 <= i < |base.parents| && g in (d.grants.value)(base.parents[i]))
  }

  lemma {:induction false} GrantsOfAllHold(d: Deployment, keys: seq<Key>, g: A.Grant)
    ensures g in GrantsOfAll(d, keys) <==> d.grants.Some? && exists i :: 0 <= i < |keys| && g in (d.grants.value)(keys[i])
  {
    if keys != [] {
      var less, last := keys[..|keys| - 1], keys[|keys| - 1];
      GrantsOfAllHold(d, less, g);
      assert keys == less + [last];
      if d.grants.Some? && exists i :: 0 <= i < |less| && g in (d.grants.value)(less[i]) {
        var i :| 0 <= i < |less| && g in (d.grants.value)(less[i]);
        assert keys[i] == less[i];
      }
      if d.grants.Some? && g in (d.grants.value)(last) {
        assert keys[|keys| - 1] == last;
      }
    }
  }

  /** A LOADED ROW'S SHAPE has its base's owner and boundary, and exactly the grants the store lists for the row itself or
      for a resource whose grants it inherits. */
  lemma LoadedShape(d: Deployment, key: Key, base: Base, g: A.Grant)
    requires key.kind in d.loaders && (d.loaders[key.kind])(key.id) == Loaded(base)
    ensures var shape := BulkShape(d, Row(key));
            && shape.createdBy == base.createdBy && shape.boundary == base.scope && shape.boundaryId == base.scopeId
            && (g in shape.grants <==> IsOwnOrInherited(d, key, base, g))
            && SingleShape(d, Row(key)) == Some(shape)
  {
    GrantsOfAllHold(d, base.parents, g);
  }

  /** Every other target: a boundary is nobody's but its own, an absent row and a kind nobody knows are nobody's, and what
      cannot be loaded is nobody's to the bulk loader and an error to the single one. */
  lemma OtherShapes(d: Deployment, target: Target)
    ensures target.Within? ==>
              SingleShape(d, target) == Some(BulkShape(d, target)) && BulkShape(d, target) == A.Resource(None, Some(target.scope), Some(target.scopeId), [])
    ensures target.Row? && (target.key.kind !in d.loaders || !(d.loaders[target.key.kind])(target.key.id).Loaded?) ==>
              BulkShape(d, target) == A.Resource(None, None, None, [])
    ensures SingleShape(d, target) == None <==>
              target.Row? && if target.key.kind in d.loaders then (d.loaders[target.key.kind])(target.key.id).Threw? else target.key.kind in d.core
  {
  }

  /** The engine as the baseline decides it. */
  ghost predicate IsBaseline(permits: Permits, creates: set<string>, apiMethod: string, level: A.Level, principal: string) {
    forall resource, scopes :: permits(resource, scopes) <==> A.PlainRule(creates, A.Call(apiMethod, level, principal, resource, scopes))
  }

  /** SHARE A CLAW AND ITS THREADS COME ALONG. A caller whom a grant names, at the required level or above, on the row or on
      a resource it inherits from, passes the row, alone and in a listing. */
  lemma InheritedGrantPasses(d: Deployment, permits: Permits, creates: set<string>, apiMethod: string, level: A.Level, principal: string,
      scopes: seq<A.Scope>, posture: Posture, key: Key, base: Base, g: A.Grant)
    requires IsBaseline(permits, creates, apiMethod, level, principal)
    requires key.kind in d.loaders && (d.loaders[key.kind])(key.id) == Loaded(base) && IsOwnOrInherited(d, key, base, g)
    requires g.principalRef == principal && A.Rank(g.level) >= A.Rank(level)
    ensures Passes(d, permits, scopes, posture, Row(key)) && Keeps(d, permits, scopes, posture, Row(key))
  {
    LoadedShape(d, key, base, g);
    var shape := BulkShape(d, Row(key));
    var i :| 0 <= i < |shape.grants| && shape.grants[i] == g;
    assert A.IsGranted(A.Call(apiMethod, level, principal, shape, Allowed(scopes)));
  }

  // ---- scopes nobody may hold ----

  predicate IsReserved(scope: string) {
    |scope| >= 9 && scope[..9] == "busyclaw:"
  }

  lemma {:induction false} AllowedHolds(scopes: seq<A.Scope>, s: A.Scope)
    ensures s in Allowed(scopes) <==> s in scopes && !IsReserved(s.scope)
  {
    if scopes != [] {
      var less, last := scopes[..|scopes| - 1], scopes[|scopes| - 1];
      AllowedHolds(less, s);
      assert scopes == less + [last];
      ReservedIsPrefixed(last.scope);
    }
  }

  lemma ReservedIsPrefixed(scope: string)
    ensures RESERVED_PREFIX <= scope <==> IsReserved(scope)
  {
  }

  lemma {:induction false} AllowedSkips(before: seq<A.Scope>, s: A.Scope, after: seq<A.Scope>)
    requires IsReserved(s.scope)
    ensures Allowed(before + [s] + after) == Allowed(before + after)
  {
    ReservedIsPrefixed(s.scope);
    if after == [] {
      assert (before + [s] + after)[..|before|] == before && before + after == before;
    } else {
      var less, last := after[..|after| - 1], after[|after| - 1];
      AllowedSkips(before, s, less);
      assert (before + [s] + after)[..|before| + |after|] == before + [s] + less;
      assert (before + after)[..|before| + |after| - 1] == before + less;
    }
  }

  /** A RESERVED SCOPE IS NEVER HELD. Named by the host's resolver or not it changes no decision, single or in a listing;
      every other scope is held as resolved. */
  lemma ReservedScopeIsIgnored(d: Deployment, permits: Permits, before: seq<A.Scope>, s: A.Scope, after: seq<A.Scope>, posture: Posture, target: Target)
    requires IsReserved(s.scope)
    ensures Passes(d, permits, before + [s] + after, posture, target) == Passes(d, permits, before + after, posture, target)
    ensures Keeps(d, permits, before + [s] + after, posture, target) == Keeps(d, permits, before + after, posture, target)
  {
    AllowedSkips(before, s, after);
  }

  /** And where none is reserved a decision is made on all of them. */
  lemma {:induction false} OthersAreHeld(scopes: seq<A.Scope>)
    requires forall i :: 0 <= i < |scopes| ==> !IsReserved(scopes[i].scope)
    ensures Allowed(scopes) == scopes
  {
    if scopes != [] {
      OthersAreHeld(scopes[..|scopes| - 1]);
      ReservedIsPrefixed(scopes[|scopes| - 1].scope);
    }
  }

  /** What a listing keeps by posture: everything unless it is in force, and then what the engine permits. */
  lemma KeepsByPosture(d: Deployment, permits: Permits, scopes: seq<A.Scope>, posture: Posture, target: Target)
    ensures Keeps(d, permits, scopes, posture, target) <==>
              posture == Open || posture == Shadowing || permits(BulkShape(d, target), Allowed(scopes))
    ensures Passes(d, permits, scopes, posture, target) <==>
              posture == Open ||
              (SingleShape(d, target).Some? && (posture == Shadowing || permits(SingleShape(d, target).value, Allowed(scopes))))
  {
  }

  /** The rows kept of a page are those kept of its parts, one after the other, and of one row that row or none. */
  lemma {:induction false} KeepSplits<T>(a: seq<T>, b: seq<T>, test: T -> bool)
    ensures Keep(a + b, test) == Keep(a, test) + Keep(b, test)
    ensures |a| == 1 ==> Keep(a, test) == if test(a[0]) then a else []
  {
    if b == [] {
      assert a + b == a;
    } else {
      var less, last := b[..|b| - 1], b[|b| - 1];
      assert (a + b)[..|a + b| - 1] == a + less;
      KeepSplits(a, less, test);
    }
    if |a| == 1 {
      assert a[..0] == [] && [a[0]] == a;
    }
  }

  // ---- main results ----

  /** A ROW IS KEPT exactly when its single check passes, or when that check cannot be made and the bulk
      filter does not drop it either: in shadow always, in force where the engine permits a resource
      nobody owns. */
  lemma KeptIff(d: Deployment, permits: Permits, scopes: seq<A.Scope>, posture: Posture, target: Target)
    ensures Keeps(d, permits, scopes, posture, target) <==>
              || Passes(d, permits, scopes, posture, target)
              || (Undecidable(d, target) && (posture == Shadowing || (posture == Enforcing && permits(DENY_SHAPE, Allowed(scopes)))))
  {
  }

  lemma {:induction false} KeepSame<T>(rows: seq<T>, some: T -> bool, more: T -> bool)
    requires forall r :: r in rows && some(r) ==> more(r)
    ensures |Keep(rows, some)| <= |Keep(rows, more)|
    ensures Keep(rows, some) == Keep(rows, more) <==> forall r :: r in rows ==> some(r) == more(r)
  {
    if rows != [] {
      var less, last := rows[..|rows| - 1], rows[|rows| - 1];
      KeepSame(less, some, more);
      assert forall r :: r in rows <==> r in less || r == last;
      if some(last) != more(last) {
        assert |Keep(rows, some)| < |Keep(rows, more)|;
      } else if some(last) {
        SameBeforeLast(Keep(less, some), Keep(less, more), last);
      } else {
        assert Keep(rows, some) == Keep(less, some) && Keep(rows, more) == Keep(less, more);
      }
    }
  }

  lemma SameBeforeLast<T>(a: seq<T>, b: seq<T>, last: T)
    ensures a + [last] == b + [last] <==> a == b
  {
    if a + [last] == b + [last] {
      assert a == (a + [last])[..|a + [last]| - 1];
      assert b == (b + [last])[..|b + [last]| - 1];
    }
  }

  /** BULK IS SINGLE. In force, whatever the page and the width of the loads, the filter keeps exactly the
      rows whose own check would pass, in order, if and only if the engine denies the resource nobody owns
      or no row of the page is undecidable. */
  lemma FilterIsSingleIff<T>(d: Deployment, permits: Permits, scopes: seq<A.Scope>, rows: seq<T>, target: T -> Target)
    ensures var kept := Keep(rows, r => Keeps(d, permits, scopes, Enforcing, target(r)));
            var passing := Keep(rows, r => Passes(d, permits, scopes, Enforcing, target(r)));
            kept == passing <==> (!permits(DENY_SHAPE, Allowed(scopes)) || forall r :: r in rows ==> !Undecidable(d, target(r)))
  {
    var passes, keeps := r => Passes(d, permits, scopes, Enforcing, target(r)), r => Keeps(d, permits, scopes, Enforcing, target(r));
    forall r | r in rows
      ensures keeps(r) <==> passes(r) || (Undecidable(d, target(r)) && permits(DENY_SHAPE, Allowed(scopes)))
    {
      KeptIff(d, permits, scopes, Enforcing, target(r));
    }
    KeepSame(rows, passes, keeps);
  }

  /** By the baseline alone the resource nobody owns is permitted for the methods that create, and no
      others: so the filter is exact for every method that does not create. */
  lemma NobodysResource(creates: set<string>, c: A.Call)
    requires c.resource == DENY_SHAPE
    ensures A.PlainRule(creates, c) <==> c.apiMethod in creates
  {
  }

  /** A create method keeps a row no single check would let through. */
  lemma UndecidableRowIsKept() returns (d: Deployment, target: Target)
    ensures Undecidable(d, target)
    ensures forall c: A.Call, creates: set<string> :: c.apiMethod in creates && c.resource == BulkShape(d, target) ==> A.PlainRule(creates, c)
    ensures forall permits: Permits :: !Passes(d, permits, [], Enforcing, target)
  {
    d, target := Deployment(map["claw" := id => Threw], {"claw"}, None), Row(Key("claw", "1"));
  }
}
