/** Product-API access: the entity graph rendered for one call, as Cedar decides it, against the plain
    rule it stands for. */
module ApiAccess {
  import opened Options
  import opened Strings
  import opened EntityGraph

  datatype Level = Read | Use | Manage

  const LEVELS_ASCENDING: seq<Level> := [Read, Use, Manage]

  function Rank(level: Level): nat {
    match level
    case Read => 0
    case Use => 1
    case Manage => 2
  }

  function LevelName(level: Level): string {
    match level
    case Read => "read"
    case Use => "use"
    case Manage => "manage"
  }

  datatype Grant = Grant(principalRef: string, level: Level)
  datatype Scope = Scope(scope: string, scopeId: string, level: Level)
  datatype Resource = Resource(createdBy: Option<string>, boundary: Option<string>, boundaryId: Option<string>, grants: seq<Grant>)

  // ---- requests ----

  datatype Request = Request(principal: Uid, action: Uid, resource: Uid)

  const API_GROUP: Uid := Uid(ActionType, "api")
  const CREATE_GROUP: Uid := Uid(ActionType, "creates")

  // ---- the four baseline permits ----

  ghost predicate OwnerPermits(entities: seq<Entity>, r: Request) {
    In(entities, r.action, API_GROUP) && HasAttr(entities, r.resource, "createdBy", r.principal)
  }

  ghost predicate ScopePermits(entities: seq<Entity>, r: Request) {
    In(entities, r.action, API_GROUP) &&
    exists node :: HasAttr(entities, r.resource, "requiredScopeAccess", node) && In(entities, r.principal, node)
  }

  ghost predicate GrantPermits(entities: seq<Entity>, r: Request) {
    In(entities, r.action, API_GROUP) &&
    exists node :: HasAttr(entities, r.resource, "requiredGrantAccess", node) && In(entities, r.principal, node)
  }

  ghost predicate CreatePermits(entities: seq<Entity>, r: Request) {
    In(entities, r.action, CREATE_GROUP)
  }

  /** The baseline holds no forbid, so a call is allowed when some permit matches. */
  ghost predicate BaselineAllows(entities: seq<Entity>, r: Request) {
    OwnerPermits(entities, r) || ScopePermits(entities, r) || GrantPermits(entities, r) || CreatePermits(entities, r)
  }

  // ---- rendering ----

  function ScopeBase(scope: string, scopeId: string): string {
    "scope:" + scope + ":" + scopeId
  }

  function GrantBase(apiMethod: string): string {
    "grant:" + apiMethod
  }

  function Access(base: string, level: Level): Uid {
    Uid(AccessType, base + ":" + LevelName(level))
  }

  predicate GrantReaches(g: Grant, principal: string, scopes: seq<Scope>) {
    || g.principalRef == "public"
    || g.principalRef == principal
    || exists i :: 0 <= i < |scopes| && scopes[i].scope + ":" + scopes[i].scopeId == g.principalRef
  }

  datatype Call = Call(apiMethod: string, level: Level, principal: string, resource: Resource, scopes: seq<Scope>)

  function PrincipalUid(id: string): Uid {
    Uid(PrincipalType, id)
  }

  function ResourceUid(c: Call): Uid {
    Uid(ResourceType, c.apiMethod)
  }

  predicate Bounded(r: Resource) {
    r.boundary.Some? && r.boundaryId.Some?
  }

  /** The owner, or the resource itself where there is none: no principal equals it. */
  function OwnerRef(c: Call): Uid {
    if c.resource.createdBy.Some? && !Blank(c.resource.createdBy.value) then PrincipalUid(c.resource.createdBy.value) else ResourceUid(c)
  }

  function RequiredScopeAccess(c: Call): Uid {
    if Bounded(c.resource) then Access(ScopeBase(c.resource.boundary.value, c.resource.boundaryId.value), c.level) else ResourceUid(c)
  }

  function ResourceAttrs(c: Call): map<string, Uid> {
    map["createdBy" := OwnerRef(c), "requiredScopeAccess" := RequiredScopeAccess(c),
        "requiredGrantAccess" := Access(GrantBase(c.apiMethod), c.level)]
  }

  /** The bases whose chains of levels must be there. */
  function Bases(c: Call): set<string> {
    {GrantBase(c.apiMethod)}
    + (if Bounded(c.resource) then {ScopeBase(c.resource.boundary.value, c.resource.boundaryId.value)} else {})
    + set i | 0 <= i < |c.scopes| :: ScopeBase(c.scopes[i].scope, c.scopes[i].scopeId)
  }

  /** The caller holds this level on this base: by a scope of its own, or by a grant that reaches it. */
  predicate HoldsLevel(c: Call, base: string, level: Level) {
    || (exists i :: 0 <= i < |c.scopes| && ScopeBase(c.scopes[i].scope, c.scopes[i].scopeId) == base && c.scopes[i].level == level)
    || (base == GrantBase(c.apiMethod) &&
        exists i :: 0 <= i < |c.resource.grants| && GrantReaches(c.resource.grants[i], c.principal, c.scopes) && c.resource.grants[i].level == level)
  }

  // ---- the rendered entities ----

  function Lower(base: string, level: Level): seq<Uid> {
    match level
    case Read => []
    case Use => [Access(base, Read)]
    case Manage => [Access(base, Use)]
  }

  /** One base's levels: `manage` in `use` in `read`. */
  function Chain(base: string): seq<Entity> {
    [Entity(Access(base, Read), map[], Lower(base, Read)),
     Entity(Access(base, Use), map[], Lower(base, Use)),
     Entity(Access(base, Manage), map[], Lower(base, Manage))]
  }

  function Chains(bases: seq<string>): seq<Entity> {
    if bases == [] then [] else Chains(bases[..|bases| - 1]) + Chain(bases[|bases| - 1])
  }

  /** The nodes a caller is put in. */
  function HeldByScope(scopes: seq<Scope>): (r: seq<Uid>)
    ensures |r| == |scopes|
  {
    seq(|scopes|, i requires 0 <= i < |scopes| => Access(ScopeBase(scopes[i].scope, scopes[i].scopeId), scopes[i].level))
  }

  function HeldByGrant(c: Call, grants: seq<Grant>): seq<Uid> {
    if grants == [] then []
    else
      var last := grants[|grants| - 1];
      HeldByGrant(c, grants[..|grants| - 1])
      + if GrantReaches(last, c.principal, c.scopes) then [Access(GrantBase(c.apiMethod), last.level)] else []
  }

  function Held(c: Call): seq<Uid> {
    HeldByScope(c.scopes) + HeldByGrant(c, c.resource.grants)
  }

  function Rendered(c: Call, bases: seq<string>): seq<Entity> {
    Chains(bases) + [Entity(PrincipalUid(c.principal), map[], Held(c)), Entity(ResourceUid(c), ResourceAttrs(c), [])]
  }

  predicate Distinct<T(==)>(s: seq<T>) {
    forall i, j :: 0 <= i < j < |s| ==> s[i] != s[j]
  }

  /** The bases in the order they are first met. */
  ghost predicate IsBases(bases: seq<string>, c: Call) {
    Distinct(bases) && forall b :: b in bases <==> b in Bases(c)
  }

  method AddBase(bases: seq<string>, base: string) returns (more: seq<string>)
    requires Distinct(bases)
    ensures Distinct(more) && forall b :: b in more <==> b in bases || b == base
  {
    more := if base in bases then bases else bases + [base];
  }

  /** Every base whose chain must exist: the grant key, the resource's boundary, each scope held. */
  method CollectBases(c: Call) returns (bases: seq<string>)
    ensures IsBases(bases, c)
  {
    bases := AddBase([], GrantBase(c.apiMethod));
    if c.resource.boundary.Some? && c.resource.boundaryId.Some? {
      bases := AddBase(bases, ScopeBase(c.resource.boundary.value, c.resource.boundaryId.value));
    }
    ghost var own := set b | b in bases;
    var k := 0;
    while k < |c.scopes|
      invariant 0 <= k <= |c.scopes|
      invariant Distinct(bases)
      invariant forall b :: b in bases <==> b in own || exists i :: 0 <= i < k && ScopeBase(c.scopes[i].scope, c.scopes[i].scopeId) == b
    {
      bases := AddBase(bases, ScopeBase(c.scopes[k].scope, c.scopes[k].scopeId));
      k := k + 1;
    }
  }

  method RenderChain(base: string) returns (entities: seq<Entity>)
    ensures entities == Chain(base)
  {
    entities := [];
    var i := 0;
    while i < |LEVELS_ASCENDING|
      invariant 0 <= i <= 3
      invariant entities == Chain(base)[..i]
    {
      var level := LEVELS_ASCENDING[i];
      entities := entities + [Entity(Access(base, level), map[], if i > 0 then [Access(base, LEVELS_ASCENDING[i - 1])] else [])];
      i := i + 1;
    }
  }

  method RenderChains(bases: seq<string>) returns (entities: seq<Entity>)
    ensures entities == Chains(bases)
  {
    entities := [];
    var k := 0;
    while k < |bases|
      invariant 0 <= k <= |bases|
      invariant entities == Chains(bases[..k])
    {
      var chain := RenderChain(bases[k]);
      assert bases[..k + 1][..k] == bases[..k];
      entities := entities + chain;
      k := k + 1;
    }
    assert bases[..k] == bases;
  }

  method RenderHeld(c: Call) returns (parents: seq<Uid>)
    ensures parents == Held(c)
  {
    parents := [];
    var k := 0;
    while k < |c.scopes|
      invariant 0 <= k <= |c.scopes|
      invariant parents == HeldByScope(c.scopes)[..k]
    {
      parents := parents + [Access(ScopeBase(c.scopes[k].scope, c.scopes[k].scopeId), c.scopes[k].level)];
      k := k + 1;
    }
    k := 0;
    while k < |c.resource.grants|
      invariant 0 <= k <= |c.resource.grants|
      invariant parents == HeldByScope(c.scopes) + HeldByGrant(c, c.resource.grants[..k])
    {
      var g := c.resource.grants[k];
      assert c.resource.grants[..k + 1][..k] == c.resource.grants[..k];
      if GrantReaches(g, c.principal, c.scopes) {
        parents := parents + [Access(GrantBase(c.apiMethod), g.level)];
      }
      k := k + 1;
    }
    assert c.resource.grants[..k] == c.resource.grants;
  }

  /** The graph of one call, its chains in whatever order the bases were met. */
  ghost predicate IsRendered(entities: seq<Entity>, c: Call) {
    exists bases :: IsBases(bases, c) && entities == Rendered(c, bases)
  }

  /** Renders the graph of one call, entity by entity. */
  method BuildApiEntities(c: Call) returns (entities: seq<Entity>)
    ensures IsRendered(entities, c)
  {
    var bases := CollectBases(c);
    entities := RenderChains(bases);
    var parents := RenderHeld(c);
    entities := entities + [Entity(PrincipalUid(c.principal), map[], parents)];
    entities := entities + [Entity(ResourceUid(c), ResourceAttrs(c), [])];
  }

  // ---- the action hierarchy ----

  function ActionUid(apiMethod: string): Uid {
    Uid(ActionType, apiMethod)
  }

  function ApiActions(methods: seq<string>, creates: set<string>): (r: seq<Entity>)
    ensures |r| == |methods| + 2
  {
    [Entity(API_GROUP, map[], []), Entity(CREATE_GROUP, map[], [API_GROUP])]
    + seq(|methods|, i requires 0 <= i < |methods| => Entity(ActionUid(methods[i]), map[], [if methods[i] in creates then CREATE_GROUP else API_GROUP]))
  }

  /** The methods the product API governs; none is named like a group. */
  predicate Governs(methods: seq<string>) {
    "api" !in methods && "creates" !in methods
  }

  /** What Cedar is given for one call: the actions' hierarchy and the call's own graph. */
  function Graph(methods: seq<string>, creates: set<string>, c: Call, bases: seq<string>): seq<Entity> {
    ApiActions(methods, creates) + Rendered(c, bases)
  }

  function RequestOf(c: Call): Request {
    Request(PrincipalUid(c.principal), ActionUid(c.apiMethod), ResourceUid(c))
  }

  // ---- the plain rule ----

  predicate Owns(c: Call) {
    c.resource.createdBy == Some(c.principal)
  }

  predicate HoldsBoundary(c: Call) {
    && Bounded(c.resource)
    && exists i :: 0 <= i < |c.scopes| &&
         c.scopes[i].scope + ":" + c.scopes[i].scopeId == c.resource.boundary.value + ":" + c.resource.boundaryId.value &&
         Rank(c.scopes[i].level) >= Rank(c.level)
  }

  predicate IsGranted(c: Call) {
    exists i :: 0 <= i < |c.resource.grants| &&
      GrantReaches(c.resource.grants[i], c.principal, c.scopes) && Rank(c.resource.grants[i].level) >= Rank(c.level)
  }

  predicate PlainRule(creates: set<string>, c: Call) {
    Owns(c) || HoldsBoundary(c) || IsGranted(c) || c.apiMethod in creates
  }

  // ---- edges ----

  lemma AccessIsInjective(a: string, l: Level, b: string, m: Level)
    requires Access(a, l) == Access(b, m)
    ensures a == b && l == m
  {
    SplitsAtLast(a, LevelName(l), b, LevelName(m), ':');
    assert a + ":" + LevelName(l) == a + [':'] + LevelName(l);
    assert b + ":" + LevelName(m) == b + [':'] + LevelName(m);
    assert |LevelName(l)| == |LevelName(m)|;
  }

  lemma ParentInEither(a: seq<Entity>, b: seq<Entity>, child: Uid, parent: Uid)
    ensures IsParent(a + b, child, parent) <==> IsParent(a, child, parent) || IsParent(b, child, parent)
  {
    if IsParent(a, child, parent) {
      var i :| 0 <= i < |a| && a[i].uid == child && parent in a[i].parents;
      assert (a + b)[i] == a[i];
    }
    if IsParent(b, child, parent) {
      var i :| 0 <= i < |b| && b[i].uid == child && parent in b[i].parents;
      assert (a + b)[|a| + i] == b[i];
    }
    if IsParent(a + b, child, parent) {
      var i :| 0 <= i < |a + b| && (a + b)[i].uid == child && parent in (a + b)[i].parents;
      if i < |a| {
        assert a[i].uid == child;
      } else {
        assert b[i - |a|].uid == child;
      }
    }
  }

  ghost predicate ChainEdge(bases: seq<string>, child: Uid, parent: Uid) {
    exists base, level :: base in bases && child == Access(base, level) && parent in Lower(base, level)
  }

  lemma OneChain(base: string, child: Uid, parent: Uid)
    ensures IsParent(Chain(base), child, parent) <==> exists level :: child == Access(base, level) && parent in Lower(base, level)
  {
    if level :| child == Access(base, level) && parent in Lower(base, level) {
      assert Chain(base)[Rank(level)].uid == child;
    }
  }

  lemma {:induction false} ChainsEdges(bases: seq<string>, child: Uid, parent: Uid)
    ensures IsParent(Chains(bases), child, parent) <==> ChainEdge(bases, child, parent)
  {
    if bases != [] {
      var less, base := bases[..|bases| - 1], bases[|bases| - 1];
      ChainsEdges(less, child, parent);
      OneChain(base, child, parent);
      ParentInEither(Chains(less), Chain(base), child, parent);
      assert forall b :: b in bases <==> b in less || b == base;
    }
  }

  lemma {:induction false} GrantNodes(c: Call, grants: seq<Grant>, node: Uid)
    ensures node in HeldByGrant(c, grants) <==>
              exists i :: 0 <= i < |grants| && GrantReaches(grants[i], c.principal, c.scopes) && node == Access(GrantBase(c.apiMethod), grants[i].level)
  {
    if grants != [] {
      GrantNodes(c, grants[..|grants| - 1], node);
    }
  }

  lemma HeldNodes(c: Call, node: Uid)
    ensures node in Held(c) <==> exists base, level :: HoldsLevel(c, base, level) && node == Access(base, level)
  {
    GrantNodes(c, c.resource.grants, node);
    if node in HeldByScope(c.scopes) {
      var i :| 0 <= i < |c.scopes| && HeldByScope(c.scopes)[i] == node;
      assert HoldsLevel(c, ScopeBase(c.scopes[i].scope, c.scopes[i].scopeId), c.scopes[i].level);
    }
    if node in HeldByGrant(c, c.resource.grants) {
      var i :| 0 <= i < |c.resource.grants| && GrantReaches(c.resource.grants[i], c.principal, c.scopes) && node == Access(GrantBase(c.apiMethod), c.resource.grants[i].level);
      assert HoldsLevel(c, GrantBase(c.apiMethod), c.resource.grants[i].level);
    }
    if base, level :| HoldsLevel(c, base, level) && node == Access(base, level) {
      if i :| 0 <= i < |c.scopes| && ScopeBase(c.scopes[i].scope, c.scopes[i].scopeId) == base && c.scopes[i].level == level {
        assert HeldByScope(c.scopes)[i] == node;
      }
    }
  }

  /** Every edge of the graph that starts at the caller or at an access node. */
  lemma GraphEdges(methods: seq<string>, creates: set<string>, c: Call, bases: seq<string>, child: Uid, parent: Uid)
    requires child.kind != ActionType
    ensures IsParent(Graph(methods, creates, c, bases), child, parent) <==>
              ChainEdge(bases, child, parent) || (child == PrincipalUid(c.principal) && parent in Held(c))
  {
    var tail := [Entity(PrincipalUid(c.principal), map[], Held(c)), Entity(ResourceUid(c), ResourceAttrs(c), [])];
    ParentInEither(ApiActions(methods, creates), Rendered(c, bases), child, parent);
    ParentInEither(Chains(bases), tail, child, parent);
    ChainsEdges(bases, child, parent);
    if child == PrincipalUid(c.principal) && parent in Held(c) {
      assert tail[0].uid == child;
    }
  }

  // ---- where the caller reaches ----

  /** The caller itself, or a node at or below a level it holds. */
  ghost predicate Below(c: Call, node: Uid) {
    || node == PrincipalUid(c.principal)
    || exists base, held, level :: HoldsLevel(c, base, held) && Rank(level) <= Rank(held) && node == Access(base, level)
  }

  lemma EdgeStaysBelow(methods: seq<string>, creates: set<string>, c: Call, bases: seq<string>, child: Uid, parent: Uid)
    requires Below(c, child) && IsParent(Graph(methods, creates, c, bases), child, parent)
    ensures Below(c, parent)
  {
    GraphEdges(methods, creates, c, bases, child, parent);
    if child == PrincipalUid(c.principal) {
      HeldNodes(c, parent);
      var base, level :| HoldsLevel(c, base, level) && parent == Access(base, level);
      NodeIsBelow(c, base, level, level);
    } else {
      ChainStaysBelow(c, bases, child, parent);
    }
  }

  lemma ChainStaysBelow(c: Call, bases: seq<string>, child: Uid, parent: Uid)
    requires Below(c, child) && child != PrincipalUid(c.principal) && ChainEdge(bases, child, parent)
    ensures Below(c, parent)
  {
    var base, held, level :| HoldsLevel(c, base, held) && Rank(level) <= Rank(held) && child == Access(base, level);
    var other, at :| other in bases && child == Access(other, at) && parent in Lower(other, at);
    AccessIsInjective(base, level, other, at);
    var under := LowerIsUnder(base, level, parent);
    NodeIsBelow(c, base, held, under);
  }

  lemma LowerIsUnder(base: string, level: Level, parent: Uid) returns (under: Level)
    requires parent in Lower(base, level)
    ensures Rank(under) + 1 == Rank(level) && parent == Access(base, under)
  {
    under := if level == Manage then Use else Read;
  }

  lemma NodeIsBelow(c: Call, base: string, held: Level, level: Level)
    requires HoldsLevel(c, base, held) && Rank(level) <= Rank(held)
    ensures Below(c, Access(base, level))
  {
  }

  lemma {:induction false} PathStaysBelow(methods: seq<string>, creates: set<string>, c: Call, bases: seq<string>, path: seq<Uid>, n: nat)
    requires IsPath(Graph(methods, creates, c, bases), path) && path[0] == PrincipalUid(c.principal) && n < |path|
    ensures Below(c, path[n])
  {
    if n > 0 {
      PathStaysBelow(methods, creates, c, bases, path, n - 1);
      EdgeStaysBelow(methods, creates, c, bases, path[n - 1], path[n]);
    }
  }

  lemma EdgeDown(methods: seq<string>, creates: set<string>, c: Call, bases: seq<string>, base: string, level: Level)
    requires base in bases && Rank(level) > 0
    ensures IsParent(Graph(methods, creates, c, bases), Access(base, level), Access(base, LEVELS_ASCENDING[Rank(level) - 1]))
  {
    var under := Access(base, LEVELS_ASCENDING[Rank(level) - 1]);
    assert under in Lower(base, level);
    assert ChainEdge(bases, Access(base, level), under);
    GraphEdges(methods, creates, c, bases, Access(base, level), under);
  }

  lemma HeldBaseIsRendered(c: Call, bases: seq<string>, base: string, level: Level)
    requires IsBases(bases, c) && HoldsLevel(c, base, level)
    ensures base in bases
  {
    assert base in Bases(c);
  }

  lemma {:induction false} PathDown(methods: seq<string>, creates: set<string>, c: Call, bases: seq<string>, base: string, held: Level, level: Level)
    returns (path: seq<Uid>)
    requires IsBases(bases, c) && HoldsLevel(c, base, held) && Rank(level) <= Rank(held)
    ensures IsPath(Graph(methods, creates, c, bases), path)
    ensures path[0] == PrincipalUid(c.principal) && path[|path| - 1] == Access(base, level)
    decreases Rank(held) - Rank(level)
  {
    var g := Graph(methods, creates, c, bases);
    if level == held {
      HeldNodes(c, Access(base, level));
      GraphEdges(methods, creates, c, bases, PrincipalUid(c.principal), Access(base, level));
      path := [PrincipalUid(c.principal), Access(base, level)];
    } else {
      var above := LEVELS_ASCENDING[Rank(level) + 1];
      HeldBaseIsRendered(c, bases, base, held);
      var upper := PathDown(methods, creates, c, bases, base, held, above);
      EdgeDown(methods, creates, c, bases, base, above);
      path := upper + [Access(base, level)];
    }
  }

  lemma InIsBelow(methods: seq<string>, creates: set<string>, c: Call, bases: seq<string>, base: string, level: Level)
    requires In(Graph(methods, creates, c, bases), PrincipalUid(c.principal), Access(base, level))
    ensures Below(c, Access(base, level))
  {
    var path := WalkOf(Graph(methods, creates, c, bases), PrincipalUid(c.principal), Access(base, level));
    PathStaysBelow(methods, creates, c, bases, path, |path| - 1);
  }

  lemma BelowIsHeld(c: Call, base: string, level: Level)
    requires Below(c, Access(base, level))
    ensures exists held :: HoldsLevel(c, base, held) && Rank(level) <= Rank(held)
  {
    var other, held, at :| HoldsLevel(c, other, held) && Rank(at) <= Rank(held) && Access(base, level) == Access(other, at);
    AccessIsInjective(base, level, other, at);
  }

  /** The caller is in a node exactly when it holds that node's base at its level or above. */
  lemma CallerIsIn(methods: seq<string>, creates: set<string>, c: Call, bases: seq<string>, base: string, level: Level)
    requires IsBases(bases, c)
    ensures In(Graph(methods, creates, c, bases), PrincipalUid(c.principal), Access(base, level)) <==>
              exists held :: HoldsLevel(c, base, held) && Rank(level) <= Rank(held)
  {
    if In(Graph(methods, creates, c, bases), PrincipalUid(c.principal), Access(base, level)) {
      InIsBelow(methods, creates, c, bases, base, level);
      BelowIsHeld(c, base, level);
    } else if held :| HoldsLevel(c, base, held) && Rank(level) <= Rank(held) {
      var path := PathDown(methods, creates, c, bases, base, held, level);
    }
  }

  /** No caller is in the resource: the sentinel matches nobody. */
  lemma CallerIsNotInResource(methods: seq<string>, creates: set<string>, c: Call, bases: seq<string>)
    ensures !In(Graph(methods, creates, c, bases), PrincipalUid(c.principal), ResourceUid(c))
  {
    var g := Graph(methods, creates, c, bases);
    if In(g, PrincipalUid(c.principal), ResourceUid(c)) {
      var path := WalkOf(g, PrincipalUid(c.principal), ResourceUid(c));
      PathStaysBelow(methods, creates, c, bases, path, |path| - 1);
      assert false;
    }
  }

  // ---- the action's groups ----

  lemma ActionEdges(methods: seq<string>, creates: set<string>, c: Call, bases: seq<string>, m: string, parent: Uid)
    requires m in methods && Governs(methods)
    ensures IsParent(Graph(methods, creates, c, bases), ActionUid(m), parent) <==> parent == if m in creates then CREATE_GROUP else API_GROUP
    ensures IsParent(Graph(methods, creates, c, bases), CREATE_GROUP, parent) <==> parent == API_GROUP
    ensures !IsParent(Graph(methods, creates, c, bases), API_GROUP, parent)
  {
    var actions := ApiActions(methods, creates);
    NoActionRendered(c, bases, ActionUid(m), parent);
    NoActionRendered(c, bases, CREATE_GROUP, parent);
    NoActionRendered(c, bases, API_GROUP, parent);
    ParentInEither(actions, Rendered(c, bases), ActionUid(m), parent);
    ParentInEither(actions, Rendered(c, bases), CREATE_GROUP, parent);
    ParentInEither(actions, Rendered(c, bases), API_GROUP, parent);
    assert actions[1].uid == CREATE_GROUP;
    var k :| 0 <= k < |methods| && methods[k] == m;
    assert actions[k + 2].uid == ActionUid(m);
    forall i | 0 <= i < |methods|
      ensures methods[i] != "api" && methods[i] != "creates"
    {
      assert methods[i] in methods;
    }
  }

  lemma NoActionRendered(c: Call, bases: seq<string>, child: Uid, parent: Uid)
    requires child.kind == ActionType
    ensures !IsParent(Rendered(c, bases), child, parent)
  {
    var tail := [Entity(PrincipalUid(c.principal), map[], Held(c)), Entity(ResourceUid(c), ResourceAttrs(c), [])];
    ParentInEither(Chains(bases), tail, child, parent);
    ChainsEdges(bases, child, parent);
  }

  lemma {:induction false} StaysInApi(g: seq<Entity>, m: string, path: seq<Uid>, n: nat)
    requires forall parent :: IsParent(g, ActionUid(m), parent) ==> parent == API_GROUP
    requires forall parent :: !IsParent(g, API_GROUP, parent)
    requires IsPath(g, path) && path[0] == ActionUid(m) && n < |path|
    ensures path[n] == ActionUid(m) || path[n] == API_GROUP
  {
    if n > 0 {
      StaysInApi(g, m, path, n - 1);
      assert IsParent(g, path[n - 1], path[n]);
    }
  }

  lemma NeverInCreates(g: seq<Entity>, m: string)
    requires forall parent :: IsParent(g, ActionUid(m), parent) ==> parent == API_GROUP
    requires forall parent :: !IsParent(g, API_GROUP, parent)
    requires m != "creates"
    ensures !In(g, ActionUid(m), CREATE_GROUP)
  {
    if In(g, ActionUid(m), CREATE_GROUP) {
      var path := WalkOf(g, ActionUid(m), CREATE_GROUP);
      StaysInApi(g, m, path, |path| - 1);
      assert false;
    }
  }

  lemma ActionIsIn(methods: seq<string>, creates: set<string>, c: Call, bases: seq<string>)
    requires c.apiMethod in methods && Governs(methods)
    ensures In(Graph(methods, creates, c, bases), ActionUid(c.apiMethod), API_GROUP)
    ensures In(Graph(methods, creates, c, bases), ActionUid(c.apiMethod), CREATE_GROUP) <==> c.apiMethod in creates
  {
    var g, m := Graph(methods, creates, c, bases), c.apiMethod;
    forall parent
      ensures IsParent(g, ActionUid(m), parent) <==> parent == if m in creates then CREATE_GROUP else API_GROUP
      ensures IsParent(g, CREATE_GROUP, parent) <==> parent == API_GROUP
      ensures !IsParent(g, API_GROUP, parent)
    {
      ActionEdges(methods, creates, c, bases, m, parent);
    }
    if m in creates {
      assert IsPath(g, [ActionUid(m), CREATE_GROUP]);
      assert IsPath(g, [ActionUid(m), CREATE_GROUP, API_GROUP]);
    } else {
      assert IsPath(g, [ActionUid(m), API_GROUP]);
      NeverInCreates(g, m);
    }
  }

  // ---- the resource's attributes ----

  lemma {:induction false} ChainsHaveNoResource(bases: seq<string>)
    ensures forall i :: 0 <= i < |Chains(bases)| ==> Chains(bases)[i].uid.kind == AccessType
  {
    if bases != [] {
      ChainsHaveNoResource(bases[..|bases| - 1]);
    }
  }

  lemma ResourceHas(methods: seq<string>, creates: set<string>, c: Call, bases: seq<string>, attr: string, value: Uid)
    ensures HasAttr(Graph(methods, creates, c, bases), ResourceUid(c), attr, value) <==> attr in ResourceAttrs(c) && ResourceAttrs(c)[attr] == value
  {
    var g := Graph(methods, creates, c, bases);
    ChainsHaveNoResource(bases);
    assert g[|g| - 1] == Entity(ResourceUid(c), ResourceAttrs(c), []);
    forall i | 0 <= i < |g| - 1
      ensures g[i].uid != ResourceUid(c)
    {
      var n := |ApiActions(methods, creates)|;
      if n <= i < n + |Chains(bases)| {
        assert g[i] == Chains(bases)[i - n];
      }
    }
  }

  // ---- main results ----

  lemma ScopeRoute(methods: seq<string>, creates: set<string>, c: Call, bases: seq<string>)
    requires IsBases(bases, c) && c.apiMethod in methods && Governs(methods)
    ensures ScopePermits(Graph(methods, creates, c, bases), RequestOf(c)) <==> HoldsBoundary(c)
  {
    var g := Graph(methods, creates, c, bases);
    ActionIsIn(methods, creates, c, bases);
    ResourceHas(methods, creates, c, bases, "requiredScopeAccess", RequiredScopeAccess(c));
    CallerIsNotInResource(methods, creates, c, bases);
    if Bounded(c.resource) {
      var base := ScopeBase(c.resource.boundary.value, c.resource.boundaryId.value);
      CallerIsIn(methods, creates, c, bases, base, c.level);
      HeldScope(c, base);
    }
    if node :| HasAttr(g, ResourceUid(c), "requiredScopeAccess", node) && In(g, PrincipalUid(c.principal), node) {
      ResourceHas(methods, creates, c, bases, "requiredScopeAccess", node);
    }
  }

  lemma HeldScope(c: Call, base: string)
    requires Bounded(c.resource) && base == ScopeBase(c.resource.boundary.value, c.resource.boundaryId.value)
    ensures (exists held :: HoldsLevel(c, base, held) && Rank(c.level) <= Rank(held)) <==> HoldsBoundary(c)
  {
    assert base[0] == 's' && GrantBase(c.apiMethod)[0] == 'g';
    forall i | 0 <= i < |c.scopes|
      ensures ScopeBase(c.scopes[i].scope, c.scopes[i].scopeId) == base <==>
                c.scopes[i].scope + ":" + c.scopes[i].scopeId == c.resource.boundary.value + ":" + c.resource.boundaryId.value
    {
      assert ScopeBase(c.scopes[i].scope, c.scopes[i].scopeId) == "scope:" + (c.scopes[i].scope + ":" + c.scopes[i].scopeId);
      assert base == "scope:" + (c.resource.boundary.value + ":" + c.resource.boundaryId.value);
      assert base[6..] == c.resource.boundary.value + ":" + c.resource.boundaryId.value;
      assert ScopeBase(c.scopes[i].scope, c.scopes[i].scopeId)[6..] == c.scopes[i].scope + ":" + c.scopes[i].scopeId;
    }
    if HoldsBoundary(c) {
      var i :| 0 <= i < |c.scopes| && ScopeBase(c.scopes[i].scope, c.scopes[i].scopeId) == base && Rank(c.scopes[i].level) >= Rank(c.level);
      assert HoldsLevel(c, base, c.scopes[i].level);
    }
  }

  lemma GrantRoute(methods: seq<string>, creates: set<string>, c: Call, bases: seq<string>)
    requires IsBases(bases, c) && c.apiMethod in methods && Governs(methods)
    ensures GrantPermits(Graph(methods, creates, c, bases), RequestOf(c)) <==> IsGranted(c)
  {
    var g, base := Graph(methods, creates, c, bases), GrantBase(c.apiMethod);
    ActionIsIn(methods, creates, c, bases);
    ResourceHas(methods, creates, c, bases, "requiredGrantAccess", Access(base, c.level));
    CallerIsIn(methods, creates, c, bases, base, c.level);
    HeldGrant(c);
    if node :| HasAttr(g, ResourceUid(c), "requiredGrantAccess", node) && In(g, PrincipalUid(c.principal), node) {
      ResourceHas(methods, creates, c, bases, "requiredGrantAccess", node);
    }
  }

  lemma HeldGrant(c: Call)
    ensures (exists held :: HoldsLevel(c, GrantBase(c.apiMethod), held) && Rank(c.level) <= Rank(held)) <==> IsGranted(c)
  {
    forall i | 0 <= i < |c.scopes|
      ensures ScopeBase(c.scopes[i].scope, c.scopes[i].scopeId) != GrantBase(c.apiMethod)
    {
      assert ScopeBase(c.scopes[i].scope, c.scopes[i].scopeId)[0] == 's' && GrantBase(c.apiMethod)[0] == 'g';
    }
    if IsGranted(c) {
      var i :| 0 <= i < |c.resource.grants| && GrantReaches(c.resource.grants[i], c.principal, c.scopes) && Rank(c.resource.grants[i].level) >= Rank(c.level);
      assert HoldsLevel(c, GrantBase(c.apiMethod), c.resource.grants[i].level);
    }
  }

  lemma OwnerRoute(methods: seq<string>, creates: set<string>, c: Call, bases: seq<string>)
    requires c.apiMethod in methods && Governs(methods) && !Blank(c.principal)
    ensures OwnerPermits(Graph(methods, creates, c, bases), RequestOf(c)) <==> Owns(c)
  {
    ActionIsIn(methods, creates, c, bases);
    ResourceHas(methods, creates, c, bases, "createdBy", PrincipalUid(c.principal));
  }

  /** THE GRAPH SAYS THE PLAIN RULE. For every caller, scope, grant, level and method, the baseline over
      the rendered entities allows a call exactly when its caller owns the resource, holds its boundary
      at the required level or above, is reached by a grant at that level or above, or creates. */
  lemma GraphIsPlainRule(methods: seq<string>, creates: set<string>, c: Call, bases: seq<string>)
    requires IsBases(bases, c) && c.apiMethod in methods && Governs(methods) && !Blank(c.principal)
    ensures BaselineAllows(Graph(methods, creates, c, bases), RequestOf(c)) <==> PlainRule(creates, c)
  {
    OwnerRoute(methods, creates, c, bases);
    ScopeRoute(methods, creates, c, bases);
    GrantRoute(methods, creates, c, bases);
    ActionIsIn(methods, creates, c, bases);
  }

  // ---- the same by name ----

  /** Managing covers everything, using covers reading. */
  predicate Covers(held: Level, required: Level) {
    held == Manage || required == Read || (held == Use && required == Use)
  }

  predicate NamesBoundary(s: Scope, text: string) {
    s.scope + ":" + s.scopeId == text
  }

  /** A grant is to everybody, to a caller, or to whoever holds a boundary. */
  predicate GrantNames(g: Grant, c: Call) {
    g.principalRef == "public" || g.principalRef == c.principal || exists s :: s in c.scopes && NamesBoundary(s, g.principalRef)
  }

  /** WHO IS LET THROUGH, BY NAME. Its owner; who holds its boundary, or is reached by a grant on it, at a level that covers
      the one required; and anybody at all for a method that creates. */
  lemma RuleByName(creates: set<string>, c: Call)
    ensures PlainRule(creates, c) <==>
              || c.resource.createdBy == Some(c.principal)
              || (c.resource.boundary.Some? && c.resource.boundaryId.Some? &&
                  exists s :: s in c.scopes && NamesBoundary(s, c.resource.boundary.value + ":" + c.resource.boundaryId.value) && Covers(s.level, c.level))
              || (exists g :: g in c.resource.grants && GrantNames(g, c) && Covers(g.level, c.level))
              || c.apiMethod in creates
  {
    LevelsByName();
    if Bounded(c.resource) {
      BoundaryByName(c);
    }
    GrantsByName(c);
  }

  lemma LevelsByName()
    ensures forall held: Level, required: Level :: Rank(held) >= Rank(required) <==> Covers(held, required)
  {
  }

  lemma BoundaryByName(c: Call)
    requires Bounded(c.resource)
    ensures HoldsBoundary(c) <==>
              exists s :: s in c.scopes && NamesBoundary(s, c.resource.boundary.value + ":" + c.resource.boundaryId.value) && Covers(s.level, c.level)
  {
    LevelsByName();
    if s :| s in c.scopes && NamesBoundary(s, c.resource.boundary.value + ":" + c.resource.boundaryId.value) && Covers(s.level, c.level) {
      var i :| 0 <= i < |c.scopes| && c.scopes[i] == s;
    }
  }

  lemma GrantsByName(c: Call)
    ensures IsGranted(c) <==> exists g :: g in c.resource.grants && GrantNames(g, c) && Covers(g.level, c.level)
  {
    LevelsByName();
    forall g | g in c.resource.grants
      ensures GrantReaches(g, c.principal, c.scopes) <==> GrantNames(g, c)
    {
      if s :| s in c.scopes && NamesBoundary(s, g.principalRef) {
        var i :| 0 <= i < |c.scopes| && c.scopes[i] == s;
      }
      if i :| 0 <= i < |c.scopes| && c.scopes[i].scope + ":" + c.scopes[i].scopeId == g.principalRef {
        assert c.scopes[i] in c.scopes && NamesBoundary(c.scopes[i], g.principalRef);
      }
    }
    if g :| g in c.resource.grants && GrantNames(g, c) && Covers(g.level, c.level) {
      var i :| 0 <= i < |c.resource.grants| && c.resource.grants[i] == g;
    }
  }

  /** The decision: the principal floor, then Cedar over the rendered graph. */
  method DecideApiCall(cedar: (seq<Entity>, Request) -> bool, methods: seq<string>, creates: set<string>,
      apiMethod: string, level: Level, principal: Option<string>, resource: Resource, scopes: seq<Scope>) returns (permitted: bool)
    requires forall entities, r :: cedar(entities, r) <==> BaselineAllows(entities, r)
    requires apiMethod in methods && Governs(methods)
    ensures permitted <==>
              principal.Some? && !Blank(principal.value) && PlainRule(creates, Call(apiMethod, level, principal.value, resource, scopes))
  {
    if principal == None || Blank(principal.value) {
      return false;
    }
    var c := Call(apiMethod, level, principal.value, resource, scopes);
    var entities := BuildApiEntities(c);
    ghost var bases :| IsBases(bases, c) && entities == Rendered(c, bases);
    permitted := cedar(ApiActions(methods, creates) + entities, RequestOf(c));
    GraphIsPlainRule(methods, creates, c, bases);
  }

  /** A caller allowed at a level is allowed at every lower one. */
  lemma LowerLevelIsAllowed(methods: seq<string>, creates: set<string>, c: Call, bases: seq<string>, level: Level)
    requires IsBases(bases, c) && c.apiMethod in methods && Governs(methods) && !Blank(c.principal)
    requires Rank(level) <= Rank(c.level) && BaselineAllows(Graph(methods, creates, c, bases), RequestOf(c))
    ensures var lower := c.(level := level);
            IsBases(bases, lower) && BaselineAllows(Graph(methods, creates, lower, bases), RequestOf(lower))
  {
    var lower := c.(level := level);
    GraphIsPlainRule(methods, creates, c, bases);
    PlainRuleGoesDown(creates, c, level);
    LevelKeepsBases(c, bases, level);
    GraphIsPlainRule(methods, creates, lower, bases);
  }

  lemma PlainRuleGoesDown(creates: set<string>, c: Call, level: Level)
    requires PlainRule(creates, c) && Rank(level) <= Rank(c.level)
    ensures PlainRule(creates, c.(level := level))
  {
    var lower := c.(level := level);
    if HoldsBoundary(c) {
      var i :| 0 <= i < |c.scopes|
        && c.scopes[i].scope + ":" + c.scopes[i].scopeId == c.resource.boundary.value + ":" + c.resource.boundaryId.value
        && Rank(c.scopes[i].level) >= Rank(c.level);
      assert lower.scopes[i] == c.scopes[i];
    } else if IsGranted(c) {
      var i :| 0 <= i < |c.resource.grants|
        && GrantReaches(c.resource.grants[i], c.principal, c.scopes) && Rank(c.resource.grants[i].level) >= Rank(c.level);
      assert lower.resource.grants[i] == c.resource.grants[i];
    }
  }

  lemma LevelKeepsBases(c: Call, bases: seq<string>, level: Level)
    requires IsBases(bases, c)
    ensures IsBases(bases, c.(level := level))
  {
    assert Bases(c.(level := level)) == Bases(c);
  }

  /** A BOUNDARY IS ITS JOINED TEXT. Two boundaries whose labels hold no colon are one exactly when label
      and id agree; with a colon in a label, a caller of one boundary holds another. */
  lemma BoundariesAreApart(c: Call, s: Scope)
    requires Bounded(c.resource) && c.scopes == [s]
    requires ':' !in s.scope && ':' !in c.resource.boundary.value
    ensures HoldsBoundary(c) <==>
              s.scope == c.resource.boundary.value && s.scopeId == c.resource.boundaryId.value && Rank(s.level) >= Rank(c.level)
  {
    SplitsAtFirst(s.scope, s.scopeId, c.resource.boundary.value, c.resource.boundaryId.value, ':');
    assert s.scope + ":" + s.scopeId == s.scope + [':'] + s.scopeId;
    assert c.resource.boundary.value + ":" + c.resource.boundaryId.value == c.resource.boundary.value + [':'] + c.resource.boundaryId.value;
    assert c.scopes[0] == s;
  }

  lemma ColonJoinsBoundaries() returns (c: Call, s: Scope)
    ensures Bounded(c.resource) && c.scopes == [s] && s.scope != c.resource.boundary.value
    ensures HoldsBoundary(c)
  {
    s := Scope("a", "b:c", Read);
    c := Call("getClaw", Read, "user:x", Resource(None, Some("a:b"), Some("c"), []), [s]);
    assert c.scopes[0].scope + ":" + c.scopes[0].scopeId == "a:b:c";
  }
}
