/** The per-organization policy router: a bounded cache of bundle builds, keyed by content, most recent
    last; decisions, builds and their failures interleave at every wait. */
module PolicyRouter {
  import opened Options
  import opened BundleKey

  type World = nat
  type BuildId = nat
  type DecisionId = nat
  type Engine = nat

  /** What the host supplies, at each state of the world its keys and bundles read. */
  datatype Config = Config(keyFor: (Boundary, World) -> string, engineFor: (Boundary, World) -> Engine, maxBundles: int)

  datatype Entry = Entry(key: string, build: BuildId)

  // ---- the cache ----

  function Find(cache: seq<Entry>, key: string): (found: Option<BuildId>)
    ensures found == None <==> forall i :: 0 <= i < |cache| ==> cache[i].key != key
    ensures found.Some? ==> Entry(key, found.value) in cache
  {
    if cache == [] then None
    else if cache[|cache| - 1].key == key then Some(cache[|cache| - 1].build)
    else Find(cache[..|cache| - 1], key)
  }

  function Without(cache: seq<Entry>, key: string): (rest: seq<Entry>)
    ensures |rest| <= |cache|
    ensures forall e :: e in rest <==> e in cache && e.key != key
  {
    if cache == [] then []
    else
      var less, last := Without(cache[..|cache| - 1], key), cache[|cache| - 1];
      assert cache == cache[..|cache| - 1] + [last];
      if last.key == key then less else less + [last]
  }

  function Capacity(maxBundles: int): nat {
    if maxBundles < 0 then 0 else maxBundles
  }

  function Trim(cache: seq<Entry>, maxBundles: int): (kept: seq<Entry>)
    ensures |kept| <= Capacity(maxBundles)
  {
    if |cache| <= Capacity(maxBundles) then cache else cache[|cache| - Capacity(maxBundles)..]
  }

  datatype Looked = Looked(cache: seq<Entry>, build: BuildId, started: bool)

  /** A hit moves its entry to the newest place; a miss starts a build there and lets the oldest go. */
  function LookUp(cache: seq<Entry>, key: string, next: BuildId, maxBundles: int): Looked {
    match Find(cache, key)
    case Some(build) => Looked(Without(cache, key) + [Entry(key, build)], build, false)
    case None => Looked(Trim(cache + [Entry(key, next)], maxBundles), next, true)
  }

  /** A failed build leaves the cache, if it is still the one there under its key. */
  function Evict(cache: seq<Entry>, key: string, build: BuildId): seq<Entry> {
    if Find(cache, key) == Some(build) then Without(cache, key) else cache
  }

  class Router {
    const maxBundles: int
    var cache: seq<Entry>

    constructor (maxBundles: int)
      ensures this.maxBundles == maxBundles && cache == []
    {
      this.maxBundles, cache := maxBundles, [];
    }

    method Get(key: string) returns (build: Option<BuildId>)
      ensures build == Find(cache, key)
    {
      var i := |cache|;
      assert cache[..i] == cache;
      while i > 0
        invariant 0 <= i <= |cache|
        invariant Find(cache, key) == Find(cache[..i], key)
      {
        assert cache[..i][..i - 1] == cache[..i - 1];
        if cache[i - 1].key == key {
          return Some(cache[i - 1].build);
        }
        i := i - 1;
      }
      build := None;
    }

    method Delete(key: string)
      modifies this
      ensures cache == Without(old(cache), key)
    {
      ghost var before := cache;
      var rest, i := [], 0;
      while i < |cache|
        invariant 0 <= i <= |cache| && cache == before
        invariant rest == Without(cache[..i], key)
      {
        assert cache[..i + 1][..i] == cache[..i];
        if cache[i].key != key {
          rest := rest + [cache[i]];
        }
        i := i + 1;
      }
      assert cache[..i] == cache;
      cache := rest;
    }

    /** The synchronous part of a decision, between reading its key and waiting for its build. */
    method Route(key: string, next: BuildId) returns (build: BuildId, started: bool)
      modifies this
      ensures Looked(cache, build, started) == LookUp(old(cache), key, next, maxBundles)
    {
      var cached := Get(key);
      if cached.Some? {
        Delete(key);
        cache := cache + [Entry(key, cached.value)];
        return cached.value, false;
      }
      cache := cache + [Entry(key, next)];
      LetOldestGo();
      build, started := next, true;
    }

    method LetOldestGo()
      modifies this
      ensures cache == Trim(old(cache), maxBundles)
    {
      ghost var k := 0;
      while |cache| > maxBundles
        invariant 0 <= k <= |old(cache)| && cache == old(cache)[k..]
        invariant k == 0 || |cache| >= Capacity(maxBundles)
        decreases |cache|
      {
        if |cache| == 0 {
          break;
        }
        cache := cache[1..];
        k := k + 1;
      }
    }

    method OnFailure(key: string, build: BuildId)
      modifies this
      ensures cache == Evict(old(cache), key, build)
    {
      var cached := Get(key);
      if cached == Some(build) {
        Delete(key);
      }
    }
  }

  // ---- decisions, builds and their failures, interleaved ----

  datatype Outcome = Pending | Built(engine: Engine, at: World) | Rejected

  /** `read` is the world in which the decision that started the build read its key. */
  datatype Build = Build(key: string, boundary: Boundary, read: World, outcome: Outcome, swept: bool)

  datatype Decision =
    | Keyed(boundary: Boundary, key: string, read: World)
    | Waiting(boundary: Boundary, key: string, read: World, build: BuildId)
    | Answered(boundary: Boundary, key: string, read: World, build: BuildId, engine: Engine)
    | Errored

  /** `touched` is observed: the keys looked up, in order. */
  datatype State = State(world: World, cache: seq<Entry>, builds: seq<Build>, decisions: map<DecisionId, Decision>, touched: seq<string>)

  datatype Action =
    | Change
    | Ask(d: DecisionId, scope: Option<string>, scopeId: Option<string>)
    | Look(d: DecisionId)
    | Finish(build: BuildId, ok: bool)
    | Sweep(build: BuildId)
    | Answer(d: DecisionId)

  const UNSCOPED: Boundary := Boundary("busyclaw:unscoped", "-")

  /** Both halves name a boundary; half a name names none. */
  function BoundaryOf(scope: Option<string>, scopeId: Option<string>): Boundary {
    if scope.Some? && scopeId.Some? then Boundary(scope.value, scopeId.value) else UNSCOPED
  }

  predicate Is(s: State, d: DecisionId, keyed: bool) {
    d in s.decisions && if keyed then s.decisions[d].Keyed? else s.decisions[d].Waiting?
  }

  function Step(c: Config, s: State, a: Action): State {
    match a
    case Change => s.(world := s.world + 1)
    case Ask(d, scope, scopeId) =>
      var b := BoundaryOf(scope, scopeId);
      if d in s.decisions then s else s.(decisions := s.decisions[d := Keyed(b, c.keyFor(b, s.world), s.world)])
    case Look(d) =>
      if !Is(s, d, true) then s
      else
        var q := s.decisions[d];
        var looked := LookUp(s.cache, q.key, |s.builds|, c.maxBundles);
        s.(cache := looked.cache,
           builds := if looked.started then s.builds + [Build(q.key, q.boundary, q.read, Pending, false)] else s.builds,
           decisions := s.decisions[d := Waiting(q.boundary, q.key, q.read, looked.build)],
           touched := s.touched + [q.key])
    case Finish(b, ok) =>
      if b >= |s.builds| || s.builds[b].outcome != Pending then s
      else
        var outcome := if ok then Built(c.engineFor(s.builds[b].boundary, s.world), s.world) else Rejected;
        s.(builds := s.builds[b := s.builds[b].(outcome := outcome)])
    case Sweep(b) =>
      if b >= |s.builds| || s.builds[b].outcome != Rejected || s.builds[b].swept then s
      else s.(cache := Evict(s.cache, s.builds[b].key, b), builds := s.builds[b := s.builds[b].(swept := true)])
    case Answer(d) =>
      if !Is(s, d, false) || s.decisions[d].build >= |s.builds| then s
      else
        var q := s.decisions[d];
        match s.builds[q.build].outcome
        case Pending => s
        case Built(engine, _) => s.(decisions := s.decisions[d := Answered(q.boundary, q.key, q.read, q.build, engine)])
        case Rejected => s.(decisions := s.decisions[d := Errored])
  }

  const INITIAL: State := State(0, [], [], map[], [])

  function After(c: Config, history: seq<Action>): State {
    if history == [] then INITIAL else Step(c, After(c, history[..|history| - 1]), history[|history| - 1])
  }

  // ---- the invariant ----

  predicate DistinctKeys(cache: seq<Entry>) {
    forall i, j :: 0 <= i < j < |cache| ==> cache[i].key != cache[j].key
  }

  /** When a key was last looked up; -1 for never. */
  function LastTouch(touched: seq<string>, key: string): (at: int)
    ensures -1 <= at < |touched|
    ensures at >= 0 ==> touched[at] == key
    ensures forall i :: at < i < |touched| ==> touched[i] != key
  {
    if touched == [] then -1
    else if touched[|touched| - 1] == key then |touched| - 1
    else LastTouch(touched[..|touched| - 1], key)
  }

  predicate ByRecency(cache: seq<Entry>, touched: seq<string>) {
    && (forall i :: 0 <= i < |cache| ==> LastTouch(touched, cache[i].key) >= 0)
    && (forall i, j :: 0 <= i < j < |cache| ==> LastTouch(touched, cache[i].key) < LastTouch(touched, cache[j].key))
  }

  predicate CacheOk(c: Config, s: State) {
    && DistinctKeys(s.cache)
    && |s.cache| <= Capacity(c.maxBundles)
    && ByRecency(s.cache, s.touched)
    && (forall e :: e in s.cache ==> e.build < |s.builds| && s.builds[e.build].key == e.key && !s.builds[e.build].swept)
  }

  predicate BuildsOk(c: Config, s: State) {
    forall i :: 0 <= i < |s.builds| ==>
      && s.builds[i].key == c.keyFor(s.builds[i].boundary, s.builds[i].read)
      && (s.builds[i].swept ==> s.builds[i].outcome == Rejected)
      && (s.builds[i].outcome.Built? ==> s.builds[i].outcome.engine == c.engineFor(s.builds[i].boundary, s.builds[i].outcome.at))
  }

  predicate DecisionOk(c: Config, s: State, q: Decision) {
    match q
    case Keyed(boundary, key, read) => key == c.keyFor(boundary, read)
    case Waiting(boundary, key, read, build) =>
      key == c.keyFor(boundary, read) && build < |s.builds| && s.builds[build].key == key
    case Answered(boundary, key, read, build, engine) =>
      && key == c.keyFor(boundary, read) && build < |s.builds| && s.builds[build].key == key
      && s.builds[build].outcome.Built? && s.builds[build].outcome.engine == engine
    case Errored => true
  }

  predicate Inv(c: Config, s: State) {
    && CacheOk(c, s)
    && BuildsOk(c, s)
    && (forall d :: d in s.decisions ==> DecisionOk(c, s, s.decisions[d]))
  }

  // ---- the cache keeps its order ----

  predicate Ordered(cache: seq<Entry>, touched: seq<string>) {
    DistinctKeys(cache) && ByRecency(cache, touched)
  }

  lemma NewerLast(cache: seq<Entry>, last: Entry, touched: seq<string>)
    requires Ordered(cache, touched) && LastTouch(touched, last.key) >= 0
    requires forall i :: 0 <= i < |cache| ==> LastTouch(touched, cache[i].key) < LastTouch(touched, last.key)
    ensures Ordered(cache + [last], touched)
  {
  }

  lemma {:induction false} WithoutKeepsOrder(cache: seq<Entry>, key: string, touched: seq<string>)
    requires Ordered(cache, touched)
    ensures Ordered(Without(cache, key), touched)
  {
    if cache != [] {
      var less, last := cache[..|cache| - 1], cache[|cache| - 1];
      WithoutKeepsOrder(less, key, touched);
      if last.key != key {
        var rest := Without(less, key);
        forall i | 0 <= i < |rest|
          ensures LastTouch(touched, rest[i].key) < LastTouch(touched, last.key)
        {
          assert rest[i] in less;
          var j :| 0 <= j < |less| && less[j] == rest[i];
          assert cache[j] == less[j];
        }
        NewerLast(rest, last, touched);
      }
    }
  }

  lemma TouchedNow(touched: seq<string>, key: string, other: string)
    ensures LastTouch(touched + [key], other) == if other == key then |touched| else LastTouch(touched, other)
  {
    assert (touched + [key])[..|touched|] == touched;
  }

  /** Entries of other keys, then one of the key just touched. */
  lemma NewestLast(cache: seq<Entry>, key: string, build: BuildId, touched: seq<string>)
    requires Ordered(cache, touched) && (forall e :: e in cache ==> e.key != key)
    ensures Ordered(cache + [Entry(key, build)], touched + [key])
  {
    var grown := cache + [Entry(key, build)];
    forall i | 0 <= i < |grown|
      ensures LastTouch(touched + [key], grown[i].key) == if i == |cache| then |touched| else LastTouch(touched, cache[i].key)
      ensures i < |cache| ==> grown[i].key != key
    {
      TouchedNow(touched, key, grown[i].key);
      if i < |cache| {
        assert grown[i] in cache;
      }
    }
  }

  lemma SuffixKeepsOrder(cache: seq<Entry>, k: nat, touched: seq<string>)
    requires Ordered(cache, touched) && k <= |cache|
    ensures Ordered(cache[k..], touched)
  {
  }

  lemma HitKeepsOrder(cache: seq<Entry>, key: string, build: BuildId, touched: seq<string>)
    requires Ordered(cache, touched)
    ensures Ordered(Without(cache, key) + [Entry(key, build)], touched + [key])
  {
    WithoutKeepsOrder(cache, key, touched);
    NewestLast(Without(cache, key), key, build, touched);
  }

  lemma MissKeepsOrder(cache: seq<Entry>, key: string, next: BuildId, maxBundles: int, touched: seq<string>)
    requires Ordered(cache, touched) && forall i :: 0 <= i < |cache| ==> cache[i].key != key
    ensures Ordered(Trim(cache + [Entry(key, next)], maxBundles), touched + [key])
  {
    NewestLast(cache, key, next, touched);
    TrimKeepsOrder(cache + [Entry(key, next)], maxBundles, touched + [key]);
  }

  lemma TrimKeepsOrder(cache: seq<Entry>, maxBundles: int, touched: seq<string>)
    requires Ordered(cache, touched)
    ensures Ordered(Trim(cache, maxBundles), touched)
  {
    var k := if |cache| > Capacity(maxBundles) then |cache| - Capacity(maxBundles) else 0;
    SuffixKeepsOrder(cache, k, touched);
    assert Trim(cache, maxBundles) == cache[k..];
  }

  lemma LookKeepsOrder(cache: seq<Entry>, key: string, next: BuildId, maxBundles: int, touched: seq<string>)
    requires Ordered(cache, touched)
    ensures Ordered(LookUp(cache, key, next, maxBundles).cache, touched + [key])
  {
    match Find(cache, key)
    case Some(build) => HitKeepsOrder(cache, key, build, touched);
    case None => MissKeepsOrder(cache, key, next, maxBundles, touched);
  }

  lemma {:induction false} WithoutOne(cache: seq<Entry>, key: string)
    requires DistinctKeys(cache)
    ensures |Without(cache, key)| == if Find(cache, key) == None then |cache| else |cache| - 1
  {
    if cache != [] {
      var n := |cache| - 1;
      WithoutOne(cache[..n], key);
      assert cache[n].key == key ==> Find(cache[..n], key) == None;
    }
  }

  lemma LookedEntries(cache: seq<Entry>, key: string, next: BuildId, maxBundles: int)
    requires DistinctKeys(cache) && |cache| <= Capacity(maxBundles)
    ensures var looked := LookUp(cache, key, next, maxBundles);
            && |looked.cache| <= Capacity(maxBundles)
            && (forall e :: e in looked.cache ==> e in cache || e == Entry(key, looked.build))
            && (looked.started ==> looked.build == next)
            && (!looked.started ==> Entry(key, looked.build) in cache)
  {
    WithoutOne(cache, key);
  }

  lemma LookKeepsInv(c: Config, s: State, d: DecisionId)
    requires Inv(c, s)
    ensures Inv(c, Step(c, s, Look(d)))
  {
    if Is(s, d, true) {
      var q, s' := s.decisions[d], Step(c, s, Look(d));
      assert DecisionOk(c, s, q);
      LookKeepsOrder(s.cache, q.key, |s.builds|, c.maxBundles, s.touched);
      LookedEntries(s.cache, q.key, |s.builds|, c.maxBundles);
      assert forall i :: 0 <= i < |s.builds| ==> s'.builds[i] == s.builds[i];
    }
  }

  lemma EvictKeepsRest(cache: seq<Entry>, key: string, build: BuildId, touched: seq<string>)
    requires Ordered(cache, touched)
    ensures var kept := Evict(cache, key, build);
            && Ordered(kept, touched) && |kept| <= |cache|
            && (forall e :: e in kept ==> e in cache && !(e.key == key && e.build == build))
  {
    WithoutKeepsOrder(cache, key, touched);
    forall e | e in cache && e.key == key && e.build == build
      ensures Find(cache, key) == Some(build)
    {
      SameKeySameEntry(cache, e);
    }
  }

  lemma SweepKeepsCache(c: Config, s: State, b: BuildId)
    requires CacheOk(c, s) && b < |s.builds| && s.builds[b].outcome == Rejected && !s.builds[b].swept
    ensures CacheOk(c, Step(c, s, Sweep(b)))
  {
    EvictKeepsRest(s.cache, s.builds[b].key, b, s.touched);
  }

  lemma SweepKeepsInv(c: Config, s: State, b: BuildId)
    requires Inv(c, s)
    ensures Inv(c, Step(c, s, Sweep(b)))
  {
    var s' := Step(c, s, Sweep(b));
    if s' != s {
      SweepKeepsCache(c, s, b);
      assert BuildsOk(c, s');
      forall d | d in s'.decisions
        ensures DecisionOk(c, s', s'.decisions[d])
      {
        assert DecisionOk(c, s, s.decisions[d]);
      }
    }
  }

  lemma SameKeySameEntry(cache: seq<Entry>, e: Entry)
    requires DistinctKeys(cache) && e in cache
    ensures Find(cache, e.key) == Some(e.build)
  {
    var found := Entry(e.key, Find(cache, e.key).value);
    var i :| 0 <= i < |cache| && cache[i] == e;
    var j :| 0 <= j < |cache| && cache[j] == found;
  }

  lemma FinishKeepsInv(c: Config, s: State, b: BuildId, ok: bool)
    requires Inv(c, s)
    ensures Inv(c, Step(c, s, Finish(b, ok)))
  {
  }

  lemma DecisionStepKeepsInv(c: Config, s: State, a: Action)
    requires Inv(c, s) && (a.Change? || a.Ask? || a.Answer?)
    ensures Inv(c, Step(c, s, a))
  {
  }

  lemma StepKeepsInv(c: Config, s: State, a: Action)
    requires Inv(c, s)
    ensures Inv(c, Step(c, s, a))
  {
    match a
    case Look(d) => LookKeepsInv(c, s, d);
    case Sweep(b) => SweepKeepsInv(c, s, b);
    case Finish(b, ok) => FinishKeepsInv(c, s, b, ok);
    case _ => DecisionStepKeepsInv(c, s, a);
  }

  lemma {:induction false} AlwaysInv(c: Config, history: seq<Action>)
    ensures Inv(c, After(c, history))
  {
    if history != [] {
      AlwaysInv(c, history[..|history| - 1]);
      StepKeepsInv(c, After(c, history[..|history| - 1]), history[|history| - 1]);
    }
  }

  // ---- what a decision is answered with ----

  /** Equal keys stand for equal bundles, whenever and for whomever they were read. */
  ghost predicate Coherent(c: Config) {
    forall a, v, b, w :: c.keyFor(a, v) == c.keyFor(b, w) ==> c.engineFor(a, v) == c.engineFor(b, w)
  }

  /** CACHING AGAINST NOT CACHING. Over any interleaving of decisions, failing builds and changes, a decision
      is answered as a bundle built for its own boundary when it read its key would have answered, if and
      only if the build it waited for gave what it would have given when its own key was read. */
  lemma AnswersAsFreshIff(c: Config, history: seq<Action>, d: DecisionId)
    requires Coherent(c)
    requires d in After(c, history).decisions && After(c, history).decisions[d].Answered?
    ensures var s := After(c, history); var q := s.decisions[d];
            && q.build < |s.builds| && s.builds[q.build].outcome.Built?
            && var build := s.builds[q.build];
            (q.engine == c.engineFor(q.boundary, q.read)
             <==> c.engineFor(build.boundary, build.outcome.at) == c.engineFor(build.boundary, build.read))
  {
    AlwaysInv(c, history);
    var s := After(c, history);
    assert DecisionOk(c, s, s.decisions[d]);
  }

  lemma {:induction false} NothingChanged(c: Config, history: seq<Action>)
    requires forall i :: 0 <= i < |history| ==> !history[i].Change?
    ensures var s := After(c, history);
            && s.world == 0
            && (forall i :: 0 <= i < |s.builds| ==> s.builds[i].read == 0 && (s.builds[i].outcome.Built? ==> s.builds[i].outcome.at == 0))
            && (forall d :: d in s.decisions && s.decisions[d].Keyed? ==> s.decisions[d].read == 0)
  {
    if history != [] {
      NothingChanged(c, history[..|history| - 1]);
      assert !history[|history| - 1].Change?;
    }
  }

  /** And while nothing changes every answer is the fresh one. */
  lemma SteadyAnswersAsFresh(c: Config, history: seq<Action>, d: DecisionId)
    requires Coherent(c) && forall i :: 0 <= i < |history| ==> !history[i].Change?
    requires d in After(c, history).decisions && After(c, history).decisions[d].Answered?
    ensures var q := After(c, history).decisions[d]; q.engine == c.engineFor(q.boundary, q.read)
  {
    NothingChanged(c, history);
    AlwaysInv(c, history);
    var s := After(c, history);
    assert DecisionOk(c, s, s.decisions[d]);
    AnswersAsFreshIff(c, history, d);
  }

  // ---- the host that keys a bundle by the changes to its boundary ----

  /** `changes` counts a boundary's own log, and `bundle` is what that log then makes of it. */
  datatype Host = Host(changes: (Boundary, World) -> nat, bundle: (Boundary, nat) -> Engine)

  function ConfigOf(h: Host, maxBundles: int): Config {
    Config(
      (b: Boundary, w: World) => AuthzBundleKey(b, h.changes(b, w)),
      (b: Boundary, w: World) => h.bundle(b, h.changes(b, w)),
      maxBundles)
  }

  /** Boundaries nobody changed share the code-owned bundle, and those somebody changed have colon-free labels. */
  ghost predicate Sensible(h: Host) {
    && (forall a, b :: h.bundle(a, 0) == h.bundle(b, 0))
    && (forall b, w :: h.changes(b, w) > 0 ==> ':' !in b.scope)
  }

  lemma HostIsCoherent(h: Host, maxBundles: int)
    requires Sensible(h)
    ensures Coherent(ConfigOf(h, maxBundles))
  {
    var c := ConfigOf(h, maxBundles);
    forall a, v, b, w | c.keyFor(a, v) == c.keyFor(b, w)
      ensures c.engineFor(a, v) == c.engineFor(b, w)
    {
      KeysEqualIff(a, h.changes(a, v), b, h.changes(b, w));
      if h.changes(a, v) > 0 {
        ColonFreeKeysAreApart(a, h.changes(a, v), b, h.changes(b, w));
      }
    }
  }

  /** No build ends with its boundary's count moved on from the count in its key: what a host knows that
      reads the count again once it has built, and fails the build if it moved. */
  predicate CountsHold(h: Host, maxBundles: int, history: seq<Action>) {
    history == [] ||
    var less, a := history[..|history| - 1], history[|history| - 1];
    CountsHold(h, maxBundles, less) && CountHolds(h, After(ConfigOf(h, maxBundles), less), a)
  }

  predicate CountHolds(h: Host, s: State, a: Action) {
    a.Finish? && a.ok && a.build < |s.builds| && s.builds[a.build].outcome == Pending ==>
      h.changes(s.builds[a.build].boundary, s.world) == h.changes(s.builds[a.build].boundary, s.builds[a.build].read)
  }

  predicate BuiltInTime(h: Host, build: Build) {
    build.outcome.Built? ==> h.changes(build.boundary, build.outcome.at) == h.changes(build.boundary, build.read)
  }

  lemma {:induction false} CountedBuildsAreInTime(h: Host, maxBundles: int, history: seq<Action>)
    requires CountsHold(h, maxBundles, history)
    ensures forall build :: build in After(ConfigOf(h, maxBundles), history).builds ==> BuiltInTime(h, build)
  {
    if history != [] {
      var less, a := history[..|history| - 1], history[|history| - 1];
      CountedBuildsAreInTime(h, maxBundles, less);
      StepBuildsInTime(h, ConfigOf(h, maxBundles), After(ConfigOf(h, maxBundles), less), a);
    }
  }

  lemma StepBuildsInTime(h: Host, c: Config, s: State, a: Action)
    requires CountHolds(h, s, a) && forall build :: build in s.builds ==> BuiltInTime(h, build)
    ensures forall build :: build in Step(c, s, a).builds ==> BuiltInTime(h, build)
  {
    var s' := Step(c, s, a);
    forall i | 0 <= i < |s'.builds|
      ensures BuiltInTime(h, s'.builds[i])
    {
      assert i < |s.builds| ==> s.builds[i] in s.builds;
    }
  }

  /** CACHING REFINES NOT CACHING, for a host whose builds end under the count they were keyed by. */
  lemma CountedHostAnswersAsFresh(h: Host, maxBundles: int, history: seq<Action>, d: DecisionId)
    requires Sensible(h) && CountsHold(h, maxBundles, history)
    requires var s := After(ConfigOf(h, maxBundles), history); d in s.decisions && s.decisions[d].Answered?
    ensures var q := After(ConfigOf(h, maxBundles), history).decisions[d];
            q.engine == h.bundle(q.boundary, h.changes(q.boundary, q.read))
  {
    var c := ConfigOf(h, maxBundles);
    var s := After(c, history);
    HostIsCoherent(h, maxBundles);
    AnswersAsFreshIff(c, history, d);
    CountedBuildsAreInTime(h, maxBundles, history);
    assert s.builds[s.decisions[d].build] in s.builds;
  }

  /** Whatever changes meanwhile, a boundary with changes of its own is answered by its own bundle, as it was
      when built; only the shared key can answer one boundary with another's. */
  lemma ChangedBoundaryIsAnsweredByItsOwn(h: Host, maxBundles: int, history: seq<Action>, d: DecisionId)
    requires Sensible(h)
    requires var s := After(ConfigOf(h, maxBundles), history); d in s.decisions && s.decisions[d].Answered?
    requires var q := After(ConfigOf(h, maxBundles), history).decisions[d]; h.changes(q.boundary, q.read) > 0
    ensures var s := After(ConfigOf(h, maxBundles), history); var q := s.decisions[d];
            && q.build < |s.builds| && s.builds[q.build].boundary == q.boundary && s.builds[q.build].outcome.Built?
            && q.engine == h.bundle(q.boundary, h.changes(q.boundary, s.builds[q.build].outcome.at))
  {
    var c := ConfigOf(h, maxBundles);
    var s := After(c, history);
    var q := s.decisions[d];
    AlwaysInv(c, history);
    assert DecisionOk(c, s, q);
    var build := s.builds[q.build];
    KeysEqualIff(q.boundary, h.changes(q.boundary, q.read), build.boundary, h.changes(build.boundary, build.read));
    ColonFreeKeysAreApart(q.boundary, h.changes(q.boundary, q.read), build.boundary, h.changes(build.boundary, build.read));
  }

  const A: Boundary := Boundary("org", "a")
  const B: Boundary := Boundary("org", "b")

  /** One boundary is changed once, just after the start. */
  const CHANGES_ONCE: Host := Host((b, w) => if b == A && w > 0 then 1 else 0, (b, n) => n)

  lemma AfterAppend(c: Config, history: seq<Action>, a: Action)
    ensures After(c, history + [a]) == Step(c, After(c, history), a)
  {
    assert (history + [a])[..|history|] == history;
  }

  lemma KeptAtFirst()
    ensures ConfigOf(CHANGES_ONCE, 64).keyFor(A, 0) == "system"
  {
    assert CHANGES_ONCE.changes(A, 0) == 0;
  }

  /** The first slice of `a` arrives between the key of its decision and its build, so the bundle of `a` is
      cached under the key of those nobody changed. */
  lemma BuiltLate() returns (history: seq<Action>)
    ensures After(ConfigOf(CHANGES_ONCE, 64), history) ==
              State(1, [Entry("system", 0)], [Build("system", A, 0, Built(1, 1), false)], map[1 := Waiting(A, "system", 0, 0)], ["system"])
  {
    var c := ConfigOf(CHANGES_ONCE, 64);
    history := [];
    assert After(c, history) == INITIAL;
    AfterAppend(c, history, Ask(1, Some("org"), Some("a"))); history := history + [Ask(1, Some("org"), Some("a"))];
    KeptAtFirst();
    assert After(c, history) == State(0, [], [], map[1 := Keyed(A, "system", 0)], []);
    assert LookUp([], "system", 0, 64) == Looked([Entry("system", 0)], 0, true);
    AfterAppend(c, history, Look(1)); history := history + [Look(1)];
    assert After(c, history) == State(0, [Entry("system", 0)], [Build("system", A, 0, Pending, false)], map[1 := Waiting(A, "system", 0, 0)], ["system"]);
    AfterAppend(c, history, Change); history := history + [Change];
    AfterAppend(c, history, Finish(0, true)); history := history + [Finish(0, true)];
  }

  /** A BOUNDARY ANSWERED BY ANOTHER'S BUNDLE. `b` was never changed, and is given the bundle of `a`: not what
      its own would answer, then or now. */
  lemma SharedKeyCrossesBoundaries() returns (history: seq<Action>)
    ensures Sensible(CHANGES_ONCE)
    ensures var s := After(ConfigOf(CHANGES_ONCE, 64), history);
            && 2 in s.decisions && s.decisions[2] == Answered(B, "system", s.world, 0, 1)
            && CHANGES_ONCE.bundle(B, CHANGES_ONCE.changes(B, s.world)) == 0
            && CHANGES_ONCE.bundle(A, CHANGES_ONCE.changes(A, s.world)) == 1
  {
    var c := ConfigOf(CHANGES_ONCE, 64);
    history := BuiltLate();
    AfterAppend(c, history, Ask(2, Some("org"), Some("b"))); history := history + [Ask(2, Some("org"), Some("b"))];
    AfterAppend(c, history, Look(2)); history := history + [Look(2)];
    AfterAppend(c, history, Answer(2)); history := history + [Answer(2)];
  }

  /** Half a boundary's name names none, and a decision that names none is keyed and built as unscoped. */
  lemma HalfANameIsNone(c: Config, s: State, d: DecisionId, scope: Option<string>, scopeId: Option<string>)
    requires d !in s.decisions
    ensures var b := if scope.Some? && scopeId.Some? then Boundary(scope.value, scopeId.value) else Boundary("busyclaw:unscoped", "-");
            Step(c, s, Ask(d, scope, scopeId)) == s.(decisions := s.decisions[d := Keyed(b, c.keyFor(b, s.world), s.world)])
  {
  }

  // ---- what the cache holds ----

  /** THE CACHE. It never exceeds its bound, holds one build per key, oldest lookup first, and no build
      whose failure was seen. */
  lemma CacheIsLru(c: Config, history: seq<Action>)
    ensures var s := After(c, history);
            && |s.cache| <= Capacity(c.maxBundles)
            && DistinctKeys(s.cache)
            && ByRecency(s.cache, s.touched)
            && (forall e :: e in s.cache ==> e.build < |s.builds| && s.builds[e.build].key == e.key && !s.builds[e.build].swept)
  {
    AlwaysInv(c, history);
  }

  /** A FAILED BUILD takes with it its own entry and no other: not one put under its key since. */
  lemma EvictsItsOwn(cache: seq<Entry>, key: string, build: BuildId, e: Entry)
    requires DistinctKeys(cache)
    ensures e in Evict(cache, key, build) <==> e in cache && e != Entry(key, build)
  {
    if e in cache && e.key == key {
      SameKeySameEntry(cache, e);
    }
    if Find(cache, key) != Some(build) && Entry(key, build) in cache {
      SameKeySameEntry(cache, Entry(key, build));
    }
  }

  /** SINGLE FLIGHT. A lookup starts a build exactly when its key is not cached; otherwise it waits for
      the build that is. */
  lemma LookupStartsIffAbsent(c: Config, history: seq<Action>, d: DecisionId)
    requires Is(After(c, history), d, true)
    ensures var s, s' := After(c, history), Step(c, After(c, history), Look(d)); var key := s.decisions[d].key;
            && |s'.builds| == |s.builds| + (if forall e :: e in s.cache ==> e.key != key then 1 else 0)
            && (forall e :: e in s.cache && e.key == key ==> s'.decisions[d].build == e.build)
  {
    AlwaysInv(c, history);
    var s := After(c, history);
    var key := s.decisions[d].key;
    forall e | e in s.cache && e.key == key
      ensures Find(s.cache, key) == Some(e.build)
    {
      SameKeySameEntry(s.cache, e);
    }
    assert forall i :: 0 <= i < |s.cache| ==> s.cache[i] in s.cache;
  }

  lemma HitKeepsAll(cache: seq<Entry>, key: string, next: BuildId, maxBundles: int, e: Entry)
    requires Find(cache, key).Some? && e in cache
    ensures exists f :: f in LookUp(cache, key, next, maxBundles).cache && f.key == e.key
  {
    var looked := LookUp(cache, key, next, maxBundles).cache;
    if e.key == key {
      assert looked[|looked| - 1] in looked;
    } else {
      assert e in looked;
    }
  }

  lemma MissKeepsRest(cache: seq<Entry>, key: string, next: BuildId, maxBundles: int, i: nat)
    requires Find(cache, key) == None && |cache| <= Capacity(maxBundles) && i < |cache|
    ensures cache[i] in LookUp(cache, key, next, maxBundles).cache || (i == 0 && |cache| == Capacity(maxBundles))
  {
    var grown, looked := cache + [Entry(key, next)], LookUp(cache, key, next, maxBundles).cache;
    assert grown[i] == cache[i];
    if |cache| == Capacity(maxBundles) && i > 0 {
      assert looked == grown[1..] && looked[i - 1] == cache[i];
    }
  }

  /** What a lookup lets go is the least recently touched, and only to make room. */
  lemma OnlyOldestLeaves(cache: seq<Entry>, key: string, next: BuildId, maxBundles: int, e: Entry)
    requires |cache| <= Capacity(maxBundles)
    requires e in cache && forall f :: f in LookUp(cache, key, next, maxBundles).cache ==> f.key != e.key
    ensures Find(cache, key) == None && |cache| == Capacity(maxBundles) && e == cache[0]
  {
    if Find(cache, key).Some? {
      HitKeepsAll(cache, key, next, maxBundles, e);
    } else {
      var i :| 0 <= i < |cache| && cache[i] == e;
      MissKeepsRest(cache, key, next, maxBundles, i);
    }
  }
}
