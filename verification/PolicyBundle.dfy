/** A boundary's policy set: the system posture merged with a customer's slices, then split into one
    policy per id for the engine. */
module PolicyBundle {
  import opened Options

  datatype SliceMode = Enforce | Shadow | Off
  datatype Slice = Slice(name: string, cedar: string, mode: SliceMode)

  type NamedPolicies = map<string, string>

  datatype Bundle = Bundle(live: NamedPolicies, shadow: Option<NamedPolicies>)

  /** A record answers for these names before anything is stored in it. */
  const INHERITED: set<string> := {
    "constructor", "hasOwnProperty", "isPrototypeOf", "propertyIsEnumerable", "toLocaleString", "toString", "valueOf",
    "__proto__", "__defineGetter__", "__defineSetter__", "__lookupGetter__", "__lookupSetter__"
  }

  /** No slice that counts reuses a name of the system, of another slice or of the record itself. */
  predicate Loads(system: NamedPolicies, slices: seq<Slice>) {
    && (forall i :: 0 <= i < |slices| && slices[i].mode != Off ==> slices[i].name !in system && slices[i].name !in INHERITED)
    && (forall i, j :: 0 <= i < j < |slices| && slices[i].mode != Off && slices[j].mode != Off ==> slices[i].name != slices[j].name)
  }

  /** The slices of one mode, by name. */
  function OfMode(slices: seq<Slice>, mode: SliceMode): NamedPolicies {
    if slices == [] then map[]
    else
      var less, last := OfMode(slices[..|slices| - 1], mode), slices[|slices| - 1];
      if last.mode == mode then less[last.name := last.cedar] else less
  }

  lemma {:induction false} NamesOfMode(slices: seq<Slice>, mode: SliceMode, name: string)
    ensures name in OfMode(slices, mode) <==> exists i :: 0 <= i < |slices| && slices[i].mode == mode && slices[i].name == name
  {
    if slices != [] {
      NamesOfMode(slices[..|slices| - 1], mode, name);
    }
  }

  lemma {:induction false} NoneOfMode(slices: seq<Slice>, mode: SliceMode)
    ensures OfMode(slices, mode) == map[] <==> forall i :: 0 <= i < |slices| ==> slices[i].mode != mode
  {
    if slices != [] {
      var n := |slices| - 1;
      NoneOfMode(slices[..n], mode);
      if slices[n].mode == mode {
        assert slices[n].name in OfMode(slices, mode);
      }
    }
  }

  /** Is the name taken by what was merged so far? */
  lemma NameIsTaken(system: NamedPolicies, slices: seq<Slice>, name: string)
    ensures name in system + OfMode(slices, Enforce) || name in OfMode(slices, Shadow) <==>
              name in system || exists i :: 0 <= i < |slices| && slices[i].mode != Off && slices[i].name == name
  {
    NamesOfMode(slices, Enforce, name);
    NamesOfMode(slices, Shadow, name);
    if i :| 0 <= i < |slices| && slices[i].mode != Off && slices[i].name == name {
      assert slices[i].mode == Enforce || slices[i].mode == Shadow;
    }
  }

  lemma LoadsOneMore(system: NamedPolicies, slices: seq<Slice>)
    requires slices != [] && Loads(system, slices[..|slices| - 1])
    ensures var last, less := slices[|slices| - 1], slices[..|slices| - 1];
            Loads(system, slices) <==>
              last.mode == Off || (last.name !in INHERITED && last.name !in system + OfMode(less, Enforce) && last.name !in OfMode(less, Shadow))
  {
    var last, less := slices[|slices| - 1], slices[..|slices| - 1];
    NameIsTaken(system, less, last.name);
    if i :| 0 <= i < |less| && less[i].mode != Off && less[i].name == last.name {
      assert slices[i].name == last.name;
    }
  }

  lemma LoadsLess(system: NamedPolicies, slices: seq<Slice>, k: nat)
    requires k <= |slices| && Loads(system, slices)
    ensures Loads(system, slices[..k])
  {
  }

  method LoadPolicyBundle(system: NamedPolicies, slices: seq<Slice>) returns (bundle: Option<Bundle>)
    ensures bundle.Some? <==> Loads(system, slices)
    ensures bundle.Some? ==>
              && bundle.value.live == system + OfMode(slices, Enforce)
              && (bundle.value.shadow.Some? <==> exists i :: 0 <= i < |slices| && slices[i].mode == Shadow)
              && (bundle.value.shadow.Some? ==> bundle.value.shadow.value == bundle.value.live + OfMode(slices, Shadow))
  {
    var live, shadowOnly: NamedPolicies := system, map[];
    var k := 0;
    while k < |slices|
      invariant 0 <= k <= |slices|
      invariant Loads(system, slices[..k])
      invariant live == system + OfMode(slices[..k], Enforce) && shadowOnly == OfMode(slices[..k], Shadow)
    {
      var slice := slices[k];
      LoadsNext(system, slices, k);
      if slice.mode != Off {
        if slice.name in INHERITED || slice.name in live || slice.name in shadowOnly {
          return None;
        }
        if slice.mode == Enforce {
          live := live[slice.name := slice.cedar];
        } else {
          shadowOnly := shadowOnly[slice.name := slice.cedar];
        }
      }
      k := k + 1;
    }
    assert slices[..k] == slices;
    NoneOfMode(slices, Shadow);
    bundle := Some(Bundle(live, if shadowOnly == map[] then None else Some(live + shadowOnly)));
  }

  lemma LoadsNext(system: NamedPolicies, slices: seq<Slice>, k: nat)
    requires k < |slices| && Loads(system, slices[..k])
    ensures var slice, live, shadowOnly := slices[k], system + OfMode(slices[..k], Enforce), OfMode(slices[..k], Shadow);
            && (slice.mode == Off || (slice.name !in INHERITED && slice.name !in live && slice.name !in shadowOnly)
                <==> Loads(system, slices[..k + 1]))
            && (!Loads(system, slices[..k + 1]) ==> !Loads(system, slices))
            && system + OfMode(slices[..k + 1], Enforce) == (if slice.mode == Enforce then live[slice.name := slice.cedar] else live)
            && OfMode(slices[..k + 1], Shadow) == (if slice.mode == Shadow then shadowOnly[slice.name := slice.cedar] else shadowOnly)
  {
    var upTo := slices[..k + 1];
    assert upTo[..k] == slices[..k] && upTo[k] == slices[k];
    LoadsOneMore(system, upTo);
    if Loads(system, slices) {
      LoadsLess(system, slices, k + 1);
    }
  }

  /** THE SYSTEM RULES SURVIVE. Whatever slices an accepted bundle merged, each system rule is in both of
      its sets, under its own name and with its own text. */
  lemma {:induction false} SystemSurvives(system: NamedPolicies, slices: seq<Slice>, name: string)
    requires Loads(system, slices) && name in system
    ensures name in system + OfMode(slices, Enforce) && (system + OfMode(slices, Enforce))[name] == system[name]
    ensures (system + OfMode(slices, Enforce) + OfMode(slices, Shadow))[name] == system[name]
  {
    NamesOfMode(slices, Enforce, name);
    NamesOfMode(slices, Shadow, name);
  }

  /** And a slice under its own name too: nothing an accepted bundle holds was overwritten. */
  lemma SliceSurvives(system: NamedPolicies, slices: seq<Slice>, i: nat)
    requires Loads(system, slices) && i < |slices| && slices[i].mode == Enforce
    ensures slices[i].name in system + OfMode(slices, Enforce)
    ensures (system + OfMode(slices, Enforce))[slices[i].name] == slices[i].cedar
  {
    SliceIsKept(slices, i);
  }

  lemma {:induction false} SliceIsKept(slices: seq<Slice>, i: nat)
    requires i < |slices| && slices[i].mode == Enforce
    requires forall j :: i < j < |slices| && slices[j].mode != Off ==> slices[j].name != slices[i].name
    ensures slices[i].name in OfMode(slices, Enforce) && OfMode(slices, Enforce)[slices[i].name] == slices[i].cedar
  {
    if i < |slices| - 1 {
      SliceIsKept(slices[..|slices| - 1], i);
    }
  }

  /** The names a record answers for: a slice that counts is refused under any of them. */
  lemma RecordNamesAreRefused(system: NamedPolicies, slices: seq<Slice>, i: nat)
    requires i < |slices| && (slices[i].mode == Enforce || slices[i].mode == Shadow)
    requires slices[i].name in {
      "constructor", "hasOwnProperty", "isPrototypeOf", "propertyIsEnumerable", "toLocaleString", "toString", "valueOf",
      "__proto__", "__defineGetter__", "__defineSetter__", "__lookupGetter__", "__lookupSetter__"}
    ensures !Loads(system, slices)
  {
  }

  /** A REFUSAL, IN WORDS: some slice that counts, enforced or shadowed, is named like a system rule, like another that
      counts, or like nothing a record may hold; slices that are off are never looked at. */
  lemma RefusedIff(system: NamedPolicies, slices: seq<Slice>)
    ensures !Loads(system, slices) <==>
              || (exists i :: 0 <= i < |slices| && slices[i].mode in {Enforce, Shadow} && (slices[i].name in system || slices[i].name in INHERITED))
              || (exists i, j :: 0 <= i < j < |slices| && slices[i].mode in {Enforce, Shadow} && slices[j].mode in {Enforce, Shadow}
                                 && slices[i].name == slices[j].name)
  {
    forall i | 0 <= i < |slices|
      ensures slices[i].mode != Off <==> slices[i].mode in {Enforce, Shadow}
    {
    }
  }

  /** WHAT A BUNDLE HOLDS under a name: the system's rule, or the text of the one slice of that name that counts. */
  lemma BundleHolds(system: NamedPolicies, slices: seq<Slice>, i: nat, mode: SliceMode)
    requires Loads(system, slices) && i < |slices| && slices[i].mode == mode && mode != Off
    ensures slices[i].name in OfMode(slices, mode) && OfMode(slices, mode)[slices[i].name] == slices[i].cedar
    ensures mode == Shadow ==> slices[i].name !in system + OfMode(slices, Enforce)
  {
    NamesOfMode(slices, Enforce, slices[i].name);
    ModeIsKept(slices, i, mode);
  }

  lemma {:induction false} ModeIsKept(slices: seq<Slice>, i: nat, mode: SliceMode)
    requires i < |slices| && slices[i].mode == mode && mode != Off
    requires forall j :: i < j < |slices| && slices[j].mode != Off ==> slices[j].name != slices[i].name
    ensures slices[i].name in OfMode(slices, mode) && OfMode(slices, mode)[slices[i].name] == slices[i].cedar
  {
    if i < |slices| - 1 {
      ModeIsKept(slices[..|slices| - 1], i, mode);
    }
  }

  // ---- one policy per id ----

  function Digit(n: nat): char
    requires n < 10
  {
    "0123456789"[n]
  }

  function Decimal(n: nat): string {
    if n < 10 then [Digit(n)] else Decimal(n / 10) + [Digit(n % 10)]
  }

  /** The id of the `i`-th of the `n` policies a name's text holds. */
  function IdOf(name: string, n: nat, i: nat): string {
    if n == 1 then name else name + "#" + Decimal(i)
  }

  /** The number a text of digits stands for. */
  function ValueOf(digits: string): nat {
    if digits == "" then 0
    else
      var last := digits[|digits| - 1];
      ValueOf(digits[..|digits| - 1]) * 10 + if '0' <= last <= '9' then last as nat - '0' as nat else 0
  }

  lemma DigitStandsFor(n: nat)
    requires n < 10
    ensures '0' <= Digit(n) <= '9' && Digit(n) as nat - '0' as nat == n
  {
  }

  lemma LastDigit(less: string, digit: nat)
    requires digit < 10
    ensures ValueOf(less + [Digit(digit)]) == ValueOf(less) * 10 + digit
  {
    DigitStandsFor(digit);
    assert (less + [Digit(digit)])[..|less|] == less;
  }

  lemma {:induction false} DecimalStandsFor(n: nat)
    ensures ValueOf(Decimal(n)) == n
    ensures Decimal(n) != "" && (n > 0 ==> Decimal(n)[0] != '0')
  {
    if n >= 10 {
      DecimalStandsFor(n / 10);
      LastDigit(Decimal(n / 10), n % 10);
    } else {
      DigitStandsFor(n);
      LastDigit("", n);
      assert "" + [Digit(n)] == Decimal(n);
    }
  }

  /** The ids of a name's policies: the name itself for a lone one, else each with a number sign and its place from 0. */
  lemma PolicyIds(name: string, n: nat, i: nat)
    requires i < n
    ensures n == 1 ==> IdOf(name, n, i) == name
    ensures n > 1 ==> name + "#" <= IdOf(name, n, i) && IdOf(name, n, i)[|name| + 1..] == Decimal(i)
  {
    assert n > 1 ==> IdOf(name, n, i)[..|name| + 1] == name + "#";
  }

  /** A name and a place in its text: one policy. */
  datatype Place = Place(name: string, at: nat)

  /** The text of a named set parses: every name gives its policies, in order. */
  ghost predicate Parses<P>(parse: string -> Option<seq<P>>, named: NamedPolicies) {
    forall name :: name in named ==> parse(named[name]).Some?
  }

  predicate IsPlace<P>(parse: string -> Option<seq<P>>, named: NamedPolicies, p: Place) {
    p.name in named && parse(named[p.name]).Some? && p.at < |parse(named[p.name]).value|
  }

  function PolicyAt<P>(parse: string -> Option<seq<P>>, named: NamedPolicies, p: Place): P
    requires IsPlace(parse, named, p)
  {
    parse(named[p.name]).value[p.at]
  }

  function IdAt<P>(parse: string -> Option<seq<P>>, named: NamedPolicies, p: Place): string
    requires IsPlace(parse, named, p)
  {
    IdOf(p.name, |parse(named[p.name]).value|, p.at)
  }

  /** No two policies have one id, and none a name the record answers for. */
  ghost predicate IdsApart<P>(parse: string -> Option<seq<P>>, named: NamedPolicies) {
    && (forall p :: IsPlace(parse, named, p) ==> IdAt(parse, named, p) !in INHERITED)
    && (forall p, q :: IsPlace(parse, named, p) && IsPlace(parse, named, q) && p != q ==> IdAt(parse, named, p) != IdAt(parse, named, q))
  }

  /** The places among `names`, and the first `n` of `next`. */
  predicate IsDone<P>(parse: string -> Option<seq<P>>, named: NamedPolicies, names: set<string>, next: string, n: nat, p: Place) {
    IsPlace(parse, named, p) && (p.name in names || (p.name == next && p.at < n))
  }

  /** The record so far: each policy done, under its id, and nothing else. */
  ghost predicate HoldsDone<P(!new)>(parse: string -> Option<seq<P>>, named: NamedPolicies, names: set<string>, next: string, n: nat, out: map<string, P>) {
    && (forall p :: IsDone(parse, named, names, next, n, p) ==>
          IdAt(parse, named, p) in out && out[IdAt(parse, named, p)] == PolicyAt(parse, named, p) && IdAt(parse, named, p) !in INHERITED)
    && (forall id :: id in out ==> exists p :: IsDone(parse, named, names, next, n, p) && IdAt(parse, named, p) == id)
    && (forall p, q :: IsDone(parse, named, names, next, n, p) && IsDone(parse, named, names, next, n, q) && p != q ==>
          IdAt(parse, named, p) != IdAt(parse, named, q))
  }

  /** The set the engine is given: each policy under its id, and nothing else. */
  ghost predicate IsNamedSet<P(!new)>(parse: string -> Option<seq<P>>, named: NamedPolicies, out: map<string, P>) {
    && (forall p :: IsPlace(parse, named, p) ==> IdAt(parse, named, p) in out && out[IdAt(parse, named, p)] == PolicyAt(parse, named, p))
    && (forall id :: id in out ==> exists p :: IsPlace(parse, named, p) && IdAt(parse, named, p) == id)
  }

  lemma ClaimsOneMore<P(!new)>(parse: string -> Option<seq<P>>, named: NamedPolicies, names: set<string>, name: string, i: nat, out: map<string, P>)
    requires HoldsDone(parse, named, names, name, i, out) && name !in names
    requires IsPlace(parse, named, Place(name, i))
    requires var id := IdAt(parse, named, Place(name, i)); id !in out && id !in INHERITED
    ensures var p := Place(name, i);
            HoldsDone(parse, named, names, name, i + 1, out[IdAt(parse, named, p) := PolicyAt(parse, named, p)])
  {
    var here := Place(name, i);
    var out' := out[IdAt(parse, named, here) := PolicyAt(parse, named, here)];
    assert forall p :: IsDone(parse, named, names, name, i + 1, p) <==> IsDone(parse, named, names, name, i, p) || p == here;
    forall id | id in out'
      ensures exists p :: IsDone(parse, named, names, name, i + 1, p) && IdAt(parse, named, p) == id
    {
      if id in out {
        var p :| IsDone(parse, named, names, name, i, p) && IdAt(parse, named, p) == id;
        assert IsDone(parse, named, names, name, i + 1, p);
      } else {
        assert IsDone(parse, named, names, name, i + 1, here);
      }
    }
  }

  /** A policy whose id is taken, or answered for by the record, spoils the set. */
  lemma ClashSpoils<P(!new)>(parse: string -> Option<seq<P>>, named: NamedPolicies, names: set<string>, name: string, i: nat, out: map<string, P>)
    requires HoldsDone(parse, named, names, name, i, out) && name !in names
    requires IsPlace(parse, named, Place(name, i))
    requires var id := IdAt(parse, named, Place(name, i)); id in out || id in INHERITED
    ensures !IdsApart(parse, named)
  {
    var here := Place(name, i);
    var id := IdAt(parse, named, here);
    if id in out {
      var p :| IsDone(parse, named, names, name, i, p) && IdAt(parse, named, p) == id;
      assert p != here;
    }
  }

  /** Claims the ids of one name's policies. */
  method ClaimAll<P(!new)>(parse: string -> Option<seq<P>>, named: NamedPolicies, ghost names: set<string>, name: string, before: map<string, P>)
    returns (out: Option<map<string, P>>)
    requires name in named && name !in names && parse(named[name]).Some?
    requires HoldsDone(parse, named, names, name, 0, before)
    ensures out == None ==> !IdsApart(parse, named)
    ensures out.Some? ==> HoldsDone(parse, named, names, name, |parse(named[name]).value|, out.value)
  {
    var policies, parts := before, parse(named[name]).value;
    var i := 0;
    while i < |parts|
      invariant 0 <= i <= |parts|
      invariant HoldsDone(parse, named, names, name, i, policies)
    {
      var id := IdOf(name, |parts|, i);
      assert IsPlace(parse, named, Place(name, i));
      if id in INHERITED || id in policies {
        ClashSpoils(parse, named, names, name, i, policies);
        return None;
      }
      ClaimsOneMore(parse, named, names, name, i, policies);
      policies := policies[id := parts[i]];
      i := i + 1;
    }
    out := Some(policies);
  }

  lemma SameDone<P(!new)>(parse: string -> Option<seq<P>>, named: NamedPolicies, names: set<string>, next: string, n: nat,
      names': set<string>, next': string, n': nat, out: map<string, P>)
    requires HoldsDone(parse, named, names, next, n, out)
    requires forall p :: IsDone(parse, named, names, next, n, p) <==> IsDone(parse, named, names', next', n', p)
    ensures HoldsDone(parse, named, names', next', n', out)
  {
    forall id | id in out
      ensures exists p :: IsDone(parse, named, names', next', n', p) && IdAt(parse, named, p) == id
    {
      var p :| IsDone(parse, named, names, next, n, p) && IdAt(parse, named, p) == id;
      assert IsDone(parse, named, names', next', n', p);
    }
  }

  lemma AllDone<P(!new)>(parse: string -> Option<seq<P>>, named: NamedPolicies, out: map<string, P>)
    requires HoldsDone(parse, named, named.Keys, "", 0, out)
    ensures IsNamedSet(parse, named, out) && IdsApart(parse, named)
  {
    forall p | IsPlace(parse, named, p)
      ensures IsDone(parse, named, named.Keys, "", 0, p)
    {
    }
    forall id | id in out
      ensures exists p :: IsPlace(parse, named, p) && IdAt(parse, named, p) == id
    {
      var p :| IsDone(parse, named, named.Keys, "", 0, p) && IdAt(parse, named, p) == id;
      assert IsPlace(parse, named, p);
    }
  }

  /** Splits a named set into one policy per id, or refuses it. */
  method NamedPolicySet<P(!new)>(parse: string -> Option<seq<P>>, named: NamedPolicies) returns (out: Option<map<string, P>>)
    ensures out.Some? <==> Parses(parse, named) && IdsApart(parse, named)
    ensures out.Some? ==> IsNamedSet(parse, named, out.value)
  {
    var policies: map<string, P> := map[];
    var todo := named.Keys;
    ghost var done: set<string> := {};
    while todo != {}
      invariant todo <= named.Keys && done == named.Keys - todo
      invariant forall name :: name in done ==> parse(named[name]).Some?
      invariant HoldsDone(parse, named, done, "", 0, policies)
      decreases todo
    {
      var name :| name in todo;
      if parse(named[name]) == None {
        return None;
      }
      SameDone(parse, named, done, "", 0, done, name, 0, policies);
      var claimed := ClaimAll(parse, named, done, name, policies);
      if claimed == None {
        return None;
      }
      policies := claimed.value;
      SameDone(parse, named, done, name, |parse(named[name]).value|, done + {name}, "", 0, policies);
      todo := todo - {name};
      done := done + {name};
    }
    assert done == named.Keys;
    AllDone(parse, named, policies);
    out := Some(policies);
  }

  /** A name whose text is one policy is that policy's id. */
  lemma SingleKeepsName<P(!new)>(parse: string -> Option<seq<P>>, named: NamedPolicies, out: map<string, P>, name: string, policy: P)
    requires IsNamedSet(parse, named, out)
    requires name in named && parse(named[name]) == Some([policy])
    ensures name in out && out[name] == policy
  {
    assert IsPlace(parse, named, Place(name, 0)) && IdAt(parse, named, Place(name, 0)) == name;
  }
}
