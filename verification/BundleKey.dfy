/** The identity of a boundary's policy bundle. */
module BundleKey {
  import opened Strings
  import opened PolicyBundle

  datatype Boundary = Boundary(scope: string, scopeId: string)

  /** `changes` counts an append-only log, so it grows with every change, deletions included. */
  function AuthzBundleKey(b: Boundary, changes: nat): string {
    if changes == 0 then "system" else b.scope + ":" + b.scopeId + ":" + Decimal(changes)
  }

  lemma {:induction false} DecimalIsDigits(n: nat)
    ensures Decimal(n) != "" && forall c :: c in Decimal(n) ==> '0' <= c <= '9'
  {
    if n >= 10 {
      DecimalIsDigits(n / 10);
    }
  }

  lemma DecimalIsLong(n: nat)
    ensures |Decimal(n)| > 1 <==> n >= 10
    ensures n >= 10 ==> Decimal(n)[..|Decimal(n)| - 1] == Decimal(n / 10)
    ensures Decimal(n) != "" && Decimal(n)[|Decimal(n)| - 1] == Digit(n % 10)
  {
    DecimalIsDigits(n / 10);
  }

  lemma {:induction false} DecimalIsInjective(m: nat, n: nat)
    requires Decimal(m) == Decimal(n)
    ensures m == n
  {
    DecimalIsLong(m);
    DecimalIsLong(n);
    DigitsAreApart(m % 10, n % 10);
    if m >= 10 {
      DecimalIsInjective(m / 10, n / 10);
    }
  }

  lemma DigitsAreApart(m: nat, n: nat)
    requires m < 10 && n < 10
    ensures Digit(m) == Digit(n) <==> m == n
  {
  }

  function Joined(b: Boundary): string {
    b.scope + ":" + b.scopeId
  }

  /** TWO KEYS ARE ONE exactly when both boundaries are uncustomized, or their joined labels and their
      counts agree. */
  lemma KeysEqualIff(a: Boundary, m: nat, b: Boundary, n: nat)
    ensures AuthzBundleKey(a, m) == AuthzBundleKey(b, n) <==>
              (m == 0 && n == 0) || (m > 0 && n > 0 && Joined(a) == Joined(b) && m == n)
  {
    if m > 0 && n > 0 {
      CountedKeys(a, m, b, n);
    } else if m > 0 {
      HasColon(a, m);
    } else if n > 0 {
      HasColon(b, n);
    }
  }

  lemma HasColon(b: Boundary, n: nat)
    requires n > 0
    ensures ':' in AuthzBundleKey(b, n)
  {
    assert AuthzBundleKey(b, n)[|b.scope|] == ':';
  }

  lemma CountedKeys(a: Boundary, m: nat, b: Boundary, n: nat)
    requires m > 0 && n > 0
    ensures AuthzBundleKey(a, m) == AuthzBundleKey(b, n) <==> Joined(a) == Joined(b) && m == n
  {
    DecimalIsDigits(m);
    DecimalIsDigits(n);
    SplitsAtLast(Joined(a), Decimal(m), Joined(b), Decimal(n), ':');
    assert AuthzBundleKey(a, m) == Joined(a) + [':'] + Decimal(m);
    assert AuthzBundleKey(b, n) == Joined(b) + [':'] + Decimal(n);
    if Decimal(m) == Decimal(n) {
      DecimalIsInjective(m, n);
    }
  }

  /** Boundaries whose scope labels hold no colon never share a customized bundle. */
  lemma ColonFreeKeysAreApart(a: Boundary, m: nat, b: Boundary, n: nat)
    requires ':' !in a.scope && ':' !in b.scope && m > 0
    ensures AuthzBundleKey(a, m) == AuthzBundleKey(b, n) <==> a == b && m == n
  {
    KeysEqualIff(a, m, b, n);
    SplitsAtFirst(a.scope, a.scopeId, b.scope, b.scopeId, ':');
    assert Joined(a) == a.scope + [':'] + a.scopeId && Joined(b) == b.scope + [':'] + b.scopeId;
  }

  /** A colon in a label lets two customized boundaries meet in one key. */
  lemma ColonSharesKey() returns (a: Boundary, b: Boundary)
    ensures a != b && AuthzBundleKey(a, 1) == AuthzBundleKey(b, 1)
  {
    a, b := Boundary("a", "b:c"), Boundary("a:b", "c");
    assert Joined(a) == "a:b:c" == Joined(b);
    KeysEqualIff(a, 1, b, 1);
  }
}
