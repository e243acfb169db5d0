/** Facts about text that several modules need. */
module Strings {
  /** White space as `trim` removes it. */
  predicate IsSpace(c: char) {
    || '\t' <= c <= '\r' || c == ' ' || c == '\U{00A0}' || c == '\U{1680}' || '\U{2000}' <= c <= '\U{200A}'
    || c == '\U{2028}' || c == '\U{2029}' || c == '\U{202F}' || c == '\U{205F}' || c == '\U{3000}' || c == '\U{FEFF}'
  }

  /** Nothing is left once the text is trimmed. */
  predicate Blank(s: string) {
    forall i :: 0 <= i < |s| ==> IsSpace(s[i])
  }

  /** Those are the white space and the line terminators of ECMAScript, one by one. */
  lemma SpacesAreListed(c: char)
    ensures IsSpace(c) <==> c in {
              '\t', '\n', '\U{000B}', '\U{000C}', '\r', ' ', '\U{00A0}', '\U{1680}', '\U{2000}', '\U{2001}', '\U{2002}', '\U{2003}',
              '\U{2004}', '\U{2005}', '\U{2006}', '\U{2007}', '\U{2008}', '\U{2009}', '\U{200A}', '\U{2028}', '\U{2029}', '\U{202F}',
              '\U{205F}', '\U{3000}', '\U{FEFF}'}
  {
  }

  /** Two texts cut at their first `c` are equal exactly when both parts are. */
  lemma SplitsAtFirst(a: string, x: string, b: string, y: string, c: char)
    requires c !in a && c !in b
    ensures a + [c] + x == b + [c] + y <==> a == b && x == y
  {
    if a + [c] + x == b + [c] + y {
      var s, t := a + [c] + x, b + [c] + y;
      assert forall i :: 0 <= i < |a| ==> s[i] == a[i] != c;
      assert forall i :: 0 <= i < |b| ==> t[i] == b[i] != c;
      assert s[|a|] == c && t[|b|] == c;
      assert a == s[..|a|] && b == t[..|b|];
      assert x == s[|a| + 1..] && y == t[|b| + 1..];
    }
  }

  /** And likewise at their last. */
  lemma SplitsAtLast(a: string, x: string, b: string, y: string, c: char)
    requires c !in x && c !in y
    ensures a + [c] + x == b + [c] + y <==> a == b && x == y
  {
    if a + [c] + x == b + [c] + y {
      var s, t := a + [c] + x, b + [c] + y;
      assert forall i :: |a| < i < |s| ==> s[i] == x[i - |a| - 1] != c;
      assert forall i :: |b| < i < |t| ==> t[i] == y[i - |b| - 1] != c;
      assert s[|a|] == c && t[|b|] == c;
      assert a == s[..|a|] && b == t[..|b|];
      assert x == s[|a| + 1..] && y == t[|b| + 1..];
    }
  }
}
