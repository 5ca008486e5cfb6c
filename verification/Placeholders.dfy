/**
The placeholders that stand for raw blocks: one is found where it was put, and
text around it cannot make another.
*/
module Placeholders {
  import opened Options

  type Text = string

  // ----- text -----

  function Skip(space: char -> bool, s: Text): (n: nat)
    ensures n <= |s| && (forall i :: 0 <= i < n ==> space(s[i])) && (n < |s| ==> !space(s[n]))
  {
    if s == [] || !space(s[0]) then 0 else 1 + Skip(space, s[1..])
  }

  /** Just past the last `c`; 0 when there is none. */
  function After(s: Text, c: char): (n: nat)
    ensures n <= |s| && (n > 0 ==> s[n - 1] == c) && forall i :: n <= i < |s| ==> s[i] != c
  {
    if s == [] then 0 else if s[|s| - 1] == c then |s| else After(s[..|s| - 1], c)
  }

  /** The first `c`; the length when there is none. */
  function At(s: Text, c: char): (n: nat)
    ensures n <= |s| && (n < |s| ==> s[n] == c) && forall i :: 0 <= i < n ==> s[i] != c
  {
    if s == [] || s[0] == c then 0 else 1 + At(s[1..], c)
  }

  function TrimEnd(space: char -> bool, s: Text): (r: Text)
    ensures r <= s && (r != [] ==> !space(r[|r| - 1])) && forall i :: |r| <= i < |s| ==> space(s[i])
  {
    if s == [] || !space(s[|s| - 1]) then s else TrimEnd(space, s[..|s| - 1])
  }

  predicate OccursAt(s: Text, t: Text, i: nat) {
    i + |t| <= |s| && s[i..i + |t|] == t
  }

  function Find(s: Text, t: Text, i: nat := 0): (r: Option<nat>)
    requires i <= |s|
    ensures r.Some? ==> i <= r.value && OccursAt(s, t, r.value) && forall k :: i <= k < r.value ==> !OccursAt(s, t, k)
    ensures r.None? ==> forall k :: i <= k <= |s| ==> !OccursAt(s, t, k)
    decreases |s| - i
  {
    if OccursAt(s, t, i) then Some(i) else if i == |s| then None else Find(s, t, i + 1)
  }

  // ----- placeholders -----

  const MARK: Text := "__fmtkit_raw_block_"

  function Digits(n: nat): (d: Text)
    ensures |d| > 0 && forall i :: 0 <= i < |d| ==> '0' <= d[i] <= '9'
  {
    (if n < 10 then [] else Digits(n / 10)) + ['0' + (n % 10) as char]
  }

  function Placeholder(n: nat): (p: Text)
    ensures |p| > |MARK| && p[..|MARK|] == MARK && p[|MARK|] != '_'
    ensures forall i :: 0 <= i < |p| ==> p[i] != '<' && p[i] != '>' && p[i] != '\n'
    ensures p[|p| - 1] == '_'
  {
    MARK + Digits(n) + "__"
  }

  /** Nothing in it reads like a placeholder. */
  predicate Free(s: Text) {
    Find(s, MARK).None?
  }

  /** The start of a placeholder overlaps itself in one character only. */
  lemma MarkOverlaps(d: nat)
    requires 0 < d < |MARK| && MARK[d] == '_' && (d + 1 < |MARK| ==> MARK[d + 1] == '_')
    ensures d == |MARK| - 1
  {
  }

  lemma Overlapping(s: Text, t: Text, a: nat, p: nat)
    requires |t| > |MARK| && t[..|MARK|] == MARK && OccursAt(s, t, a)
    requires a < p < a + |MARK| && s[p] == '_' && s[p + 1] == '_'
    ensures t[|MARK|] == '_'
  {
    assert forall k :: 0 <= k < |t| ==> s[a + k] == s[a..a + |t|][k] == t[k];
    assert forall k :: 0 <= k < |MARK| ==> t[k] == t[..|MARK|][k] == MARK[k];
    assert MARK[p - a] == '_' && (p - a + 1 < |MARK| ==> MARK[p - a + 1] == '_');
    MarkOverlaps(p - a);
  }

  lemma Contained(s: Text, t: Text, a: nat, pre: Text)
    requires MARK <= t && OccursAt(s, t, a) && pre <= s && a + |MARK| <= |pre|
    ensures OccursAt(pre, MARK, a)
  {
    assert pre[a..a + |MARK|] == s[a..a + |t|][..|MARK|];
  }

  /** A placeholder is found where it was put, whatever comes after. */
  lemma FoundWherePut(pre: Text, i: nat, rest: Text)
    requires Free(pre)
    ensures Find(pre + Placeholder(i) + rest, Placeholder(i)) == Some(|pre|)
  {
    var s, t := pre + Placeholder(i) + rest, Placeholder(i);
    assert OccursAt(s, t, |pre|);
    forall a | 0 <= a < |pre| ensures !OccursAt(s, t, a) {
      NotBefore(pre, i, rest, a);
    }
  }

  lemma NotBefore(pre: Text, i: nat, rest: Text, a: nat)
    requires Free(pre) && a < |pre|
    ensures !OccursAt(pre + Placeholder(i) + rest, Placeholder(i), a)
  {
    hide Placeholder, Find;
    var s, t := pre + Placeholder(i) + rest, Placeholder(i);
    assert pre <= s;
    assert s[|pre|] == t[0] == MARK[0] && s[|pre| + 1] == t[1] == MARK[1];
    if OccursAt(s, t, a) {
      if a + |MARK| <= |pre| {
        Contained(s, t, a, pre);
      } else {
        Overlapping(s, t, a, |pre|);
      }
    }
  }

  /** What has no placeholder has none after a character no placeholder has. */
  lemma FreeJoin(s: Text, t: Text)
    requires Free(s) && Free(t)
    requires s == [] || t == [] || Foreign(s[|s| - 1]) || Foreign(t[0])
    ensures Free(s + t)
  {
    hide Find;
    forall a | 0 <= a <= |s + t| ensures !OccursAt(s + t, MARK, a) {
      Crosses(s, t, a);
    }
  }

  predicate Foreign(c: char) {
    c == '<' || c == '>' || c == '\n'
  }

  lemma NoneForeign(s: Text, a: nat, p: nat)
    requires OccursAt(s, MARK, a) && a <= p < a + |MARK|
    ensures !Foreign(s[p])
  {
    assert s[p] == s[a..a + |MARK|][p - a] == MARK[p - a];
  }

  lemma Crosses(s: Text, t: Text, a: nat)
    requires s == [] || t == [] || Foreign(s[|s| - 1]) || Foreign(t[0])
    ensures OccursAt(s + t, MARK, a) ==> OccursAt(s, MARK, a) || (a >= |s| && OccursAt(t, MARK, a - |s|))
  {
    if OccursAt(s + t, MARK, a) {
      var u := s + t;
      if a + |MARK| <= |s| {
        assert s[a..a + |MARK|] == u[a..a + |MARK|];
      } else if a >= |s| {
        assert t[a - |s|..a - |s| + |MARK|] == u[a..a + |MARK|];
      } else {
        NoneForeign(u, a, |s| - 1);
        NoneForeign(u, a, |s|);
      }
    }
  }
}
