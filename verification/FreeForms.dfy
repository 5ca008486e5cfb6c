/**
What equal fingerprints mean when the hash has no collisions: the programs have
the same free form, the tree the same walk builds when it keeps contents
instead of hashing them. For logical expressions the free form is a chain of
operands, and chains evaluate as the expressions they come from.
*/
module FreeForms {
  import opened Sorting
  import opened Fingerprint

  datatype Form = Form(tag: nat, payload: nat, kids: seq<Form>)

  function Print(hash: Content<nat> -> nat, form: Form): nat {
    hash(Content(form.tag, form.payload, Prints(hash, form.kids)))
  }

  function Prints(hash: Content<nat> -> nat, forms: seq<Form>): (prints: seq<nat>)
    ensures |prints| == |forms|
    ensures forall i :: 0 <= i < |forms| ==> prints[i] == Print(hash, forms[i])
  {
    if forms == [] then [] else [Print(hash, forms[0])] + Prints(hash, forms[1..])
  }

  /** Contents kept as they are, and listed by what they would hash to. */
  function Free(hash: Content<nat> -> nat): Algebra<Form> {
    Algebra((content: Content<Form>) => Form(content.tag, content.payload, content.children), form => Print(hash, form))
  }

  function Hashed(hash: Content<nat> -> nat, entries: seq<Entry<Form>>): seq<Entry<nat>> {
    seq(|entries|, i requires 0 <= i < |entries| => Entry(entries[i].role, Print(hash, entries[i].digest)))
  }

  lemma HashedConcat(hash: Content<nat> -> nat, a: seq<Entry<Form>>, b: seq<Entry<Form>>)
    ensures Hashed(hash, a + b) == Hashed(hash, a) + Hashed(hash, b)
  {
  }

  lemma {:induction false} HashedInsert(
    hash: Content<nat> -> nat, x: Entry<Form>, s: seq<Entry<Form>>,
    le: (Entry<Form>, Entry<Form>) -> bool, le': (Entry<nat>, Entry<nat>) -> bool)
    requires forall a, b :: le(a, b) == le'(Entry(a.role, Print(hash, a.digest)), Entry(b.role, Print(hash, b.digest)))
    ensures Hashed(hash, Insert(le, x, s)) == Insert(le', Entry(x.role, Print(hash, x.digest)), Hashed(hash, s))
  {
    if s == [] || le(x, s[0]) {
    } else {
      HashedInsert(hash, x, s[1..], le, le');
      assert Hashed(hash, s)[1..] == Hashed(hash, s[1..]);
    }
  }

  lemma {:induction false} HashedSort(
    hash: Content<nat> -> nat, s: seq<Entry<Form>>,
    le: (Entry<Form>, Entry<Form>) -> bool, le': (Entry<nat>, Entry<nat>) -> bool)
    requires forall a, b :: le(a, b) == le'(Entry(a.role, Print(hash, a.digest)), Entry(b.role, Print(hash, b.digest)))
    ensures Hashed(hash, StableSort(le, s)) == StableSort(le', Hashed(hash, s))
  {
    if s != [] {
      HashedSort(hash, s[1..], le, le');
      HashedInsert(hash, s[0], StableSort(le, s[1..]), le, le');
      assert Hashed(hash, s)[1..] == Hashed(hash, s[1..]);
    }
  }

  lemma {:induction false} HashedRuns(hash: Content<nat> -> nat, s: seq<Entry<Form>>)
    ensures Hashed(hash, SortRuns(Free(hash), s)) == SortRuns(Hashing(hash), Hashed(hash, s))
    decreases |s|
  {
    if s != [] {
      var n := RunLength(s);
      var t := Hashed(hash, s);
      RunIs(t, n);
      assert Hashed(hash, s[..n]) == t[..n] && Hashed(hash, s[n..]) == t[n..];
      HashedSort(hash, s[..n], ByRank(Free(hash)), ByRank(Hashing(hash)));
      HashedRuns(hash, s[n..]);
      HashedConcat(hash, SortRun(Free(hash), s[..n]), SortRuns(Free(hash), s[n..]));
    }
  }

  lemma HashedClose(hash: Content<nat> -> nat, mode: Mode, prefix: nat, role: nat, tag: nat, payload: nat, s: seq<Entry<Form>>)
    ensures Hashed(hash, [Close(Free(hash), mode, prefix, role, tag, payload, s)]) == [Close(Hashing(hash), mode, prefix, role, tag, payload, Hashed(hash, s))]
  {
    var a := Arrange(Free(hash), mode, prefix, s);
    HashedArrange(hash, mode, prefix, s);
    assert Prints(hash, Digests(a)) == Digests(Hashed(hash, a));
  }

  lemma HashedArrange(hash: Content<nat> -> nat, mode: Mode, prefix: nat, s: seq<Entry<Form>>)
    ensures Hashed(hash, Arrange(Free(hash), mode, prefix, s)) == Arrange(Hashing(hash), mode, prefix, Hashed(hash, s))
  {
    match mode
    case List =>
      HashedList(hash, if prefix <= |s| then prefix else |s|, s);
    case Members =>
      HashedSort(hash, s, RoleLe, RoleLe);
    case _ =>
  }

  lemma HashedList(hash: Content<nat> -> nat, p: nat, s: seq<Entry<Form>>)
    requires p <= |s|
    ensures Hashed(hash, s[..p] + SortRuns(Free(hash), s[p..])) == Hashed(hash, s)[..p] + SortRuns(Hashing(hash), Hashed(hash, s)[p..])
  {
    assert Hashed(hash, s[..p]) == Hashed(hash, s)[..p];
    assert Hashed(hash, s[p..]) == Hashed(hash, s)[p..];
    HashedRuns(hash, s[p..]);
    HashedConcat(hash, s[..p], SortRuns(Free(hash), s[p..]));
  }

  /** Hashing the free form is hashing along the way. */
  lemma {:induction false} HashedEntries(hash: Content<nat> -> nat, node: Node, ctx: Context)
    ensures Hashed(hash, Entries(Free(hash), node, ctx)) == Entries(Hashing(hash), node, ctx)
    decreases node, 0
  {
    var below := Below(ctx, node);
    HashedChildren(hash, node, below, 0);
    var words := if node.kind.JsxText? then Words(Free(hash), node.kind.words) else [];
    var all := words + Children(Free(hash), node, below, 0);
    HashedConcat(hash, words, Children(Free(hash), node, below, 0));
    if node.kind.JsxText? {
      assert Hashed(hash, words) == Words(Hashing(hash), node.kind.words);
    }
    var payload := if node.kind.Quasi? && ctx.embedded then 0 else Payload(node.kind);
    HashedClose(hash, below.mode, PrefixOf(node.kind), RoleIn(ctx.mode, node.kind), Tag(node.kind), payload, all);
  }

  lemma {:induction false} HashedChildren(hash: Content<nat> -> nat, node: Node, ctx: Context, from: nat)
    requires from <= |node.children|
    ensures Hashed(hash, Children(Free(hash), node, ctx, from)) == Children(Hashing(hash), node, ctx, from)
    decreases node, 0, |node.children| - from
  {
    if from < |node.children| {
      var child := node.children[from];
      HashedEntries(hash, child, ctx);
      HashedEntries(hash, child, SYNTHETIC);
      HashedClose(hash, List, 0, OTHER, BLOCK, 0, Entries(Free(hash), child, SYNTHETIC));
      HashedChildren(hash, node, ctx, from + 1);
      HashedConcat(hash, Child(Free(hash), child, ctx, IsBareBody(node, from)), Children(Free(hash), node, ctx, from + 1));
    }
  }

  // ----- no collisions -----

  ghost predicate CollisionFree(hash: Content<nat> -> nat) {
    forall a, b :: hash(a) == hash(b) ==> a == b
  }

  lemma {:induction false} PrintIsInjective(hash: Content<nat> -> nat, a: Form, b: Form)
    requires CollisionFree(hash) && Print(hash, a) == Print(hash, b)
    ensures a == b
    decreases a
  {
    PrintsAreInjective(hash, a.kids, b.kids);
  }

  lemma {:induction false} PrintsAreInjective(hash: Content<nat> -> nat, a: seq<Form>, b: seq<Form>)
    requires CollisionFree(hash) && Prints(hash, a) == Prints(hash, b)
    ensures a == b
    decreases a
  {
    if a != [] {
      assert |a| == |b|;
      assert Prints(hash, a)[0] == Prints(hash, b)[0];
      assert Prints(hash, a)[1..] == Prints(hash, b)[1..];
      PrintIsInjective(hash, a[0], b[0]);
      PrintsAreInjective(hash, a[1..], b[1..]);
      assert a == [a[0]] + a[1..] && b == [b[0]] + b[1..];
    }
  }

  /** The free form of a program: what is left of it once layout and movable order are gone. */
  function FormsOf(hash: Content<nat> -> nat, node: Node, ctx: Context): seq<Form> {
    Digests(Entries(Free(hash), node, ctx))
  }

  /** Without collisions, equal hashes are equal forms, and only those. */
  lemma EqualPrintsAreEqualForms(hash: Content<nat> -> nat, a: Node, b: Node, ctx: Context)
    requires CollisionFree(hash)
    ensures Digests(Entries(Hashing(hash), a, ctx)) == Digests(Entries(Hashing(hash), b, ctx)) <==> FormsOf(hash, a, ctx) == FormsOf(hash, b, ctx)
  {
    HashedEntries(hash, a, ctx);
    HashedEntries(hash, b, ctx);
    var f, g := FormsOf(hash, a, ctx), FormsOf(hash, b, ctx);
    assert Digests(Entries(Hashing(hash), a, ctx)) == Prints(hash, f);
    assert Digests(Entries(Hashing(hash), b, ctx)) == Prints(hash, g);
    if Prints(hash, f) == Prints(hash, g) {
      PrintsAreInjective(hash, f, g);
    }
  }

  /** The same for whole files: the same forms, and the same comments up to order. */
  lemma EqualFingerprints(hash: Content<nat> -> nat, a: Node, b: Node, c: seq<nat>, d: seq<nat>)
    requires CollisionFree(hash)
    requires a.kind.Program? && b.kind.Program?
    requires FingerprintOf(hash, a, c) == FingerprintOf(hash, b, d)
    ensures FormsOf(hash, a, TOP) == FormsOf(hash, b, TOP) && multiset(c) == multiset(d)
  {
    var p, q := Digests(Entries(Hashing(hash), a, TOP)), Digests(Entries(Hashing(hash), b, TOP));
    var sc, sd := StableSort(Le, c), StableSort(Le, d);
    assert TotalPreorder(Le);
    StableSortSorts(Le, c);
    StableSortSorts(Le, d);
    assert p + sc == q + sd;
    assert |p| == 1 && |q| == 1;
    assert (p + sc)[..|p|] == p && (q + sd)[..|p|] == q;
    assert (p + sc)[|p|..] == sc && (q + sd)[|p|..] == sd;
    EqualPrintsAreEqualForms(hash, a, b, TOP);
  }
}
