/**
The passes whose changes the fingerprint must not see: wrapping bare bodies in
blocks, sorting class members by kind, and moving single-line imports and
consts ahead of multiline ones. Each pass is given with an arbitrary choice of
where it acts, since layout and comments may make it decline anywhere.
*/
module Passes {
  import opened Options
  import opened Sorting
  import opened Fingerprint

  // ----- what the parser guarantees -----

  /** A node that stands for exactly one value: parentheses hold one, and it is not blank text. */
  ghost predicate IsExpression(node: Node) {
    match node.kind
    case Paren => |node.children| == 1 && IsExpression(node.children[0])
    case EmptyStatement => false
    case JsxText(_) => false
    case JsxContainer(_, _) => false
    case TypeList(_) => false
    case _ => true
  }

  /** A tested `case` starts with its test, and a class body holds members only. */
  ghost predicate Parsed(node: Node) {
    && (PrefixOf(node.kind) == 1 ==> node.children != [] && IsExpression(node.children[0]))
    && (node.kind.ClassBody? ==> forall i :: 0 <= i < |node.children| ==> RoleInClass(node.children[i].kind) > 0)
    && (forall i :: 0 <= i < |node.children| ==> Parsed(node.children[i]))
  }

  lemma {:induction false} ExpressionIsOneEntry<D>(alg: Algebra<D>, node: Node, ctx: Context)
    requires IsExpression(node) && ctx.logical.None?
    ensures |Entries(alg, node, ctx)| == 1
    decreases node
  {
    if node.kind.Paren? {
      var below := Below(ctx, node);
      ExpressionIsOneEntry(alg, node.children[0], below);
      assert Children(alg, node, below, 1) == [];
      assert Children(alg, node, below, 0) == Entries(alg, node.children[0], below);
      assert Entries(alg, node, ctx) == Children(alg, node, below, 0);
    } else {
      assert ModeIn(ctx, node) == Ordered || ModeIn(ctx, node) == List || ModeIn(ctx, node) == Members;
    }
  }

  // ----- children outside control statements -----

  function Flat<D>(alg: Algebra<D>, nodes: seq<Node>, ctx: Context): seq<Entry<D>> {
    if nodes == [] then [] else Entries(alg, nodes[0], ctx) + Flat(alg, nodes[1..], ctx)
  }

  lemma {:induction false} FlatConcat<D>(alg: Algebra<D>, a: seq<Node>, b: seq<Node>, ctx: Context)
    ensures Flat(alg, a + b, ctx) == Flat(alg, a, ctx) + Flat(alg, b, ctx)
    decreases |a|
  {
    hide Entries;
    if a == [] {
      assert a + b == b;
    } else {
      assert (a + b)[1..] == a[1..] + b;
      FlatConcat(alg, a[1..], b, ctx);
    }
  }

  lemma ChildrenAreFlat<D>(alg: Algebra<D>, node: Node, ctx: Context, from: nat)
    requires from <= |node.children| && !node.kind.If? && !node.kind.Loop?
    ensures Children(alg, node, ctx, from) == Flat(alg, node.children[from..], ctx)
    decreases |node.children| - from
  {
    if from < |node.children| {
      ChildrenAreFlat(alg, node, ctx, from + 1);
      assert node.children[from..][1..] == node.children[from + 1..];
    }
  }

  // ----- body wrapping -----

  /** `node` with the bare bodies at the picked places wrapped in blocks. */
  function Wrap(node: Node, pick: set<nat>): Node
    decreases node, |node.children| + 1
  {
    Node(node.kind, node.span, WrapChildren(node, pick, 0))
  }

  function WrapChildren(node: Node, pick: set<nat>, from: nat): (children: seq<Node>)
    requires from <= |node.children|
    ensures |children| == |node.children| - from
    decreases node, |node.children| - from
  {
    if from == |node.children| then [] else
      var child := Wrap(node.children[from], pick);
      var wrapped := if IsBareBody(node, from) && child.span in pick then Node(Block, child.span, [child]) else child;
      [wrapped] + WrapChildren(node, pick, from + 1)
  }

  lemma {:induction false} WrapChildAt(node: Node, pick: set<nat>, from: nat, at: nat)
    requires from <= at < |node.children|
    ensures WrapChildren(node, pick, from)[at - from] ==
      var child := Wrap(node.children[at], pick);
      if IsBareBody(node, at) && child.span in pick then Node(Block, child.span, [child]) else child
    decreases at - from
  {
    if from < at {
      WrapChildAt(node, pick, from + 1, at);
    }
  }

  lemma {:induction false} WrapKeepsEntries<D>(alg: Algebra<D>, node: Node, pick: set<nat>, ctx: Context)
    ensures Entries(alg, Wrap(node, pick), ctx) == Entries(alg, node, ctx)
    decreases node, |node.children| + 1
  {
    WrapKeepsChildren(alg, node, pick, Below(ctx, node), 0);
    assert Below(ctx, Wrap(node, pick)) == Below(ctx, node);
  }

  lemma {:induction false} WrapKeepsChildren<D>(alg: Algebra<D>, node: Node, pick: set<nat>, ctx: Context, from: nat)
    requires from <= |node.children|
    ensures Children(alg, Wrap(node, pick), ctx, from) == Children(alg, node, ctx, from)
    decreases node, |node.children| - from
  {
    if from < |node.children| {
      WrapKeepsEntries(alg, node.children[from], pick, ctx);
      WrapKeepsEntries(alg, node.children[from], pick, SYNTHETIC);
      WrapKeepsChild(alg, node, pick, ctx, from);
      WrapKeepsChildren(alg, node, pick, ctx, from + 1);
    }
  }

  lemma {:induction false} WrapKeepsChild<D>(alg: Algebra<D>, node: Node, pick: set<nat>, ctx: Context, at: nat)
    requires at < |node.children|
    requires var child := node.children[at];
      Entries(alg, Wrap(child, pick), ctx) == Entries(alg, child, ctx) && Entries(alg, Wrap(child, pick), SYNTHETIC) == Entries(alg, child, SYNTHETIC)
    ensures var after := Wrap(node, pick);
      Child(alg, after.children[at], ctx, IsBareBody(after, at)) == Child(alg, node.children[at], ctx, IsBareBody(node, at))
  {
    hide Entries, WrapChildren, Close;
    var child, after := node.children[at], Wrap(node, pick);
    WrapChildAt(node, pick, 0, at);
    BlockOfOne(alg, Wrap(child, pick), ctx);
    if IsBareBody(node, at) && child.span in pick {
      assert after.children[at] == Node(Block, child.span, [Wrap(child, pick)]) && !IsBareBody(after, at);
    } else {
      assert after.children[at] == Wrap(child, pick);
      assert IsBareBody(after, at) == IsBareBody(node, at);
    }
  }

  /** A block of one statement adds what the bare statement adds as a body. */
  lemma BlockOfOne<D>(alg: Algebra<D>, child: Node, ctx: Context)
    ensures Entries(alg, Node(Block, child.span, [child]), ctx) == Child(alg, child, ctx, true)
  {
    var block := Node(Block, child.span, [child]);
    assert Below(ctx, block) == SYNTHETIC;
    assert Children(alg, block, SYNTHETIC, 1) == [];
    assert Children(alg, block, SYNTHETIC, 0) == Entries(alg, child, SYNTHETIC);
  }

  /** Body wrapping is invisible, wherever it acts. */
  lemma WrapKeepsFingerprint(hash: Content<nat> -> nat, program: Node, pick: set<nat>, comments: seq<nat>)
    ensures FingerprintOf(hash, Wrap(program, pick), comments) == FingerprintOf(hash, program, comments)
  {
    WrapKeepsEntries(Hashing(hash), program, pick, TOP);
  }
}
