/**
The two reordering passes: class members sorted by kind, and runs of imports
and of consts with the single-line ones first.
*/
module Reorders {
  import opened Options
  import opened Sorting
  import opened Fingerprint
  import opened Passes

  /** Where the passes act: which classes they sort, which runs they move, what spans several lines. */
  datatype Plan = Plan(sorts: Node -> bool, moves: seq<Node> -> bool, multiline: Node -> bool)

  predicate MemberLe(a: Node, b: Node) {
    RoleInClass(a.kind) <= RoleInClass(b.kind)
  }

  function NodeRun(nodes: seq<Node>): (n: nat)
    ensures n <= |nodes| && (nodes != [] ==> n > 0)
    ensures forall i :: 0 <= i < n ==> RoleInList(nodes[i].kind) == RoleInList(nodes[0].kind)
  {
    if |nodes| <= 1 then |nodes|
    else if RoleInList(nodes[1].kind) == RoleInList(nodes[0].kind) then 1 + NodeRun(nodes[1..])
    else 1
  }

  /** One run of imports or consts: the single-line entries first, both kinds in order. */
  function MoveRun(run: seq<Node>, plan: Plan): (moved: seq<Node>)
    ensures forall c :: c in moved ==> c in run
  {
    if plan.moves(run) then Singles(run, plan) + Multis(run, plan) else run
  }

  function Singles(run: seq<Node>, plan: Plan): (nodes: seq<Node>)
    ensures forall c :: c in nodes ==> c in run
  {
    if run == [] then [] else (if plan.multiline(run[0]) then [] else [run[0]]) + Singles(run[1..], plan)
  }

  function Multis(run: seq<Node>, plan: Plan): (nodes: seq<Node>)
    ensures forall c :: c in nodes ==> c in run
  {
    if run == [] then [] else (if plan.multiline(run[0]) then [run[0]] else []) + Multis(run[1..], plan)
  }

  function MoveRuns(nodes: seq<Node>, plan: Plan): (moved: seq<Node>)
    ensures forall c :: c in moved ==> c in nodes
    decreases |nodes|
  {
    if nodes == [] then [] else
      var n := NodeRun(nodes);
      (if RoleInList(nodes[0].kind) == OTHER then nodes[..n] else MoveRun(nodes[..n], plan)) + MoveRuns(nodes[n..], plan)
  }

  lemma SortKeepsMembers(nodes: seq<Node>)
    ensures forall c :: c in StableSort(MemberLe, nodes) ==> c in nodes
  {
    MemberLeIsOrder();
    StableSortSorts(MemberLe, nodes);
    forall c | c in StableSort(MemberLe, nodes) ensures c in nodes {
      assert c in multiset(nodes);
    }
  }

  lemma MemberLeIsOrder()
    ensures TotalPreorder(MemberLe)
  {
  }

  predicate IsList(kind: Kind) {
    kind.Program? || kind.Block? || kind.FunctionBody? || kind.StaticBlock? || kind.SwitchCase?
  }

  /** The children of `node` in their new order, not yet rewritten themselves. */
  function Arranged(node: Node, plan: Plan): (children: seq<Node>)
    ensures forall c :: c in children ==> c in node.children
  {
    if node.kind.ClassBody? && plan.sorts(node) then
      SortKeepsMembers(node.children);
      StableSort(MemberLe, node.children)
    else if IsList(node.kind) && PrefixOf(node.kind) <= |node.children| then
      var p := PrefixOf(node.kind);
      node.children[..p] + MoveRuns(node.children[p..], plan)
    else node.children
  }

  function Reorder(node: Node, plan: Plan): Node
    decreases node, 1, 0
  {
    Node(node.kind, node.span, ReorderEach(node, Arranged(node, plan), plan))
  }

  function ReorderEach(parent: Node, nodes: seq<Node>, plan: Plan): (after: seq<Node>)
    requires forall c :: c in nodes ==> c in parent.children
    ensures |after| == |nodes|
    decreases parent, 0, |nodes|
  {
    if nodes == [] then [] else
      assert nodes[0] in nodes;
      assert exists i :: 0 <= i < |parent.children| && parent.children[i] == nodes[0];
      [Reorder(nodes[0], plan)] + ReorderEach(parent, nodes[1..], plan)
  }

  // ----- sorting class members -----

  lemma MemberIsOneEntry<D>(alg: Algebra<D>, node: Node, ctx: Context)
    requires RoleInClass(node.kind) > 0 && ctx.mode == Members
    ensures |Entries(alg, node, ctx)| == 1 && Entries(alg, node, ctx)[0].role == RoleInClass(node.kind)
  {
  }

  ghost predicate AreMembers(nodes: seq<Node>) {
    forall c :: c in nodes ==> RoleInClass(c.kind) > 0
  }

  lemma {:induction false} InsertFlat<D>(alg: Algebra<D>, node: Node, nodes: seq<Node>, ctx: Context)
    requires RoleInClass(node.kind) > 0 && AreMembers(nodes) && ctx.mode == Members
    requires |Entries(alg, node, ctx)| == 1
    ensures Flat(alg, Insert(MemberLe, node, nodes), ctx) == Insert(RoleLe<D>, Entries(alg, node, ctx)[0], Flat(alg, nodes, ctx))
  {
    MemberIsOneEntry(alg, node, ctx);
    var own := Entries(alg, node, ctx)[0];
    if nodes == [] || MemberLe(node, nodes[0]) {
      assert ([node] + nodes)[1..] == nodes;
      assert Flat(alg, [node] + nodes, ctx) == [own] + Flat(alg, nodes, ctx);
      if nodes != [] {
        MemberIsOneEntry(alg, nodes[0], ctx);
      }
    } else {
      MemberIsOneEntry(alg, nodes[0], ctx);
      InsertFlat(alg, node, nodes[1..], ctx);
      FlatHead(alg, nodes[0], nodes[1..], ctx);
      FlatHead(alg, nodes[0], Insert(MemberLe, node, nodes[1..]), ctx);
      assert nodes == [nodes[0]] + nodes[1..];
    }
  }

  lemma FlatHead<D>(alg: Algebra<D>, node: Node, nodes: seq<Node>, ctx: Context)
    requires |Entries(alg, node, ctx)| == 1
    ensures Flat(alg, [node] + nodes, ctx) == [Entries(alg, node, ctx)[0]] + Flat(alg, nodes, ctx)
    ensures Flat(alg, [node] + nodes, ctx)[1..] == Flat(alg, nodes, ctx)
  {
    assert ([node] + nodes)[1..] == nodes;
  }

  /** Sorting the members and sorting what they hash to is the same. */
  lemma {:induction false} SortFlat<D>(alg: Algebra<D>, nodes: seq<Node>, ctx: Context)
    requires AreMembers(nodes) && ctx.mode == Members
    ensures StableSort(RoleLe<D>, Flat(alg, nodes, ctx)) == Flat(alg, StableSort(MemberLe, nodes), ctx)
  {
    if nodes != [] {
      MemberIsOneEntry(alg, nodes[0], ctx);
      SortFlat(alg, nodes[1..], ctx);
      SortKeepsMembers(nodes[1..]);
      InsertFlat(alg, nodes[0], StableSort(MemberLe, nodes[1..]), ctx);
      assert nodes == [nodes[0]] + nodes[1..];
      FlatHead(alg, nodes[0], nodes[1..], ctx);
    }
  }

  lemma SortedMembersSortAlike<D>(alg: Algebra<D>, nodes: seq<Node>, ctx: Context)
    requires AreMembers(nodes) && ctx.mode == Members
    ensures StableSort(RoleLe<D>, Flat(alg, StableSort(MemberLe, nodes), ctx)) == StableSort(RoleLe<D>, Flat(alg, nodes, ctx))
  {
    var sorted := StableSort(MemberLe, nodes);
    MemberLeIsOrder();
    StableSortSorts(MemberLe, nodes);
    SortOfSorted(MemberLe, sorted);
    SortKeepsMembers(nodes);
    SortFlat(alg, nodes, ctx);
    SortFlat(alg, sorted, ctx);
  }

  // ----- moving imports and consts -----

  ghost predicate Uniform<D>(entries: seq<Entry<D>>, role: nat) {
    forall e :: e in entries ==> e.role == role
  }

  lemma SortRunOfPermutation(hash: Content<nat> -> nat, r: seq<Entry<nat>>, t: seq<Entry<nat>>, role: nat)
    requires role != OTHER && Uniform(r, role) && multiset(r) == multiset(t)
    ensures SortRun(Hashing(hash), r) == SortRun(Hashing(hash), t)
  {
    var le := ByRank(Hashing(hash));
    assert |multiset(r)| == |r| && |multiset(t)| == |t|;
    if r != [] {
      assert r[0] in r && t[0] in multiset(r);
      assert TotalPreorder(le);
      SortOfPermutation(le, r, t);
    }
  }

  /** A run may be permuted within any list: it stays inside one maximal run. */
  lemma {:induction false} PermuteInside(hash: Content<nat> -> nat, a: seq<Entry<nat>>, r: seq<Entry<nat>>, t: seq<Entry<nat>>, b: seq<Entry<nat>>, role: nat)
    requires role != OTHER && Uniform(r, role) && multiset(r) == multiset(t) && r != []
    ensures SortRuns(Hashing(hash), a + r + b) == SortRuns(Hashing(hash), a + t + b)
    decreases |a|
  {
    var alg := Hashing(hash);
    var s, s' := a + r + b, a + t + b;
    UniformPermutation(r, t, role);
    var n := RunLength(s);
    if n <= |a| {
      assert s[..n] == a[..n] == s'[..n];
      RunIs(s', n);
      assert s[n..] == a[n..] + r + b && s'[n..] == a[n..] + t + b;
      if n > 0 {
        PermuteInside(hash, a[n..], r, t, b, role);
      }
    } else {
      assert s[n - 1].role == s[0].role;
      RunCoversRun(a, r, b, role);
      var j := n - |a| - |r|;
      assert s[..n] == a + r + b[..j] && s'[..n] == a + t + b[..j];
      assert s[n..] == b[j..] == s'[n..];
      forall i | 0 <= i < n ensures s'[i].role == s'[0].role {
        assert i < |a| || i >= |a| + |r| ==> s'[i] == s[i];
      }
      RunIs(s', n);
      SortRunOfPermutation(hash, s[..n], s'[..n], role);
    }
  }

  lemma UniformPermutation<D>(r: seq<Entry<D>>, t: seq<Entry<D>>, role: nat)
    requires Uniform(r, role) && multiset(r) == multiset(t)
    ensures Uniform(t, role) && |r| == |t|
  {
    assert |multiset(r)| == |multiset(t)|;
    forall e | e in t ensures e.role == role {
      assert e in multiset(r);
    }
  }

  lemma RunCoversRun<D>(a: seq<Entry<D>>, r: seq<Entry<D>>, b: seq<Entry<D>>, role: nat)
    requires r != [] && Uniform(r, role) && RunLength(a + r + b) > |a|
    ensures RunLength(a + r + b) >= |a| + |r| && (a + r + b)[0].role == role
  {
    var s := a + r + b;
    var n := RunLength(s);
    assert s[|a|] == r[0];
    forall k | |a| <= k < |a| + |r| ensures s[k].role == role {
      assert s[k] == r[k - |a|];
    }
  }

  lemma RunNodeIsOneEntry<D>(alg: Algebra<D>, node: Node, ctx: Context)
    requires RoleInList(node.kind) != OTHER && ctx.mode == List
    ensures |Entries(alg, node, ctx)| == 1 && Entries(alg, node, ctx)[0].role == RoleInList(node.kind)
  {
  }

  ghost predicate SameRole(nodes: seq<Node>, role: nat) {
    forall c :: c in nodes ==> RoleInList(c.kind) == role
  }

  lemma {:induction false} RunIsUniform<D>(alg: Algebra<D>, run: seq<Node>, role: nat, ctx: Context)
    requires SameRole(run, role) && role != OTHER && ctx.mode == List
    ensures Uniform(Flat(alg, run, ctx), role) && |Flat(alg, run, ctx)| == |run|
  {
    if run != [] {
      RunNodeIsOneEntry(alg, run[0], ctx);
      RunIsUniform(alg, run[1..], role, ctx);
    }
  }

  ghost function Bag<D>(alg: Algebra<D>, nodes: seq<Node>, ctx: Context): multiset<Entry<D>> {
    multiset(Flat(alg, nodes, ctx))
  }

  lemma BagHead<D>(alg: Algebra<D>, node: Node, rest: seq<Node>, ctx: Context)
    ensures Bag(alg, [node] + rest, ctx) == multiset(Entries(alg, node, ctx)) + Bag(alg, rest, ctx)
  {
    hide Entries;
    assert ([node] + rest)[1..] == rest;
  }

  lemma {:induction false} SplitPermutes<D>(alg: Algebra<D>, run: seq<Node>, plan: Plan, ctx: Context)
    ensures Bag(alg, Singles(run, plan), ctx) + Bag(alg, Multis(run, plan), ctx) == Bag(alg, run, ctx)
    decreases |run|
  {
    if run == [] {
      BagEmpty(alg, plan, ctx);
    } else {
      hide Entries, Bag, Singles, Multis;
      var x, rest := run[0], run[1..];
      var singles, multis := Singles(rest, plan), Multis(rest, plan);
      SplitPermutes(alg, rest, plan, ctx);
      assert run == [x] + rest;
      BagHead(alg, x, rest, ctx);
      SplitHead(run, plan);
      AddToEither(multiset(Entries(alg, x, ctx)), Bag(alg, singles, ctx), Bag(alg, multis, ctx));
      if plan.multiline(x) {
        BagHead(alg, x, multis, ctx);
      } else {
        BagHead(alg, x, singles, ctx);
      }
    }
  }

  lemma BagEmpty<D>(alg: Algebra<D>, plan: Plan, ctx: Context)
    ensures Bag(alg, Singles([], plan), ctx) + Bag(alg, Multis([], plan), ctx) == Bag(alg, [], ctx)
  {
    assert Bag(alg, [], ctx) == multiset{};
  }

  lemma AddToEither<T>(x: multiset<T>, a: multiset<T>, b: multiset<T>)
    ensures (x + a) + b == x + (a + b) == a + (x + b)
  {
  }

  lemma SplitHead(run: seq<Node>, plan: Plan)
    requires run != []
    ensures plan.multiline(run[0]) ==> Singles(run, plan) == Singles(run[1..], plan) && Multis(run, plan) == [run[0]] + Multis(run[1..], plan)
    ensures !plan.multiline(run[0]) ==> Multis(run, plan) == Multis(run[1..], plan) && Singles(run, plan) == [run[0]] + Singles(run[1..], plan)
  {
  }

  lemma MoveRunPermutes<D>(alg: Algebra<D>, run: seq<Node>, role: nat, plan: Plan, ctx: Context)
    requires SameRole(run, role) && role != OTHER && ctx.mode == List
    ensures multiset(Flat(alg, MoveRun(run, plan), ctx)) == multiset(Flat(alg, run, ctx))
  {
    SplitPermutes(alg, run, plan, ctx);
    FlatConcat(alg, Singles(run, plan), Multis(run, plan), ctx);
  }

  /** Behind any list, moving the runs of the rest is invisible. */
  lemma {:induction false} MovesAreInvisible(hash: Content<nat> -> nat, a: seq<Entry<nat>>, nodes: seq<Node>, plan: Plan, ctx: Context)
    requires ctx.mode == List
    ensures var alg := Hashing(hash);
      SortRuns(alg, a + Flat(alg, MoveRuns(nodes, plan), ctx)) == SortRuns(alg, a + Flat(alg, nodes, ctx))
    decreases |nodes|
  {
    hide Flat, SortRuns, SameRole, MoveRun;
    if nodes != [] {
      var alg := Hashing(hash);
      var n, role := NodeRun(nodes), RoleInList(nodes[0].kind);
      var run, rest := nodes[..n], nodes[n..];
      var moved := if role == OTHER then run else MoveRun(run, plan);
      RunHasOneRole(nodes);
      MoveFirst(hash, a, run, moved, role, MoveRuns(rest, plan), plan, ctx);
      MovesAreInvisible(hash, a + Flat(alg, run, ctx), rest, plan, ctx);
      FlatBehind(alg, a, run, rest, ctx);
      assert run + rest == nodes;
    }
  }

  lemma RunHasOneRole(nodes: seq<Node>)
    requires nodes != []
    ensures SameRole(nodes[..NodeRun(nodes)], RoleInList(nodes[0].kind))
  {
  }

  lemma FlatBehind<D>(alg: Algebra<D>, a: seq<Entry<D>>, run: seq<Node>, rest: seq<Node>, ctx: Context)
    ensures a + Flat(alg, run + rest, ctx) == a + Flat(alg, run, ctx) + Flat(alg, rest, ctx)
  {
    FlatConcat(alg, run, rest, ctx);
  }

  lemma MoveFirst(hash: Content<nat> -> nat, a: seq<Entry<nat>>, run: seq<Node>, moved: seq<Node>, role: nat, rest: seq<Node>, plan: Plan, ctx: Context)
    requires ctx.mode == List && run != [] && SameRole(run, role)
    requires moved == if role == OTHER then run else MoveRun(run, plan)
    ensures var alg := Hashing(hash);
      SortRuns(alg, a + Flat(alg, moved + rest, ctx)) == SortRuns(alg, a + Flat(alg, run, ctx) + Flat(alg, rest, ctx))
  {
    var alg := Hashing(hash);
    FlatBehind(alg, a, moved, rest, ctx);
    if role != OTHER {
      RunIsUniform(alg, run, role, ctx);
      MoveRunPermutes(alg, run, role, plan, ctx);
      PermuteInside(hash, a, Flat(alg, run, ctx), Flat(alg, moved, ctx), Flat(alg, rest, ctx), role);
    }
  }

  // ----- whole trees -----

  lemma PrefixIsEntries<D>(alg: Algebra<D>, node: Node, ctx: Context)
    requires Parsed(node) && IsList(node.kind) && ctx.mode == List && ctx.logical.None?
    ensures |Flat(alg, node.children[..PrefixOf(node.kind)], ctx)| == PrefixOf(node.kind)
  {
    var first := node.children[..PrefixOf(node.kind)];
    if PrefixOf(node.kind) == 1 {
      ExpressionIsOneEntry(alg, first[0], ctx);
      assert first[1..] == [];
    }
  }

  lemma ListArrangesAlike(hash: Content<nat> -> nat, node: Node, plan: Plan, ctx: Context)
    requires Parsed(node) && IsList(node.kind) && ctx.mode == List && ctx.logical.None?
    ensures var alg := Hashing(hash);
      Arrange(alg, List, PrefixOf(node.kind), Flat(alg, Arranged(node, plan), ctx)) == Arrange(alg, List, PrefixOf(node.kind), Flat(alg, node.children, ctx))
  {
    hide SortRuns, MoveRuns, Flat;
    var alg := Hashing(hash);
    var p := PrefixOf(node.kind);
    var first, rest := node.children[..p], node.children[p..];
    PrefixIsEntries(alg, node, ctx);
    assert node.children == first + rest;
    FlatConcat(alg, first, rest, ctx);
    FlatConcat(alg, first, MoveRuns(rest, plan), ctx);
    MovesAreInvisible(hash, [], rest, plan, ctx);
    assert [] + Flat(alg, rest, ctx) == Flat(alg, rest, ctx);
    assert [] + Flat(alg, MoveRuns(rest, plan), ctx) == Flat(alg, MoveRuns(rest, plan), ctx);
  }

  lemma ArrangesAlike(hash: Content<nat> -> nat, node: Node, plan: Plan, ctx: Context, attribute: bool)
    requires Parsed(node) && ctx.mode == ModeOf(node, attribute) && (IsList(node.kind) ==> ctx.logical.None?)
    ensures var alg := Hashing(hash);
      Arrange(alg, ctx.mode, PrefixOf(node.kind), Flat(alg, Arranged(node, plan), ctx)) == Arrange(alg, ctx.mode, PrefixOf(node.kind), Flat(alg, node.children, ctx))
  {
    if node.kind.ClassBody? && plan.sorts(node) {
      SortedMembersSortAlike(Hashing(hash), node.children, ctx);
    } else if IsList(node.kind) {
      ListArrangesAlike(hash, node, plan, ctx);
    }
  }

  lemma SameChildren<D>(alg: Algebra<D>, a: Node, b: Node, ctx: Context)
    requires a.kind == b.kind && |a.children| == |b.children|
    requires Children(alg, a, Below(ctx, a), 0) == Children(alg, b, Below(ctx, a), 0)
    ensures Entries(alg, a, ctx) == Entries(alg, b, ctx)
  {
    assert Below(ctx, b) == Below(ctx, a);
  }

  /** In a list and a class body, only what the children arrange to matters. */
  lemma SameArranged<D>(alg: Algebra<D>, a: Node, b: Node, mode: Mode, ctx: Context)
    requires a.kind == b.kind && |a.children| == |b.children|
    requires IsList(a.kind) || a.kind.ClassBody?
    requires mode == Below(ctx, a).mode
    requires Arrange(alg, mode, PrefixOf(a.kind), Flat(alg, a.children, Below(ctx, a))) == Arrange(alg, mode, PrefixOf(a.kind), Flat(alg, b.children, Below(ctx, a)))
    ensures Entries(alg, a, ctx) == Entries(alg, b, ctx)
  {
    assert Below(ctx, b) == Below(ctx, a);
    ListEntries(alg, a, mode, ctx);
    ListEntries(alg, b, mode, ctx);
  }

  lemma ListEntries<D>(alg: Algebra<D>, a: Node, mode: Mode, ctx: Context)
    requires IsList(a.kind) || a.kind.ClassBody?
    requires mode == Below(ctx, a).mode
    ensures Entries(alg, a, ctx) == [Close(alg, mode, PrefixOf(a.kind), RoleIn(ctx.mode, a.kind), Tag(a.kind), Payload(a.kind), Flat(alg, a.children, Below(ctx, a)))]
  {
    ChildrenAreFlat(alg, a, Below(ctx, a), 0);
    assert a.children[0..] == a.children;
    assert [] + Flat(alg, a.children, Below(ctx, a)) == Flat(alg, a.children, Below(ctx, a));
  }

  lemma {:induction false} ReorderKeepsEntries(hash: Content<nat> -> nat, node: Node, plan: Plan, ctx: Context)
    requires Parsed(node)
    ensures Entries(Hashing(hash), Reorder(node, plan), ctx) == Entries(Hashing(hash), node, ctx)
    decreases node, 1, 0
  {
    var alg, after, below := Hashing(hash), Reorder(node, plan), Below(ctx, node);
    ArrangedLength(node, plan);
    if node.kind.If? || node.kind.Loop? {
      ReorderKeepsChildren(hash, node, plan, below, 0);
      SameChildren(alg, after, node, ctx);
    } else {
      ReorderKeepsFlat(hash, node, Arranged(node, plan), plan, below);
      RearrangedEntries(hash, node, after, plan, ctx);
    }
  }

  lemma RearrangedEntries(hash: Content<nat> -> nat, node: Node, after: Node, plan: Plan, ctx: Context)
    requires Parsed(node) && !node.kind.If? && !node.kind.Loop?
    requires after.kind == node.kind && |after.children| == |node.children|
    requires Flat(Hashing(hash), after.children, Below(ctx, node)) == Flat(Hashing(hash), Arranged(node, plan), Below(ctx, node))
    ensures Entries(Hashing(hash), after, ctx) == Entries(Hashing(hash), node, ctx)
  {
    if IsList(node.kind) || node.kind.ClassBody? {
      var below := Below(ctx, node);
      ArrangesAlike(hash, node, plan, below, ctx.attribute);
      SameArranged(Hashing(hash), after, node, below.mode, ctx);
    } else {
      FlatAlike(Hashing(hash), node, after, ctx);
    }
  }

  lemma FlatAlike<D>(alg: Algebra<D>, node: Node, after: Node, ctx: Context)
    requires !node.kind.If? && !node.kind.Loop?
    requires after.kind == node.kind && |after.children| == |node.children|
    requires Flat(alg, after.children, Below(ctx, node)) == Flat(alg, node.children, Below(ctx, node))
    ensures Entries(alg, after, ctx) == Entries(alg, node, ctx)
  {
    hide Flat, Children;
    var below := Below(ctx, node);
    ChildrenAreFlat(alg, node, below, 0);
    ChildrenAreFlat(alg, after, below, 0);
    assert node.children[0..] == node.children && after.children[0..] == after.children;
    assert Below(ctx, after) == below;
    SameChildren(alg, after, node, ctx);
  }

  lemma ArrangedLength(node: Node, plan: Plan)
    ensures |Arranged(node, plan)| == |node.children|
  {
    MemberLeIsOrder();
    StableSortSorts(MemberLe, node.children);
    if IsList(node.kind) && PrefixOf(node.kind) <= |node.children| {
      MoveRunsLength(node.children[PrefixOf(node.kind)..], plan);
    }
  }

  lemma MoveRunsLength(nodes: seq<Node>, plan: Plan)
    ensures |MoveRuns(nodes, plan)| == |nodes|
    decreases |nodes|
  {
    if nodes != [] {
      var n := NodeRun(nodes);
      SplitLength(nodes[..n], plan);
      MoveRunsLength(nodes[n..], plan);
    }
  }

  lemma SplitLength(run: seq<Node>, plan: Plan)
    ensures |Singles(run, plan)| + |Multis(run, plan)| == |run|
  {
  }

  lemma {:induction false} ReorderKeepsFlat(hash: Content<nat> -> nat, parent: Node, nodes: seq<Node>, plan: Plan, ctx: Context)
    requires Parsed(parent) && forall c :: c in nodes ==> c in parent.children
    ensures Flat(Hashing(hash), ReorderEach(parent, nodes, plan), ctx) == Flat(Hashing(hash), nodes, ctx)
    decreases parent, 0, |nodes|
  {
    if nodes != [] {
      assert nodes[0] in nodes;
      var i :| 0 <= i < |parent.children| && parent.children[i] == nodes[0];
      ReorderKeepsEntries(hash, parent.children[i], plan, ctx);
      ReorderKeepsFlat(hash, parent, nodes[1..], plan, ctx);
      var after := ReorderEach(parent, nodes, plan);
      assert after[1..] == ReorderEach(parent, nodes[1..], plan);
    }
  }

  lemma ReorderEachAt(parent: Node, nodes: seq<Node>, plan: Plan, at: nat)
    requires at < |nodes| && forall c :: c in nodes ==> c in parent.children
    ensures ReorderEach(parent, nodes, plan)[at] == Reorder(nodes[at], plan)
    decreases |nodes|
  {
    if at > 0 {
      ReorderEachAt(parent, nodes[1..], plan, at - 1);
    }
  }

  lemma {:induction false} ReorderKeepsChildren(hash: Content<nat> -> nat, node: Node, plan: Plan, ctx: Context, from: nat)
    requires Parsed(node) && (node.kind.If? || node.kind.Loop?) && from <= |node.children|
    ensures |Reorder(node, plan).children| == |node.children|
    ensures Children(Hashing(hash), Reorder(node, plan), ctx, from) == Children(Hashing(hash), node, ctx, from)
    decreases node, 0, |node.children| - from
  {
    var after := Reorder(node, plan);
    if from < |node.children| {
      hide Entries;
      ReorderEachAt(node, node.children, plan, from);
      ReorderKeepsEntries(hash, node.children[from], plan, ctx);
      ReorderKeepsEntries(hash, node.children[from], plan, SYNTHETIC);
      ReorderKeepsChildren(hash, node, plan, ctx, from + 1);
      ChildrenAlike(Hashing(hash), after, node, ctx, from);
    }
  }

  lemma ChildrenAlike<D>(alg: Algebra<D>, a: Node, b: Node, ctx: Context, i: nat)
    requires i < |a.children| == |b.children| && IsBareBody(a, i) == IsBareBody(b, i)
    requires Entries(alg, a.children[i], ctx) == Entries(alg, b.children[i], ctx)
    requires Entries(alg, a.children[i], SYNTHETIC) == Entries(alg, b.children[i], SYNTHETIC)
    requires Children(alg, a, ctx, i + 1) == Children(alg, b, ctx, i + 1)
    ensures Children(alg, a, ctx, i) == Children(alg, b, ctx, i)
  {
    hide Entries;
  }

  /** The class and declaration reorders are invisible, wherever they act. */
  lemma ReorderKeepsFingerprint(hash: Content<nat> -> nat, program: Node, plan: Plan, comments: seq<nat>)
    requires Parsed(program)
    ensures FingerprintOf(hash, Reorder(program, plan), comments) == FingerprintOf(hash, program, comments)
  {
    ReorderKeepsEntries(hash, program, plan, TOP);
  }
}
