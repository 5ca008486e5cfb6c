/**
For a hash without collisions, two programs have one fingerprint exactly when
they are the same, as Sameness says it.
*/
module SameForms {
  import opened LogicalOperators
  import opened Options
  import opened Sorting
  import opened Fingerprint
  import opened FreeForms
  import opened Passes
  import opened Sameness

  // ----- what the parser guarantees -----

  predicate IsDeclaration(kind: Kind) {
    kind.Import? || kind.Variable?
  }

  predicate IsMember(kind: Kind) {
    kind.Property? || kind.StaticBlock? || kind.Constructor? || kind.Method?
  }

  /** What may vanish holds no declarations, the test of a `case` is an expression, and a class body holds members only. */
  ghost predicate Grammatical(node: Node) {
    && (node.kind.Paren? || node.kind.EmptyStatement? || node.kind.JsxText? || node.kind.TypeList? || node.kind.JsxContainer? || node.kind.Logical? ==>
          forall i :: 0 <= i < |node.children| ==> !IsDeclaration(node.children[i].kind))
    && (node.kind == SwitchCase(true) ==>
          node.children != [] && IsExpression(node.children[0]) && !IsDeclaration(node.children[0].kind))
    && (node.kind.ClassBody? ==> forall i :: 0 <= i < |node.children| ==> IsMember(node.children[i].kind))
    && forall i :: 0 <= i < |node.children| ==> Grammatical(node.children[i])
  }

  ghost predicate GoodItem(x: Item) {
    x.Text? || (Grammatical(x.node) && (x.Shown? ==> !x.node.kind.JsxText? && !x.node.kind.Paren? && !x.node.kind.EmptyStatement?))
  }

  ghost predicate GoodItems(xs: seq<Item>) {
    forall i :: 0 <= i < |xs| ==> GoodItem(xs[i])
  }

  ghost predicate NoDeclarations(xs: seq<Item>) {
    forall i :: 0 <= i < |xs| ==> !IsImport(xs[i]) && !IsConst(xs[i])
  }

  lemma {:induction false} ItemsAreGood(node: Node, chain: Option<Operator>, attribute: bool, embedded: bool)
    requires Grammatical(node)
    ensures GoodItems(Items(node, chain, attribute, embedded))
    ensures !IsDeclaration(node.kind) ==> NoDeclarations(Items(node, chain, attribute, embedded))
    decreases node, 0
  {
    hide Weight;
    if !IsBlank(node, attribute) && Vanishes(node, chain) {
      InnerItemsAreGood(node, ChainBelow(node.kind, chain), 0);
    }
  }

  lemma {:induction false} InnerItemsAreGood(parent: Node, chain: Option<Operator>, from: nat)
    requires Grammatical(parent) && from <= |parent.children|
    ensures GoodItems(ItemsFrom(parent, chain, from))
    ensures (forall i :: from <= i < |parent.children| ==> !IsDeclaration(parent.children[i].kind)) ==> NoDeclarations(ItemsFrom(parent, chain, from))
    decreases parent, 0, |parent.children| - from
  {
    if from < |parent.children| {
      ItemsAreGood(parent.children[from], chain, parent.kind.JsxAttribute?, parent.kind.Template? && parent.kind.embedded);
      InnerItemsAreGood(parent, chain, from + 1);
    }
  }

  lemma InnerIsGood(x: Item)
    requires GoodItem(x)
    ensures GoodItems(Inner(x))
  {
    match x
    case Text(_) =>
    case Shown(node, _) => InnerItemsAreGood(node, ChainBelow(node.kind, None), 0);
    case Body(node) => ItemsAreGood(node, None, false, false);
  }

  // ----- the form of an item -----

  function ModeOfItem(x: Item): Mode {
    if x.Text? then Ordered else if HasStatements(HeadOf(x)) then List else if HeadOf(x).ClassBody? then Members else Ordered
  }

  function RoleOfItem(mode: Mode, x: Item): nat {
    if mode == List then (if IsImport(x) then IMPORT else if IsConst(x) then CONST else OTHER)
    else if mode == Members then (if IsProperty(x) then 1 else if IsConstructor(x) then 2 else if IsMethod(x) then 3 else 0)
    else OTHER
  }

  function FormOf(hash: Content<nat> -> nat, x: Item): Form
    decreases Size(x) + 1, 0
  {
    if x.Text? then Form(WORD, x.word, []) else
      InnerIsSmaller(x);
      Form(Tag(HeadOf(x)), Payload(HeadOf(x)), Digests(Arrange(Free(hash), ModeOfItem(x), 0, EntriesOf(hash, Inner(x), ModeOfItem(x)))))
  }

  function EntriesOf(hash: Content<nat> -> nat, xs: seq<Item>, mode: Mode): (es: seq<Entry<Form>>)
    ensures |es| == |xs|
    decreases Cost(xs), 1
  {
    if xs == [] then [] else [Entry(RoleOfItem(mode, xs[0]), FormOf(hash, xs[0]))] + EntriesOf(hash, xs[1..], mode)
  }

  lemma {:induction false} EntriesOfAt(hash: Content<nat> -> nat, xs: seq<Item>, mode: Mode, i: nat)
    requires i < |xs|
    ensures EntriesOf(hash, xs, mode)[i] == Entry(RoleOfItem(mode, xs[i]), FormOf(hash, xs[i]))
    decreases |xs|
  {
    hide FormOf;
    if i > 0 {
      EntriesOfAt(hash, xs[1..], mode, i - 1);
    }
  }

  lemma {:induction false} EntriesOfConcat(hash: Content<nat> -> nat, a: seq<Item>, b: seq<Item>, mode: Mode)
    ensures EntriesOf(hash, a + b, mode) == EntriesOf(hash, a, mode) + EntriesOf(hash, b, mode)
    decreases |a|
  {
    hide FormOf;
    if a == [] {
      assert a + b == b;
    } else {
      assert (a + b)[1..] == a[1..] + b;
      EntriesOfConcat(hash, a[1..], b, mode);
    }
  }

  lemma EntriesOfOne(hash: Content<nat> -> nat, x: Item, mode: Mode)
    ensures EntriesOf(hash, [x], mode) == [Entry(RoleOfItem(mode, x), FormOf(hash, x))]
  {
    hide FormOf;
    assert [x][1..] == [];
    assert EntriesOf(hash, [x][1..], mode) == [];
  }

  lemma {:induction false} NoRoles(hash: Content<nat> -> nat, xs: seq<Item>, mode: Mode)
    requires NoDeclarations(xs) && mode != Members
    ensures EntriesOf(hash, xs, mode) == EntriesOf(hash, xs, Transparent)
    decreases |xs|
  {
    hide FormOf;
    if xs != [] {
      NoRoles(hash, xs[1..], mode);
    }
  }

  lemma {:induction false} WordEntries(hash: Content<nat> -> nat, words: seq<nat>)
    ensures EntriesOf(hash, WordsOf(words), Transparent) == Words(Free(hash), words)
    decreases |words|
  {
    if words != [] {
      assert WordsOf(words)[1..] == WordsOf(words[1..]);
      WordEntries(hash, words[1..]);
      assert Words(Free(hash), words) == [Entry(OTHER, Form(WORD, words[0], []))] + Words(Free(hash), words[1..]);
    }
  }

  // ----- the walk's entries are the items' -----

  /** A role other than none comes from a declaration in a list, or a member of a class. */
  lemma KindRoles(node: Node, mode: Mode, embedded: bool)
    requires mode != Members || IsMember(node.kind)
    ensures RoleIn(mode, node.kind) == RoleOfItem(mode, Shown(node, embedded))
  {
  }

  lemma ShownMode(node: Node, ctx: Context, embedded: bool)
    requires !IsBlank(node, ctx.attribute) && !Vanishes(node, ctx.logical)
    ensures ModeIn(ctx, node) == ModeOfItem(Shown(node, embedded))
  {
  }

  lemma VanishedMode(node: Node, ctx: Context)
    requires !IsBlank(node, ctx.attribute) && Vanishes(node, ctx.logical)
    ensures ModeIn(ctx, node) == Transparent && !IsDeclaration(node.kind) && !IsMember(node.kind)
  {
  }

  lemma BlankMode(node: Node, ctx: Context)
    requires IsBlank(node, ctx.attribute)
    ensures ModeIn(ctx, node) == Skip
  {
  }

  lemma SortRunsIs(alg: Algebra<Form>, s: seq<Entry<Form>>)
    requires s != []
    ensures SortRuns(alg, s) == SortRun(alg, s[..RunLength(s)]) + SortRuns(alg, s[RunLength(s)..])
  {
  }

  lemma NoRuns(alg: Algebra<Form>)
    ensures SortRuns(alg, []) == []
  {
  }

  /** An entry that is none of a run stands for itself. */
  lemma OtherFirst(alg: Algebra<Form>, e: Entry<Form>, s: seq<Entry<Form>>)
    requires e.role == OTHER
    ensures SortRuns(alg, [e] + s) == [e] + SortRuns(alg, s)
  {
    hide SortRuns, RunLength;
    var all := [e] + s;
    SortRunsIs(alg, all);
    if s == [] || s[0].role != OTHER {
      RunIs(all, 1);
      assert all[..1] == [e] && all[1..] == s;
    } else {
      var n := RunLength(s);
      SortRunsIs(alg, s);
      assert forall i :: 0 < i < |all| ==> all[i] == s[i - 1];
      RunIs(all, n + 1);
      assert all[..n + 1] == [e] + s[..n] && all[n + 1..] == s[n..];
    }
  }

  /** The test of a `case` is no part of any run. */
  lemma PrefixIsNoRun(alg: Algebra<Form>, prefix: nat, s: seq<Entry<Form>>)
    requires prefix <= 1 && (prefix == 1 ==> s != [] && s[0].role == OTHER)
    ensures Arrange(alg, List, prefix, s) == Arrange(alg, List, 0, s)
  {
    if prefix == 1 {
      OtherFirst(alg, s[0], s[1..]);
      assert s == [s[0]] + s[1..] && s[..1] == [s[0]];
    }
    assert s[0..] == s && s[..0] == [];
  }

  lemma {:induction false} EntriesAreItems(hash: Content<nat> -> nat, node: Node, ctx: Context)
    requires Grammatical(node) && (ctx.mode == Members ==> IsMember(node.kind))
    ensures Entries(Free(hash), node, ctx) == EntriesOf(hash, Items(node, ctx.logical, ctx.attribute, ctx.embedded), ctx.mode)
    decreases node, 1
  {
    hide FormOf, Arrange, ItemsFrom, Children, Tag, Payload;
    var below := Below(ctx, node);
    if IsBlank(node, ctx.attribute) {
      BlankMode(node, ctx);
    } else if Vanishes(node, ctx.logical) {
      VanishedMode(node, ctx);
      VanishedEntries(hash, node, ctx);
    } else {
      ShownMode(node, ctx, ctx.embedded);
      ShownEntry(hash, node, ctx);
    }
  }

  lemma {:induction false} VanishedEntries(hash: Content<nat> -> nat, node: Node, ctx: Context)
    requires Grammatical(node) && ctx.mode != Members && !IsBlank(node, ctx.attribute) && Vanishes(node, ctx.logical)
    ensures Entries(Free(hash), node, ctx) == EntriesOf(hash, Items(node, ctx.logical, ctx.attribute, ctx.embedded), ctx.mode)
    decreases node, 0
  {
    VanishedMode(node, ctx);
    var below := Below(ctx, node);
    ChildrenAreItems(hash, node, below, 0);
    var inner := ItemsFrom(node, ChainBelow(node.kind, ctx.logical), 0);
    var words := if node.kind.JsxText? then WordsOf(node.kind.words) else [];
    hide FormOf, Arrange, ItemsFrom, Children, Tag, Payload;
    if node.kind.JsxText? {
      WordEntries(hash, node.kind.words);
    }
    EntriesOfConcat(hash, words, inner, Transparent);
    ItemsAreGood(node, ctx.logical, ctx.attribute, ctx.embedded);
    NoRoles(hash, Items(node, ctx.logical, ctx.attribute, ctx.embedded), ctx.mode);
  }

  lemma {:induction false} ShownEntry(hash: Content<nat> -> nat, node: Node, ctx: Context)
    requires Grammatical(node) && (ctx.mode == Members ==> IsMember(node.kind)) && !IsBlank(node, ctx.attribute) && !Vanishes(node, ctx.logical)
    ensures Entries(Free(hash), node, ctx) == [Entry(RoleOfItem(ctx.mode, Shown(node, ctx.embedded)), FormOf(hash, Shown(node, ctx.embedded)))]
    ensures EntriesOf(hash, [Shown(node, ctx.embedded)], ctx.mode) == Entries(Free(hash), node, ctx)
    decreases node, 0
  {
    var x, below := Shown(node, ctx.embedded), Below(ctx, node);
    ShownMode(node, ctx, ctx.embedded);
    KindRoles(node, ctx.mode, ctx.embedded);
    ShownChain(node, ctx);
    ShownPayload(node, ctx);
    ChildrenAreItems(hash, node, below, 0);
    if below.mode == List {
      TestIsFirst(hash, node, ctx, x);
    }
    EntriesOfOne(hash, x, ctx.mode);
    hide Arrange, ItemsFrom, Children, EntriesOf, Tag, Payload, FormOf, Entries, HeadOf;
    SameArrangement(Free(hash), below.mode, PrefixOf(node.kind), EntriesOf(hash, Inner(x), below.mode));
    EntriesIs(hash, node, ctx);
    FormIs(hash, x);
  }

  lemma SameArrangement(alg: Algebra<Form>, mode: Mode, prefix: nat, s: seq<Entry<Form>>)
    requires mode == List ==> prefix <= 1 && (prefix == 1 ==> s != [] && s[0].role == OTHER)
    ensures Arrange(alg, mode, prefix, s) == Arrange(alg, mode, 0, s)
  {
    if mode == List {
      PrefixIsNoRun(alg, prefix, s);
    }
  }

  lemma EntriesIs(hash: Content<nat> -> nat, node: Node, ctx: Context)
    requires !node.kind.JsxText? && ModeIn(ctx, node) != Transparent && ModeIn(ctx, node) != Skip
    ensures var mode, payload := ModeIn(ctx, node), if node.kind.Quasi? && ctx.embedded then 0 else Payload(node.kind);
      var arranged := Arrange(Free(hash), mode, PrefixOf(node.kind), Children(Free(hash), node, Below(ctx, node), 0));
      Entries(Free(hash), node, ctx) == [Entry(RoleIn(ctx.mode, node.kind), Form(Tag(node.kind), payload, Digests(arranged)))]
  {
    hide Arrange, Children, Tag, Payload;
    assert [] + Children(Free(hash), node, Below(ctx, node), 0) == Children(Free(hash), node, Below(ctx, node), 0);
  }

  lemma FormIs(hash: Content<nat> -> nat, x: Item)
    requires !x.Text?
    ensures FormOf(hash, x) == Form(Tag(HeadOf(x)), Payload(HeadOf(x)), Digests(Arrange(Free(hash), ModeOfItem(x), 0, EntriesOf(hash, Inner(x), ModeOfItem(x)))))
  {
    hide Arrange, EntriesOf, Tag, Payload, HeadOf;
  }

  lemma ShownPayload(node: Node, ctx: Context)
    ensures Tag(HeadOf(Shown(node, ctx.embedded))) == Tag(node.kind)
    ensures Payload(HeadOf(Shown(node, ctx.embedded))) == if node.kind.Quasi? && ctx.embedded then 0 else Payload(node.kind)
  {
  }

  lemma ShownChain(node: Node, ctx: Context)
    requires !Vanishes(node, ctx.logical)
    ensures Below(ctx, node).logical == ChainBelow(node.kind, None)
    ensures !node.kind.JsxText?
  {
  }

  /** A tested `case` has its test first, one item and no declaration. */
  lemma TestIsFirst(hash: Content<nat> -> nat, node: Node, ctx: Context, x: Item)
    requires Grammatical(node) && x == Shown(node, ctx.embedded) && ModeOfItem(x) == List
    ensures PrefixOf(node.kind) <= 1
    ensures PrefixOf(node.kind) == 1 ==> var es := EntriesOf(hash, Inner(x), List); es != [] && es[0].role == OTHER
  {
    hide FormOf;
    if PrefixOf(node.kind) == 1 {
      assert node.kind == SwitchCase(true);
      var test := node.children[0];
      ItemsAreGood(test, None, false, false);
      ExpressionIsOneItem(test, None);
      assert Inner(x) == Items(test, None, false, false) + ItemsFrom(node, None, 1);
    }
  }

  lemma {:induction false} ExpressionIsOneItem(node: Node, chain: Option<Operator>)
    requires IsExpression(node) && chain.None?
    ensures |Items(node, chain, false, false)| == 1
    decreases node
  {
    if node.kind.Paren? {
      ExpressionIsOneItem(node.children[0], chain);
      assert ItemsFrom(node, chain, 1) == [];
      assert ItemsFrom(node, chain, 0) == Items(node.children[0], chain, false, false) + [];
    }
  }

  lemma {:induction false} ChildrenAreItems(hash: Content<nat> -> nat, parent: Node, ctx: Context, from: nat)
    requires Grammatical(parent) && from <= |parent.children| && (ctx.mode == Members ==> parent.kind.ClassBody?)
    requires ctx.attribute == parent.kind.JsxAttribute? && ctx.embedded == (parent.kind.Template? && parent.kind.embedded)
    ensures Children(Free(hash), parent, ctx, from) == EntriesOf(hash, ItemsFrom(parent, ctx.logical, from), ctx.mode)
    decreases parent, 0, |parent.children| - from
  {
    hide Entries, Items, FormOf, Grammatical, Child, IsBody, IsBareBody;
    if from < |parent.children| {
      hide *;
      ChildIsItem(hash, parent, ctx, from);
      ChildrenAreItems(hash, parent, ctx, from + 1);
      EntriesOfConcat(hash, ItemsAt(parent, ctx.logical, from), ItemsFrom(parent, ctx.logical, from + 1), ctx.mode);
      NextChild(Free(hash), parent, ctx, from);
    }
  }

  lemma NextChild(alg: Algebra<Form>, parent: Node, ctx: Context, from: nat)
    requires from < |parent.children|
    requires ctx.attribute == parent.kind.JsxAttribute? && ctx.embedded == (parent.kind.Template? && parent.kind.embedded)
    ensures Children(alg, parent, ctx, from) == Child(alg, parent.children[from], ctx, IsBareBody(parent, from)) + Children(alg, parent, ctx, from + 1)
    ensures ItemsFrom(parent, ctx.logical, from) == ItemsAt(parent, ctx.logical, from) + ItemsFrom(parent, ctx.logical, from + 1)
  {
    hide Child, Items, IsBody, IsBareBody;
  }

  /** What stands for one child. */
  function ItemsAt(parent: Node, chain: Option<Operator>, at: nat): seq<Item>
    requires at < |parent.children|
  {
    var child := parent.children[at];
    if IsBody(parent, at) then [Body(child)] else Items(child, chain, parent.kind.JsxAttribute?, parent.kind.Template? && parent.kind.embedded)
  }

  lemma {:induction false} ChildIsItem(hash: Content<nat> -> nat, parent: Node, ctx: Context, at: nat)
    requires Grammatical(parent) && at < |parent.children| && (ctx.mode == Members ==> parent.kind.ClassBody?)
    requires ctx.attribute == parent.kind.JsxAttribute? && ctx.embedded == (parent.kind.Template? && parent.kind.embedded)
    ensures Child(Free(hash), parent.children[at], ctx, IsBareBody(parent, at)) == EntriesOf(hash, ItemsAt(parent, ctx.logical, at), ctx.mode)
    decreases parent, 0, 0
  {
    hide Entries, FormOf, EntriesOf, Items;
    var child := parent.children[at];
    assert IsBody(parent, at) == IsBareBody(parent, at);
    if IsBody(parent, at) {
      BodyEntry(hash, child, ctx.mode);
    } else {
      EntriesAreItems(hash, child, ctx);
    }
  }

  lemma {:induction false} BodyEntry(hash: Content<nat> -> nat, child: Node, mode: Mode)
    requires Grammatical(child)
    ensures EntriesOf(hash, [Body(child)], mode) == [Close(Free(hash), List, 0, OTHER, BLOCK, 0, Entries(Free(hash), child, SYNTHETIC))]
    decreases child, 2
  {
    hide Arrange;
    EntriesAreItems(hash, child, SYNTHETIC);
    EntriesOfOne(hash, Body(child), mode);
  }
}
