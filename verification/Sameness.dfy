/**
When two programs are the same to the fingerprint, told of their syntax trees
alone: what is left out, what is not compared, and which orders are free. For a
hash without collisions, equal fingerprints are this and nothing else.
*/
module Sameness {
  import opened LogicalOperators
  import opened Options
  import opened Sorting
  import opened Fingerprint
  import opened FreeForms
  import opened Passes

  // ----- what is left out -----

  /** A child as it counts: a word of JSX text, a node, or a bare body, which counts as a block of that statement. */
  datatype Item = Text(word: nat) | Shown(node: Node, embedded: bool) | Body(node: Node)

  /** A blank string between JSX tags. */
  predicate IsBlank(node: Node, attribute: bool) {
    node.kind.JsxContainer? && node.kind.holdsString && node.kind.blank && !attribute
  }

  /** What is not there itself, though its children are; `chain` is the operator of the logical chain it is in. */
  predicate Vanishes(node: Node, chain: Option<Operator>) {
    match node.kind
    case Paren => true
    case EmptyStatement => true
    case JsxText(_) => true
    case TypeList(_) => |node.children| == 1
    case JsxContainer(holdsString, _) => holdsString
    case Logical(operator) => chain == Some(operator)
    case _ => false
  }

  function ChainBelow(kind: Kind, chain: Option<Operator>): Option<Operator> {
    match kind
    case Logical(operator) => Some(operator)
    case Paren => chain
    case _ => None
  }

  /** The body of an `if`, an `else` or a loop, if it is not a block; an `else if` is not a body. */
  predicate IsBody(node: Node, i: nat)
    requires i < |node.children|
  {
    && ((node.kind.If? && (i == 1 || (i == 2 && !node.children[i].kind.If?))) || (node.kind.Loop? && i == node.kind.body))
    && !node.children[i].kind.Block?
  }

  function WordsOf(words: seq<nat>): (items: seq<Item>)
    ensures |items| == |words| && forall i :: 0 <= i < |words| ==> items[i] == Text(words[i])
  {
    seq(|words|, i requires 0 <= i < |words| => Text(words[i]))
  }

  /** What stands for a node among the children of its parent. */
  function Items(node: Node, chain: Option<Operator>, attribute: bool, embedded: bool): seq<Item>
    decreases node, 0
  {
    if IsBlank(node, attribute) then [] else
    if !Vanishes(node, chain) then [Shown(node, embedded)] else
      (if node.kind.JsxText? then WordsOf(node.kind.words) else []) + ItemsFrom(node, ChainBelow(node.kind, chain), 0)
  }

  function ItemsFrom(parent: Node, chain: Option<Operator>, from: nat): seq<Item>
    requires from <= |parent.children|
    decreases parent, 0, |parent.children| - from
  {
    if from == |parent.children| then [] else
      var child := parent.children[from];
      (if IsBody(parent, from) then [Body(child)]
       else Items(child, chain, parent.kind.JsxAttribute?, parent.kind.Template? && parent.kind.embedded))
      + ItemsFrom(parent, chain, from + 1)
  }

  /** The children of an item, as they count. */
  function Inner(x: Item): seq<Item> {
    match x
    case Text(_) => []
    case Shown(node, _) => ItemsFrom(node, ChainBelow(node.kind, None), 0)
    case Body(node) => Items(node, None, false, false)
  }

  // ----- what is not compared -----

  /**
  Quoting of keys and strings, the keyword behind a `const`, whether a `case` has
  a test and a template is another language: these show in the children, if at
  all.
  */
  predicate SameKind(a: Kind, b: Kind) {
    match (a, b)
    case (Word(_, s), Word(_, t)) => s == t
    case (Variable(c, k), Variable(d, l)) => c == d && (c || k == l)
    case (SwitchCase(_), SwitchCase(_)) => true
    case (Loop(f, _), Loop(g, _)) => f == g
    case (Template(_), Template(_)) => true
    case (JsxContainer(_, _), JsxContainer(_, _)) => true
    case _ => a == b
  }

  /** The text of a template in another language counts as none. */
  function HeadOf(x: Item): Kind
    requires !x.Text?
  {
    if x.Body? then Block else if x.node.kind.Quasi? && x.embedded then Quasi(0) else x.node.kind
  }

  predicate AlikeHeads(x: Item, y: Item) {
    if x.Text? || y.Text? then x == y else SameKind(HeadOf(x), HeadOf(y))
  }

  // ----- which orders are free -----

  predicate IsImport(x: Item) {
    x.Shown? && x.node.kind.Import?
  }

  predicate IsConst(x: Item) {
    x.Shown? && x.node.kind.Variable? && x.node.kind.isConst
  }

  predicate IsProperty(x: Item) {
    x.Shown? && (x.node.kind.Property? || x.node.kind.StaticBlock?)
  }

  predicate IsConstructor(x: Item) {
    x.Shown? && x.node.kind.Constructor?
  }

  predicate IsMethod(x: Item) {
    x.Shown? && x.node.kind.Method?
  }

  predicate HasStatements(kind: Kind) {
    kind.Program? || kind.Block? || kind.FunctionBody? || kind.StaticBlock? || kind.SwitchCase?
  }

  /** How many items a list begins with that are of one kind. */
  function Leading(keep: Item -> bool, xs: seq<Item>): (n: nat)
    ensures n <= |xs| && (forall i :: 0 <= i < n ==> keep(xs[i])) && (n < |xs| ==> !keep(xs[n]))
  {
    if xs == [] || !keep(xs[0]) then 0 else 1 + Leading(keep, xs[1..])
  }

  /** The maximal run of imports or of consts a list begins with, or else its first item. */
  function FirstRun(xs: seq<Item>): (n: nat)
    requires xs != []
    ensures 0 < n <= |xs|
  {
    if IsImport(xs[0]) then Leading(IsImport, xs) else if IsConst(xs[0]) then Leading(IsConst, xs) else 1
  }

  // How large items are, for the recursion below.

  function Weight(node: Node): nat
    decreases node, 0
  {
    (if node.kind.JsxText? then |node.kind.words| else 0) + WeightFrom(node, 0)
  }

  function WeightFrom(node: Node, from: nat): nat
    requires from <= |node.children|
    decreases node, 0, |node.children| - from
  {
    if from == |node.children| then 0 else Weight(node.children[from]) + 2 + WeightFrom(node, from + 1)
  }

  function Size(x: Item): nat {
    match x
    case Text(_) => 0
    case Shown(node, _) => Weight(node)
    case Body(node) => Weight(node) + 1
  }

  function Cost(xs: seq<Item>): nat {
    if xs == [] then 0 else Size(xs[0]) + 1 + Cost(xs[1..])
  }

  lemma {:induction false} CostConcat(a: seq<Item>, b: seq<Item>)
    ensures Cost(a + b) == Cost(a) + Cost(b)
    decreases |a|
  {
    if a == [] {
      assert a + b == b;
    } else {
      assert (a + b)[1..] == a[1..] + b;
      CostConcat(a[1..], b);
    }
  }

  lemma CostOne(x: Item)
    ensures Cost([x]) == Size(x) + 1
  {
    assert [x][1..] == [];
    assert Cost([x][1..]) == 0;
  }

  lemma {:induction false} CostOfWords(words: seq<nat>)
    ensures Cost(WordsOf(words)) == |words|
    decreases |words|
  {
    if words != [] {
      assert WordsOf(words)[1..] == WordsOf(words[1..]);
      CostOfWords(words[1..]);
    }
  }

  lemma {:induction false} CostOfItems(node: Node, chain: Option<Operator>, attribute: bool, embedded: bool)
    ensures Cost(Items(node, chain, attribute, embedded)) <= Weight(node) + 1
    decreases node, 0
  {
    if IsBlank(node, attribute) {
    } else if !Vanishes(node, chain) {
      CostOne(Shown(node, embedded));
    } else {
      var words := if node.kind.JsxText? then WordsOf(node.kind.words) else [];
      if node.kind.JsxText? {
        CostOfWords(node.kind.words);
      }
      CostConcat(words, ItemsFrom(node, ChainBelow(node.kind, chain), 0));
      CostFrom(node, ChainBelow(node.kind, chain), 0);
    }
  }

  lemma {:induction false} CostFrom(parent: Node, chain: Option<Operator>, from: nat)
    requires from <= |parent.children|
    ensures Cost(ItemsFrom(parent, chain, from)) <= WeightFrom(parent, from)
    decreases parent, 0, |parent.children| - from
  {
    if from < |parent.children| {
      var child := parent.children[from];
      var attribute, embedded := parent.kind.JsxAttribute?, parent.kind.Template? && parent.kind.embedded;
      CostOfItems(child, chain, attribute, embedded);
      CostOne(Body(child));
      CostFrom(parent, chain, from + 1);
      CostConcat(if IsBody(parent, from) then [Body(child)] else Items(child, chain, attribute, embedded), ItemsFrom(parent, chain, from + 1));
    }
  }

  lemma InnerIsSmaller(x: Item)
    ensures Cost(Inner(x)) <= Size(x)
  {
    match x
    case Text(_) =>
    case Shown(node, _) => CostFrom(node, ChainBelow(node.kind, None), 0);
    case Body(node) => CostOfItems(node, None, false, false);
  }

  lemma CostSplit(xs: seq<Item>, n: nat)
    requires n <= |xs|
    ensures Cost(xs[..n]) + Cost(xs[n..]) == Cost(xs)
    ensures n > 0 ==> Cost(xs[n..]) < Cost(xs)
  {
    CostConcat(xs[..n], xs[n..]);
    assert xs[..n] + xs[n..] == xs;
  }

  lemma {:induction false} CostOfFilter(keep: Item -> bool, xs: seq<Item>)
    ensures Cost(Filter(keep, xs)) <= Cost(xs)
    decreases |xs|
  {
    if xs != [] {
      CostOfFilter(keep, xs[1..]);
      var head := if keep(xs[0]) then [xs[0]] else [];
      CostConcat(head, Filter(keep, xs[1..]));
      CostOne(xs[0]);
    }
  }

  /**
  Two items are the same: the same head, and the same children, in order; but
  statements may differ in the order within a maximal run of imports or of
  consts, and class members in how properties, constructors and methods are
  mixed.
  */
  ghost predicate Alike(x: Item, y: Item)
    decreases Size(x) + 1, 0
  {
    && AlikeHeads(x, y)
    && (x.Text? ||
        (InnerIsSmaller(x);
         if HasStatements(HeadOf(x)) then AlikeStatements(Inner(x), Inner(y))
         else if HeadOf(x).ClassBody? then AlikeMembers(Inner(x), Inner(y))
         else AlikeInOrder(Inner(x), Inner(y))))
  }

  ghost predicate AlikeInOrder(xs: seq<Item>, ys: seq<Item>)
    decreases Cost(xs), 1
  {
    |xs| == |ys| && (xs == [] || (Alike(xs[0], ys[0]) && AlikeInOrder(xs[1..], ys[1..])))
  }

  ghost predicate AlikeInAnyOrder(xs: seq<Item>, ys: seq<Item>)
    decreases Cost(xs), 1
  {
    && |xs| == |ys|
    && (xs == [] || exists k :: 0 <= k < |ys| && Alike(xs[0], ys[k]) && AlikeInAnyOrder(xs[1..], ys[..k] + ys[k + 1..]))
  }

  ghost predicate AlikeStatements(xs: seq<Item>, ys: seq<Item>)
    decreases Cost(xs), 2
  {
    if xs == [] then ys == [] else
      var n := FirstRun(xs);
      CostSplit(xs, n);
      n <= |ys| && AlikeInAnyOrder(xs[..n], ys[..n]) && AlikeStatements(xs[n..], ys[n..])
  }

  ghost predicate AlikeMembers(xs: seq<Item>, ys: seq<Item>)
    decreases Cost(xs), 2
  {
    CostOfFilter(IsProperty, xs);
    CostOfFilter(IsConstructor, xs);
    CostOfFilter(IsMethod, xs);
    && AlikeInOrder(Filter(IsProperty, xs), Filter(IsProperty, ys))
    && AlikeInOrder(Filter(IsConstructor, xs), Filter(IsConstructor, ys))
    && AlikeInOrder(Filter(IsMethod, xs), Filter(IsMethod, ys))
  }
}
