/**
Why a chain of one logical operator may hash as one node: two logical
expressions with the same fingerprint evaluate to the same value, run the same
operands in the same order and stop at the same one. An operand is anything
that is neither a logical expression nor parentheses; its value may depend on
everything evaluated before it.
*/
module LogicalChains {
  import opened LogicalOperators
  import opened Options
  import opened Fingerprint
  import opened FreeForms

  datatype Value = Value(id: nat, truthy: bool, nullish: bool)

  /** The operands evaluated so far, in order. */
  type Trace = seq<Form>

  /** How an operand evaluates after a trace. */
  type Behaviour = (Form, Trace) -> Value

  datatype Outcome = Outcome(value: Value, trace: Trace)

  predicate Stops(operator: Operator, value: Value) {
    match operator
    case And => !value.truthy
    case Or => value.truthy
    case Coalesce => !value.nullish
  }

  ghost predicate IsLogical(node: Node) {
    match node.kind
    case Logical(_) => |node.children| == 2 && IsLogical(node.children[0]) && IsLogical(node.children[1])
    case Paren => |node.children| == 1 && IsLogical(node.children[0])
    case EmptyStatement => false
    case JsxText(_) => false
    case JsxContainer(_, _) => false
    case TypeList(_) => false
    case Quasi(_) => false
    case _ => true
  }

  /** What an operand keeps once layout is gone. */
  function Operand(hash: Content<nat> -> nat, node: Node): Form
    requires IsLogical(node) && !node.kind.Logical? && !node.kind.Paren?
  {
    OperandIsOne(hash, node, TOP);
    Entries(Free(hash), node, TOP)[0].digest
  }

  lemma OperandIsOne(hash: Content<nat> -> nat, node: Node, ctx: Context)
    requires IsLogical(node) && !node.kind.Logical? && !node.kind.Paren?
    ensures |Entries(Free(hash), node, ctx)| == 1 && |Entries(Free(hash), node, TOP)| == 1
    ensures Entries(Free(hash), node, ctx)[0].digest == Entries(Free(hash), node, TOP)[0].digest
    ensures Entries(Free(hash), node, ctx)[0].digest.tag != LOGICAL
  {
    assert Below(ctx, node) == Below(TOP, node);
  }

  /** The evaluation of ECMAScript: the left operand first, the right one unless the left decides. */
  function Eval(hash: Content<nat> -> nat, run: Behaviour, node: Node, trace: Trace): Outcome
    requires IsLogical(node)
    decreases node
  {
    match node.kind
    case Logical(operator) =>
      var left := Eval(hash, run, node.children[0], trace);
      if Stops(operator, left.value) then left else Eval(hash, run, node.children[1], left.trace)
    case Paren => Eval(hash, run, node.children[0], trace)
    case _ => var operand := Operand(hash, node); Outcome(run(operand, trace), trace + [operand])
  }

  function OperatorOf(payload: nat): Operator {
    if payload == 1 then And else if payload == 2 then Or else Coalesce
  }

  /** The evaluation of a form: a chain runs its operands until one decides. */
  function EvalForm(run: Behaviour, form: Form, trace: Trace): Outcome
    decreases form, 1
  {
    if form.tag == LOGICAL && form.kids != [] then EvalChain(run, OperatorOf(form.payload), form.kids, trace)
    else Outcome(run(form, trace), trace + [form])
  }

  function EvalChain(run: Behaviour, operator: Operator, forms: seq<Form>, trace: Trace): Outcome
    requires forms != []
    decreases forms, 0
  {
    var first := EvalForm(run, forms[0], trace);
    if |forms| == 1 || Stops(operator, first.value) then first else EvalChain(run, operator, forms[1..], first.trace)
  }

  lemma {:induction false} EvalChainConcat(run: Behaviour, operator: Operator, a: seq<Form>, b: seq<Form>, trace: Trace)
    requires a != [] && b != []
    ensures EvalChain(run, operator, a + b, trace) ==
      var left := EvalChain(run, operator, a, trace);
      if Stops(operator, left.value) then left else EvalChain(run, operator, b, left.trace)
    decreases |a|
  {
    var first := EvalForm(run, a[0], trace);
    assert (a + b)[1..] == a[1..] + b;
    if |a| == 1 {
      assert a[1..] + b == b;
    } else if !Stops(operator, first.value) {
      EvalChainConcat(run, operator, a[1..], b, first.trace);
    }
  }

  /** The operands an expression adds to the chain around it. */
  function Links(hash: Content<nat> -> nat, node: Node, chain: Option<Operator>): seq<Form>
    requires IsLogical(node)
    decreases node
  {
    match node.kind
    case Logical(operator) =>
      var links := Links(hash, node.children[0], Some(operator)) + Links(hash, node.children[1], Some(operator));
      if chain == Some(operator) then links else [Form(LOGICAL, OperatorByte(operator), links)]
    case Paren => Links(hash, node.children[0], chain)
    case _ => [Operand(hash, node)]
  }

  /** The walk's flattening is exactly the links. */
  lemma {:induction false} FormsAreLinks(hash: Content<nat> -> nat, node: Node, ctx: Context)
    requires IsLogical(node)
    ensures FormsOf(hash, node, ctx) == Links(hash, node, ctx.logical)
    decreases node
  {
    var below := Below(ctx, node);
    match node.kind
    case Logical(operator) =>
      FormsAreLinks(hash, node.children[0], below);
      FormsAreLinks(hash, node.children[1], below);
      TwoChildren(hash, node, below);
      ChainForms(hash, node, ctx);
    case Paren =>
      FormsAreLinks(hash, node.children[0], below);
      assert Children(Free(hash), node, below, 1) == [];
      assert Children(Free(hash), node, below, 0) == Entries(Free(hash), node.children[0], below);
    case _ =>
      OperandIsOne(hash, node, ctx);
  }

  lemma TwoChildren(hash: Content<nat> -> nat, node: Node, ctx: Context)
    requires node.kind.Logical? && |node.children| == 2
    ensures Digests(Children(Free(hash), node, ctx, 0)) == FormsOf(hash, node.children[0], ctx) + FormsOf(hash, node.children[1], ctx)
  {
    hide Entries;
    assert Children(Free(hash), node, ctx, 2) == [];
    assert Children(Free(hash), node, ctx, 1) == Entries(Free(hash), node.children[1], ctx);
  }

  lemma ChainForms(hash: Content<nat> -> nat, node: Node, ctx: Context)
    requires node.kind.Logical?
    ensures var links := Digests(Children(Free(hash), node, Below(ctx, node), 0));
      FormsOf(hash, node, ctx) == if ctx.logical == Some(node.kind.operator) then links else [Form(LOGICAL, OperatorByte(node.kind.operator), links)]
  {
    var children := Children(Free(hash), node, Below(ctx, node), 0);
    assert [] + children == children;
  }

  lemma {:induction false} LinksAreNotEmpty(hash: Content<nat> -> nat, node: Node, chain: Option<Operator>)
    requires IsLogical(node)
    ensures Links(hash, node, chain) != []
    decreases node
  {
    match node.kind
    case Logical(operator) => LinksAreNotEmpty(hash, node.children[0], Some(operator));
    case Paren => LinksAreNotEmpty(hash, node.children[0], chain);
    case _ =>
  }

  /** Evaluating the links of an expression as a chain of any operator evaluates the expression. */
  lemma {:induction false} LinksEvaluate(hash: Content<nat> -> nat, run: Behaviour, node: Node, chain: Option<Operator>, operator: Operator, trace: Trace)
    requires IsLogical(node) && (chain.Some? ==> chain.value == operator)
    ensures Links(hash, node, chain) != []
    ensures EvalChain(run, operator, Links(hash, node, chain), trace) == Eval(hash, run, node, trace)
    decreases node
  {
    LinksAreNotEmpty(hash, node, chain);
    match node.kind
    case Logical(own) =>
      var a, b := Links(hash, node.children[0], Some(own)), Links(hash, node.children[1], Some(own));
      LinksEvaluate(hash, run, node.children[0], Some(own), own, trace);
      var left := Eval(hash, run, node.children[0], trace);
      LinksEvaluate(hash, run, node.children[1], Some(own), own, left.trace);
      EvalChainConcat(run, own, a, b, trace);
      if chain != Some(own) {
        assert EvalForm(run, Form(LOGICAL, OperatorByte(own), a + b), trace) == EvalChain(run, own, a + b, trace);
      }
    case Paren => LinksEvaluate(hash, run, node.children[0], chain, operator, trace);
    case _ => OperandIsOne(hash, node, TOP);
  }

  /** Equal fingerprints of logical expressions: equal value, equal trace, equal stopping point. */
  lemma SameFingerprintSameEvaluation(hash: Content<nat> -> nat, run: Behaviour, a: Node, b: Node, trace: Trace)
    requires CollisionFree(hash) && IsLogical(a) && IsLogical(b)
    requires Digests(Entries(Hashing(hash), a, TOP)) == Digests(Entries(Hashing(hash), b, TOP))
    ensures Eval(hash, run, a, trace) == Eval(hash, run, b, trace)
  {
    EqualPrintsAreEqualForms(hash, a, b, TOP);
    FormsAreLinks(hash, a, TOP);
    FormsAreLinks(hash, b, TOP);
    LinksEvaluate(hash, run, a, None, And, trace);
    LinksEvaluate(hash, run, b, None, And, trace);
  }

  function Join(operator: Operator, span: nat, left: Node, right: Node): Node {
    Node(Logical(operator), span, [left, right])
  }

  function InParens(span: nat, node: Node): Node {
    Node(Paren, span, [node])
  }

  lemma JoinLinks(hash: Content<nat> -> nat, operator: Operator, span: nat, left: Node, right: Node, chain: Option<Operator>)
    requires IsLogical(left) && IsLogical(right)
    ensures IsLogical(Join(operator, span, left, right))
    ensures Links(hash, Join(operator, span, left, right), chain) ==
      var links := Links(hash, left, Some(operator)) + Links(hash, right, Some(operator));
      if chain == Some(operator) then links else [Form(LOGICAL, OperatorByte(operator), links)]
  {
  }

  lemma ParenLinks(hash: Content<nat> -> nat, span: nat, node: Node, chain: Option<Operator>)
    requires IsLogical(node)
    ensures IsLogical(InParens(span, node))
    ensures Links(hash, InParens(span, node), chain) == Links(hash, node, chain)
  {
  }

  ghost function Grouped(outer: Operator, inner: Operator, pair: seq<Form>): seq<Form> {
    if inner == outer then pair else [Form(LOGICAL, OperatorByte(inner), pair)]
  }

  lemma GroupLinks(hash: Content<nat> -> nat, outer: Operator, inner: Operator, a: Node, b: Node, s: nat)
    requires IsLogical(a) && IsLogical(b)
    ensures IsLogical(InParens(s, Join(inner, s, a, b)))
    ensures Links(hash, InParens(s, Join(inner, s, a, b)), Some(outer)) == Grouped(outer, inner, Links(hash, a, Some(inner)) + Links(hash, b, Some(inner)))
  {
    JoinLinks(hash, inner, s, a, b, Some(outer));
    ParenLinks(hash, s, Join(inner, s, a, b), Some(outer));
  }

  /**
  Regrouping is invisible for one operator, through any parentheses, and never
  for two: a chain does not absorb another operator.
  */
  lemma Regrouping(hash: Content<nat> -> nat, outer: Operator, inner: Operator, a: Node, b: Node, c: Node, s: nat)
    requires CollisionFree(hash) && IsLogical(a) && IsLogical(b) && IsLogical(c)
    ensures Digests(Entries(Hashing(hash), Join(outer, s, InParens(s, Join(inner, s, a, b)), c), TOP))
         == Digests(Entries(Hashing(hash), Join(inner, s, a, InParens(s, Join(outer, s, b, c))), TOP))
       <==> outer == inner
  {
    var ab, bc := InParens(s, Join(inner, s, a, b)), InParens(s, Join(outer, s, b, c));
    GroupLinks(hash, outer, inner, a, b, s);
    GroupLinks(hash, inner, outer, b, c, s);
    JoinLinks(hash, outer, s, ab, c, None);
    JoinLinks(hash, inner, s, a, bc, None);
    FormsAreLinks(hash, Join(outer, s, ab, c), TOP);
    FormsAreLinks(hash, Join(inner, s, a, bc), TOP);
    EqualPrintsAreEqualForms(hash, Join(outer, s, ab, c), Join(inner, s, a, bc), TOP);
    Associate(Links(hash, a, Some(outer)), Links(hash, b, Some(outer)), Links(hash, c, Some(outer)));
  }

  lemma Associate(a: seq<Form>, b: seq<Form>, c: seq<Form>)
    ensures a + b + c == a + (b + c)
  {
  }
}
