/**
The structural fingerprint of a program: a walk that keeps a stack of open
nodes and one shared stack of finished child hashes. What a node is hashed to
is a parameter, so everything here holds for every hash function; FreeForms
says what a collision-free one adds.
*/
module Fingerprint {
  import opened LogicalOperators
  import opened Options
  import opened Sorting

  /** What the walk tells apart; every other node is `Other`, with its type and its payload. */
  datatype Kind =
    | Program | Block | FunctionBody | StaticBlock
    | SwitchCase(hasTest: bool)
    | ClassBody
    | Property(signature: nat) | Constructor(signature: nat) | Method(signature: nat)
    | Import
    | Variable(isConst: bool, keyword: nat)
    | If
    | Loop(form: nat, body: nat)
    | Logical(operator: Operator)
    | Paren | EmptyStatement
    | TypeList(union: bool)
    | Word(isString: bool, text: nat)
    | JsxText(words: seq<nat>)
    | JsxAttribute
    | JsxContainer(holdsString: bool, blank: bool)
    | Template(embedded: bool)
    | Quasi(raw: nat)
    | Other(ty: nat, payload: nat)

  /** A syntax tree; `span` is where the node stands in the text. */
  datatype Node = Node(kind: Kind, span: nat, children: seq<Node>)

  /** What is hashed for a node: its tag, its payload (0 when it has none), its children. */
  datatype Content<D> = Content(tag: nat, payload: nat, children: seq<D>)

  /** What hashing yields, and the order in which a multiset of hashes is listed. */
  datatype Algebra<!D> = Algebra(make: Content<D> -> D, rank: D -> nat)

  /** The algebra of a hash function: hashes are numbers, listed in ascending order. */
  function Hashing(hash: Content<nat> -> nat): Algebra<nat> {
    Algebra(hash, digest => digest)
  }

  // A list entry's role in its list.
  const OTHER: nat := 0
  const IMPORT: nat := 1
  const CONST: nat := 2

  datatype Mode = Ordered | List | Members | Transparent | Skip

  /** A finished child: its role in the parent's list and its hash. */
  datatype Entry<D> = Entry(role: nat, digest: D)

  // Tags. Other node types are numbered from OTHER_TAG on.
  const NAME: nat := 0
  const BLOCK: nat := 1
  const WORD: nat := 2
  const LOGICAL: nat := 3
  const OTHER_TAG: nat := 32

  function Tag(kind: Kind): nat {
    match kind
    case Word(_, _) => NAME
    case Block => BLOCK
    case Logical(_) => LOGICAL
    case Program => 4
    case FunctionBody => 5
    case StaticBlock => 6
    case SwitchCase(_) => 7
    case ClassBody => 8
    case Property(_) => 9
    case Constructor(_) => 10
    case Method(_) => 10
    case Import => 12
    case Variable(_, _) => 13
    case If => 14
    case Loop(form, _) => 15
    case Paren => 16
    case EmptyStatement => 17
    case TypeList(union) => if union then 18 else 19
    case JsxText(_) => 20
    case JsxAttribute => 21
    case JsxContainer(_, _) => 22
    case Template(_) => 23
    case Quasi(_) => 24
    case Other(ty, _) => OTHER_TAG + ty
  }

  function OperatorByte(operator: Operator): nat {
    match operator
    case And => 1
    case Or => 2
    case Coalesce => 3
  }

  /** The parts of a node that are not children. */
  function Payload(kind: Kind): nat {
    match kind
    case Word(_, text) => text
    case Logical(operator) => OperatorByte(operator)
    case Variable(isConst, keyword) => if isConst then 0 else 1 + keyword
    case Property(signature) => signature
    case Constructor(signature) => 2 * signature
    case Method(signature) => 2 * signature + 1
    case Loop(form, _) => form
    case Quasi(raw) => raw
    case Other(_, payload) => payload
    case _ => 0
  }

  /** What a node's parent decides about it. */
  datatype Context = Context(mode: Mode, logical: Option<Operator>, attribute: bool, embedded: bool)

  const TOP := Context(Ordered, None, false, false)
  const SYNTHETIC := Context(List, None, false, false)

  function ModeOf(node: Node, attribute: bool): Mode {
    match node.kind
    case Paren => Transparent
    case EmptyStatement => Transparent
    case JsxText(_) => Transparent
    case TypeList(_) => if |node.children| == 1 then Transparent else Ordered
    case JsxContainer(holdsString, blank) =>
      if holdsString && !attribute && blank then Skip else if holdsString then Transparent else Ordered
    case Program => List
    case Block => List
    case FunctionBody => List
    case StaticBlock => List
    case SwitchCase(_) => List
    case ClassBody => Members
    case _ => Ordered
  }

  function RoleInList(kind: Kind): nat {
    match kind
    case Import => IMPORT
    case Variable(true, _) => CONST
    case _ => OTHER
  }

  /** Where a class member sorts; 0 for any other node. */
  function RoleInClass(kind: Kind): nat {
    match kind
    case Property(_) => 1
    case StaticBlock => 1
    case Constructor(_) => 2
    case Method(_) => 3
    case _ => 0
  }

  function RoleIn(mode: Mode, kind: Kind): nat {
    match mode
    case List => RoleInList(kind)
    case Members => RoleInClass(kind)
    case _ => OTHER
  }

  function ModeIn(ctx: Context, node: Node): Mode {
    if node.kind.Logical? && ctx.logical == Some(node.kind.operator) then Transparent else ModeOf(node, ctx.attribute)
  }

  /** The operator of the logical chain a node's children continue. */
  function LogicalIn(ctx: Context, kind: Kind): Option<Operator> {
    match kind
    case Logical(operator) => Some(operator)
    case Paren => ctx.logical
    case _ => None
  }

  function Below(ctx: Context, node: Node): Context {
    Context(ModeIn(ctx, node), LogicalIn(ctx, node.kind), node.kind.JsxAttribute?, node.kind.Template? && node.kind.embedded)
  }

  function PrefixOf(kind: Kind): nat {
    if kind.SwitchCase? && kind.hasTest then 1 else 0
  }

  /** Whether child `at` is the body of a control statement and not a block; an `else if` is not one. */
  predicate IsBareBody(node: Node, at: nat)
    requires at < |node.children|
  {
    match node.kind
    case If =>
      !node.children[at].kind.Block? && (at == 1 || (at == 2 && !node.children[at].kind.If?))
    case Loop(_, body) => at == body && !node.children[at].kind.Block?
    case _ => false
  }

  // ----- the list normalizations -----

  function ByRank<D>(alg: Algebra<D>): (Entry<D>, Entry<D>) -> bool {
    (a: Entry<D>, b: Entry<D>) => alg.rank(a.digest) <= alg.rank(b.digest)
  }

  predicate RoleLe<D>(a: Entry<D>, b: Entry<D>) {
    a.role <= b.role
  }

  function RunLength<D>(entries: seq<Entry<D>>): (n: nat)
    ensures n <= |entries| && (entries != [] ==> n > 0)
    ensures forall i :: 0 <= i < n ==> entries[i].role == entries[0].role
    ensures n < |entries| ==> entries[n].role != entries[0].role
  {
    if |entries| <= 1 then |entries|
    else if entries[1].role == entries[0].role then 1 + RunLength(entries[1..])
    else 1
  }

  lemma RunIs<D>(entries: seq<Entry<D>>, n: nat)
    requires 0 < n <= |entries|
    requires forall i :: 0 <= i < n ==> entries[i].role == entries[0].role
    requires n < |entries| ==> entries[n].role != entries[0].role
    ensures RunLength(entries) == n
  {
  }

  function SortRun<D>(alg: Algebra<D>, run: seq<Entry<D>>): seq<Entry<D>> {
    if run != [] && run[0].role != OTHER then StableSort(ByRank(alg), run) else run
  }

  /** Each maximal run of imports and of consts by hash; everything else as it stands. */
  function SortRuns<D>(alg: Algebra<D>, entries: seq<Entry<D>>): seq<Entry<D>>
    decreases |entries|
  {
    if entries == [] then [] else
      var n := RunLength(entries);
      SortRun(alg, entries[..n]) + SortRuns(alg, entries[n..])
  }

  function Arrange<D>(alg: Algebra<D>, mode: Mode, prefix: nat, entries: seq<Entry<D>>): seq<Entry<D>> {
    match mode
    case List => var p := if prefix <= |entries| then prefix else |entries|; entries[..p] + SortRuns(alg, entries[p..])
    case Members => StableSort(RoleLe<D>, entries)
    case _ => entries
  }

  function Digests<D>(entries: seq<Entry<D>>): seq<D> {
    seq(|entries|, i requires 0 <= i < |entries| => entries[i].digest)
  }

  function Close<D>(alg: Algebra<D>, mode: Mode, prefix: nat, role: nat, tag: nat, payload: nat, entries: seq<Entry<D>>): Entry<D> {
    Entry(role, alg.make(Content(tag, payload, Digests(Arrange(alg, mode, prefix, entries)))))
  }

  function Words<D>(alg: Algebra<D>, words: seq<nat>): seq<Entry<D>> {
    seq(|words|, i requires 0 <= i < |words| => Entry(OTHER, alg.make(Content(WORD, words[i], []))))
  }

  // ----- the recursive form -----

  /** What a node adds to the children of its parent. */
  function Entries<D>(alg: Algebra<D>, node: Node, ctx: Context): seq<Entry<D>>
    decreases node, 0
  {
    var below := (if node.kind.JsxText? then Words(alg, node.kind.words) else []) + Children(alg, node, Below(ctx, node), 0);
    match ModeIn(ctx, node)
    case Transparent => below
    case Skip => []
    case mode =>
      var payload := if node.kind.Quasi? && ctx.embedded then 0 else Payload(node.kind);
      [Close(alg, mode, PrefixOf(node.kind), RoleIn(ctx.mode, node.kind), Tag(node.kind), payload, below)]
  }

  /** A bare body counts as a block of that one statement. */
  function Child<D>(alg: Algebra<D>, node: Node, ctx: Context, bare: bool): seq<Entry<D>>
    decreases node, 1
  {
    if bare then [Close(alg, List, 0, OTHER, BLOCK, 0, Entries(alg, node, SYNTHETIC))] else Entries(alg, node, ctx)
  }

  function Children<D>(alg: Algebra<D>, parent: Node, ctx: Context, from: nat): seq<Entry<D>>
    requires from <= |parent.children|
    decreases parent, 0, |parent.children| - from
  {
    if from == |parent.children| then [] else
      Child(alg, parent.children[from], ctx, IsBareBody(parent, from)) + Children(alg, parent, ctx, from + 1)
  }

  // ----- whole files -----

  // The final hash has no tag of its own; FILE stands for that.
  const FILE: nat := 31

  predicate Le(a: nat, b: nat) {
    a <= b
  }

  /** The fingerprint of a program and its comments, the comments as a multiset of hashes. */
  function FingerprintOf(hash: Content<nat> -> nat, program: Node, comments: seq<nat>): nat {
    hash(Content(FILE, 0, Digests(Entries(Hashing(hash), program, TOP)) + StableSort(Le, comments)))
  }
}
