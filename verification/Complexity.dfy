/**
Cyclomatic and cognitive complexity as they are specified: one walk per
function and metric. The one-pass scorer is in Scoring.
*/
module Complexity {
  import opened LogicalOperators
  import opened Options

  /**
  What scoring tells apart in a program. `own` is the name a function is given
  by itself or by what it is sites to, empty when there is none.
  */
  datatype Node =
    | Plain(parts: seq<Node>)
    | Function(own: string, line: nat, body: Node)
    | If(test: Node, consequent: Node, alternate: Option<Node>)
    | Conditional(condition: Node, yes: Node, no: Node)
    | Loop(head: seq<Node>, body: Node, bodyFirst: bool)
    | Switch(discriminant: Node, cases: seq<Node>)
    | Case(guard: Option<Node>, parts: seq<Node>)
    | Catch(parts: seq<Node>, body: Node)
    | Jump(labelled: bool)
    | Logical(operator: Operator, left: Node, right: Node)
    | LogicalAssignment(target: Node, value: Node)

  // ----- cyclomatic: the branches a function itself owns -----

  function Branches(n: Node): nat
    decreases n
  {
    match n
    case Plain(parts) => BranchesAll(parts)
    case Function(_, _, _) => 0
    case If(test, consequent, alternate) =>
      1 + Branches(test) + Branches(consequent) + (if alternate.Some? then Branches(alternate.value) else 0)
    case Conditional(condition, yes, no) => 1 + Branches(condition) + Branches(yes) + Branches(no)
    case Loop(head, body, _) => 1 + BranchesAll(head) + Branches(body)
    case Switch(discriminant, cases) => Branches(discriminant) + BranchesAll(cases)
    case Case(guard, parts) => (if guard.Some? then 1 + Branches(guard.value) else 0) + BranchesAll(parts)
    case Catch(parts, body) => 1 + BranchesAll(parts) + Branches(body)
    case Jump(_) => 0
    case Logical(_, left, right) => 1 + Branches(left) + Branches(right)
    case LogicalAssignment(target, value) => 1 + Branches(target) + Branches(value)
  }

  function BranchesAll(ns: seq<Node>): nat
    decreases ns
  {
    if ns == [] then 0 else Branches(ns[0]) + BranchesAll(ns[1..])
  }

  // ----- cognitive: one plus the depth per structure, relative to one function -----

  /** The operators of a tree of logical expressions without parentheses, in source order. */
  function Operators(n: Node): seq<Operator>
    decreases n
  {
    if n.Logical? then Operators(n.left) + [n.operator] + Operators(n.right) else []
  }

  predicate StartsRun(ops: seq<Operator>, i: nat)
    requires i < |ops|
  {
    i == 0 || ops[i] != ops[i - 1]
  }

  /** How many maximal runs of one operator there are: the places that start one. */
  function Runs(ops: seq<Operator>): nat {
    |set i | 0 <= i < |ops| && StartsRun(ops, i)|
  }

  function Cognitive(n: Node, depth: nat): nat
    decreases n, 1
  {
    match n
    case Plain(parts) => CognitiveAll(parts, depth)
    case Function(_, _, body) => Cognitive(body, depth + 1)
    case If(test, consequent, alternate) => 1 + depth + Ladder(n, depth)
    case Conditional(condition, yes, no) =>
      1 + depth + Cognitive(condition, depth) + Cognitive(yes, depth + 1) + Cognitive(no, depth + 1)
    case Loop(head, body, _) => 1 + depth + CognitiveAll(head, depth) + Cognitive(body, depth + 1)
    case Switch(discriminant, cases) => 1 + depth + Cognitive(discriminant, depth) + CognitiveAll(cases, depth + 1)
    case Case(guard, parts) => (if guard.Some? then Cognitive(guard.value, depth) else 0) + CognitiveAll(parts, depth)
    case Catch(parts, body) => 1 + depth + CognitiveAll(parts, depth) + Cognitive(body, depth + 1)
    case Jump(labelled) => if labelled then 1 else 0
    case Logical(_, _, _) => Runs(Operators(n)) + Operands(n, depth)
    case LogicalAssignment(target, value) => Cognitive(target, depth) + Cognitive(value, depth)
  }

  /** What is below an `if`: its own parts, then one per `else if` and one per `else`. */
  function Ladder(n: Node, depth: nat): nat
    requires n.If?
    decreases n, 0
  {
    Cognitive(n.test, depth) + Cognitive(n.consequent, depth + 1) +
    match n.alternate
    case None => 0
    case Some(alternate) => 1 + if alternate.If? then Ladder(alternate, depth) else Cognitive(alternate, depth + 1)
  }

  /** The operands of a tree of logical expressions without parentheses. */
  function Operands(n: Node, depth: nat): nat
    decreases n, 0
  {
    if n.Logical? then OperandOf(n.left, depth) + OperandOf(n.right, depth) else 0
  }

  function OperandOf(n: Node, depth: nat): nat
    decreases n, 2
  {
    if n.Logical? then Operands(n, depth) else Cognitive(n, depth)
  }

  function CognitiveAll(ns: seq<Node>, depth: nat): nat
    decreases ns
  {
    if ns == [] then 0 else Cognitive(ns[0], depth) + CognitiveAll(ns[1..], depth)
  }

  // ----- reporting keys -----

  const ANONYMOUS := "<anonymous>"

  /** One function of a program, with the two metrics of a walk of it alone. */
  datatype Site = Site(own: string, line: nat, cyclomatic: nat, cognitive: nat)

  function SiteOf(n: Node): Site
    requires n.Function?
  {
    Site(n.own, n.line, 1 + Branches(n.body), Cognitive(n.body, 0))
  }

  /** Where a key stands: its line, and whether a named function created it. */
  datatype Slot = Slot(line: nat, named: bool)

  /** The keys in order of creation. */
  datatype Table = Table(keys: map<string, nat>, slots: seq<Slot>)

  /** A function, the key it reports under, and whether it created the key by its name. */
  datatype Assigned = Assigned(site: Site, index: nat, owns: bool)

  ghost predicate IsTable(table: Table) {
    forall key :: key in table.keys ==> table.keys[key] < |table.slots|
  }

  function Digit(n: nat): string
    requires n < 10
  {
    ["0123456789"[n]]
  }

  function Decimal(n: nat): string {
    if n < 10 then Digit(n) else Decimal(n / 10) + Digit(n % 10)
  }

  /** A named function's key: its name, or `name:line` for a second function of that name elsewhere. */
  function KeyOf(table: Table, own: string, line: nat): string
    requires IsTable(table)
  {
    if own in table.keys && table.slots[table.keys[own]].named && table.slots[table.keys[own]].line != line
    then own + ":" + Decimal(line) else own
  }

  function Add(table: Table, key: string, slot: Slot): Table {
    Table(table.keys[key := |table.slots|], table.slots + [slot])
  }

  /** The table, key and ownership once a function is met inside `owner`. */
  function Resolve(table: Table, owner: Option<nat>, own: string, line: nat): (r: (Table, nat, bool))
    requires IsTable(table) && (owner.Some? ==> owner.value < |table.slots|)
    ensures IsTable(r.0) && table.slots <= r.0.slots && r.1 < |r.0.slots|
    ensures r.2 ==> r.1 == |table.slots|
  {
    if own == "" then
      if owner.Some? then (table, owner.value, false)
      else if ANONYMOUS in table.keys then (table, table.keys[ANONYMOUS], false)
      else (Add(table, ANONYMOUS, Slot(line, false)), |table.slots|, false)
    else
      var key := KeyOf(table, own, line);
      if key in table.keys then (table, table.keys[key], false)
      else (Add(table, key, Slot(line, true)), |table.slots|, true)
  }

  /** The parts of a node in the order they are walked. */
  function Parts(n: Node): seq<Node>
    ensures forall part :: part in Parts(n) ==> part < n
  {
    match n
    case Plain(parts) => parts
    case Function(_, _, body) => [body]
    case If(test, consequent, alternate) => [test, consequent] + if alternate.Some? then [alternate.value] else []
    case Conditional(condition, yes, no) => [condition, yes, no]
    case Loop(head, body, bodyFirst) => if bodyFirst then [body] + head else head + [body]
    case Switch(discriminant, cases) => [discriminant] + cases
    case Case(guard, parts) => (if guard.Some? then [guard.value] else []) + parts
    case Catch(parts, body) => parts + [body]
    case Jump(_) => []
    case Logical(_, left, right) => [left, right]
    case LogicalAssignment(target, value) => [target, value]
  }

  /** Every function below `n`, outermost first, with its key. */
  function Assign(table: Table, owner: Option<nat>, n: Node): (r: (Table, seq<Assigned>))
    requires IsTable(table) && (owner.Some? ==> owner.value < |table.slots|)
    ensures IsTable(r.0) && table.slots <= r.0.slots
    ensures forall a :: a in r.1 ==> a.index < |r.0.slots|
    decreases n, 1, 0
  {
    if n.Function? then
      var (met, index, owns) := Resolve(table, owner, n.own, n.line);
      var (after, inner) := AssignAll(met, Some(index), n, [n.body]);
      (after, [Assigned(SiteOf(n), index, owns)] + inner)
    else AssignAll(table, owner, n, Parts(n))
  }

  function AssignAll(table: Table, owner: Option<nat>, n: Node, parts: seq<Node>): (r: (Table, seq<Assigned>))
    requires IsTable(table) && (owner.Some? ==> owner.value < |table.slots|)
    requires forall part :: part in parts ==> part < n
    ensures IsTable(r.0) && table.slots <= r.0.slots
    ensures forall a :: a in r.1 ==> a.index < |r.0.slots|
    decreases n, 0, |parts|
  {
    if parts == [] then (table, []) else
      assert parts[0] in parts && forall part :: part in parts[1..] ==> part in parts;
      var (first, a) := Assign(table, owner, parts[0]);
      var (rest, b) := AssignAll(first, owner, n, parts[1..]);
      (rest, a + b)
  }

  /** The worst cyclomatic number among the functions of a key, at least `floor`. */
  function Worst(sites: seq<Assigned>, index: nat, floor: nat): nat {
    if sites == [] then floor else
      var a := sites[0];
      Worst(sites[1..], index, if a.index == index && a.site.cyclomatic > floor then a.site.cyclomatic else floor)
  }

  const U32_MAX: nat := 0xFFFF_FFFF

  /** The number, or the greatest that 32 bits hold. */
  function Saturate(n: nat): (r: nat)
    ensures r <= U32_MAX && (r == n || r == U32_MAX < n)
  {
    if n > U32_MAX then U32_MAX else n
  }

  /** The cognitive score of the function that created a key; `floor` when none of these did. */
  function Owned(sites: seq<Assigned>, index: nat, floor: nat): nat {
    if sites == [] then floor else
      var a := sites[0];
      Owned(sites[1..], index, if a.index == index && a.owns then Saturate(a.site.cognitive) else floor)
  }
}
