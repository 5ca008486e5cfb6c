/**
The two metrics counted over the nodes of a function rather than by their
recursions: cyclomatic complexity counts decisions, cognitive complexity adds up
increments, each by where the node stands.
*/
module Counts {
  import opened LogicalOperators
  import opened Options
  import opened Complexity

  /** How a node stands in its parent, as far as cognitive complexity goes. */
  datatype Role = Plainly | ElseIf | InChain

  /** A node that is walked, with how many structures and functions are around it. */
  datatype Visit = Visit(node: Node, role: Role, depth: nat)

  function RoleOf(parent: Node, i: nat): Role
    requires i < |Parts(parent)|
  {
    if parent.If? && i == 2 && Parts(parent)[i].If? then ElseIf
    else if parent.Logical? && Parts(parent)[i].Logical? then InChain
    else Plainly
  }

  /** Whether a part is nested in its parent: a branch or body is, a test, head or `else if` is not. */
  predicate IsNested(parent: Node, i: nat)
    requires i < |Parts(parent)|
  {
    match parent
    case Function(_, _, _) => true
    case If(_, _, _) => i > 0 && RoleOf(parent, i) != ElseIf
    case Conditional(_, _, _) => i > 0
    case Switch(_, _) => i > 0
    case Loop(head, _, bodyFirst) => if bodyFirst then i == 0 else i == |head|
    case Catch(parts, _) => i == |parts|
    case _ => false
  }

  /** Every node from `n` on, inner functions included. */
  function Visits(n: Node, role: Role, depth: nat): seq<Visit>
    decreases n, 1, 0
  {
    [Visit(n, role, depth)] + VisitsFrom(n, depth, 0)
  }

  function VisitsFrom(n: Node, depth: nat, from: nat): seq<Visit>
    requires from <= |Parts(n)|
    decreases n, 0, |Parts(n)| - from
  {
    if from == |Parts(n)| then [] else VisitsOf(n, depth, from) + VisitsFrom(n, depth, from + 1)
  }

  function VisitsOf(n: Node, depth: nat, i: nat): seq<Visit>
    requires i < |Parts(n)|
    decreases n, 0, 0
  {
    Visits(Parts(n)[i], RoleOf(n, i), depth + if IsNested(n, i) then 1 else 0)
  }

  /**
  What a node adds: one and its depth for a structure, but nothing for an `else
  if` itself; one for each `else`, `else if` and labelled jump; and the number of
  runs of one operator for a whole chain.
  */
  function Increment(v: Visit): nat {
    match v.node
    case If(_, _, alternate) => (if v.role == ElseIf then 0 else 1 + v.depth) + if alternate.Some? then 1 else 0
    case Conditional(_, _, _) => 1 + v.depth
    case Loop(_, _, _) => 1 + v.depth
    case Switch(_, _) => 1 + v.depth
    case Catch(_, _) => 1 + v.depth
    case Jump(labelled) => if labelled then 1 else 0
    case Logical(_, _, _) => if v.role == InChain then 0 else Runs(Operators(v.node))
    case _ => 0
  }

  function Total(visits: seq<Visit>): nat {
    if visits == [] then 0 else Increment(visits[0]) + Total(visits[1..])
  }

  lemma {:induction false} TotalConcat(a: seq<Visit>, b: seq<Visit>)
    ensures Total(a + b) == Total(a) + Total(b)
    decreases |a|
  {
    if a == [] {
      assert a + b == b;
    } else {
      assert (a + b)[1..] == a[1..] + b;
      TotalConcat(a[1..], b);
    }
  }

  /** Cognitive complexity is the sum of the increments of the nodes. */
  lemma {:induction false} CognitiveIsTotal(n: Node, depth: nat)
    ensures Cognitive(n, depth) == Total(Visits(n, Plainly, depth))
    ensures n.If? ==> Ladder(n, depth) == Total(Visits(n, ElseIf, depth))
    ensures n.Logical? ==> Operands(n, depth) == Total(Visits(n, InChain, depth))
    decreases n, 1, 0
  {
    OneVisit(n, Plainly, depth);
    OneVisit(n, ElseIf, depth);
    OneVisit(n, InChain, depth);
    PartsAreTotal(n, depth, 0);
    PartsCost(n, depth);
  }

  lemma OneVisit(n: Node, role: Role, depth: nat)
    ensures Total(Visits(n, role, depth)) == Increment(Visit(n, role, depth)) + Total(VisitsFrom(n, depth, 0))
  {
    assert Visits(n, role, depth)[1..] == VisitsFrom(n, depth, 0);
  }

  /** What the part at `i` costs where it stands. */
  function PartCost(n: Node, depth: nat, i: nat): nat
    requires i < |Parts(n)|
  {
    var part, below := Parts(n)[i], depth + if IsNested(n, i) then 1 else 0;
    match RoleOf(n, i)
    case ElseIf => Ladder(part, below)
    case InChain => Operands(part, below)
    case Plainly => Cognitive(part, below)
  }

  function PartCosts(n: Node, depth: nat, from: nat): nat
    requires from <= |Parts(n)|
    decreases |Parts(n)| - from
  {
    if from == |Parts(n)| then 0 else PartCost(n, depth, from) + PartCosts(n, depth, from + 1)
  }

  lemma {:induction false} PartsAreTotal(n: Node, depth: nat, from: nat)
    requires from <= |Parts(n)|
    ensures PartCosts(n, depth, from) == Total(VisitsFrom(n, depth, from))
    decreases n, 0, |Parts(n)| - from
  {
    hide Cognitive, Ladder, Operands, Visits, VisitsOf, Increment, IsNested, RoleOf, PartCost, Parts;
    if from < |Parts(n)| {
      PartIsTotal(n, depth, from);
      PartsAreTotal(n, depth, from + 1);
      TotalConcat(VisitsOf(n, depth, from), VisitsFrom(n, depth, from + 1));
    }
  }

  lemma {:induction false} PartIsTotal(n: Node, depth: nat, i: nat)
    requires i < |Parts(n)|
    ensures PartCost(n, depth, i) == Total(VisitsOf(n, depth, i))
    decreases n, 0, 0
  {
    hide Cognitive, Ladder, Operands, Visits, Total, Increment, IsNested;
    CognitiveIsTotal(Parts(n)[i], depth + if IsNested(n, i) then 1 else 0);
  }

  lemma {:induction false} CostOfRange(n: Node, depth: nat, from: nat, to: nat, below: nat)
    requires from <= to <= |Parts(n)|
    requires forall i :: from <= i < to ==> RoleOf(n, i) == Plainly && depth + (if IsNested(n, i) then 1 else 0) == below
    ensures PartCosts(n, depth, from) == CognitiveAll(Parts(n)[from..to], below) + PartCosts(n, depth, to)
    decreases |Parts(n)| - from
  {
    if from < to {
      CostOfRange(n, depth, from + 1, to, below);
      assert Parts(n)[from..to][1..] == Parts(n)[from + 1..to];
    }
  }

  /** The recursions, told by the parts of a node. */
  lemma PartsCost(n: Node, depth: nat)
    ensures Cognitive(n, depth) == Increment(Visit(n, Plainly, depth)) + PartCosts(n, depth, 0)
    ensures n.If? ==> Ladder(n, depth) == Increment(Visit(n, ElseIf, depth)) + PartCosts(n, depth, 0)
    ensures n.Logical? ==> Operands(n, depth) == PartCosts(n, depth, 0)
  {
    if n.Plain? || n.Loop? || n.Switch? || n.Case? || n.Catch? {
      ListCosts(n, depth);
    } else {
      FewCosts(n, depth);
    }
  }

  lemma FewCosts(n: Node, depth: nat)
    requires !n.Plain? && !n.Loop? && !n.Switch? && !n.Case? && !n.Catch?
    ensures Cognitive(n, depth) == Increment(Visit(n, Plainly, depth)) + PartCosts(n, depth, 0)
    ensures n.If? ==> Ladder(n, depth) == Increment(Visit(n, ElseIf, depth)) + PartCosts(n, depth, 0)
    ensures n.Logical? ==> Operands(n, depth) == PartCosts(n, depth, 0)
  {
    hide PartCosts, Runs, Operators, CognitiveAll;
    FewParts(n, depth);
    if n.If? {
      hide Cognitive;
      IfCosts(n, depth);
    } else if n.Logical? {
      assert PartCost(n, depth, 0) == OperandOf(n.left, depth) && PartCost(n, depth, 1) == OperandOf(n.right, depth);
    } else {
      OtherCosts(n, depth);
    }
  }

  lemma IfCosts(n: Node, depth: nat)
    requires n.If?
    ensures Cognitive(n, depth) == 1 + depth + Ladder(n, depth)
    ensures Ladder(n, depth) == PartCost(n, depth, 0) + PartCost(n, depth, 1)
      + if n.alternate.Some? then 1 + PartCost(n, depth, 2) else 0
  {
    hide PartCosts, Runs, Operators, CognitiveAll, Increment, Operands;
    assert PartCost(n, depth, 0) == Cognitive(n.test, depth);
    assert PartCost(n, depth, 1) == Cognitive(n.consequent, depth + 1);
  }

  lemma OtherCosts(n: Node, depth: nat)
    requires n.Function? || n.Conditional? || n.Jump? || n.LogicalAssignment?
    ensures Cognitive(n, depth) == Increment(Visit(n, Plainly, depth))
      + (if |Parts(n)| > 0 then PartCost(n, depth, 0) else 0)
      + (if |Parts(n)| > 1 then PartCost(n, depth, 1) else 0) + (if |Parts(n)| > 2 then PartCost(n, depth, 2) else 0)
  {
    hide PartCosts, Runs, Operators, CognitiveAll, Ladder, Operands;
  }

  lemma ListCosts(n: Node, depth: nat)
    requires n.Plain? || n.Loop? || n.Switch? || n.Case? || n.Catch?
    ensures Cognitive(n, depth) == Increment(Visit(n, Plainly, depth)) + PartCosts(n, depth, 0)
  {
    if n.Loop? {
      LoopCosts(n, depth);
    } else if n.Catch? {
      CatchCosts(n, depth);
    } else if n.Switch? {
      SwitchCosts(n, depth);
    } else if n.Case? {
      CaseCosts(n, depth);
    } else {
      PlainCosts(n, depth);
    }
  }

  lemma LoopCosts(n: Node, depth: nat)
    requires n.Loop?
    ensures Cognitive(n, depth) == Increment(Visit(n, Plainly, depth)) + PartCosts(n, depth, 0)
  {
    assert Cognitive(n, depth) == 1 + depth + CognitiveAll(n.head, depth) + Cognitive(n.body, depth + 1);
    hide Cognitive, Ladder, Operands, Runs, Operators, PartCosts, CognitiveAll;
    LeafCosts(n, depth);
    if n.bodyFirst {
      ListCost(n, depth, 1, |Parts(n)|, n.head, depth);
    } else {
      ListCost(n, depth, 0, |n.head|, n.head, depth);
    }
  }

  lemma CatchCosts(n: Node, depth: nat)
    requires n.Catch?
    ensures Cognitive(n, depth) == Increment(Visit(n, Plainly, depth)) + PartCosts(n, depth, 0)
  {
    hide PartCosts, CognitiveAll;
    ListCost(n, depth, 0, |n.parts|, n.parts, depth);
    LeafCosts(n, depth);
  }

  lemma PlainCosts(n: Node, depth: nat)
    requires n.Plain?
    ensures Cognitive(n, depth) == Increment(Visit(n, Plainly, depth)) + PartCosts(n, depth, 0)
  {
    assert Cognitive(n, depth) == CognitiveAll(n.parts, depth);
    hide Cognitive, Ladder, Operands, Runs, Operators, PartCosts, CognitiveAll;
    ListCost(n, depth, 0, |n.parts|, n.parts, depth);
    LeafCosts(n, depth);
  }

  lemma SwitchCosts(n: Node, depth: nat)
    requires n.Switch?
    ensures Cognitive(n, depth) == Increment(Visit(n, Plainly, depth)) + PartCosts(n, depth, 0)
  {
    hide PartCosts, CognitiveAll;
    ListCost(n, depth, 1, |Parts(n)|, n.cases, depth + 1);
    LeafCosts(n, depth);
  }

  lemma CaseCosts(n: Node, depth: nat)
    requires n.Case?
    ensures Cognitive(n, depth) == Increment(Visit(n, Plainly, depth)) + PartCosts(n, depth, 0)
  {
    assert Cognitive(n, depth) == (if n.guard.Some? then Cognitive(n.guard.value, depth) else 0) + CognitiveAll(n.parts, depth);
    hide Cognitive, Ladder, Operands, Runs, Operators, PartCosts, CognitiveAll;
    LeafCosts(n, depth);
    if n.guard.Some? {
      ListCost(n, depth, 1, |Parts(n)|, n.parts, depth);
    } else {
      ListCost(n, depth, 0, |Parts(n)|, n.parts, depth);
    }
  }

  lemma ListCost(n: Node, depth: nat, from: nat, to: nat, ns: seq<Node>, below: nat)
    requires from <= to <= |Parts(n)| && to - from == |ns| && forall i :: 0 <= i < |ns| ==> Parts(n)[from + i] == ns[i]
    requires forall i :: from <= i < to ==> RoleOf(n, i) == Plainly && depth + (if IsNested(n, i) then 1 else 0) == below
    ensures PartCosts(n, depth, from) == CognitiveAll(ns, below) + PartCosts(n, depth, to)
  {
    hide Parts;
    CostOfRange(n, depth, from, to, below);
    assert Parts(n)[from..to] == ns;
  }

  lemma LeafCosts(n: Node, depth: nat)
    requires n.Plain? || n.Loop? || n.Switch? || n.Case? || n.Catch?
    ensures PartCosts(n, depth, |Parts(n)|) == 0
    ensures Parts(n) != [] ==> PartCosts(n, depth, 0) == PartCost(n, depth, 0) + PartCosts(n, depth, 1)
    ensures Parts(n) != [] ==> PartCosts(n, depth, |Parts(n)| - 1) == PartCost(n, depth, |Parts(n)| - 1)
  {
    hide Parts, PartCost;
  }

  lemma FewParts(n: Node, depth: nat)
    requires |Parts(n)| <= 3
    ensures PartCosts(n, depth, 0) == (if |Parts(n)| > 0 then PartCost(n, depth, 0) else 0)
      + (if |Parts(n)| > 1 then PartCost(n, depth, 1) else 0) + (if |Parts(n)| > 2 then PartCost(n, depth, 2) else 0)
  {
    assert PartCosts(n, depth, |Parts(n)|) == 0;
    if |Parts(n)| > 1 {
      assert PartCosts(n, depth, 1) == PartCost(n, depth, 1) + PartCosts(n, depth, 2);
    }
  }

  // ----- the operators of a chain -----

  /** How many operands a chain has. */
  function OperandCount(n: Node): nat
    decreases n
  {
    if n.Logical? then OperandCount(n.left) + OperandCount(n.right) else 1
  }

  /** The operator between operand `i` and the next. */
  function Between(n: Node, i: nat): Operator
    requires i + 1 < OperandCount(n)
    decreases n
  {
    var k := OperandCount(n.left);
    if i + 1 < k then Between(n.left, i) else if i + 1 == k then n.operator else Between(n.right, i - k)
  }

  /** The operators are those between the operands, in source order. */
  lemma {:induction false} OperatorsStandBetween(n: Node)
    ensures |Operators(n)| + 1 == OperandCount(n)
    ensures forall i :: 0 <= i < |Operators(n)| ==> Operators(n)[i] == Between(n, i)
    decreases n
  {
    if n.Logical? {
      OperatorsStandBetween(n.left);
      OperatorsStandBetween(n.right);
    }
  }

  // ----- cyclomatic -----

  /** The nodes a function owns, from `n` on: what is below an inner function is that function's own. */
  function Owned(n: Node): seq<Node>
    decreases n, 1, 0
  {
    [n] + if n.Function? then [] else OwnedFrom(n, 0)
  }

  function OwnedFrom(n: Node, from: nat): seq<Node>
    requires from <= |Parts(n)|
    decreases n, 0, |Parts(n)| - from
  {
    if from == |Parts(n)| then [] else Owned(Parts(n)[from]) + OwnedFrom(n, from + 1)
  }

  predicate IsDecision(n: Node) {
    n.If? || n.Conditional? || n.Loop? || n.Catch? || n.Logical? || n.LogicalAssignment? || (n.Case? && n.guard.Some?)
  }

  function Decisions(ns: seq<Node>): nat {
    if ns == [] then 0 else (if IsDecision(ns[0]) then 1 else 0) + Decisions(ns[1..])
  }

  lemma {:induction false} DecisionsConcat(a: seq<Node>, b: seq<Node>)
    ensures Decisions(a + b) == Decisions(a) + Decisions(b)
    decreases |a|
  {
    if a == [] {
      assert a + b == b;
    } else {
      assert (a + b)[1..] == a[1..] + b;
      DecisionsConcat(a[1..], b);
    }
  }

  /** Cyclomatic complexity counts the decisions among the nodes a function owns. */
  lemma {:induction false} BranchesAreDecisions(n: Node)
    ensures Branches(n) == Decisions(Owned(n))
    decreases n, 1, 0
  {
    assert Owned(n)[1..] == if n.Function? then [] else OwnedFrom(n, 0);
    if !n.Function? {
      PartsAreDecisions(n, 0);
      PartsBranch(n);
    }
  }

  lemma {:induction false} PartsAreDecisions(n: Node, from: nat)
    requires from <= |Parts(n)|
    ensures BranchesAll(Parts(n)[from..]) == Decisions(OwnedFrom(n, from))
    decreases n, 0, |Parts(n)| - from
  {
    hide Branches, Owned, Parts, IsDecision;
    if from < |Parts(n)| {
      assert Parts(n)[from] in Parts(n);
      BranchesAreDecisions(Parts(n)[from]);
      PartsAreDecisions(n, from + 1);
      DecisionsConcat(Owned(Parts(n)[from]), OwnedFrom(n, from + 1));
      assert Parts(n)[from..][1..] == Parts(n)[from + 1..];
    }
  }

  lemma {:induction false} BranchesConcat(a: seq<Node>, b: seq<Node>)
    ensures BranchesAll(a + b) == BranchesAll(a) + BranchesAll(b)
    decreases |a|
  {
    if a == [] {
      assert a + b == b;
    } else {
      assert (a + b)[1..] == a[1..] + b;
      BranchesConcat(a[1..], b);
    }
  }

  lemma OneBranches(n: Node)
    ensures BranchesAll([n]) == Branches(n)
  {
    assert [n][1..] == [];
  }

  lemma PartsBranch(n: Node)
    requires !n.Function?
    ensures Branches(n) == (if IsDecision(n) then 1 else 0) + BranchesAll(Parts(n))
  {
    hide BranchesAll;
    match n
    case If(test, consequent, alternate) =>
      OneBranches(if alternate.Some? then alternate.value else test);
      ThreeBranch(test, consequent, if alternate.Some? then [alternate.value] else []);
      NoBranches();
    case Conditional(condition, yes, no) =>
      OneBranches(no);
      ThreeBranch(condition, yes, [no]);
      assert Parts(n) == [condition, yes] + [no];
    case Logical(_, left, right) => ThreeBranch(left, right, []);
    case LogicalAssignment(target, value) => ThreeBranch(target, value, []);
    case Jump(_) => NoBranches();
    case _ => ListBranch(n);
  }

  lemma ListBranch(n: Node)
    requires n.Plain? || n.Loop? || n.Switch? || n.Case? || n.Catch?
    ensures Branches(n) == (if IsDecision(n) then 1 else 0) + BranchesAll(Parts(n))
  {
    hide BranchesAll;
    match n
    case Plain(parts) => assert Parts(n) == parts;
    case Loop(head, body, bodyFirst) =>
      OneBranches(body);
      BranchesConcat(if bodyFirst then [body] else head, if bodyFirst then head else [body]);
    case Switch(discriminant, cases) =>
      OneBranches(discriminant);
      BranchesConcat([discriminant], cases);
    case Case(guard, parts) =>
      if guard.Some? {
        OneBranches(guard.value);
        BranchesConcat([guard.value], parts);
      } else {
        assert [] + parts == parts;
      }
    case Catch(parts, body) =>
      OneBranches(body);
      BranchesConcat(parts, [body]);
  }

  lemma NoBranches()
    ensures BranchesAll([]) == 0
  {
  }

  lemma ThreeBranch(a: Node, b: Node, rest: seq<Node>)
    ensures BranchesAll([a, b] + rest) == Branches(a) + Branches(b) + BranchesAll(rest)
    ensures rest == [] ==> BranchesAll([a, b]) == Branches(a) + Branches(b)
  {
    hide Branches;
    OneBranches(a);
    OneBranches(b);
    BranchesConcat([a], [b]);
    BranchesConcat([a, b], rest);
    NoBranches();
    assert rest == [] ==> [a, b] + rest == [a, b];
    assert [a] + [b] == [a, b];
  }
}
