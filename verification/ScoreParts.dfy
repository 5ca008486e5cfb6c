/**
The one walk that scores every function. Depth-weighted increments are summed
with the absolute depth and counted, so a function's own score falls out when
it closes, by subtracting its base depth once per increment.
*/
module ScoreParts {
  import opened LogicalOperators
  import opened Options
  import opened Complexity

  datatype Draft = Draft(line: nat, cyclomatic: nat, cognitive: nat, named: bool)

  /** Increments that ignore depth, the sum of one plus the absolute depth, and how many were summed. */
  datatype Cost = Cost(flat: nat, weighted: nat, count: nat)

  datatype Frame = Frame(draft: nat, ownsCognitive: bool, base: nat, cyclomatic: nat, cost: Cost)

  // ----- the depth-weighted increments, and the score as a function of the depth -----

  function Count(n: Node): nat
    decreases n, 1
  {
    match n
    case Plain(parts) => CountAll(parts)
    case Function(_, _, body) => Count(body)
    case If(test, consequent, alternate) => 1 + CountLadder(n)
    case Conditional(condition, yes, no) => 1 + Count(condition) + Count(yes) + Count(no)
    case Loop(head, body, _) => 1 + CountAll(head) + Count(body)
    case Switch(discriminant, cases) => 1 + Count(discriminant) + CountAll(cases)
    case Case(guard, parts) => (if guard.Some? then Count(guard.value) else 0) + CountAll(parts)
    case Catch(parts, body) => 1 + CountAll(parts) + Count(body)
    case Jump(_) => 0
    case Logical(_, left, right) => Count(left) + Count(right)
    case LogicalAssignment(target, value) => Count(target) + Count(value)
  }

  function CountLadder(n: Node): nat
    requires n.If?
    decreases n, 0
  {
    Count(n.test) + Count(n.consequent) +
    match n.alternate
    case None => 0
    case Some(alternate) => if alternate.If? then CountLadder(alternate) else Count(alternate)
  }

  function CountAll(ns: seq<Node>): nat
    decreases ns
  {
    if ns == [] then 0 else Count(ns[0]) + CountAll(ns[1..])
  }

  /** One level deeper, every counted increment costs one more. */
  lemma {:induction false} DeepenOnce(n: Node, depth: nat)
    ensures Cognitive(n, depth + 1) == Cognitive(n, depth) + Count(n)
    decreases n, 1
  {
    match n
    case Plain(parts) => DeepenAll(parts, depth);
    case Function(_, _, body) => DeepenOnce(body, depth + 1);
    case If(_, _, _) => DeepenLadder(n, depth);
    case Conditional(_, _, _) => DeepenConditional(n, depth);
    case Loop(_, _, _) => DeepenLoop(n, depth);
    case Switch(discriminant, cases) =>
      DeepenOnce(discriminant, depth);
      DeepenAll(cases, depth + 1);
    case Case(guard, parts) =>
      if guard.Some? {
        DeepenOnce(guard.value, depth);
      }
      DeepenAll(parts, depth);
    case Catch(parts, body) =>
      DeepenAll(parts, depth);
      DeepenOnce(body, depth + 1);
    case Jump(_) =>
    case Logical(_, _, _) => DeepenOperands(n, depth);
    case LogicalAssignment(target, value) =>
      DeepenOnce(target, depth);
      DeepenOnce(value, depth);
  }

  lemma {:induction false} DeepenConditional(n: Node, depth: nat)
    requires n.Conditional?
    ensures Cognitive(n, depth + 1) == Cognitive(n, depth) + Count(n)
    decreases n, 0
  {
    DeepenOnce(n.condition, depth);
    DeepenOnce(n.yes, depth + 1);
    DeepenOnce(n.no, depth + 1);
  }

  lemma {:induction false} DeepenLoop(n: Node, depth: nat)
    requires n.Loop?
    ensures Cognitive(n, depth + 1) == Cognitive(n, depth) + Count(n)
    decreases n, 0
  {
    DeepenAll(n.head, depth);
    DeepenOnce(n.body, depth + 1);
  }

  lemma {:induction false} DeepenLadder(n: Node, depth: nat)
    requires n.If?
    ensures Ladder(n, depth + 1) == Ladder(n, depth) + CountLadder(n)
    decreases n, 0
  {
    DeepenOnce(n.test, depth);
    DeepenOnce(n.consequent, depth + 1);
    match n.alternate
    case None =>
    case Some(alternate) =>
      if alternate.If? {
        DeepenLadder(alternate, depth);
      } else {
        DeepenOnce(alternate, depth + 1);
      }
  }

  lemma {:induction false} DeepenOperands(n: Node, depth: nat)
    requires n.Logical?
    ensures Operands(n, depth + 1) == Operands(n, depth) + Count(n)
    decreases n, 0
  {
    DeepenOperand(n.left, depth);
    DeepenOperand(n.right, depth);
  }

  lemma {:induction false} DeepenOperand(n: Node, depth: nat)
    ensures OperandOf(n, depth + 1) == OperandOf(n, depth) + Count(n)
    decreases n, 2
  {
    if n.Logical? {
      DeepenOperands(n, depth);
    } else {
      DeepenOnce(n, depth);
    }
  }

  lemma {:induction false} DeepenAll(ns: seq<Node>, depth: nat)
    ensures CognitiveAll(ns, depth + 1) == CognitiveAll(ns, depth) + CountAll(ns)
    decreases ns
  {
    if ns != [] {
      DeepenOnce(ns[0], depth);
      DeepenAll(ns[1..], depth);
    }
  }

  /** A function's score at an absolute depth is its own score plus the depth once per increment. */
  lemma {:induction false} Deepen(n: Node, depth: nat)
    ensures Cognitive(n, depth) == Cognitive(n, 0) + Count(n) * depth
    decreases depth
  {
    if depth > 0 {
      Deepen(n, depth - 1);
      DeepenOnce(n, depth - 1);
      assert Count(n) * depth == Count(n) * (depth - 1) + Count(n);
    }
  }

  // ----- runs of one operator -----

  /** The runs a stretch of operators adds behind `previous`. */
  function RunsBehind(previous: Option<Operator>, ops: seq<Operator>): nat
    decreases |ops|
  {
    if ops == [] then 0 else (if previous == Some(ops[0]) then 0 else 1) + RunsBehind(Some(ops[0]), ops[1..])
  }

  function Last(previous: Option<Operator>, ops: seq<Operator>): Option<Operator> {
    if ops == [] then previous else Some(ops[|ops| - 1])
  }

  lemma RunsConcat(previous: Option<Operator>, a: seq<Operator>, b: seq<Operator>)
    ensures RunsBehind(previous, a + b) == RunsBehind(previous, a) + RunsBehind(Last(previous, a), b)
    ensures Last(previous, a + b) == Last(Last(previous, a), b)
    decreases |a|
  {
    if a == [] {
      assert a + b == b;
    } else {
      assert (a + b)[1..] == a[1..] + b;
      RunsConcat(Some(a[0]), a[1..], b);
    }
  }

  ghost function Starts(ops: seq<Operator>): set<int> {
    set i | 0 <= i < |ops| && StartsRun(ops, i)
  }

  lemma {:induction false} RunsAreMaximal(ops: seq<Operator>)
    ensures RunsBehind(None, ops) == Runs(ops)
  {
    assert Runs(ops) == |Starts(ops)|;
    if ops != [] {
      var front, last := ops[..|ops| - 1], ops[|ops| - 1];
      RunsAreMaximal(front);
      assert ops == front + [last];
      RunsConcat(None, front, [last]);
      assert RunsBehind(Last(None, front), [last]) == if Last(None, front) == Some(last) then 0 else 1;
      forall i | 0 <= i < |front| ensures StartsRun(ops, i) == StartsRun(front, i) {
      }
      if StartsRun(ops, |front|) {
        assert Starts(ops) == Starts(front) + {|front|};
      } else {
        assert Starts(ops) == Starts(front);
      }
    } else {
      assert Starts(ops) == {};
    }
  }

  // ----- what a stretch of the walk does -----

  /** The reporting keys and their drafts. */
  datatype Sheet = Sheet(keys: map<string, nat>, drafts: seq<Draft>)

  function TableOf(sheet: Sheet): Table {
    Table(sheet.keys, seq(|sheet.drafts|, i requires 0 <= i < |sheet.drafts| => Slot(sheet.drafts[i].line, sheet.drafts[i].named)))
  }

  function CyclomaticAt(sheet: Sheet, i: nat): nat {
    if i < |sheet.drafts| then sheet.drafts[i].cyclomatic else 0
  }

  function CognitiveAt(sheet: Sheet, i: nat): nat {
    if i < |sheet.drafts| then sheet.drafts[i].cognitive else 0
  }

  /** The sheet holds the keys of `r`, and every draft took in the functions of `r`. */
  ghost predicate Filled(before: Sheet, after: Sheet, r: (Table, seq<Assigned>)) {
    && TableOf(after) == r.0
    && |before.drafts| <= |after.drafts|
    && (forall a :: a in r.1 ==> a.index < |after.drafts|)
    && forall i :: 0 <= i < |after.drafts| ==>
        && after.drafts[i].cyclomatic == Worst(r.1, i, CyclomaticAt(before, i))
        && after.drafts[i].cognitive == Owned(r.1, i, CognitiveAt(before, i))
  }

  function Owner(frames: seq<Frame>): Option<nat> {
    if frames == [] then None else Some(frames[|frames| - 1].draft)
  }

  function Total(cost: Cost): nat {
    cost.flat + cost.weighted
  }

  /** The innermost open function took in the increments; the others and its identity stand. */
  ghost predicate Grown(before: seq<Frame>, after: seq<Frame>, branches: nat, cost: nat, count: nat) {
    && |after| == |before|
    && (before != [] ==>
          var f, g := before[|before| - 1], after[|before| - 1];
          && after[..|before| - 1] == before[..|before| - 1]
          && g.draft == f.draft && g.ownsCognitive == f.ownsCognitive && g.base == f.base
          && g.cyclomatic == f.cyclomatic + branches
          && Total(g.cost) == Total(f.cost) + cost
          && g.cost.count == f.cost.count + count)
  }

  lemma WorstConcat(a: seq<Assigned>, b: seq<Assigned>, i: nat, floor: nat)
    ensures Worst(a + b, i, floor) == Worst(b, i, Worst(a, i, floor))
    ensures Owned(a + b, i, floor) == Owned(b, i, Owned(a, i, floor))
    decreases |a|
  {
    if a == [] {
      assert a + b == b;
    } else {
      assert (a + b)[1..] == a[1..] + b;
      var x := a[0];
      WorstConcat(a[1..], b, i, if x.index == i && x.site.cyclomatic > floor then x.site.cyclomatic else floor);
      WorstConcat(a[1..], b, i, if x.index == i && x.owns then Saturate(x.site.cognitive) else floor);
    }
  }

  lemma Untouched(a: seq<Assigned>, i: nat, floor: nat)
    requires forall x :: x in a ==> x.index != i
    ensures Worst(a, i, floor) == floor && Owned(a, i, floor) == floor
  {
  }

  lemma WorstMax(a: seq<Assigned>, i: nat, floor: nat, c: nat)
    ensures Worst(a, i, if c > floor then c else floor) == var w := Worst(a, i, floor); if c > w then c else w
    ensures Worst(a, i, floor) >= floor
    decreases |a|
  {
    if a != [] {
      var x := a[0];
      var next := if x.index == i && x.site.cyclomatic > floor then x.site.cyclomatic else floor;
      WorstMax(a[1..], i, next, c);
    }
  }

  lemma FilledThen(a: Sheet, b: Sheet, c: Sheet, r: (Table, seq<Assigned>), s: (Table, seq<Assigned>))
    requires Filled(a, b, r) && Filled(b, c, s)
    ensures Filled(a, c, Join(r, s))
  {
    forall i | 0 <= i < |c.drafts|
      ensures c.drafts[i].cyclomatic == Worst(r.1 + s.1, i, CyclomaticAt(a, i))
      ensures c.drafts[i].cognitive == Owned(r.1 + s.1, i, CognitiveAt(a, i))
    {
      WorstConcat(r.1, s.1, i, CyclomaticAt(a, i));
      WorstConcat(r.1, s.1, i, CognitiveAt(a, i));
      if i >= |b.drafts| {
        Untouched(r.1, i, 0);
      }
    }
  }

  lemma {:induction false} OwnersAreNew(table: Table, owner: Option<nat>, n: Node)
    requires IsTable(table) && (owner.Some? ==> owner.value < |table.slots|)
    ensures forall a :: a in Assign(table, owner, n).1 && a.owns ==> a.index >= |table.slots|
    decreases n, 1, 0
  {
    if n.Function? {
      var (met, index, owns) := Resolve(table, owner, n.own, n.line);
      OwnersAreNewAll(met, Some(index), n, [n.body]);
    } else {
      OwnersAreNewAll(table, owner, n, Parts(n));
    }
  }

  lemma {:induction false} OwnersAreNewAll(table: Table, owner: Option<nat>, n: Node, parts: seq<Node>)
    requires IsTable(table) && (owner.Some? ==> owner.value < |table.slots|)
    requires forall part :: part in parts ==> part < n
    ensures forall a :: a in AssignAll(table, owner, n, parts).1 && a.owns ==> a.index >= |table.slots|
    decreases n, 0, |parts|
  {
    if parts != [] {
      assert parts[0] in parts && forall part :: part in parts[1..] ==> part in parts;
      OwnersAreNew(table, owner, parts[0]);
      OwnersAreNewAll(Assign(table, owner, parts[0]).0, owner, n, parts[1..]);
    }
  }

  ghost predicate Below(n: Node, parts: seq<Node>) {
    forall part :: part in parts ==> part < n
  }

  /** One traversal behind another. */
  ghost function Join(r: (Table, seq<Assigned>), s: (Table, seq<Assigned>)): (Table, seq<Assigned>) {
    (s.0, r.1 + s.1)
  }

  lemma BelowRest(n: Node, parts: seq<Node>)
    requires parts != [] && Below(n, parts)
    ensures parts[0] < n && Below(n, parts[1..])
  {
    assert parts[0] in parts;
    assert forall part :: part in parts[1..] ==> part in parts;
  }

  lemma AssignStep(table: Table, owner: Option<nat>, n: Node, x: Node, rest: seq<Node>)
    requires IsTable(table) && (owner.Some? ==> owner.value < |table.slots|)
    requires x < n && Below(n, rest)
    ensures Below(n, [x] + rest)
    ensures AssignAll(table, owner, n, [x] + rest) == Join(Assign(table, owner, x), AssignAll(Assign(table, owner, x).0, owner, n, rest))
  {
    assert ([x] + rest)[1..] == rest;
  }

  lemma {:induction false} AssignOneMore(table: Table, owner: Option<nat>, n: Node, done: seq<Node>, p: Node)
    requires IsTable(table) && (owner.Some? ==> owner.value < |table.slots|)
    requires Below(n, done) && p < n
    ensures Below(n, done + [p])
    ensures AssignAll(table, owner, n, done + [p]) == Join(AssignAll(table, owner, n, done), Assign(AssignAll(table, owner, n, done).0, owner, p))
    decreases |done|
  {
    hide Assign, AssignAll;
    NothingAssigned(table, owner, n);
    if done == [] {
      AssignStep(table, owner, n, p, []);
      NothingAssigned(Assign(table, owner, p).0, owner, n);
      var own := Assign(table, owner, p).1;
      assert own + [] == own && [] + own == own;
      assert done + [p] == [p] + [];
    } else {
      BelowRest(n, done);
      var first := Assign(table, owner, done[0]);
      AssignOneMore(first.0, owner, n, done[1..], p);
      AssignStep(table, owner, n, done[0], done[1..]);
      AssignStep(table, owner, n, done[0], done[1..] + [p]);
      assert done == [done[0]] + done[1..];
      assert done + [p] == [done[0]] + (done[1..] + [p]);
      JoinAssociates(first, AssignAll(first.0, owner, n, done[1..]), Assign(AssignAll(first.0, owner, n, done[1..]).0, owner, p));
    }
  }

  lemma NothingAssigned(table: Table, owner: Option<nat>, n: Node)
    requires IsTable(table) && (owner.Some? ==> owner.value < |table.slots|)
    ensures AssignAll(table, owner, n, []) == (table, [])
  {
  }

  lemma JoinAssociates(r: (Table, seq<Assigned>), s: (Table, seq<Assigned>), t: (Table, seq<Assigned>))
    ensures Join(r, Join(s, t)) == Join(Join(r, s), t)
  {
    assert r.1 + (s.1 + t.1) == (r.1 + s.1) + t.1;
  }

  // ----- keys of their own -----

  /** Different keys stand at different places. */
  ghost predicate Distinct(table: Table) {
    IsTable(table) && forall a, b :: a in table.keys && b in table.keys && a != b ==> table.keys[a] != table.keys[b]
  }

  ghost predicate Extends(table: Table, more: Table) {
    table.slots <= more.slots && forall key :: key in table.keys ==> key in more.keys && more.keys[key] == table.keys[key]
  }

  lemma ResolveKeeps(table: Table, owner: Option<nat>, own: string, line: nat)
    requires Distinct(table) && (owner.Some? ==> owner.value < |table.slots|)
    ensures var more := Resolve(table, owner, own, line).0; Distinct(more) && Extends(table, more)
  {
  }

  lemma {:induction false} DecimalsDiffer(a: nat, b: nat)
    requires Decimal(a) == Decimal(b)
    ensures a == b
    decreases a
  {
    DecimalEnds(a);
    DecimalEnds(b);
    assert "0123456789"[a % 10] == "0123456789"[b % 10];
    if a >= 10 && b >= 10 {
      assert Decimal(a)[..|Decimal(a)| - 1] == Decimal(a / 10) && Decimal(b)[..|Decimal(b)| - 1] == Decimal(b / 10);
      DecimalsDiffer(a / 10, b / 10);
    }
  }

  lemma DecimalEnds(n: nat)
    ensures Decimal(n) != [] && Decimal(n)[|Decimal(n)| - 1] == "0123456789"[n % 10] && (|Decimal(n)| == 1 <==> n < 10)
  {
    if n >= 10 {
      assert Decimal(n / 10) != [] by { DecimalEnds(n / 10); }
    }
  }

  /** Same-named functions on different lines have keys of their own, as long as the name is not the key of something unnamed. */
  lemma NamedApart(table: Table, owner: Option<nat>, own: string, line: nat, later: Table, other: Option<nat>, elsewhere: nat)
    requires Distinct(table) && Distinct(later) && own != "" && line != elsewhere
    requires (owner.Some? ==> owner.value < |table.slots|) && (other.Some? ==> other.value < |later.slots|)
    requires own in table.keys ==> table.slots[table.keys[own]].named
    requires Extends(Resolve(table, owner, own, line).0, later)
    ensures Resolve(later, other, own, elsewhere).1 != Resolve(table, owner, own, line).1
  {
    var r := Resolve(table, owner, own, line);
    var key, next := KeyOf(table, own, line), KeyOf(later, own, elsewhere);
    KeysDiffer(own, line, elsewhere);
    assert key in r.0.keys && r.0.keys[key] == r.1 && own in r.0.keys;
    assert later.keys[key] == r.1 && later.slots[later.keys[own]] == r.0.slots[r.0.keys[own]];
    assert key != next;
  }

  lemma KeysDiffer(own: string, line: nat, elsewhere: nat)
    requires line != elsewhere
    ensures own + ":" + Decimal(line) != own + ":" + Decimal(elsewhere)
    ensures own + ":" + Decimal(line) != own && own + ":" + Decimal(elsewhere) != own
  {
    var a, b := own + ":" + Decimal(line), own + ":" + Decimal(elsewhere);
    assert a[|own| + 1..] == Decimal(line) && b[|own| + 1..] == Decimal(elsewhere);
    if a == b {
      DecimalsDiffer(line, elsewhere);
    }
    assert |a| > |own| && |b| > |own|;
  }

  // ----- what the drafts say about the functions -----

  /** Each key has at most one owner: later owners have later keys. */
  ghost predicate OwnersRise(sites: seq<Assigned>) {
    forall i, j :: 0 <= i < j < |sites| && sites[i].owns && sites[j].owns ==> sites[i].index < sites[j].index
  }

  lemma RiseConcat(a: seq<Assigned>, b: seq<Assigned>, limit: nat)
    requires OwnersRise(a) && OwnersRise(b)
    requires forall x :: x in a ==> x.index < limit
    requires forall x :: x in b && x.owns ==> x.index >= limit
    ensures OwnersRise(a + b)
  {
  }

  lemma {:induction false} AssignRises(table: Table, owner: Option<nat>, n: Node)
    requires IsTable(table) && (owner.Some? ==> owner.value < |table.slots|)
    ensures OwnersRise(Assign(table, owner, n).1)
    decreases n, 1, 0
  {
    if n.Function? {
      var (met, index, owns) := Resolve(table, owner, n.own, n.line);
      AssignRisesAll(met, Some(index), n, [n.body]);
      OwnersAreNewAll(met, Some(index), n, [n.body]);
      RiseConcat([Assigned(SiteOf(n), index, owns)], AssignAll(met, Some(index), n, [n.body]).1, |met.slots|);
    } else {
      AssignRisesAll(table, owner, n, Parts(n));
    }
  }

  lemma {:induction false} AssignRisesAll(table: Table, owner: Option<nat>, n: Node, parts: seq<Node>)
    requires IsTable(table) && (owner.Some? ==> owner.value < |table.slots|)
    requires forall part :: part in parts ==> part < n
    ensures OwnersRise(AssignAll(table, owner, n, parts).1)
    decreases n, 0, |parts|
  {
    if parts != [] {
      BelowRest(n, parts);
      var (first, a) := Assign(table, owner, parts[0]);
      AssignRises(table, owner, parts[0]);
      AssignRisesAll(first, owner, n, parts[1..]);
      OwnersAreNewAll(first, owner, n, parts[1..]);
      RiseConcat(a, AssignAll(first, owner, n, parts[1..]).1, |first.slots|);
    }
  }

  lemma {:induction false} OwnedByOwner(sites: seq<Assigned>, k: nat, floor: nat)
    requires OwnersRise(sites) && k < |sites| && sites[k].owns
    ensures Owned(sites, sites[k].index, floor) == Saturate(sites[k].site.cognitive)
    decreases |sites|
  {
    var rest := sites[1..];
    forall i, j | 0 <= i < j < |rest| && rest[i].owns && rest[j].owns ensures rest[i].index < rest[j].index {
      assert rest[i] == sites[i + 1] && rest[j] == sites[j + 1];
    }
    var first := sites[0];
    if k == 0 {
      NoOtherOwner(rest, first.index, Saturate(first.site.cognitive));
    } else {
      assert rest[k - 1] == sites[k];
      OwnedByOwner(rest, k - 1, if first.index == sites[k].index && first.owns then Saturate(first.site.cognitive) else floor);
    }
  }

  lemma NoOtherOwner(sites: seq<Assigned>, index: nat, floor: nat)
    requires forall a :: a in sites && a.owns ==> a.index != index
    ensures Owned(sites, index, floor) == floor
  {
  }

  lemma {:induction false} WorstIsMaximum(sites: seq<Assigned>, index: nat, floor: nat)
    ensures var w := Worst(sites, index, floor);
      && w >= floor && (forall a :: a in sites && a.index == index ==> a.site.cyclomatic <= w)
      && (w == floor || exists a :: a in sites && a.index == index && a.site.cyclomatic == w)
    decreases |sites|
  {
    if sites != [] {
      var a := sites[0];
      WorstIsMaximum(sites[1..], index, if a.index == index && a.site.cyclomatic > floor then a.site.cyclomatic else floor);
      assert sites == [a] + sites[1..];
    }
  }

  /**
  What the report says: every function that created a key has its own cognitive
  score there, and every key has the worst cyclomatic number of its functions.
  */
  lemma ReportedScores(program: Node, drafts: seq<Draft>)
    requires var sites := Assign(Table(map[], []), None, program).1;
      forall i :: 0 <= i < |drafts| ==> drafts[i].cyclomatic == Worst(sites, i, 0) && drafts[i].cognitive == Owned(sites, i, 0)
    ensures var sites := Assign(Table(map[], []), None, program).1;
      && (forall a :: a in sites && a.owns && a.index < |drafts| ==>
          drafts[a.index].cognitive == if a.site.cognitive <= U32_MAX then a.site.cognitive else U32_MAX)
      && (forall a :: a in sites && a.index < |drafts| ==> a.site.cyclomatic <= drafts[a.index].cyclomatic)
  {
    var sites := Assign(Table(map[], []), None, program).1;
    AssignRises(Table(map[], []), None, program);
    forall a | a in sites && a.index < |drafts|
      ensures a.owns ==> drafts[a.index].cognitive == Saturate(a.site.cognitive)
      ensures a.site.cyclomatic <= drafts[a.index].cyclomatic
    {
      WorstIsMaximum(sites, a.index, 0);
      if a.owns {
        var k :| 0 <= k < |sites| && sites[k] == a;
        OwnedByOwner(sites, k, 0);
      }
    }
  }
}
