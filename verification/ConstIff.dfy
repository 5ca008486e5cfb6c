/**
The reorder of an accepted run of consts keeps what it evaluates to, for every
way objects may convert, exactly when no conversion of an object is in the way.
*/
module ConstIff {
  import opened Options
  import opened ConstRuns
  import opened ConstReorder
  import opened ConstActs

  /** Each declaration declares something, and no name is declared twice. */
  ghost predicate WellNamed(group: seq<Declaration>) {
    && (forall i :: 0 <= i < |group| ==> group[i].declarators != [] && Own(group[i].declarators))
    && (forall i, j :: 0 <= i < j < |group| ==> Separate(group[i], group[j]))
  }

  /** Whatever converting an object does, a run that evaluates ends as it would have. */
  ghost predicate Keeps(group: seq<Declaration>) {
    forall acts: Conversion, s: State :: Lawful(acts) && Bound(Flat(group)) !! s.env.Keys && RunAll(acts, group, s).Some? ==>
      RunAll(acts, Singles(group) + Multis(group), s) == RunAll(acts, group, s)
  }

  lemma {:induction false} BoundFlat(group: seq<Declaration>, name: string)
    ensures name in Bound(Flat(group)) <==> exists i :: 0 <= i < |group| && name in Bound(group[i].declarators)
    decreases |group|
  {
    hide Bound;
    if group == [] {
      assert Bound(Flat(group)) == {} by { NothingBound(); }
    } else {
      BoundConcat(group[0].declarators, Flat(group[1..]));
      BoundFlat(group[1..], name);
      assert forall i :: 0 <= i < |group[1..]| ==> group[1..][i] == group[i + 1];
      assert forall i :: 0 < i < |group| ==> group[i] == group[1..][i - 1];
    }
  }

  lemma NothingBound()
    ensures Bound([]) == {}
  {
  }

  lemma {:induction false} OwnConcat(a: seq<Declarator>, b: seq<Declarator>)
    requires Own(a) && Own(b) && Bound(a) !! Bound(b)
    ensures Own(a + b)
    decreases |a|
  {
    if a == [] {
      assert a + b == b;
    } else {
      assert (a + b)[1..] == a[1..] + b;
      BoundConcat(a[1..], b);
      OwnConcat(a[1..], b);
    }
  }

  lemma WellNamedRest(group: seq<Declaration>)
    requires group != [] && WellNamed(group)
    ensures WellNamed(group[1..])
  {
    hide Own, Separate;
    forall i, j | 0 <= i < j < |group[1..]| ensures Separate(group[1..][i], group[1..][j]) {
      assert Separate(group[i + 1], group[j + 1]);
    }
  }

  lemma {:induction false} OwnFlat(group: seq<Declaration>)
    requires WellNamed(group)
    ensures Own(Flat(group))
    decreases |group|
  {
    hide Own, Bound;
    if group == [] {
      assert Own([]) by { NothingOwned(); }
    } else {
      WellNamedRest(group);
      OwnFlat(group[1..]);
      forall name | name in Bound(group[0].declarators) ensures name !in Bound(Flat(group[1..])) {
        BoundFlat(group[1..], name);
        assert forall i :: 0 <= i < |group[1..]| ==> Separate(group[0], group[i + 1]) && group[1..][i] == group[i + 1];
      }
      OwnConcat(group[0].declarators, Flat(group[1..]));
    }
  }

  lemma NothingOwned()
    ensures Own([])
  {
  }

  lemma {:induction false} FlatHas(group: seq<Declaration>, d: Declarator)
    ensures d in Flat(group) <==> exists g :: g in group && d in g.declarators
    decreases |group|
  {
    if group != [] {
      FlatHas(group[1..], d);
    }
  }

  lemma FreshIn(group: seq<Declaration>, env: Env)
    requires WellNamed(group) && Bound(Flat(group)) !! env.Keys
    ensures Fresh(group, env)
  {
    hide Bound, Own;
    forall i | 0 <= i < |group| ensures Bound(group[i].declarators) !! env.Keys {
      forall name | name in Bound(group[i].declarators) ensures name !in env {
        BoundFlat(group, name);
      }
    }
  }

  /** What every declarator of a run is known to hold. */
  lemma Settled(group: seq<Declaration>)
    requires WellNamed(group) && Scoped(Flat(group))
    ensures forall d :: d in Flat(group) ==> Settles(d, Prims(Flat(group), {}))
    ensures AllKnown(group, Prims(Flat(group), {})) && Prims(Flat(group), {}) <= Bound(Flat(group))
  {
    hide Settles, Scoped, Own, Prims, Bound, WellNamed;
    OwnFlat(group);
    PrimsSettle(Flat(group), {});
    PrimsGrow(Flat(group), {});
    var prims := Prims(Flat(group), {});
    forall g | g in group ensures Known(g.declarators, prims) {
      forall i | 0 <= i < |g.declarators| ensures Settles(g.declarators[i], prims) {
        FlatHas(group, g.declarators[i]);
      }
      KnownOf(g.declarators, prims);
    }
  }

  lemma KnownOf(ds: seq<Declarator>, prims: set<string>)
    requires forall i :: 0 <= i < |ds| ==> Settles(ds[i], prims)
    ensures Known(ds, prims)
  {
  }

  /** A calm run that may be reordered is kept. */
  lemma CalmKeeps(group: seq<Declaration>)
    requires CanReorder(group) && WellNamed(group)
    requires Scoped(Flat(group)) ==> Calm(group, Prims(Flat(group), {}))
    ensures Keeps(group)
  {
    hide CanReorder, WellNamed, Scoped, Calm, Prims, Lawful, RunAll, AllKnown, Own;
    forall acts: Conversion, s: State | Lawful(acts) && Bound(Flat(group)) !! s.env.Keys && RunAll(acts, group, s).Some?
      ensures RunAll(acts, Singles(group) + Multis(group), s) == RunAll(acts, group, s)
    {
      RunIsDeclare(acts, group, s);
      OwnFlat(group);
      RunsAreScoped(acts, Flat(group), s);
      Settled(group);
      FreshIn(group, s.env);
      ReorderKeepsState(acts, group, Prims(Flat(group), {}), s);
    }
  }

  // ----- and no other -----

  /** Every name that is not declared holds an object. */
  function Before(ds: seq<Declarator>): State {
    State(map name | name in ReadsOfAll(ds) - Bound(ds) :: Composite(0, []), [])
  }

  lemma {:induction false} SinglesConcat(a: seq<Declaration>, b: seq<Declaration>)
    ensures Singles(a + b) == Singles(a) + Singles(b)
    decreases |a|
  {
    if a == [] {
      assert a + b == b;
    } else {
      assert (a + b)[0] == a[0] && (a + b)[1..] == a[1..] + b;
      SinglesConcat(a[1..], b);
      assert Singles(a) == (if a[0].multiline then [] else [a[0]]) + Singles(a[1..]);
    }
  }

  lemma {:induction false} MultisConcat(a: seq<Declaration>, b: seq<Declaration>)
    ensures Multis(a + b) == Multis(a) + Multis(b)
    decreases |a|
  {
    if a == [] {
      assert a + b == b;
    } else {
      assert (a + b)[0] == a[0] && (a + b)[1..] == a[1..] + b;
      MultisConcat(a[1..], b);
      assert Multis(a) == (if a[0].multiline then [a[0]] else []) + Multis(a[1..]);
    }
  }

  /** A run, and the run reordered, around one of its declarations. */
  lemma Around(group: seq<Declaration>, k: nat)
    requires k < |group|
    ensures Flat(group) == Flat(group[..k]) + group[k].declarators + Flat(group[k + 1..])
    ensures var r := Singles(group) + Multis(group);
      if group[k].multiline
      then Flat(r) == Flat(Singles(group) + Multis(group[..k])) + group[k].declarators + Flat(Multis(group[k + 1..]))
      else Flat(r) == Flat(Singles(group[..k])) + group[k].declarators + Flat(Singles(group[k + 1..]) + Multis(group))
  {
    var before, d, after := group[..k], group[k], group[k + 1..];
    assert group == before + [d] + after;
    FlatThree(before, d, after);
    SinglesConcat(before + [d], after);
    SinglesConcat(before, [d]);
    MultisConcat(before + [d], after);
    MultisConcat(before, [d]);
    assert [d][1..] == [];
    if d.multiline {
      assert Singles([d]) == [] && Multis([d]) == [d];
      assert Singles(group) + Multis(group) == (Singles(group) + Multis(before)) + [d] + Multis(after);
      FlatThree(Singles(group) + Multis(before), d, Multis(after));
    } else {
      assert Singles([d]) == [d] && Multis([d]) == [];
      assert Singles(group) + Multis(group) == Singles(before) + [d] + (Singles(after) + Multis(group));
      FlatThree(Singles(before), d, Singles(after) + Multis(group));
    }
  }

  lemma FlatThree(a: seq<Declaration>, d: Declaration, b: seq<Declaration>)
    ensures Flat(a + [d] + b) == Flat(a) + d.declarators + Flat(b)
  {
    FlatConcat(a + [d], b);
    FlatConcat(a, [d]);
    assert [d][1..] == [] && Flat([d]) == d.declarators + [];
  }

  /** A name of one declaration is no other's. */
  lemma NotElsewhere(group: seq<Declaration>, k: nat, name: string, others: seq<Declaration>)
    requires WellNamed(group) && k < |group| && name in Bound(group[k].declarators)
    requires forall g :: g in others ==> exists i :: 0 <= i < |group| && i != k && group[i] == g
    ensures name !in Bound(Flat(others))
  {
    hide Bound, Own;
    BoundFlat(others, name);
    forall m | 0 <= m < |others| ensures name !in Bound(others[m].declarators) {
      assert others[m] in others;
      var i :| 0 <= i < |group| && i != k && group[i] == others[m];
      if i < k {
        assert Separate(group[i], group[k]);
      } else {
        assert Separate(group[k], group[i]);
      }
    }
  }

  lemma {:induction false} SinglesAre(group: seq<Declaration>)
    ensures forall d :: d in Singles(group) <==> d in group && !d.multiline
    ensures forall d :: d in Multis(group) <==> d in group && d.multiline
    decreases |group|
  {
    if group != [] {
      SinglesAre(group[1..]);
    }
  }

  lemma {:induction false} OwnSplit(a: seq<Declarator>, d: Declarator, b: seq<Declarator>)
    requires Own(a + [d] + b)
    ensures d.name !in Bound(a) && d.name !in Bound(b)
    decreases |a|
  {
    assert a + [d] + b == a + ([d] + b);
    if a == [] {
      assert a + ([d] + b) == [d] + b && ([d] + b)[1..] == b;
    } else {
      assert (a + [d] + b)[1..] == a[1..] + [d] + b;
      BoundConcat(a[1..] + [d], b);
      BoundConcat(a[1..], [d]);
      OwnSplit(a[1..], d, b);
    }
  }

  lemma {:induction false} AllPlain(group: seq<Declaration>)
    requires forall i :: 0 <= i < |group| ==> IsSafe(group[i])
    ensures forall d :: d in Flat(group) ==> Plain(d)
    decreases |group|
  {
    if group != [] {
      AllPlain(group[1..]);
      assert IsSafe(group[0]);
    }
  }

  lemma FlatSame(a: seq<Declaration>, b: seq<Declaration>)
    requires forall g :: g in a ==> g in b
    ensures forall d :: d in Flat(a) ==> d in Flat(b)
  {
    forall d | d in Flat(a) ensures d in Flat(b) {
      FlatHas(a, d);
      FlatHas(b, d);
    }
  }

  /** What comes before declaration `k` in a run, and in the run reordered. */
  function Earlier(group: seq<Declaration>, k: nat): seq<Declaration>
    requires k < |group|
  {
    if group[k].multiline then Singles(group) + Multis(group[..k]) else Singles(group[..k])
  }

  function Later(group: seq<Declaration>, k: nat): seq<Declaration>
    requires k < |group|
  {
    if group[k].multiline then Multis(group[k + 1..]) else Singles(group[k + 1..]) + Multis(group)
  }

  /** Other declarations than `k`. */
  ghost predicate Elsewhere(group: seq<Declaration>, k: nat, others: seq<Declaration>) {
    forall g :: g in others ==> exists i :: 0 <= i < |group| && i != k && group[i] == g
  }

  lemma PartsElsewhere(group: seq<Declaration>, k: nat)
    requires k < |group|
    ensures Elsewhere(group, k, group[..k]) && Elsewhere(group, k, group[k + 1..])
    ensures Elsewhere(group, k, Singles(group[..k]) + Multis(group[..k])) && Elsewhere(group, k, Singles(group[k + 1..]) + Multis(group[k + 1..]))
  {
    SinglesAre(group[..k]);
    SinglesAre(group[k + 1..]);
    forall g | g in group[..k] ensures exists i :: 0 <= i < |group| && i != k && group[i] == g {
      var i :| 0 <= i < k && group[..k][i] == g;
      assert group[i] == g;
    }
    var after := group[k + 1..];
    forall g | g in after ensures exists i :: 0 <= i < |group| && i != k && group[i] == g {
      var i :| 0 <= i < |after| && after[i] == g;
      assert group[k + 1 + i] == g;
    }
  }

  lemma SidesElsewhere(group: seq<Declaration>, k: nat)
    requires k < |group|
    ensures Elsewhere(group, k, Earlier(group, k)) && Elsewhere(group, k, Later(group, k))
  {
    PartsElsewhere(group, k);
    SinglesAre(group);
    SinglesAre(group[..k]);
    SinglesAre(group[k + 1..]);
    forall g | g in Earlier(group, k) || g in Later(group, k) ensures exists i :: 0 <= i < |group| && i != k && group[i] == g {
      if g.multiline != group[k].multiline {
        assert g in group;
        var i :| 0 <= i < |group| && group[i] == g;
      } else {
        assert g in group[..k] || g in group[k + 1..];
      }
    }
  }

  /** A declarator in the run and in the run reordered. */
  lemma Sides(group: seq<Declaration>, k: nat, at: nat) returns (a: seq<Declarator>, b: seq<Declarator>, a': seq<Declarator>, b': seq<Declarator>)
    requires WellNamed(group) && k < |group| && at < |group[k].declarators|
    ensures var d := group[k].declarators[at];
      && Flat(group) == a + [d] + b && Flat(Singles(group) + Multis(group)) == a' + [d] + b'
      && d.name !in Bound(b) && d.name !in Bound(b')
    ensures a == Flat(group[..k]) + group[k].declarators[..at] && a' == Flat(Earlier(group, k)) + group[k].declarators[..at]
  {
    hide Flat, Bound, Own, Singles, Multis;
    var ds := group[k].declarators;
    var d := ds[at];
    Around(group, k);
    a, a' := Flat(group[..k]) + ds[..at], Flat(Earlier(group, k)) + ds[..at];
    b, b' := ds[at + 1..] + Flat(group[k + 1..]), ds[at + 1..] + Flat(Later(group, k));
    assert ds == ds[..at] + [d] + ds[at + 1..];
    OwnSplit(ds[..at], d, ds[at + 1..]);
    BoundHas(ds, d);
    PartsElsewhere(group, k);
    SidesElsewhere(group, k);
    NotElsewhere(group, k, d.name, group[k + 1..]);
    NotElsewhere(group, k, d.name, Later(group, k));
    BoundConcat(ds[at + 1..], Flat(group[k + 1..]));
    BoundConcat(ds[at + 1..], Flat(Later(group, k)));
  }

  /** The probe comes before the declarator in one of the two orders only. */
  lemma ProbeSides(group: seq<Declaration>, k: nat, m: nat, at: nat, probe: string)
    requires WellNamed(group) && k < |group| && m < |group| && probe in Bound(group[m].declarators) && at < |group[k].declarators|
    requires if group[k].multiline then k < m && !group[m].multiline else m < k && group[m].multiline
    ensures var ds := group[k].declarators[..at];
      (probe in Bound(Flat(group[..k]) + ds)) != (probe in Bound(Flat(Earlier(group, k)) + ds))
  {
    hide Flat, Bound, Own, Singles, Multis;
    var ds := group[k].declarators;
    BoundConcat(Flat(group[..k]), ds[..at]);
    BoundConcat(Flat(Earlier(group, k)), ds[..at]);
    assert ds == ds[..at] + ds[at..];
    BoundConcat(ds[..at], ds[at..]);
    OneElsewhere(group, m, k);
    NotElsewhere(group, m, probe, [group[k]]);
    assert Flat([group[k]]) == ds by { FlatThree([], group[k], []); assert [] + [group[k]] + [] == [group[k]]; NothingFlat(); }
    SinglesAre(group);
    SinglesAre(group[..k]);
    if group[k].multiline {
      assert group[m] in Earlier(group, k);
      InFlat(Earlier(group, k), group[m], probe);
      BeforeElsewhere(group, k, m);
      NotElsewhere(group, m, probe, group[..k]);
    } else {
      assert group[..k][m] == group[m];
      InFlat(group[..k], group[m], probe);
      SinglesElsewhere(group, k, m);
      NotElsewhere(group, m, probe, Singles(group[..k]));
    }
  }

  lemma NothingFlat()
    ensures Flat([]) == []
  {
  }

  lemma OneElsewhere(group: seq<Declaration>, m: nat, k: nat)
    requires k < |group| && k != m
    ensures Elsewhere(group, m, [group[k]])
  {
  }

  lemma BeforeElsewhere(group: seq<Declaration>, k: nat, m: nat)
    requires k <= m < |group|
    ensures Elsewhere(group, m, group[..k])
  {
    forall g | g in group[..k] ensures exists i :: 0 <= i < |group| && i != m && group[i] == g {
      var i :| 0 <= i < k && group[..k][i] == g;
      assert group[i] == g;
    }
  }

  lemma SinglesElsewhere(group: seq<Declaration>, k: nat, m: nat)
    requires k <= |group| && m < |group| && group[m].multiline
    ensures Elsewhere(group, m, Singles(group[..k]))
  {
    SinglesAre(group[..k]);
    forall g | g in Singles(group[..k]) ensures exists i :: 0 <= i < |group| && i != m && group[i] == g {
      var i :| 0 <= i < k && group[..k][i] == g;
      assert group[i] == g;
    }
  }

  lemma InFlat(group: seq<Declaration>, d: Declaration, name: string)
    requires d in group && name in Bound(d.declarators)
    ensures name in Bound(Flat(group))
  {
    hide Bound, Flat;
    BoundFlat(group, name);
    var i :| 0 <= i < |group| && group[i] == d;
  }

  lemma {:induction false} ReadsCovered(ds: seq<Declarator>)
    ensures ReadsOfAll(ds) <= Before(ds).env.Keys + Bound(ds)
  {
  }

  /** The run evaluates from there. */
  lemma Goes(group: seq<Declaration>, probe: string)
    requires (forall i :: 0 <= i < |group| ==> IsSafe(group[i])) && WellNamed(group) && Scoped(Flat(group))
    ensures var s, prims := Before(Flat(group)), Prims(Flat(group), {});
      && Exact(prims, s.env) && Bound(Flat(group)) !! s.env.Keys && Declare(Probing(probe), Flat(group), s).Some?
      && forall d :: d in Flat(group) ==> Settles(d, prims) && Plain(d)
  {
    hide Flat, Bound, Own, Declare, Scoped, Prims, Settles, IsSafe, Plain;
    Settled(group);
    AllPlain(group);
    var s := Before(Flat(group));
    assert forall name :: name in s.env ==> name !in Bound(Flat(group));
    ReadsCovered(Flat(group));
    DeclareGoes(probe, Flat(group), Prims(Flat(group), {}), s);
  }

  /** A declaration that acts, and a name that is moved across it. */
  lemma Witness(group: seq<Declaration>, k: nat, m: nat, probe: string)
    requires (forall i :: 0 <= i < |group| ==> IsSafe(group[i])) && WellNamed(group) && Scoped(Flat(group))
    requires k < |group| && m < |group| && Acts(group[k], Prims(Flat(group), {})) && probe in Bound(group[m].declarators)
    requires if group[k].multiline then k < m && !group[m].multiline else m < k && group[m].multiline
    ensures !Keeps(group)
  {
    hide IsSafe, Scoped, Prims, MayAct, Own, Bound, Flat, RunAll, Settles, Declare, Plain, Singles, Multis, WellNamed, Before, Lawful;
    var prims, flat, moved := Prims(Flat(group), {}), Flat(group), Singles(group) + Multis(group);
    var ds := group[k].declarators;
    var at :| 0 <= at < |ds| && ds[at].init.Some? && MayAct(ds[at].init.value, prims);
    var s := Before(flat);
    Goes(group, probe);
    var a, b, a', b' := Sides(group, k, at);
    ProbeSides(group, k, m, at, probe);
    InFlat(group, group[m], probe);
    SinglesAre(group);
    FlatSame(moved, group);
    TargetDiffers(probe, a, ds[at], b, a', b', prims, s);
    RunIsDeclare(Probing(probe), group, s);
    RunIsDeclare(Probing(probe), moved, s);
    ProbingIsLawful(probe);
  }

  lemma FirstBound(ds: seq<Declarator>)
    requires ds != []
    ensures ds[0].name in Bound(ds)
  {
  }

  /** A run that is not calm is changed, for some conversion. */
  lemma KeptIsCalm(group: seq<Declaration>)
    requires (forall i :: 0 <= i < |group| ==> IsSafe(group[i])) && WellNamed(group) && Scoped(Flat(group)) && Keeps(group)
    ensures Calm(group, Prims(Flat(group), {}))
  {
    hide IsSafe, Scoped, Prims, Keeps, Acts, Own, Bound, Flat;
    var prims := Prims(Flat(group), {});
    forall i, j | 0 <= i < j < |group| && group[i].multiline && !group[j].multiline ensures !Acts(group[i], prims) && !Acts(group[j], prims) {
      FirstBound(group[i].declarators);
      FirstBound(group[j].declarators);
      if Acts(group[i], prims) {
        Witness(group, i, j, group[j].declarators[0].name);
      } else if Acts(group[j], prims) {
        Witness(group, j, i, group[i].declarators[0].name);
      }
    }
  }

  /**
  An accepted run is kept, whatever converting an object does, exactly when it
  is calm, or cannot evaluate because it reads a name too early.
  */
  lemma ReorderIsRightIff(group: seq<Declaration>)
    requires CanReorder(group) && WellNamed(group)
    ensures Keeps(group) <==> (Scoped(Flat(group)) ==> Calm(group, Prims(Flat(group), {})))
  {
    hide Keeps, Scoped, Calm, Prims, WellNamed, Unused, IsSafe;
    if Keeps(group) {
      if Scoped(Flat(group)) {
        KeptIsCalm(group);
      }
    } else if Scoped(Flat(group)) ==> Calm(group, Prims(Flat(group), {})) {
      CalmKeeps(group);
    }
  }

  // ----- a run that is changed -----

  /** Converting an object counts the conversions. */
  function Counting(v: Value, t: State): Outcome {
    if IsPrimitive(v) then Yields(v, t.world) else Yields(Primitive(|t.world|), t.world + [1])
  }

  /** A template of the name `x`. */
  function Counted(name: string, x: string, multiline: bool): Declaration {
    Declaration([Declarator(name, true, Some(Template(0, [Converted(Identifier(x))])))], multiline)
  }

  lemma EvalCounted(x: string, s: State)
    requires x in s.env && !IsPrimitive(s.env[x])
    ensures Eval(Counting, Template(0, [Converted(Identifier(x))]), s) == Yields(Text(0, [Primitive(|s.world|)]), s.world + [1])
  {
    var e, es := Converted(Identifier(x)), [Converted(Identifier(x))];
    assert es[1..] == [];
    assert Eval(Counting, Identifier(x), s) == Yields(s.env[x], s.world);
    assert s.(world := s.world) == s;
    assert Eval(Counting, e, s) == Yields(Primitive(|s.world|), s.world + [1]);
    NoParts(s.(world := s.world + [1]));
    assert [Primitive(|s.world|)] + [] == [Primitive(|s.world|)];
    assert EvalAll(Counting, es, s) == AllYield([Primitive(|s.world|)] + [], s.world + [1]);
  }

  lemma NoParts(s: State)
    ensures EvalAll(Counting, [], s) == AllYield([], s.world)
  {
  }

  lemma DeclareCounted(name: string, x: string, multiline: bool, s: State)
    requires x in s.env && !IsPrimitive(s.env[x])
    ensures Declare(Counting, Counted(name, x, multiline).declarators, s)
         == Some(State(s.env[name := Text(0, [Primitive(|s.world|)])], s.world + [1]))
  {
    hide Eval;
    EvalCounted(x, s);
    var ds := Counted(name, x, multiline).declarators;
    assert ds[1..] == [];
  }

  lemma CountedMentions(name: string, x: string, multiline: bool)
    ensures IsSafe(Counted(name, x, multiline)) && Bound(Counted(name, x, multiline).declarators) == {name}
    ensures Mentioned(Counted(name, x, multiline).declarators) == {name, x}
  {
    var es, ds := [Converted(Identifier(x))], Counted(name, x, multiline).declarators;
    assert es[1..] == [] && ds[1..] == [];
    assert Names(es[0]) == Names(Identifier(x)) == {x} && AllNames([]) == {};
    assert AllNames(es) == Names(es[0]) + AllNames([]);
    assert Bound([]) == {} && Mentioned([]) == {};
    assert SideEffectFree(Identifier(x)) && SideEffectFree(es[0]);
  }

  lemma RunTwo(a: Declaration, b: Declaration, s: State, t: State, u: State)
    requires Declare(Counting, a.declarators, s) == Some(t) && Declare(Counting, b.declarators, t) == Some(u)
    ensures RunAll(Counting, [a, b], s) == Some(u)
  {
    hide Declare;
    assert [a, b][1..] == [b] && [b][1..] == [];
    assert RunAll(Counting, [], u) == Some(u);
    assert RunAll(Counting, [b], t) == Some(u);
  }

  lemma CanReorderTwo(a: string, b: string, x: string)
    requires a != b && a != x && b != x
    ensures CanReorder([Counted(a, x, true), Counted(b, x, false)])
  {
    hide IsSafe, Mentioned, Bound, Counted;
    CountedMentions(a, x, true);
    CountedMentions(b, x, false);
    var group := [Counted(a, x, true), Counted(b, x, false)];
    assert forall i :: 0 <= i < |group| ==> IsSafe(group[i]);
    assert Bound(group[0].declarators) !! Mentioned(group[1].declarators);
    assert Unused(group, 0) && Unused(group, 1);
  }

  lemma SplitTwo(a: Declaration, b: Declaration)
    requires a.multiline && !b.multiline
    ensures Singles([a, b]) + Multis([a, b]) == [b, a]
  {
    assert [a, b][1..] == [b] && [b][1..] == [];
    assert Singles([b]) == [b] && Multis([b]) == [];
    assert Singles([a, b]) == [b] && Multis([a, b]) == [a];
  }

  lemma CountingIsLawful()
    ensures Lawful(Counting)
  {
  }

  /** The first of two counts, then the second. */
  lemma CountTwo(a: string, b: string, d: Declaration, e: Declaration, x: string, s: State)
    requires a != x && x in s.env && !IsPrimitive(s.env[x]) && s.world == []
    requires exists m, n :: d == Counted(a, x, m) && e == Counted(b, x, n)
    ensures RunAll(Counting, [d, e], s) == Some(State(s.env[a := Text(0, [Primitive(0)])][b := Text(0, [Primitive(1)])], [1, 1]))
  {
    hide Declare, RunAll, Counting;
    var m, n :| d == Counted(a, x, m) && e == Counted(b, x, n);
    var t := State(s.env[a := Text(0, [Primitive(0)])], [1]);
    assert s.world + [1] == t.world && t.world + [1] == [1, 1] && |s.world| == 0 && |t.world| == 1;
    DeclareCounted(a, x, m, s);
    DeclareCounted(b, x, n, t);
    RunTwo(d, e, s, t, State(t.env[b := Text(0, [Primitive(1)])], [1, 1]));
  }

  /** The pass reorders this run, and it ends with the two counts exchanged. */
  lemma CountedAreExchanged(a: string, b: string, x: string)
    requires a != b && a != x && b != x
    ensures var group, s := [Counted(a, x, true), Counted(b, x, false)], State(map[x := Closure(0)], []);
      var first, second := Text(0, [Primitive(0)]), Text(0, [Primitive(1)]);
      && CanReorder(group) && Lawful(Counting)
      && RunAll(Counting, group, s) == Some(State(s.env[a := first][b := second], [1, 1]))
      && RunAll(Counting, Singles(group) + Multis(group), s) == Some(State(s.env[b := first][a := second], [1, 1]))
  {
    hide CanReorder, RunAll, Singles, Multis, Lawful, Counting;
    CountingIsLawful();
    CanReorderTwo(a, b, x);
    var d, e, s := Counted(a, x, true), Counted(b, x, false), State(map[x := Closure(0)], []);
    SplitTwo(d, e);
    CountTwo(a, b, d, e, x, s);
    CountTwo(b, a, e, d, x, s);
  }
}
