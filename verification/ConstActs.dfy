/**
Exactly when the reorder of a run of consts is right: when no conversion of an
object overtakes, or is overtaken by, another declaration.
*/
module ConstActs {
  import opened Options
  import opened ConstRuns
  import opened ConstReorder

  // ----- a run as one list of declarators -----

  function Flat(group: seq<Declaration>): seq<Declarator> {
    if group == [] then [] else group[0].declarators + Flat(group[1..])
  }

  lemma {:induction false} DeclareConcat(acts: Conversion, a: seq<Declarator>, b: seq<Declarator>, s: State)
    ensures Declare(acts, a + b, s) == match Declare(acts, a, s) { case None => None case Some(after) => Declare(acts, b, after) }
    decreases |a|
  {
    hide Eval;
    if a == [] {
      assert a + b == b;
    } else {
      assert (a + b)[1..] == a[1..] + b;
      if a[0].init.None? {
        DeclareConcat(acts, a[1..], b, s.(env := s.env[a[0].name := Undefined]));
      } else if Eval(acts, a[0].init.value, s).Yields? {
        var r := Eval(acts, a[0].init.value, s);
        DeclareConcat(acts, a[1..], b, State(s.env[a[0].name := r.value], r.world));
      }
    }
  }

  lemma {:induction false} RunIsDeclare(acts: Conversion, group: seq<Declaration>, s: State)
    ensures RunAll(acts, group, s) == Declare(acts, Flat(group), s)
    decreases |group|
  {
    hide Declare;
    if group == [] {
      assert Declare(acts, [], s) == Some(s) by { NothingDeclared(acts, s); }
    } else {
      DeclareConcat(acts, group[0].declarators, Flat(group[1..]), s);
      if Declare(acts, group[0].declarators, s).Some? {
        RunIsDeclare(acts, group[1..], Declare(acts, group[0].declarators, s).value);
      }
    }
  }

  lemma NothingDeclared(acts: Conversion, s: State)
    ensures Declare(acts, [], s) == Some(s)
  {
  }

  lemma {:induction false} FlatConcat(a: seq<Declaration>, b: seq<Declaration>)
    ensures Flat(a + b) == Flat(a) + Flat(b)
    decreases |a|
  {
    if a == [] {
      assert a + b == b;
    } else {
      assert (a + b)[1..] == a[1..] + b;
      FlatConcat(a[1..], b);
    }
  }

  lemma {:induction false} BoundConcat(a: seq<Declarator>, b: seq<Declarator>)
    ensures Bound(a + b) == Bound(a) + Bound(b)
    decreases |a|
  {
    if a == [] {
      assert a + b == b;
    } else {
      assert (a + b)[1..] == a[1..] + b;
      BoundConcat(a[1..], b);
    }
  }

  lemma {:induction false} BoundHas(ds: seq<Declarator>, d: Declarator)
    requires d in ds
    ensures d.name in Bound(ds)
    decreases |ds|
  {
    if ds[0] != d {
      BoundHas(ds[1..], d);
    }
  }

  // ----- names and what they hold -----

  /** The names an evaluation reads. */
  function Reads(e: Expr): set<string>
    decreases e
  {
    match e
    case Identifier(name) => {name}
    case Template(_, parts) => AllReads(parts)
    case Compound(_, _, parts) => AllReads(parts)
    case Converted(part) => Reads(part)
    case Effect(_, _, parts) => AllReads(parts)
    case _ => {}
  }

  function AllReads(es: seq<Expr>): set<string>
    decreases es
  {
    if es == [] then {} else Reads(es[0]) + AllReads(es[1..])
  }

  function ReadsOf(d: Declarator): set<string> {
    if d.init.None? then {} else Reads(d.init.value)
  }

  function ReadsOfAll(ds: seq<Declarator>): set<string> {
    if ds == [] then {} else ReadsOf(ds[0]) + ReadsOfAll(ds[1..])
  }

  /** No name is declared twice. */
  predicate Own(ds: seq<Declarator>) {
    ds == [] || (ds[0].name !in Bound(ds[1..]) && Own(ds[1..]))
  }

  /** No initializer reads a name that is not initialized yet. */
  predicate Scoped(ds: seq<Declarator>) {
    ds == [] || (ReadsOf(ds[0]) !! Bound(ds) && Scoped(ds[1..]))
  }

  /** The names that are given primitives, one declarator after another. */
  function Prims(ds: seq<Declarator>, prims: set<string>): set<string> {
    if ds == [] then prims else Prims(ds[1..], if DeclaresPrimitive(ds[0], prims) then prims + {ds[0].name} else prims)
  }

  ghost predicate Settles(d: Declarator, prims: set<string>) {
    d.name in prims <==> DeclaresPrimitive(d, prims)
  }

  lemma {:induction false} PrimsGrow(ds: seq<Declarator>, prims: set<string>)
    ensures prims <= Prims(ds, prims) <= prims + Bound(ds)
    decreases |ds|
  {
    if ds != [] {
      PrimsGrow(ds[1..], if DeclaresPrimitive(ds[0], prims) then prims + {ds[0].name} else prims);
    }
  }

  lemma SameHolding(d: Declarator, prims: set<string>, more: set<string>)
    requires forall name :: name in ReadsOf(d) ==> (name in prims <==> name in more)
    ensures DeclaresPrimitive(d, prims) == DeclaresPrimitive(d, more)
  {
  }

  /** With every name initialized before it is read, that is what they hold. */
  lemma {:induction false} PrimsSettle(ds: seq<Declarator>, prims: set<string>)
    requires Own(ds) && Scoped(ds) && prims !! Bound(ds)
    ensures forall d :: d in ds ==> Settles(d, Prims(ds, prims))
    decreases |ds|
  {
    hide DeclaresPrimitive;
    if ds != [] {
      var next := if DeclaresPrimitive(ds[0], prims) then prims + {ds[0].name} else prims;
      PrimsGrow(ds[1..], next);
      PrimsSettle(ds[1..], next);
      SameHolding(ds[0], prims, Prims(ds, prims));
      forall d | d in ds ensures Settles(d, Prims(ds, prims)) {
        assert d == ds[0] || d in ds[1..];
      }
    }
  }

  /** Exactly the names in `prims` hold primitives. */
  ghost predicate Exact(prims: set<string>, env: Env) {
    forall name :: name in env ==> (IsPrimitive(env[name]) <==> name in prims)
  }

  // ----- what evaluates -----

  lemma {:induction false} YieldsReads(acts: Conversion, e: Expr, s: State)
    ensures Eval(acts, e, s).Yields? ==> Reads(e) <= s.env.Keys
    decreases e
  {
    match e
    case Template(_, parts) => YieldsAllReads(acts, parts, s);
    case Compound(_, _, parts) => YieldsAllReads(acts, parts, s);
    case Converted(part) => YieldsReads(acts, part, s);
    case Effect(_, _, parts) => YieldsAllReads(acts, parts, s);
    case _ =>
  }

  lemma {:induction false} YieldsAllReads(acts: Conversion, es: seq<Expr>, s: State)
    ensures EvalAll(acts, es, s).AllYield? ==> AllReads(es) <= s.env.Keys
    decreases es
  {
    if es != [] {
      YieldsReads(acts, es[0], s);
      if Eval(acts, es[0], s).Yields? {
        YieldsAllReads(acts, es[1..], s.(world := Eval(acts, es[0], s).world));
      }
    }
  }

  /** What runs without error reads no name too early. */
  lemma {:induction false} RunsAreScoped(acts: Conversion, ds: seq<Declarator>, s: State)
    requires Own(ds) && Bound(ds) !! s.env.Keys && Declare(acts, ds, s).Some?
    ensures Scoped(ds)
    decreases |ds|
  {
    hide Eval, Reads;
    if ds != [] {
      if ds[0].init.Some? {
        YieldsReads(acts, ds[0].init.value, s);
        var r := Eval(acts, ds[0].init.value, s);
        RunsAreScoped(acts, ds[1..], State(s.env[ds[0].name := r.value], r.world));
      } else {
        RunsAreScoped(acts, ds[1..], s.(env := s.env[ds[0].name := Undefined]));
      }
    }
  }

  /** Converting an object tells whether `probe` is initialized yet. */
  function Probing(probe: string): Conversion {
    (v: Value, t: State) => if IsPrimitive(v) then Yields(v, t.world) else Yields(Primitive(if probe in t.env then 1 else 0), t.world)
  }

  lemma ProbingIsLawful(probe: string)
    ensures Lawful(Probing(probe))
  {
  }

  lemma {:induction false} EvalGoes(probe: string, e: Expr, prims: set<string>, s: State)
    requires SideEffectFree(e) && Reads(e) <= s.env.Keys && Exact(prims, s.env)
    ensures Eval(Probing(probe), e, s).Yields? && Eval(Probing(probe), e, s).world == s.world
    ensures IsPrimitive(Eval(Probing(probe), e, s).value) <==> !MayHoldObject(e, prims)
    decreases e
  {
    match e
    case Template(_, parts) => EvalAllGoes(probe, parts, prims, s);
    case Compound(_, _, parts) => EvalAllGoes(probe, parts, prims, s);
    case Converted(part) => EvalGoes(probe, part, prims, s);
    case _ =>
  }

  lemma {:induction false} EvalAllGoes(probe: string, es: seq<Expr>, prims: set<string>, s: State)
    requires (forall i :: 0 <= i < |es| ==> SideEffectFree(es[i])) && AllReads(es) <= s.env.Keys && Exact(prims, s.env)
    ensures var r := EvalAll(Probing(probe), es, s);
      && r.AllYield? && r.world == s.world && |r.values| == |es|
      && forall i :: 0 <= i < |es| ==> Eval(Probing(probe), es[i], s) == Yields(r.values[i], s.world)
    decreases es
  {
    if es != [] {
      EvalGoes(probe, es[0], prims, s);
      EvalAllGoes(probe, es[1..], prims, s);
      assert s.(world := s.world) == s;
      assert forall i :: 0 < i < |es| ==> es[i] == es[1..][i - 1];
    }
  }

  lemma {:induction false} AllReadsHas(es: seq<Expr>, i: nat)
    requires i < |es|
    ensures Reads(es[i]) <= AllReads(es)
    decreases |es|
  {
    if i > 0 {
      AllReadsHas(es[1..], i - 1);
    }
  }

  /** An expression that may act has another value when the probe is there than when it is not. */
  lemma {:induction false} EvalDiffers(probe: string, e: Expr, prims: set<string>, s: State, t: State)
    requires SideEffectFree(e) && MayAct(e, prims) && Reads(e) <= s.env.Keys && Reads(e) <= t.env.Keys
    requires Exact(prims, s.env) && Exact(prims, t.env) && probe in s.env && probe !in t.env
    ensures Eval(Probing(probe), e, s).Yields? && Eval(Probing(probe), e, t).Yields?
    ensures Eval(Probing(probe), e, s).value != Eval(Probing(probe), e, t).value
    decreases e
  {
    EvalGoes(probe, e, prims, s);
    EvalGoes(probe, e, prims, t);
    match e
    case Template(_, parts) => PartsDiffer(probe, parts, prims, s, t);
    case Compound(_, _, parts) => PartsDiffer(probe, parts, prims, s, t);
    case Converted(part) =>
      EvalGoes(probe, part, prims, s);
      EvalGoes(probe, part, prims, t);
      assert s.(world := s.world) == s && t.(world := t.world) == t;
      if !MayHoldObject(part, prims) {
        EvalDiffers(probe, part, prims, s, t);
      }
  }

  lemma PartsDiffer(probe: string, es: seq<Expr>, prims: set<string>, s: State, t: State)
    requires (forall i :: 0 <= i < |es| ==> SideEffectFree(es[i])) && AllReads(es) <= s.env.Keys && AllReads(es) <= t.env.Keys
    requires exists i :: 0 <= i < |es| && MayAct(es[i], prims)
    requires Exact(prims, s.env) && Exact(prims, t.env) && probe in s.env && probe !in t.env
    ensures EvalAll(Probing(probe), es, s).AllYield? && EvalAll(Probing(probe), es, t).AllYield?
    ensures EvalAll(Probing(probe), es, s).values != EvalAll(Probing(probe), es, t).values
    decreases es, 0
  {
    var i :| 0 <= i < |es| && MayAct(es[i], prims);
    EvalAllGoes(probe, es, prims, s);
    EvalAllGoes(probe, es, prims, t);
    AllReadsHas(es, i);
    EvalDiffers(probe, es[i], prims, s, t);
  }

  // ----- what declarators leave -----

  predicate Plain(d: Declarator) {
    d.isIdentifier && (d.init.Some? ==> SideEffectFree(d.init.value))
  }

  /** What is left when they evaluate. */
  lemma {:induction false} DeclareExact(probe: string, ds: seq<Declarator>, prims: set<string>, s: State)
    requires Exact(prims, s.env) && (forall d :: d in ds ==> Settles(d, prims) && Plain(d))
    requires Declare(Probing(probe), ds, s).Some?
    ensures var t := Declare(Probing(probe), ds, s).value;
      && Exact(prims, t.env) && t.env.Keys == s.env.Keys + Bound(ds) && t.world == s.world
      && forall name :: name in s.env && name !in Bound(ds) ==> t.env[name] == s.env[name]
    decreases |ds|
  {
    hide Eval, SideEffectFree, MayHoldObject;
    if ds != [] {
      var d := ds[0];
      assert Settles(d, prims) && Plain(d);
      if d.init.Some? {
        YieldsReads(Probing(probe), d.init.value, s);
        EvalGoes(probe, d.init.value, prims, s);
      }
      var value := if d.init.None? then Undefined else Eval(Probing(probe), d.init.value, s).value;
      var next := s.(env := s.env[d.name := value]);
      DeclareExact(probe, ds[1..], prims, next);
    }
  }

  /** They do evaluate when nothing is read too early. */
  lemma {:induction false} DeclareGoes(probe: string, ds: seq<Declarator>, prims: set<string>, s: State)
    requires Exact(prims, s.env) && (forall d :: d in ds ==> Settles(d, prims) && Plain(d))
    requires Scoped(ds) && ReadsOfAll(ds) <= s.env.Keys + Bound(ds)
    ensures Declare(Probing(probe), ds, s).Some?
    decreases |ds|
  {
    hide Eval, SideEffectFree, MayHoldObject, Reads;
    if ds != [] {
      var d := ds[0];
      assert Settles(d, prims) && Plain(d);
      if d.init.Some? {
        EvalGoes(probe, d.init.value, prims, s);
      }
      var value := if d.init.None? then Undefined else Eval(Probing(probe), d.init.value, s).value;
      DeclareGoes(probe, ds[1..], prims, s.(env := s.env[d.name := value]));
    }
  }

  /** A declarator that acts is told apart by whether the probe came before it. */
  lemma TargetDiffers(probe: string, a: seq<Declarator>, d: Declarator, b: seq<Declarator>, a': seq<Declarator>, b': seq<Declarator>, prims: set<string>, s: State)
    requires d.init.Some? && MayAct(d.init.value, prims) && d.name !in Bound(b) && d.name !in Bound(b')
    requires Exact(prims, s.env) && probe !in s.env && (probe in Bound(a)) != (probe in Bound(a'))
    requires forall x :: x in a + [d] + b || x in a' + [d] + b' ==> Settles(x, prims) && Plain(x)
    requires Declare(Probing(probe), a + [d] + b, s).Some?
    ensures Declare(Probing(probe), a' + [d] + b', s) != Declare(Probing(probe), a + [d] + b, s)
  {
    hide Declare, Eval, MayAct, SideEffectFree, Settles, MayHoldObject, Reads;
    var acts := Probing(probe);
    if Declare(acts, a' + [d] + b', s).Some? {
      var t := Target(probe, a, d, b, prims, s);
      var t' := Target(probe, a', d, b', prims, s);
      assert Plain(d) by { assert d in a + [d] + b; }
      if probe in Bound(a) {
        EvalDiffers(probe, d.init.value, prims, t, t');
      } else {
        EvalDiffers(probe, d.init.value, prims, t', t);
      }
    }
  }

  /** The state in which a declarator is evaluated; its value stays. */
  lemma Target(probe: string, a: seq<Declarator>, d: Declarator, b: seq<Declarator>, prims: set<string>, s: State) returns (t: State)
    requires d.init.Some? && d.name !in Bound(b)
    requires Exact(prims, s.env) && forall x :: x in a + [d] + b ==> Settles(x, prims) && Plain(x)
    requires Declare(Probing(probe), a + [d] + b, s).Some?
    ensures Exact(prims, t.env) && t.env.Keys == s.env.Keys + Bound(a) && Reads(d.init.value) <= t.env.Keys
    ensures Eval(Probing(probe), d.init.value, t).Yields?
    ensures d.name in Declare(Probing(probe), a + [d] + b, s).value.env
    ensures Declare(Probing(probe), a + [d] + b, s).value.env[d.name] == Eval(Probing(probe), d.init.value, t).value
  {
    hide Declare, Eval, SideEffectFree, Settles, MayHoldObject, Reads;
    var acts := Probing(probe);
    assert a + [d] + b == a + ([d] + b);
    DeclareConcat(acts, a, [d] + b, s);
    forall x | x in a ensures Settles(x, prims) && Plain(x) {
      assert x in a + [d] + b;
    }
    DeclareExact(probe, a, prims, s);
    t := Declare(acts, a, s).value;
    DeclareOne(acts, d, b, t);
    YieldsReads(acts, d.init.value, t);
    assert d in a + [d] + b;
    EvalGoes(probe, d.init.value, prims, t);
    var next := State(t.env[d.name := Eval(acts, d.init.value, t).value], Eval(acts, d.init.value, t).world);
    NextExact(d, prims, t, Eval(acts, d.init.value, t).value);
    forall x | x in b ensures Settles(x, prims) && Plain(x) {
      assert x in a + [d] + b;
    }
    DeclareExact(probe, b, prims, next);
  }

  lemma NextExact(d: Declarator, prims: set<string>, t: State, value: Value)
    requires Exact(prims, t.env) && Settles(d, prims) && d.init.Some? && (IsPrimitive(value) <==> !MayHoldObject(d.init.value, prims))
    ensures Exact(prims, t.env[d.name := value])
  {
  }

  lemma DeclareOne(acts: Conversion, d: Declarator, b: seq<Declarator>, t: State)
    requires d.init.Some? && Declare(acts, [d] + b, t).Some?
    ensures var r := Eval(acts, d.init.value, t);
      r.Yields? && Declare(acts, [d] + b, t) == Declare(acts, b, State(t.env[d.name := r.value], r.world))
  {
    hide Eval;
    assert ([d] + b)[1..] == b;
  }
}
