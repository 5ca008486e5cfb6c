/**
Moving the single-line declarations of a run first, where no conversion of an
object to a string is in the way.
*/
module ConstReorder {
  import opened Options
  import opened ConstRuns

  // ----- what may run code -----

  /** Whether an initializer may yield an object, when the names in `prims` hold none. */
  predicate MayHoldObject(e: Expr, prims: set<string>) {
    match e
    case Literal(_) => false
    case Template(_, _) => false
    case Converted(_) => false
    case Identifier(name) => name !in prims
    case _ => true
  }

  /** Whether an object may be converted below an expression. */
  predicate MayAct(e: Expr, prims: set<string>)
    decreases e
  {
    match e
    case Template(_, parts) => exists i :: 0 <= i < |parts| && MayAct(parts[i], prims)
    case Compound(_, _, parts) => exists i :: 0 <= i < |parts| && MayAct(parts[i], prims)
    case Converted(part) => MayHoldObject(part, prims) || MayAct(part, prims)
    case _ => false
  }

  predicate Acts(d: Declaration, prims: set<string>) {
    exists i :: 0 <= i < |d.declarators| && d.declarators[i].init.Some? && MayAct(d.declarators[i].init.value, prims)
  }

  /** Neither a declaration that is overtaken nor one that overtakes it may convert an object. */
  predicate Calm(group: seq<Declaration>, prims: set<string>) {
    forall i, j :: 0 <= i < j < |group| && group[i].multiline && !group[j].multiline ==> !Acts(group[i], prims) && !Acts(group[j], prims)
  }

  predicate DeclaresPrimitive(d: Declarator, prims: set<string>) {
    d.init.None? || !MayHoldObject(d.init.value, prims)
  }

  /** The names in `prims` are given primitives. */
  ghost predicate Known(ds: seq<Declarator>, prims: set<string>) {
    forall i :: 0 <= i < |ds| && ds[i].name in prims ==> DeclaresPrimitive(ds[i], prims)
  }

  ghost predicate AllKnown(group: seq<Declaration>, prims: set<string>) {
    forall d :: d in group ==> Known(d.declarators, prims)
  }

  /** And hold them. */
  ghost predicate HoldPrimitives(prims: set<string>, env: Env) {
    forall name :: name in prims && name in env ==> IsPrimitive(env[name])
  }

  lemma YieldsPrimitive(acts: Conversion, e: Expr, prims: set<string>, s: State)
    requires Lawful(acts) && HoldPrimitives(prims, s.env)
    ensures Eval(acts, e, s).Yields? && !MayHoldObject(e, prims) ==> IsPrimitive(Eval(acts, e, s).value)
  {
  }

  /** A declaration adds its names, and keeps primitive what is known to be. */
  lemma {:induction false} DeclareAdds(acts: Conversion, ds: seq<Declarator>, prims: set<string>, s: State)
    requires Lawful(acts) && HoldPrimitives(prims, s.env) && Known(ds, prims)
    ensures Declare(acts, ds, s).Some? ==>
      && Declare(acts, ds, s).value.env.Keys == s.env.Keys + Bound(ds)
      && HoldPrimitives(prims, Declare(acts, ds, s).value.env)
    decreases ds
  {
    hide Eval;
    if ds != [] && (ds[0].init.Some? ==> Eval(acts, ds[0].init.value, s).Yields?) {
      assert ds[0].name in prims ==> DeclaresPrimitive(ds[0], prims);
      if ds[0].init.Some? {
        YieldsPrimitive(acts, ds[0].init.value, prims, s);
      }
      var value := if ds[0].init.None? then Undefined else Eval(acts, ds[0].init.value, s).value;
      var world := if ds[0].init.None? then s.world else Eval(acts, ds[0].init.value, s).world;
      DeclareAdds(acts, ds[1..], prims, State(s.env[ds[0].name := value], world));
    }
  }

  // ----- evaluation depends on the names it mentions -----

  /** Two states alike on `names`; the second knows at least the others the first does. */
  ghost predicate Alike(names: set<string>, s: State, t: State) {
    && s.world == t.world
    && forall name :: name in names && name in s.env ==> name in t.env && t.env[name] == s.env[name]
  }

  lemma {:induction false} SafeEval(acts: Conversion, e: Expr, prims: set<string>, s: State, t: State)
    requires Lawful(acts) && HoldPrimitives(prims, s.env) && SideEffectFree(e) && !MayAct(e, prims) && Alike(Names(e), s, t)
    ensures Eval(acts, e, s).Yields? ==> Eval(acts, e, t) == Eval(acts, e, s) && Eval(acts, e, s).world == s.world
    decreases e
  {
    match e
    case Template(_, parts) => SafeEvalAll(acts, parts, prims, s, t);
    case Compound(_, _, parts) => SafeEvalAll(acts, parts, prims, s, t);
    case Converted(part) =>
      SafeEval(acts, part, prims, s, t);
      YieldsPrimitive(acts, part, prims, s);
      assert s.(world := s.world) == s && t.(world := t.world) == t;
    case _ =>
  }

  lemma {:induction false} SafeEvalAll(acts: Conversion, es: seq<Expr>, prims: set<string>, s: State, t: State)
    requires Lawful(acts) && HoldPrimitives(prims, s.env)
    requires (forall i :: 0 <= i < |es| ==> SideEffectFree(es[i]) && !MayAct(es[i], prims)) && Alike(AllNames(es), s, t)
    ensures EvalAll(acts, es, s).AllYield? ==> EvalAll(acts, es, t) == EvalAll(acts, es, s) && EvalAll(acts, es, s).world == s.world
    decreases es
  {
    if es != [] {
      SafeEval(acts, es[0], prims, s, t);
      SafeEvalAll(acts, es[1..], prims, s, t);
      assert s.(world := s.world) == s && t.(world := t.world) == t;
    }
  }

  ghost predicate IsCalm(d: Declaration, prims: set<string>) {
    IsSafe(d) && !Acts(d, prims) && Known(d.declarators, prims)
  }

  /** What such a declaration adds is the same in any state alike on what it mentions. */
  lemma {:induction false} SafeDeclare(acts: Conversion, ds: seq<Declarator>, prims: set<string>, s: State, t: State)
    requires Lawful(acts) && HoldPrimitives(prims, s.env) && HoldPrimitives(prims, t.env)
    requires IsCalm(Declaration(ds, false), prims) && Alike(Mentioned(ds), s, t)
    requires Declare(acts, ds, s).Some?
    ensures Declare(acts, ds, t).Some?
    ensures var a, b := Declare(acts, ds, s).value, Declare(acts, ds, t).value;
      && a.world == b.world == s.world
      && a.env.Keys == s.env.Keys + Bound(ds) && b.env.Keys == t.env.Keys + Bound(ds)
      && HoldPrimitives(prims, a.env) && HoldPrimitives(prims, b.env)
      && (forall name :: name in Bound(ds) ==> b.env[name] == a.env[name])
      && (forall name :: name in s.env && name !in Bound(ds) ==> a.env[name] == s.env[name])
      && (forall name :: name in t.env && name !in Bound(ds) ==> b.env[name] == t.env[name])
    decreases ds
  {
    hide Eval, MayAct, SideEffectFree, MayHoldObject;
    if ds != [] {
      CalmRest(ds, prims);
      if ds[0].init.Some? {
        SafeEval(acts, ds[0].init.value, prims, s, t);
        YieldsPrimitive(acts, ds[0].init.value, prims, s);
      }
      var value := if ds[0].init.None? then Undefined else Eval(acts, ds[0].init.value, s).value;
      var s', t' := s.(env := s.env[ds[0].name := value]), t.(env := t.env[ds[0].name := value]);
      SafeDeclare(acts, ds[1..], prims, s', t');
    }
  }

  lemma CalmRest(ds: seq<Declarator>, prims: set<string>)
    requires ds != [] && IsCalm(Declaration(ds, false), prims)
    ensures IsCalm(Declaration(ds[1..], false), prims)
    ensures ds[0].init.Some? ==> SideEffectFree(ds[0].init.value) && !MayAct(ds[0].init.value, prims)
    ensures ds[0].name in prims ==> DeclaresPrimitive(ds[0], prims)
  {
    var d, rest := Declaration(ds, false), Declaration(ds[1..], false);
    assert d.declarators[0] == ds[0];
    forall i | 0 <= i < |ds[1..]| ensures rest.declarators[i] == d.declarators[i + 1] {
    }
  }

  ghost predicate Separate(d: Declaration, e: Declaration) {
    Bound(d.declarators) !! Bound(e.declarators)
  }

  /** The names of a run are its own: no two declarations share one, and none is initialized yet. */
  ghost predicate Fresh(group: seq<Declaration>, env: Env) {
    && (forall i, j :: 0 <= i < j < |group| ==> Separate(group[i], group[j]))
    && (forall i :: 0 <= i < |group| ==> Bound(group[i].declarators) !! env.Keys)
  }

  lemma CalmAsOneLine(d: Declaration, prims: set<string>)
    requires IsCalm(d, prims)
    ensures IsCalm(Declaration(d.declarators, false), prims)
  {
    assert Declaration(d.declarators, false).declarators == d.declarators;
  }

  /** A declaration may follow one that does not mention its names instead of preceding it. */
  lemma SwapTwo(acts: Conversion, x: Declaration, y: Declaration, prims: set<string>, s: State)
    requires Lawful(acts) && HoldPrimitives(prims, s.env) && IsCalm(x, prims) && IsCalm(y, prims) && Separate(x, y)
    requires Bound(x.declarators) !! Mentioned(y.declarators)
    requires Bound(x.declarators) !! s.env.Keys && Bound(y.declarators) !! s.env.Keys
    requires Declare(acts, x.declarators, s).Some? && Declare(acts, y.declarators, Declare(acts, x.declarators, s).value).Some?
    ensures Declare(acts, y.declarators, s).Some?
    ensures Declare(acts, x.declarators, Declare(acts, y.declarators, s).value) == Declare(acts, y.declarators, Declare(acts, x.declarators, s).value)
  {
    hide Declare, IsCalm;
    var dx, dy := x.declarators, y.declarators;
    CalmAsOneLine(x, prims);
    CalmAsOneLine(y, prims);
    SafeDeclare(acts, dx, prims, s, s);
    var sx := Declare(acts, dx, s).value;
    SafeDeclare(acts, dy, prims, sx, s);
    var sy := Declare(acts, dy, s).value;
    SafeDeclare(acts, dx, prims, s, sy);
    var sxy, syx := Declare(acts, dy, sx).value, Declare(acts, dx, sy).value;
    assert sxy.env.Keys == syx.env.Keys;
    forall name | name in sxy.env ensures sxy.env[name] == syx.env[name] {
      if name !in Bound(dx) && name !in Bound(dy) {
        assert name in s.env;
      }
    }
    assert sxy.env == syx.env;
  }

  lemma RunConcat(acts: Conversion, a: seq<Declaration>, b: seq<Declaration>, s: State)
    ensures RunAll(acts, a + b, s) == match RunAll(acts, a, s) { case None => None case Some(after) => RunAll(acts, b, after) }
  {
    if a == [] {
      assert a + b == b;
    } else {
      assert (a + b)[1..] == a[1..] + b;
      match Declare(acts, a[0].declarators, s)
      case None =>
      case Some(after) => RunConcat(acts, a[1..], b, after);
    }
  }

  /** `x` may follow any declarations that do not mention its names. */
  lemma {:induction false} MoveBehind(acts: Conversion, x: Declaration, ys: seq<Declaration>, prims: set<string>, s: State)
    requires Lawful(acts) && HoldPrimitives(prims, s.env) && (ys != [] ==> IsCalm(x, prims))
    requires forall y :: y in ys ==> IsCalm(y, prims) && Separate(x, y) && Bound(x.declarators) !! Mentioned(y.declarators)
    requires Fresh(ys, s.env) && Bound(x.declarators) !! s.env.Keys
    requires RunAll(acts, [x] + ys, s).Some?
    ensures RunAll(acts, ys + [x], s) == RunAll(acts, [x] + ys, s)
    decreases |ys|
  {
    hide Declare, IsCalm, Lawful, HoldPrimitives;
    var dx := x.declarators;
    assert ([x] + ys)[1..] == ys;
    if ys == [] {
      assert ys + [x] == [x] == [x] + ys;
    } else {
      var y, rest := ys[0], ys[1..];
      assert y in ys;
      SwapTwo(acts, x, y, prims, s);
      var sy := Declare(acts, y.declarators, s).value;
      KnownCalm(y, prims);
      DeclareAdds(acts, y.declarators, prims, s);
      assert ([x] + rest)[1..] == rest;
      assert RunAll(acts, [x] + rest, sy) == RunAll(acts, [x] + ys, s);
      FreshRest(ys, s.env, sy.env);
      MoveBehind(acts, x, rest, prims, sy);
      assert (ys + [x])[1..] == rest + [x];
    }
  }

  lemma KnownCalm(d: Declaration, prims: set<string>)
    requires IsCalm(d, prims)
    ensures Known(d.declarators, prims)
  {
  }

  lemma FreshRest(group: seq<Declaration>, env: Env, after: Env)
    requires group != [] && Fresh(group, env) && after.Keys == env.Keys + Bound(group[0].declarators)
    ensures Fresh(group[1..], after)
  {
    forall i | 0 <= i < |group[1..]| ensures Bound(group[1..][i].declarators) !! after.Keys {
      assert Separate(group[0], group[i + 1]);
    }
  }

  lemma SinglesOf(group: seq<Declaration>)
    ensures forall d :: d in Singles(group) ==> d in group && !d.multiline
    ensures forall d :: d in Multis(group) ==> d in group && d.multiline
  {
  }

  lemma {:induction false} FreshSingles(group: seq<Declaration>, env: Env)
    requires Fresh(group, env)
    ensures Fresh(Singles(group), env)
  {
    if group != [] {
      FreshSingles(group[1..], env);
      SinglesOf(group[1..]);
      var rest := Singles(group[1..]);
      forall j | 0 <= j < |rest| ensures Separate(group[0], rest[j]) {
        assert rest[j] in group[1..];
        var k :| 0 <= k < |group[1..]| && group[1..][k] == rest[j];
        assert Separate(group[0], group[k + 1]);
      }
    }
  }

  lemma CanReorderRest(group: seq<Declaration>, prims: set<string>)
    requires group != [] && CanReorder(group) && Calm(group, prims) && AllKnown(group, prims)
    ensures CanReorder(group[1..]) && Calm(group[1..], prims) && AllKnown(group[1..], prims)
  {
    hide IsSafe, Acts, Known;
    var rest := group[1..];
    forall i | 0 <= i < |rest| ensures IsSafe(rest[i]) && Unused(rest, i) {
      assert rest[i] == group[i + 1] && IsSafe(group[i + 1]) && Unused(group, i + 1);
    }
    forall i, j | 0 <= i < j < |rest| && rest[i].multiline && !rest[j].multiline ensures !Acts(rest[i], prims) && !Acts(rest[j], prims) {
      assert group[i + 1] == rest[i] && group[j + 1] == rest[j];
    }
  }

  /** The multiline declaration at the head goes behind the single-line ones that follow it. */
  lemma HeadGoesBehind(acts: Conversion, group: seq<Declaration>, prims: set<string>, s: State)
    requires Lawful(acts) && HoldPrimitives(prims, s.env) && Calm(group, prims) && AllKnown(group, prims)
    requires group != [] && group[0].multiline && CanReorder(group) && Fresh(group, s.env)
    requires RunAll(acts, [group[0]] + Singles(group[1..]), s).Some?
    ensures RunAll(acts, Singles(group[1..]) + [group[0]], s) == RunAll(acts, [group[0]] + Singles(group[1..]), s)
  {
    hide RunAll, Unused, Separate, IsSafe, Acts, Known, CanReorder, Calm, AllKnown;
    var x, singles := group[0], Singles(group[1..]);
    SinglesAvoid(group, prims);
    FreshSingles(group, s.env);
    assert Singles(group) == singles;
    assert Bound(x.declarators) !! s.env.Keys;
    MoveBehind(acts, x, singles, prims, s);
  }

  lemma BehindTheSingles(acts: Conversion, x: Declaration, singles: seq<Declaration>, multis: seq<Declaration>, s: State, after: State)
    requires Declare(acts, x.declarators, s) == Some(after)
    requires RunAll(acts, singles + [x], s) == RunAll(acts, [x] + singles, s)
    ensures RunAll(acts, singles + ([x] + multis), s) == RunAll(acts, singles + multis, after)
  {
    hide Declare;
    assert ([x] + singles)[1..] == singles;
    RunConcat(acts, singles + [x], multis, s);
    RunConcat(acts, singles, multis, after);
    assert singles + ([x] + multis) == (singles + [x]) + multis;
  }

  /**
  A run that evaluates, may be reordered and is calm ends in the same state,
  with the same values of all names, when its single-line declarations go first.
  */
  lemma {:induction false} ReorderKeepsState(acts: Conversion, group: seq<Declaration>, prims: set<string>, s: State)
    requires Lawful(acts) && HoldPrimitives(prims, s.env) && Calm(group, prims) && AllKnown(group, prims)
    requires CanReorder(group) && Fresh(group, s.env)
    requires RunAll(acts, group, s).Some?
    ensures RunAll(acts, Singles(group) + Multis(group), s) == RunAll(acts, group, s)
    decreases |group|
  {
    hide IsSafe, Fresh, Declare, CanReorder, RunAll, Lawful, HoldPrimitives, Calm, Known;
    if group != [] {
      var x, rest := group[0], group[1..];
      var singles, multis := Singles(rest), Multis(rest);
      RunHead(acts, x, rest, s);
      assert group == [x] + rest;
      var sx := Declare(acts, x.declarators, s).value;
      assert Known(x.declarators, prims);
      DeclareAdds(acts, x.declarators, prims, s);
      FreshRest(group, s.env, sx.env);
      CanReorderRest(group, prims);
      ReorderKeepsState(acts, rest, prims, sx);
      if x.multiline {
        RunConcat(acts, singles, multis, sx);
        RunHead(acts, x, singles, s);
        HeadGoesBehind(acts, group, prims, s);
        BehindTheSingles(acts, x, singles, multis, s, sx);
        assert Singles(group) + Multis(group) == singles + ([x] + multis);
      } else {
        RunHead(acts, x, singles + multis, s);
        assert Singles(group) + Multis(group) == [x] + (singles + multis);
      }
    }
  }

  lemma RunHead(acts: Conversion, x: Declaration, rest: seq<Declaration>, s: State)
    ensures RunAll(acts, [x] + rest, s) == match Declare(acts, x.declarators, s) { case None => None case Some(after) => RunAll(acts, rest, after) }
  {
    hide Declare;
    assert ([x] + rest)[1..] == rest;
  }

  lemma SinglesAvoid(group: seq<Declaration>, prims: set<string>)
    requires group != [] && group[0].multiline && CanReorder(group) && Calm(group, prims) && AllKnown(group, prims)
    requires forall i, j :: 0 <= i < j < |group| ==> Separate(group[i], group[j])
    ensures forall y :: y in Singles(group[1..]) ==>
      IsCalm(y, prims) && Separate(group[0], y) && Bound(group[0].declarators) !! Mentioned(y.declarators)
    ensures Singles(group[1..]) != [] ==> IsCalm(group[0], prims)
  {
    hide IsSafe, Acts, Known;
    SinglesOf(group[1..]);
    var singles := Singles(group[1..]);
    forall y | y in singles
      ensures IsCalm(y, prims) && Separate(group[0], y) && Bound(group[0].declarators) !! Mentioned(y.declarators) && IsCalm(group[0], prims)
    {
      var k :| 0 <= k < |group[1..]| && group[1..][k] == y;
      assert group[k + 1] == y && !y.multiline;
      assert Separate(group[0], group[k + 1]) && IsSafe(group[k + 1]) && IsSafe(group[0]) && Unused(group, 0);
      assert Known(group[0].declarators, prims) && Known(y.declarators, prims);
    }
    if singles != [] {
      assert singles[0] in singles;
    }
  }
}
