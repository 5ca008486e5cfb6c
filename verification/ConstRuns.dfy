/**
Runs of `const` declarations and when the pass reorders them. Initializers are
given with their evaluation: it may read names, fail on one that is not
initialized yet, and touch the world outside. A template converts its parts to
strings, and an object its computed keys and what it spreads; for an object
that runs code of its own. A declaration that spans several lines is moved
behind the ones that do not.
*/
module ConstRuns {
  import opened Options

  datatype Expr =
    | Literal(value: nat)
    | Identifier(name: string)
    | Function(code: nat, names: set<string>)
    | Template(shape: nat, parts: seq<Expr>)
    | Compound(shape: nat, labels: set<string>, parts: seq<Expr>)
    | Converted(part: Expr)
    | Effect(code: nat, names: set<string>, parts: seq<Expr>)

  /**
  An array with a spread is an `Effect`; any other array, an object and a
  template are safe if their parts are. The parts of a template, the computed
  keys of an object and what it spreads are `Converted`.
  */
  datatype Declarator = Declarator(name: string, isIdentifier: bool, init: Option<Expr>)

  datatype Declaration = Declaration(declarators: seq<Declarator>, multiline: bool)

  datatype Value =
    | Undefined
    | Primitive(value: nat)
    | Text(shape: nat, parts: seq<Value>)
    | Closure(code: nat)
    | Composite(shape: nat, parts: seq<Value>)
    | Observed(code: nat, before: seq<nat>)

  /** What converts to a string without running any code. */
  predicate IsPrimitive(v: Value) {
    v.Undefined? || v.Primitive? || v.Text?
  }

  type Env = map<string, Value>

  /** The values of the names, and what was done to the world. */
  datatype State = State(env: Env, world: seq<nat>)

  datatype Outcome = Fails | Yields(value: Value, world: seq<nat>)

  datatype Outcomes = AllFail | AllYield(values: seq<Value>, world: seq<nat>)

  /** What converting a value does: it may fail, see every name, and touch the world. */
  type Conversion = (Value, State) -> Outcome

  ghost predicate Lawful(acts: Conversion) {
    && (forall v, s :: IsPrimitive(v) ==> acts(v, s) == Yields(v, s.world))
    && (forall v, s :: acts(v, s).Yields? ==> IsPrimitive(acts(v, s).value))
  }

  function Eval(acts: Conversion, e: Expr, s: State): Outcome
    decreases e
  {
    match e
    case Literal(value) => Yields(Primitive(value), s.world)
    case Identifier(name) => if name in s.env then Yields(s.env[name], s.world) else Fails
    case Function(code, _) => Yields(Closure(code), s.world)
    case Template(shape, parts) =>
      (match EvalAll(acts, parts, s)
       case AllFail => Fails
       case AllYield(values, world) => Yields(Text(shape, values), world))
    case Compound(shape, _, parts) =>
      (match EvalAll(acts, parts, s)
       case AllFail => Fails
       case AllYield(values, world) => Yields(Composite(shape, values), world))
    case Converted(part) =>
      (match Eval(acts, part, s)
       case Fails => Fails
       case Yields(value, world) => acts(value, s.(world := world)))
    case Effect(code, _, parts) =>
      match EvalAll(acts, parts, s)
      case AllFail => Fails
      case AllYield(_, world) => Yields(Observed(code, world), world + [code])
  }

  function EvalAll(acts: Conversion, es: seq<Expr>, s: State): Outcomes
    decreases es
  {
    if es == [] then AllYield([], s.world) else
      match Eval(acts, es[0], s)
      case Fails => AllFail
      case Yields(value, world) =>
        match EvalAll(acts, es[1..], s.(world := world))
        case AllFail => AllFail
        case AllYield(values, after) => AllYield([value] + values, after)
  }

  /** One declarator after the other; `None` when an initializer fails. */
  function Declare(acts: Conversion, ds: seq<Declarator>, s: State): Option<State> {
    if ds == [] then Some(s) else
      match ds[0].init
      case None => Declare(acts, ds[1..], s.(env := s.env[ds[0].name := Undefined]))
      case Some(init) =>
        match Eval(acts, init, s)
        case Fails => None
        case Yields(value, world) => Declare(acts, ds[1..], State(s.env[ds[0].name := value], world))
  }

  function RunAll(acts: Conversion, group: seq<Declaration>, s: State): Option<State> {
    if group == [] then Some(s) else
      match Declare(acts, group[0].declarators, s)
      case None => None
      case Some(after) => RunAll(acts, group[1..], after)
  }

  predicate SideEffectFree(e: Expr)
    decreases e
  {
    match e
    case Template(_, parts) => forall i :: 0 <= i < |parts| ==> SideEffectFree(parts[i])
    case Compound(_, _, parts) => forall i :: 0 <= i < |parts| ==> SideEffectFree(parts[i])
    case Converted(part) => SideEffectFree(part)
    case Effect(_, _, _) => false
    case _ => true
  }

  /** The parts an expression evaluates when it is evaluated itself: a function's body is none of them. */
  function PartsOf(e: Expr): seq<Expr> {
    match e
    case Template(_, parts) => parts
    case Compound(_, _, parts) => parts
    case Converted(part) => [part]
    case Effect(_, _, parts) => parts
    case _ => []
  }

  /** Where the indices lead, each to a part of what the ones before it lead to. */
  function PartAt(e: Expr, path: seq<nat>): Option<Expr>
    decreases |path|
  {
    if path == [] then Some(e) else
      var parts := PartsOf(e);
      if path[0] < |parts| then PartAt(parts[path[0]], path[1..]) else None
  }

  ghost predicate HasEffect(e: Expr) {
    exists path :: LeadsToEffect(e, path)
  }

  predicate LeadsToEffect(e: Expr, path: seq<nat>) {
    PartAt(e, path).Some? && PartAt(e, path).value.Effect?
  }

  /** Exactly the expressions none of whose parts, however deep, has an effect: arrow functions and names among them. */
  lemma {:induction false} SideEffectFreeIff(e: Expr)
    ensures SideEffectFree(e) <==> !HasEffect(e)
    decreases e
  {
    var parts := PartsOf(e);
    forall i | 0 <= i < |parts| ensures SideEffectFree(parts[i]) <==> !HasEffect(parts[i]) {
      SideEffectFreeIff(parts[i]);
    }
    if HasEffect(e) {
      var path :| LeadsToEffect(e, path);
      if path != [] {
        assert LeadsToEffect(parts[path[0]], path[1..]);
      }
    }
    if !SideEffectFree(e) {
      if e.Effect? {
        assert LeadsToEffect(e, []);
      } else {
        assert e.Converted? ==> !SideEffectFree(parts[0]);
        var i :| 0 <= i < |parts| && !SideEffectFree(parts[i]);
        var path :| LeadsToEffect(parts[i], path);
        assert ([i] + path)[1..] == path;
        assert LeadsToEffect(e, [i] + path);
      }
    }
  }

  /** Every identifier below an expression: references, labels of properties, names in function bodies. */
  function Names(e: Expr): set<string>
    decreases e
  {
    match e
    case Literal(_) => {}
    case Identifier(name) => {name}
    case Function(_, names) => names
    case Template(_, parts) => AllNames(parts)
    case Compound(_, labels, parts) => labels + AllNames(parts)
    case Converted(part) => Names(part)
    case Effect(_, names, parts) => names + AllNames(parts)
  }

  function AllNames(es: seq<Expr>): set<string>
    decreases es
  {
    if es == [] then {} else Names(es[0]) + AllNames(es[1..])
  }

  /** The identifiers an expression has itself: its own, its labels, those in its body if it is a function. */
  function OwnNames(e: Expr): set<string> {
    match e
    case Identifier(name) => {name}
    case Function(_, names) => names
    case Compound(_, labels, _) => labels
    case Effect(_, names, _) => names
    case _ => {}
  }

  ghost predicate HasName(e: Expr, name: string) {
    exists path :: LeadsToName(e, path, name)
  }

  predicate LeadsToName(e: Expr, path: seq<nat>, name: string) {
    PartAt(e, path).Some? && name in OwnNames(PartAt(e, path).value)
  }

  /** What is mentioned is what some part has, however deep. */
  lemma {:induction false} NamesIff(e: Expr, name: string)
    ensures name in Names(e) <==> HasName(e, name)
    decreases e
  {
    var parts := PartsOf(e);
    forall i | 0 <= i < |parts| ensures name in Names(parts[i]) <==> HasName(parts[i], name) {
      NamesIff(parts[i], name);
    }
    NamesOfAll(parts, name);
    if HasName(e, name) {
      var path :| LeadsToName(e, path, name);
      if path != [] {
        assert LeadsToName(parts[path[0]], path[1..], name);
      }
    }
    if name in Names(e) {
      if name in OwnNames(e) {
        assert LeadsToName(e, [], name);
      } else {
        assert e.Converted? ==> name in Names(parts[0]);
        var i :| 0 <= i < |parts| && name in Names(parts[i]);
        var path :| LeadsToName(parts[i], path, name);
        assert ([i] + path)[1..] == path;
        assert LeadsToName(e, [i] + path, name);
      }
    }
  }

  lemma {:induction false} NamesOfAll(es: seq<Expr>, name: string)
    ensures name in AllNames(es) <==> exists i :: 0 <= i < |es| && name in Names(es[i])
    decreases |es|
  {
    if es != [] {
      NamesOfAll(es[1..], name);
      assert name in AllNames(es[1..]) ==> exists i :: 0 <= i < |es[1..]| && name in Names(es[1..][i]);
      assert forall i :: 0 < i < |es| ==> es[i] == es[1..][i - 1];
    }
  }

  function Bound(ds: seq<Declarator>): set<string> {
    if ds == [] then {} else {ds[0].name} + Bound(ds[1..])
  }

  /** The identifiers of a declaration, its own names included. */
  function Mentioned(ds: seq<Declarator>): set<string> {
    if ds == [] then {} else {ds[0].name} + (if ds[0].init.Some? then Names(ds[0].init.value) else {}) + Mentioned(ds[1..])
  }

  predicate IsSafe(d: Declaration) {
    forall i :: 0 <= i < |d.declarators| ==>
      d.declarators[i].isIdentifier && (d.declarators[i].init.Some? ==> SideEffectFree(d.declarators[i].init.value))
  }

  function Singles(group: seq<Declaration>): seq<Declaration> {
    if group == [] then [] else (if group[0].multiline then [] else [group[0]]) + Singles(group[1..])
  }

  function Multis(group: seq<Declaration>): seq<Declaration> {
    if group == [] then [] else (if group[0].multiline then [group[0]] else []) + Multis(group[1..])
  }

  /** No later single-line declaration mentions a name of the multiline one at `i`. */
  ghost predicate Unused(group: seq<Declaration>, i: nat)
    requires i < |group|
  {
    group[i].multiline ==>
      forall j :: i < j < |group| && !group[j].multiline ==> Bound(group[i].declarators) !! Mentioned(group[j].declarators)
  }

  /** Safe initializers, and no multiline name in a later single-line declaration. */
  ghost predicate CanReorder(group: seq<Declaration>) {
    && (forall i :: 0 <= i < |group| ==> IsSafe(group[i]))
    && (forall i :: 0 <= i < |group| ==> Unused(group, i))
  }

  method IsUnused(group: seq<Declaration>, i: nat) returns (unused: bool)
    requires i < |group| && group[i].multiline
    ensures unused <==> Unused(group, i)
  {
    hide Mentioned, Bound;
    var names := Bound(group[i].declarators);
    for j := i + 1 to |group|
      invariant forall k :: i < k < j && !group[k].multiline ==> names !! Mentioned(group[k].declarators)
    {
      if !group[j].multiline && !(names !! Mentioned(group[j].declarators)) {
        return false;
      }
    }
    unused := true;
  }

  method CanReorderConsts(group: seq<Declaration>) returns (ok: bool)
    ensures ok <==> CanReorder(group)
  {
    hide IsSafe, Mentioned, Bound;
    for i := 0 to |group|
      invariant forall k :: 0 <= k < i ==> IsSafe(group[k])
    {
      if !IsSafe(group[i]) {
        return false;
      }
    }
    for i := 0 to |group|
      invariant forall k :: 0 <= k < i ==> Unused(group, k)
    {
      if group[i].multiline {
        var unused := IsUnused(group, i);
        if !unused {
          return false;
        }
      }
      assert Unused(group, i);
    }
    ok := true;
  }
}
