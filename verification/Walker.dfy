/**
The walk itself: frames for the open nodes, one child stack shared by all of
them, and a synthetic block frame around a bare body. It computes the recursive
form of Fingerprint.
*/
module Walker {
  import opened LogicalOperators
  import opened Options
  import opened Fingerprint
  import opened Sorting

  /** The spans of the bare bodies not met yet. */
  datatype Bodies = Bodies(first: Option<nat>, second: Option<nat>)

  datatype Frame = Frame(
    start: nat,
    mode: Mode,
    role: nat,
    prefix: nat,
    bodies: Bodies,
    wrapped: bool,
    attribute: bool,
    embedded: bool,
    logical: Option<Operator>)

  const ROOT := Frame(0, Ordered, OTHER, 0, Bodies(None, None), false, false, false, None)

  function ContextOf(frame: Frame): Context {
    Context(frame.mode, frame.logical, frame.attribute, frame.embedded)
  }

  /** The condition and the bodies of a control statement stand at different places. */
  ghost predicate Distinct(node: Node) {
    && (node.kind.If? || node.kind.Loop? ==> forall i, j :: 0 <= i < j < |node.children| ==> node.children[i].span != node.children[j].span)
    && (forall i :: 0 <= i < |node.children| ==> Distinct(node.children[i]))
  }

  function SpanIf(node: Node, at: nat, from: nat): Option<nat> {
    if from <= at < |node.children| && IsBareBody(node, at) then Some(node.children[at].span) else None
  }

  /** The bare bodies among the children from `from` on. */
  function BodiesFrom(node: Node, from: nat): Bodies {
    match node.kind
    case If => Bodies(SpanIf(node, 1, from), SpanIf(node, 2, from))
    case Loop(_, body) => Bodies(SpanIf(node, body, from), None)
    case _ => Bodies(None, None)
  }

  /** Whether `span` is among the bodies, and the bodies without it. */
  function Take(bodies: Bodies, span: nat): (bool, Bodies) {
    if bodies.first == Some(span) then (true, bodies.(first := None))
    else if bodies.second == Some(span) then (true, bodies.(second := None))
    else (false, bodies)
  }

  /** A child takes its own span from its parent's bodies exactly when it is a bare body. */
  lemma TakesItself(node: Node, at: nat)
    requires Distinct(node) && at < |node.children|
    ensures Take(BodiesFrom(node, at), node.children[at].span) == (IsBareBody(node, at), BodiesFrom(node, at + 1))
  {
  }

  /** The frames once `node` is entered. */
  function Entered<D>(frames: seq<Frame>, stack: seq<Entry<D>>, node: Node): seq<Frame>
    requires frames != []
  {
    var parent := frames[|frames| - 1];
    var (wrapped, bodies) := Take(parent.bodies, node.span);
    var outer := frames[..|frames| - 1] + [parent.(bodies := bodies)];
    var around := if wrapped then outer + [ROOT.(start := |stack|, mode := List)] else outer;
    around + [FrameOf(ContextOf(around[|around| - 1]), |stack|, node, wrapped)]
  }

  function FrameOf(ctx: Context, start: nat, node: Node, wrapped: bool): Frame {
    Frame(start, ModeIn(ctx, node), RoleIn(ctx.mode, node.kind), PrefixOf(node.kind), BodiesFrom(node, 0), wrapped,
          node.kind.JsxAttribute?, node.kind.Template? && node.kind.embedded, LogicalIn(ctx, node.kind))
  }

  /** How many entries from `index` on share one role. */
  method RunAt<D>(children: seq<Entry<D>>, index: nat) returns (run: nat)
    requires index < |children|
    ensures 0 < run <= |children| - index && run == RunLength(children[index..])
  {
    run := 1;
    while index + run < |children| && children[index + run].role == children[index].role
      invariant 1 <= run <= |children| - index
      invariant forall i :: index <= i < index + run ==> children[i].role == children[index].role
    {
      run := run + 1;
    }
    RunIs(children[index..], run);
  }

  method SortOne<D>(alg: Algebra<D>, run: seq<Entry<D>>) returns (sorted: seq<Entry<D>>)
    requires run != []
    ensures sorted == SortRun(alg, run)
  {
    sorted := if run[0].role != OTHER then StableSort(ByRank(alg), run) else run;
  }

  method SortRunsOf<D>(alg: Algebra<D>, children: seq<Entry<D>>) returns (sorted: seq<Entry<D>>)
    ensures sorted == SortRuns(alg, children)
  {
    hide SortRun, RunLength;
    sorted := [];
    var index := 0;
    while index < |children|
      invariant index <= |children| && sorted + SortRuns(alg, children[index..]) == SortRuns(alg, children)
    {
      var run := RunAt(children, index);
      var part := SortOne(alg, children[index..index + run]);
      SortRunsStep(alg, children, index, run);
      sorted := sorted + part;
      index := index + run;
    }
  }

  lemma SortRunsStep<D>(alg: Algebra<D>, children: seq<Entry<D>>, index: nat, run: nat)
    requires index < |children| && run == RunLength(children[index..])
    ensures SortRuns(alg, children[index..]) == SortRun(alg, children[index..index + run]) + SortRuns(alg, children[index + run..])
  {
    assert children[index..][..run] == children[index..index + run];
    assert children[index..][run..] == children[index + run..];
  }

  class Walker<D> {
    const alg: Algebra<D>
    var frames: seq<Frame>
    var stack: seq<Entry<D>>

    constructor (alg: Algebra<D>)
      ensures this.alg == alg && frames == [ROOT] && stack == []
    {
      this.alg := alg;
      frames := [ROOT];
      stack := [];
    }

    /** Replace the children above `start` by one node. */
    method CloseNode(start: nat, mode: Mode, prefix: nat, role: nat, tag: nat, payload: nat)
      requires start <= |stack|
      modifies this`stack
      ensures stack == old(stack)[..start] + [Close(alg, mode, prefix, role, tag, payload, old(stack)[start..])]
    {
      var children := stack[start..];
      var first := if prefix <= |children| then prefix else |children|;
      match mode {
        case List =>
          var sorted := SortRunsOf(alg, children[first..]);
          children := children[..first] + sorted;
        case Members =>
          children := StableSort(RoleLe<D>, children);
        case _ =>
      }
      stack := stack[..start] + [Entry(role, alg.make(Content(tag, payload, Digests(children))))];
    }

    method EnterNode(node: Node)
      requires frames != []
      modifies this
      ensures frames == Entered(old(frames), old(stack), node)
      ensures stack == old(stack) + if node.kind.JsxText? then Words(alg, node.kind.words) else []
    {
      var parent := frames[|frames| - 1];
      var (wrapped, bodies) := Take(parent.bodies, node.span);
      frames := frames[..|frames| - 1] + [parent.(bodies := bodies)];
      if wrapped {
        frames := frames + [ROOT.(start := |stack|, mode := List)];
      }
      frames := frames + [FrameOf(ContextOf(frames[|frames| - 1]), |stack|, node, wrapped)];
      if node.kind.JsxText? {
        stack := stack + Words(alg, node.kind.words);
      }
    }

    /** The innermost node goes, and leaves what it leaves behind. */
    method LeaveOwn(node: Node)
      requires |frames| >= 2 && frames[|frames| - 1].start <= |stack|
      modifies this
      ensures frames == old(frames)[..|old(frames)| - 1]
      ensures var frame := old(frames)[|old(frames)| - 1];
        stack == old(stack)[..frame.start] + Left(alg, frame, ContextOf(frames[|frames| - 1]), node, old(stack)[frame.start..])
    {
      hide Close, Tag, Payload;
      var frame := frames[|frames| - 1];
      frames := frames[..|frames| - 1];
      var embeddedText := node.kind.Quasi? && frames[|frames| - 1].embedded;
      match frame.mode {
        case Transparent =>
          assert stack == stack[..frame.start] + stack[frame.start..];
        case Skip => stack := stack[..frame.start];
        case _ => CloseNode(frame.start, frame.mode, frame.prefix, frame.role, Tag(node.kind), if embeddedText then 0 else Payload(node.kind));
      }
    }

    method LeaveNode(node: Node)
      requires |frames| >= 2 && frames[|frames| - 1].start <= |stack|
      requires var frame := frames[|frames| - 1];
        frame.wrapped ==> |frames| >= 3 && frames[|frames| - 2] == ROOT.(start := frame.start, mode := List)
      modifies this
      ensures var frame, parent := old(frames)[|old(frames)| - 1], old(frames)[|old(frames)| - 2];
        && frames == old(frames)[..|old(frames)| - if frame.wrapped then 2 else 1]
        && var own := Left(alg, frame, ContextOf(parent), node, old(stack)[frame.start..]);
           stack == old(stack)[..frame.start] + if frame.wrapped then [Close(alg, List, 0, OTHER, BLOCK, 0, own)] else own
    {
      hide Close, Left;
      var frame := frames[|frames| - 1];
      ghost var below, own := stack[..frame.start], Left(alg, frame, ContextOf(frames[|frames| - 2]), node, stack[frame.start..]);
      LeaveOwn(node);
      if frame.wrapped {
        var block := frames[|frames| - 1];
        frames := frames[..|frames| - 1];
        assert stack[..frame.start] == below && stack[frame.start..] == own;
        CloseNode(block.start, block.mode, block.prefix, block.role, BLOCK, 0);
      }
    }

    /** Visit the children of the innermost open node. */
    method VisitChildren(node: Node)
      requires frames != [] && Distinct(node)
      requires frames[|frames| - 1].bodies == BodiesFrom(node, 0)
      modifies this
      ensures var top := old(frames)[|old(frames)| - 1];
        && frames == old(frames)[|old(frames)| - 1 := top.(bodies := BodiesFrom(node, |node.children|))]
        && stack == old(stack) + Children(alg, node, ContextOf(top), 0)
      decreases node, 0
    {
      ghost var open, base := frames, stack;
      ghost var ctx := ContextOf(open[|open| - 1]);
      var i := 0;
      while i < |node.children|
        invariant i <= |node.children|
        invariant frames == open[|open| - 1 := open[|open| - 1].(bodies := BodiesFrom(node, i))]
        invariant stack + Children(alg, node, ctx, i) == base + Children(alg, node, ctx, 0)
      {
        TakesItself(node, i);
        ChildrenStep(alg, stack, node, ctx, i);
        Visit(node.children[i]);
        i := i + 1;
      }
    }

    method Visit(node: Node)
      requires frames != [] && Distinct(node)
      modifies this
      ensures var top := old(frames)[|old(frames)| - 1];
        && frames == old(frames)[|old(frames)| - 1 := top.(bodies := Take(top.bodies, node.span).1)]
        && stack == old(stack) + Child(alg, node, ContextOf(top), Take(top.bodies, node.span).0)
      decreases node, 1
    {
      hide Entered, Left, Close, Children, Child, Words, ContextOf, BodiesFrom, Distinct;
      ghost var base, open := stack, frames;
      EnterNode(node);
      EnteredIs(open, base, node);
      ghost var frame := frames[|frames| - 1];
      ghost var inner := ContextOf(frame);
      DistinctBodies(node);
      VisitChildren(node);
      ghost var below := (if node.kind.JsxText? then Words(alg, node.kind.words) else []) + Children(alg, node, inner, 0);
      assert stack == base + below;
      assert stack[..|base|] == base && stack[|base|..] == below;
      ghost var last := frames[|frames| - 1];
      LeftAlike(alg, frame, last.bodies, ContextOf(frames[|frames| - 2]), node, below);
      LeaveNode(node);
      LeftIs(alg, open, base, node);
    }
  }

  lemma LeftAlike<D>(alg: Algebra<D>, frame: Frame, bodies: Bodies, parent: Context, node: Node, below: seq<Entry<D>>)
    ensures Left(alg, frame.(bodies := bodies), parent, node, below) == Left(alg, frame, parent, node, below)
  {
    hide Close;
  }

  lemma DistinctBodies(node: Node)
    ensures BodiesFrom(node, 0) == FrameOf(TOP, 0, node, false).bodies
  {
  }

  /** What entering a node puts on the frames. */
  lemma EnteredIs<D>(frames: seq<Frame>, stack: seq<Entry<D>>, node: Node)
    requires frames != []
    ensures var top := frames[|frames| - 1];
      var (wrapped, bodies) := Take(top.bodies, node.span);
      var entered := Entered(frames, stack, node);
      && |entered| == |frames| + (if wrapped then 2 else 1)
      && entered[..|frames|] == frames[|frames| - 1 := top.(bodies := bodies)]
      && (wrapped ==> entered[|frames|] == ROOT.(start := |stack|, mode := List))
      && entered[|entered| - 1].start == |stack| && entered[|entered| - 1].wrapped == wrapped
      && entered[|entered| - 1].bodies == BodiesFrom(node, 0)
  {
  }

  /** What it leaves behind is what its parent takes it for. */
  lemma LeftIs<D>(alg: Algebra<D>, frames: seq<Frame>, stack: seq<Entry<D>>, node: Node)
    requires frames != []
    ensures var top := frames[|frames| - 1];
      var entered := Entered(frames, stack, node);
      var frame, parent := entered[|entered| - 1], ContextOf(entered[|entered| - 2]);
      var below := (if node.kind.JsxText? then Words(alg, node.kind.words) else []) + Children(alg, node, ContextOf(frame), 0);
      var own := Left(alg, frame, parent, node, below);
      (if frame.wrapped then [Close(alg, List, 0, OTHER, BLOCK, 0, own)] else own)
      == Child(alg, node, ContextOf(top), Take(top.bodies, node.span).0)
  {
    hide Close, Children, Words, BodiesFrom;
  }

  lemma ChildrenStep<D>(alg: Algebra<D>, stack: seq<Entry<D>>, node: Node, ctx: Context, i: nat)
    requires i < |node.children|
    ensures stack + Children(alg, node, ctx, i)
         == stack + Child(alg, node.children[i], ctx, IsBareBody(node, i)) + Children(alg, node, ctx, i + 1)
  {
  }

  /** What an open node leaves behind, from the children it has collected. */
  function Left<D>(alg: Algebra<D>, frame: Frame, parent: Context, node: Node, below: seq<Entry<D>>): seq<Entry<D>> {
    match frame.mode
    case Transparent => below
    case Skip => []
    case mode => [Close(alg, mode, frame.prefix, frame.role, Tag(node.kind), if node.kind.Quasi? && parent.embedded then 0 else Payload(node.kind), below)]
  }

  method FingerprintFile(hash: Content<nat> -> nat, program: Node, comments: seq<nat>) returns (digest: nat)
    requires Distinct(program)
    ensures digest == FingerprintOf(hash, program, comments)
  {
    var walker := new Walker<nat>(Hashing(hash));
    assert ContextOf(ROOT) == TOP && !Take(ROOT.bodies, program.span).0;
    walker.Visit(program);
    assert walker.stack == Entries(Hashing(hash), program, TOP);
    digest := hash(Content(FILE, 0, Digests(walker.stack) + StableSort(Le, comments)));
  }
}
