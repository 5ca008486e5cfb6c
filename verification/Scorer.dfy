/**
The scorer as a mutable walker: open functions on a stack, keys and drafts
filled in as functions open and close, and one running depth.
*/
module Scoring {
  import opened LogicalOperators
  import opened Options
  import opened Complexity
  import opened ScoreParts

  ghost predicate Ready(frames: seq<Frame>, sheet: Sheet) {
    IsTable(TableOf(sheet)) && forall f :: f in frames ==> f.draft < |sheet.drafts|
  }

  /** The frames and the sheet between two moments of the walk. */
  ghost predicate Walked(f: seq<Frame>, s: Sheet, g: seq<Frame>, t: Sheet, r: (Table, seq<Assigned>), branches: nat, cost: nat, count: nat) {
    Grown(f, g, branches, cost, count) && Filled(s, t, r) && Ready(g, t)
  }

  /** A walk below `n`: where it began, the parts it has visited, and what they added. */
  datatype Trip = Trip(f: seq<Frame>, s: Sheet, n: Node, done: seq<Node>, branches: nat, cost: nat, count: nat)

  ghost function More(trip: Trip, p: Node, depth: nat): Trip {
    Trip(trip.f, trip.s, trip.n, trip.done + [p], trip.branches + Branches(p), trip.cost + Cognitive(p, depth), trip.count + Count(p))
  }

  lemma GrownThen(f: seq<Frame>, g: seq<Frame>, h: seq<Frame>, b: nat, c: nat, k: nat, b': nat, c': nat, k': nat)
    requires Grown(f, g, b, c, k) && Grown(g, h, b', c', k')
    ensures Grown(f, h, b + b', c + c', k + k')
  {
  }

  ghost function Visited(sheet: Sheet, frames: seq<Frame>, n: Node, done: seq<Node>): (Table, seq<Assigned>)
    requires Ready(frames, sheet) && Below(n, done)
  {
    OwnerIsReady(frames, sheet);
    AssignAll(TableOf(sheet), Owner(frames), n, done)
  }

  ghost function VisitedNode(sheet: Sheet, frames: seq<Frame>, n: Node): (Table, seq<Assigned>)
    requires Ready(frames, sheet)
  {
    OwnerIsReady(frames, sheet);
    Assign(TableOf(sheet), Owner(frames), n)
  }

  lemma OwnerIsReady(frames: seq<Frame>, sheet: Sheet)
    requires Ready(frames, sheet)
    ensures Owner(frames).Some? ==> Owner(frames).value < |TableOf(sheet).slots|
  {
    if frames != [] {
      assert frames[|frames| - 1] in frames;
    }
  }

  lemma Begin(f: seq<Frame>, s: Sheet, g: seq<Frame>, n: Node, b: nat, c: nat, k: nat)
    requires Ready(f, s) && Grown(f, g, b, c, k)
    ensures Walked(f, s, g, s, Visited(s, f, n, []), b, c, k)
  {
    forall x | x in g ensures x.draft < |s.drafts| {
      var i :| 0 <= i < |g| && g[i] == x;
      assert f[i] in f;
      if i < |f| - 1 {
        assert g[..|f| - 1][i] == f[..|f| - 1][i];
      }
    }
  }

  lemma Bump(f: seq<Frame>, s: Sheet, g: seq<Frame>, t: Sheet, h: seq<Frame>, r: (Table, seq<Assigned>), b: nat, c: nat, k: nat, b': nat, c': nat, k': nat)
    requires Walked(f, s, g, t, r, b, c, k) && Grown(g, h, b', c', k') && Ready(h, t)
    ensures Walked(f, s, h, t, r, b + b', c + c', k + k')
  {
    GrownThen(f, g, h, b, c, k, b', c', k');
  }

  /** One more part of `n` has been visited. */
  lemma Next(f: seq<Frame>, s: Sheet, g: seq<Frame>, t: Sheet, h: seq<Frame>, u: Sheet, n: Node, done: seq<Node>, p: Node,
             b: nat, c: nat, k: nat, b': nat, c': nat, k': nat)
    requires Ready(f, s) && Below(n, done) && p < n
    requires Walked(f, s, g, t, Visited(s, f, n, done), b, c, k)
    requires Walked(g, t, h, u, VisitedNode(t, g, p), b', c', k')
    ensures Below(n, done + [p])
    ensures Walked(f, s, h, u, Visited(s, f, n, done + [p]), b + b', c + c', k + k')
  {
    OwnerIsReady(f, s);
    GrownThen(f, g, h, b, c, k, b', c', k');
    AssignOneMore(TableOf(s), Owner(f), n, done, p);
    FilledThen(s, t, u, Visited(s, f, n, done), VisitedNode(t, g, p));
  }

  // ----- opening and closing a function -----

  /** The frame of a function that has been walked, and what closing it writes. */
  ghost predicate Closes(before: Sheet, after: Sheet, frame: Frame) {
    && frame.draft < |before.drafts| && |after.drafts| == |before.drafts| && after.keys == before.keys
    && (forall i :: 0 <= i < |before.drafts| && i != frame.draft ==> after.drafts[i] == before.drafts[i])
    && var d, e := before.drafts[frame.draft], after.drafts[frame.draft];
       && e.line == d.line && e.named == d.named
       && e.cyclomatic == (if frame.cyclomatic > d.cyclomatic then frame.cyclomatic else d.cyclomatic)
       && (frame.ownsCognitive ==>
             (Total(frame.cost) >= frame.cost.count * frame.base && e.cognitive == Saturate(Total(frame.cost) - frame.cost.count * frame.base)))
       && (!frame.ownsCognitive ==> e.cognitive == d.cognitive)
  }

  ghost predicate Opens(before: Sheet, after: Sheet, owner: Option<nat>, n: Node, index: nat, owns: bool)
    requires n.Function?
  {
    && IsTable(TableOf(before)) && (owner.Some? ==> owner.value < |before.drafts|)
    && (TableOf(after), index, owns) == Resolve(TableOf(before), owner, n.own, n.line)
    && before.drafts <= after.drafts
    && forall i :: |before.drafts| <= i < |after.drafts| ==> after.drafts[i].cyclomatic == 0 && after.drafts[i].cognitive == 0
  }

  lemma SameTable(a: Sheet, b: Sheet)
    requires a.keys == b.keys && |a.drafts| == |b.drafts|
    requires forall i :: 0 <= i < |a.drafts| ==> a.drafts[i].line == b.drafts[i].line && a.drafts[i].named == b.drafts[i].named
    ensures TableOf(a) == TableOf(b)
  {
  }

  /** Opening, walking the body and closing records exactly this function and the ones inside it. */
  lemma FunctionFills(s0: Sheet, s1: Sheet, s2: Sheet, s3: Sheet, owner: Option<nat>, n: Node, frame: Frame, owns: bool)
    requires n.Function? && Opens(s0, s1, owner, n, frame.draft, owns)
    requires Filled(s1, s2, Assign(TableOf(s1), Some(frame.draft), n.body))
    requires Closes(s2, s3, frame) && frame.ownsCognitive == owns
    requires frame.cyclomatic == 1 + Branches(n.body)
    requires Total(frame.cost) - frame.cost.count * frame.base == Cognitive(n.body, 0)
    ensures Filled(s0, s3, Assign(TableOf(s0), owner, n))
  {
    hide Assign, Worst, Owned, Branches, Cognitive, Resolve, Total;
    var met, index := TableOf(s1), frame.draft;
    var inner := Assign(met, Some(index), n.body).1;
    var own := Assigned(SiteOf(n), index, owns);
    FunctionAssigns(TableOf(s0), owner, n, met, index, owns);
    SameTable(s2, s3);
    OwnersAreNew(met, Some(index), n.body);
    forall i | 0 <= i < |s3.drafts|
      ensures s3.drafts[i].cyclomatic == Worst([own] + inner, i, CyclomaticAt(s0, i))
      ensures s3.drafts[i].cognitive == Owned([own] + inner, i, CognitiveAt(s0, i))
    {
      assert CyclomaticAt(s0, i) == CyclomaticAt(s1, i) && CognitiveAt(s0, i) == CognitiveAt(s1, i);
      FunctionFillsAt(s1, s2, s3, frame, own, inner, i);
    }
  }

  lemma FunctionAssigns(table: Table, owner: Option<nat>, n: Node, met: Table, index: nat, owns: bool)
    requires n.Function? && IsTable(table) && (owner.Some? ==> owner.value < |table.slots|)
    requires (met, index, owns) == Resolve(table, owner, n.own, n.line)
    ensures IsTable(met) && index < |met.slots|
    ensures var r := Assign(met, Some(index), n.body); Assign(table, owner, n) == (r.0, [Assigned(SiteOf(n), index, owns)] + r.1)
  {
    OneBody(met, Some(index), n);
  }

  /** What one key has after a function with this frame was closed. */
  lemma FunctionFillsAt(s1: Sheet, s2: Sheet, s3: Sheet, frame: Frame, own: Assigned, inner: seq<Assigned>, i: nat)
    requires Closes(s2, s3, frame) && i < |s2.drafts|
    requires own.index == frame.draft && own.owns == frame.ownsCognitive && own.site.cyclomatic == frame.cyclomatic
    requires Total(frame.cost) - frame.cost.count * frame.base == own.site.cognitive
    requires s2.drafts[i].cyclomatic == Worst(inner, i, CyclomaticAt(s1, i)) && s2.drafts[i].cognitive == Owned(inner, i, CognitiveAt(s1, i))
    requires own.owns ==> forall x :: x in inner && x.owns ==> x.index > own.index
    ensures s3.drafts[i].cyclomatic == Worst([own] + inner, i, CyclomaticAt(s1, i))
    ensures s3.drafts[i].cognitive == Owned([own] + inner, i, CognitiveAt(s1, i))
  {
    assert ([own] + inner)[1..] == inner;
    if i == own.index {
      WorstMax(inner, i, CyclomaticAt(s1, i), own.site.cyclomatic);
      if own.owns {
        NotOwned(inner, i, Saturate(own.site.cognitive));
      }
    }
  }

  lemma OneBody(table: Table, owner: Option<nat>, n: Node)
    requires n.Function? && IsTable(table) && (owner.Some? ==> owner.value < |table.slots|)
    ensures AssignAll(table, owner, n, [n.body]) == Assign(table, owner, n.body)
  {
    AssignStep(table, owner, n, n.body, []);
    var own := Assign(table, owner, n.body).1;
    assert [n.body] + [] == [n.body] && own + [] == own;
  }

  lemma NotOwned(a: seq<Assigned>, i: nat, floor: nat)
    requires forall x :: x in a && x.owns ==> x.index > i
    ensures Owned(a, i, floor) == floor
  {
  }

  class Scorer {
    var drafts: seq<Draft>
    var keys: map<string, nat>
    var frames: seq<Frame>
    var depth: nat

    constructor ()
      ensures drafts == [] && keys == map[] && frames == [] && depth == 0
    {
      drafts, keys, frames, depth := [], map[], [], 0;
    }

    ghost function Page(): Sheet
      reads this`keys, this`drafts
    {
      Sheet(keys, drafts)
    }

    method Insert(key: string, draft: Draft) returns (index: nat)
      modifies this`drafts, this`keys
      ensures index == |old(drafts)| && drafts == old(drafts) + [draft] && keys == old(keys)[key := index]
    {
      index := |drafts|;
      drafts := drafts + [draft];
      keys := keys[key := index];
    }

    method Named(line: nat, own: string) returns (index: nat, owns: bool)
      requires own != "" && Ready(frames, Page())
      modifies this`drafts, this`keys
      ensures (TableOf(Page()), index, owns) == Resolve(TableOf(old(Page())), None, own, line)
      ensures drafts == old(drafts) || drafts == old(drafts) + [Draft(line, 0, 0, true)]
    {
      var key := if own in keys && drafts[keys[own]].named && drafts[keys[own]].line != line then own + ":" + Decimal(line) else own;
      assert key == KeyOf(TableOf(Page()), own, line);
      if key in keys {
        return keys[key], false;
      }
      index := Insert(key, Draft(line, 0, 0, true));
      owns := true;
      assert TableOf(Page()).slots == TableOf(old(Page())).slots + [Slot(line, true)];
    }

    method Anonymous(line: nat) returns (index: nat, owns: bool)
      requires Ready(frames, Page())
      modifies this`drafts, this`keys
      ensures Owner(frames).Some? ==> Owner(frames).value < |TableOf(old(Page())).slots|
      ensures (TableOf(Page()), index, owns) == Resolve(TableOf(old(Page())), Owner(frames), "", line)
      ensures drafts == old(drafts) || drafts == old(drafts) + [Draft(line, 0, 0, false)]
    {
      OwnerIsReady(frames, Page());
      if frames != [] {
        return frames[|frames| - 1].draft, false;
      }
      if ANONYMOUS in keys {
        return keys[ANONYMOUS], false;
      }
      index := Insert(ANONYMOUS, Draft(line, 0, 0, false));
      owns := false;
      assert TableOf(Page()).slots == TableOf(old(Page())).slots + [Slot(line, false)];
    }

    method Open(n: Node)
      requires n.Function? && Ready(frames, Page())
      modifies this
      ensures depth == old(depth) + 1 && |frames| == |old(frames)| + 1 && frames[..|old(frames)|] == old(frames)
      ensures var frame := frames[|old(frames)|];
        && Opens(old(Page()), Page(), Owner(old(frames)), n, frame.draft, frame.ownsCognitive)
        && frame.base == depth && frame.cyclomatic == 1 && frame.cost == Cost(0, 0, 0)
      ensures Ready(frames, Page())
    {
      OwnerIsReady(frames, Page());
      var index, owns;
      if n.own == "" {
        index, owns := Anonymous(n.line);
      } else {
        index, owns := Named(n.line, n.own);
      }
      depth := depth + 1;
      frames := frames + [Frame(index, owns, depth, 1, Cost(0, 0, 0))];
    }

    method CloseFunction()
      requires frames != [] && depth > 0 && Ready(frames, Page())
      requires var frame := frames[|frames| - 1]; Total(frame.cost) >= frame.cost.count * frame.base
      modifies this
      ensures depth == old(depth) - 1
      ensures Closes(old(Page()), Page(), old(frames)[|old(frames)| - 1])
      ensures var frame := old(frames)[|old(frames)| - 1];
        Grown(old(frames)[..|old(frames)| - 1], frames, 0, Total(frame.cost), frame.cost.count)
    {
      var frame := frames[|frames| - 1];
      assert frame in frames;
      frames := frames[..|frames| - 1];
      var cost := frame.cost;
      var draft := drafts[frame.draft];
      draft := draft.(cyclomatic := if frame.cyclomatic > draft.cyclomatic then frame.cyclomatic else draft.cyclomatic);
      if frame.ownsCognitive {
        var cognitive := cost.flat + cost.weighted - cost.count * frame.base;
        draft := draft.(cognitive := Saturate(cognitive));
      }
      drafts := drafts[frame.draft := draft];
      if frames != [] {
        var parent := frames[|frames| - 1];
        var sum := Cost(parent.cost.flat + cost.flat, parent.cost.weighted + cost.weighted, parent.cost.count + cost.count);
        frames := frames[|frames| - 1 := parent.(cost := sum)];
      }
      depth := depth - 1;
    }

    method Decision()
      requires Ready(frames, Page())
      modifies this`frames
      ensures Grown(old(frames), frames, 1, 0, 0) && Ready(frames, Page())
    {
      if frames != [] {
        var frame := frames[|frames| - 1];
        assert frame in frames;
        frames := frames[|frames| - 1 := frame.(cyclomatic := frame.cyclomatic + 1)];
      }
    }

    method Weighted()
      requires Ready(frames, Page())
      modifies this`frames
      ensures Grown(old(frames), frames, 0, 1 + depth, 1) && Ready(frames, Page())
    {
      if frames != [] {
        var frame := frames[|frames| - 1];
        assert frame in frames;
        var cost := frame.cost.(weighted := frame.cost.weighted + 1 + depth, count := frame.cost.count + 1);
        frames := frames[|frames| - 1 := frame.(cost := cost)];
      }
    }

    method Flat(increment: nat)
      requires Ready(frames, Page())
      modifies this`frames
      ensures Grown(old(frames), frames, 0, increment, 0) && Ready(frames, Page())
    {
      if frames != [] {
        var frame := frames[|frames| - 1];
        assert frame in frames;
        frames := frames[|frames| - 1 := frame.(cost := frame.cost.(flat := frame.cost.flat + increment))];
      }
    }

    /** The walk has come as far as `trip` says. */
    ghost predicate At(trip: Trip)
      reads this`frames, this`keys, this`drafts
    {
      Ready(trip.f, trip.s) && Below(trip.n, trip.done) &&
      Walked(trip.f, trip.s, frames, Page(), Visited(trip.s, trip.f, trip.n, trip.done), trip.branches, trip.cost, trip.count)
    }

    /** All parts of a node have been visited. */
    lemma Arrive(trip: Trip, n: Node)
      requires At(trip) && trip.n == n && !n.Function? && trip.done == Parts(n)
      ensures Ready(trip.f, trip.s) && Walked(trip.f, trip.s, frames, Page(), VisitedNode(trip.s, trip.f, n), trip.branches, trip.cost, trip.count)
    {
      hide Walked, Ready;
    }

    /** Visit one more part of the node of `trip`. */
    method Part(ghost trip: Trip, p: Node) returns (ghost next: Trip)
      requires At(trip) && p < trip.n
      modifies this
      ensures depth == old(depth) && next == More(trip, p, depth) && At(next)
      decreases p, 9
    {
      ghost var g, t := frames, Page();
      Visit(p);
      next := More(trip, p, depth);
      Next(trip.f, trip.s, g, t, frames, Page(), trip.n, trip.done, p, trip.branches, trip.cost, trip.count, Branches(p), Cognitive(p, depth), Count(p));
    }

    method Visit(n: Node)
      requires Ready(frames, Page())
      modifies this
      ensures depth == old(depth)
      ensures Walked(old(frames), old(Page()), frames, Page(), VisitedNode(old(Page()), old(frames), n), Branches(n), Cognitive(n, depth), Count(n))
      decreases n, 8
    {
      match n
      case Plain(_) => VisitPlain(n);
      case Function(_, _, _) => VisitFunction(n);
      case If(_, _, _) => IfChain(n, true);
      case Conditional(_, _, _) => VisitConditional(n);
      case Loop(_, _, _) => VisitLoop(n);
      case Switch(_, _) => VisitSwitch(n);
      case Case(_, _) => VisitCase(n);
      case Catch(_, _) => VisitCatch(n);
      case Jump(_) => VisitJump(n);
      case Logical(_, _, _) => VisitLogical(n);
      case LogicalAssignment(_, _) => VisitLogicalAssignment(n);
    }

    /** Visit `parts`, more parts of the node `n` of `trip`, in order. */
    method Each(ghost trip: Trip, n: Node, parts: seq<Node>) returns (ghost next: Trip)
      requires At(trip) && trip.n == n && Below(n, parts)
      modifies this
      ensures depth == old(depth) && At(next)
      ensures next == Trip(trip.f, trip.s, n, trip.done + parts, trip.branches + BranchesAll(parts), trip.cost + CognitiveAll(parts, depth), trip.count + CountAll(parts))
      decreases n, 0, |parts|
    {
      if parts == [] {
        assert trip.done + parts == trip.done;
        next := trip;
        return;
      }
      BelowRest(n, parts);
      next := Part(trip, parts[0]);
      assert (trip.done + [parts[0]]) + parts[1..] == trip.done + parts;
      next := Each(next, n, parts[1..]);
    }

    /** Begin a node with a branch point, and with an increment of one plus the depth. */
    method Structure(n: Node, branches: bool) returns (ghost trip: Trip)
      requires Ready(frames, Page())
      modifies this`frames
      ensures trip == Trip(old(frames), Page(), n, [], if branches then 1 else 0, 1 + depth, 1) && At(trip)
    {
      ghost var f := frames;
      if branches {
        Decision();
      } else {
        GrownNothing(f);
      }
      ghost var g := frames;
      Weighted();
      GrownThen(f, g, frames, if branches then 1 else 0, 0, 0, 0, 1 + depth, 1);
      Begin(f, Page(), frames, n, if branches then 1 else 0, 1 + depth, 1);
      trip := Trip(f, Page(), n, [], if branches then 1 else 0, 1 + depth, 1);
    }

    /** Begin a node with nothing but a branch point, or without. */
    method Simple(n: Node, branches: bool) returns (ghost trip: Trip)
      requires Ready(frames, Page())
      modifies this`frames
      ensures trip == Trip(old(frames), Page(), n, [], if branches then 1 else 0, 0, 0) && At(trip)
    {
      ghost var f := frames;
      if branches {
        Decision();
      } else {
        GrownNothing(f);
      }
      Begin(f, Page(), frames, n, if branches then 1 else 0, 0, 0);
      trip := Trip(f, Page(), n, [], if branches then 1 else 0, 0, 0);
    }

    method VisitPlain(n: Node)
      requires n.Plain? && Ready(frames, Page())
      modifies this
      ensures depth == old(depth)
      ensures Walked(old(frames), old(Page()), frames, Page(), VisitedNode(old(Page()), old(frames), n), Branches(n), Cognitive(n, depth), Count(n))
      decreases n, 7
    {
      ghost var trip := Simple(n, false);
      assert Below(n, Parts(n)) && [] + n.parts == n.parts;
      trip := Each(trip, n, n.parts);
    }

    method VisitFunction(n: Node)
      requires n.Function? && Ready(frames, Page())
      modifies this
      ensures depth == old(depth)
      ensures Walked(old(frames), old(Page()), frames, Page(), VisitedNode(old(Page()), old(frames), n), Branches(n), Cognitive(n, depth), Count(n))
      decreases n, 7
    {
      hide Filled, Closes, Opens, Ready, Cognitive, Branches, Count, Assign;
      ghost var f, s0 := frames, Page();
      ScoresOutside(n, depth);
      Open(n);
      ghost var g, s1, frame := frames, Page(), frames[|frames| - 1];
      OwnerIs(g, s1, frame, n.body);
      Visit(n.body);
      ghost var s2, closing := Page(), frames[|frames| - 1];
      Deepen(n.body, depth);
      assert frames[..|frames| - 1] == f;
      CloseFunction();
      OwnerIsReady(f, s0);
      FunctionFills(s0, s1, s2, Page(), Owner(f), n, closing, frame.ownsCognitive);
      FilledIsReady(f, frames, s0, Page(), VisitedNode(s0, f, n));
    }

    method VisitConditional(n: Node)
      requires n.Conditional? && Ready(frames, Page())
      modifies this
      ensures depth == old(depth)
      ensures Walked(old(frames), old(Page()), frames, Page(), VisitedNode(old(Page()), old(frames), n), Branches(n), Cognitive(n, depth), Count(n))
      decreases n, 7
    {
      hide Grown, Filled, Ready, Walked, Scorer.At, VisitedNode;
      ghost var trip := Structure(n, true);
      trip := Part(trip, n.condition);
      depth := depth + 1;
      trip := Part(trip, n.yes);
      trip := Part(trip, n.no);
      depth := depth - 1;
      assert trip.done == Parts(n);
      Arrive(trip, n);
    }

    method VisitLoop(n: Node)
      requires n.Loop? && Ready(frames, Page())
      modifies this
      ensures depth == old(depth)
      ensures Walked(old(frames), old(Page()), frames, Page(), VisitedNode(old(Page()), old(frames), n), Branches(n), Cognitive(n, depth), Count(n))
      decreases n, 7
    {
      hide Grown, Filled, Ready, Walked, Scorer.At, VisitedNode;
      ghost var trip := Structure(n, true);
      HeadBelow(n);
      if n.bodyFirst {
        depth := depth + 1;
        trip := Part(trip, n.body);
        depth := depth - 1;
        trip := Each(trip, n, n.head);
      } else {
        trip := Each(trip, n, n.head);
        depth := depth + 1;
        trip := Part(trip, n.body);
        depth := depth - 1;
      }
      assert trip.done == Parts(n);
      Arrive(trip, n);
    }

    method VisitSwitch(n: Node)
      requires n.Switch? && Ready(frames, Page())
      modifies this
      ensures depth == old(depth)
      ensures Walked(old(frames), old(Page()), frames, Page(), VisitedNode(old(Page()), old(frames), n), Branches(n), Cognitive(n, depth), Count(n))
      decreases n, 7
    {
      hide Grown, Filled, Ready;
      ghost var trip := Structure(n, false);
      trip := Part(trip, n.discriminant);
      depth := depth + 1;
      HeadBelow(n);
      trip := Each(trip, n, n.cases);
      depth := depth - 1;
      assert trip.done == Parts(n);
    }

    method VisitCase(n: Node)
      requires n.Case? && Ready(frames, Page())
      modifies this
      ensures depth == old(depth)
      ensures Walked(old(frames), old(Page()), frames, Page(), VisitedNode(old(Page()), old(frames), n), Branches(n), Cognitive(n, depth), Count(n))
      decreases n, 7
    {
      hide Grown, Filled, Ready;
      ghost var trip := Simple(n, n.guard.Some?);
      HeadBelow(n);
      if n.guard.Some? {
        trip := Part(trip, n.guard.value);
      }
      trip := Each(trip, n, n.parts);
      assert trip.done == Parts(n);
    }

    method VisitCatch(n: Node)
      requires n.Catch? && Ready(frames, Page())
      modifies this
      ensures depth == old(depth)
      ensures Walked(old(frames), old(Page()), frames, Page(), VisitedNode(old(Page()), old(frames), n), Branches(n), Cognitive(n, depth), Count(n))
      decreases n, 7
    {
      hide Grown, Filled, Ready, Walked, Scorer.At, VisitedNode;
      ghost var trip := Structure(n, true);
      HeadBelow(n);
      trip := Each(trip, n, n.parts);
      depth := depth + 1;
      trip := Part(trip, n.body);
      depth := depth - 1;
      assert trip.done == Parts(n);
      Arrive(trip, n);
    }

    method VisitJump(n: Node)
      requires n.Jump? && Ready(frames, Page())
      modifies this
      ensures depth == old(depth)
      ensures Walked(old(frames), old(Page()), frames, Page(), VisitedNode(old(Page()), old(frames), n), Branches(n), Cognitive(n, depth), Count(n))
      decreases n, 7
    {
      ghost var trip := Simple(n, false);
      if n.labelled {
        ghost var g := frames;
        Flat(1);
        Bump(trip.f, trip.s, g, Page(), frames, Visited(trip.s, trip.f, n, []), 0, 0, 0, 0, 1, 0);
      }
    }

    method VisitLogicalAssignment(n: Node)
      requires n.LogicalAssignment? && Ready(frames, Page())
      modifies this
      ensures depth == old(depth)
      ensures Walked(old(frames), old(Page()), frames, Page(), VisitedNode(old(Page()), old(frames), n), Branches(n), Cognitive(n, depth), Count(n))
      decreases n, 7
    {
      hide Grown, Filled, Ready;
      ghost var trip := Simple(n, true);
      trip := Part(trip, n.target);
      trip := Part(trip, n.value);
      assert trip.done == Parts(n);
    }

    /** An `if` and its `else` ladder: the leading `if` costs one plus the depth, each `else if` and the `else` one. */
    method IfChain(n: Node, leading: bool)
      requires n.If? && Ready(frames, Page())
      modifies this
      ensures depth == old(depth)
      ensures Walked(old(frames), old(Page()), frames, Page(), VisitedNode(old(Page()), old(frames), n),
                     Branches(n), (if leading then 1 + depth else 1) + Ladder(n, depth), (if leading then 1 else 0) + CountLadder(n))
      decreases n, 7
    {
      hide Grown, Filled, Ready, Walked, Scorer.At, VisitedNode, Branches, Ladder, Cognitive, CountLadder, Parts;
      IfSums(n, depth);
      ghost var trip := IfStart(n, leading);
      trip := Part(trip, n.test);
      depth := depth + 1;
      trip := Part(trip, n.consequent);
      depth := depth - 1;
      if n.alternate.Some? {
        trip := ElseOf(trip, n);
      }
      assert trip.done == Parts(n);
      Arrive(trip, n);
    }

    method IfStart(n: Node, leading: bool) returns (ghost trip: Trip)
      requires Ready(frames, Page())
      modifies this`frames
      ensures trip == Trip(old(frames), Page(), n, [], 1, if leading then 1 + depth else 1, if leading then 1 else 0) && At(trip)
    {
      if leading {
        trip := Structure(n, true);
      } else {
        trip := Simple(n, true);
        trip := One(trip);
      }
    }

    /** The `else` of an `if`: another link of the ladder, or a body one deeper. */
    method ElseOf(ghost trip: Trip, n: Node) returns (ghost next: Trip)
      requires n.If? && n.alternate.Some? && At(trip) && trip.n == n
      modifies this
      ensures depth == old(depth) && At(next)
      ensures var alternate := n.alternate.value;
        next == Trip(trip.f, trip.s, n, trip.done + [alternate], trip.branches + Branches(alternate),
                     trip.cost + 1 + (if alternate.If? then Ladder(alternate, depth) else Cognitive(alternate, depth + 1)),
                     trip.count + if alternate.If? then CountLadder(alternate) else Count(alternate))
      decreases n, 6
    {
      hide Grown, Filled, Ready;
      var alternate := n.alternate.value;
      if alternate.If? {
        ghost var g, t := frames, Page();
        IfChain(alternate, false);
        Next(trip.f, trip.s, g, t, frames, Page(), n, trip.done, alternate, trip.branches, trip.cost, trip.count,
             Branches(alternate), 1 + Ladder(alternate, depth), CountLadder(alternate));
        next := Trip(trip.f, trip.s, n, trip.done + [alternate], trip.branches + Branches(alternate),
                     trip.cost + (1 + Ladder(alternate, depth)), trip.count + CountLadder(alternate));
      } else {
        next := One(trip);
        depth := depth + 1;
        next := Part(next, alternate);
        depth := depth - 1;
      }
    }

    /** A flat increment of one. */
    method One(ghost trip: Trip) returns (ghost next: Trip)
      requires At(trip)
      modifies this`frames
      ensures next == trip.(cost := trip.cost + 1) && At(next)
    {
      ghost var g := frames;
      Flat(1);
      next := trip.(cost := trip.cost + 1);
      Bump(trip.f, trip.s, g, Page(), frames, Visited(trip.s, trip.f, trip.n, trip.done), trip.branches, trip.cost, trip.count, 0, 1, 0);
    }

    method VisitLogical(n: Node)
      requires n.Logical? && Ready(frames, Page())
      modifies this
      ensures depth == old(depth)
      ensures Walked(old(frames), old(Page()), frames, Page(), VisitedNode(old(Page()), old(frames), n), Branches(n), Cognitive(n, depth), Count(n))
      decreases n, 7
    {
      ghost var f, s := frames, Page();
      var previous, runs := LogicalChain(n, None, 0);
      RunsAreMaximal(Operators(n));
      ghost var g := frames;
      Flat(runs);
      Bump(f, s, g, Page(), frames, VisitedNode(s, f, n), Branches(n), Operands(n, depth), Count(n), 0, runs, 0);
    }

    /** One tree of logical expressions: a branch per operator, and the runs behind `previous`. */
    method LogicalChain(n: Node, previous: Option<Operator>, runs: nat) returns (last: Option<Operator>, total: nat)
      requires n.Logical? && Ready(frames, Page())
      modifies this
      ensures depth == old(depth)
      ensures last == Last(previous, Operators(n)) && total == runs + RunsBehind(previous, Operators(n))
      ensures Walked(old(frames), old(Page()), frames, Page(), VisitedNode(old(Page()), old(frames), n), Branches(n), Operands(n, depth), Count(n))
      decreases n, 5
    {
      hide Grown, Filled, Ready, Walked, Scorer.At, VisitedNode, Last, RunsBehind, Operators, Branches, Operands, OperandOf, Count, Parts;
      ghost var trip := Simple(n, true);
      LogicalSums(n, depth);
      trip, last, total := LogicalOperand(trip, n.left, previous, runs);
      var joined := last == Some(n.operator);
      OperatorsSplit(n, previous);
      if !joined {
        total := total + 1;
        last := Some(n.operator);
      }
      trip, last, total := LogicalOperand(trip, n.right, last, total);
      assert trip.done == Parts(n);
      Arrive(trip, n);
    }

    method LogicalOperand(ghost trip: Trip, operand: Node, previous: Option<Operator>, runs: nat) returns (ghost next: Trip, last: Option<Operator>, total: nat)
      requires At(trip) && operand < trip.n
      modifies this
      ensures depth == old(depth) && At(next)
      ensures last == Last(previous, Operators(operand)) && total == runs + RunsBehind(previous, Operators(operand))
      ensures next == Trip(trip.f, trip.s, trip.n, trip.done + [operand], trip.branches + Branches(operand), trip.cost + OperandOf(operand, depth), trip.count + Count(operand))
      decreases operand, 10
    {
      ghost var g, t := frames, Page();
      if operand.Logical? {
        last, total := LogicalChain(operand, previous, runs);
      } else {
        Visit(operand);
        last, total := previous, runs;
      }
      next := Trip(trip.f, trip.s, trip.n, trip.done + [operand], trip.branches + Branches(operand), trip.cost + OperandOf(operand, depth), trip.count + Count(operand));
      Next(trip.f, trip.s, g, t, frames, Page(), trip.n, trip.done, operand, trip.branches, trip.cost, trip.count, Branches(operand), OperandOf(operand, depth), Count(operand));
    }
  }

  lemma OperatorsSplit(n: Node, previous: Option<Operator>)
    requires n.Logical?
    ensures var mid := Last(previous, Operators(n.left));
      var own := if mid == Some(n.operator) then 0 else 1;
      && RunsBehind(previous, Operators(n)) == RunsBehind(previous, Operators(n.left)) + own + RunsBehind(Some(n.operator), Operators(n.right))
      && Last(previous, Operators(n)) == Last(Some(n.operator), Operators(n.right))
  {
    RunsConcat(previous, Operators(n.left) + [n.operator], Operators(n.right));
    RunsConcat(previous, Operators(n.left), [n.operator]);
    assert [n.operator][1..] == [];
  }

  /** A function adds the cost of its body to the one around it, and no branch. */
  lemma ScoresOutside(n: Node, depth: nat)
    requires n.Function?
    ensures n.body < n && Branches(n) == 0 && Cognitive(n, depth) == Cognitive(n.body, depth + 1) && Count(n) == Count(n.body)
  {
  }

  lemma OwnerIs(g: seq<Frame>, s: Sheet, frame: Frame, body: Node)
    requires Ready(g, s) && g != [] && g[|g| - 1] == frame
    ensures frame in g && frame.draft < |s.drafts| && IsTable(TableOf(s)) && VisitedNode(s, g, body) == Assign(TableOf(s), Some(frame.draft), body)
  {
    hide Assign;
  }

  lemma FilledIsReady(f: seq<Frame>, g: seq<Frame>, s: Sheet, t: Sheet, r: (Table, seq<Assigned>))
    requires Ready(f, s) && Filled(s, t, r) && IsTable(r.0) && |g| == |f|
    requires f != [] ==> g[..|f| - 1] == f[..|f| - 1] && g[|f| - 1].draft == f[|f| - 1].draft
    ensures Ready(g, t)
  {
    StillReady(f, g, s, t);
  }

  lemma LogicalSums(n: Node, depth: nat)
    requires n.Logical?
    ensures Parts(n) == [n.left] + [n.right] && Branches(n) == 1 + Branches(n.left) + Branches(n.right)
    ensures Operands(n, depth) == OperandOf(n.left, depth) + OperandOf(n.right, depth) && Count(n) == Count(n.left) + Count(n.right)
  {
  }

  lemma IfSums(n: Node, depth: nat)
    requires n.If?
    ensures n.test < n && n.consequent < n && (n.alternate.Some? ==> n.alternate.value < n)
    ensures Parts(n) == [n.test] + [n.consequent] + if n.alternate.Some? then [n.alternate.value] else []
    ensures Branches(n) == 1 + Branches(n.test) + Branches(n.consequent) + if n.alternate.Some? then Branches(n.alternate.value) else 0
    ensures Ladder(n, depth) == Cognitive(n.test, depth) + Cognitive(n.consequent, depth + 1) + if n.alternate.None? then 0 else
      1 + if n.alternate.value.If? then Ladder(n.alternate.value, depth) else Cognitive(n.alternate.value, depth + 1)
    ensures CountLadder(n) == Count(n.test) + Count(n.consequent) + if n.alternate.None? then 0 else
      if n.alternate.value.If? then CountLadder(n.alternate.value) else Count(n.alternate.value)
  {
  }

  lemma HeadBelow(n: Node)
    ensures n.Loop? ==> Below(n, n.head)
    ensures n.Switch? ==> Below(n, n.cases)
    ensures n.Case? || n.Catch? ==> Below(n, n.parts)
  {
  }

  lemma GrownNothing(f: seq<Frame>)
    ensures Grown(f, f, 0, 0, 0)
  {
  }

  lemma StillReady(f: seq<Frame>, g: seq<Frame>, s: Sheet, t: Sheet)
    requires Ready(f, s) && |g| == |f| && |s.drafts| <= |t.drafts| && IsTable(TableOf(t))
    requires f != [] ==> g[..|f| - 1] == f[..|f| - 1] && g[|f| - 1].draft == f[|f| - 1].draft
    ensures Ready(g, t)
  {
    forall x | x in g ensures x.draft < |t.drafts| {
      var i :| 0 <= i < |g| && g[i] == x;
      assert f[i] in f;
      if i < |f| - 1 {
        assert g[..|f| - 1][i] == f[..|f| - 1][i];
      }
    }
  }

  /** The walk of a whole program: every key holds the worst cyclomatic number and its owner's own score. */
  method ScoreProgram(program: Node) returns (drafts: seq<Draft>, keys: map<string, nat>)
    ensures var (table, sites) := Assign(Table(map[], []), None, program);
      && TableOf(Sheet(keys, drafts)) == table
      && forall i :: 0 <= i < |drafts| ==>
          drafts[i].cyclomatic == Worst(sites, i, 0) && drafts[i].cognitive == Owned(sites, i, 0)
  {
    var scorer := new Scorer();
    assert TableOf(scorer.Page()) == Table(map[], []);
    scorer.Visit(program);
    drafts, keys := scorer.drafts, scorer.keys;
  }
}
