/**
Embed directives: which variable declaration each comment group belongs to, and
the in-place moves that put detached groups back above their declarations.
Lines are counted from 0; a group is on the lines from `start` up to `end`.
*/
module Embeds {
  import opened Options
  import opened Sorting

  datatype Group = Group(start: nat, end: nat, embed: bool)

  datatype VarDecl = VarDecl(line: nat, doc: Option<nat>)

  // ----- matching -----

  /** The first declaration after line `end`, from the `i`th on. */
  function NextVar(decls: seq<VarDecl>, end: nat, i: nat := 0): (r: Option<nat>)
    requires i <= |decls|
    ensures r.Some? ==> i <= r.value < |decls| && decls[r.value].line >= end && forall k :: i <= k < r.value ==> decls[k].line < end
    ensures r.None? ==> forall k :: i <= k < |decls| ==> decls[k].line < end
    decreases |decls| - i
  {
    if i == |decls| then None else if decls[i].line >= end then Some(i) else NextVar(decls, end, i + 1)
  }

  /**
  Declarations in order, each group with a directive alone on its lines, and
  such a doc comment before its declaration. Any other comment may be on the
  lines of a declaration. A directive inside a `var ( ... )` block has the
  declaration after the block next.
  */
  ghost predicate Parsed(decls: seq<VarDecl>, groups: seq<Group>) {
    && (forall i, j :: 0 <= i < j < |decls| ==> decls[i].line <= decls[j].line)
    && (forall g :: 0 <= g < |groups| ==> groups[g].start < groups[g].end)
    && (forall g, d :: 0 <= g < |groups| && groups[g].embed && 0 <= d < |decls| ==> decls[d].line < groups[g].start || groups[g].end <= decls[d].line)
    && (forall d :: 0 <= d < |decls| && DocEmbeds(decls, groups, d) ==> NextVar(decls, groups[decls[d].doc.value].end) == Some(d))
  }

  predicate DocEmbeds(decls: seq<VarDecl>, groups: seq<Group>, d: nat)
    requires d < |decls|
  {
    decls[d].doc.Some? && decls[d].doc.value < |groups| && groups[decls[d].doc.value].embed
  }

  /** A group matched to a declaration has a directive and no other declaration in between. */
  ghost predicate Rightly(decls: seq<VarDecl>, groups: seq<Group>, m: map<nat, nat>) {
    forall d :: d in m ==>
      && d < |decls| && m[d] < |groups| && groups[m[d]].embed && NextVar(decls, groups[m[d]].end) == Some(d)
      && (DocEmbeds(decls, groups, d) ==> m[d] == decls[d].doc.value)
  }

  /** Every directive that a declaration follows has its declaration matched: to its doc comment, or else to the first. */
  ghost predicate Completely(decls: seq<VarDecl>, groups: seq<Group>, m: map<nat, nat>, n: nat)
    requires n <= |groups|
  {
    forall g :: 0 <= g < n && groups[g].embed && NextVar(decls, groups[g].end).Some? ==>
      var d := NextVar(decls, groups[g].end).value;
      d in m && (DocEmbeds(decls, groups, d) || m[d] <= g)
  }

  lemma RightlyAdds(decls: seq<VarDecl>, groups: seq<Group>, m: map<nat, nat>, d: nat, g: nat)
    requires Rightly(decls, groups, m) && d < |decls| && g < |groups| && groups[g].embed
    requires NextVar(decls, groups[g].end) == Some(d) && (DocEmbeds(decls, groups, d) ==> g == decls[d].doc.value)
    ensures Rightly(decls, groups, m[d := g])
  {
    hide NextVar, DocEmbeds;
  }

  /** The doc comments that have directives, each for its own declaration. */
  ghost predicate DocsFirst(decls: seq<VarDecl>, groups: seq<Group>, docs: set<nat>, m: map<nat, nat>, n: nat)
    requires n <= |decls|
  {
    && (forall d :: 0 <= d < n && DocEmbeds(decls, groups, d) ==> d in m)
    && (forall d :: d in m ==> d < n && DocEmbeds(decls, groups, d))
    && (forall g :: g in docs ==> exists d :: 0 <= d < n && DocEmbeds(decls, groups, d) && decls[d].doc.value == g)
  }

  /** A doc comment's directive is its declaration's. */
  lemma DocsAreMatched(decls: seq<VarDecl>, groups: seq<Group>, docs: set<nat>, m: map<nat, nat>, g: nat)
    requires Parsed(decls, groups) && DocsFirst(decls, groups, docs, m, |decls|) && g in docs
    ensures g < |groups| && NextVar(decls, groups[g].end).Some? && NextVar(decls, groups[g].end).value < |decls|
    ensures DocEmbeds(decls, groups, NextVar(decls, groups[g].end).value)
  {
    hide NextVar;
    var d :| 0 <= d < |decls| && DocEmbeds(decls, groups, d) && decls[d].doc.value == g;
    assert NextVar(decls, groups[g].end) == Some(d);
  }

  method MatchDocs(decls: seq<VarDecl>, groups: seq<Group>) returns (m: map<nat, nat>, docs: set<nat>)
    requires Parsed(decls, groups)
    ensures Rightly(decls, groups, m) && DocsFirst(decls, groups, docs, m, |decls|)
  {
    hide NextVar, Rightly, Parsed, DocEmbeds, DocsFirst;
    m, docs := map[], {};
    NoneRightly(decls, groups);
    for d := 0 to |decls|
      invariant Rightly(decls, groups, m) && DocsFirst(decls, groups, docs, m, d)
    {
      DocsFirstNext(decls, groups, docs, m, d);
      if DocEmbeds(decls, groups, d) {
        DocIs(decls, groups, d);
        RightlyAdds(decls, groups, m, d, decls[d].doc.value);
        m := m[d := decls[d].doc.value];
        docs := docs + {decls[d].doc.value};
      }
    }
  }

  lemma DocIs(decls: seq<VarDecl>, groups: seq<Group>, d: nat)
    requires Parsed(decls, groups) && d < |decls| && DocEmbeds(decls, groups, d)
    ensures decls[d].doc.Some? && decls[d].doc.value < |groups| && groups[decls[d].doc.value].embed
    ensures NextVar(decls, groups[decls[d].doc.value].end) == Some(d)
  {
    hide NextVar;
  }

  lemma DocsFirstNext(decls: seq<VarDecl>, groups: seq<Group>, docs: set<nat>, m: map<nat, nat>, d: nat)
    requires d < |decls| && DocsFirst(decls, groups, docs, m, d)
    ensures !DocEmbeds(decls, groups, d) ==> DocsFirst(decls, groups, docs, m, d + 1)
    ensures DocEmbeds(decls, groups, d) ==>
      var g := decls[d].doc.value;
      DocsFirst(decls, groups, docs + {g}, m[d := g], d + 1)
  {
    assert DocEmbeds(decls, groups, d) ==> decls[d].doc.Some?;
    hide DocEmbeds;
  }

  lemma NoneRightly(decls: seq<VarDecl>, groups: seq<Group>)
    ensures Rightly(decls, groups, map[]) && DocsFirst(decls, groups, {}, map[], 0)
  {
  }

  method Match(decls: seq<VarDecl>, groups: seq<Group>) returns (m: map<nat, nat>)
    requires Parsed(decls, groups)
    ensures Rightly(decls, groups, m) && Completely(decls, groups, m, |groups|)
  {
    hide NextVar, Rightly, DocEmbeds, Parsed, DocsFirst;
    ghost var first;
    var docs;
    m, docs := MatchDocs(decls, groups);
    first := m;
    for g := 0 to |groups|
      invariant Rightly(decls, groups, m) && Completely(decls, groups, m, g)
      invariant DocsFirst(decls, groups, docs, first, |decls|) && first.Keys <= m.Keys
      invariant forall d :: d in m ==> d in first || m[d] < g
    {
      var next := NextVar(decls, groups[g].end);
      if next.Some? && next.value in first {
        FirstEmbeds(decls, groups, docs, first, next.value);
      }
      if groups[g].embed && g !in docs {
        if next.Some? && next.value !in m {
          FirstOnes(decls, groups, docs, first, next.value);
          RightlyAdds(decls, groups, m, next.value, g);
          m := m[next.value := g];
        }
      } else if g in docs {
        DocsAreMatched(decls, groups, docs, first, g);
        DocsAreIn(decls, groups, docs, first, next.value);
      }
    }
  }

  lemma FirstOnes(decls: seq<VarDecl>, groups: seq<Group>, docs: set<nat>, m: map<nat, nat>, d: nat)
    requires DocsFirst(decls, groups, docs, m, |decls|) && d < |decls| && d !in m
    ensures !DocEmbeds(decls, groups, d)
  {
    hide DocEmbeds;
  }

  lemma FirstEmbeds(decls: seq<VarDecl>, groups: seq<Group>, docs: set<nat>, m: map<nat, nat>, d: nat)
    requires DocsFirst(decls, groups, docs, m, |decls|) && d in m
    ensures d < |decls| && DocEmbeds(decls, groups, d)
  {
    hide DocEmbeds;
  }

  lemma DocsAreIn(decls: seq<VarDecl>, groups: seq<Group>, docs: set<nat>, m: map<nat, nat>, d: nat)
    requires DocsFirst(decls, groups, docs, m, |decls|) && d < |decls| && DocEmbeds(decls, groups, d)
    ensures d in m
  {
    hide DocEmbeds;
  }

  /** From a group to its declaration nothing else is matched: the stretches are disjoint. */
  lemma MatchesApart(decls: seq<VarDecl>, groups: seq<Group>, m: map<nat, nat>, d: nat, e: nat)
    requires Parsed(decls, groups) && Rightly(decls, groups, m) && d in m && e in m && d < e
    ensures groups[m[d]].end <= decls[d].line < groups[m[e]].start
  {
    assert NextVar(decls, groups[m[e]].end) == Some(e);
    assert decls[d].line < groups[m[e]].end;
  }

  // ----- moving -----

  /** The lines from `start` to `end` go right before `line`. */
  datatype Move = Move(start: nat, end: nat, line: nat)

  predicate LaterFirst(a: Move, b: Move) {
    b.start <= a.start
  }

  /** In place, from the bottom of the file up, a group and a gap before its line each. */
  ghost predicate BottomUp(lines: nat, moves: seq<Move>) {
    && (forall i :: 0 <= i < |moves| ==> moves[i].start < moves[i].end < moves[i].line < lines)
    && (forall i, j :: 0 <= i < j < |moves| ==> moves[j].line < moves[i].start)
  }

  ghost function MoveOf(decls: seq<VarDecl>, groups: seq<Group>, m: map<nat, nat>, d: nat): Move
    requires Rightly(decls, groups, m) && d in m
  {
    Move(groups[m[d]].start, groups[m[d]].end, decls[d].line)
  }

  /** A group that is in place already stays. */
  ghost function Moves(decls: seq<VarDecl>, groups: seq<Group>, m: map<nat, nat>, order: seq<nat>): seq<Move>
    requires Rightly(decls, groups, m) && forall i :: 0 <= i < |order| ==> order[i] in m
  {
    if order == [] then [] else
      var d := order[|order| - 1];
      Moves(decls, groups, m, order[..|order| - 1])
      + if decls[d].line != groups[m[d]].end then [MoveOf(decls, groups, m, d)] else []
  }

  /** `order` is whatever order the map gives its keys in. */
  method Collect(decls: seq<VarDecl>, groups: seq<Group>, m: map<nat, nat>, order: seq<nat>) returns (moves: seq<Move>)
    requires Rightly(decls, groups, m) && forall i :: 0 <= i < |order| ==> order[i] in m
    ensures moves == Moves(decls, groups, m, order)
  {
    hide Rightly;
    moves := [];
    assert order[..|order|] == order;
    for i := 0 to |order|
      invariant moves == Moves(decls, groups, m, order[..i])
    {
      assert order[..i + 1][..i] == order[..i];
      RightlyIn(decls, groups, m, order[i]);
      var group, decl := groups[m[order[i]]], decls[order[i]];
      if decl.line != group.end {
        moves := moves + [Move(group.start, group.end, decl.line)];
      }
    }
  }

  lemma RightlyIn(decls: seq<VarDecl>, groups: seq<Group>, m: map<nat, nat>, d: nat)
    requires Rightly(decls, groups, m) && d in m
    ensures d < |decls| && m[d] < |groups|
  {
  }

  // ----- what the moves come to -----

  /** The group, and one blank line after it. */
  function RemoveEnd<T>(blank: T -> bool, lines: seq<T>, move: Move): (n: nat)
    ensures move.end < |lines| && move.end < move.line ==> move.end <= n <= move.line
  {
    if move.end < |lines| && blank(lines[move.end]) then move.end + 1 else move.end
  }

  function Stop(lines: nat, moves: seq<Move>, n: nat): nat
    requires n <= |moves|
  {
    if n == 0 then lines else moves[n - 1].start
  }

  /** Lines `from` on, once the first `n` moves are made. */
  ghost function Moved<T>(blank: T -> bool, lines: seq<T>, moves: seq<Move>, n: nat, from: nat): seq<T>
    requires BottomUp(|lines|, moves) && n <= |moves| && from <= Stop(|lines|, moves, n)
    decreases n
  {
    if n == 0 then lines[from..] else
      var move := moves[n - 1];
      lines[from..move.start] + Piece(blank, lines, move) + Moved(blank, lines, moves, n - 1, move.line)
  }

  /** What was between a group and its declaration, then the group. */
  ghost function Piece<T>(blank: T -> bool, lines: seq<T>, move: Move): seq<T>
    requires move.start < move.end < move.line < |lines|
  {
    lines[RemoveEnd(blank, lines, move)..move.line] + lines[move.start..move.end]
  }

  /** Lines above the moves made so far are where they were. */
  lemma MovedSplits<T>(blank: T -> bool, lines: seq<T>, moves: seq<Move>, n: nat, from: nat)
    requires BottomUp(|lines|, moves) && n <= |moves| && from <= Stop(|lines|, moves, n) <= |lines|
    ensures Moved(blank, lines, moves, n, 0) == lines[..from] + Moved(blank, lines, moves, n, from)
  {
    hide Piece;
    if n > 0 {
      var move := moves[n - 1];
      Prefixed(lines, from, move.start, Piece(blank, lines, move), Moved(blank, lines, moves, n - 1, move.line));
    }
  }

  lemma Prefixed<T>(lines: seq<T>, from: nat, stop: nat, piece: seq<T>, rest: seq<T>)
    requires from <= stop <= |lines|
    ensures lines[0..stop] + piece + rest == lines[..from] + (lines[from..stop] + piece + rest)
  {
    assert lines[0..stop] == lines[..from] + lines[from..stop];
  }

  lemma MoveInPlace<T>(blank: T -> bool, source: seq<T>, rest: seq<T>, move: Move)
    requires move.start < move.end < move.line < |source|
    ensures var lines := source[..move.line] + rest;
      var removeEnd := RemoveEnd(blank, source, move);
      var removed := lines[..move.start] + lines[removeEnd..];
      var insertAt := move.line - (removeEnd - move.start);
      && 0 <= insertAt <= |removed|
      && removed[..insertAt] + lines[move.start..move.end] + removed[insertAt..] == source[..move.start] + Piece(blank, source, move) + rest
  {
    var lines := source[..move.line] + rest;
    var removeEnd := RemoveEnd(blank, source, move);
    var removed := lines[..move.start] + lines[removeEnd..];
    assert removed == source[..move.start] + source[removeEnd..move.line] + rest;
    var insertAt := move.line - (removeEnd - move.start);
    assert removed[..insertAt] == source[..move.start] + source[removeEnd..move.line];
    assert removed[insertAt..] == rest;
    assert lines[move.start..move.end] == source[move.start..move.end];
  }

  method Repair<T>(blank: T -> bool, source: seq<T>, moves: seq<Move>) returns (lines: seq<T>)
    requires BottomUp(|source|, moves)
    ensures lines == Moved(blank, source, moves, |moves|, 0)
  {
    hide Moved, Piece;
    lines := source;
    MovedNone(blank, source, moves);
    for i := 0 to |moves|
      invariant lines == Moved(blank, source, moves, i, 0)
    {
      var move := moves[i];
      ghost var rest := Moved(blank, source, moves, i, move.line);
      MovedSplits(blank, source, moves, i, move.line);
      MoveInPlace(blank, source, rest, move);
      assert lines == source[..move.line] + rest;
      assert lines[move.end] == source[move.end];
      var groupStart, groupEnd, insertAt, removeEnd := move.start, move.end, move.line, move.end;
      if groupEnd < |lines| && blank(lines[groupEnd]) {
        removeEnd := removeEnd + 1;
      }
      var groupLines := lines[groupStart..groupEnd];
      lines := lines[..groupStart] + lines[removeEnd..];
      if insertAt > groupStart {
        insertAt := insertAt - (removeEnd - groupStart);
      }
      lines := lines[..insertAt] + groupLines + lines[insertAt..];
      MovedOne(blank, source, moves, i + 1);
    }
  }

  lemma MovedNone<T>(blank: T -> bool, lines: seq<T>, moves: seq<Move>)
    requires BottomUp(|lines|, moves)
    ensures Moved(blank, lines, moves, 0, 0) == lines
  {
  }

  lemma MovedOne<T>(blank: T -> bool, lines: seq<T>, moves: seq<Move>, n: nat)
    requires BottomUp(|lines|, moves) && 0 < n <= |moves|
    ensures var move := moves[n - 1];
      Moved(blank, lines, moves, n, 0)
      == lines[..move.start] + Piece(blank, lines, move) + Moved(blank, lines, moves, n - 1, move.line)
  {
  }

  // ----- what the moves keep -----

  ghost predicate AboveAt<T>(lines: seq<T>, result: seq<T>, move: Move, p: nat)
    requires move.start < move.end <= move.line < |lines|
  {
    var size := move.end - move.start;
    p + size < |result| && result[p..p + size] == lines[move.start..move.end] && result[p + size] == lines[move.line]
  }

  /** A moved group ends up right above its declaration. */
  lemma {:induction false} GroupIsAbove<T>(blank: T -> bool, lines: seq<T>, moves: seq<Move>, n: nat, from: nat, i: nat)
    requires BottomUp(|lines|, moves) && n <= |moves| && from <= Stop(|lines|, moves, n) && i < n
    ensures exists p :: AboveAt(lines, Moved(blank, lines, moves, n, from), moves[i], p)
    decreases n
  {
    hide Moved, Piece;
    var move := moves[n - 1];
    var rest := Moved(blank, lines, moves, n - 1, move.line);
    var before := lines[from..move.start] + lines[RemoveEnd(blank, lines, move)..move.line];
    var group := lines[move.start..move.end];
    MovedParts(blank, lines, moves, n, from);
    MovedHead(blank, lines, moves, n - 1, move.line);
    if i == n - 1 {
      InMiddle(before, group, rest);
      assert AboveAt(lines, Moved(blank, lines, moves, n, from), move, |before|);
    } else {
      GroupIsAbove(blank, lines, moves, n - 1, move.line, i);
      var p :| AboveAt(lines, rest, moves[i], p);
      AboveLater(lines, before + group, rest, moves[i], p);
    }
  }

  lemma MovedParts<T>(blank: T -> bool, lines: seq<T>, moves: seq<Move>, n: nat, from: nat)
    requires BottomUp(|lines|, moves) && 0 < n <= |moves| && from <= moves[n - 1].start
    ensures var move := moves[n - 1];
      Moved(blank, lines, moves, n, from)
      == lines[from..move.start] + lines[RemoveEnd(blank, lines, move)..move.line] + lines[move.start..move.end]
         + Moved(blank, lines, moves, n - 1, move.line)
  {
  }

  lemma MovedHead<T>(blank: T -> bool, lines: seq<T>, moves: seq<Move>, n: nat, from: nat)
    requires BottomUp(|lines|, moves) && n <= |moves| && from < Stop(|lines|, moves, n) <= |lines|
    ensures Moved(blank, lines, moves, n, from) != [] && Moved(blank, lines, moves, n, from)[0] == lines[from]
  {
    hide Piece;
  }

  lemma InMiddle<T>(before: seq<T>, group: seq<T>, rest: seq<T>)
    ensures (before + group + rest)[|before|..|before| + |group|] == group
    ensures rest != [] ==> (before + group + rest)[|before| + |group|] == rest[0]
  {
  }

  lemma AboveLater<T>(lines: seq<T>, before: seq<T>, rest: seq<T>, move: Move, p: nat)
    requires move.start < move.end <= move.line < |lines| && AboveAt(lines, rest, move, p)
    ensures AboveAt(lines, before + rest, move, |before| + p)
  {
    var size := move.end - move.start;
    assert (before + rest)[|before| + p..|before| + p + size] == rest[p..p + size];
  }

  function Range(a: nat, b: nat): (r: seq<nat>)
    requires a <= b
    ensures |r| == b - a && forall i :: 0 <= i < |r| ==> r[i] == a + i
  {
    seq(b - a, i requires 0 <= i => a + i)
  }

  /** The same by line number. */
  ghost function Order<T>(blank: T -> bool, lines: seq<T>, moves: seq<Move>, n: nat, from: nat): (o: seq<nat>)
    requires BottomUp(|lines|, moves) && n <= |moves| && from <= Stop(|lines|, moves, n)
    ensures forall k :: 0 <= k < |o| ==> from <= o[k] < |lines|
    decreases n
  {
    if n == 0 then Range(from, |lines|) else
      var move := moves[n - 1];
      Range(from, move.start) + Range(RemoveEnd(blank, lines, move), move.line) + Range(move.start, move.end)
      + Order(blank, lines, moves, n - 1, move.line)
  }

  function Pick<T>(lines: seq<T>, order: seq<nat>): (r: seq<T>)
    requires forall i :: 0 <= i < |order| ==> order[i] < |lines|
    ensures |r| == |order| && forall i :: 0 <= i < |order| ==> r[i] == lines[order[i]]
  {
    seq(|order|, i requires 0 <= i < |order| => lines[order[i]])
  }

  lemma {:induction false} MovedIsPicked<T>(blank: T -> bool, lines: seq<T>, moves: seq<Move>, n: nat, from: nat)
    requires BottomUp(|lines|, moves) && n <= |moves| && from <= Stop(|lines|, moves, n) <= |lines|
    ensures Moved(blank, lines, moves, n, from) == Pick(lines, Order(blank, lines, moves, n, from))
    decreases n
  {
    if n > 0 {
      var move := moves[n - 1];
      var removeEnd := RemoveEnd(blank, lines, move);
      MovedIsPicked(blank, lines, moves, n - 1, move.line);
      MovedParts(blank, lines, moves, n, from);
      PickFour(lines, from, move.start, removeEnd, move.line, move.start, move.end, Order(blank, lines, moves, n - 1, move.line));
    }
  }

  lemma PickFour<T>(lines: seq<T>, a: nat, b: nat, c: nat, d: nat, e: nat, f: nat, rest: seq<nat>)
    requires a <= b <= |lines| && c <= d <= |lines| && e <= f <= |lines| && forall i :: 0 <= i < |rest| ==> rest[i] < |lines|
    ensures forall k :: k in Range(a, b) + Range(c, d) + Range(e, f) + rest ==> k < |lines|
    ensures Pick(lines, Range(a, b) + Range(c, d) + Range(e, f) + rest) == lines[a..b] + lines[c..d] + lines[e..f] + Pick(lines, rest)
  {
  }

  /** On a line of a group that is moved. */
  ghost predicate InGroup(moves: seq<Move>, n: nat, k: nat)
    requires n <= |moves|
  {
    exists i :: 0 <= i < n && moves[i].start <= k < moves[i].end
  }

  /** A blank line right after a group that is moved. */
  ghost predicate Dropped<T>(blank: T -> bool, lines: seq<T>, moves: seq<Move>, n: nat, k: nat)
    requires n <= |moves|
  {
    k < |lines| && blank(lines[k]) && exists i :: 0 <= i < n && moves[i].end == k
  }

  /** Every other line keeps its place among the others. */
  lemma {:induction false} OthersKeepOrder<T>(blank: T -> bool, lines: seq<T>, moves: seq<Move>, n: nat, from: nat, p: nat, q: nat)
    requires BottomUp(|lines|, moves) && n <= |moves| && from <= Stop(|lines|, moves, n)
    requires p < q < |Order(blank, lines, moves, n, from)|
    requires !InGroup(moves, n, Order(blank, lines, moves, n, from)[p]) && !InGroup(moves, n, Order(blank, lines, moves, n, from)[q])
    ensures Order(blank, lines, moves, n, from)[p] < Order(blank, lines, moves, n, from)[q]
    decreases n
  {
    hide Order, InGroup;
    if n == 0 {
      OrderNone(blank, lines, moves, from);
    } else {
      var move := moves[n - 1];
      var removeEnd := RemoveEnd(blank, lines, move);
      var rest := Order(blank, lines, moves, n - 1, move.line);
      var order := Order(blank, lines, moves, n, from);
      var before := |order| - |rest|;
      OrderParts(blank, lines, moves, n, from);
      PartAt(from, move.start, removeEnd, move.line, move.start, move.end, rest, p);
      PartAt(from, move.start, removeEnd, move.line, move.start, move.end, rest, q);
      GroupsOf(moves, n, order[p]);
      GroupsOf(moves, n, order[q]);
      if p >= before {
        OthersKeepOrder(blank, lines, moves, n - 1, move.line, p - before, q - before);
      }
    }
  }

  lemma OrderNone<T>(blank: T -> bool, lines: seq<T>, moves: seq<Move>, from: nat)
    requires BottomUp(|lines|, moves) && from <= |lines|
    ensures Order(blank, lines, moves, 0, from) == Range(from, |lines|)
  {
  }

  lemma OrderParts<T>(blank: T -> bool, lines: seq<T>, moves: seq<Move>, n: nat, from: nat)
    requires BottomUp(|lines|, moves) && 0 < n <= |moves| && from <= moves[n - 1].start
    ensures var move := moves[n - 1];
      Order(blank, lines, moves, n, from)
      == Range(from, move.start) + Range(RemoveEnd(blank, lines, move), move.line) + Range(move.start, move.end)
         + Order(blank, lines, moves, n - 1, move.line)
  {
  }

  lemma GroupsOf(moves: seq<Move>, n: nat, k: nat)
    requires 0 < n <= |moves|
    ensures InGroup(moves, n, k) <==> moves[n - 1].start <= k < moves[n - 1].end || InGroup(moves, n - 1, k)
  {
  }

  lemma PartAt(a: nat, b: nat, c: nat, d: nat, e: nat, f: nat, rest: seq<nat>, k: nat)
    requires a <= b && c <= d && e <= f
    ensures var whole := Range(a, b) + Range(c, d) + Range(e, f) + rest;
      var x, y := b - a, d - c;
      var z := f - e;
      && |whole| == x + y + z + |rest|
      && (k < |whole| ==>
            whole[k] == if k < x then a + k else if k < x + y then c + k - x
                        else if k < x + y + z then e + k - x - y else rest[k - x - y - z])
  {
  }

  /** Every line is there once, but for a blank line after a moved group. */
  lemma {:induction false} LinesAreKept<T>(blank: T -> bool, lines: seq<T>, moves: seq<Move>, n: nat, from: nat, k: nat)
    requires BottomUp(|lines|, moves) && n <= |moves| && from <= Stop(|lines|, moves, n)
    ensures multiset(Order(blank, lines, moves, n, from))[k]
         == if from <= k < |lines| && !Dropped(blank, lines, moves, n, k) then 1 else 0
    decreases n
  {
    hide Dropped, Order;
    if n == 0 {
      OrderNone(blank, lines, moves, from);
      RangeCounts(from, |lines|, k);
      NoneDropped(blank, lines, moves, k);
    } else {
      var move := moves[n - 1];
      RangeCounts(from, move.start, k);
      RangeCounts(RemoveEnd(blank, lines, move), move.line, k);
      RangeCounts(move.start, move.end, k);
      LinesAreKept(blank, lines, moves, n - 1, move.line, k);
      DroppedHere(blank, lines, moves, n, k);
      OrderParts(blank, lines, moves, n, from);
    }
  }

  lemma NoneDropped<T>(blank: T -> bool, lines: seq<T>, moves: seq<Move>, k: nat)
    ensures !Dropped(blank, lines, moves, 0, k)
  {
  }

  lemma DroppedHere<T>(blank: T -> bool, lines: seq<T>, moves: seq<Move>, n: nat, k: nat)
    requires BottomUp(|lines|, moves) && 0 < n <= |moves|
    ensures Dropped(blank, lines, moves, n, k)
      <==> (k == moves[n - 1].end && blank(lines[k])) || Dropped(blank, lines, moves, n - 1, k)
    ensures Dropped(blank, lines, moves, n - 1, k) ==> k > moves[n - 1].line
  {
  }

  lemma {:induction false} RangeCounts(a: nat, b: nat, k: nat)
    requires a <= b
    ensures multiset(Range(a, b))[k] == if a <= k < b then 1 else 0
    decreases b
  {
    if a < b {
      RangeCounts(a, b - 1, k);
      assert Range(a, b) == Range(a, b - 1) + [b - 1];
    }
  }

  /** At most one line a move. */
  lemma {:induction false} FewDropped<T>(blank: T -> bool, lines: seq<T>, moves: seq<Move>, n: nat, from: nat)
    requires BottomUp(|lines|, moves) && n <= |moves| && from <= Stop(|lines|, moves, n) <= |lines|
    ensures |lines| - from - n <= |Moved(blank, lines, moves, n, from)| <= |lines| - from
    decreases n
  {
    if n > 0 {
      FewDropped(blank, lines, moves, n - 1, moves[n - 1].line);
    }
  }

  // ----- the moves of a file -----

  lemma {:induction false} MovesOf(decls: seq<VarDecl>, groups: seq<Group>, m: map<nat, nat>, order: seq<nat>, move: Move) returns (k: nat)
    requires Rightly(decls, groups, m) && (forall i :: 0 <= i < |order| ==> order[i] in m) && move in Moves(decls, groups, m, order)
    ensures k < |order| && move == MoveOf(decls, groups, m, order[k]) && decls[order[k]].line != groups[m[order[k]]].end
    decreases |order|
  {
    hide Rightly;
    var n := |order| - 1;
    RightlyIn(decls, groups, m, order[n]);
    if move in Moves(decls, groups, m, order[..n]) {
      k := MovesOf(decls, groups, m, order[..n], move);
    } else {
      k := n;
    }
  }

  /** Two moves of a file, from the map in any order without repeats, do not touch each other. */
  lemma MovesApart(decls: seq<VarDecl>, groups: seq<Group>, m: map<nat, nat>, d: nat, e: nat)
    requires Parsed(decls, groups) && Rightly(decls, groups, m) && d in m && e in m && d != e
    ensures MoveOf(decls, groups, m, d).line < MoveOf(decls, groups, m, e).start || MoveOf(decls, groups, m, e).line < MoveOf(decls, groups, m, d).start
  {
    if d < e {
      MatchesApart(decls, groups, m, d, e);
    } else {
      MatchesApart(decls, groups, m, e, d);
    }
  }

  lemma {:induction false} MovesOnce(decls: seq<VarDecl>, groups: seq<Group>, m: map<nat, nat>, order: seq<nat>, move: Move)
    requires Parsed(decls, groups) && Rightly(decls, groups, m) && (forall i :: 0 <= i < |order| ==> order[i] in m)
    requires forall i, j :: 0 <= i < j < |order| ==> order[i] != order[j]
    ensures multiset(Moves(decls, groups, m, order))[move] <= 1
    decreases |order|
  {
    hide Rightly, Parsed;
    if order != [] {
      var n := |order| - 1;
      MovesOnce(decls, groups, m, order[..n], move);
      RightlyIn(decls, groups, m, order[n]);
      if move in Moves(decls, groups, m, order[..n]) {
        var k := MovesOf(decls, groups, m, order[..n], move);
        MovesApart(decls, groups, m, order[k], order[n]);
        RightlyIn(decls, groups, m, order[k]);
        LastDiffers(decls, groups, m, order[k], order[n]);
      }
    }
  }

  lemma LastDiffers(decls: seq<VarDecl>, groups: seq<Group>, m: map<nat, nat>, d: nat, e: nat)
    requires Parsed(decls, groups) && Rightly(decls, groups, m) && d in m && e in m && d != e
    ensures MoveOf(decls, groups, m, d) != MoveOf(decls, groups, m, e)
  {
    if d < e {
      assert decls[d].line < decls[e].line;
    } else {
      assert decls[e].line < decls[d].line;
    }
  }

  /** Sorted from the bottom up, the moves of a file are ones that can be made in place. */
  lemma SortedMovesFit(decls: seq<VarDecl>, groups: seq<Group>, m: map<nat, nat>, order: seq<nat>, lines: nat)
    requires Parsed(decls, groups) && Rightly(decls, groups, m) && (forall i :: 0 <= i < |order| ==> order[i] in m)
    requires forall i, j :: 0 <= i < j < |order| ==> order[i] != order[j]
    requires forall d :: 0 <= d < |decls| ==> decls[d].line < lines
    ensures BottomUp(lines, StableSort(LaterFirst, Moves(decls, groups, m, order)))
  {
    var moves := Moves(decls, groups, m, order);
    var sorted := StableSort(LaterFirst, moves);
    assert TotalPreorder(LaterFirst);
    StableSortSorts(LaterFirst, moves);
    forall i | 0 <= i < |sorted| ensures sorted[i].start < sorted[i].end < sorted[i].line < lines {
      MoveFits(decls, groups, m, order, sorted, i, lines);
    }
    forall i, j | 0 <= i < j < |sorted| ensures sorted[j].line < sorted[i].start {
      SortedApart(decls, groups, m, order, sorted, i, j);
    }
  }

  lemma MoveFits(decls: seq<VarDecl>, groups: seq<Group>, m: map<nat, nat>, order: seq<nat>, sorted: seq<Move>, i: nat, lines: nat)
    requires Parsed(decls, groups) && Rightly(decls, groups, m) && (forall i :: 0 <= i < |order| ==> order[i] in m)
    requires multiset(sorted) == multiset(Moves(decls, groups, m, order)) && i < |sorted|
    requires forall d :: 0 <= d < |decls| ==> decls[d].line < lines
    ensures sorted[i].start < sorted[i].end < sorted[i].line < lines
  {
    assert sorted[i] in multiset(sorted);
    var k := MovesOf(decls, groups, m, order, sorted[i]);
    var d := order[k];
    assert NextVar(decls, groups[m[d]].end) == Some(d);
  }

  lemma SortedApart(decls: seq<VarDecl>, groups: seq<Group>, m: map<nat, nat>, order: seq<nat>, sorted: seq<Move>, i: nat, j: nat)
    requires Parsed(decls, groups) && Rightly(decls, groups, m) && (forall i :: 0 <= i < |order| ==> order[i] in m)
    requires forall i, j :: 0 <= i < j < |order| ==> order[i] != order[j]
    requires multiset(sorted) == multiset(Moves(decls, groups, m, order)) && i < j < |sorted| && sorted[j].start <= sorted[i].start
    ensures sorted[j].line < sorted[i].start
  {
    hide Parsed, Rightly, Moves;
    assert sorted[i] in multiset(sorted) && sorted[j] in multiset(sorted);
    var k := MovesOf(decls, groups, m, order, sorted[i]);
    var l := MovesOf(decls, groups, m, order, sorted[j]);
    MovesOnce(decls, groups, m, order, sorted[i]);
    TwiceCounts(sorted, i, j);
    MovesApart(decls, groups, m, order[k], order[l]);
    MoveBefore(decls, groups, m, order[k]);
    MoveBefore(decls, groups, m, order[l]);
  }

  lemma TwiceCounts(s: seq<Move>, i: nat, j: nat)
    requires i < j < |s|
    ensures s[i] == s[j] ==> multiset(s)[s[i]] >= 2
  {
    assert s == s[..j] + [s[j]] + s[j + 1..];
    assert s[i] in s[..j];
  }

  lemma MoveBefore(decls: seq<VarDecl>, groups: seq<Group>, m: map<nat, nat>, d: nat)
    requires Parsed(decls, groups) && Rightly(decls, groups, m) && d in m
    ensures MoveOf(decls, groups, m, d).start < MoveOf(decls, groups, m, d).line
  {
    assert NextVar(decls, groups[m[d]].end) == Some(d);
  }

  /** The keys of a map in some order. */
  method InSomeOrder(m: map<nat, nat>) returns (order: seq<nat>)
    ensures (forall i :: 0 <= i < |order| ==> order[i] in m) && (forall d :: d in m ==> d in order)
    ensures forall i, j :: 0 <= i < j < |order| ==> order[i] != order[j]
  {
    order := [];
    var rest := m.Keys;
    while rest != {}
      invariant rest <= m.Keys
      invariant forall d :: d in order <==> d in m && d !in rest
      invariant forall i, j :: 0 <= i < j < |order| ==> order[i] != order[j]
      decreases rest
    {
      var d :| d in rest;
      order := order + [d];
      rest := rest - {d};
    }
  }

  /** The directives of a file back above their declarations. */
  method RepairSource<T>(blank: T -> bool, decls: seq<VarDecl>, groups: seq<Group>, source: seq<T>)
    returns (lines: seq<T>, m: map<nat, nat>, moves: seq<Move>)
    requires Parsed(decls, groups) && forall d :: 0 <= d < |decls| ==> decls[d].line < |source|
    ensures Rightly(decls, groups, m) && Completely(decls, groups, m, |groups|)
    ensures forall d :: d in m && decls[d].line != groups[m[d]].end ==> MoveOf(decls, groups, m, d) in moves
    ensures BottomUp(|source|, moves) && lines == Moved(blank, source, moves, |moves|, 0)
  {
    hide Parsed, Completely, BottomUp, Moved, Moves;
    m := Match(decls, groups);
    var order := InSomeOrder(m);
    var collected := Collect(decls, groups, m, order);
    moves := StableSort(LaterFirst, collected);
    SortedMovesFit(decls, groups, m, order, |source|);
    forall d | d in m && decls[d].line != groups[m[d]].end ensures MoveOf(decls, groups, m, d) in moves {
      MoveIsThere(decls, groups, m, order, d);
      StableSortSorts(LaterFirst, collected);
      assert MoveOf(decls, groups, m, d) in multiset(collected);
    }
    lines := Repair(blank, source, moves);
  }

  lemma {:induction false} MoveIsThere(decls: seq<VarDecl>, groups: seq<Group>, m: map<nat, nat>, order: seq<nat>, d: nat)
    requires Rightly(decls, groups, m) && (forall i :: 0 <= i < |order| ==> order[i] in m) && d in order && d in m
    requires decls[d].line != groups[m[d]].end
    ensures MoveOf(decls, groups, m, d) in Moves(decls, groups, m, order)
    decreases |order|
  {
    hide Rightly;
    var n := |order| - 1;
    RightlyIn(decls, groups, m, order[n]);
    if order[n] != d {
      assert d in order[..n];
      MoveIsThere(decls, groups, m, order[..n], d);
    }
  }
}
