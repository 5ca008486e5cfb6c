/**
Cutting a source file into one region per declaration, by lines, and splicing
the regions together in another order.
*/
module DeclRegions {
  import opened Options

  type Text = string

  // ----- lines -----

  /** Where lines begin that a newline among the first `n` characters ends the one before of. */
  function Begins(src: Text, n: nat): (b: seq<nat>)
    requires n <= |src|
  {
    if n == 0 then [] else Begins(src, n - 1) + if src[n - 1] == '\n' then [n] else []
  }

  /** Indexed by line number, from 1. */
  function LineStarts(src: Text): (r: seq<nat>)
    ensures |r| >= 2
  {
    [0, 0] + Begins(src, |src|)
  }

  method BuildLineStarts(src: Text) returns (starts: seq<nat>)
    ensures starts == LineStarts(src)
  {
    starts := [0, 0];
    for i := 0 to |src|
      invariant starts == [0, 0] + Begins(src, i)
    {
      if src[i] == '\n' {
        starts := starts + [i + 1];
      }
    }
  }

  /** The line number of an offset. */
  function LineOf(src: Text, p: nat): nat
    requires p <= |src|
  {
    1 + |Begins(src, p)|
  }

  function LineStartOffset(starts: seq<nat>, line: int): nat
    requires |starts| > 0
  {
    if line < 1 then 0 else if line >= |starts| then starts[|starts| - 1] else starts[line]
  }

  function LineStart(src: Text, p: nat): nat
    requires p <= |src|
  {
    LineStartOffset(LineStarts(src), LineOf(src, p))
  }

  function NextLine(src: Text, p: nat): nat
    requires p <= |src|
  {
    LineStartOffset(LineStarts(src), LineOf(src, p) + 1)
  }

  predicate HasNewline(src: Text, from: nat, to: nat)
    requires from <= to <= |src|
  {
    exists k :: from <= k < to && src[k] == '\n'
  }

  lemma {:induction false} LastBegin(src: Text, p: nat)
    requires p <= |src|
    ensures Begins(src, p) == [] ==> !HasNewline(src, 0, p)
    ensures Begins(src, p) != [] ==>
      var s := Begins(src, p)[|Begins(src, p)| - 1];
      0 < s <= p && src[s - 1] == '\n' && !HasNewline(src, s, p)
    decreases p
  {
    if p > 0 {
      LastBegin(src, p - 1);
      if src[p - 1] != '\n' && Begins(src, p) != [] {
        var s := Begins(src, p)[|Begins(src, p)| - 1];
        assert forall k :: s <= k < p - 1 ==> src[k] != '\n';
      }
    }
  }

  lemma {:induction false} BeginsGrow(src: Text, p: nat, q: nat)
    requires p <= q <= |src|
    ensures Begins(src, p) <= Begins(src, q)
    decreases q
  {
    if p < q {
      BeginsGrow(src, p, q - 1);
    }
  }

  lemma {:induction false} NextBegin(src: Text, p: nat, q: nat)
    requires p <= q <= |src| && HasNewline(src, p, q)
    ensures |Begins(src, p)| < |Begins(src, q)|
    ensures var e := Begins(src, q)[|Begins(src, p)|];
      p < e <= q && src[e - 1] == '\n' && !HasNewline(src, p, e - 1)
    decreases q
  {
    if HasNewline(src, p, q - 1) {
      NextBegin(src, p, q - 1);
    } else {
      NoneBetween(src, p, q - 1);
      assert src[q - 1] == '\n';
    }
  }

  lemma {:induction false} NoneBetween(src: Text, p: nat, q: nat)
    requires p <= q <= |src| && !HasNewline(src, p, q)
    ensures Begins(src, q) == Begins(src, p)
    decreases q
  {
    if p < q {
      assert src[q - 1] != '\n';
      NoneBetween(src, p, q - 1);
    }
  }

  /** The start of a line, as the table has it. */
  lemma LineStartIs(src: Text, p: nat)
    requires p <= |src|
    ensures LineStart(src, p) <= p && !HasNewline(src, LineStart(src, p), p)
    ensures LineStart(src, p) == 0 || src[LineStart(src, p) - 1] == '\n'
  {
    LastBegin(src, p);
    BeginsGrow(src, p, |src|);
    var b := Begins(src, p);
    if b != [] {
      assert LineStarts(src)[1 + |b|] == Begins(src, |src|)[|b| - 1];
    }
  }

  /** The start of the next line, if there is one. */
  lemma NextLineIs(src: Text, p: nat)
    requires p <= |src| && HasNewline(src, p, |src|)
    ensures p < NextLine(src, p) <= |src| && src[NextLine(src, p) - 1] == '\n' && !HasNewline(src, p, NextLine(src, p) - 1)
  {
    NextBegin(src, p, |src|);
  }

  /** On the last line, the table has the start of that line for the next one. */
  lemma NoNextLine(src: Text, p: nat)
    requires p <= |src| && !HasNewline(src, p, |src|)
    ensures NextLine(src, p) == LineStart(src, p)
  {
    NoneBetween(src, p, |src|);
  }

  lemma SameLine(src: Text, p: nat, q: nat)
    requires p <= q <= |src| && !HasNewline(src, p, q)
    ensures LineStart(src, p) == LineStart(src, q) && NextLine(src, p) == NextLine(src, q)
  {
    NoneBetween(src, p, q);
  }

  /** What the table has for the next line begins a line, and no earlier one than its own. */
  lemma NextLineBegins(src: Text, p: nat)
    requires p <= |src|
    ensures LineStart(src, p) <= NextLine(src, p) <= |src| && IsLineStart(src, NextLine(src, p))
  {
    hide LineStarts, LineOf, HasNewline;
    LineStartIs(src, p);
    if HasNewline(src, p, |src|) {
      NextLineIs(src, p);
    } else {
      NoNextLine(src, p);
    }
  }

  predicate IsLineStart(src: Text, p: nat) {
    p == 0 || (p <= |src| && src[p - 1] == '\n')
  }

  /** With a line break between two offsets, the line after one is no later than the line of the other. */
  lemma LinesApart(src: Text, p: nat, q: nat)
    requires p <= q <= |src| && HasNewline(src, p, q)
    ensures p < NextLine(src, p) <= LineStart(src, q) <= q && src[LineStart(src, q) - 1] == '\n'
  {
    hide LineStarts, LineOf, HasNewline;
    NewlineLater(src, p, q);
    NextLineIs(src, p);
    LineStartIs(src, q);
    BreakBetween(src, p, q, NextLine(src, p), LineStart(src, q));
  }

  lemma NewlineLater(src: Text, p: nat, q: nat)
    requires p <= q <= |src| && HasNewline(src, p, q)
    ensures HasNewline(src, p, |src|)
  {
    var k :| p <= k < q && src[k] == '\n';
    assert src[k] == '\n';
  }

  lemma BreakBetween(src: Text, p: nat, q: nat, next: nat, start: nat)
    requires p <= q <= |src| && HasNewline(src, p, q)
    requires p < next <= |src| && src[next - 1] == '\n' && !HasNewline(src, p, next - 1)
    requires start <= q && !HasNewline(src, start, q) && (start == 0 || src[start - 1] == '\n')
    ensures next <= start && src[start - 1] == '\n'
  {
    var k :| p <= k < q && src[k] == '\n';
    assert next - 1 <= k < start;
  }

  /** A later offset is on no earlier line. */
  lemma LinesInOrder(src: Text, p: nat, q: nat)
    requires p <= q <= |src|
    ensures LineStart(src, p) <= LineStart(src, q) && NextLine(src, p) <= NextLine(src, q)
  {
    hide LineStarts, LineOf, HasNewline;
    if HasNewline(src, p, q) {
      LineStartIs(src, p);
      LinesApart(src, p, q);
      NextLineBegins(src, q);
    } else {
      SameLine(src, p, q);
    }
  }

  /** An offset is at or past the start of a line exactly when its own line is. */
  lemma AtLineStart(src: Text, p: nat, line: nat)
    requires p <= |src| && IsLineStart(src, line)
    ensures line <= p <==> line <= LineStart(src, p)
  {
    hide LineStarts, LineOf, HasNewline;
    LineStartIs(src, p);
    if 0 < line {
      BreakBefore(src, LineStart(src, p), p, line);
    }
  }

  lemma BreakBefore(src: Text, start: nat, p: nat, line: nat)
    requires start <= p <= |src| && 0 < line <= |src| && src[line - 1] == '\n'
    ensures line <= p && start < line ==> HasNewline(src, start, p)
  {
  }

  // ----- regions -----

  /** Where a declaration is, with its doc comment. */
  datatype Span = Span(doc: Option<nat>, pos: nat, end: nat)

  datatype Region = Region(start: nat, end: nat)

  function First(s: Span): nat {
    if s.doc.Some? && s.doc.value < s.pos then s.doc.value else s.pos
  }

  /**
  Declarations one after another, as a parser finds them: none ends with a line
  break. A comment may stand anywhere before its declaration.
  */
  predicate Parsed(src: Text, spans: seq<Span>) {
    && (forall i :: 0 <= i < |spans| ==> spans[i].pos < spans[i].end <= |src| && src[spans[i].end - 1] != '\n')
    && (forall i :: 0 <= i < |spans| - 1 ==> spans[i].end <= spans[i + 1].pos)
  }

  /** The line a declaration ends on is over before the next declaration, or before the end of the file. */
  predicate EndsLine(src: Text, spans: seq<Span>, i: nat)
    requires Parsed(src, spans) && i < |spans|
  {
    HasNewline(src, spans[i].end, if i + 1 < |spans| then spans[i + 1].pos else |src|)
  }

  ghost predicate AllEndLines(src: Text, spans: seq<Span>)
    requires Parsed(src, spans)
  {
    forall i :: 0 <= i < |spans| ==> EndsLine(src, spans, i)
  }

  /** Whether the comment of a declaration, or else the declaration, begins on a line after the declaration before. */
  predicate Follows(src: Text, spans: seq<Span>, i: nat)
    requires Parsed(src, spans) && i < |spans|
  {
    i == 0 || NextLine(src, spans[i - 1].end) <= First(spans[i])
  }

  /** A region is cut at line breaks, and begins with the comment exactly when that follows. */
  ghost predicate Holds(src: Text, spans: seq<Span>, i: nat, r: Region)
    requires Parsed(src, spans) && i < |spans|
  {
    && r.start <= r.end <= |src| && IsLineStart(src, r.start) && IsLineStart(src, r.end)
    && (Follows(src, spans, i) <==> r.start <= First(spans[i]))
  }

  /** The regions tile the text, one after another. */
  ghost predicate Tiles(src: Text, spans: seq<Span>, regions: seq<Region>)
    requires Parsed(src, spans)
  {
    && |regions| == |spans|
    && (forall i :: 0 <= i < |regions| ==> Holds(src, spans, i, regions[i]))
    && (forall i :: 0 <= i < |regions| - 1 ==> regions[i].end == regions[i + 1].start)
  }

  predicate IsWhole(s: Span, r: Region) {
    r.start <= s.pos && s.end <= r.end
  }

  ghost predicate AllWhole(spans: seq<Span>, regions: seq<Region>) {
    |regions| == |spans| && forall i :: 0 <= i < |spans| ==> IsWhole(spans[i], regions[i])
  }

  /** The later of the line a declaration's comment begins on and the one after the declaration before. */
  function StartOf(src: Text, spans: seq<Span>, i: nat): nat
    requires Parsed(src, spans) && i < |spans|
  {
    var start := LineStart(src, First(spans[i]));
    if i > 0 && start < NextLine(src, spans[i - 1].end) then NextLine(src, spans[i - 1].end) else start
  }

  /** The clamp acts exactly when the comment begins before the line after the declaration before. */
  lemma ClampActsIff(src: Text, spans: seq<Span>, i: nat)
    requires Parsed(src, spans) && i < |spans|
    ensures StartOf(src, spans, i) != LineStart(src, First(spans[i])) <==> i > 0 && First(spans[i]) < NextLine(src, spans[i - 1].end)
    ensures StartOf(src, spans, i) <= First(spans[i]) <==> Follows(src, spans, i)
  {
    hide LineStarts, LineOf, HasNewline;
    LineStartIs(src, First(spans[i]));
    if i > 0 {
      NextLineBegins(src, spans[i - 1].end);
      AtLineStart(src, First(spans[i]), NextLine(src, spans[i - 1].end));
    }
  }

  /** Each region begins a line, no earlier than the one after the declaration before, and no later than the one after its own. */
  lemma StartIs(src: Text, spans: seq<Span>, i: nat)
    requires Parsed(src, spans) && i < |spans|
    ensures var start := StartOf(src, spans, i);
      && IsLineStart(src, start) && start <= NextLine(src, spans[i].end) <= |src| && IsLineStart(src, NextLine(src, spans[i].end))
      && (i > 0 ==> NextLine(src, spans[i - 1].end) <= start)
  {
    hide LineStarts, LineOf, HasNewline;
    LineStartIs(src, First(spans[i]));
    NextLineBegins(src, spans[i].end);
    LinesInOrder(src, First(spans[i]), spans[i].end);
    if i > 0 {
      NextLineBegins(src, spans[i - 1].end);
      LinesInOrder(src, spans[i - 1].end, spans[i].end);
    }
  }

  /** The first line of each declaration's region. */
  method Starts(src: Text, spans: seq<Span>) returns (starts: seq<nat>)
    requires Parsed(src, spans)
    ensures |starts| == |spans| && forall i :: 0 <= i < |spans| ==> starts[i] == StartOf(src, spans, i)
  {
    hide LineStarts, LineOf, HasNewline;
    var lines := BuildLineStarts(src);
    starts := [];
    for i := 0 to |spans|
      invariant |starts| == i && forall k :: 0 <= k < i ==> starts[k] == StartOf(src, spans, k)
    {
      var start := LineStartOffset(lines, LineOf(src, First(spans[i])));
      if i > 0 {
        var previous := LineStartOffset(lines, LineOf(src, spans[i - 1].end) + 1);
        start := if start < previous then previous else start;
      }
      starts := starts + [start];
    }
  }

  /** One region for each declaration. All have their declarations whole exactly when each declaration ends its line. */
  method Regions(src: Text, spans: seq<Span>) returns (regions: seq<Region>)
    requires Parsed(src, spans)
    ensures Tiles(src, spans, regions)
    ensures forall i :: 0 <= i < |regions| ==> regions[i] == RegionAt(src, spans, i)
    ensures AllWhole(spans, regions) <==> AllEndLines(src, spans)
  {
    hide LineStarts, LineOf, HasNewline, StartOf, Holds, Parsed;
    var starts := Starts(src, spans);
    var lines := BuildLineStarts(src);
    regions := [];
    for i := 0 to |spans|
      invariant |regions| == i
      invariant forall k :: 0 <= k < i ==> regions[k] == RegionAt(src, spans, k)
    {
      RegionIs(src, spans, i);
      var end;
      if i + 1 < |spans| {
        end := starts[i + 1];
      } else {
        end := LineStartOffset(lines, LineOf(src, spans[i].end) + 1);
        end := if end < |src| then end else |src|;
      }
      regions := regions + [Region(starts[i], end)];
    }
    forall i | 0 <= i < |regions| ensures Holds(src, spans, i, regions[i]) {
      RegionIs(src, spans, i);
    }
    WholeIffEnded(src, spans, regions);
  }

  ghost function RegionAt(src: Text, spans: seq<Span>, i: nat): Region
    requires Parsed(src, spans) && i < |spans|
  {
    Region(StartOf(src, spans, i), if i + 1 < |spans| then StartOf(src, spans, i + 1) else NextLine(src, spans[i].end))
  }

  lemma RegionIs(src: Text, spans: seq<Span>, i: nat)
    requires Parsed(src, spans) && i < |spans|
    ensures Holds(src, spans, i, RegionAt(src, spans, i))
    ensures spans[i].end <= |src| && NextLine(src, spans[i].end) <= |src|
  {
    hide LineStarts, LineOf, HasNewline, StartOf, Follows;
    ClampActsIff(src, spans, i);
    StartIs(src, spans, i);
    if i + 1 < |spans| {
      StartIs(src, spans, i + 1);
    }
  }

  // ----- whole declarations -----

  lemma EndedIsWhole(src: Text, spans: seq<Span>, i: nat)
    requires Parsed(src, spans) && AllEndLines(src, spans) && i < |spans|
    ensures IsWhole(spans[i], RegionAt(src, spans, i))
  {
    hide LineStarts, LineOf, HasNewline;
    LineStartIs(src, First(spans[i]));
    if i > 0 {
      assert EndsLine(src, spans, i - 1);
      LinesApart(src, spans[i - 1].end, spans[i].pos);
    }
    assert EndsLine(src, spans, i);
    NewlineLater(src, spans[i].end, if i + 1 < |spans| then spans[i + 1].pos else |src|);
    NextLineIs(src, spans[i].end);
  }

  /** A declaration does not end at the start of a line. */
  lemma EndsInLine(src: Text, spans: seq<Span>, i: nat)
    requires Parsed(src, spans) && i < |spans|
    ensures LineStart(src, spans[i].end) < spans[i].end
  {
    hide LineStarts, LineOf, HasNewline;
    LineStartIs(src, spans[i].end);
  }

  /** On the last line, a region ends before that line. */
  lemma LastLineIsCut(src: Text, spans: seq<Span>, i: nat)
    requires Parsed(src, spans) && i < |spans| && !HasNewline(src, spans[i].end, |src|)
    ensures RegionAt(src, spans, i).end <= LineStart(src, spans[i].end) < spans[i].end
    ensures i + 1 == |spans| ==> RegionAt(src, spans, i).end == LineStart(src, spans[i].end)
  {
    hide LineStarts, LineOf, HasNewline;
    EndsInLine(src, spans, i);
    NoNextLine(src, spans[i].end);
    if i + 1 < |spans| {
      NoneWithin(src, spans[i].end, spans[i + 1].pos);
      SameLine(src, spans[i].end, spans[i + 1].pos);
      LinesInOrder(src, First(spans[i + 1]), spans[i + 1].pos);
    }
  }

  lemma NoneWithin(src: Text, p: nat, q: nat)
    requires p <= q <= |src| && !HasNewline(src, p, |src|)
    ensures !HasNewline(src, p, q)
  {
    if HasNewline(src, p, q) {
      NewlineLater(src, p, q);
    }
  }

  lemma WholeIsEnded(src: Text, spans: seq<Span>, i: nat)
    requires Parsed(src, spans) && i < |spans| && IsWhole(spans[i], RegionAt(src, spans, i))
    requires i + 1 < |spans| ==> IsWhole(spans[i + 1], RegionAt(src, spans, i + 1))
    ensures EndsLine(src, spans, i)
  {
    hide LineStarts, LineOf, HasNewline;
    if !HasNewline(src, spans[i].end, |src|) {
      LastLineIsCut(src, spans, i);
    } else if i + 1 < |spans| {
      NextLineIs(src, spans[i].end);
      BreakAt(src, spans[i].end, spans[i + 1].pos, NextLine(src, spans[i].end));
    }
  }

  lemma BreakAt(src: Text, p: nat, q: nat, line: nat)
    requires p < line <= q <= |src| && src[line - 1] == '\n'
    ensures HasNewline(src, p, q)
  {
  }

  /** Every declaration is whole in its region exactly when each ends its line. */
  lemma WholeIffEnded(src: Text, spans: seq<Span>, regions: seq<Region>)
    requires Parsed(src, spans) && |regions| == |spans| && forall i :: 0 <= i < |regions| ==> regions[i] == RegionAt(src, spans, i)
    ensures AllWhole(spans, regions) <==> AllEndLines(src, spans)
  {
    hide LineStarts, LineOf, HasNewline, RegionAt, IsWhole, EndsLine, Parsed;
    if AllEndLines(src, spans) {
      forall i | 0 <= i < |spans| ensures IsWhole(spans[i], regions[i]) {
        EndedIsWhole(src, spans, i);
      }
    }
    if AllWhole(spans, regions) {
      forall i | 0 <= i < |spans| ensures EndsLine(src, spans, i) {
        assert IsWhole(spans[i], regions[i]);
        WholeIsEnded(src, spans, i);
      }
    }
  }

  // ----- splicing -----

  function Cut(src: Text, r: Region): Text
    requires r.start <= r.end <= |src|
  {
    src[r.start..r.end]
  }

  predicate Within(src: Text, regions: seq<Region>) {
    forall i :: 0 <= i < |regions| ==> regions[i].start <= regions[i].end <= |src|
  }

  function Pieces(src: Text, regions: seq<Region>): seq<Text>
    requires Within(src, regions)
  {
    if regions == [] then [] else [Cut(src, regions[0])] + Pieces(src, regions[1..])
  }

  function Concat(pieces: seq<Text>): Text {
    if pieces == [] then "" else pieces[0] + Concat(pieces[1..])
  }

  /** Nothing is lost: the text before, the regions, and the text after are the file. */
  lemma {:induction false} TilesAreWhole(src: Text, regions: seq<Region>)
    requires regions != [] && Within(src, regions) && forall i :: 0 <= i < |regions| - 1 ==> regions[i].end == regions[i + 1].start
    ensures regions[0].start <= regions[|regions| - 1].end
    ensures Concat(Pieces(src, regions)) == src[regions[0].start..regions[|regions| - 1].end]
    decreases |regions|
  {
    var rest := regions[1..];
    if rest == [] {
      assert Concat(Pieces(src, rest)) == [];
    } else {
      TilesAreWhole(src, rest);
      Joined(src, regions[0].start, rest[0].start, rest[|rest| - 1].end);
    }
  }

  lemma Joined(src: Text, a: nat, b: nat, c: nat)
    requires a <= b <= c <= |src|
    ensures src[a..b] + src[b..c] == src[a..c]
  {
  }

  /** Each piece on its own, a blank line before it. */
  function Spaced(trim: Text -> Text, pieces: seq<Text>): Text {
    if pieces == [] then "" else "\n\n" + trim(pieces[0]) + Spaced(trim, pieces[1..])
  }

  function Picked(src: Text, regions: seq<Region>, order: seq<nat>): seq<Text>
    requires Within(src, regions) && forall i :: 0 <= i < |order| ==> order[i] < |regions|
  {
    if order == [] then [] else [Cut(src, regions[order[0]])] + Picked(src, regions, order[1..])
  }

  /** The regions in another order, between what comes before the first and after the last of the file. */
  method Splice(trim: Text -> Text, trimRight: Text -> Text, src: Text, regions: seq<Region>, order: seq<nat>) returns (out: Text)
    requires regions != [] && Within(src, regions) && forall i :: 0 <= i < |order| ==> order[i] < |regions|
    ensures var trailing := trim(src[regions[|regions| - 1].end..]);
      out == trimRight(src[..regions[0].start]) + Spaced(trim, Picked(src, regions, order))
           + (if trailing == "" then "" else "\n\n" + trailing) + "\n"
  {
    out := trimRight(src[..regions[0].start]);
    ghost var head := out;
    assert order[0..] == order;
    for i := 0 to |order|
      invariant out + Spaced(trim, Picked(src, regions, order[i..])) == head + Spaced(trim, Picked(src, regions, order))
    {
      ghost var rest := order[i..];
      assert rest[0] == order[i] && rest[1..] == order[i + 1..];
      var piece := Cut(src, regions[order[i]]);
      SpacedStep(trim, piece, Picked(src, regions, order[i + 1..]), out);
      out := out + "\n\n" + trim(piece);
    }
    assert out + "" == out;
    var trailing := trim(src[regions[|regions| - 1].end..]);
    if trailing != "" {
      out := out + "\n\n" + trailing;
    }
    out := out + "\n";
  }

  lemma SpacedStep(trim: Text -> Text, piece: Text, rest: seq<Text>, out: Text)
    ensures out + Spaced(trim, [piece] + rest) == out + "\n\n" + trim(piece) + Spaced(trim, rest)
  {
    assert ([piece] + rest)[1..] == rest;
  }

  /** A permutation of the declarations is a permutation of their pieces. */
  lemma {:induction false} PickedCounts(src: Text, regions: seq<Region>, order: seq<nat>, text: Text)
    requires Within(src, regions) && forall i :: 0 <= i < |order| ==> order[i] < |regions|
    ensures multiset(Picked(src, regions, order))[text] == Occurrences(src, regions, multiset(order), text, |regions|)
    decreases |order|
  {
    if order == [] {
      NoOccurrences(src, regions, text, |regions|);
    } else {
      PickedCounts(src, regions, order[1..], text);
      assert order == [order[0]] + order[1..];
      assert multiset(order) == multiset(order[1..]) + multiset{order[0]};
      assert Picked(src, regions, order) == [Cut(src, regions[order[0]])] + Picked(src, regions, order[1..]);
      OneOccurrence(src, regions, multiset(order[1..]), order[0], text, |regions|);
    }
  }

  /** How often pieces equal to `text` occur, by how often each region is picked. */
  ghost function Occurrences(src: Text, regions: seq<Region>, picks: multiset<nat>, text: Text, n: nat): nat
    requires Within(src, regions) && n <= |regions|
  {
    if n == 0 then 0 else
      Occurrences(src, regions, picks, text, n - 1) + if Cut(src, regions[n - 1]) == text then picks[n - 1] else 0
  }

  lemma {:induction false} NoOccurrences(src: Text, regions: seq<Region>, text: Text, n: nat)
    requires Within(src, regions) && n <= |regions|
    ensures Occurrences(src, regions, multiset{}, text, n) == 0
    decreases n
  {
    if n > 0 {
      NoOccurrences(src, regions, text, n - 1);
    }
  }

  lemma {:induction false} OneOccurrence(src: Text, regions: seq<Region>, picks: multiset<nat>, k: nat, text: Text, n: nat)
    requires Within(src, regions) && n <= |regions| && k < |regions|
    ensures Occurrences(src, regions, picks + multiset{k}, text, n)
         == Occurrences(src, regions, picks, text, n) + if k < n && Cut(src, regions[k]) == text then 1 else 0
    decreases n
  {
    if n > 0 {
      OneOccurrence(src, regions, picks, k, text, n - 1);
    }
  }

  lemma PermutedPieces(src: Text, regions: seq<Region>, order: seq<nat>, other: seq<nat>)
    requires Within(src, regions) && multiset(order) == multiset(other)
    requires forall i :: 0 <= i < |order| ==> order[i] < |regions|
    requires forall i :: 0 <= i < |other| ==> other[i] < |regions|
    ensures multiset(Picked(src, regions, order)) == multiset(Picked(src, regions, other))
  {
    forall text ensures multiset(Picked(src, regions, order))[text] == multiset(Picked(src, regions, other))[text] {
      PickedCounts(src, regions, order, text);
      PickedCounts(src, regions, other, text);
    }
  }
}
