/**
Rewriting a Go file with its types first: the wanted order of its declarations,
spliced from the text each was written as.
*/
module Rewrites {
  import opened Options
  import opened Sorting
  import opened TypeOrder
  import opened DeclRegions

  ghost predicate Distinct(decls: seq<Decl>) {
    forall i, j :: 0 <= i < j < |decls| ==> decls[i] != decls[j]
  }

  /** `order` says where in `decls` each of `wanted` is. */
  ghost predicate Locates(decls: seq<Decl>, wanted: seq<Decl>, order: seq<nat>) {
    |order| == |wanted| && forall k :: 0 <= k < |order| ==> order[k] < |decls| && decls[order[k]] == wanted[k]
  }

  function Upto(n: nat): (r: seq<nat>)
    ensures |r| == n && forall i :: 0 <= i < n ==> r[i] == i
  {
    seq(n, i requires 0 <= i => i)
  }

  lemma {:induction false} LocatedOnce(decls: seq<Decl>, wanted: seq<Decl>, order: seq<nat>, i: nat)
    requires Distinct(decls) && Locates(decls, wanted, order) && i < |decls|
    ensures multiset(order)[i] == multiset(wanted)[decls[i]]
    decreases |order|
  {
    if order != [] {
      LocatedOnce(decls, wanted[1..], order[1..], i);
      assert order == [order[0]] + order[1..] && wanted == [wanted[0]] + wanted[1..];
    }
  }

  /** Declarations in another order are at a permutation of their indices. */
  lemma LocatesPermutation(decls: seq<Decl>, wanted: seq<Decl>, order: seq<nat>)
    requires Distinct(decls) && Locates(decls, wanted, order) && multiset(wanted) == multiset(decls)
    ensures multiset(order) == multiset(Upto(|decls|))
  {
    forall i: nat ensures multiset(order)[i] == multiset(Upto(|decls|))[i] {
      if i < |decls| {
        LocatedOnce(decls, wanted, order, i);
        LocatedOnce(decls, decls, Upto(|decls|), i);
      } else {
        assert i !in order && i !in Upto(|decls|);
      }
    }
  }

  lemma {:induction false} PickedFrom(src: Text, regions: seq<Region>, from: nat)
    requires Within(src, regions) && from <= |regions|
    ensures Picked(src, regions, Upto(|regions|)[from..]) == Pieces(src, regions[from..])
    decreases |regions| - from
  {
    if from < |regions| {
      PickedFrom(src, regions, from + 1);
      assert Upto(|regions|)[from..][1..] == Upto(|regions|)[from + 1..];
      assert regions[from..][1..] == regions[from + 1..];
    }
  }

  /** After the imports, the wanted order is one of the same declarations. */
  lemma RestPermutes(decls: seq<Decl>)
    requires Distinct(decls)
    ensures var n := LeadingImports(decls);
      && |DesiredFile(decls)| == |decls| && DesiredFile(decls)[..n] == decls[..n]
      && multiset(DesiredFile(decls)[n..]) == multiset(decls[n..])
  {
    hide Desired, Filter, Blocks;
    DesiredFilePermutes(decls);
    var n, wanted := LeadingImports(decls), DesiredFile(decls);
    assert |multiset(wanted)| == |multiset(decls)|;
    CutAt(decls, n);
    CutAt(wanted, n);
    assert wanted[..n] == decls[..n];
    Cancel(multiset(decls[..n]), multiset(wanted[n..]), multiset(decls[n..]));
  }

  lemma Cancel(a: multiset<Decl>, b: multiset<Decl>, c: multiset<Decl>)
    requires a + b == a + c
    ensures b == c
  {
    forall d ensures b[d] == c[d] {
      assert (a + b)[d] == (a + c)[d];
    }
  }

  /** With nothing but imports, nothing moves. */
  lemma ImportsStay(decls: seq<Decl>)
    requires Distinct(decls)
    ensures LeadingImports(decls) == |decls| ==> DesiredFile(decls) == decls
  {
    hide Desired, Filter, Blocks;
    RestPermutes(decls);
    if LeadingImports(decls) == |decls| {
      assert DesiredFile(decls)[..|decls|] == DesiredFile(decls) && decls[..|decls|] == decls;
    }
  }

  lemma CutAt(s: seq<Decl>, n: nat)
    requires n <= |s|
    ensures multiset(s) == multiset(s[..n]) + multiset(s[n..])
  {
    assert s == s[..n] + s[n..];
  }

  method Locate(decls: seq<Decl>, wanted: seq<Decl>) returns (order: seq<nat>)
    requires forall d :: d in wanted ==> d in decls
    ensures Locates(decls, wanted, order)
  {
    order := [];
    for k := 0 to |wanted|
      invariant Locates(decls, wanted[..k], order)
    {
      var i := 0;
      assert wanted[k] in decls;
      while decls[i] != wanted[k]
        invariant 0 <= i < |decls| && wanted[k] in decls[i..]
        decreases |decls| - i
      {
        i := i + 1;
      }
      order := order + [i];
    }
    assert wanted[..|wanted|] == wanted;
  }

  /** The text before the regions, the pieces each on its own, and the text after the last region of the source. */
  ghost function Spliced(trim: Text -> Text, trimRight: Text -> Text, src: Text, regions: seq<Region>, pieces: seq<Text>): Text
    requires regions != [] && Within(src, regions)
  {
    var trailing := trim(src[regions[|regions| - 1].end..]);
    trimRight(src[..regions[0].start]) + Spaced(trim, pieces) + (if trailing == "" then "" else "\n\n" + trailing) + "\n"
  }

  /** What a rewrite makes of the declarations after the imports. */
  ghost predicate Reordered(trim: Text -> Text, trimRight: Text -> Text, src: Text, decls: seq<Decl>, wanted: seq<Decl>, spans: seq<Span>,
                            out: Text, regions: seq<Region>, order: seq<nat>)
    requires Parsed(src, spans)
  {
    && Tiles(src, spans, regions) && regions != [] && Within(src, regions)
    && (forall i :: 0 <= i < |regions| ==> regions[i] == RegionAt(src, spans, i))
    && (AllWhole(spans, regions) <==> AllEndLines(src, spans))
    && Locates(decls, wanted, order) && (forall k :: 0 <= k < |order| ==> order[k] < |regions|)
    && out == Spliced(trim, trimRight, src, regions, Picked(src, regions, order))
    && multiset(Picked(src, regions, order)) == multiset(Pieces(src, regions))
  }

  lemma SameMembers(decls: seq<Decl>, wanted: seq<Decl>)
    requires multiset(wanted) == multiset(decls)
    ensures forall d :: d in wanted ==> d in decls
  {
    forall d | d in wanted ensures d in decls {
      assert d in multiset(wanted);
    }
  }

  lemma PicksAll(src: Text, decls: seq<Decl>, wanted: seq<Decl>, regions: seq<Region>, order: seq<nat>)
    requires Distinct(decls) && Locates(decls, wanted, order) && multiset(wanted) == multiset(decls)
    requires |regions| == |decls| && Within(src, regions)
    ensures forall k :: 0 <= k < |order| ==> order[k] < |regions|
    ensures multiset(Picked(src, regions, order)) == multiset(Pieces(src, regions))
  {
    hide Within, Picked, Pieces, Distinct;
    LocatesPermutation(decls, wanted, order);
    PickedFrom(src, regions, 0);
    assert Upto(|regions|)[0..] == Upto(|regions|) && regions[0..] == regions;
    PermutedPieces(src, regions, order, Upto(|regions|));
  }

  lemma IsReordered(trim: Text -> Text, trimRight: Text -> Text, src: Text, decls: seq<Decl>, wanted: seq<Decl>, spans: seq<Span>,
                    out: Text, regions: seq<Region>, order: seq<nat>)
    requires Parsed(src, spans) && Tiles(src, spans, regions) && regions != [] && Within(src, regions)
    requires forall i :: 0 <= i < |regions| ==> i < |spans| && regions[i] == RegionAt(src, spans, i)
    requires AllWhole(spans, regions) <==> AllEndLines(src, spans)
    requires Locates(decls, wanted, order) && forall k :: 0 <= k < |order| ==> order[k] < |regions|
    requires var trailing := trim(src[regions[|regions| - 1].end..]);
      out == trimRight(src[..regions[0].start]) + Spaced(trim, Picked(src, regions, order)) + (if trailing == "" then "" else "\n\n" + trailing) + "\n"
    requires multiset(Picked(src, regions, order)) == multiset(Pieces(src, regions))
    ensures Reordered(trim, trimRight, src, decls, wanted, spans, out, regions, order)
  {
    hide Parsed, Tiles, Picked, Pieces, Spaced, AllWhole, AllEndLines, Locates, RegionAt;
  }

  /**
  Each declaration as the text of its region, in the wanted order. That is the
  text it was written as, for all of them, exactly when each ends its line.
  */
  method SpliceInOrder(trim: Text -> Text, trimRight: Text -> Text, src: Text, decls: seq<Decl>, wanted: seq<Decl>, spans: seq<Span>)
    returns (out: Text, regions: seq<Region>, order: seq<nat>)
    requires Distinct(decls) && decls != [] && |spans| == |decls| && Parsed(src, spans) && multiset(wanted) == multiset(decls)
    ensures Reordered(trim, trimRight, src, decls, wanted, spans, out, regions, order)
  {
    hide *;
    regions := Regions(src, spans);
    TilesWithin(src, spans, regions);
    SameMembers(decls, wanted);
    order := Locate(decls, wanted);
    PicksAll(src, decls, wanted, regions, order);
    out := Splice(trim, trimRight, src, regions, order);
    IsReordered(trim, trimRight, src, decls, wanted, spans, out, regions, order);
  }

  /**
  A file in the wanted order already is left alone. Any other is its header, a
  permutation of the text of its declarations, and what comes after the last.
  */
  method Rewrite(trim: Text -> Text, trimRight: Text -> Text, src: Text, decls: seq<Decl>, spans: seq<Span>)
    returns (out: Text, changed: bool, regions: seq<Region>, order: seq<nat>)
    requires Distinct(decls) && |spans| == |decls| && Parsed(src, spans[LeadingImports(decls)..])
    ensures changed <==> DesiredFile(decls) != decls
    ensures !changed ==> out == src
    ensures changed ==>
      var n := LeadingImports(decls);
      Reordered(trim, trimRight, src, decls[n..], DesiredFile(decls)[n..], spans[n..], out, regions, order)
  {
    hide Desired, Filter, Blocks, Parsed, Reordered;
    var n := LeadingImports(decls);
    var imports := decls[..n];
    var rest := Order(Filter(Besides(imports), Blocks(decls)));
    var wanted := imports + rest;
    assert wanted == DesiredFile(decls);
    RestPermutes(decls);
    if wanted == decls {
      return src, false, [], [];
    }
    ImportsStay(decls);
    out, regions, order := SpliceInOrder(trim, trimRight, src, decls[n..], wanted[n..], spans[n..]);
    changed := true;
  }

  lemma TilesWithin(src: Text, spans: seq<Span>, regions: seq<Region>)
    requires Parsed(src, spans) && Tiles(src, spans, regions)
    ensures |regions| == |spans| && Within(src, regions)
  {
  }

  // ----- a file that does not end its last line -----

  /** A variable, and a type whose last line is the last of the file and is not ended. */
  const UNENDED := "var a int\ntype T struct {\n}"

  lemma BreaksOfUnended(k: nat)
    requires k < |UNENDED|
    ensures UNENDED[k] == '\n' <==> k == 9 || k == 25
  {
  }

  lemma UnendedLines()
    ensures LineStart(UNENDED, 0) == 0 && LineStart(UNENDED, 10) == NextLine(UNENDED, 9) == 10
    ensures NextLine(UNENDED, 27) == 26
  {
    hide LineStarts, LineOf;
    forall k | 0 <= k < |UNENDED| ensures UNENDED[k] == '\n' <==> k == 9 || k == 25 {
      BreaksOfUnended(k);
    }
    LineStartIs(UNENDED, 0);
    assert UNENDED[9] == '\n' && UNENDED[25] == '\n';
    NextLineIs(UNENDED, 9);
    LineStartIs(UNENDED, 10);
    LineStartIs(UNENDED, 27);
    NoNextLine(UNENDED, 27);
  }

  lemma UnendedRegions(spans: seq<Span>, regions: seq<Region>)
    requires spans == [Span(None, 0, 9), Span(None, 10, 27)] && Parsed(UNENDED, spans)
    requires |regions| == 2 && forall i :: 0 <= i < 2 ==> regions[i] == RegionAt(UNENDED, spans, i)
    ensures regions == [Region(0, 10), Region(10, 26)]
  {
    hide LineStart, NextLine;
    UnendedLines();
    assert regions[0] == RegionAt(UNENDED, spans, 0) && regions[1] == RegionAt(UNENDED, spans, 1);
  }

  lemma TypeComesFirst(v: Decl, t: Decl)
    requires !v.isType && !v.isImport && !v.anchored && t.isType && !t.isImport && !t.anchored && v.pos == v.at < t.pos == t.at
    ensures LeadingImports([v, t]) == 0 && DesiredFile([v, t]) == [t, v]
  {
    hide Desired, Filter, Blocks, StableSort, DesiredFile;
    TypeIsLate(v, t);
    UnmovedIff([v, t]);
    DesiredFilePermutes([v, t]);
    PairOf(DesiredFile([v, t]), v, t);
  }

  lemma TypeIsLate(v: Decl, t: Decl)
    requires !v.isType && !v.isImport && !v.anchored && t.isType && !t.isImport && !t.anchored && v.pos == v.at < t.pos == t.at
    ensures LeadingImports([v, t]) == 0 && FromSource([v, t]) && !InOrder(Others([v, t]), false)
  {
    assert Others([v, t]) == [v, t] && [v, t][1..] == [t];
    assert !InOrder([t], true);
  }

  lemma PairOf(s: seq<Decl>, v: Decl, t: Decl)
    requires multiset(s) == multiset([v, t]) && s != [v, t]
    ensures s == [t, v]
  {
    assert |s| == |multiset(s)| == 2;
    assert s == [s[0], s[1]];
    assert s[0] in multiset(s) && s[1] in multiset(s);
  }

  lemma CutsOfUnended(regions: seq<Region>)
    requires regions == [Region(0, 10), Region(10, 26)]
    ensures Within(UNENDED, regions)
    ensures Picked(UNENDED, regions, [1, 0]) == ["type T struct {\n", "var a int\n"]
    ensures UNENDED[..0] == "" && UNENDED[26..] == "}"
  {
    assert Cut(UNENDED, regions[1]) == "type T struct {\n" && Cut(UNENDED, regions[0]) == "var a int\n";
    assert [1, 0][1..] == [0] && [0][1..] == [];
    assert Picked(UNENDED, regions, [0]) == ["var a int\n"];
  }

  lemma UnendedIsParsed()
    ensures |UNENDED| == 27 && Parsed(UNENDED, [Span(None, 0, 9), Span(None, 10, 27)])
  {
    hide HasNewline;
    assert UNENDED[8] == 't' && UNENDED[26] == '}';
  }

  lemma TornText(trim: Text -> Text, trimRight: Text -> Text, regions: seq<Region>)
    requires trim("}") == "}" && regions == [Region(0, 10), Region(10, 26)] && Within(UNENDED, regions)
    ensures Spliced(trim, trimRight, UNENDED, regions, Picked(UNENDED, regions, [1, 0]))
         == trimRight("") + "\n\n" + trim("type T struct {\n") + "\n\n" + trim("var a int\n") + "\n\n}\n"
  {
    hide Picked;
    CutsOfUnended(regions);
    var pieces := ["type T struct {\n", "var a int\n"];
    assert pieces[1..] == ["var a int\n"] && pieces[1..][1..] == [];
    assert Spaced(trim, pieces) == "\n\n" + trim("type T struct {\n") + "\n\n" + trim("var a int\n");
  }

  /** The type is moved without its last line, which stays at the end of the file. */
  method TypeIsTorn(trim: Text -> Text, trimRight: Text -> Text) returns (out: Text)
    requires trim("}") == "}"
    ensures out == trimRight("") + "\n\n" + trim("type T struct {\n") + "\n\n" + trim("var a int\n") + "\n\n}\n"
  {
    hide Parsed, Holds, AllWhole, AllEndLines, Picked, Spliced, DesiredFile, LeadingImports;
    hide Within, RegionAt, Pieces;
    var v, t := Decl(0, false, false, false, 0), Decl(10, true, false, false, 10);
    var decls, spans := [v, t], [Span(None, 0, 9), Span(None, 10, 27)];
    TypeComesFirst(v, t);
    UnendedIsParsed();
    assert decls[0..] == decls && spans[0..] == spans && [t, v][0..] == [t, v];
    var changed, regions, order;
    out, changed, regions, order := Rewrite(trim, trimRight, UNENDED, decls, spans);
    assert Reordered(trim, trimRight, UNENDED, decls, [t, v], spans, out, regions, order);
    UnendedRegions(spans, regions);
    assert order == [1, 0] by {
      assert decls[order[0]] == t && decls[order[1]] == v;
    }
    TornText(trim, trimRight, regions);
  }
}
