/**
Type declarations first: which order the declarations of a file are wanted in.
A declaration that an embed directive is anchored to is a barrier nothing moves
across.
*/
module TypeOrder {
  import opened Sorting

  /** `pos` is where the declaration begins, `at` where it does with the directive anchored to it. */
  datatype Decl = Decl(pos: nat, isType: bool, isImport: bool, anchored: bool, at: nat)

  predicate IsType(d: Decl) {
    d.isType
  }

  predicate IsOther(d: Decl) {
    !d.isType
  }

  /** Where the first anchored declaration is, or the length. */
  function Barrier(blocks: seq<Decl>): (n: nat)
    ensures n <= |blocks| && (n < |blocks| ==> blocks[n].anchored) && forall i :: 0 <= i < n ==> !blocks[i].anchored
  {
    if blocks == [] || blocks[0].anchored then 0 else
      var n := Barrier(blocks[1..]);
      assert forall i :: 0 < i <= n ==> blocks[i] == blocks[1..][i - 1];
      1 + n
  }

  /** The types of a segment, then the rest, both as they stand. */
  function TypesFirst(segment: seq<Decl>): seq<Decl> {
    Filter(IsType, segment) + Filter(IsOther, segment)
  }

  function Desired(blocks: seq<Decl>): seq<Decl>
    decreases |blocks|
  {
    var n := Barrier(blocks);
    if n == |blocks| then TypesFirst(blocks) else
      TypesFirst(blocks[..n]) + [blocks[n]] + Desired(blocks[n + 1..])
  }

  /** No type follows anything else before the next barrier. */
  predicate InOrder(blocks: seq<Decl>, seenOther: bool) {
    blocks == [] ||
    if blocks[0].anchored then InOrder(blocks[1..], false) else
    if blocks[0].isType then !seenOther && InOrder(blocks[1..], seenOther) else InOrder(blocks[1..], true)
  }

  // ----- what the order is -----

  lemma {:induction false} FilterSplits(s: seq<Decl>)
    ensures |Filter(IsType, s)| + |Filter(IsOther, s)| == |s|
    ensures multiset(Filter(IsType, s)) + multiset(Filter(IsOther, s)) == multiset(s)
    ensures forall d :: d in Filter(IsType, s) ==> d.isType && d in s
    ensures forall d :: d in Filter(IsOther, s) ==> !d.isType && d in s
    decreases |s|
  {
    if s != [] {
      FilterSplits(s[1..]);
      assert s == [s[0]] + s[1..];
    }
  }

  lemma {:induction false} FilterAll(keep: Decl -> bool, s: seq<Decl>)
    requires forall d :: d in s ==> keep(d)
    ensures Filter(keep, s) == s
    decreases |s|
  {
    if s != [] {
      FilterAll(keep, s[1..]);
      assert s == [s[0]] + s[1..];
    }
  }

  lemma {:induction false} FilterNone(keep: Decl -> bool, s: seq<Decl>)
    requires forall d :: d in s ==> !keep(d)
    ensures Filter(keep, s) == []
    decreases |s|
  {
    if s != [] {
      FilterNone(keep, s[1..]);
    }
  }

  lemma SegmentClasses(s: seq<Decl>)
    ensures Filter(IsType, TypesFirst(s)) == Filter(IsType, s) && Filter(IsOther, TypesFirst(s)) == Filter(IsOther, s)
    ensures |TypesFirst(s)| == |s| && multiset(TypesFirst(s)) == multiset(s)
  {
    FilterSplits(s);
    var types, others := Filter(IsType, s), Filter(IsOther, s);
    FilterConcat(IsType, types, others);
    FilterConcat(IsOther, types, others);
    FilterAll(IsType, types);
    FilterNone(IsType, others);
    FilterNone(IsOther, types);
    FilterAll(IsOther, others);
  }

  /** Every declaration is kept, in its class in the same order. */
  lemma {:induction false} DesiredIsStable(blocks: seq<Decl>)
    ensures multiset(Desired(blocks)) == multiset(blocks) && |Desired(blocks)| == |blocks|
    ensures Filter(IsType, Desired(blocks)) == Filter(IsType, blocks)
    ensures Filter(IsOther, Desired(blocks)) == Filter(IsOther, blocks)
    decreases |blocks|
  {
    hide Filter, TypesFirst;
    var n := Barrier(blocks);
    if n == |blocks| {
      SegmentClasses(blocks);
    } else {
      var segment, rest := blocks[..n], blocks[n + 1..];
      SegmentClasses(segment);
      DesiredIsStable(rest);
      var first := TypesFirst(segment) + [blocks[n]];
      assert blocks == segment + [blocks[n]] + rest;
      FilterThree(IsType, TypesFirst(segment), [blocks[n]], Desired(rest));
      FilterThree(IsType, segment, [blocks[n]], rest);
      FilterThree(IsOther, TypesFirst(segment), [blocks[n]], Desired(rest));
      FilterThree(IsOther, segment, [blocks[n]], rest);
    }
  }

  lemma FilterThree(keep: Decl -> bool, a: seq<Decl>, b: seq<Decl>, c: seq<Decl>)
    ensures Filter(keep, a + b + c) == Filter(keep, a) + Filter(keep, b) + Filter(keep, c)
  {
    FilterConcat(keep, a + b, c);
    FilterConcat(keep, a, b);
  }

  lemma DesiredParts(blocks: seq<Decl>)
    requires Barrier(blocks) < |blocks|
    ensures var n := Barrier(blocks);
      && |Desired(blocks)| == |blocks| && Desired(blocks)[..n] == TypesFirst(blocks[..n]) && Desired(blocks)[n] == blocks[n]
      && Desired(blocks)[n + 1..] == Desired(blocks[n + 1..]) && multiset(TypesFirst(blocks[..n])) == multiset(blocks[..n])
  {
    hide Filter, TypesFirst;
    SegmentClasses(blocks[..Barrier(blocks)]);
    DesiredIsStable(blocks);
  }

  lemma PrefixOf(s: seq<Decl>, n: nat, i: nat)
    requires n < i <= |s|
    ensures multiset(s[..i]) == multiset(s[..n]) + multiset{s[n]} + multiset(s[n + 1..][..i - n - 1])
  {
    assert s[..i] == s[..n] + [s[n]] + s[n + 1..][..i - n - 1];
  }

  /** An anchored declaration stays at its index, and nothing moves across it. */
  lemma {:induction false} AnchorsStay(blocks: seq<Decl>, i: nat)
    requires i < |blocks| && blocks[i].anchored
    ensures |Desired(blocks)| == |blocks| && Desired(blocks)[i] == blocks[i]
    ensures multiset(Desired(blocks)[..i]) == multiset(blocks[..i])
    decreases |blocks|
  {
    hide Filter, TypesFirst, Desired;
    var n := Barrier(blocks);
    DesiredParts(blocks);
    if i > n {
      AnchorsStay(blocks[n + 1..], i - n - 1);
      PrefixOf(blocks, n, i);
      PrefixOf(Desired(blocks), n, i);
    }
  }

  // ----- in order exactly when nothing is to move -----

  lemma {:induction false} OthersInOrder(a: seq<Decl>, b: seq<Decl>)
    requires forall d :: d in a ==> !d.isType && !d.anchored
    requires b == [] || b[0].anchored
    ensures InOrder(a + b, true) <==> InOrder(b, true)
    decreases |a|
  {
    if a == [] {
      assert a + b == b;
    } else {
      assert (a + b)[1..] == a[1..] + b;
      OthersInOrder(a[1..], b);
    }
  }

  lemma {:induction false} TypesInOrder(a: seq<Decl>, b: seq<Decl>)
    requires forall d :: d in a ==> d.isType && !d.anchored
    ensures InOrder(a + b, false) <==> InOrder(b, false)
    decreases |a|
  {
    if a == [] {
      assert a + b == b;
    } else {
      assert (a + b)[1..] == a[1..] + b;
      TypesInOrder(a[1..], b);
    }
  }

  lemma SeenIsForgotten(b: seq<Decl>, seen: bool)
    requires b == [] || b[0].anchored
    ensures InOrder(b, seen) == InOrder(b, false)
  {
  }

  /** A segment with its types first, before a barrier or the end, is in order as far as it goes. */
  lemma SegmentInOrder(segment: seq<Decl>, b: seq<Decl>)
    requires (forall d :: d in segment ==> !d.anchored) && (b == [] || b[0].anchored)
    ensures InOrder(TypesFirst(segment) + b, false) <==> InOrder(b, false)
  {
    hide Filter, InOrder;
    FilterSplits(segment);
    var types, others := Filter(IsType, segment), Filter(IsOther, segment);
    assert TypesFirst(segment) + b == types + (others + b);
    TypesInOrder(types, others + b);
    OthersAlone(others, b);
  }

  lemma OthersAlone(others: seq<Decl>, b: seq<Decl>)
    requires (forall d :: d in others ==> !d.isType && !d.anchored) && (b == [] || b[0].anchored)
    ensures InOrder(others + b, false) <==> InOrder(b, false)
  {
    if others == [] {
      assert others + b == b;
    } else {
      assert (others + b)[0] == others[0] && others[0] in others;
      assert (others + b)[1..] == others[1..] + b;
      OthersInOrder(others[1..], b);
      SeenIsForgotten(b, true);
    }
  }

  lemma {:induction false} DesiredIsInOrder(blocks: seq<Decl>)
    ensures InOrder(Desired(blocks), false)
    decreases |blocks|
  {
    hide TypesFirst, Filter;
    var n := Barrier(blocks);
    if n == |blocks| {
      SegmentInOrder(blocks, []);
      assert TypesFirst(blocks) + [] == TypesFirst(blocks);
    } else {
      var rest := [blocks[n]] + Desired(blocks[n + 1..]);
      DesiredIsInOrder(blocks[n + 1..]);
      assert rest[1..] == Desired(blocks[n + 1..]);
      SegmentInOrder(blocks[..n], rest);
      assert Desired(blocks) == TypesFirst(blocks[..n]) + rest;
    }
  }

  lemma TypeThen(d: Decl, rest: seq<Decl>)
    requires d.isType && TypesFirst(rest) == rest
    ensures TypesFirst([d] + rest) == [d] + rest
  {
    assert ([d] + rest)[1..] == rest;
    assert TypesFirst([d] + rest) == [d] + TypesFirst(rest);
  }

  lemma OtherThen(d: Decl, rest: seq<Decl>)
    requires !d.isType && TypesFirst(rest) == rest && Filter(IsType, rest) == []
    ensures TypesFirst([d] + rest) == [d] + rest && Filter(IsType, [d] + rest) == []
  {
    assert ([d] + rest)[1..] == rest;
    assert Filter(IsOther, rest) == rest;
  }

  /** What is in order up to the next barrier has its types first. */
  lemma {:induction false} InOrderSegment(segment: seq<Decl>, b: seq<Decl>, seen: bool)
    requires (forall d :: d in segment ==> !d.anchored) && (b == [] || b[0].anchored)
    requires InOrder(segment + b, seen)
    ensures TypesFirst(segment) == segment && InOrder(b, false)
    ensures seen ==> Filter(IsType, segment) == []
    decreases |segment|
  {
    if segment == [] {
      assert segment + b == b;
      SeenIsForgotten(b, seen);
    } else {
      hide Filter, TypesFirst;
      var d, rest := segment[0], segment[1..];
      assert (segment + b)[1..] == rest + b && (segment + b)[0] == d && d in segment;
      InOrderSegment(rest, b, seen || !d.isType);
      assert segment == [d] + rest;
      if d.isType {
        TypeThen(d, rest);
      } else {
        OtherThen(d, rest);
      }
    }
  }

  /** The declarations are as wanted exactly when no type is out of order: what is reported is what would move. */
  lemma {:induction false} WantedIffInOrder(blocks: seq<Decl>)
    ensures Desired(blocks) == blocks <==> InOrder(blocks, false)
    decreases |blocks|
  {
    hide Filter, TypesFirst;
    DesiredIsInOrder(blocks);
    if InOrder(blocks, false) {
      var n := Barrier(blocks);
      if n == |blocks| {
        assert blocks + [] == blocks;
        InOrderSegment(blocks, [], false);
      } else {
        var rest := blocks[n..];
        assert blocks == blocks[..n] + rest;
        InOrderSegment(blocks[..n], rest, false);
        assert rest[1..] == blocks[n + 1..];
        WantedIffInOrder(blocks[n + 1..]);
        assert blocks == blocks[..n] + [blocks[n]] + blocks[n + 1..];
      }
    }
  }

  /** Ordering a second time changes nothing. */
  lemma DesiredIsIdempotent(blocks: seq<Decl>)
    ensures Desired(Desired(blocks)) == Desired(blocks)
  {
    DesiredIsInOrder(blocks);
    WantedIffInOrder(Desired(blocks));
  }

  // ----- finding it -----

  /** The types of a segment, then the rest. */
  method Flush(segment: seq<Decl>) returns (out: seq<Decl>)
    ensures out == TypesFirst(segment)
  {
    var types := Select(IsType, segment);
    var others := Select(IsOther, segment);
    out := types + others;
  }

  method Select(keep: Decl -> bool, s: seq<Decl>) returns (out: seq<Decl>)
    ensures out == Filter(keep, s)
  {
    out := [];
    for i := 0 to |s|
      invariant out + Filter(keep, s[i..]) == Filter(keep, s)
    {
      assert s[i..][0] == s[i] && s[i..][1..] == s[i + 1..];
      if keep(s[i]) {
        out := out + [s[i]];
      }
    }
  }

  lemma {:induction false} BarrierIs(segment: seq<Decl>, rest: seq<Decl>)
    requires (forall d :: d in segment ==> !d.anchored) && (rest == [] || rest[0].anchored)
    ensures Barrier(segment + rest) == |segment|
    decreases |segment|
  {
    if segment == [] {
      assert segment + rest == rest;
    } else {
      assert segment[0] in segment && (segment + rest)[1..] == segment[1..] + rest;
      BarrierIs(segment[1..], rest);
    }
  }

  lemma BarrierAfter(segment: seq<Decl>, rest: seq<Decl>)
    requires (forall d :: d in segment ==> !d.anchored) && (rest == [] || rest[0].anchored)
    ensures rest == [] ==> Desired(segment + rest) == TypesFirst(segment)
    ensures rest != [] ==> Desired(segment + rest) == TypesFirst(segment) + [rest[0]] + Desired(rest[1..])
  {
    hide TypesFirst, Barrier;
    BarrierIs(segment, rest);
    var all := segment + rest;
    assert all[..|segment|] == segment;
    if rest != [] {
      assert all[|segment|] == rest[0] && all[|segment| + 1..] == rest[1..];
    } else {
      assert all == segment;
    }
  }

  /** The wanted order of the declarations after the imports, barrier by barrier. */
  method Order(blocks: seq<Decl>) returns (out: seq<Decl>)
    ensures out == Desired(blocks)
  {
    hide TypesFirst, Desired;
    out := [];
    var segment: seq<Decl> := [];
    assert [] + blocks[0..] == blocks;
    for i := 0 to |blocks|
      invariant forall d :: d in segment ==> !d.anchored
      invariant out + Desired(segment + blocks[i..]) == Desired(blocks)
    {
      var rest := blocks[i..];
      assert rest[0] == blocks[i] && rest[1..] == blocks[i + 1..];
      if blocks[i].anchored {
        BarrierAfter(segment, rest);
        var first := Flush(segment);
        out := out + first + [blocks[i]];
        segment := [];
        assert [] + rest[1..] == rest[1..];
      } else {
        assert segment + rest == (segment + [blocks[i]]) + rest[1..];
        segment := segment + [blocks[i]];
      }
    }
    BarrierAfter(segment, blocks[|blocks|..]);
    var last := Flush(segment);
    out := out + last;
  }

  predicate NotImport(d: Decl) {
    !d.isImport
  }

  /** Whether a type follows something else before the next barrier; imports do not count. */
  method IsOutOfOrder(blocks: seq<Decl>) returns (found: bool)
    ensures found <==> !InOrder(Filter(NotImport, blocks), false)
  {
    hide InOrder;
    var seen := false;
    for i := 0 to |blocks|
      invariant InOrder(Filter(NotImport, blocks), false) <==> InOrder(Filter(NotImport, blocks[i..]), seen)
    {
      NextInOrder(blocks[i..], seen);
      assert blocks[i..][1..] == blocks[i + 1..];
      if blocks[i].isImport {
        continue;
      }
      if blocks[i].anchored {
        seen := false;
        continue;
      }
      if blocks[i].isType {
        if seen {
          return true;
        }
        continue;
      }
      seen := true;
    }
    NothingInOrder(seen);
    found := false;
  }

  lemma NothingInOrder(seen: bool)
    ensures InOrder(Filter(NotImport, []), seen)
  {
  }

  lemma NextInOrder(blocks: seq<Decl>, seen: bool)
    requires blocks != []
    ensures var d, rest := blocks[0], Filter(NotImport, blocks[1..]);
      InOrder(Filter(NotImport, blocks), seen) ==
        if d.isImport then InOrder(rest, seen) else
        if d.anchored then InOrder(rest, false) else
        if d.isType then !seen && InOrder(rest, seen) else InOrder(rest, true)
  {
    var d, rest := blocks[0], Filter(NotImport, blocks[1..]);
    if !d.isImport {
      assert ([d] + rest)[1..] == rest;
    } else {
      assert [] + rest == rest;
    }
  }

  predicate AtLe(a: Decl, b: Decl) {
    a.at <= b.at
  }

  /** The blocks by where they begin, with what is anchored to them. */
  function Blocks(decls: seq<Decl>): seq<Decl> {
    StableSort(AtLe, decls)
  }

  function LeadingImports(decls: seq<Decl>): (n: nat)
    ensures n <= |decls| && (forall i :: 0 <= i < n ==> decls[i].isImport) && (n < |decls| ==> !decls[n].isImport)
  {
    if decls == [] || !decls[0].isImport then 0 else
      var n := LeadingImports(decls[1..]);
      assert forall i :: 0 < i < n + 1 ==> decls[i] == decls[1..][i - 1];
      assert n < |decls[1..]| ==> decls[1..][n] == decls[n + 1];
      1 + n
  }

  function Besides(imports: seq<Decl>): Decl -> bool {
    d => d !in imports
  }

  /** The order wanted of a file: the imports it begins with, then the rest by its blocks. */
  function DesiredFile(decls: seq<Decl>): seq<Decl> {
    var imports := decls[..LeadingImports(decls)];
    imports + Desired(Filter(Besides(imports), Blocks(decls)))
  }

  /** A file is kept whole: the wanted order is a permutation of its declarations. */
  lemma DesiredFilePermutes(decls: seq<Decl>)
    requires forall i, j :: 0 <= i < j < |decls| ==> decls[i] != decls[j]
    ensures multiset(DesiredFile(decls)) == multiset(decls)
  {
    hide Filter, Desired, StableSort;
    var n := LeadingImports(decls);
    var imports, others := decls[..n], decls[n..];
    assert decls == imports + others;
    StableSortSorts(AtLe, decls);
    DesiredIsStable(Filter(Besides(imports), Blocks(decls)));
    FilterPermutes(Besides(imports), Blocks(decls), decls);
    FilterConcat(Besides(imports), imports, others);
    FilterNone(Besides(imports), imports);
    FilterAll(Besides(imports), others);
  }

  lemma FilterPermutes(keep: Decl -> bool, s: seq<Decl>, t: seq<Decl>)
    requires multiset(s) == multiset(t)
    ensures multiset(Filter(keep, s)) == multiset(Filter(keep, t))
  {
    FilterCounts(keep, s);
    FilterCounts(keep, t);
  }

  /** What a filter keeps depends on how often each declaration occurs only. */
  lemma {:induction false} FilterCounts(keep: Decl -> bool, s: seq<Decl>)
    ensures forall d :: multiset(Filter(keep, s))[d] == if keep(d) then multiset(s)[d] else 0
    decreases |s|
  {
    if s != [] {
      FilterCounts(keep, s[1..]);
      assert s == [s[0]] + s[1..];
    }
  }

  // ----- what is reported, and what moves -----

  /** Declarations as a parser gives them: one after another, imports first, a directive before what it is anchored to. */
  ghost predicate FromSource(decls: seq<Decl>) {
    && (forall i, j :: 0 <= i < j < |decls| ==> decls[i].pos < decls[j].pos && decls[i].at != decls[j].at)
    && (forall i :: 0 <= i < |decls| ==> if decls[i].anchored then decls[i].at < decls[i].pos else decls[i].at == decls[i].pos)
    && (forall i :: LeadingImports(decls) <= i < |decls| ==> !decls[i].isImport)
  }

  function Others(decls: seq<Decl>): seq<Decl> {
    decls[LeadingImports(decls)..]
  }

  /** The blocks after the imports. */
  function OtherBlocks(decls: seq<Decl>): seq<Decl> {
    Filter(Besides(decls[..LeadingImports(decls)]), Blocks(decls))
  }

  lemma {:induction false} FilterMembers(keep: Decl -> bool, s: seq<Decl>)
    ensures forall d :: d in Filter(keep, s) <==> d in s && keep(d)
    decreases |s|
  {
    if s != [] {
      FilterMembers(keep, s[1..]);
    }
  }

  lemma {:induction false} FilterIsSorted(keep: Decl -> bool, s: seq<Decl>)
    requires SortedBy(AtLe, s)
    ensures SortedBy(AtLe, Filter(keep, s))
    decreases |s|
  {
    if s != [] {
      TailIsSorted(AtLe, s);
      FilterIsSorted(keep, s[1..]);
      FilterMembers(keep, s[1..]);
      forall d | d in Filter(keep, s[1..]) ensures AtLe(s[0], d) {
        assert d in s[1..];
      }
    }
  }

  /** The blocks after the imports are the declarations there, in the order they begin in. */
  lemma OtherBlocksAre(decls: seq<Decl>)
    requires FromSource(decls)
    ensures multiset(OtherBlocks(decls)) == multiset(Others(decls)) && SortedBy(AtLe, OtherBlocks(decls))
    ensures DesiredFile(decls) == decls[..LeadingImports(decls)] + Desired(OtherBlocks(decls))
  {
    hide Filter, Desired, StableSort;
    var n := LeadingImports(decls);
    var imports, others := decls[..n], decls[n..];
    assert decls == imports + others;
    StableSortSorts(AtLe, decls);
    FilterIsSorted(Besides(imports), Blocks(decls));
    FilterPermutes(Besides(imports), Blocks(decls), decls);
    FilterConcat(Besides(imports), imports, others);
    FilterNone(Besides(imports), imports);
    FilterAll(Besides(imports), others);
  }

  lemma {:induction false} FilterAgrees(p: Decl -> bool, q: Decl -> bool, s: seq<Decl>)
    requires forall d :: d in s ==> p(d) == q(d)
    ensures Filter(p, s) == Filter(q, s)
    decreases |s|
  {
    if s != [] {
      FilterAgrees(p, q, s[1..]);
    }
  }

  /** What the scan looks at. */
  lemma ScannedBlocks(decls: seq<Decl>)
    requires FromSource(decls)
    ensures Filter(NotImport, Blocks(decls)) == OtherBlocks(decls)
  {
    hide Filter, StableSort;
    StableSortSorts(AtLe, decls);
    var imports := decls[..LeadingImports(decls)];
    forall d | d in Blocks(decls) ensures NotImport(d) == Besides(imports)(d) {
      assert d in multiset(Blocks(decls)) && d in decls;
    }
    FilterAgrees(NotImport, Besides(imports), Blocks(decls));
  }

  /** When the declarations are in the order they begin in, they are the blocks. */
  lemma SortedAreBlocks(decls: seq<Decl>)
    requires FromSource(decls) && SortedBy(AtLe, Others(decls))
    ensures OtherBlocks(decls) == Others(decls)
  {
    hide Filter, StableSort, Desired;
    OtherBlocksAre(decls);
    SortedIsUnique(AtLe, Others(decls), OtherBlocks(decls));
  }

  /** A directive before an earlier declaration makes its own go first. */
  lemma AnchorsAreAhead(decls: seq<Decl>, i: nat)
    requires FromSource(decls) && Desired(OtherBlocks(decls)) == Others(decls)
    requires i + 1 < |Others(decls)|
    ensures Others(decls)[i].at < Others(decls)[i + 1].at
  {
    hide Filter, StableSort, Desired;
    var blocks, others := OtherBlocks(decls), Others(decls);
    OtherBlocksAre(decls);
    var d, a := others[i], others[i + 1];
    if a.anchored {
      assert a in multiset(others) && a in blocks;
      var x :| 0 <= x < |blocks| && blocks[x] == a;
      AnchorsStay(blocks, x);
      assert others[x] == a;
      assert d in others[..x] && d in multiset(others[..x]) && d in multiset(blocks[..x]);
      var y :| 0 <= y < x && blocks[y] == d;
      assert AtLe(blocks[y], blocks[x]);
    }
  }

  lemma {:induction false} AdjacentSorted(s: seq<Decl>, i: nat, j: nat)
    requires (forall k :: 0 <= k < |s| - 1 ==> s[k].at < s[k + 1].at) && i < j < |s|
    ensures s[i].at < s[j].at
    decreases j
  {
    if i + 1 < j {
      AdjacentSorted(s, i, j - 1);
      assert s[j - 1].at < s[(j - 1) + 1].at;
    }
  }

  /** A file stays as it is exactly when its declarations are in the order they begin in, directives included, and no type comes late. */
  lemma UnmovedIff(decls: seq<Decl>)
    requires FromSource(decls)
    ensures DesiredFile(decls) == decls <==> SortedBy(AtLe, Others(decls)) && InOrder(Others(decls), false)
  {
    hide Filter, StableSort, Desired, InOrder, FromSource, SortedBy;
    var n, others := LeadingImports(decls), Others(decls);
    OtherBlocksAre(decls);
    assert decls == decls[..n] + others;
    assert (decls[..n] + Desired(OtherBlocks(decls)))[n..] == Desired(OtherBlocks(decls));
    if SortedBy(AtLe, others) {
      SortedAreBlocks(decls);
      WantedIffInOrder(others);
    } else if DesiredFile(decls) == decls {
      SortedFrom(decls);
    }
  }

  lemma SortedFrom(decls: seq<Decl>)
    requires FromSource(decls) && Desired(OtherBlocks(decls)) == Others(decls)
    ensures SortedBy(AtLe, Others(decls))
  {
    hide FromSource, Desired, OtherBlocks;
    var others := Others(decls);
    forall k | 0 <= k < |others| - 1 ensures others[k].at < others[k + 1].at {
      AnchorsAreAhead(decls, k);
    }
    forall i, j | 0 <= i < j < |others| ensures AtLe(others[i], others[j]) {
      AdjacentSorted(others, i, j);
    }
  }

  /**
  A file in which no type is reported to come late stays as it is exactly when
  no directive is before an earlier declaration than its own.
  */
  lemma UnreportedIsUnmovedIff(decls: seq<Decl>)
    requires FromSource(decls) && InOrder(Filter(NotImport, Blocks(decls)), false)
    ensures DesiredFile(decls) == decls <==> SortedBy(AtLe, Others(decls))
  {
    hide Filter, StableSort, Desired, InOrder;
    UnmovedIff(decls);
    ScannedBlocks(decls);
    if SortedBy(AtLe, Others(decls)) {
      SortedAreBlocks(decls);
    }
  }

  /** A file that does not move has no type reported. */
  lemma UnmovedIsUnreported(decls: seq<Decl>)
    requires FromSource(decls) && DesiredFile(decls) == decls
    ensures InOrder(Filter(NotImport, Blocks(decls)), false)
  {
    hide Filter, StableSort, Desired, InOrder;
    UnmovedIff(decls);
    ScannedBlocks(decls);
    SortedAreBlocks(decls);
  }

  /** A directive, a type, and then the variable of the directive: nothing is reported, and the variable moves. */
  lemma UnreportedYetMoved()
    ensures var decls := [Decl(20, true, false, false, 20), Decl(30, false, false, true, 10)];
      FromSource(decls) && InOrder(Filter(NotImport, Blocks(decls)), false) && DesiredFile(decls) != decls
  {
    hide StableSort, InOrder, Filter, Desired;
    var t, v := Decl(20, true, false, false, 20), Decl(30, false, false, true, 10);
    assert Others([t, v]) == [t, v];
    UnmovedIff([t, v]);
    assert !AtLe([t, v][0], [t, v][1]);
    TwoBlocks(t, v);
    FilterAll(NotImport, [v, t]);
    TwoInOrder(v, t);
  }

  lemma TwoBlocks(a: Decl, b: Decl)
    requires b.at < a.at
    ensures Blocks([a, b]) == [b, a]
  {
    assert [a, b][1..] == [b] && [b][1..] == [];
    assert StableSort(AtLe, [b]) == [b];
    assert StableSort(AtLe, [a, b]) == Insert(AtLe, a, [b]);
    assert Insert(AtLe, a, []) == [a] && !AtLe(a, b);
    assert Insert(AtLe, a, [b]) == [b] + Insert(AtLe, a, []);
  }

  lemma TwoInOrder(a: Decl, b: Decl)
    requires a.anchored && b.isType && !b.anchored
    ensures InOrder([a, b], false)
  {
    assert [a, b][1..] == [b] && [b][1..] == [];
  }
}
