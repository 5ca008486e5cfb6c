/**
What the scanners make of a document does not depend on the white space right
behind an opening tag or right before a closing one.
*/
module RawRespace {
  import opened Options
  import opened Placeholders
  import opened RawBlocks
  import opened RawScan

  /** What the syntax of tags and comments is made of. */
  predicate Mark(c: char) {
    NameChar(c) || c == '<' || c == '>' || c == '/' || c == '"' || c == '\'' || c == '!'
  }

  ghost predicate Plain(space: char -> bool) {
    space('\n') && forall c :: space(c) ==> !Mark(c)
  }

  predicate Spaces(space: char -> bool, s: Text) {
    forall i :: 0 <= i < |s| ==> space(s[i])
  }

  /** White space `w`, or `v` in its place, between `a` and `c`. */
  datatype Seam = Seam(a: Text, w: Text, v: Text, c: Text) {
    function Old(): Text { a + w + c }

    function New(): Text { a + v + c }

    function Swapped(): Seam { Seam(a, v, w, c) }

    /** Where a character is. */
    function Place(q: nat): nat {
      if q < |a| then q else if q < |a| + |w| then |a| else q - |w| + |v|
    }

    /** Where the end of something is. */
    function PlaceEnd(e: nat): nat {
      if e <= |a| then e else if e < |a| + |w| then |a| else e - |w| + |v|
    }

    /** A character that is not in between. */
    predicate Outside(q: nat) {
      q < |a| || |a| + |w| <= q
    }

    /** The same is left from `i` of the one text and from `j` of the other. */
    predicate Level(i: nat, j: nat) {
      (i == j <= |a|) || (|a| + |w| <= i && j == i - |w| + |v|)
    }
  }

  ghost predicate Smooth(space: char -> bool, s: Seam) {
    && Plain(space) && Spaces(space, s.w) && Spaces(space, s.v)
    && ((s.a != [] && s.a[|s.a| - 1] == '>') || (s.c != [] && s.c[0] == '<'))
  }

  lemma SwappedIsSmooth(space: char -> bool, s: Seam)
    requires Smooth(space, s)
    ensures Smooth(space, s.Swapped()) && s.Swapped().Old() == s.New() && s.Swapped().New() == s.Old() && s.Swapped().Swapped() == s
  {
  }

  lemma CharAt(s: Seam, q: nat)
    requires s.Outside(q) && q < |s.Old()|
    ensures s.Place(q) < |s.New()| && s.New()[s.Place(q)] == s.Old()[q] && s.Swapped().Outside(s.Place(q)) && s.Swapped().Place(s.Place(q)) == q
  {
  }

  lemma Lengths(s: Seam)
    ensures |s.Old()| == |s.a| + |s.w| + |s.c| && |s.New()| == |s.a| + |s.v| + |s.c|
  {
  }

  lemma SpaceIn(space: char -> bool, s: Seam, q: nat)
    requires Smooth(space, s) && !s.Outside(q)
    ensures q < |s.Old()| && space(s.Old()[q]) && !Mark(s.Old()[q])
  {
  }

  lemma MarkIsOutside(space: char -> bool, s: Seam, q: nat)
    requires Smooth(space, s) && q < |s.Old()| && Mark(s.Old()[q])
    ensures s.Outside(q)
  {
  }

  /** Two characters next to each other, on either side, are no `<` and no `>`. */
  lemma Apart(space: char -> bool, s: Seam, q: nat)
    requires Smooth(space, s) && q < |s.a| <= q + 1 < |s.Old()| && s.a[q] != '>'
    ensures !Mark(s.Old()[q + 1]) || s.Old()[q + 1] == '<'
  {
    if s.w == [] {
      assert s.Old()[q + 1] == s.c[0];
    } else {
      assert s.Old()[q + 1] == s.w[0];
    }
  }

  // ----- tags -----

  predicate IsQuote(quote: Option<char>) {
    quote.Some? ==> quote.value == '"' || quote.value == '\''
  }

  lemma {:induction false} TagEndIn(space: char -> bool, s: Seam, i: nat, quote: Option<char>)
    requires Smooth(space, s) && IsQuote(quote) && |s.a| <= i <= |s.a| + |s.w|
    ensures TagEnd(s.Old(), i, quote) == TagEnd(s.Old(), |s.a| + |s.w|, quote)
    decreases |s.w| + |s.a| - i
  {
    if i < |s.a| + |s.w| {
      SpaceIn(space, s, i);
      TagEndIn(space, s, i + 1, quote);
    }
  }

  function EndMoved(s: Seam, end: Option<nat>): Option<nat> {
    if end.None? then None else Some(s.PlaceEnd(end.value))
  }

  lemma {:induction false} TagEndAfter(s: Seam, i: nat, quote: Option<char>)
    requires |s.a| + |s.w| <= i <= |s.Old()|
    ensures TagEnd(s.New(), i - |s.w| + |s.v|, quote) == EndMoved(s, TagEnd(s.Old(), i, quote))
    decreases |s.Old()| - i
  {
    hide Seam.Old, Seam.New, QuoteAfter;
    Lengths(s);
    if i < |s.Old()| {
      CharAt(s, i);
      TagEndAfter(s, i + 1, QuoteAfter(quote, s.Old()[i]));
    }
  }

  lemma TagEndAtSeam(space: char -> bool, s: Seam, quote: Option<char>)
    requires Smooth(space, s) && IsQuote(quote)
    ensures TagEnd(s.New(), |s.a|, quote) == EndMoved(s, TagEnd(s.Old(), |s.a|, quote))
  {
    hide TagEnd, Seam.Old, Seam.New;
    Lengths(s);
    SwappedIsSmooth(space, s);
    TagEndIn(space, s, |s.a|, quote);
    TagEndIn(space, s.Swapped(), |s.a|, quote);
    TagEndAfter(s, |s.a| + |s.w|, quote);
  }

  lemma {:induction false} TagEndMoves(space: char -> bool, s: Seam, i: nat, quote: Option<char>)
    requires Smooth(space, s) && IsQuote(quote) && i <= |s.a|
    ensures TagEnd(s.New(), i, quote) == EndMoved(s, TagEnd(s.Old(), i, quote))
    decreases |s.a| - i
  {
    hide Smooth, Seam.Old, Seam.New;
    Lengths(s);
    if i == |s.a| {
      TagEndAtSeam(space, s, quote);
    } else {
      CharAt(s, i);
      TagEndMoves(space, s, i + 1, QuoteAfter(quote, s.Old()[i]));
    }
  }

  lemma {:induction false} NameEndBefore(space: char -> bool, s: Seam, i: nat)
    requires Smooth(space, s) && 0 < i <= |s.a| && s.a[i - 1] != '>'
    ensures NameEnd(s.Old(), i) == NameEnd(s.New(), i) <= |s.a|
    ensures NameEnd(s.Old(), i) < |s.Old()| && NameEnd(s.New(), i) < |s.New()|
    decreases |s.a| - i
  {
    SwappedIsSmooth(space, s);
    if i < |s.a| {
      CharAt(s, i);
      if NameChar(s.a[i]) {
        NameEndBefore(space, s, i + 1);
      }
    } else {
      assert s.c != [] && s.c[0] == '<';
      Apart(space, s, i - 1);
      Apart(space, s.Swapped(), i - 1);
    }
  }

  lemma {:induction false} NameEndAfter(s: Seam, i: nat)
    requires |s.a| + |s.w| <= i <= |s.Old()|
    ensures NameEnd(s.New(), i - |s.w| + |s.v|) == NameEnd(s.Old(), i) - |s.w| + |s.v|
    decreases |s.Old()| - i
  {
    if i < |s.Old()| {
      CharAt(s, i);
      if NameChar(s.Old()[i]) {
        NameEndAfter(s, i + 1);
      }
    }
  }

  function NameMoved(s: Seam, start: nat, n: nat): nat {
    if start < |s.a| || n < |s.w| then n else n - |s.w| + |s.v|
  }

  function TagMoved(s: Seam, start: nat, tag: Option<Tag>): Option<Tag> {
    if tag.None? then None else Some(Tag(NameMoved(s, start, tag.value.nameEnd), s.PlaceEnd(tag.value.end)))
  }

  lemma OpenTagBefore(space: char -> bool, s: Seam, start: nat)
    requires Smooth(space, s) && start < |s.a| && s.Old()[start] == '<'
    ensures start < |s.New()| && OpenTag(s.New(), start) == TagMoved(s, start, OpenTag(s.Old(), start))
    ensures OpenTag(s.Old(), start).Some? ==> OpenTag(s.Old(), start).value.nameEnd <= |s.a|
  {
    hide TagEnd, NameEnd, Seam.Old, Seam.New, Smooth, NameChar, Letter;
    Lengths(s);
    BeforeIsOld(s, start);
    var n := NameEnd(s.Old(), start + 1);
    NameEndBefore(space, s, start + 1);
    TagEndMoves(space, s, n, None);
    if n > start + 1 {
      BeforeIsOld(s, start + 1);
    }
  }

  lemma OpenTagAfter(s: Seam, start: nat)
    requires |s.a| + |s.w| <= start < |s.Old()|
    ensures s.Place(start) < |s.New()| && OpenTag(s.New(), s.Place(start)) == TagMoved(s, start, OpenTag(s.Old(), start))
  {
    hide TagEnd, NameEnd, Seam.Old, Seam.New, NameChar, Letter;
    Lengths(s);
    var n := NameEnd(s.Old(), start + 1);
    NameEndAfter(s, start + 1);
    TagEndAfter(s, n, None);
    if n > start + 1 {
      CharAt(s, start + 1);
    }
  }

  /** An opening tag stays the tag it is. */
  lemma OpenTagMoves(space: char -> bool, s: Seam, start: nat)
    requires Smooth(space, s) && start < |s.Old()| && s.Old()[start] == '<'
    ensures s.Outside(start) && s.Place(start) < |s.New()| && s.New()[s.Place(start)] == '<'
    ensures OpenTag(s.New(), s.Place(start)) == TagMoved(s, start, OpenTag(s.Old(), start))
    ensures start < |s.a| && OpenTag(s.Old(), start).Some? ==> OpenTag(s.Old(), start).value.nameEnd <= |s.a|
  {
    hide OpenTag, Seam.Old, Seam.New, Smooth;
    MarkIsOutside(space, s, start);
    CharAt(s, start);
    if start < |s.a| {
      OpenTagBefore(space, s, start);
    } else {
      OpenTagAfter(s, start);
    }
  }

  lemma BeforeIsOld(s: Seam, q: nat)
    requires q < |s.a|
    ensures s.Old()[q] == s.a[q] == s.New()[q]
  {
  }

  lemma NameStays(space: char -> bool, s: Seam, start: nat)
    requires Smooth(space, s) && start < |s.Old()| && s.Old()[start] == '<' && OpenTag(s.Old(), start).Some?
    ensures OpenTag(s.New(), s.Place(start)).Some?
    ensures s.New()[s.Place(start) + 1..OpenTag(s.New(), s.Place(start)).value.nameEnd] == s.Old()[start + 1..OpenTag(s.Old(), start).value.nameEnd]
  {
    OpenTagMoves(space, s, start);
    hide OpenTag;
  }

  lemma SelfClosingStays(space: char -> bool, s: Seam, e: nat)
    requires Smooth(space, s) && 0 < e <= |s.Old()| && s.Old()[e - 1] == '>'
    ensures s.PlaceEnd(e) <= |s.New()| && SelfClosing(s.New(), s.PlaceEnd(e)) == SelfClosing(s.Old(), e)
  {
    MarkIsOutside(space, s, e - 1);
    if e >= 2 && e - 1 == |s.a| + |s.w| {
      assert s.c[0] == '>';
      SwappedIsSmooth(space, s);
      LastBefore(space, s);
      LastBefore(space, s.Swapped());
    }
  }

  /** Where what follows begins with a `>`, no slash comes before it. */
  lemma LastBefore(space: char -> bool, s: Seam)
    requires Smooth(space, s) && s.c != [] && s.c[0] != '<'
    ensures |s.a| + |s.w| > 0 && s.Old()[|s.a| + |s.w| - 1] != '/'
  {
    if s.w != [] {
      assert s.Old()[|s.a| + |s.w| - 1] == s.w[|s.w| - 1];
    }
  }

  // ----- closing tags -----

  /** Characters in which no two next to each other could be parted by the seam. */
  predicate Tight(t: Text) {
    && t != [] && (forall i :: 0 <= i < |t| ==> Mark(t[i]))
    && (forall i :: 0 < i < |t| ==> t[i] != '<') && forall i :: 0 <= i < |t| - 1 ==> t[i] != '>'
  }

  lemma PartedIsNotTight(space: char -> bool, s: Seam, q: nat, n: nat)
    requires Smooth(space, s) && q < |s.a| < q + n <= |s.Old()|
    ensures !Tight(s.Old()[q..q + n])
  {
    var t, i := s.Old()[q..q + n], |s.a| - q;
    assert t[i] == s.Old()[|s.a|] && t[i - 1] == s.Old()[|s.a| - 1] == s.a[|s.a| - 1];
    if s.a[|s.a| - 1] != '>' {
      Apart(space, s, |s.a| - 1);
    }
  }

  /** Such characters are on one side of the seam. */
  lemma OnOneSide(space: char -> bool, s: Seam, q: nat, n: nat)
    requires Smooth(space, s) && q + n <= |s.Old()| && n > 0
    ensures Tight(s.Old()[q..q + n]) ==> q + n <= |s.a| || |s.a| + |s.w| <= q
  {
    var t := s.Old()[q..q + n];
    assert t[0] == s.Old()[q];
    if q < |s.a| < q + n {
      PartedIsNotTight(space, s, q, n);
    } else if !s.Outside(q) {
      SpaceIn(space, s, q);
    }
  }

  lemma SliceMoves(s: Seam, q: nat, n: nat)
    requires q + n <= |s.Old()| && (q + n <= |s.a| || |s.a| + |s.w| <= q)
    ensures s.Place(q) == (if q < |s.a| then q else s.Place(q)) && (q + n <= |s.a| && n > 0 ==> s.Place(q) == q)
    ensures n > 0 ==> s.Place(q) + n <= |s.New()| && s.New()[s.Place(q)..s.Place(q) + n] == s.Old()[q..q + n]
  {
    if n > 0 {
      if q + n <= |s.a| {
        assert s.New()[q..q + n] == s.a[q..q + n] == s.Old()[q..q + n];
      } else {
        var k := q - |s.a| - |s.w|;
        assert s.Old()[q..q + n] == s.c[k..k + n];
        assert s.New()[s.Place(q)..s.Place(q) + n] == s.c[k..k + n];
      }
    }
  }

  predicate IsName(name: Text) {
    name != [] && forall i :: 0 <= i < |name| ==> NameChar(name[i])
  }

  lemma SameNameChars(a: Text, b: Text)
    requires SameName(a, b) && IsName(b)
    ensures IsName(a)
  {
    forall i | 0 <= i < |a| ensures NameChar(a[i]) {
      assert Lower(a[i]) == Lower(b[i]);
    }
  }

  /** A closing tag's `</name` is on one side of the seam. */
  lemma ClosingOnOneSide(space: char -> bool, s: Seam, q: nat, name: Text)
    requires Smooth(space, s) && IsName(name) && Closes(s.Old(), q, name)
    ensures q + 2 + |name| <= |s.a| || |s.a| + |s.w| <= q
  {
    hide Seam.Old, Smooth, SameName;
    var t, n := s.Old()[q..q + 2 + |name|], s.Old()[q + 2..q + 2 + |name|];
    SameNameChars(n, name);
    assert t == ['<', '/'] + n;
    OnOneSide(space, s, q, 2 + |name|);
  }

  lemma ClosesMoves(space: char -> bool, s: Seam, q: nat, name: Text)
    requires Smooth(space, s) && IsName(name) && Closes(s.Old(), q, name)
    ensures s.Outside(q) && Closes(s.New(), s.Place(q), name)
  {
    hide SameName, Seam.Old, Seam.New;
    Lengths(s);
    ClosingOnOneSide(space, s, q, name);
    var n := 2 + |name|;
    SliceMoves(s, q, n);
    NameInside(s.Old(), q, s.New(), s.Place(q), n);
    if q + n < |s.a| || |s.a| + |s.w| <= q {
      if q + n < |s.Old()| {
        CharAt(s, q + n);
      }
    } else {
      NameCharBefore(s.Old(), q, name);
      BeforeIsOld(s, |s.a| - 1);
      SwappedIsSmooth(space, s);
      if |s.a| < |s.New()| {
        hide Smooth;
        Apart(space, s.Swapped(), |s.a| - 1);
      }
    }
  }

  lemma NameInside(text: Text, q: nat, other: Text, p: nat, n: nat)
    requires n >= 2 && q + n <= |text| && p + n <= |other| && other[p..p + n] == text[q..q + n]
    ensures other[p] == text[q] && other[p + 1] == text[q + 1] && other[p + 2..p + n] == text[q + 2..q + n]
  {
    assert other[p..p + n][0] == other[p] && text[q..q + n][0] == text[q];
    assert other[p..p + n][1] == other[p + 1] && text[q..q + n][1] == text[q + 1];
    assert other[p..p + n][2..] == other[p + 2..p + n] && text[q..q + n][2..] == text[q + 2..q + n];
  }

  lemma NameCharBefore(text: Text, q: nat, name: Text)
    requires Closes(text, q, name) && IsName(name)
    ensures NameChar(text[q + 2 + |name| - 1])
  {
    SameNameChars(text[q + 2..q + 2 + |name|], name);
    assert text[q + 2..q + 2 + |name|][|name| - 1] == text[q + 2 + |name| - 1];
  }

  function Moved(s: Seam, at: Option<nat>): Option<nat> {
    if at.None? then None else Some(s.Place(at.value))
  }

  lemma LevelPlace(s: Seam, i: nat, j: nat, q: nat)
    requires s.Level(i, j) && i <= q && s.Outside(q)
    ensures j <= s.Place(q)
  {
  }

  lemma SwappedLevel(s: Seam, i: nat, j: nat)
    requires s.Level(i, j)
    ensures s.Swapped().Level(j, i)
  {
  }

  /** The first closing tag from there on stays the one it is. */
  lemma FindClosingMoves(space: char -> bool, s: Seam, i: nat, j: nat, name: Text)
    requires Smooth(space, s) && IsName(name) && s.Level(i, j) && i <= |s.Old()| && j <= |s.New()|
    ensures FindClosing(s.New(), j, name) == Moved(s, FindClosing(s.Old(), i, name))
    ensures var at := FindClosing(s.Old(), i, name); at.Some? ==> s.Outside(at.value)
  {
    hide Closes, Smooth, Seam.Old, Seam.New;
    SwappedIsSmooth(space, s);
    SwappedLevel(s, i, j);
    FirstClosing(s.Old(), i, name);
    FirstClosing(s.New(), j, name);
    var at, to := FindClosing(s.Old(), i, name), FindClosing(s.New(), j, name);
    if at.Some? {
      ClosesMoves(space, s, at.value, name);
      LevelPlace(s, i, j, at.value);
    }
    if to.Some? {
      ClosesMoves(space, s.Swapped(), to.value, name);
      LevelPlace(s.Swapped(), j, i, to.value);
    }
  }
}
