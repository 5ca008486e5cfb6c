/**
The elements a scanner finds stay the ones they are when the white space right
behind an opening tag, or right before a closing one, is another.
*/
module RawStays {
  import opened Options
  import opened Placeholders
  import opened RawBlocks
  import opened RawScan
  import opened RawRespace

  // ----- nested templates -----

  lemma OpensTemplateStays(space: char -> bool, s: Seam, q: nat)
    requires Smooth(space, s) && q < |s.Old()| && s.Outside(q)
    ensures s.Place(q) < |s.New()| && OpensTemplate(s.New(), s.Place(q)) == OpensTemplate(s.Old(), q)
  {
    hide OpenTag, SelfClosing, SameName, Seam.Old, Seam.New, Smooth;
    CharAt(s, q);
    if s.Old()[q] == '<' {
      OpenTagMoves(space, s, q);
      var tag := OpenTag(s.Old(), q);
      if tag.Some? {
        NameStays(space, s, q);
        SelfClosingStays(space, s, tag.value.end);
      }
    }
  }

  lemma {:induction false} OpensIn(space: char -> bool, s: Seam, i: nat, j: nat)
    requires Smooth(space, s) && i <= |s.a| <= j <= |s.a| + |s.w|
    ensures j <= |s.Old()| && Opens(s.Old(), i, j) == Opens(s.Old(), i, |s.a|)
    decreases j
  {
    if j > |s.a| {
      SpaceIn(space, s, j - 1);
      OpensIn(space, s, i, j - 1);
    }
  }

  lemma {:induction false} OpensBefore(space: char -> bool, s: Seam, i: nat, j: nat)
    requires Smooth(space, s) && i <= j <= |s.a|
    ensures j <= |s.Old()| && j <= |s.New()| && Opens(s.New(), i, j) == Opens(s.Old(), i, j)
    decreases j
  {
    hide OpensTemplate, Seam.Old, Seam.New;
    Lengths(s);
    if i < j {
      OpensBefore(space, s, i, j - 1);
      OpensTemplateStays(space, s, j - 1);
    }
  }

  lemma OpensAtSeam(space: char -> bool, s: Seam, i: nat, j: nat)
    requires Smooth(space, s) && s.Level(i, j) && i <= |s.a| + |s.w| && j <= |s.a| + |s.v|
    ensures |s.a| + |s.w| <= |s.Old()| && |s.a| + |s.v| <= |s.New()|
    ensures Opens(s.New(), j, |s.a| + |s.v|) == Opens(s.Old(), i, |s.a| + |s.w|)
  {
    hide OpensTemplate, Seam.Old, Seam.New, Smooth;
    Lengths(s);
    SwappedIsSmooth(space, s);
    if i <= |s.a| && i == j {
      OpensIn(space, s, i, |s.a| + |s.w|);
      OpensIn(space, s.Swapped(), i, |s.a| + |s.v|);
      OpensBefore(space, s, i, |s.a|);
    }
  }

  lemma {:induction false} OpensStay(space: char -> bool, s: Seam, i: nat, j: nat, q: nat)
    requires Smooth(space, s) && s.Level(i, j) && i <= q < |s.Old()| && s.Outside(q)
    ensures j <= s.Place(q) <= |s.New()| && Opens(s.New(), j, s.Place(q)) == Opens(s.Old(), i, q)
    decreases q
  {
    hide OpensTemplate, Seam.Old, Seam.New, Smooth;
    Lengths(s);
    LevelPlace(s, i, j, q);
    if q < |s.a| {
      OpensBefore(space, s, i, q);
    } else if q == |s.a| + |s.w| {
      OpensAtSeam(space, s, i, j);
    } else if i < q {
      OpensStay(space, s, i, j, q - 1);
      OpensTemplateStays(space, s, q - 1);
    }
  }

  lemma {:induction false} ClosingTemplateMoves(space: char -> bool, s: Seam, i: nat, j: nat, depth: nat)
    requires Smooth(space, s) && s.Level(i, j) && i <= |s.Old()| && j <= |s.New()| && depth > 0
    ensures ClosingTemplate(s.New(), j, depth) == Moved(s, ClosingTemplate(s.Old(), i, depth))
    ensures var at := ClosingTemplate(s.Old(), i, depth); at.Some? ==> s.Outside(at.value)
    decreases |s.Old()| - i
  {
    hide Opens, FindClosing, Seam.Old, Seam.New, Smooth, SameName;
    Lengths(s);
    FindClosingMoves(space, s, i, j, TEMPLATE);
    FirstClosing(s.Old(), i, TEMPLATE);
    FirstClosing(s.New(), j, TEMPLATE);
    var close := FindClosing(s.Old(), i, TEMPLATE);
    if close.Some? {
      OpensStay(space, s, i, j, close.value);
      var open := depth + Opens(s.Old(), i, close.value) - 1;
      if open > 0 {
        ClosingOnOneSide(space, s, close.value, TEMPLATE);
        ClosingTemplateMoves(space, s, close.value + 2, s.Place(close.value) + 2, open);
      }
    }
  }

  // ----- comments -----

  lemma OccursMoves(space: char -> bool, s: Seam, t: Text, q: nat)
    requires Smooth(space, s) && Tight(t) && OccursAt(s.Old(), t, q)
    ensures s.Outside(q) && OccursAt(s.New(), t, s.Place(q))
    ensures q + |t| <= |s.a| || |s.a| + |s.w| <= q
  {
    hide Seam.Old, Seam.New, Smooth, Tight;
    NotNothing(t);
    OnOneSide(space, s, q, |t|);
    SliceMoves(s, q, |t|);
  }

  lemma NotNothing(t: Text)
    requires Tight(t)
    ensures |t| > 0
  {
  }

  lemma CommentIsTight()
    ensures Tight(COMMENT) && Tight(COMMENT_END) && |COMMENT_END| == 3
  {
  }

  lemma CommentStays(space: char -> bool, s: Seam, q: nat)
    requires Smooth(space, s) && q < |s.Old()| && s.Outside(q)
    ensures OccursAt(s.New(), COMMENT, s.Place(q)) == OccursAt(s.Old(), COMMENT, q)
  {
    hide OccursAt, Seam.Old, Seam.New, Smooth, Tight;
    CommentIsTight();
    SwappedIsSmooth(space, s);
    CharAt(s, q);
    if OccursAt(s.Old(), COMMENT, q) {
      OccursMoves(space, s, COMMENT, q);
    }
    if OccursAt(s.New(), COMMENT, s.Place(q)) {
      OccursMoves(space, s.Swapped(), COMMENT, s.Place(q));
    }
  }

  lemma FindMoves(space: char -> bool, s: Seam, t: Text, i: nat, j: nat)
    requires Smooth(space, s) && Tight(t) && s.Level(i, j) && i <= |s.Old()| && j <= |s.New()|
    ensures Find(s.New(), t, j) == Moved(s, Find(s.Old(), t, i))
    ensures var at := Find(s.Old(), t, i); at.Some? ==> s.Outside(at.value) && (at.value + |t| <= |s.a| || |s.a| + |s.w| <= at.value)
  {
    hide OccursAt, Seam.Old, Seam.New, Smooth, Tight;
    Lengths(s);
    SwappedIsSmooth(space, s);
    SwappedLevel(s, i, j);
    var at, found := Find(s.Old(), t, i), Find(s.New(), t, j);
    if at.Some? {
      OccursMoves(space, s, t, at.value);
      LevelPlace(s, i, j, at.value);
      OccursWithin(s.New(), t, s.Place(at.value));
    }
    if found.Some? {
      OccursMoves(space, s.Swapped(), t, found.value);
      LevelPlace(s.Swapped(), j, i, found.value);
      OccursWithin(s.Old(), t, s.Swapped().Place(found.value));
    }
  }

  lemma OccursWithin(text: Text, t: Text, i: nat)
    requires OccursAt(text, t, i)
    ensures i <= |text|
  {
  }

  lemma CommentEndMoves(space: char -> bool, s: Seam, q: nat)
    requires Smooth(space, s) && q < |s.Old()| && s.Outside(q)
    ensures s.Place(q) < |s.New()| && s.Level(CommentEnd(s.Old(), q), CommentEnd(s.New(), s.Place(q)))
  {
    hide OccursAt, Seam.Old, Seam.New, Smooth, Tight;
    Lengths(s);
    CharAt(s, q);
    CommentIsTight();
    FindMoves(space, s, COMMENT_END, q, s.Place(q));
  }

  // ----- elements -----

  function ElementMoved(s: Seam, e: Element): Element {
    Element(s.Place(e.start), NameMoved(s, e.start, e.nameEnd), Body(s.PlaceEnd(e.body.start), s.Place(e.body.end)))
  }

  ghost predicate StepMoves(s: Seam, step: Step, other: Step) {
    match step
    case Stop => other == Stop
    case Pass(next) => other.Pass? && s.Level(next, other.next)
    case Found(e) => other == Found(ElementMoved(s, e)) && s.Outside(e.body.end)
  }

  lemma TagEndLevel(space: char -> bool, s: Seam, end: nat)
    requires Smooth(space, s) && 0 < end <= |s.Old()| && s.Old()[end - 1] == '>'
    ensures s.Level(end, s.PlaceEnd(end)) && s.PlaceEnd(end) <= |s.New()|
  {
    MarkIsOutside(space, s, end - 1);
  }

  lemma NextLevel(s: Seam, q: nat)
    requires s.Outside(q) && q < |s.Old()|
    ensures s.Level(q + 1, s.Place(q) + 1) && s.Place(q) + 1 <= |s.New()|
  {
  }

  lemma IsTagName(text: Text, start: nat)
    requires start < |text| && OpenTag(text, start).Some?
    ensures IsName(text[start + 1..OpenTag(text, start).value.nameEnd])
  {
  }

  lemma BlockMoves(space: char -> bool, s: Seam, q: nat)
    requires Smooth(space, s) && q < |s.Old()| && s.Old()[q] == '<'
    ensures s.Outside(q) && s.Place(q) < |s.New()| && StepMoves(s, BlockAt(s.Old(), q), BlockAt(s.New(), s.Place(q)))
  {
    hide OpenTag, SelfClosing, SameName, Seam.Old, Seam.New, Smooth, OccursAt, CommentEnd, FindClosing, ClosingTemplate, NameMoved;
    Lengths(s);
    OpenTagMoves(space, s, q);
    CommentStays(space, s, q);
    if OccursAt(s.Old(), COMMENT, q) {
      CommentEndMoves(space, s, q);
    } else if OpenTag(s.Old(), q).None? {
      NextLevel(s, q);
    } else {
      var tag := OpenTag(s.Old(), q).value;
      NameStays(space, s, q);
      SelfClosingStays(space, s, tag.end);
      TagEndLevel(space, s, tag.end);
      IsTagName(s.Old(), q);
      if !SelfClosing(s.Old(), tag.end) {
        ClosingTemplateMoves(space, s, tag.end, s.PlaceEnd(tag.end), 1);
        FindClosingMoves(space, s, tag.end, s.PlaceEnd(tag.end), s.Old()[q + 1..tag.nameEnd]);
      }
    }
  }

  lemma RawTextMoves(space: char -> bool, s: Seam, q: nat)
    requires Smooth(space, s) && q < |s.Old()| && s.Old()[q] == '<'
    ensures s.Outside(q) && s.Place(q) < |s.New()| && StepMoves(s, RawTextAt(s.Old(), q), RawTextAt(s.New(), s.Place(q)))
  {
    hide OpenTag, IsRawText, Seam.Old, Seam.New, Smooth, FindClosing, NameMoved;
    Lengths(s);
    OpenTagMoves(space, s, q);
    NextLevel(s, q);
    if OpenTag(s.Old(), q).Some? {
      var tag := OpenTag(s.Old(), q).value;
      NameStays(space, s, q);
      TagEndLevel(space, s, tag.end);
      IsTagName(s.Old(), q);
      FindClosingMoves(space, s, tag.end, s.PlaceEnd(tag.end), s.Old()[q + 1..tag.nameEnd]);
    }
  }

  lemma StepStays(space: char -> bool, vue: bool, s: Seam, q: nat)
    requires Smooth(space, s) && q < |s.Old()| && s.Old()[q] == '<'
    ensures s.Outside(q) && s.Place(q) < |s.New()| && s.New()[s.Place(q)] == '<'
    ensures StepMoves(s, StepAt(vue, s.Old(), q), StepAt(vue, s.New(), s.Place(q)))
  {
    hide BlockAt, RawTextAt, StepMoves, Seam.Old, Seam.New, Smooth;
    BlockMoves(space, s, q);
    RawTextMoves(space, s, q);
    CharAt(s, q);
  }

  function AllMoved(s: Seam, es: seq<Element>): seq<Element> {
    if es == [] then [] else [ElementMoved(s, es[0])] + AllMoved(s, es[1..])
  }

  lemma {:induction false} ElementsIn(space: char -> bool, vue: bool, s: Seam, i: nat)
    requires Smooth(space, s) && |s.a| <= i <= |s.a| + |s.w|
    ensures Elements(vue, s.Old(), i) == Elements(vue, s.Old(), |s.a| + |s.w|)
    decreases |s.a| + |s.w| - i
  {
    hide StepAt;
    if i < |s.a| + |s.w| {
      SpaceIn(space, s, i);
      ElementsIn(space, vue, s, i + 1);
    }
  }

  lemma FirstMoved(s: Seam, e: Element, rest: seq<Element>)
    ensures AllMoved(s, [e] + rest) == [ElementMoved(s, e)] + AllMoved(s, rest)
  {
    assert ([e] + rest)[1..] == rest;
  }

  lemma AtSeam(space: char -> bool, vue: bool, s: Seam)
    requires Smooth(space, s)
    ensures Elements(vue, s.Old(), |s.a|) == Elements(vue, s.Old(), |s.a| + |s.w|)
    ensures Elements(vue, s.New(), |s.a|) == Elements(vue, s.New(), |s.a| + |s.v|)
  {
    hide Elements;
    SwappedIsSmooth(space, s);
    ElementsIn(space, vue, s, |s.a|);
    ElementsIn(space, vue, s.Swapped(), |s.a|);
  }

  /** The scanner finds the same elements, moved. */
  lemma {:induction false} ElementsMove(space: char -> bool, vue: bool, s: Seam, i: nat, j: nat)
    requires Smooth(space, s) && s.Level(i, j) && i <= |s.Old()| && j <= |s.New()|
    ensures Elements(vue, s.New(), j) == AllMoved(s, Elements(vue, s.Old(), i))
    decreases |s.Old()| - i, if |s.a| + |s.w| <= i && j == i - |s.w| + |s.v| then 0 else 1
  {
    hide StepAt, Seam.Old, Seam.New, Smooth, ElementMoved, AllMoved;
    Lengths(s);
    NoneMoved(s);
    if i == j == |s.a| && !(|s.a| + |s.w| <= i && j == i - |s.w| + |s.v|) {
      AtSeam(space, vue, s);
      ElementsMove(space, vue, s, |s.a| + |s.w|, |s.a| + |s.v|);
    } else if i < |s.Old()| {
      CharAt(s, i);
      NextLevel(s, i);
      if s.Old()[i] != '<' {
        ElementsMove(space, vue, s, i + 1, j + 1);
      } else {
        StepStays(space, vue, s, i);
        match StepAt(vue, s.Old(), i)
        case Stop =>
        case Pass(next) => ElementsMove(space, vue, s, next, StepAt(vue, s.New(), j).next);
        case Found(e) =>
          BodyMoves(s, e);
          ElementsMove(space, vue, s, e.body.end, s.Place(e.body.end));
          FirstMoved(s, e, Elements(vue, s.Old(), e.body.end));
      }
    }
  }

  lemma NoneMoved(s: Seam)
    ensures AllMoved(s, []) == []
  {
  }

  lemma BodyMoves(s: Seam, e: Element)
    requires s.Outside(e.body.end)
    ensures ElementMoved(s, e).body.end == s.Place(e.body.end) && s.Level(e.body.end, s.Place(e.body.end))
  {
  }
}
