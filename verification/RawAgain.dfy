/**
Masking a restored document again: the scanner finds the same elements in it,
with the same raw bodies, so a second round changes nothing.
*/
module RawAgain {
  import opened Options
  import opened Placeholders
  import opened RawBlocks
  import opened RawRestore
  import opened RawScan
  import opened RawRespace
  import opened RawStays

  /** What there is to see of an element. */
  datatype View = View(name: Text, tag: Text, body: Text)

  function ViewOf(text: Text, e: Element): View
    requires IsElement(text, e)
  {
    View(NameOf(text, e), TagOf(text, e), Inside(text, e.body))
  }

  function Views(text: Text, es: seq<Element>): (views: seq<View>)
    requires Chained(text, es, 0)
    ensures |views| == |es|
  {
    seq(|es|, i requires 0 <= i < |es| => ViewOf(text, es[i]))
  }

  /** What masking and restoring make of a body. */
  function Restored(space: char -> bool, raw: Judge, v: View): Text {
    if raw(v.name, v.tag) && Normalize(space, v.body).Some? then "\n" + Normalize(space, v.body).value + "\n" else v.body
  }

  function Again(space: char -> bool, raw: Judge, v: View): View {
    v.(body := Restored(space, raw, v))
  }

  /** A body is its normal form between white space. */
  lemma NormalSplits(space: char -> bool, body: Text) returns (l: Text, n: Text, t: Text)
    requires Normalize(space, body).Some?
    ensures body == l + n + t && Spaces(space, l) && Spaces(space, t) && Normalize(space, body) == Some(n)
  {
    var first := Skip(space, body);
    var from := After(body[..first], '\n');
    var tail := body[from..];
    n := TrimEnd(space, tail);
    l, t := body[..from], tail[|n|..];
    hide Skip, After, TrimEnd;
    assert tail == n + t;
    Joined(body, l, n, t, tail, from);
  }

  lemma Joined(body: Text, l: Text, n: Text, t: Text, tail: Text, from: nat)
    requires from <= |body| && l == body[..from] && tail == body[from..] && tail == n + t
    ensures body == l + n + t
  {
    assert body == l + tail;
  }

  function Shift(n: nat, d: int): nat {
    if n + d < 0 then 0 else n + d
  }

  function Shifted(e: Element, d: int): Element {
    Element(Shift(e.start, d), Shift(e.nameEnd, d), Body(Shift(e.body.start, d), Shift(e.body.end, d)))
  }

  lemma PartStays(text: Text, q: nat, other: Text, p: nat, n: nat, i: nat, k: nat)
    requires q + n <= |text| && p + n <= |other| && other[p..p + n] == text[q..q + n] && i <= k <= n
    ensures other[p + i..p + k] == text[q + i..q + k] && (i < k ==> other[p + i] == text[q + i])
  {
    SliceOfSlice(text, q, q + n, i, k);
    SliceOfSlice(other, p, p + n, i, k);
    if i < k {
      assert other[p + i..p + k][0] == text[q + i..q + k][0];
    }
  }

  /** The parts of a stretch that an element is made of. */
  ghost predicate PartsSame(text: Text, e: Element, other: Text, f: Element) {
    && IsElement(text, e) && f.start + 1 < f.nameEnd < f.body.start <= f.body.end < |other|
    && NameOf(other, f) == NameOf(text, e) && TagOf(other, f) == TagOf(text, e) && Inside(other, f.body) == Inside(text, e.body)
    && other[f.body.start - 1] == text[e.body.start - 1] && other[f.body.end] == text[e.body.end]
  }

  lemma PartsAre(text: Text, e: Element, other: Text, d: int)
    requires IsElement(text, e) && e.start + d >= 0 && e.body.end + 1 + d <= |other|
    requires other[e.start + d..e.body.end + 1 + d] == text[e.start..e.body.end + 1]
    ensures PartsSame(text, e, other, Shifted(e, d))
  {
    var q: nat, p: nat, n: nat := e.start, e.start + d, e.body.end + 1 - e.start;
    PartStays(text, q, other, p, n, 1, e.nameEnd - q);
    PartStays(text, q, other, p, n, 0, e.body.start - q);
    PartStays(text, q, other, p, n, e.body.start - q, e.body.end - q);
    PartStays(text, q, other, p, n, e.body.start - 1 - q, e.body.start - q);
    PartStays(text, q, other, p, n, e.body.end - q, n);
  }

  /** An element looks the same where the text around it does. */
  lemma ViewStays(text: Text, e: Element, other: Text, d: int)
    requires IsElement(text, e) && e.start + d >= 0 && e.body.end + 1 + d <= |other|
    requires other[e.start + d..e.body.end + 1 + d] == text[e.start..e.body.end + 1]
    ensures IsElement(other, Shifted(e, d)) && ViewOf(other, Shifted(e, d)) == ViewOf(text, e)
  {
    hide Shifted, NameOf, TagOf, Inside;
    PartsAre(text, e, other, d);
  }

  lemma BeforeStays(s: Seam, e: Element)
    requires IsElement(s.Old(), e) && e.body.end < |s.a|
    ensures ElementMoved(s, e) == e && IsElement(s.New(), e) && ViewOf(s.New(), e) == ViewOf(s.Old(), e)
  {
    hide IsElement;
    ElementIsLong(s.Old(), e);
    SliceMoves(s, e.start, e.body.end + 1 - e.start);
    ViewStays(s.Old(), e, s.New(), 0);
    NoShift(s, e);
  }

  lemma NoShift(s: Seam, e: Element)
    requires e.start < e.body.start <= e.body.end < |s.a|
    ensures Shifted(e, 0) == e && ElementMoved(s, e) == e
  {
  }

  lemma AfterStays(s: Seam, e: Element)
    requires IsElement(s.Old(), e) && |s.a| + |s.w| <= e.start
    ensures ElementMoved(s, e) == Shifted(e, |s.v| - |s.w|)
    ensures IsElement(s.New(), ElementMoved(s, e)) && ViewOf(s.New(), ElementMoved(s, e)) == ViewOf(s.Old(), e)
  {
    hide IsElement, ViewOf, Seam.Old, Seam.New;
    ElementIsLong(s.Old(), e);
    NameIsLong(s.Old(), e);
    SliceMoves(s, e.start, e.body.end + 1 - e.start);
    ViewStays(s.Old(), e, s.New(), |s.v| - |s.w|);
  }

  lemma NameIsLong(text: Text, e: Element)
    requires IsElement(text, e)
    ensures e.start < e.nameEnd
  {
  }

  /** The opening tag of an element before a seam looks the same, and its body holds what is there now. */
  lemma AroundStays(s: Seam, e: Element)
    requires IsElement(s.Old(), e) && e.body.start <= |s.a| && |s.a| + |s.w| <= e.body.end
    ensures var f := ElementMoved(s, e);
      && f == Element(e.start, e.nameEnd, Body(e.body.start, e.body.end - |s.w| + |s.v|)) && IsElement(s.New(), f)
      && NameOf(s.New(), f) == NameOf(s.Old(), e) && TagOf(s.New(), f) == TagOf(s.Old(), e)
  {
    var f := ElementMoved(s, e);
    assert s.New()[..|s.a|] == s.a == s.Old()[..|s.a|];
    CharAt(s, e.body.end);
    assert s.New()[f.start..f.body.start] == s.New()[..|s.a|][f.start..f.body.start];
    assert s.Old()[e.start..e.body.start] == s.Old()[..|s.a|][e.start..e.body.start];
    assert s.New()[f.start + 1..f.nameEnd] == s.New()[..|s.a|][f.start + 1..f.nameEnd];
    assert s.Old()[e.start + 1..e.nameEnd] == s.Old()[..|s.a|][e.start + 1..e.nameEnd];
  }

  lemma {:induction false} MovedAt(s: Seam, es: seq<Element>, k: nat)
    requires k < |es|
    ensures |AllMoved(s, es)| == |es| && AllMoved(s, es)[k] == ElementMoved(s, es[k])
    decreases |es|
  {
    hide ElementMoved;
    if k > 0 {
      MovedAt(s, es[1..], k - 1);
    } else if |es| > 1 {
      MovedAt(s, es[1..], 0);
    }
  }

  /** Elements that look the same, all but the `i`th; those behind it are shifted. */
  ghost predicate AllButOne(text: Text, es: seq<Element>, other: Text, fs: seq<Element>, i: nat, d: int) {
    && Chained(text, es, 0) && Chained(other, fs, 0) && |es| == |fs| && i < |es|
    && (forall k :: 0 <= k < i ==> fs[k] == es[k])
    && (forall k :: i < k < |es| ==> es[k].start + d >= 0 && fs[k] == Shifted(es[k], d))
    && (forall k :: 0 <= k < |es| && k != i ==> ViewOf(other, fs[k]) == ViewOf(text, es[k]))
    && NameOf(other, fs[i]) == NameOf(text, es[i]) && TagOf(other, fs[i]) == TagOf(text, es[i])
  }

  /** White space in the body of the `i`th element, right behind its opening tag or right before its closing one. */
  lemma OneSeam(space: char -> bool, vue: bool, s: Seam, es: seq<Element>, i: nat) returns (fs: seq<Element>)
    requires Smooth(space, s) && es == Elements(vue, s.Old(), 0) && i < |es|
    requires Chained(s.Old(), es, 0) && es[i].body.start <= |s.a| && |s.a| + |s.w| <= es[i].body.end
    ensures fs == Elements(vue, s.New(), 0) && |fs| == |es| && AllButOne(s.Old(), es, s.New(), fs, i, |s.v| - |s.w|)
    ensures fs[i] == Element(es[i].start, es[i].nameEnd, Body(es[i].body.start, es[i].body.end - |s.w| + |s.v|))
  {
    hide Smooth, Seam.Old, Seam.New, Elements, ElementMoved, IsElement, ViewOf, AllMoved;
    fs := Elements(vue, s.New(), 0);
    ElementsMove(space, vue, s, 0, 0);
    FoundAreChained(vue, s.New(), 0);
    MovedAt(s, es, i);
    AroundStays(s, es[i]);
    forall k | 0 <= k < |es| && k != i
      ensures fs[k] == ElementMoved(s, es[k]) && ViewOf(s.New(), fs[k]) == ViewOf(s.Old(), es[k])
      ensures k < i ==> fs[k] == es[k]
      ensures k > i ==> es[k].start >= |s.w| && fs[k] == Shifted(es[k], |s.v| - |s.w|)
    {
      MovedAt(s, es, k);
      ElementIsLong(s.Old(), es[k]);
      ElementIsLong(s.Old(), es[i]);
      if k < i {
        BeforeStays(s, es[k]);
      } else {
        AfterStays(s, es[k]);
      }
    }
  }

  lemma ShiftTwice(e: Element, d: int, b: int)
    requires e.start + d >= 0 && e.start < e.nameEnd < e.body.start <= e.body.end && e.start + d + b >= 0
    ensures Shifted(Shifted(e, d), b) == Shifted(e, d + b)
  {
  }

  /** A body put on lines of its own, without the white space around it. */
  lemma Rewrap(space: char -> bool, vue: bool, p: Text, l: Text, n: Text, t: Text, c: Text, es: seq<Element>, i: nat) returns (fs: seq<Element>)
    requires Plain(space) && Spaces(space, l) && Spaces(space, t)
    requires p != [] && p[|p| - 1] == '>' && c != [] && c[0] == '<'
    requires es == Elements(vue, p + (l + n + t) + c, 0) && i < |es| && es[i].body == Body(|p|, |p| + |l + n + t|)
    ensures var text, other := p + (l + n + t) + c, p + ("\n" + n + "\n") + c;
      && fs == Elements(vue, other, 0) && |fs| == |es| && AllButOne(text, es, other, fs, i, |n| + 2 - |l + n + t|)
      && fs[i].body == Body(|p|, |p| + |n| + 2)
  {
    hide Elements, AllButOne, IsElement, Smooth;
    var first, second := Seam(p, l, "\n", n + t + c), Seam(p + "\n" + n, t, "\n", c);
    Joins(p, l, n, t, c);
    AreSmooth(space, p, l, n, t, c);
    FoundAreChained(vue, first.Old(), 0);
    var gs := OneSeam(space, vue, first, es, i);
    FoundAreChained(vue, second.Old(), 0);
    fs := OneSeam(space, vue, second, gs, i);
    Twice(first.Old(), es, first.New(), gs, second.New(), fs, i, 1 - |l|, 1 - |t|);
  }

  lemma Joins(p: Text, l: Text, n: Text, t: Text, c: Text)
    ensures var first, second := Seam(p, l, "\n", n + t + c), Seam(p + "\n" + n, t, "\n", c);
      && first.Old() == p + (l + n + t) + c && first.New() == second.Old() && second.New() == p + ("\n" + n + "\n") + c
  {
    assert p + l + (n + t + c) == p + (l + n + t) + c;
    assert p + "\n" + (n + t + c) == p + "\n" + n + t + c;
    assert p + "\n" + n + "\n" + c == p + ("\n" + n + "\n") + c;
  }

  lemma AreSmooth(space: char -> bool, p: Text, l: Text, n: Text, t: Text, c: Text)
    requires Plain(space) && Spaces(space, l) && Spaces(space, t) && p != [] && p[|p| - 1] == '>' && c != [] && c[0] == '<'
    ensures Smooth(space, Seam(p, l, "\n", n + t + c)) && Smooth(space, Seam(p + "\n" + n, t, "\n", c))
  {
  }

  lemma Twice(text: Text, es: seq<Element>, middle: Text, gs: seq<Element>, other: Text, fs: seq<Element>, i: nat, d: int, b: int)
    requires AllButOne(text, es, middle, gs, i, d) && AllButOne(middle, gs, other, fs, i, b)
    ensures AllButOne(text, es, other, fs, i, d + b)
  {
    hide ViewOf, Shifted;
    forall k | i < k < |es| ensures es[k].start + d + b >= 0 && fs[k] == Shifted(es[k], d + b) {
      assert IsElement(text, es[k]);
      StartShifted(es[k], d);
      ShiftTwice(es[k], d, b);
    }
  }

  lemma StartShifted(e: Element, d: int)
    requires e.start + d >= 0
    ensures Shifted(e, d).start == e.start + d
  {
  }

  // ----- the whole document -----

  function EndOfElement(es: seq<Element>, n: nat): nat
    requires n <= |es|
  {
    if n == 0 then 0 else es[n - 1].body.end
  }

  /** The text up to the end of the `n`th element's body, as masking and restoring leave it. */
  function Redone(space: char -> bool, raw: Judge, text: Text, es: seq<Element>, n: nat): Text
    requires Chained(text, es, 0) && n <= |es|
  {
    if n == 0 then [] else
      NextStart(text, es, n - 1);
      Redone(space, raw, text, es, n - 1) + text[EndOfElement(es, n - 1)..es[n - 1].body.start] + Restored(space, raw, ViewOf(text, es[n - 1]))
  }

  lemma NextStart(text: Text, es: seq<Element>, n: nat)
    requires Chained(text, es, 0) && n < |es|
    ensures EndOfElement(es, n) <= es[n].start < es[n].body.start <= es[n].body.end < |text|
  {
    if n > 0 {
      assert es[n - 1].body.end <= es[n].start;
    }
  }

  function RedoneText(space: char -> bool, raw: Judge, text: Text, es: seq<Element>, n: nat): Text
    requires Chained(text, es, 0) && n <= |es|
  {
    if n > 0 then
      NextStart(text, es, n - 1);
      Redone(space, raw, text, es, n) + text[EndOfElement(es, n)..]
    else text
  }

  /** The elements of the text with `n` bodies redone: those look as they should, and the others as they did. */
  ghost predicate Looks(space: char -> bool, raw: Judge, text: Text, es: seq<Element>, other: Text, fs: seq<Element>, n: nat, d: int) {
    && Chained(text, es, 0) && Chained(other, fs, 0) && |es| == |fs| && n <= |es|
    && (forall k :: 0 <= k < n ==> ViewOf(other, fs[k]) == Again(space, raw, ViewOf(text, es[k])))
    && (forall k :: n <= k < |es| ==> es[k].start + d >= 0 && fs[k] == Shifted(es[k], d))
    && (forall k :: n <= k < |es| ==> ViewOf(other, fs[k]) == ViewOf(text, es[k]))
  }

  lemma LooksAtFirst(space: char -> bool, raw: Judge, text: Text, es: seq<Element>)
    requires Chained(text, es, 0)
    ensures Looks(space, raw, text, es, text, es, 0, 0)
  {
    forall k | 0 <= k < |es| ensures Shifted(es[k], 0) == es[k] {
    }
  }

  lemma RedoneAt(space: char -> bool, raw: Judge, text: Text, es: seq<Element>, n: nat)
    requires Chained(text, es, 0) && n <= |es|
    ensures EndOfElement(es, n) <= |text|
    ensures RedoneText(space, raw, text, es, n) == Redone(space, raw, text, es, n) + text[EndOfElement(es, n)..]
  {
    hide Restored, IsElement, ViewOf;
    if n > 0 {
      NextStart(text, es, n - 1);
    } else {
      assert [] + text[0..] == text;
    }
  }

  lemma Cut(done: Text, text: Text, from: nat, start: nat, end: nat)
    requires from <= start <= end <= |text|
    ensures done + text[from..] == done + text[from..start] + text[start..end] + text[end..]
  {
    assert text[from..] == text[from..start] + text[start..end] + text[end..];
  }

  lemma Tags(done: Text, text: Text, from: nat, e: Element)
    requires IsElement(text, e) && from < e.body.start
    ensures var p, c := done + text[from..e.body.start], text[e.body.end..];
      p != [] && p[|p| - 1] == '>' && c != [] && c[0] == '<'
  {
    assert text[from..e.body.start][e.body.start - 1 - from] == '>';
  }

  /** How much longer the text before has become. */
  function Gain(space: char -> bool, raw: Judge, text: Text, es: seq<Element>, n: nat): int
    requires Chained(text, es, 0) && n <= |es|
  {
    |Redone(space, raw, text, es, n)| - EndOfElement(es, n)
  }

  /** How the text parts around the next element's body. */
  lemma Parted(space: char -> bool, raw: Judge, text: Text, es: seq<Element>, n: nat) returns (p: Text, c: Text)
    requires Chained(text, es, 0) && n < |es|
    ensures RedoneText(space, raw, text, es, n) == p + ViewOf(text, es[n]).body + c
    ensures RedoneText(space, raw, text, es, n + 1) == p + Restored(space, raw, ViewOf(text, es[n])) + c
    ensures |p| == Gain(space, raw, text, es, n) + es[n].body.start && |ViewOf(text, es[n]).body| == es[n].body.end - es[n].body.start
    ensures p != [] && p[|p| - 1] == '>' && c != [] && c[0] == '<'
  {
    hide Restored, IsElement, RedoneText;
    NextStart(text, es, n);
    var e, done, from := es[n], Redone(space, raw, text, es, n), EndOfElement(es, n);
    p, c := done + text[from..e.body.start], text[e.body.end..];
    Tags(done, text, from, e);
    RedoneAt(space, raw, text, es, n);
    RedoneAt(space, raw, text, es, n + 1);
    Cut(done, text, from, e.body.start, e.body.end);
  }

  lemma LooksNext(space: char -> bool, raw: Judge, text: Text, es: seq<Element>, other: Text, fs: seq<Element>, third: Text, gs: seq<Element>, n: nat, d: int, b: int)
    requires Looks(space, raw, text, es, other, fs, n, d) && n < |es| && AllButOne(other, fs, third, gs, n, b)
    requires Inside(third, gs[n].body) == Restored(space, raw, ViewOf(text, es[n]))
    ensures Looks(space, raw, text, es, third, gs, n + 1, d + b)
  {
    hide Restored, Shifted, IsElement;
    forall k | n + 1 <= k < |es| ensures es[k].start + d + b >= 0 && gs[k] == Shifted(es[k], d + b) {
      ElementIsLong(text, es[k]);
      IsLong(text, es[k]);
      StartShifted(es[k], d);
      ShiftTwice(es[k], d, b);
    }
    hide ViewOf;
    SplitView(other, fs[n], third, gs[n]);
    SplitView(text, es[n], text, es[n]);
  }

  lemma IsLong(text: Text, e: Element)
    requires IsElement(text, e)
    ensures e.start < e.nameEnd < e.body.start <= e.body.end
  {
  }

  lemma SplitView(text: Text, e: Element, other: Text, f: Element)
    requires IsElement(text, e) && IsElement(other, f) && NameOf(other, f) == NameOf(text, e) && TagOf(other, f) == TagOf(text, e)
    ensures ViewOf(other, f) == ViewOf(text, e).(body := Inside(other, f.body))
  {
  }

  lemma GainNext(space: char -> bool, raw: Judge, text: Text, es: seq<Element>, n: nat)
    requires Chained(text, es, 0) && n < |es|
    ensures es[n].body.start <= es[n].body.end
    ensures Gain(space, raw, text, es, n + 1) == Gain(space, raw, text, es, n) + |Restored(space, raw, ViewOf(text, es[n]))| - (es[n].body.end - es[n].body.start)
  {
    hide Restored, IsElement, ViewOf;
    NextStart(text, es, n);
  }

  /** The scanner finds the same elements after any number of bodies were redone. */
  lemma {:induction false} ElementsStay(space: char -> bool, vue: bool, raw: Judge, text: Text, es: seq<Element>, n: nat) returns (fs: seq<Element>)
    requires Plain(space) && es == Elements(vue, text, 0) && Chained(text, es, 0) && n <= |es|
    ensures fs == Elements(vue, RedoneText(space, raw, text, es, n), 0) && |fs| == |es|
    ensures Looks(space, raw, text, es, RedoneText(space, raw, text, es, n), fs, n, Gain(space, raw, text, es, n))
    decreases n
  {
    hide Elements, Looks, Restored, IsElement, ViewOf, RedoneText, Gain, Redone;
    if n == 0 {
      LooksAtFirst(space, raw, text, es);
      NoneRedone(space, raw, text, es);
      fs := es;
    } else {
      var gs := ElementsStay(space, vue, raw, text, es, n - 1);
      fs := OneMore(space, vue, raw, text, es, gs, n - 1);
    }
  }

  lemma NoneRedone(space: char -> bool, raw: Judge, text: Text, es: seq<Element>)
    requires Chained(text, es, 0)
    ensures RedoneText(space, raw, text, es, 0) == text && Gain(space, raw, text, es, 0) == 0
  {
  }

  lemma OneMore(space: char -> bool, vue: bool, raw: Judge, text: Text, es: seq<Element>, fs: seq<Element>, n: nat) returns (gs: seq<Element>)
    requires Plain(space) && es == Elements(vue, text, 0) && Chained(text, es, 0) && n < |es|
    requires fs == Elements(vue, RedoneText(space, raw, text, es, n), 0) && |fs| == |es|
    requires Looks(space, raw, text, es, RedoneText(space, raw, text, es, n), fs, n, Gain(space, raw, text, es, n))
    ensures gs == Elements(vue, RedoneText(space, raw, text, es, n + 1), 0) && |gs| == |es|
    ensures Looks(space, raw, text, es, RedoneText(space, raw, text, es, n + 1), gs, n + 1, Gain(space, raw, text, es, n + 1))
  {
    hide Elements, IsElement, RedoneText, Redone, AllButOne, Normalize, Looks, Gain, Plain, Spaces, ViewOf;
    var v := ViewOf(text, es[n]);
    var p, c := Parted(space, raw, text, es, n);
    BodyAt(space, raw, text, es, fs, n, |p|);
    GainNext(space, raw, text, es, n);
    if raw(v.name, v.tag) && Normalize(space, v.body).Some? {
      gs := OneRewrapped(space, vue, raw, text, es, p, c, fs, n, Gain(space, raw, text, es, n));
    } else {
      gs := fs;
      LooksOn(space, raw, text, es, p + v.body + c, fs, n, Gain(space, raw, text, es, n));
    }
  }

  lemma OneRewrapped(space: char -> bool, vue: bool, raw: Judge, text: Text, es: seq<Element>, p: Text, c: Text, fs: seq<Element>, n: nat, d: int) returns (gs: seq<Element>)
    requires Plain(space) && Chained(text, es, 0) && n < |es| == |fs|
    requires p != [] && p[|p| - 1] == '>' && c != [] && c[0] == '<'
    requires var v := ViewOf(text, es[n]);
      && raw(v.name, v.tag) && Normalize(space, v.body).Some?
      && fs == Elements(vue, p + v.body + c, 0) && fs[n].body == Body(|p|, |p| + |v.body|)
      && Looks(space, raw, text, es, p + v.body + c, fs, n, d)
    ensures var v := ViewOf(text, es[n]);
      && gs == Elements(vue, p + Restored(space, raw, v) + c, 0) && |gs| == |es|
      && Looks(space, raw, text, es, p + Restored(space, raw, v) + c, gs, n + 1, d + |Restored(space, raw, v)| - |v.body|)
  {
    hide Elements, IsElement, AllButOne, Normalize, Looks, Plain, Spaces, ViewOf;
    var v := ViewOf(text, es[n]);
    var l, normal, t := NormalSplits(space, v.body);
    gs := Rewrap(space, vue, p, l, normal, t, c, fs, n);
    InMiddle(p, "\n" + normal + "\n", c);
    assert Restored(space, raw, v) == "\n" + normal + "\n";
    LooksNext(space, raw, text, es, p + v.body + c, fs, p + ("\n" + normal + "\n") + c, gs, n, d, |normal| + 2 - |v.body|);
  }

  lemma InMiddle(p: Text, b: Text, c: Text)
    ensures (p + b + c)[|p|..|p| + |b|] == b
  {
  }

  lemma BodyAt(space: char -> bool, raw: Judge, text: Text, es: seq<Element>, fs: seq<Element>, n: nat, p: nat)
    requires Chained(text, es, 0) && n < |es| && p == Gain(space, raw, text, es, n) + es[n].body.start
    requires Looks(space, raw, text, es, RedoneText(space, raw, text, es, n), fs, n, Gain(space, raw, text, es, n))
    ensures |fs| == |es| && es[n].body.start <= es[n].body.end && fs[n].body == Body(p, p + es[n].body.end - es[n].body.start)
  {
    hide IsElement, RedoneText, Redone, Gain, Restored;
    IsLong(text, es[n]);
  }

  lemma LooksOn(space: char -> bool, raw: Judge, text: Text, es: seq<Element>, other: Text, fs: seq<Element>, n: nat, d: int)
    requires Looks(space, raw, text, es, other, fs, n, d) && n < |es|
    requires Again(space, raw, ViewOf(text, es[n])) == ViewOf(text, es[n])
    ensures Looks(space, raw, text, es, other, fs, n + 1, d)
  {
    hide IsElement, Again, Shifted;
  }
}
