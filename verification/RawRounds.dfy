/**
Rounds of masking and restoring: what the scanner finds may be masked, and after
one round another finds the same bodies and changes nothing.
*/
module RawRounds {
  import opened Options
  import opened Placeholders
  import opened RawBlocks
  import opened RawRestore
  import opened RawScan
  import opened RawRespace
  import opened RawAgain

  predicate IsKept(space: char -> bool, raw: Judge, v: View) {
    raw(v.name, v.tag) && Normalize(space, v.body).Some?
  }

  /** The raw bodies among the first `n` elements that are not blank. */
  function KeptOf(space: char -> bool, raw: Judge, text: Text, es: seq<Element>, n: nat): (kept: seq<Body>)
    requires Chained(text, es, 0) && n <= |es|
    ensures InOrder(text, kept) && EndOf(kept, |kept|) <= EndOfElement(es, n)
  {
    if n == 0 then [] else
      var kept := KeptOf(space, raw, text, es, n - 1);
      NextStart(text, es, n - 1);
      KeptOne(text, kept, es[n - 1].body, EndOfElement(es, n - 1));
      if IsKept(space, raw, ViewOf(text, es[n - 1])) then kept + [es[n - 1].body] else kept
  }

  /** Their normal forms, by what there is to see of the elements. */
  function Normals(space: char -> bool, raw: Judge, views: seq<View>, n: nat): seq<Text>
    requires n <= |views|
  {
    if n == 0 then [] else
      var v, normals := views[n - 1], Normals(space, raw, views, n - 1);
      if IsKept(space, raw, v) then normals + [Normalize(space, v.body).value] else normals
  }

  lemma {:induction false} KeptPrefix(space: char -> bool, text: Text, elements: seq<Body>, more: seq<Body>, n: nat)
    requires InOrder(text, elements) && InOrder(text, more) && elements <= more && n <= |elements|
    ensures Kept(space, text, elements, n) == Kept(space, text, more, n)
    decreases n
  {
    hide Normalize;
    if n > 0 {
      KeptPrefix(space, text, elements, more, n - 1);
    }
  }

  lemma KeptNext(space: char -> bool, raw: Judge, text: Text, es: seq<Element>, n: nat)
    requires Chained(text, es, 0) && n < |es|
    ensures KeptOf(space, raw, text, es, n + 1)
         == if IsKept(space, raw, ViewOf(text, es[n])) then KeptOf(space, raw, text, es, n) + [es[n].body] else KeptOf(space, raw, text, es, n)
  {
    hide IsKept, IsElement;
  }

  lemma RawNext(raw: Judge, text: Text, es: seq<Element>, n: nat)
    requires Chained(text, es, 0) && n < |es|
    ensures RawBodies(raw, text, es, n + 1) == if IsRaw(raw, text, es[n]) then RawBodies(raw, text, es, n) + [es[n].body] else RawBodies(raw, text, es, n)
  {
    hide IsRaw, IsElement;
  }

  /** A mask keeps one more body when it is not blank. */
  lemma KeptMore(space: char -> bool, text: Text, bodies: seq<Body>, body: Body)
    requires InOrder(text, bodies) && InOrder(text, bodies + [body])
    ensures body.start <= body.end <= |text|
    ensures Kept(space, text, bodies + [body], |bodies| + 1)
         == Kept(space, text, bodies, |bodies|) + if Normalize(space, Inside(text, body)).Some? then [body] else []
  {
    hide Normalize;
    var more := bodies + [body];
    assert more[|bodies|] == body;
    KeptPrefix(space, text, bodies, more, |bodies|);
  }

  /** What a mask keeps of all the bodies. */
  function KeptAll(space: char -> bool, text: Text, bodies: seq<Body>): seq<Body>
    requires InOrder(text, bodies)
  {
    Kept(space, text, bodies, |bodies|)
  }

  lemma KeptNextAll(space: char -> bool, raw: Judge, text: Text, es: seq<Element>, n: nat)
    requires Chained(text, es, 0) && n < |es|
    requires KeptAll(space, text, RawBodies(raw, text, es, n)) == KeptOf(space, raw, text, es, n)
    ensures KeptAll(space, text, RawBodies(raw, text, es, n + 1)) == KeptOf(space, raw, text, es, n + 1)
  {
    hide Normalize, IsElement, Kept, KeptOf, RawBodies, InOrder, ViewOf, IsRaw;
    KeptNext(space, raw, text, es, n);
    RawNext(raw, text, es, n);
    LooksRaw(space, raw, text, es[n]);
    if IsRaw(raw, text, es[n]) {
      KeptMore(space, text, RawBodies(raw, text, es, n), es[n].body);
    }
  }

  /** What a mask keeps of the raw bodies. */
  lemma {:induction false} MaskKeeps(space: char -> bool, raw: Judge, text: Text, es: seq<Element>, n: nat)
    requires Chained(text, es, 0) && n <= |es|
    ensures KeptAll(space, text, RawBodies(raw, text, es, n)) == KeptOf(space, raw, text, es, n)
    decreases n
  {
    hide *;
    if n == 0 {
      NothingKept(space, raw, text, es);
    } else {
      MaskKeeps(space, raw, text, es, n - 1);
      KeptNextAll(space, raw, text, es, n - 1);
    }
  }

  lemma NothingKept(space: char -> bool, raw: Judge, text: Text, es: seq<Element>)
    requires Chained(text, es, 0)
    ensures KeptOf(space, raw, text, es, 0) == [] && RawBodies(raw, text, es, 0) == [] && KeptAll(space, text, []) == []
  {
  }

  lemma LooksRaw(space: char -> bool, raw: Judge, text: Text, e: Element)
    requires IsElement(text, e)
    ensures var v := ViewOf(text, e);
      v.body == Inside(text, e.body) && (IsRaw(raw, text, e) <==> raw(v.name, v.tag))
  {
  }

  lemma NormalsNext(space: char -> bool, raw: Judge, views: seq<View>, n: nat)
    requires n < |views|
    ensures Normals(space, raw, views, n + 1)
         == if IsKept(space, raw, views[n]) then Normals(space, raw, views, n) + [Normalize(space, views[n].body).value] else Normals(space, raw, views, n)
  {
    hide IsKept, Normalize;
  }

  /** Each body has its normal form. */
  ghost predicate NormalsOf(space: char -> bool, text: Text, bodies: seq<Body>, normals: seq<Text>)
    requires InOrder(text, bodies)
  {
    |bodies| == |normals| && forall k :: 0 <= k < |bodies| ==> Normalize(space, Inside(text, bodies[k])) == Some(normals[k])
  }

  lemma NormalsMore(space: char -> bool, text: Text, bodies: seq<Body>, normals: seq<Text>, body: Body, normal: Text)
    requires InOrder(text, bodies) && InOrder(text, bodies + [body]) && NormalsOf(space, text, bodies, normals)
    requires body.start <= body.end <= |text| && Normalize(space, Inside(text, body)) == Some(normal)
    ensures NormalsOf(space, text, bodies + [body], normals + [normal])
  {
    hide Normalize, InOrder;
  }

  /** Each kept body has its normal form. */
  lemma {:induction false} NormalsAre(space: char -> bool, raw: Judge, text: Text, es: seq<Element>, n: nat)
    requires Chained(text, es, 0) && n <= |es|
    ensures NormalsOf(space, text, KeptOf(space, raw, text, es, n), Normals(space, raw, Views(text, es), n))
    decreases n
  {
    hide Normalize, IsElement, NormalsOf, KeptOf, Normals, InOrder, ViewOf;
    if n == 0 {
      NothingKept(space, raw, text, es);
      NothingNormal(space, raw, text, Views(text, es));
    } else {
      NormalsAre(space, raw, text, es, n - 1);
      KeptNext(space, raw, text, es, n - 1);
      NormalsNext(space, raw, Views(text, es), n - 1);
      LooksRaw(space, raw, text, es[n - 1]);
      var v := ViewOf(text, es[n - 1]);
      if IsKept(space, raw, v) {
        NextStart(text, es, n - 1);
        NormalsMore(space, text, KeptOf(space, raw, text, es, n - 1), Normals(space, raw, Views(text, es), n - 1), es[n - 1].body, Normalize(space, v.body).value);
      }
    }
  }

  lemma NothingNormal(space: char -> bool, raw: Judge, text: Text, views: seq<View>)
    ensures Normals(space, raw, views, 0) == [] && InOrder(text, []) && NormalsOf(space, text, [], [])
  {
  }

  lemma MaskedBodies(space: char -> bool, raw: Judge, text: Text, es: seq<Element>, m: Masked)
    requires Chained(text, es, 0)
    requires Masks(space, text, KeptOf(space, raw, text, es, |es|), Placeholder, m)
    ensures m.bodies == Normals(space, raw, Views(text, es), |es|)
  {
    hide Normalize, IsElement, Placeholder, SwapOf, KeptOf;
    NormalsAre(space, raw, text, es, |es|);
    var kept := KeptOf(space, raw, text, es, |es|);
    forall k | 0 <= k < |kept| ensures m.bodies[k] == Normals(space, raw, Views(text, es), |es|)[k] {
      assert MasksOne(space, text, kept[k], m.bodies[k]);
    }
  }

  lemma {:induction false} NormalsPrefix(space: char -> bool, raw: Judge, views: seq<View>, k: nat, n: nat)
    requires k <= n <= |views|
    ensures Normals(space, raw, views, k) <= Normals(space, raw, views, n)
    decreases n
  {
    hide IsKept, Normalize;
    if k < n {
      NormalsPrefix(space, raw, views, k, n - 1);
    }
  }

  lemma MoreInOrder(text: Text, bodies: seq<Body>, e: Element, end: nat)
    requires InOrder(text, bodies) && EndOf(bodies, |bodies|) <= end <= e.start && IsElement(text, e)
    ensures InOrder(text, bodies + [e.body]) && EndOf(bodies, |bodies|) < e.body.start
  {
    hide InOrder;
    ElementIsLong(text, e);
    KeptOne(text, bodies, e.body, e.start);
  }

  lemma TaggedMore(text: Text, bodies: seq<Body>, e: Element, end: nat)
    requires InOrder(text, bodies) && Tagged(text, bodies) && EndOf(bodies, |bodies|) <= end <= e.start && IsElement(text, e)
    ensures InOrder(text, bodies + [e.body]) && Tagged(text, bodies + [e.body])
  {
    MoreInOrder(text, bodies, e, end);
    var more := bodies + [e.body];
    forall i | 0 <= i < |more|
      ensures 0 < more[i].start <= |text| && text[more[i].start - 1] == '>' && more[i].end < |text| && text[more[i].end] == '<'
      ensures i < |more| - 1 ==> more[i].end < more[i + 1].start
    {
      assert more[i] == if i < |bodies| then bodies[i] else e.body;
      if i < |bodies| {
        assert more[i + 1] == if i + 1 < |bodies| then bodies[i + 1] else e.body;
      }
    }
  }

  /** What is found may be masked: each body is between its tags, and they are apart. */
  lemma {:induction false} KeptIsTagged(space: char -> bool, raw: Judge, text: Text, es: seq<Element>, n: nat)
    requires Chained(text, es, 0) && n <= |es|
    ensures Tagged(text, KeptOf(space, raw, text, es, n))
    decreases n
  {
    hide IsKept, IsElement, Tagged, InOrder, KeptOf, ViewOf;
    if n == 0 {
      NothingKept(space, raw, text, es);
      NothingTagged(text);
    } else {
      KeptIsTagged(space, raw, text, es, n - 1);
      KeptNext(space, raw, text, es, n - 1);
      NextStart(text, es, n - 1);
      TaggedMore(text, KeptOf(space, raw, text, es, n - 1), es[n - 1], EndOfElement(es, n - 1));
    }
  }

  lemma NothingTagged(text: Text)
    ensures InOrder(text, []) && Tagged(text, [])
  {
  }

  // ----- one round -----

  /** The redone text is the text filled in for the kept bodies. */
  lemma {:induction false} RedoneIsUpto(space: char -> bool, raw: Judge, text: Text, es: seq<Element>, all: seq<Text>, n: nat)
    requires Chained(text, es, 0) && n <= |es| && Normals(space, raw, Views(text, es), n) <= all
    ensures var kept := KeptOf(space, raw, text, es, n);
      && EndOfElement(es, n) <= |text|
      && Redone(space, raw, text, es, n) == Upto(text, kept, Wrapped(all), |kept|) + text[EndOf(kept, |kept|)..EndOfElement(es, n)]
    decreases n
  {
    hide Normalize, IsElement, Upto, Wrapped, Views, ViewOf, Redone, KeptOf, Normals, InOrder;
    if n == 0 {
      NothingKept(space, raw, text, es);
      NoneRedoneYet(space, raw, text, es);
      NothingTagged(text);
      UptoNone(text, [], Wrapped(all));
    } else {
      NormalsPrefix(space, raw, Views(text, es), n - 1, n);
      RedoneIsUpto(space, raw, text, es, all, n - 1);
      RedoneNext(space, raw, text, es, all, n - 1);
    }
  }

  lemma RedoneNext(space: char -> bool, raw: Judge, text: Text, es: seq<Element>, all: seq<Text>, n: nat)
    requires Chained(text, es, 0) && n < |es| && Normals(space, raw, Views(text, es), n + 1) <= all
    requires EndOfElement(es, n) <= |text|
    requires var kept := KeptOf(space, raw, text, es, n);
      Redone(space, raw, text, es, n) == Upto(text, kept, Wrapped(all), |kept|) + text[EndOf(kept, |kept|)..EndOfElement(es, n)]
    ensures EndOfElement(es, n + 1) <= |text|
    ensures var kept := KeptOf(space, raw, text, es, n + 1);
      Redone(space, raw, text, es, n + 1) == Upto(text, kept, Wrapped(all), |kept|) + text[EndOf(kept, |kept|)..EndOfElement(es, n + 1)]
  {
    hide Normalize, IsElement, Upto;
    NextStart(text, es, n);
    NormalsAre(space, raw, text, es, n);
    var kept, more, e, v := KeptOf(space, raw, text, es, n), KeptOf(space, raw, text, es, n + 1), es[n], ViewOf(text, es[n]);
    var done, from, end := Upto(text, kept, Wrapped(all), |kept|), EndOf(kept, |kept|), EndOfElement(es, n);
    Between(done, text, from, end, e.body.start, e.body.end);
    if IsKept(space, raw, v) {
      UptoNext(text, kept, more, Wrapped(all));
      assert all[|kept|] == Normalize(space, v.body).value;
      assert Restored(space, raw, v) == Wrapped(all)(|kept|);
      assert text[e.body.end..e.body.end] == [];
    }
  }

  lemma Between(done: Text, text: Text, from: nat, end: nat, start: nat, stop: nat)
    requires from <= end <= start <= stop <= |text|
    ensures done + text[from..end] + text[end..start] == done + text[from..start]
    ensures done + text[from..start] + text[start..stop] == done + text[from..stop]
  {
    assert text[from..end] + text[end..start] == text[from..start];
    assert text[from..start] + text[start..stop] == text[from..stop];
  }

  /** Restoring what was masked redoes every element. */
  lemma FilledIsRedone(space: char -> bool, raw: Judge, text: Text, es: seq<Element>)
    requires Chained(text, es, 0)
    ensures Filled(text, KeptOf(space, raw, text, es, |es|), Wrapped(Normals(space, raw, Views(text, es), |es|))) == RedoneText(space, raw, text, es, |es|)
  {
    hide Upto, Wrapped, Redone, KeptOf, Normals, RedoneText;
    var kept, all := KeptOf(space, raw, text, es, |es|), Normals(space, raw, Views(text, es), |es|);
    RedoneIsUpto(space, raw, text, es, all, |es|);
    RedoneAt(space, raw, text, es, |es|);
    Rejoin(Upto(text, kept, Wrapped(all), |kept|), text, EndOf(kept, |kept|), EndOfElement(es, |es|));
  }

  lemma Rejoin(done: Text, text: Text, from: nat, end: nat)
    requires from <= end <= |text|
    ensures done + text[from..end] + text[end..] == done + text[from..]
  {
    assert text[from..end] + text[end..] == text[from..];
  }

  // ----- another round -----

  lemma AgainIsAgain(space: char -> bool, raw: Judge, v: View)
    requires space('\n')
    ensures var w := Again(space, raw, v);
      && (IsKept(space, raw, w) <==> IsKept(space, raw, v)) && Restored(space, raw, w) == w.body
      && (IsKept(space, raw, v) ==> Normalize(space, w.body) == Normalize(space, v.body))
  {
    hide Normalize;
    if IsKept(space, raw, v) {
      NormalAgain(space, v.body);
    }
  }

  lemma {:induction false} NormalsAgain(space: char -> bool, raw: Judge, views: seq<View>, others: seq<View>, n: nat)
    requires space('\n') && n <= |views| == |others| && forall k :: 0 <= k < |views| ==> others[k] == Again(space, raw, views[k])
    ensures Normals(space, raw, others, n) == Normals(space, raw, views, n)
    decreases n
  {
    hide IsKept, Again;
    if n > 0 {
      NormalsAgain(space, raw, views, others, n - 1);
      AgainIsAgain(space, raw, views[n - 1]);
    }
  }

  lemma RedoneStep(space: char -> bool, raw: Judge, text: Text, es: seq<Element>, n: nat)
    requires Chained(text, es, 0) && n < |es|
    ensures EndOfElement(es, n) <= es[n].body.start <= es[n].body.end <= |text|
    ensures Redone(space, raw, text, es, n + 1)
         == Redone(space, raw, text, es, n) + text[EndOfElement(es, n)..es[n].body.start] + Restored(space, raw, ViewOf(text, es[n]))
    ensures ViewOf(text, es[n]).body == text[es[n].body.start..es[n].body.end]
  {
    hide Restored, IsElement;
    NextStart(text, es, n);
  }

  /** Where every body is as it is redone, redoing changes nothing. */
  lemma {:induction false} RedoneIsSame(space: char -> bool, raw: Judge, text: Text, es: seq<Element>, n: nat)
    requires Chained(text, es, 0) && n <= |es|
    requires forall k :: 0 <= k < |es| ==> Restored(space, raw, ViewOf(text, es[k])) == ViewOf(text, es[k]).body
    ensures EndOfElement(es, n) <= |text| && Redone(space, raw, text, es, n) == text[..EndOfElement(es, n)]
    decreases n
  {
    hide Restored, IsElement, Redone, ViewOf;
    if n == 0 {
      NoneRedoneYet(space, raw, text, es);
    } else {
      RedoneIsSame(space, raw, text, es, n - 1);
      RedoneStep(space, raw, text, es, n - 1);
      PrefixGrows(text, EndOfElement(es, n - 1), es[n - 1].body.start, es[n - 1].body.end);
    }
  }

  lemma NoneRedoneYet(space: char -> bool, raw: Judge, text: Text, es: seq<Element>)
    requires Chained(text, es, 0)
    ensures Redone(space, raw, text, es, 0) == []
  {
  }

  lemma PrefixGrows(text: Text, from: nat, start: nat, end: nat)
    requires from <= start <= end <= |text|
    ensures text[..from] + text[from..start] + text[start..end] == text[..end]
  {
  }

  /** The document as masking and restoring leave it. */
  ghost function Round(space: char -> bool, vue: bool, raw: Judge, text: Text): Text {
    FoundAreChained(vue, text, 0);
    RedoneText(space, raw, text, Elements(vue, text, 0), |Elements(vue, text, 0)|)
  }

  ghost function Seen(vue: bool, text: Text): seq<View> {
    FoundAreChained(vue, text, 0);
    Views(text, Elements(vue, text, 0))
  }

  ghost function Masking(space: char -> bool, vue: bool, raw: Judge, text: Text): (kept: seq<Body>)
    ensures InOrder(text, kept)
  {
    FoundAreChained(vue, text, 0);
    KeptOf(space, raw, text, Elements(vue, text, 0), |Elements(vue, text, 0)|)
  }

  /** The scanner finds the same elements again, with the same names and opening tags, and every raw body on lines of its own. */
  lemma SameElementsAgain(space: char -> bool, vue: bool, raw: Judge, text: Text)
    requires Plain(space)
    ensures var out := Round(space, vue, raw, text);
      |Seen(vue, out)| == |Seen(vue, text)| && forall k :: 0 <= k < |Seen(vue, text)| ==> Seen(vue, out)[k] == Again(space, raw, Seen(vue, text)[k])
  {
    hide Elements, RedoneText, Again, Gain, ViewOf;
    FoundAreChained(vue, text, 0);
    var es := Elements(vue, text, 0);
    var fs := ElementsStay(space, vue, raw, text, es, |es|);
  }

  /** Another round changes nothing. */
  lemma RoundIsStable(space: char -> bool, vue: bool, raw: Judge, text: Text)
    requires Plain(space)
    ensures var out := Round(space, vue, raw, text); Round(space, vue, raw, out) == out
  {
    hide Again, Restored, Elements, RedoneText, ViewOf;
    var out := Round(space, vue, raw, text);
    hide Round;
    SameElementsAgain(space, vue, raw, text);
    FoundAreChained(vue, out, 0);
    var fs := Elements(vue, out, 0);
    forall k | 0 <= k < |fs| ensures Restored(space, raw, ViewOf(out, fs[k])) == ViewOf(out, fs[k]).body {
      assert Seen(vue, out)[k] == ViewOf(out, fs[k]);
      AgainIsAgain(space, raw, Seen(vue, text)[k]);
    }
    SameText(space, raw, out, fs);
    RoundIs(space, vue, raw, out);
  }

  lemma RoundIs(space: char -> bool, vue: bool, raw: Judge, text: Text)
    ensures Chained(text, Elements(vue, text, 0), 0)
    ensures Round(space, vue, raw, text) == RedoneText(space, raw, text, Elements(vue, text, 0), |Elements(vue, text, 0)|)
  {
    FoundAreChained(vue, text, 0);
  }

  lemma SameText(space: char -> bool, raw: Judge, text: Text, es: seq<Element>)
    requires Chained(text, es, 0)
    requires forall k :: 0 <= k < |es| ==> Restored(space, raw, ViewOf(text, es[k])) == ViewOf(text, es[k]).body
    ensures RedoneText(space, raw, text, es, |es|) == text
  {
    hide Restored, Redone, RedoneText;
    RedoneAt(space, raw, text, es, |es|);
    RedoneIsSame(space, raw, text, es, |es|);
    var end := EndOfElement(es, |es|);
    assert text[..end] + text[end..] == text;
  }

  /** Masking a restored document finds the same bodies, and restoring that again gives the same document. */
  lemma MaskAgain(space: char -> bool, vue: bool, raw: Judge, text: Text, m: Masked, again: Masked)
    requires Plain(space) && Masks(space, text, Masking(space, vue, raw, text), Placeholder, m)
    requires var out := Filled(text, Masking(space, vue, raw, text), Wrapped(m.bodies));
      Masks(space, out, Masking(space, vue, raw, out), Placeholder, again)
    ensures var out := Filled(text, Masking(space, vue, raw, text), Wrapped(m.bodies));
      again.bodies == m.bodies && Filled(out, Masking(space, vue, raw, out), Wrapped(again.bodies)) == out
  {
    hide Again, Restored, Elements, RedoneText, ViewOf, KeptOf, Normals, Placeholder, Masks, Filled, Wrapped;
    var out := Filled(text, Masking(space, vue, raw, text), Wrapped(m.bodies));
    RoundOf(space, vue, raw, text, m);
    RoundOf(space, vue, raw, out, again);
    SameElementsAgain(space, vue, raw, text);
    RoundIsStable(space, vue, raw, text);
    NormalsAgain(space, raw, Seen(vue, text), Seen(vue, out), |Seen(vue, text)|);
  }

  lemma RoundOf(space: char -> bool, vue: bool, raw: Judge, text: Text, m: Masked)
    requires Masks(space, text, Masking(space, vue, raw, text), Placeholder, m)
    ensures m.bodies == Normals(space, raw, Seen(vue, text), |Seen(vue, text)|)
    ensures Filled(text, Masking(space, vue, raw, text), Wrapped(m.bodies)) == Round(space, vue, raw, text)
  {
    hide Elements, RedoneText, KeptOf, Normals, Placeholder, Masks, Filled, Wrapped, Views;
    FoundAreChained(vue, text, 0);
    var es := Elements(vue, text, 0);
    MaskedBodies(space, raw, text, es, m);
    FilledIsRedone(space, raw, text, es);
  }

  // ----- the round trip -----

  /** Mask a document: what the scanner finds raw, and not blank. */
  method MaskDocument(space: char -> bool, vue: bool, raw: Judge, text: Text) returns (m: Option<Masked>)
    ensures var kept := Masking(space, vue, raw, text);
      && (m.Some? <==> Free(text) && kept != [])
      && (m.Some? ==> Masks(space, text, kept, Placeholder, m.value) && m.value.text == Filled(text, kept, Placeholder))
  {
    hide Placeholder, Elements, RawBodies, Kept, KeptOf, Filled, Masks, Free, IsElement, IsRaw;
    FoundAreChained(vue, text, 0);
    var es := Scan(vue, text);
    var bodies := [];
    assert RawBodies(raw, text, es, 0) == [] by { NothingKept(space, raw, text, es); }
    for n := 0 to |es|
      invariant bodies == RawBodies(raw, text, es, n)
    {
      RawNext(raw, text, es, n);
      assert IsElement(text, es[n]);
      if IsRaw(raw, text, es[n]) {
        bodies := bodies + [es[n].body];
      }
    }
    MaskKeeps(space, raw, text, es, |es|);
    m := Mask(space, text, bodies);
  }

  /** A restored document has no placeholder in it. */
  lemma RoundIsFree(space: char -> bool, text: Text, kept: seq<Body>, m: Masked)
    requires InOrder(text, kept) && Tagged(text, kept) && Free(text) && Masks(space, text, kept, Placeholder, m)
    ensures Free(Filled(text, kept, Wrapped(m.bodies)))
  {
    hide Placeholder, Free, Framed, Done, Upto, Wrapped, Outer, Bare, Tagged, InOrder, Masks, Gap;
    Counted(space, text, kept, m);
    MaskedIsFramed(space, text, kept, m);
    FreeDone(space, Outer(text, kept), Bare(|kept|), m.bodies, |kept|);
    DoneIs(space, text, kept, m.bodies, |kept|);
    LastOuter(text, kept);
    GapLast(text, kept);
  }

  lemma LastOuter(text: Text, kept: seq<Body>)
    requires InOrder(text, kept)
    ensures Outer(text, kept)[|kept|] == Gap(text, kept, |kept|)
  {
    hide Gap, InOrder;
  }

  /**
  Restoring a masked document gives it back with every raw body on lines of its
  own. Masked again it has the same bodies, and restoring that changes nothing.
  */
  lemma RoundTrip(space: char -> bool, vue: bool, raw: Judge, text: Text, m: Masked)
    requires Plain(space) && Free(text)
    requires Masks(space, text, Masking(space, vue, raw, text), Placeholder, m) && m.text == Filled(text, Masking(space, vue, raw, text), Placeholder)
    ensures RestoreUpto(space, m.text, m.bodies, |m.bodies|) == Some(Round(space, vue, raw, text))
    ensures var out := Round(space, vue, raw, text);
      && Free(out)
      && forall again: Masked :: Masks(space, out, Masking(space, vue, raw, out), Placeholder, again) && again.text == Filled(out, Masking(space, vue, raw, out), Placeholder) ==>
          again.bodies == m.bodies && RestoreUpto(space, again.text, again.bodies, |again.bodies|) == Some(out)
  {
    hide Placeholder, Elements, Filled, Masks, Free, Round, KeptOf, RestoreUpto, Wrapped, Tagged, InOrder, Plain;
    NoMark(space);
    Restores(space, vue, raw, text, m);
    var out := Round(space, vue, raw, text);
    forall again: Masked | Masks(space, out, Masking(space, vue, raw, out), Placeholder, again) && again.text == Filled(out, Masking(space, vue, raw, out), Placeholder)
      ensures again.bodies == m.bodies && RestoreUpto(space, again.text, again.bodies, |again.bodies|) == Some(out)
    {
      MaskAgain(space, vue, raw, text, m, again);
      Restores(space, vue, raw, out, again);
      RoundIsStable(space, vue, raw, text);
    }
  }

  lemma NoMark(space: char -> bool)
    requires Plain(space)
    ensures !space('_')
  {
    assert Mark('_');
  }

  lemma Restores(space: char -> bool, vue: bool, raw: Judge, text: Text, m: Masked)
    requires !space('_') && Free(text)
    requires Masks(space, text, Masking(space, vue, raw, text), Placeholder, m) && m.text == Filled(text, Masking(space, vue, raw, text), Placeholder)
    ensures RestoreUpto(space, m.text, m.bodies, |m.bodies|) == Some(Round(space, vue, raw, text)) && Free(Round(space, vue, raw, text))
    ensures Filled(text, Masking(space, vue, raw, text), Wrapped(m.bodies)) == Round(space, vue, raw, text)
  {
    hide Placeholder, Elements, Filled, Masks, Free, Round, KeptOf, RestoreUpto, Wrapped, Tagged, InOrder;
    FoundAreChained(vue, text, 0);
    KeptIsTagged(space, raw, text, Elements(vue, text, 0), |Elements(vue, text, 0)|);
    RoundOf(space, vue, raw, text, m);
    MaskRestores(space, text, Masking(space, vue, raw, text), m);
    RoundIsFree(space, text, Masking(space, vue, raw, text), m);
  }
}
