/**
Raw blocks of a markup document: their bodies are swapped for placeholders
before formatting, and offsets of the masked text are mapped back.
*/
module RawBlocks {
  import opened Options
  import opened Placeholders

  // ----- masking -----

  /** Where the body of a raw element is. */
  datatype Body = Body(start: nat, end: nat)

  /** `token` characters at `start` of the masked text are there for `body` characters. */
  datatype Swap = Swap(start: nat, token: nat, body: nat)

  datatype Masked = Masked(text: Text, bodies: seq<Text>, swaps: seq<Swap>)

  /** Without the blank lines it begins with and the white space it ends with. */
  function Normalize(space: char -> bool, body: Text): Option<Text> {
    var first := Skip(space, body);
    if first == |body| then None else Some(TrimEnd(space, body[After(body[..first], '\n')..]))
  }

  /** From the line of the first character that is not white space to the last such character; blank if there is none. */
  lemma NormalizeIs(space: char -> bool, body: Text)
    ensures Normalize(space, body).None? <==> forall i :: 0 <= i < |body| ==> space(body[i])
    ensures Normalize(space, body).Some? ==> exists from: nat, to: nat ::
      && IsTrimmed(space, body, from, to) && Normalize(space, body) == Some(body[from..to])
  {
    var first := Skip(space, body);
    if first < |body| {
      var from := After(body[..first], '\n');
      var rest := body[from..];
      var to := from + |TrimEnd(space, rest)|;
      assert rest[first - from] == body[first];
      forall i | to <= i < |body| ensures space(body[i]) {
        assert body[i] == rest[i - from];
      }
      forall i | from <= i < first ensures body[i] != '\n' {
        assert body[i] == body[..first][i];
      }
      assert body[to - 1] == TrimEnd(space, rest)[to - 1 - from];
      assert body[from..to] == TrimEnd(space, rest);
      assert IsTrimmed(space, body, from, to);
    }
  }

  /**
  Only white space lies outside, `from` begins a line, that line is not blank,
  and a character that is not white space comes last. The first line keeps its
  indentation.
  */
  ghost predicate IsTrimmed(space: char -> bool, body: Text, from: nat, to: nat) {
    && from < to <= |body| && !space(body[to - 1])
    && (forall i :: 0 <= i < from || to <= i < |body| ==> space(body[i]))
    && (from == 0 || body[from - 1] == '\n')
    && exists first :: from <= first < to && !space(body[first]) && forall i :: from <= i < first ==> body[i] != '\n'
  }

  predicate InOrder(text: Text, bodies: seq<Body>) {
    && (forall i :: 0 <= i < |bodies| ==> bodies[i].start <= bodies[i].end <= |text|)
    && (forall i :: 0 <= i < |bodies| - 1 ==> bodies[i].end <= bodies[i + 1].start)
  }

  function EndOf(bodies: seq<Body>, n: nat): nat
    requires n <= |bodies|
  {
    if n == 0 then 0 else bodies[n - 1].end
  }

  function Inside(text: Text, body: Body): Text
    requires body.start <= body.end <= |text|
  {
    text[body.start..body.end]
  }

  /** The bodies that are not blank. */
  function Kept(space: char -> bool, text: Text, elements: seq<Body>, n: nat): (k: seq<Body>)
    requires InOrder(text, elements) && n <= |elements|
    ensures InOrder(text, k) && EndOf(k, |k|) <= EndOf(elements, n)
  {
    if n == 0 then [] else
      var k := Kept(space, text, elements, n - 1);
      var element := elements[n - 1];
      KeptOne(text, k, element, EndOf(elements, n - 1));
      if Normalize(space, Inside(text, element)).Some? then k + [element] else k
  }

  lemma KeptOne(text: Text, kept: seq<Body>, element: Body, end: nat)
    requires InOrder(text, kept) && EndOf(kept, |kept|) <= end <= element.start <= element.end <= |text|
    ensures InOrder(text, kept + [element])
  {
  }

  /** The text up to the end of the `n`th body, filled in for the bodies. */
  function Upto(text: Text, bodies: seq<Body>, fill: nat -> Text, n: nat): Text
    requires InOrder(text, bodies) && n <= |bodies|
  {
    if n == 0 then [] else
      Upto(text, bodies, fill, n - 1) + text[EndOf(bodies, n - 1)..bodies[n - 1].start] + fill(n - 1)
  }

  lemma UptoNone(text: Text, bodies: seq<Body>, fill: nat -> Text)
    requires InOrder(text, bodies)
    ensures Upto(text, bodies, fill, 0) == []
  {
  }

  /** The text filled in for the bodies. */
  function Filled(text: Text, bodies: seq<Body>, fill: nat -> Text): Text
    requires InOrder(text, bodies)
  {
    Upto(text, bodies, fill, |bodies|) + text[EndOf(bodies, |bodies|)..]
  }

  /** Where the fill for body `k` is. */
  function FillStart(text: Text, bodies: seq<Body>, fill: nat -> Text, k: nat): (n: nat)
    requires InOrder(text, bodies) && k < |bodies|
    ensures |Upto(text, bodies, fill, k)| <= n && |Upto(text, bodies, fill, k + 1)| == n + |fill(k)|
  {
    |Upto(text, bodies, fill, k)| + bodies[k].start - EndOf(bodies, k)
  }

  ghost predicate Masks(space: char -> bool, text: Text, bodies: seq<Body>, fill: nat -> Text, m: Masked)
    requires InOrder(text, bodies)
  {
    && |m.bodies| == |m.swaps| == |bodies|
    && forall i :: 0 <= i < |bodies| ==> MasksOne(space, text, bodies[i], m.bodies[i])
                                         && m.swaps[i] == SwapOf(text, bodies, fill, i)
  }

  ghost predicate MasksOne(space: char -> bool, text: Text, body: Body, normal: Text)
    requires body.start <= body.end <= |text|
  {
    Normalize(space, Inside(text, body)) == Some(normal)
  }

  ghost function SwapOf(text: Text, bodies: seq<Body>, fill: nat -> Text, k: nat): Swap
    requires InOrder(text, bodies) && k < |bodies|
  {
    Swap(FillStart(text, bodies, fill, k), |fill(k)|, bodies[k].end - bodies[k].start)
  }

  lemma {:induction false} UptoPrefix(text: Text, bodies: seq<Body>, more: seq<Body>, fill: nat -> Text, n: nat)
    requires InOrder(text, bodies) && InOrder(text, more) && bodies <= more && n <= |bodies|
    ensures Upto(text, bodies, fill, n) == Upto(text, more, fill, n)
    decreases n
  {
    if n > 0 {
      UptoPrefix(text, bodies, more, fill, n - 1);
    }
  }

  lemma SwapPrefix(text: Text, bodies: seq<Body>, more: seq<Body>, fill: nat -> Text, k: nat)
    requires InOrder(text, bodies) && InOrder(text, more) && bodies <= more && k < |bodies|
    ensures SwapOf(text, bodies, fill, k) == SwapOf(text, more, fill, k)
  {
    hide Upto;
    UptoPrefix(text, bodies, more, fill, k);
  }

  lemma MaskOne(
    space: char -> bool, text: Text, bodies: seq<Body>, more: seq<Body>, fill: nat -> Text, m: Masked, body: Text, next: Masked
  )
    requires InOrder(text, bodies) && InOrder(text, more) && |more| == |bodies| + 1 && bodies <= more
    requires Masks(space, text, bodies, fill, m) && MasksOne(space, text, more[|bodies|], body)
    requires next.bodies == m.bodies + [body] && next.swaps == m.swaps + [SwapOf(text, more, fill, |bodies|)]
    ensures Masks(space, text, more, fill, next)
  {
    hide SwapOf, MasksOne;
    forall i | 0 <= i < |more| ensures MasksOne(space, text, more[i], next.bodies[i]) && next.swaps[i] == SwapOf(text, more, fill, i) {
      if i < |bodies| {
        SwapPrefix(text, bodies, more, fill, i);
      }
    }
  }

  /** The text with placeholders for the bodies that are not blank. */
  method Mask(space: char -> bool, text: Text, elements: seq<Body>) returns (m: Option<Masked>)
    requires InOrder(text, elements)
    ensures var kept := Kept(space, text, elements, |elements|);
      && (m.Some? <==> Free(text) && kept != [])
      && (m.Some? ==> Masks(space, text, kept, Placeholder, m.value) && m.value.text == Filled(text, kept, Placeholder))
  {
    hide Placeholder, Normalize, Upto, Masks, Find;
    if !Free(text) {
      return None;
    }
    var masked, bodies, swaps, cursor := [], [], [], 0;
    ghost var kept := [];
    InitialMask(space, text);
    for i := 0 to |elements|
      invariant kept == Kept(space, text, elements, i) && |kept| == |bodies| && cursor == EndOf(kept, |kept|)
      invariant Masks(space, text, kept, Placeholder, Masked(masked, bodies, swaps))
      invariant masked == Upto(text, kept, Placeholder, |kept|)
    {
      var element := elements[i];
      ghost var next := Kept(space, text, elements, i + 1);
      var normal := Normalize(space, Inside(text, element));
      if normal.Some? {
        ghost var was := Masked(masked, bodies, swaps);
        assert next == kept + [element] && next[..|next| - 1] == kept;
        var token := Placeholder(|bodies|);
        var before := masked + text[cursor..element.start];
        UptoNext(text, kept, next, Placeholder);
        swaps := swaps + [Swap(|before|, |token|, element.end - element.start)];
        masked := before + token;
        cursor := element.end;
        bodies := bodies + [normal.value];
        MaskOne(space, text, kept, next, Placeholder, was, normal.value, Masked(masked, bodies, swaps));
        kept := next;
      }
    }
    if bodies == [] {
      return None;
    }
    m := Some(Masked(masked + text[cursor..], bodies, swaps));
    MasksText(space, text, kept, Masked(masked, bodies, swaps), m.value.text);
  }

  lemma UptoNext(text: Text, bodies: seq<Body>, more: seq<Body>, fill: nat -> Text)
    requires InOrder(text, bodies) && InOrder(text, more) && |more| == |bodies| + 1 && bodies <= more
    ensures EndOf(bodies, |bodies|) <= more[|bodies|].start
    ensures var before := Upto(text, bodies, fill, |bodies|) + text[EndOf(bodies, |bodies|)..more[|bodies|].start];
      Upto(text, more, fill, |more|) == before + fill(|bodies|) && FillStart(text, more, fill, |bodies|) == |before|
  {
    UptoPrefix(text, bodies, more, fill, |bodies|);
  }

  lemma InitialMask(space: char -> bool, text: Text)
    ensures Masks(space, text, [], Placeholder, Masked([], [], [])) && Upto(text, [], Placeholder, 0) == []
  {
    hide Placeholder;
  }

  lemma MasksText(space: char -> bool, text: Text, bodies: seq<Body>, m: Masked, other: Text)
    requires InOrder(text, bodies) && Masks(space, text, bodies, Placeholder, m)
    ensures Masks(space, text, bodies, Placeholder, m.(text := other))
  {
    hide Placeholder;
  }

  // ----- offsets -----

  /** The offset in the text of an offset in the filled text, by the first `n` fills. */
  ghost function Original(text: Text, bodies: seq<Body>, fill: nat -> Text, o: nat, n: nat): (r: int)
    requires InOrder(text, bodies) && n <= |bodies|
  {
    if n == 0 then o
    else if o < FillStart(text, bodies, fill, n - 1) then Original(text, bodies, fill, o, n - 1)
    else if o < |Upto(text, bodies, fill, n)| then bodies[n - 1].start
    else o - |Upto(text, bodies, fill, n)| + bodies[n - 1].end
  }

  /** Past the last fill looked at, the text is shifted by what they stand for. */
  lemma OriginalPast(text: Text, bodies: seq<Body>, fill: nat -> Text, o: nat, n: nat)
    requires InOrder(text, bodies) && n <= |bodies| && o >= |Upto(text, bodies, fill, n)|
    ensures Original(text, bodies, fill, o, n) == o - |Upto(text, bodies, fill, n)| + EndOf(bodies, n)
  {
    if n > 0 {
      assert FillStart(text, bodies, fill, n - 1) <= o;
    }
  }

  /** A fill that begins later changes nothing, nor does any after it. */
  lemma {:induction false} OriginalBefore(text: Text, bodies: seq<Body>, fill: nat -> Text, o: nat, k: nat, n: nat)
    requires InOrder(text, bodies) && k <= n <= |bodies|
    requires k < n ==> o < FillStart(text, bodies, fill, k)
    ensures Original(text, bodies, fill, o, n) == Original(text, bodies, fill, o, k)
    ensures k < n ==> o < FillStart(text, bodies, fill, n - 1)
    decreases n
  {
    hide Upto, FillStart;
    if k < n {
      OriginalBefore(text, bodies, fill, o, k, n - 1);
      if k < n - 1 {
        assert FillStart(text, bodies, fill, n - 2) <= |Upto(text, bodies, fill, n - 1)| <= FillStart(text, bodies, fill, n - 1);
      }
    }
  }

  method OriginalOffset(
    m: Masked, offset: nat, ghost space: char -> bool, ghost text: Text, ghost bodies: seq<Body>, ghost fill: nat -> Text
  ) returns (r: nat)
    requires InOrder(text, bodies) && Masks(space, text, bodies, fill, m)
    ensures r == Original(text, bodies, fill, offset, |bodies|)
  {
    hide Normalize, Upto, FillStart;
    var shifted: nat := offset;
    for i := 0 to |m.swaps|
      invariant shifted == Original(text, bodies, fill, offset, i)
    {
      var swap := m.swaps[i];
      if offset < swap.start {
        OriginalBefore(text, bodies, fill, offset, i, |bodies|);
        return shifted;
      }
      OffsetStep(text, bodies, fill, offset, i);
      if offset < swap.start + swap.token {
        var into: nat := offset - swap.start;
        shifted := shifted - into;
      } else {
        shifted := shifted - swap.token;
        shifted := shifted + swap.body;
      }
    }
    r := shifted;
  }

  lemma OffsetStep(text: Text, bodies: seq<Body>, fill: nat -> Text, o: nat, i: nat)
    requires InOrder(text, bodies) && i < |bodies| && o >= FillStart(text, bodies, fill, i)
    ensures var into := o - FillStart(text, bodies, fill, i);
      var before := Original(text, bodies, fill, o, i);
      into <= before
      && Original(text, bodies, fill, o, i + 1)
         == if into < |fill(i)| then before - into else before - |fill(i)| + (bodies[i].end - bodies[i].start)
  {
    OriginalPast(text, bodies, fill, o, i);
  }

  predicate InFill(text: Text, bodies: seq<Body>, fill: nat -> Text, k: nat, o: nat)
    requires InOrder(text, bodies) && k < |bodies|
  {
    FillStart(text, bodies, fill, k) <= o < |Upto(text, bodies, fill, k + 1)|
  }

  /** An offset inside a fill goes to where its body begins. */
  lemma InsideFill(text: Text, bodies: seq<Body>, fill: nat -> Text, o: nat, k: nat)
    requires InOrder(text, bodies) && k < |bodies| && InFill(text, bodies, fill, k, o)
    ensures Original(text, bodies, fill, o, |bodies|) == bodies[k].start
  {
    hide Upto;
    OriginalBefore(text, bodies, fill, o, k + 1, |bodies|);
  }

  /** The fills an offset is between, if it is in none. */
  lemma {:induction false} GapOf(text: Text, bodies: seq<Body>, fill: nat -> Text, o: nat, n: nat) returns (k: nat)
    requires InOrder(text, bodies) && n <= |bodies| && forall i :: 0 <= i < n ==> !InFill(text, bodies, fill, i, o)
    ensures k <= n && |Upto(text, bodies, fill, k)| <= o && (k < n ==> o < FillStart(text, bodies, fill, k))
    decreases n
  {
    hide FillStart, Upto, InOrder;
    UptoNone(text, bodies, fill);
    if n == 0 || |Upto(text, bodies, fill, n)| <= o {
      k := n;
    } else {
      k := GapOf(text, bodies, fill, o, n - 1);
      assert !InFill(text, bodies, fill, n - 1, o);
    }
  }

  /** Where the text between two bodies ends. */
  function GapEnd(text: Text, bodies: seq<Body>, k: nat): nat
    requires InOrder(text, bodies) && k <= |bodies|
  {
    if k < |bodies| then bodies[k].start else |text|
  }

  lemma {:induction false} UptoGrows(text: Text, bodies: seq<Body>, fill: nat -> Text, k: nat, n: nat)
    requires InOrder(text, bodies) && k <= n <= |bodies|
    ensures Upto(text, bodies, fill, k) <= Upto(text, bodies, fill, n)
    decreases n
  {
    if k < n {
      UptoGrows(text, bodies, fill, k, n - 1);
    }
  }

  /** The text between two bodies is there between their fills. */
  lemma GapIsThere(text: Text, bodies: seq<Body>, fill: nat -> Text, k: nat, o: nat)
    requires InOrder(text, bodies) && k <= |bodies|
    requires |Upto(text, bodies, fill, k)| <= o < |Upto(text, bodies, fill, k)| + GapEnd(text, bodies, k) - EndOf(bodies, k)
    ensures o < |Filled(text, bodies, fill)|
    ensures Filled(text, bodies, fill)[o] == text[o - |Upto(text, bodies, fill, k)| + EndOf(bodies, k)]
  {
    hide Upto, InOrder;
    if k < |bodies| {
      GapThere(text, bodies, fill, k, o);
      UptoGrows(text, bodies, fill, k + 1, |bodies|);
    }
  }

  lemma GapThere(text: Text, bodies: seq<Body>, fill: nat -> Text, k: nat, o: nat)
    requires InOrder(text, bodies) && k < |bodies|
    requires |Upto(text, bodies, fill, k)| <= o < |Upto(text, bodies, fill, k)| + bodies[k].start - EndOf(bodies, k)
    ensures o < |Upto(text, bodies, fill, k + 1)|
    ensures Upto(text, bodies, fill, k + 1)[o] == text[o - |Upto(text, bodies, fill, k)| + EndOf(bodies, k)]
  {
  }

  lemma {:induction false} Ordered(text: Text, bodies: seq<Body>, i: nat, j: nat)
    requires InOrder(text, bodies) && i <= j < |bodies|
    ensures bodies[i].start <= bodies[j].start && bodies[i].end <= bodies[j].end
    decreases j
  {
    if i < j {
      Ordered(text, bodies, i, j - 1);
      assert bodies[j - 1].end <= bodies[(j - 1) + 1].start;
    }
  }

  lemma BetweenBodies(text: Text, bodies: seq<Body>, k: nat, r: nat)
    requires InOrder(text, bodies) && k <= |bodies| && EndOf(bodies, k) <= r < GapEnd(text, bodies, k)
    ensures forall i :: 0 <= i < |bodies| ==> !(bodies[i].start <= r < bodies[i].end)
  {
    forall i | 0 <= i < |bodies| ensures !(bodies[i].start <= r < bodies[i].end) {
      if i < k {
        Ordered(text, bodies, i, k - 1);
      } else {
        Ordered(text, bodies, k, i);
      }
    }
  }

  /** Any other offset goes to the same character, outside of every body; the end goes to the end. */
  lemma OutsideFills(text: Text, bodies: seq<Body>, fill: nat -> Text, o: nat)
    requires InOrder(text, bodies) && o <= |Filled(text, bodies, fill)|
    requires forall k :: 0 <= k < |bodies| ==> !InFill(text, bodies, fill, k, o)
    ensures var r := Original(text, bodies, fill, o, |bodies|);
      && (o == |Filled(text, bodies, fill)| ==> r == |text|)
      && (o < |Filled(text, bodies, fill)| ==>
            && 0 <= r < |text| && text[r] == Filled(text, bodies, fill)[o]
            && forall i :: 0 <= i < |bodies| ==> !(bodies[i].start <= r < bodies[i].end))
  {
    var k := GapOf(text, bodies, fill, o, |bodies|);
    OriginalBefore(text, bodies, fill, o, k, |bodies|);
    OriginalPast(text, bodies, fill, o, k);
    UptoGrows(text, bodies, fill, k, |bodies|);
    if o < |Filled(text, bodies, fill)| {
      InGap(text, bodies, fill, k, o);
      GapIsThere(text, bodies, fill, k, o);
      BetweenBodies(text, bodies, k, o - |Upto(text, bodies, fill, k)| + EndOf(bodies, k));
    } else {
      AtEnd(text, bodies, fill, k, o);
    }
  }

  lemma InGap(text: Text, bodies: seq<Body>, fill: nat -> Text, k: nat, o: nat)
    requires InOrder(text, bodies) && k <= |bodies| && |Upto(text, bodies, fill, k)| <= o < |Filled(text, bodies, fill)|
    requires k < |bodies| ==> o < FillStart(text, bodies, fill, k)
    ensures o < |Upto(text, bodies, fill, k)| + GapEnd(text, bodies, k) - EndOf(bodies, k)
  {
  }

  lemma AtEnd(text: Text, bodies: seq<Body>, fill: nat -> Text, k: nat, o: nat)
    requires InOrder(text, bodies) && k <= |bodies| && o == |Filled(text, bodies, fill)|
    requires k < |bodies| ==> o < FillStart(text, bodies, fill, k)
    ensures k == |bodies|
  {
    if k < |bodies| {
      UptoGrows(text, bodies, fill, k + 1, |bodies|);
    }
  }

  /** Offsets keep their order. */
  lemma {:induction false} OffsetsKeepOrder(text: Text, bodies: seq<Body>, fill: nat -> Text, o: nat, p: nat, n: nat)
    requires InOrder(text, bodies) && n <= |bodies| && o <= p
    ensures Original(text, bodies, fill, o, n) <= Original(text, bodies, fill, p, n)
    decreases n
  {
    hide Upto, FillStart;
    if n > 0 {
      var start := FillStart(text, bodies, fill, n - 1);
      if p < start {
        OffsetsKeepOrder(text, bodies, fill, o, p, n - 1);
      } else if o < start {
        OffsetsKeepOrder(text, bodies, fill, o, start, n - 1);
        StartOf(text, bodies, fill, n - 1);
      }
    }
  }

  lemma StartOf(text: Text, bodies: seq<Body>, fill: nat -> Text, k: nat)
    requires InOrder(text, bodies) && k < |bodies|
    ensures Original(text, bodies, fill, FillStart(text, bodies, fill, k), k) == bodies[k].start
  {
    OriginalPast(text, bodies, fill, FillStart(text, bodies, fill, k), k);
  }
}
