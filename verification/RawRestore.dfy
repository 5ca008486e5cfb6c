/**
Raw blocks put back into the formatted document.
*/
module RawRestore {
  import opened Options
  import opened Placeholders
  import opened RawBlocks

  // ----- putting back -----

  predicate Blank(space: char -> bool, s: Text) {
    Skip(space, s) == |s|
  }

  /** `body` in place of what is between the tags around `out[at..past]`. */
  function ReplaceAround(space: char -> bool, out: Text, at: nat, past: nat, body: Text): Option<Text>
    requires at <= past <= |out|
  {
    var open := After(out[..at], '>');
    var close := past + At(out[past..], '<');
    if open == 0 || close == |out| then None else
      var line := After(out[..close], '\n');
      var end := if line > open && Blank(space, out[line..close]) then line else close;
      Some(out[..open] + "\n" + body + "\n" + out[end..])
  }

  function RestoreOne(space: char -> bool, out: Text, index: nat, body: Text): Option<Text> {
    var token := Placeholder(index);
    var at := Find(out, token);
    if at.None? then None else ReplaceAround(space, out, at.value, at.value + |token|, body)
  }

  function RestoreUpto(space: char -> bool, formatted: Text, bodies: seq<Text>, n: nat): Option<Text>
    requires n <= |bodies|
  {
    if n == 0 then Some(formatted) else
      var out := RestoreUpto(space, formatted, bodies, n - 1);
      if out.None? then None else RestoreOne(space, out.value, n - 1, bodies[n - 1])
  }

  lemma {:induction false} NoneStays(space: char -> bool, formatted: Text, bodies: seq<Text>, k: nat, n: nat)
    requires k <= n <= |bodies| && RestoreUpto(space, formatted, bodies, k).None?
    ensures RestoreUpto(space, formatted, bodies, n).None?
    decreases n
  {
    hide RestoreOne;
    if k < n {
      NoneStays(space, formatted, bodies, k, n - 1);
    }
  }

  method Restore(space: char -> bool, m: Masked, formatted: Text) returns (r: Option<Text>)
    ensures r == RestoreUpto(space, formatted, m.bodies, |m.bodies|)
  {
    hide Placeholder, RestoreOne;
    var out := formatted;
    for index := 0 to |m.bodies|
      invariant RestoreUpto(space, formatted, m.bodies, index) == Some(out)
    {
      var next := RestoreOne(space, out, index, m.bodies[index]);
      if next.None? {
        NoneStays(space, formatted, m.bodies, index + 1, |m.bodies|);
        return None;
      }
      out := next.value;
    }
    r := Some(out);
  }

  /** What the formatter left around a placeholder, between the tags. */
  datatype Slot = Slot(before: Text, after: Text)

  /** The last line of what follows the placeholder, when it only indents the closing tag. */
  function Indent(space: char -> bool, after: Text): (r: Text)
    ensures |r| <= |after| && r == after[|after| - |r|..]
  {
    var line := After(after, '\n');
    if line > 0 && Blank(space, after[line..]) then after[line..] else []
  }

  lemma RestoresOne(space: char -> bool, pre: Text, slot: Slot, index: nat, post: Text, body: Text)
    requires pre != [] && pre[|pre| - 1] == '>' && post != [] && post[0] == '<' && !space('_')
    requires '>' !in slot.before && '<' !in slot.after && Free(pre + slot.before)
    ensures RestoreOne(space, pre + slot.before + Placeholder(index) + slot.after + post, index, body)
         == Some(pre + "\n" + body + "\n" + Indent(space, slot.after) + post)
  {
    hide Placeholder, Find, Free, ReplaceAround;
    var token := Placeholder(index);
    var head := pre + slot.before;
    FoundWherePut(head, index, slot.after + post);
    assert head + token + (slot.after + post) == head + token + slot.after + post;
    Replaces(space, pre, slot, token, post, body);
  }

  lemma Replaces(space: char -> bool, pre: Text, slot: Slot, token: Text, post: Text, body: Text)
    requires pre != [] && pre[|pre| - 1] == '>' && post != [] && post[0] == '<' && !space('_')
    requires '>' !in slot.before && '<' !in slot.after && token != [] && token[|token| - 1] == '_'
    ensures var at := |pre + slot.before|;
      ReplaceAround(space, pre + slot.before + token + slot.after + post, at, at + |token|, body)
      == Some(pre + "\n" + body + "\n" + Indent(space, slot.after) + post)
  {
    hide Indent, Blank, After, At;
    var head := pre + slot.before + token;
    var out := head + slot.after + post;
    var close := |head + slot.after|;
    AroundToken(pre, slot, token, post);
    LineOf(space, head, slot.after, |pre|);
    assert pre + (slot.before + token) == head;
    var n, line := |Indent(space, slot.after)|, After(out[..close], '\n');
    Splits(pre, slot.before + token, slot.after, post, n, line);
    assert out[line..close] == (head + slot.after)[line..];
    assert out[close - n..] == Indent(space, slot.after) + post;
    assert pre + "\n" + body + "\n" + Indent(space, slot.after) + post
        == out[..|pre|] + "\n" + body + "\n" + out[close - n..];
  }

  lemma AroundToken(pre: Text, slot: Slot, token: Text, post: Text)
    requires pre != [] && pre[|pre| - 1] == '>' && post != [] && post[0] == '<'
    requires '>' !in slot.before && '<' !in slot.after
    ensures var head := pre + slot.before;
      var out := head + token + slot.after + post;
      && After(out[..|head|], '>') == |pre|
      && At(out[|head| + |token|..], '<') == |slot.after|
      && out[..|head| + |token| + |slot.after|] == head + token + slot.after
  {
    hide After, At;
    var head := pre + slot.before;
    var out := head + token + slot.after + post;
    assert out[..|head|] == head;
    LastOf(pre, slot.before, '>');
    assert out[|head| + |token|..] == slot.after + post;
    FirstOf(slot.after, post, '<');
  }

  lemma Splits(pre: Text, middle: Text, after: Text, post: Text, n: nat, line: nat)
    requires n <= |after| && line <= |pre + middle + after|
    ensures var whole := pre + middle + after;
      && (whole + post)[..|pre|] == pre
      && (whole + post)[|whole| - n..] == after[|after| - n..] + post
      && (whole + post)[line..|whole|] == whole[line..]
  {
    var whole := pre + middle + after;
    assert (whole + post)[..|pre|] == pre;
    assert (whole + post)[|whole| - n..] == after[|after| - n..] + post;
    assert (whole + post)[line..|whole|] == whole[line..];
  }

  lemma LastOf(s: Text, t: Text, c: char)
    requires s != [] && s[|s| - 1] == c && c !in t
    ensures After(s + t, c) == |s|
  {
    assert (s + t)[|s| - 1] == c;
  }

  lemma FirstOf(s: Text, t: Text, c: char)
    requires t != [] && t[0] == c && c !in s
    ensures At(s + t, c) == |s|
  {
    assert (s + t)[|s|] == c;
  }

  /** The closing tag's own indentation stays. */
  lemma LineOf(space: char -> bool, head: Text, after: Text, open: nat)
    requires head != [] && open <= |head| && head[|head| - 1] == '_' && !space('_')
    ensures var s := head + after;
      var line := After(s, '\n');
      (if line > open && Blank(space, s[line..]) then line else |s|) == |s| - |Indent(space, after)|
  {
    var s := head + after;
    var line := After(s, '\n');
    var own := After(after, '\n');
    hide After;
    if own > 0 {
      assert s[|head| + own - 1] == '\n';
      assert line == |head| + own;
      assert s[line..] == after[own..];
    } else if line < |head| {
      assert s[line..][|head| - 1 - line] == '_';
    }
  }

  /** From the `i`th stretch of the formatted document on. */
  ghost function Rest(outer: seq<Text>, slots: seq<Slot>, i: nat): Text
    requires |outer| == |slots| + 1 && i <= |slots|
    decreases |slots| - i
  {
    outer[i] + if i == |slots| then [] else slots[i].before + Placeholder(i) + slots[i].after + Rest(outer, slots, i + 1)
  }

  /** What comes before the `i`th stretch, with the bodies put back. */
  ghost function Done(space: char -> bool, outer: seq<Text>, slots: seq<Slot>, bodies: seq<Text>, i: nat): Text
    requires |outer| == |slots| + 1 && |bodies| == |slots| && i <= |slots|
  {
    if i == 0 then [] else
      Done(space, outer, slots, bodies, i - 1) + outer[i - 1] + "\n" + bodies[i - 1] + "\n" + Indent(space, slots[i - 1].after)
  }

  /** A formatted document that still has every placeholder, in order, alone between its tags. */
  ghost predicate Framed(outer: seq<Text>, slots: seq<Slot>, bodies: seq<Text>) {
    && |outer| == |slots| + 1 && |bodies| == |slots|
    && (forall i :: 0 <= i < |slots| ==> outer[i] != [] && outer[i][|outer[i]| - 1] == '>')
    && (forall i :: 0 < i <= |slots| ==> outer[i] != [] && outer[i][0] == '<')
    && (forall i :: 0 <= i < |slots| ==> '>' !in slots[i].before && '<' !in slots[i].after)
    && (forall i :: 0 <= i < |outer| ==> Free(outer[i]))
    && (forall i :: 0 <= i < |slots| ==> Free(slots[i].before) && Free(slots[i].after) && Free(bodies[i]))
  }

  lemma FreePart(s: Text, a: nat, b: nat)
    requires Free(s) && a <= b <= |s|
    ensures Free(s[a..b])
  {
    hide Find;
    forall i | 0 <= i <= |s[a..b]| ensures !OccursAt(s[a..b], MARK, i) {
      if OccursAt(s[a..b], MARK, i) {
        PartOccurs(s, a, b, i);
      }
    }
  }

  lemma PartOccurs(s: Text, a: nat, b: nat, i: nat)
    requires a <= b <= |s| && OccursAt(s[a..b], MARK, i)
    ensures OccursAt(s, MARK, a + i)
  {
    SliceOfSlice(s, a, b, i, i + |MARK|);
  }

  lemma SliceOfSlice(s: Text, a: nat, b: nat, i: nat, j: nat)
    requires a <= b <= |s| && i <= j <= b - a
    ensures s[a..b][i..j] == s[a + i..a + j]
  {
    assert forall k :: 0 <= k < j - i ==> s[a..b][i..j][k] == s[a..b][i + k] == s[a + i..a + j][k];
  }

  lemma FreeLine(body: Text)
    requires Free(body)
    ensures Free("\n" + body + "\n")
  {
    var nl := "\n";
    assert Free(nl);
    FreeJoin(nl, body);
    FreeJoin(nl + body, nl);
  }

  lemma {:induction false} FreeDone(space: char -> bool, outer: seq<Text>, slots: seq<Slot>, bodies: seq<Text>, i: nat)
    requires Framed(outer, slots, bodies) && i <= |slots|
    ensures Free(Done(space, outer, slots, bodies, i) + outer[i])
    ensures Done(space, outer, slots, bodies, i) == [] || i > 0
    decreases i
  {
    hide Find, Free;
    if i == 0 {
      assert [] + outer[0] == outer[0];
    } else {
      FreeDone(space, outer, slots, bodies, i - 1);
      var before := Done(space, outer, slots, bodies, i - 1) + outer[i - 1];
      FreeNext(space, before, bodies[i - 1], slots[i - 1].after, outer[i]);
    }
  }

  lemma FreeNext(space: char -> bool, before: Text, body: Text, after: Text, next: Text)
    requires Free(before) && Free(body) && Free(after) && Free(next) && next != [] && next[0] == '<'
    ensures Free(before + "\n" + body + "\n" + Indent(space, after) + next)
  {
    hide Find, Free, Indent;
    var indent := Indent(space, after);
    var line := "\n" + body + "\n";
    FreeLine(body);
    FreeJoin(before, line);
    FreePart(after, |after| - |indent|, |after|);
    assert indent == after[|after| - |indent|..|after|];
    FreeJoin(before + line, indent);
    FreeJoin(before + line + indent, next);
    assert before + "\n" + body + "\n" + indent + next == before + line + indent + next;
  }

  lemma NoneRestored(space: char -> bool, outer: seq<Text>, slots: seq<Slot>, bodies: seq<Text>)
    requires |outer| == |slots| + 1 && |bodies| == |slots|
    ensures RestoreUpto(space, Rest(outer, slots, 0), bodies, 0) == Some(Done(space, outer, slots, bodies, 0) + Rest(outer, slots, 0))
  {
    hide Rest, RestoreOne;
    assert [] + Rest(outer, slots, 0) == Rest(outer, slots, 0);
  }

  lemma OneRestored(space: char -> bool, formatted: Text, bodies: seq<Text>, i: nat, out: Text)
    requires i < |bodies| && RestoreUpto(space, formatted, bodies, i) == Some(out)
    ensures RestoreUpto(space, formatted, bodies, i + 1) == RestoreOne(space, out, i, bodies[i])
  {
    hide RestoreOne;
  }

  /** Every body is put back where its placeholder was, one after another. */
  lemma {:induction false} RestoresUpto(space: char -> bool, outer: seq<Text>, slots: seq<Slot>, bodies: seq<Text>, i: nat)
    requires |outer| == |slots| + 1 && |bodies| == |slots| && Framed(outer, slots, bodies) && i <= |slots| && !space('_')
    ensures RestoreUpto(space, Rest(outer, slots, 0), bodies, i) == Some(Done(space, outer, slots, bodies, i) + Rest(outer, slots, i))
    decreases i
  {
    hide *;
    if i == 0 {
      NoneRestored(space, outer, slots, bodies);
    } else {
      RestoresUpto(space, outer, slots, bodies, i - 1);
      FreeDone(space, outer, slots, bodies, i - 1);
      RestoresNext(space, outer, slots, bodies, i - 1);
      OneRestored(space, Rest(outer, slots, 0), bodies, i - 1, Done(space, outer, slots, bodies, i - 1) + Rest(outer, slots, i - 1));
    }
  }

  lemma DoneNext(space: char -> bool, outer: seq<Text>, slots: seq<Slot>, bodies: seq<Text>, i: nat)
    requires |outer| == |slots| + 1 && |bodies| == |slots| && i < |slots|
    ensures Done(space, outer, slots, bodies, i + 1) == Done(space, outer, slots, bodies, i) + outer[i] + "\n" + bodies[i] + "\n" + Indent(space, slots[i].after)
    ensures Rest(outer, slots, i) == outer[i] + (slots[i].before + Placeholder(i) + slots[i].after + Rest(outer, slots, i + 1))
  {
    hide Indent, Placeholder;
  }

  lemma NextTags(outer: seq<Text>, slots: seq<Slot>, bodies: seq<Text>, i: nat)
    requires Framed(outer, slots, bodies) && i < |slots|
    ensures outer[i] != [] && outer[i][|outer[i]| - 1] == '>' && Rest(outer, slots, i + 1) != [] && Rest(outer, slots, i + 1)[0] == '<'
    ensures '>' !in slots[i].before && '<' !in slots[i].after && Free(slots[i].before)
  {
    hide Free, Placeholder;
  }

  lemma RestoresNext(space: char -> bool, outer: seq<Text>, slots: seq<Slot>, bodies: seq<Text>, i: nat)
    requires |outer| == |slots| + 1 && |bodies| == |slots| && Framed(outer, slots, bodies) && i < |slots| && !space('_')
    requires Free(Done(space, outer, slots, bodies, i) + outer[i])
    ensures RestoreOne(space, Done(space, outer, slots, bodies, i) + Rest(outer, slots, i), i, bodies[i])
         == Some(Done(space, outer, slots, bodies, i + 1) + Rest(outer, slots, i + 1))
  {
    hide Find, Free, RestoreOne, Placeholder, Framed, Rest, Done, Indent;
    var pre := Done(space, outer, slots, bodies, i) + outer[i];
    var slot, post := slots[i], Rest(outer, slots, i + 1);
    NextTags(outer, slots, bodies, i);
    FreeJoin(pre, slot.before);
    RestoresOne(space, pre, slot, i, post, bodies[i]);
    DoneNext(space, outer, slots, bodies, i);
    Regroup(Done(space, outer, slots, bodies, i), outer[i], slot.before, Placeholder(i), slot.after, post);
  }

  lemma Regroup(a: Text, b: Text, c: Text, d: Text, e: Text, f: Text)
    ensures a + (b + (c + d + e + f)) == a + b + c + d + e + f
  {
  }

  // ----- the round trip -----

  /** Bodies as the scanner finds them: between an opening tag's `>` and a closing tag's `<`. */
  ghost predicate Tagged(text: Text, bodies: seq<Body>)
    requires InOrder(text, bodies)
  {
    && (forall i :: 0 <= i < |bodies| ==> 0 < bodies[i].start && text[bodies[i].start - 1] == '>')
    && (forall i :: 0 <= i < |bodies| ==> bodies[i].end < |text| && text[bodies[i].end] == '<')
    && (forall i :: 0 <= i < |bodies| - 1 ==> bodies[i].end < bodies[i + 1].start)
  }

  /** Each body on lines of its own. */
  ghost function Wrapped(bodies: seq<Text>): nat -> Text {
    (i: nat) => if i < |bodies| then "\n" + bodies[i] + "\n" else []
  }

  ghost function Outer(text: Text, bodies: seq<Body>): (o: seq<Text>)
    requires InOrder(text, bodies)
    ensures |o| == |bodies| + 1
  {
    seq(|bodies| + 1, i requires 0 <= i <= |bodies| => Gap(text, bodies, i))
  }

  ghost function Gap(text: Text, bodies: seq<Body>, i: nat): Text
    requires InOrder(text, bodies) && i <= |bodies|
  {
    GapInOrder(text, bodies, i);
    text[EndOf(bodies, i)..GapEnd(text, bodies, i)]
  }

  lemma GapInOrder(text: Text, bodies: seq<Body>, i: nat)
    requires InOrder(text, bodies) && i <= |bodies|
    ensures EndOf(bodies, i) <= GapEnd(text, bodies, i) <= |text|
  {
    if 0 < i < |bodies| {
      assert bodies[i - 1].end <= bodies[(i - 1) + 1].start;
    }
  }

  ghost function Bare(n: nat): (s: seq<Slot>)
    ensures |s| == n && forall i :: 0 <= i < n ==> s[i] == Slot([], [])
  {
    seq(n, _ => Slot([], []))
  }

  lemma RestHere(text: Text, bodies: seq<Body>, i: nat)
    requires InOrder(text, bodies) && i <= |bodies|
    ensures Rest(Outer(text, bodies), Bare(|bodies|), i)
         == if i == |bodies| then Gap(text, bodies, i)
            else Gap(text, bodies, i) + Placeholder(i) + Rest(Outer(text, bodies), Bare(|bodies|), i + 1)
  {
    hide Placeholder, Gap, InOrder;
    var outer, slots := Outer(text, bodies), Bare(|bodies|);
    if i < |bodies| {
      assert slots[i] == Slot([], []);
      assert outer[i] + ([] + Placeholder(i) + [] + Rest(outer, slots, i + 1)) == outer[i] + Placeholder(i) + Rest(outer, slots, i + 1);
    }
  }

  lemma UptoHere(text: Text, bodies: seq<Body>, fill: nat -> Text, i: nat)
    requires InOrder(text, bodies) && i < |bodies|
    ensures Upto(text, bodies, fill, i + 1) == Upto(text, bodies, fill, i) + Gap(text, bodies, i) + fill(i)
  {
  }

  lemma {:induction false} RestIs(text: Text, bodies: seq<Body>, i: nat)
    requires InOrder(text, bodies) && i <= |bodies|
    ensures Upto(text, bodies, Placeholder, i) + Rest(Outer(text, bodies), Bare(|bodies|), i) == Filled(text, bodies, Placeholder)
    decreases |bodies| - i
  {
    hide Placeholder, Rest, Upto, InOrder, Outer, Bare;
    RestHere(text, bodies, i);
    if i == |bodies| {
      GapLast(text, bodies);
    } else {
      RestIs(text, bodies, i + 1);
      UptoHere(text, bodies, Placeholder, i);
      RestStep(Upto(text, bodies, Placeholder, i), Gap(text, bodies, i), Placeholder(i), Rest(Outer(text, bodies), Bare(|bodies|), i + 1));
    }
  }

  lemma GapLast(text: Text, bodies: seq<Body>)
    requires InOrder(text, bodies)
    ensures Gap(text, bodies, |bodies|) == text[EndOf(bodies, |bodies|)..]
  {
  }

  lemma RestStep(a: Text, b: Text, c: Text, d: Text)
    ensures a + (b + c + d) == a + b + c + d
  {
  }

  lemma DoneHere(space: char -> bool, text: Text, bodies: seq<Body>, normal: seq<Text>, i: nat)
    requires InOrder(text, bodies) && |normal| == |bodies| && i < |bodies|
    ensures Done(space, Outer(text, bodies), Bare(|bodies|), normal, i + 1)
         == Done(space, Outer(text, bodies), Bare(|bodies|), normal, i) + Gap(text, bodies, i) + Wrapped(normal)(i)
  {
    hide Gap, InOrder, Indent;
    var outer, slots := Outer(text, bodies), Bare(|bodies|);
    assert slots[i] == Slot([], []) && outer[i] == Gap(text, bodies, i);
    assert Indent(space, []) == [];
    OnLines(Done(space, outer, slots, normal, i) + outer[i], normal[i]);
  }

  lemma OnLines(a: Text, b: Text)
    ensures a + "\n" + b + "\n" + [] == a + ("\n" + b + "\n")
  {
  }

  lemma {:induction false} DoneIs(space: char -> bool, text: Text, bodies: seq<Body>, normal: seq<Text>, i: nat)
    requires InOrder(text, bodies) && |normal| == |bodies| && i <= |bodies|
    ensures Done(space, Outer(text, bodies), Bare(|bodies|), normal, i) == Upto(text, bodies, Wrapped(normal), i)
    decreases i
  {
    hide Wrapped, InOrder, Outer, Bare, Upto, Done;
    if i == 0 {
      UptoNone(text, bodies, Wrapped(normal));
      assert Done(space, Outer(text, bodies), Bare(|bodies|), normal, 0) == [] by {
        DoneNone(space, Outer(text, bodies), Bare(|bodies|), normal);
      }
    } else {
      DoneIs(space, text, bodies, normal, i - 1);
      DoneHere(space, text, bodies, normal, i - 1);
      UptoHere(text, bodies, Wrapped(normal), i - 1);
    }
  }

  lemma DoneNone(space: char -> bool, outer: seq<Text>, slots: seq<Slot>, bodies: seq<Text>)
    requires |outer| == |slots| + 1 && |bodies| == |slots|
    ensures Done(space, outer, slots, bodies, 0) == []
  {
  }

  lemma NormalIsFree(space: char -> bool, body: Text)
    requires Free(body)
    ensures Normalize(space, body).Some? ==> Free(Normalize(space, body).value)
  {
    hide Free;
    if Normalize(space, body).Some? {
      var from := After(body[..Skip(space, body)], '\n');
      var normal := TrimEnd(space, body[from..]);
      assert normal == body[from..from + |normal|];
      FreePart(body, from, from + |normal|);
    }
  }

  lemma MaskedIsFramed(space: char -> bool, text: Text, bodies: seq<Body>, m: Masked)
    requires InOrder(text, bodies) && Tagged(text, bodies) && Free(text) && Masks(space, text, bodies, Placeholder, m)
    ensures Framed(Outer(text, bodies), Bare(|bodies|), m.bodies)
  {
    hide Placeholder, Free, Normalize, SwapOf;
    var outer := Outer(text, bodies);
    forall i | 0 <= i < |outer| ensures Free(outer[i]) {
      GapInOrder(text, bodies, i);
      FreePart(text, EndOf(bodies, i), GapEnd(text, bodies, i));
    }
    forall i | 0 <= i < |bodies| ensures Free(m.bodies[i]) {
      assert MasksOne(space, text, bodies[i], m.bodies[i]);
      FreePart(text, bodies[i].start, bodies[i].end);
      NormalIsFree(space, Inside(text, bodies[i]));
    }
    assert Free([]) by { FreePart(text, 0, 0); }
    forall i | 0 <= i <= |bodies| ensures (i < |bodies| ==> outer[i] != [] && outer[i][|outer[i]| - 1] == '>')
      && (i > 0 ==> outer[i] != [] && outer[i][0] == '<')
    {
      GapTags(text, bodies, i);
    }
  }

  lemma GapTags(text: Text, bodies: seq<Body>, i: nat)
    requires InOrder(text, bodies) && Tagged(text, bodies) && i <= |bodies|
    ensures i < |bodies| ==> Gap(text, bodies, i) != [] && Gap(text, bodies, i)[|Gap(text, bodies, i)| - 1] == '>'
    ensures i > 0 ==> Gap(text, bodies, i) != [] && Gap(text, bodies, i)[0] == '<'
  {
    if 0 < i < |bodies| {
      assert bodies[i - 1].end < bodies[(i - 1) + 1].start;
    }
  }

  /** Restoring the masked text gives the document with every raw body normalized, and nothing else changed. */
  lemma MaskRestores(space: char -> bool, text: Text, bodies: seq<Body>, m: Masked)
    requires InOrder(text, bodies) && Tagged(text, bodies) && Free(text) && !space('_')
    requires Masks(space, text, bodies, Placeholder, m) && m.text == Filled(text, bodies, Placeholder)
    ensures RestoreUpto(space, m.text, m.bodies, |m.bodies|) == Some(Filled(text, bodies, Wrapped(m.bodies)))
  {
    hide Placeholder, Free, RestoreUpto, Upto, Rest, Done, Wrapped, Framed, Masks, Outer, Bare, Tagged, InOrder;
    var outer, slots, n := Outer(text, bodies), Bare(|bodies|), |bodies|;
    Counted(space, text, bodies, m);
    MaskedIsFramed(space, text, bodies, m);
    GapLast(text, bodies);
    RestIs(text, bodies, 0);
    UptoNone(text, bodies, Placeholder);
    FramedLengths(outer, slots, m.bodies);
    RestoresUpto(space, outer, slots, m.bodies, n);
    DoneIs(space, text, bodies, m.bodies, n);
    RestHere(text, bodies, n);
    assert [] + Rest(outer, slots, 0) == Rest(outer, slots, 0);
  }

  lemma FramedLengths(outer: seq<Text>, slots: seq<Slot>, bodies: seq<Text>)
    requires Framed(outer, slots, bodies)
    ensures |outer| == |slots| + 1 && |bodies| == |slots|
  {
    hide Free;
  }

  lemma Counted(space: char -> bool, text: Text, bodies: seq<Body>, m: Masked)
    requires InOrder(text, bodies) && Masks(space, text, bodies, Placeholder, m)
    ensures |m.bodies| == |bodies|
  {
    hide Placeholder;
  }

  /** A body that was put back normalizes to itself. */
  lemma NormalAgain(space: char -> bool, body: Text)
    requires Normalize(space, body).Some? && space('\n')
    ensures var normal := Normalize(space, body).value;
      Normalize(space, "\n" + normal + "\n") == Some(normal)
  {
    var first := Skip(space, body);
    var from := After(body[..first], '\n');
    NormalKeeps(space, body, first, from);
    NormalOf(space, TrimEnd(space, body[from..]), first - from);
  }

  /** What is dropped is blank: the first character that is not stays, on its own line. */
  lemma NormalKeeps(space: char -> bool, body: Text, first: nat, from: nat)
    requires from <= first < |body| && !space(body[first]) && forall i :: from <= i < first ==> space(body[i]) && body[i] != '\n'
    ensures var normal := TrimEnd(space, body[from..]);
      && |normal| > first - from && !space(normal[first - from])
      && forall i :: 0 <= i < first - from ==> space(normal[i]) && normal[i] != '\n'
  {
    var normal := TrimEnd(space, body[from..]);
    assert body[from..][first - from] == body[first];
    assert forall i :: 0 <= i < |normal| ==> normal[i] == body[from..][i] == body[from + i];
  }

  lemma NormalOf(space: char -> bool, normal: Text, k: nat)
    requires space('\n') && k < |normal| && !space(normal[k]) && !space(normal[|normal| - 1])
    requires forall i :: 0 <= i < k ==> space(normal[i]) && normal[i] != '\n'
    ensures Normalize(space, "\n" + normal + "\n") == Some(normal)
  {
    var again := "\n" + normal + "\n";
    assert forall i :: 0 < i <= |normal| ==> again[i] == normal[i - 1];
    assert forall i :: 0 <= i <= k ==> space(again[i]);
    assert again[k + 1] == normal[k];
    assert Skip(space, again) == k + 1;
    assert After(again[..k + 1], '\n') == 1 by {
      assert again[..k + 1][0] == '\n';
    }
    var tail := again[1..];
    assert tail[..|normal|] == normal && tail[|normal|] == '\n';
    assert tail[|normal| - 1] == normal[|normal| - 1];
    assert |TrimEnd(space, tail)| == |normal|;
  }
}
