/**
The scanners that find raw blocks: the top-level blocks of a Vue component, and
the `script` and `style` elements of an HTML document.
*/
module RawScan {
  import opened Options
  import opened Placeholders
  import opened RawBlocks

  predicate Letter(c: char) {
    'a' <= c <= 'z' || 'A' <= c <= 'Z'
  }

  predicate Alphanumeric(c: char) {
    Letter(c) || '0' <= c <= '9'
  }

  predicate NameChar(c: char) {
    Alphanumeric(c) || c == '-' || c == '_' || c == ':' || c == '.'
  }

  function Lower(c: char): char {
    if 'A' <= c <= 'Z' then c + 32 as char else c
  }

  predicate SameName(a: Text, b: Text) {
    |a| == |b| && forall i :: 0 <= i < |a| ==> Lower(a[i]) == Lower(b[i])
  }

  // ----- tags -----

  /** The first character at or after `i` that no tag name has; the length when there is none. */
  function NameEnd(text: Text, i: nat): (n: nat)
    requires i <= |text|
    ensures i <= n <= |text| && (n < |text| ==> !NameChar(text[n])) && forall k :: i <= k < n ==> NameChar(text[k])
    decreases |text| - i
  {
    if i == |text| || !NameChar(text[i]) then i else NameEnd(text, i + 1)
  }

  /** The quote a tag is inside of behind `c`. */
  function QuoteAfter(quote: Option<char>, c: char): Option<char> {
    match quote
    case Some(q) => if c == q then None else quote
    case None => if c == '"' || c == '\'' then Some(c) else None
  }

  /** Just past the `>` that ends a tag, skipping quoted values; `quote` is the quote `i` is inside of. */
  function TagEnd(text: Text, i: nat, quote: Option<char>): (end: Option<nat>)
    requires i <= |text|
    ensures end.Some? ==> i < end.value <= |text| && text[end.value - 1] == '>'
    decreases |text| - i
  {
    if i == |text| then None
    else if quote.None? && text[i] == '>' then Some(i + 1)
    else if quote.None? && text[i] == '<' then None
    else TagEnd(text, i + 1, QuoteAfter(quote, text[i]))
  }

  /** An opening tag: where its name ends, and just past its `>`. */
  datatype Tag = Tag(nameEnd: nat, end: nat)

  /** The opening tag at `start`. */
  function OpenTag(text: Text, start: nat): (tag: Option<Tag>)
    requires start < |text|
    ensures tag.Some? ==> start + 1 < tag.value.nameEnd < tag.value.end <= |text| && text[tag.value.end - 1] == '>'
  {
    var n := NameEnd(text, start + 1);
    if n == |text| || n == start + 1 || !Letter(text[start + 1]) then None else
      match TagEnd(text, n, None)
      case None => None
      case Some(end) => Some(Tag(n, end))
  }

  predicate SelfClosing(text: Text, end: nat)
    requires end <= |text|
  {
    end >= 2 && text[end - 2] == '/'
  }

  /** `</name` is at `at`, and the name ends there. */
  predicate Closes(text: Text, at: nat, name: Text) {
    && at + 2 + |name| <= |text| && text[at] == '<' && text[at + 1] == '/'
    && SameName(text[at + 2..at + 2 + |name|], name)
    && (at + 2 + |name| == |text| || !(Alphanumeric(text[at + 2 + |name|]) || text[at + 2 + |name|] == '-'))
  }

  /** The first closing tag of that name at or after `from`. */
  function FindClosing(text: Text, from: nat, name: Text): Option<nat>
    requires from <= |text|
    decreases |text| - from
  {
    if from + 2 > |text| then None
    else if text[from] != '<' || text[from + 1] != '/' then FindClosing(text, from + 1, name)
    else if from + 2 + |name| > |text| then None
    else if Closes(text, from, name) then Some(from)
    else FindClosing(text, from + 2, name)
  }

  /** It misses none, though it stops looking where the name would not fit. */
  lemma {:induction false} FirstClosing(text: Text, from: nat, name: Text)
    requires from <= |text|
    ensures match FindClosing(text, from, name)
      case Some(at) => from <= at && Closes(text, at, name) && forall k :: from <= k < at ==> !Closes(text, k, name)
      case None => forall k :: from <= k ==> !Closes(text, k, name)
    decreases |text| - from
  {
    hide SameName;
    if from + 2 <= |text| {
      if text[from] != '<' || text[from + 1] != '/' {
        FirstClosing(text, from + 1, name);
      } else if from + 2 + |name| <= |text| && !Closes(text, from, name) {
        FirstClosing(text, from + 2, name);
        assert !Closes(text, from + 1, name);
      }
    }
  }

  const TEMPLATE: Text := "template"

  /** An opening `template` tag, not closed by itself. */
  predicate OpensTemplate(text: Text, at: nat)
    requires at < |text|
  {
    && text[at] == '<' && OpenTag(text, at).Some?
    && SameName(text[at + 1..OpenTag(text, at).value.nameEnd], TEMPLATE)
    && !SelfClosing(text, OpenTag(text, at).value.end)
  }

  /** How many are between two offsets. */
  function Opens(text: Text, from: nat, end: nat): (n: nat)
    requires from <= end <= |text|
    decreases end
  {
    if from == end then 0 else
      var n := Opens(text, from, end - 1);
      if OpensTemplate(text, end - 1) then n + 1 else n
  }

  /** The `</template` that closes the `depth` templates open at `from`. */
  function ClosingTemplate(text: Text, from: nat, depth: nat): (at: Option<nat>)
    requires from <= |text| && depth > 0
    ensures at.Some? ==> from <= at.value && Closes(text, at.value, TEMPLATE)
    decreases |text| - from
  {
    FirstClosing(text, from, TEMPLATE);
    match FindClosing(text, from, TEMPLATE)
    case None => None
    case Some(close) =>
      var open := depth + Opens(text, from, close) - 1;
      if open == 0 then Some(close) else ClosingTemplate(text, close + 2, open)
  }

  /** How many templates are closed between two offsets. */
  function Closings(text: Text, from: nat, end: nat): (n: nat)
    requires from <= end <= |text|
    decreases end
  {
    if from == end then 0 else Closings(text, from, end - 1) + if Closes(text, end - 1, TEMPLATE) then 1 else 0
  }

  /** A `</template>` that closes the outermost of the `depth` templates open at `from`. */
  predicate EndsNesting(text: Text, from: nat, depth: nat, at: nat)
    requires from <= |text|
  {
    from <= at < |text| && Closes(text, at, TEMPLATE) && depth + Opens(text, from, at) == 1 + Closings(text, from, at)
  }

  lemma {:induction false} CountsAdd(text: Text, from: nat, mid: nat, end: nat)
    requires from <= mid <= end <= |text|
    ensures Opens(text, from, end) == Opens(text, from, mid) + Opens(text, mid, end)
    ensures Closings(text, from, end) == Closings(text, from, mid) + Closings(text, mid, end)
    decreases end
  {
    hide Closes, OpensTemplate;
    if mid < end {
      CountsAdd(text, from, mid, end - 1);
    }
  }

  predicate NoneBetween(text: Text, from: nat, to: nat) {
    forall k :: from <= k < to ==> !Closes(text, k, TEMPLATE)
  }

  /**
  Up to the first closing tag none is counted, and the two characters it begins
  with count as that one alone.
  */
  lemma FirstClose(text: Text, from: nat)
    requires from <= |text|
    ensures var found := FindClosing(text, from, TEMPLATE);
      && (found.None? ==> NoneBetween(text, from, |text|))
      && (found.Some? ==> IsFirstClose(text, from, found.value))
  {
    FirstClosing(text, from, TEMPLATE);
    hide FindClosing;
    var found := FindClosing(text, from, TEMPLATE);
    if found.Some? {
      CountsAtClosing(text, from, found.value);
    }
  }

  predicate IsFirstClose(text: Text, from: nat, close: nat) {
    && from <= close && close + 2 <= |text| && Closes(text, close, TEMPLATE) && NoneBetween(text, from, close) && !Closes(text, close + 1, TEMPLATE)
    && Closings(text, from, close) == 0 && Opens(text, close, close + 2) == 0 && Closings(text, close, close + 2) == 1
  }

  lemma CountsAtClosing(text: Text, from: nat, close: nat)
    requires from <= close && Closes(text, close, TEMPLATE) && forall k :: from <= k < close ==> !Closes(text, k, TEMPLATE)
    ensures IsFirstClose(text, from, close)
  {
    NoneClosed(text, from, close);
    assert text[close] == '<' && text[close + 1] == '/';
    assert !OpensTemplate(text, close) && !OpensTemplate(text, close + 1);
    hide Closes, OpensTemplate;
    assert Opens(text, close, close + 1) == Opens(text, close, close);
    assert Closings(text, close, close + 1) == 1;
  }

  lemma {:induction false} NoneClosed(text: Text, from: nat, end: nat)
    requires from <= end <= |text| && forall k :: from <= k < end ==> !Closes(text, k, TEMPLATE)
    ensures Closings(text, from, end) == 0
    decreases end
  {
    if from < end {
      NoneClosed(text, from, end - 1);
    }
  }

  ghost predicate IsFirstEnd(text: Text, from: nat, depth: nat, r: Option<nat>)
    requires from <= |text|
  {
    match r
    case Some(at) => EndsNesting(text, from, depth, at) && forall k :: from <= k < at ==> !EndsNesting(text, from, depth, k)
    case None => forall k :: from <= k < |text| ==> !EndsNesting(text, from, depth, k)
  }

  /** Counting templates from one closing tag to the next finds the first that ends the nesting. */
  lemma {:induction false} NestingEnds(text: Text, from: nat, depth: nat)
    requires from <= |text| && depth > 0
    ensures IsFirstEnd(text, from, depth, ClosingTemplate(text, from, depth))
    decreases |text| - from
  {
    hide FindClosing, Opens, Closings, IsFirstEnd, ClosingTemplate, IsFirstClose, NoneBetween;
    FirstClose(text, from);
    ClosingTemplateIs(text, from, depth);
    var found := FindClosing(text, from, TEMPLATE);
    if found.None? {
      NoEnd(text, from, depth);
    } else {
      var close := found.value;
      var open := depth + Opens(text, from, close) - 1;
      if open == 0 {
        EndsHere(text, from, depth, close);
      } else {
        NestingEnds(text, close + 2, open);
        LaterEnd(text, from, depth, close, ClosingTemplate(text, close + 2, open));
      }
    }
  }

  lemma ClosingTemplateIs(text: Text, from: nat, depth: nat)
    requires from <= |text| && depth > 0
    ensures match FindClosing(text, from, TEMPLATE)
      case None => ClosingTemplate(text, from, depth) == None
      case Some(close) =>
        && from <= close && close + 2 <= |text|
        && var open := depth + Opens(text, from, close) - 1;
          ClosingTemplate(text, from, depth) == if open == 0 then Some(close) else ClosingTemplate(text, close + 2, open)
  {
    FirstClosing(text, from, TEMPLATE);
    hide FindClosing, Opens;
  }

  lemma NoEnd(text: Text, from: nat, depth: nat)
    requires from <= |text| && NoneBetween(text, from, |text|)
    ensures IsFirstEnd(text, from, depth, None)
  {
    hide Closes;
  }

  lemma EndsHere(text: Text, from: nat, depth: nat, close: nat)
    requires IsFirstClose(text, from, close) && depth + Opens(text, from, close) == 1
    ensures IsFirstEnd(text, from, depth, Some(close))
  {
    hide Closes, Opens, Closings;
  }

  lemma LaterEnd(text: Text, from: nat, depth: nat, close: nat, r: Option<nat>)
    requires IsFirstClose(text, from, close) && depth + Opens(text, from, close) > 1
    requires IsFirstEnd(text, close + 2, depth + Opens(text, from, close) - 1, r)
    ensures IsFirstEnd(text, from, depth, r)
  {
    hide Opens, Closings, Closes;
    forall k | close + 2 <= k < |text|
      ensures EndsNesting(text, from, depth, k) <==> EndsNesting(text, close + 2, depth + Opens(text, from, close) - 1, k)
    {
      CountsAdd(text, from, close, k);
      CountsAdd(text, close, close + 2, k);
    }
    assert forall k :: from <= k < close + 2 ==> k == close || k == close + 1 || !Closes(text, k, TEMPLATE);
    assert forall k :: from <= k < close + 2 ==> !EndsNesting(text, from, depth, k);
    hide EndsNesting;
  }

  // ----- elements -----

  /** An element from its `<`, with the end of its name and its body. */
  datatype Element = Element(start: nat, nameEnd: nat, body: Body)

  function NameOf(text: Text, e: Element): Text
    requires e.start < e.nameEnd <= |text|
  {
    text[e.start + 1..e.nameEnd]
  }

  function TagOf(text: Text, e: Element): Text
    requires e.start <= e.body.start <= |text|
  {
    text[e.start..e.body.start]
  }

  const SCRIPT: Text := "script"

  const STYLE: Text := "style"

  /** What a scanner makes of a `<`. */
  datatype Step = Stop | Pass(next: nat) | Found(element: Element)

  const COMMENT: Text := "<!--"

  const COMMENT_END: Text := "-->"

  /** Where the comment at `start` ends. */
  function CommentEnd(text: Text, start: nat): (n: nat)
    requires start <= |text|
    ensures start <= n <= |text|
  {
    match Find(text, COMMENT_END, start)
    case Some(end) => end + 3
    case None => |text|
  }

  function ElementAt(text: Text, start: nat, tag: Tag, close: Option<nat>): Step {
    match close
    case None => Stop
    case Some(at) => Found(Element(start, tag.nameEnd, Body(tag.end, at)))
  }

  /** In a Vue component: comments are skipped, `template` nests, and any other block ends at its first closing tag. */
  function BlockAt(text: Text, start: nat): Step
    requires start < |text|
  {
    if OccursAt(text, COMMENT, start) then Pass(CommentEnd(text, start)) else
      match OpenTag(text, start)
      case None => Pass(start + 1)
      case Some(tag) =>
        if SelfClosing(text, tag.end) then Pass(tag.end)
        else if SameName(text[start + 1..tag.nameEnd], TEMPLATE) then ElementAt(text, start, tag, ClosingTemplate(text, tag.end, 1))
        else ElementAt(text, start, tag, FindClosing(text, tag.end, text[start + 1..tag.nameEnd]))
  }

  predicate IsRawText(name: Text) {
    SameName(name, SCRIPT) || SameName(name, STYLE)
  }

  /** In an HTML document: `script` and `style`, anywhere. */
  function RawTextAt(text: Text, start: nat): Step
    requires start < |text|
  {
    match OpenTag(text, start)
    case None => Pass(start + 1)
    case Some(tag) =>
      var name := text[start + 1..tag.nameEnd];
      if !IsRawText(name) then Pass(start + 1) else ElementAt(text, start, tag, FindClosing(text, tag.end, name))
  }

  function StepAt(vue: bool, text: Text, start: nat): (step: Step)
    requires start < |text|
    ensures step.Pass? ==> start < step.next <= |text|
    ensures step.Found? ==> IsElement(text, step.element) && step.element.start == start
  {
    FoundIsElement(text, start);
    if vue then BlockAt(text, start) else RawTextAt(text, start)
  }

  /** Its body is between the `>` of an opening tag and the `<` of a closing one. */
  predicate IsElement(text: Text, e: Element) {
    && e.start + 1 < e.nameEnd < e.body.start <= e.body.end < |text|
    && text[e.body.start - 1] == '>' && text[e.body.end] == '<'
  }

  lemma FoundIsElement(text: Text, start: nat)
    requires start < |text|
    ensures BlockAt(text, start).Pass? ==> start < BlockAt(text, start).next <= |text|
    ensures BlockAt(text, start).Found? ==> IsElement(text, BlockAt(text, start).element) && BlockAt(text, start).element.start == start
    ensures RawTextAt(text, start).Pass? ==> start < RawTextAt(text, start).next <= |text|
    ensures RawTextAt(text, start).Found? ==> IsElement(text, RawTextAt(text, start).element) && RawTextAt(text, start).element.start == start
  {
    hide SameName, SelfClosing, TagEnd, FindClosing, ClosingTemplate;
    var tag := OpenTag(text, start);
    if tag.Some? {
      FirstClosing(text, tag.value.end, text[start + 1..tag.value.nameEnd]);
    }
    if OccursAt(text, COMMENT, start) {
      assert text[start..start + 4] == COMMENT;
    }
  }

  /** Everything the scanner finds from `cursor` on. */
  function Elements(vue: bool, text: Text, cursor: nat): seq<Element>
    requires cursor <= |text|
    decreases |text| - cursor
  {
    if cursor == |text| then []
    else if text[cursor] != '<' then Elements(vue, text, cursor + 1)
    else
      match StepAt(vue, text, cursor)
      case Stop => []
      case Pass(next) => Elements(vue, text, next)
      case Found(e) => [e] + Elements(vue, text, e.body.end)
  }

  // ----- the scanners -----

  method ReadTag(text: Text, start: nat) returns (tag: Option<Tag>)
    requires start < |text|
    ensures tag == OpenTag(text, start)
  {
    var n := NameEnd(text, start + 1);
    if n == |text| || n == start + 1 || !Letter(text[start + 1]) {
      return None;
    }
    var i, quote: Option<char> := n, None;
    while i < |text|
      invariant n <= i <= |text| && TagEnd(text, i, quote) == TagEnd(text, n, None)
    {
      if quote.Some? {
        if text[i] == quote.value {
          quote := None;
        }
      } else if text[i] == '"' || text[i] == '\'' {
        quote := Some(text[i]);
      } else if text[i] == '>' {
        return Some(Tag(n, i + 1));
      } else if text[i] == '<' {
        return None;
      }
      i := i + 1;
    }
    tag := None;
  }

  method ReadClosing(text: Text, from: nat, name: Text) returns (at: Option<nat>)
    requires from <= |text|
    ensures at == FindClosing(text, from, name)
  {
    hide SameName;
    var cursor := from;
    while cursor + 2 <= |text|
      invariant from <= cursor <= |text| && FindClosing(text, cursor, name) == FindClosing(text, from, name)
    {
      if text[cursor] != '<' || text[cursor + 1] != '/' {
        cursor := cursor + 1;
        continue;
      }
      if cursor + 2 + |name| > |text| {
        return None;
      }
      if Closes(text, cursor, name) {
        return Some(cursor);
      }
      cursor := cursor + 2;
    }
    at := None;
  }

  method CountOpens(text: Text, from: nat, end: nat) returns (n: nat)
    requires from <= end <= |text|
    ensures n == Opens(text, from, end)
  {
    hide SelfClosing, SameName, OpensTemplate, OpenTag;
    n := 0;
    for i := from to end
      invariant n == Opens(text, from, i)
    {
      if text[i] == '<' {
        var tag := ReadTag(text, i);
        OpensByTag(text, i);
        if tag.Some? && SameName(text[i + 1..tag.value.nameEnd], TEMPLATE) && !SelfClosing(text, tag.value.end) {
          n := n + 1;
        }
      } else {
        OpensByTag(text, i);
      }
    }
  }

  lemma OpensByTag(text: Text, i: nat)
    requires i < |text|
    ensures OpensTemplate(text, i) <==>
      text[i] == '<' && OpenTag(text, i).Some? && SameName(text[i + 1..OpenTag(text, i).value.nameEnd], TEMPLATE) && !SelfClosing(text, OpenTag(text, i).value.end)
  {
  }

  method ReadClosingTemplate(text: Text, from: nat) returns (at: Option<nat>)
    requires from <= |text|
    ensures at == ClosingTemplate(text, from, 1)
  {
    hide Opens, FindClosing, SameName;
    var depth, cursor := 1, from;
    while true
      invariant from <= cursor <= |text| && depth > 0 && ClosingTemplate(text, cursor, depth) == ClosingTemplate(text, from, 1)
      decreases |text| - cursor
    {
      FirstClosing(text, cursor, TEMPLATE);
      var close := ReadClosing(text, cursor, TEMPLATE);
      if close.None? {
        return None;
      }
      var nested := CountOpens(text, cursor, close.value);
      depth := depth + nested;
      depth := depth - 1;
      if depth == 0 {
        return close;
      }
      cursor := close.value + 2;
    }
  }

  method ReadBlock(text: Text, start: nat) returns (step: Step)
    requires start < |text|
    ensures step == BlockAt(text, start)
  {
    hide OpenTag, SelfClosing, SameName, FindClosing, ClosingTemplate, OccursAt, CommentEnd;
    if OccursAt(text, COMMENT, start) {
      return Pass(CommentEnd(text, start));
    }
    var tag := ReadTag(text, start);
    if tag.None? {
      return Pass(start + 1);
    }
    if SelfClosing(text, tag.value.end) {
      return Pass(tag.value.end);
    }
    var name, close := text[start + 1..tag.value.nameEnd], None;
    if SameName(name, TEMPLATE) {
      close := ReadClosingTemplate(text, tag.value.end);
    } else {
      close := ReadClosing(text, tag.value.end, name);
    }
    step := ElementAt(text, start, tag.value, close);
  }

  method ReadRawText(text: Text, start: nat) returns (step: Step)
    requires start < |text|
    ensures step == RawTextAt(text, start)
  {
    hide OpenTag, IsRawText, FindClosing;
    var tag := ReadTag(text, start);
    if tag.None? || !IsRawText(text[start + 1..tag.value.nameEnd]) {
      return Pass(start + 1);
    }
    var close := ReadClosing(text, tag.value.end, text[start + 1..tag.value.nameEnd]);
    step := ElementAt(text, start, tag.value, close);
  }

  /** The elements of a document, in order. */
  method Scan(vue: bool, text: Text) returns (elements: seq<Element>)
    ensures elements == Elements(vue, text, 0)
  {
    hide BlockAt, RawTextAt;
    elements := [];
    var cursor := 0;
    while cursor < |text|
      invariant cursor <= |text| && elements + Elements(vue, text, cursor) == Elements(vue, text, 0)
    {
      if text[cursor] != '<' {
        cursor := cursor + 1;
        continue;
      }
      var step;
      if vue {
        step := ReadBlock(text, cursor);
      } else {
        step := ReadRawText(text, cursor);
      }
      assert step == StepAt(vue, text, cursor);
      match step
      case Stop => return;
      case Pass(next) => cursor := next;
      case Found(e) =>
        assert elements + ([e] + Elements(vue, text, e.body.end)) == elements + [e] + Elements(vue, text, e.body.end);
        elements, cursor := elements + [e], e.body.end;
    }
  }

  // ----- raw bodies -----

  /** Elements one after another, from `from` on. */
  predicate Chained(text: Text, es: seq<Element>, from: nat) {
    && (forall i :: 0 <= i < |es| ==> from <= es[i].start && IsElement(text, es[i]))
    && forall i, k :: 0 <= i < k < |es| ==> es[i].body.end <= es[k].start
  }

  /** What is found are elements, one after another. */
  lemma {:induction false} FoundAreChained(vue: bool, text: Text, cursor: nat)
    requires cursor <= |text|
    ensures Chained(text, Elements(vue, text, cursor), cursor)
    decreases |text| - cursor
  {
    hide StepAt, IsElement;
    if cursor < |text| {
      if text[cursor] != '<' {
        FoundAreChained(vue, text, cursor + 1);
      } else {
        match StepAt(vue, text, cursor)
        case Stop =>
        case Pass(next) => FoundAreChained(vue, text, next);
        case Found(e) =>
          ElementIsLong(text, e);
          FoundAreChained(vue, text, e.body.end);
      }
    }
  }

  lemma ElementIsLong(text: Text, e: Element)
    requires IsElement(text, e)
    ensures e.start < e.body.start <= e.body.end < |text|
  {
  }

  /** Which elements are raw, by name and opening tag. */
  type Judge = (Text, Text) -> bool

  predicate IsRaw(raw: Judge, text: Text, e: Element)
    requires IsElement(text, e)
  {
    raw(NameOf(text, e), TagOf(text, e))
  }

  /** The bodies of the first `n` elements that are raw. */
  function RawBodies(raw: Judge, text: Text, es: seq<Element>, n: nat): (bodies: seq<Body>)
    requires Chained(text, es, 0) && n <= |es|
    ensures InOrder(text, bodies) && EndOf(bodies, |bodies|) <= (if n == 0 then 0 else es[n - 1].body.end)
    ensures forall i :: 0 <= i < |bodies| ==> exists k :: 0 <= k < n && bodies[i] == es[k].body
  {
    if n == 0 then [] else
      var bodies := RawBodies(raw, text, es, n - 1);
      var e := es[n - 1];
      assert n > 1 ==> es[n - 2].body.end <= e.start;
      KeptOne(text, bodies, e.body, e.start);
      if IsRaw(raw, text, e) then bodies + [e.body] else bodies
  }
}
