/**
Documents as they are written: what the scanners find in a document that is put
together from prose, comments, self-closing tags and elements.
*/
module RawWritten {
  import opened Options
  import opened Placeholders
  import opened RawBlocks
  import opened RawScan

  datatype Piece =
    | Prose(text: Text)
    | Comment(inner: Text)
    | Lone(name: Text, attributes: Text)
    | Block(name: Text, attributes: Text, body: Text)
    | Open(name: Text, attributes: Text)
    | Close(name: Text)

  function Opening(name: Text, attributes: Text): Text {
    "<" + name + attributes
  }

  function Closing(name: Text): Text {
    "</" + name + ">"
  }

  function Written(p: Piece): Text {
    match p
    case Prose(text) => text
    case Comment(inner) => COMMENT + inner + COMMENT_END
    case Lone(name, attributes) => Opening(name, attributes) + "/>"
    case Block(name, attributes, body) => Opening(name, attributes) + ">" + body + Closing(name)
    case Open(name, attributes) => Opening(name, attributes) + ">"
    case Close(name) => Closing(name)
  }

  function Document(pieces: seq<Piece>): Text {
    if pieces == [] then "" else Written(pieces[0]) + Document(pieces[1..])
  }

  predicate NoAngle(text: Text) {
    forall i :: 0 <= i < |text| ==> text[i] != '<'
  }

  predicate IsName(name: Text) {
    name != "" && Letter(name[0]) && forall i :: 0 <= i < |name| ==> NameChar(name[i])
  }

  /** Outside quotes there is no angle bracket, and every quote is closed: the quote a character is inside of is `quote` at first. */
  predicate AreClosed(attributes: Text, quote: Option<char>)
    decreases |attributes|
  {
    if attributes == "" then quote.None?
    else (quote.Some? || (attributes[0] != '<' && attributes[0] != '>')) && AreClosed(attributes[1..], QuoteAfter(quote, attributes[0]))
  }

  predicate AreAttributes(attributes: Text) {
    (attributes != "" ==> !NameChar(attributes[0])) && AreClosed(attributes, None)
  }

  /** The first closing tag of the name is the one behind the body. */
  predicate IsBody(name: Text, body: Text) {
    forall i :: 0 <= i < |body| ==> !Closes(body + Closing(name), i, name)
  }

  /** No tag in the body is of another template. */
  predicate NoTemplate(name: Text, body: Text) {
    var w := body + Closing(name);
    forall i :: 0 <= i < |body| && body[i] == '<' ==> !SameName(w[i + 1..NameEnd(w, i + 1)], TEMPLATE)
  }

  /** As a Vue component is written, block after block; a template here holds no other. */
  predicate IsVue(p: Piece) {
    match p
    case Prose(text) => NoAngle(text)
    case Comment(inner) => forall i :: 0 <= i < |COMMENT + inner| ==> !OccursAt(Written(p), COMMENT_END, i)
    case Lone(name, attributes) => IsName(name) && AreAttributes(attributes)
    case Block(name, attributes, body) =>
      && IsName(name) && AreAttributes(attributes) && (attributes != "" ==> attributes[|attributes| - 1] != '/')
      && IsBody(name, body) && (SameName(name, TEMPLATE) ==> NoTemplate(name, body))
    case Open(_, _) => false
    case Close(name) => IsName(name)
  }

  /** As an HTML document is written: raw text elements anywhere among its other tags. */
  predicate IsHtml(p: Piece) {
    match p
    case Prose(text) => NoAngle(text)
    case Comment(inner) => NoAngle(inner)
    case Lone(name, attributes) => IsName(name) && AreAttributes(attributes) && !IsRawText(name) && NoAngle(attributes)
    case Block(name, attributes, body) => IsName(name) && AreAttributes(attributes) && IsRawText(name) && IsBody(name, body)
    case Open(name, attributes) => IsName(name) && AreAttributes(attributes) && !IsRawText(name) && NoAngle(attributes)
    case Close(name) => IsName(name)
  }

  predicate IsPiece(vue: bool, p: Piece) {
    if vue then IsVue(p) else IsHtml(p)
  }

  /** The elements of the document, told by where the blocks stand. */
  function Blocks(pieces: seq<Piece>, at: nat): seq<Element> {
    if pieces == [] then [] else
      var p := pieces[0];
      (if p.Block? then [ElementOf(p, at)] else []) + Blocks(pieces[1..], at + |Written(p)|)
  }

  function ElementOf(p: Piece, at: nat): Element
    requires p.Block?
  {
    var open := at + |Opening(p.name, p.attributes)| + 1;
    Element(at, at + 1 + |p.name|, Body(open, open + |p.body|))
  }

  // ----- scanning over what is known -----

  lemma {:induction false} SkipPlain(vue: bool, text: Text, from: nat, to: nat)
    requires from <= to <= |text| && NoAngle(text[from..to])
    ensures Elements(vue, text, from) == Elements(vue, text, to)
    decreases |text| - from
  {
    if from < to {
      assert text[from] == text[from..to][0];
      assert text[from..to][1..] == text[from + 1..to];
      SkipPlain(vue, text, from + 1, to);
    }
  }

  lemma {:induction false} NameEndIs(text: Text, i: nat, k: nat)
    requires i <= k < |text| && !NameChar(text[k]) && forall j :: i <= j < k ==> NameChar(text[j])
    ensures NameEnd(text, i) == k
    decreases k - i
  {
    if i < k {
      NameEndIs(text, i + 1, k);
    }
  }

  lemma {:induction false} TagEndIs(text: Text, i: nat, k: nat, quote: Option<char>)
    requires i <= k < |text| && AreClosed(text[i..k], quote) && text[k] == '>'
    ensures TagEnd(text, i, quote) == Some(k + 1)
    decreases k - i
  {
    if i < k {
      assert text[i..k][0] == text[i] && text[i..k][1..] == text[i + 1..k];
      TagEndIs(text, i + 1, k, QuoteAfter(quote, text[i]));
    }
  }

  lemma CharsAt(text: Text, w: Text, at: nat)
    requires OccursAt(text, w, at)
    ensures forall j :: 0 <= j < |w| ==> text[at + j] == w[j]
  {
    var part := text[at..at + |w|];
    assert forall j :: 0 <= j < |part| ==> part[j] == text[at + j];
  }

  lemma BothAt(text: Text, v: Text, w: Text, at: nat)
    requires OccursAt(text, v + w, at)
    ensures OccursAt(text, v, at) && OccursAt(text, w, at + |v|)
  {
    var all := text[at..at + |v + w|];
    assert text[at..at + |v|] == all[..|v|] == v;
    assert text[at + |v|..at + |v| + |w|] == all[|v|..] == w;
  }

  lemma NoComment(text: Text, at: nat)
    requires at + 1 < |text| && text[at + 1] != '!'
    ensures !OccursAt(text, COMMENT, at)
  {
    if OccursAt(text, COMMENT, at) {
      CharsAt(text, COMMENT, at);
    }
  }

  /** A written opening tag, up to its `>`, is read as that. */
  lemma OpenTagIs(text: Text, at: nat, name: Text, attributes: Text)
    requires IsName(name) && AreAttributes(attributes) && OccursAt(text, Opening(name, attributes) + ">", at)
    ensures at < |text| && OpenTag(text, at) == Some(Tag(at + 1 + |name|, at + |Opening(name, attributes)| + 1))
    ensures text[at] == '<' && text[at + 1..at + 1 + |name|] == name && !OccursAt(text, COMMENT, at)
  {
    hide AreClosed, NameChar, Letter, TagEnd, NameEnd;
    var n := at + 1 + |name|;
    var k := n + |attributes|;
    BothAt(text, "<" + name + attributes, ">", at);
    BothAt(text, "<" + name, attributes, at);
    BothAt(text, "<", name, at);
    CharsAt(text, "<", at);
    CharsAt(text, ">", k);
    CharsAt(text, name, at + 1);
    CharsAt(text, attributes, n);
    MarksAreNoLetters();
    hide OccursAt;
    forall j | at + 1 <= j < n ensures NameChar(text[j]) {
      assert text[at + 1 + (j - (at + 1))] == name[j - (at + 1)];
    }
    assert text[n + 0] == if attributes == "" then '>' else attributes[0];
    NameEndIs(text, at + 1, n);
    assert text[n..k] == attributes;
    TagEndIs(text, n, k, None);
    assert text[at + 1 + 0] == name[0];
    NoComment(text, at);
  }

  lemma MarksAreNoLetters()
    ensures !Letter('!') && !NameChar('/') && !NameChar('>')
  {
  }

  /** Behind a body without its own closing tag, the closing tag is found. */
  lemma ClosingIs(text: Text, at: nat, name: Text, body: Text)
    requires IsName(name) && IsBody(name, body) && OccursAt(text, body + Closing(name), at)
    ensures at + |body| < |text| && Closes(text, at + |body|, name) && FindClosing(text, at, name) == Some(at + |body|)
  {
    var w, k := body + Closing(name), at + |body|;
    ClosesHere(text, at, name, body);
    FirstClosing(text, at, name);
    forall j | at <= j < k ensures !Closes(text, j, name) {
      hide Closes, IsName, OccursAt, FindClosing;
      ClosesInside(text, at, w, j, name);
      assert !Closes(w, j - at, name);
    }
    hide Closes, IsName, OccursAt, IsBody, FindClosing;
  }

  lemma ClosesHere(text: Text, at: nat, name: Text, body: Text)
    requires OccursAt(text, body + Closing(name), at)
    ensures at + |body| < |text| && Closes(text, at + |body|, name)
  {
    var k := at + |body|;
    BothAt(text, body, "</" + name + ">", at);
    BothAt(text, "</" + name, ">", k);
    BothAt(text, "</", name, k);
    CharsAt(text, "</", k);
    CharsAt(text, ">", k + 2 + |name|);
    assert text[k + 0] == '<' && text[k + 1] == '/' && text[k + 2 + |name| + 0] == '>';
  }

  lemma ClosesInside(text: Text, at: nat, w: Text, j: nat, name: Text)
    requires OccursAt(text, w, at) && at <= j && j - at + 2 + |name| < |w|
    ensures Closes(text, j, name) <==> Closes(w, j - at, name)
  {
    CharsAt(text, w, at);
    var i := j - at;
    assert text[j + 2..j + 2 + |name|] == w[i + 2..i + 2 + |name|];
    assert text[at + i] == w[i] && text[at + (i + 1)] == w[i + 1] && text[at + (i + 2 + |name|)] == w[i + 2 + |name|];
  }

  /** Behind a closing tag nothing is found before its end. */
  lemma SkipClosing(vue: bool, text: Text, at: nat, name: Text)
    requires IsName(name) && OccursAt(text, Closing(name), at)
    ensures at + |Closing(name)| <= |text| && Elements(vue, text, at) == Elements(vue, text, at + |Closing(name)|)
  {
    var w := Closing(name);
    CharsAt(text, w, at);
    assert text[at + 0] == '<' && text[at + 1] == '/';
    assert OpenTag(text, at).None?;
    NoComment(text, at);
    assert StepAt(vue, text, at) == Pass(at + 1);
    var rest := text[at + 1..at + |w|];
    forall j | 0 <= j < |rest| ensures rest[j] != '<' {
      assert rest[j] == text[at + (1 + j)] == w[1 + j];
      assert 0 < j <= |name| ==> NameChar(name[j - 1]);
    }
    SkipPlain(vue, text, at + 1, at + |w|);
  }

  // ----- one piece -----

  lemma {:induction false} SlashStaysClosed(attributes: Text, quote: Option<char>)
    requires AreClosed(attributes, quote)
    ensures AreClosed(attributes + "/", quote)
    decreases |attributes|
  {
    if attributes == "" {
      assert ("" + "/")[1..] == "";
    } else {
      assert (attributes + "/")[1..] == attributes[1..] + "/";
      SlashStaysClosed(attributes[1..], QuoteAfter(quote, attributes[0]));
    }
  }

  /** A tag that is passed over, and what is behind its `<` holds no other. */
  lemma SkipTag(vue: bool, text: Text, at: nat, end: nat)
    requires at < end <= |text| && text[at] == '<' && NoAngle(text[at + 1..end])
    requires StepAt(vue, text, at) == Pass(at + 1) || StepAt(vue, text, at) == Pass(end)
    ensures Elements(vue, text, at) == Elements(vue, text, end)
  {
    hide StepAt;
    SkipPlain(vue, text, at + 1, end);
  }

  lemma LoneIs(vue: bool, text: Text, at: nat, p: Piece)
    requires p.Lone? && IsPiece(vue, p) && OccursAt(text, Written(p), at)
    ensures Elements(vue, text, at) == Elements(vue, text, at + |Written(p)|)
  {
    var slashed, end := p.attributes + "/", at + |Written(p)|;
    LoneTag(vue, text, at, p);
    hide OpenTag, OccursAt, Written, Opening, NameChar, Letter, IsRawText, AreClosed;
    if vue {
      assert StepAt(vue, text, at) == Pass(end);
      PassedHere(vue, text, at, end);
    } else {
      NoAngleInTag(text, at, p.name, slashed);
      assert StepAt(vue, text, at) == Pass(at + 1);
      SkipTag(vue, text, at, end);
    }
  }

  lemma LoneTag(vue: bool, text: Text, at: nat, p: Piece)
    requires p.Lone? && IsPiece(vue, p) && OccursAt(text, Written(p), at)
    ensures var slashed, end := p.attributes + "/", at + |Written(p)|;
      && OccursAt(text, Opening(p.name, slashed) + ">", at) && |Written(p)| == |Opening(p.name, slashed)| + 1
      && end <= |text| && OpenTag(text, at) == Some(Tag(at + 1 + |p.name|, end)) && text[end - 2] == '/'
      && text[at] == '<' && text[at + 1..at + 1 + |p.name|] == p.name && !OccursAt(text, COMMENT, at)
  {
    hide NameChar, Letter, IsRawText, OpenTag, OccursAt, IsPiece, Written, Opening, AreAttributes, IsName;
    LoneTells(vue, p);
    LoneText(text, at, p);
    OpenTagIs(text, at, p.name, p.attributes + "/");
  }

  lemma LoneTells(vue: bool, p: Piece)
    requires p.Lone? && IsPiece(vue, p)
    ensures IsName(p.name) && AreAttributes(p.attributes + "/")
  {
    hide AreClosed, NameChar, Letter, IsRawText;
    SlashStaysClosed(p.attributes, None);
    MarksAreNoLetters();
  }

  lemma LoneText(text: Text, at: nat, p: Piece)
    requires p.Lone? && OccursAt(text, Written(p), at)
    ensures OccursAt(text, Opening(p.name, p.attributes + "/") + ">", at) && |Written(p)| == |Opening(p.name, p.attributes + "/")| + 1
    ensures at + |Written(p)| <= |text| && text[at + |Written(p)| - 2] == '/'
  {
    var w := Written(p);
    assert w == Opening(p.name, p.attributes + "/") + ">";
    CharsAt(text, w, at);
    assert text[at + (|w| - 2)] == w[|w| - 2];
  }

  lemma PassedHere(vue: bool, text: Text, at: nat, end: nat)
    requires at < |text| && text[at] == '<' && StepAt(vue, text, at) == Pass(end)
    ensures at < end <= |text| && Elements(vue, text, at) == Elements(vue, text, end)
  {
    hide StepAt;
  }

  lemma NoAngleInTag(text: Text, at: nat, name: Text, attributes: Text)
    requires IsName(name) && NoAngle(attributes) && OccursAt(text, Opening(name, attributes) + ">", at)
    ensures var end := at + |Opening(name, attributes)| + 1; end <= |text| && NoAngle(text[at + 1..end])
  {
    var w := Opening(name, attributes) + ">";
    var rest := text[at + 1..at + |w|];
    forall j | 0 <= j < |rest| ensures rest[j] != '<' {
      assert rest[j] == text[at..at + |w|][1 + j] == w[1 + j];
      assert j < |name| ==> NameChar(name[j]);
      assert |name| <= j < |name| + |attributes| ==> w[1 + j] == attributes[j - |name|];
    }
  }

  lemma OpenIs(text: Text, at: nat, p: Piece)
    requires p.Open? && IsHtml(p) && OccursAt(text, Written(p), at)
    ensures Elements(false, text, at) == Elements(false, text, at + |Written(p)|)
  {
    hide AreClosed, NameChar, Letter, IsRawText;
    OpenTagIs(text, at, p.name, p.attributes);
    NoAngleInTag(text, at, p.name, p.attributes);
    assert StepAt(false, text, at) == Pass(at + 1);
    SkipTag(false, text, at, at + |Written(p)|);
  }

  lemma CommentIs(vue: bool, text: Text, at: nat, p: Piece)
    requires p.Comment? && IsPiece(vue, p) && OccursAt(text, Written(p), at)
    ensures Elements(vue, text, at) == Elements(vue, text, at + |Written(p)|)
  {
    var w, end := Written(p), at + |Written(p)|;
    CharsAt(text, w, at);
    BothAt(text, COMMENT + p.inner, COMMENT_END, at);
    BothAt(text, COMMENT, p.inner, at);
    assert text[at + 0] == '<' && text[at + 1] == '!';
    if vue {
      CommentEndsAt(text, at, p);
      assert StepAt(vue, text, at) == Pass(end);
    } else {
      assert NameEnd(text, at + 1) == at + 1;
      assert StepAt(vue, text, at) == Pass(at + 1);
      var rest := text[at + 1..end];
      forall j | 0 <= j < |rest| ensures rest[j] != '<' {
        assert rest[j] == text[at + (1 + j)] == w[1 + j];
        assert 3 <= j < 3 + |p.inner| ==> w[1 + j] == p.inner[j - 3];
      }
      SkipTag(vue, text, at, end);
    }
  }

  lemma CommentEndsAt(text: Text, at: nat, p: Piece)
    requires p.Comment? && IsVue(p) && OccursAt(text, Written(p), at)
    ensures CommentEnd(text, at) == at + |Written(p)|
  {
    var w, k := Written(p), at + |COMMENT + p.inner|;
    assert forall j :: 0 <= j < |w| ==> text[at + j] == text[at..at + |w|][j] == w[j];
    assert text[k..k + 3] == COMMENT_END;
    assert OccursAt(text, COMMENT_END, k);
    forall j | at <= j < k ensures !OccursAt(text, COMMENT_END, j) {
      assert text[j..j + 3] == w[j - at..j - at + 3];
      assert !OccursAt(w, COMMENT_END, j - at);
    }
  }

  lemma BlockIs(vue: bool, text: Text, at: nat, p: Piece)
    requires p.Block? && IsPiece(vue, p) && OccursAt(text, Written(p), at)
    ensures Elements(vue, text, at) == [ElementOf(p, at)] + Elements(vue, text, at + |Written(p)|)
  {
    hide OccursAt, IsBody, Closes, FindClosing, OpenTag, StepAt, SameName, IsPiece, Written, Opening, Closing, AreAttributes, IsName, Elements, NoAngle;
    var from := at + |Opening(p.name, p.attributes)| + 1;
    var close := from + |p.body|;
    BlockParts(text, at, p);
    BlockTells(vue, p);
    OpenTagIs(text, at, p.name, p.attributes);
    ClosingIs(text, from, p.name, p.body);
    SkipClosing(vue, text, close, p.name);
    NoSlashIn(vue, text, at, p);
    if vue && SameName(p.name, TEMPLATE) {
      TemplateEnds(text, from, p.name, p.body);
    }
    BlockFound(vue, text, at, p);
    FoundHere(vue, text, at, ElementOf(p, at));
  }

  lemma BlockTells(vue: bool, p: Piece)
    requires p.Block? && IsPiece(vue, p)
    ensures IsName(p.name) && AreAttributes(p.attributes) && IsBody(p.name, p.body)
    ensures vue && SameName(p.name, TEMPLATE) ==> NoTemplate(p.name, p.body)
  {
  }

  lemma FoundHere(vue: bool, text: Text, at: nat, e: Element)
    requires at < |text| && text[at] == '<' && StepAt(vue, text, at) == Found(e)
    ensures at < e.body.end <= |text| && Elements(vue, text, at) == [e] + Elements(vue, text, e.body.end)
  {
    hide StepAt;
  }

  lemma BlockParts(text: Text, at: nat, p: Piece)
    requires p.Block? && OccursAt(text, Written(p), at)
    ensures var from := at + |Opening(p.name, p.attributes)| + 1;
      && OccursAt(text, Opening(p.name, p.attributes) + ">", at) && OccursAt(text, p.body + Closing(p.name), from)
      && OccursAt(text, p.body, from) && OccursAt(text, Closing(p.name), from + |p.body|)
      && at + |Written(p)| == from + |p.body| + |Closing(p.name)|
  {
    var head, tail := Opening(p.name, p.attributes) + ">", p.body + Closing(p.name);
    assert Written(p) == head + tail;
    BothAt(text, head, tail, at);
    BothAt(text, p.body, Closing(p.name), at + |head|);
  }

  lemma NoSlashIn(vue: bool, text: Text, at: nat, p: Piece)
    requires p.Block? && IsPiece(vue, p) && OccursAt(text, Opening(p.name, p.attributes) + ">", at)
    ensures vue ==> text[at + |Opening(p.name, p.attributes)| - 1] != '/'
  {
    if vue {
      NoSlash(text, at, p);
    }
  }

  lemma NoSlash(text: Text, at: nat, p: Piece)
    requires p.Block? && IsName(p.name) && (p.attributes != "" ==> p.attributes[|p.attributes| - 1] != '/')
    requires OccursAt(text, Opening(p.name, p.attributes) + ">", at)
    ensures text[at + |Opening(p.name, p.attributes)| - 1] != '/'
  {
    var w := Opening(p.name, p.attributes);
    NamesTell(p.name);
    CharsAt(text, w + ">", at);
    assert text[at + (|w| - 1)] == w[|w| - 1];
  }

  lemma SameCloses(text: Text, at: nat, name: Text, other: Text)
    requires SameName(name, other) && at < |text|
    ensures Closes(text, at, name) <==> Closes(text, at, other)
  {
    hide Lower, Alphanumeric;
    if at + 2 + |name| <= |text| {
      var found := text[at + 2..at + 2 + |name|];
      assert SameName(found, name) <==> SameName(found, other);
    }
  }

  lemma TemplateEnds(text: Text, from: nat, name: Text, body: Text)
    requires SameName(name, TEMPLATE) && NoTemplate(name, body) && OccursAt(text, body + Closing(name), from)
    requires from + |body| < |text| && FindClosing(text, from, name) == Some(from + |body|)
    ensures ClosingTemplate(text, from, 1) == Some(from + |body|)
  {
    SameFirst(text, from, name, from + |body|);
    NoneOpened(text, from, name, body);
    hide SameName, FindClosing, OccursAt, NoTemplate, Opens, ClosingTemplate;
    ClosingTemplateIs(text, from, 1);
  }

  lemma SameFirst(text: Text, from: nat, name: Text, close: nat)
    requires SameName(name, TEMPLATE) && from <= close < |text| && FindClosing(text, from, name) == Some(close)
    ensures FindClosing(text, from, TEMPLATE) == Some(close)
  {
    FirstClosing(text, from, name);
    FirstClosing(text, from, TEMPLATE);
    forall j | from <= j <= close ensures Closes(text, j, name) <==> Closes(text, j, TEMPLATE) {
      SameCloses(text, j, name, TEMPLATE);
    }
    hide Closes, SameName, FindClosing;
  }

  lemma NoneOpened(text: Text, from: nat, name: Text, body: Text)
    requires NoTemplate(name, body) && OccursAt(text, body + Closing(name), from)
    ensures Opens(text, from, from + |body|) == 0
  {
    hide NoTemplate, OpensTemplate;
    forall j | from <= j < from + |body| ensures !OpensTemplate(text, j) {
      OpensNone(text, from, name, body, j);
    }
    NoOpens(text, from, from + |body|);
  }

  lemma OpensNone(text: Text, from: nat, name: Text, body: Text, j: nat)
    requires NoTemplate(name, body) && OccursAt(text, body + Closing(name), from) && from <= j < from + |body|
    ensures !OpensTemplate(text, j)
  {
    hide SameName, SelfClosing, TagEnd, NameChar, Letter;
    var w, i := body + Closing(name), j - from;
    CharsAt(text, w, from);
    assert text[from + i] == w[i] == body[i];
    if body[i] == '<' {
      var n := NameEnd(w, i + 1);
      NameEndsInside(w, i + 1);
      forall k | j + 1 <= k < from + n ensures NameChar(text[k]) {
        assert text[from + (k - from)] == w[k - from];
      }
      assert text[from + n] == w[n];
      NameEndIs(text, j + 1, from + n);
      assert text[j + 1..from + n] == w[i + 1..n];
    }
  }

  /** A text that ends in `>` ends every name in it. */
  lemma {:induction false} NameEndsInside(w: Text, i: nat)
    requires i < |w| && w[|w| - 1] == '>'
    ensures NameEnd(w, i) < |w|
    decreases |w| - i
  {
    if NameChar(w[i]) {
      MarksAreNoLetters();
      NameEndsInside(w, i + 1);
    }
  }

  lemma {:induction false} NoOpens(text: Text, from: nat, end: nat)
    requires from <= end <= |text| && forall j :: from <= j < end ==> !OpensTemplate(text, j)
    ensures Opens(text, from, end) == 0
    decreases end
  {
    hide OpensTemplate;
    if from < end {
      NoOpens(text, from, end - 1);
    }
  }

  lemma NamesTell(name: Text)
    requires IsName(name)
    ensures name != "" && name[|name| - 1] != '/'
  {
    assert NameChar(name[|name| - 1]);
  }

  lemma BlockFound(vue: bool, text: Text, at: nat, p: Piece)
    requires p.Block? && IsPiece(vue, p) && at < |text|
    requires var from := at + |Opening(p.name, p.attributes)| + 1;
      && OpenTag(text, at) == Some(Tag(at + 1 + |p.name|, from)) && from <= |text| && (vue ==> text[from - 2] != '/')
      && text[at] == '<' && text[at + 1..at + 1 + |p.name|] == p.name && !OccursAt(text, COMMENT, at)
      && FindClosing(text, from, p.name) == Some(from + |p.body|)
      && (vue && SameName(p.name, TEMPLATE) ==> ClosingTemplate(text, from, 1) == Some(from + |p.body|))
    ensures StepAt(vue, text, at) == Found(ElementOf(p, at))
  {
    hide AreClosed, NameChar, Letter, OpenTag, FindClosing, ClosingTemplate, IsBody, SameName;
  }

  // ----- whole documents -----

  lemma PieceIs(vue: bool, text: Text, at: nat, p: Piece)
    requires IsPiece(vue, p) && OccursAt(text, Written(p), at)
    ensures Elements(vue, text, at) == (if p.Block? then [ElementOf(p, at)] else []) + Elements(vue, text, at + |Written(p)|)
  {
    match p
    case Prose(prose) => SkipPlain(vue, text, at, at + |prose|);
    case Comment(_) => CommentIs(vue, text, at, p);
    case Lone(_, _) => LoneIs(vue, text, at, p);
    case Block(_, _, _) => BlockIs(vue, text, at, p);
    case Open(_, _) => OpenIs(text, at, p);
    case Close(name) => SkipClosing(vue, text, at, name);
  }

  lemma {:induction false} PiecesAre(vue: bool, text: Text, pieces: seq<Piece>, at: nat)
    requires (forall i :: 0 <= i < |pieces| ==> IsPiece(vue, pieces[i])) && OccursAt(text, Document(pieces), at)
    ensures Elements(vue, text, at) == Blocks(pieces, at) + Elements(vue, text, at + |Document(pieces)|)
    decreases |pieces|
  {
    hide IsPiece, Written, Elements, OccursAt;
    if pieces == [] {
    } else {
      BothAt(text, Written(pieces[0]), Document(pieces[1..]), at);
      PieceIs(vue, text, at, pieces[0]);
      PiecesAre(vue, text, pieces[1..], at + |Written(pieces[0])|);
    }
  }

  /** In a document that is put together so, the scanner finds its blocks, each where it stands, and nothing else. */
  lemma WrittenIsFound(vue: bool, pieces: seq<Piece>)
    requires forall i :: 0 <= i < |pieces| ==> IsPiece(vue, pieces[i])
    ensures Elements(vue, Document(pieces), 0) == Blocks(pieces, 0)
  {
    hide Document, IsPiece, OccursAt, Blocks, Elements;
    var text := Document(pieces);
    WholeText(vue, text);
    PiecesAre(vue, text, pieces, 0);
  }

  lemma WholeText(vue: bool, text: Text)
    ensures OccursAt(text, text, 0) && Elements(vue, text, |text|) == []
  {
    assert text[0..|text|] == text;
  }

  /** What a scanner says of a block is what was written. */
  lemma FoundAsWritten(p: Piece, text: Text, at: nat)
    requires p.Block? && OccursAt(text, Written(p), at) && IsName(p.name) && AreAttributes(p.attributes)
    ensures var e := ElementOf(p, at);
      && e.nameEnd <= e.body.start <= e.body.end <= |text| && NameOf(text, e) == p.name
      && TagOf(text, e) == Opening(p.name, p.attributes) + ">" && Inside(text, e.body) == p.body
  {
    hide AreAttributes, IsName, Closing, Written, Opening, OpenTag;
    BlockParts(text, at, p);
    OpenTagIs(text, at, p.name, p.attributes);
  }
}
