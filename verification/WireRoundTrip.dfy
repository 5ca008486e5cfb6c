/**
Encoding and decoding are inverse: every frame that fits is read back from its
bytes, and everything a decoder accepts is the encoding of what it returns.
*/
module WireRoundTrip {
  import opened Wire

  // ----- what has room in the format -----

  predicate Short(b: Bytes) {
    |b| < LIMIT
  }

  predicate ShortViolation(v: Violation) {
    Short(v.rule) && Short(v.message)
  }

  predicate ShortScore(s: Score) {
    Short(s.key) && Short(s.name)
  }

  predicate ShortRequest(r: Request) {
    Short(r.rel) && Short(r.abs) && Short(r.source)
  }

  ghost predicate ShortReply(r: Reply) {
    && Short(r.error) && Short(r.output) && |r.applied| < LIMIT && |r.violations| < LIMIT && |r.complexity| < LIMIT
    && (forall i :: 0 <= i < |r.applied| ==> Short(r.applied[i]))
    && (forall i :: 0 <= i < |r.violations| ==> ShortViolation(r.violations[i]))
    && (forall i :: 0 <= i < |r.complexity| ==> ShortScore(r.complexity[i]))
  }

  ghost predicate ShortMessage(m: Message) {
    match m
    case Greeting(hello) => Short(hello.version)
    case Process(request) => ShortRequest(request)
    case Answer(reply) => ShortReply(reply)
    case Shutdown => true
  }

  // ----- numbers and byte strings -----

  lemma Digits(n: int)
    requires 0 <= n < LIMIT
    ensures n % 256 + 256 * (n / 256 % 256) + 65536 * (n / 65536 % 256) + 16777216 * (n / 16777216) == n
    ensures n / 16777216 < 256
  {
    var a, b := n / 256, n / 65536;
    assert b == a / 256 && n / 16777216 == b / 256;
  }

  lemma U32RoundTrip(n: U32, rest: Bytes)
    ensures GetU32(PutU32(n) + rest) == Got(n, rest)
  {
    Digits(n);
    assert (PutU32(n) + rest)[4..] == rest;
  }

  lemma U32Canonical(b: Bytes)
    requires GetU32(b).Got?
    ensures b == PutU32(GetU32(b).value) + GetU32(b).rest
  {
    var b0, b1, b2, b3 := b[0] as int, b[1] as int, b[2] as int, b[3] as int;
    var n := b0 + 256 * b1 + 65536 * b2 + 16777216 * b3;
    assert n / 256 == b1 + 256 * b2 + 65536 * b3 && n / 65536 == b2 + 256 * b3;
    assert PutU32(n) == b[..4];
  }

  lemma BytesRoundTrip(x: Bytes, rest: Bytes)
    requires Short(x)
    ensures GetBytes(PutBytes(x) + rest) == Got(x, rest)
  {
    assert PutBytes(x) + rest == PutU32(|x|) + (x + rest);
    U32RoundTrip(|x|, x + rest);
    assert (x + rest)[..|x|] == x && (x + rest)[|x|..] == rest;
  }

  lemma BytesCanonical(b: Bytes)
    requires GetBytes(b).Got?
    ensures b == PutBytes(GetBytes(b).value) + GetBytes(b).rest && Short(GetBytes(b).value)
  {
    U32Canonical(b);
    var x, after := GetBytes(b).value, GetU32(b).rest;
    assert after == x + GetBytes(b).rest;
  }

  lemma BoolRoundTrip(x: bool, rest: Bytes)
    ensures GetBool(PutBool(x) + rest) == Got(x, rest)
  {
    assert (PutBool(x) + rest)[1..] == rest;
  }

  lemma BoolCanonical(b: Bytes)
    requires GetBool(b).Got?
    ensures b == PutBool(GetBool(b).value) + GetBool(b).rest
  {
    assert b == [b[0]] + b[1..];
  }

  // ----- lists -----

  ghost predicate RoundTrips<T(!new)>(put: T -> Bytes, get: Bytes -> Parsed<T>, fits: T -> bool) {
    forall x, rest: Bytes :: fits(x) ==> get(put(x) + rest) == Got(x, rest)
  }

  ghost predicate IsCanonical<T(!new)>(put: T -> Bytes, get: Bytes -> Parsed<T>, fits: T -> bool) {
    forall b :: get(b).Got? ==> b == put(get(b).value) + get(b).rest && fits(get(b).value)
  }

  /** No element is shorter than `least`. */
  ghost predicate AtLeast<T(!new)>(put: T -> Bytes, least: nat) {
    forall x :: |put(x)| >= least
  }

  lemma {:induction false} ManyRoundTrip<T(!new)>(put: T -> Bytes, get: Bytes -> Parsed<T>, fits: T -> bool, items: seq<T>, rest: Bytes)
    requires RoundTrips(put, get, fits) && forall i :: 0 <= i < |items| ==> fits(items[i])
    ensures GetMany(get, |items|, PutMany(put, items) + rest) == Got(items, rest)
    decreases |items|
  {
    if items == [] {
      assert PutMany(put, items) + rest == rest;
    } else {
      ManyRoundTrip(put, get, fits, items[1..], rest);
      assert PutMany(put, items) + rest == put(items[0]) + (PutMany(put, items[1..]) + rest);
      assert items == [items[0]] + items[1..];
    }
  }

  lemma {:induction false} ManyCanonical<T(!new)>(put: T -> Bytes, get: Bytes -> Parsed<T>, fits: T -> bool, n: nat, b: Bytes)
    requires IsCanonical(put, get, fits) && GetMany(get, n, b).Got?
    ensures var items := GetMany(get, n, b).value;
      |items| == n && b == PutMany(put, items) + GetMany(get, n, b).rest && forall i :: 0 <= i < |items| ==> fits(items[i])
    decreases n
  {
    if n == 0 {
      assert b == [] + b;
    } else {
      var x, rest := get(b).value, get(b).rest;
      ManyCanonical(put, get, fits, n - 1, rest);
      var xs, after := GetMany(get, n - 1, rest).value, GetMany(get, n - 1, rest).rest;
      assert ([x] + xs)[1..] == xs;
      assert b == put(x) + (PutMany(put, xs) + after);
    }
  }

  lemma {:induction false} ManyAtLeast<T(!new)>(put: T -> Bytes, least: nat, items: seq<T>)
    requires AtLeast(put, least)
    ensures |PutMany(put, items)| >= |items| * least
    decreases |items|
  {
    if items != [] {
      ManyAtLeast(put, least, items[1..]);
      assert |items| * least == least + |items[1..]| * least;
    }
  }

  lemma ListRoundTrip<T(!new)>(put: T -> Bytes, get: Bytes -> Parsed<T>, fits: T -> bool, least: nat, items: seq<T>, rest: Bytes)
    requires RoundTrips(put, get, fits) && AtLeast(put, least)
    requires |items| < LIMIT && forall i :: 0 <= i < |items| ==> fits(items[i])
    ensures GetList(get, least, PutList(put, items) + rest) == Got(items, rest)
  {
    var body := PutMany(put, items) + rest;
    assert PutList(put, items) + rest == PutU32(|items|) + body;
    U32RoundTrip(|items|, body);
    ManyAtLeast(put, least, items);
    ManyRoundTrip(put, get, fits, items, rest);
  }

  lemma ListCanonical<T(!new)>(put: T -> Bytes, get: Bytes -> Parsed<T>, fits: T -> bool, least: nat, b: Bytes)
    requires IsCanonical(put, get, fits) && GetList(get, least, b).Got?
    ensures var items := GetList(get, least, b).value;
      |items| < LIMIT && b == PutList(put, items) + GetList(get, least, b).rest && forall i :: 0 <= i < |items| ==> fits(items[i])
  {
    U32Canonical(b);
    var n, rest := GetU32(b).value, GetU32(b).rest;
    ManyCanonical(put, get, fits, n, rest);
    var items := GetMany(get, n, rest).value;
    assert b == PutU32(n) + (PutMany(put, items) + GetMany(get, n, rest).rest);
  }

  /** The guard on a list's length turns away only lists that could not be read to the end. */
  lemma GuardIsExact<T(!new)>(put: T -> Bytes, get: Bytes -> Parsed<T>, fits: T -> bool, least: nat, b: Bytes)
    requires IsCanonical(put, get, fits) && AtLeast(put, least)
    ensures GetList(get, least, b) == Then(GetU32(b), (n: U32, rest: Bytes) => GetMany(get, n, rest))
  {
    if GetU32(b).Got? {
      var n, rest := GetU32(b).value, GetU32(b).rest;
      if GetMany(get, n, rest).Got? {
        ManyCanonical(put, get, fits, n, rest);
        ManyAtLeast(put, least, GetMany(get, n, rest).value);
      }
    }
  }

  // ----- records -----

  lemma ViolationRoundTrip(v: Violation, rest: Bytes)
    requires ShortViolation(v)
    ensures GetViolation(PutViolation(v) + rest) == Got(v, rest)
  {
    hide GetBytes, GetU32, PutBytes, PutU32;
    var r3 := PutBytes(v.message) + rest;
    var r2 := PutU32(v.column) + r3;
    var r1 := PutU32(v.line) + r2;
    assert PutViolation(v) + rest == PutBytes(v.rule) + r1;
    BytesRoundTrip(v.rule, r1);
    U32RoundTrip(v.line, r2);
    U32RoundTrip(v.column, r3);
    BytesRoundTrip(v.message, rest);
  }

  lemma ViolationCanonical(b: Bytes)
    requires GetViolation(b).Got?
    ensures b == PutViolation(GetViolation(b).value) + GetViolation(b).rest && ShortViolation(GetViolation(b).value)
  {
    hide GetBytes, GetU32, PutBytes, PutU32;
    BytesCanonical(b);
    var b1 := GetBytes(b).rest;
    U32Canonical(b1);
    var b2 := GetU32(b1).rest;
    U32Canonical(b2);
    var b3 := GetU32(b2).rest;
    BytesCanonical(b3);
  }

  lemma ScoreRoundTrip(s: Score, rest: Bytes)
    requires ShortScore(s)
    ensures GetScore(PutScore(s) + rest) == Got(s, rest)
  {
    hide GetBytes, GetU32, PutBytes, PutU32;
    var r4 := PutU32(s.cognitive) + rest;
    var r3 := PutU32(s.cyclomatic) + r4;
    var r2 := PutU32(s.line) + r3;
    var r1 := PutBytes(s.name) + r2;
    assert PutScore(s) + rest == PutBytes(s.key) + r1;
    BytesRoundTrip(s.key, r1);
    BytesRoundTrip(s.name, r2);
    U32RoundTrip(s.line, r3);
    U32RoundTrip(s.cyclomatic, r4);
    U32RoundTrip(s.cognitive, rest);
  }

  lemma ScoreCanonical(b: Bytes)
    requires GetScore(b).Got?
    ensures b == PutScore(GetScore(b).value) + GetScore(b).rest && ShortScore(GetScore(b).value)
  {
    hide GetBytes, GetU32, PutBytes, PutU32;
    BytesCanonical(b);
    var b1 := GetBytes(b).rest;
    BytesCanonical(b1);
    var b2 := GetBytes(b1).rest;
    U32Canonical(b2);
    var b3 := GetU32(b2).rest;
    U32Canonical(b3);
    var b4 := GetU32(b3).rest;
    U32Canonical(b4);
  }

  lemma HelloRoundTrip(h: Hello, rest: Bytes)
    requires Short(h.version)
    ensures GetHello(PutHello(h) + rest) == Got(h, rest)
  {
    assert PutHello(h) + rest == PutU32(h.proto) + (PutBytes(h.version) + rest);
    U32RoundTrip(h.proto, PutBytes(h.version) + rest);
    BytesRoundTrip(h.version, rest);
  }

  lemma HelloCanonical(b: Bytes)
    requires GetHello(b).Got?
    ensures b == PutHello(GetHello(b).value) + GetHello(b).rest && Short(GetHello(b).value.version)
  {
    U32Canonical(b);
    BytesCanonical(GetU32(b).rest);
  }

  predicate AnyFlag(x: bool) {
    true
  }

  lemma FlagElements()
    ensures RoundTrips(PutBool, GetBool, AnyFlag) && IsCanonical(PutBool, GetBool, AnyFlag)
  {
    forall x: bool, rest: Bytes ensures GetBool(PutBool(x) + rest) == Got(x, rest) {
      BoolRoundTrip(x, rest);
    }
    forall b: Bytes | GetBool(b).Got? ensures b == PutBool(GetBool(b).value) + GetBool(b).rest {
      BoolCanonical(b);
    }
  }

  lemma StepsRoundTrip(s: Steps, rest: Bytes)
    ensures GetSteps(PutSteps(s) + rest) == Got(s, rest)
  {
    hide PutMany, GetMany, RoundTrips, IsCanonical;
    FlagElements();
    ManyRoundTrip(PutBool, GetBool, AnyFlag, Flags(s), rest);
  }

  lemma StepsCanonical(b: Bytes)
    requires GetSteps(b).Got?
    ensures b == PutSteps(GetSteps(b).value) + GetSteps(b).rest
  {
    hide PutMany, GetMany, RoundTrips, IsCanonical;
    FlagElements();
    ManyCanonical(PutBool, GetBool, AnyFlag, 5, b);
    assert Flags(GetSteps(b).value) == GetMany(GetBool, 5, b).value;
  }

  lemma RequestRoundTrip(r: Request, rest: Bytes)
    requires ShortRequest(r)
    ensures GetRequest(PutRequest(r) + rest) == Got(r, rest)
  {
    hide GetBytes, PutBytes, GetSteps, PutSteps;
    var r3 := PutSteps(r.steps) + rest;
    var r2 := PutBytes(r.source) + r3;
    var r1 := PutBytes(r.abs) + r2;
    assert PutRequest(r) + rest == PutBytes(r.rel) + r1;
    BytesRoundTrip(r.rel, r1);
    BytesRoundTrip(r.abs, r2);
    BytesRoundTrip(r.source, r3);
    StepsRoundTrip(r.steps, rest);
  }

  lemma RequestCanonical(b: Bytes)
    requires GetRequest(b).Got?
    ensures b == PutRequest(GetRequest(b).value) + GetRequest(b).rest && ShortRequest(GetRequest(b).value)
  {
    hide GetBytes, PutBytes, GetSteps, PutSteps;
    BytesCanonical(b);
    var b1 := GetBytes(b).rest;
    BytesCanonical(b1);
    var b2 := GetBytes(b1).rest;
    BytesCanonical(b2);
    StepsCanonical(GetBytes(b2).rest);
  }

  // ----- replies -----

  lemma ListElements()
    ensures RoundTrips(PutBytes, GetBytes, Short) && IsCanonical(PutBytes, GetBytes, Short) && AtLeast(PutBytes, 4)
    ensures RoundTrips(PutViolation, GetViolation, ShortViolation) && IsCanonical(PutViolation, GetViolation, ShortViolation) && AtLeast(PutViolation, 16)
    ensures RoundTrips(PutScore, GetScore, ShortScore) && IsCanonical(PutScore, GetScore, ShortScore) && AtLeast(PutScore, 20)
  {
    forall x: Bytes, rest: Bytes | Short(x) ensures GetBytes(PutBytes(x) + rest) == Got(x, rest) {
      BytesRoundTrip(x, rest);
    }
    forall b: Bytes | GetBytes(b).Got? ensures b == PutBytes(GetBytes(b).value) + GetBytes(b).rest && Short(GetBytes(b).value) {
      BytesCanonical(b);
    }
    forall v: Violation, rest: Bytes | ShortViolation(v) ensures GetViolation(PutViolation(v) + rest) == Got(v, rest) {
      ViolationRoundTrip(v, rest);
    }
    forall b: Bytes | GetViolation(b).Got? ensures b == PutViolation(GetViolation(b).value) + GetViolation(b).rest && ShortViolation(GetViolation(b).value) {
      ViolationCanonical(b);
    }
    forall s: Score, rest: Bytes | ShortScore(s) ensures GetScore(PutScore(s) + rest) == Got(s, rest) {
      ScoreRoundTrip(s, rest);
    }
    forall b: Bytes | GetScore(b).Got? ensures b == PutScore(GetScore(b).value) + GetScore(b).rest && ShortScore(GetScore(b).value) {
      ScoreCanonical(b);
    }
  }

  lemma ReplyRoundTrip(r: Reply, rest: Bytes)
    requires ShortReply(r)
    ensures GetReply(PutReply(r) + rest) == Got(r, rest)
  {
    hide GetBytes, PutBytes, GetList, PutList, RoundTrips, IsCanonical, AtLeast;
    ListElements();
    var r4 := PutList(PutScore, r.complexity) + rest;
    var r3 := PutList(PutViolation, r.violations) + r4;
    var r2 := PutList(PutBytes, r.applied) + r3;
    var r1 := PutBytes(r.output) + r2;
    assert PutReply(r) + rest == PutBytes(r.error) + r1;
    BytesRoundTrip(r.error, r1);
    BytesRoundTrip(r.output, r2);
    ListRoundTrip(PutBytes, GetBytes, Short, 4, r.applied, r3);
    ListRoundTrip(PutViolation, GetViolation, ShortViolation, 16, r.violations, r4);
    ListRoundTrip(PutScore, GetScore, ShortScore, 20, r.complexity, rest);
  }

  lemma ReplyCanonical(b: Bytes)
    requires GetReply(b).Got?
    ensures b == PutReply(GetReply(b).value) + GetReply(b).rest && ShortReply(GetReply(b).value)
  {
    hide GetBytes, PutBytes, GetList, PutList, RoundTrips, IsCanonical, AtLeast;
    ListElements();
    BytesCanonical(b);
    var b1 := GetBytes(b).rest;
    BytesCanonical(b1);
    var b2 := GetBytes(b1).rest;
    ListCanonical(PutBytes, GetBytes, Short, 4, b2);
    var b3 := GetList(GetBytes, 4, b2).rest;
    ListCanonical(PutViolation, GetViolation, ShortViolation, 16, b3);
    var b4 := GetList(GetViolation, 16, b3).rest;
    ListCanonical(PutScore, GetScore, ShortScore, 20, b4);
  }

  // ----- payloads and frames -----

  lemma PayloadRoundTrip(m: Message)
    requires ShortMessage(m)
    ensures GetPayload(KindOf(m), PutPayload(m)) == Holds(m)
  {
    hide GetHello, GetRequest, GetReply, PutHello, PutRequest, PutReply;
    assert PutPayload(m) + [] == PutPayload(m);
    match m
    case Greeting(hello) => HelloRoundTrip(hello, []);
    case Process(request) => RequestRoundTrip(request, []);
    case Answer(reply) => ReplyRoundTrip(reply, []);
    case Shutdown =>
  }

  /** A payload that is accepted is, byte for byte, what it was decoded to. */
  lemma PayloadCanonical(kind: Byte, b: Bytes)
    requires GetPayload(kind, b).Holds?
    ensures var m := GetPayload(kind, b).message; KindOf(m) == kind && PutPayload(m) == b && ShortMessage(m)
  {
    hide GetHello, GetRequest, GetReply, PutHello, PutRequest, PutReply;
    if kind == 1 {
      HelloCanonical(b);
    } else if kind == 2 {
      RequestCanonical(b);
    } else if kind == 3 {
      ReplyCanonical(b);
    }
  }

  /** The bytes of a frame, then anything. */
  lemma SplitRoundTrip(kind: Byte, id: U32, payload: Bytes, rest: Bytes)
    requires HEADER + |payload| <= MAX_FRAME
    ensures var body := [kind] + PutU32(id) + payload;
      SplitFrame(PutU32(|body|) + body + rest) == Framed(Raw(kind, id, payload), 4 + |body|)
  {
    var body := [kind] + PutU32(id) + payload;
    var after := body + rest;
    assert PutU32(|body|) + body + rest == PutU32(|body|) + after;
    U32RoundTrip(|body|, after);
    assert after[1..] == PutU32(id) + (payload + rest);
    U32RoundTrip(id, payload + rest);
    assert after[5..|body|] == payload;
  }

  lemma SplitCanonical(b: Bytes)
    requires SplitFrame(b).Framed?
    ensures var raw := SplitFrame(b).raw;
      var body := [raw.kind] + PutU32(raw.id) + raw.payload;
      |body| <= MAX_FRAME && SplitFrame(b).used == 4 + |body| <= |b| && b[..SplitFrame(b).used] == PutU32(|body|) + body
  {
    U32Canonical(b);
    var length, rest := GetU32(b).value, GetU32(b).rest;
    U32Canonical(rest[1..]);
    var raw := SplitFrame(b).raw;
    assert rest[1..] == PutU32(raw.id) + GetU32(rest[1..]).rest;
    var body := [raw.kind] + PutU32(raw.id) + raw.payload;
    assert rest[..length] == body by {
      assert rest == [rest[0]] + rest[1..];
      assert rest[1..5] == PutU32(raw.id);
      assert rest[..length] == [rest[0]] + rest[1..5] + rest[5..length];
    }
  }

  /** A frame within the limit is read back, with its length, whatever follows it. */
  lemma FrameRoundTrip(f: Frame, rest: Bytes)
    requires ShortMessage(f.message) && |PutBody(f)| <= MAX_FRAME
    ensures DecodeFrame(PutFrame(f) + rest) == Accepted(f, |PutFrame(f)|)
  {
    hide PutPayload, GetPayload, PutU32, SplitFrame, ShortMessage;
    SplitRoundTrip(KindOf(f.message), f.id, PutPayload(f.message), rest);
    PayloadRoundTrip(f.message);
  }

  /** And only that: what is decoded has exactly the bytes used. */
  lemma FrameCanonical(b: Bytes)
    requires DecodeFrame(b).Accepted?
    ensures var f := DecodeFrame(b).frame;
      ShortMessage(f.message) && |PutBody(f)| <= MAX_FRAME
      && DecodeFrame(b).used <= |b| && b[..DecodeFrame(b).used] == PutFrame(f)
  {
    hide PutPayload, GetPayload, PutU32, SplitFrame, ShortMessage;
    SplitCanonical(b);
    PayloadCanonical(SplitFrame(b).raw.kind, SplitFrame(b).raw.payload);
  }

  /** The size `submit` compares with the limit, without encoding the request. */
  function RequestFrameLength(r: Request): nat {
    4 + HEADER + 3 * 4 + |r.rel| + |r.abs| + |r.source| + 5
  }

  /** A request that passes that comparison is as long as predicted, and the helper accepts it. */
  lemma SubmittedIsAccepted(id: U32, r: Request, rest: Bytes)
    requires RequestFrameLength(r) <= MAX_FRAME
    ensures |PutFrame(Frame(id, Process(r)))| == RequestFrameLength(r)
    ensures DecodeFrame(PutFrame(Frame(id, Process(r))) + rest) == Accepted(Frame(id, Process(r)), RequestFrameLength(r))
  {
    StepsLength(r.steps);
    FrameRoundTrip(Frame(id, Process(r)), rest);
  }

  lemma StepsLength(s: Steps)
    ensures |PutSteps(s)| == 5
  {
    FlagsLength(Flags(s));
  }

  lemma FlagsLength(flags: seq<bool>)
    ensures |PutMany(PutBool, flags)| == |flags|
  {
    if flags != [] {
      FlagsLength(flags[1..]);
    }
  }
}
