/**
The wire format between the client and the helper: what a frame's bytes are, and
what a decoder may make of bytes. Text is a byte sequence.
*/
module Wire {

  type Byte = b: int | 0 <= b < 256 witness 0

  type Bytes = seq<Byte>

  const LIMIT: nat := 0x1_0000_0000

  /** The largest accepted value of a frame's length field: 256 MiB. */
  const MAX_FRAME: nat := 0x1000_0000

  /** The kind byte and the id that follow the length field. */
  const HEADER: nat := 5

  type U32 = n: int | 0 <= n < LIMIT witness 0

  datatype Hello = Hello(proto: U32, version: Bytes)

  datatype Steps = Steps(spacing: bool, gofmt: bool, goimports: bool, resolveImports: bool, complexity: bool)

  datatype Request = Request(rel: Bytes, abs: Bytes, source: Bytes, steps: Steps)

  datatype Violation = Violation(rule: Bytes, line: U32, column: U32, message: Bytes)

  datatype Score = Score(key: Bytes, name: Bytes, line: U32, cyclomatic: U32, cognitive: U32)

  datatype Reply = Reply(error: Bytes, output: Bytes, applied: seq<Bytes>, violations: seq<Violation>, complexity: seq<Score>)

  datatype Message = Greeting(hello: Hello) | Process(request: Request) | Answer(reply: Reply) | Shutdown

  datatype Frame = Frame(id: U32, message: Message)

  function KindOf(m: Message): Byte {
    match m
    case Greeting(_) => 1
    case Process(_) => 2
    case Answer(_) => 3
    case Shutdown => 4
  }

  // ----- bytes -----

  function PutU32(n: U32): (b: Bytes)
    ensures |b| == 4
  {
    [n % 256, n / 256 % 256, n / 65536 % 256, n / 16777216]
  }

  /** A length the format has no room for is saturated. */
  function Length(n: nat): U32 {
    if n < LIMIT then n else LIMIT - 1
  }

  function PutBytes(b: Bytes): Bytes {
    PutU32(Length(|b|)) + b
  }

  function PutBool(b: bool): Bytes {
    [if b then 1 else 0]
  }

  function PutMany<T>(put: T -> Bytes, items: seq<T>): Bytes {
    if items == [] then [] else put(items[0]) + PutMany(put, items[1..])
  }

  function PutList<T>(put: T -> Bytes, items: seq<T>): Bytes {
    PutU32(Length(|items|)) + PutMany(put, items)
  }

  function PutViolation(v: Violation): Bytes {
    PutBytes(v.rule) + (PutU32(v.line) + (PutU32(v.column) + PutBytes(v.message)))
  }

  function PutScore(s: Score): Bytes {
    PutBytes(s.key) + (PutBytes(s.name) + (PutU32(s.line) + (PutU32(s.cyclomatic) + PutU32(s.cognitive))))
  }

  function PutHello(h: Hello): Bytes {
    PutU32(h.proto) + PutBytes(h.version)
  }

  function Flags(s: Steps): seq<bool> {
    [s.spacing, s.gofmt, s.goimports, s.resolveImports, s.complexity]
  }

  function PutSteps(s: Steps): Bytes {
    PutMany(PutBool, Flags(s))
  }

  function PutRequest(r: Request): Bytes {
    PutBytes(r.rel) + (PutBytes(r.abs) + (PutBytes(r.source) + PutSteps(r.steps)))
  }

  function PutReply(r: Reply): Bytes {
    PutBytes(r.error) + (PutBytes(r.output) + (PutList(PutBytes, r.applied) + (PutList(PutViolation, r.violations) + PutList(PutScore, r.complexity))))
  }

  function PutPayload(m: Message): Bytes {
    match m
    case Greeting(hello) => PutHello(hello)
    case Process(request) => PutRequest(request)
    case Answer(reply) => PutReply(reply)
    case Shutdown => []
  }

  function PutBody(f: Frame): Bytes {
    [KindOf(f.message)] + PutU32(f.id) + PutPayload(f.message)
  }

  function PutFrame(f: Frame): Bytes {
    PutU32(Length(|PutBody(f)|)) + PutBody(f)
  }

  // ----- parsing -----

  /** A value read off the front, and what follows it; or bytes that hold none. */
  datatype Parsed<T> = Bad | Got(value: T, rest: Bytes)

  function GetU32(b: Bytes): Parsed<U32> {
    if |b| < 4 then Bad else Got(b[0] as int + 256 * (b[1] as int) + 65536 * (b[2] as int) + 16777216 * (b[3] as int), b[4..])
  }

  function GetBytes(b: Bytes): Parsed<Bytes> {
    match GetU32(b)
    case Bad => Bad
    case Got(n, rest) => if n > |rest| then Bad else Got(rest[..n], rest[n..])
  }

  function GetByte(b: Bytes): Parsed<Byte> {
    if b == [] then Bad else Got(b[0], b[1..])
  }

  function GetBool(b: Bytes): Parsed<bool> {
    if b == [] || b[0] > 1 then Bad else Got(b[0] == 1, b[1..])
  }

  function GetMany<T>(get: Bytes -> Parsed<T>, n: nat, b: Bytes): (r: Parsed<seq<T>>)
    ensures r.Got? ==> |r.value| == n
    decreases n
  {
    if n == 0 then Got([], b) else
      match get(b)
      case Bad => Bad
      case Got(x, rest) =>
        match GetMany(get, n - 1, rest)
        case Bad => Bad
        case Got(xs, after) => Got([x] + xs, after)
  }

  /** A list length, rejected when what remains cannot hold that many elements of `least` bytes. */
  function GetCount(least: nat, b: Bytes): Parsed<U32> {
    match GetU32(b)
    case Bad => Bad
    case Got(n, rest) => if n * least > |rest| then Bad else Got(n, rest)
  }

  function GetList<T>(get: Bytes -> Parsed<T>, least: nat, b: Bytes): Parsed<seq<T>> {
    match GetCount(least, b)
    case Bad => Bad
    case Got(n, rest) => GetMany(get, n, rest)
  }

  /** One value, then another that may depend on it. */
  function Then<A, B>(a: Parsed<A>, next: (A, Bytes) -> Parsed<B>): Parsed<B> {
    match a
    case Bad => Bad
    case Got(x, rest) => next(x, rest)
  }

  function GetViolation(b: Bytes): Parsed<Violation> {
    Then(GetBytes(b), (rule, b1) =>
    Then(GetU32(b1), (line, b2) =>
    Then(GetU32(b2), (column, b3) =>
    Then(GetBytes(b3), (message, b4) => Got(Violation(rule, line, column, message), b4)))))
  }

  function GetScore(b: Bytes): Parsed<Score> {
    Then(GetBytes(b), (key, b1) =>
    Then(GetBytes(b1), (name, b2) =>
    Then(GetU32(b2), (line, b3) =>
    Then(GetU32(b3), (cyclomatic, b4) =>
    Then(GetU32(b4), (cognitive, b5) => Got(Score(key, name, line, cyclomatic, cognitive), b5))))))
  }

  function GetHello(b: Bytes): Parsed<Hello> {
    Then(GetU32(b), (proto, b1) =>
    Then(GetBytes(b1), (version, b2) => Got(Hello(proto, version), b2)))
  }

  function GetSteps(b: Bytes): Parsed<Steps> {
    match GetMany(GetBool, 5, b)
    case Bad => Bad
    case Got(flags, rest) => Got(Steps(flags[0], flags[1], flags[2], flags[3], flags[4]), rest)
  }

  function GetRequest(b: Bytes): Parsed<Request> {
    Then(GetBytes(b), (rel, b1) =>
    Then(GetBytes(b1), (abs, b2) =>
    Then(GetBytes(b2), (source, b3) =>
    Then(GetSteps(b3), (steps, b4) => Got(Request(rel, abs, source, steps), b4)))))
  }

  function GetReply(b: Bytes): Parsed<Reply> {
    Then(GetBytes(b), (error, b1) =>
    Then(GetBytes(b1), (output, b2) =>
    Then(GetList(GetBytes, 4, b2), (applied, b3) =>
    Then(GetList(GetViolation, 16, b3), (violations, b4) =>
    Then(GetList(GetScore, 20, b4), (complexity, b5) => Got(Reply(error, output, applied, violations, complexity), b5))))))
  }

  /** What a whole payload holds. */
  datatype Payload = Malformed | Holds(message: Message)

  function Whole<T>(p: Parsed<T>, wrap: T -> Message): Payload {
    if p.Got? && p.rest == [] then Holds(wrap(p.value)) else Malformed
  }

  function GetPayload(kind: Byte, b: Bytes): Payload {
    if kind == 1 then Whole(GetHello(b), (h: Hello) => Greeting(h)) else
    if kind == 2 then Whole(GetRequest(b), (r: Request) => Process(r)) else
    if kind == 3 then Whole(GetReply(b), (r: Reply) => Answer(r)) else
    if kind == 4 && b == [] then Holds(Shutdown) else Malformed
  }

  /** A frame as the helper reads it, its payload still encoded. */
  datatype RawFrame = Raw(kind: Byte, id: U32, payload: Bytes)

  datatype Split = Broken | Framed(raw: RawFrame, used: nat)

  /** The first frame of a stream: a length from the header's to the largest, and that many bytes. */
  function SplitFrame(b: Bytes): Split {
    match GetU32(b)
    case Bad => Broken
    case Got(length, rest) =>
      if length < HEADER || length > MAX_FRAME || length > |rest| then Broken else
        Framed(Raw(rest[0], GetU32(rest[1..]).value, rest[5..length]), 4 + length)
  }

  datatype Decoded = Rejected | Accepted(frame: Frame, used: nat)

  function DecodeFrame(b: Bytes): Decoded {
    match SplitFrame(b)
    case Broken => Rejected
    case Framed(raw, used) =>
      match GetPayload(raw.kind, raw.payload)
      case Malformed => Rejected
      case Holds(message) => Accepted(Frame(raw.id, message), used)
  }
}
