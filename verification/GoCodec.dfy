/**
The helper's codec: a decoder whose first failure sticks, so that reads after it
give zero values, and an encoder that grows a buffer.
*/
module GoCodec {
  import opened Wire
  import opened WireRoundTrip
  import RustCodec

  /** A read that gives what parsing does, or zero and a failure that stays. */
  ghost predicate Gives<T(!new)>(p: Parsed<T>, failed: bool, buf: Bytes, value: T) {
    match p
    case Bad => failed && buf == []
    case Got(x, rest) => !failed && buf == rest && value == x
  }

  class Decoder {
    var buf: Bytes
    var failed: bool

    constructor (payload: Bytes)
      ensures buf == payload && !failed
    {
      buf, failed := payload, false;
    }

    /** Nothing is left to read after a failure. */
    ghost predicate Valid()
      reads this
    {
      failed ==> buf == []
    }

    method Fail()
      modifies this
      ensures failed && buf == []
    {
      failed, buf := true, [];
    }

    method Take(n: nat) returns (ok: bool, bytes: Bytes)
      requires Valid()
      modifies this
      ensures Valid() && (old(failed) ==> failed && !ok)
      ensures !old(failed) && n <= |old(buf)| ==> ok && !failed && bytes == old(buf)[..n] && buf == old(buf)[n..]
      ensures !old(failed) && n > |old(buf)| ==> !ok && failed
    {
      if failed {
        return false, [];
      }
      if n > |buf| {
        Fail();
        return false, [];
      }
      ok, bytes := true, buf[..n];
      buf := buf[n..];
    }

    method ReadU32() returns (n: U32)
      requires Valid()
      modifies this
      ensures Valid() && (old(failed) ==> failed && n == 0)
      ensures !old(failed) ==> Gives(GetU32(old(buf)), failed, buf, n) && (failed ==> n == 0)
    {
      var ok, b := Take(4);
      if !ok {
        return 0;
      }
      n := b[0] as int + 256 * (b[1] as int) + 65536 * (b[2] as int) + 16777216 * (b[3] as int);
    }

    method ReadBytes() returns (bytes: Bytes)
      requires Valid()
      modifies this
      ensures Valid() && (old(failed) ==> failed)
      ensures !old(failed) ==> Gives(GetBytes(old(buf)), failed, buf, bytes)
    {
      var n := ReadU32();
      var ok;
      ok, bytes := Take(n);
    }

    method ReadBool() returns (flag: bool)
      requires Valid()
      modifies this
      ensures Valid() && (old(failed) ==> failed && !flag)
      ensures !old(failed) ==> Gives(GetBool(old(buf)), failed, buf, flag)
    {
      var ok, b := Take(1);
      if !ok || b[0] == 0 {
        return false;
      }
      if b[0] == 1 {
        return true;
      }
      Fail();
      return false;
    }

    method ReadCount(least: nat) returns (n: nat)
      requires Valid()
      modifies this
      ensures Valid() && (old(failed) ==> failed && n == 0)
      ensures !old(failed) ==>
        && (failed ==> n == 0)
        && (GetCount(least, old(buf)).Bad? ==> failed)
        && (GetCount(least, old(buf)).Got? ==> !failed && n == GetCount(least, old(buf)).value && buf == GetCount(least, old(buf)).rest)
    {
      var count := ReadU32();
      if failed {
        return 0;
      }
      if count * least > |buf| {
        Fail();
        return 0;
      }
      n := count;
    }

    method ReadViolation() returns (v: Violation)
      requires Valid()
      modifies this
      ensures Valid() && (old(failed) ==> failed)
      ensures !old(failed) ==> Gives(GetViolation(old(buf)), failed, buf, v)
    {
      hide GetBytes, GetU32;
      var rule := ReadBytes();
      var line := ReadU32();
      var column := ReadU32();
      var message := ReadBytes();
      v := Violation(rule, line, column, message);
    }

    method ReadScore() returns (s: Score)
      requires Valid()
      modifies this
      ensures Valid() && (old(failed) ==> failed)
      ensures !old(failed) ==> Gives(GetScore(old(buf)), failed, buf, s)
    {
      hide GetBytes, GetU32;
      var key := ReadBytes();
      var name := ReadBytes();
      var line := ReadU32();
      var cyclomatic := ReadU32();
      var cognitive := ReadU32();
      s := Score(key, name, line, cyclomatic, cognitive);
    }

    /** Whether a list of which `items` are read goes on as parsing `n` more from here does. */
    ghost predicate Continues<T(!new)>(get: Bytes -> Parsed<T>, items: seq<T>, n: nat, total: Parsed<seq<T>>)
      reads this
    {
      if failed then total.Bad? else RustCodec.Joined(items, GetMany(get, n, buf)) == total
    }

    method ReadNames() returns (items: seq<Bytes>)
      requires Valid()
      modifies this
      ensures Valid() && (old(failed) ==> failed)
      ensures !old(failed) ==> Gives(GetList(GetBytes, 4, old(buf)), failed, buf, items)
    {
      hide GetBytes;
      var count := ReadCount(4);
      items := [];
      ghost var total := GetMany(GetBytes, count, buf);
      RustCodec.JoinedEnds(GetBytes, items, total, buf);
      ghost var stuck := failed;
      for i := 0 to count
        invariant Valid() && (stuck ==> failed) && (!stuck ==> Continues(GetBytes, items, count - i, total))
      {
        RustCodec.OneMore(GetBytes, items, count - i, buf);
        var x := ReadBytes();
        items := items + [x];
      }
      RustCodec.JoinedEnds(GetBytes, items, Bad, buf);
    }

    method ReadViolations() returns (items: seq<Violation>)
      requires Valid()
      modifies this
      ensures Valid() && (old(failed) ==> failed)
      ensures !old(failed) ==> Gives(GetList(GetViolation, 16, old(buf)), failed, buf, items)
    {
      hide GetViolation;
      var count := ReadCount(16);
      items := [];
      ghost var total := GetMany(GetViolation, count, buf);
      RustCodec.JoinedEnds(GetViolation, items, total, buf);
      ghost var stuck := failed;
      for i := 0 to count
        invariant Valid() && (stuck ==> failed) && (!stuck ==> Continues(GetViolation, items, count - i, total))
      {
        RustCodec.OneMore(GetViolation, items, count - i, buf);
        var x := ReadViolation();
        items := items + [x];
      }
      RustCodec.JoinedEnds(GetViolation, items, Bad, buf);
    }

    method ReadScores() returns (items: seq<Score>)
      requires Valid()
      modifies this
      ensures Valid() && (old(failed) ==> failed)
      ensures !old(failed) ==> Gives(GetList(GetScore, 20, old(buf)), failed, buf, items)
    {
      hide GetScore;
      var count := ReadCount(20);
      items := [];
      ghost var total := GetMany(GetScore, count, buf);
      RustCodec.JoinedEnds(GetScore, items, total, buf);
      ghost var stuck := failed;
      for i := 0 to count
        invariant Valid() && (stuck ==> failed) && (!stuck ==> Continues(GetScore, items, count - i, total))
      {
        RustCodec.OneMore(GetScore, items, count - i, buf);
        var x := ReadScore();
        items := items + [x];
      }
      RustCodec.JoinedEnds(GetScore, items, Bad, buf);
    }

    method ReadSteps() returns (s: Steps)
      requires Valid()
      modifies this
      ensures Valid() && (old(failed) ==> failed)
      ensures !old(failed) ==> Gives(GetSteps(old(buf)), failed, buf, s)
    {
      hide GetBool;
      ghost var total := GetMany(GetBool, 5, buf);
      ghost var stuck := failed;
      var flags: seq<bool> := [];
      RustCodec.JoinedEnds(GetBool, flags, total, buf);
      for i := 0 to 5
        invariant Valid() && |flags| == i && (stuck ==> failed) && (!stuck ==> Continues(GetBool, flags, 5 - i, total))
      {
        RustCodec.OneMore(GetBool, flags, 5 - i, buf);
        var x := ReadBool();
        flags := flags + [x];
      }
      RustCodec.JoinedEnds(GetBool, flags, Bad, buf);
      s := Steps(flags[0], flags[1], flags[2], flags[3], flags[4]);
    }

    /** No failure, and nothing left. */
    predicate Finished()
      reads this
    {
      !failed && buf == []
    }
  }

  method DecodeHello(payload: Bytes) returns (ok: bool, hello: Hello)
    ensures Whole(GetHello(payload), (h: Hello) => Greeting(h)) == if ok then Holds(Greeting(hello)) else Malformed
  {
    hide GetBytes, GetU32;
    var d := new Decoder(payload);
    var proto := d.ReadU32();
    var version := d.ReadBytes();
    ok, hello := d.Finished(), Hello(proto, version);
  }

  method DecodeRequest(payload: Bytes) returns (ok: bool, request: Request)
    ensures Whole(GetRequest(payload), (r: Request) => Process(r)) == if ok then Holds(Process(request)) else Malformed
  {
    hide GetBytes, GetSteps;
    var d := new Decoder(payload);
    var rel := d.ReadBytes();
    var abs := d.ReadBytes();
    var source := d.ReadBytes();
    var steps := d.ReadSteps();
    ok, request := d.Finished(), Request(rel, abs, source, steps);
  }

  method DecodeReply(payload: Bytes) returns (ok: bool, reply: Reply)
    ensures Whole(GetReply(payload), (r: Reply) => Answer(r)) == if ok then Holds(Answer(reply)) else Malformed
  {
    hide GetBytes, GetList;
    var d := new Decoder(payload);
    var error := d.ReadBytes();
    var output := d.ReadBytes();
    var applied := d.ReadNames();
    var violations := d.ReadViolations();
    var complexity := d.ReadScores();
    ok, reply := d.Finished(), Reply(error, output, applied, violations, complexity);
  }

  /** A payload the helper accepts is, byte for byte, the encoding of what it decoded. */
  method AcceptRequest(payload: Bytes) returns (ok: bool, request: Request)
    ensures ok ==> PutRequest(request) == payload && ShortRequest(request)
    ensures !ok ==> forall r :: ShortRequest(r) ==> PutRequest(r) != payload
  {
    ok, request := DecodeRequest(payload);
    if ok {
      PayloadCanonical(2, payload);
    } else {
      forall r | ShortRequest(r) ensures PutRequest(r) != payload {
        PayloadRoundTrip(Process(r));
      }
    }
  }

  method AcceptReply(payload: Bytes) returns (ok: bool, reply: Reply)
    ensures ok ==> PutReply(reply) == payload && ShortReply(reply)
    ensures !ok ==> forall r :: ShortReply(r) ==> PutReply(r) != payload
  {
    ok, reply := DecodeReply(payload);
    if ok {
      PayloadCanonical(3, payload);
    } else {
      forall r | ShortReply(r) ensures PutReply(r) != payload {
        PayloadRoundTrip(Answer(r));
      }
    }
  }

  // ----- encoding -----

  class Encoder {
    var buf: Bytes

    constructor ()
      ensures buf == []
    {
      buf := [];
    }

    method AddU32(n: U32)
      modifies this
      ensures buf == old(buf) + PutU32(n)
    {
      buf := buf + PutU32(n);
    }

    /** A count the format has no room for wraps around. */
    method AddCount(n: nat)
      modifies this
      ensures buf == old(buf) + PutU32(n % LIMIT)
    {
      AddU32(n % LIMIT);
    }

    method AddBytes(b: Bytes)
      modifies this
      ensures Short(b) ==> buf == old(buf) + PutBytes(b)
    {
      hide PutU32;
      AddCount(|b|);
      buf := buf + b;
    }

    method AddFlag(b: bool)
      modifies this
      ensures buf == old(buf) + PutBool(b)
    {
      if b {
        buf := buf + [1];
        return;
      }
      buf := buf + [0];
    }

    method AddSteps(s: Steps)
      modifies this
      ensures buf == old(buf) + PutSteps(s)
    {
      hide PutMany;
      AddFlag(s.spacing);
      AddFlag(s.gofmt);
      AddFlag(s.goimports);
      AddFlag(s.resolveImports);
      AddFlag(s.complexity);
      FlagBytes(Flags(s));
    }

    method AddViolation(v: Violation)
      modifies this
      ensures ShortViolation(v) ==> buf == old(buf) + PutViolation(v)
    {
      hide PutBytes, PutU32;
      AddBytes(v.rule);
      AddU32(v.line);
      AddU32(v.column);
      AddBytes(v.message);
    }

    method AddScore(s: Score)
      modifies this
      ensures ShortScore(s) ==> buf == old(buf) + PutScore(s)
    {
      hide PutBytes, PutU32;
      AddBytes(s.key);
      AddBytes(s.name);
      AddU32(s.line);
      AddU32(s.cyclomatic);
      AddU32(s.cognitive);
    }

    method AddNames(names: seq<Bytes>)
      requires |names| < LIMIT && forall i :: 0 <= i < |names| ==> Short(names[i])
      modifies this
      ensures buf == old(buf) + PutList(PutBytes, names)
    {
      hide PutBytes;
      AddCount(|names|);
      ghost var start := buf;
      assert names[0..] == names;
      for i := 0 to |names|
        invariant buf + PutMany(PutBytes, names[i..]) == start + PutMany(PutBytes, names)
      {
        assert names[i..][0] == names[i] && names[i..][1..] == names[i + 1..];
        AddBytes(names[i]);
      }
      assert names[|names|..] == [] && buf + [] == buf;
    }

    method AddViolations(items: seq<Violation>)
      requires |items| < LIMIT && forall i :: 0 <= i < |items| ==> ShortViolation(items[i])
      modifies this
      ensures buf == old(buf) + PutList(PutViolation, items)
    {
      hide PutViolation;
      AddCount(|items|);
      ghost var start := buf;
      assert items[0..] == items;
      for i := 0 to |items|
        invariant buf + PutMany(PutViolation, items[i..]) == start + PutMany(PutViolation, items)
      {
        assert items[i..][0] == items[i] && items[i..][1..] == items[i + 1..];
        AddViolation(items[i]);
      }
      assert items[|items|..] == [] && buf + [] == buf;
    }

    method AddScores(items: seq<Score>)
      requires |items| < LIMIT && forall i :: 0 <= i < |items| ==> ShortScore(items[i])
      modifies this
      ensures buf == old(buf) + PutList(PutScore, items)
    {
      hide PutScore;
      AddCount(|items|);
      ghost var start := buf;
      assert items[0..] == items;
      for i := 0 to |items|
        invariant buf + PutMany(PutScore, items[i..]) == start + PutMany(PutScore, items)
      {
        assert items[i..][0] == items[i] && items[i..][1..] == items[i + 1..];
        AddScore(items[i]);
      }
      assert items[|items|..] == [] && buf + [] == buf;
    }
  }

  method EncodeReply(reply: Reply) returns (payload: Bytes)
    requires ShortReply(reply)
    ensures payload == PutReply(reply)
  {
    hide PutBytes, PutList;
    var e := new Encoder();
    e.AddBytes(reply.error);
    e.AddBytes(reply.output);
    e.AddNames(reply.applied);
    e.AddViolations(reply.violations);
    e.AddScores(reply.complexity);
    payload := e.buf;
  }

  method EncodeRequest(request: Request) returns (payload: Bytes)
    requires ShortRequest(request)
    ensures payload == PutRequest(request)
  {
    hide PutBytes, PutSteps;
    var e := new Encoder();
    e.AddBytes(request.rel);
    e.AddBytes(request.abs);
    e.AddBytes(request.source);
    e.AddSteps(request.steps);
    payload := e.buf;
  }

  lemma FlagBytes(flags: seq<bool>)
    ensures |PutMany(PutBool, flags)| == |flags|
    ensures forall i :: 0 <= i < |flags| ==> PutMany(PutBool, flags)[i] == if flags[i] then 1 else 0
  {
    if flags != [] {
      FlagBytes(flags[1..]);
    }
  }

  /** The helper's frame around an encoded payload; a length the format has no room for wraps around. */
  method AppendFrame(out: Bytes, kind: Byte, id: U32, payload: Bytes) returns (r: Bytes)
    ensures HEADER + |payload| < LIMIT ==> r == out + PutU32(HEADER + |payload|) + ([kind] + PutU32(id) + payload)
  {
    hide PutU32;
    r := out + PutU32((HEADER + |payload|) % LIMIT) + [kind] + PutU32(id) + payload;
  }

  /** The reply a worker sends is the frame the client's encoding would be, and the client reads it back. */
  lemma RepliesAreRead(id: U32, reply: Reply, rest: Bytes)
    requires ShortReply(reply) && HEADER + |PutReply(reply)| <= MAX_FRAME
    ensures var payload := PutReply(reply);
      var frame := PutU32(HEADER + |payload|) + ([3] + PutU32(id) + payload);
      frame == PutFrame(Frame(id, Answer(reply))) && DecodeFrame(frame + rest) == Accepted(Frame(id, Answer(reply)), |frame|)
  {
    hide PutReply, PutU32;
    FrameRoundTrip(Frame(id, Answer(reply)), rest);
  }

  datatype GoRead = EndOfStream | OneFrame(raw: RawFrame) | BadFrame | Unreadable

  /** One frame of a stream, its payload still encoded. */
  method ReadFrame(stream: RustCodec.Stream) returns (r: GoRead)
    requires RustCodec.Sound(stream.chunks)
    modifies stream
    ensures var before := RustCodec.Contents(old(stream.chunks));
      match r
      case EndOfStream => before == []
      case OneFrame(raw) => exists used: nat ::
        used <= |before| && SplitFrame(before) == Framed(raw, used) && RustCodec.Contents(stream.chunks) == before[used..]
      case BadFrame => before != [] && SplitFrame(before) == Broken
      case Unreadable => false
  {
    ghost var before := RustCodec.Contents(stream.chunks);
    var ok, prefix := stream.Fill(4);
    if !ok {
      return Unreadable;
    }
    if prefix == [] {
      return EndOfStream;
    }
    if |prefix| < 4 {
      return BadFrame;
    }
    ghost var rest := RustCodec.Contents(stream.chunks);
    RustCodec.PrefixOf(before, prefix, rest);
    var length := GetU32(prefix).value;
    if length < HEADER || length > MAX_FRAME {
      return BadFrame;
    }
    var body;
    ok, body := stream.Fill(length);
    if !ok {
      return Unreadable;
    }
    if |body| < length {
      return BadFrame;
    }
    RustCodec.BodyOf(rest, length);
    assert body == rest[..length];
    assert before[4 + length..] == RustCodec.Contents(stream.chunks);
    r := OneFrame(Raw(body[0], GetU32(body[1..]).value, body[5..]));
  }
}
