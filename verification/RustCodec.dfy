/**
The client's codec: a cursor that stops at the first thing it cannot read, an
encoder that patches the length in at the end, and a reader of frames that
arrive in pieces.
*/
module RustCodec {
  import opened Wire
  import opened WireRoundTrip

  datatype Read<T> = Fails | Reads(value: T)

  /** What reading gives, and what it leaves, when parsing gives `p`. */
  ghost predicate Matches<T(!new)>(r: Read<T>, buf: Bytes, p: Parsed<T>) {
    match p
    case Bad => r.Fails?
    case Got(value, rest) => r == Reads(value) && buf == rest
  }

  function Joined<T>(items: seq<T>, p: Parsed<seq<T>>): Parsed<seq<T>> {
    match p
    case Bad => Bad
    case Got(more, rest) => Got(items + more, rest)
  }

  /** One more element read from a list. */
  lemma OneMore<T(!new)>(get: Bytes -> Parsed<T>, items: seq<T>, n: nat, b: Bytes)
    requires n > 0
    ensures get(b).Bad? ==> Joined(items, GetMany(get, n, b)).Bad?
    ensures get(b).Got? ==> Joined(items, GetMany(get, n, b)) == Joined(items + [get(b).value], GetMany(get, n - 1, get(b).rest))
  {
    if get(b).Got? && GetMany(get, n - 1, get(b).rest).Got? {
      var x, more := get(b).value, GetMany(get, n - 1, get(b).rest).value;
      assert items + ([x] + more) == (items + [x]) + more;
    }
  }

  lemma JoinedEnds<T(!new)>(get: Bytes -> Parsed<T>, items: seq<T>, p: Parsed<seq<T>>, b: Bytes)
    ensures Joined([], p) == p
    ensures Joined(items, GetMany(get, 0, b)) == Got(items, b)
  {
    assert items + [] == items;
    if p.Got? {
      assert [] + p.value == p.value;
    }
  }

  class Cursor {
    var buf: Bytes

    constructor (buf: Bytes)
      ensures this.buf == buf
    {
      this.buf := buf;
    }

    method Take(n: nat) returns (r: Read<Bytes>)
      modifies this
      ensures r == if n > |old(buf)| then Fails else Reads(old(buf)[..n])
      ensures buf == if n > |old(buf)| then old(buf) else old(buf)[n..]
    {
      if n > |buf| {
        return Fails;
      }
      r := Reads(buf[..n]);
      buf := buf[n..];
    }

    method ReadByte() returns (r: Read<Byte>)
      modifies this
      ensures Matches(r, buf, GetByte(old(buf)))
    {
      var b := Take(1);
      r := if b.Fails? then Fails else Reads(b.value[0]);
    }

    method ReadU32() returns (r: Read<U32>)
      modifies this
      ensures Matches(r, buf, GetU32(old(buf)))
    {
      if |buf| < 4 {
        return Fails;
      }
      r := Reads(buf[0] as int + 256 * (buf[1] as int) + 65536 * (buf[2] as int) + 16777216 * (buf[3] as int));
      buf := buf[4..];
    }

    method ReadBool() returns (r: Read<bool>)
      modifies this
      ensures Matches(r, buf, GetBool(old(buf)))
    {
      var b := ReadByte();
      r := if b.Fails? || b.value > 1 then Fails else Reads(b.value == 1);
    }

    method ReadText() returns (r: Read<Bytes>)
      modifies this
      ensures Matches(r, buf, GetBytes(old(buf)))
    {
      var n := ReadU32();
      if n.Fails? {
        return Fails;
      }
      r := Take(n.value);
    }

    method ReadCount(least: nat) returns (r: Read<U32>)
      modifies this
      ensures Matches(r, buf, GetCount(least, old(buf)))
    {
      r := ReadU32();
      if r.Reads? && r.value * least > |buf| {
        r := Fails;
      }
    }

    method ReadNames() returns (r: Read<seq<Bytes>>)
      modifies this
      ensures Matches(r, buf, GetList(GetBytes, 4, old(buf)))
    {
      hide GetBytes;
      var count := ReadCount(4);
      if count.Fails? {
        return Fails;
      }
      ghost var start := buf;
      var items := [];
      JoinedEnds(GetBytes, items, GetMany(GetBytes, count.value, start), start);
      for i := 0 to count.value
        invariant Joined(items, GetMany(GetBytes, count.value - i, buf)) == GetMany(GetBytes, count.value, start)
      {
        OneMore(GetBytes, items, count.value - i, buf);
        var x := ReadText();
        if x.Fails? {
          return Fails;
        }
        items := items + [x.value];
      }
      JoinedEnds(GetBytes, items, Bad, buf);
      r := Reads(items);
    }

    method ReadViolation() returns (r: Read<Violation>)
      modifies this
      ensures Matches(r, buf, GetViolation(old(buf)))
    {
      hide GetBytes, GetU32;
      var rule := ReadText();
      if rule.Fails? {
        return Fails;
      }
      var line := ReadU32();
      if line.Fails? {
        return Fails;
      }
      var column := ReadU32();
      if column.Fails? {
        return Fails;
      }
      var message := ReadText();
      if message.Fails? {
        return Fails;
      }
      r := Reads(Violation(rule.value, line.value, column.value, message.value));
    }

    method ReadViolations() returns (r: Read<seq<Violation>>)
      modifies this
      ensures Matches(r, buf, GetList(GetViolation, 16, old(buf)))
    {
      hide GetViolation;
      var count := ReadCount(16);
      if count.Fails? {
        return Fails;
      }
      ghost var start := buf;
      var items := [];
      JoinedEnds(GetViolation, items, GetMany(GetViolation, count.value, start), start);
      for i := 0 to count.value
        invariant Joined(items, GetMany(GetViolation, count.value - i, buf)) == GetMany(GetViolation, count.value, start)
      {
        OneMore(GetViolation, items, count.value - i, buf);
        var x := ReadViolation();
        if x.Fails? {
          return Fails;
        }
        items := items + [x.value];
      }
      JoinedEnds(GetViolation, items, Bad, buf);
      r := Reads(items);
    }

    method ReadScore() returns (r: Read<Score>)
      modifies this
      ensures Matches(r, buf, GetScore(old(buf)))
    {
      hide GetBytes, GetU32;
      var key := ReadText();
      if key.Fails? {
        return Fails;
      }
      var name := ReadText();
      if name.Fails? {
        return Fails;
      }
      var line := ReadU32();
      if line.Fails? {
        return Fails;
      }
      var cyclomatic := ReadU32();
      if cyclomatic.Fails? {
        return Fails;
      }
      var cognitive := ReadU32();
      if cognitive.Fails? {
        return Fails;
      }
      r := Reads(Score(key.value, name.value, line.value, cyclomatic.value, cognitive.value));
    }

    method ReadScores() returns (r: Read<seq<Score>>)
      modifies this
      ensures Matches(r, buf, GetList(GetScore, 20, old(buf)))
    {
      hide GetScore;
      var count := ReadCount(20);
      if count.Fails? {
        return Fails;
      }
      ghost var start := buf;
      var items := [];
      JoinedEnds(GetScore, items, GetMany(GetScore, count.value, start), start);
      for i := 0 to count.value
        invariant Joined(items, GetMany(GetScore, count.value - i, buf)) == GetMany(GetScore, count.value, start)
      {
        OneMore(GetScore, items, count.value - i, buf);
        var x := ReadScore();
        if x.Fails? {
          return Fails;
        }
        items := items + [x.value];
      }
      JoinedEnds(GetScore, items, Bad, buf);
      r := Reads(items);
    }

    method DecodeHello() returns (r: Read<Hello>)
      modifies this
      ensures Matches(r, buf, GetHello(old(buf)))
    {
      hide GetBytes, GetU32;
      var proto := ReadU32();
      if proto.Fails? {
        return Fails;
      }
      var version := ReadText();
      if version.Fails? {
        return Fails;
      }
      r := Reads(Hello(proto.value, version.value));
    }

    method DecodeSteps() returns (r: Read<Steps>)
      modifies this
      ensures Matches(r, buf, GetSteps(old(buf)))
    {
      hide GetBool;
      ghost var start := buf;
      var flags: seq<bool> := [];
      JoinedEnds(GetBool, flags, GetMany(GetBool, 5, start), start);
      for i := 0 to 5
        invariant |flags| == i && Joined(flags, GetMany(GetBool, 5 - i, buf)) == GetMany(GetBool, 5, start)
      {
        OneMore(GetBool, flags, 5 - i, buf);
        var x := ReadBool();
        if x.Fails? {
          return Fails;
        }
        flags := flags + [x.value];
      }
      JoinedEnds(GetBool, flags, Bad, buf);
      r := Reads(Steps(flags[0], flags[1], flags[2], flags[3], flags[4]));
    }

    method DecodeRequest() returns (r: Read<Request>)
      modifies this
      ensures Matches(r, buf, GetRequest(old(buf)))
    {
      hide GetBytes, GetSteps;
      var rel := ReadText();
      if rel.Fails? {
        return Fails;
      }
      var abs := ReadText();
      if abs.Fails? {
        return Fails;
      }
      var source := ReadText();
      if source.Fails? {
        return Fails;
      }
      var steps := DecodeSteps();
      if steps.Fails? {
        return Fails;
      }
      r := Reads(Request(rel.value, abs.value, source.value, steps.value));
    }

    method DecodeReply() returns (r: Read<Reply>)
      modifies this
      ensures Matches(r, buf, GetReply(old(buf)))
    {
      hide GetBytes, GetList;
      var error := ReadText();
      if error.Fails? {
        return Fails;
      }
      var output := ReadText();
      if output.Fails? {
        return Fails;
      }
      var applied := ReadNames();
      if applied.Fails? {
        return Fails;
      }
      var violations := ReadViolations();
      if violations.Fails? {
        return Fails;
      }
      var complexity := ReadScores();
      if complexity.Fails? {
        return Fails;
      }
      r := Reads(Reply(error.value, output.value, applied.value, violations.value, complexity.value));
    }
  }

  /** A frame without its length. */
  method DecodeBody(body: Bytes) returns (r: Read<Frame>)
    requires |body| >= HEADER
    ensures var payload := GetPayload(body[0], body[5..]);
      r == if payload.Malformed? then Fails else Reads(Frame(GetU32(body[1..]).value, payload.message))
  {
    hide GetHello, GetRequest, GetReply;
    var cursor := new Cursor(body);
    var kind := cursor.ReadByte();
    var id := cursor.ReadU32();
    assert cursor.buf == body[5..];
    var message;
    if kind.value == 1 {
      var hello := cursor.DecodeHello();
      if hello.Fails? {
        return Fails;
      }
      message := Greeting(hello.value);
    } else if kind.value == 2 {
      var request := cursor.DecodeRequest();
      if request.Fails? {
        return Fails;
      }
      message := Process(request.value);
    } else if kind.value == 3 {
      var reply := cursor.DecodeReply();
      if reply.Fails? {
        return Fails;
      }
      message := Answer(reply.value);
    } else if kind.value == 4 {
      message := Shutdown;
    } else {
      return Fails;
    }
    r := if cursor.buf != [] then Fails else Reads(Frame(id.value, message));
  }

  /** The first frame of `buf`, and the number of bytes it used. */
  method Decode(buf: Bytes) returns (r: Decoded)
    ensures r == DecodeFrame(buf)
  {
    if |buf| < 4 {
      return Rejected;
    }
    var cursor := new Cursor(buf);
    var length := cursor.ReadU32();
    if length.value < HEADER || length.value > MAX_FRAME || length.value > |cursor.buf| {
      return Rejected;
    }
    var body := cursor.buf[..length.value];
    BodyOf(cursor.buf, length.value);
    var frame := DecodeBody(body);
    r := if frame.Fails? then Rejected else Accepted(frame.value, 4 + length.value);
  }

  lemma BodyOf(rest: Bytes, length: nat)
    requires HEADER <= length <= |rest|
    ensures rest[..length][0] == rest[0] && rest[..length][5..] == rest[5..length]
    ensures GetU32(rest[..length][1..]).value == GetU32(rest[1..]).value
  {
  }

  // ----- encoding -----

  method EncodeAll<T>(put: T -> Bytes, items: seq<T>, out: Bytes) returns (r: Bytes)
    ensures r == out + PutList(put, items)
  {
    r := out + PutU32(Length(|items|));
    ghost var start := r;
    assert items[0..] == items;
    for i := 0 to |items|
      invariant r + PutMany(put, items[i..]) == start + PutMany(put, items)
    {
      assert items[i..][0] == items[i] && items[i..][1..] == items[i + 1..];
      r := r + put(items[i]);
    }
    assert r + [] == r;
  }

  method EncodeReply(reply: Reply, out: Bytes) returns (r: Bytes)
    ensures r == out + PutReply(reply)
  {
    hide PutBytes, PutList;
    r := out + PutBytes(reply.error) + PutBytes(reply.output);
    r := EncodeAll(PutBytes, reply.applied, r);
    r := EncodeAll(PutViolation, reply.violations, r);
    r := EncodeAll(PutScore, reply.complexity, r);
  }

  /** Append a frame: room for the length, the frame, and then the length. */
  method Encode(frame: Frame, out: Bytes) returns (r: Bytes)
    ensures r == out + PutFrame(frame)
  {
    hide PutReply, PutRequest, PutHello, PutU32;
    var start := |out|;
    r := out + [0, 0, 0, 0] + [KindOf(frame.message)] + PutU32(frame.id);
    match frame.message {
      case Greeting(hello) => r := r + PutHello(hello);
      case Process(request) => r := r + PutRequest(request);
      case Answer(reply) => r := EncodeReply(reply, r);
      case Shutdown =>
    }
    assert r == out + [0, 0, 0, 0] + PutBody(frame);
    var length := Length(|r| - start - 4);
    r := r[..start] + PutU32(length) + r[start + 4..];
  }

  // ----- reading a stream -----

  /** What a stream delivers: some bytes at a time, an interruption, or an error. */
  datatype Chunk = Data(bytes: Bytes) | Interruption | Error

  datatype Piece = Some(bytes: Bytes) | End | Interrupted | Broken

  function Contents(chunks: seq<Chunk>): Bytes {
    if chunks == [] then [] else (if chunks[0].Data? then chunks[0].bytes else []) + Contents(chunks[1..])
  }

  predicate Sound(chunks: seq<Chunk>) {
    forall i :: 0 <= i < |chunks| ==> !chunks[i].Error? && (chunks[i].Data? ==> chunks[i].bytes != [])
  }

  class Stream {
    var chunks: seq<Chunk>

    /** At most `n` bytes, as many as have arrived. */
    method ReadSome(n: nat) returns (piece: Piece)
      requires n > 0
      modifies this
      ensures old(Sound(chunks)) ==>
        && Sound(chunks) && !piece.Broken?
        && (piece.Some? ==> 0 < |piece.bytes| <= n && Contents(old(chunks)) == piece.bytes + Contents(chunks))
        && (piece.End? ==> Contents(old(chunks)) == [] && chunks == [])
        && (piece.Interrupted? ==> Contents(old(chunks)) == Contents(chunks) && |chunks| < |old(chunks)|)
    {
      if chunks == [] {
        return End;
      }
      match chunks[0]
      case Error => return Piece.Broken;
      case Interruption =>
        chunks := chunks[1..];
        return Interrupted;
      case Data(bytes) =>
        if |bytes| <= n {
          chunks := chunks[1..];
          return Some(bytes);
        }
        ghost var rest := chunks[1..];
        piece := Some(bytes[..n]);
        chunks := [Data(bytes[n..])] + chunks[1..];
        assert chunks[1..] == rest;
        assert bytes + Contents(rest) == bytes[..n] + (bytes[n..] + Contents(rest));
    }

    /** Up to `n` bytes, fewer only at the end of the stream. */
    method Fill(n: nat) returns (ok: bool, bytes: Bytes)
      requires Sound(chunks)
      modifies this
      ensures ok && Sound(chunks) && Contents(old(chunks)) == bytes + Contents(chunks)
      ensures |bytes| <= n && (|bytes| < n ==> Contents(chunks) == [])
    {
      bytes := [];
      while |bytes| < n
        invariant Sound(chunks) && |bytes| <= n && Contents(old(chunks)) == bytes + Contents(chunks)
        decreases n - |bytes|, |chunks|
      {
        var piece := ReadSome(n - |bytes|);
        match piece
        case Some(more) => bytes := bytes + more;
        case End => return true, bytes;
        case Interrupted =>
        case Broken => return false, bytes;
      }
      ok := true;
    }

    /** One frame; `NoFrame` is a clean end of the stream between frames. */
    method ReadFrame() returns (r: FrameRead)
      requires Sound(chunks)
      modifies this
      ensures var before := Contents(old(chunks));
        match r
        case NoFrame => before == [] && Contents(chunks) == []
        case OneFrame(frame) => exists used: nat ::
          used <= |before| && DecodeFrame(before) == Accepted(frame, used) && Contents(chunks) == before[used..]
        case BadFrame => before != [] && DecodeFrame(before) == Rejected
        case Unreadable => false
    {
      ghost var before := Contents(chunks);
      var ok, prefix := Fill(4);
      if !ok {
        return Unreadable;
      }
      if prefix == [] {
        return NoFrame;
      }
      if |prefix| < 4 {
        return BadFrame;
      }
      ghost var rest := Contents(chunks);
      PrefixOf(before, prefix, rest);
      var length := GetU32(prefix).value;
      if length < HEADER || length > MAX_FRAME {
        return BadFrame;
      }
      var body;
      ok, body := Fill(length);
      if !ok {
        return Unreadable;
      }
      if |body| != length {
        return BadFrame;
      }
      BodyOf(rest, length);
      assert body == rest[..length];
      assert before[4 + length..] == Contents(chunks);
      var frame := DecodeBody(body);
      r := if frame.Fails? then BadFrame else OneFrame(frame.value);
    }
  }

  lemma PrefixOf(before: Bytes, prefix: Bytes, rest: Bytes)
    requires before == prefix + rest && |prefix| == 4
    ensures GetU32(before) == Got(GetU32(prefix).value, rest)
  {
  }

  datatype FrameRead = NoFrame | OneFrame(frame: Frame) | BadFrame | Unreadable
}
