/**
The golden frames of the protocol, byte for byte as the repository keeps them.
They tie the byte order, the kind bytes and the order of the fields to the
format itself.
*/
module GoldenFrames {
  import opened Wire

  const REL: Bytes := [112, 107, 103, 47, 97, 46, 103, 111]
  const ABS: Bytes := [47, 114, 101, 112, 111, 47, 112, 107, 103, 47, 97, 46, 103, 111]
  const SOURCE: Bytes := [112, 97, 99, 107, 97, 103, 101, 32, 97, 10]
  const VERSION: Bytes := [50, 46, 48, 46, 48]
  const OUTPUT: Bytes := [
    112, 97, 99, 107, 97, 103, 101, 32, 97, 10, 10, 102, 117, 110, 99, 32, 102, 40, 41, 32, 123, 125, 10
  ]
  const SPACING: Bytes := [115, 112, 97, 99, 105, 110, 103]
  const GOFMT: Bytes := [103, 111, 102, 109, 116]
  const MISSING: Bytes := [109, 105, 115, 115, 105, 110, 103, 32, 98, 108, 97, 110, 107, 32, 108, 105, 110, 101]
  const UNICODE: Bytes := [195, 188, 110, 195, 175, 99, 111, 100, 101, 32, 226, 156, 147]
  const KEY_F: Bytes := [112, 107, 103, 47, 97, 46, 103, 111, 35, 102]
  const NAME_F: Bytes := [102]
  const KEY_M: Bytes := [112, 107, 103, 47, 97, 46, 103, 111, 35, 40, 42, 84, 41, 46, 77]
  const NAME_M: Bytes := [40, 42, 84, 41, 46, 77]
  const EXPECTED: Bytes := [
    103, 111, 102, 109, 116, 58, 32, 49, 58, 49, 58, 32, 101, 120, 112, 101, 99, 116, 101, 100, 32, 39, 112,
    97, 99, 107, 97, 103, 101, 39, 44, 32, 102, 111, 117, 110, 100, 32, 39, 69, 79, 70, 39
  ]

  const REQUEST := Request(REL, ABS, SOURCE, Steps(true, true, false, false, true))

  const REPLY := Reply([], OUTPUT, [SPACING, GOFMT],
    [Violation(SPACING, 3, 0, MISSING), Violation(SPACING, 10, 2, UNICODE)],
    [Score(KEY_F, NAME_F, 3, 1, 0), Score(KEY_M, NAME_M, 5, 4, 6)])

  const ERROR := Reply(EXPECTED, [], [], [], [])

  // The files, with their texts by name.

  const HELLO_BIN: Bytes := [18, 0, 0, 0, 1, 0, 0, 0, 0] + ([1, 0, 0, 0] + ([5, 0, 0, 0] + VERSION))

  const PROCESS_BIN: Bytes := [54, 0, 0, 0, 2, 7, 0, 0, 0]
    + ([8, 0, 0, 0] + REL + ([14, 0, 0, 0] + ABS + ([10, 0, 0, 0] + SOURCE + [1, 1, 0, 0, 1])))

  const REPLY_BIN: Bytes := [217, 0, 0, 0, 3, 7, 0, 0, 0]
    + ([0, 0, 0, 0] + ([23, 0, 0, 0] + OUTPUT
    + ([2, 0, 0, 0] + ([7, 0, 0, 0] + SPACING + ([5, 0, 0, 0] + GOFMT))
    + ([2, 0, 0, 0] + (
        [7, 0, 0, 0] + SPACING + ([3, 0, 0, 0] + ([0, 0, 0, 0] + ([18, 0, 0, 0] + MISSING)))
        + ([7, 0, 0, 0] + SPACING + ([10, 0, 0, 0] + ([2, 0, 0, 0] + ([13, 0, 0, 0] + UNICODE)))))
    + ([2, 0, 0, 0] + (
        [10, 0, 0, 0] + KEY_F + ([1, 0, 0, 0] + NAME_F + ([3, 0, 0, 0] + ([1, 0, 0, 0] + [0, 0, 0, 0])))
        + ([15, 0, 0, 0] + KEY_M + ([6, 0, 0, 0] + NAME_M + ([5, 0, 0, 0] + ([4, 0, 0, 0] + [6, 0, 0, 0]))))))))))

  const ERROR_BIN: Bytes := [68, 0, 0, 0, 3, 255, 255, 255, 255]
    + ([43, 0, 0, 0] + EXPECTED + ([0, 0, 0, 0] + ([0, 0, 0, 0] + ([0, 0, 0, 0] + [0, 0, 0, 0]))))

  const SHUTDOWN_BIN: Bytes := [5, 0, 0, 0, 4, 0, 0, 0, 0]

  lemma Lengths(n: U32)
    requires n < 256
    ensures PutU32(n) == [n, 0, 0, 0] && Length(n) == n
  {
  }

  lemma Text(b: Bytes)
    requires |b| < 256
    ensures PutBytes(b) == [|b|, 0, 0, 0] + b
    ensures b == [] ==> PutBytes(b) == [0, 0, 0, 0]
  {
    Lengths(|b|);
  }

  lemma FrameOf(f: Frame, payload: Bytes)
    requires PutPayload(f.message) == payload && |payload| < 251
    ensures PutFrame(f) == [5 + |payload|, 0, 0, 0, KindOf(f.message)] + PutU32(f.id) + payload
  {
    Lengths(5 + |payload|);
  }

  lemma ListOfTwo<T>(put: T -> Bytes, a: T, b: T)
    ensures PutList(put, [a, b]) == [2, 0, 0, 0] + (put(a) + put(b))
    ensures PutList(put, []) == [0, 0, 0, 0]
  {
    Lengths(0);
    Lengths(2);
    assert [a, b][1..] == [b] && [b][1..] == [];
    assert PutMany(put, [b]) == put(b) + PutMany(put, []);
  }

  lemma HelloIsGolden()
    ensures PutFrame(Frame(0, Greeting(Hello(1, VERSION)))) == HELLO_BIN
  {
    Text(VERSION);
    Lengths(1);
    Lengths(0);
    FrameOf(Frame(0, Greeting(Hello(1, VERSION))), [1, 0, 0, 0] + ([5, 0, 0, 0] + VERSION));
  }

  lemma ShutdownIsGolden()
    ensures PutFrame(Frame(0, Shutdown)) == SHUTDOWN_BIN
  {
    Lengths(0);
    FrameOf(Frame(0, Shutdown), []);
  }

  lemma OneMore<T>(put: T -> Bytes, x: T, rest: seq<T>)
    ensures PutMany(put, [x] + rest) == put(x) + PutMany(put, rest)
  {
    assert ([x] + rest)[1..] == rest;
  }

  lemma StepBytes(a: bool, b: bool, c: bool, d: bool, e: bool)
    ensures PutSteps(Steps(a, b, c, d, e)) ==
      [if a then 1 else 0, if b then 1 else 0, if c then 1 else 0, if d then 1 else 0, if e then 1 else 0]
  {
    hide PutMany;
    OneMore(PutBool, e, []);
    OneMore(PutBool, d, [e]);
    OneMore(PutBool, c, [d, e]);
    OneMore(PutBool, b, [c, d, e]);
    OneMore(PutBool, a, [b, c, d, e]);
    NoneLeft(PutBool);
    Five(a, b, c, d, e);
    Five(PutBool(a)[0], PutBool(b)[0], PutBool(c)[0], PutBool(d)[0], PutBool(e)[0]);
  }

  lemma Five<T>(a: T, b: T, c: T, d: T, e: T)
    ensures [e] + [] == [e] && [d] + [e] == [d, e] && [c] + [d, e] == [c, d, e]
    ensures [b] + [c, d, e] == [b, c, d, e] && [a] + [b, c, d, e] == [a, b, c, d, e]
  {
  }

  lemma NoneLeft<T>(put: T -> Bytes)
    ensures PutMany(put, []) == []
  {
  }

  lemma ProcessIsGolden()
    ensures PutFrame(Frame(7, Process(REQUEST))) == PROCESS_BIN
  {
    hide PutU32, PutBytes, PutList, PutMany, PutSteps, PutBool, Length, PutFrame;
    StepBytes(true, true, false, false, true);
    Text(REL);
    Text(ABS);
    Text(SOURCE);
    Lengths(7);
    var payload := [8, 0, 0, 0] + REL + ([14, 0, 0, 0] + ABS + ([10, 0, 0, 0] + SOURCE + [1, 1, 0, 0, 1]));
    assert |payload| == 49;
    FrameOf(Frame(7, Process(REQUEST)), payload);
  }

  lemma Greatest()
    ensures PutU32(0xFFFF_FFFF) == [255, 255, 255, 255]
  {
  }

  lemma ErrorIsGolden()
    ensures PutFrame(Frame(0xFFFF_FFFF, Answer(ERROR))) == ERROR_BIN
  {
    hide PutU32, PutBytes, PutList, PutMany, PutSteps, PutBool, Length, PutFrame;
    Text(EXPECTED);
    Text([]);
    ListOfTwo(PutBytes, [], []);
    ListOfTwo(PutViolation, REPLY.violations[0], REPLY.violations[1]);
    ListOfTwo(PutScore, REPLY.complexity[0], REPLY.complexity[1]);
    Greatest();
    var payload := [43, 0, 0, 0] + EXPECTED + ([0, 0, 0, 0] + ([0, 0, 0, 0] + ([0, 0, 0, 0] + [0, 0, 0, 0])));
    assert |payload| == 63;
    FrameOf(Frame(0xFFFF_FFFF, Answer(ERROR)), payload);
  }

  lemma ViolationIs(v: Violation)
    requires v.line < 256 && v.column < 256 && |v.rule| < 256 && |v.message| < 256
    ensures PutViolation(v) ==
      [|v.rule|, 0, 0, 0] + v.rule + ([v.line, 0, 0, 0] + ([v.column, 0, 0, 0] + ([|v.message|, 0, 0, 0] + v.message)))
  {
    Text(v.rule);
    Text(v.message);
    Lengths(v.line);
    Lengths(v.column);
  }

  lemma ScoreIs(s: Score)
    requires s.line < 256 && s.cyclomatic < 256 && s.cognitive < 256 && |s.key| < 256 && |s.name| < 256
    ensures PutScore(s) == [|s.key|, 0, 0, 0] + s.key + ([|s.name|, 0, 0, 0] + s.name
      + ([s.line, 0, 0, 0] + ([s.cyclomatic, 0, 0, 0] + [s.cognitive, 0, 0, 0])))
  {
    Text(s.key);
    Text(s.name);
    Lengths(s.line);
    Lengths(s.cyclomatic);
    Lengths(s.cognitive);
  }

  lemma ReplyIsGolden()
    ensures PutFrame(Frame(7, Answer(REPLY))) == REPLY_BIN
  {
    hide PutU32, PutBytes, PutList, PutMany, PutSteps, PutBool, Length, PutFrame, PutViolation, PutScore;
    Text([]);
    Text(OUTPUT);
    Text(SPACING);
    Text(GOFMT);
    Lengths(7);
    ListOfTwo(PutBytes, SPACING, GOFMT);
    ViolationIs(REPLY.violations[0]);
    ViolationIs(REPLY.violations[1]);
    ListOfTwo(PutViolation, REPLY.violations[0], REPLY.violations[1]);
    ScoreIs(REPLY.complexity[0]);
    ScoreIs(REPLY.complexity[1]);
    ListOfTwo(PutScore, REPLY.complexity[0], REPLY.complexity[1]);
    var payload := PutPayload(Answer(REPLY));
    assert REPLY_BIN == [217, 0, 0, 0, 3, 7, 0, 0, 0] + payload;
    assert |payload| == 212;
    FrameOf(Frame(7, Answer(REPLY)), payload);
  }
}
