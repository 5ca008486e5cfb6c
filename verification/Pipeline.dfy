/**
The per-file step loop: one round over a budgeted schedule, each change checked
by parsing it and comparing fingerprints, and rounds repeated until one changes
nothing. Parsing, fingerprinting and the steps themselves are functions of the
text.
*/
module Pipeline {
  import opened Options
  import opened StepNames

  type Text = string

  datatype Step = Pass(pass: string) | Format

  function Name(step: Step): string {
    match step
    case Pass(pass) => pass
    case Format => "oxfmt"
  }

  /** A step and the most times it may change the text in a row. */
  datatype Stage = Stage(step: Step, budget: nat)

  datatype Parsed = Program(digest: nat) | Broken(message: string)

  datatype Proposal = NoEdits | Output(text: Text) | Refused(message: string)

  datatype Tools = Tools(
    parse: Text -> Parsed,
    propose: (Step, Text) -> Proposal,
    score: Text -> seq<nat>,
    scored: bool)

  datatype Result =
    | Formatted(output: Text, applied: seq<string>, complexity: seq<nat>)
    | Syntax(message: string)
    | Invariant(step: string, message: string)

  datatype Cursor = Cursor(stage: nat, runs: nat)

  const NOT_THE_SAME := "the output is not the same program as the input"
  const STILL_CHANGES := "the output still changes"
  const IDEMPOTENCY := "idempotency"
  const EXTRA_ROUNDS: nat := 3

  const STABLE_BUDGET: nat := 5

  const SEGMENT := [
    Stage(Pass("body-wrap"), STABLE_BUDGET),
    Stage(Pass("class-reorder"), STABLE_BUDGET),
    Stage(Pass("declaration-reorder"), STABLE_BUDGET),
    Stage(Pass("blank-lines"), 1)]

  const FLUENT := [Stage(Pass("fluent-chains"), 1), Stage(Pass("drizzle-queries"), 1), Stage(Pass("expanded-calls"), 1)]

  const FULL := SEGMENT + [Stage(Format, 1)] + FLUENT + SEGMENT

  /** The changes the stages from the cursor on may still make. */
  function Remaining(schedule: seq<Stage>, cursor: Cursor): nat
    decreases if cursor.stage <= |schedule| then |schedule| - cursor.stage else 0
  {
    if cursor.stage >= |schedule| then 0 else
      var budget := schedule[cursor.stage].budget;
      (if cursor.runs <= budget then budget - cursor.runs else 0) + Remaining(schedule, Cursor(cursor.stage + 1, 0))
  }

  datatype Found = Changed(text: Text, step: Step, cursor: Cursor) | Settled | Failed(step: Step, message: string)

  /** The next change from the cursor on, if there is one. */
  function Seek(tools: Tools, schedule: seq<Stage>, text: Text, cursor: Cursor): (found: Found)
    ensures found.Changed? ==> found.text != text && Remaining(schedule, found.cursor) < Remaining(schedule, cursor)
    decreases if cursor.stage <= |schedule| then |schedule| - cursor.stage else 0
  {
    if cursor.stage >= |schedule| then Settled else
      var Stage(step, budget) := schedule[cursor.stage];
      if cursor.runs >= budget then Seek(tools, schedule, text, Cursor(cursor.stage + 1, 0)) else
        match tools.propose(step, text)
        case Refused(message) => Failed(step, message)
        case Output(output) =>
          if output != text then Changed(output, step, Cursor(cursor.stage, cursor.runs + 1))
          else Seek(tools, schedule, text, Cursor(cursor.stage + 1, 0))
        case NoEdits => Seek(tools, schedule, text, Cursor(cursor.stage + 1, 0))
  }

  /** The rest of a round that has reached `text`. */
  function RoundFrom(
    tools: Tools, schedule: seq<Stage>, source: Text, text: Text, cursor: Cursor,
    applied: seq<string>, last: Option<Step>, expected: Option<nat>): Result
    decreases Remaining(schedule, cursor)
  {
    match tools.parse(text)
    case Broken(message) => if last.Some? then Invariant(Name(last.value), message) else Syntax(message)
    case Program(digest) =>
      if expected.Some? && last.Some? && expected.value != digest then Invariant(Name(last.value), NOT_THE_SAME) else
        match Seek(tools, schedule, text, cursor)
        case Failed(step, message) => Invariant(Name(step), message)
        case Changed(next, step, at) =>
          RoundFrom(tools, schedule, source, next, at, Add(applied, Name(step)), Some(step), if expected.Some? then expected else Some(digest))
        case Settled =>
          var steps := if text == source then [] else applied;
          Formatted(text, steps, if tools.scored && steps == [] then tools.score(text) else [])
  }

  function Round(tools: Tools, schedule: seq<Stage>, source: Text): Result {
    RoundFrom(tools, schedule, source, source, Cursor(0, 0), [], None, None)
  }

  /** What every result of a round says about its input. */
  ghost predicate Keeps(tools: Tools, source: Text, r: Result) {
    && (r.Formatted? ==>
          && tools.parse(source).Program? && tools.parse(r.output) == tools.parse(source)
          && (r.applied == [] <==> r.output == source))
    && (r.Syntax? ==> tools.parse(source).Broken?)
  }

  /** By induction over the changes still to come: the text, once changed, carries the input's digest. */
  lemma {:induction false} RoundFromKeeps(
    tools: Tools, schedule: seq<Stage>, source: Text, text: Text, cursor: Cursor,
    applied: seq<string>, last: Option<Step>, expected: Option<nat>)
    requires applied == [] ==> text == source
    requires last.None? ==> text == source
    requires expected.None? <==> last.None?
    requires expected.Some? ==> tools.parse(source) == Program(expected.value)
    ensures Keeps(tools, source, RoundFrom(tools, schedule, source, text, cursor, applied, last, expected))
    decreases Remaining(schedule, cursor)
  {
    match tools.parse(text)
    case Broken(_) =>
    case Program(digest) =>
      match Seek(tools, schedule, text, cursor)
      case Changed(next, step, at) =>
        if !(expected.Some? && last.Some? && expected.value != digest) {
          RoundFromKeeps(tools, schedule, source, next, at, Add(applied, Name(step)), Some(step), if expected.Some? then expected else Some(digest));
        }
      case _ =>
  }

  lemma RoundKeeps(tools: Tools, schedule: seq<Stage>, source: Text)
    ensures Keeps(tools, source, Round(tools, schedule, source))
  {
    RoundFromKeeps(tools, schedule, source, source, Cursor(0, 0), [], None, None);
  }

  lemma RemainingConcat(a: seq<Stage>, b: seq<Stage>, stage: nat)
    requires stage <= |a|
    ensures Remaining(a + b, Cursor(stage, 0)) == Remaining(a, Cursor(stage, 0)) + Remaining(b, Cursor(0, 0))
    decreases |a| - stage
  {
    if stage < |a| {
      RemainingConcat(a, b, stage + 1);
    } else {
      RemainingSuffix(a, b, 0);
    }
  }

  lemma RemainingSuffix(a: seq<Stage>, b: seq<Stage>, at: nat)
    requires at <= |b|
    ensures Remaining(a + b, Cursor(|a| + at, 0)) == Remaining(b, Cursor(at, 0))
    decreases |b| - at
  {
    if at < |b| {
      RemainingSuffix(a, b, at + 1);
    }
  }

  /** A round of the full schedule parses at most 37 texts, and no step of it is called idempotency. */
  lemma FullSchedule()
    ensures 1 + Remaining(FULL, Cursor(0, 0)) == 37
    ensures forall stage :: stage in FULL ==> Name(stage.step) != IDEMPOTENCY
  {
    var format := [Stage(Format, 1)];
    RemainingConcat(SEGMENT + format + FLUENT, SEGMENT, 0);
    RemainingConcat(SEGMENT + format, FLUENT, 0);
    RemainingConcat(SEGMENT, format, 0);
    assert Remaining(SEGMENT, Cursor(3, 0)) == 1;
    assert Remaining(SEGMENT, Cursor(2, 0)) == 6;
    assert Remaining(SEGMENT, Cursor(1, 0)) == 11;
    assert Remaining(SEGMENT, Cursor(0, 0)) == 16;
    assert Remaining(FLUENT, Cursor(1, 0)) == 2;
    assert Remaining(FLUENT, Cursor(0, 0)) == 3;
  }

  /** The steps of the full schedule: the structural passes are tried before and after the formatter and the fluent layout. */
  lemma FullOrder()
    ensures |FULL| == 12
    ensures [Name(FULL[0].step), Name(FULL[1].step), Name(FULL[2].step), Name(FULL[3].step)] ==
      ["body-wrap", "class-reorder", "declaration-reorder", "blank-lines"]
    ensures [Name(FULL[4].step), Name(FULL[5].step), Name(FULL[6].step), Name(FULL[7].step)] ==
      ["oxfmt", "fluent-chains", "drizzle-queries", "expanded-calls"]
    ensures FULL[8..] == FULL[..4]
  {
  }

  /** One pass of the schedule, with the number of texts it parsed. */
  method RunRound(tools: Tools, schedule: seq<Stage>, source: Text) returns (r: Result, ghost parses: nat)
    ensures r == Round(tools, schedule, source)
    ensures 1 <= parses <= 1 + Remaining(schedule, Cursor(0, 0))
  {
    var text := source;
    var applied: seq<string> := [];
    var cursor := Cursor(0, 0);
    var last: Option<Step> := None;
    var expected: Option<nat> := None;
    parses := 0;
    while true
      invariant RoundFrom(tools, schedule, source, text, cursor, applied, last, expected) == Round(tools, schedule, source)
      invariant parses + Remaining(schedule, cursor) <= Remaining(schedule, Cursor(0, 0))
      invariant expected.None? ==> last.None?
      decreases Remaining(schedule, cursor)
    {
      parses := parses + 1;
      var program := tools.parse(text);
      if program.Broken? {
        return if last.Some? then Invariant(Name(last.value), program.message) else Syntax(program.message), parses;
      }
      if expected.None? {
        expected := Some(program.digest);
      } else if last.Some? && expected.value != program.digest {
        return Invariant(Name(last.value), NOT_THE_SAME), parses;
      }
      ghost var found := Seek(tools, schedule, text, cursor);
      var next: Option<Text> := None;
      while cursor.stage < |schedule|
        invariant Seek(tools, schedule, text, cursor) == found
        decreases |schedule| - cursor.stage
      {
        var Stage(step, budget) := schedule[cursor.stage];
        if cursor.runs >= budget {
          cursor := Cursor(cursor.stage + 1, 0);
          continue;
        }
        var output := tools.propose(step, text);
        if output.Refused? {
          return Invariant(Name(step), output.message), parses;
        }
        if output.Output? && output.text != text {
          cursor := Cursor(cursor.stage, cursor.runs + 1);
          next := Some(output.text);
          last := Some(step);
          applied := if Name(step) in applied then applied else applied + [Name(step)];
          break;
        }
        cursor := Cursor(cursor.stage + 1, 0);
      }
      if next.None? {
        applied := if text == source then [] else applied;
        return Formatted(text, applied, if tools.scored && applied == [] then tools.score(text) else []), parses;
      }
      text := next.value;
    }
  }

  // ----- rounds until nothing changes -----

  /** Up to `rounds` more rounds over a text that a round has changed. */
  function Again(round: Text -> Result, output: Text, applied: seq<string>, rounds: nat): Result
    decreases rounds
  {
    if rounds == 0 then GAVE_UP else
      var next := round(output);
      if !next.Formatted? then next
      else if next.applied == [] then Formatted(next.output, applied, next.complexity)
      else Again(round, next.output, AddAll(applied, next.applied), rounds - 1)
  }

  function FixedPoint(round: Text -> Result, source: Text): Result {
    var first := round(source);
    if !first.Formatted? || first.applied == [] then first else Again(round, first.output, first.applied, EXTRA_ROUNDS)
  }

  ghost predicate ReportsChanges(round: Text -> Result) {
    forall text :: round(text).Formatted? ==> (round(text).applied == [] <==> round(text).output == text)
  }

  lemma {:induction false} AgainSettles(round: Text -> Result, output: Text, applied: seq<string>, rounds: nat)
    requires ReportsChanges(round)
    requires Again(round, output, applied, rounds).Formatted?
    ensures var r := Again(round, output, applied, rounds);
      round(r.output) == Formatted(r.output, [], r.complexity)
    decreases rounds
  {
    var next := round(output);
    if next.applied != [] {
      AgainSettles(round, next.output, AddAll(applied, next.applied), rounds - 1);
    }
  }

  /** A result is a fixed point, and formatting it again reports nothing and changes nothing. */
  lemma FormattingTwice(round: Text -> Result, source: Text)
    requires ReportsChanges(round)
    requires FixedPoint(round, source).Formatted?
    ensures var r := FixedPoint(round, source);
      && round(r.output) == Formatted(r.output, [], r.complexity)
      && FixedPoint(round, r.output) == Formatted(r.output, [], r.complexity)
  {
    var first := round(source);
    if first.applied != [] {
      AgainSettles(round, first.output, first.applied, EXTRA_ROUNDS);
    }
  }

  /** The text after `n` rounds that all succeed and all change it. */
  ghost function Churned(round: Text -> Result, text: Text, n: nat): Option<Text>
    decreases n
  {
    if n == 0 then Some(text)
    else if round(text).Formatted? && round(text).applied != [] then Churned(round, round(text).output, n - 1)
    else None
  }

  /** The error that ends a run whose every round changed the text. */
  const GAVE_UP := Invariant(IDEMPOTENCY, STILL_CHANGES)

  lemma {:induction false} AgainGivesUp(round: Text -> Result, output: Text, applied: seq<string>, rounds: nat)
    requires forall text :: round(text) != GAVE_UP
    ensures Again(round, output, applied, rounds) == GAVE_UP <==> Churned(round, output, rounds).Some?
    decreases rounds
  {
    if rounds > 0 {
      var next := round(output);
      if next.Formatted? && next.applied != [] {
        AgainGivesUp(round, next.output, AddAll(applied, next.applied), rounds - 1);
      }
    }
  }

  lemma {:induction false} RoundFromBlamesAStep(
    tools: Tools, schedule: seq<Stage>, source: Text, text: Text, cursor: Cursor,
    applied: seq<string>, last: Option<Step>, expected: Option<nat>)
    requires last.Some? ==> exists stage :: stage in schedule && stage.step == last.value
    ensures var r := RoundFrom(tools, schedule, source, text, cursor, applied, last, expected);
      r.Invariant? ==> exists stage :: stage in schedule && Name(stage.step) == r.step
    decreases Remaining(schedule, cursor)
  {
    match tools.parse(text)
    case Broken(_) =>
    case Program(digest) =>
      SeekNamesAStage(tools, schedule, text, cursor);
      match Seek(tools, schedule, text, cursor)
      case Changed(next, step, at) =>
        RoundFromBlamesAStep(tools, schedule, source, next, at, Add(applied, Name(step)), Some(step), if expected.Some? then expected else Some(digest));
      case _ =>
  }

  lemma SeekNamesAStage(tools: Tools, schedule: seq<Stage>, text: Text, cursor: Cursor)
    ensures var found := Seek(tools, schedule, text, cursor);
      !found.Settled? ==> exists stage :: stage in schedule && stage.step == found.step
    decreases if cursor.stage <= |schedule| then |schedule| - cursor.stage else 0
  {
    if cursor.stage < |schedule| {
      assert schedule[cursor.stage] in schedule;
      SeekNamesAStage(tools, schedule, text, Cursor(cursor.stage + 1, 0));
    }
  }

  /** A run gives up exactly when its first round and every extra one changed the text. */
  lemma GivesUpExactly(tools: Tools, schedule: seq<Stage>, source: Text)
    requires forall stage :: stage in schedule ==> Name(stage.step) != IDEMPOTENCY
    ensures var round := (text: Text) => Round(tools, schedule, text);
      FixedPoint(round, source) == GAVE_UP <==> Churned(round, source, 1 + EXTRA_ROUNDS).Some?
  {
    var round := (text: Text) => Round(tools, schedule, text);
    forall text ensures round(text) != GAVE_UP {
      RoundFromBlamesAStep(tools, schedule, text, text, Cursor(0, 0), [], None, None);
    }
    var first := round(source);
    if first.Formatted? && first.applied != [] {
      AgainGivesUp(round, first.output, first.applied, EXTRA_ROUNDS);
    }
  }

  /** The promises of one round carry over to the whole run. */
  lemma {:induction false} AgainKeeps(tools: Tools, schedule: seq<Stage>, source: Text, output: Text, applied: seq<string>, rounds: nat)
    requires tools.parse(source).Program? && tools.parse(output) == tools.parse(source)
    requires applied != []
    ensures var r := Again(text => Round(tools, schedule, text), output, applied, rounds);
      && !r.Syntax?
      && (r.Formatted? ==> tools.parse(r.output) == tools.parse(source))
    decreases rounds
  {
    if rounds > 0 {
      RoundKeeps(tools, schedule, output);
      var next := Round(tools, schedule, output);
      if next.Formatted? && next.applied != [] {
        AddAllKeeps(applied, next.applied);
        AgainKeeps(tools, schedule, source, next.output, AddAll(applied, next.applied), rounds - 1);
      }
    }
  }

  lemma RunKeeps(tools: Tools, schedule: seq<Stage>, source: Text)
    ensures var round := (text: Text) => Round(tools, schedule, text);
      var r := FixedPoint(round, source);
      && (r.Formatted? ==> tools.parse(source).Program? && tools.parse(r.output) == tools.parse(source))
      && (r.Formatted? ==> FixedPoint(round, r.output) == Formatted(r.output, [], r.complexity))
      && (r.Syntax? ==> tools.parse(source).Broken?)
  {
    var round := (text: Text) => Round(tools, schedule, text);
    RoundKeeps(tools, schedule, source);
    var first := Round(tools, schedule, source);
    if first.Formatted? && first.applied != [] {
      AgainKeeps(tools, schedule, source, first.output, first.applied, EXTRA_ROUNDS);
    }
    forall text ensures round(text).Formatted? ==> (round(text).applied == [] <==> round(text).output == text) {
      RoundKeeps(tools, schedule, text);
    }
    if FixedPoint(round, source).Formatted? {
      FormattingTwice(round, source);
    }
  }

  method Run(tools: Tools, schedule: seq<Stage>, source: Text) returns (r: Result, ghost rounds: nat)
    ensures r == FixedPoint(text => Round(tools, schedule, text), source)
    ensures 1 <= rounds <= 1 + EXTRA_ROUNDS
  {
    ghost var round := (text: Text) => Round(tools, schedule, text);
    var formatted, _ := RunRound(tools, schedule, source);
    rounds := 1;
    if !formatted.Formatted? || formatted.applied == [] {
      return formatted, rounds;
    }
    var extra := 0;
    while extra < EXTRA_ROUNDS
      invariant extra <= EXTRA_ROUNDS && rounds == 1 + extra
      invariant formatted.Formatted?
      invariant Again(round, formatted.output, formatted.applied, EXTRA_ROUNDS - extra) == FixedPoint(round, source)
    {
      var next, _ := RunRound(tools, schedule, formatted.output);
      rounds := rounds + 1;
      if !next.Formatted? {
        return next, rounds;
      }
      if next.applied == [] {
        return Formatted(next.output, formatted.applied, next.complexity), rounds;
      }
      var applied := Union(formatted.applied, next.applied);
      formatted := Formatted(next.output, applied, formatted.complexity);
      extra := extra + 1;
    }
    r := GAVE_UP;
  }
}
