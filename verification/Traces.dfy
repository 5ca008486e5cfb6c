/**
What a round of the pipeline does, told by its changes alone: which stage made
each, and why no earlier one did.
*/
module Traces {
  import opened Options
  import opened StepNames
  import opened Pipeline

  predicate Proposes(tools: Tools, step: Step, text: Text) {
    tools.propose(step, text).Output? && tools.propose(step, text).text != text
  }

  /** A step with nothing to say about a text: it has no edits, or they come to the same text. */
  predicate IsQuiet(tools: Tools, step: Step, text: Text) {
    !Proposes(tools, step, text) && !tools.propose(step, text).Refused?
  }

  function Times(stages: seq<nat>, s: nat): nat {
    if stages == [] then 0 else Times(stages[..|stages| - 1], s) + if stages[|stages| - 1] == s then 1 else 0
  }

  /** After the changes by `stages`, a stage may act that is not before the last of them, as often as its budget says. */
  predicate MayAct(schedule: seq<Stage>, stages: seq<nat>, s: nat) {
    s < |schedule| && (stages != [] ==> stages[|stages| - 1] <= s) && Times(stages, s) < schedule[s].budget
  }

  /** No stage that may act before `s` has anything to say. */
  ghost predicate QuietBefore(tools: Tools, schedule: seq<Stage>, stages: seq<nat>, text: Text, s: nat) {
    forall r: nat :: r < s && MayAct(schedule, stages, r) ==> IsQuiet(tools, schedule[r].step, text)
  }

  /** The next change is the proposal of the first stage that may act and proposes another text. */
  ghost predicate IsChange(tools: Tools, schedule: seq<Stage>, stages: seq<nat>, text: Text, s: nat, next: Text) {
    && MayAct(schedule, stages, s) && Proposes(tools, schedule[s].step, text) && tools.propose(schedule[s].step, text).text == next
    && QuietBefore(tools, schedule, stages, text, s)
  }

  /** From each text to the next by one change. */
  ghost predicate IsTrace(tools: Tools, schedule: seq<Stage>, texts: seq<Text>, stages: seq<nat>) {
    && |texts| == |stages| + 1
    && forall k :: 0 <= k < |stages| ==> IsChange(tools, schedule, stages[..k], texts[k], stages[k], texts[k + 1])
  }

  function Names(schedule: seq<Stage>, stages: seq<nat>): seq<string>
    requires forall i :: 0 <= i < |stages| ==> stages[i] < |schedule|
  {
    if stages == [] then [] else Add(Names(schedule, stages[..|stages| - 1]), Name(schedule[stages[|stages| - 1]].step))
  }

  /** All texts are the same program. */
  ghost predicate AllSame(tools: Tools, texts: seq<Text>) {
    texts != [] && tools.parse(texts[0]).Program? && forall i :: 0 <= i < |texts| ==> tools.parse(texts[i]) == tools.parse(texts[0])
  }

  /** What a round that made these changes results in. */
  ghost predicate Results(tools: Tools, schedule: seq<Stage>, texts: seq<Text>, stages: seq<nat>, r: Result)
    requires |texts| == |stages| + 1 && forall i :: 0 <= i < |stages| ==> stages[i] < |schedule|
  {
    var n := |stages|;
    var text := texts[n];
    match r
    case Formatted(output, applied, complexity) =>
      && AllSame(tools, texts) && QuietBefore(tools, schedule, stages, text, |schedule|)
      && output == text && applied == (if text == texts[0] then [] else Names(schedule, stages))
      && complexity == if tools.scored && applied == [] then tools.score(text) else []
    case Syntax(message) => n == 0 && tools.parse(text) == Broken(message)
    case Invariant(step, message) =>
      || (n > 0 && AllSame(tools, texts[..n]) && step == Name(schedule[stages[n - 1]].step)
          && (tools.parse(text) == Broken(message)
              || (tools.parse(text).Program? && tools.parse(text) != tools.parse(texts[0]) && message == NOT_THE_SAME)))
      || (AllSame(tools, texts) && exists s: nat :: Refuses(tools, schedule, stages, text, s, step, message))
  }

  /** The first stage that may act and has anything to say refuses. */
  ghost predicate Refuses(tools: Tools, schedule: seq<Stage>, stages: seq<nat>, text: Text, s: nat, step: string, message: string) {
    && MayAct(schedule, stages, s) && tools.propose(schedule[s].step, text) == Refused(message) && step == Name(schedule[s].step)
    && QuietBefore(tools, schedule, stages, text, s)
  }

  // ----- where the round stands -----

  /** The cursor is at the last stage that acted, with as many runs as that had changes. */
  ghost predicate Stands(schedule: seq<Stage>, stages: seq<nat>, cursor: Cursor) {
    && (forall i :: 0 <= i < |stages| ==> stages[i] < |schedule| && stages[i] <= stages[|stages| - 1])
    && cursor.runs == Times(stages, cursor.stage)
    && cursor.stage == if stages == [] then 0 else stages[|stages| - 1]
  }

  lemma {:induction false} NeverYet(stages: seq<nat>, s: nat)
    requires forall i :: 0 <= i < |stages| ==> stages[i] < s
    ensures Times(stages, s) == 0
    decreases |stages|
  {
    if stages != [] {
      NeverYet(stages[..|stages| - 1], s);
    }
  }

  /** What the search finds from the cursor on; `s` is the stage it ends at. */
  lemma {:induction false} SeekIs(tools: Tools, schedule: seq<Stage>, text: Text, stages: seq<nat>, cursor: Cursor) returns (s: nat)
    requires cursor.runs == Times(stages, cursor.stage) && forall i :: 0 <= i < |stages| ==> stages[i] <= cursor.stage
    ensures cursor.stage <= s || s >= |schedule|
    ensures forall r :: cursor.stage <= r < s && MayAct(schedule, stages, r) ==> IsQuiet(tools, schedule[r].step, text)
    ensures match Seek(tools, schedule, text, cursor)
      case Settled => s >= |schedule|
      case Changed(next, step, at) =>
        && MayAct(schedule, stages, s) && step == schedule[s].step && at == Cursor(s, Times(stages, s) + 1)
        && Proposes(tools, step, text) && tools.propose(step, text).text == next
      case Failed(step, message) => MayAct(schedule, stages, s) && step == schedule[s].step && tools.propose(step, text) == Refused(message)
    decreases if cursor.stage <= |schedule| then |schedule| - cursor.stage else 0
  {
    s := cursor.stage;
    if s < |schedule| {
      assert stages != [] ==> stages[|stages| - 1] <= s;
      var step := schedule[s].step;
      if cursor.runs >= schedule[s].budget || IsQuiet(tools, step, text) {
        NeverYet(stages, s + 1);
        s := SeekIs(tools, schedule, text, stages, Cursor(s + 1, 0));
      }
    }
  }

  lemma Before(tools: Tools, schedule: seq<Stage>, stages: seq<nat>, text: Text, cursor: Cursor, s: nat)
    requires Stands(schedule, stages, cursor)
    requires forall r :: cursor.stage <= r < s && MayAct(schedule, stages, r) ==> IsQuiet(tools, schedule[r].step, text)
    ensures QuietBefore(tools, schedule, stages, text, s)
  {
  }

  lemma OneMore(tools: Tools, schedule: seq<Stage>, texts: seq<Text>, stages: seq<nat>, s: nat, next: Text)
    requires IsTrace(tools, schedule, texts, stages) && IsChange(tools, schedule, stages, texts[|stages|], s, next)
    ensures IsTrace(tools, schedule, texts + [next], stages + [s])
  {
    hide IsChange;
    var more, after := texts + [next], stages + [s];
    forall k | 0 <= k < |after| ensures IsChange(tools, schedule, after[..k], more[k], after[k], more[k + 1]) {
      assert after[..k] == stages[..k];
    }
    assert after[..|stages|] == stages;
  }

  lemma StandsNext(schedule: seq<Stage>, stages: seq<nat>, cursor: Cursor, s: nat)
    requires Stands(schedule, stages, cursor) && MayAct(schedule, stages, s)
    ensures Stands(schedule, stages + [s], Cursor(s, Times(stages, s) + 1))
    ensures Names(schedule, stages + [s]) == Add(Names(schedule, stages), Name(schedule[s].step))
  {
    assert (stages + [s])[..|stages|] == stages;
  }

  lemma SameMore(tools: Tools, texts: seq<Text>, next: Text)
    requires AllSame(tools, texts) && tools.parse(next) == tools.parse(texts[0])
    ensures AllSame(tools, texts + [next])
  {
  }

  /** A round on its way, after some changes. */
  ghost predicate OnItsWay(tools: Tools, schedule: seq<Stage>, texts: seq<Text>, stages: seq<nat>, cursor: Cursor) {
    && |texts| == |stages| + 1 && IsTrace(tools, schedule, texts, stages) && Stands(schedule, stages, cursor)
    && (stages != [] ==> AllSame(tools, texts[..|stages|]))
  }

  ghost function Rest(tools: Tools, schedule: seq<Stage>, texts: seq<Text>, stages: seq<nat>, cursor: Cursor): Result
    requires OnItsWay(tools, schedule, texts, stages, cursor)
  {
    RoundFrom(tools, schedule, texts[0], texts[|stages|], cursor, Names(schedule, stages),
              if stages == [] then None else Some(schedule[stages[|stages| - 1]].step),
              if stages == [] then None else Some(tools.parse(texts[0]).digest))
  }

  /** Whether the text the round has come to is the same program still. */
  predicate IsSame(tools: Tools, texts: seq<Text>)
    requires texts != []
  {
    tools.parse(texts[|texts| - 1]).Program? && tools.parse(texts[|texts| - 1]) == tools.parse(texts[0])
  }

  lemma EndsDamaged(tools: Tools, schedule: seq<Stage>, texts: seq<Text>, stages: seq<nat>, cursor: Cursor)
    requires OnItsWay(tools, schedule, texts, stages, cursor) && !IsSame(tools, texts)
    ensures Results(tools, schedule, texts, stages, Rest(tools, schedule, texts, stages, cursor))
  {
    hide IsTrace, Names, Seek, QuietBefore, MayAct;
  }

  lemma AllSameNow(tools: Tools, schedule: seq<Stage>, texts: seq<Text>, stages: seq<nat>, cursor: Cursor)
    requires OnItsWay(tools, schedule, texts, stages, cursor) && IsSame(tools, texts)
    ensures AllSame(tools, texts)
  {
    hide IsTrace, Stands;
    forall i | 0 <= i < |texts| ensures tools.parse(texts[i]) == tools.parse(texts[0]) {
      if i < |stages| {
        assert texts[..|stages|][i] == texts[i];
      }
    }
  }

  lemma EndsSettled(tools: Tools, schedule: seq<Stage>, texts: seq<Text>, stages: seq<nat>, cursor: Cursor)
    requires OnItsWay(tools, schedule, texts, stages, cursor) && IsSame(tools, texts)
    requires Seek(tools, schedule, texts[|stages|], cursor).Settled? && QuietBefore(tools, schedule, stages, texts[|stages|], |schedule|)
    ensures Results(tools, schedule, texts, stages, Rest(tools, schedule, texts, stages, cursor))
  {
    AllSameNow(tools, schedule, texts, stages, cursor);
    hide IsTrace, Names, QuietBefore, MayAct, AllSame;
  }

  lemma EndsRefused(tools: Tools, schedule: seq<Stage>, texts: seq<Text>, stages: seq<nat>, cursor: Cursor, s: nat)
    requires OnItsWay(tools, schedule, texts, stages, cursor) && IsSame(tools, texts)
    requires var found := Seek(tools, schedule, texts[|stages|], cursor);
      found.Failed? && Refuses(tools, schedule, stages, texts[|stages|], s, Name(found.step), found.message)
    ensures Results(tools, schedule, texts, stages, Rest(tools, schedule, texts, stages, cursor))
  {
    AllSameNow(tools, schedule, texts, stages, cursor);
    hide IsTrace, Names, Refuses, AllSame;
  }

  lemma StepsOn(tools: Tools, schedule: seq<Stage>, source: Text, text: Text, cursor: Cursor, applied: seq<string>, last: Option<Step>, expected: Option<nat>)
    requires tools.parse(text).Program? && (expected.Some? ==> tools.parse(text).digest == expected.value) && Seek(tools, schedule, text, cursor).Changed?
    ensures var found := Seek(tools, schedule, text, cursor);
      RoundFrom(tools, schedule, source, text, cursor, applied, last, expected)
        == RoundFrom(tools, schedule, source, found.text, found.cursor, Add(applied, Name(found.step)), Some(found.step), Some(tools.parse(text).digest))
  {
    hide Seek;
  }

  lemma GoesOn(tools: Tools, schedule: seq<Stage>, texts: seq<Text>, stages: seq<nat>, cursor: Cursor, s: nat)
    requires OnItsWay(tools, schedule, texts, stages, cursor) && IsSame(tools, texts)
    requires var found := Seek(tools, schedule, texts[|stages|], cursor);
      && found.Changed? && MayAct(schedule, stages, s) && found.step == schedule[s].step && found.cursor == Cursor(s, Times(stages, s) + 1)
      && IsChange(tools, schedule, stages, texts[|stages|], s, found.text)
    ensures var found := Seek(tools, schedule, texts[|stages|], cursor);
      && OnItsWay(tools, schedule, texts + [found.text], stages + [s], found.cursor)
      && Rest(tools, schedule, texts, stages, cursor) == Rest(tools, schedule, texts + [found.text], stages + [s], found.cursor)
  {
    AllSameNow(tools, schedule, texts, stages, cursor);
    var n, found := |stages|, Seek(tools, schedule, texts[|stages|], cursor);
    OneMore(tools, schedule, texts, stages, s, found.text);
    StandsNext(schedule, stages, cursor, s);
    assert (texts + [found.text])[..n + 1] == texts && (texts + [found.text])[0] == texts[0];
    hide IsTrace, Names, IsChange, MayAct, AllSame, Seek, RoundFrom, Stands, Times;
    StepsOn(tools, schedule, texts[0], texts[n], cursor, Names(schedule, stages),
            if stages == [] then None else Some(schedule[stages[n - 1]].step), if stages == [] then None else Some(tools.parse(texts[0]).digest));
  }

  /** A round from anywhere on its way ends as its changes say. */
  lemma {:induction false} FromHasTrace(tools: Tools, schedule: seq<Stage>, texts: seq<Text>, stages: seq<nat>, cursor: Cursor)
    returns (all: seq<Text>, acted: seq<nat>)
    requires OnItsWay(tools, schedule, texts, stages, cursor)
    ensures |all| == |acted| + 1 && IsTrace(tools, schedule, all, acted) && all[0] == texts[0] && forall i :: 0 <= i < |acted| ==> acted[i] < |schedule|
    ensures Results(tools, schedule, all, acted, Rest(tools, schedule, texts, stages, cursor))
    decreases Remaining(schedule, cursor)
  {
    hide IsTrace, MayAct, IsQuiet, Names, Seek, Rest, Results, AllSame, Proposes;
    all, acted := texts, stages;
    if !IsSame(tools, texts) {
      EndsDamaged(tools, schedule, texts, stages, cursor);
    } else {
      var text := texts[|stages|];
      var s := SeekIs(tools, schedule, text, stages, cursor);
      Before(tools, schedule, stages, text, cursor, s);
      match Seek(tools, schedule, text, cursor)
      case Settled => EndsSettled(tools, schedule, texts, stages, cursor);
      case Failed(step, message) => EndsRefused(tools, schedule, texts, stages, cursor, s);
      case Changed(next, step, at) =>
        GoesOn(tools, schedule, texts, stages, cursor, s);
        all, acted := FromHasTrace(tools, schedule, texts + [next], stages + [s], at);
    }
  }

  /** Every round is what its changes say: each the proposal of the first stage that may act, until none has anything to say. */
  lemma RoundHasTrace(tools: Tools, schedule: seq<Stage>, source: Text) returns (texts: seq<Text>, stages: seq<nat>)
    ensures |texts| == |stages| + 1 && IsTrace(tools, schedule, texts, stages) && texts[0] == source
    ensures (forall i :: 0 <= i < |stages| ==> stages[i] < |schedule|) && Results(tools, schedule, texts, stages, Round(tools, schedule, source))
  {
    texts, stages := FromHasTrace(tools, schedule, [source], [], Cursor(0, 0));
  }

  // ----- and nothing else -----

  /** The search finds the change that is first. */
  lemma FindsChange(tools: Tools, schedule: seq<Stage>, texts: seq<Text>, stages: seq<nat>, cursor: Cursor, s: nat, next: Text)
    requires OnItsWay(tools, schedule, texts, stages, cursor) && IsChange(tools, schedule, stages, texts[|stages|], s, next)
    ensures var found := Seek(tools, schedule, texts[|stages|], cursor);
      found.Changed? && found.text == next && found.step == schedule[s].step && found.cursor == Cursor(s, Times(stages, s) + 1)
  {
    hide IsTrace, MayAct, Seek, Times;
    var text := texts[|stages|];
    var r := SeekIs(tools, schedule, text, stages, cursor);
    Before(tools, schedule, stages, text, cursor, r);
    MayNotBefore(schedule, stages, cursor, s);
    OnlyOneFirst(tools, schedule, stages, text, r, s);
  }

  lemma MayNotBefore(schedule: seq<Stage>, stages: seq<nat>, cursor: Cursor, s: nat)
    requires Stands(schedule, stages, cursor) && MayAct(schedule, stages, s)
    ensures cursor.stage <= s < |schedule|
  {
  }

  lemma {:induction false} TraceIsRound(tools: Tools, schedule: seq<Stage>, texts: seq<Text>, stages: seq<nat>, k: nat, cursor: Cursor) returns (end: Cursor)
    requires |texts| == |stages| + 1 && IsTrace(tools, schedule, texts, stages) && k <= |stages|
    requires stages != [] ==> AllSame(tools, texts[..|stages|])
    requires OnItsWay(tools, schedule, texts[..k + 1], stages[..k], cursor)
    ensures OnItsWay(tools, schedule, texts, stages, end)
    ensures Rest(tools, schedule, texts, stages, end) == Rest(tools, schedule, texts[..k + 1], stages[..k], cursor)
    decreases |stages| - k
  {
    hide IsChange, Seek, Rest, AllSame, Stands, MayAct;
    end := cursor;
    if k < |stages| {
      var before, acted := texts[..k + 1], stages[..k];
      assert IsChange(tools, schedule, acted, before[k], stages[k], texts[k + 1]);
      assert IsSame(tools, before) by { SameSoFar(tools, texts, |stages|, k); }
      FindsChange(tools, schedule, before, acted, cursor, stages[k], texts[k + 1]);
      assert MayAct(schedule, acted, stages[k]) by { ChangeMayAct(tools, schedule, acted, before[k], stages[k], texts[k + 1]); }
      GoesOn(tools, schedule, before, acted, cursor, stages[k]);
      assert before + [texts[k + 1]] == texts[..k + 2] && acted + [stages[k]] == stages[..k + 1];
      end := TraceIsRound(tools, schedule, texts, stages, k + 1, Cursor(stages[k], Times(acted, stages[k]) + 1));
    } else {
      assert texts[..k + 1] == texts && stages[..k] == stages;
    }
  }

  lemma ChangeMayAct(tools: Tools, schedule: seq<Stage>, stages: seq<nat>, text: Text, s: nat, next: Text)
    requires IsChange(tools, schedule, stages, text, s, next)
    ensures MayAct(schedule, stages, s)
  {
  }

  lemma SameSoFar(tools: Tools, texts: seq<Text>, n: nat, k: nat)
    requires k < n <= |texts| && AllSame(tools, texts[..n])
    ensures IsSame(tools, texts[..k + 1])
  {
    assert texts[..n][k] == texts[k] && texts[..n][0] == texts[0];
  }

  /** What a round results in is all that its changes allow. */
  lemma TraceDecides(tools: Tools, schedule: seq<Stage>, texts: seq<Text>, stages: seq<nat>, r: Result)
    requires |texts| == |stages| + 1 && IsTrace(tools, schedule, texts, stages) && forall i :: 0 <= i < |stages| ==> stages[i] < |schedule|
    requires Results(tools, schedule, texts, stages, r)
    ensures r == Round(tools, schedule, texts[0])
  {
    hide IsTrace, Seek, AllSame, MayAct, IsQuiet, Proposes, Names;
    var n := |stages|;
    if n > 0 {
      AllSameBefore(tools, texts, n);
    }
    assert texts[..1] == [texts[0]] && stages[..0] == [];
    NoChanges(tools, schedule, texts[0]);
    var end := TraceIsRound(tools, schedule, texts, stages, 0, Cursor(0, 0));
    EndDecides(tools, schedule, texts, stages, end, r);
  }

  lemma NoChanges(tools: Tools, schedule: seq<Stage>, source: Text)
    ensures OnItsWay(tools, schedule, [source], [], Cursor(0, 0))
    ensures Rest(tools, schedule, [source], [], Cursor(0, 0)) == Round(tools, schedule, source)
  {
  }

  lemma AllSameBefore(tools: Tools, texts: seq<Text>, n: nat)
    requires 0 < n < |texts|
    ensures AllSame(tools, texts) ==> AllSame(tools, texts[..n])
  {
  }

  /** Where the round has come to decides how it ends. */
  lemma EndDecides(tools: Tools, schedule: seq<Stage>, texts: seq<Text>, stages: seq<nat>, end: Cursor, r: Result)
    requires OnItsWay(tools, schedule, texts, stages, end) && Results(tools, schedule, texts, stages, r)
    ensures r == Rest(tools, schedule, texts, stages, end)
  {
    var n := |stages|;
    var text := texts[n];
    if IsSame(tools, texts) {
      AllSameNow(tools, schedule, texts, stages, end);
      var s := SeekIs(tools, schedule, text, stages, end);
      Before(tools, schedule, stages, text, end, s);
      SameEnds(tools, schedule, texts, stages, end, r, s);
    } else {
      DamagedEnds(tools, schedule, texts, stages, end, r);
    }
  }

  lemma NotAllSame(tools: Tools, texts: seq<Text>)
    requires texts != [] && !IsSame(tools, texts)
    ensures !AllSame(tools, texts)
  {
  }

  lemma DamagedEnds(tools: Tools, schedule: seq<Stage>, texts: seq<Text>, stages: seq<nat>, end: Cursor, r: Result)
    requires OnItsWay(tools, schedule, texts, stages, end) && Results(tools, schedule, texts, stages, r) && !IsSame(tools, texts)
    ensures r == Rest(tools, schedule, texts, stages, end)
  {
    hide IsTrace, Seek, MayAct, IsQuiet, Proposes, Names, QuietBefore, Stands;
    NotAllSame(tools, texts);
  }

  lemma SameEnds(tools: Tools, schedule: seq<Stage>, texts: seq<Text>, stages: seq<nat>, end: Cursor, r: Result, s: nat)
    requires OnItsWay(tools, schedule, texts, stages, end) && Results(tools, schedule, texts, stages, r) && AllSame(tools, texts) && IsSame(tools, texts)
    requires QuietBefore(tools, schedule, stages, texts[|stages|], s)
    requires match Seek(tools, schedule, texts[|stages|], end)
      case Settled => s >= |schedule|
      case Changed(next, step, at) => MayAct(schedule, stages, s) && step == schedule[s].step && Proposes(tools, step, texts[|stages|])
      case Failed(step, message) => MayAct(schedule, stages, s) && step == schedule[s].step && tools.propose(step, texts[|stages|]) == Refused(message)
    ensures r == Rest(tools, schedule, texts, stages, end)
  {
    hide IsTrace, Seek, MayAct, Names, Stands;
    var text := texts[|stages|];
    InSchedule(schedule, stages);
    if r.Invariant? {
      var q: nat :| Refuses(tools, schedule, stages, text, q, r.step, r.message);
      OnlyOneFirst(tools, schedule, stages, text, s, q);
    }
  }

  lemma InSchedule(schedule: seq<Stage>, stages: seq<nat>)
    ensures forall s: nat :: MayAct(schedule, stages, s) ==> s < |schedule|
  {
  }

  /** Of two stages that have something to say, only one is the first. */
  lemma OnlyOneFirst(tools: Tools, schedule: seq<Stage>, stages: seq<nat>, text: Text, s: nat, q: nat)
    requires QuietBefore(tools, schedule, stages, text, s) && QuietBefore(tools, schedule, stages, text, q)
    requires MayAct(schedule, stages, q) && !IsQuiet(tools, schedule[q].step, text)
    ensures s <= q
    ensures MayAct(schedule, stages, s) && !IsQuiet(tools, schedule[s].step, text) ==> s == q
  {
  }

  // ----- rounds that change nothing -----

  /** No stage with a budget has anything to say about a text. */
  ghost predicate AllQuiet(tools: Tools, schedule: seq<Stage>, text: Text) {
    forall s: nat :: s < |schedule| && schedule[s].budget > 0 ==> IsQuiet(tools, schedule[s].step, text)
  }

  /** Changes that lead back to where they began, and no further. */
  ghost predicate ComesBack(tools: Tools, schedule: seq<Stage>, text: Text) {
    exists texts, stages :: IsWayBack(tools, schedule, text, texts, stages)
  }

  ghost predicate IsWayBack(tools: Tools, schedule: seq<Stage>, text: Text, texts: seq<Text>, stages: seq<nat>) {
    && stages != [] && |texts| == |stages| + 1 && IsTrace(tools, schedule, texts, stages) && AllSame(tools, texts)
    && texts[0] == text == texts[|stages|] && QuietBefore(tools, schedule, stages, text, |schedule|)
  }

  lemma FirstMayAct(tools: Tools, schedule: seq<Stage>, text: Text)
    ensures AllQuiet(tools, schedule, text) <==> QuietBefore(tools, schedule, [], text, |schedule|)
  {
    hide IsQuiet;
    assert forall s: nat :: MayAct(schedule, [], s) <==> s < |schedule| && schedule[s].budget > 0;
  }

  lemma TraceInSchedule(tools: Tools, schedule: seq<Stage>, texts: seq<Text>, stages: seq<nat>)
    requires IsTrace(tools, schedule, texts, stages)
    ensures forall i :: 0 <= i < |stages| ==> stages[i] < |schedule|
  {
    hide Proposes, QuietBefore;
    forall i | 0 <= i < |stages| ensures stages[i] < |schedule| {
      assert IsChange(tools, schedule, stages[..i], texts[i], stages[i], texts[i + 1]);
    }
  }

  /** A round returns its input with no step applied exactly when that parses and no stage has anything to say, or what they say leads back to it. */
  lemma UnchangedIff(tools: Tools, schedule: seq<Stage>, source: Text)
    ensures var r := Round(tools, schedule, source);
      (r.Formatted? && r.output == source && r.applied == []) <==>
        tools.parse(source).Program? && (AllQuiet(tools, schedule, source) || ComesBack(tools, schedule, source))
  {
    hide Round, IsTrace, QuietBefore, AllQuiet, AllSame, Names;
    var r := Round(tools, schedule, source);
    FirstMayAct(tools, schedule, source);
    if r.Formatted? && r.output == source {
      var texts, stages := RoundHasTrace(tools, schedule, source);
      ParsesThroughout(tools, texts);
      if stages != [] {
        assert IsWayBack(tools, schedule, source, texts, stages);
      }
    }
    if tools.parse(source).Program? && AllQuiet(tools, schedule, source) {
      QuietResults(tools, schedule, source);
    } else if tools.parse(source).Program? && ComesBack(tools, schedule, source) {
      var texts, stages :| IsWayBack(tools, schedule, source, texts, stages);
      BackResults(tools, schedule, source, texts, stages);
    }
  }

  lemma ParsesThroughout(tools: Tools, texts: seq<Text>)
    requires AllSame(tools, texts)
    ensures texts != [] && tools.parse(texts[0]).Program?
  {
  }

  lemma QuietResults(tools: Tools, schedule: seq<Stage>, source: Text)
    requires tools.parse(source).Program? && AllQuiet(tools, schedule, source)
    ensures Round(tools, schedule, source) == Formatted(source, [], if tools.scored then tools.score(source) else [])
  {
    FirstMayAct(tools, schedule, source);
    TraceDecides(tools, schedule, [source], [], Formatted(source, [], if tools.scored then tools.score(source) else []));
  }

  lemma BackResults(tools: Tools, schedule: seq<Stage>, source: Text, texts: seq<Text>, stages: seq<nat>)
    requires IsWayBack(tools, schedule, source, texts, stages)
    ensures Round(tools, schedule, source) == Formatted(source, [], if tools.scored then tools.score(source) else [])
  {
    hide IsTrace, QuietBefore, AllSame, Round;
    TraceInSchedule(tools, schedule, texts, stages);
    TraceDecides(tools, schedule, texts, stages, Formatted(source, [], if tools.scored then tools.score(source) else []));
  }

  /** What a whole run returns is a text that parses and about which no stage has anything to say, or whose changes lead back to it. */
  lemma RunIsSettled(tools: Tools, schedule: seq<Stage>, source: Text)
    requires FixedPoint(text => Round(tools, schedule, text), source).Formatted?
    ensures var output := FixedPoint(text => Round(tools, schedule, text), source).output;
      tools.parse(output).Program? && (AllQuiet(tools, schedule, output) || ComesBack(tools, schedule, output))
  {
    hide AllQuiet, ComesBack;
    var round := (text: Text) => Round(tools, schedule, text);
    forall text ensures round(text).Formatted? ==> (round(text).applied == [] <==> round(text).output == text) {
      RoundKeeps(tools, schedule, text);
    }
    FormattingTwice(round, source);
    UnchangedIff(tools, schedule, FixedPoint(round, source).output);
  }

  // ----- there and back -----

  /** Two steps, of which the second takes back what the first does. */
  function Pendulum(first: Step, a: Text, b: Text): Tools {
    Tools(text => Program(0), (step: Step, text: Text) => if step == first && text == a then Output(b) else if step != first && text == b then Output(a) else NoEdits,
          text => [], false)
  }

  /** Such a text counts as formatted, though a step would change it. */
  lemma ThereAndBack(a: Text, b: Text)
    requires a != b
    ensures var tools, schedule := Pendulum(Pass("there"), a, b), [Stage(Pass("there"), 1), Stage(Pass("back"), 1)];
      && Round(tools, schedule, a) == Formatted(a, [], [])
      && !AllQuiet(tools, schedule, a) && ComesBack(tools, schedule, a)
  {
    hide Round;
    var tools, schedule := Pendulum(Pass("there"), a, b), [Stage(Pass("there"), 1), Stage(Pass("back"), 1)];
    var texts, stages := [a, b, a], [0, 1];
    assert Pass("there") != Pass("back");
    assert schedule[0].budget > 0 && !IsQuiet(tools, schedule[0].step, a);
    assert stages[..0] == [] && stages[..1] == [0] && stages[..2] == stages;
    assert Times([], 0) == 0 && Times([], 1) == 0;
    assert [0][..0] == [] && Times([0], 0) == 1 && Times([0], 1) == 0 && Times(stages, 1) == 1;
    assert IsChange(tools, schedule, stages[..0], a, 0, b);
    assert IsChange(tools, schedule, stages[..1], b, 1, a);
    assert IsWayBack(tools, schedule, a, texts, stages);
    BackResults(tools, schedule, a, texts, stages);
  }
}
