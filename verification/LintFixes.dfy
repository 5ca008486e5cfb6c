/**
The fix rounds of the linter. The linter itself is a function from a text to
what one pass over it reports; the choice among its fixes, and the loop that
lints again after each round, are modelled here.
*/
module LintFixes {
  import opened Options
  import opened Sorting
  import opened EditSets

  /** Edits that have to be applied together, with the range they cover. */
  datatype FixUnit = FixUnit(start: nat, end: nat, edits: seq<Edit>)

  datatype Diagnostic = Diagnostic(line: nat, column: nat, rule: string, message: string)

  datatype Pass = Pass(syntaxError: bool, fixes: seq<FixUnit>, diagnostics: seq<Diagnostic>)

  /** One configured linter: a pass over a text, and the order of a report. */
  datatype Linter = Linter(run: (Text, bool) -> Pass, sorted: seq<Diagnostic> -> seq<Diagnostic>)

  const MAX_FIX_ROUNDS: nat := 10

  ghost predicate IsUnit(unit: FixUnit, text: Text) {
    && unit.start <= unit.end
    && Disjoint(unit.edits)
    && AllInRange(unit.edits, text)
    && forall i :: 0 <= i < |unit.edits| ==> unit.start <= unit.edits[i].start && unit.edits[i].end <= unit.end
  }

  /** A unit covers exactly what its edits do; no edits make no unit. */
  function NewUnit(edits: seq<Edit>): (unit: Option<FixUnit>)
    ensures unit.None? <==> edits == []
    ensures unit.Some? ==> unit.value.edits == edits
    ensures unit.Some? ==> forall e :: e in edits ==> unit.value.start <= e.start && e.end <= unit.value.end
    ensures unit.Some? ==> exists e :: e in edits && e.start == unit.value.start
    ensures unit.Some? ==> exists e :: e in edits && e.end == unit.value.end
  {
    if edits == [] then None else
      var front := edits[..|edits| - 1];
      var last := edits[|edits| - 1];
      assert edits == front + [last];
      match NewUnit(front)
      case None => Some(FixUnit(last.start, last.end, edits))
      case Some(unit) =>
        Some(FixUnit(if unit.start <= last.start then unit.start else last.start, if unit.end >= last.end then unit.end else last.end, edits))
  }

  ghost predicate AreUnits(units: seq<FixUnit>, text: Text) {
    forall u :: u in units ==> IsUnit(u, text)
  }

  predicate UnitLe(a: FixUnit, b: FixUnit) {
    a.start < b.start || (a.start == b.start && a.end <= b.end)
  }

  /** The units that start after the last chosen one has ended. */
  ghost function Chosen(units: seq<FixUnit>, lastEnd: Option<nat>): seq<FixUnit> {
    if units == [] then []
    else if lastEnd.Some? && units[0].start <= lastEnd.value then Chosen(units[1..], lastEnd)
    else [units[0]] + Chosen(units[1..], Some(units[0].end))
  }

  ghost function EditsOf(units: seq<FixUnit>): seq<Edit> {
    if units == [] then [] else units[0].edits + EditsOf(units[1..])
  }

  ghost function ChosenEdits(units: seq<FixUnit>): seq<Edit> {
    EditsOf(Chosen(StableSort(UnitLe, units), None))
  }

  /** What is chosen, and where it lies: past `lastEnd`, each unit past the one before. */
  lemma {:induction false} ChosenIsDisjoint(units: seq<FixUnit>, lastEnd: Option<nat>, text: Text)
    requires AreUnits(units, text)
    ensures var edits := EditsOf(Chosen(units, lastEnd));
      && Disjoint(edits) && AllInRange(edits, text)
      && (lastEnd.Some? ==> forall i :: 0 <= i < |edits| ==> lastEnd.value < edits[i].start)
    ensures forall u :: u in Chosen(units, lastEnd) ==> u in units
  {
    if units != [] {
      if lastEnd.Some? && units[0].start <= lastEnd.value {
        ChosenIsDisjoint(units[1..], lastEnd, text);
      } else {
        ChosenIsDisjoint(units[1..], Some(units[0].end), text);
        var rest := Chosen(units[1..], Some(units[0].end));
        var edits := EditsOf(Chosen(units, lastEnd));
        assert ([units[0]] + rest)[1..] == rest;
        assert edits == units[0].edits + EditsOf(rest);
        assert IsUnit(units[0], text);
      }
    }
  }

  /** The end of the last chosen unit. */
  ghost function LastEnd(chosen: seq<FixUnit>, lastEnd: Option<nat>): Option<nat> {
    if chosen == [] then lastEnd else Some(chosen[|chosen| - 1].end)
  }

  /** One more unit is chosen exactly when it starts past the end of the last one chosen before it. */
  lemma {:induction false} ChosenNext(units: seq<FixUnit>, unit: FixUnit, lastEnd: Option<nat>)
    ensures var chosen := Chosen(units, lastEnd); var last := LastEnd(chosen, lastEnd);
      Chosen(units + [unit], lastEnd) == chosen + if last.None? || last.value < unit.start then [unit] else []
    decreases |units|
  {
    if units == [] {
      assert units + [unit] == [unit] && [unit][1..] == [];
    } else {
      assert (units + [unit])[1..] == units[1..] + [unit];
      if lastEnd.Some? && units[0].start <= lastEnd.value {
        ChosenNext(units[1..], unit, lastEnd);
      } else {
        ChosenNext(units[1..], unit, Some(units[0].end));
      }
    }
  }

  lemma UnitLeIsOrder()
    ensures TotalPreorder(UnitLe)
  {
  }

  /** Units are tried in the order of their starts, those with one start in the order of their ends. */
  ghost predicate InOrder(units: seq<FixUnit>) {
    forall i, j :: 0 <= i < j < |units| ==>
      units[i].start <= units[j].start && (units[i].start == units[j].start ==> units[i].end <= units[j].end)
  }

  lemma TriedInOrder(units: seq<FixUnit>)
    ensures exists sorted :: multiset(sorted) == multiset(units) && InOrder(sorted) && ChosenEdits(units) == EditsOf(Chosen(sorted, None))
  {
    UnitLeIsOrder();
    StableSortSorts(UnitLe, units);
    var sorted := StableSort(UnitLe, units);
    forall i, j | 0 <= i < j < |sorted|
      ensures sorted[i].start <= sorted[j].start && (sorted[i].start == sorted[j].start ==> sorted[i].end <= sorted[j].end)
    {
      assert UnitLe(sorted[i], sorted[j]);
    }
    assert InOrder(sorted) && ChosenEdits(units) == EditsOf(Chosen(sorted, None));
  }

  lemma ChosenEditsAreDisjoint(units: seq<FixUnit>, text: Text)
    requires AreUnits(units, text)
    ensures Disjoint(ChosenEdits(units)) && AllInRange(ChosenEdits(units), text)
  {
    UnitLeIsOrder();
    StableSortSorts(UnitLe, units);
    var sorted := StableSort(UnitLe, units);
    forall u | u in sorted ensures IsUnit(u, text) {
      assert u in multiset(units);
    }
    ChosenIsDisjoint(sorted, None, text);
  }

  /** The text with the chosen fixes, when that is another text. */
  ghost function Fixed(text: Text, units: seq<FixUnit>): Option<Text>
    requires AreUnits(units, text)
  {
    ChosenEditsAreDisjoint(units, text);
    NormalizedInRange(ChosenEdits(units), text);
    var ordered := Edits(Ordered(Normalized(ChosenEdits(units), text)));
    var next := RightToLeft(ordered, text);
    if next == text then None else Some(next)
  }

  lemma NormalizedInRange(edits: seq<Edit>, text: Text)
    requires Disjoint(edits) && AllInRange(edits, text)
    ensures var n := Normalized(edits, text);
      AllInRange(n, text) && Disjoint(n) && Chained(Edits(Ordered(n)), |text|)
  {
    var n := Normalized(edits, text);
    NormalizedDisjoint(edits, text);
    forall i | 0 <= i < |n| ensures InRange(n[i], text) {
      assert n[i] in edits;
    }
    OrderedIsPermutation(n);
    DisjointOrdered(n);
    RangesOrdered(n, text);
    var o := Ordered(n);
    forall i | 0 < i < |o| ensures !Overlaps(o[i - 1].edit, o[i].edit) {
      assert !Overlaps(Edits(o)[i - 1], Edits(o)[i]);
    }
    NeighboursSuffice(o, text);
  }

  /** That text is the one edited offset by offset, with the chosen edits that change something, each once. */
  lemma FixedIsEdited(text: Text, units: seq<FixUnit>)
    requires AreUnits(units, text)
    ensures Edited(Normalized(ChosenEdits(units), text), text, 0) == if Fixed(text, units).Some? then Fixed(text, units).value else text
  {
    ChosenEditsAreDisjoint(units, text);
    NormalizedInRange(ChosenEdits(units), text);
    var edits := Normalized(ChosenEdits(units), text);
    hide Normalized, ChosenEdits, Edited, RightToLeft, Ordered, AreUnits, AllInRange;
    RightToLeftEdits(Edits(Ordered(edits)), text);
    OrderedEdits(edits, text, 0);
  }

  lemma ChosenStep(units: seq<FixUnit>, i: nat, lastEnd: Option<nat>)
    requires i < |units|
    ensures EditsOf(Chosen(units[i..], lastEnd)) ==
      if lastEnd.Some? && units[i].start <= lastEnd.value then EditsOf(Chosen(units[i + 1..], lastEnd))
      else units[i].edits + EditsOf(Chosen(units[i + 1..], Some(units[i].end)))
  {
    assert units[i..][1..] == units[i + 1..];
    var rest := Chosen(units[i + 1..], Some(units[i].end));
    assert ([units[i]] + rest)[1..] == rest;
  }

  method ChooseFixes(fixes: seq<FixUnit>) returns (chosen: EditSet)
    ensures fresh(chosen) && chosen.edits == ChosenEdits(fixes)
  {
    var units := StableSort(UnitLe, fixes);
    chosen := new EditSet();
    var lastEnd: Option<nat> := None;
    assert units[0..] == units;
    for i := 0 to |units|
      invariant fresh(chosen)
      invariant chosen.edits + EditsOf(Chosen(units[i..], lastEnd)) == ChosenEdits(fixes)
    {
      ChosenStep(units, i, lastEnd);
      if lastEnd.Some? && units[i].start <= lastEnd.value {
        continue;
      }
      lastEnd := Some(units[i].end);
      chosen.Extend(units[i].edits);
    }
  }

  /** Never a conflict: the only reason to return nothing is a text left as it was. */
  method ApplyFixes(text: Text, fixes: seq<FixUnit>) returns (next: Option<Text>)
    requires AreUnits(fixes, text)
    ensures next == Fixed(text, fixes)
  {
    ChosenEditsAreDisjoint(fixes, text);
    NormalizedInRange(ChosenEdits(fixes), text);
    var edits := ChooseFixes(fixes);
    edits.Normalize(text);
    var applied := edits.Apply(text);
    if applied.Conflict? || applied.text == text {
      return None;
    }
    next := Some(applied.text);
  }

  // ----- the rounds -----

  ghost predicate ProducesUnits(linter: Linter) {
    forall text, fix :: AreUnits(linter.run(text, fix).fixes, text)
  }

  /** One round: the fixed text, unless nothing changes or the change breaks the parse. */
  ghost function Round(linter: Linter, text: Text): Option<Text>
    requires ProducesUnits(linter)
  {
    var pass := linter.run(text, true);
    if pass.syntaxError then None else
      var next := Fixed(text, pass.fixes);
      if next.None? || linter.run(next.value, true).syntaxError then None else next
  }

  ghost function Rounds(linter: Linter, text: Text, n: nat): Text
    requires ProducesUnits(linter)
    decreases n
  {
    if n == 0 || Round(linter, text).None? then text else Rounds(linter, Round(linter, text).value, n - 1)
  }

  /** The rounds never break a parse, and another round continues from the last text. */
  lemma {:induction false} RoundsKeepParsing(linter: Linter, text: Text, n: nat)
    requires ProducesUnits(linter)
    ensures var last := Rounds(linter, text, n);
      && linter.run(last, true).syntaxError == linter.run(text, true).syntaxError
      && (linter.run(text, true).syntaxError ==> last == text)
      && Rounds(linter, text, n + 1) == (if Round(linter, last).None? then last else Round(linter, last).value)
    decreases n
  {
    if n > 0 && Round(linter, text).Some? {
      RoundsKeepParsing(linter, Round(linter, text).value, n - 1);
    }
  }

  method Lint(linter: Linter, source: Text, fix: bool) returns (fixed: Option<Text>, diagnostics: seq<Diagnostic>)
    requires ProducesUnits(linter)
    ensures var text := if fixed.Some? then fixed.value else source;
      && diagnostics == linter.sorted(linter.run(text, fix).diagnostics)
      && text == (if fix then Rounds(linter, source, MAX_FIX_ROUNDS) else source)
      && linter.run(text, true).syntaxError == linter.run(source, true).syntaxError
    ensures fixed.Some? ==> fixed.value != source
  {
    if !fix {
      return None, linter.sorted(linter.run(source, false).diagnostics);
    }
    var text := source;
    var pass := linter.run(text, true);
    var round := 0;
    while round < MAX_FIX_ROUNDS
      invariant round <= MAX_FIX_ROUNDS
      invariant Rounds(linter, text, MAX_FIX_ROUNDS - round) == Rounds(linter, source, MAX_FIX_ROUNDS)
      invariant pass == linter.run(text, true)
    {
      if pass.syntaxError || pass.fixes == [] {
        NothingToFix(linter, text);
        break;
      }
      var next := ApplyFixes(text, pass.fixes);
      if next.None? {
        break;
      }
      var relinted := linter.run(next.value, true);
      if relinted.syntaxError {
        pass := Pass(pass.syntaxError, [], pass.diagnostics);
        break;
      }
      text := next.value;
      pass := relinted;
      round := round + 1;
    }
    RoundsKeepParsing(linter, source, MAX_FIX_ROUNDS);
    fixed := if text != source then Some(text) else None;
    diagnostics := linter.sorted(pass.diagnostics);
  }

  lemma NothingToFix(linter: Linter, text: Text)
    requires ProducesUnits(linter)
    requires var pass := linter.run(text, true); pass.syntaxError || pass.fixes == []
    ensures Round(linter, text).None?
  {
    if linter.run(text, true).fixes == [] {
      var none: seq<Edit> := [];
      assert ChosenEdits([]) == none;
      assert Normalized(none, text) == none;
      assert Edits(Ordered(none)) == none;
    }
  }
}
