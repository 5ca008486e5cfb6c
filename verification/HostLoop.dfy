/**
The rounds over a host document (Vue, HTML, Markdown). The formatters of one
round are a function of the document.
*/
module HostLoop {
  import opened StepNames

  type Text = string

  datatype Result = Formatted(output: Text, applied: seq<string>) | Failed(message: string) | StillChanges

  const EXTRA_ROUNDS: nat := 3

  /** What `n` rounds lead to, with the steps of all of them; the first error ends it. */
  ghost function After(round: Text -> Result, source: Text, n: nat): Result
    decreases n
  {
    if n == 0 then Formatted(source, []) else
      var before := After(round, source, n - 1);
      if !before.Formatted? then before else
        var next := round(before.output);
        if !next.Formatted? then next else Formatted(next.output, if n == 1 then next.applied else AddAll(before.applied, next.applied))
  }

  /** Round `n + 1` succeeds and changes what round `n` left. */
  ghost predicate Changes(round: Text -> Result, source: Text, n: nat) {
    && After(round, source, n).Formatted? && After(round, source, n + 1).Formatted?
    && After(round, source, n + 1).output != After(round, source, n).output
  }

  /**
  The first text that the next round leaves alone, with the steps of the rounds
  that led to it. An error of a round ends the run, and only a document that
  every round changes is given up on.
  */
  method FormatWith(round: Text -> Result, source: Text) returns (r: Result)
    requires forall text :: !round(text).StillChanges?
    ensures r.Formatted? ==>
      && round(r.output).Formatted? && round(r.output).output == r.output
      && (exists n :: 1 <= n <= 1 + EXTRA_ROUNDS && r == After(round, source, n) && forall k :: 0 <= k < n - 1 ==> Changes(round, source, k))
    ensures r.Failed? ==>
      (exists n :: 1 <= n <= 1 + EXTRA_ROUNDS && r == After(round, source, n) && forall k :: 0 <= k < n - 1 ==> Changes(round, source, k))
    ensures r.StillChanges? <==> forall n :: 0 <= n <= EXTRA_ROUNDS ==> Changes(round, source, n)
    ensures round(source).Formatted? && round(source).output == source ==> r == round(source)
  {
    var formatted := round(source);
    assert formatted == After(round, source, 1);
    if !formatted.Formatted? || formatted.output == source {
      assert !Changes(round, source, 0);
      return formatted;
    }
    var extra := 0;
    while extra < EXTRA_ROUNDS
      invariant extra <= EXTRA_ROUNDS
      invariant formatted.Formatted? && formatted == After(round, source, extra + 1)
      invariant forall n :: 0 <= n <= extra ==> Changes(round, source, n)
    {
      var next := round(formatted.output);
      assert After(round, source, extra + 2).Formatted? == next.Formatted?;
      if !next.Formatted? {
        assert !Changes(round, source, extra + 1);
        return next;
      }
      if next.output == formatted.output {
        assert !Changes(round, source, extra + 1);
        return formatted;
      }
      var applied := Union(formatted.applied, next.applied);
      formatted := Formatted(next.output, applied);
      extra := extra + 1;
    }
    r := StillChanges;
  }
}
