/**
Replacements of byte ranges of one source text. A text is a sequence of bytes
here, so offsets are plain indices.
*/
module EditSets {
  import opened Sorting

  type Text = string

  datatype Edit = Edit(start: nat, end: nat, text: Text)

  datatype Applied = Ok(text: Text) | Conflict(first: Edit, second: Edit)

  predicate Overlaps(a: Edit, b: Edit) {
    a.start < b.end && b.start < a.end
  }

  ghost predicate Disjoint(edits: seq<Edit>) {
    forall i, j :: 0 <= i < j < |edits| ==> !Overlaps(edits[i], edits[j])
  }

  predicate InRange(e: Edit, source: Text) {
    e.start <= e.end <= |source|
  }

  ghost predicate AllInRange(edits: seq<Edit>, source: Text) {
    forall i :: 0 <= i < |edits| ==> InRange(edits[i], source)
  }

  /** An edit with its place in the order of pushing. */
  datatype Placed = Placed(at: nat, edit: Edit)

  function Enumerate(edits: seq<Edit>, from: nat): seq<Placed> {
    if edits == [] then [] else [Placed(from, edits[0])] + Enumerate(edits[1..], from + 1)
  }

  predicate PositionLe(a: Placed, b: Placed) {
    || a.edit.start < b.edit.start
    || (a.edit.start == b.edit.start && a.edit.end < b.edit.end)
    || (a.edit.start == b.edit.start && a.edit.end == b.edit.end && a.at <= b.at)
  }

  function Edits(ordered: seq<Placed>): seq<Edit> {
    seq(|ordered|, i requires 0 <= i < |ordered| => ordered[i].edit)
  }

  /** The edits by start, then end, then order of pushing. */
  function Ordered(edits: seq<Edit>): seq<Placed> {
    StableSort(PositionLe, Enumerate(edits, 0))
  }

  function ApplyOne(text: Text, e: Edit): Text
    requires InRange(e, text)
  {
    text[..e.start] + e.text + text[e.end..]
  }

  /** The last edit first, so the offsets of the ones before it stay valid. */
  function RightToLeft(edits: seq<Edit>, text: Text): (r: Text)
    requires Chained(edits, |text|)
  {
    if edits == [] then text else
      var last := edits[|edits| - 1];
      assert Chained(edits[..|edits| - 1], last.start);
      RightToLeft(edits[..|edits| - 1], ApplyOne(text, last))
  }

  /** Each edit ends where the next one starts, or before. */
  ghost predicate Chained(edits: seq<Edit>, limit: nat) {
    && (forall i :: 0 <= i < |edits| ==> edits[i].start <= edits[i].end <= limit)
    && (forall i, j :: 0 <= i < j < |edits| ==> edits[i].end <= edits[j].start)
  }

  lemma EnumerateAt(edits: seq<Edit>, from: nat)
    ensures |Enumerate(edits, from)| == |edits|
    ensures forall i :: 0 <= i < |edits| ==> Enumerate(edits, from)[i] == Placed(from + i, edits[i])
  {
    if edits != [] {
      EnumerateAt(edits[1..], from + 1);
    }
  }

  lemma PositionIsOrder()
    ensures TotalPreorder(PositionLe)
  {
  }

  lemma ChoiceIsOrder()
    ensures TotalPreorder(ChoiceLe)
  {
  }

  lemma OrderedSorts(edits: seq<Edit>)
    ensures var o := Ordered(edits);
      && |o| == |edits| && multiset(o) == multiset(Enumerate(edits, 0))
      && (forall i, j :: 0 <= i < j < |o| ==> PositionLe(o[i], o[j]))
  {
    PositionIsOrder();
    EnumerateAt(edits, 0);
    StableSortSorts(PositionLe, Enumerate(edits, 0));
  }

  /** Ordering keeps every edit: places name the same edits before and after. */
  lemma OrderedIsPermutation(edits: seq<Edit>)
    ensures var o := Ordered(edits);
      && |o| == |edits|
      && (forall i :: 0 <= i < |o| ==> o[i].at < |edits| && edits[o[i].at] == o[i].edit)
      && (forall i, j :: 0 <= i < j < |o| ==> o[i].at != o[j].at && PositionLe(o[i], o[j]))
      && (forall k :: 0 <= k < |edits| ==> Placed(k, edits[k]) in o)
    ensures forall i, j :: 0 <= i < j < |Ordered(edits)| ==>
      var a, b := Ordered(edits)[i], Ordered(edits)[j];
      && a.edit.start <= b.edit.start
      && (a.edit.start == b.edit.start ==> a.edit.end <= b.edit.end && (a.edit.end == b.edit.end ==> a.at < b.at))
  {
    var o := Ordered(edits);
    OrderedSorts(edits);
    forall i | 0 <= i < |o| ensures o[i].at < |edits| && edits[o[i].at] == o[i].edit {
      OrderedNames(edits, i);
    }
    forall i, j | 0 <= i < j < |o| ensures o[i].at != o[j].at {
      DistinctPlaces(edits, i, j);
    }
    forall k | 0 <= k < |edits| ensures Placed(k, edits[k]) in o {
      EnumerateAt(edits, 0);
      assert Enumerate(edits, 0)[k] in multiset(o);
    }
  }

  lemma OrderedNames(edits: seq<Edit>, i: nat)
    requires i < |Ordered(edits)|
    ensures Ordered(edits)[i].at < |edits| && edits[Ordered(edits)[i].at] == Ordered(edits)[i].edit
  {
    OrderedSorts(edits);
    EnumerateAt(edits, 0);
    assert Ordered(edits)[i] in multiset(Enumerate(edits, 0));
  }

  lemma DistinctPlaces(edits: seq<Edit>, i: nat, j: nat)
    requires i < j < |Ordered(edits)|
    ensures Ordered(edits)[i].at != Ordered(edits)[j].at
  {
    OrderedSorts(edits);
    EnumerateAt(edits, 0);
    OrderedNames(edits, i);
    OrderedNames(edits, j);
    if Ordered(edits)[i].at == Ordered(edits)[j].at {
      TwoPlaces(Ordered(edits), i, j);
      OnePlace(Enumerate(edits, 0), Ordered(edits)[i].at);
      assert false;
    }
  }

  lemma TwoPlaces(o: seq<Placed>, i: int, j: int)
    requires 0 <= i < j < |o| && o[i] == o[j]
    ensures multiset(o)[o[i]] >= 2
  {
    assert o == o[..i] + [o[i]] + o[i + 1..j] + [o[j]] + o[j + 1..];
  }

  lemma OnePlace(e: seq<Placed>, k: int)
    requires 0 <= k < |e| && forall i :: 0 <= i < |e| && i != k ==> e[i] != e[k]
    ensures multiset(e)[e[k]] == 1
  {
    assert e == e[..k] + [e[k]] + e[k + 1..];
    assert e[k] !in e[..k] && e[k] !in e[k + 1..];
  }

  lemma ApartWhenDisjoint(edits: seq<Edit>, a: nat, b: nat)
    requires Disjoint(edits) && a < |edits| && b < |edits| && a != b
    ensures !Overlaps(edits[a], edits[b])
  {
  }

  /** Where an edit stands in the order. */
  lemma PlaceOf(edits: seq<Edit>, a: nat) returns (i: nat)
    requires a < |edits|
    ensures i < |Ordered(edits)| && Ordered(edits)[i] == Placed(a, edits[a])
  {
    OrderedIsPermutation(edits);
    i :| 0 <= i < |Ordered(edits)| && Ordered(edits)[i] == Placed(a, edits[a]);
  }

  lemma DisjointOrdered(edits: seq<Edit>)
    ensures Disjoint(edits) <==> Disjoint(Edits(Ordered(edits)))
  {
    hide Overlaps, Ordered, PositionLe;
    OrderedIsPermutation(edits);
    var o := Ordered(edits);
    if Disjoint(edits) {
      forall i, j | 0 <= i < j < |o| ensures !Overlaps(o[i].edit, o[j].edit) {
        ApartWhenDisjoint(edits, o[i].at, o[j].at);
      }
    }
    if Disjoint(Edits(o)) {
      forall a, b | 0 <= a < b < |edits| ensures !Overlaps(edits[a], edits[b]) {
        var i := PlaceOf(edits, a);
        var j := PlaceOf(edits, b);
        ApartWhenDisjoint(Edits(o), i, j);
      }
    }
  }

  lemma RangesOrdered(edits: seq<Edit>, source: Text)
    requires AllInRange(edits, source)
    ensures AllInRange(Edits(Ordered(edits)), source)
  {
    OrderedIsPermutation(edits);
    var o := Ordered(edits);
    forall i | 0 <= i < |o| ensures InRange(Edits(o)[i], source) {
      assert InRange(edits[o[i].at], source);
    }
  }

  lemma ClashIsReal(o: seq<Placed>, i: nat)
    requires 0 < i < |o| && Overlaps(o[i - 1].edit, o[i].edit)
    ensures !Disjoint(Edits(o))
  {
    var e := Edits(o);
    assert Overlaps(e[i - 1], e[i]);
  }

  /** Comparing neighbours is enough: the chain of ends and starts is transitive. */
  lemma {:induction false} NeighboursSuffice(o: seq<Placed>, source: Text)
    requires forall i, j :: 0 <= i < j < |o| ==> PositionLe(o[i], o[j])
    requires AllInRange(Edits(o), source)
    requires forall i :: 0 < i < |o| ==> !Overlaps(o[i - 1].edit, o[i].edit)
    ensures Chained(Edits(o), |source|) && Disjoint(Edits(o))
  {
    var e := Edits(o);
    forall i, j | 0 <= i < j < |e| ensures e[i].end <= e[j].start {
      Chain(o, source, i, j);
    }
    assert forall i :: 0 <= i < |e| ==> InRange(e[i], source);
  }

  lemma Chain(o: seq<Placed>, source: Text, i: nat, j: nat)
    requires forall i, j :: 0 <= i < j < |o| ==> PositionLe(o[i], o[j])
    requires AllInRange(Edits(o), source)
    requires forall i :: 0 < i < |o| ==> !Overlaps(o[i - 1].edit, o[i].edit)
    requires i < j < |o|
    ensures o[i].edit.end <= o[j].edit.start
    decreases j - i
  {
    assert forall k :: 0 <= k < |o| ==> InRange(Edits(o)[k], source);
    assert InRange(Edits(o)[i], source) && InRange(Edits(o)[i + 1], source);
    assert PositionLe(o[i], o[i + 1]) && !Overlaps(o[(i + 1) - 1].edit, o[i + 1].edit);
    assert o[i].edit.end <= o[i + 1].edit.start;
    if i + 1 < j {
      Chain(o, source, i + 1, j);
    }
  }

  /** Edits left of a suffix leave the suffix alone. */
  lemma {:induction false} RightToLeftAppends(edits: seq<Edit>, text: Text, tail: Text)
    requires Chained(edits, |text|)
    ensures Chained(edits, |text + tail|)
    ensures RightToLeft(edits, text + tail) == RightToLeft(edits, text) + tail
    decreases |edits|
  {
    if edits != [] {
      var last := edits[|edits| - 1];
      assert ApplyOne(text + tail, last) == ApplyOne(text, last) + tail;
      assert Chained(edits[..|edits| - 1], last.start);
      RightToLeftAppends(edits[..|edits| - 1], ApplyOne(text, last), tail);
    }
  }

  lemma SpliceStep(edits: seq<Edit>, k: nat, cursor: nat, source: Text)
    requires Chained(edits, |source|) && k < |edits|
    requires cursor <= edits[k].start && Chained(edits[..k], cursor)
    ensures Chained(edits[..k + 1], edits[k].end)
    ensures RightToLeft(edits[..k + 1], source[..edits[k].end])
         == RightToLeft(edits[..k], source[..cursor]) + source[cursor..edits[k].start] + edits[k].text
  {
    var e := edits[k];
    assert edits[..k + 1][..k] == edits[..k];
    assert ApplyOne(source[..e.end], e) == source[..cursor] + (source[cursor..e.start] + e.text);
    RightToLeftAppends(edits[..k], source[..cursor], source[cursor..e.start] + e.text);
  }

  // ----- the text, offset by offset -----

  /** What is inserted at an offset, in the order of pushing. */
  function Inserted(edits: seq<Edit>, o: nat): Text {
    if edits == [] then "" else
      Inserted(edits[..|edits| - 1], o) + (if edits[|edits| - 1].start == o == edits[|edits| - 1].end then edits[|edits| - 1].text else "")
  }

  /** What replaces the text that begins at an offset. */
  function Replaced(edits: seq<Edit>, o: nat): Text {
    if edits == [] then "" else
      Replaced(edits[..|edits| - 1], o) + (if edits[|edits| - 1].start == o < edits[|edits| - 1].end then edits[|edits| - 1].text else "")
  }

  predicate IsReplaced(edits: seq<Edit>, o: nat) {
    exists i :: 0 <= i < |edits| && edits[i].start <= o < edits[i].end
  }

  /** What an offset becomes: what is inserted there, what replaces the text there, and what stays of it. */
  function EditedAt(edits: seq<Edit>, source: Text, o: nat): Text {
    Inserted(edits, o) + Replaced(edits, o) + if o < |source| && !IsReplaced(edits, o) then [source[o]] else ""
  }

  /** The edited text from an offset on. */
  function Edited(edits: seq<Edit>, source: Text, o: nat): Text
    decreases |source| + 1 - o
  {
    if o > |source| then "" else EditedAt(edits, source, o) + Edited(edits, source, o + 1)
  }

  /** Nothing happens at an offset behind all edits. */
  lemma {:induction false} NothingBehind(edits: seq<Edit>, o: nat)
    requires forall i :: 0 <= i < |edits| ==> edits[i].start <= edits[i].end <= o
    ensures Replaced(edits, o) == "" && !IsReplaced(edits, o)
    ensures (forall i :: 0 <= i < |edits| ==> edits[i].end < o) ==> Inserted(edits, o) == ""
    decreases |edits|
  {
    if edits != [] {
      NothingBehind(edits[..|edits| - 1], o);
    }
  }

  lemma BehindIsSource(edits: seq<Edit>, source: Text, o: nat)
    requires o <= |source| && forall i :: 0 <= i < |edits| ==> edits[i].start <= edits[i].end <= o
    ensures EditedAt(edits, source, o) == Inserted(edits, o) + source[o..if o < |source| then o + 1 else o]
  {
    NothingBehind(edits, o);
  }

  /** From the end of the last edit on, the source stays, behind what is inserted there. */
  lemma {:induction false} RestStays(edits: seq<Edit>, source: Text, o: nat)
    requires o <= |source| && forall i :: 0 <= i < |edits| ==> edits[i].start <= edits[i].end <= o
    ensures Edited(edits, source, o) == Inserted(edits, o) + source[o..]
    decreases |source| - o
  {
    hide Inserted, EditedAt;
    BehindIsSource(edits, source, o);
    if o < |source| {
      RestStays(edits, source, o + 1);
      NothingBehind(edits, o + 1);
      assert source[o..] == source[o..o + 1] + source[o + 1..];
    }
  }

  /** Before the last edit, only the others count. */
  lemma SameBefore(edits: seq<Edit>, source: Text, o: nat)
    requires edits != [] && Chained(edits, |source|) && o < edits[|edits| - 1].start
    ensures EditedAt(edits, source, o) == EditedAt(edits[..|edits| - 1], source[..edits[|edits| - 1].start], o)
  {
    var front := edits[..|edits| - 1];
    assert IsReplaced(edits, o) == IsReplaced(front, o) by {
      assert forall i :: 0 <= i < |front| ==> front[i] == edits[i];
    }
  }

  lemma {:induction false} EditedBefore(edits: seq<Edit>, source: Text, o: nat)
    requires edits != [] && Chained(edits, |source|) && o <= edits[|edits| - 1].start
    ensures var e := edits[|edits| - 1];
      Edited(edits, source, o) == Edited(edits[..|edits| - 1], source[..e.start], o) + e.text + source[e.end..]
    decreases edits[|edits| - 1].start - o
  {
    hide EditedAt;
    var e := edits[|edits| - 1];
    if o < e.start {
      SameBefore(edits, source, o);
      EditedBefore(edits, source, o + 1);
    } else {
      LastEdited(edits, source);
    }
  }

  lemma LastEdited(edits: seq<Edit>, source: Text)
    requires edits != [] && Chained(edits, |source|)
    ensures var e := edits[|edits| - 1];
      Edited(edits, source, e.start) == Edited(edits[..|edits| - 1], source[..e.start], e.start) + e.text + source[e.end..]
  {
    FrontEdited(edits, source);
    var e := edits[|edits| - 1];
    if e.end == e.start {
      InsertionEdited(edits, source);
    } else {
      hide EditedAt, Edited, Inserted, Chained;
      LastReplaced(edits, source);
      EditedStep(edits, source, e.start);
      ReplacedRest(edits, source, e.start + 1);
    }
  }

  lemma FrontEdited(edits: seq<Edit>, source: Text)
    requires edits != [] && Chained(edits, |source|)
    ensures var e, front := edits[|edits| - 1], edits[..|edits| - 1]; Edited(front, source[..e.start], e.start) == Inserted(front, e.start)
    ensures edits[|edits| - 1].start <= edits[|edits| - 1].end <= |source|
  {
    hide EditedAt, Edited, Inserted;
    var e, front := edits[|edits| - 1], edits[..|edits| - 1];
    assert forall i :: 0 <= i < |front| ==> front[i] == edits[i] && front[i].end <= e.start;
    RestStays(front, source[..e.start], e.start);
    assert source[..e.start][e.start..] == "";
  }

  lemma InsertionEdited(edits: seq<Edit>, source: Text)
    requires edits != [] && Chained(edits, |source|) && edits[|edits| - 1].start == edits[|edits| - 1].end
    ensures var e := edits[|edits| - 1]; Edited(edits, source, e.start) == Inserted(edits[..|edits| - 1], e.start) + e.text + source[e.start..]
  {
    hide EditedAt, Edited, Inserted;
    LastInserted(edits, source);
    RestStays(edits, source, edits[|edits| - 1].start);
  }

  lemma EditedStep(edits: seq<Edit>, source: Text, o: nat)
    requires o <= |source|
    ensures Edited(edits, source, o) == EditedAt(edits, source, o) + Edited(edits, source, o + 1)
  {
  }

  lemma LastInserted(edits: seq<Edit>, source: Text)
    requires edits != [] && edits[|edits| - 1].start == edits[|edits| - 1].end
    ensures var e := edits[|edits| - 1]; Inserted(edits, e.start) == Inserted(edits[..|edits| - 1], e.start) + e.text
  {
  }

  lemma LastReplaced(edits: seq<Edit>, source: Text)
    requires edits != [] && Chained(edits, |source|) && edits[|edits| - 1].start < edits[|edits| - 1].end
    ensures var e := edits[|edits| - 1]; EditedAt(edits, source, e.start) == Inserted(edits[..|edits| - 1], e.start) + e.text
  {
    var n := |edits| - 1;
    var e, front := edits[n], edits[..n];
    assert forall i :: 0 <= i < |front| ==> front[i] == edits[i] && front[i].end <= e.start;
    NothingBehind(front, e.start);
    LastUnfolds(edits, e.start);
    assert edits[n].start <= e.start < edits[n].end;
    assert IsReplaced(edits, e.start);
    hide Inserted, Replaced, IsReplaced, Chained;
  }

  lemma LastUnfolds(edits: seq<Edit>, o: nat)
    requires edits != [] && edits[|edits| - 1].start == o < edits[|edits| - 1].end
    ensures Inserted(edits, o) == Inserted(edits[..|edits| - 1], o)
    ensures Replaced(edits, o) == Replaced(edits[..|edits| - 1], o) + edits[|edits| - 1].text
  {
  }

  lemma InsideLast(edits: seq<Edit>, source: Text, o: nat)
    requires edits != [] && Chained(edits, |source|) && edits[|edits| - 1].start < o < edits[|edits| - 1].end
    ensures EditedAt(edits, source, o) == ""
  {
    var front := edits[..|edits| - 1];
    NothingBehind(front, o);
    assert edits[|edits| - 1].start <= o < edits[|edits| - 1].end;
  }

  /** Inside what the last edit replaces, and behind it. */
  lemma {:induction false} ReplacedRest(edits: seq<Edit>, source: Text, o: nat)
    requires edits != [] && Chained(edits, |source|)
    requires edits[|edits| - 1].start < o <= edits[|edits| - 1].end
    ensures Edited(edits, source, o) == source[edits[|edits| - 1].end..]
    decreases |source| - o
  {
    hide EditedAt;
    if o < edits[|edits| - 1].end {
      InsideLast(edits, source, o);
      ReplacedRest(edits, source, o + 1);
    } else {
      RestStays(edits, source, o);
      NothingBehind(edits[..|edits| - 1], o);
    }
  }

  /** Replacing from right to left gives that text. */
  lemma {:induction false} RightToLeftEdits(edits: seq<Edit>, source: Text)
    requires Chained(edits, |source|)
    ensures RightToLeft(edits, source) == Edited(edits, source, 0)
    decreases |edits|
  {
    hide EditedAt, Edited;
    if edits == [] {
      NothingEdited(source, 0);
    } else {
      var e, front := edits[|edits| - 1], edits[..|edits| - 1];
      assert Chained(front, e.start) && Chained(front, |source[..e.start]|);
      RightToLeftEdits(front, source[..e.start]);
      EditedBefore(edits, source, 0);
      assert ApplyOne(source, e) == source[..e.start] + (e.text + source[e.end..]);
      RightToLeftAppends(front, source[..e.start], e.text + source[e.end..]);
    }
  }

  // ----- in whatever order they were pushed -----

  predicate AtLe(a: Placed, b: Placed) {
    a.at <= b.at
  }

  lemma AtIsOrder()
    ensures TotalPreorder(AtLe)
  {
  }

  lemma {:induction false} FilterIsPart<T>(keep: T -> bool, s: seq<T>, x: T)
    ensures multiset(Filter(keep, s))[x] == if keep(x) then multiset(s)[x] else 0
    decreases |s|
  {
    if s != [] {
      FilterIsPart(keep, s[1..], x);
      assert s == [s[0]] + s[1..];
    }
  }

  /** Within any two that are kept, the earlier was pushed earlier. */
  ghost predicate Ascends(keep: Placed -> bool, s: seq<Placed>) {
    forall i, j :: 0 <= i < j < |s| && keep(s[i]) && keep(s[j]) ==> s[i].at < s[j].at
  }

  lemma {:induction false} FilterAscends(keep: Placed -> bool, s: seq<Placed>)
    requires Ascends(keep, s)
    ensures SortedBy(AtLe, Filter(keep, s)) && forall x :: x in Filter(keep, s) ==> x in s && keep(x)
    decreases |s|
  {
    if s != [] {
      assert Ascends(keep, s[1..]);
      FilterAscends(keep, s[1..]);
      forall x | keep(s[0]) && x in Filter(keep, s[1..]) ensures s[0].at <= x.at {
        var i :| 0 <= i < |s[1..]| && s[1..][i] == x;
        assert s[i + 1] == x;
      }
    }
  }

  /** Edits that ordering leaves in the order of pushing are the same ones in the same order. */
  lemma KeptStay(edits: seq<Edit>, keep: Placed -> bool)
    requires Ascends(keep, Ordered(edits))
    ensures Filter(keep, Ordered(edits)) == Filter(keep, Enumerate(edits, 0))
  {
    hide Ordered, Filter;
    var o, e := Ordered(edits), Enumerate(edits, 0);
    OrderedSorts(edits);
    EnumerateAt(edits, 0);
    var f, g := Filter(keep, o), Filter(keep, e);
    forall x ensures multiset(f)[x] == multiset(g)[x] {
      FilterIsPart(keep, o, x);
      FilterIsPart(keep, e, x);
    }
    FilterAscends(keep, o);
    FilterAscends(keep, e);
    KeptApart(edits, keep, f);
    AtIsOrder();
    SortedIsUnique(AtLe, f, g);
  }

  lemma KeptApart(edits: seq<Edit>, keep: Placed -> bool, f: seq<Placed>)
    requires forall x :: x in f ==> x in Ordered(edits)
    ensures TellsApart(AtLe, f)
  {
    hide Ordered;
    OrderedIsPermutation(edits);
    forall x, y | x in f && y in f && AtLe(x, y) && AtLe(y, x) ensures x == y {
      assert x in Ordered(edits) && y in Ordered(edits);
    }
  }

  function Texts(placed: seq<Placed>): Text {
    if placed == [] then "" else placed[0].edit.text + Texts(placed[1..])
  }

  lemma {:induction false} TextsConcat(a: seq<Placed>, b: seq<Placed>)
    ensures Texts(a + b) == Texts(a) + Texts(b)
    decreases |a|
  {
    if a == [] {
      assert a + b == b;
    } else {
      assert (a + b)[1..] == a[1..] + b;
      TextsConcat(a[1..], b);
    }
  }

  function InsertsAt(o: nat): Placed -> bool {
    (x: Placed) => x.edit.start == o == x.edit.end
  }

  function ReplacesAt(o: nat): Placed -> bool {
    (x: Placed) => x.edit.start == o < x.edit.end
  }

  lemma {:induction false} InsertedTexts(placed: seq<Placed>, o: nat)
    ensures Inserted(Edits(placed), o) == Texts(Filter(InsertsAt(o), placed))
    ensures Replaced(Edits(placed), o) == Texts(Filter(ReplacesAt(o), placed))
    decreases |placed|
  {
    if placed != [] {
      hide Inserted, Replaced, Filter, Texts, InsertsAt, ReplacesAt;
      var n := |placed| - 1;
      var front, last := placed[..n], [placed[n]];
      assert placed == front + last && Edits(placed)[..n] == Edits(front);
      InsertedTexts(front, o);
      InsertedNext(placed, o);
      FilterConcat(InsertsAt(o), front, last);
      FilterConcat(ReplacesAt(o), front, last);
      TextsConcat(Filter(InsertsAt(o), front), Filter(InsertsAt(o), last));
      TextsConcat(Filter(ReplacesAt(o), front), Filter(ReplacesAt(o), last));
      OneText(InsertsAt(o), placed[n]);
      OneText(ReplacesAt(o), placed[n]);
    }
  }

  lemma InsertedNext(placed: seq<Placed>, o: nat)
    requires placed != []
    ensures var n := |placed| - 1;
      && Inserted(Edits(placed), o) == Inserted(Edits(placed)[..n], o) + (if InsertsAt(o)(placed[n]) then placed[n].edit.text else "")
      && Replaced(Edits(placed), o) == Replaced(Edits(placed)[..n], o) + (if ReplacesAt(o)(placed[n]) then placed[n].edit.text else "")
  {
  }

  lemma OneText(keep: Placed -> bool, x: Placed)
    ensures Texts(Filter(keep, [x])) == if keep(x) then x.edit.text else ""
  {
    assert [x][1..] == [];
    assert Filter(keep, [x][1..]) == [];
    assert Filter(keep, [x]) == if keep(x) then [x] else [];
    assert Texts([x]) == x.edit.text + Texts([]);
  }

  lemma EditsOfEnumerate(edits: seq<Edit>)
    ensures Edits(Enumerate(edits, 0)) == edits
  {
    EnumerateAt(edits, 0);
  }

  /** At each offset, ordering leaves insertions in the order of pushing, and there is no more than one replacement. */
  lemma OrderIsKeptAt(edits: seq<Edit>, o: nat)
    requires Disjoint(edits)
    ensures Ascends(InsertsAt(o), Ordered(edits)) && Ascends(ReplacesAt(o), Ordered(edits))
  {
    hide Ordered;
    OrderedIsPermutation(edits);
    var s := Ordered(edits);
    forall i, j | 0 <= i < j < |s| && ReplacesAt(o)(s[i]) ensures !ReplacesAt(o)(s[j]) {
      ApartWhenDisjoint(edits, s[i].at, s[j].at);
    }
  }

  lemma SameReplaced(edits: seq<Edit>, o: nat)
    ensures IsReplaced(Edits(Ordered(edits)), o) == IsReplaced(edits, o)
  {
    hide Ordered;
    OrderedIsPermutation(edits);
    var s := Ordered(edits);
    if IsReplaced(edits, o) {
      var k :| 0 <= k < |edits| && edits[k].start <= o < edits[k].end;
      var i := PlaceOf(edits, k);
      assert Edits(s)[i].start <= o < Edits(s)[i].end;
    }
    if IsReplaced(Edits(s), o) {
      var i :| 0 <= i < |s| && Edits(s)[i].start <= o < Edits(s)[i].end;
      assert edits[s[i].at].start <= o < edits[s[i].at].end;
    }
  }

  lemma {:induction false} OrderedEdits(edits: seq<Edit>, source: Text, o: nat)
    requires Disjoint(edits)
    ensures Edited(Edits(Ordered(edits)), source, o) == Edited(edits, source, o)
    decreases |source| + 1 - o
  {
    hide Ordered, Inserted, Replaced, IsReplaced, Filter, Texts;
    if o <= |source| {
      OrderedEdits(edits, source, o + 1);
      OrderIsKeptAt(edits, o);
      KeptStay(edits, InsertsAt(o));
      KeptStay(edits, ReplacesAt(o));
      InsertedTexts(Ordered(edits), o);
      InsertedTexts(Enumerate(edits, 0), o);
      EditsOfEnumerate(edits);
      SameReplaced(edits, o);
    }
  }

  lemma {:induction false} NothingEdited(source: Text, o: nat)
    requires o <= |source|
    ensures Edited([], source, o) == source[o..]
    decreases |source| - o
  {
    if o < |source| {
      NothingEdited(source, o + 1);
      assert source[o..] == [source[o]] + source[o + 1..];
    }
  }

  // ----- the greedy choice -----

  predicate ChoiceLe(a: Edit, b: Edit) {
    a.start < b.start || (a.start == b.start && a.end >= b.end)
  }

  function ByChoice(edits: seq<Edit>): seq<Edit> {
    StableSort(ChoiceLe, edits)
  }

  /**
  What a greedy choice is: pairwise disjoint, nothing invented, and every
  candidate is kept or overlaps a kept one that comes before it, so nothing
  more could be kept.
  */
  ghost predicate IsGreedyChoice(kept: seq<Edit>, candidates: seq<Edit>) {
    && Disjoint(kept)
    && multiset(kept) <= multiset(candidates)
    && forall e :: e in candidates ==> e in kept || exists k :: k in kept && Overlaps(k, e) && ChoiceLe(k, e)
  }

  /** Each edit that overlaps none of those taken before it. */
  function Greedy(sorted: seq<Edit>): seq<Edit> {
    if sorted == [] then [] else
      var kept, edit := Greedy(sorted[..|sorted| - 1]), sorted[|sorted| - 1];
      if IsClear(kept, edit) then kept + [edit] else kept
  }

  predicate IsClear(kept: seq<Edit>, edit: Edit) {
    forall k :: 0 <= k < |kept| ==> !Overlaps(kept[k], edit)
  }

  lemma GreedyNext(sorted: seq<Edit>, edit: Edit)
    ensures Greedy(sorted + [edit]) == if IsClear(Greedy(sorted), edit) then Greedy(sorted) + [edit] else Greedy(sorted)
  {
    assert (sorted + [edit])[..|sorted|] == sorted;
  }

  lemma NothingChosen()
    ensures Greedy([]) == [] && IsGreedyChoice([], [])
  {
  }

  /** The kept edits stay in the order of preference. */
  lemma {:induction false} GreedyIsSorted(sorted: seq<Edit>)
    requires SortedBy(ChoiceLe, sorted)
    ensures SortedBy(ChoiceLe, Greedy(sorted)) && forall e :: e in Greedy(sorted) ==> e in sorted
    decreases |sorted|
  {
    if sorted != [] {
      var rest, edit := sorted[..|sorted| - 1], sorted[|sorted| - 1];
      GreedyIsSorted(rest);
      var kept := Greedy(rest);
      forall i | 0 <= i < |kept| ensures ChoiceLe(kept[i], edit) {
        assert kept[i] in rest;
        var k :| 0 <= k < |rest| && rest[k] == kept[i];
        assert sorted[k] == kept[i];
      }
    }
  }

  /** An edit that overlaps no other and not itself, as an insertion outside all of them, is kept as often as it was pushed. */
  lemma {:induction false} UnopposedStays(sorted: seq<Edit>, e: Edit)
    requires forall k :: 0 <= k < |sorted| ==> !Overlaps(sorted[k], e)
    ensures multiset(Greedy(sorted))[e] == multiset(sorted)[e] && forall x :: x in Greedy(sorted) ==> x in sorted
    decreases |sorted|
  {
    if sorted != [] {
      var rest, edit := sorted[..|sorted| - 1], sorted[|sorted| - 1];
      assert sorted == rest + [edit];
      UnopposedStays(rest, e);
      var kept := Greedy(rest);
      if edit == e {
        forall k | 0 <= k < |kept| ensures !Overlaps(kept[k], e) {
          assert kept[k] in rest;
        }
      }
    }
  }

  lemma GreedyKeeps(kept: seq<Edit>, candidates: seq<Edit>, edit: Edit)
    requires IsGreedyChoice(kept, candidates)
    requires forall k :: 0 <= k < |kept| ==> !Overlaps(kept[k], edit)
    ensures IsGreedyChoice(kept + [edit], candidates + [edit])
  {
    forall e | e in candidates + [edit]
      ensures e in kept + [edit] || exists k :: k in kept + [edit] && Overlaps(k, e) && ChoiceLe(k, e)
    {
      if e != edit && e !in kept {
        var k :| k in kept && Overlaps(k, e) && ChoiceLe(k, e);
        assert k in kept + [edit];
      }
    }
  }

  lemma GreedyDrops(kept: seq<Edit>, sorted: seq<Edit>, i: nat)
    requires i < |sorted| && IsGreedyChoice(kept, sorted[..i])
    requires SortedBy(ChoiceLe, sorted)
    requires exists k :: 0 <= k < |kept| && Overlaps(kept[k], sorted[i])
    ensures IsGreedyChoice(kept, sorted[..i + 1])
  {
    assert sorted[..i + 1] == sorted[..i] + [sorted[i]];
    var k :| 0 <= k < |kept| && Overlaps(kept[k], sorted[i]);
    assert kept[k] in multiset(kept) && kept[k] in multiset(sorted[..i]);
    var at :| 0 <= at < i && sorted[..i][at] == kept[k];
    var le := ChoiceLe;
    assert le(sorted[at], sorted[i]);
  }

  lemma GreedyChoiceOfPermutation(kept: seq<Edit>, sorted: seq<Edit>, candidates: seq<Edit>)
    requires IsGreedyChoice(kept, sorted) && multiset(sorted) == multiset(candidates)
    ensures IsGreedyChoice(kept, candidates)
  {
    forall e | e in candidates ensures e in sorted {
      assert e in multiset(sorted);
    }
  }

  ghost predicate IsNoOp(e: Edit, source: Text) {
    InRange(e, source) && source[e.start..e.end] == e.text
  }

  /** The edits that change something, each once, in order. */
  ghost function Normalized(edits: seq<Edit>, source: Text): (r: seq<Edit>)
    ensures forall e :: e in r <==> e in edits && !IsNoOp(e, source)
    ensures forall i, j :: 0 <= i < j < |r| ==> r[i] != r[j]
  {
    if edits == [] then [] else
      var before := Normalized(edits[..|edits| - 1], source);
      var e := edits[|edits| - 1];
      assert forall x :: x in edits <==> x in edits[..|edits| - 1] || x == e;
      if IsNoOp(e, source) || e in before then before else before + [e]
  }

  lemma {:induction false} NormalizeTwice(edits: seq<Edit>, source: Text)
    ensures Normalized(Normalized(edits, source), source) == Normalized(edits, source)
  {
    NormalizedIsStable(Normalized(edits, source), source);
  }

  lemma {:induction false} NormalizedIsStable(edits: seq<Edit>, source: Text)
    requires forall e :: e in edits ==> !IsNoOp(e, source)
    requires forall i, j :: 0 <= i < j < |edits| ==> edits[i] != edits[j]
    ensures Normalized(edits, source) == edits
  {
    if edits != [] {
      var front, e := edits[..|edits| - 1], edits[|edits| - 1];
      NormalizedIsStable(front, source);
      assert edits == front + [e];
      assert e !in front;
    }
  }

  /** Normalizing never makes a set conflict. */
  lemma NormalizedDisjoint(edits: seq<Edit>, source: Text)
    requires Disjoint(edits)
    ensures Disjoint(Normalized(edits, source))
  {
    if edits != [] {
      var front := edits[..|edits| - 1];
      assert Disjoint(front);
      NormalizedDisjoint(front, source);
      var before, r := Normalized(front, source), Normalized(edits, source);
      if r != before {
        forall i | 0 <= i < |before| ensures !Overlaps(r[i], r[|r| - 1]) {
          assert before[i] in front;
        }
      }
    }
  }

  class EditSet {
    var edits: seq<Edit>

    constructor ()
      ensures edits == []
    {
      edits := [];
    }

    method Push(e: Edit)
      modifies this
      ensures edits == old(edits) + [e]
    {
      edits := edits + [e];
    }

    method Extend(more: seq<Edit>)
      modifies this
      ensures edits == old(edits) + more
    {
      edits := edits + more;
    }

    method Normalize(source: Text)
      modifies this
      ensures edits == Normalized(old(edits), source)
    {
      var kept: seq<Edit> := [];
      var seen: set<Edit> := {};
      for i := 0 to |edits|
        invariant edits == old(edits)
        invariant kept == Normalized(edits[..i], source)
        invariant forall e :: e in seen <==> e in kept
      {
        var e := edits[i];
        assert edits[..i + 1][..i] == edits[..i];
        if !(e.start <= e.end <= |source| && source[e.start..e.end] == e.text) && e !in seen {
          kept := kept + [e];
          seen := seen + {e};
        }
      }
      assert edits[..|edits|] == edits;
      edits := kept;
    }

    /** Earlier starts win, and at one start the longer edit. */
    method RetainNonOverlapping()
      modifies this
      ensures edits == Greedy(ByChoice(old(edits))) && IsGreedyChoice(edits, old(edits))
    {
      ChoiceIsOrder();
      StableSortSorts(ChoiceLe, edits);
      var sorted := ByChoice(edits);
      var kept := ChooseGreedily(sorted);
      GreedyChoiceOfPermutation(kept, sorted, edits);
      edits := kept;
    }

    static method ChooseGreedily(sorted: seq<Edit>) returns (kept: seq<Edit>)
      requires SortedBy(ChoiceLe, sorted)
      ensures kept == Greedy(sorted) && IsGreedyChoice(kept, sorted)
    {
      hide Greedy, IsGreedyChoice, Overlaps, ChoiceLe;
      kept := [];
      NothingChosen();
      for i := 0 to |sorted|
        invariant kept == Greedy(sorted[..i]) && IsGreedyChoice(kept, sorted[..i])
      {
        var edit := sorted[i];
        assert sorted[..i + 1] == sorted[..i] + [edit];
        GreedyNext(sorted[..i], edit);
        var clear := ClearOf(kept, edit);
        if clear {
          GreedyKeeps(kept, sorted[..i], edit);
          kept := kept + [edit];
        } else {
          GreedyDrops(kept, sorted, i);
        }
      }
      assert sorted[..|sorted|] == sorted;
    }

    static method ClearOf(kept: seq<Edit>, edit: Edit) returns (clear: bool)
      ensures clear <==> forall k :: 0 <= k < |kept| ==> !Overlaps(kept[k], edit)
    {
      clear := true;
      for i := 0 to |kept|
        invariant clear <==> forall k :: 0 <= k < i ==> !Overlaps(kept[k], edit)
      {
        clear := clear && !Overlaps(kept[i], edit);
      }
    }

    /** Every edit applied to `source`, or two that claim the same bytes. */
    method Apply(source: Text) returns (r: Applied)
      requires AllInRange(edits, source)
      ensures r.Ok? <==> Disjoint(edits)
      ensures r.Conflict? ==> Overlaps(r.first, r.second) && r.first in edits && r.second in edits
      ensures r.Ok? ==> Chained(Edits(Ordered(edits)), |source|) && r.text == RightToLeft(Edits(Ordered(edits)), source)
      ensures r.Ok? ==> r.text == Edited(edits, source, 0)
    {
      hide Ordered, Chained, RightToLeft, AllInRange, Edited;
      var ordered := Ordered(edits);
      OrderedIsPermutation(edits);
      DisjointOrdered(edits);
      RangesOrdered(edits, source);
      var i := 1;
      while i < |ordered|
        invariant forall k :: 0 < k < i && k < |ordered| ==> !Overlaps(ordered[k - 1].edit, ordered[k].edit)
      {
        if Overlaps(ordered[i - 1].edit, ordered[i].edit) {
          ClashIsReal(ordered, i);
          return Conflict(ordered[i - 1].edit, ordered[i].edit);
        }
        i := i + 1;
      }
      NeighboursSuffice(ordered, source);
      var text := Splice(ordered, source);
      RightToLeftEdits(Edits(ordered), source);
      OrderedEdits(edits, source, 0);
      return Ok(text);
    }

    static method Splice(ordered: seq<Placed>, source: Text) returns (text: Text)
      requires Chained(Edits(ordered), |source|)
      ensures text == RightToLeft(Edits(ordered), source)
    {
      ghost var es := Edits(ordered);
      var out: Text, cursor: nat := "", 0;
      for i := 0 to |ordered|
        invariant cursor <= |source| && (i < |ordered| ==> cursor <= es[i].start)
        invariant Chained(es[..i], cursor) && out == RightToLeft(es[..i], source[..cursor])
      {
        var edit := ordered[i].edit;
        SpliceStep(es, i, cursor, source);
        out := out + source[cursor..edit.start] + edit.text;
        cursor := edit.end;
      }
      assert es[..|ordered|] == es;
      RightToLeftAppends(es, source[..cursor], source[cursor..]);
      assert source[..cursor] + source[cursor..] == source;
      text := out + source[cursor..];
    }
  }
}
