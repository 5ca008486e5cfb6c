/**
The stable sort that the standard libraries of Rust and Go provide, as a
function: a sequence ordered by a total preorder, with equivalent elements left
in their original order.
*/
module Sorting {

  ghost predicate TotalPreorder<T(!new)>(le: (T, T) -> bool) {
    && (forall x, y :: le(x, y) || le(y, x))
    && (forall x, y, z :: le(x, y) && le(y, z) ==> le(x, z))
  }

  ghost predicate SortedBy<T>(le: (T, T) -> bool, s: seq<T>) {
    forall i, j :: 0 <= i < j < |s| ==> le(s[i], s[j])
  }

  /** `x` before the first element it is not above. */
  function Insert<T>(le: (T, T) -> bool, x: T, s: seq<T>): seq<T> {
    if s == [] || le(x, s[0]) then [x] + s else [s[0]] + Insert(le, x, s[1..])
  }

  function StableSort<T>(le: (T, T) -> bool, s: seq<T>): seq<T> {
    if s == [] then [] else Insert(le, s[0], StableSort(le, s[1..]))
  }

  function Filter<T>(keep: T -> bool, s: seq<T>): seq<T> {
    if s == [] then [] else (if keep(s[0]) then [s[0]] else []) + Filter(keep, s[1..])
  }

  lemma {:induction false} FilterConcat<T>(keep: T -> bool, s: seq<T>, t: seq<T>)
    ensures Filter(keep, s + t) == Filter(keep, s) + Filter(keep, t)
    decreases |s|
  {
    if s == [] {
      assert s + t == t;
    } else {
      var head := if keep(s[0]) then [s[0]] else [];
      calc {
        Filter(keep, s + t);
        { assert (s + t)[0] == s[0] && (s + t)[1..] == s[1..] + t; }
        head + Filter(keep, s[1..] + t);
        { FilterConcat(keep, s[1..], t); }
        head + (Filter(keep, s[1..]) + Filter(keep, t));
        head + Filter(keep, s[1..]) + Filter(keep, t);
        Filter(keep, s) + Filter(keep, t);
      }
    }
  }

  lemma InsertKeeps<T>(le: (T, T) -> bool, x: T, s: seq<T>)
    ensures multiset(Insert(le, x, s)) == multiset(s) + multiset{x}
    ensures forall y :: y in Insert(le, x, s) ==> y == x || y in s
  {
    if s != [] && !le(x, s[0]) {
      InsertKeeps(le, x, s[1..]);
      assert s == [s[0]] + s[1..];
    }
  }

  lemma {:induction false} InsertIsSorted<T(!new)>(le: (T, T) -> bool, x: T, s: seq<T>)
    requires TotalPreorder(le) && SortedBy(le, s)
    ensures SortedBy(le, Insert(le, x, s))
  {
    if s != [] && !le(x, s[0]) {
      InsertIsSorted(le, x, s[1..]);
      InsertKeeps(le, x, s[1..]);
      var rest := Insert(le, x, s[1..]);
      forall y | y in rest ensures le(s[0], y) {
        assert y == x || y in s[1..];
      }
    }
  }

  lemma {:induction false} StableSortSorts<T(!new)>(le: (T, T) -> bool, s: seq<T>)
    requires TotalPreorder(le)
    ensures SortedBy(le, StableSort(le, s))
    ensures multiset(StableSort(le, s)) == multiset(s)
    ensures |StableSort(le, s)| == |s|
  {
    if s != [] {
      StableSortSorts(le, s[1..]);
      InsertIsSorted(le, s[0], StableSort(le, s[1..]));
      InsertKeeps(le, s[0], StableSort(le, s[1..]));
      assert s == [s[0]] + s[1..];
      assert |multiset(StableSort(le, s))| == |multiset(s)|;
    }
  }

  /** What makes the sort stable: the elements equivalent to any `x` keep their order. */
  ghost function Class<T>(le: (T, T) -> bool, x: T): T -> bool {
    y => le(x, y) && le(y, x)
  }

  lemma InsertKeepsClasses<T(!new)>(le: (T, T) -> bool, x: T, s: seq<T>, c: T)
    requires TotalPreorder(le)
    ensures Filter(Class(le, c), Insert(le, x, s)) == Filter(Class(le, c), [x] + s)
  {
    if s == [] || le(x, s[0]) {
    } else {
      InsertKeepsClasses(le, x, s[1..], c);
      var cls := Class(le, c);
      assert ([s[0]] + Insert(le, x, s[1..]))[1..] == Insert(le, x, s[1..]);
      assert ([x] + s[1..])[1..] == s[1..];
      assert ([x] + s)[1..] == s;
      assert !(cls(x) && cls(s[0]));
    }
  }

  lemma {:induction false} StableSortIsStable<T(!new)>(le: (T, T) -> bool, s: seq<T>, c: T)
    requires TotalPreorder(le)
    ensures Filter(Class(le, c), StableSort(le, s)) == Filter(Class(le, c), s)
  {
    if s != [] {
      StableSortIsStable(le, s[1..], c);
      InsertKeepsClasses(le, s[0], StableSort(le, s[1..]), c);
      assert ([s[0]] + StableSort(le, s[1..]))[1..] == StableSort(le, s[1..]);
    }
  }

  lemma LeastFirst<T(!new)>(le: (T, T) -> bool, s: seq<T>, x: T)
    requires TotalPreorder(le) && SortedBy(le, s) && x in multiset(s)
    ensures le(s[0], x)
  {
    var i :| 0 <= i < |s| && s[i] == x;
  }

  lemma TailMultiset<T>(s: seq<T>)
    requires s != []
    ensures multiset(s[1..]) == multiset(s) - multiset{s[0]}
  {
    assert s == [s[0]] + s[1..];
  }

  lemma TailIsSorted<T>(le: (T, T) -> bool, s: seq<T>)
    requires s != [] && SortedBy(le, s)
    ensures SortedBy(le, s[1..])
  {
  }

  ghost predicate TellsApart<T(!new)>(le: (T, T) -> bool, s: seq<T>) {
    forall x, y :: x in s && y in s && le(x, y) && le(y, x) ==> x == y
  }

  lemma SameHead<T(!new)>(le: (T, T) -> bool, s: seq<T>, t: seq<T>)
    requires TotalPreorder(le) && TellsApart(le, s) && s != [] && t != []
    requires SortedBy(le, s) && SortedBy(le, t) && multiset(s) == multiset(t)
    ensures s[0] == t[0]
  {
    assert s[0] in multiset(s) && t[0] in multiset(t);
    LeastFirst(le, s, t[0]);
    LeastFirst(le, t, s[0]);
  }

  lemma {:induction false} SortedIsUnique<T(!new)>(le: (T, T) -> bool, s: seq<T>, t: seq<T>)
    requires TotalPreorder(le) && TellsApart(le, s)
    requires SortedBy(le, s) && SortedBy(le, t) && multiset(s) == multiset(t)
    ensures s == t
    decreases |s|
  {
    hide SortedBy, TotalPreorder;
    assert |multiset(s)| == |s| && |multiset(t)| == |t|;
    if s != [] {
      SameHead(le, s, t);
      TailIsSorted(le, s);
      TailIsSorted(le, t);
      TailMultiset(s);
      TailMultiset(t);
      assert TellsApart(le, s[1..]);
      SortedIsUnique(le, s[1..], t[1..]);
      assert s == [s[0]] + s[1..] && t == [t[0]] + t[1..];
    }
  }

  /** Where equivalent elements are equal, the result depends on the elements only. */
  lemma SortOfPermutation<T(!new)>(le: (T, T) -> bool, s: seq<T>, t: seq<T>)
    requires TotalPreorder(le)
    requires forall x, y :: x in s && y in s && le(x, y) && le(y, x) ==> x == y
    requires multiset(s) == multiset(t)
    ensures StableSort(le, s) == StableSort(le, t)
  {
    StableSortSorts(le, s);
    StableSortSorts(le, t);
    forall x | x in StableSort(le, s) ensures x in s {
      assert x in multiset(s);
    }
    SortedIsUnique(le, StableSort(le, s), StableSort(le, t));
  }

  lemma SortOfSorted<T(!new)>(le: (T, T) -> bool, s: seq<T>)
    requires TotalPreorder(le) && SortedBy(le, s)
    ensures StableSort(le, s) == s
  {
    if s != [] {
      SortOfSorted(le, s[1..]);
      assert s == [s[0]] + s[1..];
    }
  }
}
