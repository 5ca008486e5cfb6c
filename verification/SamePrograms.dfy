/**
Equal forms are sameness, item by item; and so equal fingerprints are the same
program with the same comments.
*/
module SamePrograms {
  import opened LogicalOperators
  import opened Options
  import opened Sorting
  import opened Fingerprint
  import opened FreeForms
  import opened Passes
  import opened Sameness
  import opened SameForms

  // ----- heads -----

  /** A kind without what is not compared. */
  function Compared(kind: Kind): Kind {
    match kind
    case Word(_, text) => Word(false, text)
    case Variable(isConst, keyword) => if isConst then Variable(true, 0) else kind
    case SwitchCase(_) => SwitchCase(false)
    case Loop(form, _) => Loop(form, 0)
    case Template(_) => Template(false)
    case JsxContainer(_, _) => JsxContainer(false, false)
    case _ => kind
  }

  lemma ComparedIsSame(a: Kind, b: Kind)
    ensures Compared(a) == Compared(b) <==> SameKind(a, b)
  {
  }

  lemma ComparedHead(kind: Kind)
    ensures Tag(Compared(kind)) == Tag(kind) && Payload(Compared(kind)) == Payload(kind)
  {
  }

  function OperatorOf(byte: nat): Operator {
    if byte == 1 then And else if byte == 2 then Or else Coalesce
  }

  /** The kind that a tag and a payload stand for. */
  function KindOf(tag: nat, payload: nat): Kind {
    if tag == NAME then Word(false, payload) else
    if tag == BLOCK then Block else
    if tag == LOGICAL then Logical(OperatorOf(payload)) else
    if tag == 4 then Program else
    if tag == 5 then FunctionBody else
    if tag == 6 then StaticBlock else
    if tag == 7 then SwitchCase(false) else
    if tag == 8 then ClassBody else
    if tag == 9 then Property(payload) else
    if tag == 10 then (if payload % 2 == 0 then Constructor(payload / 2) else Method(payload / 2)) else
    if tag == 12 then Import else
    if tag == 13 then (if payload == 0 then Variable(true, 0) else Variable(false, payload - 1)) else
    if tag == 14 then If else
    if tag == 15 then Loop(payload, 0) else
    if tag == 16 then Paren else
    if tag == 17 then EmptyStatement else
    if tag == 18 then TypeList(true) else
    if tag == 19 then TypeList(false) else
    if tag == 21 then JsxAttribute else
    if tag == 22 then JsxContainer(false, false) else
    if tag == 23 then Template(false) else
    if tag == 24 then Quasi(payload) else
    if tag >= OTHER_TAG then Other(tag - OTHER_TAG, payload) else Block
  }

  lemma HeadTells(kind: Kind)
    requires !kind.JsxText?
    ensures KindOf(Tag(kind), Payload(kind)) == Compared(kind)
  {
  }

  /** Tag and payload separate two kinds, but for what is not compared. */
  lemma HeadsDecide(a: Kind, b: Kind)
    requires !a.JsxText? && !b.JsxText?
    ensures Tag(a) == Tag(b) && Payload(a) == Payload(b) <==> SameKind(a, b)
  {
    hide Tag, Payload, SameKind, Compared, KindOf;
    HeadTells(a);
    HeadTells(b);
    ComparedHead(a);
    ComparedHead(b);
    ComparedIsSame(a, b);
  }

  lemma WordsApart(kind: Kind)
    ensures Tag(kind) != WORD
  {
  }

  lemma FormHead(hash: Content<nat> -> nat, x: Item)
    ensures x.Text? ==> FormOf(hash, x) == Form(WORD, x.word, [])
    ensures !x.Text? ==> FormOf(hash, x).tag == Tag(HeadOf(x)) && FormOf(hash, x).payload == Payload(HeadOf(x))
  {
    hide Tag, Payload, HeadOf, Arrange, EntriesOf, ModeOfItem;
  }

  /** The same form has the same head. */
  lemma FormsHaveHeads(hash: Content<nat> -> nat, x: Item, y: Item)
    requires GoodItem(x) && GoodItem(y)
    ensures AlikeHeads(x, y) <==> FormOf(hash, x).tag == FormOf(hash, y).tag && FormOf(hash, x).payload == FormOf(hash, y).payload
  {
    FormHead(hash, x);
    FormHead(hash, y);
    hide FormOf, Tag, Payload;
    if !x.Text? {
      WordsApart(HeadOf(x));
    }
    if !y.Text? {
      WordsApart(HeadOf(y));
    }
    if !x.Text? && !y.Text? {
      HeadsDecide(HeadOf(x), HeadOf(y));
    }
  }

  /** A form tells the role of its item. */
  function RoleOfForm(mode: Mode, form: Form): nat {
    if mode == List then (if form.tag == Tag(Import) then IMPORT else if form.tag == Tag(Variable(true, 0)) && form.payload == 0 then CONST else OTHER)
    else if mode == Members then
      (if form.tag == Tag(Property(0)) || form.tag == Tag(StaticBlock) then 1
       else if form.tag == Tag(Method(0)) then (if form.payload % 2 == 0 then 2 else 3) else 0)
    else OTHER
  }

  lemma RoleFromForm(hash: Content<nat> -> nat, mode: Mode, x: Item)
    ensures RoleOfForm(mode, FormOf(hash, x)) == RoleOfItem(mode, x)
  {
    FormHead(hash, x);
    hide FormOf;
  }

  // ----- lists of entries -----

  /** Entries that say their role by their form. */
  ghost predicate Telling(mode: Mode, s: seq<Entry<Form>>) {
    forall i :: 0 <= i < |s| ==> s[i].role == RoleOfForm(mode, s[i].digest)
  }

  lemma {:induction false} EntriesTell(hash: Content<nat> -> nat, xs: seq<Item>, mode: Mode)
    ensures Telling(mode, EntriesOf(hash, xs, mode))
    decreases |xs|
  {
    hide FormOf, RoleOfForm;
    if xs != [] {
      RoleFromForm(hash, mode, xs[0]);
      EntriesTell(hash, xs[1..], mode);
    }
  }

  lemma SameDigests(mode: Mode, s: seq<Entry<Form>>, t: seq<Entry<Form>>)
    requires Telling(mode, s) && Telling(mode, t) && Digests(s) == Digests(t)
    ensures s == t
  {
    assert |s| == |Digests(s)| == |Digests(t)| == |t|;
    forall i | 0 <= i < |s| ensures s[i] == t[i] {
      assert Digests(s)[i] == Digests(t)[i];
    }
  }

  lemma TellingParts(mode: Mode, s: seq<Entry<Form>>, t: seq<Entry<Form>>)
    requires Telling(mode, s) && multiset(s) == multiset(t)
    ensures Telling(mode, t)
  {
    forall i | 0 <= i < |t| ensures t[i].role == RoleOfForm(mode, t[i].digest) {
      assert t[i] in multiset(s);
    }
  }

  lemma {:induction false} SortRunsPermutes(hash: Content<nat> -> nat, s: seq<Entry<Form>>)
    ensures multiset(SortRuns(Free(hash), s)) == multiset(s) && |SortRuns(Free(hash), s)| == |s|
    decreases |s|
  {
    hide RunLength, SortRun;
    if s == [] {
    } else {
      var n := RunLength(s);
      SortRunPermutes(hash, s[..n]);
      SortRunsPermutes(hash, s[n..]);
      assert s == s[..n] + s[n..];
    }
  }

  lemma RankIsOrder(hash: Content<nat> -> nat)
    ensures TotalPreorder(ByRank(Free(hash)))
  {
  }

  lemma SortRunPermutes(hash: Content<nat> -> nat, run: seq<Entry<Form>>)
    ensures multiset(SortRun(Free(hash), run)) == multiset(run) && |SortRun(Free(hash), run)| == |run|
  {
    RankIsOrder(hash);
    StableSortSorts(ByRank(Free(hash)), run);
  }

  ghost predicate OneRole(s: seq<Entry<Form>>, role: nat) {
    forall i :: 0 <= i < |s| ==> s[i].role == role
  }

  lemma OneRolePermuted(s: seq<Entry<Form>>, t: seq<Entry<Form>>, role: nat)
    requires OneRole(s, role) && multiset(s) == multiset(t)
    ensures OneRole(t, role) && |s| == |t|
  {
    assert |multiset(s)| == |multiset(t)|;
    forall i | 0 <= i < |t| ensures t[i].role == role {
      assert t[i] in multiset(s);
    }
  }

  /** Without collisions, two runs of one role are sorted alike exactly when they are permutations. */
  lemma SortedRuns(hash: Content<nat> -> nat, s: seq<Entry<Form>>, t: seq<Entry<Form>>, role: nat)
    requires CollisionFree(hash) && OneRole(s, role) && OneRole(t, role) && role != OTHER
    ensures SortRun(Free(hash), s) == SortRun(Free(hash), t) <==> multiset(s) == multiset(t)
  {
    SortRunPermutes(hash, s);
    SortRunPermutes(hash, t);
    if multiset(s) == multiset(t) {
      OneRolePermuted(s, t, role);
      var le := ByRank(Free(hash));
      RankIsOrder(hash);
      forall x, y | x in s && y in s && le(x, y) && le(y, x) ensures x == y {
        PrintIsInjective(hash, x.digest, y.digest);
      }
      SortOfPermutation(le, s, t);
    }
  }

  /** Sorting runs leaves the first run where it is. */
  lemma RunStaysFirst(hash: Content<nat> -> nat, s: seq<Entry<Form>>)
    requires s != []
    ensures var n, r := RunLength(s), SortRuns(Free(hash), s);
      && |r| == |s| && r != [] && r[0].role == s[0].role && RunLength(r) == n
      && r[..n] == SortRun(Free(hash), s[..n]) && r[n..] == SortRuns(Free(hash), s[n..])
    decreases |s|
  {
    hide SortRuns;
    var n, r := RunLength(s), SortRuns(Free(hash), s);
    var first := SortRun(Free(hash), s[..n]);
    SortRunsIs(Free(hash), s);
    SortRunPermutes(hash, s[..n]);
    SortRunsPermutes(hash, s[n..]);
    assert OneRole(s[..n], s[0].role);
    OneRolePermuted(s[..n], first, s[0].role);
    assert r[..n] == first && r[n..] == SortRuns(Free(hash), s[n..]);
    assert forall i :: 0 <= i < n ==> r[i] == first[i];
    if n < |s| {
      RunStaysFirst(hash, s[n..]);
      assert r[n] == r[n..][0];
    }
    RunIs(r, n);
  }

  lemma SplitAt<T>(q: seq<T>, r: seq<T>, n: nat)
    requires n <= |q| && n <= |r|
    ensures q == r <==> q[..n] == r[..n] && q[n..] == r[n..]
  {
    assert q == q[..n] + q[n..] && r == r[..n] + r[n..];
  }

  /** Two lists of statements are arranged alike exactly when their first runs are, and the rest is. */
  lemma RunsDecide(hash: Content<nat> -> nat, s: seq<Entry<Form>>, t: seq<Entry<Form>>)
    requires s != [] && t != []
    ensures var n := RunLength(s);
      SortRuns(Free(hash), s) == SortRuns(Free(hash), t) <==>
        && n == RunLength(t) && SortRun(Free(hash), s[..n]) == SortRun(Free(hash), t[..n])
        && SortRuns(Free(hash), s[n..]) == SortRuns(Free(hash), t[n..])
  {
    RunStaysFirst(hash, s);
    RunStaysFirst(hash, t);
    var n, q, r := RunLength(s), SortRuns(Free(hash), s), SortRuns(Free(hash), t);
    hide *;
    if n == RunLength(t) {
      SplitAt(q, r, n);
    }
  }

  // ----- lists of items -----

  /** For these items, equal forms are sameness. */
  ghost predicate Faithful(hash: Content<nat> -> nat, xs: seq<Item>, ys: seq<Item>) {
    forall i, k :: 0 <= i < |xs| && 0 <= k < |ys| ==> (FormOf(hash, xs[i]) == FormOf(hash, ys[k]) <==> Alike(xs[i], ys[k]))
  }

  lemma FaithfulParts(hash: Content<nat> -> nat, xs: seq<Item>, ys: seq<Item>, a: nat, b: nat, c: nat, d: nat)
    requires Faithful(hash, xs, ys) && a <= b <= |xs| && c <= d <= |ys|
    ensures Faithful(hash, xs[a..b], ys[c..d]) && Faithful(hash, xs[a..], ys[c..])
  {
    hide FormOf, Alike;
  }

  lemma EntriesHead(hash: Content<nat> -> nat, xs: seq<Item>, mode: Mode)
    requires xs != []
    ensures EntriesOf(hash, xs, mode)[0] == Entry(RoleOfItem(mode, xs[0]), FormOf(hash, xs[0]))
    ensures EntriesOf(hash, xs, mode)[1..] == EntriesOf(hash, xs[1..], mode)
  {
    hide FormOf;
  }

  /** The same form, the same entry. */
  lemma EntryByForm(hash: Content<nat> -> nat, mode: Mode, x: Item, y: Item)
    requires FormOf(hash, x) == FormOf(hash, y)
    ensures RoleOfItem(mode, x) == RoleOfItem(mode, y)
  {
    hide FormOf, RoleOfItem, RoleOfForm;
    RoleFromForm(hash, mode, x);
    RoleFromForm(hash, mode, y);
  }

  lemma {:induction false} InOrderDecides(hash: Content<nat> -> nat, xs: seq<Item>, ys: seq<Item>, mode: Mode)
    requires Faithful(hash, xs, ys)
    ensures EntriesOf(hash, xs, mode) == EntriesOf(hash, ys, mode) <==> AlikeInOrder(xs, ys)
    decreases |xs|
  {
    hide FormOf, Alike, EntriesOf;
    if |xs| == |ys| && xs != [] {
      FaithfulParts(hash, xs, ys, 1, |xs|, 1, |ys|);
      InOrderDecides(hash, xs[1..], ys[1..], mode);
      EntriesHead(hash, xs, mode);
      EntriesHead(hash, ys, mode);
      SplitAt(EntriesOf(hash, xs, mode), EntriesOf(hash, ys, mode), 1);
      if FormOf(hash, xs[0]) == FormOf(hash, ys[0]) {
        EntryByForm(hash, mode, xs[0], ys[0]);
      }
    } else if xs == [] && ys == [] {
      assert EntriesOf(hash, xs, mode) == [] == EntriesOf(hash, ys, mode);
    }
  }

  // ----- any order -----

  lemma EntriesWithout(hash: Content<nat> -> nat, ys: seq<Item>, k: nat, mode: Mode)
    requires k < |ys|
    ensures multiset(EntriesOf(hash, ys, mode)) == multiset(EntriesOf(hash, ys[..k] + ys[k + 1..], mode)) + multiset{Entry(RoleOfItem(mode, ys[k]), FormOf(hash, ys[k]))}
  {
    hide FormOf, EntriesOf;
    assert ys == ys[..k] + ([ys[k]] + ys[k + 1..]);
    EntriesOfConcat(hash, ys[..k], [ys[k]] + ys[k + 1..], mode);
    EntriesOfConcat(hash, [ys[k]], ys[k + 1..], mode);
    EntriesOfConcat(hash, ys[..k], ys[k + 1..], mode);
    EntriesOfOne(hash, ys[k], mode);
  }

  lemma EntriesBag(hash: Content<nat> -> nat, xs: seq<Item>, mode: Mode)
    requires xs != []
    ensures multiset(EntriesOf(hash, xs, mode)) == multiset(EntriesOf(hash, xs[1..], mode)) + multiset{Entry(RoleOfItem(mode, xs[0]), FormOf(hash, xs[0]))}
  {
    hide FormOf, EntriesOf;
    EntriesWithout(hash, xs, 0, mode);
    assert xs[..0] + xs[0 + 1..] == xs[1..];
  }

  lemma FaithfulWithout(hash: Content<nat> -> nat, xs: seq<Item>, ys: seq<Item>, k: nat)
    requires Faithful(hash, xs, ys) && xs != [] && k < |ys|
    ensures Faithful(hash, xs[1..], ys[..k] + ys[k + 1..])
  {
    hide FormOf, Alike;
    var rest := ys[..k] + ys[k + 1..];
    forall i, m | 0 <= i < |xs[1..]| && 0 <= m < |rest| ensures FormOf(hash, xs[1..][i]) == FormOf(hash, rest[m]) <==> Alike(xs[1..][i], rest[m]) {
      assert xs[1..][i] == xs[i + 1] && rest[m] == ys[if m < k then m else m + 1];
    }
  }

  lemma {:induction false} AnyOrderIsBag(hash: Content<nat> -> nat, xs: seq<Item>, ys: seq<Item>, mode: Mode)
    requires Faithful(hash, xs, ys) && AlikeInAnyOrder(xs, ys)
    ensures multiset(EntriesOf(hash, xs, mode)) == multiset(EntriesOf(hash, ys, mode))
    decreases |xs|
  {
    hide FormOf, Alike, EntriesOf;
    if xs == [] {
      assert EntriesOf(hash, xs, mode) == [] && EntriesOf(hash, ys, mode) == [];
    } else {
      var k :| 0 <= k < |ys| && Alike(xs[0], ys[k]) && AlikeInAnyOrder(xs[1..], ys[..k] + ys[k + 1..]);
      FaithfulWithout(hash, xs, ys, k);
      AnyOrderIsBag(hash, xs[1..], ys[..k] + ys[k + 1..], mode);
      EntriesBag(hash, xs, mode);
      EntriesWithout(hash, ys, k, mode);
      EntryByForm(hash, mode, xs[0], ys[k]);
    }
  }

  lemma Cancel<T>(a: multiset<T>, b: multiset<T>, x: T)
    requires a + multiset{x} == b + multiset{x}
    ensures a == b
  {
    assert a == (a + multiset{x}) - multiset{x} && b == (b + multiset{x}) - multiset{x};
  }

  lemma {:induction false} BagIsAnyOrder(hash: Content<nat> -> nat, xs: seq<Item>, ys: seq<Item>, mode: Mode)
    requires Faithful(hash, xs, ys) && multiset(EntriesOf(hash, xs, mode)) == multiset(EntriesOf(hash, ys, mode))
    ensures AlikeInAnyOrder(xs, ys)
    decreases |xs|
  {
    hide FormOf, Alike, EntriesOf;
    var s, t := EntriesOf(hash, xs, mode), EntriesOf(hash, ys, mode);
    assert |multiset(s)| == |multiset(t)|;
    if xs != [] {
      EntriesHead(hash, xs, mode);
      assert s[0] in multiset(t);
      var k :| 0 <= k < |t| && t[k] == s[0];
      EntriesOfAt(hash, ys, mode, k);
      FaithfulWithout(hash, xs, ys, k);
      EntriesBag(hash, xs, mode);
      EntriesWithout(hash, ys, k, mode);
      Cancel(multiset(EntriesOf(hash, xs[1..], mode)), multiset(EntriesOf(hash, ys[..k] + ys[k + 1..], mode)), s[0]);
      BagIsAnyOrder(hash, xs[1..], ys[..k] + ys[k + 1..], mode);
      assert Alike(xs[0], ys[k]);
    }
  }

  // ----- statements -----

  lemma EntriesCut(hash: Content<nat> -> nat, xs: seq<Item>, mode: Mode, n: nat)
    requires n <= |xs|
    ensures EntriesOf(hash, xs, mode)[..n] == EntriesOf(hash, xs[..n], mode) && EntriesOf(hash, xs, mode)[n..] == EntriesOf(hash, xs[n..], mode)
  {
    hide FormOf, EntriesOf;
    assert xs == xs[..n] + xs[n..];
    EntriesOfConcat(hash, xs[..n], xs[n..], mode);
  }

  /** The first run of the items is that of their entries, if it is one of imports or consts. */
  lemma FirstRunIs(hash: Content<nat> -> nat, xs: seq<Item>)
    requires xs != [] && RoleOfItem(List, xs[0]) != OTHER
    ensures var n, s := FirstRun(xs), EntriesOf(hash, xs, List);
      RunLength(s) == n && OneRole(s[..n], RoleOfItem(List, xs[0]))
  {
    hide FormOf, EntriesOf, RunLength;
    var n, s := FirstRun(xs), EntriesOf(hash, xs, List);
    forall i | 0 <= i < |xs| ensures s[i].role == RoleOfItem(List, xs[i]) {
      EntriesOfAt(hash, xs, List, i);
    }
    RunIs(s, n);
  }

  lemma {:induction false} StatementsDecide(hash: Content<nat> -> nat, xs: seq<Item>, ys: seq<Item>)
    requires CollisionFree(hash) && Faithful(hash, xs, ys)
    ensures SortRuns(Free(hash), EntriesOf(hash, xs, List)) == SortRuns(Free(hash), EntriesOf(hash, ys, List)) <==> AlikeStatements(xs, ys)
    decreases |xs|
  {
    hide FormOf, Alike, EntriesOf, SortRuns, AlikeInAnyOrder, Faithful, CollisionFree, RoleOfItem, FirstRun, RunLength, SortRun;
    var s, t := EntriesOf(hash, xs, List), EntriesOf(hash, ys, List);
    SortRunsPermutes(hash, s);
    SortRunsPermutes(hash, t);
    if xs == [] || ys == [] {
      OneIsEmpty(hash, xs, ys);
    } else {
      var n := FirstRun(xs);
      if n <= |ys| {
        FaithfulParts(hash, xs, ys, 0, n, 0, n);
        FaithfulParts(hash, xs, ys, n, |xs|, n, |ys|);
        StatementsDecide(hash, xs[n..], ys[n..]);
        EntriesCut(hash, xs, List, n);
        EntriesCut(hash, ys, List, n);
      }
      if RoleOfItem(List, xs[0]) == OTHER {
        OtherDecides(hash, xs, ys);
      } else {
        RunDecides(hash, xs, ys);
      }
    }
  }

  lemma OneIsEmpty(hash: Content<nat> -> nat, xs: seq<Item>, ys: seq<Item>)
    requires xs == [] || ys == []
    ensures SortRuns(Free(hash), EntriesOf(hash, xs, List)) == SortRuns(Free(hash), EntriesOf(hash, ys, List)) <==> AlikeStatements(xs, ys)
  {
    hide FormOf, Alike, EntriesOf, SortRuns, AlikeInAnyOrder;
    SortRunsPermutes(hash, EntriesOf(hash, xs, List));
    SortRunsPermutes(hash, EntriesOf(hash, ys, List));
    if xs == [] && ys == [] {
      assert EntriesOf(hash, xs, List) == [] == EntriesOf(hash, ys, List);
    }
  }

  /** What the first run and the rest say of two lists of statements. */
  ghost predicate StepDecides(hash: Content<nat> -> nat, xs: seq<Item>, ys: seq<Item>)
    requires xs != []
  {
    var n := FirstRun(xs);
    SortRuns(Free(hash), EntriesOf(hash, xs, List)) == SortRuns(Free(hash), EntriesOf(hash, ys, List)) <==>
      n <= |ys| && AlikeInAnyOrder(xs[..n], ys[..n])
      && SortRuns(Free(hash), EntriesOf(hash, xs, List)[n..]) == SortRuns(Free(hash), EntriesOf(hash, ys, List)[n..])
  }

  /** A statement that is neither import nor const stands for itself. */
  lemma OtherDecides(hash: Content<nat> -> nat, xs: seq<Item>, ys: seq<Item>)
    requires Faithful(hash, xs, ys) && xs != [] && ys != [] && RoleOfItem(List, xs[0]) == OTHER
    ensures FirstRun(xs) == 1 && StepDecides(hash, xs, ys)
  {
    hide FormOf, EntriesOf, SortRuns, RunLength, SortRun, Alike;
    var s, t := EntriesOf(hash, xs, List), EntriesOf(hash, ys, List);
    EntriesHead(hash, xs, List);
    EntriesHead(hash, ys, List);
    assert s == [s[0]] + s[1..] && t == [t[0]] + t[1..];
    OtherFirst(Free(hash), s[0], s[1..]);
    if t[0].role == OTHER {
      OtherFirst(Free(hash), t[0], t[1..]);
      SplitAt(SortRuns(Free(hash), s), SortRuns(Free(hash), t), 1);
    } else {
      RunStaysFirst(hash, t);
    }
    OneAlike(xs[0], ys[0]);
    assert xs[..1] == [xs[0]] && ys[..1] == [ys[0]];
    if FormOf(hash, xs[0]) == FormOf(hash, ys[0]) {
      EntryByForm(hash, List, xs[0], ys[0]);
    }
  }

  lemma OneAlike(x: Item, y: Item)
    ensures AlikeInAnyOrder([x], [y]) <==> Alike(x, y)
  {
    hide Alike;
    var xs, ys := [x], [y];
    assert xs[1..] == [] && ys[..0] + ys[0 + 1..] == [];
    assert AlikeInAnyOrder(xs[1..], ys[..0] + ys[0 + 1..]);
  }

  /** A run of imports or consts is permuted. */
  lemma RunDecides(hash: Content<nat> -> nat, xs: seq<Item>, ys: seq<Item>)
    requires CollisionFree(hash) && Faithful(hash, xs, ys) && xs != [] && ys != [] && RoleOfItem(List, xs[0]) != OTHER
    ensures StepDecides(hash, xs, ys)
  {
    hide FormOf, EntriesOf, SortRuns, RunLength, SortRun, Alike, AlikeInAnyOrder, Faithful, CollisionFree, RoleOfItem, FirstRun;
    var n, role, s, t := FirstRun(xs), RoleOfItem(List, xs[0]), EntriesOf(hash, xs, List), EntriesOf(hash, ys, List);
    FirstRunIs(hash, xs);
    RunsDecide(hash, s, t);
    if n <= |ys| {
      EntriesCut(hash, xs, List, n);
      EntriesCut(hash, ys, List, n);
      FaithfulParts(hash, xs, ys, 0, n, 0, n);
      if SortRuns(Free(hash), s) == SortRuns(Free(hash), t) {
        RunRole(hash, t, n, s, role);
        SortedRuns(hash, s[..n], t[..n], role);
        BagIsAnyOrder(hash, xs[..n], ys[..n], List);
      }
      if AlikeInAnyOrder(xs[..n], ys[..n]) && SortRuns(Free(hash), s[n..]) == SortRuns(Free(hash), t[n..]) {
        AnyOrderIsBag(hash, xs[..n], ys[..n], List);
        OneRolePermuted(s[..n], t[..n], role);
        SortedRuns(hash, s[..n], t[..n], role);
        SameRest(hash, s, t, n, role);
      }
    }
  }

  /** Sorted alike, two lists begin with runs of one role. */
  lemma RunRole(hash: Content<nat> -> nat, t: seq<Entry<Form>>, n: nat, s: seq<Entry<Form>>, role: nat)
    requires s != [] && t != [] && n == RunLength(s) && n == RunLength(t) && OneRole(s[..n], role)
    requires SortRuns(Free(hash), s) == SortRuns(Free(hash), t)
    ensures n <= |t| && OneRole(t[..n], role)
  {
    hide SortRuns;
    RunStaysFirst(hash, s);
    RunStaysFirst(hash, t);
    assert s[0].role == role;
  }

  /** With runs of one role before them, rests that are sorted alike begin alike. */
  lemma SameRest(hash: Content<nat> -> nat, s: seq<Entry<Form>>, t: seq<Entry<Form>>, n: nat, role: nat)
    requires s != [] && n == RunLength(s) && n <= |t| && OneRole(s[..n], role) && OneRole(t[..n], role)
    requires SortRuns(Free(hash), s[n..]) == SortRuns(Free(hash), t[n..])
    ensures RunLength(t) == n
  {
    RestHead(hash, s[n..], t[n..]);
    hide SortRuns, OneRole;
    assert forall i :: 0 <= i < n ==> s[..n][i] == s[i] && t[..n][i] == t[i];
    OneRoleAt(s[..n], role);
    OneRoleAt(t[..n], role);
    if n < |t| {
      assert t[n] == t[n..][0] && s[n] == s[n..][0];
    }
    hide RunLength;
    RunIs(t, n);
  }

  lemma OneRoleAt(s: seq<Entry<Form>>, role: nat)
    requires OneRole(s, role)
    ensures forall i :: 0 <= i < |s| ==> s[i].role == role
  {
  }

  lemma RestHead(hash: Content<nat> -> nat, s: seq<Entry<Form>>, t: seq<Entry<Form>>)
    requires SortRuns(Free(hash), s) == SortRuns(Free(hash), t)
    ensures |s| == |t| && (s != [] ==> s[0].role == t[0].role)
  {
    hide SortRuns;
    SortRunsPermutes(hash, s);
    SortRunsPermutes(hash, t);
    if s != [] {
      RunStaysFirst(hash, s);
      RunStaysFirst(hash, t);
    }
  }

  // ----- class members -----

  ghost predicate AllMembers(xs: seq<Item>) {
    forall i :: 0 <= i < |xs| ==> IsProperty(xs[i]) || IsConstructor(xs[i]) || IsMethod(xs[i])
  }

  function OfRole(role: nat): Entry<Form> -> bool {
    (e: Entry<Form>) => e.role == role
  }

  function OfMember(role: nat): Item -> bool {
    (x: Item) => RoleOfItem(Members, x) == role
  }

  lemma {:induction false} FilterEntries(hash: Content<nat> -> nat, xs: seq<Item>, role: nat)
    ensures Filter(OfRole(role), EntriesOf(hash, xs, Members)) == EntriesOf(hash, Filter(OfMember(role), xs), Members)
    decreases |xs|
  {
    hide FormOf, RoleOfItem;
    if xs != [] {
      FilterEntries(hash, xs[1..], role);
      EntriesHead(hash, xs, Members);
      EntriesOfOne(hash, xs[0], Members);
      EntriesOfConcat(hash, if OfMember(role)(xs[0]) then [xs[0]] else [], Filter(OfMember(role), xs[1..]), Members);
    }
  }

  lemma {:induction false} FilterAlike<T>(p: T -> bool, q: T -> bool, xs: seq<T>)
    requires forall i :: 0 <= i < |xs| ==> p(xs[i]) == q(xs[i])
    ensures Filter(p, xs) == Filter(q, xs)
    decreases |xs|
  {
    if xs != [] {
      FilterAlike(p, q, xs[1..]);
    }
  }

  lemma MemberFilters(xs: seq<Item>)
    ensures Filter(OfMember(1), xs) == Filter(IsProperty, xs)
    ensures Filter(OfMember(2), xs) == Filter(IsConstructor, xs)
    ensures Filter(OfMember(3), xs) == Filter(IsMethod, xs)
  {
    FilterAlike(OfMember(1), IsProperty, xs);
    FilterAlike(OfMember(2), IsConstructor, xs);
    FilterAlike(OfMember(3), IsMethod, xs);
  }

  lemma RoleOrder()
    ensures TotalPreorder(RoleLe<Form>)
  {
  }

  /** Sorting by role keeps the entries of each role, in order. */
  lemma SortedOfRole(s: seq<Entry<Form>>, role: nat)
    ensures Filter(OfRole(role), StableSort(RoleLe<Form>, s)) == Filter(OfRole(role), s)
  {
    RoleOrder();
    var e := Entry(role, Form(0, 0, []));
    StableSortIsStable(RoleLe<Form>, s, e);
    SameFilter(s, role, e);
    SameFilter(StableSort(RoleLe<Form>, s), role, e);
  }

  lemma SameFilter(s: seq<Entry<Form>>, role: nat, e: Entry<Form>)
    requires e.role == role
    ensures Filter(Class(RoleLe<Form>, e), s) == Filter(OfRole(role), s)
  {
    var le := RoleLe<Form>;
    forall i | 0 <= i < |s| ensures Class(le, e)(s[i]) == OfRole(role)(s[i]) {
      assert le(e, s[i]) && le(s[i], e) <==> s[i].role == role;
    }
    FilterAlike(Class(le, e), OfRole(role), s);
  }

  ghost predicate OfThree(s: seq<Entry<Form>>) {
    forall i :: 0 <= i < |s| ==> 1 <= s[i].role <= 3
  }

  /** Sorted, entries of three roles are those of the first, of the second and of the third. */
  lemma {:induction false} SortedByThree(s: seq<Entry<Form>>)
    requires OfThree(s) && SortedBy(RoleLe<Form>, s)
    ensures s == Filter(OfRole(1), s) + Filter(OfRole(2), s) + Filter(OfRole(3), s)
    decreases |s|
  {
    hide Filter, OfRole;
    if s == [] {
      NoneOfRole(s, 4);
    } else {
      var rest := s[1..];
      SortedByThree(rest);
      assert s == [s[0]] + rest;
      forall i | 0 <= i < |rest| ensures rest[i].role >= s[0].role {
        assert RoleLe(s[0], s[i + 1]);
      }
      NoneOfRole(rest, s[0].role);
      FirstOfRole(s, 1);
      FirstOfRole(s, 2);
      FirstOfRole(s, 3);
      Assembled(s[0], rest, Filter(OfRole(1), rest), Filter(OfRole(2), rest), Filter(OfRole(3), rest));
    }
  }

  lemma Assembled<T>(x: T, rest: seq<T>, a: seq<T>, b: seq<T>, c: seq<T>)
    requires rest == a + b + c
    ensures [x] + rest == [x] + a + b + c
    ensures a == [] ==> [x] + rest == a + ([x] + b) + c
    ensures a == b == [] ==> [x] + rest == a + b + ([x] + c)
  {
  }

  lemma FirstOfRole(s: seq<Entry<Form>>, role: nat)
    requires s != []
    ensures Filter(OfRole(role), s) == (if s[0].role == role then [s[0]] else []) + Filter(OfRole(role), s[1..])
  {
  }

  lemma {:induction false} NoneOfRole(s: seq<Entry<Form>>, least: nat)
    requires forall i :: 0 <= i < |s| ==> s[i].role >= least
    ensures forall role :: 0 <= role < least ==> Filter(OfRole(role), s) == []
    decreases |s|
  {
    if s != [] {
      NoneOfRole(s[1..], least);
    }
  }

  lemma SortedThree(s: seq<Entry<Form>>)
    requires OfThree(s)
    ensures StableSort(RoleLe<Form>, s) == Filter(OfRole(1), s) + Filter(OfRole(2), s) + Filter(OfRole(3), s)
  {
    var sorted := StableSort(RoleLe<Form>, s);
    RoleOrder();
    StableSortSorts(RoleLe<Form>, s);
    forall i | 0 <= i < |sorted| ensures 1 <= sorted[i].role <= 3 {
      assert sorted[i] in multiset(s);
    }
    SortedByThree(sorted);
    SortedOfRole(s, 1);
    SortedOfRole(s, 2);
    SortedOfRole(s, 3);
  }

  lemma MembersAreThree(hash: Content<nat> -> nat, xs: seq<Item>)
    requires AllMembers(xs)
    ensures OfThree(EntriesOf(hash, xs, Members))
  {
    hide FormOf, EntriesOf;
    forall i | 0 <= i < |xs| ensures 1 <= EntriesOf(hash, xs, Members)[i].role <= 3 {
      EntriesOfAt(hash, xs, Members, i);
    }
  }

  lemma {:induction false} FilterInside(keep: Item -> bool, xs: seq<Item>)
    ensures forall i :: 0 <= i < |Filter(keep, xs)| ==> Filter(keep, xs)[i] in xs
    decreases |xs|
  {
    if xs != [] {
      FilterInside(keep, xs[1..]);
    }
  }

  lemma FaithfulFiltered(hash: Content<nat> -> nat, xs: seq<Item>, ys: seq<Item>, keep: Item -> bool)
    requires Faithful(hash, xs, ys)
    ensures Faithful(hash, Filter(keep, xs), Filter(keep, ys))
  {
    hide FormOf, Alike;
    FilterInside(keep, xs);
    FilterInside(keep, ys);
    var p, q := Filter(keep, xs), Filter(keep, ys);
    forall i, k | 0 <= i < |p| && 0 <= k < |q| ensures FormOf(hash, p[i]) == FormOf(hash, q[k]) <==> Alike(p[i], q[k]) {
      var a :| 0 <= a < |xs| && xs[a] == p[i];
      var b :| 0 <= b < |ys| && ys[b] == q[k];
    }
  }

  lemma OneRoleDecides(hash: Content<nat> -> nat, xs: seq<Item>, ys: seq<Item>, role: nat)
    requires Faithful(hash, xs, ys)
    ensures Filter(OfRole(role), EntriesOf(hash, xs, Members)) == Filter(OfRole(role), EntriesOf(hash, ys, Members))
       <==> AlikeInOrder(Filter(OfMember(role), xs), Filter(OfMember(role), ys))
  {
    hide FormOf, EntriesOf, Alike, AlikeInOrder, Faithful, Filter;
    FilterEntries(hash, xs, role);
    FilterEntries(hash, ys, role);
    FaithfulFiltered(hash, xs, ys, OfMember(role));
    InOrderDecides(hash, Filter(OfMember(role), xs), Filter(OfMember(role), ys), Members);
  }

  lemma MembersDecide(hash: Content<nat> -> nat, xs: seq<Item>, ys: seq<Item>)
    requires Faithful(hash, xs, ys) && AllMembers(xs) && AllMembers(ys)
    ensures StableSort(RoleLe<Form>, EntriesOf(hash, xs, Members)) == StableSort(RoleLe<Form>, EntriesOf(hash, ys, Members)) <==> AlikeMembers(xs, ys)
  {
    hide FormOf, EntriesOf, Alike, AlikeInOrder, Faithful, Filter, StableSort, AllMembers, OfThree;
    var s, t := EntriesOf(hash, xs, Members), EntriesOf(hash, ys, Members);
    MembersAreThree(hash, xs);
    MembersAreThree(hash, ys);
    SortedThree(s);
    SortedThree(t);
    SortedOfRole(s, 1);
    SortedOfRole(s, 2);
    SortedOfRole(s, 3);
    SortedOfRole(t, 1);
    SortedOfRole(t, 2);
    SortedOfRole(t, 3);
    OneRoleDecides(hash, xs, ys, 1);
    OneRoleDecides(hash, xs, ys, 2);
    OneRoleDecides(hash, xs, ys, 3);
    MemberFilters(xs);
    MemberFilters(ys);
  }

  // ----- items -----

  /** The arrangement of a list of entries, telling which one it was. */
  lemma ArrangeTells(hash: Content<nat> -> nat, mode: Mode, s: seq<Entry<Form>>)
    requires Telling(mode, s)
    ensures Telling(mode, Arrange(Free(hash), mode, 0, s))
  {
    match mode
    case List =>
      SortRunsPermutes(hash, s);
      assert s[0..] == s && [] + SortRuns(Free(hash), s) == SortRuns(Free(hash), s);
      TellingParts(mode, s, SortRuns(Free(hash), s));
    case Members =>
      RoleOrder();
      StableSortSorts(RoleLe<Form>, s);
      TellingParts(mode, s, StableSort(RoleLe<Form>, s));
    case _ =>
  }

  lemma ArrangeIs(hash: Content<nat> -> nat, s: seq<Entry<Form>>)
    ensures Arrange(Free(hash), List, 0, s) == SortRuns(Free(hash), s)
    ensures Arrange(Free(hash), Members, 0, s) == StableSort(RoleLe<Form>, s)
    ensures Arrange(Free(hash), Ordered, 0, s) == s
  {
    hide SortRuns;
    assert s[0..] == s && [] + SortRuns(Free(hash), s) == SortRuns(Free(hash), s);
  }

  /** Class bodies hold members only. */
  lemma {:induction false} ClassItems(node: Node, from: nat)
    requires Grammatical(node) && node.kind.ClassBody? && from <= |node.children|
    ensures AllMembers(ItemsFrom(node, None, from))
    decreases |node.children| - from
  {
    if from < |node.children| {
      ClassItems(node, from + 1);
      assert IsMember(node.children[from].kind);
    }
  }

  /** Equal children, by how their parent arranges them. */
  lemma InnerDecides(hash: Content<nat> -> nat, x: Item, y: Item)
    requires CollisionFree(hash) && GoodItem(x) && GoodItem(y) && !x.Text? && !y.Text? && AlikeHeads(x, y)
    requires Faithful(hash, Inner(x), Inner(y))
    ensures FormOf(hash, x) == FormOf(hash, y) <==> Alike(x, y)
  {
    hide FormOf, EntriesOf, SortRuns, StableSort, AlikeStatements, AlikeMembers, AlikeInOrder, Faithful, CollisionFree, Inner, Arrange, Telling, Tag, Payload;
    var mode, xs, ys := ModeOfItem(x), Inner(x), Inner(y);
    var s, t := EntriesOf(hash, xs, mode), EntriesOf(hash, ys, mode);
    assert ModeOfItem(y) == mode;
    FormIs(hash, x);
    FormIs(hash, y);
    FormsHaveHeads(hash, x, y);
    EntriesTell(hash, xs, mode);
    EntriesTell(hash, ys, mode);
    ArrangeTells(hash, mode, s);
    ArrangeTells(hash, mode, t);
    ArrangeIs(hash, s);
    ArrangeIs(hash, t);
    if Digests(Arrange(Free(hash), mode, 0, s)) == Digests(Arrange(Free(hash), mode, 0, t)) {
      SameDigests(mode, Arrange(Free(hash), mode, 0, s), Arrange(Free(hash), mode, 0, t));
    }
    match mode
    case List => StatementsDecide(hash, xs, ys);
    case Members =>
      MembersOf(x);
      MembersOf(y);
      MembersDecide(hash, xs, ys);
    case _ => InOrderDecides(hash, xs, ys, mode);
  }

  lemma MembersOf(x: Item)
    requires GoodItem(x) && !x.Text? && HeadOf(x).ClassBody?
    ensures AllMembers(Inner(x))
  {
    ClassItems(x.node, 0);
  }

  /** Two items have one form exactly when they are the same. */
  lemma {:induction false} FormsDecide(hash: Content<nat> -> nat, x: Item, y: Item)
    requires CollisionFree(hash) && GoodItem(x) && GoodItem(y)
    ensures FormOf(hash, x) == FormOf(hash, y) <==> Alike(x, y)
    decreases Size(x)
  {
    hide FormOf, CollisionFree, Inner, AlikeStatements, AlikeMembers, AlikeInOrder, AlikeHeads;
    FormsHaveHeads(hash, x, y);
    if AlikeHeads(x, y) && !x.Text? && !y.Text? {
      var xs, ys := Inner(x), Inner(y);
      InnerIsGood(x);
      InnerIsGood(y);
      forall i, k | 0 <= i < |xs| && 0 <= k < |ys| ensures FormOf(hash, xs[i]) == FormOf(hash, ys[k]) <==> Alike(xs[i], ys[k]) {
        InnerIsSmaller(x);
        CostAt(xs, i);
        FormsDecide(hash, xs[i], ys[k]);
      }
      InnerDecides(hash, x, y);
    } else {
      TextsDecide(hash, x, y);
    }
  }

  lemma {:induction false} CostAt(xs: seq<Item>, i: nat)
    requires i < |xs|
    ensures Size(xs[i]) < Cost(xs)
    decreases |xs|
  {
    if i > 0 {
      CostAt(xs[1..], i - 1);
    }
  }

  lemma TextsDecide(hash: Content<nat> -> nat, x: Item, y: Item)
    requires !(AlikeHeads(x, y) && !x.Text? && !y.Text?)
    requires AlikeHeads(x, y) <==> FormOf(hash, x).tag == FormOf(hash, y).tag && FormOf(hash, x).payload == FormOf(hash, y).payload
    ensures FormOf(hash, x) == FormOf(hash, y) <==> Alike(x, y)
  {
    hide FormOf, Inner, AlikeStatements, AlikeMembers, AlikeInOrder;
  }

  // ----- programs -----

  /**
  Without collisions, two files have one fingerprint exactly when the programs
  are the same, as Sameness says it, and so are the comments, up to order.
  */
  lemma FingerprintsDecide(hash: Content<nat> -> nat, a: Node, b: Node, c: seq<nat>, d: seq<nat>)
    requires CollisionFree(hash) && Grammatical(a) && Grammatical(b) && a.kind.Program? && b.kind.Program?
    ensures FingerprintOf(hash, a, c) == FingerprintOf(hash, b, d) <==> Alike(Shown(a, false), Shown(b, false)) && multiset(c) == multiset(d)
  {
    hide FormOf, Alike, Entries, CollisionFree;
    ProgramForm(hash, a);
    ProgramForm(hash, b);
    FormsDecide(hash, Shown(a, false), Shown(b, false));
    EqualPrintsAreEqualForms(hash, a, b, TOP);
    if FingerprintOf(hash, a, c) == FingerprintOf(hash, b, d) {
      EqualFingerprints(hash, a, b, c, d);
    }
    if multiset(c) == multiset(d) {
      assert TotalPreorder(Le);
      SortOfPermutation(Le, c, d);
    }
  }

  lemma ProgramForm(hash: Content<nat> -> nat, a: Node)
    requires Grammatical(a) && a.kind.Program?
    ensures FormsOf(hash, a, TOP) == [FormOf(hash, Shown(a, false))] && GoodItem(Shown(a, false))
  {
    hide FormOf, Entries;
    EntriesAreItems(hash, a, TOP);
    EntriesOfOne(hash, Shown(a, false), Ordered);
  }

  // ----- two neighbours -----

  predicate AreImports(x: Node, y: Node) {
    x.kind.Import? && y.kind.Import?
  }

  predicate AreConsts(x: Node, y: Node) {
    x.kind.Variable? && x.kind.isConst && y.kind.Variable? && y.kind.isConst
  }

  lemma TwoItems(x: Node, y: Node, span: nat)
    requires !Vanishes(x, None) && !IsBlank(x, false) && !Vanishes(y, None) && !IsBlank(y, false)
    ensures Inner(Shown(Node(Program, span, [x, y]), false)) == [Shown(x, false), Shown(y, false)]
  {
    var program := Node(Program, span, [x, y]);
    assert !IsBody(program, 0) && !IsBody(program, 1);
    assert ItemsFrom(program, None, 2) == [];
    assert ItemsFrom(program, None, 1) == Items(y, None, false, false) + ItemsFrom(program, None, 2);
    assert ItemsFrom(program, None, 0) == Items(x, None, false, false) + ItemsFrom(program, None, 1);
  }

  lemma AlikeItself(hash: Content<nat> -> nat, x: Item)
    requires CollisionFree(hash) && GoodItem(x)
    ensures Alike(x, x)
  {
    FormsDecide(hash, x, x);
  }

  lemma AlikeIsMutual(hash: Content<nat> -> nat, x: Item, y: Item)
    requires CollisionFree(hash) && GoodItem(x) && GoodItem(y)
    ensures Alike(x, y) <==> Alike(y, x)
  {
    FormsDecide(hash, x, y);
    FormsDecide(hash, y, x);
  }

  lemma TwoRun(x: Node, y: Node)
    ensures FirstRun([Shown(x, false), Shown(y, false)]) == if AreImports(x, y) || AreConsts(x, y) then 2 else 1
  {
    var xs := [Shown(x, false), Shown(y, false)];
    assert xs[1..] == [xs[1]] && xs[1..][1..] == [];
  }

  lemma OneStatement(x: Item, p: Item)
    ensures AlikeStatements([x], [p]) <==> Alike(x, p)
  {
    hide Alike;
    var xs, ps := [x], [p];
    assert FirstRun(xs) == 1 by { assert xs[1..] == []; }
    assert xs[..1] == [x] && ps[..1] == [p] && xs[1..] == [] && ps[1..] == [];
    OneAlike(x, p);
  }

  /** Two neighbours exchanged, one after the other or as a run. */
  lemma ExchangedStatements(x: Item, y: Item)
    requires Alike(x, x) && Alike(y, y)
    ensures FirstRun([x, y]) == 1 ==> (AlikeStatements([x, y], [y, x]) <==> Alike(x, y) && Alike(y, x))
    ensures FirstRun([x, y]) == 2 ==> AlikeStatements([x, y], [y, x])
  {
    hide Alike;
    var xs, ys := [x, y], [y, x];
    if FirstRun(xs) == 1 {
      assert xs[..1] == [x] && ys[..1] == [y] && xs[1..] == [y] && ys[1..] == [x];
      OneAlike(x, y);
      OneStatement(y, x);
    } else {
      assert xs[..2] == xs && ys[..2] == ys && xs[2..] == [] && ys[2..] == [];
      assert xs[1..] == [y] && ys[..1] + ys[1 + 1..] == [y];
      OneAlike(y, y);
      assert AlikeInAnyOrder(xs[1..], ys[..1] + ys[1 + 1..]);
      assert AlikeStatements([], []);
    }
  }

  /**
  Two statements of a program may change places exactly when they are the same,
  or are both imports, or both consts.
  */
  lemma {:induction false} NeighboursDecide(hash: Content<nat> -> nat, x: Node, y: Node, span: nat, comments: seq<nat>)
    requires CollisionFree(hash) && Grammatical(x) && Grammatical(y)
    requires !Vanishes(x, None) && !IsBlank(x, false) && !Vanishes(y, None) && !IsBlank(y, false)
    ensures FingerprintOf(hash, Node(Program, span, [x, y]), comments) == FingerprintOf(hash, Node(Program, span, [y, x]), comments)
       <==> Alike(Shown(x, false), Shown(y, false)) || AreImports(x, y) || AreConsts(x, y)
  {
    hide FingerprintOf, CollisionFree, AlikeStatements, Inner, FirstRun;
    var a, b := Node(Program, span, [x, y]), Node(Program, span, [y, x]);
    var p, q := Shown(x, false), Shown(y, false);
    assert Grammatical(a) && Grammatical(b);
    FingerprintsDecide(hash, a, b, comments, comments);
    TwoItems(x, y, span);
    TwoItems(y, x, span);
    TwoRun(x, y);
    AlikeItself(hash, p);
    AlikeItself(hash, q);
    AlikeIsMutual(hash, p, q);
    ProgramsAlike(a, b);
    hide Alike, Grammatical;
    ExchangedStatements(p, q);
  }

  lemma ProgramsAlike(a: Node, b: Node)
    requires a.kind.Program? && b.kind.Program?
    ensures Alike(Shown(a, false), Shown(b, false)) <==> AlikeStatements(Inner(Shown(a, false)), Inner(Shown(b, false)))
  {
    hide AlikeStatements, Inner;
  }
}
