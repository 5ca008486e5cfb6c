/**
Which files a walk finds, told of the tree alone: those in directories that are
entered and not ignored, and not ignored themselves.
*/
module Finds {
  import opened Options
  import opened Listings
  import opened Memories
  import opened Walks
  import opened Histories

  /** What the ignore file of the directory above `p` at depth `i` says of it, if anything. */
  ghost function Says(j: Judge, root: Tree, p: Path, isDir: bool, i: nat): Option<bool>
    requires i < |p|
  {
    match RulesAt(root, p[..i])
    case None => None
    case Some(rules) => j.engine.layer(j.around.ignoreCase, Layer(p[..i], rules.text), p, isDir)
  }

  /** What is outside the tree has it ignored. */
  ghost predicate HiddenOutside(j: Judge, p: Path, isDir: bool) {
    match j.engine.exclude(j.around.ignoreCase, j.around.exclude, p, isDir)
    case Some(ignore) => ignore
    case None => j.engine.global(j.around.ignoreCase, j.around.global, p, isDir)
  }

  /** The deepest of the first `n` directories above `p` that decides has it ignored, or none does and what is outside has. */
  ghost predicate HiddenBy(j: Judge, root: Tree, p: Path, isDir: bool, n: nat)
    requires n <= |p|
  {
    || (exists i :: 0 <= i < n && Says(j, root, p, isDir, i) == Some(true) && forall k :: i < k < n ==> Says(j, root, p, isDir, k) == None)
    || ((forall i :: 0 <= i < n ==> Says(j, root, p, isDir, i) == None) && HiddenOutside(j, p, isDir))
  }

  ghost predicate Hidden(j: Judge, root: Tree, p: Path, isDir: bool) {
    HiddenBy(j, root, p, isDir, |p|)
  }

  /** The directory is there, entered, not ignored and no repository of its own. */
  ghost predicate IsEntered(j: Judge, enters: Path -> bool, root: Tree, d: Path) {
    && NodeAt(root, d).Some?
    && (d != [] ==> !NodeAt(root, d).value.nested && enters(d) && !Hidden(j, root, d, true))
  }

  /** All directories above it are entered, from depth `n` on. */
  ghost predicate EnteredFrom(j: Judge, enters: Path -> bool, root: Tree, p: Path, n: nat) {
    forall i :: n <= i < |p| ==> IsEntered(j, enters, root, p[..i])
  }

  /** A file below `rel` that a walk finds. */
  ghost predicate IsFile(j: Judge, root: Tree, p: Path)
    requires p != [] && NodeAt(root, p[..|p| - 1]).Some?
  {
    p[|p| - 1] in NodeAt(root, p[..|p| - 1]).value.files && !Hidden(j, root, p, false)
  }

  ghost predicate IsFound(j: Judge, enters: Path -> bool, root: Tree, p: Path) {
    p != [] && EnteredFrom(j, enters, root, p, 0) && IsEntered(j, enters, root, p[..|p| - 1]) && IsFile(j, root, p)
  }

  /** No directory holds two directories of one name. */
  ghost predicate WellNamed(t: Tree)
    decreases t
  {
    && (forall i, k :: 0 <= i < k < |t.subs| ==> t.subs[i].name != t.subs[k].name)
    && forall i :: 0 <= i < |t.subs| ==> WellNamed(t.subs[i].tree)
  }

  // ----- what is ignored -----

  lemma {:induction false} IgnoredUpto(j: Judge, root: Tree, p: Path, isDir: bool, n: nat)
    requires n <= |p| && |Chain(root, p)| == |p|
    ensures Ignored(j, LayersOf(p, Chain(root, p)[..n]), p, isDir) <==> HiddenBy(j, root, p, isDir, n)
    decreases n
  {
    hide Chain, Says, HiddenOutside, Outside;
    var chain := Chain(root, p);
    if n == 0 {
      assert Outside(j, p, isDir) == HiddenOutside(j, p, isDir) by { SameOutside(j, p, isDir); }
    } else {
      IgnoredUpto(j, root, p, isDir, n - 1);
      OneLayer(j, root, p, isDir, n);
      HiddenNext(j, root, p, isDir, n);
    }
  }

  lemma SameOutside(j: Judge, p: Path, isDir: bool)
    ensures Outside(j, p, isDir) == HiddenOutside(j, p, isDir)
  {
  }

  lemma OneLayer(j: Judge, root: Tree, p: Path, isDir: bool, n: nat)
    requires 0 < n <= |p| && |Chain(root, p)| == |p|
    ensures Ignored(j, LayersOf(p, Chain(root, p)[..n]), p, isDir) ==
      match Says(j, root, p, isDir, n - 1)
      case Some(ignore) => ignore
      case None => Ignored(j, LayersOf(p, Chain(root, p)[..n - 1]), p, isDir)
  {
    hide Chain, RulesAt;
    var chain := Chain(root, p);
    ChainAt(root, p, n - 1);
    assert chain[..n][..n - 1] == chain[..n - 1];
    var above, own := LayersOf(p, chain[..n - 1]), OwnLayer(p[..n - 1], chain[n - 1]);
    assert LayersOf(p, chain[..n]) == above + own;
    if own == [] {
      assert above + own == above;
    } else {
      assert (above + own)[..|above + own| - 1] == above;
    }
  }

  lemma HiddenNext(j: Judge, root: Tree, p: Path, isDir: bool, n: nat)
    requires 0 < n <= |p|
    ensures HiddenBy(j, root, p, isDir, n) <==>
      match Says(j, root, p, isDir, n - 1)
      case Some(ignore) => ignore
      case None => HiddenBy(j, root, p, isDir, n - 1)
  {
    hide Says, HiddenOutside;
    if Says(j, root, p, isDir, n - 1) == None && HiddenBy(j, root, p, isDir, n - 1) {
      if i :| 0 <= i < n - 1 && Says(j, root, p, isDir, i) == Some(true) && forall k :: i < k < n - 1 ==> Says(j, root, p, isDir, k) == None {
        assert forall k :: i < k < n ==> Says(j, root, p, isDir, k) == None;
      }
    }
  }

  /** The rules a walk applies are those. */
  lemma IgnoredIsHidden(j: Judge, root: Tree, rel: Path, t: Tree, layers: seq<Layer>, name: string, isDir: bool)
    requires NodeAt(root, rel) == Some(t) && Open(root, rel) && (!t.nested || rel == [])
    requires |Chain(root, rel)| == |rel| && layers == LayersOf(rel, Chain(root, rel))
    ensures Ignored(j, layers + OwnLayer(rel, t.rules), rel + [name], isDir) <==> Hidden(j, root, rel + [name], isDir)
  {
    hide Chain, LayersOf, NodeAt, Open, Ignored, HiddenBy;
    ChildAt(root, rel, t, name);
    ChainAt(root, rel + [name], 0);
    IgnoredUpto(j, root, rel + [name], isDir, |rel| + 1);
    assert Chain(root, rel + [name])[..|rel| + 1] == Chain(root, rel + [name]);
  }

  // ----- how often a path is found -----

  lemma {:induction false} KeptTimes(j: Judge, layers: seq<Layer>, rel: Path, names: seq<string>, isDir: bool, name: string)
    ensures multiset(Kept(j, layers, rel, names, isDir))[name] == if Ignored(j, layers, rel + [name], isDir) then 0 else multiset(names)[name]
    decreases |names|
  {
    hide Ignored;
    if names != [] {
      KeptTimes(j, layers, rel, names[1..], isDir, name);
      assert names == [names[0]] + names[1..];
    }
  }

  lemma {:induction false} FilesTimes(rel: Path, names: seq<string>, p: Path)
    ensures multiset(Files(rel, names))[p] == if p != [] && p[..|p| - 1] == rel then multiset(names)[p[|p| - 1]] else 0
    decreases |names|
  {
    if names != [] {
      FilesTimes(rel, names[1..], p);
      assert names == [names[0]] + names[1..];
      assert rel + [names[0]] == p <==> p != [] && p[..|p| - 1] == rel && p[|p| - 1] == names[0];
    }
  }

  lemma {:induction false} NamesTimes(subs: seq<Sub>, name: string)
    requires forall i, k :: 0 <= i < k < |subs| ==> subs[i].name != subs[k].name
    ensures multiset(Names(subs))[name] == if Listings.Find(subs, name).Some? then 1 else 0
    decreases |subs|
  {
    if subs != [] {
      NamesTimes(subs[1..], name);
      FoundIsNamed(subs[1..], name);
      NamedBy(subs[1..], name);
    }
  }

  lemma {:induction false} NamedBy(subs: seq<Sub>, name: string)
    ensures name in Names(subs) <==> exists i :: 0 <= i < |subs| && subs[i].name == name
    decreases |subs|
  {
    if subs != [] {
      NamedBy(subs[1..], name);
      if i :| 0 <= i < |subs[1..]| && subs[1..][i].name == name {
        assert subs[i + 1].name == name;
      }
      if i :| 0 <= i < |subs| && subs[i].name == name {
        assert i == 0 || subs[1..][i - 1].name == name;
      }
    }
  }

  /** How often a path below `rel` is found there. */
  ghost function TimesFound(j: Judge, enters: Path -> bool, root: Tree, rel: Path, p: Path): nat {
    if |rel| < |p| && rel <= p && EnteredFrom(j, enters, root, p, |rel| + 1)
       && NodeAt(root, p[..|p| - 1]).Some? && !Hidden(j, root, p, false) then multiset(NodeAt(root, p[..|p| - 1]).value.files)[p[|p| - 1]] else 0
  }

  // ----- what is below a directory -----

  ghost function BelowAt(j: Judge, enters: Path -> bool, t: Tree, rel: Path, layers: seq<Layer>, name: string): seq<Path> {
    if !enters(rel + [name]) || Listings.Find(t.subs, name).None? then []
    else FullWalk(j, enters, Listings.Find(t.subs, name).value, rel + [name], layers)
  }

  lemma BelowNext(j: Judge, enters: Path -> bool, t: Tree, rel: Path, layers: seq<Layer>, names: seq<string>)
    requires names != []
    ensures FullBelow(j, enters, t, rel, layers, names) == BelowAt(j, enters, t, rel, layers, names[0]) + FullBelow(j, enters, t, rel, layers, names[1..])
  {
  }

  lemma {:induction false} FilesBelow(rel: Path, names: seq<string>)
    ensures forall q :: q in Files(rel, names) ==> rel < q
    decreases |names|
  {
    if names != [] {
      FilesBelow(rel, names[1..]);
    }
  }

  /** A walk finds nothing outside of its directory. */
  lemma {:induction false} WalkIsBelow(j: Judge, enters: Path -> bool, t: Tree, rel: Path, layers: seq<Layer>)
    ensures forall q :: q in FullWalk(j, enters, t, rel, layers) ==> rel < q
    decreases t, 1, 0
  {
    hide ListingNow;
    var listing := ListingNow(j, t, rel, layers);
    FilesBelow(rel, listing.files);
    EachIsBelow(j, enters, t, rel, layers + OwnLayer(rel, t.rules), listing.dirs);
  }

  lemma {:induction false} EachIsBelow(j: Judge, enters: Path -> bool, t: Tree, rel: Path, layers: seq<Layer>, names: seq<string>)
    ensures forall q :: q in FullBelow(j, enters, t, rel, layers, names) ==> rel < q
    decreases t, 0, |names|
  {
    hide FullWalk;
    if names != [] {
      BelowNext(j, enters, t, rel, layers, names);
      EachIsBelow(j, enters, t, rel, layers, names[1..]);
      if enters(rel + [names[0]]) && Listings.Find(t.subs, names[0]).Some? {
        WalkIsBelow(j, enters, Listings.Find(t.subs, names[0]).value, rel + [names[0]], layers);
      }
    }
  }

  function Product(a: nat, b: nat): nat {
    a * b
  }

  lemma Distribute(a: nat, b: nat, c: nat)
    ensures Product(a + b, c) == Product(a, c) + Product(b, c)
    ensures Product(0, c) == 0 && Product(1, c) == c
    ensures Product(a, c) > 0 <==> a > 0 && c > 0
  {
  }

  /** Of the directories below one, only the one above `p` has `p`. */
  lemma {:induction false} BelowTimes(j: Judge, enters: Path -> bool, t: Tree, rel: Path, layers: seq<Layer>, names: seq<string>, p: Path, c: string)
    requires rel + [c] <= p
    ensures multiset(FullBelow(j, enters, t, rel, layers, names))[p] == Product(multiset(names)[c], multiset(BelowAt(j, enters, t, rel, layers, c))[p])
    decreases |names|
  {
    hide *;
    var each := multiset(BelowAt(j, enters, t, rel, layers, c))[p];
    if names == [] {
      NoneBelowAt(j, enters, t, rel, layers);
      Distribute(0, 0, each);
    } else {
      BelowNext(j, enters, t, rel, layers, names);
      BelowTimes(j, enters, t, rel, layers, names[1..], p, c);
      if names[0] != c {
        OnlyOwn(j, enters, t, rel, layers, names[0], p, c);
      }
      assert names == [names[0]] + names[1..];
      Distribute(multiset(names[1..])[c], if names[0] == c then 1 else 0, each);
      Distribute(multiset(names[1..])[c], 0, each);
    }
  }

  lemma NoneBelowAt(j: Judge, enters: Path -> bool, t: Tree, rel: Path, layers: seq<Layer>)
    ensures FullBelow(j, enters, t, rel, layers, []) == []
  {
  }

  lemma OnlyOwn(j: Judge, enters: Path -> bool, t: Tree, rel: Path, layers: seq<Layer>, name: string, p: Path, c: string)
    requires rel + [c] <= p && name != c
    ensures multiset(BelowAt(j, enters, t, rel, layers, name))[p] == 0
  {
    hide FullWalk;
    if enters(rel + [name]) && Listings.Find(t.subs, name).Some? {
      WalkIsBelow(j, enters, Listings.Find(t.subs, name).value, rel + [name], layers);
      Elsewhere(rel, name, c, p);
    }
    NotIn(BelowAt(j, enters, t, rel, layers, name), p);
  }

  lemma Elsewhere(rel: Path, name: string, c: string, p: Path)
    requires rel + [c] <= p && name != c
    ensures !(rel + [name] < p)
  {
    assert p[|rel|] == (rel + [c])[|rel|] && (rel + [name])[|rel|] == name;
  }

  lemma NotIn(found: seq<Path>, p: Path)
    requires p !in found
    ensures multiset(found)[p] == 0
  {
  }

  // ----- the walk -----

  lemma TimesStep(j: Judge, enters: Path -> bool, root: Tree, rel: Path, p: Path)
    requires rel < p && |rel| + 1 < |p|
    ensures TimesFound(j, enters, root, rel, p) ==
      if IsEntered(j, enters, root, p[..|rel| + 1]) then TimesFound(j, enters, root, p[..|rel| + 1], p) else 0
  {
    hide Hidden;
    assert p[..|rel| + 1] <= p;
  }

  /** Each path is found as often as the tree has it, if no directory has two of one name; and in any tree, exactly where it has it. */
  ghost predicate FoundRightly(j: Judge, enters: Path -> bool, root: Tree, t: Tree, rel: Path, found: seq<Path>, p: Path) {
    var times, wanted := multiset(found)[p], TimesFound(j, enters, root, rel, p);
    (times > 0 <==> wanted > 0) && (WellNamed(t) ==> times == wanted)
  }

  ghost predicate IsAt(root: Tree, t: Tree, rel: Path, layers: seq<Layer>) {
    && NodeAt(root, rel) == Some(t) && Open(root, rel) && (!t.nested || rel == [])
    && |Chain(root, rel)| == |rel| && layers == LayersOf(rel, Chain(root, rel))
  }

  lemma {:induction false} WalkTimes(j: Judge, enters: Path -> bool, root: Tree, t: Tree, rel: Path, layers: seq<Layer>, p: Path)
    requires IsAt(root, t, rel, layers)
    ensures FoundRightly(j, enters, root, t, rel, FullWalk(j, enters, t, rel, layers), p)
    decreases t, 2
  {
    hide IsAt, Ignored, Hidden, Kept, FullBelow, Files, FullWalk, FoundRightly;
    WalkIs(j, enters, root, t, rel, layers);
    if p == [] || !(rel <= p[..|p| - 1]) {
      NotBelow(j, enters, root, t, rel, layers, p);
    } else if p[..|p| - 1] == rel {
      FileHere(j, enters, root, t, rel, layers, p);
    } else {
      Towards(rel, p);
      FoundDeeper(j, enters, root, t, rel, layers, p, p[|rel|]);
    }
  }

  lemma Towards(rel: Path, p: Path)
    requires p != [] && rel <= p[..|p| - 1] && p[..|p| - 1] != rel
    ensures |rel| + 1 < |p| && rel + [p[|rel|]] < p
  {
    assert p[..|rel|] == p[..|p| - 1][..|rel|] == rel;
  }

  lemma {:induction false} FoundDeeper(j: Judge, enters: Path -> bool, root: Tree, t: Tree, rel: Path, layers: seq<Layer>, p: Path, c: string)
    requires IsAt(root, t, rel, layers) && rel + [c] < p
    ensures FoundRightly(j, enters, root, t, rel, FullWalk(j, enters, t, rel, layers), p)
    decreases t, 1
  {
    WalkIs(j, enters, root, t, rel, layers);
    hide IsAt, Ignored, Hidden, Kept, FullBelow, Files, FullWalk, TimesFound;
    var own := layers + OwnLayer(rel, t.rules);
    FilesTimes(rel, Kept(j, own, rel, t.files, false), p);
    BelowTimes(j, enters, t, rel, own, Kept(j, own, rel, Names(t.subs), true), p, c);
    FoundBelow(j, enters, root, t, rel, layers, p, c);
  }

  lemma WalkIs(j: Judge, enters: Path -> bool, root: Tree, t: Tree, rel: Path, layers: seq<Layer>)
    requires IsAt(root, t, rel, layers)
    ensures var own := layers + OwnLayer(rel, t.rules);
      FullWalk(j, enters, t, rel, layers)
        == Files(rel, Kept(j, own, rel, t.files, false)) + FullBelow(j, enters, t, rel, own, Kept(j, own, rel, Names(t.subs), true))
  {
    hide Kept, Chain, LayersOf, NodeAt;
  }

  lemma NotBelow(j: Judge, enters: Path -> bool, root: Tree, t: Tree, rel: Path, layers: seq<Layer>, p: Path)
    requires p == [] || !(rel <= p[..|p| - 1])
    ensures FoundRightly(j, enters, root, t, rel, FullWalk(j, enters, t, rel, layers), p)
  {
    hide Hidden, FullWalk;
    WalkIsBelow(j, enters, t, rel, layers);
    assert !(rel < p) by { NoPrefix(rel, p); }
    NotIn(FullWalk(j, enters, t, rel, layers), p);
  }

  lemma NoPrefix(rel: Path, p: Path)
    requires p == [] || !(rel <= p[..|p| - 1])
    ensures !(rel < p)
  {
    if p != [] {
      assert p[..|p| - 1] + [p[|p| - 1]] == p;
    }
  }

  lemma FileHere(j: Judge, enters: Path -> bool, root: Tree, t: Tree, rel: Path, layers: seq<Layer>, p: Path)
    requires IsAt(root, t, rel, layers) && p != [] && p[..|p| - 1] == rel
    ensures FoundRightly(j, enters, root, t, rel, FullWalk(j, enters, t, rel, layers), p)
  {
    WalkIs(j, enters, root, t, rel, layers);
    hide IsAt, Ignored, Hidden, Kept, FullBelow, Files, FullWalk, TimesFound;
    var own := layers + OwnLayer(rel, t.rules);
    FilesTimes(rel, Kept(j, own, rel, t.files, false), p);
    FileTimes(j, root, t, rel, layers, p);
    WantedHere(j, enters, root, t, rel, layers, p);
    DeeperOnly(j, enters, t, rel, own, Kept(j, own, rel, Names(t.subs), true), p);
  }

  lemma FileTimes(j: Judge, root: Tree, t: Tree, rel: Path, layers: seq<Layer>, p: Path)
    requires IsAt(root, t, rel, layers) && p != [] && p[..|p| - 1] == rel
    ensures var name := p[|p| - 1];
      multiset(Kept(j, layers + OwnLayer(rel, t.rules), rel, t.files, false))[name] == if Hidden(j, root, p, false) then 0 else multiset(t.files)[name]
  {
    hide Ignored, Hidden, Kept, Chain, LayersOf, Open, NodeAt;
    var name := p[|p| - 1];
    assert p == rel + [name];
    KeptTimes(j, layers + OwnLayer(rel, t.rules), rel, t.files, false, name);
    IgnoredIsHidden(j, root, rel, t, layers, name, false);
  }

  lemma WantedHere(j: Judge, enters: Path -> bool, root: Tree, t: Tree, rel: Path, layers: seq<Layer>, p: Path)
    requires IsAt(root, t, rel, layers) && p != [] && p[..|p| - 1] == rel
    ensures TimesFound(j, enters, root, rel, p) == if Hidden(j, root, p, false) then 0 else multiset(t.files)[p[|p| - 1]]
  {
    hide Hidden, Chain, LayersOf, Open, IsEntered, NodeAt;
    assert rel <= p;
  }

  /** What is found below a directory is not in it. */
  lemma {:induction false} DeeperOnly(j: Judge, enters: Path -> bool, t: Tree, rel: Path, layers: seq<Layer>, names: seq<string>, p: Path)
    requires |p| == |rel| + 1
    ensures multiset(FullBelow(j, enters, t, rel, layers, names))[p] == 0
    decreases |names|
  {
    hide FullWalk, FullBelow;
    if names == [] {
      NoneBelowAt(j, enters, t, rel, layers);
    } else {
      BelowNext(j, enters, t, rel, layers, names);
      DeeperOnly(j, enters, t, rel, layers, names[1..], p);
      if enters(rel + [names[0]]) && Listings.Find(t.subs, names[0]).Some? {
        WalkIsBelow(j, enters, Listings.Find(t.subs, names[0]).value, rel + [names[0]], layers);
      }
      NotIn(BelowAt(j, enters, t, rel, layers, names[0]), p);
    }
  }

  /** Below the directory towards `p`. */
  lemma {:induction false} FoundBelow(j: Judge, enters: Path -> bool, root: Tree, t: Tree, rel: Path, layers: seq<Layer>, p: Path, c: string)
    requires IsAt(root, t, rel, layers) && rel + [c] < p
    ensures var own := layers + OwnLayer(rel, t.rules);
      var times := Product(multiset(Kept(j, own, rel, Names(t.subs), true))[c], multiset(BelowAt(j, enters, t, rel, own, c))[p]);
      var wanted := TimesFound(j, enters, root, rel, p);
      (times > 0 <==> wanted > 0) && (WellNamed(t) ==> times == wanted)
    decreases t, 0
  {
    hide IsAt, Ignored, Hidden, FullWalk, Kept, TimesFound, Product;
    var own, child := layers + OwnLayer(rel, t.rules), rel + [c];
    assert p[..|rel| + 1] == child;
    var dirs, below := multiset(Kept(j, own, rel, Names(t.subs), true))[c], multiset(BelowAt(j, enters, t, rel, own, c))[p];
    TimesStep(j, enters, root, rel, p);
    DirTimes(j, root, t, rel, layers, c);
    Distribute(dirs, 0, below);
    Distribute(0, 0, below);
    if enters(child) && Listings.Find(t.subs, c).Some? {
      var sub := Listings.Find(t.subs, c).value;
      if sub.nested {
        NestedIsEmpty(j, enters, sub, child, own);
      } else {
        ChildIsAt(root, t, rel, layers, c, sub);
        WalkTimes(j, enters, root, sub, child, own, p);
        assert FoundRightly(j, enters, root, sub, child, FullWalk(j, enters, sub, child, own), p);
      }
    }
  }

  lemma DirTimes(j: Judge, root: Tree, t: Tree, rel: Path, layers: seq<Layer>, c: string)
    requires IsAt(root, t, rel, layers)
    ensures var own, child := layers + OwnLayer(rel, t.rules), rel + [c];
      var times := multiset(Kept(j, own, rel, Names(t.subs), true))[c];
      && (times > 0 <==> Listings.Find(t.subs, c).Some? && !Hidden(j, root, child, true))
      && (WellNamed(t) ==> times <= 1)
      && NodeAt(root, child) == Listings.Find(t.subs, c)
  {
    hide Chain, LayersOf, Open, Ignored, Hidden, Kept;
    KeptTimes(j, layers + OwnLayer(rel, t.rules), rel, Names(t.subs), true, c);
    IgnoredIsHidden(j, root, rel, t, layers, c, true);
    FoundIsNamed(t.subs, c);
    ChildAt(root, rel, t, c);
    if WellNamed(t) {
      NamesTimes(t.subs, c);
    }
  }

  lemma ChildIsAt(root: Tree, t: Tree, rel: Path, layers: seq<Layer>, c: string, sub: Tree)
    requires IsAt(root, t, rel, layers) && Listings.Find(t.subs, c) == Some(sub) && !sub.nested
    ensures IsAt(root, sub, rel + [c], layers + OwnLayer(rel, t.rules))
    ensures WellNamed(t) ==> WellNamed(sub)
  {
    hide Chain, LayersOf, Open, NodeAt;
    ChildAt(root, rel, t, c);
    ChainAt(root, rel + [c], 0);
  }

  lemma NestedIsEmpty(j: Judge, enters: Path -> bool, t: Tree, rel: Path, layers: seq<Layer>)
    requires t.nested && rel != []
    ensures FullWalk(j, enters, t, rel, layers) == []
  {
  }

  /**
  A walk finds exactly the files in directories that are there, entered and not
  ignored, and no repositories of their own; and each as often as it is there.
  */
  lemma FindsExactly(j: Judge, enters: Path -> bool, root: Tree, p: Path)
    ensures p in FullWalk(j, enters, root, [], []) <==> IsFound(j, enters, root, p)
    ensures WellNamed(root) && IsFound(j, enters, root, p) ==>
      multiset(FullWalk(j, enters, root, [], []))[p] == multiset(NodeAt(root, p[..|p| - 1]).value.files)[p[|p| - 1]]
  {
    hide FullWalk, Hidden;
    AtRoot(root);
    NoLayers(root);
    assert IsAt(root, root, [], []);
    WalkTimes(j, enters, root, root, [], [], p);
    assert FoundRightly(j, enters, root, root, [], FullWalk(j, enters, root, [], []), p);
    if p != [] {
      FromRoot(j, enters, root, p);
    }
  }

  lemma FromRoot(j: Judge, enters: Path -> bool, root: Tree, p: Path)
    requires p != []
    ensures IsFound(j, enters, root, p) <==> TimesFound(j, enters, root, [], p) > 0
    ensures IsFound(j, enters, root, p) ==> TimesFound(j, enters, root, [], p) == multiset(NodeAt(root, p[..|p| - 1]).value.files)[p[|p| - 1]]
  {
    hide Hidden;
    assert p[..0] == [];
    assert NodeAt(root, []) == Some(root);
  }
}
