/**
Whole histories of runs that share a filter. The memory never changes what a
walk finds, as long as nothing that was found otherwise comes back.
*/
module Histories {
  import opened Options
  import opened Sightings
  import opened Listings
  import opened Memories
  import opened Walks

  /** What one run meets: the time it takes to be settled, the rules outside the tree, the tree, and what the watch vouches for. */
  datatype Moment = Moment(before: int, context: Context, around: Around, root: Tree, clean: map<Path, Sighting>)

  // ----- what a walk goes into -----

  /** What is walked below the root was listed above, not ignored, and entered. */
  lemma {:induction false} WalkedFrom(j: Judge, enters: Path -> bool, root: Tree, t: Tree, rel: Path, layers: seq<Layer>, q: Path)
    requires NodeAt(root, rel) == Some(t) && Open(root, rel) && |Chain(root, rel)| == |rel| && layers == LayersOf(rel, Chain(root, rel))
    requires q in Walked(j, enters, t, rel, layers) && q != rel
    ensures q != [] && ListedAbove(j, enters, root, q)
    decreases t, 1, 0
  {
    hide Open, NodeAt, Chain, LayersOf, ListingNow, ListedAbove;
    NestedAsIs(j, t, rel, layers);
    WalkedBelowFrom(j, enters, root, t, rel, layers, ListingNow(j, t, rel, layers).dirs, q);
  }

  ghost predicate ListedAbove(j: Judge, enters: Path -> bool, root: Tree, q: Path)
    requires q != []
  {
    var p, name := q[..|q| - 1], q[|q| - 1];
    && enters(q) && NodeAt(root, p).Some? && |Chain(root, p)| == |p| && Open(root, p)
    && var u := NodeAt(root, p).value;
       && (!u.nested || p == []) && Listings.Find(u.subs, name).Some?
       && name in ListingNow(j, u, p, LayersOf(p, Chain(root, p))).dirs
  }

  lemma ListedChild(j: Judge, enters: Path -> bool, root: Tree, t: Tree, rel: Path, layers: seq<Layer>, name: string)
    requires NodeAt(root, rel) == Some(t) && Open(root, rel) && |Chain(root, rel)| == |rel| && layers == LayersOf(rel, Chain(root, rel)) && (!t.nested || rel == [])
    requires name in ListingNow(j, t, rel, layers).dirs && enters(rel + [name]) && Listings.Find(t.subs, name).Some?
    ensures ListedAbove(j, enters, root, rel + [name])
  {
    hide Open, NodeAt, Chain, LayersOf, ListingNow;
    var child := rel + [name];
    assert child[..|child| - 1] == rel;
  }

  lemma {:induction false} WalkedBelowFrom(j: Judge, enters: Path -> bool, root: Tree, t: Tree, rel: Path, layers: seq<Layer>, names: seq<string>, q: Path)
    requires NodeAt(root, rel) == Some(t) && Open(root, rel) && |Chain(root, rel)| == |rel| && layers == LayersOf(rel, Chain(root, rel)) && (!t.nested || rel == [])
    requires forall name :: name in names ==> name in ListingNow(j, t, rel, layers).dirs
    requires q in WalkedBelow(j, enters, t, rel, layers + OwnLayer(rel, t.rules), names)
    ensures q != [] && ListedAbove(j, enters, root, q)
    decreases t, 0, |names|
  {
    hide Open, NodeAt, Chain, LayersOf, ListingNow, Walked, ListedAbove;
    var child := rel + [names[0]];
    var sub := Listings.Find(t.subs, names[0]);
    if enters(child) && sub.Some? && q in Walked(j, enters, sub.value, child, layers + OwnLayer(rel, t.rules)) {
      if q == child {
        ListedChild(j, enters, root, t, rel, layers, names[0]);
      } else {
        ChildAt(root, rel, t, names[0]);
        WalkedFrom(j, enters, root, sub.value, child, layers + OwnLayer(rel, t.rules), q);
      }
    } else {
      WalkedBelowFrom(j, enters, root, t, rel, layers, names[1..], q);
    }
  }

  lemma {:induction false} KeptIff(j: Judge, layers: seq<Layer>, rel: Path, names: seq<string>, isDir: bool, name: string)
    ensures name in Kept(j, layers, rel, names, isDir) <==> name in names && !Ignored(j, layers, rel + [name], isDir)
    decreases |names|
  {
    hide Ignored;
    if names != [] {
      KeptIff(j, layers, rel, names[1..], isDir, name);
    }
  }

  lemma {:induction false} FoundIsNamed(subs: seq<Sub>, name: string)
    ensures Listings.Find(subs, name).Some? <==> name in Names(subs)
    decreases |subs|
  {
    if subs != [] {
      FoundIsNamed(subs[1..], name);
    }
  }

  /** Its ancestors' ignore files ignore a path. */
  ghost predicate Out(j: Judge, c: Path, chain: seq<Option<Rules>>)
    requires |chain| == |c|
  {
    Ignored(j, LayersOf(c, chain), c, true)
  }

  /** A directory that is there is listed by the one above unless that one's rules, or rules above, ignore it. */
  lemma ListedUnlessOut(j: Judge, root: Tree, p: Path, u: Tree, name: string)
    requires NodeAt(root, p) == Some(u) && Open(root, p) && (!u.nested || p == [])
    ensures |Chain(root, p)| == |p| && |Chain(root, p + [name])| == |p| + 1
    ensures name in ListingNow(j, u, p, LayersOf(p, Chain(root, p))).dirs
      <==> Listings.Find(u.subs, name).Some? && !Out(j, p + [name], Chain(root, p + [name]))
    ensures NodeAt(root, p + [name]) == Listings.Find(u.subs, name)
  {
    hide Ignored, NodeAt, Open, Chain, LayersOf, Kept;
    ChildAt(root, p, u, name);
    FoundIsNamed(u.subs, name);
    KeptIff(j, LayersOf(p, Chain(root, p)) + OwnLayer(p, u.rules), p, Names(u.subs), true, name);
  }

  lemma WalkedIsIn(j: Judge, enters: Path -> bool, root: Tree, q: Path)
    requires q in Walked(j, enters, root, [], []) && q != []
    ensures |Chain(root, q)| == |q| && enters(q) && !Out(j, q, Chain(root, q))
  {
    hide Walked, Out, ListingNow, LayersOf, ListedAbove, Chain, NodeAt, Open;
    NoLayers(root);
    AtRoot(root);
    WalkedFrom(j, enters, root, root, [], [], q);
    ListedIsIn(j, enters, root, q);
  }

  lemma AtRoot(root: Tree)
    ensures NodeAt(root, []) == Some(root) && Open(root, []) && Chain(root, []) == []
  {
  }

  lemma ListedIsIn(j: Judge, enters: Path -> bool, root: Tree, q: Path)
    requires q != [] && ListedAbove(j, enters, root, q)
    ensures |Chain(root, q)| == |q| && enters(q) && !Out(j, q, Chain(root, q))
  {
    hide Out, ListingNow, LayersOf;
    var p := q[..|q| - 1];
    ListedUnlessOut(j, root, p, NodeAt(root, p).value, q[|q| - 1]);
    assert p + [q[|q| - 1]] == q;
  }

  lemma NoLayers(root: Tree)
    ensures LayersOf([], Chain(root, [])) == []
  {
  }

  // ----- what a history leaves -----

  ghost predicate Here(root: Tree, rel: Path) {
    Open(root, rel) && NodeAt(root, rel).Some?
  }

  ghost function NodeOf(root: Tree, rel: Path): Tree
    requires Here(root, rel)
  {
    NodeAt(root, rel).value
  }

  /** The ignore file that counts: none in a nested repository. */
  function Own(rel: Path, t: Tree): Option<Rules> {
    if t.nested && rel != [] then None else t.rules
  }

  predicate NodeSettled(rel: Path, t: Tree, before: int) {
    IsSettled(t.stamp, before) && (Own(rel, t).Some? ==> IsSettled(Own(rel, t).value.stamp, before))
  }

  /**
  Of three runs: a directory that the first and the last find with one stamp,
  and not inside a nested repository, the one between does too; the same for
  the stamp of an ignore file; and ignore rules that were otherwise in between,
  or were not there, had been so for long enough to settle.
  */
  ghost predicate Steady(x: Moment, y: Moment, z: Moment, rel: Path) {
    Here(x.root, rel) && Here(z.root, rel) ==>
      var t, v := NodeOf(x.root, rel), NodeOf(z.root, rel);
      && (t.stamp == v.stamp ==> Here(y.root, rel) && NodeOf(y.root, rel).stamp == t.stamp)
      && (Here(y.root, rel) ==>
            var u := NodeOf(y.root, rel);
            && (RulesStamp(t).Some? && RulesStamp(t) == RulesStamp(v) ==> RulesStamp(u) == RulesStamp(t))
            && (Own(rel, t) == Own(rel, v) != Own(rel, u) ==> NodeSettled(rel, u, y.before)))
  }

  ghost predicate NeverBack(h: seq<Moment>) {
    forall a, b, c, rel :: 0 <= a < b < c < |h| ==> Steady(h[a], h[b], h[c], rel)
  }

  /** The run `a` listed the directory, and everything above it was entered. */
  ghost predicate MadeAt(ledger: Ledger, enters: Path -> bool, h: seq<Moment>, rel: Path, listing: Listing, origin: seq<Option<Rules>>, a: nat) {
    && a < |h| && Here(h[a].root, rel)
    && listing.stamp == NodeOf(h[a].root, rel).stamp && Known(ledger, listing.rules) == Own(rel, NodeOf(h[a].root, rel))
    && origin == Chain(h[a].root, rel)
    && forall i :: 0 < i <= |rel| ==> enters(rel[..i])
  }

  /** A later run found the directory otherwise. */
  ghost predicate Lost(h: seq<Moment>, rel: Path, listing: Listing, a: nat) {
    exists b :: a < b < |h| && !(Here(h[b].root, rel) && Fits(NodeOf(h[b].root, rel), listing))
  }

  /** A later run found other ignore rules there, too new to remember. */
  ghost predicate Outdated(ledger: Ledger, h: seq<Moment>, rel: Path, listing: Listing, a: nat) {
    exists b :: a < b < |h| && Here(h[b].root, rel)
      && Known(ledger, listing.rules) != Own(rel, NodeOf(h[b].root, rel)) && !NodeSettled(rel, NodeOf(h[b].root, rel), h[b].before)
  }

  /** The ignore files stored for the directories above. */
  ghost function StoredChain(ledger: Ledger, stored: map<Path, Listing>, c: Path): (chain: seq<Option<Rules>>)
    requires Reachable(stored, c)
    ensures |chain| == |c| && forall i :: 0 <= i < |c| ==> chain[i] == Known(ledger, stored[c[..i]].rules)
  {
    seq(|c|, i requires 0 <= i < |c| => Known(ledger, stored[c[..i]].rules))
  }

  /** The stored ignore files ignore the directory, or one above it. */
  ghost predicate Barred(j: Judge, ledger: Ledger, stored: map<Path, Listing>, rel: Path) {
    exists i :: 0 < i <= |rel| && Reachable(stored, rel[..i]) && Out(j, rel[..i], StoredChain(ledger, stored, rel[..i]))
  }

  /** The stored listing was made under the stored rules, or cannot be replayed again. */
  ghost predicate Stays(j: Judge, ledger: Ledger, h: seq<Moment>, stored: map<Path, Listing>, origins: Origins, made: map<Path, nat>, rel: Path) {
    && rel in stored && rel in origins && rel in made
    && (Reachable(stored, rel) ==>
          || Matches(ledger, stored, rel, origins[rel])
          || Lost(h, rel, stored[rel], made[rel])
          || (exists i :: 0 <= i < |rel| && OutdatedIn(ledger, h, stored, made, rel[..i]))
          || Barred(j, ledger, stored, rel))
  }

  ghost predicate OutdatedIn(ledger: Ledger, h: seq<Moment>, stored: map<Path, Listing>, made: map<Path, nat>, rel: Path) {
    rel in stored && rel in made && Outdated(ledger, h, rel, stored[rel], made[rel])
  }

  ghost predicate AllStay(j: Judge, enters: Path -> bool, ledger: Ledger, h: seq<Moment>, stored: map<Path, Listing>, origins: Origins, made: map<Path, nat>) {
    && stored.Keys <= origins.Keys && stored.Keys <= made.Keys
    && forall rel :: rel in stored ==>
      MadeAt(ledger, enters, h, rel, stored[rel], origins[rel], made[rel]) && Stays(j, ledger, h, stored, origins, made, rel)
  }

  // ----- what cannot be replayed is not met -----

  lemma NotLost(ledger: Ledger, enters: Path -> bool, h: seq<Moment>, m: Moment, rel: Path, listing: Listing, origin: seq<Option<Rules>>, a: nat)
    requires NeverBack(h + [m]) && MadeAt(ledger, enters, h, rel, listing, origin, a)
    requires Here(m.root, rel) && Fits(NodeOf(m.root, rel), listing)
    ensures !Lost(h, rel, listing, a)
  {
    hide Open, NodeAt, Chain;
    forall b | a < b < |h| ensures Here(h[b].root, rel) && Fits(NodeOf(h[b].root, rel), listing) {
      var all := h + [m];
      assert Steady(all[a], all[b], all[|h|], rel);
    }
  }

  lemma NotOutdated(ledger: Ledger, enters: Path -> bool, h: seq<Moment>, m: Moment, rel: Path, listing: Listing, origin: seq<Option<Rules>>, a: nat)
    requires NeverBack(h + [m]) && MadeAt(ledger, enters, h, rel, listing, origin, a)
    requires Here(m.root, rel) && Known(ledger, listing.rules) == Own(rel, NodeOf(m.root, rel))
    ensures !Outdated(ledger, h, rel, listing, a)
  {
    hide Open, NodeAt, Chain, NodeSettled, Own;
    forall b | a < b < |h| && Here(h[b].root, rel) && Known(ledger, listing.rules) != Own(rel, NodeOf(h[b].root, rel))
      ensures NodeSettled(rel, NodeOf(h[b].root, rel), h[b].before)
    {
      var all := h + [m];
      assert Steady(all[a], all[b], all[|h|], rel);
    }
  }

  lemma WalkedPrefix(j: Judge, enters: Path -> bool, root: Tree, rel: Path, i: nat)
    requires rel in Walked(j, enters, root, [], []) && i <= |rel|
    ensures rel[..i] in Walked(j, enters, root, [], []) && Here(root, rel[..i])
    ensures i < |rel| ==> !NodeOf(root, rel[..i]).nested || i == 0
  {
    hide Walked;
    WalkedAbove(j, enters, root, root, [], [], rel);
    WalkedAbove(j, enters, root, root, [], [], rel[..i]);
  }

  lemma NotBarred(j: Judge, enters: Path -> bool, ledger: Ledger, root: Tree, stored: map<Path, Listing>, rel: Path)
    requires rel in Walked(j, enters, root, [], []) && Matches(ledger, stored, rel, Chain(root, rel))
    ensures !Barred(j, ledger, stored, rel)
  {
    hide Walked, Out, NodeAt;
    forall i | 0 < i <= |rel| && Reachable(stored, rel[..i]) ensures !Out(j, rel[..i], StoredChain(ledger, stored, rel[..i])) {
      WalkedPrefix(j, enters, root, rel, i);
      WalkedIsIn(j, enters, root, rel[..i]);
      forall k | 0 <= k < i ensures Known(ledger, stored[rel[..i][..k]].rules) == RulesAt(root, rel[..i][..k]) {
        MatchedAbove(ledger, root, stored, rel, i, k);
      }
      SameAbove(ledger, root, stored, rel[..i]);
    }
  }

  lemma SameAbove(ledger: Ledger, root: Tree, stored: map<Path, Listing>, c: Path)
    requires Reachable(stored, c) && forall k :: 0 <= k < |c| ==> Known(ledger, stored[c[..k]].rules) == RulesAt(root, c[..k])
    ensures |Chain(root, c)| == |c| && StoredChain(ledger, stored, c) == Chain(root, c)
  {
    hide Chain, RulesAt, Known;
    ChainAt(root, c, 0);
    forall k | 0 <= k < |c| ensures StoredChain(ledger, stored, c)[k] == Chain(root, c)[k] {
      ChainAt(root, c, k);
    }
  }

  lemma MatchedAbove(ledger: Ledger, root: Tree, stored: map<Path, Listing>, rel: Path, i: nat, k: nat)
    requires Matches(ledger, stored, rel, Chain(root, rel)) && k < i <= |rel|
    ensures rel[..i][..k] == rel[..k] && rel[..k] in stored && Known(ledger, stored[rel[..k]].rules) == RulesAt(root, rel[..k])
  {
    hide Chain, RulesAt, Known;
    ChainAt(root, rel, k);
  }

  /** So every listing that may be replayed was made under the ignore files that are there. */
  lemma StillSure(j: Judge, enters: Path -> bool, ledger: Ledger, h: seq<Moment>, m: Moment, stored: map<Path, Listing>, origins: Origins, made: map<Path, nat>)
    requires NeverBack(h + [m]) && AllStay(j, enters, ledger, h, stored, origins, made)
    ensures Sure(j, enters, ledger, m.root, stored, origins)
  {
    hide NeverBack, AllStay, Walked, Fits, Matches, Chain, NodeAt;
    forall rel | rel in stored && rel in Walked(j, enters, m.root, [], []) && NodeAt(m.root, rel).Some?
                 && Fits(NodeAt(m.root, rel).value, stored[rel]) && Matches(ledger, stored, rel, Chain(m.root, rel))
      ensures rel in origins && origins[rel] == Chain(m.root, rel)
    {
      SureOf(j, enters, ledger, h, m, stored, origins, made, rel);
    }
  }

  lemma SureOf(j: Judge, enters: Path -> bool, ledger: Ledger, h: seq<Moment>, m: Moment, stored: map<Path, Listing>, origins: Origins, made: map<Path, nat>, rel: Path)
    requires NeverBack(h + [m]) && AllStay(j, enters, ledger, h, stored, origins, made)
    requires rel in stored && rel in Walked(j, enters, m.root, [], []) && NodeAt(m.root, rel).Some?
    requires Fits(NodeAt(m.root, rel).value, stored[rel]) && Matches(ledger, stored, rel, Chain(m.root, rel))
    ensures rel in origins && origins[rel] == Chain(m.root, rel)
  {
    hide NeverBack, Walked, Fits, Chain, NodeAt, MadeAt, Lost, Outdated, Barred, Matches;
    assert rel[..|rel|] == rel;
    WalkedPrefix(j, enters, m.root, rel, |rel|);
    NotLost(ledger, enters, h, m, rel, stored[rel], origins[rel], made[rel]);
    NotBarred(j, enters, ledger, m.root, stored, rel);
    forall i | 0 <= i < |rel| ensures !OutdatedIn(ledger, h, stored, made, rel[..i]) {
      MatchedAbove(ledger, m.root, stored, rel, |rel|, i);
      WalkedPrefix(j, enters, m.root, rel, i);
      assert Own(rel[..i], NodeOf(m.root, rel[..i])) == RulesAt(m.root, rel[..i]);
      NotOutdated(ledger, enters, h, m, rel[..i], stored[rel[..i]], origins[rel[..i]], made[rel[..i]]);
    }
    MatchesOnce(ledger, stored, rel, origins[rel], Chain(m.root, rel));
  }

  lemma MatchesOnce(ledger: Ledger, stored: map<Path, Listing>, rel: Path, a: seq<Option<Rules>>, b: seq<Option<Rules>>)
    requires Matches(ledger, stored, rel, b)
    ensures Reachable(stored, rel) && (Matches(ledger, stored, rel, a) ==> a == b)
  {
  }

  // ----- what a save leaves -----

  /** What a run does with the directories it walks: relist, or replay. */
  ghost predicate Ran(j: Judge, enters: Path -> bool, ledger: Ledger, m: Moment, stored: map<Path, Listing>, origins: Origins, latest: map<Path, Listing>) {
    && Lists(j, enters, ledger, m, latest)
    && AllTruthful(j, ledger, m.before, stored, origins) && Sure(j, enters, ledger, m.root, stored, origins)
    && forall q :: q in Walked(j, enters, m.root, [], []) ==> Passed(j, ledger, m.before, m.root, stored, latest, q)
  }

  ghost predicate Lists(j: Judge, enters: Path -> bool, ledger: Ledger, m: Moment, latest: map<Path, Listing>) {
    && Lawful(ledger, m.before, m.root) && AllLatest(j, m.before, m.root, latest)
    && latest.Keys <= Walked(j, enters, m.root, [], [])
  }

  lemma SettledListing(j: Judge, t: Tree, rel: Path, layers: seq<Layer>, before: int)
    ensures ListingSettled(ListingNow(j, t, rel, layers), before) <==> NodeSettled(rel, t, before)
  {
  }

  /** A walked directory that is not listed anew, though it could be, is replayed. */
  lemma Replayed(j: Judge, enters: Path -> bool, ledger: Ledger, m: Moment, stored: map<Path, Listing>, origins: Origins, latest: map<Path, Listing>, p: Path)
    requires Ran(j, enters, ledger, m, stored, origins, latest) && p in Walked(j, enters, m.root, [], []) && p !in latest
    requires Here(m.root, p) && NodeSettled(p, NodeOf(m.root, p), m.before)
    ensures p in stored && Matches(ledger, stored, p, Chain(m.root, p)) && p in origins && origins[p] == Chain(m.root, p)
    ensures Known(ledger, stored[p].rules) == Own(p, NodeOf(m.root, p))
  {
    hide Walked, Chain, NodeAt, LayersOf, Kept, Lawful, AllLatest, Matches;
    var t := NodeOf(m.root, p);
    ChainAt(m.root, p, 0);
    SettledListing(j, t, p, LayersOf(p, Chain(m.root, p)), m.before);
    assert Passed(j, ledger, m.before, m.root, stored, latest, p);
    LawfulAt(ledger, m.before, m.root, p);
    ReplayIsCurrent(j, ledger, m.before, stored, origins, t, p, Chain(m.root, p));
  }

  ghost function MadeNow(made: map<Path, nat>, latest: map<Path, Listing>, now: nat): map<Path, nat> {
    map rel | rel in made.Keys + latest.Keys :: if rel in latest then now else made[rel]
  }

  /** What is stored for a walked directory after the save is what is there, or was too new to remember. */
  lemma SavedRules(j: Judge, enters: Path -> bool, ledger: Ledger, h: seq<Moment>, m: Moment, stored: map<Path, Listing>, origins: Origins, latest: map<Path, Listing>,
                   saved: Listing, a: nat, p: Path)
    requires Ran(j, enters, ledger, m, stored, origins, latest) && p in Walked(j, enters, m.root, [], []) && Here(m.root, p)
    requires if p in latest then saved == latest[p] else p in stored && saved == stored[p] && a < |h|
    requires !Outdated(ledger, h + [m], p, saved, a)
    ensures Known(ledger, saved.rules) == Own(p, NodeOf(m.root, p))
  {
    hide Walked, Chain, NodeAt, LayersOf, Kept, Lawful, Passed, Sure, AllTruthful, Matches;
    var t := NodeOf(m.root, p);
    if p in latest {
      assert Latest(j, m.before, m.root, p, latest[p]);
      LatestIsTruthful(j, ledger, m.before, m.root, p, latest[p]);
    } else if NodeSettled(p, t, m.before) {
      Replayed(j, enters, ledger, m, stored, origins, latest, p);
    } else {
      assert (h + [m])[|h|] == m;
    }
  }

  /** Whatever is above, as it is saved. */
  ghost predicate SavedAbove(ledger: Ledger, root: Tree, saved: map<Path, Listing>, rel: Path, n: nat)
    requires n <= |rel|
  {
    forall k :: 0 <= k < n ==> rel[..k] in saved && Known(ledger, saved[rel[..k]].rules) == RulesAt(root, rel[..k])
  }

  /** A stored directory that is there, and not barred by what is saved above it, is walked. */
  lemma {:induction false} StillWalked(j: Judge, enters: Path -> bool, ledger: Ledger, root: Tree, saved: map<Path, Listing>, rel: Path, i: nat)
    requires Here(root, rel) && i <= |rel| && Reachable(saved, rel) && !Barred(j, ledger, saved, rel)
    requires forall k :: 0 < k <= |rel| ==> enters(rel[..k])
    requires forall k :: 0 <= k < |rel| && rel[..k] in Walked(j, enters, root, [], []) ==> Known(ledger, saved[rel[..k]].rules) == RulesAt(root, rel[..k])
    ensures rel[..i] in Walked(j, enters, root, [], []) && SavedAbove(ledger, root, saved, rel, i)
    decreases i
  {
    hide Walked, Chain, NodeAt, Out, ListingNow, LayersOf, Known, RulesAt;
    if i == 0 {
      RootIsWalked(j, enters, root);
      assert rel[..0] == [];
    } else {
      StillWalked(j, enters, ledger, root, saved, rel, i - 1);
      var p, c := rel[..i - 1], rel[..i];
      assert c == p + [rel[i - 1]];
      forall k | 0 <= k < i ensures c[..k] == rel[..k] {
      }
      SameAbove(ledger, root, saved, c);
      assert !Out(j, c, StoredChain(ledger, saved, c));
      NextWalked(j, enters, root, rel, i - 1);
    }
  }

  lemma NextWalked(j: Judge, enters: Path -> bool, root: Tree, rel: Path, i: nat)
    requires Here(root, rel) && i < |rel| && rel[..i] in Walked(j, enters, root, [], []) && enters(rel[..i + 1])
    requires |Chain(root, rel[..i + 1])| == i + 1 && !Out(j, rel[..i + 1], Chain(root, rel[..i + 1]))
    ensures rel[..i + 1] in Walked(j, enters, root, [], [])
  {
    hide Walked, Chain, NodeAt, Out, ListingNow, LayersOf;
    var p, name := rel[..i], rel[i];
    var u := NodeAt(root, p).value;
    assert rel[..i + 1] == p + [name] && rel[..|rel|] == rel;
    WalkedPrefix(j, enters, root, p, |p|);
    assert p[..|p|] == p;
    ListedUnlessOut(j, root, p, u, name);
    WalkedNext(j, enters, root, p, u, name);
  }

  /** A listing saved before, and not anew, stays. */
  lemma OldStays(j: Judge, enters: Path -> bool, ledger: Ledger, h: seq<Moment>, m: Moment, stored: map<Path, Listing>, origins: Origins, made: map<Path, nat>,
                 base: map<Path, Listing>, latest: map<Path, Listing>, rel: Path)
    requires Ran(j, enters, ledger, m, stored, origins, latest) && AllStay(j, enters, ledger, h, stored, origins, made)
    requires (forall q :: q in base ==> q in stored && base[q] == stored[q]) && rel in base && rel !in latest
    ensures Stays(j, ledger, h + [m], base + latest, origins + Chains(m.root, latest), MadeNow(made, latest, |h|), rel)
  {
    hide Walked, Chain, NodeAt, Passed, Lawful, AllLatest, AllTruthful, Barred, Fits, Known, RulesAt, Own;
    var saved, after, all := base + latest, MadeNow(made, latest, |h|), h + [m];
    assert MadeAt(ledger, enters, h, rel, stored[rel], origins[rel], made[rel]);
    if Reachable(saved, rel) && !Barred(j, ledger, saved, rel) && !Lost(all, rel, saved[rel], after[rel])
       && forall i :: 0 <= i < |rel| ==> !OutdatedIn(ledger, all, saved, after, rel[..i]) {
      assert all[|h|] == m;
      assert Here(m.root, rel) && Fits(NodeOf(m.root, rel), stored[rel]);
      forall k | 0 <= k < |rel| && rel[..k] in Walked(j, enters, m.root, [], [])
        ensures Known(ledger, saved[rel[..k]].rules) == RulesAt(m.root, rel[..k])
      {
        AboveIsSaved(j, enters, ledger, h, m, stored, origins, made, base, latest, rel, k);
      }
      StillWalked(j, enters, ledger, m.root, saved, rel, |rel|);
      assert rel[..|rel|] == rel;
      OldIsReplayed(j, enters, ledger, m, stored, origins, latest, rel);
      SavedMatches(ledger, m.root, saved, rel);
    }
  }

  lemma AboveIsSaved(j: Judge, enters: Path -> bool, ledger: Ledger, h: seq<Moment>, m: Moment, stored: map<Path, Listing>, origins: Origins, made: map<Path, nat>,
                     base: map<Path, Listing>, latest: map<Path, Listing>, rel: Path, k: nat)
    requires Ran(j, enters, ledger, m, stored, origins, latest) && AllStay(j, enters, ledger, h, stored, origins, made)
    requires forall q :: q in base ==> q in stored && base[q] == stored[q]
    requires Open(m.root, rel) && k < |rel| && rel[..k] in Walked(j, enters, m.root, [], []) && rel[..k] in base + latest
    requires !OutdatedIn(ledger, h + [m], base + latest, MadeNow(made, latest, |h|), rel[..k])
    ensures Known(ledger, (base + latest)[rel[..k]].rules) == RulesAt(m.root, rel[..k])
  {
    hide Walked, Chain, NodeAt, Passed, Lawful, AllLatest, AllTruthful, Known, Ran, Outdated, Stays;
    var p := rel[..k];
    assert p[..|p|] == p;
    WalkedPrefix(j, enters, m.root, p, |p|);
    var a := MadeNow(made, latest, |h|)[p];
    if p !in latest {
      assert MadeAt(ledger, enters, h, p, stored[p], origins[p], made[p]);
    }
    SavedRules(j, enters, ledger, h, m, stored, origins, latest, (base + latest)[p], a, p);
  }

  lemma OldIsReplayed(j: Judge, enters: Path -> bool, ledger: Ledger, m: Moment, stored: map<Path, Listing>, origins: Origins, latest: map<Path, Listing>, rel: Path)
    requires Ran(j, enters, ledger, m, stored, origins, latest) && rel in Walked(j, enters, m.root, [], []) && rel !in latest
    requires rel in stored && Here(m.root, rel) && Fits(NodeOf(m.root, rel), stored[rel])
    ensures rel in origins && origins[rel] == Chain(m.root, rel)
  {
    hide Walked, Chain, NodeAt, Passed, AllLatest;
    LawfulAt(ledger, m.before, m.root, rel);
    assert Truthful(j, ledger, m.before, rel, stored[rel], origins[rel]);
    assert NodeSettled(rel, NodeOf(m.root, rel), m.before);
    Replayed(j, enters, ledger, m, stored, origins, latest, rel);
  }

  lemma SavedMatches(ledger: Ledger, root: Tree, saved: map<Path, Listing>, rel: Path)
    requires SavedAbove(ledger, root, saved, rel, |rel|)
    ensures Matches(ledger, saved, rel, Chain(root, rel))
  {
    hide Known, RulesAt, Chain;
    ChainAt(root, rel, 0);
    forall i | 0 <= i < |rel| ensures Known(ledger, saved[rel[..i]].rules) == Chain(root, rel)[i] {
      ChainAt(root, rel, i);
    }
  }

  /** A listing made in this run stays. */
  lemma NewStays(j: Judge, enters: Path -> bool, ledger: Ledger, h: seq<Moment>, m: Moment, stored: map<Path, Listing>, origins: Origins, made: map<Path, nat>,
                 base: map<Path, Listing>, latest: map<Path, Listing>, rel: Path)
    requires Ran(j, enters, ledger, m, stored, origins, latest) && AllStay(j, enters, ledger, h, stored, origins, made)
    requires (forall q :: q in base ==> q in stored && base[q] == stored[q]) && rel in latest
    ensures Stays(j, ledger, h + [m], base + latest, origins + Chains(m.root, latest), MadeNow(made, latest, |h|), rel)
  {
    hide Walked, Chain, NodeAt, Passed, Lawful, AllTruthful, Barred, Known, RulesAt, Latest, Open;
    var saved, after, all := base + latest, MadeNow(made, latest, |h|), h + [m];
    WalkedPrefix(j, enters, m.root, rel, |rel|);
    assert rel[..|rel|] == rel;
    if Reachable(saved, rel) && forall i :: 0 <= i < |rel| ==> !OutdatedIn(ledger, all, saved, after, rel[..i]) {
      forall k | 0 <= k < |rel| ensures Known(ledger, saved[rel[..k]].rules) == RulesAt(m.root, rel[..k]) {
        WalkedPrefix(j, enters, m.root, rel, k);
        AboveIsSaved(j, enters, ledger, h, m, stored, origins, made, base, latest, rel, k);
      }
      SavedMatches(ledger, m.root, saved, rel);
    }
  }

  lemma MadeStill(ledger: Ledger, enters: Path -> bool, h: seq<Moment>, m: Moment, rel: Path, listing: Listing, origin: seq<Option<Rules>>, a: nat)
    requires MadeAt(ledger, enters, h, rel, listing, origin, a)
    ensures MadeAt(ledger, enters, h + [m], rel, listing, origin, a)
  {
    assert (h + [m])[a] == h[a];
  }

  lemma MadeHere(j: Judge, enters: Path -> bool, ledger: Ledger, h: seq<Moment>, m: Moment, latest: map<Path, Listing>, rel: Path)
    requires Lists(j, enters, ledger, m, latest) && rel in latest
    ensures MadeAt(ledger, enters, h + [m], rel, latest[rel], Chain(m.root, rel), |h|)
  {
    hide Walked, Chain, NodeAt, LayersOf, Kept, Lawful, Out;
    assert (h + [m])[|h|] == m && rel[..|rel|] == rel;
    WalkedPrefix(j, enters, m.root, rel, |rel|);
    assert Latest(j, m.before, m.root, rel, latest[rel]);
    LatestIsTruthful(j, ledger, m.before, m.root, rel, latest[rel]);
    forall i | 0 < i <= |rel| ensures enters(rel[..i]) {
      WalkedPrefix(j, enters, m.root, rel, i);
      WalkedIsIn(j, enters, m.root, rel[..i]);
    }
  }

  /** A save leaves only listings that stay. */
  lemma SaveStays(j: Judge, enters: Path -> bool, ledger: Ledger, h: seq<Moment>, m: Moment, stored: map<Path, Listing>, origins: Origins, made: map<Path, nat>,
                  base: map<Path, Listing>, latest: map<Path, Listing>)
    requires Ran(j, enters, ledger, m, stored, origins, latest) && AllStay(j, enters, ledger, h, stored, origins, made)
    requires forall q :: q in base ==> q in stored && base[q] == stored[q]
    ensures AllStay(j, enters, ledger, h + [m], base + latest, origins + Chains(m.root, latest), MadeNow(made, latest, |h|))
  {
    hide Lists, Passed, Sure, AllTruthful, Walked, Chain, MadeAt, Stays;
    forall rel | rel in base + latest
      ensures MadeAt(ledger, enters, h + [m], rel, (base + latest)[rel], (origins + Chains(m.root, latest))[rel], MadeNow(made, latest, |h|)[rel])
      ensures Stays(j, ledger, h + [m], base + latest, origins + Chains(m.root, latest), MadeNow(made, latest, |h|), rel)
    {
      if rel in latest {
        MadeHere(j, enters, ledger, h, m, latest, rel);
        NewStays(j, enters, ledger, h, m, stored, origins, made, base, latest, rel);
      } else {
        MadeStill(ledger, enters, h, m, rel, stored[rel], origins[rel], made[rel]);
        OldStays(j, enters, ledger, h, m, stored, origins, made, base, latest, rel);
      }
    }
  }

  /** A store made in one run only is coherent. */
  lemma FirstStays(j: Judge, enters: Path -> bool, ledger: Ledger, h: seq<Moment>, m: Moment, origins: Origins, latest: map<Path, Listing>)
    requires Lists(j, enters, ledger, m, latest)
    ensures AllStay(j, enters, ledger, h + [m], latest, origins + Chains(m.root, latest), MadeNow(map[], latest, |h|))
  {
    hide Lists, Chain, MadeAt, Matches, Known, RulesAt, Latest, Lawful, Walked;
    forall rel | rel in latest
      ensures MadeAt(ledger, enters, h + [m], rel, latest[rel], Chain(m.root, rel), |h|)
      ensures Stays(j, ledger, h + [m], latest, origins + Chains(m.root, latest), MadeNow(map[], latest, |h|), rel)
    {
      MadeHere(j, enters, ledger, h, m, latest, rel);
      if Reachable(latest, rel) {
        forall k | 0 <= k < |rel| ensures Known(ledger, latest[rel[..k]].rules) == RulesAt(m.root, rel[..k]) {
          AboveInOneRun(j, enters, ledger, m, latest, rel, k);
        }
        SavedMatches(ledger, m.root, latest, rel);
      }
    }
  }

  lemma AboveInOneRun(j: Judge, enters: Path -> bool, ledger: Ledger, m: Moment, latest: map<Path, Listing>, rel: Path, k: nat)
    requires Lists(j, enters, ledger, m, latest) && rel in latest && k < |rel| && rel[..k] in latest
    ensures Known(ledger, latest[rel[..k]].rules) == RulesAt(m.root, rel[..k])
  {
    hide Walked, Known, RulesAt, Lawful;
    LatestAbove(j, ledger, m.before, m.root, latest, rel[..k], rel);
  }

  lemma SavedAgain(j: Judge, enters: Path -> bool, ledger: Ledger, h: seq<Moment>, m: Moment, stored: Stored, origins: Origins, made: map<Path, nat>,
                   latest: map<Path, Listing>, trusted: bool) returns (after: map<Path, nat>)
    requires Lists(j, enters, ledger, m, latest)
    requires trusted ==> Ran(j, enters, ledger, m, stored.listings, origins, latest) && AllStay(j, enters, ledger, h, stored.listings, origins, made)
    ensures AllStay(j, enters, ledger, h + [m], Base(stored, trusted, |latest|) + latest, origins + Chains(m.root, latest), after)
  {
    hide Lists, Ran, AllStay, Chain;
    if trusted {
      after := MadeNow(made, latest, |h|);
      SaveStays(j, enters, ledger, h, m, stored.listings, origins, made, Base(stored, trusted, |latest|), latest);
    } else {
      after := MadeNow(map[], latest, |h|);
      FirstStays(j, enters, ledger, h, m, origins, latest);
      assert Base(stored, trusted, |latest|) + latest == latest;
    }
  }

  // ----- the runs -----

  /** Settled stamps mean what they always do, those of the rules outside the tree by the time they were written. */
  ghost predicate Trustworthy(ledger: Ledger, m: Moment) {
    && Lawful(ledger, m.before, m.root)
    && (MtimesSettled(m.context, m.before) ==> m.around == ledger.around(m.context))
  }

  ghost predicate AllTrustworthy(ledger: Ledger, h: seq<Moment>) {
    forall i :: 0 <= i < |h| ==> Trustworthy(ledger, h[i])
  }

  /** What the memory has after a history of runs. */
  ghost predicate Remembers(memory: Memory, enters: Path -> bool, h: seq<Moment>, made: map<Path, nat>)
    reads memory
  {
    && memory.StoreValid() && memory.latest == map[]
    && (memory.stored.context.Some? ==>
          AllStay(Judge(memory.engine, memory.ledger.around(memory.stored.context.value)), enters, memory.ledger, h, memory.stored.listings, memory.origins, made))
  }

  lemma NothingStays(j: Judge, enters: Path -> bool, ledger: Ledger, h: seq<Moment>, origins: Origins)
    ensures AllStay(j, enters, ledger, h, map[], origins, map[])
  {
  }

  lemma NothingTruthful(j: Judge, ledger: Ledger, before: int, origins: Origins)
    ensures AllTruthful(j, ledger, before, map[], origins)
  {
  }

  /** One more run of a history. Whatever the history, what the walk saw is true. */
  method RunAgain(memory: Memory, m: Moment, enters: Path -> bool, ghost h: seq<Moment>, ghost made: map<Path, nat>)
    returns (found: seq<Path>, seen: seq<(Path, Sighting)>, ghost after: map<Path, nat>)
    requires memory.settled == m.before
    modifies memory
    ensures memory.settled == m.before
    ensures forall i :: 0 <= i < |seen| ==> SightTrue(m.root, seen[i].0, seen[i].1)
    ensures old(Remembers(memory, enters, h, made) && VouchesRightly(memory.ledger, memory.Replayable(m.context), m.clean, m.root)) ==>
      Trustworthy(memory.ledger, m) && NeverBack(h + [m]) ==>
      && found == FullWalk(Judge(memory.engine, m.around), enters, m.root, [], [])
      && Remembers(memory, enters, h + [m], after)
  {
    hide Lawful, AllLatest, AllTruthful, Walked, FullWalk, ListingAt, Passed, Sure, ContextSettled, MtimesSettled, VouchesRightly, SightTrue, NeverBack, AllStay;
    ghost var ledger, j := memory.ledger, Judge(memory.engine, m.around);
    ghost var was := memory.stored;
    ghost var good := Remembers(memory, enters, h, made) && VouchesRightly(ledger, memory.Replayable(m.context), m.clean, m.root)
      && Trustworthy(ledger, m) && NeverBack(h + [m]);
    if ContextSettled(m.context, m.before) {
      SettledMtimes(m.context, m.before);
    }
    if good && was.context == Some(m.context) && ContextSettled(m.context, m.before) {
      StillSure(j, enters, ledger, h, m, was.listings, memory.origins, made);
    }
    assert good ==> MayRely(memory, m.context, m.around, m.root, enters, m.clean);
    found, seen := WalkTree(memory, m.context, m.around, m.root, enters, m.clean, Judge(memory.engine, m.around));
    ghost var origins, latest, trusted, used := memory.origins, memory.latest, memory.trusted, memory.stored;
    memory.Save();
    after := map[];
    if good && MtimesSettled(m.context, m.before) {
      after := SavedAgain(j, enters, ledger, h, m, used, origins, made, latest, trusted);
    }
  }

  /**
  Any number of runs with one filter: as long as nothing that was found
  otherwise has come back, each finds what looking at everything would.
  */
  method Runs(engine: Engine, ghost ledger: Ledger, enters: Path -> bool, moments: seq<Moment>) returns (found: seq<seq<Path>>)
    requires forall i, k :: 0 <= i < k < |moments| ==> moments[i].before <= moments[k].before
    requires forall i :: 0 <= i < |moments| ==> AllSightsTrue(moments[i].root, moments[i].clean)
    ensures |found| == |moments|
    ensures forall i :: 0 <= i < |moments| && AllTrustworthy(ledger, moments[..i + 1]) && NeverBack(moments[..i + 1]) ==>
      found[i] == FullWalk(Judge(engine, moments[i].around), enters, moments[i].root, [], [])
  {
    hide Trustworthy, AllTrustworthy, NeverBack, FullWalk, AllSightsTrue, Remembers, VouchesRightly;
    found := [];
    if moments == [] {
      return;
    }
    var memory := new Memory(engine, ledger, moments[0].before);
    NothingRemembered(memory, enters);
    ghost var made := map[];
    for i := 0 to |moments|
      invariant fresh(memory) && memory.engine == engine && memory.ledger == ledger
      invariant memory.settled <= moments[if i < |moments| then i else i - 1].before
      invariant AllTrustworthy(ledger, moments[..i]) && NeverBack(moments[..i]) ==> Remembers(memory, enters, moments[..i], made)
      invariant |found| == i && forall k :: 0 <= k < i && AllTrustworthy(ledger, moments[..k + 1]) && NeverBack(moments[..k + 1]) ==>
        found[k] == FullWalk(Judge(engine, moments[k].around), enters, moments[k].root, [], [])
    {
      var m := moments[i];
      NextRun(memory, m.before, enters, moments[..i], made);
      assert moments[..i + 1] == moments[..i] + [m];
      SoFar(ledger, moments[..i], m);
      TrueSightsVouch(ledger, memory.Replayable(m.context), m.clean, m.root);
      var files, seen;
      files, seen, made := RunAgain(memory, m, enters, moments[..i], made);
      found := found + [files];
    }
  }

  /** Another run begins with what is remembered. */
  method NextRun(memory: Memory, before: int, enters: Path -> bool, ghost h: seq<Moment>, ghost made: map<Path, nat>)
    requires memory.settled <= before
    modifies memory`settled
    ensures memory.settled == before
    ensures old(Remembers(memory, enters, h, made)) ==> Remembers(memory, enters, h, made)
  {
    hide AllStay, AllTruthful;
    memory.NextRun(before);
  }

  lemma NothingRemembered(memory: Memory, enters: Path -> bool)
    requires memory.StoreValid() && memory.stored == Stored(None, map[], {}) && memory.latest == map[]
    ensures Remembers(memory, enters, [], map[])
  {
  }

  /** A longer history asks for no less. */
  lemma SoFar(ledger: Ledger, h: seq<Moment>, m: Moment)
    ensures AllTrustworthy(ledger, h + [m]) <==> AllTrustworthy(ledger, h) && Trustworthy(ledger, m)
    ensures NeverBack(h + [m]) ==> NeverBack(h)
  {
    hide Steady, Trustworthy;
    var all := h + [m];
    assert all[|h|] == m;
    forall i | 0 <= i < |h| ensures all[i] == h[i] {
    }
    if NeverBack(all) {
      forall a, b, c, rel | 0 <= a < b < c < |h| ensures Steady(h[a], h[b], h[c], rel) {
        assert Steady(all[a], all[b], all[c], rel);
      }
    }
  }

  // ----- an ignore file that comes and goes -----

  /** An empty work tree, without an ignore file or with one. */
  function Bare(stamp: Stamp, rules: Option<Rules>): Tree {
    Tree(stamp, false, rules, [], [])
  }

  /** Four runs: the ignore file is there in the third, settled, and gone again in the fourth. */
  function Comes(before: seq<int>, first: Stamp, written: Stamp, removed: Stamp, text: nat, c: Context, around: Around): seq<Moment>
    requires |before| == 4
  {
    var rules := Some(Rules(written, text));
    [Moment(before[0], c, around, Bare(first, None), map[]), Moment(before[1], c, around, Bare(first, None), map[]),
     Moment(before[2], c, around, Bare(written, rules), map[]), Moment(before[3], c, around, Bare(removed, None), map[])]
  }

  lemma OnlyRoot(stamp: Stamp, rules: Option<Rules>, rel: Path)
    ensures Here(Bare(stamp, rules), rel) <==> rel == []
  {
    var root := Bare(stamp, rules);
    if rel == [] {
      AtRoot(root);
    } else if NodeAt(root, rel).Some? {
      NoneBelow(root, rel);
    }
  }

  lemma {:induction false} NoneBelow(root: Tree, rel: Path)
    requires root.subs == [] && rel != []
    ensures NodeAt(root, rel).None?
    decreases |rel|
  {
    if |rel| > 1 {
      NoneBelow(root, rel[..|rel| - 1]);
    }
  }

  /** Nothing comes back in such a history, whenever the ignore file was made and removed, if the third run finds it settled. */
  lemma ComesAndGoes(before: seq<int>, first: Stamp, written: Stamp, removed: Stamp, text: nat, c: Context, ledger: Ledger)
    requires |before| == 4 && IsSettled(written, before[2]) && first != removed
    requires ledger.raw(first) == ledger.raw(removed) == Raw(false, false, [], []) && ledger.raw(written) == Raw(false, true, [], [])
    requires ledger.text(written) == text
    ensures var h := Comes(before, first, written, removed, text, c, ledger.around(c)); AllTrustworthy(ledger, h) && NeverBack(h)
  {
    var h := Comes(before, first, written, removed, text, c, ledger.around(c));
    forall i, k, n, rel | 0 <= i < k < n < |h| ensures Steady(h[i], h[k], h[n], rel) {
      OnlyRoot(first, None, rel);
      OnlyRoot(written, Some(Rules(written, text)), rel);
      OnlyRoot(removed, None, rel);
      if rel == [] {
        assert forall m :: m in h ==> NodeOf(m.root, []) == m.root;
      }
    }
  }
}
