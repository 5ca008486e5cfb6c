/**
What discovery remembers between runs. A stored listing was made under the
ignore files of the directories above it at that time; it may stand for a new
one only below directories whose stored rules are those ones still.
*/
module Memories {
  import opened Options
  import opened Sightings
  import opened Listings

  /** Past this many listings, a save keeps only the ones the run used. */
  const BUDGET: nat := 100_000

  /** The rules outside the tree: `info/exclude` and the global excludes file, with their stamps. */
  datatype Context = Context(ignoreCase: bool, files: seq<Option<Stamp>>)

  datatype Stored = Stored(context: Option<Context>, listings: map<Path, Listing>, used: set<Path>)

  /**
  What stamps stand for once they are settled: a directory's content, an ignore
  file's text, and the rules outside the tree.
  */
  datatype Ledger = Ledger(raw: Stamp -> Raw, text: Stamp -> nat, around: Context -> Around)

  predicate ContextSettled(context: Context, before: int) {
    forall i :: 0 <= i < |context.files| && context.files[i].Some? ==> IsSettled(context.files[i].value, before)
  }

  /** A work tree in which settled stamps mean what they always do. */
  ghost predicate Lawful(ledger: Ledger, before: int, t: Tree)
    decreases t
  {
    && (IsSettled(t.stamp, before) ==> RawOf(t) == ledger.raw(t.stamp))
    && (t.rules.Some? && IsSettled(t.rules.value.stamp, before) ==> t.rules.value.text == ledger.text(t.rules.value.stamp))
    && forall i :: 0 <= i < |t.subs| ==> Lawful(ledger, before, t.subs[i].tree)
  }

  // ----- where a listing is, and what is above it -----

  function NodeAt(root: Tree, rel: Path): Option<Tree>
    decreases |rel|
  {
    if rel == [] then Some(root) else
      match NodeAt(root, rel[..|rel| - 1])
      case None => None
      case Some(parent) => Find(parent.subs, rel[|rel| - 1])
  }

  function RulesAt(root: Tree, rel: Path): Option<Rules> {
    match NodeAt(root, rel)
    case None => None
    case Some(t) => t.rules
  }

  /** The ignore files of the directories above `rel`, from the root's down. */
  function Chain(root: Tree, rel: Path): seq<Option<Rules>>
    decreases |rel|
  {
    if rel == [] then [] else Chain(root, rel[..|rel| - 1]) + [RulesAt(root, rel[..|rel| - 1])]
  }

  lemma {:induction false} ChainAt(root: Tree, rel: Path, i: nat)
    ensures |Chain(root, rel)| == |rel|
    ensures i < |rel| ==> Chain(root, rel)[i] == RulesAt(root, rel[..i])
    decreases |rel|
  {
    if rel != [] {
      var parent := rel[..|rel| - 1];
      ChainAt(root, parent, i);
      assert i < |parent| ==> parent[..i] == rel[..i];
    }
  }

  function LayersOf(rel: Path, chain: seq<Option<Rules>>): seq<Layer>
    requires |chain| <= |rel| + 1
    decreases |chain|
  {
    if chain == [] then [] else
      LayersOf(rel, chain[..|chain| - 1]) + OwnLayer(rel[..|chain| - 1], chain[|chain| - 1])
  }

  /** An ignore file whose stamp has settled. */
  function Known(ledger: Ledger, rules: Option<Stamp>): Option<Rules> {
    match rules
    case None => None
    case Some(stamp) => Some(Rules(stamp, ledger.text(stamp)))
  }

  /** The ignore files that were above each stored path when it was listed. */
  type Origins = map<Path, seq<Option<Rules>>>

  predicate ListingSettled(listing: Listing, before: int) {
    IsSettled(listing.stamp, before) && (listing.rules.Some? ==> IsSettled(listing.rules.value, before))
  }

  /** A listing is what its directory yields under the rules it was made with. */
  ghost predicate Truthful(j: Judge, ledger: Ledger, before: int, rel: Path, listing: Listing, origin: seq<Option<Rules>>) {
    && |origin| == |rel| && ListingSettled(listing, before)
    && listing == Listed(j, rel, listing.stamp, ledger.raw(listing.stamp), listing.rules,
                         LayersOf(rel, origin) + OwnLayer(rel, Known(ledger, listing.rules)))
    && (!listing.nested || rel == [] ==> (listing.rules.Some? <==> ledger.raw(listing.stamp).hasRules))
  }

  ghost predicate AllTruthful(j: Judge, ledger: Ledger, before: int, listings: map<Path, Listing>, origins: Origins) {
    forall rel :: rel in listings ==> rel in origins && Truthful(j, ledger, before, rel, listings[rel], origins[rel])
  }

  /** Every directory above `rel` is stored. */
  predicate Reachable(listings: map<Path, Listing>, rel: Path) {
    forall i :: 0 <= i < |rel| ==> rel[..i] in listings
  }

  /** The ignore files stored for the directories above `rel` are those of `chain`. */
  ghost predicate Matches(ledger: Ledger, listings: map<Path, Listing>, rel: Path, chain: seq<Option<Rules>>) {
    && |chain| == |rel| && Reachable(listings, rel)
    && forall i :: 0 <= i < |rel| ==> Known(ledger, listings[rel[..i]].rules) == chain[i]
  }

  /** Wherever everything above a listing is stored, the rules stored there are the ones it was made under. */
  ghost predicate Coherent(ledger: Ledger, listings: map<Path, Listing>, origins: Origins) {
    forall rel :: rel in listings && rel in origins && Reachable(listings, rel) ==> Matches(ledger, listings, rel, origins[rel])
  }

  // ----- replaying -----

  lemma {:induction false} LawfulAt(ledger: Ledger, before: int, root: Tree, rel: Path)
    requires Lawful(ledger, before, root)
    ensures NodeAt(root, rel).Some? ==> Lawful(ledger, before, NodeAt(root, rel).value)
    decreases |rel|
  {
    if rel != [] {
      LawfulAt(ledger, before, root, rel[..|rel| - 1]);
    }
  }

  lemma LayersBelow(rel: Path, name: string, chain: seq<Option<Rules>>, own: Option<Rules>)
    requires |chain| == |rel|
    ensures LayersOf(rel + [name], chain + [own]) == LayersOf(rel, chain) + OwnLayer(rel, own)
  {
    assert (chain + [own])[..|chain|] == chain && (rel + [name])[..|rel|] == rel;
    LayersPrefix(rel, name, chain);
  }

  lemma {:induction false} LayersPrefix(rel: Path, name: string, chain: seq<Option<Rules>>)
    requires |chain| <= |rel|
    ensures LayersOf(rel + [name], chain) == LayersOf(rel, chain)
    decreases |chain|
  {
    if chain != [] {
      LayersPrefix(rel, name, chain[..|chain| - 1]);
      assert (rel + [name])[..|chain| - 1] == rel[..|chain| - 1];
    }
  }

  /**
  A stored listing, with the stamps the directory and its ignore file have now
  and made under the ignore files that are above it now, is what listing the
  directory now would yield.
  */
  lemma ReplayIsCurrent(j: Judge, ledger: Ledger, before: int, listings: map<Path, Listing>, origins: Origins, t: Tree, rel: Path, chain: seq<Option<Rules>>)
    requires AllTruthful(j, ledger, before, listings, origins) && Lawful(ledger, before, t)
    requires rel in listings && rel in origins && origins[rel] == chain
    requires listings[rel].stamp == t.stamp && (listings[rel].rules.Some? ==> RulesStamp(t) == listings[rel].rules)
    ensures |chain| == |rel| && listings[rel] == ListingNow(j, t, rel, LayersOf(rel, chain))
    ensures !listings[rel].nested || rel == [] ==> Known(ledger, listings[rel].rules) == t.rules
    ensures ListingSettled(listings[rel], before)
  {
    var listing := listings[rel];
    assert Truthful(j, ledger, before, rel, listing, origins[rel]);
    assert RawOf(t) == ledger.raw(t.stamp);
  }

  /** Below directories whose stored rules are theirs now, a coherent store's listing was made under those. */
  lemma CoherentOrigin(ledger: Ledger, listings: map<Path, Listing>, origins: Origins, rel: Path, chain: seq<Option<Rules>>)
    requires Coherent(ledger, listings, origins) && rel in listings && rel in origins && Matches(ledger, listings, rel, chain)
    ensures origins[rel] == chain
  {
    assert Matches(ledger, listings, rel, origins[rel]);
  }

  // ----- saving -----

  /** No directory above `rel` is a nested repository, which a walk does not go into. */
  ghost predicate Open(root: Tree, rel: Path) {
    forall i :: 0 <= i < |rel| ==> NodeAt(root, rel[..i]).Some? && (!NodeAt(root, rel[..i]).value.nested || i == 0)
  }

  /** A listing this run made, of a directory that had settled. */
  ghost predicate Latest(j: Judge, before: int, root: Tree, rel: Path, listing: Listing) {
    && NodeAt(root, rel).Some? && Open(root, rel) && ListingSettled(listing, before)
    && |Chain(root, rel)| <= |rel| + 1
    && listing == ListingNow(j, NodeAt(root, rel).value, rel, LayersOf(rel, Chain(root, rel)))
  }

  ghost predicate AllLatest(j: Judge, before: int, root: Tree, latest: map<Path, Listing>) {
    forall rel :: rel in latest ==> Latest(j, before, root, rel, latest[rel])
  }

  lemma LatestIsTruthful(j: Judge, ledger: Ledger, before: int, root: Tree, rel: Path, listing: Listing)
    requires Lawful(ledger, before, root) && Latest(j, before, root, rel, listing)
    ensures Truthful(j, ledger, before, rel, listing, Chain(root, rel))
    ensures !listing.nested || rel == [] ==> Known(ledger, listing.rules) == RulesAt(root, rel)
  {
    LawfulAt(ledger, before, root, rel);
    ChainAt(root, rel, 0);
  }

  ghost function Chains(root: Tree, latest: map<Path, Listing>): Origins {
    map rel | rel in latest :: Chain(root, rel)
  }

  ghost predicate PrefixClosed(listings: map<Path, Listing>) {
    forall rel :: rel in listings ==> Reachable(listings, rel)
  }

  /** Everything stored below a directory whose rules changed was listed again. */
  ghost predicate Relisted(stored: map<Path, Listing>, latest: map<Path, Listing>) {
    forall p, rel :: p in latest && rel in stored && p < rel && (p in stored ==> latest[p].rules != stored[p].rules) ==> rel in latest
  }

  /** Nothing was stored below a directory that was not, while older rules are stored for it. */
  ghost predicate UpToDate(ledger: Ledger, root: Tree, stored: map<Path, Listing>, latest: map<Path, Listing>) {
    forall p, rel :: rel in latest && p < rel && p !in latest && p in stored ==> Known(ledger, stored[p].rules) == RulesAt(root, p)
  }

  lemma LatestAbove(j: Judge, ledger: Ledger, before: int, root: Tree, latest: map<Path, Listing>, p: Path, rel: Path)
    requires Lawful(ledger, before, root) && AllLatest(j, before, root, latest) && p in latest && rel in latest && p < rel
    ensures Known(ledger, latest[p].rules) == RulesAt(root, p)
  {
    assert Latest(j, before, root, rel, latest[rel]) && Latest(j, before, root, p, latest[p]);
    assert rel[..|p|] == p;
    LatestIsTruthful(j, ledger, before, root, p, latest[p]);
  }

  /** A run that lists again what lies below changed rules, and stores what it lists from, keeps the store coherent. */
  lemma SaveKeepsCoherence(j: Judge, ledger: Ledger, before: int, root: Tree, stored: map<Path, Listing>, origins: Origins, latest: map<Path, Listing>)
    requires Lawful(ledger, before, root) && AllLatest(j, before, root, latest)
    requires Coherent(ledger, stored, origins) && stored.Keys <= origins.Keys
    requires Relisted(stored, latest) && UpToDate(ledger, root, stored, latest)
    ensures Coherent(ledger, stored + latest, origins + Chains(root, latest))
  {
    var s, o := stored + latest, origins + Chains(root, latest);
    forall rel | rel in s && rel in o && Reachable(s, rel) ensures Matches(ledger, s, rel, o[rel]) {
      if rel in latest {
        ChainAt(root, rel, 0);
        forall i | 0 <= i < |rel| ensures Known(ledger, s[rel[..i]].rules) == o[rel][i] {
          var p := rel[..i];
          ChainAt(root, rel, i);
          if p in latest {
            LatestAbove(j, ledger, before, root, latest, p, rel);
          } else {
            assert p in s;
          }
        }
      } else {
        KeptIsReachable(stored, latest, rel);
        assert Matches(ledger, stored, rel, origins[rel]);
        forall i | 0 <= i < |rel| ensures Known(ledger, s[rel[..i]].rules) == o[rel][i] {
          var p := rel[..i];
          assert p < rel && p in stored;
        }
      }
    }
  }

  lemma KeptIsReachable(stored: map<Path, Listing>, latest: map<Path, Listing>, rel: Path)
    requires rel in stored && rel !in latest && Relisted(stored, latest) && Reachable(stored + latest, rel)
    ensures Reachable(stored, rel)
  {
    forall i | 0 <= i < |rel| ensures rel[..i] in stored {
      var p := rel[..i];
      assert p in stored + latest && p < rel;
    }
  }

  /** And when every stored path has its directories stored too, only such a run does. */
  lemma SavedIsCoherentIff(j: Judge, ledger: Ledger, before: int, root: Tree, stored: map<Path, Listing>, origins: Origins, latest: map<Path, Listing>)
    requires Lawful(ledger, before, root) && AllLatest(j, before, root, latest)
    requires Coherent(ledger, stored, origins) && stored.Keys <= origins.Keys
    requires PrefixClosed(stored) && PrefixClosed(stored + latest)
    ensures Coherent(ledger, stored + latest, origins + Chains(root, latest)) <==> Relisted(stored, latest) && UpToDate(ledger, root, stored, latest)
  {
    hide Matches, Known, RulesAt, Reachable, Lawful, AllLatest;
    var s, o := stored + latest, origins + Chains(root, latest);
    if Relisted(stored, latest) && UpToDate(ledger, root, stored, latest) {
      SaveKeepsCoherence(j, ledger, before, root, stored, origins, latest);
    }
    if Coherent(ledger, s, o) {
      forall p, rel | p in latest && rel in stored && p < rel && (p in stored ==> latest[p].rules != stored[p].rules) ensures rel in latest {
        CoherentIsRelisted(ledger, root, stored, origins, latest, p, rel);
      }
      forall p, rel | rel in latest && p < rel && p !in latest && p in stored ensures Known(ledger, stored[p].rules) == RulesAt(root, p) {
        CoherentIsUpToDate(ledger, root, stored, origins, latest, p, rel);
      }
    }
  }

  lemma CoherentIsRelisted(ledger: Ledger, root: Tree, stored: map<Path, Listing>, origins: Origins, latest: map<Path, Listing>, p: Path, rel: Path)
    requires Coherent(ledger, stored, origins) && Coherent(ledger, stored + latest, origins + Chains(root, latest))
    requires stored.Keys <= origins.Keys && Reachable(stored, rel)
    requires p in latest && rel in stored && p < rel && (p in stored ==> latest[p].rules != stored[p].rules)
    ensures rel in latest
  {
    var s, o := stored + latest, origins + Chains(root, latest);
    assert rel[..|p|] == p;
    assert Matches(ledger, stored, rel, origins[rel]);
    assert Reachable(s, rel);
    assert Matches(ledger, s, rel, o[rel]);
    assert Known(ledger, s[p].rules) == o[rel][|p|];
  }

  lemma CoherentIsUpToDate(ledger: Ledger, root: Tree, stored: map<Path, Listing>, origins: Origins, latest: map<Path, Listing>, p: Path, rel: Path)
    requires Coherent(ledger, stored + latest, origins + Chains(root, latest)) && Reachable(stored + latest, rel)
    requires rel in latest && p < rel && p !in latest && p in stored
    ensures Known(ledger, stored[p].rules) == RulesAt(root, p)
  {
    var s, o := stored + latest, origins + Chains(root, latest);
    assert rel[..|p|] == p;
    assert Matches(ledger, s, rel, o[rel]);
    ChainAt(root, rel, |p|);
  }

  /** Dropping listings keeps what is left coherent. */
  lemma FewerIsCoherent(ledger: Ledger, stored: map<Path, Listing>, origins: Origins, fewer: map<Path, Listing>)
    requires Coherent(ledger, stored, origins)
    requires forall rel :: rel in fewer ==> rel in stored && stored[rel] == fewer[rel]
    ensures Coherent(ledger, fewer, origins)
  {
    forall rel | rel in fewer && rel in origins && Reachable(fewer, rel) ensures Matches(ledger, fewer, rel, origins[rel]) {
      assert Reachable(stored, rel);
      assert Matches(ledger, stored, rel, origins[rel]);
    }
  }

  // ----- the memory -----

  /** Whether a save keeps what was listed: the rules outside the tree were not just written. */
  predicate MtimesSettled(context: Context, before: int) {
    forall i :: 0 <= i < |context.files| && context.files[i].Some? ==> context.files[i].value.mtime < before
  }

  /** The listings a save starts from. */
  function Base(stored: Stored, trusted: bool, latest: nat): map<Path, Listing> {
    if !trusted then map[] else
    if |stored.listings| + latest > BUDGET then map rel | rel in stored.listings && rel in stored.used :: stored.listings[rel]
    else stored.listings
  }

  class Memory {
    const engine: Engine
    ghost const ledger: Ledger

    var settled: int
    var stored: Stored
    /** What this run listed. */
    var latest: map<Path, Listing>
    var context: Option<Context>
    var trusted: bool

    ghost var origins: Origins
    /** What this run finds: the rules outside the tree, and the tree. */
    ghost var around: Around
    ghost var root: Tree

    ghost function Judging(): Judge
      reads this
    {
      Judge(engine, around)
    }

    ghost predicate StoreValid()
      reads this
    {
      match stored.context
      case None => stored.listings == map[]
      case Some(c) => AllTruthful(Judge(engine, ledger.around(c)), ledger, settled, stored.listings, origins)
    }

    ghost predicate StoreCoherent()
      reads this
    {
      Coherent(ledger, stored.listings, origins) && stored.listings.Keys <= origins.Keys
    }

    /** A run has begun. */
    ghost predicate Running()
      reads this
    {
      && StoreValid() && context.Some? && Lawful(ledger, settled, root)
      && (ContextSettled(context.value, settled) ==> around == ledger.around(context.value))
      && (trusted ==> stored.context == context && ContextSettled(context.value, settled))
      && AllLatest(Judging(), settled, root, latest)
    }

    constructor (engine: Engine, ghost ledger: Ledger, settled: int)
      ensures StoreValid() && StoreCoherent() && stored == Stored(None, map[], {}) && latest == map[] && context == None
      ensures this.engine == engine && this.ledger == ledger && this.settled == settled && !trusted
    {
      this.engine, this.ledger, this.settled := engine, ledger, settled;
      stored, latest, context, trusted, origins := Stored(None, map[], {}), map[], None, false, map[];
    }

    /** Begin another run, later than the last. */
    method NextRun(before: int)
      requires before >= settled
      modifies this`settled
      ensures settled == before && (old(StoreValid()) ==> StoreValid())
    {
      ghost var valid := StoreValid();
      settled := before;
      if valid && stored.context.Some? {
        forall rel | rel in stored.listings
          ensures Truthful(Judge(engine, ledger.around(stored.context.value)), ledger, settled, rel, stored.listings[rel], origins[rel])
        {
          assert rel in origins;
        }
      }
    }

    /** What a run finds is as its stamps say, once these are settled. */
    ghost predicate Finds(c: Context, around: Around, root: Tree)
      reads this`settled
    {
      Lawful(ledger, settled, root) && (ContextSettled(c, settled) ==> around == ledger.around(c))
    }

    /** Settle the rules this run filters by. */
    method Begin(c: Context, ghost around: Around, ghost root: Tree) returns (trusts: bool)
      modifies this`context, this`trusted, this`around, this`root
      ensures trusts == trusted && context == Some(c) && this.around == around && this.root == root
      ensures trusts <==> stored.context == Some(c) && ContextSettled(c, settled)
      ensures StoreValid() && latest == map[] && Finds(c, around, root) ==> Running()
    {
      context, this.around, this.root := Some(c), around, root;
      trusted := stored.context == Some(c) && ContextSettled(c, settled);
      trusts := trusted;
    }

    /** The stored listing of `rel` when it still has `stamp`. */
    method Find(rel: Path, stamp: Stamp) returns (listing: Option<Listing>)
      modifies this`stored
      ensures stored.(used := old(stored.used)) == old(stored)
      ensures listing == if trusted && rel in stored.listings && stored.listings[rel].stamp == stamp then Some(stored.listings[rel]) else None
      ensures stored.used == if listing.Some? then old(stored.used) + {rel} else old(stored.used)
    {
      if !trusted || rel !in stored.listings || stored.listings[rel].stamp != stamp {
        return None;
      }
      stored := stored.(used := stored.used + {rel});
      listing := Some(stored.listings[rel]);
    }

    /** The listings a run under these rules may replay. */
    function Replayable(c: Context): map<Path, Listing>
      reads this
    {
      if stored.context == Some(c) && ContextSettled(c, settled) then stored.listings else map[]
    }

    /** The stored listing of `rel`, whatever its stamp. */
    function Previous(rel: Path): Option<Listing>
      reads this
    {
      if trusted && rel in stored.listings then Some(stored.listings[rel]) else None
    }

    /** Remember `listing` when it and its ignore file have settled. */
    method Remember(rel: Path, listing: Listing)
      modifies this`latest
      ensures old(Running()) && (ListingSettled(listing, settled) ==> Latest(Judging(), settled, root, rel, listing)) ==> Running()
      ensures latest == if ListingSettled(listing, settled) then old(latest)[rel := listing] else old(latest)
    {
      if ListingSettled(listing, settled) {
        latest := latest[rel := listing];
      }
    }

    /**
    Fold this run's listings into the store. Rules outside the tree that were
    just written may change again unseen, so nothing filtered by them is kept.
    */
    method Save()
      modifies this
      ensures settled == old(settled) && latest == map[] && !trusted && context == None
      ensures old(context).None? ==> stored == old(stored) && origins == old(origins)
      ensures old(context).Some? && !MtimesSettled(old(context).value, settled) ==> stored == Stored(None, map[], {})
      ensures old(context).Some? && (exists file :: file in old(context).value.files && file.Some? && file.value.mtime >= settled) ==>
        stored == Stored(None, map[], {})
      ensures old(context).Some? && stored.context.Some? ==> forall rel :: rel in stored.listings <==>
        || rel in old(latest)
        || (old(trusted) && rel in old(stored).listings && (|old(stored).listings| + |old(latest)| > BUDGET ==> rel in old(stored).used))
      ensures old(context).Some? && MtimesSettled(old(context).value, settled) ==>
        && stored == Stored(old(context), Base(old(stored), old(trusted), |old(latest)|) + old(latest), {})
        && origins == old(origins) + Chains(old(root), old(latest))
      ensures old(context.None? && StoreValid()) ==> StoreValid()
      ensures old(context.Some? && Running() && (MtimesSettled(context.value, settled) ==> around == ledger.around(context.value))) ==> StoreValid()
    {
      hide Truthful, Lawful, Latest, Chains, Coherent, ContextSettled;
      ghost var j, r, running := Judging(), root, Running();
      var kept, wasTrusted, c := latest, trusted, context;
      latest, trusted, context := map[], false, None;
      if c.None? {
        return;
      }
      if !MtimesSettled(c.value, settled) {
        stored := Stored(None, map[], {});
        return;
      }
      if running && around == ledger.around(c.value) {
        BaseIsTruthful(j, ledger, settled, stored, origins, wasTrusted, |kept|);
        SavedIsTruthful(j, ledger, settled, r, Base(stored, wasTrusted, |kept|), origins, kept);
      }
      stored := Stored(c, Base(stored, wasTrusted, |kept|) + kept, {});
      origins := origins + Chains(r, kept);
    }
  }

  lemma BaseIsTruthful(j: Judge, ledger: Ledger, before: int, stored: Stored, origins: Origins, trusted: bool, latest: nat)
    requires trusted ==> AllTruthful(j, ledger, before, stored.listings, origins)
    ensures AllTruthful(j, ledger, before, Base(stored, trusted, latest), origins)
  {
    hide Truthful;
  }

  lemma SavedIsTruthful(j: Judge, ledger: Ledger, before: int, root: Tree, base: map<Path, Listing>, origins: Origins, latest: map<Path, Listing>)
    requires AllTruthful(j, ledger, before, base, origins) && AllLatest(j, before, root, latest) && Lawful(ledger, before, root)
    ensures AllTruthful(j, ledger, before, base + latest, origins + Chains(root, latest))
  {
    hide Truthful, Latest, Lawful;
    forall rel | rel in latest ensures Truthful(j, ledger, before, rel, latest[rel], Chain(root, rel)) {
      LatestIsTruthful(j, ledger, before, root, rel, latest[rel]);
    }
  }
}
