/**
The walk under git's rules with a memory: a directory whose stored listing still
stands is not listed again. It finds what the walk that lists everything finds.
*/
module Walks {
  import opened Options
  import opened Sightings
  import opened Listings
  import opened Memories

  ghost predicate SightTrue(root: Tree, rel: Path, s: Sighting) {
    && NodeAt(root, rel).Some? && NodeAt(root, rel).value.stamp == s.stamp
    && (s.rules.Some? ==> RulesStamp(NodeAt(root, rel).value) == s.rules)
  }

  /** A listing has the stamps the directory and its ignore file have now. */
  predicate Fits(t: Tree, listing: Listing) {
    listing.stamp == t.stamp && (listing.rules.Some? ==> RulesStamp(t) == listing.rules)
  }

  /** The watch vouches for the stored listing of `rel`, below directories whose stored rules are the ones there. */
  ghost predicate IsVouched(ledger: Ledger, stored: map<Path, Listing>, clean: map<Path, Sighting>, root: Tree, rel: Path) {
    && rel in clean && rel in stored && stored[rel].stamp == clean[rel].stamp && stored[rel].rules == clean[rel].rules
    && Matches(ledger, stored, rel, Chain(root, rel))
  }

  /** What the watch vouches for is true of the tree. */
  ghost predicate VouchesRightly(ledger: Ledger, stored: map<Path, Listing>, clean: map<Path, Sighting>, root: Tree) {
    forall rel :: IsVouched(ledger, stored, clean, root, rel) && NodeAt(root, rel).Some? ==> SightTrue(root, rel, clean[rel])
  }

  /** All that counts as clean and is there is what was seen of it. */
  ghost predicate AllSightsTrue(root: Tree, clean: map<Path, Sighting>) {
    forall rel :: rel in clean && NodeAt(root, rel).Some? ==> SightTrue(root, rel, clean[rel])
  }

  lemma TrueSightsVouch(ledger: Ledger, stored: map<Path, Listing>, clean: map<Path, Sighting>, root: Tree)
    requires AllSightsTrue(root, clean)
    ensures VouchesRightly(ledger, stored, clean, root)
  {
    hide Matches, Chain, NodeAt, SightTrue;
  }

  /** The directories the full walk lists. */
  function Walked(j: Judge, enters: Path -> bool, t: Tree, rel: Path, layers: seq<Layer>): set<Path>
    decreases t, 1, 0
  {
    var listing := ListingNow(j, t, rel, layers);
    {rel} + if listing.nested && rel != [] then {} else WalkedBelow(j, enters, t, rel, layers + OwnLayer(rel, t.rules), listing.dirs)
  }

  function WalkedBelow(j: Judge, enters: Path -> bool, t: Tree, rel: Path, layers: seq<Layer>, names: seq<string>): set<Path>
    decreases t, 0, |names|
  {
    if names == [] then {} else
      var below :=
        if !enters(rel + [names[0]]) then {} else
        match Find(t.subs, names[0])
        case None => {}
        case Some(sub) => Walked(j, enters, sub, rel + [names[0]], layers);
      below + WalkedBelow(j, enters, t, rel, layers, names[1..])
  }

  /** What is below a walked directory, and not ignored, is walked. */
  lemma {:induction false} WalkedStep(j: Judge, enters: Path -> bool, root: Tree, t: Tree, rel: Path, layers: seq<Layer>, p: Path, u: Tree, name: string)
    requires NodeAt(root, rel) == Some(t) && Open(root, rel) && |Chain(root, rel)| == |rel| && layers == LayersOf(rel, Chain(root, rel))
    requires p in Walked(j, enters, t, rel, layers) && NodeAt(root, p) == Some(u) && |Chain(root, p)| == |p| && (!u.nested || p == [])
    requires name in ListingNow(j, u, p, LayersOf(p, Chain(root, p))).dirs && enters(p + [name]) && Listings.Find(u.subs, name).Some?
    ensures p + [name] in Walked(j, enters, t, rel, layers)
    decreases t, 1, 0
  {
    hide Open, NodeAt, Chain, LayersOf, ListingNow;
    NestedAsIs(j, t, rel, layers);
    if p == rel {
      InBelow(j, enters, t, rel, layers + OwnLayer(rel, t.rules), ListingNow(j, t, rel, layers).dirs, name);
    } else {
      var names := ListingNow(j, t, rel, layers).dirs;
      WalkedBelowStep(j, enters, root, t, rel, layers, names, p, u, name);
    }
  }

  lemma NestedAsIs(j: Judge, t: Tree, rel: Path, layers: seq<Layer>)
    ensures ListingNow(j, t, rel, layers).nested == t.nested
  {
  }

  lemma {:induction false} WalkedBelowStep(j: Judge, enters: Path -> bool, root: Tree, t: Tree, rel: Path, layers: seq<Layer>, names: seq<string>, p: Path, u: Tree, name: string)
    requires NodeAt(root, rel) == Some(t) && Open(root, rel) && |Chain(root, rel)| == |rel| && layers == LayersOf(rel, Chain(root, rel)) && (!t.nested || rel == [])
    requires p in WalkedBelow(j, enters, t, rel, layers + OwnLayer(rel, t.rules), names)
    requires NodeAt(root, p) == Some(u) && |Chain(root, p)| == |p| && (!u.nested || p == [])
    requires name in ListingNow(j, u, p, LayersOf(p, Chain(root, p))).dirs && enters(p + [name]) && Listings.Find(u.subs, name).Some?
    ensures p + [name] in WalkedBelow(j, enters, t, rel, layers + OwnLayer(rel, t.rules), names)
    decreases t, 0, |names|
  {
    hide Open, NodeAt, Chain, LayersOf, ListingNow, Walked;
    var child := rel + [names[0]];
    var sub := Listings.Find(t.subs, names[0]);
    if enters(child) && sub.Some? && p in Walked(j, enters, sub.value, child, layers + OwnLayer(rel, t.rules)) {
      ChildAt(root, rel, t, names[0]);
      WalkedStep(j, enters, root, sub.value, child, layers + OwnLayer(rel, t.rules), p, u, name);
    } else {
      WalkedBelowStep(j, enters, root, t, rel, layers, names[1..], p, u, name);
    }
  }

  lemma {:induction false} InBelow(j: Judge, enters: Path -> bool, t: Tree, rel: Path, layers: seq<Layer>, names: seq<string>, name: string)
    requires name in names && enters(rel + [name]) && Listings.Find(t.subs, name).Some?
    ensures rel + [name] in WalkedBelow(j, enters, t, rel, layers, names)
    decreases |names|
  {
    hide ListingNow;
    if names[0] != name {
      assert name in names[1..];
      InBelow(j, enters, t, rel, layers, names[1..], name);
    }
  }

  lemma WalkedNext(j: Judge, enters: Path -> bool, root: Tree, p: Path, u: Tree, name: string)
    requires p in Walked(j, enters, root, [], []) && NodeAt(root, p) == Some(u) && |Chain(root, p)| == |p| && (!u.nested || p == [])
    requires name in ListingNow(j, u, p, LayersOf(p, Chain(root, p))).dirs && enters(p + [name]) && Listings.Find(u.subs, name).Some?
    ensures p + [name] in Walked(j, enters, root, [], [])
  {
    hide Walked, ListingNow;
    assert LayersOf([], Chain(root, [])) == [];
    WalkedStep(j, enters, root, root, [], [], p, u, name);
  }

  lemma RootIsWalked(j: Judge, enters: Path -> bool, root: Tree)
    ensures [] in Walked(j, enters, root, [], [])
  {
  }

  /** Where stored listings that fit may be replayed, they were made under the ignore files that are there now. */
  ghost predicate Sure(j: Judge, enters: Path -> bool, ledger: Ledger, root: Tree, stored: map<Path, Listing>, origins: Origins) {
    forall rel :: rel in stored && rel in Walked(j, enters, root, [], []) && NodeAt(root, rel).Some?
                  && Fits(NodeAt(root, rel).value, stored[rel]) && Matches(ledger, stored, rel, Chain(root, rel)) ==>
      rel in origins && origins[rel] == Chain(root, rel)
  }

  /** A coherent store is sure whatever the tree and whatever the walk enters. */
  lemma CoherentIsSure(j: Judge, enters: Path -> bool, ledger: Ledger, root: Tree, stored: map<Path, Listing>, origins: Origins)
    requires Coherent(ledger, stored, origins) && stored.Keys <= origins.Keys
    ensures Sure(j, enters, ledger, root, stored, origins)
  {
    hide Coherent, Matches, Walked, Chain, NodeAt, Fits;
    forall rel | rel in stored && Matches(ledger, stored, rel, Chain(root, rel)) ensures rel in origins && origins[rel] == Chain(root, rel) {
      CoherentOrigin(ledger, stored, origins, rel, Chain(root, rel));
    }
  }

  ghost function ListingAt(j: Judge, root: Tree, rel: Path): Listing
    requires NodeAt(root, rel).Some?
  {
    ChainAt(root, rel, 0);
    ListingNow(j, NodeAt(root, rel).value, rel, LayersOf(rel, Chain(root, rel)))
  }

  lemma ChildAt(root: Tree, rel: Path, t: Tree, name: string)
    requires NodeAt(root, rel) == Some(t) && (!t.nested || rel == []) && Open(root, rel)
    ensures NodeAt(root, rel + [name]) == Find(t.subs, name)
    ensures Chain(root, rel + [name]) == Chain(root, rel) + [t.rules]
    ensures Open(root, rel + [name]) && |Chain(root, rel)| == |rel|
    ensures LayersOf(rel + [name], Chain(root, rel + [name])) == LayersOf(rel, Chain(root, rel)) + OwnLayer(rel, t.rules)
  {
    var child := rel + [name];
    assert child[..|child| - 1] == rel;
    ChainAt(root, rel, 0);
    LayersBelow(rel, name, Chain(root, rel), t.rules);
    forall i | 0 <= i < |child| ensures NodeAt(root, child[..i]).Some? && (!NodeAt(root, child[..i]).value.nested || i == 0) {
      assert child[..i] == if i < |rel| then rel[..i] else rel;
    }
  }

  lemma MatchesBelow(ledger: Ledger, listings: map<Path, Listing>, root: Tree, rel: Path, name: string, t: Tree)
    requires NodeAt(root, rel) == Some(t) && (!t.nested || rel == []) && Open(root, rel)
    requires Matches(ledger, listings, rel, Chain(root, rel)) && rel in listings && Known(ledger, listings[rel].rules) == t.rules
    ensures Matches(ledger, listings, rel + [name], Chain(root, rel + [name]))
  {
    hide Chain, LayersOf, NodeAt, Known;
    ChildAt(root, rel, t, name);
    var child, chain := rel + [name], Chain(root, rel + [name]);
    forall i | 0 <= i < |child| ensures child[..i] in listings && Known(ledger, listings[child[..i]].rules) == chain[i] {
      assert child[..i] == if i < |rel| then rel[..i] else rel;
      if i < |rel| {
        assert chain[i] == Chain(root, rel)[i];
      }
    }
  }

  class Walk {
    const j: Judge
    const enters: Path -> bool
    const memory: Memory
    const clean: map<Path, Sighting>

    /** Whether what is remembered, and what the watch vouches for, stand for this tree. */
    ghost const sound: bool

    var found: seq<Path>
    var seen: seq<(Path, Sighting)>

    constructor (j: Judge, enters: Path -> bool, memory: Memory, clean: map<Path, Sighting>, ghost sound: bool)
      ensures this.j == j && this.enters == enters && this.memory == memory && this.clean == clean && found == [] && seen == []
      ensures this.sound == sound
    {
      this.j, this.enters, this.memory, this.clean, this.sound, found, seen := j, enters, memory, clean, sound, [], [];
    }

    /** Whatever is remembered, what was seen is true. */
    ghost predicate Ready()
      reads this`seen, memory
    {
      (sound ==> Stands()) && forall i :: 0 <= i < |seen| ==> SightTrue(memory.root, seen[i].0, seen[i].1)
    }

    ghost predicate Stands()
      reads memory
    {
      && memory.Running() && memory.Judging() == j
      && (memory.trusted ==>
            && Sure(j, enters, memory.ledger, memory.root, memory.stored.listings, memory.origins)
            && VouchesRightly(memory.ledger, memory.stored.listings, clean, memory.root))
    }

    /** Where the walk is. */
    ghost predicate At(t: Tree, rel: Path)
      reads memory`root
    {
      NodeAt(memory.root, rel) == Some(t) && (sound ==> Open(memory.root, rel) && rel in Walked(j, enters, memory.root, [], []))
    }

    /** The layers of a directory, and whether stored listings below it may stand. */
    ghost predicate Under(rel: Path, layers: seq<Layer>, trusted: bool)
      reads memory
    {
      sound ==> |Chain(memory.root, rel)| == |rel| && layers == LayersOf(rel, Chain(memory.root, rel)) && (trusted ==> Trusts(rel))
    }

    /** The same of what is below a directory, its own layer included. */
    ghost predicate Below(t: Tree, rel: Path, layers: seq<Layer>, trusted: bool)
      reads memory
    {
      sound ==>
        && (!t.nested || rel == []) && |Chain(memory.root, rel)| == |rel| && layers == LayersOf(rel, Chain(memory.root, rel)) + OwnLayer(rel, t.rules)
        && (trusted ==> Trusts(rel) && rel in memory.stored.listings && Known(memory.ledger, memory.stored.listings[rel].rules) == t.rules)
    }

    /** Stored listings below `rel` may stand. */
    ghost predicate Trusts(rel: Path)
      reads memory
    {
      memory.trusted && Matches(memory.ledger, memory.stored.listings, rel, Chain(memory.root, rel))
    }

    /** A directory passed is listed anew, or has just changed, or its stored listing was replayed. */
    ghost predicate Handled(rel: Path)
      reads memory
    {
      && NodeAt(memory.root, rel).Some?
      && (rel in memory.latest
          || !ListingSettled(ListingAt(Judge(memory.engine, memory.around), memory.root, rel), memory.settled)
          || (Trusts(rel) && rel in memory.stored.listings && Fits(NodeAt(memory.root, rel).value, memory.stored.listings[rel])))
    }

    twostate predicate Grew()
      reads this, memory
    {
      && memory.stored.listings == old(memory.stored.listings) && memory.stored.context == old(memory.stored.context)
      && old(memory.latest).Keys <= memory.latest.Keys
    }

    /** The stored listing of `rel`, when nothing was reported for it since it was seen so. */
    method Vouched(rel: Path) returns (listing: Option<Listing>)
      requires Ready()
      modifies memory`stored
      ensures Ready() && memory.stored.(used := old(memory.stored.used)) == old(memory.stored)
      ensures listing.Some? ==>
        && rel in clean && rel in memory.stored.listings && listing.value == memory.stored.listings[rel]
        && listing.value.stamp == clean[rel].stamp && listing.value.rules == clean[rel].rules
    {
      hide AllTruthful, Coherent, Lawful, AllLatest, VouchesRightly, SightTrue, Sure;
      if rel !in clean {
        return None;
      }
      listing := memory.Find(rel, clean[rel].stamp);
      if listing.Some? && listing.value.rules != clean[rel].rules {
        listing := None;
      }
    }

    lemma VouchedFits(t: Tree, rel: Path, layers: seq<Layer>, listing: Listing)
      requires sound && Ready() && At(t, rel) && Under(rel, layers, true)
      requires rel in clean && rel in memory.stored.listings && listing == memory.stored.listings[rel]
      requires listing.stamp == clean[rel].stamp && listing.rules == clean[rel].rules
      ensures Fits(t, listing)
    {
      hide AllTruthful, Coherent, Lawful, AllLatest, Matches, Open, Chain, Sure, Walked;
      assert IsVouched(memory.ledger, memory.stored.listings, clean, memory.root, rel);
      assert SightTrue(memory.root, rel, clean[rel]);
    }

    /** A stored listing that may be replayed for `rel`, after what the watch and then the stamps say. */
    method Stored(t: Tree, rel: Path, ghost layers: seq<Layer>, trusted: bool) returns (listing: Option<Listing>)
      requires Ready() && At(t, rel) && Under(rel, layers, trusted)
      modifies this`seen, memory`stored
      ensures Ready() && memory.stored.(used := old(memory.stored.used)) == old(memory.stored)
      ensures listing.Some? ==> trusted && rel in memory.stored.listings && listing.value == memory.stored.listings[rel]
      ensures sound && listing.Some? ==> Fits(t, listing.value)
      ensures sound && trusted && rel in memory.stored.listings && Fits(t, memory.stored.listings[rel]) ==> listing.Some?
    {
      hide AllTruthful, Coherent, Lawful, AllLatest, Matches, Open, Chain, LayersOf, Sure, VouchesRightly, Walked, NodeAt, SightTrue;
      if !trusted {
        return None;
      }
      listing := Vouched(rel);
      if listing.Some? {
        if sound {
          VouchedFits(t, rel, layers, listing.value);
        }
        return;
      }
      listing := memory.Find(rel, t.stamp);
      if listing.Some? && listing.value.rules.Some? && RulesStamp(t) != listing.value.rules {
        return None;
      }
      if listing.Some? {
        Saw(rel, t, listing.value.rules);
      }
    }

    lemma StandsIn(t: Tree, rel: Path, layers: seq<Layer>)
      requires sound && Ready() && At(t, rel) && Under(rel, layers, true) && rel in memory.stored.listings && Fits(t, memory.stored.listings[rel])
      ensures memory.stored.listings[rel] == ListingNow(j, t, rel, layers)
      ensures !memory.stored.listings[rel].nested || rel == [] ==> Known(memory.ledger, memory.stored.listings[rel].rules) == t.rules
    {
      hide Chain, LayersOf, ListingNow, Known, Matches, Lawful, VouchesRightly;
      ChainAt(memory.root, rel, 0);
      LawfulAt(memory.ledger, memory.settled, memory.root, rel);
      assert memory.origins[rel] == Chain(memory.root, rel);
      ReplayIsCurrent(j, memory.ledger, memory.settled, memory.stored.listings, memory.origins, t, rel, Chain(memory.root, rel));
    }

    /** Below a directory whose ignore file is the one stored for it, stored listings may still stand. */
    lemma SameRules(t: Tree, rel: Path, layers: seq<Layer>, listing: Listing)
      requires sound && Ready() && At(t, rel) && Under(rel, layers, true) && rel in memory.stored.listings
      requires listing == ListingNow(j, t, rel, layers) && memory.stored.listings[rel].rules == listing.rules
      ensures !listing.nested || rel == [] ==> Known(memory.ledger, memory.stored.listings[rel].rules) == t.rules
    {
      LawfulAt(memory.ledger, memory.settled, memory.root, rel);
      assert ListingSettled(memory.stored.listings[rel], memory.settled);
    }

    lemma ListedHere(t: Tree, rel: Path, layers: seq<Layer>, listing: Listing)
      requires sound && Ready() && At(t, rel) && Under(rel, layers, false) && listing == ListingNow(j, t, rel, layers)
      ensures ListingSettled(listing, memory.settled) ==> Latest(memory.Judging(), memory.settled, memory.root, rel, listing)
      ensures ListingAt(Judge(memory.engine, memory.around), memory.root, rel) == listing
    {
    }

    lemma ListedRules(t: Tree, rel: Path, layers: seq<Layer>)
      ensures ListingNow(j, t, rel, layers).rules.Some? ==> RulesStamp(t) == ListingNow(j, t, rel, layers).rules
      ensures ListingNow(j, t, rel, layers).nested == t.nested
      ensures !t.nested || rel == [] ==> ListingNow(j, t, rel, layers).rules == RulesStamp(t)
    {
    }

    /** Tell the watch what the walk saw of a directory. */
    method Saw(rel: Path, t: Tree, rules: Option<Stamp>)
      requires Ready() && At(t, rel) && (rules.Some? ==> RulesStamp(t) == rules)
      modifies this`seen
      ensures Ready()
    {
      hide Walk.Stands;
      seen := seen + [(rel, Sighting(t.stamp, rules))];
    }

    /** Record the files in a directory, and go into what is below it. */
    method Visit(t: Tree, rel: Path, layers: seq<Layer>, trusted: bool)
      requires Ready() && At(t, rel) && Under(rel, layers, trusted)
      modifies this`found, this`seen, memory`stored, memory`latest
      ensures Ready() && Grew()
      ensures sound ==> found == old(found) + FullWalk(j, enters, t, rel, layers)
      ensures sound ==> forall q :: q in Walked(j, enters, t, rel, layers) ==> Handled(q)
      ensures sound ==> memory.latest.Keys <= old(memory.latest).Keys + Walked(j, enters, t, rel, layers)
      decreases t, 4
    {
      WalkedHere(t, rel, layers);
      hide Walk.Ready, FullWalk, Walked, Fits, ListingNow, ListingAt, LayersOf, Chain, NodeAt, Matches;
      var stored := Stored(t, rel, layers, trusted);
      if stored.Some? {
        if sound {
          StandsIn(t, rel, layers);
        }
        Replay(t, rel, layers, stored.value, true);
      } else {
        Anew(t, rel, layers, trusted);
      }
    }

    lemma WalkedHere(t: Tree, rel: Path, layers: seq<Layer>)
      ensures rel in Walked(j, enters, t, rel, layers)
    {
    }

    /** List a directory, go into what is below it, and remember the listing. */
    method Anew(t: Tree, rel: Path, layers: seq<Layer>, trusted: bool)
      requires Ready() && At(t, rel) && Under(rel, layers, trusted)
      modifies this`found, this`seen, memory`stored, memory`latest
      ensures Ready() && Grew()
      ensures sound ==> found == old(found) + FullWalk(j, enters, t, rel, layers)
      ensures sound ==> forall q :: q in Walked(j, enters, t, rel, layers) ==> Handled(q)
      ensures sound ==> memory.latest.Keys <= old(memory.latest).Keys + Walked(j, enters, t, rel, layers)
      decreases t, 3
    {
      WalkedHere(t, rel, layers);
      hide Walk.Ready, FullWalk, Walked, Fits, ListingNow, ListingAt, LayersOf, Chain, NodeAt, Matches;
      var listing := List(t, rel, layers);
      ListedRules(t, rel, layers);
      Saw(rel, t, listing.rules);
      var previous := memory.Previous(rel);
      var below := trusted && previous.Some? && previous.value.rules == listing.rules;
      if sound && below {
        SameRules(t, rel, layers, listing);
      }
      Replay(t, rel, layers, listing, below);
      if sound {
        ListedHere(t, rel, layers, listing);
      }
      Remember(rel, listing);
    }

    /** Record a listing's files, and walk its directories. */
    method Replay(t: Tree, rel: Path, layers: seq<Layer>, listing: Listing, trusted: bool)
      requires Ready() && At(t, rel) && Under(rel, layers, trusted)
      requires sound ==> listing == ListingNow(j, t, rel, layers)
      requires sound && trusted && (!listing.nested || rel == []) ==>
        rel in memory.stored.listings && Known(memory.ledger, memory.stored.listings[rel].rules) == t.rules
      modifies this`found, this`seen, memory`stored, memory`latest
      ensures Ready() && Grew()
      ensures sound ==> found == old(found) + FullWalk(j, enters, t, rel, layers)
      ensures sound ==> forall q :: q in Walked(j, enters, t, rel, layers) && q != rel ==> Handled(q)
      ensures sound ==> memory.latest.Keys <= old(memory.latest).Keys + Walked(j, enters, t, rel, layers)
      decreases t, 2
    {
      hide Walk.Ready, ListingNow, ListingAt, LayersOf, Chain, NodeAt, Matches, Files, Known, Open, FullBelow, WalkedBelow;
      if listing.nested && rel != [] {
        return;
      }
      ghost var before := found;
      ListedRules(t, rel, layers);
      var own := layers + if listing.rules.Some? then OwnLayer(rel, t.rules) else [];
      assert sound ==> own == layers + OwnLayer(rel, t.rules);
      found := found + Files(rel, listing.files);
      VisitBelow(t, rel, own, listing.dirs, trusted);
      assert before + (Files(rel, listing.files) + FullBelow(j, enters, t, rel, own, listing.dirs))
          == before + Files(rel, listing.files) + FullBelow(j, enters, t, rel, own, listing.dirs);
    }

    /** Walk the directories `names` of a listing; `layers` include the directory's own. */
    method VisitBelow(t: Tree, rel: Path, layers: seq<Layer>, names: seq<string>, trusted: bool)
      requires Ready() && At(t, rel) && Below(t, rel, layers, trusted)
      requires sound ==> forall name :: name in names ==> name in ListingNow(j, t, rel, LayersOf(rel, Chain(memory.root, rel))).dirs
      modifies this`found, this`seen, memory`stored, memory`latest
      ensures Ready() && Grew()
      ensures sound ==> found == old(found) + FullBelow(j, enters, t, rel, layers, names)
      ensures sound ==> forall q :: q in WalkedBelow(j, enters, t, rel, layers, names) ==> Handled(q)
      ensures sound ==> memory.latest.Keys <= old(memory.latest).Keys + WalkedBelow(j, enters, t, rel, layers, names)
      decreases t, 1
    {
      hide Walk.Ready, Walk.At, Walk.Below, Walk.Handled, ListingAt, LayersOf, Chain, NodeAt, FullWalk, Walked, FullBelow, WalkedBelow;
      ghost var total, dirs := found + FullBelow(j, enters, t, rel, layers, names), WalkedBelow(j, enters, t, rel, layers, names);
      assert names[0..] == names;
      for i := 0 to |names|
        invariant Ready() && Grew() && Below(t, rel, layers, trusted)
        invariant sound ==> found + FullBelow(j, enters, t, rel, layers, names[i..]) == total
        invariant sound ==> forall q :: q in dirs && q !in WalkedBelow(j, enters, t, rel, layers, names[i..]) ==> Handled(q)
        invariant sound ==> memory.latest.Keys <= old(memory.latest).Keys + dirs && WalkedBelow(j, enters, t, rel, layers, names[i..]) <= dirs
      {
        BelowFrom(t, rel, layers, names, i);
        VisitChild(t, rel, layers, names[i], trusted);
      }
      assert names[|names|..] == [];
      NothingBelow(t, rel, layers);
    }

    lemma NothingBelow(t: Tree, rel: Path, layers: seq<Layer>)
      ensures FullBelow(j, enters, t, rel, layers, []) == [] && WalkedBelow(j, enters, t, rel, layers, []) == {}
    {
    }

    method VisitChild(t: Tree, rel: Path, layers: seq<Layer>, name: string, trusted: bool)
      requires Ready() && At(t, rel) && Below(t, rel, layers, trusted)
      requires sound ==> name in ListingNow(j, t, rel, LayersOf(rel, Chain(memory.root, rel))).dirs
      modifies this`found, this`seen, memory`stored, memory`latest
      ensures Ready() && Grew() && Below(t, rel, layers, trusted)
      ensures sound ==> found == old(found) + FullChild(t, rel, layers, name)
      ensures sound ==> forall q :: q in WalkedChild(t, rel, layers, name) ==> Handled(q)
      ensures sound ==> memory.latest.Keys <= old(memory.latest).Keys + WalkedChild(t, rel, layers, name)
      ensures forall q :: old(Handled(q)) ==> Handled(q)
      decreases t, 0
    {
      hide Walk.Ready, ListingAt, LayersOf, Chain, Matches, Known, Open, FullWalk, Walked;
      var child := rel + [name];
      if enters(child) {
        var sub := Listings.Find(t.subs, name);
        if sub.Some? {
          assert child[..|child| - 1] == rel;
          if sound {
            ChildIsUnder(t, rel, layers, name, sub.value, trusted);
          }
          Visit(sub.value, child, layers, trusted);
        }
      }
    }

    lemma ChildIsUnder(t: Tree, rel: Path, layers: seq<Layer>, name: string, sub: Tree, trusted: bool)
      requires sound && At(t, rel) && Below(t, rel, layers, trusted) && Listings.Find(t.subs, name) == Some(sub) && enters(rel + [name])
      requires name in ListingNow(j, t, rel, LayersOf(rel, Chain(memory.root, rel))).dirs
      ensures At(sub, rel + [name]) && Under(rel + [name], layers, trusted)
    {
      hide ListingAt, LayersOf, Chain, NodeAt, Matches, Known, Open, Walked, ListingNow;
      ChildAt(memory.root, rel, t, name);
      WalkedNext(j, enters, memory.root, rel, t, name);
      if trusted {
        MatchesBelow(memory.ledger, memory.stored.listings, memory.root, rel, name, t);
      }
    }

    function FullChild(t: Tree, rel: Path, layers: seq<Layer>, name: string): seq<Path> {
      if !enters(rel + [name]) || Listings.Find(t.subs, name).None? then []
      else FullWalk(j, enters, Listings.Find(t.subs, name).value, rel + [name], layers)
    }

    function WalkedChild(t: Tree, rel: Path, layers: seq<Layer>, name: string): set<Path> {
      if !enters(rel + [name]) || Listings.Find(t.subs, name).None? then {}
      else Walked(j, enters, Listings.Find(t.subs, name).value, rel + [name], layers)
    }

    lemma BelowFrom(t: Tree, rel: Path, layers: seq<Layer>, names: seq<string>, i: nat)
      requires i < |names|
      ensures FullBelow(j, enters, t, rel, layers, names[i..]) == FullChild(t, rel, layers, names[i]) + FullBelow(j, enters, t, rel, layers, names[i + 1..])
      ensures WalkedBelow(j, enters, t, rel, layers, names[i..]) == WalkedChild(t, rel, layers, names[i]) + WalkedBelow(j, enters, t, rel, layers, names[i + 1..])
    {
      hide FullWalk, Walked;
      assert names[i..][0] == names[i] && names[i..][1..] == names[i + 1..];
    }

    /** Remember what was listed here. */
    method Remember(rel: Path, listing: Listing)
      requires Ready()
      requires sound && ListingSettled(listing, memory.settled) ==> Latest(memory.Judging(), memory.settled, memory.root, rel, listing)
      modifies memory`latest
      ensures Ready() && old(memory.latest).Keys <= memory.latest.Keys <= old(memory.latest).Keys + {rel}
      ensures ListingSettled(listing, memory.settled) ==> rel in memory.latest
    {
      memory.Remember(rel, listing);
    }

    /** List a directory, and keep what git's rules do not ignore. */
    method List(t: Tree, rel: Path, layers: seq<Layer>) returns (listing: Listing)
      ensures listing == ListingNow(j, t, rel, layers)
    {
      if t.nested && rel != [] {
        return Listing(t.stamp, None, true, [], []);
      }
      var own := layers + OwnLayer(rel, t.rules);
      var files := Keep(j, own, rel, t.files, false);
      var dirs := Keep(j, own, rel, Names(t.subs), true);
      listing := Listing(t.stamp, RulesStamp(t), t.nested, files, dirs);
    }
  }

  // ----- a whole run -----

  lemma {:induction false} WalkedAbove(j: Judge, enters: Path -> bool, root: Tree, t: Tree, rel: Path, layers: seq<Layer>, q: Path)
    requires NodeAt(root, rel) == Some(t) && Open(root, rel) && q in Walked(j, enters, t, rel, layers)
    ensures rel <= q && Open(root, q) && NodeAt(root, q).Some?
    ensures forall i :: |rel| <= i <= |q| ==> q[..i] in Walked(j, enters, t, rel, layers)
    decreases t, 1, 0
  {
    hide Open, NodeAt;
    if q == rel {
      assert q[..|q|] == q;
    } else {
      var listing := ListingNow(j, t, rel, layers);
      WalkedBelowAbove(j, enters, root, t, rel, layers + OwnLayer(rel, t.rules), listing.dirs, q);
      forall i | |rel| <= i <= |q| ensures q[..i] in Walked(j, enters, t, rel, layers) {
        if i == |rel| {
          assert q[..i] == rel;
        }
      }
    }
  }

  lemma {:induction false} WalkedBelowAbove(j: Judge, enters: Path -> bool, root: Tree, t: Tree, rel: Path, layers: seq<Layer>, names: seq<string>, q: Path)
    requires NodeAt(root, rel) == Some(t) && Open(root, rel) && (!t.nested || rel == [])
    requires q in WalkedBelow(j, enters, t, rel, layers, names)
    ensures rel < q && Open(root, q) && NodeAt(root, q).Some?
    ensures forall i :: |rel| < i <= |q| ==> q[..i] in WalkedBelow(j, enters, t, rel, layers, names)
    decreases t, 0, |names|
  {
    hide Open, NodeAt, Walked;
    var child := rel + [names[0]];
    var sub := Listings.Find(t.subs, names[0]);
    if enters(child) && sub.Some? && q in Walked(j, enters, sub.value, child, layers) {
      ChildAt(root, rel, t, names[0]);
      WalkedAbove(j, enters, root, sub.value, child, layers, q);
    } else {
      WalkedBelowAbove(j, enters, root, t, rel, layers, names[1..], q);
    }
  }

  /** What became of each directory of a walk, as `Walk.Handled` says. */
  ghost predicate Passed(j: Judge, ledger: Ledger, before: int, root: Tree, stored: map<Path, Listing>, latest: map<Path, Listing>, q: Path) {
    && NodeAt(root, q).Some?
    && (q in latest || !ListingSettled(ListingAt(j, root, q), before)
        || (Matches(ledger, stored, q, Chain(root, q)) && q in stored && Fits(NodeAt(root, q).value, stored[q])))
  }

  /** The run enters every directory there is a listing of, and finds nothing that has just changed. */
  ghost predicate EntersAll(j: Judge, enters: Path -> bool, before: int, root: Tree, stored: map<Path, Listing>) {
    && stored.Keys <= Walked(j, enters, root, [], [])
    && forall q :: q in Walked(j, enters, root, [], []) && NodeAt(root, q).Some? ==> ListingSettled(ListingAt(j, root, q), before)
  }

  /** Such a run leaves a coherent store. */
  lemma EntersAllRelists(j: Judge, enters: Path -> bool, ledger: Ledger, before: int, root: Tree, stored: map<Path, Listing>, origins: Origins, latest: map<Path, Listing>)
    requires Lawful(ledger, before, root) && AllLatest(j, before, root, latest)
    requires AllTruthful(j, ledger, before, stored, origins) && Coherent(ledger, stored, origins)
    requires EntersAll(j, enters, before, root, stored) && latest.Keys <= Walked(j, enters, root, [], [])
    requires forall q :: q in Walked(j, enters, root, [], []) ==> Passed(j, ledger, before, root, stored, latest, q)
    ensures Relisted(stored, latest) && UpToDate(ledger, root, stored, latest)
  {
    hide Lawful, AllLatest, AllTruthful, Coherent, Walked, Chain, ListingAt, Fits, ListingSettled, Known, RulesAt, Passed, EntersAll;
    forall p, rel | p in latest && rel in stored && p < rel && (p in stored ==> latest[p].rules != stored[p].rules) ensures rel in latest {
      PassedBelow(j, enters, ledger, before, root, stored, latest, p, rel);
    }
    forall p, rel | rel in latest && p < rel && p !in latest && p in stored ensures Known(ledger, stored[p].rules) == RulesAt(root, p) {
      PassedAbove(j, enters, ledger, before, root, stored, origins, latest, p, rel);
    }
  }

  lemma PassedBelow(j: Judge, enters: Path -> bool, ledger: Ledger, before: int, root: Tree, stored: map<Path, Listing>, latest: map<Path, Listing>, p: Path, rel: Path)
    requires Lawful(ledger, before, root) && AllLatest(j, before, root, latest)
    requires EntersAll(j, enters, before, root, stored)
    requires forall q :: q in Walked(j, enters, root, [], []) ==> Passed(j, ledger, before, root, stored, latest, q)
    requires p in latest && rel in stored && p < rel
    ensures rel in latest || (p in stored && latest[p].rules == stored[p].rules)
  {
    hide Lawful, AllLatest, Walked, Chain, ListingAt, Fits, ListingSettled, Matches, NodeAt;
    assert rel in Walked(j, enters, root, [], []);
    assert Passed(j, ledger, before, root, stored, latest, rel);
    if rel !in latest {
      StoredRules(j, enters, ledger, before, root, stored, latest, p, rel);
    }
  }

  lemma PassedAbove(j: Judge, enters: Path -> bool, ledger: Ledger, before: int, root: Tree, stored: map<Path, Listing>, origins: Origins, latest: map<Path, Listing>, p: Path, rel: Path)
    requires Lawful(ledger, before, root) && AllTruthful(j, ledger, before, stored, origins) && Coherent(ledger, stored, origins)
    requires EntersAll(j, enters, before, root, stored) && latest.Keys <= Walked(j, enters, root, [], [])
    requires forall q :: q in Walked(j, enters, root, [], []) ==> Passed(j, ledger, before, root, stored, latest, q)
    requires rel in latest && p < rel && p !in latest && p in stored
    ensures Known(ledger, stored[p].rules) == RulesAt(root, p)
  {
    hide Lawful, AllTruthful, Coherent, Walked, Chain, ListingAt, Fits, ListingSettled, Known, RulesAt, Matches;
    WalkedAbove(j, enters, root, root, [], [], rel);
    assert rel[..|p|] == p;
    assert Passed(j, ledger, before, root, stored, latest, p);
    ReplayedRules(j, ledger, before, root, stored, origins, p, rel);
  }

  lemma StoredRules(j: Judge, enters: Path -> bool, ledger: Ledger, before: int, root: Tree, stored: map<Path, Listing>, latest: map<Path, Listing>, p: Path, rel: Path)
    requires Lawful(ledger, before, root) && AllLatest(j, before, root, latest) && p in latest && p < rel
    requires rel in Walked(j, enters, root, [], []) && Matches(ledger, stored, rel, Chain(root, rel))
    ensures p in stored && stored[p].rules == latest[p].rules
  {
    hide Walked;
    WalkedAbove(j, enters, root, root, [], [], rel);
    assert rel[..|p|] == p;
    ChainAt(root, rel, |p|);
    assert Latest(j, before, root, p, latest[p]);
    LatestIsTruthful(j, ledger, before, root, p, latest[p]);
  }

  lemma ReplayedRules(j: Judge, ledger: Ledger, before: int, root: Tree, stored: map<Path, Listing>, origins: Origins, p: Path, rel: Path)
    requires Lawful(ledger, before, root) && AllTruthful(j, ledger, before, stored, origins) && Coherent(ledger, stored, origins)
    requires Open(root, rel) && p < rel && NodeAt(root, p).Some?
    requires Matches(ledger, stored, p, Chain(root, p)) && p in stored && Fits(NodeAt(root, p).value, stored[p])
    ensures Known(ledger, stored[p].rules) == RulesAt(root, p)
  {
    assert rel[..|p|] == p;
    LawfulAt(ledger, before, root, p);
    CoherentOrigin(ledger, stored, origins, p, Chain(root, p));
    ReplayIsCurrent(j, ledger, before, stored, origins, NodeAt(root, p).value, p, Chain(root, p));
  }

  /** What a save makes of a coherent store, after such a run. */
  lemma SavedIsCoherent(j: Judge, enters: Path -> bool, ledger: Ledger, before: int, root: Tree, stored: Stored, origins: Origins, latest: map<Path, Listing>, trusted: bool)
    requires Lawful(ledger, before, root) && AllLatest(j, before, root, latest)
    requires Coherent(ledger, stored.listings, origins) && stored.listings.Keys <= origins.Keys
    requires trusted ==>
      && AllTruthful(j, ledger, before, stored.listings, origins)
      && EntersAll(j, enters, before, root, stored.listings) && latest.Keys <= Walked(j, enters, root, [], [])
      && forall q :: q in Walked(j, enters, root, [], []) ==> Passed(j, ledger, before, root, stored.listings, latest, q)
    ensures Coherent(ledger, Base(stored, trusted, |latest|) + latest, origins + Chains(root, latest))
  {
    hide Lawful, AllLatest, AllTruthful, Coherent, Walked, EntersAll, Passed;
    if trusted {
      EntersAllRelists(j, enters, ledger, before, root, stored.listings, origins, latest);
      SaveKeepsCoherence(j, ledger, before, root, stored.listings, origins, latest);
      FewerIsCoherent(ledger, stored.listings + latest, origins + Chains(root, latest), Base(stored, trusted, |latest|) + latest);
    } else {
      assert Coherent(ledger, map[], origins) by {
        FewerIsCoherent(ledger, stored.listings, origins, map[]);
      }
      SaveKeepsCoherence(j, ledger, before, root, map[], origins, latest);
    }
  }

  /** What a run finds remembered, and what the watch vouches for, stands for the tree it walks. */
  ghost predicate MayRely(memory: Memory, c: Context, around: Around, root: Tree, enters: Path -> bool, clean: map<Path, Sighting>)
    reads memory
  {
    && memory.StoreValid() && memory.latest == map[] && Lawful(memory.ledger, memory.settled, root)
    && (ContextSettled(c, memory.settled) ==> around == memory.ledger.around(c))
    && (memory.stored.context == Some(c) && ContextSettled(c, memory.settled) ==>
          && Sure(Judge(memory.engine, around), enters, memory.ledger, root, memory.stored.listings, memory.origins)
          && VouchesRightly(memory.ledger, memory.stored.listings, clean, root))
  }

  /** The walk of a whole tree with what is remembered of it. Whether or not that stands, what it saw is true. */
  method WalkTree(memory: Memory, c: Context, ghost around: Around, root: Tree, enters: Path -> bool, clean: map<Path, Sighting>, j: Judge)
    returns (found: seq<Path>, seen: seq<(Path, Sighting)>)
    requires j == Judge(memory.engine, around)
    modifies memory
    ensures forall i :: 0 <= i < |seen| ==> SightTrue(root, seen[i].0, seen[i].1)
    ensures memory.origins == old(memory.origins) && memory.context == Some(c) && memory.Judging() == j && memory.root == root
    ensures memory.stored.listings == old(memory.stored.listings) && memory.stored.context == old(memory.stored.context)
    ensures memory.settled == old(memory.settled)
    ensures memory.trusted <==> memory.stored.context == Some(c) && ContextSettled(c, memory.settled)
    ensures old(MayRely(memory, c, around, root, enters, clean)) ==>
      && found == FullWalk(j, enters, root, [], [])
      && memory.Running() && memory.latest.Keys <= Walked(j, enters, root, [], [])
      && (memory.trusted ==> forall q :: q in Walked(j, enters, root, [], []) ==>
            Passed(j, memory.ledger, memory.settled, root, memory.stored.listings, memory.latest, q))
  {
    hide Lawful, AllLatest, AllTruthful, Coherent, Walked, FullWalk, ListingAt, ContextSettled, VouchesRightly, Sure;
    ghost var sound := MayRely(memory, c, around, root, enters, clean);
    var trusted := memory.Begin(c, around, root);
    NothingLatest(j, memory.settled, root);
    RootIsWalked(j, enters, root);
    var walk := new Walk(j, enters, memory, clean, sound);
    walk.Visit(root, [], [], trusted);
    found, seen := walk.found, walk.seen;
  }

  lemma NothingLatest(j: Judge, before: int, root: Tree)
    ensures AllLatest(j, before, root, map[])
  {
  }

  /**
  One run: the walk with its memory finds what the walk that lists everything
  does, and a run that enters every directory there is a listing of leaves a
  store that stands for the next one.
  */
  method Run(memory: Memory, c: Context, ghost around: Around, root: Tree, enters: Path -> bool, clean: map<Path, Sighting>, j: Judge) returns (found: seq<Path>, seen: seq<(Path, Sighting)>)
    requires memory.StoreValid() && memory.StoreCoherent() && memory.latest == map[]
    requires Lawful(memory.ledger, memory.settled, root) && AllSightsTrue(root, clean) && j == Judge(memory.engine, around)
    requires ContextSettled(c, memory.settled) ==> around == memory.ledger.around(c)
    modifies memory
    ensures found == FullWalk(j, enters, root, [], [])
    ensures forall i :: 0 <= i < |seen| ==> SightTrue(root, seen[i].0, seen[i].1)
    ensures (MtimesSettled(c, memory.settled) ==> around == memory.ledger.around(c)) ==> memory.StoreValid()
    ensures !MtimesSettled(c, memory.settled) ==> memory.StoreCoherent()
    ensures ContextSettled(c, memory.settled) && EntersAll(j, enters, memory.settled, root, old(memory.stored.listings)) ==> memory.StoreCoherent()
    ensures memory.latest == map[] && memory.settled == old(memory.settled)
  {
    hide Lawful, AllLatest, AllTruthful, Coherent, Walked, FullWalk, ListingAt, EntersAll, Passed, ContextSettled, MtimesSettled, AllSightsTrue, SightTrue;
    CoherentIsSure(j, enters, memory.ledger, root, memory.stored.listings, memory.origins);
    TrueSightsVouch(memory.ledger, memory.stored.listings, clean, root);
    found, seen := WalkTree(memory, c, around, root, enters, clean, j);
    ghost var was, origins, latest, trusted := memory.stored, memory.origins, memory.latest, memory.trusted;
    if !trusted || EntersAll(j, enters, memory.settled, root, was.listings) {
      SavedIsCoherent(j, enters, memory.ledger, memory.settled, root, was, origins, latest, trusted);
    }
    memory.Save();
    NothingIsCoherent(memory.ledger, memory.origins);
    if ContextSettled(c, memory.settled) {
      SettledMtimes(c, memory.settled);
    }
  }

  lemma NothingIsCoherent(ledger: Ledger, origins: Origins)
    ensures Coherent(ledger, map[], origins)
  {
  }

  lemma SettledMtimes(c: Context, before: int)
    requires ContextSettled(c, before)
    ensures MtimesSettled(c, before)
  {
  }
}
