/**
Where the memory's promise fails: runs after which a stored listing is trusted
although the directory would list differently now.
*/
module StaleStores {
  import opened Options
  import opened Sightings
  import opened Listings
  import opened Memories
  import opened Walks

  function At(id: nat): Stamp {
    Stamp(id, 0, 0)
  }

  /** One ignore file, whose text is 1, ignores `d/e/x`. */
  const ENGINE := Engine(
    (folds: bool, layer: Layer, path: Path, isDir: bool) => if layer.text == 1 && path == ["d", "e", "x"] then Some(true) else None,
    (folds: bool, text: nat, path: Path, isDir: bool) => None,
    (folds: bool, text: nat, path: Path, isDir: bool) => false
  )

  const JUDGE := Judge(ENGINE, Around(false, 0, 0))

  function Text(stamp: Stamp): nat {
    if stamp == At(11) then 1 else 0
  }

  function RawAt(stamp: Stamp): Raw {
    if stamp == At(0) then Raw(false, false, [], ["d"]) else
    if stamp == At(5) || stamp == At(7) then Raw(false, false, [], ["e"]) else
    if stamp == At(1) || stamp == At(3) then Raw(false, true, [], ["e"]) else Raw(false, false, ["x"], [])
  }

  function AroundAt(c: Context): Around {
    Around(false, 0, 0)
  }

  const LEDGER := Ledger(RawAt, Text, AroundAt)

  const E := Tree(At(2), false, None, ["x"], [])

  /** The tree before and after `d/.gitignore` is replaced, and the directory changes with it. */
  const BEFORE := Tree(At(0), false, None, [], [Sub("d", Tree(At(1), false, Some(Rules(At(10), 0)), [], [Sub("e", E)]))])
  const AFTER := Tree(At(0), false, None, [], [Sub("d", Tree(At(3), false, Some(Rules(At(11), 1)), [], [Sub("e", E)]))])

  /** The tree without `d/.gitignore`, just after one was written, and after it was removed again. */
  const BARE := Tree(At(0), false, None, [], [Sub("d", Tree(At(5), false, None, [], [Sub("e", E)]))])
  const JUST := Tree(At(0), false, None, [], [Sub("d", Tree(Stamp(6, 9, 9), false, Some(Rules(Stamp(11, 9, 9), 1)), [], [Sub("e", E)]))])
  const LATER := Tree(At(0), false, None, [], [Sub("d", Tree(At(7), false, None, [], [Sub("e", E)]))])

  const STORED: map<Path, Listing> := map[
    [] := Listing(At(0), None, false, [], ["d"]),
    ["d"] := Listing(At(1), Some(At(10)), false, [], ["e"]),
    ["d", "e"] := Listing(At(2), None, false, ["x"], [])
  ]

  /** What a run over `d/f` only lists after the change: it enters `d`, and not `d/e`. */
  const NARROW: map<Path, Listing> := map[["d"] := Listing(At(3), Some(At(11)), false, [], ["e"])]

  const UNRULED: map<Path, Listing> := map[
    [] := Listing(At(0), None, false, [], ["d"]),
    ["d"] := Listing(At(5), None, false, [], ["e"]),
    ["d", "e"] := Listing(At(2), None, false, ["x"], [])
  ]

  /** What is remembered of a run just after: `d` is too new, `d/e` is not. */
  const BELOW: map<Path, Listing> := map[["d", "e"] := Listing(At(2), None, false, [], [])]

  /** `d` in the root, and `e` in it. */
  lemma NodesOf(root: Tree, d: Tree)
    requires root.subs == [Sub("d", d)] && d.subs == [Sub("e", E)]
    ensures NodeAt(root, []) == Some(root) && NodeAt(root, ["d"]) == Some(d) && NodeAt(root, ["d", "e"]) == Some(E)
    ensures Chain(root, []) == [] && Chain(root, ["d"]) == [root.rules] && Chain(root, ["d", "e"]) == [root.rules, d.rules]
  {
    assert ["d"][..0] == [] && ["d", "e"][..1] == ["d"];
  }

  lemma Nodes(root: Tree)
    requires root == BEFORE || root == AFTER || root == BARE || root == JUST || root == LATER
    ensures NodeAt(root, []) == Some(root) && NodeAt(root, ["d"]) == Some(root.subs[0].tree) && NodeAt(root, ["d", "e"]) == Some(E)
    ensures Chain(root, []) == [] && Chain(root, ["d"]) == [None] && Chain(root, ["d", "e"]) == [None, root.subs[0].tree.rules]
  {
    hide NodeAt, Chain;
    NodesOf(root, root.subs[0].tree);
  }

  lemma LayersAt(rules: Rules)
    ensures LayersOf(["d", "e"], [None, Some(rules)]) == [Layer(["d"], rules.text)]
    ensures LayersOf(["d"], [None]) == []
  {
    var chain: seq<Option<Rules>>, first: seq<Option<Rules>> := [None, Some(rules)], [None];
    assert chain[..1] == first && first[..0] == [];
    assert ["d", "e"][..1] == ["d"];
    assert LayersOf(["d", "e"], chain[..1]) == [];
  }

  lemma KeptOfOne(layers: seq<Layer>, rel: Path, name: string, isDir: bool)
    ensures Kept(JUDGE, layers, rel, [name], isDir) == if Ignored(JUDGE, layers, rel + [name], isDir) then [] else [name]
  {
    assert Kept(JUDGE, layers, rel, [], isDir) == [];
  }

  lemma IgnoredBy(layer: Layer, path: Path, isDir: bool)
    ensures Ignored(JUDGE, [layer], path, isDir) <==> layer.text == 1 && path == ["d", "e", "x"]
    ensures !Ignored(JUDGE, [], path, isDir)
  {
    assert [layer][..0] == [];
  }

  lemma Above(i: nat)
    requires i < 2
    ensures ["d", "e"][..i] == if i == 0 then [] else ["d"]
  {
  }

  lemma StoredIsCoherent()
    ensures Coherent(LEDGER, STORED, Chains(BEFORE, STORED))
  {
    Nodes(BEFORE);
    forall rel | rel in STORED && Reachable(STORED, rel) ensures Matches(LEDGER, STORED, rel, Chains(BEFORE, STORED)[rel]) {
      assert rel == [] || rel == ["d"] || rel == ["d", "e"];
      Above(0);
      Above(1);
      assert ["d"][..0] == [];
    }
  }

  lemma ListingOfD()
    ensures ListingNow(JUDGE, AFTER.subs[0].tree, ["d"], []) == NARROW[["d"]]
  {
    hide Ignored;
    var d, own := AFTER.subs[0].tree, Layer(["d"], 1);
    assert [] + OwnLayer(["d"], d.rules) == [own];
    assert Names(d.subs) == ["e"];
    assert ["d"] + ["e"] == ["d", "e"];
    IgnoredBy(own, ["d", "e"], true);
    KeptOfOne([own], ["d"], "e", true);
  }

  lemma NarrowIsLatest()
    ensures Latest(JUDGE, 1, AFTER, ["d"], NARROW[["d"]])
  {
    ListingOfD();
    hide ListingNow, Kept, Ignored;
    Nodes(AFTER);
    LayersAt(AFTER.subs[0].tree.rules.value);
    assert ["d"][..0] == [];
  }

  /**
  A run that does not enter `d/e` stores the new rules of `d`, and not what
  they make of `d/e`. Every directory above the listing of `d/e` then has the
  rules stored that it has now, and its own stamp fits; but it is stale.
  */
  lemma NarrowRunGoesStale()
    ensures Coherent(LEDGER, STORED, Chains(BEFORE, STORED))
    ensures Latest(JUDGE, 1, AFTER, ["d"], NARROW[["d"]])
    ensures !Relisted(STORED, NARROW)
    ensures var saved, rel := STORED + NARROW, ["d", "e"];
      && Matches(LEDGER, saved, rel, Chain(AFTER, rel)) && Fits(E, saved[rel])
      && NodeAt(AFTER, rel) == Some(E) && saved[rel] != ListingAt(JUDGE, AFTER, rel)
  {
    StoredIsCoherent();
    NarrowIsLatest();
    ListingOfE(AFTER);
    NarrowMatches();
    NarrowIsNotRelisted();
    hide *;
  }

  lemma NarrowMatches()
    ensures var saved, rel := STORED + NARROW, ["d", "e"];
      && Matches(LEDGER, saved, rel, Chain(AFTER, rel)) && Fits(E, saved[rel]) && saved[rel] == Listing(At(2), None, false, ["x"], [])
  {
    Nodes(AFTER);
    hide NodeAt, Chain;
    Above(0);
    Above(1);
  }

  lemma NarrowIsNotRelisted()
    ensures !Relisted(STORED, NARROW)
  {
    assert ["d"] < ["d", "e"] && ["d"] in NARROW && ["d", "e"] in STORED && ["d", "e"] !in NARROW;
    assert NARROW[["d"]].rules != STORED[["d"]].rules;
  }

  lemma UnruledIsCoherent()
    ensures Coherent(LEDGER, UNRULED, Chains(BARE, UNRULED))
  {
    Nodes(BARE);
    forall rel | rel in UNRULED && Reachable(UNRULED, rel) ensures Matches(LEDGER, UNRULED, rel, Chains(BARE, UNRULED)[rel]) {
      assert rel == [] || rel == ["d"] || rel == ["d", "e"];
      Above(0);
      Above(1);
      assert ["d"][..0] == [];
    }
  }

  /** Whether an ignore file of `d` ignores `d/e/x`. */
  predicate Ruled(root: Tree) {
    root == JUST || root == AFTER
  }

  lemma LayersIn(root: Tree)
    requires Ruled(root) || root == LATER
    ensures |Chain(root, ["d", "e"])| == 2
    ensures LayersOf(["d", "e"], Chain(root, ["d", "e"])) == if Ruled(root) then [Layer(["d"], 1)] else []
  {
    Nodes(root);
    hide NodeAt, Chain;
    if Ruled(root) {
      LayersAt(root.subs[0].tree.rules.value);
    } else {
      var chain: seq<Option<Rules>> := [None, None];
      assert chain[..1] == [None] && chain[..1][..0] == [];
    }
  }

  /** What listing `d/e` under these layers yields. */
  lemma ListingOfOne(layers: seq<Layer>, rel: Path)
    requires rel == ["d", "e"] && (layers == [] || layers == [Layer(["d"], 1)])
    ensures ListingNow(JUDGE, E, rel, layers) == Listing(At(2), None, false, if layers == [] then ["x"] else [], [])
  {
    hide Ignored, Kept;
    assert rel + ["x"] == ["d", "e", "x"];
    IgnoredBy(Layer(["d"], 1), rel + ["x"], false);
    KeptOfOne(layers, rel, "x", false);
    assert layers + [] == layers;
    NoneKept(JUDGE, layers, rel, true);
  }

  /** What `d/e` lists with the rules of `d` in `root`. */
  lemma ListingOfE(root: Tree)
    requires Ruled(root) || root == LATER
    ensures NodeAt(root, ["d", "e"]) == Some(E)
    ensures ListingAt(JUDGE, root, ["d", "e"]) == Listing(At(2), None, false, if Ruled(root) then [] else ["x"], [])
  {
    hide NodeAt, Chain, LayersOf, ListingNow;
    Nodes(root);
    LayersIn(root);
    ListingOfOne(LayersOf(["d", "e"], Chain(root, ["d", "e"])), ["d", "e"]);
  }

  /**
  An ignore file that was just written filters what is remembered below it, but
  its own directory is too new to remember. When it is gone again by the next
  run, the stored rules of `d` are, as before, none: the listing of `d/e` may be
  replayed, and it is stale.
  */
  lemma JustWrittenRulesGoStale()
    ensures Coherent(LEDGER, UNRULED, Chains(BARE, UNRULED))
    ensures NodeAt(JUST, ["d", "e"]) == Some(E) && BELOW[["d", "e"]] == ListingAt(JUDGE, JUST, ["d", "e"]) && ListingSettled(BELOW[["d", "e"]], 1)
    ensures NodeAt(JUST, ["d"]).Some? && !ListingSettled(ListingAt(JUDGE, JUST, ["d"]), 1)
    ensures !UpToDate(LEDGER, JUST, UNRULED, BELOW)
    ensures var saved, rel := UNRULED + BELOW, ["d", "e"];
      && Matches(LEDGER, saved, rel, Chain(LATER, rel)) && Fits(E, saved[rel])
      && NodeAt(LATER, rel) == Some(E) && saved[rel] != ListingAt(JUDGE, LATER, rel)
  {
    UnruledIsCoherent();
    ListingOfE(JUST);
    ListingOfE(LATER);
    JustIsNew();
    LaterMatches();
    JustIsNotUpToDate();
    hide Coherent, Chains, Chain, ListingAt, Matches, NodeAt, UpToDate, Fits, ListingSettled;
    assert ListingSettled(BELOW[["d", "e"]], 1) by { SettledBelow(); }
  }

  lemma SettledBelow()
    ensures ListingSettled(BELOW[["d", "e"]], 1)
  {
  }

  lemma NotUpToDateAt(root: Tree, stored: map<Path, Listing>, latest: map<Path, Listing>, p: Path, rel: Path)
    requires rel in latest && p < rel && p !in latest && p in stored && Known(LEDGER, stored[p].rules) != RulesAt(root, p)
    ensures !UpToDate(LEDGER, root, stored, latest)
  {
    hide Known, RulesAt;
  }

  lemma JustIsNotUpToDate()
    ensures !UpToDate(LEDGER, JUST, UNRULED, BELOW)
  {
    Nodes(JUST);
    hide NodeAt;
    NotUpToDateAt(JUST, UNRULED, BELOW, ["d"], ["d", "e"]);
  }

  lemma JustIsNew()
    ensures NodeAt(JUST, ["d"]).Some? && !ListingSettled(ListingAt(JUDGE, JUST, ["d"]), 1)
  {
    Nodes(JUST);
    hide NodeAt, Chain, Kept, LayersOf;
  }

  lemma LaterMatches()
    ensures Matches(LEDGER, UNRULED + BELOW, ["d", "e"], Chain(LATER, ["d", "e"])) && Fits(E, (UNRULED + BELOW)[["d", "e"]])
  {
    Nodes(LATER);
    hide NodeAt, Chain;
    Above(0);
    Above(1);
  }

  // ----- rules outside the tree that were only changed just now -----

  /** The rules outside the tree make a difference to a file in the root. */
  ghost predicate Differ(engine: Engine, a: Around, b: Around, name: string) {
    Outside(Judge(engine, a), [name], false) != Outside(Judge(engine, b), [name], false)
  }

  /** Whatever a directory holds, it is the file `x`; the rules outside the tree stand for `b`. */
  ghost function World(b: Around): Ledger {
    Ledger(stamp => Raw(false, false, ["x"], []), stamp => 0, c => b)
  }

  function Root(before: int): Tree {
    Tree(Stamp(0, before - 1, before - 1), false, None, ["x"], [])
  }

  /** What listing that root yields. */
  function RootListing(engine: Engine, around: Around, before: int): Listing {
    ListingNow(Judge(engine, around), Root(before), [], [])
  }

  lemma RootKeeps(engine: Engine, around: Around, before: int)
    ensures RootListing(engine, around, before)
         == Listing(Root(before).stamp, None, false, if Outside(Judge(engine, around), ["x"], false) then [] else ["x"], [])
  {
    var j := Judge(engine, around);
    assert [] + ["x"] == ["x"] && ["x"][1..] == [];
    assert Kept(j, [], [], [], false) == [];
    assert Kept(j, [], [], ["x"], false) == if Ignored(j, [], ["x"], false) then [] else ["x"];
  }

  lemma RootIsLatest(engine: Engine, around: Around, before: int)
    ensures Lawful(World(around), before, Root(before))
    ensures Latest(Judge(engine, around), before, Root(before), [], RootListing(engine, around, before))
  {
    RootKeeps(engine, around, before);
  }

  /** A save under `c` keeps, of every world in which settled rules are what they stand for, only what those rules yield. */
  ghost predicate KeepsTruth(engine: Engine, c: Context, before: int) {
    forall ledger: Ledger, around: Around, root: Tree, latest: map<Path, Listing> ::
      Lawful(ledger, before, root) && (ContextSettled(c, before) ==> around == ledger.around(c)) && AllLatest(Judge(engine, around), before, root, latest) ==>
        AllTruthful(Judge(engine, ledger.around(c)), ledger, before, latest, Chains(root, latest))
  }

  /** It does exactly when the rules outside the tree had settled, their change times included; the save looks at the times they were written alone. */
  lemma KeptIsTruthfulIff(engine: Engine, c: Context, before: int, a: Around, b: Around)
    requires Differ(engine, a, b, "x")
    ensures KeepsTruth(engine, c, before) <==> ContextSettled(c, before)
  {
    hide ContextSettled, Truthful, Latest, Lawful, Chains, Differ, AllLatest;
    if ContextSettled(c, before) {
      forall ledger: Ledger, around: Around, root: Tree, latest: map<Path, Listing>
        | Lawful(ledger, before, root) && around == ledger.around(c) && AllLatest(Judge(engine, around), before, root, latest)
        ensures AllTruthful(Judge(engine, ledger.around(c)), ledger, before, latest, Chains(root, latest))
      {
        SavedIsTruthful(Judge(engine, around), ledger, before, root, map[], map[], latest);
        assert map[] + latest == latest && map[] + Chains(root, latest) == Chains(root, latest);
      }
    } else {
      UnsettledIsUntruthful(engine, c, before, a, b);
    }
  }

  lemma UnsettledIsUntruthful(engine: Engine, c: Context, before: int, a: Around, b: Around)
    requires Differ(engine, a, b, "x") && !ContextSettled(c, before)
    ensures !KeepsTruth(engine, c, before)
  {
    var ledger, root := World(b), Root(before);
    var latest: map<Path, Listing> := map[[] := RootListing(engine, a, before)];
    RootIsLatest(engine, a, before);
    RootIsLatest(engine, b, before);
    assert AllLatest(Judge(engine, a), before, root, latest);
    RootKeeps(engine, a, before);
    RootKeeps(engine, b, before);
    assert [] in latest && !Truthful(Judge(engine, b), ledger, before, [], latest[[]], Chains(root, latest)[[]]);
  }

  /**
  The rules outside the tree were written long ago and changed just now: a run
  does not trust them, and yet stores what it lists by them. When they change
  once more, within the same tick of the clock, the next run trusts the store,
  and replays a listing that is stale.
  */
  method ReplayGoesStale(engine: Engine, a: Around, b: Around, c: Context, before: int, later: int) returns (replayed: Option<Listing>)
    requires Differ(engine, a, b, "x")
    requires MtimesSettled(c, before) && !ContextSettled(c, before) && ContextSettled(c, later) && before <= later
    ensures replayed.Some? && Fits(Root(before), replayed.value)
    ensures replayed.value != RootListing(engine, b, before)
  {
    hide AllTruthful, ContextSettled, MtimesSettled;
    var memory := new Memory(engine, World(b), before);
    var trusts := memory.Begin(c, a, Root(before));
    var listing := RootListing(engine, a, before);
    RootKeeps(engine, a, before);
    RootKeeps(engine, b, before);
    memory.Remember([], listing);
    memory.Save();
    memory.NextRun(later);
    trusts := memory.Begin(c, b, Root(before));
    replayed := memory.Find([], Root(before).stamp);
  }
}
