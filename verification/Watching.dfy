/**
A watch on one work tree, kept from one run to the next. Its promise: what it
does not look at is what it was, unless a report says otherwise.
*/
module Watching {
  import opened Options
  import opened Sightings
  import opened Kernels
  import opened Kqueue
  import opened Watches

  // ----- taking reports -----

  function Union(t: Touched, u: Touched): Touched {
    Touched(t.paths + u.paths, t.subtrees + u.subtrees)
  }

  lemma UnionMentions(t: Touched, u: Touched, p: Path, kind: Kind)
    ensures Mentions(t, p, kind) || Mentions(u, p, kind) ==> Mentions(Union(t, u), p, kind)
  {
    if Mentions(t, p, kind) && p !in t.paths {
      var s :| s in t.subtrees && s <= p && (s != p || kind.Dir?);
      assert s in Union(t, u).subtrees;
    } else if Mentions(u, p, kind) && p !in u.paths {
      var s :| s in u.subtrees && s <= p && (s != p || kind.Dir?);
      assert s in Union(t, u).subtrees;
    }
  }

  ghost predicate AllTaken(r: Registry, k: Kernel, t: Touched, s: Registry, l: Kernel) {
    forall p: Path, kind: Kind :: Taken(r, k, t, s, l, p, kind)
  }

  lemma TakenBaseline(matches: Matches, entries: seq<Entry>, b: Baseline, t: Touched, all: Registry, r: Registry, k: Kernel, u: Touched,
                      more: Registry, s: Registry, l: Kernel)
    requires BaselineKept(matches, entries, b, t, all, r, k) && AllTaken(r, k, u, s, l) && DoubtStays(all, r, u, more, s)
    ensures BaselineKept(matches, entries, b, Union(t, u), more, s, l)
    ensures BaselineDrained(matches, entries, b, Union(t, u), InDoubt(more, s), l.fs)
  {
    forall at | 0 <= at < |entries| && at !in b.recheck
      ensures EntryKept(matches, b.index, entries[at], Union(t, u), more, s, l)
      ensures Mentions(Union(t, u), entries[at].path, File) || Vouched(matches, b.index, entries[at], Look(l.fs, entries[at].path)) || entries[at].path in InDoubt(more, s)
    {
      var e := entries[at];
      UnionMentions(t, u, e.path, File);
      assert EntryKept(matches, b.index, e, t, all, r, k) && Taken(r, k, u, s, l, e.path, File);
    }
  }

  // ----- what is in doubt -----

  ghost function InDoubt(all: Registry, part: Registry): set<Path> {
    set p | p in all && Doubtful(all, part, p)
  }

  /** Whatever is registered together with all directories above it is followed. */
  ghost predicate Certain(all: Registry, part: Registry) {
    forall p, kind :: Covered(all, p, kind) ==> p in part
  }

  /** Something registered before has all directories above it registered only now. */
  ghost predicate Completes(all: Registry, more: Registry) {
    exists q, kind :: q in all && Covered(more, q, kind) && !Covered(all, q, kind)
  }

  /** What is registered completely is followed, unless a registration has completed what was above something older. */
  lemma StaysCertain(all: Registry, part: Registry, paths: Registry, last: Registry)
    requires Certain(all, part) && Within(all, paths) && Within(last, paths) && !Completes(all, last)
    ensures forall p, kind :: Covered(last, p, kind) ==> p in Firm(all, part, paths)
  {
    forall p, kind | Covered(last, p, kind) ensures p in Firm(all, part, paths) {
      forall a | a <= p ensures a in paths && !Stale(all, part, a) && (a != p ==> paths[a].kind.Dir?) {
        assert a in last;
        if a in all {
          assert Covered(last, a, last[a].kind) by { CoveredAbove(last, p, kind, a); }
          assert Covered(all, a, last[a].kind);
        }
      }
    }
  }

  lemma CoveredAbove(r: Registry, p: Path, kind: Kind, a: Path)
    requires Covered(r, p, kind) && a <= p
    ensures a in r && Covered(r, a, r[a].kind)
  {
    forall b | b <= a && b != a ensures b in r && r[b].kind.Dir? {
      assert b <= p;
    }
  }

  lemma AllCertain(r: Registry)
    ensures Certain(r, r) && InDoubt(r, r) == {}
  {
  }

  lemma CertainHasNoDoubt(all: Registry, part: Registry)
    requires Certain(all, part)
    ensures InDoubt(all, part) == {}
  {
  }

  /** What was followed as a whole is so once more is registered, if that is rooted. */
  lemma WholeIsFirm(all: Registry, paths: Registry, last: Registry)
    requires Within(all, paths) && Within(last, paths) && Rooted(last)
    ensures forall q :: q in last ==> q in Firm(all, all, paths)
  {
    forall q | q in last ensures q in Firm(all, all, paths) {
      forall a | a <= q ensures a in paths && (a != q ==> paths[a].kind.Dir?) {
        PrefixesAreDirs(last, q, a);
      }
    }
  }

  /** Registering more takes no path out of doubt. */
  lemma AddedDoubt(all: Registry, part: Registry, paths: Registry, t: Touched)
    requires Within(all, paths)
    ensures DoubtStays(all, part, t, paths, Firm(all, part, paths))
  {
    forall p | Doubtful(all, part, p) ensures Doubtful(paths, Firm(all, part, paths), p) {
      assert Stale(all, part, p) && p <= p;
    }
  }

  lemma SameDoubt(all: Registry, part: Registry, t: Touched)
    ensures DoubtStays(all, part, t, all, part)
  {
  }

  predicate IsSpoiled(rel: Path, t: Touched) {
    rel in t.paths || RulesOf(rel) in t.paths || exists i :: 0 <= i < |t.subtrees| && t.subtrees[i] <= rel
  }

  /** The clean directories that nothing taken concerns. */
  function Unspoiled(clean: map<Path, Sighting>, t: Touched): map<Path, Sighting> {
    map rel | rel in clean && !IsSpoiled(rel, t) :: clean[rel]
  }

  lemma MentionedIsSpoiled(rel: Path, t: Touched)
    ensures Mentions(t, rel, Dir) ==> IsSpoiled(rel, t)
    ensures Mentions(t, RulesOf(rel), File) ==> IsSpoiled(rel, t)
  {
    if Mentions(t, rel, Dir) && rel !in t.paths {
      var s :| s in t.subtrees && s <= rel;
      var i :| 0 <= i < |t.subtrees| && t.subtrees[i] == s;
    }
    if Mentions(t, RulesOf(rel), File) && RulesOf(rel) !in t.paths {
      var s :| s in t.subtrees && s <= RulesOf(rel) && s != RulesOf(rel);
      var i :| 0 <= i < |t.subtrees| && t.subtrees[i] == s;
      assert s <= rel;
    }
  }

  /** Each directory is what was seen of it. */
  ghost predicate AllAsSeen(stamps: Stamps, clean: map<Path, Sighting>, fs: Fs) {
    forall rel :: rel in clean ==> AsSeen(stamps, rel, clean[rel], fs)
  }

  ghost predicate AllDirs(clean: map<Path, Sighting>, fs: Fs) {
    forall rel :: rel in clean ==> IsKindAt(fs, rel, Dir)
  }

  /** A directory still clean after a drain is, at that moment, what was seen of it. */
  lemma TakenClean(stamps: Stamps, clean: map<Path, Sighting>, r: Registry, k: Kernel, t: Touched, s: Registry, l: Kernel)
    requires CleanKept(stamps, clean, r, k) && AllTaken(r, k, t, s, l)
    ensures CleanKept(stamps, Unspoiled(clean, t), s, l)
    ensures l.queue == [] && Ready(s, l) ==> AllDirs(Unspoiled(clean, t), l.fs)
    ensures AllAsSeen(stamps, Unspoiled(clean, t), l.fs)
  {
    forall rel | rel in Unspoiled(clean, t)
      ensures DirKept(stamps, rel, clean[rel], s, l) && AsSeen(stamps, rel, clean[rel], l.fs)
      ensures l.queue == [] && Ready(s, l) ==> IsKindAt(l.fs, rel, Dir)
    {
      MentionedIsSpoiled(rel, t);
      assert Taken(r, k, t, s, l, rel, Dir) && Taken(r, k, t, s, l, RulesOf(rel), File);
      assert Covered(s, rel, Dir);
      if l.queue == [] && Ready(s, l) {
        CoveredIsDir(s, l, rel);
      }
    }
  }

  lemma CoveredIsDir(r: Registry, k: Kernel, rel: Path)
    requires Ready(r, k) && k.queue == [] && Covered(r, rel, Dir)
    ensures IsKindAt(k.fs, rel, Dir)
  {
    assert !GoneAbove(r, k.queue, rel);
  }

  /** The clean directories that none of `paths` concerns. */
  function Apart(clean: map<Path, Sighting>, paths: set<Path>): map<Path, Sighting> {
    map rel | rel in clean && rel !in paths && RulesOf(rel) !in paths :: clean[rel]
  }

  /** Forget the directories that what was taken concerns. */
  method Spoil(clean: map<Path, Sighting>, t: Touched) returns (left: map<Path, Sighting>)
    ensures left == Unspoiled(clean, t)
  {
    hide Apart, Unspoiled;
    ApartFromNone(clean, t);
    left := clean;
    var todo := t.paths;
    assert t.paths - todo == {};
    while todo != {}
      invariant todo <= t.paths && left == Apart(clean, t.paths - todo)
      decreases |todo|
    {
      var path :| path in todo;
      ApartOne(clean, t.paths - todo, path);
      assert t.paths - (todo - {path}) == t.paths - todo + {path};
      left := left - {path};
      if IsRules(path) {
        left := left - {path[..|path| - 1]};
      }
      todo := todo - {path};
    }
    assert t.paths - todo == t.paths;
    left := map rel | rel in left && !exists i :: 0 <= i < |t.subtrees| && t.subtrees[i] <= rel :: left[rel];
  }

  lemma ApartFromNone(clean: map<Path, Sighting>, t: Touched)
    ensures Apart(clean, {}) == clean
    ensures Unspoiled(clean, t) == map rel | rel in Apart(clean, t.paths) && !exists i :: 0 <= i < |t.subtrees| && t.subtrees[i] <= rel :: Apart(clean, t.paths)[rel]
  {
  }

  lemma ApartOne(clean: map<Path, Sighting>, done: set<Path>, path: Path)
    ensures Apart(clean, done + {path}) == Apart(clean, done) - {path} - (if IsRules(path) then {path[..|path| - 1]} else {})
  {
    if IsRules(path) {
      RulesOfDir(path);
    }
    forall rel | RulesOf(rel) == path ensures IsRules(path) && rel == path[..|path| - 1] {
      assert RulesOf(rel)[..|rel|] == rel;
    }
  }

  lemma RulesOfDir(path: Path)
    requires IsRules(path)
    ensures forall rel :: RulesOf(rel) == path <==> rel == path[..|path| - 1]
  {
    forall rel | RulesOf(rel) == path ensures rel == path[..|path| - 1] {
      assert RulesOf(rel)[..|rel|] == rel;
    }
  }

  // ----- the watch -----

  /** The baseline, if there is one, holds for the entries of its index. */
  ghost predicate BaselineStands(matches: Matches, contents: nat -> seq<Entry>, baseline: Option<Baseline>, t: Touched, all: Registry, r: Registry, k: Kernel) {
    baseline.Some? ==> BaselineKept(matches, contents(baseline.value.index), baseline.value, t, all, r, k)
  }

  ghost predicate BaselineSeen(matches: Matches, contents: nat -> seq<Entry>, baseline: Option<Baseline>, t: Touched, doubt: set<Path>, fs: Fs) {
    baseline.Some? ==> BaselineDrained(matches, contents(baseline.value.index), baseline.value, t, doubt, fs)
  }

  class Watch {
    /** The entries of the index a key names. */
    const contents: nat -> seq<Entry>
    const matches: Matches
    const stamps: Stamps

    var watcher: Watcher
    var clean: map<Path, Sighting>
    var baseline: Option<Baseline>
    /** What was reported and not yet compared with the index. */
    var touched: Touched
    var failure: bool

    /** What is followed of the registrations, and of what counts as clean. */
    ghost var part: Registry
    ghost var sure: map<Path, Sighting>

    /** The moment the reports were taken, what was followed then, and what was in doubt. */
    var start: Kernel
    ghost var base: Registry
    ghost var doubt: set<Path>

    /** What the next run relies on. */
    ghost predicate Inv()
      reads this, watcher
    {
      && watcher.Valid() && Within(part, watcher.paths) && Ready(part, watcher.kernel)
      && Standing(watcher.paths, part, watcher.kernel, watcher.run) && IsPartOf(sure, clean)
    }

    ghost predicate Standing(all: Registry, r: Registry, k: Kernel, run: nat)
      reads this
    {
      CleanKept(stamps, sure, r, k) && Grounded(base, start, r, k, run) && BaselineStands(matches, contents, baseline, touched, all, r, k)
    }

    /** All registrations are followed, and all that counts as clean. */
    ghost predicate Whole()
      reads this`part, this`watcher, this`sure, this`clean, watcher`paths
    {
      part == watcher.paths && sure == clean
    }

    /** No path is in doubt. */
    ghost predicate IsCertain()
      reads this`part, this`watcher, watcher`paths
    {
      Certain(watcher.paths, part)
    }

    lemma StandingStill(all: Registry, r: Registry, k: Kernel, more: Registry, s: Registry, l: Kernel, run: nat)
      requires Standing(all, r, k, run) && Keeps(r, k, s, l) && DoubtStays(all, r, touched, more, s)
      requires forall q :: q in s && s[q].since < run ==> q in r && r[q] == s[q]
      ensures Standing(more, s, l, run)
    {
      KeepsPast(r, k, s, l);
      KeepsRules(r, k, s, l);
      RulesStill(stamps, sure, base, start, r, k, s, l, run);
      if baseline.Some? {
        BaselineStill(matches, contents(baseline.value.index), baseline.value, touched, all, r, k, more, s, l);
      }
    }

    /** What the drain has established for this run: all that is not to be looked at is as it was last seen. */
    ghost predicate Drained()
      reads this
    {
      Present(start) && AllAsSeen(stamps, sure, start.fs) && AllDirs(sure, start.fs) && BaselineSeen(matches, contents, baseline, touched, doubt, start.fs)
    }

    constructor (contents: nat -> seq<Entry>, matches: Matches, stamps: Stamps, watcher: Watcher)
      requires watcher.Valid() && Ready(watcher.paths, watcher.kernel) && watcher.run == 0
      ensures Inv() && Whole() && IsCertain() && !failure && this.watcher == watcher
      ensures this.contents == contents && this.matches == matches && this.stamps == stamps
    {
      this.contents, this.matches, this.stamps, this.watcher := contents, matches, stamps, watcher;
      clean, baseline, touched, failure := map[], None, Touched({}, []), false;
      part, sure, base, start, doubt := watcher.paths, map[], watcher.paths, watcher.kernel, {};
      new;
      AllCertain(watcher.paths);
      assert Inv() by {
        GroundedHere(watcher.paths, watcher.kernel, watcher.run);
      }
    }

    /** Look at everything again. */
    method Forget()
      modifies this`clean, this`sure, this`baseline, this`touched
      ensures clean == map[] && sure == map[] && baseline == None && touched == Touched({}, [])
    {
      clean, sure, baseline, touched := map[], map[], None, Touched({}, []);
    }

    /** Take what was reported since the last run, and forget what it invalidates. */
    method Begin(creates: bool) returns (ok: bool)
      requires Inv()
      modifies this, watcher
      ensures watcher == old(watcher) || fresh(watcher)
      ensures ok ==> Inv() && Drained() && failure == old(failure)
      ensures watcher.history == old(watcher.history)
      ensures creates ==> ok
      ensures ok ==> old(watcher.kernel.past) <= start.past <= watcher.kernel.past
      ensures ok && old(Whole()) ==> Whole()
      ensures ok && old(IsCertain()) ==> IsCertain() && doubt == {}
    {
      hide Sound, Rooted, Keeps, Held, Twins, Obeys, Lawful, Taken, CleanKept, BaselineKept, Covered, Mentions, Doubtful, Certain, InDoubt, Grounded, Within, Ready,
        DoubtStays, IsPartOf, Watch.Drained;
      ghost var all, r, k := watcher.paths, part, watcher.kernel;
      var drained, at;
      ghost var left;
      drained, at, left := watcher.Drain(part);
      if drained.None? {
        if !creates {
          return false;
        }
        Renew();
        return true;
      }
      LeftCertain(all, r, watcher.paths, left);
      LeftDoubt(all, r, drained.value, watcher.paths, left);
      assert AllTaken(r, k, drained.value, left, at);
      if touched.Count() + drained.value.Count() > REPORTS {
        Discard(at, left);
      } else {
        Absorb(drained.value, all, k, at, left);
      }
      ok := true;
    }

    /** Too much was reported: look at everything again; `left` is what is still followed, and `at` the moment of the drain. */
    method Discard(at: Kernel, ghost left: Registry)
      requires watcher.Valid() && Ready(left, watcher.kernel) && Within(left, watcher.paths)
      requires Present(at) && Keeps(left, at, left, watcher.kernel)
      modifies this`clean, this`sure, this`baseline, this`touched, this`part, this`base, this`start, this`doubt
      ensures Inv() && Drained() && part == left && start == at && doubt == InDoubt(watcher.paths, left) && sure == clean
    {
      hide Rooted, Sound, Held, Keeps, AllAsSeen, AllDirs, CleanKept, Within, Ready, Grounded, BaselineStands, BaselineSeen, InDoubt, Watcher.Valid;
      ReadyIsRooted(left, watcher.kernel);
      GroundedAfter(left, at, watcher.kernel, watcher.run);
      NothingClean(stamps, left, watcher.kernel);
      NothingSeen(stamps, at.fs);
      NoBaseline(matches, contents, watcher.paths, left, watcher.kernel, InDoubt(watcher.paths, left), at.fs);
      Forget();
      part, base, start, doubt := left, left, at, InDoubt(watcher.paths, left);
    }

    /** Forget what was taken invalidates; `left` is what is still followed, and `at` the moment of the drain. */
    method Absorb(taken: Touched, ghost all: Registry, ghost k: Kernel, at: Kernel, ghost left: Registry)
      requires watcher.Valid() && Ready(left, watcher.kernel) && Within(left, watcher.paths) && IsPartOf(sure, clean)
      requires CleanKept(stamps, sure, part, k)
      requires BaselineStands(matches, contents, baseline, touched, all, part, k)
      requires AllTaken(part, k, taken, left, at) && DoubtStays(all, part, taken, watcher.paths, left)
      requires Present(at) && at.queue == [] && Ready(left, at) && Keeps(left, at, left, watcher.kernel)
      modifies this`clean, this`sure, this`touched, this`part, this`base, this`start, this`doubt
      ensures Inv() && Drained() && part == left && start == at && doubt == InDoubt(watcher.paths, left)
      ensures old(sure == clean) ==> sure == clean
    {
      hide Sound, Rooted, Keeps, Held, Lawful, Taken, CleanKept, BaselineKept, BaselineDrained, AllAsSeen, AllDirs, Covered, Mentions, Doubtful, InDoubt, Present,
        DoubtStays, Grounded, Unspoiled, Ready, Within, IsPartOf, AllTaken, CarriesRules, BaselineStands, BaselineSeen, Watcher.Valid, Watcher.Running, Touched.Count;
      ReadyIsRooted(left, watcher.kernel);
      GroundedAfter(left, at, watcher.kernel, watcher.run);
      TakenStands(stamps, sure, clean, part, k, taken, left, at, watcher.kernel);
      BaselineTaken(matches, contents, baseline, touched, all, part, k, taken, watcher.paths, left, at, watcher.kernel);
      clean := Spoil(clean, taken);
      sure, touched := Unspoiled(sure, taken), Union(touched, taken);
      part, base, start, doubt := left, left, at, InDoubt(watcher.paths, left);
    }

    lemma TakenStands(stamps: Stamps, sure: map<Path, Sighting>, clean: map<Path, Sighting>, r: Registry, k: Kernel, t: Touched, left: Registry, at: Kernel, l: Kernel)
      requires CleanKept(stamps, sure, r, k) && IsPartOf(sure, clean) && AllTaken(r, k, t, left, at) && Keeps(left, at, left, l)
      requires at.queue == [] && Ready(left, at)
      ensures CleanKept(stamps, Unspoiled(sure, t), left, l) && AllAsSeen(stamps, Unspoiled(sure, t), at.fs) && AllDirs(Unspoiled(sure, t), at.fs)
      ensures IsPartOf(Unspoiled(sure, t), Unspoiled(clean, t))
    {
      hide Keeps, AllTaken, CleanKept, AllAsSeen, AllDirs, Ready, IsPartOf, Unspoiled;
      TakenClean(stamps, sure, r, k, t, left, at);
      UnspoiledPart(sure, clean, t);
      KeepsRules(left, at, left, l);
      CleanStill(stamps, Unspoiled(sure, t), left, at, left, l);
    }

    lemma BaselineTaken(matches: Matches, contents: nat -> seq<Entry>, b: Option<Baseline>, touched: Touched, all: Registry, r: Registry, k: Kernel, t: Touched,
                        more: Registry, left: Registry, at: Kernel, l: Kernel)
      requires BaselineStands(matches, contents, b, touched, all, r, k) && AllTaken(r, k, t, left, at) && DoubtStays(all, r, t, more, left) && Keeps(left, at, left, l)
      ensures BaselineStands(matches, contents, b, Union(touched, t), more, left, l)
      ensures BaselineSeen(matches, contents, b, Union(touched, t), InDoubt(more, left), at.fs)
    {
      hide Keeps, AllTaken, BaselineKept, BaselineDrained, DoubtStays;
      if b.Some? {
        var entries := contents(b.value.index);
        TakenBaseline(matches, entries, b.value, touched, all, r, k, t, more, left, at);
        SameDoubt(more, left, Union(touched, t));
        BaselineStill(matches, entries, b.value, Union(touched, t), more, left, at, more, left, l);
      }
    }

    /** Every watch may have missed something: start over. */
    method Renew()
      requires watcher.Running()
      modifies this
      ensures fresh(watcher) && Inv() && Drained() && failure == old(failure) && watcher.history == old(watcher.history)
      ensures Whole() && IsCertain() && doubt == {}
      ensures old(watcher.kernel.past) <= start.past <= watcher.kernel.past
    {
      hide Rooted, Certain, Sound, Held, Keeps, Lawful, Taken, Covered, Mentions, Watcher.Valid, Watch.Inv, Watch.Drained, Ready;
      ghost var past := watcher.kernel.past;
      watcher := new Watcher(watcher.env, watcher.opening, watcher.registers, watcher.limit, watcher.kernel.past, watcher.time, watcher.history);
      var ignored, at;
      ghost var left;
      ignored, at, left := watcher.Drain(map[]);
      assert watcher.paths == map[];
      NothingIsReady(watcher.kernel);
      IsPresent(watcher);
      SameWorld(map[], watcher.kernel, watcher.kernel);
      AllCertain(map[]);
      Discard(watcher.kernel, map[]);
    }

    /** The index entries to look at: those of the last run under the same index and the reported ones, or all. */
    method Pick(key: nat, entries: seq<Entry>, taken: Touched) returns (picked: seq<nat>, same: bool)
      requires entries == contents(key) && touched == Touched({}, [])
      requires BaselineStands(matches, contents, baseline, taken, watcher.paths, part, watcher.kernel)
      requires BaselineSeen(matches, contents, baseline, taken, doubt, start.fs)
      ensures Increasing(picked) && InRange(picked, |entries|)
      ensures same <==> baseline.Some? && baseline.value.index == key
      ensures !same ==> forall at :: at in picked <==> 0 <= at < |entries| && !entries[at].exempt
      ensures same ==> forall at :: at in picked <==> 0 <= at < |entries| && (at in baseline.value.recheck || MayConcern(taken, entries[at].path))
      ensures UnpickedFollowed(matches, key, entries, picked, watcher.paths, part, watcher.kernel)
      ensures forall at :: 0 <= at < |entries| && at !in picked && entries[at].path !in doubt ==> Vouched(matches, key, entries[at], Look(start.fs, entries[at].path))
    {
      hide Concerns, Covered, Look, Vouched, Followed, Doubtful;
      same := baseline.Some? && baseline.value.index == key;
      if same {
        picked := PickReported(entries, baseline.value.recheck, taken);
        forall at | 0 <= at < |entries| && at !in picked
          ensures Followed(matches, key, entries[at], part, watcher.kernel) || Doubtful(watcher.paths, part, entries[at].path)
          ensures Vouched(matches, key, entries[at], Look(start.fs, entries[at].path)) || entries[at].path in doubt
        {
          assert at !in baseline.value.recheck && !MayConcern(taken, entries[at].path);
          NotMentioned(taken, entries[at].path);
          assert EntryKept(matches, key, entries[at], taken, watcher.paths, part, watcher.kernel);
        }
      } else {
        picked := PickAll(entries);
        ExemptFollowed(matches, key, entries, picked, watcher.paths, part, watcher.kernel, start.fs);
      }
    }

    /**
    The entries whose files the index cannot vouch for, looking only at those
    the watch cannot answer for. Each of the others was vouched for when the
    reports were taken, unless it was in doubt. Under the index of the last
    run, what is looked at are the entries to recheck and the reported ones.
    */
    method WatchedSuspects(index: Index) returns (suspects: Option<seq<nat>>, ghost looks: map<nat, nat>)
      requires !failure && Inv() && Drained()
      requires index.key.Some? ==> index.entries == contents(index.key.value)
      modifies this`baseline, this`touched, this`failure, this`part, watcher
      ensures index.key.None? ==> suspects.None? && baseline.None? && !failure
      ensures suspects.None? ==> index.key.None? || failure
      ensures start.past <= watcher.kernel.past && old(watcher.kernel.past) <= watcher.kernel.past
      ensures suspects.Some? ==>
        && Increasing(suspects.value)
        && Faithful(matches, index.key.value, index.entries, suspects.value, looks, doubt, |start.past| - 1, watcher.kernel.past)
      ensures suspects.Some? && old(baseline).Some? && old(baseline).value.index == index.key.value ==>
        forall at :: at in looks <==> 0 <= at < |index.entries| && (at in old(baseline).value.recheck || MayConcern(old(touched), index.entries[at].path))
      ensures !failure ==> Inv()
      ensures !failure && old(Whole()) && Rooted(watcher.paths) ==> Whole()
      ensures !failure && old(IsCertain()) && !Completes(old(watcher.paths), watcher.paths) ==> IsCertain()
    {
      hide MayConcern, Sound, Rooted, Keeps, Held, Twins, Obeys, Lawful, CleanKept, BaselineKept, BaselineDrained, AsSeen, Grounded, Completes, Certain,
        Concerns, Covered, Look, Vouched, Followed, FollowedSince, UnpickedFollowed, LookedAt, Retained, Faithful, Ready, DoubtStays, Within,
        BaselineStands, BaselineSeen, IsPartOf, AllAsSeen, AllDirs, Watcher.Valid, Watcher.Running, CarriesRules;
      looks := map[];
      var taken := touched;
      touched := Touched({}, []);
      GroundedPast(base, start, part, watcher.kernel, watcher.run);
      if index.key.None? {
        baseline := None;
        NothingCompletes(watcher.paths);
        NoBaseline(matches, contents, watcher.paths, part, watcher.kernel, doubt, start.fs);
        return None, looks;
      }
      var key, entries := index.key.value, index.entries;
      var picked, same := Pick(key, entries, taken);
      ghost var all, r, k := watcher.paths, part, watcher.kernel;
      var ok := Refresh(entries, picked, same);
      if !ok {
        failure := true;
        return None, looks;
      }
      ghost var s, l := part, watcher.kernel;
      RulesStill(stamps, sure, base, start, r, k, s, l, watcher.run);
      if same {
        UnpickedStill(matches, key, entries, picked, all, r, k, watcher.paths, s, l);
      } else {
        ExemptFollowed(matches, key, entries, picked, watcher.paths, s, l, start.fs);
      }
      var found;
      found, looks := Compare(key, entries, picked);
      suspects := Some(found);
    }

    /** Look at the picked entries, and note the ones to look at again. */
    method Compare(key: nat, entries: seq<Entry>, picked: seq<nat>) returns (suspects: seq<nat>, ghost looks: map<nat, nat>)
      requires entries == contents(key) && InRange(picked, |entries|) && Increasing(picked) && touched == Touched({}, [])
      requires watcher.Valid() && Present(start) && start.past <= watcher.kernel.past
      requires Within(part, watcher.paths) && Ready(part, watcher.kernel) && IsPartOf(sure, clean)
      requires CleanKept(stamps, sure, part, watcher.kernel) && Grounded(base, start, part, watcher.kernel, watcher.run)
      requires UnpickedFollowed(matches, key, entries, picked, watcher.paths, part, watcher.kernel)
      requires forall at :: 0 <= at < |entries| && at !in picked && entries[at].path !in doubt ==> Vouched(matches, key, entries[at], Look(start.fs, entries[at].path))
      modifies this`baseline, watcher`kernel, watcher`time
      ensures Increasing(suspects) && start.past <= watcher.kernel.past && (forall at :: at in looks <==> at in picked)
      ensures old(watcher.kernel.past) <= watcher.kernel.past
      ensures Faithful(matches, key, entries, suspects, looks, doubt, |start.past| - 1, watcher.kernel.past)
      ensures Inv()
    {
      hide Sound, Keeps, Held, Twins, Obeys, Lawful, CleanKept, BaselineKept, Grounded, Rooted,
        Concerns, Covered, Look, Vouched, Followed, FollowedSince, UnpickedFollowed, LookedAt, Faithful, DoubtStays, Within;
      ghost var all, s, l := watcher.paths, part, watcher.kernel;
      var vouched, recheck;
      ghost var when;
      vouched, when := LookAll(watcher, matches, key, entries, picked, part);
      suspects, recheck, looks := SortOut(watcher, entries, picked, vouched, when);
      baseline := Some(Baseline(key, recheck));
      AtDrain(start, watcher.kernel);
      FaithfulHolds(matches, key, entries, picked, vouched, when, suspects, looks, doubt, |start.past| - 1, watcher.kernel, |l.past|);
      KeepsRules(s, l, s, watcher.kernel);
      RulesStill(stamps, sure, base, start, s, l, s, watcher.kernel, watcher.run);
      SameDoubt(all, s, Touched({}, []));
      UnpickedStill(matches, key, entries, picked, all, s, l, all, s, watcher.kernel);
      BaselineHolds(matches, key, entries, picked, vouched, recheck, all, s, watcher.kernel);
    }

    /** Watch what is looked at, and only what this index names. */
    method Refresh(entries: seq<Entry>, picked: seq<nat>, same: bool) returns (ok: bool)
      requires watcher.Valid() && Ready(part, watcher.kernel) && Within(part, watcher.paths) && InRange(picked, |entries|)
      modifies this`part, watcher
      ensures watcher.Running() && old(watcher.kernel.past) <= watcher.kernel.past
      ensures watcher.run == old(watcher.run)
      ensures ok ==>
        && watcher.Valid() && Ready(part, watcher.kernel) && Within(part, watcher.paths)
        && (forall q :: q in part && part[q].since < watcher.run ==> q in old(part) && old(part)[q] == part[q])
        && CarriesRules(old(part), old(watcher.kernel), part, watcher.kernel)
      ensures ok && same ==> Keeps(old(part), old(watcher.kernel), part, watcher.kernel) && DoubtStays(old(watcher.paths), old(part), Touched({}, []), watcher.paths, part)
      ensures ok && old(part == watcher.paths) && Rooted(watcher.paths) ==> part == watcher.paths
      ensures ok && Certain(old(watcher.paths), old(part)) && !Completes(old(watcher.paths), watcher.paths) ==> Certain(watcher.paths, part)
    {
      hide Sound, Rooted, Held, Twins, Obeys, Lawful, Concerns, Covered, Look, Retained, Ready, Carried, Certain, Completes, Firm, DoubtStays;
      ghost var all, r, k := watcher.paths, part, watcher.kernel;
      var rels := Wanted(entries, picked);
      ok := watcher.Add(rels, part);
      if !ok {
        return;
      }
      ghost var added, firm, l := watcher.paths, Firm(all, r, watcher.paths), watcher.kernel;
      part := firm;
      FirmIsRooted(all, r, added);
      SinceBefore(all, r, added, watcher.run);
      KeepsRules(r, k, firm, l);
      if same {
        AddedDoubt(all, r, added, Touched({}, []));
        NowFollowed(all, r, added, added, firm);
      } else {
        var paths := set i | 0 <= i < |picked| :: entries[picked[i]].path;
        var keep := (rel: Path) => rel in paths || IsRules(rel);
        watcher.RetainFiles(keep, part);
        part := Retained(firm, keep);
        RetainedCarriesRules(r, k, firm, l, keep, watcher.kernel);
        FewerRetained(firm, keep);
        FewerRetained(added, keep);
        RetainedBoth(firm, added, keep);
        NowFollowed(all, r, added, watcher.paths, part);
      }
    }

    /** A directory seen in this run, and followed since before it, is what was seen or is reported. */
    lemma WatchedBeforeIsKept(rel: Path, s: Sighting, at: (nat, nat))
      requires Inv() && SeenSince(stamps, rel, s, at, |start.past| - 1, watcher.kernel.past)
      requires watcher.WatchedBefore(rel, Dir) && (s.rules.Some? ==> watcher.WatchedBefore(RulesOf(rel), File))
      requires IsFollowed(rel, s, part)
      ensures DirKept(stamps, rel, s, part, watcher.kernel)
    {
      GroundedLook(base, start, part, watcher.kernel, watcher.run, rel, Dir, at.0);
      if s.rules.Some? {
        GroundedLook(base, start, part, watcher.kernel, watcher.run, RulesOf(rel), File, at.1);
      }
    }

    /** Count a directory as clean; `kept` says that a change to it would be reported. */
    method CountClean(rel: Path, s: Sighting, ghost kept: bool)
      requires Inv() && (kept ==> DirKept(stamps, rel, s, part, watcher.kernel))
      modifies this`clean, this`sure
      ensures Inv() && clean == old(clean)[rel := s]
      ensures kept && old(Whole()) ==> Whole()
    {
      hide Ready, DirKept, Grounded, BaselineKept;
      clean, sure := clean[rel := s], if kept then sure[rel := s] else sure - {rel};
    }

    /** Count as clean what was watched before the run began; the rest is for later. */
    method SettleOld(seen: seq<(Path, Sighting)>, ghost when: seq<(nat, nat)>) returns (later: seq<(Path, Sighting)>)
      requires Inv() && AllSeenSince(stamps, seen, when, |start.past| - 1, watcher.kernel.past)
      modifies this`clean, this`sure
      ensures Inv() && FromSeen(old(clean), seen, clean)
      ensures forall i :: 0 <= i < |later| ==> later[i] in seen
      ensures old(Whole()) ==> Whole()
    {
      hide Ready, DirKept, Grounded, BaselineKept, SeenSince, Watch.Inv, CleanKept, IsFollowed;
      later := [];
      for i := 0 to |seen|
        invariant Inv() && FromSeen(old(clean), seen, clean)
        invariant forall j :: 0 <= j < |later| ==> later[j] in seen
        invariant old(Whole()) ==> Whole()
      {
        var (rel, s) := seen[i];
        if watcher.WatchedBefore(rel, Dir) && (s.rules.None? || watcher.WatchedBefore(RulesOf(rel), File)) {
          ghost var kept := IsFollowed(rel, s, part);
          if kept {
            WatchedBeforeIsKept(rel, s, when[i]);
          }
          WholeFollows(rel, s);
          CountClean(rel, s, kept);
        } else {
          later := later + [seen[i]];
        }
      }
    }

    lemma WholeFollows(rel: Path, s: Sighting)
      requires watcher.Watches(rel, Dir) && (s.rules.Some? ==> watcher.Watches(RulesOf(rel), File))
      ensures Whole() ==> IsFollowed(rel, s, part)
    {
    }

    /** Whether a directory watched only now still is what was seen of it. */
    method Confirm(rel: Path, s: Sighting) returns (same: bool)
      requires Inv()
      modifies watcher`kernel, watcher`time
      ensures Inv() && old(watcher.kernel.past) <= watcher.kernel.past
      ensures same ==> watcher.Watches(rel, Dir) && (s.rules.Some? ==> watcher.Watches(RulesOf(rel), File))
      ensures same && IsFollowed(rel, s, part) ==> DirKept(stamps, rel, s, part, watcher.kernel)
    {
      hide Grounded, BaselineKept, CleanKept, Rooted, Keeps, Sound, Held, DoubtStays, Doubtful, Concerns;
      ghost var r, k := part, watcher.kernel;
      if !watcher.Watches(rel, Dir) {
        return false;
      }
      watcher.Pause(r);
      StepKeepsHeld(watcher.paths, k, watcher.kernel);
      SameDoubt(watcher.paths, r, touched);
      StandingStill(watcher.paths, r, k, watcher.paths, r, watcher.kernel, watcher.run);
      if StampOf(stamps, Look(watcher.kernel.fs, rel)) != Some(s.stamp) {
        return false;
      }
      if rel in r {
        RootedCovers(r, rel);
      }
      if s.rules.None? {
        return true;
      }
      if !watcher.Watches(RulesOf(rel), File) {
        return false;
      }
      ghost var l := watcher.kernel;
      watcher.Pause(r);
      StepKeepsHeld(watcher.paths, l, watcher.kernel);
      StandingStill(watcher.paths, r, l, watcher.paths, r, watcher.kernel, watcher.run);
      if RulesOf(rel) in r {
        RootedCovers(r, RulesOf(rel));
      }
      CarriedAt(r, l, r, watcher.kernel, rel, Dir);
      same := StampOf(stamps, Look(watcher.kernel.fs, RulesOf(rel))) == s.rules;
    }

    /**
    Watch each directory a walk looked at, and count it clean once its watch is
    known to have been in place since the look.
    */
    method Settle(seen: seq<(Path, Sighting)>, ghost when: seq<(nat, nat)>)
      requires !failure && Inv() && AllSeenSince(stamps, seen, when, |start.past| - 1, watcher.kernel.past)
      modifies this`clean, this`sure, this`failure, this`part, watcher
      ensures FromSeen(old(clean), seen, clean) && old(watcher.kernel.past) <= watcher.kernel.past
      ensures !failure ==> Inv()
      ensures !failure && old(Whole()) && Rooted(watcher.paths) ==> Whole()
      ensures !failure && old(IsCertain()) && !Completes(old(watcher.paths), watcher.paths) ==> IsCertain()
    {
      hide Watch.Inv, Rooted, Certain, Completes, AllSeenSince, FromSeen;
      NothingCompletes(watcher.paths);
      var later := SettleOld(seen, when);
      if later == [] {
        return;
      }
      var ok := WatchSeen(later);
      if !ok {
        failure := true;
        return;
      }
      ghost var clean := clean;
      SettleNew(later);
      FromLater(old(this.clean), seen, clean, later, this.clean);
    }

    /** Watch the directories that were not watched before the run. */
    method WatchSeen(later: seq<(Path, Sighting)>) returns (ok: bool)
      requires Inv()
      modifies this`part, watcher
      ensures old(watcher.kernel.past) <= watcher.kernel.past
      ensures ok ==> Inv()
      ensures ok && old(Whole()) && Rooted(watcher.paths) ==> Whole()
      ensures ok && old(IsCertain()) && !Completes(old(watcher.paths), watcher.paths) ==> IsCertain()
    {
      hide CleanKept, Keeps, Rooted, Certain, Completes, Firm, DoubtStays, Watcher.Valid, Sound, Held, IsPartOf, Grounded, BaselineStands, Present;
      ghost var all, r, k := watcher.paths, part, watcher.kernel;
      var rels := SeenPaths(later);
      ok := watcher.Add(rels, part);
      if ok {
        ghost var firm := Firm(all, r, watcher.paths);
        FirmIsRooted(all, r, watcher.paths);
        NowFollowed(all, r, watcher.paths, watcher.paths, firm);
        SinceBefore(all, r, watcher.paths, watcher.run);
        AddedDoubt(all, r, watcher.paths, touched);
        StandingStill(all, r, k, watcher.paths, firm, watcher.kernel, watcher.run);
        part := firm;
      }
    }

    /** Count as clean what is watched only now and still is what was seen. */
    method SettleNew(later: seq<(Path, Sighting)>)
      requires Inv()
      modifies this`clean, this`sure, watcher`kernel, watcher`time
      ensures Inv() && FromSeen(old(clean), later, clean) && old(watcher.kernel.past) <= watcher.kernel.past
      ensures old(Whole()) ==> Whole()
    {
      hide Watch.Inv, DirKept, IsFollowed;
      for i := 0 to |later|
        invariant Inv() && FromSeen(old(clean), later, clean) && old(watcher.kernel.past) <= watcher.kernel.past
        invariant old(Whole()) ==> Whole()
      {
        var (rel, s) := later[i];
        var same := Confirm(rel, s);
        if same {
          WholeFollows(rel, s);
          CountClean(rel, s, IsFollowed(rel, s, part));
        }
      }
    }
  }

  lemma FromLater(before: map<Path, Sighting>, seen: seq<(Path, Sighting)>, clean: map<Path, Sighting>, later: seq<(Path, Sighting)>, after: map<Path, Sighting>)
    requires FromSeen(before, seen, clean) && FromSeen(clean, later, after) && forall i :: 0 <= i < |later| ==> later[i] in seen
    ensures FromSeen(before, seen, after)
  {
    forall rel | rel in after ensures (rel in before && before[rel] == after[rel]) || (rel, after[rel]) in seen {
      if (rel, after[rel]) in later {
        var i :| 0 <= i < |later| && later[i] == (rel, after[rel]);
      }
    }
  }

  predicate IsPartOf(sure: map<Path, Sighting>, clean: map<Path, Sighting>) {
    forall rel :: rel in sure ==> rel in clean && clean[rel] == sure[rel]
  }

  lemma UnspoiledPart(sure: map<Path, Sighting>, clean: map<Path, Sighting>, t: Touched)
    requires IsPartOf(sure, clean)
    ensures IsPartOf(Unspoiled(sure, t), Unspoiled(clean, t))
  {
  }

  /** What was seen of a directory is about paths that are followed. */
  ghost predicate IsFollowed(rel: Path, s: Sighting, part: Registry) {
    rel in part && (s.rules.Some? ==> RulesOf(rel) in part)
  }

  lemma NothingCompletes(r: Registry)
    ensures !Completes(r, r)
  {
  }

  lemma LeftCertain(all: Registry, part: Registry, paths: Registry, left: Registry)
    requires Within(paths, all) && Within(left, paths) && Within(left, part) && forall q :: q in part && q in paths ==> q in left
    ensures Certain(all, part) ==> Certain(paths, left) && InDoubt(paths, left) == {}
    ensures part == all ==> left == paths
  {
    if Certain(all, part) {
      forall p, kind | Covered(paths, p, kind) ensures p in left {
        assert Covered(all, p, kind);
      }
    }
  }

  lemma LeftDoubt(all: Registry, part: Registry, t: Touched, paths: Registry, left: Registry)
    requires Within(left, part) && forall p, kind :: Covered(all, p, kind) ==> Covered(paths, p, kind) || Mentions(t, p, kind)
    ensures DoubtStays(all, part, t, paths, left)
  {
    forall p | Doubtful(all, part, p) ensures Mentions(t, p, File) || Doubtful(paths, left, p) {
      assert Covered(all, p, File);
    }
  }

  /** What is followed after `all` has grown to `paths`, of which `last` is left: all of it under either condition. */
  lemma NowFollowed(all: Registry, part: Registry, paths: Registry, last: Registry, now: Registry)
    requires Within(all, paths) && Within(last, paths) && Within(now, last)
    requires forall q :: q in last && q in Firm(all, part, paths) ==> q in now
    ensures part == all && Rooted(last) ==> now == last
    ensures Certain(all, part) && !Completes(all, last) ==> Certain(last, now)
  {
    if part == all && Rooted(last) {
      WholeIsFirm(all, paths, last);
    }
    if Certain(all, part) && !Completes(all, last) {
      StaysCertain(all, part, paths, last);
    }
  }

  lemma RetainedBoth(r: Registry, all: Registry, keep: Path -> bool)
    requires Within(r, all)
    ensures Within(Retained(r, keep), Retained(all, keep)) && Within(Retained(all, keep), all)
    ensures forall q :: q in Retained(all, keep) && q in r ==> q in Retained(r, keep)
  {
  }

  lemma FewerRetained(r: Registry, keep: Path -> bool)
    ensures forall q :: q in Retained(r, keep) ==> q in r && Retained(r, keep)[q] == r[q]
  {
  }

  lemma RetainedCarriesRules(r: Registry, k: Kernel, s: Registry, l: Kernel, keep: Path -> bool, m: Kernel)
    requires Keeps(r, k, s, l) && Keeps(Retained(s, keep), l, Retained(s, keep), m)
    requires forall p :: IsRules(p) ==> keep(p)
    ensures CarriesRules(r, k, Retained(s, keep), m)
  {
    forall p: Path, kind: Kind | kind.Dir? || IsRules(p) ensures Carried(r, k, Retained(s, keep), m, p, kind) {
      assert Carried(r, k, s, l, p, kind);
      RetainedKeeps(s, keep, l, p, kind);
      assert Carried(Retained(s, keep), l, Retained(s, keep), m, p, kind);
      CarriedTrans(s, l, Retained(s, keep), l, Retained(s, keep), m, p, kind);
      CarriedTrans(r, k, s, l, Retained(s, keep), m, p, kind);
    }
  }

  /** A walk saw a directory and its `.gitignore` at two moments since `from`. */
  ghost predicate SeenSince(stamps: Stamps, rel: Path, s: Sighting, at: (nat, nat), from: nat, past: seq<Fs>) {
    && from <= at.0 < |past| && StampOf(stamps, Look(past[at.0], rel)) == Some(s.stamp)
    && (s.rules.Some? ==> from <= at.1 < |past| && StampOf(stamps, Look(past[at.1], RulesOf(rel))) == s.rules)
  }

  ghost predicate AllSeenSince(stamps: Stamps, seen: seq<(Path, Sighting)>, when: seq<(nat, nat)>, from: int, past: seq<Fs>) {
    from >= 0 && |when| == |seen| && forall i :: 0 <= i < |seen| ==> SeenSince(stamps, seen[i].0, seen[i].1, when[i], from, past)
  }

  /** What is clean was so before, or was seen. */
  predicate FromSeen(before: map<Path, Sighting>, seen: seq<(Path, Sighting)>, clean: map<Path, Sighting>) {
    && before.Keys <= clean.Keys
    && forall rel :: rel in clean ==> (rel in before && before[rel] == clean[rel]) || (rel, clean[rel]) in seen
  }

  /** The directories seen, each with its `.gitignore` when it had one. */
  method SeenPaths(seen: seq<(Path, Sighting)>) returns (rels: seq<(Path, Kind)>)
    ensures forall i :: 0 <= i < |seen| ==> (seen[i].0, Dir) in rels && (seen[i].1.rules.Some? ==> (RulesOf(seen[i].0), File) in rels)
  {
    rels := [];
    for i := 0 to |seen|
      invariant forall j :: 0 <= j < i ==> (seen[j].0, Dir) in rels && (seen[j].1.rules.Some? ==> (RulesOf(seen[j].0), File) in rels)
    {
      var (rel, s) := seen[i];
      rels := rels + [(rel, Dir)] + if s.rules.Some? then [(RulesOf(rel), File)] else [];
    }
  }

  lemma SinceBefore(all: Registry, part: Registry, paths: Registry, run: nat)
    requires Within(part, all) && Within(all, paths) && forall q :: q in paths && paths[q].since < run ==> q in all
    ensures var firm := Firm(all, part, paths);
      forall q :: q in firm && firm[q].since < run ==> q in part && part[q] == firm[q]
  {
    var firm := Firm(all, part, paths);
    forall q | q in firm && firm[q].since < run ensures q in part {
      assert q <= q;
    }
  }

  lemma GroundedLook(base: Registry, at: Kernel, r: Registry, k: Kernel, run: nat, p: Path, kind: Kind, i: nat)
    requires Grounded(base, at, r, k, run) && Present(k) && (kind.Dir? || IsRules(p))
    requires p in r && r[p].kind == kind && r[p].since < run && |at.past| - 1 <= i < |k.past|
    ensures Concerns(r, k.queue, p, kind) || (Covered(r, p, kind) && Look(k.past[i], p) == Look(k.fs, p))
  {
    RootedCovers(base, p);
    assert Carried(base, at, r, k, p, kind);
    if i == |at.past| - 1 {
      assert k.past[i] == at.past[i];
    }
  }

  lemma CarriedAt(r: Registry, k: Kernel, s: Registry, l: Kernel, p: Path, kind: Kind)
    requires Keeps(r, k, s, l)
    ensures Carried(r, k, s, l, p, kind)
  {
  }

  lemma KeepsRules(r: Registry, k: Kernel, s: Registry, l: Kernel)
    requires Keeps(r, k, s, l)
    ensures CarriesRules(r, k, s, l)
  {
  }

  lemma RulesStill(stamps: Stamps, clean: map<Path, Sighting>, base: Registry, at: Kernel, r: Registry, k: Kernel, s: Registry, l: Kernel, run: nat)
    requires CleanKept(stamps, clean, r, k) && Grounded(base, at, r, k, run) && k.past <= l.past && CarriesRules(r, k, s, l)
    requires forall q :: q in s && s[q].since < run ==> q in r && r[q] == s[q]
    ensures CleanKept(stamps, clean, s, l) && Grounded(base, at, s, l, run)
  {
    CleanStill(stamps, clean, r, k, s, l);
    GroundedStill(base, at, r, k, s, l, run);
  }

  lemma AtDrain(start: Kernel, k: Kernel)
    requires Present(start) && start.past <= k.past
    ensures k.past[|start.past| - 1] == start.fs
  {
  }

  lemma NotMentioned(t: Touched, p: Path)
    requires !MayConcern(t, p)
    ensures !Mentions(t, p, File)
  {
    if Mentions(t, p, File) {
      MentionedMayConcern(t, p);
    }
  }

  lemma ExemptFollowed(matches: Matches, key: nat, entries: seq<Entry>, picked: seq<nat>, all: Registry, r: Registry, k: Kernel, fs: Fs)
    requires forall at :: 0 <= at < |entries| && at !in picked ==> entries[at].exempt
    ensures UnpickedFollowed(matches, key, entries, picked, all, r, k)
    ensures forall at :: 0 <= at < |entries| && at !in picked ==> Vouched(matches, key, entries[at], Look(fs, entries[at].path))
  {
  }

  lemma GroundedPast(base: Registry, at: Kernel, r: Registry, k: Kernel, run: nat)
    requires Grounded(base, at, r, k, run)
    ensures at.past <= k.past && Present(at)
  {
  }

  lemma NothingClean(stamps: Stamps, r: Registry, k: Kernel)
    ensures CleanKept(stamps, map[], r, k)
  {
  }

  lemma GroundedHere(r: Registry, k: Kernel, run: nat)
    requires Rooted(r) && Present(k)
    ensures Grounded(r, k, r, k, run)
  {
    SameWorld(r, k, k);
  }

  lemma GroundedAfter(r: Registry, at: Kernel, k: Kernel, run: nat)
    requires Rooted(r) && Present(at) && Keeps(r, at, r, k)
    ensures Grounded(r, at, r, k, run) && CarriesRules(r, at, r, k)
  {
  }

  lemma NoBaseline(matches: Matches, contents: nat -> seq<Entry>, all: Registry, r: Registry, k: Kernel, doubt: set<Path>, fs: Fs)
    ensures BaselineStands(matches, contents, None, Touched({}, []), all, r, k) && BaselineSeen(matches, contents, None, Touched({}, []), doubt, fs)
  {
  }

  lemma NothingSeen(stamps: Stamps, fs: Fs)
    ensures AllAsSeen(stamps, map[], fs) && AllDirs(map[], fs) && IsPartOf(map[], map[])
  {
  }

  lemma ReadyIsRooted(r: Registry, k: Kernel)
    requires Ready(r, k)
    ensures Rooted(r)
  {
  }

  lemma IsPresent(w: Watcher)
    requires w.Valid()
    ensures Present(w.kernel)
  {
  }

  lemma NothingIsReady(k: Kernel)
    ensures Ready(map[], k)
  {
  }
}
