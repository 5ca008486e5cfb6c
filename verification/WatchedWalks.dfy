/**
Runs that share a watch and a memory, while the environment moves. A walk looks
at each directory at a moment of its own, and not at all at those the watch
vouches for; it finds what looking at everything would.
*/
module WatchedWalks {
  import opened Options
  import opened Sightings
  import opened Listings
  import opened Memories
  import opened Walks
  import opened Histories
  import opened Watching
  import opened WatchRuns
  import K = Kernels
  import Kqueue
  import W = Watches

  // ----- what a walk sees -----

  /** A directory by its stamp at one moment, and its ignore file by its own at another. */
  ghost predicate LookedAt(stamps: W.Stamps, past: seq<K.Fs>, rel: Path, t: Tree, at: (nat, nat)) {
    && at.0 < |past| && W.StampOf(stamps, K.Look(past[at.0], rel)) == Some(t.stamp)
    && at.1 < |past| && W.StampOf(stamps, K.Look(past[at.1], W.RulesOf(rel))) == RulesStamp(t)
  }

  /** Each directory of a tree is as it was at moments from `from` up to `to`. */
  ghost predicate Viewed(stamps: W.Stamps, past: seq<K.Fs>, from: nat, to: nat, root: Tree) {
    forall rel :: NodeAt(root, rel).Some? ==>
      exists at: (nat, nat) :: from <= at.0 < to && from <= at.1 < to && LookedAt(stamps, past, rel, NodeAt(root, rel).value, at)
  }

  /**
  `root` is what a walk sees of a work tree whose reports were taken at `d`: each
  directory as it was when it was looked at, or as it was at `d` if the watch
  vouches for it.
  */
  ghost predicate IsView(ledger: Ledger, stamps: W.Stamps, past: seq<K.Fs>, d: nat, stored: map<Path, Listing>, clean: map<Path, Sighting>, root: Tree) {
    forall rel :: NodeAt(root, rel).Some? ==>
      exists at: (nat, nat) ::
        && d <= at.0 && d <= at.1 && LookedAt(stamps, past, rel, NodeAt(root, rel).value, at)
        && (IsVouched(ledger, stored, clean, root, rel) ==> at == (d, d))
  }

  /** What a walk sees, by what happened so far, when the reports were taken, and what is stored and clean. */
  type Views = (seq<K.Fs>, nat, map<Path, Listing>, map<Path, Sighting>) -> Tree

  /** Whatever happens, a walk sees what there is. */
  ghost predicate AllViews(history: K.History, ledger: Ledger, stamps: W.Stamps, views: Views) {
    forall past, d: nat, stored, clean :: history(past) && d < |past| ==> IsView(ledger, stamps, past, d, stored, clean, views(past, d, stored, clean))
  }

  lemma IsViewed(ledger: Ledger, stamps: W.Stamps, past: seq<K.Fs>, d: nat, stored: map<Path, Listing>, clean: map<Path, Sighting>, root: Tree)
    requires IsView(ledger, stamps, past, d, stored, clean, root)
    ensures Viewed(stamps, past, d, |past|, root)
  {
    hide K.Look, NodeAt, IsVouched;
  }

  /** What the watch vouches for when the reports have been taken is true of what the walk sees. */
  lemma CleanSightsAreTrue(ledger: Ledger, stamps: W.Stamps, past: seq<K.Fs>, d: nat, stored: map<Path, Listing>, clean: map<Path, Sighting>, root: Tree)
    requires IsView(ledger, stamps, past, d, stored, clean, root)
    requires d < |past| && AllAsSeen(stamps, clean, past[d])
    ensures VouchesRightly(ledger, stored, clean, root)
  {
    hide K.Look, NodeAt, Matches, Chain;
    forall rel | IsVouched(ledger, stored, clean, root, rel) && NodeAt(root, rel).Some? ensures SightTrue(root, rel, clean[rel]) {
      assert W.AsSeen(stamps, rel, clean[rel], past[d]);
    }
  }

  /** And what the walk tells the watch is what there was since then. */
  lemma TrueSightsAreSeen(stamps: W.Stamps, past: seq<K.Fs>, d: nat, root: Tree, seen: seq<(Path, Sighting)>) returns (when: seq<(nat, nat)>)
    requires Viewed(stamps, past, d, |past|, root)
    requires forall i :: 0 <= i < |seen| ==> SightTrue(root, seen[i].0, seen[i].1)
    ensures AllSeenSince(stamps, seen, when, d, past)
    decreases |seen|
  {
    hide K.Look, NodeAt;
    if seen == [] {
      when := [];
    } else {
      var n := |seen| - 1;
      var before := TrueSightsAreSeen(stamps, past, d, root, seen[..n]);
      assert SightTrue(root, seen[n].0, seen[n].1);
      var at: (nat, nat) :| d <= at.0 < |past| && d <= at.1 < |past| && LookedAt(stamps, past, seen[n].0, NodeAt(root, seen[n].0).value, at);
      when := before + [at];
      assert SeenSince(stamps, seen[n].0, seen[n].1, at, d, past);
      forall i | 0 <= i < |seen| ensures SeenSince(stamps, seen[i].0, seen[i].1, when[i], d, past) {
        assert i < n ==> seen[..n][i] == seen[i] && when[i] == before[i];
      }
    }
  }

  // ----- the moments of the runs -----

  /** What a run is told, the time it takes to be settled and the rules outside the tree; and how long its walk takes. */
  datatype Setting = Setting(before: int, context: Context, around: Around, moments: nat)

  /** The moments of some runs, one after another: what run `i` sees is from `spans[i]`. */
  ghost predicate Drawn(h: seq<Moment>, spans: seq<(nat, nat)>, stamps: W.Stamps, settings: seq<Setting>, past: seq<K.Fs>) {
    && |h| == |spans| <= |settings|
    && (forall i, k :: 0 <= i < k < |spans| ==> spans[i].1 <= spans[k].0 + 1)
    && forall i :: 0 <= i < |h| ==> DrawnAt(h[i], spans[i], stamps, settings[i], past)
  }

  ghost predicate DrawnAt(m: Moment, span: (nat, nat), stamps: W.Stamps, setting: Setting, past: seq<K.Fs>) {
    && m.before == setting.before && m.context == setting.context && m.around == setting.around
    && span.0 < span.1 <= |past| && Viewed(stamps, past, span.0, span.1, m.root)
  }

  lemma DrawnStill(h: seq<Moment>, spans: seq<(nat, nat)>, stamps: W.Stamps, settings: seq<Setting>, past: seq<K.Fs>, more: seq<K.Fs>)
    requires Drawn(h, spans, stamps, settings, past) && past <= more
    ensures Drawn(h, spans, stamps, settings, more)
  {
    hide Viewed;
    forall i | 0 <= i < |h| ensures DrawnAt(h[i], spans[i], stamps, settings[i], more) {
      assert DrawnAt(h[i], spans[i], stamps, settings[i], past);
      ViewedStill(stamps, past, more, spans[i].0, spans[i].1, h[i].root);
    }
  }

  lemma ViewedStill(stamps: W.Stamps, past: seq<K.Fs>, more: seq<K.Fs>, from: nat, to: nat, root: Tree)
    requires Viewed(stamps, past, from, to, root) && to <= |past| && past <= more
    ensures Viewed(stamps, more, from, to, root)
  {
    hide K.Look, NodeAt;
    forall rel | NodeAt(root, rel).Some?
      ensures exists at: (nat, nat) :: from <= at.0 < to && from <= at.1 < to && LookedAt(stamps, more, rel, NodeAt(root, rel).value, at)
    {
      var at: (nat, nat) :| from <= at.0 < to && from <= at.1 < to && LookedAt(stamps, past, rel, NodeAt(root, rel).value, at);
      assert more[at.0] == past[at.0] && more[at.1] == past[at.1];
      assert LookedAt(stamps, more, rel, NodeAt(root, rel).value, at);
    }
  }

  lemma DrawOne(h: seq<Moment>, spans: seq<(nat, nat)>, m: Moment, span: (nat, nat), stamps: W.Stamps, settings: seq<Setting>, past: seq<K.Fs>)
    requires Drawn(h, spans, stamps, settings, past) && |h| < |settings| && DrawnAt(m, span, stamps, settings[|h|], past)
    requires forall i :: 0 <= i < |spans| ==> spans[i].1 <= span.0 + 1
    ensures Drawn(h + [m], spans + [span], stamps, settings, past)
  {
    hide DrawnAt;
  }

  lemma NoLaterThan(h: seq<Moment>, spans: seq<(nat, nat)>, stamps: W.Stamps, settings: seq<Setting>, past: seq<K.Fs>, d: nat)
    requires Drawn(h, spans, stamps, settings, past) && |past| - 1 <= d
    ensures forall i :: 0 <= i < |spans| ==> spans[i].1 <= d + 1
  {
    hide Viewed;
    forall i | 0 <= i < |spans| ensures spans[i].1 <= d + 1 {
      assert DrawnAt(h[i], spans[i], stamps, settings[i], past);
    }
  }

  // ----- one run -----

  /** At the drain, as the file system was then, what counts as clean is as it was seen. */
  lemma AtBegin(watch: Watch)
    requires watch.Drained() && watch.Whole() && watch.start.past <= watch.watcher.kernel.past
    ensures 0 <= |watch.start.past| - 1 < |watch.watcher.kernel.past| && Kqueue.Present(watch.start)
    ensures AllAsSeen(watch.stamps, watch.clean, watch.watcher.kernel.past[|watch.start.past| - 1])
  {
    hide AllAsSeen, AllDirs, BaselineSeen;
    assert watch.watcher.kernel.past[|watch.start.past| - 1] == watch.start.past[|watch.start.past| - 1];
  }

  lemma IsHistory(watch: Watch)
    requires watch.Inv()
    ensures watch.watcher.history(watch.watcher.kernel.past)
  {
  }

  /** The environment moves `n` times. */
  method Linger(watch: Watch, n: nat)
    requires watch.Inv() && Kqueue.Present(watch.start) && watch.start.past <= watch.watcher.kernel.past
    modifies watch.watcher`kernel, watch.watcher`time
    ensures watch.Inv() && old(watch.watcher.kernel.past) <= watch.watcher.kernel.past
  {
    hide Watch.Inv;
    for i := 0 to n
      invariant watch.Inv() && old(watch.watcher.kernel.past) <= watch.watcher.kernel.past
    {
      Wait(watch);
    }
  }

  /** The run of the memory. */
  method MemoryRun(memory: Memory, m: Moment, enters: Path -> bool, ghost h: seq<Moment>, ghost made: map<Path, nat>)
    returns (found: seq<Path>, seen: seq<(Path, Sighting)>, ghost after: map<Path, nat>)
    requires memory.settled == m.before && VouchesRightly(memory.ledger, memory.Replayable(m.context), m.clean, m.root)
    modifies memory
    ensures memory.settled == m.before && forall i :: 0 <= i < |seen| ==> SightTrue(m.root, seen[i].0, seen[i].1)
    ensures old(Remembers(memory, enters, h, made)) && Trustworthy(memory.ledger, m) && NeverBack(h + [m]) ==>
      found == FullWalk(Judge(memory.engine, m.around), enters, m.root, [], []) && Remembers(memory, enters, h + [m], after)
  {
    hide *;
    found, seen, after := RunAgain(memory, m, enters, h, made);
  }

  /** One run with a watch and a memory: take the reports, walk, save, and settle what was seen. */
  method WatchedRun(watch: Watch, memory: Memory, enters: Path -> bool, views: Views, setting: Setting, ghost h: seq<Moment>, ghost made: map<Path, nat>)
    returns (found: seq<Path>, ghost m: Moment, ghost span: (nat, nat), ghost past: seq<K.Fs>, ghost after: map<Path, nat>)
    requires watch.Inv() && watch.Whole() && !watch.failure && memory.settled <= setting.before
    requires AllViews(watch.watcher.history, memory.ledger, watch.stamps, views)
    modifies watch, watch.watcher, memory
    ensures (watch.watcher == old(watch.watcher) || fresh(watch.watcher)) && watch.watcher.history == old(watch.watcher.history)
    ensures !watch.failure && K.Rooted(watch.watcher.paths) ==> watch.Inv() && watch.Whole()
    ensures old(watch.watcher.kernel.past) <= past <= watch.watcher.kernel.past
    ensures DrawnAt(m, span, watch.stamps, setting, past) && |old(watch.watcher.kernel.past)| - 1 <= span.0
    ensures memory.settled == setting.before
    ensures old(Remembers(memory, enters, h, made)) && Trustworthy(memory.ledger, m) && NeverBack(h + [m]) ==>
      && found == FullWalk(Judge(memory.engine, m.around), enters, m.root, [], [])
      && Remembers(memory, enters, h + [m], after)
  {
    hide *;
    ghost var before := watch.watcher.kernel.past;
    NextRun(memory, setting.before, enters, h, made);
    var ok := watch.Begin(true);
    AtBegin(watch);
    Linger(watch, setting.moments);
    AtBegin(watch);
    IsHistory(watch);
    var d, clean, stored := |watch.start.past| - 1, watch.clean, memory.Replayable(setting.context);
    var moment := Moment(setting.before, setting.context, setting.around, views(watch.watcher.kernel.past, d, stored, clean), clean);
    m, past := moment, watch.watcher.kernel.past;
    span := (d, |past|);
    AllViewsAt(watch.watcher.history, memory.ledger, watch.stamps, views, past, d, stored, clean);
    CleanSightsAreTrue(memory.ledger, watch.stamps, past, d, stored, clean, m.root);
    IsViewed(memory.ledger, watch.stamps, past, d, stored, clean, m.root);
    IsDrawn(m, span, watch.stamps, setting, past);
    var seen;
    found, seen, after := MemoryRun(memory, moment, enters, h, made);
    ghost var when := TrueSightsAreSeen(watch.stamps, past, d, m.root, seen);
    watch.Settle(seen, when);
  }

  lemma AllViewsAt(history: K.History, ledger: Ledger, stamps: W.Stamps, views: Views,
                   past: seq<K.Fs>, d: nat, stored: map<Path, Listing>, clean: map<Path, Sighting>)
    requires AllViews(history, ledger, stamps, views) && history(past) && d < |past|
    ensures IsView(ledger, stamps, past, d, stored, clean, views(past, d, stored, clean))
  {
    hide IsView;
  }

  lemma IsDrawn(m: Moment, span: (nat, nat), stamps: W.Stamps, setting: Setting, past: seq<K.Fs>)
    requires m.before == setting.before && m.context == setting.context && m.around == setting.around
    requires span.0 < span.1 <= |past| && Viewed(stamps, past, span.0, span.1, m.root)
    ensures DrawnAt(m, span, stamps, setting, past)
  {
  }

  // ----- many runs -----

  /** As far as settled stamps meant what they always do, and nothing had come back, each walk found what looking at everything would. */
  ghost predicate AllFound(engine: Engine, ledger: Ledger, enters: Path -> bool, found: seq<seq<Path>>, h: seq<Moment>) {
    && |found| == |h|
    && forall i :: 0 <= i < |found| && AllTrustworthy(ledger, h[..i + 1]) && NeverBack(h[..i + 1]) ==>
        found[i] == FullWalk(Judge(engine, h[i].around), enters, h[i].root, [], [])
  }

  lemma OneMoreFound(engine: Engine, ledger: Ledger, enters: Path -> bool, found: seq<seq<Path>>, h: seq<Moment>, files: seq<Path>, m: Moment)
    requires AllFound(engine, ledger, enters, found, h)
    requires AllTrustworthy(ledger, h + [m]) && NeverBack(h + [m]) ==> files == FullWalk(Judge(engine, m.around), enters, m.root, [], [])
    ensures AllFound(engine, ledger, enters, found + [files], h + [m])
  {
    hide FullWalk, AllTrustworthy, NeverBack;
    var all, more := h + [m], found + [files];
    forall i | 0 <= i < |more| && AllTrustworthy(ledger, all[..i + 1]) && NeverBack(all[..i + 1])
      ensures more[i] == FullWalk(Judge(engine, all[i].around), enters, all[i].root, [], [])
    {
      assert all[..i + 1] == if i < |h| then h[..i + 1] else all;
    }
  }

  lemma NothingFound(engine: Engine, ledger: Ledger, enters: Path -> bool, stamps: W.Stamps, settings: seq<Setting>, past: seq<K.Fs>)
    ensures AllFound(engine, ledger, enters, [], []) && Drawn([], [], stamps, settings, past)
  {
  }

  /**
  Any number of runs over one watched work tree, until watching stops or a
  directory above a registered path cannot be watched. The tree of each is what
  its walk saw, every directory at a moment of that run; and the walk found in it
  what looking at everything would, as long as nothing had come back.
  */
  method WatchedRuns(watch: Watch, engine: Engine, ghost ledger: Ledger, enters: Path -> bool, views: Views, settings: seq<Setting>)
    returns (found: seq<seq<Path>>, ghost h: seq<Moment>, ghost spans: seq<(nat, nat)>, ghost past: seq<K.Fs>)
    requires watch.Inv() && watch.Whole() && !watch.failure
    requires forall i, k :: 0 <= i < k < |settings| ==> settings[i].before <= settings[k].before
    requires AllViews(watch.watcher.history, ledger, watch.stamps, views)
    modifies watch, watch.watcher
    ensures AllFound(engine, ledger, enters, found, h) && Drawn(h, spans, watch.stamps, settings, past)
    ensures old(watch.watcher.kernel.past) <= past
    ensures |found| < |settings| ==> watch.failure || !K.Rooted(watch.watcher.paths)
  {
    hide *;
    found, h, spans, past := [], [], [], watch.watcher.kernel.past;
    ghost var made, first := map[], past;
    NothingFound(engine, ledger, enters, watch.stamps, settings, past);
    if settings == [] {
      return;
    }
    var memory := new Memory(engine, ledger, settings[0].before);
    NothingRemembered(memory, enters);
    var at, going := 0, true;
    while at < |settings| && going
      invariant fresh(memory) && memory.engine == engine && memory.ledger == ledger && 0 <= at <= |settings|
      invariant (watch.watcher == old(watch.watcher) || fresh(watch.watcher)) && watch.watcher.history == old(watch.watcher.history)
      invariant going ==> watch.Inv() && watch.Whole() && !watch.failure
      invariant !going ==> watch.failure || !K.Rooted(watch.watcher.paths)
      invariant memory.settled <= settings[if at < |settings| then at else at - 1].before
      invariant AllTrustworthy(ledger, h) && NeverBack(h) ==> Remembers(memory, enters, h, made)
      invariant |h| == |found| == at && AllFound(engine, ledger, enters, found, h) && Drawn(h, spans, watch.stamps, settings, past)
      invariant first <= past <= watch.watcher.kernel.past
    {
      DrawnStill(h, spans, watch.stamps, settings, past, watch.watcher.kernel.past);
      ghost var before := watch.watcher.kernel.past;
      var files;
      ghost var m, span, after;
      files, m, span, past, after := WatchedRun(watch, memory, enters, views, settings[at], h, made);
      SoFar(ledger, h, m);
      NoLaterThan(h, spans, watch.stamps, settings, before, span.0);
      DrawnStill(h, spans, watch.stamps, settings, before, past);
      DrawOne(h, spans, m, span, watch.stamps, settings, past);
      OneMoreFound(engine, ledger, enters, found, h, files, m);
      found, h, spans, made := found + [files], h + [m], spans + [span], after;
      going := !watch.failure && K.Rooted(watch.watcher.paths);
      at := at + 1;
    }
  }
}
