/**
Watching a work tree between runs: which index entries need no second look, and
which directories still are what a walk saw of them.
*/
module Watches {
  import opened Options
  import opened Sightings
  import opened Kernels
  import opened Kqueue

  /** `exempt`: git never reports the entry, whatever its file holds. */
  datatype Entry = Entry(path: Path, stage: nat, exempt: bool, stat: nat)

  /** An index; its key names its content. */
  datatype Index = Index(key: Option<nat>, entries: seq<Entry>)

  datatype Baseline = Baseline(index: nat, recheck: seq<nat>)

  const GITIGNORE := ".gitignore"

  function RulesOf(dir: Path): Path {
    dir + [GITIGNORE]
  }

  predicate IsRules(p: Path) {
    p != [] && p[|p| - 1] == GITIGNORE
  }

  type Matches = (nat, Entry, nat, Inode) -> bool
  type Stamps = (nat, Inode) -> Stamp

  /** Whether what is found at an entry's path needs no closer look. */
  predicate Vouched(matches: Matches, key: nat, e: Entry, view: View) {
    e.exempt || (e.stage == 0 && view.Found? && view.inode.Plain? && matches(key, e, view.ino, view.inode))
  }

  function StampOf(stamps: Stamps, view: View): (stamp: Option<Stamp>)
    ensures stamp.None? <==> view.Absent?
  {
    match view
    case Absent => None
    case Found(ino, inode) => Some(stamps(ino, inode))
  }

  // ----- what holds between runs -----

  /** An entry is vouched for now, by a file whose changes are reported, or a report concerns it. */
  ghost predicate Followed(matches: Matches, key: nat, e: Entry, r: Registry, k: Kernel) {
    || e.exempt
    || Concerns(r, k.queue, e.path, File)
    || (Covered(r, e.path, File) && Vouched(matches, key, e, Look(k.fs, e.path)))
  }

  /**
  `p` and every directory above it are registered in `all`, though not all of
  them are in the part `r` that is followed: a directory above was registered
  later than something below it.
  */
  ghost predicate Doubtful(all: Registry, r: Registry, p: Path) {
    Covered(all, p, File) && p !in r
  }

  /** A doubtful path is so in the new registrations as well, or mentioned. */
  ghost predicate DoubtStays(all: Registry, r: Registry, t: Touched, more: Registry, s: Registry) {
    forall p :: Doubtful(all, r, p) ==> Mentions(t, p, File) || Doubtful(more, s, p)
  }

  ghost predicate EntryKept(matches: Matches, key: nat, e: Entry, t: Touched, all: Registry, r: Registry, k: Kernel) {
    Mentions(t, e.path, File) || Followed(matches, key, e, r, k) || Doubtful(all, r, e.path)
  }

  ghost predicate BaselineKept(matches: Matches, entries: seq<Entry>, b: Baseline, t: Touched, all: Registry, r: Registry, k: Kernel) {
    forall at :: 0 <= at < |entries| && at !in b.recheck ==> EntryKept(matches, b.index, entries[at], t, all, r, k)
  }

  /** A report concerns a directory or the `.gitignore` seen in it. */
  ghost predicate Disturbed(rel: Path, s: Sighting, r: Registry, queue: seq<Report>) {
    Concerns(r, queue, rel, Dir) || (s.rules.Some? && Concerns(r, queue, RulesOf(rel), File))
  }

  /** A directory and its `.gitignore` are what was seen of them. */
  ghost predicate AsSeen(stamps: Stamps, rel: Path, s: Sighting, fs: Fs) {
    && StampOf(stamps, Look(fs, rel)) == Some(s.stamp)
    && (s.rules.Some? ==> StampOf(stamps, Look(fs, RulesOf(rel))) == s.rules)
  }

  /** A clean directory is what was seen of it, and changes would be reported; or one was. */
  ghost predicate DirKept(stamps: Stamps, rel: Path, s: Sighting, r: Registry, k: Kernel) {
    || Disturbed(rel, s, r, k.queue)
    || (AsSeen(stamps, rel, s, k.fs) && Covered(r, rel, Dir) && (s.rules.Some? ==> Covered(r, RulesOf(rel), File)))
  }

  ghost predicate CleanKept(stamps: Stamps, clean: map<Path, Sighting>, r: Registry, k: Kernel) {
    forall rel :: rel in clean ==> DirKept(stamps, rel, clean[rel], r, k)
  }

  /** Reports are kept, and changes reported, for directories and `.gitignore` files. */
  ghost predicate CarriesRules(r: Registry, k: Kernel, s: Registry, l: Kernel) {
    forall p: Path, kind: Kind :: kind.Dir? || IsRules(p) ==> Carried(r, k, s, l, p, kind)
  }

  /** What was watched before the run has had its changes reported since the drain. */
  ghost predicate Grounded(base: Registry, at: Kernel, r: Registry, k: Kernel, run: nat) {
    && at.past <= k.past && Present(at) && Rooted(base)
    && (forall q :: q in r && r[q].since < run ==> q in base && base[q] == r[q])
    && CarriesRules(base, at, r, k)
  }

  // ----- keeping it -----

  lemma FollowedStill(matches: Matches, key: nat, e: Entry, r: Registry, k: Kernel, s: Registry, l: Kernel)
    requires Followed(matches, key, e, r, k) && Carried(r, k, s, l, e.path, File)
    ensures Followed(matches, key, e, s, l)
  {
  }

  lemma DirStill(stamps: Stamps, rel: Path, sighting: Sighting, r: Registry, k: Kernel, s: Registry, l: Kernel)
    requires DirKept(stamps, rel, sighting, r, k)
    requires Carried(r, k, s, l, rel, Dir) && Carried(r, k, s, l, RulesOf(rel), File)
    ensures DirKept(stamps, rel, sighting, s, l)
  {
  }

  lemma CleanStill(stamps: Stamps, clean: map<Path, Sighting>, r: Registry, k: Kernel, s: Registry, l: Kernel)
    requires CleanKept(stamps, clean, r, k)
    requires CarriesRules(r, k, s, l)
    ensures CleanKept(stamps, clean, s, l)
  {
    forall rel | rel in clean ensures DirKept(stamps, rel, clean[rel], s, l) {
      assert Carried(r, k, s, l, rel, Dir) && IsRules(RulesOf(rel)) && Carried(r, k, s, l, RulesOf(rel), File);
      DirStill(stamps, rel, clean[rel], r, k, s, l);
    }
  }

  lemma BaselineStill(matches: Matches, entries: seq<Entry>, b: Baseline, t: Touched, all: Registry, r: Registry, k: Kernel, more: Registry, s: Registry, l: Kernel)
    requires BaselineKept(matches, entries, b, t, all, r, k) && Keeps(r, k, s, l) && DoubtStays(all, r, t, more, s)
    ensures BaselineKept(matches, entries, b, t, more, s, l)
  {
    forall at | 0 <= at < |entries| && at !in b.recheck ensures EntryKept(matches, b.index, entries[at], t, more, s, l) {
      assert EntryKept(matches, b.index, entries[at], t, all, r, k);
      if Followed(matches, b.index, entries[at], r, k) {
        assert Carried(r, k, s, l, entries[at].path, File);
        FollowedStill(matches, b.index, entries[at], r, k, s, l);
      }
    }
  }

  lemma GroundedStill(base: Registry, at: Kernel, r: Registry, k: Kernel, s: Registry, l: Kernel, run: nat)
    requires Grounded(base, at, r, k, run) && k.past <= l.past
    requires forall q :: q in s && s[q].since < run ==> q in r && r[q] == s[q]
    requires CarriesRules(r, k, s, l)
    ensures Grounded(base, at, s, l, run)
  {
    forall p: Path, kind: Kind | kind.Dir? || IsRules(p) ensures Carried(base, at, s, l, p, kind) {
      assert Carried(base, at, r, k, p, kind) && Carried(r, k, s, l, p, kind);
      CarriedTrans(base, at, r, k, s, l, p, kind);
    }
  }

  // ----- which entries to look at -----

  /** Whether something reported may concern a file: itself, the directory it is directly in, or one above it that is gone. */
  predicate MayConcern(t: Touched, p: Path) {
    || p in t.paths
    || (p != [] && p[..|p| - 1] in t.paths)
    || exists i :: 0 <= i < |t.subtrees| && t.subtrees[i] < p
  }

  lemma MentionedMayConcern(t: Touched, p: Path)
    requires Mentions(t, p, File)
    ensures MayConcern(t, p)
  {
    if p !in t.paths {
      var s :| s in t.subtrees && s <= p && s != p;
      var i :| 0 <= i < |t.subtrees| && t.subtrees[i] == s;
    }
  }

  predicate Increasing(s: seq<nat>) {
    forall i, j :: 0 <= i < j < |s| ==> s[i] < s[j]
  }

  predicate InRange(picked: seq<nat>, n: nat) {
    forall i :: 0 <= i < |picked| ==> picked[i] < n
  }

  method PickReported(entries: seq<Entry>, recheck: seq<nat>, t: Touched) returns (picked: seq<nat>)
    ensures Increasing(picked) && InRange(picked, |entries|)
    ensures forall at :: at in picked <==> 0 <= at < |entries| && (at in recheck || MayConcern(t, entries[at].path))
  {
    picked := [];
    for at := 0 to |entries|
      invariant Increasing(picked) && InRange(picked, at)
      invariant forall i :: i in picked <==> 0 <= i < at && (i in recheck || MayConcern(t, entries[i].path))
    {
      if at in recheck || MayConcern(t, entries[at].path) {
        picked := picked + [at];
      }
    }
  }

  method PickAll(entries: seq<Entry>) returns (picked: seq<nat>)
    ensures Increasing(picked) && InRange(picked, |entries|)
    ensures forall at :: at in picked <==> 0 <= at < |entries| && !entries[at].exempt
  {
    picked := [];
    for at := 0 to |entries|
      invariant Increasing(picked) && InRange(picked, at)
      invariant forall i :: i in picked <==> 0 <= i < at && !entries[i].exempt
    {
      if !entries[at].exempt {
        picked := picked + [at];
      }
    }
  }

  /** The directories above a path, from the root down. */
  function Ancestors(rel: Path): (dirs: seq<Path>)
    ensures forall dir :: dir in dirs <==> dir <= rel && dir != rel
  {
    var dirs := seq(|rel|, i requires 0 <= i < |rel| => rel[..i]);
    assert forall i :: 0 <= i < |rel| ==> dirs[i] == rel[..i];
    assert forall dir :: dir <= rel && dir != rel ==> dir == dirs[|dir|];
    dirs
  }

  /** The files at the picked positions, and the directories above each. */
  method Wanted(entries: seq<Entry>, picked: seq<nat>) returns (wanted: seq<(Path, Kind)>)
    requires InRange(picked, |entries|)
    ensures forall i :: 0 <= i < |picked| ==> (entries[picked[i]].path, File) in wanted
    ensures forall i, dir :: 0 <= i < |picked| && dir in Ancestors(entries[picked[i]].path) ==> (dir, Dir) in wanted
  {
    wanted := [];
    for i := 0 to |picked|
      invariant forall j :: 0 <= j < i ==> (entries[picked[j]].path, File) in wanted
      invariant forall j, dir :: 0 <= j < i && dir in Ancestors(entries[picked[j]].path) ==> (dir, Dir) in wanted
    {
      var rel := entries[picked[i]].path;
      var dirs := AsDirs(Ancestors(rel));
      wanted := dirs + wanted + [(rel, File)];
    }
  }

  method AsDirs(dirs: seq<Path>) returns (wanted: seq<(Path, Kind)>)
    ensures forall dir :: dir in dirs ==> (dir, Dir) in wanted
  {
    wanted := [];
    for i := 0 to |dirs|
      invariant forall j :: 0 <= j < i ==> (dirs[j], Dir) in wanted
    {
      wanted := wanted + [(dirs[i], Dir)];
    }
  }

  // ----- the watch -----

  /** What the picked entries were found to be, each at its own moment. */
  ghost predicate LookedAt(matches: Matches, key: nat, entries: seq<Entry>, picked: seq<nat>, vouched: seq<bool>, when: seq<nat>, k: Kernel, from: nat) {
    && |vouched| == |when| <= |picked|
    && forall i :: 0 <= i < |vouched| ==>
        && picked[i] < |entries| && from <= when[i] < |k.past|
        && vouched[i] == Vouched(matches, key, entries[picked[i]], Look(k.past[when[i]], entries[picked[i]].path))
  }

  /** Every picked entry that was vouched for is followed from then on, if it is covered. */
  ghost predicate FollowedSince(matches: Matches, key: nat, entries: seq<Entry>, picked: seq<nat>, vouched: seq<bool>, r: Registry, k: Kernel) {
    forall i :: 0 <= i < |vouched| && i < |picked| && picked[i] < |entries| && vouched[i] && Covered(r, entries[picked[i]].path, File) ==>
      Followed(matches, key, entries[picked[i]], r, k)
  }

  lemma FollowedSinceStill(matches: Matches, key: nat, entries: seq<Entry>, picked: seq<nat>, vouched: seq<bool>, r: Registry, k: Kernel, l: Kernel)
    requires FollowedSince(matches, key, entries, picked, vouched, r, k) && Keeps(r, k, r, l)
    ensures FollowedSince(matches, key, entries, picked, vouched, r, l)
  {
    forall i | 0 <= i < |vouched| && i < |picked| && picked[i] < |entries| && vouched[i] && Covered(r, entries[picked[i]].path, File)
      ensures Followed(matches, key, entries[picked[i]], r, l)
    {
      var e := entries[picked[i]];
      assert Carried(r, k, r, l, e.path, File);
      FollowedStill(matches, key, e, r, k, r, l);
    }
  }

  lemma LookedAtStill(matches: Matches, key: nat, entries: seq<Entry>, picked: seq<nat>, vouched: seq<bool>, when: seq<nat>, k: Kernel, l: Kernel, from: nat)
    requires LookedAt(matches, key, entries, picked, vouched, when, k, from) && k.past <= l.past
    ensures LookedAt(matches, key, entries, picked, vouched, when, l, from)
  {
    forall i | 0 <= i < |vouched| ensures l.past[when[i]] == k.past[when[i]] {
    }
  }

  /** Compare the picked entries with their files, while the environment moves. */
  method LookAll(w: Watcher, matches: Matches, key: nat, entries: seq<Entry>, picked: seq<nat>, ghost part: Registry) returns (vouched: seq<bool>, ghost when: seq<nat>)
    requires w.Valid() && InRange(picked, |entries|) && Ready(part, w.kernel)
    modifies w`kernel, w`time
    ensures w.Valid() && old(w.kernel.past) <= w.kernel.past && |vouched| == |when| == |picked|
    ensures LookedAt(matches, key, entries, picked, vouched, when, w.kernel, |old(w.kernel.past)|)
    ensures Ready(part, w.kernel) && Keeps(part, old(w.kernel), part, w.kernel)
    ensures FollowedSince(matches, key, entries, picked, vouched, part, w.kernel)
  {
    hide Sound, Rooted, Held, Lawful, Twins, Keeps, Concerns, Covered, Look, LookedAt, FollowedSince, Ready;
    ghost var start, r := w.kernel, w.paths;
    vouched, when := [], [];
    SameWorld(part, start, start);
    NothingLookedAt(matches, key, entries, picked, part, start);
    for i := 0 to |picked|
      invariant w.Valid() && start.past <= w.kernel.past && |vouched| == |when| == i
      invariant LookedAt(matches, key, entries, picked, vouched, when, w.kernel, |start.past|)
      invariant Ready(part, w.kernel) && Keeps(part, start, part, w.kernel)
      invariant FollowedSince(matches, key, entries, picked, vouched, part, w.kernel)
    {
      ghost var before := w.kernel;
      w.Pause(part);
      StepKeepsHeld(r, before, w.kernel);
      KeepsTrans(part, start, part, before, part, w.kernel);
      FollowedSinceStill(matches, key, entries, picked, vouched, part, before, w.kernel);
      LookedAtStill(matches, key, entries, picked, vouched, when, before, w.kernel, |start.past|);
      var found := Vouched(matches, key, entries[picked[i]], Look(w.kernel.fs, entries[picked[i]].path));
      OneMoreLook(matches, key, entries, picked, vouched, when, found, part, w.kernel, |start.past|);
      vouched, when := vouched + [found], when + [|w.kernel.past| - 1];
    }
  }

  lemma NothingLookedAt(matches: Matches, key: nat, entries: seq<Entry>, picked: seq<nat>, r: Registry, k: Kernel)
    ensures LookedAt(matches, key, entries, picked, [], [], k, |k.past|)
    ensures FollowedSince(matches, key, entries, picked, [], r, k)
  {
  }

  lemma OneMoreLook(matches: Matches, key: nat, entries: seq<Entry>, picked: seq<nat>, vouched: seq<bool>, when: seq<nat>, found: bool, r: Registry, k: Kernel, from: nat)
    requires LookedAt(matches, key, entries, picked, vouched, when, k, from)
    requires |vouched| < |picked| && picked[|vouched|] < |entries| && Present(k) && from < |k.past|
    requires found == Vouched(matches, key, entries[picked[|vouched|]], Look(k.fs, entries[picked[|vouched|]].path))
    ensures LookedAt(matches, key, entries, picked, vouched + [found], when + [|k.past| - 1], k, from)
    ensures FollowedSince(matches, key, entries, picked, vouched, r, k) ==> FollowedSince(matches, key, entries, picked, vouched + [found], r, k)
  {
  }

  // ----- one comparison -----

  /** A change to the file at `rel` would be reported. */
  predicate Covers(w: Watcher, rel: Path)
    reads w
    ensures Covers(w, rel) <==> Covered(w.paths, rel, File)
  {
    assert forall a :: a <= rel && a != rel ==> a == rel[..|a|];
    w.Watches(rel, File) && forall i :: 0 <= i < |rel| ==> w.Watches(rel[..i], Dir)
  }

  /** What is suspect, and what to look at again next time. */
  method SortOut(w: Watcher, entries: seq<Entry>, picked: seq<nat>, vouched: seq<bool>, ghost when: seq<nat>)
    returns (suspects: seq<nat>, recheck: seq<nat>, ghost looks: map<nat, nat>)
    requires InRange(picked, |entries|) && Increasing(picked) && |picked| == |vouched| == |when|
    ensures Increasing(suspects) && (forall at :: at in suspects || at in recheck ==> at in picked)
    ensures forall at :: at in looks <==> at in picked
    ensures forall i :: 0 <= i < |picked| ==>
      && looks[picked[i]] == when[i] && (picked[i] in suspects <==> !vouched[i])
      && (picked[i] in recheck <==> !vouched[i] || !Covered(w.paths, entries[picked[i]].path, File))
  {
    suspects, recheck, looks := [], [], map[];
    for i := 0 to |picked|
      invariant Increasing(suspects) && (forall at :: at in suspects || at in recheck || at in looks ==> at in picked[..i])
      invariant i < |picked| ==> forall j :: 0 <= j < |suspects| ==> suspects[j] < picked[i]
      invariant forall j :: 0 <= j < i ==>
        && picked[j] in looks && looks[picked[j]] == when[j] && (picked[j] in suspects <==> !vouched[j])
        && (picked[j] in recheck <==> !vouched[j] || !Covered(w.paths, entries[picked[j]].path, File))
    {
      var covers := Covers(w, entries[picked[i]].path);
      assert picked[..i + 1] == picked[..i] + [picked[i]];
      if !vouched[i] {
        suspects := suspects + [picked[i]];
      }
      if !vouched[i] || !covers {
        recheck := recheck + [picked[i]];
      }
      looks := looks[picked[i] := when[i]];
    }
    assert picked[..|picked|] == picked;
  }

  /** When an entry was last known to be clean or found suspect: at its look, or at the drain. */
  function Moment(looks: map<nat, nat>, drain: nat, at: nat): nat {
    if at in looks then looks[at] else drain
  }

  /**
  The suspects are exactly the entries that were not vouched for at their
  moment, among those that were looked at and those not in doubt.
  */
  ghost predicate Faithful(matches: Matches, key: nat, entries: seq<Entry>, suspects: seq<nat>, looks: map<nat, nat>, doubt: set<Path>, drain: nat, past: seq<Fs>) {
    forall at :: 0 <= at < |entries| && (at in looks || entries[at].path !in doubt) ==>
      var moment := Moment(looks, drain, at);
      drain <= moment < |past| && (at in suspects <==> !Vouched(matches, key, entries[at], Look(past[moment], entries[at].path)))
  }

  /** When nothing changes during the run, a full comparison finds the same suspects. */
  lemma QuietRunIsFull(matches: Matches, key: nat, entries: seq<Entry>, suspects: seq<nat>, looks: map<nat, nat>, doubt: set<Path>, drain: nat, past: seq<Fs>, fs: Fs)
    requires Faithful(matches, key, entries, suspects, looks, doubt, drain, past)
    requires forall i :: drain <= i < |past| ==> past[i] == fs
    ensures forall at :: 0 <= at < |entries| && (at in looks || entries[at].path !in doubt) ==>
      (at in suspects <==> !Vouched(matches, key, entries[at], Look(fs, entries[at].path)))
  {
    forall at | 0 <= at < |entries| && (at in looks || entries[at].path !in doubt)
      ensures at in suspects <==> !Vouched(matches, key, entries[at], Look(fs, entries[at].path))
    {
      assert past[Moment(looks, drain, at)] == fs;
    }
  }

  /** Each entry that is not picked is followed, or in doubt. */
  ghost predicate UnpickedFollowed(matches: Matches, key: nat, entries: seq<Entry>, picked: seq<nat>, all: Registry, r: Registry, k: Kernel) {
    forall at :: 0 <= at < |entries| && at !in picked ==> Followed(matches, key, entries[at], r, k) || Doubtful(all, r, entries[at].path)
  }

  lemma UnpickedStill(matches: Matches, key: nat, entries: seq<Entry>, picked: seq<nat>, all: Registry, r: Registry, k: Kernel, more: Registry, s: Registry, l: Kernel)
    requires UnpickedFollowed(matches, key, entries, picked, all, r, k) && Keeps(r, k, s, l) && DoubtStays(all, r, Touched({}, []), more, s)
    ensures UnpickedFollowed(matches, key, entries, picked, more, s, l)
  {
    forall at | 0 <= at < |entries| && at !in picked ensures Followed(matches, key, entries[at], s, l) || Doubtful(more, s, entries[at].path) {
      if Followed(matches, key, entries[at], r, k) {
        assert Carried(r, k, s, l, entries[at].path, File);
        FollowedStill(matches, key, entries[at], r, k, s, l);
      }
    }
  }

  /** Outside the entries to look at again, each is vouched for at the drain, or in doubt, or something taken since concerns it. */
  ghost predicate BaselineDrained(matches: Matches, entries: seq<Entry>, b: Baseline, t: Touched, doubt: set<Path>, fs: Fs) {
    forall at :: 0 <= at < |entries| && at !in b.recheck ==>
      Mentions(t, entries[at].path, File) || Vouched(matches, b.index, entries[at], Look(fs, entries[at].path)) || entries[at].path in doubt
  }

  lemma FaithfulHolds(matches: Matches, key: nat, entries: seq<Entry>, picked: seq<nat>, vouched: seq<bool>, when: seq<nat>,
                      suspects: seq<nat>, looks: map<nat, nat>, doubt: set<Path>, drain: nat, k: Kernel, from: nat)
    requires LookedAt(matches, key, entries, picked, vouched, when, k, from) && |vouched| == |picked| && drain < from && drain < |k.past|
    requires forall at :: at in suspects || at in looks ==> at in picked
    requires forall i :: 0 <= i < |picked| ==> picked[i] in looks && looks[picked[i]] == when[i] && (picked[i] in suspects <==> !vouched[i])
    requires forall at :: 0 <= at < |entries| && at !in picked && entries[at].path !in doubt ==>
      Vouched(matches, key, entries[at], Look(k.past[drain], entries[at].path))
    ensures Faithful(matches, key, entries, suspects, looks, doubt, drain, k.past)
  {
    forall at | 0 <= at < |entries| && (at in looks || entries[at].path !in doubt)
      ensures var moment := Moment(looks, drain, at);
        drain <= moment < |k.past| && (at in suspects <==> !Vouched(matches, key, entries[at], Look(k.past[moment], entries[at].path)))
    {
      if at in picked {
        var i :| 0 <= i < |picked| && picked[i] == at;
        assert from <= when[i] < |k.past|;
      }
    }
  }

  lemma BaselineHolds(matches: Matches, key: nat, entries: seq<Entry>, picked: seq<nat>, vouched: seq<bool>, recheck: seq<nat>, all: Registry, r: Registry, k: Kernel)
    requires UnpickedFollowed(matches, key, entries, picked, all, r, k) && FollowedSince(matches, key, entries, picked, vouched, r, k)
    requires Within(r, all) && Rooted(r) && |vouched| == |picked| && InRange(picked, |entries|)
    requires forall i :: 0 <= i < |picked| ==> (picked[i] in recheck <==> !vouched[i] || !Covered(all, entries[picked[i]].path, File))
    ensures BaselineKept(matches, entries, Baseline(key, recheck), Touched({}, []), all, r, k)
  {
    forall at | 0 <= at < |entries| && at !in recheck ensures Followed(matches, key, entries[at], r, k) || Doubtful(all, r, entries[at].path) {
      if at in picked {
        var i :| 0 <= i < |picked| && picked[i] == at;
        if entries[at].path in r {
          RootedCovers(r, entries[at].path);
        }
      }
    }
  }

  lemma RootedCovers(r: Registry, p: Path)
    requires p in r && Rooted(r)
    ensures Covered(r, p, r[p].kind)
  {
    forall a | a <= p && a != p ensures a in r && r[a].kind.Dir? {
      PrefixesAreDirs(r, p, a);
    }
  }
}
