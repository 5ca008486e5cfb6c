/**
The kqueue watcher: a descriptor for every watched file and directory. The
environment moves between any two calls into the system, so nothing seen before
a call need still hold after it.
*/
module Kqueue {
  import opened Options
  import opened Kernels

  /** Past this many reports in one run, they are not sorted out. */
  const REPORTS: nat := 2048

  /** Descriptors left for everything else the process opens. */
  const SPARE: nat := 1024

  /** What was reported: paths that changed, and directories whose paths may name other files now. */
  datatype Touched = Touched(paths: set<Path>, subtrees: seq<Path>) {
    function Count(): nat {
      |paths| + |subtrees|
    }
  }

  /** `p`, watched as a `kind`, is among what was reported. */
  ghost predicate Mentions(t: Touched, p: Path, kind: Kind) {
    p in t.paths || exists s :: s in t.subtrees && s <= p && (s != p || kind.Dir?)
  }

  /** What a drain does for `p`: no report is lost, and what is covered without one looks as it did. */
  ghost predicate Taken(r: Registry, k: Kernel, t: Touched, s: Registry, l: Kernel, p: Path, kind: Kind) {
    && (Concerns(r, k.queue, p, kind) ==> Mentions(t, p, kind))
    && (Covered(r, p, kind) ==> Mentions(t, p, kind) || (Covered(s, p, kind) && s[p] == r[p] && SameLook(k, l, p)))
  }

  ghost predicate Within(base: Registry, r: Registry) {
    forall q :: q in base ==> q in r && r[q] == base[q]
  }

  ghost predicate Twins(paths: Registry, fds: map<nat, Path>) {
    && (forall q :: q in paths ==> paths[q].handle in fds && fds[paths[q].handle] == q)
    && (forall h :: h in fds ==> fds[h] in paths && paths[fds[h]].handle == h)
  }

  ghost predicate Present(k: Kernel) {
    k.past != [] && k.past[|k.past| - 1] == k.fs
  }

  ghost predicate Ready(r: Registry, k: Kernel) {
    Rooted(r) && Held(r, k) && Sound(r, k)
  }

  /** Open, though not all watched yet. */
  ghost predicate Opened(r: Registry, k: Kernel) {
    forall q :: q in r ==> r[q].handle in k.open && k.open[r[q].handle] == r[q].ino && r[q].ino in k.fs.inodes
  }

  datatype Opening = Opens | Denied | Exhausted

  lemma WithinKeeps(r: Registry, s: Registry, k: Kernel)
    requires Within(r, s)
    ensures Keeps(r, k, s, k)
  {
    forall p, kind ensures Carried(r, k, s, k, p, kind) {
      if Concerns(r, k.queue, p, kind) {
        ConcernsGrow(r, k.queue, s, k.queue, p, kind);
      }
    }
  }

  lemma SameWorld(r: Registry, k: Kernel, l: Kernel)
    requires k.fs == l.fs && k.queue == l.queue && k.past == l.past
    ensures Keeps(r, k, r, l)
  {
    forall p, kind ensures Carried(r, k, r, l, p, kind) {
    }
  }

  lemma HeldIsOpened(r: Registry, k: Kernel)
    requires Held(r, k)
    ensures Opened(r, k)
  {
  }

  lemma HeldFewer(r: Registry, s: Registry, k: Kernel)
    requires Held(r, k) && Within(s, r)
    ensures Held(s, k)
  {
    forall q | q in s ensures q in r && s[q] == r[q] {
    }
  }

  lemma StepKeepsHeld(r: Registry, k: Kernel, l: Kernel)
    requires Held(r, k) && Obeys(k, l)
    ensures Held(r, l)
  {
    forall q | q in r ensures r[q].ino in l.fs.inodes {
      assert Survives(k, l, k.open[r[q].handle]);
    }
  }

  lemma StepKeepsOpened(r: Registry, k: Kernel, l: Kernel)
    requires Opened(r, k) && Obeys(k, l)
    ensures Opened(r, l)
  {
    forall q | q in r ensures r[q].ino in l.fs.inodes {
      assert Survives(k, l, k.open[r[q].handle]);
    }
  }

  // ----- a batch of new registrations, opened at different moments -----

  ghost predicate SameNames(f: Fs, g: Fs, ino: nat) {
    !Loses(f, g, ino) && !Loses(g, f, ino)
  }

  /** Between `f` and `g`, what is watched kept its type, and directories their name unless reported. */
  ghost predicate Steady(r: Registry, queue: seq<Report>, f: Fs, g: Fs) {
    forall q :: q in r ==>
      && r[q].ino in f.inodes && r[q].ino in g.inodes && SameType(f.inodes[r[q].ino], g.inodes[r[q].ino])
      && (f.inodes[r[q].ino].Folder? ==> Gone(queue, r[q].handle) || SameNames(f, g, r[q].ino))
  }

  lemma SteadyStep(r: Registry, f: Fs, k: Kernel, l: Kernel)
    requires Held(r, k) && Steady(r, k.queue, f, k.fs) && Obeys(k, l)
    ensures Steady(r, l.queue, f, l.fs)
  {
    forall q | q in r
      ensures r[q].ino in l.fs.inodes && SameType(f.inodes[r[q].ino], l.fs.inodes[r[q].ino])
      ensures f.inodes[r[q].ino].Folder? ==> Gone(l.queue, r[q].handle) || SameNames(f, l.fs, r[q].ino)
    {
      assert Survives(k, l, k.open[r[q].handle]) && Reports(k, l, r[q].handle);
    }
  }

  lemma SteadyGrows(r: Registry, queue: seq<Report>, more: seq<Report>, f: Fs, g: Fs)
    requires queue <= more && Steady(r, queue, f, g)
    ensures Steady(r, more, f, g)
  {
    forall q | q in r && f.inodes[r[q].ino].Folder?
      ensures Gone(more, r[q].handle) || SameNames(f, g, r[q].ino)
    {
      assert r[q].ino in f.inodes;
    }
  }

  /** `q` was seen to name what is watched for it, and has not lost that name since. */
  ghost predicate Seen(f: Fs, k: Kernel, q: Path, w: Watched) {
    Live(f, q, w) && (Gone(k.queue, w.handle) || !Loses(f, k.fs, w.ino))
  }

  lemma SeenStep(f: Fs, k: Kernel, l: Kernel, q: Path, w: Watched)
    requires Seen(f, k, q, w) && Obeys(k, l) && w.handle in k.open && w.handle in k.watched && k.open[w.handle] == w.ino
    ensures Seen(f, l, q, w)
  {
    assert Reports(k, l, w.handle);
  }

  /**
  Since `start`, each path of `r` in `seen` was seen at the moment given there,
  or is below one of the `base` that is reported gone.
  */
  ghost predicate Checked(base: Registry, r: Registry, k: Kernel, start: Fs, seen: map<Path, Fs>) {
    && Steady(r, k.queue, start, k.fs)
    && forall q :: q in r && q in seen ==>
        Steady(r, k.queue, start, seen[q]) && (Seen(seen[q], k, q, r[q]) || GoneAbove(base, k.queue, q))
  }

  lemma CheckedStep(base: Registry, r: Registry, k: Kernel, l: Kernel, start: Fs, seen: map<Path, Fs>)
    requires Held(r, k) && Checked(base, r, k, start, seen) && Obeys(k, l)
    ensures Checked(base, r, l, start, seen)
  {
    SteadyStep(r, start, k, l);
    forall q | q in r && q in seen
      ensures Steady(r, l.queue, start, seen[q]) && (Seen(seen[q], l, q, r[q]) || GoneAbove(base, l.queue, q))
    {
      SteadyGrows(r, k.queue, l.queue, start, seen[q]);
      if Seen(seen[q], k, q, r[q]) {
        SeenStep(seen[q], k, l, q, r[q]);
      } else {
        GoneAboveGrows(base, k.queue, l.queue, q);
      }
    }
  }

  lemma CheckedOne(base: Registry, r: Registry, k: Kernel, start: Fs, seen: map<Path, Fs>, q: Path)
    requires Checked(base, r, k, start, seen) && q in r && Live(k.fs, q, r[q])
    ensures Checked(base, r, k, start, seen[q := k.fs])
  {
  }

  lemma CheckedFewer(base: Registry, r: Registry, k: Kernel, start: Fs, seen: map<Path, Fs>, s: Registry, l: Kernel)
    requires Checked(base, r, k, start, seen) && Within(s, r) && l.fs == k.fs && l.queue == k.queue
    ensures Checked(base, s, l, start, seen)
  {
    SteadyFewer(r, k.queue, start, k.fs, s);
    forall q | q in s && q in seen
      ensures Steady(s, l.queue, start, seen[q]) && (Seen(seen[q], l, q, s[q]) || GoneAbove(base, l.queue, q))
    {
      SteadyFewer(r, k.queue, start, seen[q], s);
    }
  }

  lemma SteadyFewer(r: Registry, queue: seq<Report>, f: Fs, g: Fs, s: Registry)
    requires Steady(r, queue, f, g) && Within(s, r)
    ensures Steady(s, queue, f, g)
  {
    forall q | q in s && f.inodes[s[q].ino].Folder? ensures Gone(queue, s[q].handle) || SameNames(f, g, s[q].ino) {
      assert r[q].ino in f.inodes;
    }
  }

  /** At the start of the checks, only the registrations that were there before count as seen. */
  lemma CheckedAtFirst(base: Registry, r: Registry, k: Kernel, seen: map<Path, Fs>)
    requires Within(base, r) && Ready(base, k) && Opened(r, k)
    requires seen == map q | q in base :: k.fs
    ensures Checked(base, r, k, k.fs, seen)
  {
    assert Steady(r, k.queue, k.fs, k.fs);
  }

  ghost predicate Agree(base: Registry, r: Registry) {
    forall q :: q in base && q in r ==> r[q] == base[q]
  }

  lemma GoneAboveMore(base: Registry, r: Registry, queue: seq<Report>, q: Path)
    requires Agree(base, r) && Rooted(r) && q in r && GoneAbove(base, queue, q)
    ensures GoneAbove(r, queue, q)
  {
    var a :| a in base && a <= q && (a == q || base[a].kind.Dir?) && Gone(queue, base[a].handle);
    PrefixesAreDirs(r, q, a);
  }

  lemma {:induction false} DirectoryAt(base: Registry, r: Registry, k: Kernel, start: Fs, seen: map<Path, Fs>, f: Fs, q: Path)
    requires Agree(base, r) && Rooted(r) && r.Keys <= seen.Keys
    requires Checked(base, r, k, start, seen) && Steady(r, k.queue, start, f)
    requires q in r && r[q].kind.Dir? && !GoneAbove(r, k.queue, q)
    ensures Lookup(f, q) == Some(r[q].ino)
    decreases |q|
  {
    var g, ino := seen[q], r[q].ino;
    if GoneAbove(base, k.queue, q) {
      GoneAboveMore(base, r, k.queue, q);
    }
    assert Steady(r, k.queue, start, g);
    assert start.inodes[ino].Folder?;
    if q != [] {
      var a := q[..|q| - 1];
      GoneAboveParent(r, k.queue, q);
      StartIsSteady(r, k.queue, start, g);
      DirectoryAt(base, r, k, start, seen, g, a);
      DirectoryAt(base, r, k, start, seen, start, a);
      DirectoryAt(base, r, k, start, seen, f, a);
    }
    KeptName(g, start, q, ino);
    KeptName(start, f, q, ino);
  }

  lemma StartIsSteady(r: Registry, queue: seq<Report>, f: Fs, g: Fs)
    requires Steady(r, queue, f, g)
    ensures Steady(r, queue, f, f)
  {
  }

  /** A rooted registry whose paths were all checked is live, though each was checked at another moment. */
  lemma CheckedIsSound(base: Registry, r: Registry, k: Kernel, start: Fs, seen: map<Path, Fs>)
    requires Agree(base, r) && Rooted(r) && r.Keys <= seen.Keys && Checked(base, r, k, start, seen)
    ensures Sound(r, k)
  {
    forall q | q in r ensures Live(k.fs, q, r[q]) || GoneAbove(r, k.queue, q) {
      if !GoneAbove(r, k.queue, q) {
        var g := seen[q];
        if GoneAbove(base, k.queue, q) {
          GoneAboveMore(base, r, k.queue, q);
        }
        assert Steady(r, k.queue, start, g);
        if q != [] {
          GoneAboveParent(r, k.queue, q);
          DirectoryAt(base, r, k, start, seen, g, q[..|q| - 1]);
          DirectoryAt(base, r, k, start, seen, k.fs, q[..|q| - 1]);
        }
        KeptName(g, k.fs, q, r[q].ino);
      }
    }
  }

  lemma FewerIsReady(base: Registry, r: Registry, k: Kernel, start: Fs, seen: map<Path, Fs>, s: Registry)
    requires Within(base, r) && Checked(base, r, k, start, seen) && Held(r, k)
    requires Within(s, r) && Rooted(s) && s.Keys <= seen.Keys
    ensures Ready(s, k)
  {
    CheckedFewer(base, r, k, start, seen, s, k);
    CheckedIsSound(base, s, k, start, seen);
  }

  // ----- the part that is followed -----

  /**
  What was registered before, outside the part that was followed: a directory
  above it was not registered, so its path may name something else by now.
  */
  ghost predicate Stale(all: Registry, part: Registry, q: Path) {
    q in all && q !in part
  }

  /** `q` and the directories above it are registered, none of them stale. */
  ghost predicate IsFirm(all: Registry, part: Registry, paths: Registry, q: Path) {
    forall a :: a <= q ==> a in paths && !Stale(all, part, a) && (a != q ==> paths[a].kind.Dir?)
  }

  /** What is followed once `all` has grown to `paths`, when `part` was before. */
  ghost function Firm(all: Registry, part: Registry, paths: Registry): Registry {
    map q | q in paths && IsFirm(all, part, paths, q) :: paths[q]
  }

  lemma FirmIsRooted(all: Registry, part: Registry, paths: Registry)
    ensures Rooted(Firm(all, part, paths)) && Within(Firm(all, part, paths), paths)
  {
    var s := Firm(all, part, paths);
    forall q | q in s && q != [] ensures q[..|q| - 1] in s && s[q[..|q| - 1]].kind.Dir? {
      var parent := q[..|q| - 1];
      assert parent <= q;
      forall a | a <= parent ensures a in paths && !Stale(all, part, a) && (a != parent ==> paths[a].kind.Dir?) {
        assert a <= q;
      }
    }
  }

  lemma PartIsFirm(all: Registry, part: Registry, paths: Registry)
    requires Rooted(part) && Within(part, all) && Within(all, paths)
    ensures Within(part, Firm(all, part, paths))
  {
    forall q | q in part ensures IsFirm(all, part, paths, q) {
      forall a | a <= q ensures a in paths && !Stale(all, part, a) && (a != q ==> paths[a].kind.Dir?) {
        PrefixesAreDirs(part, q, a);
      }
    }
  }

  lemma FirmIsNew(all: Registry, part: Registry, paths: Registry)
    ensures forall q :: q in Firm(all, part, paths) ==> q in paths && (q in part || q !in all)
  {
    forall q | q in Firm(all, part, paths) ensures q in part || q !in all {
      assert q <= q;
    }
  }

  lemma FirmAlone(all: Registry, part: Registry)
    requires Rooted(part) && Within(part, all)
    ensures Firm(all, part, all) == part
  {
    PartIsFirm(all, part, all);
    forall q | q in Firm(all, part, all) ensures q in part {
      assert q <= q;
    }
  }

  /** More descriptors and watches change nothing for the registrations there are. */
  lemma Undisturbed(r: Registry, k: Kernel, l: Kernel)
    requires k.fs == l.fs && k.queue == l.queue && k.past == l.past && k.watched <= l.watched
    requires forall h :: h in k.open ==> h in l.open && l.open[h] == k.open[h]
    ensures Ready(r, k) ==> Ready(r, l)
    ensures Opened(r, k) ==> Opened(r, l)
    ensures Held(r, k) ==> Held(r, l)
    ensures Keeps(r, k, r, l)
  {
    SameWorld(r, k, l);
  }

  /** Closing a descriptor that no registration of `r` has changes nothing for them. */
  lemma ClosedOther(r: Registry, k: Kernel, l: Kernel, handle: nat)
    requires l == k.(open := k.open - {handle}, watched := k.watched - {handle})
    requires forall q :: q in r ==> r[q].handle != handle
    ensures Ready(r, k) ==> Ready(r, l)
    ensures Held(r, k) ==> Held(r, l)
    ensures Keeps(r, k, r, l)
  {
    hide Live, GoneAbove, Rooted, Keeps;
    SameWorld(r, k, l);
  }

  // ----- draining the queue -----

  /** The kernel with the reports already taken put back in front of its queue. */
  function Untaken(k: Kernel, done: seq<Report>): Kernel {
    k.(queue := done + k.queue)
  }

  lemma UntakenStep(k: Kernel, l: Kernel, done: seq<Report>)
    requires Obeys(k, l)
    ensures Obeys(Untaken(k, done), Untaken(l, done))
  {
    var v, w := Untaken(k, done), Untaken(l, done);
    assert v.queue <= w.queue;
    forall h | h in k.open ensures Survives(v, w, k.open[h]) {
      assert Survives(k, l, k.open[h]);
    }
    forall h | h in k.watched && h in k.open ensures Reports(v, w, h) {
      assert Reports(k, l, h);
    }
  }

  /** What the reports taken so far come to. */
  ghost predicate Sorted(r: Registry, done: seq<Report>, t: Touched, gone: seq<Path>) {
    && (forall q :: q in r && Told(done, r[q].handle) ==> q in t.paths || (q in t.subtrees && r[q].kind.Dir?))
    && (forall q :: q in r && Gone(done, r[q].handle) ==> q in gone)
    && (forall g :: g in gone ==> g in r && (if r[g].kind.Dir? then g in t.subtrees else g in t.paths))
  }

  predicate IsUnderAny(q: Path, gone: seq<Path>) {
    exists g :: g in gone && g <= q
  }

  /** What is left once everything below the paths that are gone is forgotten. */
  ghost function Left(r: Registry, gone: seq<Path>): Registry {
    map q | q in r && !IsUnderAny(q, gone) :: r[q]
  }

  lemma UnderBelow(gone: seq<Path>, a: Path, q: Path)
    requires a <= q
    ensures IsUnderAny(a, gone) ==> IsUnderAny(q, gone)
  {
    if IsUnderAny(a, gone) {
      var g :| g in gone && g <= a;
      assert g <= q;
    }
  }

  lemma GoneIsUnder(r: Registry, done: seq<Report>, t: Touched, gone: seq<Path>, q: Path)
    requires Sorted(r, done, t, gone)
    ensures GoneAbove(r, done, q) ==> IsUnderAny(q, gone)
  {
    if GoneAbove(r, done, q) {
      var a :| a in r && a <= q && (a == q || r[a].kind.Dir?) && Gone(done, r[a].handle);
      assert a in gone;
    }
  }

  lemma SortedConcerns(r: Registry, done: seq<Report>, t: Touched, gone: seq<Path>, p: Path, kind: Kind)
    requires Sorted(r, done, t, gone) && Concerns(r, done, p, kind)
    ensures Mentions(t, p, kind)
  {
    if p in r && r[p].kind == kind && Told(done, r[p].handle) {
      if p !in t.paths {
        assert p in t.subtrees && p <= p;
      }
    } else {
      var a :| a in r && a <= p && a != p && r[a].kind.Dir? && Gone(done, r[a].handle);
      assert a in t.subtrees;
    }
  }

  /**
  Once the queue is empty, forgetting what is gone leaves live registrations,
  and every report is accounted for; `r` are the ones that are followed.
  */
  lemma LeftIsReady(r: Registry, all: Registry, start: Kernel, k: Kernel, done: seq<Report>, t: Touched, gone: seq<Path>)
    requires Ready(r, Untaken(k, done)) && k.queue == [] && Within(r, all) && Sorted(all, done, t, gone)
    requires Keeps(r, start, r, Untaken(k, done))
    ensures Ready(Left(r, gone), k)
    ensures forall p, kind :: Taken(r, start, t, Left(r, gone), k, p, kind)
  {
    var s := Left(r, gone);
    assert done + k.queue == done;
    GoneFewer(r, all, done);
    forall q | q in s ensures Live(k.fs, q, s[q]) {
      GoneIsUnder(all, done, t, gone, q);
    }
    forall q | q in s && q != [] ensures q[..|q| - 1] in s {
      UnderBelow(gone, q[..|q| - 1], q);
    }
    forall p, kind ensures Taken(r, start, t, s, k, p, kind) {
      assert Carried(r, start, r, Untaken(k, done), p, kind);
      if Concerns(r, done, p, kind) {
        SortedConcerns(all, done, t, gone, p, kind);
      } else if Covered(r, p, kind) {
        LeftCovers(r, all, t, gone, done, p, kind);
      }
    }
  }

  lemma GoneFewer(r: Registry, all: Registry, queue: seq<Report>)
    requires Within(r, all)
    ensures forall q :: GoneAbove(r, queue, q) ==> GoneAbove(all, queue, q)
    ensures forall p, kind :: Concerns(r, queue, p, kind) ==> Concerns(all, queue, p, kind)
  {
    forall q | GoneAbove(r, queue, q) ensures GoneAbove(all, queue, q) {
      var a :| a in r && a <= q && (a == q || r[a].kind.Dir?) && Gone(queue, r[a].handle);
      assert a in all;
    }
    forall p, kind | Concerns(r, queue, p, kind) ensures Concerns(all, queue, p, kind) {
      if !(p in r && r[p].kind == kind && Told(queue, r[p].handle)) {
        var a :| a in r && a <= p && a != p && r[a].kind.Dir? && Gone(queue, r[a].handle);
        assert a in all;
      }
    }
  }

  lemma NotUnder(r: Registry, gone: seq<Path>, g: Path)
    requires g in gone
    ensures forall q :: q in Left(r, gone) ==> !(g <= q)
  {
  }

  lemma LeftWithin(part: Registry, all: Registry, gone: seq<Path>, n: nat)
    requires Within(part, all) && n <= |gone|
    ensures Within(Left(part, gone), Left(all, gone[..n]))
  {
    forall q | q in Left(part, gone) ensures q in Left(all, gone[..n]) {
      UnderFewer(gone, n, q);
    }
  }

  lemma LeftOfBoth(part: Registry, all: Registry, gone: seq<Path>)
    ensures Within(Left(part, gone), part) && Within(Left(all, gone), all)
    ensures forall q :: q in part && q in Left(all, gone) ==> q in Left(part, gone)
  {
  }

  lemma LeftOne(r: Registry, gone: seq<Path>, i: nat)
    requires i < |gone|
    ensures Left(r, gone[..i + 1]) == map q | q in Left(r, gone[..i]) && !(gone[i] <= q) :: r[q]
    ensures Within(Left(r, gone), Left(r, gone[..i + 1]))
  {
    forall q | q in r ensures IsUnderAny(q, gone[..i + 1]) <==> IsUnderAny(q, gone[..i]) || gone[i] <= q {
      UnderOneMore(gone, i, q);
    }
    forall q | q in Left(r, gone) ensures q in Left(r, gone[..i + 1]) {
      UnderFewer(gone, i + 1, q);
    }
  }

  lemma UnderFewer(gone: seq<Path>, n: nat, q: Path)
    requires n <= |gone|
    ensures IsUnderAny(q, gone[..n]) ==> IsUnderAny(q, gone)
  {
    if IsUnderAny(q, gone[..n]) {
      var g :| g in gone[..n] && g <= q;
      assert g in gone;
    }
  }

  lemma UnderOneMore(gone: seq<Path>, i: nat, q: Path)
    requires i < |gone|
    ensures IsUnderAny(q, gone[..i + 1]) <==> IsUnderAny(q, gone[..i]) || gone[i] <= q
  {
    assert gone[..i + 1] == gone[..i] + [gone[i]];
    if IsUnderAny(q, gone[..i]) {
      var g :| g in gone[..i] && g <= q;
      assert g in gone[..i + 1];
    }
    if gone[i] <= q {
      assert gone[i] in gone[..i + 1];
    }
  }

  lemma LeftCovers(r: Registry, all: Registry, t: Touched, gone: seq<Path>, done: seq<Report>, p: Path, kind: Kind)
    requires Within(r, all) && Sorted(all, done, t, gone) && Covered(r, p, kind)
    ensures Covered(Left(r, gone), p, kind) || Mentions(t, p, kind)
  {
    if IsUnderAny(p, gone) {
      var g :| g in gone && g <= p;
      assert g in r && all[g] == r[g];
    } else {
      forall a | a <= p && a != p ensures a in Left(r, gone) {
        UnderBelow(gone, a, p);
      }
    }
  }

  // ----- what gets watched -----

  /** Nothing changes from the moment `from` on. */
  ghost predicate Still(past: seq<Fs>, fs: Fs, from: nat) {
    forall i :: from <= i < |past| ==> past[i] == fs
  }

  predicate CanOpen(fs: Fs, rel: Path) {
    Look(fs, rel).Found? && !Look(fs, rel).inode.Special?
  }

  predicate IsKindAt(fs: Fs, rel: Path, kind: Kind) {
    Look(fs, rel).Found? && IsKind(Look(fs, rel).inode, kind)
  }

  /** The first `n` of `rels` were opened, where they could be, each under what it names. */
  ghost predicate Tried(rels: seq<(Path, Kind)>, n: nat, added: seq<Path>, paths: Registry, fs: Fs) {
    && n <= |rels| && (forall j :: 0 <= j < n ==> rels[j].0 in paths || !CanOpen(fs, rels[j].0))
    && forall q :: q in added ==> q in paths && CanOpen(fs, q) && Look(fs, q).ino == paths[q].ino && (q, paths[q].kind) in rels
  }

  /** Of what was opened, what names a file of its kind is kept. */
  ghost predicate Settled(added: seq<Path>, n: nat, atOpening: Registry, paths: Registry, fs: Fs) {
    && n <= |added| && (forall q :: q in added ==> q in atOpening)
    && forall j :: 0 <= j < n && CanOpen(fs, added[j]) && Look(fs, added[j]).ino == atOpening[added[j]].ino && IsKindAt(fs, added[j], atOpening[added[j]].kind) ==>
        added[j] in paths
  }

  ghost predicate OneKind(rels: seq<(Path, Kind)>) {
    forall i, j :: 0 <= i < |rels| && 0 <= j < |rels| && rels[i].0 == rels[j].0 ==> rels[i].1 == rels[j].1
  }

  lemma StillBefore(past: seq<Fs>, more: seq<Fs>, fs: Fs, from: nat)
    requires past <= more && Still(more, fs, from)
    ensures Still(past, fs, from)
  {
    forall i | from <= i < |past| ensures past[i] == fs {
      assert more[i] == fs;
    }
  }

  /** Then each path that names a file of its kind is watched. */
  lemma AllWatched(rels: seq<(Path, Kind)>, base: Registry, atOpening: Registry, added: seq<Path>, paths: Registry, fs: Fs)
    requires Tried(rels, |rels|, added, atOpening, fs) && Settled(added, |added|, atOpening, paths, fs)
    requires Within(base, paths) && OneKind(rels) && forall q :: q in atOpening ==> q in base || q in added
    ensures forall j :: 0 <= j < |rels| && IsKindAt(fs, rels[j].0, rels[j].1) ==> rels[j].0 in paths
  {
    forall j | 0 <= j < |rels| && IsKindAt(fs, rels[j].0, rels[j].1) ensures rels[j].0 in paths {
      var q := rels[j].0;
      if q !in base {
        assert q in added;
        var i :| 0 <= i < |rels| && rels[i] == (q, atOpening[q].kind);
        var k :| 0 <= k < |added| && added[k] == q;
      }
    }
  }

  // ----- dropping files -----

  function Retained(r: Registry, keep: Path -> bool): Registry {
    map q | q in r && (r[q].kind.Dir? || keep(q)) :: r[q]
  }

  lemma RetainedIsReady(r: Registry, keep: Path -> bool, k: Kernel)
    requires Ready(r, k)
    ensures Ready(Retained(r, keep), k)
  {
    var s := Retained(r, keep);
    forall q | q in s ensures Live(k.fs, q, s[q]) || GoneAbove(s, k.queue, q) {
      if GoneAbove(r, k.queue, q) {
        var a :| a in r && a <= q && (a == q || r[a].kind.Dir?) && Gone(k.queue, r[a].handle);
        assert a in s && s[a] == r[a];
      }
    }
  }

  /** Dropping files takes nothing from the paths that are kept. */
  lemma RetainedKeeps(r: Registry, keep: Path -> bool, k: Kernel, p: Path, kind: Kind)
    requires kind.Dir? || keep(p)
    ensures Carried(r, k, Retained(r, keep), k, p, kind)
  {
    var s := Retained(r, keep);
    if Concerns(r, k.queue, p, kind) && !(p in r && r[p].kind == kind && Told(k.queue, r[p].handle)) {
      var a :| a in r && a <= p && a != p && r[a].kind.Dir? && Gone(k.queue, r[a].handle);
      assert s[a] == r[a];
    }
  }

  // ----- the watcher -----

  datatype Handle = Got(handle: nat, ino: nat) | Unopened | OutOfDescriptors

  class Watcher {
    const env: Environment
    const opening: (nat, Path) -> Opening
    const registers: nat -> bool
    const limit: nat
    ghost const history: History

    var kernel: Kernel
    var time: nat

    var paths: Registry
    var fds: map<nat, Path>
    var run: nat
    var next: nat

    ghost predicate Running()
      reads this
    {
      && Lawful(env) && Present(kernel) && Follows(env, history) && history(kernel.past)
      && (forall h :: h in kernel.open ==> h < next)
    }

    ghost predicate Valid()
      reads this
    {
      && Running() && Twins(paths, fds) && Held(paths, kernel)
      && (forall q :: q in paths ==> paths[q].since <= run)
    }

    /** Nothing is watched yet; the file system is as `past` left it. */
    constructor (env: Environment, opening: (nat, Path) -> Opening, registers: nat -> bool, limit: nat, past: seq<Fs>, time: nat, ghost history: History)
      requires Lawful(env) && past != [] && Follows(env, history) && history(past)
      ensures Valid() && Ready(paths, kernel) && paths == map[] && run == 0
      ensures kernel.queue == [] && kernel.past == past
      ensures this.env == env && this.opening == opening && this.registers == registers && this.limit == limit && this.time == time && this.history == history
    {
      this.env, this.opening, this.registers, this.limit, this.history := env, opening, registers, limit, history;
      kernel, this.time := Kernel(past[|past| - 1], map[], {}, [], past), time;
      paths, fds, run, next := map[], map[], 0, 0;
    }

    /** Between two calls, the environment moves. */
    method Pause(ghost r: Registry)
      requires Running()
      modifies this`kernel, this`time
      ensures Running() && Obeys(old(kernel), kernel) && Present(kernel) && old(kernel.past) < kernel.past
      ensures old(Ready(r, kernel)) ==> Ready(r, kernel) && Keeps(r, old(kernel), r, kernel)
    {
      var after := env(time, kernel);
      assert Obeys(kernel, after);
      if Ready(r, kernel) {
        StepKeepsSound(r, kernel, after);
        StepKeeps(r, kernel, after);
      }
      kernel, time := after, time + 1;
    }

    /** No path is refused. */
    ghost predicate Willing() {
      forall t, q :: opening(t, q).Opens?
    }

    method Open(rel: Path, ghost base: Registry, ghost r: Registry) returns (got: Handle)
      requires Running() && Ready(r, kernel) && Opened(paths, kernel) && Held(base, kernel)
      modifies this`kernel, this`time, this`next
      ensures Running() && Ready(r, kernel) && Keeps(r, old(kernel), r, kernel) && Opened(paths, kernel) && Held(base, kernel)
      ensures got.Got? ==>
        && got.handle == old(next) && got.handle in kernel.open
        && kernel.open[got.handle] == got.ino && got.ino in kernel.fs.inodes
        && (forall q :: q in paths ==> paths[q].handle != got.handle)
      ensures Present(kernel) && old(kernel.past) < kernel.past
      ensures got.Got? ==> CanOpen(kernel.fs, rel) && Look(kernel.fs, rel).ino == got.ino
      ensures got.Unopened? && Willing() ==> !CanOpen(kernel.fs, rel)
    {
      hide Held, Sound, Rooted, Keeps, Obeys, Lawful, Follows;
      assert forall q :: q in paths ==> paths[q].handle < next;
      ghost var before := kernel;
      Pause(r);
      StepKeepsOpened(paths, before, kernel);
      StepKeepsHeld(base, before, kernel);
      ghost var paused := kernel;
      match opening(time, rel)
      case Exhausted => return OutOfDescriptors;
      case Denied => return Unopened;
      case Opens =>
        var view := Look(kernel.fs, rel);
        if view.Absent? || view.inode.Special? {
          return Unopened;
        }
        kernel := kernel.(open := kernel.open[next := view.ino]);
        next := next + 1;
        Undisturbed(r, paused, kernel);
        Undisturbed(base, paused, kernel);
        Undisturbed(paths, paused, kernel);
        KeepsTrans(r, before, r, paused, r, kernel);
        return Got(next - 1, view.ino);
    }

    /** The environment moves, and one path is no longer watched. */
    method Drop(rel: Path, ghost base: Registry)
      requires Valid() && rel in paths && rel !in base && Within(base, paths) && Ready(base, kernel)
      modifies this`kernel, this`time, this`paths, this`fds
      ensures Valid() && Within(base, paths) && Ready(base, kernel) && paths == old(paths) - {rel}
      ensures Keeps(base, old(kernel), base, kernel) && old(kernel.past) <= kernel.past
    {
      hide Sound, Rooted, Held, Lawful, Twins, Obeys, Running, Carried;
      ghost var before := kernel;
      Pause(base);
      StepKeepsHeld(paths, before, kernel);
      ghost var paused := kernel;
      Forget(rel, base, base);
      KeepsTrans(base, before, base, paused, base, kernel);
    }

    /** A batch being added to `base`, of which `part` is followed; `added` are the new ones. */
    ghost predicate Adding(base: Registry, part: Registry, added: seq<Path>)
      reads this
    {
      && Running() && Twins(paths, fds) && Opened(paths, kernel)
      && Ready(part, kernel) && Within(part, base) && Within(base, paths) && Held(base, kernel)
      && (forall q :: q in paths ==> paths[q].since <= run && (q in base || (q in added && paths[q].since == run)))
      && (forall q :: q in added ==> q !in base)
    }

    ghost predicate Distinct(added: seq<Path>) {
      forall i, j :: 0 <= i < j < |added| ==> added[i] != added[j]
    }

    /** Stop watching one path; what `base` has is unaffected, and `part` of it is still followed. */
    method Forget(rel: Path, ghost base: Registry, ghost part: Registry)
      requires Running() && Twins(paths, fds) && Held(paths, kernel) && rel in paths
      requires rel !in base && Within(base, paths) && Within(part, base) && Ready(part, kernel)
      modifies this`kernel, this`paths, this`fds
      ensures Running() && Twins(paths, fds) && Held(paths, kernel) && Within(base, paths) && Ready(part, kernel)
      ensures paths == old(paths) - {rel} && kernel.fs == old(kernel.fs) && kernel.queue == old(kernel.queue) && kernel.past == old(kernel.past)
      ensures Keeps(part, old(kernel), part, kernel)
    {
      hide Sound, Rooted, Keeps;
      var handle := paths[rel].handle;
      paths := paths - {rel};
      fds := fds - {handle};
      ghost var before := kernel;
      kernel := kernel.(open := kernel.open - {handle}, watched := kernel.watched - {handle});
      ClosedOther(part, before, kernel, handle);
      ClosedOther(paths, before, kernel, handle);
    }

    /** Open each path that is not watched yet. */
    method OpenAll(rels: seq<(Path, Kind)>, ghost part: Registry) returns (ok: bool, added: seq<Path>)
      requires Valid() && Ready(part, kernel) && Within(part, paths)
      modifies this`kernel, this`time, this`next, this`paths, this`fds
      ensures Adding(old(paths), part, added) && Distinct(added) && (forall q :: q in added ==> q in paths)
      ensures Keeps(part, old(kernel), part, kernel)
      ensures ok && Willing() ==> forall fs :: Still(kernel.past, fs, |old(kernel.past)|) ==> Tried(rels, |rels|, added, paths, fs)
    {
      hide Held, Sound, Rooted, Keeps, Obeys, Lawful, Follows, Running, Opened, Twins, Tried, Still, Watcher.Willing, Look;
      ghost var base, start := paths, kernel;
      added := [];
      NothingAdded(part);
      NothingTried(rels, paths);
      for i := 0 to |rels|
        invariant Adding(base, part, added) && Distinct(added) && (forall q :: q in added ==> q in paths)
        invariant Keeps(part, start, part, kernel)
        invariant Willing() ==> forall fs :: Still(kernel.past, fs, |start.past|) ==> Tried(rels, i, added, paths, fs)
      {
        var (rel, kind) := rels[i];
        if rel in paths {
          TriedWatched(rels, i, added, paths);
          continue;
        }
        if |paths| + SPARE >= limit {
          return false, added;
        }
        ghost var before := kernel;
        var got := Open(rel, base, part);
        KeepsPast(part, start, part, before);
        KeepsTrans(part, start, part, before, part, kernel);
        match got
        case OutOfDescriptors => return false, added;
        case Unopened => TriedOne(rels, i, added, paths, before, kernel, |start.past|);
        case Got(handle, ino) =>
          TriedAdd(rels, i, added, paths, before, kernel, |start.past|, Watched(handle, ino, kind, run));
          Enter(rel, Watched(handle, ino, kind, run), base, part, added);
          added := added + [rel];
      }
      ok := true;
    }

    lemma NothingTried(rels: seq<(Path, Kind)>, paths: Registry)
      ensures forall fs :: Tried(rels, 0, [], paths, fs)
    {
    }

    lemma TriedWatched(rels: seq<(Path, Kind)>, i: nat, added: seq<Path>, paths: Registry)
      requires i < |rels| && rels[i].0 in paths
      ensures forall fs :: Tried(rels, i, added, paths, fs) ==> Tried(rels, i + 1, added, paths, fs)
    {
    }

    lemma TriedOne(rels: seq<(Path, Kind)>, i: nat, added: seq<Path>, paths: Registry, k: Kernel, l: Kernel, from: nat)
      requires i < |rels| && Present(l) && k.past <= l.past && from < |l.past|
      requires Willing() ==> !CanOpen(l.fs, rels[i].0)
      requires Willing() ==> forall fs :: Still(k.past, fs, from) ==> Tried(rels, i, added, paths, fs)
      ensures Willing() ==> forall fs :: Still(l.past, fs, from) ==> Tried(rels, i + 1, added, paths, fs)
    {
      if Willing() {
        forall fs | Still(l.past, fs, from) ensures Tried(rels, i + 1, added, paths, fs) {
          StillBefore(k.past, l.past, fs, from);
          assert l.past[|l.past| - 1] == fs;
        }
      }
    }

    lemma TriedAdd(rels: seq<(Path, Kind)>, i: nat, added: seq<Path>, paths: Registry, k: Kernel, l: Kernel, from: nat, watched: Watched)
      requires i < |rels| && Present(l) && k.past <= l.past && from < |l.past|
      requires rels[i] == (rels[i].0, watched.kind) && rels[i].0 !in paths && CanOpen(l.fs, rels[i].0) && Look(l.fs, rels[i].0).ino == watched.ino
      requires Willing() ==> forall fs :: Still(k.past, fs, from) ==> Tried(rels, i, added, paths, fs)
      ensures Willing() ==> forall fs :: Still(l.past, fs, from) ==> Tried(rels, i + 1, added + [rels[i].0], paths[rels[i].0 := watched], fs)
    {
      if Willing() {
        forall fs | Still(l.past, fs, from) ensures Tried(rels, i + 1, added + [rels[i].0], paths[rels[i].0 := watched], fs) {
          StillBefore(k.past, l.past, fs, from);
          assert l.past[|l.past| - 1] == fs;
          assert rels[i] in rels;
        }
      }
    }

    lemma NothingAdded(part: Registry)
      requires Valid() && Ready(part, kernel) && Within(part, paths)
      ensures Adding(paths, part, []) && Keeps(part, kernel, part, kernel)
    {
      SameWorld(part, kernel, kernel);
    }

    method Enter(rel: Path, watched: Watched, ghost base: Registry, ghost part: Registry, ghost added: seq<Path>)
      requires Adding(base, part, added) && rel !in paths && watched.since == run
      requires watched.handle in kernel.open && kernel.open[watched.handle] == watched.ino && watched.ino in kernel.fs.inodes
      requires forall q :: q in paths ==> paths[q].handle != watched.handle
      modifies this`paths, this`fds
      ensures Adding(base, part, added + [rel]) && paths == old(paths)[rel := watched]
    {
      hide Ready, Held, Lawful, Follows, Obeys, Twins, Opened, Within;
      EnteredTwins(paths, fds, kernel, rel, watched);
      EnteredWithin(base, paths, rel, watched);
      fds := fds[watched.handle := rel];
      paths := paths[rel := watched];
    }

    lemma EnteredTwins(paths: Registry, fds: map<nat, Path>, k: Kernel, rel: Path, watched: Watched)
      requires Twins(paths, fds) && Opened(paths, k) && rel !in paths && (forall q :: q in paths ==> paths[q].handle != watched.handle)
      requires watched.handle in k.open && k.open[watched.handle] == watched.ino && watched.ino in k.fs.inodes
      ensures Twins(paths[rel := watched], fds[watched.handle := rel]) && Opened(paths[rel := watched], k)
    {
    }

    lemma EnteredWithin(base: Registry, paths: Registry, rel: Path, watched: Watched)
      requires Within(base, paths) && rel !in paths
      ensures rel !in base && Within(base, paths[rel := watched])
    {
    }

    method Register(handle: nat, ghost base: Registry, ghost part: Registry, ghost added: seq<Path>) returns (ok: bool)
      requires Adding(base, part, added)
      modifies this`kernel, this`time
      ensures Adding(base, part, added) && Keeps(part, old(kernel), part, kernel)
      ensures old(kernel.watched) <= kernel.watched && (ok ==> handle in kernel.watched)
    {
      hide Sound, Rooted, Keeps, Held, Lawful, Follows, Twins, Opened;
      ghost var start := kernel;
      Pause(part);
      ghost var paused := kernel;
      StepKeepsOpened(paths, start, paused);
      StepKeepsHeld(base, start, paused);
      if !registers(time) {
        return false;
      }
      kernel := kernel.(watched := kernel.watched + {handle});
      Undisturbed(part, paused, kernel);
      Undisturbed(base, paused, kernel);
      Undisturbed(paths, paused, kernel);
      KeepsTrans(part, start, part, paused, part, kernel);
      ok := true;
    }

    /** Have the kernel watch what was opened. */
    method RegisterAll(added: seq<Path>, ghost base: Registry, ghost part: Registry) returns (ok: bool)
      requires Adding(base, part, added) && (forall q :: q in added ==> q in paths)
      modifies this`kernel, this`time
      ensures Adding(base, part, added) && (ok ==> Held(paths, kernel))
      ensures Keeps(part, old(kernel), part, kernel)
    {
      hide Sound, Rooted, Keeps, Held, Lawful, Follows, Twins, Opened, Obeys, Running;
      ghost var start := kernel;
      SameWorld(part, start, start);
      for i := 0 to |added|
        invariant Adding(base, part, added) && Keeps(part, start, part, kernel)
        invariant forall j :: 0 <= j < i ==> paths[added[j]].handle in kernel.watched
      {
        ghost var before := kernel;
        ok := Register(paths[added[i]].handle, base, part, added);
        KeepsTrans(part, start, part, before, part, kernel);
        if !ok {
          return;
        }
      }
      AllHeld(added, base, part);
      ok := true;
    }

    lemma AllHeld(added: seq<Path>, base: Registry, part: Registry)
      requires Adding(base, part, added) && (forall q :: q in added ==> q in paths)
      requires forall j :: 0 <= j < |added| ==> paths[added[j]].handle in kernel.watched
      ensures Held(paths, kernel)
    {
      forall q | q in paths ensures paths[q].handle in kernel.watched {
        if q in base {
          assert base[q].handle in kernel.watched;
        }
      }
    }

    /** Where a batch of registrations stands: `checked` of them are known to be what their paths name. */
    ghost predicate Checking(base: Registry, part: Registry, added: seq<Path>, start: Fs, seen: map<Path, Fs>)
      reads this
    {
      && Adding(base, part, added) && Held(paths, kernel) && Checked(part, paths, kernel, start, seen)
      && part.Keys <= seen.Keys
    }

    /** Drop a registration whose path does not name what it holds, now that it is watched. */
    method Check(rel: Path, ghost base: Registry, ghost part: Registry, ghost added: seq<Path>, ghost start: Fs, ghost seen: map<Path, Fs>)
      returns (ghost more: map<Path, Fs>)
      requires Checking(base, part, added, start, seen) && rel in paths && rel in added
      modifies this`kernel, this`time, this`paths, this`fds
      ensures Checking(base, part, added, start, more) && seen.Keys <= more.Keys
      ensures paths == old(paths) || paths == old(paths) - {rel}
      ensures rel in paths ==> rel in more
      ensures Keeps(part, old(kernel), part, kernel) && Present(kernel) && old(kernel.past) < kernel.past
      ensures rel !in paths ==> var held := old(paths)[rel];
        !(CanOpen(kernel.fs, rel) && Look(kernel.fs, rel).ino == held.ino && IsKindAt(kernel.fs, rel, held.kind))
    {
      hide Sound, Rooted, Keeps, Held, Lawful, Follows, Twins, Opened, Obeys, Running, Checked;
      ghost var before := kernel;
      Pause(part);
      StepKeepsHeld(paths, before, kernel);
      CheckedStep(part, paths, before, kernel, start, seen);
      var held, now := paths[rel], Look(kernel.fs, rel);
      if now.Found? && now.ino == held.ino && IsKind(now.inode, held.kind) {
        CheckedOne(part, paths, kernel, start, seen, rel);
        more := seen[rel := kernel.fs];
      } else {
        ghost var was, paused := paths, kernel;
        Forget(rel, base, part);
        CheckedFewer(part, was, paused, start, seen, paths, kernel);
        KeepsTrans(part, before, part, paused, part, kernel);
        more := seen;
      }
      HeldIsOpened(paths, kernel);
      HeldFewer(paths, base, kernel);
    }

    lemma NothingSettled(added: seq<Path>, all: Registry)
      requires forall q :: q in added ==> q in all
      ensures forall fs, paths :: Settled(added, 0, all, paths, fs)
    {
    }

    lemma SettledOne(added: seq<Path>, i: nat, all: Registry, was: Registry, now: Registry, k: Kernel, l: Kernel, from: nat)
      requires i < |added| && Distinct(added) && Present(l) && k.past <= l.past && from < |l.past|
      requires now == was || now == was - {added[i]}
      requires added[i] in was && added[i] in all && all[added[i]] == was[added[i]]
      requires added[i] !in now ==> !(CanOpen(l.fs, added[i]) && Look(l.fs, added[i]).ino == was[added[i]].ino && IsKindAt(l.fs, added[i], was[added[i]].kind))
      requires forall fs :: Still(k.past, fs, from) ==> Settled(added, i, all, was, fs)
      ensures forall fs :: Still(l.past, fs, from) ==> Settled(added, i + 1, all, now, fs)
    {
      forall fs | Still(l.past, fs, from) ensures Settled(added, i + 1, all, now, fs) {
        StillBefore(k.past, l.past, fs, from);
        assert l.past[|l.past| - 1] == fs;
      }
    }

    /** Check everything that was added; what is left is followed, save what is stale and what is below that. */
    method CheckAll(added: seq<Path>, ghost base: Registry, ghost part: Registry)
      requires Adding(base, part, added) && Distinct(added) && (forall q :: q in added ==> q in paths)
      requires Held(paths, kernel)
      modifies this`kernel, this`time, this`paths, this`fds
      ensures Adding(base, part, added) && Held(paths, kernel)
      ensures Ready(Firm(base, part, paths), kernel)
      ensures Keeps(part, old(kernel), part, kernel)
      ensures forall fs :: Still(kernel.past, fs, |old(kernel.past)|) ==> Settled(added, |added|, old(paths), paths, fs)
    {
      hide Sound, Rooted, Keeps, Held, Lawful, Follows, Twins, Opened, Obeys, Running, Checked, Settled, Still, Firm, Ready;
      ghost var first, start, all := kernel, kernel.fs, paths;
      NothingSettled(added, all);
      ghost var seen := map q | q in part :: start;
      CheckedAtFirst(part, paths, kernel, seen);
      SameWorld(part, first, first);
      for i := 0 to |added|
        invariant Checking(base, part, added, start, seen) && Keeps(part, first, part, kernel)
        invariant forall j :: i <= j < |added| ==> added[j] in paths
        invariant forall q :: q in paths ==> (q in base || q in seen || exists j :: i <= j < |added| && added[j] == q) && q in all && all[q] == paths[q]
        invariant forall fs :: Still(kernel.past, fs, |first.past|) ==> Settled(added, i, all, paths, fs)
      {
        ghost var before, was := kernel, paths;
        seen := Check(added[i], base, part, added, start, seen);
        KeepsPast(part, before, part, kernel);
        KeepsPast(part, first, part, before);
        SettledOne(added, i, all, was, paths, before, kernel, |first.past|);
        KeepsTrans(part, first, part, before, part, kernel);
      }
      var s := Firm(base, part, paths);
      FirmIsRooted(base, part, paths);
      FirmIsNew(base, part, paths);
      FewerIsReady(part, paths, kernel, start, seen, s);
    }

    /**
    Watch each of `rels` that is not watched yet. No report is lost meanwhile,
    and what was followed still is, together with what is new and not below
    something stale. When nothing changes, and no path is refused, whatever
    names a file of its kind is watched.
    */
    method Add(rels: seq<(Path, Kind)>, ghost part: Registry) returns (ok: bool)
      requires Valid() && Ready(part, kernel) && Within(part, paths)
      modifies this`kernel, this`time, this`next, this`paths, this`fds
      ensures Running() && old(kernel.past) <= kernel.past
      ensures ok ==> Valid() && Within(old(paths), paths) && Within(part, Firm(old(paths), part, paths))
      ensures ok ==> Ready(Firm(old(paths), part, paths), kernel)
      ensures ok ==> Keeps(part, old(kernel), Firm(old(paths), part, paths), kernel)
      ensures ok ==> forall q :: q in paths && paths[q].since < run ==> q in old(paths)
      ensures ok && Willing() && OneKind(rels) ==> forall fs :: Still(kernel.past, fs, |old(kernel.past)|) ==>
        forall j :: 0 <= j < |rels| && IsKindAt(fs, rels[j].0, rels[j].1) ==> rels[j].0 in paths
    {
      hide Sound, Rooted, Keeps, Held, Lawful, Follows, Twins, Opened, Obeys, Running, Distinct, Tried, Settled, Still, IsKindAt, Watcher.Willing, OneKind, Firm;
      ghost var base, start := paths, kernel;
      var added;
      ok, added := OpenAll(rels, part);
      KeepsPast(part, start, part, kernel);
      if !ok {
        return;
      }
      ghost var held, after := paths, kernel;
      if added == [] {
        NothingNew(base, part, added);
        NothingSettled(added, paths);
        Conclude(rels, base, held, added, paths, after, after, after, |start.past|);
        return;
      }
      ghost var atOpening := kernel;
      ok := RegisterAll(added, base, part);
      KeepsTrans(part, start, part, atOpening, part, kernel);
      KeepsPast(part, start, part, kernel);
      if !ok {
        return;
      }
      ghost var registered := kernel;
      CheckAll(added, base, part);
      KeepsTrans(part, start, part, registered, part, kernel);
      KeepsPast(part, start, part, kernel);
      PartIsFirm(base, part, paths);
      WithinKeeps(part, Firm(base, part, paths), kernel);
      KeepsTrans(part, start, part, kernel, Firm(base, part, paths), kernel);
      KeepsPast(part, after, part, registered);
      KeepsPast(part, registered, part, kernel);
      Conclude(rels, base, held, added, paths, after, registered, kernel, |start.past|);
    }

    lemma Conclude(rels: seq<(Path, Kind)>, base: Registry, atOpening: Registry, added: seq<Path>, paths: Registry, k: Kernel, l: Kernel, m: Kernel, from: nat)
      requires k.past <= l.past <= m.past && from <= |k.past|
      requires Willing() ==> forall fs :: Still(k.past, fs, from) ==> Tried(rels, |rels|, added, atOpening, fs)
      requires forall fs :: Still(m.past, fs, |l.past|) ==> Settled(added, |added|, atOpening, paths, fs)
      requires Within(base, paths) && forall q :: q in atOpening ==> q in base || q in added
      ensures Willing() && OneKind(rels) ==> forall fs :: Still(m.past, fs, from) ==>
        forall j :: 0 <= j < |rels| && IsKindAt(fs, rels[j].0, rels[j].1) ==> rels[j].0 in paths
    {
      if Willing() && OneKind(rels) {
        forall fs | Still(m.past, fs, from)
          ensures forall j :: 0 <= j < |rels| && IsKindAt(fs, rels[j].0, rels[j].1) ==> rels[j].0 in paths
        {
          StillBefore(k.past, m.past, fs, from);
          StillFrom(m.past, fs, from, |l.past|);
          AllWatched(rels, base, atOpening, added, paths, fs);
        }
      }
    }

    lemma StillFrom(past: seq<Fs>, fs: Fs, from: nat, later: nat)
      requires from <= later && Still(past, fs, from)
      ensures Still(past, fs, later)
    {
    }

    lemma NothingNew(base: Registry, part: Registry, added: seq<Path>)
      requires Adding(base, part, added) && added == []
      ensures paths == base && Valid() && Firm(base, part, paths) == part && Within(part, part)
    {
      assert paths.Keys == base.Keys;
      FirmAlone(base, part);
    }

    /** The next report, if one is queued. */
    method Poll(ghost done: seq<Report>, ghost part: Registry) returns (report: Option<Report>)
      requires Running() && Held(paths, kernel) && Ready(part, Untaken(kernel, done)) && Twins(paths, fds)
      modifies this`kernel, this`time
      ensures Running() && Held(paths, kernel) && old(kernel.past) < kernel.past
      ensures var taken := if report.Some? then done + [report.value] else done;
        && Ready(part, Untaken(kernel, taken))
        && Keeps(part, old(Untaken(kernel, done)), part, Untaken(kernel, taken))
      ensures report.None? ==> kernel.queue == []
    {
      hide Sound, Rooted, Keeps, Lawful, Twins, Obeys;
      ghost var before := kernel;
      Pause(part);
      StepKeepsHeld(paths, before, kernel);
      UntakenStep(before, kernel, done);
      StepKeepsSound(part, Untaken(before, done), Untaken(kernel, done));
      StepKeeps(part, Untaken(before, done), Untaken(kernel, done));
      if kernel.queue == [] {
        return None;
      }
      report := Some(kernel.queue[0]);
      assert done + kernel.queue == (done + [report.value]) + kernel.queue[1..];
      ghost var untaken := Untaken(kernel, done);
      kernel := kernel.(queue := kernel.queue[1..]);
      assert Untaken(kernel, done + [report.value]) == untaken;
    }

    /** Stop watching `rel` and everything below it. */
    method ForgetUnder(rel: Path, ghost base: Registry)
      requires Valid() && Within(base, paths) && Ready(base, kernel)
      requires forall q :: q in base ==> !(rel <= q)
      modifies this`kernel, this`time, this`paths, this`fds
      ensures Valid() && Within(base, paths) && Ready(base, kernel) && Keeps(base, old(kernel), base, kernel)
      ensures paths == map q | q in old(paths) && !(rel <= q) :: old(paths)[q]
    {
      hide Sound, Rooted, Keeps, Held, Lawful, Follows, Twins, Obeys, Running;
      ghost var start, all := kernel, paths;
      SameWorld(base, start, start);
      var dropped := set q | q in paths && rel <= q;
      while dropped != {}
        invariant Valid() && Within(base, paths) && Ready(base, kernel) && Keeps(base, start, base, kernel)
        invariant forall q :: q in paths <==> q in all && (rel <= q ==> q in dropped)
        invariant forall q :: q in paths ==> paths[q] == all[q]
        invariant forall q :: q in dropped ==> rel <= q && q in all
        decreases |dropped|
      {
        var q :| q in dropped;
        ghost var before := kernel;
        Drop(q, base);
        KeepsTrans(base, start, base, before, base, kernel);
        dropped := dropped - {q};
      }
    }

    method ForgetGone(gone: seq<Path>, ghost part: Registry)
      requires Valid() && Within(part, paths) && Ready(Left(part, gone), kernel)
      modifies this`kernel, this`time, this`paths, this`fds
      ensures Valid() && paths == Left(old(paths), gone) && Within(Left(part, gone), paths) && Ready(Left(part, gone), kernel)
      ensures Keeps(Left(part, gone), old(kernel), Left(part, gone), kernel)
    {
      hide Sound, Rooted, Keeps, Held, Lawful, Follows, Twins, Obeys, Running;
      ghost var start, all, base := kernel, paths, Left(part, gone);
      SameWorld(base, start, start);
      for i := 0 to |gone|
        invariant Valid() && Within(base, paths) && Ready(base, kernel) && Keeps(base, start, base, kernel)
        invariant paths == Left(all, gone[..i])
      {
        ghost var before := kernel;
        NotUnder(part, gone, gone[i]);
        LeftOne(all, gone, i);
        LeftWithin(part, all, gone, i + 1);
        ForgetUnder(gone[i], base);
        KeepsTrans(base, start, base, before, base, kernel);
      }
      assert gone[..|gone|] == gone;
    }

    /** Sort out what is queued, until nothing is. */
    method Empty(ghost part: Registry) returns (sorted: Option<Touched>, gone: seq<Path>, ghost done: seq<Report>)
      requires Running() && Twins(paths, fds) && Held(paths, kernel) && Ready(part, kernel)
      modifies this`kernel, this`time
      ensures Running() && Held(paths, kernel) && old(kernel.past) < kernel.past && Ready(part, Untaken(kernel, done))
      ensures sorted.Some? ==>
        && kernel.queue == [] && Sorted(paths, done, sorted.value, gone)
        && Keeps(part, old(kernel), part, Untaken(kernel, done))
    {
      hide Sound, Rooted, Keeps, Held, Lawful, Follows, Obeys, Running, Sorted, Twins;
      ghost var start := kernel;
      done := [];
      Untouched(part, paths, kernel);
      var touched, reports := Touched({}, []), 0;
      gone := [];
      while true
        invariant Running() && Held(paths, kernel) && reports <= REPORTS && start.past <= kernel.past
        invariant Ready(part, Untaken(kernel, done)) && Keeps(part, start, part, Untaken(kernel, done))
        invariant Sorted(paths, done, touched, gone)
        decreases REPORTS - reports
      {
        ghost var before := Untaken(kernel, done);
        var report := Poll(done, part);
        if report.None? {
          KeepsTrans(part, start, part, before, part, Untaken(kernel, done));
          return Some(touched), gone, done;
        }
        reports := reports + 1;
        if report.value.Strange? || reports > REPORTS {
          return None, gone, done + [report.value];
        }
        KeepsTrans(part, start, part, before, part, Untaken(kernel, done + [report.value]));
        touched, gone := Take(report.value.handle, report.value.replaced, touched, gone, done);
        done := done + [report.value];
      }
    }

    /**
    Take the reports; what they say is gone is no longer watched. Of `part`,
    which was followed, `left` still is. What was covered is covered still,
    unless it is mentioned.
    */
    method Drain(ghost part: Registry) returns (drained: Option<Touched>, at: Kernel, ghost left: Registry)
      requires Valid() && Ready(part, kernel) && Within(part, paths)
      modifies this`kernel, this`time, this`paths, this`fds, this`run
      ensures Valid() && run == old(run) + 1 && old(kernel.past) <= kernel.past
      ensures drained.None? ==> paths == old(paths)
      ensures drained.Some? ==>
        && Ready(left, kernel) && Within(left, paths) && Within(left, part) && Within(paths, old(paths))
        && (forall q :: q in part && q in paths ==> q in left) && (forall q :: q in paths ==> paths[q].since < run)
        && at.queue == [] && Present(at) && Ready(left, at) && old(kernel.past) < at.past <= kernel.past
        && (forall p, kind :: Taken(part, old(kernel), drained.value, left, at, p, kind))
        && (forall p, kind :: Covered(old(paths), p, kind) ==> Covered(paths, p, kind) || Mentions(drained.value, p, kind))
        && Keeps(left, at, left, kernel)
    {
      run := run + 1;
      assert Running();
      hide Sound, Rooted, Keeps, Held, Lawful, Follows, Obeys, Sorted, Twins, Concerns, Covered, Look, Left, Taken, Mentions, Ready;
      ghost var all, start := paths, kernel;
      var gone;
      ghost var done;
      drained, gone, done := Empty(part);
      at, left := kernel, Left(part, gone);
      if drained.Some? {
        LeftIsReady(part, all, start, kernel, done, drained.value, gone);
        AllLeftCovered(all, drained.value, gone, done);
        LeftOfBoth(part, all, gone);
        ForgetGone(gone, part);
      }
    }

    lemma AllLeftCovered(all: Registry, t: Touched, gone: seq<Path>, done: seq<Report>)
      requires Sorted(all, done, t, gone)
      ensures forall p, kind :: Covered(all, p, kind) ==> Covered(Left(all, gone), p, kind) || Mentions(t, p, kind)
    {
      forall p, kind | Covered(all, p, kind) ensures Covered(Left(all, gone), p, kind) || Mentions(t, p, kind) {
        LeftCovers(all, all, t, gone, done, p, kind);
      }
    }

    /** Sort one report out. */
    method Take(handle: nat, replaced: bool, t: Touched, gone: seq<Path>, ghost done: seq<Report>) returns (touched: Touched, more: seq<Path>)
      requires Twins(paths, fds) && Sorted(paths, done, t, gone)
      ensures Sorted(paths, done + [Vnode(handle, replaced)], touched, more)
    {
      touched, more := t, gone;
      if handle in fds {
        var rel := fds[handle];
        if replaced {
          more := gone + [rel];
        }
        if replaced && paths[rel].kind.Dir? {
          touched := t.(subtrees := t.subtrees + [rel]);
        } else {
          touched := t.(paths := t.paths + {rel});
        }
      }
    }

    lemma Untouched(r: Registry, all: Registry, k: Kernel)
      requires Ready(r, k)
      ensures Ready(r, Untaken(k, [])) && Keeps(r, k, r, Untaken(k, []))
      ensures Sorted(all, [], Touched({}, []), [])
    {
      assert [] + k.queue == k.queue;
      SameWorld(r, k, k);
    }

    predicate Watches(rel: Path, kind: Kind)
      reads this
    {
      rel in paths && paths[rel].kind == kind
    }

    /** Whether `rel` has been watched since before this run. */
    predicate WatchedBefore(rel: Path, kind: Kind)
      reads this
    {
      rel in paths && paths[rel].kind == kind && paths[rel].since < run
    }

    /** Stop watching the files not to be kept. */
    method RetainFiles(keep: Path -> bool, ghost part: Registry)
      requires Valid() && Ready(part, kernel) && Within(part, paths)
      modifies this`kernel, this`time, this`paths, this`fds
      ensures Valid() && old(kernel.past) <= kernel.past
      ensures paths == Retained(old(paths), keep) && Within(Retained(part, keep), paths)
      ensures Ready(Retained(part, keep), kernel) && Keeps(Retained(part, keep), old(kernel), Retained(part, keep), kernel)
    {
      hide Sound, Rooted, Keeps, Held, Lawful, Follows, Twins, Obeys, Running;
      ghost var start, all, left, base := kernel, paths, Retained(paths, keep), Retained(part, keep);
      RetainedIsReady(part, keep, kernel);
      SameWorld(base, start, start);
      var dropped := set q | q in paths && paths[q].kind.File? && !keep(q);
      ghost var doomed := dropped;
      assert left == all - doomed;
      assert forall q :: q in base ==> q !in doomed;
      hide Retained, Ready;
      while dropped != {}
        invariant Valid() && Within(base, paths) && Ready(base, kernel) && Keeps(base, start, base, kernel) && start.past <= kernel.past
        invariant dropped <= doomed && paths == all - (doomed - dropped)
        decreases |dropped|
      {
        var q :| q in dropped;
        ghost var before := kernel;
        Drop(q, base);
        KeepsTrans(base, start, base, before, base, kernel);
        dropped := dropped - {q};
      }
      assert doomed - dropped == doomed;
      assert paths == left;
    }
  }
}
