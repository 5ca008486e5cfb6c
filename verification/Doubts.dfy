/**
When a directory that was registered may be taken to be watched together with
what is below it: exactly when nothing below it was registered before. What was
registered earlier may belong to a directory that is no longer there.
*/
module Doubts {
  import opened Options
  import opened Kernels
  import opened Kqueue
  import opened Watches
  import opened Watching
  import opened Rootedness

  /** The registrations once the directory at `d` is watched, as what it is in `fs`. */
  ghost function Adopted(r: Registry, fs: Fs, d: Path, handle: nat, run: nat): Registry {
    r[d := Watched(handle, if Lookup(fs, d).Some? then Lookup(fs, d).value else 0, Dir, run)]
  }

  /** What is registered with all directories above it is what its path names, or a report says otherwise. */
  ghost predicate CoveredIsLive(r: Registry, l: Kernel) {
    forall q :: q in r && Covered(r, q, r[q].kind) ==> Live(l.fs, q, r[q]) || GoneAbove(r, l.queue, q)
  }

  lemma CoveredStays(r: Registry, k: Kernel, l: Kernel, q: Path)
    requires Held(r, k) && AllLive(r, k.fs) && Obeys(k, l) && q in r && Covered(r, q, r[q].kind)
    ensures Live(l.fs, q, r[q]) || GoneAbove(r, l.queue, q)
  {
    var core := Firm(r, r, r);
    FirmIsRooted(r, r, r);
    HeldFewer(r, core, k);
    assert Sound(core, k);
    StepKeepsSound(core, k, l);
    GoneFewer(core, r, l.queue);
    assert q in core;
  }

  lemma GoneAboveAdopted(r: Registry, queue: seq<Report>, fs: Fs, d: Path, handle: nat, run: nat, q: Path)
    requires d !in r && GoneAbove(r, queue, q)
    ensures GoneAbove(Adopted(r, fs, d, handle, run), queue, q)
  {
    var a :| a in r && a <= q && (a == q || r[a].kind.Dir?) && Gone(queue, r[a].handle);
    assert a in Adopted(r, fs, d, handle, run);
  }

  /** The first step below `d` towards something that becomes covered. */
  lemma CompletedBelow(r: Registry, fs: Fs, d: Path, handle: nat, run: nat) returns (c: Path)
    requires d !in r && Completes(r, Adopted(r, fs, d, handle, run))
    ensures c in r && c != [] && c[..|c| - 1] == d && Covered(Adopted(r, fs, d, handle, run), c, r[c].kind)
  {
    var s := Adopted(r, fs, d, handle, run);
    var q, kind :| q in r && Covered(s, q, kind) && !Covered(r, q, kind);
    var a :| a <= q && a != q && !(a in r && r[a].kind.Dir?);
    assert a in s && a == d;
    c := q[..|d| + 1];
    CoveredAbove(s, q, kind, c);
    assert c != d && c[..|c| - 1] == d;
  }

  /**
  Watching one more directory is right, whatever has happened to it meanwhile,
  exactly when that completes what is above nothing registered before.
  */
  lemma AdoptingIsRightIff(r: Registry, k: Kernel, d: Path, handle: nat, run: nat)
    requires Held(r, k) && AllLive(r, k.fs) && Quiet(r, k) && Tree(k.fs) && d !in r
    ensures !Completes(r, Adopted(r, k.fs, d, handle, run)) <==>
      forall l :: Obeys(k, l) && IsFolderAt(l.fs, d) ==> CoveredIsLive(Adopted(r, l.fs, d, handle, run), l)
  {
    if Completes(r, Adopted(r, k.fs, d, handle, run)) {
      var c := CompletedBelow(r, k.fs, d, handle, run);
      assert Live(k.fs, c, r[c]);
      var l := Unnoticed(r, k, c);
      var s := Adopted(r, l.fs, d, handle, run);
      SameCover(r, k.fs, l.fs, d, handle, run, c, r[c].kind);
      assert c in s && Covered(s, c, s[c].kind) && !GoneAbove(s, l.queue, c) && !CoveredIsLive(s, l);
    } else {
      forall l | Obeys(k, l) && IsFolderAt(l.fs, d) ensures CoveredIsLive(Adopted(r, l.fs, d, handle, run), l) {
        AdoptedIsLive(r, k, l, d, handle, run);
      }
    }
  }

  lemma SameCover(r: Registry, f: Fs, g: Fs, d: Path, handle: nat, run: nat, q: Path, kind: Kind)
    ensures Covered(Adopted(r, f, d, handle, run), q, kind) <==> Covered(Adopted(r, g, d, handle, run), q, kind)
  {
    var s, t := Adopted(r, f, d, handle, run), Adopted(r, g, d, handle, run);
    forall a ensures (a in s <==> a in t) && (a in s ==> s[a].kind == t[a].kind) {
    }
  }

  lemma AdoptedIsLive(r: Registry, k: Kernel, l: Kernel, d: Path, handle: nat, run: nat)
    requires Held(r, k) && AllLive(r, k.fs) && Obeys(k, l) && d !in r && IsFolderAt(l.fs, d)
    requires !Completes(r, Adopted(r, k.fs, d, handle, run))
    ensures CoveredIsLive(Adopted(r, l.fs, d, handle, run), l)
  {
    var s := Adopted(r, l.fs, d, handle, run);
    forall q | q in s && Covered(s, q, s[q].kind) ensures Live(l.fs, q, s[q]) || GoneAbove(s, l.queue, q) {
      if q != d {
        SameCover(r, k.fs, l.fs, d, handle, run, q, s[q].kind);
        assert Covered(r, q, r[q].kind);
        CoveredStays(r, k, l, q);
        if GoneAbove(r, l.queue, q) {
          GoneAboveAdopted(r, l.queue, l.fs, d, handle, run, q);
        }
      }
    }
  }

  // ----- a change that no run looks at -----

  /** A file `f` in a directory `d`, registered while `d` itself could not be. */
  ghost function Unadopted(f: Path): Registry {
    map[[] := Watched(0, 0, Dir, 0), f := Watched(1, 2, File, 0)]
  }

  /** The directory `d` is inode 1, with the file `f` as inode 2; then another is put in its place, with the file as inode 4. */
  ghost function Dirs(d: string, f: string, replaced: bool, meta: nat): Fs {
    Fs(0, map[0 := Folder(0, map[d := if replaced then 3 else 1]), 1 := Folder(0, map[f := 2]), 2 := Plain(0), 3 := Folder(0, map[f := 4]), 4 := Plain(meta)])
  }

  lemma LookInDir(d: string, f: string, replaced: bool, meta: nat)
    ensures var fs := Dirs(d, f, replaced, meta);
      && Lookup(fs, [d]) == Some(if replaced then 3 else 1)
      && Look(fs, [d, f]) == if replaced then Found(4, Plain(meta)) else Found(2, Plain(0))
  {
    assert [d][..0] == [] && [d, f][..1] == [d];
  }

  lemma NothingLost(d: string, f: string, x: bool, m: nat, y: bool, n: nat, ino: nat)
    requires x == y || (ino != 1 && ino != 3)
    ensures !Loses(Dirs(d, f, x, m), Dirs(d, f, y, n), ino)
  {
    var before, after := Dirs(d, f, x, m), Dirs(d, f, y, n);
    forall dir, name | Links(before, dir, name, ino) ensures Links(after, dir, name, ino) {
    }
  }

  /** A directory is replaced while only the root above it and a file below it are watched: all that is reported is that the root changed. */
  lemma ReplacedUnseen(d: string, f: string)
    ensures var r, fs, gs := Unadopted([d, f]), Dirs(d, f, false, 0), Dirs(d, f, true, 0);
      var k := Kernel(fs, map[0 := 0, 1 := 2], {0, 1}, [], [fs]);
      && Held(r, k) && AllLive(r, k.fs) && Quiet(r, k)
      && Obeys(k, Kernel(gs, map[0 := 0, 1 := 2], {0, 1}, [Vnode(0, false)], [fs, gs]))
  {
    var r, fs, gs := Unadopted([d, f]), Dirs(d, f, false, 0), Dirs(d, f, true, 0);
    var k := Kernel(fs, map[0 := 0, 1 := 2], {0, 1}, [], [fs]);
    var l := Kernel(gs, map[0 := 0, 1 := 2], {0, 1}, [Vnode(0, false)], [fs, gs]);
    LookInDir(d, f, false, 0);
    assert Live(fs, [], r[[]]) && Live(fs, [d, f], r[[d, f]]);
    assert r[[]].handle == 0 && r[[d, f]].handle == 1;
    NothingLost(d, f, false, 0, true, 0, 0);
    NothingLost(d, f, false, 0, true, 0, 2);
    NothingLost(d, f, true, 0, false, 0, 0);
    NothingLost(d, f, true, 0, false, 0, 2);
    assert Reports(k, l, 0) && Reports(k, l, 1);
    assert Survives(k, l, 0) && Survives(k, l, 2);
  }

  lemma AboveFile(d: string, f: string, a: Path)
    requires a <= [d, f] && a != [d, f]
    ensures a == [] || a == [d]
  {
    assert |a| < 2 || a == [d, f];
  }

  lemma AdoptionCovers(d: string, f: string, fs: Fs)
    ensures var r := Unadopted([d, f]);
      Covered(Adopted(r, fs, [d], 2, 1), [d, f], File) && Completes(r, Adopted(r, fs, [d], 2, 1))
  {
    var r, p := Unadopted([d, f]), [d, f];
    var s := Adopted(r, fs, [d], 2, 1);
    assert |p| == 2 && |[d]| == 1 && [d] <= p;
    forall a | a <= p && a != p ensures a in s && s[a].kind.Dir? {
      AboveFile(d, f, a);
    }
    assert [d] !in r && !Covered(r, p, File);
  }

  lemma WritesUnseen(d: string, f: string)
    ensures var s, gs, hs := Adopted(Unadopted([d, f]), Dirs(d, f, true, 0), [d], 2, 1), Dirs(d, f, true, 0), Dirs(d, f, true, 1);
      var m := Kernel(gs, map[0 := 0, 1 := 2, 2 := 3], {0, 1, 2}, [], [gs]);
      Held(s, m) && Obeys(m, m.(fs := hs, past := [gs, hs]))
  {
    var gs, hs := Dirs(d, f, true, 0), Dirs(d, f, true, 1);
    var s := Adopted(Unadopted([d, f]), gs, [d], 2, 1);
    var m := Kernel(gs, map[0 := 0, 1 := 2, 2 := 3], {0, 1, 2}, [], [gs]);
    var n := m.(fs := hs, past := [gs, hs]);
    LookInDir(d, f, true, 0);
    forall ino ensures !Loses(gs, hs, ino) && !Loses(hs, gs, ino) {
      NothingLost(d, f, true, 0, true, 1, ino);
      NothingLost(d, f, true, 1, true, 0, ino);
    }
    assert Reports(m, n, 0) && Reports(m, n, 1) && Reports(m, n, 2);
    assert Survives(m, n, 0) && Survives(m, n, 2) && Survives(m, n, 3);
  }

  /**
  Then the directory is watched, and the new file in it is found clean and
  counts as watched. Its next change is not reported.
  */
  lemma ChangeIsMissed(matches: Matches, key: nat, d: string, f: string, e: Entry)
    requires e.path == [d, f] && e.stage == 0 && !e.exempt && matches(key, e, 4, Plain(0)) && !matches(key, e, 4, Plain(1))
    ensures var r, gs, hs := Unadopted([d, f]), Dirs(d, f, true, 0), Dirs(d, f, true, 1);
      var s := Adopted(r, gs, [d], 2, 1);
      var m := Kernel(gs, map[0 := 0, 1 := 2, 2 := 3], {0, 1, 2}, [], [gs]);
      var n := m.(fs := hs, past := [gs, hs]);
      && Held(s, m) && Covered(s, e.path, File) && Completes(r, s) && Vouched(matches, key, e, Look(m.fs, e.path))
      && Obeys(m, n) && n.queue == [] && !Vouched(matches, key, e, Look(n.fs, e.path))
  {
    hide Adopted, Unadopted, Dirs, Obeys, Held, Covered, Completes, Look;
    LookInDir(d, f, true, 0);
    LookInDir(d, f, true, 1);
    AdoptionCovers(d, f, Dirs(d, f, true, 0));
    WritesUnseen(d, f);
  }
}
