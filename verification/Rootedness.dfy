/**
What keeps the registrations of a watcher in step with the file system: that
every directory above a registered path is registered too. Without that, a
directory nobody watches can be replaced, and with it everything watched below.
*/
module Rootedness {
  import opened Options
  import opened Kernels

  /** A directory has one path. */
  ghost predicate Tree(fs: Fs) {
    forall p, q :: IsFolderAt(fs, p) && Lookup(fs, p) == Lookup(fs, q) ==> p == q
  }

  ghost predicate IsFolderAt(fs: Fs, p: Path) {
    Lookup(fs, p).Some? && Lookup(fs, p).value in fs.inodes && fs.inodes[Lookup(fs, p).value].Folder?
  }

  ghost predicate AllLive(r: Registry, fs: Fs) {
    forall q :: q in r ==> Live(fs, q, r[q])
  }

  /** The kernel watches what is registered, and nothing is left to report. */
  ghost predicate Quiet(r: Registry, k: Kernel) {
    k.queue == [] && forall h :: h in k.watched ==> exists q :: q in r && r[q].handle == h
  }

  /** `fs` with the directory at `a` replaced by an empty one. */
  ghost function Replaced(fs: Fs, a: Path, ino: nat): Fs
    requires a != [] ==> IsFolderAt(fs, a[..|a| - 1])
  {
    var added := fs.inodes[ino := Folder(0, map[])];
    if a == [] then Fs(ino, added) else
      var dir := Lookup(fs, a[..|a| - 1]).value;
      var inode := fs.inodes[dir];
      Fs(fs.root, added[dir := inode.(entries := inode.entries[a[|a| - 1] := ino])])
  }

  lemma Bounded(s: set<nat>) returns (n: nat)
    ensures forall x :: x in s ==> x < n
  {
    n := 0;
    if s != {} {
      var x :| x in s;
      var m := Bounded(s - {x});
      n := if x < m then m else x + 1;
      forall y | y in s ensures y < n {
        assert y == x || y in s - {x};
      }
    }
  }

  /** The names a replacement changes: the old directory loses the one it had, the new one gains it. */
  lemma ReplacedLinks(fs: Fs, a: Path, ino: nat, of: nat)
    requires a != [] ==> IsFolderAt(fs, a[..|a| - 1])
    requires ino !in fs.inodes && Lookup(fs, a).Some? && of in fs.inodes && of != Lookup(fs, a).value
    ensures !Loses(fs, Replaced(fs, a, ino), of) && !Loses(Replaced(fs, a, ino), fs, of)
  {
    var after := Replaced(fs, a, ino);
    forall dir, name ensures Links(fs, dir, name, of) <==> Links(after, dir, name, of) {
    }
  }

  lemma {:induction false} AboveReplaced(fs: Fs, a: Path, ino: nat, c: Path)
    requires Tree(fs) && a != [] && Lookup(fs, a).Some? && ino !in fs.inodes
    requires c <= a[..|a| - 1]
    ensures Lookup(fs, c).Some? && Lookup(Replaced(fs, a, ino), c) == Lookup(fs, c)
    decreases |c|
  {
    PrefixFound(fs, a, c);
    if c != [] {
      var b := c[..|c| - 1];
      AboveReplaced(fs, a, ino, b);
      PrefixFound(fs, a, b);
      assert b != a[..|a| - 1];
      PrefixFound(fs, a, a[..|a| - 1]);
      assert Lookup(fs, b) != Lookup(fs, a[..|a| - 1]);
    }
  }

  lemma {:induction false} PrefixFound(fs: Fs, a: Path, c: Path)
    requires Lookup(fs, a).Some? && c <= a
    ensures Lookup(fs, c).Some?
    ensures c != a ==> IsFolderAt(fs, c)
    decreases |a|
  {
    if c != a {
      var b := a[..|a| - 1];
      assert c <= b;
      PrefixFound(fs, b, c);
    }
  }

  lemma {:induction false} BelowReplaced(fs: Fs, a: Path, ino: nat, q: Path)
    requires Tree(fs) && Lookup(fs, a).Some? && ino !in fs.inodes && a < q
    requires a != [] ==> IsFolderAt(fs, a[..|a| - 1])
    ensures Lookup(Replaced(fs, a, ino), q) == None
    decreases |q|
  {
    var after, b := Replaced(fs, a, ino), q[..|q| - 1];
    if b == a {
      if a != [] {
        AboveReplaced(fs, a, ino, a[..|a| - 1]);
      }
      assert Lookup(after, a) == Some(ino);
    } else {
      assert a < b;
      BelowReplaced(fs, a, ino, b);
    }
  }

  lemma AtReplaced(fs: Fs, a: Path, ino: nat)
    requires Tree(fs) && Lookup(fs, a).Some? && ino !in fs.inodes
    requires a != [] ==> IsFolderAt(fs, a[..|a| - 1])
    ensures IsFolderAt(Replaced(fs, a, ino), a)
  {
    if a != [] {
      AboveReplaced(fs, a, ino, a[..|a| - 1]);
    }
  }

  /** Replacing an unregistered directory leaves every watched inode its names, and changes at most its parent's. */
  lemma ReplacedReports(r: Registry, k: Kernel, l: Kernel, a: Path, ino: nat, p: Path)
    requires AllLive(r, k.fs) && Tree(k.fs) && IsFolderAt(k.fs, a) && (a != [] ==> IsFolderAt(k.fs, a[..|a| - 1])) && ino !in k.fs.inodes
    requires l.fs == Replaced(k.fs, a, ino) && a !in r
    requires p in r && r[p].handle in k.open && k.open[r[p].handle] == r[p].ino
    requires a != [] && a[..|a| - 1] in r ==> Told(l.queue, r[a[..|a| - 1]].handle)
    ensures Reports(k, l, r[p].handle)
  {
    assert Live(k.fs, p, r[p]);
    assert p != a;
    ReplacedLinks(k.fs, a, ino, r[p].ino);
    if k.fs.inodes[r[p].ino] != l.fs.inodes[r[p].ino] {
      var parent := a[..|a| - 1];
      assert Lookup(k.fs, parent) == Some(r[p].ino);
      assert p == parent;
    }
  }

  /** A directory that is not registered can be replaced unnoticed. */
  lemma Unnoticed(r: Registry, k: Kernel, q: Path) returns (l: Kernel)
    requires Held(r, k) && AllLive(r, k.fs) && Quiet(r, k) && Tree(k.fs)
    requires q in r && q != [] && q[..|q| - 1] !in r
    ensures Obeys(k, l) && !Live(l.fs, q, r[q]) && !GoneAbove(r, l.queue, q)
    ensures IsFolderAt(l.fs, q[..|q| - 1]) && forall h :: !Gone(l.queue, h)
  {
    var a := q[..|q| - 1];
    assert Live(k.fs, q, r[q]);
    PrefixFound(k.fs, q, a);
    var ino := Bounded(k.fs.inodes.Keys);
    if a != [] {
      PrefixFound(k.fs, q, a[..|a| - 1]);
    }
    var fs := Replaced(k.fs, a, ino);
    BelowReplaced(k.fs, a, ino, q);
    AtReplaced(k.fs, a, ino);
    var queue := if a != [] && a[..|a| - 1] in r then [Vnode(r[a[..|a| - 1]].handle, false)] else [];
    l := k.(fs := fs, queue := queue, past := k.past + [fs]);
    assert Obeys(k, l) by {
      hide Replaced, Lookup, Live, Tree;
      forall h | h in k.watched && h in k.open ensures Reports(k, l, h) {
        var p :| p in r && r[p].handle == h;
        ReplacedReports(r, k, l, a, ino, p);
      }
      forall h | h in k.open ensures Survives(k, l, k.open[h]) {
        ReplacedSurvives(k, l, a, ino, k.open[h]);
      }
    }
  }

  lemma ReplacedSurvives(k: Kernel, l: Kernel, a: Path, ino: nat, of: nat)
    requires ino !in k.fs.inodes && (a != [] ==> IsFolderAt(k.fs, a[..|a| - 1])) && l.fs == Replaced(k.fs, a, ino)
    ensures Survives(k, l, of)
  {
  }

  lemma UnrootedAt(r: Registry, fs: Fs) returns (q: Path)
    requires AllLive(r, fs) && !Rooted(r)
    ensures q in r && q != [] && q[..|q| - 1] !in r
  {
    q :| q in r && q != [] && !(q[..|q| - 1] in r && r[q[..|q| - 1]].kind.Dir?);
    var a := q[..|q| - 1];
    PrefixFound(fs, q, a);
  }

  /**
  Registrations that are live stay live, or are reported, whatever the
  environment does, exactly when they are rooted.
  */
  lemma StandsIffRooted(r: Registry, k: Kernel)
    requires Held(r, k) && AllLive(r, k.fs) && Quiet(r, k) && Tree(k.fs)
    ensures Rooted(r) <==> forall l :: Obeys(k, l) ==> Sound(r, l)
  {
    if Rooted(r) {
      forall l | Obeys(k, l) ensures Sound(r, l) {
        StepKeepsSound(r, k, l);
      }
    } else {
      var q := UnrootedAt(r, k.fs);
      var l := Unnoticed(r, k, q);
      assert !Sound(r, l);
    }
  }
}
