/**
A file system as inodes, and what a kernel promises about the ones that are
watched through an open descriptor (kqueue's EVFILT_VNODE). An environment may
change anything at any moment, as long as it reports the changes to what is
watched.
*/
module Kernels {
  import opened Options

  /** A path relative to the work tree, name by name; the root is `[]`. */
  type Path = seq<string>

  datatype Kind = File | Dir

  /** `Plain` is a regular file; `Special` a symbolic link, a FIFO and so on. */
  datatype Inode = Plain(meta: nat) | Folder(meta: nat, entries: map<string, nat>) | Special(meta: nat)

  datatype Fs = Fs(root: nat, inodes: map<nat, Inode>)

  predicate Links(fs: Fs, dir: nat, name: string, ino: nat) {
    dir in fs.inodes && fs.inodes[dir].Folder? && name in fs.inodes[dir].entries && fs.inodes[dir].entries[name] == ino
  }

  /** The inode a path names. */
  function Lookup(fs: Fs, path: Path): Option<nat>
    decreases |path|
  {
    if path == [] then Some(fs.root) else
      match Lookup(fs, path[..|path| - 1])
      case None => None
      case Some(dir) =>
        if dir in fs.inodes && fs.inodes[dir].Folder? && path[|path| - 1] in fs.inodes[dir].entries
        then Some(fs.inodes[dir].entries[path[|path| - 1]]) else None
  }

  /** What looking at a path finds. */
  datatype View = Absent | Found(ino: nat, inode: Inode)

  function Look(fs: Fs, path: Path): View {
    match Lookup(fs, path)
    case None => Absent
    case Some(ino) => if ino in fs.inodes then Found(ino, fs.inodes[ino]) else Absent
  }

  function IsKind(inode: Inode, kind: Kind): bool {
    match kind
    case File => inode.Plain?
    case Dir => inode.Folder?
  }

  /** A file or directory was removed or renamed (`replaced`), or changed in another way. */
  datatype Report = Vnode(handle: nat, replaced: bool) | Strange

  /** `past` holds every state of the file system so far, the current one last. */
  datatype Kernel = Kernel(fs: Fs, open: map<nat, nat>, watched: set<nat>, queue: seq<Report>, past: seq<Fs>)

  predicate Gone(queue: seq<Report>, handle: nat) {
    Vnode(handle, true) in queue
  }

  predicate Told(queue: seq<Report>, handle: nat) {
    Vnode(handle, true) in queue || Vnode(handle, false) in queue
  }

  /** A name of `ino` in `before` is not one in `after`. */
  ghost predicate Loses(before: Fs, after: Fs, ino: nat) {
    (before.root == ino && after.root != ino) || exists dir, name :: Links(before, dir, name, ino) && !Links(after, dir, name, ino)
  }

  predicate SameType(a: Inode, b: Inode) {
    a.Plain? == b.Plain? && a.Folder? == b.Folder?
  }

  /** An inode held open survives and stays what it is. */
  ghost predicate Survives(k: Kernel, l: Kernel, ino: nat) {
    ino in k.fs.inodes ==> ino in l.fs.inodes && SameType(k.fs.inodes[ino], l.fs.inodes[ino])
  }

  /**
  What is reported for a watched inode: that it or its list of entries changed;
  that it lost a name; and for a directory, which has one name at most, that it
  gained one.
  */
  ghost predicate Reports(k: Kernel, l: Kernel, handle: nat)
    requires handle in k.open
  {
    var ino := k.open[handle];
    && (ino in k.fs.inodes && ino in l.fs.inodes && k.fs.inodes[ino] != l.fs.inodes[ino] ==> Told(l.queue, handle))
    && (Loses(k.fs, l.fs, ino) ==> Gone(l.queue, handle))
    && (ino in k.fs.inodes && k.fs.inodes[ino].Folder? && Loses(l.fs, k.fs, ino) ==> Gone(l.queue, handle))
  }

  /** The contract of one step of the environment. */
  ghost predicate Obeys(k: Kernel, l: Kernel) {
    && l.open == k.open && l.watched == k.watched && k.queue <= l.queue && l.past == k.past + [l.fs]
    && (forall h :: h in k.open ==> Survives(k, l, k.open[h]))
    && (forall h :: h in k.watched && h in k.open ==> Reports(k, l, h))
  }

  type Environment = (nat, Kernel) -> Kernel

  ghost predicate Lawful(env: Environment) {
    forall time, k :: Obeys(k, env(time, k))
  }

  /** What a file system may go through, of which an environment makes no more. */
  type History = seq<Fs> -> bool

  ghost predicate Follows(env: Environment, history: History) {
    forall time, k: Kernel :: history(k.past) ==> history(env(time, k).past)
  }

  lemma LookupStep(fs: Fs, path: Path, dir: nat, ino: nat)
    requires path != [] && Lookup(fs, path[..|path| - 1]) == Some(dir)
    ensures Lookup(fs, path) == Some(ino) <==> Links(fs, dir, path[|path| - 1], ino)
  {
  }

  // ----- registrations -----

  datatype Watched = Watched(handle: nat, ino: nat, kind: Kind, since: nat)

  type Registry = map<Path, Watched>

  /** Each registration has its descriptor, and the kernel watches it. */
  ghost predicate Held(r: Registry, k: Kernel) {
    forall q :: q in r ==>
      r[q].handle in k.open && k.open[r[q].handle] == r[q].ino && r[q].ino in k.fs.inodes && r[q].handle in k.watched
  }

  /** The path still names what is watched for it. */
  ghost predicate Live(fs: Fs, q: Path, w: Watched) {
    Lookup(fs, q) == Some(w.ino) && w.ino in fs.inodes && IsKind(fs.inodes[w.ino], w.kind)
  }

  /** A report is queued that `q` or a directory above it was removed or renamed. */
  ghost predicate GoneAbove(r: Registry, queue: seq<Report>, q: Path) {
    exists a :: a in r && a <= q && (a == q || r[a].kind.Dir?) && Gone(queue, r[a].handle)
  }

  ghost predicate Sound(r: Registry, k: Kernel) {
    forall q :: q in r ==> Live(k.fs, q, r[q]) || GoneAbove(r, k.queue, q)
  }

  predicate Rooted(r: Registry) {
    forall q :: q in r && q != [] ==> q[..|q| - 1] in r && r[q[..|q| - 1]].kind.Dir?
  }

  lemma {:induction false} PrefixesAreDirs(r: Registry, q: Path, a: Path)
    requires Rooted(r) && q in r && a <= q
    ensures a in r && (a != q ==> r[a].kind.Dir?)
    decreases |q|
  {
    if a != q {
      var parent := q[..|q| - 1];
      assert a <= parent;
      PrefixesAreDirs(r, parent, a);
    }
  }

  lemma GoneAboveParent(r: Registry, queue: seq<Report>, q: Path)
    requires Rooted(r) && q in r && q != []
    ensures GoneAbove(r, queue, q[..|q| - 1]) ==> GoneAbove(r, queue, q)
  {
    var parent := q[..|q| - 1];
    if GoneAbove(r, queue, parent) {
      var a :| a in r && a <= parent && (a == parent || r[a].kind.Dir?) && Gone(queue, r[a].handle);
      assert a <= q;
    }
  }

  lemma GoneAboveGrows(r: Registry, queue: seq<Report>, more: seq<Report>, q: Path)
    requires queue <= more && GoneAbove(r, queue, q)
    ensures GoneAbove(r, more, q)
  {
    var a :| a in r && a <= q && (a == q || r[a].kind.Dir?) && Gone(queue, r[a].handle);
    assert Gone(more, r[a].handle);
  }

  /** A name that was not lost still leads to the inode. */
  lemma KeptName(f: Fs, g: Fs, q: Path, ino: nat)
    requires Lookup(f, q) == Some(ino) && !Loses(f, g, ino)
    requires q != [] ==> Lookup(g, q[..|q| - 1]) == Lookup(f, q[..|q| - 1])
    ensures Lookup(g, q) == Some(ino)
  {
    if q != [] {
      var dir := Lookup(f, q[..|q| - 1]).value;
      LookupStep(f, q, dir, ino);
      LookupStep(g, q, dir, ino);
    }
  }

  lemma {:induction false} StaysLive(r: Registry, k: Kernel, l: Kernel, q: Path)
    requires Rooted(r) && Held(r, k) && Sound(r, k) && Obeys(k, l)
    requires q in r && !GoneAbove(r, l.queue, q)
    ensures Live(k.fs, q, r[q]) && Live(l.fs, q, r[q])
    decreases |q|
  {
    if GoneAbove(r, k.queue, q) {
      GoneAboveGrows(r, k.queue, l.queue, q);
    }
    assert Survives(k, l, k.open[r[q].handle]) && Reports(k, l, r[q].handle);
    if q != [] {
      GoneAboveParent(r, l.queue, q);
      StaysLive(r, k, l, q[..|q| - 1]);
    }
    KeptName(k.fs, l.fs, q, r[q].ino);
  }

  /** Whatever the environment does, rooted registrations stay live or are reported. */
  lemma StepKeepsSound(r: Registry, k: Kernel, l: Kernel)
    requires Rooted(r) && Held(r, k) && Sound(r, k) && Obeys(k, l)
    ensures Held(r, l) && Sound(r, l)
  {
    forall q | q in r ensures Live(l.fs, q, r[q]) || GoneAbove(r, l.queue, q) {
      if !GoneAbove(r, l.queue, q) {
        StaysLive(r, k, l, q);
      }
    }
    forall q | q in r ensures r[q].ino in l.fs.inodes {
      assert Survives(k, l, k.open[r[q].handle]);
    }
  }

  // ----- what is covered, and what is reported -----

  /** `p` is watched as a `kind`, and every directory above it is watched. */
  ghost predicate Covered(r: Registry, p: Path, kind: Kind) {
    p in r && r[p].kind == kind && forall a :: a <= p && a != p ==> a in r && r[a].kind.Dir?
  }

  /** A queued report concerns `p`: its own, or that a directory above it is gone. */
  ghost predicate Concerns(r: Registry, queue: seq<Report>, p: Path, kind: Kind) {
    || (p in r && r[p].kind == kind && Told(queue, r[p].handle))
    || exists a :: a in r && a <= p && a != p && r[a].kind.Dir? && Gone(queue, r[a].handle)
  }

  lemma GoneAboveConcerns(r: Registry, queue: seq<Report>, p: Path)
    requires p in r && GoneAbove(r, queue, p)
    ensures Concerns(r, queue, p, r[p].kind)
  {
    var a :| a in r && a <= p && (a == p || r[a].kind.Dir?) && Gone(queue, r[a].handle);
  }

  lemma ConcernsGrow(r: Registry, queue: seq<Report>, s: Registry, more: seq<Report>, p: Path, kind: Kind)
    requires Concerns(r, queue, p, kind) && queue <= more
    requires forall q :: q in r && q <= p ==> q in s && s[q] == r[q]
    ensures Concerns(s, more, p, kind)
  {
    if p in r && r[p].kind == kind && Told(queue, r[p].handle) {
      assert p <= p;
    } else {
      var a :| a in r && a <= p && a != p && r[a].kind.Dir? && Gone(queue, r[a].handle);
      assert Gone(more, s[a].handle);
    }
  }

  /** `p` looked the same at every moment from `k` to `l`. */
  ghost predicate SameLook(k: Kernel, l: Kernel, p: Path) {
    && Look(l.fs, p) == Look(k.fs, p)
    && forall i :: |k.past| <= i < |l.past| ==> Look(l.past[i], p) == Look(k.fs, p)
  }

  /** Between two moments: nothing reported is lost, and a covered path that ever looks different is reported. */
  ghost predicate Carried(r: Registry, k: Kernel, s: Registry, l: Kernel, p: Path, kind: Kind) {
    && (Concerns(r, k.queue, p, kind) ==> Concerns(s, l.queue, p, kind))
    && (Covered(r, p, kind) ==> Concerns(s, l.queue, p, kind) || (Covered(s, p, kind) && s[p] == r[p] && SameLook(k, l, p)))
  }

  ghost predicate Keeps(r: Registry, k: Kernel, s: Registry, l: Kernel) {
    k.past <= l.past && forall p, kind :: Carried(r, k, s, l, p, kind)
  }

  lemma CarriedTrans(r: Registry, k: Kernel, s: Registry, l: Kernel, t: Registry, m: Kernel, p: Path, kind: Kind)
    requires k.past <= l.past <= m.past
    requires Carried(r, k, s, l, p, kind) && Carried(s, l, t, m, p, kind)
    ensures Carried(r, k, t, m, p, kind)
  {
    if Covered(r, p, kind) && !Concerns(t, m.queue, p, kind) {
      forall i | |k.past| <= i < |m.past| ensures Look(m.past[i], p) == Look(k.fs, p) {
        if i < |l.past| {
          assert m.past[i] == l.past[i];
        }
      }
    }
  }

  lemma KeepsPast(r: Registry, k: Kernel, s: Registry, l: Kernel)
    requires Keeps(r, k, s, l)
    ensures k.past <= l.past
  {
  }

  lemma KeepsTrans(r: Registry, k: Kernel, s: Registry, l: Kernel, t: Registry, m: Kernel)
    requires Keeps(r, k, s, l) && Keeps(s, l, t, m)
    ensures Keeps(r, k, t, m)
  {
    forall p, kind ensures Carried(r, k, t, m, p, kind) {
      assert Carried(r, k, s, l, p, kind) && Carried(s, l, t, m, p, kind);
      CarriedTrans(r, k, s, l, t, m, p, kind);
    }
  }

  lemma StepKeeps(r: Registry, k: Kernel, l: Kernel)
    requires Rooted(r) && Held(r, k) && Sound(r, k) && Obeys(k, l)
    ensures Keeps(r, k, r, l)
  {
    forall p, kind ensures Carried(r, k, r, l, p, kind) {
      if Concerns(r, k.queue, p, kind) {
        ConcernsGrow(r, k.queue, r, l.queue, p, kind);
      }
      if Covered(r, p, kind) && !Concerns(r, l.queue, p, kind) {
        if GoneAbove(r, l.queue, p) {
          GoneAboveConcerns(r, l.queue, p);
        }
        StaysLive(r, k, l, p);
        assert Reports(k, l, r[p].handle);
      }
    }
  }
}
