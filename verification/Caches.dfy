/**
The outcome cache: a file's stamp stands for its bytes once it is old enough
that no later write could leave the same one. Files change at any moment,
also between taking a stamp and reading the bytes.
*/
module Caches {
  import opened Options

  /** How much a written file's times may lie behind the clock: two seconds. */
  const SETTLE: int := 2_000_000_000

  datatype Mode = Format | Check

  type Path = string

  type Bytes = seq<nat>

  /** The device, inode and size are one number. */
  datatype Stamp = Stamp(ino: nat, mtime: int, ctime: int)

  datatype Inode = Inode(bytes: Bytes, mtime: int, ctime: int)

  datatype World = World(time: int, names: map<Path, nat>, inodes: map<nat, Inode>)

  /** A lookup key; different inputs never share one. The configuration is fixed. */
  datatype Key = Key(mode: Mode, rel: Path, bytes: Bytes)

  function StampOf(ino: nat, inode: Inode): Stamp {
    Stamp(ino, inode.mtime, inode.ctime)
  }

  // ----- what may happen outside -----

  /** An inode written since `since`; `honest` when nobody sets modification times back. */
  predicate WrittenSince(honest: bool, inode: Inode, since: int) {
    inode.ctime >= since - SETTLE && (honest ==> inode.mtime >= since - SETTLE)
  }

  /** Time passes; files are written, made and removed, and paths come to name other files. */
  ghost predicate Passes(honest: bool, w: World, v: World) {
    && v.time >= w.time
    && forall ino :: ino in v.inodes ==>
        (ino in w.inodes && v.inodes[ino] == w.inodes[ino]) || WrittenSince(honest, v.inodes[ino], w.time)
  }

  type Environment = (nat, World) -> World

  ghost predicate Lawful(env: Environment) {
    forall tick, w :: Passes(true, w, env(tick, w))
  }

  // ----- when a stamp stands for a key -----

  /** Every file that bears the stamp holds the bytes of the key. */
  ghost predicate Bears(w: World, stamp: Stamp, key: Key) {
    forall ino :: ino in w.inodes && StampOf(ino, w.inodes[ino]) == stamp ==> w.inodes[ino].bytes == key.bytes
  }

  /** And no file written from now on can come to bear it. */
  ghost predicate Stands(w: World, stamp: Stamp, key: Key) {
    stamp.mtime < w.time - SETTLE && Bears(w, stamp, key)
  }

  lemma StandsOn(w: World, v: World, stamp: Stamp, key: Key)
    requires Stands(w, stamp, key) && Passes(true, w, v)
    ensures Stands(v, stamp, key)
  {
  }

  /** A file's bytes, when the path still names the file whose stamp was taken, or the stamp was too recent. */
  lemma ReadStands(w: World, v: World, ino: nat, key: Key)
    requires ino in w.inodes && ino in v.inodes && Passes(true, w, v) && key.bytes == v.inodes[ino].bytes
    requires w.inodes[ino].mtime < w.time - SETTLE
    ensures Stands(v, StampOf(ino, w.inodes[ino]), key)
  {
  }

  /**
  Against files whose modification time is set back, a stamp some file bears
  goes on standing for its bytes exactly when the change time has settled too.
  */
  lemma StandsAgainstBackdating(w: World, ino: nat, key: Key)
    requires ino in w.inodes && Bears(w, StampOf(ino, w.inodes[ino]), key)
    ensures (forall v :: Passes(false, w, v) ==> Bears(v, StampOf(ino, w.inodes[ino]), key)) <==> w.inodes[ino].ctime < w.time - SETTLE
  {
    var stamp := StampOf(ino, w.inodes[ino]);
    if w.inodes[ino].ctime >= w.time - SETTLE {
      var inode := w.inodes[ino];
      var v := w.(inodes := w.inodes[ino := inode.(bytes := key.bytes + [0])]);
      assert Passes(false, w, v);
      assert |v.inodes[ino].bytes| != |key.bytes| && StampOf(ino, v.inodes[ino]) == stamp;
      assert !Bears(v, stamp, key);
    } else {
      forall v | Passes(false, w, v) ensures Bears(v, stamp, key) {
      }
    }
  }

  // ----- the cache -----

  datatype Outcome = Outcome(changed: bool, failed: bool, report: nat)

  datatype Slot = Slot(outcome: Outcome, used: bool)

  /** A file that was read because its stamp did not answer the lookup. */
  datatype Fresh = Fresh(bytes: Bytes, key: Key, stamp: Option<Stamp>)

  datatype Lookup = Hit(outcome: Outcome) | Miss(file: Fresh) | Unreadable

  datatype PathKey = PathKey(mode: Mode, rel: Path)

  datatype Entry = Entry(stamp: Stamp, key: Key)

  ghost predicate AllStand(stamps: map<PathKey, Entry>, w: World) {
    forall p :: p in stamps ==>
      stamps[p].key.mode == p.mode && stamps[p].key.rel == p.rel && Stands(w, stamps[p].stamp, stamps[p].key)
  }

  function Insert(outcomes: map<Key, Slot>, key: Key, outcome: Outcome): map<Key, Slot> {
    outcomes[key := Slot(outcome, true)]
  }

  function Use(outcomes: map<Key, Slot>, key: Key): map<Key, Slot>
    requires key in outcomes
  {
    outcomes[key := outcomes[key].(used := true)]
  }

  /** Past the budget, what no run used goes, and the stamps that point at it. */
  function Kept(outcomes: map<Key, Slot>, budget: nat): map<Key, Slot> {
    map key | key in outcomes && (|outcomes| <= budget || outcomes[key].used) :: outcomes[key].(used := false)
  }

  function KeptStamps(stamps: map<PathKey, Entry>, outcomes: map<Key, Slot>, budget: nat): map<PathKey, Entry> {
    map p | p in stamps && (|outcomes| <= budget || stamps[p].key in Kept(outcomes, budget)) :: stamps[p]
  }

  class Cache {
    const env: Environment
    var world: World
    var tick: nat

    /** Stamps modified at or after this moment are not remembered. */
    var settled: int
    var outcomes: map<Key, Slot>
    var stamps: map<PathKey, Entry>
    var dirty: bool

    ghost predicate Valid()
      reads this
    {
      Lawful(env) && settled + SETTLE <= world.time && AllStand(stamps, world)
    }

    /** What is known of a file read in this run: once settled, its stamp stands for what was read. */
    ghost predicate Current(file: Fresh)
      reads this
    {
      file.stamp.Some? && file.stamp.value.mtime < settled ==> Stands(world, file.stamp.value, file.key)
    }

    constructor (env: Environment, world: World)
      requires Lawful(env)
      ensures Valid() && outcomes == map[] && stamps == map[] && !dirty
      ensures this.env == env && this.world == world && tick == 0 && settled == world.time - SETTLE
    {
      this.env, this.world, tick := env, world, 0;
      settled, outcomes, stamps, dirty := world.time - SETTLE, map[], map[], false;
    }

    method Pause()
      requires Lawful(env)
      modifies this`world, this`tick
      ensures world == env(old(tick), old(world)) && tick == old(tick) + 1 && Passes(true, old(world), world)
      ensures old(Valid()) ==> Valid()
      ensures forall file :: old(Current(file)) ==> Current(file)
    {
      ghost var was := world;
      world, tick := env(tick, world), tick + 1;
      assert Passes(true, was, world);
      forall p | p in stamps && Stands(was, stamps[p].stamp, stamps[p].key) ensures Stands(world, stamps[p].stamp, stamps[p].key) {
        StandsOn(was, world, stamps[p].stamp, stamps[p].key);
      }
      forall file: Fresh | file.stamp.Some? && Stands(was, file.stamp.value, file.key)
        ensures Stands(world, file.stamp.value, file.key)
      {
        StandsOn(was, world, file.stamp.value, file.key);
      }
    }

    /** Begin another run. Stamps of files still held from the last one may no longer be current. */
    method NextRun()
      modifies this`settled
      ensures settled == world.time - SETTLE && (old(Valid()) ==> Valid())
    {
      settled := world.time - SETTLE;
    }

    method Get(key: Key) returns (outcome: Option<Outcome>)
      modifies this`outcomes
      ensures key in old(outcomes) ==> outcome == Some(old(outcomes)[key].outcome) && outcomes == Use(old(outcomes), key)
      ensures key !in old(outcomes) ==> outcome == None && outcomes == old(outcomes)
    {
      if key !in outcomes {
        return None;
      }
      outcome := Some(outcomes[key].outcome);
      outcomes := Use(outcomes, key);
    }

    /** Point the path's stamp at the key it was read with, unless it changed too recently. */
    method Remember(file: Fresh)
      modifies this`stamps, this`dirty
      ensures stamps == Remembered(old(stamps), settled, file)
      ensures dirty == (old(dirty) || stamps != old(stamps))
      ensures old(Valid()) && Current(file) ==> Valid()
    {
      if file.stamp.None? || file.stamp.value.mtime >= settled {
        return;
      }
      var p, entry := PathKey(file.key.mode, file.key.rel), Entry(file.stamp.value, file.key);
      if p in stamps && stamps[p] == entry {
        assert stamps == stamps[p := entry];
        return;
      }
      stamps, dirty := stamps[p := entry], true;
    }

    /** The stamp of the file at `rel`. */
    method StampAt(rel: Path) returns (stamp: Option<Stamp>)
      requires Lawful(env)
      modifies this`world, this`tick
      ensures world == env(old(tick), old(world)) && tick == old(tick) + 1 && Passes(true, old(world), world)
      ensures old(Valid()) ==> Valid()
      ensures stamp == StampIn(world, rel)
    {
      Pause();
      stamp := StampIn(world, rel);
    }

    /** The outcome a stamp answers with. */
    method GetStamped(p: PathKey, stamp: Stamp) returns (outcome: Option<Outcome>)
      modifies this`outcomes
      ensures outcome.Some? ==>
        && p in stamps && stamps[p].stamp == stamp
        && stamps[p].key in old(outcomes) && outcome.value == old(outcomes)[stamps[p].key].outcome
      ensures Answers(stamps, old(outcomes), p, Some(stamp)) <==> outcome.Some?
      ensures outcomes == if outcome.Some? then Use(old(outcomes), stamps[p].key) else old(outcomes)
    {
      if p !in stamps || stamps[p].stamp != stamp {
        return None;
      }
      outcome := Get(stamps[p].key);
    }

    /**
    Look up the file at `rel`: by the stamp `taken` of it, or else by the bytes
    read at `at`. In a valid cache a hit is the outcome stored for the bytes the
    file holds at `at`, whichever answered. What the cache remembers goes on
    standing if the path still names at `at` the file whose stamp was `taken`.
    */
    method Read(mode: Mode, rel: Path) returns (r: Lookup, ghost taken: World, ghost at: World)
      requires Lawful(env)
      modifies this
      ensures settled == old(settled) && Passes(true, old(world), taken) && Passes(true, taken, at) && world == at
      ensures r == Looked(old(stamps), old(outcomes), mode, rel, taken, at) && taken == env(old(tick), old(world))
      ensures if Answers(old(stamps), old(outcomes), PathKey(mode, rel), StampIn(taken, rel))
        then tick == old(tick) + 1 && at == taken else tick == old(tick) + 2 && at == env(old(tick) + 1, taken)
      ensures !r.Hit? ==> stamps == old(stamps) && outcomes == old(outcomes)
      ensures r.Miss? ==> BytesIn(at, rel) == Some(r.file.bytes) && r.file == Fresh(r.file.bytes, Key(mode, rel, r.file.bytes), StampIn(taken, rel))
      ensures BytesIn(at, rel).Some? && Key(mode, rel, BytesIn(at, rel).value) in old(outcomes) ==> r.Hit?
      ensures Answers(old(stamps), old(outcomes), PathKey(mode, rel), StampIn(taken, rel)) ==>
        stamps == old(stamps) && outcomes == Use(old(outcomes), stamps[PathKey(mode, rel)].key)
      ensures r.Hit? && !Answers(old(stamps), old(outcomes), PathKey(mode, rel), StampIn(taken, rel)) ==>
        && BytesIn(at, rel).Some?
        && var key := Key(mode, rel, BytesIn(at, rel).value);
          && key in old(outcomes) && outcomes == Use(old(outcomes), key)
          && stamps == Remembered(old(stamps), settled, Fresh(key.bytes, key, StampIn(taken, rel)))
      ensures dirty == (old(dirty) || stamps != old(stamps))
      ensures old(Valid()) && SameFile(taken, at, rel) ==> Valid()
      ensures old(Valid()) && r.Hit? ==>
        && BytesIn(at, rel).Some?
        && Key(mode, rel, BytesIn(at, rel).value) in old(outcomes)
        && r.outcome == old(outcomes)[Key(mode, rel, BytesIn(at, rel).value)].outcome
      ensures old(Valid()) && r.Miss? && SameFile(taken, at, rel) ==> Current(r.file)
      ensures old(Valid()) ==> (r.Unreadable? <==> BytesIn(at, rel).None?)
    {
      hide Lawful, Passes;
      var stamp := StampAt(rel);
      taken, at := world, world;
      if stamp.Some? {
        var outcome := GetStamped(PathKey(mode, rel), stamp.value);
        if outcome.Some? {
          assert old(Valid()) ==> Stands(world, stamp.value, stamps[PathKey(mode, rel)].key);
          PassesOn(at);
          return Hit(outcome.value), taken, at;
        }
      }
      Pause();
      at := world;
      var bytes := BytesIn(world, rel);
      if bytes.None? {
        return Unreadable, taken, at;
      }
      var file := Fresh(bytes.value, Key(mode, rel, bytes.value), stamp);
      if old(Valid()) && SameFile(taken, at, rel) {
        LaterThan(old(world), taken);
        ReadIsCurrent(taken, at, rel, settled, file);
      }
      var found := Get(file.key);
      if found.Some? {
        Remember(file);
        return Hit(found.value), taken, at;
      }
      return Miss(file), taken, at;
    }

    /** Keep the outcome of a file that was read, and its stamp: never of a failed one, and in format mode only if nothing changed. */
    method PutFresh(file: Fresh, outcome: Outcome)
      modifies this`outcomes, this`stamps, this`dirty
      ensures !outcome.failed && (!outcome.changed || file.key.mode == Check) ==>
        outcomes == Insert(old(outcomes), file.key, outcome) && stamps == Remembered(old(stamps), settled, file)
      ensures outcome.failed || (outcome.changed && file.key.mode == Format) ==> outcomes == old(outcomes) && stamps == old(stamps)
      ensures dirty == (old(dirty) || stamps != old(stamps) || (outcomes != old(outcomes) &&
        !(file.key in old(outcomes) && old(outcomes)[file.key].outcome == outcome)))
      ensures old(Valid()) && Current(file) ==> Valid()
    {
      if !outcome.failed && (!outcome.changed || file.key.mode == Check) {
        if !(file.key in outcomes && outcomes[file.key].outcome == outcome) {
          dirty := true;
        }
        outcomes := Insert(outcomes, file.key, outcome);
        Remember(file);
      }
    }

    /** Drop what no run used past the budget, if anything changed since the last flush. */
    method Flush(budget: nat)
      modifies this`outcomes, this`stamps, this`dirty
      ensures !dirty && (old(Valid()) ==> Valid())
      ensures old(dirty) ==> outcomes == Kept(old(outcomes), budget) && stamps == KeptStamps(old(stamps), old(outcomes), budget)
      ensures old(dirty) ==> forall p :: p in stamps <==> p in old(stamps) && (|old(outcomes)| > budget ==> old(stamps)[p].key in outcomes)
      ensures !old(dirty) ==> outcomes == old(outcomes) && stamps == old(stamps)
    {
      if !dirty {
        return;
      }
      stamps := KeptStamps(stamps, outcomes, budget);
      outcomes := Kept(outcomes, budget);
      dirty := false;
    }
  }

  /** The stamp is the one remembered for the path, and the outcome it points at is stored. */
  predicate Answers(stamps: map<PathKey, Entry>, outcomes: map<Key, Slot>, p: PathKey, stamp: Option<Stamp>) {
    stamp.Some? && p in stamps && stamps[p].stamp == stamp.value && stamps[p].key in outcomes
  }

  /** What a lookup comes to, with the stamp `taken` at one moment and the bytes read at another. */
  function Looked(stamps: map<PathKey, Entry>, outcomes: map<Key, Slot>, mode: Mode, rel: Path, taken: World, at: World): Lookup {
    var p, stamp, bytes := PathKey(mode, rel), StampIn(taken, rel), BytesIn(at, rel);
    if Answers(stamps, outcomes, p, stamp) then Hit(outcomes[stamps[p].key].outcome)
    else if bytes.None? then Unreadable
    else if Key(mode, rel, bytes.value) in outcomes then Hit(outcomes[Key(mode, rel, bytes.value)].outcome)
    else Miss(Fresh(bytes.value, Key(mode, rel, bytes.value), stamp))
  }

  // ----- what is used stays -----

  /** Between two flushes: an outcome is asked for, or stored. */
  datatype Act = Asked(key: Key) | Stored(key: Key, outcome: Outcome)

  function Acted(outcomes: map<Key, Slot>, acts: seq<Act>): map<Key, Slot>
    decreases |acts|
  {
    if acts == [] then outcomes else
      var before := Acted(outcomes, acts[..|acts| - 1]);
      match acts[|acts| - 1]
      case Asked(key) => if key in before then Use(before, key) else before
      case Stored(key, outcome) => Insert(before, key, outcome)
  }

  /** The outcome stored last under a key, if one was. */
  function LastStored(acts: seq<Act>, key: Key): Option<Outcome>
    decreases |acts|
  {
    if acts == [] then None else
      var last := acts[|acts| - 1];
      if last.Stored? && last.key == key then Some(last.outcome) else LastStored(acts[..|acts| - 1], key)
  }

  /**
  A flush keeps what is there within the budget, and past it exactly the
  outcomes that were asked for or stored since the one before; each is the one
  stored last, and unused again.
  */
  lemma FlushKeepsUsed(outcomes: map<Key, Slot>, acts: seq<Act>, budget: nat, key: Key)
    requires forall k :: k in outcomes ==> !outcomes[k].used
    ensures var now := Acted(outcomes, acts); var kept := Kept(now, budget);
      && (key in now <==> key in outcomes || LastStored(acts, key).Some?)
      && (key in kept <==> key in now && (|now| > budget ==> exists i :: 0 <= i < |acts| && acts[i].key == key))
      && (key in kept ==> kept[key] == Slot(if LastStored(acts, key).Some? then LastStored(acts, key).value else outcomes[key].outcome, false))
  {
    UsedIsActed(outcomes, acts, key);
  }

  lemma {:induction false} UsedIsActed(outcomes: map<Key, Slot>, acts: seq<Act>, key: Key)
    requires forall k :: k in outcomes ==> !outcomes[k].used
    ensures var now := Acted(outcomes, acts);
      && (key in now <==> key in outcomes || LastStored(acts, key).Some?)
      && (key in now ==> (now[key].used <==> exists i :: 0 <= i < |acts| && acts[i].key == key))
      && (key in now ==> now[key].outcome == if LastStored(acts, key).Some? then LastStored(acts, key).value else outcomes[key].outcome)
    decreases |acts|
  {
    if acts != [] {
      var n := |acts| - 1;
      UsedIsActed(outcomes, acts[..n], key);
      assert acts == acts[..n] + [acts[n]];
    }
  }

  lemma PassesOn(w: World)
    ensures Passes(true, w, w)
  {
  }

  lemma LaterThan(w: World, v: World)
    requires Passes(true, w, v)
    ensures v.time >= w.time
  {
  }

  function StampIn(w: World, rel: Path): Option<Stamp> {
    if rel in w.names && w.names[rel] in w.inodes then Some(StampOf(w.names[rel], w.inodes[w.names[rel]])) else None
  }

  function BytesIn(w: World, rel: Path): Option<Bytes> {
    if rel in w.names && w.names[rel] in w.inodes then Some(w.inodes[w.names[rel]].bytes) else None
  }

  /** If the path names a file at both moments, it is one file. */
  predicate SameFile(w: World, v: World, rel: Path) {
    rel in w.names && rel in v.names ==> w.names[rel] == v.names[rel]
  }

  function Remembered(stamps: map<PathKey, Entry>, settled: int, file: Fresh): map<PathKey, Entry> {
    if file.stamp.None? || file.stamp.value.mtime >= settled then stamps
    else stamps[PathKey(file.key.mode, file.key.rel) := Entry(file.stamp.value, file.key)]
  }

  /** Bytes read some time after the stamp was taken: if they are not the stamp's, it was too recent to be trusted. */
  lemma ReadIsCurrent(w: World, v: World, rel: Path, settled: int, file: Fresh)
    requires Passes(true, w, v) && settled + SETTLE <= w.time
    requires file.stamp == StampIn(w, rel) && BytesIn(v, rel) == Some(file.bytes) && file.key.bytes == file.bytes && SameFile(w, v, rel)
    ensures file.stamp.Some? && file.stamp.value.mtime < settled ==> Stands(v, file.stamp.value, file.key)
  {
    if file.stamp.Some? && file.stamp.value.mtime < settled {
      ReadStands(w, v, w.names[rel], file.key);
    }
  }

  // ----- where it fails -----

  /**
  Remembering a file is right whatever happens: its stamp was `taken` when
  stamps before `read` had settled, its bytes are those of the inode `from`, and
  it is remembered when stamps before `kept` have settled.
  */
  ghost predicate RightToRemember(stamp: Stamp, from: nat, read: int, kept: int) {
    forall w: World, v: World, u: World, mode: Mode, rel: Path ::
      ReadAndKept(w, v, u, rel, stamp, from, read, kept) && stamp.mtime < kept ==> Stands(u, stamp, Key(mode, rel, BytesIn(v, rel).value))
  }

  ghost predicate ReadAndKept(w: World, v: World, u: World, rel: Path, stamp: Stamp, from: nat, read: int, kept: int) {
    && Passes(true, w, v) && Passes(true, v, u) && read + SETTLE <= w.time && kept + SETTLE <= u.time
    && StampIn(w, rel) == Some(stamp) && rel in v.names && v.names[rel] == from && BytesIn(v, rel).Some?
  }

  /**
  It is right exactly when the stamp will not be remembered, or the bytes come
  from the file it was taken of, and one of its times had settled by then. The
  cache asks only whether the modification time has settled by now.
  */
  lemma RightToRememberIff(stamp: Stamp, from: nat, read: int, kept: int)
    ensures RightToRemember(stamp, from, read, kept) <==>
      stamp.mtime >= kept || (from == stamp.ino && (stamp.mtime < read || stamp.ctime < read))
  {
    if stamp.mtime < kept {
      if from != stamp.ino {
        SwappedIsWrong(stamp, from, read, kept);
      } else if stamp.mtime >= read && stamp.ctime >= read {
        HeldOverIsWrong(stamp, read, kept);
      } else {
        forall w: World, v: World, u: World, mode: Mode, rel: Path | ReadAndKept(w, v, u, rel, stamp, from, read, kept)
          ensures Stands(u, stamp, Key(mode, rel, BytesIn(v, rel).value))
        {
        }
      }
    }
  }

  lemma SwappedIsWrong(stamp: Stamp, from: nat, read: int, kept: int)
    requires stamp.mtime < kept && from != stamp.ino
    ensures !RightToRemember(stamp, from, read, kept)
  {
    var time := SETTLE + if read < kept then kept else read;
    var inodes := map[stamp.ino := Inode([1], stamp.mtime, stamp.ctime), from := Inode([2], 0, 0)];
    var w, v := World(time, map["a" := stamp.ino], inodes), World(time, map["a" := from], inodes);
    assert ReadAndKept(w, v, v, "a", stamp, from, read, kept);
    assert !Bears(v, stamp, Key(Check, "a", [2]));
  }

  lemma HeldOverIsWrong(stamp: Stamp, read: int, kept: int)
    requires stamp.mtime < kept && stamp.mtime >= read && stamp.ctime >= read
    ensures !RightToRemember(stamp, stamp.ino, read, kept)
  {
    var w := World(SETTLE + read, map["a" := stamp.ino], map[stamp.ino := Inode([1], stamp.mtime, stamp.ctime)]);
    var u := World(SETTLE + kept, w.names, map[stamp.ino := Inode([2], stamp.mtime, stamp.ctime)]);
    assert ReadAndKept(w, w, u, "a", stamp, stamp.ino, read, kept);
    assert !Bears(u, stamp, Key(Check, "a", [1]));
  }

  /** A file is written again in the tick it was last written in, right after the first lookup. */
  function Rewritten(after: Bytes, w: World): World {
    if 1 in w.inodes && WrittenSince(true, w.inodes[1], w.time)
    then w.(time := w.time + 1, inodes := w.inodes[1 := w.inodes[1].(bytes := after)]) else w
  }

  /**
  A file is looked up, and held over the beginning of another run: its stamp had
  not settled, the file was written again in the same tick, and by the next run
  the old stamp passes for settled. The next lookup returns the outcome of bytes
  the file no longer has.
  */
  method HeldOverHits(judge: Bytes -> Outcome, rel: Path, before: Bytes, after: Bytes) returns (r: Lookup, ghost at: World)
    requires judge(before) != judge(after) && !judge(before).failed
    ensures r.Hit? && BytesIn(at, rel) == Some(after) && r.outcome != judge(after)
  {
    var env: Environment := (tick: nat, w: World) => if tick == 2 then Rewritten(after, w) else w;
    var world := World(SETTLE, map[rel := 1], map[1 := Inode(before, 0, 0)]);
    assert Lawful(env);
    var cache := new Cache(env, world);
    hide Lawful, Cache.Valid, Passes;
    ghost var taken;
    r, taken, at := cache.Read(Check, rel);
    var file := Fresh(before, Key(Check, rel, before), Some(Stamp(1, 0, 0)));
    assert taken == world && at == world && r == Miss(file);
    cache.Pause();
    assert cache.world == Rewritten(after, world);
    cache.NextRun();
    cache.PutFresh(r.file, judge(before));
    assert cache.stamps == map[PathKey(Check, rel) := Entry(file.stamp.value, file.key)];
    r, taken, at := cache.Read(Check, rel);
  }

  /**
  The path names another file while its bytes are read, and the first one again
  afterwards, as when a directory is moved away and back. The next lookup
  returns the outcome of bytes the file never had.
  */
  method SwappedHits(judge: Bytes -> Outcome, rel: Path, first: Bytes, other: Bytes) returns (r: Lookup, ghost at: World)
    requires judge(first) != judge(other) && !judge(other).failed
    ensures r.Hit? && BytesIn(at, rel) == Some(first) && r.outcome != judge(first)
  {
    var env: Environment := (tick: nat, w: World) => if tick == 1 then w.(names := w.names[rel := 2]) else if tick == 2 then w.(names := w.names[rel := 1]) else w;
    var world := World(SETTLE + 1, map[rel := 1], map[1 := Inode(first, 0, 0), 2 := Inode(other, 0, 0)]);
    assert Lawful(env);
    var cache := new Cache(env, world);
    hide Lawful, Cache.Valid, Passes;
    ghost var taken;
    r, taken, at := cache.Read(Check, rel);
    var file := Fresh(other, Key(Check, rel, other), Some(Stamp(1, 0, 0)));
    assert taken == world && at == world.(names := map[rel := 2]) && r == Miss(file);
    cache.PutFresh(r.file, judge(other));
    assert cache.stamps == map[PathKey(Check, rel) := Entry(file.stamp.value, file.key)];
    r, taken, at := cache.Read(Check, rel);
  }
}
