/**
Listing a work tree under git's ignore rules: what a directory's listing is, and
the walk that looks at everything. What a rule matches is left open.
*/
module Listings {
  import opened Options
  import opened Sightings

  type Path = seq<string>

  /** An ignore file: its stamp, and what it says. */
  datatype Rules = Rules(stamp: Stamp, text: nat)

  /** A directory as it is; `nested` when it holds a `.git` entry. */
  datatype Tree = Tree(stamp: Stamp, nested: bool, rules: Option<Rules>, files: seq<string>, subs: seq<Sub>)

  datatype Sub = Sub(name: string, tree: Tree)

  /** What reading a directory yields, before any rule applies. */
  datatype Raw = Raw(nested: bool, hasRules: bool, files: seq<string>, dirs: seq<string>)

  function Names(subs: seq<Sub>): seq<string> {
    if subs == [] then [] else [subs[0].name] + Names(subs[1..])
  }

  function RawOf(t: Tree): Raw {
    Raw(t.nested, t.rules.Some?, t.files, Names(t.subs))
  }

  function Find(subs: seq<Sub>, name: string): (t: Option<Tree>)
    ensures t.Some? ==> exists i :: 0 <= i < |subs| && subs[i].tree == t.value
  {
    if subs == [] then None else
    if subs[0].name == name then Some(subs[0].tree) else
      var t := Find(subs[1..], name);
      assert t.Some? ==> forall i :: 0 <= i < |subs[1..]| ==> subs[1..][i] == subs[i + 1];
      t
  }

  /** An ignore file above a path. */
  datatype Layer = Layer(dir: Path, text: nat)

  /** What is outside the tree: case folding, `info/exclude` and the global excludes file. */
  datatype Around = Around(ignoreCase: bool, exclude: nat, global: nat)

  /** What the rules of a layer, of `info/exclude` and of the global file say of a path, if anything. */
  datatype Engine = Engine(
    layer: (bool, Layer, Path, bool) -> Option<bool>,
    exclude: (bool, nat, Path, bool) -> Option<bool>,
    global: (bool, nat, Path, bool) -> bool
  )

  datatype Judge = Judge(engine: Engine, around: Around)

  function Outside(j: Judge, path: Path, isDir: bool): bool {
    match j.engine.exclude(j.around.ignoreCase, j.around.exclude, path, isDir)
    case Some(ignore) => ignore
    case None => j.engine.global(j.around.ignoreCase, j.around.global, path, isDir)
  }

  function Decides(j: Judge, layer: Layer, path: Path, isDir: bool): Option<bool> {
    j.engine.layer(j.around.ignoreCase, layer, path, isDir)
  }

  /** The layers run from the root's down. */
  function Ignored(j: Judge, layers: seq<Layer>, path: Path, isDir: bool): bool {
    if layers == [] then Outside(j, path, isDir) else
      match Decides(j, layers[|layers| - 1], path, isDir)
      case Some(ignore) => ignore
      case None => Ignored(j, layers[..|layers| - 1], path, isDir)
  }

  /** The deepest layer that decides has the say; what is outside the tree, when none does. */
  lemma {:induction false} DeepestDecides(j: Judge, layers: seq<Layer>, path: Path, isDir: bool, at: nat)
    requires at <= |layers| && forall i :: at <= i < |layers| ==> Decides(j, layers[i], path, isDir) == None
    ensures Ignored(j, layers, path, isDir) == Ignored(j, layers[..at], path, isDir)
    ensures at == 0 ==> Ignored(j, layers, path, isDir) == Outside(j, path, isDir)
    ensures at > 0 && Decides(j, layers[at - 1], path, isDir).Some? ==>
      Ignored(j, layers, path, isDir) == Decides(j, layers[at - 1], path, isDir).value
    decreases |layers|
  {
    if at < |layers| {
      var rest := layers[..|layers| - 1];
      DeepestDecides(j, rest, path, isDir, at);
      assert rest[..at] == layers[..at];
    } else {
      assert layers[..at] == layers;
    }
  }

  /** Up the layers, from the directory's own. */
  method IsIgnored(j: Judge, layers: seq<Layer>, path: Path, isDir: bool) returns (ignored: bool)
    ensures ignored == Ignored(j, layers, path, isDir)
  {
    var depth := |layers|;
    while depth > 0
      invariant 0 <= depth <= |layers|
      invariant forall i :: depth <= i < |layers| ==> Decides(j, layers[i], path, isDir) == None
    {
      match Decides(j, layers[depth - 1], path, isDir)
      case Some(ignore) =>
        DeepestDecides(j, layers, path, isDir, depth);
        return ignore;
      case None =>
        depth := depth - 1;
    }
    DeepestDecides(j, layers, path, isDir, 0);
    match j.engine.exclude(j.around.ignoreCase, j.around.exclude, path, isDir)
    case Some(ignore) => ignored := ignore;
    case None => ignored := j.engine.global(j.around.ignoreCase, j.around.global, path, isDir);
  }

  /** What listing one directory under git's rules yields. */
  datatype Listing = Listing(stamp: Stamp, rules: Option<Stamp>, nested: bool, files: seq<string>, dirs: seq<string>)

  function Kept(j: Judge, layers: seq<Layer>, rel: Path, names: seq<string>, isDir: bool): seq<string> {
    if names == [] then [] else
      (if Ignored(j, layers, rel + [names[0]], isDir) then [] else [names[0]]) + Kept(j, layers, rel, names[1..], isDir)
  }

  method Keep(j: Judge, layers: seq<Layer>, rel: Path, names: seq<string>, isDir: bool) returns (kept: seq<string>)
    ensures kept == Kept(j, layers, rel, names, isDir)
  {
    hide Kept;
    kept := [];
    assert names[0..] == names;
    for i := 0 to |names|
      invariant kept + Kept(j, layers, rel, names[i..], isDir) == Kept(j, layers, rel, names, isDir)
    {
      KeptFrom(j, layers, rel, names, isDir, i);
      var ignored := IsIgnored(j, layers, rel + [names[i]], isDir);
      if !ignored {
        kept := kept + [names[i]];
      }
    }
    assert names[|names|..] == [];
    NoneKept(j, layers, rel, isDir);
  }

  lemma KeptFrom(j: Judge, layers: seq<Layer>, rel: Path, names: seq<string>, isDir: bool, i: nat)
    requires i < |names|
    ensures Kept(j, layers, rel, names[i..], isDir)
         == (if Ignored(j, layers, rel + [names[i]], isDir) then [] else [names[i]]) + Kept(j, layers, rel, names[i + 1..], isDir)
  {
    hide Ignored;
    assert names[i..][0] == names[i] && names[i..][1..] == names[i + 1..];
  }

  lemma NoneKept(j: Judge, layers: seq<Layer>, rel: Path, isDir: bool)
    ensures Kept(j, layers, rel, [], isDir) == []
  {
  }

  /** A nested repository is not listed, unless it is the root; `layers` include the directory's own. */
  function Listed(j: Judge, rel: Path, stamp: Stamp, raw: Raw, rules: Option<Stamp>, layers: seq<Layer>): Listing {
    if raw.nested && rel != [] then Listing(stamp, None, true, [], []) else
      Listing(stamp, rules, raw.nested, Kept(j, layers, rel, raw.files, false), Kept(j, layers, rel, raw.dirs, true))
  }

  function OwnLayer(rel: Path, rules: Option<Rules>): seq<Layer> {
    if rules.None? then [] else [Layer(rel, rules.value.text)]
  }

  function RulesStamp(t: Tree): Option<Stamp> {
    if t.rules.None? then None else Some(t.rules.value.stamp)
  }

  /** What listing `t` now yields below `layers`. */
  function ListingNow(j: Judge, t: Tree, rel: Path, layers: seq<Layer>): Listing {
    Listed(j, rel, t.stamp, RawOf(t), RulesStamp(t), layers + OwnLayer(rel, t.rules))
  }

  function Files(rel: Path, names: seq<string>): seq<Path> {
    if names == [] then [] else [rel + [names[0]]] + Files(rel, names[1..])
  }

  /** The walk that lists every directory it enters: the files it finds. */
  function FullWalk(j: Judge, enters: Path -> bool, t: Tree, rel: Path, layers: seq<Layer>): seq<Path>
    decreases t, 1, 0
  {
    var listing := ListingNow(j, t, rel, layers);
    if listing.nested && rel != [] then [] else
      Files(rel, listing.files) + FullBelow(j, enters, t, rel, layers + OwnLayer(rel, t.rules), listing.dirs)
  }

  function FullBelow(j: Judge, enters: Path -> bool, t: Tree, rel: Path, layers: seq<Layer>, names: seq<string>): seq<Path>
    decreases t, 0, |names|
  {
    if names == [] then [] else
      var found :=
        if !enters(rel + [names[0]]) then [] else
        match Find(t.subs, names[0])
        case None => []
        case Some(sub) => FullWalk(j, enters, sub, rel + [names[0]], layers);
      found + FullBelow(j, enters, t, rel, layers, names[1..])
  }
}
