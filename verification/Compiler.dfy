/** The incremental compile driver (orly/compiler.cc): the import worklist, the staleness keys and the link key. */
module Compiler {
  import opened Common

  /** A path relative to the root of the package tree: TPath's namespace, name and extensions. */
  datatype Path = Path(dirs: seq<string>, name: string, exts: seq<string>)

  type Source = string
  type Code = string
  type Stamp = string

  /** The four files generated for a package. */
  datatype Ext = H | Cc | LinkCc | Sig

  const EXTS: set<Ext> := {H, Cc, LinkCc, Sig}

  /** The parts of the compiler this model takes as given, each a function of what it reads: the imports and the
      version a source declares, whether it parses and type-checks, whether code can be generated for it, the code,
      the hash of its bytes, and what g++ makes of a set of generated files. */
  datatype World = World(
    imports: (Stamp, Source) -> seq<Path>,
    version: (Stamp, Source) -> nat,
    checks: (Stamp, Source) -> bool,
    generates: (Stamp, Source) -> bool,
    gen: (Stamp, Source, Ext) -> Code,
    hash: Source -> nat,
    link: (Path, Code, map<Path, Code>) -> Code)

  /** A staleness key: the hash of the source and the build stamp of the compiler. */
  datatype Key = Key(hash: nat, stamp: Stamp)

  /** The output tree. A link key lists the key of every package linked. */
  datatype Disk = Disk(
    files: map<(Path, Ext), Code>,
    keys: map<Path, Key>,
    sos: map<(Path, nat), Code>,
    linkKeys: map<Path, map<Path, Key>>)

  const EMPTY := Disk(map[], map[], map[], map[])

  /** Cached: a plain compile. Transient: TransientCc. CheckOnly: SyntaxOnly or SemanticOnly. */
  datatype Mode = Cached | Transient | CheckOnly

  /** One call of a stamped compiler; linkOk is whether g++ succeeds if it is run. */
  datatype Call = Call(sources: map<Path, Source>, core: Path, rooted: bool, mode: Mode, linkOk: bool)

  predicate ValidName(p: Path) {
    p.exts == ["orly"]
  }

  function KeyOf(w: World, stamp: Stamp, src: Source): Key {
    Key(w.hash(src), stamp)
  }

  // ----- one package -------------------------------------------------------------------

  /** The imports that are not in the package map yet, each once, in order. */
  function NewDeps(deps: seq<Path>, packages: set<Path>): seq<Path> {
    if deps == [] then []
    else if deps[0] in packages then NewDeps(deps[1..], packages)
    else [deps[0]] + NewDeps(deps[1..], packages + {deps[0]})
  }

  predicate AllPresent(disk: Disk, p: Path) {
    forall e | e in EXTS :: (p, e) in disk.files
  }

  /** The key written by an earlier compile vouches for the files. */
  predicate UpToDate(w: World, stamp: Stamp, disk: Disk, p: Path, src: Source) {
    p in disk.keys && disk.keys[p] == KeyOf(w, stamp, src) && AllPresent(disk, p)
  }

  function Emitted(w: World, stamp: Stamp, disk: Disk, p: Path, src: Source): Disk {
    disk.(files := disk.files[(p, H) := w.gen(stamp, src, H)][(p, Cc) := w.gen(stamp, src, Cc)]
                             [(p, LinkCc) := w.gen(stamp, src, LinkCc)][(p, Sig) := w.gen(stamp, src, Sig)])
  }

  /** Generating one package; None if the generator reports errors, and then nothing was written. */
  function Build(w: World, stamp: Stamp, mode: Mode, disk: Disk, p: Path, src: Source): Option<Disk> {
    if mode.CheckOnly? then Some(disk)
    else if mode.Cached? && UpToDate(w, stamp, disk, p, src) then Some(disk)
    else if !w.generates(stamp, src) then None
    else
      var d := Emitted(w, stamp, disk, p, src);
      Some(if mode.Cached? then d.(keys := d.keys[p := KeyOf(w, stamp, src)]) else d)
  }

  // ----- the walk ----------------------------------------------------------------------

  /** built: the packages processed, in walk order; todo: those waiting. Together they are the package map. */
  datatype Walk = Walk(built: seq<Path>, todo: seq<Path>, disk: Disk)

  ghost function Packages(k: Walk): set<Path> {
    Elems(k.built + k.todo)
  }

  datatype Walked = Done(built: seq<Path>, disk: Disk) | Failed(built: seq<Path>, disk: Disk)

  function PathSet(ps: seq<Path>): set<Path> {
    set p | p in ps
  }

  /** One turn of the loop. */
  function Turn(w: World, stamp: Stamp, c: Call, k: Walk): Option<Walk>
    requires k.todo != []
  {
    var cur := k.todo[0];
    if !ValidName(cur) || cur !in c.sources || !w.checks(stamp, c.sources[cur]) then None
    else
      var src := c.sources[cur];
      var deps := NewDeps(w.imports(stamp, src), PathSet(k.built + k.todo));
      if !c.rooted && deps != [] then None
      else
        match Build(w, stamp, c.mode, k.disk, cur, src)
        case None => None
        case Some(d) => Some(Walk(k.built + [cur], k.todo[1..] + deps, d))
  }

  /** Every package is in the map once. */
  ghost predicate Proper(k: Walk) {
    NoDup(k.built + k.todo)
  }

  lemma {:induction false} NewDepsFacts(deps: seq<Path>, packages: set<Path>)
    ensures var added := NewDeps(deps, packages);
            && NoDup(added) && (forall d | d in added :: d in deps && d !in packages)
            && (forall d | d in deps :: d in packages || d in added)
    decreases deps
  {
    if deps != [] {
      if deps[0] in packages {
        NewDepsFacts(deps[1..], packages);
      } else {
        NewDepsFacts(deps[1..], packages + {deps[0]});
        NoDupConcat([deps[0]], NewDeps(deps[1..], packages + {deps[0]}));
      }
    }
  }

  lemma TurnIsProper(w: World, stamp: Stamp, c: Call, k: Walk)
    requires Proper(k) && k.todo != [] && Turn(w, stamp, c, k).Some?
    ensures Proper(Turn(w, stamp, c, k).value)
    ensures k.todo[0] in c.sources && k.todo[0] !in k.built
    ensures Turn(w, stamp, c, k).value.built == k.built + [k.todo[0]]
  {
    var k', cur := Turn(w, stamp, c, k).value, k.todo[0];
    var all := k.built + k.todo;
    var deps := NewDeps(w.imports(stamp, c.sources[cur]), PathSet(all));
    NewDepsFacts(w.imports(stamp, c.sources[cur]), PathSet(all));
    NoDupConcat(all, deps);
    assert k'.built + k'.todo == all + deps;
    NoDupSplit(all, |k.built|);
    assert all[|k.built|] == cur && cur in all[|k.built|..];
    assert all[..|k.built|] == k.built;
  }

  ghost function Left(c: Call, k: Walk): set<Path> {
    c.sources.Keys - Elems(k.built)
  }

  lemma TurnShrinks(w: World, stamp: Stamp, c: Call, k: Walk)
    requires Proper(k) && k.todo != [] && Turn(w, stamp, c, k).Some?
    ensures Left(c, Turn(w, stamp, c, k).value) < Left(c, k)
  {
    TurnIsProper(w, stamp, c, k);
    PushNew(k.built, k.todo[0]);
    assert k.todo[0] in Left(c, k);
  }

  /** The whole walk. */
  ghost function WalkAll(w: World, stamp: Stamp, c: Call, k: Walk): Walked
    requires Proper(k)
    decreases Left(c, k)
  {
    if k.todo == [] then Done(k.built, k.disk)
    else
      match Turn(w, stamp, c, k)
      case None => Failed(k.built, k.disk)
      case Some(k') =>
        TurnIsProper(w, stamp, c, k);
        TurnShrinks(w, stamp, c, k);
        WalkAll(w, stamp, c, k')
  }

  // ----- the packages built are those reachable ----------------------------------------

  /** Every package of ps has a source. */
  ghost predicate Sourced(c: Call, ps: set<Path>) {
    forall p | p in ps :: p in c.sources
  }

  /** What the packages of ps import is in ps. */
  ghost predicate Closed(w: World, stamp: Stamp, sources: map<Path, Source>, ps: set<Path>) {
    forall p | p in ps && p in sources :: forall d | d in w.imports(stamp, sources[p]) :: d in ps
  }

  /** The packages reachable from the core by imports: the least closed set that holds it. */
  ghost predicate IsReach(w: World, stamp: Stamp, c: Call, ps: set<Path>) {
    && c.core in ps && Closed(w, stamp, c.sources, ps)
    && forall qs | Closed(w, stamp, c.sources, qs) && c.core in qs :: ps <= qs
  }

  ghost predicate BuiltSoFar(w: World, stamp: Stamp, c: Call, k: Walk) {
    forall p | p in k.built :: p in c.sources && forall d | d in w.imports(stamp, c.sources[p]) :: d in Packages(k)
  }

  lemma TurnBuilds(w: World, stamp: Stamp, c: Call, k: Walk)
    requires Proper(k) && BuiltSoFar(w, stamp, c, k) && k.todo != [] && Turn(w, stamp, c, k).Some?
    ensures BuiltSoFar(w, stamp, c, Turn(w, stamp, c, k).value)
    ensures Packages(k) <= Packages(Turn(w, stamp, c, k).value)
    ensures forall ps | Closed(w, stamp, c.sources, ps) && Packages(k) <= ps ::
              Packages(Turn(w, stamp, c, k).value) <= ps
  {
    var k', cur := Turn(w, stamp, c, k).value, k.todo[0];
    var all := k.built + k.todo;
    var deps := NewDeps(w.imports(stamp, c.sources[cur]), PathSet(all));
    NewDepsFacts(w.imports(stamp, c.sources[cur]), PathSet(all));
    assert k'.built + k'.todo == all + deps;
    assert forall x :: x in all + deps <==> x in all || x in deps;
    assert cur in all;
    forall ps | Closed(w, stamp, c.sources, ps) && Packages(k) <= ps ensures Packages(k') <= ps {
      assert cur in ps;
    }
  }

  /** A walk builds nothing outside the least set that holds the packages it started with and is closed under imports,
      cycles or not; if it ends well it has built each package of that set once. */
  lemma {:induction false} WalkReaches(w: World, stamp: Stamp, c: Call, k: Walk)
    requires Proper(k) && BuiltSoFar(w, stamp, c, k)
    ensures var r := WalkAll(w, stamp, c, k);
            && NoDup(r.built) && Sourced(c, Elems(r.built))
            && (forall ps | Closed(w, stamp, c.sources, ps) && Packages(k) <= ps :: Elems(r.built) <= ps)
            && (r.Done? ==> Packages(k) <= Elems(r.built) && Closed(w, stamp, c.sources, Elems(r.built)))
    decreases Left(c, k)
  {
    if k.todo == [] {
      assert k.built + k.todo == k.built;
    } else if Turn(w, stamp, c, k).Some? {
      WalkReachesOn(w, stamp, c, k);
    } else {
      NoDupSplit(k.built + k.todo, |k.built|);
      assert (k.built + k.todo)[..|k.built|] == k.built;
    }
  }

  lemma {:induction false} WalkReachesOn(w: World, stamp: Stamp, c: Call, k: Walk)
    requires Proper(k) && BuiltSoFar(w, stamp, c, k) && k.todo != [] && Turn(w, stamp, c, k).Some?
    ensures var r := WalkAll(w, stamp, c, k);
            && NoDup(r.built) && Sourced(c, Elems(r.built))
            && (forall ps | Closed(w, stamp, c.sources, ps) && Packages(k) <= ps :: Elems(r.built) <= ps)
            && (r.Done? ==> Packages(k) <= Elems(r.built) && Closed(w, stamp, c.sources, Elems(r.built)))
    decreases Left(c, k), 0
  {
    hide Turn, Closed, Packages, BuiltSoFar, Sourced, NoDup;
    var k' := Turn(w, stamp, c, k).value;
    TurnIsProper(w, stamp, c, k);
    TurnShrinks(w, stamp, c, k);
    TurnBuilds(w, stamp, c, k);
    WalkReaches(w, stamp, c, k');
    assert WalkAll(w, stamp, c, k) == WalkAll(w, stamp, c, k');
  }

  /** Each reachable package is built at most once, nothing else is, and all are if the walk ends well. */
  lemma BuildsReachable(w: World, stamp: Stamp, c: Call, disk: Disk, ps: set<Path>)
    requires IsReach(w, stamp, c, ps)
    ensures var built := BuiltBy(w, stamp, c, disk);
            && NoDup(built) && Elems(built) <= ps && Sourced(c, Elems(built))
    ensures Proper(Start(c, disk))
    ensures WalkAll(w, stamp, c, Start(c, disk)).Done? ==> Elems(BuiltBy(w, stamp, c, disk)) == ps
  {
    hide Closed, Sourced, WalkAll, NoDup, BuiltSoFar;
    StartFacts(w, stamp, c, disk);
    WalkReaches(w, stamp, c, Start(c, disk));
  }

  // ----- what a key vouches for --------------------------------------------------------

  /** No two sources have the same hash. */
  ghost predicate Injective(w: World) {
    forall a, b | w.hash(a) == w.hash(b) :: a == b
  }

  /** The files of p are those generated from src. */
  ghost predicate Right(w: World, stamp: Stamp, disk: Disk, p: Path, src: Source) {
    forall e | e in EXTS :: (p, e) in disk.files && disk.files[(p, e)] == w.gen(stamp, src, e)
  }

  /** Whenever a key would let a compile skip a package, generating it would succeed and give the files there are. */
  ghost predicate Sound(w: World, disk: Disk) {
    forall t, p, src | UpToDate(w, t, disk, p, src) :: Right(w, t, disk, p, src) && w.generates(t, src)
  }

  lemma EmittedIsRight(w: World, stamp: Stamp, disk: Disk, p: Path, src: Source)
    ensures Right(w, stamp, Emitted(w, stamp, disk, p, src), p, src)
    ensures forall q, e | q != p ::
              (((q, e) in Emitted(w, stamp, disk, p, src).files) <==> ((q, e) in disk.files))
              && ((q, e) in disk.files ==> Emitted(w, stamp, disk, p, src).files[(q, e)] == disk.files[(q, e)])
  {
  }

  /** Building with the cache on leaves the package right, the others as they were, and the keys sound. */
  lemma BuildKeeps(w: World, stamp: Stamp, disk: Disk, p: Path, src: Source)
    requires Injective(w) && Sound(w, disk) && Build(w, stamp, Cached, disk, p, src).Some?
    ensures var d := Build(w, stamp, Cached, disk, p, src).value;
            && Sound(w, d) && Right(w, stamp, d, p, src)
            && d.sos == disk.sos && d.linkKeys == disk.linkKeys
            && forall q, s | q != p && Right(w, stamp, disk, q, s) :: Right(w, stamp, d, q, s)
  {
    var d := Build(w, stamp, Cached, disk, p, src).value;
    EmittedIsRight(w, stamp, disk, p, src);
    if !UpToDate(w, stamp, disk, p, src) {
      hide Emitted;
      forall t, q, s | UpToDate(w, t, d, q, s) ensures Right(w, t, d, q, s) && w.generates(t, s) {
        if q == p {
          assert t == stamp && w.hash(s) == w.hash(src);
        } else {
          assert UpToDate(w, t, disk, q, s);
        }
      }
    }
  }

  ghost predicate AllRight(w: World, stamp: Stamp, c: Call, disk: Disk, built: seq<Path>) {
    forall p | p in built :: p in c.sources && Right(w, stamp, disk, p, c.sources[p])
  }

  /** A cached walk, whether it fails or not, keeps the keys sound and leaves every package it built right. */
  lemma {:induction false} CachedWalk(w: World, stamp: Stamp, c: Call, k: Walk)
    requires Proper(k) && Injective(w) && c.mode.Cached?
    requires Sound(w, k.disk) && AllRight(w, stamp, c, k.disk, k.built)
    ensures var r := WalkAll(w, stamp, c, k);
            && Sound(w, r.disk) && AllRight(w, stamp, c, r.disk, r.built)
            && r.disk.sos == k.disk.sos && r.disk.linkKeys == k.disk.linkKeys
    decreases Left(c, k)
  {
    if k.todo != [] && Turn(w, stamp, c, k).Some? {
      var k', cur := Turn(w, stamp, c, k).value, k.todo[0];
      TurnIsProper(w, stamp, c, k);
      TurnShrinks(w, stamp, c, k);
      BuildKeeps(w, stamp, k.disk, cur, c.sources[cur]);
      assert k'.disk == Build(w, stamp, Cached, k.disk, cur, c.sources[cur]).value;
      assert AllRight(w, stamp, c, k'.disk, k'.built);
      hide Turn, Sound, AllRight;
      CachedWalk(w, stamp, c, k');
    }
  }

  /** Files outside the packages built. */
  ghost predicate SameOutside(disk: Disk, d: Disk, built: seq<Path>) {
    forall q, e | q !in built ::
      && (((q, e) in d.files) <==> ((q, e) in disk.files))
      && ((q, e) in disk.files ==> d.files[(q, e)] == disk.files[(q, e)])
  }

  /** A transient walk writes the files of the packages it builds and touches no key. */
  lemma {:induction false} TransientWalk(w: World, stamp: Stamp, c: Call, k: Walk, disk: Disk)
    requires Proper(k) && c.mode.Transient?
    requires AllRight(w, stamp, c, k.disk, k.built) && SameOutside(disk, k.disk, k.built)
    requires forall p | p in k.built :: p in c.sources && w.generates(stamp, c.sources[p])
    ensures var r := WalkAll(w, stamp, c, k);
            && AllRight(w, stamp, c, r.disk, r.built) && SameOutside(disk, r.disk, r.built)
            && (forall p | p in r.built :: p in c.sources && w.generates(stamp, c.sources[p]))
            && r.disk == k.disk.(files := r.disk.files)
    decreases Left(c, k)
  {
    if k.todo != [] && Turn(w, stamp, c, k).Some? {
      var k', cur := Turn(w, stamp, c, k).value, k.todo[0];
      TurnIsProper(w, stamp, c, k);
      TurnShrinks(w, stamp, c, k);
      EmittedIsRight(w, stamp, k.disk, cur, c.sources[cur]);
      assert k'.disk == Emitted(w, stamp, k.disk, cur, c.sources[cur]);
      assert AllRight(w, stamp, c, k'.disk, k'.built);
      assert SameOutside(disk, k'.disk, k'.built);
      hide Turn, AllRight, SameOutside;
      TransientWalk(w, stamp, c, k', disk);
    }
  }

  // ----- compiling ---------------------------------------------------------------------

  function File(disk: Disk, p: Path, e: Ext): Code {
    if (p, e) in disk.files then disk.files[(p, e)] else ""
  }

  /** The sources of the packages built. */
  function Used(c: Call, built: seq<Path>): map<Path, Source> {
    map p | p in built && p in c.sources :: c.sources[p]
  }

  function LinkKeyOf(w: World, stamp: Stamp, used: map<Path, Source>): map<Path, Key> {
    map p | p in used :: KeyOf(w, stamp, used[p])
  }

  /** What g++ makes of the files on disk. */
  function Linked(w: World, disk: Disk, core: Path, built: seq<Path>): Code {
    w.link(core, File(disk, core, LinkCc), map p | p in built :: File(disk, p, Cc))
  }

  /** What g++ makes of freshly generated files. */
  function CleanSo(w: World, stamp: Stamp, core: Path, used: map<Path, Source>): Code
    requires core in used
  {
    w.link(core, w.gen(stamp, used[core], LinkCc), map p | p in used :: w.gen(stamp, used[p], Cc))
  }

  /** After the walk: the linker, unless the link key says the .so is this compile's already. */
  function Finish(w: World, stamp: Stamp, c: Call, built: seq<Path>, d: Disk): (Disk, bool)
    requires c.core in c.sources && c.core in built
  {
    var used := Used(c, built);
    var key, so := LinkKeyOf(w, stamp, used), (c.core, w.version(stamp, used[c.core]));
    if c.mode.CheckOnly? then (d, true)
    else if c.mode.Cached? && c.core in d.linkKeys && d.linkKeys[c.core] == key && so in d.sos then (d, true)
    else if !c.linkOk then (d, false)
    else
      var d1 := d.(sos := d.sos[so := Linked(w, d, c.core, built)]);
      if c.mode.Cached? then (d1.(linkKeys := d1.linkKeys[c.core := key]), true)
      else (Cleaned(d1, c.core, built), true)
  }

  /** TransientCc drops the intermediates and every key that would vouch for them. */
  function Cleaned(d: Disk, core: Path, built: seq<Path>): Disk {
    d.(files := map f | f in d.files && f.0 !in built :: d.files[f],
       keys := map p | p in d.keys && p !in built :: d.keys[p],
       linkKeys := d.linkKeys - {core})
  }

  /** Compile: the output tree after the call, and whether it returned normally. */
  ghost function Compile(w: World, stamp: Stamp, c: Call, disk: Disk): (Disk, bool) {
    var r := WalkAll(w, stamp, c, Walk([], [c.core], disk));
    match r
    case Failed(_, d) => (d, false)
    case Done(built, d) => if c.core in c.sources && c.core in built then Finish(w, stamp, c, built, d) else (d, false)
  }

  /** The packages a compile builds. */
  ghost function BuiltBy(w: World, stamp: Stamp, c: Call, disk: Disk): seq<Path> {
    WalkAll(w, stamp, c, Walk([], [c.core], disk)).built
  }

  /** The link key written by an earlier compile vouches for the .so. */
  ghost predicate LinkUpToDate(w: World, stamp: Stamp, disk: Disk, core: Path, used: map<Path, Source>) {
    && core in used && core in disk.linkKeys && disk.linkKeys[core] == LinkKeyOf(w, stamp, used)
    && (core, w.version(stamp, used[core])) in disk.sos
  }

  /** Whenever a link key would let a compile skip the linker, the .so is the one the linker would make. */
  ghost predicate LinkSound(w: World, disk: Disk) {
    forall t, core, used: map<Path, Source> | LinkUpToDate(w, t, disk, core, used) ::
      disk.sos[(core, w.version(t, used[core]))] == CleanSo(w, t, core, used)
  }

  ghost predicate Consistent(w: World, disk: Disk) {
    Sound(w, disk) && LinkSound(w, disk)
  }

  ghost function Start(c: Call, disk: Disk): Walk {
    Walk([], [c.core], disk)
  }

  lemma StartFacts(w: World, stamp: Stamp, c: Call, disk: Disk)
    ensures Proper(Start(c, disk)) && BuiltSoFar(w, stamp, c, Start(c, disk)) && AllRight(w, stamp, c, disk, [])
    ensures Packages(Start(c, disk)) == {c.core}
  {
    assert [] + [c.core] == [c.core];
  }

  lemma CoreIsBuilt(w: World, stamp: Stamp, c: Call, disk: Disk)
    requires Proper(Start(c, disk)) && WalkAll(w, stamp, c, Start(c, disk)).Done?
    ensures var built := BuiltBy(w, stamp, c, disk);
            && c.core in built && forall p | p in built :: p in c.sources
  {
    hide WalkAll, Closed;
    StartFacts(w, stamp, c, disk);
    WalkReaches(w, stamp, c, Start(c, disk));
    var built := BuiltBy(w, stamp, c, disk);
    assert c.core in Elems(built);
    forall p | p in built ensures p in c.sources {
      assert p in Elems(built);
    }
  }

  /** Right files link to the clean .so. */
  lemma LinkIsClean(w: World, stamp: Stamp, c: Call, d: Disk, built: seq<Path>)
    requires AllRight(w, stamp, c, d, built) && c.core in built
    ensures c.core in Used(c, built) && Linked(w, d, c.core, built) == CleanSo(w, stamp, c.core, Used(c, built))
  {
    var used := Used(c, built);
    forall p | p in built ensures File(d, p, Cc) == w.gen(stamp, used[p], Cc) {
      assert Right(w, stamp, d, p, c.sources[p]);
    }
    assert Right(w, stamp, d, c.core, c.sources[c.core]);
    assert (map p | p in built :: File(d, p, Cc)) == (map p | p in used :: w.gen(stamp, used[p], Cc));
  }

  /** Without collisions a link key stands for one compiler and one set of sources. */
  lemma LinkKeyIsInjective(w: World, s: Stamp, t: Stamp, a: map<Path, Source>, b: map<Path, Source>, p: Path)
    requires Injective(w) && p in a && LinkKeyOf(w, s, a) == LinkKeyOf(w, t, b)
    ensures s == t && a == b
  {
    assert a.Keys == LinkKeyOf(w, s, a).Keys == LinkKeyOf(w, t, b).Keys == b.Keys;
    forall q | q in a ensures a[q] == b[q] {
      assert LinkKeyOf(w, s, a)[q] == LinkKeyOf(w, t, b)[q];
    }
    assert LinkKeyOf(w, s, a)[p] == LinkKeyOf(w, t, b)[p];
  }

  /** The end of a cached compile: the .so stays if its link key vouches for it, and is linked otherwise. */
  lemma FinishSo(w: World, stamp: Stamp, c: Call, built: seq<Path>, d: Disk)
    requires c.mode.Cached? && c.core in c.sources && c.core in built
    ensures var used := Used(c, built);
            var (d', ok) := Finish(w, stamp, c, built, d);
            var so := (c.core, w.version(stamp, used[c.core]));
            && d'.files == d.files && d'.keys == d.keys && (ok <==> LinkUpToDate(w, stamp, d, c.core, used) || c.linkOk)
            && (!ok || LinkUpToDate(w, stamp, d, c.core, used) ==> d' == d)
            && (ok ==> so in d'.sos && d'.sos[so] == (if LinkUpToDate(w, stamp, d, c.core, used) then d.sos[so]
                                                      else Linked(w, d, c.core, built)))
  {
    hide Linked, LinkKeyOf;
  }

  /** Linking right files keeps the link keys sound. */
  lemma LinkedIsSound(w: World, stamp: Stamp, core: Path, used: map<Path, Source>, d: Disk, d': Disk)
    requires Injective(w) && LinkSound(w, d) && core in used
    requires d'.sos == d.sos[(core, w.version(stamp, used[core])) := CleanSo(w, stamp, core, used)]
    requires d'.linkKeys == d.linkKeys[core := LinkKeyOf(w, stamp, used)]
    ensures LinkSound(w, d')
  {
    hide LinkKeyOf, CleanSo;
    forall t, q, u: map<Path, Source> | LinkUpToDate(w, t, d', q, u)
      ensures d'.sos[(q, w.version(t, u[q]))] == CleanSo(w, t, q, u)
    {
      if q == core {
        LinkKeyIsInjective(w, t, stamp, u, used, q);
      } else {
        assert LinkUpToDate(w, t, d, q, u);
      }
    }
  }

  /** The end of a cached compile keeps the link keys sound, and if it succeeds the .so is the clean one. */
  lemma CachedFinish(w: World, stamp: Stamp, c: Call, built: seq<Path>, d: Disk)
    requires Injective(w) && c.mode.Cached? && c.core in c.sources && c.core in built
    requires LinkSound(w, d) && AllRight(w, stamp, c, d, built)
    ensures var (d', ok) := Finish(w, stamp, c, built, d);
            && LinkSound(w, d') && d'.files == d.files && d'.keys == d.keys
            && (ok ==> SoIsClean(w, stamp, c, built, d'))
  {
    hide LinkSound, LinkKeyOf, CleanSo, Linked, AllRight, LinkUpToDate;
    var used := Used(c, built);
    LinkIsClean(w, stamp, c, d, built);
    FinishSo(w, stamp, c, built, d);
    var (d', ok) := Finish(w, stamp, c, built, d);
    if LinkUpToDate(w, stamp, d, c.core, used) {
      LinkSoundGives(w, stamp, d, c.core, used);
    } else if ok {
      FinishWrites(w, stamp, c, built, d);
      LinkedIsSound(w, stamp, c.core, used, d, d');
    }
  }

  lemma LinkSoundGives(w: World, stamp: Stamp, d: Disk, core: Path, used: map<Path, Source>)
    requires LinkSound(w, d) && LinkUpToDate(w, stamp, d, core, used)
    ensures (core, w.version(stamp, used[core])) in d.sos
    ensures d.sos[(core, w.version(stamp, used[core]))] == CleanSo(w, stamp, core, used)
  {
  }

  lemma FinishWrites(w: World, stamp: Stamp, c: Call, built: seq<Path>, d: Disk)
    requires c.mode.Cached? && c.core in c.sources && c.core in built && c.linkOk
    requires !LinkUpToDate(w, stamp, d, c.core, Used(c, built))
    ensures var used := Used(c, built);
            var d' := Finish(w, stamp, c, built, d).0;
            && d'.sos == d.sos[(c.core, w.version(stamp, used[c.core])) := Linked(w, d, c.core, built)]
            && d'.linkKeys == d.linkKeys[c.core := LinkKeyOf(w, stamp, used)]
  {
    hide Linked, LinkKeyOf;
  }

  ghost predicate SoIsClean(w: World, stamp: Stamp, c: Call, built: seq<Path>, d: Disk) {
    var used := Used(c, built);
    && c.core in used && (c.core, w.version(stamp, used[c.core])) in d.sos
    && d.sos[(c.core, w.version(stamp, used[c.core]))] == CleanSo(w, stamp, c.core, used)
  }

  /** The package keys vouch for the generated files, the link keys for the .so files. */
  lemma SoundDepends(w: World, d: Disk, e: Disk)
    ensures d.files == e.files && d.keys == e.keys && Sound(w, d) ==> Sound(w, e)
    ensures d.sos == e.sos && d.linkKeys == e.linkKeys && LinkSound(w, d) ==> LinkSound(w, e)
  {
    if d.files == e.files && d.keys == e.keys && Sound(w, d) {
      forall t, p, src | UpToDate(w, t, e, p, src) ensures Right(w, t, e, p, src) && w.generates(t, src) {
        assert UpToDate(w, t, d, p, src);
      }
    }
    if d.sos == e.sos && d.linkKeys == e.linkKeys && LinkSound(w, d) {
      forall t, core, used: map<Path, Source> | LinkUpToDate(w, t, e, core, used)
        ensures e.sos[(core, w.version(t, used[core]))] == CleanSo(w, t, core, used)
      {
        assert LinkUpToDate(w, t, d, core, used);
      }
    }
  }

  lemma AllRightDepends(w: World, stamp: Stamp, c: Call, d: Disk, e: Disk, built: seq<Path>)
    requires d.files == e.files && AllRight(w, stamp, c, d, built)
    ensures AllRight(w, stamp, c, e, built)
  {
    forall p | p in built ensures p in c.sources && Right(w, stamp, e, p, c.sources[p]) {
      assert Right(w, stamp, d, p, c.sources[p]);
    }
  }

  /** A cached compile keeps the output tree consistent, fail or not; if it succeeds, every package it reached has
      its freshly generated files and the .so is the one a fresh link makes of them. */
  lemma CachedCompile(w: World, stamp: Stamp, c: Call, disk: Disk)
    requires Injective(w) && Consistent(w, disk) && c.mode.Cached?
    ensures var (d, ok) := Compile(w, stamp, c, disk);
            && Consistent(w, d)
            && (ok ==> AllRight(w, stamp, c, d, BuiltBy(w, stamp, c, disk))
                       && SoIsClean(w, stamp, c, BuiltBy(w, stamp, c, disk), d))
  {
    StartFacts(w, stamp, c, disk);
    CachedWalk(w, stamp, c, Start(c, disk));
    var r := WalkAll(w, stamp, c, Start(c, disk));
    hide WalkAll, Sound, LinkSound, AllRight, SoIsClean, Finish;
    SoundDepends(w, disk, r.disk);
    if r.Done? {
      CoreIsBuilt(w, stamp, c, disk);
      CachedFinish(w, stamp, c, r.built, r.disk);
      var d := Finish(w, stamp, c, r.built, r.disk).0;
      SoundDepends(w, r.disk, d);
      AllRightDepends(w, stamp, c, r.disk, d, r.built);
    }
  }

  // ----- when the cache may be trusted --------------------------------------------------

  /** The files and the key of a package are the same on both disks. */
  ghost predicate SameAt(disk: Disk, d: Disk, p: Path) {
    && (p in d.keys <==> p in disk.keys) && (p in disk.keys ==> d.keys[p] == disk.keys[p])
    && forall e :: (((p, e) in d.files) <==> ((p, e) in disk.files))
                   && ((p, e) in disk.files ==> d.files[(p, e)] == disk.files[(p, e)])
  }

  lemma SameAtFacts(w: World, stamp: Stamp, disk: Disk, d: Disk, p: Path, src: Source)
    requires SameAt(disk, d, p)
    ensures UpToDate(w, stamp, d, p, src) <==> UpToDate(w, stamp, disk, p, src)
    ensures Right(w, stamp, d, p, src) <==> Right(w, stamp, disk, p, src)
  {
  }

  /** If a compile would skip the package, its files are those it would generate. */
  ghost predicate SkipIsRight(w: World, stamp: Stamp, disk: Disk, p: Path, src: Source) {
    UpToDate(w, stamp, disk, p, src) ==> Right(w, stamp, disk, p, src)
  }

  /** Building a package on any disk touches nothing else, and leaves it right exactly if skipping it would have been
      right. */
  lemma BuildOnAny(w: World, stamp: Stamp, disk: Disk, p: Path, src: Source)
    requires Build(w, stamp, Cached, disk, p, src).Some?
    ensures var d := Build(w, stamp, Cached, disk, p, src).value;
            && (Right(w, stamp, d, p, src) <==> SkipIsRight(w, stamp, disk, p, src))
            && (UpToDate(w, stamp, disk, p, src) || w.generates(stamp, src))
            && UpToDate(w, stamp, d, p, src) && (UpToDate(w, stamp, disk, p, src) ==> SameAt(disk, d, p))
            && (forall q | q != p :: SameAt(disk, d, q))
            && d.sos == disk.sos && d.linkKeys == disk.linkKeys
  {
    EmittedIsRight(w, stamp, disk, p, src);
  }

  /** What holds in the middle of a cached walk that began on this disk, whatever was on it. */
  ghost predicate OnAny(w: World, stamp: Stamp, c: Call, disk: Disk, built: seq<Path>, d: Disk) {
    && (forall q | q !in built :: SameAt(disk, d, q))
    && (forall p | p in built ::
          && p in c.sources
          && (Right(w, stamp, d, p, c.sources[p]) <==> SkipIsRight(w, stamp, disk, p, c.sources[p]))
          && (UpToDate(w, stamp, disk, p, c.sources[p]) || w.generates(stamp, c.sources[p]))
          && UpToDate(w, stamp, d, p, c.sources[p])
          && (UpToDate(w, stamp, disk, p, c.sources[p]) ==> SameAt(disk, d, p)))
    && d.sos == disk.sos && d.linkKeys == disk.linkKeys
  }

  lemma TurnOnAny(w: World, stamp: Stamp, c: Call, disk: Disk, k: Walk)
    requires Proper(k) && c.mode.Cached? && OnAny(w, stamp, c, disk, k.built, k.disk)
    requires k.todo != [] && Turn(w, stamp, c, k).Some?
    ensures var k' := Turn(w, stamp, c, k).value; OnAny(w, stamp, c, disk, k'.built, k'.disk)
  {
    hide Build, SameAt, Right, SkipIsRight, UpToDate, Proper;
    var k', cur := Turn(w, stamp, c, k).value, k.todo[0];
    TurnIsProper(w, stamp, c, k);
    var src := c.sources[cur];
    assert k'.disk == Build(w, stamp, Cached, k.disk, cur, src).value;
    BuildOnAny(w, stamp, k.disk, cur, src);
    SkipsAgree(w, stamp, disk, k.disk, cur, src);
    forall q | q != cur && SameAt(disk, k.disk, q) ensures SameAt(disk, k'.disk, q) {
      SameAtTwice(disk, k.disk, k'.disk, q);
    }
    assert forall q | q !in k'.built :: q !in k.built && q != cur;
    if UpToDate(w, stamp, disk, cur, src) {
      SameAtTwice(disk, k.disk, k'.disk, cur);
    }
    forall p | p in k.built
      ensures Right(w, stamp, k'.disk, p, c.sources[p]) <==> SkipIsRight(w, stamp, disk, p, c.sources[p])
      ensures UpToDate(w, stamp, k'.disk, p, c.sources[p]) && SameAt(k.disk, k'.disk, p)
    {
      SameAtFacts(w, stamp, k.disk, k'.disk, p, c.sources[p]);
    }
  }

  lemma SkipsAgree(w: World, stamp: Stamp, disk: Disk, d: Disk, p: Path, src: Source)
    requires SameAt(disk, d, p)
    ensures SkipIsRight(w, stamp, disk, p, src) <==> SkipIsRight(w, stamp, d, p, src)
    ensures UpToDate(w, stamp, d, p, src) <==> UpToDate(w, stamp, disk, p, src)
  {
    SameAtFacts(w, stamp, disk, d, p, src);
  }

  lemma SameAtTwice(a: Disk, b: Disk, c: Disk, p: Path)
    requires SameAt(a, b, p) && SameAt(b, c, p)
    ensures SameAt(a, c, p)
  {
  }

  lemma {:induction false} WalkOnAny(w: World, stamp: Stamp, c: Call, disk: Disk, k: Walk)
    requires Proper(k) && c.mode.Cached? && OnAny(w, stamp, c, disk, k.built, k.disk)
    ensures var r := WalkAll(w, stamp, c, k); OnAny(w, stamp, c, disk, r.built, r.disk)
    decreases Left(c, k)
  {
    hide Turn, OnAny;
    if k.todo != [] && Turn(w, stamp, c, k).Some? {
      TurnIsProper(w, stamp, c, k);
      TurnShrinks(w, stamp, c, k);
      TurnOnAny(w, stamp, c, disk, k);
      WalkOnAny(w, stamp, c, disk, Turn(w, stamp, c, k).value);
    }
  }

  /** No package that is still to come has a key. */
  ghost predicate KeyFree(k: Walk) {
    forall p | p in k.disk.keys :: p in k.built
  }

  lemma {:induction false} WalkExtends(w: World, stamp: Stamp, c: Call, k: Walk)
    requires Proper(k)
    ensures forall p | p in k.built :: p in WalkAll(w, stamp, c, k).built
    decreases Left(c, k)
  {
    if k.todo != [] && Turn(w, stamp, c, k).Some? {
      TurnIsProper(w, stamp, c, k);
      TurnShrinks(w, stamp, c, k);
      WalkExtends(w, stamp, c, Turn(w, stamp, c, k).value);
    }
  }

  /** A turn that succeeds on some disk succeeds without keys exactly if code can be generated. */
  lemma TurnWithoutKeys(w: World, stamp: Stamp, c: Call, k: Walk, l: Walk)
    requires Proper(k) && Proper(l) && c.mode.Cached? && k.built == l.built && k.todo == l.todo && KeyFree(l)
    requires k.todo != [] && Turn(w, stamp, c, k).Some?
    ensures var clean := c.(linkOk := true);
            && k.todo[0] in c.sources
            && (Turn(w, stamp, clean, l).Some? <==> w.generates(stamp, c.sources[k.todo[0]]))
            && (Turn(w, stamp, clean, l).Some? ==>
                  var k', l' := Turn(w, stamp, c, k).value, Turn(w, stamp, clean, l).value;
                  k'.built == l'.built && k'.todo == l'.todo && KeyFree(l') && k'.built == k.built + [k.todo[0]])
  {
    TurnIsProper(w, stamp, c, k);
    assert !UpToDate(w, stamp, l.disk, k.todo[0], c.sources[k.todo[0]]);
  }

  /** A walk that ended well on some disk ends well from the empty one exactly if code can be generated for every
      package. */
  lemma {:induction false} WalkWithoutKeys(w: World, stamp: Stamp, c: Call, k: Walk, l: Walk)
    requires Proper(k) && Proper(l) && c.mode.Cached? && k.built == l.built && k.todo == l.todo && KeyFree(l)
    requires WalkAll(w, stamp, c, k).Done?
    ensures var r, t := WalkAll(w, stamp, c, k), WalkAll(w, stamp, c.(linkOk := true), l);
            && (t.Done? <==>
                  forall p | p in r.built && p !in k.built && p in c.sources :: w.generates(stamp, c.sources[p]))
            && (t.Done? ==> t.built == r.built)
    decreases Left(c, k)
  {
    hide Turn, KeyFree, Proper;
    if k.todo != [] {
      var clean := c.(linkOk := true);
      TurnIsProper(w, stamp, c, k);
      TurnShrinks(w, stamp, c, k);
      TurnWithoutKeys(w, stamp, c, k, l);
      var k' := Turn(w, stamp, c, k).value;
      WalkExtends(w, stamp, c, k');
      assert WalkAll(w, stamp, c, k) == WalkAll(w, stamp, c, k') && k.todo[0] in k'.built;
      if Turn(w, stamp, clean, l).Some? {
        TurnIsProper(w, stamp, clean, l);
        TurnShrinks(w, stamp, clean, l);
        WalkWithoutKeys(w, stamp, c, k', Turn(w, stamp, clean, l).value);
      }
    }
  }

  /** The compile leaves what the same compile leaves in an empty tree, if g++ works there. */
  ghost predicate MatchesClean(w: World, stamp: Stamp, c: Call, disk: Disk, ps: set<Path>) {
    var (d, (e, ok)) := (Compile(w, stamp, c, disk).0, Compile(w, stamp, c.(linkOk := true), EMPTY));
    && ok && SameFiles(d, e, ps) && c.core in c.sources && SameSo(d, e, (c.core, w.version(stamp, c.sources[c.core])))
  }

  ghost predicate SameFiles(d: Disk, e: Disk, ps: set<Path>) {
    forall p, x | p in ps && x in EXTS ::
      (p, x) in d.files && (p, x) in e.files && d.files[(p, x)] == e.files[(p, x)]
  }

  ghost predicate SameSo(d: Disk, e: Disk, so: (Path, nat)) {
    so in d.sos && so in e.sos && d.sos[so] == e.sos[so]
  }

  /** Whatever a compile of these packages would skip is what it would make. */
  ghost predicate Trusted(w: World, stamp: Stamp, c: Call, disk: Disk, ps: set<Path>) {
    && (forall p | p in ps ::
          p in c.sources && (UpToDate(w, stamp, disk, p, c.sources[p]) ==>
                               Right(w, stamp, disk, p, c.sources[p]) && w.generates(stamp, c.sources[p])))
    && var used := SourcesOf(c, ps);
       LinkUpToDate(w, stamp, disk, c.core, used) ==>
         disk.sos[(c.core, w.version(stamp, used[c.core]))] == CleanSo(w, stamp, c.core, used)
  }

  function SourcesOf(c: Call, ps: set<Path>): map<Path, Source> {
    map p | p in ps && p in c.sources :: c.sources[p]
  }

  /** What a successful cached compile leaves, on any disk. */
  lemma AnyCompile(w: World, stamp: Stamp, c: Call, disk: Disk, ps: set<Path>)
    requires c.mode.Cached? && Compile(w, stamp, c, disk).1 && IsReach(w, stamp, c, ps)
    ensures var d, used := Compile(w, stamp, c, disk).0, SourcesOf(c, ps);
            && c.core in used && used.Keys == ps
            && var so := (c.core, w.version(stamp, used[c.core]));
            && (forall p | p in ps ::
                  && (Right(w, stamp, d, p, used[p]) <==> SkipIsRight(w, stamp, disk, p, used[p]))
                  && (UpToDate(w, stamp, disk, p, used[p]) || w.generates(stamp, used[p])))
            && so in d.sos
            && (LinkUpToDate(w, stamp, disk, c.core, used) ==> d.sos[so] == disk.sos[so])
            && (!LinkUpToDate(w, stamp, disk, c.core, used)
                && (forall p | p in ps :: Right(w, stamp, d, p, used[p])) ==>
                  d.sos[so] == CleanSo(w, stamp, c.core, used))
  {
    hide WalkAll, IsReach, Closed, Finish, Right, SkipIsRight, UpToDate, LinkUpToDate, CleanSo, Linked, NoDup, Proper;
    BuildsReachable(w, stamp, c, disk, ps);
    var r := WalkAll(w, stamp, c, Start(c, disk));
    assert r.Done?;
    assert OnAny(w, stamp, c, disk, [], disk) by {
      forall q ensures SameAt(disk, disk, q) {
      }
    }
    WalkOnAny(w, stamp, c, disk, Start(c, disk));
    AnyFinish(w, stamp, c, disk, r.built, r.disk, ps);
  }

  lemma AnyFinish(w: World, stamp: Stamp, c: Call, disk: Disk, built: seq<Path>, d: Disk, ps: set<Path>)
    requires c.mode.Cached? && OnAny(w, stamp, c, disk, built, d) && Elems(built) == ps
    requires c.core in c.sources && c.core in built && Finish(w, stamp, c, built, d).1
    ensures var d', used := Finish(w, stamp, c, built, d).0, SourcesOf(c, ps);
            && c.core in used && used.Keys == ps
            && var so := (c.core, w.version(stamp, used[c.core]));
            && (forall p | p in ps ::
                  && (Right(w, stamp, d', p, used[p]) <==> SkipIsRight(w, stamp, disk, p, used[p]))
                  && (UpToDate(w, stamp, disk, p, used[p]) || w.generates(stamp, used[p])))
            && so in d'.sos
            && (LinkUpToDate(w, stamp, disk, c.core, used) ==> d'.sos[so] == disk.sos[so])
            && (!LinkUpToDate(w, stamp, disk, c.core, used)
                && (forall p | p in ps :: Right(w, stamp, d', p, used[p])) ==>
                  d'.sos[so] == CleanSo(w, stamp, c.core, used))
  {
    hide Finish, SkipIsRight, UpToDate, CleanSo, Linked, SameAt, LinkKeyOf;
    var d', used := Finish(w, stamp, c, built, d).0, SourcesOf(c, ps);
    assert forall p :: p in built <==> p in ps;
    assert Used(c, built) == used;
    FinishSo(w, stamp, c, built, d);
    if forall p | p in ps :: Right(w, stamp, d', p, used[p]) {
      assert AllRight(w, stamp, c, d, built);
      LinkIsClean(w, stamp, c, d, built);
    }
  }

  /** The clean compile succeeds exactly if code can be generated for every package, and is right then. */
  lemma CleanCompile(w: World, stamp: Stamp, c: Call, disk: Disk, ps: set<Path>)
    requires c.mode.Cached? && Compile(w, stamp, c, disk).1 && IsReach(w, stamp, c, ps)
    ensures var (e, ok) := Compile(w, stamp, c.(linkOk := true), EMPTY);
            var used := SourcesOf(c, ps);
            && c.core in used && used.Keys == ps && (ok <==> forall p | p in ps :: w.generates(stamp, used[p]))
            && var so := (c.core, w.version(stamp, used[c.core]));
            && (ok ==> (forall p | p in ps :: Right(w, stamp, e, p, used[p]))
                       && so in e.sos && e.sos[so] == CleanSo(w, stamp, c.core, used))
  {
    hide Closed, Right, UpToDate, CleanSo, Linked, NoDup, Proper, WalkAll, LinkKeyOf;
    var clean, used := c.(linkOk := true), SourcesOf(c, ps);
    AnyCompile(w, stamp, c, disk, ps);
    BuildsReachable(w, stamp, c, disk, ps);
    ReachOfClean(w, stamp, c, clean, ps);
    BuildsReachable(w, stamp, clean, EMPTY, ps);
    WalkWithoutKeys(w, stamp, c, Start(c, disk), Start(clean, EMPTY));
    var r, t := WalkAll(w, stamp, c, Start(c, disk)), WalkAll(w, stamp, clean, Start(clean, EMPTY));
    assert r.Done? && r.built == BuiltBy(w, stamp, c, disk);
    assert forall p :: p in r.built <==> p in ps;
    assert t.Done? <==> forall p | p in ps :: w.generates(stamp, used[p]);
    if t.Done? {
      assert c.core in t.built;
      assert Compile(w, stamp, clean, EMPTY).1;
      AnyCompile(w, stamp, clean, EMPTY, ps);
      assert SourcesOf(clean, ps) == used;
      forall p | p in ps ensures SkipIsRight(w, stamp, EMPTY, p, used[p]) {
        NoKeyNoSkip(w, stamp, p, used[p]);
      }
    }
  }

  lemma NoKeyNoSkip(w: World, stamp: Stamp, p: Path, src: Source)
    ensures !UpToDate(w, stamp, EMPTY, p, src)
  {
  }

  lemma ReachOfClean(w: World, stamp: Stamp, c: Call, clean: Call, ps: set<Path>)
    requires IsReach(w, stamp, c, ps) && clean.sources == c.sources && clean.core == c.core
    ensures IsReach(w, stamp, clean, ps)
  {
  }

  /** A cached compile that succeeds, on any output tree, leaves what it would leave in an empty one exactly when
      whatever its two staleness checks let it skip, of the packages reachable from its core and of its link, is what
      it would make. */
  lemma CompileIsCleanIff(w: World, stamp: Stamp, c: Call, disk: Disk, ps: set<Path>)
    requires c.mode.Cached? && Compile(w, stamp, c, disk).1 && IsReach(w, stamp, c, ps)
    ensures MatchesClean(w, stamp, c, disk, ps) <==> Trusted(w, stamp, c, disk, ps)
  {
    hide Compile, IsReach, UpToDate, LinkUpToDate, CleanSo;
    AnyCompile(w, stamp, c, disk, ps);
    CleanCompile(w, stamp, c, disk, ps);
    var d, e, used := Compile(w, stamp, c, disk).0, Compile(w, stamp, c.(linkOk := true), EMPTY).0, SourcesOf(c, ps);
    if MatchesClean(w, stamp, c, disk, ps) {
      forall p | p in ps ensures Right(w, stamp, d, p, used[p]) {
        RightFromSame(w, stamp, d, e, ps, p, used[p]);
      }
    }
    if Trusted(w, stamp, c, disk, ps) {
      assert forall p | p in ps :: Right(w, stamp, d, p, used[p]) && w.generates(stamp, used[p]);
      forall p, x | p in ps && x in EXTS
        ensures (p, x) in d.files && (p, x) in e.files && d.files[(p, x)] == e.files[(p, x)]
      {
        assert Right(w, stamp, d, p, used[p]) && Right(w, stamp, e, p, used[p]);
      }
    }
  }

  lemma RightFromSame(w: World, stamp: Stamp, d: Disk, e: Disk, ps: set<Path>, p: Path, src: Source)
    requires SameFiles(d, e, ps) && p in ps && Right(w, stamp, e, p, src)
    ensures Right(w, stamp, d, p, src)
  {
  }

  /** What a successful compile built is the reachable set. */
  lemma ReachIsBuilt(w: World, stamp: Stamp, c: Call, disk: Disk)
    requires Compile(w, stamp, c, disk).1
    ensures IsReach(w, stamp, c, Elems(BuiltBy(w, stamp, c, disk)))
  {
    hide WalkAll, Closed, Finish, NoDup;
    StartFacts(w, stamp, c, disk);
    WalkReaches(w, stamp, c, Start(c, disk));
  }

  /** So over a consistent output tree, which every cached compile keeps, incremental equals clean. */
  lemma CachedMatchesClean(w: World, stamp: Stamp, c: Call, disk: Disk, ps: set<Path>)
    requires Consistent(w, disk) && c.mode.Cached? && Compile(w, stamp, c, disk).1 && IsReach(w, stamp, c, ps)
    ensures MatchesClean(w, stamp, c, disk, ps)
  {
    hide Compile, IsReach, MatchesClean, LinkUpToDate, CleanSo, UpToDate, Right;
    AnyCompile(w, stamp, c, disk, ps);
    CompileIsCleanIff(w, stamp, c, disk, ps);
  }

  // ----- when a compile succeeds --------------------------------------------------------

  /** The packages have names and sources without errors, and imports come from a package tree. */
  ghost predicate Clean(w: World, stamp: Stamp, c: Call, ps: set<Path>) {
    && (c.rooted || ps == {c.core})
    && forall p | p in ps :: ValidName(p) && p in c.sources && w.checks(stamp, c.sources[p])
  }

  /** There is nothing to generate, or it can be generated. */
  ghost predicate CanBuild(w: World, stamp: Stamp, c: Call, disk: Disk, p: Path)
    requires p in c.sources
  {
    match c.mode
    case CheckOnly => true
    case Transient => w.generates(stamp, c.sources[p])
    case Cached => UpToDate(w, stamp, disk, p, c.sources[p]) || w.generates(stamp, c.sources[p])
  }

  /** There is nothing to link, or g++ succeeds. */
  ghost predicate CanLink(w: World, stamp: Stamp, c: Call, disk: Disk, ps: set<Path>) {
    match c.mode
    case CheckOnly => true
    case Transient => c.linkOk
    case Cached => LinkUpToDate(w, stamp, disk, c.core, SourcesOf(c, ps)) || c.linkOk
  }

  lemma {:induction false} NoNewDeps(deps: seq<Path>, packages: set<Path>)
    requires forall d | d in deps :: d in packages
    ensures NewDeps(deps, packages) == []
  {
    if deps != [] {
      NoNewDeps(deps[1..], packages);
    }
  }

  /** A turn succeeds exactly if its package passes the checks, its new imports are allowed, and it can be built. */
  lemma TurnIff(w: World, stamp: Stamp, c: Call, k: Walk)
    requires k.todo != []
    ensures var cur := k.todo[0];
            Turn(w, stamp, c, k).Some? <==>
              && ValidName(cur) && cur in c.sources && w.checks(stamp, c.sources[cur])
              && (c.rooted || NewDeps(w.imports(stamp, c.sources[cur]), PathSet(k.built + k.todo)) == [])
              && CanBuild(w, stamp, c, k.disk, cur)
  {
  }

  /** Where a walk that began on this disk stands: what is still to come is as it was. */
  ghost predicate Untouched(c: Call, disk: Disk, k: Walk) {
    c.mode.Cached? ==> forall q | q !in k.built :: SameAt(disk, k.disk, q)
  }

  lemma TurnUntouched(w: World, stamp: Stamp, c: Call, disk: Disk, k: Walk)
    requires Proper(k) && Untouched(c, disk, k) && k.todo != [] && Turn(w, stamp, c, k).Some?
    ensures Untouched(c, disk, Turn(w, stamp, c, k).value)
  {
    hide SameAt, UpToDate, NewDeps;
    var k', cur := Turn(w, stamp, c, k).value, k.todo[0];
    TurnIsProper(w, stamp, c, k);
    if c.mode.Cached? {
      BuildOnAny(w, stamp, k.disk, cur, c.sources[cur]);
      forall q | q !in k'.built ensures SameAt(disk, k'.disk, q) {
        assert q !in k.built && q != cur;
        SameAtTwice(disk, k.disk, k'.disk, q);
      }
    }
  }

  lemma CanBuildNow(w: World, stamp: Stamp, c: Call, disk: Disk, k: Walk, p: Path)
    requires Untouched(c, disk, k) && p !in k.built && p in c.sources
    ensures CanBuild(w, stamp, c, k.disk, p) <==> CanBuild(w, stamp, c, disk, p)
  {
    if c.mode.Cached? {
      SkipsAgree(w, stamp, disk, k.disk, p, c.sources[p]);
    }
  }

  /** What passed on the way. */
  ghost predicate Passed(w: World, stamp: Stamp, c: Call, disk: Disk, k: Walk) {
    && (c.rooted || Packages(k) == {c.core})
    && forall p | p in k.built ::
         ValidName(p) && p in c.sources && w.checks(stamp, c.sources[p]) && CanBuild(w, stamp, c, disk, p)
  }

  lemma TurnPasses(w: World, stamp: Stamp, c: Call, disk: Disk, k: Walk)
    requires Proper(k) && Untouched(c, disk, k) && Passed(w, stamp, c, disk, k)
    requires k.todo != [] && Turn(w, stamp, c, k).Some?
    ensures Passed(w, stamp, c, disk, Turn(w, stamp, c, k).value)
  {
    hide CanBuild, ValidName, Untouched, Proper;
    var k', cur := Turn(w, stamp, c, k).value, k.todo[0];
    TurnIsProper(w, stamp, c, k);
    TurnIff(w, stamp, c, k);
    CanBuildNow(w, stamp, c, disk, k, cur);
    if !c.rooted {
      assert k'.built + k'.todo == k.built + k.todo;
    }
  }

  lemma {:induction false} WalkPasses(w: World, stamp: Stamp, c: Call, disk: Disk, k: Walk)
    requires Proper(k) && Untouched(c, disk, k) && Passed(w, stamp, c, disk, k)
    ensures var r := WalkAll(w, stamp, c, k);
            && (c.rooted || (r.Done? ==> Elems(r.built) == {c.core}))
            && forall p | p in r.built ::
                 ValidName(p) && p in c.sources && w.checks(stamp, c.sources[p]) && CanBuild(w, stamp, c, disk, p)
    decreases Left(c, k)
  {
    if k.todo == [] {
      assert k.built + k.todo == k.built;
    } else if Turn(w, stamp, c, k).Some? {
      WalkPassesOn(w, stamp, c, disk, k);
    }
  }

  lemma {:induction false} WalkPassesOn(w: World, stamp: Stamp, c: Call, disk: Disk, k: Walk)
    requires Proper(k) && Untouched(c, disk, k) && Passed(w, stamp, c, disk, k)
    requires k.todo != [] && Turn(w, stamp, c, k).Some?
    ensures var r := WalkAll(w, stamp, c, k);
            && (c.rooted || (r.Done? ==> Elems(r.built) == {c.core}))
            && forall p | p in r.built ::
                 ValidName(p) && p in c.sources && w.checks(stamp, c.sources[p]) && CanBuild(w, stamp, c, disk, p)
    decreases Left(c, k), 0
  {
    hide Turn, Passed, Untouched, CanBuild, ValidName;
    var k' := Turn(w, stamp, c, k).value;
    TurnIsProper(w, stamp, c, k);
    TurnShrinks(w, stamp, c, k);
    TurnPasses(w, stamp, c, disk, k);
    TurnUntouched(w, stamp, c, disk, k);
    WalkPasses(w, stamp, c, disk, k');
    assert WalkAll(w, stamp, c, k) == WalkAll(w, stamp, c, k');
  }

  lemma PassingTurn(w: World, stamp: Stamp, c: Call, disk: Disk, ps: set<Path>, k: Walk)
    requires Proper(k) && Untouched(c, disk, k) && Packages(k) <= ps && k.todo != []
    requires Clean(w, stamp, c, ps) && Closed(w, stamp, c.sources, ps)
    requires forall p | p in ps :: CanBuild(w, stamp, c, disk, p)
    ensures Turn(w, stamp, c, k).Some?
  {
    hide CanBuild, ValidName, Untouched;
    var cur, packages := k.todo[0], PathSet(k.built + k.todo);
    assert cur in k.built + k.todo;
    assert cur in Packages(k) && cur in packages;
    NoDupSplit(k.built + k.todo, |k.built|);
    assert (k.built + k.todo)[..|k.built|] == k.built && (k.built + k.todo)[|k.built|..] == k.todo;
    CanBuildNow(w, stamp, c, disk, k, cur);
    if !c.rooted {
      NoNewDeps(w.imports(stamp, c.sources[cur]), packages);
    }
    TurnIff(w, stamp, c, k);
  }

  lemma {:induction false} PassingWalk(w: World, stamp: Stamp, c: Call, disk: Disk, ps: set<Path>, k: Walk)
    requires Proper(k) && BuiltSoFar(w, stamp, c, k) && Untouched(c, disk, k) && Packages(k) <= ps
    requires Clean(w, stamp, c, ps) && Closed(w, stamp, c.sources, ps)
    requires forall p | p in ps :: CanBuild(w, stamp, c, disk, p)
    ensures WalkAll(w, stamp, c, k).Done?
    decreases Left(c, k)
  {
    hide Turn, Untouched, CanBuild, Closed, BuiltSoFar;
    if k.todo != [] {
      PassingTurn(w, stamp, c, disk, ps, k);
      TurnIsProper(w, stamp, c, k);
      TurnShrinks(w, stamp, c, k);
      TurnBuilds(w, stamp, c, k);
      TurnUntouched(w, stamp, c, disk, k);
      PassingWalk(w, stamp, c, disk, ps, Turn(w, stamp, c, k).value);
    }
  }

  /** The walk succeeds exactly if every reachable package passes the checks and can be built. */
  lemma WalkSucceedsIff(w: World, stamp: Stamp, c: Call, disk: Disk, ps: set<Path>)
    requires IsReach(w, stamp, c, ps)
    ensures Proper(Start(c, disk))
    ensures WalkAll(w, stamp, c, Start(c, disk)).Done? <==>
              Clean(w, stamp, c, ps) && forall p | p in ps :: CanBuild(w, stamp, c, disk, p)
  {
    hide WalkAll, CanBuild, ValidName, Closed, BuiltSoFar, NoDup;
    var k := Start(c, disk);
    StartFacts(w, stamp, c, disk);
    assert Untouched(c, disk, k) && Passed(w, stamp, c, disk, k);
    WalkPasses(w, stamp, c, disk, k);
    BuildsReachable(w, stamp, c, disk, ps);
    if WalkAll(w, stamp, c, k).Done? {
      forall p | p in ps ensures p in WalkAll(w, stamp, c, k).built {
        assert p in Elems(WalkAll(w, stamp, c, k).built);
      }
    }
    if Clean(w, stamp, c, ps) && forall p | p in ps :: CanBuild(w, stamp, c, disk, p) {
      PassingWalk(w, stamp, c, disk, ps, k);
    }
  }

  /** A compile in any mode, on any disk, returns normally exactly if every package reachable from its core has a valid
      name and a source without errors, imports come from a package tree, every package is up to date or can be
      generated, and the .so is up to date or g++ succeeds; a check-only compile needs neither code nor g++. */
  lemma SucceedsIff(w: World, stamp: Stamp, c: Call, disk: Disk, ps: set<Path>)
    requires IsReach(w, stamp, c, ps)
    ensures Compile(w, stamp, c, disk).1 <==>
              && Clean(w, stamp, c, ps) && (forall p | p in ps :: CanBuild(w, stamp, c, disk, p))
              && CanLink(w, stamp, c, disk, ps)
  {
    hide WalkAll, CanBuild, Clean, Closed, NoDup, Finish, CanLink, Sourced;
    WalkSucceedsIff(w, stamp, c, disk, ps);
    BuildsReachable(w, stamp, c, disk, ps);
    var r := WalkAll(w, stamp, c, Start(c, disk));
    if r.Done? {
      CoreIsBuilt(w, stamp, c, disk);
      FinishSucceedsIff(w, stamp, c, disk, ps);
    }
  }

  lemma FinishSucceedsIff(w: World, stamp: Stamp, c: Call, disk: Disk, ps: set<Path>)
    requires Proper(Start(c, disk)) && WalkAll(w, stamp, c, Start(c, disk)).Done?
    requires Elems(BuiltBy(w, stamp, c, disk)) == ps
    requires c.core in c.sources && c.core in BuiltBy(w, stamp, c, disk)
    ensures var r := WalkAll(w, stamp, c, Start(c, disk));
            Finish(w, stamp, c, r.built, r.disk).1 <==> CanLink(w, stamp, c, disk, ps)
  {
    hide WalkAll, LinkKeyOf, Linked, Cleaned;
    var r := WalkAll(w, stamp, c, Start(c, disk));
    if c.mode.Cached? {
      StartOnAny(w, stamp, c, disk);
      WalkOnAny(w, stamp, c, disk, Start(c, disk));
      SameUsed(c, r.built, ps);
      FinishSo(w, stamp, c, r.built, r.disk);
    }
  }

  lemma SameUsed(c: Call, built: seq<Path>, ps: set<Path>)
    requires Elems(built) == ps
    ensures Used(c, built) == SourcesOf(c, ps)
  {
    assert forall p :: p in built <==> p in ps;
  }

  lemma StartOnAny(w: World, stamp: Stamp, c: Call, disk: Disk)
    ensures OnAny(w, stamp, c, disk, [], disk)
  {
    forall q ensures SameAt(disk, disk, q) {
    }
  }

  /** A check-only compile writes nothing, fail or not. */
  lemma CheckOnlyWritesNothing(w: World, stamp: Stamp, c: Call, disk: Disk)
    requires c.mode.CheckOnly?
    ensures Compile(w, stamp, c, disk).0 == disk
  {
    hide WalkAll;
    StartFacts(w, stamp, c, disk);
    CheckOnlyWalk(w, stamp, c, Start(c, disk));
  }

  /** A compile that generates everything and fails in g++ has built every reachable package. */
  lemma FailedBuilds(w: World, stamp: Stamp, c: Call, disk: Disk, ps: set<Path>)
    requires c.mode.Transient? && IsReach(w, stamp, c, ps) && Ready(w, stamp, c, ps)
    ensures Elems(BuiltBy(w, stamp, c, disk)) == ps
  {
    hide Closed, Clean, WalkAll, NoDup;
    WalkSucceedsIff(w, stamp, c, disk, ps);
    BuildsReachable(w, stamp, c, disk, ps);
  }

  // ----- compiling again ---------------------------------------------------------------

  /** What a successful cached compile leaves on any disk: all four files of every reachable package under its key, a
      .so under its link key, and everything that was up to date, or not reachable, as it was. */
  lemma CachedLeaves(w: World, stamp: Stamp, c: Call, disk: Disk, ps: set<Path>)
    requires c.mode.Cached? && Compile(w, stamp, c, disk).1 && IsReach(w, stamp, c, ps)
    ensures var d := Compile(w, stamp, c, disk).0;
            && (forall p | p in ps ::
                  && p in c.sources && p in d.keys && d.keys[p] == Key(w.hash(c.sources[p]), stamp)
                  && (forall e: Ext :: (p, e) in d.files)
                  && (UpToDate(w, stamp, disk, p, c.sources[p]) ==> SameAt(disk, d, p)))
            && (forall q | q !in ps :: SameAt(disk, d, q))
            && LinkUpToDate(w, stamp, d, c.core, SourcesOf(c, ps))
            && (LinkUpToDate(w, stamp, disk, c.core, SourcesOf(c, ps)) ==> d.sos == disk.sos)
  {
    hide WalkAll, Closed, NoDup, Right, SkipIsRight, LinkKeyOf, Finish, SameAt, Sourced;
    BuildsReachable(w, stamp, c, disk, ps);
    var r := WalkAll(w, stamp, c, Start(c, disk));
    StartOnAny(w, stamp, c, disk);
    WalkOnAny(w, stamp, c, disk, Start(c, disk));
    SameUsed(c, r.built, ps);
    FinishKeys(w, stamp, c, r.built, r.disk);
    var d := Compile(w, stamp, c, disk).0;
    forall q ensures SameAt(r.disk, d, q) {
      SameFilesAt(r.disk, d, q);
    }
    forall q | SameAt(disk, r.disk, q) ensures SameAt(disk, d, q) {
      SameAtTwice(disk, r.disk, d, q);
    }
    forall p | p in ps ensures p in r.built && UpToDate(w, stamp, d, p, c.sources[p]) {
      assert p in Elems(r.built);
      SkipsAgree(w, stamp, r.disk, d, p, c.sources[p]);
    }
    forall q | q !in ps ensures q !in r.built {
      assert q !in Elems(r.built);
    }
    EveryExt();
  }

  lemma EveryExt()
    ensures forall e: Ext :: e in EXTS
  {
    forall e: Ext ensures e in EXTS {
      match e {
        case H =>
        case Cc =>
        case LinkCc =>
        case Sig =>
      }
    }
  }

  lemma SameFilesAt(d: Disk, e: Disk, q: Path)
    requires d.files == e.files && d.keys == e.keys
    ensures SameAt(d, e, q)
  {
  }

  lemma FinishKeys(w: World, stamp: Stamp, c: Call, built: seq<Path>, d: Disk)
    requires c.mode.Cached? && c.core in c.sources && c.core in built && Finish(w, stamp, c, built, d).1
    ensures var d' := Finish(w, stamp, c, built, d).0;
            && d'.files == d.files && d'.keys == d.keys && LinkUpToDate(w, stamp, d', c.core, Used(c, built))
            && (LinkUpToDate(w, stamp, d, c.core, Used(c, built)) ==> d'.sos == d.sos)
  {
    hide Linked, LinkKeyOf;
  }

  lemma {:induction false} SkippingWalk(w: World, stamp: Stamp, c: Call, ps: set<Path>, k: Walk)
    requires Proper(k) && BuiltSoFar(w, stamp, c, k) && c.mode.Cached?
    requires Closed(w, stamp, c.sources, ps) && Packages(k) <= ps
    requires forall p | p in ps :: p in c.sources && UpToDate(w, stamp, k.disk, p, c.sources[p])
    ensures WalkAll(w, stamp, c, k).disk == k.disk
    decreases Left(c, k)
  {
    hide UpToDate, Closed, BuiltSoFar;
    if k.todo != [] && Turn(w, stamp, c, k).Some? {
      assert k.todo[0] in k.built + k.todo;
      assert k.todo[0] in Packages(k);
      TurnIsProper(w, stamp, c, k);
      TurnShrinks(w, stamp, c, k);
      TurnBuilds(w, stamp, c, k);
      SkippingWalk(w, stamp, c, ps, Turn(w, stamp, c, k).value);
    }
  }

  /** Compiling the same sources again right away does nothing: no package is generated, nothing is linked, and it
      succeeds even without g++. */
  lemma CompileTwice(w: World, stamp: Stamp, c: Call, disk: Disk, ps: set<Path>)
    requires c.mode.Cached? && Compile(w, stamp, c, disk).1 && IsReach(w, stamp, c, ps)
    ensures var d := Compile(w, stamp, c, disk).0; Compile(w, stamp, c.(linkOk := false), d) == (d, true)
  {
    hide Closed, NoDup, WalkAll, LinkKeyOf, Clean, Finish, SameAt, Sourced, BuiltSoFar;
    var d, again := Compile(w, stamp, c, disk).0, c.(linkOk := false);
    CachedLeaves(w, stamp, c, disk, ps);
    SucceedsIff(w, stamp, c, disk, ps);
    ReachOfClean(w, stamp, c, again, ps);
    CleanOfAgain(w, stamp, c, again, ps);
    assert SourcesOf(again, ps) == SourcesOf(c, ps);
    SucceedsIff(w, stamp, again, d, ps);
    StartFacts(w, stamp, again, d);
    SkippingWalk(w, stamp, again, ps, Start(again, d));
    BuildsReachable(w, stamp, again, d, ps);
    var r := WalkAll(w, stamp, again, Start(again, d));
    SameUsed(again, r.built, ps);
    if c.core in c.sources && c.core in r.built {
      FinishSo(w, stamp, again, r.built, d);
    }
  }

  lemma CleanOfAgain(w: World, stamp: Stamp, c: Call, again: Call, ps: set<Path>)
    requires Clean(w, stamp, c, ps) && again == c.(linkOk := false)
    ensures Clean(w, stamp, again, ps)
  {
  }

  // ----- transient compiles ------------------------------------------------------------

  /** Two compilers generate the same code for two sources. */
  ghost predicate SameCode(w: World, s: Stamp, a: Source, t: Stamp, b: Source) {
    w.generates(s, a) == w.generates(t, b) && forall e | e in EXTS :: w.gen(s, a, e) == w.gen(t, b, e)
  }

  /** No key on disk for these packages stands for other code than what would be generated now. */
  ghost predicate Harmless(w: World, stamp: Stamp, c: Call, disk: Disk, ps: set<Path>) {
    forall t, p, src | p in ps && p in disk.keys && disk.keys[p] == KeyOf(w, t, src) ::
      p in c.sources && SameCode(w, t, src, stamp, c.sources[p])
  }

  /** Overwriting files without their keys is sound exactly when the keys were for the same code. */
  lemma OverwriteIsSoundIff(w: World, stamp: Stamp, c: Call, disk: Disk, d: Disk, built: seq<Path>)
    requires Sound(w, disk) && d.keys == disk.keys
    requires AllRight(w, stamp, c, d, built) && SameOutside(disk, d, built)
    requires forall p | p in built :: p in c.sources && w.generates(stamp, c.sources[p])
    ensures Sound(w, d) <==> Harmless(w, stamp, c, disk, Elems(built))
  {
    if Harmless(w, stamp, c, disk, Elems(built)) {
      HarmlessIsSound(w, stamp, c, disk, d, built);
    }
    if Sound(w, d) {
      SoundIsHarmless(w, stamp, c, disk, d, built);
    }
  }

  lemma HarmlessIsSound(w: World, stamp: Stamp, c: Call, disk: Disk, d: Disk, built: seq<Path>)
    requires Sound(w, disk) && d.keys == disk.keys
    requires AllRight(w, stamp, c, d, built) && SameOutside(disk, d, built)
    requires forall p | p in built :: p in c.sources && w.generates(stamp, c.sources[p])
    requires Harmless(w, stamp, c, disk, Elems(built))
    ensures Sound(w, d)
  {
    forall t, p, src | UpToDate(w, t, d, p, src) ensures Right(w, t, d, p, src) && w.generates(t, src) {
      if p in built {
        assert p in Elems(built) && SameCode(w, t, src, stamp, c.sources[p]);
        assert Right(w, stamp, d, p, c.sources[p]);
      } else {
        assert UpToDate(w, t, disk, p, src);
      }
    }
  }

  lemma SoundIsHarmless(w: World, stamp: Stamp, c: Call, disk: Disk, d: Disk, built: seq<Path>)
    requires Sound(w, d) && d.keys == disk.keys && AllRight(w, stamp, c, d, built)
    requires forall p | p in built :: p in c.sources && w.generates(stamp, c.sources[p])
    ensures Harmless(w, stamp, c, disk, Elems(built))
  {
    forall t, p, src | p in Elems(built) && p in disk.keys && disk.keys[p] == KeyOf(w, t, src)
      ensures p in c.sources && SameCode(w, t, src, stamp, c.sources[p])
    {
      assert p in built && Right(w, stamp, d, p, c.sources[p]);
      assert UpToDate(w, t, d, p, src);
      forall e | e in EXTS ensures w.gen(t, src, e) == w.gen(stamp, c.sources[p], e) {
        assert (p, e) in d.files;
      }
    }
  }

  lemma CleanedIsSound(w: World, disk: Disk, d: Disk, core: Path, built: seq<Path>)
    requires Sound(w, disk) && d.keys == disk.keys && SameOutside(disk, d, built)
    ensures Sound(w, Cleaned(d, core, built))
  {
    var x := Cleaned(d, core, built);
    forall t, p, src | UpToDate(w, t, x, p, src) ensures Right(w, t, x, p, src) && w.generates(t, src) {
      assert UpToDate(w, t, disk, p, src) by {
        forall e | e in EXTS ensures (p, e) in disk.files {
          assert (p, e) in x.files;
        }
      }
      forall e | e in EXTS ensures (p, e) in x.files && x.files[(p, e)] == w.gen(t, src, e) {
        assert Right(w, t, disk, p, src);
        assert (p, e) in disk.files && (p, e) in d.files;
      }
    }
  }

  /** A new .so under a core whose link key is gone. */
  lemma UnkeyedIsSound(w: World, disk: Disk, d: Disk, core: Path, n: nat, code: Code)
    requires LinkSound(w, disk) && d.sos == disk.sos[(core, n) := code] && d.linkKeys == disk.linkKeys - {core}
    ensures LinkSound(w, d)
  {
    hide LinkKeyOf, CleanSo;
    forall t, q, u: map<Path, Source> | LinkUpToDate(w, t, d, q, u)
      ensures d.sos[(q, w.version(t, u[q]))] == CleanSo(w, t, q, u)
    {
      assert LinkUpToDate(w, t, disk, q, u);
    }
  }

  lemma TransientFinish(w: World, stamp: Stamp, c: Call, built: seq<Path>, disk: Disk, d: Disk)
    requires c.mode.Transient? && c.core in c.sources && c.core in built
    requires Consistent(w, disk) && AllRight(w, stamp, c, d, built) && SameOutside(disk, d, built)
    requires d == disk.(files := d.files)
    ensures var (d', ok) := Finish(w, stamp, c, built, d);
            && ok == c.linkOk && (!ok ==> d' == d)
            && (ok ==> Consistent(w, d') && SoIsClean(w, stamp, c, built, d'))
  {
    hide Sound, LinkSound, Right, AllRight, SameOutside, LinkKeyOf, CleanSo, Linked;
    LinkIsClean(w, stamp, c, d, built);
    var used := Used(c, built);
    if c.linkOk {
      var n, so := w.version(stamp, used[c.core]), Linked(w, d, c.core, built);
      var d1 := d.(sos := d.sos[(c.core, n) := so]);
      SameOutsideFiles(disk, d, d1, built);
      CleanedIsSound(w, disk, d1, c.core, built);
      UnkeyedIsSound(w, disk, Cleaned(d1, c.core, built), c.core, n, so);
    }
  }

  lemma SameOutsideFiles(disk: Disk, d: Disk, e: Disk, built: seq<Path>)
    requires SameOutside(disk, d, built) && d.files == e.files
    ensures SameOutside(disk, e, built)
  {
  }

  /** A transient compile that succeeds leaves the clean .so and a consistent output tree. One that fails, in the walk
      or in g++, leaves the files it had generated with the old keys: the tree stays consistent exactly when no
      package it built had a key for a source that generates other code. */
  lemma TransientCompile(w: World, stamp: Stamp, c: Call, disk: Disk)
    requires Consistent(w, disk) && c.mode.Transient?
    ensures var (d, ok) := Compile(w, stamp, c, disk);
            var built := BuiltBy(w, stamp, c, disk);
            && (ok ==> Consistent(w, d) && SoIsClean(w, stamp, c, built, d))
            && (!ok ==> (Consistent(w, d) <==> Harmless(w, stamp, c, disk, Elems(built))))
  {
    StartFacts(w, stamp, c, disk);
    var k := Start(c, disk);
    assert SameOutside(disk, disk, []);
    TransientWalk(w, stamp, c, k, disk);
    var r := WalkAll(w, stamp, c, k);
    OverwriteIsSoundIff(w, stamp, c, disk, r.disk, r.built);
    SoundDepends(w, disk, r.disk);
    hide WalkAll, Sound, LinkSound, AllRight, SoIsClean, Finish, SameOutside, Harmless;
    if r.Done? {
      CoreIsBuilt(w, stamp, c, disk);
      TransientFinish(w, stamp, c, r.built, disk, r.disk);
    }
  }

  /** Whoever knows the sources can tell before the call: if no key on disk for a reachable package stands for other
      code, a transient compile leaves a consistent tree whatever happens to it. */
  lemma TransientIsSafe(w: World, stamp: Stamp, c: Call, disk: Disk, ps: set<Path>)
    requires Consistent(w, disk) && c.mode.Transient? && IsReach(w, stamp, c, ps) && Harmless(w, stamp, c, disk, ps)
    ensures Consistent(w, Compile(w, stamp, c, disk).0)
  {
    hide Compile, Consistent, IsReach, SameCode;
    BuildsReachable(w, stamp, c, disk, ps);
    TransientCompile(w, stamp, c, disk);
    assert Harmless(w, stamp, c, disk, Elems(BuiltBy(w, stamp, c, disk)));
  }

  /** The packages have names and sources without errors and code, and imports come from a package tree. */
  ghost predicate Ready(w: World, stamp: Stamp, c: Call, ps: set<Path>) {
    Clean(w, stamp, c, ps) && forall p | p in ps :: w.generates(stamp, c.sources[p])
  }

  /** For sources without errors the condition is exact: the tree stays consistent exactly when g++ succeeds or no key
      on disk for a reachable package stands for other code. */
  lemma TransientIff(w: World, stamp: Stamp, c: Call, disk: Disk, ps: set<Path>)
    requires Consistent(w, disk) && c.mode.Transient? && IsReach(w, stamp, c, ps) && Ready(w, stamp, c, ps)
    ensures Consistent(w, Compile(w, stamp, c, disk).0) <==> c.linkOk || Harmless(w, stamp, c, disk, ps)
  {
    hide Consistent, Harmless, Compile, Closed, Clean, NoDup, BuiltBy;
    BuildsReachable(w, stamp, c, disk, ps);
    TransientCompile(w, stamp, c, disk);
    SucceedsIff(w, stamp, c, disk, ps);
    if !c.linkOk {
      FailedBuilds(w, stamp, c, disk, ps);
    }
  }

  /** A check-only compile writes nothing. */
  lemma {:induction false} CheckOnlyWalk(w: World, stamp: Stamp, c: Call, k: Walk)
    requires Proper(k) && c.mode.CheckOnly?
    ensures WalkAll(w, stamp, c, k).disk == k.disk
    decreases Left(c, k)
  {
    if k.todo != [] && Turn(w, stamp, c, k).Some? {
      TurnIsProper(w, stamp, c, k);
      TurnShrinks(w, stamp, c, k);
      CheckOnlyWalk(w, stamp, c, Turn(w, stamp, c, k).value);
    }
  }

  // ----- histories ---------------------------------------------------------------------

  /** The output tree after a history of calls. The sources may differ in every call, and so may the compiler. */
  ghost function After(w: World, calls: seq<(Stamp, Call)>, disk: Disk): Disk
    decreases calls
  {
    if calls == [] then disk else After(w, calls[1..], Compile(w, calls[0].0, calls[0].1, disk).0)
  }

  /** No transient compile of the history fails after overwriting files an old key vouches for. */
  ghost predicate NoOrphans(w: World, calls: seq<(Stamp, Call)>, disk: Disk)
    decreases calls
  {
    calls == [] ||
      var (stamp, c) := calls[0];
      var r := Compile(w, stamp, c, disk);
      && (c.mode.Transient? ==> r.1 || Harmless(w, stamp, c, disk, Elems(BuiltBy(w, stamp, c, disk))))
      && NoOrphans(w, calls[1..], r.0)
  }

  lemma CompileIsConsistent(w: World, stamp: Stamp, c: Call, disk: Disk)
    requires Injective(w) && Consistent(w, disk)
    requires c.mode.Transient? ==>
               Compile(w, stamp, c, disk).1 || Harmless(w, stamp, c, disk, Elems(BuiltBy(w, stamp, c, disk)))
    ensures Consistent(w, Compile(w, stamp, c, disk).0)
  {
    hide Consistent, WalkAll, Harmless;
    if c.mode.Cached? {
      CachedCompile(w, stamp, c, disk);
    } else if c.mode.Transient? {
      TransientCompile(w, stamp, c, disk);
    } else {
      StartFacts(w, stamp, c, disk);
      CheckOnlyWalk(w, stamp, c, Start(c, disk));
    }
  }

  lemma {:induction false} HistoryIsConsistent(w: World, calls: seq<(Stamp, Call)>, disk: Disk)
    requires Injective(w) && Consistent(w, disk) && NoOrphans(w, calls, disk)
    ensures Consistent(w, After(w, calls, disk))
    decreases calls
  {
    hide Consistent, Compile, Harmless, BuiltBy;
    if calls != [] {
      var (stamp, c) := calls[0];
      CompileIsConsistent(w, stamp, c, disk);
      HistoryIsConsistent(w, calls[1..], Compile(w, stamp, c, disk).0);
    }
  }

  /** After any such history, with any edits and compiler upgrades between the calls, a cached compile that succeeds
      leaves the same files and the same .so as the same compile into an empty tree. */
  lemma IncrementalIsClean(w: World, stamp: Stamp, calls: seq<(Stamp, Call)>, c: Call, ps: set<Path>)
    requires Injective(w) && NoOrphans(w, calls, EMPTY) && c.mode.Cached?
    requires Compile(w, stamp, c, After(w, calls, EMPTY)).1 && IsReach(w, stamp, c, ps)
    ensures MatchesClean(w, stamp, c, After(w, calls, EMPTY), ps)
  {
    hide Compile, IsReach, MatchesClean, NoOrphans, After;
    assert Consistent(w, EMPTY);
    HistoryIsConsistent(w, calls, EMPTY);
    CachedMatchesClean(w, stamp, c, After(w, calls, EMPTY), ps);
  }

  // ----- the driver --------------------------------------------------------------------

  /** The part of NewDeps still to come does not depend on how the part so far is split off. */
  lemma {:induction false} NewDepsSplit(deps: seq<Path>, i: nat, packages: set<Path>)
    requires i < |deps|
    ensures NewDeps(deps[i..], packages)
         == if deps[i] in packages then NewDeps(deps[i + 1..], packages)
            else [deps[i]] + NewDeps(deps[i + 1..], packages + {deps[i]})
  {
    assert deps[i..][0] == deps[i] && deps[i..][1..] == deps[i + 1..];
  }

  class Driver {
    const w: World
    const stamp: Stamp
    var disk: Disk

    constructor (w: World, stamp: Stamp, disk: Disk)
      ensures this.w == w && this.stamp == stamp && this.disk == disk
    {
      this.w, this.stamp, this.disk := w, stamp, disk;
    }

    /** The loop over the imports of a package: each one not in the map yet joins it and the queue. */
    method Enqueue(deps: seq<Path>, packages: set<Path>) returns (added: seq<Path>)
      ensures added == NewDeps(deps, packages)
    {
      added := [];
      var seen := packages;
      var i := 0;
      assert deps[0..] == deps;
      while i < |deps|
        invariant 0 <= i <= |deps| && added + NewDeps(deps[i..], seen) == NewDeps(deps, packages)
      {
        NewDepsSplit(deps, i, seen);
        if deps[i] !in seen {
          ghost var more := NewDeps(deps[i + 1..], seen + {deps[i]});
          assert added + ([deps[i]] + more) == (added + [deps[i]]) + more;
          seen := seen + {deps[i]};
          added := added + [deps[i]];
        }
        i := i + 1;
      }
    }

    /** The staleness check, the generator and the key of one package. */
    method Generate(mode: Mode, p: Path, src: Source) returns (ok: bool)
      modifies this
      ensures match Build(w, stamp, mode, old(disk), p, src)
              case None => !ok && disk == old(disk)
              case Some(d) => ok && disk == d
    {
      if mode.CheckOnly? {
        return true;
      }
      var key := KeyOf(w, stamp, src);
      if mode.Cached? && p in disk.keys && disk.keys[p] == key {
        if AllPresent(disk, p) {
          return true;
        }
      }
      if !w.generates(stamp, src) {
        return false;
      }
      disk := Emitted(w, stamp, disk, p, src);
      if mode.Cached? {
        disk := disk.(keys := disk.keys[p := key]);
      }
      ok := true;
    }

    /** The worklist. */
    method WalkPackages(c: Call) returns (ok: bool, built: seq<Path>)
      modifies this
      ensures Proper(Start(c, old(disk)))
      ensures WalkAll(w, stamp, c, Start(c, old(disk))) == if ok then Done(built, disk) else Failed(built, disk)
    {
      StartFacts(w, stamp, c, disk);
      built := [];
      var todo := [c.core];
      while todo != []
        invariant Proper(Walk(built, todo, disk))
        invariant WalkAll(w, stamp, c, Walk(built, todo, disk)) == WalkAll(w, stamp, c, Start(c, old(disk)))
        decreases Left(c, Walk(built, todo, disk))
      {
        ghost var k := Walk(built, todo, disk);
        var cur := todo[0];
        if !ValidName(cur) || cur !in c.sources || !w.checks(stamp, c.sources[cur]) {
          return false, built;
        }
        var src := c.sources[cur];
        var deps := Enqueue(w.imports(stamp, src), PathSet(built + todo));
        if !c.rooted && deps != [] {
          return false, built;
        }
        var generated := Generate(c.mode, cur, src);
        if !generated {
          return false, built;
        }
        assert Turn(w, stamp, c, k) == Some(Walk(built + [cur], todo[1..] + deps, disk));
        TurnIsProper(w, stamp, c, k);
        TurnShrinks(w, stamp, c, k);
        built, todo := built + [cur], todo[1..] + deps;
      }
      ok := true;
    }

    method CompilePackages(c: Call) returns (ok: bool)
      modifies this
      ensures (disk, ok) == Compile(w, stamp, c, old(disk))
    {
      var walked, built := WalkPackages(c);
      if !walked {
        return false;
      }
      CoreIsBuilt(w, stamp, c, old(disk));
      if c.mode.CheckOnly? {
        return true;
      }
      var used := Used(c, built);
      var so := (c.core, w.version(stamp, used[c.core]));
      var linkKey := LinkKeyOf(w, stamp, used);
      if c.mode.Cached? && c.core in disk.linkKeys && disk.linkKeys[c.core] == linkKey && so in disk.sos {
        return true;
      }
      if !c.linkOk {
        return false;
      }
      disk := disk.(sos := disk.sos[so := Linked(w, disk, c.core, built)]);
      if c.mode.Cached? {
        disk := disk.(linkKeys := disk.linkKeys[c.core := linkKey]);
      } else {
        disk := Cleaned(disk, c.core, built);
      }
      ok := true;
    }
  }

  // ----- why the condition is needed ---------------------------------------------------

  /** A hash without collisions, to show that the trouble is not one. */
  function Encode(s: Source): nat {
    if s == "" then 0 else s[0] as int + 1 + 0x110000 * Encode(s[1..])
  }

  lemma {:induction false} EncodeIsInjective(a: Source, b: Source)
    requires Encode(a) == Encode(b)
    ensures a == b
    decreases a
  {
    if a != "" && b != "" {
      assert (a[0] as int - b[0] as int) == 0x110000 * (Encode(b[1..]) - Encode(a[1..]));
      EncodeIsInjective(a[1..], b[1..]);
      assert a == [a[0]] + a[1..] && b == [b[0]] + b[1..];
    }
  }

  const LONE := Path([], "a", ["orly"])
  const USER := Path([], "b", ["orly"])

  /** A compiler that copies its source into every file it generates, for packages that import nothing, but for the
      text "I", which imports LONE. Its linker takes the code of LONE. */
  const COPIER := World(
    (t: Stamp, s: Source) => if s == "I" then [LONE] else [],
    (t: Stamp, s: Source) => 1, (t: Stamp, s: Source) => true, (t: Stamp, s: Source) => true,
    (t: Stamp, s: Source, e: Ext) => s, Encode,
    (p: Path, l: Code, m: map<Path, Code>) => if LONE in m then m[LONE] else l)

  function CallOn(src: Source, mode: Mode, linkOk: bool): Call {
    Call(map[LONE := src], LONE, true, mode, linkOk)
  }

  /** A compile of USER, which imports LONE. */
  function UserCall(): Call {
    Call(map[LONE := "A", USER := "I"], USER, true, Cached, true)
  }

  lemma NamesDiffer()
    ensures LONE != USER
  {
    assert LONE.name[0] != USER.name[0];
  }

  lemma LoneWalk(stamp: Stamp, src: Source, mode: Mode, linkOk: bool, disk: Disk)
    requires !mode.CheckOnly? && src != "I"
    ensures var c := CallOn(src, mode, linkOk);
            && Proper(Start(c, disk)) && Build(COPIER, stamp, mode, disk, LONE, src).Some?
            && WalkAll(COPIER, stamp, c, Start(c, disk))
               == Done([LONE], Build(COPIER, stamp, mode, disk, LONE, src).value)
  {
    var c := CallOn(src, mode, linkOk);
    StartFacts(COPIER, stamp, c, disk);
    var k := Start(c, disk);
    var d := Build(COPIER, stamp, mode, disk, LONE, src).value;
    assert COPIER.imports(stamp, src) == [] && k.todo[1..] + [] == [] && k.built + [LONE] == [LONE];
    assert Turn(COPIER, stamp, c, k) == Some(Walk([LONE], [], d));
    TurnIsProper(COPIER, stamp, c, k);
  }

  lemma FirstCompile(stamp: Stamp) returns (d: Disk)
    ensures d == Compile(COPIER, stamp, CallOn("A", Cached, true), EMPTY).0
    ensures d.keys == map[LONE := KeyOf(COPIER, stamp, "A")] && USER !in d.linkKeys
  {
    LoneWalk(stamp, "A", Cached, true, EMPTY);
    d := Compile(COPIER, stamp, CallOn("A", Cached, true), EMPTY).0;
  }

  lemma FailedTransient(stamp: Stamp, disk: Disk) returns (d: Disk)
    requires disk.keys == map[LONE := KeyOf(COPIER, stamp, "A")]
    ensures d == Compile(COPIER, stamp, CallOn("B", Transient, false), disk).0
    ensures UpToDate(COPIER, stamp, d, LONE, "A") && d.files[(LONE, Cc)] == "B"
    ensures d.keys == disk.keys && d.linkKeys == disk.linkKeys
  {
    LoneWalk(stamp, "B", Transient, false, disk);
    d := Compile(COPIER, stamp, CallOn("B", Transient, false), disk).0;
    assert d == Emitted(COPIER, stamp, disk, LONE, "B");
  }

  /** The history of both counterexamples: one text compiled with the cache, and a transient compile of another that
      fails in g++. */
  ghost function History(stamp: Stamp): seq<(Stamp, Call)> {
    [(stamp, CallOn("A", Cached, true)), (stamp, CallOn("B", Transient, false))]
  }

  lemma AfterHistory(stamp: Stamp) returns (d: Disk)
    ensures d == After(COPIER, History(stamp), EMPTY)
    ensures d.keys == map[LONE := KeyOf(COPIER, stamp, "A")] && USER !in d.linkKeys
    ensures UpToDate(COPIER, stamp, d, LONE, "A") && d.files[(LONE, Cc)] == "B"
  {
    hide Compile, UpToDate;
    var c1, c2 := (stamp, CallOn("A", Cached, true)), (stamp, CallOn("B", Transient, false));
    var d1 := FirstCompile(stamp);
    d := FailedTransient(stamp, d1);
    assert [c1, c2][1..] == [c2] && [c2][1..] == [];
    assert After(COPIER, [], d) == d;
    assert After(COPIER, [c2], d1) == d;
    assert After(COPIER, [c1, c2], EMPTY) == d;
  }

  lemma StaleCompile(stamp: Stamp, disk: Disk)
    requires UpToDate(COPIER, stamp, disk, LONE, "A") && disk.files[(LONE, Cc)] == "B"
    ensures var (d, ok) := Compile(COPIER, stamp, CallOn("A", Cached, true), disk); ok && d.files == disk.files
  {
    LoneWalk(stamp, "A", Cached, true, disk);
  }

  lemma CopierHasNoCollisions()
    ensures Injective(COPIER)
  {
    forall a, b | COPIER.hash(a) == COPIER.hash(b) ensures a == b {
      EncodeIsInjective(a, b);
    }
  }

  /** After the history, going back to the first text, the cached compile succeeds and leaves files of the wrong
      text. */
  lemma FailedTransientLeavesOrphans(stamp: Stamp)
    ensures Injective(COPIER)
    ensures var (d, ok) := Compile(COPIER, stamp, CallOn("A", Cached, true), After(COPIER, History(stamp), EMPTY));
            && ok && (LONE, Cc) in d.files && d.files[(LONE, Cc)] != COPIER.gen(stamp, "A", Cc)
  {
    CopierHasNoCollisions();
    var d := AfterHistory(stamp);
    StaleCompile(stamp, d);
  }

  lemma UserTurn(stamp: Stamp, disk: Disk)
    requires USER !in disk.keys
    ensures var c, k, d := UserCall(), Start(UserCall(), disk), Build(COPIER, stamp, Cached, disk, USER, "I");
            && Proper(k) && d.Some? && Turn(COPIER, stamp, c, k) == Some(Walk([USER], [LONE], d.value))
            && SameAt(disk, d.value, LONE) && d.value.linkKeys == disk.linkKeys && d.value.sos == disk.sos
  {
    var c, k := UserCall(), Start(UserCall(), disk);
    StartFacts(COPIER, stamp, c, disk);
    BuildOnAny(COPIER, stamp, disk, USER, "I");
    assert COPIER.imports(stamp, "I") == [LONE];
    assert PathSet(k.built + k.todo) == {USER};
    NamesDiffer();
    assert NewDeps([LONE][1..], {USER} + {LONE}) == [];
    assert NewDeps([LONE], {USER}) == [LONE];
    assert k.todo[1..] + [LONE] == [LONE] && k.built + [USER] == [USER];
  }

  lemma UserWalk(stamp: Stamp, disk: Disk) returns (d: Disk)
    requires USER !in disk.keys && UpToDate(COPIER, stamp, disk, LONE, "A") && disk.files[(LONE, Cc)] == "B"
    ensures Proper(Start(UserCall(), disk))
    ensures WalkAll(COPIER, stamp, UserCall(), Start(UserCall(), disk)) == Done([USER, LONE], d)
    ensures d.linkKeys == disk.linkKeys && (LONE, Cc) in d.files && d.files[(LONE, Cc)] == "B"
  {
    hide Build, SameAt;
    var c, k := UserCall(), Start(UserCall(), disk);
    UserTurn(stamp, disk);
    d := Build(COPIER, stamp, Cached, disk, USER, "I").value;
    var k1 := Walk([USER], [LONE], d);
    TurnIsProper(COPIER, stamp, c, k);
    SkippedTurn(stamp, disk, d);
    TurnIsProper(COPIER, stamp, c, k1);
    assert WalkAll(COPIER, stamp, c, Walk([USER, LONE], [], d)) == Done([USER, LONE], d);
    assert WalkAll(COPIER, stamp, c, k1) == Done([USER, LONE], d);
    assert WalkAll(COPIER, stamp, c, k) == WalkAll(COPIER, stamp, c, k1);
  }

  lemma SkippedTurn(stamp: Stamp, disk: Disk, d: Disk)
    requires UpToDate(COPIER, stamp, disk, LONE, "A") && disk.files[(LONE, Cc)] == "B" && SameAt(disk, d, LONE)
    ensures Turn(COPIER, stamp, UserCall(), Walk([USER], [LONE], d)) == Some(Walk([USER, LONE], [], d))
    ensures (LONE, Cc) in d.files && d.files[(LONE, Cc)] == "B"
  {
    SameAtFacts(COPIER, stamp, disk, d, LONE, "A");
    assert COPIER.imports(stamp, "A") == [];
    assert [LONE][1..] + [] == [] && [USER] + [LONE] == [USER, LONE];
  }

  /** And another core that imports the package, compiled for the first time after the history, gets a .so with the
      code of the wrong text. */
  lemma FailedTransientGivesWrongSo(stamp: Stamp)
    ensures var c := UserCall();
            var (d, ok) := Compile(COPIER, stamp, c, After(COPIER, History(stamp), EMPTY));
            && ok && (USER, 1) in d.sos && d.sos[(USER, 1)] != CleanSo(COPIER, stamp, USER, c.sources)
  {
    hide WalkAll, UpToDate, After, History;
    var c := UserCall();
    var disk := AfterHistory(stamp);
    NamesDiffer();
    var d := UserWalk(stamp, disk);
    FinishSo(COPIER, stamp, c, [USER, LONE], d);
    assert COPIER.version(stamp, "I") == 1;
    var ccs := map p | p in [USER, LONE] :: File(d, p, Cc);
    assert LONE in ccs && ccs[LONE] == "B";
    assert CleanSo(COPIER, stamp, USER, c.sources) == "A";
  }
}
