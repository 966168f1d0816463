/**
 * The sources a component needs: its entries closed under imports and package initialisers.
 * A file is its path below the source root; the parsed imports of a source are part of the tree.
 */
module ModuleClosure {
  import opened Values

  type Path = seq<string>
  type Name = seq<string> // the parts of a dotted module name; [] is the empty name

  datatype Node =
    | Import(modules: seq<Name>)
    | ImportFrom(level: nat, source: Name, aliases: seq<Name>) // [] stands for `*`
    | DynamicImport(target: Name)   // `__import__` of a constant, or `import_module` of an absolute constant

  type Tree = map<Path, seq<Node>>

  const INIT: string := "__init__.py"

  datatype Error = Escapes | Missing | Forbidden(path: Path) | NotPython(path: Path) | BadRelativeImport(path: Path)
  datatype Outcome = Found(paths: set<Path>) | Failed(error: Error)

  function Initializers(tree: Tree, parts: Path, upTo: nat): set<Path>
    requires upTo <= |parts|
  {
    set count | 1 <= count <= upTo && parts[..count] + [INIT] in tree :: parts[..count] + [INIT]
  }

  /** What `add_module` makes pending: the module, else the package, and the initialisers above it. */
  function ModuleFiles(tree: Tree, name: Name): set<Path> {
    if name == [] then {} else
    (if ModuleFile(tree, name) in tree then {ModuleFile(tree, name)} else {})
    + Initializers(tree, name, |name| - 1)
  }

  function ModuleFile(tree: Tree, name: Name): Path
    requires name != []
  {
    var plain := name[..|name| - 1] + [name[|name| - 1] + ".py"];
    if plain in tree then plain else name + [INIT]
  }

  function Package(path: Path): Path {
    if path == [] then [] else path[..|path| - 1]
  }

  predicate IsPython(path: Path) {
    path != [] && var file := path[|path| - 1]; |file| > 3 && file[|file| - 3..] == ".py"
  }

  predicate TooFarUp(path: Path, node: Node) {
    node.ImportFrom? && node.level > |Package(path)| + 1
  }

  /** The absolute name an `ImportFrom` resolves to. */
  function SourceName(path: Path, node: Node): Name
    requires node.ImportFrom? && !TooFarUp(path, node)
  {
    (if node.level == 0 then [] else Package(path)[..|Package(path)| + 1 - node.level]) + node.source
  }

  function NodeFiles(tree: Tree, path: Path, node: Node): set<Path> {
    match node
    case Import(modules) => set m, p | m in modules && p in ModuleFiles(tree, m) :: p
    case ImportFrom(_, _, aliases) =>
      if TooFarUp(path, node) then {} else
      ModuleFiles(tree, SourceName(path, node))
      + set a, p | a in aliases && a != [] && p in ModuleFiles(tree, SourceName(path, node) + a) :: p
    case DynamicImport(target) => ModuleFiles(tree, target)
  }

  /** The files that a source pulls in directly. */
  function Needs(tree: Tree, path: Path): set<Path>
    requires path in tree
  {
    Initializers(tree, Package(path), |Package(path)|)
    + set n, p | n in tree[path] && p in NodeFiles(tree, path, n) :: p
  }

  predicate IsForbidden(path: Path, forbidden: seq<Path>) {
    exists prefix | prefix in forbidden :: prefix <= path
  }

  predicate Bad(tree: Tree, path: Path, forbidden: seq<Path>)
    requires path in tree
  {
    IsForbidden(path, forbidden) || !IsPython(path) || exists n | n in tree[path] :: TooFarUp(path, n)
  }

  // ------------------------------------------------------------------ the rules of imports

  /** Relative imports: one dot is the package of the file, and each further dot its parent, below the source root. */
  function Climb(package: Path, dots: nat): (r: Option<Path>)
    requires dots >= 1
    decreases dots
  {
    if dots == 1 then Some(package)
    else if package == [] then None
    else Climb(package[..|package| - 1], dots - 1)
  }

  lemma {:induction false} ClimbDrops(package: Path, dots: nat)
    requires dots >= 1
    ensures Climb(package, dots) ==
      if dots > |package| + 1 then None else Some(package[..|package| + 1 - dots])
    decreases dots
  {
    if dots == 1 {
      assert package[..|package|] == package;
    } else if package != [] {
      var parent := package[..|package| - 1];
      ClimbDrops(parent, dots - 1);
      if dots <= |package| + 1 {
        assert parent[..|package| + 1 - dots] == package[..|package| + 1 - dots];
      }
    }
  }

  /** The name of an `ImportFrom` is what its dots climb to, followed by what it spells out. */
  lemma SourceIsClimbed(path: Path, node: Node)
    requires node.ImportFrom?
    ensures TooFarUp(path, node) <==> node.level >= 1 && Climb(Package(path), node.level) == None
    ensures node.level == 0 ==> SourceName(path, node) == node.source
    ensures node.level >= 1 && !TooFarUp(path, node) ==>
      SourceName(path, node) == Climb(Package(path), node.level).value + node.source
  {
    if node.level >= 1 {
      ClimbDrops(Package(path), node.level);
    } else {
      assert [] + node.source == node.source;
    }
  }

  /** The files of a dotted name: its module, else its package, and the initialisers of the packages around it. */
  lemma ModuleFilesMeans(tree: Tree, package: Path, last: string, p: Path)
    ensures p in ModuleFiles(tree, package + [last]) <==>
      && p in tree
      && (|| p == package + [last + ".py"]
          || (p == package + [last, INIT] && package + [last + ".py"] !in tree)
          || exists inner, rest :: inner != [] && package == inner + rest && p == inner + [INIT])
  {
    var name := package + [last];
    assert name[..|name| - 1] == package && name + [INIT] == package + [last, INIT];
    forall count | 1 <= count <= |package| ensures name[..count] == package[..count] {
    }
    if inner, rest :| inner != [] && package == inner + rest && p == inner + [INIT] {
      assert package[..|inner|] == inner;
    }
    if count :| 1 <= count <= |package| && p == name[..count] + [INIT] {
      assert package == package[..count] + package[count..];
    }
  }

  /** What `collect_module_sources` refuses to include. */
  lemma BadMeans(tree: Tree, path: Path, forbidden: seq<Path>)
    requires path in tree
    ensures Bad(tree, path, forbidden) <==>
      || (exists prefix, rest :: prefix in forbidden && path == prefix + rest)
      || !(exists package, stem: string :: stem != "" && path == package + [stem + ".py"])
      || exists n :: n in tree[path] && n.ImportFrom? && n.level >= 1 && Climb(Package(path), n.level) == None
  {
    forall n | n in tree[path] && n.ImportFrom? ensures TooFarUp(path, n) <==>
      n.level >= 1 && Climb(Package(path), n.level) == None
    {
      SourceIsClimbed(path, n);
    }
    ForbiddenMeans(path, forbidden);
    PythonMeans(path);
    hide IsForbidden, IsPython, TooFarUp, Climb;
  }

  lemma ForbiddenMeans(path: Path, forbidden: seq<Path>)
    ensures IsForbidden(path, forbidden) <==> exists prefix, rest :: prefix in forbidden && path == prefix + rest
  {
    if prefix :| prefix in forbidden && prefix <= path {
      assert path == prefix + path[|prefix|..];
    }
  }

  lemma PythonMeans(path: Path)
    ensures IsPython(path) <==> exists package, stem: string :: stem != "" && path == package + [stem + ".py"]
  {
    if IsPython(path) {
      var file := path[|path| - 1];
      var stem := file[..|file| - 3];
      assert file == stem + ".py" && path == path[..|path| - 1] + [stem + ".py"];
    }
    if package, stem: string :| stem != "" && path == package + [stem + ".py"] {
      var file := stem + ".py";
      assert path[|path| - 1] == file && file[|file| - 3..] == ".py";
    }
  }

  // ------------------------------------------------------------------ closures

  ghost predicate Closed(tree: Tree, entries: seq<Path>, s: set<Path>) {
    && (forall e | e in entries :: e in s)
    && (forall p | p in s :: p in tree && Needs(tree, p) <= s)
  }

  /** The least closed set that holds the entries. */
  ghost predicate IsClosure(tree: Tree, entries: seq<Path>, s: set<Path>) {
    Closed(tree, entries, s) && forall t | Closed(tree, entries, t) :: s <= t
  }

  lemma ClosureIsUnique(tree: Tree, first: seq<Path>, second: seq<Path>, s: set<Path>, t: set<Path>)
    requires IsClosure(tree, first, s) && IsClosure(tree, second, t)
    requires forall e :: e in first <==> e in second
    ensures s == t
  {
    assert Closed(tree, first, t);
    assert Closed(tree, second, s);
  }

  /** A chain of direct needs from an entry. */
  ghost predicate Chain(tree: Tree, entries: seq<Path>, chain: seq<Path>) {
    && chain != [] && chain[0] in entries && (forall p | p in chain :: p in tree)
    && forall i | 0 < i < |chain| :: chain[i] in Needs(tree, chain[i - 1])
  }

  lemma {:induction false} ChainIsClosed(tree: Tree, entries: seq<Path>, s: set<Path>, chain: seq<Path>)
    requires Closed(tree, entries, s) && Chain(tree, entries, chain)
    ensures chain[|chain| - 1] in s
    decreases |chain|
  {
    if |chain| > 1 {
      var shorter := chain[..|chain| - 1];
      forall i | 0 < i < |shorter| ensures shorter[i] in Needs(tree, shorter[i - 1]) {
        assert chain[i] in Needs(tree, chain[i - 1]);
      }
      ChainIsClosed(tree, entries, s, shorter);
      assert chain[|chain| - 1] in Needs(tree, shorter[|shorter| - 1]);
    }
  }

  ghost predicate Reached(tree: Tree, entries: seq<Path>, path: Path) {
    exists chain :: Chain(tree, entries, chain) && chain[|chain| - 1] == path
  }

  lemma ReachedGrows(tree: Tree, entries: seq<Path>, path: Path, next: Path)
    requires Reached(tree, entries, path) && path in tree && next in Needs(tree, path) && next in tree
    ensures Reached(tree, entries, next)
  {
    hide Needs;
    var chain :| Chain(tree, entries, chain) && chain[|chain| - 1] == path;
    var longer := chain + [next];
    forall i | 0 < i < |longer| ensures longer[i] in Needs(tree, longer[i - 1]) {
      if i < |chain| {
        assert chain[i] in Needs(tree, chain[i - 1]);
      }
    }
    assert Chain(tree, entries, longer) && longer[|longer| - 1] == next;
  }

  /** The least closed set holds exactly what a chain of needs reaches from an entry. */
  lemma ClosureIsReached(tree: Tree, entries: seq<Path>, s: set<Path>)
    requires IsClosure(tree, entries, s)
    ensures forall p :: p in s <==> Reached(tree, entries, p)
  {
    hide Needs, Reached;
    var t := set p | p in s && Reached(tree, entries, p);
    forall e | e in entries ensures e in t {
      EntryIsReached(tree, entries, e);
    }
    forall p, q | p in t && q in Needs(tree, p) ensures q in t {
      ReachedGrows(tree, entries, p, q);
    }
    assert Closed(tree, entries, t);
    forall p | Reached(tree, entries, p) ensures p in s {
      ReachedIsIn(tree, entries, s, p);
    }
  }

  lemma EntryIsReached(tree: Tree, entries: seq<Path>, entry: Path)
    requires entry in entries && entry in tree
    ensures Reached(tree, entries, entry)
  {
    assert Chain(tree, entries, [entry]);
    assert [entry][|[entry]| - 1] == entry;
  }

  lemma ReachedIsIn(tree: Tree, entries: seq<Path>, s: set<Path>, path: Path)
    requires Closed(tree, entries, s) && Reached(tree, entries, path)
    ensures path in s
  {
    var chain :| Chain(tree, entries, chain) && chain[|chain| - 1] == path;
    ChainIsClosed(tree, entries, s, chain);
  }

  // ---------------------------------------------------------------- the worklist

  ghost function Elements(pending: seq<Path>): set<Path> {
    set p | p in pending
  }

  lemma ElementsAppend(pending: seq<Path>, more: Path)
    ensures Elements(pending + [more]) == Elements(pending) + {more}
  {
  }

  lemma ElementsPop(pending: seq<Path>)
    requires pending != []
    ensures Elements(pending) == Elements(pending[..|pending| - 1]) + {pending[|pending| - 1]}
  {
    assert pending == pending[..|pending| - 1] + [pending[|pending| - 1]];
  }

  lemma InitializersStep(tree: Tree, parts: Path, upTo: nat)
    requires upTo < |parts|
    ensures Initializers(tree, parts, upTo + 1) == Initializers(tree, parts, upTo)
      + if parts[..upTo + 1] + [INIT] in tree then {parts[..upTo + 1] + [INIT]} else {}
  {
  }

  method AddInitializers(tree: Tree, parts: Path, upTo: nat, pending: seq<Path>) returns (more: seq<Path>)
    requires upTo <= |parts|
    ensures Elements(more) == Elements(pending) + Initializers(tree, parts, upTo)
  {
    more := pending;
    for count := 0 to upTo
      invariant Elements(more) == Elements(pending) + Initializers(tree, parts, count)
    {
      InitializersStep(tree, parts, count);
      var initializer := parts[..count + 1] + [INIT];
      if initializer in tree {
        ElementsAppend(more, initializer);
        more := more + [initializer];
      }
    }
  }

  method AddModule(tree: Tree, name: Name, pending: seq<Path>) returns (more: seq<Path>)
    ensures Elements(more) == Elements(pending) + ModuleFiles(tree, name)
  {
    hide Initializers, Elements;
    more := pending;
    if name == [] {
      return;
    }
    var candidate := ModuleFile(tree, name);
    if candidate in tree {
      ElementsAppend(more, candidate);
      more := more + [candidate];
    }
    more := AddInitializers(tree, name, |name| - 1, more);
  }

  lemma ModulesStep(tree: Tree, modules: seq<Name>, i: nat)
    requires i < |modules|
    ensures (set m, p | m in modules[..i + 1] && p in ModuleFiles(tree, m) :: p)
         == (set m, p | m in modules[..i] && p in ModuleFiles(tree, m) :: p) + ModuleFiles(tree, modules[i])
  {
    hide ModuleFiles;
    assert modules[..i + 1] == modules[..i] + [modules[i]];
  }

  method AddModules(tree: Tree, modules: seq<Name>, pending: seq<Path>) returns (more: seq<Path>)
    ensures Elements(more) == Elements(pending) + set m, p | m in modules && p in ModuleFiles(tree, m) :: p
  {
    hide ModuleFiles, Elements;
    more := pending;
    for i := 0 to |modules|
      invariant Elements(more) == Elements(pending) + set m, p | m in modules[..i] && p in ModuleFiles(tree, m) :: p
    {
      ModulesStep(tree, modules, i);
      more := AddModule(tree, modules[i], more);
    }
    assert modules[..|modules|] == modules;
  }

  function Joined(base: Name, aliases: seq<Name>): (names: seq<Name>)
    ensures forall n :: n in names <==> exists a | a in aliases && a != [] :: n == base + a
  {
    if aliases == [] then []
    else (if aliases[0] == [] then [] else [base + aliases[0]]) + Joined(base, aliases[1..])
  }

  method AddNode(tree: Tree, path: Path, node: Node, pending: seq<Path>) returns (more: seq<Path>)
    requires !TooFarUp(path, node)
    ensures Elements(more) == Elements(pending) + NodeFiles(tree, path, node)
  {
    hide ModuleFiles, Elements, SourceName, TooFarUp;
    match node {
      case Import(modules) => more := AddModules(tree, modules, pending);
      case ImportFrom(_, _, aliases) =>
        var base := SourceName(path, node);
        more := AddModule(tree, base, pending);
        more := AddModules(tree, Joined(base, aliases), more);
        assert (set m, p | m in Joined(base, aliases) && p in ModuleFiles(tree, m) :: p)
            == (set a, p | a in aliases && a != [] && p in ModuleFiles(tree, base + a) :: p);
      case DynamicImport(target) => more := AddModule(tree, target, pending);
    }
  }

  lemma NodesStep(tree: Tree, path: Path, nodes: seq<Node>, i: nat)
    requires i < |nodes|
    ensures (set n, p | n in nodes[..i + 1] && p in NodeFiles(tree, path, n) :: p)
         == (set n, p | n in nodes[..i] && p in NodeFiles(tree, path, n) :: p) + NodeFiles(tree, path, nodes[i])
  {
    hide NodeFiles;
    assert nodes[..i + 1] == nodes[..i] + [nodes[i]];
  }

  /** One source: its package initialisers and its imports become pending; false stands for a bad relative import. */
  method Scan(tree: Tree, path: Path, pending: seq<Path>) returns (ok: bool, more: seq<Path>)
    requires path in tree
    ensures ok <==> !exists n | n in tree[path] :: TooFarUp(path, n)
    ensures ok ==> Elements(more) == Elements(pending) + Needs(tree, path)
  {
    hide NodeFiles, Elements, TooFarUp, Initializers;
    var nodes := tree[path];
    more := AddInitializers(tree, Package(path), |Package(path)|, pending);
    ghost var before := Elements(more);
    for i := 0 to |nodes|
      invariant Elements(more) == before + set n, p | n in nodes[..i] && p in NodeFiles(tree, path, n) :: p
      invariant forall n | n in nodes[..i] :: !TooFarUp(path, n)
    {
      if TooFarUp(path, nodes[i]) {
        return false, more;
      }
      NodesStep(tree, path, nodes, i);
      more := AddNode(tree, path, nodes[i], more);
    }
    assert nodes[..|nodes|] == nodes;
    ok := true;
  }

  lemma NeedsAreFiles(tree: Tree, path: Path)
    requires path in tree
    ensures Needs(tree, path) <= tree.Keys
  {
    hide SourceName, TooFarUp;
  }

  /** Every closed set that holds the entries holds these too. */
  ghost predicate Forced(tree: Tree, entries: seq<Path>, paths: set<Path>) {
    forall t | Closed(tree, entries, t) :: paths <= t
  }

  /** Some bad source cannot be avoided. */
  ghost predicate Doomed(tree: Tree, entries: seq<Path>, forbidden: seq<Path>) {
    exists p | p in tree && Bad(tree, p, forbidden) :: Forced(tree, entries, {p})
  }

  lemma ForcedNeeds(tree: Tree, entries: seq<Path>, paths: set<Path>, path: Path)
    requires Forced(tree, entries, paths) && path in paths && path in tree
    ensures Forced(tree, entries, paths + Needs(tree, path))
  {
    hide Needs;
  }

  /** What the worklist keeps: what is found or pending is forced, and only pending needs are still missing. */
  ghost predicate Worklist(tree: Tree, entries: seq<Path>, forbidden: seq<Path>, found: set<Path>, pending: set<Path>) {
    && found + pending <= tree.Keys && Forced(tree, entries, found + pending)
    && (forall e | e in entries :: e in found + pending)
    && (forall p | p in found :: p in tree && Needs(tree, p) <= found + pending && !Bad(tree, p, forbidden))
  }

  lemma WorklistStep(tree: Tree, entries: seq<Path>, forbidden: seq<Path>, found: set<Path>, rest: set<Path>,
                     path: Path)
    requires path in tree && !Bad(tree, path, forbidden)
    requires Worklist(tree, entries, forbidden, found, rest + {path})
    ensures Worklist(tree, entries, forbidden, found + {path}, rest + Needs(tree, path))
  {
    hide Needs, Bad, Closed;
    NeedsAreFiles(tree, path);
    assert found + (rest + {path}) == found + {path} + rest;
    ForcedNeeds(tree, entries, found + {path} + rest, path);
    assert found + {path} + rest + Needs(tree, path) == found + {path} + (rest + Needs(tree, path));
  }

  lemma WorklistDone(tree: Tree, entries: seq<Path>, forbidden: seq<Path>, found: set<Path>)
    requires Worklist(tree, entries, forbidden, found, {})
    ensures IsClosure(tree, entries, found)
  {
    hide Needs, Bad;
    assert found + {} == found;
  }

  predicate Escaping(entry: Path) {
    ".." in entry
  }

  /**
   * `collect_module_sources`: it succeeds exactly when some closed set holds the entries and nothing bad, and
   * then it returns the least closed set.
   */
  method Collect(tree: Tree, entries: seq<Path>, forbidden: seq<Path>) returns (r: Outcome)
    ensures r.Found? ==>
      IsClosure(tree, entries, r.paths) && forall p | p in r.paths :: p in tree && !Bad(tree, p, forbidden)
    ensures r.Failed? <==> (exists e | e in entries :: Escaping(e) || e !in tree) || Doomed(tree, entries, forbidden)
  {
    hide Needs, Bad, Elements, Closed, Forced;
    for i := 0 to |entries|
      invariant forall e | e in entries[..i] :: !Escaping(e)
    {
      if Escaping(entries[i]) {
        return Failed(Escapes);
      }
    }
    for i := 0 to |entries|
      invariant forall e | e in entries[..i] :: e in tree
    {
      if entries[i] !in tree {
        return Failed(Missing);
      }
    }
    r := Close(tree, entries, forbidden);
  }

  lemma EntriesAreForced(tree: Tree, entries: seq<Path>, forbidden: seq<Path>)
    requires forall e | e in entries :: e in tree
    ensures Worklist(tree, entries, forbidden, {}, Elements(entries))
  {
    hide Needs, Bad;
  }

  lemma ForcedOne(tree: Tree, entries: seq<Path>, paths: set<Path>, path: Path)
    requires Forced(tree, entries, paths) && path in paths
    ensures Forced(tree, entries, {path})
  {
    hide Closed;
  }

  /** A forced path lies in the closure. */
  lemma ForcedIsFound(tree: Tree, entries: seq<Path>, found: set<Path>, path: Path)
    requires IsClosure(tree, entries, found) && Forced(tree, entries, {path})
    ensures path in found
  {
    hide Closed;
  }

  method Close(tree: Tree, entries: seq<Path>, forbidden: seq<Path>) returns (r: Outcome)
    requires forall e | e in entries :: e in tree
    ensures r.Found? ==>
      IsClosure(tree, entries, r.paths) && forall p | p in r.paths :: p in tree && !Bad(tree, p, forbidden)
    ensures r.Failed? <==> Doomed(tree, entries, forbidden)
  {
    hide Needs, Elements, Closed, Forced, IsForbidden, IsPython, TooFarUp;
    var pending, found := entries, {};
    EntriesAreForced(tree, entries, forbidden);
    while pending != []
      invariant Worklist(tree, entries, forbidden, found, Elements(pending))
      decreases |tree.Keys - found|, |pending|
    {
      ElementsPop(pending);
      var path := pending[|pending| - 1];
      pending := pending[..|pending| - 1];
      if path in found {
        assert found + (Elements(pending) + {path}) == found + Elements(pending);
        continue;
      }
      ForcedOne(tree, entries, found + (Elements(pending) + {path}), path);
      if IsForbidden(path, forbidden) {
        return Failed(Forbidden(path));
      }
      if !IsPython(path) {
        return Failed(NotPython(path));
      }
      ghost var rest := Elements(pending);
      var ok, more := Scan(tree, path, pending);
      if !ok {
        return Failed(BadRelativeImport(path));
      }
      WorklistStep(tree, entries, forbidden, found, rest, path);
      assert tree.Keys - (found + {path}) < tree.Keys - found;
      pending, found := more, found + {path};
    }
    assert Elements(pending) == {} by { NothingPending(); }
    WorklistDone(tree, entries, forbidden, found);
    forall p | p in tree && Forced(tree, entries, {p}) ensures !Bad(tree, p, forbidden) {
      ForcedIsFound(tree, entries, found, p);
    }
    r := Found(found);
  }

  lemma NothingPending()
    ensures Elements([]) == {}
  {
  }
}
