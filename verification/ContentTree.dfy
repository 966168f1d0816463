/**
 * The ancestor lists of one control scan. Each control lists its ancestors, nearest first; the lists are accepted
 * only when they are the parent paths of one rooted tree.
 */
module ContentTree {
  import opened Values

  // ---------------------------------------------------------------- boxes

  datatype Box = Box(x: int, y: int, w: int, h: int) {
    predicate Proper() {
      w > 0 && h > 0
    }

    predicate Holds(px: int, py: int) {
      x <= px < x + w && y <= py < y + h
    }
  }

  predicate Contains(outer: Box, inner: Box) {
    && outer.x <= inner.x && outer.y <= inner.y
    && inner.x + inner.w <= outer.x + outer.w && inner.y + inner.h <= outer.y + outer.h
  }

  predicate Overlaps(first: Box, second: Box) {
    && first.x < second.x + second.w && second.x < first.x + first.w
    && first.y < second.y + second.h && second.y < first.y + first.h
  }

  /** A box contains another exactly when it holds all of its pixels. */
  lemma ContainsIsAllPixels(outer: Box, inner: Box)
    requires inner.Proper()
    ensures Contains(outer, inner) <==> forall px, py | inner.Holds(px, py) :: outer.Holds(px, py)
  {
    if forall px, py | inner.Holds(px, py) :: outer.Holds(px, py) {
      assert inner.Holds(inner.x, inner.y) && inner.Holds(inner.x + inner.w - 1, inner.y + inner.h - 1);
    }
  }

  /** Boxes overlap exactly when they share a pixel. */
  lemma OverlapIsSharedPixel(first: Box, second: Box)
    requires first.Proper() && second.Proper()
    ensures Overlaps(first, second) <==> exists px, py :: first.Holds(px, py) && second.Holds(px, py)
  {
    if Overlaps(first, second) {
      var px := if first.x < second.x then second.x else first.x;
      var py := if first.y < second.y then second.y else first.y;
      assert first.Holds(px, py) && second.Holds(px, py);
    }
  }

  // ---------------------------------------------------------------- ancestor lists

  type Chains = map<string, seq<string>>

  /** The checks on one control's list. */
  predicate ChainFits(chains: Chains, id: string)
    requires id in chains
  {
    var chain := chains[id];
    && (forall a | a in chain :: a in chains)
    && id !in chain && (forall i, j | 0 <= i < j < |chain| :: chain[i] != chain[j])
    && forall i | 0 <= i < |chain| :: chain[i] in chains && chains[chain[i]] == chain[i + 1..]
  }

  predicate Consistent(chains: Chains) {
    forall id | id in chains :: ChainFits(chains, id)
  }

  predicate OneRoot(chains: Chains, root: string) {
    root in chains && forall id | id in chains :: chains[id] == [] <==> id == root
  }

  /** The lists are the paths to `root` under the parent function `up`. */
  ghost predicate ParentPaths(chains: Chains, up: map<string, string>, root: string) {
    && root in chains && chains[root] == []
    && forall id | id in chains && id != root :: id in up && up[id] in chains && chains[id] == [up[id]] + chains[up[id]]
  }

  /** The lists pass the checks exactly when they are the parent paths of one rooted tree. */
  lemma ConsistentIffTree(chains: Chains, root: string)
    ensures Consistent(chains) && OneRoot(chains, root) <==> exists up :: ParentPaths(chains, up, root)
  {
    if Consistent(chains) && OneRoot(chains, root) {
      var up := map id | id in chains && id != root :: chains[id][0];
      forall id | id in chains && id != root
        ensures id in up && up[id] in chains && chains[id] == [up[id]] + chains[up[id]]
      {
        assert ChainFits(chains, id);
      }
      assert ParentPaths(chains, up, root);
    }
    if up :| ParentPaths(chains, up, root) {
      forall id | id in chains ensures ChainFits(chains, id) {
        PathFits(chains, up, root, id);
      }
    }
  }

  lemma {:induction false} PathFits(chains: Chains, up: map<string, string>, root: string, id: string)
    requires ParentPaths(chains, up, root) && id in chains
    ensures ChainFits(chains, id)
    decreases |chains[id]|
  {
    var chain := chains[id];
    if id != root {
      var parent := up[id];
      PathFits(chains, up, root, parent);
      assert forall i | 0 < i < |chain| :: chain[i] == chains[parent][i - 1];
      forall i | 0 <= i < |chain| ensures chain[i] in chains && chains[chain[i]] == chain[i + 1..] {
        if i > 0 {
          assert chains[chains[parent][i - 1]] == chains[parent][i..];
          assert chain[i + 1..] == chains[parent][i..];
        }
      }
      forall i | 0 <= i < |chain| ensures chain[i] != id {
        assert |chains[chain[i]]| < |chain|;
      }
      forall i, j | 0 <= i < j < |chain| ensures chain[i] != chain[j] {
        assert |chains[chain[j]]| < |chains[chain[i]]|;
      }
    }
  }

  /** Following parents from any control ends at the root after as many steps as its list is long. */
  function Climb(up: map<string, string>, id: string, steps: nat): string
    decreases steps
  {
    if steps == 0 || id !in up then id else Climb(up, up[id], steps - 1)
  }

  lemma {:induction false} ClimbsToRoot(chains: Chains, up: map<string, string>, root: string, id: string)
    requires ParentPaths(chains, up, root) && id in chains && root !in up
    ensures Climb(up, id, |chains[id]|) == root
    ensures forall i | 0 <= i < |chains[id]| :: chains[id][i] == Climb(up, id, i + 1)
    decreases |chains[id]|
  {
    if id != root {
      ClimbsToRoot(chains, up, root, up[id]);
      forall i | 0 <= i < |chains[id]| ensures chains[id][i] == Climb(up, id, i + 1) {
        if i > 0 {
          assert chains[id][i] == chains[up[id]][i - 1];
        }
      }
    }
  }

  // ---------------------------------------------------------------- scans

  datatype Control = Control(
    id: string, runtime: seq<int>, kind: string, name: Option<string>, visible: Option<bool>,
    patterns: seq<string>, box: Box, screenBox: Box, ancestors: seq<string>,
    rest: string) // enabled, automation id and class name

  /** `frame` stands for everything but the controls: provider, window, title, counts. */
  datatype Scan = Scan(controls: seq<Control>, whole: bool, budget: int, visited: int, frame: string, count: int)

  datatype Tree = Tree(indexed: map<string, Control>, documents: seq<Control>)

  predicate VisibleDocument(c: Control) {
    c.kind == "Document" && c.visible == Some(true)
  }

  predicate Identified(c: Control) {
    && c.id != "" && 1 <= |c.runtime| <= 64 && c.kind != "" && c.box.Proper() && c.screenBox.Proper()
    && forall i, j | 0 <= i < j < |c.patterns| :: c.patterns[i] != c.patterns[j]
  }

  predicate Distinct(controls: seq<Control>) {
    forall i, j | 0 <= i < j < |controls| ::
      controls[i].id != controls[j].id && controls[i].runtime != controls[j].runtime
  }

  function Index(controls: seq<Control>): map<string, Control> {
    if controls == [] then map[]
    else Index(controls[..|controls| - 1])[controls[|controls| - 1].id := controls[|controls| - 1]]
  }

  lemma {:induction false} IndexHolds(controls: seq<Control>)
    ensures forall id | id in Index(controls) :: Index(controls)[id] in controls && Index(controls)[id].id == id
    ensures forall c | c in controls :: c.id in Index(controls)
  {
    if controls != [] {
      IndexHolds(controls[..|controls| - 1]);
    }
  }

  lemma {:induction false} IndexFinds(controls: seq<Control>, i: nat)
    requires Distinct(controls) && i < |controls|
    ensures controls[i].id in Index(controls) && Index(controls)[controls[i].id] == controls[i]
  {
    if i < |controls| - 1 {
      IndexFinds(controls[..|controls| - 1], i);
    }
  }

  function ChainsOf(indexed: map<string, Control>): Chains {
    map id | id in indexed :: indexed[id].ancestors
  }

  predicate IsRoot(c: Control) {
    c.ancestors == []
  }

  predicate OneWindowRoot(indexed: map<string, Control>) {
    exists root | root in indexed :: OneRoot(ChainsOf(indexed), root) && indexed[root].kind == "Window"
  }

  /** A visible document that lies in no other visible document. */
  predicate Outermost(indexed: map<string, Control>, c: Control) {
    VisibleDocument(c) && forall a | a in c.ancestors :: a in indexed ==> !VisibleDocument(indexed[a])
  }

  function Documents(indexed: map<string, Control>, controls: seq<Control>): (r: seq<Control>)
    ensures forall c :: c in r <==> c in controls && Outermost(indexed, c)
  {
    if controls == [] then [] else
      (if Outermost(indexed, controls[0]) then [controls[0]] else []) + Documents(indexed, controls[1..])
  }

  /** A scan is a complete rooted tree with at least one visible document. */
  predicate Sound(scan: Scan) {
    && scan.whole && |scan.controls| <= scan.visited < scan.budget
    && (forall c | c in scan.controls :: Identified(c)) && Distinct(scan.controls)
    && var indexed := Index(scan.controls);
    && Consistent(ChainsOf(indexed)) && OneWindowRoot(indexed)
    && exists c | c in scan.controls :: VisibleDocument(c)
  }

  /** Every visible document lies in an outermost one, or is one. */
  lemma OutermostExists(indexed: map<string, Control>, id: string)
    requires Consistent(ChainsOf(indexed)) && id in indexed && VisibleDocument(indexed[id])
    ensures exists d | d in indexed :: Outermost(indexed, indexed[d]) && (d == id || d in indexed[id].ancestors)
    decreases |indexed[id].ancestors|
  {
    var chain := indexed[id].ancestors;
    assert ChainFits(ChainsOf(indexed), id);
    if !Outermost(indexed, indexed[id]) {
      var i :| 0 <= i < |chain| && VisibleDocument(indexed[chain[i]]);
      assert ChainsOf(indexed)[chain[i]] == chain[i + 1..];
      OutermostExists(indexed, chain[i]);
    }
  }

  // ---------------------------------------------------------------- `_tree`

  /** The scan is indexed, or refused. */
  method ReadTree(scan: Scan) returns (r: Option<Tree>)
    ensures r.Some? <==> Sound(scan)
    ensures r.Some? ==> r.value == Tree(Index(scan.controls), Documents(Index(scan.controls), scan.controls))
  {
    hide ChainFits, OneRoot, Identified;
    if !scan.whole || !(|scan.controls| <= scan.visited < scan.budget) {
      return None;
    }
    var distinct, indexed := IndexControls(scan.controls);
    if !distinct {
      return None;
    }
    var consistent := CheckChains(indexed, scan.controls);
    if !consistent {
      return None;
    }
    var rooted := CheckRoot(indexed, scan.controls);
    if !rooted {
      return None;
    }
    var documents := Documents(indexed, scan.controls);
    if documents == [] {
      NoDocuments(scan.controls);
      return None;
    }
    assert documents[0] in documents;
    r := Some(Tree(indexed, documents));
  }

  lemma NoDocuments(controls: seq<Control>)
    requires Distinct(controls) && Consistent(ChainsOf(Index(controls))) && Documents(Index(controls), controls) == []
    ensures forall c | c in controls :: !VisibleDocument(c)
  {
    hide ChainFits;
    IndexHolds(controls);
    forall i | 0 <= i < |controls| ensures !VisibleDocument(controls[i]) {
      IndexFinds(controls, i);
      if VisibleDocument(controls[i]) {
        OutermostExists(Index(controls), controls[i].id);
      }
    }
  }

  /** The index and the runtime ids are filled in one by one, and must be new. */
  method IndexControls(controls: seq<Control>) returns (ok: bool, indexed: map<string, Control>)
    ensures ok <==> (forall c | c in controls :: Identified(c)) && Distinct(controls)
    ensures ok ==> indexed == Index(controls)
  {
    hide Identified, Distinct, Index;
    indexed := map[];
    var runtimes: set<seq<int>> := {};
    NoneDistinct();
    for i := 0 to |controls|
      invariant forall c | c in controls[..i] :: Identified(c)
      invariant Distinct(controls[..i]) && indexed == Index(controls[..i])
      invariant runtimes == Runtimes(controls[..i])
    {
      var c := controls[i];
      DistinctStep(controls, i);
      if !Identified(c) || c.id in indexed || c.runtime in runtimes {
        return false, indexed;
      }
      indexed, runtimes := indexed[c.id := c], runtimes + {c.runtime};
    }
    assert controls[..|controls|] == controls;
    ok := true;
  }

  ghost function Runtimes(controls: seq<Control>): set<seq<int>> {
    set c | c in controls :: c.runtime
  }

  lemma NoneDistinct()
    ensures Distinct([]) && Index([]) == map[] && Runtimes([]) == {}
  {
  }

  lemma DistinctStep(controls: seq<Control>, i: nat)
    requires i < |controls| && Distinct(controls[..i])
    ensures Index(controls[..i + 1]) == Index(controls[..i])[controls[i].id := controls[i]]
    ensures Runtimes(controls[..i + 1]) == Runtimes(controls[..i]) + {controls[i].runtime}
    ensures Distinct(controls[..i + 1]) <==>
      controls[i].id !in Index(controls[..i]) && controls[i].runtime !in Runtimes(controls[..i])
    ensures Distinct(controls) ==> Distinct(controls[..i + 1])
  {
    assert controls[..i + 1] == controls[..i] + [controls[i]];
    assert (controls[..i] + [controls[i]])[..i] == controls[..i];
    hide Distinct;
    IdKnown(controls[..i], controls[i].id);
    RuntimeKnown(controls[..i], controls[i].runtime);
    DistinctSnoc(controls[..i], controls[i]);
    if Distinct(controls) {
      DistinctPrefix(controls, i + 1);
    }
  }

  lemma IdKnown(controls: seq<Control>, id: string)
    ensures id in Index(controls) <==> exists k :: 0 <= k < |controls| && controls[k].id == id
  {
    IndexHolds(controls);
    if id in Index(controls) {
      var k :| 0 <= k < |controls| && controls[k] == Index(controls)[id];
    }
  }

  lemma RuntimeKnown(controls: seq<Control>, runtime: seq<int>)
    ensures runtime in Runtimes(controls) <==> exists k :: 0 <= k < |controls| && controls[k].runtime == runtime
  {
  }

  lemma DistinctSnoc(controls: seq<Control>, c: Control)
    requires Distinct(controls)
    ensures Distinct(controls + [c]) <==>
      forall k | 0 <= k < |controls| :: controls[k].id != c.id && controls[k].runtime != c.runtime
  {
    var longer := controls + [c];
    if Distinct(longer) {
      forall k | 0 <= k < |controls| ensures controls[k].id != c.id && controls[k].runtime != c.runtime {
        assert longer[k].id != longer[|controls|].id && longer[k].runtime != longer[|controls|].runtime;
      }
    }
  }

  lemma DistinctPrefix(controls: seq<Control>, n: nat)
    requires Distinct(controls) && n <= |controls|
    ensures Distinct(controls[..n])
  {
  }

  method CheckChains(indexed: map<string, Control>, controls: seq<Control>) returns (ok: bool)
    requires Distinct(controls) && indexed == Index(controls)
    ensures ok <==> Consistent(ChainsOf(indexed))
  {
    hide ChainFits, Distinct, Index;
    IndexHolds(controls);
    for i := 0 to |controls|
      invariant forall c | c in controls[..i] :: ChainFits(ChainsOf(indexed), c.id)
    {
      assert controls[i] in controls;
      if !ChainFits(ChainsOf(indexed), controls[i].id) {
        return false;
      }
    }
    assert controls[..|controls|] == controls;
    ok := true;
  }

  /** The controls without ancestors are collected; there must be one, and it must be the window. */
  method CheckRoot(indexed: map<string, Control>, controls: seq<Control>) returns (ok: bool)
    requires Distinct(controls) && indexed == Index(controls)
    ensures ok <==> OneWindowRoot(indexed)
  {
    var roots: seq<Control> := [];
    for i := 0 to |controls|
      invariant forall c :: c in roots <==> c in controls[..i] && IsRoot(c)
      invariant forall j, k | 0 <= j < k < |roots| :: roots[j] != roots[k]
    {
      if IsRoot(controls[i]) {
        roots := roots + [controls[i]];
      }
    }
    assert controls[..|controls|] == controls;
    RootIsOnly(indexed, controls, roots);
    ok := |roots| == 1 && roots[0].kind == "Window";
  }

  lemma RootIsOnly(indexed: map<string, Control>, controls: seq<Control>, roots: seq<Control>)
    requires Distinct(controls) && indexed == Index(controls)
    requires forall c :: c in roots <==> c in controls && IsRoot(c)
    requires forall j, k | 0 <= j < k < |roots| :: roots[j] != roots[k]
    ensures OneWindowRoot(indexed) <==> |roots| == 1 && roots[0].kind == "Window"
  {
    hide Index, Distinct, OneRoot;
    if OneWindowRoot(indexed) {
      var root :| root in indexed && OneRoot(ChainsOf(indexed), root) && indexed[root].kind == "Window";
      RootIsListed(indexed, controls, roots, root);
    }
    if |roots| == 1 && roots[0].kind == "Window" {
      ListedIsRoot(indexed, controls, roots);
    }
  }

  lemma RootIsListed(indexed: map<string, Control>, controls: seq<Control>, roots: seq<Control>, root: string)
    requires Distinct(controls) && indexed == Index(controls) && root in indexed && OneRoot(ChainsOf(indexed), root)
    requires forall c :: c in roots <==> c in controls && IsRoot(c)
    requires forall j, k | 0 <= j < k < |roots| :: roots[j] != roots[k]
    ensures roots == [indexed[root]]
  {
    hide Index, Distinct;
    IndexHolds(controls);
    assert indexed[root] in roots;
    forall j | 0 <= j < |roots| ensures roots[j] == indexed[root] {
      assert roots[j] in roots;
      Indexed(controls, roots[j]);
      assert ChainsOf(indexed)[roots[j].id] == [];
    }
    assert roots[|roots| - 1] == roots[0];
  }

  lemma ListedIsRoot(indexed: map<string, Control>, controls: seq<Control>, roots: seq<Control>)
    requires Distinct(controls) && indexed == Index(controls) && |roots| == 1
    requires forall c :: c in roots <==> c in controls && IsRoot(c)
    ensures roots[0].id in indexed && indexed[roots[0].id] == roots[0] && OneRoot(ChainsOf(indexed), roots[0].id)
  {
    hide Index, Distinct;
    IndexHolds(controls);
    assert roots[0] in roots;
    Indexed(controls, roots[0]);
    forall id | id in indexed ensures ChainsOf(indexed)[id] == [] <==> id == roots[0].id {
      if IsRoot(indexed[id]) {
        assert indexed[id] in roots;
      }
    }
  }

  lemma Indexed(controls: seq<Control>, c: Control)
    requires Distinct(controls) && c in controls
    ensures c.id in Index(controls) && Index(controls)[c.id] == c
  {
    var k :| 0 <= k < |controls| && controls[k] == c;
    IndexFinds(controls, k);
  }
}
