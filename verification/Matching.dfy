/**
 * Scoring of an "ambiguous" benchmark case: do the candidate boxes pair off
 * one-to-one with the truth boxes?  The program decides this with Kuhn's
 * augmenting-path search over the bipartite graph "IoU at or above threshold".
 *
 * The main result is AmbiguousBoxesMatch: the search answers true exactly when
 * a complete pairing exists.  A failed search leaves behind a set of visited
 * candidates that violates Hall's condition, and that set is the proof.
 */
module Matching {
  datatype Box = Box(x: int, y: int, width: int, height: int)

  predicate Valid(b: Box) {
    b.width > 0 && b.height > 0
  }

  function Min(a: int, b: int): int { if a < b then a else b }

  function Max(a: int, b: int): int { if a < b then b else a }

  function Overlap(left: Box, right: Box): int {
    Max(0, Min(left.x + left.width, right.x + right.width) - Max(left.x, right.x))
    * Max(0, Min(left.y + left.height, right.y + right.height) - Max(left.y, right.y))
  }

  /** The area of the union is positive, so the quotient in Iou is defined. */
  lemma UnionIsPositive(left: Box, right: Box)
    requires Valid(left) && Valid(right)
    ensures left.width * left.height + right.width * right.height - Overlap(left, right) > 0
  {
    var w := Max(0, Min(left.x + left.width, right.x + right.width) - Max(left.x, right.x));
    var h := Max(0, Min(left.y + left.height, right.y + right.height) - Max(left.y, right.y));
    assert 0 <= w <= left.width && 0 <= h <= left.height;
    MultiplyMonotone(w, left.width, h, left.height);
    MultiplyMonotone(1, right.width, 1, right.height);
  }

  lemma MultiplyMonotone(a: int, b: int, c: int, d: int)
    requires 0 <= a <= b && 0 <= c <= d
    ensures a * c <= b * d
  {
    assert a * c <= b * c;
    assert b * c <= b * d;
  }

  function Iou(left: Box, right: Box): real
    requires Valid(left) && Valid(right)
  {
    UnionIsPositive(left, right);
    var intersection := Overlap(left, right);
    intersection as real
    / (left.width * left.height + right.width * right.height - intersection) as real
  }

  // ---------------------------------------------------------------- what the numbers count

  /** The integer points of a box. */
  ghost function Pixels(b: Box): set<(int, int)> {
    set x: int, y: int | b.x <= x < b.x + b.width && b.y <= y < b.y + b.height :: (x, y)
  }

  lemma {:induction false} ColumnCount(x: int, y: int, height: nat) returns (column: set<(int, int)>)
    ensures |column| == height && forall p: (int, int) :: p in column <==> p.0 == x && y <= p.1 < y + height
  {
    if height == 0 {
      column := {};
    } else {
      var rest := ColumnCount(x, y, height - 1);
      column := rest + {(x, y + height - 1)};
    }
  }

  lemma LastColumn(b: Box, column: set<(int, int)>)
    requires b.width > 0
    requires forall p: (int, int) :: p in column <==> p.0 == b.x + b.width - 1 && b.y <= p.1 < b.y + b.height
    ensures |Pixels(b)| == |Pixels(b.(width := b.width - 1))| + |column|
  {
    var rest := Pixels(b.(width := b.width - 1));
    assert Pixels(b) == rest + column && rest !! column;
  }

  lemma {:induction false} PixelCount(b: Box)
    requires b.width >= 0 && b.height >= 0
    ensures |Pixels(b)| == b.width * b.height
    decreases b.width
  {
    if b.width == 0 {
      assert Pixels(b) == {};
    } else {
      var rest := b.(width := b.width - 1);
      hide Pixels;
      PixelCount(rest);
      var column := ColumnCount(b.x + b.width - 1, b.y, b.height);
      LastColumn(b, column);
      OneMore(b.width, b.height);
    }
  }

  lemma OneMore(w: int, h: int)
    ensures w * h == (w - 1) * h + h
  {
  }

  /** The overlap is the number of common points, and the denominator of the IoU that of the points of either box. */
  lemma OverlapCounts(left: Box, right: Box)
    requires Valid(left) && Valid(right)
    ensures Overlap(left, right) == |Pixels(left) * Pixels(right)|
    ensures left.width * left.height + right.width * right.height - Overlap(left, right)
      == |Pixels(left) + Pixels(right)|
  {
    var x, y := Max(left.x, right.x), Max(left.y, right.y);
    var common := Box(x, y, Max(0, Min(left.x + left.width, right.x + right.width) - x),
                      Max(0, Min(left.y + left.height, right.y + right.height) - y));
    assert Pixels(common) == Pixels(left) * Pixels(right);
    PixelCount(common);
    PixelCount(left);
    PixelCount(right);
  }

  /** Two boxes are close enough: their common points outweigh the points of either, by counting. */
  ghost predicate SharesEnough(left: Box, right: Box, threshold: real) {
    |Pixels(left) * Pixels(right)| as real >= threshold * |Pixels(left) + Pixels(right)| as real
  }

  lemma IouIsRatio(left: Box, right: Box)
    requires Valid(left) && Valid(right)
    ensures |Pixels(left) + Pixels(right)| > 0
    ensures Iou(left, right) == |Pixels(left) * Pixels(right)| as real / |Pixels(left) + Pixels(right)| as real
  {
    OverlapCounts(left, right);
    UnionIsPositive(left, right);
    hide Pixels, Overlap;
  }

  /** The IoU compares these counts, and is at or above a threshold exactly then. */
  lemma IouCounts(left: Box, right: Box, threshold: real)
    requires Valid(left) && Valid(right)
    ensures |Pixels(left) + Pixels(right)| > 0
    ensures Iou(left, right) == |Pixels(left) * Pixels(right)| as real / |Pixels(left) + Pixels(right)| as real
    ensures Iou(left, right) >= threshold <==> SharesEnough(left, right, threshold)
  {
    IouIsRatio(left, right);
    hide Pixels, Overlap, Iou;
    QuotientCompares(|Pixels(left) * Pixels(right)| as real, |Pixels(left) + Pixels(right)| as real, threshold);
  }

  lemma QuotientCompares(a: real, b: real, threshold: real)
    requires b > 0.0
    ensures a / b >= threshold <==> a >= threshold * b
  {
    var q := a / b;
    assert a == q * b;
    if q >= threshold {
      assert (q - threshold) * b >= 0.0;
    } else {
      assert (threshold - q) * b > 0.0;
    }
  }

  lemma RatioOfCounts(a: nat, b: nat)
    requires a <= b && b > 0
    ensures 0.0 <= a as real / b as real <= 1.0
    ensures a as real / b as real == 1.0 <==> a == b
    ensures a as real / b as real == 0.0 <==> a == 0
  {
    QuotientCompares(a as real, b as real, 1.0);
    QuotientCompares(a as real, b as real, 0.0);
  }

  /** It is symmetric, between 0 and 1, 1 exactly for equal boxes, and 0 exactly for boxes without a common point. */
  lemma IouIsSimilarity(left: Box, right: Box)
    requires Valid(left) && Valid(right)
    ensures Iou(left, right) == Iou(right, left) && 0.0 <= Iou(left, right) <= 1.0
    ensures Iou(left, right) == 1.0 <==> left == right
    ensures Iou(left, right) == 0.0 <==> Pixels(left) * Pixels(right) == {}
  {
    hide Pixels, Overlap, Iou;
    var a, b := Pixels(left), Pixels(right);
    IouCounts(left, right, 0.0);
    IouCounts(right, left, 0.0);
    assert a * b == b * a && a + b == b + a;
    SubsetIsSmaller(a * b, a + b);
    RatioOfCounts(|a * b|, |a + b|);
    assert |a * b| == 0 <==> a * b == {};
    if a == b {
      CornersDecide(left, right);
    }
    assert a * b == a + b <==> a == b by {
      if a * b == a + b {
        assert forall p :: p in a <==> p in b;
      }
    }
  }

  lemma {:induction false} SubsetIsSmaller(a: set<(int, int)>, b: set<(int, int)>)
    requires a <= b
    ensures |a| <= |b| && (|a| == |b| ==> a == b)
  {
    assert b == a + (b - a);
  }

  /** A box is determined by its points. */
  lemma CornersDecide(left: Box, right: Box)
    requires Valid(left) && Valid(right) && Pixels(left) == Pixels(right)
    ensures left == right
  {
    assert (left.x, left.y) in Pixels(left) && (right.x, right.y) in Pixels(right);
    assert (left.x + left.width - 1, left.y + left.height - 1) in Pixels(left);
    assert (right.x + right.width - 1, right.y + right.height - 1) in Pixels(right);
  }

  // ---------------------------------------------------------------- the graph

  /** The two lists of boxes and the threshold. */
  datatype Problem = Problem(candidates: seq<Box>, truth: seq<Box>, threshold: real) {
    predicate Ok() {
      (forall b | b in candidates :: Valid(b)) && (forall b | b in truth :: Valid(b))
    }

    predicate Close(c: nat, t: nat)
      requires Ok()
    {
      c < |candidates| && t < |truth| && Iou(candidates[c], truth[t]) >= threshold
    }

    ghost function Closeness(): Graph
      requires Ok()
    {
      var edges := set c: nat, t: nat | c < |candidates| && t < |truth| && Close(c, t) :: (c, t);
      Graph(|candidates|, |truth|, edges)
    }
  }

  /** A bipartite graph: candidates below `left`, truth boxes below `right`. */
  datatype Graph = Graph(left: nat, right: nat, edges: set<(nat, nat)>) {
    predicate Edge(c: nat, t: nat) {
      (c, t) in edges && c < left && t < right
    }
  }

  /** pairing[t] is the candidate paired with truth box t; no candidate is used twice or left over. */
  ghost predicate Pairs(g: Graph, pairing: seq<nat>) {
    && |pairing| == g.right == g.left
    && (forall t | 0 <= t < |pairing| :: g.Edge(pairing[t], t))
    && (forall t, u | 0 <= t < |pairing| && 0 <= u < |pairing| && t != u :: pairing[t] != pairing[u])
  }

  ghost predicate Matchable(g: Graph) {
    exists pairing :: Pairs(g, pairing)
  }

  // ---------------------------------------------------------------- partial matchings

  /** m maps candidates to truth boxes along edges. */
  ghost predicate Along(g: Graph, m: map<nat, nat>)
  {
    forall c | c in m :: g.Edge(c, m[c])
  }

  ghost predicate Injective(m: map<nat, nat>) {
    forall c, d | c in m && d in m && c != d :: m[c] != m[d]
  }

  /** Every candidate that truth box t is matched to lies in `seen`. */
  ghost predicate HeldWithin(m: map<nat, nat>, t: nat, seen: set<nat>) {
    forall c | c in m && m[c] == t :: c in seen
  }

  /** All neighbours of t lie in `seen`. */
  ghost predicate Exhausted(g: Graph, t: nat, seen: set<nat>)
  {
    forall c: nat | g.Edge(c, t) :: c in seen
  }

  /** Every candidate visited since `before` is matched, and its partner's neighbours were all visited. */
  ghost predicate Explored(g: Graph, m: map<nat, nat>, before: set<nat>, seen: set<nat>)
  {
    forall c | c in seen && c !in before :: c in m && Exhausted(g, m[c], seen)
  }

  /**
   * The effect of a successful search for truth box t started with `before` visited:
   * t gains one candidate outside `before`, no candidate in `before` changes hands,
   * no truth box loses its last candidate, and the only truth box that can now hold
   * two candidates is t itself (its old one in `before`, and the new one).
   */
  ghost predicate Reassigned(g: Graph, m: map<nat, nat>, m': map<nat, nat>, t: nat, before: set<nat>)
  {
    && Along(g, m')
    && m'.Values == m.Values + {t}
    && (exists k :: k in m' && m'[k] == t && k !in before)
    && (forall c | c in before :: (c in m <==> c in m') && (c in m ==> m'[c] == m[c]))
    && (forall c, d | c in m' && d in m' && c != d && m'[c] == m'[d] ::
          m'[c] == t && (c in before || d in before))
  }

  /** Taking a free candidate. */
  lemma TakeFree(g: Graph, m: map<nat, nat>, c: nat, t: nat, before: set<nat>)
    requires Along(g, m) && Injective(m) && HeldWithin(m, t, before)
    requires c !in m && c !in before && g.Edge(c, t)
    ensures Reassigned(g, m, m[c := t], t, before)
  {
    var m' := m[c := t];
    assert c in m' && m'[c] == t;
    assert m'.Values == m.Values + {t} by {
      forall v ensures v in m'.Values <==> v in m.Values + {t} {
        if v in m.Values { var k :| k in m && m[k] == v; assert k in m' && m'[k] == v; }
      }
    }
  }

  /** Taking a candidate whose previous partner found another one. */
  lemma TakeOver(g: Graph, m: map<nat, nat>, mid: map<nat, nat>, c: nat, t: nat,
                 before: set<nat>, seen: set<nat>)
    requires Injective(m) && HeldWithin(m, t, before)
    requires c in m && c !in before && g.Edge(c, t)
    requires before + {c} <= seen && Reassigned(g, m, mid, m[c], seen)
    ensures Reassigned(g, m, mid[c := t], t, before)
  {
    var previous, m' := m[c], mid[c := t];
    assert previous in m.Values;
    assert c in mid && mid[c] == previous;
    var k :| k in mid && mid[k] == previous && k !in seen;
    assert c in m' && m'[c] == t;
    TakeOverValues(m, mid, previous, c, k, t);
    forall d, e | d in m' && e in m' && d != e && m'[d] == m'[e]
      ensures m'[d] == t && (d in before || e in before)
    {
      if d != c && e != c {
        OnlyTwoHolders(g, m, mid, previous, c, d, e, seen);
      } else {
        HeldOnlyBefore(g, m, mid, t, previous, if d == c then e else d, before, seen);
      }
    }
  }

  lemma TakeOverValues(m: map<nat, nat>, mid: map<nat, nat>, previous: nat, c: nat, k: nat, t: nat)
    requires mid.Values == m.Values + {previous} && previous in m.Values
    requires c in mid && mid[c] == previous && k in mid && mid[k] == previous && k != c
    ensures mid[c := t].Values == m.Values + {t}
  {
    var m' := mid[c := t];
    forall v ensures v in m'.Values <==> v in m.Values + {t} {
      if v in m.Values {
        assert v in mid.Values;
        var d :| d in mid && mid[d] == v;
        assert m'[if d == c then k else d] == v;
      }
      if v == t {
        assert m'[c] == v;
      }
      if v in m'.Values {
        var d :| d in m' && m'[d] == v;
        assert d == c || v in mid.Values;
      }
    }
  }

  /** After the inner search, `previous` holds exactly c and one candidate outside `seen`. */
  lemma OnlyTwoHolders(g: Graph, m: map<nat, nat>, mid: map<nat, nat>, previous: nat,
                       c: nat, d: nat, e: nat, seen: set<nat>)
    requires Injective(m) && Reassigned(g, m, mid, previous, seen)
    requires c in m && m[c] == previous && c in seen
    requires d in mid && e in mid && d != e && d != c && e != c
    ensures mid[d] != mid[e]
  {
    var x := if d in seen then d else e;
    if x in seen && x in m {
      assert m[x] != m[c];
    }
  }

  /** The inner search gave t nothing new. */
  lemma HeldOnlyBefore(g: Graph, m: map<nat, nat>, mid: map<nat, nat>, t: nat, previous: nat,
                       d: nat, before: set<nat>, seen: set<nat>)
    requires Injective(m) && HeldWithin(m, t, before) && before <= seen
    requires previous != t && previous in m.Values && Reassigned(g, m, mid, previous, seen)
    requires d in mid && mid[d] == t
    ensures d in before
  {
    assert t in mid.Values;
    assert t in m.Values;
    var h :| h in m && m[h] == t;
    assert h in before && mid[h] == t;
    assert d == h;
  }

  // ---------------------------------------------------------------- the search

  ghost function Below(n: nat): (s: set<nat>)
    ensures forall c: nat :: c in s <==> c < n
  {
    if n == 0 then {} else Below(n - 1) + {n - 1}
  }

  /** The dictionary `matches` and the set `visited` that the nested searches share. */
  class Search {
    const p: Problem
    var matches: map<nat, nat>
    var visited: set<nat>

    ghost predicate Ready(g: Graph)
      reads this
    {
      && p.Ok() && g.left == |p.candidates| && g.right == |p.truth|
      && (forall c: nat, t: nat :: g.Edge(c, t) <==> p.Close(c, t))
      && Along(g, matches) && Injective(matches) && visited <= Below(g.left)
    }

    constructor (p: Problem)
      ensures this.p == p && matches == map[] && visited == {}
    {
      this.p, matches, visited := p, map[], {};
    }

    /**
     * One augmenting-path search.  On failure nothing is reassigned and every candidate
     * reachable along alternating paths has been visited; on success t gains a candidate.
     */
    method Assign(t: nat, ghost g: Graph) returns (found: bool)
      requires Ready(g) && t < g.right && HeldWithin(matches, t, visited)
      modifies this
      ensures old(visited) <= visited <= Below(g.left)
      ensures found ==> Reassigned(g, old(matches), matches, t, old(visited))
      ensures !found ==> matches == old(matches) && Exhausted(g, t, visited)
      ensures !found ==> Explored(g, matches, old(visited), visited)
      decreases Below(g.left) - visited
    {
      ghost var before, m := visited, matches;
      for index := 0 to |p.candidates|
        invariant matches == m && before <= visited <= Below(g.left)
        invariant forall c: nat | c < index && g.Edge(c, t) :: c in visited
        invariant Explored(g, m, before, visited)
      {
        if index in visited || !p.Close(index, t) {
          continue;
        }
        ghost var outer := visited;
        visited := visited + {index};
        if index !in matches {
          TakeFree(g, m, index, t, before);
          matches := matches[index := t];
          return true;
        }
        assert index in Below(g.left) - outer && index !in Below(g.left) - visited;
        ghost var seen := visited;
        var moved := Assign(matches[index], g);
        if moved {
          TakeOver(g, m, matches, index, t, before, seen);
          matches := matches[index := t];
          return true;
        }
        ExploreMore(g, m, before, outer, index, visited);
      }
      return false;
    }
  }

  /** A failed inner search for the partner of `index` extends what has been explored. */
  lemma ExploreMore(g: Graph, m: map<nat, nat>, before: set<nat>, outer: set<nat>, index: nat, seen: set<nat>)
    requires Explored(g, m, before, outer) && index in m
    requires outer + {index} <= seen && Exhausted(g, m[index], seen)
    requires Explored(g, m, outer + {index}, seen)
    ensures Explored(g, m, before, seen)
  {
    forall c | c in seen && c !in before ensures c in m && Exhausted(g, m[c], seen) {
      if c in outer {
        assert Exhausted(g, m[c], outer);
      }
    }
  }

  // ---------------------------------------------------------------- why failure means no pairing

  /** The partners of the candidates in w, as many as there are candidates. */
  lemma {:induction false} Partners(m: map<nat, nat>, w: set<nat>) returns (ts: set<nat>)
    requires Injective(m) && forall c | c in w :: c in m
    ensures |ts| == |w| && forall t | t in ts :: exists c :: c in w && m[c] == t
  {
    if w == {} {
      ts := {};
    } else {
      var c :| c in w;
      var rest := Partners(m, w - {c});
      ts := rest + {m[c]};
      forall t | t in ts ensures exists d :: d in w && m[d] == t {
        if t != m[c] { var d :| d in w - {c} && m[d] == t; assert d in w; }
      }
    }
  }

  /** The candidates that a pairing gives to the truth boxes in ts. */
  lemma {:induction false} Chosen(g: Graph, pairing: seq<nat>, ts: set<nat>) returns (cs: set<nat>)
    requires Pairs(g, pairing) && forall t | t in ts :: t < g.right
    ensures |cs| == |ts| && forall c | c in cs :: exists t :: t in ts && pairing[t] == c
  {
    if ts == {} {
      cs := {};
    } else {
      var t :| t in ts;
      var rest := Chosen(g, pairing, ts - {t});
      cs := rest + {pairing[t]};
      forall c | c in cs ensures exists u :: u in ts && pairing[u] == c {
        if c != pairing[t] { var u :| u in ts - {t} && pairing[u] == c; assert u in ts; }
      }
    }
  }

  lemma {:induction false} SubsetSize(a: set<nat>, b: set<nat>)
    requires a <= b
    ensures |a| <= |b|
  {
    if a != {} {
      var x :| x in a;
      SubsetSize(a - {x}, b - {x});
    }
  }

  /** Hall's condition fails: the unmatched t and the partners of w have all their neighbours in w. */
  lemma HallViolator(g: Graph, m: map<nat, nat>, t: nat, w: set<nat>)
    requires Along(g, m) && Injective(m) && t < g.right && t !in m.Values
    requires Exhausted(g, t, w) && Explored(g, m, {}, w)
    ensures !Matchable(g)
  {
    if Matchable(g) {
      var pairing :| Pairs(g, pairing);
      var partners := Partners(m, w);
      forall u | u in partners ensures u < g.right && u != t && Exhausted(g, u, w) {
        var c :| c in w && m[c] == u;
        assert g.Edge(c, m[c]);
      }
      var cs := Chosen(g, pairing, partners + {t});
      forall c | c in cs ensures c in w {
        var u :| u in partners + {t} && pairing[u] == c;
        assert g.Edge(pairing[u], u);
      }
      SubsetSize(cs, w);
      assert false;
    }
  }

  ghost predicate Covers(m: map<nat, nat>, n: nat) {
    forall t: nat :: t in m.Values <==> t < n
  }

  lemma Uncovered(m: map<nat, nat>, t: nat)
    requires Covers(m, t)
    ensures t !in m.Values && HeldWithin(m, t, {})
  {
    forall c | c in m ensures m[c] != t {
      assert m[c] in m.Values;
    }
  }

  /** A matching that covers every truth box is a pairing. */
  lemma CoveredIsMatchable(g: Graph, m: map<nat, nat>)
    requires g.left == g.right && Along(g, m) && Covers(m, g.right)
    ensures Matchable(g)
  {
    var pairing := Holders(m, g.right);
    assert Pairs(g, pairing);
  }

  lemma {:induction false} Holders(m: map<nat, nat>, n: nat) returns (holders: seq<nat>)
    requires forall t: nat | t < n :: t in m.Values
    ensures |holders| == n && forall t | 0 <= t < n :: holders[t] in m && m[holders[t]] == t
  {
    if n == 0 {
      holders := [];
    } else {
      var rest := Holders(m, n - 1);
      var last: nat := n - 1;
      assert last in m.Values;
      var c :| c in m && m[c] == last;
      holders := rest + [c];
    }
  }

  /** A successful search from a fresh visited set extends the matching by t. */
  lemma Extended(g: Graph, m: map<nat, nat>, m': map<nat, nat>, t: nat)
    requires Covers(m, t) && Reassigned(g, m, m', t, {})
    ensures Along(g, m') && Injective(m') && Covers(m', t + 1)
  {
  }

  /** One top-level search: `assign(index, set())`. */
  method AssignFresh(search: Search, t: nat, ghost g: Graph) returns (found: bool)
    requires search.Ready(g) && t < g.right && Covers(search.matches, t)
    modifies search
    ensures search.Ready(g)
    ensures found ==> Covers(search.matches, t + 1)
    ensures !found ==> !Matchable(g)
  {
    hide Covers, Along, Injective, HeldWithin, Exhausted, Explored, Reassigned, Matchable, Below;
    search.visited := {};
    ghost var m := search.matches;
    Uncovered(m, t);
    found := search.Assign(t, g);
    if found {
      Extended(g, m, search.matches, t);
    } else {
      HallViolator(g, m, t, search.visited);
    }
  }

  /** `all(assign(index, set()) for index in range(len(truth)))` */
  method AssignAll(search: Search, ghost g: Graph) returns (ok: bool)
    requires search.Ready(g) && search.matches == map[] && g.left == g.right
    modifies search
    ensures ok <==> Matchable(g)
  {
    for index := 0 to |search.p.truth|
      invariant search.Ready(g) && Covers(search.matches, index)
    {
      var found := AssignFresh(search, index, g);
      if !found {
        return false;
      }
    }
    CoveredIsMatchable(g, search.matches);
    return true;
  }

  /** pairing[t] is the candidate for truth box t: each box is used once, and each pair shares enough points. */
  ghost predicate PairsUp(pairing: seq<nat>, candidates: seq<Box>, truth: seq<Box>, threshold: real) {
    && |pairing| == |truth| == |candidates|
    && (forall t | 0 <= t < |pairing| ::
      pairing[t] < |candidates| && SharesEnough(candidates[pairing[t]], truth[t], threshold))
    && forall t, u | 0 <= t < u < |pairing| :: pairing[t] != pairing[u]
  }

  lemma PairsIffPairsUp(p: Problem, pairing: seq<nat>)
    requires p.Ok()
    ensures Pairs(p.Closeness(), pairing) <==> PairsUp(pairing, p.candidates, p.truth, p.threshold)
  {
    hide SharesEnough, Iou;
    forall c: nat, t: nat | c < |p.candidates| && t < |p.truth|
      ensures p.Closeness().Edge(c, t) <==> SharesEnough(p.candidates[c], p.truth[t], p.threshold)
    {
      IouCounts(p.candidates[c], p.truth[t], p.threshold);
    }
    if PairsUp(pairing, p.candidates, p.truth, p.threshold) {
      forall t | 0 <= t < |pairing| ensures p.Closeness().Edge(pairing[t], t) {
      }
    }
  }

  /** Main result: the answer is true exactly when the two lists pair off completely. */
  method AmbiguousBoxesMatch(candidates: seq<Box>, truth: seq<Box>, threshold: real) returns (ok: bool)
    requires Problem(candidates, truth, threshold).Ok()
    ensures ok <==> exists pairing :: PairsUp(pairing, candidates, truth, threshold)
  {
    var p := Problem(candidates, truth, threshold);
    forall pairing ensures Pairs(p.Closeness(), pairing) <==> PairsUp(pairing, candidates, truth, threshold) {
      PairsIffPairsUp(p, pairing);
    }
    hide PairsUp;
    if |candidates| != |truth| {
      assert !Matchable(p.Closeness());
      return false;
    }
    var search := new Search(p);
    ok := AssignAll(search, p.Closeness());
  }
}
