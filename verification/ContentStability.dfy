/**
 * The proof that two frames show the same content: the control trees agree but for the names of toolbar leaves,
 * and no pixel changed outside the boxes of those leaves.
 */
module ContentStability {
  import opened Values
  import opened ContentTree

  type Image = seq<seq<int>> // rows of pixels

  predicate Sized(image: Image, width: nat, height: nat) {
    |image| == height && forall y | 0 <= y < height :: |image[y]| == width
  }

  // ---------------------------------------------------------------- names

  function Lower(c: char): char {
    if 'A' <= c <= 'Z' then (c as int + 32) as char else c
  }

  function LowerAll(s: string): (r: string)
    ensures |r| == |s| && forall i | 0 <= i < |s| :: r[i] == Lower(s[i])
  {
    if s == "" then "" else [Lower(s[0])] + LowerAll(s[1..])
  }

  predicate NamesUrl(name: string) {
    exists i | 0 <= i < |name| :: StartsUrl(LowerAll(name[i..]))
  }

  predicate StartsUrl(s: string) {
    "http://" <= s || "https://" <= s || "file://" <= s || "ftp://" <= s
  }

  /** The same letter, up to case. */
  predicate SameLetter(c: char, small: char) {
    c == small || ('a' <= small <= 'z' && c as int + 32 == small as int)
  }

  predicate StartsInAnyCase(name: string, text: string) {
    |text| <= |name| && forall k | 0 <= k < |text| :: SameLetter(name[k], text[k])
  }

  /** A URL starts somewhere in the name, in any case. */
  lemma UrlMeans(name: string)
    ensures NamesUrl(name) <==> exists i, scheme | 0 <= i < |name| && scheme in {"http", "https", "file", "ftp"} ::
      StartsInAnyCase(name[i..], scheme + "://")
  {
    forall i | 0 <= i < |name|
      ensures StartsUrl(LowerAll(name[i..])) <==>
        exists scheme | scheme in {"http", "https", "file", "ftp"} :: StartsInAnyCase(name[i..], scheme + "://")
    {
      SchemeMeans(name[i..]);
      hide LowerAll, StartsUrl, StartsInAnyCase;
    }
    hide LowerAll, StartsUrl, StartsInAnyCase;
  }

  lemma SchemeMeans(s: string)
    ensures StartsUrl(LowerAll(s)) <==>
      exists scheme | scheme in {"http", "https", "file", "ftp"} :: StartsInAnyCase(s, scheme + "://")
  {
    LowerMeans(s, "http" + "://");
    LowerMeans(s, "https" + "://");
    LowerMeans(s, "file" + "://");
    LowerMeans(s, "ftp" + "://");
    assert "http" + "://" == "http://" && "https" + "://" == "https://";
    assert "file" + "://" == "file://" && "ftp" + "://" == "ftp://";
    hide LowerAll, StartsInAnyCase;
  }

  lemma LowerMeans(s: string, text: string)
    requires forall k | 0 <= k < |text| :: !('A' <= text[k] <= 'Z')
    ensures text <= LowerAll(s) <==> StartsInAnyCase(s, text)
  {
    hide LowerAll;
    if text <= LowerAll(s) {
      forall k | 0 <= k < |text| ensures SameLetter(s[k], text[k]) {
        assert text[k] == LowerAll(s)[k] == Lower(s[k]);
      }
    }
    if StartsInAnyCase(s, text) {
      forall k | 0 <= k < |text| ensures text[k] == LowerAll(s)[k] {
        assert SameLetter(s[k], text[k]) && LowerAll(s)[k] == Lower(s[k]);
      }
    }
  }

  predicate Shown(name: Option<string>) {
    name.Some? && !Blank(name.value) && !NamesUrl(name.value)
  }

  // ---------------------------------------------------------------- content

  predicate IdIn(id: string, controls: seq<Control>) {
    exists c | c in controls :: c.id == id
  }

  predicate InContent(c: Control, documents: seq<Control>) {
    IdIn(c.id, documents) || exists a | a in c.ancestors :: IdIn(a, documents)
  }

  /** Content and what encloses a document may not change at all. */
  predicate Protected(c: Control, documents: seq<Control>) {
    InContent(c, documents) || exists d | d in documents :: c.id in d.ancestors
  }

  /** The content is what lies in any visible document, however the documents are nested. */
  lemma ContentIsInDocuments(scan: Scan, c: Control)
    requires Sound(scan) && c in scan.controls
    ensures InContent(c, Documents(Index(scan.controls), scan.controls)) <==>
      VisibleDocument(c) || exists d | d in scan.controls :: VisibleDocument(d) && d.id in c.ancestors
  {
    var indexed := Index(scan.controls);
    var documents := Documents(indexed, scan.controls);
    IndexHolds(scan.controls);
    Indexed(scan.controls, c);
    hide Index, Outermost, Sound, Distinct, ChainFits;
    if InContent(c, documents) {
      var d :| d in documents && (d.id == c.id || d.id in c.ancestors);
      IsVisible(indexed, d);
      Indexed(scan.controls, d) by { SoundIsDistinct(scan); }
    }
    if VisibleDocument(c) {
      EnclosingDocument(scan, c);
    }
    if d :| d in scan.controls && VisibleDocument(d) && d.id in c.ancestors {
      EnclosingDocument(scan, d);
      var top :| top in documents && (top.id == d.id || top.id in d.ancestors);
      if top.id != d.id {
        AncestorsOfAncestors(scan, c, d, top.id);
      }
    }
  }

  lemma SoundIsDistinct(scan: Scan)
    requires Sound(scan)
    ensures Distinct(scan.controls) && Consistent(ChainsOf(Index(scan.controls)))
  {
    hide Distinct, Consistent, Index, Identified, OneWindowRoot;
  }

  lemma IsVisible(indexed: map<string, Control>, c: Control)
    requires Outermost(indexed, c)
    ensures VisibleDocument(c)
  {
  }

  lemma EnclosingDocument(scan: Scan, c: Control)
    requires Sound(scan) && c in scan.controls && VisibleDocument(c)
    ensures exists d | d in Documents(Index(scan.controls), scan.controls) :: d.id == c.id || d.id in c.ancestors
  {
    var indexed := Index(scan.controls);
    SoundIsDistinct(scan);
    IndexHolds(scan.controls);
    Indexed(scan.controls, c);
    hide Index, Sound, Distinct, Consistent;
    OutermostExists(indexed, c.id);
    var d :| d in indexed && Outermost(indexed, indexed[d]) && (d == c.id || d in c.ancestors);
    assert indexed[d] in Documents(indexed, scan.controls);
  }

  /** Ancestry is transitive. */
  lemma AncestorsOfAncestors(scan: Scan, c: Control, d: Control, a: string)
    requires Sound(scan) && c in scan.controls && d in scan.controls && d.id in c.ancestors && a in d.ancestors
    ensures a in c.ancestors
  {
    var chains := ChainsOf(Index(scan.controls));
    SoundIsDistinct(scan);
    Indexed(scan.controls, c);
    Indexed(scan.controls, d);
    hide Index, Sound, Distinct;
    assert ChainFits(chains, c.id);
    var i :| 0 <= i < |c.ancestors| && c.ancestors[i] == d.id;
    assert chains[d.id] == c.ancestors[i + 1..];
  }

  // ---------------------------------------------------------------- the comparison of the trees

  predicate Structural(c: Control) {
    c.kind in {"Group", "Pane", "Window", "ToolBar"} && c.name in {None, Some("")} && OnlyInvokes(c)
  }

  predicate OnlyInvokes(c: Control) {
    forall p | p in c.patterns :: p in {"Invoke", "InvokePattern"}
  }

  /** A visible leaf of a button, text or image type that only changed its name. */
  predicate RenamedLeaf(controls: seq<Control>, a: Control, b: Control) {
    && a.(name := None) == b.(name := None) && Shown(a.name) && Shown(b.name) && a.visible == Some(true)
    && a.kind in {"Button", "Text", "Image"} && OnlyInvokes(a)
    && forall c | c in controls :: a.id !in c.ancestors
  }

  /** The nearest enclosing tool bar holds the leaf and is not protected itself. */
  predicate OnToolbar(indexed: map<string, Control>, documents: seq<Control>, a: Control) {
    exists i | 0 <= i < |a.ancestors| && NearestToolbar(indexed, a, i) ::
      !Protected(indexed[a.ancestors[i]], documents) && Contains(indexed[a.ancestors[i]].box, a.box)
  }

  predicate NearestToolbar(indexed: map<string, Control>, a: Control, i: nat)
    requires i < |a.ancestors|
  {
    && a.ancestors[i] in indexed && indexed[a.ancestors[i]].kind == "ToolBar"
    && forall j | 0 <= j < i :: a.ancestors[j] in indexed ==> indexed[a.ancestors[j]].kind != "ToolBar"
  }

  /** No content and no other visible control that could be hit shares a pixel with the leaf. */
  predicate Alone(controls: seq<Control>, documents: seq<Control>, a: Control) {
    && (forall c | c in controls :: InContent(c, documents) ==> !Overlaps(a.box, c.box))
    && forall c | c in controls ::
      c.id == a.id || c.id in a.ancestors || Structural(c) || c.visible == Some(false) || !Overlaps(a.box, c.box)
  }

  predicate Allowed(scan: Scan, tree: Tree, viewport: Box, a: Control, b: Control) {
    && !Protected(a, tree.documents) && RenamedLeaf(scan.controls, a, b) && Contains(viewport, a.box)
    && OnToolbar(tree.indexed, tree.documents, a) && Alone(scan.controls, tree.documents, a)
  }

  /** Boxes are relative to the window, and documents lie inside it. */
  predicate Placed(scan: Scan, tree: Tree, window: Box) {
    && (forall c | c in scan.controls ::
      c.screenBox == Box(c.box.x + window.x, c.box.y + window.y, c.box.w, c.box.h))
    && forall d | d in tree.documents :: Contains(Box(0, 0, window.w, window.h), d.box)
  }

  function TreeOf(scan: Scan): Tree {
    Tree(Index(scan.controls), Documents(Index(scan.controls), scan.controls))
  }

  predicate SameFrame(original: Scan, current: Scan) {
    && original.count == |original.controls| && current.count == |current.controls|
    && original.(controls := []) == current.(controls := [])
  }

  /** The trees agree but for allowed renames. */
  predicate TreesMatch(original: Scan, current: Scan, window: Box) {
    && Sound(original) && Sound(current)
    && Placed(original, TreeOf(original), window) && Placed(current, TreeOf(current), window)
    && TreeOf(original).documents == TreeOf(current).documents && SameFrame(original, current)
    && forall i | 0 <= i < |original.controls| ::
      original.controls[i] != current.controls[i] ==>
      Allowed(original, TreeOf(original), Box(0, 0, window.w, window.h), original.controls[i], current.controls[i])
  }

  predicate InRenamed(original: Scan, current: Scan, x: int, y: int)
    requires |original.controls| == |current.controls|
  {
    exists i | 0 <= i < |original.controls| ::
      original.controls[i] != current.controls[i] && original.controls[i].box.Holds(x, y)
  }

  /** No pixel changed outside the renamed leaves. */
  predicate PixelsMatch(original: Scan, current: Scan, before: Image, after: Image, width: nat, height: nat)
    requires |original.controls| == |current.controls| && Sized(before, width, height) && Sized(after, width, height)
  {
    forall y, x | 0 <= y < height && 0 <= x < width :: before[y][x] == after[y][x] || InRenamed(original, current, x, y)
  }

  predicate FramesMatch(original: Scan, current: Scan, window: Box, before: Image, after: Image)
    requires window.Proper()
  {
    && TreesMatch(original, current, window)
    && Sized(before, window.w, window.h) && Sized(after, window.w, window.h)
    && PixelsMatch(original, current, before, after, window.w, window.h)
  }

  /** Renames leave the shape alone: ids, ancestor lists and boxes agree at every place. */
  lemma SameShape(original: Scan, current: Scan, window: Box, i: nat)
    requires TreesMatch(original, current, window) && i < |original.controls|
    ensures original.controls[i].(name := None) == current.controls[i].(name := None)
  {
    hide Sound, Placed, TreeOf, Protected, OnToolbar, Alone, Shown, OnlyInvokes;
  }

  /** Accepted frames show the same content: no control in a document changed, and no pixel in one. */
  lemma ContentIsUntouched(original: Scan, current: Scan, window: Box, before: Image, after: Image, i: nat, x: nat,
                           y: nat)
    requires window.Proper() && FramesMatch(original, current, window, before, after)
    requires i < |original.controls| && InContent(original.controls[i], TreeOf(original).documents)
    ensures current.controls[i] == original.controls[i]
    ensures InContent(current.controls[i], TreeOf(current).documents)
    ensures original.controls[i].box.Holds(x, y) && x < window.w && y < window.h ==> before[y][x] == after[y][x]
  {
    hide Sound, Placed, TreeOf, InContent, RenamedLeaf, OnToolbar;
    var c := original.controls[i];
    forall k | 0 <= k < |original.controls| && original.controls[k] != current.controls[k]
      ensures !(original.controls[k].box.Holds(x, y) && c.box.Holds(x, y))
    {
      assert !Overlaps(original.controls[k].box, c.box);
    }
  }

  /** A visible button, text or image without children, and both of its names say something. */
  predicate ToolbarLeaf(controls: seq<Control>, a: Control, name: Option<string>) {
    && a.visible == Some(true) && (a.kind == "Button" || a.kind == "Text" || a.kind == "Image")
    && (forall p | p in a.patterns :: p == "Invoke" || p == "InvokePattern")
    && (forall c | c in controls :: a.id !in c.ancestors)
    && a.name.Some? && name.Some? && !Blank(a.name.value) && !Blank(name.value)
    && !NamesUrl(a.name.value) && !NamesUrl(name.value)
  }

  /** What else may lie under a changed pixel: ancestors of the leaf, the invisible, and nameless containers. */
  predicate Harmless(leaf: Control, c: Control) {
    || c.id == leaf.id || c.id in leaf.ancestors || c.visible == Some(false)
    || (&& (c.kind == "Group" || c.kind == "Pane" || c.kind == "Window" || c.kind == "ToolBar")
        && (c.name == None || c.name == Some(""))
        && forall p | p in c.patterns :: p == "Invoke" || p == "InvokePattern")
  }

  /**
   * A control that changed in accepted frames, and a pixel of its box: the pixel lies in an enclosing tool bar, in
   * no control of a document, and otherwise only in controls that nobody could hit instead.
   */
  lemma ChangedLeaf(original: Scan, current: Scan, window: Box, i: nat, x: int, y: int) returns (toolbar: Control)
    requires TreesMatch(original, current, window) && i < |original.controls|
    requires original.controls[i] != current.controls[i] && original.controls[i].box.Holds(x, y)
    ensures var a, b := original.controls[i], current.controls[i];
      && b == a.(name := b.name) && ToolbarLeaf(original.controls, a, b.name) && 0 <= x < window.w && 0 <= y < window.h
      && toolbar.id in a.ancestors && toolbar.kind == "ToolBar" && toolbar.box.Holds(x, y)
      && toolbar in original.controls && !Protected(toolbar, TreeOf(original).documents)
      && forall c | c in original.controls && c.box.Holds(x, y) ::
        !InContent(c, TreeOf(original).documents) && Harmless(a, c)
  {
    var a, b, tree := original.controls[i], current.controls[i], TreeOf(original);
    IndexHolds(original.controls);
    assert tree.indexed == Index(original.controls) && SameFrame(original, current);
    assert Allowed(original, tree, Box(0, 0, window.w, window.h), a, b);
    hide *;
    RenamedIsLeaf(original, tree, Box(0, 0, window.w, window.h), a, b, x, y);
    toolbar := EnclosingToolbar(tree.indexed, tree.documents, a, x, y);
    forall c | c in original.controls && c.box.Holds(x, y)
      ensures !InContent(c, tree.documents) && Harmless(a, c)
    {
      UnderTheLeaf(original.controls, tree.documents, a, c, x, y);
    }
  }

  lemma RenamedIsLeaf(scan: Scan, tree: Tree, viewport: Box, a: Control, b: Control, x: int, y: int)
    requires Allowed(scan, tree, viewport, a, b) && a.box.Holds(x, y)
    ensures b == a.(name := b.name) && ToolbarLeaf(scan.controls, a, b.name) && viewport.Holds(x, y)
    ensures OnToolbar(tree.indexed, tree.documents, a) && Alone(scan.controls, tree.documents, a)
  {
    RenamedMeans(scan.controls, a, b);
    hide OnToolbar, Alone, Protected, ToolbarLeaf, RenamedLeaf;
  }

  lemma RenamedMeans(controls: seq<Control>, a: Control, b: Control)
    ensures RenamedLeaf(controls, a, b) <==> b == a.(name := b.name) && ToolbarLeaf(controls, a, b.name)
  {
    hide Blank, NamesUrl;
  }

  lemma EnclosingToolbar(indexed: map<string, Control>, documents: seq<Control>, a: Control, x: int, y: int)
    returns (toolbar: Control)
    requires OnToolbar(indexed, documents, a) && a.box.Holds(x, y)
    requires forall id | id in indexed :: indexed[id].id == id
    ensures toolbar.id in a.ancestors && toolbar.kind == "ToolBar" && toolbar.box.Holds(x, y)
    ensures toolbar.id in indexed && toolbar == indexed[toolbar.id] && !Protected(toolbar, documents)
  {
    hide Protected;
    var k :| 0 <= k < |a.ancestors| && NearestToolbar(indexed, a, k)
      && !Protected(indexed[a.ancestors[k]], documents) && Contains(indexed[a.ancestors[k]].box, a.box);
    toolbar := indexed[a.ancestors[k]];
  }

  lemma UnderTheLeaf(controls: seq<Control>, documents: seq<Control>, a: Control, c: Control, x: int, y: int)
    requires Alone(controls, documents, a) && c in controls && a.box.Holds(x, y) && c.box.Holds(x, y)
    ensures !InContent(c, documents) && Harmless(a, c)
  {
    hide InContent;
    assert Overlaps(a.box, c.box);
  }

  /** A leaf is alone exactly when none of its pixels shows anything but itself and harmless controls. */
  lemma AloneIfHarmless(controls: seq<Control>, documents: seq<Control>, a: Control)
    requires a.box.Proper() && forall c | c in controls :: c.box.Proper()
    ensures Alone(controls, documents, a) <==>
      forall c, x, y | c in controls && a.box.Holds(x, y) && c.box.Holds(x, y) ::
        !InContent(c, documents) && Harmless(a, c)
  {
    hide InContent, Alone, Harmless;
    if Alone(controls, documents, a) {
      forall c, x, y | c in controls && a.box.Holds(x, y) && c.box.Holds(x, y)
        ensures !InContent(c, documents) && Harmless(a, c)
      {
        UnderTheLeaf(controls, documents, a, c, x, y);
      }
    } else {
      var c := NotAlone(controls, documents, a);
      OverlapIsSharedPixel(a.box, c.box);
    }
  }

  lemma NotAlone(controls: seq<Control>, documents: seq<Control>, a: Control) returns (c: Control)
    requires !Alone(controls, documents, a)
    ensures c in controls && Overlaps(a.box, c.box) && (InContent(c, documents) || !Harmless(a, c))
  {
    hide InContent, Overlaps;
    if c' :| c' in controls && InContent(c', documents) && Overlaps(a.box, c'.box) {
      c := c';
    } else {
      c :| c in controls && Overlaps(a.box, c.box) && !(
        c.id == a.id || c.id in a.ancestors || Structural(c) || c.visible == Some(false));
    }
  }

  /** In accepted frames, every changed pixel lies in the box of a leaf that was renamed. */
  lemma ChangedPixel(original: Scan, current: Scan, window: Box, before: Image, after: Image, x: nat, y: nat)
    returns (i: nat)
    requires window.Proper() && FramesMatch(original, current, window, before, after)
    requires x < window.w && y < window.h && before[y][x] != after[y][x]
    ensures i < |original.controls| && original.controls[i] != current.controls[i]
    ensures original.controls[i].box.Holds(x, y)
  {
    hide Sound, Placed, TreeOf, Allowed;
    assert SameFrame(original, current) && InRenamed(original, current, x, y);
    i :| 0 <= i < |original.controls| && original.controls[i] != current.controls[i]
      && original.controls[i].box.Holds(x, y);
  }

  // ---------------------------------------------------------------- `compare_content_context`

  /** One slice of the mask is cleared in place. */
  method ClearSlice(remaining: array2<bool>, box: Box)
    requires box.Proper() && Contains(Box(0, 0, remaining.Length1, remaining.Length0), box)
    modifies remaining
    ensures forall y, x | 0 <= y < remaining.Length0 && 0 <= x < remaining.Length1 ::
      remaining[y, x] == (old(remaining[y, x]) && !box.Holds(x, y))
  {
    for row := box.y to box.y + box.h
      invariant forall y, x | 0 <= y < remaining.Length0 && 0 <= x < remaining.Length1 ::
        remaining[y, x] == (old(remaining[y, x]) && !(box.Holds(x, y) && y < row))
    {
      for column := box.x to box.x + box.w
        invariant forall y, x | 0 <= y < remaining.Length0 && 0 <= x < remaining.Length1 ::
          remaining[y, x] == (old(remaining[y, x]) && !(box.Holds(x, y) && (y < row || (y == row && x < column))))
      {
        remaining[row, column] := false;
      }
    }
  }

  method AnyRemaining(remaining: array2<bool>) returns (found: bool)
    ensures found <==> exists y, x :: 0 <= y < remaining.Length0 && 0 <= x < remaining.Length1 && remaining[y, x]
  {
    for row := 0 to remaining.Length0
      invariant forall y, x | 0 <= y < row && 0 <= x < remaining.Length1 :: !remaining[y, x]
    {
      for column := 0 to remaining.Length1
        invariant forall x | 0 <= x < column :: !remaining[row, x]
      {
        if remaining[row, column] {
          return true;
        }
      }
    }
    found := false;
  }

  predicate InBoxes(boxes: seq<Box>, x: int, y: int) {
    exists b | b in boxes :: b.Holds(x, y)
  }

  method ComparePixels(before: Image, after: Image, width: nat, height: nat, boxes: seq<Box>) returns (same: bool)
    requires Sized(before, width, height) && Sized(after, width, height)
    requires forall b | b in boxes :: b.Proper() && Contains(Box(0, 0, width, height), b)
    ensures same <==> forall y, x | 0 <= y < height && 0 <= x < width ::
      before[y][x] == after[y][x] || InBoxes(boxes, x, y)
  {
    var remaining := new bool[height, width]((y, x) =>
      0 <= y < height && 0 <= x < width && |before| == height && |after| == height
      && |before[y]| == width && |after[y]| == width && before[y][x] != after[y][x]);
    for i := 0 to |boxes|
      invariant forall y, x | 0 <= y < height && 0 <= x < width ::
        remaining[y, x] == (before[y][x] != after[y][x] && !InBoxes(boxes[..i], x, y))
    {
      assert boxes[i] in boxes;
      ClearSlice(remaining, boxes[i]);
      forall y, x ensures InBoxes(boxes[..i + 1], x, y) <==> InBoxes(boxes[..i], x, y) || boxes[i].Holds(x, y) {
        InBoxesStep(boxes, i, x, y);
      }
    }
    assert boxes[..|boxes|] == boxes;
    var found := AnyRemaining(remaining);
    same := !found;
    forall y, x | same && 0 <= y < height && 0 <= x < width
      ensures before[y][x] == after[y][x] || InBoxes(boxes, x, y)
    {
      assert !remaining[y, x];
    }
  }

  lemma InBoxesStep(boxes: seq<Box>, i: nat, x: int, y: int)
    requires i < |boxes|
    ensures InBoxes(boxes[..i + 1], x, y) <==> InBoxes(boxes[..i], x, y) || boxes[i].Holds(x, y)
  {
    assert boxes[..i + 1] == boxes[..i] + [boxes[i]];
  }

  /** The boxes of the renamed controls, provided every change is an allowed rename. */
  method CollectChanges(original: Scan, current: Scan, tree: Tree, viewport: Box) returns (r: Option<seq<Box>>)
    requires |original.controls| == |current.controls|
    ensures r.Some? <==> forall i | 0 <= i < |original.controls| ::
      original.controls[i] != current.controls[i] ==>
        Allowed(original, tree, viewport, original.controls[i], current.controls[i])
    ensures r.Some? ==> forall b | b in r.value ::
      Contains(viewport, b) && exists c | c in original.controls :: c.box == b
    ensures r.Some? ==> forall x, y :: InBoxes(r.value, x, y) <==> InRenamed(original, current, x, y)
  {
    hide Protected, RenamedLeaf, OnToolbar, Alone;
    var boxes: seq<Box> := [];
    for i := 0 to |original.controls|
      invariant forall k | 0 <= k < i ::
        original.controls[k] != current.controls[k] ==>
          Allowed(original, tree, viewport, original.controls[k], current.controls[k])
      invariant forall b | b in boxes :: Contains(viewport, b) && exists c | c in original.controls :: c.box == b
      invariant forall b | b in boxes ::
        exists k :: 0 <= k < i && original.controls[k] != current.controls[k] && original.controls[k].box == b
      invariant forall k | 0 <= k < i ::
        original.controls[k] != current.controls[k] ==> original.controls[k].box in boxes
    {
      var a, b := original.controls[i], current.controls[i];
      if a != b {
        if !Allowed(original, tree, viewport, a, b) {
          return None;
        }
        assert a in original.controls;
        boxes := boxes + [a.box];
      }
    }
    r := Some(boxes);
  }

  /** The comparison accepts exactly the pairs of frames with matching trees and matching pixels. */
  method Compare(original: Scan, current: Scan, window: Box, before: Image, after: Image) returns (accepted: bool)
    requires window.Proper()
    ensures accepted <==> FramesMatch(original, current, window, before, after)
  {
    hide Sound, Placed, Allowed;
    var read := ReadTree(original);
    var reread := ReadTree(current);
    if read == None || reread == None {
      return false;
    }
    var tree := read.value;
    assert tree == TreeOf(original) && reread.value == TreeOf(current);
    hide TreeOf;
    if !Placed(original, tree, window) || !Placed(current, reread.value, window) {
      return false;
    }
    if tree.documents != reread.value.documents || !SameFrame(original, current) {
      return false;
    }
    var changes := CollectChanges(original, current, tree, Box(0, 0, window.w, window.h));
    if changes == None || !Sized(before, window.w, window.h) || !Sized(after, window.w, window.h) {
      return false;
    }
    forall b | b in changes.value ensures b.Proper() {
      var c :| c in original.controls && c.box == b;
      ProperBox(original, c);
    }
    accepted := ComparePixels(before, after, window.w, window.h, changes.value);
  }

  lemma ProperBox(scan: Scan, c: Control)
    requires Sound(scan) && c in scan.controls
    ensures c.box.Proper()
  {
    assert Identified(c);
  }
}
