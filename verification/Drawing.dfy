/** What is drawn on an output, in order, and what a point on it hits: one the mirror of the other. */
module Drawing {
  import opened Base
  import opened Links
  import opened Descent
  import opened Surfaces
  import opened Forest
  import opened Cascade

  /** A surface as it comes up in a walk, and where. */
  datatype Drawn = Drawn(surface: Key, at: Point)

  datatype Size = Size(width: int, height: int)

  /** Where a layer surface has been arranged, in global coordinates, and whether it may be shown yet. */
  datatype Layer = Layer(configured: bool, at: Point)

  /** One output: its origin, the layer surfaces under and over its windows, and its windows, bottom to top. */
  datatype Output = Output(origin: Point, below: seq<Key>, windows: seq<Key>, above: seq<Key>)

  /**
   The desktop as both walks see it: the size of each surface that has one, and the surfaces
   for whose buffer there is an image to draw.
   */
  datatype Desktop = Desktop(
    surfaces: SurfaceMap, outputs: seq<Output>, layers: map<Key, Layer>, sizes: map<Key, Size>, images: set<Key>)

  // ----- One tree -----

  /** How much a walk down from `k` has before it. */
  ghost function Room(m: SurfaceMap, k: Key): nat
    requires EndsBelow(m, k)
  {
    Effort(ListedGraph(m), k)
  }

  lemma ChildHasLessRoom(m: SurfaceMap, k: Key, id: nat)
    requires EndsBelow(m, k) && k in m && id in m[k].children
    ensures EndsBelow(m, Key(k.client, id)) && Room(m, Key(k.client, id)) < Room(m, k)
  {
    ChildTakesLess(ListedGraph(m), k, Key(k.client, id));
  }

  /** Where a child goes, if it is still there. */
  function ChildAt(m: SurfaceMap, child: Key, at: Point): Point {
    if child in m then SatMove(at, m[child].subsurfacePosition) else at
  }

  /** The surfaces of a tree in the order they are come to: each before its children, those back to front. */
  function Walk(m: SurfaceMap, k: Key, at: Point): seq<Drawn>
    requires EndsBelow(m, k)
    decreases Room(m, k), 1, 0
  {
    if k !in m then [] else [Drawn(k, at)] + WalkKids(m, k, at, |m[k].children|)
  }

  /** The first `n` children. */
  function WalkKids(m: SurfaceMap, k: Key, at: Point, n: nat): seq<Drawn>
    requires EndsBelow(m, k) && k in m && n <= |m[k].children|
    decreases Room(m, k), 0, n
  {
    if n == 0 then [] else
      var child := Key(k.client, m[k].children[n - 1]);
      ChildHasLessRoom(m, k, m[k].children[n - 1]);
      WalkKids(m, k, at, n - 1) + Walk(m, child, ChildAt(m, child, at))
  }

  function WithImages(images: set<Key>, walk: seq<Drawn>): seq<Drawn> {
    if walk == [] then [] else
      var last := walk[|walk| - 1];
      WithImages(images, walk[..|walk| - 1]) + (if last.surface in images then [last] else [])
  }

  /** `push_surface_tree`: nothing is pushed for a surface with nothing to draw, but its children still are. */
  method PushSurfaceTree(m: SurfaceMap, images: set<Key>, elements: seq<Drawn>, k: Key, at: Point)
    returns (pushed: seq<Drawn>)
    requires EndsBelow(m, k)
    ensures pushed == elements + WithImages(images, Walk(m, k, at))
    decreases Room(m, k), 1
  {
    pushed := elements;
    if k !in m { return; }
    if k in images { pushed := pushed + [Drawn(k, at)]; }
    assert WithImages(images, [Drawn(k, at)]) == if k in images then [Drawn(k, at)] else [];
    for i := 0 to |m[k].children|
      invariant pushed == elements + WithImages(images, [Drawn(k, at)] + WalkKids(m, k, at, i))
    {
      KidPushed(m, images, elements, k, at, i);
      pushed := PushChild(m, images, pushed, k, at, i);
    }
  }

  /** The body of that loop: a child that is no longer there is passed over. */
  method PushChild(m: SurfaceMap, images: set<Key>, elements: seq<Drawn>, k: Key, at: Point, i: nat)
    returns (pushed: seq<Drawn>)
    requires EndsBelow(m, k) && k in m && i < |m[k].children|
    ensures (ChildHasLessRoom(m, k, m[k].children[i]);
      var child := Key(k.client, m[k].children[i]);
      pushed == elements + WithImages(images, Walk(m, child, ChildAt(m, child, at))))
    decreases Room(m, k), 0
  {
    var child := Key(k.client, m[k].children[i]);
    ChildHasLessRoom(m, k, m[k].children[i]);
    pushed := elements;
    if child in m { pushed := PushSurfaceTree(m, images, pushed, child, SatMove(at, m[child].subsurfacePosition)); }
  }

  lemma OneMoreKid(m: SurfaceMap, k: Key, at: Point, i: nat)
    requires EndsBelow(m, k) && k in m && i < |m[k].children|
    ensures EndsBelow(m, Key(k.client, m[k].children[i]))
    ensures var child := Key(k.client, m[k].children[i]);
      WalkKids(m, k, at, i + 1) == WalkKids(m, k, at, i) + Walk(m, child, ChildAt(m, child, at))
  {
    ChildHasLessRoom(m, k, m[k].children[i]);
  }

  lemma PushedTogether(images: set<Key>, elements: seq<Drawn>, own: seq<Drawn>, before: seq<Drawn>, more: seq<Drawn>)
    ensures elements + WithImages(images, own + (before + more))
         == elements + WithImages(images, own + before) + WithImages(images, more)
  {
    assert own + (before + more) == own + before + more;
    WithImagesConcat(images, own + before, more);
    assert elements + (WithImages(images, own + before) + WithImages(images, more))
        == elements + WithImages(images, own + before) + WithImages(images, more);
  }

  lemma KidPushed(m: SurfaceMap, images: set<Key>, elements: seq<Drawn>, k: Key, at: Point, i: nat)
    requires EndsBelow(m, k) && k in m && i < |m[k].children|
    ensures EndsBelow(m, Key(k.client, m[k].children[i]))
    ensures var child, own := Key(k.client, m[k].children[i]), [Drawn(k, at)];
      elements + WithImages(images, own + WalkKids(m, k, at, i + 1))
        == elements + WithImages(images, own + WalkKids(m, k, at, i))
           + WithImages(images, Walk(m, child, ChildAt(m, child, at)))
  {
    var child := Key(k.client, m[k].children[i]);
    OneMoreKid(m, k, at, i);
    PushedTogether(images, elements, [Drawn(k, at)], WalkKids(m, k, at, i), Walk(m, child, ChildAt(m, child, at)));
  }

  lemma {:induction false} WithImagesConcat(images: set<Key>, a: seq<Drawn>, b: seq<Drawn>)
    ensures WithImages(images, a + b) == WithImages(images, a) + WithImages(images, b)
  {
    if b == [] {
      assert a + b == a;
    } else {
      assert (a + b)[..|a + b| - 1] == a + b[..|b| - 1];
      WithImagesConcat(images, a, b[..|b| - 1]);
    }
  }

  lemma ChildIsLinked(m: SurfaceMap, k: Key, id: nat)
    requires Fine(m) && k in m && id in m[k].children
    ensures Key(k.client, id) in ParentsOf(m) && ParentsOf(m)[Key(k.client, id)] == k
  {
    assert ListSound(m, k);
  }

  /** At or below one of the first `n` children. */
  ghost predicate BelowKids(m: SurfaceMap, k: Key, n: nat, x: Key)
    requires Rooted(m) && k in m && n <= |m[k].children|
  {
    exists i :: 0 <= i < n && Above(ParentsOf(m), Key(k.client, m[k].children[i]), x)
  }

  lemma BelowKidsIsBelow(m: SurfaceMap, k: Key, n: nat, x: Key)
    requires Fine(m) && k in m && n <= |m[k].children| && BelowKids(m, k, n, x)
    ensures Above(ParentsOf(m), k, x) && x != k
  {
    var par := ParentsOf(m);
    var i :| 0 <= i < n && Above(par, Key(k.client, m[k].children[i]), x);
    var child := Key(k.client, m[k].children[i]);
    ChildIsLinked(m, k, child.id);
    DepthStep(par, child);
    assert Above(par, k, k);
    AboveTransitive(par, k, child, x);
    AboveDepth(par, child, x);
  }

  lemma {:induction false} TreeBelow(m: SurfaceMap, k: Key, at: Point, e: Drawn)
    requires Fine(m) && EndsBelow(m, k) && e in Walk(m, k, at)
    ensures e.surface in m && Above(ParentsOf(m), k, e.surface)
    decreases |Walk(m, k, at)|, 0, 0
  {
    if e != Drawn(k, at) {
      KidsBelow(m, k, at, |m[k].children|, e);
      BelowKidsIsBelow(m, k, |m[k].children|, e.surface);
    }
  }

  lemma {:induction false} KidsBelow(m: SurfaceMap, k: Key, at: Point, n: nat, e: Drawn)
    requires Fine(m) && EndsBelow(m, k) && k in m && n <= |m[k].children| && e in WalkKids(m, k, at, n)
    ensures e.surface in m && BelowKids(m, k, n, e.surface)
    decreases |WalkKids(m, k, at, n)|, 1, n
  {
    if e in WalkKids(m, k, at, n - 1) {
      KidsBelow(m, k, at, n - 1, e);
    } else {
      var child := Key(k.client, m[k].children[n - 1]);
      OneMoreKid(m, k, at, n - 1);
      TreeBelow(m, child, ChildAt(m, child, at), e);
    }
  }

  /** On sound lists a walk stays at or below where it started. */
  lemma WalkBelow(m: SurfaceMap, k: Key, at: Point)
    requires Fine(m)
    ensures EndsBelow(m, k)
    ensures forall e :: e in Walk(m, k, at) ==> e.surface in m && Above(ParentsOf(m), k, e.surface)
  {
    FineEnds(m, k);
    forall e | e in Walk(m, k, at) ensures e.surface in m && Above(ParentsOf(m), k, e.surface) {
      TreeBelow(m, k, at, e);
    }
  }

  ghost predicate EachOnce(walk: seq<Drawn>) {
    forall i, j :: 0 <= i < j < |walk| ==> walk[i].surface != walk[j].surface
  }

  lemma {:induction false} TreeOnce(m: SurfaceMap, k: Key, at: Point, i: nat, j: nat)
    requires Fine(m) && EndsBelow(m, k) && i < j < |Walk(m, k, at)|
    ensures Walk(m, k, at)[i].surface != Walk(m, k, at)[j].surface
    decreases |Walk(m, k, at)|, 0, 0
  {
    var n := |m[k].children|;
    if i == 0 {
      KidsBelow(m, k, at, n, WalkKids(m, k, at, n)[j - 1]);
      BelowKidsIsBelow(m, k, n, WalkKids(m, k, at, n)[j - 1].surface);
    } else {
      KidsOnce(m, k, at, n, i - 1, j - 1);
    }
  }

  lemma {:induction false} KidsOnce(m: SurfaceMap, k: Key, at: Point, n: nat, i: nat, j: nat)
    requires Fine(m) && EndsBelow(m, k) && k in m && n <= |m[k].children| && i < j < |WalkKids(m, k, at, n)|
    ensures WalkKids(m, k, at, n)[i].surface != WalkKids(m, k, at, n)[j].surface
    decreases |WalkKids(m, k, at, n)|, 1, n
  {
    var child, a := Key(k.client, m[k].children[n - 1]), WalkKids(m, k, at, n - 1);
    OneMoreKid(m, k, at, n - 1);
    var b := Walk(m, child, ChildAt(m, child, at));
    if j < |a| {
      KidsOnce(m, k, at, n - 1, i, j);
    } else if i < |a| {
      KidBelowApart(m, k, child, at, n, a[i], b[j - |a|]);
    } else {
      TreeOnce(m, child, ChildAt(m, child, at), i - |a|, j - |a|);
    }
  }

  lemma KidBelowApart(m: SurfaceMap, k: Key, child: Key, at: Point, n: nat, x: Drawn, y: Drawn)
    requires Fine(m) && EndsBelow(m, k) && EndsBelow(m, child) && k in m && 0 < n <= |m[k].children|
    requires child == Key(k.client, m[k].children[n - 1])
    requires x in WalkKids(m, k, at, n - 1) && y in Walk(m, child, ChildAt(m, child, at))
    ensures x.surface != y.surface
  {
    KidsBelow(m, k, at, n - 1, x);
    TreeBelow(m, child, ChildAt(m, child, at), y);
    KidApart(m, k, n, x.surface, y.surface);
  }

  /** On sound lists nothing is drawn twice. */
  lemma WalkOnce(m: SurfaceMap, k: Key, at: Point)
    requires Fine(m)
    ensures EndsBelow(m, k) && EachOnce(Walk(m, k, at))
  {
    FineEnds(m, k);
    forall i, j | 0 <= i < j < |Walk(m, k, at)| ensures Walk(m, k, at)[i].surface != Walk(m, k, at)[j].surface {
      TreeOnce(m, k, at, i, j);
    }
  }

  /** What is walked below one child is not walked below those before it. */
  lemma KidApart(m: SurfaceMap, k: Key, n: nat, x: Key, y: Key)
    requires Fine(m) && k in m && 0 < n <= |m[k].children|
    requires BelowKids(m, k, n - 1, x) && Above(ParentsOf(m), Key(k.client, m[k].children[n - 1]), y)
    ensures x != y
  {
    var c :| 0 <= c < n - 1 && Above(ParentsOf(m), Key(k.client, m[k].children[c]), x);
    SiblingsApart(m, k, c, n - 1, x);
  }

  /** No surface is below two children of one parent. */
  lemma SiblingsApart(m: SurfaceMap, k: Key, i: nat, j: nat, x: Key)
    requires Fine(m) && k in m && i < j < |m[k].children|
    requires Above(ParentsOf(m), Key(k.client, m[k].children[i]), x)
    ensures !Above(ParentsOf(m), Key(k.client, m[k].children[j]), x)
  {
    var par, a, b := ParentsOf(m), Key(k.client, m[k].children[i]), Key(k.client, m[k].children[j]);
    assert ListSound(m, k);
    ChildIsLinked(m, k, a.id);
    ChildIsLinked(m, k, b.id);
    if Above(par, b, x) {
      AboveLinear(par, a, b, x);
      DepthStep(par, a);
      DepthStep(par, b);
      if Above(par, a, b) { AboveDepth(par, a, b); } else { AboveDepth(par, b, a); }
    }
  }

  // ----- What a point hits -----

  predicate RectContains(r: Rect, p: Point) {
    p.x >= r.x && p.y >= r.y && p.x < SatAdd(r.x, r.width) && p.y < SatAdd(r.y, r.height)
  }

  /** `region_contains`: the last operation to cover the point decides. */
  predicate RegionContains(rects: seq<RegionRect>, p: Point) {
    rects != [] &&
      var last := rects[|rects| - 1];
      if RectContains(last.area, p) then last.op.Add? else RegionContains(rects[..|rects| - 1], p)
  }

  method RegionContainsPoint(rects: seq<RegionRect>, p: Point) returns (inside: bool)
    ensures inside == RegionContains(rects, p)
  {
    inside := false;
    for i := 0 to |rects|
      invariant inside == RegionContains(rects[..i], p)
    {
      assert rects[..i + 1][..i] == rects[..i];
      if RectContains(rects[i].area, p) { inside := rects[i].op.Add?; }
    }
    assert rects[..|rects|] == rects;
  }

  function SizeOf(d: Desktop, k: Key): Size { if k in d.sizes then d.sizes[k] else Size(0, 0) }

  predicate Sized(d: Desktop, k: Key) { SizeOf(d, k).width != 0 && SizeOf(d, k).height != 0 }

  /** Whether a surface at `e.at` covers the point and takes input there. */
  predicate Accepts(d: Desktop, e: Drawn, p: Point) {
    && e.surface in d.surfaces
    && Sized(d, e.surface)
    && RectContains(Rect(e.at.x, e.at.y, SizeOf(d, e.surface).width, SizeOf(d, e.surface).height), p)
    && (d.surfaces[e.surface].inputRegion.Some? ==>
          RegionContains(d.surfaces[e.surface].inputRegion.value, Point(SatAdd(p.x, -e.at.x), SatAdd(p.y, -e.at.y))))
  }

  /** `hit_test_surface_tree`: the children front to back, each with all below it, and then the surface. */
  function HitTree(d: Desktop, k: Key, at: Point, p: Point): Option<Drawn>
    requires EndsBelow(d.surfaces, k)
    decreases Room(d.surfaces, k), 1, 0
  {
    if k !in d.surfaces then None else
      var hit := HitKids(d, k, at, p, |d.surfaces[k].children|);
      if hit.Some? then hit else if Accepts(d, Drawn(k, at), p) then Some(Drawn(k, at)) else None
  }

  function HitKids(d: Desktop, k: Key, at: Point, p: Point, n: nat): Option<Drawn>
    requires EndsBelow(d.surfaces, k) && k in d.surfaces && n <= |d.surfaces[k].children|
    decreases Room(d.surfaces, k), 0, n
  {
    if n == 0 then None else
      var child := Key(k.client, d.surfaces[k].children[n - 1]);
      ChildHasLessRoom(d.surfaces, k, d.surfaces[k].children[n - 1]);
      var hit := HitTree(d, child, ChildAt(d.surfaces, child, at), p);
      if hit.Some? then hit else HitKids(d, k, at, p, n - 1)
  }

  /** The last of a list to accept the point: of things drawn in this order, the topmost. */
  function Topmost(d: Desktop, list: seq<Drawn>, p: Point): Option<Drawn> {
    if list == [] then None
    else if Accepts(d, list[|list| - 1], p) then Some(list[|list| - 1])
    else Topmost(d, list[..|list| - 1], p)
  }

  /** What `Topmost` finds accepts the point, and nothing after it does. */
  lemma {:induction false} TopmostIsLast(d: Desktop, list: seq<Drawn>, p: Point)
    ensures Topmost(d, list, p).None? <==> forall i :: 0 <= i < |list| ==> !Accepts(d, list[i], p)
    ensures Topmost(d, list, p).Some? ==> exists i ::
      && 0 <= i < |list| && list[i] == Topmost(d, list, p).value && Accepts(d, list[i], p)
      && forall j :: i < j < |list| ==> !Accepts(d, list[j], p)
  {
    if list != [] {
      var rest := list[..|list| - 1];
      TopmostIsLast(d, rest, p);
      if Accepts(d, list[|list| - 1], p) {
        assert list[|list| - 1] == Topmost(d, list, p).value;
      } else {
        assert forall i :: 0 <= i < |rest| ==> rest[i] == list[i];
      }
    }
  }

  lemma {:induction false} TopmostConcat(d: Desktop, a: seq<Drawn>, b: seq<Drawn>, p: Point)
    ensures Topmost(d, a + b, p) == if Topmost(d, b, p).Some? then Topmost(d, b, p) else Topmost(d, a, p)
  {
    if b == [] {
      assert a + b == a;
    } else {
      assert (a + b)[..|a + b| - 1] == a + b[..|b| - 1];
      TopmostConcat(d, a, b[..|b| - 1], p);
    }
  }

  /** The recursion that looks children first, front to back, finds the topmost of the walk that goes back to front. */
  lemma {:induction false} HitTreeIsTopmost(d: Desktop, k: Key, at: Point, p: Point)
    requires EndsBelow(d.surfaces, k)
    ensures HitTree(d, k, at, p) == Topmost(d, Walk(d.surfaces, k, at), p)
    decreases |Walk(d.surfaces, k, at)|, 0, 0
  {
    if k in d.surfaces {
      var kids := WalkKids(d.surfaces, k, at, |d.surfaces[k].children|);
      HitKidsIsTopmost(d, k, at, p, |d.surfaces[k].children|);
      TopmostConcat(d, [Drawn(k, at)], kids, p);
    }
  }

  lemma {:induction false} HitKidsIsTopmost(d: Desktop, k: Key, at: Point, p: Point, n: nat)
    requires EndsBelow(d.surfaces, k) && k in d.surfaces && n <= |d.surfaces[k].children|
    ensures HitKids(d, k, at, p, n) == Topmost(d, WalkKids(d.surfaces, k, at, n), p)
    decreases |WalkKids(d.surfaces, k, at, n)|, 1, n
  {
    if n > 0 {
      var child := Key(k.client, d.surfaces[k].children[n - 1]);
      OneMoreKid(d.surfaces, k, at, n - 1);
      HitTreeIsTopmost(d, child, ChildAt(d.surfaces, child, at), p);
      HitKidsIsTopmost(d, k, at, p, n - 1);
      KidHit(d, k, child, at, p, n);
    }
  }

  lemma KidHit(d: Desktop, k: Key, child: Key, at: Point, p: Point, n: nat)
    requires EndsBelow(d.surfaces, k) && k in d.surfaces && 0 < n <= |d.surfaces[k].children|
    requires child == Key(k.client, d.surfaces[k].children[n - 1]) && EndsBelow(d.surfaces, child)
    requires var to := ChildAt(d.surfaces, child, at);
      HitTree(d, child, to, p) == Topmost(d, Walk(d.surfaces, child, to), p)
    requires HitKids(d, k, at, p, n - 1) == Topmost(d, WalkKids(d.surfaces, k, at, n - 1), p)
    ensures HitKids(d, k, at, p, n) == Topmost(d, WalkKids(d.surfaces, k, at, n), p)
  {
    OneMoreKid(d.surfaces, k, at, n - 1);
    var to := ChildAt(d.surfaces, child, at);
    TopmostConcat(d, WalkKids(d.surfaces, k, at, n - 1), Walk(d.surfaces, child, to), p);
  }

  // ----- A whole output drawn -----

  function Minus(a: Point, b: Point): Point { Point(a.x - b.x, a.y - b.y) }

  function Plus(a: Point, b: Point): Point { Point(a.x + b.x, a.y + b.y) }

  /** Only an unconfigured layer surface may not be seen. */
  predicate Visible(d: Desktop, k: Key) { k in d.layers ==> d.layers[k].configured }

  /** Walks down from those of these that may be seen end. */
  ghost predicate Ending(d: Desktop, keys: seq<Key>) {
    forall k :: k in keys && Visible(d, k) ==> EndsBelow(d.surfaces, k)
  }

  /** Whether or not they may be seen. */
  ghost predicate AllEnding(d: Desktop, keys: seq<Key>) { forall k :: k in keys ==> EndsBelow(d.surfaces, k) }

  /** What drawing an output walks ends. */
  ghost predicate Drawable(d: Desktop, o: Output) {
    Ending(d, o.below) && AllEnding(d, o.windows) && Ending(d, o.above)
  }

  /** One band of layer surfaces, in the output's own coordinates. */
  function DrawLayers(d: Desktop, keys: seq<Key>, origin: Point): seq<Drawn>
    requires Ending(d, keys)
  {
    if keys == [] then [] else
      var k := keys[|keys| - 1];
      DrawLayers(d, keys[..|keys| - 1], origin)
      + (if k in d.layers && d.layers[k].configured
         then WithImages(d.images, Walk(d.surfaces, k, Minus(d.layers[k].at, origin))) else [])
  }

  function DrawWindows(d: Desktop, keys: seq<Key>, origin: Point): seq<Drawn>
    requires AllEnding(d, keys)
  {
    if keys == [] then [] else
      var k := keys[|keys| - 1];
      DrawWindows(d, keys[..|keys| - 1], origin)
      + (if k in d.surfaces
         then WithImages(d.images, Walk(d.surfaces, k, Minus(d.surfaces[k].position, origin))) else [])
  }

  /** The windows and layers `build` puts in the scene of one output, bottom to top. */
  function Scene(d: Desktop, o: Output): seq<Drawn>
    requires Drawable(d, o)
  {
    DrawLayers(d, o.below, o.origin) + DrawWindows(d, o.windows, o.origin) + DrawLayers(d, o.above, o.origin)
  }

  method PushLayers(d: Desktop, elements: seq<Drawn>, keys: seq<Key>, origin: Point) returns (pushed: seq<Drawn>)
    requires Ending(d, keys)
    ensures pushed == elements + DrawLayers(d, keys, origin)
  {
    pushed := elements;
    for i := 0 to |keys|
      invariant pushed == elements + DrawLayers(d, keys[..i], origin)
    {
      var k := keys[i];
      if k in d.layers && d.layers[k].configured {
        pushed := PushSurfaceTree(d.surfaces, d.images, pushed, k, Minus(d.layers[k].at, origin));
      }
      assert keys[..i + 1][..i] == keys[..i];
    }
    assert keys[..|keys|] == keys;
  }

  method PushWindows(d: Desktop, elements: seq<Drawn>, keys: seq<Key>, origin: Point) returns (pushed: seq<Drawn>)
    requires AllEnding(d, keys)
    ensures pushed == elements + DrawWindows(d, keys, origin)
  {
    pushed := elements;
    for i := 0 to |keys|
      invariant pushed == elements + DrawWindows(d, keys[..i], origin)
    {
      var k := keys[i];
      if k in d.surfaces {
        pushed := PushSurfaceTree(d.surfaces, d.images, pushed, k, Minus(d.surfaces[k].position, origin));
      }
      assert keys[..i + 1][..i] == keys[..i];
    }
    assert keys[..|keys|] == keys;
  }

  /** `build`, as far as windows and layers go. */
  method BuildScene(d: Desktop, o: Output) returns (elements: seq<Drawn>)
    requires Drawable(d, o)
    ensures elements == Scene(d, o)
  {
    elements := PushLayers(d, [], o.below, o.origin);
    elements := PushWindows(d, elements, o.windows, o.origin);
    elements := PushLayers(d, elements, o.above, o.origin);
  }

  // ----- A point tried against every output -----

  function Reverse(keys: seq<Key>): (r: seq<Key>)
    ensures forall k :: k in r <==> k in keys
  {
    if keys == [] then [] else
      assert keys == keys[..|keys| - 1] + [keys[|keys| - 1]];
      [keys[|keys| - 1]] + Reverse(keys[..|keys| - 1])
  }

  function AllAbove(outputs: seq<Output>): seq<Key> {
    if outputs == [] then [] else Reverse(outputs[0].above) + AllAbove(outputs[1..])
  }

  function AllWindows(outputs: seq<Output>): seq<Key> {
    if outputs == [] then [] else outputs[0].windows + AllWindows(outputs[1..])
  }

  function AllBelow(outputs: seq<Output>): seq<Key> {
    if outputs == [] then [] else Reverse(outputs[0].below) + AllBelow(outputs[1..])
  }

  /** `visible_toplevels_top_down`: what is above on every output, then every window, then what is below. */
  function TopDown(outputs: seq<Output>): seq<Key> {
    AllAbove(outputs) + Reverse(AllWindows(outputs)) + AllBelow(outputs)
  }

  /** `placed_position`. */
  function PlacedAt(d: Desktop, k: Key): Point {
    if k in d.layers then d.layers[k].at else if k in d.surfaces then d.surfaces[k].position else Point(0, 0)
  }

  predicate Shown(d: Desktop, k: Key) { k in d.surfaces && Visible(d, k) }

  /** The first of these trees, in this order, with anything in it to hit. */
  function HitFirst(d: Desktop, keys: seq<Key>, p: Point): Option<Drawn>
    requires Ending(d, keys)
  {
    if keys == [] then None else
      var hit := if Shown(d, keys[0]) then HitTree(d, keys[0], PlacedAt(d, keys[0]), p) else None;
      if hit.Some? then hit else HitFirst(d, keys[1..], p)
  }

  /** What trying every output walks ends. */
  ghost predicate Searchable(d: Desktop) { forall o :: o in d.outputs ==> Ending(d, KeysOf(o)) }

  /** The same of some of the outputs, by output and band by band. */
  ghost predicate Searched(d: Desktop, outputs: seq<Output>) {
    && (forall o :: o in outputs ==> Ending(d, KeysOf(o)))
    && Ending(d, AllAbove(outputs)) && Ending(d, AllWindows(outputs)) && Ending(d, AllBelow(outputs))
  }

  /** `hit_test`. */
  function HitTest(d: Desktop, p: Point): Option<Drawn>
    requires Searchable(d)
  {
    TopDownEnds(d, d.outputs);
    HitFirst(d, TopDown(d.outputs), p)
  }

  /** Every key tried is of some output. */
  lemma {:induction false} TopDownEnds(d: Desktop, outputs: seq<Output>)
    requires forall o :: o in outputs ==> Ending(d, KeysOf(o))
    ensures Searched(d, outputs)
  {
    if outputs != [] {
      TopDownEnds(d, outputs[1..]);
      assert outputs[0] in outputs;
    }
  }

  /** All these trees walked one after another, in global coordinates. */
  function WalkAll(d: Desktop, keys: seq<Key>): seq<Drawn>
    requires Ending(d, keys)
  {
    if keys == [] then [] else
      var k := keys[|keys| - 1];
      WalkAll(d, keys[..|keys| - 1]) + (if Shown(d, k) then Walk(d.surfaces, k, PlacedAt(d, k)) else [])
  }

  lemma {:induction false} HitFirstIsTopmost(d: Desktop, keys: seq<Key>, p: Point)
    requires Ending(d, keys) && Ending(d, Reverse(keys))
    ensures HitFirst(d, Reverse(keys), p) == Topmost(d, WalkAll(d, keys), p)
  {
    if keys != [] {
      var k, rest := keys[|keys| - 1], keys[..|keys| - 1];
      assert Reverse(keys)[1..] == Reverse(rest);
      assert k in keys && k in Reverse(keys) && forall x :: x in Reverse(rest) ==> x in Reverse(keys);
      HitFirstIsTopmost(d, rest, p);
      if Shown(d, k) {
        HitTreeIsTopmost(d, k, PlacedAt(d, k), p);
        TopmostConcat(d, WalkAll(d, rest), Walk(d.surfaces, k, PlacedAt(d, k)), p);
      } else {
        assert WalkAll(d, keys) == WalkAll(d, rest);
      }
    }
  }

  lemma {:induction false} HitFirstConcat(d: Desktop, a: seq<Key>, b: seq<Key>, p: Point)
    requires Ending(d, a) && Ending(d, b)
    ensures HitFirst(d, a + b, p) == if HitFirst(d, a, p).Some? then HitFirst(d, a, p) else HitFirst(d, b, p)
  {
    if a == [] {
      assert a + b == b;
    } else {
      assert (a + b)[1..] == a[1..] + b;
      HitFirstConcat(d, a[1..], b, p);
    }
  }

  lemma {:induction false} ReverseConcat(a: seq<Key>, b: seq<Key>)
    ensures Reverse(a + b) == Reverse(b) + Reverse(a)
  {
    if b == [] {
      assert a + b == a;
    } else {
      assert (a + b)[..|a + b| - 1] == a + b[..|b| - 1];
      ReverseConcat(a, b[..|b| - 1]);
    }
  }

  lemma {:induction false} WalkAllConcat(d: Desktop, a: seq<Key>, b: seq<Key>)
    requires Ending(d, a) && Ending(d, b)
    ensures WalkAll(d, a + b) == WalkAll(d, a) + WalkAll(d, b)
  {
    if b == [] {
      assert a + b == a;
    } else {
      assert (a + b)[..|a + b| - 1] == a + b[..|b| - 1];
      WalkAllConcat(d, a, b[..|b| - 1]);
    }
  }

  /** Nothing on this output takes input at the point. */
  ghost predicate Misses(d: Desktop, o: Output, p: Point)
    requires Ending(d, KeysOf(o))
  {
    && HitFirst(d, Reverse(o.above), p).None?
    && HitFirst(d, Reverse(o.windows), p).None?
    && HitFirst(d, Reverse(o.below), p).None?
  }

  /** One output's keys are tried before or after those of the rest, band by band. */
  lemma FirstOutput(d: Desktop, outputs: seq<Output>, p: Point)
    requires Searched(d, outputs) && outputs != [] && Searched(d, outputs[1..])
    requires Ending(d, KeysOf(outputs[0]))
    ensures var o, rest := outputs[0], outputs[1..];
      && HitFirst(d, AllAbove(outputs), p)
         == (var hit := HitFirst(d, Reverse(o.above), p); if hit.Some? then hit else HitFirst(d, AllAbove(rest), p))
      && HitFirst(d, Reverse(AllWindows(outputs)), p)
         == (var hit := HitFirst(d, Reverse(AllWindows(rest)), p);
             if hit.Some? then hit else HitFirst(d, Reverse(o.windows), p))
      && HitFirst(d, AllBelow(outputs), p)
         == (var hit := HitFirst(d, Reverse(o.below), p); if hit.Some? then hit else HitFirst(d, AllBelow(rest), p))
  {
    var o, rest := outputs[0], outputs[1..];
    HitFirstConcat(d, Reverse(o.above), AllAbove(rest), p);
    HitFirstConcat(d, Reverse(o.below), AllBelow(rest), p);
    ReverseConcat(o.windows, AllWindows(rest));
    HitFirstConcat(d, Reverse(AllWindows(rest)), Reverse(o.windows), p);
  }

  /** Each band of all these outputs answers as that band of this output alone. */
  ghost predicate AnswersFor(d: Desktop, outputs: seq<Output>, o: Output, p: Point)
    requires Searched(d, outputs) && Ending(d, KeysOf(o))
  {
    && HitFirst(d, AllAbove(outputs), p) == HitFirst(d, Reverse(o.above), p)
    && HitFirst(d, Reverse(AllWindows(outputs)), p) == HitFirst(d, Reverse(o.windows), p)
    && HitFirst(d, AllBelow(outputs), p) == HitFirst(d, Reverse(o.below), p)
  }

  lemma PassedBy(d: Desktop, outputs: seq<Output>, o: Output, p: Point)
    requires Searched(d, outputs) && outputs != [] && Searched(d, outputs[1..]) && Ending(d, KeysOf(outputs[0]))
    requires Ending(d, KeysOf(o)) && Misses(d, outputs[0], p) && AnswersFor(d, outputs[1..], o, p)
    ensures AnswersFor(d, outputs, o, p)
  {
    FirstOutput(d, outputs, p);
  }

  /** What only one output can answer for, whichever band, is answered by that output's band. */
  lemma {:induction false} OnlyOneAnswers(d: Desktop, outputs: seq<Output>, i: nat, p: Point)
    requires Searched(d, outputs) && i < |outputs| && Ending(d, KeysOf(outputs[i]))
    requires forall j :: 0 <= j < |outputs| && j != i ==> Misses(d, outputs[j], p)
    ensures AnswersFor(d, outputs, outputs[i], p)
  {
    var rest := outputs[1..];
    TopDownEnds(d, rest);
    if i == 0 {
      assert forall j :: 0 <= j < |rest| ==> Misses(d, rest[j], p);
      NobodyAnswers(d, rest, p);
      FirstOutput(d, outputs, p);
    } else {
      assert forall j :: 0 <= j < |rest| && j != i - 1 ==> Misses(d, rest[j], p);
      OnlyOneAnswers(d, rest, i - 1, p);
      PassedBy(d, outputs, outputs[i], p);
    }
  }

  lemma {:induction false} NobodyAnswers(d: Desktop, outputs: seq<Output>, p: Point)
    requires Searched(d, outputs)
    requires forall j :: 0 <= j < |outputs| ==> Misses(d, outputs[j], p)
    ensures HitFirst(d, AllAbove(outputs), p).None? && HitFirst(d, AllBelow(outputs), p).None?
    ensures HitFirst(d, Reverse(AllWindows(outputs)), p).None?
  {
    if outputs != [] {
      var o, rest := outputs[0], outputs[1..];
      TopDownEnds(d, rest);
      FirstOutput(d, outputs, p);
      NobodyAnswers(d, rest, p);
    }
  }

  function KeysOf(o: Output): seq<Key> { o.below + o.windows + o.above }

  lemma HitTestIsTopmost(d: Desktop, i: nat, p: Point)
    requires Searchable(d) && i < |d.outputs|
    requires forall j :: 0 <= j < |d.outputs| && j != i ==> Misses(d, d.outputs[j], p)
    ensures HitTest(d, p) == Topmost(d, WalkAll(d, KeysOf(d.outputs[i])), p)
  {
    var o := d.outputs[i];
    TopDownEnds(d, d.outputs);
    OnlyOneAnswers(d, d.outputs, i, p);
    HitFirstConcat(d, AllAbove(d.outputs) + Reverse(AllWindows(d.outputs)), AllBelow(d.outputs), p);
    HitFirstConcat(d, AllAbove(d.outputs), Reverse(AllWindows(d.outputs)), p);
    HitFirstIsTopmost(d, KeysOf(o), p);
    ReverseConcat(o.below + o.windows, o.above);
    ReverseConcat(o.below, o.windows);
    HitFirstConcat(d, Reverse(o.above), Reverse(o.windows) + Reverse(o.below), p);
    HitFirstConcat(d, Reverse(o.windows), Reverse(o.below), p);
  }

  // ----- The one is the mirror of the other -----

  predicate InRange(p: Point) { I32_MIN <= p.x <= I32_MAX && I32_MIN <= p.y <= I32_MAX }

  /** No offset on the way down this tree saturates. */
  ghost predicate Clear(m: SurfaceMap, k: Key, at: Point)
    requires EndsBelow(m, k)
    decreases Room(m, k)
  {
    InRange(at) && (k in m ==> forall id :: id in m[k].children && Key(k.client, id) in m ==>
      (ChildHasLessRoom(m, k, id);
       Clear(m, Key(k.client, id), Plus(at, m[Key(k.client, id)].subsurfacePosition))))
  }

  function Globally(list: seq<Drawn>, origin: Point): seq<Drawn> {
    seq(|list|, i requires 0 <= i < |list| => Drawn(list[i].surface, Plus(list[i].at, origin)))
  }

  lemma GloballyConcat(a: seq<Drawn>, b: seq<Drawn>, origin: Point)
    ensures Globally(a + b, origin) == Globally(a, origin) + Globally(b, origin)
  {}

  /** Moved off by an output's origin, a walk visits the same surfaces, each moved off by as much. */
  lemma {:induction false} WalkMoves(m: SurfaceMap, k: Key, at: Point, origin: Point)
    requires EndsBelow(m, k) && Clear(m, k, at) && Clear(m, k, Minus(at, origin))
    ensures Globally(Walk(m, k, Minus(at, origin)), origin) == Walk(m, k, at)
    decreases |Walk(m, k, at)|, 0, 0
  {
    if k in m {
      KidsMove(m, k, at, origin, |m[k].children|);
      GloballyConcat([Drawn(k, Minus(at, origin))], WalkKids(m, k, Minus(at, origin), |m[k].children|), origin);
    }
  }

  lemma ChildClear(m: SurfaceMap, k: Key, id: nat, at: Point)
    requires EndsBelow(m, k) && k in m && id in m[k].children && Key(k.client, id) in m && Clear(m, k, at)
    ensures var child := Key(k.client, id);
      && EndsBelow(m, child) && Clear(m, child, ChildAt(m, child, at))
      && ChildAt(m, child, at) == Plus(at, m[child].subsurfacePosition)
  {
    ChildHasLessRoom(m, k, id);
    var child := Key(k.client, id);
    assert Clear(m, child, Plus(at, m[child].subsurfacePosition));
  }

  lemma {:induction false} KidsMove(m: SurfaceMap, k: Key, at: Point, origin: Point, n: nat)
    requires EndsBelow(m, k) && k in m && n <= |m[k].children|
    requires Clear(m, k, at) && Clear(m, k, Minus(at, origin))
    ensures Globally(WalkKids(m, k, Minus(at, origin), n), origin) == WalkKids(m, k, at, n)
    decreases |WalkKids(m, k, at, n)|, 1, n
  {
    if n > 0 {
      var id := m[k].children[n - 1];
      var child := Key(k.client, id);
      KidsMove(m, k, at, origin, n - 1);
      OneMoreKid(m, k, at, n - 1);
      OneMoreKid(m, k, Minus(at, origin), n - 1);
      var to := ChildAt(m, child, at);
      if child in m {
        ChildClear(m, k, id, at);
        ChildClear(m, k, id, Minus(at, origin));
        assert ChildAt(m, child, Minus(at, origin)) == Minus(to, origin);
        WalkMoves(m, child, to, origin);
      }
      GloballyConcat(WalkKids(m, k, Minus(at, origin), n - 1), Walk(m, child, Minus(to, origin)), origin);
    }
  }

  lemma {:induction false} ImagesGlobally(images: set<Key>, list: seq<Drawn>, origin: Point)
    ensures Globally(WithImages(images, list), origin) == WithImages(images, Globally(list, origin))
  {
    if list != [] {
      var rest := list[..|list| - 1];
      ImagesGlobally(images, rest, origin);
      assert Globally(list, origin)[..|list| - 1] == Globally(rest, origin);
      var last := list[|list| - 1];
      GloballyConcat(WithImages(images, rest), if last.surface in images then [last] else [], origin);
    }
  }

  /** No offset under any of these trees saturates, globally or in the output's own coordinates. */
  ghost predicate ClearAt(d: Desktop, keys: seq<Key>, origin: Point)
    requires Ending(d, keys)
  {
    forall k :: k in keys && Visible(d, k) ==>
      Clear(d.surfaces, k, PlacedAt(d, k)) && Clear(d.surfaces, k, Minus(PlacedAt(d, k), origin))
  }

  /** Layers are known as such and windows are not layers. */
  ghost predicate Placed(d: Desktop, o: Output)
    requires Ending(d, KeysOf(o))
  {
    && (forall k :: k in o.below || k in o.above ==> k in d.layers)
    && (forall k :: k in o.windows ==> k !in d.layers)
    && ClearAt(d, KeysOf(o), o.origin)
  }

  lemma {:induction false} LayersAreWalked(d: Desktop, keys: seq<Key>, origin: Point)
    requires Ending(d, keys) && ClearAt(d, keys, origin) && forall k :: k in keys ==> k in d.layers
    ensures Globally(DrawLayers(d, keys, origin), origin) == WithImages(d.images, WalkAll(d, keys))
  {
    if keys != [] {
      var k, rest := keys[|keys| - 1], keys[..|keys| - 1];
      assert k in keys;
      LayersAreWalked(d, rest, origin);
      var local :=
        if Visible(d, k) then WithImages(d.images, Walk(d.surfaces, k, Minus(PlacedAt(d, k), origin))) else [];
      if Visible(d, k) { TreeIsWalked(d, k, PlacedAt(d, k), origin); }
      GloballyConcat(DrawLayers(d, rest, origin), local, origin);
      WithImagesConcat(d.images, WalkAll(d, rest), if Shown(d, k) then Walk(d.surfaces, k, PlacedAt(d, k)) else []);
    }
  }

  lemma TreeIsWalked(d: Desktop, k: Key, at: Point, origin: Point)
    requires EndsBelow(d.surfaces, k) && Clear(d.surfaces, k, at) && Clear(d.surfaces, k, Minus(at, origin))
    ensures Globally(WithImages(d.images, Walk(d.surfaces, k, Minus(at, origin))), origin)
      == WithImages(d.images, Walk(d.surfaces, k, at))
  {
    WalkMoves(d.surfaces, k, at, origin);
    ImagesGlobally(d.images, Walk(d.surfaces, k, Minus(at, origin)), origin);
  }

  lemma {:induction false} WindowsAreWalked(d: Desktop, keys: seq<Key>, origin: Point)
    requires AllEnding(d, keys) && ClearAt(d, keys, origin) && forall k :: k in keys ==> k !in d.layers
    ensures Globally(DrawWindows(d, keys, origin), origin) == WithImages(d.images, WalkAll(d, keys))
  {
    if keys != [] {
      var k, rest := keys[|keys| - 1], keys[..|keys| - 1];
      assert k in keys;
      WindowsAreWalked(d, rest, origin);
      TreeIsWalked(d, k, PlacedAt(d, k), origin);
      var local := WithImages(d.images, Walk(d.surfaces, k, Minus(PlacedAt(d, k), origin)));
      GloballyConcat(DrawWindows(d, rest, origin), if k in d.surfaces then local else [], origin);
      WithImagesConcat(d.images, WalkAll(d, rest), if Shown(d, k) then Walk(d.surfaces, k, PlacedAt(d, k)) else []);
    }
  }

  /** An output's scene, in global coordinates, is the walk of all its trees less what has no image. */
  lemma SceneIsWalked(d: Desktop, o: Output)
    requires Ending(d, KeysOf(o)) && Placed(d, o)
    ensures Globally(Scene(d, o), o.origin) == WithImages(d.images, WalkAll(d, KeysOf(o)))
  {
    LayersAreWalked(d, o.below, o.origin);
    WindowsAreWalked(d, o.windows, o.origin);
    LayersAreWalked(d, o.above, o.origin);
    GloballyConcat(DrawLayers(d, o.below, o.origin), DrawWindows(d, o.windows, o.origin), o.origin);
    GloballyConcat(DrawLayers(d, o.below, o.origin) + DrawWindows(d, o.windows, o.origin),
      DrawLayers(d, o.above, o.origin), o.origin);
    WalkAllConcat(d, o.below + o.windows, o.above);
    WalkAllConcat(d, o.below, o.windows);
    WithImagesConcat(d.images, WalkAll(d, o.below + o.windows), WalkAll(d, o.above));
    WithImagesConcat(d.images, WalkAll(d, o.below), WalkAll(d, o.windows));
  }

  /** Leaving out what has no image leaves the topmost alone exactly when the topmost has one. */
  lemma {:induction false} TopmostWithImages(d: Desktop, list: seq<Drawn>, p: Point)
    ensures Topmost(d, WithImages(d.images, list), p) == Topmost(d, list, p)
      <==> (Topmost(d, list, p).Some? ==> Topmost(d, list, p).value.surface in d.images)
    ensures Topmost(d, WithImages(d.images, list), p).Some? ==>
      Topmost(d, WithImages(d.images, list), p).value.surface in d.images
  {
    if list != [] {
      var last, rest := list[|list| - 1], list[..|list| - 1];
      TopmostWithImages(d, rest, p);
      TopmostConcat(d, WithImages(d.images, rest), if last.surface in d.images then [last] else [], p);
      TopmostConcat(d, rest, [last], p);
      assert list == rest + [last];
    }
  }

  /** The last of a walk to accept the point has an image, if any accepts it. */
  ghost predicate TopHasImage(d: Desktop, walk: seq<Drawn>, p: Point) {
    forall i | 0 <= i < |walk| && Accepts(d, walk[i], p) && (forall j :: i < j < |walk| ==> !Accepts(d, walk[j], p)) ::
      walk[i].surface in d.images
  }

  lemma TopHasImageIs(d: Desktop, walk: seq<Drawn>, p: Point)
    ensures TopHasImage(d, walk, p) <==> (Topmost(d, walk, p).Some? ==> Topmost(d, walk, p).value.surface in d.images)
  {
    TopmostIsLast(d, walk, p);
  }

  /**
   A point hits the topmost thing drawn there that takes input: of the windows and layers on an
   output, where no other output has anything under the point. It fails exactly when the last thing walked
   that takes input there has a size but no image, and so is not drawn.
   */
  lemma HitIsTopmostDrawn(d: Desktop, i: nat, p: Point)
    requires Searchable(d) && i < |d.outputs| && Placed(d, d.outputs[i])
    requires forall j :: 0 <= j < |d.outputs| && j != i ==> Misses(d, d.outputs[j], p)
    ensures HitTest(d, p) == Topmost(d, Globally(Scene(d, d.outputs[i]), d.outputs[i].origin), p)
      <==> TopHasImage(d, WalkAll(d, KeysOf(d.outputs[i])), p)
  {
    HitTestIsTopmost(d, i, p);
    SceneIsWalked(d, d.outputs[i]);
    TopmostWithImages(d, WalkAll(d, KeysOf(d.outputs[i])), p);
    TopHasImageIs(d, WalkAll(d, KeysOf(d.outputs[i])), p);
  }

  /** So where every surface walked that has a size has an image, hit testing mirrors drawing at every point. */
  lemma HitMirrorsDrawing(d: Desktop, i: nat)
    requires Searchable(d) && i < |d.outputs| && Placed(d, d.outputs[i])
    requires forall e :: e in WalkAll(d, KeysOf(d.outputs[i])) && Sized(d, e.surface) ==> e.surface in d.images
    ensures forall p :: (forall j :: 0 <= j < |d.outputs| && j != i ==> Misses(d, d.outputs[j], p)) ==>
      HitTest(d, p) == Topmost(d, Globally(Scene(d, d.outputs[i]), d.outputs[i].origin), p)
  {
    forall p | forall j :: 0 <= j < |d.outputs| && j != i ==> Misses(d, d.outputs[j], p)
      ensures HitTest(d, p) == Topmost(d, Globally(Scene(d, d.outputs[i]), d.outputs[i].origin), p)
    {
      HitIsTopmostDrawn(d, i, p);
    }
  }

  const WINDOW: Key := Key(1, 10)

  const ALONE: SurfaceMap := map[WINDOW := NEW_SURFACE]

  /** One window, with a size and no image. */
  const BARE: Desktop :=
    Desktop(ALONE, [Output(Point(0, 0), [], [WINDOW], [])], map[], map[WINDOW := Size(10, 10)], {})

  lemma OneOutput(o: Output)
    ensures AllAbove([o]) == Reverse(o.above) && AllWindows([o]) == o.windows && AllBelow([o]) == Reverse(o.below)
  {
    assert [o][1..] == [];
    assert AllAbove([]) == [] && AllWindows([]) == [] && AllBelow([]) == [];
  }

  lemma AloneEnds()
    ensures Fine(ALONE) && EndsBelow(ALONE, WINDOW)
    ensures forall at, p ::
      HitTree(BARE, WINDOW, at, p) == if Accepts(BARE, Drawn(WINDOW, at), p) then Some(Drawn(WINDOW, at)) else None
    ensures forall at :: Walk(ALONE, WINDOW, at) == [Drawn(WINDOW, at)]
  {
    assert ParentsOf(ALONE) == map[];
    assert ListSound(ALONE, WINDOW);
    FineEnds(ALONE, WINDOW);
  }

  lemma BareIsSearchable()
    requires EndsBelow(ALONE, WINDOW)
    ensures Searchable(BARE) && Placed(BARE, BARE.outputs[0])
  {
    forall o | o in BARE.outputs ensures Ending(BARE, KeysOf(o)) { assert KeysOf(o) == [WINDOW]; }
    assert BARE.outputs[0] in BARE.outputs;
  }

  lemma BareIsHit()
    requires Searchable(BARE) && EndsBelow(ALONE, WINDOW)
    requires HitTree(BARE, WINDOW, Point(0, 0), Point(1, 1)) == Some(Drawn(WINDOW, Point(0, 0)))
    ensures HitTest(BARE, Point(1, 1)) == Some(Drawn(WINDOW, Point(0, 0)))
  {
    OneOutput(BARE.outputs[0]);
    assert [WINDOW][..0] == [] && Reverse([WINDOW]) == [WINDOW];
    assert TopDown(BARE.outputs) == [WINDOW] && Shown(BARE, WINDOW);
    assert HitFirst(BARE, [WINDOW], Point(1, 1)) == HitTree(BARE, WINDOW, Point(0, 0), Point(1, 1));
  }

  lemma BareIsBlank()
    requires EndsBelow(ALONE, WINDOW) && Walk(ALONE, WINDOW, Point(0, 0)) == [Drawn(WINDOW, Point(0, 0))]
    ensures Drawable(BARE, BARE.outputs[0]) && Scene(BARE, BARE.outputs[0]) == []
  {
    var drawn := [Drawn(WINDOW, Point(0, 0))];
    assert drawn[..0] == [] && WithImages(BARE.images, drawn) == [];
    assert [WINDOW][..0] == [] && DrawWindows(BARE, [], Point(0, 0)) == [];
    assert DrawWindows(BARE, [WINDOW], Point(0, 0)) == WithImages(BARE.images, drawn);
  }

  /** A window with a size and no image is hit where there is nothing drawn. */
  lemma NoImageWitness()
    ensures Fine(BARE.surfaces) && Searchable(BARE) && Placed(BARE, BARE.outputs[0])
    ensures HitTest(BARE, Point(1, 1)) == Some(Drawn(WINDOW, Point(0, 0)))
    ensures Drawable(BARE, BARE.outputs[0]) && Scene(BARE, BARE.outputs[0]) == []
  {
    AloneEnds();
    BareIsSearchable();
    assert Accepts(BARE, Drawn(WINDOW, Point(0, 0)), Point(1, 1));
    BareIsHit();
    BareIsBlank();
  }
}
