/** Where surfaces take input, as sets of points, and what a point hits in those terms. */
module HitAreas {
  import opened Base
  import opened Surfaces
  import opened Forest
  import opened Cascade
  import opened Drawing

  // ----- One surface -----

  ghost function Cells(r: Rect): iset<Point> {
    iset p: Point | r.x <= p.x < r.x + r.width && r.y <= p.y < r.y + r.height
  }

  /** What the operations on a region build, replayed in order. */
  ghost function Built(rects: seq<RegionRect>): iset<Point> {
    if rects == [] then iset{} else
      var before, last := Built(rects[..|rects| - 1]), rects[|rects| - 1];
      match last.op case Add => before + Cells(last.area) case Subtract => before - Cells(last.area)
  }

  /** Where a surface takes input, from its own corner: what its region builds, or all of it, and nothing outside it. */
  ghost function InputArea(d: Desktop, k: Key): iset<Point> {
    var size := SizeOf(d, k);
    var whole := Cells(Rect(0, 0, size.width, size.height));
    if k !in d.surfaces then iset{}
    else if d.surfaces[k].inputRegion.None? then whole
    else whole * Built(d.surfaces[k].inputRegion.value)
  }

  /** A point whose right and lower neighbours are in the range of an `i32` too. */
  predicate OnScreen(p: Point) { I32_MIN <= p.x < I32_MAX && I32_MIN <= p.y < I32_MAX }

  predicate Measured(d: Desktop) {
    forall k :: k in d.sizes ==> d.sizes[k].width <= I32_MAX && d.sizes[k].height <= I32_MAX
  }

  lemma {:induction false} RegionIsBuilt(rects: seq<RegionRect>, p: Point)
    requires OnScreen(p)
    ensures RegionContains(rects, p) <==> p in Built(rects)
  {
    if rects != [] {
      RegionIsBuilt(rects[..|rects| - 1], p);
      RectIsCells(rects[|rects| - 1].area, p);
    }
  }

  lemma RectIsCells(r: Rect, p: Point)
    requires OnScreen(p)
    ensures RectContains(r, p) <==> p in Cells(r)
  {}

  /** A surface takes input at a point exactly when the point, from the surface's corner, is in its input area. */
  lemma AcceptsExactly(d: Desktop, e: Drawn, p: Point)
    requires OnScreen(p) && Measured(d)
    ensures Accepts(d, e, p) <==> Minus(p, e.at) in InputArea(d, e.surface)
  {
    var size, q := SizeOf(d, e.surface), Minus(p, e.at);
    RectIsCells(Rect(e.at.x, e.at.y, size.width, size.height), p);
    if p in Cells(Rect(e.at.x, e.at.y, size.width, size.height)) && e.surface in d.surfaces {
      assert q in Cells(Rect(0, 0, size.width, size.height)) && OnScreen(q);
      assert q == Point(SatAdd(p.x, -e.at.x), SatAdd(p.y, -e.at.y));
      if d.surfaces[e.surface].inputRegion.Some? { RegionIsBuilt(d.surfaces[e.surface].inputRegion.value, q); }
    }
  }

  // ----- A tree, and a desktop -----

  ghost predicate TakesInput(d: Desktop, e: Drawn, p: Point) { Minus(p, e.at) in InputArea(d, e.surface) }

  /** `hit` is the last of these whose input area holds the point, and there is none only if none does. */
  ghost predicate LastToTake(d: Desktop, walk: seq<Drawn>, p: Point, hit: Option<Drawn>) {
    match hit
    case None => forall e :: e in walk ==> !TakesInput(d, e, p)
    case Some(e) => exists i :: (0 <= i < |walk| && walk[i] == e && TakesInput(d, e, p)
      && forall j :: i < j < |walk| ==> !TakesInput(d, walk[j], p))
  }

  lemma TopmostTakes(d: Desktop, walk: seq<Drawn>, p: Point)
    requires OnScreen(p) && Measured(d)
    ensures LastToTake(d, walk, p, Topmost(d, walk, p))
  {
    TopmostIsLast(d, walk, p);
    forall e | e in walk ensures Accepts(d, e, p) <==> TakesInput(d, e, p) { AcceptsExactly(d, e, p); }
  }

  /** A point hits the surface of a tree drawn last of those whose input area it is in. */
  lemma HitTreeExactly(d: Desktop, k: Key, at: Point, p: Point)
    requires EndsBelow(d.surfaces, k) && OnScreen(p) && Measured(d)
    ensures LastToTake(d, Walk(d.surfaces, k, at), p, HitTree(d, k, at, p))
  {
    HitTreeIsTopmost(d, k, at, p);
    TopmostTakes(d, Walk(d.surfaces, k, at), p);
  }

  /** And so on a desktop, on the one output that has anything under the point. */
  lemma HitTestExactly(d: Desktop, i: nat, p: Point)
    requires Searchable(d) && i < |d.outputs| && OnScreen(p) && Measured(d)
    requires forall j :: 0 <= j < |d.outputs| && j != i ==> Misses(d, d.outputs[j], p)
    ensures LastToTake(d, WalkAll(d, KeysOf(d.outputs[i])), p, HitTest(d, p))
  {
    HitTestIsTopmost(d, i, p);
    TopmostTakes(d, WalkAll(d, KeysOf(d.outputs[i])), p);
  }

  /** A surface with none below it is hit exactly at the points of its input area, moved to where it is. */
  lemma AloneExactly(d: Desktop, k: Key, at: Point, q: Point)
    requires EndsBelow(d.surfaces, k) && k in d.surfaces && OnScreen(Plus(at, q)) && Measured(d)
    requires forall id :: id in d.surfaces[k].children ==> Key(k.client, id) !in d.surfaces
    ensures HitTree(d, k, at, Plus(at, q)) == if q in InputArea(d, k) then Some(Drawn(k, at)) else None
  {
    NoKids(d.surfaces, k, at, |d.surfaces[k].children|);
    HitTreeExactly(d, k, at, Plus(at, q));
    assert Walk(d.surfaces, k, at) == [Drawn(k, at)] && Drawn(k, at) in Walk(d.surfaces, k, at);
    assert Minus(Plus(at, q), at) == q && (TakesInput(d, Drawn(k, at), Plus(at, q)) <==> q in InputArea(d, k));
  }

  lemma {:induction false} NoKids(m: SurfaceMap, k: Key, at: Point, n: nat)
    requires EndsBelow(m, k) && k in m && n <= |m[k].children|
    requires forall id :: id in m[k].children ==> Key(k.client, id) !in m
    ensures WalkKids(m, k, at, n) == []
  {
    if n > 0 {
      NoKids(m, k, at, n - 1);
      OneMoreKid(m, k, at, n - 1);
    }
  }

  // ----- Moving it all -----

  function Moved(hit: Option<Drawn>, v: Point): Option<Drawn> {
    match hit case None => None case Some(e) => Some(Drawn(e.surface, Plus(e.at, v)))
  }

  lemma {:induction false} TopmostMoves(d: Desktop, walk: seq<Drawn>, p: Point, v: Point)
    requires OnScreen(p) && OnScreen(Plus(p, v)) && Measured(d)
    ensures Topmost(d, Globally(walk, v), Plus(p, v)) == Moved(Topmost(d, walk, p), v)
  {
    if walk != [] {
      var rest, last := walk[..|walk| - 1], walk[|walk| - 1];
      TopmostMoves(d, rest, p, v);
      assert Globally(walk, v)[..|walk| - 1] == Globally(rest, v);
      AcceptsExactly(d, last, p);
      AcceptsExactly(d, Drawn(last.surface, Plus(last.at, v)), Plus(p, v));
      assert Minus(Plus(p, v), Plus(last.at, v)) == Minus(p, last.at);
    }
  }

  /** A tree moved as far as the point is hit where it was, moved as far. */
  lemma HitMoves(d: Desktop, k: Key, at: Point, p: Point, v: Point)
    requires EndsBelow(d.surfaces, k) && OnScreen(p) && OnScreen(Plus(p, v)) && Measured(d)
    requires Clear(d.surfaces, k, at) && Clear(d.surfaces, k, Plus(at, v))
    ensures HitTree(d, k, Plus(at, v), Plus(p, v)) == Moved(HitTree(d, k, at, p), v)
  {
    assert Minus(Plus(at, v), v) == at;
    WalkMoves(d.surfaces, k, Plus(at, v), v);
    HitTreeIsTopmost(d, k, at, p);
    HitTreeIsTopmost(d, k, Plus(at, v), Plus(p, v));
    TopmostMoves(d, Walk(d.surfaces, k, at), p, v);
  }
}
