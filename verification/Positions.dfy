/** Where a surface is: the draw walk adds offsets on its way down, the walkers on their way up. */
module Positions {
  import opened Base
  import opened Links
  import opened Surfaces
  import opened Forest
  import opened Cascade
  import opened Drawing

  /** How far `x` is from `k` above it, going by its parent links. */
  ghost function Climb(m: SurfaceMap, k: Key, x: Key): Point
    requires Rooted(m) && Above(ParentsOf(m), k, x)
    decreases Depth(ParentsOf(m), x)
  {
    if x == k then Point(0, 0) else
      DepthStep(ParentsOf(m), x);
      Plus(m[x].subsurfacePosition, Climb(m, k, ParentsOf(m)[x]))
  }

  lemma {:induction false} ClimbThrough(m: SurfaceMap, k: Key, child: Key, x: Key)
    requires Fine(m) && child in ParentsOf(m) && ParentsOf(m)[child] == k && Above(ParentsOf(m), child, x)
    ensures Above(ParentsOf(m), k, x)
    ensures Climb(m, k, x) == Plus(m[child].subsurfacePosition, Climb(m, child, x))
    decreases Depth(ParentsOf(m), x)
  {
    var par := ParentsOf(m);
    DepthStep(par, child);
    assert Above(par, k, k);
    AboveTransitive(par, k, child, x);
    AboveDepth(par, child, x);
    if x != child {
      DepthStep(par, x);
      ClimbThrough(m, k, child, par[x]);
    }
  }

  // ----- Down -----

  /** Where an element of a walk from `k` at this point should be. */
  ghost predicate InPlace(m: SurfaceMap, k: Key, at: Point, e: Drawn)
    requires Rooted(m)
  {
    Above(ParentsOf(m), k, e.surface) && e.at == Plus(at, Climb(m, k, e.surface))
  }

  lemma {:induction false} TreePlaces(m: SurfaceMap, k: Key, at: Point, e: Drawn)
    requires Fine(m) && EndsBelow(m, k) && Clear(m, k, at) && e in Walk(m, k, at)
    ensures InPlace(m, k, at, e)
    decreases |Walk(m, k, at)|, 0, 0
  {
    if e != Drawn(k, at) { KidsPlace(m, k, at, |m[k].children|, e); }
  }

  lemma {:induction false} KidsPlace(m: SurfaceMap, k: Key, at: Point, n: nat, e: Drawn)
    requires Fine(m) && EndsBelow(m, k) && k in m && Clear(m, k, at)
    requires n <= |m[k].children| && e in WalkKids(m, k, at, n)
    ensures InPlace(m, k, at, e)
    decreases |WalkKids(m, k, at, n)|, 1, n
  {
    var id := m[k].children[n - 1];
    var child := Key(k.client, id);
    OneMoreKid(m, k, at, n - 1);
    if e in WalkKids(m, k, at, n - 1) {
      KidsPlace(m, k, at, n - 1, e);
    } else {
      ClearKid(m, k, id, at);
      TreePlaces(m, child, ChildAt(m, child, at), e);
      PlacedThrough(m, k, id, at, e);
    }
  }

  lemma ClearKid(m: SurfaceMap, k: Key, id: nat, at: Point)
    requires Fine(m) && EndsBelow(m, k) && k in m && id in m[k].children && Clear(m, k, at)
    ensures var child := Key(k.client, id); EndsBelow(m, child) && Clear(m, child, ChildAt(m, child, at))
  {
    ChildIsLinked(m, k, id);
    ChildClear(m, k, id, at);
  }

  lemma PlacedThrough(m: SurfaceMap, k: Key, id: nat, at: Point, e: Drawn)
    requires Fine(m) && EndsBelow(m, k) && k in m && id in m[k].children && Clear(m, k, at)
    requires var child := Key(k.client, id); InPlace(m, child, ChildAt(m, child, at), e)
    ensures InPlace(m, k, at, e)
  {
    ChildIsLinked(m, k, id);
    ChildClear(m, k, id, at);
    ClimbThrough(m, k, Key(k.client, id), e.surface);
  }

  // ----- Up -----

  /** No sum on the way up saturates. */
  ghost predicate ClearUp(m: SurfaceMap, x: Key, below: Point)
    requires Rooted(m)
    decreases Depth(ParentsOf(m), x)
  {
    x in m ==>
      var here := Plus(below, m[x].subsurfacePosition);
      && InRange(here)
      && if m[x].parent.None? then InRange(Plus(here, m[x].position))
         else DepthStep(ParentsOf(m), x); ClearUp(m, ParentsOf(m)[x], here)
  }

  lemma {:induction false} ClimbIsGlobal(m: SurfaceMap, k: Key, x: Key, below: Point)
    requires Rooted(m) && k in m && m[k].parent.None? && Above(ParentsOf(m), k, x) && ClearUp(m, x, below)
    ensures GlobalPosition(m, x, below)
         == Plus(Plus(below, Climb(m, k, x)), Plus(m[k].subsurfacePosition, m[k].position))
    decreases Depth(ParentsOf(m), x)
  {
    if x != k {
      DepthStep(ParentsOf(m), x);
      ClimbIsGlobal(m, k, ParentsOf(m)[x], Plus(below, m[x].subsurfacePosition));
    }
  }

  /**
   Everything in a window's tree is drawn where the walkers put it, less the offset the window itself may still have
   from a parent it no longer has: the walkers add that in, and drawing and hit testing do not.
   */
  lemma DrawnWhereSaid(m: SurfaceMap, k: Key, e: Drawn)
    requires Fine(m) && k in m && m[k].parent.None?
    requires EndsBelow(m, k) && Clear(m, k, m[k].position) && e in Walk(m, k, m[k].position)
    requires ClearUp(m, e.surface, Point(0, 0))
    ensures GlobalPosition(m, e.surface, Point(0, 0)) == Plus(e.at, m[k].subsurfacePosition)
    ensures GlobalPosition(m, e.surface, Point(0, 0)) == e.at <==> m[k].subsurfacePosition == Point(0, 0)
  {
    TreePlaces(m, k, m[k].position, e);
    ClimbIsGlobal(m, k, e.surface, Point(0, 0));
    InAnyOrder(m[k].position, Climb(m, k, e.surface), m[k].subsurfacePosition);
  }

  lemma InAnyOrder(p: Point, c: Point, q: Point)
    ensures Plus(Plus(Point(0, 0), c), Plus(q, p)) == Plus(Plus(p, c), q)
    ensures Plus(Plus(p, c), q) == Plus(p, c) <==> q == Point(0, 0)
  {}
}
