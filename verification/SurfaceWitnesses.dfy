/** Runs in which the surface machine does less than its comments say. */
module SurfaceWitnesses {
  import opened Base
  import opened Links
  import opened Descent
  import opened Surfaces
  import opened Forest
  import opened Cascade
  import opened Sweep
  import opened SurfaceMachine
  import opened SurfaceRuns
  import opened SurfaceTheorems

  /** One request more. */
  lemma {:induction false} RunsOn(s: State, events: seq<Event>, t: State, r: Request, order: seq<Key>)
    requires Runs(s, events, t) && Enabled(t, r, order)
    ensures Runs(s, events + [Event(r, order)], Step(t, r, order))
    decreases |events|
  {
    var more := events + [Event(r, order)];
    if events == [] {
      assert more[1..] == [];
    } else {
      assert more[1..] == events[1..] + [Event(r, order)];
      RunsOn(Step(s, events[0].request, events[0].order), events[1..], t, r, order);
    }
  }

  /** Some run from nothing ends here. */
  ghost predicate Reached(t: State) { exists events :: Runs(INITIAL, events, t) }

  lemma ReachedNext(t: State, r: Request, order: seq<Key>)
    requires Reached(t) && Enabled(t, r, order)
    ensures Reached(Step(t, r, order))
  {
    var events :| Runs(INITIAL, events, t);
    RunsOn(INITIAL, events, t, r, order);
  }

  /** No request of the run is refused: each changes something. */
  ghost predicate NoneRefused(s: State, events: seq<Event>)
    decreases |events|
  {
    events != [] && Enabled(s, events[0].request, events[0].order) ==>
      var next := Step(s, events[0].request, events[0].order);
      next != s && NoneRefused(next, events[1..])
  }

  /** A run from nothing of this many requests, none refused, ends here. */
  ghost predicate ReachedIn(n: nat, t: State) {
    exists events :: |events| == n && Runs(INITIAL, events, t) && NoneRefused(INITIAL, events)
  }

  lemma {:induction false} NoneRefusedOn(s: State, events: seq<Event>, t: State, r: Request, order: seq<Key>)
    requires Runs(s, events, t) && NoneRefused(s, events) && Enabled(t, r, order) && Step(t, r, order) != t
    ensures NoneRefused(s, events + [Event(r, order)])
    decreases |events|
  {
    var more := events + [Event(r, order)];
    if events == [] {
      assert more[1..] == [];
    } else {
      assert more[1..] == events[1..] + [Event(r, order)];
      NoneRefusedOn(Step(s, events[0].request, events[0].order), events[1..], t, r, order);
    }
  }

  lemma ReachedInOne(n: nat, t: State, r: Request)
    requires ReachedIn(n, t) && Enabled(t, r, []) && Step(t, r, []) != t
    ensures ReachedIn(n + 1, Step(t, r, []))
  {
    var events :| |events| == n && Runs(INITIAL, events, t) && NoneRefused(INITIAL, events);
    var more := events + [Event(r, [])];
    RunsOn(INITIAL, events, t, r, []);
    NoneRefusedOn(INITIAL, events, t, r, []);
    assert |more| == n + 1;
  }

  /** A request that drains nothing is a step of any run that comes to it. */
  lemma ReachedPlain(t: State, r: Request)
    requires Reached(t) && !r.Commit? && !r.DestroySubsurface? && !r.SetSync? && !r.Tick?
    ensures Enabled(t, r, []) && Reached(Step(t, r, []))
  {
    ReachedRooted(t);
    assert Starts(t, r).None?;
    ReachedNext(t, r, []);
  }

  lemma ReachedIsSound(t: State)
    requires Reached(t)
    ensures Inv(t)
  {
    var events :| Runs(INITIAL, events, t);
    RunKeepsInv(INITIAL, events, t);
  }

  lemma ReachedRooted(t: State)
    requires Reached(t)
    ensures Rooted(t.surfaces)
  {
    ReachedIsSound(t);
  }

  // ----- Three surfaces linked in a way that leaves a loop in the lists -----

  const A: Key := Key(0, 10)
  const B: Key := Key(0, 11)
  const C: Key := Key(0, 12)

  const LINKED_CHILD: Surface := NEW_SURFACE.(isSubsurface := true, subsurfaceSync := true)

  lemma CreateThen(n: nat, t: State, k: Key) returns (u: State)
    requires ReachedIn(n, t) && CanRegister(t, k)
    ensures ReachedIn(n + 1, u) && u.surfaces == t.surfaces[k := NEW_SURFACE] && u.objects.Keys == t.objects.Keys + {k}
    ensures u.subsurfaces == t.subsurfaces
  {
    u := CreateSurfaceStep(t, k);
    ReachedPlain(t, CreateSurface(k));
    ReachedInOne(n, t, CreateSurface(k));
  }

  const APART: SurfaceMap := map[A := NEW_SURFACE, B := NEW_SURFACE, C := NEW_SURFACE]

  lemma ThreeSurfaces() returns (t: State)
    ensures ReachedIn(3, t) && t.objects.Keys == {A, B, C} && t.surfaces == APART
  {
    var none: seq<Event> := [];
    assert |none| == 0 && Runs(INITIAL, none, INITIAL);
    t := CreateThen(0, INITIAL, A);
    t := CreateThen(1, t, B);
    t := CreateThen(2, t, C);
  }

  function Under(m: SurfaceMap, child: Key, parent: Key): SurfaceMap
    requires child in m && parent in m && child != parent
  {
    m[child := m[child].(parent := Some(parent.id), isSubsurface := true, subsurfaceSync := true)][
      parent := m[parent].(children := m[parent].children + [child.id])]
  }

  lemma LinkThen(n: nat, t: State, k: Key, child: Key, parent: Key) returns (u: State)
    requires ReachedIn(n, t) && Rooted(t.surfaces) && CanRegister(t, k)
    requires child in t.surfaces && parent in t.surfaces && child.client == k.client == parent.client
    requires !Above(ParentsOf(t.surfaces), child, parent)
    ensures ReachedIn(n + 1, u) && u.objects.Keys == t.objects.Keys + {k}
    ensures child != parent && u.surfaces == Under(t.surfaces, child, parent)
    ensures u.subsurfaces == t.subsurfaces[k := child.id]
  {
    u := GetSubsurfaceStep(t, k, child.id, parent.id, false);
    IsAncestorExact(t.surfaces, k.client, child.id, parent.id);
    ReachedPlain(t, GetSubsurface(k, child.id, parent.id, false));
    ReachedInOne(n, t, GetSubsurface(k, child.id, parent.id, false));
  }

  /** `C` made a subsurface of `A`. */
  const ONCE: SurfaceMap := map[
    A := NEW_SURFACE.(children := [12]),
    B := NEW_SURFACE,
    C := LINKED_CHILD.(parent := Some(10))]

  /** And then of `B`. */
  const TWICE: SurfaceMap := map[
    A := NEW_SURFACE.(children := [12]),
    B := NEW_SURFACE.(children := [12]),
    C := LINKED_CHILD.(parent := Some(11))]

  lemma FirstLink()
    ensures ParentsOf(APART) == map[] && Under(APART, C, A) == ONCE
  {
    assert APART[A].children + [12] == [12];
  }

  lemma SecondLink()
    ensures ParentsOf(ONCE) == map[C := A] && Under(ONCE, C, B) == TWICE
  {
    assert ONCE[B].children + [12] == [12];
  }

  lemma ThirdLink()
    ensures ParentsOf(TWICE) == map[C := B] && Under(TWICE, A, C) == KNOT
  {
    assert TWICE[C].children + [10] == [10];
  }

  lemma LinkedOnce() returns (t: State)
    ensures ReachedIn(4, t) && t.objects.Keys == {A, B, C, Key(0, 20)} && t.surfaces == ONCE
  {
    t := ThreeSurfaces();
    FirstLink();
    t := LinkThen(3, t, Key(0, 20), C, A);
  }

  lemma LinkedTwice() returns (t: State)
    ensures ReachedIn(5, t) && t.objects.Keys == {A, B, C, Key(0, 20), Key(0, 21)} && t.surfaces == TWICE
  {
    t := LinkedOnce();
    SecondLink();
    OneLink(C, A);
    t := LinkThen(4, t, Key(0, 21), C, B);
  }

  lemma OneLink(child: Key, parent: Key)
    requires child != parent
    ensures Acyclic(map[child := parent])
    ensures forall k :: Above(map[child := parent], k, parent) <==> k == parent
  {
    assert Ends(map[child := parent], child, 1);
  }

  /** A surface given a second parent stays on its first parent's list, and no request objects. */
  lemma StaleListWitness() returns (events: seq<Event>, t: State)
    ensures Runs(INITIAL, events, t) && |events| == 5 && NoneRefused(INITIAL, events)
    ensures Rooted(t.surfaces) && !ListsSound(t.surfaces)
    ensures A in t.surfaces && C in t.surfaces && C.id in t.surfaces[A].children && t.surfaces[C].parent == Some(B.id)
  {
    t := LinkedTwice();
    events :| |events| == 5 && Runs(INITIAL, events, t) && NoneRefused(INITIAL, events);
    ReachedRooted(t);
    assert !ListSound(t.surfaces, A);
  }

  /** What the lists and links of the three come to once `A` is put under `C` as well. */
  const KNOT: SurfaceMap := map[
    A := LINKED_CHILD.(children := [12], parent := Some(12)),
    B := NEW_SURFACE.(children := [12]),
    C := LINKED_CHILD.(children := [10], parent := Some(11))]

  lemma Knotted() returns (t: State)
    ensures ReachedIn(6, t) && t.surfaces == KNOT
  {
    t := LinkedTwice();
    ThirdLink();
    NotAbove();
    t := LinkThen(5, t, Key(0, 22), A, C);
  }

  lemma NotAbove()
    ensures Acyclic(map[C := B]) && !Above(map[C := B], A, C)
  {
    OneLink(C, B);
    DepthStep(map[C := B], C);
    assert !Above(map[C := B], A, B);
  }

  lemma KnotLoops()
    requires Rooted(KNOT)
    ensures !Synced(KNOT, B)
    ensures Loops(SyncedGraph(KNOT), B) && Loops(ListedGraph(KNOT), B)
  {
    var p := [B, C, A, C];
    assert Synced(KNOT, A) && Synced(KNOT, C);
    assert C in SyncedKids(KNOT, B) && A in SyncedKids(KNOT, C) && C in SyncedKids(KNOT, A);
    assert Path(SyncedGraph(KNOT), B, p);
    SyncedPathIsListed(KNOT, B, p);
    assert !Distinct(p) by { assert p[1] == p[3]; }
  }

  /**
   Then `A` under `C`. Links go up from `A` by `C` to `B`, as the ancestor check wants; lists go down from
   `B` to `C` to `A` and back to `C`. A commit on `B` drains its queue for ever, and drawing or hit testing
   it recurses for ever.
   */
  lemma EndlessWitness() returns (events: seq<Event>, t: State)
    ensures Runs(INITIAL, events, t) && |events| == 6 && NoneRefused(INITIAL, events)
    ensures Rooted(t.surfaces) && B in t.surfaces
    ensures !Completes(t, Commit(B, true))
    ensures !EndsBelow(t.surfaces, B)
  {
    t := Knotted();
    events :| |events| == 6 && Runs(INITIAL, events, t) && NoneRefused(INITIAL, events);
    ReachedRooted(t);
    KnotLoops();
    BottomsIffNoLoop(ListedGraph(KNOT), B);
    CommitHangs(t, B);
  }

  lemma CommitHangs(t: State, k: Key)
    requires Rooted(t.surfaces) && k in t.surfaces && t.surfaces[k].pending == NOTHING_PENDING
    requires !Synced(t.surfaces, k) && Loops(SyncedGraph(t.surfaces), k)
    ensures !Completes(t, Commit(k, true))
  {
    HaltsIffNoLoop(SyncedGraph(t.surfaces), k);
    assert Starts(t, Commit(k, true)) == Some(Start(t.surfaces, k));
  }

  // ----- A surface that was another's child -----

  const PAIR: SurfaceMap := map[A := NEW_SURFACE, C := NEW_SURFACE]

  const PAIRED: SurfaceMap := map[
    A := NEW_SURFACE.(children := [12]),
    C := LINKED_CHILD.(parent := Some(10))]

  const ASIDE: Point := Point(5, 0)

  lemma PairIsPaired()
    ensures ParentsOf(PAIR) == map[] && Under(PAIR, C, A) == PAIRED
  {
    assert PAIR[A].children + [12] == [12];
  }

  lemma TwoLinked() returns (t: State)
    ensures ReachedIn(3, t) && t.surfaces == PAIRED && t.subsurfaces == map[Key(0, 20) := 12]
  {
    var none: seq<Event> := [];
    assert |none| == 0 && Runs(INITIAL, none, INITIAL);
    t := CreateThen(0, INITIAL, A);
    t := CreateThen(1, t, C);
    assert t.surfaces == PAIR;
    PairIsPaired();
    t := LinkThen(2, t, Key(0, 20), C, A);
  }

  lemma Moved() returns (t: State)
    ensures ReachedIn(4, t) && t.subsurfaces == map[Key(0, 20) := 12] && C in t.surfaces
    ensures t.surfaces == PAIRED[C := PAIRED[C].(subsurfacePosition := ASIDE)]
  {
    t := TwoLinked();
    ReachedPlain(t, SetSubsurfacePosition(Key(0, 20), ASIDE));
    ReachedInOne(3, t, SetSubsurfacePosition(Key(0, 20), ASIDE));
    t := PositionStep(t, Key(0, 20), ASIDE);
  }

  /**
   A subsurface moved off its parent's corner, and then no longer one. It has no parent, and still the offset from
   the one it had: that the walkers add to wherever it is put next, and drawing does not.
   */
  lemma FormerChildWitness() returns (events: seq<Event>, t: State)
    ensures Runs(INITIAL, events, t) && |events| == 5 && NoneRefused(INITIAL, events)
    ensures C in t.surfaces && t.surfaces[C].parent.None? && !t.surfaces[C].isSubsurface
    ensures t.surfaces[C].subsurfacePosition == ASIDE
  {
    var moved := Moved();
    t := Loosen(moved);
    events :| |events| == 5 && Runs(INITIAL, events, t) && NoneRefused(INITIAL, events);
  }

  lemma Loosen(s: State) returns (t: State)
    requires ReachedIn(4, s) && s.subsurfaces == map[Key(0, 20) := 12] && C in s.surfaces
    requires s.surfaces == PAIRED[C := PAIRED[C].(subsurfacePosition := ASIDE)]
    ensures ReachedIn(5, t) && C in t.surfaces && t.surfaces[C].parent.None? && !t.surfaces[C].isSubsurface
    ensures t.surfaces[C].subsurfacePosition == ASIDE
  {
    ReachedInRooted(4, s);
    LoosenCompletes(s);
    LoosenLeaves(s);
    t := DestroySubsurfaceStep(s, Key(0, 20));
    assert t.subsurfaces != s.subsurfaces;
    LoosenIsStep(s);
    ReachedInOne(4, s, DestroySubsurface(Key(0, 20)));
  }

  lemma ReachedInRooted(n: nat, t: State)
    requires ReachedIn(n, t)
    ensures Rooted(t.surfaces)
  {
    var events :| |events| == n && Runs(INITIAL, events, t) && NoneRefused(INITIAL, events);
    ReachedRooted(t);
  }

  ghost predicate IsMoved(s: State) {
    && s.subsurfaces == map[Key(0, 20) := 12] && C in s.surfaces && Rooted(s.surfaces)
    && s.surfaces == PAIRED[C := PAIRED[C].(subsurfacePosition := ASIDE)]
  }

  lemma LoosenCompletes(s: State)
    requires IsMoved(s)
    ensures Completes(s, DestroySubsurface(Key(0, 20)))
  {
    LooseIsRooted(s.surfaces);
    ChildlessSettles(UnlinkSubsurface(s.surfaces, C), C);
  }

  lemma LoosenIsStep(s: State)
    requires Completes(s, DestroySubsurface(Key(0, 20)))
    ensures Enabled(s, DestroySubsurface(Key(0, 20)), [])
    ensures Step(s, DestroySubsurface(Key(0, 20)), []) == DestroySubsurfaceStep(s, Key(0, 20))
  {}

  lemma LoosenLeaves(s: State)
    requires IsMoved(s) && Completes(s, DestroySubsurface(Key(0, 20)))
    ensures var t := DestroySubsurfaceStep(s, Key(0, 20));
      && t.subsurfaces == map[] && C in t.surfaces && t.surfaces[C].parent.None? && !t.surfaces[C].isSubsurface
      && t.surfaces[C].subsurfacePosition == ASIDE
  {
    LooseIsRooted(s.surfaces);
    LoneFlush(s.(surfaces := UnlinkSubsurface(s.surfaces, C), subsurfaces := s.subsurfaces - {Key(0, 20)}), C);
  }

  /** What a surface without children held, applied. */
  lemma LoneFlush(s: State, k: Key)
    requires Rooted(s.surfaces) && k in s.surfaces && s.surfaces[k].children == []
    ensures Settles(s.surfaces, k)
    ensures var t := Flush(s, k);
      && t.subsurfaces == s.subsurfaces && k in t.surfaces
      && t.surfaces[k] == Apply(s.surfaces[k].(cached := None), CacheOf(s.surfaces, k))
  {
    ChildlessSettles(s.surfaces, k);
    SameLinksSameGraph(s.surfaces, WithoutCache(s.surfaces, k));
    LoneSweep(WithoutCache(s.surfaces, k), k, CacheOf(s.surfaces, k));
  }

  lemma LooseIsRooted(m: SurfaceMap)
    requires m == PAIRED[C := PAIRED[C].(subsurfacePosition := ASIDE)]
    ensures var n := UnlinkSubsurface(m, C);
      && Rooted(n) && Rooted(WithoutCache(n, C)) && C in n && n[C].children == []
  {
    var n := UnlinkSubsurface(m, C);
    assert ParentsOf(n) == map[] && ParentsOf(WithoutCache(n, C)) == map[];
  }
}
