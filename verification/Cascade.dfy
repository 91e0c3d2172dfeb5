/** Synchronised commits: which surfaces one commit reaches, in what order, and what it leaves. */
module Cascade {
  import opened Base
  import opened Links
  import opened Descent
  import opened Surfaces
  import opened Forest

  /** A subsurface is synchronised if it says so or if the one above it is. */
  ghost predicate Synced(m: SurfaceMap, k: Key)
    requires Rooted(m)
    decreases Depth(ParentsOf(m), k)
  {
    && k in m
    && m[k].isSubsurface
    && (m[k].subsurfaceSync
        || (m[k].parent.Some? && (DepthStep(ParentsOf(m), k); Synced(m, Key(k.client, m[k].parent.value)))))
  }

  method IsEffectivelySynced(m: SurfaceMap, k: Key) returns (yes: bool)
    requires Rooted(m)
    ensures yes == Synced(m, k)
  {
    ghost var par := ParentsOf(m);
    LinksFewer(m);
    var current := k;
    for i := 0 to |m| + 1
      invariant current.client == k.client
      invariant Depth(par, current) + i == Depth(par, k)
      invariant Synced(m, current) == Synced(m, k)
    {
      if current !in m || !m[current].isSubsurface { return false; }
      if m[current].subsurfaceSync { return true; }
      if m[current].parent.None? { return false; }
      DepthStep(par, current);
      current := Key(k.client, m[current].parent.value);
    }
    assert false;
    return false;
  }

  ghost function SyncedIn(m: SurfaceMap, client: nat, ids: seq<nat>): (r: seq<Key>)
    requires Rooted(m)
    ensures forall x :: x in r <==> x.client == client && x.id in ids && Synced(m, x)
    ensures Distinct(ids) ==> Distinct(r)
  {
    if ids == [] then [] else
      var rest := SyncedIn(m, client, ids[1..]);
      if Synced(m, Key(client, ids[0])) then [Key(client, ids[0])] + rest else rest
  }

  /** `synced_children`. */
  ghost function SyncedKids(m: SurfaceMap, k: Key): (r: seq<Key>)
    requires Rooted(m)
    ensures forall x :: x in r <==> k in m && x.client == k.client && x.id in m[k].children && Synced(m, x)
  {
    if k in m then SyncedIn(m, k.client, m[k].children) else []
  }

  method SyncedChildren(m: SurfaceMap, k: Key) returns (r: seq<Key>)
    requires Rooted(m)
    ensures r == SyncedKids(m, k)
  {
    r := [];
    if k in m {
      var ids := m[k].children;
      var i := |ids|;
      while i > 0
        invariant 0 <= i <= |ids|
        invariant r == SyncedIn(m, k.client, ids[i..])
      {
        i := i - 1;
        assert ids[i..][1..] == ids[i + 1..];
        var synced := IsEffectivelySynced(m, Key(k.client, ids[i]));
        if synced { r := [Key(k.client, ids[i])] + r; }
      }
      assert ids[0..] == ids;
    }
  }

  // ----- Walking down -----

  /** What a drain goes on to from each surface. */
  ghost function SyncedGraph(m: SurfaceMap): Graph
    requires Rooted(m)
  {
    map k | k in m :: SyncedKids(m, k)
  }

  function Listed(client: nat, ids: seq<nat>): (r: seq<Key>)
    ensures forall x :: x in r <==> x.client == client && x.id in ids
  {
    if ids == [] then [] else [Key(client, ids[0])] + Listed(client, ids[1..])
  }

  /** What drawing and hit testing go on to from each surface. */
  function ListedGraph(m: SurfaceMap): Graph { map k | k in m :: Listed(k.client, m[k].children) }

  /** A queue drained from this surface runs dry. */
  ghost predicate Settles(m: SurfaceMap, start: Key) { Rooted(m) && Halts(SyncedGraph(m), start) }

  /** A recursion from this surface down its child lists ends. */
  ghost predicate EndsBelow(m: SurfaceMap, k: Key) { Bottoms(ListedGraph(m), k) }

  /** A forest whose child lists say what its links say. */
  ghost predicate Fine(m: SurfaceMap) { Rooted(m) && ListsSound(m) }

  /** On one, every way down goes one link down at a time. */
  lemma {:induction false} PathDescends(m: SurfaceMap, start: Key, p: seq<Key>, i: nat)
    requires Fine(m) && Path(ListedGraph(m), start, p) && i < |p|
    ensures Depth(ParentsOf(m), p[i]) == Depth(ParentsOf(m), start) + i
  {
    if i > 0 {
      PathDescends(m, start, p, i - 1);
      assert p[i - 1 + 1] in Kids(ListedGraph(m), p[i - 1]);
      assert ListSound(m, p[i - 1]);
      DepthStep(ParentsOf(m), p[i]);
    }
  }

  /** So none of them loops: every drain and every recursion ends. */
  lemma FineEnds(m: SurfaceMap, start: Key)
    requires Fine(m)
    ensures Settles(m, start) && EndsBelow(m, start)
  {
    forall p | Path(ListedGraph(m), start, p) ensures Distinct(p) {
      forall i, j | 0 <= i < j < |p| ensures p[i] != p[j] {
        PathDescends(m, start, p, i);
        PathDescends(m, start, p, j);
      }
    }
    forall p | Path(SyncedGraph(m), start, p) ensures Distinct(p) {
      SyncedPathIsListed(m, start, p);
    }
    BottomsIffNoLoop(ListedGraph(m), start);
    HaltsIffNoLoop(SyncedGraph(m), start);
  }

  lemma SyncedPathIsListed(m: SurfaceMap, start: Key, p: seq<Key>)
    requires Rooted(m) && Path(SyncedGraph(m), start, p)
    ensures Path(ListedGraph(m), start, p)
  {
    forall i | 0 <= i < |p| - 1 ensures p[i + 1] in Kids(ListedGraph(m), p[i]) {
      assert p[i + 1] in Kids(SyncedGraph(m), p[i]);
    }
  }

  /** A drain that is let loose on a surface without children stops at it. */
  lemma ChildlessSettles(m: SurfaceMap, k: Key)
    requires Rooted(m) && (k in m ==> m[k].children == [])
    ensures Kids(SyncedGraph(m), k) == [] && Empties(SyncedGraph(m), [k], 1) && Settles(m, k)
  {
    assert Kids(SyncedGraph(m), k) == [];
    assert Empties(SyncedGraph(m), Popped([k], []), 0);
  }

  /** No two keys on the queue are in line, so no surface can be reached from both. */
  ghost predicate Apart(m: SurfaceMap, queue: seq<Key>)
    requires Rooted(m)
  {
    forall i, j :: 0 <= i < |queue| && 0 <= j < |queue| && i != j ==> !Above(ParentsOf(m), queue[i], queue[j])
  }

  ghost function Members(queue: seq<Key>): set<Key> { set q | q in queue }

  /** Everything at or below some key on the queue. */
  ghost function Reach(m: SurfaceMap, queue: seq<Key>): set<Key>
    requires Rooted(m)
  {
    set x: Key | x in m.Keys + Members(queue) && (exists q :: q in queue && Above(ParentsOf(m), q, x))
  }

  lemma KidIsBelow(m: SurfaceMap, k: Key, kid: Key)
    requires Fine(m) && kid in SyncedKids(m, k)
    ensures kid in ParentsOf(m) && ParentsOf(m)[kid] == k && kid != k
    ensures Above(ParentsOf(m), k, kid) && !Above(ParentsOf(m), kid, k)
  {
    assert ListSound(m, k);
    DepthStep(ParentsOf(m), kid);
    assert Above(ParentsOf(m), k, k);
    if Above(ParentsOf(m), kid, k) { AboveDepth(ParentsOf(m), kid, k); }
  }

  /** A child is in line with nothing its parent is not in line with. */
  lemma KidApartFromOthers(m: SurfaceMap, k: Key, kid: Key, other: Key)
    requires Fine(m) && kid in SyncedKids(m, k)
    requires !Above(ParentsOf(m), k, other) && !Above(ParentsOf(m), other, k)
    ensures !Above(ParentsOf(m), kid, other) && !Above(ParentsOf(m), other, kid)
  {
    KidIsBelow(m, k, kid);
    DepthStep(ParentsOf(m), kid);
    if Above(ParentsOf(m), kid, other) { AboveTransitive(ParentsOf(m), k, kid, other); }
  }

  lemma KidsApart(m: SurfaceMap, k: Key, a: Key, b: Key)
    requires Fine(m) && a in SyncedKids(m, k) && b in SyncedKids(m, k) && a != b
    ensures !Above(ParentsOf(m), a, b)
  {
    KidIsBelow(m, k, a);
    KidIsBelow(m, k, b);
    DepthStep(ParentsOf(m), b);
  }

  lemma KidsDistinct(m: SurfaceMap, k: Key)
    requires Fine(m)
    ensures Distinct(SyncedKids(m, k))
  {
    if k in m { assert ListSound(m, k); }
  }

  lemma PopApart(m: SurfaceMap, queue: seq<Key>)
    requires Fine(m) && queue != [] && Apart(m, queue)
    ensures Apart(m, Popped(queue, SyncedKids(m, queue[0])))
  {
    var par, h, kids := ParentsOf(m), queue[0], SyncedKids(m, queue[0]);
    var next := Popped(queue, kids);
    var cut := |queue| - 1;
    KidsDistinct(m, h);
    forall i, j | 0 <= i < |next| && 0 <= j < |next| && i != j
      ensures !Above(par, next[i], next[j])
    {
      assert i < cut ==> next[i] == queue[i + 1] && !Above(par, h, next[i]) && !Above(par, next[i], h);
      assert j < cut ==> next[j] == queue[j + 1] && !Above(par, h, next[j]) && !Above(par, next[j], h);
      assert i >= cut ==> next[i] == kids[i - cut] && next[i] in kids;
      assert j >= cut ==> next[j] == kids[j - cut] && next[j] in kids;
      if i >= cut && j >= cut {
        KidsApart(m, h, next[i], next[j]);
      } else if i >= cut {
        KidApartFromOthers(m, h, next[i], next[j]);
      } else if j >= cut {
        KidApartFromOthers(m, h, next[j], next[i]);
      }
    }
  }

  /** The head of the queue is below nothing else that is or will be on it. */
  lemma HeadIsClear(m: SurfaceMap, queue: seq<Key>, q: Key)
    requires Fine(m) && queue != [] && Apart(m, queue)
    requires q in Popped(queue, SyncedKids(m, queue[0]))
    ensures !Above(ParentsOf(m), q, queue[0])
  {
    var kids := SyncedKids(m, queue[0]);
    if q in kids {
      KidIsBelow(m, queue[0], q);
    } else {
      var i :| 0 <= i < |queue| - 1 && queue[i + 1] == q;
    }
  }

  lemma PopShrinks(m: SurfaceMap, queue: seq<Key>)
    requires Fine(m) && queue != [] && Apart(m, queue)
    ensures Reach(m, Popped(queue, SyncedKids(m, queue[0]))) < Reach(m, queue)
  {
    var par, h, kids := ParentsOf(m), queue[0], SyncedKids(m, queue[0]);
    var next := Popped(queue, kids);
    forall x | x in Reach(m, next)
      ensures x in Reach(m, queue) && x != h
    {
      var q :| q in next && Above(par, q, x);
      HeadIsClear(m, queue, q);
      if q in kids {
        KidIsBelow(m, h, q);
        AboveTransitive(par, h, q, x);
        assert h in queue;
      } else {
        assert q in queue;
      }
    }
    assert Above(par, h, h) && h in queue;
    assert h in Reach(m, queue);
  }

  /** The order in which the queue is drained. */
  ghost function Order(m: SurfaceMap, queue: seq<Key>): seq<Key>
    requires Fine(m) && Apart(m, queue)
    decreases Reach(m, queue)
  {
    if queue == [] then [] else
      PopApart(m, queue); PopShrinks(m, queue);
      [queue[0]] + Order(m, Popped(queue, SyncedKids(m, queue[0])))
  }

  /** `start` itself, or listed under something the cascade reaches and synchronised. */
  ghost predicate InCascade(m: SurfaceMap, start: Key, k: Key)
    requires Rooted(m)
    decreases Depth(ParentsOf(m), k)
  {
    k == start ||
    (k in ParentsOf(m) && k in SyncedKids(m, ParentsOf(m)[k])
     && (DepthStep(ParentsOf(m), k); InCascade(m, start, ParentsOf(m)[k])))
  }

  lemma {:induction false} InCascadeIsBelow(m: SurfaceMap, start: Key, k: Key)
    requires Rooted(m) && InCascade(m, start, k)
    ensures Above(ParentsOf(m), start, k)
    decreases Depth(ParentsOf(m), k)
  {
    if k != start {
      DepthStep(ParentsOf(m), k);
      InCascadeIsBelow(m, start, ParentsOf(m)[k]);
    }
  }

  /** The cascade from a surface is that surface, then the cascades from its synchronised children. */
  lemma {:induction false} CascadeUnfolds(m: SurfaceMap, start: Key, k: Key)
    requires Fine(m)
    ensures InCascade(m, start, k) <==> k == start || exists c :: c in SyncedKids(m, start) && InCascade(m, c, k)
    decreases Depth(ParentsOf(m), k)
  {
    if k in ParentsOf(m) && k in SyncedKids(m, ParentsOf(m)[k]) && k != start {
      var p := ParentsOf(m)[k];
      DepthStep(ParentsOf(m), k);
      CascadeUnfolds(m, start, p);
      if p == start { assert InCascade(m, k, k); }
      if c :| c in SyncedKids(m, start) && InCascade(m, c, k) {
        KidIsBelow(m, start, c);
        if c != k { assert InCascade(m, c, p); }
      }
      if c :| c in SyncedKids(m, start) && InCascade(m, c, p) { assert InCascade(m, c, k); }
    } else if c :| c in SyncedKids(m, start) && InCascade(m, c, k) {
      KidIsBelow(m, start, c);
    }
  }

  /** Draining the queue meets exactly the surfaces in the cascade of something on it. */
  lemma {:induction false} OrderMembers(m: SurfaceMap, queue: seq<Key>, k: Key)
    requires Fine(m) && Apart(m, queue)
    ensures k in Order(m, queue) <==> exists q :: q in queue && InCascade(m, q, k)
    decreases Reach(m, queue)
  {
    if queue != [] {
      var h, kids := queue[0], SyncedKids(m, queue[0]);
      var next := Popped(queue, kids);
      PopApart(m, queue); PopShrinks(m, queue);
      OrderMembers(m, next, k);
      CascadeUnfolds(m, h, k);
      if q :| q in queue && InCascade(m, q, k) {
        if q != h { assert q in queue[1..]; assert q in next; }
        else if k != h {
          var c :| c in kids && InCascade(m, c, k);
          assert c in next;
        }
      }
      if q :| q in next && InCascade(m, q, k) {
        if q !in kids { assert q in queue; }
      }
    }
  }

  /** No surface is met twice. */
  lemma {:induction false} OrderDistinct(m: SurfaceMap, queue: seq<Key>)
    requires Fine(m) && Apart(m, queue)
    ensures Distinct(Order(m, queue))
    decreases Reach(m, queue)
  {
    if queue != [] {
      var h := queue[0];
      var next := Popped(queue, SyncedKids(m, h));
      PopApart(m, queue); PopShrinks(m, queue);
      OrderDistinct(m, next);
      OrderMembers(m, next, h);
      forall q | q in next
        ensures !InCascade(m, q, h)
      {
        HeadIsClear(m, queue, q);
        if InCascade(m, q, h) { InCascadeIsBelow(m, q, h); }
      }
    }
  }

  /** A parent is always met before its child. */
  lemma {:induction false} OrderParentFirst(m: SurfaceMap, queue: seq<Key>, i: nat)
    requires Fine(m) && Apart(m, queue)
    requires i < |Order(m, queue)|
    ensures var k := Order(m, queue)[i];
      k in queue || (k in ParentsOf(m) && ParentsOf(m)[k] in Order(m, queue)[..i])
    decreases Reach(m, queue)
  {
    var h, kids := queue[0], SyncedKids(m, queue[0]);
    var next := Popped(queue, kids);
    PopApart(m, queue); PopShrinks(m, queue);
    var all, rest := Order(m, queue), Order(m, next);
    assert all == [h] + rest;
    if i > 0 {
      OrderParentFirst(m, next, i - 1);
      var k := rest[i - 1];
      assert all[..i] == [h] + rest[..i - 1];
      if k in kids { KidIsBelow(m, h, k); }
    }
  }

  // ----- What the cascade leaves behind -----

  function Cached(s: Surface): Pending {
    if s.cached.Some? then s.cached.value else NOTHING_PENDING
  }

  /** What is applied to `k` when `pending` is applied to `start`. */
  function Due(m: SurfaceMap, start: Key, pending: Pending, k: Key): Pending
    requires k in m || k == start
  {
    if k == start then pending else Cached(m[k])
  }

  /** A surface whose cache has been taken for applying; the start surface's is its caller's. */
  function Taken(m: SurfaceMap, start: Key, k: Key): Surface
    requires k in m
  {
    if k == start then m[k] else m[k].(cached := None)
  }

  /** Every surface after the cascade, said without the queue. */
  ghost function AfterCascade(m: SurfaceMap, start: Key, pending: Pending): SurfaceMap
    requires Rooted(m)
  {
    map k | k in m ::
      if InCascade(m, start, k) then Apply(Taken(m, start, k), Due(m, start, pending, k)) else m[k]
  }

  /** The buffer a commit displaces, which `apply_one` queues for release. */
  function Displaced(k: Key, s: Surface, p: Pending): seq<Key> {
    if p.bufferAttached && s.bufferId.Some? && p.bufferId != s.bufferId then [Key(k.client, s.bufferId.value)] else []
  }

  ghost function DisplacedBy(m: SurfaceMap, start: Key, pending: Pending, order: seq<Key>): seq<Key>
    requires forall k :: k in order ==> k in m || k == start
  {
    if order == [] then [] else
      DisplacedBy(m, start, pending, order[..|order| - 1])
      + (var k := order[|order| - 1]; if k in m then Displaced(k, m[k], Due(m, start, pending, k)) else [])
  }

  lemma OrderFromOne(m: SurfaceMap, start: Key)
    requires Fine(m)
    ensures Apart(m, [start])
    ensures Distinct(Order(m, [start]))
    ensures forall k :: k in Order(m, [start]) <==> InCascade(m, start, k)
    ensures forall k :: k in Order(m, [start]) ==> k in m || k == start
  {
    OrderDistinct(m, [start]);
    forall k ensures k in Order(m, [start]) <==> InCascade(m, start, k) {
      OrderMembers(m, [start], k);
    }
  }

  // ----- Links, which no cascade touches -----

  ghost predicate SameLinks(m: SurfaceMap, n: SurfaceMap) {
    && m.Keys == n.Keys
    && forall k :: k in m ==>
         && m[k].parent == n[k].parent
         && m[k].children == n[k].children
         && m[k].isSubsurface == n[k].isSubsurface
         && m[k].subsurfaceSync == n[k].subsurfaceSync
  }

  lemma SameLinksSameShape(m: SurfaceMap, n: SurfaceMap)
    requires SameLinks(m, n)
    ensures ParentsOf(m) == ParentsOf(n)
    ensures Fine(m) ==> Fine(n)
  {
    assert ParentsOf(m) == ParentsOf(n);
    if ListsSound(m) {
      forall k | k in n ensures ListSound(n, k) { assert ListSound(m, k); }
    }
  }

  lemma {:induction false} SameLinksSameSync(m: SurfaceMap, n: SurfaceMap, k: Key)
    requires SameLinks(m, n) && Rooted(m) && Rooted(n)
    ensures Synced(m, k) == Synced(n, k)
    decreases Depth(ParentsOf(m), k)
  {
    SameLinksSameShape(m, n);
    if k in m && m[k].parent.Some? {
      DepthStep(ParentsOf(m), k);
      SameLinksSameSync(m, n, Key(k.client, m[k].parent.value));
    }
  }

  lemma {:induction false} SameLinksSameSyncedIn(m: SurfaceMap, n: SurfaceMap, client: nat, ids: seq<nat>)
    requires SameLinks(m, n) && Rooted(m) && Rooted(n)
    ensures SyncedIn(m, client, ids) == SyncedIn(n, client, ids)
  {
    if ids != [] {
      SameLinksSameSync(m, n, Key(client, ids[0]));
      SameLinksSameSyncedIn(m, n, client, ids[1..]);
    }
  }

  lemma SameLinksSameKids(m: SurfaceMap, n: SurfaceMap, k: Key)
    requires SameLinks(m, n) && Rooted(m) && Rooted(n)
    ensures SyncedKids(m, k) == SyncedKids(n, k)
  {
    if k in m { SameLinksSameSyncedIn(m, n, k.client, m[k].children); }
  }

  lemma SameLinksSameGraph(m: SurfaceMap, n: SurfaceMap)
    requires SameLinks(m, n) && Rooted(m)
    ensures Rooted(n) && SyncedGraph(m) == SyncedGraph(n)
  {
    SameLinksSameShape(m, n);
    forall k | k in m ensures SyncedKids(m, k) == SyncedKids(n, k) { SameLinksSameKids(m, n, k); }
  }
}
