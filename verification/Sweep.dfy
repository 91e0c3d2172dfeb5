/**
 `apply_surface_state` on any forest, sound lists or not: the queue and what each turn does to the
 surfaces. Which children a surface has is fixed throughout, as no turn touches a link.
 */
module Sweep {
  import opened Base
  import opened Links
  import opened Descent
  import opened Surfaces
  import opened Forest
  import opened Cascade

  /** The surfaces, and the buffers displaced from them so far. */
  datatype Swept = Swept(surfaces: SurfaceMap, displaced: seq<Key>)

  /** A surface on the queue, with what is to be applied to it. */
  type Entry = (Key, Pending)

  function Applied(m: SurfaceMap, e: Entry): SurfaceMap {
    if e.0 in m then m[e.0 := Apply(m[e.0], e.1)] else m
  }

  function Displaces(m: SurfaceMap, e: Entry): seq<Key> {
    if e.0 in m then Displaced(e.0, m[e.0], e.1) else []
  }

  function Emptied(m: SurfaceMap, kids: seq<Key>): SurfaceMap {
    map k | k in m :: if k in kids then m[k].(cached := None) else m[k]
  }

  /** What is queued for children whose caches are taken in turn: one listed twice has nothing left the second time. */
  function Takings(m: SurfaceMap, kids: seq<Key>): (r: seq<Entry>)
    ensures |r| == |kids|
  {
    if kids == [] then [] else
      var front, last := kids[..|kids| - 1], kids[|kids| - 1];
      Takings(m, front) + [(last, if last in m && last !in front then Cached(m[last]) else NOTHING_PENDING)]
  }

  function KeysOf(queue: seq<Entry>): (r: seq<Key>)
    ensures |r| == |queue| && forall i :: 0 <= i < |r| ==> r[i] == queue[i].0
  {
    seq(|queue|, i requires 0 <= i < |queue| => queue[i].0)
  }

  /** One turn: the head applied, its synchronised children's caches taken. */
  function Turn(g: Graph, w: Swept, e: Entry): Swept {
    Swept(Emptied(Applied(w.surfaces, e), Kids(g, e.0)), w.displaced + Displaces(w.surfaces, e))
  }

  function NextQueue(g: Graph, m: SurfaceMap, queue: seq<Entry>): seq<Entry>
    requires queue != []
  {
    queue[1..] + Takings(Applied(m, queue[0]), Kids(g, queue[0].0))
  }

  /** The queue drained, for at most `n` turns. */
  function Drain(g: Graph, w: Swept, queue: seq<Entry>, n: nat): Swept
    decreases n
  {
    if queue == [] || n == 0 then w
    else Drain(g, Turn(g, w, queue[0]), NextQueue(g, w.surfaces, queue), n - 1)
  }

  /** The queue drained until it is empty. */
  ghost function SweepFrom(m: SurfaceMap, start: Key, pending: Pending): Swept
    requires Settles(m, start)
  {
    var n: nat :| Empties(SyncedGraph(m), [start], n);
    Drain(SyncedGraph(m), Swept(m, []), [(start, pending)], n)
  }

  // ----- The queue's keys -----

  lemma {:induction false} TakingsKeys(m: SurfaceMap, kids: seq<Key>)
    ensures KeysOf(Takings(m, kids)) == kids
  {
    if kids != [] {
      var front, last := kids[..|kids| - 1], kids[|kids| - 1];
      TakingsKeys(m, front);
      assert kids == front + [last];
    }
  }

  lemma NextKeys(g: Graph, m: SurfaceMap, queue: seq<Entry>)
    requires queue != []
    ensures KeysOf(queue)[0] == queue[0].0
    ensures KeysOf(NextQueue(g, m, queue)) == Popped(KeysOf(queue), Kids(g, queue[0].0))
  {
    TakingsKeys(Applied(m, queue[0]), Kids(g, queue[0].0));
  }

  lemma DrainUnfolds(g: Graph, w: Swept, queue: seq<Entry>, n: nat)
    requires queue != [] && Empties(g, KeysOf(queue), n)
    ensures n > 0 && Empties(g, KeysOf(NextQueue(g, w.surfaces, queue)), n - 1)
    ensures Drain(g, w, queue, n) == Drain(g, Turn(g, w, queue[0]), NextQueue(g, w.surfaces, queue), n - 1)
  {
    assert KeysOf(queue) != [];
    NextKeys(g, w.surfaces, queue);
  }

  /** Turns to spare change nothing. */
  lemma {:induction false} DrainSettled(g: Graph, w: Swept, queue: seq<Entry>, n: nat, m: nat)
    requires Empties(g, KeysOf(queue), n) && n <= m
    ensures Drain(g, w, queue, m) == Drain(g, w, queue, n)
    decreases n
  {
    if queue != [] {
      DrainUnfolds(g, w, queue, n);
      DrainSettled(g, Turn(g, w, queue[0]), NextQueue(g, w.surfaces, queue), n - 1, m - 1);
    }
  }

  lemma SweepIs(m: SurfaceMap, start: Key, pending: Pending, n: nat)
    requires Rooted(m) && Empties(SyncedGraph(m), [start], n)
    ensures Settles(m, start)
    ensures SweepFrom(m, start, pending) == Drain(SyncedGraph(m), Swept(m, []), [(start, pending)], n)
  {
    var g, w, queue := SyncedGraph(m), Swept(m, []), [(start, pending)];
    var picked: nat :| Empties(g, [start], picked)
      && SweepFrom(m, start, pending) == Drain(g, w, queue, picked);
    assert KeysOf(queue) == [start];
    if picked <= n { DrainSettled(g, w, queue, picked, n); } else { DrainSettled(g, w, queue, n, picked); }
  }

  // ----- What a drain leaves alone, and what it may not lose -----

  lemma TurnKeepsLinks(g: Graph, w: Swept, e: Entry)
    ensures SameLinks(w.surfaces, Turn(g, w, e).surfaces)
  {}

  lemma {:induction false} DrainKeepsLinks(g: Graph, w: Swept, queue: seq<Entry>, n: nat)
    ensures SameLinks(w.surfaces, Drain(g, w, queue, n).surfaces)
    decreases n
  {
    if queue != [] && n > 0 {
      TurnKeepsLinks(g, w, queue[0]);
      DrainKeepsLinks(g, Turn(g, w, queue[0]), NextQueue(g, w.surfaces, queue), n - 1);
    }
  }

  lemma SweepKeepsLinks(m: SurfaceMap, start: Key, pending: Pending)
    requires Settles(m, start)
    ensures SameLinks(m, SweepFrom(m, start, pending).surfaces)
    ensures Rooted(SweepFrom(m, start, pending).surfaces)
  {
    var n: nat :| Empties(SyncedGraph(m), [start], n);
    SweepIs(m, start, pending, n);
    DrainKeepsLinks(SyncedGraph(m), Swept(m, []), [(start, pending)], n);
    SameLinksSameShape(m, SweepFrom(m, start, pending).surfaces);
  }

  ghost predicate Shown(m: SurfaceMap, k: Key, b: nat) { k in m && m[k].bufferId == Some(b) }

  lemma TurnDisplaces(g: Graph, w: Swept, e: Entry, k: Key, b: nat)
    requires Shown(w.surfaces, k, b)
    ensures Shown(Turn(g, w, e).surfaces, k, b) || Key(k.client, b) in Turn(g, w, e).displaced
  {
    if e.0 == k {
      assert Key(k.client, b) in Displaces(w.surfaces, e) || Apply(w.surfaces[k], e.1).bufferId == Some(b);
    }
  }

  /** A buffer taken off a surface, however often the drain comes by, is displaced. */
  lemma {:induction false} DrainDisplaces(g: Graph, w: Swept, queue: seq<Entry>, n: nat, k: Key, b: nat)
    requires Shown(w.surfaces, k, b) || Key(k.client, b) in w.displaced
    ensures Shown(Drain(g, w, queue, n).surfaces, k, b) || Key(k.client, b) in Drain(g, w, queue, n).displaced
    decreases n
  {
    if queue != [] && n > 0 {
      if Shown(w.surfaces, k, b) { TurnDisplaces(g, w, queue[0], k, b); }
      DrainDisplaces(g, Turn(g, w, queue[0]), NextQueue(g, w.surfaces, queue), n - 1, k, b);
    }
  }

  lemma SweepDisplaces(m: SurfaceMap, start: Key, pending: Pending, k: Key, b: nat)
    requires Settles(m, start) && Shown(m, k, b)
    ensures Shown(SweepFrom(m, start, pending).surfaces, k, b)
      || Key(k.client, b) in SweepFrom(m, start, pending).displaced
  {
    var n: nat :| Empties(SyncedGraph(m), [start], n);
    SweepIs(m, start, pending, n);
    DrainDisplaces(SyncedGraph(m), Swept(m, []), [(start, pending)], n, k, b);
  }

  /** A surface without children is all its sweep touches. */
  lemma LoneSweep(m: SurfaceMap, k: Key, pending: Pending)
    requires Rooted(m) && k in m && m[k].children == []
    ensures Settles(m, k)
    ensures SweepFrom(m, k, pending) == Swept(m[k := Apply(m[k], pending)], Displaced(k, m[k], pending))
  {
    var g, w, queue := SyncedGraph(m), Swept(m, []), [(k, pending)];
    ChildlessSettles(m, k);
    SweepIs(m, k, pending, 1);
    assert NextQueue(g, m, queue) == [];
    assert Drain(g, w, queue, 1) == Turn(g, w, queue[0]);
    assert Emptied(Applied(m, queue[0]), []) == m[k := Apply(m[k], pending)];
  }
}
