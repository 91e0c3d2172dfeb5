/** On sound child lists a sweep meets each surface of the cascade once, and can be said without its queue. */
module FineSweep {
  import opened Base
  import opened Links
  import opened Descent
  import opened Surfaces
  import opened Forest
  import opened Cascade
  import opened Sweep

  // ----- Part-way through a cascade -----

  /** A surface when `done` have been applied and `queue` have had their caches taken. */
  ghost function PartWay(m: SurfaceMap, start: Key, pending: Pending, done: seq<Key>, queue: seq<Key>, k: Key): Surface
    requires k in m
  {
    if k in done then Apply(Taken(m, start, k), Due(m, start, pending, k))
    else if k in queue then Taken(m, start, k)
    else m[k]
  }

  ghost predicate Midway(m: SurfaceMap, start: Key, pending: Pending, done: seq<Key>, queue: seq<Key>,
                         now: SurfaceMap) {
    && Fine(m)
    && Apart(m, queue) && Apart(m, [start])
    && done + Order(m, queue) == Order(m, [start])
    && now.Keys == m.Keys
    && forall k :: k in m ==> now[k] == PartWay(m, start, pending, done, queue, k)
  }

  lemma MidwayStart(m: SurfaceMap, start: Key, pending: Pending)
    requires Fine(m)
    ensures Midway(m, start, pending, [], [start], m)
  {
    OrderFromOne(m, start);
  }

  lemma DistinctParts<T>(a: seq<T>, b: seq<T>, x: T)
    requires Distinct(a + b) && x in b
    ensures x !in a
  {
    var j :| 0 <= j < |b| && b[j] == x;
    assert (a + b)[|a| + j] == x;
    forall i | 0 <= i < |a| ensures a[i] != x {
      assert (a + b)[i] == a[i];
    }
  }

  lemma QueueInOrder(m: SurfaceMap, queue: seq<Key>, k: Key)
    requires Fine(m) && Apart(m, queue) && k in queue
    ensures k in Order(m, queue)
  {
    OrderMembers(m, queue, k);
    assert InCascade(m, k, k);
  }

  /** The queue holds what is drained next, and nothing that has been. */
  lemma QueueIsAhead(m: SurfaceMap, start: Key, pending: Pending, done: seq<Key>, queue: seq<Key>, now: SurfaceMap,
                     k: Key)
    requires Midway(m, start, pending, done, queue, now) && k in queue
    ensures k !in done && (k in m || k == start)
  {
    OrderFromOne(m, start);
    QueueInOrder(m, queue, k);
    DistinctParts(done, Order(m, queue), k);
    assert k in Order(m, [start]);
  }

  lemma ApartDistinct(m: SurfaceMap, queue: seq<Key>)
    requires Rooted(m) && Apart(m, queue)
    ensures Distinct(queue)
  {
    forall i, j | 0 <= i < j < |queue| ensures queue[i] != queue[j] {
      assert Above(ParentsOf(m), queue[i], queue[i]);
    }
  }

  /** A child about to be queued has not been queued before. */
  lemma KidIsFresh(m: SurfaceMap, start: Key, pending: Pending, done: seq<Key>, queue: seq<Key>, now: SurfaceMap,
                   c: Key)
    requires Midway(m, start, pending, done, queue, now) && queue != [] && c in SyncedKids(m, queue[0])
    ensures c in m && c != start && c !in done && c !in queue
  {
    var h := queue[0];
    KidIsBelow(m, h, c);
    TurnOrder(m, start, pending, done, queue, now);
    KidNotDone(m, start, done + [h], Popped(queue, SyncedKids(m, h)), c);
    KidNotQueued(m, queue, c);
  }

  lemma KidNotDone(m: SurfaceMap, start: Key, done: seq<Key>, next: seq<Key>, c: Key)
    requires Fine(m) && Apart(m, next) && Apart(m, [start]) && c in next && done != []
    requires done + Order(m, next) == Order(m, [start])
    ensures c !in done && c != start
  {
    OrderFromOne(m, start);
    QueueInOrder(m, next, c);
    DistinctParts(done, Order(m, next), c);
    StartIsFirst(m, start);
    assert done[0] == start;
  }

  lemma KidNotQueued(m: SurfaceMap, queue: seq<Key>, c: Key)
    requires Fine(m) && queue != [] && Apart(m, queue) && c in SyncedKids(m, queue[0])
    ensures c !in queue
  {
    var kids := SyncedKids(m, queue[0]);
    PopApart(m, queue);
    ApartDistinct(m, Popped(queue, kids));
    DistinctParts(queue[1..], kids, c);
    KidIsBelow(m, queue[0], c);
  }

  lemma TurnOrder(m: SurfaceMap, start: Key, pending: Pending, done: seq<Key>, queue: seq<Key>, now: SurfaceMap)
    requires Midway(m, start, pending, done, queue, now) && queue != []
    ensures var next := Popped(queue, SyncedKids(m, queue[0]));
      Apart(m, next) && done + [queue[0]] + Order(m, next) == Order(m, [start])
  {
    var next := Popped(queue, SyncedKids(m, queue[0]));
    PopApart(m, queue);
    assert Order(m, queue) == [queue[0]] + Order(m, next);
    assert done + [queue[0]] + Order(m, next) == done + ([queue[0]] + Order(m, next));
  }

  ghost function HeadApplied(m: SurfaceMap, start: Key, pending: Pending, h: Key, now: SurfaceMap): SurfaceMap
    requires h in m || h == start
  {
    Applied(now, (h, Due(m, start, pending, h)))
  }

  /** One turn of the loop: the head applied, its synchronised children's caches taken. */
  lemma MidwayTurn(m: SurfaceMap, start: Key, pending: Pending, done: seq<Key>, queue: seq<Key>, now: SurfaceMap)
    requires Midway(m, start, pending, done, queue, now) && queue != []
    requires queue[0] in m || queue[0] == start
    ensures Midway(m, start, pending, done + [queue[0]], Popped(queue, SyncedKids(m, queue[0])),
                   Emptied(HeadApplied(m, start, pending, queue[0], now), SyncedKids(m, queue[0])))
  {
    TurnOrder(m, start, pending, done, queue, now);
    QueueIsAhead(m, start, pending, done, queue, now, queue[0]);
    PoppedMembers(queue, SyncedKids(m, queue[0]));
    TurnPoints(m, start, pending, done, queue, now);
  }

  lemma PoppedMembers(queue: seq<Key>, kids: seq<Key>)
    requires queue != []
    ensures forall k :: k in Popped(queue, kids) <==> k in queue[1..] || k in kids
    ensures forall k :: k in queue <==> k == queue[0] || k in queue[1..]
  {
    assert queue == [queue[0]] + queue[1..];
  }

  lemma TurnPoints(m: SurfaceMap, start: Key, pending: Pending, done: seq<Key>, queue: seq<Key>, now: SurfaceMap)
    requires Midway(m, start, pending, done, queue, now) && queue != []
    requires queue[0] in m || queue[0] == start
    ensures var after := Emptied(HeadApplied(m, start, pending, queue[0], now), SyncedKids(m, queue[0]));
      forall k :: k in m ==>
        after[k] == PartWay(m, start, pending, done + [queue[0]], Popped(queue, SyncedKids(m, queue[0])), k)
  {
    ApartDistinct(m, queue);
    forall k | k in m
      ensures Emptied(HeadApplied(m, start, pending, queue[0], now), SyncedKids(m, queue[0]))[k]
           == PartWay(m, start, pending, done + [queue[0]], Popped(queue, SyncedKids(m, queue[0])), k)
    {
      TurnPointAt(m, start, pending, done, queue, now, k);
    }
  }

  lemma TurnPointAt(m: SurfaceMap, start: Key, pending: Pending, done: seq<Key>, queue: seq<Key>, now: SurfaceMap,
                    k: Key)
    requires Midway(m, start, pending, done, queue, now) && queue != [] && k in m
    requires (queue[0] in m || queue[0] == start) && queue[0] !in queue[1..]
    ensures Emptied(HeadApplied(m, start, pending, queue[0], now), SyncedKids(m, queue[0]))[k]
         == PartWay(m, start, pending, done + [queue[0]], Popped(queue, SyncedKids(m, queue[0])), k)
  {
    if k in SyncedKids(m, queue[0]) { KidIsFresh(m, start, pending, done, queue, now, k); }
    if k in queue { QueueIsAhead(m, start, pending, done, queue, now, k); }
    TurnPoint(m, start, pending, done, queue, now, k);
  }

  lemma TurnPoint(m: SurfaceMap, start: Key, pending: Pending, done: seq<Key>, queue: seq<Key>, now: SurfaceMap, k: Key)
    requires Rooted(m) && queue != [] && queue[0] !in queue[1..] && (queue[0] in m || queue[0] == start)
    requires now.Keys == m.Keys && k in m && now[k] == PartWay(m, start, pending, done, queue, k)
    requires queue[0] in m ==> now[queue[0]] == PartWay(m, start, pending, done, queue, queue[0])
    requires k in SyncedKids(m, queue[0]) ==> k != start && k !in done && k !in queue
    requires k in queue ==> k !in done
    ensures Emptied(HeadApplied(m, start, pending, queue[0], now), SyncedKids(m, queue[0]))[k]
         == PartWay(m, start, pending, done + [queue[0]], Popped(queue, SyncedKids(m, queue[0])), k)
  {
    assert k in queue <==> k == queue[0] || k in queue[1..];
  }

  lemma StartIsFirst(m: SurfaceMap, start: Key)
    requires Fine(m) && Apart(m, [start])
    ensures |Order(m, [start])| > 0 && Order(m, [start])[0] == start
  {
    PopApart(m, [start]);
    PopShrinks(m, [start]);
  }

  lemma MidwayEnd(m: SurfaceMap, start: Key, pending: Pending, done: seq<Key>, now: SurfaceMap)
    requires Midway(m, start, pending, done, [], now)
    ensures now == AfterCascade(m, start, pending) && done == Order(m, [start])
  {
    OrderFromOne(m, start);
    assert done + [] == done;
  }

  /** `Midway`, with the pending state that travels on the queue. */
  ghost predicate Draining(m: SurfaceMap, start: Key, pending: Pending, done: seq<Key>, queue: seq<Entry>,
                           now: SurfaceMap) {
    && Midway(m, start, pending, done, KeysOf(queue), now)
    && (forall k :: k in done ==> k in m || k == start)
    && (queue != [] ==> CarriesDue(m, start, pending, queue[0]))
    && forall e :: e in queue ==> CarriesDue(m, start, pending, e)
  }

  ghost predicate CarriesDue(m: SurfaceMap, start: Key, pending: Pending, e: Entry) {
    (e.0 in m || e.0 == start) && e.1 == Due(m, start, pending, e.0)
  }

  /** What is queued for the children is what they had cached. */
  ghost predicate TookCaches(m: SurfaceMap, start: Key, taken: seq<Entry>) {
    forall e :: e in taken ==> e.0 in m && e.0 != start && e.1 == Cached(m[e.0])
  }

  lemma TurnPendings(m: SurfaceMap, start: Key, pending: Pending, done: seq<Key>, queue: seq<Entry>, now: SurfaceMap,
                     taken: seq<Entry>, after: SurfaceMap)
    requires Draining(m, start, pending, done, queue, now) && queue != [] && TookCaches(m, start, taken)
    requires Midway(m, start, pending, done + [queue[0].0], KeysOf(queue[1..] + taken), after)
    ensures Draining(m, start, pending, done + [queue[0].0], queue[1..] + taken, after)
  {
    forall e | e in queue[1..] + taken ensures CarriesDue(m, start, pending, e) {
      assert e in queue || e in taken;
    }
    if queue[1..] + taken != [] { assert (queue[1..] + taken)[0] in queue[1..] + taken; }
  }

  // ----- The drain -----

  lemma {:induction false} DistinctTakings(m: SurfaceMap, kids: seq<Key>)
    requires Distinct(kids) && forall c :: c in kids ==> c in m
    ensures forall i :: 0 <= i < |kids| ==> Takings(m, kids)[i] == (kids[i], Cached(m[kids[i]]))
  {
    if kids != [] {
      var front, last := kids[..|kids| - 1], kids[|kids| - 1];
      assert last !in front;
      DistinctTakings(m, front);
    }
  }

  /** What a turn queues is what the children had cached. */
  lemma TakesCaches(m: SurfaceMap, start: Key, pending: Pending, done: seq<Key>, queue: seq<Entry>, now: SurfaceMap)
    requires Draining(m, start, pending, done, queue, now) && queue != []
    ensures TookCaches(m, start, Takings(Applied(now, queue[0]), SyncedKids(m, queue[0].0)))
  {
    var h, kids := queue[0].0, SyncedKids(m, queue[0].0);
    var applied := Applied(now, queue[0]);
    assert KeysOf(queue)[0] == h;
    KidsDistinct(m, h);
    forall c | c in kids ensures c in m && applied[c] == m[c] && c != start {
      KidIsFresh(m, start, pending, done, KeysOf(queue), now, c);
      KidIsBelow(m, h, c);
    }
    DistinctTakings(applied, kids);
  }

  lemma DrainingTurn(m: SurfaceMap, start: Key, pending: Pending, done: seq<Key>, queue: seq<Entry>, w: Swept)
    requires Draining(m, start, pending, done, queue, w.surfaces) && queue != []
    ensures Draining(m, start, pending, done + [queue[0].0], NextQueue(SyncedGraph(m), w.surfaces, queue),
                     Turn(SyncedGraph(m), w, queue[0]).surfaces)
  {
    var g := SyncedGraph(m);
    assert Kids(g, queue[0].0) == SyncedKids(m, queue[0].0);
    NextKeys(g, w.surfaces, queue);
    TakesCaches(m, start, pending, done, queue, w.surfaces);
    MidwayTurn(m, start, pending, done, KeysOf(queue), w.surfaces);
    TurnPendings(m, start, pending, done, queue, w.surfaces,
                 Takings(Applied(w.surfaces, queue[0]), SyncedKids(m, queue[0].0)), Turn(g, w, queue[0]).surfaces);
  }

  /** The buffer a surface shows does not depend on whether its cache has been taken. */
  lemma DisplacingTurn(m: SurfaceMap, start: Key, pending: Pending, done: seq<Key>, queue: seq<Entry>, w: Swept)
    requires Draining(m, start, pending, done, queue, w.surfaces) && queue != []
    requires w.displaced == DisplacedBy(m, start, pending, done)
    ensures forall k :: k in done + [queue[0].0] ==> k in m || k == start
    ensures Turn(SyncedGraph(m), w, queue[0]).displaced == DisplacedBy(m, start, pending, done + [queue[0].0])
  {
    var k := queue[0].0;
    assert KeysOf(queue)[0] == k;
    QueueIsAhead(m, start, pending, done, KeysOf(queue), w.surfaces, k);
    DisplacedSnoc(m, start, pending, done, k);
  }

  lemma DisplacedSnoc(m: SurfaceMap, start: Key, pending: Pending, done: seq<Key>, k: Key)
    requires forall j :: j in done + [k] ==> j in m || j == start
    ensures DisplacedBy(m, start, pending, done + [k]) == DisplacedBy(m, start, pending, done)
      + (if k in m then Displaced(k, m[k], Due(m, start, pending, k)) else [])
  {
    assert (done + [k])[..|done + [k]| - 1] == done;
  }

  ghost predicate Halfway(m: SurfaceMap, start: Key, pending: Pending, done: seq<Key>, queue: seq<Entry>, w: Swept) {
    && Draining(m, start, pending, done, queue, w.surfaces)
    && w.displaced == DisplacedBy(m, start, pending, done)
  }

  lemma HalfwayTurn(m: SurfaceMap, start: Key, pending: Pending, done: seq<Key>, queue: seq<Entry>, w: Swept)
    requires Halfway(m, start, pending, done, queue, w) && queue != []
    ensures Halfway(m, start, pending, done + [queue[0].0], NextQueue(SyncedGraph(m), w.surfaces, queue),
                    Turn(SyncedGraph(m), w, queue[0]))
  {
    DrainingTurn(m, start, pending, done, queue, w);
    DisplacingTurn(m, start, pending, done, queue, w);
  }

  /** The surfaces and the displaced buffers once the whole cascade has been met. */
  ghost predicate Finished(m: SurfaceMap, start: Key, pending: Pending, w: Swept) {
    && Fine(m) && Apart(m, [start])
    && (forall k :: k in Order(m, [start]) ==> k in m || k == start)
    && w == Swept(AfterCascade(m, start, pending), DisplacedBy(m, start, pending, Order(m, [start])))
  }

  lemma HalfwayEnd(m: SurfaceMap, start: Key, pending: Pending, done: seq<Key>, w: Swept)
    requires Halfway(m, start, pending, done, [], w)
    ensures Finished(m, start, pending, w)
  {
    assert KeysOf([]) == [];
    MidwayEnd(m, start, pending, done, w.surfaces);
  }

  lemma {:induction false} FineDrain(m: SurfaceMap, start: Key, pending: Pending, done: seq<Key>, queue: seq<Entry>,
                                     w: Swept, n: nat)
    requires Rooted(m) && Halfway(m, start, pending, done, queue, w)
    requires Empties(SyncedGraph(m), KeysOf(queue), n)
    ensures Finished(m, start, pending, Drain(SyncedGraph(m), w, queue, n))
    decreases n
  {
    if queue == [] {
      HalfwayEnd(m, start, pending, done, w);
    } else {
      var next, after := NextQueue(SyncedGraph(m), w.surfaces, queue), Turn(SyncedGraph(m), w, queue[0]);
      HalfwayTurn(m, start, pending, done, queue, w);
      DrainUnfolds(SyncedGraph(m), w, queue, n);
      FineDrain(m, start, pending, done + [queue[0].0], next, after, n - 1);
    }
  }

  /** On a sound forest a sweep ends, meets the cascade in its order, and leaves what the cascade leaves. */
  lemma FineSweeps(m: SurfaceMap, start: Key, pending: Pending)
    requires Fine(m)
    ensures Settles(m, start)
    ensures Finished(m, start, pending, SweepFrom(m, start, pending))
  {
    FineEnds(m, start);
    OrderFromOne(m, start);
    var n: nat :| Empties(SyncedGraph(m), [start], n);
    SweepIs(m, start, pending, n);
    MidwayStart(m, start, pending);
    assert KeysOf([(start, pending)]) == [start];
    FineDrain(m, start, pending, [], [(start, pending)], Swept(m, []), n);
  }
}
