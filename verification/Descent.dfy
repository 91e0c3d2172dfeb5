/**
 Walks down from a key to what is listed under it: a queue drained level by level, and a recursion.
 Nothing here supposes the lists form a tree. Both walks end exactly when no way down comes back to
 where it has been.
 */
module Descent {
  import opened Base

  type Graph = map<Key, seq<Key>>

  function Kids(g: Graph, k: Key): seq<Key> { if k in g then g[k] else [] }

  /** The queue once its head has been taken off and the head's children put on. */
  function Popped(queue: seq<Key>, kids: seq<Key>): seq<Key>
    requires queue != []
  {
    queue[1..] + kids
  }

  /** Draining leaves the queue empty within `n` turns. */
  predicate Empties(g: Graph, queue: seq<Key>, n: nat)
    decreases n
  {
    queue == [] || (n > 0 && Empties(g, Popped(queue, Kids(g, queue[0])), n - 1))
  }

  /** A queue drained from one key runs dry. */
  ghost predicate Halts(g: Graph, start: Key) { exists n: nat :: Empties(g, [start], n) }

  /** A recursion from `k` goes at most `d` calls deep. */
  predicate Shallow(g: Graph, k: Key, d: nat)
    decreases d
  {
    d > 0 && forall c :: c in Kids(g, k) ==> Shallow(g, c, d - 1)
  }

  ghost predicate Bottoms(g: Graph, start: Key) { exists d: nat :: Shallow(g, start, d) }

  ghost predicate Path(g: Graph, start: Key, p: seq<Key>) {
    && p != [] && p[0] == start
    && forall i :: 0 <= i < |p| - 1 ==> p[i + 1] in Kids(g, p[i])
  }

  /** Some way down from `start` comes to a key a second time. */
  ghost predicate Loops(g: Graph, start: Key) { exists p :: Path(g, start, p) && !Distinct(p) }

  // ----- Depth and loops -----

  lemma {:induction false} ShallowMore(g: Graph, k: Key, d: nat, e: nat)
    requires Shallow(g, k, d) && d <= e
    ensures Shallow(g, k, e)
    decreases d
  {
    forall c | c in Kids(g, k) ensures Shallow(g, c, e - 1) { ShallowMore(g, c, d - 1, e - 1); }
  }

  lemma {:induction false} PathsAreShort(g: Graph, k: Key, d: nat, p: seq<Key>)
    requires Shallow(g, k, d) && Path(g, k, p)
    ensures |p| <= d
    decreases d
  {
    if |p| > 1 {
      assert p[1] in Kids(g, p[0]);
      PathTail(g, k, p);
      PathsAreShort(g, p[1], d - 1, p[1..]);
    }
  }

  lemma PathTail(g: Graph, k: Key, p: seq<Key>)
    requires Path(g, k, p) && |p| > 1
    ensures Path(g, p[1], p[1..])
  {
    forall i | 0 <= i < |p[1..]| - 1 ensures p[1..][i + 1] in Kids(g, p[1..][i]) {
      assert p[i + 2] in Kids(g, p[i + 1]);
    }
  }

  /** Round a loop as often as one likes. */
  lemma {:induction false} RoundAndRound(g: Graph, start: Key, p: seq<Key>, i: nat, j: nat, n: nat)
    returns (q: seq<Key>)
    requires Path(g, start, p) && i < j < |p| && p[i] == p[j]
    ensures Path(g, start, q) && |q| > n && q[|q| - 1] == p[j]
    decreases n
  {
    if n == 0 {
      q := p[..j + 1];
    } else {
      var r := RoundAndRound(g, start, p, i, j, n - 1);
      q := r + p[i + 1..j + 1];
      Joined(g, start, r, p, i, j);
    }
  }

  lemma Joined(g: Graph, start: Key, r: seq<Key>, p: seq<Key>, i: nat, j: nat)
    requires Path(g, start, p) && i < j < |p| && p[i] == p[j]
    requires Path(g, start, r) && r[|r| - 1] == p[j]
    ensures Path(g, start, r + p[i + 1..j + 1])
  {
    var q := r + p[i + 1..j + 1];
    forall x | 0 <= x < |q| - 1 ensures q[x + 1] in Kids(g, q[x]) {
      if x >= |r| - 1 {
        var y := x - |r| + i + 1;
        assert q[x + 1] == p[y + 1] && q[x] == p[y];
      } else {
        assert r[x + 1] in Kids(g, r[x]);
      }
    }
  }

  /** Going too deep leaves a trail as long. */
  lemma {:induction false} DeepTrail(g: Graph, k: Key, d: nat) returns (p: seq<Key>)
    requires !Shallow(g, k, d)
    ensures Path(g, k, p) && |p| == d + 1
    decreases d
  {
    p := [k];
    if d > 0 {
      var c :| c in Kids(g, k) && !Shallow(g, c, d - 1);
      var q := DeepTrail(g, c, d - 1);
      p := [k] + q;
      forall i | 0 <= i < |p| - 1 ensures p[i + 1] in Kids(g, p[i]) {
        if i > 0 { assert q[i - 1 + 1] in Kids(g, q[i - 1]); }
      }
    }
  }

  /** Keys without repeats are no more than there are to choose from. */
  lemma {:induction false} Pigeonholes(p: seq<Key>, s: set<Key>)
    requires Distinct(p) && forall x :: x in p ==> x in s
    ensures |p| <= |s|
    decreases |p|
  {
    if p != [] {
      var front, last := p[..|p| - 1], p[|p| - 1];
      forall x | x in front ensures x in s - {last} {
        var i :| 0 <= i < |front| && front[i] == x;
        assert p[i] != last;
      }
      Pigeonholes(front, s - {last});
      assert last in s;
    }
  }

  lemma TooLongRepeats(g: Graph, k: Key, p: seq<Key>)
    requires Path(g, k, p) && |p| > |g| + 1
    ensures !Distinct(p)
  {
    if Distinct(p) {
      var front := p[..|p| - 1];
      forall x | x in front ensures x in g.Keys {
        var i :| 0 <= i < |front| && front[i] == x;
        assert p[i + 1] in Kids(g, p[i]);
      }
      assert Distinct(front);
      Pigeonholes(front, g.Keys);
    }
  }

  /** A recursion bottoms out exactly when no way down loops, and then within as many calls as there are lists. */
  lemma BottomsIffNoLoop(g: Graph, start: Key)
    ensures Bottoms(g, start) <==> !Loops(g, start)
    ensures !Loops(g, start) ==> Shallow(g, start, |g| + 1)
  {
    if !Shallow(g, start, |g| + 1) {
      var p := DeepTrail(g, start, |g| + 1);
      TooLongRepeats(g, start, p);
      assert Loops(g, start);
    }
    if Loops(g, start) && Bottoms(g, start) {
      var d: nat :| Shallow(g, start, d);
      var p :| Path(g, start, p) && !Distinct(p);
      var i, j :| 0 <= i < j < |p| && p[i] == p[j];
      var q := RoundAndRound(g, start, p, i, j, d);
      PathsAreShort(g, start, d, q);
    }
  }

  // ----- The queue -----

  lemma {:induction false} EmptiesMore(g: Graph, queue: seq<Key>, n: nat, m: nat)
    requires Empties(g, queue, n) && n <= m
    ensures Empties(g, queue, m)
    decreases n
  {
    if queue != [] { EmptiesMore(g, Popped(queue, Kids(g, queue[0])), n - 1, m - 1); }
  }

  lemma {:induction false} DrainedIsShallow(g: Graph, queue: seq<Key>, n: nat, q: Key)
    requires Empties(g, queue, n) && q in queue
    ensures Shallow(g, q, n)
    decreases n
  {
    var kids := Kids(g, queue[0]);
    var next := Popped(queue, kids);
    if q == queue[0] {
      forall c | c in kids ensures Shallow(g, c, n - 1) { DrainedIsShallow(g, next, n - 1, c); }
    } else {
      assert q in queue[1..];
      DrainedIsShallow(g, next, n - 1, q);
      ShallowMore(g, q, n - 1, n);
    }
  }

  /** How many keys a recursion from `k` visits, repeats and all. */
  ghost function Visits(g: Graph, k: Key, d: nat): nat
    requires Shallow(g, k, d)
    decreases d, 0
  {
    1 + AllVisits(g, Kids(g, k), d - 1)
  }

  ghost function AllVisits(g: Graph, keys: seq<Key>, d: nat): nat
    requires forall q :: q in keys ==> Shallow(g, q, d)
    decreases d, |keys| + 1
  {
    if keys == [] then 0 else Visits(g, keys[0], d) + AllVisits(g, keys[1..], d)
  }

  lemma {:induction false} VisitsMore(g: Graph, k: Key, d: nat)
    requires Shallow(g, k, d) && Shallow(g, k, d + 1)
    ensures Visits(g, k, d + 1) == Visits(g, k, d)
    decreases d, 0
  {
    AllVisitsMore(g, Kids(g, k), d - 1);
  }

  lemma {:induction false} AllVisitsMore(g: Graph, keys: seq<Key>, d: nat)
    requires forall q :: q in keys ==> Shallow(g, q, d)
    ensures forall q :: q in keys ==> Shallow(g, q, d + 1)
    ensures AllVisits(g, keys, d + 1) == AllVisits(g, keys, d)
    decreases d, |keys| + 1
  {
    forall q | q in keys ensures Shallow(g, q, d + 1) { ShallowMore(g, q, d, d + 1); }
    if keys != [] {
      assert keys[0] in keys;
      VisitsMore(g, keys[0], d);
      AllVisitsMore(g, keys[1..], d);
    }
  }

  lemma {:induction false} AllVisitsJoin(g: Graph, a: seq<Key>, b: seq<Key>, d: nat)
    requires forall q :: q in a + b ==> Shallow(g, q, d)
    ensures forall q :: q in a ==> q in a + b
    ensures forall q :: q in b ==> q in a + b
    ensures AllVisits(g, a + b, d) == AllVisits(g, a, d) + AllVisits(g, b, d)
    decreases |a|
  {
    assert forall q :: q in a ==> q in a + b;
    assert forall q :: q in b ==> q in a + b;
    if a == [] {
      assert a + b == b;
    } else {
      assert (a + b)[1..] == a[1..] + b;
      AllVisitsJoin(g, a[1..], b, d);
    }
  }

  lemma {:induction false} VisitsSame(g: Graph, k: Key, d: nat, e: nat)
    requires Shallow(g, k, d) && Shallow(g, k, e)
    ensures Visits(g, k, d) == Visits(g, k, e)
    decreases if d < e then e - d else d - e, d > e
  {
    if d < e {
      ShallowMore(g, k, d, d + 1);
      VisitsMore(g, k, d);
      VisitsSame(g, k, d + 1, e);
    } else if e < d {
      VisitsSame(g, k, e, d);
    }
  }

  lemma {:induction false} VisitsAmong(g: Graph, keys: seq<Key>, d: nat, k: Key)
    requires (forall q :: q in keys ==> Shallow(g, q, d)) && k in keys
    ensures Visits(g, k, d) <= AllVisits(g, keys, d)
    decreases |keys|
  {
    if k != keys[0] { VisitsAmong(g, keys[1..], d, k); }
  }

  /** How long a recursion from `k` takes, where it ends at all. */
  ghost function Effort(g: Graph, k: Key): nat
    requires Bottoms(g, k)
  {
    var d: nat :| Shallow(g, k, d);
    Visits(g, k, d)
  }

  /** It ends from every child as well, and sooner. */
  lemma ChildTakesLess(g: Graph, k: Key, c: Key)
    requires Bottoms(g, k) && c in Kids(g, k)
    ensures Bottoms(g, c) && Effort(g, c) < Effort(g, k)
  {
    var d: nat :| Shallow(g, k, d) && Effort(g, k) == Visits(g, k, d);
    VisitsAmong(g, Kids(g, k), d - 1, c);
    assert Visits(g, k, d) == 1 + AllVisits(g, Kids(g, k), d - 1) && Shallow(g, c, d - 1);
    var e: nat :| Shallow(g, c, e) && Effort(g, c) == Visits(g, c, e);
    VisitsSame(g, c, e, d - 1);
  }

  /** The queue takes one turn for each visit. */
  lemma {:induction false} ShallowDrains(g: Graph, queue: seq<Key>, d: nat)
    requires forall q :: q in queue ==> Shallow(g, q, d)
    ensures Empties(g, queue, AllVisits(g, queue, d))
    decreases AllVisits(g, queue, d)
  {
    if queue != [] {
      var kids := Kids(g, queue[0]);
      var next := Popped(queue, kids);
      assert Shallow(g, queue[0], d);
      AllVisitsMore(g, kids, d - 1);
      assert AllVisits(g, queue, d) == 1 + AllVisits(g, kids, d) + AllVisits(g, queue[1..], d);
      forall q | q in next ensures Shallow(g, q, d) { assert q in queue || q in kids; }
      AllVisitsJoin(g, queue[1..], kids, d);
      ShallowDrains(g, next, d);
    }
  }

  /** A queue drained from a key runs dry exactly when no way down from it loops. */
  lemma HaltsIffNoLoop(g: Graph, start: Key)
    ensures Halts(g, start) <==> !Loops(g, start)
  {
    BottomsIffNoLoop(g, start);
    if n: nat :| Empties(g, [start], n) { DrainedIsShallow(g, [start], n, start); }
    if d: nat :| Shallow(g, start, d) { ShallowDrains(g, [start], d); }
  }
}
