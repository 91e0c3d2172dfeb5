/**
 Parent links seen as a partial map from a child to its parent. Surfaces and toplevels both
 hang off one another this way, so what makes their walkers stop is proved once, here.
 */
module Links {
  import opened Base

  type Parents = map<Key, Key>

  /** Whether following links up from `k` stops within `n` links. */
  predicate Ends(par: Parents, k: Key, n: nat)
    decreases n
  {
    k !in par || (n > 0 && Ends(par, par[k], n - 1))
  }

  /** No chain of links runs in a circle. The bound loses nothing: see `Bounded`. */
  ghost predicate Acyclic(par: Parents) {
    forall k :: k in par ==> Ends(par, k, |par|)
  }

  lemma {:induction false} EndsMore(par: Parents, k: Key, n: nat, m: nat)
    requires Ends(par, k, n) && n <= m
    ensures Ends(par, k, m)
    decreases n
  {
    if k in par { EndsMore(par, par[k], n - 1, m - 1); }
  }

  /** How many links there are above `k`, counted along a chain known to end. */
  ghost function Height(par: Parents, k: Key, n: nat): (h: nat)
    requires Ends(par, k, n)
    ensures h <= n && Ends(par, k, h)
    decreases n
  {
    if k !in par then 0 else 1 + Height(par, par[k], n - 1)
  }

  lemma {:induction false} HeightUnique(par: Parents, k: Key, n: nat, m: nat)
    requires Ends(par, k, n) && Ends(par, k, m)
    ensures Height(par, k, n) == Height(par, k, m)
    decreases n
  {
    if k in par { HeightUnique(par, par[k], n - 1, m - 1); }
  }

  ghost predicate Within(par: Parents, k: Key, h: nat) {
    exists m: nat :: Ends(par, k, m) && Height(par, k, m) <= h
  }

  /** The keys with a parent met on the way up: as many as there are links, so none twice. */
  ghost function Trail(par: Parents, k: Key, n: nat): (t: set<Key>)
    requires Ends(par, k, n)
    ensures t <= par.Keys
    ensures forall x :: x in t ==> Within(par, x, Height(par, k, n))
    ensures |t| == Height(par, k, n)
    decreases n
  {
    if k !in par then {} else
      var above := Trail(par, par[k], n - 1);
      assert k !in above by {
        if k in above {
          var m: nat :| Ends(par, k, m) && Height(par, k, m) <= Height(par, par[k], n - 1);
          HeightUnique(par, k, m, n);
        }
      }
      assert Ends(par, k, n) && Height(par, k, n) <= Height(par, k, n);
      {k} + above
  }

  /** A chain that ends at all ends within as many links as there are. */
  lemma {:induction false} Bounded(par: Parents, k: Key, n: nat)
    requires Ends(par, k, n)
    ensures Height(par, k, n) <= |par| && Ends(par, k, |par|)
  {
    var t := Trail(par, k, n);
    SubsetSize(t, par.Keys);
    EndsMore(par, k, Height(par, k, n), |par|);
  }

  lemma {:induction false} SubsetSize(a: set<Key>, b: set<Key>)
    requires a <= b
    ensures |a| <= |b|
    decreases b
  {
    if a != {} {
      var x :| x in a;
      SubsetSize(a - {x}, b - {x});
    }
  }

  /** Links above `k` in a graph without circles. */
  ghost function Depth(par: Parents, k: Key): (d: nat)
    requires Acyclic(par)
    ensures d <= |par|
    ensures k !in par ==> d == 0
  {
    if k !in par then 0 else Height(par, k, |par|)
  }

  lemma {:induction false} DepthStep(par: Parents, k: Key)
    requires Acyclic(par) && k in par
    ensures Depth(par, k) == 1 + Depth(par, par[k])
  {
    var p := par[k];
    var n := |par|;
    assert Ends(par, k, n) && Ends(par, p, n - 1);
    if p in par {
      HeightUnique(par, p, n - 1, n);
    }
    assert Height(par, k, n) == 1 + Height(par, p, n - 1);
  }

  /** `a` is `k` or one of its ancestors. */
  ghost predicate Above(par: Parents, a: Key, k: Key)
    requires Acyclic(par)
    decreases Depth(par, k)
  {
    a == k || (k in par && (DepthStep(par, k); Above(par, a, par[k])))
  }

  /** The key at the top of `k`'s chain. */
  ghost function Root(par: Parents, k: Key): (r: Key)
    requires Acyclic(par)
    ensures r !in par
    ensures Above(par, r, k)
    decreases Depth(par, k)
  {
    if k !in par then k else (DepthStep(par, k); Root(par, par[k]))
  }

  lemma {:induction false} AboveTransitive(par: Parents, a: Key, b: Key, c: Key)
    requires Acyclic(par) && Above(par, a, b) && Above(par, b, c)
    ensures Above(par, a, c)
    decreases Depth(par, c)
  {
    if b != c {
      DepthStep(par, c);
      AboveTransitive(par, a, b, par[c]);
    }
  }

  lemma {:induction false} AboveDepth(par: Parents, a: Key, k: Key)
    requires Acyclic(par) && Above(par, a, k)
    ensures Depth(par, a) <= Depth(par, k)
    ensures a != k ==> Depth(par, a) < Depth(par, k)
    decreases Depth(par, k)
  {
    if a != k {
      DepthStep(par, k);
      AboveDepth(par, a, par[k]);
    }
  }

  /** Two ancestors of one key are themselves in line. */
  lemma {:induction false} AboveLinear(par: Parents, a: Key, b: Key, k: Key)
    requires Acyclic(par) && Above(par, a, k) && Above(par, b, k)
    ensures Above(par, a, b) || Above(par, b, a)
    decreases Depth(par, k)
  {
    if a != k && b != k {
      DepthStep(par, k);
      AboveLinear(par, a, b, par[k]);
    }
  }

  /** A link is refused exactly to keep this: hanging `s` under `p` is safe when `s` is not above `p`. */
  lemma LinkKeepsAcyclic(par: Parents, s: Key, p: Key)
    requires Acyclic(par) && !Above(par, s, p)
    ensures Acyclic(par[s := p])
  {
    var next := par[s := p];
    forall k | k in next
      ensures Ends(next, k, |next|)
    {
      var n := LinkEnds(par, s, p, k);
      Bounded(next, k, n);
    }
  }

  lemma {:induction false} LinkEnds(par: Parents, s: Key, p: Key, k: Key) returns (n: nat)
    requires Acyclic(par) && !Above(par, s, p)
    ensures Ends(par[s := p], k, n)
    decreases Depth(par, k)
  {
    if k == s {
      n := LinkEndsClear(par, s, p, p);
      n := n + 1;
    } else if k in par {
      DepthStep(par, k);
      n := LinkEnds(par, s, p, par[k]);
      n := n + 1;
    } else {
      n := 0;
    }
  }

  lemma {:induction false} LinkEndsClear(par: Parents, s: Key, p: Key, k: Key) returns (n: nat)
    requires Acyclic(par) && !Above(par, s, k)
    ensures Ends(par[s := p], k, n)
    decreases Depth(par, k)
  {
    n := 0;
    if k in par {
      DepthStep(par, k);
      n := LinkEndsClear(par, s, p, par[k]);
      n := n + 1;
    }
  }

  /** Linking `s` under something above it does close a circle, so the refusal is not too strict either. */
  lemma LinkClosesCircle(par: Parents, s: Key, p: Key)
    requires Acyclic(par) && Above(par, s, p)
    ensures !Acyclic(par[s := p])
  {
    var next := par[s := p];
    if Acyclic(next) {
      CircleAbove(par, s, p, p);
      DepthStep(next, s);
      AboveDepth(next, s, p);
    }
  }

  lemma {:induction false} CircleAbove(par: Parents, s: Key, p: Key, k: Key)
    requires Acyclic(par) && Above(par, s, k) && Acyclic(par[s := p])
    ensures Above(par[s := p], s, k)
    decreases Depth(par, k)
  {
    if k != s {
      DepthStep(par, k);
      DepthStep(par[s := p], k);
      CircleAbove(par, s, p, par[k]);
    }
  }

  /** Taking links away cannot make a circle. */
  lemma UnlinkKeepsAcyclic(par: Parents, rest: Parents)
    requires Acyclic(par)
    requires forall k :: k in rest ==> k in par && rest[k] == par[k]
    ensures Acyclic(rest)
  {
    forall k | k in rest
      ensures Ends(rest, k, |rest|)
    {
      UnlinkEnds(par, rest, k, |par|);
      Bounded(rest, k, |par|);
    }
  }

  lemma {:induction false} UnlinkEnds(par: Parents, rest: Parents, k: Key, n: nat)
    requires Ends(par, k, n)
    requires forall x :: x in rest ==> x in par && rest[x] == par[x]
    ensures Ends(rest, k, n)
    decreases n
  {
    if k in rest { UnlinkEnds(par, rest, par[k], n - 1); }
  }
}
