/** Windows and their dialogs: parent links, families, and keeping every dialog over its parent. */
module Toplevels {
  import opened Base
  import opened Links

  /** The id of the `xdg_surface` a toplevel was made for, and the one its client last named as parent. */
  datatype Toplevel = Toplevel(xdg: nat, parent: Option<nat>)

  type ToplevelMap = map<Key, Toplevel>

  /** Every link, to a toplevel that is gone too. */
  function ParentsOf(m: ToplevelMap): Parents {
    map k | k in m && m[k].parent.Some? :: Key(k.client, m[k].parent.value)
  }

  /** The links between toplevels that exist. */
  function LiveParents(m: ToplevelMap): Parents {
    map k | k in m && m[k].parent.Some? && Key(k.client, m[k].parent.value) in m :: Key(k.client, m[k].parent.value)
  }

  ghost predicate Rooted(m: ToplevelMap) { Acyclic(ParentsOf(m)) }

  lemma LiveIsAcyclic(m: ToplevelMap)
    requires Rooted(m)
    ensures Acyclic(LiveParents(m))
  {
    UnlinkKeepsAcyclic(ParentsOf(m), LiveParents(m));
  }

  lemma LinksFewer(m: ToplevelMap)
    ensures |ParentsOf(m)| <= |m| && |LiveParents(m)| <= |m|
  {
    SubsetSize(ParentsOf(m).Keys, m.Keys);
    SubsetSize(LiveParents(m).Keys, m.Keys);
  }

  // ----- Setting a parent -----

  /** The keys with a link, from `k` up to but not counting the end, leave out any key not above `k`. */
  lemma {:induction false} DepthWithout(par: Parents, k: Key, out: Key)
    requires Acyclic(par) && !Above(par, out, k)
    ensures Depth(par, k) <= |par - {out}|
    decreases Depth(par, k)
  {
    var rest := par - {out};
    UnlinkKeepsAcyclic(par, rest);
    SameDepth(par, rest, k, out);
  }

  lemma {:induction false} SameDepth(par: Parents, rest: Parents, k: Key, out: Key)
    requires Acyclic(par) && rest == par - {out} && Acyclic(rest) && !Above(par, out, k)
    ensures Depth(par, k) == Depth(rest, k)
    decreases Depth(par, k)
  {
    if k in par {
      DepthStep(par, k);
      DepthStep(rest, k);
      SameDepth(par, rest, par[k], out);
    }
  }

  /** `would_cycle`: its counting of steps never decides, so it is exact. */
  method WouldCycle(m: ToplevelMap, child: Key, parent: Key) returns (yes: bool)
    requires Rooted(m) && child in m
    ensures yes == Above(ParentsOf(m), child, parent)
  {
    ghost var par := ParentsOf(m);
    if !Above(par, child, parent) {
      DepthWithout(par, parent, child);
      SubsetSize((par - {child}).Keys, m.Keys - {child});
    }
    var seen: nat := 0;
    var current: Option<Key> := Some(parent);
    while current.Some?
      invariant current.Some? ==> Above(par, child, current.value) == Above(par, child, parent)
      invariant current.Some? ==> Depth(par, current.value) + seen == Depth(par, parent)
      invariant current.None? ==> !Above(par, child, parent)
      decreases |m| + 1 - seen, current.Some?
    {
      var k := current.value;
      if k == child { return true; }
      seen := seen + 1;
      if seen > |m| { return true; }
      if k in m && m[k].parent.Some? {
        DepthStep(par, k);
        current := Some(Key(k.client, m[k].parent.value));
      } else {
        current := None;
      }
    }
    return false;
  }

  /** Whether `set_parent` takes this parent. */
  ghost predicate MayHang(m: ToplevelMap, k: Key, parent: nat)
    requires Rooted(m)
  {
    Key(k.client, parent) in m && !Above(ParentsOf(m), k, Key(k.client, parent))
  }

  function Hang(m: ToplevelMap, k: Key, parent: Option<nat>): ToplevelMap {
    if k in m then m[k := m[k].(parent := parent)] else m
  }

  lemma HangKeepsRooted(m: ToplevelMap, k: Key, parent: Option<nat>)
    requires Rooted(m) && k in m && (parent.Some? ==> MayHang(m, k, parent.value))
    ensures Rooted(Hang(m, k, parent))
  {
    var par := ParentsOf(m);
    if parent.None? {
      UnlinkKeepsAcyclic(par, ParentsOf(Hang(m, k, parent)));
    } else {
      assert ParentsOf(Hang(m, k, parent)) == par[k := Key(k.client, parent.value)];
      LinkKeepsAcyclic(par, k, Key(k.client, parent.value));
    }
  }

  /** A refusal was needed: hanging a window under its own dialog would close a circle. */
  lemma RefusedWouldCircle(m: ToplevelMap, k: Key, parent: nat)
    requires Rooted(m) && k in m && Key(k.client, parent) in m && !MayHang(m, k, parent)
    ensures !Rooted(Hang(m, k, Some(parent)))
  {
    assert ParentsOf(Hang(m, k, Some(parent))) == ParentsOf(m)[k := Key(k.client, parent)];
    LinkClosesCircle(ParentsOf(m), k, Key(k.client, parent));
  }

  // ----- Families -----

  /** The top of a toplevel's chain of parents that exist. */
  ghost function RootOf(m: ToplevelMap, k: Key): Key
    requires Rooted(m)
  {
    LiveIsAcyclic(m);
    Root(LiveParents(m), k)
  }

  ghost predicate InFamily(m: ToplevelMap, root: Key, k: Key)
    requires Rooted(m)
  {
    LiveIsAcyclic(m);
    k in m && Above(LiveParents(m), root, k)
  }

  /** A whole family once each, parents before children. */
  ghost predicate IsFamily(m: ToplevelMap, root: Key, list: seq<Key>)
    requires Rooted(m)
  {
    && Distinct(list)
    && (forall k :: k in list <==> InFamily(m, root, k))
    && (forall i :: 0 <= i < |list| && list[i] in LiveParents(m) && list[i] != root ==>
          exists j :: 0 <= j < i && list[j] == LiveParents(m)[list[i]])
  }

  method FindRoot(m: ToplevelMap, k: Key) returns (root: Key)
    requires Rooted(m) && k in m
    ensures root == RootOf(m, k) && root in m
  {
    LiveIsAcyclic(m);
    LinksFewer(m);
    ghost var par := LiveParents(m);
    root := k;
    for i := 0 to |m|
      invariant root in m && Root(par, root) == Root(par, k)
      invariant Depth(par, root) + i == Depth(par, k)
    {
      if m[root].parent.None? { return; }
      var above := Key(root.client, m[root].parent.value);
      if above !in m { return; }
      DepthStep(par, root);
      root := above;
    }
  }

  /** Everything at this depth below the root. */
  ghost predicate AtLevel(m: ToplevelMap, root: Key, d: nat, k: Key)
    requires Rooted(m)
  {
    LiveIsAcyclic(m);
    InFamily(m, root, k) && Depth(LiveParents(m), k) == d
  }

  /** The toplevels whose parent is on the frontier, in whatever order the map has them. */
  method NextLevel(m: ToplevelMap, root: Key, frontier: seq<Key>, found: seq<Key>) returns (next: seq<Key>)
    ensures Distinct(next)
    ensures forall k :: k in next <==>
      k in m && k.client == root.client && k !in found && k != root && k in ParentsOf(m) && ParentsOf(m)[k] in frontier
  {
    next := [];
    var left := m.Keys;
    while left != {}
      invariant left <= m.Keys && Distinct(next)
      invariant forall k :: k in next <==>
        k in m.Keys - left && k.client == root.client && k !in found && k != root && k in ParentsOf(m)
          && ParentsOf(m)[k] in frontier
      decreases left
    {
      var k :| k in left;
      left := left - {k};
      if k.client == root.client && k !in found && k != root
         && m[k].parent.Some? && Key(k.client, m[k].parent.value) in frontier {
        DistinctConcat(next, [k]);
        next := next + [k];
      }
    }
  }

  /** One level leads to the next: those whose parents are on it, and only those. */
  lemma LevelBelow(m: ToplevelMap, root: Key, d: nat, k: Key)
    requires Rooted(m) && root in m && root !in LiveParents(m)
    ensures AtLevel(m, root, d + 1, k) <==>
      k in m && k in LiveParents(m) && AtLevel(m, root, d, LiveParents(m)[k])
    ensures AtLevel(m, root, 0, k) <==> k == root
    ensures AtLevel(m, root, d, k) ==> k.client == root.client
  {
    LiveIsAcyclic(m);
    var par := LiveParents(m);
    SameClient(m, root, k);
    if k in par { DepthStep(par, k); }
    assert Above(par, root, root);
  }

  lemma {:induction false} SameClient(m: ToplevelMap, root: Key, k: Key)
    requires Rooted(m)
    ensures InFamily(m, root, k) ==> k.client == root.client
    decreases (LiveIsAcyclic(m); Depth(LiveParents(m), k))
  {
    LiveIsAcyclic(m);
    if InFamily(m, root, k) && k != root {
      DepthStep(LiveParents(m), k);
      SameClient(m, root, LiveParents(m)[k]);
    }
  }

  /** A toplevel's distance from the top of its family. */
  ghost function LiveDepth(m: ToplevelMap, k: Key): (d: nat)
    requires Rooted(m)
    ensures d <= |m|
  {
    LiveIsAcyclic(m);
    LinksFewer(m);
    Depth(LiveParents(m), k)
  }

  /** A level is all the toplevels whose parents are on the one before. */
  lemma NextIsLevel(m: ToplevelMap, root: Key, d: nat, frontier: seq<Key>, found: seq<Key>, next: seq<Key>)
    requires Rooted(m) && root in m && root !in LiveParents(m)
    requires forall x :: x in frontier <==> AtLevel(m, root, d, x)
    requires forall x :: x in found ==> AtLevel(m, root, LiveDepth(m, x), x) && LiveDepth(m, x) <= d
    requires forall k :: k in next <==>
      k in m && k.client == root.client && k !in found && k != root && k in ParentsOf(m) && ParentsOf(m)[k] in frontier
    ensures forall k :: k in next <==> AtLevel(m, root, d + 1, k)
  {
    forall k ensures k in next <==> AtLevel(m, root, d + 1, k) {
      LevelBelow(m, root, d, k);
      LevelBelow(m, root, d + 1, k);
      LevelBelow(m, root, d, root);
    }
  }

  /** Past an empty level there is nothing. */
  lemma {:induction false} NothingDeeper(m: ToplevelMap, root: Key, bare: nat, k: Key)
    requires Rooted(m) && root in m && root !in LiveParents(m) && bare > 0
    requires forall x :: !AtLevel(m, root, bare, x)
    ensures InFamily(m, root, k) ==> LiveDepth(m, k) < bare
    decreases LiveDepth(m, k)
  {
    LiveIsAcyclic(m);
    assert !AtLevel(m, root, bare, k);
    if InFamily(m, root, k) && LiveDepth(m, k) > bare {
      LevelBelow(m, root, LiveDepth(m, k) - 1, k);
      DepthStep(LiveParents(m), k);
      NothingDeeper(m, root, bare, LiveParents(m)[k]);
    }
  }

  /** Families as far down as some depth. */
  ghost predicate FamilyDownTo(m: ToplevelMap, root: Key, list: seq<Key>, d: nat)
    requires Rooted(m)
  {
    && Distinct(list)
    && (forall k :: k in list <==> InFamily(m, root, k) && LiveDepth(m, k) <= d)
    && (forall i :: 0 <= i < |list| && list[i] in LiveParents(m) && list[i] != root ==>
          exists j :: 0 <= j < i && list[j] == LiveParents(m)[list[i]])
  }

  /** A level added after all those above it. */
  lemma AddLevel(m: ToplevelMap, root: Key, list: seq<Key>, d: nat, next: seq<Key>)
    requires Rooted(m) && root in m && root !in LiveParents(m) && FamilyDownTo(m, root, list, d)
    requires Distinct(next) && forall k :: k in next <==> AtLevel(m, root, d + 1, k)
    ensures FamilyDownTo(m, root, list + next, d + 1)
  {
    LiveIsAcyclic(m);
    DistinctConcat(list, next);
    var all, par := list + next, LiveParents(m);
    forall i | 0 <= i < |all| && all[i] in par && all[i] != root
      ensures exists j :: 0 <= j < i && all[j] == par[all[i]]
    {
      if i < |list| {
        var j :| 0 <= j < i && list[j] == par[list[i]];
        assert all[j] == par[all[i]];
      } else {
        assert all[i] in next;
        LevelBelow(m, root, d, all[i]);
        assert par[all[i]] in list;
        var j :| 0 <= j < |list| && list[j] == par[all[i]];
        assert all[j] == par[all[i]];
      }
    }
  }

  lemma RootAlone(m: ToplevelMap, root: Key)
    requires Rooted(m) && root in m && root !in LiveParents(m)
    ensures FamilyDownTo(m, root, [root], 0)
  {
    forall k ensures k in [root] <==> InFamily(m, root, k) && LiveDepth(m, k) <= 0 {
      LevelBelow(m, root, 0, k);
    }
  }

  /** `toplevel_family`: the root, and below it level by level. */
  method ToplevelFamily(m: ToplevelMap, k: Key) returns (list: seq<Key>)
    requires Rooted(m) && k in m
    ensures IsFamily(m, RootOf(m, k), list) && k in list
  {
    var root := FindRoot(m, k);
    LiveIsAcyclic(m);
    RootAlone(m, root);
    LevelBelow(m, root, 0, root);
    list := [root];
    var frontier := [root];
    var d := 0;
    ghost var ended := false;
    forall x ensures x in frontier <==> AtLevel(m, root, 0, x) { LevelBelow(m, root, 0, x); }
    while d < |m|
      invariant d <= |m| && FamilyDownTo(m, root, list, d)
      invariant list != [] && list[0] == root
      invariant forall x :: x in frontier <==> AtLevel(m, root, d, x)
    {
      var next := NextLevel(m, root, frontier, list[1..]);
      assert list == [root] + list[1..];
      NextIsLevel(m, root, d, frontier, list[1..], next);
      if next == [] {
        forall x ensures InFamily(m, root, x) ==> LiveDepth(m, x) <= d { NothingDeeper(m, root, d + 1, x); }
        break;
      }
      AddLevel(m, root, list, d, next);
      list, frontier, d := list + next, next, d + 1;
    }
    assert forall x :: InFamily(m, root, x) ==> LiveDepth(m, x) <= d;
  }

  /** A dialog belongs to the family its parent does, so any member names the same one. */
  lemma {:induction false} OneFamily(m: ToplevelMap, root: Key, k: Key)
    requires Rooted(m) && root !in LiveParents(m) && InFamily(m, root, k)
    ensures RootOf(m, k) == root
    decreases LiveDepth(m, k)
  {
    LiveIsAcyclic(m);
    if k != root {
      DepthStep(LiveParents(m), k);
      OneFamily(m, root, LiveParents(m)[k]);
    }
  }

  // ----- The stack -----

  /** Windows bottom to top, and a raise that puts one on top of the rest. */
  function Raise(stack: seq<Key>, k: Key): seq<Key> {
    if k in stack then Without(stack, k) + [k] else stack
  }

  function RaiseAll(stack: seq<Key>, list: seq<Key>): seq<Key> {
    if list == [] then stack else Raise(RaiseAll(stack, list[..|list| - 1]), list[|list| - 1])
  }

  ghost predicate Over(stack: seq<Key>, a: Key, b: Key) {
    exists i, j :: 0 <= i < j < |stack| && stack[i] == b && stack[j] == a
  }

  /** Taking one window out leaves the others in order. */
  lemma {:induction false} WithoutKeepsOrder(stack: seq<Key>, k: Key, a: Key, b: Key)
    requires Distinct(stack) && a != k && b != k
    ensures Over(Without(stack, k), a, b) <==> Over(stack, a, b)
  {
    if stack != [] {
      var rest := stack[1..];
      WithoutKeepsOrder(rest, k, a, b);
      OverCons(stack[0], rest, a, b);
      if stack[0] != k { OverCons(stack[0], Without(rest, k), a, b); assert stack == [stack[0]] + rest; }
      assert stack == [stack[0]] + rest;
    }
  }

  lemma OverCons(x: Key, rest: seq<Key>, a: Key, b: Key)
    ensures Over([x] + rest, a, b) <==> (x == b && a in rest) || Over(rest, a, b)
  {
    var s := [x] + rest;
    if x == b && a in rest {
      var j :| 0 <= j < |rest| && rest[j] == a;
      assert s[0] == b && s[j + 1] == a;
    }
    if Over(rest, a, b) {
      var i, j :| 0 <= i < j < |rest| && rest[i] == b && rest[j] == a;
      assert s[i + 1] == b && s[j + 1] == a;
    }
    if Over(s, a, b) {
      var i, j :| 0 <= i < j < |s| && s[i] == b && s[j] == a;
      assert rest[j - 1] == a;
      if i > 0 { assert rest[i - 1] == b; }
    }
  }

  lemma OverSnoc(rest: seq<Key>, x: Key, a: Key, b: Key)
    ensures Over(rest + [x], a, b) <==> (x == a && b in rest) || Over(rest, a, b)
  {
    var s := rest + [x];
    if x == a && b in rest {
      var i :| 0 <= i < |rest| && rest[i] == b;
      assert s[i] == b && s[|rest|] == a;
    }
    if Over(rest, a, b) {
      var i, j :| 0 <= i < j < |rest| && rest[i] == b && rest[j] == a;
      assert s[i] == b && s[j] == a;
    }
    if Over(s, a, b) {
      var i, j :| 0 <= i < j < |s| && s[i] == b && s[j] == a;
      assert rest[i] == b;
      if j < |rest| { assert rest[j] == a; }
    }
  }

  /** A raise puts one window over every other, and leaves the others in order. */
  lemma RaiseOrder(stack: seq<Key>, k: Key, a: Key, b: Key)
    requires Distinct(stack) && a != b && a in stack && b in stack
    ensures Over(Raise(stack, k), a, b) <==> a == k || (b != k && Over(stack, a, b))
  {
    if k in stack {
      OverSnoc(Without(stack, k), k, a, b);
      if a != k && b != k { WithoutKeepsOrder(stack, k, a, b); }
    }
  }

  lemma RaiseKeepsAll(stack: seq<Key>, k: Key)
    requires Distinct(stack)
    ensures Distinct(Raise(stack, k)) && forall x :: x in Raise(stack, k) <==> x in stack
  {
    if k in stack {
      WithoutDistinct(stack, k);
      DistinctConcat(Without(stack, k), [k]);
    }
  }

  /** `a` is listed once more after the last `b`. */
  ghost predicate Later(list: seq<Key>, a: Key, b: Key) {
    exists i :: 0 <= i < |list| && list[i] == a && b !in list[i..]
  }

  lemma LaterSnoc(list: seq<Key>, k: Key, a: Key, b: Key)
    requires a != b
    ensures Later(list + [k], a, b) <==> k == a || (k != b && Later(list, a, b))
  {
    var s := list + [k];
    if k == a {
      assert s[|list|] == a && s[|list|..] == [a];
    }
    if k != b && Later(list, a, b) {
      var i :| 0 <= i < |list| && list[i] == a && b !in list[i..];
      assert s[i..] == list[i..] + [k];
      assert s[i] == a && b !in s[i..];
    }
    if k != a && Later(s, a, b) {
      var i :| 0 <= i < |s| && s[i] == a && b !in s[i..];
      assert s[i..] == list[i..] + [k];
      assert list[i] == a && b !in list[i..] && k in s[i..];
    }
  }

  /**
   Raised one after another, windows end up over all the rest, and among themselves in the order they
   were last raised. The list may name one twice.
   */
  lemma {:induction false} RaiseAllOrder(stack: seq<Key>, list: seq<Key>, a: Key, b: Key)
    requires Distinct(stack) && a != b && a in stack && b in stack
    ensures Distinct(RaiseAll(stack, list)) && a in RaiseAll(stack, list) && b in RaiseAll(stack, list)
    ensures Over(RaiseAll(stack, list), a, b) <==>
      if a in list || b in list then Later(list, a, b) else Over(stack, a, b)
  {
    if list != [] {
      var rest, k := list[..|list| - 1], list[|list| - 1];
      assert list == rest + [k];
      RaiseAllOrder(stack, rest, a, b);
      RaiseKeepsAll(RaiseAll(stack, rest), k);
      RaiseOrder(RaiseAll(stack, rest), k, a, b);
      LaterSnoc(rest, k, a, b);
    }
  }

  lemma OverIsLater(list: seq<Key>, a: Key, b: Key)
    requires Distinct(list) && Over(list, a, b)
    ensures Later(list, a, b)
  {
    var i, j :| 0 <= i < j < |list| && list[i] == b && list[j] == a;
    assert b !in list[j..];
  }

  lemma {:induction false} RaiseAllKeeps(stack: seq<Key>, list: seq<Key>)
    requires Distinct(stack)
    ensures Distinct(RaiseAll(stack, list)) && forall x :: x in RaiseAll(stack, list) <==> x in stack
  {
    if list != [] {
      RaiseAllKeeps(stack, list[..|list| - 1]);
      RaiseKeepsAll(RaiseAll(stack, list[..|list| - 1]), list[|list| - 1]);
    }
  }

  // ----- Windows -----

  /** The toplevels, the `wl_surface` each `xdg_surface` wraps, and the stack the shell keeps. */
  datatype Windows = Windows(tops: ToplevelMap, xdgs: map<Key, nat>, stack: seq<Key>)

  const NO_WINDOWS: Windows := Windows(map[], map[], [])

  /** `surface_of_toplevel`: whatever the `xdg_surface` id it was made for stands for now. */
  function SurfaceOf(w: Windows, k: Key): Option<Key> {
    if k in w.tops && Key(k.client, w.tops[k].xdg) in w.xdgs
    then Some(Key(k.client, w.xdgs[Key(k.client, w.tops[k].xdg)])) else None
  }

  function SurfacesOf(w: Windows, list: seq<Key>): seq<Key> {
    if list == [] then [] else
      var last := SurfaceOf(w, list[|list| - 1]);
      SurfacesOf(w, list[..|list| - 1]) + (if last.Some? then [last.value] else [])
  }

  /** No two toplevels show one surface. Nothing the compositor checks sees to it. */
  ghost predicate SurfacesApart(w: Windows) {
    forall j, k :: j in w.tops && k in w.tops && SurfaceOf(w, j).Some? && SurfaceOf(w, j) == SurfaceOf(w, k) ==> j == k
  }

  ghost predicate Inv(w: Windows) { Rooted(w.tops) && Distinct(w.stack) }

  predicate Stacked(w: Windows, k: Key) { SurfaceOf(w, k).Some? && SurfaceOf(w, k).value in w.stack }

  /** A dialog and its parent, where both are on the stack and are not one surface, are in that order. */
  ghost predicate PairUp(w: Windows, k: Key)
    requires k in LiveParents(w.tops)
  {
    var p := LiveParents(w.tops)[k];
    Stacked(w, k) && Stacked(w, p) && SurfaceOf(w, k) != SurfaceOf(w, p) ==>
      Over(w.stack, SurfaceOf(w, k).value, SurfaceOf(w, p).value)
  }

  /** Every dialog is over its parent. */
  ghost predicate DialogsUp(w: Windows) { forall k :: k in LiveParents(w.tops) ==> PairUp(w, k) }

  lemma {:induction false} SurfaceListed(w: Windows, list: seq<Key>, x: Key)
    ensures x in SurfacesOf(w, list) <==> exists k :: k in list && SurfaceOf(w, k) == Some(x)
  {
    if list != [] {
      var rest, last := list[..|list| - 1], list[|list| - 1];
      SurfaceListed(w, rest, x);
      assert list == rest + [last];
    }
  }

  lemma {:induction false} SurfacesDistinct(w: Windows, list: seq<Key>)
    requires SurfacesApart(w) && Distinct(list)
    ensures Distinct(SurfacesOf(w, list))
  {
    if list != [] {
      var rest, last := list[..|list| - 1], list[|list| - 1];
      SurfacesDistinct(w, rest);
      if SurfaceOf(w, last).Some? {
        SurfaceListed(w, rest, SurfaceOf(w, last).value);
        assert last !in rest;
        DistinctConcat(SurfacesOf(w, rest), [SurfaceOf(w, last).value]);
      }
    }
  }

  /** Surfaces are listed in the order of their toplevels. */
  lemma {:induction false} SurfacesInOrder(w: Windows, list: seq<Key>, i: nat, j: nat)
    requires j < i < |list| && SurfaceOf(w, list[i]).Some? && SurfaceOf(w, list[j]).Some?
    ensures Over(SurfacesOf(w, list), SurfaceOf(w, list[i]).value, SurfaceOf(w, list[j]).value)
  {
    var rest, last := list[..|list| - 1], list[|list| - 1];
    var a, b := SurfaceOf(w, list[i]).value, SurfaceOf(w, list[j]).value;
    if i < |list| - 1 { SurfacesInOrder(w, rest, i, j); }
    else { SurfaceListed(w, rest, b); assert rest[j] == list[j]; }
    if SurfaceOf(w, last).Some? {
      OverSnoc(SurfacesOf(w, rest), SurfaceOf(w, last).value, a, b);
    } else {
      assert SurfacesOf(w, list) == SurfacesOf(w, rest);
    }
  }

  /** `raise_with_children`, of a family listed one way or another. */
  function RaiseFamily(w: Windows, list: seq<Key>): Windows { w.(stack := RaiseAll(w.stack, SurfacesOf(w, list))) }

  /** What a raise leaves of any dialog and its parent, whatever surfaces toplevels may share. */
  lemma RaisedPairExactly(w: Windows, list: seq<Key>, k: Key)
    requires Distinct(w.stack) && k in LiveParents(w.tops)
    ensures var p, raised := LiveParents(w.tops)[k], SurfacesOf(w, list);
      PairUp(RaiseFamily(w, list), k) <==>
        (Stacked(w, k) && Stacked(w, p) && SurfaceOf(w, k) != SurfaceOf(w, p) ==>
          var a, b := SurfaceOf(w, k).value, SurfaceOf(w, p).value;
          if a in raised || b in raised then Later(raised, a, b) else Over(w.stack, a, b))
  {
    var p, raised := LiveParents(w.tops)[k], SurfacesOf(w, list);
    RaiseAllKeeps(w.stack, raised);
    if Stacked(w, k) && Stacked(w, p) && SurfaceOf(w, k) != SurfaceOf(w, p) {
      RaiseAllOrder(w.stack, raised, SurfaceOf(w, k).value, SurfaceOf(w, p).value);
    }
  }

  /** A dialog is in a family just when its parent is. */
  lemma PairsTogether(m: ToplevelMap, root: Key, k: Key)
    requires Rooted(m) && root in m && root !in LiveParents(m) && k in LiveParents(m)
    ensures InFamily(m, root, k) <==> InFamily(m, root, LiveParents(m)[k])
  {
    LiveIsAcyclic(m);
  }

  /**
   Where no two toplevels share a surface, raising a family puts each of its dialogs over its parent,
   whatever the order before, and changes no other pair.
   */
  lemma RaisedPair(w: Windows, root: Key, list: seq<Key>, k: Key)
    requires Inv(w) && SurfacesApart(w)
    requires root in w.tops && root !in LiveParents(w.tops) && IsFamily(w.tops, root, list)
    requires k in LiveParents(w.tops)
    ensures InFamily(w.tops, root, k) ==> PairUp(RaiseFamily(w, list), k)
    ensures !InFamily(w.tops, root, k) ==> (PairUp(RaiseFamily(w, list), k) <==> PairUp(w, k))
  {
    var p, raised := LiveParents(w.tops)[k], SurfacesOf(w, list);
    RaisedPairExactly(w, list, k);
    if Stacked(w, k) && Stacked(w, p) && SurfaceOf(w, k) != SurfaceOf(w, p) {
      var a, b := SurfaceOf(w, k).value, SurfaceOf(w, p).value;
      SurfaceListed(w, list, a);
      SurfaceListed(w, list, b);
      PairsTogether(w.tops, root, k);
      if InFamily(w.tops, root, k) { FamilyInOrder(w, root, list, k); }
    }
  }

  lemma FamilyInOrder(w: Windows, root: Key, list: seq<Key>, k: Key)
    requires Inv(w) && SurfacesApart(w) && IsFamily(w.tops, root, list) && InFamily(w.tops, root, k)
    requires root !in LiveParents(w.tops) && k in LiveParents(w.tops)
    requires SurfaceOf(w, k).Some? && SurfaceOf(w, LiveParents(w.tops)[k]).Some?
    ensures Later(SurfacesOf(w, list), SurfaceOf(w, k).value, SurfaceOf(w, LiveParents(w.tops)[k]).value)
  {
    var p := LiveParents(w.tops)[k];
    var i :| 0 <= i < |list| && list[i] == k;
    var j :| 0 <= j < i && list[j] == p;
    SurfacesInOrder(w, list, i, j);
    SurfacesDistinct(w, list);
    OverIsLater(SurfacesOf(w, list), SurfaceOf(w, k).value, SurfaceOf(w, p).value);
  }

  lemma RaiseKeeps(w: Windows, root: Key, list: seq<Key>)
    requires Inv(w) && SurfacesApart(w)
    requires root in w.tops && root !in LiveParents(w.tops) && IsFamily(w.tops, root, list)
    ensures Inv(RaiseFamily(w, list))
    ensures forall k :: k in LiveParents(w.tops) && InFamily(w.tops, root, k) ==> PairUp(RaiseFamily(w, list), k)
    ensures forall k :: k in LiveParents(w.tops) && !InFamily(w.tops, root, k) ==>
      (PairUp(RaiseFamily(w, list), k) <==> PairUp(w, k))
  {
    RaiseAllKeeps(w.stack, SurfacesOf(w, list));
    forall k | k in LiveParents(w.tops)
      ensures InFamily(w.tops, root, k) ==> PairUp(RaiseFamily(w, list), k)
      ensures !InFamily(w.tops, root, k) ==> (PairUp(RaiseFamily(w, list), k) <==> PairUp(w, k))
    {
      RaisedPair(w, root, list, k);
    }
  }

  // ----- Runs -----

  /** What the shell answers, a new stack or a family's order, comes with the act it answers. */
  datatype Act =
    | Wrap(x: Key, surface: nat)
    | Unwrap(x: Key)
    | Open(k: Key, xdg: nat, placed: seq<Key>)
    | Close(k: Key)
    | SetParent(k: Key, parent: nat, list: seq<Key>)
    | RaiseOne(k: Key, list: seq<Key>)
    | Disconnect(client: nat, left: seq<Key>)

  ghost predicate Refused(w: Windows, k: Key, parent: nat)
    requires Rooted(w.tops)
  {
    parent != 0 && !MayHang(w.tops, k, parent)
  }

  function Hung(w: Windows, k: Key, parent: nat): Windows {
    w.(tops := Hang(w.tops, k, if parent == 0 then None else Some(parent)))
  }

  /** The shell puts one surface anywhere, or nowhere, and leaves the others as they were. */
  ghost predicate Placed(stack: seq<Key>, next: seq<Key>, s: Key) {
    && Distinct(next)
    && (forall x :: x != s ==> (x in next <==> x in stack))
    && (forall a, b :: a != s && b != s ==> (Over(next, a, b) <==> Over(stack, a, b)))
  }

  /** The shell forgets a client's surfaces and leaves the others as they were. */
  ghost predicate Forgotten(stack: seq<Key>, next: seq<Key>, client: nat) {
    && Distinct(next)
    && (forall x :: x in next <==> x in stack && x.client != client)
    && (forall a: Key, b: Key :: a.client != client && b.client != client ==> (Over(next, a, b) <==> Over(stack, a, b)))
  }

  ghost predicate Enabled(w: Windows, a: Act) {
    && Inv(w)
    && match a
       case Wrap(x, surface) => x !in w.xdgs
       case Unwrap(x) => x in w.xdgs
       case Open(k, xdg, placed) =>
         k !in w.tops && Key(k.client, xdg) in w.xdgs
         && Placed(w.stack, placed, Key(k.client, w.xdgs[Key(k.client, xdg)]))
       case Close(k) => k in w.tops
       case SetParent(k, parent, list) =>
         k in w.tops && (!Refused(w, k, parent) ==>
           Rooted(Hung(w, k, parent).tops)
             && IsFamily(Hung(w, k, parent).tops, RootOf(Hung(w, k, parent).tops, k), list))
       case RaiseOne(k, list) => k in w.tops && IsFamily(w.tops, RootOf(w.tops, k), list)
       case Disconnect(client, left) => Forgotten(w.stack, left, client)
  }

  function Wrapped(w: Windows, x: Key, surface: nat): Windows { w.(xdgs := w.xdgs[x := surface]) }

  function Unwrapped(w: Windows, x: Key): Windows { w.(xdgs := w.xdgs - {x}) }

  function Opened(w: Windows, k: Key, xdg: nat, placed: seq<Key>): Windows {
    w.(tops := w.tops[k := Toplevel(xdg, None)], stack := placed)
  }

  function Closed(w: Windows, k: Key): Windows {
    w.(tops := w.tops - {k},
       stack := if SurfaceOf(w, k).Some? then Without(w.stack, SurfaceOf(w, k).value) else w.stack)
  }

  function Left(w: Windows, client: nat, left: seq<Key>): Windows {
    Windows(map k | k in w.tops && k.client != client :: w.tops[k],
            map x | x in w.xdgs && x.client != client :: w.xdgs[x],
            left)
  }

  ghost function Step(w: Windows, a: Act): Windows
    requires Enabled(w, a)
  {
    match a
    case Wrap(x, surface) => Wrapped(w, x, surface)
    case Unwrap(x) => Unwrapped(w, x)
    case Open(k, xdg, placed) => Opened(w, k, xdg, placed)
    case Close(k) => Closed(w, k)
    case SetParent(k, parent, list) => if Refused(w, k, parent) then w else RaiseFamily(Hung(w, k, parent), list)
    case RaiseOne(k, list) => RaiseFamily(w, list)
    case Disconnect(client, left) => Left(w, client, left)
  }

  lemma CloseKeepsInv(w: Windows, k: Key)
    requires Inv(w)
    ensures Inv(Closed(w, k))
  {
    UnlinkKeepsAcyclic(ParentsOf(w.tops), ParentsOf(Closed(w, k).tops));
    if SurfaceOf(w, k).Some? { WithoutDistinct(w.stack, SurfaceOf(w, k).value); }
  }

  /** Whatever is asked, parents stay a forest and the stack lists nothing twice. */
  lemma StepKeepsInv(w: Windows, a: Act)
    requires Enabled(w, a)
    ensures Inv(Step(w, a))
  {
    if a.Open? {
      assert ParentsOf(Step(w, a).tops) == ParentsOf(w.tops);
    } else if a.Close? {
      CloseKeepsInv(w, a.k);
    } else if a.SetParent? {
      if !Refused(w, a.k, a.parent) { RaiseAllKeeps(w.stack, SurfacesOf(Hung(w, a.k, a.parent), a.list)); }
    } else if a.RaiseOne? {
      RaiseAllKeeps(w.stack, SurfacesOf(w, a.list));
    } else if a.Disconnect? {
      UnlinkKeepsAcyclic(ParentsOf(w.tops), ParentsOf(Left(w, a.client, a.left).tops));
    }
  }

  ghost predicate Runs(w: Windows, acts: seq<Act>, t: Windows)
    decreases |acts|
  {
    if acts == [] then w == t else Enabled(w, acts[0]) && Runs(Step(w, acts[0]), acts[1..], t)
  }

  /** Over any run at all. */
  lemma {:induction false} EveryRunIsForest(w: Windows, acts: seq<Act>, t: Windows)
    requires Inv(w) && Runs(w, acts, t)
    ensures Rooted(t.tops) && Distinct(t.stack)
    decreases |acts|
  {
    if acts != [] {
      StepKeepsInv(w, acts[0]);
      EveryRunIsForest(Step(w, acts[0]), acts[1..], t);
    }
  }

  // ----- Surfaces shared -----

  /** A toplevel made for this `xdg_surface` id, whether or not there is one now. */
  predicate MadeFor(w: Windows, x: Key, k: Key) { k in w.tops && Key(k.client, w.tops[k].xdg) == x }

  /** The act makes a second toplevel show a surface. */
  ghost predicate Shares(w: Windows, a: Act) {
    match a
    case Open(k, xdg, placed) =>
      Key(k.client, xdg) in w.xdgs &&
      exists j :: j in w.tops && SurfaceOf(w, j) == Some(Key(k.client, w.xdgs[Key(k.client, xdg)]))
    case Wrap(x, surface) =>
      exists j, k :: j in w.tops && j != k && MadeFor(w, x, k)
        && (MadeFor(w, x, j) || SurfaceOf(w, j) == Some(Key(x.client, surface)))
    case _ => false
  }

  lemma OpenSharesExactly(w: Windows, k: Key, xdg: nat, placed: seq<Key>)
    requires Enabled(w, Open(k, xdg, placed)) && SurfacesApart(w)
    ensures SurfacesApart(Opened(w, k, xdg, placed)) <==> !Shares(w, Open(k, xdg, placed))
  {
    var t := Opened(w, k, xdg, placed);
    assert SurfaceOf(t, k) == Some(Key(k.client, w.xdgs[Key(k.client, xdg)]));
    forall j | j in w.tops ensures SurfaceOf(t, j) == SurfaceOf(w, j) {}
    if j :| j in w.tops && SurfaceOf(w, j) == SurfaceOf(t, k) { assert j in t.tops && k in t.tops && j != k; }
  }

  lemma WrapSharesExactly(w: Windows, x: Key, surface: nat)
    requires Enabled(w, Wrap(x, surface)) && SurfacesApart(w)
    ensures SurfacesApart(Wrapped(w, x, surface)) <==> !Shares(w, Wrap(x, surface))
  {
    var t := Wrapped(w, x, surface);
    forall j | j in w.tops
      ensures SurfaceOf(t, j) == if MadeFor(w, x, j) then Some(Key(x.client, surface)) else SurfaceOf(w, j) {}
    if Shares(w, Wrap(x, surface)) {
      var j, k :| j in w.tops && j != k && MadeFor(w, x, k)
        && (MadeFor(w, x, j) || SurfaceOf(w, j) == Some(Key(x.client, surface)));
      assert SurfaceOf(t, j) == SurfaceOf(t, k);
    }
  }

  /** Surfaces stay apart through every act but one that shares one, and never through that. */
  lemma ApartExactly(w: Windows, a: Act)
    requires Enabled(w, a) && SurfacesApart(w)
    ensures SurfacesApart(Step(w, a)) <==> !Shares(w, a)
  {
    if a.Open? { OpenSharesExactly(w, a.k, a.xdg, a.placed); }
    else if a.Wrap? { WrapSharesExactly(w, a.x, a.surface); }
    else {
      var t := Step(w, a);
      forall j | j in t.tops ensures j in w.tops && (SurfaceOf(t, j) == SurfaceOf(w, j) || SurfaceOf(t, j).None?) {}
    }
  }

  // ----- Dialogs over parents -----

  lemma RootIsLive(m: ToplevelMap, k: Key)
    requires Rooted(m) && k in m
    ensures RootOf(m, k) in m && RootOf(m, k) !in LiveParents(m) && InFamily(m, RootOf(m, k), k)
  {
    LiveIsAcyclic(m);
    RootAmong(m, k);
  }

  lemma {:induction false} RootAmong(m: ToplevelMap, k: Key)
    requires Rooted(m) && k in m
    ensures RootOf(m, k) in m
    decreases LiveDepth(m, k)
  {
    LiveIsAcyclic(m);
    if k in LiveParents(m) {
      DepthStep(LiveParents(m), k);
      RootAmong(m, LiveParents(m)[k]);
    }
  }

  /** Setting a parent raises the new family, and so leaves every dialog over its parent. */
  lemma SetParentKeeps(w: Windows, k: Key, parent: nat, list: seq<Key>)
    requires Enabled(w, SetParent(k, parent, list)) && SurfacesApart(w) && DialogsUp(w) && !Refused(w, k, parent)
    ensures DialogsUp(RaiseFamily(Hung(w, k, parent), list))
  {
    var u := Hung(w, k, parent);
    HungApart(w, k, parent);
    RootIsLive(u.tops, k);
    RaiseKeeps(u, RootOf(u.tops, k), list);
    forall j | j in LiveParents(u.tops) ensures PairUp(RaiseFamily(u, list), j) {
      if !InFamily(u.tops, RootOf(u.tops, k), j) { assert j in LiveParents(w.tops) && PairUp(w, j); }
    }
  }

  lemma HungApart(w: Windows, k: Key, parent: nat)
    requires SurfacesApart(w)
    ensures SurfacesApart(Hung(w, k, parent))
    ensures forall j :: SurfaceOf(Hung(w, k, parent), j) == SurfaceOf(w, j)
  {}

  lemma RaiseOneKeeps(w: Windows, k: Key, list: seq<Key>)
    requires Enabled(w, RaiseOne(k, list)) && SurfacesApart(w) && DialogsUp(w)
    ensures DialogsUp(RaiseFamily(w, list))
  {
    RootIsLive(w.tops, k);
    RaiseKeeps(w, RootOf(w.tops, k), list);
  }

  lemma CloseKeeps(w: Windows, k: Key)
    requires Inv(w) && k in w.tops && DialogsUp(w)
    ensures DialogsUp(Closed(w, k))
  {
    var t := Closed(w, k);
    forall j | j in LiveParents(t.tops) ensures PairUp(t, j) {
      assert PairUp(w, j);
      ClosedPair(w, k, j);
    }
  }

  lemma ClosedPair(w: Windows, k: Key, j: Key)
    requires Inv(w) && k in w.tops && j in LiveParents(Closed(w, k).tops)
    requires j in LiveParents(w.tops) && PairUp(w, j)
    ensures PairUp(Closed(w, k), j)
  {
    var t, p := Closed(w, k), LiveParents(w.tops)[j];
    assert SurfaceOf(t, j) == SurfaceOf(w, j) && SurfaceOf(t, p) == SurfaceOf(w, p);
    if Stacked(t, j) && Stacked(t, p) && SurfaceOf(w, j) != SurfaceOf(w, p) && SurfaceOf(w, k).Some? {
      WithoutKeepsOrder(w.stack, SurfaceOf(w, k).value, SurfaceOf(w, j).value, SurfaceOf(w, p).value);
    }
  }

  /** A toplevel that still names the id as its parent, and is on the stack. */
  predicate Orphan(w: Windows, k: Key, c: Key) {
    c in w.tops && c.client == k.client && w.tops[c].parent == Some(k.id) && Stacked(w, c)
  }

  /** The window goes in under every dialog that still names its id as parent, if it goes in at all. */
  ghost predicate Under(w: Windows, k: Key, s: Key, placed: seq<Key>) {
    s in placed ==> forall c :: Orphan(w, k, c) ==> Over(placed, SurfaceOf(w, c).value, s)
  }

  lemma OpenedPair(w: Windows, k: Key, xdg: nat, placed: seq<Key>, c: Key)
    requires Enabled(w, Open(k, xdg, placed)) && SurfacesApart(Opened(w, k, xdg, placed)) && DialogsUp(w)
    requires c in LiveParents(Opened(w, k, xdg, placed).tops)
    ensures var s := Key(k.client, w.xdgs[Key(k.client, xdg)]);
      PairUp(Opened(w, k, xdg, placed), c)
      <==> (s in placed && Orphan(w, k, c) ==> Over(placed, SurfaceOf(w, c).value, s))
  {
    var t := Opened(w, k, xdg, placed);
    var p := LiveParents(t.tops)[c];
    var s := Key(k.client, w.xdgs[Key(k.client, xdg)]);
    assert c != k && c in w.tops && t.tops[c] == w.tops[c];
    assert SurfaceOf(t, c) == SurfaceOf(w, c) && SurfaceOf(t, k) == Some(s) && SurfaceOf(t, c) != SurfaceOf(t, k);
    if p != k {
      assert SurfaceOf(t, p) == SurfaceOf(w, p) && SurfaceOf(t, p) != SurfaceOf(t, k);
      assert c in LiveParents(w.tops) && PairUp(w, c);
    }
  }

  /**
   A window opened under an id some dialog still names becomes that dialog's parent. It keeps
   dialogs over parents exactly when it goes in under every such dialog.
   */
  lemma OpenKeepsExactly(w: Windows, k: Key, xdg: nat, placed: seq<Key>)
    requires Enabled(w, Open(k, xdg, placed)) && SurfacesApart(w) && DialogsUp(w) && !Shares(w, Open(k, xdg, placed))
    ensures DialogsUp(Opened(w, k, xdg, placed)) <==> Under(w, k, Key(k.client, w.xdgs[Key(k.client, xdg)]), placed)
  {
    var t, s := Opened(w, k, xdg, placed), Key(k.client, w.xdgs[Key(k.client, xdg)]);
    OpenSharesExactly(w, k, xdg, placed);
    forall c | c in LiveParents(t.tops)
      ensures PairUp(t, c) <==> (s in placed && Orphan(w, k, c) ==> Over(placed, SurfaceOf(w, c).value, s))
    {
      OpenedPair(w, k, xdg, placed, c);
    }
    forall c | Orphan(w, k, c) ensures c in LiveParents(t.tops) { assert t.tops[c] == w.tops[c]; }
  }

  /**
   Of the windows made for this `xdg_surface`, each is over its parent and under its dialogs wherever the surface
   it is to wrap has been left in the stack.
   */
  ghost predicate InPlace(w: Windows, x: Key, s: Key) {
    s in w.stack ==> forall k :: k in LiveParents(w.tops) ==> PairInPlace(w, x, s, k)
  }

  ghost predicate PairInPlace(w: Windows, x: Key, s: Key, k: Key)
    requires k in LiveParents(w.tops)
  {
    var p := LiveParents(w.tops)[k];
    && (MadeFor(w, x, k) && !MadeFor(w, x, p) && Stacked(w, p) && SurfaceOf(w, p) != Some(s) ==>
          Over(w.stack, s, SurfaceOf(w, p).value))
    && (!MadeFor(w, x, k) && MadeFor(w, x, p) && Stacked(w, k) && SurfaceOf(w, k) != Some(s) ==>
          Over(w.stack, SurfaceOf(w, k).value, s))
  }

  lemma WrappedPair(w: Windows, x: Key, surface: nat, k: Key)
    requires Enabled(w, Wrap(x, surface)) && k in LiveParents(w.tops) && PairUp(w, k)
    ensures var s := Key(x.client, surface);
      PairUp(Wrapped(w, x, surface), k) <==> (s in w.stack ==> PairInPlace(w, x, s, k))
  {
    var t, p := Wrapped(w, x, surface), LiveParents(w.tops)[k];
    forall j | j == k || j == p
      ensures SurfaceOf(t, j) == if MadeFor(w, x, j) then Some(Key(x.client, surface)) else SurfaceOf(w, j) {}
  }

  /**
   An `xdg_surface` made under an id toplevels still name shows them again. It keeps dialogs over parents
   exactly when the surface it wraps is where they belong.
   */
  lemma WrapKeepsExactly(w: Windows, x: Key, surface: nat)
    requires Enabled(w, Wrap(x, surface)) && DialogsUp(w)
    ensures DialogsUp(Wrapped(w, x, surface)) <==> InPlace(w, x, Key(x.client, surface))
  {
    forall k | k in LiveParents(w.tops)
      ensures PairUp(Wrapped(w, x, surface), k)
        <==> (Key(x.client, surface) in w.stack ==> PairInPlace(w, x, Key(x.client, surface), k))
    {
      WrappedPair(w, x, surface, k);
    }
  }

  lemma UnwrapKeeps(w: Windows, x: Key)
    requires DialogsUp(w)
    ensures DialogsUp(Unwrapped(w, x))
  {
    var t := Unwrapped(w, x);
    forall k | k in LiveParents(t.tops) ensures PairUp(t, k) {
      assert PairUp(w, k);
    }
  }

  lemma LeftKeeps(w: Windows, client: nat, left: seq<Key>)
    requires Enabled(w, Disconnect(client, left)) && DialogsUp(w)
    ensures DialogsUp(Left(w, client, left))
  {
    var t := Left(w, client, left);
    forall k | k in LiveParents(t.tops) ensures PairUp(t, k) {
      assert k in LiveParents(w.tops) && PairUp(w, k);
    }
  }

  /** A window opened goes in under dialogs that still name it, and one given a surface is given it in place. */
  ghost predicate Tidy(w: Windows, a: Act)
    requires Enabled(w, a)
  {
    match a
    case Open(k, xdg, placed) => Under(w, k, Key(k.client, w.xdgs[Key(k.client, xdg)]), placed)
    case Wrap(x, surface) => InPlace(w, x, Key(x.client, surface))
    case _ => true
  }

  /** An act that shares no surface keeps every dialog over its parent exactly when it is tidy. */
  lemma StepKeeps(w: Windows, a: Act)
    requires Enabled(w, a) && SurfacesApart(w) && DialogsUp(w) && !Shares(w, a)
    ensures DialogsUp(Step(w, a)) <==> Tidy(w, a)
  {
    match a
    case Wrap(x, surface) => WrapKeepsExactly(w, x, surface);
    case Unwrap(x) => UnwrapKeeps(w, x);
    case Open(k, xdg, placed) => OpenKeepsExactly(w, k, xdg, placed);
    case Close(k) => CloseKeeps(w, k);
    case SetParent(k, parent, list) => if !Refused(w, k, parent) { SetParentKeeps(w, k, parent, list); }
    case RaiseOne(k, list) => RaiseOneKeeps(w, k, list);
    case Disconnect(client, left) => LeftKeeps(w, client, left);
  }

  /** A run whose every act is tidy and shares no surface. */
  ghost predicate Orderly(w: Windows, acts: seq<Act>)
    decreases |acts|
  {
    acts != [] && Enabled(w, acts[0]) ==>
      !Shares(w, acts[0]) && Tidy(w, acts[0]) && Orderly(Step(w, acts[0]), acts[1..])
  }

  /** Over such a run every dialog stays over its parent. */
  lemma {:induction false} OrderlyRunsKeepDialogsUp(w: Windows, acts: seq<Act>, t: Windows)
    requires Inv(w) && SurfacesApart(w) && DialogsUp(w) && Runs(w, acts, t) && Orderly(w, acts)
    ensures SurfacesApart(t) && DialogsUp(t)
    decreases |acts|
  {
    if acts != [] {
      StepKeepsInv(w, acts[0]);
      ApartExactly(w, acts[0]);
      StepKeeps(w, acts[0]);
      OrderlyRunsKeepDialogsUp(Step(w, acts[0]), acts[1..], t);
    }
  }

  // ----- A raise that puts a dialog under its parent -----

  const PARENT: Key := Key(0, 20)
  const DIALOG: Key := Key(0, 21)
  const SECOND: Key := Key(0, 22)

  ghost predicate Reached(w: Windows) { exists acts :: Runs(NO_WINDOWS, acts, w) }

  lemma {:induction false} RunsOn(w: Windows, acts: seq<Act>, t: Windows, a: Act)
    requires Runs(w, acts, t) && Enabled(t, a)
    ensures Runs(w, acts + [a], Step(t, a))
    decreases |acts|
  {
    if acts == [] {
      assert (acts + [a])[1..] == [];
    } else {
      assert (acts + [a])[1..] == acts[1..] + [a];
      RunsOn(Step(w, acts[0]), acts[1..], t, a);
    }
  }

  lemma ReachedNext(w: Windows, a: Act)
    requires Reached(w) && Enabled(w, a)
    ensures Reached(Step(w, a)) && Inv(Step(w, a))
  {
    var acts :| Runs(NO_WINDOWS, acts, w);
    RunsOn(NO_WINDOWS, acts, w, a);
    StepKeepsInv(w, a);
  }

  const WRAPPERS: map<Key, nat> := map[Key(0, 10) := 30, Key(0, 11) := 31]

  const PAIR: seq<Key> := [Key(0, 30), Key(0, 31)]

  const TURNED: seq<Key> := [Key(0, 31), Key(0, 30)]

  function Two(parent: Option<nat>): ToplevelMap { map[PARENT := Toplevel(10, None), DIALOG := Toplevel(11, parent)] }

  lemma TwoWrapped() returns (w: Windows)
    ensures Reached(w) && Inv(w) && w == Windows(map[], WRAPPERS, [])
  {
    assert Runs(NO_WINDOWS, [], NO_WINDOWS);
    ReachedNext(NO_WINDOWS, Wrap(Key(0, 10), 30));
    w := Wrapped(NO_WINDOWS, Key(0, 10), 30);
    ReachedNext(w, Wrap(Key(0, 11), 31));
    w := Wrapped(w, Key(0, 11), 31);
  }

  lemma TwoWindows() returns (w: Windows)
    ensures Reached(w) && Inv(w) && w == Windows(Two(None), WRAPPERS, PAIR)
  {
    w := TwoWrapped();
    assert Placed([], [Key(0, 30)], Key(0, 30));
    ReachedNext(w, Open(PARENT, 10, [Key(0, 30)]));
    w := Opened(w, PARENT, 10, [Key(0, 30)]);
    assert Placed([Key(0, 30)], PAIR, Key(0, 31));
    ReachedNext(w, Open(DIALOG, 11, PAIR));
    w := Opened(w, DIALOG, 11, PAIR);
  }

  lemma TwoIsFamily()
    ensures Rooted(Two(Some(20))) && LiveParents(Two(Some(20))) == map[DIALOG := PARENT]
    ensures RootOf(Two(Some(20)), DIALOG) == PARENT && IsFamily(Two(Some(20)), PARENT, [PARENT, DIALOG])
  {
    var m := Two(Some(20));
    assert ParentsOf(m) == map[DIALOG := PARENT] && LiveParents(m) == map[DIALOG := PARENT];
    assert Ends(ParentsOf(m), DIALOG, 1);
    DepthStep(LiveParents(m), DIALOG);
    assert Above(LiveParents(m), PARENT, PARENT);
    assert [PARENT, DIALOG][0] == PARENT;
  }

  lemma DialogHung() returns (w: Windows)
    ensures Reached(w) && Inv(w) && w == Windows(Two(Some(20)), WRAPPERS, PAIR)
  {
    w := TwoWindows();
    var act := SetParent(DIALOG, 20, [PARENT, DIALOG]);
    TwoIsFamily();
    assert ParentsOf(Two(None)) == map[];
    assert MayHang(w.tops, DIALOG, 20);
    assert Hung(w, DIALOG, 20).tops == Two(Some(20));
    ReachedNext(w, act);
    w := RaiseFamily(Hung(w, DIALOG, 20), [PARENT, DIALOG]);
    PairRaised();
  }

  lemma RaisesFew(stack: seq<Key>, x: Key, y: Key)
    ensures RaiseAll(stack, [x]) == Raise(stack, x)
    ensures RaiseAll(stack, [x, y]) == Raise(Raise(stack, x), y)
  {
    assert [x][..0] == [] && [x, y][..1] == [x];
    assert RaiseAll(stack, []) == stack;
  }

  lemma PairRaises()
    ensures Raise(PAIR, Key(0, 30)) == TURNED
    ensures Raise(TURNED, Key(0, 31)) == PAIR
  {
    assert PAIR[1..] == [Key(0, 31)] && [Key(0, 31)][1..] == [];
    assert TURNED[1..] == [Key(0, 30)] && [Key(0, 30)][1..] == [];
  }

  lemma PairSurfaces(w: Windows)
    requires w == Windows(Two(Some(20)), WRAPPERS, PAIR)
    ensures SurfacesOf(w, [PARENT, DIALOG]) == PAIR
  {
    assert [PARENT, DIALOG][..1] == [PARENT] && [PARENT][..0] == [];
    assert SurfacesOf(w, []) == [];
    assert SurfacesOf(w, [PARENT]) == [Key(0, 30)];
  }

  lemma PairRaised()
    ensures var w := Windows(Two(Some(20)), WRAPPERS, PAIR);
      RaiseFamily(w, [PARENT, DIALOG]) == w
  {
    PairSurfaces(Windows(Two(Some(20)), WRAPPERS, PAIR));
    RaisesFew(PAIR, Key(0, 30), Key(0, 31));
    PairRaises();
  }

  const THREE: ToplevelMap := Two(Some(20))[SECOND := Toplevel(10, None)]

  lemma SecondOpened() returns (w: Windows)
    ensures Reached(w) && Inv(w) && w == Windows(THREE, WRAPPERS, PAIR)
  {
    w := DialogHung();
    assert Placed(PAIR, PAIR, Key(0, 30));
    ReachedNext(w, Open(SECOND, 10, PAIR));
    w := Opened(w, SECOND, 10, PAIR);
  }

  lemma SecondAlone()
    requires Rooted(THREE)
    ensures LiveParents(THREE) == map[DIALOG := PARENT]
    ensures RootOf(THREE, SECOND) == SECOND && IsFamily(THREE, SECOND, [SECOND])
  {
    LiveIsAcyclic(THREE);
    var par := LiveParents(THREE);
    assert par == map[DIALOG := PARENT];
    DepthStep(par, DIALOG);
    assert !Above(par, SECOND, PARENT) && !Above(par, SECOND, DIALOG) && Above(par, SECOND, SECOND);
    forall k ensures InFamily(THREE, SECOND, k) <==> k == SECOND {}
  }

  lemma SecondRaised()
    ensures RaiseFamily(Windows(THREE, WRAPPERS, PAIR), [SECOND]).stack == TURNED
  {
    var w := Windows(THREE, WRAPPERS, PAIR);
    assert [SECOND][..0] == [] && SurfacesOf(w, []) == [] && SurfacesOf(w, [SECOND]) == [Key(0, 30)];
    RaisesFew(PAIR, Key(0, 30), Key(0, 30));
    PairRaises();
  }

  /** A second toplevel on the parent's surface, raised on its own account, carries the parent over its dialog. */
  lemma SharedSurfaceWitness() returns (w: Windows, act: Act)
    ensures Reached(w) && Enabled(w, act) && act.RaiseOne? && DialogsUp(w) && !DialogsUp(Step(w, act))
  {
    w := SecondOpened();
    act := RaiseOne(SECOND, [SECOND]);
    SecondAlone();
    SecondRaised();
    InAndOutOfOrder();
  }

  lemma InAndOutOfOrder()
    requires LiveParents(THREE) == map[DIALOG := PARENT]
    ensures DialogsUp(Windows(THREE, WRAPPERS, PAIR))
    ensures !DialogsUp(Windows(THREE, WRAPPERS, TURNED))
  {
    var up, down := Windows(THREE, WRAPPERS, PAIR), Windows(THREE, WRAPPERS, TURNED);
    assert up.stack[0] == Key(0, 30) && up.stack[1] == Key(0, 31);
    assert PairUp(up, DIALOG) && !PairUp(down, DIALOG);
  }

  // ----- A window that comes back over its dialog, and a dialog that comes back under its window -----

  /** The parent closed and another opened under its id, which the shell puts on top. */
  lemma OpenWitness() returns (w: Windows, act: Act)
    ensures Reached(w) && Enabled(w, act) && act.Open? && DialogsUp(w) && !Shares(w, act) && !DialogsUp(Step(w, act))
  {
    w := DialogHung();
    w := ParentClosed(w);
    act := Open(PARENT, 10, TURNED);
    OrphanOpened(w);
  }

  const ORPHANED: ToplevelMap := map[DIALOG := Toplevel(11, Some(20))]

  lemma ParentClosed(w: Windows) returns (t: Windows)
    requires Reached(w) && Inv(w) && w == Windows(Two(Some(20)), WRAPPERS, PAIR)
    ensures Reached(t) && Inv(t) && t == Windows(ORPHANED, WRAPPERS, [Key(0, 31)])
  {
    ReachedNext(w, Close(PARENT));
    t := Closed(w, PARENT);
    assert Two(Some(20)) - {PARENT} == ORPHANED;
    assert PAIR[1..] == [Key(0, 31)] && [Key(0, 31)][1..] == [];
  }

  lemma OrphanOpened(w: Windows)
    requires Inv(w) && w == Windows(ORPHANED, WRAPPERS, [Key(0, 31)])
    ensures var act := Open(PARENT, 10, TURNED);
      Enabled(w, act) && DialogsUp(w) && !Shares(w, act) && !DialogsUp(Step(w, act))
  {
    assert LiveParents(ORPHANED) == map[];
    assert TURNED[0] == Key(0, 31) && TURNED[1] == Key(0, 30);
    assert Placed([Key(0, 31)], TURNED, Key(0, 30));
    var t := Opened(w, PARENT, 10, TURNED);
    assert t.tops == Two(Some(20));
    TwoIsFamily();
    assert !PairUp(t, DIALOG);
  }

  /** The dialog's `xdg_surface` destroyed, its parent raised, and the dialog given its surface back. */
  lemma WrapWitness() returns (w: Windows, act: Act)
    ensures Reached(w) && Enabled(w, act) && act.Wrap? && DialogsUp(w) && !Shares(w, act) && !DialogsUp(Step(w, act))
  {
    w := DialogHung();
    w := DialogUnwrapped(w);
    act := Wrap(Key(0, 11), 31);
    DialogRewrapped(w);
  }

  const ONE_WRAPPER: map<Key, nat> := map[Key(0, 10) := 30]

  lemma DialogUnwrapped(w: Windows) returns (t: Windows)
    requires Reached(w) && Inv(w) && w == Windows(Two(Some(20)), WRAPPERS, PAIR)
    ensures Reached(t) && Inv(t) && t == Windows(Two(Some(20)), ONE_WRAPPER, TURNED)
  {
    ReachedNext(w, Unwrap(Key(0, 11)));
    t := Unwrapped(w, Key(0, 11));
    assert WRAPPERS - {Key(0, 11)} == ONE_WRAPPER;
    TwoIsFamily();
    ParentRoot();
    ParentAloneRaised();
    ReachedNext(t, RaiseOne(PARENT, [PARENT, DIALOG]));
    t := RaiseFamily(t, [PARENT, DIALOG]);
  }

  lemma ParentRoot()
    requires Rooted(Two(Some(20))) && LiveParents(Two(Some(20))) == map[DIALOG := PARENT]
    ensures RootOf(Two(Some(20)), PARENT) == PARENT
  {}

  lemma ParentAloneRaised()
    ensures RaiseFamily(Windows(Two(Some(20)), ONE_WRAPPER, PAIR), [PARENT, DIALOG]).stack == TURNED
  {
    var w := Windows(Two(Some(20)), ONE_WRAPPER, PAIR);
    assert [PARENT, DIALOG][..1] == [PARENT] && [PARENT][..0] == [];
    assert SurfacesOf(w, []) == [] && SurfacesOf(w, [PARENT]) == [Key(0, 30)];
    assert SurfacesOf(w, [PARENT, DIALOG]) == [Key(0, 30)];
    RaisesFew(PAIR, Key(0, 30), Key(0, 30));
    PairRaises();
  }

  lemma DialogRewrapped(w: Windows)
    requires Inv(w) && w == Windows(Two(Some(20)), ONE_WRAPPER, TURNED)
    ensures var act := Wrap(Key(0, 11), 31);
      Enabled(w, act) && DialogsUp(w) && !Shares(w, act) && !DialogsUp(Step(w, act))
  {
    TwoIsFamily();
    var t := Wrapped(w, Key(0, 11), 31);
    assert TURNED[0] == Key(0, 31) && TURNED[1] == Key(0, 30);
    assert SurfaceOf(w, DIALOG).None? && PairUp(w, DIALOG);
    assert !PairUp(t, DIALOG);
  }

  // ----- The handlers -----

  /** One toplevel of a list more, raised if it has a surface. */
  lemma RaiseOneMore(stack: seq<Key>, w: Windows, list: seq<Key>, i: nat)
    requires i < |list|
    ensures RaiseAll(stack, SurfacesOf(w, list[..i + 1])) ==
      var before, s := RaiseAll(stack, SurfacesOf(w, list[..i])), SurfaceOf(w, list[i]);
      if s.Some? then Raise(before, s.value) else before
  {
    var so := SurfacesOf(w, list[..i]);
    assert list[..i + 1][..i] == list[..i];
    if SurfaceOf(w, list[i]).Some? {
      assert (so + [SurfaceOf(w, list[i]).value])[..|so|] == so;
    } else {
      assert so + [] == so;
    }
  }

  /** The toplevels, what they are made for and the stack, updated in place. */
  class Desktop {
    var tops: ToplevelMap
    var xdgs: map<Key, nat>
    var stack: seq<Key>

    ghost function Model(): Windows
      reads this
    {
      Windows(tops, xdgs, stack)
    }

    constructor ()
      ensures Model() == NO_WINDOWS
    {
      tops, xdgs, stack := map[], map[], [];
    }

    method SurfaceOfToplevel(k: Key) returns (surface: Option<Key>)
      requires k in tops
      ensures surface == SurfaceOf(Model(), k)
    {
      var xdg := Key(k.client, tops[k].xdg);
      if xdg !in xdgs { return None; }
      return Some(Key(k.client, xdgs[xdg]));
    }

    /** `raise_with_children`. */
    method RaiseWithChildren(k: Key) returns (ghost list: seq<Key>)
      requires Inv(Model()) && k in tops
      modifies this`stack
      ensures Enabled(old(Model()), RaiseOne(k, list)) && Model() == Step(old(Model()), RaiseOne(k, list))
    {
      ghost var w := Model();
      var family := ToplevelFamily(tops, k);
      for i := 0 to |family|
        invariant stack == RaiseAll(w.stack, SurfacesOf(w, family[..i]))
      {
        RaiseOneMore(w.stack, w, family, i);
        if family[i] in tops {
          var surface := SurfaceOfToplevel(family[i]);
          assert surface == SurfaceOf(w, family[i]);
          if surface.Some? && surface.value in stack { stack := Without(stack, surface.value) + [surface.value]; }
        }
      }
      assert family[..|family|] == family;
      list := family;
    }

    /** `xdg_toplevel.set_parent`. */
    method HandleSetParent(k: Key, parent: nat) returns (ghost list: seq<Key>)
      requires Inv(Model()) && k in tops
      modifies this
      ensures Enabled(old(Model()), SetParent(k, parent, list))
      ensures Model() == Step(old(Model()), SetParent(k, parent, list))
    {
      var named: Option<nat> := None;
      if parent != 0 {
        if Key(k.client, parent) !in tops { return []; }
        var circle := WouldCycle(tops, k, Key(k.client, parent));
        if circle { return []; }
        named := Some(parent);
      }
      HangKeepsRooted(tops, k, named);
      tops := tops[k := tops[k].(parent := named)];
      list := RaiseWithChildren(k);
    }
  }
}
