/** The tree surfaces form: the steps that build and undo it, and the walks over it. */
module Forest {
  import opened Base
  import opened Links
  import opened Surfaces

  type SurfaceMap = map<Key, Surface>

  /** The parent links, whether or not the surface at the far end still exists. */
  function ParentsOf(m: SurfaceMap): Parents {
    map k | k in m && m[k].parent.Some? :: Key(k.client, m[k].parent.value)
  }

  ghost predicate Rooted(m: SurfaceMap) { Acyclic(ParentsOf(m)) }

  /** Every listed child is a live surface whose parent is the one listing it, listed once. */
  ghost predicate ListsSound(m: SurfaceMap) {
    forall k :: k in m ==> ListSound(m, k)
  }

  ghost predicate ListSound(m: SurfaceMap, k: Key)
    requires k in m
  {
    && Distinct(m[k].children)
    && forall id :: id in m[k].children ==> Key(k.client, id) in m && m[Key(k.client, id)].parent == Some(k.id)
  }

  // ----- The steps that make and break links -----

  /** `create_surface`, after the id has been registered: a new surface, whatever the id named before. */
  function Create(m: SurfaceMap, k: Key): SurfaceMap { m[k := NEW_SURFACE] }

  function DropChild(m: SurfaceMap, parent: Key, id: nat): SurfaceMap {
    if parent in m then m[parent := m[parent].(children := Without(m[parent].children, id))] else m
  }

  /** `destroy_surface`: out of the map, and out of its parent's list. */
  function Destroy(m: SurfaceMap, k: Key): SurfaceMap {
    if k !in m then m
    else if m[k].parent.None? then m - {k}
    else DropChild(m - {k}, Key(k.client, m[k].parent.value), k.id)
  }

  function AddChild(m: SurfaceMap, parent: Key, id: nat): SurfaceMap {
    if parent in m then m[parent := m[parent].(children := m[parent].children + [id])] else m
  }

  /** `get_subsurface`, once the link has been allowed. */
  function LinkSubsurface(m: SurfaceMap, k: Key, parent: nat): SurfaceMap {
    var linked := if k in m then m[k := m[k].(parent := Some(parent), isSubsurface := true, subsurfaceSync := true)]
      else m;
    AddChild(linked, Key(k.client, parent), k.id)
  }

  /** Either `get_popup`, once the link has been allowed. */
  function LinkPopup(m: SurfaceMap, k: Key, parent: nat, at: Point): SurfaceMap {
    var linked := if k in m then m[k := m[k].(parent := Some(parent), subsurfacePosition := ClampOffset(at))] else m;
    AddChild(linked, Key(k.client, parent), k.id)
  }

  /** `wl_subsurface.destroy`: the link and the role both go. */
  function UnlinkSubsurface(m: SurfaceMap, k: Key): SurfaceMap {
    if k !in m then m else
      var loose := m[k := m[k].(parent := None, isSubsurface := false, subsurfaceSync := false)];
      if m[k].parent.None? then loose else DropChild(loose, Key(k.client, m[k].parent.value), k.id)
  }

  /** `xdg_popup.destroy`. */
  function UnlinkPopup(m: SurfaceMap, k: Key): SurfaceMap {
    if k !in m then m else
      var dropped := if m[k].parent.None? then m else DropChild(m, Key(k.client, m[k].parent.value), k.id);
      dropped[k := dropped[k].(parent := None)]
  }

  function InsertAt(s: seq<nat>, i: nat, x: nat): seq<nat>
    requires i <= |s|
  {
    s[..i] + [x] + s[i..]
  }

  /** `place_above` and `place_below`: move a child within its parent's list. */
  function Restack(children: seq<nat>, id: nat, sibling: nat, above: bool): seq<nat> {
    var rest := Without(children, id);
    if sibling in rest then InsertAt(rest, IndexOf(rest, sibling) + (if above then 1 else 0), id)
    else if above then rest + [id] else [id] + rest
  }

  function Place(m: SurfaceMap, k: Key, sibling: nat, above: bool): SurfaceMap {
    if k !in m || m[k].parent.None? then m else
      var p := Key(k.client, m[k].parent.value);
      if p in m then m[p := m[p].(children := Restack(m[p].children, k.id, sibling, above))] else m
  }

  function RemoveClient(m: SurfaceMap, client: nat): SurfaceMap {
    map k | k in m && k.client != client :: m[k]
  }

  // ----- What each step does to the links -----

  lemma LinksAfterCreate(m: SurfaceMap, k: Key)
    requires k !in m
    ensures ParentsOf(Create(m, k)) == ParentsOf(m)
  {}

  lemma LinksAfterDestroy(m: SurfaceMap, k: Key)
    ensures ParentsOf(Destroy(m, k)) == ParentsOf(m) - {k}
  {}

  lemma LinksAfterLink(m: SurfaceMap, k: Key, parent: nat, at: Point)
    ensures var links := if k in m then ParentsOf(m)[k := Key(k.client, parent)] else ParentsOf(m);
      ParentsOf(LinkSubsurface(m, k, parent)) == links && ParentsOf(LinkPopup(m, k, parent, at)) == links
  {
    LinksAfterLinkPopup(m, k, parent, at);
  }

  lemma LinksAfterLinkPopup(m: SurfaceMap, k: Key, parent: nat, at: Point)
    ensures ParentsOf(LinkPopup(m, k, parent, at))
         == if k in m then ParentsOf(m)[k := Key(k.client, parent)] else ParentsOf(m)
  {}

  lemma LinksAfterUnlink(m: SurfaceMap, k: Key)
    ensures ParentsOf(UnlinkSubsurface(m, k)) == ParentsOf(m) - {k}
    ensures ParentsOf(UnlinkPopup(m, k)) == ParentsOf(m) - {k}
  {
    LinksAfterUnlinkPopup(m, k);
  }

  lemma LinksAfterUnlinkPopup(m: SurfaceMap, k: Key)
    ensures ParentsOf(UnlinkPopup(m, k)) == ParentsOf(m) - {k}
  {}

  lemma LinksAfterPlace(m: SurfaceMap, k: Key, sibling: nat, above: bool)
    ensures ParentsOf(Place(m, k, sibling, above)) == ParentsOf(m)
  {}

  // ----- What each step does to the child lists -----

  lemma ListsAfterCreate(m: SurfaceMap, k: Key)
    requires k !in m && ListsSound(m)
    ensures ListsSound(Create(m, k))
  {
    var next := Create(m, k);
    forall p | p in next ensures ListSound(next, p) {
      if p != k { assert ListSound(m, p); }
    }
  }

  lemma ListsAfterDestroy(m: SurfaceMap, k: Key)
    requires ListsSound(m)
    ensures ListsSound(Destroy(m, k))
  {
    var next := Destroy(m, k);
    forall p | p in next ensures ListSound(next, p) {
      assert ListSound(m, p);
      WithoutDistinct(m[p].children, k.id);
    }
  }

  lemma ListsAfterUnlink(m: SurfaceMap, k: Key)
    requires ListsSound(m)
    ensures ListsSound(UnlinkSubsurface(m, k)) && ListsSound(UnlinkPopup(m, k))
  {
    forall p | p in m
      ensures ListSound(UnlinkSubsurface(m, k), p)
    {
      assert ListSound(m, p);
      WithoutDistinct(m[p].children, k.id);
    }
    ListsAfterUnlinkPopup(m, k);
  }

  lemma ListsAfterUnlinkPopup(m: SurfaceMap, k: Key)
    requires ListsSound(m)
    ensures ListsSound(UnlinkPopup(m, k))
  {
    forall p | p in m
      ensures ListSound(UnlinkPopup(m, k), p)
    {
      assert ListSound(m, p);
      WithoutDistinct(m[p].children, k.id);
    }
  }

  lemma InsertSame(s: seq<nat>, i: nat, x: nat)
    requires i <= |s| && Distinct(s) && x !in s
    ensures Distinct(InsertAt(s, i, x))
    ensures forall y :: y in InsertAt(s, i, x) <==> y in s || y == x
  {
    assert s == s[..i] + s[i..];
  }

  lemma {:induction false} RestackSame(children: seq<nat>, id: nat, sibling: nat, above: bool)
    requires Distinct(children)
    ensures Distinct(Restack(children, id, sibling, above))
    ensures forall x :: x in Restack(children, id, sibling, above) <==> x in children || x == id
  {
    WithoutDistinct(children, id);
    var rest := Without(children, id);
    if sibling in rest {
      InsertSame(rest, IndexOf(rest, sibling) + (if above then 1 else 0), id);
    }
  }

  /** `id` stands at `i`, and nowhere else. */
  predicate StandsAt(list: seq<nat>, id: nat, i: int) {
    0 <= i < |list| && list[i] == id && id !in list[..i] && id !in list[i + 1..]
  }

  lemma {:induction false} WithoutConcat(a: seq<nat>, b: seq<nat>, id: nat)
    ensures Without(a + b, id) == Without(a, id) + Without(b, id)
  {
    if a == [] {
      assert a + b == b;
    } else {
      WithoutConcat(a[1..], b, id);
      WithoutFirst(a[0], a[1..] + b, id);
      WithoutFirst(a[0], a[1..], id);
      assert [a[0]] + (a[1..] + b) == a + b && [a[0]] + a[1..] == a;
    }
  }

  lemma WithoutFirst(x: nat, rest: seq<nat>, id: nat)
    ensures Without([x] + rest, id) == (if x == id then [] else [x]) + Without(rest, id)
  {
    assert ([x] + rest)[1..] == rest;
  }

  lemma InsertedStands(rest: seq<nat>, i: nat, id: nat)
    requires i <= |rest| && id !in rest
    ensures StandsAt(InsertAt(rest, i, id), id, i) && Without(InsertAt(rest, i, id), id) == rest
  {
    var list := InsertAt(rest, i, id);
    assert list[..i] == rest[..i] && list[i + 1..] == rest[i..];
    WithoutConcat(rest[..i] + [id], rest[i..], id);
    WithoutConcat(rest[..i], [id], id);
    WithoutAbsent(rest[..i], id);
    WithoutAbsent(rest[i..], id);
    assert rest[..i] + rest[i..] == rest;
  }

  /**
   A child restacked stands just above or just below the first place its sibling is listed at, or at the very top or
   bottom where the sibling is not another child; and the others keep their order.
   */
  lemma RestackExactly(children: seq<nat>, id: nat, sibling: nat, above: bool) returns (i: nat)
    ensures var list := Restack(children, id, sibling, above);
      && StandsAt(list, id, i) && Without(list, id) == Without(children, id)
      && (if sibling == id || sibling !in children then i == if above then |list| - 1 else 0
          else if above then i > 0 && list[i - 1] == sibling && sibling !in list[..i - 1]
          else i + 1 < |list| && list[i + 1] == sibling && sibling !in list[..i])
  {
    var rest := Without(children, id);
    if sibling in rest {
      var at := IndexOf(rest, sibling);
      i := at + if above then 1 else 0;
      InsertedStands(rest, i, id);
      FirstPlace(rest, sibling);
      if above { InsertedAbove(rest, at, id); } else { InsertedBelow(rest, at, id); }
    } else {
      i := if above then |rest| else 0;
      InsertedStands(rest, i, id);
      InsertedAtEnd(rest, id);
    }
  }

  lemma FirstPlace(list: seq<nat>, x: nat)
    requires x in list
    ensures IndexOf(list, x) < |list| && list[IndexOf(list, x)] == x && x !in list[..IndexOf(list, x)]
  {}

  lemma InsertedAbove(rest: seq<nat>, at: nat, id: nat)
    requires at < |rest| && rest[at] !in rest[..at]
    ensures var list := InsertAt(rest, at + 1, id); list[at] == rest[at] && rest[at] !in list[..at]
  {
    assert InsertAt(rest, at + 1, id)[..at] == rest[..at];
  }

  lemma InsertedBelow(rest: seq<nat>, at: nat, id: nat)
    requires at < |rest| && rest[at] !in rest[..at]
    ensures var list := InsertAt(rest, at, id);
      at + 1 < |list| && list[at + 1] == rest[at] && rest[at] !in list[..at]
  {
    assert InsertAt(rest, at, id)[..at] == rest[..at];
  }

  lemma InsertedAtEnd(rest: seq<nat>, id: nat)
    ensures InsertAt(rest, |rest|, id) == rest + [id] && InsertAt(rest, 0, id) == [id] + rest
  {}

  /** `k` hangs from `p`, over the children `p` had, and no other surface has changed. */
  ghost predicate HungOnTop(m: SurfaceMap, n: SurfaceMap, k: Key, p: Key)
    requires k in m && p in m
  {
    && n.Keys == m.Keys && n[k].parent == Some(p.id) && n[k].children == m[k].children
    && n[p] == m[p].(children := m[p].children + [k.id])
    && forall x :: x in m && x != k && x != p ==> n[x] == m[x]
  }

  /** A new child goes over those its parent has: a subsurface synchronised, a popup where it is put. */
  lemma LinkedOnTop(m: SurfaceMap, k: Key, parent: nat, at: Point)
    requires k in m && Key(k.client, parent) in m && parent != k.id && OffsetInRange(at)
    ensures var n := LinkSubsurface(m, k, parent);
      && HungOnTop(m, n, k, Key(k.client, parent)) && n[k].isSubsurface && n[k].subsurfaceSync
      && n[k].subsurfacePosition == m[k].subsurfacePosition
    ensures var n := LinkPopup(m, k, parent, at);
      && HungOnTop(m, n, k, Key(k.client, parent)) && n[k].subsurfacePosition == at
      && n[k].isSubsurface == m[k].isSubsurface
  {}

  lemma ListsAfterPlace(m: SurfaceMap, k: Key, sibling: nat, above: bool)
    requires ListsSound(m)
    ensures ListsSound(Place(m, k, sibling, above))
  {
    var next := Place(m, k, sibling, above);
    forall p | p in next ensures ListSound(next, p) {
      assert ListSound(m, p);
      RestackSame(m[p].children, k.id, sibling, above);
    }
  }

  lemma ListsAfterRemoveClient(m: SurfaceMap, client: nat)
    requires ListsSound(m)
    ensures ListsSound(RemoveClient(m, client))
  {
    var next := RemoveClient(m, client);
    forall p | p in next ensures ListSound(next, p) {
      assert ListSound(m, p);
    }
  }

  /**
   When a link may be made without leaving a list stale: a live parent is only given a live
   child, and the child is not still listed by the parent it has.
   */
  predicate LinkFits(m: SurfaceMap, k: Key, parent: nat) {
    && (Key(k.client, parent) in m ==> k in m)
    && (k in m && m[k].parent.Some? && Key(k.client, m[k].parent.value) in m
        ==> k.id !in m[Key(k.client, m[k].parent.value)].children)
  }

  /** What linking `k` under `parent` does to parents and lists, whichever request did it. */
  ghost predicate Linked(m: SurfaceMap, next: SurfaceMap, k: Key, parent: nat) {
    && next.Keys == m.Keys
    && forall x :: x in m ==>
         && next[x].parent == (if x == k then Some(parent) else m[x].parent)
         && next[x].children == (if x == Key(k.client, parent) then m[x].children + [k.id] else m[x].children)
  }

  lemma LinkFitsEnough(m: SurfaceMap, next: SurfaceMap, k: Key, parent: nat)
    requires ListsSound(m) && Linked(m, next, k, parent) && LinkFits(m, k, parent)
    ensures ListsSound(next)
  {
    forall x | x in next ensures ListSound(next, x) {
      assert ListSound(m, x);
      forall id | id in next[x].children
        ensures Key(x.client, id) in next && next[Key(x.client, id)].parent == Some(x.id) {}
    }
  }

  lemma LinkFitsNeeded(m: SurfaceMap, next: SurfaceMap, k: Key, parent: nat)
    requires ListsSound(m) && Linked(m, next, k, parent) && !LinkFits(m, k, parent)
    ensures !ListsSound(next)
  {
    var p := Key(k.client, parent);
    if p in m && k !in m {
      assert next[p].children[|m[p].children|] == k.id;
      assert !ListSound(next, p);
    } else {
      var q := Key(k.client, m[k].parent.value);
      var i :| 0 <= i < |m[q].children| && m[q].children[i] == k.id;
      assert next[q].children[i] == k.id;
      if q == p {
        assert next[q].children[|m[q].children|] == k.id;
      }
      assert !ListSound(next, q);
    }
  }

  /** Neither request checks this, and the lists stay sound exactly when it holds. */
  lemma ListsAfterLink(m: SurfaceMap, k: Key, parent: nat, at: Point)
    requires ListsSound(m)
    ensures ListsSound(LinkSubsurface(m, k, parent)) <==> LinkFits(m, k, parent)
    ensures ListsSound(LinkPopup(m, k, parent, at)) <==> LinkFits(m, k, parent)
  {
    var sub, pop := LinkSubsurface(m, k, parent), LinkPopup(m, k, parent, at);
    assert Linked(m, sub, k, parent) && Linked(m, pop, k, parent);
    if LinkFits(m, k, parent) {
      LinkFitsEnough(m, sub, k, parent);
      LinkFitsEnough(m, pop, k, parent);
    } else {
      LinkFitsNeeded(m, sub, k, parent);
      LinkFitsNeeded(m, pop, k, parent);
    }
  }

  // ----- The walks -----

  /** `is_ancestor` with `fuel` checks left; `spent` is its answer when they run out. */
  function AncestorWalk(m: SurfaceMap, client: nat, surface: nat, current: nat, fuel: nat, spent: bool): bool
    decreases fuel
  {
    if fuel == 0 then spent
    else if current == surface then true
    else var key := Key(client, current);
      if key !in m || m[key].parent.None? then false
      else AncestorWalk(m, client, surface, m[key].parent.value, fuel - 1, spent)
  }

  function IsAncestorOf(m: SurfaceMap, client: nat, surface: nat, candidate: nat): bool {
    AncestorWalk(m, client, surface, candidate, |m| + 1, true)
  }

  method IsAncestor(m: SurfaceMap, client: nat, surface: nat, candidate: nat) returns (yes: bool)
    ensures yes == IsAncestorOf(m, client, surface, candidate)
  {
    var current := candidate;
    for i := 0 to |m| + 1
      invariant AncestorWalk(m, client, surface, current, |m| + 1 - i, true)
        == IsAncestorOf(m, client, surface, candidate)
    {
      if current == surface { return true; }
      var key := Key(client, current);
      if key !in m || m[key].parent.None? { return false; }
      current := m[key].parent.value;
    }
    return true;
  }

  /**
   On a rooted map the walk is exact, and its fuel never decides: the answer is the same
   whatever running out would have answered.
   */
  lemma {:induction false} AncestorWalkExact(m: SurfaceMap, client: nat, surface: nat, current: nat, fuel: nat,
                                             spent: bool)
    requires Rooted(m)
    requires fuel > Depth(ParentsOf(m), Key(client, current))
    ensures AncestorWalk(m, client, surface, current, fuel, spent)
         == Above(ParentsOf(m), Key(client, surface), Key(client, current))
    decreases fuel
  {
    var key := Key(client, current);
    if current != surface && key in m && m[key].parent.Some? {
      DepthStep(ParentsOf(m), key);
      AncestorWalkExact(m, client, surface, m[key].parent.value, fuel - 1, spent);
    }
  }

  lemma IsAncestorExact(m: SurfaceMap, client: nat, surface: nat, candidate: nat)
    requires Rooted(m)
    ensures IsAncestorOf(m, client, surface, candidate)
         == Above(ParentsOf(m), Key(client, surface), Key(client, candidate))
    ensures AncestorWalk(m, client, surface, candidate, |m| + 1, false)
         == IsAncestorOf(m, client, surface, candidate)
  {
    LinksFewer(m);
    AncestorWalkExact(m, client, surface, candidate, |m| + 1, true);
    AncestorWalkExact(m, client, surface, candidate, |m| + 1, false);
  }

  lemma LinksFewer(m: SurfaceMap)
    ensures |ParentsOf(m)| <= |m|
  {
    assert ParentsOf(m).Keys <= m.Keys;
    SubsetSize(ParentsOf(m).Keys, m.Keys);
  }

  /** `root_of`, which counts its steps. */
  method RootOf(m: SurfaceMap, k: Key) returns (root: Key)
    requires Rooted(m)
    ensures root == Root(ParentsOf(m), k)
  {
    ghost var par := ParentsOf(m);
    LinksFewer(m);
    var current := k;
    var i := 0;
    while i < |m| && current in m && m[current].parent.Some?
      invariant i <= |m|
      invariant current.client == k.client
      invariant Depth(par, current) + i == Depth(par, k)
      invariant Root(par, current) == Root(par, k)
    {
      DepthStep(par, current);
      current := Key(k.client, m[current].parent.value);
      i := i + 1;
    }
    return current;
  }

  /** `root_surface`, which counts nothing and stops because the map is rooted. */
  method RootSurface(m: SurfaceMap, k: Key) returns (root: Key)
    requires Rooted(m)
    ensures root == Root(ParentsOf(m), k)
  {
    ghost var par := ParentsOf(m);
    var current := k;
    while current in m && m[current].parent.Some?
      invariant current.client == k.client
      invariant Root(par, current) == Root(par, k)
      decreases Depth(par, current)
    {
      DepthStep(par, current);
      current := Key(k.client, m[current].parent.value);
    }
    return current;
  }

  /**
   Where a surface sits: offsets summed up the chain, and the root's own position at the top.
   A chain that reaches a surface no longer there contributes what was met on the way.
   */
  ghost function GlobalPosition(m: SurfaceMap, k: Key, below: Point): Point
    requires Rooted(m)
    decreases Depth(ParentsOf(m), k)
  {
    if k !in m then below else
      var here := SatMove(below, m[k].subsurfacePosition);
      if m[k].parent.None? then SatMove(here, m[k].position)
      else (DepthStep(ParentsOf(m), k); GlobalPosition(m, Key(k.client, m[k].parent.value), here))
  }

  /** `global_position_of`, which counts its steps. */
  method GlobalPositionOf(m: SurfaceMap, k: Key) returns (at: Point)
    requires Rooted(m)
    ensures at == GlobalPosition(m, k, Point(0, 0))
  {
    ghost var par := ParentsOf(m);
    LinksFewer(m);
    var current := k;
    at := Point(0, 0);
    var i := 0;
    while i <= |m| && current in m
      invariant i <= |m| + 1
      invariant current.client == k.client
      invariant Depth(par, current) + i == Depth(par, k)
      invariant GlobalPosition(m, current, at) == GlobalPosition(m, k, Point(0, 0))
    {
      at := SatMove(at, m[current].subsurfacePosition);
      if m[current].parent.None? {
        at := SatMove(at, m[current].position);
        return;
      }
      DepthStep(par, current);
      current := Key(k.client, m[current].parent.value);
      i := i + 1;
    }
  }

  /** `surface_global_position`, which counts nothing. */
  method SurfaceGlobalPosition(m: SurfaceMap, k: Key) returns (at: Point)
    requires Rooted(m)
    ensures at == GlobalPosition(m, k, Point(0, 0))
  {
    ghost var par := ParentsOf(m);
    var current := k;
    at := Point(0, 0);
    while current in m
      invariant current.client == k.client
      invariant GlobalPosition(m, current, at) == GlobalPosition(m, k, Point(0, 0))
      decreases Depth(par, current), current in m
    {
      at := SatMove(at, m[current].subsurfacePosition);
      if m[current].parent.None? {
        at := SatMove(at, m[current].position);
        return;
      }
      DepthStep(par, current);
      current := Key(k.client, m[current].parent.value);
    }
  }
}
