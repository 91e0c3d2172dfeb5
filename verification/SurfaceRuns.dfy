/** What holds after any run of the surface machine. */
module SurfaceRuns {
  import opened Base
  import opened Links
  import opened Descent
  import opened Surfaces
  import opened Forest
  import opened Cascade
  import opened Sweep
  import opened SurfaceMachine

  // ----- The invariant -----

  predicate Names(s: State, k: Key, kind: ObjectKind) { k in s.objects && s.objects[k] == kind }

  /** Every table's entry is named by an object of the matching kind. */
  ghost predicate ObjectsMatch(s: State) {
    && s.readers <= s.buffers
    && forall k ::
         && (k in s.surfaces ==> Names(s, k, SurfaceObject))
         && (k in s.subsurfaces ==> Names(s, k, SubsurfaceObject))
         && (k in s.xdgSurfaces ==> Names(s, k, XdgSurfaceObject))
         && (k in s.popups ==> Names(s, k, PopupObject))
         && (k in s.layers ==> Names(s, k, LayerObject))
         && (k in s.buffers ==> Names(s, k, BufferObject))
  }

  /** Callbacks asked for and not yet answered, wherever they wait. */
  function Outstanding(surface: Surface): seq<nat> {
    surface.callbacks + Cached(surface).callbacks + surface.pending.callbacks
  }

  /** Nothing asked for is lost or invented. */
  ghost predicate Conserved(surface: Surface) {
    multiset(surface.asked) == multiset(surface.answered) + multiset(Outstanding(surface)) + multiset(surface.dropped)
  }

  /** Every outstanding id waits once, and still names the callback it was asked as. */
  ghost predicate Owned(objects: map<Key, ObjectKind>, k: Key, surface: Surface) {
    forall id :: id in multiset(Outstanding(surface)) ==>
      && multiset(Outstanding(surface))[id] == 1
      && Key(k.client, id) in objects
      && objects[Key(k.client, id)] == CallbackObject(k)
  }

  ghost predicate CallbacksHeld(s: State) {
    forall k :: k in s.surfaces ==> Conserved(s.surfaces[k]) && Owned(s.objects, k, s.surfaces[k])
  }

  /** The last displacement or release of an id. */
  function LastEvent(log: seq<BufferEvent>, b: Key): Option<BufferEvent> {
    if log == [] then None
    else if log[|log| - 1].buffer == b && !log[|log| - 1].Made? then Some(log[|log| - 1])
    else LastEvent(log[..|log| - 1], b)
  }

  /** The last thing to happen to a buffer before each of its releases was a commit displacing it. */
  ghost predicate ReleasesEarned(log: seq<BufferEvent>) {
    forall i :: 0 <= i < |log| && log[i].Released? ==>
      LastEvent(log[..i], log[i].buffer) == Some(Replaced(log[i].buffer))
  }

  ghost predicate Queued(s: State, b: Key) { b in s.pendingRelease || b in s.releasing }

  ghost predicate QueuesEarned(s: State) {
    forall b :: Queued(s, b) ==> LastEvent(s.log, b) == Some(Replaced(b))
  }

  ghost predicate Inv(s: State) {
    && Rooted(s.surfaces)
    && ObjectsMatch(s)
    && CallbacksHeld(s)
    && ReleasesEarned(s.log)
    && QueuesEarned(s)
  }

  // ----- Steps that leave callbacks and queues alone -----

  ghost predicate SameCallbacks(a: Surface, b: Surface) {
    && a.asked == b.asked && a.answered == b.answered && a.dropped == b.dropped
    && a.callbacks == b.callbacks && a.cached == b.cached && a.pending.callbacks == b.pending.callbacks
  }

  ghost predicate KeepsCallbackObjects(s: State, t: State) {
    forall k :: k in s.objects && s.objects[k].CallbackObject? ==> k in t.objects && t.objects[k] == s.objects[k]
  }

  ghost predicate Quiet(s: State, t: State) {
    && (forall k :: k in t.surfaces ==>
          (k in s.surfaces && SameCallbacks(s.surfaces[k], t.surfaces[k])) || t.surfaces[k] == NEW_SURFACE)
    && KeepsCallbackObjects(s, t)
    && t.log == s.log
    && (forall b :: Queued(t, b) ==> Queued(s, b))
  }

  lemma QuietKeepsInv(s: State, t: State)
    requires Inv(s) && Quiet(s, t) && Rooted(t.surfaces) && ObjectsMatch(t)
    ensures Inv(t)
  {
    forall k | k in t.surfaces
      ensures Conserved(t.surfaces[k]) && Owned(t.objects, k, t.surfaces[k])
    {
      if k in s.surfaces && SameCallbacks(s.surfaces[k], t.surfaces[k]) {
        assert Owned(s.objects, k, s.surfaces[k]);
      }
    }
  }

  lemma LinkStaysRooted(m: SurfaceMap, next: SurfaceMap, k: Key, parent: nat)
    requires Rooted(m) && !IsAncestorOf(m, k.client, k.id, parent)
    requires ParentsOf(next) == if k in m then ParentsOf(m)[k := Key(k.client, parent)] else ParentsOf(m)
    ensures Rooted(next)
  {
    IsAncestorExact(m, k.client, k.id, parent);
    if k in m { LinkKeepsAcyclic(ParentsOf(m), k, Key(k.client, parent)); }
  }

  lemma FewerLinksRooted(m: SurfaceMap, next: SurfaceMap)
    requires Rooted(m)
    requires forall k :: k in ParentsOf(next) ==> k in ParentsOf(m) && ParentsOf(next)[k] == ParentsOf(m)[k]
    ensures Rooted(next)
  {
    UnlinkKeepsAcyclic(ParentsOf(m), ParentsOf(next));
  }

  /** What most steps need to know and to show; the rest of the invariant follows from quietness. */
  ghost predicate Shape(s: State) { Rooted(s.surfaces) && ObjectsMatch(s) }

  ghost predicate QuietStep(s: State, t: State) { Quiet(s, t) && Shape(t) }

  /** Links and lists may change; nothing a callback lives in does. */
  ghost predicate OnlyLinksDiffer(m: SurfaceMap, next: SurfaceMap) {
    forall k :: k in next ==> k in m && SameCallbacks(m[k], next[k])
  }

  lemma CreateSurfaceQuiet(s: State, k: Key)
    requires Shape(s)
    ensures QuietStep(s, CreateSurfaceStep(s, k))
  {
    if CanRegister(s, k) {
      LinksAfterCreate(s.surfaces, k);
    }
  }

  lemma DestroySurfaceQuiet(s: State, k: Key)
    requires Shape(s)
    ensures QuietStep(s, DestroySurfaceStep(s, k))
  {
    if k in s.surfaces {
      LinksAfterDestroy(s.surfaces, k);
      FewerLinksRooted(s.surfaces, Destroy(s.surfaces, k));
      assert OnlyLinksDiffer(s.surfaces, Destroy(s.surfaces, k));
    }
  }

  /** Two surface maps with the same surfaces in them, differing only in how those hang together. */
  ghost predicate Rehung(m: SurfaceMap, next: SurfaceMap) {
    next.Keys == m.Keys && OnlyLinksDiffer(m, next)
  }

  lemma SelfRehung(m: SurfaceMap)
    ensures Rehung(m, m)
  {}

  lemma LinksRehang(m: SurfaceMap, k: Key, parent: nat, at: Point)
    ensures Rehung(m, LinkSubsurface(m, k, parent)) && Rehung(m, LinkPopup(m, k, parent, at))
  {}

  lemma UnlinksRehang(m: SurfaceMap, k: Key)
    ensures Rehung(m, UnlinkSubsurface(m, k))
    ensures Rehung(m, UnlinkPopup(m, k))
  {
    UnlinkSubsurfaceRehangs(m, k);
  }

  lemma UnlinkSubsurfaceRehangs(m: SurfaceMap, k: Key)
    ensures Rehung(m, UnlinkSubsurface(m, k))
  {}

  lemma PlaceRehangs(m: SurfaceMap, k: Key, sibling: nat, above: bool)
    ensures Rehung(m, Place(m, k, sibling, above))
  {}

  /** A step that only rehangs surfaces and touches objects that are not callbacks. */
  lemma RehangQuiet(s: State, t: State)
    requires Shape(s) && Rehung(s.surfaces, t.surfaces) && Rooted(t.surfaces) && ObjectsMatch(t)
    requires KeepsCallbackObjects(s, t)
    requires t.log == s.log && t.pendingRelease == s.pendingRelease && t.releasing == s.releasing
    ensures QuietStep(s, t)
  {}

  ghost predicate Objects(s: State, t: State) { ObjectsMatch(t) && KeepsCallbackObjects(s, t) }

  lemma GetSubsurfaceObjects(s: State, k: Key, surface: nat, parent: nat, otherRole: bool)
    requires ObjectsMatch(s)
    requires GetSubsurfaceStep(s, k, surface, parent, otherRole).surfaces.Keys == s.surfaces.Keys
    ensures Objects(s, GetSubsurfaceStep(s, k, surface, parent, otherRole))
  {
    var t := GetSubsurfaceStep(s, k, surface, parent, otherRole);
    if t != s {
      NewSubsurfaceObjects(s, k, surface);
      ResurfacedObjects(Register(s, k, SubsurfaceObject).(subsurfaces := s.subsurfaces[k := surface]), t.surfaces);
    }
  }

  lemma NewSubsurfaceObjects(s: State, k: Key, surface: nat)
    requires ObjectsMatch(s) && CanRegister(s, k)
    ensures Objects(s, Register(s, k, SubsurfaceObject).(subsurfaces := s.subsurfaces[k := surface]))
  {}

  lemma GetXdgSurfaceObjects(s: State, k: Key, surface: nat, refused: bool)
    requires ObjectsMatch(s)
    ensures Objects(s, GetXdgSurfaceStep(s, k, surface, refused))
  {}

  lemma DestroyXdgSurfaceObjects(s: State, k: Key)
    requires ObjectsMatch(s)
    ensures Objects(s, DestroyXdgSurfaceStep(s, k))
  {}

  lemma GetLayerSurfaceObjects(s: State, k: Key, surface: nat, refused: bool)
    requires ObjectsMatch(s)
    ensures Objects(s, GetLayerSurfaceStep(s, k, surface, refused))
  {}

  lemma DestroyLayerSurfaceObjects(s: State, k: Key)
    requires ObjectsMatch(s)
    ensures Objects(s, DestroyLayerSurfaceStep(s, k))
  {}

  lemma ResurfacedObjects(s: State, m: SurfaceMap)
    requires ObjectsMatch(s) && m.Keys == s.surfaces.Keys
    ensures Objects(s, s.(surfaces := m))
  {}

  lemma NewPopupObjects(s: State, k: Key, xdg: nat)
    requires ObjectsMatch(s) && CanRegister(s, k)
    ensures Objects(s, Register(s, k, PopupObject).(popups := s.popups[k := xdg]))
  {}

  lemma DropPopupObjects(s: State, k: Key)
    requires ObjectsMatch(s) && k in s.popups
    ensures Objects(s, Unregister(s, k).(popups := s.popups - {k}))
  {}

  lemma GetPopupObjects(s: State, k: Key, xdg: nat, parentXdg: nat, at: Point)
    requires ObjectsMatch(s)
    requires GetPopupStep(s, k, xdg, parentXdg, at).surfaces.Keys == s.surfaces.Keys
    ensures Objects(s, GetPopupStep(s, k, xdg, parentXdg, at))
  {
    var t := GetPopupStep(s, k, xdg, parentXdg, at);
    if t != s {
      NewPopupObjects(s, k, xdg);
      ResurfacedObjects(Register(s, k, PopupObject).(popups := s.popups[k := xdg]), t.surfaces);
    }
  }

  lemma DestroyPopupObjects(s: State, k: Key)
    requires ObjectsMatch(s)
    requires DestroyPopupStep(s, k).surfaces.Keys == s.surfaces.Keys
    ensures Objects(s, DestroyPopupStep(s, k))
  {
    if k in s.popups {
      var unlinked := s.(surfaces := DestroyPopupStep(s, k).surfaces);
      ResurfacedObjects(s, unlinked.surfaces);
      DropPopupObjects(unlinked, k);
    }
  }

  lemma GetSubsurfaceRooted(s: State, k: Key, surface: nat, parent: nat, otherRole: bool)
    requires Rooted(s.surfaces)
    ensures Rooted(GetSubsurfaceStep(s, k, surface, parent, otherRole).surfaces)
  {
    var t := GetSubsurfaceStep(s, k, surface, parent, otherRole);
    if t != s {
      LinksAfterLink(s.surfaces, Key(k.client, surface), parent, Point(0, 0));
      LinkStaysRooted(s.surfaces, t.surfaces, Key(k.client, surface), parent);
    }
  }

  lemma GetSubsurfaceRehangs(s: State, k: Key, surface: nat, parent: nat, otherRole: bool)
    ensures Rehung(s.surfaces, GetSubsurfaceStep(s, k, surface, parent, otherRole).surfaces)
  {
    LinksRehang(s.surfaces, Key(k.client, surface), parent, Point(0, 0));
    SelfRehung(s.surfaces);
  }

  lemma GetSubsurfaceQuiet(s: State, k: Key, surface: nat, parent: nat, otherRole: bool)
    requires Shape(s)
    ensures QuietStep(s, GetSubsurfaceStep(s, k, surface, parent, otherRole))
  {
    var t := GetSubsurfaceStep(s, k, surface, parent, otherRole);
    GetSubsurfaceRehangs(s, k, surface, parent, otherRole);
    GetSubsurfaceObjects(s, k, surface, parent, otherRole);
    GetSubsurfaceRooted(s, k, surface, parent, otherRole);
    RehangQuiet(s, t);
  }

  lemma PlaceQuiet(s: State, k: Key, sibling: nat, above: bool)
    requires Shape(s)
    ensures QuietStep(s, PlaceStep(s, k, sibling, above))
  {
    if k in s.subsurfaces {
      var surface := Key(k.client, s.subsurfaces[k]);
      PlaceRehangs(s.surfaces, surface, sibling, above);
      LinksAfterPlace(s.surfaces, surface, sibling, above);
    } else {
      SelfRehung(s.surfaces);
    }
    RehangQuiet(s, PlaceStep(s, k, sibling, above));
  }

  lemma EditRehangs(m: SurfaceMap, k: Key, a: Surface)
    requires k in m && SameCallbacks(m[k], a) && a.parent == m[k].parent
    ensures Rehung(m, m[k := a]) && ParentsOf(m[k := a]) == ParentsOf(m)
  {}

  lemma PositionRehangs(s: State, k: Key, at: Point)
    ensures Rehung(s.surfaces, PositionStep(s, k, at).surfaces)
    ensures ParentsOf(PositionStep(s, k, at).surfaces) == ParentsOf(s.surfaces)
  {
    SelfRehung(s.surfaces);
    if k in s.subsurfaces && Key(k.client, s.subsurfaces[k]) in s.surfaces {
      var surface := Key(k.client, s.subsurfaces[k]);
      EditRehangs(s.surfaces, surface, s.surfaces[surface].(subsurfacePosition := ClampOffset(at)));
    }
  }

  lemma PositionQuiet(s: State, k: Key, at: Point)
    requires Shape(s)
    ensures QuietStep(s, PositionStep(s, k, at))
  {
    var t := PositionStep(s, k, at);
    PositionRehangs(s, k, at);
    RehangQuiet(s, t);
  }

  lemma XdgSurfaceQuiet(s: State, k: Key, surface: nat, refused: bool)
    requires Shape(s)
    ensures QuietStep(s, GetXdgSurfaceStep(s, k, surface, refused)) && QuietStep(s, DestroyXdgSurfaceStep(s, k))
  {
    SelfRehung(s.surfaces);
    GetXdgSurfaceObjects(s, k, surface, refused);
    RehangQuiet(s, GetXdgSurfaceStep(s, k, surface, refused));
    DestroyXdgSurfaceObjects(s, k);
    RehangQuiet(s, DestroyXdgSurfaceStep(s, k));
  }

  lemma LayerSurfaceQuiet(s: State, k: Key, surface: nat, refused: bool)
    requires Shape(s)
    ensures QuietStep(s, GetLayerSurfaceStep(s, k, surface, refused)) && QuietStep(s, DestroyLayerSurfaceStep(s, k))
  {
    SelfRehung(s.surfaces);
    GetLayerSurfaceObjects(s, k, surface, refused);
    DestroyLayerSurfaceObjects(s, k);
  }

  lemma GetPopupRehangs(s: State, k: Key, xdg: nat, parentXdg: nat, at: Point)
    ensures Rehung(s.surfaces, GetPopupStep(s, k, xdg, parentXdg, at).surfaces)
  {
    var own, above := Key(k.client, xdg), Key(k.client, parentXdg);
    SelfRehung(s.surfaces);
    if own in s.xdgSurfaces && above in s.xdgSurfaces {
      LinksRehang(s.surfaces, Key(k.client, s.xdgSurfaces[own]), s.xdgSurfaces[above], at);
    }
  }

  lemma GetPopupRooted(s: State, k: Key, xdg: nat, parentXdg: nat, at: Point)
    requires Shape(s)
    ensures Rooted(GetPopupStep(s, k, xdg, parentXdg, at).surfaces)
  {
    var own, above := Key(k.client, xdg), Key(k.client, parentXdg);
    var next := GetPopupStep(s, k, xdg, parentXdg, at).surfaces;
    if next != s.surfaces {
      var popup := Key(k.client, s.xdgSurfaces[own]);
      LinksAfterLink(s.surfaces, popup, s.xdgSurfaces[above], at);
      LinkStaysRooted(s.surfaces, next, popup, s.xdgSurfaces[above]);
    }
  }

  lemma GetPopupAside(s: State, k: Key, xdg: nat, parentXdg: nat, at: Point)
    ensures var t := GetPopupStep(s, k, xdg, parentXdg, at);
      t == s.(surfaces := t.surfaces, objects := t.objects, popups := t.popups)
  {}

  lemma GetPopupQuiet(s: State, k: Key, xdg: nat, parentXdg: nat, at: Point)
    requires Shape(s)
    ensures QuietStep(s, GetPopupStep(s, k, xdg, parentXdg, at))
  {
    GetPopupRehangs(s, k, xdg, parentXdg, at);
    GetPopupObjects(s, k, xdg, parentXdg, at);
    GetPopupRooted(s, k, xdg, parentXdg, at);
    GetPopupAside(s, k, xdg, parentXdg, at);
    RehangQuiet(s, GetPopupStep(s, k, xdg, parentXdg, at));
  }

  lemma DestroyPopupRehangs(s: State, k: Key)
    ensures Rehung(s.surfaces, DestroyPopupStep(s, k).surfaces)
  {
    SelfRehung(s.surfaces);
    if k in s.popups && PopupSurface(s, k).Some? {
      UnlinksRehang(s.surfaces, PopupSurface(s, k).value);
    }
  }

  lemma DestroyPopupRooted(s: State, k: Key)
    requires Rooted(s.surfaces)
    ensures Rooted(DestroyPopupStep(s, k).surfaces)
  {
    if k in s.popups && PopupSurface(s, k).Some? {
      LinksAfterUnlink(s.surfaces, PopupSurface(s, k).value);
      FewerLinksRooted(s.surfaces, DestroyPopupStep(s, k).surfaces);
    }
  }

  lemma DestroyPopupQuiet(s: State, k: Key)
    requires Shape(s)
    ensures QuietStep(s, DestroyPopupStep(s, k))
  {
    DestroyPopupRehangs(s, k);
    DestroyPopupObjects(s, k);
    DestroyPopupRooted(s, k);
    RehangQuiet(s, DestroyPopupStep(s, k));
  }

  lemma AdoptPopupQuiet(s: State, layer: Key, popup: nat, at: Point)
    requires Shape(s)
    ensures QuietStep(s, AdoptPopupStep(s, layer, popup, at))
  {
    var t := AdoptPopupStep(s, layer, popup, at);
    if t != s {
      var surface := PopupSurface(s, Key(layer.client, popup)).value;
      LinksRehang(s.surfaces, surface, s.layers[layer], at);
      LinksAfterLink(s.surfaces, surface, s.layers[layer], at);
      LinkStaysRooted(s.surfaces, t.surfaces, surface, s.layers[layer]);
    } else {
      SelfRehung(s.surfaces);
    }
    RehangQuiet(s, t);
  }

  lemma ReadersQuiet(s: State, readers: set<Key>)
    requires Shape(s) && readers <= s.buffers
    ensures QuietStep(s, s.(readers := readers))
  {
    SelfRehung(s.surfaces);
    RehangQuiet(s, s.(readers := readers));
  }

  lemma ShowRehangs(s: State, k: Key, outputs: set<nat>)
    ensures Rehung(s.surfaces, ShowStep(s, k, outputs).surfaces)
    ensures ParentsOf(ShowStep(s, k, outputs).surfaces) == ParentsOf(s.surfaces)
  {
    SelfRehung(s.surfaces);
    if k in s.surfaces { EditRehangs(s.surfaces, k, s.surfaces[k].(visibleOn := outputs)); }
  }

  lemma ShowQuiet(s: State, k: Key, outputs: set<nat>)
    requires Shape(s)
    ensures QuietStep(s, ShowStep(s, k, outputs))
  {
    ShowRehangs(s, k, outputs);
    RehangQuiet(s, ShowStep(s, k, outputs));
  }

  lemma AttachRehangs(s: State, k: Key, buffer: nat, d: Point)
    ensures Rehung(s.surfaces, AttachStep(s, k, buffer, d).surfaces)
    ensures ParentsOf(AttachStep(s, k, buffer, d).surfaces) == ParentsOf(s.surfaces)
  {
    SelfRehung(s.surfaces);
    if k in s.surfaces { EditRehangs(s.surfaces, k, AttachStep(s, k, buffer, d).surfaces[k]); }
  }

  lemma AttachQuiet(s: State, k: Key, buffer: nat, d: Point)
    requires Shape(s)
    ensures QuietStep(s, AttachStep(s, k, buffer, d))
  {
    AttachRehangs(s, k, buffer, d);
    RehangQuiet(s, AttachStep(s, k, buffer, d));
  }

  lemma CreateBufferObjects(s: State, k: Key)
    requires ObjectsMatch(s)
    ensures Objects(s, CreateBufferStep(s, k))
  {}

  lemma MoreObjectsHold(s: State, t: State)
    requires CallbacksHeld(s) && t.surfaces == s.surfaces && KeepsCallbackObjects(s, t)
    ensures CallbacksHeld(t)
  {
    forall x | x in t.surfaces ensures Conserved(t.surfaces[x]) && Owned(t.objects, x, t.surfaces[x]) {
      assert Owned(s.objects, x, s.surfaces[x]);
    }
  }

  lemma DestroyBufferObjects(s: State, k: Key)
    requires ObjectsMatch(s)
    ensures Objects(s, DestroyBufferStep(s, k))
  {}

  lemma DestroyBufferQuiet(s: State, k: Key)
    requires Shape(s)
    ensures QuietStep(s, DestroyBufferStep(s, k))
  {
    DestroyBufferObjects(s, k);
    assert DestroyBufferStep(s, k).surfaces == s.surfaces;
  }

  // ----- Frame callbacks -----

  lemma FrameKeepsCallbacks(s: State, k: Key, callback: nat)
    requires ObjectsMatch(s) && CallbacksHeld(s)
    ensures CallbacksHeld(FrameStep(s, k, callback))
  {
    var t := FrameStep(s, k, callback);
    var id := Key(k.client, callback);
    if k in s.surfaces && CanRegister(s, id) {
      forall x | x in t.surfaces
        ensures Conserved(t.surfaces[x]) && Owned(t.objects, x, t.surfaces[x])
      {
        assert Owned(s.objects, x, s.surfaces[x]);
        if x == k { FrameAdds(s, k, callback); }
      }
    }
  }

  function Asking(a: Surface, callback: nat): Surface {
    a.(pending := a.pending.(callbacks := a.pending.callbacks + [callback]), asked := a.asked + [callback])
  }

  lemma AskingAppends(a: Surface, callback: nat)
    ensures Outstanding(Asking(a, callback)) == Outstanding(a) + [callback]
  {}

  lemma AskingOwned(objects: map<Key, ObjectKind>, k: Key, a: Surface, callback: nat)
    requires Key(k.client, callback) !in objects && Owned(objects, k, a)
    ensures Owned(objects[Key(k.client, callback) := CallbackObject(k)], k, Asking(a, callback))
  {
    AskingAppends(a, callback);
    var before := multiset(Outstanding(a));
    assert callback !in before;
    assert multiset(Outstanding(Asking(a, callback))) == before + multiset{callback};
  }

  lemma FrameAdds(s: State, k: Key, callback: nat)
    requires k in s.surfaces && CanRegister(s, Key(k.client, callback))
    requires Conserved(s.surfaces[k]) && Owned(s.objects, k, s.surfaces[k])
    ensures var t := FrameStep(s, k, callback); Conserved(t.surfaces[k]) && Owned(t.objects, k, t.surfaces[k])
  {
    AskingAppends(s.surfaces[k], callback);
    AskingOwned(s.objects, k, s.surfaces[k], callback);
    assert FrameStep(s, k, callback).surfaces[k] == Asking(s.surfaces[k], callback);
  }

  /** A surface's callbacks after one step: as before, but for some put back into its hands. */
  ghost predicate Carried(a: Surface, b: Surface, extra: seq<nat>) {
    && b.asked == a.asked && b.answered == a.answered && b.dropped == a.dropped
    && multiset(Outstanding(b)) == multiset(Outstanding(a)) + multiset(extra)
  }

  lemma ApplyCarries(a: Surface, p: Pending)
    ensures Carried(a, Apply(a, p), p.callbacks)
  {
    assert Outstanding(Apply(a, p)) == a.callbacks + p.callbacks + Cached(a).callbacks + a.pending.callbacks;
  }

  lemma TakenCarries(a: Surface)
    ensures Carried(a.(cached := None), a, Cached(a).callbacks)
    ensures Carried(a, Apply(a.(cached := None), Cached(a)), [])
  {
    ApplyCarries(a.(cached := None), Cached(a));
    assert Outstanding(a) == a.callbacks + Cached(a).callbacks + a.pending.callbacks;
    assert Outstanding(a.(cached := None)) == a.callbacks + a.pending.callbacks;
  }

  /** The callbacks travelling on the queue towards a surface. */
  function InFlight(queue: seq<Entry>, k: Key): seq<nat> {
    if queue == [] then []
    else (if queue[0].0 == k then queue[0].1.callbacks else []) + InFlight(queue[1..], k)
  }

  lemma {:induction false} InFlightJoin(a: seq<Entry>, b: seq<Entry>, k: Key)
    ensures InFlight(a + b, k) == InFlight(a, k) + InFlight(b, k)
  {
    if a == [] {
      assert a + b == b;
    } else {
      assert (a + b)[1..] == a[1..] + b;
      InFlightJoin(a[1..], b, k);
    }
  }

  /** What is queued for the last of some children. */
  function LastTaking(m: SurfaceMap, front: seq<Key>, last: Key): Entry {
    (last, if last in m && last !in front then Cached(m[last]) else NOTHING_PENDING)
  }

  lemma TakingsSnoc(m: SurfaceMap, front: seq<Key>, last: Key)
    ensures Takings(m, front + [last]) == Takings(m, front) + [LastTaking(m, front, last)]
  {
    assert (front + [last])[..|front|] == front;
  }

  lemma InFlightSnoc(queue: seq<Entry>, e: Entry, k: Key)
    ensures InFlight(queue + [e], k) == InFlight(queue, k) + if e.0 == k then e.1.callbacks else []
  {
    InFlightJoin(queue, [e], k);
    assert InFlight([e], k) == if e.0 == k then e.1.callbacks else [];
  }

  /** A child's cached callbacks are queued once, however often the child is listed. */
  lemma {:induction false} TakingsInFlight(m: SurfaceMap, kids: seq<Key>, k: Key)
    requires k in m
    ensures InFlight(Takings(m, kids), k) == if k in kids then Cached(m[k]).callbacks else []
  {
    if kids != [] {
      var front, last := kids[..|kids| - 1], kids[|kids| - 1];
      assert kids == front + [last];
      TakingsInFlight(m, front, k);
      TakingsSnoc(m, front, last);
      InFlightSnoc(Takings(m, front), LastTaking(m, front, last), k);
    }
  }

  lemma AppliedCarries(m: SurfaceMap, e: Entry, k: Key)
    requires k in m
    ensures Carried(m[k], Applied(m, e)[k], if e.0 == k then e.1.callbacks else [])
  {
    if e.0 == k { ApplyCarries(m[k], e.1); }
  }

  lemma EmptiedCarries(m: SurfaceMap, kids: seq<Key>, k: Key)
    requires k in m
    ensures Carried(Emptied(m, kids)[k], m[k], InFlight(Takings(m, kids), k))
  {
    TakingsInFlight(m, kids, k);
    TakenCarries(m[k]);
  }

  /** On to the queue and off it again. */
  lemma CarriedRound(a: Surface, applied: Surface, emptied: Surface, b: Surface,
                     first: seq<nat>, rest: seq<nat>, taken: seq<nat>)
    requires Carried(a, applied, first) && Carried(emptied, applied, taken) && Carried(emptied, b, rest + taken)
    ensures Carried(a, b, first + rest)
  {
    assert multiset(Outstanding(b)) == multiset(Outstanding(emptied)) + multiset(taken) + multiset(rest);
    assert multiset(Outstanding(b)) == multiset(Outstanding(a)) + multiset(first) + multiset(rest);
  }

  /** A turn moves callbacks between a surface and the queue and loses none. */
  lemma TurnCarries(g: Graph, w: Swept, queue: seq<Entry>, k: Key, b: Surface)
    requires queue != [] && k in w.surfaces
    requires Carried(Turn(g, w, queue[0]).surfaces[k], b, InFlight(NextQueue(g, w.surfaces, queue), k))
    ensures Carried(w.surfaces[k], b, InFlight(queue, k))
  {
    var applied, kids := Applied(w.surfaces, queue[0]), Kids(g, queue[0].0);
    var taken := Takings(applied, kids);
    AppliedCarries(w.surfaces, queue[0], k);
    EmptiedCarries(applied, kids, k);
    InFlightJoin(queue[1..], taken, k);
    CarriedRound(w.surfaces[k], applied[k], Emptied(applied, kids)[k], b,
                 if queue[0].0 == k then queue[0].1.callbacks else [], InFlight(queue[1..], k), InFlight(taken, k));
  }

  lemma {:induction false} DrainCarries(g: Graph, w: Swept, queue: seq<Entry>, n: nat, k: Key)
    requires k in w.surfaces && Empties(g, KeysOf(queue), n)
    ensures k in Drain(g, w, queue, n).surfaces
    ensures Carried(w.surfaces[k], Drain(g, w, queue, n).surfaces[k], InFlight(queue, k))
    decreases n
  {
    if queue == [] {
      assert KeysOf(queue) == [];
    } else {
      DrainUnfolds(g, w, queue, n);
      DrainCarries(g, Turn(g, w, queue[0]), NextQueue(g, w.surfaces, queue), n - 1, k);
      TurnCarries(g, w, queue, k, Drain(g, w, queue, n).surfaces[k]);
    }
  }

  /** Callbacks move along within a surface and never to another; those of `start` come with what is applied to it. */
  lemma SweepCarries(m: SurfaceMap, start: Key, pending: Pending, k: Key)
    requires Settles(m, start) && k in m
    ensures k in SweepFrom(m, start, pending).surfaces
    ensures Carried(m[k], SweepFrom(m, start, pending).surfaces[k], if k == start then pending.callbacks else [])
  {
    var n: nat :| Empties(SyncedGraph(m), [start], n);
    SweepIs(m, start, pending, n);
    assert KeysOf([(start, pending)]) == [start];
    DrainCarries(SyncedGraph(m), Swept(m, []), [(start, pending)], n, k);
    assert InFlight([(start, pending)], k) == if k == start then pending.callbacks else [];
  }

  lemma CarriedKeeps(objects: map<Key, ObjectKind>, k: Key, a: Surface, b: Surface)
    requires Carried(a, b, []) && Conserved(a) && Owned(objects, k, a)
    ensures Conserved(b) && Owned(objects, k, b)
  {}

  // ----- Buffer releases -----

  lemma {:induction false} AppendReplaced(log: seq<BufferEvent>, d: seq<Key>, b: Key)
    ensures LastEvent(log + ReplacedAll(d), b) == if b in d then Some(Replaced(b)) else LastEvent(log, b)
  {
    if d == [] {
      assert log + ReplacedAll(d) == log;
    } else {
      var front, last := d[..|d| - 1], d[|d| - 1];
      var all := log + ReplacedAll(d);
      assert all[|all| - 1] == Replaced(last);
      assert all[..|all| - 1] == log + ReplacedAll(front);
      assert b in d <==> b in front || b == last;
      AppendReplaced(log, front, b);
    }
  }

  lemma AppendReplacedEarned(log: seq<BufferEvent>, d: seq<Key>)
    requires ReleasesEarned(log)
    ensures ReleasesEarned(log + ReplacedAll(d))
  {
    var all := log + ReplacedAll(d);
    assert forall i :: |log| <= i < |all| ==> all[i] == ReplacedAll(d)[i - |log|];
    forall i | 0 <= i < |all| && all[i].Released?
      ensures LastEvent(all[..i], all[i].buffer) == Some(Replaced(all[i].buffer))
    {
      assert all[..i] == log[..i];
    }
  }

  lemma {:induction false} MadeSnoc(log: seq<BufferEvent>, k: Key)
    requires ReleasesEarned(log)
    ensures ReleasesEarned(log + [Made(k)])
    ensures forall b :: LastEvent(log + [Made(k)], b) == LastEvent(log, b)
  {
    var all := log + [Made(k)];
    assert all[..|all| - 1] == log;
    forall i | 0 <= i < |all| && all[i].Released?
      ensures LastEvent(all[..i], all[i].buffer) == Some(Replaced(all[i].buffer))
    {
      assert all[..i] == log[..i];
    }
  }

  lemma CreateBufferKeepsInv(s: State, k: Key)
    requires Inv(s)
    ensures Inv(CreateBufferStep(s, k))
  {
    CreateBufferObjects(s, k);
    MoreObjectsHold(s, CreateBufferStep(s, k));
    MadeSnoc(s.log, k);
    assert forall b :: Queued(CreateBufferStep(s, k), b) ==> Queued(s, b);
  }

  lemma ReleasedSnoc(log: seq<BufferEvent>, b: Key, x: Key)
    ensures LastEvent(log + [Released(b)], x) == if x == b then Some(Released(b)) else LastEvent(log, x)
  {
    var all := log + [Released(b)];
    assert all[..|all| - 1] == log;
  }

  lemma ReleasedSnocEarned(log: seq<BufferEvent>, b: Key)
    requires ReleasesEarned(log) && LastEvent(log, b) == Some(Replaced(b))
    ensures ReleasesEarned(log + [Released(b)])
  {
    var all := log + [Released(b)];
    forall i | 0 <= i < |all| && all[i].Released?
      ensures LastEvent(all[..i], all[i].buffer) == Some(Replaced(all[i].buffer))
    {
      assert all[..i] == log[..i];
      assert i == |log| ==> log[..i] == log;
    }
  }

  /** A drain releases each buffer at most once, each on the strength of the commit that queued it. */
  lemma {:induction false} AppendReleased(s: State, log: seq<BufferEvent>, order: seq<Key>)
    requires ReleasesEarned(log) && Distinct(order)
    requires forall b :: b in order ==> LastEvent(log, b) == Some(Replaced(b))
    ensures ReleasesEarned(log + ReleasedEvents(s, order))
    ensures forall b :: b !in order ==> LastEvent(log + ReleasedEvents(s, order), b) == LastEvent(log, b)
  {
    if order == [] {
      assert log + ReleasedEvents(s, order) == log;
    } else {
      var front, last := order[..|order| - 1], order[|order| - 1];
      AppendReleased(s, log, front);
      assert last !in front;
      var before := log + ReleasedEvents(s, front);
      if last in s.buffers {
        assert log + ReleasedEvents(s, order) == before + [Released(last)];
        ReleasedSnocEarned(before, last);
        forall b
          ensures LastEvent(before + [Released(last)], b)
               == if b == last then Some(Released(b)) else LastEvent(before, b)
        {
          ReleasedSnoc(before, last, b);
        }
      } else {
        assert log + ReleasedEvents(s, order) == before;
      }
      assert forall b :: b in front ==> b in order;
    }
  }

  lemma TickKeepsReleases(s: State, order: seq<Key>)
    requires ReleasesEarned(s.log) && QueuesEarned(s) && Drains(StartStep(s), order)
    ensures ReleasesEarned(TickStep(s, order).log) && QueuesEarned(TickStep(s, order))
  {
    var u := StartStep(s);
    forall b | Queued(u, b) ensures LastEvent(s.log, b) == Some(Replaced(b)) {
      assert Queued(s, b);
    }
    assert forall b :: b in order ==> Queued(u, b);
    AppendReleased(u, s.log, order);
  }

  lemma DisplacedKeepsReleases(s: State, t: State, d: seq<Key>)
    requires ReleasesEarned(s.log) && QueuesEarned(s)
    requires t.log == s.log + ReplacedAll(d) && t.pendingRelease == s.pendingRelease + d && t.releasing == s.releasing
    ensures ReleasesEarned(t.log) && QueuesEarned(t)
  {
    AppendReplacedEarned(s.log, d);
    forall b | Queued(t, b) ensures LastEvent(t.log, b) == Some(Replaced(b)) {
      AppendReplaced(s.log, d, b);
      if b !in d { assert Queued(s, b); }
    }
  }

  // ----- Commits -----

  /** What a commit does to every surface's callbacks: nothing, unless it is refused. */
  ghost predicate AllCarried(m: SurfaceMap, n: SurfaceMap) {
    n.Keys == m.Keys && forall x :: x in m ==> Carried(m[x], n[x], [])
  }

  lemma FlushRooted(s: State, k: Key)
    requires Settles(s.surfaces, k)
    ensures Rooted(Flush(s, k).surfaces)
  {
    SameLinksSameGraph(s.surfaces, WithoutCache(s.surfaces, k));
    SweepKeepsLinks(WithoutCache(s.surfaces, k), k, CacheOf(s.surfaces, k));
  }

  lemma FlushCarries(s: State, k: Key)
    requires Settles(s.surfaces, k)
    ensures AllCarried(s.surfaces, Flush(s, k).surfaces)
  {
    SameLinksSameGraph(s.surfaces, WithoutCache(s.surfaces, k));
    FlushedCarries(s.surfaces, k);
  }

  lemma FlushedCarries(m: SurfaceMap, k: Key)
    requires Settles(WithoutCache(m, k), k)
    ensures AllCarried(m, SweepFrom(WithoutCache(m, k), k, CacheOf(m, k)).surfaces)
  {
    var emptied := WithoutCache(m, k);
    SweepKeepsLinks(emptied, k, CacheOf(m, k));
    forall x | x in m ensures Carried(m[x], SweepFrom(emptied, k, CacheOf(m, k)).surfaces[x], []) {
      SweepCarries(emptied, k, CacheOf(m, k), x);
      if x == k { TakenCarries(m[x]); }
    }
  }

  /** What `ApplyState` adds to the queue and the log, and all else it leaves alone. */
  ghost predicate OnlyDisplaces(s: State, t: State) {
    && t == s.(surfaces := t.surfaces, pendingRelease := t.pendingRelease, log := t.log)
    && exists d :: t.pendingRelease == s.pendingRelease + d && t.log == s.log + ReplacedAll(d)
  }

  lemma ApplyDisplaces(s: State, start: Key, pending: Pending)
    requires Settles(s.surfaces, start)
    ensures OnlyDisplaces(s, ApplyState(s, start, pending))
  {
    var d := SweepFrom(s.surfaces, start, pending).displaced;
    assert ApplyState(s, start, pending).pendingRelease == s.pendingRelease + d;
  }

  lemma NothingDisplaced(s: State, t: State)
    requires t == s.(surfaces := t.surfaces)
    ensures OnlyDisplaces(s, t)
  {
    assert t.pendingRelease == s.pendingRelease + [] && t.log == s.log + ReplacedAll([]);
  }

  lemma FlushDisplaces(s: State, k: Key)
    requires Settles(s.surfaces, k)
    ensures OnlyDisplaces(s, Flush(s, k))
  {
    SameLinksSameGraph(s.surfaces, WithoutCache(s.surfaces, k));
    ApplyDisplaces(s.(surfaces := WithoutCache(s.surfaces, k)), k, CacheOf(s.surfaces, k));
  }

  /** A step that moves callbacks along within their surfaces and displaces buffers. */
  lemma CommittedKeepsInv(s: State, t: State)
    requires Inv(s) && OnlyDisplaces(s, t) && AllCarried(s.surfaces, t.surfaces) && Rooted(t.surfaces)
    ensures Inv(t)
  {
    ResurfacedObjects(s, t.surfaces);
    var d :| t.pendingRelease == s.pendingRelease + d && t.log == s.log + ReplacedAll(d);
    DisplacedKeepsReleases(s, t, d);
    forall k | k in t.surfaces
      ensures Conserved(t.surfaces[k]) && Owned(t.objects, k, t.surfaces[k])
    {
      CarriedKeeps(s.objects, k, s.surfaces[k], t.surfaces[k]);
    }
  }

  lemma EditRooted(m: SurfaceMap, k: Key, a: Surface)
    requires Rooted(m) && k in m && a.parent == m[k].parent
    ensures Rooted(m[k := a])
  {
    assert ParentsOf(m[k := a]) == ParentsOf(m);
  }

  lemma PassCommitDisplaces(s: State, k: Key)
    requires Settles(s.surfaces, k) && k in s.surfaces
    ensures OnlyDisplaces(s, PassCommit(s, k)) && Rooted(PassCommit(s, k).surfaces)
  {
    var taken := WithoutPending(s.surfaces, k);
    SameLinksSameGraph(s.surfaces, taken);
    SweepKeepsLinks(taken, k, s.surfaces[k].pending);
    ApplyDisplaces(s.(surfaces := taken), k, s.surfaces[k].pending);
  }

  lemma PassCommitCarries(s: State, k: Key)
    requires Settles(s.surfaces, k) && k in s.surfaces
    ensures AllCarried(s.surfaces, PassCommit(s, k).surfaces)
  {
    SameLinksSameGraph(s.surfaces, WithoutPending(s.surfaces, k));
    PassedCarries(s.surfaces, k);
  }

  lemma PassCommitKeepsInv(s: State, k: Key)
    requires Inv(s) && Settles(s.surfaces, k) && k in s.surfaces
    ensures Inv(PassCommit(s, k))
  {
    PassCommitDisplaces(s, k);
    PassCommitCarries(s, k);
    CommittedKeepsInv(s, PassCommit(s, k));
  }

  lemma PendingCarries(a: Surface, b: Surface)
    requires Carried(a.(pending := NOTHING_PENDING), b, a.pending.callbacks)
    ensures Carried(a, b, [])
  {
    assert Outstanding(a.(pending := NOTHING_PENDING)) + a.pending.callbacks == Outstanding(a);
  }

  lemma PassedCarries(m: SurfaceMap, k: Key)
    requires k in m && Settles(WithoutPending(m, k), k)
    ensures AllCarried(m, SweepFrom(WithoutPending(m, k), k, m[k].pending).surfaces)
  {
    var taken := WithoutPending(m, k);
    SweepKeepsLinks(taken, k, m[k].pending);
    forall x | x in m ensures Carried(m[x], SweepFrom(taken, k, m[k].pending).surfaces[x], []) {
      SweepCarries(taken, k, m[k].pending, x);
      if x == k { PendingCarries(m[k], SweepFrom(taken, k, m[k].pending).surfaces[k]); }
    }
  }

  lemma CachedCommitCarries(a: Surface)
    ensures Carried(a, CachedCommit(a), [])
  {
    assert Outstanding(CachedCommit(a)) == Outstanding(a);
  }

  lemma CachedCommitKeepsInv(s: State, k: Key)
    requires Inv(s) && k in s.surfaces
    ensures Inv(s.(surfaces := s.surfaces[k := CachedCommit(s.surfaces[k])]))
  {
    var m := s.surfaces[k := CachedCommit(s.surfaces[k])];
    EditRooted(s.surfaces, k, CachedCommit(s.surfaces[k]));
    CachedCommitCarries(s.surfaces[k]);
    NothingDisplaced(s, s.(surfaces := m));
    CommittedKeepsInv(s, s.(surfaces := m));
  }

  lemma RefusedConserved(a: Surface)
    requires Conserved(a)
    ensures Conserved(Refused(a)) && multiset(Outstanding(Refused(a))) <= multiset(Outstanding(a))
  {
    assert Outstanding(a) == Outstanding(Refused(a)) + a.pending.callbacks;
  }

  lemma RefusedOwned(objects: map<Key, ObjectKind>, k: Key, a: Surface)
    requires Owned(objects, k, a) && Conserved(a)
    ensures Owned(objects, k, Refused(a))
  {
    RefusedConserved(a);
  }

  lemma RefusedKeepsCallbacks(s: State, k: Key)
    requires CallbacksHeld(s) && k in s.surfaces
    ensures CallbacksHeld(s.(surfaces := s.surfaces[k := Refused(s.surfaces[k])]))
  {
    var t := s.(surfaces := s.surfaces[k := Refused(s.surfaces[k])]);
    forall x | x in t.surfaces ensures Conserved(t.surfaces[x]) && Owned(t.objects, x, t.surfaces[x]) {
      if x == k {
        RefusedConserved(s.surfaces[k]);
        RefusedOwned(s.objects, k, s.surfaces[k]);
      } else {
        assert Owned(s.objects, x, s.surfaces[x]);
      }
    }
  }

  lemma RefusedKeepsInv(s: State, k: Key)
    requires Inv(s) && k in s.surfaces
    ensures Inv(s.(surfaces := s.surfaces[k := Refused(s.surfaces[k])]))
  {
    EditRooted(s.surfaces, k, Refused(s.surfaces[k]));
    ResurfacedObjects(s, s.surfaces[k := Refused(s.surfaces[k])]);
    RefusedKeepsCallbacks(s, k);
  }

  lemma PassSettles(s: State, k: Key, configured: bool)
    requires Completes(s, Commit(k, configured)) && k in s.surfaces
    requires !TooEarly(s.surfaces[k], configured) && !Synced(s.surfaces, k)
    ensures Settles(s.surfaces, k)
  {
    assert Starts(s, Commit(k, configured)) == Some(Start(s.surfaces, k));
  }

  /** A commit is lost, held back or applied. */
  lemma CommitCases(s: State, k: Key, configured: bool)
    requires Completes(s, Commit(k, configured)) && k in s.surfaces
    ensures
      if TooEarly(s.surfaces[k], configured) then
        CommitStep(s, k, configured) == s.(surfaces := s.surfaces[k := Refused(s.surfaces[k])])
      else if Synced(s.surfaces, k) then
        CommitStep(s, k, configured) == s.(surfaces := s.surfaces[k := CachedCommit(s.surfaces[k])])
      else Settles(s.surfaces, k) && CommitStep(s, k, configured) == PassCommit(s, k)
  {
    if !TooEarly(s.surfaces[k], configured) && !Synced(s.surfaces, k) { PassSettles(s, k, configured); }
  }

  lemma CommitKeepsInv(s: State, k: Key, configured: bool)
    requires Inv(s) && Completes(s, Commit(k, configured))
    ensures Inv(CommitStep(s, k, configured))
  {
    if k in s.surfaces {
      CommitCases(s, k, configured);
      if TooEarly(s.surfaces[k], configured) {
        RefusedKeepsInv(s, k);
      } else if Synced(s.surfaces, k) {
        CachedCommitKeepsInv(s, k);
      } else {
        PassCommitKeepsInv(s, k);
      }
    }
  }

  lemma FlushKeepsInv(s: State, k: Key)
    requires Inv(s) && Settles(s.surfaces, k)
    ensures Inv(Flush(s, k))
  {
    FlushRooted(s, k);
    FlushCarries(s, k);
    FlushDisplaces(s, k);
    CommittedKeepsInv(s, Flush(s, k));
  }

  lemma UnlinkForFlush(s: State, k: Key)
    requires Inv(s) && k in s.subsurfaces
    ensures Inv(s.(surfaces := UnlinkSubsurface(s.surfaces, Key(k.client, s.subsurfaces[k])),
                   subsurfaces := s.subsurfaces - {k}))
  {
    var surface := Key(k.client, s.subsurfaces[k]);
    var t := s.(surfaces := UnlinkSubsurface(s.surfaces, surface), subsurfaces := s.subsurfaces - {k});
    LinksAfterUnlink(s.surfaces, surface);
    FewerLinksRooted(s.surfaces, t.surfaces);
    UnlinkSubsurfaceRehangs(s.surfaces, surface);
    ResurfacedObjects(s, t.surfaces);
    RehangQuiet(s, t);
    QuietKeepsInv(s, t);
  }

  lemma ForgetSubsurfaceKeepsInv(s: State, k: Key)
    requires Inv(s) && k !in s.subsurfaces && Names(s, k, SubsurfaceObject)
    ensures Inv(Unregister(s, k))
  {
    SelfRehung(s.surfaces);
    RehangQuiet(s, Unregister(s, k));
    QuietKeepsInv(s, Unregister(s, k));
  }

  lemma DestroySubsurfaceKeepsInv(s: State, k: Key)
    requires Inv(s) && Completes(s, DestroySubsurface(k))
    ensures Inv(DestroySubsurfaceStep(s, k))
  {
    if k in s.subsurfaces {
      var surface := Key(k.client, s.subsurfaces[k]);
      var t := s.(surfaces := UnlinkSubsurface(s.surfaces, surface), subsurfaces := s.subsurfaces - {k});
      UnlinkForFlush(s, k);
      FlushKeepsInv(t, surface);
      FlushDisplaces(t, surface);
      assert Names(s, k, SubsurfaceObject);
      ForgetSubsurfaceKeepsInv(Flush(t, surface), k);
    }
  }

  lemma ResyncRehangs(m: SurfaceMap, k: Key, sync: bool)
    ensures Rehung(m, Resync(m, k, sync)) && ParentsOf(Resync(m, k, sync)) == ParentsOf(m)
  {
    SelfRehung(m);
    if k in m { EditRehangs(m, k, m[k].(subsurfaceSync := sync)); }
  }

  lemma SetSyncKeepsInv(s: State, k: Key, sync: bool)
    requires Inv(s) && Completes(s, SetSync(k, sync))
    ensures Inv(SetSyncStep(s, k, sync))
  {
    if k in s.subsurfaces {
      var surface := Key(k.client, s.subsurfaces[k]);
      ResyncKeepsInv(s, surface, sync);
      if Starts(s, SetSync(k, sync)).Some? {
        FlushKeepsInv(s.(surfaces := Resync(s.surfaces, surface, sync)), surface);
      }
    }
  }

  lemma ResyncKeepsInv(s: State, surface: Key, sync: bool)
    requires Inv(s)
    ensures Inv(s.(surfaces := Resync(s.surfaces, surface, sync)))
  {
    var t := s.(surfaces := Resync(s.surfaces, surface, sync));
    ResyncRehangs(s.surfaces, surface, sync);
    ResurfacedObjects(s, t.surfaces);
    RehangQuiet(s, t);
    QuietKeepsInv(s, t);
  }

  // ----- Answering, ticking, leaving -----

  lemma AnsweredAreCallbacks(s: State, target: FrameTarget, x: Key)
    requires CallbacksHeld(s) && x in AnsweredIds(s.surfaces, target)
    ensures x in s.objects && s.objects[x].CallbackObject?
    ensures var k := s.objects[x].surface;
      k in s.surfaces && k.client == x.client && Covered(s.surfaces[k], target) && x.id in s.surfaces[k].callbacks
  {
    var k, id :| k in s.surfaces && Covered(s.surfaces[k], target) && id in s.surfaces[k].callbacks
      && x == Key(k.client, id);
    assert id in multiset(Outstanding(s.surfaces[k]));
    assert Owned(s.objects, k, s.surfaces[k]);
  }

  lemma AnsweredConserved(a: Surface)
    requires Conserved(a)
    ensures Conserved(Answered(a))
    ensures forall id :: id in multiset(Outstanding(Answered(a))) ==>
      multiset(Outstanding(Answered(a)))[id] == multiset(Outstanding(a))[id] - multiset(a.callbacks)[id]
  {
    assert Outstanding(a) == a.callbacks + Outstanding(Answered(a));
  }

  lemma AnsweredOwned(s: State, target: FrameTarget, k: Key)
    requires CallbacksHeld(s) && k in s.surfaces
    ensures Owned(FireStep(s, target).objects, k, FireStep(s, target).surfaces[k])
  {
    var a, b := s.surfaces[k], FireStep(s, target).surfaces[k];
    assert Owned(s.objects, k, a) && Conserved(a);
    if Covered(a, target) { AnsweredConserved(a); }
    forall id | id in multiset(Outstanding(b))
      ensures multiset(Outstanding(b))[id] == 1 && Key(k.client, id) in s.objects
      ensures s.objects[Key(k.client, id)] == CallbackObject(k) && Key(k.client, id) !in AnsweredIds(s.surfaces, target)
    {
      if Key(k.client, id) in AnsweredIds(s.surfaces, target) {
        AnsweredAreCallbacks(s, target, Key(k.client, id));
      }
    }
  }

  lemma FireKeepsObjects(s: State, target: FrameTarget)
    requires ObjectsMatch(s) && CallbacksHeld(s)
    ensures ObjectsMatch(FireStep(s, target))
  {
    var gone := AnsweredIds(s.surfaces, target);
    forall x | x in gone ensures x in s.objects && s.objects[x].CallbackObject? {
      AnsweredAreCallbacks(s, target, x);
    }
  }

  lemma FireKeepsCallbacks(s: State, target: FrameTarget)
    requires CallbacksHeld(s)
    ensures CallbacksHeld(FireStep(s, target))
  {
    var t := FireStep(s, target);
    forall k | k in t.surfaces ensures Conserved(t.surfaces[k]) && Owned(t.objects, k, t.surfaces[k]) {
      AnsweredOwned(s, target, k);
      AnsweredConserved(s.surfaces[k]);
    }
  }

  lemma FireKeepsInv(s: State, target: FrameTarget)
    requires Inv(s)
    ensures Inv(FireStep(s, target))
  {
    FireKeepsObjects(s, target);
    FireKeepsCallbacks(s, target);
    FireLinks(s, target);
    FireKeepsReleases(s, target);
  }

  lemma FireLinks(s: State, target: FrameTarget)
    ensures ParentsOf(FireStep(s, target).surfaces) == ParentsOf(s.surfaces)
  {}

  lemma FireKeepsReleases(s: State, target: FrameTarget)
    requires ReleasesEarned(s.log) && QueuesEarned(s)
    ensures ReleasesEarned(FireStep(s, target).log) && QueuesEarned(FireStep(s, target))
  {
    assert forall b :: Queued(FireStep(s, target), b) ==> Queued(s, b);
  }

  lemma TickKeepsInv(s: State, order: seq<Key>)
    requires Inv(s) && Drains(StartStep(s), order)
    ensures Inv(TickStep(s, order))
  {
    TickKeepsReleases(s, order);
    TickKeepsRest(s, order);
  }

  lemma TickKeepsRest(s: State, order: seq<Key>)
    requires Shape(s) && CallbacksHeld(s)
    ensures Shape(TickStep(s, order)) && CallbacksHeld(TickStep(s, order))
  {}

  lemma {:induction false} OthersOfMembers(keys: seq<Key>, client: nat)
    ensures forall k :: k in OthersOf(keys, client) <==> k in keys && k.client != client
  {
    if keys != [] {
      OthersOfMembers(keys[1..], client);
      assert keys == [keys[0]] + keys[1..];
    }
  }

  lemma DisconnectObjects(s: State, client: nat)
    requires ObjectsMatch(s)
    ensures ObjectsMatch(DisconnectStep(s, client))
  {}

  lemma DisconnectCallbacks(s: State, client: nat)
    requires CallbacksHeld(s)
    ensures CallbacksHeld(DisconnectStep(s, client))
  {
    var t := DisconnectStep(s, client);
    forall k | k in t.surfaces ensures Conserved(t.surfaces[k]) && Owned(t.objects, k, t.surfaces[k]) {
      assert Owned(s.objects, k, s.surfaces[k]);
    }
  }

  lemma DisconnectKeepsInv(s: State, client: nat)
    requires Inv(s)
    ensures Inv(DisconnectStep(s, client))
  {
    DisconnectObjects(s, client);
    DisconnectCallbacks(s, client);
    FewerLinksRooted(s.surfaces, DisconnectStep(s, client).surfaces);
    OthersOfMembers(s.pendingRelease, client);
    assert forall b :: Queued(DisconnectStep(s, client), b) ==> Queued(s, b);
  }

  lemma FrameKeepsInv(s: State, k: Key, callback: nat)
    requires Inv(s)
    ensures Inv(FrameStep(s, k, callback))
  {
    FrameKeepsCallbacks(s, k, callback);
    FrameKeepsShape(s, k, callback);
    assert forall b :: Queued(FrameStep(s, k, callback), b) ==> Queued(s, b);
  }

  lemma FrameKeepsShape(s: State, k: Key, callback: nat)
    requires Shape(s)
    ensures Shape(FrameStep(s, k, callback))
  {
    if k in s.surfaces {
      EditRooted(s.surfaces, k, Asking(s.surfaces[k], callback));
    }
  }

  // ----- Every step, every run -----

  ghost predicate IsQuiet(r: Request) {
    && !r.Commit? && !r.DestroySubsurface? && !r.SetSync?
    && !r.Frame? && !r.FireCallbacks? && !r.CreateBuffer? && !r.Tick? && !r.Disconnect?
  }

  lemma LinkingStepsQuiet(s: State, r: Request, order: seq<Key>)
    requires Shape(s) && IsQuiet(r) && Enabled(s, r, order)
    requires r.CreateSurface? || r.DestroySurface? || r.GetSubsurface? || r.GetPopup? || r.DestroyPopup?
      || r.AdoptPopup?
    ensures QuietStep(s, Step(s, r, order))
  {
    match r
    case CreateSurface(k) => CreateSurfaceQuiet(s, k);
    case DestroySurface(k) => DestroySurfaceQuiet(s, k);
    case GetSubsurface(k, surface, parent, otherRole) => GetSubsurfaceQuiet(s, k, surface, parent, otherRole);
    case GetPopup(k, xdg, parentXdg, at) => GetPopupQuiet(s, k, xdg, parentXdg, at);
    case DestroyPopup(k) => DestroyPopupQuiet(s, k);
    case AdoptPopup(layer, popup, at) => AdoptPopupQuiet(s, layer, popup, at);
    case _ =>
  }

  lemma OtherStepsQuiet(s: State, r: Request, order: seq<Key>)
    requires Shape(s) && IsQuiet(r) && Enabled(s, r, order)
    requires !(r.CreateSurface? || r.DestroySurface? || r.GetSubsurface? || r.GetPopup? || r.DestroyPopup?
      || r.AdoptPopup?)
    ensures QuietStep(s, Step(s, r, order))
  {
    match r
    case PlaceSubsurface(k, sibling, above) => PlaceQuiet(s, k, sibling, above);
    case SetSubsurfacePosition(k, at) => PositionQuiet(s, k, at);
    case GetXdgSurface(k, surface, otherRole) => XdgSurfaceQuiet(s, k, surface, otherRole);
    case DestroyXdgSurface(k) => XdgSurfaceQuiet(s, k, 0, false);
    case GetLayerSurface(k, surface, refused) => LayerSurfaceQuiet(s, k, surface, refused);
    case DestroyLayerSurface(k) => LayerSurfaceQuiet(s, k, 0, false);
    case Attach(k, buffer, d) => AttachQuiet(s, k, buffer, d);
    case DestroyBuffer(k) => DestroyBufferQuiet(s, k);
    case BeginRead(k) => if k in s.buffers { ReadersQuiet(s, s.readers + {k}); } else { ReadersQuiet(s, s.readers); }
    case EndRead(k) => ReadersQuiet(s, s.readers - {k});
    case ShowOn(k, outputs) => ShowQuiet(s, k, outputs);
    case _ =>
  }

  lemma CommittingStepsKeepInv(s: State, r: Request, order: seq<Key>)
    requires Inv(s) && Enabled(s, r, order) && (r.Commit? || r.DestroySubsurface? || r.SetSync?)
    ensures Inv(Step(s, r, order))
  {
    match r
    case Commit(k, configured) => CommitKeepsInv(s, k, configured);
    case DestroySubsurface(k) => DestroySubsurfaceKeepsInv(s, k);
    case SetSync(k, sync) => SetSyncKeepsInv(s, k, sync);
    case _ =>
  }

  lemma CallbackStepsKeepInv(s: State, r: Request, order: seq<Key>)
    requires Inv(s) && Enabled(s, r, order) && (r.Frame? || r.FireCallbacks?)
    ensures Inv(Step(s, r, order))
  {
    if r.Frame? { FrameKeepsInv(s, r.k, r.callback); } else { FireKeepsInv(s, r.target); }
  }

  lemma LoudStepsKeepInv(s: State, r: Request, order: seq<Key>)
    requires Inv(s) && Enabled(s, r, order) && (r.CreateBuffer? || r.Tick? || r.Disconnect?)
    ensures Inv(Step(s, r, order))
  {
    if r.CreateBuffer? { CreateBufferKeepsInv(s, r.k); }
    else if r.Tick? { TickKeepsInv(s, order); }
    else { DisconnectKeepsInv(s, r.client); }
  }

  /** Whatever a client asks, in whatever order, one step keeps the invariant. */
  lemma StepKeepsInv(s: State, r: Request, order: seq<Key>)
    requires Inv(s) && Enabled(s, r, order)
    ensures Inv(Step(s, r, order))
  {
    if r.Commit? || r.DestroySubsurface? || r.SetSync? {
      CommittingStepsKeepInv(s, r, order);
    } else if r.Frame? || r.FireCallbacks? {
      CallbackStepsKeepInv(s, r, order);
    } else if !IsQuiet(r) {
      LoudStepsKeepInv(s, r, order);
    } else {
      if r.CreateSurface? || r.DestroySurface? || r.GetSubsurface? || r.GetPopup? || r.DestroyPopup? || r.AdoptPopup? {
        LinkingStepsQuiet(s, r, order);
      } else {
        OtherStepsQuiet(s, r, order);
      }
      QuietKeepsInv(s, Step(s, r, order));
    }
  }

  lemma {:induction false} RunKeepsInv(s: State, events: seq<Event>, t: State)
    requires Inv(s) && Runs(s, events, t)
    ensures Inv(t)
    decreases |events|
  {
    if events != [] {
      StepKeepsInv(s, events[0].request, events[0].order);
      RunKeepsInv(Step(s, events[0].request, events[0].order), events[1..], t);
    }
  }

  /**
   After any run from nothing: parents never form a circle, every callback asked for on a live
   surface is answered, outstanding or lost with a refused commit, and each release of a buffer
   answers a commit that displaced it since its last one.
   */
  lemma EveryRunIsSound(events: seq<Event>, t: State)
    requires Runs(INITIAL, events, t)
    ensures Rooted(t.surfaces)
    ensures forall k :: k in t.surfaces ==> Conserved(t.surfaces[k]) && Owned(t.objects, k, t.surfaces[k])
    ensures ReleasesEarned(t.log)
  {
    RunKeepsInv(INITIAL, events, t);
  }
}
