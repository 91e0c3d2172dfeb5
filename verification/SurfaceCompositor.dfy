/** The handlers, field by field, each proved to do what the surface machine's step says. */
module SurfaceCompositor {
  import opened Base
  import opened Links
  import opened Descent
  import opened Surfaces
  import opened Forest
  import opened Cascade
  import opened Sweep
  import opened SurfaceMachine
  import opened SurfaceRuns

  // ----- Part-way through a sweep -----

  lemma SweptFurther(s: State, w: Swept, more: Swept, d: seq<Key>)
    requires more.displaced == w.displaced + d
    ensures SweptTo(s, more) == SweptTo(s, w).(
      surfaces := more.surfaces,
      pendingRelease := SweptTo(s, w).pendingRelease + d,
      log := SweptTo(s, w).log + ReplacedAll(d))
  {
    assert s.pendingRelease + more.displaced == s.pendingRelease + w.displaced + d;
    assert s.log + ReplacedAll(more.displaced) == s.log + ReplacedAll(w.displaced) + ReplacedAll(d);
  }

  lemma SweptNowhere(s: State)
    ensures SweptTo(s, Swept(s.surfaces, [])) == s
  {
    assert s.pendingRelease + [] == s.pendingRelease && s.log + ReplacedAll([]) == s.log;
  }

  // ----- The compositor -----

  class Compositor {
    var surfaces: SurfaceMap
    var objects: map<Key, ObjectKind>
    var subsurfaces: map<Key, nat>
    var xdgSurfaces: map<Key, nat>
    var popups: map<Key, nat>
    var layers: map<Key, nat>
    var buffers: set<Key>
    var readers: set<Key>
    var pendingRelease: seq<Key>
    var releasing: set<Key>
    ghost var log: seq<BufferEvent>

    ghost function Model(): State
      reads this
    {
      State(surfaces, objects, subsurfaces, xdgSurfaces, popups, layers, buffers, readers, pendingRelease, releasing,
        log)
    }

    constructor ()
      ensures Model() == INITIAL
    {
      surfaces, objects, subsurfaces, xdgSurfaces, popups, layers := map[], map[], map[], map[], map[], map[];
      buffers, readers, pendingRelease, releasing, log := {}, {}, [], {}, [];
    }

    /** `register_client_object`. */
    method Register(k: Key, kind: ObjectKind) returns (ok: bool)
      modifies this`objects
      ensures ok == CanRegister(old(Model()), k)
      ensures Model() == if ok then SurfaceMachine.Register(old(Model()), k, kind) else old(Model())
    {
      ok := ForClient(k.id) && k !in objects;
      if ok { objects := objects[k := kind]; }
    }

    method CreateSurface(k: Key)
      modifies this
      ensures Model() == CreateSurfaceStep(old(Model()), k)
    {
      var ok := Register(k, SurfaceObject);
      if ok { surfaces := surfaces[k := NEW_SURFACE]; }
    }

    method RemoveFromParent(parent: Key, id: nat)
      modifies this`surfaces
      ensures surfaces == DropChild(old(surfaces), parent, id)
    {
      if parent in surfaces {
        surfaces := surfaces[parent := surfaces[parent].(children := Without(surfaces[parent].children, id))];
      }
    }

    method DestroySurface(k: Key)
      requires k in surfaces
      modifies this
      ensures Model() == DestroySurfaceStep(old(Model()), k)
    {
      var parent := surfaces[k].parent;
      surfaces := surfaces - {k};
      if parent.Some? { RemoveFromParent(Key(k.client, parent.value), k.id); }
      objects := objects - {k};
    }

    method GetSubsurface(k: Key, surface: nat, parent: nat, otherRole: bool)
      modifies this
      ensures Model() == GetSubsurfaceStep(old(Model()), k, surface, parent, otherRole)
    {
      if otherRole { return; }
      var loop := IsAncestor(surfaces, k.client, surface, parent);
      if loop { return; }
      var ok := Register(k, SubsurfaceObject);
      if !ok { return; }
      var child, above := Key(k.client, surface), Key(k.client, parent);
      if child in surfaces {
        surfaces := surfaces[child :=
          surfaces[child].(parent := Some(parent), isSubsurface := true, subsurfaceSync := true)];
      }
      if above in surfaces {
        surfaces := surfaces[above := surfaces[above].(children := surfaces[above].children + [surface])];
      }
      subsurfaces := subsurfaces[k := surface];
    }

    method GetPopup(k: Key, xdg: nat, parentXdg: nat, at: Point)
      modifies this
      ensures Model() == GetPopupStep(old(Model()), k, xdg, parentXdg, at)
    {
      var own, above := Key(k.client, xdg), Key(k.client, parentXdg);
      if own !in xdgSurfaces { return; }
      var popup := xdgSurfaces[own];
      var linked := false;
      if above in xdgSurfaces {
        var loop := IsAncestor(surfaces, k.client, popup, xdgSurfaces[above]);
        if loop { return; }
        linked := true;
      } else if parentXdg != 0 {
        return;
      }
      var ok := Register(k, PopupObject);
      if !ok { return; }
      popups := popups[k := xdg];
      if linked { LinkPopupUnder(Key(k.client, popup), xdgSurfaces[above], at); }
    }

    method LinkPopupUnder(child: Key, parent: nat, at: Point)
      modifies this`surfaces
      ensures surfaces == LinkPopup(old(surfaces), child, parent, at)
    {
      var above := Key(child.client, parent);
      if child in surfaces {
        surfaces := surfaces[child := surfaces[child].(parent := Some(parent), subsurfacePosition := ClampOffset(at))];
      }
      if above in surfaces {
        surfaces := surfaces[above := surfaces[above].(children := surfaces[above].children + [child.id])];
      }
    }

    method DestroyPopup(k: Key)
      requires k in popups
      modifies this
      ensures Model() == DestroyPopupStep(old(Model()), k)
    {
      var xdg := Key(k.client, popups[k]);
      if xdg in xdgSurfaces {
        var surface := Key(k.client, xdgSurfaces[xdg]);
        if surface in surfaces && surfaces[surface].parent.Some? {
          RemoveFromParent(Key(k.client, surfaces[surface].parent.value), surface.id);
        }
        if surface in surfaces {
          surfaces := surfaces[surface := surfaces[surface].(parent := None)];
        }
      }
      popups := popups - {k};
      objects := objects - {k};
    }

    method AdoptPopup(layer: Key, popup: nat, at: Point)
      modifies this
      ensures Model() == AdoptPopupStep(old(Model()), layer, popup, at)
    {
      var key := Key(layer.client, popup);
      if layer !in layers || key !in popups || Key(layer.client, popups[key]) !in xdgSurfaces { return; }
      var surface := Key(layer.client, xdgSurfaces[Key(layer.client, popups[key])]);
      if surface !in surfaces || surfaces[surface].parent.Some? { return; }
      var loop := IsAncestor(surfaces, layer.client, surface.id, layers[layer]);
      if loop { return; }
      LinkPopupUnder(surface, layers[layer], at);
    }

    method Attach(k: Key, buffer: nat, d: Point)
      modifies this`surfaces
      ensures Model() == AttachStep(old(Model()), k, buffer, d)
    {
      if k in surfaces {
        var p := surfaces[k].pending;
        p := p.(bufferAttached := true, bufferId := if buffer == 0 then None else Some(buffer));
        p := p.(offset := ClampOffset(SatMove(p.offset, d)));
        surfaces := surfaces[k := surfaces[k].(pending := p)];
      }
    }

    method Frame(k: Key, callback: nat)
      requires k in surfaces
      modifies this
      ensures Model() == FrameStep(old(Model()), k, callback)
    {
      var ok := Register(Key(k.client, callback), CallbackObject(k));
      if !ok { return; }
      var surface := surfaces[k];
      surfaces := surfaces[k := surface.(
        pending := surface.pending.(callbacks := surface.pending.callbacks + [callback]),
        asked := surface.asked + [callback])];
    }

    // ----- Commits -----

    /** `apply_one`. */
    method ApplyOne(k: Key, pending: Pending)
      modifies this`surfaces, this`pendingRelease, this`log
      ensures surfaces == Applied(old(surfaces), (k, pending))
      ensures pendingRelease == old(pendingRelease) + Displaces(old(surfaces), (k, pending))
      ensures log == old(log) + ReplacedAll(Displaces(old(surfaces), (k, pending)))
    {
      if k !in surfaces {
        assert log + ReplacedAll([]) == log;
        return;
      }
      var surface := surfaces[k];
      if pending.bufferAttached && surface.bufferId.Some? && pending.bufferId != surface.bufferId {
        pendingRelease := pendingRelease + [Key(k.client, surface.bufferId.value)];
        log := log + ReplacedAll([Key(k.client, surface.bufferId.value)]);
      } else {
        assert log + ReplacedAll([]) == log;
      }
      surfaces := surfaces[k := Apply(surface, pending)];
    }

    /** The inner loop of `apply_surface_state`: queue every child with what it has cached. */
    method TakeCaches(kids: seq<Key>) returns (taken: seq<(Key, Pending)>)
      requires forall c :: c in kids ==> c in surfaces
      modifies this`surfaces
      ensures surfaces == Emptied(old(surfaces), kids) && taken == Takings(old(surfaces), kids)
    {
      taken := [];
      for i := 0 to |kids|
        invariant surfaces == Emptied(old(surfaces), kids[..i]) && taken == Takings(old(surfaces), kids[..i])
      {
        assert kids[..i + 1] == kids[..i] + [kids[i]] && kids[..i + 1][..i] == kids[..i];
        taken := taken + [(kids[i], Cached(surfaces[kids[i]]))];
        surfaces := surfaces[kids[i] := surfaces[kids[i]].(cached := None)];
      }
      assert kids[..|kids|] == kids;
    }

    /** `apply_surface_state`: the queue, drained. */
    method ApplySurfaceState(start: Key, pending: Pending)
      requires Settles(surfaces, start)
      modifies this`surfaces, this`pendingRelease, this`log
      ensures Model() == ApplyState(old(Model()), start, pending)
    {
      ghost var s, g := Model(), SyncedGraph(surfaces);
      ghost var w := Swept(surfaces, []);
      ghost var n: nat :| Empties(g, [start], n);
      SweepIs(surfaces, start, pending, n);
      SweptNowhere(s);
      var queue := [(start, pending)];
      assert KeysOf(queue) == [start];
      while queue != []
        invariant Rooted(surfaces) && SyncedGraph(surfaces) == g && w.surfaces == surfaces
        invariant Model() == SweptTo(s, w)
        invariant Empties(g, KeysOf(queue), n)
        invariant Drain(g, w, queue, n) == SweepFrom(s.surfaces, start, pending)
        decreases n
      {
        DrainUnfolds(g, w, queue, n);
        SweptFurther(s, w, Turn(g, w, queue[0]), Displaces(surfaces, queue[0]));
        w := Turn(g, w, queue[0]);
        queue := TakeTurn(g, queue);
        n := n - 1;
      }
    }

    /** The body of that loop. */
    method TakeTurn(ghost g: Graph, queue: seq<(Key, Pending)>) returns (rest: seq<(Key, Pending)>)
      requires queue != [] && Rooted(surfaces) && SyncedGraph(surfaces) == g
      modifies this`surfaces, this`pendingRelease, this`log
      ensures Rooted(surfaces) && SyncedGraph(surfaces) == g
      ensures surfaces == Emptied(Applied(old(surfaces), queue[0]), Kids(g, queue[0].0))
      ensures pendingRelease == old(pendingRelease) + Displaces(old(surfaces), queue[0])
      ensures log == old(log) + ReplacedAll(Displaces(old(surfaces), queue[0]))
      ensures rest == NextQueue(g, old(surfaces), queue)
    {
      var k := queue[0].0;
      ApplyOne(k, queue[0].1);
      SameLinksSameGraph(old(surfaces), surfaces);
      var taken := TakeKids(g, k);
      rest := queue[1..] + taken;
    }

    method TakeKids(ghost g: Graph, k: Key) returns (taken: seq<(Key, Pending)>)
      requires Rooted(surfaces) && SyncedGraph(surfaces) == g
      modifies this`surfaces
      ensures Rooted(surfaces) && SyncedGraph(surfaces) == g
      ensures surfaces == Emptied(old(surfaces), Kids(g, k)) && taken == Takings(old(surfaces), Kids(g, k))
    {
      var kids := SyncedChildren(surfaces, k);
      assert kids == Kids(g, k);
      SameLinksSameGraph(surfaces, Emptied(surfaces, kids));
      taken := TakeCaches(kids);
    }

    method CommitSurface(k: Key, configured: bool)
      requires k in surfaces && Completes(Model(), Commit(k, configured))
      modifies this
      ensures Model() == CommitStep(old(Model()), k, configured)
    {
      ghost var s := Model();
      CommitCases(s, k, configured);
      var pending := TakePending(k);
      CommitTaken(s, k, pending, configured);
    }

    method CommitTaken(ghost s: State, k: Key, pending: Pending, configured: bool)
      requires k in s.surfaces && Rooted(s.surfaces) && pending == s.surfaces[k].pending
      requires !TooEarly(s.surfaces[k], configured) && !Synced(s.surfaces, k) ==> Settles(s.surfaces, k)
      requires Rooted(surfaces) && (Synced(surfaces, k) <==> Synced(s.surfaces, k))
      requires Model() == s.(surfaces := WithoutPending(s.surfaces, k))
      modifies this`surfaces, this`pendingRelease, this`log
      ensures
        if TooEarly(s.surfaces[k], configured) then
          Model() == s.(surfaces := s.surfaces[k := Refused(s.surfaces[k])])
        else if Synced(s.surfaces, k) then
          Model() == s.(surfaces := s.surfaces[k := CachedCommit(s.surfaces[k])])
        else Model() == PassCommit(s, k)
    {
      if pending.bufferId.Some? && !configured {
        RefuseTaken(k, pending, s.surfaces[k]);
        return;
      }
      var synced := IsEffectivelySynced(surfaces, k);
      if synced {
        AddToCache(k, pending);
      } else {
        PassTaken(s, k, pending);
      }
    }

    method PassTaken(ghost s: State, k: Key, pending: Pending)
      requires k in s.surfaces && Settles(s.surfaces, k) && pending == s.surfaces[k].pending
      requires Model() == s.(surfaces := WithoutPending(s.surfaces, k))
      modifies this`surfaces, this`pendingRelease, this`log
      ensures Model() == PassCommit(s, k)
    {
      SameLinksSameGraph(s.surfaces, surfaces);
      ApplySurfaceState(k, pending);
    }

    /** What goes with a commit refused: its frame callbacks, which nothing will answer. */
    method RefuseTaken(k: Key, pending: Pending, ghost a: Surface)
      requires k in surfaces && surfaces[k] == a.(pending := NOTHING_PENDING) && pending == a.pending
      modifies this`surfaces
      ensures surfaces == old(surfaces)[k := Refused(a)]
    {
      surfaces := surfaces[k := surfaces[k].(dropped := surfaces[k].dropped + pending.callbacks)];
    }

    method TakePending(k: Key) returns (pending: Pending)
      requires Rooted(surfaces) && k in surfaces
      modifies this`surfaces
      ensures pending == old(surfaces)[k].pending
      ensures surfaces == WithoutPending(old(surfaces), k)
      ensures Rooted(surfaces) && (Synced(surfaces, k) <==> old(Synced(surfaces, k)))
    {
      pending := surfaces[k].pending;
      SameLinksSameGraph(surfaces, WithoutPending(surfaces, k));
      SameLinksSameSync(surfaces, WithoutPending(surfaces, k), k);
      surfaces := surfaces[k := surfaces[k].(pending := NOTHING_PENDING)];
    }

    method AddToCache(k: Key, pending: Pending)
      requires k in surfaces
      modifies this`surfaces
      ensures surfaces == old(surfaces)[k :=
        old(surfaces)[k].(cached := Some(Merge(Cached(old(surfaces)[k]), pending)))]
    {
      var cached := if surfaces[k].cached.Some? then surfaces[k].cached.value else NOTHING_PENDING;
      surfaces := surfaces[k := surfaces[k].(cached := Some(Merge(cached, pending)))];
    }

    method FlushCache(k: Key)
      requires Settles(surfaces, k)
      modifies this`surfaces, this`pendingRelease, this`log
      ensures Model() == Flush(old(Model()), k)
    {
      var cached := NOTHING_PENDING;
      SameLinksSameGraph(surfaces, WithoutCache(surfaces, k));
      if k in surfaces {
        cached := Cached(surfaces[k]);
        surfaces := surfaces[k := surfaces[k].(cached := None)];
      }
      ApplySurfaceState(k, cached);
    }

    method Unlink(surface: Key)
      modifies this`surfaces
      ensures surfaces == UnlinkSubsurface(old(surfaces), surface)
    {
      if surface in surfaces {
        var parent := surfaces[surface].parent;
        surfaces := surfaces[surface :=
          surfaces[surface].(parent := None, isSubsurface := false, subsurfaceSync := false)];
        if parent.Some? { RemoveFromParent(Key(surface.client, parent.value), surface.id); }
      }
    }

    method DestroySubsurface(k: Key)
      requires k in subsurfaces && Completes(Model(), SurfaceMachine.Request.DestroySubsurface(k))
      modifies this
      ensures Model() == DestroySubsurfaceStep(old(Model()), k)
    {
      var surface := Key(k.client, subsurfaces[k]);
      Unlink(surface);
      subsurfaces := subsurfaces - {k};
      FlushCache(surface);
      objects := objects - {k};
    }

    method SetSync(k: Key, sync: bool)
      requires k in subsurfaces && Completes(Model(), SurfaceMachine.Request.SetSync(k, sync))
      modifies this
      ensures Model() == SetSyncStep(old(Model()), k, sync)
    {
      var surface := Key(k.client, subsurfaces[k]);
      ResyncRooted(surfaces, surface, sync);
      if surface in surfaces {
        surfaces := surfaces[surface := surfaces[surface].(subsurfaceSync := sync)];
      }
      assert surfaces == Resync(old(surfaces), surface, sync);
      if sync { return; }
      var synced := IsEffectivelySynced(surfaces, surface);
      if !synced { FlushCache(surface); }
    }

    // ----- Frames and releases -----

    /** Collect what every covered surface has committed, surface by surface in no particular order. */
    method DrainCallbacks(target: FrameTarget) returns (drained: seq<Key>)
      requires CallbacksHeld(Model())
      modifies this`surfaces
      ensures surfaces == FireStep(old(Model()), target).surfaces
      ensures Distinct(drained)
      ensures forall x :: x in drained <==> x in AnsweredIds(old(surfaces), target)
    {
      ghost var s := Model();
      drained := [];
      var left := surfaces.Keys;
      DrainNone(s, target);
      while left != {}
        invariant left <= s.surfaces.Keys && Drained(s, left, target, drained, surfaces)
      {
        var k :| k in left;
        drained := DrainOne(s, left, k, target, drained);
        left := left - {k};
      }
      DrainedEverything(s, target, drained, surfaces);
    }

    method DrainOne(ghost s: State, ghost left: set<Key>, k: Key, target: FrameTarget, drained: seq<Key>)
      returns (more: seq<Key>)
      requires CallbacksHeld(s) && k in left && left <= s.surfaces.Keys && Drained(s, left, target, drained, surfaces)
      modifies this`surfaces
      ensures Drained(s, left - {k}, target, more, surfaces)
    {
      VisitOne(s, left, k, target, drained);
      AnsweredStep(s.surfaces, left, k, target);
      more := drained + Batch(surfaces, k, target);
      if Covered(surfaces[k], target) { surfaces := surfaces[k := Answered(surfaces[k])]; }
    }

    /** Answer each callback, while its id still names one, and forget the id. */
    method AnswerAll(drained: seq<Key>)
      requires Distinct(drained)
      requires forall x :: x in drained ==> x in objects && objects[x].CallbackObject?
      modifies this`objects
      ensures objects == old(objects) - (set x | x in drained)
    {
      for i := 0 to |drained|
        invariant objects == old(objects) - (set x | x in drained[..i])
      {
        assert drained[i] !in drained[..i];
        assert drained[i] in objects && objects[drained[i]].CallbackObject?;
        objects := objects - {drained[i]};
        assert drained[..i + 1] == drained[..i] + [drained[i]];
      }
      assert drained[..|drained|] == drained;
    }

    /** `fire_frame_callbacks`. */
    method FireFrameCallbacks(target: FrameTarget)
      requires CallbacksHeld(Model())
      modifies this
      ensures Model() == FireStep(old(Model()), target)
    {
      ghost var s := Model();
      var drained := DrainCallbacks(target);
      forall x | x in drained ensures x in objects && objects[x].CallbackObject? {
        AnsweredAreCallbacks(s, target, x);
      }
      assert (set x | x in drained) == AnsweredIds(s.surfaces, target);
      AnswerAll(drained);
    }

    method CreateBuffer(k: Key)
      modifies this
      ensures Model() == CreateBufferStep(old(Model()), k)
    {
      var ok := Register(k, BufferObject);
      if ok {
        releasing := releasing - {k};
        readers := readers - {k};
        buffers := buffers + {k};
        log := log + [Made(k)];
      }
    }

    method DestroyBuffer(k: Key)
      requires k in buffers
      modifies this
      ensures Model() == DestroyBufferStep(old(Model()), k)
    {
      buffers, readers := buffers - {k}, readers - {k};
      releasing := releasing - {k};
      pendingRelease := Without(pendingRelease, k);
      objects := objects - {k};
    }

    /** `start_buffer_releases`. */
    method StartBufferReleases()
      modifies this`pendingRelease, this`releasing
      ensures Model() == StartStep(old(Model()))
    {
      var taken := pendingRelease;
      pendingRelease := [];
      for i := 0 to |taken|
        invariant pendingRelease == []
        invariant releasing == old(releasing) + set b | b in taken[..i] && !Attached(surfaces, b)
      {
        assert taken[..i + 1] == taken[..i] + [taken[i]];
        if !Attached(surfaces, taken[i]) { releasing := releasing + {taken[i]}; }
      }
      assert taken[..|taken|] == taken;
    }

    /** `finish_buffer_releases`, reporting the order in which the hash set happened to be drained. */
    method FinishBufferReleases() returns (ghost order: seq<Key>)
      modifies this`releasing, this`log
      ensures Drains(old(Model()), order)
      ensures Model() == FinishStep(old(Model()), order)
    {
      ghost var s := Model();
      order := [];
      var left := releasing;
      assert log + ReleasedEvents(s, []) == log;
      while left != {}
        invariant left <= s.releasing
        invariant Distinct(order) && forall b :: b in order <==> b in s.releasing - left && Free(s, b)
        invariant Model() == s.(releasing := releasing, log := log)
        invariant releasing == s.releasing - (set b | b in order)
        invariant log == s.log + ReleasedEvents(s, order)
      {
        var b :| b in left;
        left := left - {b};
        if b !in readers && !Attached(surfaces, b) {
          releasing := releasing - {b};
          assert (order + [b])[..|order|] == order;
          if b in buffers { log := log + [Released(b)]; }
          DistinctConcat(order, [b]);
          assert s.log + ReleasedEvents(s, order + [b]) == log;
          order := order + [b];
        }
      }
    }

    /** The housekeeping tick. */
    method Tick() returns (ghost order: seq<Key>)
      modifies this
      ensures Drains(StartStep(old(Model())), order) && Model() == TickStep(old(Model()), order)
    {
      StartBufferReleases();
      order := FinishBufferReleases();
    }
  }

  // ----- Draining callbacks -----

  function Ids(client: nat, ids: seq<nat>): (r: seq<Key>)
    ensures |r| == |ids| && forall i :: 0 <= i < |r| ==> r[i] == Key(client, ids[i])
  {
    seq(|ids|, i requires 0 <= i < |ids| => Key(client, ids[i]))
  }

  function Visited(m: SurfaceMap, left: set<Key>): SurfaceMap { map k | k in m && k !in left :: m[k] }

  function AnsweredBut(m: SurfaceMap, left: set<Key>, target: FrameTarget): SurfaceMap {
    map k | k in m :: if k !in left && Covered(m[k], target) then Answered(m[k]) else m[k]
  }

  lemma {:induction false} OnceEachDistinct(ids: seq<nat>)
    requires forall id :: id in multiset(ids) ==> multiset(ids)[id] == 1
    ensures Distinct(ids)
  {
    forall i, j | 0 <= i < j < |ids| ensures ids[i] != ids[j] {
      assert ids == ids[..j] + [ids[j]] + ids[j + 1..];
      assert multiset(ids) == multiset(ids[..j]) + multiset{ids[j]} + multiset(ids[j + 1..]);
      assert ids[j] in multiset(ids) && multiset(ids[..j])[ids[j]] == 0;
      assert ids[..j][i] == ids[i];
    }
  }

  /** A surface's committed callbacks are all different, and no visited surface had one of them. */
  lemma CallbacksDistinct(s: State, k: Key)
    requires CallbacksHeld(s) && k in s.surfaces
    ensures Distinct(s.surfaces[k].callbacks)
    ensures forall id :: id in s.surfaces[k].callbacks ==>
      Key(k.client, id) in s.objects && s.objects[Key(k.client, id)] == CallbackObject(k)
  {
    var a := s.surfaces[k];
    assert Owned(s.objects, k, a);
    assert multiset(Outstanding(a))
      == multiset(a.callbacks) + multiset(Cached(a).callbacks) + multiset(a.pending.callbacks);
    forall id | id in multiset(a.callbacks) ensures multiset(a.callbacks)[id] == 1 {
      assert id in multiset(Outstanding(a));
    }
    OnceEachDistinct(a.callbacks);
    forall id | id in a.callbacks
      ensures Key(k.client, id) in s.objects && s.objects[Key(k.client, id)] == CallbackObject(k)
    {
      assert id in multiset(Outstanding(a));
    }
  }

  /** What has been drained once all but `left` have been visited. */
  ghost predicate Collected(s: State, left: set<Key>, target: FrameTarget, drained: seq<Key>) {
    && Distinct(drained)
    && forall x :: x in drained <==> x in AnsweredIds(Visited(s.surfaces, left), target)
  }

  ghost predicate Drained(s: State, left: set<Key>, target: FrameTarget, drained: seq<Key>, now: SurfaceMap) {
    Collected(s, left, target, drained) && now == AnsweredBut(s.surfaces, left, target)
  }

  lemma DrainNone(s: State, target: FrameTarget)
    ensures Drained(s, s.surfaces.Keys, target, [], s.surfaces)
  {
    assert AnsweredBut(s.surfaces, s.surfaces.Keys, target) == s.surfaces;
    assert Visited(s.surfaces, s.surfaces.Keys) == map[];
  }

  lemma DrainedEverything(s: State, target: FrameTarget, drained: seq<Key>, now: SurfaceMap)
    requires Drained(s, {}, target, drained, now)
    ensures now == FireStep(s, target).surfaces
    ensures Distinct(drained) && forall x :: x in drained <==> x in AnsweredIds(s.surfaces, target)
  {
    assert Visited(s.surfaces, {}) == s.surfaces;
  }

  function Batch(m: SurfaceMap, k: Key, target: FrameTarget): seq<Key>
    requires k in m
  {
    if Covered(m[k], target) then Ids(k.client, m[k].callbacks) else []
  }

  lemma BatchMembers(m: SurfaceMap, k: Key, target: FrameTarget, x: Key)
    requires k in m
    ensures x in Batch(m, k, target) <==> Covered(m[k], target) && x.client == k.client && x.id in m[k].callbacks
  {
    if Covered(m[k], target) && x.client == k.client && x.id in m[k].callbacks {
      var i :| 0 <= i < |m[k].callbacks| && m[k].callbacks[i] == x.id;
      assert Batch(m, k, target)[i] == x;
    }
  }

  lemma BatchIsNew(s: State, left: set<Key>, k: Key, target: FrameTarget, x: Key)
    requires CallbacksHeld(s) && k in left && left <= s.surfaces.Keys
    requires x in AnsweredIds(Visited(s.surfaces, left), target)
    ensures x !in Batch(s.surfaces, k, target)
  {
    CallbacksDistinct(s, k);
    BatchMembers(s.surfaces, k, target, x);
    var j, id :| j in Visited(s.surfaces, left) && Covered(s.surfaces[j], target)
      && id in s.surfaces[j].callbacks && x == Key(j.client, id);
    CallbacksDistinct(s, j);
  }

  lemma VisitOne(s: State, left: set<Key>, k: Key, target: FrameTarget, drained: seq<Key>)
    requires CallbacksHeld(s) && k in left && left <= s.surfaces.Keys && Collected(s, left, target, drained)
    ensures Collected(s, left - {k}, target, drained + Batch(s.surfaces, k, target))
  {
    var more := Batch(s.surfaces, k, target);
    CallbacksDistinct(s, k);
    forall x | x in drained ensures x !in more { BatchIsNew(s, left, k, target, x); }
    DistinctConcat(drained, more);
    VisitedMore(s.surfaces, left, k, target);
    forall x
      ensures x in more <==> Covered(s.surfaces[k], target) && x.client == k.client && x.id in s.surfaces[k].callbacks
    {
      BatchMembers(s.surfaces, k, target, x);
    }
  }

  lemma AnsweredStep(m: SurfaceMap, left: set<Key>, k: Key, target: FrameTarget)
    requires k in left && left <= m.Keys
    ensures AnsweredBut(m, left, target)[k] == m[k]
    ensures AnsweredBut(m, left - {k}, target) ==
      if Covered(m[k], target) then AnsweredBut(m, left, target)[k := Answered(m[k])] else AnsweredBut(m, left, target)
  {}

  lemma VisitedMore(m: SurfaceMap, left: set<Key>, k: Key, target: FrameTarget)
    requires k in left && left <= m.Keys
    ensures forall x :: x in AnsweredIds(Visited(m, left - {k}), target) <==>
      x in AnsweredIds(Visited(m, left), target)
      || (Covered(m[k], target) && x.client == k.client && x.id in m[k].callbacks)
  {
    forall x: Key | Covered(m[k], target) && x.client == k.client && x.id in m[k].callbacks
      ensures x in AnsweredIds(Visited(m, left - {k}), target)
    {
      assert x == Key(k.client, x.id) && k in Visited(m, left - {k});
    }
  }
}
