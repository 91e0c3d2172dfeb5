/** What the surface machine promises clients, read off its invariant. */
module SurfaceTheorems {
  import opened Base
  import opened Links
  import opened Descent
  import opened Surfaces
  import opened Forest
  import opened Cascade
  import opened Sweep
  import opened SurfaceMachine
  import opened SurfaceRuns

  // ----- Frame callbacks -----

  /**
   A frame answers each committed callback of a covered surface while its id still names that
   callback, forgets the id, and answers no other. Two surfaces never share one.
   */
  lemma FrameAnswersLiveCallbacks(s: State, target: FrameTarget, k: Key, id: nat)
    requires Inv(s) && k in s.surfaces && id in s.surfaces[k].callbacks && Covered(s.surfaces[k], target)
    ensures Key(k.client, id) in s.objects && s.objects[Key(k.client, id)] == CallbackObject(k)
    ensures Key(k.client, id) !in FireStep(s, target).objects
    ensures FireStep(s, target).surfaces[k].answered == s.surfaces[k].answered + s.surfaces[k].callbacks
    ensures multiset(s.surfaces[k].callbacks)[id] == 1
    ensures forall j :: j in s.surfaces && j.client == k.client && j != k ==> id !in Outstanding(s.surfaces[j])
  {
    assert Owned(s.objects, k, s.surfaces[k]);
    var all := multiset(Outstanding(s.surfaces[k]));
    assert all == multiset(s.surfaces[k].callbacks)
               + multiset(Cached(s.surfaces[k]).callbacks) + multiset(s.surfaces[k].pending.callbacks);
    assert id in all;
    assert Key(k.client, id) in AnsweredIds(s.surfaces, target);
    forall j | j in s.surfaces && j.client == k.client && j != k
      ensures id !in multiset(Outstanding(s.surfaces[j]))
    {
      assert Owned(s.objects, j, s.surfaces[j]);
    }
  }

  /** No callback is answered more often than it was asked for. */
  lemma AnsweredAtMostAsked(s: State, k: Key)
    requires Inv(s) && k in s.surfaces
    ensures multiset(s.surfaces[k].answered) <= multiset(s.surfaces[k].asked)
  {
    assert Conserved(s.surfaces[k]);
  }

  /**
   After any run, what was ever asked for on a living surface is what was answered, what waits on it
   committed, cached or pending, and what went with a refused commit: no more, no less, and what waits
   waits once.
   */
  lemma CallbacksConserved(events: seq<Event>, t: State, k: Key)
    requires Runs(INITIAL, events, t) && k in t.surfaces
    ensures var a := t.surfaces[k];
      && multiset(a.asked) == multiset(a.answered) + multiset(Outstanding(a)) + multiset(a.dropped)
      && forall id :: id in multiset(Outstanding(a)) ==>
           multiset(Outstanding(a))[id] == 1 && Key(k.client, id) in t.objects
             && t.objects[Key(k.client, id)] == CallbackObject(k)
  {
    EveryRunIsSound(events, t);
    assert Conserved(t.surfaces[k]) && Owned(t.objects, k, t.surfaces[k]);
  }

  /** After any run, whatever ids were reused on the way, the ancestor check is exact. */
  lemma AncestorsExactInRuns(events: seq<Event>, t: State, client: nat, surface: nat, candidate: nat)
    requires Runs(INITIAL, events, t)
    ensures Rooted(t.surfaces)
    ensures IsAncestorOf(t.surfaces, client, surface, candidate)
      <==> Above(ParentsOf(t.surfaces), Key(client, surface), Key(client, candidate))
  {
    EveryRunIsSound(events, t);
    IsAncestorExact(t.surfaces, client, surface, candidate);
  }

  // ----- Buffer releases -----

  lemma {:induction false} ReleasedEventsMean(s: State, order: seq<Key>, e: BufferEvent)
    ensures e in ReleasedEvents(s, order) <==> e.Released? && e.buffer in order && e.buffer in s.buffers
  {
    if order != [] {
      var front, last := order[..|order| - 1], order[|order| - 1];
      ReleasedEventsMean(s, front, e);
      assert order == front + [last];
    }
  }

  /** A tick releases a buffer only if it exists, is named as a buffer, is on no surface and is read by nobody. */
  lemma ReleaseIsSafe(s: State, order: seq<Key>, e: BufferEvent)
    requires Inv(s) && Drains(StartStep(s), order)
    requires e in ReleasedEvents(StartStep(s), order)
    ensures e.Released?
    ensures e.buffer in s.buffers && Names(s, e.buffer, BufferObject)
    ensures e.buffer !in s.readers && !Attached(s.surfaces, e.buffer)
    ensures Queued(s, e.buffer)
  {
    ReleasedEventsMean(StartStep(s), order, e);
    assert Free(StartStep(s), e.buffer);
  }

  lemma {:induction false} LastEventAt(log: seq<BufferEvent>, b: Key) returns (l: nat)
    requires LastEvent(log, b).Some?
    ensures l < |log| && log[l] == LastEvent(log, b).value && log[l].buffer == b
    ensures forall i :: l < i < |log| ==> log[i].buffer != b || log[i].Made?
  {
    l := |log| - 1;
    if log[l].buffer != b || log[l].Made? {
      l := LastEventAt(log[..|log| - 1], b);
    }
  }

  /** Between two releases of one buffer there is a commit that displaced it. */
  lemma ReleasesSeparated(log: seq<BufferEvent>, i: nat, j: nat)
    requires ReleasesEarned(log) && i < j < |log|
    requires log[i].Released? && log[j] == log[i]
    ensures exists l :: i < l < j && log[l] == Replaced(log[i].buffer)
  {
    var l := LastEventAt(log[..j], log[i].buffer);
    assert log[..j][l] == log[l] && log[..j][i] == log[i];
  }

  /** In particular after any run. */
  lemma ReleasesSeparatedInRuns(events: seq<Event>, t: State, i: nat, j: nat)
    requires Runs(INITIAL, events, t) && i < j < |t.log| && t.log[i].Released? && t.log[j] == t.log[i]
    ensures exists l :: i < l < j && t.log[l] == Replaced(t.log[i].buffer)
  {
    EveryRunIsSound(events, t);
    ReleasesSeparated(t.log, i, j);
  }

  /** A queued buffer nobody reads and no surface shows is released by the very next tick. */
  lemma QueuedIsReleased(s: State, order: seq<Key>, b: Key)
    requires Drains(StartStep(s), order)
    requires Queued(s, b) && b in s.buffers && b !in s.readers && !Attached(s.surfaces, b)
    ensures Released(b) in ReleasedEvents(StartStep(s), order)
    ensures !Queued(TickStep(s, order), b)
  {
    assert Free(StartStep(s), b);
    ReleasedEventsMean(StartStep(s), order, Released(b));
  }

  /** And one that is still being read stays queued across the tick. */
  lemma ReadStaysQueued(s: State, order: seq<Key>, b: Key)
    requires Queued(s, b) && b in s.readers && !Attached(s.surfaces, b)
    ensures Queued(TickStep(s, order), b)
  {
    assert !Free(StartStep(s), b);
  }

  ghost predicate KeepsQueue(s: State, t: State) {
    && (forall b :: b in s.pendingRelease ==> b in t.pendingRelease)
    && s.releasing <= t.releasing
  }

  lemma CommitKeepsQueue(s: State, r: Request, order: seq<Key>)
    requires Enabled(s, r, order) && (r.Commit? || r.DestroySubsurface? || r.SetSync?)
    requires Inv(s)
    ensures KeepsQueue(s, Step(s, r, order))
  {
    match r
    case Commit(k, configured) =>
      CommitDisplaces(s, k, configured);
    case DestroySubsurface(k) =>
      if k in s.subsurfaces {
        var surface := Key(k.client, s.subsurfaces[k]);
        FlushDisplaces(s.(surfaces := UnlinkSubsurface(s.surfaces, surface), subsurfaces := s.subsurfaces - {k}),
          surface);
      }
    case SetSync(k, sync) =>
      if Starts(s, r).Some? {
        var surface := Key(k.client, s.subsurfaces[k]);
        FlushDisplaces(s.(surfaces := Resync(s.surfaces, surface, sync)), surface);
      }
    case _ =>
  }

  lemma CommitDisplaces(s: State, k: Key, configured: bool)
    requires Completes(s, Commit(k, configured))
    ensures OnlyDisplaces(s, CommitStep(s, k, configured))
  {
    if k in s.surfaces {
      CommitCases(s, k, configured);
      if TooEarly(s.surfaces[k], configured) || Synced(s.surfaces, k) {
        NothingDisplaced(s, CommitStep(s, k, configured));
      } else {
        PassCommitDisplaces(s, k);
      }
    } else {
      NothingDisplaced(s, s);
    }
  }

  /**
   A displaced buffer on no surface stays queued through every step until it is released, or
   destroyed by its client or with it.
   */
  lemma QueuedUntilReleased(s: State, r: Request, order: seq<Key>, b: Key)
    requires Inv(s) && Enabled(s, r, order)
    requires Queued(s, b) && b in s.buffers && !Attached(s.surfaces, b)
    ensures var t := Step(s, r, order);
      || Queued(t, b)
      || (r.Tick? && Released(b) in ReleasedEvents(StartStep(s), order))
      || ((r.DestroyBuffer? || r.Disconnect?) && b !in t.buffers)
  {
    if r.Commit? || r.DestroySubsurface? || r.SetSync? {
      CommitKeepsQueue(s, r, order);
    } else if r.Tick? {
      if b in s.readers { ReadStaysQueued(s, order, b); } else { QueuedIsReleased(s, order, b); }
    } else if r.Disconnect? {
      OthersOfMembers(s.pendingRelease, r.client);
    } else {
      QuietQueue(s, r, order, b);
    }
  }

  lemma QuietQueue(s: State, r: Request, order: seq<Key>, b: Key)
    requires Inv(s) && Enabled(s, r, order) && Queued(s, b) && b in s.buffers
    requires !r.Commit? && !r.DestroySubsurface? && !r.SetSync? && !r.Tick? && !r.Disconnect?
    ensures var t := Step(s, r, order); Queued(t, b) || (r.DestroyBuffer? && b !in t.buffers)
  {
    assert Names(s, b, BufferObject);
  }

  /** `b` exists and is on no surface, now and after every step of the run. */
  ghost predicate Loose(s: State, events: seq<Event>, b: Key)
    decreases |events|
  {
    && b in s.buffers && !Attached(s.surfaces, b)
    && (events != [] && Enabled(s, events[0].request, events[0].order)
        ==> Loose(Step(s, events[0].request, events[0].order), events[1..], b))
  }

  /** So over any run that leaves it loose, a displaced buffer is released or still waiting to be. */
  lemma {:induction false} LooseIsReleasedOrWaiting(s: State, events: seq<Event>, t: State, b: Key) returns (n: nat)
    requires Inv(s) && Runs(s, events, t) && Loose(s, events, b) && Queued(s, b)
    ensures Queued(t, b) || ReleasedAt(s, events, n, b)
    decreases |events|
  {
    n := 0;
    if events != [] {
      var r, order := events[0].request, events[0].order;
      var next := Step(s, r, order);
      StepKeepsInv(s, r, order);
      QueuedUntilReleased(s, r, order, b);
      if Queued(next, b) {
        n := LooseIsReleasedOrWaiting(next, events[1..], t, b);
        n := n + 1;
      }
    }
  }

  /** The `n`th step of the run is a tick that releases `b`. */
  ghost predicate ReleasedAt(s: State, events: seq<Event>, n: nat, b: Key)
    decreases n
  {
    && n < |events| && Enabled(s, events[0].request, events[0].order)
    && if n == 0 then events[0].request.Tick? && Released(b) in ReleasedEvents(StartStep(s), events[0].order)
       else ReleasedAt(Step(s, events[0].request, events[0].order), events[1..], n - 1, b)
  }

  lemma PassQueuesDisplaced(s: State, k: Key, j: Key, b: nat)
    requires Settles(s.surfaces, k) && k in s.surfaces && Shown(s.surfaces, j, b)
    ensures Shown(PassCommit(s, k).surfaces, j, b) || Key(j.client, b) in PassCommit(s, k).pendingRelease
  {
    SameLinksSameGraph(s.surfaces, WithoutPending(s.surfaces, k));
    SweepDisplaces(WithoutPending(s.surfaces, k), k, s.surfaces[k].pending, j, b);
  }

  /** Every buffer a commit takes off a surface is queued, whichever surface the drain met it on. */
  lemma CommitQueuesDisplaced(s: State, k: Key, configured: bool, j: Key, b: nat)
    requires Completes(s, Commit(k, configured)) && Shown(s.surfaces, j, b)
    ensures var t := CommitStep(s, k, configured); Shown(t.surfaces, j, b) || Queued(t, Key(j.client, b))
  {
    if k in s.surfaces {
      CommitCases(s, k, configured);
      if !TooEarly(s.surfaces[k], configured) && !Synced(s.surfaces, k) { PassQueuesDisplaced(s, k, j, b); }
    }
  }

  // ----- Sound child lists -----

  /** The one thing a link has to respect for child lists to go on meaning anything. */
  predicate LinkRespected(s: State, r: Request) {
    match r
    case GetSubsurface(k, surface, parent, otherRole) =>
      GetSubsurfaceStep(s, k, surface, parent, otherRole) == s || LinkFits(s.surfaces, Key(k.client, surface), parent)
    case GetPopup(k, xdg, parentXdg, at) =>
      var own, above := Key(k.client, xdg), Key(k.client, parentXdg);
      own in s.xdgSurfaces && above in s.xdgSurfaces && GetPopupStep(s, k, xdg, parentXdg, at) != s
      ==> LinkFits(s.surfaces, Key(k.client, s.xdgSurfaces[own]), s.xdgSurfaces[above])
    case _ => true
  }

  lemma SubsurfaceListsExact(s: State, r: Request)
    requires Inv(s) && ListsSound(s.surfaces) && r.GetSubsurface?
    ensures ListsSound(GetSubsurfaceStep(s, r.k, r.surface, r.parent, r.otherRole).surfaces) <==> LinkRespected(s, r)
  {
    ListsAfterLink(s.surfaces, Key(r.k.client, r.surface), r.parent, Point(0, 0));
  }

  /** What `get_popup` does to the surfaces: one link, if both ends are wrapped and it is let through. */
  lemma PopupLinks(s: State, k: Key, xdg: nat, parentXdg: nat, at: Point)
    ensures var own, above, t := Key(k.client, xdg), Key(k.client, parentXdg), GetPopupStep(s, k, xdg, parentXdg, at);
      t.surfaces == if own in s.xdgSurfaces && above in s.xdgSurfaces && t != s
        then LinkPopup(s.surfaces, Key(k.client, s.xdgSurfaces[own]), s.xdgSurfaces[above], at) else s.surfaces
  {}

  lemma PopupListsExact(s: State, r: Request)
    requires ListsSound(s.surfaces) && r.GetPopup?
    ensures ListsSound(GetPopupStep(s, r.k, r.xdg, r.parentXdg, r.at).surfaces) <==> LinkRespected(s, r)
  {
    var own, above := Key(r.k.client, r.xdg), Key(r.k.client, r.parentXdg);
    PopupLinks(s, r.k, r.xdg, r.parentXdg, r.at);
    if own in s.xdgSurfaces && above in s.xdgSurfaces {
      ListsAfterLink(s.surfaces, Key(r.k.client, s.xdgSurfaces[own]), s.xdgSurfaces[above], r.at);
    }
  }

  lemma AdoptListsSound(s: State, layer: Key, popup: nat, at: Point)
    requires ListsSound(s.surfaces)
    ensures ListsSound(AdoptPopupStep(s, layer, popup, at).surfaces)
  {
    if AdoptPopupStep(s, layer, popup, at) != s {
      ListsAfterLink(s.surfaces, PopupSurface(s, Key(layer.client, popup)).value, s.layers[layer], at);
    }
  }

  lemma SameListsSound(m: SurfaceMap, n: SurfaceMap)
    requires ListsSound(m) && n.Keys == m.Keys
    requires forall k :: k in m ==> n[k].parent == m[k].parent && n[k].children == m[k].children
    ensures ListsSound(n)
  {
    forall k | k in n ensures ListSound(n, k) { assert ListSound(m, k); }
  }

  lemma FlushListsSound(s: State, k: Key)
    requires Settles(s.surfaces, k) && ListsSound(s.surfaces)
    ensures ListsSound(Flush(s, k).surfaces)
  {
    SameLinksSameGraph(s.surfaces, WithoutCache(s.surfaces, k));
    SweepKeepsLinks(WithoutCache(s.surfaces, k), k, CacheOf(s.surfaces, k));
    SameListsSound(s.surfaces, Flush(s, k).surfaces);
  }

  lemma PassListsSound(s: State, k: Key)
    requires Settles(s.surfaces, k) && k in s.surfaces && ListsSound(s.surfaces)
    ensures ListsSound(PassCommit(s, k).surfaces)
  {
    SameLinksSameGraph(s.surfaces, WithoutPending(s.surfaces, k));
    SweepKeepsLinks(WithoutPending(s.surfaces, k), k, s.surfaces[k].pending);
    SameListsSound(s.surfaces, PassCommit(s, k).surfaces);
  }

  lemma EditListsSound(m: SurfaceMap, k: Key, a: Surface)
    requires ListsSound(m) && k in m && a.parent == m[k].parent && a.children == m[k].children
    ensures ListsSound(m[k := a])
  {
    SameListsSound(m, m[k := a]);
  }

  lemma CommitStepListsSound(s: State, k: Key, configured: bool)
    requires Completes(s, Commit(k, configured)) && ListsSound(s.surfaces)
    ensures ListsSound(CommitStep(s, k, configured).surfaces)
  {
    if k in s.surfaces {
      CommitCases(s, k, configured);
      if TooEarly(s.surfaces[k], configured) {
        EditListsSound(s.surfaces, k, Refused(s.surfaces[k]));
      } else if Synced(s.surfaces, k) {
        EditListsSound(s.surfaces, k, CachedCommit(s.surfaces[k]));
      } else {
        PassListsSound(s, k);
      }
    }
  }

  lemma CommitListsSound(s: State, r: Request, order: seq<Key>)
    requires Enabled(s, r, order) && (r.Commit? || r.DestroySubsurface? || r.SetSync?) && ListsSound(s.surfaces)
    ensures ListsSound(Step(s, r, order).surfaces)
  {
    match r
    case Commit(k, configured) => CommitStepListsSound(s, k, configured);
    case DestroySubsurface(k) =>
      if k in s.subsurfaces {
        var surface := Key(k.client, s.subsurfaces[k]);
        ListsAfterUnlink(s.surfaces, surface);
        FlushListsSound(s.(surfaces := UnlinkSubsurface(s.surfaces, surface), subsurfaces := s.subsurfaces - {k}),
          surface);
      }
    case SetSync(k, sync) =>
      if k in s.subsurfaces {
        var surface := Key(k.client, s.subsurfaces[k]);
        SameListsSound(s.surfaces, Resync(s.surfaces, surface, sync));
        if Starts(s, r).Some? { FlushListsSound(s.(surfaces := Resync(s.surfaces, surface, sync)), surface); }
      }
    case _ =>
  }

  lemma DestroyPopupListsSound(s: State, k: Key)
    requires ListsSound(s.surfaces)
    ensures ListsSound(DestroyPopupStep(s, k).surfaces)
  {
    if PopupSurface(s, k).Some? { ListsAfterUnlinkPopup(s.surfaces, PopupSurface(s, k).value); }
  }

  lemma UnlinkingListsSound(s: State, r: Request, order: seq<Key>)
    requires Inv(s) && ListsSound(s.surfaces) && Enabled(s, r, order)
    requires r.CreateSurface? || r.DestroySurface? || r.PlaceSubsurface? || r.DestroyPopup? || r.Disconnect?
      || r.AdoptPopup?
    ensures ListsSound(Step(s, r, order).surfaces)
  {
    var m := s.surfaces;
    if r.CreateSurface? { if r.k !in m { ListsAfterCreate(m, r.k); } }
    else if r.DestroySurface? { if r.k in m { ListsAfterDestroy(m, r.k); } }
    else if r.PlaceSubsurface? {
      if r.k in s.subsurfaces { ListsAfterPlace(m, Key(r.k.client, s.subsurfaces[r.k]), r.sibling, r.above); }
    }
    else if r.DestroyPopup? { DestroyPopupListsSound(s, r.k); }
    else if r.AdoptPopup? { AdoptListsSound(s, r.layer, r.popup, r.at); }
    else { ListsAfterRemoveClient(m, r.client); }
  }

  lemma FireListsSound(s: State, target: FrameTarget)
    requires ListsSound(s.surfaces)
    ensures ListsSound(FireStep(s, target).surfaces)
  {
    SameListsSound(s.surfaces, FireStep(s, target).surfaces);
  }

  lemma EditingListsSound(s: State, r: Request, order: seq<Key>)
    requires Inv(s) && ListsSound(s.surfaces) && Enabled(s, r, order)
    requires r.SetSubsurfacePosition? || r.Attach? || r.Frame? || r.ShowOn? || r.FireCallbacks?
    ensures ListsSound(Step(s, r, order).surfaces)
  {
    var t := Step(s, r, order);
    if r.FireCallbacks? {
      FireListsSound(s, r.target);
    } else if t != s {
      var k := if r.SetSubsurfacePosition? then Key(r.k.client, s.subsurfaces[r.k]) else r.k;
      EditListsSound(s.surfaces, k, t.surfaces[k]);
    }
  }

  /** Sound child lists stay sound through every step but a link that is not respected, and never through that. */
  lemma ListsStaySoundExactly(s: State, r: Request, order: seq<Key>)
    requires Inv(s) && ListsSound(s.surfaces) && Enabled(s, r, order)
    ensures ListsSound(Step(s, r, order).surfaces) <==> LinkRespected(s, r)
  {
    if r.GetSubsurface? { SubsurfaceListsExact(s, r); }
    else if r.GetPopup? { PopupListsExact(s, r); }
    else if r.Commit? || r.DestroySubsurface? || r.SetSync? { CommitListsSound(s, r, order); }
    else if r.CreateSurface? || r.DestroySurface? || r.PlaceSubsurface? || r.DestroyPopup? || r.Disconnect?
      || r.AdoptPopup? {
      UnlinkingListsSound(s, r, order);
    } else if r.SetSubsurfacePosition? || r.Attach? || r.Frame? || r.ShowOn? || r.FireCallbacks? {
      EditingListsSound(s, r, order);
    } else if r.CreateBuffer? || r.DestroyBuffer? || r.BeginRead? || r.EndRead? || r.Tick? {
      UntouchedSurfaces(s, r, order);
    } else {
      UntouchedByRoles(s, r, order);
    }
  }

  lemma UntouchedSurfaces(s: State, r: Request, order: seq<Key>)
    requires Enabled(s, r, order)
    requires r.CreateBuffer? || r.DestroyBuffer? || r.BeginRead? || r.EndRead? || r.Tick?
    ensures Step(s, r, order).surfaces == s.surfaces
  {
    match r
    case CreateBuffer(k) => assert Step(s, r, order) == CreateBufferStep(s, k);
    case DestroyBuffer(k) => assert Step(s, r, order) == DestroyBufferStep(s, k);
    case BeginRead(k) => assert Step(s, r, order) == BeginReadStep(s, k);
    case Tick => assert Step(s, r, order) == TickStep(s, order);
    case _ =>
  }

  lemma UntouchedByRoles(s: State, r: Request, order: seq<Key>)
    requires Enabled(s, r, order)
    requires r.GetXdgSurface? || r.DestroyXdgSurface? || r.GetLayerSurface? || r.DestroyLayerSurface?
    ensures Step(s, r, order).surfaces == s.surfaces
  {}

  /** A run whose every link is respected. */
  ghost predicate Respectful(s: State, events: seq<Event>)
    decreases |events|
  {
    events != [] && Enabled(s, events[0].request, events[0].order) ==>
      LinkRespected(s, events[0].request) && Respectful(Step(s, events[0].request, events[0].order), events[1..])
  }

  /** Over such a run the forest can always be walked downwards, as commits and drawing do. */
  lemma {:induction false} RespectfulRunsStayFine(s: State, events: seq<Event>, t: State)
    requires Inv(s) && ListsSound(s.surfaces) && Runs(s, events, t) && Respectful(s, events)
    ensures Inv(t) && Fine(t.surfaces)
    decreases |events|
  {
    if events != [] {
      var r, order := events[0].request, events[0].order;
      StepKeepsInv(s, r, order);
      ListsStaySoundExactly(s, r, order);
      RespectfulRunsStayFine(Step(s, r, order), events[1..], t);
    }
  }

  // ----- What comes back -----

  lemma StartsRooted(s: State, r: Request)
    requires Rooted(s.surfaces) && Starts(s, r).Some?
    ensures Rooted(Starts(s, r).value.surfaces)
  {
    if r.DestroySubsurface? {
      var surface := Key(r.k.client, s.subsurfaces[r.k]);
      LinksAfterUnlink(s.surfaces, surface);
      FewerLinksRooted(s.surfaces, UnlinkSubsurface(s.surfaces, surface));
    } else if r.SetSync? {
      ResyncRooted(s.surfaces, Key(r.k.client, s.subsurfaces[r.k]), r.sync);
    }
  }

  /**
   A handler comes back exactly when it drains nothing, or no way down from where it starts, over
   the synchronised children listed, meets a surface twice.
   */
  lemma CompletesExactly(s: State, r: Request)
    requires Inv(s)
    ensures Starts(s, r).Some? ==> Rooted(Starts(s, r).value.surfaces)
    ensures Completes(s, r)
      <==> Starts(s, r).None? || !Loops(SyncedGraph(Starts(s, r).value.surfaces), Starts(s, r).value.from)
  {
    if Starts(s, r).Some? {
      StartsRooted(s, r);
      HaltsIffNoLoop(SyncedGraph(Starts(s, r).value.surfaces), Starts(s, r).value.from);
    }
  }

  lemma {:induction false} Enumerated(s: set<Key>) returns (list: seq<Key>)
    ensures Distinct(list) && forall x :: x in list <==> x in s
    decreases s
  {
    list := [];
    if s != {} {
      var x :| x in s;
      var rest := Enumerated(s - {x});
      DistinctConcat(rest, [x]);
      list := rest + [x];
    }
  }

  /** And whatever comes back is a step of a run: nothing else is left out of them. */
  lemma EveryRequestIsAStep(s: State, r: Request) returns (order: seq<Key>)
    requires Inv(s) && Completes(s, r)
    ensures Enabled(s, r, order)
  {
    var free := set b | b in StartStep(s).releasing && Free(StartStep(s), b);
    order := Enumerated(free);
  }

  /** Where child lists are sound everything comes back, and drawing and hit testing end. */
  lemma FineCompletes(s: State, r: Request, k: Key)
    requires Fine(s.surfaces)
    ensures Completes(s, r) && EndsBelow(s.surfaces, k)
  {
    FineEnds(s.surfaces, k);
    if Starts(s, r).Some? {
      var m := Starts(s, r).value.surfaces;
      StartsRooted(s, r);
      if r.DestroySubsurface? { ListsAfterUnlink(s.surfaces, Key(r.k.client, s.subsurfaces[r.k])); }
      else { SameListsSound(s.surfaces, m); }
      FineEnds(m, Starts(s, r).value.from);
    }
  }

  /** So while every link has been respected, no request of any client goes without coming back. */
  lemma RespectfulRunsComplete(events: seq<Event>, t: State, r: Request, k: Key)
    requires Runs(INITIAL, events, t) && Respectful(INITIAL, events)
    ensures Completes(t, r) && EndsBelow(t.surfaces, k)
  {
    RespectfulRunsStayFine(INITIAL, events, t);
    FineCompletes(t, r, k);
  }
}
