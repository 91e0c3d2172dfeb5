/** What a commit leaves on the surfaces it reaches, and what a client sees of what it asked for. */
module CommitTheorems {
  import opened Base
  import opened Links
  import opened Surfaces
  import opened Forest
  import opened Cascade
  import opened Sweep
  import opened FineSweep
  import opened SurfaceMachine
  import opened SurfaceRuns

  // ----- Held back, and applied -----

  /** What is cached on a surface is these commits, one after another. */
  ghost predicate Holding(a: Surface, held: seq<Pending>) { Cached(a) == CacheAll(held) }

  /** Only content waits for a configure to be acknowledged. */
  predicate MayShow(a: Surface, configured: bool) { a.pending.bufferId.None? || configured }

  /** Content before its time is refused, and everything pending goes with it, the callbacks lost with the rest. */
  lemma RefusedWhole(s: State, k: Key)
    requires Rooted(s.surfaces) && k in s.surfaces && !MayShow(s.surfaces[k], false)
    ensures Completes(s, Commit(k, false))
    ensures var a, t := s.surfaces[k], CommitStep(s, k, false);
      && t == s.(surfaces := t.surfaces) && t.surfaces.Keys == s.surfaces.Keys
      && (forall x :: x in s.surfaces && x != k ==> t.surfaces[x] == s.surfaces[x])
      && t.surfaces[k] == a.(pending := NOTHING_PENDING, dropped := a.dropped + a.pending.callbacks)
  {}

  /** A synchronised commit is held behind those held already, and nothing of it shows. */
  lemma HeldNext(s: State, k: Key, configured: bool, held: seq<Pending>)
    requires Rooted(s.surfaces) && k in s.surfaces && Holding(s.surfaces[k], held)
    requires MayShow(s.surfaces[k], configured) && Synced(s.surfaces, k)
    ensures Completes(s, Commit(k, configured))
    ensures var t := CommitStep(s, k, configured);
      && t == s.(surfaces := t.surfaces) && t.surfaces.Keys == s.surfaces.Keys
      && (forall x :: x in s.surfaces && x != k ==> t.surfaces[x] == s.surfaces[x])
      && Holding(t.surfaces[k], held + [s.surfaces[k].pending])
      && t.surfaces[k] == s.surfaces[k].(pending := NOTHING_PENDING, cached := t.surfaces[k].cached)
  {
    assert (held + [s.surfaces[k].pending])[..|held|] == held;
  }

  /** What a commit that applies at once leaves of one surface. */
  ghost predicate Reached(m: SurfaceMap, k: Key, x: Key, held: seq<Pending>, after: SurfaceMap)
    requires Rooted(m) && k in m && x in m && x in after
  {
    if x == k then Shows(m[k].(pending := NOTHING_PENDING), [m[k].pending], after[k])
    else if InCascade(m, k, x) then Shows(m[x].(cached := None), held, after[x])
    else after[x] == m[x]
  }

  lemma AppliedAlone(a: Surface, p: Pending)
    ensures Shows(a, [p], Apply(a, p))
  {
    CommitsShow(a, [p]);
    assert [p][..0] == [] && ApplyAll(a, []) == a;
  }

  /** The surfaces a commit that applies at once leaves. */
  ghost function AfterPass(m: SurfaceMap, k: Key): SurfaceMap
    requires Rooted(m) && k in m
  {
    SameLinksSameShape(m, WithoutPending(m, k));
    AfterCascade(WithoutPending(m, k), k, m[k].pending)
  }

  lemma PassIs(s: State, k: Key)
    requires Fine(s.surfaces) && k in s.surfaces && Settles(s.surfaces, k)
    ensures var t := PassCommit(s, k);
      && t == s.(surfaces := t.surfaces, pendingRelease := t.pendingRelease, log := t.log)
      && t.surfaces == AfterPass(s.surfaces, k)
  {
    var now := WithoutPending(s.surfaces, k);
    SameLinksSameGraph(s.surfaces, now);
    SameLinksSameShape(s.surfaces, now);
    FineSweeps(now, k, s.surfaces[k].pending);
  }

  lemma PassReaches(m: SurfaceMap, k: Key, x: Key, held: seq<Pending>)
    requires Rooted(m) && k in m && x in m && (x != k ==> Holding(m[x], held))
    ensures AfterPass(m, k).Keys == m.Keys && Reached(m, k, x, held, AfterPass(m, k))
  {
    var now := WithoutPending(m, k);
    SameLinksSameShape(m, now);
    SameCascade(m, now, k, x);
    if x == k {
      AppliedAlone(now[k], m[k].pending);
    } else {
      HeldCommitsShow(m[x].(cached := None), held);
    }
  }

  /** A commit that applies: neither refused nor held back. */
  ghost predicate Passes(s: State, k: Key, configured: bool) {
    Fine(s.surfaces) && k in s.surfaces && MayShow(s.surfaces[k], configured) && !Synced(s.surfaces, k)
  }

  lemma PassCompletes(s: State, k: Key, configured: bool)
    requires Passes(s, k, configured)
    ensures Settles(s.surfaces, k) && Completes(s, Commit(k, configured))
  {
    FineEnds(s.surfaces, k);
  }

  lemma CommitPasses(s: State, k: Key, configured: bool)
    requires Passes(s, k, configured)
    ensures Settles(s.surfaces, k) && Completes(s, Commit(k, configured))
    ensures CommitStep(s, k, configured) == PassCommit(s, k)
  {
    PassCompletes(s, k, configured);
    CommitCases(s, k, configured);
  }

  /**
   A commit that applies at once shows what was pending on its surface, and with it, on each surface synchronised
   with it all the way down, all that was held there: every field as the last of the held commits to set it set it.
   Nothing else changes.
   */
  lemma CommitReaches(s: State, k: Key, configured: bool, x: Key, held: seq<Pending>)
    requires Passes(s, k, configured) && x in s.surfaces && (x != k ==> Holding(s.surfaces[x], held))
    ensures Completes(s, Commit(k, configured))
    ensures var t := CommitStep(s, k, configured);
      t.surfaces.Keys == s.surfaces.Keys && Reached(s.surfaces, k, x, held, t.surfaces)
  {
    CommitPasses(s, k, configured);
    PassIs(s, k);
    PassReaches(s.surfaces, k, x, held);
  }

  /** What a surface freed from above shows, and with it what is synchronised with it all the way down. */
  ghost predicate Freed(m: SurfaceMap, k: Key, x: Key, held: seq<Pending>, after: SurfaceMap)
    requires Rooted(m) && k in m && x in m && x in after
  {
    if InCascade(m, k, x) then Shows(m[x].(cached := None), held, after[x]) else after[x] == m[x]
  }

  /** The surfaces once what one of them holds has been applied. */
  ghost function AfterFlush(m: SurfaceMap, k: Key): SurfaceMap
    requires Rooted(m) && k in m
  {
    SameLinksSameShape(m, WithoutCache(m, k));
    AfterCascade(WithoutCache(m, k), k, CacheOf(m, k))
  }

  lemma FlushIs(s: State, k: Key)
    requires Fine(s.surfaces) && k in s.surfaces
    ensures Settles(s.surfaces, k)
    ensures var t := Flush(s, k);
      && t == s.(surfaces := t.surfaces, pendingRelease := t.pendingRelease, log := t.log)
      && t.surfaces == AfterFlush(s.surfaces, k)
  {
    var now := WithoutCache(s.surfaces, k);
    FineEnds(s.surfaces, k);
    SameLinksSameGraph(s.surfaces, now);
    SameLinksSameShape(s.surfaces, now);
    FineSweeps(now, k, CacheOf(s.surfaces, k));
  }

  lemma FlushReaches(m: SurfaceMap, k: Key, x: Key, held: seq<Pending>)
    requires Rooted(m) && k in m && x in m && Holding(m[x], held)
    ensures AfterFlush(m, k).Keys == m.Keys && Freed(m, k, x, held, AfterFlush(m, k))
  {
    var now := WithoutCache(m, k);
    SameLinksSameShape(m, now);
    SameCascade(m, now, k, x);
    HeldCommitsShow(m[x].(cached := None), held);
  }

  function SurfaceOf(s: State, k: Key): Key
    requires k in s.subsurfaces
  {
    Key(k.client, s.subsurfaces[k])
  }

  /** The surfaces with this subsurface's own synchronisation off. */
  function Unlocked(s: State, k: Key): SurfaceMap
    requires k in s.subsurfaces
  {
    Resync(s.surfaces, SurfaceOf(s, k), false)
  }

  /** Set free, the subsurface is synchronised with nothing above it either. */
  ghost predicate SetsFree(s: State, k: Key) {
    && Fine(s.surfaces) && k in s.subsurfaces && SurfaceOf(s, k) in s.surfaces
    && (ResyncRooted(s.surfaces, SurfaceOf(s, k), false); !Synced(Unlocked(s, k), SurfaceOf(s, k)))
  }

  lemma UnlockedIsFine(s: State, k: Key)
    requires SetsFree(s, k)
    ensures Fine(Unlocked(s, k)) && Settles(Unlocked(s, k), SurfaceOf(s, k))
  {
    SameListsFine(s.surfaces, Unlocked(s, k));
    FineEnds(Unlocked(s, k), SurfaceOf(s, k));
  }

  lemma FreedIs(s: State, k: Key)
    requires SetsFree(s, k) && Settles(Unlocked(s, k), SurfaceOf(s, k))
    ensures Completes(s, SetSync(k, false))
    ensures SetSyncStep(s, k, false) == Flush(s.(surfaces := Unlocked(s, k)), SurfaceOf(s, k))
  {}

  /** Set free, with nothing above it synchronised, a subsurface shows at once all that it held. */
  lemma FreedShows(s: State, k: Key, x: Key, held: seq<Pending>)
    requires SetsFree(s, k) && x in s.surfaces && Holding(s.surfaces[x], held)
    ensures Completes(s, SetSync(k, false)) && Rooted(Unlocked(s, k))
    ensures var t := SetSyncStep(s, k, false);
      t.surfaces.Keys == s.surfaces.Keys && Freed(Unlocked(s, k), SurfaceOf(s, k), x, held, t.surfaces)
  {
    UnlockedIsFine(s, k);
    FreedIs(s, k);
    FlushIs(s.(surfaces := Unlocked(s, k)), SurfaceOf(s, k));
    FlushReaches(Unlocked(s, k), SurfaceOf(s, k), x, held);
  }

  lemma SameListsFine(m: SurfaceMap, n: SurfaceMap)
    requires Fine(m) && n.Keys == m.Keys
    requires forall k :: k in m ==> n[k].parent == m[k].parent && n[k].children == m[k].children
    ensures Fine(n)
  {
    assert ParentsOf(n) == ParentsOf(m);
    forall k | k in n ensures ListSound(n, k) { assert ListSound(m, k); }
  }

  lemma {:induction false} SameCascade(m: SurfaceMap, n: SurfaceMap, start: Key, x: Key)
    requires SameLinks(m, n) && Rooted(m) && Rooted(n)
    ensures InCascade(m, start, x) <==> InCascade(n, start, x)
    decreases Depth(ParentsOf(m), x)
  {
    SameLinksSameShape(m, n);
    SameLinksSameSync(m, n, x);
    if x in ParentsOf(m) {
      DepthStep(ParentsOf(m), x);
      SameCascade(m, n, start, ParentsOf(m)[x]);
    }
  }

  // ----- Smaller requests -----

  /** A position is taken at once, as far as positions go, and by that surface alone. */
  lemma PositionedExactly(s: State, k: Key, at: Point)
    requires k in s.subsurfaces && Key(k.client, s.subsurfaces[k]) in s.surfaces && OffsetInRange(at)
    ensures var t, moved := PositionStep(s, k, at), Key(k.client, s.subsurfaces[k]);
      && t == s.(surfaces := t.surfaces) && t.surfaces.Keys == s.surfaces.Keys
      && (forall x :: x in s.surfaces && x != moved ==> t.surfaces[x] == s.surfaces[x])
      && t.surfaces[moved] == s.surfaces[moved].(subsurfacePosition := at)
  {}

  /** A client's surfaces, objects and buffers go with it, and nobody else's. */
  lemma LeavesExactly(s: State, client: nat)
    ensures var t := DisconnectStep(s, client);
      && (forall k :: k in t.surfaces <==> k in s.surfaces && k.client != client)
      && (forall k :: k in t.surfaces ==> t.surfaces[k] == s.surfaces[k])
      && (forall k :: k in t.objects <==> k in s.objects && k.client != client)
      && (forall k :: k in t.objects ==> t.objects[k] == s.objects[k])
      && (forall b :: b in t.buffers <==> b in s.buffers && b.client != client)
      && (forall b :: b in t.pendingRelease <==> b in s.pendingRelease && b.client != client)
  {
    OthersOfMembers(s.pendingRelease, client);
  }

  // ----- What a client sees of what it asked for -----

  /** A surface with one callback more asked for, and waiting for the next commit. */
  ghost predicate AskedOf(a: Surface, b: Surface, callback: nat) {
    b == a.(asked := a.asked + [callback], pending := a.pending.(callbacks := a.pending.callbacks + [callback]))
  }

  /** A callback asked for waits with the rest of the next commit, under an id of its own. */
  lemma FrameAsks(s: State, k: Key, callback: nat)
    requires k in s.surfaces && CanRegister(s, Key(k.client, callback))
    ensures var t := FrameStep(s, k, callback);
      && t == s.(objects := s.objects[Key(k.client, callback) := CallbackObject(k)], surfaces := t.surfaces)
      && t.surfaces.Keys == s.surfaces.Keys && AskedOf(s.surfaces[k], t.surfaces[k], callback)
      && forall x :: x in s.surfaces && x != k ==> t.surfaces[x] == s.surfaces[x]
  {}

  /** A frame presented on an output answers every callback committed on every surface shown there, and no other. */
  lemma PresentedExactly(s: State, output: nat, k: Key)
    requires k in s.surfaces
    ensures var t := FireStep(s, OnOutput(output));
      && t.surfaces.Keys == s.surfaces.Keys && t == s.(surfaces := t.surfaces, objects := t.objects)
      && t.surfaces[k] ==
           (if output in s.surfaces[k].visibleOn
            then s.surfaces[k].(callbacks := [], feedbacks := [],
                                answered := s.surfaces[k].answered + s.surfaces[k].callbacks)
            else s.surfaces[k])
  {}

  /** What is shown nowhere is answered when a frame is over with and nothing was presented of it. */
  lemma OffscreenExactly(s: State, k: Key)
    requires k in s.surfaces
    ensures var t := FireStep(s, Offscreen);
      && t.surfaces.Keys == s.surfaces.Keys && t == s.(surfaces := t.surfaces, objects := t.objects)
      && t.surfaces[k] ==
           (if s.surfaces[k].visibleOn == {}
            then s.surfaces[k].(callbacks := [], feedbacks := [],
                                answered := s.surfaces[k].answered + s.surfaces[k].callbacks)
            else s.surfaces[k])
  {}

  /** Attach a buffer, ask for a frame, commit, and be presented. */
  function Presentation(k: Key, buffer: nat, d: Point, callback: nat, output: nat): seq<Event> {
    [Event(Attach(k, buffer, d), []), Event(Frame(k, callback), []), Event(Commit(k, true), []),
     Event(FireCallbacks(OnOutput(output)), [])]
  }

  ghost predicate Ready(s: State, k: Key, callback: nat, output: nat) {
    && Fine(s.surfaces) && k in s.surfaces && !Synced(s.surfaces, k)
    && CanRegister(s, Key(k.client, callback)) && output in s.surfaces[k].visibleOn
  }

  lemma PendingOnly(m: SurfaceMap, n: SurfaceMap, k: Key)
    requires Fine(m) && SameLinks(m, n)
    ensures Fine(n) && (Synced(m, k) <==> Synced(n, k))
  {
    SameLinksSameShape(m, n);
    SameLinksSameSync(m, n, k);
  }

  lemma EditedLinks(m: SurfaceMap, k: Key, p: Pending, asked: seq<nat>)
    requires k in m
    ensures SameLinks(m, m[k := m[k].(pending := p, asked := asked)])
  {}

  /** The buffer and the callback wait together. */
  lemma AsksTogether(s: State, k: Key, buffer: nat, d: Point, callback: nat)
    requires Fine(s.surfaces) && k in s.surfaces && !Synced(s.surfaces, k) && CanRegister(s, Key(k.client, callback))
    ensures var t := FrameStep(AttachStep(s, k, buffer, d), k, callback);
      && Passes(t, k, true) && t.surfaces[k].pending.bufferAttached
      && t.surfaces[k].pending.bufferId == (if buffer == 0 then None else Some(buffer))
      && t.surfaces[k].pending.callbacks == s.surfaces[k].pending.callbacks + [callback]
      && t.surfaces[k] == s.surfaces[k].(pending := t.surfaces[k].pending, asked := t.surfaces[k].asked)
  {
    var a := AttachStep(s, k, buffer, d);
    FrameAsks(a, k, callback);
    var t := FrameStep(a, k, callback);
    var b := t.surfaces[k];
    assert t.surfaces == s.surfaces[k := s.surfaces[k].(pending := b.pending, asked := b.asked)];
    EditedLinks(s.surfaces, k, b.pending, b.asked);
    PendingOnly(s.surfaces, t.surfaces, k);
  }

  /** What a commit of a buffer and some callbacks shows. */
  lemma CommitShows(s: State, k: Key)
    requires Passes(s, k, true)
    ensures Completes(s, Commit(k, true)) && k in CommitStep(s, k, true).surfaces
    ensures var a, b := s.surfaces[k], CommitStep(s, k, true).surfaces[k];
      && (a.pending.bufferAttached ==> b.bufferId == a.pending.bufferId)
      && b.callbacks == a.callbacks + a.pending.callbacks && b.answered == a.answered && b.visibleOn == a.visibleOn
  {
    var a := s.surfaces[k].(pending := NOTHING_PENDING);
    CommitReaches(s, k, true, k, []);
    OnePendingShows(a, s.surfaces[k].pending, CommitStep(s, k, true).surfaces[k]);
  }

  /** A surface on an output shows the buffer attached to it, and its callback is answered with that very frame. */
  lemma PresentedAsAsked(s: State, k: Key, buffer: nat, d: Point, callback: nat, output: nat) returns (t: State)
    requires Ready(s, k, callback, output)
    ensures Runs(s, Presentation(k, buffer, d, callback, output), t) && k in t.surfaces
    ensures t.surfaces[k].bufferId == if buffer == 0 then None else Some(buffer)
    ensures t.surfaces[k].callbacks == []
    ensures t.surfaces[k].answered
         == s.surfaces[k].answered + (s.surfaces[k].callbacks + (s.surfaces[k].pending.callbacks + [callback]))
  {
    var attached := AttachStep(s, k, buffer, d);
    var asked := FrameStep(attached, k, callback);
    AttachKeepsFine(s, k, buffer, d);
    AsksTogether(s, k, buffer, d, callback);
    CommitShows(asked, k);
    CommitStaysFine(asked, k);
    var shown := CommitStep(asked, k, true);
    PresentedExactly(shown, output, k);
    t := FireStep(shown, OnOutput(output));
    AttachIsStep(s, k, buffer, d);
    FrameIsStep(attached, k, callback);
    CommitIsStep(asked, k);
    FireIsStep(shown, output);
    Ran(s, Presentation(k, buffer, d, callback, output), attached, asked, shown, t);
  }

  lemma AttachKeepsFine(s: State, k: Key, buffer: nat, d: Point)
    requires Fine(s.surfaces) && k in s.surfaces
    ensures Fine(AttachStep(s, k, buffer, d).surfaces)
  {
    var a := AttachStep(s, k, buffer, d).surfaces[k];
    assert a == s.surfaces[k].(pending := a.pending, asked := s.surfaces[k].asked);
    EditedLinks(s.surfaces, k, a.pending, s.surfaces[k].asked);
    PendingOnly(s.surfaces, AttachStep(s, k, buffer, d).surfaces, k);
  }

  lemma CommitStaysFine(s: State, k: Key)
    requires Passes(s, k, true)
    ensures Completes(s, Commit(k, true)) && Rooted(CommitStep(s, k, true).surfaces)
  {
    CommitPasses(s, k, true);
    SameLinksSameGraph(s.surfaces, WithoutPending(s.surfaces, k));
    SweepKeepsLinks(WithoutPending(s.surfaces, k), k, s.surfaces[k].pending);
  }

  /** One event of a run, and what it comes to. */
  ghost predicate Happens(s: State, e: Event, t: State) {
    Enabled(s, e.request, e.order) && Step(s, e.request, e.order) == t
  }

  lemma AttachIsStep(s: State, k: Key, buffer: nat, d: Point)
    requires Rooted(s.surfaces)
    ensures Happens(s, Event(Attach(k, buffer, d), []), AttachStep(s, k, buffer, d))
  {}

  lemma FrameIsStep(s: State, k: Key, callback: nat)
    requires Rooted(s.surfaces)
    ensures Happens(s, Event(Frame(k, callback), []), FrameStep(s, k, callback))
  {}

  lemma CommitIsStep(s: State, k: Key)
    requires Completes(s, Commit(k, true))
    ensures Happens(s, Event(Commit(k, true), []), CommitStep(s, k, true))
  {}

  lemma FireIsStep(s: State, output: nat)
    requires Rooted(s.surfaces)
    ensures Happens(s, Event(FireCallbacks(OnOutput(output)), []), FireStep(s, OnOutput(output)))
  {}

  lemma OnePendingShows(a: Surface, p: Pending, b: Surface)
    requires Shows(a, [p], b)
    ensures p.bufferAttached ==> b.bufferId == p.bufferId
    ensures b.callbacks == a.callbacks + p.callbacks && b.answered == a.answered && b.visibleOn == a.visibleOn
  {
    assert BuffersSet([p])[0] == if p.bufferAttached then Some(p.bufferId) else None;
    assert CallbacksOf([p]) == [] + [p.callbacks];
    JoinedNext([], p.callbacks);
    assert Joined<nat>([]) == [];
  }

  lemma Ran(s: State, events: seq<Event>, a: State, b: State, c: State, t: State)
    requires |events| == 4 && Happens(s, events[0], a) && Happens(a, events[1], b)
    requires Happens(b, events[2], c) && Happens(c, events[3], t)
    ensures Runs(s, events, t)
  {
    NothingRuns(t);
    Before(c, events[3], [], t, t);
    Before(b, events[2], [events[3]], c, t);
    Before(a, events[1], [events[2], events[3]], b, t);
    Before(s, events[0], [events[1], events[2], events[3]], a, t);
    assert [events[2]] + [events[3]] == [events[2], events[3]];
    assert [events[1]] + [events[2], events[3]] == [events[1], events[2], events[3]];
    assert [events[0]] + [events[1], events[2], events[3]] == events;
  }

  lemma NothingRuns(s: State)
    ensures Runs(s, [], s)
  {}

  lemma Before(s: State, e: Event, rest: seq<Event>, next: State, t: State)
    requires Happens(s, e, next) && Runs(next, rest, t)
    ensures Runs(s, [e] + rest, t)
  {
    assert ([e] + rest)[0] == e && ([e] + rest)[1..] == rest;
  }
}
