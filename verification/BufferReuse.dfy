/**
 Buffer ids used again. Releases are kept by id, so one can be meant for a buffer displaced under its id and
 reach another made under it since: exactly when the id was registered again while still waiting its turn.
 */
module BufferReuse {
  import opened Base
  import opened Links
  import opened Surfaces
  import opened Forest
  import opened Cascade
  import opened Sweep
  import opened SurfaceMachine
  import opened SurfaceRuns
  import opened SurfaceTheorems
  import opened SurfaceWitnesses

  /** The last thing to happen to an id, its being given to a new buffer included. */
  function Newest(log: seq<BufferEvent>, b: Key): Option<BufferEvent> {
    if log == [] then None
    else if log[|log| - 1].buffer == b then Some(log[|log| - 1])
    else Newest(log[..|log| - 1], b)
  }

  /** The buffer an id names is the one last displaced under it. */
  predicate Own(log: seq<BufferEvent>, b: Key) { Newest(log, b) == Some(Replaced(b)) }

  ghost predicate QueuesOwn(s: State) { forall b :: Queued(s, b) ==> Own(s.log, b) }

  /** Every release so far reached the buffer that was displaced. */
  ghost predicate ReleasesOwn(log: seq<BufferEvent>) {
    forall i :: 0 <= i < |log| && log[i].Released? ==> Own(log[..i], log[i].buffer)
  }

  lemma {:induction false} NewestSince(log: seq<BufferEvent>, b: Key, l: nat)
    requires l < |log| && log[l] == Replaced(b)
    requires forall i :: l < i < |log| ==> log[i].buffer != b || log[i].Made?
    ensures Own(log, b) <==> forall i :: l < i < |log| ==> log[i] != Made(b)
  {
    if l < |log| - 1 && log[|log| - 1].buffer != b {
      var front := log[..|log| - 1];
      NewestSince(front, b, l);
      assert forall i :: l < i < |front| ==> front[i] == log[i];
    }
  }

  /**
   A release is for the buffer last displaced under its id, and that is the one it names unless one was made
   since.
   */
  lemma ReleaseNames(s: State, order: seq<Key>, e: BufferEvent) returns (l: nat)
    requires Inv(s) && Drains(StartStep(s), order) && e in ReleasedEvents(StartStep(s), order)
    ensures l < |s.log| && s.log[l] == Replaced(e.buffer)
    ensures forall i :: l < i < |s.log| ==> s.log[i].buffer != e.buffer || s.log[i].Made?
    ensures Own(s.log, e.buffer) <==> forall i :: l < i < |s.log| ==> s.log[i] != Made(e.buffer)
  {
    ReleaseIsSafe(s, order, e);
    l := LastEventAt(s.log, e.buffer);
    NewestSince(s.log, e.buffer, l);
  }

  // ----- When that happens -----

  /** A buffer registered under an id that a commit displaced since the last tick. */
  predicate Reuses(s: State, r: Request) {
    r.CreateBuffer? && CanRegister(s, r.k) && r.k in s.pendingRelease
  }

  lemma NewestSnoc(log: seq<BufferEvent>, e: BufferEvent, b: Key)
    ensures Newest(log + [e], b) == if e.buffer == b then Some(e) else Newest(log, b)
  {
    assert (log + [e])[..|log|] == log;
  }

  lemma {:induction false} NewestReplaced(log: seq<BufferEvent>, d: seq<Key>, b: Key)
    ensures Newest(log + ReplacedAll(d), b) == if b in d then Some(Replaced(b)) else Newest(log, b)
  {
    if d == [] {
      assert log + ReplacedAll(d) == log;
    } else {
      var front, last := d[..|d| - 1], d[|d| - 1];
      assert log + ReplacedAll(d) == log + ReplacedAll(front) + [Replaced(last)];
      assert b in d <==> b in front || b == last by { assert d == front + [last]; }
      NewestReplaced(log, front, b);
      NewestSnoc(log + ReplacedAll(front), Replaced(last), b);
    }
  }

  lemma {:induction false} NewestReleased(s: State, log: seq<BufferEvent>, order: seq<Key>, b: Key)
    requires b !in order
    ensures Newest(log + ReleasedEvents(s, order), b) == Newest(log, b)
  {
    if order == [] {
      assert log + ReleasedEvents(s, order) == log;
    } else {
      var front, last := order[..|order| - 1], order[|order| - 1];
      NewestReleased(s, log, front, b);
      if last in s.buffers {
        NewestSnoc(log + ReleasedEvents(s, front), Released(last), b);
        assert log + ReleasedEvents(s, order) == log + ReleasedEvents(s, front) + [Released(last)];
      } else {
        assert log + ReleasedEvents(s, order) == log + ReleasedEvents(s, front);
      }
    }
  }

  /** Nothing logged, nothing queued. */
  ghost predicate Hushed(s: State, t: State) { t.log == s.log && forall b :: Queued(t, b) ==> Queued(s, b) }

  lemma HushedSteps(s: State, r: Request, order: seq<Key>)
    requires Inv(s) && Enabled(s, r, order)
    requires !r.Commit? && !r.DestroySubsurface? && !r.SetSync? && !r.CreateBuffer? && !r.Tick?
    ensures Hushed(s, Step(s, r, order))
  {
    if r.Disconnect? {
      OthersOfMembers(s.pendingRelease, r.client);
    } else if !r.Frame? && !r.FireCallbacks? {
      if r.CreateSurface? || r.DestroySurface? || r.GetSubsurface? || r.GetPopup? || r.DestroyPopup? || r.AdoptPopup? {
        LinkingStepsQuiet(s, r, order);
      } else {
        OtherStepsQuiet(s, r, order);
      }
    }
  }

  lemma DisplacingOwn(s: State, t: State)
    requires QueuesOwn(s) && OnlyDisplaces(s, t)
    ensures QueuesOwn(t)
  {
    var d :| t.pendingRelease == s.pendingRelease + d && t.log == s.log + ReplacedAll(d);
    forall b | Queued(t, b) ensures Own(t.log, b) {
      NewestReplaced(s.log, d, b);
      if b !in d { assert Queued(s, b); }
    }
  }

  lemma TickOwn(s: State, order: seq<Key>)
    requires QueuesOwn(s) && Drains(StartStep(s), order)
    ensures QueuesOwn(TickStep(s, order))
  {
    var u, t := StartStep(s), TickStep(s, order);
    forall b | Queued(t, b) ensures Own(t.log, b) {
      assert Queued(s, b) && !Free(u, b);
      NewestReleased(u, s.log, order, b);
    }
  }

  lemma CreateOwn(s: State, k: Key)
    requires QueuesOwn(s)
    ensures QueuesOwn(CreateBufferStep(s, k)) <==> !(CanRegister(s, k) && k in s.pendingRelease)
  {
    var t := CreateBufferStep(s, k);
    if CanRegister(s, k) {
      forall b ensures Newest(t.log, b) == if b == k then Some(Made(k)) else Newest(s.log, b) {
        NewestSnoc(s.log, Made(k), b);
      }
      forall b | Queued(t, b) && b != k ensures Own(t.log, b) { assert Queued(s, b); }
      if k in s.pendingRelease { assert Queued(t, k) && !Own(t.log, k); }
    }
  }

  lemma CommittingOwn(s: State, r: Request, order: seq<Key>)
    requires Inv(s) && Enabled(s, r, order) && QueuesOwn(s) && (r.Commit? || r.DestroySubsurface? || r.SetSync?)
    ensures QueuesOwn(Step(s, r, order))
  {
    if r.Commit? {
      CommitDisplaces(s, r.k, r.configured);
      DisplacingOwn(s, Step(s, r, order));
    } else if Starts(s, r).Some? {
      var surface := Key(r.k.client, s.subsurfaces[r.k]);
      var u := if r.SetSync? then s.(surfaces := Resync(s.surfaces, surface, r.sync))
        else s.(surfaces := UnlinkSubsurface(s.surfaces, surface), subsurfaces := s.subsurfaces - {r.k});
      FlushDisplaces(u, surface);
      DisplacingOwn(u, Flush(u, surface));
    }
  }

  /** While every queued id still names what was displaced, only one kind of step ends that, and it always does. */
  lemma QueuesOwnExactly(s: State, r: Request, order: seq<Key>)
    requires Inv(s) && Enabled(s, r, order) && QueuesOwn(s)
    ensures QueuesOwn(Step(s, r, order)) <==> !Reuses(s, r)
  {
    if r.Commit? || r.DestroySubsurface? || r.SetSync? { CommittingOwn(s, r, order); }
    else if r.CreateBuffer? { CreateOwn(s, r.k); }
    else if r.Tick? { TickOwn(s, order); }
    else { HushedSteps(s, r, order); }
  }

  // ----- Over runs -----

  lemma MoreUnreleased(log: seq<BufferEvent>, more: seq<BufferEvent>)
    requires ReleasesOwn(log) && forall e :: e in more ==> !e.Released?
    ensures ReleasesOwn(log + more)
  {
    var all := log + more;
    forall i | |log| <= i < |all| ensures !all[i].Released? { assert all[i] in more; }
    forall i | 0 <= i < |log| && all[i].Released? ensures Own(all[..i], all[i].buffer) {
      assert all[..i] == log[..i];
    }
  }

  lemma OneReleased(log: seq<BufferEvent>, b: Key)
    requires ReleasesOwn(log) && Own(log, b)
    ensures ReleasesOwn(log + [Released(b)])
  {
    var all := log + [Released(b)];
    forall i | 0 <= i < |all| && all[i].Released? ensures Own(all[..i], all[i].buffer) {
      assert all[..i] == log[..i];
      assert i == |log| ==> log[..i] == log;
    }
  }

  lemma {:induction false} ReleasedOwn(s: State, log: seq<BufferEvent>, order: seq<Key>)
    requires ReleasesOwn(log) && Distinct(order) && forall b :: b in order ==> Own(log, b)
    ensures ReleasesOwn(log + ReleasedEvents(s, order))
  {
    if order == [] {
      assert log + ReleasedEvents(s, order) == log;
    } else {
      var front, last := order[..|order| - 1], order[|order| - 1];
      var before := log + ReleasedEvents(s, front);
      forall b | b in front ensures b in order && b != last {}
      ReleasedOwn(s, log, front);
      if last in s.buffers {
        assert last !in front;
        NewestReleased(s, log, front, last);
        assert last in order;
        OneReleased(before, last);
        assert log + ReleasedEvents(s, order) == before + [Released(last)];
      } else {
        assert log + ReleasedEvents(s, order) == before;
      }
    }
  }

  lemma CommittingReleases(s: State, r: Request, order: seq<Key>)
    requires Inv(s) && Enabled(s, r, order) && ReleasesOwn(s.log) && (r.Commit? || r.DestroySubsurface? || r.SetSync?)
    ensures ReleasesOwn(Step(s, r, order).log)
  {
    CommittingLogs(s, r, order);
    var d :| Step(s, r, order).log == s.log + ReplacedAll(d);
    MoreUnreleased(s.log, ReplacedAll(d));
  }

  lemma CommittingLogs(s: State, r: Request, order: seq<Key>)
    requires Inv(s) && Enabled(s, r, order) && (r.Commit? || r.DestroySubsurface? || r.SetSync?)
    ensures exists d :: Step(s, r, order).log == s.log + ReplacedAll(d)
  {
    if r.Commit? {
      CommitDisplaces(s, r.k, r.configured);
    } else if Starts(s, r).Some? {
      var surface := Key(r.k.client, s.subsurfaces[r.k]);
      var u := if r.SetSync? then s.(surfaces := Resync(s.surfaces, surface, r.sync))
        else s.(surfaces := UnlinkSubsurface(s.surfaces, surface), subsurfaces := s.subsurfaces - {r.k});
      FlushDisplaces(u, surface);
    } else {
      assert s.log + ReplacedAll([]) == s.log;
    }
  }

  lemma StepReleasesOwn(s: State, r: Request, order: seq<Key>)
    requires Inv(s) && Enabled(s, r, order) && QueuesOwn(s) && ReleasesOwn(s.log)
    ensures ReleasesOwn(Step(s, r, order).log)
  {
    if r.Commit? || r.DestroySubsurface? || r.SetSync? {
      CommittingReleases(s, r, order);
    } else if r.CreateBuffer? {
      MoreUnreleased(s.log, [Made(r.k)]);
    } else if r.Tick? {
      forall b | b in order ensures Own(s.log, b) { assert Free(StartStep(s), b) && Queued(s, b); }
      ReleasedOwn(StartStep(s), s.log, order);
    } else {
      HushedSteps(s, r, order);
    }
  }

  /** A run in which no id is registered again while a commit's displacement of it waits for the next tick. */
  ghost predicate Careful(s: State, events: seq<Event>)
    decreases |events|
  {
    events != [] && Enabled(s, events[0].request, events[0].order) ==>
      !Reuses(s, events[0].request) && Careful(Step(s, events[0].request, events[0].order), events[1..])
  }

  /** Over such a run every release names the very buffer a commit displaced. */
  lemma {:induction false} CarefulRunsReleaseOwn(s: State, events: seq<Event>, t: State)
    requires Inv(s) && QueuesOwn(s) && ReleasesOwn(s.log) && Runs(s, events, t) && Careful(s, events)
    ensures QueuesOwn(t) && ReleasesOwn(t.log)
    decreases |events|
  {
    if events != [] {
      var r, order := events[0].request, events[0].order;
      StepKeepsInv(s, r, order);
      QueuesOwnExactly(s, r, order);
      StepReleasesOwn(s, r, order);
      CarefulRunsReleaseOwn(Step(s, r, order), events[1..], t);
    }
  }

  // ----- A buffer released that was never attached -----

  const BUFFER: Key := Key(0, 20)

  /** One surface and nothing around it, and whatever buffers there are. */
  function Alone(a: Surface, objects: map<Key, ObjectKind>, buffers: set<Key>, queue: seq<Key>,
                 log: seq<BufferEvent>): State {
    State(map[A := a], objects, map[], map[], map[], map[], buffers, {}, queue, {}, log)
  }

  const BARE: map<Key, ObjectKind> := map[A := SurfaceObject]

  const BUFFERED: map<Key, ObjectKind> := map[A := SurfaceObject, BUFFER := BufferObject]

  const SHOWING: Surface := NEW_SURFACE.(bufferId := Some(20))

  const ATTACHING: Pending := NOTHING_PENDING.(bufferAttached := true, bufferId := Some(20))

  const DETACHING: Pending := NOTHING_PENDING.(bufferAttached := true)

  lemma SurfaceMade() returns (t: State)
    ensures Reached(t) && t == Alone(NEW_SURFACE, BARE, {}, [], [])
  {
    assert Runs(INITIAL, [], INITIAL);
    ReachedPlain(INITIAL, CreateSurface(A));
    t := CreateSurfaceStep(INITIAL, A);
  }

  lemma MakingAlone(a: Surface, queue: seq<Key>, log: seq<BufferEvent>)
    ensures CanRegister(Alone(a, BARE, {}, queue, log), BUFFER)
    ensures CreateBufferStep(Alone(a, BARE, {}, queue, log), BUFFER)
         == Alone(a, BUFFERED, {BUFFER}, queue, log + [Made(BUFFER)])
  {
    assert BARE[BUFFER := BufferObject] == BUFFERED;
  }

  lemma DestroyingAlone(a: Surface, log: seq<BufferEvent>)
    ensures DestroyBufferStep(Alone(a, BUFFERED, {BUFFER}, [], log), BUFFER) == Alone(a, BARE, {}, [], log)
  {
    assert BUFFERED - {BUFFER} == BARE;
  }

  lemma ReachedMake(t: State, k: Key)
    requires Reached(t)
    ensures Reached(CreateBufferStep(t, k))
  {
    ReachedPlain(t, CreateBuffer(k));
  }

  lemma ReachedDestroy(t: State, k: Key)
    requires Reached(t)
    ensures Reached(DestroyBufferStep(t, k))
  {
    ReachedPlain(t, DestroyBuffer(k));
  }

  lemma AttachAlone(t: State, a: Surface, objects: map<Key, ObjectKind>, buffers: set<Key>, log: seq<BufferEvent>,
                    b: nat)
    returns (u: State)
    requires Reached(t) && t == Alone(a, objects, buffers, [], log) && a.pending == NOTHING_PENDING
    ensures Reached(u)
    ensures u == Alone(a.(pending := if b == 0 then DETACHING else DETACHING.(bufferId := Some(b))),
                       objects, buffers, [], log)
  {
    ReachedPlain(t, Attach(A, b, Point(0, 0)));
    u := AttachStep(t, A, b, Point(0, 0));
  }

  /** A commit on a surface on its own. */
  lemma CommitAlone(t: State, a: Surface, objects: map<Key, ObjectKind>, buffers: set<Key>, log: seq<BufferEvent>)
    returns (u: State)
    requires Reached(t) && t == Alone(a, objects, buffers, [], log) && a.children == [] && !a.isSubsurface
    ensures var d := Displaced(A, a, a.pending);
      && Reached(u)
      && u == Alone(Apply(a.(pending := NOTHING_PENDING), a.pending), objects, buffers, d, log + ReplacedAll(d))
  {
    ReachedRooted(t);
    ChildlessSettles(t.surfaces, A);
    assert !Synced(t.surfaces, A);
    PassAlone(t, a);
    assert Starts(t, Commit(A, true)) == Some(Start(t.surfaces, A));
    ReachedNext(t, Commit(A, true), []);
    u := CommitStep(t, A, true);
    CommitCases(t, A, true);
  }

  /** What showing the buffer and taking it off again leave. */
  lemma ShownAndHidden()
    ensures Apply(NEW_SURFACE, ATTACHING) == SHOWING && Apply(SHOWING, DETACHING) == NEW_SURFACE
    ensures [Made(BUFFER)] + ReplacedAll([]) == [Made(BUFFER)]
    ensures [Made(BUFFER)] + ReplacedAll([BUFFER]) == [Made(BUFFER), Replaced(BUFFER)]
  {
    assert NEW_SURFACE.callbacks + [] == [] && NEW_SURFACE.feedbacks + [] == [];
  }

  lemma PassIsSweep(t: State, k: Key)
    requires Settles(t.surfaces, k) && k in t.surfaces
    ensures Settles(WithoutPending(t.surfaces, k), k)
    ensures var w := SweepFrom(WithoutPending(t.surfaces, k), k, t.surfaces[k].pending);
      PassCommit(t, k) == t.(surfaces := w.surfaces, pendingRelease := t.pendingRelease + w.displaced,
                             log := t.log + ReplacedAll(w.displaced))
  {
    SameLinksSameGraph(t.surfaces, WithoutPending(t.surfaces, k));
  }

  lemma TakenAlone(a: Surface)
    ensures WithoutPending(map[A := a], A) == map[A := a.(pending := NOTHING_PENDING)]
  {}

  lemma PassAlone(t: State, a: Surface)
    requires Settles(t.surfaces, A) && t.surfaces == map[A := a] && a.children == []
    ensures var d := Displaced(A, a, a.pending);
      PassCommit(t, A) == t.(surfaces := map[A := Apply(a.(pending := NOTHING_PENDING), a.pending)],
                             pendingRelease := t.pendingRelease + d, log := t.log + ReplacedAll(d))
  {
    PassIsSweep(t, A);
    TakenAlone(a);
    SweepAlone(a.(pending := NOTHING_PENDING), a.pending);
  }

  lemma SweepAlone(a: Surface, p: Pending)
    requires Rooted(map[A := a]) && a.children == []
    ensures Settles(map[A := a], A)
    ensures SweepFrom(map[A := a], A, p) == Swept(map[A := Apply(a, p)], Displaced(A, a, p))
  {
    LoneSweep(map[A := a], A, p);
    assert map[A := a][A := Apply(a, p)] == map[A := Apply(a, p)];
  }

  /** A buffer on screen is destroyed, and then the surface shows nothing: the id is queued, with no buffer. */
  lemma DisplacedAfterDestruction() returns (t: State)
    ensures Reached(t) && t == Alone(NEW_SURFACE, BARE, {}, [BUFFER], [Made(BUFFER), Replaced(BUFFER)])
  {
    ShownAndHidden();
    t := SurfaceMade();
    MakingAlone(NEW_SURFACE, [], []);
    ReachedMake(t, BUFFER);
    t := CreateBufferStep(t, BUFFER);
    t := AttachAlone(t, NEW_SURFACE, BUFFERED, {BUFFER}, [Made(BUFFER)], 20);
    t := CommitAlone(t, NEW_SURFACE.(pending := ATTACHING), BUFFERED, {BUFFER}, [Made(BUFFER)]);
    DestroyingAlone(SHOWING, [Made(BUFFER)]);
    ReachedDestroy(t, BUFFER);
    t := DestroyBufferStep(t, BUFFER);
    t := AttachAlone(t, SHOWING, BARE, {}, [Made(BUFFER)], 0);
    t := CommitAlone(t, SHOWING.(pending := DETACHING), BARE, {}, [Made(BUFFER)]);
  }

  /** Made again under the id, the buffer is released at the next tick, though it was never on a surface. */
  lemma ReuseWitness() returns (t: State, order: seq<Key>)
    ensures Reached(t) && Drains(StartStep(t), order) && Released(BUFFER) in ReleasedEvents(StartStep(t), order)
    ensures t.log == [Made(BUFFER), Replaced(BUFFER), Made(BUFFER)] && !Own(t.log, BUFFER)
  {
    t := DisplacedAfterDestruction();
    MakingAlone(NEW_SURFACE, [BUFFER], [Made(BUFFER), Replaced(BUFFER)]);
    ReachedMake(t, BUFFER);
    t := CreateBufferStep(t, BUFFER);
    order := [BUFFER];
    assert Free(StartStep(t), BUFFER);
    ReleasedEventsMean(StartStep(t), order, Released(BUFFER));
  }
}
