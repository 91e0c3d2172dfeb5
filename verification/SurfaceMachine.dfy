/**
 The surface half of the protocol as a state machine: what each request and each tick of the
 compositor does to surfaces, the objects naming them, frame callbacks and buffer releases.
 The handlers themselves are the methods of `Compositor`, proved against these functions.
 */
module SurfaceMachine {
  import opened Base
  import opened Links
  import opened Surfaces
  import opened Forest
  import opened Cascade
  import opened Sweep

  /** What a client's object id names. A callback remembers the surface it was asked on. */
  datatype ObjectKind =
    | SurfaceObject
    | SubsurfaceObject
    | XdgSurfaceObject
    | PopupObject
    | LayerObject
    | BufferObject
    | CallbackObject(surface: Key)

  /** What has happened to buffers, oldest first: made under an id, displaced by a commit, released. */
  datatype BufferEvent = Made(buffer: Key) | Replaced(buffer: Key) | Released(buffer: Key)

  datatype State = State(
    surfaces: SurfaceMap,
    objects: map<Key, ObjectKind>,
    subsurfaces: map<Key, nat>,
    xdgSurfaces: map<Key, nat>,
    popups: map<Key, nat>,
    layers: map<Key, nat>,
    buffers: set<Key>,
    readers: set<Key>,
    pendingRelease: seq<Key>,
    releasing: set<Key>,
    log: seq<BufferEvent>)

  const INITIAL: State := State(map[], map[], map[], map[], map[], map[], {}, {}, [], {}, [])

  /** Which surfaces a presented frame answers: those on one output, or those on none. */
  datatype FrameTarget = OnOutput(output: nat) | Offscreen

  datatype Request =
    | CreateSurface(k: Key)
    | DestroySurface(k: Key)
    | GetSubsurface(k: Key, surface: nat, parent: nat, otherRole: bool)
    | DestroySubsurface(k: Key)
    | PlaceSubsurface(k: Key, sibling: nat, above: bool)
    | SetSubsurfacePosition(k: Key, at: Point)
    | SetSync(k: Key, sync: bool)
    | GetXdgSurface(k: Key, surface: nat, otherRole: bool)
    | DestroyXdgSurface(k: Key)
    | GetPopup(k: Key, xdg: nat, parentXdg: nat, at: Point)
    | DestroyPopup(k: Key)
    | GetLayerSurface(k: Key, surface: nat, refused: bool)
    | DestroyLayerSurface(k: Key)
    | AdoptPopup(layer: Key, popup: nat, at: Point)
    | Attach(k: Key, buffer: nat, d: Point)
    | Frame(k: Key, callback: nat)
    | Commit(k: Key, configured: bool)
    | CreateBuffer(k: Key)
    | DestroyBuffer(k: Key)
    | BeginRead(k: Key)
    | EndRead(k: Key)
    | ShowOn(k: Key, outputs: set<nat>)
    | FireCallbacks(target: FrameTarget)
    | Tick
    | Disconnect(client: nat)

  // ----- Objects -----

  /** `register_client_object`: refused for an id that is zero, the compositor's, or in use. */
  predicate CanRegister(s: State, k: Key) {
    ForClient(k.id) && k !in s.objects
  }

  function Register(s: State, k: Key, kind: ObjectKind): State {
    s.(objects := s.objects[k := kind])
  }

  function Unregister(s: State, k: Key): State { s.(objects := s.objects - {k}) }

  // ----- Links -----

  function CreateSurfaceStep(s: State, k: Key): State {
    if !CanRegister(s, k) then s
    else Register(s, k, SurfaceObject).(surfaces := Create(s.surfaces, k))
  }

  function DestroySurfaceStep(s: State, k: Key): State {
    if k !in s.surfaces then s
    else Unregister(s, k).(surfaces := Destroy(s.surfaces, k))
  }

  function PlaceStep(s: State, k: Key, sibling: nat, above: bool): State {
    if k !in s.subsurfaces then s
    else s.(surfaces := Place(s.surfaces, Key(k.client, s.subsurfaces[k]), sibling, above))
  }

  function PositionStep(s: State, k: Key, at: Point): State {
    if k !in s.subsurfaces || Key(k.client, s.subsurfaces[k]) !in s.surfaces then s
    else
      var surface := Key(k.client, s.subsurfaces[k]);
      s.(surfaces := s.surfaces[surface := s.surfaces[surface].(subsurfacePosition := ClampOffset(at))])
  }

  function GetXdgSurfaceStep(s: State, k: Key, surface: nat, otherRole: bool): State {
    if otherRole || !CanRegister(s, k) then s
    else Register(s, k, XdgSurfaceObject).(xdgSurfaces := s.xdgSurfaces[k := surface])
  }

  function DestroyXdgSurfaceStep(s: State, k: Key): State {
    if k !in s.xdgSurfaces then s else Unregister(s, k).(xdgSurfaces := s.xdgSurfaces - {k})
  }

  function GetLayerSurfaceStep(s: State, k: Key, surface: nat, refused: bool): State {
    if refused || !CanRegister(s, k) then s
    else Register(s, k, LayerObject).(layers := s.layers[k := surface])
  }

  function DestroyLayerSurfaceStep(s: State, k: Key): State {
    if k !in s.layers then s else Unregister(s, k).(layers := s.layers - {k})
  }

  function GetSubsurfaceStep(s: State, k: Key, surface: nat, parent: nat, otherRole: bool): State {
    if otherRole || IsAncestorOf(s.surfaces, k.client, surface, parent) || !CanRegister(s, k) then s
    else Register(s, k, SubsurfaceObject).(
           surfaces := LinkSubsurface(s.surfaces, Key(k.client, surface), parent),
           subsurfaces := s.subsurfaces[k := surface])
  }

  function GetPopupStep(s: State, k: Key, xdg: nat, parentXdg: nat, at: Point): State {
    var own, above := Key(k.client, xdg), Key(k.client, parentXdg);
    if own !in s.xdgSurfaces || !CanRegister(s, k) then s
    else
      var popup := s.xdgSurfaces[own];
      var made := Register(s, k, PopupObject).(popups := s.popups[k := xdg]);
      if above in s.xdgSurfaces && !IsAncestorOf(s.surfaces, k.client, popup, s.xdgSurfaces[above]) then
        made.(surfaces := LinkPopup(s.surfaces, Key(k.client, popup), s.xdgSurfaces[above], at))
      else if above !in s.xdgSurfaces && parentXdg == 0 then made
      else s
  }

  /** The `wl_surface` behind a popup object, if both it and its `xdg_surface` are there. */
  function PopupSurface(s: State, k: Key): Option<Key> {
    if k in s.popups && Key(k.client, s.popups[k]) in s.xdgSurfaces
    then Some(Key(k.client, s.xdgSurfaces[Key(k.client, s.popups[k])])) else None
  }

  function DestroyPopupStep(s: State, k: Key): State {
    if k !in s.popups then s else
      var unlinked := match PopupSurface(s, k)
        case Some(surface) => s.(surfaces := UnlinkPopup(s.surfaces, surface))
        case None => s;
      Unregister(unlinked, k).(popups := s.popups - {k})
  }

  function AdoptPopupStep(s: State, layer: Key, popup: nat, at: Point): State {
    if layer !in s.layers then s else
      match PopupSurface(s, Key(layer.client, popup))
      case None => s
      case Some(surface) =>
        if surface !in s.surfaces || s.surfaces[surface].parent.Some?
           || IsAncestorOf(s.surfaces, layer.client, surface.id, s.layers[layer]) then s
        else s.(surfaces := LinkPopup(s.surfaces, surface, s.layers[layer], at))
  }

  // ----- Commits -----

  function ReplacedAll(buffers: seq<Key>): (r: seq<BufferEvent>)
    ensures |r| == |buffers| && forall i :: 0 <= i < |r| ==> r[i] == Replaced(buffers[i])
  {
    seq(|buffers|, i requires 0 <= i < |buffers| => Replaced(buffers[i]))
  }

  /** What a sweep changes. */
  function SweptTo(s: State, w: Swept): State {
    s.(surfaces := w.surfaces,
       pendingRelease := s.pendingRelease + w.displaced,
       log := s.log + ReplacedAll(w.displaced))
  }

  /** `apply_surface_state`, where it comes to an end. */
  ghost function ApplyState(s: State, start: Key, pending: Pending): State
    requires Settles(s.surfaces, start)
  {
    SweptTo(s, SweepFrom(s.surfaces, start, pending))
  }

  function WithoutCache(m: SurfaceMap, k: Key): SurfaceMap {
    if k in m then m[k := m[k].(cached := None)] else m
  }

  function CacheOf(m: SurfaceMap, k: Key): Pending { if k in m then Cached(m[k]) else NOTHING_PENDING }

  /** Apply what a surface has cached, which nothing above it will now do. */
  ghost function Flush(s: State, k: Key): State
    requires Settles(s.surfaces, k)
  {
    SameLinksSameGraph(s.surfaces, WithoutCache(s.surfaces, k));
    ApplyState(s.(surfaces := WithoutCache(s.surfaces, k)), k, CacheOf(s.surfaces, k))
  }

  /** A commit that would show content before a configure was acknowledged. */
  predicate TooEarly(a: Surface, configured: bool) { a.pending.bufferId.Some? && !configured }

  /** Such a commit is refused, and what was pending is lost whole. */
  function Refused(a: Surface): Surface {
    a.(pending := NOTHING_PENDING, dropped := a.dropped + a.pending.callbacks)
  }

  /** A synchronised commit: it joins what is cached already. */
  function CachedCommit(a: Surface): Surface {
    a.(pending := NOTHING_PENDING, cached := Some(Merge(Cached(a), a.pending)))
  }

  function WithoutPending(m: SurfaceMap, k: Key): SurfaceMap
    requires k in m
  {
    m[k := m[k].(pending := NOTHING_PENDING)]
  }

  function Resync(m: SurfaceMap, k: Key, sync: bool): SurfaceMap {
    if k in m then m[k := m[k].(subsurfaceSync := sync)] else m
  }

  lemma ResyncRooted(m: SurfaceMap, k: Key, sync: bool)
    requires Rooted(m)
    ensures Rooted(Resync(m, k, sync))
  {
    assert ParentsOf(Resync(m, k, sync)) == ParentsOf(m);
  }

  /** Where a request starts a drain, and over which surfaces; most start none. */
  datatype Start = Start(surfaces: SurfaceMap, from: Key)

  ghost function Starts(s: State, r: Request): Option<Start>
    requires Rooted(s.surfaces)
  {
    match r
    case Commit(k, configured) =>
      if k !in s.surfaces || TooEarly(s.surfaces[k], configured) || Synced(s.surfaces, k) then None
      else Some(Start(s.surfaces, k))
    case DestroySubsurface(k) =>
      if k !in s.subsurfaces then None else
        var surface := Key(k.client, s.subsurfaces[k]);
        Some(Start(UnlinkSubsurface(s.surfaces, surface), surface))
    case SetSync(k, sync) =>
      if k !in s.subsurfaces || sync then None else
        var surface := Key(k.client, s.subsurfaces[k]);
        ResyncRooted(s.surfaces, surface, sync);
        if Synced(Resync(s.surfaces, surface, sync), surface) then None
        else Some(Start(Resync(s.surfaces, surface, sync), surface))
    case _ => None
  }

  /** The request's handler comes back: what it drains, if anything, runs dry. */
  ghost predicate Completes(s: State, r: Request) {
    && Rooted(s.surfaces)
    && var start := Starts(s, r); start.Some? ==> Settles(start.value.surfaces, start.value.from)
  }

  /** `handle_commit`; `configured` is what `check_configured_before_buffer` would answer. */
  ghost function CommitStep(s: State, k: Key, configured: bool): State
    requires Completes(s, Commit(k, configured))
  {
    if k !in s.surfaces then s else
      var a := s.surfaces[k];
      if TooEarly(a, configured) then s.(surfaces := s.surfaces[k := Refused(a)])
      else if Synced(s.surfaces, k) then s.(surfaces := s.surfaces[k := CachedCommit(a)])
      else PassCommit(s, k)
  }

  /** A commit that applies at once. */
  ghost function PassCommit(s: State, k: Key): State
    requires Settles(s.surfaces, k) && k in s.surfaces
  {
    SameLinksSameGraph(s.surfaces, WithoutPending(s.surfaces, k));
    ApplyState(s.(surfaces := WithoutPending(s.surfaces, k)), k, s.surfaces[k].pending)
  }

  ghost function DestroySubsurfaceStep(s: State, k: Key): State
    requires Completes(s, DestroySubsurface(k))
  {
    if k !in s.subsurfaces then s else
      var surface := Key(k.client, s.subsurfaces[k]);
      var unlinked := UnlinkSubsurface(s.surfaces, surface);
      Unregister(Flush(s.(surfaces := unlinked, subsurfaces := s.subsurfaces - {k}), surface), k)
  }

  ghost function SetSyncStep(s: State, k: Key, sync: bool): State
    requires Completes(s, SetSync(k, sync))
  {
    if k !in s.subsurfaces then s else
      var surface := Key(k.client, s.subsurfaces[k]);
      var t := s.(surfaces := Resync(s.surfaces, surface, sync));
      ResyncRooted(s.surfaces, surface, sync);
      if sync || Synced(t.surfaces, surface) then t else Flush(t, surface)
  }

  function AttachStep(s: State, k: Key, buffer: nat, d: Point): State {
    if k !in s.surfaces then s else
      var p := s.surfaces[k].pending;
      s.(surfaces := s.surfaces[k := s.surfaces[k].(pending :=
           p.(bufferAttached := true,
              bufferId := if buffer == 0 then None else Some(buffer),
              offset := ClampOffset(SatMove(p.offset, d))))])
  }

  function FrameStep(s: State, k: Key, callback: nat): State {
    var id := Key(k.client, callback);
    if k !in s.surfaces || !CanRegister(s, id) then s else
      var surface := s.surfaces[k];
      Register(s, id, CallbackObject(k)).(
        surfaces := s.surfaces[k := surface.(
          pending := surface.pending.(callbacks := surface.pending.callbacks + [callback]),
          asked := surface.asked + [callback])])
  }

  function ShowStep(s: State, k: Key, outputs: set<nat>): State {
    if k !in s.surfaces then s
    else s.(surfaces := s.surfaces[k := s.surfaces[k].(visibleOn := outputs)])
  }

  // ----- Frames and releases -----

  predicate Covered(surface: Surface, target: FrameTarget) {
    match target
    case OnOutput(output) => output in surface.visibleOn
    case Offscreen => surface.visibleOn == {}
  }

  function Answered(surface: Surface): Surface {
    surface.(callbacks := [], feedbacks := [], answered := surface.answered + surface.callbacks)
  }

  /** The callbacks a frame answers. */
  function AnsweredIds(m: SurfaceMap, target: FrameTarget): set<Key> {
    set k, id | k in m && Covered(m[k], target) && id in m[k].callbacks :: Key(k.client, id)
  }

  /** `fire_frame_callbacks`: answer what is committed on covered surfaces, and forget the ids. */
  function FireStep(s: State, target: FrameTarget): State {
    s.(surfaces := map k | k in s.surfaces ::
         if Covered(s.surfaces[k], target) then Answered(s.surfaces[k]) else s.surfaces[k],
       objects := s.objects - AnsweredIds(s.surfaces, target))
  }

  predicate Attached(m: SurfaceMap, buffer: Key) {
    exists k :: k in m && k.client == buffer.client && m[k].bufferId == Some(buffer.id)
  }

  /** `start_buffer_releases`. */
  function StartStep(s: State): State {
    s.(pendingRelease := [],
       releasing := s.releasing + set b | b in s.pendingRelease && !Attached(s.surfaces, b))
  }

  /** What a tick finds free: queued, read by nobody, on no surface. */
  predicate Free(s: State, b: Key) { b in s.releasing && b !in s.readers && !Attached(s.surfaces, b) }

  /** The same buffers, told of in `order`, and only those that still exist. */
  function ReleasedEvents(s: State, order: seq<Key>): seq<BufferEvent> {
    if order == [] then []
    else ReleasedEvents(s, order[..|order| - 1])
         + (if order[|order| - 1] in s.buffers then [Released(order[|order| - 1])] else [])
  }

  /** A hash set is drained in no particular order. */
  ghost predicate Drains(s: State, order: seq<Key>) {
    Distinct(order) && forall b :: b in order <==> Free(s, b)
  }

  /** `finish_buffer_releases`, draining in `order`. */
  function FinishStep(s: State, order: seq<Key>): State {
    s.(releasing := (set b | b in s.releasing && !Free(s, b)), log := s.log + ReleasedEvents(s, order))
  }

  /** `register_buffer`: a fresh buffer, whatever was still owed to the id. */
  function CreateBufferStep(s: State, k: Key): State {
    if !CanRegister(s, k) then s
    else Register(s, k, BufferObject).(
           buffers := s.buffers + {k}, releasing := s.releasing - {k}, readers := s.readers - {k},
           log := s.log + [Made(k)])
  }

  function BeginReadStep(s: State, k: Key): State {
    if k !in s.buffers then s else s.(readers := s.readers + {k})
  }

  /** Housekeeping runs the two together, so nothing is displaced in between. */
  function TickStep(s: State, order: seq<Key>): State { FinishStep(StartStep(s), order) }

  // ----- Teardown -----

  function DestroyBufferStep(s: State, k: Key): State {
    if k !in s.buffers then s
    else Unregister(s, k).(
           buffers := s.buffers - {k},
           readers := s.readers - {k},
           releasing := s.releasing - {k},
           pendingRelease := Without(s.pendingRelease, k))
  }

  function OthersOf(keys: seq<Key>, client: nat): seq<Key> {
    if keys == [] then []
    else if keys[0].client == client then OthersOf(keys[1..], client)
    else [keys[0]] + OthersOf(keys[1..], client)
  }

  function DisconnectStep(s: State, client: nat): State {
    State(
      RemoveClient(s.surfaces, client),
      (map k | k in s.objects && k.client != client :: s.objects[k]),
      (map k | k in s.subsurfaces && k.client != client :: s.subsurfaces[k]),
      (map k | k in s.xdgSurfaces && k.client != client :: s.xdgSurfaces[k]),
      (map k | k in s.popups && k.client != client :: s.popups[k]),
      (map k | k in s.layers && k.client != client :: s.layers[k]),
      (set k | k in s.buffers && k.client != client),
      (set k | k in s.readers && k.client != client),
      OthersOf(s.pendingRelease, client),
      (set k | k in s.releasing && k.client != client),
      s.log)
  }

  // ----- Steps and runs -----

  /** Anything may be asked at any time; what never comes back is no step. Draining the release queue picks an order. */
  ghost predicate Enabled(s: State, r: Request, order: seq<Key>) {
    Completes(s, r) && (r.Tick? ==> Drains(StartStep(s), order))
  }

  ghost function Step(s: State, r: Request, order: seq<Key>): State
    requires Enabled(s, r, order)
  {
    match r
    case CreateSurface(k) => CreateSurfaceStep(s, k)
    case DestroySurface(k) => DestroySurfaceStep(s, k)
    case GetSubsurface(k, surface, parent, otherRole) => GetSubsurfaceStep(s, k, surface, parent, otherRole)
    case DestroySubsurface(k) => DestroySubsurfaceStep(s, k)
    case PlaceSubsurface(k, sibling, above) => PlaceStep(s, k, sibling, above)
    case SetSubsurfacePosition(k, at) => PositionStep(s, k, at)
    case SetSync(k, sync) => SetSyncStep(s, k, sync)
    case GetXdgSurface(k, surface, otherRole) => GetXdgSurfaceStep(s, k, surface, otherRole)
    case DestroyXdgSurface(k) => DestroyXdgSurfaceStep(s, k)
    case GetPopup(k, xdg, parentXdg, at) => GetPopupStep(s, k, xdg, parentXdg, at)
    case DestroyPopup(k) => DestroyPopupStep(s, k)
    case GetLayerSurface(k, surface, refused) => GetLayerSurfaceStep(s, k, surface, refused)
    case DestroyLayerSurface(k) => DestroyLayerSurfaceStep(s, k)
    case AdoptPopup(layer, popup, at) => AdoptPopupStep(s, layer, popup, at)
    case Attach(k, buffer, d) => AttachStep(s, k, buffer, d)
    case Frame(k, callback) => FrameStep(s, k, callback)
    case Commit(k, configured) => CommitStep(s, k, configured)
    case CreateBuffer(k) => CreateBufferStep(s, k)
    case DestroyBuffer(k) => DestroyBufferStep(s, k)
    case BeginRead(k) => BeginReadStep(s, k)
    case EndRead(k) => s.(readers := s.readers - {k})
    case ShowOn(k, outputs) => ShowStep(s, k, outputs)
    case FireCallbacks(target) => FireStep(s, target)
    case Tick => TickStep(s, order)
    case Disconnect(client) => DisconnectStep(s, client)
  }

  /** One request, and the order its draining took if it drained anything. */
  datatype Event = Event(request: Request, order: seq<Key>)

  ghost predicate Runs(s: State, events: seq<Event>, t: State)
    decreases |events|
  {
    if events == [] then s == t
    else Enabled(s, events[0].request, events[0].order)
         && Runs(Step(s, events[0].request, events[0].order), events[1..], t)
  }
}
