/**
 Clipboard, primary selection, and drag and drop as one state machine. Three interfaces share
 one map of sources and one of offers; offers outlive their sources; a drag moves between
 clients. The handlers are the methods of `DataCompositor`, proved against these functions.
 */
module DataTransfer {
  import opened Base

  // ----- Actions -----

  type Mask = bv32

  const DND_ACTION_NONE: Mask := 0
  const DND_ACTION_COPY: Mask := 1
  const DND_ACTION_MOVE: Mask := 2
  const DND_ACTION_ASK: Mask := 4
  const DND_ACTION_ALL: Mask := 7

  /** The version at which actions appear. */
  const ACTIONS_SINCE: nat := 3

  /** The version at which a data-control device hears of the primary selection. */
  const PRIMARY_SINCE: nat := 2

  predicate IsPowerOfTwo(p: Mask) { p != 0 && p & (p - 1) == 0 }

  predicate Defined(actions: Mask) { actions & !DND_ACTION_ALL == 0 }

  /** What a target's `set_actions` has to satisfy not to be an error. */
  predicate PreferenceFits(actions: Mask, preferred: Mask) {
    preferred == 0 || (IsPowerOfTwo(preferred) && preferred & actions != 0)
  }

  /** What a source of this version allows: one too old to say can only mean a copy. */
  function Allowed(actions: Mask, version: nat): Mask {
    if version >= ACTIONS_SINCE then actions else DND_ACTION_COPY
  }

  /** The preference where it is available, and otherwise copy ahead of move ahead of ask. */
  function Pick(available: Mask, preferred: Mask): Mask {
    if available == 0 then DND_ACTION_NONE
    else if preferred & available != 0 then preferred
    else if available & DND_ACTION_COPY != 0 then DND_ACTION_COPY
    else if available & DND_ACTION_MOVE != 0 then DND_ACTION_MOVE
    else if available & DND_ACTION_ASK != 0 then DND_ACTION_ASK
    else DND_ACTION_NONE
  }

  function ResolveAction(sourceActions: Mask, sourceVersion: nat, offerActions: Mask, offerPreferred: Mask,
                         offerVersion: nat): Mask {
    Pick(Allowed(sourceActions, sourceVersion) & Allowed(offerActions, offerVersion),
         if offerVersion >= ACTIONS_SINCE then offerPreferred else DND_ACTION_COPY)
  }

  lemma OneDefinedBit(p: Mask, actions: Mask)
    requires Defined(actions) && PreferenceFits(actions, p)
    ensures p == 0 || p == DND_ACTION_COPY || p == DND_ACTION_MOVE || p == DND_ACTION_ASK
  {}

  /** Nothing, exactly when nothing is agreed, or one action both sides allow. */
  predicate Fair(r: Mask, sourceAllows: Mask, offerAllows: Mask) {
    && (r == DND_ACTION_NONE <==> sourceAllows & offerAllows == 0)
    && (r == DND_ACTION_NONE || IsAction(r))
    && r & sourceAllows == r && r & offerAllows == r
  }

  predicate IsAction(r: Mask) { r == DND_ACTION_COPY || r == DND_ACTION_MOVE || r == DND_ACTION_ASK }

  lemma PickIsFair(available: Mask, preferred: Mask)
    requires Defined(available) && (preferred == 0 || IsAction(preferred))
    ensures var r := Pick(available, preferred);
      (r == DND_ACTION_NONE <==> available == 0) && (r == DND_ACTION_NONE || IsAction(r)) && r & available == r
  {}

  lemma PartOfBoth(r: Mask, a: Mask, b: Mask)
    requires r & (a & b) == r
    ensures r & a == r && r & b == r
  {}

  lemma DefinedTogether(a: Mask, b: Mask)
    requires Defined(a)
    ensures Defined(a & b)
  {}

  lemma ResolvedIsFair(sa: Mask, sv: nat, oa: Mask, op: Mask, ov: nat)
    requires Defined(sa) && Defined(oa) && PreferenceFits(oa, op)
    ensures Fair(ResolveAction(sa, sv, oa, op, ov), Allowed(sa, sv), Allowed(oa, ov))
  {
    OneDefinedBit(op, oa);
    DefinedTogether(Allowed(sa, sv), Allowed(oa, ov));
    PickIsFair(Allowed(sa, sv) & Allowed(oa, ov), if ov >= ACTIONS_SINCE then op else DND_ACTION_COPY);
    PartOfBoth(ResolveAction(sa, sv, oa, op, ov), Allowed(sa, sv), Allowed(oa, ov));
  }

  /** The target's preference wins wherever the source allows it. */
  lemma PreferenceWins(sa: Mask, sv: nat, oa: Mask, op: Mask, ov: nat)
    requires Defined(sa) && Defined(oa) && PreferenceFits(oa, op) && ov >= ACTIONS_SINCE
    requires op & Allowed(sa, sv) != 0
    ensures ResolveAction(sa, sv, oa, op, ov) == op
  {
    OneDefinedBit(op, oa);
  }

  /** What both sides allow. */
  function Available(sa: Mask, sv: nat, oa: Mask, ov: nat): Mask { Allowed(sa, sv) & Allowed(oa, ov) }

  /** One of the actions available, with none before it in the order copy, move, ask. */
  predicate FirstOf(r: Mask, available: Mask) { IsAction(r) && r & available == r && available & (r - 1) == 0 }

  /** And where it does not, copying goes ahead of moving and moving ahead of asking. */
  lemma FirstAvailableWins(sa: Mask, sv: nat, oa: Mask, op: Mask, ov: nat)
    requires Defined(sa) && Defined(oa) && PreferenceFits(oa, op) && Available(sa, sv, oa, ov) != 0
    requires ov >= ACTIONS_SINCE ==> op & Available(sa, sv, oa, ov) == 0
    ensures FirstOf(ResolveAction(sa, sv, oa, op, ov), Available(sa, sv, oa, ov))
  {
    DefinedTogether(Allowed(sa, sv), Allowed(oa, ov));
    PickIsFirst(Available(sa, sv, oa, ov), if ov >= ACTIONS_SINCE then op else DND_ACTION_COPY);
  }

  lemma PickIsFirst(available: Mask, preferred: Mask)
    requires Defined(available) && available != 0
    requires preferred & available == 0 || preferred == DND_ACTION_COPY
    ensures FirstOf(Pick(available, preferred), available)
  {}

  // ----- State -----

  datatype Interface = WlData | PrimarySelection | DataControl

  datatype Role = Unused | ForSelection | ForDrag

  /** `birth` is history: how many sources were made before this one. */
  datatype Source = Source(
    interface: Interface, mimes: seq<string>, actions: Mask, role: Role, cancelled: bool, birth: nat)

  datatype OfferKind = Selection | Drag | Dropped

  datatype Offer = Offer(
    source: Option<Key>, kind: OfferKind, accepted: Option<string>, actions: Mask, preferred: Mask, resolved: Mask)

  datatype DragState = DragState(
    source: Option<Key>, originClient: nat, origin: Key, icon: Option<Key>, focus: Option<Key>, focusOffers: seq<Key>)

  /** History: which key a source was made under, and of which interface. */
  datatype Birth = Birth(key: Key, interface: Interface)

  datatype ObjectKind =
    | SourceObject(interface: Interface)
    | DeviceObject(interface: Interface)
    | OfferObject(interface: Interface)

  datatype Object = Object(kind: ObjectKind, version: nat)

  /** What clients owning sources are told, oldest first, by the source's birth. */
  datatype Event =
    | Cancelled(birth: nat)
    | DropPerformed(birth: nat)
    | Finished(birth: nat)
    | SendContent(birth: nat, mime: string)
    | Targeted(birth: nat)

  /** `births` is history: every source ever made. A client is connected while it has a next server id. */
  datatype State = State(
    objects: map<Key, Object>,
    nextServerId: map<nat, nat>,
    sources: map<Key, Source>,
    offers: map<Key, Offer>,
    dataDevices: seq<Key>,
    primaryDevices: seq<Key>,
    controlDevices: seq<Key>,
    selection: Option<Key>,
    primary: Option<Key>,
    drag: Option<DragState>,
    grab: Option<Key>,
    focused: Option<Key>,
    surfaces: set<Key>,
    icons: set<Key>,
    births: seq<Birth>,
    log: seq<Event>)

  const INITIAL: State :=
    State(map[], map[], map[], map[], [], [], [], None, None, None, None, None, {}, {}, [], [])

  // ----- Objects and offers -----

  predicate CanRegister(s: State, k: Key) {
    k.client in s.nextServerId && ForClient(k.id) && k !in s.objects && k !in s.surfaces
  }

  function Register(s: State, k: Key, kind: ObjectKind, version: nat): State {
    s.(objects := s.objects[k := Object(kind, version)])
  }

  function Unregister(s: State, k: Key): State { s.(objects := s.objects - {k}) }

  /** The version an object was bound at, or 1. */
  function VersionOf(s: State, k: Key): nat {
    if k in s.objects then s.objects[k].version else 1
  }

  /** Whether the client's half of the compositor's id space has an id left. */
  predicate HasServerId(s: State, client: nat) {
    client in s.nextServerId && s.nextServerId[client] < SERVER_ID_END
  }

  function NextKey(s: State, client: nat): Key
    requires HasServerId(s, client)
  {
    Key(client, s.nextServerId[client])
  }

  /** Primary-selection offers carry no version, and so count as version 1. */
  function OfferVersion(s: State, device: Key, interface: Interface): nat {
    if interface.PrimarySelection? then 1 else VersionOf(s, device)
  }

  /** `create_offer`, when the client has an id left. */
  function AddOffer(s: State, device: Key, source: Key, kind: OfferKind, interface: Interface): State
    requires HasServerId(s, device.client)
  {
    var k := NextKey(s, device.client);
    s.(nextServerId := s.nextServerId[device.client := k.id + 1],
       objects := s.objects[k := Object(OfferObject(interface), OfferVersion(s, device, interface))],
       offers := s.offers[k := Offer(Some(source), kind, None, 0, 0, 0)])
  }

  /** Hand one device the selection, if there is one and the device is new enough to hear of it. */
  function OfferTo(s: State, device: Key, source: Option<Key>, interface: Interface, since: nat): State {
    if source.None? || VersionOf(s, device) < since || !HasServerId(s, device.client) then s
    else AddOffer(s, device, source.value, Selection, interface)
  }

  function OfferToAll(s: State, devices: seq<Key>, source: Option<Key>, interface: Interface, since: nat): State
    decreases |devices|
  {
    if devices == [] then s
    else OfferToAll(OfferTo(s, devices[0], source, interface, since), devices[1..], source, interface, since)
  }

  function DevicesOf(devices: seq<Key>, client: nat): seq<Key> {
    if devices == [] then []
    else (if devices[0].client == client then [devices[0]] else []) + DevicesOf(devices[1..], client)
  }

  /** The devices of the client with keyboard focus. */
  function FocusedDevices(s: State, devices: seq<Key>): seq<Key> {
    if s.focused.None? then [] else DevicesOf(devices, s.focused.value.client)
  }

  /** `announce_selection`. */
  function AnnounceSelection(s: State): State {
    var t := OfferToAll(s, FocusedDevices(s, s.dataDevices), s.selection, WlData, 0);
    OfferToAll(t, s.controlDevices, s.selection, DataControl, 0)
  }

  /** `announce_primary_selection`. */
  function AnnouncePrimary(s: State): State {
    var t := OfferToAll(s, FocusedDevices(s, s.primaryDevices), s.primary, PrimarySelection, 0);
    OfferToAll(t, s.controlDevices, s.primary, DataControl, PRIMARY_SINCE)
  }

  function Loose(o: Offer): Offer { o.(source := None, accepted := None) }

  /** `invalidate_offers_from`. */
  function InvalidateFrom(s: State, source: Key): State {
    s.(offers := map x | x in s.offers ::
         if s.offers[x].source == Some(source) then Loose(s.offers[x]) else s.offers[x])
  }

  /** `invalidate_offer`, on each of a list. */
  function InvalidateAll(s: State, list: seq<Key>): State {
    s.(offers := map x | x in s.offers :: if x in list then Loose(s.offers[x]) else s.offers[x])
  }

  /** `cancel_source`. */
  function Cancel(s: State, source: Key): State {
    if source !in s.sources then s
    else s.(sources := s.sources[source := s.sources[source].(cancelled := true)],
            log := s.log + [Cancelled(s.sources[source].birth)])
  }

  // ----- Selections -----

  /** The source that held a selection is told so, and what was offered from it goes dead. */
  function Displace(s: State, held: Option<Key>, source: Option<Key>): State {
    if held.Some? && held != source then InvalidateFrom(Cancel(s, held.value), held.value) else s
  }

  function SetSelection(s: State, source: Option<Key>): State {
    AnnounceSelection(Displace(s, s.selection, source).(selection := source))
  }

  function SetPrimary(s: State, source: Option<Key>): State {
    AnnouncePrimary(Displace(s, s.primary, source).(primary := source))
  }

  function ClearSelection(s: State): State { AnnounceSelection(s.(selection := None)) }

  function ClearPrimary(s: State): State { AnnouncePrimary(s.(primary := None)) }

  // ----- Drags -----

  function CancelDrag(s: State): State {
    if s.drag.None? then s else
      var drag := s.drag.value;
      var t := InvalidateAll(s.(drag := None), drag.focusOffers);
      if drag.source.Some? then Cancel(t, drag.source.value) else t
  }

  /** `send_target`, one for each offer with a source, in order. */
  function TargetEvents(s: State, list: seq<Key>): seq<Event> {
    if list == [] then []
    else (if list[0] in s.offers then TargetEvent(s, s.offers[list[0]].source) else []) + TargetEvents(s, list[1..])
  }

  function TargetEvent(s: State, source: Option<Key>): seq<Event> {
    if source.Some? && source.value in s.sources then [Targeted(s.sources[source.value].birth)] else []
  }

  /** `end_drag_focus`. */
  function EndDragFocus(s: State): State {
    if s.drag.None? || s.drag.value.focus.None? then s else
      var drag := s.drag.value;
      var t := InvalidateAll(s.(log := s.log + TargetEvents(s, drag.focusOffers)), drag.focusOffers);
      t.(drag := Some(drag.(focus := None, focusOffers := [])))
  }

  /** One drag offer more for each device, as far as ids last, and the keys of all made. */
  function OfferDrag(s: State, devices: seq<Key>, source: Option<Key>, made: seq<Key>): (State, seq<Key>)
    decreases |devices|
  {
    if devices == [] then (s, made)
    else if source.None? || !HasServerId(s, devices[0].client) then OfferDrag(s, devices[1..], source, made)
    else
      OfferDrag(AddOffer(s, devices[0], source.value, Drag, WlData), devices[1..], source,
                made + [NextKey(s, devices[0].client)])
  }

  /** What the two sides of an offer would settle on now. */
  function Settled(s: State, x: Key): Mask
    requires x in s.offers && s.offers[x].source.Some? && s.offers[x].source.value in s.sources
  {
    var o := s.offers[x];
    ResolveAction(s.sources[o.source.value].actions, VersionOf(s, o.source.value), o.actions, o.preferred,
      VersionOf(s, x))
  }

  predicate Negotiates(s: State, x: Key) {
    x in s.offers && !s.offers[x].kind.Selection? && s.offers[x].source.Some? && s.offers[x].source.value in s.sources
  }

  /** `resolve_offer_action`. */
  function Resolve(s: State, x: Key): State {
    if Negotiates(s, x) then s.(offers := s.offers[x := s.offers[x].(resolved := Settled(s, x))]) else s
  }

  /** Resolving some offers, in whatever order: no two affect each other. */
  function ResolveSome(s: State, list: set<Key>): State {
    s.(offers := map x | x in s.offers ::
         if x in list && Negotiates(s, x) then s.offers[x].(resolved := Settled(s, x)) else s.offers[x])
  }

  /** `enter_drag_surface`. */
  function EnterDrag(s: State, surface: Key): State {
    if s.drag.None? then s else
      var (t, made) := OfferDrag(s, DevicesOf(s.dataDevices, surface.client), s.drag.value.source, []);
      ResolveSome(t.(drag := Some(s.drag.value.(focus := Some(surface), focusOffers := made))), set x | x in made)
  }

  /** `update_drag`, with what the pointer is over. A drag with no source goes only to its own client. */
  function UpdateDrag(s: State, hit: Option<Key>): State {
    if s.drag.None? then s else
      var drag := s.drag.value;
      var over := if hit.Some? && (drag.source.Some? || hit.value.client == drag.originClient) then hit else None;
      if over == drag.focus then s
      else if over.Some? then EnterDrag(EndDragFocus(s), over.value) else EndDragFocus(s)
  }

  predicate Accepting(s: State, x: Key) {
    x in s.offers && s.offers[x].accepted.Some? && s.offers[x].resolved != DND_ACTION_NONE
  }

  /** `drag_target_accepted`. */
  predicate TargetAccepted(s: State) {
    s.drag.Some? && (exists x :: x in s.drag.value.focusOffers && Accepting(s, x))
  }

  function MarkDropped(s: State, list: seq<Key>): State {
    s.(offers := map x | x in s.offers :: if x in list then s.offers[x].(kind := Dropped) else s.offers[x])
  }

  /** `send_dnd_drop_performed` and `send_dnd_finished`: only to a source new enough to have them. */
  function TellIfNew(s: State, source: Key, e: Event): State {
    if source in s.objects && s.objects[source].version >= ACTIONS_SINCE then s.(log := s.log + [e]) else s
  }

  /** `finish_drag`. */
  function FinishDrag(s: State): State {
    if s.drag.None? then s else
      var drag := s.drag.value;
      var t := s.(drag := None);
      if drag.focus.None? then (if drag.source.Some? then Cancel(t, drag.source.value) else t)
      else if drag.source.None? then t
      else if !TargetAccepted(s) then Cancel(InvalidateAll(t, drag.focusOffers), drag.source.value)
      else if drag.source.value !in s.sources then MarkDropped(t, drag.focusOffers)
      else TellIfNew(MarkDropped(t, drag.focusOffers), drag.source.value,
        DropPerformed(s.sources[drag.source.value].birth))
  }

  // ----- Sources -----

  /** A source taken out of whatever slot it was in. */
  function Unslotted(s: State, source: Key): State {
    var t := if s.selection == Some(source) then ClearSelection(s) else s;
    var u := if t.primary == Some(source) then ClearPrimary(t) else t;
    if u.drag.Some? && u.drag.value.source == Some(source) then CancelDrag(u) else u
  }

  /** `retire_data_source`. */
  function Retire(s: State, source: Key, notify: bool): State {
    var t := InvalidateFrom(Unslotted(s, source), source);
    var u := if notify then Cancel(t, source) else t;
    u.(sources := u.sources - {source})
  }

  // ----- Requests -----

  datatype Request =
    | Connect(client: nat)
    | CreateSource(k: Key, interface: Interface, version: nat)
    | OfferMime(k: Key, mime: string)
    | SetSourceActions(k: Key, actions: Mask)
    | DestroySource(k: Key)
    | GetDevice(k: Key, interface: Interface, version: nat)
    | ReleaseDevice(k: Key)
    | StartDrag(client: nat, source: nat, origin: nat, icon: nat, pressed: bool, iconFree: bool)
    | SetClipboard(client: nat, source: nat, recent: bool)
    | SetPrimarySelection(client: nat, source: nat, recent: bool)
    | ControlSetSelection(client: nat, source: nat, onPrimary: bool)
    | Accept(k: Key, accepted: Option<string>)
    | Receive(k: Key, mime: string)
    | Finish(k: Key)
    | SetOfferActions(k: Key, actions: Mask, preferred: Mask)
    | DestroyOffer(k: Key)
    | Focus(surface: Option<Key>)
    | MovePointer(hit: Option<Key>)
    | ReleaseButton
    | EscapeDrag
    | StartGrab(window: Key)
    | EndGrab
    | CreateSurface(k: Key)
    | DestroySurface(k: Key)
    | Disconnect(client: nat)

  function CreateSourceStep(s: State, k: Key, interface: Interface, version: nat): State {
    if !CanRegister(s, k) then s
    else Register(s, k, SourceObject(interface), if interface.PrimarySelection? then 1 else version).(
           sources := s.sources[k := Source(interface, [], 0, Unused, false, |s.births|)],
           births := s.births + [Birth(k, interface)])
  }

  /** Adding a mime type: a repetition says nothing, and a cancelled data-control source may not. */
  function OfferMimeStep(s: State, k: Key, mime: string): State {
    if k !in s.sources || mime in s.sources[k].mimes then s
    else if s.sources[k].interface.DataControl? && s.sources[k].cancelled then s
    else s.(sources := s.sources[k := s.sources[k].(mimes := s.sources[k].mimes + [mime])])
  }

  /** `wl_data_source.set_actions`, and then every live drag offer settled again. */
  function SetSourceActionsStep(s: State, k: Key, actions: Mask): State {
    if k !in s.sources || !s.sources[k].interface.WlData? || !Defined(actions) then s
    else
      var t := s.(sources := s.sources[k := s.sources[k].(actions := actions)]);
      ResolveSome(t, t.offers.Keys)
  }

  function DestroySourceStep(s: State, k: Key): State {
    if k !in s.sources then s else Unregister(Retire(s, k, false), k)
  }

  /** Binding a device hands over at once what its client would otherwise only hear of later. */
  function GetDeviceStep(s: State, k: Key, interface: Interface, version: nat): State {
    if !CanRegister(s, k) then s else
      var focused := s.focused.Some? && s.focused.value.client == k.client;
      match interface
      case WlData =>
        var t := Register(s, k, DeviceObject(WlData), version).(dataDevices := s.dataDevices + [k]);
        if focused then OfferTo(t, k, t.selection, WlData, 0) else t
      case PrimarySelection =>
        var t := Register(s, k, DeviceObject(PrimarySelection), 1).(primaryDevices := s.primaryDevices + [k]);
        if focused then OfferTo(t, k, t.primary, PrimarySelection, 0) else t
      case DataControl =>
        var t := Register(s, k, DeviceObject(DataControl), version).(controlDevices := s.controlDevices + [k]);
        OfferTo(OfferTo(t, k, t.selection, DataControl, 0), k, t.primary, DataControl, PRIMARY_SINCE)
  }

  predicate IsDevice(s: State, k: Key) { k in s.objects && s.objects[k].kind.DeviceObject? }

  function ReleaseDeviceStep(s: State, k: Key): State {
    if !IsDevice(s, k) then s else
      Unregister(s, k).(
        dataDevices := if s.objects[k].kind.interface.WlData? then Without(s.dataDevices, k) else s.dataDevices,
        primaryDevices := if s.objects[k].kind.interface.PrimarySelection? then Without(s.primaryDevices, k)
          else s.primaryDevices,
        controlDevices := if s.objects[k].kind.interface.DataControl? then Without(s.controlDevices, k)
          else s.controlDevices)
  }

  /** `claim_source`: a `wl_data_source` of the client's own, not spent already. */
  predicate Claimable(s: State, k: Key) {
    k in s.sources && s.sources[k].interface.WlData? && s.sources[k].role.Unused?
  }

  function Claim(s: State, k: Key, role: Role): State
    requires k in s.sources
  {
    s.(sources := s.sources[k := s.sources[k].(role := role)])
  }

  function Begin(s: State, drag: DragState): State { s.(drag := Some(drag)) }

  /** `start_drag`; the icon role is taken before the source is looked at, and kept either way. */
  function StartDragStep(s: State, client: nat, source: nat, origin: nat, icon: nat, pressed: bool,
                         iconFree: bool): State {
    var on := Key(client, origin);
    var drawn := if icon == 0 then None else Some(Key(client, icon));
    if s.grab.Some? || s.drag.Some? || !pressed || on !in s.surfaces then s
    else if drawn.Some? && (drawn.value !in s.surfaces || drawn.value in s.icons || !iconFree) then s
    else
      var t := if drawn.Some? then s.(icons := s.icons + {drawn.value}) else s;
      if source == 0 then Begin(t, DragState(None, client, on, drawn, None, []))
      else if !Claimable(t, Key(client, source)) then t
      else Begin(Claim(t, Key(client, source), ForDrag),
        DragState(Some(Key(client, source)), client, on, drawn, None, []))
  }

  function SetClipboardStep(s: State, client: nat, source: nat, recent: bool): State {
    if !recent then s
    else if source == 0 then SetSelection(s, None)
    else if !Claimable(s, Key(client, source)) then s
    else SetSelection(Claim(s, Key(client, source), ForSelection), Some(Key(client, source)))
  }

  /** No single-use rule here: a primary source may be set again. */
  function SetPrimaryStep(s: State, client: nat, source: nat, recent: bool): State {
    var k := Key(client, source);
    if !recent then s
    else if source == 0 then SetPrimary(s, None)
    else if k !in s.sources || !s.sources[k].interface.PrimarySelection? then s
    else SetPrimary(s, Some(k))
  }

  function ControlSetStep(s: State, client: nat, source: nat, onPrimary: bool): State {
    var k := Key(client, source);
    if source == 0 then (if onPrimary then SetPrimary(s, None) else SetSelection(s, None))
    else if k !in s.sources || !s.sources[k].interface.DataControl? || !s.sources[k].role.Unused? then s
    else
      var t := Claim(s, k, ForSelection);
      if onPrimary then SetPrimary(t, Some(k)) else SetSelection(t, Some(k))
  }

  /** The offer behind a request on an offer object of this interface. */
  predicate IsWlOffer(s: State, k: Key) {
    k in s.offers && k in s.objects && s.objects[k].kind == OfferObject(WlData)
  }

  function AcceptStep(s: State, k: Key, mime: Option<string>): State {
    if !IsWlOffer(s, k) then s else
      var t := s.(offers := s.offers[k := s.offers[k].(accepted := mime)],
                  log := s.log + TargetEvent(s, s.offers[k].source));
      Resolve(t, k)
  }

  /** `receive`: the descriptor is passed on only for a mime type its source offered. */
  function ReceiveStep(s: State, k: Key, mime: string): State {
    if k in s.offers && s.offers[k].source.Some? && s.offers[k].source.value in s.sources
       && mime in s.sources[s.offers[k].source.value].mimes
    then s.(log := s.log + [SendContent(s.sources[s.offers[k].source.value].birth, mime)]) else s
  }

  /** An offer with nothing left to read. */
  function Spent(s: State, k: Key): State
    requires k in s.offers
  {
    s.(offers := s.offers[k := s.offers[k].(source := None)])
  }

  function FinishStep(s: State, k: Key): State {
    if !IsWlOffer(s, k) || !s.offers[k].kind.Dropped? then s else
      var source := s.offers[k].source;
      if source.Some? && source.value in s.sources
      then TellIfNew(Spent(s, k), source.value, Finished(s.sources[source.value].birth)) else Spent(s, k)
  }

  function SetOfferActionsStep(s: State, k: Key, actions: Mask, preferred: Mask): State {
    if !IsWlOffer(s, k) || !Defined(actions) || !PreferenceFits(actions, preferred) then s
    else Resolve(s.(offers := s.offers[k := s.offers[k].(actions := actions, preferred := preferred)]), k)
  }

  /** Destroying an offer bows its client out of any drag it was for. */
  function DestroyOfferStep(s: State, k: Key): State {
    if k !in s.offers then s
    else Unregister(s, k).(
           offers := s.offers - {k},
           drag := if s.drag.Some? then Some(s.drag.value.(focusOffers := Without(s.drag.value.focusOffers, k)))
             else None)
  }

  /** `switch_focus` and `clear_focus`: a client that gains focus is handed both selections. */
  function FocusStep(s: State, surface: Option<Key>): State {
    if surface == s.focused then s
    else
      var t := s.(focused := surface);
      if surface.None? then t else
        var u := OfferToAll(t, DevicesOf(t.dataDevices, surface.value.client), t.selection, WlData, 0);
        OfferToAll(u, DevicesOf(t.primaryDevices, surface.value.client), t.primary, PrimarySelection, 0)
  }

  /** `destroy_surface`, as far as it touches drags and focus. */
  function DestroySurfaceStep(s: State, k: Key): State {
    if k !in s.surfaces then s else
      var t := s.(surfaces := s.surfaces - {k}, icons := s.icons - {k},
                  focused := if s.focused == Some(k) then None else s.focused);
      if t.drag.None? then t
      else if t.drag.value.origin == k then CancelDrag(t)
      else
        var u := if t.drag.value.icon == Some(k) then t.(drag := Some(t.drag.value.(icon := None))) else t;
        if u.drag.value.focus == Some(k) then EndDragFocus(u) else u
  }

  function OthersOf(keys: seq<Key>, client: nat): seq<Key> {
    if keys == [] then []
    else (if keys[0].client != client then [keys[0]] else []) + OthersOf(keys[1..], client)
  }

  predicate BelongsTo(k: Option<Key>, client: nat) { k.Some? && k.value.client == client }

  /** `remove_client_resources` step by step, up to where the tables are emptied of the client. */
  function LeaveDrag(s: State, client: nat): State {
    if s.drag.Some? && s.drag.value.originClient == client then CancelDrag(s)
    else if s.drag.Some? && BelongsTo(s.drag.value.focus, client)
    then s.(drag := Some(s.drag.value.(focus := None, focusOffers := [])))
    else s
  }

  function LeaveSelections(s: State, client: nat): State {
    var t := if BelongsTo(s.selection, client) then ClearSelection(s) else s;
    if BelongsTo(t.primary, client) then ClearPrimary(t) else t
  }

  function DropClient(s: State, client: nat): State {
    s.(objects := map k | k in s.objects && k.client != client :: s.objects[k],
       nextServerId := s.nextServerId - {client},
       sources := map k | k in s.sources && k.client != client :: s.sources[k],
       offers := map x | x in s.offers && x.client != client ::
         if BelongsTo(s.offers[x].source, client) && s.offers[x].source.value in s.sources then Loose(s.offers[x])
           else s.offers[x],
       dataDevices := OthersOf(s.dataDevices, client),
       primaryDevices := OthersOf(s.primaryDevices, client),
       controlDevices := OthersOf(s.controlDevices, client),
       icons := (set k | k in s.icons && k.client != client),
       focused := if BelongsTo(s.focused, client) then None else s.focused)
  }

  function DisconnectStep(s: State, client: nat): State {
    var t := s.(surfaces := (set k | k in s.surfaces && k.client != client),
                grab := if BelongsTo(s.grab, client) then None else s.grab);
    DropClient(LeaveSelections(LeaveDrag(t, client), client), client)
  }

  /** What the rest of the compositor guarantees about the events it passes on. */
  predicate Enabled(s: State, r: Request) {
    match r
    case Connect(client) => client !in s.nextServerId
    case MovePointer(hit) => hit.Some? ==> hit.value in s.surfaces
    case CreateSurface(k) => CanRegister(s, k)
    case _ => true
  }

  function Step(s: State, r: Request): State
    requires Enabled(s, r)
  {
    match r
    case Connect(client) => s.(nextServerId := s.nextServerId[client := SERVER_ID_BASE])
    case CreateSource(k, interface, version) => CreateSourceStep(s, k, interface, version)
    case OfferMime(k, mime) => OfferMimeStep(s, k, mime)
    case SetSourceActions(k, actions) => SetSourceActionsStep(s, k, actions)
    case DestroySource(k) => DestroySourceStep(s, k)
    case GetDevice(k, interface, version) => GetDeviceStep(s, k, interface, version)
    case ReleaseDevice(k) => ReleaseDeviceStep(s, k)
    case StartDrag(client, source, origin, icon, pressed, iconFree) =>
      StartDragStep(s, client, source, origin, icon, pressed, iconFree)
    case SetClipboard(client, source, recent) => SetClipboardStep(s, client, source, recent)
    case SetPrimarySelection(client, source, recent) => SetPrimaryStep(s, client, source, recent)
    case ControlSetSelection(client, source, onPrimary) => ControlSetStep(s, client, source, onPrimary)
    case Accept(k, mime) => AcceptStep(s, k, mime)
    case Receive(k, mime) => ReceiveStep(s, k, mime)
    case Finish(k) => FinishStep(s, k)
    case SetOfferActions(k, actions, preferred) => SetOfferActionsStep(s, k, actions, preferred)
    case DestroyOffer(k) => DestroyOfferStep(s, k)
    case Focus(surface) => FocusStep(s, surface)
    case MovePointer(hit) => UpdateDrag(s, hit)
    case ReleaseButton => if s.grab.Some? then s.(grab := None) else FinishDrag(s)
    case EscapeDrag => CancelDrag(s)
    case StartGrab(surface) => if s.drag.Some? then s else s.(grab := Some(surface))
    case EndGrab => s.(grab := None)
    case CreateSurface(k) => s.(surfaces := s.surfaces + {k})
    case DestroySurface(k) => DestroySurfaceStep(s, k)
    case Disconnect(client) => DisconnectStep(s, client)
  }

  ghost predicate Runs(s: State, requests: seq<Request>, t: State)
    decreases |requests|
  {
    if requests == [] then s == t
    else Enabled(s, requests[0]) && Runs(Step(s, requests[0]), requests[1..], t)
  }
}
