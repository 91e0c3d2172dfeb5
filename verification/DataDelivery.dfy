/**
 Who is handed what: every device that is to hear of a selection or a drag is made an offer of it while its
 client has ids left, and nobody else is. Said of a client at a time, by counting its devices and its ids.
 */
module DataDelivery {
  import opened Base
  import opened DataTransfer
  import opened DataInvariant
  import opened DataRuns

  // ----- The devices there are -----

  /** A list of devices is every object of that kind, once. */
  ghost predicate ListsAll(s: State, devices: seq<Key>, interface: Interface) {
    && Distinct(devices)
    && forall d :: d in devices <==> d in s.objects && s.objects[d].kind == DeviceObject(interface)
  }

  ghost predicate DevicesListed(s: State) {
    && ListsAll(s, s.dataDevices, WlData)
    && ListsAll(s, s.primaryDevices, PrimarySelection)
    && ListsAll(s, s.controlDevices, DataControl)
  }

  // ----- Offers, handed out -----

  /** An offer to be made, and the object it is to be. */
  datatype Handout = Handout(thing: Object, offer: Offer)

  function Lesser(a: nat, b: nat): nat { if a < b then a else b }

  /** How many ids the compositor has left to give this client. */
  function IdsLeft(s: State, c: nat): nat {
    if c in s.nextServerId && s.nextServerId[c] < SERVER_ID_END then SERVER_ID_END - s.nextServerId[c] else 0
  }

  function NextId(s: State, c: nat): nat { if c in s.nextServerId then s.nextServerId[c] else 0 }

  ghost predicate NewOffer(s: State, t: State, x: Key) { x in t.offers && x !in s.offers }

  /** This client's new offers are these, in the order of their ids, as far as its ids go. */
  ghost predicate Handed(s: State, t: State, c: nat, list: seq<Handout>) {
    var first, n := NextId(s, c), Lesser(|list|, IdsLeft(s, c));
    && t.nextServerId.Keys == s.nextServerId.Keys && NextId(t, c) == first + n
    && (forall x: Key :: x.client == c ==> (NewOffer(s, t, x) <==> first <= x.id < first + n))
    && (forall x: Key :: x.client == c && NewOffer(s, t, x) ==>
          && t.offers[x] == list[x.id - first].offer
          && x in t.objects && t.objects[x] == list[x.id - first].thing)
  }

  /** New offers, the objects they are and the ids they took are all that differs. */
  ghost predicate MoreOffers(s: State, t: State) {
    && t == s.(objects := t.objects, nextServerId := t.nextServerId, offers := t.offers)
    && (forall x :: x in s.offers ==> x in t.offers && t.offers[x] == s.offers[x])
    && (forall k :: k in s.objects ==> k in t.objects && t.objects[k] == s.objects[k])
    && (forall k :: k in t.objects && k !in s.objects ==> t.objects[k].kind.OfferObject?)
  }

  lemma MoreTransitive(s: State, t: State, u: State)
    requires MoreOffers(s, t) && MoreOffers(t, u)
    ensures MoreOffers(s, u)
  {}

  lemma HandedJoin(s: State, t: State, u: State, c: nat, a: seq<Handout>, b: seq<Handout>)
    requires MoreOffers(s, t) && MoreOffers(t, u) && Handed(s, t, c, a) && Handed(t, u, c, b)
    ensures Handed(s, u, c, a + b)
  {
    var first := NextId(s, c);
    forall x: Key | x.client == c
      ensures NewOffer(s, u, x) <==> NewOffer(s, t, x) || NewOffer(t, u, x)
      ensures NewOffer(s, t, x) ==> u.offers[x] == t.offers[x] && u.objects[x] == t.objects[x]
    {
      if NewOffer(s, t, x) { assert x in t.objects; }
    }
  }

  lemma NothingHanded(s: State, c: nat)
    ensures Handed(s, s, c, []) && MoreOffers(s, s)
  {}

  lemma AddOfferIsMore(s: State, device: Key, source: Key, kind: OfferKind, interface: Interface)
    requires Named(s) && HasServerId(s, device.client)
    ensures var t := AddOffer(s, device, source, kind, interface);
      MoreOffers(s, t) && Named(t) && NewOffer(s, t, NextKey(s, device.client))
  {
    AddOfferNamed(s, device, source, kind, interface);
    assert NextKey(s, device.client) !in s.offers;
  }

  lemma AddOfferHands(s: State, device: Key, source: Key, kind: OfferKind, interface: Interface, c: nat)
    requires HasServerId(s, device.client) && NextKey(s, device.client) !in s.offers
    ensures Handed(s, AddOffer(s, device, source, kind, interface), c, if c != device.client then [] else
      [Handout(Object(OfferObject(interface), OfferVersion(s, device, interface)),
               Offer(Some(source), kind, None, 0, 0, 0))])
  {}

  // ----- What a list of devices is owed -----

  /** The version an offer is given: its device's, and 1 where offers carry none. */
  function VersionFor(s: State, d: Key, interface: Interface): nat
    requires d in s.objects
  {
    if interface.PrimarySelection? then 1 else s.objects[d].version
  }

  /** An offer of this source for each of one client's devices in a list that is new enough to hear of it. */
  function Owed(s: State, devices: seq<Key>, c: nat, source: Key, kind: OfferKind, interface: Interface,
                since: nat): seq<Handout>
    requires forall d :: d in devices ==> d in s.objects
  {
    if devices == [] then [] else
      var d := devices[0];
      (if d.client == c && s.objects[d].version >= since
       then [Handout(Object(OfferObject(interface), VersionFor(s, d, interface)),
                     Offer(Some(source), kind, None, 0, 0, 0))]
       else [])
      + Owed(s, devices[1..], c, source, kind, interface, since)
  }

  /** The devices of a list that are this client's, and new enough. */
  ghost function Hearing(s: State, devices: seq<Key>, c: nat, since: nat): set<Key>
    requires forall d :: d in devices ==> d in s.objects
  {
    set d | d in devices && d.client == c && s.objects[d].version >= since
  }

  lemma HearingFirst(s: State, devices: seq<Key>, c: nat, since: nat)
    requires Distinct(devices) && devices != [] && forall d :: d in devices ==> d in s.objects
    ensures var d, others := devices[0], Hearing(s, devices[1..], c, since);
      && d !in others
      && Hearing(s, devices, c, since)
         == if d.client == c && s.objects[d].version >= since then others + {d} else others
  {
    assert devices[0] !in devices[1..];
    assert devices == [devices[0]] + devices[1..];
  }

  /** And so one for each such device, however they are listed. */
  lemma {:induction false} OwedCount(s: State, devices: seq<Key>, c: nat, source: Key, kind: OfferKind,
                                     interface: Interface, since: nat)
    requires Distinct(devices) && forall d :: d in devices ==> d in s.objects
    ensures |Owed(s, devices, c, source, kind, interface, since)| == |Hearing(s, devices, c, since)|
  {
    if devices != [] {
      OwedCount(s, devices[1..], c, source, kind, interface, since);
      HearingFirst(s, devices, c, since);
    }
  }

  lemma {:induction false} OwedSame(s: State, t: State, devices: seq<Key>, c: nat, source: Key, kind: OfferKind,
                                    interface: Interface, since: nat)
    requires forall d :: d in devices ==>
      d in s.objects && d in t.objects && t.objects[d].version == s.objects[d].version
    ensures Owed(t, devices, c, source, kind, interface, since) == Owed(s, devices, c, source, kind, interface, since)
  {
    if devices != [] { OwedSame(s, t, devices[1..], c, source, kind, interface, since); }
  }

  /** A selection handed to a list of devices. */
  lemma {:induction false} OfferToAllHands(s: State, devices: seq<Key>, source: Key, interface: Interface, since: nat,
                                           c: nat)
    requires Named(s) && forall d :: d in devices ==> d in s.objects
    ensures var t := OfferToAll(s, devices, Some(source), interface, since);
      && MoreOffers(s, t) && Named(t)
      && Handed(s, t, c, Owed(s, devices, c, source, Selection, interface, since))
    decreases |devices|
  {
    if devices == [] {
      NothingHanded(s, c);
    } else {
      var t := OfferTo(s, devices[0], Some(source), interface, since);
      OfferToHands(s, devices[0], source, interface, since, c);
      OfferToAllHands(t, devices[1..], source, interface, since, c);
      OwedSame(s, t, devices[1..], c, source, Selection, interface, since);
      var u := OfferToAll(t, devices[1..], Some(source), interface, since);
      MoreTransitive(s, t, u);
      HandedJoin(s, t, u, c, OwedOne(s, devices[0], c, source, interface, since),
        Owed(s, devices[1..], c, source, Selection, interface, since));
    }
  }

  function OwedOne(s: State, d: Key, c: nat, source: Key, interface: Interface, since: nat): seq<Handout>
    requires d in s.objects
  {
    if d.client == c && s.objects[d].version >= since
    then [Handout(Object(OfferObject(interface), VersionFor(s, d, interface)),
                  Offer(Some(source), Selection, None, 0, 0, 0))]
    else []
  }

  lemma OfferToHands(s: State, d: Key, source: Key, interface: Interface, since: nat, c: nat)
    requires Named(s) && d in s.objects
    ensures var t := OfferTo(s, d, Some(source), interface, since);
      MoreOffers(s, t) && Named(t) && Handed(s, t, c, OwedOne(s, d, c, source, interface, since))
  {
    if VersionOf(s, d) < since {
      NothingHanded(s, c);
    } else if !HasServerId(s, d.client) {
      SpentHands(s, c, OwedOne(s, d, c, source, interface, since));
    } else {
      AddOfferIsMore(s, d, source, Selection, interface);
      AddOfferHands(s, d, source, Selection, interface, c);
    }
  }

  /** A client with no ids left is handed nothing, whatever it is owed. */
  lemma SpentHands(s: State, c: nat, list: seq<Handout>)
    requires list == [] || IdsLeft(s, c) == 0
    ensures Handed(s, s, c, list) && MoreOffers(s, s)
  {}

  // ----- One client's share -----

  /** This client has keyboard focus. */
  ghost predicate HasFocus(s: State, c: nat) { s.focused.Some? && s.focused.value.client == c }

  ghost predicate AllThere(s: State, devices: seq<Key>) { forall d :: d in devices ==> d in s.objects }

  lemma {:induction false} OthersOwed(s: State, devices: seq<Key>, client: nat, c: nat, source: Key, kind: OfferKind,
                                      interface: Interface, since: nat)
    requires AllThere(s, devices)
    ensures AllThere(s, DevicesOf(devices, client))
    ensures Owed(s, DevicesOf(devices, client), c, source, kind, interface, since)
         == if c == client then Owed(s, devices, c, source, kind, interface, since) else []
  {
    DevicesBelong(devices, client);
    if devices != [] {
      OthersOwed(s, devices[1..], client, c, source, kind, interface, since);
      var mine, rest := DevicesOf(devices, client), DevicesOf(devices[1..], client);
      if devices[0].client == client {
        assert mine[0] == devices[0] && mine[1..] == rest;
      } else {
        assert mine == rest;
      }
    }
  }

  /** What a client is owed when this source goes on the clipboard. */
  ghost function ClipboardOwed(s: State, c: nat, source: Key): seq<Handout>
    requires DevicesListed(s)
  {
    (if HasFocus(s, c) then Owed(s, s.dataDevices, c, source, Selection, WlData, 0) else [])
    + Owed(s, s.controlDevices, c, source, Selection, DataControl, 0)
  }

  /** And on the primary selection, of which a data-control device of version 1 does not hear. */
  ghost function PrimaryOwed(s: State, c: nat, source: Key): seq<Handout>
    requires DevicesListed(s)
  {
    (if HasFocus(s, c) then Owed(s, s.primaryDevices, c, source, Selection, PrimarySelection, 0) else [])
    + Owed(s, s.controlDevices, c, source, Selection, DataControl, 2)
  }

  lemma FocusedHands(s: State, devices: seq<Key>, source: Key, interface: Interface, c: nat)
    requires Named(s) && AllThere(s, devices)
    ensures var t := OfferToAll(s, FocusedDevices(s, devices), Some(source), interface, 0);
      && MoreOffers(s, t) && Named(t)
      && Handed(s, t, c, if HasFocus(s, c) then Owed(s, devices, c, source, Selection, interface, 0) else [])
  {
    if s.focused.None? {
      NothingHanded(s, c);
    } else {
      OthersOwed(s, devices, s.focused.value.client, c, source, Selection, interface, 0);
      OfferToAllHands(s, DevicesOf(devices, s.focused.value.client), source, interface, 0, c);
    }
  }

  /** Two lists of devices, one after the other. */
  lemma TwoHand(s: State, t: State, devices: seq<Key>, source: Key, interface: Interface, since: nat, c: nat,
                a: seq<Handout>)
    requires MoreOffers(s, t) && Named(t) && Handed(s, t, c, a) && AllThere(s, devices)
    ensures var u := OfferToAll(t, devices, Some(source), interface, since);
      MoreOffers(s, u) && Named(u) && Handed(s, u, c, a + Owed(s, devices, c, source, Selection, interface, since))
  {
    var u := OfferToAll(t, devices, Some(source), interface, since);
    OfferToAllHands(t, devices, source, interface, since, c);
    OwedSame(s, t, devices, c, source, Selection, interface, since);
    MoreTransitive(s, t, u);
    HandedJoin(s, t, u, c, a, Owed(t, devices, c, source, Selection, interface, since));
  }

  lemma AnnouncedToAll(s: State, source: Key, c: nat)
    requires Named(s) && DevicesListed(s) && s.selection == Some(source)
    ensures var t := AnnounceSelection(s); MoreOffers(s, t) && Named(t) && Handed(s, t, c, ClipboardOwed(s, c, source))
  {
    var t := OfferToAll(s, FocusedDevices(s, s.dataDevices), s.selection, WlData, 0);
    FocusedHands(s, s.dataDevices, source, WlData, c);
    TwoHand(s, t, s.controlDevices, source, DataControl, 0, c,
      if HasFocus(s, c) then Owed(s, s.dataDevices, c, source, Selection, WlData, 0) else []);
  }

  lemma PrimaryAnnouncedToAll(s: State, source: Key, c: nat)
    requires Named(s) && DevicesListed(s) && s.primary == Some(source)
    ensures var t := AnnouncePrimary(s); MoreOffers(s, t) && Named(t) && Handed(s, t, c, PrimaryOwed(s, c, source))
  {
    var t := OfferToAll(s, FocusedDevices(s, s.primaryDevices), s.primary, PrimarySelection, 0);
    FocusedHands(s, s.primaryDevices, source, PrimarySelection, c);
    TwoHand(s, t, s.controlDevices, source, DataControl, 2, c,
      if HasFocus(s, c) then Owed(s, s.primaryDevices, c, source, Selection, PrimarySelection, 0) else []);
  }

  // ----- Setting a selection -----

  /** Nothing differs that who hears of a selection, and under what ids, depends on. */
  ghost predicate SameAudience(s: State, t: State) {
    && t.objects == s.objects && t.nextServerId == s.nextServerId && t.offers.Keys == s.offers.Keys
    && t.sources.Keys == s.sources.Keys
    && (forall k :: k in s.sources ==> t.sources[k].interface == s.sources[k].interface)
    && t.dataDevices == s.dataDevices && t.primaryDevices == s.primaryDevices && t.controlDevices == s.controlDevices
    && t.focused == s.focused
  }

  lemma SameNamed(s: State, t: State)
    requires SameAudience(s, t) && Named(s)
    ensures Named(t)
  {
    assert forall k :: k in t.sources <==> k in s.sources;
    assert forall x :: x in t.offers <==> x in s.offers;
  }

  lemma SameOwed(s: State, t: State, c: nat, source: Key)
    requires SameAudience(s, t) && DevicesListed(s)
    ensures DevicesListed(t)
    ensures ClipboardOwed(t, c, source) == ClipboardOwed(s, c, source)
    ensures PrimaryOwed(t, c, source) == PrimaryOwed(s, c, source)
  {
    OwedSame(s, t, s.dataDevices, c, source, Selection, WlData, 0);
    OwedSame(s, t, s.primaryDevices, c, source, Selection, PrimarySelection, 0);
    OwedSame(s, t, s.controlDevices, c, source, Selection, DataControl, 0);
    OwedSame(s, t, s.controlDevices, c, source, Selection, DataControl, 2);
  }

  lemma SameHanded(s: State, t: State, u: State, c: nat, list: seq<Handout>)
    requires SameAudience(s, t) && Handed(t, u, c, list)
    ensures Handed(s, u, c, list)
  {
    assert forall x :: x in t.offers <==> x in s.offers;
  }

  lemma DisplacedAudience(s: State, t: State, held: Option<Key>, source: Option<Key>)
    requires SameAudience(s, t)
    ensures SameAudience(s, Displace(t, held, source))
  {
    var u := Displace(t, held, source);
    assert u.offers.Keys == t.offers.Keys;
  }

  lemma SelectionHeard(s: State, t: State, source: Key, c: nat)
    requires Named(s) && DevicesListed(s) && SameAudience(s, t)
    ensures Handed(s, SetSelection(t, Some(source)), c, ClipboardOwed(s, c, source))
  {
    DisplacedAudience(s, t, t.selection, Some(source));
    var u := Displace(t, t.selection, Some(source)).(selection := Some(source));
    SameNamed(s, u);
    SameOwed(s, u, c, source);
    AnnouncedToAll(u, source, c);
    SameHanded(s, u, SetSelection(t, Some(source)), c, ClipboardOwed(s, c, source));
  }

  lemma PrimaryHeard(s: State, t: State, source: Key, c: nat)
    requires Named(s) && DevicesListed(s) && SameAudience(s, t)
    ensures Handed(s, SetPrimary(t, Some(source)), c, PrimaryOwed(s, c, source))
  {
    DisplacedAudience(s, t, t.primary, Some(source));
    var u := Displace(t, t.primary, Some(source)).(primary := Some(source));
    SameNamed(s, u);
    SameOwed(s, u, c, source);
    PrimaryAnnouncedToAll(u, source, c);
    SameHanded(s, u, SetPrimary(t, Some(source)), c, PrimaryOwed(s, c, source));
  }

  // ----- Which requests do it -----

  /** A request that puts this source on the clipboard: recent enough, and of a source not used before. */
  predicate SetsClipboard(s: State, r: Request, k: Key) {
    match r
    case SetClipboard(client, source, recent) =>
      recent && source != 0 && k == Key(client, source) && Unspent(s, k, WlData)
    case ControlSetSelection(client, source, onPrimary) =>
      !onPrimary && source != 0 && k == Key(client, source) && Unspent(s, k, DataControl)
    case _ => false
  }

  predicate Unspent(s: State, k: Key, interface: Interface) {
    k in s.sources && s.sources[k].role.Unused? && s.sources[k].interface == interface
  }

  /** Or on the primary selection, where only a data-control source has to be unused. */
  predicate SetsPrimary(s: State, r: Request, k: Key) {
    match r
    case SetPrimarySelection(client, source, recent) =>
      recent && source != 0 && k == Key(client, source) && k in s.sources && s.sources[k].interface.PrimarySelection?
    case ControlSetSelection(client, source, onPrimary) =>
      onPrimary && source != 0 && k == Key(client, source) && Unspent(s, k, DataControl)
    case _ => false
  }

  predicate ClearsClipboard(s: State, r: Request) {
    match r
    case SetClipboard(client, source, recent) => recent && source == 0
    case ControlSetSelection(client, source, onPrimary) => !onPrimary && source == 0
    case DestroySource(k) => k in s.sources && s.selection == Some(k)
    case Disconnect(client) => s.selection.Some? && s.selection.value.client == client
    case _ => false
  }

  predicate ClearsPrimary(s: State, r: Request) {
    match r
    case SetPrimarySelection(client, source, recent) => recent && source == 0
    case ControlSetSelection(client, source, onPrimary) => onPrimary && source == 0
    case DestroySource(k) => k in s.sources && s.primary == Some(k)
    case Disconnect(client) => s.primary.Some? && s.primary.value.client == client
    case _ => false
  }

  /**
   A source put on the clipboard is offered at once on every data device of the client with focus and on every
   data-control device, one offer each for as long as the client has ids; and on no other.
   */
  lemma ClipboardReaches(s: State, r: Request, k: Key, c: nat)
    requires Named(s) && DevicesListed(s) && SetsClipboard(s, r, k)
    ensures Step(s, r).selection == Some(k) && Handed(s, Step(s, r), c, ClipboardOwed(s, c, k))
  {
    var t := Claim(s, k, ForSelection);
    assert t.sources.Keys == s.sources.Keys;
    SelectionHeard(s, t, k, c);
    SelectionIsSet(t, Some(k));
  }

  lemma PrimaryReaches(s: State, r: Request, k: Key, c: nat)
    requires Named(s) && DevicesListed(s) && SetsPrimary(s, r, k)
    ensures Step(s, r).primary == Some(k) && Handed(s, Step(s, r), c, PrimaryOwed(s, c, k))
  {
    var t := if r.SetPrimarySelection? then s else Claim(s, k, ForSelection);
    assert t.sources.Keys == s.sources.Keys;
    PrimaryHeard(s, t, k, c);
    PrimaryIsSet(t, Some(k));
  }

  lemma AnnouncedAside(s: State)
    ensures var t := AnnounceSelection(s);
      t == s.(objects := t.objects, nextServerId := t.nextServerId, offers := t.offers)
    ensures var t := AnnouncePrimary(s);
      t == s.(objects := t.objects, nextServerId := t.nextServerId, offers := t.offers)
  {
    OfferToAllAdds(s, FocusedDevices(s, s.dataDevices), s.selection, WlData, 0);
    var t := OfferToAll(s, FocusedDevices(s, s.dataDevices), s.selection, WlData, 0);
    OfferToAllAdds(t, s.controlDevices, s.selection, DataControl, 0);
    OfferToAllAdds(s, FocusedDevices(s, s.primaryDevices), s.primary, PrimarySelection, 0);
    var u := OfferToAll(s, FocusedDevices(s, s.primaryDevices), s.primary, PrimarySelection, 0);
    OfferToAllAdds(u, s.controlDevices, s.primary, DataControl, PRIMARY_SINCE);
  }

  lemma SelectionIsSet(s: State, source: Option<Key>)
    ensures var t := SetSelection(s, source); t.selection == source && t.primary == s.primary
  {
    AnnouncedAside(Displace(s, s.selection, source).(selection := source));
  }

  lemma PrimaryIsSet(s: State, source: Option<Key>)
    ensures var t := SetPrimary(s, source); t.primary == source && t.selection == s.selection
  {
    AnnouncedAside(Displace(s, s.primary, source).(primary := source));
  }

  // ----- And no other request changes either -----

  ghost predicate SameSelections(s: State, t: State) { t.selection == s.selection && t.primary == s.primary }

  lemma {:induction false} OfferDragAside(s: State, devices: seq<Key>, source: Option<Key>, made: seq<Key>)
    ensures var t := OfferDrag(s, devices, source, made).0;
      t == s.(objects := t.objects, nextServerId := t.nextServerId, offers := t.offers)
    decreases |devices|
  {
    if devices != [] {
      if source.None? || !HasServerId(s, devices[0].client) {
        OfferDragAside(s, devices[1..], source, made);
      } else {
        OfferDragAside(AddOffer(s, devices[0], source.value, Drag, WlData), devices[1..], source,
          made + [NextKey(s, devices[0].client)]);
      }
    }
  }

  lemma PointerSelections(s: State, hit: Option<Key>)
    ensures SameSelections(s, UpdateDrag(s, hit))
  {
    if s.drag.Some? && hit.Some? {
      var t := EndDragFocus(s);
      OfferDragAside(t, DevicesOf(t.dataDevices, hit.value.client), s.drag.value.source, []);
    }
  }

  lemma FocusSelections(s: State, surface: Option<Key>)
    ensures SameSelections(s, FocusStep(s, surface))
  {
    if surface.Some? {
      var t := s.(focused := surface);
      OfferToAllAdds(t, DevicesOf(t.dataDevices, surface.value.client), t.selection, WlData, 0);
      var u := OfferToAll(t, DevicesOf(t.dataDevices, surface.value.client), t.selection, WlData, 0);
      OfferToAllAdds(u, DevicesOf(t.primaryDevices, surface.value.client), t.primary, PrimarySelection, 0);
    }
  }

  predicate OfSelections(r: Request) {
    r.SetClipboard? || r.SetPrimarySelection? || r.ControlSetSelection? || r.DestroySource? || r.Disconnect?
  }

  lemma DropSelections(s: State)
    ensures SameSelections(s, CancelDrag(s)) && SameSelections(s, FinishDrag(s)) && SameSelections(s, EndDragFocus(s))
  {}

  lemma TargetSelections(s: State, r: Request)
    requires OfTarget(r)
    ensures SameSelections(s, Step(s, r))
  {}

  predicate OfMaking(r: Request) { r.Connect? || r.CreateSource? || r.OfferMime? || r.SetSourceActions? }

  lemma DeviceSelections(s: State, r: Request)
    requires r.GetDevice? || r.ReleaseDevice?
    ensures SameSelections(s, Step(s, r))
  {}

  lemma MakingSelections(s: State, r: Request)
    requires Enabled(s, r) && OfMaking(r)
    ensures SameSelections(s, Step(s, r))
  {}

  predicate OfDragging(r: Request) { r.StartDrag? || r.ReleaseButton? || r.EscapeDrag? || r.StartGrab? || r.EndGrab? }

  lemma StartSelections(s: State, client: nat, source: nat, origin: nat, icon: nat, pressed: bool, iconFree: bool)
    ensures SameSelections(s, StartDragStep(s, client, source, origin, icon, pressed, iconFree))
  {}

  lemma DraggingSelections(s: State, r: Request)
    requires OfDragging(r)
    ensures SameSelections(s, Step(s, r))
  {
    if r.StartDrag? {
      StartSelections(s, r.client, r.source, r.origin, r.icon, r.pressed, r.iconFree);
    } else {
      DropSelections(s);
    }
  }

  lemma SurfaceSelections(s: State, r: Request)
    requires Enabled(s, r) && (r.CreateSurface? || r.DestroySurface?)
    ensures SameSelections(s, Step(s, r))
  {}

  lemma OtherSelections(s: State, r: Request)
    requires Enabled(s, r) && !OfSelections(r)
    ensures SameSelections(s, Step(s, r))
  {
    if OfTarget(r) { TargetSelections(s, r); }
    else if OfMaking(r) { MakingSelections(s, r); }
    else if r.GetDevice? || r.ReleaseDevice? { DeviceSelections(s, r); }
    else if r.MovePointer? { PointerSelections(s, r.hit); }
    else if r.Focus? { FocusSelections(s, r.surface); }
    else if OfDragging(r) { DraggingSelections(s, r); }
    else { SurfaceSelections(s, r); }
  }

  lemma RetiredSelections(s: State, k: Key)
    requires k in s.sources
    ensures var t := DestroySourceStep(s, k);
      && t.selection == (if s.selection == Some(k) then None else s.selection)
      && t.primary == (if s.primary == Some(k) then None else s.primary)
  {
    ClearsOnly(s);
    var t := if s.selection == Some(k) then ClearSelection(s) else s;
    ClearsOnly(t);
    var u := if t.primary == Some(k) then ClearPrimary(t) else t;
    DropSelections(u);
  }

  lemma LeavingSelections(s: State, c: nat)
    ensures var t := DisconnectStep(s, c);
      && t.selection == (if BelongsTo(s.selection, c) then None else s.selection)
      && t.primary == (if BelongsTo(s.primary, c) then None else s.primary)
  {
    var t := s.(surfaces := (set k | k in s.surfaces && k.client != c),
                grab := if BelongsTo(s.grab, c) then None else s.grab);
    DropSelections(t);
    var u := LeaveDrag(t, c);
    assert SameSelections(s, u);
    ClearsOnly(u);
    ClearsOnly(if BelongsTo(u.selection, c) then ClearSelection(u) else u);
  }

  /** The source a request to set a selection names. */
  function NamedIn(r: Request): Key {
    match r
    case SetClipboard(client, source, recent) => Key(client, source)
    case SetPrimarySelection(client, source, recent) => Key(client, source)
    case ControlSetSelection(client, source, onPrimary) => Key(client, source)
    case _ => Key(0, 0)
  }

  /** Each selection after a request is what the request makes of it. */
  ghost predicate SelectionsAfter(s: State, r: Request, t: State) {
    && t.selection == (if ClearsClipboard(s, r) then None
                       else if SetsClipboard(s, r, NamedIn(r)) then Some(NamedIn(r)) else s.selection)
    && t.primary == (if ClearsPrimary(s, r) then None
                     else if SetsPrimary(s, r, NamedIn(r)) then Some(NamedIn(r)) else s.primary)
  }

  lemma ClipboardSetExactly(s: State, client: nat, source: nat, recent: bool)
    ensures SelectionsAfter(s, SetClipboard(client, source, recent), SetClipboardStep(s, client, source, recent))
  {
    var k := Key(client, source);
    SelectionIsSet(s, None);
    if Unspent(s, k, WlData) { SelectionIsSet(Claim(s, k, ForSelection), Some(k)); }
  }

  lemma PrimarySetExactly(s: State, client: nat, source: nat, recent: bool)
    ensures SelectionsAfter(s, SetPrimarySelection(client, source, recent), SetPrimaryStep(s, client, source, recent))
  {
    PrimaryIsSet(s, None);
    PrimaryIsSet(s, Some(Key(client, source)));
  }

  lemma ControlSetExactly(s: State, client: nat, source: nat, onPrimary: bool)
    ensures SelectionsAfter(s, ControlSetSelection(client, source, onPrimary),
                            ControlSetStep(s, client, source, onPrimary))
  {
    var k := Key(client, source);
    SelectionIsSet(s, None);
    PrimaryIsSet(s, None);
    if Unspent(s, k, DataControl) {
      SelectionIsSet(Claim(s, k, ForSelection), Some(k));
      PrimaryIsSet(Claim(s, k, ForSelection), Some(k));
    }
  }

  lemma OtherRequestsSetNothing(s: State, r: Request)
    requires !OfSelections(r)
    ensures forall t :: SameSelections(s, t) ==> SelectionsAfter(s, r, t)
  {}

  /**
   Each selection changes for a request that sets it, one that clears it and one that takes its source away, and
   for no other.
   */
  lemma SelectionsExactly(s: State, r: Request)
    requires Enabled(s, r)
    ensures SelectionsAfter(s, r, Step(s, r))
  {
    if r.SetClipboard? { ClipboardSetExactly(s, r.client, r.source, r.recent); }
    else if r.SetPrimarySelection? { PrimarySetExactly(s, r.client, r.source, r.recent); }
    else if r.ControlSetSelection? { ControlSetExactly(s, r.client, r.source, r.onPrimary); }
    else if r.DestroySource? { if r.k in s.sources { RetiredSelections(s, r.k); } }
    else if r.Disconnect? { LeavingSelections(s, r.client); }
    else {
      OtherSelections(s, r);
      OtherRequestsSetNothing(s, r);
    }
  }

  // ----- Gaining focus, and binding a device -----

  /** What one client's devices in a list are owed of a selection that may be empty. */
  function SlotOwed(s: State, devices: seq<Key>, c: nat, slot: Option<Key>, interface: Interface,
                    since: nat): seq<Handout>
    requires forall d :: d in devices ==> d in s.objects
  {
    if slot.None? then [] else Owed(s, devices, c, slot.value, Selection, interface, since)
  }

  lemma SlotHands(s: State, devices: seq<Key>, client: nat, slot: Option<Key>, interface: Interface, c: nat)
    requires Named(s) && AllThere(s, devices)
    ensures var t := OfferToAll(s, DevicesOf(devices, client), slot, interface, 0);
      && MoreOffers(s, t) && Named(t)
      && Handed(s, t, c, if c == client then SlotOwed(s, devices, c, slot, interface, 0) else [])
  {
    if slot.None? {
      NothingToOffer(s, DevicesOf(devices, client), interface, 0);
      NothingHanded(s, c);
    } else {
      OthersOwed(s, devices, client, c, slot.value, Selection, interface, 0);
      OfferToAllHands(s, DevicesOf(devices, client), slot.value, interface, 0, c);
    }
  }

  /** What a client is owed when it gains focus: both selections, on each device it has for them. */
  function FocusOwed(s: State, c: nat): seq<Handout>
    requires forall d :: d in s.dataDevices || d in s.primaryDevices ==> d in s.objects
  {
    SlotOwed(s, s.dataDevices, c, s.selection, WlData, 0)
    + SlotOwed(s, s.primaryDevices, c, s.primary, PrimarySelection, 0)
  }

  /** Both selections handed to one client. */
  function HandBoth(s: State, client: nat): State {
    var t := OfferToAll(s, DevicesOf(s.dataDevices, client), s.selection, WlData, 0);
    OfferToAll(t, DevicesOf(s.primaryDevices, client), s.primary, PrimarySelection, 0)
  }

  lemma FocusHands(s: State, client: nat, c: nat)
    requires Named(s) && AllThere(s, s.dataDevices) && AllThere(s, s.primaryDevices)
    ensures MoreOffers(s, HandBoth(s, client))
    ensures Handed(s, HandBoth(s, client), c, if c == client then FocusOwed(s, c) else [])
  {
    SlotHands(s, s.dataDevices, client, s.selection, WlData, c);
    var t := OfferToAll(s, DevicesOf(s.dataDevices, client), s.selection, WlData, 0);
    SlotSame(s, t, s.primaryDevices, c, s.primary, PrimarySelection);
    SlotHands(t, s.primaryDevices, client, s.primary, PrimarySelection, c);
    MoreTransitive(s, t, HandBoth(s, client));
    HandedJoin(s, t, HandBoth(s, client), c,
      if c == client then SlotOwed(s, s.dataDevices, c, s.selection, WlData, 0) else [],
      if c == client then SlotOwed(s, s.primaryDevices, c, s.primary, PrimarySelection, 0) else []);
  }

  /** A client that gains focus is handed what it is owed, and nobody else is handed anything. */
  lemma FocusReaches(s: State, surface: Key, c: nat)
    requires Named(s) && DevicesListed(s) && s.focused != Some(surface)
    ensures Handed(s, Step(s, Focus(Some(surface))), c, if c == surface.client then FocusOwed(s, c) else [])
  {
    ListedThere(s);
    RefocusedHands(s, surface, c);
    FocusIsHandBoth(s, surface);
  }

  lemma FocusMoves(s: State, surface: Option<Key>)
    ensures Step(s, Focus(surface)).focused == surface
  {
    if surface.Some? {
      var t := s.(focused := surface);
      OfferToAllAdds(t, DevicesOf(t.dataDevices, surface.value.client), t.selection, WlData, 0);
      var u := OfferToAll(t, DevicesOf(t.dataDevices, surface.value.client), t.selection, WlData, 0);
      OfferToAllAdds(u, DevicesOf(t.primaryDevices, surface.value.client), t.primary, PrimarySelection, 0);
    }
  }

  lemma FocusIsHandBoth(s: State, surface: Key)
    requires s.focused != Some(surface)
    ensures Step(s, Focus(Some(surface))) == HandBoth(s.(focused := Some(surface)), surface.client)
  {}

  lemma RefocusedHands(s: State, surface: Key, c: nat)
    requires Named(s) && AllThere(s, s.dataDevices) && AllThere(s, s.primaryDevices)
    ensures Handed(s, HandBoth(s.(focused := Some(surface)), surface.client), c,
                   if c == surface.client then FocusOwed(s, c) else [])
  {
    var t := s.(focused := Some(surface));
    FocusHands(t, surface.client, c);
    FocusOwedSame(s, surface, c);
    SameTablesHanded(s, t, HandBoth(t, surface.client), c, if c == surface.client then FocusOwed(s, c) else []);
  }

  lemma ListedThere(s: State)
    requires DevicesListed(s)
    ensures AllThere(s, s.dataDevices) && AllThere(s, s.primaryDevices) && AllThere(s, s.controlDevices)
  {}

  lemma FocusOwedSame(s: State, surface: Key, c: nat)
    requires AllThere(s, s.dataDevices) && AllThere(s, s.primaryDevices)
    ensures FocusOwed(s.(focused := Some(surface)), c) == FocusOwed(s, c)
  {
    SlotSame(s, s.(focused := Some(surface)), s.dataDevices, c, s.selection, WlData);
    SlotSame(s, s.(focused := Some(surface)), s.primaryDevices, c, s.primary, PrimarySelection);
  }

  lemma SlotSame(s: State, t: State, devices: seq<Key>, c: nat, slot: Option<Key>, interface: Interface)
    requires AllThere(s, devices) && forall d :: d in s.objects ==> d in t.objects && t.objects[d] == s.objects[d]
    ensures AllThere(t, devices)
    ensures SlotOwed(t, devices, c, slot, interface, 0) == SlotOwed(s, devices, c, slot, interface, 0)
  {
    if slot.Some? { OwedSame(s, t, devices, c, slot.value, Selection, interface, 0); }
  }

  /** As far as ids and offers go, the same. */
  ghost predicate SameTables(s: State, t: State) { t.nextServerId == s.nextServerId && t.offers.Keys == s.offers.Keys }

  lemma SameTablesHanded(s: State, t: State, u: State, c: nat, list: seq<Handout>)
    requires SameTables(s, t) && Handed(t, u, c, list)
    ensures Handed(s, u, c, list)
  {
    assert forall x :: x in t.offers <==> x in s.offers;
  }

  /** What a new device is handed at once: what its interface may hear of, if there is any. */
  function HelloOwed(s: State, k: Key, interface: Interface, version: nat): seq<Handout> {
    match interface
    case WlData => if BelongsTo(s.focused, k.client) then Hello(s.selection, interface, version) else []
    case PrimarySelection => if BelongsTo(s.focused, k.client) then Hello(s.primary, interface, 1) else []
    case DataControl =>
      Hello(s.selection, interface, version) + if version >= 2 then Hello(s.primary, interface, version) else []
  }

  function Hello(slot: Option<Key>, interface: Interface, version: nat): seq<Handout> {
    if slot.None? then [] else
      [Handout(Object(OfferObject(interface), version), Offer(slot, Selection, None, 0, 0, 0))]
  }

  lemma OneHands(s: State, k: Key, slot: Option<Key>, interface: Interface, since: nat, version: nat, c: nat)
    requires Named(s) && k in s.objects && s.objects[k].version == version
    requires interface.PrimarySelection? ==> version == 1
    ensures var t := OfferTo(s, k, slot, interface, since);
      && MoreOffers(s, t) && Named(t)
      && Handed(s, t, c, if c == k.client && version >= since then Hello(slot, interface, version) else [])
  {
    if slot.None? { NothingHanded(s, c); } else { OfferToHands(s, k, slot.value, interface, since, c); }
  }

  lemma Registered(s: State, k: Key, interface: Interface, version: nat)
    requires Named(s) && CanRegister(s, k)
    ensures Named(Register(s, k, DeviceObject(interface), version))
  {
    var t := Register(s, k, DeviceObject(interface), version);
    assert forall j :: j in t.objects <==> j == k || j in s.objects;
  }

  lemma ControlHello(s: State, k: Key, version: nat, c: nat)
    requires Named(s) && k in s.objects && s.objects[k].version == version
    ensures var t := OfferTo(OfferTo(s, k, s.selection, DataControl, 0), k, s.primary, DataControl, 2);
      Handed(s, t, c, if c == k.client then HelloOwed(s, k, DataControl, version) else [])
  {
    var t := OfferTo(s, k, s.selection, DataControl, 0);
    OneHands(s, k, s.selection, DataControl, 0, version, c);
    OneHands(t, k, s.primary, DataControl, 2, version, c);
    HandedJoin(s, t, OfferTo(t, k, s.primary, DataControl, 2), c,
      if c == k.client then Hello(s.selection, DataControl, version) else [],
      if c == k.client && version >= 2 then Hello(s.primary, DataControl, version) else []);
  }

  lemma DataDeviceReaches(s: State, k: Key, version: nat, c: nat)
    requires Named(s) && CanRegister(s, k)
    ensures Handed(s, GetDeviceStep(s, k, WlData, version), c,
                   if c == k.client then HelloOwed(s, k, WlData, version) else [])
  {
    Registered(s, k, WlData, version);
    var u := Register(s, k, DeviceObject(WlData), version).(dataDevices := s.dataDevices + [k]);
    NothingHanded(u, c);
    OneHands(u, k, u.selection, WlData, 0, version, c);
    SameTablesHanded(s, u, GetDeviceStep(s, k, WlData, version), c,
      if c == k.client then HelloOwed(s, k, WlData, version) else []);
  }

  lemma PrimaryDeviceReaches(s: State, k: Key, version: nat, c: nat)
    requires Named(s) && CanRegister(s, k)
    ensures Handed(s, GetDeviceStep(s, k, PrimarySelection, version), c,
                   if c == k.client then HelloOwed(s, k, PrimarySelection, version) else [])
  {
    Registered(s, k, PrimarySelection, 1);
    var u := Register(s, k, DeviceObject(PrimarySelection), 1).(primaryDevices := s.primaryDevices + [k]);
    NothingHanded(u, c);
    OneHands(u, k, u.primary, PrimarySelection, 0, 1, c);
    SameTablesHanded(s, u, GetDeviceStep(s, k, PrimarySelection, version), c,
      if c == k.client then HelloOwed(s, k, PrimarySelection, version) else []);
  }

  lemma ControlDeviceReaches(s: State, k: Key, version: nat, c: nat)
    requires Named(s) && CanRegister(s, k)
    ensures Handed(s, GetDeviceStep(s, k, DataControl, version), c,
                   if c == k.client then HelloOwed(s, k, DataControl, version) else [])
  {
    Registered(s, k, DataControl, version);
    var u := Register(s, k, DeviceObject(DataControl), version).(controlDevices := s.controlDevices + [k]);
    ControlHello(u, k, version, c);
    SameTablesHanded(s, u, GetDeviceStep(s, k, DataControl, version), c,
      if c == k.client then HelloOwed(s, k, DataControl, version) else []);
  }

  /** A device bound is handed at once what its client would otherwise only hear of later. */
  lemma DeviceReaches(s: State, k: Key, interface: Interface, version: nat, c: nat)
    requires Named(s) && CanRegister(s, k)
    ensures Handed(s, Step(s, GetDevice(k, interface, version)), c,
                   if c == k.client then HelloOwed(s, k, interface, version) else [])
  {
    match interface
    case WlData => DataDeviceReaches(s, k, version, c);
    case PrimarySelection => PrimaryDeviceReaches(s, k, version, c);
    case DataControl => ControlDeviceReaches(s, k, version, c);
  }

  // ----- Nobody else is handed anything, and the lists of devices stay right -----

  /** The devices are as they were. */
  ghost predicate SameDevices(s: State, t: State) {
    && t.dataDevices == s.dataDevices && t.primaryDevices == s.primaryDevices && t.controlDevices == s.controlDevices
    && (forall d :: IsDevice(s, d) ==> d in t.objects && t.objects[d].kind == s.objects[d].kind)
    && (forall d :: IsDevice(t, d) ==> d in s.objects && t.objects[d].kind == s.objects[d].kind)
  }

  /** And nothing new is offered. */
  ghost predicate NothingNew(s: State, t: State) { SameDevices(s, t) && forall x :: x in t.offers ==> x in s.offers }

  lemma SameListed(s: State, t: State)
    requires DevicesListed(s) && SameDevices(s, t)
    ensures DevicesListed(t)
  {
    assert forall d :: d in s.objects && s.objects[d].kind.DeviceObject? ==> IsDevice(s, d);
    assert forall d :: d in t.objects && t.objects[d].kind.DeviceObject? ==> IsDevice(t, d);
  }

  lemma MoreSameDevices(s: State, t: State)
    requires MoreOffers(s, t)
    ensures SameDevices(s, t)
  {}

  /** Neither objects nor devices differ at all. */
  ghost predicate Idle(s: State, t: State) {
    && t.objects == s.objects && t.offers.Keys <= s.offers.Keys
    && t.dataDevices == s.dataDevices && t.primaryDevices == s.primaryDevices && t.controlDevices == s.controlDevices
  }

  lemma IdleNothingNew(s: State, t: State)
    requires Idle(s, t)
    ensures NothingNew(s, t)
  {
    assert forall x :: x in t.offers.Keys ==> x in s.offers.Keys;
  }

  lemma InvalidatedIdle(s: State, source: Key, list: seq<Key>)
    ensures Idle(s, InvalidateFrom(s, source)) && Idle(s, InvalidateAll(s, list)) && Idle(s, MarkDropped(s, list))
  {
    assert InvalidateFrom(s, source).offers.Keys == s.offers.Keys;
    assert InvalidateAll(s, list).offers.Keys == s.offers.Keys;
    assert MarkDropped(s, list).offers.Keys == s.offers.Keys;
  }

  lemma CancelledIdle(s: State)
    ensures Idle(s, CancelDrag(s))
  {
    if s.drag.Some? { InvalidatedIdle(s.(drag := None), s.drag.value.origin, s.drag.value.focusOffers); }
  }

  lemma LeftIdle(s: State)
    ensures Idle(s, EndDragFocus(s))
  {
    if s.drag.Some? {
      var drag := s.drag.value;
      InvalidatedIdle(s.(log := s.log + TargetEvents(s, drag.focusOffers)), drag.origin, drag.focusOffers);
    }
  }

  lemma DroppedIdle(s: State)
    ensures Idle(s, FinishDrag(s))
  {
    if s.drag.Some? { InvalidatedIdle(s.(drag := None), s.drag.value.origin, s.drag.value.focusOffers); }
  }

  lemma MakingNothingNew(s: State, r: Request)
    requires Enabled(s, r) && OfMaking(r)
    ensures NothingNew(s, Step(s, r))
  {}

  lemma ClearedIdle(s: State)
    ensures Idle(s, SetSelection(s, None)) && Idle(s, SetPrimary(s, None))
  {
    assert SameAudience(s, s);
    DisplacedAudience(s, s, s.selection, None);
    DisplacedAudience(s, s, s.primary, None);
    ClearsOnly(Displace(s, s.selection, None));
    ClearsOnly(Displace(s, s.primary, None));
  }

  /** A request to set a selection that is refused, or clears it. */
  lemma UnsetNothingNew(s: State, r: Request)
    requires r.SetClipboard? || r.SetPrimarySelection? || r.ControlSetSelection?
    requires !SetsClipboard(s, r, NamedIn(r)) && !SetsPrimary(s, r, NamedIn(r))
    ensures NothingNew(s, Step(s, r))
  {
    ClearedIdle(s);
    IdleNothingNew(s, SetSelection(s, None));
    IdleNothingNew(s, SetPrimary(s, None));
  }

  lemma RetiredNothingNew(s: State, k: Key)
    requires Named(s)
    ensures NothingNew(s, DestroySourceStep(s, k))
  {
    if k in s.sources {
      ClearsOnly(s);
      ClearsOnly(s.(selection := None));
    }
  }

  lemma DestroyOfferNothingNew(s: State, k: Key)
    requires Named(s)
    ensures NothingNew(s, DestroyOfferStep(s, k))
  {}

  lemma TargetIdle(s: State, r: Request)
    requires OfTarget(r) && !r.DestroyOffer?
    ensures Idle(s, Step(s, r))
  {}

  lemma DraggingIdle(s: State, r: Request)
    requires OfDragging(r)
    ensures Idle(s, Step(s, r))
  {
    CancelledIdle(s);
    DroppedIdle(s);
  }

  lemma SurfaceGoneIdle(s: State, k: Key)
    requires k in s.surfaces
    ensures Idle(s, DestroySurfaceStep(s, k))
  {
    var t := s.(surfaces := s.surfaces - {k}, icons := s.icons - {k},
                focused := if s.focused == Some(k) then None else s.focused);
    CancelledIdle(t);
    LeftIdle(t);
    if t.drag.Some? { LeftIdle(t.(drag := Some(t.drag.value.(icon := None)))); }
  }

  lemma SurfaceIdle(s: State, r: Request)
    requires Enabled(s, r) && (r.CreateSurface? || r.DestroySurface?)
    ensures Idle(s, Step(s, r))
  {
    if r.DestroySurface? && r.k in s.surfaces { SurfaceGoneIdle(s, r.k); }
  }

  /** The requests that may hand something out, and those that make and unmake devices. */
  predicate MayOffer(s: State, r: Request) {
    || SetsClipboard(s, r, NamedIn(r)) || SetsPrimary(s, r, NamedIn(r))
    || r.Focus? || r.GetDevice? || r.MovePointer?
  }

  /** Nobody is offered anything but for a selection set, focus gained, a device bound or a drag moved. */
  lemma OthersOfferNothing(s: State, r: Request)
    requires Named(s) && Enabled(s, r) && !MayOffer(s, r)
    ensures forall x :: x in Step(s, r).offers ==> x in s.offers
    ensures !r.ReleaseDevice? && !r.Disconnect? ==> SameDevices(s, Step(s, r))
  {
    var t := Step(s, r);
    if r.DestroyOffer? { DestroyOfferNothingNew(s, r.k); }
    else if OfTarget(r) { TargetIdle(s, r); IdleNothingNew(s, t); }
    else if OfMaking(r) { MakingNothingNew(s, r); }
    else if OfDragging(r) { DraggingIdle(s, r); IdleNothingNew(s, t); }
    else if r.DestroySource? { RetiredNothingNew(s, r.k); }
    else if r.CreateSurface? || r.DestroySurface? { SurfaceIdle(s, r); IdleNothingNew(s, t); }
    else if r.Disconnect? { LeavingNothingNew(s, r.client); }
    else if !r.ReleaseDevice? { UnsetNothingNew(s, r); }
  }

  lemma LeaveDragIdle(s: State, c: nat)
    ensures Idle(s, LeaveDrag(s, c))
  {
    CancelledIdle(s);
  }

  lemma LeavingIdle(s: State, c: nat)
    ensures Idle(s, LeaveSelections(LeaveDrag(s, c), c))
  {
    LeaveDragIdle(s, c);
    var t := LeaveDrag(s, c);
    ClearsOnly(t);
    ClearsOnly(t.(selection := None));
  }

  lemma LeavingNothingNew(s: State, c: nat)
    ensures forall x :: x in DisconnectStep(s, c).offers ==> x in s.offers
  {
    var t := s.(surfaces := (set k | k in s.surfaces && k.client != c),
                grab := if BelongsTo(s.grab, c) then None else s.grab);
    LeavingIdle(t, c);
    assert Idle(s, LeaveSelections(LeaveDrag(t, c), c));
    forall x | x in DisconnectStep(s, c).offers ensures x in s.offers {
      assert x in LeaveSelections(LeaveDrag(t, c), c).offers.Keys;
    }
  }

  lemma AudienceThenMore(s: State, t: State, u: State)
    requires SameAudience(s, t) && MoreOffers(t, u)
    ensures SameDevices(s, u)
  {}

  lemma SelectionSetDevices(s: State, t: State, source: Key)
    requires Named(s) && DevicesListed(s) && SameAudience(s, t)
    ensures SameDevices(s, SetSelection(t, Some(source))) && SameDevices(s, SetPrimary(t, Some(source)))
  {
    DisplacedAudience(s, t, t.selection, Some(source));
    DisplacedAudience(s, t, t.primary, Some(source));
    var u := Displace(t, t.selection, Some(source)).(selection := Some(source));
    var v := Displace(t, t.primary, Some(source)).(primary := Some(source));
    SameNamed(s, u);
    SameNamed(s, v);
    SameOwed(s, u, 0, source);
    SameOwed(s, v, 0, source);
    AnnouncedToAll(u, source, 0);
    PrimaryAnnouncedToAll(v, source, 0);
    AudienceThenMore(s, u, SetSelection(t, Some(source)));
    AudienceThenMore(s, v, SetPrimary(t, Some(source)));
  }

  lemma SetDevices(s: State, r: Request)
    requires Named(s) && DevicesListed(s) && (SetsClipboard(s, r, NamedIn(r)) || SetsPrimary(s, r, NamedIn(r)))
    ensures SameDevices(s, Step(s, r))
  {
    var k := NamedIn(r);
    var t := Claim(s, k, ForSelection);
    assert t.sources.Keys == s.sources.Keys;
    SelectionSetDevices(s, t, k);
    SelectionSetDevices(s, s, k);
  }

  lemma FocusDevices(s: State, surface: Option<Key>)
    requires Named(s) && DevicesListed(s)
    ensures SameDevices(s, FocusStep(s, surface))
  {
    if surface.Some? && surface != s.focused {
      var t := s.(focused := surface);
      ListedThere(s);
      FocusHands(t, surface.value.client, 0);
      FocusIsHandBoth(s, surface.value);
      MoreSameDevices(t, FocusStep(s, surface));
    }
  }

  lemma {:induction false} OfferDragMore(s: State, devices: seq<Key>, source: Option<Key>, made: seq<Key>)
    requires Named(s)
    ensures var t := OfferDrag(s, devices, source, made).0; MoreOffers(s, t) && Named(t)
    decreases |devices|
  {
    if devices != [] {
      if source.None? || !HasServerId(s, devices[0].client) {
        OfferDragMore(s, devices[1..], source, made);
      } else {
        var t := AddOffer(s, devices[0], source.value, Drag, WlData);
        AddOfferIsMore(s, devices[0], source.value, Drag, WlData);
        OfferDragMore(t, devices[1..], source, made + [NextKey(s, devices[0].client)]);
        MoreTransitive(s, t, OfferDrag(s, devices, source, made).0);
      }
    }
  }

  lemma PointerDevices(s: State, hit: Option<Key>)
    requires Named(s)
    ensures SameDevices(s, UpdateDrag(s, hit))
  {
    LeftIdle(s);
    LeftNamed(s);
    if s.drag.Some? && hit.Some? { EnteredDevices(EndDragFocus(s), hit.value); }
  }

  lemma EnteredDevices(s: State, surface: Key)
    requires Named(s)
    ensures SameDevices(s, EnterDrag(s, surface))
  {
    if s.drag.Some? {
      var devices := DevicesOf(s.dataDevices, surface.client);
      OfferDragMore(s, devices, s.drag.value.source, []);
      MoreSameDevices(s, OfferDrag(s, devices, s.drag.value.source, []).0);
    }
  }

  lemma LeftNamed(s: State)
    requires Named(s)
    ensures Named(EndDragFocus(s))
  {
    if s.drag.Some? {
      assert InvalidateAll(s, s.drag.value.focusOffers).offers.Keys == s.offers.Keys;
      assert forall x :: x in EndDragFocus(s).offers <==> x in s.offers;
    }
  }

  lemma {:induction false} OthersOfMembers(keys: seq<Key>, c: nat)
    ensures forall k :: k in OthersOf(keys, c) <==> k in keys && k.client != c
    ensures Distinct(keys) ==> Distinct(OthersOf(keys, c))
  {
    if keys != [] {
      OthersOfMembers(keys[1..], c);
      assert keys == [keys[0]] + keys[1..];
      if Distinct(keys) {
        assert keys[0] !in keys[1..];
        DistinctConcat([keys[0]], OthersOf(keys[1..], c));
      }
    }
  }

  lemma LeavingDevices(s: State, c: nat)
    requires DevicesListed(s)
    ensures DevicesListed(DisconnectStep(s, c))
  {
    var t := s.(surfaces := (set k | k in s.surfaces && k.client != c),
                grab := if BelongsTo(s.grab, c) then None else s.grab);
    LeavingIdle(t, c);
    var u := DisconnectStep(s, c);
    assert u.objects == map k | k in s.objects && k.client != c :: s.objects[k];
    OthersListed(s, u, s.dataDevices, WlData, c);
    OthersListed(s, u, s.primaryDevices, PrimarySelection, c);
    OthersListed(s, u, s.controlDevices, DataControl, c);
  }

  lemma OthersListed(s: State, t: State, devices: seq<Key>, interface: Interface, c: nat)
    requires ListsAll(s, devices, interface)
    requires t.objects == map k | k in s.objects && k.client != c :: s.objects[k]
    ensures ListsAll(t, OthersOf(devices, c), interface)
  {
    OthersOfMembers(devices, c);
  }

  lemma ReleasedDevices(s: State, k: Key)
    requires DevicesListed(s)
    ensures DevicesListed(ReleaseDeviceStep(s, k))
  {
    WithoutDistinct(s.dataDevices, k);
    WithoutDistinct(s.primaryDevices, k);
    WithoutDistinct(s.controlDevices, k);
  }

  /** A device of this interface more. */
  ghost predicate OneDevice(s: State, t: State, k: Key, interface: Interface) {
    && t.objects.Keys == s.objects.Keys + {k} && t.objects[k].kind == DeviceObject(interface) && k !in s.objects
    && (forall d :: d in s.objects ==> t.objects[d] == s.objects[d])
    && t.dataDevices == s.dataDevices + (if interface.WlData? then [k] else [])
    && t.primaryDevices == s.primaryDevices + (if interface.PrimarySelection? then [k] else [])
    && t.controlDevices == s.controlDevices + (if interface.DataControl? then [k] else [])
  }

  lemma OneMoreListed(s: State, t: State, k: Key, interface: Interface)
    requires DevicesListed(s) && OneDevice(s, t, k, interface)
    ensures DevicesListed(t)
  {
    DistinctConcat(s.dataDevices, [k]);
    DistinctConcat(s.primaryDevices, [k]);
    DistinctConcat(s.controlDevices, [k]);
    assert forall d :: d in t.objects <==> d == k || d in s.objects;
  }

  lemma BoundDevices(s: State, k: Key, interface: Interface, version: nat)
    requires Named(s) && DevicesListed(s) && CanRegister(s, k)
    ensures DevicesListed(GetDeviceStep(s, k, interface, version))
  {
    var u, t := BoundDevice(s, k, interface, version), GetDeviceStep(s, k, interface, version);
    BoundIsOne(s, k, interface, version);
    OneMoreListed(s, u, k, interface);
    BoundMore(s, k, interface, version);
    MoreSameDevices(u, t);
    SameListed(u, t);
  }

  lemma BoundIsOne(s: State, k: Key, interface: Interface, version: nat)
    requires CanRegister(s, k)
    ensures OneDevice(s, BoundDevice(s, k, interface, version), k, interface)
  {}

  function BoundDevice(s: State, k: Key, interface: Interface, version: nat): State {
    match interface
    case WlData => Register(s, k, DeviceObject(WlData), version).(dataDevices := s.dataDevices + [k])
    case PrimarySelection =>
      Register(s, k, DeviceObject(PrimarySelection), 1).(primaryDevices := s.primaryDevices + [k])
    case DataControl => Register(s, k, DeviceObject(DataControl), version).(controlDevices := s.controlDevices + [k])
  }

  lemma BoundMore(s: State, k: Key, interface: Interface, version: nat)
    requires Named(s) && CanRegister(s, k)
    ensures MoreOffers(BoundDevice(s, k, interface, version), GetDeviceStep(s, k, interface, version))
  {
    var u, t := BoundDevice(s, k, interface, version), GetDeviceStep(s, k, interface, version);
    Registered(s, k, interface, if interface.PrimarySelection? then 1 else version);
    match interface
    case WlData => OneMore(u, k, u.selection, WlData, 0);
    case PrimarySelection => OneMore(u, k, u.primary, PrimarySelection, 0);
    case DataControl => TwoMore(u, k);
  }

  lemma OneMore(s: State, k: Key, slot: Option<Key>, interface: Interface, since: nat)
    requires Named(s)
    ensures var t := OfferTo(s, k, slot, interface, since); MoreOffers(s, t) && Named(t)
  {
    if slot.Some? && HasServerId(s, k.client) { AddOfferIsMore(s, k, slot.value, Selection, interface); }
  }

  lemma TwoMore(s: State, k: Key)
    requires Named(s)
    ensures MoreOffers(s, OfferTo(OfferTo(s, k, s.selection, DataControl, 0), k, s.primary, DataControl, 2))
  {
    var t := OfferTo(s, k, s.selection, DataControl, 0);
    OneMore(s, k, s.selection, DataControl, 0);
    OneMore(t, k, s.primary, DataControl, 2);
    MoreTransitive(s, t, OfferTo(t, k, s.primary, DataControl, 2));
  }

  /** Every request leaves the lists of devices right. */
  lemma StepKeepsListed(s: State, r: Request)
    requires Named(s) && DevicesListed(s) && Enabled(s, r)
    ensures DevicesListed(Step(s, r))
  {
    var t := Step(s, r);
    if r.GetDevice? {
      if CanRegister(s, r.k) { BoundDevices(s, r.k, r.interface, r.version); }
    } else if r.ReleaseDevice? {
      ReleasedDevices(s, r.k);
    } else if r.Disconnect? {
      LeavingDevices(s, r.client);
    } else {
      if r.Focus? { FocusDevices(s, r.surface); }
      else if r.MovePointer? { PointerDevices(s, r.hit); }
      else if MayOffer(s, r) { SetDevices(s, r); }
      else { OthersOfferNothing(s, r); }
      SameListed(s, t);
    }
  }

  lemma {:induction false} RunKeepsListed(s: State, requests: seq<Request>, t: State)
    requires Inv(s) && DevicesListed(s) && Runs(s, requests, t)
    ensures DevicesListed(t)
    decreases |requests|
  {
    if requests != [] {
      StepKeepsListed(s, requests[0]);
      StepKeepsInv(s, requests[0]);
      RunKeepsListed(Step(s, requests[0]), requests[1..], t);
    }
  }

  /** After any run the lists hold every device there is, once each, so that nobody is left out. */
  lemma DevicesListedInRuns(requests: seq<Request>, t: State)
    requires Runs(INITIAL, requests, t)
    ensures DevicesListed(t) && Named(t)
  {
    RunKeepsListed(INITIAL, requests, t);
    EveryRunIsSound(requests, t);
  }
}
