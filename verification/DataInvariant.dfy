/** What holds between the slots, the sources and the offers, and how each shared operation keeps it. */
module DataInvariant {
  import opened Base
  import opened DataTransfer

  // ----- The invariant -----

  /** Sources and offers are the objects that name them; the compositor's ids are never reused. */
  ghost predicate Named(s: State) {
    && (forall c :: c in s.nextServerId ==> SERVER_ID_BASE <= s.nextServerId[c] <= SERVER_ID_END)
    && (forall k :: k in s.objects ==>
          && k.client in s.nextServerId
          && (s.objects[k].kind.OfferObject? <==> k.id >= SERVER_ID_BASE)
          && (k.id >= SERVER_ID_BASE ==> k.id < s.nextServerId[k.client]))
    && (forall k :: k in s.sources <==> k in s.objects && s.objects[k].kind.SourceObject?)
    && (forall k :: k in s.sources ==> s.objects[k].kind.interface == s.sources[k].interface)
    && (forall x :: x in s.offers <==> x in s.objects && s.objects[x].kind.OfferObject?)
  }

  ghost predicate DragHolds(s: State, k: Key) { s.drag.Some? && s.drag.value.source == Some(k) }

  ghost predicate InSlot(s: State, k: Key) { s.selection == Some(k) || s.primary == Some(k) || DragHolds(s, k) }

  /** What may hold a slot: a live source of the right interface, spent on that slot, not cancelled. */
  ghost predicate HoldsSelection(s: State, k: Key) {
    k in s.sources && !s.sources[k].interface.PrimarySelection? && s.sources[k].role.ForSelection?
      && !s.sources[k].cancelled
  }

  ghost predicate HoldsPrimary(s: State, k: Key) {
    k in s.sources && (s.sources[k].interface.PrimarySelection?
      || (s.sources[k].interface.DataControl? && s.sources[k].role.ForSelection? && !s.sources[k].cancelled))
  }

  ghost predicate HoldsDrag(s: State, k: Key) {
    k in s.sources && s.sources[k].role.ForDrag? && !s.sources[k].cancelled
  }

  ghost predicate RolesFit(s: State) {
    forall k :: k in s.sources ==>
      && (s.sources[k].interface.PrimarySelection? ==> s.sources[k].role.Unused?)
      && (s.sources[k].role.Unused? && s.sources[k].cancelled ==> s.sources[k].interface.PrimarySelection?)
      && (s.sources[k].role.ForDrag? ==> s.sources[k].interface.WlData?)
  }

  /** The three slots name live sources, and no two name the same one. */
  ghost predicate Slots(s: State) {
    && RolesFit(s)
    && (s.selection.Some? ==> HoldsSelection(s, s.selection.value) && s.primary != s.selection)
    && (s.primary.Some? ==> HoldsPrimary(s, s.primary.value))
    && (s.drag.Some? && s.drag.value.source.Some? ==>
          HoldsDrag(s, s.drag.value.source.value) && s.drag.value.source.value.client == s.drag.value.originClient)
  }

  /** An offer with a source names one its client may still read: no stale paste. */
  ghost predicate OfferFits(s: State, x: Key)
    requires x in s.offers
  {
    s.offers[x].source.Some? ==>
      var k := s.offers[x].source.value;
      && k in s.sources
      && (s.offers[x].kind.Selection? ==> s.selection == Some(k) || (s.primary == Some(k) && !IsWlOffer(s, x)))
      && (s.offers[x].kind.Drag? ==> s.drag.Some? && x in s.drag.value.focusOffers)
      && (s.offers[x].kind.Dropped? ==> s.sources[k].role.ForDrag? && !DragHolds(s, k))
  }

  ghost predicate OffersFit(s: State) { forall x :: x in s.offers ==> OfferFits(s, x) }

  /** The offers of a drag in progress: the focus client's, carrying the drag's own source. */
  ghost predicate FocusFits(s: State) {
    s.drag.Some? ==>
      var d := s.drag.value;
      && Distinct(d.focusOffers)
      && (forall x :: x in d.focusOffers ==>
            && x in s.offers && s.offers[x].kind.Drag? && s.offers[x].source == d.source
            && d.focus.Some? && x.client == d.focus.value.client)
      && (d.source.None? || d.focus.None? ==> d.focusOffers == [])
  }

  /** A drag starts and stays among live surfaces, and is never held with an interactive grab. */
  ghost predicate DragFits(s: State) {
    s.drag.Some? ==>
      var d := s.drag.value;
      && s.grab.None?
      && d.origin in s.surfaces && d.origin.client == d.originClient
      && (d.icon.Some? ==> d.icon.value in s.surfaces && d.icon.value.client == d.originClient)
      && (d.focus.Some? ==> d.focus.value in s.surfaces)
      && (d.focus.Some? && d.source.None? ==> d.focus.value.client == d.originClient)
  }

  /** The two masks of an offer are what their `set_actions` let through. */
  ghost predicate MasksFit(s: State) {
    && (forall k :: k in s.sources ==> Defined(s.sources[k].actions))
    && (forall x :: x in s.offers ==>
          Defined(s.offers[x].actions) && PreferenceFits(s.offers[x].actions, s.offers[x].preferred))
  }

  /** Every offer with a source to negotiate with is settled on what the two sides say now. */
  ghost predicate Agreed(s: State) {
    forall x :: Negotiates(s, x) ==> s.offers[x].resolved == Settled(s, x)
  }

  function Told(s: State, e: Event): nat { multiset(s.log)[e] }

  /** How often a source has been told the one use it had is over. */
  function Outcomes(s: State, birth: nat): nat { Told(s, Cancelled(birth)) + Told(s, DropPerformed(birth)) }

  ghost predicate Births(s: State) {
    forall k :: k in s.sources ==>
      s.sources[k].birth < |s.births| && s.births[s.sources[k].birth] == Birth(k, s.sources[k].interface)
  }

  /** A single-use source hears one outcome at most, and a source unborn none. */
  ghost predicate OutcomesOnce(s: State) {
    && (forall b: nat :: b < |s.births| && !s.births[b].interface.PrimarySelection? ==> Outcomes(s, b) <= 1)
    && (forall b: nat :: b >= |s.births| ==> Outcomes(s, b) + Told(s, Finished(b)) == 0)
  }

  /** What the log says of the live sources. */
  ghost predicate SourceHeard(s: State, k: Key)
    requires k in s.sources
  {
    var b := s.sources[k].birth;
    && (s.sources[k].cancelled <==> Told(s, Cancelled(b)) > 0)
    && (Told(s, DropPerformed(b)) > 0 ==> s.sources[k].role.ForDrag? && !s.sources[k].cancelled && !DragHolds(s, k))
  }

  ghost predicate Heard(s: State) {
    && Births(s) && OutcomesOnce(s)
    && (forall k :: k in s.sources ==> SourceHeard(s, k))
  }

  /** An offer dropped by a source new enough to be told so. */
  ghost predicate DroppedNew(s: State, x: Key) {
    && x in s.offers && s.offers[x].kind.Dropped? && s.offers[x].source.Some?
    && s.offers[x].source.value in s.sources && VersionOf(s, s.offers[x].source.value) >= ACTIONS_SINCE
  }

  /** Only what was dropped is finished, and a source new enough hears of the drop first. */
  ghost predicate DropsHeard(s: State) {
    && (forall x :: DroppedNew(s, x) ==> Told(s, DropPerformed(s.sources[s.offers[x].source.value].birth)) > 0)
    && (forall b: nat :: Told(s, Finished(b)) > 0 ==> Told(s, DropPerformed(b)) > 0)
  }

  /** Everything but what offers are settled on. */
  ghost predicate Sound(s: State) {
    && Named(s) && Slots(s) && OffersFit(s) && FocusFits(s) && DragFits(s)
    && MasksFit(s) && Heard(s) && DropsHeard(s)
  }

  ghost predicate Inv(s: State) { Sound(s) && Agreed(s) }

  // ----- What leaves the sources alone -----

  ghost predicate SameTold(s: State, t: State) {
    forall b: nat ::
      && Told(t, Cancelled(b)) == Told(s, Cancelled(b))
      && Told(t, DropPerformed(b)) == Told(s, DropPerformed(b))
      && Told(t, Finished(b)) == Told(s, Finished(b))
  }

  predicate Minor(e: Event) { e.Targeted? || e.SendContent? }

  lemma {:induction false} MinorTold(s: State, t: State, extra: seq<Event>)
    requires t.log == s.log + extra && forall e :: e in extra ==> Minor(e)
    ensures SameTold(s, t)
  {
    assert forall e :: Told(t, e) == Told(s, e) + multiset(extra)[e];
    assert forall e :: e in multiset(extra) ==> e in extra;
  }

  lemma HeardFrame(s: State, t: State)
    requires Heard(s) && t.sources == s.sources && t.births == s.births && SameTold(s, t)
    requires forall k :: DragHolds(t, k) ==> DragHolds(s, k)
    ensures Heard(t)
  {
    assert forall k :: k in s.sources ==> SourceHeard(s, k);
  }

  lemma DropsFrame(s: State, t: State)
    requires DropsHeard(s) && t.sources == s.sources && SameTold(s, t)
    requires forall x :: DroppedNew(t, x) ==> DroppedNew(s, x) && t.offers[x].source == s.offers[x].source
    ensures DropsHeard(t)
  {}

  lemma AgreedFrame(s: State, t: State)
    requires Agreed(s)
    requires forall x :: Negotiates(t, x) ==>
      Negotiates(s, x) && t.offers[x].resolved == s.offers[x].resolved && Settled(t, x) == Settled(s, x)
    ensures Agreed(t)
  {}

  // ----- Handing out selections -----

  /** What an interface is offered holds a slot, and for `wl_data_device` that is the clipboard. */
  ghost predicate OfSlot(s: State, source: Option<Key>, interface: Interface) {
    source.None? || s.selection == source || (s.primary == source && !interface.WlData?)
  }

  lemma AddOfferNamed(s: State, device: Key, source: Key, kind: OfferKind, interface: Interface)
    requires Named(s) && HasServerId(s, device.client)
    ensures NextKey(s, device.client) !in s.objects
    ensures Named(AddOffer(s, device, source, kind, interface))
  {
    var k := NextKey(s, device.client);
    var t := AddOffer(s, device, source, kind, interface);
    assert k !in s.objects;
    assert forall j :: j in t.objects <==> j == k || j in s.objects;
    assert forall j :: j in t.offers <==> j == k || j in s.offers;
  }

  lemma AddOfferFits(s: State, device: Key, source: Key, interface: Interface)
    requires HasServerId(s, device.client) && NextKey(s, device.client) !in s.offers
    requires OffersFit(s) && FocusFits(s) && source in s.sources
    requires OfSlot(s, Some(source), interface)
    ensures OffersFit(AddOffer(s, device, source, Selection, interface))
    ensures FocusFits(AddOffer(s, device, source, Selection, interface))
  {
    var t := AddOffer(s, device, source, Selection, interface);
    assert forall x :: x in s.offers ==> OfferFits(s, x);
    assert forall x :: x in s.offers ==> OfferFits(t, x);
  }

  lemma AddOfferAgreed(s: State, device: Key, source: Key, interface: Interface)
    requires HasServerId(s, device.client) && NextKey(s, device.client) !in s.objects
    requires Named(s) && Agreed(s)
    ensures Agreed(AddOffer(s, device, source, Selection, interface))
  {
    var t := AddOffer(s, device, source, Selection, interface);
    forall x | Negotiates(t, x)
      ensures Negotiates(s, x) && t.offers[x].resolved == s.offers[x].resolved && Settled(t, x) == Settled(s, x)
    {
      assert x in s.offers;
      assert VersionOf(s, x) == VersionOf(t, x);
      assert VersionOf(s, s.offers[x].source.value) == VersionOf(t, s.offers[x].source.value);
    }
    AgreedFrame(s, t);
  }

  lemma AddOfferHeard(s: State, device: Key, source: Key, kind: OfferKind, interface: Interface)
    requires HasServerId(s, device.client) && NextKey(s, device.client) !in s.objects && !kind.Dropped?
    requires Named(s) && DropsHeard(s)
    ensures DropsHeard(AddOffer(s, device, source, kind, interface))
  {
    var t := AddOffer(s, device, source, kind, interface);
    assert SameTold(s, t);
    assert forall x :: DroppedNew(t, x) ==>
      x in s.offers && VersionOf(s, s.offers[x].source.value) == VersionOf(t, s.offers[x].source.value);
    DropsFrame(s, t);
  }

  lemma AddOfferTold(s: State, device: Key, source: Key, kind: OfferKind, interface: Interface)
    requires HasServerId(s, device.client) && !kind.Dropped? && Named(s)
    ensures var t := AddOffer(s, device, source, kind, interface);
      && (Heard(s) ==> Heard(t)) && (DropsHeard(s) ==> DropsHeard(t)) && (MasksFit(s) ==> MasksFit(t))
      && (Slots(s) ==> Slots(t)) && (DragFits(s) ==> DragFits(t))
  {
    var t := AddOffer(s, device, source, kind, interface);
    assert SameTold(s, t);
    if Heard(s) { HeardFrame(s, t); }
    if DropsHeard(s) { AddOfferHeard(s, device, source, kind, interface); }
  }

  lemma AddOfferKeeps(s: State, device: Key, source: Key, interface: Interface)
    requires Inv(s) && HasServerId(s, device.client)
    requires OfSlot(s, Some(source), interface)
    ensures Inv(AddOffer(s, device, source, Selection, interface))
  {
    AddOfferNamed(s, device, source, Selection, interface);
    AddOfferFits(s, device, source, interface);
    AddOfferAgreed(s, device, source, interface);
    AddOfferTold(s, device, source, Selection, interface);
  }

  lemma CancelTold(s: State, k: Key)
    requires k in s.sources
    ensures forall e :: Told(Cancel(s, k), e) == Told(s, e) + (if e == Cancelled(s.sources[k].birth) then 1 else 0)
  {}

  lemma CancelKeepsHeard(s: State, k: Key)
    requires Heard(s) && k in s.sources && !DragHolds(s, k)
    requires s.sources[k].cancelled ==> s.sources[k].interface.PrimarySelection?
    requires Told(s, DropPerformed(s.sources[k].birth)) == 0
    ensures Heard(Cancel(s, k))
  {
    CancelTold(s, k);
    var t := Cancel(s, k);
    forall j | j in t.sources ensures SourceHeard(t, j) {
      assert SourceHeard(s, j);
    }
    assert SourceHeard(s, k);
  }

  // ----- Handing out selections, all of it -----

  /** Offers and the ids they take are all that differs, and none is gone or altered. */
  ghost predicate OnlyMoreOffers(s: State, t: State) {
    && t == s.(objects := t.objects, nextServerId := t.nextServerId, offers := t.offers)
    && (forall x :: x in s.offers ==> x in t.offers && t.offers[x] == s.offers[x])
  }

  lemma OfferToAdds(s: State, device: Key, source: Option<Key>, interface: Interface, since: nat)
    requires Named(s)
    ensures OnlyMoreOffers(s, OfferTo(s, device, source, interface, since))
  {
    if source.Some? && HasServerId(s, device.client) {
      assert NextKey(s, device.client) !in s.offers;
    }
  }

  lemma OfferToKeeps(s: State, device: Key, source: Option<Key>, interface: Interface, since: nat)
    requires Inv(s) && OfSlot(s, source, interface)
    ensures Inv(OfferTo(s, device, source, interface, since))
    ensures OnlyMoreOffers(s, OfferTo(s, device, source, interface, since))
  {
    OfferToAdds(s, device, source, interface, since);
    if source.None? || VersionOf(s, device) < since || !HasServerId(s, device.client) {
      assert OfferTo(s, device, source, interface, since) == s;
    } else {
      AddOfferKeeps(s, device, source.value, interface);
      assert OfferTo(s, device, source, interface, since) == AddOffer(s, device, source.value, Selection, interface);
    }
  }

  lemma {:induction false} OfferToAllKeeps(s: State, devices: seq<Key>, source: Option<Key>, interface: Interface,
                                           since: nat)
    requires Inv(s) && OfSlot(s, source, interface)
    ensures Inv(OfferToAll(s, devices, source, interface, since))
    ensures OnlyMoreOffers(s, OfferToAll(s, devices, source, interface, since))
    decreases |devices|
  {
    if devices != [] {
      OfferToKeeps(s, devices[0], source, interface, since);
      OfferToAllKeeps(OfferTo(s, devices[0], source, interface, since), devices[1..], source, interface, since);
    }
  }

  lemma AnnounceSelectionKeeps(s: State)
    requires Inv(s)
    ensures Inv(AnnounceSelection(s)) && OnlyMoreOffers(s, AnnounceSelection(s))
  {
    var t := OfferToAll(s, FocusedDevices(s, s.dataDevices), s.selection, WlData, 0);
    OfferToAllKeeps(s, FocusedDevices(s, s.dataDevices), s.selection, WlData, 0);
    OfferToAllKeeps(t, s.controlDevices, s.selection, DataControl, 0);
  }

  lemma AnnouncePrimaryKeeps(s: State)
    requires Inv(s)
    ensures Inv(AnnouncePrimary(s)) && OnlyMoreOffers(s, AnnouncePrimary(s))
  {
    var t := OfferToAll(s, FocusedDevices(s, s.primaryDevices), s.primary, PrimarySelection, 0);
    OfferToAllKeeps(s, FocusedDevices(s, s.primaryDevices), s.primary, PrimarySelection, 0);
    OfferToAllKeeps(t, s.controlDevices, s.primary, DataControl, PRIMARY_SINCE);
  }

  /** Handing out selections makes offers, and touches nothing else. */
  lemma {:induction false} OfferToAllAdds(s: State, devices: seq<Key>, source: Option<Key>, interface: Interface,
                                          since: nat)
    ensures var t := OfferToAll(s, devices, source, interface, since);
      t == s.(objects := t.objects, nextServerId := t.nextServerId, offers := t.offers)
    decreases |devices|
  {
    if devices != [] {
      OfferToAllAdds(OfferTo(s, devices[0], source, interface, since), devices[1..], source, interface, since);
    }
  }

  /** With nothing to hand out, nobody is handed anything. */
  lemma {:induction false} NothingToOffer(s: State, devices: seq<Key>, interface: Interface, since: nat)
    ensures OfferToAll(s, devices, None, interface, since) == s
    decreases |devices|
  {
    if devices != [] { NothingToOffer(s, devices[1..], interface, since); }
  }

  lemma ClearsOnly(s: State)
    ensures ClearSelection(s) == s.(selection := None) && ClearPrimary(s) == s.(primary := None)
  {
    var t := s.(selection := None);
    NothingToOffer(t, FocusedDevices(t, t.dataDevices), WlData, 0);
    NothingToOffer(t, t.controlDevices, DataControl, 0);
    var u := s.(primary := None);
    NothingToOffer(u, FocusedDevices(u, u.primaryDevices), PrimarySelection, 0);
    NothingToOffer(u, u.controlDevices, DataControl, PRIMARY_SINCE);
  }

  // ----- Displacing a selection -----

  lemma LooseNegotiates(s: State, t: State)
    requires Agreed(s) && MasksFit(s) && t.objects == s.objects && t.offers.Keys == s.offers.Keys
    requires forall k :: k in t.sources ==> k in s.sources && t.sources[k].actions == s.sources[k].actions
    requires forall x :: x in s.offers ==> t.offers[x] == s.offers[x] || t.offers[x] == Loose(s.offers[x])
    ensures Agreed(t) && MasksFit(t)
  {
    forall x | Negotiates(t, x)
      ensures Negotiates(s, x) && t.offers[x].resolved == s.offers[x].resolved && Settled(t, x) == Settled(s, x)
    {
      assert t.offers[x] == s.offers[x];
      assert VersionOf(s, x) == VersionOf(t, x);
      assert VersionOf(s, s.offers[x].source.value) == VersionOf(t, s.offers[x].source.value);
    }
    AgreedFrame(s, t);
  }

  // ----- Dismissing the source that held a slot -----

  /** Some offers have gone dead and the rest are as they were. */
  ghost predicate Loosened(s: State, t: State) {
    && t.offers.Keys == s.offers.Keys
    && (forall x :: x in s.offers ==> t.offers[x] == s.offers[x] || t.offers[x] == Loose(s.offers[x]))
  }

  /** One source is cancelled, offers go dead, and the slots change hands. */
  ghost predicate Dismissed(s: State, t: State, k: Key) {
    && k in s.sources && Loosened(s, t)
    && t == s.(sources := s.sources[k := s.sources[k].(cancelled := true)],
         log := s.log + [Cancelled(s.sources[k].birth)],
               offers := t.offers, selection := t.selection, primary := t.primary, drag := t.drag)
  }

  lemma DismissedNamed(s: State, t: State, k: Key)
    requires Named(s) && Dismissed(s, t, k)
    ensures Named(t)
  {
    assert forall j :: j in t.sources <==> j in s.sources;
  }

  lemma DismissedDrops(s: State, t: State, k: Key)
    requires DropsHeard(s) && Dismissed(s, t, k)
    ensures DropsHeard(t)
  {
    CancelTold(s, k);
    assert forall e :: Told(t, e) == Told(Cancel(s, k), e);
    forall x | DroppedNew(t, x) ensures Told(t, DropPerformed(t.sources[t.offers[x].source.value].birth)) > 0 {
      assert x in s.offers && t.offers[x] == s.offers[x];
      assert DroppedNew(s, x);
    }
  }

  lemma DismissedHeard(s: State, t: State, k: Key)
    requires Heard(s) && Dismissed(s, t, k)
    requires s.sources[k].cancelled ==> s.sources[k].interface.PrimarySelection?
    requires s.sources[k].role.ForDrag? ==> DragHolds(s, k)
    requires forall j :: DragHolds(t, j) ==> DragHolds(s, j) && j != k
    ensures Heard(t)
  {
    var u := s.(drag := t.drag);
    HeardFrame(s, u);
    assert SourceHeard(s, k);
    assert forall e :: Told(u, e) == Told(s, e);
    CancelKeepsHeard(u, k);
    HeardFrame(Cancel(u, k), t);
  }

  lemma DismissedAgreed(s: State, t: State, k: Key)
    requires Agreed(s) && MasksFit(s) && Dismissed(s, t, k)
    ensures Agreed(t) && MasksFit(t)
  {
    LooseNegotiates(s, t);
  }

  // ----- Replacing a selection -----

  function Replaced(s: State, source: Option<Key>): State { Displace(s, s.selection, source).(selection := source) }

  function ReplacedPrimary(s: State, source: Option<Key>): State { Displace(s, s.primary, source).(primary := source) }

  lemma ReplacedSlots(s: State, t: State, k: Key)
    requires Slots(s) && Dismissed(s, t, k) && s.selection == Some(k) && t.primary == s.primary && t.drag == s.drag
    requires t.selection.Some? ==> HoldsSelection(s, t.selection.value) && !InSlot(s, t.selection.value)
    ensures Slots(t)
  {}

  lemma ReplacedPrimarySlots(s: State, t: State, k: Key)
    requires Slots(s) && Dismissed(s, t, k) && s.primary == Some(k) && t.selection == s.selection && t.drag == s.drag
    requires t.primary.Some? ==> HoldsPrimary(s, t.primary.value) && t.primary != s.primary && t.primary != s.selection
    ensures Slots(t)
  {}

  /** The offers of a dismissed source are all dead, so none outlives its slot. */
  lemma ReplacedOffers(s: State, t: State, k: Key)
    requires OffersFit(s) && FocusFits(s) && Dismissed(s, t, k) && t.drag == s.drag && !DragHolds(s, k)
    requires s.selection == t.selection || s.selection == Some(k)
    requires s.primary == t.primary || s.primary == Some(k)
    requires forall x :: x in s.offers ==>
      (t.offers[x] == if s.offers[x].source == Some(k) then Loose(s.offers[x]) else s.offers[x])
    ensures OffersFit(t) && FocusFits(t)
  {
    forall x | x in t.offers ensures OfferFits(t, x) { assert OfferFits(s, x); }
  }

  lemma FilledSlots(s: State, t: State)
    requires Slots(s)
    requires t == s.(selection := t.selection) || t == s.(primary := t.primary)
    requires t.selection == s.selection
      || (t.selection.Some? && HoldsSelection(s, t.selection.value) && !InSlot(s, t.selection.value))
    requires t.primary == s.primary || (t.primary.Some? && HoldsPrimary(s, t.primary.value) && t.primary != s.selection)
    ensures Slots(t)
  {}

  lemma FilledOffers(s: State, t: State)
    requires OffersFit(s) && t == s.(selection := t.selection, primary := t.primary)
    requires s.selection.None? || t.selection == s.selection
    requires s.primary.None? || t.primary == s.primary
    ensures OffersFit(t)
  {
    assert forall x :: x in s.offers ==> OfferFits(s, x);
  }

  lemma SlotsAlone(s: State, t: State)
    requires t == s.(selection := t.selection, primary := t.primary)
    ensures Named(s) ==> Named(t)
    ensures FocusFits(s) ==> FocusFits(t)
    ensures DragFits(s) ==> DragFits(t)
    ensures MasksFit(s) ==> MasksFit(t)
  {}

  lemma SlotsAloneHeard(s: State, t: State)
    requires t == s.(selection := t.selection, primary := t.primary)
    ensures Agreed(s) ==> Agreed(t)
    ensures Heard(s) ==> Heard(t)
    ensures DropsHeard(s) ==> DropsHeard(t)
  {
    assert SameTold(s, t);
    if Heard(s) { HeardFrame(s, t); }
    if DropsHeard(s) { DropsFrame(s, t); }
    if Agreed(s) { AgreedFrame(s, t); }
  }

  lemma FilledKeeps(s: State, t: State)
    requires Inv(s)
    requires t == s.(selection := t.selection) || t == s.(primary := t.primary)
    requires t.selection == s.selection
      || (s.selection.None? && HoldsSelection(s, t.selection.value) && !InSlot(s, t.selection.value))
    requires t.primary == s.primary || (s.primary.None? && HoldsPrimary(s, t.primary.value) && t.primary != s.selection)
    ensures Inv(t)
  {
    FilledSlots(s, t);
    FilledOffers(s, t);
    SlotsAlone(s, t);
    SlotsAloneHeard(s, t);
  }

  lemma DismissedKeeps(s: State, t: State, k: Key)
    requires Inv(s) && Dismissed(s, t, k) && t.drag == s.drag && Slots(t) && !s.sources[k].role.ForDrag?
    requires s.sources[k].cancelled ==> s.sources[k].interface.PrimarySelection?
    requires s.selection == t.selection || s.selection == Some(k)
    requires s.primary == t.primary || s.primary == Some(k)
    requires forall x :: x in s.offers ==>
      (t.offers[x] == if s.offers[x].source == Some(k) then Loose(s.offers[x]) else s.offers[x])
    ensures Inv(t)
  {
    DismissedNamed(s, t, k);
    DismissedDrops(s, t, k);
    DismissedHeard(s, t, k);
    DismissedAgreed(s, t, k);
    ReplacedOffers(s, t, k);
  }

  lemma ReplaceKeeps(s: State, source: Option<Key>)
    requires Inv(s) && (source.Some? ==> HoldsSelection(s, source.value) && !InSlot(s, source.value))
    ensures Inv(Replaced(s, source))
  {
    var t := Replaced(s, source);
    if s.selection.Some? && s.selection != source {
      assert Dismissed(s, t, s.selection.value);
      ReplacedSlots(s, t, s.selection.value);
      DismissedKeeps(s, t, s.selection.value);
    } else {
      FilledKeeps(s, t);
    }
  }

  lemma ReplacePrimaryKeeps(s: State, source: Option<Key>)
    requires Inv(s) && (source.Some? ==> HoldsPrimary(s, source.value) && source != s.selection)
    ensures Inv(ReplacedPrimary(s, source))
  {
    var t := ReplacedPrimary(s, source);
    if s.primary.Some? && s.primary != source {
      assert Dismissed(s, t, s.primary.value);
      ReplacedPrimarySlots(s, t, s.primary.value);
      DismissedKeeps(s, t, s.primary.value);
    } else {
      FilledKeeps(s, t);
    }
  }

  lemma SetSelectionKeeps(s: State, source: Option<Key>)
    requires Inv(s) && (source.Some? ==> HoldsSelection(s, source.value) && !InSlot(s, source.value))
    ensures Inv(SetSelection(s, source))
  {
    ReplaceKeeps(s, source);
    AnnounceSelectionKeeps(Replaced(s, source));
  }

  lemma SetPrimaryKeeps(s: State, source: Option<Key>)
    requires Inv(s) && (source.Some? ==> HoldsPrimary(s, source.value) && source != s.selection)
    ensures Inv(SetPrimary(s, source))
  {
    ReplacePrimaryKeeps(s, source);
    AnnouncePrimaryKeeps(ReplacedPrimary(s, source));
  }

  // ----- Claiming -----

  lemma ClaimSlots(s: State, k: Key, role: Role)
    requires Slots(s) && k in s.sources && s.sources[k].role.Unused? && !s.sources[k].interface.PrimarySelection?
    requires role.ForSelection? || (role.ForDrag? && s.sources[k].interface.WlData?)
    ensures Slots(Claim(s, k, role)) && !s.sources[k].cancelled && !InSlot(s, k)
  {}

  lemma ClaimFits(s: State, k: Key, role: Role)
    requires Named(s) && OffersFit(s) && k in s.sources && s.sources[k].role.Unused?
    ensures var t := Claim(s, k, role); Named(t) && OffersFit(t)
  {
    var t := Claim(s, k, role);
    assert forall x :: x in s.offers ==> OfferFits(s, x);
    assert forall j :: j in t.sources <==> j in s.sources;
  }

  lemma ClaimAgreed(s: State, k: Key, role: Role)
    requires MasksFit(s) && Agreed(s) && k in s.sources
    ensures var t := Claim(s, k, role); MasksFit(t) && Agreed(t)
  {
    LooseNegotiates(s, Claim(s, k, role));
  }

  lemma ClaimHeard(s: State, k: Key, role: Role)
    requires Heard(s) && DropsHeard(s) && k in s.sources && s.sources[k].role.Unused?
    ensures var t := Claim(s, k, role); Heard(t) && DropsHeard(t)
  {
    var t := Claim(s, k, role);
    assert forall e :: Told(t, e) == Told(s, e);
    assert forall j :: j in s.sources ==> SourceHeard(s, j);
    forall x | DroppedNew(t, x) ensures Told(t, DropPerformed(t.sources[t.offers[x].source.value].birth)) > 0 {
      assert DroppedNew(s, x);
    }
  }

  lemma ClaimKeeps(s: State, k: Key, role: Role)
    requires Inv(s) && k in s.sources && s.sources[k].role.Unused? && !s.sources[k].interface.PrimarySelection?
    requires role.ForSelection? || (role.ForDrag? && s.sources[k].interface.WlData?)
    ensures Inv(Claim(s, k, role)) && !InSlot(s, k) && !s.sources[k].cancelled
  {
    ClaimSlots(s, k, role);
    ClaimFits(s, k, role);
    ClaimAgreed(s, k, role);
    ClaimHeard(s, k, role);
  }

  lemma SetClipboardInv(s: State, client: nat, source: nat, recent: bool)
    requires Inv(s)
    ensures Inv(SetClipboardStep(s, client, source, recent))
  {
    var k := Key(client, source);
    if recent && source == 0 {
      SetSelectionKeeps(s, None);
    } else if recent && Claimable(s, k) {
      ClaimKeeps(s, k, ForSelection);
      SetSelectionKeeps(Claim(s, k, ForSelection), Some(k));
    }
  }

  lemma SetPrimaryInv(s: State, client: nat, source: nat, recent: bool)
    requires Inv(s)
    ensures Inv(SetPrimaryStep(s, client, source, recent))
  {
    var k := Key(client, source);
    if recent && source == 0 {
      SetPrimaryKeeps(s, None);
    } else if recent && k in s.sources && s.sources[k].interface.PrimarySelection? {
      SetPrimaryKeeps(s, Some(k));
    }
  }

  lemma ControlSetInv(s: State, client: nat, source: nat, onPrimary: bool)
    requires Inv(s)
    ensures Inv(ControlSetStep(s, client, source, onPrimary))
  {
    var k := Key(client, source);
    if source == 0 {
      if onPrimary { SetPrimaryKeeps(s, None); } else { SetSelectionKeeps(s, None); }
    } else if k in s.sources && s.sources[k].interface.DataControl? && s.sources[k].role.Unused? {
      ClaimKeeps(s, k, ForSelection);
      var t := Claim(s, k, ForSelection);
      if onPrimary { SetPrimaryKeeps(t, Some(k)); } else { SetSelectionKeeps(t, Some(k)); }
    }
  }

  // ----- Drags -----

  lemma {:induction false} TargetEventsMinor(s: State, list: seq<Key>)
    ensures forall e :: e in TargetEvents(s, list) ==> e.Targeted?
  {
    if list != [] { TargetEventsMinor(s, list[1..]); }
  }

  lemma DragOverOffers(s: State, t: State)
    requires OffersFit(s) && FocusFits(s) && s.drag.Some? && t.drag.None? && t.selection == s.selection
    requires t.primary == s.primary
    requires Loosened(s, t) && t.objects == s.objects
    requires forall k :: k in s.sources ==> k in t.sources && t.sources[k].role == s.sources[k].role
    requires forall x :: x in s.offers ==>
      (t.offers[x] == if x in s.drag.value.focusOffers then Loose(s.offers[x]) else s.offers[x])
    ensures OffersFit(t) && FocusFits(t)
  {
    forall x | x in t.offers ensures OfferFits(t, x) { assert OfferFits(s, x); }
  }

  /** A drag with no source made no offers. */
  lemma SourcelessDrag(s: State)
    requires FocusFits(s) && s.drag.Some? && s.drag.value.source.None?
    ensures s.drag.value.focusOffers == [] && CancelDrag(s) == s.(drag := None)
  {
  }

  lemma DroppedDragKeeps(s: State)
    requires Inv(s) && s.drag.Some? && s.drag.value.source.None?
    ensures Inv(s.(drag := None))
  {
    var t := s.(drag := None);
    SourcelessDrag(s);
    DragOverOffers(s, t);
    HeardFrame(s, t);
    DropsFrame(s, t);
    LooseNegotiates(s, t);
  }

  lemma CancelledDragSlots(s: State, t: State, k: Key)
    requires Slots(s) && Dismissed(s, t, k) && t.selection == s.selection && t.primary == s.primary
    requires t.drag.None? && DragHolds(s, k)
    ensures Slots(t) && DragFits(t)
  {}

  lemma CancelDragDismisses(s: State, k: Key)
    requires FocusFits(s) && Slots(s) && DragHolds(s, k)
    ensures Dismissed(s, CancelDrag(s), k)
  {}

  lemma CancelDragFits(s: State, k: Key)
    requires Slots(s) && OffersFit(s) && FocusFits(s) && DragHolds(s, k)
    ensures var t := CancelDrag(s);
      Dismissed(s, t, k) && Slots(t) && DragFits(t) && OffersFit(t) && FocusFits(t)
  {
    CancelDragDismisses(s, k);
    CancelledDragSlots(s, CancelDrag(s), k);
    DragOverOffers(s, CancelDrag(s));
  }

  lemma CancelDragHeard(s: State, k: Key)
    requires Slots(s) && FocusFits(s) && Named(s) && Agreed(s) && MasksFit(s) && Heard(s) && DropsHeard(s)
    requires DragHolds(s, k)
    ensures var t := CancelDrag(s);
      Named(t) && Agreed(t) && MasksFit(t) && Heard(t) && DropsHeard(t)
  {
    var t := CancelDrag(s);
    CancelDragDismisses(s, k);
    DismissedNamed(s, t, k);
    DismissedDrops(s, t, k);
    DismissedHeard(s, t, k);
    DismissedAgreed(s, t, k);
  }

  lemma CancelDragKeeps(s: State)
    requires Inv(s)
    ensures Inv(CancelDrag(s))
  {
    if s.drag.Some? && s.drag.value.source.None? {
      SourcelessDrag(s);
      DroppedDragKeeps(s);
    } else if s.drag.Some? {
      CancelDragFits(s, s.drag.value.source.value);
      CancelDragHeard(s, s.drag.value.source.value);
    }
  }

  lemma EndFocusFits(s: State)
    requires OffersFit(s) && FocusFits(s) && DragFits(s) && Slots(s)
    ensures var t := EndDragFocus(s); OffersFit(t) && FocusFits(t) && DragFits(t) && Slots(t)
  {
    var t := EndDragFocus(s);
    forall x | x in t.offers ensures OfferFits(t, x) { assert OfferFits(s, x); }
  }

  lemma EndFocusTold(s: State)
    ensures SameTold(s, EndDragFocus(s))
  {
    if s.drag.Some? && s.drag.value.focus.Some? {
      TargetEventsMinor(s, s.drag.value.focusOffers);
      MinorTold(s, EndDragFocus(s), TargetEvents(s, s.drag.value.focusOffers));
    }
  }

  lemma EndFocusHeard(s: State)
    requires Heard(s)
    ensures Heard(EndDragFocus(s))
  {
    EndFocusTold(s);
    HeardFrame(s, EndDragFocus(s));
  }

  lemma EndFocusDrops(s: State)
    requires DropsHeard(s)
    ensures DropsHeard(EndDragFocus(s))
  {
    EndFocusTold(s);
    DropsFrame(s, EndDragFocus(s));
  }

  lemma EndFocusAgreed(s: State)
    requires Named(s) && MasksFit(s) && Agreed(s)
    ensures var t := EndDragFocus(s); Named(t) && MasksFit(t) && Agreed(t)
  {
    LooseNegotiates(s, EndDragFocus(s));
  }

  lemma EndFocusKeeps(s: State)
    requires Inv(s)
    ensures Inv(EndDragFocus(s))
  {
    EndFocusFits(s);
    EndFocusHeard(s);
    EndFocusDrops(s);
    EndFocusAgreed(s);
  }

  // ----- Entering a surface -----

  /** Taking back what a drag has over a surface, or giving it that. */
  function Over(s: State, surface: Key, made: seq<Key>): State
    requires s.drag.Some?
  {
    s.(drag := Some(s.drag.value.(focus := Some(surface), focusOffers := made)))
  }

  /** The invariant of a drag on its way into a surface, all but what its new offers settle on. */
  ghost predicate Entering(s: State, surface: Key, made: seq<Key>) {
    && s.drag.Some?
    && Named(s) && Slots(s) && MasksFit(s) && Heard(s) && DropsHeard(s)
    && OffersFit(Over(s, surface, made)) && FocusFits(Over(s, surface, made)) && DragFits(Over(s, surface, made))
    && (forall x :: Negotiates(s, x) && x !in made ==> s.offers[x].resolved == Settled(s, x))
  }

  lemma EnteringOffer(s: State, device: Key, source: Key, surface: Key, made: seq<Key>)
    requires Entering(s, surface, made) && HasServerId(s, device.client)
    requires DragHolds(s, source) && device.client == surface.client
    ensures Entering(AddOffer(s, device, source, Drag, WlData), surface, made + [NextKey(s, device.client)])
  {
    AddOfferNamed(s, device, source, Drag, WlData);
    EnteringFits(s, device, source, surface, made);
    EnteringAgreed(s, device, source, made);
    AddOfferTold(s, device, source, Drag, WlData);
  }

  lemma EnteringFits(s: State, device: Key, source: Key, surface: Key, made: seq<Key>)
    requires HasServerId(s, device.client) && DragHolds(s, source) && device.client == surface.client
    requires NextKey(s, device.client) !in s.offers && source in s.sources
    requires OffersFit(Over(s, surface, made)) && FocusFits(Over(s, surface, made))
    ensures var t := Over(AddOffer(s, device, source, Drag, WlData), surface, made + [NextKey(s, device.client)]);
      OffersFit(t) && FocusFits(t)
  {
    var k := NextKey(s, device.client);
    var u := Over(s, surface, made);
    var t := Over(AddOffer(s, device, source, Drag, WlData), surface, made + [k]);
    assert k !in made;
    forall x | x in t.offers ensures OfferFits(t, x) {
      if x != k { assert OfferFits(u, x); }
    }
  }

  lemma EnteringAgreed(s: State, device: Key, source: Key, made: seq<Key>)
    requires HasServerId(s, device.client) && NextKey(s, device.client) !in s.objects && Named(s)
    requires forall x :: Negotiates(s, x) && x !in made ==> s.offers[x].resolved == Settled(s, x)
    ensures var t := AddOffer(s, device, source, Drag, WlData);
      forall x :: Negotiates(t, x) && x !in made + [NextKey(s, device.client)] ==> t.offers[x].resolved == Settled(t, x)
  {
    var k := NextKey(s, device.client);
    var t := AddOffer(s, device, source, Drag, WlData);
    forall x | Negotiates(t, x) && x !in made + [k] ensures t.offers[x].resolved == Settled(t, x) {
      assert x != k && x in s.offers && Negotiates(s, x) && x !in made;
      assert VersionOf(s, x) == VersionOf(t, x);
      assert VersionOf(s, s.offers[x].source.value) == VersionOf(t, s.offers[x].source.value);
    }
  }

  lemma {:induction false} OfferDragEnters(s: State, devices: seq<Key>, source: Option<Key>, surface: Key,
                                           made: seq<Key>)
    requires Entering(s, surface, made) && s.drag.value.source == source
    requires forall k :: k in devices ==> k.client == surface.client
    ensures var r := OfferDrag(s, devices, source, made); Entering(r.0, surface, r.1) && r.0.drag == s.drag
    decreases |devices|
  {
    if devices != [] {
      if source.Some? && HasServerId(s, devices[0].client) {
        var u := AddOffer(s, devices[0], source.value, Drag, WlData);
        EnteringOffer(s, devices[0], source.value, surface, made);
        OfferDragEnters(u, devices[1..], source, surface, made + [NextKey(s, devices[0].client)]);
      } else {
        OfferDragEnters(s, devices[1..], source, surface, made);
      }
    }
  }

  // ----- Settling on actions -----

  /** Only what offers are settled on differs. */
  ghost predicate OnlyResolved(s: State, t: State) {
    && t == s.(offers := t.offers) && t.offers.Keys == s.offers.Keys
    && (forall x :: x in s.offers ==> t.offers[x] == s.offers[x].(resolved := t.offers[x].resolved))
  }

  lemma ResolvedKeeps(s: State, t: State)
    requires OnlyResolved(s, t)
    ensures (Named(s) ==> Named(t)) && (Slots(s) ==> Slots(t)) && (OffersFit(s) ==> OffersFit(t))
    ensures (FocusFits(s) ==> FocusFits(t)) && (DragFits(s) ==> DragFits(t)) && (MasksFit(s) ==> MasksFit(t))
  {
    if OffersFit(s) {
      assert forall x :: x in s.offers ==> OfferFits(s, x);
      assert forall x :: x in t.offers ==> OfferFits(t, x);
    }
  }

  lemma ResolvedHeard(s: State, t: State)
    requires OnlyResolved(s, t) && Heard(s) && DropsHeard(s)
    ensures Heard(t) && DropsHeard(t)
  {
    assert SameTold(s, t);
    HeardFrame(s, t);
    DropsFrame(s, t);
  }

  lemma ResolvedSound(s: State, t: State)
    requires OnlyResolved(s, t) && Sound(s)
    ensures Sound(t)
  {
    ResolvedKeeps(s, t);
    ResolvedHeard(s, t);
  }

  /** Settling depends on neither side's settled value. */
  lemma ResolveSomeSettles(s: State, list: set<Key>)
    ensures var t := ResolveSome(s, list);
      && OnlyResolved(s, t)
      && (forall x :: Negotiates(t, x) <==> Negotiates(s, x))
      && (forall x :: Negotiates(s, x) ==> Settled(t, x) == Settled(s, x))
      && (forall x :: Negotiates(s, x) ==>
           (t.offers[x].resolved == if x in list then Settled(s, x) else s.offers[x].resolved))
  {
    var t := ResolveSome(s, list);
    forall x | Negotiates(s, x) ensures Settled(t, x) == Settled(s, x) {
      assert VersionOf(s, x) == VersionOf(t, x);
    }
  }

  lemma ResolveSomeAgrees(s: State, list: set<Key>)
    requires forall x :: Negotiates(s, x) && x !in list ==> s.offers[x].resolved == Settled(s, x)
    ensures Agreed(ResolveSome(s, list)) && OnlyResolved(s, ResolveSome(s, list))
  {
    ResolveSomeSettles(s, list);
  }

  lemma ResolveIsResolveSome(s: State, x: Key)
    ensures Resolve(s, x) == ResolveSome(s, {x})
  {
    assert Resolve(s, x).offers == ResolveSome(s, {x}).offers;
  }

  lemma EnterDragKeeps(s: State, surface: Key)
    requires Inv(s) && s.drag.Some? && s.drag.value.focus.None? && surface in s.surfaces
    requires s.drag.value.source.Some? || surface.client == s.drag.value.originClient
    ensures Inv(EnterDrag(s, surface))
  {
    var devices := DevicesOf(s.dataDevices, surface.client);
    DevicesBelong(s.dataDevices, surface.client);
    EnteringStarts(s, surface);
    OfferDragEnters(s, devices, s.drag.value.source, surface, []);
    var (t, made) := OfferDrag(s, devices, s.drag.value.source, []);
    EnteringEnds(t, surface, made);
  }

  lemma {:induction false} DevicesBelong(devices: seq<Key>, client: nat)
    ensures forall k :: k in DevicesOf(devices, client) <==> k in devices && k.client == client
  {
    if devices != [] { DevicesBelong(devices[1..], client); }
  }

  lemma EnteringStarts(s: State, surface: Key)
    requires Inv(s) && s.drag.Some? && s.drag.value.focus.None? && surface in s.surfaces
    requires s.drag.value.source.Some? || surface.client == s.drag.value.originClient
    ensures Entering(s, surface, [])
  {
    forall x | x in s.offers ensures OfferFits(Over(s, surface, []), x) { assert OfferFits(s, x); }
  }

  lemma EnteringOver(s: State, surface: Key, made: seq<Key>)
    requires Entering(s, surface, made)
    ensures var u := Over(s, surface, made); Named(u) && Slots(u) && MasksFit(u)
  {}

  lemma EnteringOverHeard(s: State, surface: Key, made: seq<Key>)
    requires s.drag.Some? && Heard(s) && DropsHeard(s)
    ensures var u := Over(s, surface, made); Heard(u) && DropsHeard(u)
  {
    var u := Over(s, surface, made);
    assert SameTold(s, u);
    HeardFrame(s, u);
    DropsFrame(s, u);
  }

  lemma EnteringOverAgreed(s: State, surface: Key, made: seq<Key>)
    requires s.drag.Some?
    requires forall x :: Negotiates(s, x) && x !in made ==> s.offers[x].resolved == Settled(s, x)
    ensures var t := ResolveSome(Over(s, surface, made), set x | x in made);
      Agreed(t) && OnlyResolved(Over(s, surface, made), t)
  {
    var u := Over(s, surface, made);
    var list := set x | x in made;
    forall x | Negotiates(u, x) && x !in list ensures u.offers[x].resolved == Settled(u, x) {
      assert Negotiates(s, x);
      assert VersionOf(s, x) == VersionOf(u, x);
    }
    ResolveSomeAgrees(u, list);
  }

  lemma EnteringEnds(s: State, surface: Key, made: seq<Key>)
    requires Entering(s, surface, made)
    ensures Inv(ResolveSome(Over(s, surface, made), set x | x in made))
  {
    EnteringOver(s, surface, made);
    EnteringOverHeard(s, surface, made);
    EnteringOverAgreed(s, surface, made);
    ResolvedSound(Over(s, surface, made), ResolveSome(Over(s, surface, made), set x | x in made));
  }

  lemma MovePointerInv(s: State, hit: Option<Key>)
    requires Inv(s) && (hit.Some? ==> hit.value in s.surfaces)
    ensures Inv(UpdateDrag(s, hit))
  {
    EndFocusKeeps(s);
    var t := EndDragFocus(s);
    if s.drag.Some? && hit.Some? && (s.drag.value.source.Some? || hit.value.client == s.drag.value.originClient)
       && hit != s.drag.value.focus {
      EnterDragKeeps(t, hit.value);
    }
  }

  // ----- Dropping -----

  function Dropping(s: State): State
    requires s.drag.Some?
  {
    MarkDropped(s.(drag := None), s.drag.value.focusOffers)
  }

  lemma DroppingFits(s: State, k: Key)
    requires Slots(s) && OffersFit(s) && FocusFits(s) && DragHolds(s, k)
    ensures var t := Dropping(s); Slots(t) && OffersFit(t) && FocusFits(t) && DragFits(t)
  {
    var t := Dropping(s);
    forall x | x in t.offers ensures OfferFits(t, x) { assert OfferFits(s, x); }
  }

  lemma DroppingAgreed(s: State, k: Key)
    requires Named(s) && MasksFit(s) && Agreed(s) && FocusFits(s) && DragHolds(s, k)
    ensures var t := Dropping(s); Named(t) && MasksFit(t) && Agreed(t)
  {
    var t := Dropping(s);
    forall x | Negotiates(t, x)
      ensures Negotiates(s, x) && t.offers[x].resolved == s.offers[x].resolved && Settled(t, x) == Settled(s, x)
    {
      assert x in s.offers;
      assert VersionOf(s, x) == VersionOf(t, x);
    }
    AgreedFrame(s, t);
  }

  function AfterDrop(s: State, k: Key): State
    requires s.drag.Some? && k in s.sources
  {
    TellIfNew(Dropping(s), k, DropPerformed(s.sources[k].birth))
  }

  lemma DropTold(s: State, k: Key)
    requires Named(s) && s.drag.Some? && k in s.sources
    ensures var one := if VersionOf(s, k) >= ACTIONS_SINCE then 1 else 0;
      forall e :: Told(AfterDrop(s, k), e) == Told(s, e) + (if e == DropPerformed(s.sources[k].birth) then one else 0)
  {
    assert k in s.objects;
  }

  lemma DroppingHeard(s: State, k: Key)
    requires Named(s) && Slots(s) && Heard(s) && DragHolds(s, k)
    ensures Heard(AfterDrop(s, k))
  {
    DroppingOnce(s, k);
    DroppingSources(s, k);
  }

  lemma DroppingOnce(s: State, k: Key)
    requires Named(s) && HoldsDrag(s, k) && Births(s) && OutcomesOnce(s) && SourceHeard(s, k) && DragHolds(s, k)
    ensures Births(AfterDrop(s, k)) && OutcomesOnce(AfterDrop(s, k))
  {
    assert Outcomes(s, s.sources[k].birth) == 0;
    DropTold(s, k);
    OneMoreOutcome(s, AfterDrop(s, k), s.sources[k].birth, if VersionOf(s, k) >= ACTIONS_SINCE then 1 else 0);
  }

  lemma OneMoreOutcome(s: State, t: State, birth: nat, one: nat)
    requires OutcomesOnce(s) && t.births == s.births && birth < |s.births| && Outcomes(s, birth) == 0
    requires one <= 1 && forall e :: Told(t, e) == Told(s, e) + (if e == DropPerformed(birth) then one else 0)
    ensures OutcomesOnce(t)
  {}

  lemma DroppingSources(s: State, k: Key)
    requires Named(s) && Slots(s) && Heard(s) && DragHolds(s, k)
    ensures forall j :: j in s.sources ==> SourceHeard(AfterDrop(s, k), j)
  {
    DropTold(s, k);
    forall j | j in s.sources ensures SourceHeard(AfterDrop(s, k), j) { assert SourceHeard(s, j); }
  }

  lemma DroppingDrops(s: State, k: Key)
    requires Named(s) && Slots(s) && DropsHeard(s) && FocusFits(s) && DragHolds(s, k)
    ensures DropsHeard(AfterDrop(s, k))
  {
    var t := AfterDrop(s, k);
    DropTold(s, k);
    forall x | DroppedNew(t, x) ensures Told(t, DropPerformed(t.sources[t.offers[x].source.value].birth)) > 0 {
      assert x in s.offers && t.offers[x].source == s.offers[x].source;
      if x !in s.drag.value.focusOffers { assert DroppedNew(s, x); }
    }
  }

  lemma DropKeeps(s: State, k: Key)
    requires Inv(s) && DragHolds(s, k)
    ensures Inv(AfterDrop(s, k))
  {
    DroppingFits(s, k);
    DroppingAgreed(s, k);
    DroppingHeard(s, k);
    DroppingDrops(s, k);
    LogAlone(Dropping(s), AfterDrop(s, k));
  }

  /** Letting go over nothing, over a target that will take nothing, and over one that will. */
  lemma FinishDragCases(s: State)
    requires Slots(s) && FocusFits(s) && s.drag.Some?
    ensures FinishDrag(s) == match s.drag.value.source
      case None => s.(drag := None)
      case Some(k) => if TargetAccepted(s) then AfterDrop(s, k) else CancelDrag(s)
  {
    if s.drag.value.source.Some? && s.drag.value.focus.None? {
      assert !TargetAccepted(s);
      assert InvalidateAll(s.(drag := None), []).offers == s.offers;
    }
  }

  lemma FinishDragInv(s: State)
    requires Inv(s)
    ensures Inv(FinishDrag(s))
  {
    if s.drag.Some? {
      FinishDragCases(s);
      if s.drag.value.source.None? {
        DroppedDragKeeps(s);
      } else if TargetAccepted(s) {
        DropKeeps(s, s.drag.value.source.value);
      } else {
        CancelDragKeeps(s);
      }
    }
  }

  lemma LogAloneOffers(s: State, t: State)
    requires t == s.(log := t.log) && OffersFit(s)
    ensures OffersFit(t)
  {
    forall x | x in t.offers ensures OfferFits(t, x) { assert OfferFits(s, x); }
  }

  lemma LogAloneAgreed(s: State, t: State)
    requires t == s.(log := t.log) && Agreed(s)
    ensures Agreed(t)
  {
    forall x | Negotiates(t, x) ensures Negotiates(s, x) && Settled(t, x) == Settled(s, x) {
      assert VersionOf(s, x) == VersionOf(t, x);
    }
    AgreedFrame(s, t);
  }

  /** What the log says bears on nothing else. */
  lemma LogAlone(s: State, t: State)
    requires t == s.(log := t.log) && OffersFit(s) && Agreed(s)
    ensures (Named(s) ==> Named(t)) && (Slots(s) ==> Slots(t)) && (FocusFits(s) ==> FocusFits(t))
    ensures (DragFits(s) ==> DragFits(t)) && (MasksFit(s) ==> MasksFit(t)) && OffersFit(t) && Agreed(t)
  {
    LogAloneOffers(s, t);
    LogAloneAgreed(s, t);
  }

  lemma CancelDragLeaves(s: State)
    ensures var t := CancelDrag(s); t == s.(drag := None, offers := t.offers, sources := t.sources, log := t.log)
  {}
}
