/** A drag followed from surface to surface, and what a drop goes on to. */
module DataDrags {
  import opened Base
  import opened DataTransfer
  import opened DataInvariant
  import opened DataRuns
  import opened DataDelivery

  // ----- What the pointer is over -----

  /** Where a drag goes: what the pointer is over, but with no source only within the client it came from. */
  function Target(drag: DragState, hit: Option<Key>): Option<Key> {
    if drag.source.None? && hit.Some? && hit.value.client != drag.originClient then None else hit
  }

  /** The keys of a client's next ids. */
  function KeysFrom(c: nat, first: nat, n: nat): (r: seq<Key>)
    ensures |r| == n
  {
    seq(n, i requires 0 <= i < n => Key(c, first + i))
  }

  lemma KeysJoin(c: nat, first: nat, n: nat)
    ensures KeysFrom(c, first, n + 1) == [Key(c, first)] + KeysFrom(c, first + 1, n)
  {}

  /** A list of devices all of one client's. */
  ghost predicate AllOf(s: State, devices: seq<Key>, c: nat) {
    forall d :: d in devices ==> d in s.objects && d.client == c
  }

  /** How many drag offers this many devices of one client are made. */
  function OffersFor(s: State, c: nat, devices: nat): nat { Lesser(devices, IdsLeft(s, c)) }

  lemma SpentDrag(s: State, devices: seq<Key>, source: Option<Key>, made: seq<Key>, c: nat)
    requires (forall d :: d in devices ==> d.client == c) && (devices == [] || source.None? || !HasServerId(s, c))
    ensures OfferDrag(s, devices, source, made) == (s, made)
    decreases |devices|
  {
    if devices != [] { SpentDrag(s, devices[1..], source, made, c); }
  }

  lemma AddedIds(s: State, device: Key, source: Key)
    requires HasServerId(s, device.client)
    ensures var t, c := AddOffer(s, device, source, Drag, WlData), device.client;
      && NextKey(s, c) == Key(c, NextId(s, c))
      && NextId(t, c) == NextId(s, c) + 1 && IdsLeft(t, c) == IdsLeft(s, c) - 1
  {}

  /** One offer for each device while there are ids, and their keys in order. */
  lemma {:induction false} OfferDragMakes(s: State, devices: seq<Key>, source: Key, made: seq<Key>, c: nat)
    requires forall d :: d in devices ==> d.client == c
    ensures OfferDrag(s, devices, Some(source), made).1 == made + KeysFrom(c, NextId(s, c), OffersFor(s, c, |devices|))
    decreases |devices|
  {
    if devices == [] || !HasServerId(s, c) {
      SpentDrag(s, devices, Some(source), made, c);
    } else {
      var t := AddOffer(s, devices[0], source, Drag, WlData);
      AddedIds(s, devices[0], source);
      OfferDragMakes(t, devices[1..], source, made + [NextKey(s, c)], c);
      KeysJoin(c, NextId(s, c), OffersFor(t, c, |devices| - 1));
    }
  }

  lemma {:induction false} OfferDragHands(s: State, devices: seq<Key>, source: Key, made: seq<Key>, client: nat, c: nat)
    requires Named(s) && AllOf(s, devices, client)
    ensures var t := OfferDrag(s, devices, Some(source), made).0;
      && MoreOffers(s, t) && Named(t) && AllThere(s, devices)
      && Handed(s, t, c, Owed(s, devices, c, source, Drag, WlData, 0))
    decreases |devices|
  {
    if devices == [] {
      NothingHanded(s, c);
    } else if !HasServerId(s, client) {
      SpentDrag(s, devices, Some(source), made, client);
      if c != client { NotOwed(s, devices, source, client, c); }
      SpentHands(s, c, Owed(s, devices, c, source, Drag, WlData, 0));
    } else {
      var t := AddOffer(s, devices[0], source, Drag, WlData);
      var u := OfferDrag(s, devices, Some(source), made).0;
      AddOfferIsMore(s, devices[0], source, Drag, WlData);
      AddOfferHands(s, devices[0], source, Drag, WlData, c);
      OfferDragHands(t, devices[1..], source, made + [NextKey(s, client)], client, c);
      OwedSame(s, t, devices[1..], c, source, Drag, WlData, 0);
      MoreTransitive(s, t, u);
      HandedJoin(s, t, u, c, DragOwed(s, devices[0], c, source), Owed(s, devices[1..], c, source, Drag, WlData, 0));
    }
  }

  function DragOwed(s: State, d: Key, c: nat, source: Key): seq<Handout>
    requires d in s.objects
  {
    if c != d.client then [] else
      [Handout(Object(OfferObject(WlData), s.objects[d].version), Offer(Some(source), Drag, None, 0, 0, 0))]
  }

  lemma {:induction false} NotOwed(s: State, devices: seq<Key>, source: Key, client: nat, c: nat)
    requires AllOf(s, devices, client) && c != client
    ensures Owed(s, devices, c, source, Drag, WlData, 0) == []
  {
    if devices != [] { NotOwed(s, devices[1..], source, client, c); }
  }

  // ----- Moving over a surface -----

  function HowMany(devices: seq<Key>, c: nat): nat {
    if devices == [] then 0 else (if devices[0].client == c then 1 else 0) + HowMany(devices[1..], c)
  }

  lemma {:induction false} DevicesCounted(devices: seq<Key>, c: nat)
    ensures |DevicesOf(devices, c)| == HowMany(devices, c)
  {
    if devices != [] { DevicesCounted(devices[1..], c); }
  }

  /** The offers made in a client's name as a drag moves over it. */
  ghost function MadeFor(s: State, drag: DragState, over: Option<Key>): seq<Key> {
    if over.None? || drag.source.None? then [] else
      var c := over.value.client;
      KeysFrom(c, NextId(s, c), OffersFor(s, c, HowMany(s.dataDevices, c)))
  }

  /** What each client is handed as a drag moves there: an offer of what is dragged, on each of its data devices. */
  ghost function DragShare(s: State, drag: DragState, over: Option<Key>, c: nat): seq<Handout>
    requires DevicesListed(s)
  {
    if over.None? || drag.source.None? || c != over.value.client then []
    else Owed(s, s.dataDevices, c, drag.source.value, Drag, WlData, 0)
  }

  /** `t`, but for what its new offers have been settled on. */
  function Unsettled(s: State, t: State): State {
    t.(offers := map x | x in t.offers :: if x in s.offers then t.offers[x] else t.offers[x].(resolved := 0))
  }

  lemma {:induction false} DevicesAre(s: State, c: nat, d: nat, source: Key)
    requires AllThere(s, s.dataDevices)
    ensures AllOf(s, DevicesOf(s.dataDevices, c), c)
    ensures Owed(s, DevicesOf(s.dataDevices, c), d, source, Drag, WlData, 0)
         == if d == c then Owed(s, s.dataDevices, d, source, Drag, WlData, 0) else []
  {
    DevicesBelong(s.dataDevices, c);
    OthersOwed(s, s.dataDevices, c, d, source, Drag, WlData, 0);
  }

  /** The state while the offers are made, before they are settled. */
  function Offering(s: State, surface: Key): State
    requires s.drag.Some?
  {
    OfferDrag(s, DevicesOf(s.dataDevices, surface.client), s.drag.value.source, []).0
  }

  lemma OfferingMakes(s: State, surface: Key)
    requires s.drag.Some? && Named(s) && AllThere(s, s.dataDevices)
    ensures OfferDrag(s, DevicesOf(s.dataDevices, surface.client), s.drag.value.source, []).1
         == MadeFor(s, s.drag.value, Some(surface))
  {
    var source, devices := s.drag.value.source, DevicesOf(s.dataDevices, surface.client);
    DevicesBelong(s.dataDevices, surface.client);
    DevicesCounted(s.dataDevices, surface.client);
    if source.None? {
      SpentDrag(s, devices, None, [], surface.client);
    } else {
      OfferDragMakes(s, devices, source.value, [], surface.client);
    }
  }

  lemma OfferingHands(s: State, surface: Key, c: nat)
    requires s.drag.Some? && Named(s) && DevicesListed(s)
    ensures var t := Offering(s, surface);
      MoreOffers(s, t) && Named(t) && Handed(s, t, c, DragShare(s, s.drag.value, Some(surface), c))
  {
    var source, devices := s.drag.value.source, DevicesOf(s.dataDevices, surface.client);
    if source.None? {
      DevicesBelong(s.dataDevices, surface.client);
      SpentDrag(s, devices, None, [], surface.client);
      NothingHanded(s, c);
    } else {
      DevicesAre(s, surface.client, c, source.value);
      OfferDragHands(s, devices, source.value, [], surface.client, c);
    }
  }

  /** The keys made are those of new offers. */
  lemma MadeAreNew(s: State, surface: Key, x: Key)
    requires s.drag.Some? && Named(s) && DevicesListed(s) && x in MadeFor(s, s.drag.value, Some(surface))
    ensures NewOffer(s, Offering(s, surface), x)
  {
    var c := surface.client;
    OfferingHands(s, surface, c);
    DevicesCounted(s.dataDevices, c);
    OwedLength(s, s.dataDevices, c, s.drag.value.source.value);
  }

  lemma {:induction false} OwedLength(s: State, devices: seq<Key>, c: nat, source: Key)
    requires AllThere(s, devices)
    ensures |Owed(s, devices, c, source, Drag, WlData, 0)| == HowMany(devices, c)
  {
    if devices != [] { OwedLength(s, devices[1..], c, source); }
  }

  /** Settling changes what offers are settled on, and of those only the new. */
  ghost predicate OnlyNewSettled(s: State, t: State, u: State) {
    && u.objects == t.objects && u.nextServerId == t.nextServerId && u.offers.Keys == t.offers.Keys
    && (forall x :: x in t.offers ==> u.offers[x].(resolved := 0) == t.offers[x].(resolved := 0))
    && (forall x :: x in s.offers && x in t.offers ==> u.offers[x] == t.offers[x])
    && u == t.(drag := u.drag, offers := u.offers)
  }

  lemma EnteringSettles(s: State, surface: Key)
    requires s.drag.Some? && Named(s) && DevicesListed(s)
    ensures var u := EnterDrag(s, surface);
      && OnlyNewSettled(s, Offering(s, surface), u)
      && u.drag == Some(s.drag.value.(focus := Some(surface), focusOffers := MadeFor(s, s.drag.value, Some(surface))))
      && u == s.(drag := u.drag, offers := u.offers, objects := u.objects, nextServerId := u.nextServerId)
  {
    OfferingHands(s, surface, 0);
    OfferingMakes(s, surface);
    forall x | x in MadeFor(s, s.drag.value, Some(surface)) ensures x !in s.offers { MadeAreNew(s, surface, x); }
    assert EnterDrag(s, surface).offers.Keys == Offering(s, surface).offers.Keys;
  }

  lemma {:induction false} OwedFresh(s: State, devices: seq<Key>, c: nat, source: Key)
    requires AllThere(s, devices)
    ensures forall i | 0 <= i < |Owed(s, devices, c, source, Drag, WlData, 0)| ::
      Owed(s, devices, c, source, Drag, WlData, 0)[i].offer == Offer(Some(source), Drag, None, 0, 0, 0)
  {
    if devices != [] { OwedFresh(s, devices[1..], c, source); }
  }

  lemma ShareFresh(s: State, drag: DragState, over: Option<Key>, c: nat)
    requires DevicesListed(s)
    ensures forall i :: 0 <= i < |DragShare(s, drag, over, c)| ==> DragShare(s, drag, over, c)[i].offer.resolved == 0
  {
    if drag.source.Some? { OwedFresh(s, s.dataDevices, c, drag.source.value); }
  }

  /** One client's share of moving over a surface. */
  lemma EnteringHands(s: State, surface: Key, c: nat)
    requires s.drag.Some? && Named(s) && DevicesListed(s)
    ensures var t := EnterDrag(s, surface);
      && Handed(s, Unsettled(s, t), c, DragShare(s, s.drag.value, Some(surface), c))
      && (forall x :: x in s.offers ==> x in t.offers && t.offers[x] == s.offers[x])
  {
    var t, u := Offering(s, surface), EnterDrag(s, surface);
    OfferingHands(s, surface, c);
    EnteringSettles(s, surface);
    ShareFresh(s, s.drag.value, Some(surface), c);
    assert forall x :: x in u.offers <==> x in t.offers;
    UnsettledHanded(s, t, u, c, DragShare(s, s.drag.value, Some(surface), c));
  }

  lemma UnsettledHanded(s: State, t: State, u: State, c: nat, list: seq<Handout>)
    requires Handed(s, t, c, list) && u.objects == t.objects && u.nextServerId == t.nextServerId
    requires u.offers.Keys == t.offers.Keys
    requires forall x :: x in t.offers ==> u.offers[x].(resolved := 0) == t.offers[x].(resolved := 0)
    requires forall i :: 0 <= i < |list| ==> list[i].offer.resolved == 0
    ensures Handed(s, Unsettled(s, u), c, list)
  {
    assert forall x :: x in u.offers <==> x in t.offers;
  }

  // ----- Leaving the surface before -----

  lemma {:induction false} TargetsTold(s: State, list: seq<Key>, k: Key)
    requires k in s.sources && forall x :: x in list ==> x in s.offers && s.offers[x].source == Some(k)
    ensures TargetEvents(s, list) == seq(|list|, _ => Targeted(s.sources[k].birth))
  {
    if list != [] { TargetsTold(s, list[1..], k); }
  }

  /** What moving away leaves of an offer of the drag's, and of any other. */
  function AfterLeaving(drag: DragState, x: Key, o: Offer): Offer {
    if x in drag.focusOffers then o.(source := None, accepted := None) else o
  }

  lemma Leaving(s: State)
    requires Inv(s) && s.drag.Some?
    ensures var drag, t := s.drag.value, EndDragFocus(s);
      && t.drag == Some(drag.(focus := None, focusOffers := []))
      && t.offers.Keys == s.offers.Keys
      && (forall x :: x in s.offers ==> t.offers[x] == AfterLeaving(drag, x, s.offers[x]))
      && t == s.(drag := t.drag, offers := t.offers, log := t.log)
  {
    if s.drag.value.focus.None? { assert s.drag.value.focusOffers == []; }
  }

  /** Its source is told of each offer taken back. */
  lemma LeavingTells(s: State)
    requires Inv(s) && s.drag.Some?
    ensures var drag := s.drag.value;
      EndDragFocus(s).log == s.log + if drag.source.None? then [] else
        seq(|drag.focusOffers|, _ => Targeted(s.sources[drag.source.value].birth))
  {
    var drag := s.drag.value;
    if drag.source.Some? {
      TargetsTold(s, drag.focusOffers, drag.source.value);
      if drag.focus.None? { assert drag.focusOffers == []; }
    } else {
      assert drag.focusOffers == [];
      assert s.log + [] == s.log;
    }
  }

  // ----- The whole of it -----

  /** A drag moved from surface to surface, or off any: the old offers dead, the new ones made, nothing else changed. */
  ghost predicate Carried(s: State, t: State, over: Option<Key>)
    requires s.drag.Some?
  {
    var drag := s.drag.value;
    && t.drag == Some(drag.(focus := over, focusOffers := MadeFor(s, drag, over)))
    && (forall x :: x in s.offers ==> x in t.offers && t.offers[x] == AfterLeaving(drag, x, s.offers[x]))
    && t == s.(drag := t.drag, offers := t.offers, objects := t.objects, nextServerId := t.nextServerId, log := t.log)
    && t.log == s.log + if drag.source.None? || drag.source.value !in s.sources then [] else
         seq(|drag.focusOffers|, _ => Targeted(s.sources[drag.source.value].birth))
  }

  /**
   A drag is over what the pointer is over: any client's surface if it has a source, only its own client's if it has
   none. Where that changes, the client there is offered what is dragged on each of its data devices while it has
   ids, every offer made before is dead, and where it does not, nothing changes.
   */
  lemma PointerReaches(s: State, hit: Option<Key>, c: nat)
    requires Inv(s) && DevicesListed(s) && s.drag.Some? && Enabled(s, MovePointer(hit))
    ensures var drag, t := s.drag.value, Step(s, MovePointer(hit));
      var over := Target(drag, hit);
      if over == drag.focus then t == s
        else Carried(s, t, over) && Handed(s, Unsettled(s, t), c, DragShare(s, drag, over, c))
  {
    var drag, over := s.drag.value, Target(s.drag.value, hit);
    PointerIs(s, hit);
    if over != drag.focus {
      if over.None? {
        Leaves(s, c);
      } else {
        Enters(s, over.value);
        EntersHands(s, over.value, c);
      }
    }
  }

  lemma PointerIs(s: State, hit: Option<Key>)
    requires s.drag.Some? && Enabled(s, MovePointer(hit))
    ensures var over := Target(s.drag.value, hit);
      Step(s, MovePointer(hit)) ==
        if over == s.drag.value.focus then s
        else if over.Some? then EnterDrag(EndDragFocus(s), over.value) else EndDragFocus(s)
  {}

  lemma Leaves(s: State, c: nat)
    requires Inv(s) && DevicesListed(s) && s.drag.Some?
    ensures Carried(s, EndDragFocus(s), None) && Handed(s, Unsettled(s, EndDragFocus(s)), c, [])
  {
    Leaving(s);
    LeavingTells(s);
    NothingOverHands(s, EndDragFocus(s), c);
  }

  lemma Enters(s: State, surface: Key)
    requires Inv(s) && DevicesListed(s) && s.drag.Some?
    ensures Carried(s, EnterDrag(EndDragFocus(s), surface), Some(surface))
  {
    var t := EndDragFocus(s);
    Leaving(s);
    LeavingTells(s);
    LeavingSame(s, t, surface, 0);
    EnteringSettles(t, surface);
    EnteringHands(t, surface, 0);
    CarriedOver(s, t, EnterDrag(t, surface), surface);
  }

  lemma CarriedOver(s: State, t: State, u: State, surface: Key)
    requires s.drag.Some? && t.drag == Some(s.drag.value.(focus := None, focusOffers := []))
    requires Carried(s, t, None) && (forall x :: x in t.offers ==> x in u.offers && u.offers[x] == t.offers[x])
    requires u == t.(drag := u.drag, offers := u.offers, objects := u.objects, nextServerId := u.nextServerId)
    requires u.drag
          == Some(t.drag.value.(focus := Some(surface), focusOffers := MadeFor(s, s.drag.value, Some(surface))))
    ensures Carried(s, u, Some(surface))
  {}

  lemma EntersHands(s: State, surface: Key, c: nat)
    requires Inv(s) && DevicesListed(s) && s.drag.Some?
    ensures Handed(s, Unsettled(s, EnterDrag(EndDragFocus(s), surface)), c,
                   DragShare(s, s.drag.value, Some(surface), c))
  {
    var t := EndDragFocus(s);
    Leaving(s);
    LeavingSame(s, t, surface, c);
    EnteringHands(t, surface, c);
    LeftHanded(s, t, EnterDrag(t, surface), c, DragShare(s, s.drag.value, Some(surface), c));
  }

  lemma NothingOverHands(s: State, t: State, c: nat)
    requires t.offers.Keys == s.offers.Keys && t.nextServerId == s.nextServerId
    ensures Handed(s, Unsettled(s, t), c, [])
  {
    assert forall x :: x in t.offers <==> x in s.offers;
  }

  lemma LeavingSame(s: State, t: State, surface: Key, c: nat)
    requires s.drag.Some? && Named(s) && DevicesListed(s)
    requires t.offers.Keys == s.offers.Keys && t == s.(drag := t.drag, offers := t.offers, log := t.log)
    requires t.drag == Some(s.drag.value.(focus := None, focusOffers := []))
    ensures Named(t) && DevicesListed(t)
    ensures MadeFor(t, t.drag.value, Some(surface)) == MadeFor(s, s.drag.value, Some(surface))
    ensures DragShare(t, t.drag.value, Some(surface), c) == DragShare(s, s.drag.value, Some(surface), c)
  {
    assert SameAudience(s, t);
    SameNamed(s, t);
    if s.drag.value.source.Some? { OwedSame(s, t, s.dataDevices, c, s.drag.value.source.value, Drag, WlData, 0); }
  }

  lemma LeftHanded(s: State, t: State, u: State, c: nat, list: seq<Handout>)
    requires t.offers.Keys == s.offers.Keys && t.nextServerId == s.nextServerId
    requires Handed(t, Unsettled(t, u), c, list)
    ensures Handed(s, Unsettled(s, u), c, list)
  {
    assert forall x :: x in t.offers <==> x in s.offers;
    assert Unsettled(t, u) == Unsettled(s, u);
  }

  // ----- From acceptance to the last byte -----

  /** A drag over an offer its target can take: both sides have an action in common, and content to pass. */
  ghost predicate CanDrop(s: State, k: Key, x: Key, actions: Mask, preferred: Mask, mime: string) {
    && Inv(s) && s.drag.Some? && s.drag.value.source == Some(k) && x in s.drag.value.focusOffers && IsWlOffer(s, x)
    && k in s.sources && mime in s.sources[k].mimes
    && VersionOf(s, x) >= 3 && VersionOf(s, k) >= 3
    && Defined(actions) && PreferenceFits(actions, preferred) && actions & s.sources[k].actions != 0
  }

  function Taking(x: Key, actions: Mask, preferred: Mask, mime: string): seq<Request> {
    [Accept(x, Some(mime)), SetOfferActions(x, actions, preferred), ReleaseButton, Receive(x, mime), Finish(x)]
  }

  /** This offer is of this source, and may be answered. */
  predicate Offers(s: State, k: Key, x: Key) {
    IsWlOffer(s, x) && s.offers[x].source == Some(k) && s.offers[x].kind.Drag? && k in s.sources
  }

  /** The drag, its source and its offer as they were, but for what has been answered. */
  ghost predicate Answering(s: State, t: State, k: Key, x: Key) {
    t.drag == s.drag && t.sources == s.sources && t.objects == s.objects && t.grab == s.grab && Offers(t, k, x)
  }

  lemma AcceptAnswers(s: State, k: Key, x: Key, mime: string)
    requires Offers(s, k, x)
    ensures var t := Step(s, Accept(x, Some(mime)));
      && Answering(s, t, k, x) && t.offers[x].accepted == Some(mime) && t.log == s.log + [Targeted(s.sources[k].birth)]
  {}

  lemma ActionsAnswer(s: State, k: Key, x: Key, actions: Mask, preferred: Mask)
    requires Offers(s, k, x) && Defined(actions) && PreferenceFits(actions, preferred)
    ensures var t := Step(s, SetOfferActions(x, actions, preferred));
      && Answering(s, t, k, x) && t.offers[x].accepted == s.offers[x].accepted && t.log == s.log
      && t.offers[x].actions == actions && t.offers[x].preferred == preferred
  {}

  lemma SettledOnSomething(s: State, k: Key, x: Key)
    requires Agreed(s) && Offers(s, k, x) && s.offers[x].accepted.Some?
    requires Defined(s.sources[k].actions) && Defined(s.offers[x].actions)
    requires PreferenceFits(s.offers[x].actions, s.offers[x].preferred)
    requires VersionOf(s, x) >= 3 && VersionOf(s, k) >= 3 && s.offers[x].actions & s.sources[k].actions != 0
    ensures Accepting(s, x)
  {
    var o := s.offers[x];
    assert Negotiates(s, x);
    ResolvedIsFair(s.sources[k].actions, VersionOf(s, k), o.actions, o.preferred, VersionOf(s, x));
    AllowedNow(s.sources[k].actions, o.actions, VersionOf(s, k), VersionOf(s, x));
  }

  lemma AllowedNow(sa: Mask, oa: Mask, sv: nat, ov: nat)
    requires sv >= 3 && ov >= 3 && oa & sa != 0
    ensures Allowed(sa, sv) & Allowed(oa, ov) != 0
  {}

  /** The drop itself: told to the source, and the offer still open. */
  lemma Drops(u: State, k: Key, x: Key)
    requires Offers(u, k, x) && u.drag.Some? && u.drag.value.source == Some(k) && u.drag.value.focus.Some?
    requires x in u.drag.value.focusOffers && Accepting(u, x) && VersionOf(u, k) >= 3 && u.grab.None?
    ensures var v := Step(u, ReleaseButton);
      && v.drag.None? && v.sources == u.sources && v.objects == u.objects && x in v.offers
      && v.offers[x] == u.offers[x].(kind := Dropped)
      && v.log == u.log + [DropPerformed(u.sources[k].birth)]
  {
    assert TargetAccepted(u);
    assert x in MarkDropped(u, u.drag.value.focusOffers).offers;
  }

  lemma Read(v: State, k: Key, x: Key, mime: string)
    requires x in v.offers && v.offers[x].source == Some(k) && k in v.sources && mime in v.sources[k].mimes
    ensures Step(v, Receive(x, mime)) == v.(log := v.log + [SendContent(v.sources[k].birth, mime)])
  {}

  lemma Finishes(v: State, k: Key, x: Key)
    requires IsWlOffer(v, x) && v.offers[x].source == Some(k) && v.offers[x].kind.Dropped? && k in v.sources
    requires k in v.objects && v.objects[k].version >= 3
    ensures Step(v, Finish(x)).log == v.log + [Finished(v.sources[k].birth)] && Step(v, Finish(x)).drag == v.drag
  {}

  /** Both answers given, what they settle on is something. */
  lemma Answers(s: State, k: Key, x: Key, actions: Mask, preferred: Mask, mime: string)
    requires CanDrop(s, k, x, actions, preferred, mime)
    ensures var u := Step(Step(s, Accept(x, Some(mime))), SetOfferActions(x, actions, preferred));
      Answering(s, u, k, x) && Accepting(u, x) && u.log == s.log + [Targeted(s.sources[k].birth)]
  {
    var a := Step(s, Accept(x, Some(mime)));
    AcceptAnswers(s, k, x, mime);
    ActionsAnswer(a, k, x, actions, preferred);
    AnswersAgreed(s, x, actions, preferred, mime);
    SettledOnSomething(Step(a, SetOfferActions(x, actions, preferred)), k, x);
  }

  lemma AnswersAgreed(s: State, x: Key, actions: Mask, preferred: Mask, mime: string)
    requires Inv(s)
    ensures Agreed(Step(Step(s, Accept(x, Some(mime))), SetOfferActions(x, actions, preferred)))
  {
    StepKeepsInv(s, Accept(x, Some(mime)));
    StepKeepsInv(Step(s, Accept(x, Some(mime))), SetOfferActions(x, actions, preferred));
  }

  /** What is dropped can be read, and finished with. */
  lemma DroppedIsRead(u: State, k: Key, x: Key, mime: string)
    requires Offers(u, k, x) && u.drag.Some? && u.drag.value.source == Some(k) && u.drag.value.focus.Some?
    requires x in u.drag.value.focusOffers && Accepting(u, x) && u.grab.None? && mime in u.sources[k].mimes
    requires k in u.objects && u.objects[k].version >= 3
    ensures var t, b := Step(Step(Step(u, ReleaseButton), Receive(x, mime)), Finish(x)), u.sources[k].birth;
      t.drag.None? && t.log == u.log + [DropPerformed(b)] + [SendContent(b, mime)] + [Finished(b)]
  {
    var v := Step(u, ReleaseButton);
    Drops(u, k, x);
    Read(v, k, x, mime);
    Finishes(Step(v, Receive(x, mime)), k, x);
  }

  /**
   A target that accepts, names an action the source allows, and reads what was offered when the drop comes, gets
   it: the source hears of the target, the drop, the read and the end of it, once each and in that order.
   */
  lemma DropGoesThrough(s: State, k: Key, x: Key, actions: Mask, preferred: Mask, mime: string) returns (t: State)
    requires CanDrop(s, k, x, actions, preferred, mime)
    ensures Runs(s, Taking(x, actions, preferred, mime), t) && t.drag.None?
    ensures var b := s.sources[k].birth;
      t.log == s.log + [Targeted(b), DropPerformed(b), SendContent(b, mime), Finished(b)]
  {
    var u := Step(Step(s, Accept(x, Some(mime))), SetOfferActions(x, actions, preferred));
    Answers(s, k, x, actions, preferred, mime);
    DragIsOver(s, x);
    DroppedIsRead(u, k, x, mime);
    t := Step(Step(Step(u, ReleaseButton), Receive(x, mime)), Finish(x));
    TakingRuns(s, x, actions, preferred, mime);
    TellsInOrder(s.log, s.sources[k].birth, mime);
  }

  lemma DragIsOver(s: State, x: Key)
    requires Inv(s) && s.drag.Some? && x in s.drag.value.focusOffers
    ensures s.drag.value.focus.Some? && s.grab.None?
  {}

  lemma TellsInOrder(log: seq<Event>, b: nat, mime: string)
    ensures log + [Targeted(b)] + [DropPerformed(b)] + [SendContent(b, mime)] + [Finished(b)]
         == log + [Targeted(b), DropPerformed(b), SendContent(b, mime), Finished(b)]
  {}

  lemma TakingRuns(s: State, x: Key, actions: Mask, preferred: Mask, mime: string)
    ensures var a := Step(s, Accept(x, Some(mime)));
      var u := Step(a, SetOfferActions(x, actions, preferred));
      var v := Step(u, ReleaseButton);
      var w := Step(v, Receive(x, mime));
      Runs(s, Taking(x, actions, preferred, mime), Step(w, Finish(x)))
  {
    var a := Step(s, Accept(x, Some(mime)));
    var u := Step(a, SetOfferActions(x, actions, preferred));
    var v := Step(u, ReleaseButton);
    var w := Step(v, Receive(x, mime));
    var t := Step(w, Finish(x));
    var all := Taking(x, actions, preferred, mime);
    assert Runs(t, [], t);
    OneFirst(w, Finish(x), [], t);
    OneFirst(v, Receive(x, mime), [Finish(x)], t);
    OneFirst(u, ReleaseButton, [Receive(x, mime), Finish(x)], t);
    OneFirst(a, SetOfferActions(x, actions, preferred), [ReleaseButton, Receive(x, mime), Finish(x)], t);
    OneFirst(s, Accept(x, Some(mime)), all[1..], t);
    assert [Accept(x, Some(mime))] + all[1..] == all;
    assert all[1..] == [SetOfferActions(x, actions, preferred)] + [ReleaseButton, Receive(x, mime), Finish(x)];
  }

  lemma OneFirst(s: State, r: Request, rest: seq<Request>, t: State)
    requires Enabled(s, r) && Runs(Step(s, r), rest, t)
    ensures Runs(s, [r] + rest, t)
  {
    assert ([r] + rest)[0] == r && ([r] + rest)[1..] == rest;
  }

  /** A read is passed on exactly when the offer still has a source, and that source offered what is asked for. */
  lemma ReceiveExactly(s: State, x: Key, mime: string)
    requires Inv(s)
    ensures var t := Step(s, Receive(x, mime));
      var heard := x in s.offers && s.offers[x].source.Some? && mime in s.sources[s.offers[x].source.value].mimes;
      t == if heard then s.(log := s.log + [SendContent(s.sources[s.offers[x].source.value].birth, mime)]) else s
  {
    if x in s.offers { assert OfferFits(s, x); }
  }

  /** What a source has said it offers is served from it at once, through every offer of it there is. */
  lemma OfferedIsServed(s: State, k: Key, mime: string, x: Key)
    requires k in s.sources && (s.sources[k].interface.DataControl? ==> !s.sources[k].cancelled)
    requires x in s.offers && s.offers[x].source == Some(k)
    ensures var t := Step(s, OfferMime(k, mime));
      Step(t, Receive(x, mime)) == t.(log := s.log + [SendContent(s.sources[k].birth, mime)])
  {}

  /** What a source says it allows counts at once in every offer of it not yet read. */
  lemma SourceSaysAtOnce(s: State, k: Key, actions: Mask, x: Key)
    requires Negotiates(s, x) && s.offers[x].source == Some(k) && s.sources[k].interface.WlData? && Defined(actions)
    ensures var t, o := Step(s, SetSourceActions(k, actions)), s.offers[x];
      && t.sources[k].actions == actions
      && x in t.offers && t.offers[x] == o.(resolved :=
           ResolveAction(actions, VersionOf(s, k), o.actions, o.preferred, VersionOf(s, x)))
  {
    var t := s.(sources := s.sources[k := s.sources[k].(actions := actions)]);
    assert Step(s, SetSourceActions(k, actions)) == ResolveSome(t, t.offers.Keys);
    ResolvedAmong(t, t.offers.Keys, x);
  }

  lemma ResolvedAmong(s: State, list: set<Key>, x: Key)
    requires x in list && Negotiates(s, x)
    ensures var t := ResolveSome(s, list);
      t.sources == s.sources && x in t.offers && t.offers[x] == s.offers[x].(resolved := Settled(s, x))
  {}

  /** Losing the surface with focus, or its client, leaves nobody with focus. */
  lemma SurfaceLost(s: State, k: Key)
    ensures Step(s, DestroySurface(k)).focused == if k in s.surfaces && s.focused == Some(k) then None else s.focused
  {}

  lemma ClientLost(s: State, c: nat)
    ensures Step(s, Disconnect(c)).focused == if s.focused.Some? && s.focused.value.client == c then None else s.focused
  {
    var t := s.(surfaces := (set k | k in s.surfaces && k.client != c),
                grab := if BelongsTo(s.grab, c) then None else s.grab);
    LeftFocused(t, c);
  }

  lemma LeftFocused(s: State, c: nat)
    ensures LeaveSelections(LeaveDrag(s, c), c).focused == s.focused
  {
    var t := LeaveDrag(s, c);
    ClearsOnly(t);
    ClearsOnly(t.(selection := None));
  }
}
