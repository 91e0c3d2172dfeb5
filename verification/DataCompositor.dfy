/**
 The handlers of the data protocols, updating their tables in place. Each is proved to do to the
 tables what its function in `DataTransfer` does to the state.
 */
module DataCompositor {
  import opened Base
  import opened DataTransfer
  import opened DataInvariant

  lemma {:induction false} TargetEventsSnoc(s: State, list: seq<Key>, x: Key)
    ensures TargetEvents(s, list + [x]) == TargetEvents(s, list) + TargetEvents(s, [x])
  {
    if list != [] {
      assert (list + [x])[1..] == list[1..] + [x];
      TargetEventsSnoc(s, list[1..], x);
    }
  }

  lemma ResolvedAgain(s: State, done: set<Key>, x: Key, y: Key)
    requires y in s.offers
    ensures ResolveSome(ResolveSome(s, done), {x}).offers[y] == ResolveSome(s, done + {x}).offers[y]
  {
    var t := ResolveSome(s, done);
    ResolveSomeSettles(s, done);
    assert Negotiates(t, y) <==> Negotiates(s, y);
  }

  /** Offers settled one after another are settled as if all at once. */
  lemma ResolveOneMore(s: State, done: set<Key>, x: Key)
    ensures Resolve(ResolveSome(s, done), x) == ResolveSome(s, done + {x})
  {
    var a, b := ResolveSome(ResolveSome(s, done), {x}).offers, ResolveSome(s, done + {x}).offers;
    ResolveIsResolveSome(ResolveSome(s, done), x);
    forall y | y in s.offers ensures a[y] == b[y] { ResolvedAgain(s, done, x, y); }
    assert a == b;
  }

  lemma ResolveNone(s: State)
    ensures ResolveSome(s, {}) == s
  {
    assert ResolveSome(s, {}).offers == s.offers;
  }

  lemma LooseNone(s: State)
    ensures InvalidateAll(s, []) == s
  {
    assert InvalidateAll(s, []).offers == s.offers;
  }

  lemma LooseOneMore(s: State, list: seq<Key>, x: Key)
    ensures InvalidateAll(s, list + [x]) == InvalidateAll(InvalidateAll(s, list), [x])
  {
    assert InvalidateAll(s, list + [x]).offers == InvalidateAll(InvalidateAll(s, list), [x]).offers;
  }

  lemma DropOneMore(s: State, list: seq<Key>, x: Key)
    ensures MarkDropped(s, list + [x]) == MarkDropped(MarkDropped(s, list), [x])
  {
    assert MarkDropped(s, list + [x]).offers == MarkDropped(MarkDropped(s, list), [x]).offers;
  }

  /** Settling every offer that has a source to settle with settles all that can be. */
  lemma ResolveAll(s: State, all: set<Key>)
    requires forall x :: Negotiates(s, x) ==> x in all
    ensures ResolveSome(s, all) == ResolveSome(s, s.offers.Keys)
  {
    assert ResolveSome(s, all).offers == ResolveSome(s, s.offers.Keys).offers;
  }

  /** A drag's focus part left: each offer's source told, and the offer cut loose. */
  function Left(s: State, list: seq<Key>): State {
    InvalidateAll(s.(log := s.log + TargetEvents(s, list)), list)
  }

  lemma LeftOneMore(s: State, list: seq<Key>, i: nat)
    requires Distinct(list) && i < |list|
    ensures var t := Left(s, list[..i]);
      Left(s, list[..i + 1]) == InvalidateAll(t.(log := t.log + TargetEvents(t, [list[i]])), [list[i]])
  {
    var t := Left(s, list[..i]);
    assert list[..i + 1] == list[..i] + [list[i]];
    TargetEventsSnoc(s, list[..i], list[i]);
    assert list[i] in s.offers ==> t.offers[list[i]] == s.offers[list[i]];
    assert TargetEvents(t, [list[i]]) == TargetEvents(s, [list[i]]);
    LooseOneMore(s.(log := s.log + TargetEvents(s, list[..i + 1])), list[..i], list[i]);
  }

  lemma LooseThenDropped(s: State, loose: map<Key, Offer>, client: nat)
    requires loose.Keys == s.offers.Keys
    requires forall x :: x in loose ==> (loose[x] ==
      if BelongsTo(s.offers[x].source, client) && s.offers[x].source.value in s.sources then Loose(s.offers[x])
        else s.offers[x])
    ensures (map x | x in loose && x.client != client :: loose[x]) == DropClient(s, client).offers
  {}

  class Compositor {
    var objects: map<Key, Object>
    var nextServerId: map<nat, nat>
    var sources: map<Key, Source>
    var offers: map<Key, Offer>
    var dataDevices: seq<Key>
    var primaryDevices: seq<Key>
    var controlDevices: seq<Key>
    var selection: Option<Key>
    var primary: Option<Key>
    var drag: Option<DragState>
    var grab: Option<Key>
    var focused: Option<Key>
    var surfaces: set<Key>
    var icons: set<Key>
    var births: seq<Birth>
    var log: seq<Event>

    function Model(): State
      reads this
    {
      State(objects, nextServerId, sources, offers, dataDevices, primaryDevices, controlDevices,
            selection, primary, drag, grab, focused, surfaces, icons, births, log)
    }

    constructor ()
      ensures Model() == INITIAL
    {
      objects, nextServerId, sources, offers := map[], map[], map[], map[];
      dataDevices, primaryDevices, controlDevices := [], [], [];
      selection, primary, drag, grab, focused := None, None, None, None, None;
      surfaces, icons, births, log := {}, {}, [], [];
    }

    // ----- Offers -----

    /** `create_offer`, if the client's half of the id space is not spent. */
    method CreateOffer(device: Key, source: Key, kind: OfferKind, interface: Interface) returns (offer: Option<Key>)
      modifies this
      ensures offer.Some? == HasServerId(old(Model()), device.client)
      ensures offer.Some? ==> offer == Some(NextKey(old(Model()), device.client))
      ensures Model() == if offer.Some? then AddOffer(old(Model()), device, source, kind, interface) else old(Model())
    {
      if device.client !in nextServerId || nextServerId[device.client] >= SERVER_ID_END { return None; }
      var k := Key(device.client, nextServerId[device.client]);
      var version := if interface.PrimarySelection? || device !in objects then 1 else objects[device].version;
      nextServerId := nextServerId[device.client := k.id + 1];
      objects := objects[k := Object(OfferObject(interface), version)];
      offers := offers[k := Offer(Some(source), kind, None, 0, 0, 0)];
      return Some(k);
    }

    /** `send_selection_to_device` and its two counterparts. */
    method SendToDevice(device: Key, source: Option<Key>, interface: Interface, since: nat)
      modifies this
      ensures Model() == OfferTo(old(Model()), device, source, interface, since)
    {
      var version := if device in objects then objects[device].version else 1;
      if version < since || source.None? { return; }
      var offer := CreateOffer(device, source.value, Selection, interface);
    }

    method SendToDevices(devices: seq<Key>, source: Option<Key>, interface: Interface, since: nat)
      modifies this
      ensures Model() == OfferToAll(old(Model()), devices, source, interface, since)
    {
      for i := 0 to |devices|
        invariant OfferToAll(Model(), devices[i..], source, interface, since)
          == OfferToAll(old(Model()), devices, source, interface, since)
      {
        SendToDevice(devices[i], source, interface, since);
      }
    }

    method DevicesOfClient(devices: seq<Key>, client: nat) returns (found: seq<Key>)
      ensures found == DevicesOf(devices, client)
    {
      found := [];
      for i := 0 to |devices|
        invariant found + DevicesOf(devices[i..], client) == DevicesOf(devices, client)
      {
        if devices[i].client == client { found := found + [devices[i]]; }
      }
    }

    /** `announce_selection`. */
    method Announce()
      modifies this
      ensures Model() == AnnounceSelection(old(Model()))
    {
      var devices := [];
      if focused.Some? { devices := DevicesOfClient(dataDevices, focused.value.client); }
      OfferToAllAdds(Model(), devices, selection, WlData, 0);
      SendToDevices(devices, selection, WlData, 0);
      SendToDevices(controlDevices, selection, DataControl, 0);
    }

    method AnnounceToPrimary()
      modifies this
      ensures Model() == AnnouncePrimary(old(Model()))
    {
      var devices := [];
      if focused.Some? { devices := DevicesOfClient(primaryDevices, focused.value.client); }
      OfferToAllAdds(Model(), devices, primary, PrimarySelection, 0);
      SendToDevices(devices, primary, PrimarySelection, 0);
      SendToDevices(controlDevices, primary, DataControl, PRIMARY_SINCE);
    }

    /** `invalidate_offers_from`. */
    method InvalidateOffersFrom(source: Key)
      modifies this`offers
      ensures Model() == InvalidateFrom(old(Model()), source)
    {
      var left := offers.Keys;
      while left != {}
        invariant left <= offers.Keys == old(offers).Keys
        invariant forall x :: x in offers ==>
          (offers[x] == if x !in left && old(offers)[x].source == Some(source) then Loose(old(offers)[x])
            else old(offers)[x])
      {
        var x :| x in left;
        left := left - {x};
        if offers[x].source == Some(source) { offers := offers[x := Loose(offers[x])]; }
      }
      assert offers == InvalidateFrom(old(Model()), source).offers;
    }

    /** `invalidate_offer`. */
    method InvalidateOffer(offer: Key)
      modifies this`offers
      ensures Model() == InvalidateAll(old(Model()), [offer])
    {
      if offer in offers { offers := offers[offer := Loose(offers[offer])]; }
      assert offers == InvalidateAll(old(Model()), [offer]).offers;
    }

    method InvalidateOffers(list: seq<Key>)
      modifies this`offers
      ensures Model() == InvalidateAll(old(Model()), list)
    {
      ghost var s := Model();
      LooseNone(s);
      for i := 0 to |list|
        invariant Model() == InvalidateAll(s, list[..i])
      {
        InvalidateOffer(list[i]);
        LooseOneMore(s, list[..i], list[i]);
        assert list[..i + 1] == list[..i] + [list[i]];
      }
      assert list[..|list|] == list;
    }

    /** `cancel_source`. */
    method CancelSource(source: Key)
      modifies this`sources, this`log
      ensures Model() == Cancel(old(Model()), source)
    {
      if source in sources {
        log := log + [Cancelled(sources[source].birth)];
        sources := sources[source := sources[source].(cancelled := true)];
      }
    }

    // ----- Selections -----

    method PutOnSelection(source: Option<Key>)
      modifies this
      ensures Model() == SetSelection(old(Model()), source)
    {
      if selection.Some? && selection != source {
        var held := selection.value;
        CancelSource(held);
        InvalidateOffersFrom(held);
      }
      selection := source;
      Announce();
    }

    method PutOnPrimary(source: Option<Key>)
      modifies this
      ensures Model() == SetPrimary(old(Model()), source)
    {
      if primary.Some? && primary != source {
        var held := primary.value;
        CancelSource(held);
        InvalidateOffersFrom(held);
      }
      primary := source;
      AnnounceToPrimary();
    }

    /** `claim_source`. */
    method ClaimSource(source: Key, role: Role) returns (ok: bool)
      modifies this`sources
      ensures ok == Claimable(old(Model()), source)
      ensures Model() == if ok then Claim(old(Model()), source, role) else old(Model())
    {
      if source !in sources || !sources[source].interface.WlData? || !sources[source].role.Unused? { return false; }
      sources := sources[source := sources[source].(role := role)];
      return true;
    }

    /** `wl_data_device.set_selection`. */
    method HandleSetSelection(client: nat, source: nat, recent: bool)
      modifies this
      ensures Model() == SetClipboardStep(old(Model()), client, source, recent)
    {
      if !recent { return; }
      var chosen: Option<Key> := None;
      if source != 0 {
        var ok := ClaimSource(Key(client, source), ForSelection);
        if !ok { return; }
        chosen := Some(Key(client, source));
      }
      PutOnSelection(chosen);
    }

    /** `zwp_primary_selection_device_v1.set_selection`. */
    method HandleSetPrimary(client: nat, source: nat, recent: bool)
      modifies this
      ensures Model() == SetPrimaryStep(old(Model()), client, source, recent)
    {
      if !recent { return; }
      if source == 0 { PutOnPrimary(None); return; }
      var k := Key(client, source);
      if k !in sources || !sources[k].interface.PrimarySelection? { return; }
      PutOnPrimary(Some(k));
    }

    /** `zwlr_data_control_device_v1.set_selection` and `set_primary_selection`. */
    method HandleControlSet(client: nat, source: nat, onPrimary: bool)
      modifies this
      ensures Model() == ControlSetStep(old(Model()), client, source, onPrimary)
    {
      var chosen: Option<Key> := None;
      if source != 0 {
        var k := Key(client, source);
        if k !in sources || !sources[k].interface.DataControl? { return; }
        if !sources[k].role.Unused? { return; }
        sources := sources[k := sources[k].(role := ForSelection)];
        chosen := Some(k);
      }
      if onPrimary { PutOnPrimary(chosen); } else { PutOnSelection(chosen); }
    }

    // ----- Negotiation -----

    /** `resolve_offer_action`. */
    method ResolveOfferAction(x: Key)
      modifies this`offers
      ensures Model() == Resolve(old(Model()), x)
    {
      if x !in offers || offers[x].kind.Selection? { return; }
      if offers[x].source.None? || offers[x].source.value !in sources { return; }
      var source := offers[x].source.value;
      var action := ResolveAction(
        sources[source].actions, VersionOf(Model(), source),
        offers[x].actions, offers[x].preferred, VersionOf(Model(), x));
      if offers[x].resolved != action {
        offers := offers[x := offers[x].(resolved := action)];
      } else {
        assert offers == offers[x := offers[x].(resolved := action)];
      }
    }

    /** `resolve_drag_actions`: the offers come out of a hash map, so in no particular order. */
    method ResolveDragActions()
      modifies this`offers
      ensures Model() == ResolveSome(old(Model()), old(Model()).offers.Keys)
    {
      ghost var s := Model();
      var left := set x | x in offers && !offers[x].kind.Selection? && offers[x].source.Some?;
      ghost var all, done := left, {};
      ResolveNone(s);
      while left != {}
        invariant done + left == all
        invariant Model() == ResolveSome(s, done)
        decreases left
      {
        var x :| x in left;
        ResolveOneMore(s, done, x);
        left, done := left - {x}, done + {x};
        ResolveOfferAction(x);
      }
      ResolveAll(s, all);
    }

    /** `wl_data_source.set_actions`. */
    method HandleSourceSetActions(k: Key, actions: Mask)
      requires k in sources && sources[k].interface.WlData?
      modifies this
      ensures Model() == SetSourceActionsStep(old(Model()), k, actions)
    {
      if !Defined(actions) { return; }
      sources := sources[k := sources[k].(actions := actions)];
      ResolveDragActions();
    }

    // ----- Drags -----

    /** `wl_data_device.start_drag`, `claim_icon_role` included. */
    method HandleStartDrag(client: nat, source: nat, origin: nat, icon: nat, pressed: bool, iconFree: bool)
      modifies this
      ensures Model() == StartDragStep(old(Model()), client, source, origin, icon, pressed, iconFree)
    {
      if grab.Some? || drag.Some? { return; }
      if !pressed || Key(client, origin) !in surfaces { return; }
      var drawn: Option<Key> := None;
      if icon != 0 {
        var k := Key(client, icon);
        if k !in surfaces || k in icons || !iconFree { return; }
        icons := icons + {k};
        drawn := Some(k);
      }
      var chosen: Option<Key> := None;
      if source != 0 {
        var ok := ClaimSource(Key(client, source), ForDrag);
        if !ok { return; }
        chosen := Some(Key(client, source));
      }
      drag := Some(DragState(chosen, client, Key(client, origin), drawn, None, []));
    }

    /** `cancel_drag`. */
    method CancelTheDrag()
      modifies this
      ensures Model() == CancelDrag(old(Model()))
    {
      if drag.None? { return; }
      var ended := drag.value;
      drag := None;
      InvalidateOffers(ended.focusOffers);
      if ended.source.Some? { CancelSource(ended.source.value); }
    }

    /** `clear_accepted`, and then `invalidate_offer`. */
    method ClearAccepted(x: Key)
      modifies this`offers, this`log
      ensures Model() == InvalidateAll(old(Model()).(log := old(log) + TargetEvents(old(Model()), [x])), [x])
    {
      ghost var s := Model();
      assert TargetEvents(s, [x]) == if x in offers then TargetEvent(s, offers[x].source) else [];
      if x in offers {
        var source := offers[x].source;
        if source.Some? && source.value in sources { log := log + [Targeted(sources[source.value].birth)]; }
      }
      InvalidateOffer(x);
    }

    /** `end_drag_focus`. */
    method LeaveFocus()
      requires drag.Some? ==> Distinct(drag.value.focusOffers)
      modifies this
      ensures Model() == EndDragFocus(old(Model()))
    {
      if drag.None? || drag.value.focus.None? { return; }
      var list := drag.value.focusOffers;
      ghost var s := Model();
      LooseNone(s);
      assert s.log + TargetEvents(s, []) == s.log;
      for i := 0 to |list|
        invariant Model() == Left(s, list[..i])
      {
        LeftOneMore(s, list, i);
        ClearAccepted(list[i]);
      }
      assert list[..|list|] == list;
      drag := Some(drag.value.(focus := None, focusOffers := []));
    }

    /** `enter_drag_surface`. */
    method EnterSurface(surface: Key)
      modifies this
      ensures Model() == EnterDrag(old(Model()), surface)
    {
      if drag.None? { return; }
      var source := drag.value.source;
      var devices := DevicesOfClient(dataDevices, surface.client);
      var made: seq<Key> := [];
      for i := 0 to |devices|
        invariant drag == old(drag)
        invariant OfferDrag(Model(), devices[i..], source, made) == OfferDrag(old(Model()), devices, source, [])
      {
        if source.Some? {
          var offer := CreateOffer(devices[i], source.value, Drag, WlData);
          if offer.Some? { made := made + [offer.value]; }
        }
      }
      drag := Some(drag.value.(focus := Some(surface), focusOffers := made));
      ResolveOffers(made);
    }

    method ResolveOffers(list: seq<Key>)
      modifies this`offers
      ensures Model() == ResolveSome(old(Model()), set x | x in list)
    {
      ghost var s, done := Model(), {};
      ResolveNone(s);
      for i := 0 to |list|
        invariant Model() == ResolveSome(s, done)
        invariant forall x :: x in done <==> x in list[..i]
      {
        ResolveOneMore(s, done, list[i]);
        ResolveOfferAction(list[i]);
        done := done + {list[i]};
      }
      assert done == set x | x in list;
    }

    /** `update_drag`. */
    method PointerMoved(hit: Option<Key>)
      requires drag.Some? ==> Distinct(drag.value.focusOffers)
      modifies this
      ensures Model() == UpdateDrag(old(Model()), hit)
    {
      if drag.None? { return; }
      var over := hit;
      if over.Some? && drag.value.source.None? && over.value.client != drag.value.originClient { over := None; }
      if over == drag.value.focus { return; }
      LeaveFocus();
      if over.Some? { EnterSurface(over.value); }
    }

    /** `drag_target_accepted`. */
    method TargetAccepts() returns (accepted: bool)
      ensures accepted == TargetAccepted(Model())
    {
      if drag.None? { return false; }
      var list := drag.value.focusOffers;
      for i := 0 to |list|
        invariant forall j :: 0 <= j < i ==> !Accepting(Model(), list[j])
      {
        if Accepting(Model(), list[i]) { return true; }
      }
      return false;
    }

    method MarkOffersDropped(list: seq<Key>)
      modifies this`offers
      ensures Model() == MarkDropped(old(Model()), list)
    {
      ghost var s := Model();
      assert MarkDropped(s, []).offers == s.offers;
      for i := 0 to |list|
        invariant Model() == MarkDropped(s, list[..i])
      {
        ghost var t := Model();
        if list[i] in offers { offers := offers[list[i] := offers[list[i]].(kind := Dropped)]; }
        assert offers == MarkDropped(t, [list[i]]).offers;
        DropOneMore(s, list[..i], list[i]);
        assert list[..i + 1] == list[..i] + [list[i]];
      }
      assert list[..|list|] == list;
    }

    /** `finish_drag`. */
    method EndDrag()
      modifies this
      ensures Model() == FinishDrag(old(Model()))
    {
      var accepted := TargetAccepts();
      if drag.None? { return; }
      var ended := drag.value;
      drag := None;
      if ended.focus.None? {
        if ended.source.Some? { CancelSource(ended.source.value); }
        return;
      }
      if ended.source.None? { return; }
      if !accepted {
        InvalidateOffers(ended.focusOffers);
        CancelSource(ended.source.value);
        return;
      }
      MarkOffersDropped(ended.focusOffers);
      var k := ended.source.value;
      if k in sources && k in objects && objects[k].version >= ACTIONS_SINCE {
        log := log + [DropPerformed(sources[k].birth)];
      }
    }

    // ----- Sources and offers going -----

    /** Taking a source out of whatever it was in the middle of. */
    method Unslot(k: Key)
      modifies this
      ensures Model() == Unslotted(old(Model()), k)
    {
      if selection == Some(k) { selection := None; Announce(); }
      if primary == Some(k) { primary := None; AnnounceToPrimary(); }
      if drag.Some? && drag.value.source == Some(k) { CancelTheDrag(); }
    }

    /** `retire_data_source`. */
    method RetireSource(k: Key, notify: bool)
      modifies this
      ensures Model() == Retire(old(Model()), k, notify)
    {
      Unslot(k);
      InvalidateOffersFrom(k);
      if notify { CancelSource(k); }
      sources := sources - {k};
    }

    /** The destructors of all three source interfaces. */
    method HandleSourceDestroy(k: Key)
      requires k in sources
      modifies this
      ensures Model() == DestroySourceStep(old(Model()), k)
    {
      RetireSource(k, false);
      objects := objects - {k};
    }

    /** `wl_data_offer.destroy`. */
    method HandleOfferDestroy(k: Key)
      requires k in offers
      modifies this
      ensures Model() == DestroyOfferStep(old(Model()), k)
    {
      offers := offers - {k};
      if drag.Some? { drag := Some(drag.value.(focusOffers := Without(drag.value.focusOffers, k))); }
      objects := objects - {k};
    }

    /** `wl_data_offer.accept`. */
    method HandleAccept(k: Key, mime: Option<string>)
      requires k in objects && objects[k].kind == OfferObject(WlData)
      modifies this
      ensures Model() == AcceptStep(old(Model()), k, mime)
    {
      if k !in offers { return; }
      offers := offers[k := offers[k].(accepted := mime)];
      var source := offers[k].source;
      if source.Some? && source.value in sources { log := log + [Targeted(sources[source.value].birth)]; }
      assert log == old(log) + TargetEvent(old(Model()), source);
      ResolveOfferAction(k);
    }

    /** `wl_data_offer.finish`. */
    method HandleFinish(k: Key)
      requires k in objects && objects[k].kind == OfferObject(WlData)
      modifies this
      ensures Model() == FinishStep(old(Model()), k)
    {
      if k !in offers || !offers[k].kind.Dropped? { return; }
      var source := offers[k].source;
      offers := offers[k := offers[k].(source := None)];
      if source.Some? && source.value in sources && source.value in objects
         && objects[source.value].version >= ACTIONS_SINCE {
        log := log + [Finished(sources[source.value].birth)];
      }
    }

    /** `wl_data_offer.set_actions`. */
    method HandleOfferSetActions(k: Key, actions: Mask, preferred: Mask)
      requires k in offers && k in objects && objects[k].kind == OfferObject(WlData)
      modifies this
      ensures Model() == SetOfferActionsStep(old(Model()), k, actions, preferred)
    {
      if !Defined(actions) { return; }
      if preferred != 0 && (!IsPowerOfTwo(preferred) || preferred & actions == 0) { return; }
      offers := offers[k := offers[k].(actions := actions, preferred := preferred)];
      ResolveOfferAction(k);
    }

    // ----- Sources, devices and focus coming and going -----

    /** The managers' `create_data_source`, of all three interfaces. */
    method HandleCreateSource(k: Key, interface: Interface, version: nat)
      requires k.client in nextServerId
      modifies this
      ensures Model() == CreateSourceStep(old(Model()), k, interface, version)
    {
      if !ForClient(k.id) || k in objects || k in surfaces { return; }
      objects := objects[k := Object(SourceObject(interface), if interface.PrimarySelection? then 1 else version)];
      sources := sources[k := Source(interface, [], 0, Unused, false, |births|)];
      births := births + [Birth(k, interface)];
    }

    /** The sources' `offer`. */
    method HandleOffer(k: Key, mime: string)
      requires k in sources
      modifies this`sources
      ensures Model() == OfferMimeStep(old(Model()), k, mime)
    {
      if sources[k].interface.DataControl? && sources[k].cancelled { return; }
      if mime !in sources[k].mimes { sources := sources[k := sources[k].(mimes := sources[k].mimes + [mime])]; }
    }

    /** The offers' `receive`. */
    method HandleReceive(k: Key, mime: string)
      modifies this`log
      ensures Model() == ReceiveStep(old(Model()), k, mime)
    {
      if k !in offers || offers[k].source.None? { return; }
      var source := offers[k].source.value;
      if source !in sources || mime !in sources[source].mimes { return; }
      log := log + [SendContent(sources[source].birth, mime)];
    }

    /** The managers' `get_data_device`, of all three interfaces. */
    method HandleGetDevice(k: Key, interface: Interface, version: nat)
      requires k.client in nextServerId
      modifies this
      ensures Model() == GetDeviceStep(old(Model()), k, interface, version)
    {
      if !ForClient(k.id) || k in objects || k in surfaces { return; }
      objects := objects[k := Object(DeviceObject(interface), if interface.PrimarySelection? then 1 else version)];
      var has := focused.Some? && focused.value.client == k.client;
      match interface
      case WlData =>
        dataDevices := dataDevices + [k];
        if has { SendToDevice(k, selection, WlData, 0); }
      case PrimarySelection =>
        primaryDevices := primaryDevices + [k];
        if has { SendToDevice(k, primary, PrimarySelection, 0); }
      case DataControl =>
        controlDevices := controlDevices + [k];
        SendToDevice(k, selection, DataControl, 0);
        SendToDevice(k, primary, DataControl, PRIMARY_SINCE);
    }

    /** `release` and `destroy` of a device. */
    method HandleDeviceRelease(k: Key)
      requires k in objects && objects[k].kind.DeviceObject?
      modifies this
      ensures Model() == ReleaseDeviceStep(old(Model()), k)
    {
      match objects[k].kind.interface {
        case WlData => dataDevices := Without(dataDevices, k);
        case PrimarySelection => primaryDevices := Without(primaryDevices, k);
        case DataControl => controlDevices := Without(controlDevices, k);
      }
      objects := objects - {k};
    }

    /** `switch_focus`, as far as the selections follow it. */
    method SwitchFocus(surface: Option<Key>)
      modifies this
      ensures Model() == FocusStep(old(Model()), surface)
    {
      if surface == focused { return; }
      focused := surface;
      if surface.None? { return; }
      var devices := DevicesOfClient(dataDevices, surface.value.client);
      OfferToAllAdds(Model(), devices, selection, WlData, 0);
      SendToDevices(devices, selection, WlData, 0);
      var primaries := DevicesOfClient(primaryDevices, surface.value.client);
      SendToDevices(primaries, primary, PrimarySelection, 0);
    }

    // ----- Surfaces and clients going -----

    /** `destroy_surface`, as far as it touches drags and focus. */
    method DestroySurface(k: Key)
      requires k in surfaces && (drag.Some? ==> Distinct(drag.value.focusOffers))
      modifies this
      ensures Model() == DestroySurfaceStep(old(Model()), k)
    {
      surfaces, icons := surfaces - {k}, icons - {k};
      if focused == Some(k) { focused := None; }
      if drag.Some? && drag.value.origin == k { CancelTheDrag(); return; }
      if drag.Some? {
        if drag.value.icon == Some(k) { drag := Some(drag.value.(icon := None)); }
        if drag.value.focus == Some(k) { LeaveFocus(); }
      }
    }

    method OthersThan(keys: seq<Key>, client: nat) returns (kept: seq<Key>)
      ensures kept == OthersOf(keys, client)
    {
      kept := [];
      for i := 0 to |keys|
        invariant kept + OthersOf(keys[i..], client) == OthersOf(keys, client)
      {
        if keys[i].client != client { kept := kept + [keys[i]]; }
      }
    }

    /** The client's sources are cut loose from every offer before they are dropped from the table. */
    method InvalidateOffersOfClient(client: nat)
      modifies this`offers
      ensures Model() == old(Model()).(offers := offers) && offers.Keys == old(offers).Keys
      ensures forall x :: x in offers ==>
        (offers[x] == if BelongsTo(old(offers)[x].source, client) && old(offers)[x].source.value in sources
          then Loose(old(offers)[x]) else old(offers)[x])
    {
      var left := set k | k in sources && k.client == client;
      while left != {}
        invariant forall k :: k in left ==> k in sources && k.client == client
        invariant offers.Keys == old(offers).Keys
        invariant forall x :: x in offers ==> (offers[x] ==
          if BelongsTo(old(offers)[x].source, client) && old(offers)[x].source.value in sources
            && old(offers)[x].source.value !in left
          then Loose(old(offers)[x]) else old(offers)[x])
        decreases left
      {
        var k :| k in left;
        InvalidateOffersFrom(k);
        left := left - {k};
      }
    }

    method LeaveDragOf(client: nat)
      modifies this
      ensures Model() == LeaveDrag(old(Model()), client)
    {
      if drag.Some? && drag.value.originClient == client {
        CancelTheDrag();
      } else if drag.Some? && BelongsTo(drag.value.focus, client) {
        drag := Some(drag.value.(focus := None, focusOffers := []));
      }
    }

    method LeaveSelectionsOf(client: nat)
      modifies this
      ensures Model() == LeaveSelections(old(Model()), client)
    {
      if BelongsTo(selection, client) { selection := None; Announce(); }
      if BelongsTo(primary, client) { primary := None; AnnounceToPrimary(); }
    }

    method DropOffers(client: nat)
      modifies this`offers
      ensures Model() == old(Model()).(offers := DropClient(old(Model()), client).offers)
    {
      ghost var s := Model();
      InvalidateOffersOfClient(client);
      LooseThenDropped(s, offers, client);
      offers := map x | x in offers && x.client != client :: offers[x];
    }

    method DropTransfers(client: nat)
      modifies this`sources, this`offers
      ensures var t := DropClient(old(Model()), client);
        Model() == old(Model()).(sources := t.sources, offers := t.offers)
    {
      DropOffers(client);
      sources := map k | k in sources && k.client != client :: sources[k];
    }

    method DropDevices(client: nat)
      modifies this`dataDevices, this`primaryDevices, this`controlDevices
      ensures dataDevices == OthersOf(old(dataDevices), client)
      ensures primaryDevices == OthersOf(old(primaryDevices), client)
      ensures controlDevices == OthersOf(old(controlDevices), client)
    {
      dataDevices := OthersThan(dataDevices, client);
      primaryDevices := OthersThan(primaryDevices, client);
      controlDevices := OthersThan(controlDevices, client);
    }

    /** `clients.remove`, and the focus with it. */
    method ForgetClient(client: nat)
      modifies this`objects, this`nextServerId, this`icons, this`focused
      ensures var t := DropClient(old(Model()), client);
        Model() == old(Model()).(objects := t.objects, nextServerId := t.nextServerId, icons := t.icons,
          focused := t.focused)
    {
      icons := set k | k in icons && k.client != client;
      if BelongsTo(focused, client) { focused := None; }
      objects := map k | k in objects && k.client != client :: objects[k];
      nextServerId := nextServerId - {client};
    }

    method DropFromTables(client: nat)
      modifies this
      ensures Model() == DropClient(old(Model()), client)
    {
      DropTransfers(client);
      DropDevices(client);
      ForgetClient(client);
    }

    /** `remove_client_resources`, as far as it touches the data protocols, and the client with it. */
    method RemoveClient(client: nat)
      modifies this
      ensures Model() == DisconnectStep(old(Model()), client)
    {
      surfaces := set k | k in surfaces && k.client != client;
      if BelongsTo(grab, client) { grab := None; }
      LeaveDragOf(client);
      LeaveSelectionsOf(client);
      DropFromTables(client);
    }
  }
}
