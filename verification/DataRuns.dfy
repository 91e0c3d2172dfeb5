/** Every request of every run keeps what holds between the slots, the sources and the offers. */
module DataRuns {
  import opened Base
  import opened DataTransfer
  import opened DataInvariant

  // ----- Sources -----

  lemma CreateSourceInv(s: State, k: Key, interface: Interface, version: nat)
    requires Inv(s)
    ensures Inv(CreateSourceStep(s, k, interface, version))
  {
    if CanRegister(s, k) {
      CreateSourceSlots(s, k, interface, version);
      CreateSourceFits(s, k, interface, version);
      CreateSourceAgreed(s, k, interface, version);
      CreateSourceHeard(s, k, interface, version);
    }
  }

  lemma CreateSourceSlots(s: State, k: Key, interface: Interface, version: nat)
    requires CanRegister(s, k) && Named(s) && Slots(s)
    ensures var t := CreateSourceStep(s, k, interface, version); Named(t) && Slots(t)
  {
    assert k !in s.sources;
  }

  lemma CreateSourceFits(s: State, k: Key, interface: Interface, version: nat)
    requires CanRegister(s, k) && k !in s.sources && OffersFit(s) && FocusFits(s) && DragFits(s)
    ensures var t := CreateSourceStep(s, k, interface, version); OffersFit(t) && FocusFits(t) && DragFits(t)
  {
    var t := CreateSourceStep(s, k, interface, version);
    forall x | x in t.offers ensures OfferFits(t, x) { assert OfferFits(s, x); }
  }

  lemma CreateSourceAgreed(s: State, k: Key, interface: Interface, version: nat)
    requires CanRegister(s, k) && Named(s) && OffersFit(s) && MasksFit(s) && Agreed(s)
    ensures var t := CreateSourceStep(s, k, interface, version); MasksFit(t) && Agreed(t)
  {
    var t := CreateSourceStep(s, k, interface, version);
    forall x | Negotiates(t, x)
      ensures Negotiates(s, x) && t.offers[x].resolved == s.offers[x].resolved && Settled(t, x) == Settled(s, x)
    {
      assert OfferFits(s, x);
      assert VersionOf(s, x) == VersionOf(t, x);
      assert VersionOf(s, s.offers[x].source.value) == VersionOf(t, s.offers[x].source.value);
    }
    AgreedFrame(s, t);
  }

  lemma CreateSourceHeard(s: State, k: Key, interface: Interface, version: nat)
    requires CanRegister(s, k) && Named(s) && Slots(s) && OffersFit(s) && Heard(s) && DropsHeard(s)
    ensures var t := CreateSourceStep(s, k, interface, version); Heard(t) && DropsHeard(t)
  {
    var t := CreateSourceStep(s, k, interface, version);
    assert forall e :: Told(t, e) == Told(s, e);
    assert k !in s.sources;
    assert Outcomes(s, |s.births|) == 0;
    forall j | j in t.sources ensures SourceHeard(t, j) {
      if j != k { assert SourceHeard(s, j); }
    }
    forall x | DroppedNew(t, x) ensures Told(t, DropPerformed(t.sources[t.offers[x].source.value].birth)) > 0 {
      assert OfferFits(s, x);
      assert DroppedNew(s, x);
    }
  }

  /** A source's mime types and actions are its own affair, as far as slots and outcomes go. */
  ghost predicate OnlyContent(s: State, t: State, k: Key) {
    && k in s.sources && k in t.sources
    && t == s.(sources := s.sources[k := s.sources[k].(mimes := t.sources[k].mimes, actions := t.sources[k].actions)])
  }

  lemma ContentFits(s: State, t: State, k: Key)
    requires OnlyContent(s, t, k)
    requires Named(s) && Slots(s) && OffersFit(s) && FocusFits(s) && DragFits(s)
    ensures Named(t) && Slots(t) && OffersFit(t) && FocusFits(t) && DragFits(t)
  {
    assert forall j :: j in t.sources <==> j in s.sources;
    forall x | x in t.offers ensures OfferFits(t, x) { assert OfferFits(s, x); }
  }

  lemma ContentHeard(s: State, t: State, k: Key)
    requires OnlyContent(s, t, k) && Heard(s) && DropsHeard(s)
    ensures Heard(t) && DropsHeard(t)
  {
    assert forall e :: Told(t, e) == Told(s, e);
    forall j | j in t.sources ensures SourceHeard(t, j) { assert SourceHeard(s, j); }
    forall x | DroppedNew(t, x) ensures Told(t, DropPerformed(t.sources[t.offers[x].source.value].birth)) > 0 {
      assert DroppedNew(s, x);
    }
  }

  lemma OfferMimeInv(s: State, k: Key, mime: string)
    requires Inv(s)
    ensures Inv(OfferMimeStep(s, k, mime))
  {
    var t := OfferMimeStep(s, k, mime);
    if t != s {
      ContentFits(s, t, k);
      ContentHeard(s, t, k);
      LooseNegotiates(s, t);
    }
  }

  lemma SettledAgain(s: State)
    requires Sound(s)
    ensures Inv(ResolveSome(s, s.offers.Keys))
  {
    ResolveSomeAgrees(s, s.offers.Keys);
    ResolvedSound(s, ResolveSome(s, s.offers.Keys));
  }

  lemma SetSourceActionsInv(s: State, k: Key, actions: Mask)
    requires Inv(s)
    ensures Inv(SetSourceActionsStep(s, k, actions))
  {
    if k in s.sources && s.sources[k].interface.WlData? && Defined(actions) {
      var t := s.(sources := s.sources[k := s.sources[k].(actions := actions)]);
      ContentFits(s, t, k);
      ContentHeard(s, t, k);
      SettledAgain(t);
    }
  }

  /** Forgetting a source no drag holds. */
  function Forgotten(s: State, k: Key): State {
    InvalidateFrom(s, k).(
      selection := if s.selection == Some(k) then None else s.selection,
      primary := if s.primary == Some(k) then None else s.primary,
      sources := s.sources - {k},
      objects := s.objects - {k})
  }

  /** The slots a source is retired from: at most one of the three. */
  lemma RetireClears(s: State, k: Key)
    requires Slots(s) && k in s.sources
    ensures var t := if s.selection == Some(k) then ClearSelection(s) else s;
      var u := if t.primary == Some(k) then ClearPrimary(t) else t;
      && u == s.(selection := if s.selection == Some(k) then None else s.selection,
                 primary := if s.primary == Some(k) then None else s.primary)
      && (DragHolds(s, k) ==> u == s)
  {
    ClearsOnly(s);
    ClearsOnly(s.(selection := None));
  }

  lemma RetireForgets(s: State, k: Key)
    requires Slots(s) && k in s.sources
    ensures var t := Retire(s, k, false).(objects := s.objects - {k});
      t == Forgotten(if DragHolds(s, k) then CancelDrag(s) else s, k)
  {
    RetireClears(s, k);
    CancelDragLeaves(s);
  }

  lemma DestroyForgets(s: State, k: Key)
    requires Slots(s) && k in s.sources
    ensures DestroySourceStep(s, k) == Forgotten(if DragHolds(s, k) then CancelDrag(s) else s, k)
  {
    RetireForgets(s, k);
    ClearsOnly(s);
    ClearsOnly(s.(selection := None));
    assert Retire(s, k, false).objects == s.objects;
  }

  lemma ForgottenSlots(s: State, k: Key)
    requires k in s.sources && !DragHolds(s, k) && Named(s) && Slots(s) && DragFits(s)
    ensures var t := Forgotten(s, k); Named(t) && Slots(t) && DragFits(t)
  {}

  lemma ForgottenFits(s: State, k: Key)
    requires k in s.sources && !DragHolds(s, k) && OffersFit(s) && FocusFits(s)
    ensures var t := Forgotten(s, k); OffersFit(t) && FocusFits(t)
  {
    var t := Forgotten(s, k);
    forall x | x in t.offers ensures OfferFits(t, x) { assert OfferFits(s, x); }
  }

  lemma ForgottenAgreed(s: State, k: Key)
    requires k in s.sources && Named(s) && MasksFit(s) && Agreed(s)
    ensures var t := Forgotten(s, k); MasksFit(t) && Agreed(t)
  {
    var t := Forgotten(s, k);
    forall x | Negotiates(t, x)
      ensures Negotiates(s, x) && t.offers[x].resolved == s.offers[x].resolved && Settled(t, x) == Settled(s, x)
    {
      assert t.offers[x] == s.offers[x];
      assert VersionOf(s, x) == VersionOf(t, x);
      assert VersionOf(s, s.offers[x].source.value) == VersionOf(t, s.offers[x].source.value);
    }
    AgreedFrame(s, t);
  }

  lemma ForgottenHeard(s: State, k: Key)
    requires k in s.sources && Named(s) && Heard(s) && DropsHeard(s)
    ensures var t := Forgotten(s, k); Heard(t) && DropsHeard(t)
  {
    var t := Forgotten(s, k);
    assert forall e :: Told(t, e) == Told(s, e);
    forall j | j in t.sources ensures SourceHeard(t, j) { assert SourceHeard(s, j); }
    forall x | DroppedNew(t, x) ensures Told(t, DropPerformed(t.sources[t.offers[x].source.value].birth)) > 0 {
      assert DroppedNew(s, x);
    }
  }

  lemma DestroySourceInv(s: State, k: Key)
    requires Inv(s)
    ensures Inv(DestroySourceStep(s, k))
  {
    if k in s.sources {
      DestroyForgets(s, k);
      var u := if DragHolds(s, k) then CancelDrag(s) else s;
      CancelDragKeeps(s);
      ForgottenSlots(u, k);
      ForgottenFits(u, k);
      ForgottenAgreed(u, k);
      ForgottenHeard(u, k);
    }
  }

  // ----- Requests on an offer -----

  /** One offer is replaced, and nobody's outcome is told. */
  ghost predicate OnlyOffer(s: State, t: State, x: Key) {
    && x in s.offers && x in t.offers && SameTold(s, t)
    && t == s.(offers := s.offers[x := t.offers[x]], log := t.log)
  }

  /** A change to neither the kind nor the source, and to masks only as `set_actions` allows. */
  ghost predicate OnlyTerms(s: State, t: State, x: Key) {
    && OnlyOffer(s, t, x) && t.offers[x].kind == s.offers[x].kind && t.offers[x].source == s.offers[x].source
    && Defined(t.offers[x].actions) && PreferenceFits(t.offers[x].actions, t.offers[x].preferred)
  }

  lemma TermsFit(s: State, t: State, x: Key)
    requires OnlyTerms(s, t, x) && OffersFit(s) && FocusFits(s)
    ensures OffersFit(t) && FocusFits(t)
  {
    forall y | y in t.offers ensures OfferFits(t, y) { assert OfferFits(s, y); }
  }

  lemma TermsHeard(s: State, t: State, x: Key)
    requires OnlyTerms(s, t, x) && Heard(s) && DropsHeard(s)
    ensures Heard(t) && DropsHeard(t)
  {
    HeardFrame(s, t);
    DropsFrame(s, t);
  }

  lemma TermsSound(s: State, t: State, x: Key)
    requires OnlyTerms(s, t, x) && Sound(s)
    ensures Sound(t)
  {
    TermsFit(s, t, x);
    TermsHeard(s, t, x);
    assert forall j :: j in t.offers <==> j in s.offers;
  }

  lemma OfferChangedAgreed(s: State, t: State, x: Key)
    requires OnlyOffer(s, t, x) && Agreed(s)
    ensures Agreed(ResolveSome(t, {x})) && OnlyResolved(t, ResolveSome(t, {x}))
  {
    forall y | Negotiates(t, y) && y !in {x} ensures t.offers[y].resolved == Settled(t, y) {
      assert Negotiates(s, y);
      assert VersionOf(s, y) == VersionOf(t, y);
    }
    ResolveSomeAgrees(t, {x});
  }

  lemma OfferChangedInv(s: State, t: State, x: Key)
    requires Inv(s) && OnlyTerms(s, t, x)
    ensures Inv(Resolve(t, x))
  {
    TermsSound(s, t, x);
    OfferChangedAgreed(s, t, x);
    ResolveIsResolveSome(t, x);
    ResolvedSound(t, Resolve(t, x));
  }

  lemma AcceptInv(s: State, k: Key, mime: Option<string>)
    requires Inv(s)
    ensures Inv(AcceptStep(s, k, mime))
  {
    if IsWlOffer(s, k) {
      var t := s.(offers := s.offers[k := s.offers[k].(accepted := mime)],
                  log := s.log + TargetEvent(s, s.offers[k].source));
      MinorTold(s, t, TargetEvent(s, s.offers[k].source));
      OfferChangedInv(s, t, k);
    }
  }

  lemma SetOfferActionsInv(s: State, k: Key, actions: Mask, preferred: Mask)
    requires Inv(s)
    ensures Inv(SetOfferActionsStep(s, k, actions, preferred))
  {
    if IsWlOffer(s, k) && Defined(actions) && PreferenceFits(actions, preferred) {
      var t := s.(offers := s.offers[k := s.offers[k].(actions := actions, preferred := preferred)]);
      MinorTold(s, t, []);
      OfferChangedInv(s, t, k);
    }
  }

  lemma ReceiveInv(s: State, k: Key, mime: string)
    requires Inv(s)
    ensures Inv(ReceiveStep(s, k, mime))
  {
    var t := ReceiveStep(s, k, mime);
    if t != s {
      MinorTold(s, t, [SendContent(s.sources[s.offers[k].source.value].birth, mime)]);
      LogAlone(s, t);
      HeardFrame(s, t);
      DropsFrame(s, t);
    }
  }

  lemma SpentFits(s: State, k: Key)
    requires k in s.offers && s.offers[k].kind.Dropped? && OffersFit(s) && FocusFits(s)
    ensures OffersFit(Spent(s, k)) && FocusFits(Spent(s, k))
  {
    var t := Spent(s, k);
    forall y | y in t.offers ensures OfferFits(t, y) { assert OfferFits(s, y); }
  }

  lemma SpentAgreed(s: State, k: Key)
    requires k in s.offers && Agreed(s)
    ensures Agreed(Spent(s, k))
  {
    var t := Spent(s, k);
    forall x | Negotiates(t, x)
      ensures Negotiates(s, x) && t.offers[x].resolved == s.offers[x].resolved && Settled(t, x) == Settled(s, x)
    {
      assert VersionOf(s, x) == VersionOf(t, x);
    }
    AgreedFrame(s, t);
  }

  lemma SpentHeard(s: State, k: Key)
    requires k in s.offers && Heard(s) && DropsHeard(s)
    ensures Heard(Spent(s, k)) && DropsHeard(Spent(s, k))
  {
    assert SameTold(s, Spent(s, k));
    HeardFrame(s, Spent(s, k));
    DropsFrame(s, Spent(s, k));
  }

  lemma SpentInv(s: State, k: Key)
    requires Inv(s) && k in s.offers && s.offers[k].kind.Dropped?
    ensures Inv(Spent(s, k))
  {
    SpentFits(s, k);
    SpentAgreed(s, k);
    SpentHeard(s, k);
    assert forall j :: j in Spent(s, k).offers <==> j in s.offers;
  }

  /** Saying that a transfer is done, of a source that has heard of the drop. */
  lemma FinishedTold(s: State, t: State, birth: nat)
    requires t == s.(log := s.log + [Finished(birth)]) && Told(s, DropPerformed(birth)) > 0 && DropsHeard(s)
    ensures DropsHeard(t)
    ensures forall e :: Told(t, e) == Told(s, e) + (if e == Finished(birth) then 1 else 0)
  {
    assert forall e :: Told(t, e) == Told(s, e) + (if e == Finished(birth) then 1 else 0);
    forall x | DroppedNew(t, x) ensures Told(t, DropPerformed(t.sources[t.offers[x].source.value].birth)) > 0 {
      assert DroppedNew(s, x);
    }
  }

  lemma FinishedHeard(s: State, t: State, birth: nat)
    requires t == s.(log := t.log) && Heard(s) && birth < |s.births|
    requires forall e :: Told(t, e) == Told(s, e) + (if e == Finished(birth) then 1 else 0)
    ensures Heard(t)
  {
    assert forall j :: j in s.sources ==> SourceHeard(s, j);
    assert forall j :: j in s.sources ==> SourceHeard(t, j);
  }

  lemma FinishInv(s: State, k: Key)
    requires Inv(s)
    ensures Inv(FinishStep(s, k))
  {
    if IsWlOffer(s, k) && s.offers[k].kind.Dropped? {
      SpentInv(s, k);
      var source := s.offers[k].source;
      if source.Some? && source.value in s.sources && VersionOf(s, source.value) >= ACTIONS_SINCE {
        assert DroppedNew(s, k);
        FinishedTold(Spent(s, k), FinishStep(s, k), s.sources[source.value].birth);
        FinishedHeard(Spent(s, k), FinishStep(s, k), s.sources[source.value].birth);
        LogAlone(Spent(s, k), FinishStep(s, k));
      } else {
        assert FinishStep(s, k) == Spent(s, k);
      }
    }
  }

  // ----- Everything else -----

  /** Focus, devices, grabs and surfaces come and go, and no source or offer with them. */
  ghost predicate Aside(s: State, t: State) {
    && t == s.(objects := t.objects, nextServerId := t.nextServerId, dataDevices := t.dataDevices,
               primaryDevices := t.primaryDevices, controlDevices := t.controlDevices, focused := t.focused,
               icons := t.icons, surfaces := t.surfaces, grab := t.grab)
    && (forall k :: k in s.sources || k in s.offers ==> VersionOf(t, k) == VersionOf(s, k))
    && (forall x :: x in s.offers ==> (IsWlOffer(t, x) <==> IsWlOffer(s, x)))
  }

  lemma AsideSettles(s: State, t: State)
    requires Aside(s, t)
    ensures Agreed(s) ==> Agreed(t)
    ensures DropsHeard(s) ==> DropsHeard(t)
  {
    assert SameTold(s, t);
    if Agreed(s) { AgreedFrame(s, t); }
    if DropsHeard(s) { DropsFrame(s, t); }
  }

  lemma AsideKeeps(s: State, t: State)
    requires Inv(s) && Aside(s, t) && Named(t) && DragFits(t)
    ensures Inv(t)
  {
    AsideSettles(s, t);
    assert SameTold(s, t);
    HeardFrame(s, t);
    forall x | x in t.offers ensures OfferFits(t, x) { assert OfferFits(s, x); }
  }

  lemma RegisterKeeps(s: State, t: State, k: Key)
    requires Inv(s) && CanRegister(s, k) && Aside(s, t)
    requires t.nextServerId == s.nextServerId && t.surfaces == s.surfaces && t.grab == s.grab
    requires k in t.objects && t.objects == s.objects[k := t.objects[k]] && t.objects[k].kind.DeviceObject?
    ensures Inv(t)
  {
    assert forall j :: j in t.objects <==> j == k || j in s.objects;
    AsideKeeps(s, t);
  }

  lemma GetDataDeviceInv(s: State, k: Key, version: nat)
    requires Inv(s) && CanRegister(s, k)
    ensures Inv(GetDeviceStep(s, k, WlData, version))
  {
    var t := Register(s, k, DeviceObject(WlData), version).(dataDevices := s.dataDevices + [k]);
    RegisterKeeps(s, t, k);
    OfferToKeeps(t, k, t.selection, WlData, 0);
  }

  lemma GetPrimaryDeviceInv(s: State, k: Key, version: nat)
    requires Inv(s) && CanRegister(s, k)
    ensures Inv(GetDeviceStep(s, k, PrimarySelection, version))
  {
    var t := Register(s, k, DeviceObject(PrimarySelection), 1).(primaryDevices := s.primaryDevices + [k]);
    RegisterKeeps(s, t, k);
    OfferToKeeps(t, k, t.primary, PrimarySelection, 0);
  }

  lemma ControlOffersKeep(s: State, k: Key)
    requires Inv(s)
    ensures Inv(OfferTo(OfferTo(s, k, s.selection, DataControl, 0), k, s.primary, DataControl, PRIMARY_SINCE))
  {
    OfferToKeeps(s, k, s.selection, DataControl, 0);
    OfferToKeeps(OfferTo(s, k, s.selection, DataControl, 0), k, s.primary, DataControl, PRIMARY_SINCE);
  }

  lemma GetControlDeviceInv(s: State, k: Key, version: nat)
    requires Inv(s) && CanRegister(s, k)
    ensures Inv(GetDeviceStep(s, k, DataControl, version))
  {
    var t := Register(s, k, DeviceObject(DataControl), version).(controlDevices := s.controlDevices + [k]);
    RegisterKeeps(s, t, k);
    ControlOffersKeep(t, k);
  }

  lemma GetDeviceInv(s: State, k: Key, interface: Interface, version: nat)
    requires Inv(s)
    ensures Inv(GetDeviceStep(s, k, interface, version))
  {
    if CanRegister(s, k) {
      match interface
      case WlData => GetDataDeviceInv(s, k, version);
      case PrimarySelection => GetPrimaryDeviceInv(s, k, version);
      case DataControl => GetControlDeviceInv(s, k, version);
    }
  }

  lemma ReleaseDeviceInv(s: State, k: Key)
    requires Inv(s)
    ensures Inv(ReleaseDeviceStep(s, k))
  {
    if IsDevice(s, k) { AsideKeeps(s, ReleaseDeviceStep(s, k)); }
  }

  lemma FocusInv(s: State, surface: Option<Key>)
    requires Inv(s)
    ensures Inv(FocusStep(s, surface))
  {
    var t := s.(focused := surface);
    AsideKeeps(s, t);
    if surface.Some? {
      OfferToAllKeeps(t, DevicesOf(t.dataDevices, surface.value.client), t.selection, WlData, 0);
      var u := OfferToAll(t, DevicesOf(t.dataDevices, surface.value.client), t.selection, WlData, 0);
      OfferToAllKeeps(u, DevicesOf(t.primaryDevices, surface.value.client), t.primary, PrimarySelection, 0);
    }
  }

  lemma BeginKeeps(s: State, drag: DragState)
    requires Inv(s) && s.drag.None? && s.grab.None? && drag.focus.None? && drag.focusOffers == []
    requires drag.origin in s.surfaces && drag.origin.client == drag.originClient
    requires drag.icon.Some? ==> drag.icon.value in s.surfaces && drag.icon.value.client == drag.originClient
    requires drag.source.Some? ==>
      HoldsDrag(s, drag.source.value) && drag.source.value.client == drag.originClient && Unheld(s, drag.source.value)
    ensures Inv(Begin(s, drag))
  {
    BeginFits(s, drag);
    BeginHeard(s, drag);
    LooseNegotiates(s, Begin(s, drag));
  }

  /** A drag source that no drop has used yet. */
  ghost predicate Unheld(s: State, k: Key)
    requires k in s.sources
  {
    && (forall x :: x in s.offers ==> s.offers[x].source != Some(k))
    && Told(s, DropPerformed(s.sources[k].birth)) == 0
  }

  lemma BeginFits(s: State, drag: DragState)
    requires OffersFit(s) && s.drag.None?
    requires drag.source.Some? ==> forall x :: x in s.offers ==> s.offers[x].source != drag.source
    ensures OffersFit(Begin(s, drag))
  {
    var t := Begin(s, drag);
    forall x | x in t.offers ensures OfferFits(t, x) { assert OfferFits(s, x); }
  }

  lemma BeginHeard(s: State, drag: DragState)
    requires Heard(s) && DropsHeard(s) && s.drag.None?
    requires drag.source.Some? ==>
      drag.source.value in s.sources && Told(s, DropPerformed(s.sources[drag.source.value].birth)) == 0
    ensures Heard(Begin(s, drag)) && DropsHeard(Begin(s, drag))
  {
    var t := Begin(s, drag);
    assert SameTold(s, t);
    assert forall j :: j in s.sources ==> SourceHeard(s, j);
    DropsFrame(s, t);
  }

  /** An unused source has been offered nowhere. */
  lemma UnusedUnheld(s: State, k: Key)
    requires Slots(s) && OffersFit(s) && FocusFits(s) && Heard(s) && k in s.sources
    requires s.sources[k].role.Unused? && s.sources[k].interface.WlData?
    ensures Unheld(s, k)
  {
    assert SourceHeard(s, k);
    forall x | x in s.offers ensures s.offers[x].source != Some(k) { assert OfferFits(s, x); }
  }

  lemma StartDragInv(s: State, client: nat, source: nat, origin: nat, icon: nat, pressed: bool, iconFree: bool)
    requires Inv(s)
    ensures Inv(StartDragStep(s, client, source, origin, icon, pressed, iconFree))
  {
    var on := Key(client, origin);
    var drawn := if icon == 0 then None else Some(Key(client, icon));
    var t := if drawn.Some? then s.(icons := s.icons + {drawn.value}) else s;
    AsideKeeps(s, t);
    if s.grab.Some? || s.drag.Some? || !pressed || on !in s.surfaces {
    } else if drawn.Some? && (drawn.value !in s.surfaces || drawn.value in s.icons || !iconFree) {
    } else if source == 0 {
      BeginKeeps(t, DragState(None, client, on, drawn, None, []));
    } else if Claimable(t, Key(client, source)) {
      UnusedUnheld(t, Key(client, source));
      ClaimKeeps(t, Key(client, source), ForDrag);
      BeginKeeps(Claim(t, Key(client, source), ForDrag),
        DragState(Some(Key(client, source)), client, on, drawn, None, []));
    }
  }

  // ----- Destroying an offer or a surface -----

  lemma DestroyOfferFits(s: State, k: Key)
    requires k in s.offers && OffersFit(s) && FocusFits(s)
    ensures var t := DestroyOfferStep(s, k); OffersFit(t) && FocusFits(t)
  {
    var t := DestroyOfferStep(s, k);
    if s.drag.Some? { WithoutDistinct(s.drag.value.focusOffers, k); }
    forall x | x in t.offers ensures OfferFits(t, x) { assert OfferFits(s, x); }
  }

  lemma DestroyOfferSlots(s: State, k: Key)
    requires k in s.offers && Named(s) && Slots(s) && DragFits(s) && MasksFit(s)
    ensures var t := DestroyOfferStep(s, k); Named(t) && Slots(t) && DragFits(t) && MasksFit(t)
  {}

  lemma DestroyOfferAgreed(s: State, k: Key)
    requires k in s.offers && Named(s) && OffersFit(s) && Agreed(s)
    ensures Agreed(DestroyOfferStep(s, k))
  {
    var t := DestroyOfferStep(s, k);
    assert k !in s.sources;
    forall x | Negotiates(t, x)
      ensures Negotiates(s, x) && t.offers[x].resolved == s.offers[x].resolved && Settled(t, x) == Settled(s, x)
    {
      assert VersionOf(s, x) == VersionOf(t, x);
      assert VersionOf(s, s.offers[x].source.value) == VersionOf(t, s.offers[x].source.value);
    }
    AgreedFrame(s, t);
  }

  lemma DestroyOfferHeard(s: State, k: Key)
    requires k in s.offers && Named(s) && Heard(s) && DropsHeard(s)
    ensures Heard(DestroyOfferStep(s, k)) && DropsHeard(DestroyOfferStep(s, k))
  {
    var t := DestroyOfferStep(s, k);
    assert SameTold(s, t);
    HeardFrame(s, t);
    assert k !in s.sources;
    DropsFrame(s, t);
  }

  lemma DestroyOfferInv(s: State, k: Key)
    requires Inv(s)
    ensures Inv(DestroyOfferStep(s, k))
  {
    if k in s.offers {
      DestroyOfferFits(s, k);
      DestroyOfferSlots(s, k);
      DestroyOfferAgreed(s, k);
      DestroyOfferHeard(s, k);
    }
  }

  /** Dropping the icon, and any surface no drag starts from or is over. */
  lemma SurfaceGone(s: State, t: State, k: Key)
    requires Inv(s) && s.drag.Some? && s.drag.value.origin != k && s.drag.value.focus != Some(k)
    requires t == s.(surfaces := s.surfaces - {k}, icons := t.icons, focused := t.focused, drag := t.drag)
    requires t.drag == Some(s.drag.value.(icon := if s.drag.value.icon == Some(k) then None else s.drag.value.icon))
    ensures Inv(t)
  {
    LooseNegotiates(s, t);
    assert SameTold(s, t);
    HeardFrame(s, t);
    DropsFrame(s, t);
    forall x | x in t.offers ensures OfferFits(t, x) { assert OfferFits(s, x); }
  }

  /** A surface's going bears on drags only where it is the origin, the icon or the focus. */
  function SurfaceDropped(s: State, k: Key): State {
    s.(surfaces := s.surfaces - {k}, icons := s.icons - {k},
       focused := if s.focused == Some(k) then None else s.focused)
  }

  function IconDropped(s: State, k: Key): State
    requires s.drag.Some?
  {
    s.(drag := Some(s.drag.value.(icon := if s.drag.value.icon == Some(k) then None else s.drag.value.icon)))
  }

  lemma OriginDropped(s: State, k: Key)
    requires k in s.surfaces && s.drag.Some? && s.drag.value.origin == k
    ensures DestroySurfaceStep(s, k) == SurfaceDropped(CancelDrag(s), k)
  {}

  lemma OriginGoneInv(s: State, k: Key)
    requires Inv(s) && k in s.surfaces && s.drag.Some? && s.drag.value.origin == k
    ensures Inv(DestroySurfaceStep(s, k))
  {
    CancelDragKeeps(s);
    OriginDropped(s, k);
    AsideKeeps(CancelDrag(s), SurfaceDropped(CancelDrag(s), k));
  }

  lemma FocusGone(s: State, k: Key)
    requires k in s.surfaces && s.drag.Some? && s.drag.value.origin != k && s.drag.value.focus == Some(k)
    ensures EndDragFocus(s).drag.Some?
    ensures DestroySurfaceStep(s, k) == SurfaceDropped(IconDropped(EndDragFocus(s), k), k)
  {
    var u := IconDropped(SurfaceDropped(s, k), k);
    assert DestroySurfaceStep(s, k) == EndDragFocus(u);
    assert TargetEvents(u, s.drag.value.focusOffers) == TargetEvents(s, s.drag.value.focusOffers) by {
      TargetEventsFrame(s, u, s.drag.value.focusOffers);
    }
  }

  lemma {:induction false} TargetEventsFrame(s: State, t: State, list: seq<Key>)
    requires t.offers == s.offers && t.sources == s.sources
    ensures TargetEvents(t, list) == TargetEvents(s, list)
  {
    if list != [] { TargetEventsFrame(s, t, list[1..]); }
  }

  lemma DestroySurfaceInv(s: State, k: Key)
    requires Inv(s)
    ensures Inv(DestroySurfaceStep(s, k))
  {
    var t := DestroySurfaceStep(s, k);
    if k in s.surfaces {
      if s.drag.None? {
        AsideKeeps(s, t);
      } else if s.drag.value.origin == k {
        OriginGoneInv(s, k);
      } else if s.drag.value.focus == Some(k) {
        EndFocusKeeps(s);
        FocusGone(s, k);
        SurfaceGone(EndDragFocus(s), t, k);
      } else {
        SurfaceGone(s, t, k);
      }
    }
  }

  // ----- A client leaving -----

  /** A client of no drag source taken out of slots, grabs, surfaces and focus. */
  function Detached(s: State, client: nat): State {
    s.(surfaces := (set k | k in s.surfaces && k.client != client),
       grab := if BelongsTo(s.grab, client) then None else s.grab,
       drag := if s.drag.Some? && BelongsTo(s.drag.value.focus, client)
               then Some(s.drag.value.(focus := None, focusOffers := [])) else s.drag,
       selection := if BelongsTo(s.selection, client) then None else s.selection,
       primary := if BelongsTo(s.primary, client) then None else s.primary)
  }

  function Departed(s: State, client: nat): State { DropClient(Detached(s, client), client) }

  ghost predicate Leaves(s: State, client: nat) { s.drag.Some? && s.drag.value.originClient == client }

  lemma SelectionsLeave(s: State, client: nat)
    ensures LeaveSelections(s, client) ==
      s.(selection := if BelongsTo(s.selection, client) then None else s.selection,
         primary := if BelongsTo(s.primary, client) then None else s.primary)
  {
    ClearsOnly(s);
    ClearsOnly(s.(selection := None));
  }

  /** Cancelling a drag neither reads nor alters surfaces and grabs. */
  lemma CancelDragAside(s: State, t: State)
    requires t == s.(surfaces := t.surfaces, grab := t.grab)
    ensures CancelDrag(t) == CancelDrag(s).(surfaces := t.surfaces, grab := t.grab)
  {}

  lemma DragLeaves(s: State, t: State, client: nat)
    requires t == s.(surfaces := t.surfaces, grab := t.grab)
    ensures var u := if Leaves(s, client) then CancelDrag(s) else s;
      LeaveDrag(t, client) == u.(surfaces := t.surfaces, grab := t.grab,
        drag := if u.drag.Some? && BelongsTo(u.drag.value.focus, client)
                then Some(u.drag.value.(focus := None, focusOffers := [])) else u.drag)
  {
    CancelDragAside(s, t);
    CancelDragLeaves(s);
  }

  lemma DisconnectDetaches(s: State, t: State, client: nat)
    requires t == s.(surfaces := (set k | k in s.surfaces && k.client != client),
                     grab := if BelongsTo(s.grab, client) then None else s.grab)
    ensures LeaveSelections(LeaveDrag(t, client), client)
      == Detached(if Leaves(s, client) then CancelDrag(s) else s, client)
  {
    CancelDragLeaves(s);
    DragLeaves(s, t, client);
    SelectionsLeave(LeaveDrag(t, client), client);
  }

  lemma DisconnectDeparts(s: State, client: nat)
    ensures DisconnectStep(s, client) == Departed(if Leaves(s, client) then CancelDrag(s) else s, client)
  {
    var t := s.(surfaces := (set k | k in s.surfaces && k.client != client),
                grab := if BelongsTo(s.grab, client) then None else s.grab);
    DisconnectDetaches(s, t, client);
  }

  lemma DepartedNamed(s: State, client: nat)
    requires Named(s)
    ensures Named(Departed(s, client))
  {}

  lemma DepartedSlots(s: State, client: nat)
    requires Slots(s) && DragFits(s) && !Leaves(s, client)
    ensures Slots(Departed(s, client)) && DragFits(Departed(s, client))
  {}

  lemma DepartedFits(s: State, client: nat)
    requires Slots(s) && OffersFit(s) && FocusFits(s) && !Leaves(s, client)
    ensures OffersFit(Departed(s, client)) && FocusFits(Departed(s, client))
  {
    var t := Departed(s, client);
    forall x | x in t.offers ensures OfferFits(t, x) { assert OfferFits(s, x); }
  }

  lemma DepartedAgreed(s: State, client: nat)
    requires MasksFit(s) && Agreed(s)
    ensures MasksFit(Departed(s, client)) && Agreed(Departed(s, client))
  {
    var t := Departed(s, client);
    forall x | Negotiates(t, x)
      ensures Negotiates(s, x) && t.offers[x].resolved == s.offers[x].resolved && Settled(t, x) == Settled(s, x)
    {
      assert t.offers[x] == s.offers[x];
      assert VersionOf(s, x) == VersionOf(t, x);
      assert VersionOf(s, s.offers[x].source.value) == VersionOf(t, s.offers[x].source.value);
    }
    AgreedFrame(s, t);
  }

  lemma DepartedHeard(s: State, client: nat)
    requires Heard(s) && DropsHeard(s)
    ensures Heard(Departed(s, client)) && DropsHeard(Departed(s, client))
  {
    var t := Departed(s, client);
    assert forall e :: Told(t, e) == Told(s, e);
    forall j | j in t.sources ensures SourceHeard(t, j) { assert SourceHeard(s, j); }
    forall x | DroppedNew(t, x) ensures Told(t, DropPerformed(t.sources[t.offers[x].source.value].birth)) > 0 {
      assert DroppedNew(s, x);
    }
  }

  lemma DisconnectInv(s: State, client: nat)
    requires Inv(s)
    ensures Inv(DisconnectStep(s, client))
  {
    DisconnectDeparts(s, client);
    CancelDragKeeps(s);
    var u := if Leaves(s, client) then CancelDrag(s) else s;
    DepartedNamed(u, client);
    DepartedSlots(u, client);
    DepartedFits(u, client);
    DepartedAgreed(u, client);
    DepartedHeard(u, client);
  }

  // ----- Every request of every run -----

  lemma ConnectInv(s: State, client: nat)
    requires Inv(s) && client !in s.nextServerId
    ensures Inv(s.(nextServerId := s.nextServerId[client := SERVER_ID_BASE]))
  {
    AsideKeeps(s, s.(nextServerId := s.nextServerId[client := SERVER_ID_BASE]));
  }

  lemma SeatInv(s: State, r: Request)
    requires Inv(s) && Enabled(s, r)
    requires r.ReleaseButton? || r.EscapeDrag? || r.StartGrab? || r.EndGrab? || r.CreateSurface?
    ensures Inv(Step(s, r))
  {
    if r.EscapeDrag? {
      CancelDragKeeps(s);
    } else if r.ReleaseButton? && s.grab.None? {
      FinishDragInv(s);
    } else {
      SeatAside(s, r);
      AsideKeeps(s, Step(s, r));
    }
  }

  lemma SeatAside(s: State, r: Request)
    requires Named(s) && DragFits(s) && Enabled(s, r)
    requires (r.ReleaseButton? && s.grab.Some?) || r.StartGrab? || r.EndGrab? || r.CreateSurface?
    ensures Aside(s, Step(s, r)) && Named(Step(s, r)) && DragFits(Step(s, r))
  {}

  /** Requests of a source's or a device's owner. */
  predicate OfOwner(r: Request) {
    r.CreateSource? || r.OfferMime? || r.SetSourceActions? || r.DestroySource? || r.StartDrag?
    || r.SetClipboard? || r.SetPrimarySelection? || r.ControlSetSelection?
  }

  lemma OwnerInv(s: State, r: Request)
    requires Inv(s) && Enabled(s, r) && OfOwner(r)
    ensures Inv(Step(s, r))
  {
    if r.CreateSource? { CreateSourceInv(s, r.k, r.interface, r.version); }
    else if r.OfferMime? { OfferMimeInv(s, r.k, r.mime); }
    else if r.SetSourceActions? { SetSourceActionsInv(s, r.k, r.actions); }
    else if r.DestroySource? { DestroySourceInv(s, r.k); }
    else if r.StartDrag? { StartDragInv(s, r.client, r.source, r.origin, r.icon, r.pressed, r.iconFree); }
    else if r.SetClipboard? { SetClipboardInv(s, r.client, r.source, r.recent); }
    else if r.SetPrimarySelection? { SetPrimaryInv(s, r.client, r.source, r.recent); }
    else { ControlSetInv(s, r.client, r.source, r.onPrimary); }
  }

  /** Requests of an offer's owner. */
  predicate OfTarget(r: Request) { r.Accept? || r.Receive? || r.Finish? || r.SetOfferActions? || r.DestroyOffer? }

  lemma TargetInv(s: State, r: Request)
    requires Inv(s) && Enabled(s, r) && OfTarget(r)
    ensures Inv(Step(s, r))
  {
    if r.Accept? { AcceptInv(s, r.k, r.accepted); }
    else if r.Receive? { ReceiveInv(s, r.k, r.mime); }
    else if r.Finish? { FinishInv(s, r.k); }
    else if r.SetOfferActions? { SetOfferActionsInv(s, r.k, r.actions, r.preferred); }
    else { DestroyOfferInv(s, r.k); }
  }

  lemma StepKeepsInv(s: State, r: Request)
    requires Inv(s) && Enabled(s, r)
    ensures Inv(Step(s, r))
  {
    if OfOwner(r) { OwnerInv(s, r); }
    else if OfTarget(r) { TargetInv(s, r); }
    else if r.Connect? { ConnectInv(s, r.client); }
    else if r.GetDevice? { GetDeviceInv(s, r.k, r.interface, r.version); }
    else if r.ReleaseDevice? { ReleaseDeviceInv(s, r.k); }
    else if r.Focus? { FocusInv(s, r.surface); }
    else if r.MovePointer? { MovePointerInv(s, r.hit); }
    else if r.DestroySurface? { DestroySurfaceInv(s, r.k); }
    else if r.Disconnect? { DisconnectInv(s, r.client); }
    else { SeatInv(s, r); }
  }

  lemma {:induction false} RunKeepsInv(s: State, requests: seq<Request>, t: State)
    requires Inv(s) && Runs(s, requests, t)
    ensures Inv(t)
    decreases |requests|
  {
    if requests != [] {
      StepKeepsInv(s, requests[0]);
      RunKeepsInv(Step(s, requests[0]), requests[1..], t);
    }
  }

  lemma EveryRunIsSound(requests: seq<Request>, t: State)
    requires Runs(INITIAL, requests, t)
    ensures Inv(t)
  {
    RunKeepsInv(INITIAL, requests, t);
  }
}
