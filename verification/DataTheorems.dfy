/** What a client can rely on over a whole run of copying, pasting and dragging. */
module DataTheorems {
  import opened Base
  import opened DataTransfer
  import opened DataInvariant
  import opened DataRuns

  // ----- How sources get on -----

  /** The same source later: its one use taken at most once, and never un-cancelled. */
  predicate Grows(a: Source, b: Source) {
    && b.birth == a.birth && b.interface == a.interface
    && (b.role == a.role || a.role.Unused?) && (a.cancelled ==> b.cancelled)
  }

  /** No source is new, and each that is left is the one it was. */
  ghost predicate Lineage(s: State, t: State) {
    && t.births == s.births
    && (forall k :: k in t.sources ==> k in s.sources && Grows(s.sources[k], t.sources[k]))
  }

  lemma LineageTransitive(s: State, t: State, u: State)
    requires Lineage(s, t) && Lineage(t, u)
    ensures Lineage(s, u)
  {}

  lemma AnnouncedLineage(s: State, t: State)
    requires OnlyMoreOffers(s, t)
    ensures Lineage(s, t)
  {}

  lemma CancelLineage(s: State, k: Key)
    ensures Lineage(s, Cancel(s, k))
  {}

  /** Whether a source may take a slot it does not hold: unused, or a primary source. */
  ghost predicate MayEnter(s: State, k: Key) {
    k in s.sources && (s.sources[k].role.Unused? || s.sources[k].interface.PrimarySelection?)
  }

  ghost predicate Entries(s: State, t: State) {
    forall k :: InSlot(t, k) ==> InSlot(s, k) || MayEnter(s, k)
  }

  /** Nobody hears of a drop. */
  ghost predicate NoDrop(s: State, t: State) {
    forall b: nat :: Told(t, DropPerformed(b)) == Told(s, DropPerformed(b))
  }

  ghost predicate Evolves(s: State, t: State) { Lineage(s, t) && Entries(s, t) && NoDrop(s, t) }

  ghost predicate KeepsDrag(s: State,
                            t: State) { t.drag.Some? && s.drag.Some? && t.drag.value.source == s.drag.value.source }

  lemma DisplaceLineage(s: State, t: State, held: Option<Key>, source: Option<Key>)
    requires t.sources == Displace(s, held, source).sources && t.births == s.births
    ensures Lineage(s, t)
  {
    if held.Some? && held != source {
      CancelLineage(s, held.value);
      assert t.sources == Cancel(s, held.value).sources;
    }
  }

  lemma DisplaceNoDrop(s: State, held: Option<Key>, source: Option<Key>)
    ensures NoDrop(s, Displace(s, held, source))
  {
    if held.Some? && held != source && held.value in s.sources {
      CancelTold(s, held.value);
      assert Displace(s, held, source).log == Cancel(s, held.value).log;
    }
  }

  lemma SetSelectionEvolves(s: State, source: Option<Key>)
    requires Inv(s) && (source.Some? ==> HoldsSelection(s, source.value) && !InSlot(s, source.value))
    ensures Lineage(s, SetSelection(s, source)) && NoDrop(s, SetSelection(s, source))
    ensures SetSelection(s, source).drag == s.drag
    ensures forall k :: InSlot(SetSelection(s, source), k) ==> InSlot(s, k) || Some(k) == source
  {
    var u := Replaced(s, source);
    DisplaceLineage(s, u, s.selection, source);
    DisplaceNoDrop(s, s.selection, source);
    ReplaceKeeps(s, source);
    AnnounceSelectionKeeps(u);
    AnnouncedLineage(u, SetSelection(s, source));
    LineageTransitive(s, u, SetSelection(s, source));
  }

  lemma SetPrimaryEvolves(s: State, source: Option<Key>)
    requires Inv(s) && (source.Some? ==> HoldsPrimary(s, source.value) && source != s.selection)
    ensures Lineage(s, SetPrimary(s, source)) && NoDrop(s, SetPrimary(s, source))
    ensures SetPrimary(s, source).drag == s.drag
    ensures forall k :: InSlot(SetPrimary(s, source), k) ==> InSlot(s, k) || Some(k) == source
  {
    var u := ReplacedPrimary(s, source);
    DisplaceLineage(s, u, s.primary, source);
    DisplaceNoDrop(s, s.primary, source);
    ReplacePrimaryKeeps(s, source);
    AnnouncePrimaryKeeps(u);
    AnnouncedLineage(u, SetPrimary(s, source));
    LineageTransitive(s, u, SetPrimary(s, source));
  }

  lemma ClaimLineage(s: State, k: Key, role: Role)
    requires k in s.sources && s.sources[k].role.Unused?
    ensures Lineage(s, Claim(s, k, role))
  {}

  lemma ClaimedEvolves(s: State, k: Key, u: State)
    requires k in s.sources && s.sources[k].role.Unused?
    requires var t := Claim(s, k, ForSelection);
      Lineage(t, u) && NoDrop(t, u) && forall j :: InSlot(u, j) ==> InSlot(t, j) || j == k
    ensures Evolves(s, u)
  {
    ClaimLineage(s, k, ForSelection);
    LineageTransitive(s, Claim(s, k, ForSelection), u);
  }

  lemma ClaimAndSet(s: State, k: Key)
    requires Inv(s) && k in s.sources && s.sources[k].role.Unused? && !s.sources[k].interface.PrimarySelection?
    ensures Evolves(s, SetSelection(Claim(s, k, ForSelection), Some(k)))
  {
    ClaimKeeps(s, k, ForSelection);
    SetSelectionEvolves(Claim(s, k, ForSelection), Some(k));
    ClaimedEvolves(s, k, SetSelection(Claim(s, k, ForSelection), Some(k)));
  }

  lemma ClaimAndSetPrimary(s: State, k: Key)
    requires Inv(s) && k in s.sources && s.sources[k].role.Unused? && s.sources[k].interface.DataControl?
    ensures Evolves(s, SetPrimary(Claim(s, k, ForSelection), Some(k)))
  {
    ClaimKeeps(s, k, ForSelection);
    SetPrimaryEvolves(Claim(s, k, ForSelection), Some(k));
    ClaimedEvolves(s, k, SetPrimary(Claim(s, k, ForSelection), Some(k)));
  }

  lemma SetClipboardEvolves(s: State, client: nat, source: nat, recent: bool)
    requires Inv(s)
    ensures Evolves(s, SetClipboardStep(s, client, source, recent))
  {
    if source == 0 { SetSelectionEvolves(s, None); }
    else if Claimable(s, Key(client, source)) { ClaimAndSet(s, Key(client, source)); }
  }

  lemma SetPrimaryStepEvolves(s: State, client: nat, source: nat, recent: bool)
    requires Inv(s)
    ensures Evolves(s, SetPrimaryStep(s, client, source, recent))
  {
    var k := Key(client, source);
    if source == 0 { SetPrimaryEvolves(s, None); }
    else if k in s.sources && s.sources[k].interface.PrimarySelection? { SetPrimaryEvolves(s, Some(k)); }
  }

  lemma ControlSetEvolves(s: State, client: nat, source: nat, onPrimary: bool)
    requires Inv(s)
    ensures Evolves(s, ControlSetStep(s, client, source, onPrimary))
  {
    var k := Key(client, source);
    if source == 0 {
      if onPrimary { SetPrimaryEvolves(s, None); } else { SetSelectionEvolves(s, None); }
    } else if k in s.sources && s.sources[k].interface.DataControl? && s.sources[k].role.Unused? {
      if onPrimary { ClaimAndSetPrimary(s, k); } else { ClaimAndSet(s, k); }
    }
  }

  // ----- Requests that leave slots to those who hold them -----

  /** Sources as they were, filled in or cancelled, and no slot newly held. */
  ghost predicate Settles(s: State, t: State) {
    Lineage(s, t) && NoDrop(s, t) && (forall k :: InSlot(t, k) ==> InSlot(s, k))
  }

  lemma SettlesEvolves(s: State, t: State)
    requires Settles(s, t)
    ensures Evolves(s, t)
  {}

  lemma SameLogNoDrop(s: State, t: State)
    requires t.log == s.log
    ensures NoDrop(s, t)
  {
    assert forall e :: Told(t, e) == Told(s, e);
  }

  /** A source made under an id free until now, and nothing else. */
  lemma CreateSourceAdds(s: State, k: Key, interface: Interface, version: nat)
    requires Named(s)
    ensures var t := CreateSourceStep(s, k, interface, version);
      && t.log == s.log && t.selection == s.selection && t.primary == s.primary && t.drag == s.drag
      && (forall j :: j in s.sources ==> j in t.sources && t.sources[j] == s.sources[j])
      && (forall j :: j in t.sources && j !in s.sources ==> t.sources[j].birth == |s.births|)
      && |t.births| >= |s.births| && (forall b: nat :: b < |s.births| ==> t.births[b] == s.births[b])
  {}

  lemma OfferMimeSettles(s: State, k: Key, mime: string)
    ensures Settles(s, OfferMimeStep(s, k, mime))
  {
    SameLogNoDrop(s, OfferMimeStep(s, k, mime));
  }

  lemma SetSourceActionsSettles(s: State, k: Key, actions: Mask)
    ensures Settles(s, SetSourceActionsStep(s, k, actions))
  {
    SameLogNoDrop(s, SetSourceActionsStep(s, k, actions));
  }

  lemma CancelDragSettles(s: State)
    ensures Settles(s, CancelDrag(s)) && CancelDrag(s).drag.None?
  {
    if s.drag.Some? && s.drag.value.source.Some? && s.drag.value.source.value in s.sources {
      CancelTold(s, s.drag.value.source.value);
      assert CancelDrag(s).log == Cancel(s, s.drag.value.source.value).log;
      SameLogNoDrop(Cancel(s, s.drag.value.source.value), CancelDrag(s));
    } else {
      SameLogNoDrop(s, CancelDrag(s));
    }
  }

  lemma SettlesTransitive(s: State, t: State, u: State)
    requires Settles(s, t) && Settles(t, u)
    ensures Settles(s, u)
  {}

  lemma ForgottenSettles(s: State, k: Key)
    ensures Settles(s, Forgotten(s, k))
  {
    SameLogNoDrop(s, Forgotten(s, k));
  }

  lemma DestroySourceSettles(s: State, k: Key)
    requires Slots(s)
    ensures Settles(s, DestroySourceStep(s, k))
  {
    if k !in s.sources {
      SameLogNoDrop(s, s);
    } else {
      DestroyForgets(s, k);
      if DragHolds(s, k) {
        CancelDragSettles(s);
        ForgottenSettles(CancelDrag(s), k);
        SettlesTransitive(s, CancelDrag(s), Forgotten(CancelDrag(s), k));
      } else {
        ForgottenSettles(s, k);
      }
    }
  }

  /** Everything sources and slots say is as it was. */
  ghost predicate SameSlots(s: State, t: State) {
    t.sources == s.sources && t.births == s.births && t.selection == s.selection && t.primary == s.primary
      && t.drag == s.drag
  }

  lemma GetDeviceSame(s: State, k: Key, interface: Interface, version: nat)
    ensures var t := GetDeviceStep(s, k, interface, version); SameSlots(s, t) && t.log == s.log
  {}

  lemma FocusSame(s: State, surface: Option<Key>)
    ensures var t := FocusStep(s, surface); SameSlots(s, t) && t.log == s.log
  {
    if surface.Some? && surface != s.focused {
      var t := s.(focused := surface);
      OfferToAllAdds(t, DevicesOf(t.dataDevices, surface.value.client), t.selection, WlData, 0);
      var u := OfferToAll(t, DevicesOf(t.dataDevices, surface.value.client), t.selection, WlData, 0);
      OfferToAllAdds(u, DevicesOf(t.primaryDevices, surface.value.client), t.primary, PrimarySelection, 0);
    }
  }

  lemma StartDragClaims(s: State, client: nat, source: nat, origin: nat, icon: nat, pressed: bool, iconFree: bool)
    ensures var t, k := StartDragStep(s, client, source, origin, icon, pressed, iconFree), Key(client, source);
      && t.births == s.births && t.log == s.log && t.selection == s.selection && t.primary == s.primary
      && (t.sources == s.sources || (Claimable(s, k) && t.sources == Claim(s, k, ForDrag).sources))
      && (t.drag == s.drag
           || (t.drag.Some? && (t.drag.value.source.None? || (t.drag.value.source == Some(k) && Claimable(s, k)))))
  {}

  lemma StartDragEvolves(s: State, client: nat, source: nat, origin: nat, icon: nat, pressed: bool, iconFree: bool)
    ensures Evolves(s, StartDragStep(s, client, source, origin, icon, pressed, iconFree))
  {
    var t := StartDragStep(s, client, source, origin, icon, pressed, iconFree);
    SameLogNoDrop(s, t);
    StartDragClaims(s, client, source, origin, icon, pressed, iconFree);
  }

  // ----- The drag in progress -----

  lemma {:induction false} OfferDragSame(s: State, devices: seq<Key>, source: Option<Key>, made: seq<Key>)
    ensures var t := OfferDrag(s, devices, source, made).0; SameSlots(s, t) && t.log == s.log
    decreases |devices|
  {
    if devices != [] {
      if source.Some? && HasServerId(s, devices[0].client) {
        OfferDragSame(AddOffer(s, devices[0], source.value, Drag, WlData), devices[1..], source,
          made + [NextKey(s, devices[0].client)]);
      } else {
        OfferDragSame(s, devices[1..], source, made);
      }
    }
  }

  /** The drag goes on, wherever it now is. */
  ghost predicate DragGoesOn(s: State, t: State) {
    && t.sources == s.sources && t.births == s.births && t.selection == s.selection && t.primary == s.primary
    && (s.drag.None? <==> t.drag.None?)
    && (s.drag.Some? ==> t.drag.value.source == s.drag.value.source)
  }

  lemma EndFocusGoesOn(s: State)
    ensures DragGoesOn(s, EndDragFocus(s)) && NoDrop(s, EndDragFocus(s))
  {
    EndFocusTold(s);
  }

  lemma EnterDragGoesOn(s: State, surface: Key)
    ensures DragGoesOn(s, EnterDrag(s, surface)) && NoDrop(s, EnterDrag(s, surface))
  {
    if s.drag.Some? {
      OfferDragSame(s, DevicesOf(s.dataDevices, surface.client), s.drag.value.source, []);
    }
    SameLogNoDrop(s, EnterDrag(s, surface));
  }

  lemma MovePointerGoesOn(s: State, hit: Option<Key>)
    ensures DragGoesOn(s, UpdateDrag(s, hit)) && NoDrop(s, UpdateDrag(s, hit))
  {
    EndFocusGoesOn(s);
    if hit.Some? { EnterDragGoesOn(EndDragFocus(s), hit.value); }
  }

  lemma GoesOnSettles(s: State, t: State)
    requires DragGoesOn(s, t) && NoDrop(s, t)
    ensures Settles(s, t)
  {}

  lemma AcceptGoesOn(s: State, k: Key, mime: Option<string>)
    ensures DragGoesOn(s, AcceptStep(s, k, mime)) && NoDrop(s, AcceptStep(s, k, mime))
  {
    if IsWlOffer(s, k) {
      MinorTold(s, AcceptStep(s, k, mime), TargetEvent(s, s.offers[k].source));
    } else {
      SameLogNoDrop(s, s);
    }
  }

  lemma ReadGoesOn(s: State, k: Key, mime: string)
    ensures DragGoesOn(s, ReceiveStep(s, k, mime)) && NoDrop(s, ReceiveStep(s, k, mime))
    ensures DragGoesOn(s, FinishStep(s, k)) && NoDrop(s, FinishStep(s, k))
  {
    SameLogNoDrop(s, s);
  }

  lemma TargetGoesOn(s: State, r: Request)
    requires OfTarget(r) && Enabled(s, r)
    ensures DragGoesOn(s, Step(s, r)) && NoDrop(s, Step(s, r))
  {
    if r.Accept? { AcceptGoesOn(s, r.k, r.accepted); }
    else if r.Receive? { ReadGoesOn(s, r.k, r.mime); }
    else if r.Finish? { ReadGoesOn(s, r.k, ""); }
    else { SameLogNoDrop(s, Step(s, r)); }
  }

  lemma SurfaceGoneSettles(s: State, k: Key)
    requires s.drag.Some? && s.drag.value.origin != k
    ensures Settles(s, DestroySurfaceStep(s, k))
  {
    var u := IconDropped(SurfaceDropped(s, k), k);
    EndFocusGoesOn(u);
    SameLogNoDrop(s, u);
    SameLogNoDrop(s, s);
    GoesOnSettles(s, DestroySurfaceStep(s, k));
  }

  lemma DestroySurfaceSettles(s: State, k: Key)
    ensures Settles(s, DestroySurfaceStep(s, k))
  {
    if k !in s.surfaces || s.drag.None? {
      SameLogNoDrop(s, DestroySurfaceStep(s, k));
    } else if s.drag.value.origin == k {
      var u := SurfaceDropped(s, k);
      CancelDragSettles(u);
      SameLogNoDrop(s, u);
      SettlesTransitive(s, u, CancelDrag(u));
    } else {
      SurfaceGoneSettles(s, k);
    }
  }

  lemma DepartedSettles(s: State, client: nat)
    ensures Settles(s, Departed(s, client))
  {
    SameLogNoDrop(s, Departed(s, client));
  }

  lemma DisconnectSettles(s: State, client: nat)
    ensures Settles(s, DisconnectStep(s, client))
  {
    DisconnectDeparts(s, client);
    if Leaves(s, client) {
      CancelDragSettles(s);
      DepartedSettles(CancelDrag(s), client);
      SettlesTransitive(s, CancelDrag(s), Departed(CancelDrag(s), client));
    } else {
      DepartedSettles(s, client);
    }
  }

  /** Letting go tells of a drop only with an action agreed. */
  lemma DroppedLineage(s: State, k: Key)
    requires s.drag.Some? && k in s.sources
    ensures Lineage(s, AfterDrop(s, k)) && Entries(s, AfterDrop(s, k)) && AfterDrop(s, k).drag.None?
  {}

  lemma ReleaseLineage(s: State)
    requires Slots(s) && FocusFits(s)
    ensures Lineage(s, FinishDrag(s)) && Entries(s, FinishDrag(s))
    ensures NoDrop(s, FinishDrag(s)) || TargetAccepted(s)
  {
    if s.drag.Some? {
      FinishDragCases(s);
      if s.drag.value.source.None? { SameLogNoDrop(s, FinishDrag(s)); }
      else if TargetAccepted(s) { DroppedLineage(s, s.drag.value.source.value); }
      else { CancelDragSettles(s); }
    } else {
      SameLogNoDrop(s, s);
    }
  }

  predicate IsRelease(s: State, r: Request) { r.ReleaseButton? && s.grab.None? }

  lemma OwnerEvolves(s: State, r: Request)
    requires Inv(s) && Enabled(s, r) && OfOwner(r) && !r.CreateSource?
    ensures Evolves(s, Step(s, r))
  {
    if r.OfferMime? { OfferMimeSettles(s, r.k, r.mime); SettlesEvolves(s, Step(s, r)); }
    else if r.SetSourceActions? { SetSourceActionsSettles(s, r.k, r.actions); SettlesEvolves(s, Step(s, r)); }
    else if r.DestroySource? { DestroySourceSettles(s, r.k); SettlesEvolves(s, Step(s, r)); }
    else if r.StartDrag? { StartDragEvolves(s, r.client, r.source, r.origin, r.icon, r.pressed, r.iconFree); }
    else if r.SetClipboard? { SetClipboardEvolves(s, r.client, r.source, r.recent); }
    else if r.SetPrimarySelection? { SetPrimaryStepEvolves(s, r.client, r.source, r.recent); }
    else { ControlSetEvolves(s, r.client, r.source, r.onPrimary); }
  }

  lemma OtherSettles(s: State, r: Request)
    requires Enabled(s, r) && !OfOwner(r) && !IsRelease(s, r)
    ensures Settles(s, Step(s, r))
  {
    var t := Step(s, r);
    if OfTarget(r) { TargetGoesOn(s, r); GoesOnSettles(s, t); }
    else if r.MovePointer? { MovePointerGoesOn(s, r.hit); GoesOnSettles(s, t); }
    else if r.DestroySurface? { DestroySurfaceSettles(s, r.k); }
    else if r.Disconnect? { DisconnectSettles(s, r.client); }
    else if r.EscapeDrag? { CancelDragSettles(s); }
    else {
      if r.GetDevice? { GetDeviceSame(s, r.k, r.interface, r.version); }
      else if r.Focus? { FocusSame(s, r.surface); }
      SameLogNoDrop(s, t);
    }
  }

  /** A drop is heard of only when the button comes up over a target that accepts. */
  lemma StepEvolves(s: State, r: Request)
    requires Inv(s) && Enabled(s, r)
    ensures r.CreateSource? || (Lineage(s, Step(s, r)) && Entries(s, Step(s, r)))
    ensures NoDrop(s, Step(s, r)) || (IsRelease(s, r) && TargetAccepted(s))
  {
    if r.CreateSource? { CreateSourceAdds(s, r.k, r.interface, r.version); SameLogNoDrop(s, Step(s, r)); }
    else if OfOwner(r) { OwnerEvolves(s, r); }
    else if IsRelease(s, r) { ReleaseLineage(s); }
    else { OtherSettles(s, r); SettlesEvolves(s, Step(s, r)); }
  }

  // ----- Sources are single-use -----

  /** A source's one use is behind it: it is gone, or it was used and holds no slot. */
  ghost predicate UsedUp(s: State, b: nat) {
    && b < |s.births| && !s.births[b].interface.PrimarySelection?
    && (forall k :: k in s.sources && s.sources[k].birth == b ==> !s.sources[k].role.Unused? && !InSlot(s, k))
  }

  lemma StepStaysUsedUp(s: State, r: Request, b: nat)
    requires Inv(s) && Enabled(s, r) && UsedUp(s, b)
    ensures UsedUp(Step(s, r), b)
  {
    var t := Step(s, r);
    StepEvolves(s, r);
    if r.CreateSource? { CreateSourceAdds(s, r.k, r.interface, r.version); }
    forall k | k in t.sources && t.sources[k].birth == b ensures !t.sources[k].role.Unused? && !InSlot(t, k) {
      assert k in s.sources && s.sources[k].birth == b && s.births[b].interface == s.sources[k].interface;
    }
  }

  /** Once a clipboard or drag source has left its slot, no run brings it back to any slot. */
  lemma {:induction false} UsedUpForGood(s: State, requests: seq<Request>, t: State, b: nat)
    requires Inv(s) && Runs(s, requests, t) && UsedUp(s, b)
    ensures UsedUp(t, b) && Inv(t)
    decreases |requests|
  {
    if requests != [] {
      StepStaysUsedUp(s, requests[0], b);
      StepKeepsInv(s, requests[0]);
      UsedUpForGood(Step(s, requests[0]), requests[1..], t, b);
    }
  }

  /** Over any run, a clipboard or drag source hears one outcome at most: cancelled, or dropped. */
  lemma OneOutcome(requests: seq<Request>, t: State, b: nat)
    requires Runs(INITIAL, requests, t) && b < |t.births| && !t.births[b].interface.PrimarySelection?
    ensures Told(t, Cancelled(b)) + Told(t, DropPerformed(b)) <= 1
    ensures Told(t, Finished(b)) > 0 ==> Told(t, DropPerformed(b)) == 1
  {
    EveryRunIsSound(requests, t);
    assert Outcomes(t, b) <= 1;
  }

  /**
   A primary source has no such rule: of two primary sources, set one and then the other, and the
   first hears `cancelled` once more, however often it has already. Both are then as settable as before.
   */
  lemma PrimaryCancelledAgain(s: State, client: nat, i: nat, j: nat)
    requires Inv(s) && IsPrimarySource(s, client, i) && IsPrimarySource(s, client, j) && i != j
    ensures var t := SetPrimaryStep(SetPrimaryStep(s, client, i, true), client, j, true);
      && Inv(t) && IsPrimarySource(t, client, i) && IsPrimarySource(t, client, j)
      && t.primary == Some(Key(client, j))
      && Told(t, Cancelled(s.sources[Key(client, i)].birth)) == Told(s, Cancelled(s.sources[Key(client, i)].birth)) + 1
  {
    var u := SetPrimaryStep(s, client, i, true);
    SetPrimaryTells(s, client, i);
    SetPrimaryTells(u, client, j);
    TellsTwice(s, u, SetPrimaryStep(u, client, j, true), Key(client, i), Key(client, j));
  }

  lemma TellsTwice(s: State, t: State, u: State, k: Key, j: Key)
    requires k in s.sources && Keyed(s, t) && Keyed(t, u) && TellsReplaced(s, t) && TellsReplaced(t, u)
    requires t.primary == Some(k) && u.primary == Some(j) && j != k
    ensures Told(u, Cancelled(s.sources[k].birth)) == Told(s, Cancelled(s.sources[k].birth)) + 1
  {}

  predicate IsPrimarySource(s: State, client: nat, i: nat) {
    i != 0 && Key(client, i) in s.sources && s.sources[Key(client, i)].interface.PrimarySelection?
  }

  /** Setting a primary source cancels the one it replaces, and leaves every source where it was. */
  lemma SetPrimaryTells(s: State, client: nat, i: nat)
    requires Inv(s) && IsPrimarySource(s, client, i)
    ensures var t := SetPrimaryStep(s, client, i, true);
      Inv(t) && t.primary == Some(Key(client, i)) && Keyed(s, t) && TellsReplaced(s, t)
  {
    SetPrimaryInv(s, client, i, true);
    ReplacePrimaryKeeps(s, Some(Key(client, i)));
    ReplacedTells(s, Key(client, i));
    AnnouncedTells(s, ReplacedPrimary(s, Some(Key(client, i))));
  }

  lemma AnnouncedTells(s: State, u: State)
    requires Inv(u) && Keyed(s, u) && TellsReplaced(s, u)
    ensures var t := AnnouncePrimary(u); t.primary == u.primary && Keyed(s, t) && TellsReplaced(s, t)
  {
    AnnouncePrimaryKeeps(u);
    assert forall e :: Told(AnnouncePrimary(u), e) == Told(u, e);
  }

  /** The same sources under the same keys. */
  ghost predicate Keyed(s: State, t: State) {
    && t.sources.Keys == s.sources.Keys
    && (forall k :: k in s.sources ==>
         t.sources[k].interface == s.sources[k].interface && t.sources[k].birth == s.sources[k].birth)
  }

  /** Whoever held the primary selection and does no longer is told once more, and nobody else. */
  ghost predicate TellsReplaced(s: State, t: State) {
    forall k :: k in s.sources ==>
      Told(t, Cancelled(s.sources[k].birth)) == Told(s, Cancelled(s.sources[k].birth))
        + (if s.primary == Some(k) && t.primary != Some(k) then 1 else 0)
  }

  lemma ReplacedTells(s: State, k: Key)
    requires Births(s) && (s.primary.Some? ==> s.primary.value in s.sources)
    ensures Keyed(s, ReplacedPrimary(s, Some(k))) && TellsReplaced(s, ReplacedPrimary(s, Some(k)))
  {
    var u := ReplacedPrimary(s, Some(k));
    if s.primary.Some? && s.primary != Some(k) {
      CancelTold(s, s.primary.value);
      assert u.log == Cancel(s, s.primary.value).log && u.sources == Cancel(s, s.primary.value).sources;
    }
  }

  // ----- A drag ends once -----

  /** What ends a drag: letting go, Escape, and the end of its source, its origin or its client. */
  predicate EndsDrag(s: State, r: Request)
    requires s.drag.Some?
  {
    || IsRelease(s, r) || r.EscapeDrag?
    || (r.DestroySource? && s.drag.value.source == Some(r.k))
    || (r.DestroySurface? && s.drag.value.origin == r.k)
    || (r.Disconnect? && s.drag.value.originClient == r.client)
  }

  lemma SelectionKeepsDrag(s: State, r: Request)
    requires Inv(s) && s.drag.Some? && Enabled(s, r)
      && (r.SetClipboard? || r.SetPrimarySelection? || r.ControlSetSelection?)
    ensures Step(s, r).drag == s.drag
  {
    var k := Key(r.client, r.source);
    if r.source == 0 {
      SetSelectionEvolves(s, None);
      SetPrimaryEvolves(s, None);
    } else if k in s.sources && s.sources[k].interface.PrimarySelection? {
      if r.SetPrimarySelection? { SetPrimaryEvolves(s, Some(k)); }
    } else if k in s.sources && s.sources[k].role.Unused? {
      ClaimKeeps(s, k, ForSelection);
      SetSelectionEvolves(Claim(s, k, ForSelection), Some(k));
      if s.sources[k].interface.DataControl? { SetPrimaryEvolves(Claim(s, k, ForSelection), Some(k)); }
    }
  }

  lemma OwnerKeepsDrag(s: State, r: Request)
    requires Inv(s) && s.drag.Some? && Enabled(s, r) && OfOwner(r) && !EndsDrag(s, r)
    ensures Step(s, r).drag == s.drag
  {
    if r.SetClipboard? || r.SetPrimarySelection? || r.ControlSetSelection? { SelectionKeepsDrag(s, r); }
    else if r.DestroySource? && r.k in s.sources { DestroyForgets(s, r.k); }
  }

  lemma SurfaceKeepsDrag(s: State, k: Key)
    requires s.drag.Some? && s.drag.value.origin != k
    ensures KeepsDrag(s, DestroySurfaceStep(s, k))
  {}

  lemma DisconnectKeepsDrag(s: State, client: nat)
    requires s.drag.Some? && s.drag.value.originClient != client
    ensures KeepsDrag(s, DisconnectStep(s, client))
  {
    DisconnectDeparts(s, client);
  }

  lemma OtherKeepsDrag(s: State, r: Request)
    requires s.drag.Some? && Enabled(s, r) && !OfOwner(r) && !EndsDrag(s, r)
    ensures KeepsDrag(s, Step(s, r))
  {
    if OfTarget(r) { TargetGoesOn(s, r); }
    else if r.MovePointer? { MovePointerGoesOn(s, r.hit); }
    else if r.DestroySurface? { SurfaceKeepsDrag(s, r.k); }
    else if r.Disconnect? { DisconnectKeepsDrag(s, r.client); }
    else if r.GetDevice? { GetDeviceSame(s, r.k, r.interface, r.version); }
    else if r.Focus? { FocusSame(s, r.surface); }
  }

  lemma CancelDragTells(s: State, t: State, k: Key)
    requires DragHolds(s, k) && k in s.sources && t.log == CancelDrag(s).log
    ensures forall b: nat :: Told(t, DropPerformed(b)) == Told(s, DropPerformed(b))
    ensures Told(t, Cancelled(s.sources[k].birth)) == Told(s, Cancelled(s.sources[k].birth)) + 1
  {
    CancelTold(s, k);
    assert CancelDrag(s).log == Cancel(s, k).log;
    assert forall e :: Told(t, e) == Told(Cancel(s, k), e);
  }

  lemma GoingEndsDrag(s: State, r: Request, k: Key)
    requires Slots(s) && DragFits(s) && Enabled(s, r) && DragHolds(s, k) && EndsDrag(s, r) && !IsRelease(s, r)
    ensures Step(s, r).drag.None? && Step(s, r).log == CancelDrag(s).log
  {
    if r.DestroySource? { DestroyForgets(s, k); }
    else if r.Disconnect? { DisconnectDeparts(s, r.client); }
    else if r.DestroySurface? { assert CancelDrag(SurfaceDropped(s, r.k)).log == CancelDrag(s).log; }
  }

  lemma EndingIsTold(s: State, r: Request, k: Key)
    requires Inv(s) && Enabled(s, r) && DragHolds(s, k) && EndsDrag(s, r)
    ensures var t, b := Step(s, r), s.sources[k].birth;
      var drops := IsRelease(s, r) && TargetAccepted(s);
      && t.drag.None?
      && Told(t, Cancelled(b)) == Told(s, Cancelled(b)) + (if drops then 0 else 1)
      && Told(t, DropPerformed(b))
           == Told(s, DropPerformed(b)) + (if drops && VersionOf(s, k) >= ACTIONS_SINCE then 1 else 0)
  {
    if IsRelease(s, r) {
      FinishDragCases(s);
      if TargetAccepted(s) { DropTold(s, k); } else { CancelDragTells(s, Step(s, r), k); }
    } else {
      GoingEndsDrag(s, r, k);
      CancelDragTells(s, Step(s, r), k);
    }
  }

  /**
   Ending a drag tells its source exactly one outcome: dropped, if it was let go over a target
   that will take it, and otherwise cancelled. The one exception is a source bound before
   version 3, which has no event for a drop and is told nothing of one.
   */
  lemma DragEndsOnce(s: State, r: Request, k: Key)
    requires Inv(s) && Enabled(s, r) && DragHolds(s, k)
    ensures DragHolds(Step(s, r), k) <==> !EndsDrag(s, r)
    ensures EndsDrag(s, r) ==> Step(s, r).drag.None?
    ensures var t, b := Step(s, r), s.sources[k].birth;
      var drops := IsRelease(s, r) && TargetAccepted(s);
      && Outcomes(s, b) == 0
      && Told(t, Cancelled(b)) == (if EndsDrag(s, r) && !drops then 1 else 0)
      && Told(t, DropPerformed(b)) == (if drops && VersionOf(s, k) >= ACTIONS_SINCE then 1 else 0)
  {
    DraggedIsUntold(s, k);
    if EndsDrag(s, r) { EndingIsTold(s, r, k); } else { GoingOnIsUntold(s, r, k); }
  }

  lemma DraggedIsUntold(s: State, k: Key)
    requires Slots(s) && Heard(s) && DragHolds(s, k)
    ensures Outcomes(s, s.sources[k].birth) == 0
  {
    assert SourceHeard(s, k);
  }

  lemma GoingOnIsUntold(s: State, r: Request, k: Key)
    requires Inv(s) && Enabled(s, r) && DragHolds(s, k) && !EndsDrag(s, r)
    ensures DragHolds(Step(s, r), k) && Outcomes(Step(s, r), s.sources[k].birth) == 0
  {
    if OfOwner(r) { OwnerKeepsDrag(s, r); } else { OtherKeepsDrag(s, r); }
    StepKeepsInv(s, r);
    assert SourceHeard(Step(s, r), k);
    SameBirth(s, r, k);
  }

  /** An id names one source for as long as it names one. */
  lemma SameBirth(s: State, r: Request, k: Key)
    requires Inv(s) && Enabled(s, r) && k in s.sources && k in Step(s, r).sources
    ensures Step(s, r).sources[k].birth == s.sources[k].birth
  {
    StepEvolves(s, r);
    if r.CreateSource? { CreateSourceAdds(s, r.k, r.interface, r.version); }
  }

  // ----- What a drop and a paste can rely on -----

  /** Whatever an offer is settled on is nothing, or one action both sides allow. */
  ghost predicate FairOffer(s: State, x: Key)
    requires Negotiates(s, x)
  {
    var k := s.offers[x].source.value;
    Fair(s.offers[x].resolved, Allowed(s.sources[k].actions, VersionOf(s, k)),
      Allowed(s.offers[x].actions, VersionOf(s, x)))
  }

  lemma AgreedIsFair(s: State, x: Key)
    requires MasksFit(s) && Agreed(s) && Negotiates(s, x)
    ensures FairOffer(s, x)
  {
    var o, k := s.offers[x], s.offers[x].source.value;
    assert o.resolved == Settled(s, x);
    ResolvedIsFair(s.sources[k].actions, VersionOf(s, k), o.actions, o.preferred, VersionOf(s, x));
  }

  /** Any request that tells of a drop ends a drag over a target that accepted, with an action both sides allow. */
  lemma DropIsAgreed(s: State, r: Request, b: nat) returns (x: Key)
    requires Inv(s) && Enabled(s, r) && Told(Step(s, r), DropPerformed(b)) != Told(s, DropPerformed(b))
    ensures r.ReleaseButton? && s.drag.Some? && x in s.drag.value.focusOffers
    ensures Negotiates(s, x) && FairOffer(s, x) && s.offers[x].resolved != DND_ACTION_NONE && s.offers[x].accepted.Some?
  {
    StepEvolves(s, r);
    x :| x in s.drag.value.focusOffers && Accepting(s, x);
    assert OfferFits(s, x);
    AgreedIsFair(s, x);
  }

  /** Content is asked of a source only through an offer its reader may still read, and only what it offered. */
  lemma NoStalePaste(s: State, k: Key, mime: string)
    requires Inv(s) && Step(s, Receive(k, mime)) != s
    ensures k in s.offers && s.offers[k].source.Some? && s.offers[k].source.value in s.sources
    ensures var source := s.offers[k].source.value;
      && Step(s, Receive(k, mime)) == s.(log := s.log + [SendContent(s.sources[source].birth, mime)])
      && mime in s.sources[source].mimes
      && (s.offers[k].kind.Selection? ==> s.selection == Some(source) || s.primary == Some(source))
      && (s.offers[k].kind.Drag? ==>
           DragHolds(s, source) && s.drag.value.focus.Some? && s.drag.value.focus.value.client == k.client)
      && (s.offers[k].kind.Dropped? ==> s.sources[source].role.ForDrag? && !InSlot(s, source))
  {
    assert OfferFits(s, k);
  }

  /**
   Accepting an offer tells the source behind it. The source has no such event exactly when the offer is of
   the clipboard and a data-control source holds that.
   */
  lemma AcceptTells(s: State, k: Key, mime: Option<string>)
    requires Inv(s) && IsWlOffer(s, k) && s.offers[k].source.Some?
    ensures var source := s.sources[s.offers[k].source.value];
      && Step(s, Accept(k, mime)).log == s.log + [Targeted(source.birth)]
      && (!source.interface.WlData? <==>
            s.offers[k].kind.Selection? && s.selection.Some? && s.sources[s.selection.value].interface.DataControl?)
  {
    assert OfferFits(s, k);
  }

  // ----- Two runs -----

  ghost predicate Reached(t: State) { exists requests :: Runs(INITIAL, requests, t) }

  lemma {:induction false} RunsOn(s: State, requests: seq<Request>, t: State, r: Request)
    requires Runs(s, requests, t) && Enabled(t, r)
    ensures Runs(s, requests + [r], Step(t, r))
    decreases |requests|
  {
    if requests == [] {
      assert (requests + [r])[1..] == [];
    } else {
      assert (requests + [r])[1..] == requests[1..] + [r];
      RunsOn(Step(s, requests[0]), requests[1..], t, r);
    }
  }

  lemma ReachedNext(t: State, r: Request)
    requires Reached(t) && Enabled(t, r)
    ensures Reached(Step(t, r))
  {
    var requests :| Runs(INITIAL, requests, t);
    RunsOn(INITIAL, requests, t, r);
  }

  lemma ReachedIsSound(t: State)
    requires Reached(t)
    ensures Inv(t)
  {
    var requests :| Runs(INITIAL, requests, t);
    RunKeepsInv(INITIAL, requests, t);
  }

  const SOURCE: Key := Key(1, 11)
  const DEVICE: Key := Key(1, 12)
  const WINDOW: Key := Key(1, 13)
  const OFFER: Key := Key(1, SERVER_ID_BASE)

  /** One client with a surface and a source. */
  function WithSource(interface: Interface, version: nat): State {
    INITIAL.(objects := map[SOURCE := Object(SourceObject(interface), version)],
             nextServerId := map[1 := SERVER_ID_BASE],
             sources := map[SOURCE := Source(interface, [], 0, Unused, false, 0)],
             surfaces := {WINDOW},
             births := [Birth(SOURCE, interface)])
  }

  lemma SourceMade(interface: Interface, version: nat) returns (t: State)
    requires !interface.PrimarySelection?
    ensures Reached(t) && t == WithSource(interface, version)
  {
    assert Runs(INITIAL, [], INITIAL);
    ReachedNext(INITIAL, Connect(1));
    t := Step(INITIAL, Connect(1));
    ReachedNext(t, CreateSurface(WINDOW));
    t := Step(t, CreateSurface(WINDOW));
    ReachedNext(t, CreateSource(SOURCE, interface, version));
    t := Step(t, CreateSource(SOURCE, interface, version));
  }

  lemma ControlSourceSet() returns (t: State)
    ensures Reached(t)
    ensures var u := WithSource(DataControl, 1);
      t == u.(sources := u.sources[SOURCE := u.sources[SOURCE].(role := ForSelection)], selection := Some(SOURCE))
  {
    t := SourceMade(DataControl, 1);
    ReachedNext(t, ControlSetSelection(1, 11, false));
    t := Step(t, ControlSetSelection(1, 11, false));
  }

  lemma ControlSourceOffered() returns (t: State)
    ensures Reached(t) && t.births == [Birth(SOURCE, DataControl)]
    ensures IsWlOffer(t, OFFER) && t.offers[OFFER].source == Some(SOURCE)
    ensures SOURCE in t.sources && t.sources[SOURCE].birth == 0
  {
    t := ControlSourceSet();
    ReachedNext(t, Focus(Some(WINDOW)));
    t := Step(t, Focus(Some(WINDOW)));
    ReachedNext(t, GetDevice(DEVICE, WlData, 3));
    t := Step(t, GetDevice(DEVICE, WlData, 3));
  }

  /** So it can be: a data-control source on the clipboard is sent an event its interface does not have. */
  lemma ControlSourceTargeted() returns (t: State)
    ensures Reached(t) && t.births == [Birth(SOURCE, DataControl)] && Targeted(0) in t.log
  {
    t := ControlSourceOffered();
    ReachedNext(t, Accept(OFFER, None));
    t := Step(t, Accept(OFFER, None));
  }

  lemma OldSourceDragged() returns (t: State)
    ensures Reached(t) && t.grab.None?
    ensures t.drag == Some(DragState(Some(SOURCE), 1, WINDOW, None, None, []))
    ensures t.objects == map[SOURCE := Object(SourceObject(WlData), 2), DEVICE := Object(DeviceObject(WlData), 2)]
    ensures t.sources == map[SOURCE := Source(WlData, [], 0, ForDrag, false, 0)]
    ensures t.dataDevices == [DEVICE] && t.nextServerId == map[1 := SERVER_ID_BASE] && t.surfaces == {WINDOW}
  {
    t := SourceMade(WlData, 2);
    ReachedNext(t, GetDevice(DEVICE, WlData, 2));
    t := Step(t, GetDevice(DEVICE, WlData, 2));
    ReachedNext(t, StartDrag(1, 11, 13, 0, true, true));
    t := Step(t, StartDrag(1, 11, 13, 0, true, true));
  }

  lemma OneOfferDragged(s: State)
    requires s.nextServerId == map[1 := SERVER_ID_BASE]
    ensures DevicesOf([DEVICE], 1) == [DEVICE]
    ensures OfferDrag(s, [DEVICE], Some(SOURCE), []) == (AddOffer(s, DEVICE, SOURCE, Drag, WlData), [OFFER])
  {
    assert [DEVICE][1..] == [] && DevicesOf([], 1) == [];
    var t := AddOffer(s, DEVICE, SOURCE, Drag, WlData);
    assert OfferDrag(t, [], Some(SOURCE), [OFFER]) == (t, [OFFER]);
    assert [] + [OFFER] == [OFFER];
  }

  lemma OldSourceEntered() returns (t: State)
    ensures Reached(t) && t.grab.None? && DragHolds(t, SOURCE) && t.drag.value.focusOffers == [OFFER]
    ensures t.sources == map[SOURCE := Source(WlData, [], 0, ForDrag, false, 0)]
    ensures VersionOf(t, SOURCE) == 2 && VersionOf(t, OFFER) == 2 && IsWlOffer(t, OFFER)
    ensures t.offers[OFFER].kind == Drag && t.offers[OFFER].source == Some(SOURCE)
  {
    t := OldSourceDragged();
    var enter := MovePointer(Some(WINDOW));
    OneOfferDragged(t);
    assert EndDragFocus(t) == t;
    ReachedNext(t, enter);
    t := EnterDrag(t, WINDOW);
  }

  lemma OldSourceAccepted() returns (t: State)
    ensures Reached(t) && t.grab.None? && DragHolds(t, SOURCE)
    ensures SOURCE in t.sources && t.sources[SOURCE].birth == 0 && VersionOf(t, SOURCE) == 2
    ensures t.drag.value.focusOffers == [OFFER] && Accepting(t, OFFER)
  {
    t := OldSourceEntered();
    var accept := Accept(OFFER, Some("text/plain"));
    var before := t;
    ReachedNext(t, accept);
    t := Step(t, accept);
    assert Negotiates(t, OFFER);
    assert Allowed(before.sources[SOURCE].actions, 2) == DND_ACTION_COPY;
  }

  /** A source bound before version 3, dropped on a target that takes it, hears nothing. */
  lemma OldSourceHearsNothing() returns (t: State)
    ensures Reached(t) && DragHolds(t, SOURCE) && SOURCE in t.sources
    ensures var u, b := Step(t, ReleaseButton), t.sources[SOURCE].birth; u.drag.None? && Outcomes(u, b) == 0
  {
    t := OldSourceAccepted();
    ReachedIsSound(t);
    assert OFFER in t.drag.value.focusOffers;
    DragEndsOnce(t, ReleaseButton, SOURCE);
  }
}
