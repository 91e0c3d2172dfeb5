/** What requests leave alone: how far putting away one source, one selection or one client reaches. */
module DataBounds {
  import opened Base
  import opened DataTransfer
  import opened DataInvariant
  import opened DataRuns
  import opened DataDelivery

  /** An offer of this source is dead, and any other is as it was. */
  function DeadIf(o: Offer, source: Option<Key>): Offer {
    if o.source.Some? && o.source == source then o.(source := None, accepted := None) else o
  }

  /** Of the offers there were, exactly those of this source are dead. */
  ghost predicate OnlyDead(s: State, t: State, source: Option<Key>) {
    forall x :: x in s.offers ==> x in t.offers && t.offers[x] == DeadIf(s.offers[x], source)
  }

  // ----- Replacing what a selection holds -----

  /** A source told it is no longer wanted, with every other as it was. */
  ghost predicate OnlyCancelled(s: State, t: State, k: Key)
    requires k in s.sources
  {
    && t.sources == s.sources[k := s.sources[k].(cancelled := true)]
    && t.log == s.log + [Cancelled(s.sources[k].birth)]
  }

  lemma Displaced(s: State, held: Option<Key>, source: Option<Key>)
    requires held.Some? ==> held.value in s.sources
    ensures var t := Displace(s, held, source);
      && t == s.(sources := t.sources, offers := t.offers, log := t.log)
      && (if held.Some? && held != source then OnlyCancelled(s, t, held.value) && OnlyDead(s, t, held) else t == s)
  {}

  /** What was on the clipboard is told so and its offers are dead; every other source and offer is as it was. */
  lemma ReplacedExactly(s: State, source: Option<Key>)
    requires s.selection.Some? ==> s.selection.value in s.sources
    requires Named(s)
    ensures var t := SetSelection(s, source);
      if s.selection.Some? && s.selection != source
      then OnlyCancelled(s, t, s.selection.value) && OnlyDead(s, t, s.selection)
      else t.sources == s.sources && t.log == s.log && OnlyDead(s, t, None)
  {
    var u := Displace(s, s.selection, source).(selection := source);
    Displaced(s, s.selection, source);
    assert SameAudience(s, s);
    DisplacedAudience(s, s, s.selection, source);
    SameNamed(s, u);
    AnnounceSpares(u);
  }

  /** And on the primary selection. */
  lemma PrimaryReplacedExactly(s: State, source: Option<Key>)
    requires s.primary.Some? ==> s.primary.value in s.sources
    requires Named(s)
    ensures var t := SetPrimary(s, source);
      if s.primary.Some? && s.primary != source
      then OnlyCancelled(s, t, s.primary.value) && OnlyDead(s, t, s.primary)
      else t.sources == s.sources && t.log == s.log && OnlyDead(s, t, None)
  {
    var u := Displace(s, s.primary, source).(primary := source);
    Displaced(s, s.primary, source);
    assert SameAudience(s, s);
    DisplacedAudience(s, s, s.primary, source);
    SameNamed(s, u);
    AnnounceSpares(u);
  }

  lemma {:induction false} OfferToAllSpares(s: State, devices: seq<Key>, source: Option<Key>, interface: Interface,
                                            since: nat)
    requires Named(s)
    ensures var t := OfferToAll(s, devices, source, interface, since);
      Named(t) && forall x :: x in s.offers ==> x in t.offers && t.offers[x] == s.offers[x]
    decreases |devices|
  {
    if devices != [] {
      OneMore(s, devices[0], source, interface, since);
      OfferToAllSpares(OfferTo(s, devices[0], source, interface, since), devices[1..], source, interface, since);
    }
  }

  lemma AnnounceSpares(s: State)
    requires Named(s)
    ensures forall x :: x in s.offers ==>
      && x in AnnounceSelection(s).offers && AnnounceSelection(s).offers[x] == s.offers[x]
      && x in AnnouncePrimary(s).offers && AnnouncePrimary(s).offers[x] == s.offers[x]
    ensures AnnounceSelection(s).sources == s.sources && AnnounceSelection(s).log == s.log
    ensures AnnouncePrimary(s).sources == s.sources && AnnouncePrimary(s).log == s.log
  {
    AnnouncedAside(s);
    OfferToAllSpares(s, FocusedDevices(s, s.dataDevices), s.selection, WlData, 0);
    var t := OfferToAll(s, FocusedDevices(s, s.dataDevices), s.selection, WlData, 0);
    OfferToAllSpares(t, s.controlDevices, s.selection, DataControl, 0);
    OfferToAllSpares(s, FocusedDevices(s, s.primaryDevices), s.primary, PrimarySelection, 0);
    var u := OfferToAll(s, FocusedDevices(s, s.primaryDevices), s.primary, PrimarySelection, 0);
    OfferToAllSpares(u, s.controlDevices, s.primary, DataControl, PRIMARY_SINCE);
  }

  // ----- A source destroyed -----

  /** Offers of a drag's are all of its source. */
  lemma DragsOwn(s: State, x: Key)
    requires Inv(s) && s.drag.Some? && x in s.drag.value.focusOffers
    ensures x in s.offers && s.offers[x].source.Some? && s.offers[x].source == s.drag.value.source
  {}

  lemma CancelledDrag(s: State, m: State, k: Key)
    requires Inv(s) && DragHolds(s, k) && m == s.(selection := m.selection, primary := m.primary)
    ensures var t := CancelDrag(m);
      && t.drag.None? && OnlyDeadAmong(s, t, k) && OnlyCancelled(s, t, k)
      && t == m.(drag := None, offers := t.offers, sources := t.sources, log := t.log)
  {
    forall x | x in s.drag.value.focusOffers ensures x in s.offers && s.offers[x].source == Some(k) { DragsOwn(s, x); }
  }

  /** Some of this source's offers are dead, and no others have changed. */
  ghost predicate OnlyDeadAmong(s: State, t: State, k: Key) {
    && t.offers.Keys == s.offers.Keys
    && forall x :: x in s.offers ==> t.offers[x] == s.offers[x] || t.offers[x] == DeadIf(s.offers[x], Some(k))
  }

  /** The selections cleared of a source. */
  function Cleared(s: State, k: Key): State {
    s.(selection := if s.selection == Some(k) then None else s.selection,
       primary := if s.primary == Some(k) then None else s.primary)
  }

  lemma UnslottedIs(s: State, k: Key)
    ensures Unslotted(s, k) == if DragHolds(s, k) then CancelDrag(Cleared(s, k)) else Cleared(s, k)
  {
    ClearsOnly(s);
    ClearsOnly(s.(selection := None));
  }

  /** What taking a source out of its slots leaves. */
  ghost predicate Spared(s: State, t: State, k: Key) {
    && OnlyDeadAmong(s, t, k)
    && t.drag == (if DragHolds(s, k) then None else s.drag)
    && t.sources.Keys == s.sources.Keys && (forall j :: j in s.sources && j != k ==> t.sources[j] == s.sources[j])
  }

  lemma UnslottedSpares(s: State, k: Key)
    requires Inv(s) && k in s.sources
    ensures Spared(s, Unslotted(s, k), k)
  {
    UnslottedIs(s, k);
    if DragHolds(s, k) { CancelledDrag(s, Cleared(s, k), k); }
  }

  /** With a source go its offers, its slots and its drag; nobody else's source or offer is touched. */
  lemma DestroyedExactly(s: State, k: Key)
    requires Inv(s) && k in s.sources
    ensures var t := Step(s, DestroySource(k));
      && t.offers.Keys == s.offers.Keys && (forall x :: x in s.offers ==> t.offers[x] == DeadIf(s.offers[x], Some(k)))
      && t.sources.Keys == s.sources.Keys - {k} && (forall j :: j in t.sources ==> t.sources[j] == s.sources[j])
      && t.drag == (if DragHolds(s, k) then None else s.drag)
  {
    UnslottedSpares(s, k);
    KilledAfter(s, Unslotted(s, k), k);
    RetiredAfter(s, Unslotted(s, k), k);
  }

  lemma RetiredAfter(s: State, t: State, k: Key)
    requires Spared(s, t, k) && t == Unslotted(s, k) && k in s.sources
    ensures var u := Step(s, DestroySource(k));
      && u.offers == InvalidateFrom(t, k).offers && u.drag == t.drag
      && u.sources.Keys == s.sources.Keys - {k} && (forall j :: j in u.sources ==> u.sources[j] == s.sources[j])
  {
    assert Step(s, DestroySource(k)) == Unregister(Retire(s, k, false), k);
  }

  lemma KilledAfter(s: State, t: State, k: Key)
    requires OnlyDeadAmong(s, t, k)
    ensures var u := InvalidateFrom(t, k);
      && u.offers.Keys == s.offers.Keys && forall x :: x in s.offers ==> u.offers[x] == DeadIf(s.offers[x], Some(k))
  {
    assert forall x :: x in t.offers <==> x in s.offers;
  }

  // ----- A client gone -----

  function DeadOf(o: Offer, c: nat): Offer {
    if o.source.Some? && o.source.value.client == c then o.(source := None, accepted := None) else o
  }

  lemma DragOfLeaver(s: State, t: State, c: nat)
    requires Inv(s) && t == s.(surfaces := t.surfaces, grab := t.grab)
    ensures var u := LeaveDrag(t, c);
      && u.offers.Keys == s.offers.Keys && u.objects == s.objects && u.sources.Keys == s.sources.Keys
      && (forall x :: x in s.offers ==> u.offers[x] == s.offers[x] || u.offers[x] == DeadOf(s.offers[x], c))
      && (forall j :: j in s.sources && j.client != c ==> u.sources[j] == s.sources[j])
      && (s.drag.Some? && s.drag.value.originClient != c && !BelongsTo(s.drag.value.focus, c) ==> u.drag == s.drag)
  {
    if s.drag.Some? && s.drag.value.originClient == c {
      forall x | x in s.drag.value.focusOffers ensures DeadOf(s.offers[x], c) == Loose(s.offers[x]) { DragsOwn(s, x); }
      assert InvalidateAll(t.(drag := None), s.drag.value.focusOffers).offers.Keys == s.offers.Keys;
    }
  }

  /** The tables once a client's entries are out of them. */
  ghost predicate LessClient(s: State, t: State, c: nat) {
    && (forall k :: k in t.objects <==> k in s.objects && k.client != c)
    && (forall k :: k in t.objects ==> t.objects[k] == s.objects[k])
    && (forall j :: j in t.sources <==> j in s.sources && j.client != c)
    && (forall j :: j in t.sources ==> t.sources[j] == s.sources[j])
  }

  /** And of the offers left, those of its sources dead. */
  ghost predicate OthersSpared(s: State, t: State, c: nat) {
    && (forall x :: x in t.offers <==> x in s.offers && x.client != c)
    && (forall x :: x in t.offers ==> t.offers[x] == DeadOf(s.offers[x], c))
  }

  /** The surfaces and any interactive grab of a client's gone. */
  function Seatless(s: State, c: nat): State {
    s.(surfaces := (set k | k in s.surfaces && k.client != c), grab := if BelongsTo(s.grab, c) then None else s.grab)
  }

  /** With a client go its objects, sources and offers; of others, only the offers of what was its are dead. */
  lemma ClientGoneExactly(s: State, c: nat)
    requires Inv(s)
    ensures var t := Step(s, Disconnect(c));
      && LessClient(s, t, c) && OthersSpared(s, t, c)
      && (s.drag.Some? && s.drag.value.originClient != c && !BelongsTo(s.drag.value.focus, c) ==> t.drag == s.drag)
  {
    LeaverIs(s, c);
    LeaverGone(s, c);
  }

  lemma LeaverIs(s: State, c: nat)
    ensures Step(s, Disconnect(c)) == DropClient(LeaveSelections(LeaveDrag(Seatless(s, c), c), c), c)
  {}

  lemma LeaverGone(s: State, c: nat)
    requires Inv(s)
    ensures var u := LeaveDrag(Seatless(s, c), c);
      var t := DropClient(LeaveSelections(u, c), c);
      LessClient(s, t, c) && OthersSpared(s, t, c) && t.drag == u.drag
    ensures s.drag.Some? && s.drag.value.originClient != c && !BelongsTo(s.drag.value.focus, c) ==>
      LeaveDrag(Seatless(s, c), c).drag == s.drag
  {
    DragOfLeaver(s, Seatless(s, c), c);
    GoneAfter(s, LeaveDrag(Seatless(s, c), c), c);
  }

  lemma GoneAfter(s: State, u: State, c: nat)
    requires OffersFit(s) && u.offers.Keys == s.offers.Keys
    requires u.objects == s.objects && u.sources.Keys == s.sources.Keys
    requires forall x :: x in s.offers ==> u.offers[x] == s.offers[x] || u.offers[x] == DeadOf(s.offers[x], c)
    requires forall j :: j in s.sources && j.client != c ==> u.sources[j] == s.sources[j]
    ensures var t := DropClient(LeaveSelections(u, c), c);
      LessClient(s, t, c) && OthersSpared(s, t, c) && t.drag == u.drag
  {
    SelectionsOfLeaver(u, c);
    DroppedClient(s, LeaveSelections(u, c), c);
    DroppedTables(s, LeaveSelections(u, c), c);
  }

  lemma SelectionsOfLeaver(s: State, c: nat)
    ensures var t := LeaveSelections(s, c); t == s.(selection := t.selection, primary := t.primary)
  {
    ClearsOnly(s);
    ClearsOnly(s.(selection := None));
  }

  lemma DroppedTables(s: State, v: State, c: nat)
    requires v.objects == s.objects && v.sources.Keys == s.sources.Keys
    requires forall j :: j in s.sources && j.client != c ==> v.sources[j] == s.sources[j]
    ensures LessClient(s, DropClient(v, c), c) && DropClient(v, c).drag == v.drag
  {
    assert forall j :: j in v.sources <==> j in s.sources;
  }

  lemma DroppedClient(s: State, v: State, c: nat)
    requires OffersFit(s) && v.offers.Keys == s.offers.Keys && v.sources.Keys == s.sources.Keys
    requires forall x :: x in s.offers ==> v.offers[x] == s.offers[x] || v.offers[x] == DeadOf(s.offers[x], c)
    ensures OthersSpared(s, DropClient(v, c), c)
  {
    assert forall x :: x in v.offers <==> x in s.offers;
    forall x | x in s.offers ensures s.offers[x].source.Some? ==> s.offers[x].source.value in v.sources {
      assert OfferFits(s, x);
      assert s.offers[x].source.Some? ==> s.offers[x].source.value in s.sources.Keys;
    }
  }
}
