/** Where layer surfaces go on an output, and what room they leave. */
module Layer {
  import opened Base
  import opened Surfaces

  datatype Anchor = Anchor(top: bool, bottom: bool, left: bool, right: bool)

  /** The order of the bands, bottom to top. */
  datatype Band = Background | Bottom | Top | Overlay

  datatype Margin = Margin(top: int, right: int, bottom: int, left: int)

  datatype LayerState = LayerState(
    band: Band, width: int, height: int, anchor: Anchor, exclusiveZone: int, margin: Margin)

  datatype Edge = TopEdge | BottomEdge | LeftEdge | RightEdge

  predicate SpansAcross(a: Anchor) { a.left && a.right }

  predicate SpansDown(a: Anchor) { a.top && a.bottom }

  /** The edge a reservation comes off: the one end of the axis that is not spanned. */
  function EdgeOf(a: Anchor): Option<Edge> {
    if SpansAcross(a) && a.top && !a.bottom then Some(TopEdge)
    else if SpansAcross(a) && a.bottom && !a.top then Some(BottomEdge)
    else if SpansDown(a) && a.left && !a.right then Some(LeftEdge)
    else if SpansDown(a) && a.right && !a.left then Some(RightEdge)
    else None
  }

  function NoLess(x: int, low: int): int { if x < low then low else x }

  /** `Rect::shrink`. */
  function Shrink(r: Rect, a: Anchor, amount: int): Rect {
    var taken := NoLess(amount, 0);
    match EdgeOf(a)
    case Some(TopEdge) => r.(y := r.y + taken, height := NoLess(r.height - taken, 0))
    case Some(BottomEdge) => r.(height := NoLess(r.height - taken, 0))
    case Some(LeftEdge) => r.(x := r.x + taken, width := NoLess(r.width - taken, 0))
    case Some(RightEdge) => r.(width := NoLess(r.width - taken, 0))
    case None => r
  }

  /** One axis of `place`: `near` and `far` say which ends the surface is anchored to. */
  function PlaceAxis(start: int, length: int, near: bool, far: bool, nearMargin: int, farMargin: int,
                     size: int): (int, int) {
    var from := start + if near then nearMargin else 0;
    var to := start + length - if far then farMargin else 0;
    var span := NoLess(to - from, 0);
    var extent := if size > 0 then size else if near && far then span else 0;
    (if near && !far then from else if far && !near then to - extent else from + Half(span - extent), extent)
  }

  /** `place`. */
  function Place(area: Rect, l: LayerState): Rect {
    var (x, width) :=
      PlaceAxis(area.x, area.width, l.anchor.left, l.anchor.right, l.margin.left, l.margin.right, l.width);
    var (y, height) :=
      PlaceAxis(area.y, area.height, l.anchor.top, l.anchor.bottom, l.margin.top, l.margin.bottom, l.height);
    Rect(x, y, width, height)
  }

  /** What is left once these have reserved what they reserve. */
  function AreaAfter(full: Rect, layers: seq<LayerState>): Rect {
    if layers == [] then full else
      var last := layers[|layers| - 1];
      var area := AreaAfter(full, layers[..|layers| - 1]);
      if last.exclusiveZone > 0 then Shrink(area, last.anchor, last.exclusiveZone) else area
  }

  /** Where the `i`th of these goes: in what those before it have left, or the whole output if it asks for that. */
  function Within(full: Rect, layers: seq<LayerState>, i: nat): Rect
    requires i < |layers|
  {
    if layers[i].exclusiveZone < 0 then full else AreaAfter(full, layers[..i])
  }

  /** `arrange`. */
  method Arrange(full: Rect, layers: seq<LayerState>) returns (placements: seq<Rect>, usable: Rect)
    ensures usable == AreaAfter(full, layers)
    ensures |placements| == |layers|
    ensures forall i :: 0 <= i < |layers| ==> placements[i] == Place(Within(full, layers, i), layers[i])
  {
    placements, usable := [], full;
    for i := 0 to |layers|
      invariant usable == AreaAfter(full, layers[..i])
      invariant |placements| == i
      invariant forall j :: 0 <= j < i ==> placements[j] == Place(Within(full, layers, j), layers[j])
    {
      var within := if layers[i].exclusiveZone < 0 then full else usable;
      placements := placements + [Place(within, layers[i])];
      assert layers[..i + 1][..i] == layers[..i];
      if layers[i].exclusiveZone > 0 { usable := Shrink(usable, layers[i].anchor, layers[i].exclusiveZone); }
    }
    assert layers[..|layers|] == layers;
  }

  // ----- The room left, all at once -----

  /** How much one surface takes off one edge. */
  function Takes(l: LayerState, e: Edge): nat {
    if l.exclusiveZone > 0 && EdgeOf(l.anchor) == Some(e) then l.exclusiveZone else 0
  }

  function Reserved(layers: seq<LayerState>, e: Edge): nat {
    if layers == [] then 0 else Reserved(layers[..|layers| - 1], e) + Takes(layers[|layers| - 1], e)
  }

  /** The output less the sums reserved on each edge, and nothing where they meet. */
  function Inset(full: Rect, layers: seq<LayerState>): Rect {
    Rect(full.x + Reserved(layers, LeftEdge), full.y + Reserved(layers, TopEdge),
         NoLess(full.width - Reserved(layers, LeftEdge) - Reserved(layers, RightEdge), 0),
         NoLess(full.height - Reserved(layers, TopEdge) - Reserved(layers, BottomEdge), 0))
  }

  /** The walk that shrinks edge by edge comes to the sums per edge. */
  lemma {:induction false} AreaIsInset(full: Rect, layers: seq<LayerState>)
    requires full.width >= 0 && full.height >= 0
    ensures AreaAfter(full, layers) == Inset(full, layers)
  {
    if layers != [] { AreaIsInset(full, layers[..|layers| - 1]); }
  }

  lemma {:induction false} ReservedConcat(a: seq<LayerState>, b: seq<LayerState>, e: Edge)
    ensures Reserved(a + b, e) == Reserved(a, e) + Reserved(b, e)
  {
    if b == [] {
      assert a + b == a;
    } else {
      assert (a + b)[..|a + b| - 1] == a + b[..|b| - 1];
      ReservedConcat(a, b[..|b| - 1], e);
    }
  }

  function Removed(s: seq<LayerState>, i: nat): (r: seq<LayerState>)
    requires i < |s|
    ensures |r| == |s| - 1
  {
    s[..i] + s[i + 1..]
  }

  lemma ReservedWithout(s: seq<LayerState>, i: nat, e: Edge)
    requires i < |s|
    ensures Reserved(s, e) == Reserved(Removed(s, i), e) + Takes(s[i], e)
    ensures multiset(Removed(s, i)) == multiset(s) - multiset{s[i]}
  {
    assert s == s[..i] + [s[i]] + s[i + 1..];
    ReservedConcat(s[..i] + [s[i]], s[i + 1..], e);
    ReservedConcat(s[..i], [s[i]], e);
    ReservedConcat(s[..i], s[i + 1..], e);
    assert Reserved([s[i]], e) == Takes(s[i], e);
  }

  lemma {:induction false} ReservedAnyOrder(a: seq<LayerState>, b: seq<LayerState>, e: Edge)
    requires multiset(a) == multiset(b)
    ensures Reserved(a, e) == Reserved(b, e)
    decreases |a|
  {
    assert |multiset(a)| == |a| && |multiset(b)| == |b|;
    if a != [] {
      assert a[0] in multiset(b);
      var i :| 0 <= i < |b| && b[i] == a[0];
      ReservedWithout(a, 0, e);
      ReservedWithout(b, i, e);
      ReservedAnyOrder(Removed(a, 0), Removed(b, i), e);
    }
  }

  /** However the surfaces are ordered, windows are left the same room. */
  lemma UsableAnyOrder(full: Rect, a: seq<LayerState>, b: seq<LayerState>)
    requires full.width >= 0 && full.height >= 0 && multiset(a) == multiset(b)
    ensures AreaAfter(full, a) == AreaAfter(full, b)
  {
    AreaIsInset(full, a);
    AreaIsInset(full, b);
    ReservedAnyOrder(a, b, TopEdge);
    ReservedAnyOrder(a, b, BottomEdge);
    ReservedAnyOrder(a, b, LeftEdge);
    ReservedAnyOrder(a, b, RightEdge);
  }

  /** Where a surface goes is settled by itself and those before it, and among those by no more than their sums. */
  lemma PlacedByEarlier(full: Rect, a: seq<LayerState>, b: seq<LayerState>, i: nat, j: nat)
    requires full.width >= 0 && full.height >= 0
    requires i < |a| && j < |b| && a[i] == b[j] && multiset(a[..i]) == multiset(b[..j])
    ensures Place(Within(full, a, i), a[i]) == Place(Within(full, b, j), b[j])
  {
    UsableAnyOrder(full, a[..i], b[..j]);
  }

  // ----- Areas as points -----

  predicate Holds(r: Rect, x: int, y: int) { r.x <= x < r.x + r.width && r.y <= y < r.y + r.height }

  ghost predicate Contains(outer: Rect, inner: Rect) { forall x, y :: Holds(inner, x, y) ==> Holds(outer, x, y) }

  ghost predicate Disjoint(a: Rect, b: Rect) { forall x, y :: !(Holds(a, x, y) && Holds(b, x, y)) }

  /** More surfaces leave less room, and never any that was not there. */
  lemma {:induction false} AreasShrink(full: Rect, layers: seq<LayerState>, i: nat, j: nat)
    requires full.width >= 0 && full.height >= 0 && i <= j <= |layers|
    ensures Contains(AreaAfter(full, layers[..i]), AreaAfter(full, layers[..j]))
  {
    AreaIsInset(full, layers[..i]);
    AreaIsInset(full, layers[..j]);
    assert layers[..j] == layers[..i] + layers[i..j];
    ReservedConcat(layers[..i], layers[i..j], TopEdge);
    ReservedConcat(layers[..i], layers[i..j], BottomEdge);
    ReservedConcat(layers[..i], layers[i..j], LeftEdge);
    ReservedConcat(layers[..i], layers[i..j], RightEdge);
  }

  lemma UsableIsOnOutput(full: Rect, layers: seq<LayerState>)
    requires full.width >= 0 && full.height >= 0
    ensures Contains(full, AreaAfter(full, layers))
  {
    AreasShrink(full, layers, 0, |layers|);
    assert layers[..0] == [] && layers[..|layers|] == layers;
  }

  /** How much of an area a surface needs along an axis it is against one edge of. */
  predicate FitsAxis(length: int, near: bool, far: bool, nearMargin: int, farMargin: int, size: int) {
    && (near ==> nearMargin >= 0) && (far ==> farMargin >= 0)
    && NoLess(size, 0) + (if near then nearMargin else 0) + (if far then farMargin else 0) <= length
  }

  predicate Fits(area: Rect, l: LayerState) {
    && FitsAxis(area.width, l.anchor.left, l.anchor.right, l.margin.left, l.margin.right, l.width)
    && FitsAxis(area.height, l.anchor.top, l.anchor.bottom, l.margin.top, l.margin.bottom, l.height)
  }

  /** What fits an area with its margins is placed inside it. */
  lemma PlacedInside(area: Rect, l: LayerState)
    requires Fits(area, l)
    ensures Contains(area, Place(area, l))
  {}

  /** A surface anchored to neither end of an axis, or to both, has as much room on either side, give or take one. */
  lemma PlacedInMiddle(start: int, length: int, near: bool, nearMargin: int, farMargin: int, size: int)
    ensures var (at, extent) := PlaceAxis(start, length, near, near, nearMargin, farMargin, size);
      var from, to := start + (if near then nearMargin else 0), start + length - (if near then farMargin else 0);
      from <= to ==> -1 <= (at - from) - (to - (at + extent)) <= 1
  {}

  /**
   One axis of where a surface goes: against the end it is anchored to, as long as it asks to be; and one that asks
   for nothing fills the room between two ends it is anchored to, and has no length otherwise.
   */
  predicate Lies(from: int, to: int, near: bool, far: bool, nearMargin: int, farMargin: int, size: int, at: int,
                 extent: int) {
    && (near && !far ==> at == from + nearMargin)
    && (far && !near ==> at + extent == to - farMargin)
    && (size > 0 ==> extent == size)
    && (size <= 0 && !(near && far) ==> extent == 0)
    && (size <= 0 && near && far ==>
          if from + nearMargin <= to - farMargin then at == from + nearMargin && at + extent == to - farMargin
          else extent == 0)
  }

  lemma PlacedAlong(area: Rect, l: LayerState)
    ensures var r, right, bottom := Place(area, l), area.x + area.width, area.y + area.height;
      && Lies(area.x, right, l.anchor.left, l.anchor.right, l.margin.left, l.margin.right, l.width, r.x, r.width)
      && Lies(area.y, bottom, l.anchor.top, l.anchor.bottom, l.margin.top, l.margin.bottom, l.height, r.y, r.height)
  {}

  // ----- Bars -----

  /** A bar no deeper, margin included, than the zone it reserves. */
  predicate IsBar(l: LayerState) {
    && l.exclusiveZone > 0
    && match EdgeOf(l.anchor)
       case Some(TopEdge) => NoLess(l.height, 0) + l.margin.top <= l.exclusiveZone
       case Some(BottomEdge) => NoLess(l.height, 0) + l.margin.bottom <= l.exclusiveZone
       case Some(LeftEdge) => NoLess(l.width, 0) + l.margin.left <= l.exclusiveZone
       case Some(RightEdge) => NoLess(l.width, 0) + l.margin.right <= l.exclusiveZone
       case None => false
  }

  /** A bar stands clear of the room it leaves. */
  lemma BarClearsWhatIsLeft(area: Rect, l: LayerState)
    requires IsBar(l) && area.width >= 0 && area.height >= 0
    ensures Disjoint(Place(area, l), Shrink(area, l.anchor, l.exclusiveZone))
  {}

  lemma AreaSize(full: Rect, layers: seq<LayerState>)
    requires full.width >= 0 && full.height >= 0
    ensures AreaAfter(full, layers).width >= 0 && AreaAfter(full, layers).height >= 0
  {
    AreaIsInset(full, layers);
  }

  /** So windows stay off every bar. */
  lemma BarsClearWindows(full: Rect, layers: seq<LayerState>, i: nat)
    requires full.width >= 0 && full.height >= 0 && i < |layers| && IsBar(layers[i])
    ensures Disjoint(Place(Within(full, layers, i), layers[i]), AreaAfter(full, layers))
  {
    BarClearsRest(full, layers, i, |layers|);
    assert layers[..|layers|] == layers;
  }

  /** And so does every surface placed later, if it keeps to what the zones leave and fits it. */
  lemma BarsAreClear(full: Rect, layers: seq<LayerState>, i: nat, j: nat)
    requires full.width >= 0 && full.height >= 0 && i < j < |layers|
    requires IsBar(layers[i]) && layers[j].exclusiveZone >= 0 && Fits(AreaAfter(full, layers[..j]), layers[j])
    ensures Disjoint(Place(Within(full, layers, i), layers[i]), Place(Within(full, layers, j), layers[j]))
  {
    BarClearsRest(full, layers, i, j);
    PlacedInside(AreaAfter(full, layers[..j]), layers[j]);
  }

  lemma BarClearsRest(full: Rect, layers: seq<LayerState>, i: nat, j: nat)
    requires full.width >= 0 && full.height >= 0 && i < j <= |layers| && IsBar(layers[i])
    ensures Disjoint(Place(Within(full, layers, i), layers[i]), AreaAfter(full, layers[..j]))
  {
    AreaSize(full, layers[..i]);
    BarClearsWhatIsLeft(AreaAfter(full, layers[..i]), layers[i]);
    assert layers[..i + 1][..i] == layers[..i];
    AreasShrink(full, layers, i + 1, j);
  }

  // ----- Order -----

  /** A layer surface and the key it is kept under. */
  datatype Entry = Entry(key: Key, layer: LayerState)

  function Rank(b: Band): nat { match b case Background => 0 case Bottom => 1 case Top => 2 case Overlay => 3 }

  /** By band, and by object id within a band. */
  predicate Before(a: Entry, b: Entry) {
    || Rank(a.layer.band) < Rank(b.layer.band)
    || (a.layer.band == b.layer.band
        && (a.key.client < b.key.client || (a.key.client == b.key.client && a.key.id < b.key.id)))
  }

  ghost predicate Sorted(s: seq<Entry>) { forall i, j :: 0 <= i < j < |s| ==> Before(s[i], s[j]) }

  lemma InsertedSorted(s: seq<Entry>, e: Entry, i: nat)
    requires Sorted(s) && i <= |s| && (forall j :: 0 <= j < i ==> Before(s[j], e)) && (i < |s| ==> Before(e, s[i]))
    ensures Sorted(s[..i] + [e] + s[i..]) && multiset(s[..i] + [e] + s[i..]) == multiset(s) + multiset{e}
  {
    assert s == s[..i] + s[i..];
  }

  /** An entry put where it belongs among what is already sorted. */
  method InsertSorted(s: seq<Entry>, e: Entry) returns (r: seq<Entry>)
    requires Sorted(s) && forall x :: x in s ==> x.key != e.key
    ensures Sorted(r) && multiset(r) == multiset(s) + multiset{e}
  {
    var i := 0;
    while i < |s| && Before(s[i], e)
      invariant 0 <= i <= |s|
      invariant forall j :: 0 <= j < i ==> Before(s[j], e)
    {
      i := i + 1;
    }
    r := s[..i] + [e] + s[i..];
    assert i < |s| ==> s[i] in s;
    InsertedSorted(s, e, i);
  }

  ghost predicate KeysApart(s: seq<Entry>) { forall i, j :: 0 <= i < j < |s| ==> s[i].key != s[j].key }

  /** `ordered_for_output`, of entries as they come out of the map. */
  method OrderedForOutput(found: seq<Entry>) returns (ordered: seq<Entry>)
    requires KeysApart(found)
    ensures Sorted(ordered) && multiset(ordered) == multiset(found)
  {
    ordered := [];
    for i := 0 to |found|
      invariant Sorted(ordered) && multiset(ordered) == multiset(found[..i])
    {
      forall x | x in ordered ensures x.key != found[i].key {
        assert x in multiset(found[..i]);
      }
      ordered := InsertSorted(ordered, found[i]);
      assert found[..i + 1] == found[..i] + [found[i]];
    }
    assert found[..|found|] == found;
  }

  lemma LeastIsFirst(s: seq<Entry>, x: Entry)
    requires Sorted(s) && x in s && x != s[0]
    ensures Before(s[0], x)
  {}

  lemma FirstIsSame(a: seq<Entry>, b: seq<Entry>)
    requires Sorted(a) && Sorted(b) && multiset(a) == multiset(b) && a != [] && b != []
    ensures a[0] == b[0]
  {
    var x, y := a[0], b[0];
    assert x in multiset(b) && y in multiset(a);
    if x != y {
      LeastIsFirst(a, y);
      LeastIsFirst(b, x);
    }
  }

  lemma RestIsSame<T>(a: seq<T>, b: seq<T>)
    requires multiset(a) == multiset(b) && a != [] && b != [] && a[0] == b[0]
    ensures multiset(a[1..]) == multiset(b[1..])
  {
    assert a == [a[0]] + a[1..] && b == [b[0]] + b[1..];
    assert multiset(a[1..]) == multiset(a) - multiset{a[0]};
    assert multiset(b[1..]) == multiset(b) - multiset{b[0]};
  }

  /** There is only one order to come to, so one hash map's order and another's draw the same desktop. */
  lemma {:induction false} OrderIsUnique(a: seq<Entry>, b: seq<Entry>)
    requires Sorted(a) && Sorted(b) && multiset(a) == multiset(b)
    ensures a == b
    decreases |a|
  {
    assert |multiset(a)| == |a| && |multiset(b)| == |b|;
    if a != [] {
      FirstIsSame(a, b);
      RestIsSame(a, b);
      OrderIsUnique(a[1..], b[1..]);
      assert a == [a[0]] + a[1..] && b == [b[0]] + b[1..];
    }
  }

  predicate AboveWindows(b: Band) { b.Top? || b.Overlay? }

  /** `keys_in_band`, of the entries in order. */
  function InBand(s: seq<Entry>, above: bool): seq<Key> {
    if s == [] then []
    else (if AboveWindows(s[0].layer.band) == above then [s[0].key] else []) + InBand(s[1..], above)
  }

  function KeysOf(s: seq<Entry>): seq<Key> { seq(|s|, i requires 0 <= i < |s| => s[i].key) }

  /** What is under the windows and what is over them are the two ends of the one order. */
  lemma {:induction false} BandsSplitOrder(s: seq<Entry>)
    requires Sorted(s)
    ensures InBand(s, false) + InBand(s, true) == KeysOf(s)
  {
    if s != [] {
      BandsSplitOrder(s[1..]);
      assert KeysOf(s) == [s[0].key] + KeysOf(s[1..]);
      if AboveWindows(s[0].layer.band) {
        assert forall i :: 1 <= i < |s| ==> Before(s[0], s[i]);
        NoneBelow(s[1..]);
      }
    }
  }

  lemma {:induction false} NoneBelow(s: seq<Entry>)
    requires forall i :: 0 <= i < |s| ==> AboveWindows(s[i].layer.band)
    ensures InBand(s, false) == []
  {
    if s != [] { NoneBelow(s[1..]); }
  }
}
