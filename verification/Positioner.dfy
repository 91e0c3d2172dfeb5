/** Where a popup goes: off an anchor, and then adjusted axis by axis to stay in view. */
module Positioner {
  import opened Base
  import opened Surfaces

  /** One axis of an anchor or a gravity: toward the origin, away from it, or neither. */
  datatype Side = Near | Middle | Far

  /** An anchor or gravity, each of which names a side of each axis. */
  datatype Corner = Corner(across: Side, down: Side)

  datatype Adjustment = Adjustment(flipX: bool, flipY: bool, slideX: bool, slideY: bool, resizeX: bool, resizeY: bool)

  datatype Positioner = Positioner(
    width: I32, height: I32, anchorRect: Rect, anchor: Corner, gravity: Corner, offset: Point, adjust: Adjustment)

  function SatSub(a: int, b: int): I32 { Clamp(a - b, I32_MIN, I32_MAX) }

  function Lesser(a: int, b: int): int { if a < b then a else b }

  function Greater(a: int, b: int): int { if a < b then b else a }

  // ----- One axis -----

  /** `unconstrained`, on one axis. */
  function Hang(anchor: Side, gravity: Side, start: int, length: int, size: int, offset: int): I32 {
    var point := match anchor
      case Near => start
      case Far => SatAdd(start, length)
      case Middle => SatAdd(start, Half(length));
    var at := match gravity
      case Near => SatSub(point, size)
      case Far => point
      case Middle => SatSub(point, Half(size));
    SatAdd(at, offset)
  }

  function Flip(s: Side): Side { match s case Near => Far case Far => Near case Middle => Middle }

  predicate Fits(start: int, size: int, origin: int, extent: int) {
    start >= origin && SatAdd(start, size) <= SatAdd(origin, extent)
  }

  function Slide(start: int, size: int, origin: int, extent: int): int {
    Greater(Lesser(start, SatSub(SatAdd(origin, extent), size)), origin)
  }

  function Shrink(start: int, size: int, origin: int, extent: int): (int, int) {
    var from := Greater(start, origin);
    (from, Greater(Lesser(size, SatSub(SatAdd(origin, extent), from)), 1))
  }

  /** What becomes of one axis: flipped if that helps, then slid, then cut down. */
  function Settle(start: int, flipped: int, size: int, origin: int, extent: int, flip: bool, slide: bool,
                  resize: bool): (int, int) {
    var turns := flip && !Fits(start, size, origin, extent) && Fits(flipped, size, origin, extent);
    var a := if turns then flipped else start;
    var b := if slide && !Fits(a, size, origin, extent) then Slide(a, size, origin, extent) else a;
    if resize && !Fits(b, size, origin, extent) then Shrink(b, size, origin, extent) else (b, size)
  }

  function Across(p: Positioner, flip: bool): int {
    Hang(if flip then Flip(p.anchor.across) else p.anchor.across,
         if flip then Flip(p.gravity.across) else p.gravity.across,
         p.anchorRect.x, p.anchorRect.width, p.width, p.offset.x)
  }

  function Down(p: Positioner, flip: bool): int {
    Hang(if flip then Flip(p.anchor.down) else p.anchor.down, if flip then Flip(p.gravity.down) else p.gravity.down,
         p.anchorRect.y, p.anchorRect.height, p.height, p.offset.y)
  }

  /** `place`: the two axes taken in turns, and neither in the other's way. */
  method Place(p: Positioner, available: Option<Rect>) returns (x: int, y: int, width: int, height: int)
    ensures available.None? ==> (x, width) == (Across(p, false), p.width) && (y, height) == (Down(p, false), p.height)
    ensures available.Some? ==> var area := available.value;
      && (x, width) == Settle(Across(p, false), Across(p, true), p.width, area.x, area.width, p.adjust.flipX,
           p.adjust.slideX, p.adjust.resizeX)
      && (y, height) == Settle(Down(p, false), Down(p, true), p.height, area.y, area.height, p.adjust.flipY,
           p.adjust.slideY, p.adjust.resizeY)
  {
    x, y := Across(p, false), Down(p, false);
    width, height := p.width, p.height;
    if available.None? { return; }
    var area := available.value;
    if p.adjust.flipX && !Fits(x, width, area.x, area.width) {
      var flipped := Across(p, true);
      if Fits(flipped, width, area.x, area.width) { x := flipped; }
    }
    if p.adjust.flipY && !Fits(y, height, area.y, area.height) {
      var flipped := Down(p, true);
      if Fits(flipped, height, area.y, area.height) { y := flipped; }
    }
    if p.adjust.slideX && !Fits(x, width, area.x, area.width) { x := Slide(x, width, area.x, area.width); }
    if p.adjust.slideY && !Fits(y, height, area.y, area.height) { y := Slide(y, height, area.y, area.height); }
    if p.adjust.resizeX && !Fits(x, width, area.x, area.width) {
      var cut := Shrink(x, width, area.x, area.width);
      x, width := cut.0, cut.1;
    }
    if p.adjust.resizeY && !Fits(y, height, area.y, area.height) {
      var cut := Shrink(y, height, area.y, area.height);
      y, height := cut.0, cut.1;
    }
  }

  // ----- What the adjustments come to -----

  /** An area that ends within the range of an `i32` and short of its top, which saturated sums come to. */
  predicate InRange(origin: int, extent: int) {
    I32_MIN <= origin <= I32_MAX && I32_MIN <= origin + extent < I32_MAX
  }

  /** A popup that fits where it hangs is left alone, whatever may be adjusted. */
  lemma FittingIsLeft(start: int, flipped: int, size: int, origin: int, extent: int, flip: bool, slide: bool,
                      resize: bool)
    requires Fits(start, size, origin, extent)
    ensures Settle(start, flipped, size, origin, extent, flip, slide, resize) == (start, size)
  {}

  /** Free to slide and be resized, a popup ends up in view exactly when there is a pixel of room. */
  lemma SlideAndResizeFit(start: I32, flipped: I32, size: I32, origin: I32, extent: I32, flip: bool)
    requires size >= 1 && InRange(origin, extent)
    ensures var (at, cut) := Settle(start, flipped, size, origin, extent, flip, true, true);
      (origin <= at && at + cut <= origin + extent) <==> extent >= 1
  {}

  /** Free only to slide, it does exactly when it is no larger than the room. */
  lemma SlideFits(start: I32, flipped: I32, size: I32, origin: I32, extent: I32, flip: bool)
    requires size >= 1 && InRange(origin, extent)
    ensures var (at, cut) := Settle(start, flipped, size, origin, extent, flip, true, false);
      cut == size && ((origin <= at && at + cut <= origin + extent) <==> size <= extent)
  {}

  function Distance(a: int, b: int): nat { if a < b then b - a else a - b }

  /** Sliding goes no further than it must. */
  lemma SlideIsNearest(start: I32, size: I32, origin: I32, extent: I32, other: int)
    requires 1 <= size <= extent && InRange(origin, extent) && origin <= other && other + size <= origin + extent
    ensures Distance(start, Slide(start, size, origin, extent)) <= Distance(start, other)
  {}

  /** A popup cut down keeps all of itself that was in view. */
  lemma ResizeKeepsVisible(start: I32, size: I32, origin: I32, extent: I32, x: int)
    requires size >= 1 && extent >= 1 && InRange(origin, extent) && start < origin + extent && start + size > origin
    requires start <= x < start + size && origin <= x < origin + extent
    ensures var (at, cut) := Shrink(start, size, origin, extent); at <= x < at + cut
  {}

  predicate IsI32(x: int) { I32_MIN <= x <= I32_MAX }

  /** Where a popup hangs, reckoned with no limit. */
  function Pinned(anchor: Side, start: int, length: int): int {
    match anchor case Near => start case Far => start + length case Middle => start + Half(length)
  }

  function Hung(anchor: Side, gravity: Side, start: int, length: int, size: int): int {
    Pinned(anchor, start, length) - (match gravity case Near => size case Far => 0 case Middle => Half(size))
  }

  /** None of the sums on the way saturates. */
  predicate Unclamped(anchor: Side, gravity: Side, start: int, length: int, size: int, offset: int) {
    && IsI32(Pinned(anchor, start, length))
    && IsI32(Hung(anchor, gravity, start, length, size))
    && IsI32(Hung(anchor, gravity, start, length, size) + offset)
  }

  /** What halving toward zero leaves over. */
  function Odd(x: int): int { x - 2 * Half(x) }

  /**
   Flipping is a reflection in the middle of the anchor rectangle, carried along by the offset, which is not
   reflected, and by the pixel that halving an odd length or size leaves over.
   */
  lemma FlipReflects(anchor: Side, gravity: Side, start: int, length: int, size: int, offset: int)
    requires Unclamped(anchor, gravity, start, length, size, offset)
    requires Unclamped(Flip(anchor), Flip(gravity), start, length, size, offset)
    ensures var at := Hang(anchor, gravity, start, length, size, offset);
      var flipped := Hang(Flip(anchor), Flip(gravity), start, length, size, offset);
      flipped - start == start + length - (at + size) + 2 * offset
        - (if anchor.Middle? then Odd(length) else 0) + (if gravity.Middle? then Odd(size) else 0)
  {
    assert Hang(anchor, gravity, start, length, size, offset)
        == Hung(anchor, gravity, start, length, size) + offset;
    assert Hang(Flip(anchor), Flip(gravity), start, length, size, offset)
        == Hung(Flip(anchor), Flip(gravity), start, length, size) + offset;
  }

  /** On one axis: the edge or the middle of a popup that its gravity keeps at a point, kept there. */
  predicate Hangs(at: int, size: int, gravity: Side, point: int) {
    match gravity case Near => at + size == point case Far => at == point case Middle => at + Half(size) == point
  }

  function Turned(s: Side, flip: bool): Side { if flip then Flip(s) else s }

  /** A popup hangs off the point of its anchor rectangle its anchor names, across and down alike, flipped or not. */
  lemma HangsOffAnchor(p: Positioner, flip: bool)
    requires Unclamped(Turned(p.anchor.across, flip), Turned(p.gravity.across, flip), p.anchorRect.x,
                       p.anchorRect.width, p.width, p.offset.x)
    requires Unclamped(Turned(p.anchor.down, flip), Turned(p.gravity.down, flip), p.anchorRect.y,
                       p.anchorRect.height, p.height, p.offset.y)
    ensures Hangs(Across(p, flip), p.width, Turned(p.gravity.across, flip),
                  Pinned(Turned(p.anchor.across, flip), p.anchorRect.x, p.anchorRect.width) + p.offset.x)
    ensures Hangs(Down(p, flip), p.height, Turned(p.gravity.down, flip),
                  Pinned(Turned(p.anchor.down, flip), p.anchorRect.y, p.anchorRect.height) + p.offset.y)
  {}

  /** A flip is made exactly when it is allowed, the popup does not fit as it is, and it would fit flipped. */
  lemma FlipsIfItHelps(start: int, flipped: int, size: int, origin: int, extent: int, flip: bool, slide: bool,
                       resize: bool)
    ensures Settle(start, flipped, size, origin, extent, flip, slide, resize) ==
      if flip && !Fits(start, size, origin, extent) && Fits(flipped, size, origin, extent) then (flipped, size)
      else Settle(start, start, size, origin, extent, false, slide, resize)
    ensures Settle(start, start, size, origin, extent, false, false, false) == (start, size)
  {}
}
