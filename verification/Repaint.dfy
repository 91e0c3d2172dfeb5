/** What a scene looks like, what two scenes differ in, and repainting no more than that. */
module Repaint {
  import opened Base
  import opened Surfaces

  // ----- Elements -----

  /** A rectangle in logical pixels, as fractional as surfaces scaled and animated make it. */
  datatype Span = Span(x: real, y: real, width: real, height: real)

  /** `pixels` is what the texture holds when it is drawn, which nothing here looks at. */
  datatype Image = Image(id: nat, serial: nat, pixels: nat)

  datatype Content =
    | Texture(image: Image, src: Span, turn: nat)
    | Fill(color: nat)
    | Group(members: nat)

  datatype Element = Element(content: Content, dst: Span, transform: nat, effect: Option<nat>, alpha: real,
    opaqueQuad: bool)

  datatype Scene = Scene(serial: nat, elements: seq<Element>, damageFrom: Option<nat>, damage: seq<Rect>)

  /** `same_content`: a group is never taken to be the one before. */
  predicate SameContent(a: Content, b: Content) {
    match (a, b)
    case (Texture(ia, sa, ta), Texture(ib, sb, tb)) => ia.id == ib.id && ia.serial == ib.serial && ta == tb && sa == sb
    case (Fill(ca), Fill(cb)) => ca == cb
    case _ => false
  }

  /** `same_element`. */
  predicate SameElement(a: Element, b: Element) {
    && a.opaqueQuad == b.opaqueQuad && a.alpha == b.alpha && a.dst == b.dst
    && a.transform == b.transform && a.effect == b.effect && SameContent(a.content, b.content)
  }

  /** Two elements told apart by nothing but what their textures hold. */
  predicate OnlyPixelsDiffer(a: Element, b: Element) {
    && a.content.Texture? && b.content.Texture? && a != b
    && b == a.(content := a.content.(image := a.content.image.(pixels := b.content.image.pixels)))
  }

  predicate Unchanged(a: Element, b: Element) { (a == b && !a.content.Group?) || OnlyPixelsDiffer(a, b) }

  /** What is taken to be unchanged: every element but a group that is as it was, or as it was but for its pixels. */
  lemma SameElementExactly(a: Element, b: Element)
    ensures SameElement(a, b) <==> Unchanged(a, b)
  {
    if a.content.Texture? && b.content.Texture? && SameContent(a.content, b.content) {
      assert b.content == a.content.(image := a.content.image.(pixels := b.content.image.pixels));
    }
  }

  // ----- Bounds -----

  function Ceil(r: real): int { -(-r).Floor }

  /** The range of `i32`, which a coordinate outside saturates to. */
  function ToI32(x: int): int { Clamp(x, I32_MIN, I32_MAX) }

  function BoundingRect(dst: Span): Rect {
    var left, top := dst.x.Floor, dst.y.Floor;
    var right, bottom := Ceil(dst.x + dst.width), Ceil(dst.y + dst.height);
    Rect(ToI32(left), ToI32(top), ToI32(right - left), ToI32(bottom - top))
  }

  /** Coordinates no conversion saturates. */
  predicate Bounded(dst: Span) {
    && -1073741824.0 <= dst.x <= dst.x + dst.width <= 1073741823.0
    && -1073741824.0 <= dst.y <= dst.y + dst.height <= 1073741823.0
  }

  predicate Within(r: Rect, x: int, y: int) {
    r.x <= x < r.x + r.width && r.y <= y < r.y + r.height
  }

  predicate Covered(rects: seq<Rect>, x: int, y: int) {
    exists i :: 0 <= i < |rects| && Within(rects[i], x, y)
  }

  /** Whether a quad overlaps any of the pixel at (x, y). */
  predicate Touches(dst: Span, x: int, y: int) {
    && dst.x < x as real + 1.0 && x as real < dst.x + dst.width
    && dst.y < y as real + 1.0 && y as real < dst.y + dst.height
  }

  /** Rounded outward, the rectangle takes in every pixel the quad overlaps, however little. */
  lemma BoundsCover(dst: Span, x: int, y: int)
    requires Bounded(dst) && Touches(dst, x, y)
    ensures Within(BoundingRect(dst), x, y)
  {}

  /** And no further: each of its four edges is within a pixel of the quad's. */
  lemma BoundsAreTight(dst: Span)
    requires Bounded(dst)
    ensures var r := BoundingRect(dst);
      && dst.x - 1.0 < r.x as real <= dst.x && dst.x + dst.width <= (r.x + r.width) as real < dst.x + dst.width + 1.0
      && dst.y - 1.0 < r.y as real <= dst.y && dst.y + dst.height <= (r.y + r.height) as real < dst.y + dst.height + 1.0
  {}

  // ----- Painting -----

  type Color = nat

  /** How an element changes the pixel under it. */
  type Painter = (Element, int, int, Color) -> Color

  /** An element changes only pixels its quad overlaps. Nothing else is asked of painting. */
  ghost predicate Proper(paint: Painter) {
    forall e: Element, x: int, y: int, c: Color :: !Touches(e.dst, x, y) ==> paint(e, x, y, c) == c
  }

  /** One pixel of a scene: every element over the one before it, and all over the background. */
  function Pixel(paint: Painter, background: Color, elements: seq<Element>, x: int, y: int): Color {
    if elements == [] then background
    else paint(elements[|elements| - 1], x, y, Pixel(paint, background, elements[..|elements| - 1], x, y))
  }

  // ----- Damage -----

  predicate SameSlot(a: seq<Element>, b: seq<Element>, i: nat) {
    i < |a| && i < |b| && SameElement(a[i], b[i])
  }

  function SlotDamage(a: seq<Element>, b: seq<Element>, i: nat): seq<Rect> {
    if SameSlot(a, b, i) then []
    else
      (if i < |a| then [BoundingRect(a[i].dst)] else [])
      + (if i < |b| && !(i < |a| && BoundingRect(a[i].dst) == BoundingRect(b[i].dst)) then [BoundingRect(b[i].dst)]
        else [])
  }

  /** The damage of the first `n` slots. */
  function Damage(a: seq<Element>, b: seq<Element>, n: nat): seq<Rect> {
    if n == 0 then [] else Damage(a, b, n - 1) + SlotDamage(a, b, n - 1)
  }

  function Max(a: nat, b: nat): nat { if a < b then b else a }

  function AllDamage(a: seq<Element>, b: seq<Element>): seq<Rect> { Damage(a, b, Max(|a|, |b|)) }

  /** `output_damage`. */
  method OutputDamage(before: seq<Element>, after: seq<Element>) returns (rects: seq<Rect>)
    ensures rects == AllDamage(before, after)
  {
    rects := [];
    for i := 0 to Max(|before|, |after|)
      invariant rects == Damage(before, after, i)
    {
      if i < |before| && i < |after| && SameElement(before[i], after[i]) { continue; }
      var had: Option<Rect> := if i < |before| then Some(BoundingRect(before[i].dst)) else None;
      if had.Some? { rects := rects + [had.value]; }
      if i < |after| {
        var has := BoundingRect(after[i].dst);
        if had != Some(has) { rects := rects + [has]; }
      }
    }
  }

  lemma CoveredConcat(a: seq<Rect>, b: seq<Rect>, x: int, y: int)
    ensures Covered(a + b, x, y) <==> Covered(a, x, y) || Covered(b, x, y)
  {
    if Covered(a, x, y) {
      var i :| 0 <= i < |a| && Within(a[i], x, y);
      assert (a + b)[i] == a[i];
    }
    if Covered(b, x, y) {
      var i :| 0 <= i < |b| && Within(b[i], x, y);
      assert (a + b)[|a| + i] == b[i];
    }
  }

  /** A slot that holds what it did not, and covers the pixel as it was or as it is. */
  predicate SlotCovers(a: seq<Element>, b: seq<Element>, i: nat, x: int, y: int) {
    && !(i < |a| && i < |b| && Unchanged(a[i], b[i]))
    && ((i < |a| && Within(BoundingRect(a[i].dst), x, y)) || (i < |b| && Within(BoundingRect(b[i].dst), x, y)))
  }

  ghost predicate SomeSlotCovers(a: seq<Element>, b: seq<Element>, n: nat, x: int, y: int) {
    exists i: nat :: i < n && SlotCovers(a, b, i, x, y)
  }

  lemma OneMoreSlot(a: seq<Element>, b: seq<Element>, n: nat, x: int, y: int)
    ensures SomeSlotCovers(a, b, n + 1, x, y) <==> SomeSlotCovers(a, b, n, x, y) || SlotCovers(a, b, n, x, y)
  {}

  /** A pixel is damaged exactly when a slot that changed covers it, as it was or as it is. */
  lemma {:induction false} DamageExactly(a: seq<Element>, b: seq<Element>, n: nat, x: int, y: int)
    ensures Covered(Damage(a, b, n), x, y) <==> SomeSlotCovers(a, b, n, x, y)
  {
    if n > 0 {
      DamageExactly(a, b, n - 1, x, y);
      OneMoreDamaged(a, b, n - 1, x, y);
      OneMoreSlot(a, b, n - 1, x, y);
    }
  }

  lemma OneMoreDamaged(a: seq<Element>, b: seq<Element>, n: nat, x: int, y: int)
    ensures Covered(Damage(a, b, n + 1), x, y) <==> Covered(Damage(a, b, n), x, y) || SlotCovers(a, b, n, x, y)
  {
    CoveredConcat(Damage(a, b, n), SlotDamage(a, b, n), x, y);
    SlotExactly(a, b, n, x, y);
  }

  lemma SlotExactly(a: seq<Element>, b: seq<Element>, i: nat, x: int, y: int)
    ensures Covered(SlotDamage(a, b, i), x, y) <==> SlotCovers(a, b, i, x, y)
  {
    var d := SlotDamage(a, b, i);
    if i < |a| && i < |b| { SameElementExactly(a[i], b[i]); }
    if SlotCovers(a, b, i, x, y) {
      if i < |a| && Within(BoundingRect(a[i].dst), x, y) {
        assert Within(d[0], x, y);
      } else {
        assert Within(d[|d| - 1], x, y);
      }
    }
  }

  ghost predicate AllBounded(elements: seq<Element>) {
    forall i :: 0 <= i < |elements| ==> Bounded(elements[i].dst)
  }

  function FirstOf(elements: seq<Element>, n: nat): seq<Element> { if n < |elements| then elements[..n] else elements }

  /** Some slot at this pixel holds what it held, redrawn under the serial it had. */
  ghost predicate RedrawnUnseen(a: seq<Element>, b: seq<Element>, x: int, y: int) {
    exists i :: 0 <= i < |a| && RedrawnSlot(a, b, i, x, y)
  }

  predicate RedrawnSlot(a: seq<Element>, b: seq<Element>, i: nat, x: int, y: int) {
    i < |a| && i < |b| && OnlyPixelsDiffer(a[i], b[i]) && Touches(a[i].dst, x, y)
  }

  /** A slot holds what it held, or nothing at this pixel before or after. */
  predicate QuietSlot(a: seq<Element>, b: seq<Element>, i: nat, x: int, y: int) {
    || (i < |a| && i < |b| && a[i] == b[i])
    || ((i < |a| ==> !Touches(a[i].dst, x, y)) && (i < |b| ==> !Touches(b[i].dst, x, y)))
  }

  /** So it is with every slot outside the damage that is not redrawn unseen. */
  lemma SlotAgrees(a: seq<Element>, b: seq<Element>, i: nat, x: int, y: int)
    requires AllBounded(a) && AllBounded(b) && i < Max(|a|, |b|)
    requires !Covered(AllDamage(a, b), x, y) && !RedrawnSlot(a, b, i, x, y)
    ensures QuietSlot(a, b, i, x, y)
  {
    DamageExactly(a, b, Max(|a|, |b|), x, y);
    assert !SlotCovers(a, b, i, x, y);
    if i < |a| && Touches(a[i].dst, x, y) { BoundsCover(a[i].dst, x, y); }
    if i < |b| && Touches(b[i].dst, x, y) { BoundsCover(b[i].dst, x, y); }
  }

  /** What the first `n` slots of a scene make of a pixel, from what those before made of it. */
  function Over(paint: Painter, a: seq<Element>, n: nat, x: int, y: int, under: Color): Color
    requires n > 0
  {
    if n <= |a| then paint(a[n - 1], x, y, under) else under
  }

  lemma QuietPaints(paint: Painter, a: seq<Element>, b: seq<Element>, n: nat, x: int, y: int, c: Color)
    requires Proper(paint) && n > 0 && QuietSlot(a, b, n - 1, x, y)
    ensures Over(paint, a, n, x, y, c) == Over(paint, b, n, x, y, c)
  {}

  /** Outside the damage, the first `n` slots of either scene come to the same colour. */
  lemma {:induction false} SlotsAgree(paint: Painter, background: Color, a: seq<Element>, b: seq<Element>, n: nat,
                                      x: int, y: int)
    requires Proper(paint) && n <= Max(|a|, |b|)
    requires forall i: nat :: i < n ==> QuietSlot(a, b, i, x, y)
    ensures Pixel(paint, background, FirstOf(a, n), x, y) == Pixel(paint, background, FirstOf(b, n), x, y)
  {
    if n > 0 {
      SlotsAgree(paint, background, a, b, n - 1, x, y);
      PixelStep(paint, background, a, n, x, y);
      PixelStep(paint, background, b, n, x, y);
      QuietPaints(paint, a, b, n, x, y, Pixel(paint, background, FirstOf(a, n - 1), x, y));
    }
  }

  lemma PixelStep(paint: Painter, background: Color, a: seq<Element>, n: nat, x: int, y: int)
    requires n > 0
    ensures var under := Pixel(paint, background, FirstOf(a, n - 1), x, y);
      Pixel(paint, background, FirstOf(a, n), x, y) == Over(paint, a, n, x, y, under)
  {
    if n <= |a| {
      assert FirstOf(a, n)[..n - 1] == FirstOf(a, n - 1);
    }
  }

  /** Every pixel two scenes differ in is damaged, unless it shows a texture redrawn under the serial it had. */
  lemma DamageCoversDifference(paint: Painter, background: Color, a: seq<Element>, b: seq<Element>, x: int, y: int)
    requires Proper(paint) && AllBounded(a) && AllBounded(b)
    requires Pixel(paint, background, a, x, y) != Pixel(paint, background, b, x, y)
    ensures Covered(AllDamage(a, b), x, y) || RedrawnUnseen(a, b, x, y)
  {
    assert FirstOf(a, Max(|a|, |b|)) == a && FirstOf(b, Max(|a|, |b|)) == b;
    if !Covered(AllDamage(a, b), x, y) && !RedrawnUnseen(a, b, x, y) {
      forall i: nat | i < Max(|a|, |b|) ensures QuietSlot(a, b, i, x, y) { SlotAgrees(a, b, i, x, y); }
      SlotsAgree(paint, background, a, b, Max(|a|, |b|), x, y);
    }
  }

  // ----- When the damage is enough -----

  /** A painter that shows which of two elements it met, and everything under them. */
  function Telling(a: Element, b: Element): Painter {
    (e: Element, x: int, y: int, c: Color) =>
      if !Touches(e.dst, x, y) then c else 3 * c + (if e == a then 0 else if e == b then 1 else 2)
  }

  lemma TellsSlot(p: Element, q: Element, a: seq<Element>, b: seq<Element>, n: nat, x: int, y: int, c: Color, d: Color)
    requires n > 0 && QuietSlot(a, b, n - 1, x, y) && c != d
    ensures Over(Telling(p, q), a, n, x, y, c) != Over(Telling(p, q), b, n, x, y, d)
  {}

  /** From a slot redrawn unseen upward, the two scenes come to different colours. */
  lemma {:induction false} TellingTells(a: seq<Element>, b: seq<Element>, i: nat, n: nat, x: int, y: int)
    requires i < n <= Max(|a|, |b|) && RedrawnSlot(a, b, i, x, y)
    requires forall j: nat :: i < j < n ==> QuietSlot(a, b, j, x, y)
    ensures var paint := Telling(a[i], b[i]);
      Pixel(paint, 0, FirstOf(a, n), x, y) != Pixel(paint, 0, FirstOf(b, n), x, y)
  {
    var paint := Telling(a[i], b[i]);
    PixelStep(paint, 0, a, n, x, y);
    PixelStep(paint, 0, b, n, x, y);
    var c, d := Pixel(paint, 0, FirstOf(a, n - 1), x, y), Pixel(paint, 0, FirstOf(b, n - 1), x, y);
    if n > i + 1 {
      TellingTells(a, b, i, n - 1, x, y);
      TellsSlot(a[i], b[i], a, b, n, x, y, c, d);
    } else {
      assert Over(paint, a, n, x, y, c) == 3 * c && Over(paint, b, n, x, y, d) == 3 * d + 1;
    }
  }

  lemma {:induction false} LastRedrawn(a: seq<Element>, b: seq<Element>, n: nat, x: int, y: int) returns (i: nat)
    requires n <= |a| && exists j :: 0 <= j < n && RedrawnSlot(a, b, j, x, y)
    ensures i < n && RedrawnSlot(a, b, i, x, y) && forall j :: i < j < n ==> !RedrawnSlot(a, b, j, x, y)
  {
    i := n - 1;
    if !RedrawnSlot(a, b, n - 1, x, y) { i := LastRedrawn(a, b, n - 1, x, y); }
  }

  /** Whatever way of painting there is, a pixel it makes differ is damaged. */
  ghost predicate AlwaysCovered(a: seq<Element>, b: seq<Element>, x: int, y: int) {
    forall paint: Painter, background: Color
      | Proper(paint) && Pixel(paint, background, a, x, y) != Pixel(paint, background, b, x, y) ::
      Covered(AllDamage(a, b), x, y)
  }

  /** So damage is enough at a pixel exactly when it takes it in, or nothing there is redrawn under an old serial. */
  lemma EnoughExactly(a: seq<Element>, b: seq<Element>, x: int, y: int)
    requires AllBounded(a) && AllBounded(b)
    ensures AlwaysCovered(a, b, x, y) <==> Covered(AllDamage(a, b), x, y) || !RedrawnUnseen(a, b, x, y)
  {
    if !Covered(AllDamage(a, b), x, y) && RedrawnUnseen(a, b, x, y) {
      var i := LastRedrawn(a, b, |a|, x, y);
      forall j: nat | i < j < Max(|a|, |b|) ensures QuietSlot(a, b, j, x, y) { SlotAgrees(a, b, j, x, y); }
      TellingTells(a, b, i, Max(|a|, |b|), x, y);
      assert Proper(Telling(a[i], b[i]));
      assert FirstOf(a, Max(|a|, |b|)) == a && FirstOf(b, Max(|a|, |b|)) == b;
    } else if !RedrawnUnseen(a, b, x, y) {
      forall paint: Painter, background: Color | Proper(paint)
        && Pixel(paint, background, a, x, y) != Pixel(paint, background, b, x, y)
        ensures Covered(AllDamage(a, b), x, y)
      {
        DamageCoversDifference(paint, background, a, b, x, y);
      }
    }
  }
}
