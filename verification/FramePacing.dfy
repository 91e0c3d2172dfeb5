/**
 Frames: what is composed when, what is published, and a backend that draws any of it, repainting
 only the damage where it may. The screen shows the whole of the scene drawn, every time.
 */
module FramePacing {
  import opened Base
  import opened Surfaces
  import opened Repaint

  /** A scene and the output it was composed for. */
  datatype Publication = Publication(output: nat, scene: Scene)

  /** The pacer's state. `history` is every scene it has ever composed, by serial. */
  datatype Pacer = Pacer(
    published: map<nat, Scene>, stale: set<nat>, waiting: set<nat>, nextSerial: nat, history: map<nat, Publication>)

  const NEW_PACER: Pacer := Pacer(map[], {}, {}, 1, map[])

  /** What each output shows now. */
  type Contents = map<nat, seq<Element>>

  function ContentOf(c: Contents, o: nat): seq<Element> { if o in c then c[o] else [] }

  function ComposeScene(p: Pacer, c: Contents, o: nat): Scene {
    if o in p.published
    then Scene(p.nextSerial, ContentOf(c, o), Some(p.published[o].serial),
      AllDamage(p.published[o].elements, ContentOf(c, o)))
    else Scene(p.nextSerial, ContentOf(c, o), None, [])
  }

  function ComposeOne(p: Pacer, c: Contents, o: nat): Pacer {
    var scene := ComposeScene(p, c, o);
    Pacer(p.published[o := scene], p.stale - {o}, p.waiting - {o}, p.nextSerial + 1,
          p.history[p.nextSerial := Publication(o, scene)])
  }

  function ComposeAll(p: Pacer, c: Contents, order: seq<nat>): Pacer {
    if order == [] then p
    else ComposeOne(ComposeAll(p, c, order[..|order| - 1]), c, order[|order| - 1])
  }

  function Invalidated(p: Pacer, outputs: set<nat>): Pacer { p.(stale := p.stale + outputs) }

  /** The outputs owed a scene: out of date, and with somebody asking. */
  function Due(p: Pacer): set<nat> { p.stale * p.waiting }

  function Forgotten(p: Pacer, outputs: set<nat>): Pacer {
    p.(published := map o | o in p.published && o in outputs :: p.published[o],
       stale := p.stale * outputs, waiting := p.waiting * outputs)
  }

  ghost predicate Lists(order: seq<nat>, members: set<nat>) {
    Distinct(order) && forall o :: o in order <==> o in members
  }

  class FramePacer {
    var published: map<nat, Scene>
    var stale: set<nat>
    var waiting: set<nat>
    var nextSerial: nat
    ghost var history: map<nat, Publication>

    ghost function Model(): Pacer
      reads this
    {
      Pacer(published, stale, waiting, nextSerial, history)
    }

    constructor ()
      ensures Model() == NEW_PACER
    {
      published, stale, waiting, nextSerial, history := map[], {}, {}, 1, map[];
    }

    method Request(o: nat)
      modifies this`waiting
      ensures Model() == old(Model()).(waiting := old(waiting) + {o})
    {
      waiting := waiting + {o};
    }

    method ForgetGoneOutputs(outputs: set<nat>)
      modifies this
      ensures Model() == Forgotten(old(Model()), outputs)
    {
      published := map o | o in published && o in outputs :: published[o];
      stale, waiting := stale * outputs, waiting * outputs;
    }

    /** One output's share of `publish`. */
    method ComposeOutput(c: Contents, o: nat)
      modifies this
      ensures Model() == ComposeOne(old(Model()), c, o)
    {
      var scene := Scene(nextSerial, ContentOf(c, o), None, []);
      nextSerial := nextSerial + 1;
      if o in published {
        var damage := OutputDamage(published[o].elements, scene.elements);
        scene := scene.(damage := damage, damageFrom := Some(published[o].serial));
      }
      published := published[o := scene];
      history := history[scene.serial := Publication(o, scene)];
      stale, waiting := stale - {o}, waiting - {o};
    }

    /** `publish`. The outputs due come out of a hash set, in whatever order it has them. */
    method Publish(dirty: bool, outputs: set<nat>, c: Contents, cursorMoved: bool)
      returns (frame: Option<map<nat, Scene>>, ghost order: seq<nat>)
      modifies this
      ensures var p := if dirty then Invalidated(old(Model()), outputs) else old(Model());
        && Lists(order, Due(p)) && Model() == ComposeAll(p, c, order)
        && frame == if Due(p) == {} && !cursorMoved then None else Some(published)
    {
      if dirty { stale := stale + outputs; }
      ghost var p := Model();
      order := [];
      var due := stale * waiting;
      if due == {} && !cursorMoved { return None, order; }
      var left := due;
      while left != {}
        invariant left <= due
        invariant Lists(order, due - left)
        invariant Model() == ComposeAll(p, c, order)
        decreases left
      {
        var o :| o in left;
        ComposeOutput(c, o);
        assert (order + [o])[..|order|] == order;
        DistinctConcat(order, [o]);
        order, left := order + [o], left - {o};
      }
      return Some(published), order;
    }
  }

  // ----- Publishing and drawing together -----

  /** What a backend has on one output: the serial it last drew there, if it still has that, and the pixels. */
  datatype Screen = Screen(drawn: Option<nat>, pixels: (int, int) -> Color)

  /** `outputs` and `content` are the compositor's; `frame` is the newest publication. */
  datatype System = System(
    pacer: Pacer, outputs: set<nat>, content: Contents, dirty: bool, frame: map<nat, Scene>, screens: map<nat, Screen>)

  const START: System := System(NEW_PACER, {}, map[], false, map[], map[])

  datatype Act =
    | Change(outputs: set<nat>, content: Contents)
    | Request(o: nat)
    | Publish(cursorMoved: bool, order: seq<nat>)
    | Forget
    | Draw(o: nat)
    | Lose(o: nat)

  function Ready(s: System): Pacer { if s.dirty then Invalidated(s.pacer, s.outputs) else s.pacer }

  ghost predicate AllInRange(c: Contents) { forall o :: o in c ==> AllBounded(c[o]) }

  ghost predicate Enabled(s: System, a: Act) {
    match a
    case Change(outputs, content) => AllInRange(content)
    case Publish(cursorMoved, order) => Lists(order, Due(Ready(s)))
    case Draw(o) => o in s.frame
    case _ => true
  }

  /** A backend drawing one output of the newest frame: the damage alone, when it is over what is already there. */
  function DrawScene(paint: Painter, background: Color, screen: Option<Screen>, scene: Scene): Screen {
    if screen.Some? && screen.value.drawn == Some(scene.serial) then screen.value
    else if screen.Some? && screen.value.drawn.Some? && scene.damageFrom == screen.value.drawn
    then Screen(Some(scene.serial), (x, y) =>
           if Covered(scene.damage, x, y) then Pixel(paint, background, scene.elements, x, y)
             else screen.value.pixels(x, y))
    else Screen(Some(scene.serial), (x, y) => Pixel(paint, background, scene.elements, x, y))
  }

  function Step(paint: Painter, background: Color, s: System, a: Act): System
    requires Enabled(s, a)
  {
    match a
    case Change(outputs, content) => s.(outputs := outputs, content := content, dirty := true)
    case Request(o) => s.(pacer := s.pacer.(waiting := s.pacer.waiting + {o}))
    case Publish(cursorMoved, order) =>
      var p := ComposeAll(Ready(s), s.content, order);
      s.(pacer := p, dirty := false, frame := if order == [] && !cursorMoved then s.frame else p.published)
    case Forget => s.(pacer := Forgotten(s.pacer, s.outputs))
    case Draw(o) =>
      var screen := if o in s.screens then Some(s.screens[o]) else None;
      s.(screens := s.screens[o := DrawScene(paint, background, screen, s.frame[o])])
    case Lose(o) =>
      if o in s.screens then s.(screens := s.screens[o := s.screens[o].(drawn := None)]) else s
  }

  ghost predicate Runs(paint: Painter, background: Color, s: System, acts: seq<Act>, t: System)
    decreases |acts|
  {
    if acts == [] then s == t
    else Enabled(s, acts[0]) && Runs(paint, background, Step(paint, background, s, acts[0]), acts[1..], t)
  }

  // ----- What every run keeps -----

  /** The scene of one serial, and damage reckoned against an earlier scene of the same output. */
  ghost predicate Recorded(history: map<nat, Publication>, n: nat)
    requires n in history
  {
    var scene := history[n].scene;
    && scene.serial == n && AllBounded(scene.elements)
    && (scene.damageFrom.Some? ==>
          var before := scene.damageFrom.value;
          && before < n && before in history && history[before].output == history[n].output
          && scene.damage == AllDamage(history[before].scene.elements, scene.elements))
  }

  ghost predicate Known(history: map<nat, Publication>, scenes: map<nat, Scene>) {
    forall o :: o in scenes ==> scenes[o].serial in history && history[scenes[o].serial] == Publication(o, scenes[o])
  }

  ghost predicate PacerInv(p: Pacer) {
    && (forall n :: n in p.history ==> n < p.nextSerial && Recorded(p.history, n))
    && Known(p.history, p.published)
  }

  /** A screen that has drawn a scene shows the whole of it. */
  ghost predicate Shows(paint: Painter, background: Color, p: Pacer, o: nat, screen: Screen) {
    screen.drawn.Some? ==>
      && screen.drawn.value in p.history && p.history[screen.drawn.value].output == o
      && forall x, y :: screen.pixels(x, y)
           == Pixel(paint, background, p.history[screen.drawn.value].scene.elements, x, y)
  }

  /** What is not known to be out of date is not. */
  ghost predicate UpToDate(s: System) {
    !s.dirty ==> forall o :: o in s.pacer.published && o in s.outputs && o !in s.pacer.stale ==>
      s.pacer.published[o].elements == ContentOf(s.content, o)
  }

  ghost predicate Inv(paint: Painter, background: Color, s: System) {
    && PacerInv(s.pacer) && Known(s.pacer.history, s.frame) && AllInRange(s.content) && UpToDate(s)
    && (forall o :: o in s.screens ==> Shows(paint, background, s.pacer, o, s.screens[o]))
  }

  /** Serials are never used again. */
  ghost predicate Extends(p: Pacer, q: Pacer) {
    p.nextSerial <= q.nextSerial && forall n :: n in p.history ==> n in q.history && q.history[n] == p.history[n]
  }

  lemma ComposeOneKeeps(p: Pacer, c: Contents, o: nat)
    requires PacerInv(p) && AllInRange(c)
    ensures PacerInv(ComposeOne(p, c, o)) && Extends(p, ComposeOne(p, c, o))
  {
    var q := ComposeOne(p, c, o);
    forall n | n in q.history ensures n < q.nextSerial && Recorded(q.history, n) {
      if n != p.nextSerial { assert Recorded(p.history, n); }
    }
  }

  lemma {:induction false} ComposeAllKeeps(p: Pacer, c: Contents, order: seq<nat>)
    requires PacerInv(p) && AllInRange(c)
    ensures PacerInv(ComposeAll(p, c, order)) && Extends(p, ComposeAll(p, c, order))
  {
    if order != [] {
      ComposeAllKeeps(p, c, order[..|order| - 1]);
      ComposeOneKeeps(ComposeAll(p, c, order[..|order| - 1]), c, order[|order| - 1]);
    }
  }

  /** Composing serves exactly the outputs listed, and each with what it should show. */
  lemma {:induction false} ComposeAllServes(p: Pacer, c: Contents, order: seq<nat>)
    ensures var q := ComposeAll(p, c, order);
      && (forall o :: o in order ==> o in q.published && q.published[o].elements == ContentOf(c, o))
      && (forall o :: o !in order ==> (o in q.published <==> o in p.published))
      && (forall o :: o !in order && o in p.published ==> q.published[o] == p.published[o])
      && (forall o :: o in q.stale <==> o in p.stale && o !in order)
      && (forall o :: o in q.waiting <==> o in p.waiting && o !in order)
  {
    if order != [] {
      ComposeAllServes(p, c, order[..|order| - 1]);
      assert order == order[..|order| - 1] + [order[|order| - 1]];
    }
  }

  /** Nothing in the second scene is redrawn under the serial it had in the first. */
  ghost predicate TellsApart(a: seq<Element>, b: seq<Element>) {
    forall i :: 0 <= i < |a| && i < |b| ==> !OnlyPixelsDiffer(a[i], b[i])
  }

  /** Nor in any scene since the one it is a change to. */
  ghost predicate Truthful(history: map<nat, Publication>) {
    forall n :: n in history && history[n].scene.damageFrom.Some? && history[n].scene.damageFrom.value in history ==>
      TellsApart(history[history[n].scene.damageFrom.value].scene.elements, history[n].scene.elements)
  }

  /** A scene is a change to the one before it of its output, and a whole one only where there is none. */
  lemma {:induction false} ComposedFromLast(p: Pacer, c: Contents, order: seq<nat>, o: nat)
    requires Distinct(order) && o in order
    ensures var q := ComposeAll(p, c, order);
      && o in q.published
      && q.published[o].damageFrom == if o in p.published then Some(p.published[o].serial) else None
  {
    var front, last := order[..|order| - 1], order[|order| - 1];
    assert order == front + [last];
    if last == o {
      assert o !in front;
      ComposeAllServes(p, c, front);
    } else {
      ComposedFromLast(p, c, front, o);
    }
  }

  /** Drawing shows the scene drawn, whatever part of the screen was repainted to do it. */
  lemma DrawShows(paint: Painter, background: Color, p: Pacer, o: nat, screen: Option<Screen>, scene: Scene)
    requires Proper(paint) && PacerInv(p) && Truthful(p.history)
    requires scene.serial in p.history && p.history[scene.serial] == Publication(o, scene)
    requires screen.Some? ==> Shows(paint, background, p, o, screen.value)
    ensures var t := DrawScene(paint, background, screen, scene);
      && t.drawn == Some(scene.serial)
      && forall x, y :: t.pixels(x, y) == Pixel(paint, background, scene.elements, x, y)
  {
    var t := DrawScene(paint, background, screen, scene);
    assert Recorded(p.history, scene.serial);
    if screen.Some? && screen.value.drawn.Some? && screen.value.drawn != Some(scene.serial)
      && scene.damageFrom == screen.value.drawn {
      var before := p.history[screen.value.drawn.value].scene;
      assert Recorded(p.history, screen.value.drawn.value);
      assert TellsApart(before.elements, scene.elements);
      forall x, y ensures t.pixels(x, y) == Pixel(paint, background, scene.elements, x, y) {
        if Pixel(paint, background, before.elements, x, y) != Pixel(paint, background, scene.elements, x, y) {
          DamageCoversDifference(paint, background, before.elements, scene.elements, x, y);
        }
      }
    }
  }

  lemma ScreensKeep(paint: Painter, background: Color, p: Pacer, q: Pacer, screens: map<nat, Screen>)
    requires Extends(p, q) && forall o :: o in screens ==> Shows(paint, background, p, o, screens[o])
    ensures forall o :: o in screens ==> Shows(paint, background, q, o, screens[o])
  {}

  lemma PublishKeeps(paint: Painter, background: Color, s: System, cursorMoved: bool, order: seq<nat>)
    requires Inv(paint, background, s) && Lists(order, Due(Ready(s)))
    ensures Inv(paint, background, Step(paint, background, s, Publish(cursorMoved, order)))
  {
    var t := Step(paint, background, s, Publish(cursorMoved, order));
    ComposeAllKeeps(Ready(s), s.content, order);
    ComposeAllServes(Ready(s), s.content, order);
    ScreensKeep(paint, background, s.pacer, t.pacer, s.screens);
  }

  lemma StepKeepsInv(paint: Painter, background: Color, s: System, a: Act)
    requires Proper(paint) && Inv(paint, background, s) && Enabled(s, a) && Truthful(s.pacer.history)
    ensures Inv(paint, background, Step(paint, background, s, a))
  {
    var t := Step(paint, background, s, a);
    if a.Publish? {
      PublishKeeps(paint, background, s, a.cursorMoved, a.order);
    } else if a.Draw? {
      var screen := if a.o in s.screens then Some(s.screens[a.o]) else None;
      DrawShows(paint, background, s.pacer, a.o, screen, s.frame[a.o]);
    } else {
      ScreensKeep(paint, background, s.pacer, t.pacer, s.screens);
    }
  }

  /** Scenes once composed stay composed. */
  lemma StepExtends(paint: Painter, background: Color, s: System, a: Act)
    requires PacerInv(s.pacer) && AllInRange(s.content) && Enabled(s, a)
    ensures var t := Step(paint, background, s, a);
      Extends(s.pacer, t.pacer) && PacerInv(t.pacer) && AllInRange(t.content)
  {
    if a.Publish? { ComposeAllKeeps(Ready(s), s.content, a.order); }
  }

  lemma {:induction false} RunExtends(paint: Painter, background: Color, s: System, acts: seq<Act>, t: System)
    requires PacerInv(s.pacer) && AllInRange(s.content) && Runs(paint, background, s, acts, t)
    ensures Extends(s.pacer, t.pacer)
    decreases |acts|
  {
    if acts != [] {
      StepExtends(paint, background, s, acts[0]);
      RunExtends(paint, background, Step(paint, background, s, acts[0]), acts[1..], t);
    }
  }

  lemma {:induction false} RunKeepsInv(paint: Painter, background: Color, s: System, acts: seq<Act>, t: System)
    requires Proper(paint) && Inv(paint, background, s) && Runs(paint, background, s, acts, t)
    requires Truthful(t.pacer.history)
    ensures Inv(paint, background, t)
    decreases |acts|
  {
    if acts != [] {
      RunExtends(paint, background, s, acts, t);
      StepKeepsInv(paint, background, s, acts[0]);
      RunKeepsInv(paint, background, Step(paint, background, s, acts[0]), acts[1..], t);
    }
  }

  // ----- The results -----

  /**
   After any run, with any publications skipped and any screen's contents lost on the way, drawing an
   output leaves on it exactly what painting the whole newest scene would, so long as no texture was
   redrawn between two scenes under one serial.
   */
  lemma IncrementalIsFull(paint: Painter, background: Color, acts: seq<Act>, s: System, o: nat)
    requires Proper(paint) && Runs(paint, background, START, acts, s) && o in s.frame && Truthful(s.pacer.history)
    ensures forall x, y :: Step(paint, background, s, Draw(o)).screens[o].pixels(x, y)
                        == Pixel(paint, background, s.frame[o].elements, x, y)
  {
    RunKeepsInv(paint, background, START, acts, s);
    var screen := if o in s.screens then Some(s.screens[o]) else None;
    DrawShows(paint, background, s.pacer, o, screen, s.frame[o]);
  }

  /** A painter that shows what textures hold. */
  function Sampling(): Painter {
    (e: Element, x: int, y: int, c: Color) =>
      if Touches(e.dst, x, y) && e.content.Texture? then e.content.image.pixels else c
  }

  /** A texture one pixel large that holds this when drawn, whatever is drawn into it. */
  function Imported(pixels: nat): Element {
    Element(Texture(Image(1, 1, pixels), Span(0.0, 0.0, 1.0, 1.0), 0), Span(0.0, 0.0, 1.0, 1.0), 0, None, 1.0, false)
  }

  const SHOWN: seq<Act> := [Change({0}, map[0 := [Imported(1)]]), Request(0), Publish(false, [0]), Draw(0)]

  /** Drawn into and shown again under the serial it had, as a dma-buf is. */
  const REDRAWN: seq<Act> := [Change({0}, map[0 := [Imported(2)]]), Request(0), Publish(false, [0])]

  ghost function After(s: System, a: Act): System
    requires Enabled(s, a)
  {
    Step(Sampling(), 0, s, a)
  }

  lemma OneMoreRuns(s: System, a: Act, rest: seq<Act>, t: System)
    requires Enabled(s, a) && Runs(Sampling(), 0, After(s, a), rest, t)
    ensures Runs(Sampling(), 0, s, [a] + rest, t)
  {
    assert ([a] + rest)[0] == a && ([a] + rest)[1..] == rest;
  }

  /** A single output that is due, composed. */
  lemma OneComposed(p: Pacer, c: Contents)
    requires Due(p) == {0}
    ensures Lists([0], Due(p)) && ComposeAll(p, c, [0]) == ComposeOne(p, c, 0)
  {
    assert [0][..0] == [] && ComposeAll(p, c, []) == p;
  }

  lemma FirstShown() returns (s: System)
    ensures Runs(Sampling(), 0, START, SHOWN, s) && s.outputs == {0} && !s.dirty
    ensures s.pacer == Pacer(map[0 := Scene(1, [Imported(1)], None, [])], {}, {}, 2, s.pacer.history)
    ensures 0 in s.screens && s.screens[0].drawn == Some(1) && s.screens[0].pixels(0, 0) == 1
  {
    var a := After(START, SHOWN[0]);
    var b := After(a, SHOWN[1]);
    OneComposed(Ready(b), b.content);
    var c := After(b, SHOWN[2]);
    s := After(c, SHOWN[3]);
    OneElement(Imported(1));
    assert Runs(Sampling(), 0, s, [], s);
    OneMoreRuns(c, SHOWN[3], [], s);
    OneMoreRuns(b, SHOWN[2], [SHOWN[3]], s);
    OneMoreRuns(a, SHOWN[1], [SHOWN[2], SHOWN[3]], s);
    OneMoreRuns(START, SHOWN[0], [SHOWN[1], SHOWN[2], SHOWN[3]], s);
  }

  lemma OneElement(e: Element)
    ensures Pixel(Sampling(), 0, [e], 0, 0) == Sampling()(e, 0, 0, 0)
  {
    assert [e][..0] == [];
  }

  lemma ShownAgain(d: System) returns (s: System)
    requires d.outputs == {0} && !d.dirty && 0 in d.screens && d.screens[0].drawn == Some(1)
    requires d.pacer == Pacer(map[0 := Scene(1, [Imported(1)], None, [])], {}, {}, 2, d.pacer.history)
    ensures Runs(Sampling(), 0, d, REDRAWN, s) && 0 in s.frame && s.frame[0] == Scene(2, [Imported(2)], Some(1), [])
    ensures s.screens == d.screens
  {
    var a := After(d, REDRAWN[0]);
    var b := After(a, REDRAWN[1]);
    OneComposed(Ready(b), b.content);
    s := After(b, REDRAWN[2]);
    NothingDamaged();
    assert Runs(Sampling(), 0, s, [], s);
    OneMoreRuns(b, REDRAWN[2], [], s);
    OneMoreRuns(a, REDRAWN[1], [REDRAWN[2]], s);
    OneMoreRuns(d, REDRAWN[0], [REDRAWN[1], REDRAWN[2]], s);
  }

  /** A screen then shows what the texture held before, though the whole of the newest scene would have it otherwise. */
  lemma StalePixelWitness() returns (s: System)
    ensures Runs(Sampling(), 0, START, SHOWN + REDRAWN, s) && 0 in s.frame && Proper(Sampling())
    ensures Step(Sampling(), 0, s, Draw(0)).screens[0].pixels(0, 0) == 1
    ensures Pixel(Sampling(), 0, s.frame[0].elements, 0, 0) == 2
  {
    var d := FirstShown();
    s := ShownAgain(d);
    RunsJoin(START, SHOWN, d, REDRAWN, s);
    OneElement(Imported(2));
  }

  lemma NothingDamaged()
    ensures AllDamage([Imported(1)], [Imported(2)]) == []
  {
    SameElementExactly(Imported(1), Imported(2));
    assert SlotDamage([Imported(1)], [Imported(2)], 0) == [];
    assert Damage([Imported(1)], [Imported(2)], 1) == Damage([Imported(1)], [Imported(2)], 0) + [];
  }

  lemma {:induction false} RunsJoin(s: System, one: seq<Act>, t: System, two: seq<Act>, u: System)
    requires Runs(Sampling(), 0, s, one, t) && Runs(Sampling(), 0, t, two, u)
    ensures Runs(Sampling(), 0, s, one + two, u)
    decreases |one|
  {
    if one == [] {
      assert one + two == two;
    } else {
      RunsJoin(After(s, one[0]), one[1..], t, two, u);
      assert (one + two)[0] == one[0] && (one + two)[1..] == one[1..] + two;
    }
  }

  /** What a serial names never changes. */
  lemma SerialsNeverRepeat(paint: Painter, background: Color, s: System, a: Act)
    requires Inv(paint, background, s) && Enabled(s, a)
    ensures Extends(s.pacer, Step(paint, background, s, a).pacer)
  {
    if a.Publish? { ComposeAllKeeps(Ready(s), s.content, a.order); }
  }

  /** Publishing leaves no output both asking and out of date, and what it published is what should show. */
  lemma AskingIsServed(paint: Painter, background: Color, s: System, cursorMoved: bool, order: seq<nat>, o: nat)
    requires Inv(paint, background, s) && Enabled(s, Publish(cursorMoved, order))
    requires o in s.outputs && o in s.pacer.waiting
    ensures var t := Step(paint, background, s, Publish(cursorMoved, order));
      && (o in t.pacer.waiting ==> o !in t.pacer.stale)
      && (o in t.pacer.published && o !in t.pacer.stale ==> t.pacer.published[o].elements == ContentOf(s.content, o))
      && (s.dirty || o in s.pacer.stale ==>
           o in t.frame && t.frame[o].elements == ContentOf(s.content, o) && o !in t.pacer.waiting)
  {
    PublishKeeps(paint, background, s, cursorMoved, order);
    ComposeAllServes(Ready(s), s.content, order);
  }

  /** How an output's asking for a scene can end: with one that shows what it should, or with the output. */
  ghost predicate Answers(paint: Painter, background: Color, s: System, a: Act, o: nat)
    requires Enabled(s, a)
  {
    var t := Step(paint, background, s, a);
    || (a.Publish? && o in t.frame && t.frame[o].elements == ContentOf(s.content, o))
    || (a.Forget? && o !in s.outputs)
  }

  /** Nothing else ends it, and only a scene composed for it counts. */
  lemma AskingIsKept(paint: Painter, background: Color, s: System, a: Act, o: nat)
    requires Enabled(s, a) && o in s.pacer.waiting
    ensures var t := Step(paint, background, s, a);
      && (o in t.pacer.waiting || Answers(paint, background, s, a, o))
      && (a.Publish? ==> (o !in t.pacer.waiting <==> o in Ready(s).stale))
      && (a.Forget? ==> (o !in t.pacer.waiting <==> o !in s.outputs))
  {
    if a.Publish? { ComposeAllServes(Ready(s), s.content, a.order); }
  }

  /** The `n`th act of the run answers the output. */
  ghost predicate AnsweredAt(paint: Painter, background: Color, s: System, acts: seq<Act>, n: nat, o: nat)
    decreases n
  {
    && n < |acts| && Enabled(s, acts[0])
    && if n == 0 then Answers(paint, background, s, acts[0], o)
       else AnsweredAt(paint, background, Step(paint, background, s, acts[0]), acts[1..], n - 1, o)
  }

  /** Over any run an output that has asked is still waiting, or was answered on the way. */
  lemma {:induction false} AskedUntilAnswered(paint: Painter, background: Color, s: System, acts: seq<Act>, t: System,
                                              o: nat)
    returns (n: nat)
    requires Runs(paint, background, s, acts, t) && o in s.pacer.waiting
    ensures o in t.pacer.waiting || AnsweredAt(paint, background, s, acts, n, o)
    decreases |acts|
  {
    n := 0;
    if acts != [] {
      var next := Step(paint, background, s, acts[0]);
      AskingIsKept(paint, background, s, acts[0], o);
      if o in next.pacer.waiting {
        n := AskedUntilAnswered(paint, background, next, acts[1..], t, o);
        n := n + 1;
      }
    }
  }

  /** No scene of this output since `first` is a change to one from before it. */
  ghost predicate SinceAfresh(p: Pacer, o: nat, first: nat) {
    && first <= p.nextSerial
    && (o in p.published ==> p.published[o].serial >= first)
    && forall n :: n in p.history && n >= first && p.history[n].output == o ==>
         var from := p.history[n].scene.damageFrom; from.Some? ==> from.value >= first
  }

  lemma {:induction false} ComposedAfresh(p: Pacer, c: Contents, order: seq<nat>, o: nat, first: nat)
    requires SinceAfresh(p, o, first)
    ensures SinceAfresh(ComposeAll(p, c, order), o, first)
  {
    if order != [] { ComposedAfresh(p, c, order[..|order| - 1], o, first); }
  }

  /**
   An output that has gone is forgotten for good: if it comes back, its first scene is a whole one, and no scene
   of it after that is a change to anything it was sent before it went.
   */
  lemma {:induction false} BackAfresh(paint: Painter, background: Color, s: System, acts: seq<Act>, t: System, o: nat)
    requires Enabled(s, Forget) && o !in s.outputs && PacerInv(s.pacer)
    requires Runs(paint, background, Step(paint, background, s, Forget), acts, t)
    ensures SinceAfresh(t.pacer, o, s.pacer.nextSerial)
  {
    AfreshKept(paint, background, Step(paint, background, s, Forget), acts, t, o, s.pacer.nextSerial);
  }

  lemma {:induction false} AfreshKept(paint: Painter, background: Color, s: System, acts: seq<Act>, t: System, o: nat,
                                      first: nat)
    requires SinceAfresh(s.pacer, o, first) && Runs(paint, background, s, acts, t)
    ensures SinceAfresh(t.pacer, o, first)
    decreases |acts|
  {
    if acts != [] {
      if acts[0].Publish? { ComposedAfresh(Ready(s), s.content, acts[0].order, o, first); }
      AfreshKept(paint, background, Step(paint, background, s, acts[0]), acts[1..], t, o, first);
    }
  }
}
