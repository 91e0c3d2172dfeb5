/** A surface, the state a client is building for it, and what committing that state does. */
module Surfaces {
  import opened Base

  /** The furthest a surface may sit from its parent, in either direction. */
  const MAX_SURFACE_OFFSET: int := 0x10_0000

  function Clamp(x: int, low: int, high: int): (r: int)
    requires low <= high
    ensures low <= r <= high
    ensures low <= x <= high ==> r == x
  {
    if x < low then low else if x > high then high else x
  }

  /** `i32::saturating_add`. */
  function SatAdd(a: int, b: int): I32 { Clamp(a + b, I32_MIN, I32_MAX) }

  datatype Point = Point(x: int, y: int)

  function SatMove(p: Point, d: Point): Point { Point(SatAdd(p.x, d.x), SatAdd(p.y, d.y)) }

  function ClampOffset(p: Point): (r: Point)
    ensures OffsetInRange(r)
  {
    Point(Clamp(p.x, -MAX_SURFACE_OFFSET, MAX_SURFACE_OFFSET), Clamp(p.y, -MAX_SURFACE_OFFSET, MAX_SURFACE_OFFSET))
  }

  predicate OffsetInRange(p: Point) { AxisInRange(p.x) && AxisInRange(p.y) }

  predicate AxisInRange(x: int) { -MAX_SURFACE_OFFSET <= x <= MAX_SURFACE_OFFSET }

  datatype Rect = Rect(x: int, y: int, width: int, height: int)

  datatype RegionOp = Add | Subtract

  datatype RegionRect = RegionRect(op: RegionOp, area: Rect)

  /** A region waiting for the next commit. */
  datatype PendingRegion = Unchanged | Infinite | Rects(rects: seq<RegionRect>)

  /** What has been asked for since the last commit. */
  datatype Pending = Pending(
    bufferAttached: bool,
    bufferId: Option<nat>,
    damageSurface: seq<Rect>,
    damageBuffer: seq<Rect>,
    callbacks: seq<nat>,
    feedbacks: seq<nat>,
    inputRegion: PendingRegion,
    opaqueRegion: PendingRegion,
    scale: Option<int>,
    transform: Option<nat>,
    offset: Point)

  const NOTHING_PENDING: Pending :=
    Pending(false, None, [], [], [], [], Unchanged, Unchanged, None, None, Point(0, 0))

  function Newer<T>(older: Option<T>, newer: Option<T>): Option<T> {
    if newer.Some? then newer else older
  }

  function NewerRegion(older: PendingRegion, newer: PendingRegion): PendingRegion {
    if newer.Unchanged? then older else newer
  }

  /** Fold a newer commit's state into an older one's. */
  function Merge(older: Pending, newer: Pending): Pending {
    Pending(
      older.bufferAttached || newer.bufferAttached,
      if newer.bufferAttached then newer.bufferId else older.bufferId,
      older.damageSurface + newer.damageSurface,
      older.damageBuffer + newer.damageBuffer,
      older.callbacks + newer.callbacks,
      older.feedbacks + newer.feedbacks,
      NewerRegion(older.inputRegion, newer.inputRegion),
      NewerRegion(older.opaqueRegion, newer.opaqueRegion),
      Newer(older.scale, newer.scale),
      Newer(older.transform, newer.transform),
      SatMove(older.offset, newer.offset))
  }

  /**
   A surface. The last three are history, kept for stating what becomes of frame callbacks:
   every one requested on this surface since it was created, every one answered, and every one
   lost with a commit refused for showing content before a configure was acknowledged.
   */
  datatype Surface = Surface(
    bufferId: Option<nat>,
    callbacks: seq<nat>,
    feedbacks: seq<nat>,
    pending: Pending,
    parent: Option<nat>,
    children: seq<nat>,
    subsurfacePosition: Point,
    isSubsurface: bool,
    subsurfaceSync: bool,
    cached: Option<Pending>,
    position: Point,
    inputRegion: Option<seq<RegionRect>>,
    opaqueRegion: Option<seq<RegionRect>>,
    scale: int,
    transform: nat,
    offset: Point,
    visibleOn: set<nat>,
    asked: seq<nat>,
    answered: seq<nat>,
    dropped: seq<nat>)

  /** What `create_surface` inserts. */
  const NEW_SURFACE: Surface :=
    Surface(None, [], [], NOTHING_PENDING, None, [], Point(0, 0), false, true, None, Point(0, 0),
            None, None, 1, 0, Point(0, 0), {}, [], [], [])

  function ApplyRegion(current: Option<seq<RegionRect>>, pending: PendingRegion): Option<seq<RegionRect>> {
    match pending
    case Unchanged => current
    case Infinite => None
    case Rects(rects) => Some(rects)
  }

  /** The part of `apply_one` that writes the surface itself. */
  function Apply(s: Surface, p: Pending): Surface {
    s.(bufferId := if p.bufferAttached then p.bufferId else s.bufferId,
       callbacks := s.callbacks + p.callbacks,
       feedbacks := s.feedbacks + p.feedbacks,
       scale := if p.scale.Some? then p.scale.value else s.scale,
       transform := if p.transform.Some? then p.transform.value else s.transform,
       offset := ClampOffset(SatMove(s.offset, p.offset)),
       inputRegion := ApplyRegion(s.inputRegion, p.inputRegion),
       opaqueRegion := ApplyRegion(s.opaqueRegion, p.opaqueRegion))
  }

  /** Commits cached one after another while a surface is synchronised. */
  function CacheAll(commits: seq<Pending>): Pending {
    if commits == [] then NOTHING_PENDING
    else Merge(CacheAll(commits[..|commits| - 1]), commits[|commits| - 1])
  }

  /** The same commits applied one after another. */
  function ApplyAll(s: Surface, commits: seq<Pending>): Surface {
    if commits == [] then s
    else Apply(ApplyAll(s, commits[..|commits| - 1]), commits[|commits| - 1])
  }

  /** Caching two commits gives what applying them would, in everything but the offset. */
  lemma MergeActs(s: Surface, p: Pending, q: Pending)
    ensures Apply(s, Merge(p, q)) == Apply(Apply(s, p), q).(offset := Apply(s, Merge(p, q)).offset)
  {
    assert s.callbacks + (p.callbacks + q.callbacks) == s.callbacks + p.callbacks + q.callbacks;
    assert s.feedbacks + (p.feedbacks + q.feedbacks) == s.feedbacks + p.feedbacks + q.feedbacks;
  }

  /** `Merge` is associative in everything but the offset, whose saturation is order-dependent. */
  lemma MergeAssociates(p: Pending, q: Pending, r: Pending)
    ensures Merge(Merge(p, q), r) == Merge(p, Merge(q, r)).(offset := Merge(Merge(p, q), r).offset)
  {
    assert p.damageSurface + (q.damageSurface + r.damageSurface) == p.damageSurface + q.damageSurface + r.damageSurface;
    assert p.damageBuffer + (q.damageBuffer + r.damageBuffer) == p.damageBuffer + q.damageBuffer + r.damageBuffer;
    assert p.callbacks + (q.callbacks + r.callbacks) == p.callbacks + q.callbacks + r.callbacks;
    assert p.feedbacks + (q.feedbacks + r.feedbacks) == p.feedbacks + q.feedbacks + r.feedbacks;
  }

  /**
   When clamping midway loses nothing: the first move stays in range, or the second pushes
   the same way, or the second sweeps right across to the other end.
   */
  predicate AxisAgrees(o: int, p: int, q: int) {
    || AxisInRange(o + p)
    || (o + p > MAX_SURFACE_OFFSET && (q >= 0 || o + p + q <= -MAX_SURFACE_OFFSET))
    || (o + p < -MAX_SURFACE_OFFSET && (q <= 0 || o + p + q >= MAX_SURFACE_OFFSET))
  }

  /** Caching two commits gives the offset applying them would exactly when both axes agree. */
  lemma MergeOffsetExact(s: Surface, p: Pending, q: Pending)
    requires OffsetInRange(s.offset)
    ensures Apply(s, Merge(p, q)) == Apply(Apply(s, p), q)
      <==> AxisAgrees(s.offset.x, p.offset.x, q.offset.x) && AxisAgrees(s.offset.y, p.offset.y, q.offset.y)
  {
    MergeActs(s, p, q);
    AxisExact(s.offset.x, p.offset.x, q.offset.x);
    AxisExact(s.offset.y, p.offset.y, q.offset.y);
  }

  function MoveAxis(o: int, d: int): int { Clamp(SatAdd(o, d), -MAX_SURFACE_OFFSET, MAX_SURFACE_OFFSET) }

  lemma AxisExact(o: int, p: int, q: int)
    requires AxisInRange(o)
    ensures MoveAxis(o, SatAdd(p, q)) == MoveAxis(MoveAxis(o, p), q) <==> AxisAgrees(o, p, q)
  {
    assert MoveAxis(o, SatAdd(p, q)) == Clamp(o + p + q, -MAX_SURFACE_OFFSET, MAX_SURFACE_OFFSET);
    assert MoveAxis(MoveAxis(o, p), q)
        == Clamp(Clamp(o + p, -MAX_SURFACE_OFFSET, MAX_SURFACE_OFFSET) + q, -MAX_SURFACE_OFFSET, MAX_SURFACE_OFFSET);
  }

  /** A commit that moves right and one that moves back: the cache remembers the whole journey. */
  lemma MergeOffsetWitness()
    ensures exists s: Surface, p: Pending, q: Pending ::
      OffsetInRange(s.offset) && OffsetInRange(p.offset) && OffsetInRange(q.offset)
                              && Apply(s, Merge(p, q)) != Apply(Apply(s, p), q)
  {
    var s := NEW_SURFACE.(offset := Point(MAX_SURFACE_OFFSET, 0));
    var p := NOTHING_PENDING.(offset := Point(1, 0));
    var q := NOTHING_PENDING.(offset := Point(-1, 0));
    assert Apply(s, Merge(p, q)).offset.x == MAX_SURFACE_OFFSET;
    assert Apply(Apply(s, p), q).offset.x == MAX_SURFACE_OFFSET - 1;
  }

  function OffsetSum(commits: seq<Pending>): Point {
    if commits == [] then Point(0, 0) else
      var before := OffsetSum(commits[..|commits| - 1]);
      var d := commits[|commits| - 1].offset;
      Point(before.x + d.x, before.y + d.y)
  }

  /** No prefix of the commits carries the surface out of range. */
  ghost predicate Steady(o: Point, commits: seq<Pending>) {
    forall n | 0 <= n <= |commits| ::
      OffsetInRange(Point(o.x + OffsetSum(commits[..n]).x, o.y + OffsetSum(commits[..n]).y))
  }

  /**
   Caching any list of commits and applying the cache once gives the surface applying each as
   it came would have; the offset too, while no partial sum leaves the range.
   */
  lemma {:induction false} CacheThenApply(s: Surface, commits: seq<Pending>)
    ensures Apply(s, CacheAll(commits)) == ApplyAll(s, commits).(offset := Apply(s, CacheAll(commits)).offset)
    ensures Steady(s.offset, commits) ==> Apply(s, CacheAll(commits)) == ApplyAll(s, commits)
    ensures Steady(s.offset, commits) ==> CacheAll(commits).offset == OffsetSum(commits)
  {
    if commits == [] {
      assert s.callbacks + [] == s.callbacks && s.feedbacks + [] == s.feedbacks;
    } else {
      var front, last := commits[..|commits| - 1], commits[|commits| - 1];
      CacheThenApply(s, front);
      MergeActs(s, CacheAll(front), last);
      if Steady(s.offset, commits) {
        SteadyFront(s.offset, commits);
        assert commits[..|commits|] == commits && commits[..0] == [] && OffsetInRange(s.offset);
        assert AxisInRange(s.offset.x + OffsetSum(front).x) && AxisInRange(s.offset.y + OffsetSum(front).y);
        MergeOffsetExact(s, CacheAll(front), last);
      }
    }
  }

  lemma SteadyFront(o: Point, commits: seq<Pending>)
    requires commits != [] && Steady(o, commits)
    ensures Steady(o, commits[..|commits| - 1])
    ensures OffsetInRange(Point(o.x + OffsetSum(commits[..|commits| - 1]).x,
      o.y + OffsetSum(commits[..|commits| - 1]).y))
  {
    var front := commits[..|commits| - 1];
    forall n | 0 <= n <= |front|
      ensures OffsetInRange(Point(o.x + OffsetSum(front[..n]).x, o.y + OffsetSum(front[..n]).y))
    {
      assert front[..n] == commits[..n];
    }
    assert commits[..|front|] == front;
  }

  // ----- What a list of commits comes to, field by field -----

  /** What is `now` there is what the last of some settings set, or what was there `before` if none set anything. */
  ghost predicate LastSet<T>(before: T, settings: seq<Option<T>>, now: T) {
    && ((forall i :: 0 <= i < |settings| ==> settings[i].None?) ==> now == before)
    && forall i | 0 <= i < |settings| && settings[i].Some? && (forall j :: i < j < |settings| ==> settings[j].None?) ::
         now == settings[i].value
  }

  function SetRegion(p: PendingRegion): Option<Option<seq<RegionRect>>> {
    match p case Unchanged => None case Infinite => Some(None) case Rects(rects) => Some(Some(rects))
  }

  function InputSet(commits: seq<Pending>): (r: seq<Option<Option<seq<RegionRect>>>>)
    ensures |r| == |commits|
  {
    seq(|commits|, i requires 0 <= i < |commits| => SetRegion(commits[i].inputRegion))
  }

  function OpaqueSet(commits: seq<Pending>): (r: seq<Option<Option<seq<RegionRect>>>>)
    ensures |r| == |commits|
  {
    seq(|commits|, i requires 0 <= i < |commits| => SetRegion(commits[i].opaqueRegion))
  }

  function BuffersSet(commits: seq<Pending>): (r: seq<Option<Option<nat>>>)
    ensures |r| == |commits|
  {
    seq(|commits|, i requires 0 <= i < |commits| =>
      if commits[i].bufferAttached then Some(commits[i].bufferId) else None)
  }

  function ScalesSet(commits: seq<Pending>): (r: seq<Option<int>>)
    ensures |r| == |commits|
  {
    seq(|commits|, i requires 0 <= i < |commits| => commits[i].scale)
  }

  function TransformsSet(commits: seq<Pending>): (r: seq<Option<nat>>)
    ensures |r| == |commits|
  {
    seq(|commits|, i requires 0 <= i < |commits| => commits[i].transform)
  }

  function Joined<T>(lists: seq<seq<T>>): seq<T> {
    if lists == [] then [] else Joined(lists[..|lists| - 1]) + lists[|lists| - 1]
  }

  function CallbacksOf(commits: seq<Pending>): (r: seq<seq<nat>>)
    ensures |r| == |commits|
  {
    seq(|commits|, i requires 0 <= i < |commits| => commits[i].callbacks)
  }

  function FeedbacksOf(commits: seq<Pending>): (r: seq<seq<nat>>)
    ensures |r| == |commits|
  {
    seq(|commits|, i requires 0 <= i < |commits| => commits[i].feedbacks)
  }

  ghost predicate ShowsRegions(s: Surface, commits: seq<Pending>, t: Surface) {
    && LastSet(s.inputRegion, InputSet(commits), t.inputRegion)
    && LastSet(s.opaqueRegion, OpaqueSet(commits), t.opaqueRegion)
  }

  ghost predicate ShowsContent(s: Surface, commits: seq<Pending>, t: Surface) {
    && LastSet(s.bufferId, BuffersSet(commits), t.bufferId)
    && LastSet(s.scale, ScalesSet(commits), t.scale)
    && LastSet(s.transform, TransformsSet(commits), t.transform)
  }

  ghost predicate ShowsLists(s: Surface, commits: seq<Pending>, t: Surface) {
    && t.callbacks == s.callbacks + Joined(CallbacksOf(commits))
    && t.feedbacks == s.feedbacks + Joined(FeedbacksOf(commits))
  }

  /** `t` is `s` with each field as these commits leave it; of the offset no more than its bounds. */
  ghost predicate Shows(s: Surface, commits: seq<Pending>, t: Surface) {
    && ShowsRegions(s, commits, t) && ShowsContent(s, commits, t) && ShowsLists(s, commits, t)
    && (OffsetInRange(s.offset) ==> OffsetInRange(t.offset))
    && t == s.(bufferId := t.bufferId, inputRegion := t.inputRegion, opaqueRegion := t.opaqueRegion, scale := t.scale,
               transform := t.transform, callbacks := t.callbacks, feedbacks := t.feedbacks, offset := t.offset)
  }

  lemma LastSetNext<T>(before: T, settings: seq<Option<T>>, next: Option<T>, now: T)
    requires LastSet(before, settings, now)
    ensures LastSet(before, settings + [next], if next.Some? then next.value else now)
  {
    var all := settings + [next];
    if next.None? {
      forall i | 0 <= i < |all| && all[i].Some? && (forall j :: i < j < |all| ==> all[j].None?)
        ensures now == all[i].value
      {
        assert settings[i] == all[i] && forall j :: i < j < |settings| ==> settings[j] == all[j];
      }
      if forall i :: 0 <= i < |all| ==> all[i].None? {
        assert forall i :: 0 <= i < |settings| ==> settings[i] == all[i];
      }
    } else {
      assert all[|settings|].Some?;
    }
  }

  lemma JoinedNext<T>(lists: seq<seq<T>>, next: seq<T>)
    ensures Joined(lists + [next]) == Joined(lists) + next
  {
    assert (lists + [next])[..|lists|] == lists;
  }

  lemma RegionsNext(s: Surface, commits: seq<Pending>, next: Pending, t: Surface)
    requires ShowsRegions(s, commits, t)
    ensures ShowsRegions(s, commits + [next], Apply(t, next))
  {
    var all := commits + [next];
    assert InputSet(all) == InputSet(commits) + [SetRegion(next.inputRegion)];
    LastSetNext(s.inputRegion, InputSet(commits), SetRegion(next.inputRegion), t.inputRegion);
    assert OpaqueSet(all) == OpaqueSet(commits) + [SetRegion(next.opaqueRegion)];
    LastSetNext(s.opaqueRegion, OpaqueSet(commits), SetRegion(next.opaqueRegion), t.opaqueRegion);
  }

  lemma ContentNext(s: Surface, commits: seq<Pending>, next: Pending, t: Surface)
    requires ShowsContent(s, commits, t)
    ensures ShowsContent(s, commits + [next], Apply(t, next))
  {
    var all := commits + [next];
    assert BuffersSet(all) == BuffersSet(commits) + [if next.bufferAttached then Some(next.bufferId) else None];
    LastSetNext(s.bufferId, BuffersSet(commits), if next.bufferAttached then Some(next.bufferId) else None, t.bufferId);
    assert ScalesSet(all) == ScalesSet(commits) + [next.scale];
    LastSetNext(s.scale, ScalesSet(commits), next.scale, t.scale);
    assert TransformsSet(all) == TransformsSet(commits) + [next.transform];
    LastSetNext(s.transform, TransformsSet(commits), next.transform, t.transform);
  }

  lemma ListsNext(s: Surface, commits: seq<Pending>, next: Pending, t: Surface)
    requires ShowsLists(s, commits, t)
    ensures ShowsLists(s, commits + [next], Apply(t, next))
  {
    var all := commits + [next];
    assert CallbacksOf(all) == CallbacksOf(commits) + [next.callbacks];
    JoinedNext(CallbacksOf(commits), next.callbacks);
    assert FeedbacksOf(all) == FeedbacksOf(commits) + [next.feedbacks];
    JoinedNext(FeedbacksOf(commits), next.feedbacks);
  }

  lemma ShowsNext(s: Surface, commits: seq<Pending>, next: Pending, t: Surface)
    requires Shows(s, commits, t)
    ensures Shows(s, commits + [next], Apply(t, next))
  {
    RegionsNext(s, commits, next, t);
    ContentNext(s, commits, next, t);
    ListsNext(s, commits, next, t);
  }

  /** Each commit applied as it comes: every field is what the last commit to set it set. */
  lemma {:induction false} CommitsShow(s: Surface, commits: seq<Pending>)
    ensures Shows(s, commits, ApplyAll(s, commits))
  {
    if commits != [] {
      var front, last := commits[..|commits| - 1], commits[|commits| - 1];
      CommitsShow(s, front);
      ShowsNext(s, front, last, ApplyAll(s, front));
      assert front + [last] == commits;
    }
  }

  /** And the offset has moved by as much as all of them say, while that stays in range. */
  lemma {:induction false} CommitsMove(s: Surface, commits: seq<Pending>)
    requires Steady(s.offset, commits)
    ensures ApplyAll(s, commits).offset
         == Point(s.offset.x + OffsetSum(commits).x, s.offset.y + OffsetSum(commits).y)
  {
    if commits != [] {
      var front, last := commits[..|commits| - 1], commits[|commits| - 1];
      SteadyFront(s.offset, commits);
      CommitsMove(s, front);
      assert commits[..|commits|] == commits;
      assert OffsetInRange(Point(s.offset.x + OffsetSum(commits).x, s.offset.y + OffsetSum(commits).y));
    }
  }

  function SurfaceDamageOf(commits: seq<Pending>): (r: seq<seq<Rect>>)
    ensures |r| == |commits|
  {
    seq(|commits|, i requires 0 <= i < |commits| => commits[i].damageSurface)
  }

  function BufferDamageOf(commits: seq<Pending>): (r: seq<seq<Rect>>)
    ensures |r| == |commits|
  {
    seq(|commits|, i requires 0 <= i < |commits| => commits[i].damageBuffer)
  }

  /** Commits held back lose none of the damage they report, of either kind. */
  lemma {:induction false} HeldDamage(commits: seq<Pending>)
    ensures CacheAll(commits).damageSurface == Joined(SurfaceDamageOf(commits))
    ensures CacheAll(commits).damageBuffer == Joined(BufferDamageOf(commits))
  {
    if commits != [] {
      var front, last := commits[..|commits| - 1], commits[|commits| - 1];
      HeldDamage(front);
      assert SurfaceDamageOf(commits) == SurfaceDamageOf(front) + [last.damageSurface];
      JoinedNext(SurfaceDamageOf(front), last.damageSurface);
      assert BufferDamageOf(commits) == BufferDamageOf(front) + [last.damageBuffer];
      JoinedNext(BufferDamageOf(front), last.damageBuffer);
    }
  }

  /** And the same when they were held back, and applied as one. */
  lemma HeldCommitsShow(s: Surface, commits: seq<Pending>)
    ensures var t := Apply(s, CacheAll(commits));
      && Shows(s, commits, t)
      && (Steady(s.offset, commits) ==>
            t.offset == Point(s.offset.x + OffsetSum(commits).x, s.offset.y + OffsetSum(commits).y))
  {
    CommitsShow(s, commits);
    CacheThenApply(s, commits);
    if Steady(s.offset, commits) { CommitsMove(s, commits); }
  }
}
