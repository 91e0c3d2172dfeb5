/** Configures sent, configures acknowledged, and content held back until one is. */
module Configure {
  import opened Base

  /** The most unanswered configures an `xdg_surface` remembers. */
  const MAX_PENDING_CONFIGURES: nat := 256

  /**
   What an `xdg_surface` or a layer surface keeps of its configures. The last two are history: every
   serial ever sent to it, and how many of those its newest effective acknowledgement covers.
   */
  datatype Window = Window(
    surface: nat, layer: bool, configured: bool, pending: seq<nat>, highest: nat, sent: seq<nat>, acked: int)

  function NewWindow(surface: nat, layer: bool): Window { Window(surface, layer, false, [], 0, [], 0) }

  function Newest(s: seq<nat>, n: nat): seq<nat> { if |s| <= n then s else s[|s| - n..] }

  /** Only an `xdg_surface` forgets any. */
  function Remembered(w: Window, s: seq<nat>): seq<nat> { if w.layer then s else Newest(s, MAX_PENDING_CONFIGURES) }

  /** `record_configure`, and the layer surface's own. */
  function Record(w: Window, serial: nat): Window {
    w.(pending := Remembered(w, w.pending + [serial]), highest := serial, sent := w.sent + [serial])
  }

  predicate Refuses(w: Window, serial: nat) { serial > w.highest }

  /** `ack_configure` where it is not refused: it takes every earlier one with it, or is stale and does nothing. */
  function Ack(w: Window, serial: nat): Window {
    if Refuses(w, serial) || serial !in w.pending then w
    else w.(pending := w.pending[IndexOf(w.pending, serial) + 1..], configured := true,
            acked := |w.sent| - |w.pending| + IndexOf(w.pending, serial) + 1)
  }

  // ----- One window -----

  ghost predicate Rising(s: seq<nat>) { forall i, j :: 0 <= i < j < |s| ==> s[i] < s[j] }

  /** `pending` is what is remembered of the serials sent after the newest effective acknowledgement. */
  ghost predicate Sound(w: Window, nextSerial: nat) {
    && Rising(w.sent) && (forall x :: x in w.sent ==> 0 < x < nextSerial)
    && w.highest == (if w.sent == [] then 0 else w.sent[|w.sent| - 1])
    && (w.configured <==> w.acked > 0) && Remembers(w)
  }

  ghost predicate Remembers(w: Window) { 0 <= w.acked <= |w.sent| && w.pending == Remembered(w, w.sent[w.acked..]) }

  lemma RecordRemembers(w: Window, serial: nat)
    requires Remembers(w)
    ensures Remembers(Record(w, serial))
  {
    var t := Record(w, serial);
    assert t.sent[t.acked..] == w.sent[w.acked..] + [serial];
    NewestSnoc(w.sent[w.acked..], serial);
  }

  lemma RecordRises(s: seq<nat>, serial: nat)
    requires Rising(s) && forall x :: x in s ==> 0 < x < serial
    ensures Rising(s + [serial]) && forall x :: x in s + [serial] ==> x in s || x == serial
  {
    forall i, j | 0 <= i < j < |s + [serial]| ensures (s + [serial])[i] < (s + [serial])[j] {
      assert s[i] in s;
    }
  }

  lemma RecordKeeps(w: Window, serial: nat)
    requires Sound(w, serial) && serial > 0
    ensures Sound(Record(w, serial), serial + 1)
  {
    RecordRemembers(w, serial);
    RecordRises(w.sent, serial);
  }

  lemma NewestSnoc(s: seq<nat>, x: nat)
    ensures Newest(Newest(s, MAX_PENDING_CONFIGURES) + [x], MAX_PENDING_CONFIGURES)
      == Newest(s + [x], MAX_PENDING_CONFIGURES)
  {}

  /** What is remembered is the tail of what was sent. */
  lemma PendingIsTail(w: Window)
    requires Remembers(w)
    ensures w.acked <= |w.sent| - |w.pending| && w.pending == w.sent[|w.sent| - |w.pending|..]
    ensures if w.layer then |w.pending| == |w.sent| - w.acked
            else
              && |w.pending| <= MAX_PENDING_CONFIGURES
              && (|w.pending| < MAX_PENDING_CONFIGURES ==> |w.pending| == |w.sent| - w.acked)
  {}

  lemma AckTail(w: Window, serial: nat)
    requires Remembers(w) && serial in w.pending && !Refuses(w, serial)
    ensures var t := Ack(w, serial);
      && w.acked < t.acked <= |w.sent| && t.sent == w.sent && w.sent[t.acked - 1] == serial
      && t.pending == w.sent[t.acked..] && (w.layer || |t.pending| <= MAX_PENDING_CONFIGURES)
  {
    PendingIsTail(w);
    var first, at := |w.sent| - |w.pending|, IndexOf(w.pending, serial);
    TailOfTail(w.sent, first, at);
    AckIs(w, serial, first, at);
  }

  lemma AckIs(w: Window, serial: nat, first: int, at: nat)
    requires serial in w.pending && !Refuses(w, serial) && at == IndexOf(w.pending, serial)
    requires first == |w.sent| - |w.pending|
    ensures var t := Ack(w, serial);
      t.acked == first + at + 1 && t.sent == w.sent && t.pending == w.pending[at + 1..]
  {}

  lemma AckRemembers(w: Window, serial: nat)
    requires Remembers(w) && serial in w.pending && !Refuses(w, serial)
    ensures var t := Ack(w, serial); Remembers(t) && t.acked > w.acked && t.sent[t.acked - 1] == serial
  {
    AckTail(w, serial);
    ShortIsRemembered(w, Ack(w, serial).pending);
  }

  lemma ShortIsRemembered(w: Window, s: seq<nat>)
    requires w.layer || |s| <= MAX_PENDING_CONFIGURES
    ensures Remembered(w, s) == s
  {}

  lemma TailOfTail(s: seq<nat>, first: nat, at: nat)
    requires first + at < |s|
    ensures s[first..][at] == s[first + at] && s[first..][at + 1..] == s[first + at + 1..]
  {}

  lemma AckKeeps(w: Window, serial: nat, nextSerial: nat)
    requires Sound(w, nextSerial)
    ensures Sound(Ack(w, serial), nextSerial)
  {
    if !Refuses(w, serial) && serial in w.pending { AckRemembers(w, serial); }
  }

  /** Acknowledgements are refused exactly when newer than everything sent. Zero is older than all there is. */
  lemma RefusedExactly(w: Window, nextSerial: nat, serial: nat)
    requires Sound(w, nextSerial)
    ensures Refuses(w, serial) <==> serial > 0 && forall x :: x in w.sent ==> x < serial
  {
    if w.sent != [] {
      assert w.sent[|w.sent| - 1] in w.sent;
    }
  }

  /** The `i`th serial sent is this one, is not yet covered by an acknowledgement, and is not forgotten. */
  predicate OutstandingAt(w: Window, serial: nat, i: int) {
    0 <= w.acked <= i < |w.sent| && w.sent[i] == serial && (w.layer || |w.sent| - i <= MAX_PENDING_CONFIGURES)
  }

  /**
   An acknowledgement takes effect exactly when its serial was sent to this window after the newest
   one in effect and is still remembered; it then covers that serial and every one before it.
   */
  lemma EffectiveExactly(w: Window, nextSerial: nat, serial: nat)
    requires Sound(w, nextSerial)
    ensures Ack(w, serial) != w <==> exists i :: OutstandingAt(w, serial, i)
    ensures Ack(w, serial) != w ==>
      var t := Ack(w, serial); w.acked < t.acked && t.sent[t.acked - 1] == serial && t.configured && serial in w.sent
  {
    OutstandingExactly(w, serial);
    if serial in w.pending {
      PendingIsTail(w);
      assert serial in w.sent;
      HighestIsHighest(w, nextSerial, serial);
      AckRemembers(w, serial);
    }
  }

  lemma HighestIsHighest(w: Window, nextSerial: nat, serial: nat)
    requires Sound(w, nextSerial) && serial in w.sent
    ensures !Refuses(w, serial)
  {}

  lemma OutstandingExactly(w: Window, serial: nat)
    requires Remembers(w)
    ensures serial in w.pending <==> exists i :: OutstandingAt(w, serial, i)
  {
    PendingIsTail(w);
    var first := |w.sent| - |w.pending|;
    if serial in w.pending {
      var at :| 0 <= at < |w.pending| && w.pending[at] == serial;
      assert OutstandingAt(w, serial, first + at);
    }
    if i :| OutstandingAt(w, serial, i) {
      assert w.pending[i - first] == serial;
    }
  }

  // ----- All of them -----

  /** `layerOf` names the layer surface of a `wl_surface`. Serials come from one counter for every event there is. */
  datatype State = State(nextSerial: nat, windows: map<Key, Window>, layerOf: map<Key, Key>)

  const INITIAL: State := State(1, map[], map[])

  datatype Act =
    | Wrap(k: Key, surface: nat)
    | MakeLayer(k: Key, surface: nat)
    | Send(k: Key)
    | Other
    | AckConfigure(k: Key, serial: nat)
    | Destroy(k: Key)

  predicate Enabled(s: State, a: Act) {
    match a
    case Wrap(k, surface) => k !in s.windows
    case MakeLayer(k, surface) => k !in s.windows && Key(k.client, surface) !in s.layerOf
    case _ => true
  }

  function Step(s: State, a: Act): State
    requires Enabled(s, a)
  {
    match a
    case Wrap(k, surface) => s.(windows := s.windows[k := NewWindow(surface, false)])
    case MakeLayer(k, surface) =>
      s.(windows := s.windows[k := NewWindow(surface, true)], layerOf := s.layerOf[Key(k.client, surface) := k])
    case Send(k) =>
      s.(nextSerial := s.nextSerial + 1,
         windows := if k in s.windows then s.windows[k := Record(s.windows[k], s.nextSerial)] else s.windows)
    case Other => s.(nextSerial := s.nextSerial + 1)
    case AckConfigure(k, serial) => if k in s.windows then s.(windows := s.windows[k := Ack(s.windows[k], serial)])
      else s
    case Destroy(k) =>
      if k !in s.windows then s
      else s.(windows := s.windows - {k},
              layerOf := if s.windows[k].layer then s.layerOf - {Key(k.client, s.windows[k].surface)} else s.layerOf)
  }

  ghost predicate Runs(s: State, acts: seq<Act>, t: State)
    decreases |acts|
  {
    if acts == [] then s == t
    else Enabled(s, acts[0]) && Runs(Step(s, acts[0]), acts[1..], t)
  }

  ghost predicate Inv(s: State) {
    && s.nextSerial > 0
    && (forall k :: k in s.windows ==> Sound(s.windows[k], s.nextSerial))
    && LayersNamed(s)
  }

  ghost predicate LayersNamed(s: State) {
    forall x :: x in s.layerOf ==>
      && s.layerOf[x].client == x.client && s.layerOf[x] in s.windows
      && s.windows[s.layerOf[x]].layer && s.windows[s.layerOf[x]].surface == x.id
  }

  lemma Later(w: Window, now: nat, later: nat)
    requires Sound(w, now) && now <= later
    ensures Sound(w, later)
  {}

  lemma LayersKeep(s: State, a: Act)
    requires LayersNamed(s) && Enabled(s, a)
    ensures LayersNamed(Step(s, a))
  {}

  /** What one step does to one window it leaves. */
  lemma WindowStep(s: State, a: Act, k: Key)
    requires Enabled(s, a) && k in Step(s, a).windows
    ensures Step(s, a).windows[k] ==
      if a.Send? && a.k == k then Record(s.windows[k], s.nextSerial)
      else if a.AckConfigure? && a.k == k then Ack(s.windows[k], a.serial)
      else if (a.Wrap? || a.MakeLayer?) && a.k == k then NewWindow(a.surface, a.MakeLayer?)
      else s.windows[k]
  {}

  lemma StepKeepsInv(s: State, a: Act)
    requires Inv(s) && Enabled(s, a)
    ensures Inv(Step(s, a))
  {
    var t := Step(s, a);
    LayersKeep(s, a);
    forall k | k in t.windows ensures Sound(t.windows[k], t.nextSerial) {
      WindowStep(s, a, k);
      if k in s.windows {
        RecordKeeps(s.windows[k], s.nextSerial);
        if a.AckConfigure? { AckKeeps(s.windows[k], a.serial, s.nextSerial); }
        Later(s.windows[k], s.nextSerial, t.nextSerial);
      }
    }
  }

  lemma {:induction false} RunKeepsInv(s: State, acts: seq<Act>, t: State)
    requires Inv(s) && Runs(s, acts, t)
    ensures Inv(t)
    decreases |acts|
  {
    if acts != [] {
      StepKeepsInv(s, acts[0]);
      RunKeepsInv(Step(s, acts[0]), acts[1..], t);
    }
  }

  /** After any run every window remembers the newest of what it has not answered, and nothing else. */
  lemma PendingIsNewest(acts: seq<Act>, s: State, k: Key)
    requires Runs(INITIAL, acts, s) && k in s.windows
    ensures var w := s.windows[k];
      0 <= w.acked <= |w.sent| && w.pending == if w.layer then w.sent[w.acked..]
        else Newest(w.sent[w.acked..], MAX_PENDING_CONFIGURES)
  {
    RunKeepsInv(INITIAL, acts, s);
  }

  // ----- What was sent, told by the run alone -----

  /** How many serials a run has used. */
  function Used(acts: seq<Act>): nat {
    if acts == [] then 0 else
      Used(acts[..|acts| - 1]) + if acts[|acts| - 1].Send? || acts[|acts| - 1].Other? then 1 else 0
  }

  /** The serials sent to an object since it was last made. */
  function SentTo(acts: seq<Act>, k: Key): seq<nat> {
    if acts == [] then [] else
      var front := acts[..|acts| - 1];
      match acts[|acts| - 1]
      case Wrap(j, surface) => if j == k then [] else SentTo(front, k)
      case MakeLayer(j, surface) => if j == k then [] else SentTo(front, k)
      case Send(j) => SentTo(front, k) + if j == k then [1 + Used(front)] else []
      case _ => SentTo(front, k)
  }

  lemma {:induction false} LastStep(s: State, acts: seq<Act>, t: State) returns (u: State)
    requires Runs(s, acts, t) && acts != []
    ensures Runs(s, acts[..|acts| - 1], u) && Enabled(u, acts[|acts| - 1]) && Step(u, acts[|acts| - 1]) == t
    decreases |acts|
  {
    if |acts| == 1 {
      u := s;
      assert acts[1..] == [];
    } else {
      u := LastStep(Step(s, acts[0]), acts[1..], t);
      assert acts[1..][..|acts| - 2] == acts[..|acts| - 1][1..];
    }
  }

  /** After any run each window has been sent exactly the serials of the configures the run sent it, oldest first. */
  lemma {:induction false} SentIsSent(acts: seq<Act>, s: State)
    requires Runs(INITIAL, acts, s)
    ensures s.nextSerial == 1 + Used(acts) && forall k :: k in s.windows ==> s.windows[k].sent == SentTo(acts, k)
    decreases |acts|
  {
    if acts != [] {
      var u := LastStep(INITIAL, acts, s);
      SentIsSent(acts[..|acts| - 1], u);
      forall k | k in s.windows ensures s.windows[k].sent == SentTo(acts, k) { WindowStep(u, acts[|acts| - 1], k); }
    }
  }

  // ----- Holding content back -----

  predicate Wraps(s: State, k: Key, surface: Key) {
    k in s.windows && !s.windows[k].layer && k.client == surface.client && s.windows[k].surface == surface.id
  }

  /** `check_configured_before_buffer`; of several `xdg_surface`s on one surface, the map's order picks. */
  ghost predicate MayShow(s: State, surface: Key, picked: Option<Key>) {
    if surface in s.layerOf then s.layerOf[surface] in s.windows && s.windows[s.layerOf[surface]].configured
    else picked.Some? ==> picked.value in s.windows && s.windows[picked.value].configured
  }

  /** What the search for a wrapping `xdg_surface` may come up with. */
  ghost predicate MayPick(s: State, surface: Key, picked: Option<Key>) {
    match picked
    case Some(k) => Wraps(s, k, surface)
    case None => forall k :: !Wraps(s, k, surface)
  }

  /** Whether a window has acknowledged a configure that was sent to it. */
  ghost predicate Answered(w: Window) { 0 < w.acked <= |w.sent| }

  /**
   After any run, content may be shown on a surface with one wrapping `xdg_surface`, and no layer
   surface, exactly when that one has acknowledged a configure really sent to it.
   */
  lemma ContentNeedsAck(acts: seq<Act>, s: State, surface: Key, k: Key, picked: Option<Key>)
    requires Runs(INITIAL, acts, s) && surface !in s.layerOf
    requires Wraps(s, k, surface) && (forall j :: Wraps(s, j, surface) ==> j == k) && MayPick(s, surface, picked)
    ensures MayShow(s, surface, picked) <==> Answered(s.windows[k])
  {
    RunKeepsInv(INITIAL, acts, s);
  }

  /** And on a layer surface, when it has. */
  lemma LayerNeedsAck(acts: seq<Act>, s: State, surface: Key, picked: Option<Key>)
    requires Runs(INITIAL, acts, s) && surface in s.layerOf
    ensures MayShow(s, surface, picked) <==> s.layerOf[surface] in s.windows && Answered(s.windows[s.layerOf[surface]])
  {
    RunKeepsInv(INITIAL, acts, s);
  }

  predicate NewlyAnswers(w: Window, t: Window, serial: nat) {
    serial in w.sent && w.acked < t.acked && 0 < t.acked <= |t.sent| && t.sent[t.acked - 1] == serial
  }

  /** What a window answered, it was sent: only an acknowledgement of one of its own serials moves it on. */
  lemma AnswersOnlyItsOwn(s: State, a: Act, k: Key)
    requires Inv(s) && Enabled(s, a) && k in s.windows && k in Step(s, a).windows
    requires Step(s, a).windows[k].acked != s.windows[k].acked
    ensures a.AckConfigure? && a.k == k && NewlyAnswers(s.windows[k], Step(s, a).windows[k], a.serial)
  {
    WindowStep(s, a, k);
    if a.AckConfigure? && a.k == k {
      EffectiveExactly(s.windows[k], s.nextSerial, a.serial);
      AckKeeps(s.windows[k], a.serial, s.nextSerial);
    }
  }

  // ----- In place -----

  class Desk {
    var nextSerial: nat
    var windows: map<Key, Window>
    var layerOf: map<Key, Key>

    ghost function Model(): State
      reads this
    {
      State(nextSerial, windows, layerOf)
    }

    constructor ()
      ensures Model() == INITIAL
    {
      nextSerial, windows, layerOf := 1, map[], map[];
    }

    /** `send_configure` and `record_configure`. */
    method SendConfigure(k: Key) returns (serial: nat)
      modifies this
      ensures Model() == Step(old(Model()), Send(k)) && serial == old(nextSerial)
    {
      serial := nextSerial;
      nextSerial := nextSerial + 1;
      if k !in windows { return; }
      var w := windows[k];
      var pending := w.pending + [serial];
      ghost var all := pending;
      if !w.layer {
        while |pending| > MAX_PENDING_CONFIGURES
          invariant |pending| <= |all| && pending == all[|all| - |pending|..]
          invariant |pending| >= MAX_PENDING_CONFIGURES || pending == all
        {
          pending := pending[1..];
        }
      }
      windows := windows[k := w.(pending := pending, highest := serial, sent := w.sent + [serial])];
    }

    method Position(s: seq<nat>, x: nat) returns (at: Option<nat>)
      ensures at.None? <==> x !in s
      ensures at.Some? ==> x in s && at.value == IndexOf(s, x)
    {
      for i := 0 to |s|
        invariant x !in s[..i]
      {
        if s[i] == x {
          FirstIndex(s, x, i);
          return Some(i);
        }
      }
      return None;
    }

    /** `ack_configure`, on an `xdg_surface` or a layer surface. */
    method HandleAckConfigure(k: Key, serial: nat) returns (error: bool)
      requires k in windows
      modifies this`windows
      ensures error == Refuses(old(windows)[k], serial)
      ensures Model() == Step(old(Model()), AckConfigure(k, serial))
    {
      var w := windows[k];
      assert windows == windows[k := w];
      if serial > w.highest { return true; }
      var at := Position(w.pending, serial);
      if at.Some? {
        windows := windows[k := w.(pending := w.pending[at.value + 1..], configured := true,
                                   acked := |w.sent| - |w.pending| + at.value + 1)];
      }
      return false;
    }

    /** `check_configured_before_buffer`. */
    method CheckConfiguredBeforeBuffer(surface: Key) returns (ok: bool, ghost picked: Option<Key>)
      ensures surface !in layerOf ==> MayPick(Model(), surface, picked)
      ensures ok == MayShow(Model(), surface, picked)
    {
      picked := None;
      if surface in layerOf {
        return layerOf[surface] in windows && windows[layerOf[surface]].configured, None;
      }
      var left := windows.Keys;
      while left != {}
        invariant left <= windows.Keys && forall k :: k in windows && k !in left ==> !Wraps(Model(), k, surface)
        decreases left
      {
        var k :| k in left;
        left := left - {k};
        if !windows[k].layer && k.client == surface.client && windows[k].surface == surface.id {
          return windows[k].configured, Some(k);
        }
      }
      return true, None;
    }
  }

  lemma {:induction false} FirstIndex(s: seq<nat>, x: nat, i: nat)
    requires i < |s| && s[i] == x && x !in s[..i]
    ensures IndexOf(s, x) == i
  {
    if i > 0 {
      assert s[0] in s[..i] && s[1..][..i - 1] == s[..i][1..];
      FirstIndex(s[1..], x, i - 1);
    }
  }
}
