/** Message arguments on the wire, written and read back. */
module Wire {
  import opened Base

  type Byte = x: int | 0 <= x < 256

  /** A string's bytes. The writer refuses one too long for its length to be sent with the terminator. */
  type Text = t: seq<Byte> | |t| < 0xffff_ffff

  /** Fixed-point numbers are carried as their 24.8 representation. */
  datatype Arg =
    | Unsigned(n: U32)
    | Signed(i: I32)
    | String(text: Text)
    | Nullable(maybe: Option<Text>)
    | Fixed(raw: I32)

  datatype Kind = UnsignedKind | SignedKind | StringKind | NullableKind | FixedKind

  function KindOf(a: Arg): Kind {
    match a
    case Unsigned(_) => UnsignedKind
    case Signed(_) => SignedKind
    case String(_) => StringKind
    case Nullable(_) => NullableKind
    case Fixed(_) => FixedKind
  }

  function KindsOf(args: seq<Arg>): seq<Kind> { if args == [] then [] else [KindOf(args[0])] + KindsOf(args[1..]) }

  // ----- Words -----

  /** The low bytes of a number, least first. */
  function LowBytes(n: nat, count: nat): (r: seq<Byte>)
    ensures |r| == count
  {
    if count == 0 then [] else [n % 256] + LowBytes(n / 256, count - 1)
  }

  function FromLow(b: seq<Byte>): nat { if b == [] then 0 else b[0] + 256 * FromLow(b[1..]) }

  /** What `count` bytes can tell apart. */
  function Limit(count: nat): nat { if count == 0 then 1 else 256 * Limit(count - 1) }

  lemma {:induction false} LowBytesRoundTrip(n: nat, count: nat)
    requires n < Limit(count)
    ensures FromLow(LowBytes(n, count)) == n
  {
    if count > 0 {
      LowBytesRoundTrip(n / 256, count - 1);
      assert LowBytes(n, count)[1..] == LowBytes(n / 256, count - 1);
    }
  }

  lemma {:induction false} FromLowBounded(b: seq<Byte>)
    ensures FromLow(b) < Limit(|b|)
  {
    if b != [] { FromLowBounded(b[1..]); }
  }

  /** `to_le_bytes`. */
  function ToBytes(n: U32): (r: seq<Byte>)
    ensures |r| == 4
  {
    LowBytes(n, 4)
  }

  lemma FourBytes(b: seq<Byte>)
    requires |b| == 4
    ensures FromLow(b) < 0x1_0000_0000 == Limit(4)
  {
    FromLowBounded(b);
    assert Limit(4) == 256 * Limit(3) && Limit(3) == 256 * Limit(2) && Limit(2) == 256 * Limit(1)
      && Limit(1) == 256 * Limit(0);
  }

  /** `from_le_bytes`. */
  function FromBytes(b: seq<Byte>): U32
    requires |b| == 4
  {
    FourBytes(b);
    FromLow(b)
  }

  lemma BytesRoundTrip(n: U32)
    ensures FromBytes(ToBytes(n)) == n
  {
    FourBytes(ToBytes(n));
    LowBytesRoundTrip(n, 4);
  }

  /** An `i32`'s bits, as a `u32`. */
  function Bits(i: I32): U32 { if i < 0 then i + 0x1_0000_0000 else i }

  function FromBits(n: U32): I32 { if n >= 0x8000_0000 then n - 0x1_0000_0000 else n }

  /** Up to the next multiple of four, a word at a time. */
  function Padded(len: nat): (r: nat)
    ensures len <= r < len + 4
  {
    if len == 0 then 0 else if len <= 4 then 4 else 4 + Padded(len - 4)
  }

  /** `(len + 3) & !3`. */
  lemma {:induction false} PaddedIs(len: nat)
    ensures Padded(len) == (len + 3) / 4 * 4
  {
    if len > 4 { PaddedIs(len - 4); }
  }

  function Zeros(n: nat): (r: seq<Byte>)
    ensures |r| == n
  {
    seq(n, _ => 0)
  }

  // ----- Writing -----

  function EncodeText(t: Text): seq<Byte> {
    ToBytes(|t| + 1) + t + [0] + Zeros(Padded(|t| + 1) - (|t| + 1))
  }

  function Encode(a: Arg): seq<Byte> {
    match a
    case Unsigned(n) => ToBytes(n)
    case Signed(i) => ToBytes(Bits(i))
    case String(t) => EncodeText(t)
    case Nullable(None) => ToBytes(0)
    case Nullable(Some(t)) => EncodeText(t)
    case Fixed(raw) => ToBytes(Bits(raw))
  }

  function EncodeAll(args: seq<Arg>): seq<Byte> { if args == [] then [] else Encode(args[0]) + EncodeAll(args[1..]) }

  /** A word goes least byte first. */
  lemma LeastByteFirst(n: U32)
    ensures var b: seq<int> := ToBytes(n); n == b[0] + 0x100 * b[1] + 0x1_0000 * b[2] + 0x100_0000 * b[3]
  {
    assert ToBytes(n)[1..] == LowBytes(n / 256, 3) && ToBytes(n)[2..] == LowBytes(n / 256 / 256, 2);
    assert ToBytes(n)[3..] == LowBytes(n / 256 / 256 / 256, 1);
  }

  /** A negative number goes as its two's complement. */
  lemma BitsAreComplement(i: I32)
    ensures (Bits(i) - i) % 0x1_0000_0000 == 0 && FromBits(Bits(i)) == i
  {}

  /** A string goes as its length with a terminator, its bytes, and then zeros only, at least one, to a whole word. */
  lemma TextThenZeros(t: Text)
    ensures var e, n := EncodeText(t), 4 + |t|;
      && |e| % 4 == 0 && n < |e| <= n + 4
      && e[..4] == ToBytes(|t| + 1) && e[4..n] == t && (forall i :: n <= i < |e| ==> e[i] == 0)
  {
    PaddedIs(|t| + 1);
    var tail := [0] + Zeros(Padded(|t| + 1) - (|t| + 1));
    assert EncodeText(t) == ToBytes(|t| + 1) + t + tail;
  }

  lemma Joins(a: seq<Byte>, b: seq<Byte>, c: seq<Byte>, d: seq<Byte>, e: seq<Byte>)
    ensures a + b + c + d + e == a + (b + c + d + e)
  {}

  /** An `ArgWriter`, whose every request returns it with more in its buffer. */
  class ArgWriter {
    var buf: seq<Byte>

    constructor ()
      ensures buf == []
    {
      buf := [];
    }

    method U32(n: U32)
      modifies this
      ensures buf == old(buf) + Encode(Unsigned(n))
    {
      buf := buf + ToBytes(n);
    }

    method I32(i: I32)
      modifies this
      ensures buf == old(buf) + Encode(Signed(i))
    {
      buf := buf + ToBytes(Bits(i));
    }

    method String(t: Text)
      modifies this
      ensures buf == old(buf) + Encode(Arg.String(t))
    {
      ghost var before := buf;
      var len := |t| + 1;
      buf := buf + ToBytes(len);
      buf := buf + t;
      buf := buf + [0];
      PaddedIs(len);
      var padding := (len + 3) / 4 * 4 - len;
      Joins(before, ToBytes(len), t, [0], Zeros(padding));
      buf := buf + Zeros(padding);
    }

    method StringOrNull(maybe: Option<Text>)
      modifies this
      ensures buf == old(buf) + Encode(Nullable(maybe))
    {
      match maybe
      case Some(t) => String(t);
      case None => U32(0);
    }

    method FixedRaw(raw: I32)
      modifies this
      ensures buf == old(buf) + Encode(Fixed(raw))
    {
      I32(raw);
    }
  }

  // ----- Reading -----

  /** `read_u32`. */
  function ReadU32(buf: seq<Byte>, at: nat): Option<U32> {
    if at + 4 <= |buf| then Some(FromBytes(buf[at..at + 4])) else None
  }

  /** `read_string`: the text and the bytes it took. A length of zero reads as an empty string. */
  function ReadString(buf: seq<Byte>, at: nat): Option<(seq<Byte>, nat)> {
    var len := ReadU32(buf, at);
    if len.None? then None
    else if len.value == 0 then Some(([], 4))
    else
      var padded := Padded(len.value);
      if |buf| < at + 4 + padded then None else Some((buf[at + 4..at + 4 + len.value - 1], 4 + padded))
  }

  /** `read_string_or_null`: there a length of zero is no string at all. */
  function ReadStringOrNull(buf: seq<Byte>, at: nat): Option<(Option<seq<Byte>>, nat)> {
    var len := ReadU32(buf, at);
    if len.None? then None
    else if len.value == 0 then Some((None, 4))
    else
      var read := ReadString(buf, at);
      if read.None? then None else Some((Some(read.value.0), read.value.1))
  }

  /** The longest string there is to read is no longer than its length allows. */
  lemma ReadStringFits(buf: seq<Byte>, at: nat)
    ensures ReadString(buf, at).Some? ==> |ReadString(buf, at).value.0| < 0xffff_ffff
  {}

  /** One argument of this kind at this place, and how many bytes it takes. */
  function Decode(kind: Kind, buf: seq<Byte>, at: nat): Option<(Arg, nat)> {
    ReadStringFits(buf, at);
    var word := ReadU32(buf, at);
    if word.None? then None else
      match kind
      case UnsignedKind => Some((Unsigned(word.value), 4))
      case SignedKind => Some((Signed(FromBits(word.value)), 4))
      case FixedKind => Some((Fixed(FromBits(word.value)), 4))
      case StringKind =>
        var read := ReadString(buf, at);
        if read.None? then None else Some((String(read.value.0), read.value.1))
      case NullableKind =>
        var read := ReadStringOrNull(buf, at);
        if read.None? then None
        else Some((Nullable(if read.value.0.None? then None else Some(read.value.0.value)), read.value.1))
  }

  /** All of a signature, and where reading stopped. */
  function DecodeAll(kinds: seq<Kind>, buf: seq<Byte>, at: nat): Option<(seq<Arg>, nat)> {
    if kinds == [] then Some(([], at)) else
      var first := Decode(kinds[0], buf, at);
      if first.None? then None else
        var rest := DecodeAll(kinds[1..], buf, at + first.value.1);
        if rest.None? then None else Some(([first.value.0] + rest.value.0, rest.value.1))
  }

  /** An `ArgReader`: a cursor that moves on only past what was read whole. */
  class ArgReader {
    const buf: seq<Byte>
    var pos: nat

    constructor (buf: seq<Byte>)
      ensures this.buf == buf && pos == 0
    {
      this.buf, pos := buf, 0;
    }

    method U32() returns (n: Option<U32>)
      modifies this
      ensures var r := Decode(UnsignedKind, buf, old(pos));
        if r.None? then n.None? && pos == old(pos)
          else n.Some? && r.value.0 == Unsigned(n.value) && pos == old(pos) + r.value.1
    {
      n := ReadU32(buf, pos);
      if n.Some? { pos := pos + 4; }
    }

    method I32() returns (i: Option<I32>)
      modifies this
      ensures var r := Decode(SignedKind, buf, old(pos));
        if r.None? then i.None? && pos == old(pos)
          else i.Some? && r.value.0 == Signed(i.value) && pos == old(pos) + r.value.1
    {
      var word := ReadU32(buf, pos);
      if word.None? { return None; }
      pos := pos + 4;
      return Some(FromBits(word.value));
    }

    method String() returns (t: Option<seq<Byte>>)
      modifies this
      ensures var r := Decode(StringKind, buf, old(pos));
        if r.None? then t.None? && pos == old(pos)
          else t.Some? && r.value.0.text == t.value && pos == old(pos) + r.value.1
    {
      var read := ReadString(buf, pos);
      if read.None? { return None; }
      pos := pos + read.value.1;
      return Some(read.value.0);
    }

    method StringOrNull() returns (t: Option<Option<seq<Byte>>>)
      modifies this
      ensures var r := Decode(NullableKind, buf, old(pos));
        if r.None? then t.None? && pos == old(pos)
        else t.Some? && pos == old(pos) + r.value.1 && (r.value.0.maybe.None? <==> t.value.None?)
             && (t.value.Some? ==> r.value.0.maybe.value == t.value.value)
    {
      var read := ReadStringOrNull(buf, pos);
      if read.None? { return None; }
      pos := pos + read.value.1;
      return Some(read.value.0);
    }
  }

  // ----- What is written is what is read -----

  /** How many words an argument takes. */
  function Words(a: Arg): nat {
    match a
    case String(t) => 1 + (|t| + 4) / 4
    case Nullable(Some(t)) => 1 + (|t| + 4) / 4
    case _ => 1
  }

  function AllWords(args: seq<Arg>): nat { if args == [] then 0 else Words(args[0]) + AllWords(args[1..]) }

  lemma EncodeLength(a: Arg)
    ensures |Encode(a)| == 4 * Words(a)
  {
    if a.String? { PaddedIs(|a.text| + 1); }
    if a.Nullable? && a.maybe.Some? { PaddedIs(|a.maybe.value| + 1); }
  }

  /** A message's arguments are always a whole number of words. */
  lemma {:induction false} WholeWords(args: seq<Arg>)
    ensures |EncodeAll(args)| == 4 * AllWords(args) && |EncodeAll(args)| % 4 == 0
  {
    if args != [] {
      EncodeLength(args[0]);
      WholeWords(args[1..]);
      assert |EncodeAll(args)| == |Encode(args[0])| + |EncodeAll(args[1..])|;
    }
  }

  lemma WordReads(buf: seq<Byte>, at: nat, n: U32)
    requires at + 4 <= |buf| && buf[at..at + 4] == ToBytes(n)
    ensures ReadU32(buf, at) == Some(n)
  {
    BytesRoundTrip(n);
  }

  lemma Subslice(buf: seq<Byte>, at: nat, n: nat, low: nat, high: nat)
    requires at + n <= |buf| && low <= high <= n
    ensures buf[at..at + n][low..high] == buf[at + low..at + high]
  {
    var a, b := buf[at..at + n][low..high], buf[at + low..at + high];
    forall k | 0 <= k < high - low ensures a[k] == b[k] {
      assert a[k] == buf[at..at + n][low + k] == buf[at + low + k];
    }
  }

  /** A string wherever it stands in a buffer. */
  lemma TextReads(buf: seq<Byte>, at: nat, t: Text)
    requires at + |EncodeText(t)| <= |buf| && buf[at..at + |EncodeText(t)|] == EncodeText(t)
    ensures ReadString(buf, at) == Some((t, |EncodeText(t)|)) && ReadU32(buf, at) == Some(|t| + 1)
  {
    var e := EncodeText(t);
    assert buf[at..at + 4] == e[..4] == ToBytes(|t| + 1);
    WordReads(buf, at, |t| + 1);
    assert e[4..4 + |t|] == t;
    Subslice(buf, at, |e|, 4, 4 + |t|);
  }

  lemma ArgReads(buf: seq<Byte>, at: nat, a: Arg)
    requires at + |Encode(a)| <= |buf| && buf[at..at + |Encode(a)|] == Encode(a)
    ensures Decode(KindOf(a), buf, at) == Some((a, |Encode(a)|))
  {
    match a
    case Unsigned(n) => WordReads(buf, at, n);
    case Signed(i) => WordReads(buf, at, Bits(i));
    case Fixed(raw) => WordReads(buf, at, Bits(raw));
    case String(t) => TextReads(buf, at, t);
    case Nullable(None) => WordReads(buf, at, 0);
    case Nullable(Some(t)) => TextReads(buf, at, t);
  }

  lemma Middle(before: seq<Byte>, e: seq<Byte>, tail: seq<Byte>, after: seq<Byte>)
    ensures var buf := before + (e + tail) + after;
      && |before| + |e| <= |buf| && buf[|before|..|before| + |e|] == e
      && buf == (before + e) + tail + after
  {}

  /** An argument reads the same with anything before it and anything after. */
  lemma ArgReadsInPlace(a: Arg, before: seq<Byte>, tail: seq<Byte>, after: seq<Byte>)
    ensures Decode(KindOf(a), before + (Encode(a) + tail) + after, |before|) == Some((a, |Encode(a)|))
  {
    Middle(before, Encode(a), tail, after);
    ArgReads(before + (Encode(a) + tail) + after, |before|, a);
  }

  lemma Nothing(buf: seq<Byte>, at: nat)
    ensures DecodeAll([], buf, at) == Some(([], at))
  {}

  /** A signature decoded one argument at a time. */
  lemma DecodeStep(kinds: seq<Kind>, buf: seq<Byte>, at: nat, first: (Arg, nat))
    requires kinds != [] && Decode(kinds[0], buf, at) == Some(first)
    ensures var rest := DecodeAll(kinds[1..], buf, at + first.1);
      DecodeAll(kinds, buf, at) == if rest.None? then None else Some(([first.0] + rest.value.0, rest.value.1))
  {}

  ghost predicate ReadsBack(args: seq<Arg>, before: seq<Byte>, e: seq<Byte>, after: seq<Byte>) {
    DecodeAll(KindsOf(args), before + e + after, |before|) == Some((args, |before| + |e|))
  }

  lemma KindsCons(a: Arg, rest: seq<Arg>)
    ensures KindsOf([a] + rest) == [KindOf(a)] + KindsOf(rest)
  {
    assert ([a] + rest)[1..] == rest;
  }

  lemma FirstReads(a: Arg, rest: seq<Arg>, before: seq<Byte>, e: seq<Byte>, tail: seq<Byte>, after: seq<Byte>)
    requires Decode(KindOf(a), before + (e + tail) + after, |before|) == Some((a, |e|))
    requires ReadsBack(rest, before + e, tail, after)
    ensures ReadsBack([a] + rest, before, e + tail, after)
  {
    Middle(before, e, tail, after);
    KindsCons(a, rest);
    assert ([KindOf(a)] + KindsOf(rest))[1..] == KindsOf(rest);
    DecodeStep([KindOf(a)] + KindsOf(rest), before + (e + tail) + after, |before|, (a, |e|));
  }

  /** Any arguments, anywhere in a buffer, are read back as they were written, and all their bytes with them. */
  lemma {:induction false} RoundTripAt(args: seq<Arg>, before: seq<Byte>, after: seq<Byte>)
    ensures ReadsBack(args, before, EncodeAll(args), after)
  {
    if args == [] {
      Nothing(before + [] + after, |before|);
    } else {
      RoundTripAt(args[1..], before + Encode(args[0]), after);
      ArgReadsInPlace(args[0], before, EncodeAll(args[1..]), after);
      FirstReads(args[0], args[1..], before, Encode(args[0]), EncodeAll(args[1..]), after);
      assert [args[0]] + args[1..] == args;
    }
  }

  lemma RoundTrip(args: seq<Arg>)
    ensures DecodeAll(KindsOf(args), EncodeAll(args), 0) == Some((args, |EncodeAll(args)|))
  {
    RoundTripAt(args, [], []);
    assert [] + EncodeAll(args) + [] == EncodeAll(args);
  }

  /** A string's length is there before its text is all there. */
  lemma TextCutShort(t: Text, buf: seq<Byte>, at: nat)
    requires at + 4 <= |buf| < at + |EncodeText(t)| && buf[at..] == EncodeText(t)[..|buf| - at]
    ensures ReadU32(buf, at) == Some(|t| + 1) && ReadString(buf, at).None?
  {
    assert buf[at..at + 4] == EncodeText(t)[..4] == ToBytes(|t| + 1);
    WordReads(buf, at, |t| + 1);
  }

  /** What an argument's bytes cut short read as: nothing. */
  lemma CutShort(a: Arg, buf: seq<Byte>, at: nat)
    requires at <= |buf| < at + |Encode(a)| && buf[at..] == Encode(a)[..|buf| - at]
    ensures Decode(KindOf(a), buf, at).None?
  {
    if |buf| >= at + 4 { TextCutShort(if a.String? then a.text else a.maybe.value, buf, at); }
  }

  lemma FirstCut(args: seq<Arg>, before: seq<Byte>, cut: seq<Byte>)
    requires args != [] && |cut| < |Encode(args[0])| && cut == Encode(args[0])[..|cut|]
    ensures DecodeAll(KindsOf(args), before + cut, |before|).None?
  {
    assert (before + cut)[|before|..] == cut;
    CutShort(args[0], before + cut, |before|);
  }

  lemma LaterCut(a: Arg, rest: seq<Arg>, before: seq<Byte>, e: seq<Byte>, cut: seq<Byte>)
    requires Decode(KindOf(a), before + (e + cut) + [], |before|) == Some((a, |e|))
    requires DecodeAll(KindsOf(rest), before + e + cut, |before + e|).None?
    ensures DecodeAll(KindsOf([a] + rest), before + (e + cut), |before|).None?
  {
    Middle(before, e, cut, []);
    assert before + (e + cut) + [] == before + (e + cut) && (before + e) + cut + [] == before + e + cut;
    KindsCons(a, rest);
    assert ([KindOf(a)] + KindsOf(rest))[1..] == KindsOf(rest);
    DecodeStep([KindOf(a)] + KindsOf(rest), before + (e + cut), |before|, (a, |e|));
  }

  lemma CutAfter(e: seq<Byte>, rest: seq<Byte>, n: nat)
    requires |e| <= n <= |e + rest|
    ensures (e + rest)[..n] == e + rest[..n - |e|]
  {}

  /** A message cut short anywhere is refused, and never taken for a shorter one. */
  lemma {:induction false} PrefixesFailAt(args: seq<Arg>, before: seq<Byte>, n: nat)
    requires n < |EncodeAll(args)|
    ensures DecodeAll(KindsOf(args), before + EncodeAll(args)[..n], |before|).None?
  {
    var e, rest := Encode(args[0]), EncodeAll(args[1..]);
    if n < |e| {
      assert (e + rest)[..n] == e[..n];
      FirstCut(args, before, e[..n]);
    } else {
      var cut := rest[..n - |e|];
      PrefixesFailAt(args[1..], before + e, n - |e|);
      ArgReadsInPlace(args[0], before, cut, []);
      LaterCut(args[0], args[1..], before, e, cut);
      CutAfter(e, rest, n);
      assert [args[0]] + args[1..] == args;
    }
  }

  lemma PrefixesFail(args: seq<Arg>, n: nat)
    requires n < |EncodeAll(args)|
    ensures DecodeAll(KindsOf(args), EncodeAll(args)[..n], 0).None?
  {
    PrefixesFailAt(args, [], n);
    assert [] + EncodeAll(args)[..n] == EncodeAll(args)[..n];
  }

  /** Two messages of one signature are told apart by their bytes. */
  lemma NoTwoAlike(a: seq<Arg>, b: seq<Arg>)
    requires KindsOf(a) == KindsOf(b) && EncodeAll(a) == EncodeAll(b)
    ensures a == b
  {
    RoundTrip(a);
    RoundTrip(b);
  }

  /** A reader that expects a string takes a null one for an empty one; only the nullable reader tells. */
  lemma NullReadsAsEmpty(before: seq<Byte>, after: seq<Byte>)
    ensures var buf := before + Encode(Nullable(None)) + after;
      && Decode(StringKind, buf, |before|) == Some((String([]), 4))
      && Decode(NullableKind, buf, |before|) == Some((Nullable(None), 4))
    ensures Encode(Nullable(None)) != Encode(String([]))
  {
    var buf := before + Encode(Nullable(None)) + after;
    assert buf[|before|..|before| + 4] == ToBytes(0);
    WordReads(buf, |before|, 0);
  }
}
