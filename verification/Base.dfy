/** Names every part of the model shares. */
module Base {

  datatype Option<+T> = None | Some(value: T)

  /** A `ClientObjectId`: object ids are unique only within one client. */
  datatype Key = Key(client: nat, id: nat)

  type U32 = x: int | 0 <= x < 0x1_0000_0000

  const I32_MIN: int := -0x8000_0000
  const I32_MAX: int := 0x7fff_ffff
  type I32 = x: int | I32_MIN <= x <= I32_MAX

  /** `wl_display`, which every client has from the start. */
  const DISPLAY_ID: nat := 1

  /** The first object id that belongs to the compositor's half of a client's id space. */
  const SERVER_ID_BASE: nat := 0xff00_0000

  /** The id at which a client's server half is spent. */
  const SERVER_ID_END: nat := 0xffff_ffff

  /** An id a client may give to an object of its own, while nothing has it. */
  predicate ForClient(id: nat) { id != 0 && id != DISPLAY_ID && id < SERVER_ID_BASE }

  /** Division by two as Rust does it, toward zero. */
  function Half(x: int): int { if x < 0 then -(-x / 2) else x / 2 }

  /** The first place `x` is found at. */
  function IndexOf(s: seq<nat>, x: nat): (i: nat)
    requires x in s
    ensures i < |s| && s[i] == x && forall j :: 0 <= j < i ==> s[j] != x
  {
    if s[0] == x then 0 else 1 + IndexOf(s[1..], x)
  }

  /** `retain(|&id| id != x)` on a list. */
  function Without<T(==, !new)>(s: seq<T>, x: T): (r: seq<T>)
    ensures x !in r
    ensures forall y :: y in r <==> y in s && y != x
    ensures |r| <= |s|
  {
    if s == [] then [] else if s[0] == x then Without(s[1..], x) else [s[0]] + Without(s[1..], x)
  }

  ghost predicate Distinct<T>(s: seq<T>) {
    forall i, j :: 0 <= i < j < |s| ==> s[i] != s[j]
  }

  lemma {:induction false} WithoutDistinct<T(!new)>(s: seq<T>, x: T)
    requires Distinct(s)
    ensures Distinct(Without(s, x))
  {
    if s != [] {
      WithoutDistinct(s[1..], x);
      if s[0] != x {
        assert s[0] !in s[1..];
      }
    }
  }

  /** A list that does not hold `x` is left alone by `Without`. */
  lemma {:induction false} WithoutAbsent<T(!new)>(s: seq<T>, x: T)
    requires x !in s
    ensures Without(s, x) == s
  {
    if s != [] {
      WithoutAbsent(s[1..], x);
      assert s == [s[0]] + s[1..];
    }
  }

  lemma DistinctConcat<T>(a: seq<T>, b: seq<T>)
    requires Distinct(a) && Distinct(b) && forall x :: x in a ==> x !in b
    ensures Distinct(a + b)
  {
    forall i, j | 0 <= i < j < |a + b| ensures (a + b)[i] != (a + b)[j] {
      assert i < |a| <= j ==> (a + b)[i] in a && (a + b)[j] in b;
    }
  }
}
