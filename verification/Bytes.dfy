/** Bytes of memory and the fixed-width integers stored in them, least significant byte first. */
module Bytes {

  type Byte = b: int | 0 <= b < 0x100

  type Uint16 = x: int | 0 <= x < 0x1_0000
  type Uint32 = x: int | 0 <= x < 0x1_0000_0000
  type Int32 = x: int | -0x8000_0000 <= x < 0x8000_0000
  type Int64 = x: int | -0x8000_0000_0000_0000 <= x < 0x8000_0000_0000_0000

  /** The number of values that `w` bytes can hold. */
  function Range(w: nat): (p: nat)
    ensures p > 0
  {
    if w == 0 then 1 else 0x100 * Range(w - 1)
  }

  lemma Ranges()
    ensures Range(2) == 0x1_0000
    ensures Range(4) == 0x1_0000_0000
    ensures Range(8) == 0x1_0000_0000_0000_0000
  {
    assert Range(1) == 0x100;
    assert Range(3) == 0x100 * Range(2);
    assert Range(5) == 0x100 * Range(4);
    assert Range(6) == 0x100 * Range(5);
    assert Range(7) == 0x100 * Range(6);
  }

  function ToBytes(x: nat, w: nat): (s: seq<Byte>)
    ensures |s| == w
  {
    if w == 0 then [] else [x % 0x100] + ToBytes(x / 0x100, w - 1)
  }

  function FromBytes(s: seq<Byte>): (x: nat)
    ensures x < Range(|s|)
  {
    if s == [] then 0 else s[0] + 0x100 * FromBytes(s[1..])
  }

  lemma {:induction false} BytesRoundTrip(x: nat, w: nat)
    requires x < Range(w)
    ensures FromBytes(ToBytes(x, w)) == x
  {
    if w > 0 {
      BytesRoundTrip(x / 0x100, w - 1);
      assert ToBytes(x, w)[1..] == ToBytes(x / 0x100, w - 1);
    }
  }

  /** Two's complement in `w` bytes. */
  function ToUnsigned(x: int, w: nat): (u: int)
  {
    if x < 0 then x + Range(w) else x
  }

  function ToSigned(u: nat, w: nat): (x: int)
  {
    if 2 * u < Range(w) then u else u - Range(w)
  }

  function Int32Bytes(x: Int32): (s: seq<Byte>)
    ensures |s| == 4
  {
    Ranges();
    ToBytes(ToUnsigned(x, 4), 4)
  }

  function Int64Bytes(x: Int64): (s: seq<Byte>)
    ensures |s| == 8
  {
    Ranges();
    ToBytes(ToUnsigned(x, 8), 8)
  }

  lemma SignedRoundTrips(i: Int32, x: Int64)
    ensures ToSigned(FromBytes(Int32Bytes(i)), 4) == i
    ensures ToSigned(FromBytes(Int64Bytes(x)), 8) == x
  {
    Ranges();
    BytesRoundTrip(ToUnsigned(i, 4), 4);
    BytesRoundTrip(ToUnsigned(x, 8), 8);
  }

  /** `memcpy` of `bytes` into `a` at `pos`. */
  method Copy(a: array<Byte>, pos: nat, bytes: seq<Byte>)
    requires pos + |bytes| <= a.Length
    modifies a
    ensures a[..pos] == old(a[..pos])
    ensures a[pos..pos + |bytes|] == bytes
    ensures a[pos + |bytes|..] == old(a[pos + |bytes|..])
  {
    forall k | 0 <= k < |bytes| {
      a[pos + k] := bytes[k];
    }
  }

  /** `memmove` of `n` bytes inside `a`; the two ranges may overlap. */
  method Move(a: array<Byte>, dst: nat, src: nat, n: nat)
    requires dst + n <= a.Length && src + n <= a.Length
    modifies a
    ensures a[..dst] == old(a[..dst])
    ensures a[dst..dst + n] == old(a[src..src + n])
    ensures a[dst + n..] == old(a[dst + n..])
  {
    forall k | 0 <= k < n {
      a[dst + k] := a[src + k];
    }
  }
}
