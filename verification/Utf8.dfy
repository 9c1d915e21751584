/** UTF-8 (sections 3 and 4 of RFC 3629), and the string helpers of GLib that the text buffer uses. */
module Utf8 {
  import opened Bytes
  import opened Options

  /** A Unicode scalar value that a C string can hold. */
  type CodePoint = c: int | 0 < c < 0x11_0000 && !(0xd800 <= c < 0xe000) witness 1

  type Text = seq<CodePoint>

  // The payload bits of a code point, in groups of six from the right.
  function Low(c: nat): nat { c % 0x40 }
  function Mid(c: nat): nat { c / 0x40 % 0x40 }
  function High(c: nat): nat { c / 0x1000 % 0x40 }

  function EncodeOne(c: CodePoint): (s: seq<Byte>)
    ensures 1 <= |s| <= 4
  {
    if c < 0x80 then [c as Byte]
    else if c < 0x800 then [0xc0 + c / 0x40, 0x80 + Low(c)]
    else if c < 0x1_0000 then [0xe0 + c / 0x1000, 0x80 + Mid(c), 0x80 + Low(c)]
    else [(0xf0 + c / 0x4_0000) as Byte, 0x80 + High(c), 0x80 + Mid(c), 0x80 + Low(c)]
  }

  function Encode(t: Text): (s: seq<Byte>) {
    if t == [] then [] else Encode(t[..|t| - 1]) + EncodeOne(t[|t| - 1])
  }

  predicate IsContinuation(b: Byte) {
    0x80 <= b < 0xc0
  }

  // ---------------------------------------------------------------- decoding

  /** The code point at the start of `s` and the number of its bytes, by the syntax of RFC 3629, section 4. */
  function DecodeOne(s: seq<Byte>): (r: Option<(CodePoint, nat)>)
    ensures r.Some? ==> 1 <= r.value.1 <= |s|
  {
    if |s| >= 1 && 0 < s[0] < 0x80 then
      Some((s[0], 1))
    else if |s| >= 2 && 0xc2 <= s[0] < 0xe0 && IsContinuation(s[1]) then
      Some((Join(s[0] - 0xc0, s[1]), 2))
    else if |s| >= 3 && 0xe0 <= s[0] < 0xf0 && IsContinuation(s[1]) && IsContinuation(s[2]) then
      var c := Join(Join(s[0] - 0xe0, s[1]), s[2]);
      if c >= 0x800 && !(0xd800 <= c < 0xe000) then Some((c, 3)) else None
    else if |s| >= 4 && 0xf0 <= s[0] < 0xf5
            && IsContinuation(s[1]) && IsContinuation(s[2]) && IsContinuation(s[3]) then
      var c := Join(Join(Join(s[0] - 0xf0, s[1]), s[2]), s[3]);
      if 0x1_0000 <= c < 0x11_0000 then Some((c, 4)) else None
    else None
  }

  /** Adds the six payload bits of a continuation byte. */
  function Join(c: nat, b: Byte): (r: nat)
    requires IsContinuation(b)
  {
    c * 0x40 + (b as int - 0x80)
  }

  function Decode(s: seq<Byte>): (r: Option<Text>) {
    if s == [] then Some([])
    else
      var first := DecodeOne(s);
      if first.None? then None
      else
        var rest := Decode(s[first.value.1..]);
        if rest.None? then None else Some([first.value.0] + rest.value)
  }

  lemma Bits(c: nat)
    ensures c == c / 0x40 * 0x40 + Low(c)
    ensures c / 0x40 == c / 0x1000 * 0x40 + Mid(c)
    ensures c / 0x1000 == c / 0x4_0000 * 0x40 + High(c)
  {
  }

  lemma EncodeOneDecodes(c: CodePoint, rest: seq<Byte>)
    ensures DecodeOne(EncodeOne(c) + rest) == Some((c, |EncodeOne(c)|))
  {
    Bits(c);
    var s := EncodeOne(c);
    var all := s + rest;
    assert forall i | 0 <= i < |s| :: all[i] == s[i];
    hide Low, Mid, High;
  }

  lemma Joined(c: nat, b: Byte)
    requires IsContinuation(b)
    ensures Join(c, b) / 0x40 == c && 0x80 + Low(Join(c, b)) == b
  {
  }

  lemma Quotients(c: nat)
    ensures c / 0x1000 == c / 0x40 / 0x40
    ensures c / 0x4_0000 == c / 0x40 / 0x40 / 0x40
  {
  }

  lemma DecodeOneEncodes(s: seq<Byte>)
    requires DecodeOne(s).Some?
    ensures EncodeOne(DecodeOne(s).value.0) == s[..DecodeOne(s).value.1]
  {
    var (c, n) := DecodeOne(s).value;
    if n > 1 {
      var lead := s[0] - if n == 2 then 0xc0 else if n == 3 then 0xe0 else 0xf0;
      var c1 := Join(lead, s[1]);
      Joined(lead, s[1]);
      Quotients(c);
      if n > 2 {
        Joined(c1, s[2]);
        if n > 3 {
          Joined(Join(c1, s[2]), s[3]);
        }
      }
      hide Join;
      assert EncodeOne(c) == s[..n];
    }
  }

  lemma {:induction false} EncodeConcat(a: Text, b: Text)
    ensures Encode(a + b) == Encode(a) + Encode(b)
  {
    hide EncodeOne;
    if b == [] {
      assert a + b == a;
    } else {
      var b', last := b[..|b| - 1], b[|b| - 1];
      EncodeConcat(a, b');
      var whole := a + b;
      assert whole[..|whole| - 1] == a + b' && whole[|whole| - 1] == last;
      assert Encode(whole) == Encode(a + b') + EncodeOne(last);
    }
  }

  lemma EncodeSingle(c: CodePoint)
    ensures Encode([c]) == EncodeOne(c)
  {
    hide EncodeOne;
    assert [c][..0] == [];
  }

  /** Decoding takes back what encoding did, for every text. */
  lemma {:induction false} DecodeOfEncode(t: Text)
    ensures Decode(Encode(t)) == Some(t)
  {
    if t != [] {
      hide EncodeOne, DecodeOne;
      DecodeOfEncode(t[1..]);
      EncodeSingle(t[0]);
      EncodeConcat([t[0]], t[1..]);
      assert [t[0]] + t[1..] == t;
      var one, rest := EncodeOne(t[0]), Encode(t[1..]);
      EncodeOneDecodes(t[0], rest);
      assert (one + rest)[|one|..] == rest;
    }
  }

  lemma DecodeStep(s: seq<Byte>)
    requires s != [] && Decode(s).Some?
    ensures DecodeOne(s).Some?
    ensures var (c, n) := DecodeOne(s).value;
            Decode(s[n..]).Some? && Decode(s).value == [c] + Decode(s[n..]).value
  {
    hide DecodeOne;
  }

  /** And the other way round: the valid byte strings are exactly the encodings of texts. */
  lemma {:induction false} EncodeOfDecode(s: seq<Byte>)
    requires Decode(s).Some?
    ensures Encode(Decode(s).value) == s
  {
    if s == [] {
      EncodeEmpty();
    } else {
      DecodeStep(s);
      hide EncodeOne, DecodeOne, Encode, Decode;
      var (c, n) := DecodeOne(s).value;
      var head, tail := s[..n], s[n..];
      assert s == head + tail;
      EncodeOfDecode(tail);
      DecodeOneEncodes(s);
      EncodeSingle(c);
      EncodeConcat([c], Decode(tail).value);
    }
  }

  lemma EncodeEmpty()
    ensures Encode([]) == []
  {
  }

  // ---------------------------------------------------------------- positions

  /** The byte offset of character `k`. */
  function Offset(t: Text, k: nat): (n: nat)
    requires k <= |t|
  {
    |Encode(t[..k])|
  }

  /** Text and bytes are cut at the same places. */
  lemma EncodeCut(t: Text, k: nat)
    requires k <= |t|
    ensures Encode(t) == Encode(t[..k]) + Encode(t[k..])
    ensures Offset(t, k) <= |Encode(t)|
    ensures Encode(t)[..Offset(t, k)] == Encode(t[..k])
    ensures Encode(t)[Offset(t, k)..] == Encode(t[k..])
  {
    hide Encode;
    var a, b := t[..k], t[k..];
    assert t == a + b;
    EncodeConcat(a, b);
    CutConcat(Encode(a), Encode(b));
  }

  lemma CutConcat<T>(a: seq<T>, b: seq<T>)
    ensures (a + b)[..|a|] == a && (a + b)[|a|..] == b
  {
  }

  /** The bytes of character `k`. */
  lemma EncodeAt(t: Text, k: nat)
    requires k < |t|
    ensures Offset(t, k + 1) == Offset(t, k) + |EncodeOne(t[k])| <= |Encode(t)|
    ensures forall i | 0 <= i < |EncodeOne(t[k])| :: Encode(t)[Offset(t, k) + i] == EncodeOne(t[k])[i]
  {
    hide Encode, EncodeOne;
    EncodeCut(t, k + 1);
    var a, c := t[..k], t[k];
    assert t[..k + 1] == a + [c];
    EncodeSingle(c);
    EncodeConcat(a, [c]);
    var all, upTo := Encode(t), Encode(a) + EncodeOne(c);
    assert all[..|upTo|] == upTo;
    forall i | 0 <= i < |EncodeOne(c)| ensures all[|Encode(a)| + i] == EncodeOne(c)[i] {
      assert all[|Encode(a)| + i] == all[..|upTo|][|Encode(a)| + i];
    }
  }

  lemma {:induction false} OffsetMonotone(t: Text, j: nat, k: nat)
    requires j < k <= |t|
    ensures Offset(t, j) < Offset(t, k)
  {
    hide Encode, EncodeOne;
    EncodeAt(t, k - 1);
    if j < k - 1 {
      OffsetMonotone(t, j, k - 1);
    }
  }

  /** `k` is the number of whole characters in the first `n` bytes. */
  predicate WholeCharacters(t: Text, n: nat, k: nat) {
    && k <= |t|
    && Offset(t, k) <= n
    && (k < |t| ==> n < Offset(t, k + 1))
  }

  lemma WholeCharactersUnique(t: Text, n: nat, j: nat, k: nat)
    requires WholeCharacters(t, n, j) && WholeCharacters(t, n, k)
    ensures j == k
  {
    hide Encode;
    if j < k {
      if j + 1 < k {
        OffsetMonotone(t, j + 1, k);
      }
    } else if k < j {
      if k + 1 < j {
        OffsetMonotone(t, k + 1, j);
      }
    }
  }

  // ---------------------------------------------------------------- GLib helpers

  /** The entry of GLib's skip table for the first byte of a character. */
  function Skip(b: Byte): nat {
    if b < 0xc0 then 1 else if b < 0xe0 then 2 else if b < 0xf0 then 3
    else if b < 0xf8 then 4 else if b < 0xfc then 5 else if b < 0xfe then 6 else 1
  }

  lemma SkipIsLength(c: CodePoint)
    ensures Skip(EncodeOne(c)[0]) == |EncodeOne(c)|
    ensures EncodeOne(c)[0] != 0 && !IsContinuation(EncodeOne(c)[0])
    ensures forall i | 1 <= i < |EncodeOne(c)| :: IsContinuation(EncodeOne(c)[i])
  {
  }

  /** `g_utf8_offset_to_pointer`, for a non-negative offset. */
  method OffsetToPointer(s: seq<Byte>, k: nat, ghost t: Text) returns (p: nat)
    requires k <= |t| && Encode(t) <= s
    ensures p == Offset(t, k)
  {
    hide Encode, EncodeOne, Skip;
    p := 0;
    assert Offset(t, 0) == 0 by {
      EncodeEmpty();
      assert t[..0] == [];
    }
    for i := 0 to k
      invariant p == Offset(t, i)
    {
      EncodeAt(t, i);
      SkipIsLength(t[i]);
      assert s[p] == Encode(t)[p] == EncodeOne(t[i])[0];
      p := p + Skip(s[p]);
    }
  }

  lemma {:induction false} WholeCharactersExist(t: Text, n: nat) returns (k: nat)
    ensures WholeCharacters(t, n, k)
  {
    hide Encode;
    k := |t|;
    while n < Offset(t, k)
      invariant k <= |t|
      invariant k < |t| ==> n < Offset(t, k + 1)
      decreases k
    {
      if k == 0 {
        OffsetZero(t);
      }
      k := k - 1;
    }
  }

  lemma OffsetZero(t: Text)
    ensures Offset(t, 0) == 0
    ensures Offset(t, |t|) == |Encode(t)|
  {
    EncodeEmpty();
    assert t[..0] == [] && t[..|t|] == t;
  }

  /** `g_utf8_find_prev_char`: the start of the last character that starts before byte `p`. */
  method FindPrevChar(s: seq<Byte>, p: nat, ghost t: Text, ghost k: nat) returns (q: nat)
    requires Encode(t) <= s && 0 < p <= |Encode(t)|
    requires WholeCharacters(t, p - 1, k)
    ensures q == Offset(t, k)
  {
    hide Encode, EncodeOne;
    OffsetZero(t);
    EncodeAt(t, k);
    SkipIsLength(t[k]);
    ghost var one := EncodeOne(t[k]);
    forall i | Offset(t, k) <= i < p ensures IsContinuation(s[i]) <==> i > Offset(t, k) {
      var j := i - Offset(t, k);
      assert s[i] == Encode(t)[Offset(t, k) + j] == one[j];
    }
    q := p - 1;
    while IsContinuation(s[q])
      invariant Offset(t, k) <= q < p
      decreases q
    {
      q := q - 1;
    }
  }

  /** `g_utf8_strlen`, for a number of bytes that ends with a character. */
  method StrLen(s: seq<Byte>, max: nat, ghost t: Text, ghost k: nat) returns (len: nat)
    requires Encode(t) <= s && k <= |t| && max == Offset(t, k)
    ensures len == k
  {
    hide Encode, EncodeOne, Skip;
    var p := 0;
    len := 0;
    OffsetZero(t);
    while p < max
      invariant len <= k && p == Offset(t, len)
      decreases k - len
    {
      EncodeAt(t, len);
      SkipIsLength(t[len]);
      assert s[p] == Encode(t)[p + 0] == EncodeOne(t[len])[0];
      p := p + Skip(s[p]);
      len := len + 1;
    }
    if len < k {
      OffsetMonotone(t, len, k);
    }
  }
}
