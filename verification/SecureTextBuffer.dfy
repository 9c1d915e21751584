/** The text buffer of password entries: UTF-8 in one block of memory that is never swapped out. */
module SecureTextBuffer {
  import opened Bytes
  import opened Options
  import opened Utf8

  const MIN_SIZE: nat := 16

  function Splice(t: Text, position: nat, x: Text): Text
    requires position <= |t|
  {
    t[..position] + x + t[position..]
  }

  function Cut(t: Text, position: nat, n: nat): Text
    requires position + n <= |t|
  {
    t[..position] + t[position + n..]
  }

  /** Deleting what was inserted, where it was inserted, restores the text. */
  lemma CutUndoesSplice(t: Text, position: nat, x: Text)
    requires position <= |t|
    ensures Cut(Splice(t, position, x), position, |x|) == t
  {
    var s := Splice(t, position, x);
    assert s[..position] == t[..position] && s[position + |x|..] == t[position..];
  }

  /** Splicing texts is splicing their bytes. */
  lemma EncodeSplice(t: Text, position: nat, x: Text)
    requires position <= |t|
    ensures Offset(t, position) <= |Encode(t)|
    ensures Encode(Splice(t, position, x)) ==
            Encode(t)[..Offset(t, position)] + Encode(x) + Encode(t)[Offset(t, position)..]
  {
    hide Encode;
    EncodeCut(t, position);
    EncodeConcat(t[..position], x);
    EncodeConcat(t[..position] + x, t[position..]);
  }

  /** Cutting a text is cutting its bytes. */
  lemma EncodeOfCut(t: Text, position: nat, n: nat)
    requires position + n <= |t|
    ensures Offset(t, position) <= Offset(t, position + n) <= |Encode(t)|
    ensures n > 0 ==> Offset(t, position) < Offset(t, position + n)
    ensures Encode(Cut(t, position, n)) ==
            Encode(t)[..Offset(t, position)] + Encode(t)[Offset(t, position + n)..]
  {
    hide Encode, EncodeOne, Offset;
    var end := position + n;
    OffsetsOrdered(t, position, end);
    EncodeCut(t, position);
    EncodeCut(t, end);
    EncodeConcat(t[..position], t[end..]);
  }

  lemma OffsetsOrdered(t: Text, j: nat, k: nat)
    requires j <= k <= |t|
    ensures Offset(t, j) <= Offset(t, k) <= |Encode(t)|
    ensures j < k ==> Offset(t, j) < Offset(t, k)
  {
    hide Encode, EncodeOne, Offset;
    EncodeCut(t, k);
    if j < k {
      OffsetMonotone(t, j, k);
    }
  }

  /** `n` is the largest number of characters of `x`, up to `limit`, that fit after `used` bytes. */
  predicate LargestFit(x: Text, limit: nat, used: nat, max: nat, n: nat) {
    && n <= limit <= |x|
    && used + Offset(x, n) + 1 <= max
    && (n < limit ==> used + Offset(x, n + 1) + 1 > max)
  }

  lemma LargestFitIsUnique(x: Text, limit: nat, used: nat, max: nat, n: nat, m: nat)
    requires LargestFit(x, limit, used, max, n) && LargestFit(x, limit, used, max, m)
    ensures n == m
  {
    hide Offset;
    if n < m {
      OffsetsOrdered(x, n + 1, m);
    } else if m < n {
      OffsetsOrdered(x, m + 1, n);
    }
  }

  /** The size of the block when `need` bytes are wanted: as it was, or doubled just far enough, or the cap. */
  predicate Grown(before: nat, after: nat, need: nat, max: nat) {
    && before <= after <= max
    && (need <= before ==> after == before)
    && (need > before && after < max ==> need <= after && (after == MIN_SIZE || after < 2 * need))
  }

  /** How many of `n` characters are deleted at `at`; the sum has 32 bits. */
  function CountToDelete(chars: nat, at: nat, n: nat): int {
    if (at + n) % 0x1_0000_0000 > chars then chars - at else n
  }

  /** The count is clamped to the text exactly if that sum does not wrap around. */
  lemma CountIsClampedIff(chars: nat, at: nat, n: nat)
    requires at <= chars < 0x1_0000_0000 && n < 0x1_0000_0000
    ensures CountToDelete(chars, at, n) == (if at + n > chars then chars - at else n) <==> at + n < 0x1_0000_0000
  {
    if at + n >= 0x1_0000_0000 {
      assert (at + n) % 0x1_0000_0000 == at + n - 0x1_0000_0000;
    }
  }

  /** What is used after making a gap (`s1`) and filling it (`s2`). */
  lemma GapFilled(s0: seq<Byte>, s1: seq<Byte>, s2: seq<Byte>, at: nat, n: nat, bytes: seq<Byte>)
    requires |s0| == |s1| == |s2| && at <= n && n + |bytes| <= |s0|
    requires s1[..at + |bytes|] == s0[..at + |bytes|]
    requires s1[at + |bytes|..n + |bytes|] == s0[at..n]
    requires s2[..at] == s1[..at] && s2[at..at + |bytes|] == bytes && s2[at + |bytes|..] == s1[at + |bytes|..]
    ensures s2[..n + |bytes|] == s0[..at] + bytes + s0[at..n]
  {
    var i, j, k := at, at + |bytes|, n + |bytes|;
    JoinSlices(s2, i, j, k);
    assert s2[..i] == s1[..j][..i] == s0[..i];
    assert s2[j..k] == s2[j..][..k - j] == s1[j..][..k - j] == s1[j..k];
  }

  lemma JoinSlices(s: seq<Byte>, i: nat, j: nat, k: nat)
    requires i <= j <= k <= |s|
    ensures s[..k] == s[..i] + s[i..j] + s[j..k]
  {
  }

  class Buffer {
    /** CLUTTER_TEXT_BUFFER_MAX_SIZE. */
    const max: nat
    var text: array?<Byte>
    var textSize: nat
    var textBytes: nat
    var textChars: nat
    /** The text, as code points. */
    ghost var contents: Text

    ghost predicate Valid()
      reads this, text
    {
      && MIN_SIZE < max
      && (text == null ==> textSize == textBytes == 0 && contents == [])
      && (text != null ==>
            && text.Length == textSize <= max
            && textBytes < textSize
            && text[..textBytes] == Encode(contents)
            && text[textBytes] == 0)
      && textChars == |contents|
    }

    constructor (max: nat)
      requires MIN_SIZE < max
      ensures Valid() && contents == [] && this.max == max
    {
      this.max := max;
      text, textSize, textBytes, textChars := null, 0, 0, 0;
      contents := [];
    }

    /** The bytes of the text, up to the terminating NUL, and their number. */
    method GetText() returns (s: seq<Byte>, nBytes: nat)
      requires Valid()
      ensures nBytes == |s| && 0 !in s
      ensures Decode(s) == Some(contents)
    {
      nBytes := textBytes;
      s := if text == null then [] else text[..textBytes];
      EncodeEmpty();
      DecodeOfEncode(contents);
      NoNul(contents);
    }

    /** Grows the block size to hold `nBytes` more bytes; at the cap, fewer whole characters are taken. */
    method Grow(chars: seq<Byte>, nChars: nat, nBytes: nat, ghost x: Text) returns (n: nat, bytes: nat)
      requires Valid() && Encode(x) == chars
      requires nChars <= |x| && nBytes == Offset(x, nChars)
      modifies this`textSize
      ensures LargestFit(x, nChars, textBytes, max, n) && bytes == Offset(x, n)
      ensures Grown(old(textSize), textSize, textBytes + nBytes + 1, max)
      ensures textBytes + bytes + 1 <= textSize
    {
      hide Encode;
      n, bytes := nChars, nBytes;
      while bytes + textBytes + 1 > textSize
        invariant n == nChars && bytes == nBytes
        invariant old(textSize) <= textSize <= max
        invariant textSize == old(textSize) || textSize == MIN_SIZE || textSize < 2 * (textBytes + nBytes + 1)
        invariant textBytes + nBytes + 1 <= old(textSize) ==> textSize == old(textSize)
        decreases max - textSize
      {
        if textSize == 0 {
          textSize := MIN_SIZE;
        } else if 2 * textSize < max {
          textSize := 2 * textSize;
        } else {
          textSize := max;
          if bytes > textSize - textBytes - 1 {
            bytes := textSize - textBytes - 1;
            ghost var k := WholeCharactersExist(x, bytes);
            OffsetZero(x);
            if nChars < k {
              OffsetMonotone(x, nChars, k);
            }
            if nChars < |x| {
              OffsetMonotone(x, nChars, |x|);
            }
            bytes := FindPrevChar(chars, bytes + 1, x, k);
            n := StrLen(chars, bytes, x, k);
          }
          break;
        }
      }
    }

    /** Reallocates the block to `textSize` bytes. */
    method Realloc()
      requires text == null || textBytes < text.Length <= textSize
      requires text == null ==> textBytes == 0
      modifies this`text
      ensures fresh(text) && text.Length == textSize
      ensures old(text) != null ==> text[..textBytes] == old(text[..textBytes])
    {
      var block := new Byte[textSize];
      if text != null {
        forall i | 0 <= i < text.Length {
          block[i] := text[i];
        }
      }
      text := block;
    }

    /** Puts `bytes` into the used bytes at `at`. */
    method OpenGap(at: nat, bytes: seq<Byte>)
      requires text != null && at <= textBytes && textBytes + |bytes| < text.Length
      modifies `textBytes, text
      ensures textBytes == old(textBytes) + |bytes| && text[textBytes] == 0
      ensures text[..textBytes] == old(text[..at]) + bytes + old(text[at..textBytes])
    {
      var n := textBytes;
      ghost var s0 := text[..];
      Move(text, at + |bytes|, at, n - at);
      ghost var s1 := text[..];
      Copy(text, at, bytes);
      GapFilled(s0, s1, text[..], at, n, bytes);
      textBytes := n + |bytes|;
      text[textBytes] := 0;
    }

    /** Removes the used bytes from `start` to `end`; the terminating NUL moves with the rest. */
    method CloseGap(start: nat, end: nat)
      requires text != null && start <= end <= textBytes < text.Length && text[textBytes] == 0
      modifies `textBytes, text
      ensures textBytes == old(textBytes) - (end - start) && text[textBytes] == 0
      ensures text[..textBytes] == old(text[..start]) + old(text[end..textBytes])
    {
      ghost var rest := text[end..textBytes + 1];
      Move(text, start, end, textBytes + 1 - end);
      textBytes := textBytes - (end - start);
      JoinSlices(text[..], start, start, textBytes);
      assert text[start..textBytes + 1] == rest;
      assert rest[textBytes - start] == text[textBytes];
      assert text[start..textBytes] == rest[..textBytes - start];
    }

    /** Makes room for `bytes` at a character position and copies them there. */
    method InsertBytes(position: nat, bytes: seq<Byte>, n: nat, ghost x: Text)
      requires text != null && text.Length == textSize <= max && MIN_SIZE < max
      requires textBytes + |bytes| < textSize && text[..textBytes] == Encode(contents)
      requires textChars == |contents|
      requires position <= |contents| && bytes == Encode(x) && n == |x|
      modifies `textBytes, `textChars, `contents, text
      ensures Valid() && contents == Splice(old(contents), position, x)
    {
      hide Encode;
      EncodeCut(contents, position);
      EncodeSplice(contents, position, x);
      var at := OffsetToPointer(text[..textBytes], position, contents);
      OpenGap(at, bytes);
      textChars := textChars + n;
      contents := Splice(contents, position, x);
    }

    /** Inserts up to `nChars` characters of the valid UTF-8 string `chars`, as many as fit. */
    method InsertText(position: nat, chars: seq<Byte>, nChars: nat) returns (n: nat)
      requires Valid() && position <= |contents|
      requires Decode(chars).Some? && nChars <= |Decode(chars).value|
      modifies this, text
      ensures Valid() && text != null && (text == old(text) || fresh(text))
      ensures LargestFit(Decode(chars).value, nChars, old(textBytes), max, n)
      ensures contents == Splice(old(contents), position, Decode(chars).value[..n])
      ensures Grown(
        old(textSize), textSize, old(textBytes) + Offset(Decode(chars).value, nChars) + 1, max)
    {
      hide Encode, Decode;
      ghost var x := Decode(chars).value;
      EncodeOfDecode(chars);
      EncodeEmpty();
      n := nChars;
      var nBytes := OffsetToPointer(chars, nChars, x);
      if nBytes + textBytes + 1 > textSize {
        n, nBytes := Grow(chars, nChars, nBytes, x);
        Realloc();
      }
      EncodeCut(x, n);
      InsertBytes(position, chars[..nBytes], n, x[..n]);
    }

    /** Deletes up to `nChars` characters at a position; both are clamped to the text. */
    method DeleteText(position: nat, nChars: nat) returns (n: nat)
      requires Valid()
      requires (if position > |contents| then |contents| else position) + nChars < 0x1_0000_0000
      modifies this, text
      ensures Valid() && text == old(text) && textSize == old(textSize)
      ensures var at := if position > old(|contents|) then old(|contents|) else position;
              && n == (if at + nChars > old(|contents|) then old(|contents|) - at else nChars)
              && contents == Cut(old(contents), at, n)
    {
      hide Encode;
      var at := if position > textChars then textChars else position;
      n := CountToDelete(textChars, at, nChars);
      if n > 0 {
        EncodeOfCut(contents, at, n);
        var start := OffsetToPointer(text[..textBytes], at, contents);
        var end := OffsetToPointer(text[..textBytes], at + n, contents);
        CloseGap(start, end);
        textChars := textChars - n;
        contents := Cut(contents, at, n);
      }
    }

    method GetLength() returns (n: nat)
      requires Valid()
      ensures n == |contents|
    {
      n := textChars;
    }
  }

  lemma {:induction false} NoNul(t: Text)
    ensures 0 !in Encode(t)
  {
    if t != [] {
      NoNul(t[..|t| - 1]);
      SkipIsLength(t[|t| - 1]);
      hide EncodeOne;
    }
  }
}
