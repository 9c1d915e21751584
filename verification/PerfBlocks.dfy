/** The storage of the performance log: a queue of fixed-size blocks that records are packed into. */
module PerfBlocks {
  import opened Bytes
  import opened PerfRecords

  lemma SliceOfPrefix<T>(a: seq<T>, n: nat, i: nat, j: nat)
    requires i <= j <= n <= |a|
    ensures a[..n][i..j] == a[i..j]
  {
  }

  class Block {
    const buffer: array<Byte>
    var bytes: nat

    constructor ()
      ensures bytes == 0 && fresh(buffer) && buffer.Length == BLOCK_SIZE
    {
      buffer := new Byte[BLOCK_SIZE];
      bytes := 0;
    }

    ghost predicate Valid()
      reads this
    {
      buffer.Length == BLOCK_SIZE && bytes <= BLOCK_SIZE
    }

    /** The used bytes of the block. */
    ghost function Used(): seq<Byte>
      requires Valid()
      reads this, buffer
    {
      buffer[..bytes]
    }

    /** Appends the header and payload of one record; the caller has checked that it fits. */
    method Append(delta: Uint32, id: Uint16, bytes: seq<Byte>)
      requires Valid()
      requires this.bytes + 6 + |bytes| <= BLOCK_SIZE
      modifies this, buffer
      ensures Valid()
      ensures Used() == old(Used()) + (ToBytes(delta, 4) + ToBytes(id, 2) + bytes)
    {
      hide ToBytes;
      var pos := this.bytes;
      Copy(buffer, pos, ToBytes(delta, 4));
      Copy(buffer, pos + 4, ToBytes(id, 2));
      Copy(buffer, pos + 6, bytes);
      this.bytes := pos + 6 + |bytes|;
      assert buffer[..pos + 6 + |bytes|] ==
        buffer[..pos] + (buffer[pos..pos + 4] + buffer[pos + 4..pos + 6] + buffer[pos + 6..pos + 6 + |bytes|]);
    }

    /** Reads the C string at `pos`. */
    method ReadText(pos: nat, ghost s: CString) returns (text: CString)
      requires pos + |s| + 1 <= buffer.Length
      requires buffer[pos..pos + |s| + 1] == s + [0]
      ensures text == s
    {
      var end := pos;
      ghost var t := buffer[pos..pos + |s| + 1];
      assert forall k | 0 <= k <= |s| :: buffer[pos + k] == t[k] == (s + [0])[k];
      assert forall k | pos <= k < pos + |s| :: buffer[k] != 0 by {
        assert forall k | pos <= k < pos + |s| :: buffer[k] == t[k - pos] == s[k - pos];
      }
      assert buffer[pos + |s|] == 0;
      while buffer[end] != 0
        invariant pos <= end <= pos + |s|
        decreases buffer.Length - end
      {
        end := end + 1;
      }
      assert buffer[pos + (end - pos)] == 0;
      assert buffer[pos..end] == t[..|s|] == s;
      text := buffer[pos..end];
    }

    /** Reads an argument at `pos`, in the way its signature says, and the number of bytes it takes. */
    method ReadArg(pos: nat, signature: Signature, ghost arg: Arg) returns (r: Arg, n: nat)
      requires Fits(signature, arg)
      requires pos + |EncodeArg(arg)| <= buffer.Length
      requires buffer[pos..pos + |EncodeArg(arg)|] == EncodeArg(arg)
      ensures r == arg && n == |EncodeArg(arg)|
    {
      match signature
      case Empty =>
        r, n := Nothing, 0;
      case I =>
        SignedRoundTrips(arg.i, 0);
        r, n := Int(ToSigned(FromBytes(buffer[pos..pos + 4]), 4)), 4;
      case X =>
        SignedRoundTrips(0, arg.x);
        r, n := Long(ToSigned(FromBytes(buffer[pos..pos + 8]), 8)), 8;
      case S =>
        var text := ReadText(pos, arg.s);
        r, n := Text(text), |text| + 1;
    }

    /** Reads the time delta and the event identifier of the record at `pos`. */
    method ReadHeader(pos: nat, ghost r: Rec) returns (delta: nat, id: nat)
      requires pos + |Encode(r)| <= buffer.Length
      requires buffer[pos..pos + |Encode(r)|] == Encode(r)
      ensures delta == r.delta && id == r.id
      ensures buffer[pos + 6..pos + |Encode(r)|] == EncodeArg(r.arg)
    {
      hide ToBytes, FromBytes, EncodeArg;
      Ranges();
      BytesRoundTrip(r.delta, 4);
      BytesRoundTrip(r.id, 2);
      ghost var bytes := buffer[pos..pos + |Encode(r)|];
      assert buffer[pos..pos + 4] == bytes[..4] == ToBytes(r.delta, 4);
      assert buffer[pos + 4..pos + 6] == bytes[4..6] == ToBytes(r.id, 2);
      assert buffer[pos + 6..pos + |Encode(r)|] == bytes[6..] == EncodeArg(r.arg);
      delta := FromBytes(buffer[pos..pos + 4]);
      id := FromBytes(buffer[pos + 4..pos + 6]);
    }

    /** Reads the record at `pos`, and the number of bytes it takes. */
    method ReadRecord(pos: nat, events: seq<Event>, ghost r: Rec) returns (delta: nat, id: nat, arg: Arg, n: nat)
      requires Valid() && Known(events, r.id, r.arg)
      requires pos + |Encode(r)| <= bytes
      requires Used()[pos..pos + |Encode(r)|] == Encode(r)
      ensures delta == r.delta && id == r.id && arg == r.arg && n == |Encode(r)|
    {
      hide Encode, EncodeArg;
      SliceOfPrefix(buffer[..], bytes, pos, pos + |Encode(r)|);
      delta, id := ReadHeader(pos, r);
      if id == EVENT_SET_TIME {
        arg, n := ReadArg(pos + 6, X, r.arg);
      } else {
        arg, n := ReadArg(pos + 6, events[id].signature, r.arg);
      }
      n := n + 6;
    }

    /** Replays the block after the records `done`, which left the report `outs` and the clock `time`. */
    method Replay(
      events: seq<Event>, ghost start: Time, ghost done: seq<Rec>, ghost rs: seq<Rec>, outs: seq<Out>, time: int)
      returns (outs': seq<Out>, time': int)
      requires Valid() && Used() == EncodeAll(rs)
      requires KnownRecords(events, rs)
      requires time == Clock(start, done)
      requires outs == Outs(events, start, done)
      ensures time' == Clock(start, done + rs)
      ensures outs' == Outs(events, start, done + rs)
    {
      hide Encode, EncodeAll, Clock, Outs;
      outs', time' := outs, time;
      ghost var read, k := done, 0;
      var pos := 0;
      EncodeAllEnd(rs, 0);
      while pos < bytes
        invariant k <= |rs| && read == done + rs[..k]
        invariant pos == |EncodeAll(rs[..k])|
        invariant time' == Clock(start, read)
        invariant outs' == Outs(events, start, read)
        decreases |rs| - k
      {
        EncodeAllEnd(rs, k);
        EncodeAllAt(rs, k);
        ReplayAppend(events, start, read, rs[k]);
        TakeNext(done, rs, k);
        var delta, id, arg, n := ReadRecord(pos, events, rs[k]);
        pos := pos + n;
        if id == EVENT_SET_TIME {
          time' := arg.x;
        } else {
          time' := time' + delta;
          outs' := outs' + [Out(time', events[id].name, arg)];
        }
        read, k := read + [rs[k]], k + 1;
      }
      EncodeAllEnd(rs, k);
    }
  }

  /** The records of all blocks, in order. */
  function Flat(packed: seq<seq<Rec>>): seq<Rec> {
    if packed == [] then [] else Flat(packed[..|packed| - 1]) + packed[|packed| - 1]
  }

  /** `after` is `before` with record `r` added, in the last block or in a new one. */
  predicate Grown(before: seq<seq<Rec>>, after: seq<seq<Rec>>, r: Rec) {
    var n := |after| - 1;
    && n >= 0
    && if |before| == n then after[..n] == before && after[n] == [r]
       else |before| == |after| && after[..n] == before[..n] && after[n] == before[n] + [r]
  }

  lemma FlatGrows(before: seq<seq<Rec>>, after: seq<seq<Rec>>, r: Rec)
    requires Grown(before, after, r)
    ensures Flat(after) == Flat(before) + [r]
  {
  }

  lemma {:induction false} FlatSplits(packed: seq<seq<Rec>>, b: nat)
    requires b < |packed|
    ensures Flat(packed[..b + 1]) == Flat(packed[..b]) + packed[b]
    ensures forall r | r in packed[b] :: r in Flat(packed)
  {
    assert packed[..b + 1][..b] == packed[..b];
    if b + 1 == |packed| {
      assert packed[..b + 1] == packed;
    } else {
      var before := packed[..|packed| - 1];
      FlatSplits(before, b);
      assert before[..b + 1] == packed[..b + 1];
    }
  }

  /** Blocks are filled in turn: no block has room left for the first record of the next one. */
  predicate Greedy(packed: seq<seq<Rec>>) {
    packed != [] ==>
      var n := |packed| - 1;
      && packed[n] != []
      && Greedy(packed[..n])
      && (n > 0 ==> |EncodeAll(packed[n - 1])| + |Encode(packed[n][0])| > BLOCK_SIZE)
  }

  lemma GreedyGrows(before: seq<seq<Rec>>, after: seq<seq<Rec>>, r: Rec)
    requires Greedy(before) && Grown(before, after, r)
    requires 0 < |before| < |after| ==>
             |EncodeAll(before[|before| - 1])| + |Encode(r)| > BLOCK_SIZE
    ensures Greedy(after)
  {
    hide Encode, EncodeAll;
    if |before| == |after| {
      var n := |after| - 1;
      assert after[n][0] == before[n][0];
      assert n > 0 ==> after[n - 1] == after[..n][n - 1] == before[..n][n - 1];
    }
  }

  class Queue {
    var blocks: seq<Block>
    /** The records in each block. */
    ghost var packed: seq<seq<Rec>>
    ghost var Repr: set<object>

    ghost predicate Layout()
      reads this, Repr
    {
      && this in Repr
      && |packed| == |blocks|
      && (forall i | 0 <= i < |blocks| ::
            && blocks[i] in Repr && blocks[i].buffer in Repr
            && blocks[i].Valid() && blocks[i].Used() == EncodeAll(packed[i]))
      && (forall i, j | 0 <= i < j < |blocks| ::
            blocks[i] != blocks[j] && blocks[i].buffer != blocks[j].buffer)
    }

    ghost predicate Valid()
      reads this, Repr
      ensures Valid() ==> this in Repr
    {
      Layout() && Greedy(packed)
    }

    constructor ()
      ensures Valid() && fresh(Repr) && packed == []
    {
      blocks, packed := [], [];
      Repr := {this};
    }

    method AddBlock()
      requires Layout()
      modifies this
      ensures Layout() && fresh(Repr - old(Repr))
      ensures |packed| == old(|packed|) + 1
      ensures packed[..|packed| - 1] == old(packed) && packed[|packed| - 1] == []
      ensures blocks != [] && blocks[|blocks| - 1].bytes == 0
    {
      hide Encode;
      var block := new Block();
      blocks := blocks + [block];
      packed := packed + [[]];
      Repr := Repr + {block, block.buffer};
    }

    method AppendToLast(delta: Uint32, id: Uint16, bytes: seq<Byte>, ghost arg: Arg)
      requires Layout() && bytes == EncodeArg(arg)
      requires blocks != [] && 6 + |bytes| + blocks[|blocks| - 1].bytes <= BLOCK_SIZE
      modifies Repr
      ensures Layout() && Repr == old(Repr)
      ensures |packed| == old(|packed|)
      ensures var n := |packed| - 1;
              packed[..n] == old(packed)[..n] && packed[n] == old(packed)[n] + [Rec(delta, id, arg)]
    {
      hide EncodeAll, ToBytes, EncodeArg;
      var n := |blocks| - 1;
      var block := blocks[n];
      block.Append(delta, id, bytes);
      EncodeAllAppend(packed[n], Rec(delta, id, arg));
      packed := packed[..n] + [packed[n] + [Rec(delta, id, arg)]];
    }

    /** Packs one record into the last block, or into a new one when it does not fit. */
    method Append(delta: Uint32, id: Uint16, bytes: seq<Byte>, ghost arg: Arg)
      requires Valid() && bytes == EncodeArg(arg)
      requires 6 + |bytes| <= BLOCK_SIZE
      modifies Repr
      ensures Valid() && fresh(Repr - old(Repr))
      ensures Flat(packed) == old(Flat(packed)) + [Rec(delta, id, arg)]
    {
      hide Encode, EncodeAll, Flat, Greedy;
      ghost var before, r := packed, Rec(delta, id, arg);
      var n := |blocks|;
      if n == 0 || 6 + |bytes| + blocks[n - 1].bytes > BLOCK_SIZE {
        AddBlock();
        AppendToLast(delta, id, bytes, arg);
      } else {
        AppendToLast(delta, id, bytes, arg);
      }
      GreedyGrows(before, packed, r);
      FlatGrows(before, packed, r);
    }

    /** Calls the replay function, here: reports, for every event in the blocks. */
    method Replay(events: seq<Event>, start: Time) returns (outs: seq<Out>)
      requires Valid()
      requires KnownRecords(events, Flat(packed))
      ensures outs == Outs(events, start, Flat(packed))
    {
      outs := [];
      var time: int := start;
      for b := 0 to |blocks|
        invariant time == Clock(start, Flat(packed[..b]))
        invariant outs == Outs(events, start, Flat(packed[..b]))
      {
        FlatSplits(packed, b);
        outs, time := blocks[b].Replay(events, start, Flat(packed[..b]), packed[b], outs, time);
      }
      assert packed[..|blocks|] == packed;
    }
  }
}
