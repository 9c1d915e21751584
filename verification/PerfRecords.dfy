/**
 The performance log as values: what a caller records, the records the log writes for it,
 and what a replay of those records reports.
*/
module PerfRecords {
  import opened Bytes
  import opened Options

  const BLOCK_SIZE: nat := 8192
  const MAX_DELTA: nat := 0xffff_ffff

  // Identifiers of the two events that every log defines first.
  const EVENT_SET_TIME: Uint16 := 0
  const EVENT_STATISTICS_COLLECTED: Uint16 := 1

  /** Monotonic time in microseconds; adding MAX_DELTA to it stays within 64 signed bits. */
  type Time = t: int | 0 <= t <= 0x7fff_ffff_0000_0000

  /** The bytes of a C string, without its terminator. */
  type CString = s: seq<Byte> | 0 !in s

  datatype Signature = Empty | I | X | S
  datatype Arg = Nothing | Int(i: Int32) | Long(x: Int64) | Text(s: CString)
  datatype Event = Event(name: string, signature: Signature)

  /** An accepted call to record an event. */
  datatype Call = Call(time: Time, id: Uint16, arg: Arg)
  /** A record in a block. */
  datatype Rec = Rec(delta: Uint32, id: Uint16, arg: Arg)
  /** One invocation of a replay function. */
  datatype Out = Out(time: int, name: string, arg: Arg)

  predicate Fits(signature: Signature, arg: Arg) {
    match signature
    case Empty => arg.Nothing?
    case I => arg.Int?
    case X => arg.Long?
    case S => arg.Text?
  }

  // ---------------------------------------------------------------- bytes of records

  function EncodeArg(arg: Arg): (s: seq<Byte>) {
    match arg
    case Nothing => []
    case Int(i) => Int32Bytes(i)
    case Long(x) => Int64Bytes(x)
    case Text(s) => s + [0]
  }

  function Encode(r: Rec): (s: seq<Byte>)
    ensures |s| == 6 + |EncodeArg(r.arg)|
  {
    ToBytes(r.delta, 4) + ToBytes(r.id, 2) + EncodeArg(r.arg)
  }

  function EncodeAll(rs: seq<Rec>): (s: seq<Byte>) {
    if rs == [] then [] else EncodeAll(rs[..|rs| - 1]) + Encode(rs[|rs| - 1])
  }

  lemma EncodeAllAppend(rs: seq<Rec>, r: Rec)
    ensures EncodeAll(rs + [r]) == EncodeAll(rs) + Encode(r)
  {
    hide Encode;
    assert (rs + [r])[..|rs|] == rs;
  }

  lemma {:induction false} EncodeAllPrefix(rs: seq<Rec>, k: nat)
    requires k <= |rs|
    ensures EncodeAll(rs[..k]) <= EncodeAll(rs)
  {
    hide Encode;
    if k == |rs| {
      assert rs[..k] == rs;
    } else {
      EncodeAllPrefix(rs[..|rs| - 1], k);
      assert rs[..|rs| - 1][..k] == rs[..k];
    }
  }

  /** Where record `k` lies in the bytes of `rs`. */
  lemma EncodeAllAt(rs: seq<Rec>, k: nat)
    requires k < |rs|
    ensures |EncodeAll(rs[..k + 1])| == |EncodeAll(rs[..k])| + |Encode(rs[k])| <= |EncodeAll(rs)|
    ensures EncodeAll(rs)[|EncodeAll(rs[..k])|..|EncodeAll(rs[..k + 1])|] == Encode(rs[k])
  {
    hide Encode, EncodeAll;
    EncodeAllPrefix(rs, k + 1);
    EncodeAllAppend(rs[..k], rs[k]);
    assert rs[..k] + [rs[k]] == rs[..k + 1];
  }

  lemma EncodeAllEnd(rs: seq<Rec>, k: nat)
    requires k <= |rs|
    ensures |EncodeAll(rs[..k])| < |EncodeAll(rs)| <==> k < |rs|
    ensures k == |rs| ==> rs[..k] == rs
    ensures EncodeAll(rs[..0]) == []
  {
    assert EncodeAll([]) == [];
    hide Encode, EncodeAll;
    if k < |rs| {
      EncodeAllAt(rs, k);
    } else {
      assert rs[..k] == rs;
    }
  }

  // ---------------------------------------------------------------- records of calls

  function LastTime(start: Time, calls: seq<Call>): Time {
    if calls == [] then start else calls[|calls| - 1].time
  }

  predicate IsEscape(last: Time, time: Time) {
    time > last + MAX_DELTA
  }

  /** A time is written out exactly if the step to it does not fit into 32 bits. */
  lemma EscapesIff(last: Time, time: Time)
    ensures IsEscape(last, time) <==> time - last >= 0x1_0000_0000
  {
  }

  /** The records written for one call when the previous one was at `last`. */
  function RecordsFor(last: Time, c: Call): (rs: seq<Rec>) {
    if IsEscape(last, c.time) then
      [Rec(0, EVENT_SET_TIME, Long(c.time)), Rec(0, c.id, c.arg)]
    else
      [Rec(if c.time < last then 0 else c.time - last, c.id, c.arg)]
  }

  function Records(start: Time, calls: seq<Call>): (rs: seq<Rec>) {
    if calls == [] then []
    else
      var before := calls[..|calls| - 1];
      Records(start, before) + RecordsFor(LastTime(start, before), calls[|calls| - 1])
  }

  lemma RecordsAppend(start: Time, calls: seq<Call>, c: Call)
    ensures Records(start, calls + [c]) == Records(start, calls) + RecordsFor(LastTime(start, calls), c)
    ensures LastTime(start, calls + [c]) == c.time
  {
    assert (calls + [c])[..|calls|] == calls;
  }

  // ---------------------------------------------------------------- replaying records

  /** A record that the events `evs` give a meaning to; `perf.setTime` always carries a 64-bit time. */
  predicate Known(evs: seq<Event>, id: Uint16, arg: Arg) {
    && id < |evs|
    && if id == EVENT_SET_TIME then arg.Long? else Fits(evs[id].signature, arg)
  }

  predicate KnownRecords(evs: seq<Event>, rs: seq<Rec>) {
    forall r | r in rs :: Known(evs, r.id, r.arg)
  }

  predicate KnownCalls(evs: seq<Event>, calls: seq<Call>) {
    forall c | c in calls :: Known(evs, c.id, c.arg)
  }

  function NameOf(evs: seq<Event>, id: Uint16): string {
    if id < |evs| then evs[id].name else ""
  }

  /** The time in a `perf.setTime` record. */
  function TimeIn(arg: Arg): int {
    if arg.Long? then arg.x else 0
  }

  /** The replay clock after `rs`. */
  function Clock(start: int, rs: seq<Rec>): int {
    if rs == [] then start
    else
      var r := rs[|rs| - 1];
      if r.id == EVENT_SET_TIME then TimeIn(r.arg) else Clock(start, rs[..|rs| - 1]) + r.delta
  }

  /** What replaying `rs` reports. */
  function Outs(evs: seq<Event>, start: int, rs: seq<Rec>): seq<Out> {
    if rs == [] then []
    else
      var r := rs[|rs| - 1];
      Outs(evs, start, rs[..|rs| - 1]) +
      if r.id == EVENT_SET_TIME then [] else [Out(Clock(start, rs), NameOf(evs, r.id), r.arg)]
  }

  lemma ReplayAppend(evs: seq<Event>, start: int, rs: seq<Rec>, r: Rec)
    ensures Clock(start, rs + [r]) ==
            if r.id == EVENT_SET_TIME then TimeIn(r.arg) else Clock(start, rs) + r.delta
    ensures Outs(evs, start, rs + [r]) == Outs(evs, start, rs) +
            if r.id == EVENT_SET_TIME then [] else [Out(Clock(start, rs) + r.delta, NameOf(evs, r.id), r.arg)]
  {
    assert (rs + [r])[..|rs|] == rs;
  }

  lemma TakeNext<T>(done: seq<T>, rest: seq<T>, k: nat)
    requires k < |rest|
    ensures done + rest[..k + 1] == done + rest[..k] + [rest[k]]
  {
  }

  // ---------------------------------------------------------------- replaying calls

  /** The replay clock after one more call, when the previous one was at `last`. */
  function NextClock(clock: int, last: Time, c: Call): int {
    if c.id == EVENT_SET_TIME then TimeIn(c.arg)
    else if IsEscape(last, c.time) then c.time
    else clock + (if c.time < last then 0 else c.time - last)
  }

  /** The replay clock in terms of the calls alone. */
  function ReplayClock(start: Time, calls: seq<Call>): int {
    if calls == [] then start
    else
      var before := calls[..|calls| - 1];
      NextClock(ReplayClock(start, before), LastTime(start, before), calls[|calls| - 1])
  }

  /** What a replay reports, in terms of the calls alone. */
  function Replayed(evs: seq<Event>, start: Time, calls: seq<Call>): (outs: seq<Out>)
    ensures |outs| <= |calls|
  {
    if calls == [] then []
    else
      var before, c := calls[..|calls| - 1], calls[|calls| - 1];
      Replayed(evs, start, before) +
      if c.id == EVENT_SET_TIME then [] else [Out(ReplayClock(start, calls), NameOf(evs, c.id), c.arg)]
  }

  lemma {:induction false} RecordsAreKnown(evs: seq<Event>, start: Time, calls: seq<Call>)
    requires KnownCalls(evs, calls) && |evs| > 0
    ensures KnownRecords(evs, Records(start, calls))
  {
    if calls != [] {
      RecordsAreKnown(evs, start, calls[..|calls| - 1]);
    }
  }

  /** What the records of one more call add to a replay. */
  lemma ReplayOfCall(evs: seq<Event>, start: int, rs: seq<Rec>, last: Time, c: Call)
    ensures var clock := Clock(start, rs + RecordsFor(last, c));
            && clock == NextClock(Clock(start, rs), last, c)
            && Outs(evs, start, rs + RecordsFor(last, c)) == Outs(evs, start, rs) +
               if c.id == EVENT_SET_TIME then [] else [Out(clock, NameOf(evs, c.id), c.arg)]
  {
    hide Clock, Outs;
    var r := Rec(if c.time < last || IsEscape(last, c.time) then 0 else c.time - last, c.id, c.arg);
    if IsEscape(last, c.time) {
      var escape := Rec(0, EVENT_SET_TIME, Long(c.time));
      ReplayAppend(evs, start, rs, escape);
      ReplayAppend(evs, start, rs + [escape], r);
      assert rs + RecordsFor(last, c) == rs + [escape] + [r];
    } else {
      ReplayAppend(evs, start, rs, r);
    }
  }

  /** Replaying the records of some calls reports exactly `Replayed` of the calls. */
  lemma {:induction false} ReplayOfRecords(evs: seq<Event>, start: Time, calls: seq<Call>)
    ensures Clock(start, Records(start, calls)) == ReplayClock(start, calls)
    ensures Outs(evs, start, Records(start, calls)) == Replayed(evs, start, calls)
  {
    if calls != [] {
      hide Clock, Outs, RecordsFor, NextClock;
      var before := calls[..|calls| - 1];
      ReplayOfRecords(evs, start, before);
      ReplayOfCall(evs, start, Records(start, before), LastTime(start, before), calls[|calls| - 1]);
    }
  }

  // ---------------------------------------------------------------- drift and exactness

  predicate NoSetTime(calls: seq<Call>) {
    forall c | c in calls :: c.id != EVENT_SET_TIME
  }

  function TimeBefore(start: Time, calls: seq<Call>, j: nat): Time
    requires j <= |calls|
  {
    if j == 0 then start else calls[j - 1].time
  }

  /** The backward steps of the calls from index `from` on, added up. */
  function BackwardSteps(start: Time, calls: seq<Call>, from: nat): (sum: nat)
    requires from <= |calls|
    decreases |calls| - from
  {
    if from == |calls| then 0
    else
      var prev := TimeBefore(start, calls, from);
      (if calls[from].time < prev then prev - calls[from].time else 0) + BackwardSteps(start, calls, from + 1)
  }

  lemma {:induction false} BackwardStepsAppend(start: Time, calls: seq<Call>, c: Call, from: nat)
    requires from <= |calls|
    ensures BackwardSteps(start, calls + [c], from) == BackwardSteps(start, calls, from) +
            var last := LastTime(start, calls); if c.time < last then last - c.time else 0
    decreases |calls| - from
  {
    if from < |calls| {
      BackwardStepsAppend(start, calls, c, from + 1);
    }
  }

  predicate EscapeAt(start: Time, calls: seq<Call>, j: nat)
    requires j < |calls|
  {
    IsEscape(TimeBefore(start, calls, j), calls[j].time)
  }

  /** `from` is just past the last escape record written for the calls, or 0 when there is none. */
  predicate AfterLastEscape(start: Time, calls: seq<Call>, from: nat) {
    && from <= |calls|
    && (from > 0 ==> EscapeAt(start, calls, from - 1))
    && forall j | from <= j < |calls| :: !EscapeAt(start, calls, j)
  }

  /**
   The drift law: the replay clock runs ahead of the recorded time by exactly the backward steps
   since the last escape record (or since the start).
  */
  lemma {:induction false} DriftLaw(start: Time, calls: seq<Call>, from: nat)
    requires NoSetTime(calls)
    requires AfterLastEscape(start, calls, from)
    ensures ReplayClock(start, calls) == LastTime(start, calls) + BackwardSteps(start, calls, from)
  {
    if from < |calls| {
      var before, c := calls[..|calls| - 1], calls[|calls| - 1];
      assert before + [c] == calls;
      forall j | 0 <= j < |before| ensures EscapeAt(start, before, j) == EscapeAt(start, calls, j) {}
      DriftLaw(start, before, from);
      BackwardStepsAppend(start, before, c, from);
      assert !EscapeAt(start, calls, |before|);
    }
  }

  lemma {:induction false} LastEscapeExists(start: Time, calls: seq<Call>) returns (from: nat)
    ensures AfterLastEscape(start, calls, from)
  {
    from := |calls|;
    while from > 0 && !EscapeAt(start, calls, from - 1)
      invariant from <= |calls|
      invariant forall j | from <= j < |calls| :: !EscapeAt(start, calls, j)
    {
      from := from - 1;
    }
  }

  /** Without recorded `perf.setTime` events, report `i` of a replay is about call `i`. */
  lemma {:induction false} ReplayedAt(evs: seq<Event>, start: Time, calls: seq<Call>, i: nat)
    requires NoSetTime(calls)
    requires i < |calls|
    ensures |Replayed(evs, start, calls)| == |calls|
    ensures Replayed(evs, start, calls)[i] ==
            Out(ReplayClock(start, calls[..i + 1]), NameOf(evs, calls[i].id), calls[i].arg)
  {
    var before := calls[..|calls| - 1];
    if |before| == 0 {
      assert calls[..1] == calls;
    } else if i == |before| {
      ReplayedAt(evs, start, before, 0);
      assert calls[..i + 1] == calls;
    } else {
      ReplayedAt(evs, start, before, i);
      assert before[..i + 1] == calls[..i + 1];
    }
  }

  /** The drift law for every report of a replay. */
  lemma ReplayedTimes(evs: seq<Event>, start: Time, calls: seq<Call>, i: nat, from: nat)
    requires NoSetTime(calls)
    requires i < |calls| && AfterLastEscape(start, calls[..i + 1], from)
    ensures |Replayed(evs, start, calls)| == |calls|
    ensures Replayed(evs, start, calls)[i].time == calls[i].time + BackwardSteps(start, calls[..i + 1], from)
  {
    ReplayedAt(evs, start, calls, i);
    DriftLaw(start, calls[..i + 1], from);
  }

  predicate NonDecreasing(start: Time, calls: seq<Call>) {
    forall j | 0 <= j < |calls| :: TimeBefore(start, calls, j) <= calls[j].time
  }

  /** The log that a caller would like to read back. */
  function Recorded(evs: seq<Event>, calls: seq<Call>): seq<Out> {
    seq(|calls|, i requires 0 <= i < |calls| => Out(calls[i].time, NameOf(evs, calls[i].id), calls[i].arg))
  }

  lemma {:induction false} SetTimeIsDropped(evs: seq<Event>, start: Time, calls: seq<Call>)
    requires !NoSetTime(calls)
    ensures |Replayed(evs, start, calls)| < |calls|
  {
    var before, c := calls[..|calls| - 1], calls[|calls| - 1];
    if c.id != EVENT_SET_TIME {
      SetTimeIsDropped(evs, start, before);
    }
  }

  lemma {:induction false} NoStepsBack(start: Time, calls: seq<Call>, from: nat)
    requires from <= |calls| && NonDecreasing(start, calls)
    ensures BackwardSteps(start, calls, from) == 0
    decreases |calls| - from
  {
    if from < |calls| {
      NoStepsBack(start, calls, from + 1);
    }
  }

  lemma {:induction false} SomeStepBack(start: Time, calls: seq<Call>, from: nat, j: nat)
    requires from <= j < |calls|
    requires calls[j].time < TimeBefore(start, calls, j)
    ensures BackwardSteps(start, calls, from) > 0
    decreases |calls| - from
  {
    if from < j {
      SomeStepBack(start, calls, from + 1, j);
    }
  }

  /**
   The round trip, with its exact condition: a replay reports the recorded calls if and only if the
   caller never recorded `perf.setTime` itself and its times never step back.
  */
  lemma RoundTrip(evs: seq<Event>, start: Time, calls: seq<Call>)
    ensures Replayed(evs, start, calls) == Recorded(evs, calls) <==>
            NoSetTime(calls) && NonDecreasing(start, calls)
  {
    if !NoSetTime(calls) {
      SetTimeIsDropped(evs, start, calls);
    } else if NonDecreasing(start, calls) {
      if calls != [] {
        ReplayedAt(evs, start, calls, 0);
      }
      forall i | 0 <= i < |calls| ensures Replayed(evs, start, calls)[i] == Recorded(evs, calls)[i] {
        var before := calls[..i + 1];
        var from := LastEscapeExists(start, before);
        assert NonDecreasing(start, before) by {
          forall j | 0 <= j < |before| ensures TimeBefore(start, before, j) <= before[j].time {
            assert TimeBefore(start, calls, j) <= calls[j].time;
          }
        }
        NoStepsBack(start, before, from);
        ReplayedAt(evs, start, calls, i);
        ReplayedTimes(evs, start, calls, i, from);
      }
    } else {
      var i: nat :| i < |calls| && calls[i].time < TimeBefore(start, calls, i);
      var before := calls[..i + 1];
      var from := LastEscapeExists(start, before);
      assert !EscapeAt(start, before, i);
      SomeStepBack(start, before, from, i);
      ReplayedTimes(evs, start, calls, i, from);
      assert Recorded(evs, calls)[i].time == calls[i].time;
    }
  }

  // ---------------------------------------------------------------- scanning for last values

  /** The argument of the last call about event `id`. */
  function LastArg(calls: seq<Call>, id: Uint16): Option<Arg> {
    if calls == [] then None
    else if calls[|calls| - 1].id == id then Some(calls[|calls| - 1].arg)
    else LastArg(calls[..|calls| - 1], id)
  }

  /** The last argument reported under `name`, as a reader of a replay would find it. */
  function LastReported(outs: seq<Out>, name: string): Option<Arg> {
    if outs == [] then None
    else if outs[|outs| - 1].name == name then Some(outs[|outs| - 1].arg)
    else LastReported(outs[..|outs| - 1], name)
  }

  lemma LastArgAppend(calls: seq<Call>, c: Call, id: Uint16)
    ensures LastArg(calls + [c], id) == if c.id == id then Some(c.arg) else LastArg(calls, id)
  {
    assert (calls + [c])[..|calls|] == calls;
  }

  lemma {:induction false} LastArgAbsent(calls: seq<Call>, id: Uint16)
    requires forall c | c in calls :: c.id != id
    ensures LastArg(calls, id) == None
  {
    if calls != [] {
      LastArgAbsent(calls[..|calls| - 1], id);
    }
  }

  predicate DistinctNames(evs: seq<Event>) {
    forall i, j | 0 <= i < j < |evs| :: evs[i].name != evs[j].name
  }

  lemma {:induction false} ReplayedPrefix(evs: seq<Event>, start: Time, calls: seq<Call>, k: nat)
    requires NoSetTime(calls)
    requires k <= |calls|
    ensures |Replayed(evs, start, calls)| == |calls|
    ensures Replayed(evs, start, calls)[..k] == Replayed(evs, start, calls[..k])
  {
    if calls != [] {
      var before := calls[..|calls| - 1];
      if k == |calls| {
        assert calls[..k] == calls;
        ReplayedPrefix(evs, start, before, |before|);
      } else {
        ReplayedPrefix(evs, start, before, k);
        assert before[..k] == calls[..k];
      }
    }
  }

  /** A reader who keeps the last value per name finds the last value recorded under the name's event. */
  lemma {:induction false} LastReportedIsLastArg(evs: seq<Event>, start: Time, calls: seq<Call>, id: Uint16)
    requires KnownCalls(evs, calls) && NoSetTime(calls) && DistinctNames(evs)
    requires id < |evs|
    ensures LastReported(Replayed(evs, start, calls), NameOf(evs, id)) == LastArg(calls, id)
  {
    if calls != [] {
      var before := calls[..|calls| - 1];
      LastReportedIsLastArg(evs, start, before, id);
      var outs := Replayed(evs, start, calls);
      assert outs[..|outs| - 1] == Replayed(evs, start, before);
    }
  }
}
