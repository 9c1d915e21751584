/** The performance log: event definitions, recording, statistics and replay. */
module PerfLog {
  import opened Bytes
  import opened Options
  import opened PerfRecords
  import PerfBlocks

  /** A statistic; its values carry the signature of its event, I or X. */
  datatype Statistic = Statistic(
    id: Uint16,
    current: Arg,
    last: Arg,
    initialized: bool,
    recorded: bool)

  /** What a statistics callback, or anyone else, can do to a log. */
  datatype Action =
    | Update(name: string, value: Arg)
    | Record(name: string, time: Time, arg: Arg)
    | Enable(enabled: bool)

  function SignatureOf(s: string): (r: Option<Signature>) {
    match s
    case "" => Some(Empty)
    case "s" => Some(S)
    case "i" => Some(I)
    case "x" => Some(X)
    case _ => None
  }

  /** The text of a signature leads back to it, and no other text is a signature. */
  lemma SignatureIsText(s: string)
    ensures match SignatureOf(s)
            case None => s != "" && s != "s" && s != "i" && s != "x"
            case Some(signature) =>
              s == match signature
                   case Empty => ""
                   case S => "s"
                   case I => "i"
                   case X => "x"
  {
  }

  /** Names are new and can be quoted, signatures are supported, and identifiers have 16 bits. */
  predicate CanDefine(
    events: seq<Event>, byName: map<string, Uint16>, name: string, parsed: Option<Signature>)
  {
    && parsed.Some?
    && |events| != 0x1_0000
    && '"' !in name
    && name !in byName
  }

  function NewStatistic(id: Uint16, signature: Signature): Statistic {
    var zero := if signature == I then Int(0) else Long(0);
    Statistic(id, zero, zero, false, false)
  }

  // ---------------------------------------------------------------- what operations do, on values

  /** The definitions in a log; no operation below changes them. */
  datatype Definitions = Definitions(
    events: seq<Event>, eventsByName: map<string, Uint16>, statisticsByName: map<string, nat>)

  /**
   What a log has recorded.  `faithful` is false once a statistic's event or the collection marker was
   recorded by anyone but a collection, or a collection had something to record while the log was disabled.
   `collections` has, for the index of each marker in `calls`, the statistics at that collection.
  */
  datatype View = View(
    statistics: seq<Statistic>, enabled: bool, calls: seq<Call>,
    faithful: bool, collections: map<nat, seq<Statistic>>)

  function SignatureFor(arg: Arg): (s: Signature)
    ensures Fits(s, arg)
  {
    match arg
    case Nothing => Empty
    case Int(_) => I
    case Long(_) => X
    case Text(_) => S
  }

  /** The event with a name, if it was defined with the signature it is used with. */
  function LookupEvent(d: Definitions, name: string, signature: Signature): (id: Option<Uint16>) {
    if name in d.eventsByName then
      var id := d.eventsByName[name];
      if id < |d.events| && d.events[id].signature == signature then Some(id) else None
    else None
  }

  predicate FitsInBlock(arg: Arg) {
    6 + |EncodeArg(arg)| <= BLOCK_SIZE
  }

  /** Events that only a collection should record. */
  predicate Reserved(statistics: seq<Statistic>, id: Uint16) {
    id == EVENT_STATISTICS_COLLECTED || exists s | s in statistics :: s.id == id
  }

  function Perform(d: Definitions, v: View, a: Action): (v': View) {
    match a
    case Update(name, value) =>
      if name in d.statisticsByName && d.statisticsByName[name] < |v.statistics| then
        var j := d.statisticsByName[name];
        var s := v.statistics[j];
        if SignatureFor(value) == SignatureFor(s.current) then
          v.(statistics := v.statistics[j := s.(current := value, initialized := true)])
        else v
      else v
    case Record(name, time, arg) =>
      var id := LookupEvent(d, name, SignatureFor(arg));
      if v.enabled && id.Some? && FitsInBlock(arg) then
        v.(calls := v.calls + [Call(time, id.value, arg)],
           faithful := v.faithful && !Reserved(v.statistics, id.value))
      else v
    case Enable(enabled) =>
      v.(enabled := enabled)
  }

  function PerformAll(d: Definitions, v: View, actions: seq<Action>): (v': View) {
    if actions == [] then v
    else Perform(d, PerformAll(d, v, actions[..|actions| - 1]), actions[|actions| - 1])
  }

  /** A statistic is recorded only when its value was never recorded or has changed since. */
  predicate NeedsRecord(s: Statistic) {
    s.initialized && (!s.recorded || s.current != s.last)
  }

  function Collect1(v: View, i: nat, time: Time): (v': View)
    requires i < |v.statistics|
  {
    var s := v.statistics[i];
    if NeedsRecord(s) then
      v.(statistics := v.statistics[i := s.(last := s.current, recorded := true)],
         calls := if v.enabled then v.calls + [Call(time, s.id, s.current)] else v.calls,
         faithful := v.faithful && v.enabled)
    else v
  }

  function CollectFirst(v: View, n: nat, time: Time): (v': View)
    requires n <= |v.statistics|
    ensures |v'.statistics| == |v.statistics|
  {
    if n == 0 then v else Collect1(CollectFirst(v, n - 1, time), n - 1, time)
  }

  function Mark(v: View, time: Time, took: Int64): (v': View) {
    if v.enabled then
      v.(calls := v.calls + [Call(time, EVENT_STATISTICS_COLLECTED, Long(took))],
         collections := v.collections[|v.calls| := v.statistics])
    else v
  }

  /** A collection started at `time`; the callbacks do `actions` and are done at `now`. */
  function Collect(d: Definitions, v: View, time: Time, actions: seq<Action>, now: Time): (v': View) {
    if !v.enabled then v
    else
      var v1 := PerformAll(d, v, actions);
      Mark(CollectFirst(v1, |v1.statistics|, time), time, now - time)
  }

  // ---------------------------------------------------------------- consistency, on values

  const SET_TIME_EVENT := Event("perf.setTime", X)
  const STATISTICS_COLLECTED_EVENT := Event("perf.statisticsCollected", X)

  predicate ValidEvents(events: seq<Event>, byName: map<string, Uint16>) {
    && 2 <= |events| <= 0x1_0000
    && events[EVENT_SET_TIME] == SET_TIME_EVENT
    && events[EVENT_STATISTICS_COLLECTED] == STATISTICS_COLLECTED_EVENT
    && (forall i | 0 <= i < |events| :: events[i].name in byName && byName[events[i].name] == i)
    && (forall name | name in byName :: byName[name] < |events| && events[byName[name]].name == name)
  }

  predicate ValidStatistic(events: seq<Event>, s: Statistic) {
    && EVENT_STATISTICS_COLLECTED < s.id < |events|
    && events[s.id].signature in {I, X}
    && Fits(events[s.id].signature, s.current)
    && Fits(events[s.id].signature, s.last)
    && (s.recorded ==> s.initialized)
  }

  predicate ValidStatistics(events: seq<Event>, statistics: seq<Statistic>, byName: map<string, nat>) {
    && (forall j | 0 <= j < |statistics| :: ValidStatistic(events, statistics[j]))
    && (forall i, j | 0 <= i < j < |statistics| :: statistics[i].id != statistics[j].id)
    && (forall j | 0 <= j < |statistics| ::
          var name := events[statistics[j].id].name;
          name in byName && byName[name] == j)
    && (forall name | name in byName ::
          byName[name] < |statistics| && events[statistics[byName[name]].id].name == name)
  }

  /** The last value in the log of every statistic is the one it was last recorded with. */
  predicate Settled(calls: seq<Call>, statistics: seq<Statistic>) {
    forall s | s in statistics :: LastArg(calls, s.id) == if s.recorded then Some(s.last) else None
  }

  /** Keeping the last value per statistic, the log holds the current values of all initialized statistics. */
  predicate Table(calls: seq<Call>, statistics: seq<Statistic>) {
    forall s | s in statistics :: LastArg(calls, s.id) == if s.initialized then Some(s.current) else None
  }

  /** The markers in the log are those of `collections`, and at each the log so far holds the values it has there. */
  ghost predicate Collected(calls: seq<Call>, collections: map<nat, seq<Statistic>>) {
    && (forall k: nat :: k in collections <==> k < |calls| && calls[k].id == EVENT_STATISTICS_COLLECTED)
    && (forall k | k in collections :: k < |calls| && Table(calls[..k], collections[k]))
  }

  predicate DefinedIn(events: seq<Event>, collections: map<nat, seq<Statistic>>) {
    forall k | k in collections :: forall s | s in collections[k] :: s.id < |events|
  }

  ghost predicate Good(d: Definitions, v: View) {
    && ValidEvents(d.events, d.eventsByName)
    && ValidStatistics(d.events, v.statistics, d.statisticsByName)
    && KnownCalls(d.events, v.calls)
    && DefinedIn(d.events, v.collections)
    && (v.faithful ==> Settled(v.calls, v.statistics) && Collected(v.calls, v.collections))
  }

  lemma InitialGood()
    ensures Good(
      Definitions(
        [SET_TIME_EVENT, STATISTICS_COLLECTED_EVENT],
        map["perf.setTime" := EVENT_SET_TIME, "perf.statisticsCollected" := EVENT_STATISTICS_COLLECTED],
        map[]),
      View([], false, [], true, map[]))
  {
  }

  lemma EventAdded(d: Definitions, v: View, e: Event)
    requires Good(d, v)
    requires |d.events| != 0x1_0000 && e.name !in d.eventsByName
    ensures |d.events| < 0x1_0000
    ensures Good(
      d.(events := d.events + [e], eventsByName := d.eventsByName[e.name := |d.events|]), v)
  {
    assert forall s | s in v.statistics :: ValidStatistic(d.events, s) ==> ValidStatistic(d.events + [e], s);
  }

  /** A new statistic, for the event `s.id` that was defined for it. */
  lemma StatisticAdded(d: Definitions, v: View, e: Event, s: Statistic)
    requires Good(d, v)
    requires e.name !in d.eventsByName && e.signature in {I, X}
    requires s.id == |d.events| && s == NewStatistic(s.id, e.signature)
    ensures Good(
      Definitions(d.events + [e], d.eventsByName[e.name := s.id], d.statisticsByName[e.name := |v.statistics|]),
      v.(statistics := v.statistics + [s]))
  {
    EventAdded(d, v, e);
    StatisticDefined(d, v.statistics, e, s);
    NothingAbout(d.events, v.calls, v.statistics, s);
  }

  lemma StatisticDefined(d: Definitions, statistics: seq<Statistic>, e: Event, s: Statistic)
    requires ValidEvents(d.events, d.eventsByName)
    requires ValidStatistics(d.events, statistics, d.statisticsByName)
    requires e.name !in d.eventsByName && e.signature in {I, X}
    requires s.id == |d.events| && s == NewStatistic(s.id, e.signature)
    ensures ValidStatistics(d.events + [e], statistics + [s], d.statisticsByName[e.name := |statistics|])
  {
    assert forall t | t in statistics :: ValidStatistic(d.events, t) ==> ValidStatistic(d.events + [e], t);
    assert forall t | t in statistics :: ValidStatistic(d.events, t) ==> d.events[t.id].name in d.eventsByName;
    assert e.name !in d.statisticsByName;
  }

  /** Nothing is in the log about an event that was not defined yet. */
  lemma NothingAbout(events: seq<Event>, calls: seq<Call>, statistics: seq<Statistic>, s: Statistic)
    requires KnownCalls(events, calls)
    requires s.id == |events| && !s.recorded
    ensures Settled(calls, statistics) ==> Settled(calls, statistics + [s])
  {
    LastArgAbsent(calls, s.id);
  }

  // ---------------------------------------------------------------- what operations keep

  /** A statistic's value changes; its identifier and kind do not. */
  lemma StatisticChanged(d: Definitions, statistics: seq<Statistic>, j: nat, s: Statistic)
    requires ValidStatistics(d.events, statistics, d.statisticsByName)
    requires j < |statistics| && s.id == statistics[j].id && ValidStatistic(d.events, s)
    ensures ValidStatistics(d.events, statistics[j := s], d.statisticsByName)
  {
  }

  lemma CollectedCall(calls: seq<Call>, collections: map<nat, seq<Statistic>>, c: Call)
    requires Collected(calls, collections)
    requires c.id != EVENT_STATISTICS_COLLECTED
    ensures Collected(calls + [c], collections)
  {
    hide Table;
    assert forall k | k in collections :: (calls + [c])[..k] == calls[..k];
  }

  lemma CollectedMark(calls: seq<Call>, statistics: seq<Statistic>, collections: map<nat, seq<Statistic>>, c: Call)
    requires Collected(calls, collections)
    requires c.id == EVENT_STATISTICS_COLLECTED
    requires Table(calls, statistics)
    ensures Collected(calls + [c], collections[|calls| := statistics])
  {
    hide Table;
    assert (calls + [c])[..|calls|] == calls;
    assert forall k | k in collections :: (calls + [c])[..k] == calls[..k];
  }

  lemma PerformKeeps(d: Definitions, v: View, a: Action)
    requires Good(d, v)
    ensures Good(d, Perform(d, v, a))
  {
    hide LastArg, EncodeArg;
    var v' := Perform(d, v, a);
    match a
    case Update(name, value) =>
      if v' != v {
        var j := d.statisticsByName[name];
        var s := v'.statistics[j];
        StatisticChanged(d, v.statistics, j, s);
      }
    case Record(name, time, arg) =>
      if v' != v {
        var c := v'.calls[|v.calls|];
        forall s | s in v.statistics ensures
          LastArg(v.calls + [c], s.id) == if c.id == s.id then Some(c.arg) else LastArg(v.calls, s.id)
        {
          LastArgAppend(v.calls, c, s.id);
        }
        if v'.faithful {
          CollectedCall(v.calls, v.collections, c);
        }
      }
    case Enable(_) =>
  }

  lemma Collect1Keeps(d: Definitions, v: View, i: nat, time: Time)
    requires Good(d, v) && i < |v.statistics|
    ensures Good(d, Collect1(v, i, time))
  {
    hide LastArg, Collected;
    var s := v.statistics[i];
    if NeedsRecord(s) {
      var s', c := s.(last := s.current, recorded := true), Call(time, s.id, s.current);
      StatisticChanged(d, v.statistics, i, s');
      if v.faithful && v.enabled {
        forall t | t in v.statistics ensures
          LastArg(v.calls + [c], t.id) == if c.id == t.id then Some(c.arg) else LastArg(v.calls, t.id)
        {
          LastArgAppend(v.calls, c, t.id);
        }
        CollectedCall(v.calls, v.collections, c);
      }
    }
  }

  lemma {:induction false} CollectFirstKeeps(d: Definitions, v: View, n: nat, time: Time)
    requires Good(d, v) && n <= |v.statistics|
    ensures Good(d, CollectFirst(v, n, time))
  {
    hide Good, Collect1;
    if n > 0 {
      CollectFirstKeeps(d, v, n - 1, time);
      Collect1Keeps(d, CollectFirst(v, n - 1, time), n - 1, time);
    }
  }

  /** `after` differs from `before` only in what is recorded about the first `n` statistics, which is all there is. */
  predicate CollectedUpTo(before: View, after: View, n: nat) {
    && |after.statistics| == |before.statistics|
    && after.enabled == before.enabled
    && |after.calls| >= |before.calls|
    && (forall j | 0 <= j < |before.statistics| ::
          var s, t := before.statistics[j], after.statistics[j];
          s.id == t.id && s.initialized == t.initialized && s.current == t.current && (j < n ==> !NeedsRecord(t)))
  }

  lemma {:induction false} CollectFirstCollects(v: View, n: nat, time: Time)
    requires n <= |v.statistics|
    ensures CollectedUpTo(v, CollectFirst(v, n, time), n)
    ensures CollectFirst(v, n, time).collections == v.collections
  {
    if n > 0 {
      CollectFirstCollects(v, n - 1, time);
    }
  }

  /** When everything is recorded, the last values in the log are the current values. */
  lemma MarkKeeps(d: Definitions, v: View, time: Time, took: Int64)
    requires Good(d, v)
    requires forall j | 0 <= j < |v.statistics| :: !NeedsRecord(v.statistics[j])
    ensures Good(d, Mark(v, time, took))
  {
    hide LastArg, Collected;
    if v.enabled {
      var c := Call(time, EVENT_STATISTICS_COLLECTED, Long(took));
      forall s | s in v.statistics ensures LastArg(v.calls + [c], s.id) == LastArg(v.calls, s.id) {
        LastArgAppend(v.calls, c, s.id);
      }
      if v.faithful {
        CollectedMark(v.calls, v.statistics, v.collections, c);
      }
    }
  }

  lemma {:induction false} PerformAllKeeps(d: Definitions, v: View, actions: seq<Action>)
    requires Good(d, v)
    ensures Good(d, PerformAll(d, v, actions))
  {
    hide Good, Perform;
    if actions != [] {
      PerformAllKeeps(d, v, actions[..|actions| - 1]);
      PerformKeeps(d, PerformAll(d, v, actions[..|actions| - 1]), actions[|actions| - 1]);
    }
  }

  lemma CollectKeeps(d: Definitions, v: View, time: Time, actions: seq<Action>, now: Time)
    requires Good(d, v)
    ensures Good(d, Collect(d, v, time, actions, now))
  {
    hide Good, Perform, PerformAll, Collect1, CollectFirst, Mark;
    if v.enabled {
      PerformAllKeeps(d, v, actions);
      var v1 := PerformAll(d, v, actions);
      CollectFirstKeeps(d, v1, |v1.statistics|, time);
      CollectFirstCollects(v1, |v1.statistics|, time);
      MarkKeeps(d, CollectFirst(v1, |v1.statistics|, time), time, now - time);
    }
  }

  /** A collection that ends with the log enabled marks it, with the statistics that the callbacks left. */
  lemma CollectMarks(d: Definitions, v: View, time: Time, actions: seq<Action>, now: Time)
    requires v.enabled && PerformAll(d, v, actions).enabled
    ensures var v1 := PerformAll(d, v, actions);
            var v' := Collect(d, v, time, actions, now);
            && |v'.calls| > |v1.calls|
            && v'.calls[|v'.calls| - 1] == Call(time, EVENT_STATISTICS_COLLECTED, Long(now - time))
            && v'.collections == v1.collections[|v'.calls| - 1 := v'.statistics]
            && CollectedUpTo(v1, v', |v1.statistics|)
  {
    hide Perform, PerformAll, Collect1, CollectFirst;
    var v1 := PerformAll(d, v, actions);
    CollectFirstCollects(v1, |v1.statistics|, time);
  }

  lemma NamesAreDistinct(events: seq<Event>, byName: map<string, Uint16>)
    requires ValidEvents(events, byName)
    ensures DistinctNames(events)
  {
  }

  /**
   Delta compression loses nothing.  In a replay of a faithful log, a reader who keeps the last value per
   name has, at each marker, the value that every statistic had at that collection, and none for the
   statistics that were not initialized.
  */
  lemma StatisticsAreLossless(d: Definitions, v: View, start: Time, k: nat, s: Statistic)
    requires Good(d, v) && v.faithful && NoSetTime(v.calls)
    requires k in v.collections && s in v.collections[k]
    ensures var outs := Replayed(d.events, start, v.calls);
            && k < |outs|
            && outs[k].name == "perf.statisticsCollected"
            && s.id < |d.events|
            && LastReported(outs[..k], d.events[s.id].name) == if s.initialized then Some(s.current) else None
  {
    hide Replayed, LastReported, LastArg;
    var outs := Replayed(d.events, start, v.calls);
    ReplayedAt(d.events, start, v.calls, k);
    ReplayedPrefix(d.events, start, v.calls, k);
    NamesAreDistinct(d.events, d.eventsByName);
    assert forall c | c in v.calls[..k] :: c in v.calls;
    LastReportedIsLastArg(d.events, start, v.calls[..k], s.id);
  }

  /**
   Why a log must stay enabled during a collection: a value that a disabled collection took for recorded is
   missing at the next marker.
  */
  lemma DisabledCollectionLosesAValue(d: Definitions)
    ensures var s := Statistic(2, Int(7), Int(0), true, false);
            var v1 := Collect(d, View([s], true, [], true, map[]), 0, [Enable(false)], 0);
            var v2 := Collect(d, Perform(d, v1, Enable(true)), 1, [], 1);
            && !v1.faithful
            && 0 in v2.collections && v2.collections[0] == [s.(last := Int(7), recorded := true)]
            && |v2.calls| == 1 && !Table(v2.calls[..0], v2.collections[0])
  {
    var s := Statistic(2, Int(7), Int(0), true, false);
    var v := View([s], true, [], true, map[]);
    assert PerformAll(d, v, [Enable(false)]) == v.(enabled := false) by {
      assert [Enable(false)][..0] == [];
    }
    var v1 := Collect(d, v, 0, [Enable(false)], 0);
    var recorded := s.(last := Int(7), recorded := true);
    assert CollectFirst(v.(enabled := false), 1, 0).statistics == [recorded];
    var v2 := Perform(d, v1, Enable(true));
    assert CollectFirst(v2, 1, 1) == v2;
    assert recorded in Collect(d, v2, 1, [], 1).collections[0];
  }

  // ---------------------------------------------------------------- the log

  class Log {
    var events: seq<Event>
    var eventsByName: map<string, Uint16>
    var statistics: seq<Statistic>
    var statisticsByName: map<string, nat>
    const blocks: PerfBlocks.Queue
    const startTime: Time
    var lastTime: Time
    var enabled: bool

    ghost var calls: seq<Call>
    ghost var faithful: bool
    ghost var collections: map<nat, seq<Statistic>>
    ghost var Repr: set<object>

    ghost function Defs(): Definitions
      reads this
    {
      Definitions(events, eventsByName, statisticsByName)
    }

    ghost function State(): View
      reads this
    {
      View(statistics, enabled, calls, faithful, collections)
    }

    ghost predicate Owns()
      reads this, blocks
    {
      && this !in blocks.Repr
      && Repr == {this} + blocks.Repr
    }

    /** The blocks hold exactly the records of the accepted calls. */
    ghost predicate Stored()
      reads this, Repr, blocks
    {
      && blocks in Repr
      && Owns()
      && blocks.Valid()
      && PerfBlocks.Flat(blocks.packed) == Records(startTime, calls)
      && lastTime == LastTime(startTime, calls)
    }

    ghost predicate Valid()
      reads this, Repr, blocks
    {
      Stored() && Good(Defs(), State())
    }

    constructor (now: Time)
      ensures Valid() && fresh(Repr)
      ensures startTime == now
      ensures State() == View([], false, [], true, map[])
      ensures events == [SET_TIME_EVENT, STATISTICS_COLLECTED_EVENT]
    {
      hide Good;
      events := [SET_TIME_EVENT, STATISTICS_COLLECTED_EVENT];
      eventsByName := map["perf.setTime" := EVENT_SET_TIME, "perf.statisticsCollected" := EVENT_STATISTICS_COLLECTED];
      statistics, statisticsByName := [], map[];
      calls := [];
      startTime, lastTime := now, now;
      enabled, faithful, collections := false, true, map[];
      var queue := new PerfBlocks.Queue();
      blocks := queue;
      Repr := {this} + queue.Repr;
      InitialGood();
    }

    method SetEnabled(enabled: bool)
      requires Valid()
      modifies this`enabled
      ensures Valid()
      ensures State() == Perform(Defs(), old(State()), Enable(enabled))
    {
      hide Good, PerfBlocks.Flat, PerfBlocks.Queue.Valid, Records, LastTime;
      PerformKeeps(Defs(), State(), Enable(enabled));
      this.enabled := enabled;
    }

    // -------------------------------------------------------------- definitions

    method DefineEvent(name: string, signature: string) returns (r: Option<Uint16>)
      requires Valid()
      modifies this`events, this`eventsByName
      ensures Valid()
      ensures r.Some? == (
              && SignatureOf(signature).Some? && '"' !in name
              && old(name !in eventsByName) && old(|events|) != 0x1_0000)
      ensures r.Some? ==>
              && r.value == old(|events|)
              && events == old(events) + [Event(name, SignatureOf(signature).value)]
              && eventsByName == old(eventsByName)[name := r.value]
      ensures r.None? ==> unchanged(this)
    {
      hide Good, PerfBlocks.Flat, PerfBlocks.Queue.Valid, Records, LastTime, SignatureOf;
      var parsed := SignatureOf(signature);
      r := None;
      if parsed.Some? && |events| != 0x1_0000 && '"' !in name && name !in eventsByName {
        EventAdded(Defs(), State(), Event(name, parsed.value));
        r := Some(|events|);
        events := events + [Event(name, parsed.value)];
        eventsByName := eventsByName[name := r.value];
      }
    }

    method DefineStatistic(name: string, signature: string) returns (defined: bool)
      requires Valid()
      modifies this`events, this`eventsByName, this`statistics, this`statisticsByName
      ensures Valid()
      ensures defined == (
              && SignatureOf(signature) in {Some(I), Some(X)}
              && CanDefine(old(events), old(eventsByName), name, SignatureOf(signature)))
      ensures defined ==> events == old(events) + [Event(name, SignatureOf(signature).value)]
      ensures defined ==>
              |events| <= 0x1_0000 &&
              statistics == old(statistics) + [NewStatistic(|events| - 1, SignatureOf(signature).value)]
      ensures !defined ==> unchanged(this)
    {
      hide Good, PerfBlocks.Flat, PerfBlocks.Queue.Valid, Records, LastTime, SignatureOf;
      defined := false;
      var parsed := SignatureOf(signature);
      if parsed == Some(I) || parsed == Some(X) {
        ghost var d := Defs();
        var id := DefineEvent(name, signature);
        if id.Some? {
          var s := NewStatistic(id.value, parsed.value);
          StatisticAdded(d, State(), events[id.value], s);
          statisticsByName := statisticsByName[name := |statistics|];
          statistics := statistics + [s];
          defined := true;
        }
      }
    }

    // -------------------------------------------------------------- recording

    /** Packs an event; the oversize check comes first, then the escape record for a large time step. */
    method RecordEvent(time: Time, id: Uint16, bytes: seq<Byte>, ghost arg: Arg)
      requires blocks in Repr && Owns() && blocks.Valid()
      requires bytes == EncodeArg(arg)
      modifies `lastTime, `Repr, blocks.Repr
      ensures Owns() && blocks in Repr && blocks.Valid() && fresh(Repr - old(Repr))
      ensures enabled && FitsInBlock(arg) ==>
              && lastTime == time
              && PerfBlocks.Flat(blocks.packed) ==
                 old(PerfBlocks.Flat(blocks.packed)) + RecordsFor(old(lastTime), Call(time, id, arg))
      ensures !(enabled && FitsInBlock(arg)) ==> unchanged(this) && unchanged(blocks.Repr)
      decreases IsEscape(lastTime, time)
    {
      hide PerfBlocks.Flat, PerfBlocks.Queue.Valid, EncodeArg, Int64Bytes;
      if enabled && 6 + |bytes| <= BLOCK_SIZE {
        var delta := 0;
        ghost var before, last := PerfBlocks.Flat(blocks.packed), lastTime;
        if time > lastTime + MAX_DELTA {
          lastTime := time;
          EncodedTime(time);
          RecordEvent(time, EVENT_SET_TIME, Int64Bytes(time), Long(time));
          assert PerfBlocks.Flat(blocks.packed) == before + [Rec(0, EVENT_SET_TIME, Long(time))];
        } else if time < lastTime {
        } else {
          delta := time - lastTime;
        }
        lastTime := time;
        blocks.Append(delta, id, bytes, arg);
        Repr := {this} + blocks.Repr;
        assert IsEscape(last, time) ==>
            before + [Rec(0, EVENT_SET_TIME, Long(time))] + [Rec(delta, id, arg)] ==
            before + RecordsFor(last, Call(time, id, arg));
      }
    }

    /** Packs a call, unless the log is disabled or the call does not fit. */
    method Accept(time: Time, id: Uint16, arg: Arg) returns (accepted: bool)
      requires Stored()
      modifies `lastTime, `Repr, `calls, blocks.Repr
      ensures Stored() && fresh(Repr - old(Repr))
      ensures accepted == (enabled && FitsInBlock(arg))
      ensures accepted ==> calls == old(calls) + [Call(time, id, arg)]
      ensures !accepted ==> unchanged(this) && unchanged(blocks.Repr)
    {
      hide PerfBlocks.Flat, PerfBlocks.Queue.Valid, EncodeArg, RecordsFor, Records, LastTime;
      accepted := enabled && 6 + |EncodeArg(arg)| <= BLOCK_SIZE;
      RecordsAppend(startTime, calls, Call(time, id, arg));
      RecordEvent(time, id, EncodeArg(arg), arg);
      if accepted {
        calls := calls + [Call(time, id, arg)];
      }
    }

    /** Records an event by name; `accepted` says whether it got into the log. */
    method Record(name: string, time: Time, arg: Arg) returns (accepted: bool)
      requires Valid()
      modifies `lastTime, `Repr, `calls, `faithful, blocks.Repr
      ensures Valid() && fresh(Repr - old(Repr))
      ensures State() == Perform(Defs(), old(State()), Action.Record(name, time, arg))
      ensures accepted == (enabled && LookupEvent(Defs(), name, SignatureFor(arg)).Some? && FitsInBlock(arg))
      ensures !accepted ==> unchanged(this) && unchanged(blocks.Repr)
    {
      hide Good, PerfBlocks.Flat, PerfBlocks.Queue.Valid, FitsInBlock, LookupEvent, Records, LastTime;
      PerformKeeps(Defs(), State(), Action.Record(name, time, arg));
      var id := LookupEvent(Definitions(events, eventsByName, statisticsByName), name, SignatureFor(arg));
      accepted := false;
      if id.Some? {
        accepted := Accept(time, id.value, arg);
        faithful := faithful && !(accepted && Reserved(statistics, id.value));
      }
    }

    // -------------------------------------------------------------- statistics

    method UpdateStatistic(name: string, value: Arg)
      requires Valid()
      modifies `statistics
      ensures Valid()
      ensures State() == Perform(Defs(), old(State()), Update(name, value))
    {
      hide Good, PerfBlocks.Flat, PerfBlocks.Queue.Valid, Records, LastTime;
      PerformKeeps(Defs(), State(), Update(name, value));
      if name in statisticsByName && statisticsByName[name] < |statistics| {
        var j := statisticsByName[name];
        var s := statistics[j];
        if SignatureFor(value) == SignatureFor(s.current) {
          statistics := statistics[j := s.(current := value, initialized := true)];
        }
      }
    }

    method Run(a: Action)
      requires Valid()
      modifies `lastTime, `Repr, `calls, `faithful, `statistics, `enabled, blocks.Repr
      ensures Valid() && fresh(Repr - old(Repr))
      ensures State() == Perform(Defs(), old(State()), a)
    {
      hide Good, Perform;
      match a
      case Update(name, value) => UpdateStatistic(name, value);
      case Record(name, time, arg) => var _ := Record(name, time, arg);
      case Enable(e) => SetEnabled(e);
    }

    /** Calls the statistics callbacks, which do `actions`. */
    method RunAll(actions: seq<Action>)
      requires Valid()
      modifies `lastTime, `Repr, `calls, `faithful, `statistics, `enabled, blocks.Repr
      ensures Valid() && fresh(Repr - old(Repr))
      ensures State() == PerformAll(Defs(), old(State()), actions)
    {
      hide Good, Perform, PerfBlocks.Flat, PerfBlocks.Queue.Valid, Records, LastTime;
      ghost var done := [];
      for i := 0 to |actions|
        invariant Valid() && fresh(Repr - old(Repr))
        invariant done == actions[..i]
        invariant Defs() == old(Defs())
        invariant State() == PerformAll(Defs(), old(State()), done)
      {
        assert (done + [actions[i]])[..i] == done;
        Run(actions[i]);
        done := done + [actions[i]];
      }
      assert done == actions;
    }

    method CollectStatistic(i: nat, time: Time)
      requires Valid() && i < |statistics|
      modifies `lastTime, `Repr, `calls, `faithful, `statistics, blocks.Repr
      ensures Valid() && fresh(Repr - old(Repr))
      ensures State() == Collect1(old(State()), i, time)
    {
      hide Good, PerfBlocks.Flat, PerfBlocks.Queue.Valid, FitsInBlock, Records, LastTime;
      StatisticFits(Defs(), State(), i);
      Collect1Keeps(Defs(), State(), i, time);
      var s := statistics[i];
      if s.initialized && (!s.recorded || s.current != s.last) {
        var accepted := Accept(time, s.id, s.current);
        statistics := statistics[i := s.(last := s.current, recorded := true)];
        faithful := faithful && accepted;
      }
    }

    /** Collects statistics at `time`, with callbacks that do `actions` and take until `now`. */
    method CollectStatistics(time: Time, actions: seq<Action>, now: Time)
      requires Valid()
      modifies `lastTime, `Repr, `calls, `faithful, `statistics, `enabled, `collections, blocks.Repr
      ensures Valid() && fresh(Repr - old(Repr))
      ensures State() == Collect(Defs(), old(State()), time, actions, now)
    {
      hide Good, PerfBlocks.Flat, PerfBlocks.Queue.Valid, RecordsFor, Perform, PerformAll, Collect1, LastTime;
      if enabled {
        RunAll(actions);
        ghost var v1, d := State(), Defs();
        for i := 0 to |statistics|
          invariant Valid() && fresh(Repr - old(Repr))
          invariant Defs() == d && |statistics| == |v1.statistics| && enabled == v1.enabled
          invariant State() == CollectFirst(v1, i, time)
        {
          CollectStatistic(i, time);
          CollectFirstCollects(v1, i + 1, time);
        }
        CollectFirstCollects(v1, |v1.statistics|, time);
        MarkKeeps(d, State(), time, now - time);
        LogMark(time, now - time);
      }
    }

    method LogMark(time: Time, took: Int64)
      requires Valid()
      requires Good(Defs(), Mark(State(), time, took))
      modifies `lastTime, `Repr, `calls, `collections, blocks.Repr
      ensures Valid() && fresh(Repr - old(Repr))
      ensures State() == Mark(old(State()), time, took)
    {
      hide Good, PerfBlocks.Flat, PerfBlocks.Queue.Valid, Records, LastTime;
      var accepted := Accept(time, EVENT_STATISTICS_COLLECTED, Long(took));
      if accepted {
        collections := collections[|calls| - 1 := statistics];
      }
    }

    // -------------------------------------------------------------- replay

    /** Replays the log from its bytes. */
    method Replay() returns (outs: seq<Out>)
      requires Valid()
      ensures outs == Replayed(events, startTime, calls)
    {
      RecordsAreKnown(events, startTime, calls);
      ReplayOfRecords(events, startTime, calls);
      outs := blocks.Replay(events, startTime);
    }
  }

  lemma StatisticFits(d: Definitions, v: View, i: nat)
    requires Good(d, v) && i < |v.statistics|
    ensures FitsInBlock(v.statistics[i].current)
  {
    hide Int32Bytes, Int64Bytes;
  }

  lemma EncodedTime(time: Time)
    ensures EncodeArg(Long(time)) == Int64Bytes(time)
  {
  }
}
