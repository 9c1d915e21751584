/** Whole runs of a performance log: when its statistics lose nothing. */
module PerfRuns {
  import opened Bytes
  import opened Options
  import opened PerfRecords
  import opened PerfLog

  // ---------------------------------------------------------------- one collection

  /** Nothing is there to be recorded. */
  predicate NothingToRecord(v: View) {
    forall s | s in v.statistics :: !NeedsRecord(s)
  }

  /** A collection stays faithful exactly if it recorded while the log was enabled, or had nothing to record. */
  lemma {:induction false} CollectFirstFaithful(v: View, n: nat, time: Time)
    requires n <= |v.statistics|
    ensures var v' := CollectFirst(v, n, time);
            && (forall j | n <= j < |v.statistics| :: v'.statistics[j] == v.statistics[j])
            && (forall j | 0 <= j < n :: v'.statistics[j] == if NeedsRecord(v.statistics[j])
                  then v.statistics[j].(last := v.statistics[j].current, recorded := true) else v.statistics[j])
            && v'.enabled == v.enabled && (!v.enabled ==> v'.calls == v.calls)
            && (v'.faithful <==> v.faithful && (v.enabled || forall j | 0 <= j < n :: !NeedsRecord(v.statistics[j])))
  {
    if n > 0 {
      CollectFirstFaithful(v, n - 1, time);
    }
  }

  lemma CollectFaithful(d: Definitions, v: View, time: Time, actions: seq<Action>, now: Time)
    requires v.enabled
    ensures var v1, v' := PerformAll(d, v, actions), Collect(d, v, time, actions, now);
            v'.faithful <==> v1.faithful && (v1.enabled || NothingToRecord(v1))
  {
    hide Perform, PerformAll, CollectFirst, NeedsRecord;
    var v1 := PerformAll(d, v, actions);
    CollectFirstFaithful(v1, |v1.statistics|, time);
    assert forall j | 0 <= j < |v1.statistics| :: v1.statistics[j] in v1.statistics;
  }

  /**
   A collection leaves the log with the last value of every statistic if and only if its callbacks leave the log
   enabled, or there is nothing to record when they are done.
  */
  lemma CollectionLosesNothingIff(d: Definitions, v: View, time: Time, actions: seq<Action>, now: Time)
    requires Good(d, v) && v.enabled && PerformAll(d, v, actions).faithful
    ensures var v1, v' := PerformAll(d, v, actions), Collect(d, v, time, actions, now);
            Settled(v'.calls, v'.statistics) <==> v1.enabled || NothingToRecord(v1)
  {
    hide Perform, PerformAll, CollectFirst, LastArg, Collected;
    var v1, v' := PerformAll(d, v, actions), Collect(d, v, time, actions, now);
    PerformAllKeeps(d, v, actions);
    CollectKeeps(d, v, time, actions, now);
    CollectFaithful(d, v, time, actions, now);
    if !v1.enabled && !NothingToRecord(v1) {
      CollectFirstFaithful(v1, |v1.statistics|, time);
      var j :| 0 <= j < |v1.statistics| && NeedsRecord(v1.statistics[j]);
      assert v1.statistics[j] in v1.statistics;
      assert v'.statistics[j] in v'.statistics;
    }
  }

  /** What a reader finds at the marker of the next collection, if nothing changes before it. */
  predicate NextMarkerIsRight(d: Definitions, v: View, time: Time) {
    var v' := Collect(d, Perform(d, v, Enable(true)), time, [], time);
    |v'.calls| > 0 && Table(v'.calls[..|v'.calls| - 1], v'.statistics)
  }

  /** That is what the next marker shows: its table is right under the same condition. */
  lemma NextMarkerIsRightIff(d: Definitions, v: View, time: Time, actions: seq<Action>, now: Time, later: Time)
    requires Good(d, v) && v.enabled && PerformAll(d, v, actions).faithful
    ensures var v1, v' := PerformAll(d, v, actions), Collect(d, v, time, actions, now);
            NextMarkerIsRight(d, v', later) <==> v1.enabled || NothingToRecord(v1)
  {
    hide Good, Perform, PerformAll, Collect, Settled, Table, NothingToRecord, NextMarkerIsRight;
    var v' := Collect(d, v, time, actions, now);
    CollectionLosesNothingIff(d, v, time, actions, now);
    CollectKeeps(d, v, time, actions, now);
    CollectedNothingLeft(d, v, time, actions, now);
    NextMarkerShows(d, v', later);
    TableIsSettled(d, v');
  }

  lemma TableIsSettled(d: Definitions, v: View)
    requires Good(d, v) && NothingToRecord(v)
    ensures Table(v.calls, v.statistics) <==> Settled(v.calls, v.statistics)
  {
    hide LastArg, Collected;
    forall s | s in v.statistics ensures s.recorded ==> s.initialized {
      var j :| 0 <= j < |v.statistics| && v.statistics[j] == s;
      assert ValidStatistic(d.events, v.statistics[j]);
    }
  }

  lemma CollectedNothingLeft(d: Definitions, v: View, time: Time, actions: seq<Action>, now: Time)
    requires v.enabled
    ensures NothingToRecord(Collect(d, v, time, actions, now))
  {
    hide Perform, PerformAll, CollectFirst;
    var v1 := PerformAll(d, v, actions);
    CollectFirstFaithful(v1, |v1.statistics|, time);
  }

  /** With nothing to record, a collection only adds its marker. */
  lemma NextMarkerShows(d: Definitions, v: View, time: Time)
    requires NothingToRecord(v)
    ensures NextMarkerIsRight(d, v, time) <==> Table(v.calls, v.statistics)
  {
    hide CollectFirst, Table, NeedsRecord;
    var v0 := Perform(d, v, Enable(true));
    assert PerformAll(d, v0, []) == v0;
    IdleCollectFirst(v0, |v0.statistics|, time);
    var v' := Collect(d, v0, time, [], time);
    assert v'.calls[..|v'.calls| - 1] == v.calls;
  }

  lemma {:induction false} IdleCollectFirst(v: View, n: nat, time: Time)
    requires NothingToRecord(v) && n <= |v.statistics|
    ensures CollectFirst(v, n, time) == v
  {
    hide NeedsRecord;
    if n > 0 {
      IdleCollectFirst(v, n - 1, time);
      assert v.statistics[n - 1] in v.statistics;
    }
  }

  // ---------------------------------------------------------------- runs

  /** A log while it is used; definitions come in between. */
  datatype LogState = LogState(d: Definitions, v: View)

  datatype Step =
    | DefinesEvent(name: string, signature: Signature)
    | DefinesStatistic(name: string, signature: Signature)
    | Does(action: Action)
    | Collects(time: Time, actions: seq<Action>, now: Time)

  const NEW_LOG := LogState(
    Definitions(
      [SET_TIME_EVENT, STATISTICS_COLLECTED_EVENT],
      map["perf.setTime" := EVENT_SET_TIME, "perf.statisticsCollected" := EVENT_STATISTICS_COLLECTED],
      map[]),
    View([], false, [], true, map[]))

  function Next(s: LogState, step: Step): LogState {
    match step
    case DefinesEvent(name, signature) =>
      if !CanDefine(s.d.events, s.d.eventsByName, name, Some(signature)) || |s.d.events| > 0xffff then s
      else s.(d := WithEvent(s.d, Event(name, signature)))
    case DefinesStatistic(name, signature) =>
      if signature !in {I, X} || !CanDefine(s.d.events, s.d.eventsByName, name, Some(signature))
         || |s.d.events| > 0xffff then s
      else
        LogState(
          WithEvent(s.d, Event(name, signature)).(statisticsByName := s.d.statisticsByName[name := |s.v.statistics|]),
          s.v.(statistics := s.v.statistics + [NewStatistic(|s.d.events|, signature)]))
    case Does(action) => s.(v := Perform(s.d, s.v, action))
    case Collects(time, actions, now) => s.(v := Collect(s.d, s.v, time, actions, now))
  }

  function WithEvent(d: Definitions, e: Event): Definitions
    requires |d.events| <= 0xffff
  {
    d.(events := d.events + [e], eventsByName := d.eventsByName[e.name := |d.events|])
  }

  function After(steps: seq<Step>): LogState {
    if steps == [] then NEW_LOG else Next(After(steps[..|steps| - 1]), steps[|steps| - 1])
  }

  /** The events of statistics, and the marker, are left to collections. */
  predicate Considerate(d: Definitions, a: Action) {
    a.Record? ==> a.name !in d.statisticsByName && a.name != "perf.statisticsCollected"
  }

  predicate ConsiderateStep(d: Definitions, step: Step) {
    match step
    case Does(action) => Considerate(d, action)
    case Collects(_, actions, _) => forall a | a in actions :: Considerate(d, a)
    case _ => true
  }

  predicate ConsiderateRun(steps: seq<Step>) {
    forall n | 0 <= n < |steps| :: ConsiderateStep(After(steps[..n]).d, steps[n])
  }

  /** The callbacks leave an enabled log enabled. */
  predicate LeaveEnabled(actions: seq<Action>) {
    if actions == [] then true
    else
      var last := actions[|actions| - 1];
      if last.Enable? then last.enabled else LeaveEnabled(actions[..|actions| - 1])
  }

  /** The callbacks of a collection leave the log enabled, or leave nothing to record. */
  predicate Sound(s: LogState, step: Step) {
    step.Collects? && s.v.enabled ==>
      LeaveEnabled(step.actions) || NothingToRecord(PerformAll(s.d, s.v, step.actions))
  }

  predicate SoundRun(steps: seq<Step>) {
    forall n | 0 <= n < |steps| :: Sound(After(steps[..n]), steps[n])
  }

  lemma {:induction false} LeaveEnabledLeaves(d: Definitions, v: View, actions: seq<Action>)
    requires v.enabled
    ensures PerformAll(d, v, actions).enabled <==> LeaveEnabled(actions)
  {
    if actions != [] {
      LeaveEnabledLeaves(d, v, actions[..|actions| - 1]);
    }
  }

  lemma PerformFaithful(d: Definitions, v: View, a: Action)
    requires Good(d, v) && Considerate(d, a)
    ensures Perform(d, v, a).faithful == v.faithful
  {
    hide EncodeArg, Settled, Collected;
  }

  lemma {:induction false} PerformAllFaithful(d: Definitions, v: View, actions: seq<Action>)
    requires Good(d, v) && forall a | a in actions :: Considerate(d, a)
    ensures PerformAll(d, v, actions).faithful == v.faithful
  {
    hide Good, Perform, Considerate;
    if actions != [] {
      var n := |actions| - 1;
      PerformAllKeeps(d, v, actions[..n]);
      PerformAllFaithful(d, v, actions[..n]);
      PerformFaithful(d, PerformAll(d, v, actions[..n]), actions[n]);
    }
  }

  lemma NextIsGood(s: LogState, step: Step)
    requires Good(s.d, s.v)
    ensures var s' := Next(s, step); Good(s'.d, s'.v)
  {
    hide Good, Perform, Collect;
    match step
    case DefinesEvent(name, signature) =>
      if CanDefine(s.d.events, s.d.eventsByName, name, Some(signature)) {
        EventAdded(s.d, s.v, Event(name, signature));
      }
    case DefinesStatistic(name, signature) =>
      if signature in {I, X} && CanDefine(s.d.events, s.d.eventsByName, name, Some(signature)) {
        EventAdded(s.d, s.v, Event(name, signature));
        StatisticAdded(s.d, s.v, Event(name, signature), NewStatistic(|s.d.events|, signature));
      }
    case Does(action) => PerformKeeps(s.d, s.v, action);
    case Collects(time, actions, now) => CollectKeeps(s.d, s.v, time, actions, now);
  }

  /** A considerate step keeps a log faithful exactly if it is sound. */
  lemma NextFaithful(s: LogState, step: Step)
    requires Good(s.d, s.v) && ConsiderateStep(s.d, step)
    ensures Next(s, step).v.faithful <==> s.v.faithful && Sound(s, step)
  {
    hide Good, Perform, PerformAll, Collect, Considerate, NothingToRecord;
    match step
    case DefinesEvent(_, _) =>
    case DefinesStatistic(_, _) =>
    case Does(action) => PerformFaithful(s.d, s.v, action);
    case Collects(time, actions, now) =>
      if s.v.enabled {
        PerformAllFaithful(s.d, s.v, actions);
        LeaveEnabledLeaves(s.d, s.v, actions);
        CollectFaithful(s.d, s.v, time, actions, now);
      } else {
        assert Collect(s.d, s.v, time, actions, now) == s.v by {
          DisabledCollect(s.d, s.v, time, actions, now);
        }
      }
  }

  lemma DisabledCollect(d: Definitions, v: View, time: Time, actions: seq<Action>, now: Time)
    requires !v.enabled
    ensures Collect(d, v, time, actions, now) == v
  {
  }

  lemma {:induction false} AllRunsAreGood(steps: seq<Step>)
    ensures Good(After(steps).d, After(steps).v)
  {
    hide Good, Next;
    if steps == [] {
      InitialGood();
    } else {
      AllRunsAreGood(steps[..|steps| - 1]);
      NextIsGood(After(steps[..|steps| - 1]), steps[|steps| - 1]);
    }
  }

  lemma {:induction false} RunIsFaithfulIff(steps: seq<Step>)
    requires ConsiderateRun(steps)
    ensures After(steps).v.faithful <==> SoundRun(steps)
  {
    hide Good, Next, Sound, ConsiderateStep;
    if steps != [] {
      var n := |steps| - 1;
      var before := steps[..n];
      assert forall i | 0 <= i < n :: before[..i] == steps[..i];
      RunIsFaithfulIff(before);
      AllRunsAreGood(before);
      assert ConsiderateStep(After(before).d, steps[n]);
      NextFaithful(After(before), steps[n]);
    }
  }

  /** The log holds the last value recorded of every statistic. */
  predicate Complete(s: LogState) {
    Settled(s.v.calls, s.v.statistics)
  }

  lemma UnsoundLoses(s: LogState, step: Step)
    requires Good(s.d, s.v) && s.v.faithful && ConsiderateStep(s.d, step) && !Sound(s, step)
    ensures !Complete(Next(s, step))
  {
    hide Good, Perform, PerformAll, Collect, Considerate, Settled;
    PerformAllFaithful(s.d, s.v, step.actions);
    LeaveEnabledLeaves(s.d, s.v, step.actions);
    CollectionLosesNothingIff(s.d, s.v, step.time, step.actions, step.now);
  }

  lemma FaithfulIsComplete(s: LogState)
    requires Good(s.d, s.v) && s.v.faithful
    ensures Complete(s)
  {
  }

  /**
   Over any run in which the events of statistics are left to collections, the log is complete all the time if and
   only if the callbacks of every collection leave it enabled, or leave nothing to record.
  */
  lemma CompleteAllTheTimeIff(steps: seq<Step>)
    requires ConsiderateRun(steps)
    ensures (forall n | 0 <= n <= |steps| :: Complete(After(steps[..n]))) <==> SoundRun(steps)
  {
    hide Good, Next, Sound, ConsiderateStep, Complete, After;
    if SoundRun(steps) {
      forall n | 0 <= n <= |steps| ensures Complete(After(steps[..n])) {
        var before := steps[..n];
        assert forall i | 0 <= i < n :: before[..i] == steps[..i];
        AllRunsAreGood(before);
        RunIsFaithfulIff(before);
        FaithfulIsComplete(After(before));
      }
    } else {
      var n := FirstUnsound(steps);
      var before := steps[..n];
      assert forall i | 0 <= i < n :: before[..i] == steps[..i];
      AllRunsAreGood(before);
      RunIsFaithfulIff(before);
      assert ConsiderateStep(After(before).d, steps[n]);
      UnsoundLoses(After(before), steps[n]);
      AfterOneMore(steps, n);
      assert !Complete(After(steps[..n + 1]));
    }
  }

  lemma AfterOneMore(steps: seq<Step>, n: nat)
    requires n < |steps|
    ensures After(steps[..n + 1]) == Next(After(steps[..n]), steps[n])
  {
    assert steps[..n + 1][..n] == steps[..n];
  }

  lemma FirstUnsound(steps: seq<Step>) returns (n: nat)
    requires !SoundRun(steps)
    ensures n < |steps| && !Sound(After(steps[..n]), steps[n])
    ensures forall i | 0 <= i < n :: Sound(After(steps[..i]), steps[i])
  {
    hide Sound, After;
    n := 0;
    while Sound(After(steps[..n]), steps[n])
      invariant n < |steps|
      invariant forall i | 0 <= i < n :: Sound(After(steps[..i]), steps[i])
      decreases |steps| - n
    {
      assert n + 1 < |steps|;
      n := n + 1;
    }
  }

  /**
   So a reader of such a log loses nothing: at the marker of every collection in the run, the last value reported
   of each initialized statistic is the value that it had at that collection.
  */
  lemma RunsAreLossless(steps: seq<Step>, start: Time, k: nat, s: Statistic)
    requires ConsiderateRun(steps) && SoundRun(steps) && NoSetTime(After(steps).v.calls)
    requires k in After(steps).v.collections && s in After(steps).v.collections[k]
    ensures var d, outs := After(steps).d, Replayed(After(steps).d.events, start, After(steps).v.calls);
            && k < |outs| && outs[k].name == "perf.statisticsCollected" && s.id < |d.events|
            && LastReported(outs[..k], d.events[s.id].name) == if s.initialized then Some(s.current) else None
  {
    hide Good, After, ConsiderateRun, SoundRun, Replayed, LastReported;
    AllRunsAreGood(steps);
    RunIsFaithfulIff(steps);
    StatisticsAreLossless(After(steps).d, After(steps).v, start, k, s);
  }

  // ---------------------------------------------------------------- what values are reported

  /** The value of the last update of a statistic of this name and kind. */
  function UpdateIn(actions: seq<Action>, name: string, kind: Signature): Option<Arg> {
    if actions == [] then None
    else
      var a := actions[|actions| - 1];
      if a.Update? && a.name == name && SignatureFor(a.value) == kind then Some(a.value)
      else UpdateIn(actions[..|actions| - 1], name, kind)
  }

  /** Whether the log is enabled, told from the steps; the callbacks of a collection run only if it is. */
  predicate EnabledAfter(steps: seq<Step>) {
    if steps == [] then false
    else
      var before := EnabledAfter(steps[..|steps| - 1]);
      match steps[|steps| - 1]
      case Does(Enable(enabled)) => enabled
      case Collects(_, actions, _) => before && LeaveEnabled(actions)
      case _ => before
  }

  /** The same value, from step `from` of a run on, callbacks included. */
  function LastUpdate(steps: seq<Step>, from: nat, name: string, kind: Signature): Option<Arg> {
    if |steps| <= from then None
    else
      var before := steps[..|steps| - 1];
      var now := match steps[|steps| - 1]
                 case Does(action) => UpdateIn([action], name, kind)
                 case Collects(_, actions, _) => if EnabledAfter(before) then UpdateIn(actions, name, kind) else None
                 case _ => None;
      if now.Some? then now else LastUpdate(before, from, name, kind)
  }

  /** Step `i` defines the statistic; an earlier definition of its name, say, would prevent that. */
  predicate DefinedAt(steps: seq<Step>, i: nat, name: string, kind: Signature) {
    && i < |steps| && steps[i] == DefinesStatistic(name, kind)
    && name !in After(steps[..i]).d.statisticsByName && name in After(steps[..i + 1]).d.statisticsByName
  }

  lemma {:induction false} EnabledAsTold(steps: seq<Step>)
    ensures After(steps).v.enabled <==> EnabledAfter(steps)
  {
    hide PerformAll, CollectFirst, LeaveEnabled, CanDefine;
    if steps != [] {
      var before, step := steps[..|steps| - 1], steps[|steps| - 1];
      EnabledAsTold(before);
      if step.Collects? && After(before).v.enabled {
        var s := After(before);
        var v1 := PerformAll(s.d, s.v, step.actions);
        LeaveEnabledLeaves(s.d, s.v, step.actions);
        CollectFirstFaithful(v1, |v1.statistics|, step.time);
      }
    }
  }

  /** Statistic `j` has this name, and was last updated to `value`, if ever. */
  ghost predicate Has(s: LogState, j: nat, name: string, kind: Signature, value: Option<Arg>) {
    && name in s.d.statisticsByName && s.d.statisticsByName[name] == j < |s.v.statistics|
    && var t := s.v.statistics[j];
    && t.id < |s.d.events| && s.d.events[t.id] == Event(name, kind)
    && SignatureFor(t.current) == kind
    && (t.initialized <==> value.Some?) && (value.Some? ==> t.current == value.value)
  }

  lemma PerformHas(d: Definitions, v: View, a: Action, j: nat, name: string, kind: Signature, value: Option<Arg>)
    requires Good(d, v) && Has(LogState(d, v), j, name, kind, value)
    ensures var now := UpdateIn([a], name, kind);
            Has(LogState(d, Perform(d, v, a)), j, name, kind, if now.Some? then now else value)
  {
    hide EncodeArg, Settled, Collected;
    assert UpdateIn([a][..0], name, kind) == None;
    if a.Update? && a.name in d.statisticsByName && a.name != name {
      assert d.statisticsByName[a.name] != j;
    }
  }

  lemma {:induction false} PerformAllHas(
    d: Definitions, v: View, actions: seq<Action>, j: nat, name: string, kind: Signature, value: Option<Arg>)
    requires Good(d, v) && Has(LogState(d, v), j, name, kind, value)
    ensures var now := UpdateIn(actions, name, kind);
            Has(LogState(d, PerformAll(d, v, actions)), j, name, kind, if now.Some? then now else value)
  {
    hide Good, Has, Perform;
    if actions != [] {
      var before, a := actions[..|actions| - 1], actions[|actions| - 1];
      PerformAllKeeps(d, v, before);
      PerformAllHas(d, v, before, j, name, kind, value);
      var now := UpdateIn(before, name, kind);
      PerformHas(d, PerformAll(d, v, before), a, j, name, kind, if now.Some? then now else value);
      assert UpdateIn([a][..0], name, kind) == None;
    }
  }

  lemma CollectHas(
    d: Definitions, v: View, time: Time, actions: seq<Action>, now: Time, j: nat, name: string, kind: Signature,
    value: Option<Arg>)
    requires Good(d, v) && Has(LogState(d, v), j, name, kind, value)
    ensures var update := if v.enabled then UpdateIn(actions, name, kind) else None;
            Has(LogState(d, Collect(d, v, time, actions, now)), j, name, kind, if update.Some? then update else value)
  {
    hide Good, PerformAll, CollectFirst, UpdateIn;
    if v.enabled {
      PerformAllHas(d, v, actions, j, name, kind, value);
      var v1 := PerformAll(d, v, actions);
      CollectFirstCollects(v1, |v1.statistics|, time);
    }
  }

  lemma NextHas(steps: seq<Step>, from: nat, j: nat, name: string, kind: Signature)
    requires from < |steps|
    requires var before := steps[..|steps| - 1];
             Has(After(before), j, name, kind, LastUpdate(before, from, name, kind))
    ensures Has(After(steps), j, name, kind, LastUpdate(steps, from, name, kind))
  {
    hide Good, Perform, Collect, UpdateIn, EnabledAfter;
    var before, step := steps[..|steps| - 1], steps[|steps| - 1];
    var s, value := After(before), LastUpdate(before, from, name, kind);
    AllRunsAreGood(before);
    match step
    case DefinesEvent(_, _) =>
    case DefinesStatistic(n, _) =>
      if n !in s.d.eventsByName {
        DefinitionsKeepNames(s, n);
      }
    case Does(action) => PerformHas(s.d, s.v, action, j, name, kind, value);
    case Collects(time, actions, now) =>
      EnabledAsTold(before);
      CollectHas(s.d, s.v, time, actions, now, j, name, kind, value);
  }

  lemma DefinitionsKeepNames(s: LogState, name: string)
    requires Good(s.d, s.v) && name !in s.d.eventsByName
    ensures name !in s.d.statisticsByName
  {
  }

  /** From its definition on, a statistic has the value of its last update. */
  lemma {:induction false} HasLastUpdate(steps: seq<Step>, i: nat, name: string, kind: Signature) returns (j: nat)
    requires DefinedAt(steps, i, name, kind)
    ensures Has(After(steps), j, name, kind, LastUpdate(steps, i + 1, name, kind))
  {
    hide Has, After;
    if |steps| == i + 1 {
      j := JustDefined(steps, name, kind);
    } else {
      StillDefined(steps, i, name, kind);
      j := HasLastUpdate(steps[..|steps| - 1], i, name, kind);
      NextHas(steps, i + 1, j, name, kind);
    }
  }

  lemma StillDefined(steps: seq<Step>, i: nat, name: string, kind: Signature)
    requires DefinedAt(steps, i, name, kind) && i + 1 < |steps|
    ensures DefinedAt(steps[..|steps| - 1], i, name, kind)
  {
    hide After;
    var before := steps[..|steps| - 1];
    assert before[..i] == steps[..i] && before[..i + 1] == steps[..i + 1];
  }

  lemma JustDefined(steps: seq<Step>, name: string, kind: Signature) returns (j: nat)
    requires |steps| > 0 && DefinedAt(steps, |steps| - 1, name, kind)
    ensures Has(After(steps), j, name, kind, None)
  {
    hide Good;
    var before := steps[..|steps| - 1];
    assert steps[..|steps|] == steps;
    j := |After(before).v.statistics|;
  }

  /** The marker that collection `n` of a run leaves is the last thing in the log then. */
  function MarkerOf(steps: seq<Step>, n: nat): int
    requires n < |steps|
  {
    |After(steps[..n + 1]).v.calls| - 1
  }

  /** Whatever comes later stays behind what is in the log, and so do definitions. */
  lemma {:induction false} LogGrows(steps: seq<Step>, n: nat)
    requires n <= |steps|
    ensures After(steps[..n]).v.calls <= After(steps).v.calls
    ensures After(steps[..n]).d.events <= After(steps).d.events
    decreases |steps|
  {
    hide PerformAll, CollectFirst, CanDefine;
    if n == |steps| {
      assert steps[..n] == steps;
    } else {
      var before, step := steps[..|steps| - 1], steps[|steps| - 1];
      assert before[..n] == steps[..n];
      LogGrows(before, n);
      CallsGrow(After(before), step);
    }
  }

  lemma CallsGrow(s: LogState, step: Step)
    ensures s.v.calls <= Next(s, step).v.calls && s.d.events <= Next(s, step).d.events
  {
    hide PerformAll, CollectFirst, CanDefine;
    if step.Collects? && s.v.enabled {
      var v1 := PerformAll(s.d, s.v, step.actions);
      PerformAllGrows(s.d, s.v, step.actions);
      CollectFirstGrows(v1, |v1.statistics|, step.time);
    }
  }

  lemma {:induction false} PerformAllGrows(d: Definitions, v: View, actions: seq<Action>)
    ensures v.calls <= PerformAll(d, v, actions).calls
  {
    if actions != [] {
      PerformAllGrows(d, v, actions[..|actions| - 1]);
    }
  }

  lemma {:induction false} CollectFirstGrows(v: View, n: nat, time: Time)
    requires n <= |v.statistics|
    ensures v.calls <= CollectFirst(v, n, time).calls
  {
    if n > 0 {
      CollectFirstGrows(v, n - 1, time);
    }
  }

  /**
   What a reader of the replay finds: at the marker of every collection, the last value reported under the name of a
   statistic is that of its last update before, and none if it was never updated.
  */
  lemma ReportedAsUpdated(steps: seq<Step>, start: Time, i: nat, n: nat, name: string, kind: Signature)
    requires ConsiderateRun(steps) && SoundRun(steps) && NoSetTime(After(steps).v.calls)
    requires DefinedAt(steps, i, name, kind) && i < n < |steps| && steps[n].Collects?
    requires EnabledAfter(steps[..n]) && LeaveEnabled(steps[n].actions)
    ensures var outs, k := Replayed(After(steps).d.events, start, After(steps).v.calls), MarkerOf(steps, n);
            && 0 <= k < |outs| && outs[k].name == "perf.statisticsCollected"
            && LastReported(outs[..k], name) == LastUpdate(steps[..n + 1], i + 1, name, kind)
  {
    hide Good, After, LastUpdate, Replayed, LastReported, LastArg, EnabledAfter, LeaveEnabled, ConsiderateStep,
      Sound;
    var some := steps[..n + 1];
    assert forall m | 0 <= m <= n :: some[..m] == steps[..m];
    var j := HasLastUpdate(some, i, name, kind);
    LastCollectionMarks(some);
    LogGrows(steps, n + 1);
    AllRunsAreGood(steps);
    RunIsFaithfulIff(some);
    AllRunsAreGood(some);
    MarkedTable(After(some), j, name, kind, LastUpdate(some, i + 1, name, kind));
    MarkerIsRead(After(steps).d, After(steps).v, start, MarkerOf(steps, n), After(some), j, name);
  }

  lemma LastCollectionMarks(steps: seq<Step>)
    requires |steps| > 0 && var n := |steps| - 1;
             steps[n].Collects? && EnabledAfter(steps[..n]) && LeaveEnabled(steps[n].actions)
    ensures var v := After(steps).v;
            && |v.calls| > 0 && v.calls[|v.calls| - 1].id == EVENT_STATISTICS_COLLECTED
            && |v.calls| - 1 in v.collections && v.collections[|v.calls| - 1] == v.statistics
  {
    hide PerformAll, CollectFirst, LeaveEnabled, EnabledAfter, Collect;
    var before, step := steps[..|steps| - 1], steps[|steps| - 1];
    var s := After(before);
    EnabledAsTold(before);
    LeaveEnabledLeaves(s.d, s.v, step.actions);
    CollectMarks(s.d, s.v, step.time, step.actions, step.now);
  }

  lemma MarkedTable(s: LogState, j: nat, name: string, kind: Signature, value: Option<Arg>)
    requires Good(s.d, s.v) && s.v.faithful && Has(s, j, name, kind, value)
    requires var k := |s.v.calls| - 1; k in s.v.collections && s.v.collections[k] == s.v.statistics
    ensures |s.v.calls| > 0 && LastArg(s.v.calls[..|s.v.calls| - 1], s.v.statistics[j].id) == value
  {
    hide LastArg;
    assert s.v.statistics[j] in s.v.statistics;
    assert Table(s.v.calls[..|s.v.calls| - 1], s.v.statistics);
  }

  /** A longer log is read up to the marker as the shorter one was. */
  lemma MarkerIsRead(d: Definitions, v: View, start: Time, k: int, s: LogState, j: nat, name: string)
    requires Good(d, v) && Good(s.d, s.v) && NoSetTime(v.calls)
    requires s.v.calls <= v.calls && s.d.events <= d.events && k == |s.v.calls| - 1 >= 0
    requires s.v.calls[k].id == EVENT_STATISTICS_COLLECTED
    requires j < |s.v.statistics| && s.v.statistics[j].id < |s.d.events|
    requires s.d.events[s.v.statistics[j].id].name == name
    ensures var outs := Replayed(d.events, start, v.calls);
            && k < |outs| && outs[k].name == "perf.statisticsCollected"
            && LastReported(outs[..k], name) == LastArg(s.v.calls[..k], s.v.statistics[j].id)
  {
    hide Replayed, LastReported, LastArg, Settled, Collected, ValidStatistics;
    ReplayedAt(d.events, start, v.calls, k);
    ReplayedPrefix(d.events, start, v.calls, k);
    NamesAreDistinct(d.events, d.eventsByName);
    assert forall c | c in v.calls[..k] :: c in v.calls;
    assert v.calls[..k] == s.v.calls[..k];
    assert v.calls[k] == s.v.calls[k];
    LastReportedIsLastArg(d.events, start, v.calls[..k], s.v.statistics[j].id);
  }

  /** What is defined: events with new names that can be quoted, as long as identifiers last; one after the other. */
  lemma DefinitionTakes(steps: seq<Step>, name: string, signature: Signature)
    ensures var s, s' := After(steps), After(steps + [DefinesEvent(name, signature)]);
            && s'.v == s.v
            && if '"' !in name && name !in s.d.eventsByName && |s.d.events| < 0x1_0000
               then s'.d == s.d.(events := s.d.events + [Event(name, signature)],
                                 eventsByName := s.d.eventsByName[name := |s.d.events|])
               else s'.d == s.d
  {
    assert (steps + [DefinesEvent(name, signature)])[..|steps|] == steps;
  }

  /** What is recorded: the event with its time and argument, exactly if it is known as such and the log can take it. */
  lemma RecordIsLogged(steps: seq<Step>, name: string, time: Time, arg: Arg)
    ensures var s, s' := After(steps), After(steps + [Does(Record(name, time, arg))]);
            && s'.d == s.d && s'.v.statistics == s.v.statistics
            && var known := name in s.d.eventsByName && s.d.eventsByName[name] < |s.d.events|
                            && Fits(s.d.events[s.d.eventsByName[name]].signature, arg);
            && s'.v.calls == s.v.calls + if EnabledAfter(steps) && known && 6 + |EncodeArg(arg)| <= 8192
                                         then [Call(time, s.d.eventsByName[name], arg)] else []
  {
    hide EncodeArg;
    assert (steps + [Does(Record(name, time, arg))])[..|steps|] == steps;
    EnabledAsTold(steps);
  }

  /** Those of the first `n` statistics that have a value that was never recorded, or is new since. */
  function News(statistics: seq<Statistic>, n: nat, time: Time): seq<Call>
    requires n <= |statistics|
  {
    if n == 0 then []
    else
      var s := statistics[n - 1];
      News(statistics, n - 1, time)
      + if s.initialized && !(s.recorded && s.current == s.last) then [Call(time, s.id, s.current)] else []
  }

  /** What a collection adds to the log after its callbacks: the news as of its start, and the marker. */
  lemma CollectionIsLogged(steps: seq<Step>, time: Time, actions: seq<Action>, now: Time)
    requires EnabledAfter(steps) && LeaveEnabled(actions)
    ensures var s, s' := After(steps), After(steps + [Collects(time, actions, now)]);
            var v1 := PerformAll(s.d, s.v, actions);
            && s'.d == s.d
            && s'.v.calls == v1.calls + News(v1.statistics, |v1.statistics|, time)
                             + [Call(time, EVENT_STATISTICS_COLLECTED, Long(now - time))]
  {
    hide PerformAll, CollectFirst, News, LeaveEnabled, EnabledAfter;
    assert (steps + [Collects(time, actions, now)])[..|steps|] == steps;
    EnabledAsTold(steps);
    var s := After(steps);
    var v1 := PerformAll(s.d, s.v, actions);
    LeaveEnabledLeaves(s.d, s.v, actions);
    CollectFirstLogs(v1, |v1.statistics|, time);
  }

  lemma {:induction false} CollectFirstLogs(v: View, n: nat, time: Time)
    requires n <= |v.statistics| && v.enabled
    ensures CollectFirst(v, n, time).calls == v.calls + News(v.statistics, n, time)
    ensures CollectFirst(v, n, time).enabled
  {
    if n > 0 {
      CollectFirstLogs(v, n - 1, time);
      CollectFirstFaithful(v, n - 1, time);
    }
  }

  /** Every statistic of a run was defined by one of its steps. */
  lemma {:induction false} DefinedSomewhere(steps: seq<Step>, name: string) returns (i: nat, kind: Signature)
    requires name in After(steps).d.statisticsByName
    ensures DefinedAt(steps, i, name, kind)
  {
    hide Perform, Collect, CanDefine;
    var n := |steps| - 1;
    var before := steps[..n];
    if name in After(before).d.statisticsByName {
      i, kind := DefinedSomewhere(before, name);
      assert before[..i] == steps[..i] && before[..i + 1] == steps[..i + 1];
    } else {
      i, kind := n, steps[n].signature;
      assert steps[..n + 1] == steps;
    }
  }

  /** An update under an unknown name, or of another kind, changes nothing at all. */
  lemma OtherUpdatesAreIgnored(steps: seq<Step>, i: nat, name: string, kind: Signature, value: Arg)
    requires name !in After(steps).d.statisticsByName
             || (DefinedAt(steps, i, name, kind) && SignatureFor(value) != kind)
    ensures After(steps + [Does(Update(name, value))]) == After(steps)
  {
    hide Good;
    assert (steps + [Does(Update(name, value))])[..|steps|] == steps;
    if name in After(steps).d.statisticsByName {
      var j := HasLastUpdate(steps, i, name, kind);
    }
  }
}
