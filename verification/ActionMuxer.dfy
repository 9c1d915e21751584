/** Action groups gathered under prefixes, in a tree of muxers where lookups go up and notifications go down. */
module ActionMuxer {
  import opened Options
  import opened ActionNames

  /** What a group says about an action; parameter types and states are just numbered. */
  datatype Info = Info(parameterType: nat, enabled: bool, state: nat)

  datatype Action = Action(name: string, info: Info)

  /** `depth` is bookkeeping of the model: it is smaller for the parent, which says that there are no cycles. */
  datatype Muxer = Muxer(
    parent: Option<nat>, depth: nat, groups: map<string, seq<Action>>, accels: map<string, string>)

  /**
   An observer of one action: `view` is what the notifications told it about the action, and `accelNotices`
   how often it was told that the accelerator changed.
  */
  datatype Observer = Observer(muxer: nat, name: string, view: Option<Info>, accelNotices: nat)

  /** `accelSignals` counts how often each muxer announced a change of an accelerator. */
  datatype State = State(muxers: seq<Muxer>, observers: seq<Observer>, accelSignals: seq<nat>)

  // ---------------------------------------------------------------- looking up

  function Depth(muxers: seq<Muxer>, m: nat): nat {
    if m < |muxers| then muxers[m].depth else 0
  }

  /** Every parent is there, and no muxer is its own ancestor. */
  predicate Forest(muxers: seq<Muxer>) {
    forall i | 0 <= i < |muxers| && muxers[i].parent.Some? ::
      muxers[i].parent.value < |muxers| && Depth(muxers, muxers[i].parent.value) < muxers[i].depth
  }

  /** The parent. */
  function Up(muxers: seq<Muxer>, m: nat): (p: Option<nat>)
    ensures p.Some? ==> m < |muxers| && p.value < |muxers| && Depth(muxers, p.value) < Depth(muxers, m)
    ensures Forest(muxers) && m < |muxers| ==> p == muxers[m].parent
  {
    if m < |muxers| && muxers[m].parent.Some? then
      var p := muxers[m].parent.value;
      if p < |muxers| && muxers[p].depth < muxers[m].depth then Some(p) else None
    else None
  }

  function QueryGroup(actions: seq<Action>, name: string): Option<Info> {
    if actions == [] then None
    else if actions[0].name == name then Some(actions[0].info)
    else QueryGroup(actions[1..], name)
  }

  /** The group and the name in it, if the muxer itself has a group for this full name. */
  function FindGroup(muxer: Muxer, full: string): Option<(string, string)> {
    var split := Split(full);
    if split.Some? && split.value.0 in muxer.groups then split else None
  }

  function Query(muxers: seq<Muxer>, m: nat, full: string): Option<Info>
    decreases Depth(muxers, m)
  {
    if m >= |muxers| then None
    else
      var found := FindGroup(muxers[m], full);
      if found.Some? then QueryGroup(muxers[m].groups[found.value.0], found.value.1)
      else
        var up := Up(muxers, m);
        if up.Some? then Query(muxers, up.value, full) else None
  }

  /** Listed here or further up. */
  predicate IsListed(muxers: seq<Muxer>, m: nat, full: string)
    decreases Depth(muxers, m)
  {
    m < |muxers|
    && ((exists prefix | prefix in muxers[m].groups ::
           exists i | 0 <= i < |muxers[m].groups[prefix]| :: full == FullName(prefix, muxers[m].groups[prefix][i].name))
        || (Up(muxers, m).Some? && IsListed(muxers, Up(muxers, m).value, full)))
  }

  function GetPrimaryAccel(muxers: seq<Muxer>, m: nat, actionAndTarget: string): Option<string>
    decreases Depth(muxers, m)
  {
    if m >= |muxers| then None
    else if actionAndTarget in muxers[m].accels then Some(muxers[m].accels[actionAndTarget])
    else
      var up := Up(muxers, m);
      if up.Some? then GetPrimaryAccel(muxers, up.value, actionAndTarget) else None
  }

  // ---------------------------------------------------------------- the tree

  /** No muxer lies deeper. */
  function Bound(muxers: seq<Muxer>): (b: nat)
    ensures forall m: nat :: Depth(muxers, m) <= b
  {
    if muxers == [] then 0
    else
      var rest, last := muxers[..|muxers| - 1], muxers[|muxers| - 1].depth;
      var b := Bound(rest);
      assert forall m: nat | m < |rest| :: Depth(muxers, m) == Depth(rest, m);
      if last > b then last else b
  }

  /** `m` is `d` or one of its ancestors. */
  predicate Reaches(muxers: seq<Muxer>, d: nat, m: nat)
    decreases Depth(muxers, d)
  {
    d == m || (Up(muxers, d).Some? && Reaches(muxers, Up(muxers, d).value, m))
  }

  /** The child of `m` through which `d` reaches it. */
  function Through(muxers: seq<Muxer>, d: nat, m: nat): nat
    requires Reaches(muxers, d, m) && d != m
    decreases Depth(muxers, d)
  {
    var up := Up(muxers, d).value;
    if up == m then d else Through(muxers, up, m)
  }

  lemma {:induction false} ReachesIsUpwards(muxers: seq<Muxer>, d: nat, m: nat)
    requires Reaches(muxers, d, m)
    ensures m != d ==> m < |muxers| && d < |muxers| && Depth(muxers, m) < Depth(muxers, d)
    decreases Depth(muxers, d)
  {
    if d != m {
      ReachesIsUpwards(muxers, Up(muxers, d).value, m);
    }
  }

  /** Below a child is what reaches the parent through it. */
  lemma {:induction false} ReachesThrough(muxers: seq<Muxer>, d: nat, c: nat, m: nat)
    requires Up(muxers, c) == Some(m)
    ensures Reaches(muxers, d, c) <==> Reaches(muxers, d, m) && d != m && Through(muxers, d, m) == c
    decreases Depth(muxers, d)
  {
    if d == c {
      assert Reaches(muxers, m, m);
    } else if d == m {
      if Reaches(muxers, d, c) {
        ReachesIsUpwards(muxers, d, c);
      }
    } else if Up(muxers, d).Some? {
      ReachesThrough(muxers, Up(muxers, d).value, c, m);
    }
  }

  lemma {:induction false} ThroughIsChild(muxers: seq<Muxer>, d: nat, m: nat)
    requires Reaches(muxers, d, m) && d != m
    ensures Up(muxers, Through(muxers, d, m)) == Some(m) && Through(muxers, d, m) < |muxers|
    decreases Depth(muxers, d)
  {
    if Up(muxers, d).value != m {
      ThroughIsChild(muxers, Up(muxers, d).value, m);
    }
  }

  // ---------------------------------------------------------------- notifications

  datatype Notice = Added(info: Info) | Removed | EnabledChanged(enabled: bool) | StateChanged(state: nat)

  function Fold(view: Option<Info>, notice: Notice): Option<Info> {
    match notice
    case Added(info) => Some(info)
    case Removed => None
    case EnabledChanged(enabled) => if view.Some? then Some(view.value.(enabled := enabled)) else None
    case StateChanged(state) => if view.Some? then Some(view.value.(state := state)) else None
  }

  /**
   What the observers of an action at `d` get to see of a notice that starts at `m`. That an action was added
   is passed on by asking the parent for it; if the parent does not have it, observers hear nothing.
  */
  function Arriving(muxers: seq<Muxer>, d: nat, m: nat, full: string, notice: Notice): Option<Notice> {
    if d == m || !notice.Added? then Some(notice)
    else if Up(muxers, d) == None then None
    else
      var info := Query(muxers, Up(muxers, d).value, full);
      if info.Some? then Some(Added(info.value)) else None
  }

  /** What an observer knows after hearing that its action is there now. */
  function Asking(muxers: seq<Muxer>, o: Observer): Option<Info> {
    var asked := if Up(muxers, o.muxer).Some? then Query(muxers, Up(muxers, o.muxer).value, o.name) else None;
    if asked.Some? then asked else o.view
  }

  function Told(muxers: seq<Muxer>, o: Observer, m: nat, full: string, notice: Notice): Observer {
    if o.name == full && Reaches(muxers, o.muxer, m) then
      var arriving := Arriving(muxers, o.muxer, m, full, notice);
      if arriving.Some? then o.(view := Fold(o.view, arriving.value)) else o
    else o
  }

  /** A notice that starts at `m` reaches everything below, once. */
  function Notified(s: State, m: nat, full: string, notice: Notice): State {
    s.(observers := seq(|s.observers|, k requires 0 <= k < |s.observers| =>
         Told(s.muxers, s.observers[k], m, full, notice)))
  }

  // ---------------------------------------------------------------- the operations

  function WithGroups(muxers: seq<Muxer>, m: nat, groups: map<string, seq<Action>>): seq<Muxer>
    requires m < |muxers|
  {
    muxers[m := muxers[m].(groups := groups)]
  }

  /** One notice for each of some actions of a group whose actions are `all`. */
  function NotifiedOfEach(s: State, m: nat, prefix: string, actions: seq<Action>, all: Option<seq<Action>>): State {
    if actions == [] then s
    else
      var name := actions[|actions| - 1].name;
      Notified(NotifiedOfEach(s, m, prefix, actions[..|actions| - 1], all), m, FullName(prefix, name),
               NoticeOf(all, name))
  }

  /** That an action is there, or is not there any more. */
  function NoticeOf(all: Option<seq<Action>>, name: string): Notice {
    if all.Some? && QueryGroup(all.value, name).Some? then Added(QueryGroup(all.value, name).value) else Removed
  }

  function RemovedGroup(s: State, m: nat, prefix: string): State
    requires m < |s.muxers|
  {
    var groups := s.muxers[m].groups;
    if prefix !in groups then s
    else NotifiedOfEach(s.(muxers := WithGroups(s.muxers, m, groups - {prefix})), m, prefix, groups[prefix], None)
  }

  function InsertedGroup(s: State, m: nat, prefix: string, actions: seq<Action>): (s': State)
    requires m < |s.muxers|
  {
    var s1 := RemovedGroup(s, m, prefix);
    KeepsMuxers(s, m, prefix);
    NotifiedOfEach(s1.(muxers := WithGroups(s1.muxers, m, s1.muxers[m].groups[prefix := actions])), m, prefix, actions,
                   Some(actions))
  }

  lemma KeepsMuxers(s: State, m: nat, prefix: string)
    requires m < |s.muxers|
    ensures RemovedGroup(s, m, prefix).muxers == WithGroups(s.muxers, m, s.muxers[m].groups - {prefix})
    ensures RemovedGroup(s, m, prefix).accelSignals == s.accelSignals
  {
    var groups := s.muxers[m].groups;
    if prefix in groups {
      EachKeepsMuxers(s.(muxers := WithGroups(s.muxers, m, groups - {prefix})), m, prefix, groups[prefix], None);
    } else {
      assert groups - {prefix} == groups;
    }
  }

  lemma {:induction false} EachKeepsMuxers(
    s: State, m: nat, prefix: string, actions: seq<Action>, all: Option<seq<Action>>)
    ensures var s' := NotifiedOfEach(s, m, prefix, actions, all);
            && s'.muxers == s.muxers && s'.accelSignals == s.accelSignals && |s'.observers| == |s.observers|
            && forall k | 0 <= k < |s.observers| ::
                 s'.observers[k].(view := None) == s.observers[k].(view := None)
  {
    if actions != [] {
      EachKeepsMuxers(s, m, prefix, actions[..|actions| - 1], all);
    }
  }

  /** What happens inside a group that was inserted. */
  datatype Change =
    | Adds(action: Action)
    | Removes(name: string)
    | Enables(name: string, enabled: bool)
    | Sets(name: string, state: nat)

  function NameOf(change: Change): string {
    match change
    case Adds(action) => action.name
    case Removes(name) => name
    case Enables(name, _) => name
    case Sets(name, _) => name
  }

  function NoticeFor(change: Change): Notice {
    match change
    case Adds(action) => Added(action.info)
    case Removes(_) => Removed
    case Enables(_, enabled) => EnabledChanged(enabled)
    case Sets(_, state) => StateChanged(state)
  }

  /** The group after the change; an action is only added when there is none of that name. */
  function Changed(actions: seq<Action>, change: Change): seq<Action> {
    if actions == [] then (if change.Adds? then [change.action] else [])
    else if actions[0].name != NameOf(change) then [actions[0]] + Changed(actions[1..], change)
    else
      var first := actions[0];
      match change
      case Adds(_) => actions
      case Removes(_) => Changed(actions[1..], change)
      case Enables(_, enabled) => [Action(first.name, first.info.(enabled := enabled))] + actions[1..]
      case Sets(_, state) => [Action(first.name, first.info.(state := state))] + actions[1..]
  }

  function ChangedGroup(s: State, m: nat, prefix: string, change: Change): State
    requires m < |s.muxers| && prefix in s.muxers[m].groups
  {
    var groups := s.muxers[m].groups;
    Notified(s.(muxers := WithGroups(s.muxers, m, groups[prefix := Changed(groups[prefix], change)])),
             m, FullName(prefix, NameOf(change)), NoticeFor(change))
  }

  lemma {:induction false} ChangedQuery(actions: seq<Action>, change: Change, name: string)
    requires change.Adds? ==> QueryGroup(actions, change.action.name) == None
    ensures QueryGroup(Changed(actions, change), name)
            == if name == NameOf(change) then Fold(QueryGroup(actions, name), NoticeFor(change))
               else QueryGroup(actions, name)
  {
    if actions != [] {
      if !change.Adds? || actions[0].name != change.action.name {
        ChangedQuery(actions[1..], change, name);
      }
    }
  }

  // ---------------------------------------------------------------- where a prefix is used

  /** Between `d` and `m`, no muxer but `m` has a group with this prefix. */
  predicate Clear(muxers: seq<Muxer>, d: nat, m: nat, prefix: string)
    decreases Depth(muxers, d)
  {
    d == m || (d < |muxers| && prefix !in muxers[d].groups
               && Up(muxers, d).Some? && Clear(muxers, Up(muxers, d).value, m, prefix))
  }

  /** No muxer from `d` upwards has a group with this prefix. */
  predicate Absent(muxers: seq<Muxer>, d: nat, prefix: string)
    decreases Depth(muxers, d)
  {
    d < |muxers| ==>
      prefix !in muxers[d].groups && (Up(muxers, d).Some? ==> Absent(muxers, Up(muxers, d).value, prefix))
  }

  /** The prefix is used neither above nor below `m`. */
  ghost predicate Alone(muxers: seq<Muxer>, m: nat, prefix: string) {
    && m < |muxers| && '.' !in prefix
    && (forall d: nat | Reaches(muxers, d, m) :: Clear(muxers, d, m, prefix))
    && (Up(muxers, m).Some? ==> Absent(muxers, Up(muxers, m).value, prefix))
  }

  lemma {:induction false} QueryFromBelow(muxers: seq<Muxer>, d: nat, m: nat, full: string)
    requires m < |muxers| && Split(full).Some? && Clear(muxers, d, m, Split(full).value.0)
    ensures Query(muxers, d, full) == Query(muxers, m, full)
    decreases Depth(muxers, d)
  {
    hide Split;
    if d != m {
      QueryFromBelow(muxers, Up(muxers, d).value, m, full);
    }
  }

  lemma {:induction false} QueryOfAbsent(muxers: seq<Muxer>, d: nat, full: string)
    requires Split(full).Some? && Absent(muxers, d, Split(full).value.0)
    ensures Query(muxers, d, full) == None
    decreases Depth(muxers, d)
  {
    hide Split;
    if d < |muxers| && Up(muxers, d).Some? {
      QueryOfAbsent(muxers, Up(muxers, d).value, full);
    }
  }

  predicate SameLinks(muxer: Muxer, muxer': Muxer) {
    muxer'.parent == muxer.parent && muxer'.depth == muxer.depth
  }

  /** The tree of muxers stays, and all groups except one of `m`. */
  ghost predicate SameBut(muxers: seq<Muxer>, muxers': seq<Muxer>, m: nat, prefix: string) {
    && |muxers'| == |muxers|
    && (forall i | 0 <= i < |muxers| :: SameLinks(muxers[i], muxers'[i]))
    && (forall i | 0 <= i < |muxers| && i != m :: muxers'[i].groups == muxers[i].groups)
    && (m < |muxers| ==> muxers'[m].groups - {prefix} == muxers[m].groups - {prefix})
  }

  lemma {:induction false} SameTree(muxers: seq<Muxer>, muxers': seq<Muxer>, d: nat, m: nat, prefix: string)
    requires SameBut(muxers, muxers', m, prefix)
    ensures Reaches(muxers', d, m) <==> Reaches(muxers, d, m)
    ensures Clear(muxers', d, m, prefix) <==> Clear(muxers, d, m, prefix)
    decreases Depth(muxers, d)
  {
    if d != m {
      assert Up(muxers', d) == Up(muxers, d);
      if Up(muxers, d).Some? {
        SameTree(muxers, muxers', Up(muxers, d).value, m, prefix);
      }
    }
  }

  lemma {:induction false} AbsentAbove(muxers: seq<Muxer>, muxers': seq<Muxer>, d: nat, m: nat, prefix: string)
    requires SameBut(muxers, muxers', m, prefix) && Depth(muxers, d) < Depth(muxers, m)
    ensures Absent(muxers', d, prefix) <==> Absent(muxers, d, prefix)
    decreases Depth(muxers, d)
  {
    assert Up(muxers', d) == Up(muxers, d);
    if Up(muxers, d).Some? {
      AbsentAbove(muxers, muxers', Up(muxers, d).value, m, prefix);
    }
  }

  lemma AloneStays(muxers: seq<Muxer>, muxers': seq<Muxer>, m: nat, prefix: string)
    requires SameBut(muxers, muxers', m, prefix) && Alone(muxers, m, prefix)
    ensures Alone(muxers', m, prefix)
  {
    hide Clear, Absent, Reaches;
    forall d: nat | Reaches(muxers', d, m) ensures Clear(muxers', d, m, prefix) {
      SameTree(muxers, muxers', d, m, prefix);
    }
    assert Up(muxers', m) == Up(muxers, m);
    if Up(muxers, m).Some? {
      AbsentAbove(muxers, muxers', Up(muxers, m).value, m, prefix);
    }
  }

  /** What the group of a muxer says, if it has one. */
  function Here(muxers: seq<Muxer>, m: nat, prefix: string, name: string): Option<Info>
    requires m < |muxers|
  {
    if prefix in muxers[m].groups then QueryGroup(muxers[m].groups[prefix], name) else None
  }

  /** From everywhere below, a name with a prefix that is used nowhere else means the action in that group. */
  lemma QueryHere(muxers: seq<Muxer>, d: nat, m: nat, prefix: string, name: string, full: string)
    requires Alone(muxers, m, prefix) && Reaches(muxers, d, m) && Split(full) == Some((prefix, name))
    ensures Query(muxers, d, full) == Here(muxers, m, prefix, name)
  {
    hide Clear, Absent, Split;
    QueryFromBelow(muxers, d, m, full);
    if Up(muxers, m).Some? {
      QueryOfAbsent(muxers, Up(muxers, m).value, full);
    }
  }

  lemma {:induction false} QueryElsewhere(
    muxers: seq<Muxer>, muxers': seq<Muxer>, d: nat, m: nat, prefix: string, full: string)
    requires SameBut(muxers, muxers', m, prefix)
    requires Reaches(muxers, d, m) && Split(full).Some? ==> Split(full).value.0 != prefix
    ensures Query(muxers', d, full) == Query(muxers, d, full)
    decreases Depth(muxers, d)
  {
    hide Split, QueryGroup;
    if d < |muxers| {
      assert Up(muxers', d) == Up(muxers, d);
      if d == m && Split(full).Some? {
        var p := Split(full).value.0;
        assert p in muxers[m].groups <==> p in muxers[m].groups - {prefix};
        assert p in muxers'[m].groups <==> p in muxers'[m].groups - {prefix};
        assert p in muxers[m].groups ==> muxers[m].groups[p] == (muxers[m].groups - {prefix})[p];
        assert p in muxers'[m].groups ==> muxers'[m].groups[p] == (muxers'[m].groups - {prefix})[p];
      }
      if Up(muxers, d).Some? {
        QueryElsewhere(muxers, muxers', Up(muxers, d).value, m, prefix, full);
      }
    }
  }

  /** Where the prefix is used nowhere else, every observer hears exactly what the group said. */
  lemma ArrivesAsSent(muxers: seq<Muxer>, d: nat, m: nat, prefix: string, name: string, notice: Notice)
    requires Alone(muxers, m, prefix) && Reaches(muxers, d, m)
    requires notice.Added? ==> Here(muxers, m, prefix, name) == Some(notice.info)
    ensures Arriving(muxers, d, m, FullName(prefix, name), notice) == Some(notice)
  {
    hide Clear, Absent, Split;
    if d != m && notice.Added? {
      SplitIsFullName(FullName(prefix, name), prefix, name);
      QueryHere(muxers, Up(muxers, d).value, m, prefix, name, FullName(prefix, name));
    }
  }

  // ---------------------------------------------------------------- observers and queries

  ghost predicate Agrees(muxers: seq<Muxer>, o: Observer) {
    o.view == Query(muxers, o.muxer, o.name)
  }

  /** Every observer has been told just what a query would answer. */
  ghost predicate Agree(s: State) {
    forall k | 0 <= k < |s.observers| :: Agrees(s.muxers, s.observers[k])
  }

  lemma ChangeKeepsAgreement(s: State, m: nat, prefix: string, change: Change)
    requires Agree(s) && Alone(s.muxers, m, prefix) && prefix in s.muxers[m].groups
    requires change.Adds? ==> QueryGroup(s.muxers[m].groups[prefix], change.action.name) == None
    ensures Agree(ChangedGroup(s, m, prefix, change))
  {
    hide Clear, Absent, QueryGroup, Split, FullName, Changed, Reaches, Query;
    var actions := s.muxers[m].groups[prefix];
    var muxers' := WithGroups(s.muxers, m, s.muxers[m].groups[prefix := Changed(actions, change)]);
    var full, notice := FullName(prefix, NameOf(change)), NoticeFor(change);
    ChangedQuery(actions, change, NameOf(change));
    AloneStays(s.muxers, muxers', m, prefix);
    forall k | 0 <= k < |s.observers| ensures Agrees(muxers', Told(muxers', s.observers[k], m, full, notice)) {
      ToldOfChange(s.muxers, muxers', s.observers[k], m, prefix, change);
    }
  }

  lemma ToldOfChange(muxers: seq<Muxer>, muxers': seq<Muxer>, o: Observer, m: nat, prefix: string, change: Change)
    requires Alone(muxers, m, prefix) && Alone(muxers', m, prefix) && SameBut(muxers, muxers', m, prefix)
    requires prefix in muxers[m].groups && prefix in muxers'[m].groups
    requires muxers'[m].groups[prefix] == Changed(muxers[m].groups[prefix], change)
    requires change.Adds? ==> QueryGroup(muxers[m].groups[prefix], change.action.name) == None
    requires Agrees(muxers, o)
    ensures Agrees(muxers', Told(muxers', o, m, FullName(prefix, NameOf(change)), NoticeFor(change)))
  {
    hide QueryGroup, Split, FullName, Changed, Reaches, Query, Clear, Absent;
    var full, notice := FullName(prefix, NameOf(change)), NoticeFor(change);
    var actions := muxers[m].groups[prefix];
    SplitIsFullName(full, prefix, NameOf(change));
    SameTree(muxers, muxers', o.muxer, m, prefix);
    if Reaches(muxers, o.muxer, m) && Split(o.name).Some? && Split(o.name).value.0 == prefix {
      var name := Split(o.name).value.1;
      SplitIsFullName(o.name, prefix, name);
      QueryHere(muxers, o.muxer, m, prefix, name, o.name);
      QueryHere(muxers', o.muxer, m, prefix, name, o.name);
      ChangedQuery(actions, change, name);
      if name == NameOf(change) {
        ArrivesAsSent(muxers', o.muxer, m, prefix, name, notice);
      }
    } else {
      QueryElsewhere(muxers, muxers', o.muxer, m, prefix, o.name);
    }
  }

  lemma {:induction false} QueryGroupAppend(actions: seq<Action>, action: Action, name: string)
    ensures QueryGroup(actions + [action], name)
            == if QueryGroup(actions, name).Some? then QueryGroup(actions, name)
               else if action.name == name then Some(action.info) else None
  {
    if actions != [] {
      assert (actions + [action])[1..] == actions[1..] + [action];
      QueryGroupAppend(actions[1..], action, name);
    }
  }

  /** After notices about some actions of a group, observers of those know them; for others nothing changes. */
  lemma {:induction false} EachTells(
    s: State, m: nat, prefix: string, actions: seq<Action>, all: Option<seq<Action>>, k: nat)
    requires Alone(s.muxers, m, prefix) && k < |s.observers|
    requires all == if prefix in s.muxers[m].groups then Some(s.muxers[m].groups[prefix]) else None
    ensures var s', o := NotifiedOfEach(s, m, prefix, actions, all), s.observers[k];
            && |s'.observers| == |s.observers| && s'.muxers == s.muxers
            && s'.observers[k].muxer == o.muxer && s'.observers[k].name == o.name
            && s'.observers[k].view
               == if Reaches(s.muxers, o.muxer, m) && Split(o.name).Some? && Split(o.name).value.0 == prefix
                     && QueryGroup(actions, Split(o.name).value.1).Some?
                  then Here(s.muxers, m, prefix, Split(o.name).value.1) else o.view
  {
    hide Alone, Split, FullName, Reaches, Query;
    EachKeepsMuxers(s, m, prefix, actions, all);
    if actions != [] {
      var n := |actions| - 1;
      EachTells(s, m, prefix, actions[..n], all, k);
      EachKeepsMuxers(s, m, prefix, actions[..n], all);
      assert actions == actions[..n] + [actions[n]];
      var o := NotifiedOfEach(s, m, prefix, actions[..n], all).observers[k];
      ToldOfOne(s.muxers, o, m, prefix, actions[n].name, all);
      if Split(o.name).Some? {
        QueryGroupAppend(actions[..n], actions[n], Split(o.name).value.1);
      }
    }
  }

  lemma ToldOfOne(muxers: seq<Muxer>, o: Observer, m: nat, prefix: string, name: string, all: Option<seq<Action>>)
    requires Alone(muxers, m, prefix)
    requires all == if prefix in muxers[m].groups then Some(muxers[m].groups[prefix]) else None
    ensures Told(muxers, o, m, FullName(prefix, name), NoticeOf(all, name)).view
            == if Reaches(muxers, o.muxer, m) && Split(o.name) == Some((prefix, name))
               then Here(muxers, m, prefix, name) else o.view
  {
    hide Clear, Absent, Split, FullName, Reaches, Query, QueryGroup;
    SplitIsFullName(o.name, prefix, name);
    if Reaches(muxers, o.muxer, m) && Split(o.name) == Some((prefix, name)) {
      ArrivesAsSent(muxers, o.muxer, m, prefix, name, NoticeOf(all, name));
    }
  }

  /** Putting another group, or none, in the place of a group, and telling of every action for which that matters. */
  lemma SwapKeepsAgreement(s: State, s1: State, m: nat, prefix: string, actions: seq<Action>)
    requires Agree(s) && Alone(s.muxers, m, prefix)
    requires s1 == s.(muxers := s1.muxers) && SameBut(s.muxers, s1.muxers, m, prefix) && m < |s1.muxers|
    requires forall name :: QueryGroup(actions, name).Some?
                            || Here(s.muxers, m, prefix, name) == Here(s1.muxers, m, prefix, name)
    ensures var all := if prefix in s1.muxers[m].groups then Some(s1.muxers[m].groups[prefix]) else None;
            Agree(NotifiedOfEach(s1, m, prefix, actions, all))
  {
    hide Clear, Absent, QueryGroup, Split, Reaches, Query, Here, NotifiedOfEach;
    AloneStays(s.muxers, s1.muxers, m, prefix);
    var all := if prefix in s1.muxers[m].groups then Some(s1.muxers[m].groups[prefix]) else None;
    var s' := NotifiedOfEach(s1, m, prefix, actions, all);
    EachKeepsMuxers(s1, m, prefix, actions, all);
    forall k | 0 <= k < |s.observers| ensures Agrees(s1.muxers, s'.observers[k]) {
      var o := s.observers[k];
      assert Agrees(s.muxers, o);
      EachTells(s1, m, prefix, actions, all, k);
      SameTree(s.muxers, s1.muxers, o.muxer, m, prefix);
      if Reaches(s.muxers, o.muxer, m) && Split(o.name).Some? && Split(o.name).value.0 == prefix {
        var name := Split(o.name).value.1;
        QueryHere(s.muxers, o.muxer, m, prefix, name, o.name);
        QueryHere(s1.muxers, o.muxer, m, prefix, name, o.name);
      } else {
        QueryElsewhere(s.muxers, s1.muxers, o.muxer, m, prefix, o.name);
      }
    }
  }

  lemma RemoveKeepsAgreement(s: State, m: nat, prefix: string)
    requires Agree(s) && Alone(s.muxers, m, prefix)
    ensures Agree(RemovedGroup(s, m, prefix))
  {
    hide Clear, Absent, QueryGroup, Agree;
    var groups := s.muxers[m].groups;
    if prefix in groups {
      var s1 := s.(muxers := WithGroups(s.muxers, m, groups - {prefix}));
      assert groups - {prefix} - {prefix} == groups - {prefix};
      SwapKeepsAgreement(s, s1, m, prefix, groups[prefix]);
    }
  }

  lemma InsertKeepsAgreement(s: State, m: nat, prefix: string, actions: seq<Action>)
    requires Agree(s) && Alone(s.muxers, m, prefix)
    ensures Agree(InsertedGroup(s, m, prefix, actions))
  {
    hide Clear, Absent, QueryGroup, Agree, RemovedGroup;
    var groups := s.muxers[m].groups;
    var s1 := RemovedGroup(s, m, prefix);
    RemoveKeepsAgreement(s, m, prefix);
    KeepsMuxers(s, m, prefix);
    assert groups - {prefix} - {prefix} == groups - {prefix};
    AloneStays(s.muxers, s1.muxers, m, prefix);
    var s2 := s1.(muxers := WithGroups(s1.muxers, m, s1.muxers[m].groups[prefix := actions]));
    assert s2.muxers[m].groups - {prefix} == s1.muxers[m].groups - {prefix};
    SwapKeepsAgreement(s1, s2, m, prefix, actions);
  }

  // ---------------------------------------------------------------- disjoint prefixes

  /** Along every chain of parents, a prefix is used at most once; prefixes hold no dots. */
  ghost predicate Disjoint(muxers: seq<Muxer>) {
    && (forall m, prefix | 0 <= m < |muxers| && prefix in muxers[m].groups :: '.' !in prefix)
    && (forall d: nat, m: nat, prefix | Reaches(muxers, d, m) && d != m && m < |muxers| && prefix in muxers[m].groups ::
          d < |muxers| && prefix !in muxers[d].groups)
  }

  lemma {:induction false} DisjointIsClear(muxers: seq<Muxer>, d: nat, m: nat, prefix: string)
    requires Disjoint(muxers) && m < |muxers| && prefix in muxers[m].groups && Reaches(muxers, d, m)
    ensures Clear(muxers, d, m, prefix)
    decreases Depth(muxers, d)
  {
    if d != m {
      DisjointIsClear(muxers, Up(muxers, d).value, m, prefix);
    }
  }

  lemma {:induction false} DisjointIsAbsent(muxers: seq<Muxer>, d: nat, m: nat, prefix: string)
    requires Disjoint(muxers) && m < |muxers| && prefix in muxers[m].groups && Reaches(muxers, m, d) && d != m
    ensures Absent(muxers, d, prefix)
    decreases Depth(muxers, d)
  {
    ReachesIsUpwards(muxers, m, d);
    if Up(muxers, d).Some? {
      ReachesFurther(muxers, m, d);
      DisjointIsAbsent(muxers, Up(muxers, d).value, m, prefix);
    }
  }

  lemma {:induction false} ReachesFurther(muxers: seq<Muxer>, d: nat, m: nat)
    requires Reaches(muxers, d, m) && Up(muxers, m).Some?
    ensures Reaches(muxers, d, Up(muxers, m).value)
    decreases Depth(muxers, d)
  {
    var a := Up(muxers, m).value;
    if d == m {
      assert Reaches(muxers, a, a);
    } else {
      ReachesFurther(muxers, Up(muxers, d).value, m);
    }
  }

  lemma DisjointIsAlone(muxers: seq<Muxer>, m: nat, prefix: string)
    requires Disjoint(muxers) && m < |muxers| && prefix in muxers[m].groups
    ensures Alone(muxers, m, prefix)
  {
    hide Clear, Absent, Reaches;
    forall d: nat | Reaches(muxers, d, m) ensures Clear(muxers, d, m, prefix) {
      DisjointIsClear(muxers, d, m, prefix);
    }
    if Up(muxers, m).Some? {
      ReachesUp(muxers, m);
      DisjointIsAbsent(muxers, Up(muxers, m).value, m, prefix);
    }
  }

  lemma ReachesUp(muxers: seq<Muxer>, m: nat)
    requires Up(muxers, m).Some?
    ensures Reaches(muxers, m, Up(muxers, m).value)
  {
    assert Reaches(muxers, Up(muxers, m).value, Up(muxers, m).value);
  }

  lemma {:induction false} AbsentIsAbsent(muxers: seq<Muxer>, d: nat, a: nat, prefix: string)
    requires Absent(muxers, d, prefix) && Reaches(muxers, d, a) && d < |muxers|
    ensures a < |muxers| && prefix !in muxers[a].groups
    decreases Depth(muxers, d)
  {
    if d != a {
      AbsentIsAbsent(muxers, Up(muxers, d).value, a, prefix);
    }
  }

  /** Changing the group under a prefix that is used nowhere else leaves prefixes disjoint. */
  lemma DisjointStays(muxers: seq<Muxer>, muxers': seq<Muxer>, m: nat, prefix: string)
    requires Disjoint(muxers) && Alone(muxers, m, prefix) && SameBut(muxers, muxers', m, prefix)
    ensures Disjoint(muxers')
  {
    hide Clear, Absent, Reaches;
    forall p | p != prefix ensures p in muxers'[m].groups <==> p in muxers[m].groups {
      assert p in muxers[m].groups <==> p in muxers[m].groups - {prefix};
      assert p in muxers'[m].groups <==> p in muxers'[m].groups - {prefix};
    }
    forall d: nat, a: nat, p | Reaches(muxers', d, a) && d != a && a < |muxers'| && p in muxers'[a].groups
      ensures d < |muxers'| && p !in muxers'[d].groups
    {
      SameReach(muxers, muxers', d, a, m, prefix);
      ReachesIsUpwards(muxers, d, a);
      if p == prefix {
        if a == m {
          ClearIsOther(muxers, d, m, prefix);
        } else if d == m {
          AloneIsAbove(muxers, m, a, prefix);
        }
      }
    }
  }

  lemma {:induction false} SameReach(muxers: seq<Muxer>, muxers': seq<Muxer>, d: nat, a: nat, m: nat, prefix: string)
    requires SameBut(muxers, muxers', m, prefix)
    ensures Reaches(muxers', d, a) <==> Reaches(muxers, d, a)
    decreases Depth(muxers, d)
  {
    if d != a {
      assert Up(muxers', d) == Up(muxers, d);
      if Up(muxers, d).Some? {
        SameReach(muxers, muxers', Up(muxers, d).value, a, m, prefix);
      }
    }
  }

  lemma ClearIsOther(muxers: seq<Muxer>, d: nat, m: nat, prefix: string)
    requires Alone(muxers, m, prefix) && Reaches(muxers, d, m) && d != m && d < |muxers|
    ensures prefix !in muxers[d].groups
  {
    assert Clear(muxers, d, m, prefix);
  }

  lemma AloneIsAbove(muxers: seq<Muxer>, m: nat, a: nat, prefix: string)
    requires Alone(muxers, m, prefix) && Reaches(muxers, m, a) && a != m
    ensures a < |muxers| && prefix !in muxers[a].groups
  {
    AbsentIsAbsent(muxers, Up(muxers, m).value, a, prefix);
  }

  // ---------------------------------------------------------------- listing

  /** Whatever a query finds is listed. */
  lemma {:induction false} QueriedIsListed(muxers: seq<Muxer>, m: nat, full: string)
    requires Query(muxers, m, full).Some?
    ensures IsListed(muxers, m, full)
    decreases Depth(muxers, m)
  {
    hide QueryGroup, Split;
    var found := FindGroup(muxers[m], full);
    if found.Some? {
      var (prefix, name) := found.value;
      var i := QueriedIsThere(muxers[m].groups[prefix], name);
      SplitIsFullName(full, prefix, name);
    } else {
      QueriedIsListed(muxers, Up(muxers, m).value, full);
    }
  }

  lemma {:induction false} QueriedIsThere(actions: seq<Action>, name: string) returns (i: nat)
    requires QueryGroup(actions, name).Some?
    ensures i < |actions| && actions[i].name == name
  {
    if actions[0].name == name {
      i := 0;
    } else {
      i := QueriedIsThere(actions[1..], name);
      i := i + 1;
    }
  }

  lemma {:induction false} ThereIsQueried(actions: seq<Action>, i: nat)
    requires i < |actions|
    ensures QueryGroup(actions, actions[i].name).Some?
  {
    if i > 0 {
      ThereIsQueried(actions[1..], i - 1);
    }
  }

  lemma {:induction false} ListedIsSomewhere(muxers: seq<Muxer>, d: nat, full: string)
    returns (m: nat, prefix: string, i: nat)
    requires IsListed(muxers, d, full)
    ensures m < |muxers| && Reaches(muxers, d, m) && prefix in muxers[m].groups
    ensures i < |muxers[m].groups[prefix]| && full == FullName(prefix, muxers[m].groups[prefix][i].name)
    decreases Depth(muxers, d)
  {
    if Up(muxers, d).Some? && IsListed(muxers, Up(muxers, d).value, full) {
      m, prefix, i := ListedIsSomewhere(muxers, Up(muxers, d).value, full);
    } else {
      m := d;
      prefix :| prefix in muxers[m].groups
        && exists i | 0 <= i < |muxers[m].groups[prefix]| :: full == FullName(prefix, muxers[m].groups[prefix][i].name);
      i :| 0 <= i < |muxers[m].groups[prefix]| && full == FullName(prefix, muxers[m].groups[prefix][i].name);
    }
  }

  /** With disjoint prefixes, exactly what is listed can be queried. */
  lemma ListedIsQueried(muxers: seq<Muxer>, d: nat, full: string)
    requires Disjoint(muxers)
    ensures IsListed(muxers, d, full) <==> Query(muxers, d, full).Some?
  {
    hide QueryGroup, Split, Reaches, Alone, FullName, Query;
    if Query(muxers, d, full).Some? {
      QueriedIsListed(muxers, d, full);
    }
    if IsListed(muxers, d, full) {
      var m, prefix, i := ListedIsSomewhere(muxers, d, full);
      var name := muxers[m].groups[prefix][i].name;
      SplitIsFullName(full, prefix, name);
      DisjointIsAlone(muxers, m, prefix);
      QueryHere(muxers, d, m, prefix, name, full);
      ThereIsQueried(muxers[m].groups[prefix], i);
    }
  }

  // ---------------------------------------------------------------- accelerators

  /** Looking up the accelerator from `d` comes to `m`. */
  predicate LookupReaches(muxers: seq<Muxer>, d: nat, m: nat, actionAndTarget: string)
    decreases Depth(muxers, d)
  {
    d == m || (d < |muxers| && actionAndTarget !in muxers[d].accels
               && Up(muxers, d).Some? && LookupReaches(muxers, Up(muxers, d).value, m, actionAndTarget))
  }

  function WithAccel(muxers: seq<Muxer>, m: nat, actionAndTarget: string, accel: Option<string>): seq<Muxer>
    requires m < |muxers|
  {
    var accels := muxers[m].accels;
    muxers[m := muxers[m].(accels :=
      if accel.Some? then accels[actionAndTarget := accel.value] else accels - {actionAndTarget})]
  }

  function ToldOfAccel(muxers: seq<Muxer>, o: Observer, m: nat, actionAndTarget: string, name: string): Observer {
    if o.name == name && LookupReaches(muxers, o.muxer, m, actionAndTarget)
    then o.(accelNotices := o.accelNotices + 1)
    else o
  }

  /** Exactly those are notified whose lookup comes to `m`, once each. */
  function AccelNotified(s: State, m: nat, actionAndTarget: string, name: string): State {
    s.(accelSignals := seq(|s.accelSignals|, d requires 0 <= d < |s.accelSignals| =>
         s.accelSignals[d] + if LookupReaches(s.muxers, d, m, actionAndTarget) then 1 else 0),
       observers := seq(|s.observers|, k requires 0 <= k < |s.observers| =>
         ToldOfAccel(s.muxers, s.observers[k], m, actionAndTarget, name)))
  }

  function AccelSet(s: State, m: nat, actionAndTarget: string, accel: Option<string>): State
    requires m < |s.muxers| && '|' in actionAndTarget
  {
    AccelNotified(s.(muxers := WithAccel(s.muxers, m, actionAndTarget, accel)), m, actionAndTarget,
                  AfterLastBar(actionAndTarget))
  }

  /** Who is not notified keeps the accelerator that was found before; who is notified finds what `m` finds. */
  lemma {:induction false} AccelIsExact(
    muxers: seq<Muxer>, d: nat, m: nat, actionAndTarget: string, accel: Option<string>)
    requires m < |muxers|
    ensures var muxers' := WithAccel(muxers, m, actionAndTarget, accel);
            var reached := LookupReaches(muxers, d, m, actionAndTarget);
            && (LookupReaches(muxers', d, m, actionAndTarget) <==> reached)
            && GetPrimaryAccel(muxers', d, actionAndTarget)
               == (if reached then GetPrimaryAccel(muxers', m, actionAndTarget)
                   else GetPrimaryAccel(muxers, d, actionAndTarget))
            && (reached && accel.Some? ==> GetPrimaryAccel(muxers', d, actionAndTarget) == accel)
    decreases Depth(muxers, d)
  {
    var muxers' := WithAccel(muxers, m, actionAndTarget, accel);
    if d != m && d < |muxers| {
      assert Up(muxers', d) == Up(muxers, d);
      if Up(muxers, d).Some? {
        AccelIsExact(muxers, Up(muxers, d).value, m, actionAndTarget, accel);
      }
    }
  }

  /** The lookup comes to `m` exactly if it would find whatever accelerator were set there. */
  lemma LookupReachesIff(muxers: seq<Muxer>, d: nat, m: nat, actionAndTarget: string)
    requires m < |muxers|
    ensures LookupReaches(muxers, d, m, actionAndTarget)
            <==> forall accel ::
                   GetPrimaryAccel(WithAccel(muxers, m, actionAndTarget, Some(accel)), d, actionAndTarget)
                   == Some(accel)
  {
    hide LookupReaches, GetPrimaryAccel, WithAccel;
    forall accel ensures LookupReaches(muxers, d, m, actionAndTarget) ==>
      GetPrimaryAccel(WithAccel(muxers, m, actionAndTarget, Some(accel)), d, actionAndTarget) == Some(accel)
    {
      AccelIsExact(muxers, d, m, actionAndTarget, Some(accel));
    }
    var other := if GetPrimaryAccel(muxers, d, actionAndTarget) == Some("") then "F1" else "";
    AccelIsExact(muxers, d, m, actionAndTarget, Some(other));
  }

  lemma {:induction false} OtherAccelsStay(
    muxers: seq<Muxer>, d: nat, m: nat, actionAndTarget: string, accel: Option<string>, other: string)
    requires m < |muxers| && other != actionAndTarget
    ensures GetPrimaryAccel(WithAccel(muxers, m, actionAndTarget, accel), d, other) == GetPrimaryAccel(muxers, d, other)
    decreases Depth(muxers, d)
  {
    var muxers' := WithAccel(muxers, m, actionAndTarget, accel);
    if d < |muxers| {
      assert Up(muxers', d) == Up(muxers, d);
      if Up(muxers, d).Some? {
        OtherAccelsStay(muxers, Up(muxers, d).value, m, actionAndTarget, accel, other);
      }
    }
  }

  lemma {:induction false} AccelsDoNotMatter(muxers: seq<Muxer>, muxers': seq<Muxer>, d: nat, full: string)
    requires |muxers'| == |muxers|
    requires forall i | 0 <= i < |muxers| :: SameLinks(muxers[i], muxers'[i]) && muxers'[i].groups == muxers[i].groups
    ensures Query(muxers', d, full) == Query(muxers, d, full)
    decreases Depth(muxers, d)
  {
    hide QueryGroup, Split;
    if d < |muxers| {
      assert Up(muxers', d) == Up(muxers, d);
      if Up(muxers, d).Some? {
        AccelsDoNotMatter(muxers, muxers', Up(muxers, d).value, full);
      }
    }
  }

  // ---------------------------------------------------------------- shadowed actions

  /** The observer is at `m` or below, and its action has the prefix. */
  predicate Concerns(muxers: seq<Muxer>, m: nat, prefix: string, o: Observer) {
    Reaches(muxers, o.muxer, m) && Split(o.name).Some? && Split(o.name).value.0 == prefix
  }

  /** What lookups find that go further up than `m`. */
  function Above(muxers: seq<Muxer>, m: nat, full: string): Option<Info> {
    if Up(muxers, m).Some? then Query(muxers, Up(muxers, m).value, full) else None
  }

  /** A group with the same prefix on the way up keeps answering. */
  lemma {:induction false} ShadowedStays(
    muxers: seq<Muxer>, muxers': seq<Muxer>, d: nat, m: nat, prefix: string, full: string)
    requires SameBut(muxers, muxers', m, prefix) && Reaches(muxers, d, m) && !Clear(muxers, d, m, prefix)
    requires Split(full).Some? && Split(full).value.0 == prefix
    ensures Query(muxers', d, full) == Query(muxers, d, full)
    decreases Depth(muxers, d)
  {
    hide Split, QueryGroup;
    assert Up(muxers', d) == Up(muxers, d);
    if d < |muxers| && prefix !in muxers[d].groups {
      ShadowedStays(muxers, muxers', Up(muxers, d).value, m, prefix, full);
    }
  }

  /** What a query from below answers after one group of `m` has changed, was removed or inserted. */
  lemma QueryAfterSwap(muxers: seq<Muxer>, muxers': seq<Muxer>, m: nat, prefix: string, o: Observer)
    requires SameBut(muxers, muxers', m, prefix) && m < |muxers|
    ensures Query(muxers', o.muxer, o.name)
            == if !Concerns(muxers, m, prefix, o) || !Clear(muxers, o.muxer, m, prefix)
               then Query(muxers, o.muxer, o.name)
               else if prefix in muxers'[m].groups then Here(muxers', m, prefix, Split(o.name).value.1)
               else Above(muxers, m, o.name)
  {
    hide Split, QueryGroup, Reaches, Clear;
    if !Concerns(muxers, m, prefix, o) {
      QueryElsewhere(muxers, muxers', o.muxer, m, prefix, o.name);
    } else if !Clear(muxers, o.muxer, m, prefix) {
      ShadowedStays(muxers, muxers', o.muxer, m, prefix, o.name);
    } else {
      SameTree(muxers, muxers', o.muxer, m, prefix);
      QueryFromBelow(muxers', o.muxer, m, o.name);
      assert Up(muxers', m) == Up(muxers, m);
      if Up(muxers, m).Some? {
        var p := Up(muxers, m).value;
        NotBelow(muxers, m);
        QueryElsewhere(muxers, muxers', p, m, prefix, o.name);
      }
    }
  }

  lemma NotBelow(muxers: seq<Muxer>, m: nat)
    requires Up(muxers, m).Some?
    ensures !Reaches(muxers, Up(muxers, m).value, m)
  {
    if Reaches(muxers, Up(muxers, m).value, m) {
      ReachesIsUpwards(muxers, Up(muxers, m).value, m);
    }
  }

  /** What an observer holds after a notice about its action in a group of `m` whose actions are `all`. */
  function Heard(muxers: seq<Muxer>, m: nat, o: Observer, all: Option<seq<Action>>, name: string): Option<Info> {
    var notice := NoticeOf(all, name);
    if notice.Removed? then None else if o.muxer == m then Some(notice.info) else Asking(muxers, o)
  }

  /** Whatever other groups there are, observers hear of each action once or more, and nothing else. */
  lemma {:induction false} EachTellsAny(
    s: State, m: nat, prefix: string, actions: seq<Action>, all: Option<seq<Action>>, k: nat)
    requires k < |s.observers| && '.' !in prefix
    ensures var s', o := NotifiedOfEach(s, m, prefix, actions, all), s.observers[k];
            && |s'.observers| == |s.observers| && s'.muxers == s.muxers
            && s'.observers[k].muxer == o.muxer && s'.observers[k].name == o.name
            && s'.observers[k].view
               == if Concerns(s.muxers, m, prefix, o) && QueryGroup(actions, Split(o.name).value.1).Some?
                  then Heard(s.muxers, m, o, all, Split(o.name).value.1) else o.view
  {
    hide Split, FullName, Query, Reaches, Heard, Told;
    EachKeepsMuxers(s, m, prefix, actions, all);
    if actions != [] {
      var n := |actions| - 1;
      EachTellsAny(s, m, prefix, actions[..n], all, k);
      EachKeepsMuxers(s, m, prefix, actions[..n], all);
      assert actions == actions[..n] + [actions[n]];
      var o, o1 := s.observers[k], NotifiedOfEach(s, m, prefix, actions[..n], all).observers[k];
      ToldOfAny(s.muxers, o, o1, m, prefix, actions[n].name, all);
      if Split(o.name).Some? {
        QueryGroupAppend(actions[..n], actions[n], Split(o.name).value.1);
      }
    }
  }

  lemma ToldOfAny(
    muxers: seq<Muxer>, o: Observer, o1: Observer, m: nat, prefix: string, name: string, all: Option<seq<Action>>)
    requires '.' !in prefix && o1.muxer == o.muxer && o1.name == o.name
    requires o1.view == o.view
             || (Split(o.name).Some? && o1.view == Heard(muxers, m, o, all, Split(o.name).value.1))
    ensures Told(muxers, o1, m, FullName(prefix, name), NoticeOf(all, name)).view
            == if Concerns(muxers, m, prefix, o) && Split(o.name).value.1 == name
               then Heard(muxers, m, o, all, name) else o1.view
  {
    hide Split, FullName, Query, Reaches, QueryGroup;
    SplitIsFullName(o.name, prefix, name);
  }

  /** Where observers are right after a group was removed; all of this can be asked before. */
  predicate RemovalTellsTruth(muxers: seq<Muxer>, m: nat, prefix: string, o: Observer)
    requires m < |muxers| && prefix in muxers[m].groups
  {
    Concerns(muxers, m, prefix, o) ==>
      if Clear(muxers, o.muxer, m, prefix) then Above(muxers, m, o.name) == None
      else QueryGroup(muxers[m].groups[prefix], Split(o.name).value.1).Some? ==> Query(muxers, o.muxer, o.name) == None
  }

  /**
   Whether prefixes are disjoint or not, after a group was removed an observer knows what a query answers if and only
   if what the removed group hid from it is not there: further up, if nothing else hides that, and otherwise in the
   group that does.
  */
  lemma RemovalIsRightIff(s: State, m: nat, prefix: string, k: nat)
    requires m < |s.muxers| && prefix in s.muxers[m].groups && '.' !in prefix
    requires k < |s.observers| && Agrees(s.muxers, s.observers[k])
    ensures var s' := RemovedGroup(s, m, prefix);
            && |s'.observers| == |s.observers|
            && (Agrees(s'.muxers, s'.observers[k]) <==> RemovalTellsTruth(s.muxers, m, prefix, s.observers[k]))
  {
    hide Split, NotifiedOfEach, Reaches, Clear, Above, QueryGroup;
    var groups, o := s.muxers[m].groups, s.observers[k];
    var muxers' := WithGroups(s.muxers, m, groups - {prefix});
    assert groups - {prefix} - {prefix} == groups - {prefix};
    EachTellsAny(s.(muxers := muxers'), m, prefix, groups[prefix], None, k);
    QueryAfterSwap(s.muxers, muxers', m, prefix, o);
    SameTree(s.muxers, muxers', o.muxer, m, prefix);
    if Concerns(s.muxers, m, prefix, o) && Clear(s.muxers, o.muxer, m, prefix) {
      QueryFromBelow(s.muxers, o.muxer, m, o.name);
    }
  }

  /** Where observers are right after a group was inserted; all of this, too, can be asked before. */
  predicate InsertionTellsTruth(muxers: seq<Muxer>, m: nat, prefix: string, actions: seq<Action>, o: Observer)
    requires m < |muxers|
  {
    Concerns(muxers, m, prefix, o) ==>
      var name, full, groups := Split(o.name).value.1, o.name, muxers[m].groups;
      if Clear(muxers, o.muxer, m, prefix) then
        QueryGroup(actions, name).Some? || prefix in groups || Above(muxers, m, full) == None
      else
        var heard := if Up(muxers, o.muxer) == None then None
                     else if Clear(muxers, Up(muxers, o.muxer).value, m, prefix) then QueryGroup(actions, name)
                     else Query(muxers, Up(muxers, o.muxer).value, full);
        if QueryGroup(actions, name).Some? && heard.Some? then heard == Query(muxers, o.muxer, full)
        else prefix in groups && QueryGroup(groups[prefix], name).Some? ==> Query(muxers, o.muxer, full) == None
  }

  /** The view of an observer between the two halves of an insertion. */
  lemma ViewWithoutGroup(s: State, m: nat, prefix: string, k: nat)
    requires m < |s.muxers| && '.' !in prefix && k < |s.observers|
    ensures var s1, o := RemovedGroup(s, m, prefix), s.observers[k];
            && |s1.observers| == |s.observers|
            && s1.observers[k].muxer == o.muxer && s1.observers[k].name == o.name
            && s1.observers[k].view
               == if Concerns(s.muxers, m, prefix, o) && prefix in s.muxers[m].groups
                     && QueryGroup(s.muxers[m].groups[prefix], Split(o.name).value.1).Some?
                  then None else o.view
  {
    hide Split, NotifiedOfEach, Reaches, QueryGroup;
    var groups := s.muxers[m].groups;
    if prefix in groups {
      var muxers' := WithGroups(s.muxers, m, groups - {prefix});
      assert groups - {prefix} - {prefix} == groups - {prefix};
      EachTellsAny(s.(muxers := muxers'), m, prefix, groups[prefix], None, k);
      SameTree(s.muxers, muxers', s.observers[k].muxer, m, prefix);
    }
  }

  /** What the observer asks its parent for when it hears of an inserted action. */
  lemma AskingAfterInsertion(
    muxers: seq<Muxer>, muxers': seq<Muxer>, m: nat, prefix: string, actions: seq<Action>, o: Observer)
    requires SameBut(muxers, muxers', m, prefix) && m < |muxers|
    requires prefix in muxers'[m].groups && muxers'[m].groups[prefix] == actions
    requires Concerns(muxers, m, prefix, o) && o.muxer != m
    ensures var p := Up(muxers, o.muxer);
            && p.Some? && Up(muxers', o.muxer) == p
            && Query(muxers', p.value, o.name)
               == if Clear(muxers, p.value, m, prefix) then QueryGroup(actions, Split(o.name).value.1)
                  else Query(muxers, p.value, o.name)
  {
    hide Split, QueryGroup, Clear, Query;
    assert Up(muxers', o.muxer) == Up(muxers, o.muxer);
    QueryAfterSwap(muxers, muxers', m, prefix, o.(muxer := Up(muxers, o.muxer).value));
  }

  /**
   Whether prefixes are disjoint or not, after a group was inserted an observer knows what a query answers under
   exactly these conditions. The one that fails when a group shadows another one further up: an action that the
   inserted group does not have must not be there above, since nobody tells that it is hidden now.
  */
  lemma InsertionIsRightIff(s: State, m: nat, prefix: string, actions: seq<Action>, k: nat)
    requires m < |s.muxers| && '.' !in prefix
    requires k < |s.observers| && Agrees(s.muxers, s.observers[k])
    ensures var s' := InsertedGroup(s, m, prefix, actions);
            && |s'.observers| == |s.observers|
            && (Agrees(s'.muxers, s'.observers[k])
                <==> InsertionTellsTruth(s.muxers, m, prefix, actions, s.observers[k]))
  {
    hide Split, NotifiedOfEach, Reaches, Clear, QueryGroup, RemovedGroup, Query;
    var groups, o := s.muxers[m].groups, s.observers[k];
    var s1 := RemovedGroup(s, m, prefix);
    KeepsMuxers(s, m, prefix);
    ViewWithoutGroup(s, m, prefix, k);
    var groups' := s1.muxers[m].groups[prefix := actions];
    var s2 := s1.(muxers := WithGroups(s1.muxers, m, groups'));
    assert groups' - {prefix} == groups - {prefix};
    EachTellsAny(s2, m, prefix, actions, Some(actions), k);
    QueryAfterSwap(s.muxers, s2.muxers, m, prefix, o);
    SameTree(s.muxers, s2.muxers, o.muxer, m, prefix);
    if Concerns(s.muxers, m, prefix, o) {
      ClearQuery(s.muxers, m, prefix, o);
      if o.muxer == m {
        ClearHere(s.muxers, m, prefix);
      } else {
        AskingAfterInsertion(s.muxers, s2.muxers, m, prefix, actions, o);
        ClearBelow(s.muxers, o.muxer, m, prefix);
      }
    }
  }

  lemma ClearQuery(muxers: seq<Muxer>, m: nat, prefix: string, o: Observer)
    requires m < |muxers| && Concerns(muxers, m, prefix, o)
    ensures Clear(muxers, o.muxer, m, prefix) ==>
              Query(muxers, o.muxer, o.name) == if prefix in muxers[m].groups
                then QueryGroup(muxers[m].groups[prefix], Split(o.name).value.1) else Above(muxers, m, o.name)
  {
    hide Split, QueryGroup, Clear;
    if Clear(muxers, o.muxer, m, prefix) {
      QueryFromBelow(muxers, o.muxer, m, o.name);
    }
  }

  lemma ClearHere(muxers: seq<Muxer>, m: nat, prefix: string)
    ensures Clear(muxers, m, m, prefix)
  {
  }

  lemma ClearBelow(muxers: seq<Muxer>, d: nat, m: nat, prefix: string)
    requires d != m
    ensures Clear(muxers, d, m, prefix) ==> Up(muxers, d).Some? && Clear(muxers, Up(muxers, d).value, m, prefix)
  {
  }

  /** Where observers are right after a change inside a group; others must not care about it. */
  predicate ChangeTellsTruth(muxers: seq<Muxer>, m: nat, prefix: string, change: Change, o: Observer) {
    Concerns(muxers, m, prefix, o) && Split(o.name).value.1 == NameOf(change) && !Clear(muxers, o.muxer, m, prefix) ==>
      var known := Query(muxers, o.muxer, o.name);
      match change
      case Adds(action) =>
        var heard := if Up(muxers, o.muxer) == None then None
                     else if Clear(muxers, Up(muxers, o.muxer).value, m, prefix) then Some(action.info)
                     else Query(muxers, Up(muxers, o.muxer).value, o.name);
        heard.Some? ==> heard == known
      case Removes(_) => known == None
      case Enables(_, enabled) => known.Some? ==> known.value.enabled == enabled
      case Sets(_, state) => known.Some? ==> known.value.state == state
  }

  /**
   Whether prefixes are disjoint or not, after a change inside a group an observer knows what a query answers if and
   only if no other group hides this one from it, or what it is told fits what the other group says.
  */
  lemma ChangeIsRightIff(s: State, m: nat, prefix: string, change: Change, k: nat)
    requires m < |s.muxers| && prefix in s.muxers[m].groups && '.' !in prefix
    requires change.Adds? ==> QueryGroup(s.muxers[m].groups[prefix], change.action.name) == None
    requires k < |s.observers| && Agrees(s.muxers, s.observers[k])
    ensures var s' := ChangedGroup(s, m, prefix, change);
            && |s'.observers| == |s.observers|
            && (Agrees(s'.muxers, s'.observers[k])
                <==> ChangeTellsTruth(s.muxers, m, prefix, change, s.observers[k]))
  {
    hide Split, FullName, Reaches, Clear, QueryGroup, Query, Changed;
    var groups, o := s.muxers[m].groups, s.observers[k];
    var groups' := groups[prefix := Changed(groups[prefix], change)];
    var muxers' := WithGroups(s.muxers, m, groups');
    assert groups' - {prefix} == groups - {prefix};
    QueryAfterSwap(s.muxers, muxers', m, prefix, o);
    SameTree(s.muxers, muxers', o.muxer, m, prefix);
    SplitIsFullName(o.name, prefix, NameOf(change));
    if Concerns(s.muxers, m, prefix, o) {
      ChangedQuery(groups[prefix], change, Split(o.name).value.1);
      ClearQuery(s.muxers, m, prefix, o);
      if o.muxer == m {
        ClearHere(s.muxers, m, prefix);
      } else {
        AskingAfterInsertion(s.muxers, muxers', m, prefix, groups'[prefix], o);
        ClearBelow(s.muxers, o.muxer, m, prefix);
      }
    }
  }

  /**
   It does happen: a group without an action is put in front of one that has it, and observers go on believing in it.
  */
  lemma InsertionCanMislead()
    ensures var x := Action("x", Info(0, true, 0));
            var muxers := [Muxer(None, 0, map["app" := [x]], map[]), Muxer(Some(0), 1, map[], map[])];
            var s := State(muxers, [Observer(1, "app.x", Some(x.info), 0)], [0, 0]);
            var s' := InsertedGroup(s, 1, "app", []);
            Agree(s) && |s'.observers| == 1 && s'.observers[0].view.Some? && !Agrees(s'.muxers, s'.observers[0])
  {
    var x := Action("x", Info(0, true, 0));
    var muxers := [Muxer(None, 0, map["app" := [x]], map[]), Muxer(Some(0), 1, map[], map[])];
    var o := Observer(1, "app.x", Some(x.info), 0);
    var s := State(muxers, [o], [0, 0]);
    assert "app.x" == FullName("app", "x");
    SplitIsFullName("app.x", "app", "x");
    assert Query(muxers, 0, "app.x") == Some(x.info);
    assert Query(muxers, 1, "app.x") == Some(x.info);
    InsertionIsRightIff(s, 1, "app", [], 0);
    ViewWithoutGroup(s, 1, "app", 0);
    ClearHere(muxers, 1, "app");
    assert Concerns(muxers, 1, "app", o);
  }

  // ---------------------------------------------------------------- the muxers at work

  /** What observers below `d` are told by the time its children before `c` have passed the notice on. */
  ghost function ToldSoFar(
    muxers: seq<Muxer>, observers: seq<Observer>, d: nat, c: nat, m: nat, full: string, notice: Notice): seq<Observer>
  {
    seq(|observers|, k requires 0 <= k < |observers| =>
      var o := observers[k];
      if Reaches(muxers, o.muxer, d) && (o.muxer == d || Through(muxers, o.muxer, d) < c)
      then Told(muxers, o, m, full, notice) else o)
  }

  /** The same once all children have. */
  ghost function ToldBelow(
    muxers: seq<Muxer>, observers: seq<Observer>, d: nat, m: nat, full: string, notice: Notice): seq<Observer>
  {
    seq(|observers|, k requires 0 <= k < |observers| =>
      if Reaches(muxers, observers[k].muxer, d) then Told(muxers, observers[k], m, full, notice) else observers[k])
  }

  lemma ToldByChild(
    muxers: seq<Muxer>, observers: seq<Observer>, d: nat, c: nat, m: nat, full: string, notice: Notice)
    ensures var before, after := ToldSoFar(muxers, observers, d, c, m, full, notice),
                                 ToldSoFar(muxers, observers, d, c + 1, m, full, notice);
            after == if Up(muxers, c) == Some(d) then ToldBelow(muxers, before, c, m, full, notice) else before
  {
    hide Told, Reaches, Through;
    var before, after := ToldSoFar(muxers, observers, d, c, m, full, notice),
                         ToldSoFar(muxers, observers, d, c + 1, m, full, notice);
    forall k | 0 <= k < |observers|
      ensures after[k] == if Up(muxers, c) == Some(d) && Reaches(muxers, observers[k].muxer, c)
                          then Told(muxers, before[k], m, full, notice) else before[k]
    {
      var x := observers[k].muxer;
      if Up(muxers, c) == Some(d) {
        ReachesThrough(muxers, x, c, d);
      }
      if Reaches(muxers, x, d) && x != d {
        ThroughIsChild(muxers, x, d);
      }
    }
    ToldKeepsMuxers(muxers, observers, d, c, m, full, notice);
  }

  lemma ToldKeepsMuxers(
    muxers: seq<Muxer>, observers: seq<Observer>, d: nat, c: nat, m: nat, full: string, notice: Notice)
    ensures forall k | 0 <= k < |observers| ::
              ToldSoFar(muxers, observers, d, c, m, full, notice)[k].muxer == observers[k].muxer
  {
  }

  lemma ToldByAll(
    muxers: seq<Muxer>, observers: seq<Observer>, d: nat, m: nat, full: string, notice: Notice)
    requires d < |muxers|
    ensures ToldSoFar(muxers, observers, d, |muxers|, m, full, notice)
            == ToldBelow(muxers, observers, d, m, full, notice)
  {
    hide Told;
    forall k | 0 <= k < |observers| && Reaches(muxers, observers[k].muxer, d) && observers[k].muxer != d
      ensures Through(muxers, observers[k].muxer, d) < |muxers|
    {
      ThroughIsChild(muxers, observers[k].muxer, d);
    }
  }

  lemma {:induction false} LookupThrough(muxers: seq<Muxer>, x: nat, c: nat, d: nat, actionAndTarget: string)
    requires Up(muxers, c) == Some(d)
    ensures LookupReaches(muxers, x, c, actionAndTarget) && actionAndTarget !in muxers[c].accels
            <==> Reaches(muxers, x, d) && x != d && LookupReaches(muxers, x, d, actionAndTarget)
                 && Through(muxers, x, d) == c
    decreases Depth(muxers, x)
  {
    if x == c {
      assert Reaches(muxers, d, d) && LookupReaches(muxers, d, d, actionAndTarget);
    } else if x == d {
      if LookupReaches(muxers, d, c, actionAndTarget) {
        LookupIsReach(muxers, d, c, actionAndTarget);
        ReachesIsUpwards(muxers, d, c);
      }
    } else if Up(muxers, x).Some? {
      LookupThrough(muxers, Up(muxers, x).value, c, d, actionAndTarget);
    }
  }

  lemma {:induction false} LookupIsReach(muxers: seq<Muxer>, d: nat, m: nat, actionAndTarget: string)
    requires LookupReaches(muxers, d, m, actionAndTarget)
    ensures Reaches(muxers, d, m)
    decreases Depth(muxers, d)
  {
    if d != m {
      LookupIsReach(muxers, Up(muxers, d).value, m, actionAndTarget);
    }
  }

  ghost predicate AccelHeard(muxers: seq<Muxer>, x: nat, d: nat, c: nat, actionAndTarget: string) {
    && Reaches(muxers, x, d) && LookupReaches(muxers, x, d, actionAndTarget)
    && (x == d || Through(muxers, x, d) < c)
  }

  /** Who heard of the accelerator by the time that the children of `d` before `c` have passed it on. */
  ghost function AccelSoFar(s: State, d: nat, c: nat, actionAndTarget: string, name: string): State {
    s.(accelSignals := seq(|s.accelSignals|, x requires 0 <= x < |s.accelSignals| =>
         s.accelSignals[x] + if AccelHeard(s.muxers, x, d, c, actionAndTarget) then 1 else 0),
       observers := seq(|s.observers|, k requires 0 <= k < |s.observers| =>
         var o := s.observers[k];
         if o.name == name && AccelHeard(s.muxers, o.muxer, d, c, actionAndTarget)
         then o.(accelNotices := o.accelNotices + 1) else o))
  }

  ghost predicate PassesOn(muxers: seq<Muxer>, c: nat, d: nat, actionAndTarget: string) {
    Up(muxers, c) == Some(d) && actionAndTarget !in muxers[c].accels
  }

  lemma AccelHeardByChild(muxers: seq<Muxer>, x: nat, d: nat, c: nat, actionAndTarget: string)
    ensures var heard := PassesOn(muxers, c, d, actionAndTarget) && LookupReaches(muxers, x, c, actionAndTarget);
            var before := AccelHeard(muxers, x, d, c, actionAndTarget);
            AccelHeard(muxers, x, d, c + 1, actionAndTarget) == (before || heard) && !(before && heard)
  {
    hide Reaches, LookupReaches, Through;
    if Up(muxers, c) == Some(d) {
      LookupThrough(muxers, x, c, d, actionAndTarget);
    }
    if Reaches(muxers, x, d) && x != d {
      ThroughIsChild(muxers, x, d);
    }
  }

  lemma AccelByChild(s: State, d: nat, c: nat, actionAndTarget: string, name: string)
    ensures var before := AccelSoFar(s, d, c, actionAndTarget, name);
            AccelSoFar(s, d, c + 1, actionAndTarget, name)
            == if PassesOn(s.muxers, c, d, actionAndTarget) then AccelNotified(before, c, actionAndTarget, name)
               else before
  {
    hide AccelHeard, LookupReaches, PassesOn;
    var before, after := AccelSoFar(s, d, c, actionAndTarget, name), AccelSoFar(s, d, c + 1, actionAndTarget, name);
    forall x: nat
      ensures var heard := PassesOn(s.muxers, c, d, actionAndTarget) && LookupReaches(s.muxers, x, c, actionAndTarget);
              var sofar := AccelHeard(s.muxers, x, d, c, actionAndTarget);
              AccelHeard(s.muxers, x, d, c + 1, actionAndTarget) == (sofar || heard) && !(sofar && heard)
    {
      AccelHeardByChild(s.muxers, x, d, c, actionAndTarget);
    }
    var expected := if PassesOn(s.muxers, c, d, actionAndTarget)
                    then AccelNotified(before, c, actionAndTarget, name) else before;
    assert after.accelSignals == expected.accelSignals;
    assert after.observers == expected.observers;
  }

  lemma AccelByAll(s: State, d: nat, actionAndTarget: string, name: string)
    ensures AccelSoFar(s, d, |s.muxers|, actionAndTarget, name) == AccelNotified(s, d, actionAndTarget, name)
  {
    hide LookupReaches, Reaches, Through;
    forall x: nat
      ensures AccelHeard(s.muxers, x, d, |s.muxers|, actionAndTarget)
              <==> LookupReaches(s.muxers, x, d, actionAndTarget)
    {
      if LookupReaches(s.muxers, x, d, actionAndTarget) {
        LookupIsReach(s.muxers, x, d, actionAndTarget);
        if x != d {
          ThroughIsChild(s.muxers, x, d);
        }
      }
    }
    var all := AccelSoFar(s, d, |s.muxers|, actionAndTarget, name);
    var expected := AccelNotified(s, d, actionAndTarget, name);
    assert all.accelSignals == expected.accelSignals;
    assert all.observers == expected.observers;
  }

  // ---------------------------------------------------------------- another parent

  /** What setting a parent goes through: the old parent's actions and accelerators, and the new parent's. */
  datatype Lists = Lists(gone: seq<string>, goneAccels: seq<string>, come: seq<string>, comeAccels: seq<string>)

  /** A parent that exists and is not the muxer itself or below it. */
  predicate MayGet(muxers: seq<Muxer>, m: nat, parent: Option<nat>) {
    && m < |muxers| && Forest(muxers)
    && (parent.Some? ==> parent.value < |muxers| && !Reaches(muxers, parent.value, m))
  }

  /** The muxers with the other parent; `m` and everything below it lie deeper then. */
  function WithParent(muxers: seq<Muxer>, m: nat, parent: Option<nat>): seq<Muxer> {
    var below := if parent.Some? then Depth(muxers, parent.value) + 1 else 0;
    seq(|muxers|, i requires 0 <= i < |muxers| =>
      muxers[i].(parent := if i == m then parent else muxers[i].parent,
                 depth := if Reaches(muxers, i, m) then muxers[i].depth + below else muxers[i].depth))
  }

  lemma WithParentIsForest(muxers: seq<Muxer>, m: nat, parent: Option<nat>)
    requires MayGet(muxers, m, parent)
    ensures Forest(WithParent(muxers, m, parent))
  {
    var muxers' := WithParent(muxers, m, parent);
    forall i | 0 <= i < |muxers'| && muxers'[i].parent.Some?
      ensures muxers'[i].parent.value < |muxers'| && Depth(muxers', muxers'[i].parent.value) < muxers'[i].depth
    {
      if i != m {
        assert Up(muxers, i) == muxers[i].parent;
        assert Reaches(muxers, i, m) <==> Reaches(muxers, muxers[i].parent.value, m);
      }
    }
  }

  lemma UpAfter(muxers: seq<Muxer>, m: nat, parent: Option<nat>, d: nat)
    requires MayGet(muxers, m, parent)
    ensures Up(WithParent(muxers, m, parent), d) == if d == m then parent else Up(muxers, d)
  {
    hide Reaches;
    WithParentIsForest(muxers, m, parent);
  }

  /** Notices about some actions, which the muxer `d` hears of from `m` and passes on. */
  ghost function NotifiedOfNames(s: State, d: nat, m: nat, names: seq<string>, notice: Notice): State {
    if names == [] then s
    else
      var s1 := NotifiedOfNames(s, d, m, names[..|names| - 1], notice);
      s1.(observers := ToldBelow(s1.muxers, s1.observers, d, m, names[|names| - 1], notice))
  }

  ghost function AccelsNotified(s: State, m: nat, keys: seq<string>): State {
    if keys == [] then s
    else
      var key := keys[|keys| - 1];
      var s1 := AccelsNotified(s, m, keys[..|keys| - 1]);
      if '|' in key then AccelNotified(s1, m, key, AfterLastBar(key)) else s1
  }

  /** That an action of the new parent is there is announced without saying what it is like; everyone asks. */
  const SOME_ACTION := Added(Info(0, false, 0))

  ghost function Detached(s: State, m: nat, lists: Lists): State
    requires m < |s.muxers|
  {
    if Up(s.muxers, m) == None then s
    else AccelsNotified(NotifiedOfNames(s, m, m, lists.gone, Removed), m, lists.goneAccels)
  }

  ghost function Attached(s: State, m: nat, lists: Lists): State
    requires m < |s.muxers|
  {
    if Up(s.muxers, m) == None then s
    else
      AccelsNotified(NotifiedOfNames(s, m, Up(s.muxers, m).value, lists.come, SOME_ACTION), m, lists.comeAccels)
  }

  ghost function Reparented(s: State, m: nat, parent: Option<nat>, lists: Lists): State
    requires m < |s.muxers| && |Detached(s, m, lists).muxers| == |s.muxers|
  {
    if s.muxers[m].parent == parent then s
    else
      var s1 := Detached(s, m, lists);
      Attached(s1.(muxers := WithParent(s1.muxers, m, parent)), m, lists)
  }

  /** The lists are those of the old and the new parent. */
  ghost predicate ListsOk(muxers: seq<Muxer>, m: nat, parent: Option<nat>, lists: Lists) {
    && (forall p | Up(muxers, m) == Some(p) ::
          && (forall full :: full in lists.gone <==> IsListed(muxers, p, full))
          && (forall key :: key in lists.goneAccels <==> GetPrimaryAccel(muxers, p, key).Some?))
    && (forall p | parent == Some(p) ::
          && (forall full :: full in lists.come <==> IsListed(muxers, p, full))
          && (forall key :: key in lists.comeAccels <==> GetPrimaryAccel(muxers, p, key).Some?))
  }

  lemma {:induction false} NamesKeepMuxers(s: State, d: nat, m: nat, names: seq<string>, notice: Notice)
    ensures var s' := NotifiedOfNames(s, d, m, names, notice);
            && s' == s.(observers := s'.observers) && |s'.observers| == |s.observers|
            && forall k | 0 <= k < |s.observers| :: s'.observers[k].(view := None) == s.observers[k].(view := None)
  {
    if names != [] {
      NamesKeepMuxers(s, d, m, names[..|names| - 1], notice);
    }
  }

  lemma {:induction false} AccelsKeepViews(s: State, m: nat, keys: seq<string>)
    ensures var s' := AccelsNotified(s, m, keys);
            && s'.muxers == s.muxers && |s'.observers| == |s.observers| && |s'.accelSignals| == |s.accelSignals|
            && forall k | 0 <= k < |s.observers| ::
                 s'.observers[k].(accelNotices := 0) == s.observers[k].(accelNotices := 0)
  {
    hide AfterLastBar, LookupReaches;
    if keys != [] {
      AccelsKeepViews(s, m, keys[..|keys| - 1]);
    }
  }

  /** The lookup from `d` finds no group up to `m`. */
  predicate Passes(muxers: seq<Muxer>, d: nat, m: nat, full: string)
    decreases Depth(muxers, d)
  {
    && d < |muxers| && FindGroup(muxers[d], full) == None
    && (d == m || (Up(muxers, d).Some? && Passes(muxers, Up(muxers, d).value, m, full)))
  }

  /** What a lookup finds that goes up to `m` and further. */
  lemma {:induction false} QueryPasses(muxers: seq<Muxer>, d: nat, m: nat, full: string)
    requires Passes(muxers, d, m, full)
    ensures Query(muxers, d, full) == if Up(muxers, m).Some? then Query(muxers, Up(muxers, m).value, full) else None
    decreases Depth(muxers, d)
  {
    hide FindGroup;
    if d != m {
      QueryPasses(muxers, Up(muxers, d).value, m, full);
    }
  }

  /** What happens above `m` does not matter to other lookups. */
  lemma {:induction false} QueryStops(muxers: seq<Muxer>, d: nat, m: nat, parent: Option<nat>, full: string)
    requires MayGet(muxers, m, parent) && !Passes(muxers, d, m, full)
    ensures Query(WithParent(muxers, m, parent), d, full) == Query(muxers, d, full)
    decreases Depth(muxers, d)
  {
    hide QueryGroup, Split;
    var muxers' := WithParent(muxers, m, parent);
    UpAfter(muxers, m, parent, d);
    assert d < |muxers| ==> muxers'[d].groups == muxers[d].groups;
    if d < |muxers| && FindGroup(muxers[d], full) == None && d != m {
      if Up(muxers, d).Some? {
        QueryStops(muxers, Up(muxers, d).value, m, parent, full);
      }
    }
  }

  lemma {:induction false} SamePath(muxers: seq<Muxer>, d: nat, m: nat, parent: Option<nat>, full: string)
    requires MayGet(muxers, m, parent)
    ensures Passes(WithParent(muxers, m, parent), d, m, full) <==> Passes(muxers, d, m, full)
    ensures Reaches(WithParent(muxers, m, parent), d, m) <==> Reaches(muxers, d, m)
    decreases Depth(muxers, d)
  {
    hide Split;
    var muxers' := WithParent(muxers, m, parent);
    UpAfter(muxers, m, parent, d);
    assert d < |muxers| ==> muxers'[d].groups == muxers[d].groups;
    if d != m && Up(muxers, d).Some? {
      SamePath(muxers, Up(muxers, d).value, m, parent, full);
    }
  }

  lemma {:induction false} PassesReaches(muxers: seq<Muxer>, d: nat, m: nat, full: string)
    requires Passes(muxers, d, m, full)
    ensures Reaches(muxers, d, m)
    decreases Depth(muxers, d)
  {
    hide FindGroup;
    if d != m {
      PassesReaches(muxers, Up(muxers, d).value, m, full);
    }
  }

  lemma {:induction false} NamesGone(s: State, m: nat, names: seq<string>, k: nat)
    requires k < |s.observers|
    ensures var s', o := NotifiedOfNames(s, m, m, names, Removed), s.observers[k];
            |s'.observers| == |s.observers| &&
            s'.observers[k].view == if o.name in names && Reaches(s.muxers, o.muxer, m) then None else o.view
  {
    hide Query, Reaches;
    NamesKeepMuxers(s, m, m, names, Removed);
    if names != [] {
      var n := |names| - 1;
      NamesGone(s, m, names[..n], k);
      NamesKeepMuxers(s, m, m, names[..n], Removed);
      assert names == names[..n] + [names[n]];
    }
  }

  lemma {:induction false} NamesCome(s: State, m: nat, names: seq<string>, k: nat)
    requires k < |s.observers| && Up(s.muxers, m).Some?
    ensures var s', o := NotifiedOfNames(s, m, Up(s.muxers, m).value, names, SOME_ACTION), s.observers[k];
            |s'.observers| == |s.observers| &&
            s'.observers[k].view
            == if o.name in names && Reaches(s.muxers, o.muxer, m) then Asking(s.muxers, o) else o.view
  {
    hide Query, Reaches, Told;
    var p := Up(s.muxers, m).value;
    NamesKeepMuxers(s, m, p, names, SOME_ACTION);
    if names != [] {
      var n := |names| - 1;
      NamesCome(s, m, names[..n], k);
      NamesKeepMuxers(s, m, p, names[..n], SOME_ACTION);
      assert names == names[..n] + [names[n]];
      var s1 := NotifiedOfNames(s, m, p, names[..n], SOME_ACTION);
      if Reaches(s.muxers, s.observers[k].muxer, m) {
        ToldToAsk(s.muxers, s1.observers[k], m, names[n]);
      }
    }
  }

  lemma ToldToAsk(muxers: seq<Muxer>, o: Observer, m: nat, name: string)
    requires Up(muxers, m).Some? && Reaches(muxers, o.muxer, m)
    ensures Told(muxers, o, Up(muxers, m).value, name, SOME_ACTION).view
            == if o.name == name then Asking(muxers, o) else o.view
  {
    hide Query;
    ReachesFurther(muxers, o.muxer, m);
    ReachesIsUpwards(muxers, o.muxer, m);
  }

  /** An action that a group at `d` or on the way up to `m` answers for is not listed further up. */
  lemma {:induction false} StoppedIsNotAbove(muxers: seq<Muxer>, d: nat, m: nat, full: string)
    requires Disjoint(muxers) && Reaches(muxers, d, m) && !Passes(muxers, d, m, full) && Up(muxers, m).Some?
    ensures !IsListed(muxers, Up(muxers, m).value, full)
    decreases Depth(muxers, d)
  {
    hide IsListed;
    if FindGroup(muxers[d], full).Some? {
      ReachesFurther(muxers, d, m);
      ReachesIsUpwards(muxers, d, m);
      FoundIsNotAbove(muxers, d, Up(muxers, m).value, full);
    } else {
      StoppedIsNotAbove(muxers, Up(muxers, d).value, m, full);
    }
  }

  lemma FoundIsNotAbove(muxers: seq<Muxer>, d: nat, a: nat, full: string)
    requires Disjoint(muxers) && Reaches(muxers, d, a) && a != d && d < |muxers| && FindGroup(muxers[d], full).Some?
    ensures !IsListed(muxers, a, full)
  {
    hide IsListed, Reaches, QueryGroup;
    if IsListed(muxers, a, full) {
      var e, prefix, i := ListedIsSomewhere(muxers, a, full);
      SplitIsFullName(full, prefix, muxers[e].groups[prefix][i].name);
      ReachesIsUpwards(muxers, d, a);
      ReachesIsUpwards(muxers, a, e);
      ReachesOn(muxers, d, a, e);
      assert false;
    }
  }

  lemma {:induction false} ReachesOn(muxers: seq<Muxer>, d: nat, a: nat, e: nat)
    requires Reaches(muxers, d, a) && Reaches(muxers, a, e)
    ensures Reaches(muxers, d, e)
    decreases Depth(muxers, d)
  {
    if d != a {
      ReachesOn(muxers, Up(muxers, d).value, a, e);
    }
  }

  /** Detaching tells everyone below `m` that the actions of the old parent are gone. */
  lemma DetachedTells(s: State, m: nat, lists: Lists, k: nat)
    requires m < |s.muxers| && k < |s.observers|
    ensures var s', o := Detached(s, m, lists), s.observers[k];
            && s'.muxers == s.muxers && |s'.accelSignals| == |s.accelSignals| && |s'.observers| == |s.observers|
            && s'.observers[k].muxer == o.muxer && s'.observers[k].name == o.name
            && s'.observers[k].view == if Up(s.muxers, m).Some? && o.name in lists.gone && Reaches(s.muxers, o.muxer, m)
                                       then None else o.view
  {
    hide NotifiedOfNames, AccelsNotified, Reaches;
    if Up(s.muxers, m).Some? {
      NamesGone(s, m, lists.gone, k);
      NamesKeepMuxers(s, m, m, lists.gone, Removed);
      AccelsKeepViews(NotifiedOfNames(s, m, m, lists.gone, Removed), m, lists.goneAccels);
    }
  }

  /** Attaching has everyone below `m` ask for the actions of the new parent. */
  lemma AttachedTells(s: State, m: nat, lists: Lists, k: nat)
    requires m < |s.muxers| && k < |s.observers|
    ensures var s', o := Attached(s, m, lists), s.observers[k];
            && s'.muxers == s.muxers && |s'.accelSignals| == |s.accelSignals| && |s'.observers| == |s.observers|
            && s'.observers[k].muxer == o.muxer && s'.observers[k].name == o.name
            && s'.observers[k].view == if Up(s.muxers, m).Some? && o.name in lists.come && Reaches(s.muxers, o.muxer, m)
                                       then Asking(s.muxers, o) else o.view
  {
    hide NotifiedOfNames, AccelsNotified, Reaches, Asking;
    if Up(s.muxers, m).Some? {
      var p := Up(s.muxers, m).value;
      NamesCome(s, m, lists.come, k);
      NamesKeepMuxers(s, m, p, lists.come, SOME_ACTION);
      AccelsKeepViews(NotifiedOfNames(s, m, p, lists.come, SOME_ACTION), m, lists.comeAccels);
    }
  }

  lemma {:induction false} AboveStays(
    muxers: seq<Muxer>, m: nat, parent: Option<nat>, a: nat, full: string, key: string)
    requires MayGet(muxers, m, parent) && a < |muxers| && !Reaches(muxers, a, m)
    ensures IsListed(WithParent(muxers, m, parent), a, full) <==> IsListed(muxers, a, full)
    ensures Query(WithParent(muxers, m, parent), a, full) == Query(muxers, a, full)
    ensures GetPrimaryAccel(WithParent(muxers, m, parent), a, key) == GetPrimaryAccel(muxers, a, key)
    decreases Depth(muxers, a)
  {
    hide QueryGroup, Split, FullName;
    var muxers' := WithParent(muxers, m, parent);
    UpAfter(muxers, m, parent, a);
    assert muxers'[a] == muxers[a];
    if Up(muxers, a).Some? {
      AboveStays(muxers, m, parent, Up(muxers, a).value, full, key);
    }
  }

  /** What the observer asks for when it hears of an action of the new parent. */
  function AskedOfParent(muxers: seq<Muxer>, m: nat, parent: Option<nat>, o: Observer): Option<Info> {
    var up := Up(muxers, o.muxer);
    if o.muxer == m || (up.Some? && Passes(muxers, up.value, m, o.name))
    then if parent.Some? then Query(muxers, parent.value, o.name) else None
    else if up.Some? then Query(muxers, up.value, o.name)
    else None
  }

  /** Where observers are right after `m` got another parent; all of this can be asked before. */
  predicate ReparentTellsTruth(muxers: seq<Muxer>, m: nat, parent: Option<nat>, o: Observer)
    requires m < |muxers|
  {
    muxers[m].parent != parent && Reaches(muxers, o.muxer, m) && !Passes(muxers, o.muxer, m, o.name) ==>
      var known, asked := Query(muxers, o.muxer, o.name), AskedOfParent(muxers, m, parent, o);
      if parent.Some? && IsListed(muxers, parent.value, o.name) && asked.Some? then asked == known
      else Up(muxers, m).Some? && IsListed(muxers, Up(muxers, m).value, o.name) ==> known == None
  }

  /** What becomes of an observer when `m` gets another parent. */
  lemma ReparentTells(
    muxers: seq<Muxer>, m: nat, parent: Option<nat>, lists: Lists, o: Observer, o1: Observer, o2: Observer)
    requires MayGet(muxers, m, parent) && ListsOk(muxers, m, parent, lists) && muxers[m].parent != parent
    requires Agrees(muxers, o)
    requires o1.muxer == o2.muxer == o.muxer && o1.name == o2.name == o.name
    requires o1.view
             == if Up(muxers, m).Some? && o.name in lists.gone && Reaches(muxers, o.muxer, m) then None else o.view
    requires var muxers' := WithParent(muxers, m, parent);
             o2.view == if Up(muxers', m).Some? && o.name in lists.come && Reaches(muxers', o.muxer, m)
                        then Asking(muxers', o1) else o1.view
    ensures Agrees(WithParent(muxers, m, parent), o2) <==> ReparentTellsTruth(muxers, m, parent, o)
  {
    hide IsListed, GetPrimaryAccel, Query, Passes, Reaches, Asking, AskedOfParent;
    var d, full := o.muxer, o.name;
    UpAfter(muxers, m, parent, m);
    SamePath(muxers, d, m, parent, full);
    if Passes(muxers, d, m, full) {
      PassesReaches(muxers, d, m, full);
      ReparentPasses(muxers, m, parent, lists, o, o1, o2);
    } else {
      QueryStops(muxers, d, m, parent, full);
      if Reaches(muxers, d, m) {
        AskingParent(muxers, m, parent, o, o1);
      }
    }
  }

  lemma AskingParent(muxers: seq<Muxer>, m: nat, parent: Option<nat>, o: Observer, o1: Observer)
    requires MayGet(muxers, m, parent) && Reaches(muxers, o.muxer, m)
    requires o1.muxer == o.muxer && o1.name == o.name
    ensures var asked := AskedOfParent(muxers, m, parent, o);
            Asking(WithParent(muxers, m, parent), o1) == if asked.Some? then asked else o1.view
  {
    hide IsListed, GetPrimaryAccel, Query, Passes;
    var muxers', up, full := WithParent(muxers, m, parent), Up(muxers, o.muxer), o.name;
    UpAfter(muxers, m, parent, o.muxer);
    UpAfter(muxers, m, parent, m);
    if parent.Some? {
      AboveStays(muxers, m, parent, parent.value, full, "");
    }
    if o.muxer != m {
      SamePath(muxers, up.value, m, parent, full);
      if Passes(muxers, up.value, m, full) {
        QueryPasses(muxers', up.value, m, full);
      } else {
        QueryStops(muxers, up.value, m, parent, full);
      }
    }
  }

  /** Where prefixes are disjoint before and after, everyone is right. */
  lemma DisjointTellsTruth(muxers: seq<Muxer>, m: nat, parent: Option<nat>, o: Observer)
    requires MayGet(muxers, m, parent) && Disjoint(muxers) && Disjoint(WithParent(muxers, m, parent))
    ensures ReparentTellsTruth(muxers, m, parent, o)
  {
    hide IsListed, GetPrimaryAccel, Disjoint, Query, Passes, Reaches, AskedOfParent;
    UpAfter(muxers, m, parent, m);
    SamePath(muxers, o.muxer, m, parent, o.name);
    if Reaches(muxers, o.muxer, m) && !Passes(muxers, o.muxer, m, o.name) {
      if Up(muxers, m).Some? {
        StoppedIsNotAbove(muxers, o.muxer, m, o.name);
      }
      if parent.Some? {
        StoppedIsNotAbove(WithParent(muxers, m, parent), o.muxer, m, o.name);
        AboveStays(muxers, m, parent, parent.value, o.name, "");
      }
    }
  }

  /**
   Whether prefixes are disjoint or not, after `m` got another parent an observer knows what a query answers if and
   only if its lookup goes up through `m`, or what it is told of the actions of the two parents fits the group below
   that hides them: nobody asks whether an action that goes with the old parent is still there.
  */
  lemma ReparentIsRightIff(s: State, m: nat, parent: Option<nat>, lists: Lists, k: nat)
    requires MayGet(s.muxers, m, parent) && ListsOk(s.muxers, m, parent, lists)
    requires k < |s.observers| && Agrees(s.muxers, s.observers[k])
    ensures |Detached(s, m, lists).muxers| == |s.muxers|
    ensures var s' := Reparented(s, m, parent, lists);
            && |s'.observers| == |s.observers| && s'.observers[k].muxer == s.observers[k].muxer
            && (Agrees(s'.muxers, s'.observers[k]) <==> ReparentTellsTruth(s.muxers, m, parent, s.observers[k]))
  {
    hide Detached, Attached, Reaches, Asking, ListsOk, Agrees, Passes, Query, IsListed, AskedOfParent;
    DetachedKeepsMuxers(s, m, lists);
    if s.muxers[m].parent != parent {
      var s1 := Detached(s, m, lists);
      var s2 := s1.(muxers := WithParent(s1.muxers, m, parent));
      var s3 := Attached(s2, m, lists);
      DetachedTells(s, m, lists, k);
      AttachedTells(s2, m, lists, k);
      ReparentTells(s.muxers, m, parent, lists, s.observers[k], s1.observers[k], s3.observers[k]);
    }
  }

  /** Two muxers, both with the same one action. */
  const ACTION_X: Action := Action("x", Info(0, true, 0))

  const SHADOWING: seq<Muxer> :=
    [Muxer(None, 0, map["app" := [ACTION_X]], map[]), Muxer(Some(0), 1, map["app" := [ACTION_X]], map[])]

  lemma ShadowingLists()
    ensures forall full :: IsListed(SHADOWING, 0, full) <==> full == "app.x"
    ensures forall key :: GetPrimaryAccel(SHADOWING, 0, key) == None
    ensures Forest(SHADOWING) && Up(SHADOWING, 1) == Some(0)
    ensures Query(SHADOWING, 1, "app.x") == Some(ACTION_X.info) && !Passes(SHADOWING, 1, 1, "app.x")
  {
    assert FullName("app", "x") == "app.x";
    SplitIsFullName("app.x", "app", "x");
    var groups: map<string, seq<Action>> := SHADOWING[0].groups;
    forall full ensures IsListed(SHADOWING, 0, full) <==> full == "app.x" {
      assert "app" in groups && groups["app"][0].name == "x";
      if full == "app.x" {
        assert full == FullName("app", groups["app"][0].name);
      }
    }
  }

  /**
   It does happen: a muxer whose own group hides an action of its parent loses that parent, and its observer believes
   that the action is gone.
  */
  lemma ReparentCanMislead()
    ensures var lists := Lists(["app.x"], [], [], []);
            var s := State(SHADOWING, [Observer(1, "app.x", Some(ACTION_X.info), 0)], [0, 0]);
            && Agree(s) && MayGet(SHADOWING, 1, None) && ListsOk(SHADOWING, 1, None, lists)
            && |Detached(s, 1, lists).muxers| == |SHADOWING|
            && var s' := Reparented(s, 1, None, lists);
            && |s'.observers| == 1 && s'.observers[0].view == None
            && Query(s'.muxers, 1, "app.x") == Some(ACTION_X.info)
  {
    hide Query, IsListed, GetPrimaryAccel, Passes, NotifiedOfNames, AccelsNotified, FindGroup;
    ShadowingLists();
    var lists := Lists(["app.x"], [], [], []);
    var s := State(SHADOWING, [Observer(1, "app.x", Some(ACTION_X.info), 0)], [0, 0]);
    DetachedTells(s, 1, lists, 0);
    QueryStops(SHADOWING, 1, 1, None, "app.x");
    UpAfter(SHADOWING, 1, None, 1);
    ReachesItself(SHADOWING, 1);
  }

  /** An observer whose lookup goes further up than `m`. */
  lemma ReparentPasses(
    muxers: seq<Muxer>, m: nat, parent: Option<nat>, lists: Lists, o: Observer, o1: Observer, o2: Observer)
    requires MayGet(muxers, m, parent) && ListsOk(muxers, m, parent, lists)
    requires Agrees(muxers, o) && Passes(muxers, o.muxer, m, o.name)
    requires o1.muxer == o2.muxer == o.muxer && o1.name == o2.name == o.name
    requires o1.view == if Up(muxers, m).Some? && o.name in lists.gone then None else o.view
    requires var muxers' := WithParent(muxers, m, parent);
             o2.view == if parent.Some? && o.name in lists.come then Asking(muxers', o1) else o1.view
    ensures Agrees(WithParent(muxers, m, parent), o2)
  {
    hide IsListed, GetPrimaryAccel, Query, Passes, Reaches;
    var muxers', d, full := WithParent(muxers, m, parent), o.muxer, o.name;
    UpAfter(muxers, m, parent, m);
    SamePath(muxers, d, m, parent, full);
    QueryPasses(muxers, d, m, full);
    QueryPasses(muxers', d, m, full);
    if Up(muxers, m).Some? && Query(muxers, Up(muxers, m).value, full).Some? {
      QueriedIsListed(muxers, Up(muxers, m).value, full);
    }
    assert o1.view == None;
    if parent.Some? {
      AboveStays(muxers, m, parent, parent.value, full, "");
      if Query(muxers, parent.value, full).Some? {
        QueriedIsListed(muxers, parent.value, full);
      }
      PassesReaches(muxers, d, m, full);
      if d != m {
        PassesThrough(muxers', d, m, full);
        QueryPasses(muxers', Up(muxers', d).value, m, full);
      }
    }
  }

  lemma PassesThrough(muxers: seq<Muxer>, d: nat, m: nat, full: string)
    requires Passes(muxers, d, m, full) && d != m
    ensures Up(muxers, d).Some? && Passes(muxers, Up(muxers, d).value, m, full)
  {
  }

  lemma DetachedKeepsMuxers(s: State, m: nat, lists: Lists)
    requires m < |s.muxers|
    ensures var s' := Detached(s, m, lists);
            s'.muxers == s.muxers && |s'.accelSignals| == |s.accelSignals| && |s'.observers| == |s.observers|
  {
    if Up(s.muxers, m).Some? {
      NamesKeepMuxers(s, m, m, lists.gone, Removed);
      AccelsKeepViews(NotifiedOfNames(s, m, m, lists.gone, Removed), m, lists.goneAccels);
    }
  }

  lemma AttachedKeepsMuxers(s: State, m: nat, lists: Lists)
    requires m < |s.muxers|
    ensures var s' := Attached(s, m, lists);
            s'.muxers == s.muxers && |s'.accelSignals| == |s.accelSignals| && |s'.observers| == |s.observers|
  {
    if Up(s.muxers, m).Some? {
      var p := Up(s.muxers, m).value;
      NamesKeepMuxers(s, m, p, lists.come, SOME_ACTION);
      AccelsKeepViews(NotifiedOfNames(s, m, p, lists.come, SOME_ACTION), m, lists.comeAccels);
    }
  }

  /** Where the accelerator of a key is announced for, the count grows. */
  lemma {:induction false} AccelsCount(s: State, m: nat, keys: seq<string>, d: nat, key: string)
    requires d < |s.accelSignals|
    ensures var s' := AccelsNotified(s, m, keys);
            && |s'.accelSignals| == |s.accelSignals| && s'.accelSignals[d] >= s.accelSignals[d]
            && (key in keys && '|' in key && LookupReaches(s.muxers, d, m, key) ==>
                  s'.accelSignals[d] > s.accelSignals[d])
  {
    hide AfterLastBar, LookupReaches;
    AccelsKeepViews(s, m, keys);
    if keys != [] {
      var n := |keys| - 1;
      AccelsKeepViews(s, m, keys[..n]);
      AccelsCount(s, m, keys[..n], d, key);
      assert keys == keys[..n] + [keys[n]];
    }
  }

  /** Another parent matters only where the lookup goes further up than `m`. */
  lemma {:induction false} AccelReparented(muxers: seq<Muxer>, d: nat, m: nat, parent: Option<nat>, key: string)
    requires MayGet(muxers, m, parent)
    ensures var muxers' := WithParent(muxers, m, parent);
            && (LookupReaches(muxers', d, m, key) <==> LookupReaches(muxers, d, m, key))
            && (!LookupReaches(muxers, d, m, key) || key in muxers[m].accels ==>
                  GetPrimaryAccel(muxers', d, key) == GetPrimaryAccel(muxers, d, key))
            && (LookupReaches(muxers, d, m, key) ==>
                  && GetPrimaryAccel(muxers', d, key) == GetPrimaryAccel(muxers', m, key)
                  && GetPrimaryAccel(muxers, d, key) == GetPrimaryAccel(muxers, m, key))
    decreases Depth(muxers, d)
  {
    var muxers' := WithParent(muxers, m, parent);
    UpAfter(muxers, m, parent, d);
    assert d < |muxers| ==> muxers'[d].accels == muxers[d].accels;
    if d != m && Up(muxers, d).Some? {
      AccelReparented(muxers, Up(muxers, d).value, m, parent, key);
    }
  }

  lemma {:induction false} SameParent(muxers: seq<Muxer>, m: nat, parent: Option<nat>, d: nat, key: string)
    requires MayGet(muxers, m, parent)
    ensures muxers[m].parent == parent ==>
              GetPrimaryAccel(WithParent(muxers, m, parent), d, key) == GetPrimaryAccel(muxers, d, key)
    decreases Depth(muxers, d)
  {
    UpAfter(muxers, m, parent, d);
    assert d < |muxers| ==> WithParent(muxers, m, parent)[d].accels == muxers[d].accels;
    if Up(muxers, d).Some? {
      SameParent(muxers, m, parent, Up(muxers, d).value, key);
    }
  }

  /** Wherever another parent changes an accelerator, that is announced. */
  lemma ReparentAnnounces(s: State, m: nat, parent: Option<nat>, lists: Lists, d: nat, key: string)
    requires MayGet(s.muxers, m, parent) && ListsOk(s.muxers, m, parent, lists)
    requires d < |s.accelSignals| && '|' in key
    requires GetPrimaryAccel(WithParent(s.muxers, m, parent), d, key) != GetPrimaryAccel(s.muxers, d, key)
    ensures |Detached(s, m, lists).muxers| == |s.muxers|
    ensures var s' := Reparented(s, m, parent, lists);
            d < |s'.accelSignals| && s'.accelSignals[d] > s.accelSignals[d]
  {
    hide Disjoint, IsListed, LookupReaches, NotifiedOfNames, AccelsNotified;
    DetachedKeepsMuxers(s, m, lists);
    var muxers' := WithParent(s.muxers, m, parent);
    AccelReparented(s.muxers, d, m, parent, key);
    if parent.Some? {
      AboveStays(s.muxers, m, parent, parent.value, "", key);
    }
    SameParent(s.muxers, m, parent, d, key);
    var s1 := Detached(s, m, lists);
    var s2 := s1.(muxers := muxers');
    if Up(s.muxers, m).Some? {
      var n := NotifiedOfNames(s, m, m, lists.gone, Removed);
      NamesKeepMuxers(s, m, m, lists.gone, Removed);
      AccelsCount(n, m, lists.goneAccels, d, key);
    }
    if parent.Some? {
      var n := NotifiedOfNames(s2, m, parent.value, lists.come, SOME_ACTION);
      NamesKeepMuxers(s2, m, parent.value, lists.come, SOME_ACTION);
      AccelsCount(n, m, lists.comeAccels, d, key);
    }
  }

  /** Where the accelerator of a key is announced for, the observers of its action are told. */
  lemma {:induction false} NoticesCount(s: State, m: nat, keys: seq<string>, k: nat, key: string)
    requires k < |s.observers|
    ensures var s', o := AccelsNotified(s, m, keys), s.observers[k];
            && |s'.observers| == |s.observers| && s'.observers[k].accelNotices >= o.accelNotices
            && (key in keys && '|' in key && LookupReaches(s.muxers, o.muxer, m, key) && o.name == AfterLastBar(key) ==>
                  s'.observers[k].accelNotices > o.accelNotices)
  {
    hide AfterLastBar, LookupReaches;
    AccelsKeepViews(s, m, keys);
    if keys != [] {
      var n := |keys| - 1;
      AccelsKeepViews(s, m, keys[..n]);
      NoticesCount(s, m, keys[..n], k, key);
      assert keys == keys[..n] + [keys[n]];
    }
  }

  /** Wherever another parent changes the accelerator of an action, its observers are told, too. */
  lemma ReparentTellsOfAccels(
    s: State, m: nat, parent: Option<nat>, lists: Lists, k: nat, nameSpace: Option<string>, name: string,
    target: Option<string>)
    requires MayGet(s.muxers, m, parent) && ListsOk(s.muxers, m, parent, lists)
    requires PrintActionAndTarget(nameSpace, name, target).Some?
    requires k < |s.observers| && s.observers[k].name == Qualified(nameSpace, name)
    requires var key, d := PrintActionAndTarget(nameSpace, name, target).value, s.observers[k].muxer;
             GetPrimaryAccel(WithParent(s.muxers, m, parent), d, key) != GetPrimaryAccel(s.muxers, d, key)
    ensures |Detached(s, m, lists).muxers| == |s.muxers|
    ensures var s' := Reparented(s, m, parent, lists);
            |s'.observers| == |s.observers| && s'.observers[k].accelNotices > s.observers[k].accelNotices
  {
    hide Disjoint, IsListed, LookupReaches, NotifiedOfNames, AccelsNotified, AfterLastBar, PrintActionAndTarget;
    PrintedNameIsFound(nameSpace, name, target);
    DetachedKeepsMuxers(s, m, lists);
    var key, d := PrintActionAndTarget(nameSpace, name, target).value, s.observers[k].muxer;
    var muxers' := WithParent(s.muxers, m, parent);
    AccelReparented(s.muxers, d, m, parent, key);
    if parent.Some? {
      AboveStays(s.muxers, m, parent, parent.value, "", key);
    }
    SameParent(s.muxers, m, parent, d, key);
    var s1 := Detached(s, m, lists);
    var s2 := s1.(muxers := muxers');
    if Up(s.muxers, m).Some? {
      var n := NotifiedOfNames(s, m, m, lists.gone, Removed);
      NamesKeepMuxers(s, m, m, lists.gone, Removed);
      NoticesCount(n, m, lists.goneAccels, k, key);
      AccelsKeepViews(n, m, lists.goneAccels);
    }
    if parent.Some? {
      var n := NotifiedOfNames(s2, m, parent.value, lists.come, SOME_ACTION);
      NamesKeepMuxers(s2, m, parent.value, lists.come, SOME_ACTION);
      NoticesCount(n, m, lists.comeAccels, k, key);
    }
  }

  // ---------------------------------------------------------------- runs

  datatype Step =
    | NewMuxer(parent: Option<nat>)
    | Inserts(muxer: nat, prefix: string, actions: seq<Action>)
    | RemovesGroup(muxer: nat, prefix: string)
    | Changes(muxer: nat, prefix: string, change: Change)
    | Registers(muxer: nat, name: string)
    | Unregisters(k: nat)
    | SetsAccel(muxer: nat, actionAndTarget: string, accel: Option<string>)
    | SetsParent(muxer: nat, parent: Option<nat>, lists: Lists)

  /** An observer asks for the action when it registers. */
  function Registered(s: State, m: nat, name: string): State {
    s.(observers := s.observers + [Observer(m, name, Query(s.muxers, m, name), 0)])
  }

  function NewMuxerFor(muxers: seq<Muxer>, parent: Option<nat>): Muxer {
    Muxer(parent, if parent.Some? then Depth(muxers, parent.value) + 1 else 0, map[], map[])
  }

  function Created(s: State, parent: Option<nat>): State {
    s.(muxers := s.muxers + [NewMuxerFor(s.muxers, parent)], accelSignals := s.accelSignals + [0])
  }

  ghost predicate Enabled(s: State, step: Step) {
    match step
    case NewMuxer(parent) => parent.Some? ==> parent.value < |s.muxers|
    case Inserts(m, prefix, _) => m < |s.muxers| && '.' !in prefix
    case RemovesGroup(m, _) => m < |s.muxers|
    case Changes(m, prefix, change) =>
      && m < |s.muxers| && prefix in s.muxers[m].groups
      && (change.Adds? ==> QueryGroup(s.muxers[m].groups[prefix], change.action.name) == None)
    case Registers(m, _) => m < |s.muxers|
    case Unregisters(k) => k < |s.observers|
    case SetsAccel(m, actionAndTarget, _) => m < |s.muxers| && '|' in actionAndTarget
    case SetsParent(m, parent, lists) => MayGet(s.muxers, m, parent) && ListsOk(s.muxers, m, parent, lists)
  }

  /** A step that leaves every prefix the only one of its kind along every chain of parents. */
  ghost predicate KeepsApart(s: State, step: Step) {
    match step
    case Inserts(m, prefix, _) => Alone(s.muxers, m, prefix)
    case SetsParent(m, parent, _) => Disjoint(WithParent(s.muxers, m, parent))
    case _ => true
  }

  ghost function Next(s: State, step: Step): State
    requires Enabled(s, step)
  {
    match step
    case NewMuxer(parent) => Created(s, parent)
    case Inserts(m, prefix, actions) => InsertedGroup(s, m, prefix, actions)
    case RemovesGroup(m, prefix) => RemovedGroup(s, m, prefix)
    case Changes(m, prefix, change) => ChangedGroup(s, m, prefix, change)
    case Registers(m, name) => Registered(s, m, name)
    case Unregisters(k) => s.(observers := s.observers[..k] + s.observers[k + 1..])
    case SetsAccel(m, actionAndTarget, accel) => AccelSet(s, m, actionAndTarget, accel)
    case SetsParent(m, parent, lists) =>
      DetachedKeepsMuxers(s, m, lists);
      Reparented(s, m, parent, lists)
  }

  ghost predicate ObserversOk(s: State) {
    |s.accelSignals| == |s.muxers| && forall k | 0 <= k < |s.observers| :: s.observers[k].muxer < |s.muxers|
  }

  ghost predicate Good(s: State) {
    Agree(s) && Forest(s.muxers) && Disjoint(s.muxers) && ObserversOk(s)
  }

  lemma GoodAgrees(s: State)
    requires Good(s)
    ensures Agree(s)
  {
  }

  lemma InsertsKeeps(s: State, m: nat, prefix: string, actions: seq<Action>)
    requires Good(s) && m < |s.muxers| && Alone(s.muxers, m, prefix)
    ensures Good(InsertedGroup(s, m, prefix, actions))
  {
    hide Disjoint, Alone, Agree, RemovedGroup;
    InsertKeepsAgreement(s, m, prefix, actions);
    KeepsMuxers(s, m, prefix);
    var s1, groups := RemovedGroup(s, m, prefix), s.muxers[m].groups;
    var groups' := s1.muxers[m].groups[prefix := actions];
    var s2 := s1.(muxers := WithGroups(s1.muxers, m, groups'));
    assert groups' - {prefix} == groups - {prefix};
    DisjointStays(s.muxers, s2.muxers, m, prefix);
    EachKeepsMuxers(s2, m, prefix, actions, Some(actions));
    RemovedKeepsObservers(s, m, prefix);
  }

  lemma RemovedKeepsObservers(s: State, m: nat, prefix: string)
    requires m < |s.muxers|
    ensures var s' := RemovedGroup(s, m, prefix);
            && |s'.observers| == |s.observers|
            && forall k | 0 <= k < |s.observers| :: s'.observers[k].muxer == s.observers[k].muxer
  {
    var groups := s.muxers[m].groups;
    if prefix in groups {
      EachKeepsMuxers(s.(muxers := WithGroups(s.muxers, m, groups - {prefix})), m, prefix, groups[prefix], None);
    }
  }

  lemma RemovesKeeps(s: State, m: nat, prefix: string)
    requires Good(s) && m < |s.muxers|
    ensures Good(RemovedGroup(s, m, prefix))
  {
    hide Disjoint, Alone, Agree, RemovedGroup;
    var groups := s.muxers[m].groups;
    if prefix in groups {
      DisjointIsAlone(s.muxers, m, prefix);
      RemoveKeepsAgreement(s, m, prefix);
      KeepsMuxers(s, m, prefix);
      assert groups - {prefix} - {prefix} == groups - {prefix};
      DisjointStays(s.muxers, WithGroups(s.muxers, m, groups - {prefix}), m, prefix);
      RemovedKeepsObservers(s, m, prefix);
    } else {
      NothingToRemove(s, m, prefix);
    }
  }

  lemma NothingToRemove(s: State, m: nat, prefix: string)
    requires m < |s.muxers| && prefix !in s.muxers[m].groups
    ensures RemovedGroup(s, m, prefix) == s
  {
  }

  lemma ChangesKeeps(s: State, m: nat, prefix: string, change: Change)
    requires Good(s) && Enabled(s, Changes(m, prefix, change))
    ensures Good(ChangedGroup(s, m, prefix, change))
  {
    hide Disjoint, Alone, Agree, QueryGroup, Changed, FullName, Query;
    var groups := s.muxers[m].groups;
    DisjointIsAlone(s.muxers, m, prefix);
    ChangeKeepsAgreement(s, m, prefix, change);
    var groups' := groups[prefix := Changed(groups[prefix], change)];
    assert groups' - {prefix} == groups - {prefix};
    DisjointStays(s.muxers, WithGroups(s.muxers, m, groups'), m, prefix);
  }

  lemma {:induction false} NewMuxerDoesNotMatter(muxers: seq<Muxer>, muxer: Muxer, d: nat, full: string, m: nat)
    requires d < |muxers| && Forest(muxers)
    ensures Query(muxers + [muxer], d, full) == Query(muxers, d, full)
    ensures Reaches(muxers + [muxer], d, m) <==> Reaches(muxers, d, m)
    decreases Depth(muxers, d)
  {
    hide QueryGroup, Split;
    assert Up(muxers + [muxer], d) == Up(muxers, d);
    if Up(muxers, d).Some? {
      NewMuxerDoesNotMatter(muxers, muxer, Up(muxers, d).value, full, m);
    }
  }

  lemma NewMuxerAgrees(s: State, parent: Option<nat>)
    requires Agree(s) && Forest(s.muxers) && ObserversOk(s)
    ensures Agree(Created(s, parent))
  {
    hide Query;
    var muxer := NewMuxerFor(s.muxers, parent);
    forall k | 0 <= k < |s.observers| ensures Agrees(s.muxers + [muxer], s.observers[k]) {
      assert Agrees(s.muxers, s.observers[k]);
      NewMuxerDoesNotMatter(s.muxers, muxer, s.observers[k].muxer, s.observers[k].name, 0);
    }
  }

  lemma NewMuxerKeeps(s: State, parent: Option<nat>)
    requires Good(s) && Enabled(s, NewMuxer(parent))
    ensures Good(Created(s, parent))
  {
    hide Query, Reaches, Agree;
    NewMuxerAgrees(s, parent);
    var muxer := NewMuxerFor(s.muxers, parent);
    var muxers' := s.muxers + [muxer];
    forall d: nat, m: nat, prefix | Reaches(muxers', d, m) && d != m && m < |muxers'| && prefix in muxers'[m].groups
      ensures d < |muxers'| && prefix !in muxers'[d].groups
    {
      ReachesIsUpwards(muxers', d, m);
      if d < |s.muxers| {
        NewMuxerDoesNotMatter(s.muxers, muxer, d, "", m);
      }
    }
  }

  lemma RegistersKeeps(s: State, m: nat, name: string)
    requires Agree(s) && m < |s.muxers|
    ensures Agree(Registered(s, m, name))
    ensures Good(s) ==> Good(Registered(s, m, name))
  {
    hide Query, Disjoint;
    var s' := Registered(s, m, name);
    forall k | 0 <= k < |s'.observers| ensures Agrees(s'.muxers, s'.observers[k]) {
      if k < |s.observers| {
        assert Agrees(s.muxers, s.observers[k]);
      }
    }
  }

  lemma SetsAccelKeeps(s: State, m: nat, actionAndTarget: string, accel: Option<string>)
    requires Agree(s) && m < |s.muxers| && '|' in actionAndTarget
    ensures Agree(AccelSet(s, m, actionAndTarget, accel))
    ensures Good(s) ==> Good(AccelSet(s, m, actionAndTarget, accel))
  {
    hide Query, Disjoint, LookupReaches, AfterLastBar;
    var muxers' := WithAccel(s.muxers, m, actionAndTarget, accel);
    var s' := AccelSet(s, m, actionAndTarget, accel);
    forall k | 0 <= k < |s.observers| ensures Agrees(muxers', s'.observers[k]) {
      assert Agrees(s.muxers, s.observers[k]);
      AccelsDoNotMatter(s.muxers, muxers', s.observers[k].muxer, s.observers[k].name);
    }
    if Disjoint(s.muxers) {
      SameGroupsStayDisjoint(s.muxers, muxers');
    }
  }

  /** After a muxer got another parent, every observer again knows what a query answers. */
  lemma ReparentKeeps(s: State, m: nat, parent: Option<nat>, lists: Lists)
    requires Good(s) && MayGet(s.muxers, m, parent) && ListsOk(s.muxers, m, parent, lists)
    requires Disjoint(WithParent(s.muxers, m, parent))
    ensures |Detached(s, m, lists).muxers| == |s.muxers|
    ensures Good(Reparented(s, m, parent, lists))
  {
    hide Disjoint, Detached, Attached, ReparentTellsTruth, ListsOk, Agrees;
    DetachedKeepsMuxers(s, m, lists);
    WithParentIsForest(s.muxers, m, parent);
    var s' := Reparented(s, m, parent, lists);
    if s.muxers[m].parent != parent {
      AttachedKeepsMuxers(Detached(s, m, lists).(muxers := WithParent(s.muxers, m, parent)), m, lists);
    }
    forall k | 0 <= k < |s.observers|
      ensures k < |s'.observers| && Agrees(s'.muxers, s'.observers[k])
      ensures s'.observers[k].muxer == s.observers[k].muxer
    {
      ReparentIsRightIff(s, m, parent, lists, k);
      DisjointTellsTruth(s.muxers, m, parent, s.observers[k]);
    }
  }

  /** Who observes what: observers come and go only when they register and unregister. */
  lemma ObserversAfter(s: State, step: Step)
    requires Sound(s) && Enabled(s, step)
    ensures var s' := Next(s, step);
            match step
            case Registers(m, name) =>
              s'.observers == s.observers + [Observer(m, name, Query(s.muxers, m, name), 0)]
            case Unregisters(k) => s'.observers == s.observers[..k] + s.observers[k + 1..]
            case _ =>
              && |s'.observers| == |s.observers|
              && forall k | 0 <= k < |s.observers| ::
                   s'.observers[k].muxer == s.observers[k].muxer && s'.observers[k].name == s.observers[k].name
  {
    hide RemovedGroup, NotifiedOfEach, LookupReaches, Query, ListsOk, Detached, Attached, AfterLastBar, Reaches, Forest,
      ObserversOk;
    match step
    case Inserts(m, prefix, actions) =>
      KeepsMuxers(s, m, prefix);
      RemovedKeepsObservers(s, m, prefix);
      RemovedKeepsNames(s, m, prefix);
      var s1 := RemovedGroup(s, m, prefix);
      var groups := s1.muxers[m].groups[prefix := actions];
      EachKeepsMuxers(s1.(muxers := WithGroups(s1.muxers, m, groups)), m, prefix, actions, Some(actions));
    case RemovesGroup(m, prefix) =>
      RemovedKeepsObservers(s, m, prefix);
      RemovedKeepsNames(s, m, prefix);
    case SetsParent(m, parent, lists) =>
      DetachedKeepsMuxers(s, m, lists);
      var s1 := Detached(s, m, lists);
      var s2 := s1.(muxers := WithParent(s1.muxers, m, parent));
      forall k | 0 <= k < |s.observers|
        ensures |s1.observers| == |s.observers| == |Attached(s2, m, lists).observers|
        ensures Attached(s2, m, lists).observers[k].muxer == s.observers[k].muxer
        ensures Attached(s2, m, lists).observers[k].name == s.observers[k].name
      {
        DetachedTells(s, m, lists, k);
        AttachedTells(s2, m, lists, k);
      }
      AttachedKeepsMuxers(s2, m, lists);
    case _ =>
  }

  lemma RemovedKeepsNames(s: State, m: nat, prefix: string)
    requires m < |s.muxers|
    ensures var s' := RemovedGroup(s, m, prefix);
            && |s'.observers| == |s.observers|
            && forall k | 0 <= k < |s.observers| :: s'.observers[k].name == s.observers[k].name
  {
    var groups := s.muxers[m].groups;
    if prefix in groups {
      EachKeepsMuxers(s.(muxers := WithGroups(s.muxers, m, groups - {prefix})), m, prefix, groups[prefix], None);
    }
  }

  /** A new muxer has nothing of its own: it finds what its parent finds. Nothing else changes. */
  lemma NewMuxerFinds(s: State, parent: Option<nat>, d: nat, full: string, key: string)
    requires Sound(s) && Enabled(s, NewMuxer(parent)) && d <= |s.muxers|
    ensures var n, muxers' := |s.muxers|, Next(s, NewMuxer(parent)).muxers;
            && |muxers'| == n + 1 && Up(muxers', n) == parent
            && (d < n ==> Up(muxers', d) == Up(s.muxers, d))
            && Query(muxers', d, full)
               == (if d < n then Query(s.muxers, d, full)
                   else if parent.Some? then Query(s.muxers, parent.value, full) else None)
            && GetPrimaryAccel(muxers', d, key)
               == (if d < n then GetPrimaryAccel(s.muxers, d, key)
                   else if parent.Some? then GetPrimaryAccel(s.muxers, parent.value, key) else None)
  {
    hide QueryGroup, Split;
    var n, muxer := |s.muxers|, NewMuxerFor(s.muxers, parent);
    if d < n {
      NewMuxerDoesNotMatter(s.muxers, muxer, d, full, 0);
      NewMuxerKeepsAccels(s.muxers, muxer, d, key);
    }
    if parent.Some? {
      NewMuxerDoesNotMatter(s.muxers, muxer, parent.value, full, 0);
      NewMuxerKeepsAccels(s.muxers, muxer, parent.value, key);
    }
  }

  lemma {:induction false} NewMuxerKeepsAccels(muxers: seq<Muxer>, muxer: Muxer, d: nat, key: string)
    requires d < |muxers| && Forest(muxers)
    ensures GetPrimaryAccel(muxers + [muxer], d, key) == GetPrimaryAccel(muxers, d, key)
    decreases Depth(muxers, d)
  {
    assert Up(muxers + [muxer], d) == Up(muxers, d);
    if Up(muxers, d).Some? {
      NewMuxerKeepsAccels(muxers, muxer, Up(muxers, d).value, key);
    }
  }

  /** What setting an accelerator comes to at any muxer: what is found there, and whether that is announced, once. */
  lemma AccelIsAnnounced(s: State, m: nat, actionAndTarget: string, accel: Option<string>, d: nat)
    requires Enabled(s, SetsAccel(m, actionAndTarget, accel)) && |s.accelSignals| == |s.muxers| && d < |s.muxers|
    ensures var s' := Next(s, SetsAccel(m, actionAndTarget, accel));
            var reached := LookupReaches(s.muxers, d, m, actionAndTarget);
            && |s'.muxers| == |s.muxers| == |s'.accelSignals|
            && s'.accelSignals[d] == s.accelSignals[d] + (if reached then 1 else 0)
            && GetPrimaryAccel(s'.muxers, d, actionAndTarget)
               == (if !reached then GetPrimaryAccel(s.muxers, d, actionAndTarget)
                   else if accel.Some? then accel
                   else if Up(s.muxers, m).Some? then GetPrimaryAccel(s.muxers, Up(s.muxers, m).value, actionAndTarget)
                   else None)
            && (forall other | other != actionAndTarget ::
                  GetPrimaryAccel(s'.muxers, d, other) == GetPrimaryAccel(s.muxers, d, other))
            && (forall full :: Query(s'.muxers, d, full) == Query(s.muxers, d, full))
  {
    hide Query, GetPrimaryAccel, LookupReaches, AfterLastBar;
    var s', muxers' := Next(s, SetsAccel(m, actionAndTarget, accel)), WithAccel(s.muxers, m, actionAndTarget, accel);
    assert s'.muxers == muxers';
    AccelIsExact(s.muxers, d, m, actionAndTarget, accel);
    FoundHere(s.muxers, m, actionAndTarget, accel);
    forall other | other != actionAndTarget
      ensures GetPrimaryAccel(muxers', d, other) == GetPrimaryAccel(s.muxers, d, other)
    {
      OtherAccelsStay(s.muxers, d, m, actionAndTarget, accel, other);
    }
    forall full ensures Query(muxers', d, full) == Query(s.muxers, d, full) {
      AccelsDoNotMatter(s.muxers, muxers', d, full);
    }
  }

  /** What `m` itself finds after its own entry was set or removed. */
  lemma FoundHere(muxers: seq<Muxer>, m: nat, actionAndTarget: string, accel: Option<string>)
    requires m < |muxers|
    ensures GetPrimaryAccel(WithAccel(muxers, m, actionAndTarget, accel), m, actionAndTarget)
            == if accel.Some? then accel
               else if Up(muxers, m).Some? then GetPrimaryAccel(muxers, Up(muxers, m).value, actionAndTarget)
               else None
  {
    var muxers' := WithAccel(muxers, m, actionAndTarget, accel);
    assert Up(muxers', m) == Up(muxers, m);
    if Up(muxers, m).Some? {
      var p := Up(muxers, m).value;
      AccelIsExact(muxers, p, m, actionAndTarget, accel);
      if LookupReaches(muxers, p, m, actionAndTarget) {
        LookupIsReach(muxers, p, m, actionAndTarget);
        ReachesIsUpwards(muxers, p, m);
      }
    }
  }

  /** For the text that an action is printed to, exactly the observers of that action hear, where it is announced. */
  lemma AccelWatchersHear(
    s: State, m: nat, nameSpace: Option<string>, name: string, target: Option<string>, accel: Option<string>, k: nat)
    requires PrintActionAndTarget(nameSpace, name, target).Some? && m < |s.muxers|
    requires ObserversOk(s) && k < |s.observers|
    ensures var printed := PrintActionAndTarget(nameSpace, name, target).value;
            var full := Qualified(nameSpace, name);
            && Enabled(s, SetsAccel(m, printed, accel))
            && var s', o := Next(s, SetsAccel(m, printed, accel)), s.observers[k];
            && |s'.accelSignals| == |s.accelSignals| && |s'.observers| == |s.observers|
            && var heard := o.name == full && s'.accelSignals[o.muxer] == s.accelSignals[o.muxer] + 1;
            && s'.observers[k] == o.(accelNotices := o.accelNotices + if heard then 1 else 0)
  {
    hide LookupReaches, AfterLastBar;
    PrintedNameIsFound(nameSpace, name, target);
  }

  lemma SameGroupsStayDisjoint(muxers: seq<Muxer>, muxers': seq<Muxer>)
    requires Disjoint(muxers) && |muxers'| == |muxers|
    requires forall i | 0 <= i < |muxers| :: SameLinks(muxers[i], muxers'[i]) && muxers'[i].groups == muxers[i].groups
    ensures Disjoint(muxers')
  {
    hide Reaches;
    forall d: nat, m: nat, prefix | Reaches(muxers', d, m) && d != m && m < |muxers'| && prefix in muxers'[m].groups
      ensures d < |muxers'| && prefix !in muxers'[d].groups
    {
      SameReach(muxers, muxers', d, m, m, prefix);
    }
  }

  lemma NextKeeps(s: State, step: Step)
    requires Good(s) && Enabled(s, step) && KeepsApart(s, step)
    ensures Good(Next(s, step))
  {
    hide Disjoint, Alone, Query, RemovedGroup, InsertedGroup, ChangedGroup, AccelSet, Registered, Created,
      Reparented, MayGet, ListsOk;
    match step
    case NewMuxer(parent) => NewMuxerKeeps(s, parent);
    case Inserts(m, prefix, actions) => InsertsKeeps(s, m, prefix, actions);
    case RemovesGroup(m, prefix) => RemovesKeeps(s, m, prefix);
    case Changes(m, prefix, change) => ChangesKeeps(s, m, prefix, change);
    case Registers(m, name) => RegistersKeeps(s, m, name);
    case Unregisters(_) =>
    case SetsAccel(m, actionAndTarget, accel) => SetsAccelKeeps(s, m, actionAndTarget, accel);
    case SetsParent(m, parent, lists) => ReparentKeeps(s, m, parent, lists);
  }

  const INITIAL := State([], [], [])

  /** What comes out of a run; a step that is not possible is left out. */
  ghost function After(steps: seq<Step>): State {
    if steps == [] then INITIAL
    else
      var s, step := After(steps[..|steps| - 1]), steps[|steps| - 1];
      if Enabled(s, step) then Next(s, step) else s
  }

  ghost predicate Run(steps: seq<Step>) {
    forall n | 0 <= n < |steps| :: Enabled(After(steps[..n]), steps[n])
  }

  /** A run that keeps prefixes disjoint. */
  ghost predicate DisjointRun(steps: seq<Step>) {
    Run(steps) && forall n | 0 <= n < |steps| :: KeepsApart(After(steps[..n]), steps[n])
  }

  lemma {:induction false} AllRunsAreGood(steps: seq<Step>)
    requires DisjointRun(steps)
    ensures Good(After(steps))
    decreases |steps|
  {
    hide Good, Next, Enabled, KeepsApart;
    if steps == [] {
      InitialIsGood();
    } else {
      var n := |steps| - 1;
      assert forall i | 0 <= i < n :: steps[..n][..i] == steps[..i];
      AllRunsAreGood(steps[..n]);
      NextKeeps(After(steps[..n]), steps[n]);
    }
  }

  lemma InitialIsGood()
    ensures Good(INITIAL)
  {
  }

  /** In every run that keeps prefixes disjoint, observers always know what a query would answer and the list shows. */
  lemma ObserversAreRight(steps: seq<Step>, k: nat)
    requires DisjointRun(steps) && k < |After(steps).observers|
    ensures var s, o := After(steps), After(steps).observers[k];
            && o.view == Query(s.muxers, o.muxer, o.name)
            && (o.view.Some? <==> IsListed(s.muxers, o.muxer, o.name))
  {
    hide Disjoint, Query, IsListed, After, DisjointRun;
    var s := After(steps);
    AllRunsAreGood(steps);
    assert Agrees(s.muxers, s.observers[k]);
    ListedIsQueried(s.muxers, s.observers[k].muxer, s.observers[k].name);
  }

  // ---------------------------------------------------------------- runs with any prefixes

  /** What holds in every run, whatever prefixes are used. */
  ghost predicate Sound(s: State) {
    && Forest(s.muxers) && ObserversOk(s)
    && forall m, prefix | 0 <= m < |s.muxers| && prefix in s.muxers[m].groups :: '.' !in prefix
  }

  /** What an observer that is right has to meet before a step so as to be right after it. */
  predicate TellsTruth(muxers: seq<Muxer>, step: Step, o: Observer) {
    match step
    case Inserts(m, prefix, actions) => m < |muxers| ==> InsertionTellsTruth(muxers, m, prefix, actions, o)
    case RemovesGroup(m, prefix) =>
      m < |muxers| && prefix in muxers[m].groups ==> RemovalTellsTruth(muxers, m, prefix, o)
    case Changes(m, prefix, change) => ChangeTellsTruth(muxers, m, prefix, change, o)
    case SetsParent(m, parent, _) => m < |muxers| ==> ReparentTellsTruth(muxers, m, parent, o)
    case _ => true
  }

  ghost predicate TellsAllTruth(s: State, step: Step) {
    forall k | 0 <= k < |s.observers| :: TellsTruth(s.muxers, step, s.observers[k])
  }

  lemma SwapStaysSound(s: State, s': State, m: nat, groups: map<string, seq<Action>>)
    requires Sound(s) && m < |s.muxers| && s'.muxers == WithGroups(s.muxers, m, groups)
    requires forall prefix | prefix in groups :: '.' !in prefix
    requires s'.accelSignals == s.accelSignals && |s'.observers| == |s.observers|
    requires forall k | 0 <= k < |s.observers| :: s'.observers[k].muxer == s.observers[k].muxer
    ensures Sound(s')
  {
  }

  lemma ReparentStaysSound(s: State, m: nat, parent: Option<nat>, lists: Lists)
    requires Sound(s) && MayGet(s.muxers, m, parent)
    ensures |Detached(s, m, lists).muxers| == |s.muxers|
    ensures Sound(Reparented(s, m, parent, lists))
  {
    hide Detached, Attached, Reaches;
    DetachedKeepsMuxers(s, m, lists);
    WithParentIsForest(s.muxers, m, parent);
    var s1 := Detached(s, m, lists);
    var s2 := s1.(muxers := WithParent(s1.muxers, m, parent));
    AttachedKeepsMuxers(s2, m, lists);
    forall k | 0 <= k < |s.observers| ensures Attached(s2, m, lists).observers[k].muxer == s.observers[k].muxer {
      DetachedTells(s, m, lists, k);
      AttachedTells(s2, m, lists, k);
    }
  }

  lemma StaysSound(s: State, step: Step)
    requires Sound(s) && Enabled(s, step)
    ensures Sound(Next(s, step))
  {
    hide RemovedGroup, NotifiedOfEach, LookupReaches, Query, MayGet, ListsOk, Detached, Reparented, AfterLastBar;
    match step
    case NewMuxer(parent) =>
    case Inserts(m, prefix, actions) =>
      KeepsMuxers(s, m, prefix);
      RemovedKeepsObservers(s, m, prefix);
      var s1 := RemovedGroup(s, m, prefix);
      var groups := s1.muxers[m].groups[prefix := actions];
      EachKeepsMuxers(s1.(muxers := WithGroups(s1.muxers, m, groups)), m, prefix, actions, Some(actions));
      SwapStaysSound(s, Next(s, step), m, groups);
    case RemovesGroup(m, prefix) =>
      KeepsMuxers(s, m, prefix);
      RemovedKeepsObservers(s, m, prefix);
      SwapStaysSound(s, Next(s, step), m, s.muxers[m].groups - {prefix});
    case Changes(m, prefix, change) =>
      SwapStaysSound(s, Next(s, step), m, s.muxers[m].groups[prefix := Changed(s.muxers[m].groups[prefix], change)]);
    case Registers(_, _) =>
    case Unregisters(_) =>
    case SetsAccel(_, _, _) =>
    case SetsParent(m, parent, lists) => ReparentStaysSound(s, m, parent, lists);
  }

  /** Whether a step that changes groups or parents tells an observer the truth is asked for each one by itself. */
  lemma ObserverIsRightIff(s: State, step: Step, k: nat)
    requires Sound(s) && Agree(s) && Enabled(s, step) && k < |s.observers|
    requires step.Inserts? || step.RemovesGroup? || step.Changes? || step.SetsParent?
    ensures var s' := Next(s, step);
            && |s'.observers| == |s.observers|
            && (Agrees(s'.muxers, s'.observers[k]) <==> TellsTruth(s.muxers, step, s.observers[k]))
  {
    hide RemovedGroup, InsertedGroup, ChangedGroup, Reparented, ListsOk, Agrees, QueryGroup, Forest, Reaches,
      InsertionTellsTruth, RemovalTellsTruth, ChangeTellsTruth, ReparentTellsTruth;
    assert Agrees(s.muxers, s.observers[k]);
    match step
    case Inserts(m, prefix, actions) => InsertionIsRightIff(s, m, prefix, actions, k);
    case RemovesGroup(m, prefix) =>
      if prefix in s.muxers[m].groups {
        RemovalIsRightIff(s, m, prefix, k);
      } else {
        NothingToRemove(s, m, prefix);
      }
    case Changes(m, prefix, change) => ChangeIsRightIff(s, m, prefix, change, k);
    case SetsParent(m, parent, lists) => ReparentIsRightIff(s, m, parent, lists, k);
  }

  /** A step leaves all observers right if and only if what it tells each of them is the truth. */
  lemma StepIsRightIff(s: State, step: Step)
    requires Sound(s) && Agree(s) && Enabled(s, step)
    ensures Agree(Next(s, step)) <==> TellsAllTruth(s, step)
  {
    hide Agrees, Next, Enabled, TellsTruth, Sound;
    if step.Inserts? || step.RemovesGroup? || step.Changes? || step.SetsParent? {
      forall k | 0 <= k < |s.observers|
        ensures |Next(s, step).observers| == |s.observers|
        ensures Agrees(Next(s, step).muxers, Next(s, step).observers[k]) <==> TellsTruth(s.muxers, step, s.observers[k])
      {
        ObserverIsRightIff(s, step, k);
      }
      SameObservers(s, step);
    } else {
      OtherStepsAreRight(s, step);
    }
  }

  lemma SameObservers(s: State, step: Step)
    requires Enabled(s, step) && (step.Inserts? || step.RemovesGroup? || step.Changes? || step.SetsParent?)
    ensures |Next(s, step).observers| == |s.observers|
  {
    hide RemovedGroup, Detached, Attached, ListsOk, Forest, Reaches, QueryGroup, Changed, NotifiedOfEach;
    match step
    case Inserts(m, prefix, actions) =>
      KeepsMuxers(s, m, prefix);
      RemovedKeepsObservers(s, m, prefix);
      var s1 := RemovedGroup(s, m, prefix);
      var groups := s1.muxers[m].groups[prefix := actions];
      EachKeepsMuxers(s1.(muxers := WithGroups(s1.muxers, m, groups)), m, prefix, actions, Some(actions));
    case RemovesGroup(m, prefix) => RemovedKeepsObservers(s, m, prefix);
    case Changes(_, _, _) =>
    case SetsParent(m, parent, lists) =>
      DetachedKeepsMuxers(s, m, lists);
      AttachedKeepsMuxers(Detached(s, m, lists).(muxers := WithParent(s.muxers, m, parent)), m, lists);
  }

  lemma OtherStepsAreRight(s: State, step: Step)
    requires Sound(s) && Agree(s) && Enabled(s, step)
    requires step.NewMuxer? || step.Registers? || step.Unregisters? || step.SetsAccel?
    ensures Agree(Next(s, step)) && TellsAllTruth(s, step)
  {
    hide Agrees, AccelSet, Registered, Created;
    match step
    case NewMuxer(parent) => NewMuxerAgrees(s, parent);
    case Registers(m, name) => RegistersKeeps(s, m, name);
    case Unregisters(_) =>
    case SetsAccel(m, actionAndTarget, accel) => SetsAccelKeeps(s, m, actionAndTarget, accel);
  }

  /**
   In a run, with whatever prefixes, observers know all the time what a query answers if and only if every step tells
   them the truth.
  */
  lemma RunIsRightIff(steps: seq<Step>)
    requires Run(steps)
    ensures (forall n | 0 <= n <= |steps| :: Agree(After(steps[..n])))
            <==> forall n | 0 <= n < |steps| :: TellsAllTruth(After(steps[..n]), steps[n])
  {
    hide Agree, TellsAllTruth, After, Next, Enabled, Sound;
    if forall n | 0 <= n < |steps| :: TellsAllTruth(After(steps[..n]), steps[n]) {
      forall n | 0 <= n <= |steps| ensures Agree(After(steps[..n])) {
        RightSoFar(steps, n);
      }
    }
    if forall n | 0 <= n <= |steps| :: Agree(After(steps[..n])) {
      forall n | 0 <= n < |steps| ensures TellsAllTruth(After(steps[..n]), steps[n]) {
        AllRunsAreSound(steps, n);
        AfterOneMore(steps, n);
        StepIsRightIff(After(steps[..n]), steps[n]);
        assert Agree(After(steps[..n + 1]));
      }
    }
  }

  lemma AfterOneMore(steps: seq<Step>, n: nat)
    requires Run(steps) && n < |steps|
    ensures After(steps[..n + 1]) == Next(After(steps[..n]), steps[n])
  {
    hide Enabled, Next;
    assert steps[..n + 1][..n] == steps[..n];
  }

  lemma {:induction false} AllRunsAreSound(steps: seq<Step>, n: nat)
    requires Run(steps) && n <= |steps|
    ensures Sound(After(steps[..n]))
  {
    hide Sound, Next, Enabled;
    if n == 0 {
      InitialIsSound();
    } else {
      AllRunsAreSound(steps, n - 1);
      AfterOneMore(steps, n - 1);
      StaysSound(After(steps[..n - 1]), steps[n - 1]);
    }
  }

  lemma InitialIsSound()
    ensures Sound(INITIAL) && Agree(INITIAL)
  {
  }

  lemma {:induction false} RightSoFar(steps: seq<Step>, n: nat)
    requires Run(steps) && n <= |steps|
    requires forall i | 0 <= i < n :: TellsAllTruth(After(steps[..i]), steps[i])
    ensures Agree(After(steps[..n]))
  {
    hide Agree, TellsAllTruth, Next, Enabled, Sound;
    if n == 0 {
      InitialIsSound();
    } else {
      RightSoFar(steps, n - 1);
      AllRunsAreSound(steps, n - 1);
      AfterOneMore(steps, n - 1);
      StepIsRightIff(After(steps[..n - 1]), steps[n - 1]);
    }
  }

  /** All muxers, and those who observe actions of theirs. */
  class Muxers {
    var muxers: seq<Muxer>
    var observers: seq<Observer>
    var accelSignals: seq<nat>

    ghost function View(): State
      reads this
    {
      State(muxers, observers, accelSignals)
    }

    constructor ()
      ensures View() == INITIAL && Good(View())
    {
      muxers, observers, accelSignals := [], [], [];
      new;
      InitialIsGood();
    }

    /** Tells the observers at `d` of a notice that started at `m`, and then the children of `d`. */
    method Tell(d: nat, m: nat, full: string, notice: Notice)
      requires d < |muxers| && Reaches(muxers, d, m)
      modifies this`observers
      ensures observers == ToldBelow(muxers, old(observers), d, m, full, notice)
      decreases Bound(muxers) - Depth(muxers, d)
    {
      hide Told, Reaches, Arriving, ToldSoFar, ToldBelow;
      ghost var was := observers;
      TellHere(d, m, full, notice);
      var c := 0;
      while c < |muxers|
        invariant 0 <= c <= |muxers|
        invariant observers == ToldSoFar(muxers, was, d, c, m, full, notice)
      {
        ToldByChild(muxers, was, d, c, m, full, notice);
        if Up(muxers, c) == Some(d) {
          ReachesParent(muxers, c, d, m);
          Tell(c, m, full, notice);
        }
        c := c + 1;
      }
      ToldByAll(muxers, was, d, m, full, notice);
    }

    method TellHere(d: nat, m: nat, full: string, notice: Notice)
      requires d < |muxers| && Reaches(muxers, d, m)
      modifies this`observers
      ensures observers == ToldSoFar(muxers, old(observers), d, 0, m, full, notice)
    {
      hide Query, Fold;
      var heard, k := Arriving(muxers, d, m, full, notice), 0;
      ghost var was := observers;
      while k < |observers|
        invariant 0 <= k <= |observers| == |was|
        invariant forall i | 0 <= i < k ::
                    observers[i] == if was[i].muxer == d then Told(muxers, was[i], m, full, notice) else was[i]
        invariant forall i | k <= i < |was| :: observers[i] == was[i]
      {
        var o := observers[k];
        if o.muxer == d && o.name == full && heard.Some? {
          observers := observers[k := o.(view := Fold(o.view, heard.value))];
        }
        k := k + 1;
      }
      assert Reaches(muxers, d, d);
    }

    method Emit(m: nat, full: string, notice: Notice)
      requires m < |muxers|
      modifies this`observers
      ensures View() == Notified(old(View()), m, full, notice)
    {
      hide Arriving;
      Tell(m, m, full, notice);
      assert observers == Notified(old(View()), m, full, notice).observers;
    }

    /** One notice for each of some actions of a group of `m`, whose actions now are `all`. */
    method EmitEach(m: nat, prefix: string, actions: seq<Action>, all: Option<seq<Action>>)
      requires m < |muxers|
      modifies this`observers
      ensures View() == NotifiedOfEach(old(View()), m, prefix, actions, all)
    {
      hide Notified, FullName, NoticeOf;
      var i := 0;
      while i < |actions|
        invariant 0 <= i <= |actions| && muxers == old(muxers)
        invariant View() == NotifiedOfEach(old(View()), m, prefix, actions[..i], all)
      {
        assert actions[..i + 1][..i] == actions[..i];
        Emit(m, FullName(prefix, actions[i].name), NoticeOf(all, actions[i].name));
        i := i + 1;
      }
      assert actions[..i] == actions;
    }

    /** The new groups of one muxer. */
    method SetGroups(m: nat, groups: map<string, seq<Action>>)
      requires m < |muxers|
      modifies this`muxers
      ensures muxers == WithGroups(old(muxers), m, groups)
    {
      muxers := muxers[m := muxers[m].(groups := groups)];
    }

    method New(parent: Option<nat>) returns (m: nat)
      requires Good(View()) && Enabled(View(), NewMuxer(parent))
      modifies this
      ensures View() == Created(old(View()), parent) && m == |old(muxers)| && Good(View())
    {
      hide Good, Disjoint;
      NewMuxerKeeps(View(), parent);
      m := |muxers|;
      muxers := muxers + [NewMuxerFor(muxers, parent)];
      accelSignals := accelSignals + [0];
    }

    method Remove(m: nat, prefix: string)
      requires m < |muxers|
      modifies this`muxers, this`observers
      ensures View() == RemovedGroup(old(View()), m, prefix)
      ensures Good(old(View())) ==> Good(View())
    {
      hide Good, NotifiedOfEach;
      ghost var was := View();
      if prefix in muxers[m].groups {
        var actions := muxers[m].groups[prefix];
        SetGroups(m, muxers[m].groups - {prefix});
        EmitEach(m, prefix, actions, None);
      }
      if Good(was) {
        RemovesKeeps(was, m, prefix);
      }
    }

    method Insert(m: nat, prefix: string, actions: seq<Action>)
      requires m < |muxers| && '.' !in prefix
      modifies this`muxers, this`observers
      ensures View() == InsertedGroup(old(View()), m, prefix, actions)
      ensures Good(old(View())) && Alone(old(muxers), m, prefix) ==> Good(View())
    {
      hide Good, NotifiedOfEach, RemovedGroup, Alone;
      ghost var was := View();
      KeepsMuxers(was, m, prefix);
      Remove(m, prefix);
      SetGroups(m, muxers[m].groups[prefix := actions]);
      EmitEach(m, prefix, actions, Some(actions));
      if Good(was) && Alone(was.muxers, m, prefix) {
        InsertsKeeps(was, m, prefix, actions);
      }
    }

    /** A group of `m` reports a change of its own. */
    method OnGroupChanged(m: nat, prefix: string, change: Change)
      requires Enabled(View(), Changes(m, prefix, change))
      modifies this`muxers, this`observers
      ensures View() == ChangedGroup(old(View()), m, prefix, change)
      ensures Good(old(View())) ==> Good(View())
    {
      hide Good, Notified, Changed, QueryGroup, FullName;
      ghost var was := View();
      var groups := muxers[m].groups;
      SetGroups(m, groups[prefix := Changed(groups[prefix], change)]);
      Emit(m, FullName(prefix, NameOf(change)), NoticeFor(change));
      if Good(was) {
        ChangesKeeps(was, m, prefix, change);
      }
    }

    method RegisterObserver(m: nat, name: string)
      requires m < |muxers|
      modifies this`observers
      ensures View() == Registered(old(View()), m, name)
      ensures Good(old(View())) ==> Good(View())
    {
      hide Good, Query;
      ghost var was := View();
      observers := observers + [Observer(m, name, Query(muxers, m, name), 0)];
      if Good(was) {
        GoodAgrees(was);
        RegistersKeeps(was, m, name);
      }
    }

    /** Announces an accelerator at `d`, and wherever the lookup comes up to `d` from. */
    method EmitPrimaryAccelChanged(d: nat, actionAndTarget: string, name: string)
      requires d < |muxers| && |accelSignals| == |muxers|
      modifies this`observers, this`accelSignals
      ensures View() == AccelNotified(old(View()), d, actionAndTarget, name)
      decreases Bound(muxers) - Depth(muxers, d)
    {
      hide AccelHeard, LookupReaches, AccelSoFar;
      ghost var was := View();
      EmitAccelHere(d, actionAndTarget, name);
      var c := 0;
      while c < |muxers|
        invariant 0 <= c <= |muxers| == |accelSignals| && muxers == was.muxers
        invariant View() == AccelSoFar(was, d, c, actionAndTarget, name)
      {
        AccelByChild(was, d, c, actionAndTarget, name);
        if Up(muxers, c) == Some(d) && actionAndTarget !in muxers[c].accels {
          EmitPrimaryAccelChanged(c, actionAndTarget, name);
        }
        c := c + 1;
      }
      AccelByAll(was, d, actionAndTarget, name);
    }

    method EmitAccelHere(d: nat, actionAndTarget: string, name: string)
      requires d < |muxers| && |accelSignals| == |muxers|
      modifies this`observers, this`accelSignals
      ensures View() == AccelSoFar(old(View()), d, 0, actionAndTarget, name)
      ensures |accelSignals| == |muxers|
    {
      hide LookupReaches, Through;
      var k := 0;
      ghost var was := View();
      while k < |observers|
        invariant 0 <= k <= |observers| == |was.observers| && accelSignals == was.accelSignals
        invariant forall i | 0 <= i < k ::
                    observers[i] == if was.observers[i].muxer == d && was.observers[i].name == name
                                    then was.observers[i].(accelNotices := was.observers[i].accelNotices + 1)
                                    else was.observers[i]
        invariant forall i | k <= i < |observers| :: observers[i] == was.observers[i]
      {
        var o := observers[k];
        if o.muxer == d && o.name == name {
          observers := observers[k := o.(accelNotices := o.accelNotices + 1)];
        }
        k := k + 1;
      }
      accelSignals := accelSignals[d := accelSignals[d] + 1];
      AccelHeardHere(muxers, d, actionAndTarget);
      assert accelSignals == AccelSoFar(was, d, 0, actionAndTarget, name).accelSignals;
      assert observers == AccelSoFar(was, d, 0, actionAndTarget, name).observers;
    }

    /** The full names of all actions here and further up. */
    method ListActions(m: nat) returns (names: seq<string>)
      requires m < |muxers|
      ensures forall full :: full in names <==> IsListed(muxers, m, full)
      decreases Depth(muxers, m)
    {
      names := [];
      var groups := muxers[m].groups;
      var prefixes := groups.Keys;
      while prefixes != {}
        invariant prefixes <= groups.Keys
        invariant forall full :: full in names <==> ListedUnder(groups, groups.Keys - prefixes, full)
        decreases |prefixes|
      {
        var prefix :| prefix in prefixes;
        var more := NamesOf(prefix, groups[prefix]);
        names := names + more;
        assert groups.Keys - (prefixes - {prefix}) == groups.Keys - prefixes + {prefix};
        prefixes := prefixes - {prefix};
      }
      assert groups.Keys - prefixes == groups.Keys;
      var up := Up(muxers, m);
      if up.Some? {
        var above := ListActions(up.value);
        names := names + above;
      }
    }

    static method NamesOf(prefix: string, actions: seq<Action>) returns (names: seq<string>)
      ensures forall full ::
                full in names <==> exists i | 0 <= i < |actions| :: full == FullName(prefix, actions[i].name)
    {
      names := [];
      var i := 0;
      while i < |actions|
        invariant 0 <= i <= |actions| && |names| == i
        invariant forall j | 0 <= j < i :: names[j] == FullName(prefix, actions[j].name)
      {
        names := names + [FullName(prefix, actions[i].name)];
        i := i + 1;
      }
    }

    /** All actions that have an accelerator here or further up; an action can appear more than once. */
    method ListAccels(m: nat) returns (keys: seq<string>)
      requires m < |muxers|
      ensures forall key :: key in keys <==> GetPrimaryAccel(muxers, m, key).Some?
      decreases Depth(muxers, m)
    {
      keys := [];
      var left := muxers[m].accels.Keys;
      while left != {}
        invariant left <= muxers[m].accels.Keys
        invariant forall key :: key in keys <==> key in muxers[m].accels.Keys - left
        decreases |left|
      {
        var key :| key in left;
        keys := keys + [key];
        left := left - {key};
      }
      var up := Up(muxers, m);
      if up.Some? {
        var above := ListAccels(up.value);
        keys := keys + above;
      }
    }

    method TellOfNames(d: nat, m: nat, names: seq<string>, notice: Notice)
      requires d < |muxers| && Reaches(muxers, d, m)
      modifies this`observers
      ensures View() == NotifiedOfNames(old(View()), d, m, names, notice)
    {
      hide ToldBelow, Reaches;
      var i := 0;
      while i < |names|
        invariant 0 <= i <= |names| && muxers == old(muxers)
        invariant View() == NotifiedOfNames(old(View()), d, m, names[..i], notice)
      {
        assert names[..i + 1][..i] == names[..i];
        Tell(d, m, names[i], notice);
        i := i + 1;
      }
      assert names[..i] == names;
    }

    method EmitAccels(m: nat, keys: seq<string>)
      requires m < |muxers| && |accelSignals| == |muxers|
      modifies this`observers, this`accelSignals
      ensures View() == AccelsNotified(old(View()), m, keys) && |accelSignals| == |muxers|
    {
      hide AccelNotified, AfterLastBar;
      ghost var was := View();
      var i := 0;
      while i < |keys|
        invariant 0 <= i <= |keys| && muxers == was.muxers && |accelSignals| == |muxers|
        invariant View() == AccelsNotified(was, m, keys[..i])
      {
        assert keys[..i + 1][..i] == keys[..i];
        AccelsKeepViews(was, m, keys[..i + 1]);
        if '|' in keys[i] {
          EmitPrimaryAccelChanged(m, keys[i], AfterLastBar(keys[i]));
        }
        i := i + 1;
      }
      assert keys[..i] == keys;
    }

    /** `lists` are the actions and accelerators that were announced. */
    method SetParent(m: nat, parent: Option<nat>) returns (ghost lists: Lists)
      requires MayGet(muxers, m, parent) && |accelSignals| == |muxers|
      modifies this
      ensures ListsOk(old(muxers), m, parent, lists)
      ensures |Detached(old(View()), m, lists).muxers| == |old(muxers)|
      ensures View() == Reparented(old(View()), m, parent, lists)
      ensures Good(old(View())) && Disjoint(WithParent(old(muxers), m, parent)) ==> Good(View())
    {
      hide Disjoint, IsListed, GetPrimaryAccel, NotifiedOfNames, AccelsNotified, Reaches, Good;
      ghost var was := View();
      var oldUp := Up(muxers, m);
      var gone, goneAccels, come, comeAccels := [], [], [], [];
      if oldUp.Some? {
        gone := ListActions(oldUp.value);
        goneAccels := ListAccels(oldUp.value);
      }
      if parent.Some? {
        come := ListActions(parent.value);
        comeAccels := ListAccels(parent.value);
      }
      lists := Lists(gone, goneAccels, come, comeAccels);
      DetachedKeepsMuxers(was, m, lists);
      if Good(was) && Disjoint(WithParent(was.muxers, m, parent)) {
        ReparentKeeps(was, m, parent, lists);
      }
      if muxers[m].parent != parent {
        if oldUp.Some? {
          ReachesItself(muxers, m);
          TellOfNames(m, m, gone, Removed);
          EmitAccels(m, goneAccels);
        }
        muxers := WithParent(muxers, m, parent);
        UpAfter(was.muxers, m, parent, m);
        if parent.Some? {
          ReachesUp(muxers, m);
          TellOfNames(m, parent.value, come, SOME_ACTION);
          EmitAccels(m, comeAccels);
        }
      }
    }

    method SetPrimaryAccel(m: nat, actionAndTarget: string, accel: Option<string>)
      requires m < |muxers| && |accelSignals| == |muxers| && '|' in actionAndTarget
      modifies this
      ensures View() == Next(old(View()), SetsAccel(m, actionAndTarget, accel))
      ensures Good(old(View())) ==> Good(View())
    {
      hide Good, AccelNotified, AfterLastBar;
      ghost var was := View();
      var accels := muxers[m].accels;
      if accel.Some? {
        accels := accels[actionAndTarget := accel.value];
      } else {
        accels := accels - {actionAndTarget};
      }
      muxers := muxers[m := Muxer(muxers[m].parent, muxers[m].depth, muxers[m].groups, accels)];
      EmitPrimaryAccelChanged(m, actionAndTarget, AfterLastBar(actionAndTarget));
      if Good(was) {
        GoodAgrees(was);
        SetsAccelKeeps(was, m, actionAndTarget, accel);
      }
    }
  }

  /** Listed by one of the groups with these prefixes. */
  ghost predicate ListedUnder(groups: map<string, seq<Action>>, prefixes: set<string>, full: string) {
    exists prefix | prefix in groups && prefix in prefixes ::
      exists i | 0 <= i < |groups[prefix]| :: full == FullName(prefix, groups[prefix][i].name)
  }

  lemma ReachesItself(muxers: seq<Muxer>, m: nat)
    ensures Reaches(muxers, m, m)
  {
  }

  lemma AccelHeardHere(muxers: seq<Muxer>, d: nat, actionAndTarget: string)
    ensures forall x: nat :: AccelHeard(muxers, x, d, 0, actionAndTarget) <==> x == d
  {
  }

  lemma ReachesParent(muxers: seq<Muxer>, c: nat, d: nat, m: nat)
    requires Up(muxers, c) == Some(d) && Reaches(muxers, d, m)
    ensures Reaches(muxers, c, m)
  {
  }
}
