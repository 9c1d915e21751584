/** An application: its state, its windows, and the lazily sorted list of them. */
module ShellApps {
  import opened Options
  import opened Sequences
  import opened WindowOrder

  datatype AppState = Stopped | Starting | Running

  datatype RunningState = RunningState(windows: seq<Window>, interesting: int, stale: bool)

  /** `startedOn` is the workspace for the first window to come, or -1. */
  datatype App = App(state: AppState, running: Option<RunningState>, startedOn: int)

  const NEW := App(Stopped, None, -1)

  function Windows(app: App): seq<Window> {
    if app.running.Some? then app.running.value.windows else []
  }

  // ---------------------------------------------------------------- what the handlers do

  function Transition(app: App, state: AppState): App {
    if app.state == Running && state == Starting then app else app.(state := state)
  }

  function SyncRunningState(app: App): App
    requires app.running.Some?
  {
    if app.state == Starting then app
    else Transition(app, if app.running.value.interesting == 0 then Stopped else Running)
  }

  function Changed(app: App, running: RunningState): App {
    SyncRunningState(app.(running := Some(running)))
  }

  function AddWindow(app: App, world: World, w: Window): App {
    if w in Windows(app) then app
    else
      var r := if app.running.Some? then app.running.value else RunningState([], 0, false);
      Changed(app, RunningState([w] + r.windows, r.interesting + if Interesting(world, w) then 1 else 0, true))
      .(startedOn := -1)
  }

  /** A new window goes to the workspace that the application was started on. */
  predicate Places(app: App, world: World, w: Window) {
    w !in Windows(app) && app.startedOn >= 0 && !world.of(w).onAllWorkspaces
  }

  function WorldAfterAdd(app: App, world: World, w: Window): World {
    if Places(app, world, w) then Moved(world, w, app.startedOn) else world
  }

  /**
   The first new window after an application was started on a workspace goes there, if it is not on all of them; the
   next ones do not, until it is started again.
  */
  lemma FirstWindowIsPlaced(app: App, world: World, workspace: int, w: Window, x: Window, world'': World)
    requires w !in Windows(app) && workspace >= 0
    ensures var app1 := HandleStartup(app, true, workspace);
            var world', app2 := WorldAfterAdd(app1, world, w), AddWindow(app1, world, w);
            && world'.active == world.active
            && (forall y | y != w :: world'.of(y) == world.of(y))
            && world'.of(w)
               == (if world.of(w).onAllWorkspaces then world.of(w) else world.of(w).(workspace := workspace))
            && WorldAfterAdd(app2, world'', x) == world''
  {
  }

  /** Without that, a window stays where it is; so does one that the application has already. */
  lemma OthersAreNotPlaced(app: App, world: World, w: Window)
    requires w in Windows(app) || app.startedOn < 0
    ensures WorldAfterAdd(app, world, w) == world
  {
  }

  /** An application that runs never goes back to starting; any other state is taken. */
  lemma NeverBackToStarting(app: App, to: AppState)
    ensures var app' := Transition(app, to);
            && app' == app.(state := app'.state)
            && app'.state == if app.state == Running && to == Starting then Running else to
  {
  }

  function RemoveWindow(app: App, world: World, w: Window): App {
    if w !in Windows(app) then app
    else
      var r := app.running.value;
      var windows := Without(r.windows, w);
      var interesting := r.interesting - if Interesting(world, w) then 1 else 0;
      var app1 := Changed(app, RunningState(windows, interesting, r.stale));
      if windows == [] then app1.(running := None) else app1
  }

  function MappedChanged(app: App, world: World, w: Window): App {
    if w !in Windows(app) then app
    else
      var r := app.running.value;
      var change := if world.of(w).skipTaskbar then 0 else if world.of(w).mapped then 1 else -1;
      Changed(app, r.(interesting := r.interesting + change))
  }

  function SkipTaskbarChanged(app: App, world: World, w: Window): App {
    if w !in Windows(app) then app
    else
      var r := app.running.value;
      var change := if !world.of(w).mapped then 0 else if world.of(w).skipTaskbar then -1 else 1;
      Changed(app, r.(interesting := r.interesting + change))
  }

  function UserTimeChanged(app: App, w: Window): App {
    if w !in Windows(app) || app.running.value.windows[0] == w then app
    else app.(running := Some(app.running.value.(stale := true)))
  }

  function WorkspaceSwitched(app: App): App {
    if app.running == None then app else app.(running := Some(app.running.value.(stale := true)))
  }

  function HandleStartup(app: App, starting: bool, workspace: int): App {
    if starting then
      (if app.state == Stopped then Transition(app, Starting) else app).(startedOn := workspace)
    else Transition(app, if Windows(app) != [] then Running else Stopped)
  }

  /** Sorts the windows if that is due. */
  function Refreshed(app: App, world: World): App {
    if app.running == None || !app.running.value.stale then app
    else
      var r := app.running.value;
      app.(running := Some(r.(windows := Sort(world, r.windows), stale := false)))
  }

  function Shown(world: World, windows: seq<Window>): seq<Window> {
    if windows == [] then []
    else
      Shown(world, windows[..|windows| - 1])
      + if world.of(windows[|windows| - 1]).overrideRedirect then [] else [windows[|windows| - 1]]
  }

  /** Shown are all windows but those with override-redirect, in their order. */
  lemma {:induction false} ShownPicks(world: World, windows: seq<Window>) returns (at: seq<nat>)
    ensures Increasing(at) && |at| == |Shown(world, windows)|
    ensures forall i | 0 <= i < |at| :: at[i] < |windows| && Shown(world, windows)[i] == windows[at[i]]
    ensures forall k | 0 <= k < |windows| :: k in at <==> !world.of(windows[k]).overrideRedirect
  {
    at := [];
    if windows != [] {
      var n := |windows| - 1;
      var before := ShownPicks(world, windows[..n]);
      at := before + if world.of(windows[n]).overrideRedirect then [] else [n];
      forall k | 0 <= k < |windows| ensures k in at <==> !world.of(windows[k]).overrideRedirect {
        if k < n {
          assert windows[..n][k] == windows[k];
          assert k in before <==> k in at;
        }
      }
      assert forall i | 0 <= i < |before| ::
          at[i] == before[i] && Shown(world, windows)[i] == Shown(world, windows[..n])[i];
    }
  }

  function Disposed(app: App, world: World): App
    decreases |Windows(app)|
  {
    if Windows(app) == [] then app
    else
      CutShortens(Windows(app));
      Disposed(RemoveWindow(app, world, Windows(app)[0]), world)
  }

  lemma CutShortens(s: seq<Window>)
    requires s != []
    ensures Without(s, s[0]) == s[1..]
  {
  }

  // ---------------------------------------------------------------- the invariant

  /** The counter counts, a stopped application shows nothing, a running one has windows. */
  ghost predicate CountOk(app: App, world: World) {
    && Distinct(Windows(app))
    && (app.running.Some? ==>
          Windows(app) != [] && app.running.value.interesting == CountInteresting(world, Windows(app)))
    && (app.state == Stopped ==> CountInteresting(world, Windows(app)) == 0)
    && (app.state == Running ==> app.running.Some?)
  }

  /** Unless it is due for sorting, the list is in order. */
  ghost predicate OrderOk(app: App, world: World) {
    app.running.Some? && !app.running.value.stale ==> Sorted(world, app.running.value.windows)
  }

  /** The windows whose order is taken for right. */
  function Settled(app: App): seq<Window> {
    if app.running.Some? && !app.running.value.stale then app.running.value.windows else []
  }

  /** The window is the only thing that changed. */
  ghost predicate OnlyDiffer(world: World, world': World, w: Window) {
    world'.active == world.active && forall x | x != w :: world'.of(x) == world.of(x)
  }

  /** The invariant stays; the order stays right if it was; and a running application never goes back to starting. */
  ghost predicate Kept(app: App, world: World, app': App, world': World) {
    && CountOk(app', world')
    && (OrderOk(app, world) ==> OrderOk(app', world'))
    && (app.state == Running ==> app'.state != Starting)
  }

  /** Removing a window leaves the others in their order, and the list as settled as it was. */
  lemma RemovalKeepsOrder(app: App, world: World, w: Window)
    ensures Windows(RemoveWindow(app, world, w)) == Without(Windows(app), w)
    ensures Settled(RemoveWindow(app, world, w)) == Without(Settled(app), w)
  {
    WithoutAbsentIsSame(Windows(app), w);
    WithoutAbsentIsSame(Settled(app), w);
  }

  lemma WithoutAbsentIsSame(s: seq<Window>, w: Window)
    ensures w !in s ==> Without(s, w) == s
  {
    if w !in s {
      WithoutAbsent(s, w);
    }
  }

  // ---------------------------------------------------------------- what keeps it

  lemma AddWindowKeeps(app: App, world: World, w: Window)
    requires CountOk(app, world)
    ensures var app', world' := AddWindow(app, world, w), WorldAfterAdd(app, world, w);
            && Kept(app, world, app', world') && OnlyDiffer(world, world', w)
            && (forall x :: x in Windows(app') <==> x in Windows(app) || x == w)
  {
    hide Sorted;
    if w !in Windows(app) {
      var app', world' := AddWindow(app, world, w), WorldAfterAdd(app, world, w);
      assert Windows(app') == [w] + Windows(app);
      assert Windows(app')[1..] == Windows(app);
      CountAfterChange(world, world', Windows(app'), w);
    }
  }

  lemma RemoveWindowKeeps(app: App, world: World, w: Window)
    requires CountOk(app, world)
    ensures var app' := RemoveWindow(app, world, w);
            && Kept(app, world, app', world)
            && (forall x :: x in Windows(app') <==> x in Windows(app) && x != w)
  {
    hide Sorted, Without;
    if w in Windows(app) {
      CountWithout(world, Windows(app), w);
      WithoutIsTheRest(Windows(app), w);
      if OrderOk(app, world) && !app.running.value.stale {
        WithoutStaysSorted(world, Windows(app), w);
      }
    }
  }

  /** Mapping or unmapping a window leaves the order alone. */
  lemma InterestChangeKeepsOrder(world: World, world': World, s: seq<Window>, w: Window)
    requires Sorted(world, s) && OnlyDiffer(world, world', w)
    requires world'.of(w).workspace == world.of(w).workspace && world'.of(w).showing == world.of(w).showing
             && world'.of(w).userTime == world.of(w).userTime
    ensures Sorted(world', s)
  {
    forall i, j | 0 <= i < j < |s| ensures Compare(world', s[i], s[j]) <= 0 {
      assert Compare(world, s[i], s[j]) <= 0;
    }
  }

  lemma MappedChangedKeeps(app: App, world: World, w: Window)
    requires CountOk(app, world)
    ensures var a := world.of(w);
            var world' := With(world, w, a.(mapped := !a.mapped));
            var app' := MappedChanged(app, world', w);
            Kept(app, world, app', world') && Windows(app') == Windows(app)
  {
    hide Sorted;
    var a := world.of(w);
    var world' := With(world, w, a.(mapped := !a.mapped));
    CountAfterChange(world, world', Windows(app), w);
    if OrderOk(app, world) && app.running.Some? && !app.running.value.stale {
      InterestChangeKeepsOrder(world, world', Windows(app), w);
    }
  }

  lemma SkipTaskbarChangedKeeps(app: App, world: World, w: Window)
    requires CountOk(app, world)
    ensures var a := world.of(w);
            var world' := With(world, w, a.(skipTaskbar := !a.skipTaskbar));
            var app' := SkipTaskbarChanged(app, world', w);
            Kept(app, world, app', world') && Windows(app') == Windows(app)
  {
    hide Sorted;
    var a := world.of(w);
    var world' := With(world, w, a.(skipTaskbar := !a.skipTaskbar));
    CountAfterChange(world, world', Windows(app), w);
    if OrderOk(app, world) && app.running.Some? && !app.running.value.stale {
      InterestChangeKeepsOrder(world, world', Windows(app), w);
    }
  }

  /** Using the first window again does not make the order stale, and need not. */
  lemma UserTimeChangedKeeps(app: App, world: World, w: Window, time: UserTime)
    requires CountOk(app, world) && world.of(w).userTime <= time
    ensures var world' := With(world, w, world.of(w).(userTime := time));
            var app' := UserTimeChanged(app, w);
            Kept(app, world, app', world') && app'.state == app.state && Windows(app') == Windows(app)
  {
    hide Sorted;
    var world' := With(world, w, world.of(w).(userTime := time));
    CountAfterChange(world, world', Windows(app), w);
    if OrderOk(app, world) && app.running.Some? && !app.running.value.stale {
      if w !in Windows(app) {
        SortedAfterChange(world, world', Windows(app));
      } else if Windows(app)[0] == w {
        SortedAfterUse(world, w, time, Windows(app));
      }
    }
  }

  lemma WorkspaceSwitchedKeeps(app: App, world: World, active: int)
    requires CountOk(app, world)
    ensures var app' := WorkspaceSwitched(app);
            && Kept(app, world, app', World(active, world.of)) && OrderOk(app', World(active, world.of))
            && app'.state == app.state && Windows(app') == Windows(app)
  {
    hide Sorted;
    CountAfterChange(world, World(active, world.of), Windows(app), 0);
  }

  lemma HandleStartupKeeps(app: App, world: World, starting: bool, workspace: int)
    requires CountOk(app, world)
    ensures var app' := HandleStartup(app, starting, workspace);
            Kept(app, world, app', world) && app'.running == app.running
  {
    hide Sorted;
  }

  lemma RefreshedKeeps(app: App, world: World)
    requires CountOk(app, world)
    ensures var app' := Refreshed(app, world);
            && Kept(app, world, app', world) && app'.state == app.state
            && (forall x :: x in Windows(app') <==> x in Windows(app))
  {
    hide Sorted, Sort;
    if app.running.Some? {
      SortSorts(world, Windows(app));
      CountOfSameWindows(world, Sort(world, Windows(app)), Windows(app));
    }
  }

  /** The number of interesting windows does not depend on the order. */
  lemma {:induction false} CountOfSameWindows(world: World, s: seq<Window>, t: seq<Window>)
    requires Distinct(s) && Distinct(t) && SameWindows(s, t)
    ensures CountInteresting(world, s) == CountInteresting(world, t)
    decreases |s|
  {
    if s != [] {
      assert s == [s[0]] + s[1..];
      var rest := Without(t, s[0]);
      WithoutIsTheRest(t, s[0]);
      CountWithout(world, t, s[0]);
      assert forall x :: x in s[1..] <==> x in rest by {
        assert forall i | 0 <= i < |s[1..]| :: s[1..][i] == s[i + 1];
      }
      CountOfSameWindows(world, s[1..], rest);
    }
  }

  /** The lazily sorted list is what sorting afresh would give if and only if the order that is kept is right. */
  lemma LazyIsSortedIff(app: App, world: World)
    requires CountOk(app, world)
    ensures Windows(Refreshed(app, world)) == Sort(world, Windows(app)) <==> OrderOk(app, world)
  {
    hide Sort, Sorted;
    SortSorts(world, Windows(app));
    if app.running == None {
      SortIsIdle(world, []);
    } else if !app.running.value.stale && OrderOk(app, world) {
      SortIsIdle(world, Windows(app));
    }
  }

  lemma OrderOkIsSorted(app: App, world: World)
    ensures OrderOk(app, world) <==> Sorted(world, Settled(app))
  {
  }

  /**
   No handler hears of a window that is hidden, shown or moved to another workspace. The counter stays right; the
   order does under exactly these conditions on the windows before and behind it.
  */
  lemma UnreportedKeepsIff(app: App, world: World, w: Window, workspace: int)
    requires CountOk(app, world) && OrderOk(app, world)
    ensures CountOk(app, Hidden(world, w)) && CountOk(app, Revealed(world, w))
    ensures CountOk(app, Moved(world, w, workspace))
    ensures OrderOk(app, Hidden(world, w)) <==> HidingKeeps(world, Settled(app), w)
    ensures OrderOk(app, Revealed(world, w)) <==> RevealingKeeps(world, Settled(app), w)
    ensures OrderOk(app, Moved(world, w, workspace)) <==> MovingKeeps(world, Settled(app), w, workspace)
  {
    hide Sorted, OrderOk, HidingKeeps, RevealingKeeps, MovingKeeps;
    CountAfterChange(world, Hidden(world, w), Windows(app), w);
    CountAfterChange(world, Revealed(world, w), Windows(app), w);
    CountAfterChange(world, Moved(world, w, workspace), Windows(app), w);
    OrderOkIsSorted(app, world);
    OrderOkIsSorted(app, Hidden(world, w));
    OrderOkIsSorted(app, Revealed(world, w));
    OrderOkIsSorted(app, Moved(world, w, workspace));
    HidingKeepsIff(world, Settled(app), w);
    RevealingKeepsIff(world, Settled(app), w);
    MovingKeepsIff(world, Settled(app), w, workspace);
  }

  /** Such a case: the first of two windows is minimized, and the list keeps an order that sorting would change. */
  lemma MinimizingGoesUnnoticed() returns (app: App, world: World, w: Window)
    ensures CountOk(app, world) && OrderOk(app, world) && !HidingKeeps(world, Settled(app), w)
    ensures var world' := Hidden(world, w);
            CountOk(app, world') && Windows(Refreshed(app, world')) != Sort(world', Windows(app))
  {
    hide Sort;
    var a := Attributes(true, false, 0, true, 0, false, false, true, false, None, 0);
    world := World(0, _ => a);
    w := 1;
    app := App(Running, Some(RunningState([1, 2], 2, false)), -1);
    assert [1, 2][1..] == [2] && [2][1..] == [];
    assert Settled(app)[0] == 1 && Settled(app)[1] == 2;
    UnreportedKeepsIff(app, world, w, 0);
    LazyIsSortedIff(app, Hidden(world, w));
  }

  /**
   Disposing of an application removes all its windows. The assertion that it is stopped then, which aborts the
   program otherwise, holds if and only if the application was not starting.
  */
  lemma {:induction false} DisposedEnds(app: App, world: World)
    requires CountOk(app, world)
    ensures var app' := Disposed(app, world);
            app'.running == None && app'.state == (if app.state == Starting then Starting else Stopped)
    decreases |Windows(app)|
  {
    hide Sorted, Without;
    if Windows(app) != [] {
      var w := Windows(app)[0];
      RemoveWindowKeeps(app, world, w);
      CutShortens(Windows(app));
      DisposedEnds(RemoveWindow(app, world, w), world);
    }
  }

  /** The application runs exactly if one of its windows is to be shown. */
  ghost predicate RunsAsShown(app: App, world: World) {
    app.state == Running <==> CountInteresting(world, Windows(app)) > 0
  }

  /**
   Whatever happens to the windows of an application that is not starting, it runs afterwards exactly if one of them
   is to be shown; what happens to other windows does not change that.
  */
  lemma HandlersRunAsShown(app: App, world: World, w: Window)
    requires CountOk(app, world) && app.state != Starting
    ensures w !in Windows(app) || RunsAsShown(app, world) ==>
              RunsAsShown(AddWindow(app, world, w), WorldAfterAdd(app, world, w))
    ensures w in Windows(app) || RunsAsShown(app, world) ==> RunsAsShown(RemoveWindow(app, world, w), world)
    ensures var world' := With(world, w, world.of(w).(mapped := !world.of(w).mapped));
            w in Windows(app) || RunsAsShown(app, world) ==> RunsAsShown(MappedChanged(app, world', w), world')
    ensures var world' := With(world, w, world.of(w).(skipTaskbar := !world.of(w).skipTaskbar));
            w in Windows(app) || RunsAsShown(app, world) ==> RunsAsShown(SkipTaskbarChanged(app, world', w), world')
  {
    hide Sorted, Without, OrderOk;
    AddWindowKeeps(app, world, w);
    RemoveWindowKeeps(app, world, w);
    MappedChangedKeeps(app, world, w);
    SkipTaskbarChangedKeeps(app, world, w);
    var mapped := With(world, w, world.of(w).(mapped := !world.of(w).mapped));
    var skipped := With(world, w, world.of(w).(skipTaskbar := !world.of(w).skipTaskbar));
    CountAfterChange(world, mapped, Windows(app), w);
    CountAfterChange(world, skipped, Windows(app), w);
  }

  /**
   Only a startup can leave an application running with nothing to show: exactly when it is over and there are
   windows, none of which is to be shown, or when the application ran like that before.
  */
  lemma RunsWithNothingToShowIff(app: App, world: World, starting: bool, workspace: int)
    requires CountOk(app, world)
    ensures var app' := HandleStartup(app, starting, workspace);
            && (app'.state == Running && !RunsAsShown(app', world)
                <==> Windows(app) != [] && CountInteresting(world, Windows(app)) == 0
                     && (!starting || app.state == Running))
            && (app'.state != Starting && app'.state != Running ==> RunsAsShown(app', world))
  {
    hide Sorted;
  }

  /** It does happen: an application is started, opens a window that stays unmapped, and the startup is over. */
  lemma RunningWithNothingToShow(world: World, w: Window)
    requires !Interesting(world, w)
    ensures var app := HandleStartup(AddWindow(HandleStartup(NEW, true, -1), world, w), false, -1);
            && CountOk(app, world) && app.state == Running
            && Windows(app) == [w] && CountInteresting(world, Windows(app)) == 0
  {
    var app := HandleStartup(NEW, true, -1);
    assert CountOk(NEW, world);
    HandleStartupKeeps(NEW, world, true, -1);
    AddWindowKeeps(app, world, w);
    assert WorldAfterAdd(app, world, w) == world;
    var app1 := AddWindow(app, world, w);
    assert Windows(app1) == [w] + [];
    assert [w][1..] == [];
    HandleStartupKeeps(app1, world, false, -1);
  }

  // ---------------------------------------------------------------- the objects

  /** Knows which applications run. */
  class AppSystem {
    var runningApps: set<ShellApp>

    constructor ()
      ensures runningApps == {}
    {
      runningApps := {};
    }

    method NotifyAppStateChanged(app: ShellApp)
      modifies this
      ensures app.state == Running ==> runningApps == old(runningApps) + {app}
      ensures app.state == Starting ==> runningApps == old(runningApps)
      ensures app.state == Stopped ==> runningApps == old(runningApps) - {app}
    {
      match app.state {
        case Running => runningApps := runningApps + {app};
        case Starting =>
        case Stopped => runningApps := runningApps - {app};
      }
    }
  }

  class ShellApp {
    const system: AppSystem
    var state: AppState
    var running: Option<RunningState>
    var startedOn: int

    ghost function View(): App
      reads this
    {
      App(state, running, startedOn)
    }

    /** The system lists this application if it runs. */
    ghost predicate Listed()
      reads this, system
    {
      this in system.runningApps <==> state == Running
    }

    /** The system still lists this application if it runs, and the others as before. */
    twostate predicate StaysListed()
      reads this, system
    {
      system.runningApps == old(system.runningApps) - {this} + (if state == Running then {this} else {})
    }

    constructor (system: AppSystem)
      ensures this.system == system && View() == NEW
    {
      this.system := system;
      state, running, startedOn := Stopped, None, -1;
    }

    method StateTransition(to: AppState)
      requires Listed()
      modifies this`state, system
      ensures View() == Transition(old(View()), to) && Listed() && StaysListed()
    {
      if state != to && !(state == Running && to == Starting) {
        state := to;
        system.NotifyAppStateChanged(this);
      }
    }

    method Sync()
      requires Listed() && running.Some?
      modifies this`state, system
      ensures View() == SyncRunningState(old(View())) && Listed() && StaysListed()
    {
      if state != Starting {
        if running.value.interesting == 0 {
          StateTransition(Stopped);
        } else {
          StateTransition(Running);
        }
      }
    }

    method Add(world: World, w: Window) returns (world': World)
      requires Listed() && CountOk(View(), world)
      modifies this, system
      ensures View() == AddWindow(old(View()), world, w) && Listed() && StaysListed()
      ensures world' == WorldAfterAdd(old(View()), world, w) && Kept(old(View()), world, View(), world')
    {
      hide CountOk, OrderOk, Kept, Interesting;
      AddWindowKeeps(View(), world, w);
      world' := world;
      if running == None || w !in running.value.windows {
        if running == None {
          running := Some(RunningState([], 0, false));
        }
        running := Some(RunningState([w] + running.value.windows, running.value.interesting, true));
        if Interesting(world, w) {
          running := Some(running.value.(interesting := running.value.interesting + 1));
        }
        Sync();
        if startedOn >= 0 && !world.of(w).onAllWorkspaces {
          world' := With(world, w, world.of(w).(workspace := startedOn));
        }
        startedOn := -1;
      }
    }

    method Remove(world: World, w: Window)
      requires Listed() && CountOk(View(), world)
      modifies this, system
      ensures View() == RemoveWindow(old(View()), world, w) && Listed() && StaysListed()
      ensures Kept(old(View()), world, View(), world)
    {
      hide CountOk, OrderOk, Kept, Interesting, Without;
      RemoveWindowKeeps(View(), world, w);
      if running.Some? && w in running.value.windows {
        running := Some(running.value.(windows := Without(running.value.windows, w)));
        if Interesting(world, w) {
          running := Some(running.value.(interesting := running.value.interesting - 1));
        }
        Sync();
        if running.value.windows == [] {
          running := None;
        }
      }
    }

    /** A window was mapped or unmapped; `world` already says so. */
    method OnMappedChanged(world: World, w: Window)
      requires Listed()
      modifies this, system
      ensures View() == MappedChanged(old(View()), world, w) && Listed() && StaysListed()
    {
      if running.Some? && w in running.value.windows {
        if !world.of(w).skipTaskbar {
          if world.of(w).mapped {
            running := Some(running.value.(interesting := running.value.interesting + 1));
          } else {
            running := Some(running.value.(interesting := running.value.interesting - 1));
          }
        }
        Sync();
      }
    }

    method OnSkipTaskbarChanged(world: World, w: Window)
      requires Listed()
      modifies this, system
      ensures View() == SkipTaskbarChanged(old(View()), world, w) && Listed() && StaysListed()
    {
      if running.Some? && w in running.value.windows {
        if world.of(w).mapped {
          if world.of(w).skipTaskbar {
            running := Some(running.value.(interesting := running.value.interesting - 1));
          } else {
            running := Some(running.value.(interesting := running.value.interesting + 1));
          }
        }
        Sync();
      }
    }

    method OnUserTimeChanged(w: Window)
      modifies this`running
      ensures View() == UserTimeChanged(old(View()), w)
    {
      if running.Some? && w in running.value.windows && w != running.value.windows[0] {
        running := Some(running.value.(stale := true));
      }
    }

    method OnWorkspaceSwitch()
      modifies this`running
      ensures View() == WorkspaceSwitched(old(View()))
    {
      if running.Some? {
        running := Some(running.value.(stale := true));
      }
    }

    method HandleStartupSequence(starting: bool, workspace: int)
      requires Listed()
      modifies this, system
      ensures View() == HandleStartup(old(View()), starting, workspace) && Listed() && StaysListed()
    {
      if starting && state == Stopped {
        StateTransition(Starting);
      }
      if starting {
        startedOn := workspace;
      } else if running.Some? && running.value.windows != [] {
        StateTransition(Running);
      } else {
        StateTransition(Stopped);
      }
    }

    /** The windows to show, in order; this sorts only if something was changed. */
    method GetWindows(world: World) returns (windows: seq<Window>)
      requires CountOk(View(), world)
      modifies this`running
      ensures View() == Refreshed(old(View()), world) && Kept(old(View()), world, View(), world)
      ensures windows == Shown(world, Windows(View()))
      ensures OrderOk(old(View()), world) ==> windows == Shown(world, Sort(world, Windows(old(View()))))
    {
      hide CountOk, OrderOk, Kept, Sort;
      RefreshedKeeps(View(), world);
      LazyIsSortedIff(View(), world);
      windows := [];
      if running.Some? {
        if running.value.stale {
          running := Some(RunningState(Sort(world, running.value.windows), running.value.interesting, false));
        }
        var all, i := running.value.windows, 0;
        while i < |all|
          invariant 0 <= i <= |all| && windows == Shown(world, all[..i])
        {
          assert all[..i + 1][..i] == all[..i];
          if !world.of(all[i]).overrideRedirect {
            windows := windows + [all[i]];
          }
          i := i + 1;
        }
        assert all[..i] == all;
      }
    }

    method Dispose(world: World)
      requires Listed() && CountOk(View(), world)
      modifies this, system
      ensures View() == Disposed(old(View()), world) && Listed() && StaysListed()
      ensures running == None && (state == Stopped <==> old(state) != Starting)
    {
      hide CountOk, OrderOk, RemoveWindow;
      DisposedEnds(View(), world);
      while running.Some?
        invariant Listed() && StaysListed() && CountOk(View(), world)
        invariant Disposed(View(), world) == Disposed(old(View()), world)
        decreases |Windows(View())|
      {
        RunningHasWindows(View(), world);
        ghost var before := View();
        RemovalShortens(before, world);
        Remove(world, running.value.windows[0]);
        KeptCounts(before, View(), world);
      }
    }
  }

  lemma KeptCounts(app: App, app': App, world: World)
    requires Kept(app, world, app', world)
    ensures CountOk(app', world)
  {
  }

  lemma RunningHasWindows(app: App, world: World)
    requires CountOk(app, world) && app.running.Some?
    ensures app.running.value.windows != []
  {
  }

  lemma RemovalShortens(app: App, world: World)
    requires CountOk(app, world) && Windows(app) != []
    ensures |Windows(RemoveWindow(app, world, Windows(app)[0]))| < |Windows(app)|
  {
    CutShortens(Windows(app));
  }
}
