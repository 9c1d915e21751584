/** Which application each window belongs to, and which applications run, over all that can happen to windows. */
module WindowTracker {
  import opened Options
  import opened WindowOrder
  import opened ShellApps

  /**
   `apps` are all application objects made so far, known by their position. `managed` are the windows that
   exist, and `forgotten` those among them that the tracker let go of when it shut down.
  */
  datatype State = State(
    world: World, apps: seq<App>, windowToApp: map<Window, nat>, running: set<nat>,
    managed: set<Window>, forgotten: set<Window>)

  /** What the heuristics say that look at a window's class, sandbox, process, startup and group. */
  datatype Guess = Found(app: nat) | Installed | Nothing

  predicate GuessOk(s: State, guess: Guess) {
    guess.Found? ==> guess.app < |s.apps|
  }

  ghost predicate Acyclic(world: World) {
    forall w | world.of(w).transientFor.Some? ::
      world.of(world.of(w).transientFor.value).depth < world.of(w).depth
  }

  /** The window that a window is transient for, directly or indirectly. */
  function Root(world: World, w: Window): Window
    requires Acyclic(world)
    decreases world.of(w).depth
  {
    if world.of(w).transientFor == None then w else Root(world, world.of(w).transientFor.value)
  }

  /** It is transient for none itself, and windows that are transient one for the next lead up to it. */
  lemma {:induction false} RootIsOnTop(world: World, w: Window) returns (chain: seq<Window>)
    requires Acyclic(world)
    ensures |chain| > 0 && chain[0] == w && chain[|chain| - 1] == Root(world, w)
    ensures forall i | 0 <= i < |chain| - 1 :: world.of(chain[i]).transientFor == Some(chain[i + 1])
    ensures world.of(Root(world, w)).transientFor == None
    decreases world.of(w).depth
  {
    chain := [w];
    if world.of(w).transientFor.Some? {
      var rest := RootIsOnTop(world, world.of(w).transientFor.value);
      chain := chain + rest;
    }
  }

  // ---------------------------------------------------------------- the operations

  /** The running applications after one of them changed its state. */
  function Notified(running: set<nat>, app: nat, from: AppState, to: AppState): set<nat> {
    if from == to then running
    else
      match to
      case Running => running + {app}
      case Starting => running
      case Stopped => running - {app}
  }

  function Put(s: State, i: nat, app: App): State
    requires i < |s.apps|
  {
    s.(apps := s.apps[i := app], running := Notified(s.running, i, s.apps[i].state, app.state))
  }

  function Born(s: State): State {
    s.(apps := s.apps + [NEW])
  }

  function Added(s: State, i: nat, w: Window): State
    requires i < |s.apps|
  {
    Put(s, i, AddWindow(s.apps[i], s.world, w)).(world := WorldAfterAdd(s.apps[i], s.world, w))
  }

  /** An application made up for a window that none could be found for. */
  function NewForWindow(s: State, w: Window): State {
    Added(Born(s), |s.apps|, w)
  }

  /** The application for a window that is not transient for another one. */
  function GetAppForRoot(s: State, root: Window, guess: Guess): (State, nat)
    requires GuessOk(s, guess)
  {
    var a := s.world.of(root);
    if (a.normal || a.remote) && root in s.windowToApp then (s, s.windowToApp[root])
    else if a.remote then (NewForWindow(s, root), |s.apps|)
    else
      match guess
      case Found(app) => (s, app)
      case Installed => (Born(s), |s.apps|)
      case Nothing => (NewForWindow(s, root), |s.apps|)
  }

  function Tracked(s: State, w: Window, guess: Guess): State
    requires GuessOk(s, guess) && Acyclic(s.world)
  {
    var (s1, i) := GetAppForRoot(s, Root(s.world, w), guess);
    if i < |s1.apps| then Added(s1.(windowToApp := s1.windowToApp[w := i]), i, w) else s1
  }

  function Disassociated(s: State, w: Window): State {
    if w in s.windowToApp && s.windowToApp[w] < |s.apps| then
      var i := s.windowToApp[w];
      Put(s, i, RemoveWindow(s.apps[i], s.world, w)).(windowToApp := s.windowToApp - {w})
    else s
  }

  function DisassociatedAll(s: State, ws: seq<Window>): State {
    if ws == [] then s else Disassociated(DisassociatedAll(s, ws[..|ws| - 1]), ws[|ws| - 1])
  }

  // ---------------------------------------------------------------- what the compositor reports

  datatype Event =
    | Mapped(window: Window)
    | SkipTaskbar(window: Window)
    | Used(window: Window, time: UserTime)
    | Switched(active: int)

  function After(world: World, event: Event): World {
    match event
    case Mapped(w) => With(world, w, world.of(w).(mapped := !world.of(w).mapped))
    case SkipTaskbar(w) => With(world, w, world.of(w).(skipTaskbar := !world.of(w).skipTaskbar))
    case Used(w, time) => With(world, w, world.of(w).(userTime := time))
    case Switched(active) => World(active, world.of)
  }

  function Handle(app: App, world: World, event: Event): App {
    match event
    case Mapped(w) => MappedChanged(app, world, w)
    case SkipTaskbar(w) => SkipTaskbarChanged(app, world, w)
    case Used(w, _) => UserTimeChanged(app, w)
    case Switched(_) => WorkspaceSwitched(app)
  }

  /** The first `n` applications have handled the event; `world` is the one after it. */
  function Handled(s: State, world: World, event: Event, n: nat): (s': State)
    requires n <= |s.apps|
    ensures |s'.apps| == |s.apps|
  {
    if n == 0 then s
    else
      var s1 := Handled(s, world, event, n - 1);
      Put(s1, n - 1, Handle(s1.apps[n - 1], world, event))
  }

  function Reported(s: State, event: Event): State {
    var world := After(s.world, event);
    Handled(s, world, event, |s.apps|).(world := world)
  }

  function StartupChanged(s: State, guess: Guess, starting: bool, workspace: int): State
    requires GuessOk(s, guess)
  {
    match guess
    case Found(i) => Put(s, i, HandleStartup(s.apps[i], starting, workspace))
    case Installed => Put(Born(s), |s.apps|, HandleStartup(NEW, starting, workspace))
    case Nothing => s
  }

  datatype Step =
    | Created(window: Window, guess: Guess)
    | Retracked(window: Window, guess: Guess)
    | Unmanaged(window: Window)
    | Reports(event: Event)
    | Hides(window: Window)
    | Reveals(window: Window)
    | Moves(window: Window, workspace: int)
    | Rearranged(world: World)
    | Startup(guess: Guess, starting: bool, workspace: int)
    | Lists(app: nat)
    | ShutsDown(order: seq<Window>)

  /** Only the tree of transient windows, and what kind of window each one is, may change unreported. */
  ghost predicate SameForApps(world: World, world': World) {
    && world'.active == world.active
    && forall w :: world'.of(w).(transientFor := None, depth := 0, normal := true, remote := true)
                   == world.of(w).(transientFor := None, depth := 0, normal := true, remote := true)
  }

  ghost predicate Enabled(s: State, step: Step) {
    match step
    case Created(w, guess) => w !in s.managed && GuessOk(s, guess) && Acyclic(s.world)
    case Retracked(w, guess) => w in s.windowToApp && GuessOk(s, guess) && Acyclic(s.world)
    case Unmanaged(w) => w in s.managed
    case Reports(Used(w, time)) => s.world.of(w).userTime <= time
    case Reports(_) | Hides(_) | Reveals(_) | Moves(_, _) => true
    case Rearranged(world) => SameForApps(s.world, world) && Acyclic(world)
    case Startup(guess, _, _) => GuessOk(s, guess)
    case Lists(i) => i < |s.apps|
    case ShutsDown(order) => forall w | w in s.windowToApp :: w in order
  }

  ghost function Next(s: State, step: Step): State
    requires Enabled(s, step)
  {
    match step
    case Created(w, guess) => Tracked(s, w, guess).(managed := s.managed + {w})
    case Retracked(w, guess) => Tracked(Disassociated(s, w), w, guess)
    case Unmanaged(w) => Disassociated(s, w).(managed := s.managed - {w}, forgotten := s.forgotten - {w})
    case Reports(event) => Reported(s, event)
    case Hides(w) => s.(world := Hidden(s.world, w))
    case Reveals(w) => s.(world := Revealed(s.world, w))
    case Moves(w, workspace) => s.(world := Moved(s.world, w, workspace))
    case Rearranged(world) => s.(world := world)
    case Startup(guess, starting, workspace) => StartupChanged(s, guess, starting, workspace)
    case Lists(i) => Put(s, i, Refreshed(s.apps[i], s.world))
    case ShutsDown(order) => DisassociatedAll(s, order).(forgotten := s.managed)
  }

  // ---------------------------------------------------------------- the invariant

  ghost predicate AppsOk(s: State) {
    forall i | 0 <= i < |s.apps| :: CountOk(s.apps[i], s.world)
  }

  /** Exactly the applications in the running state are listed as running. */
  ghost predicate RunningOk(s: State) {
    forall i: nat :: i in s.running <==> i < |s.apps| && s.apps[i].state == Running
  }

  /** Every window that is known belongs to an application, which has it in its list. */
  ghost predicate MapOk(s: State) {
    forall w | w in s.windowToApp :: s.windowToApp[w] < |s.apps| && w in Windows(s.apps[s.windowToApp[w]])
  }

  ghost predicate DomainOk(s: State) {
    && s.forgotten <= s.managed
    && forall w :: w in s.windowToApp <==> w in s.managed && w !in s.forgotten
  }

  ghost predicate Good(s: State) {
    Acyclic(s.world) && AppsOk(s) && RunningOk(s) && MapOk(s) && DomainOk(s)
  }

  ghost predicate Ordered(s: State) {
    forall i | 0 <= i < |s.apps| :: OrderOk(s.apps[i], s.world)
  }

  // ---------------------------------------------------------------- one application changes

  lemma PutKeepsRunning(s: State, i: nat, app: App)
    requires RunningOk(s) && i < |s.apps|
    requires s.apps[i].state == Running ==> app.state != Starting
    ensures RunningOk(Put(s, i, app))
  {
  }

  lemma BornKeeps(s: State)
    requires AppsOk(s) && RunningOk(s)
    ensures AppsOk(Born(s)) && RunningOk(Born(s)) && (Ordered(s) ==> Ordered(Born(s)))
  {
    assert CountOk(NEW, s.world) && OrderOk(NEW, s.world);
    hide CountOk, OrderOk;
    forall i: nat ensures i in s.running <==> i < |s.apps| + 1 && Born(s).apps[i].state == Running {
    }
  }

  /** What is counted depends on nothing but which windows are interesting. */
  lemma SameCount(app: App, world: World, world': World)
    requires CountOk(app, world) && forall w :: Interesting(world', w) == Interesting(world, w)
    ensures CountOk(app, world')
  {
    CountAfterChange(world, world', Windows(app), 0);
  }

  /** Placing the window leaves the order of every other list right. */
  ghost predicate PlacingKeeps(s: State, i: nat, w: Window) {
    i < |s.apps| && Places(s.apps[i], s.world, w) ==>
      forall j | 0 <= j < |s.apps| && j != i :: MovingKeeps(s.world, Settled(s.apps[j]), w, s.apps[i].startedOn)
  }

  /** The list of another application after the window was placed. */
  lemma OtherOrder(s: State, i: nat, w: Window, j: nat)
    requires AppsOk(s) && i < |s.apps| && j < |s.apps| && OrderOk(s.apps[j], s.world)
    ensures OrderOk(s.apps[j], WorldAfterAdd(s.apps[i], s.world, w))
            <==> (Places(s.apps[i], s.world, w) ==> MovingKeeps(s.world, Settled(s.apps[j]), w, s.apps[i].startedOn))
  {
    hide CountOk, OrderOk, Places, MovingKeeps;
    UnreportedKeepsIff(s.apps[j], s.world, w, s.apps[i].startedOn);
  }

  lemma AddedOrderedIff(s: State, i: nat, w: Window)
    requires AppsOk(s) && Ordered(s) && i < |s.apps|
    ensures Ordered(Added(s, i, w)) <==> PlacingKeeps(s, i, w)
  {
    hide CountOk, OrderOk, AddWindow, Places, MovingKeeps, WorldAfterAdd;
    var s' := Added(s, i, w);
    AddWindowKeeps(s.apps[i], s.world, w);
    assert OrderOk(s'.apps[i], s'.world);
    forall j | 0 <= j < |s.apps| && j != i
      ensures OrderOk(s'.apps[j], s'.world)
              <==> (Places(s.apps[i], s.world, w) ==> MovingKeeps(s.world, Settled(s.apps[j]), w, s.apps[i].startedOn))
    {
      assert s'.apps[j] == s.apps[j];
      OtherOrder(s, i, w, j);
    }
  }

  lemma AddedKeeps(s: State, i: nat, w: Window)
    requires AppsOk(s) && RunningOk(s) && i < |s.apps|
    ensures var s' := Added(s, i, w);
            && AppsOk(s') && RunningOk(s') && |s'.apps| == |s.apps|
            && (Ordered(s) ==> (Ordered(s') <==> PlacingKeeps(s, i, w)))
            && (forall x :: x in Windows(s'.apps[i]) <==> x in Windows(s.apps[i]) || x == w)
            && (forall j | 0 <= j < |s.apps| && j != i :: s'.apps[j] == s.apps[j])
            && OnlyDiffer(s.world, s'.world, w)
  {
    hide CountOk, OrderOk, AddWindow, Ordered, PlacingKeeps;
    var app, world' := AddWindow(s.apps[i], s.world, w), WorldAfterAdd(s.apps[i], s.world, w);
    AddWindowKeeps(s.apps[i], s.world, w);
    PutKeepsRunning(s, i, app);
    forall j | 0 <= j < |s.apps| && j != i ensures CountOk(s.apps[j], world') {
      SameCount(s.apps[j], s.world, world');
    }
    if Ordered(s) {
      AddedOrderedIff(s, i, w);
    }
  }

  // ---------------------------------------------------------------- tracking a window

  ghost predicate Core(s: State) {
    AppsOk(s) && RunningOk(s) && MapOk(s)
  }

  lemma AcyclicStays(world: World, world': World)
    requires Acyclic(world)
    requires forall w ::
               world'.of(w).transientFor == world.of(w).transientFor && world'.of(w).depth == world.of(w).depth
    ensures Acyclic(world')
  {
  }

  lemma GetAppForRootKeeps(s: State, root: Window, guess: Guess)
    requires Core(s) && GuessOk(s, guess)
    ensures var (s1, i) := GetAppForRoot(s, root, guess);
            && Core(s1) && i < |s1.apps| && (Ordered(s) ==> Ordered(s1))
            && s1 == s.(apps := s1.apps, running := s1.running)
  {
    hide CountOk, OrderOk, AddWindow;
    var a := s.world.of(root);
    BornKeeps(s);
    var born := Born(s);
    assert born.apps[|s.apps|] == NEW;
    assert MapOk(born);
    AddedKeeps(born, |s.apps|, root);
    assert WorldAfterAdd(NEW, s.world, root) == s.world;
    assert PlacingKeeps(born, |s.apps|, root);
    assert MapOk(NewForWindow(s, root));
  }

  /** A window always gets an application. */
  lemma TrackedKeeps(s: State, w: Window, guess: Guess)
    requires Core(s) && Acyclic(s.world) && GuessOk(s, guess)
    ensures var s' := Tracked(s, w, guess);
            var (s1, i) := GetAppForRoot(s, Root(s.world, w), guess);
            && Core(s') && Acyclic(s'.world) && s'.windowToApp == s.windowToApp[w := i]
            && s'.managed == s.managed && s'.forgotten == s.forgotten
            && (Ordered(s) ==> (Ordered(s') <==> PlacingKeeps(s1, i, w)))
  {
    hide CountOk, OrderOk, AddWindow, GetAppForRoot;
    var root := Root(s.world, w);
    GetAppForRootKeeps(s, root, guess);
    var (s1, i) := GetAppForRoot(s, root, guess);
    var s2 := s1.(windowToApp := s1.windowToApp[w := i]);
    AddedKeeps(s2, i, w);
    var s' := Added(s2, i, w);
    AcyclicStays(s.world, s'.world);
  }

  lemma DisassociatedKeeps(s: State, w: Window)
    requires Core(s)
    ensures var s' := Disassociated(s, w);
            && Core(s') && (Ordered(s) ==> Ordered(s')) && |s'.apps| == |s.apps|
            && s'.windowToApp == s.windowToApp - {w}
            && s'.world == s.world && s'.managed == s.managed && s'.forgotten == s.forgotten
  {
    hide CountOk, OrderOk, RemoveWindow;
    if w in s.windowToApp {
      var i := s.windowToApp[w];
      RemoveWindowKeeps(s.apps[i], s.world, w);
      PutKeepsRunning(s, i, RemoveWindow(s.apps[i], s.world, w));
    } else {
      assert s.windowToApp - {w} == s.windowToApp;
    }
  }

  lemma {:induction false} DisassociatedAllKeeps(s: State, ws: seq<Window>)
    requires Core(s)
    ensures var s' := DisassociatedAll(s, ws);
            && Core(s') && (Ordered(s) ==> Ordered(s'))
            && (forall x :: x in s'.windowToApp <==> x in s.windowToApp && x !in ws)
            && s'.world == s.world && s'.managed == s.managed && s'.forgotten == s.forgotten
  {
    hide Core, Ordered, Disassociated;
    if ws != [] {
      var before, w := ws[..|ws| - 1], ws[|ws| - 1];
      DisassociatedAllKeeps(s, before);
      DisassociatedKeeps(DisassociatedAll(s, before), w);
      assert ws == before + [w];
    }
  }

  // ---------------------------------------------------------------- events

  ghost predicate Possible(world: World, event: Event) {
    match event
    case Used(w, time) => world.of(w).userTime <= time
    case _ => true
  }

  lemma HandleKeeps(app: App, world: World, event: Event)
    requires CountOk(app, world) && Possible(world, event)
    ensures var app' := Handle(app, After(world, event), event);
            Kept(app, world, app', After(world, event)) && Windows(app') == Windows(app)
  {
    hide CountOk, OrderOk, MappedChanged, SkipTaskbarChanged, UserTimeChanged, WorkspaceSwitched;
    match event
    case Mapped(w) => MappedChangedKeeps(app, world, w);
    case SkipTaskbar(w) => SkipTaskbarChangedKeeps(app, world, w);
    case Used(w, time) => UserTimeChangedKeeps(app, world, w, time); SameStateIsKept(app, world, event);
    case Switched(active) => WorkspaceSwitchedKeeps(app, world, active);
  }

  lemma SameStateIsKept(app: App, world: World, event: Event)
    ensures event.Used? ==> Handle(app, After(world, event), event).state == app.state
  {
  }

  lemma {:induction false} HandledKeeps(s: State, event: Event, n: nat)
    requires AppsOk(s) && RunningOk(s) && Possible(s.world, event) && n <= |s.apps|
    ensures var world := After(s.world, event);
            var s' := Handled(s, world, event, n);
            && RunningOk(s') && s' == s.(apps := s'.apps, running := s'.running)
            && (forall j | 0 <= j < n :: s'.apps[j] == Handle(s.apps[j], world, event))
            && (forall j | n <= j < |s.apps| :: s'.apps[j] == s.apps[j])
  {
    hide CountOk, Handle, OrderOk;
    if n > 0 {
      HandledKeeps(s, event, n - 1);
      var world := After(s.world, event);
      var s1 := Handled(s, world, event, n - 1);
      HandleKeeps(s.apps[n - 1], s.world, event);
      PutKeepsRunning(s1, n - 1, Handle(s1.apps[n - 1], world, event));
    }
  }

  lemma SameRunning(s: State, s': State)
    requires RunningOk(s) && s'.apps == s.apps && s'.running == s.running
    ensures RunningOk(s')
  {
  }

  lemma ReportedKeeps(s: State, event: Event)
    requires Good(s) && Possible(s.world, event)
    ensures Good(Reported(s, event)) && (Ordered(s) ==> Ordered(Reported(s, event)))
  {
    hide CountOk, OrderOk, Handle, Acyclic, RunningOk;
    HandledKeeps(s, event, |s.apps|);
    var s' := Reported(s, event);
    AcyclicStays(s.world, s'.world);
    SameRunning(Handled(s, s'.world, event, |s.apps|), s');
    forall i | 0 <= i < |s.apps|
      ensures Kept(s.apps[i], s.world, s'.apps[i], s'.world) && Windows(s'.apps[i]) == Windows(s.apps[i])
    {
      HandleKeeps(s.apps[i], s.world, event);
    }
  }

  // ---------------------------------------------------------------- all steps

  /** The step leaves every list that is not due for sorting in order; only some steps need not. */
  ghost predicate Calm(s: State, step: Step)
    requires Enabled(s, step)
  {
    match step
    case Created(w, guess) =>
      var (s1, i) := GetAppForRoot(s, Root(s.world, w), guess);
      PlacingKeeps(s1, i, w)
    case Retracked(w, guess) =>
      var (s1, i) := GetAppForRoot(Disassociated(s, w), Root(s.world, w), guess);
      PlacingKeeps(s1, i, w)
    case Hides(w) => forall i | 0 <= i < |s.apps| :: HidingKeeps(s.world, Settled(s.apps[i]), w)
    case Reveals(w) => forall i | 0 <= i < |s.apps| :: RevealingKeeps(s.world, Settled(s.apps[i]), w)
    case Moves(w, workspace) => forall i | 0 <= i < |s.apps| :: MovingKeeps(s.world, Settled(s.apps[i]), w, workspace)
    case _ => true
  }

  /** What no handler hears of. */
  predicate Unreported(step: Step) {
    step.Hides? || step.Reveals? || step.Moves?
  }

  lemma UnreportedKeeps(s: State, step: Step)
    requires Good(s) && Unreported(step)
    ensures var s' := Next(s, step);
            Good(s') && (Ordered(s) ==> (Ordered(s') <==> Calm(s, step)))
  {
    hide CountOk, OrderOk, HidingKeeps, RevealingKeeps, MovingKeeps;
    var s' := Next(s, step);
    var w, workspace := step.window, if step.Moves? then step.workspace else 0;
    AcyclicStays(s.world, s'.world);
    forall i | 0 <= i < |s.apps|
      ensures CountOk(s.apps[i], s'.world)
      ensures OrderOk(s.apps[i], s.world) ==>
                && (OrderOk(s.apps[i], Hidden(s.world, w)) <==> HidingKeeps(s.world, Settled(s.apps[i]), w))
                && (OrderOk(s.apps[i], Revealed(s.world, w)) <==> RevealingKeeps(s.world, Settled(s.apps[i]), w))
                && (OrderOk(s.apps[i], Moved(s.world, w, workspace))
                    <==> MovingKeeps(s.world, Settled(s.apps[i]), w, workspace))
    {
      SameCount(s.apps[i], s.world, s'.world);
      if OrderOk(s.apps[i], s.world) {
        UnreportedKeepsIff(s.apps[i], s.world, w, workspace);
      }
    }
  }

  /** What the windows are like is up to the compositor; the tracker only places windows that it tracks. */
  lemma WorldIsGiven(s: State, step: Step)
    requires Enabled(s, step) && !step.Created? && !step.Retracked?
    ensures Next(s, step).world == match step
                                   case Reports(event) => After(s.world, event)
                                   case Hides(w) => Hidden(s.world, w)
                                   case Reveals(w) => Revealed(s.world, w)
                                   case Moves(w, workspace) => Moved(s.world, w, workspace)
                                   case Rearranged(world) => world
                                   case _ => s.world
  {
    if step.ShutsDown? {
      ShutdownKeepsWorld(s, step.order);
    }
  }

  lemma {:induction false} ShutdownKeepsWorld(s: State, ws: seq<Window>)
    ensures DisassociatedAll(s, ws).world == s.world
  {
    if ws != [] {
      ShutdownKeepsWorld(s, ws[..|ws| - 1]);
    }
  }

  lemma RearrangedKeeps(s: State, world: World)
    requires Good(s) && SameForApps(s.world, world) && Acyclic(world)
    ensures Good(s.(world := world)) && (Ordered(s) ==> Ordered(s.(world := world)))
  {
    hide CountOk;
    forall w ensures Interesting(world, w) == Interesting(s.world, w) {
    }
    forall i | 0 <= i < |s.apps|
      ensures CountOk(s.apps[i], world) && (OrderOk(s.apps[i], s.world) ==> OrderOk(s.apps[i], world))
    {
      SameCount(s.apps[i], s.world, world);
      var app := s.apps[i];
      if OrderOk(app, s.world) && app.running.Some? && !app.running.value.stale {
        SameOrderRearranged(s.world, world, app.running.value.windows);
      }
    }
  }

  lemma SameOrderRearranged(world: World, world': World, s: seq<Window>)
    requires Sorted(world, s) && SameForApps(world, world')
    ensures Sorted(world', s)
  {
    forall i, j | 0 <= i < j < |s| ensures Compare(world', s[i], s[j]) <= 0 {
      assert Compare(world, s[i], s[j]) <= 0;
    }
  }

  lemma StartupKeeps(s: State, guess: Guess, starting: bool, workspace: int)
    requires Good(s) && GuessOk(s, guess)
    ensures var s' := StartupChanged(s, guess, starting, workspace);
            Good(s') && (Ordered(s) ==> Ordered(s'))
  {
    hide CountOk, OrderOk, HandleStartup;
    BornKeeps(s);
    var i := if guess.Found? then guess.app else |s.apps|;
    var s1 := if guess.Found? then s else Born(s);
    HandleStartupKeeps(s1.apps[i], s.world, starting, workspace);
    PutKeepsRunning(s1, i, HandleStartup(s1.apps[i], starting, workspace));
  }

  lemma ListsKeeps(s: State, i: nat)
    requires Good(s) && i < |s.apps|
    ensures var s' := Put(s, i, Refreshed(s.apps[i], s.world));
            Good(s') && (Ordered(s) ==> Ordered(s'))
  {
    hide CountOk, OrderOk, Refreshed;
    RefreshedKeeps(s.apps[i], s.world);
    PutKeepsRunning(s, i, Refreshed(s.apps[i], s.world));
  }

  lemma CreatedKeeps(s: State, w: Window, guess: Guess)
    requires Good(s) && Enabled(s, Created(w, guess))
    ensures var s' := Next(s, Created(w, guess));
            Good(s') && (Ordered(s) ==> (Ordered(s') <==> Calm(s, Created(w, guess))))
  {
    hide CountOk, OrderOk, Tracked, Acyclic, GetAppForRoot, PlacingKeeps;
    TrackedKeeps(s, w, guess);
  }

  lemma UnmanagedKeeps(s: State, w: Window)
    requires Good(s) && Enabled(s, Unmanaged(w))
    ensures Good(Next(s, Unmanaged(w))) && (Ordered(s) ==> Ordered(Next(s, Unmanaged(w))))
  {
    hide CountOk, OrderOk, Disassociated, Acyclic;
    DisassociatedKeeps(s, w);
  }

  /** After a shutdown nothing is tracked any more. */
  lemma ShutsDownKeeps(s: State, order: seq<Window>)
    requires Good(s) && Enabled(s, ShutsDown(order))
    ensures var s' := Next(s, ShutsDown(order));
            Good(s') && s'.windowToApp == map[] && (Ordered(s) ==> Ordered(s'))
  {
    hide CountOk, OrderOk, DisassociatedAll, Acyclic;
    DisassociatedAllKeeps(s, order);
    var s' := Next(s, ShutsDown(order));
    assert forall w :: w !in s'.windowToApp;
  }

  lemma NextKeeps(s: State, step: Step)
    requires Good(s) && Enabled(s, step)
    ensures Good(Next(s, step))
    ensures Ordered(s) ==> (Ordered(Next(s, step)) <==> Calm(s, step))
  {
    hide AppsOk, RunningOk, MapOk, Ordered, PlacingKeeps, HidingKeeps, RevealingKeeps, MovingKeeps, Tracked,
      Disassociated, Reported, StartupChanged, Put, GetAppForRoot, Acyclic;
    match step
    case Created(w, guess) => CreatedKeeps(s, w, guess);
    case Retracked(w, guess) =>
      DisassociatedKeeps(s, w);
      TrackedKeeps(Disassociated(s, w), w, guess);
    case Unmanaged(w) => UnmanagedKeeps(s, w);
    case Reports(event) => ReportedKeeps(s, event);
    case Hides(_) | Reveals(_) | Moves(_, _) => UnreportedKeeps(s, step);
    case Rearranged(world) => RearrangedKeeps(s, world);
    case Startup(guess, starting, workspace) => StartupKeeps(s, guess, starting, workspace);
    case Lists(i) => ListsKeeps(s, i);
    case ShutsDown(order) => ShutsDownKeeps(s, order);
  }

  // ---------------------------------------------------------------- runs

  ghost predicate Initial(s: State) {
    && s.apps == [] && s.windowToApp == map[] && s.running == {} && s.managed == {} && s.forgotten == {}
    && Acyclic(s.world)
  }

  /** What comes out of a run; a step that is not possible is left out. */
  ghost function Onwards(s: State, steps: seq<Step>): State {
    if steps == [] then s
    else
      var before, step := Onwards(s, steps[..|steps| - 1]), steps[|steps| - 1];
      if Enabled(before, step) then Next(before, step) else before
  }

  ghost predicate Run(s: State, steps: seq<Step>) {
    Initial(s) && forall n | 0 <= n < |steps| :: Enabled(Onwards(s, steps[..n]), steps[n])
  }

  /** The first `n` steps of a run. */
  lemma {:induction false} AllRunsAreGood(s: State, steps: seq<Step>, n: nat)
    requires Run(s, steps) && n <= |steps|
    ensures Good(Onwards(s, steps[..n]))
  {
    hide Good, Next, Enabled, Initial;
    if n == 0 {
      InitialIsGood(s);
    } else {
      AllRunsAreGood(s, steps, n - 1);
      OneStepFurther(s, steps, n - 1);
      NextKeeps(Onwards(s, steps[..n - 1]), steps[n - 1]);
    }
  }

  lemma OneStepFurther(s: State, steps: seq<Step>, n: nat)
    requires Run(s, steps) && n < |steps|
    ensures Onwards(s, steps[..n + 1]) == Next(Onwards(s, steps[..n]), steps[n])
  {
    hide Next, Enabled;
    assert steps[..n + 1][..n] == steps[..n];
  }

  /** Step `n` of a run is calm. */
  ghost predicate CalmAt(s: State, steps: seq<Step>, n: nat)
    requires Run(s, steps) && n < |steps|
  {
    Calm(Onwards(s, steps[..n]), steps[n])
  }

  lemma OrderedFurther(s: State, steps: seq<Step>, n: nat)
    requires Run(s, steps) && n < |steps| && Ordered(Onwards(s, steps[..n]))
    ensures Ordered(Onwards(s, steps[..n + 1])) <==> CalmAt(s, steps, n)
  {
    hide Good, Next, Enabled, Initial, Ordered, Calm, Onwards;
    AllRunsAreGood(s, steps, n);
    OneStepFurther(s, steps, n);
    NextKeeps(Onwards(s, steps[..n]), steps[n]);
  }

  lemma {:induction false} OrderedSoFar(s: State, steps: seq<Step>, n: nat)
    requires Run(s, steps) && n <= |steps|
    requires forall i | 0 <= i < n :: CalmAt(s, steps, i)
    ensures Ordered(Onwards(s, steps[..n]))
  {
    hide Run, Ordered, CalmAt, Initial;
    if n == 0 {
      RunsStartInitial(s, steps);
      InitialIsGood(s);
    } else {
      OrderedSoFar(s, steps, n - 1);
      OrderedFurther(s, steps, n - 1);
    }
  }

  lemma RunsStartInitial(s: State, steps: seq<Step>)
    requires Run(s, steps)
    ensures Initial(s)
  {
  }

  /** Throughout a run the lists that are not due for sorting are in order if and only if every step is calm. */
  lemma OrderedAllTheTimeIff(s: State, steps: seq<Step>)
    requires Run(s, steps)
    ensures (forall n | 0 <= n <= |steps| :: Ordered(Onwards(s, steps[..n])))
            <==> forall n | 0 <= n < |steps| :: CalmAt(s, steps, n)
  {
    hide Run, Ordered, CalmAt, Onwards;
    if forall n | 0 <= n < |steps| :: CalmAt(s, steps, n) {
      forall n | 0 <= n <= |steps| ensures Ordered(Onwards(s, steps[..n])) {
        OrderedSoFar(s, steps, n);
      }
    }
    if forall n | 0 <= n <= |steps| :: Ordered(Onwards(s, steps[..n])) {
      forall n | 0 <= n < |steps| ensures CalmAt(s, steps, n) {
        OrderedFurther(s, steps, n);
        assert Ordered(Onwards(s, steps[..n + 1]));
      }
    }
  }

  lemma InitialIsGood(s: State)
    requires Initial(s)
    ensures Good(s) && Ordered(s)
  {
  }

  // ---------------------------------------------------------------- stray windows

  /** Every window that an application lists is mapped to that application. */
  ghost predicate NoneStray(s: State) {
    forall i, w | 0 <= i < |s.apps| && w in Windows(s.apps[i]) :: w in s.windowToApp && s.windowToApp[w] == i
  }

  /** Nothing is found for the root window, so that an application is made up that lists it. */
  predicate MadeUp(s: State, root: Window, guess: Guess) {
    var a := s.world.of(root);
    !((a.normal || a.remote) && root in s.windowToApp) && (a.remote || guess.Nothing?)
  }

  /** An application is made up for the window that the tracked one is transient for, which it is not mapped to. */
  ghost predicate LeavesStray(s: State, step: Step)
    requires Enabled(s, step)
  {
    match step
    case Created(w, guess) => Root(s.world, w) != w && MadeUp(s, Root(s.world, w), guess)
    case Retracked(w, guess) => Root(s.world, w) != w && MadeUp(s, Root(s.world, w), guess)
    case _ => false
  }

  lemma AddedLists(s: State, i: nat, w: Window)
    requires i < |s.apps|
    ensures var s' := Added(s, i, w);
            && |s'.apps| == |s.apps| && (forall x :: x in Windows(s'.apps[i]) <==> x in Windows(s.apps[i]) || x == w)
            && (forall j | 0 <= j < |s.apps| && j != i :: s'.apps[j] == s.apps[j])
            && s'.windowToApp == s.windowToApp
  {
    assert w !in Windows(s.apps[i]) ==> Windows(AddWindow(s.apps[i], s.world, w)) == [w] + Windows(s.apps[i]);
  }

  /** Looking for the application of a window adds at most one, which lists the root if it was made up for it. */
  lemma GetAppForRootLists(s: State, root: Window, guess: Guess)
    requires GuessOk(s, guess) && MapOk(s)
    ensures var (s1, i) := GetAppForRoot(s, root, guess);
            && i < |s1.apps| && s1.windowToApp == s.windowToApp && s1.world == s.world
            && |s.apps| <= |s1.apps| <= |s.apps| + 1 && s1.apps[..|s.apps|] == s.apps
            && (|s1.apps| == |s.apps| + 1 ==>
                  forall x :: x in Windows(s1.apps[|s.apps|]) <==> MadeUp(s, root, guess) && x == root)
            && (MadeUp(s, root, guess) ==> i == |s.apps| && |s1.apps| == |s.apps| + 1)
  {
    hide AddWindow;
    AddedLists(Born(s), |s.apps|, root);
    var s1 := NewForWindow(s, root);
    assert WorldAfterAdd(NEW, s.world, root) == s.world;
    assert s1.apps[..|s.apps|] == s.apps;
    assert Born(s).apps[..|s.apps|] == s.apps;
  }

  /** Who lists what after a window was tracked. */
  lemma TrackedLists(s: State, w: Window, guess: Guess)
    requires MapOk(s) && Acyclic(s.world) && GuessOk(s, guess)
    ensures var root, s' := Root(s.world, w), Tracked(s, w, guess);
            var (s1, i) := GetAppForRoot(s, root, guess);
            && s'.windowToApp == s.windowToApp[w := i] && i < |s'.apps|
            && |s.apps| <= |s'.apps| <= |s.apps| + 1
            && (MadeUp(s, root, guess) ==> i == |s.apps| < |s'.apps|)
            && (forall j, x | 0 <= j < |s.apps| ::
                  x in Windows(s'.apps[j]) <==> x in Windows(s.apps[j]) || (j == i && x == w))
            && (forall x | |s.apps| < |s'.apps| ::
                  x in Windows(s'.apps[|s.apps|])
                  <==> (MadeUp(s, root, guess) && x == root) || (|s.apps| == i && x == w))
  {
    hide AddWindow, GetAppForRoot, MadeUp, Acyclic, MapOk;
    var root := Root(s.world, w);
    GetAppForRootLists(s, root, guess);
    var (s1, i) := GetAppForRoot(s, root, guess);
    AddedLists(s1.(windowToApp := s1.windowToApp[w := i]), i, w);
    assert forall j | 0 <= j < |s.apps| :: s1.apps[j] == s1.apps[..|s.apps|][j];
  }

  lemma TrackedStrayIff(s: State, w: Window, guess: Guess)
    requires Core(s) && Acyclic(s.world) && GuessOk(s, guess) && NoneStray(s) && w !in s.windowToApp
    ensures NoneStray(Tracked(s, w, guess)) <==> Root(s.world, w) == w || !MadeUp(s, Root(s.world, w), guess)
  {
    hide Tracked, GetAppForRoot, AppsOk, RunningOk, MadeUp, Acyclic, Windows;
    var root, s' := Root(s.world, w), Tracked(s, w, guess);
    TrackedLists(s, w, guess);
    if root != w && MadeUp(s, root, guess) {
      assert root in s.windowToApp ==> s.windowToApp[root] < |s.apps|;
      assert root in Windows(s'.apps[|s.apps|]) && !(root in s'.windowToApp && s'.windowToApp[root] == |s.apps|);
    }
  }

  lemma DisassociatedStraysNot(s: State, w: Window)
    requires Core(s) && NoneStray(s)
    ensures NoneStray(Disassociated(s, w)) && w !in Disassociated(s, w).windowToApp
  {
    hide CountOk, RemoveWindow;
    if w in s.windowToApp {
      RemoveWindowKeeps(s.apps[s.windowToApp[w]], s.world, w);
    }
  }

  lemma {:induction false} DisassociatedAllStraysNot(s: State, ws: seq<Window>)
    requires Core(s) && NoneStray(s)
    ensures NoneStray(DisassociatedAll(s, ws))
  {
    hide Core, NoneStray, Disassociated;
    if ws != [] {
      DisassociatedAllStraysNot(s, ws[..|ws| - 1]);
      DisassociatedAllKeeps(s, ws[..|ws| - 1]);
      DisassociatedStraysNot(DisassociatedAll(s, ws[..|ws| - 1]), ws[|ws| - 1]);
    }
  }

  /** The applications list what they listed before, and new ones list nothing. */
  lemma SameListsStrayNot(s: State, s': State)
    requires NoneStray(s) && s'.windowToApp == s.windowToApp && |s.apps| <= |s'.apps|
    requires forall i | 0 <= i < |s.apps| :: forall w :: w in Windows(s'.apps[i]) <==> w in Windows(s.apps[i])
    requires forall i | |s.apps| <= i < |s'.apps| :: Windows(s'.apps[i]) == []
    ensures NoneStray(s')
  {
  }

  lemma SameStray(s: State, s': State)
    requires s'.apps == s.apps && s'.windowToApp == s.windowToApp
    ensures NoneStray(s') <==> NoneStray(s)
  {
  }

  lemma ReportedStraysNot(s: State, event: Event)
    requires Good(s) && NoneStray(s) && Possible(s.world, event)
    ensures NoneStray(Reported(s, event))
  {
    hide NoneStray, CountOk, Handle;
    HandledKeeps(s, event, |s.apps|);
    var s' := Reported(s, event);
    forall i | 0 <= i < |s.apps| ensures Windows(s'.apps[i]) == Windows(s.apps[i]) {
      HandleKeeps(s.apps[i], s.world, event);
    }
    SameListsStrayNot(s, s');
  }

  lemma StartupStraysNot(s: State, guess: Guess, starting: bool, workspace: int)
    requires NoneStray(s) && GuessOk(s, guess)
    ensures NoneStray(StartupChanged(s, guess, starting, workspace))
  {
    hide NoneStray;
    SameListsStrayNot(s, StartupChanged(s, guess, starting, workspace));
  }

  lemma ListsStraysNot(s: State, i: nat)
    requires AppsOk(s) && NoneStray(s) && i < |s.apps|
    ensures NoneStray(Put(s, i, Refreshed(s.apps[i], s.world)))
  {
    hide NoneStray, CountOk, Refreshed;
    RefreshedKeeps(s.apps[i], s.world);
    SameListsStrayNot(s, Put(s, i, Refreshed(s.apps[i], s.world)));
  }

  /**
   Where a window has gone that was tracked for a guess, when `known` were mapped and there were `n` applications. If
   the window that it is transient for, or itself, is known, and normal or remote, it goes there whatever the guess
   is. Else the guess decides, and failing that an application is made up, which lists that window, too.
  */
  ghost predicate GoneTo(world: World, known: map<Window, nat>, n: nat, w: Window, guess: Guess, s': State)
    requires Acyclic(world)
  {
    var root := Root(world, w);
    var a := world.of(root);
    && w in s'.windowToApp && s'.windowToApp == known[w := s'.windowToApp[w]]
    && var i := s'.windowToApp[w];
    if (a.normal || a.remote) && root in known then
      i == known[root] && |s'.apps| == n
    else if !a.remote && guess.Found? then
      i == guess.app && |s'.apps| == n
    else if !a.remote && guess.Installed? then
      i == n && |s'.apps| == n + 1 && forall x :: x in Windows(s'.apps[n]) <==> x == w
    else
      i == n && |s'.apps| == n + 1 && forall x :: x in Windows(s'.apps[n]) <==> x == root || x == w
  }

  /** A window that is tracked, or tracked again after it was let go, goes there, and no other one moves. */
  lemma TrackingGoesTo(s: State, step: Step)
    requires Good(s) && Enabled(s, step) && (step.Created? || step.Retracked?)
    ensures var w, n, s' := step.window, |s.apps|, Next(s, step);
            && GoneTo(s.world, s.windowToApp - {w}, n, w, step.guess, s')
            && forall j, x | 0 <= j < n ::
                 x in Windows(s'.apps[j])
                 <==> (j == s'.windowToApp[w] && x == w)
                      || (x in Windows(s.apps[j]) && !(x == w && w in s.windowToApp && s.windowToApp[w] == j))
  {
    hide AppsOk, RunningOk, Acyclic, Tracked, Disassociated, Root, MapOk, Windows, GoneTo;
    var w := step.window;
    DisassociatedKeeps(s, w);
    if step.Created? {
      assert s.windowToApp - {w} == s.windowToApp;
      TrackedGoesTo(s, w, step.guess);
      GoneToAlike(s.world, s.windowToApp, |s.apps|, w, step.guess, Tracked(s, w, step.guess), Next(s, step));
    } else {
      DisassociatedLists(s, w);
      TrackedGoesTo(Disassociated(s, w), w, step.guess);
    }
  }

  lemma GoneToAlike(
    world: World, known: map<Window, nat>, n: nat, w: Window, guess: Guess, s: State, s': State)
    requires Acyclic(world) && GoneTo(world, known, n, w, guess, s)
    requires s'.apps == s.apps && s'.windowToApp == s.windowToApp
    ensures GoneTo(world, known, n, w, guess, s') && w in s'.windowToApp
  {
  }

  lemma DisassociatedLists(s: State, w: Window)
    requires Core(s) && w in s.windowToApp
    ensures var s' := Disassociated(s, w);
            && |s'.apps| == |s.apps|
            && forall j, x | 0 <= j < |s.apps| ::
                 x in Windows(s'.apps[j]) <==> x in Windows(s.apps[j]) && !(x == w && s.windowToApp[w] == j)
  {
    hide CountOk, RemoveWindow;
    RemoveWindowKeeps(s.apps[s.windowToApp[w]], s.world, w);
  }

  lemma TrackedGoesTo(s: State, w: Window, guess: Guess)
    requires Core(s) && Acyclic(s.world) && GuessOk(s, guess)
    ensures var n, s' := |s.apps|, Tracked(s, w, guess);
            && GoneTo(s.world, s.windowToApp, n, w, guess, s')
            && forall j, x | 0 <= j < n ::
                 x in Windows(s'.apps[j]) <==> (j == s'.windowToApp[w] && x == w) || x in Windows(s.apps[j])
  {
    hide AppsOk, RunningOk, Acyclic, Root, AddWindow, Windows;
    TrackedLists(s, w, guess);
    AddedLists(Born(s), |s.apps|, Root(s.world, w));
    var (s1, i) := GetAppForRoot(s, Root(s.world, w), guess);
    AddedLists(s1.(windowToApp := s1.windowToApp[w := i]), i, w);
  }

  /** A step leaves no window stray if and only if it does not make up an application for another window. */
  lemma StrayIff(s: State, step: Step)
    requires Good(s) && NoneStray(s) && Enabled(s, step)
    ensures NoneStray(Next(s, step)) <==> !LeavesStray(s, step)
  {
    hide NoneStray, AppsOk, RunningOk, MapOk, Acyclic, Tracked, Disassociated, DisassociatedAll, MadeUp, Reported,
      StartupChanged, Put;
    var s' := Next(s, step);
    match step
    case Created(w, guess) =>
      TrackedStrayIff(s, w, guess);
      SameStray(Tracked(s, w, guess), s');
    case Retracked(w, guess) =>
      DisassociatedStraysNot(s, w);
      DisassociatedKeeps(s, w);
      MadeUpAlike(s, w, guess);
      TrackedStrayIff(Disassociated(s, w), w, guess);
    case Unmanaged(w) =>
      DisassociatedStraysNot(s, w);
      SameStray(Disassociated(s, w), s');
    case Reports(event) => ReportedStraysNot(s, event);
    case Hides(_) | Reveals(_) | Moves(_, _) => SameStray(s, s');
    case Rearranged(world) => SameStray(s, s');
    case Startup(guess, starting, workspace) => StartupStraysNot(s, guess, starting, workspace);
    case Lists(i) => ListsStraysNot(s, i);
    case ShutsDown(order) =>
      DisassociatedAllStraysNot(s, order);
      SameStray(DisassociatedAll(s, order), s');
  }

  /** Letting a window go does not matter to what is made up for another one. */
  lemma MadeUpAlike(s: State, w: Window, guess: Guess)
    requires Core(s) && Acyclic(s.world)
    ensures var root := Root(s.world, w);
            root != w ==> (MadeUp(Disassociated(s, w), root, guess) <==> MadeUp(s, root, guess))
  {
    hide AppsOk, RunningOk, MapOk, Disassociated;
    DisassociatedKeeps(s, w);
  }

  /** Throughout a run every window is listed only where it belongs if and only if no step leaves one stray. */
  lemma NoneStrayIff(s: State, steps: seq<Step>)
    requires Run(s, steps)
    ensures (forall n | 0 <= n <= |steps| :: NoneStray(Onwards(s, steps[..n])))
            <==> forall n | 0 <= n < |steps| :: !StrayAt(s, steps, n)
  {
    hide Run, NoneStray, StrayAt, Onwards;
    if forall n | 0 <= n < |steps| :: !StrayAt(s, steps, n) {
      forall n | 0 <= n <= |steps| ensures NoneStray(Onwards(s, steps[..n])) {
        NoneStraySoFar(s, steps, n);
      }
    }
    if forall n | 0 <= n <= |steps| :: NoneStray(Onwards(s, steps[..n])) {
      forall n | 0 <= n < |steps| ensures !StrayAt(s, steps, n) {
        NoneStrayFurther(s, steps, n);
        assert NoneStray(Onwards(s, steps[..n + 1]));
      }
    }
  }

  ghost predicate StrayAt(s: State, steps: seq<Step>, n: nat)
    requires Run(s, steps) && n < |steps|
  {
    LeavesStray(Onwards(s, steps[..n]), steps[n])
  }

  lemma NoneStrayFurther(s: State, steps: seq<Step>, n: nat)
    requires Run(s, steps) && n < |steps| && NoneStray(Onwards(s, steps[..n]))
    ensures NoneStray(Onwards(s, steps[..n + 1])) <==> !StrayAt(s, steps, n)
  {
    hide Good, Next, Enabled, Initial, NoneStray, LeavesStray, Onwards;
    AllRunsAreGood(s, steps, n);
    OneStepFurther(s, steps, n);
    StrayIff(Onwards(s, steps[..n]), steps[n]);
  }

  lemma {:induction false} NoneStraySoFar(s: State, steps: seq<Step>, n: nat)
    requires Run(s, steps) && n <= |steps|
    requires forall i | 0 <= i < n :: !StrayAt(s, steps, i)
    ensures NoneStray(Onwards(s, steps[..n]))
  {
    hide Run, StrayAt;
    if n == 0 {
      RunsStartInitial(s, steps);
    } else {
      NoneStraySoFar(s, steps, n - 1);
      NoneStrayFurther(s, steps, n - 1);
    }
  }

  /**
   It does happen: for the child of a window that is not a normal one an application is made up that lists the
   parent, too.
  */
  lemma ParentGoesAstray()
    ensures var s, step := Disturbable(1), Created(1, Nothing);
            && Enabled(s, step) && NoneStray(s) && LeavesStray(s, step)
            && 2 in Windows(Next(s, step).apps[1]) && Next(s, step).windowToApp[2] == 0
  {
    RootsAreTwo();
    ChildComes();
  }

  /** A stray window stays where it is listed when it is gone itself. */
  lemma StrayOutlivesItsWindow(s: State, w: Window, i: nat)
    requires Good(s) && Enabled(s, Unmanaged(w)) && i < |s.apps| && w in Windows(s.apps[i])
    requires !(w in s.windowToApp && s.windowToApp[w] == i)
    ensures var s' := Next(s, Unmanaged(w));
            w !in s'.managed && w !in s'.windowToApp && i < |s'.apps| && w in Windows(s'.apps[i])
  {
  }

  // ---------------------------------------------------------------- a run that is not calm

  /** Window 1 is transient for window 2, which is not a normal window and was used later. */
  function ParentAndChild(): World {
    var parent := Attributes(true, false, 0, true, 1, false, false, false, false, None, 0);
    var child := Attributes(true, false, 0, true, 0, false, false, true, false, Some(2), 1);
    World(0, (w: Window) => if w == 1 then child else parent)
  }

  const ONLY_PARENT := App(Running, Some(RunningState([2], 1, true)), -1)

  const CHILD_FIRST := App(Running, Some(RunningState([1, 2], 2, true)), -1)

  const PARENT_FIRST := App(Running, Some(RunningState([2, 1], 2, false)), -1)

  const STARTED := App(Starting, None, 1)

  /** An application is made up for the parent, and another one for its child, which is listed; a third one starts. */
  function Disturbable(stage: nat): State {
    var s := State(ParentAndChild(), [], map[], {}, {}, {});
    if stage == 0 then s
    else if stage == 1 then s.(apps := [ONLY_PARENT], windowToApp := map[2 := 0], running := {0}, managed := {2})
    else
      var s1 := s.(windowToApp := map[1 := 1, 2 := 0], running := {0, 1}, managed := {1, 2});
      if stage == 2 then s1.(apps := [ONLY_PARENT, CHILD_FIRST])
      else if stage == 3 then s1.(apps := [ONLY_PARENT, CHILD_FIRST, STARTED])
      else s1.(apps := [ONLY_PARENT, PARENT_FIRST, STARTED])
  }

  const DISTURBABLE_RUN := [Created(2, Nothing), Created(1, Nothing), Startup(Installed, true, 1), Lists(1)]

  lemma RootsAreTwo()
    ensures Acyclic(ParentAndChild()) && Root(ParentAndChild(), 1) == 2 && Root(ParentAndChild(), 2) == 2
  {
  }

  /** An application of its own for window 2; it is not asked for again, since the window is not a normal one. */
  lemma ParentGetsItsOwn(s: State)
    requires s.world == ParentAndChild()
    ensures GetAppForRoot(s, 2, Nothing)
            == (s.(apps := s.apps + [ONLY_PARENT], running := s.running + {|s.apps|}), |s.apps|)
  {
    assert AddWindow(NEW, s.world, 2) == ONLY_PARENT by {
      assert [2] + [] == [2];
    }
    var s1 := NewForWindow(s, 2);
    assert s1.apps == s.apps + [ONLY_PARENT] && s1.world == s.world;
  }

  lemma ParentComes()
    ensures var s, step := Disturbable(0), Created(2, Nothing);
            Enabled(s, step) && Next(s, step) == Disturbable(1) && Calm(s, step)
  {
    var s := Disturbable(0);
    RootsAreTwo();
    ParentGetsItsOwn(s);
    assert [] + [ONLY_PARENT] == [ONLY_PARENT];
    assert {} + {0} == {0};
  }

  lemma ChildComes()
    ensures var s, step := Disturbable(1), Created(1, Nothing);
            Enabled(s, step) && Next(s, step) == Disturbable(2) && Calm(s, step)
  {
    var s := Disturbable(1);
    RootsAreTwo();
    ParentGetsItsOwn(s);
    assert {0} + {1} == {0, 1};
    assert AddWindow(ONLY_PARENT, s.world, 1) == CHILD_FIRST by {
      assert [1] + [2] == [1, 2];
    }
    assert s.windowToApp[1 := 1] == map[1 := 1, 2 := 0];
    assert {2} + {1} == {1, 2};
  }

  lemma AnotherStarts()
    ensures var s, step := Disturbable(2), Startup(Installed, true, 1);
            Enabled(s, step) && Next(s, step) == Disturbable(3) && Calm(s, step)
  {
    var s := Disturbable(2);
    assert Next(s, Startup(Installed, true, 1)).apps == Disturbable(3).apps;
  }

  lemma ChildGoesBehind()
    ensures Sort(ParentAndChild(), [1, 2]) == [2, 1]
  {
    var world := ParentAndChild();
    hide Compare;
    assert Compare(world, 1, 2) == 1 by {
      ChildIsOlder();
    }
    assert [1, 2][..1] == [1] && [1][..0] == [];
    assert Insert(world, [], 2) == [2];
    assert Sort(world, [1]) == [1];
  }

  lemma ChildIsOlder()
    ensures Compare(ParentAndChild(), 1, 2) == 1
  {
  }

  lemma WindowsAreListed()
    ensures var s, step := Disturbable(3), Lists(1);
            Enabled(s, step) && Next(s, step) == Disturbable(4) && Calm(s, step)
  {
    hide Sort, ParentAndChild;
    ChildGoesBehind();
    assert Next(Disturbable(3), Lists(1)).apps == Disturbable(4).apps;
  }

  lemma DisturbableIsReachable()
    ensures Run(Disturbable(0), DISTURBABLE_RUN) && Onwards(Disturbable(0), DISTURBABLE_RUN) == Disturbable(4)
    ensures forall n | 0 <= n < |DISTURBABLE_RUN| :: CalmAt(Disturbable(0), DISTURBABLE_RUN, n)
  {
    hide Next, Enabled, Calm, Disturbable;
    ParentComes();
    ChildComes();
    AnotherStarts();
    WindowsAreListed();
    NothingHappened();
    var s, steps := Disturbable(0), DISTURBABLE_RUN;
    assert steps[..0] == [] && steps[..1][..0] == [] && steps[..4] == steps;
    assert steps[..2][..1] == steps[..1] && steps[..3][..2] == steps[..2] && steps[..4][..3] == steps[..3];
    assert Onwards(s, steps[..1]) == Disturbable(1);
    assert Onwards(s, steps[..2]) == Disturbable(2);
    assert Onwards(s, steps[..3]) == Disturbable(3);
  }

  lemma NothingHappened()
    ensures Initial(Disturbable(0))
  {
    RootsAreTwo();
  }

  /**
   Placing a window can break the order of the list of another application that has it, too: the run so far is calm
   and all lists are in order, but the parent, tracked again for the starting application, is moved away.
  */
  lemma PlacingCanDisturb()
    ensures var s, step := Onwards(Disturbable(0), DISTURBABLE_RUN), Retracked(2, Found(2));
            && Good(s) && Ordered(s) && Enabled(s, step) && !Calm(s, step) && !Ordered(Next(s, step))
  {
    hide Good, Next, Ordered, Onwards, Run, CalmAt, Disturbable;
    var s, step := Onwards(Disturbable(0), DISTURBABLE_RUN), Retracked(2, Found(2));
    DisturbableIsReachable();
    assert DISTURBABLE_RUN[..|DISTURBABLE_RUN|] == DISTURBABLE_RUN;
    AllRunsAreGood(Disturbable(0), DISTURBABLE_RUN, |DISTURBABLE_RUN|);
    OrderedSoFar(Disturbable(0), DISTURBABLE_RUN, |DISTURBABLE_RUN|);
    ParentIsPlaced();
    NextKeeps(s, step);
  }

  lemma ParentIsPlaced()
    ensures var s, step := Disturbable(4), Retracked(2, Found(2)); Enabled(s, step) && !Calm(s, step)
  {
    RootsAreTwo();
    var s := Disturbable(4);
    var s1 := Disassociated(s, 2);
    assert s1.apps[1] == PARENT_FIRST && s1.apps[2] == STARTED;
    assert GetAppForRoot(s1, 2, Found(2)) == (s1, 2);
    assert Places(s1.apps[2], s1.world, 2);
    assert Settled(PARENT_FIRST)[0] == 2 && Settled(PARENT_FIRST)[1] == 1;
    assert !MovingKeeps(s1.world, Settled(s1.apps[1]), 2, 1);
  }

  /** In every run, the applications listed as running are those in the running state, and each of them has windows. */
  lemma RunningAppsHaveWindows(s: State, steps: seq<Step>, i: nat)
    requires Run(s, steps)
    ensures var s' := Onwards(s, steps); i in s'.running <==> i < |s'.apps| && s'.apps[i].state == Running
    ensures var s' := Onwards(s, steps); i in s'.running ==> Windows(s'.apps[i]) != []
  {
    hide Onwards, Initial, Enabled;
    AllRunsAreGood(s, steps, |steps|);
    assert steps[..|steps|] == steps;
  }

  /** In every run, exactly the windows that exist, and were not let go, belong to an application that lists them. */
  lemma WindowsBelong(s: State, steps: seq<Step>, w: Window)
    requires Run(s, steps)
    ensures var s' := Onwards(s, steps);
            && (w in s'.windowToApp <==> w in s'.managed && w !in s'.forgotten)
            && (w in s'.windowToApp ==> s'.windowToApp[w] < |s'.apps| && w in Windows(s'.apps[s'.windowToApp[w]]))
  {
    hide Onwards, Initial, Enabled;
    AllRunsAreGood(s, steps, |steps|);
    assert steps[..|steps|] == steps;
  }

  /** In every calm run, the lists that applications hand out are in order at the moment they are asked for. */
  lemma ListsAreInOrder(s: State, steps: seq<Step>, i: nat)
    requires Run(s, steps) && i < |Onwards(s, steps).apps|
    requires forall n | 0 <= n < |steps| :: CalmAt(s, steps, n)
    ensures var s' := Onwards(s, steps);
            Windows(Refreshed(s'.apps[i], s'.world)) == Sort(s'.world, Windows(s'.apps[i]))
  {
    hide Onwards, Initial, Enabled, CalmAt;
    assert steps[..|steps|] == steps;
    AllRunsAreGood(s, steps, |steps|);
    OrderedSoFar(s, steps, |steps|);
    LazyIsSortedIff(Onwards(s, steps).apps[i], Onwards(s, steps).world);
  }

  // ---------------------------------------------------------------- the tracker

  ghost function Views(apps: seq<ShellApp>): (views: seq<App>)
    reads apps
    ensures |views| == |apps| && forall i | 0 <= i < |apps| :: views[i] == apps[i].View()
  {
    seq(|apps|, i requires 0 <= i < |apps| reads apps => apps[i].View())
  }

  function Numbers(apps: seq<ShellApp>, some: set<ShellApp>): (numbers: set<nat>)
    ensures forall i: nat :: i in numbers <==> i < |apps| && apps[i] in some
  {
    set i: nat | i < |apps| && apps[i] in some
  }

  /** The tracker, with the applications that were ever made, and the system that lists those that run. */
  class Tracker {
    const system: AppSystem
    var world: World
    var apps: seq<ShellApp>
    var windowToApp: map<Window, nat>
    ghost var managed: set<Window>
    ghost var forgotten: set<Window>

    ghost function View(): State
      reads this, apps, system
    {
      State(world, Views(apps), windowToApp, Numbers(apps, system.runningApps), managed, forgotten)
    }

    ghost predicate Valid()
      reads this, apps
    {
      && (forall i | 0 <= i < |apps| :: apps[i].system == system)
      && forall i, j | 0 <= i < j < |apps| :: apps[i] != apps[j]
    }

    constructor (world: World)
      requires Acyclic(world)
      ensures Valid() && Initial(View()) && this.world == world && fresh(system)
    {
      system := new AppSystem();
      this.world := world;
      apps, windowToApp, managed, forgotten := [], map[], {}, {};
    }

    /** Only one application, and whether it is listed as running, has changed. */
    twostate predicate OneChanged(i: nat)
      requires i < |old(apps)| && apps == old(apps)
      reads this, apps, system
    {
      && (forall j | 0 <= j < |apps| && j != i :: apps[j].View() == old(apps[j].View()))
      && system.runningApps
         == old(system.runningApps) - {apps[i]} + (if apps[i].state == Running then {apps[i]} else {})
    }

    twostate lemma IsPut(i: nat)
      requires i < |old(apps)| && apps == old(apps) && OneChanged(i)
      requires Valid() && RunningOk(old(View()))
      requires old(apps[i].state) == Running ==> apps[i].state != Starting
      requires world == old(world) && windowToApp == old(windowToApp)
      requires managed == old(managed) && forgotten == old(forgotten)
      ensures View() == Put(old(View()), i, apps[i].View())
    {
      ghost var was, put := old(View()), Put(old(View()), i, apps[i].View());
      assert was.apps[i].state == Running <==> i in was.running;
      assert View().apps == put.apps;
      forall k: nat ensures k in View().running <==> k in put.running {
        if k != i && k < |apps| {
          assert apps[k] != apps[i];
        }
      }
      assert View().running == put.running;
    }

    method AddWindowTo(i: nat, w: Window)
      requires Valid() && i < |apps| && AppsOk(View()) && RunningOk(View())
      modifies this`world, apps[i], system
      ensures Valid() && apps == old(apps) && View() == Added(old(View()), i, w)
    {
      hide CountOk, OrderOk, AddWindow;
      ghost var was := View();
      assert was.apps[i].state == Running <==> i in was.running;
      var after := apps[i].Add(world, w);
      IsPut(i);
      world := after;
    }

    method NewApp() returns (i: nat)
      requires Valid()
      modifies this`apps
      ensures Valid() && View() == Born(old(View())) && i == |old(apps)|
      ensures |apps| == i + 1 && apps[..i] == old(apps) && fresh(apps[i])
    {
      ghost var was := View();
      i := |apps|;
      var app := new ShellApp(system);
      assert app !in system.runningApps && app !in apps;
      apps := apps + [app];
      assert View().apps == was.apps + [NEW];
      assert View().running == was.running;
    }

    method NewAppForWindow(w: Window) returns (i: nat)
      requires Valid() && Core(View())
      modifies this`apps, this`world, system
      ensures Valid() && View() == NewForWindow(old(View()), w) && i == |old(apps)|
      ensures |apps| == i + 1 && apps[..i] == old(apps) && fresh(apps[i])
    {
      hide CountOk, OrderOk, AddWindow;
      BornIsCore(View());
      i := NewApp();
      AddWindowTo(i, w);
    }

    method GetAppForWindow(w: Window, guess: Guess) returns (i: nat)
      requires Valid() && Core(View()) && Acyclic(world) && GuessOk(View(), guess)
      modifies this`apps, this`world, system
      ensures Valid() && (View(), i) == GetAppForRoot(old(View()), Root(old(world), w), guess)
      ensures |old(apps)| <= |apps| && apps[..|old(apps)|] == old(apps)
      ensures forall k | |old(apps)| <= k < |apps| :: fresh(apps[k])
      decreases world.of(w).depth
    {
      hide Core, Views, Numbers, GetAppForRoot, Valid, RunningOk;
      var parent := world.of(w).transientFor;
      if parent.Some? {
        i := GetAppForWindow(parent.value, guess);
      } else {
        i := GetAppForRootWindow(w, guess);
      }
    }

    /** The application for a window that is not transient for another one. */
    method GetAppForRootWindow(w: Window, guess: Guess) returns (i: nat)
      requires Valid() && Core(View()) && GuessOk(View(), guess)
      modifies this`apps, this`world, system
      ensures Valid() && (View(), i) == GetAppForRoot(old(View()), w, guess)
      ensures |old(apps)| <= |apps| && apps[..|old(apps)|] == old(apps)
      ensures forall k | |old(apps)| <= k < |apps| :: fresh(apps[k])
    {
      hide Core, CountOk, AddWindow, Born, NewForWindow, Views, Numbers;
      var a := world.of(w);
      if (a.normal || a.remote) && w in windowToApp {
        i := windowToApp[w];
      } else if a.remote {
        i := NewAppForWindow(w);
      } else {
        match guess {
          case Found(app) => i := app;
          case Installed => i := NewApp();
          case Nothing => i := NewAppForWindow(w);
        }
      }
    }

    method TrackWindow(w: Window, guess: Guess)
      requires Valid() && Core(View()) && Acyclic(world) && GuessOk(View(), guess)
      modifies this`apps, this`world, this`windowToApp, apps, system
      ensures Valid() && View() == Tracked(old(View()), w, guess)
      ensures |old(apps)| <= |apps| && apps[..|old(apps)|] == old(apps)
      ensures forall k | |old(apps)| <= k < |apps| :: fresh(apps[k])
    {
      hide CountOk, AddWindow, GetAppForRoot, Acyclic, AppsOk, RunningOk;
      ghost var was := View();
      GetAppForRootKeeps(was, Root(world, w), guess);
      var i := GetAppForWindow(w, guess);
      assert apps[i] in old(apps) || fresh(apps[i]) by {
        if i < |old(apps)| {
          assert apps[i] == apps[..|old(apps)|][i];
        }
      }
      SameAppsOk(View(), w, i);
      windowToApp := windowToApp[w := i];
      AddWindowTo(i, w);
    }

    method DisassociateWindow(w: Window)
      requires Valid() && Core(View())
      modifies this`windowToApp, apps, system
      ensures Valid() && apps == old(apps) && View() == Disassociated(old(View()), w)
    {
      hide CountOk, OrderOk, RemoveWindow;
      ghost var was := View();
      if w in windowToApp {
        var i := windowToApp[w];
        assert was.apps[i].state == Running <==> i in was.running;
        apps[i].Remove(world, w);
        IsPut(i);
        windowToApp := windowToApp - {w};
      }
    }

    method OnWindowCreated(w: Window, guess: Guess)
      requires Valid() && Good(View()) && Enabled(View(), Created(w, guess))
      modifies this, apps, system
      ensures Valid() && View() == Next(old(View()), Created(w, guess)) && Good(View())
    {
      hide Core, AppsOk, RunningOk, MapOk, DomainOk, Acyclic, Tracked, Numbers;
      GoodIsCore(View());
      CreatedKeeps(View(), w, guess);
      TrackWindow(w, guess);
      managed := managed + {w};
    }

    method TrackedWindowChanged(w: Window, guess: Guess)
      requires Valid() && Good(View()) && Enabled(View(), Retracked(w, guess))
      modifies this, apps, system
      ensures Valid() && View() == Next(old(View()), Retracked(w, guess)) && Good(View())
    {
      hide Core, AppsOk, RunningOk, MapOk, DomainOk, Acyclic, Tracked, Disassociated, Views, Numbers, Valid;
      GoodIsCore(View());
      NextKeeps(View(), Retracked(w, guess));
      DisassociatedKeeps(View(), w);
      DisassociateWindow(w);
      TrackWindow(w, guess);
    }

    method OnWindowUnmanaged(w: Window)
      requires Valid() && Good(View()) && Enabled(View(), Unmanaged(w))
      modifies this, apps, system
      ensures Valid() && View() == Next(old(View()), Unmanaged(w)) && Good(View())
    {
      hide Core, AppsOk, RunningOk, MapOk, DomainOk, Acyclic, Disassociated, Views, Numbers;
      GoodIsCore(View());
      UnmanagedKeeps(View(), w);
      DisassociateWindow(w);
      managed, forgotten := managed - {w}, forgotten - {w};
    }

    /** One application handles an event; `after` is the world after it. */
    method HandleBy(i: nat, event: Event, after: World)
      requires Valid() && i < |apps| && RunningOk(View())
      requires apps[i].state == Running ==> Handle(apps[i].View(), after, event).state != Starting
      modifies apps[i], system
      ensures Valid() && View() == Put(old(View()), i, Handle(old(apps[i].View()), after, event))
    {
      hide MappedChanged, SkipTaskbarChanged;
      ghost var was := View();
      assert was.apps[i].state == Running <==> i in was.running;
      match event {
        case Mapped(w) => apps[i].OnMappedChanged(after, w);
        case SkipTaskbar(w) => apps[i].OnSkipTaskbarChanged(after, w);
        case Used(w, _) => apps[i].OnUserTimeChanged(w);
        case Switched(_) => apps[i].OnWorkspaceSwitch();
      }
      IsPut(i);
    }

    /** Every application that has a handler connected sees the event. */
    method Report(event: Event)
      requires Valid() && Good(View()) && Possible(world, event)
      modifies this`world, apps, system
      ensures Valid() && View() == Reported(old(View()), event) && Good(View())
    {
      hide CountOk, OrderOk, Handle, Possible, Acyclic, MapOk, DomainOk, Numbers, After, Handled;
      ReportedKeeps(View(), event);
      ghost var was := View();
      var after := After(world, event);
      var i := 0;
      HandledByNone(was, after, event);
      while i < |apps|
        invariant 0 <= i <= |apps| == |was.apps| && apps == old(apps) && Valid()
        invariant View() == Handled(was, after, event, i)
      {
        HandledKeeps(was, event, i);
        HandleKeeps(was.apps[i], was.world, event);
        HandleBy(i, event, after);
        HandledOneMore(was, after, event, i);
        i := i + 1;
      }
      world := after;
    }

    /** The compositor hides, shows or moves a window, of which the tracker does not hear. */
    method Change(step: Step)
      requires Valid() && Good(View()) && Unreported(step)
      modifies this`world
      ensures Valid() && View() == Next(old(View()), step) && Good(View())
      ensures Ordered(old(View())) ==> (Ordered(View()) <==> Calm(old(View()), step))
    {
      hide Good, Ordered, Calm;
      UnreportedKeeps(View(), step);
      match step {
        case Hides(w) => world := Hidden(world, w);
        case Reveals(w) => world := Revealed(world, w);
        case Moves(w, workspace) => world := Moved(world, w, workspace);
        case _ => assert false;
      }
    }

    method OnStartupSequenceChanged(guess: Guess, starting: bool, workspace: int)
      requires Valid() && Good(View()) && GuessOk(View(), guess)
      modifies this`apps, apps, system
      ensures Valid() && View() == StartupChanged(old(View()), guess, starting, workspace) && Good(View())
    {
      hide CountOk, OrderOk, HandleStartup, Acyclic, MapOk, DomainOk, Views, Numbers;
      StartupKeeps(View(), guess, starting, workspace);
      match guess {
        case Found(i) => StartupBy(i, starting, workspace);
        case Installed =>
          BornKeeps(View());
          var i := NewApp();
          StartupBy(i, starting, workspace);
        case Nothing =>
      }
    }

    method StartupBy(i: nat, starting: bool, workspace: int)
      requires Valid() && i < |apps| && AppsOk(View()) && RunningOk(View())
      modifies apps[i], system
      ensures Valid() && View() == Put(old(View()), i, HandleStartup(old(apps[i].View()), starting, workspace))
    {
      hide CountOk, OrderOk, HandleStartup;
      ghost var was := View();
      assert was.apps[i].state == Running <==> i in was.running;
      HandleStartupKeeps(apps[i].View(), world, starting, workspace);
      apps[i].HandleStartupSequence(starting, workspace);
      IsPut(i);
    }

    /** The windows of an application, in order. */
    method GetWindowsOf(i: nat) returns (windows: seq<Window>)
      requires Valid() && Good(View()) && i < |apps|
      modifies apps[i]
      ensures Valid() && View() == Next(old(View()), Lists(i)) && Good(View())
      ensures windows == Shown(world, Windows(apps[i].View()))
    {
      hide CountOk, OrderOk, Refreshed, Acyclic, MapOk, DomainOk;
      ghost var was := View();
      assert was.apps[i].state == Running <==> i in was.running;
      ListsKeeps(was, i);
      RefreshedKeeps(apps[i].View(), world);
      windows := apps[i].GetWindows(world);
      IsPut(i);
    }

    method OnShutdown() returns (order: seq<Window>)
      requires Valid() && Good(View())
      modifies this`windowToApp, this`forgotten, apps, system
      ensures Valid() && View() == DisassociatedAll(old(View()), order).(forgotten := managed) && Good(View())
      ensures windowToApp == map[]
    {
      hide Core, AppsOk, RunningOk, MapOk, DomainOk, Acyclic, Disassociated, Numbers;
      GoodIsCore(View());
      ghost var was := View();
      var keys := windowToApp.Keys;
      order := [];
      while keys != {}
        invariant Valid() && apps == old(apps)
        invariant View() == DisassociatedAll(was, order) && Core(View())
        invariant forall w :: w in was.windowToApp <==> w in order || w in keys
        decreases |keys|
      {
        var w :| w in keys;
        DisassociatedAllOneMore(was, order, w);
        DisassociatedKeeps(View(), w);
        DisassociateWindow(w);
        keys := keys - {w};
        order := order + [w];
      }
      ShutsDownKeeps(was, order);
      DisassociatedAllKeeps(was, order);
      forgotten := managed;
    }
  }

  lemma HandledByNone(s: State, world: World, event: Event)
    ensures Handled(s, world, event, 0) == s
  {
  }

  lemma HandledOneMore(s: State, world: World, event: Event, i: nat)
    requires i < |s.apps|
    ensures var s1 := Handled(s, world, event, i);
            Handled(s, world, event, i + 1) == Put(s1, i, Handle(s1.apps[i], world, event))
  {
  }

  /** Which application a window belongs to does not matter to the applications. */
  lemma SameAppsOk(s: State, w: Window, i: nat)
    requires AppsOk(s) && RunningOk(s)
    ensures var s' := s.(windowToApp := s.windowToApp[w := i]);
            AppsOk(s') && RunningOk(s')
  {
  }

  lemma BornIsCore(s: State)
    requires Core(s)
    ensures Core(Born(s))
  {
    hide CountOk, OrderOk;
    BornKeeps(s);
  }

  lemma GoodIsCore(s: State)
    requires Good(s)
    ensures Core(s) && Acyclic(s.world)
  {
  }

  lemma DisassociatedAllOneMore(s: State, ws: seq<Window>, w: Window)
    ensures DisassociatedAll(s, ws + [w]) == Disassociated(DisassociatedAll(s, ws), w)
  {
    assert (ws + [w])[..|ws|] == ws;
  }
}
