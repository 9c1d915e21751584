/** The queue of authentication requests: one request at a time has the dialog, the others wait for it. */
module PolkitAgent {
  import opened Options
  import opened Sequences

  /** Requests are numbered in the order in which they arrive. */
  type Request = nat

  datatype Completion = Completion(request: Request, dismissed: bool)

  /**
   `arrived` requests came so far; `initiated` and `completed` say what became of them. `posted` are the requests
   whose idle callback is waiting to run after they were cancelled. `dangling` is true once such a callback ran for
   a request that had been freed; from then on nothing is known about the program.
  */
  datatype State = State(
    arrived: nat, current: Option<Request>, scheduled: seq<Request>,
    initiated: seq<Request>, completed: seq<Completion>, posted: seq<Request>, dangling: bool)

  const INITIAL := State(0, None, [], [], [], [], false)

  /** The first scheduled request gets the dialog when it is free. */
  function ProcessNext(s: State): State {
    if s.current == None && s.scheduled != [] then
      s.(current := Some(s.scheduled[0]), scheduled := s.scheduled[1..],
         initiated := s.initiated + [s.scheduled[0]])
    else s
  }

  function Answered(s: State, r: Request, dismissed: bool): State {
    var s1 := s.(completed := s.completed + [Completion(r, dismissed)]);
    if s.current == Some(r) then ProcessNext(s1.(current := None))
    else s1.(scheduled := Without(s.scheduled, r))
  }

  function Arrive(s: State): State {
    ProcessNext(s.(arrived := s.arrived + 1, scheduled := s.scheduled + [s.arrived]))
  }

  /** The caller cancels a request; only an outstanding one listens. */
  function Cancelled(s: State, r: Request): State {
    if Outstanding(s, r) then s.(posted := s.posted + [r]) else s
  }

  /**
   The idle callback of a cancelled request: the current request stays until the dialog is closed, another one is
   completed. The callback is not taken back when its request is completed in between.
  */
  function IdleRan(s: State, r: Request): State {
    var s1 := s.(posted := Without(s.posted, r));
    if !Outstanding(s, r) then s1.(dangling := true)
    else if s.current == Some(r) then s1
    else Answered(s1, r, false)
  }

  function DismissAll(s: State, rs: seq<Request>): State {
    if rs == [] then s else Answered(DismissAll(s, rs[..|rs| - 1]), rs[|rs| - 1], true)
  }

  function Unregistered(s: State): State {
    var s1 := DismissAll(s, s.scheduled).(scheduled := []);
    if s1.current.Some? then Answered(s1, s1.current.value, true) else s1
  }

  predicate Outstanding(s: State, r: Request) {
    s.current == Some(r) || r in s.scheduled
  }

  // ---------------------------------------------------------------- the invariant

  /** How often a request was completed. */
  function Times(cs: seq<Completion>, r: Request): (n: nat) {
    if cs == [] then 0 else Times(cs[..|cs| - 1], r) + if cs[|cs| - 1].request == r then 1 else 0
  }

  /**
   Every request that arrived is completed once, or current, or scheduled; requests wait only for a current
   one; and requests were initiated, and will be, in the order in which they arrived.
  */
  ghost predicate Good(s: State) {
    && Accounted(s)
    && (s.scheduled != [] ==> s.current.Some?)
  }

  ghost predicate Accounted(s: State) {
    && (forall r: Request :: Times(s.completed, r) == if r < s.arrived && !Outstanding(s, r) then 1 else 0)
    && Increasing(s.initiated + s.scheduled)
    && (forall r | r in s.initiated + s.scheduled :: r < s.arrived)
    && (s.current.Some? ==> s.initiated != [] && s.initiated[|s.initiated| - 1] == s.current.value)
  }

  lemma TimesAppend(cs: seq<Completion>, c: Completion, r: Request)
    ensures Times(cs + [c], r) == Times(cs, r) + if c.request == r then 1 else 0
  {
    assert (cs + [c])[..|cs|] == cs;
  }

  lemma WithoutHolds(s: seq<Request>, r: Request)
    ensures forall x | x != r :: x in Without(s, r) <==> x in s
    ensures forall x | x in Without(s, r) :: x in s
  {
    hide Without;
    if r in s {
      var k := WithoutCutsOut(s, r);
      var t := Without(s, r);
      forall x | x in s && x != r ensures x in t {
        var i :| 0 <= i < |s| && s[i] == x;
        assert t[if i < k then i else i - 1] == x;
      }
      forall x | x in t ensures x in s {
        var i :| 0 <= i < |t| && t[i] == x;
        assert s[if i < k then i else i + 1] == x;
      }
    } else {
      WithoutAbsent(s, r);
    }
  }

  lemma WithoutOne(s: seq<Request>, r: Request)
    requires Increasing(s)
    ensures forall x :: x in Without(s, r) <==> x in s && x != r
    ensures Increasing(Without(s, r))
  {
    hide Without;
    WithoutHolds(s, r);
    if r in s {
      var k := WithoutCutsOut(s, r);
      var t := Without(s, r);
      forall i | 0 <= i < |t| ensures t[i] == s[if i < k then i else i + 1] && t[i] != r {
      }
    } else {
      WithoutAbsent(s, r);
    }
  }

  /** Removing from the end of an increasing list, after a part that stays. */
  lemma IncreasingWithout(a: seq<Request>, b: seq<Request>, r: Request)
    requires Increasing(a + b)
    ensures Increasing(a + Without(b, r))
    ensures forall x :: x in Without(b, r) <==> x in b && x != r
  {
    var all, c := a + b, Without(b, r);
    assert forall i | 0 <= i < |b| :: all[|a| + i] == b[i];
    WithoutOne(b, r);
    forall i, j | 0 <= i < j < |a + c| ensures (a + c)[i] < (a + c)[j] {
      if i < |a| {
        assert all[i] == a[i];
        if j < |a| {
          assert all[j] == a[j];
        } else {
          assert c[j - |a|] in b;
          var k :| 0 <= k < |b| && b[k] == c[j - |a|];
          assert all[|a| + k] == c[j - |a|];
        }
      }
    }
  }

  // ---------------------------------------------------------------- what keeps it

  lemma ProcessNextKeeps(s: State)
    requires Accounted(s)
    ensures Good(ProcessNext(s))
    ensures forall x :: Outstanding(ProcessNext(s), x) <==> Outstanding(s, x)
  {
    if s.current == None && s.scheduled != [] {
      var s' := ProcessNext(s);
      assert s'.initiated + s'.scheduled == s.initiated + s.scheduled;
      assert s.scheduled == [s.scheduled[0]] + s.scheduled[1..];
    }
  }

  lemma ArriveKeeps(s: State)
    requires Good(s)
    ensures Good(Arrive(s))
    ensures forall x :: Outstanding(Arrive(s), x) <==> Outstanding(s, x) || x == s.arrived
  {
    hide Times;
    var s1 := s.(arrived := s.arrived + 1, scheduled := s.scheduled + [s.arrived]);
    var all := s.initiated + s.scheduled;
    assert s1.initiated + s1.scheduled == all + [s.arrived];
    assert forall i | 0 <= i < |all| :: all[i] < s.arrived by {
      assert forall i | 0 <= i < |all| :: all[i] in all;
    }
    assert forall x :: Outstanding(s1, x) <==> Outstanding(s, x) || x == s.arrived;
    ProcessNextKeeps(s1);
  }

  lemma CurrentIsNotScheduled(s: State)
    requires Accounted(s) && s.current.Some?
    ensures s.current.value !in s.scheduled && s.current.value < s.arrived
  {
    hide Times, Outstanding;
    var all, n := s.initiated + s.scheduled, |s.initiated| - 1;
    assert all[n] == s.current.value && all[n] in all;
    forall i | 0 <= i < |s.scheduled| ensures s.scheduled[i] != s.current.value {
      assert all[n + 1 + i] == s.scheduled[i];
    }
  }

  lemma AnsweredKeeps(s: State, r: Request, dismissed: bool)
    requires Good(s) && Outstanding(s, r)
    ensures Good(Answered(s, r, dismissed))
    ensures Answered(s, r, dismissed).arrived == s.arrived
    ensures forall x :: Outstanding(Answered(s, r, dismissed), x) <==> Outstanding(s, x) && x != r
  {
    hide Times;
    var c := Completion(r, dismissed);
    forall x ensures Times(s.completed + [c], x) == Times(s.completed, x) + if x == r then 1 else 0 {
      TimesAppend(s.completed, c, x);
    }
    if s.current.Some? {
      CurrentIsNotScheduled(s);
    }
    var s1 := s.(completed := s.completed + [c]);
    if s.current == Some(r) {
      ProcessNextKeeps(s1.(current := None));
    } else {
      IncreasingWithout(s.initiated, s.scheduled, r);
      assert r in s.initiated + s.scheduled;
      assert forall x | x in s.initiated + Without(s.scheduled, r) :: x in s.initiated + s.scheduled;
    }
  }

  /** The idle callback completes its request, unless that has the dialog or is gone. */
  lemma IdleRanKeeps(s: State, r: Request)
    requires Good(s)
    ensures var s' := IdleRan(s, r);
            && Good(s') && s'.arrived == s.arrived
            && (forall x :: Outstanding(s', x) <==> Outstanding(s, x) && (x != r || s.current == Some(r)))
  {
    hide Accounted, Outstanding, Answered;
    var s1 := s.(posted := Without(s.posted, r));
    SameRequests(s, s1);
    if !Outstanding(s, r) {
      SameRequests(s, s1.(dangling := true));
    } else if s.current != Some(r) {
      AnsweredKeeps(s1, r, false);
    }
    CurrentIsOutstanding(s);
  }

  /** Idle callbacks do not matter to the account of requests. */
  lemma SameRequests(s: State, s': State)
    requires s' == s.(posted := s'.posted, dangling := s'.dangling)
    ensures Good(s) <==> Good(s')
    ensures forall x :: Outstanding(s', x) <==> Outstanding(s, x)
  {
  }

  lemma {:induction false} DismissAllKeeps(s: State, rs: seq<Request>)
    requires Good(s) && rs <= s.scheduled
    ensures var s1 := DismissAll(s, rs);
            && Good(s1) && s1.arrived == s.arrived && s1.current == s.current
            && forall x :: Outstanding(s1, x) <==> Outstanding(s, x) && x !in rs
  {
    hide Good, Accounted, Outstanding, Answered;
    if rs != [] {
      var before, r := rs[..|rs| - 1], rs[|rs| - 1];
      DismissAllKeeps(s, before);
      LastIsOutstanding(s, rs);
      assert rs == before + [r];
      var s1 := DismissAll(s, before);
      AnsweredKeeps(s1, r, true);
      ScheduledStaysBehind(s1, r);
    }
  }

  lemma LastIsOutstanding(s: State, rs: seq<Request>)
    requires Good(s) && rs <= s.scheduled && rs != []
    ensures var r := rs[|rs| - 1];
            Outstanding(s, r) && r !in rs[..|rs| - 1] && s.current.Some? && s.current != Some(r)
  {
    hide Times;
    CurrentIsNotScheduled(s);
    var all := s.initiated + s.scheduled;
    assert forall i | 0 <= i < |rs| :: all[|s.initiated| + i] == rs[i];
  }

  lemma ScheduledStaysBehind(s: State, r: Request)
    requires s.current != Some(r)
    ensures Answered(s, r, true).current == s.current
  {
  }

  /** Unregistering completes every outstanding request; afterwards all that arrived are completed, once each. */
  lemma UnregisterCompletesAll(s: State)
    requires Good(s)
    ensures var s' := Unregistered(s);
            && Good(s') && s'.arrived == s.arrived
            && s'.current == None && s'.scheduled == []
            && forall r: Request :: Times(s'.completed, r) == if r < s.arrived then 1 else 0
  {
    hide Times, DismissAll;
    DismissAllKeeps(s, s.scheduled);
    NothingLeftScheduled(s);
    var s1 := DismissAll(s, s.scheduled);
    if s1.current.Some? {
      AnsweredKeeps(s1, s1.current.value, true);
    }
  }

  // ---------------------------------------------------------------- runs

  datatype Step =
    | Arrives
    | Closes(dismissed: bool)
    | IsCancelled(request: Request)
    | IdleRuns(request: Request)
    | Unregisters

  /** The dialog is closed only when there is one, and idle callbacks run that were posted. */
  predicate Enabled(s: State, step: Step) {
    && !s.dangling
    && match step
       case Closes(_) => s.current.Some?
       case IdleRuns(r) => r in s.posted
       case _ => true
  }

  function Next(s: State, step: Step): State {
    match step
    case Arrives => Arrive(s)
    case Closes(dismissed) => if s.current.Some? then Answered(s, s.current.value, dismissed) else s
    case IsCancelled(r) => Cancelled(s, r)
    case IdleRuns(r) => IdleRan(s, r)
    case Unregisters => Unregistered(s)
  }

  function After(steps: seq<Step>): State {
    if steps == [] then INITIAL else Next(After(steps[..|steps| - 1]), steps[|steps| - 1])
  }

  /** Every step is possible when it is taken. */
  predicate Run(steps: seq<Step>) {
    forall n | 0 <= n < |steps| :: Enabled(After(steps[..n]), steps[n])
  }

  /** Exactly whom a step completes, in which order, and who of them is told that the dialog was dismissed. */
  lemma StepCompletes(s: State, step: Step)
    requires Good(s) && Enabled(s, step)
    ensures Next(s, step).completed
            == s.completed + match step
                             case Closes(dismissed) => [Completion(s.current.value, dismissed)]
                             case IdleRuns(r) => if r in s.scheduled then [Completion(r, false)] else []
                             case Unregisters =>
                               seq(|s.scheduled|, i requires 0 <= i < |s.scheduled| => Completion(s.scheduled[i], true))
                               + if s.current.Some? then [Completion(s.current.value, true)] else []
                             case _ => []
  {
    hide Times;
    if s.current.Some? {
      CurrentIsNotScheduled(s);
    }
    match step
    case Unregisters =>
      DismissAllKeeps(s, s.scheduled);
      DismissAllCompletes(s, s.scheduled);
    case _ =>
  }

  lemma {:induction false} DismissAllCompletes(s: State, rs: seq<Request>)
    requires s.current.Some? ==> s.current.value !in rs
    ensures var s' := DismissAll(s, rs);
            && s'.current == s.current
            && (s.current.Some? || s.scheduled == [] ==>
                  s'.completed == s.completed + seq(|rs|, i requires 0 <= i < |rs| => Completion(rs[i], true)))
  {
    if rs != [] {
      DismissAllCompletes(s, rs[..|rs| - 1]);
    }
  }

  lemma NextKeeps(s: State, step: Step)
    requires Good(s) && Enabled(s, step)
    ensures Good(Next(s, step))
  {
    hide Good, Arrive, Answered, IdleRan, Unregistered, Outstanding;
    match step
    case Arrives => ArriveKeeps(s);
    case Closes(dismissed) =>
      CurrentIsOutstanding(s);
      AnsweredKeeps(s, s.current.value, dismissed);
    case IsCancelled(r) => SameRequests(s, Cancelled(s, r));
    case IdleRuns(r) => IdleRanKeeps(s, r);
    case Unregisters => UnregisterCompletesAll(s);
  }

  lemma {:induction false} AllRunsAreGood(steps: seq<Step>)
    requires Run(steps)
    ensures Good(After(steps))
  {
    hide Good, Next, Enabled;
    if steps == [] {
      InitialIsGood();
    } else {
      var n := |steps| - 1;
      assert forall i | 0 <= i < n :: steps[..n][..i] == steps[..i];
      AllRunsAreGood(steps[..n]);
      NextKeeps(After(steps[..n]), steps[n]);
    }
  }

  // ---------------------------------------------------------------- idle callbacks that come too late

  /** Whose idle callback is posted is still outstanding. */
  predicate Safe(s: State) {
    forall r | r in s.posted :: Outstanding(s, r)
  }

  /** The step completes a request while an idle callback of it is posted, besides the one that runs. */
  predicate CompletesPosted(s: State, step: Step) {
    match step
    case Closes(_) => s.current.Some? && s.current.value in s.posted
    case IdleRuns(r) => s.current != Some(r) && r in Without(s.posted, r)
    case Unregisters => s.posted != []
    case _ => false
  }

  /** A callback that runs finds its request freed exactly if the state is not safe. */
  lemma StaleCallbackIff(s: State)
    requires !s.dangling
    ensures (exists r :: Enabled(s, IdleRuns(r)) && Next(s, IdleRuns(r)).dangling) <==> !Safe(s)
  {
    hide Outstanding;
    forall r | Outstanding(s, r) ensures !IdleRan(s, r).dangling {
      AnsweredPosted(s.(posted := Without(s.posted, r)), r, false);
    }
    if !Safe(s) {
      var r :| r in s.posted && !Outstanding(s, r);
      assert Enabled(s, IdleRuns(r)) && Next(s, IdleRuns(r)).dangling;
    }
  }

  lemma AnsweredPosted(s: State, r: Request, dismissed: bool)
    ensures Answered(s, r, dismissed).posted == s.posted && Answered(s, r, dismissed).dangling == s.dangling
  {
  }

  lemma {:induction false} DismissAllPosted(s: State, rs: seq<Request>)
    ensures DismissAll(s, rs).posted == s.posted && DismissAll(s, rs).dangling == s.dangling
  {
    if rs != [] {
      DismissAllPosted(s, rs[..|rs| - 1]);
    }
  }

  lemma UnregisteredPosted(s: State)
    ensures Unregistered(s).posted == s.posted && Unregistered(s).dangling == s.dangling
  {
    hide Answered, DismissAll;
    DismissAllPosted(s, s.scheduled);
    var s1 := DismissAll(s, s.scheduled).(scheduled := []);
    if s1.current.Some? {
      AnsweredPosted(s1, s1.current.value, true);
    }
  }

  /** A step leaves a safe state safe exactly if it completes no request whose idle callback is posted. */
  lemma StaysSafeIff(s: State, step: Step)
    requires Good(s) && Enabled(s, step) && Safe(s)
    ensures !Next(s, step).dangling
    ensures Safe(Next(s, step)) <==> !CompletesPosted(s, step)
  {
    hide Good, Arrive, Answered, Unregistered, Outstanding;
    match step
    case Arrives =>
      ArriveKeeps(s);
      ArrivePosted(s);
    case Closes(dismissed) =>
      CurrentIsOutstanding(s);
      AnsweredKeeps(s, s.current.value, dismissed);
      AnsweredPosted(s, s.current.value, dismissed);
    case IsCancelled(r) => SameRequests(s, Cancelled(s, r));
    case IdleRuns(r) =>
      IdleRanKeeps(s, r);
      WithoutHolds(s.posted, r);
      AnsweredPosted(s.(posted := Without(s.posted, r)), r, false);
    case Unregisters =>
      UnregisterCompletesAll(s);
      UnregisteredPosted(s);
      NobodyOutstanding(Unregistered(s));
      if s.posted != [] {
        assert s.posted[0] in s.posted;
      }
  }

  lemma ArrivePosted(s: State)
    ensures Arrive(s).posted == s.posted && Arrive(s).dangling == s.dangling
  {
  }

  lemma NobodyOutstanding(s: State)
    requires s.current == None && s.scheduled == []
    ensures forall r :: !Outstanding(s, r)
  {
  }

  /**
   Throughout a run no idle callback can find its request freed if and only if no request is ever completed while
   its own idle callback is posted.
  */
  lemma NoStaleCallbackIff(steps: seq<Step>)
    requires Run(steps)
    ensures (forall n | 0 <= n <= |steps| :: !After(steps[..n]).dangling && Safe(After(steps[..n])))
            <==> forall n | 0 <= n < |steps| :: !CompletesPosted(After(steps[..n]), steps[n])
  {
    hide Safe, CompletesPosted, After, Next, Enabled, Good;
    if forall n | 0 <= n < |steps| :: !CompletesPosted(After(steps[..n]), steps[n]) {
      forall n | 0 <= n <= |steps| ensures !After(steps[..n]).dangling && Safe(After(steps[..n])) {
        SafeSoFar(steps, n);
      }
    }
    if forall n | 0 <= n <= |steps| :: !After(steps[..n]).dangling && Safe(After(steps[..n])) {
      forall n | 0 <= n < |steps| ensures !CompletesPosted(After(steps[..n]), steps[n]) {
        PrefixIsRun(steps, n);
        AllRunsAreGood(steps[..n]);
        AfterOneMore(steps, n);
        StaysSafeIff(After(steps[..n]), steps[n]);
        assert Safe(After(steps[..n + 1]));
      }
    }
  }

  lemma PrefixIsRun(steps: seq<Step>, n: nat)
    requires Run(steps) && n <= |steps|
    ensures Run(steps[..n])
  {
    hide Enabled, After;
    assert forall i | 0 <= i < n :: steps[..n][..i] == steps[..i];
  }

  lemma AfterOneMore(steps: seq<Step>, n: nat)
    requires n < |steps|
    ensures After(steps[..n + 1]) == Next(After(steps[..n]), steps[n])
  {
    assert steps[..n + 1][..n] == steps[..n];
  }

  lemma {:induction false} SafeSoFar(steps: seq<Step>, n: nat)
    requires Run(steps) && n <= |steps|
    requires forall i | 0 <= i < n :: !CompletesPosted(After(steps[..i]), steps[i])
    ensures !After(steps[..n]).dangling && Safe(After(steps[..n]))
  {
    hide CompletesPosted, Next, Enabled, Good, Outstanding;
    if n > 0 {
      SafeSoFar(steps, n - 1);
      PrefixIsRun(steps, n - 1);
      AllRunsAreGood(steps[..n - 1]);
      AfterOneMore(steps, n - 1);
      StaysSafeIff(After(steps[..n - 1]), steps[n - 1]);
    }
  }

  /** It does happen: the request with the dialog is cancelled, and the dialog is closed before the callback runs. */
  lemma CallbackComesTooLate()
    ensures var steps := [Arrives, IsCancelled(0), Closes(false), IdleRuns(0)];
            Run(steps) && After(steps).dangling && CompletesPosted(After(steps[..2]), steps[2])
  {
    var steps := [Arrives, IsCancelled(0), Closes(false), IdleRuns(0)];
    assert steps[..0] == [] && After(steps[..0]) == INITIAL;
    AfterOneMore(steps, 0);
    AfterOneMore(steps, 1);
    AfterOneMore(steps, 2);
    AfterOneMore(steps, 3);
    assert steps[..4] == steps;
    var s1 := Arrive(INITIAL);
    assert s1 == State(1, Some(0), [], [0], [], [], false) by {
      assert [0][1..] == [];
    }
    var s2 := Cancelled(s1, 0);
    assert s2 == s1.(posted := [0]);
    var s3 := Answered(s2, 0, false);
    assert s3 == State(1, None, [], [0], [Completion(0, false)], [0], false);
    assert IdleRan(s3, 0).dangling;
  }

  lemma InitialIsGood()
    ensures Good(INITIAL)
  {
  }

  lemma CurrentIsOutstanding(s: State)
    ensures s.current.Some? ==> Outstanding(s, s.current.value)
  {
  }

  /** Dialogs never overlap: whoever had the dialog before the current request has been answered. */
  lemma OneDialogAtATime(s: State, i: nat)
    requires Good(s) && i < |s.initiated|
    requires s.current.Some? ==> i < |s.initiated| - 1
    ensures Times(s.completed, s.initiated[i]) == 1
  {
    hide Times;
    var all, r := s.initiated + s.scheduled, s.initiated[i];
    assert all[i] == r && all[i] in all;
    assert forall j | 0 <= j < |s.initiated| :: all[j] == s.initiated[j];
    assert forall j | 0 <= j < |s.scheduled| :: all[|s.initiated| + j] == s.scheduled[j];
  }

  // ---------------------------------------------------------------- the agent

  class Agent {
    var arrived: nat
    var current: Option<Request>
    var scheduled: seq<Request>
    ghost var initiated: seq<Request>
    ghost var completed: seq<Completion>
    /** The idle callbacks that the main loop has yet to run. */
    var posted: seq<Request>
    ghost var dangling: bool

    ghost function View(): State
      reads this
    {
      State(arrived, current, scheduled, initiated, completed, posted, dangling)
    }

    constructor ()
      ensures View() == INITIAL && Good(View())
    {
      arrived, current, scheduled, initiated, completed := 0, None, [], [], [];
      posted, dangling := [], false;
    }

    method MaybeProcessNextRequest()
      modifies this
      ensures View() == ProcessNext(old(View()))
    {
      if current == None && scheduled != [] {
        var request := scheduled[0];
        current := Some(request);
        scheduled := scheduled[1..];
        initiated := initiated + [request];
      }
    }

    method InitiateAuthentication() returns (request: Request)
      requires Good(View())
      modifies this
      ensures request == old(arrived) && View() == Arrive(old(View()))
      ensures Good(View())
    {
      ArriveKeeps(View());
      request := arrived;
      arrived := arrived + 1;
      scheduled := scheduled + [request];
      MaybeProcessNextRequest();
    }

    method AuthRequestComplete(request: Request, dismissed: bool)
      requires Good(View()) && Outstanding(View(), request)
      modifies this
      ensures View() == Answered(old(View()), request, dismissed)
      ensures Good(View())
    {
      hide Good;
      AnsweredKeeps(View(), request, dismissed);
      var isCurrent := current == Some(request);
      if !isCurrent {
        scheduled := Without(scheduled, request);
      }
      completed := completed + [Completion(request, dismissed)];
      if isCurrent {
        current := None;
        MaybeProcessNextRequest();
      }
    }

    /** The dialog was closed. */
    method Complete(dismissed: bool)
      requires Good(View()) && current.Some?
      modifies this
      ensures View() == Answered(old(View()), old(current).value, dismissed)
      ensures Good(View())
    {
      AuthRequestComplete(current.value, dismissed);
    }

    /** The caller cancels a request. */
    method OnRequestCancelled(request: Request)
      requires Good(View())
      modifies this`posted
      ensures View() == Cancelled(old(View()), request) && Good(View())
    {
      SameRequests(View(), Cancelled(View(), request));
      if current == Some(request) || request in scheduled {
        posted := posted + [request];
      }
    }

    /** Runs when idle, after a caller cancelled; `askToClose` is the signal to close the dialog. */
    method HandleCancelledInIdle(request: Request) returns (askToClose: bool)
      requires Good(View()) && Enabled(View(), IdleRuns(request))
      modifies this
      ensures View() == IdleRan(old(View()), request) && Good(View())
      ensures askToClose <==> old(current) == Some(request)
      ensures dangling <==> !Outstanding(old(View()), request)
    {
      hide Good, Answered;
      ghost var was := View();
      IdleRanKeeps(was, request);
      posted := Without(posted, request);
      SameRequests(was, View());
      askToClose := current == Some(request);
      if request in scheduled && !askToClose {
        AnsweredPosted(View(), request, false);
        AuthRequestComplete(request, false);
      } else if !askToClose {
        dangling := true;
      }
    }

    method Unregister()
      requires Good(View())
      modifies this
      ensures View() == Unregistered(old(View()))
      ensures Good(View()) && current == None && scheduled == []
      ensures forall r: Request :: Times(completed, r) == if r < old(arrived) then 1 else 0
    {
      hide Good, Answered, Times, Outstanding;
      ghost var was := View();
      UnregisterCompletesAll(was);
      if scheduled != [] {
        var snapshot, i := scheduled, 0;
        while i < |snapshot|
          invariant 0 <= i <= |snapshot|
          invariant View() == DismissAll(was, snapshot[..i]) && Good(View())
        {
          DismissOneMore(was, snapshot[..i + 1]);
          assert snapshot[..i + 1][..i] == snapshot[..i];
          AuthRequestComplete(snapshot[i], true);
          i := i + 1;
        }
        assert snapshot[..i] == snapshot;
        scheduled := [];
      }
      DismissAllKeeps(was, was.scheduled);
      NothingLeftScheduled(was);
      if current.Some? {
        CurrentIsOutstanding(View());
        AuthRequestComplete(current.value, true);
      }
    }
  }

  lemma DismissOneMore(s: State, rs: seq<Request>)
    requires Good(s) && rs <= s.scheduled && rs != []
    ensures Outstanding(DismissAll(s, rs[..|rs| - 1]), rs[|rs| - 1])
    ensures Good(DismissAll(s, rs[..|rs| - 1]))
  {
    hide Good, Outstanding;
    LastIsOutstanding(s, rs);
    DismissAllKeeps(s, rs[..|rs| - 1]);
  }

  lemma NothingLeftScheduled(s: State)
    requires Good(s)
    ensures DismissAll(s, s.scheduled).scheduled == []
  {
    hide Times, DismissAll;
    DismissAllKeeps(s, s.scheduled);
    var s1 := DismissAll(s, s.scheduled);
    if s1.scheduled != [] {
      assert Outstanding(s1, s1.scheduled[0]);
      CurrentIsNotScheduled(s1);
      assert false;
    }
  }
}
