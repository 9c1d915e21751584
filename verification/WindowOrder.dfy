/** Windows, what the compositor says about them, and the order in which an application lists them. */
module WindowOrder {
  import opened Options
  import opened Sequences

  type Window = nat

  /** User times are those of one session without wrap-around: 31 bits. */
  type UserTime = t: nat | t < 0x8000_0000

  datatype Attributes = Attributes(
    mapped: bool, skipTaskbar: bool, workspace: int, showing: bool, userTime: UserTime,
    onAllWorkspaces: bool, overrideRedirect: bool,
    normal: bool, remote: bool, transientFor: Option<Window>, depth: nat)

  /** The active workspace, and every window as it is at the moment. */
  datatype World = World(active: int, of: Window -> Attributes)

  function With(world: World, w: Window, attributes: Attributes): World {
    World(world.active, (x: Window) => if x == w then attributes else world.of(x))
  }

  // ---------------------------------------------------------------- the order

  predicate Active(world: World, w: Window) {
    world.of(w).workspace == world.active
  }

  /** Negative, zero or positive: windows of the active workspace first, then those showing, then the latest used. */
  function Compare(world: World, a: Window, b: Window): int {
    if Active(world, a) && !Active(world, b) then -1
    else if !Active(world, a) && Active(world, b) then 1
    else CompareInGroup(world, a, b)
  }

  /** The comparison of windows that are both on the active workspace, or both not. */
  function CompareInGroup(world: World, a: Window, b: Window): int {
    var visA, visB := world.of(a).showing, world.of(b).showing;
    if visA && !visB then -1
    else if !visA && visB then 1
    else world.of(b).userTime - world.of(a).userTime
  }

  predicate Sorted(world: World, s: seq<Window>) {
    forall i, j | 0 <= i < j < |s| :: Compare(world, s[i], s[j]) <= 0
  }

  /** A total preorder, so that sorting by it makes sense. */
  lemma CompareIsAnOrder(world: World, a: Window, b: Window, c: Window)
    ensures Compare(world, a, b) <= 0 || Compare(world, b, a) <= 0
    ensures Compare(world, a, b) > 0 <==> Compare(world, b, a) < 0
    ensures Compare(world, a, b) <= 0 && Compare(world, b, c) <= 0 ==> Compare(world, a, c) <= 0
  {
  }

  // ---------------------------------------------------------------- sorting

  /** Puts a window behind all that do not compare after it. */
  function Insert(world: World, s: seq<Window>, w: Window): seq<Window> {
    if s == [] || Compare(world, s[|s| - 1], w) <= 0 then s + [w]
    else Insert(world, s[..|s| - 1], w) + [s[|s| - 1]]
  }

  /** A stable sort. */
  function Sort(world: World, s: seq<Window>): seq<Window> {
    if s == [] then [] else Insert(world, Sort(world, s[..|s| - 1]), s[|s| - 1])
  }

  ghost predicate SameWindows(s: seq<Window>, t: seq<Window>) {
    |s| == |t| && forall w :: w in s <==> w in t
  }

  predicate Distinct(s: seq<Window>) {
    forall i, j | 0 <= i < j < |s| :: s[i] != s[j]
  }

  /** Where the window goes. */
  lemma {:induction false} InsertPutsIn(world: World, s: seq<Window>, w: Window) returns (k: nat)
    ensures k <= |s| && Insert(world, s, w) == s[..k] + [w] + s[k..]
    ensures k > 0 ==> Compare(world, s[k - 1], w) <= 0
    ensures forall i | k <= i < |s| :: Compare(world, s[i], w) > 0
  {
    hide Compare;
    if s == [] || Compare(world, s[|s| - 1], w) <= 0 {
      k := |s|;
    } else {
      k := InsertPutsIn(world, s[..|s| - 1], w);
      assert s[..|s| - 1][..k] == s[..k];
      assert s[..|s| - 1][k..] + [s[|s| - 1]] == s[k..];
      assert forall i | k <= i < |s| - 1 :: s[..|s| - 1][i] == s[i];
    }
  }

  lemma InsertSorts(world: World, s: seq<Window>, w: Window)
    requires Sorted(world, s)
    ensures Sorted(world, Insert(world, s, w))
    ensures |Insert(world, s, w)| == |s| + 1
    ensures forall x :: x in Insert(world, s, w) <==> x in s || x == w
  {
    hide Compare, Insert;
    var k := InsertPutsIn(world, s, w);
    var t := Insert(world, s, w);
    assert forall i | 0 <= i < |t| :: t[i] == if i < k then s[i] else if i == k then w else s[i - 1];
    forall i | 0 <= i < k ensures Compare(world, s[i], w) <= 0 {
      CompareIsAnOrder(world, s[i], s[k - 1], w);
    }
    forall i | k <= i < |s| ensures Compare(world, w, s[i]) <= 0 {
      CompareIsAnOrder(world, s[i], w, w);
    }
    assert forall i | 0 <= i < |s| :: t[if i < k then i else i + 1] == s[i];
    assert t[k] == w;
  }

  lemma InsertKeepsDistinct(world: World, s: seq<Window>, w: Window)
    requires Distinct(s) && w !in s
    ensures Distinct(Insert(world, s, w))
  {
    hide Compare, Insert;
    var k := InsertPutsIn(world, s, w);
    var t := Insert(world, s, w);
    assert forall i | 0 <= i < |t| :: t[i] == if i < k then s[i] else if i == k then w else s[i - 1];
  }

  /** The result of a sort is sorted and holds the same windows. */
  lemma {:induction false} SortSorts(world: World, s: seq<Window>)
    requires Distinct(s)
    ensures Sorted(world, Sort(world, s)) && SameWindows(Sort(world, s), s) && Distinct(Sort(world, s))
  {
    hide Compare, Insert;
    if s != [] {
      var n := |s| - 1;
      SortSorts(world, s[..n]);
      InsertSorts(world, Sort(world, s[..n]), s[n]);
      assert s == s[..n] + [s[n]];
      assert s[n] !in s[..n];
      InsertKeepsDistinct(world, Sort(world, s[..n]), s[n]);
    }
  }

  /** Sorting what is sorted changes nothing. */
  lemma {:induction false} SortIsIdle(world: World, s: seq<Window>)
    requires Sorted(world, s)
    ensures Sort(world, s) == s
  {
    if s != [] {
      var n := |s| - 1;
      SortIsIdle(world, s[..n]);
      assert s == s[..n] + [s[n]];
      if n > 0 {
        assert Compare(world, s[n - 1], s[n]) <= 0;
      }
    }
  }

  // ---------------------------------------------------------------- counting

  predicate Interesting(world: World, w: Window) {
    world.of(w).mapped && !world.of(w).skipTaskbar
  }

  function CountInteresting(world: World, s: seq<Window>): nat {
    if s == [] then 0
    else CountInteresting(world, s[1..]) + if Interesting(world, s[0]) then 1 else 0
  }

  lemma WithoutIsTheRest(s: seq<Window>, w: Window)
    requires Distinct(s) && w in s
    ensures Distinct(Without(s, w)) && |Without(s, w)| == |s| - 1
    ensures forall x :: x in Without(s, w) <==> x in s && x != w
  {
    hide Without;
    var k := WithoutCutsOut(s, w);
    var t := Without(s, w);
    forall i | 0 <= i < |t| ensures t[i] == s[if i < k then i else i + 1] {
    }
    forall x | x in s && x != w ensures x in t {
      var i :| 0 <= i < |s| && s[i] == x;
      assert t[if i < k then i else i - 1] == x;
    }
  }

  lemma WithoutStaysSorted(world: World, s: seq<Window>, w: Window)
    requires Sorted(world, s) && w in s
    ensures Sorted(world, Without(s, w))
  {
    hide Without, Compare;
    var k := WithoutCutsOut(s, w);
    var t := Without(s, w);
    forall i | 0 <= i < |t| ensures t[i] == s[if i < k then i else i + 1] {
    }
  }

  lemma {:induction false} CountWithout(world: World, s: seq<Window>, w: Window)
    requires Distinct(s) && w in s
    ensures CountInteresting(world, Without(s, w))
            == CountInteresting(world, s) - if Interesting(world, w) then 1 else 0
  {
    if s[0] != w {
      CountWithout(world, s[1..], w);
      assert ([s[0]] + Without(s[1..], w))[1..] == Without(s[1..], w);
    }
  }

  /** Only a window's own attributes count. */
  lemma {:induction false} CountAfterChange(world: World, world': World, s: seq<Window>, w: Window)
    requires Distinct(s) && forall x | x != w :: Interesting(world', x) == Interesting(world, x)
    ensures CountInteresting(world', s) == CountInteresting(world, s)
              + (if w in s && Interesting(world', w) then 1 else 0) - (if w in s && Interesting(world, w) then 1 else 0)
  {
    if s != [] {
      CountAfterChange(world, world', s[1..], w);
    }
  }

  /** The order of a list does not depend on windows that are not in it. */
  lemma SortedAfterChange(world: World, world': World, s: seq<Window>)
    requires Sorted(world, s) && world'.active == world.active
    requires forall x | x in s :: world'.of(x) == world.of(x)
    ensures Sorted(world', s)
  {
  }

  /** A window at the head stays there when it is used again. */
  lemma SortedAfterUse(world: World, w: Window, time: UserTime, s: seq<Window>)
    requires Sorted(world, s) && Distinct(s) && s != [] && s[0] == w && world.of(w).userTime <= time
    ensures Sorted(With(world, w, world.of(w).(userTime := time)), s)
  {
  }

  // ---------------------------------------------------------------- changes that nobody is told of

  function Hidden(world: World, w: Window): World {
    With(world, w, world.of(w).(showing := false))
  }

  function Revealed(world: World, w: Window): World {
    With(world, w, world.of(w).(showing := true))
  }

  function Moved(world: World, w: Window, workspace: int): World {
    With(world, w, world.of(w).(workspace := workspace))
  }

  /** Every later window of the same group is not showing and was used no later. */
  predicate HidingKeeps(world: World, s: seq<Window>, w: Window) {
    forall i, j | 0 <= i < j < |s| && s[i] == w && Active(world, s[j]) == Active(world, w) ::
      !world.of(s[j]).showing && world.of(s[j]).userTime <= world.of(w).userTime
  }

  /** Every earlier window of the same group is showing and was used no earlier. */
  predicate RevealingKeeps(world: World, s: seq<Window>, w: Window) {
    forall i, j | 0 <= i < j < |s| && s[j] == w && Active(world, s[i]) == Active(world, w) ::
      world.of(s[i]).showing && world.of(s[i]).userTime >= world.of(w).userTime
  }

  /**
   The window stays in its group; or it leaves the active workspace, and every later window is not there and not
   before it; or it comes there, and every earlier window is there and not after it.
  */
  predicate MovingKeeps(world: World, s: seq<Window>, w: Window, workspace: int) {
    var comes := workspace == world.active;
    if Active(world, w) == comes then true
    else if comes then
      forall i, j | 0 <= i < j < |s| && s[j] == w :: Active(world, s[i]) && CompareInGroup(world, s[i], w) <= 0
    else
      forall i, j | 0 <= i < j < |s| && s[i] == w :: !Active(world, s[j]) && CompareInGroup(world, w, s[j]) <= 0
  }

  /** What a change of one window asks of a sorted list. */
  lemma SortedAfterIff(world: World, world': World, s: seq<Window>, w: Window)
    requires Sorted(world, s) && Distinct(s)
    requires world'.active == world.active && forall x | x != w :: world'.of(x) == world.of(x)
    ensures Sorted(world', s) <==>
            && (forall i, j | 0 <= i < j < |s| && s[i] == w :: Compare(world', w, s[j]) <= 0)
            && (forall i, j | 0 <= i < j < |s| && s[j] == w :: Compare(world', s[i], w) <= 0)
  {
    forall i, j | 0 <= i < j < |s| && s[i] != w && s[j] != w
      ensures Compare(world', s[i], s[j]) == Compare(world, s[i], s[j])
    {
    }
  }

  /** Exactly when hiding a window leaves a sorted list sorted. */
  lemma HidingKeepsIff(world: World, s: seq<Window>, w: Window)
    requires Sorted(world, s) && Distinct(s)
    ensures Sorted(Hidden(world, w), s) <==> HidingKeeps(world, s, w)
  {
    hide Sorted;
    SortedAfterIff(world, Hidden(world, w), s, w);
    SortedPairs(world, s, w);
  }

  lemma SortedPairs(world: World, s: seq<Window>, w: Window)
    requires Sorted(world, s)
    ensures forall i, j | 0 <= i < j < |s| && s[i] == w :: Compare(world, w, s[j]) <= 0
    ensures forall i, j | 0 <= i < j < |s| && s[j] == w :: Compare(world, s[i], w) <= 0
  {
  }

  /** Exactly when showing it again does. */
  lemma RevealingKeepsIff(world: World, s: seq<Window>, w: Window)
    requires Sorted(world, s) && Distinct(s)
    ensures Sorted(Revealed(world, w), s) <==> RevealingKeeps(world, s, w)
  {
    hide Sorted;
    SortedAfterIff(world, Revealed(world, w), s, w);
    SortedPairs(world, s, w);
  }

  /** Exactly when moving a window to another workspace does. */
  lemma MovingKeepsIff(world: World, s: seq<Window>, w: Window, workspace: int)
    requires Sorted(world, s) && Distinct(s)
    ensures Sorted(Moved(world, w, workspace), s) <==> MovingKeeps(world, s, w, workspace)
  {
    hide Sorted;
    SortedAfterIff(world, Moved(world, w, workspace), s, w);
    SortedPairs(world, s, w);
  }
}
