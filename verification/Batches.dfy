/**
 Trees of tasks: consecutive and concurrent batches of holds, plain functions and further batches.
 A batch is a task itself; its hold is released when its tasks are done.
*/
module Batches {
  import opened Options

  datatype Kind = Consecutive | Concurrent

  datatype Task = Leaf(leaf: Leaf) | Nested(batch: Batch)

  /**
   A function or a hold.  Its hold is acquired while `acquisitions` is positive; a function without a
   hold has none.  A leaf that `cancels` calls `cancel` on its batch while it runs.
   `ran` and `done` are history: the times at which it was run, and at which it stopped holding up its batch.
  */
  datatype Leaf = HoldTask(acquisitions: int, cancels: bool, ran: Option<nat>, done: Option<nat>)

  /** `releases` counts how often the batch's hold has emitted its release signal. */
  datatype Batch = Batch(
    kind: Kind, tasks: seq<Task>, index: nat, acquisitions: int, releases: nat,
    ran: Option<nat>, done: Option<nat>)

  /** A value after something happened, and the time then. */
  datatype After<T> = After(value: T, clock: nat)

  function Size(t: Task): (n: nat)
    ensures n > 0
  {
    match t
    case Leaf(_) => 1
    case Nested(b) => 1 + SizeFrom(b.tasks, 0)
  }

  /** The size of the tasks from `i` on. */
  function SizeFrom(tasks: seq<Task>, i: nat): (n: nat)
    decreases tasks, |tasks| - i
  {
    if i >= |tasks| then 0 else Size(tasks[i]) + SizeFrom(tasks, i + 1)
  }

  lemma {:induction false} SizeFromKept(a: seq<Task>, b: seq<Task>, i: nat)
    requires i <= |b| <= |a|
    requires forall j | i <= j < |b| :: b[j] == a[j]
    ensures SizeFrom(b, i) <= SizeFrom(a, i)
    decreases |b| - i
  {
    if i < |b| {
      SizeFromKept(a, b, i + 1);
    }
  }

  // ---------------------------------------------------------------- what the code does

  function Acquisitions(t: Task): int {
    match t
    case Leaf(l) => l.acquisitions
    case Nested(b) => b.acquisitions
  }

  predicate IsAcquired(t: Task) {
    Acquisitions(t) > 0
  }

  /** Releases the batch's own hold once. */
  function ReleaseHold(b: Batch, clock: nat): (r: After<Batch>)
    ensures r.value.ran == b.ran
  {
    var b1 := b.(acquisitions := b.acquisitions - 1);
    if b1.acquisitions == 0 then
      After(b1.(releases := b1.releases + 1, done := Some(clock)), clock + 1)
    else
      After(b1, clock)
  }

  function RunLeaf(l: Leaf, clock: nat): (r: After<Leaf>) {
    if l.acquisitions > 0 then After(l.(ran := Some(clock)), clock + 1)
    else After(l.(ran := Some(clock), done := Some(clock + 1)), clock + 2)
  }

  function Run(t: Task, clock: nat): (r: After<Task>)
    decreases Size(t), 0
  {
    match t
    case Leaf(l) =>
      var r := RunLeaf(l, clock);
      After(Leaf(r.value), r.clock)
    case Nested(b) =>
      var r := Process(b.(index := 0, acquisitions := 1, ran := Some(clock)), clock + 1);
      After(Nested(r.value), r.clock)
  }

  predicate Cancels(t: Task) {
    t.Leaf? && t.leaf.cancels
  }

  /** Runs the current task, if there is one. */
  function RunTask(b: Batch, clock: nat): (r: After<Batch>)
    ensures r.value.ran == b.ran
    ensures |r.value.tasks| <= |b.tasks| && (b.index < |b.tasks| ==> b.index < |r.value.tasks|)
    ensures forall j | b.index < j < |r.value.tasks| :: r.value.tasks[j] == b.tasks[j]
    decreases SizeFrom(b.tasks, b.index), 1
  {
    if b.index >= |b.tasks| then After(b, clock)
    else
      var t := b.tasks[b.index];
      var r := Run(t, clock);
      var tasks := b.tasks[b.index := r.value];
      After(b.(tasks := if Cancels(t) then tasks[..b.index + 1] else tasks), r.clock)
  }

  /** Runs tasks from the current one on, until one has to be waited for or the batch is done. */
  function Process(b: Batch, clock: nat): (r: After<Batch>)
    ensures r.value.ran == b.ran
    decreases SizeFrom(b.tasks, b.index), 2
  {
    var r := RunTask(b, clock);
    var held := b.index < |b.tasks| && IsAcquired(r.value.tasks[b.index]);
    if b.kind == Consecutive && held then r
    else
      var b1 := Advanced(r.value, held);
      if b1.index >= |b1.tasks| then ReleaseHold(b1, r.clock)
      else
        SizeFromKept(b.tasks, b1.tasks, b1.index);
        Process(b1, r.clock)
  }

  /** Past the current task, and with the hold acquired until after it when it is still held. */
  function Advanced(b: Batch, held: bool): (r: Batch) {
    b.(index := b.index + 1, acquisitions := b.acquisitions + if held then 1 else 0)
  }

  function NextTask(b: Batch, clock: nat): (r: After<Batch>) {
    var b1 := b.(index := b.index + 1);
    if b1.index >= |b1.tasks| then ReleaseHold(b1, clock) else Process(b1, clock)
  }

  /** The release signal of an awaited task's hold. */
  function OnTaskReleased(b: Batch, clock: nat): (r: After<Batch>) {
    match b.kind
    case Consecutive => NextTask(b, clock)
    case Concurrent => ReleaseHold(b, clock)
  }

  /** A path of task indices from a task down to a leaf. */
  type Path = seq<nat>

  /** The environment releases the hold of the leaf at `path`; `emitted` tells the parent of a release signal. */
  datatype Released = Released(task: Task, clock: nat, emitted: bool)

  function Release(t: Task, path: Path, clock: nat): (r: Released)
    decreases t
  {
    match t
    case Leaf(l) =>
      var l1 := l.(acquisitions := l.acquisitions - 1);
      if path != [] then Released(t, clock, false)
      else if l1.acquisitions == 0 && l1.ran.Some? then Released(Leaf(l1.(done := Some(clock))), clock + 1, true)
      else Released(Leaf(l1), clock, false)
    case Nested(b) =>
      if path == [] || path[0] >= |b.tasks| then Released(t, clock, false)
      else
        var c := Release(b.tasks[path[0]], path[1..], clock);
        var b1 := b.(tasks := b.tasks[path[0] := c.task]);
        if c.emitted then
          var r := OnTaskReleased(b1, c.clock);
          Released(Nested(r.value), r.clock, r.value.releases > b.releases)
        else Released(Nested(b1), c.clock, false)
  }

  /** The environment acquires the hold of the leaf at `path` once more, which an unacquired hold refuses. */
  function Acquire(t: Task, path: Path): (r: Task)
    decreases t
  {
    match t
    case Leaf(l) =>
      if path == [] && l.acquisitions > 0 then Leaf(l.(acquisitions := l.acquisitions + 1)) else t
    case Nested(b) =>
      if path == [] || path[0] >= |b.tasks| then t
      else Nested(b.(tasks := b.tasks[path[0] := Acquire(b.tasks[path[0]], path[1..])]))
  }

  /** Drops the tasks after the current one; a batch that has not started has no current task. */
  function CancelBatch(b: Batch): (r: Batch) {
    if b.ran.None? then b.(tasks := [])
    else if b.index + 1 <= |b.tasks| then b.(tasks := b.tasks[..b.index + 1])
    else b
  }

  /** Cancels the batch at `path`. */
  function Cancel(t: Task, path: Path): (r: Task)
    decreases t
  {
    match t
    case Leaf(_) => t
    case Nested(b) =>
      if path == [] then Nested(CancelBatch(b))
      else if path[0] >= |b.tasks| then t
      else Nested(b.(tasks := b.tasks[path[0] := Cancel(b.tasks[path[0]], path[1..])]))
  }

  // ---------------------------------------------------------------- the invariant

  function RanAt(t: Task): Option<nat> {
    match t
    case Leaf(l) => l.ran
    case Nested(b) => b.ran
  }

  function DoneAt(t: Task): Option<nat> {
    match t
    case Leaf(l) => l.done
    case Nested(b) => b.done
  }

  /** A task that holds up its batch. */
  predicate Open(t: Task) {
    RanAt(t).Some? && DoneAt(t).None?
  }

  /** A task of which nothing has been run. */
  predicate Fresh(t: Task) {
    match t
    case Leaf(l) => l.ran.None? && l.done.None?
    case Nested(b) =>
      && b.ran.None? && b.done.None? && b.acquisitions == 0 && b.releases == 0
      && forall c | c in b.tasks :: Fresh(c)
  }

  function CountOpen(tasks: seq<Task>, n: nat): (count: nat)
    requires n <= |tasks|
  {
    if n == 0 then 0 else CountOpen(tasks, n - 1) + if Open(tasks[n - 1]) then 1 else 0
  }

  predicate OkLeaf(l: Leaf, clock: nat) {
    match l.ran
    case None => l.done.None?
    case Some(ran) =>
      && ran < clock
      && (l.done.None? <==> l.acquisitions > 0)
      && (l.done.Some? ==> ran < l.done.value < clock)
  }

  predicate Ok(t: Task, clock: nat) {
    match t
    case Leaf(l) => OkLeaf(l, clock)
    case Nested(b) =>
      if b.ran.None? then Fresh(t)
      else OkBatch(b, clock) && forall c | c in b.tasks :: Ok(c, clock)
  }

  /** Every task before `n` was run, after the batch was. */
  predicate RanUpTo(b: Batch, n: nat)
    requires b.ran.Some? && n <= |b.tasks|
  {
    forall j | 0 <= j < n :: RanAt(b.tasks[j]).Some? && b.ran.value < RanAt(b.tasks[j]).value
  }

  /** Every task before `n` is done, and was done before the next one was run. */
  predicate InTurnUpTo(b: Batch, n: nat)
    requires n <= |b.tasks|
  {
    && (forall j | 0 <= j < n :: DoneAt(b.tasks[j]).Some?)
    && forall i, j | 0 <= i < j < |b.tasks| && RanAt(b.tasks[j]).Some? ::
        DoneAt(b.tasks[i]).Some? && DoneAt(b.tasks[i]).value < RanAt(b.tasks[j]).value
  }

  /** What holds of a batch that was run, besides its tasks being in order themselves. */
  predicate OkBatch(b: Batch, clock: nat) {
    && b.ran.Some? && b.ran.value < clock
    && b.releases == (if b.done.Some? then 1 else 0)
    && (b.done.None? ==> b.acquisitions > 0)
    && (b.done.Some? ==> b.acquisitions == 0 && b.index >= |b.tasks| && b.ran.value < b.done.value < clock)
    && (b.done.Some? ==>
          forall t | t in b.tasks :: DoneAt(t).Some? && DoneAt(t).value < b.done.value)
    && match b.kind
       case Consecutive =>
         var n := if b.index < |b.tasks| then b.index else |b.tasks|;
         && RanUpTo(b, n) && InTurnUpTo(b, n)
         && (b.done.None? ==>
               && b.acquisitions == 1
               && b.index < |b.tasks| && RanUpTo(b, b.index + 1) && Open(b.tasks[b.index]))
         && (forall j | b.index < j < |b.tasks| :: Fresh(b.tasks[j]))
       case Concurrent =>
         && b.index >= |b.tasks| && RanUpTo(b, |b.tasks|)
         && b.acquisitions == CountOpen(b.tasks, |b.tasks|)
  }

  /** What holds of a batch that is about to run its task `index`. */
  predicate Starting(b: Batch, clock: nat) {
    && b.ran.Some? && b.ran.value < clock
    && b.done.None? && b.releases == 0
    && (b.index < |b.tasks| || b.index == |b.tasks| == 0)
    && RanUpTo(b, b.index)
    && (forall j | 0 <= j < b.index && DoneAt(b.tasks[j]).Some? :: DoneAt(b.tasks[j]).value < clock)
    && (forall j | b.index <= j < |b.tasks| :: Fresh(b.tasks[j]))
    && match b.kind
       case Consecutive => InTurnUpTo(b, b.index) && b.acquisitions == 1
       case Concurrent => b.acquisitions == 1 + CountOpen(b.tasks, b.index)
  }

  // ---------------------------------------------------------------- runs

  datatype Step = ReleaseAt(path: Path) | AcquireAt(path: Path) | CancelAt(path: Path)

  function Apply(s: After<Task>, step: Step): (r: After<Task>) {
    match step
    case ReleaseAt(path) =>
      var r := Release(s.value, path, s.clock);
      After(r.task, r.clock)
    case AcquireAt(path) => After(Acquire(s.value, path), s.clock)
    case CancelAt(path) => After(Cancel(s.value, path), s.clock)
  }

  /** What becomes of a tree when the environment does `steps`. */
  function PlayOn(s: After<Task>, steps: seq<Step>): (r: After<Task>) {
    if steps == [] then s else Apply(PlayOn(s, steps[..|steps| - 1]), steps[|steps| - 1])
  }

  /** The tree after it was run and the environment did `steps`. */
  function Play(t: Task, steps: seq<Step>): (r: After<Task>) {
    PlayOn(Run(t, 0), steps)
  }

  /** The task at `path`, if it was not dropped. */
  function At(t: Task, path: Path): (r: Option<Task>)
    decreases t
  {
    if path == [] then Some(t)
    else
      match t
      case Leaf(_) => None
      case Nested(b) => if path[0] < |b.tasks| then At(b.tasks[path[0]], path[1..]) else None
  }

  /** The environment has yet to release the hold of the leaf at `path`, which was run. */
  predicate Waiting(t: Task, path: Path) {
    var c := At(t, path);
    c.Some? && c.value.Leaf? && c.value.leaf.ran.Some? && c.value.leaf.acquisitions > 0
  }

  /** `c` is `t` later on, and as done as it was. */
  predicate Same(t: Task, c: Task) {
    && RanAt(c) == RanAt(t) && DoneAt(c) == DoneAt(t)
    && (Fresh(t) ==> Fresh(c))
  }

  /** `b1` is `b` later on, with no task run that had not been run before. */
  predicate NothingNew(b: Batch, b1: Batch) {
    && b1.ran == b.ran
    && |b1.tasks| <= |b.tasks|
    && forall j | 0 <= j < |b1.tasks| :: RanAt(b1.tasks[j]) == RanAt(b.tasks[j])
  }

  /** Every task was run. */
  predicate NoTaskLeft(b: Batch) {
    b.ran.Some? && forall j | 0 <= j < |b.tasks| :: RanAt(b.tasks[j]).Some?
  }

  /** The batch at `path`, none of whose tasks is left to start. */
  predicate Finishing(t: Task, path: Path, b: Batch) {
    var c := At(t, path);
    c.Some? && c.value.Nested? && NothingNew(b, c.value.batch) && NoTaskLeft(c.value.batch)
  }

  /** What can be said of a task all along, or from some time on. */
  datatype Claim =
    | NoTasks                          // a batch without tasks
    | Tasks(kind: Kind, n: int)        // a batch of `n` tasks, none of which cancels it
    | Trimmed                          // a batch in which a task that cancels it is the last one, once it was run
    | Count(n: int, cancels: bool)     // a leaf with `n` acquisitions

  predicate HoldsOfBatch(b: Batch, claim: Claim) {
    match claim
    case NoTasks => b.tasks == []
    case Tasks(kind, n) => b.kind == kind && |b.tasks| == n && forall c | c in b.tasks :: !Cancels(c)
    case Trimmed => forall j | 0 <= j < |b.tasks| - 1 && Cancels(b.tasks[j]) :: RanAt(b.tasks[j]).None?
    case Count(_, _) => false
  }

  /** The claim holds of the task at `path`, or that is not there any more. */
  predicate Claimed(t: Task, path: Path, claim: Claim)
    decreases t
  {
    match t
    case Leaf(l) => path == [] ==> claim == Count(l.acquisitions, l.cancels)
    case Nested(b) =>
      if path == [] then HoldsOfBatch(b, claim)
      else path[0] < |b.tasks| ==> Claimed(b.tasks[path[0]], path[1..], claim)
  }

  /** What a step that is addressed to `path` does to the number of acquisitions of a leaf there. */
  function Counted(n: int, path: Path, step: Step): int {
    if step == ReleaseAt(path) then n - 1
    else if step == AcquireAt(path) && n > 0 then n + 1
    else n
  }

  function AfterStep(claim: Claim, path: Path, step: Step): Claim {
    if claim.Count? then Count(Counted(claim.n, path, step), claim.cancels) else claim
  }

  /** How often the leaf at `path` was released. */
  function Releases(path: Path, steps: seq<Step>): nat {
    if steps == [] then 0
    else Releases(path, steps[..|steps| - 1]) + if steps[|steps| - 1] == ReleaseAt(path) then 1 else 0
  }

  /** How often a leaf at `path` that started with `n` acquisitions was acquired while it was held. */
  function Acquires(n: int, path: Path, steps: seq<Step>): nat {
    if steps == [] then 0
    else
      var before, step := steps[..|steps| - 1], steps[|steps| - 1];
      var held := n + Acquires(n, path, before) > Releases(path, before);
      Acquires(n, path, before) + if step == AcquireAt(path) && held then 1 else 0
  }

  // ---------------------------------------------------------------- main results; what they rest on follows

  /** A release keeps the invariant; it emits the task's release signal exactly when it makes it done. */
  lemma {:induction false} ReleaseKeeps(t: Task, path: Path, clock: nat)
    requires Ok(t, clock)
    ensures var r := Release(t, path, clock);
            && clock <= r.clock && Ok(r.task, r.clock) && RanAt(r.task) == RanAt(t)
            && (r.emitted <==> Open(t) && !Open(r.task))
            && (r.emitted ==> clock < r.clock)
            && (!r.emitted ==> Same(t, r.task))
    decreases t
  {
    match t
    case Leaf(l) =>
    case Nested(b) =>
      if path != [] && path[0] < |b.tasks| {
        var i := path[0];
        ReleaseChildKeeps(b, i, path[1..], clock);
      }
  }

  lemma {:induction false} AcquireKeeps(t: Task, path: Path, clock: nat)
    requires Ok(t, clock)
    ensures Ok(Acquire(t, path), clock) && Same(t, Acquire(t, path))
    decreases t
  {
    hide OkBatch;
    if t.Nested? && path != [] && path[0] < |t.batch.tasks| {
      var b, i := t.batch, path[0];
      OkChild(b, i, clock);
      AcquireKeeps(b.tasks[i], path[1..], clock);
      ChildSameKeeps(b, i, Acquire(b.tasks[i], path[1..]), clock);
    }
  }

  lemma {:induction false} CancelKeeps(t: Task, path: Path, clock: nat)
    requires Ok(t, clock)
    ensures Ok(Cancel(t, path), clock) && Same(t, Cancel(t, path))
    decreases t
  {
    hide OkBatch;
    if t.Nested? {
      var b := t.batch;
      if path == [] {
        CancelBatchKeeps(b, clock);
      } else if path[0] < |b.tasks| {
        var i := path[0];
        OkChild(b, i, clock);
        CancelKeeps(b.tasks[i], path[1..], clock);
        ChildSameKeeps(b, i, Cancel(b.tasks[i], path[1..]), clock);
      }
    }
  }

  lemma CancelBatchKeeps(b: Batch, clock: nat)
    requires Ok(Nested(b), clock)
    ensures Ok(Nested(CancelBatch(b)), clock) && Same(Nested(b), Nested(CancelBatch(b)))
  {
  }

  /** An open batch waits for a leaf below it. */
  lemma {:induction false} SomeoneHoldsIt(t: Task, clock: nat) returns (path: Path)
    requires Ok(t, clock) && Open(t)
    ensures Waiting(t, path)
    decreases t
  {
    path := [];
    if t.Nested? {
      var b := t.batch;
      var i := OpenTask(b, clock);
      var rest := SomeoneHoldsIt(b.tasks[i], clock);
      path := [i] + rest;
      assert path[1..] == rest;
    }
  }

  /** Nothing holds up a task that is done. */
  lemma {:induction false} NobodyHoldsIt(t: Task, path: Path, clock: nat)
    requires Ok(t, clock) && DoneAt(t).Some?
    ensures !Waiting(t, path)
    decreases t
  {
    if t.Nested? && path != [] && path[0] < |t.batch.tasks| {
      NobodyHoldsIt(t.batch.tasks[path[0]], path[1..], clock);
    }
  }

  /**
   For any tree of batches, any steps of the environment and any batch of the tree that was run: its hold
   has emitted one release signal if nobody below it is being waited for, and none otherwise; it did so
   after all its tasks were done; and a consecutive batch ran each task after the previous ones were done,
   while a concurrent one counts the tasks it waits for.
  */
  lemma Completion(t: Task, steps: seq<Step>, path: Path, b: Batch)
    requires Fresh(t)
    requires At(Play(t, steps).value, path) == Some(Nested(b)) && b.ran.Some?
    ensures b.releases == if exists p :: Waiting(Nested(b), p) then 0 else 1
    ensures b.releases == 1 <==> b.done.Some?
    ensures b.done.Some? ==>
            forall c | c in b.tasks :: DoneAt(c).Some? && DoneAt(c).value < b.done.value
    ensures b.kind == Consecutive ==>
            forall i, j | 0 <= i < j < |b.tasks| && RanAt(b.tasks[j]).Some? ::
              DoneAt(b.tasks[i]).Some? && DoneAt(b.tasks[i]).value < RanAt(b.tasks[j]).value
    ensures b.kind == Concurrent ==> b.acquisitions == CountOpen(b.tasks, |b.tasks|)
  {
    hide Fresh, Waiting, Play, CountOpen;
    var s := Play(t, steps);
    PlayKeeps(t, steps);
    OkAt(s.value, path, s.clock);
    if b.done.None? {
      var p := SomeoneHoldsIt(Nested(b), s.clock);
    } else {
      forall p ensures !Waiting(Nested(b), p) {
        NobodyHoldsIt(Nested(b), p, s.clock);
      }
    }
  }

  /** Cancelling drops only tasks of which nothing was run. */
  lemma CancelDropsFresh(b: Batch, clock: nat, j: nat)
    requires Ok(Nested(b), clock)
    requires |CancelBatch(b).tasks| <= j < |b.tasks|
    ensures Fresh(b.tasks[j])
  {
  }

  lemma {:induction false} FinishingStays(t: Task, path: Path, b: Batch, clock: nat, step: Step)
    requires Ok(t, clock) && Finishing(t, path, b)
    ensures Finishing(Apply(After(t, clock), step).value, path, b)
    decreases t
  {
    hide Ok, OkBatch, Fresh, OnTaskReleased, NothingNew, NoTaskLeft;
    var c := At(t, path).value.batch;
    if path == [] {
      NoTaskLeftStays(c, clock, step);
      NothingNewOnwards(b, c, Apply(After(t, clock), step).value.batch);
    } else {
      var outer, j := t.batch, path[0];
      FinishingRan(t, path, b);
      RanIsNotFresh(outer.tasks[j], path[1..]);
      OkChild(outer, j, clock);
      NotFreshIsEarlier(outer, clock, j);
      if step.path != [] && step.path[0] == j {
        FinishingStays(outer.tasks[j], path[1..], b, clock, Inner(step));
      }
      if step.path != [] && step.path[0] < |outer.tasks| && step.ReleaseAt? {
        var i := step.path[0];
        var r := Release(outer.tasks[i], step.path[1..], clock);
        OnTaskReleasedKeepsEarlier(outer.(tasks := outer.tasks[i := r.task]), r.clock, j);
      }
    }
  }

  /**
   A batch that was run and is cancelled, wherever it is in a tree: whatever the environment does then, anywhere in
   the tree, the batch stays in its place, and starts no task that had not been started before.
  */
  lemma CancelStopsTasks(t: Task, steps: seq<Step>, path: Path, b: Batch, later: seq<Step>)
    requires Fresh(t) && At(Play(t, steps).value, path) == Some(Nested(b)) && b.ran.Some?
    ensures Finishing(PlayOn(Apply(Play(t, steps), CancelAt(path)), later).value, path, b)
  {
    hide Ok, Fresh, Play, PlayOn, Cancel, At, Finishing;
    PlayKeeps(t, steps);
    var s := Play(t, steps);
    CancelLeaves(s.value, path, s.clock);
    CancelKeeps(s.value, path, s.clock);
    FinishingStaysOn(Apply(s, CancelAt(path)), path, b, later);
  }

  /**
   A batch that is cancelled before it was run, wherever it is in a tree, never has a task again: it runs as an
   empty one, unless a batch around it is cancelled first and drops it.
  */
  lemma CancelledBeforeTheStart(t: Task, steps: seq<Step>, path: Path, b: Batch, later: seq<Step>)
    requires Fresh(t) && At(Play(t, steps).value, path) == Some(Nested(b)) && b.ran.None?
    ensures var c := At(PlayOn(Apply(Play(t, steps), CancelAt(path)), later).value, path);
            c.None? || (c.value.Nested? && c.value.batch.tasks == [])
  {
    hide Fresh, Play, PlayOn, Cancel, At, Claimed;
    CancelEmpties(Play(t, steps).value, path);
    StaysClaimedOn(Apply(Play(t, steps), CancelAt(path)), path, NoTasks, later);
    ClaimedAt(PlayOn(Apply(Play(t, steps), CancelAt(path)), later).value, path, NoTasks);
  }

  /**
   A step adds one to the acquisitions of a leaf if it acquires that leaf while it is held, takes one off if it
   releases it, and leaves all others alone, whatever it makes the batches around do.
  */
  lemma StepCounts(s: After<Task>, path: Path, l: Leaf, step: Step)
    requires At(s.value, path) == Some(Leaf(l))
    ensures var c := At(Apply(s, step).value, path);
            c.Some? ==>
              && c.value.Leaf?
              && c.value.leaf.acquisitions
                 == (match step
                     case ReleaseAt(p) => if p == path then l.acquisitions - 1 else l.acquisitions
                     case AcquireAt(p) => if p == path && l.acquisitions > 0 then l.acquisitions + 1 else l.acquisitions
                     case CancelAt(_) => l.acquisitions)
  {
    hide Apply, Claimed;
    ClaimedFrom(s.value, path, Count(l.acquisitions, l.cancels));
    StaysClaimed(s, path, Count(l.acquisitions, l.cancels), step);
    ClaimedAt(Apply(s, step).value, path, AfterStep(Count(l.acquisitions, l.cancels), path, step));
  }

  /**
   At any time of any run, a leaf that was run is waited for if and only if the acquisitions it started with, and
   those it got while it was held, outnumber its releases.
  */
  lemma WaitingIff(t: Task, steps: seq<Step>, path: Path, l: Leaf)
    requires Fresh(t) && At(t, path) == Some(Leaf(l))
    ensures var c := At(Play(t, steps).value, path);
            c.Some? ==>
              && c.value.Leaf?
              && c.value.leaf.acquisitions
                 == l.acquisitions + Acquires(l.acquisitions, path, steps) - Releases(path, steps)
              && (Waiting(Play(t, steps).value, path)
                  <==> RanAt(c.value).Some?
                       && l.acquisitions + Acquires(l.acquisitions, path, steps) > Releases(path, steps))
  {
    hide Fresh, Run, PlayOn, Claimed, Acquires, Releases;
    var claim := Count(l.acquisitions, l.cancels);
    ClaimedFrom(t, path, claim);
    RunKeepsClaim(t, path, claim, 0);
    CountedOn(Run(t, 0), path, l.acquisitions, l.cancels, steps);
    ClaimedAt(Play(t, steps).value, path,
              Count(l.acquisitions + Acquires(l.acquisitions, path, steps) - Releases(path, steps), l.cancels));
  }

  /** A leaf that was run stays where it is. */
  lemma {:induction false} RanLeafStays(t: Task, path: Path, clock: nat, step: Step)
    requires Ok(t, clock) && At(t, path).Some? && At(t, path).value.Leaf? && RanAt(At(t, path).value).Some?
    ensures var c := At(Apply(After(t, clock), step).value, path);
            c.Some? && c.value.Leaf? && RanAt(c.value) == RanAt(At(t, path).value)
    decreases t
  {
    hide Ok, OkBatch, Fresh, OnTaskReleased;
    if path != [] {
      var outer, j := t.batch, path[0];
      RanIsNotFresh(outer.tasks[j], path[1..]);
      OkChild(outer, j, clock);
      NotFreshIsEarlier(outer, clock, j);
      if step.path != [] && step.path[0] == j {
        RanLeafStays(outer.tasks[j], path[1..], clock, Inner(step));
      }
      if step.path != [] && step.path[0] < |outer.tasks| && step.ReleaseAt? {
        var i := step.path[0];
        var r := Release(outer.tasks[i], step.path[1..], clock);
        OnTaskReleasedKeepsEarlier(outer.(tasks := outer.tasks[i := r.task]), r.clock, j);
      }
    }
  }

  /** From any time on, a leaf that was run is waited for as long as that balance is positive. */
  lemma WaitingOnIff(s: After<Task>, steps: seq<Step>, path: Path, l: Leaf)
    requires Ok(s.value, s.clock) && At(s.value, path) == Some(Leaf(l)) && l.ran.Some?
    ensures var c := At(PlayOn(s, steps).value, path);
            && c.Some? && c.value.Leaf? && RanAt(c.value) == l.ran
            && c.value.leaf.acquisitions
               == l.acquisitions + Acquires(l.acquisitions, path, steps) - Releases(path, steps)
            && (Waiting(PlayOn(s, steps).value, path)
                <==> l.acquisitions + Acquires(l.acquisitions, path, steps) > Releases(path, steps))
  {
    hide Ok, PlayOn, Claimed, Acquires, Releases;
    ClaimedFrom(s.value, path, Count(l.acquisitions, l.cancels));
    CountedOn(s, path, l.acquisitions, l.cancels, steps);
    ClaimedAt(PlayOn(s, steps).value, path,
              Count(l.acquisitions + Acquires(l.acquisitions, path, steps) - Releases(path, steps), l.cancels));
    RanLeafStaysOn(s, path, steps);
  }

  /** A batch that nobody cancels keeps its kind and all its tasks, unless it is dropped with a batch around it. */
  lemma TasksAreKept(t: Task, steps: seq<Step>, path: Path, b: Batch)
    requires Fresh(t) && At(t, path) == Some(Nested(b)) && (forall c | c in b.tasks :: c.Leaf? ==> !c.leaf.cancels)
    requires CancelAt(path) !in steps
    ensures var c := At(Play(t, steps).value, path);
            c.Some? ==> c.value.Nested? && c.value.batch.kind == b.kind && |c.value.batch.tasks| == |b.tasks|
  {
    hide Fresh, Run, PlayOn, Claimed;
    var claim := Tasks(b.kind, |b.tasks|);
    ClaimedFrom(t, path, claim);
    RunKeepsClaim(t, path, claim, 0);
    StaysClaimedOn(Run(t, 0), path, claim, steps);
    ClaimedAt(Play(t, steps).value, path, claim);
  }

  /** A task that cancels its batch is the last one that was run there, and nothing is left behind it. */
  lemma CancellingTaskIsLast(t: Task, steps: seq<Step>, path: Path, b: Batch, j: nat)
    requires Fresh(t) && At(Play(t, steps).value, path) == Some(Nested(b))
    requires j < |b.tasks| && b.tasks[j].Leaf? && b.tasks[j].leaf.cancels && RanAt(b.tasks[j]).Some?
    ensures j == |b.tasks| - 1
  {
    hide Fresh, Run, PlayOn, Claimed, RanAt;
    if At(t, path).Some? && At(t, path).value.Leaf? {
      WaitingIff(t, steps, path, At(t, path).value.leaf);
    }
    FreshIsTrimmed(t, path);
    RunKeepsClaim(t, path, Trimmed, 0);
    StaysClaimedOn(Run(t, 0), path, Trimmed, steps);
    ClaimedAt(Play(t, steps).value, path, Trimmed);
  }

  // ---------------------------------------------------------------- what keeps the invariant

  lemma {:induction false} OkLater(t: Task, clock: nat, later: nat)
    requires Ok(t, clock) && clock <= later
    ensures Ok(t, later)
  {
    if t.Nested? && t.batch.ran.Some? {
      forall c | c in t.batch.tasks ensures Ok(c, later) {
        OkLater(c, clock, later);
      }
    }
  }

  lemma OkAllLater(tasks: seq<Task>, clock: nat, later: nat)
    requires clock <= later && forall t | t in tasks :: Ok(t, clock)
    ensures forall t | t in tasks :: Ok(t, later)
  {
    forall t | t in tasks ensures Ok(t, later) {
      OkLater(t, clock, later);
    }
  }

  lemma {:induction false} CountOpenKept(a: seq<Task>, b: seq<Task>, n: nat)
    requires n <= |a| && n <= |b|
    requires forall j | 0 <= j < n :: Open(a[j]) == Open(b[j])
    ensures CountOpen(a, n) == CountOpen(b, n)
  {
    if n > 0 {
      CountOpenKept(a, b, n - 1);
    }
  }

  lemma {:induction false} CountOpenZero(tasks: seq<Task>, n: nat)
    requires n <= |tasks|
    ensures CountOpen(tasks, n) == 0 <==> forall j | 0 <= j < n :: !Open(tasks[j])
  {
    if n > 0 {
      CountOpenZero(tasks, n - 1);
    }
  }

  /** When the open task `i` stops being open, one task less is. */
  lemma {:induction false} CountOpenLess(a: seq<Task>, i: nat, t: Task, n: nat)
    requires i < |a| && n <= |a| && Open(a[i]) && !Open(t)
    ensures CountOpen(a[i := t], n) == CountOpen(a, n) - if i < n then 1 else 0
  {
    if n > 0 {
      CountOpenLess(a, i, t, n - 1);
    }
  }

  lemma {:induction false} RunKeeps(t: Task, clock: nat)
    requires Fresh(t)
    ensures var r := Run(t, clock);
            && clock < r.clock && Ok(r.value, r.clock)
            && RanAt(r.value) == Some(clock)
            && (IsAcquired(r.value) <==> Open(r.value))
    decreases Size(t), 0
  {
    if t.Nested? {
      var b := t.batch.(index := 0, acquisitions := 1, ran := Some(clock));
      forall c | c in b.tasks ensures Fresh(c) && RanAt(c).None? {
      }
      ProcessKeeps(b, clock + 1);
    }
  }

  /** `b1` is `b` after its current task was run, between `clock` and `later`. */
  predicate TaskRun(b: Batch, b1: Batch, clock: nat, later: nat) {
    && Starting(b, clock) && b.tasks != []
    && clock < later
    && b.index < |b1.tasks| <= |b.tasks|
    && b1 == b.(tasks := b1.tasks)
    && (forall j | 0 <= j < |b1.tasks| && j != b.index :: b1.tasks[j] == b.tasks[j])
    && RanAt(b1.tasks[b.index]) == Some(clock)
    && (DoneAt(b1.tasks[b.index]).Some? ==> clock < DoneAt(b1.tasks[b.index]).value < later)
  }

  lemma RunTaskRuns(b: Batch, clock: nat)
    requires Starting(b, clock) && b.tasks != []
    ensures var r := RunTask(b, clock);
            && TaskRun(b, r.value, clock, r.clock)
            && Ok(r.value.tasks[b.index], r.clock)
            && (IsAcquired(r.value.tasks[b.index]) <==> Open(r.value.tasks[b.index]))
    decreases SizeFrom(b.tasks, b.index), 1
  {
    RunKeeps(b.tasks[b.index], clock);
    DoneAfterRan(Run(b.tasks[b.index], clock).value, Run(b.tasks[b.index], clock).clock);
  }

  lemma DoneAfterRan(t: Task, clock: nat)
    requires Ok(t, clock)
    ensures DoneAt(t).Some? ==> RanAt(t).Some? && RanAt(t).value < DoneAt(t).value < clock
  {
  }

  /** A consecutive batch waits for the task it just ran. */
  lemma WaitKeeps(b: Batch, b1: Batch, clock: nat, later: nat)
    requires TaskRun(b, b1, clock, later)
    requires b.kind == Consecutive && Open(b1.tasks[b.index])
    ensures OkBatch(b1, later)
  {
  }

  /** The next task can be run. */
  lemma AdvanceKeeps(b: Batch, b1: Batch, clock: nat, later: nat)
    requires TaskRun(b, b1, clock, later)
    requires b.kind == Consecutive ==> !Open(b1.tasks[b.index])
    requires b.index + 1 < |b1.tasks|
    ensures Starting(Advanced(b1, Open(b1.tasks[b.index])), later)
  {
    CountOpenKept(b.tasks, b1.tasks, b.index);
  }

  /** The last task was run. */
  lemma FinishKeeps(b: Batch, b1: Batch, clock: nat, later: nat)
    requires TaskRun(b, b1, clock, later)
    requires b.kind == Consecutive ==> !Open(b1.tasks[b.index])
    requires b.index + 1 >= |b1.tasks|
    ensures var r := ReleaseHold(Advanced(b1, Open(b1.tasks[b.index])), later);
            OkBatch(r.value, r.clock)
  {
    CountOpenKept(b.tasks, b1.tasks, b.index);
    CountOpenZero(b1.tasks, b.index + 1);
  }

  /** `r` is `b` run as far as it goes. */
  predicate Processed(b: Batch, clock: nat, r: After<Batch>) {
    && clock <= r.clock && OkBatch(r.value, r.clock)
    && (forall t | t in r.value.tasks :: Ok(t, r.clock))
    && r.value.ran == b.ran && r.value.kind == b.kind
  }

  lemma {:induction false} ProcessKeeps(b: Batch, clock: nat)
    requires Starting(b, clock)
    requires forall j | 0 <= j < b.index :: Ok(b.tasks[j], clock)
    ensures Processed(b, clock, Process(b, clock))
    decreases SizeFrom(b.tasks, b.index), 2
  {
    hide Ok, OkBatch, Run, RunTask, Starting, ReleaseHold, Processed;
    if b.tasks == [] {
      ProcessEmpty(b, clock);
    } else {
      RunTaskRuns(b, clock);
      var r := RunTask(b, clock);
      TasksStayOk(b, r.value, clock, r.clock);
      var held := IsAcquired(r.value.tasks[b.index]);
      var b1 := Advanced(r.value, held);
      ProcessStep(b, clock);
      if b.kind == Consecutive && held {
        WaitProcessed(b, r.value, clock, r.clock);
      } else if b1.index >= |b1.tasks| {
        FinishProcessed(b, r.value, clock, r.clock);
      } else {
        AdvanceKeeps(b, r.value, clock, r.clock);
        SizeFromKept(b.tasks, b1.tasks, b1.index);
        ProcessKeeps(b1, r.clock);
        ProcessedFurther(b, b1, clock, r.clock, Process(b1, r.clock));
      }
    }
  }

  lemma ProcessStep(b: Batch, clock: nat)
    ensures var r := RunTask(b, clock);
            var held := b.index < |b.tasks| && IsAcquired(r.value.tasks[b.index]);
            var b1 := Advanced(r.value, held);
            Process(b, clock) ==
              if b.kind == Consecutive && held then r
              else if b1.index >= |b1.tasks| then ReleaseHold(b1, r.clock)
              else Process(b1, r.clock)
  {
  }

  lemma ProcessEmpty(b: Batch, clock: nat)
    requires Starting(b, clock) && b.tasks == []
    ensures Processed(b, clock, Process(b, clock))
  {
  }

  lemma TasksStayOk(b: Batch, b1: Batch, clock: nat, later: nat)
    requires TaskRun(b, b1, clock, later)
    requires forall j | 0 <= j < b.index :: Ok(b.tasks[j], clock)
    requires Ok(b1.tasks[b.index], later)
    ensures forall j | 0 <= j <= b.index :: Ok(b1.tasks[j], later)
  {
    forall j | 0 <= j < b.index ensures Ok(b1.tasks[j], later) {
      OkLater(b.tasks[j], clock, later);
    }
  }

  lemma FreshIsOk(t: Task, clock: nat)
    requires Fresh(t)
    ensures Ok(t, clock)
  {
  }

  lemma WaitProcessed(b: Batch, b1: Batch, clock: nat, later: nat)
    requires TaskRun(b, b1, clock, later)
    requires forall j | 0 <= j <= b.index :: Ok(b1.tasks[j], later)
    requires b.kind == Consecutive && Open(b1.tasks[b.index])
    ensures Processed(b, clock, After(b1, later))
  {
    hide OkBatch, Ok;
    WaitKeeps(b, b1, clock, later);
    forall t | t in b1.tasks ensures Ok(t, later) {
      if Fresh(t) {
        FreshIsOk(t, later);
      }
    }
  }

  lemma FinishProcessed(b: Batch, b1: Batch, clock: nat, later: nat)
    requires TaskRun(b, b1, clock, later)
    requires forall j | 0 <= j <= b.index :: Ok(b1.tasks[j], later)
    requires b.kind == Consecutive ==> !Open(b1.tasks[b.index])
    requires b.index + 1 >= |b1.tasks|
    ensures Processed(b, clock, ReleaseHold(Advanced(b1, Open(b1.tasks[b.index])), later))
  {
    hide OkBatch, Ok, Fresh, CountOpen, RanUpTo, InTurnUpTo;
    FinishKeeps(b, b1, clock, later);
    OkAllLater(b1.tasks, later, later + 1);
  }

  lemma ProcessedFurther(b: Batch, b2: Batch, clock: nat, later: nat, r: After<Batch>)
    requires Processed(b2, later, r) && clock <= later
    requires b2.ran == b.ran && b2.kind == b.kind
    ensures Processed(b, clock, r)
  {
  }

  // ---------------------------------------------------------------- releases, acquisitions, cancellations

  lemma ChildSame(b: Batch, i: nat, c: Task, clock: nat, later: nat)
    requires OkBatch(b, clock) && clock <= later
    requires i < |b.tasks| && Same(b.tasks[i], c)
    ensures OkBatch(b.(tasks := b.tasks[i := c]), later)
  {
    hide Fresh;
    CountOpenKept(b.tasks, b.tasks[i := c], |b.tasks|);
  }

  /** The open task of a consecutive batch is its current one. */
  lemma OpenIsCurrent(b: Batch, i: nat, clock: nat)
    requires OkBatch(b, clock) && i < |b.tasks| && Open(b.tasks[i])
    ensures b.done.None?
    ensures b.kind == Consecutive ==> i == b.index
  {
  }

  /** The task that a consecutive batch waited for is done. */
  lemma CurrentDone(b: Batch, c: Task, clock: nat, later: nat)
    requires OkBatch(b, clock) && clock < later && b.kind == Consecutive && b.done.None?
    requires forall j | 0 <= j < b.index < |b.tasks| :: DoneAt(b.tasks[j]).Some? ==> DoneAt(b.tasks[j]).value < clock
    requires b.index < |b.tasks| && RanAt(c) == RanAt(b.tasks[b.index])
    requires DoneAt(c).Some? && DoneAt(c).value < later
    ensures var b1 := b.(tasks := b.tasks[b.index := c], index := b.index + 1);
            if b1.index < |b1.tasks| then Starting(b1, later)
            else OkBatch(ReleaseHold(b1, later).value, ReleaseHold(b1, later).clock)
  {
    hide Fresh, CountOpen;
  }

  /** One of the tasks that a concurrent batch waits for is done. */
  lemma AwaitedDone(b: Batch, i: nat, c: Task, clock: nat, later: nat)
    requires OkBatch(b, clock) && clock < later && b.kind == Concurrent
    requires i < |b.tasks| && Open(b.tasks[i]) && RanAt(c) == RanAt(b.tasks[i])
    requires forall j | 0 <= j < |b.tasks| :: DoneAt(b.tasks[j]).Some? ==> DoneAt(b.tasks[j]).value < clock
    requires DoneAt(c).Some? && DoneAt(c).value < later
    ensures var r := ReleaseHold(b.(tasks := b.tasks[i := c]), later);
            OkBatch(r.value, r.clock)
  {
    hide Fresh;
    var tasks := b.tasks[i := c];
    CountOpenLess(b.tasks, i, c, |b.tasks|);
    CountOpenZero(tasks, |tasks|);
  }

  lemma DonesBefore(b: Batch, clock: nat)
    requires forall t | t in b.tasks :: Ok(t, clock)
    ensures forall j | 0 <= j < |b.tasks| :: DoneAt(b.tasks[j]).Some? ==> DoneAt(b.tasks[j]).value < clock
  {
    hide OkBatch;
    forall j | 0 <= j < |b.tasks| ensures DoneAt(b.tasks[j]).Some? ==> DoneAt(b.tasks[j]).value < clock {
      DoneAfterRan(b.tasks[j], clock);
    }
  }

  /** A batch goes on after the release signal of one of its tasks. */
  lemma TaskReleasedKeeps(b: Batch, i: nat, c: Task, clock: nat, later: nat)
    requires OkBatch(b, clock) && (forall t | t in b.tasks :: Ok(t, clock))
    requires clock < later && i < |b.tasks| && Open(b.tasks[i])
    requires Ok(c, later) && RanAt(c) == RanAt(b.tasks[i]) && DoneAt(c).Some?
    ensures Processed(b, later, OnTaskReleased(b.(tasks := b.tasks[i := c]), later))
  {
    hide Ok, OkBatch, Starting, Process, Fresh;
    var b1 := b.(tasks := b.tasks[i := c]);
    OpenIsCurrent(b, i, clock);
    DonesBefore(b, clock);
    DoneAfterRan(c, later);
    forall t | t in b1.tasks ensures Ok(t, later) && Ok(t, later + 1) {
      if t in b.tasks {
        OkLater(t, clock, later);
      }
      OkLater(t, later, later + 1);
    }
    match b.kind
    case Consecutive =>
      CurrentDone(b, c, clock, later);
      if b.index + 1 < |b.tasks| {
        ProcessKeeps(b1.(index := b.index + 1), later);
      }
    case Concurrent =>
      AwaitedDone(b, i, c, clock, later);
  }

  lemma {:induction false} ReleaseChildKeeps(b: Batch, i: nat, path: Path, clock: nat)
    requires Ok(Nested(b), clock) && i < |b.tasks|
    ensures var t := Nested(b);
            var r := Release(t, [i] + path, clock);
            && clock <= r.clock && Ok(r.task, r.clock) && RanAt(r.task) == RanAt(t)
            && (r.emitted <==> Open(t) && !Open(r.task))
            && (r.emitted ==> clock < r.clock)
            && (!r.emitted ==> Same(t, r.task))
    decreases b
  {
    assert ([i] + path)[1..] == path;
    var c := Release(b.tasks[i], path, clock);
    if b.ran.Some? {
      ReleaseKeeps(b.tasks[i], path, clock);
      if c.emitted {
        TaskReleasedKeeps(b, i, c.task, clock, c.clock);
      } else {
        ChildSame(b, i, c.task, clock, c.clock);
        forall t | t in b.tasks[i := c.task] ensures Ok(t, c.clock) {
          if t in b.tasks {
            OkLater(t, clock, c.clock);
          }
        }
      }
    } else {
      assert Fresh(b.tasks[i]);
      FreshIsOk(b.tasks[i], clock);
      ReleaseKeeps(b.tasks[i], path, clock);
    }
  }

  lemma ChildSameKeeps(b: Batch, i: nat, c: Task, clock: nat)
    requires Ok(Nested(b), clock) && i < |b.tasks|
    requires Same(b.tasks[i], c) && Ok(c, clock)
    ensures var t := Nested(b.(tasks := b.tasks[i := c]));
            Ok(t, clock) && Same(Nested(b), t)
  {
    hide OkBatch;
    if b.ran.Some? {
      ChildSame(b, i, c, clock, clock);
    } else {
      assert Fresh(b.tasks[i]);
    }
  }

  lemma OkChild(b: Batch, i: nat, clock: nat)
    requires Ok(Nested(b), clock) && i < |b.tasks|
    ensures Ok(b.tasks[i], clock)
  {
    hide OkBatch;
    if b.ran.None? {
      FreshIsOk(b.tasks[i], clock);
    }
  }

  // ---------------------------------------------------------------- invariants of a run

  lemma PlayKeeps(t: Task, steps: seq<Step>)
    requires Fresh(t)
    ensures var s := Play(t, steps);
            Ok(s.value, s.clock) && RanAt(s.value).Some?
  {
    hide Ok, Fresh, Run, PlayOn;
    RunKeeps(t, 0);
    PlayOnKeeps(Run(t, 0), steps);
  }

  lemma {:induction false} PlayOnKeeps(s: After<Task>, steps: seq<Step>)
    requires Ok(s.value, s.clock)
    ensures var r := PlayOn(s, steps);
            Ok(r.value, r.clock) && RanAt(r.value) == RanAt(s.value)
  {
    hide Ok, Apply;
    if steps != [] {
      PlayOnKeeps(s, steps[..|steps| - 1]);
      ApplyKeeps(PlayOn(s, steps[..|steps| - 1]), steps[|steps| - 1]);
    }
  }

  lemma ApplyKeeps(s: After<Task>, step: Step)
    requires Ok(s.value, s.clock)
    ensures var r := Apply(s, step);
            Ok(r.value, r.clock) && RanAt(r.value) == RanAt(s.value)
  {
    hide Ok, Release, Acquire, Cancel;
    match step
    case ReleaseAt(path) => ReleaseKeeps(s.value, path, s.clock);
    case AcquireAt(path) => AcquireKeeps(s.value, path, s.clock);
    case CancelAt(path) => CancelKeeps(s.value, path, s.clock);
  }

  lemma {:induction false} OkAt(t: Task, path: Path, clock: nat)
    requires Ok(t, clock) && At(t, path).Some?
    ensures Ok(At(t, path).value, clock)
    decreases t
  {
    hide OkBatch;
    if path != [] {
      OkChild(t.batch, path[0], clock);
      OkAt(t.batch.tasks[path[0]], path[1..], clock);
    }
  }

  lemma OpenTask(b: Batch, clock: nat) returns (i: nat)
    requires OkBatch(b, clock) && b.done.None?
    ensures i < |b.tasks| && Open(b.tasks[i])
  {
    match b.kind
    case Consecutive =>
      i := b.index;
    case Concurrent =>
      CountOpenZero(b.tasks, |b.tasks|);
      i :| i < |b.tasks| && Open(b.tasks[i]);
  }

  // ---------------------------------------------------------------- batches with no task left

  lemma NoTaskLeftStays(b: Batch, clock: nat, step: Step)
    requires Ok(Nested(b), clock) && NoTaskLeft(b)
    ensures var r := Apply(After(Nested(b), clock), step).value;
            r.Nested? && NothingNew(b, r.batch) && NoTaskLeft(r.batch)
  {
    hide OkBatch;
    if step.path != [] && step.path[0] < |b.tasks| {
      var i, path := step.path[0], step.path[1..];
      var c := b.tasks[i];
      match step
      case ReleaseAt(_) =>
        ReleaseKeeps(c, path, clock);
        var r := Release(c, path, clock);
        if r.emitted {
          OpenIsLast(b, i, clock);
        }
      case AcquireAt(_) => AcquireKeeps(c, path, clock);
      case CancelAt(_) => CancelKeeps(c, path, clock);
    }
  }

  lemma OpenIsLast(b: Batch, i: nat, clock: nat)
    requires OkBatch(b, clock) && NoTaskLeft(b)
    requires i < |b.tasks| && Open(b.tasks[i])
    ensures b.kind == Consecutive ==> b.index + 1 >= |b.tasks|
  {
    OpenIsCurrent(b, i, clock);
    assert RanAt(b.tasks[|b.tasks| - 1]).Some?;
  }

  lemma CancelLeavesNoTask(b: Batch, clock: nat)
    requires Ok(Nested(b), clock) && b.ran.Some?
    ensures NoTaskLeft(CancelBatch(b)) && NothingNew(b, CancelBatch(b))
  {
  }

  // ---------------------------------------------------------------- cancelling any batch of a tree

  lemma {:induction false} ProcessKeepsEarlier(b: Batch, clock: nat, j: nat)
    requires j < b.index && j < |b.tasks|
    ensures var r := Process(b, clock).value;
            j < |r.tasks| && r.tasks[j] == b.tasks[j]
    decreases SizeFrom(b.tasks, b.index)
  {
    hide Run, Process;
    ProcessStep(b, clock);
    var r := RunTask(b, clock);
    RunTaskKeepsEarlier(b, clock, j);
    var held := b.index < |b.tasks| && IsAcquired(r.value.tasks[b.index]);
    var b1 := Advanced(r.value, held);
    if !(b.kind == Consecutive && held) && b1.index < |b1.tasks| {
      SizeFromKept(b.tasks, b1.tasks, b1.index);
      ProcessKeepsEarlier(b1, r.clock, j);
    }
  }

  lemma RunTaskKeepsEarlier(b: Batch, clock: nat, j: nat)
    requires j < b.index && j < |b.tasks|
    ensures var r := RunTask(b, clock).value;
            j < |r.tasks| && r.tasks[j] == b.tasks[j]
  {
    hide Run;
  }

  /** Nothing below a task was run that itself was not. */
  lemma {:induction false} FreshAt(t: Task, path: Path)
    requires Fresh(t) && At(t, path).Some?
    ensures RanAt(At(t, path).value).None?
    decreases t
  {
    if path != [] {
      FreshAt(t.batch.tasks[path[0]], path[1..]);
    }
  }

  /** Going on after a task is done touches no task that was run before. */
  lemma OnTaskReleasedKeepsEarlier(b: Batch, clock: nat, j: nat)
    requires j < |b.tasks| && (b.kind == Consecutive ==> j <= b.index)
    ensures var r := OnTaskReleased(b, clock).value;
            j < |r.tasks| && r.tasks[j] == b.tasks[j]
  {
    hide Process;
    if b.kind == Consecutive && b.index + 1 < |b.tasks| {
      ProcessKeepsEarlier(b.(index := b.index + 1), clock, j);
    }
  }

  /** A task that is not fresh is not one that a batch has yet to run. */
  lemma NotFreshIsEarlier(b: Batch, clock: nat, j: nat)
    requires Ok(Nested(b), clock) && j < |b.tasks| && !Fresh(b.tasks[j])
    ensures b.ran.Some? && j <= b.index
  {
  }

  /** The same step, seen from the task that it goes through. */
  function Inner(step: Step): Step
    requires step.path != []
  {
    match step
    case ReleaseAt(path) => ReleaseAt(path[1..])
    case AcquireAt(path) => AcquireAt(path[1..])
    case CancelAt(path) => CancelAt(path[1..])
  }

  lemma RanIsNotFresh(t: Task, path: Path)
    requires At(t, path).Some? && RanAt(At(t, path).value).Some?
    ensures !Fresh(t)
  {
    hide Fresh;
    if Fresh(t) {
      FreshAt(t, path);
    }
  }

  lemma FinishingRan(t: Task, path: Path, b: Batch)
    requires Finishing(t, path, b)
    ensures RanAt(At(t, path).value).Some?
  {
  }

  lemma NothingNewOnwards(b: Batch, b1: Batch, b2: Batch)
    requires NothingNew(b, b1) && NothingNew(b1, b2)
    ensures NothingNew(b, b2)
  {
  }

  lemma {:induction false} FinishingStaysOn(s: After<Task>, path: Path, b: Batch, later: seq<Step>)
    requires Ok(s.value, s.clock) && Finishing(s.value, path, b)
    ensures Finishing(PlayOn(s, later).value, path, b)
  {
    hide Ok, Finishing, Apply;
    if later != [] {
      var n := |later| - 1;
      FinishingStaysOn(s, path, b, later[..n]);
      PlayOnKeeps(s, later[..n]);
      FinishingStays(PlayOn(s, later[..n]).value, path, b, PlayOn(s, later[..n]).clock, later[n]);
    }
  }

  lemma {:induction false} CancelLeaves(t: Task, path: Path, clock: nat)
    requires Ok(t, clock) && At(t, path).Some? && At(t, path).value.Nested? && RanAt(At(t, path).value).Some?
    ensures Finishing(Cancel(t, path), path, At(t, path).value.batch)
    decreases t
  {
    hide OkBatch, NothingNew, NoTaskLeft;
    if path == [] {
      CancelLeavesNoTask(t.batch, clock);
    } else {
      OkChild(t.batch, path[0], clock);
      CancelLeaves(t.batch.tasks[path[0]], path[1..], clock);
    }
  }

  // ---------------------------------------------------------------- claims

  lemma {:induction false} RunKeepsClaim(t: Task, path: Path, claim: Claim, clock: nat)
    requires Claimed(t, path, claim)
    ensures Claimed(Run(t, clock).value, path, claim) && Cancels(Run(t, clock).value) == Cancels(t)
    decreases Size(t), 0
  {
    hide Process;
    if t.Nested? {
      var b := t.batch.(index := 0, acquisitions := 1, ran := Some(clock));
      ProcessKeepsClaim(b, path, claim, clock + 1);
    }
  }

  lemma RunTaskKeepsClaim(b: Batch, path: Path, claim: Claim, clock: nat)
    requires Claimed(Nested(b), path, claim)
    ensures Claimed(Nested(RunTask(b, clock).value), path, claim)
    decreases SizeFrom(b.tasks, b.index), 1
  {
    hide Run;
    if b.index < |b.tasks| {
      if path != [] && path[0] == b.index {
        RunKeepsClaim(b.tasks[b.index], path[1..], claim, clock);
      }
      RunKeepsCancels(b.tasks[b.index], clock);
    }
  }

  lemma RunKeepsCancels(t: Task, clock: nat)
    ensures Cancels(Run(t, clock).value) == Cancels(t)
  {
    hide Process;
  }

  lemma {:induction false} ProcessKeepsClaim(b: Batch, path: Path, claim: Claim, clock: nat)
    requires Claimed(Nested(b), path, claim)
    ensures Claimed(Nested(Process(b, clock).value), path, claim)
    decreases SizeFrom(b.tasks, b.index), 2
  {
    hide Run, Process, HoldsOfBatch;
    ProcessStep(b, clock);
    RunTaskKeepsClaim(b, path, claim, clock);
    var r := RunTask(b, clock);
    var held := b.index < |b.tasks| && IsAcquired(r.value.tasks[b.index]);
    var b1 := Advanced(r.value, held);
    SameTasksSameClaim(r.value, b1, path, claim);
    SameTasksSameClaim(b1, ReleaseHold(b1, r.clock).value, path, claim);
    if !(b.kind == Consecutive && held) && b1.index < |b1.tasks| {
      SizeFromKept(b.tasks, b1.tasks, b1.index);
      ProcessKeepsClaim(b1, path, claim, r.clock);
    }
  }

  lemma SameTasksSameClaim(b: Batch, b1: Batch, path: Path, claim: Claim)
    requires Claimed(Nested(b), path, claim) && b1.kind == b.kind && b1.tasks == b.tasks
    ensures Claimed(Nested(b1), path, claim)
  {
  }

  /** One task of a batch has changed, but not whether it cancels the batch. */
  lemma ChildKeepsClaim(b: Batch, i: nat, c: Task, path: Path, claim: Claim, claim': Claim)
    requires Claimed(Nested(b), path, claim) && i < |b.tasks|
    requires Cancels(c) == Cancels(b.tasks[i]) && (Cancels(c) ==> RanAt(c) == RanAt(b.tasks[i]))
    requires if path != [] && path[0] == i then Claimed(c, path[1..], claim') else claim' == claim
    ensures Claimed(Nested(b.(tasks := b.tasks[i := c])), path, claim')
  {
    hide Cancels, RanAt;
  }

  /** Claims survive all steps, but for a batch that is cancelled, and for the count of a leaf. */
  lemma {:induction false} StaysClaimed(s: After<Task>, path: Path, claim: Claim, step: Step)
    requires Claimed(s.value, path, claim) && (claim.Tasks? ==> step != CancelAt(path))
    ensures Claimed(Apply(s, step).value, path, AfterStep(claim, path, step))
    decreases s.value
  {
    hide Process, OnTaskReleased, Cancels, HoldsOfBatch;
    if s.value.Nested? && step.path != [] && step.path[0] < |s.value.batch.tasks| {
      var b, i, claim' := s.value.batch, step.path[0], AfterStep(claim, path, step);
      var c := Apply(After(b.tasks[i], s.clock), Inner(step)).value;
      StepKeepsCancels(After(b.tasks[i], s.clock), Inner(step));
      if path != [] {
        assert path == [path[0]] + path[1..] && step.path == [i] + step.path[1..];
        if path[0] == i {
          StaysClaimed(After(b.tasks[i], s.clock), path[1..], claim, Inner(step));
        }
      }
      ChildKeepsClaim(b, i, c, path, claim, claim');
      if step.ReleaseAt? {
        var r := Release(b.tasks[i], step.path[1..], s.clock);
        OnTaskReleasedKeepsClaim(b.(tasks := b.tasks[i := r.task]), path, claim', r.clock);
      }
    } else if s.value.Nested? && step.CancelAt? && step.path == [] {
      CancelKeepsClaim(s.value.batch, path, claim);
    } else if s.value.Nested? && path == [] {
      OnlyLeavesCount(s.value.batch, claim);
    }
  }

  lemma OnlyLeavesCount(b: Batch, claim: Claim)
    ensures HoldsOfBatch(b, claim) ==> !claim.Count?
  {
  }

  lemma CancelKeepsClaim(b: Batch, path: Path, claim: Claim)
    requires Claimed(Nested(b), path, claim) && (claim.Tasks? ==> path != [])
    ensures Claimed(Nested(CancelBatch(b)), path, claim)
  {
  }

  lemma StepKeepsCancels(s: After<Task>, step: Step)
    ensures Cancels(Apply(s, step).value) == Cancels(s.value)
    ensures Cancels(s.value) ==> RanAt(Apply(s, step).value) == RanAt(s.value)
  {
  }

  lemma OnTaskReleasedKeepsClaim(b: Batch, path: Path, claim: Claim, clock: nat)
    requires Claimed(Nested(b), path, claim)
    ensures Claimed(Nested(OnTaskReleased(b, clock).value), path, claim)
  {
    hide Process;
    var b1 := b.(index := b.index + 1);
    assert Claimed(Nested(b1), path, claim);
    if b.kind == Consecutive && b1.index < |b1.tasks| {
      ProcessKeepsClaim(b1, path, claim, clock);
    }
  }

  lemma {:induction false} StaysClaimedOn(s: After<Task>, path: Path, claim: Claim, later: seq<Step>)
    requires Claimed(s.value, path, claim) && !claim.Count? && (claim.Tasks? ==> CancelAt(path) !in later)
    ensures Claimed(PlayOn(s, later).value, path, claim)
  {
    hide Claimed, Apply;
    if later != [] {
      StaysClaimedOn(s, path, claim, later[..|later| - 1]);
      StaysClaimed(PlayOn(s, later[..|later| - 1]), path, claim, later[|later| - 1]);
    }
  }

  lemma {:induction false} RanLeafStaysOn(s: After<Task>, path: Path, steps: seq<Step>)
    requires Ok(s.value, s.clock)
    requires At(s.value, path).Some? && At(s.value, path).value.Leaf? && RanAt(At(s.value, path).value).Some?
    ensures var c := At(PlayOn(s, steps).value, path);
            c.Some? && c.value.Leaf? && RanAt(c.value) == RanAt(At(s.value, path).value)
  {
    hide Ok, At, RanAt, Apply;
    if steps != [] {
      var n := |steps| - 1;
      RanLeafStaysOn(s, path, steps[..n]);
      PlayOnKeeps(s, steps[..n]);
      RanLeafStays(PlayOn(s, steps[..n]).value, path, PlayOn(s, steps[..n]).clock, steps[n]);
    }
  }

  lemma {:induction false} CountedOn(s: After<Task>, path: Path, n: int, cancels: bool, steps: seq<Step>)
    requires Claimed(s.value, path, Count(n, cancels))
    ensures Claimed(PlayOn(s, steps).value, path, Count(n + Acquires(n, path, steps) - Releases(path, steps), cancels))
  {
    hide Claimed, Apply;
    if steps != [] {
      var before, step := steps[..|steps| - 1], steps[|steps| - 1];
      CountedOn(s, path, n, cancels, before);
      var count := n + Acquires(n, path, before) - Releases(path, before);
      StaysClaimed(PlayOn(s, before), path, Count(count, cancels), step);
    }
  }

  lemma {:induction false} CancelEmpties(t: Task, path: Path)
    requires At(t, path).Some? && At(t, path).value.Nested? && RanAt(At(t, path).value).None?
    ensures Claimed(Cancel(t, path), path, NoTasks)
    decreases t
  {
    if path != [] {
      CancelEmpties(t.batch.tasks[path[0]], path[1..]);
    }
  }

  lemma {:induction false} FreshIsTrimmed(t: Task, path: Path)
    requires Fresh(t) && (At(t, path).Some? ==> At(t, path).value.Nested?)
    ensures Claimed(t, path, Trimmed)
    decreases t
  {
    assert t.Nested? ==> forall j | 0 <= j < |t.batch.tasks| :: Fresh(t.batch.tasks[j]);
    if t.Nested? && path != [] && path[0] < |t.batch.tasks| {
      FreshIsTrimmed(t.batch.tasks[path[0]], path[1..]);
    }
  }

  lemma {:induction false} ClaimedFrom(t: Task, path: Path, claim: Claim)
    requires At(t, path).Some?
    requires match At(t, path).value
             case Leaf(l) => claim == Count(l.acquisitions, l.cancels)
             case Nested(b) => HoldsOfBatch(b, claim)
    ensures Claimed(t, path, claim)
    decreases t
  {
    if path != [] {
      ClaimedFrom(t.batch.tasks[path[0]], path[1..], claim);
    }
  }

  lemma {:induction false} ClaimedAt(t: Task, path: Path, claim: Claim)
    requires Claimed(t, path, claim)
    ensures var c := At(t, path);
            match c
            case None => true
            case Some(Leaf(l)) => claim == Count(l.acquisitions, l.cancels)
            case Some(Nested(b)) => HoldsOfBatch(b, claim)
    decreases t
  {
    if t.Nested? && path != [] && path[0] < |t.batch.tasks| {
      ClaimedAt(t.batch.tasks[path[0]], path[1..], claim);
    }
  }
}
