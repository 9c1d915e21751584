/** Holds and batches as objects that are updated in place; what a task of a batch does is given by its value. */
module BatchObjects {
  import Batches
  import opened Options

  class Hold {
    var acquisitions: int
    /** How often the release signal was emitted. */
    ghost var releases: nat

    constructor ()
      ensures acquisitions == 1 && releases == 0
    {
      acquisitions, releases := 1, 0;
    }

    /** Fails if the hold was released already. */
    method Acquire() returns (ok: bool)
      modifies this
      ensures ok == (old(acquisitions) > 0) && releases == old(releases)
      ensures acquisitions == old(acquisitions) + if ok then 1 else 0
    {
      ok := acquisitions > 0;
      if ok {
        acquisitions := acquisitions + 1;
      }
    }

    method Release()
      modifies this
      ensures acquisitions == old(acquisitions) - 1
      ensures releases == old(releases) + if acquisitions == 0 then 1 else 0
    {
      acquisitions := acquisitions - 1;
      if acquisitions == 0 {
        releases := releases + 1;
      }
    }
  }

  class LiveBatch {
    const kind: Batches.Kind
    var tasks: seq<Batches.Task>
    var currentTaskIndex: nat
    var hold: Hold?
    ghost var ran: Option<nat>
    ghost var done: Option<nat>
    /** The time, which history is kept by. */
    var clock: nat

    ghost function View(): Batches.Batch
      reads this, hold
    {
      var acquisitions := if hold == null then 0 else hold.acquisitions;
      var releases := if hold == null then 0 else hold.releases;
      Batches.Batch(kind, tasks, currentTaskIndex, acquisitions, releases, ran, done)
    }

    ghost function Now(): Batches.After<Batches.Batch>
      reads this, hold
    {
      Batches.After(View(), clock)
    }

    constructor (kind: Batches.Kind, tasks: seq<Batches.Task>)
      requires forall t | t in tasks :: Batches.Fresh(t)
      ensures hold == null && View() == Batches.Batch(kind, tasks, 0, 0, 0, None, None)
      ensures Batches.Fresh(Batches.Nested(View()))
    {
      this.kind, this.tasks := kind, tasks;
      currentTaskIndex, hold, ran, done, clock := 0, null, None, None, 0;
    }

    method ReleaseHold()
      requires hold != null
      modifies this`done, this`clock, hold
      ensures Now() == Batches.ReleaseHold(old(View()), old(clock))
    {
      hold.Release();
      if hold.acquisitions == 0 {
        done := Some(clock);
        clock := clock + 1;
      }
    }

    /** Runs the current task, and says whether its hold is acquired then. */
    method RunTask() returns (held: bool)
      requires hold != null && ran.Some?
      modifies this`tasks, this`clock
      ensures Now() == Batches.RunTask(old(View()), old(clock))
      ensures held == (currentTaskIndex < |old(tasks)| && Batches.IsAcquired(tasks[currentTaskIndex]))
    {
      hide Batches.Run;
      held := false;
      if currentTaskIndex < |tasks| {
        var task := tasks[currentTaskIndex];
        var r := Batches.Run(task, clock);
        held := Batches.IsAcquired(r.value);
        tasks, clock := tasks[currentTaskIndex := r.value], r.clock;
        if Batches.Cancels(task) {
          Cancel();
        }
      }
    }

    /** Drops the tasks after the current one; all of them if the batch was not started. */
    method Cancel()
      requires hold != null <==> ran.Some?
      modifies this`tasks
      ensures View() == Batches.CancelBatch(old(View()))
    {
      if hold == null {
        tasks := [];
      } else if currentTaskIndex + 1 <= |tasks| {
        tasks := tasks[..currentTaskIndex + 1];
      }
    }

    method Process()
      requires hold != null && hold.acquisitions > 0 && ran.Some? && currentTaskIndex <= |tasks|
      modifies this`tasks, this`clock, this`currentTaskIndex, this`done, hold
      ensures Now() == Batches.Process(old(View()), old(clock))
      decreases |tasks| + 1 - currentTaskIndex, 0
    {
      hide Batches.Process, Batches.Run, Batches.ReleaseHold, Batches.IsAcquired;
      Batches.ProcessStep(View(), clock);
      var held := RunTask();
      match kind {
        case Concurrent =>
          if held {
            var _ := hold.Acquire();
          }
          NextTask();
        case Consecutive =>
          if !held {
            NextTask();
          }
      }
    }

    method NextTask()
      requires hold != null && hold.acquisitions > 0 && ran.Some? && currentTaskIndex <= |tasks|
      modifies this`tasks, this`clock, this`currentTaskIndex, this`done, hold
      ensures Now() == Batches.NextTask(old(View()), old(clock))
      decreases |tasks| - currentTaskIndex, 1
    {
      hide Batches.Process;
      currentTaskIndex := currentTaskIndex + 1;
      if currentTaskIndex >= |tasks| {
        ReleaseHold();
      } else {
        Process();
      }
    }

    /** Starts the batch with a hold of its own. */
    method Run() returns (held: bool)
      requires hold == null
      modifies this
      ensures Batches.After(Batches.Nested(View()), clock) == Batches.Run(Batches.Nested(old(View())), old(clock))
      ensures hold != null && fresh(hold) && held == (hold.acquisitions > 0)
    {
      hide Batches.Process;
      hold := new Hold();
      currentTaskIndex := 0;
      ran := Some(clock);
      clock := clock + 1;
      Process();
      held := hold.acquisitions > 0;
    }

    /** Task `i`, which the batch waits for, has become `task` and emits its release signal. */
    method OnTaskReleased(i: nat, task: Batches.Task)
      requires hold != null && hold.acquisitions > 0 && ran.Some? && i < |tasks| && currentTaskIndex <= |tasks|
      modifies this`tasks, this`clock, this`currentTaskIndex, this`done, hold
      ensures Now() == Batches.OnTaskReleased(old(View()).(tasks := old(tasks)[i := task]), old(clock))
    {
      hide Batches.Process;
      tasks := tasks[i := task];
      match kind {
        case Consecutive => NextTask();
        case Concurrent => ReleaseHold();
      }
    }
  }
}
