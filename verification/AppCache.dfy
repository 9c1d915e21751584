/** The cache of installed applications and translated folder names: reloads that overlap and supersede each other. */
module AppCache {
  import opened Options
  import opened Sequences

  type App = string

  /** One file of a `desktop-directories` directory; without a translated name it is not a folder. */
  datatype File = File(name: string, translated: Option<string>)
  type Directory = seq<File>
  type Folders = map<string, string>

  /** What is installed at one moment. A directory that cannot be opened reads as an empty one. */
  datatype Disk = Disk(apps: seq<App>, directories: seq<Directory>)

  // ---------------------------------------------------------------- folders

  function LoadFolder(folders: Folders, dir: Directory): Folders {
    if dir == [] then folders
    else
      var before, file := LoadFolder(folders, dir[..|dir| - 1]), dir[|dir| - 1];
      if file.name in before || file.translated == None then before
      else before[file.name := file.translated.value]
  }

  function LoadFolders(dirs: seq<Directory>): Folders {
    if dirs == [] then map[] else LoadFolder(LoadFolders(dirs[..|dirs| - 1]), dirs[|dirs| - 1])
  }

  /** All files, those of the earlier directories first. */
  function Listing(dirs: seq<Directory>): seq<File> {
    if dirs == [] then [] else Listing(dirs[..|dirs| - 1]) + dirs[|dirs| - 1]
  }

  predicate NamesFolder(file: File, name: string) {
    file.name == name && file.translated.Some?
  }

  /** The translated name that the first usable file of this name has. */
  ghost predicate FirstNamed(files: seq<File>, name: string, text: string) {
    exists i: nat | i < |files| :: NamesFolder(files[i], name) && files[i].translated == Some(text)
      && forall j: nat | j < i :: !NamesFolder(files[j], name)
  }

  lemma {:induction false} LoadFolderAppends(folders: Folders, a: Directory, b: Directory)
    ensures LoadFolder(folders, a + b) == LoadFolder(LoadFolder(folders, a), b)
  {
    if b == [] {
      assert a + b == a;
    } else {
      LoadFolderAppends(folders, a, b[..|b| - 1]);
      assert (a + b)[..|a + b| - 1] == a + b[..|b| - 1];
    }
  }

  lemma {:induction false} LoadFoldersAsOne(dirs: seq<Directory>)
    ensures LoadFolders(dirs) == LoadFolder(map[], Listing(dirs))
  {
    if dirs != [] {
      LoadFoldersAsOne(dirs[..|dirs| - 1]);
      LoadFolderAppends(map[], Listing(dirs[..|dirs| - 1]), dirs[|dirs| - 1]);
    }
  }

  /** Over all directories in order, the first file that gives a folder a translated name wins. */
  lemma FirstAddedWins(dirs: seq<Directory>, name: string, text: string)
    ensures (name in LoadFolders(dirs) && LoadFolders(dirs)[name] == text) <==> FirstNamed(Listing(dirs), name, text)
  {
    LoadFoldersAsOne(dirs);
    FirstAddedWinsIn(Listing(dirs), name, text);
  }

  lemma {:induction false} FirstAddedWinsIn(files: seq<File>, name: string, text: string)
    ensures var m := LoadFolder(map[], files);
            && ((name in m && m[name] == text) <==> FirstNamed(files, name, text))
            && (name in m <==> exists i: nat | i < |files| :: NamesFolder(files[i], name))
  {
    if files != [] {
      var n := |files| - 1;
      var before, file := files[..n], files[n];
      FirstAddedWinsIn(before, name, text);
      var m := LoadFolder(map[], before);
      assert forall i: nat | i < n :: files[i] == before[i];
      if name in m {
        var k: nat :| k < n && NamesFolder(before[k], name);
        assert NamesFolder(files[k], name);
      } else if NamesFolder(file, name) {
        assert NamesFolder(files[n], name);
        if file.translated == Some(text) {
          assert FirstNamed(files, name, text);
        }
      }
    }
  }

  // ---------------------------------------------------------------- the protocol

  /**
   A reload: the worker reads the applications and then one directory after the other, each as it is at that
   moment. `versions` says which state of the disk each part was read from.
  */
  datatype Task = Task(cancelled: bool, done: bool, apps: seq<App>, folders: Folders, versions: seq<nat>)

  datatype Cache = Cache(apps: seq<App>, folders: Folders, versions: seq<nat>)

  /**
   `disks` are the states of the disk so far, the last one the present; a change up to `notified` has been
   reported. `tasks` are the reloads in the order in which they were started, and `applied` those whose result
   was put into the cache, in the order in which that happened.
  */
  datatype State = State(
    disks: seq<Disk>, notified: nat,
    queued: bool, cancellable: Option<nat>, tasks: seq<Task>, cache: Cache, applied: seq<nat>)

  const FRESH := Task(false, false, [], map[], [])

  /** Restarts the timer. */
  function QueueUpdate(s: State): State {
    s.(queued := true)
  }

  function Cancel(tasks: seq<Task>, id: Option<nat>): seq<Task> {
    if id.Some? && id.value < |tasks| then tasks[id.value := tasks[id.value].(cancelled := true)] else tasks
  }

  function DoUpdate(s: State): State {
    s.(queued := false, cancellable := Some(|s.tasks|), tasks := Cancel(s.tasks, s.cancellable) + [FRESH])
  }

  /** The next part of the worker: the applications first, then the directories. */
  function ReadPart(task: Task, disk: Disk, version: nat): Task
    requires |task.versions| <= |disk.directories|
  {
    var k := |task.versions|;
    if k == 0 then task.(apps := disk.apps, versions := [version])
    else task.(folders := LoadFolder(task.folders, disk.directories[k - 1]), versions := task.versions + [version])
  }

  function Work(s: State, id: nat): State
    requires s.disks != [] && id < |s.tasks|
    requires |s.tasks[id].versions| <= |s.disks[|s.disks| - 1].directories|
  {
    var version := |s.disks| - 1;
    s.(tasks := s.tasks[id := ReadPart(s.tasks[id], s.disks[version], version)])
  }

  /** A cancelled task only reports an error, even when its worker was already through. */
  function ApplyUpdate(s: State, id: nat): State
    requires id < |s.tasks|
  {
    var task := s.tasks[id];
    var s1 := s.(tasks := s.tasks[id := task.(done := true)]);
    if task.cancelled then s1
    else s1.(cache := Cache(task.apps, task.folders, task.versions), applied := s.applied + [id])
  }

  datatype Step =
    | Changes(disk: Disk)
    | Notified(version: nat)
    | TimerFires
    | Works(id: nat)
    | Finishes(id: nat)

  predicate Enabled(s: State, step: Step) {
    && s.disks != []
    && var now := s.disks[|s.disks| - 1];
    match step
    case Changes(disk) => |disk.directories| == |now.directories|
    case Notified(version) => s.notified <= version < |s.disks|
    case TimerFires => s.queued
    case Works(id) => id < |s.tasks| && !s.tasks[id].done && |s.tasks[id].versions| <= |now.directories|
    case Finishes(id) => id < |s.tasks| && !s.tasks[id].done && |s.tasks[id].versions| == |now.directories| + 1
  }

  function Next(s: State, step: Step): State
    requires Enabled(s, step)
  {
    match step
    case Changes(disk) => s.(disks := s.disks + [disk])
    case Notified(version) => QueueUpdate(s.(notified := version))
    case TimerFires => DoUpdate(s)
    case Works(id) => Work(s, id)
    case Finishes(id) => ApplyUpdate(s, id)
  }

  // ---------------------------------------------------------------- the invariant

  /** The k-th directory as it is on the disk of the k-th version. */
  function Picked(disks: seq<Disk>, versions: seq<nat>): (dirs: seq<Directory>)
    requires forall i | 0 <= i < |versions| :: versions[i] < |disks| && |versions| <= |disks[versions[i]].directories|
    ensures |dirs| == |versions|
  {
    seq(|versions|, i requires 0 <= i < |versions| => disks[versions[i]].directories[i])
  }

  predicate ReadsAreVersions(disks: seq<Disk>, versions: seq<nat>) {
    forall i | 0 <= i < |versions| :: versions[i] < |disks| && |versions| <= |disks[versions[i]].directories| + 1
  }

  ghost predicate ReadFrom(disks: seq<Disk>, apps: seq<App>, folders: Folders, versions: seq<nat>) {
    && ReadsAreVersions(disks, versions)
    && if versions == [] then folders == map[]
       else apps == disks[versions[0]].apps && folders == LoadFolders(Picked(disks, versions[1..]))
  }

  predicate NoneBefore(versions: seq<nat>, version: nat) {
    forall i | 0 <= i < |versions| :: version <= versions[i]
  }

  /** The reload that has not been superseded, if it is still running. */
  predicate InFlight(s: State) {
    s.tasks != [] && !s.tasks[|s.tasks| - 1].done
  }

  ghost predicate TimesOk(s: State) {
    && s.notified < |s.disks|
    && (forall i | 0 <= i < |s.disks| :: |s.disks[i].directories| == |s.disks[0].directories|)
    && s.cancellable == (if s.tasks == [] then None else Some(|s.tasks| - 1))
    && (forall i | 0 <= i < |s.tasks| :: s.tasks[i].cancelled <==> i < |s.tasks| - 1)
  }

  ghost predicate AppliedOk(s: State) {
    && Increasing(s.applied)
    && (forall i | 0 <= i < |s.applied| :: s.applied[i] < |s.tasks| && s.tasks[s.applied[i]].done)
  }

  ghost predicate DataOk(s: State) {
    && s.disks != []
    && ReadFrom(s.disks, s.cache.apps, s.cache.folders, s.cache.versions)
    && |s.cache.versions| == |s.disks[0].directories| + 1
    && (forall i | 0 <= i < |s.tasks| :: ReadFrom(s.disks, s.tasks[i].apps, s.tasks[i].folders, s.tasks[i].versions))
  }

  /** Unless a reload is queued, what is or will be in the cache was read after the last reported change. */
  ghost predicate FreshOk(s: State) {
    s.queued || NoneBefore(if InFlight(s) then s.tasks[|s.tasks| - 1].versions else s.cache.versions, s.notified)
  }

  ghost predicate Good(s: State) {
    TimesOk(s) && AppliedOk(s) && DataOk(s) && FreshOk(s)
  }

  /** At the start everything was read while changes were already being watched for. */
  ghost predicate Initial(s: State) {
    && Good(s) && s.tasks == [] && s.applied == [] && !s.queued
  }

  lemma ReadFromStays(disks: seq<Disk>, disk: Disk, apps: seq<App>, folders: Folders, versions: seq<nat>)
    requires ReadFrom(disks, apps, folders, versions)
    ensures ReadFrom(disks + [disk], apps, folders, versions)
  {
    hide LoadFolders;
    if versions != [] {
      assert Picked(disks + [disk], versions[1..]) == Picked(disks, versions[1..]);
    }
  }

  lemma ReadPartReads(disks: seq<Disk>, task: Task)
    requires disks != [] && ReadFrom(disks, task.apps, task.folders, task.versions)
    requires forall i | 0 <= i < |disks| :: |disks[i].directories| == |disks[0].directories|
    requires |task.versions| <= |disks[|disks| - 1].directories|
    ensures var t := ReadPart(task, disks[|disks| - 1], |disks| - 1);
            ReadFrom(disks, t.apps, t.folders, t.versions)
  {
    hide LoadFolder, LoadFolders, Picked;
    var now := |disks| - 1;
    if task.versions != [] {
      OneMorePicked(disks, task.versions[1..], now);
      assert (task.versions + [now])[1..] == task.versions[1..] + [now];
    } else {
      assert [now][1..] == [];
      NothingPicked(disks);
    }
  }

  lemma OneMorePicked(disks: seq<Disk>, versions: seq<nat>, now: nat)
    requires now < |disks| && |versions| < |disks[now].directories|
    requires forall i | 0 <= i < |versions| :: versions[i] < |disks| && |versions| < |disks[versions[i]].directories|
    ensures LoadFolders(Picked(disks, versions + [now]))
            == LoadFolder(LoadFolders(Picked(disks, versions)), disks[now].directories[|versions|])
  {
    hide LoadFolder;
    var more := Picked(disks, versions + [now]);
    assert more[..|versions|] == Picked(disks, versions);
  }

  lemma NothingPicked(disks: seq<Disk>)
    ensures LoadFolders(Picked(disks, [])) == map[]
  {
  }

  // ---------------------------------------------------------------- what keeps it

  lemma ChangesKeeps(s: State, disk: Disk)
    requires Good(s) && Enabled(s, Changes(disk))
    ensures Good(Next(s, Changes(disk)))
  {
    hide ReadFrom, NoneBefore, Increasing;
    var s' := Next(s, Changes(disk));
    ReadFromStays(s.disks, disk, s.cache.apps, s.cache.folders, s.cache.versions);
    forall i | 0 <= i < |s.tasks| ensures ReadFrom(s'.disks, s.tasks[i].apps, s.tasks[i].folders, s.tasks[i].versions) {
      ReadFromStays(s.disks, disk, s.tasks[i].apps, s.tasks[i].folders, s.tasks[i].versions);
    }
  }

  lemma NotifiedKeeps(s: State, version: nat)
    requires Good(s) && Enabled(s, Notified(version))
    ensures Good(Next(s, Notified(version)))
  {
    hide ReadFrom, NoneBefore, Increasing;
  }

  lemma NothingReadYet(disks: seq<Disk>)
    ensures ReadFrom(disks, FRESH.apps, FRESH.folders, FRESH.versions)
  {
  }

  lemma DoUpdateKeeps(s: State)
    requires Good(s)
    ensures Good(DoUpdate(s))
  {
    hide Increasing, ReadFrom;
    var s' := DoUpdate(s);
    assert s'.tasks[|s.tasks|] == FRESH;
    NothingReadYet(s.disks);
    forall i | 0 <= i < |s.tasks|
      ensures s'.tasks[i] == s.tasks[i].(cancelled := true)
    {
    }
  }

  lemma WorkKeeps(s: State, id: nat)
    requires Good(s) && Enabled(s, Works(id))
    ensures Good(Work(s, id))
  {
    hide ReadFrom, Increasing, LoadFolder;
    ReadPartReads(s.disks, s.tasks[id]);
  }

  lemma ApplyUpdateKeeps(s: State, id: nat)
    requires Good(s) && Enabled(s, Finishes(id))
    ensures Good(ApplyUpdate(s, id))
  {
    hide ReadFrom, NoneBefore;
  }

  lemma NextKeeps(s: State, step: Step)
    requires Good(s) && Enabled(s, step)
    ensures Good(Next(s, step))
  {
    hide ReadFrom, NoneBefore, Increasing, ReadPart, FreshOk, AppliedOk;
    match step
    case Changes(disk) => ChangesKeeps(s, disk);
    case Notified(version) => NotifiedKeeps(s, version);
    case TimerFires => DoUpdateKeeps(s);
    case Works(id) => WorkKeeps(s, id);
    case Finishes(id) => ApplyUpdateKeeps(s, id);
  }

  // ---------------------------------------------------------------- runs

  /** `s` is what `steps` can lead to. */
  ghost predicate Reachable(s: State, steps: seq<Step>)
    decreases |steps|
  {
    if steps == [] then Initial(s)
    else
      var n := |steps| - 1;
      exists before :: Reachable(before, steps[..n]) && Enabled(before, steps[n]) && s == Next(before, steps[n])
  }

  lemma {:induction false} AllRunsAreGood(s: State, steps: seq<Step>)
    requires Reachable(s, steps)
    ensures Good(s)
    decreases |steps|
  {
    hide Good, Next, Enabled;
    if steps == [] {
      InitialIsGood(s);
    } else {
      var n := |steps| - 1;
      var before :| Reachable(before, steps[..n]) && Enabled(before, steps[n]) && s == Next(before, steps[n]);
      AllRunsAreGood(before, steps[..n]);
      NextKeeps(before, steps[n]);
    }
  }

  lemma InitialIsGood(s: State)
    requires Initial(s)
    ensures Good(s)
  {
    hide Good;
  }

  /** The last report of a change, and the last change itself, as the steps tell. */
  function LastReport(steps: seq<Step>): Option<nat> {
    if steps == [] then None
    else
      var step := steps[|steps| - 1];
      if step.Notified? then Some(step.version) else LastReport(steps[..|steps| - 1])
  }

  function LastChange(steps: seq<Step>): Option<Disk> {
    if steps == [] then None
    else
      var step := steps[|steps| - 1];
      if step.Changes? then Some(step.disk) else LastChange(steps[..|steps| - 1])
  }

  /** What the state says about the disk, and about what was reported of it, is what happened. */
  lemma {:induction false} HistoryIsTold(s: State, steps: seq<Step>)
    requires Reachable(s, steps)
    ensures LastReport(steps).Some? ==> s.notified == LastReport(steps).value
    ensures LastChange(steps).Some? ==> s.disks != [] && s.disks[|s.disks| - 1] == LastChange(steps).value
    decreases |steps|
  {
    hide Initial, Next, Enabled;
    if steps != [] {
      var n := |steps| - 1;
      var before :| Reachable(before, steps[..n]) && Enabled(before, steps[n]) && s == Next(before, steps[n]);
      HistoryIsTold(before, steps[..n]);
      HistoryGoesOn(before, steps[n]);
    }
  }

  lemma HistoryGoesOn(s: State, step: Step)
    requires Enabled(s, step)
    ensures var s' := Next(s, step);
            && s'.notified == (if step.Notified? then step.version else s.notified)
            && s'.disks == s.disks + if step.Changes? then [step.disk] else []
  {
    hide ReadPart, Cancel;
  }

  /** A reload that is through is applied, as a whole, exactly if no other one was started after it. */
  lemma ReloadIsAppliedIff(s: State, id: nat)
    requires Good(s) && Enabled(s, Finishes(id))
    ensures var s', task := Next(s, Finishes(id)), s.tasks[id];
            && s'.disks == s.disks && s'.queued == s.queued
            && if id == |s.tasks| - 1
               then s'.applied == s.applied + [id] && s'.cache == Cache(task.apps, task.folders, task.versions)
               else s'.applied == s.applied && s'.cache == s.cache
  {
    hide DataOk, FreshOk, AppliedOk;
  }

  /** However reloads overlap, their results are applied in the order in which they were started. */
  lemma ReloadsAreAppliedInOrder(s: State, steps: seq<Step>)
    requires Reachable(s, steps)
    ensures forall i, j | 0 <= i < j < |s.applied| :: s.applied[i] < s.applied[j] < |s.tasks|
  {
    AllRunsAreGood(s, steps);
  }

  predicate Quiet(s: State) {
    !s.queued && !InFlight(s)
  }

  /** Without a queued or running reload, no part of the cache is older than the last reported change. */
  lemma QuietCacheIsFresh(s: State, steps: seq<Step>)
    requires Reachable(s, steps) && Quiet(s)
    ensures ReadFrom(s.disks, s.cache.apps, s.cache.folders, s.cache.versions)
    ensures forall v | v in s.cache.versions :: s.notified <= v < |s.disks|
  {
    hide LoadFolders;
    AllRunsAreGood(s, steps);
  }

  predicate ShowsDisk(s: State)
    requires s.disks != []
  {
    var now := s.disks[|s.disks| - 1];
    s.cache.apps == now.apps && s.cache.folders == LoadFolders(now.directories)
  }

  /** If moreover every change was reported, the cache shows what is on the disk. */
  lemma QuietCacheIsCurrent(s: State)
    requires Good(s) && Quiet(s) && s.notified == |s.disks| - 1
    ensures ShowsDisk(s)
  {
    hide LoadFolders;
    var now, versions := s.disks[s.notified], s.cache.versions;
    assert forall i | 0 <= i < |versions| :: versions[i] == s.notified;
    assert Picked(s.disks, versions[1..]) == now.directories;
  }

  // ---------------------------------------------------------------- progress

  /** What the timer and the workers do, those of superseded reloads included. */
  predicate Internal(step: Step) {
    step.TimerFires? || step.Works? || step.Finishes?
  }

  /** The steps that a task has yet to take, when there are `d` directories. */
  function Remaining(task: Task, d: nat): nat {
    if task.done then 0 else if |task.versions| <= d then d + 2 - |task.versions| else 1
  }

  function AllRemaining(tasks: seq<Task>, d: nat): nat {
    if tasks == [] then 0 else AllRemaining(tasks[..|tasks| - 1], d) + Remaining(tasks[|tasks| - 1], d)
  }

  /** What is left to do when nothing changes any more. */
  function Left(s: State): nat {
    if s.disks == [] then 0
    else
      var d := |s.disks[|s.disks| - 1].directories|;
      AllRemaining(s.tasks, d) + if s.queued then d + 3 else 0
  }

  lemma {:induction false} OneRemains(tasks: seq<Task>, i: nat, task: Task, d: nat)
    requires i < |tasks|
    ensures AllRemaining(tasks[i := task], d) == AllRemaining(tasks, d) - Remaining(tasks[i], d) + Remaining(task, d)
  {
    hide Remaining;
    var n := |tasks| - 1;
    if i == n {
      assert tasks[i := task][..n] == tasks[..n];
    } else {
      OneRemains(tasks[..n], i, task, d);
      assert tasks[i := task][..n] == tasks[..n][i := task];
    }
  }

  /** Every step of the timer or of a worker leaves less to do, and changes nothing else. */
  lemma InternalStepsDescend(s: State, step: Step)
    requires Good(s) && Enabled(s, step) && Internal(step)
    ensures var s' := Next(s, step);
            Good(s') && s'.disks == s.disks && s'.notified == s.notified && Left(s') < Left(s)
  {
    hide LoadFolder, LoadFolders, ReadFrom, NoneBefore, FreshOk, AppliedOk, AllRemaining;
    NextKeeps(s, step);
    var d := |s.disks[|s.disks| - 1].directories|;
    match step
    case TimerFires => TimerDescends(s);
    case Works(id) =>
      OneRemains(s.tasks, id, Next(s, step).tasks[id], d);
      assert Next(s, step).tasks == s.tasks[id := Next(s, step).tasks[id]];
    case Finishes(id) =>
      OneRemains(s.tasks, id, Next(s, step).tasks[id], d);
      assert Next(s, step).tasks == s.tasks[id := Next(s, step).tasks[id]];
  }

  lemma TimerDescends(s: State)
    requires s.disks != [] && s.queued
    ensures Left(DoUpdate(s)) < Left(s)
  {
    var d := |s.disks[|s.disks| - 1].directories|;
    var tasks := Cancel(s.tasks, s.cancellable);
    assert (tasks + [FRESH])[..|tasks|] == tasks;
    if tasks != s.tasks {
      var id := s.cancellable.value;
      OneRemains(s.tasks, id, tasks[id], d);
    }
  }

  /** As long as not all is quiet, the timer or a worker has a step to take. */
  lemma SomethingToDo(s: State) returns (step: Step)
    requires Good(s) && !Quiet(s)
    ensures Internal(step) && Enabled(s, step)
  {
    hide LoadFolders, NoneBefore, FreshOk, AppliedOk;
    var id := |s.tasks| - 1;
    step := if s.queued then TimerFires
            else if |s.tasks[id].versions| <= |s.disks[|s.disks| - 1].directories| then Works(id) else Finishes(id);
  }

  /** `s'` is where `steps` lead from `s`. */
  ghost predicate Leads(s: State, steps: seq<Step>, s': State)
    decreases |steps|
  {
    if steps == [] then s' == s
    else
      var n := |steps| - 1;
      exists before :: Leads(s, steps[..n], before) && Enabled(before, steps[n]) && s' == Next(before, steps[n])
  }

  /**
   Eventual consistency: from any state of any run, once all changes are reported and nothing changes any more, the
   timer and the workers can only take so many steps, in whatever order; and as soon as no reload is queued or
   running, which they always can get to, the cache shows what is on the disk.
  */
  lemma {:induction false} EventuallyCurrent(s: State, steps: seq<Step>, s': State)
    requires Good(s) && s.notified == |s.disks| - 1
    requires Leads(s, steps, s') && forall step | step in steps :: Internal(step)
    ensures Good(s') && s'.disks == s.disks && s'.notified == s.notified
    ensures |steps| + Left(s') <= Left(s)
    ensures if Quiet(s') then ShowsDisk(s') else exists step :: Internal(step) && Enabled(s', step)
    decreases |steps|
  {
    hide Good, ShowsDisk, Left, Quiet, Next, Enabled, Internal;
    if steps != [] {
      var n := |steps| - 1;
      var before :| Leads(s, steps[..n], before) && Enabled(before, steps[n]) && s' == Next(before, steps[n]);
      EventuallyCurrent(s, steps[..n], before);
      InternalStepsDescend(before, steps[n]);
    }
    if Quiet(s') {
      QuietCacheIsCurrent(s');
    } else {
      var step := SomethingToDo(s');
    }
  }

  /** What is loaded at the start. */
  lemma FirstContents(s: State, disk: Disk)
    requires s.disks == [disk] && s.notified == 0 && !s.queued && s.cancellable == None
    requires s.tasks == [] && s.applied == []
    requires s.cache.apps == disk.apps && s.cache.folders == LoadFolders(disk.directories)
    requires s.cache.versions == seq(|disk.directories| + 1, _ => 0)
    ensures Initial(s) && ShowsDisk(s)
  {
    hide LoadFolders;
    assert Picked([disk], s.cache.versions[1..]) == disk.directories;
  }

  // ---------------------------------------------------------------- the cache

  class ShellAppCache {
    var queuedUpdate: bool
    var cancellable: Option<nat>
    var tasks: seq<Task>
    var appInfos: seq<App>
    var folders: Folders
    ghost var versions: seq<nat>
    ghost var disks: seq<Disk>
    ghost var notified: nat
    ghost var applied: seq<nat>

    ghost function View(): State
      reads this
    {
      State(disks, notified, queuedUpdate, cancellable, tasks, Cache(appInfos, folders, versions), applied)
    }

    /** Loads the folders and the applications at once. */
    constructor (disk: Disk)
      ensures Initial(View()) && disks == [disk] && ShowsDisk(View())
    {
      hide LoadFolder, Initial, ShowsDisk;
      queuedUpdate, cancellable, tasks, appInfos := false, None, [], disk.apps;
      disks, notified, applied := [disk], 0, [];
      versions := seq(|disk.directories| + 1, _ => 0);
      var m: Folders, i := map[], 0;
      while i < |disk.directories|
        invariant 0 <= i <= |disk.directories| && m == LoadFolders(disk.directories[..i])
      {
        assert disk.directories[..i + 1][..i] == disk.directories[..i];
        m := AddFolders(m, disk.directories[i]);
        i := i + 1;
      }
      assert disk.directories[..i] == disk.directories;
      folders := m;
      new;
      FirstContents(View(), disk);
    }

    static method AddFolders(folders: Folders, dir: Directory) returns (r: Folders)
      ensures r == LoadFolder(folders, dir)
    {
      r := folders;
      var i := 0;
      while i < |dir|
        invariant 0 <= i <= |dir| && r == LoadFolder(folders, dir[..i])
      {
        assert dir[..i + 1][..i] == dir[..i];
        var file := dir[i];
        if file.name !in r && file.translated.Some? {
          r := r[file.name := file.translated.value];
        }
        i := i + 1;
      }
      assert dir[..i] == dir;
    }

    /** The environment changes what is installed. */
    ghost method DiskChanges(disk: Disk)
      requires Good(View()) && Enabled(View(), Changes(disk))
      modifies this`disks
      ensures View() == Next(old(View()), Changes(disk)) && Good(View())
    {
      ChangesKeeps(View(), disk);
      disks := disks + [disk];
    }

    /** A monitor reports the changes up to `version`. */
    method Queue(ghost version: nat)
      requires Good(View()) && Enabled(View(), Notified(version))
      modifies this
      ensures View() == Next(old(View()), Notified(version)) && Good(View())
    {
      NotifiedKeeps(View(), version);
      notified := version;
      queuedUpdate := true;
    }

    /** The timer fires. */
    method Update()
      requires Good(View()) && queuedUpdate
      modifies this
      ensures View() == DoUpdate(old(View())) && Good(View())
    {
      hide Good;
      DoUpdateKeeps(View());
      queuedUpdate := false;
      if cancellable.Some? && cancellable.value < |tasks| {
        var task := tasks[cancellable.value];
        tasks := tasks[cancellable.value := Task(true, task.done, task.apps, task.folders, task.versions)];
      }
      cancellable := Some(|tasks|);
      tasks := tasks + [FRESH];
    }

    /** The worker of a task goes on, in its own thread; it sees the disk as it is now. */
    method WorkOn(id: nat, disk: Disk, version: nat)
      requires Good(View()) && Enabled(View(), Works(id))
      requires version == |disks| - 1 && disk == disks[version]
      modifies this
      ensures View() == Work(old(View()), id) && Good(View())
    {
      hide Good, LoadFolder;
      WorkKeeps(View(), id);
      var task, k := tasks[id], |tasks[id].versions|;
      if k == 0 {
        tasks := tasks[id := Task(task.cancelled, task.done, disk.apps, task.folders, [version])];
      } else {
        var more := AddFolders(task.folders, disk.directories[k - 1]);
        tasks := tasks[id := Task(task.cancelled, task.done, task.apps, more, task.versions + [version])];
      }
    }

    /** A task is through; `changed` is the signal that the cache has new contents. */
    method ApplyUpdateCallback(id: nat) returns (changed: bool)
      requires Good(View()) && Enabled(View(), Finishes(id))
      modifies this
      ensures View() == ApplyUpdate(old(View()), id) && Good(View())
      ensures changed <==> Some(id) == cancellable
      ensures !changed ==> appInfos == old(appInfos) && folders == old(folders)
    {
      hide ReadFrom, NoneBefore, Increasing, FreshOk, AppliedOk, DataOk;
      ApplyUpdateKeeps(View(), id);
      var task := tasks[id];
      tasks := tasks[id := Task(task.cancelled, true, task.apps, task.folders, task.versions)];
      changed := !task.cancelled;
      if changed {
        appInfos := task.apps;
        folders := task.folders;
        versions := task.versions;
        applied := applied + [id];
      }
    }
  }
}
