# State machines and codecs of GNOME Shell

This project models the parts of GNOME Shell that keep state over long runs, and proves what holds of them in
every run:

- **The performance log** (`PerfRecords.dfy`, `PerfBlocks.dfy`, `PerfLog.dfy`, `PerfRuns.dfy`): events packed into
  8192-byte blocks with 32-bit time deltas and injected `perf.setTime` records, their replay from the bytes, and the
  statistics that are recorded only when they change.
- **The secure text buffer** (`Utf8.dfy`, `SecureTextBuffer.dfy`): UTF-8 (sections 3 and 4 of RFC 3629) edited in one
  block of memory, as an implementation of a plain sequence of code points.
- **Batches of tasks** (`Batches.dfy`, `BatchObjects.dfy`): consecutive and concurrent batches that nest, and the holds
  that they wait for.
- **Applications, their windows and the window tracker** (`WindowOrder.dfy`, `ShellApps.dfy`, `WindowTracker.dfy`), and
  the index of window classes (`StartupWmClass.dfy`).
- **The action muxer** (`ActionNames.dfy`, `ActionMuxer.dfy`): lookups that go up a tree of muxers, notifications that
  go down.
- **Asynchronous protocols**: the application cache (`AppCache.dfy`), the network secret agent (`NetworkAgent.dfy`) and
  the queue of authentication requests (`PolkitAgent.dfy`).

Code that changes state is a class whose methods are proved against functions on values; what the code is for is then
proved about those functions, for all runs. `Run(steps)` says that the steps are possible one after the other, and
`After(steps)`, or `Onwards(s, steps)` from a first state, is what comes out of them (`AppCache.Reachable` says that a
state can come out), with the environment (the disk, the compositor, the user, the keyring) free to act at any point;
`AllRunsAreGood` carries the invariant of a module along every run. `Sequences.dfy` removes single elements from lists;
`Bytes.dfy` holds the integers in memory, least significant byte first, and `memcpy` and `memmove`.

Some expectations are false of the code. Each has the exact condition under which it holds, and most a lemma with a case
in which it does not:
- a replay returns the recorded log if and only if nobody recorded `perf.setTime` and no time stepped back
  (`PerfRecords.RoundTrip`; how far it is off otherwise is `PerfRecords.ReplayedTimes`);
- in a run in which the events of statistics are left to collections, the log has the last value of every statistic all
  the time if and only if the callbacks of every collection leave it enabled, or leave nothing to record
  (`PerfRuns.CompleteAllTheTimeIff`, `PerfRuns.NextMarkerIsRightIff`; a collection whose callbacks leave the log
  disabled loses a value in `PerfLog.DisabledCollectionLosesAValue`);
- no handler hears that a window is hidden, shown or moved: the order of the lists of windows survives under the
  conditions of `ShellApps.UnreportedKeepsIff`, and all lists are in order throughout a run if and only if every step
  of it is calm (`WindowTracker.OrderedAllTheTimeIff`); `ShellApps.MinimizingGoesUnnoticed` and
  `WindowTracker.PlacingCanDisturb` are cases;
- every window is listed only by the application that it is mapped to, throughout a run, if and only if no application
  is ever made up for the parent of a window that is tracked (`WindowTracker.NoneStrayIff`;
  `WindowTracker.ParentGoesAstray` is a case, and such a parent stays listed when it is gone,
  `WindowTracker.StrayOutlivesItsWindow`);
- an application runs with nothing to show exactly after a startup that is over with such windows
  (`ShellApps.RunsWithNothingToShowIff`, `ShellApps.RunningWithNothingToShow`), and the assertion at the end of its
  disposal, which aborts the program, holds if and only if it was not starting (`ShellApps.DisposedEnds`);
- where prefixes overlap, observers of actions are right after a group was removed, inserted or changed, or a muxer got
  another parent, under the conditions of `ActionMuxer.RemovalIsRightIff`, `ActionMuxer.InsertionIsRightIff`,
  `ActionMuxer.ChangeIsRightIff` and `ActionMuxer.ReparentIsRightIff`, and throughout a run if and only if every step
  meets them (`ActionMuxer.RunIsRightIff`); `ActionMuxer.InsertionCanMislead` and `ActionMuxer.ReparentCanMislead` are
  cases;
- confirming secrets that the user was not asked for aborts the program: a run ends so if and only if some confirmation
  finds a call waiting under its id while no prompt for it is open (`NetworkAgent.RunAbortsIff`), where prompts are
  opened at `new-request`, and closed at `cancel-request` and when they are answered; `NetworkAgent.ConfirmedTooLate`
  is a case, in which the former prompt was not withdrawn (as `js/ui/components/networkAgent.js` does not withdraw its
  notifications);
- the idle callback of a cancelled authentication request is not taken back when the request is completed: no callback
  ever finds its request freed if and only if none is completed while its own callback is posted
  (`PolkitAgent.NoStaleCallbackIff`; `PolkitAgent.CallbackComesTooLate` is a case).

## Model

| member | source | states |
|---|---|---|
| Bytes.BytesRoundTrip | src/shell-perf-log.c:375-378 | what is stored of a number in enough bytes is read back |
| Bytes.SignedRoundTrips | src/shell-perf-log.c:425-445 | the same for signed 32- and 64-bit values |
| Bytes.Copy | src/shell-perf-log.c:375-379 | `memcpy` changes exactly the bytes it is given |
| Bytes.Move | src/shell-secure-text-buffer.c:110-141 | `memmove` moves a range correctly even where source and destination overlap, and changes nothing else |
| PerfRecords.EncodeAllAt | src/shell-perf-log.c:372-382 | where each record lies in a block |
| PerfRecords.ReplayOfRecords | src/shell-perf-log.c:690-765 | replaying the records of any calls, escape records included, reports a function of the calls alone |
| PerfRecords.DriftLaw | src/shell-perf-log.c:346-359 | the replay clock runs ahead of the recorded time by exactly the backward steps since the last escape record, or since the start |
| PerfRecords.LastEscapeExists | src/shell-perf-log.c:346-353 | there always is a place after the last escape record to count from |
| PerfRecords.EscapesIff | src/shell-perf-log.c:346-353 | a time is written out exactly if the step to it has more than 32 bits |
| PerfRecords.ReplayedAt | src/shell-perf-log.c:690-765 | report number i is about call number i: its name, its argument, the clock at that point |
| PerfRecords.ReplayedTimes | src/shell-perf-log.c:346-359 | the drift law for every single report |
| PerfRecords.SetTimeIsDropped | src/shell-perf-log.c:711-717 | an event that a caller records as `perf.setTime` is never reported |
| PerfRecords.RoundTrip | src/shell-perf-log.c:324-765 | the replay is exactly the recorded log if and only if no caller recorded `perf.setTime` and no time stepped back |
| PerfRecords.LastReportedIsLastArg | src/shell-perf-log.c:690-765 | a reader who keeps the last value per name gets the last value recorded for that event |
| PerfBlocks.FlatGrows | src/shell-perf-log.c:361-371 | appending to the last block or to a new one adds one record to the log |
| PerfBlocks.GreedyGrows | src/shell-perf-log.c:361-371 | no block has room left for the first record of the next one |
| PerfBlocks.Block.Append | src/shell-perf-log.c:373-382 | the bytes of a record go behind those already used |
| PerfBlocks.Block.ReadText | src/shell-perf-log.c:735-744 | a NUL-terminated string is read back from the bytes |
| PerfBlocks.Block.ReadArg | src/shell-perf-log.c:719-756 | the payload is read back in the way the event's signature says, with its length |
| PerfBlocks.Block.ReadHeader | src/shell-perf-log.c:704-709 | the delta and the identifier are read back |
| PerfBlocks.Block.ReadRecord | src/shell-perf-log.c:704-756 | a whole record is read back, with its length |
| PerfBlocks.Block.Replay | src/shell-perf-log.c:699-763 | decoding the bytes of a block continues the clock and the report by exactly the records that were packed into it |
| PerfBlocks.Queue.AddBlock | src/shell-perf-log.c:361-367 | a new block changes no other |
| PerfBlocks.Queue.Append | src/shell-perf-log.c:361-382 | one record is added to the log, in the last block or in a new one |
| PerfBlocks.Queue.Replay | src/shell-perf-log.c:690-765 | decoding all blocks reports all records, across block boundaries |
| PerfLog.Log.constructor | src/shell-perf-log.c:128-161 | a new log is disabled and knows the two events of its own |
| PerfLog.Log.SetEnabled | src/shell-perf-log.c:203-224 | turns recording on or off and changes nothing else |
| PerfLog.Log.DefineEvent | src/shell-perf-log.c:227-300 | an event is defined exactly if its signature is supported, there is room, and the name is quotable and new |
| PerfLog.Log.DefineStatistic | src/shell-perf-log.c:485-513 | a statistic is defined with its event, or nothing changes |
| PerfLog.Log.RecordEvent | src/shell-perf-log.c:324-383 | an accepted event adds its records and sets the last time; a disabled log or an oversize event changes nothing at all |
| PerfLog.Log.Accept | src/shell-perf-log.c:331-342 | a call is accepted exactly if the log is enabled and the event fits into a block |
| PerfLog.Log.Record | src/shell-perf-log.c:392-467 | events are recorded by name and signature; an unknown event leaves the log as it is |
| PerfLog.Log.UpdateStatistic | src/shell-perf-log.c:546-582 | sets a statistic of the right kind, and only that |
| PerfLog.Log.CollectStatistic | src/shell-perf-log.c:636-668 | a statistic is recorded exactly if its value is new |
| PerfLog.Log.CollectStatistics | src/shell-perf-log.c:619-679 | a collection records the changed statistics and then the marker, whatever its callbacks do |
| PerfLog.Log.Replay | src/shell-perf-log.c:690-765 | decoding the bytes reports a function of the accepted calls alone |
| PerfLog.PerformKeeps | src/shell-perf-log.c:324-582 | every operation keeps the last logged value of each statistic equal to the last recorded one |
| PerfLog.SignatureIsText | src/shell-perf-log.c:236-256 | which texts are signatures, and of what |
| PerfLog.CollectKeeps | src/shell-perf-log.c:619-679 | so does a collection, with callbacks that may do anything to the log |
| PerfLog.CollectMarks | src/shell-perf-log.c:671-678 | a collection that ends enabled leaves a marker for the values that its callbacks left |
| PerfLog.StatisticsAreLossless | src/shell-perf-log.c:546-679 | at each marker of a log whose history is faithful, the last reported value of every initialized statistic is the one it had at that collection |
| PerfLog.DisabledCollectionLosesAValue | src/shell-perf-log.c:331-332 | a run in which callbacks leave the log disabled, and a changed value is missing at the next marker |
| PerfRuns.CollectionLosesNothingIff | src/shell-perf-log.c:619-679 | after a collection the log has the last value of every statistic if and only if the callbacks leave it enabled or leave nothing to record |
| PerfRuns.NextMarkerIsRightIff | src/shell-perf-log.c:619-679 | under the same condition, and no other, the table at the marker of the next collection is right |
| PerfRuns.PerformFaithful | src/shell-perf-log.c:392-582 | recording events that are not those of statistics, and updating values, does not harm the statistics |
| PerfRuns.NextFaithful | src/shell-perf-log.c:227-679 | a step of a run keeps the log complete exactly if it is no collection that is left disabled with something to record |
| PerfRuns.CompleteAllTheTimeIff | src/shell-perf-log.c:227-679 | over every run of definitions, updates, records, enabling and collections, the log is complete all the time if and only if every collection is like that |
| PerfRuns.RunsAreLossless | src/shell-perf-log.c:546-765 | in such a run, a reader of the replay finds at each marker the value that every initialized statistic had |
| PerfRuns.ReportedAsUpdated | src/shell-perf-log.c:546-679 | at the marker of every collection of such a run, the last value reported under the name of a statistic is that of the last update of this name and kind, in the steps and callbacks before, and none if there was none |
| PerfRuns.DefinedSomewhere | src/shell-perf-log.c:484-513 | every statistic was defined by a step of the run |
| PerfRuns.OtherUpdatesAreIgnored | src/shell-perf-log.c:515-537 | an update under an unknown name, or of another kind, changes nothing |
| PerfRuns.DefinitionTakes | src/shell-perf-log.c:227-300 | which definitions take, and what they define |
| PerfRuns.RecordIsLogged | src/shell-perf-log.c:301-383 | an event gets into the log, with its time and argument, exactly if the log is enabled, the event known with this signature, and small enough |
| PerfRuns.CollectionIsLogged | src/shell-perf-log.c:619-679 | a collection logs, after what its callbacks do, every value that is new, as of its start, and its marker |
| Utf8.DecodeOfEncode | src/shell-secure-text-buffer.c:65-120 | every text is read back from its bytes |
| Utf8.EncodeOfDecode | src/shell-secure-text-buffer.c:65-120 | the valid byte strings are exactly the encodings of texts |
| Utf8.EncodeCut | src/shell-secure-text-buffer.c:107-112 | texts and their bytes are cut at the same places |
| Utf8.OffsetToPointer | src/shell-secure-text-buffer.c:74-109 | the helper finds the byte offset of a character |
| Utf8.FindPrevChar | src/shell-secure-text-buffer.c:93-96 | the helper finds the start of the last character that begins before a byte |
| Utf8.StrLen | src/shell-secure-text-buffer.c:97-98 | the helper counts whole characters |
| Utf8.WholeCharactersUnique | src/shell-secure-text-buffer.c:93-98 | there is one number of whole characters in a byte prefix |
| SecureTextBuffer.CutUndoesSplice | src/shell-secure-text-buffer.c:65-149 | deleting the returned number of characters at the same position undoes an insertion |
| SecureTextBuffer.EncodeSplice | src/shell-secure-text-buffer.c:107-119 | inserting characters is inserting their bytes at the byte offset |
| SecureTextBuffer.EncodeOfCut | src/shell-secure-text-buffer.c:137-146 | deleting characters is deleting the bytes between their offsets |
| SecureTextBuffer.Buffer.constructor | src/shell-secure-text-buffer.c:151-155 | a new buffer is empty |
| SecureTextBuffer.Buffer.GetText | src/shell-secure-text-buffer.c:46-56 | the bytes up to the NUL decode to the contents |
| SecureTextBuffer.Buffer.GetLength | src/shell-secure-text-buffer.c:58-63 | the length is the number of code points |
| SecureTextBuffer.Buffer.Grow | src/shell-secure-text-buffer.c:77-103 | the size doubles just far enough or stops at the cap, where the longest prefix of whole characters that fits is kept |
| SecureTextBuffer.Buffer.Realloc | src/shell-secure-text-buffer.c:104-105 | a larger block holds the same text |
| SecureTextBuffer.Buffer.OpenGap | src/shell-secure-text-buffer.c:107-119 | bytes are put in at an offset and the text stays NUL-terminated |
| SecureTextBuffer.Buffer.CloseGap | src/shell-secure-text-buffer.c:137-146 | bytes are taken out and the text stays NUL-terminated |
| SecureTextBuffer.Buffer.InsertText | src/shell-secure-text-buffer.c:65-120 | the contents are spliced with the longest prefix that fits, at every position, and its length is returned |
| SecureTextBuffer.CountIsClampedIff | src/shell-secure-text-buffer.c:132-133 | the number of characters to delete is clamped to the text if and only if its 32-bit sum with the position does not wrap around |
| SecureTextBuffer.LargestFitIsUnique | src/shell-secure-text-buffer.c:65-100 | there is one longest prefix that fits |
| SecureTextBuffer.Buffer.DeleteText | src/shell-secure-text-buffer.c:122-149 | the clamped range is cut from the contents, and its length is returned |
| Batches.RunKeeps | js/gdm/batch.js:61-66 | running a fresh task leaves it in order; its hold is acquired exactly while it holds up its batch |
| Batches.ProcessKeeps | js/gdm/batch.js:174-204 | a started batch runs tasks until it has to wait or is done, and is in order then |
| Batches.ReleaseKeeps | js/gdm/batch.js:93-98 | releasing any leaf keeps all batches in order, and emits the signal exactly when the task becomes done |
| Batches.AcquireKeeps | js/gdm/batch.js:76-80 | so does acquiring one |
| Batches.CancelKeeps | js/gdm/batch.js:169-171 | so does cancelling any batch |
| Batches.StepCounts | js/gdm/batch.js:76-98 | a step takes one off, or adds one to, the acquisitions of the leaf it addresses, and of no other |
| Batches.WaitingIff | js/gdm/batch.js:69-104 | at any time of any run, a leaf that was run is waited for if and only if the acquisitions it started with, and those it got while held, outnumber its releases |
| Batches.WaitingOnIff | js/gdm/batch.js:69-104 | so it is from any time on |
| Batches.RanLeafStays | js/gdm/batch.js:69-204 | a leaf that was run stays in its place |
| Batches.TasksAreKept | js/gdm/batch.js:106-204 | a batch that nobody cancels keeps its kind and all its tasks |
| Batches.CancellingTaskIsLast | js/gdm/batch.js:169-171 | a task that cancels its batch is the last one that it has |
| Batches.SomeoneHoldsIt | js/gdm/batch.js:129-186 | an unfinished batch always waits for a leaf that the environment has yet to release |
| Batches.NobodyHoldsIt | js/gdm/batch.js:129-186 | a finished one waits for none |
| Batches.Completion | js/gdm/batch.js:69-204 | for any tree, any order of releases and any batch in it: its hold is released once exactly when nothing below is waited for, after all its tasks; consecutive tasks run one after the other; a concurrent batch counts the tasks it awaits |
| Batches.CancelDropsFresh | js/gdm/batch.js:169-171 | cancelling drops only tasks that were not run |
| Batches.CancelStopsTasks | js/gdm/batch.js:169-171 | a batch anywhere in a tree, cancelled at any point after its start, stays in its place and starts no further task, whatever is released, acquired or cancelled in the tree later |
| Batches.CancelledBeforeTheStart | js/gdm/batch.js:169-171 | a batch that is cancelled before its start never has a task again |
| Batches.FinishingStays | js/gdm/batch.js:140-204 | what the batches around it go on to do touches no task that was run |
| Batches.CancelBatchKeeps | js/gdm/batch.js:169-171 | a cancelled batch still is in order and completes |
| BatchObjects.Hold.Acquire | js/gdm/batch.js:76-80 | a released hold cannot be acquired again |
| BatchObjects.Hold.Release | js/gdm/batch.js:93-98 | the signal is emitted when the last acquisition goes |
| BatchObjects.LiveBatch.constructor | js/gdm/batch.js:106-123 | a batch of fresh tasks is fresh |
| BatchObjects.LiveBatch.RunTask | js/gdm/batch.js:129-134 | the current task is run in place, if there is one |
| BatchObjects.LiveBatch.NextTask | js/gdm/batch.js:140-151 | goes on to the next task or releases the hold |
| BatchObjects.LiveBatch.Process | js/gdm/batch.js:174-204 | does what the specification of a batch says, for both kinds |
| BatchObjects.LiveBatch.Run | js/gdm/batch.js:153-167 | starts with a hold of its own and says whether it is still held |
| BatchObjects.LiveBatch.OnTaskReleased | js/gdm/batch.js:192-198 | the release of an awaited task continues or releases the batch |
| BatchObjects.LiveBatch.Cancel | js/gdm/batch.js:169-171 | drops the tasks after the current one, all of them before the start |
| WindowOrder.CompareIsAnOrder | src/shell-app.c:695-725 | the comparison of windows is a total preorder |
| WindowOrder.SortSorts | src/shell-app.c:745-752 | sorting orders a list and keeps its windows |
| WindowOrder.SortIsIdle | src/shell-app.c:745-752 | sorting a sorted list changes nothing |
| WindowOrder.SortedAfterUse | src/shell-app.c:930-945 | the head of a sorted list stays in place when it is used again |
| ShellApps.AddWindowKeeps | src/shell-app.c:1106-1138 | adding a window keeps the counter, the state and the order of the list right |
| ShellApps.FirstWindowIsPlaced | src/shell-app.c:1131-1133 | the first new window after an application was started on a workspace goes there unless it is on all of them, and no other one does |
| ShellApps.OthersAreNotPlaced | src/shell-app.c:1114-1133 | other windows stay where they are |
| ShellApps.NeverBackToStarting | src/shell-app.c:915-928 | an application that runs does not go back to starting |
| ShellApps.RemoveWindowKeeps | src/shell-app.c:1140-1166 | so does removing one |
| ShellApps.RemovalKeepsOrder | src/shell-app.c:1140-1168 | the other windows stay in their order |
| ShellApps.MappedChangedKeeps | src/shell-app.c:961-981 | so does mapping or unmapping one |
| ShellApps.SkipTaskbarChangedKeeps | src/shell-app.c:983-1003 | so does a change of its skip-taskbar property |
| ShellApps.UserTimeChangedKeeps | src/shell-app.c:930-945 | so does using one, though the head does not mark the order stale |
| ShellApps.WorkspaceSwitchedKeeps | src/shell-app.c:1005-1019 | so does switching workspaces |
| ShellApps.HandleStartupKeeps | src/shell-app.c:1199-1226 | so does a startup sequence; a running application never goes back to starting |
| ShellApps.RefreshedKeeps | src/shell-app.c:745-752 | so does sorting, which keeps the windows |
| ShellApps.ShownPicks | src/shell-app.c:736-759 | handed out are all windows but those with override-redirect, in their order |
| WindowOrder.HidingKeepsIff | src/shell-app.c:710-724 | hiding a window keeps a sorted list sorted if and only if every later window of its group is hidden and was used no later |
| WindowOrder.RevealingKeepsIff | src/shell-app.c:710-724 | showing one does if and only if every earlier window of its group is shown and was used no earlier |
| WindowOrder.MovingKeepsIff | src/shell-app.c:710-724 | moving one does if and only if it stays in its group, or leaves or joins the active workspace in a place that fits |
| ShellApps.LazyIsSortedIff | src/shell-app.c:736-759 | the lazily sorted list is what sorting afresh would give if and only if the order that is kept is right |
| ShellApps.UnreportedKeepsIff | src/shell-app.c:930-1019 | a window that is hidden, shown or moved leaves the counter right, and the order under exactly these conditions |
| ShellApps.MinimizingGoesUnnoticed | src/shell-app.c:710-724 | a case in which the condition fails: the first of two windows is minimized |
| ShellApps.DisposedEnds | src/shell-app.c:1768-1773 | the loop ends with no running state, and the assertion after it, which aborts the program otherwise, holds if and only if the application was not starting |
| ShellApps.HandlersRunAsShown | src/shell-app.c:947-1166 | whatever happens to a window of an application that is not starting, it runs afterwards exactly if one of its windows is to be shown |
| ShellApps.RunsWithNothingToShowIff | src/shell-app.c:1199-1226 | a startup leaves an application running with nothing to show if and only if it has windows, none to be shown, and the startup is over or it ran before |
| ShellApps.RunningWithNothingToShow | src/shell-app.c:1222-1225 | such a run: an application is started, opens a window that stays unmapped, and runs with no interesting window when the startup is over |
| ShellApps.AppSystem.NotifyAppStateChanged | src/shell-app-system.c:472-493 | what a change of state does to the set of running applications |
| ShellApps.ShellApp.StateTransition | src/shell-app.c:915-928 | changes the state except back from running to starting, and keeps exactly the running applications listed |
| ShellApps.ShellApp.Sync | src/shell-app.c:947-959 | the state follows the counter unless the application is starting |
| ShellApps.ShellApp.Add | src/shell-app.c:1106-1138 | adds a window, moves it if need be, keeps the invariant and the set of running applications |
| ShellApps.ShellApp.Remove | src/shell-app.c:1140-1166 | removes a window, keeps the invariant and the set of running applications |
| ShellApps.ShellApp.OnMappedChanged | src/shell-app.c:961-981 | updates the counter and the state |
| ShellApps.ShellApp.OnSkipTaskbarChanged | src/shell-app.c:983-1003 | updates the counter and the state |
| ShellApps.ShellApp.OnUserTimeChanged | src/shell-app.c:930-945 | marks the order stale unless the window is the head |
| ShellApps.ShellApp.OnWorkspaceSwitch | src/shell-app.c:1005-1019 | marks the order stale |
| ShellApps.ShellApp.HandleStartupSequence | src/shell-app.c:1199-1226 | starts, or ends a startup in the state the windows call for |
| ShellApps.ShellApp.GetWindows | src/shell-app.c:736-759 | returns the windows to show in the order of a fresh sort, sorting only when needed |
| ShellApps.ShellApp.Dispose | src/shell-app.c:1768-1773 | removes all windows; stopped if and only if it was not starting |
| WindowTracker.TrackedKeeps | src/shell-window-tracker.c:554-576 | a window always gets an application, which then lists it |
| WindowTracker.RootIsOnTop | src/shell-window-tracker.c:394-396 | the window that the application of a window depends on is the last of those it is transient for |
| WindowTracker.TrackingGoesTo | src/shell-window-tracker.c:387-475 | where a tracked window goes: with a known normal or remote window whatever the guess; else where the guess says, or to an application made up for it; nothing else is mapped or listed anew |
| WindowTracker.GetAppForRootKeeps | src/shell-window-tracker.c:387-475 | looking for an application can make one up, without disturbing any other |
| WindowTracker.DisassociatedKeeps | src/shell-window-tracker.c:585-608 | letting a window go keeps the map and all lists in step |
| WindowTracker.HandledKeeps | src/shell-app.c:961-1019 | an event reaches every application once |
| WindowTracker.ReportedKeeps | src/shell-app.c:930-1019 | window events keep all invariants across all applications |
| WindowTracker.StartupKeeps | src/shell-window-tracker.c:635-647 | so do startup sequences |
| WindowTracker.ShutsDownKeeps | src/shell-window-tracker.c:649-664 | after a shutdown no window is mapped to an application |
| WindowTracker.AddedOrderedIff | src/shell-app.c:1106-1138 | adding a window keeps all lists in order if and only if placing it on a workspace fits the lists of the other applications |
| WindowTracker.UnreportedKeeps | src/shell-app.c:930-1019 | hiding, showing or moving a window keeps the invariant, and all lists in order if and only if it fits each of them |
| WindowTracker.WorldIsGiven | src/shell-app.c:1131-1132 | but for placing windows that are tracked, nothing that the tracker does changes a window |
| WindowTracker.NextKeeps | src/shell-window-tracker.c:387-664 | every step keeps the cross-object invariant, and keeps all lists in order if and only if it is calm |
| WindowTracker.AllRunsAreGood | src/shell-window-tracker.c:387-664 | so it holds in every run |
| WindowTracker.WindowsBelong | src/shell-window-tracker.c:554-664 | exactly the managed windows, until shutdown, are mapped, each to an application that lists it |
| WindowTracker.RunningAppsHaveWindows | src/shell-app-system.c:472-493 | the running applications are exactly those in the running state, and each has windows |
| WindowTracker.OrderedAllTheTimeIff | src/shell-window-tracker.c:387-664 | throughout a run all lists are in order if and only if every step is calm |
| WindowTracker.ListsAreInOrder | src/shell-app.c:736-759 | in every run of calm steps, every list is handed out in order |
| WindowTracker.StrayIff | src/shell-window-tracker.c:387-475 | a step leaves every window listed only where it is mapped to if and only if it makes up no application for the parent of the window it tracks |
| WindowTracker.NoneStrayIff | src/shell-window-tracker.c:387-664 | throughout a run every window is listed only where it is mapped to if and only if no step does that |
| WindowTracker.ParentGoesAstray | src/shell-window-tracker.c:395-397 | a case: the child of a parent that is not a normal window has the parent listed by an application made up for it |
| WindowTracker.StrayOutlivesItsWindow | src/shell-window-tracker.c:585-608 | a parent that is listed so stays listed after it is unmanaged |
| WindowTracker.DisturbableIsReachable | src/shell-window-tracker.c:387-475 | a calm run: a parent that is not a normal window is tracked, then its child, whose made-up application lists both, and another application is starting |
| WindowTracker.PlacingCanDisturb | src/shell-app.c:1131-1132 | after that run, tracking the parent again, for the starting application, moves it and puts the other list out of order |
| WindowTracker.Tracker.GetAppForWindow | src/shell-window-tracker.c:387-475 | follows transient parents to the root, whose application it finds or makes; no other application changes |
| WindowTracker.Tracker.NewAppForWindow | src/shell-app.c:878-890 | an application of its own is made for a window, and lists it |
| WindowTracker.Tracker.GetAppForRootWindow | src/shell-window-tracker.c:399-474 | a known window keeps its application; otherwise the suggested one, or one made for the window |
| WindowTracker.Tracker.TrackWindow | src/shell-window-tracker.c:554-576 | maps the window and adds it to its application |
| WindowTracker.Tracker.DisassociateWindow | src/shell-window-tracker.c:585-608 | unmaps the window and removes it from its application |
| WindowTracker.Tracker.OnWindowCreated | src/shell-window-tracker.c:577-583 | a new window is tracked and the invariant kept |
| WindowTracker.Tracker.TrackedWindowChanged | src/shell-window-tracker.c:508-518 | a changed window is let go and tracked again, and the invariant kept |
| WindowTracker.Tracker.OnWindowUnmanaged | src/shell-window-tracker.c:547-552 | an unmanaged window is let go, and the invariant kept |
| WindowTracker.Tracker.HandleBy | src/shell-app.c:930-1019 | one application object handles the event; no other changes, and the running ones stay listed |
| WindowTracker.Tracker.GetWindowsOf | src/shell-app.c:736-759 | the list of an application as it is handed out, sorted if that was due |
| WindowTracker.Tracker.Report | src/shell-app.c:930-1019 | every application handles the event, and the invariant is kept |
| WindowTracker.Tracker.Change | src/shell-window-tracker.c:554-576 | no handler is connected for windows that are hidden, shown or moved; the invariant is kept, and the order exactly if the step is calm |
| WindowTracker.Tracker.OnStartupSequenceChanged | src/shell-window-tracker.c:635-647 | the application of the sequence handles it, and the invariant is kept |
| WindowTracker.Tracker.OnShutdown | src/shell-window-tracker.c:649-664 | the map is empty afterwards, and the invariant kept |
| StartupWmClass.IsExactMatch | src/shell-app-system.c:91-105 | an id matches exactly if it is the class, with or without the suffix |
| StartupWmClass.ChoiceIsUnique | src/shell-app-system.c:107-151 | the declared choice for a class is one application at most |
| StartupWmClass.OneMore | src/shell-app-system.c:131-147 | seeing one more application turns the right choice into the right choice |
| StartupWmClass.IndexIsTheChoice | src/shell-app-system.c:107-151 | each class leads to its last exact match, else to the first application, or to the first shown one after that if it is hidden; other classes lead nowhere |
| StartupWmClass.AppSystem.ScanStartupWmClassToId | src/shell-app-system.c:107-151 | the one-pass scan builds that index |
| StartupWmClass.AppSystem.LookupStartupWmClass | src/shell-app-system.c:456-470 | a lookup finds the chosen application, or nothing exactly if none has the class |
| ActionNames.SplitIsFullName | src/gtkactionmuxer.c:146-168 | a full name is cut at its first dot, which undoes prefixing |
| ActionNames.PrintedNameIsFound | src/gtkactionmuxer.c:350-351 | the name after the last bar is the one that was printed, whatever the target; names with bars are refused |
| ActionNames.PrintedIsUnique | src/gtkactionmuxer.c:920-945 | what is printed says which action and which target it was |
| ActionMuxer.QueriedIsListed | src/gtkactionmuxer.c:128-144 | every action that can be queried is listed |
| ActionMuxer.ListedIsQueried | src/gtkactionmuxer.c:375-400 | with disjoint prefixes, an action is listed if and only if it can be queried |
| ActionMuxer.QueryHere | src/gtkactionmuxer.c:375-400 | a prefix used once along a chain means the same action from everywhere below |
| ActionMuxer.ArrivesAsSent | src/gtkactionmuxer.c:250-304 | then every observer hears exactly what the group said |
| ActionMuxer.ChangeKeepsAgreement | src/gtkactionmuxer.c:170-340 | after any change inside a group observers know what a query answers |
| ActionMuxer.InsertKeepsAgreement | src/gtkactionmuxer.c:702-734 | so they do after a group is inserted or replaced |
| ActionMuxer.RemoveKeepsAgreement | src/gtkactionmuxer.c:746-768 | and after one is removed |
| ActionMuxer.DisjointStays | src/gtkactionmuxer.c:702-768 | using a prefix that is used nowhere above or below keeps prefixes disjoint |
| ActionMuxer.AccelIsExact | src/gtkactionmuxer.c:884-918 | setting an accelerator changes it only for muxers whose lookup comes to the changed one, and those find the new one |
| ActionMuxer.OtherAccelsStay | src/gtkactionmuxer.c:884-918 | the accelerators of other actions stay |
| ActionMuxer.LookupReachesIff | src/gtkactionmuxer.c:900-918 | a lookup comes to a muxer exactly if it would find whatever accelerator were set there |
| ActionMuxer.AccelIsAnnounced | src/gtkactionmuxer.c:884-898 | setting an accelerator: at every muxer, what is found afterwards under any key, and that it was signalled, once, exactly if its lookup comes to the changed one |
| ActionMuxer.AccelWatchersHear | src/gtkactionmuxer.c:342-373 | for a printed action, an observer hears, once, exactly if it observes that action at a muxer that was signalled |
| ActionMuxer.LookupThrough | src/gtkactionmuxer.c:360-373 | a child lets the notice through exactly where lookups come up through it |
| ActionMuxer.QueryPasses | src/gtkactionmuxer.c:375-400 | a lookup that finds no group up to a muxer gives what that muxer's parent answers |
| ActionMuxer.ReparentKeeps | src/gtkactionmuxer.c:822-882 | after a muxer got another parent with which prefixes stay disjoint, all observers below it know what a query answers |
| ActionMuxer.ReparentAnnounces | src/gtkactionmuxer.c:795-882 | wherever another parent changes an accelerator, that is announced |
| ActionMuxer.ReparentTellsOfAccels | src/gtkactionmuxer.c:795-882 | and the observers of the action are told |
| ActionMuxer.ObserversAfter | src/gtkactionmuxer.c:499-545 | observers come and go only when they register and unregister, and keep what they observe |
| ActionMuxer.NewMuxerFinds | src/gtkactionmuxer.c:775-779 | a new muxer finds what its parent finds |
| ActionMuxer.NextKeeps | src/gtkactionmuxer.c:471-898 | every step that leaves prefixes disjoint keeps observers right |
| ActionMuxer.ObserversAreRight | src/gtkactionmuxer.c:471-898 | in every run with disjoint prefixes, what an observer was told is what a query answers, and the action is there exactly if it is listed |
| ActionMuxer.EachTellsAny | src/gtkactionmuxer.c:250-340 | whatever other groups there are, what an observer holds after the notices about a group |
| ActionMuxer.QueryAfterSwap | src/gtkactionmuxer.c:375-400 | what a query answers after a group was changed, removed or inserted |
| ActionMuxer.RemovalIsRightIff | src/gtkactionmuxer.c:746-768 | for every observer and any prefixes, exactly when it is right after a group was removed |
| ActionMuxer.InsertionIsRightIff | src/gtkactionmuxer.c:702-734 | the same after a group was inserted or replaced |
| ActionMuxer.ChangeIsRightIff | src/gtkactionmuxer.c:184-330 | the same after a change inside a group |
| ActionMuxer.ReparentIsRightIff | src/gtkactionmuxer.c:822-882 | the same after a muxer got another parent |
| ActionMuxer.ReparentCanMislead | src/gtkactionmuxer.c:837-839 | a case: a muxer whose own group hides an action of its parent is told that the action is gone with the parent |
| ActionMuxer.StepIsRightIff | src/gtkactionmuxer.c:471-898 | any step leaves all observers right if and only if what it tells each of them fits |
| ActionMuxer.RunIsRightIff | src/gtkactionmuxer.c:471-898 | throughout a run, with any prefixes, all observers are right if and only if every step is like that |
| ActionMuxer.InsertionCanMislead | src/gtkactionmuxer.c:702-734 | a case: a group without an action is put in front of one that has it |
| ActionMuxer.WithParentIsForest | src/gtkactionmuxer.c:822-882 | any parent that is not the muxer itself or below it leaves the muxers without cycles |
| ActionMuxer.Muxers.Tell | src/gtkactionmuxer.c:250-340 | the recursive notification reaches every observer below exactly once, with what it is to be told |
| ActionMuxer.Muxers.New | src/gtkactionmuxer.c:775-779 | a new muxer has no groups and leaves observers right |
| ActionMuxer.Muxers.Insert | src/gtkactionmuxer.c:702-734 | replaces the group and notifies of each action |
| ActionMuxer.Muxers.Remove | src/gtkactionmuxer.c:746-768 | takes the group out and notifies of each action |
| ActionMuxer.Muxers.OnGroupChanged | src/gtkactionmuxer.c:184-330 | a change inside a group is passed on |
| ActionMuxer.Muxers.RegisterObserver | src/gtkactionmuxer.c:499-521 | a new observer starts with what a query answers |
| ActionMuxer.Muxers.EmitPrimaryAccelChanged | src/gtkactionmuxer.c:342-373 | the recursive notice reaches exactly the muxers whose lookup comes to this one, once each |
| ActionMuxer.Muxers.ListActions | src/gtkactionmuxer.c:128-144 | exactly the actions of the muxer and its ancestors are listed |
| ActionMuxer.Muxers.ListAccels | src/gtkactionmuxer.c:795-814 | exactly the actions that have an accelerator on the way up are gone through |
| ActionMuxer.Muxers.EmitAccels | src/gtkactionmuxer.c:795-814 | the accelerators are announced one after the other |
| ActionMuxer.Muxers.SetParent | src/gtkactionmuxer.c:822-882 | announces what goes with the old parent and comes with the new one, and leaves observers right |
| ActionMuxer.Muxers.SetPrimaryAccel | src/gtkactionmuxer.c:884-898 | sets or removes the accelerator and notifies exactly those |
| AppCache.FirstAddedWins | src/shell-app-cache.c:90-148 | over all directories in order, the first file that names a folder wins |
| AppCache.DoUpdateKeeps | src/shell-app-cache.c:197-218 | starting a reload cancels the one before |
| AppCache.WorkKeeps | src/shell-app-cache.c:150-166 | the worker of a reload reads each part from the disk as it is then |
| AppCache.ApplyUpdateKeeps | src/shell-app-cache.c:168-195 | only a reload that was not superseded is applied |
| AppCache.ReloadIsAppliedIff | src/shell-app-cache.c:168-195 | a reload is applied, as a whole, exactly if no other one was started after it |
| AppCache.HistoryIsTold | src/shell-app-cache.c:220-231 | the disk, and what was reported of it, are those of the last change and the last report |
| AppCache.ReloadsAreAppliedInOrder | src/shell-app-cache.c:168-218 | in every run, results are applied in the order in which the reloads were started |
| AppCache.QuietCacheIsFresh | src/shell-app-cache.c:168-231 | in every run, with no reload queued or running, no part of the cache is older than the last reported change |
| AppCache.QuietCacheIsCurrent | src/shell-app-cache.c:168-231 | if every change was reported, the cache then equals the disk |
| AppCache.InternalStepsDescend | src/shell-app-cache.c:150-218 | every step of the timer or of any worker, superseded ones included, leaves less to do |
| AppCache.EventuallyCurrent | src/shell-app-cache.c:150-231 | from every state, once nothing changes any more, every sequence of such steps is bounded; while a reload is queued or running one is possible, and as soon as none is the cache shows what is on the disk |
| AppCache.ShellAppCache.constructor | src/shell-app-cache.c:303-330 | the first contents are what is on the disk |
| AppCache.ShellAppCache.AddFolders | src/shell-app-cache.c:90-128 | adds the folders of one directory |
| AppCache.ShellAppCache.Queue | src/shell-app-cache.c:220-231 | restarts the timer |
| AppCache.ShellAppCache.Update | src/shell-app-cache.c:197-218 | cancels the reload before and starts another |
| AppCache.ShellAppCache.WorkOn | src/shell-app-cache.c:150-166 | reads the next part |
| AppCache.ShellAppCache.ApplyUpdateCallback | src/shell-app-cache.c:168-195 | replaces the contents and says so exactly if the reload is the latest |
| NetworkAgent.AfterCallKeeps | src/shell-network-agent.c:350-409 | a call answers the one it supersedes and leaves all others alone |
| NetworkAgent.AfterReportKeeps | src/shell-network-agent.c:246-348 | a search answers its own call at most, or has the user asked; nothing if it was cancelled |
| NetworkAgent.RespondedKeeps | src/shell-network-agent.c:443-512 | a response answers the call that waits under its id and no other |
| NetworkAgent.CanceledKeeps | src/shell-network-agent.c:104-122 | so does a cancellation |
| NetworkAgent.FinalizedKeeps | src/shell-network-agent.c:131-159 | the agent's end answers every pending call |
| NetworkAgent.ExactlyOnce | src/shell-network-agent.c:104-593 | in every run, the answers to a call and its being pending add up to one |
| NetworkAgent.AllAnsweredInTheEnd | src/shell-network-agent.c:131-159 | after the walk over the table at the agent's end, whatever it still holds, every call was answered exactly once |
| NetworkAgent.PromptsAreAsked | src/shell-network-agent.c:104-171 | in every run, the prompts that are open are exactly those for which the user is being asked |
| NetworkAgent.AbortsIff | src/shell-network-agent.c:443-505 | a step aborts the program if and only if it is a confirmation under an id for which a call waits while no prompt is open |
| NetworkAgent.RunAbortsIff | src/shell-network-agent.c:443-505 | so does a run if and only if it has such a step |
| NetworkAgent.PasswordCountsIff | src/shell-network-agent.c:427-441 | a password is entered if and only if its prompt is open, and changes nothing otherwise |
| NetworkAgent.AnsweredAsEntered | src/shell-network-agent.c:411-512 | what a response answers and saves, in any run: under each key the last password entered since the user was asked, or else what the search found, and the VPN secrets in order; saved exactly if that is wanted |
| NetworkAgent.SearchAnswers | src/shell-network-agent.c:246-348 | what the report of a search answers, and when it has the user asked instead |
| NetworkAgent.FoundPicks | src/shell-network-agent.c:284-315 | found are the secrets of all unlocked items that name them, in order |
| NetworkAgent.OthersAreTold | src/shell-network-agent.c:104-159 | who is superseded, cancelled or left behind is told so |
| NetworkAgent.ConfirmedTooLate | js/ui/components/networkAgent.js:818-827 | a case: a call is superseded by one that searches the keyring, and the former prompt is confirmed |
| NetworkAgent.SupersededSearchIsHarmless | src/shell-network-agent.c:246-266 | a superseded search changes nothing for the newer call with the same id |
| NetworkAgent.RequestIdsDiffer | src/shell-network-agent.c:363-363 | different connections and settings never share an id |
| NetworkAgent.Agent.GetSecrets | src/shell-network-agent.c:350-409 | supersedes, and then asks the user or searches |
| NetworkAgent.Agent.Collect | src/shell-network-agent.c:284-315 | the secrets of the unlocked items that are named |
| NetworkAgent.Agent.GetSecretsKeyringCallback | src/shell-network-agent.c:246-348 | answers, or asks the user, as the specification says |
| NetworkAgent.Agent.SetPassword | src/shell-network-agent.c:427-441 | enters one secret for the pending request, if the user is being asked for it |
| NetworkAgent.Agent.AddVpnSecret | src/shell-network-agent.c:411-425 | adds one VPN secret for the pending request |
| NetworkAgent.Agent.Respond | src/shell-network-agent.c:443-512 | answers with what was entered, and saves it if that is wanted; aborts exactly if a confirmation comes while the user is not being asked |
| NetworkAgent.Agent.CancelGetSecrets | src/shell-network-agent.c:571-593 | answers the call if it is still pending |
| NetworkAgent.Agent.Finalize | src/shell-network-agent.c:131-159 | answers all pending calls, in the order of the table |
| NetworkAgent.SaveRequest.SaveOneSecret | src/shell-network-agent.c:673-705 | only secrets that agents own are stored and counted |
| NetworkAgent.SavedPicks | src/shell-network-agent.c:673-765 | what is saved of a connection: all secrets that agents own and that are not empty, in order |
| NetworkAgent.SaveRequest.SaveDeleteCallback | src/shell-network-agent.c:767-789 | all secrets of the connection are stored; with none, the caller is told at once |
| NetworkAgent.SaveRequest.SaveSecretCallback | src/shell-network-agent.c:655-671 | the caller is told once, when the last store is confirmed |
| PolkitAgent.ArriveKeeps | src/shell-polkit-authentication-agent.c:376-411 | a new request gets the dialog or waits |
| PolkitAgent.AnsweredKeeps | src/shell-polkit-authentication-agent.c:326-355 | completing an outstanding request completes that one, once |
| PolkitAgent.StepCompletes | src/shell-polkit-authentication-agent.c:265-348 | whom a step completes, in which order, and who of them is told that the dialog was dismissed |
| PolkitAgent.IdleRanKeeps | src/shell-polkit-authentication-agent.c:265-283 | the idle callback completes its request unless that has the dialog, or was completed before |
| PolkitAgent.StaleCallbackIff | src/shell-polkit-authentication-agent.c:265-298 | an idle callback can find its request freed if and only if one is posted whose request is not outstanding |
| PolkitAgent.StaysSafeIff | src/shell-polkit-authentication-agent.c:265-355 | a step avoids that if and only if it completes no request whose own idle callback is posted |
| PolkitAgent.NoStaleCallbackIff | src/shell-polkit-authentication-agent.c:265-355 | so does a whole run |
| PolkitAgent.CallbackComesTooLate | src/shell-polkit-authentication-agent.c:285-298 | a run in which the dialog is closed between the cancellation and the idle callback |
| PolkitAgent.AllRunsAreGood | src/shell-polkit-authentication-agent.c:265-411 | in every run, up to an idle callback that finds its request freed, each request is completed once, or current, or scheduled; requests wait only behind a current one; dialogs come in the order of arrival |
| PolkitAgent.OneDialogAtATime | src/shell-polkit-authentication-agent.c:357-374 | whoever had the dialog before the current request has been answered |
| PolkitAgent.UnregisterCompletesAll | src/shell-polkit-authentication-agent.c:306-322 | unregistering completes every outstanding request; then all that arrived are completed, once each |
| PolkitAgent.CurrentIsNotScheduled | src/shell-polkit-authentication-agent.c:357-374 | the request with the dialog does not wait |
| PolkitAgent.Agent.MaybeProcessNextRequest | src/shell-polkit-authentication-agent.c:357-374 | the first scheduled request gets a free dialog |
| PolkitAgent.Agent.InitiateAuthentication | src/shell-polkit-authentication-agent.c:376-411 | schedules the request behind the others |
| PolkitAgent.Agent.AuthRequestComplete | src/shell-polkit-authentication-agent.c:326-355 | completes one request and gives the dialog on |
| PolkitAgent.Agent.Complete | src/shell-polkit-authentication-agent.c:420-429 | completes the current request |
| PolkitAgent.Agent.OnRequestCancelled | src/shell-polkit-authentication-agent.c:285-298 | posts an idle callback for an outstanding request |
| PolkitAgent.Agent.HandleCancelledInIdle | src/shell-polkit-authentication-agent.c:265-283 | asks to close the dialog, or completes the request, or finds it freed exactly if it is not outstanding |
| PolkitAgent.Agent.Unregister | src/shell-polkit-authentication-agent.c:306-322 | leaves nothing current or scheduled, and everything completed once |

## Left out

- Performance log: the JSON output and its string escapes, the timer that collects statistics, and 64-bit overflow of
  replayed times; times are at most 2^63 - 2^32, so that the code's own comparison does not overflow. The numbers are
  stored least significant byte first, as on the usual machines.
- PerfLog.Log.DefineStatistic: the list of statistics holds their values in order instead of objects that the
  table of names points to, so that aliasing of a statistic is not captured.
- PerfLog.Log.CollectStatistics: what callbacks do is a sequence of operations on this log; that they define further
  events or start another collection is not modelled.
- SecureTextBuffer.Buffer.DeleteText: the position and the number of characters add up to less than 2^32; only then is
  the number clamped to the text (`SecureTextBuffer.CountIsClampedIff`).
- The signals that the text buffer emits, the wiping of memory that is freed, and the allocator of secure memory.
- BatchObjects.LiveBatch.Process: a batch is an object updated in place, but its tasks are values, so that a hold or a
  batch that is a task in more than one place is not captured; nor is a batch that is run twice, or a task list with
  empty slots.
- Tasks that throw, and the scope that task functions are called with.
- WindowTracker.Tracker.TrackWindow: windows are mapped to positions in the list of all application objects made so far,
  not to the objects.
- Reference counts: an application that nothing refers to any more is disposed of in the code and stays, unlisted by
  the tracker, in the model.
- WindowTracker.Tracker.GetAppForWindow: what the class, the sandbox, the process, the startup sequence and the group of
  a window suggest is a parameter; the trees of transient windows have no cycles, which the compositor ensures.
- Wrap-around of 32-bit user times in the comparison of windows.
- The focused application, icons, launching, busy state, actions of windows, and applications of the same name.
- StartupWmClass.AppSystem.LookupStartupWmClass: the lookup of the application by the id that was found, which gives
  nothing if it is not installed any more.
- StartupWmClass.IndexIsTheChoice: ids of installed applications are unique, as GIO delivers them.
- ActionMuxer.Muxers.SetParent: the parent is not the muxer itself or below it; the code does not check that and would
  not come to an end.
- ActionMuxer.Muxers.Insert: muxers are kept in one object and known by number; a group that is inserted in several
  places is modelled as one group for each, whose changes are reported one after the other.
- Activating actions and changing their state, which only forward to the group.
- AppCache.ShellAppCache.WorkOn: a cancelled task reports that it was cancelled, which is the contract of `GTask`; a
  directory is read at one moment.
- NetworkAgent.Agent.GetSecretsKeyringCallback: a cancelled search reports that it was cancelled, which is the contract
  of libsecret; building the connection for the answer is left out, the answer being the secrets themselves.
- NetworkAgent.Agent.Respond: what the program still does, in the same call, before it aborts.
- Deleting secrets from the keyring, and the search for VPN plugins.
- PolkitAgent.Agent.HandleCancelledInIdle: what the program does after an idle callback found its request freed.
- NetworkAgent.Agent.Finalize: each pending request holds a reference to the agent, so that the table is in fact empty
  when the agent goes away; the walk is modelled for any table.
- Callbacks and signal handlers that call back into the object that called them, throughout.
