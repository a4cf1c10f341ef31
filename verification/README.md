# Process life cycle and friends, verified

A Dafny model of the concurrent core of the kernel in `kernel/src`: how processes are
created, exit, are waited for and execute new programs, together with the PID table, the
notification fast path, System V IPC identifiers, and the loops behind `sendfile`, CPU
affinity masks, `poll` and `select`.

`dafny verify dfyconfig.toml` checks the whole project.

## How the model is laid out

*Protocols* are state machines over values. One step is one lock-protected section or one
atomic access; every exiting, cloning, marking, waiting or executing thread carries a program counter;
a run is any finite sequence of enabled steps, so every theorem about runs or reachable states
holds for every interleaving. A failing unwrap or assertion of the code sets a flag:
`panicked`, which is proved never to be set, and `broken` for the one removal that can fail.
Fields marked auxiliary in the comments only record history for the proofs.

*Structures and loops* that the code updates in place are classes, arrays and loops. Each
method is proved against a function of the old state, and the properties are proved about that
function.

| part | files |
|---|---|
| life-cycle machine: `clone`, `exit`, reaping | `ProcessTree`, `TreeInvariant`, `TreeProgress`, `TreeTheorems`, `TreeEffects` |
| where children go, CPU time, the reaper search | `CloneTheorems`, `CpuTime`, `Subreaper`, `ReaperWalk` |
| the subreaper mark on top of that machine, and two races that open it | `Marking`, `MarkingTheorems`, `SubreaperRace` |
| the same operations on process objects | `ProcessObjects` |
| `wait` and ptrace on top of that machine | `WaitProtocol`, `WaitInvariant`, `WaitWakeups`, `WaitTracers`, `WaitReports`, `WaitAnswers`, `WaitSolo`, `WaitExact`, `WaitRaces`, `WaitEffects` |
| task set, threads and `execve` | `TaskSets`, `ExecProtocol`, `ExecInvariant`, `ExecTheorems`, `ExecDoom`, `ExecEffects`, `Promotion` |
| PID table, alone and along the runs of the life-cycle machine | `PidTables`, `TableRuns` |
| subjects and observers | `Subjects`, `NotifyProtocol` |
| IPC identifiers and semaphore sets | `IpcTables`, `IpcNamespace` |
| `sendfile`, affinity, `poll`, `select` | `Sendfile`, `Words`, `Affinity`, `Polling`, `Selecting` |

Processes are named by their PID. PIDs come from a counter that is never reset
(`kernel/src/process/posix_thread/mod.rs:398-415`) and are drawn before the child is linked, so
comparing PIDs compares ages.

## Where the code does not do what its comments say

Each of these is a theorem with a concrete run, next to the exact condition under which the
promise does hold.

* *The subreaper mark is not closed downwards.* A reaper search that meets an unmarked process
  below a subreaper stops early and picks init. Two races lead there. The reaper walk reads
  parent links without locks, so a walk that started before a reparenting can hand children to
  a marked subreaper that is no ancestor of theirs and never marked them
  (`SubreaperRace.StaleWalkOpensMark`). And a process can exit after the marking has reached it
  but not yet its children, and hand them to a subreaper already visited
  (`SubreaperRace.ExitDuringMarkingOpensMark`). `MarkingTheorems.RunStaysClosedIff` is the exact
  condition over whole runs, `MarkingTheorems.ClearPathRunsStayClosed` rules out both races.
* *A departing tracer can lose a wake-up.* `clear_tracees` makes a zombie tracee visible to its
  parent's waiting threads without waking them. `WaitRaces.TracerExitLosesWakeup` is a run,
  `WaitExact.ClearKeepsWakeIff` the exact condition on one departure,
  `WaitExact.RunLosesNothingIff` the one over whole runs; that departing tracers have no zombie
  tracees is enough (`WaitExact.DutifulTracersLoseNothing`).
* *Two waiting threads of a tracing parent can trip over each other.* Between detaching an
  exited tracee and reaping it, `cleanup_exited_tracee` holds no lock; a sibling can reap and
  report the child first, and the unwrapped removal then fails. `WaitRaces.TwoWaitersBreakReap`
  is a run, `WaitExact.RemovalFailsIffReaped` the exact condition on one removal,
  `WaitExact.RunNeverBreaksIff` the one over whole runs; one waiting thread per process is
  enough (`WaitSolo.SoloRunReportsOnce`).

## Model

| member | source | states |
|---|---|---|
| `TreeTheorems.ExactlyOneOwner` | kernel/src/process/exit.rs:95-158 | in every reachable state a process other than init is in a children map if and only if it is unreaped, then in exactly one, that of the process its parent link names; that owner is older, unreaped, still has its children map and is no zombie unless it is init |
| `TreeTheorems.NothingPanics` | kernel/src/process/exit.rs:71-158 | no enabled step of clone, exit or reaping fails an unwrap, an assertion or a precondition of the PID table, whatever happened before |
| `TreeTheorems.TableTracksTree` | kernel/src/process/wait.rs:339-363 | the process slots of the PID table are exactly the unreaped processes, each still owned by a children map or static, and the count is their number |
| `TreeTheorems.CloneParentTerminates` | kernel/src/process/clone.rs:856-914 | the CLONE_PARENT loop turns fewer times than the caller's PID; when it turns, the caller's parent has become a strictly older process that still accepts children |
| `CloneTheorems.ChildIsPlacedRight` | kernel/src/process/clone.rs:870-914 | a new process becomes a child of its creator, or with CLONE_PARENT of its creator's parent at the moment of linking; field by field it is running, childless, uncharged, no subreaper and marked exactly if that parent is; of the others only the parent changes, and only in its children map |
| `TreeTheorems.ReaperSearchTerminates` | kernel/src/process/exit.rs:76-127 | over any run the search of one exiting process for a reaper takes a bounded number of steps, lost paths, restarts and refused hand-overs included |
| `TreeTheorems.NoLockCycle` | kernel/src/process/exit.rs:137-149 | among any set of processes at the nested children locks, one has its own map wanted by no other, so they never wait in a circle |
| `TreeEffects.CloneTermsWereGiven` | kernel/src/process/clone.rs:856-862 | over every run a thread inside clone is there with the caller, child and CLONE_PARENT flag it called with |
| `TreeEffects.ExitGoesOn` | kernel/src/process/exit.rs:18-46 | an exit goes through its stages in order, stays in the search until a hand-over succeeds, is a zombie exactly from the zombie stage on, and touches other processes only in the hand-over |
| `TreeEffects.HandOverEffect` | kernel/src/process/exit.rs:133-158 | a hand-over moves the children map to the reaper and sets the children's links, and changes no other field of any process |
| `TreeEffects.SearchStartsAgain` | kernel/src/process/exit.rs:117-125 | after a lost path or a refused hand-over the search starts again at the parent the process has by then |
| `TreeEffects.ReapEffect` | kernel/src/process/wait.rs:339-375 | reaping adds the child's own and inherited user and kernel time to the reaper's, removes it from map and table, and changes nothing else |
| `TreeEffects.AttributeLasts` | kernel/src/process/process/mod.rs:746-754 | over every run a process is a subreaper from one setting of the attribute to the next exactly if it was set, and no search selects it while it is unset |
| `TreeInvariant.StepKeepsInv` | kernel/src/process/exit.rs:18-46 | every step keeps ownership, ages, exit phases, the PID table and the state of every thread inside clone |
| `TreeInvariant.CloneRetryProgress` | kernel/src/process/clone.rs:863-868 | when the real parent's children are gone, the caller's own link by then names an older process |
| `TreeInvariant.MoveHolds` | kernel/src/process/exit.rs:137-158 | a hand-over moves exactly the children of the exiting process into the reaper's map and no other |
| `TreeInvariant.ReapHolds` | kernel/src/process/wait.rs:344-345 | reaping takes exactly the one child out of exactly the one children map |
| `TreeProgress.StepShrinksLinks` | kernel/src/process/exit.rs:151-155 | every step leaves each parent link alone or moves it to an older process |
| `TreeProgress.LostPathMeansChange` | kernel/src/process/exit.rs:117-125 | the walk loses its path only if some older process has been reparented since it started |
| `TreeProgress.LostReaperMeansChange` | kernel/src/process/exit.rs:76-81 | a hand-over is refused only if some older process has been reparented since the walk started |
| `CpuTime.CpuTimeConserved` | kernel/src/process/wait.rs:369-372 | in every reachable state the own and reaped time of all unreaped processes adds up to the ticks charged, for user and for kernel time |
| `CpuTime.ReapConserves` | kernel/src/process/wait.rs:339-375 | reaping moves all of the child's own and inherited time to the reaper, leaves nothing with the child, touches nobody else and keeps the total |
| `Marking.StepKeepsMInv` | kernel/src/process/process/mod.rs:738-784 | every step of clone, exit, reaping and marking keeps the tree invariant; the process of a marking thread runs, so its unwrapped children are there, and what a thread has seen under a children lock is marked |
| `MarkingTheorems.TreesAreReachable` | kernel/src/process/process/mod.rs:757-784 | the process tree under any interleaved marking is a reachable state of the life-cycle machine, and nothing panics |
| `MarkingTheorems.LocksGoDown` | kernel/src/process/process/mod.rs:759-770 | a marking thread that waits for a children lock while holding that of its own process waits for that of a younger process |
| `MarkingTheorems.NestedLocksMakeNoCircle` | kernel/src/process/exit.rs:137-149 | among any threads in the middle of nested children locks, hand-overs and markings mixed, one waits for a lock that none of the others holds |
| `MarkingTheorems.MarksSpreadDown` | kernel/src/process/process/mod.rs:757-784 | a process that gets the mark is setting its own attribute or has a marked parent |
| `MarkingTheorems.MoveKeepsMarksIff` | kernel/src/process/exit.rs:133-158 | a hand-over keeps the mark closed downwards, but for processes still to be visited, if and only if the reaper is unmarked, or still to be visited, or all moved children are marked |
| `MarkingTheorems.StepKeepsMarksIff` | kernel/src/process/clone.rs:873-878 | of all steps of clone, exit, reaping and marking, exactly the hand-overs that miss this condition open the mark |
| `MarkingTheorems.RunStaysClosedIff` | kernel/src/process/process/mod.rs:757-784 | over every run the mark stays closed, but for processes still to be visited, if and only if every hand-over met this condition |
| `MarkingTheorems.MarkingReachesAll` | kernel/src/process/process/mod.rs:129-134 | after any such run whose markings have ended every unreaped descendant of a subreaper carries the mark |
| `MarkingTheorems.ClearPathRunsStayClosed` | kernel/src/process/exit.rs:95-127 | over any run whose hand-overs go to processes that are ancestors at that moment, with no marking thread having business on the path, the mark stays closed |
| `Subreaper.ShortcutAgrees` | kernel/src/process/exit.rs:102-115 | on a tree with a closed mark the search that stops at an unmarked process selects the process the full search selects |
| `Subreaper.NearestIsSubreaper` | kernel/src/process/exit.rs:103-115 | the full search returns a live subreaper at or above the start, or init |
| `Subreaper.NothingNearer` | kernel/src/process/exit.rs:103-115 | no live subreaper above the start is nearer than the one the full search returns |
| `ReaperWalk.UndisturbedWalkFindsNearest` | kernel/src/process/exit.rs:95-127 | in any run a walk that reaches the hand-over by its own steps alone has selected what the search as coded selects, and with a closed mark the nearest live subreaper above, or init |
| `Subreaper.MarksAllBelow` | kernel/src/process/process/mod.rs:738-784 | on a tree with a closed mark, setting the attribute marks every unreaped descendant although the walk stops at marked processes |
| `Subreaper.MarksOnlyBelow` | kernel/src/process/process/mod.rs:738-784 | undisturbed setting of the attribute marks nobody but descendants, takes no mark back and changes nothing else |
| `SubreaperRace.StaleWalkOpensMark` | kernel/src/process/exit.rs:95-127 | a reachable state in which a running process lacks the mark of its live subreaper parent and the shortcut picks init instead of that subreaper |
| `SubreaperRace.ExitDuringMarkingOpensMark` | kernel/src/process/process/mod.rs:769-774 | a reachable state with no marking in progress in which a running process lacks the mark of its live subreaper parent, although the hand-over went to the exiting process's own parent |
| `ProcessObjects.MoveProcessChildren` | kernel/src/process/exit.rs:133-158 | the loop over the children does to the process map exactly what one hand-over step of the machine does, or nothing if the reaper's map is gone |
| `ProcessObjects.FindReaper` | kernel/src/process/exit.rs:95-127 | on a fixed tree the walk returns what the shortcut search selects, nothing standing for init |
| `ProcessObjects.ReapZombieChild` | kernel/src/process/wait.rs:339-375 | the process objects change as in one reaping step and the PID table loses exactly the child's process and main thread |
| `ProcessObjects.SetChildSubreaper` | kernel/src/process/process/mod.rs:738-744 | on a fixed tree it marks the caller and exactly what the walk gets to, nothing further if the caller was marked |
| `ProcessObjects.Propagate` | kernel/src/process/process/mod.rs:757-784 | on a fixed tree the queue-driven walk terminates and marks exactly the processes reachable from the caller through unmarked ones |
| `WaitWakeups.NoLostChildWakeup` | kernel/src/process/wait.rs:68-101 | a thread asleep and not woken has no ready child, unless somebody still has the wake for that child ahead or a departed tracer abandoned the child |
| `WaitWakeups.QuietMeansAwake` | kernel/src/process/exit.rs:178-187 | with no abandoned child, once all exits and detachings are over every sleeping thread with a ready child has been woken |
| `WaitWakeups.TreeKeepsCover` | kernel/src/process/exit.rs:76-89 | a pending wake of a parent survives every life-cycle step that does not deliver it, including chains of exiting reapers |
| `WaitTracers.NoLostTraceeWakeup` | kernel/src/process/wait.rs:199-239 | a sleeping, unwoken thread that traces its own zombie child has the wake for it still to come |
| `WaitTracers.TraceMeLosesNoTracee` | kernel/src/syscall/ptrace.rs:36-42 | if processes become traced only by asking their parent, no thread sleeps through the end of any of its tracees |
| `WaitReports.ReportedOncePerRole` | kernel/src/process/wait.rs:211-239 | over every run reports concern zombies only, a second report about a process follows a tracer's report and goes to a parent, a parent's report comes with the reaping, and nobody is reaped unreported |
| `WaitEffects.ReportsFollowFilter` | kernel/src/process/wait.rs:108-119 | over every run a report for a thread that waits for one PID is about that PID; every report is about the process looked at, addressed to the thread's process, and on the filter and options the wait began with |
| `WaitEffects.ScanEndsExactly` | kernel/src/process/wait.rs:284-337 | a scan ends at a child exactly if it is an untraced zombie that the filter names or does not exclude; it is then reaped and reported exactly if the wait consumes, and otherwise nothing changes |
| `WaitEffects.TraceeFoundExactly` | kernel/src/process/wait.rs:199-249 | a thread finds a tracee exactly if it traces it, it is a zombie and the filter lets it through; a consuming wait detaches it, another leaves everything as it is |
| `WaitEffects.LookingLeavesNoTrace` | kernel/src/process/wait.rs:236-239 | a wait with WNOWAIT changes neither processes nor tracees nor reports, whatever it finds |
| `WaitEffects.WakesReachExactly` | kernel/src/process/exit.rs:178-187 | a step wakes a waiting thread exactly if the thread is queued and the step is the wake of its process as tracer, reaper or parent |
| `WaitEffects.ExitLetsTraceesGo` | kernel/src/process/posix_thread/ptrace/mod.rs:308-336 | an exit lets go of the tracees of the exiting process and of nobody else's |
| `WaitAnswers.NoChildMeansNone` | kernel/src/process/wait.rs:69-87 | over every run a complete scan ends in ECHILD only if the process has no children at all, or not the one waited for, and had no such tracee when that same evaluation looked; it goes on only if that evaluation was shown one, and then sleeps if it has enqueued |
| `WaitSolo.SoloRunReportsOnce` | kernel/src/process/wait.rs:251-282 | with one waiting thread per process the unwrapped removal never fails, and a parent that reported its child as tracer never reports it again |
| `WaitExact.RemovalFailsIffReaped` | kernel/src/process/wait.rs:268-281 | in every reachable state the removal fails if and only if the child has been reaped in between, and the child's link still names the tracing parent |
| `WaitExact.RunNeverBreaksIff` | kernel/src/process/wait.rs:257-281 | a run never fails the removal if and only if no tracing parent comes to remove a child that has been reaped |
| `WaitExact.ClearKeepsWakeIff` | kernel/src/process/posix_thread/ptrace/mod.rs:308-336 | letting go of tracees loses no wake-up if and only if every zombie among them that an unwoken thread of its parent passed over has another wake to come |
| `WaitExact.RunLosesNothingIff` | kernel/src/process/posix_thread/ptrace/mod.rs:308-336 | over every run no wake-up is lost if and only if each time tracees are let go every zombie among them that an unwoken thread of its parent passed over has another wake to come |
| `WaitExact.DutifulTracersLoseNothing` | kernel/src/process/posix_thread/exit.rs:91-99 | in runs where departing tracers have no zombie tracees, no wake-up is lost at all |
| `WaitRaces.TracerExitLosesWakeup` | kernel/src/process/posix_thread/ptrace/mod.rs:308-336 | a reachable state with every exit over, a ready untraced child, its parent's thread asleep and nobody left to wake it |
| `WaitRaces.TwoWaitersBreakReap` | kernel/src/process/wait.rs:257-281 | a reachable state in which the tracing thread has claimed an end, a sibling thread has reaped and reported it too, and the removal has failed |
| `TaskSets.TaskSet.constructor` | kernel/src/process/task_set.rs:23-31 | an empty set with no flag and no waker |
| `TaskSets.TaskSet.Insert` | kernel/src/process/task_set.rs:37-44 | succeeds exactly when neither a group exit nor an exec has begun, and then appends |
| `TaskSets.TaskSet.RemoveExited` | kernel/src/process/task_set.rs:56-75 | exactly the exiting task stops being live, the main task stays at index 0, the answer is true exactly when no live task is left, and the exec waker is woken |
| `TaskSets.TaskSet.SwapMain` | kernel/src/process/task_set.rs:85-91 | with an exited main task and one other, the other becomes the only, main and live task |
| `TaskSets.TaskSet.SetExitedGroup` | kernel/src/process/task_set.rs:94-97 | from then on insertions are refused |
| `TaskSets.TaskSet.StartExecve` | kernel/src/process/task_set.rs:105-108 | from then on insertions are refused |
| `TaskSets.TaskSet.FinishExecve` | kernel/src/process/task_set.rs:111-113 | only the exec flag is reset |
| `TaskSets.TaskSet.SetExecveWaker` | kernel/src/process/task_set.rs:124-127 | registers the waker where there was none |
| `TaskSets.TaskSet.ClearExecveWaker` | kernel/src/process/task_set.rs:130-132 | only the waker is cleared |
| `TaskSets.RemovedLive` | kernel/src/process/task_set.rs:56-75 | the live tasks lose exactly the exiting one; the vector stays duplicate-free with the main task first |
| `TaskSets.LastIffNoneLive` | kernel/src/process/task_set.rs:74 | an exited main task alone in the vector means that no task is live, and conversely |
| `TaskSets.AloneIff` | kernel/src/process/execve.rs:207-213 | the two length conditions of the exec loop say exactly that the caller is the only live task |
| `ExecTheorems.NoThreadPanics` | kernel/src/process/execve.rs:254-274 | no assertion or unwrap of thread creation, exit or exec fails; index 0 is always the task whose TID is the PID, and no other live task has that TID |
| `ExecTheorems.ExecPromotionSafe` | kernel/src/process/execve.rs:202-259 | once the exec thread stops waiting it is the only live task, insertions are refused, and all four assertions before the swap hold |
| `ExecTheorems.ExecTakesOver` | kernel/src/process/execve.rs:261-274 | afterwards it is the only task, the PID leads to it and the TID it was born with is gone from the table |
| `ExecTheorems.NoLostExecWakeup` | kernel/src/process/execve.rs:215-233 | a sleeping exec thread whose siblings are gone has been woken; with SIGKILL pending it has been woken or the sender is about to |
| `ExecTheorems.ProcessExitsOnce` | kernel/src/process/posix_thread/exit.rs:63-122 | the process exits at most once, not while a task lives, certainly once all threads are gone, and then the set is the single main task with the PID as TID |
| `ExecTheorems.LastIsToldExactly` | kernel/src/process/posix_thread/exit.rs:63-88 | a thread is told that it was the last if and only if its exit leaves no live task |
| `ExecInvariant.StepKeepsInv` | kernel/src/process/execve.rs:66-103 | every step keeps task set, PID table, locks, wakers and program counters consistent, with at most one exec at a time |
| `ExecDoom.SiblingsAreDoomed` | kernel/src/process/execve.rs:66-79 | while one thread executes a new program every other live thread has SIGKILL pending, threads still being created included |
| `ExecDoom.ExecFlagExact` | kernel/src/process/execve.rs:66-103 | the exec flag is set exactly while one thread, and only one, is executing a new program |
| `ExecDoom.GroupIsDoomed` | kernel/src/process/posix_thread/exit.rs:68-71 | once a group exit has begun every live thread has SIGKILL pending and none is added |
| `ExecEffects.GroupExitEffect` | kernel/src/process/posix_thread/exit.rs:63-88 | a group exit sets the flag unless an exec is under way, every other live thread then has SIGKILL pending, with its wake on the way if this call set the flag; any other exit leaves flag and signals alone |
| `ExecEffects.ExecStartEffect` | kernel/src/process/execve.rs:66-79 | an exec begins exactly if neither flag is set, sets its flag and kills every other live thread; a refused one changes nothing |
| `ExecEffects.CloneThreadEffect` | kernel/src/process/task_set.rs:37-44 | a thread is added exactly if neither flag is set, fresh, live and with nothing pending, and no other thread changes |
| `ExecEffects.RemoveTidEffect` | kernel/src/process/posix_thread/exit.rs:105-109 | an exiting thread takes its own TID out of the PID table and never the PID, without a failed assertion |
| `ExecEffects.CheckDecides` | kernel/src/process/execve.rs:202-224 | the exec thread goes on exactly if no other thread is live and otherwise arms its waker |
| `ExecEffects.ArmDecides` | kernel/src/process/execve.rs:215-228 | a pending SIGKILL makes the exec fail; otherwise it sleeps with its waker registered |
| `ExecEffects.SignalsHaveReasons` | kernel/src/process/posix_thread/exit.rs:124-140 | SIGKILL becomes pending only through a kill, another thread's group exit or exec, or a failed exec, and stays; a thread is woken only by a ring while its waker is set, or as exec thread by an exit |
| `ExecEffects.TakeoverHappens` | kernel/src/process/execve.rs:202-275 | a reachable state in which a thread other than the main one has executed a new program and is the only task under the PID |
| `Promotion.MakeCurrentMain` | kernel/src/process/execve.rs:237-275 | on the task set, the PID table and the tracer's map: the caller becomes the only task, the PID leads to it, its old TID to no thread, no other slot changes, and its entry among the tracees moves to the PID |
| `Promotion.RekeyedStaysFiled` | kernel/src/process/execve.rs:264-268 | the tracer still has every tracee under its TID, keeps the caller if it had it, and loses at most the old main thread |
| `PidTables.PidTable.constructor` | kernel/src/process/pid_table.rs:31-36 | four empty maps |
| `PidTables.PidTable.InsertThread` | kernel/src/process/pid_table.rs:51-58 | changes its own kind at its own identifier and nothing else; no empty entry, no process without thread, count exact |
| `PidTables.PidTable.RemoveThread` | kernel/src/process/pid_table.rs:64-81 | changes its own kind at its own identifier and nothing else, also for an unknown TID; an entry that becomes empty goes |
| `PidTables.PidTable.TakeThread` | kernel/src/process/pid_table.rs:86-106 | returns the thread if it is there and alive and only then removes it |
| `PidTables.PidTable.ReplaceThread` | kernel/src/process/pid_table.rs:109-114 | changes its own kind at its own identifier and nothing else |
| `PidTables.PidTable.InsertProcess` | kernel/src/process/pid_table.rs:133-141 | process and main thread appear together and the count grows by one |
| `PidTables.PidTable.RemoveProcess` | kernel/src/process/pid_table.rs:148-168 | process and main thread vanish together and the count stays exact, also for an unknown PID |
| `PidTables.PidTable.InsertGroup` | kernel/src/process/pid_table.rs:192-195 | changes its own kind at its own identifier and nothing else |
| `PidTables.PidTable.RemoveGroup` | kernel/src/process/pid_table.rs:198-213 | changes its own kind at its own identifier and nothing else |
| `PidTables.PidTable.InsertSession` | kernel/src/process/pid_table.rs:232-235 | changes its own kind at its own identifier and nothing else |
| `PidTables.PidTable.RemoveSession` | kernel/src/process/pid_table.rs:238-253 | changes its own kind at its own identifier and nothing else |
| `PidTables.PidTable.PerformAll` | kernel/src/process/pid_table.rs:39-253 | any legal sequence of operations leaves what four independent maps would hold and keeps the table well-formed |
| `PidTables.PidTable.Get` | kernel/src/process/pid_table.rs:117-175 | a look-up answers from the separate map of its kind, if the object is alive |
| `PidTables.PidTable.ContainsGroup` | kernel/src/process/pid_table.rs:223-227 | true exactly for the identifiers of the separate group map |
| `PidTables.PidTable.Iterate` | kernel/src/process/pid_table.rs:124-182 | yields exactly the living objects of one kind, once each, by ascending identifier |
| `PidTables.CountProcesses` | kernel/src/process/pid_table.rs:178-187 | an iteration yields exactly the living processes, and their number equals the count if and only if every occupied process slot names a living process |
| `TableRuns.StepMirrors` | kernel/src/process/pid_table.rs:133-168 | every table operation a life-cycle step performs is legal at that moment and leaves a table with exactly the unreaped processes |
| `TableRuns.CountAlongRun` | kernel/src/process/pid_table.rs:178-187 | after any run of the life-cycle machine, with every owned process alive, iterating over the table yields exactly the unreaped processes, as many as the machine counts |
| `Subjects.SyncSubject.RegisterObserver` | kernel/src/events/subject.rs:91-101 | inserts or updates the observer and keeps the counter equal to the table size |
| `Subjects.SyncSubject.UnregisterObserver` | kernel/src/events/subject.rs:108-121 | removes the observer if present and keeps the counter equal to the table size |
| `Subjects.SyncSubject.NotifyObservers` | kernel/src/events/subject.rs:126-153 | calls exactly the living observers whose filter accepts the event, once each and in table order, drops exactly the dead ones, keeps the counter exact |
| `NotifyProtocol.NoLostEvent` | kernel/src/events/subject.rs:91-153 | in every interleaving, once a notification is over and an observer has registered and re-checked, a living observer that accepts the event was called or saw it |
| `NotifyProtocol.SweepCallsExactly` | kernel/src/events/subject.rs:126-153 | a notification calls exactly the living observers in the table that accept its event, nobody who has unregistered, and drops exactly the dead |
| `NotifyProtocol.SeenWasPublished` | kernel/src/events/subject.rs:91-101 | what an observer saw when re-checking had been published |
| `NotifyProtocol.FilterWasGiven` | kernel/src/events/subject.rs:91-101 | over every run an observer has the filter it last registered with |
| `NotifyProtocol.CounterExact` | kernel/src/events/subject.rs:91-153 | the counter is the table size whenever the lock is free and never drops below zero |
| `IpcTables.IdAlloc.Alloc` | ostd/libs/id-alloc/src/lib.rs:32-43 | hands out the smallest free identifier, nothing exactly when all are taken |
| `IpcTables.IdAlloc.AllocSpecific` | ostd/libs/id-alloc/src/lib.rs:140-151 | succeeds exactly if the identifier is free |
| `IpcTables.IdAlloc.Free` | ostd/libs/id-alloc/src/lib.rs:123-130 | frees exactly that identifier and keeps the first-free hint right |
| `IpcTables.IpcIds.constructor` | kernel/src/ipc/ipc_ids.rs:22-31 | no objects, identifier 0 taken |
| `IpcTables.IpcIds.Remove` | kernel/src/ipc/ipc_ids.rs:48-66 | EINVAL if absent, the refusal if refused, both without effect; otherwise object and identifier go together |
| `IpcTables.IpcIds.InsertAuto` | kernel/src/ipc/ipc_ids.rs:69-94 | ENOSPC exactly if all identifiers are taken, otherwise the object under the smallest free one, or the construction's error without effect |
| `IpcTables.IpcIds.InsertAt` | kernel/src/ipc/ipc_ids.rs:97-122 | EEXIST exactly if taken, otherwise the object, or the construction's error without effect |
| `IpcNamespace.Namespace.GetOrCreateSemSet` | kernel/src/ipc/ipc_ns.rs:118-175 | while other threads add and drop sets between its look-ups and insertions, the retry loop ends, answers and changes the table as the uninterrupted function on plain maps does at some moment of theirs, and keeps allocator and table in agreement; `KeyedCallMeans` and `PrivateCallMeans` state what that function means |
| `IpcNamespace.KeyedCallMeans` | kernel/src/ipc/ipc_ns.rs:118-175 | a keyed call in keys and numbers: an existing set has the number u % 32000 + 1 of its unsigned key u and answers by it, with EEXIST or EINVAL; a missing one gives ENOENT, ENOSPC if that number is taken, EINVAL, or a new set under that number |
| `IpcNamespace.SlotsShared` | kernel/src/ipc/ipc_ns.rs:133 | two keys share a number exactly if their unsigned values are congruent modulo 32000 |
| `IpcNamespace.OccupantIsCongruent` | kernel/src/ipc/ipc_ns.rs:136-143 | the number of a missing key is taken only by a private set or a set of a congruent key |
| `IpcNamespace.CongruentKeysCollide` | kernel/src/ipc/ipc_ns.rs:133 | a set of a congruent key has the number of the missing one |
| `IpcNamespace.PrivateCallMeans` | kernel/src/ipc/ipc_ns.rs:187-195 | a private call takes the smallest free identifier or fails without effect, with ENOSPC exactly if none is free and otherwise EINVAL exactly for a bad number of semaphores |
| `IpcNamespace.KeysFoundInEveryRun` | kernel/src/ipc/ipc_ns.rs:130-135 | in every reachable state a set of a key has the number computed from the key, so that looking there finds it exactly if it exists |
| `IpcNamespace.CallsAreAtomic` | kernel/src/ipc/ipc_ns.rs:135-174 | under any interference a call that finishes answers, and changes the sets, as the uninterrupted call would have at that moment |
| `IpcNamespace.CallTermsWereGiven` | kernel/src/ipc/ipc_ns.rs:118-125 | over every run a caller is there with the key, size and flags it called with |
| `IpcNamespace.RetryMeansRival` | kernel/src/ipc/ipc_ns.rs:167-173 | over every run the loop turns again only if some step since its look-up filled the slot, and no more often than the slot was filled |
| `Sendfile.SendFile` | kernel/src/syscall/sendfile.rs:17-202 | EINVAL for a bad offset, count or unseekable input, then EBADF for the wrong access modes, then EINVAL for a directory or an appending output, and no other refusal; the output gains exactly the input bytes from the start position on, as many as reported; offset or file position end at start plus that; errors leave both files and the offset as they were; however short the reads, everything available up to the count is sent if no read comes back empty-handed and writes are whole |
| `Sendfile.Transfer` | kernel/src/syscall/sendfile.rs:120-184 | the loop terminates under any pattern of short reads, short writes and errors with the bytes and position accounted for |
| `Words.BitIsDigit` | kernel/src/syscall/sched_affinity.rs:86 | bit k of a word is its binary digit of weight 2 to the power k |
| `Words.WithBitIs` | kernel/src/syscall/sched_affinity.rs:129 | or-ing a shifted one into a 64-bit word sets that bit and no other |
| `Affinity.WriteCpuSet` | kernel/src/syscall/sched_affinity.rs:104-139 | the words that fit into the size, and no more than the CPUs need, are stored once and in order, bit b of word p set exactly if CPU 64p+b is in the set; the answer is their length in bytes and nothing beyond is written |
| `Affinity.ReadCpuSet` | kernel/src/syscall/sched_affinity.rs:69-101 | exactly the existing CPUs whose bit is set in a word within the size, or EINVAL if there are none |
| `Affinity.RoundTrip` | kernel/src/syscall/sched_affinity.rs:63-139 | writing a mask and reading it back gives exactly the members that exist and whose word fits, or EINVAL if there are none |
| `Polling.CountEventsFrom` | kernel/src/syscall/poll.rs:194-215 | the result is the number of entries from the start index with non-empty events, all set to this round's answers |
| `Polling.RegisterPoller` | kernel/src/syscall/poll.rs:167-186 | stops at the first ready entry and still counts all ready entries |
| `Polling.DoPoll` | kernel/src/syscall/poll.rs:88-122 | every earlier round was quiet and followed by a wake-up; the entries carry the answers of the last round, nothing without a descriptor and exactly NVAL without a file; the result is the number of reporting entries, and if there are none zero for a timeout and its own error for a failed wait |
| `Selecting.FdSet.Set` | kernel/src/syscall/select.rs:224-231 | adds exactly that descriptor, refuses a negative one or one beyond the set |
| `Selecting.FdSet.IsSet` | kernel/src/syscall/select.rs:245-251 | true exactly for members, so never for a negative descriptor |
| `Selecting.FdSet.Clear` | kernel/src/syscall/select.rs:254-258 | empties the set |
| `Selecting.BuildEntries` | kernel/src/syscall/select.rs:114-138 | one entry, in ascending order, for each descriptor below the limit that is in some set, asking for IN, OUT and PRI exactly as the three sets have it |
| `Selecting.PickedIs` | kernel/src/syscall/select.rs:158-180 | a polled descriptor is in an output set exactly if its events report that set's kind |
| `Selecting.Collect` | kernel/src/syscall/select.rs:156-181 | the total is the number of bits set in the three sets; EBADF exactly if some entry is invalid |
| `Selecting.DoSelect` | kernel/src/syscall/select.rs:54-182 | polls the wanted descriptors as `poll` does; EBADF exactly if one is not open, zero or the error of the wait if none reports, otherwise the number of bits set in the output sets, which hold exactly the descriptors reporting IN, HUP or ERR, OUT or ERR, and PRI |

## Left out

- Memory orderings weaker than sequential consistency, interrupt state and real timers.
- User-memory copies and page faults, credentials, security hooks, namespaces, cgroups, paths.
- Signals other than SIGKILL to threads: the signal sent to a parent at a child's end and the parent-death signal are not modelled; only wake-ups of wait queues are.
- Stop and continue statuses in `wait`, ptrace stops, WNOHANG and the pidfd non-blocking answer: a waiting thread may give up at any time instead.
- The wait filter by process group: filters are by PID or any.
- Tracing is per process: the tracer is one thread of a process and the tracee a main thread; any running process may attach in the machine, which includes PTRACE_TRACEME.
- vfork, and the process groups and sessions a new child joins; their slots in the PID table are modelled.
- Reuse of PIDs: the allocator never reuses one.
- MarkingTheorems.ClearPathRunsStayClosed: a sufficient condition; the exact one is `MarkingTheorems.RunStaysClosedIff`.
- WaitExact.DutifulTracersLoseNothing: a sufficient condition; the exact one is `WaitExact.RunLosesNothingIff`.
- WaitSolo.SoloRunReportsOnce: one waiting thread per process is sufficient; the exact condition for the removal never to fail is `WaitExact.RunNeverBreaksIff`.
- A hand-over updates all parent links in one step, while a reader takes only the lock of the one child it looks at and may see some links changed before others. No walk reads the links of two siblings, and a link read too early names a process that still exists, is older and refuses children afterwards, which is the same as having read it before the hand-over.
- ProcessObjects.SetChildSubreaper: on a fixed tree; the interleaved marking is the machine of `Marking`.
- ProcessObjects.Propagate: on a fixed tree; the interleaved marking is the machine of `Marking`.
- ProcessObjects.FindReaper: on a fixed tree, so that the path is never lost; the interleaved walk is part of the life-cycle machine.
- Liveness under fairness: the machine says that wakes are pending or delivered and that searches and retries are bounded, not that the scheduler runs everybody.
- `IdAlloc::alloc_consecutive` and `free_consecutive`: not used by IPC.
- Semaphore operations and undo lists, message queues and shared memory.
- Sendfile.SendFile: files are distinct and not shared with other threads, a failed read leaves the position alone, and seeking a seekable file succeeds.
- Polling.DoPoll: the waits are a finite script whose end counts as a timeout; what happens after an endless sequence of empty wake-ups is not modelled.
- IpcNamespace.Namespace.GetOrCreateSemSet: the other threads act finitely often; the loop under unbounded interference is the machine behind `IpcNamespace.CallsAreAtomic`.
- That `select` reports only descriptors of the input set of the same kind: the code does not look at the input sets when it converts the results.
- The vDSO clock, block devices, file systems, networking and drivers.
