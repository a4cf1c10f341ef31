/**
 Threads of one process that come, go and execute a new program.

 One step is one section under the task-set lock, under the PID-table lock or one atomic
 access; the exec thread holds the task-set lock from its check to its decision to sleep.
 A task is named by the TID it was born with; the TID itself can change, when the exec
 thread takes over the PID.  Sending SIGKILL is two steps: queue it, then ring the target.
 */
module ExecProtocol {
  import opened Prelude
  import opened TaskSets

  type Tid = nat

  datatype Pc =
    | Born
    | Running
    | Cloning(child: TaskId)
    | Entering
    | Checking
    | Arming
    | Sleeping
    | Waking
    | Promoting
    | Relinking
    | Executed
    | Failed
    | Removing(last: bool)
    | Leaving(last: bool)
    | Gone

  /** `killed`: SIGKILL is pending; `signalled`: a waker for signals is set; `woken`: it was woken. */
  datatype Thread = Thread(tid: Tid, pc: Pc, killed: bool, signalled: bool, woken: bool)

  datatype State = State(
    pid: Tid,
    tasks: Tasks,
    threads: map<TaskId, Thread>,
    table: map<Tid, TaskId>,
    lock: Option<TaskId>,
    tableLock: Option<TaskId>,
    ringing: multiset<TaskId>,
    nextTid: Tid,
    exits: nat,
    panicked: bool)

  predicate IsLive(pc: Pc) {
    !pc.Removing? && !pc.Leaving? && !pc.Gone?
  }

  predicate InExec(pc: Pc) {
    pc.Entering? || pc.Checking? || pc.Arming? || pc.Sleeping? || pc.Waking? || pc.Promoting?
    || pc.Relinking? || pc.Executed? || pc.Failed?
  }

  predicate HasLast(pc: Pc) {
    (pc.Removing? || pc.Leaving?) && pc.last
  }

  function ThreadAt(s: State, t: TaskId): Thread {
    if t in s.threads then s.threads[t] else Thread(0, Gone, false, false, false)
  }

  function Go(s: State, t: TaskId, pc: Pc): State {
    s.(threads := s.threads[t := ThreadAt(s, t).(pc := pc)])
  }

  function Panic(s: State): State {
    s.(panicked := true)
  }

  /** `sigkill_other_threads`: the signals are queued; the wakes follow. */
  function KillOthers(s: State, me: TaskId): State {
    s.(threads := map t | t in s.threads ::
                    if t in s.tasks.tasks && t != me then s.threads[t].(killed := true) else s.threads[t],
       ringing := s.ringing + multiset(s.tasks.tasks) - multiset{me})
  }

  // ---- clone of a thread ----

  function DoClone(s: State, t: TaskId, child: TaskId): State {
    if Refuses(s.tasks) then s.(nextTid := child + 1)
    else
      s.(tasks := Inserted(s.tasks, child),
         threads := s.threads[child := Thread(child, Born, false, false, false)]
                             [t := ThreadAt(s, t).(pc := Cloning(child))],
         nextTid := child + 1)
  }

  function DoPublish(s: State, t: TaskId): State {
    var pc := ThreadAt(s, t).pc;
    if !pc.Cloning? then s
    else if pc.child in s.table then Panic(s)
    else
      Go(Go(s, pc.child, Running), t, Running).(table := s.table[ThreadAt(s, pc.child).tid := pc.child])
  }

  // ---- execve ----

  function DoExecStart(s: State, t: TaskId): State {
    if Refuses(s.tasks) then s
    else Go(KillOthers(s, t), t, Entering).(tasks := s.tasks.(inExecve := true))
  }

  function DoLock(s: State, t: TaskId): State {
    var s1 := Go(s, t, Checking).(lock := Some(t));
    if ThreadAt(s, t).pc.Waking? then s1.(tasks := s.tasks.(execveWaker := None)) else s1
  }

  /** The condition `wait_other_threads_exit` waits for. */
  predicate OthersGone(s: State, t: TaskId) {
    if ThreadAt(s, t).tid == s.pid then |s.tasks.tasks| == 1
    else |s.tasks.tasks| == 2 && s.tasks.hasExitedMain
  }

  function DoCheck(s: State, t: TaskId): State {
    if OthersGone(s, t) then Go(s, t, Promoting).(lock := None)
    else if ThreadAt(s, t).signalled then Panic(s)
    else s.(threads := s.threads[t := ThreadAt(s, t).(pc := Arming, signalled := true, woken := false)])
  }

  function DoArm(s: State, t: TaskId): State {
    if ThreadAt(s, t).killed then
      s.(threads := s.threads[t := ThreadAt(s, t).(pc := Failed, signalled := false)], lock := None)
    else if s.tasks.execveWaker.Some? then Panic(s)
    else Go(s, t, Sleeping).(lock := None, tasks := s.tasks.(execveWaker := Some(t)))
  }

  function DoWakeUp(s: State, t: TaskId): State {
    s.(threads := s.threads[t := ThreadAt(s, t).(pc := Waking, signalled := false)])
  }

  /** `make_current_main_thread`, up to the release of the task-set lock. */
  function DoPromote(s: State, t: TaskId): State {
    if ThreadAt(s, t).tid == s.pid then Go(s, t, Executed)
    else if s.tasks.hasExitedMain && s.tasks.inExecve && |s.tasks.tasks| == 2 && s.tasks.tasks[1] == t then
      s.(threads := s.threads[t := ThreadAt(s, t).(pc := Relinking, tid := s.pid)],
         tasks := MainSwapped(s.tasks),
         tableLock := Some(t))
    else Panic(s)
  }

  /** ... and its second half on the PID table, which named the thread by its old TID `t`. */
  function DoRelink(s: State, t: TaskId): State {
    if t !in s.table || s.pid !in s.table || t == s.pid then Panic(s)
    else Go(s, t, Executed).(table := (s.table - {t})[s.pid := s.table[t]], tableLock := None)
  }

  function DoFinish(s: State, t: TaskId): State {
    var th := ThreadAt(s, t);
    s.(threads := s.threads[t := th.(pc := Running, killed := th.killed || th.pc.Failed?)],
       tasks := s.tasks.(inExecve := false))
  }

  // ---- signals ----

  function DoKill(s: State, t: TaskId): State {
    s.(threads := s.threads[t := ThreadAt(s, t).(killed := true)], ringing := s.ringing + multiset{t})
  }

  function DoRing(s: State, t: TaskId): State {
    var th := ThreadAt(s, t);
    s.(threads := s.threads[t := th.(woken := th.woken || th.signalled)], ringing := s.ringing - multiset{t})
  }

  // ---- exit of a thread ----

  function WakeExec(s: State): State {
    match s.tasks.execveWaker
    case Some(e) => s.(threads := s.threads[e := ThreadAt(s, e).(woken := true)])
    case None => s
  }

  function DoRemove(s: State, t: TaskId): State {
    if !CanRemove(s.tasks, t) then Panic(s)
    else
      var tasks' := Removed(s.tasks, t);
      var s1 := WakeExec(s).(tasks := tasks');
      Go(s1, t, if ThreadAt(s, t).tid != s.pid then Removing(IsLast(tasks')) else Leaving(IsLast(tasks')))
  }

  function DoExit(s: State, t: TaskId, group: bool): State {
    if group && !s.tasks.hasExitedGroup && !s.tasks.inExecve then
      var s1 := KillOthers(s, t);
      DoRemove(s1.(tasks := s.tasks.(hasExitedGroup := true)), t)
    else DoRemove(s, t)
  }

  /** `remove_thread`; that it finds nothing to remove counts as a failure here. */
  function DoRemoveTid(s: State, t: TaskId): State {
    var pc := ThreadAt(s, t).pc;
    var tid := ThreadAt(s, t).tid;
    if !pc.Removing? then s
    else if tid !in s.table then Panic(s)
    else Go(s, t, Leaving(pc.last)).(table := s.table - {tid})
  }

  function DoLeave(s: State, t: TaskId): State {
    var pc := ThreadAt(s, t).pc;
    if !pc.Leaving? then s
    else Go(s, t, Gone).(exits := s.exits + if pc.last then 1 else 0)
  }

  // ---- The machine ----

  datatype Step =
    | Clone(t: TaskId, child: TaskId)
    | Publish(t: TaskId)
    | ExecStart(t: TaskId)
    | Lock(t: TaskId)
    | Check(t: TaskId)
    | Arm(t: TaskId)
    | WakeUp(t: TaskId)
    | Promote(t: TaskId)
    | Relink(t: TaskId)
    | ExecFail(t: TaskId)
    | Finish(t: TaskId)
    | Kill(t: TaskId)
    | Ring(t: TaskId)
    | Signal(t: TaskId)
    | Exit(t: TaskId, group: bool)
    | RemoveTid(t: TaskId)
    | Leave(t: TaskId)

  predicate Enabled(s: State, step: Step) {
    && !s.panicked && step.t in s.threads
    && var pc := s.threads[step.t].pc;
       match step
       case Clone(_, child) => pc.Running? && s.lock.None? && s.nextTid <= child
       case Publish(_) => pc.Cloning? && s.tableLock.None?
       case ExecStart(_) => pc.Running? && s.lock.None?
       case Lock(_) => (pc.Entering? || pc.Waking?) && s.lock.None?
       case Check(_) => pc.Checking?
       case Arm(_) => pc.Arming?
       case WakeUp(_) => pc.Sleeping? && s.threads[step.t].woken
       case Promote(_) => pc.Promoting? && s.lock.None? && s.tableLock.None?
       case Relink(_) => pc.Relinking?
       case ExecFail(_) => pc.Executed?
       case Finish(_) => (pc.Executed? || pc.Failed?) && s.lock.None?
       case Kill(_) => true
       case Ring(_) => step.t in s.ringing
       case Signal(_) => true
       case Exit(_, _) => pc.Running? && s.lock.None?
       case RemoveTid(_) => pc.Removing? && s.tableLock.None?
       case Leave(_) => pc.Leaving?
  }

  function Apply(s: State, step: Step): State {
    match step
    case Clone(t, child) => DoClone(s, t, child)
    case Publish(t) => DoPublish(s, t)
    case ExecStart(t) => DoExecStart(s, t)
    case Lock(t) => DoLock(s, t)
    case Check(t) => DoCheck(s, t)
    case Arm(t) => DoArm(s, t)
    case WakeUp(t) => DoWakeUp(s, t)
    case Promote(t) => DoPromote(s, t)
    case Relink(t) => DoRelink(s, t)
    case ExecFail(t) => Go(s, t, Failed)
    case Finish(t) => DoFinish(s, t)
    case Kill(t) => DoKill(s, t)
    case Ring(t) => DoRing(s, t)
    case Signal(t) => s.(ringing := s.ringing + multiset{t})
    case Exit(t, group) => DoExit(s, t, group)
    case RemoveTid(t) => DoRemoveTid(s, t)
    case Leave(t) => DoLeave(s, t)
  }

  /** A process `pid` with its main thread. */
  function Fresh(pid: Tid): State {
    State(pid, Tasks([pid], false, false, false, None),
          map[pid := Thread(pid, Running, false, false, false)], map[pid := pid],
          None, None, multiset{}, pid + 1, 0, false)
  }

  ghost predicate Next(s: State, step: Step, s': State) {
    Enabled(s, step) && s' == Apply(s, step)
  }

  ghost predicate IsRun(states: seq<State>, steps: seq<Step>) {
    && |states| == |steps| + 1
    && states[0] == Fresh(states[0].pid)
    && forall i :: 0 <= i < |steps| ==> Next(states[i], steps[i], states[i + 1])
  }

  ghost predicate Reachable(s: State) {
    exists states, steps :: IsRun(states, steps) && states[|steps|] == s
  }
}
