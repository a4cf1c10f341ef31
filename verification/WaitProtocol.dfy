/**
 `wait` on top of the life-cycle machine: waiting threads, the children wait queues, and
 ptrace's claim on an exit report.

 A waiting thread first evaluates its condition once, then loops: enqueue its waker,
 evaluate the condition, sleep until woken.  Evaluating the condition is not atomic: the
 children lock is held while the children are examined one by one, but a child becomes a
 zombie without taking that lock.
 */
module WaitProtocol {
  import opened Prelude
  import opened ProcessTree

  datatype Filter = AnyChild | OnlyChild(pid: Pid)

  predicate Matches(f: Filter, p: Pid) {
    f.AnyChild? || f.pid == p
  }

  /**
   `fast` tells the first evaluation, before the waker is enqueued, from the later ones;
   `matched` is whether a target matching the filter has been met in this evaluation.
   */
  datatype WaitPc =
    | Tracees(fast: bool)
    | Children(fast: bool, matched: bool)
    | Scanning(fast: bool, matched: bool, seen: set<Pid>)
    | Enqueue
    | Asleep
    | Detached(subject: Pid)
    | OurChild(subject: Pid)
    | WakingOwner(subject: Pid, target: Pid)

  /** `isTracer` marks the thread that holds the tracees; `consume` is the absence of WNOWAIT. */
  datatype Waiter = Waiter(
    owner: Pid, filter: Filter, isTracer: bool, consume: bool, pc: WaitPc, queued: bool, woken: bool)

  /**
   What a consuming wait reports, recorded when the tracee is detached or the child reaped;
   `wasParent` is whether the tracer was also the parent.
   */
  datatype Report =
    | TraceeExit(audience: Pid, subject: Pid, wasParent: bool)
    | ZombieChild(audience: Pid, subject: Pid)

  /**
   `tracer` maps a traced process to its tracer.  `abandoned` and `silent` are auxiliary:
   zombies whose tracer left without reporting them, and children a tracing parent reaped.
   */
  datatype Sys = Sys(
    tree: State,
    waiters: map<nat, Waiter>,
    tracer: map<Pid, Pid>,
    reports: seq<Report>,
    abandoned: set<Pid>,
    silent: set<Pid>,
    broken: bool)

  predicate IsZombie(s: Sys, p: Pid) {
    p in s.tree.procs && s.tree.procs[p].zombie
  }

  predicate IsReaped(s: Sys, p: Pid) {
    p in s.tree.procs && s.tree.procs[p].reaped
  }

  /** Some thread holds the children lock of `q` across its scan. */
  predicate Locked(s: Sys, q: Pid) {
    exists w :: w in s.waiters && s.waiters[w].owner == q && s.waiters[w].pc.Scanning?
  }

  predicate HasWaiter(s: Sys, q: Pid) {
    exists w :: w in s.waiters && s.waiters[w].owner == q
  }

  /** `WaitQueue::wake_all` on the queue of `q`. */
  function WakeAll(ws: map<nat, Waiter>, q: Pid): map<nat, Waiter> {
    map w | w in ws ::
      if ws[w].owner == q && ws[w].queued then ws[w].(queued := false, woken := true) else ws[w]
  }

  function SetWaitPc(s: Sys, w: nat, wt: Waiter, pc: WaitPc): Sys {
    s.(waiters := s.waiters[w := wt.(pc := pc)])
  }

  function Leave(s: Sys, w: nat): Sys {
    s.(waiters := s.waiters - {w})
  }

  function Log(s: Sys, consume: bool, report: Report): Sys {
    if consume then s.(reports := s.reports + [report]) else s
  }

  // ---- The life-cycle steps seen from the wait queues ----

  /** The queue an exit step wakes, if any. */
  function Rung(s: Sys, step: Step): Option<Pid> {
    if !step.ExitAdvance? then None else
    match At(s.tree, step.p).pc
    case WakingTracer => if step.p in s.tracer then Some(s.tracer[step.p]) else None
    case WakingReaper(r) => Some(r)
    case WakingParent(q) => Some(q)
    case _ => None
  }

  function Untraced(tracer: map<Pid, Pid>, t: Pid): map<Pid, Pid> {
    map z | z in tracer && tracer[z] != t :: tracer[z]
  }

  function ZombieTracees(s: Sys, t: Pid): set<Pid> {
    set z | z in s.tracer && s.tracer[z] == t && IsZombie(s, z)
  }

  /** `clear_tracees`: the tracer thread of `t` exits and lets go of its tracees. */
  function DoClearTracees(s: Sys, t: Pid): Sys {
    s.(tracer := Untraced(s.tracer, t), abandoned := s.abandoned + ZombieTracees(s, t))
  }

  /** Children handed over to a new owner are no longer abandoned: the new owner is woken. */
  function Adopted(s: Sys, step: Step): set<Pid> {
    if step.ExitAdvance? && At(s.tree, step.p).pc.Moving? && At(s.tree, step.p).children.Some?
    then At(s.tree, step.p).children.value
    else {}
  }

  function DoTree(s: Sys, step: Step): Sys {
    var s1 := if step.ExitAdvance? && At(s.tree, step.p).pc.ClearingTracees? then DoClearTracees(s, step.p) else s;
    var rung := Rung(s, step);
    s1.(tree := Apply(s.tree, step),
        waiters := if rung.Some? then WakeAll(s1.waiters, rung.value) else s1.waiters,
        abandoned := s1.abandoned - Adopted(s, step))
  }

  predicate TreeStepFree(s: Sys, step: Step) {
    match step
    case CloneLink(t) => !Locked(s, CloneTarget(s.tree, t))
    case ExitStart(p) => !HasWaiter(s, p)
    case ExitAdvance(p, _) =>
      At(s.tree, p).pc.Moving? ==> !Locked(s, p) && !Locked(s, At(s.tree, p).pc.reaper)
    case Reap(_, _) => false
    case _ => true
  }

  function CloneTarget(t: State, c: nat): Pid {
    if c in t.cloners && t.cloners[c].pc.Locking? then t.cloners[c].pc.target else 0
  }

  // ---- Waiting threads ----

  predicate ReadyTracee(s: Sys, wt: Waiter, z: Pid) {
    wt.isTracer && z in s.tracer && s.tracer[z] == wt.owner && Matches(wt.filter, z) && IsZombie(s, z)
  }

  predicate MatchedTracee(s: Sys, wt: Waiter, z: Pid) {
    wt.isTracer && z in s.tracer && s.tracer[z] == wt.owner && Matches(wt.filter, z)
  }

  /** `try_wait_tracees` finds the exited tracee `z`; a consuming wait detaches it. */
  function DoTraceeFound(s: Sys, w: nat, wt: Waiter, z: Pid): Sys {
    if !wt.consume then Leave(s, w) else
    var s1 := SetWaitPc(s, w, wt, Detached(z)).(tracer := s.tracer - {z});
    Log(s1, true, TraceeExit(wt.owner, z, At(s.tree, z).parent == wt.owner))
  }

  function DoTraceesNone(s: Sys, w: nat, wt: Waiter, fast: bool): Sys {
    SetWaitPc(s, w, wt, Children(fast, exists z :: z in s.tracer && MatchedTracee(s, wt, z)))
  }

  predicate ReadyChild(s: Sys, wt: Waiter, c: Pid) {
    Matches(wt.filter, c) && c !in s.tracer && IsZombie(s, c)
  }

  /** One turn of the loop in `try_wait_children`. */
  function DoScanChild(s: Sys, w: nat, wt: Waiter, c: Pid): Sys {
    if !wt.pc.Scanning? then s
    else if !ReadyChild(s, wt, c) then
      SetWaitPc(s, w, wt, wt.pc.(seen := wt.pc.seen + {c}, matched := wt.pc.matched || Matches(wt.filter, c)))
    else if !wt.consume then
      Leave(s, w)
    else
      Log(Leave(s, w).(tree := DoReap(s.tree, wt.owner, c)), true, ZombieChild(wt.owner, c))
  }

  /** The end of one evaluation: ECHILD, go and enqueue, or sleep. */
  function DoScanDone(s: Sys, w: nat, wt: Waiter): Sys {
    if !wt.pc.Scanning? || !wt.pc.matched then Leave(s, w)
    else SetWaitPc(s, w, wt, if wt.pc.fast then Enqueue else Asleep)
  }

  /** `cleanup_exited_tracee` after the tracees lock is released. */
  function DoDetached(s: Sys, w: nat, wt: Waiter, z: Pid, held: bool): Sys {
    var q := At(s.tree, z).parent;
    if q == wt.owner then SetWaitPc(s, w, wt, OurChild(z))
    else if Upgrade(s.tree, q, held) then SetWaitPc(s, w, wt, WakingOwner(z, q))
    else Leave(s, w)
  }

  /** ... and, for our own child, the unwrapped removal from our children map. */
  function DoOurChild(s: Sys, w: nat, wt: Waiter, z: Pid): Sys {
    if Holds(s.tree, wt.owner, z) && IsZombie(s, z) then
      Leave(s, w).(tree := DoReap(s.tree, wt.owner, z), silent := s.silent + {z})
    else
      s.(broken := true)
  }

  // ---- The machine ----

  datatype WStep =
    | TreeStep(step: Step)
    | Attach(z: Pid, t: Pid)
    | ClearTracees(t: Pid)
    | WaitStart(w: nat, owner: Pid, filter: Filter, isTracer: bool, consume: bool)
    | TraceeFound(w: nat, z: Pid)
    | TraceesNone(w: nat)
    | LockChildren(w: nat)
    | ScanChild(w: nat, c: Pid)
    | ScanDone(w: nat)
    | EnqueueSelf(w: nat)
    | WakeUp(w: nat)
    | GiveUp(w: nat)
    | DetachedNext(w: nat, held: bool)
    | ReapOurChild(w: nat)
    | WakeOwner(w: nat)

  predicate WEnabled(s: Sys, step: WStep) {
    && !s.broken && !s.tree.panicked
    && match step
       case TreeStep(ts) => Enabled(s.tree, ts) && TreeStepFree(s, ts)
       case Attach(z, t) => IsRunning(s.tree, z) && IsRunning(s.tree, t) && z != t && z !in s.tracer
       case ClearTracees(t) => IsRunning(s.tree, t)
       case WaitStart(w, owner, _, _, _) => w !in s.waiters && IsRunning(s.tree, owner)
       case TraceeFound(w, z) =>
         w in s.waiters && s.waiters[w].pc.Tracees? && ReadyTracee(s, s.waiters[w], z)
       case TraceesNone(w) =>
         w in s.waiters && s.waiters[w].pc.Tracees?
         && forall z :: z in s.tracer ==> !ReadyTracee(s, s.waiters[w], z)
       case LockChildren(w) =>
         w in s.waiters && s.waiters[w].pc.Children? && !Locked(s, s.waiters[w].owner)
       case ScanChild(w, c) =>
         w in s.waiters && s.waiters[w].pc.Scanning?
         && Holds(s.tree, s.waiters[w].owner, c) && c !in s.waiters[w].pc.seen
       case ScanDone(w) =>
         w in s.waiters && s.waiters[w].pc.Scanning?
         && At(s.tree, s.waiters[w].owner).children.Some?
         && At(s.tree, s.waiters[w].owner).children.value <= s.waiters[w].pc.seen
       case EnqueueSelf(w) => w in s.waiters && s.waiters[w].pc.Enqueue?
       case WakeUp(w) => w in s.waiters && s.waiters[w].pc.Asleep? && s.waiters[w].woken
       case GiveUp(w) => w in s.waiters && s.waiters[w].pc.Asleep?
       case DetachedNext(w, held) => w in s.waiters && s.waiters[w].pc.Detached?
       case ReapOurChild(w) =>
         w in s.waiters && s.waiters[w].pc.OurChild? && !Locked(s, s.waiters[w].owner)
       case WakeOwner(w) => w in s.waiters && s.waiters[w].pc.WakingOwner?
  }

  function WaiterAt(s: Sys, w: nat): Waiter {
    if w in s.waiters then s.waiters[w] else Waiter(0, AnyChild, false, false, Enqueue, false, false)
  }

  function WApply(s: Sys, step: WStep): Sys {
    match step
    case TreeStep(ts) => DoTree(s, ts)
    case Attach(z, t) => s.(tracer := s.tracer[z := t])
    case ClearTracees(t) => DoClearTracees(s, t)
    case WaitStart(w, owner, filter, isTracer, consume) =>
      s.(waiters := s.waiters[w := Waiter(owner, filter, isTracer, consume, Tracees(true), false, false)])
    case TraceeFound(w, z) => DoTraceeFound(s, w, WaiterAt(s, w), z)
    case TraceesNone(w) =>
      var wt := WaiterAt(s, w);
      if wt.pc.Tracees? then DoTraceesNone(s, w, wt, wt.pc.fast) else s
    case LockChildren(w) =>
      var wt := WaiterAt(s, w);
      if wt.pc.Children? then SetWaitPc(s, w, wt, Scanning(wt.pc.fast, wt.pc.matched, {})) else s
    case ScanChild(w, c) => DoScanChild(s, w, WaiterAt(s, w), c)
    case ScanDone(w) => DoScanDone(s, w, WaiterAt(s, w))
    case EnqueueSelf(w) => s.(waiters := s.waiters[w := WaiterAt(s, w).(queued := true, pc := Tracees(false))])
    case WakeUp(w) => s.(waiters := s.waiters[w := WaiterAt(s, w).(woken := false, pc := Enqueue)])
    case GiveUp(w) => Leave(s, w)
    case DetachedNext(w, held) =>
      var wt := WaiterAt(s, w);
      if wt.pc.Detached? then DoDetached(s, w, wt, wt.pc.subject, held) else s
    case ReapOurChild(w) =>
      var wt := WaiterAt(s, w);
      if wt.pc.OurChild? then DoOurChild(s, w, wt, wt.pc.subject) else s
    case WakeOwner(w) =>
      var wt := WaiterAt(s, w);
      if wt.pc.WakingOwner? then Leave(s, w).(waiters := WakeAll(s.waiters - {w}, wt.pc.target)) else s
  }

  const START := Sys(BOOT, map[], map[], [], {}, {}, false)

  ghost predicate WNext(s: Sys, step: WStep, s': Sys) {
    WEnabled(s, step) && s' == WApply(s, step)
  }

  ghost predicate IsWRun(states: seq<Sys>, steps: seq<WStep>) {
    && |states| == |steps| + 1
    && states[0] == START
    && forall i :: 0 <= i < |steps| ==> WNext(states[i], steps[i], states[i + 1])
  }

  ghost predicate WReachable(s: Sys) {
    exists states, steps :: IsWRun(states, steps) && states[|steps|] == s
  }
}
