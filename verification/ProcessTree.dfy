/**
 The process life cycle as a state machine.

 One step is one lock-protected section (or one atomic access) of `clone`, `exit` or
 `wait`.  Every process that is on its way out carries a program counter, so that a state
 records what each exiting process has already done and what it still has to do.

 Processes are named by their PID.  PIDs come from a counter that is never reset, and a PID
 is drawn before the child is linked into the tree, so comparing PIDs compares ages.
 */
module ProcessTree {
  import opened Prelude

  type Pid = nat

  /** The PID of the init process; 0 stands for "no parent". */
  const INIT: Pid := 1

  /** Accumulated CPU time, split as the profiling clock splits it. */
  datatype Cpu = Cpu(user: nat, kernel: nat) {
    function Plus(other: Cpu): Cpu {
      Cpu(user + other.user, kernel + other.kernel)
    }
  }

  const ZERO_CPU := Cpu(0, 0)

  /** Where the lock-free reaper walk stands on one node. */
  datatype WalkPhase = Arrive | ProbeSubreaper | ProbeZombie | Climb

  /**
   Where a process stands in its exit.  `limit` is auxiliary: it bounds the number of
   parent-link changes the walk can still suffer (see `LinkSum`).
   */
  datatype ExitPc =
    | Running
    | ClearingTracees
    | WakingTracer
    | ReadingLink(limit: nat)
    | Walking(pos: Pid, phase: WalkPhase, limit: nat)
    | Moving(reaper: Pid, fallback: bool, limit: nat)
    | WakingReaper(reaper: Pid)
    | HandedOver
    | ReadingParent
    | WakingParent(target: Pid)
    | Exited

  datatype Proc = Proc(
    parent: Pid,
    children: Option<set<Pid>>,
    zombie: bool,
    reaped: bool,
    isSubreaper: bool,
    hasSubreaper: bool,
    cpu: Cpu,
    reapedCpu: Cpu,
    pc: ExitPc)

  /** What a dangling PID looks up to. */
  const NOBODY := Proc(0, None, true, true, false, false, ZERO_CPU, ZERO_CPU, Exited)

  datatype ClonePc = Picking | Locking(target: Pid)

  /** A thread inside `set_parent_and_group`; `retries` counts turns of its loop. */
  datatype Cloner = Cloner(caller: Pid, child: Pid, viaParent: bool, pc: ClonePc, retries: nat)

  datatype State = State(
    procs: map<Pid, Proc>,
    cloners: map<nat, Cloner>,
    nextPid: Pid,
    table: set<Pid>,
    processCount: nat,
    ticks: Cpu,
    panicked: bool)

  function At(s: State, p: Pid): Proc {
    if p in s.procs then s.procs[p] else NOBODY
  }

  predicate Holds(s: State, owner: Pid, child: Pid) {
    owner in s.procs && s.procs[owner].children.Some? && child in s.procs[owner].children.value
  }

  /** Some children map, or the static `INIT_PROCESS`, keeps a strong reference to `q`. */
  predicate Owned(s: State, q: Pid) {
    q == INIT || exists owner :: owner in s.procs && Holds(s, owner, q)
  }

  /**
   `Weak::upgrade`: certain to succeed on an owned process; on any other process it
   succeeds only while some thread happens to hold a temporary reference (`held`).
   */
  predicate Upgrade(s: State, q: Pid, held: bool) {
    Owned(s, q) || (held && q in s.procs)
  }

  function Put(s: State, p: Pid, proc: Proc): State {
    s.(procs := s.procs[p := proc])
  }

  function SetPc(s: State, p: Pid, pc: ExitPc): State {
    Put(s, p, At(s, p).(pc := pc))
  }

  function Panic(s: State): State {
    s.(panicked := true)
  }

  // ---- Auxiliary measure on parent links ----

  /** An unlinked PID counts as its own parent, so that linking it lowers the term. */
  function LinkTerm(s: State, i: Pid): nat {
    if i in s.procs then s.procs[i].parent else i
  }

  /** The sum of the parent links of the processes no younger than `n`. */
  function LinkSum(s: State, n: nat): nat {
    if n == 0 then 0 else LinkSum(s, n - 1) + LinkTerm(s, n)
  }

  // ---- clone ----

  function NewChild(parent: Pid, hasSubreaper: bool): Proc {
    Proc(parent, Some({}), false, false, false, hasSubreaper, ZERO_CPU, ZERO_CPU, Running)
  }

  function DoCloneStart(s: State, cloner: nat, caller: Pid, child: Pid, viaParent: bool): State {
    s.(cloners := s.cloners[cloner := Cloner(caller, child, viaParent, Picking, 0)],
       nextPid := child + 1)
  }

  function CloneAt(s: State, t: nat): Cloner {
    if t in s.cloners then s.cloners[t] else Cloner(0, 0, false, Picking, 0)
  }

  /** `clone_parent`: the caller itself, or the caller's parent with an unwrapped upgrade. */
  function DoClonePick(s: State, t: nat, held: bool): State {
    var c := CloneAt(s, t);
    if !c.viaParent then
      s.(cloners := s.cloners[t := c.(pc := Locking(c.caller))])
    else
      var target := At(s, c.caller).parent;
      if Upgrade(s, target, held) then s.(cloners := s.cloners[t := c.(pc := Locking(target))])
      else Panic(s)
  }

  /** The body of `set_parent_and_group` after the real parent's children lock is taken. */
  function DoCloneLink(s: State, t: nat): State {
    var c := CloneAt(s, t);
    if !c.pc.Locking? then s else
    var target := c.pc.target;
    if At(s, target).children.None? then
      s.(cloners := s.cloners[t := c.(pc := Picking, retries := c.retries + 1)])
    else if c.child in s.table then
      Panic(s)
    else
      var owner := At(s, target).(children := Some(At(s, target).children.value + {c.child}));
      s.(procs := s.procs[target := owner][c.child := NewChild(target, At(s, target).hasSubreaper)],
         cloners := s.cloners - {t},
         table := s.table + {c.child},
         processCount := s.processCount + 1)
  }

  // ---- exit ----

  /** One access of `find_reaper_process` to the node `pos`: where the search stands after it. */
  function WalkPc(s: State, pos: Pid, phase: WalkPhase, limit: nat, held: bool): ExitPc {
    match phase
    case Arrive =>
      if At(s, pos).parent == 0 then Moving(pos, false, limit)
      else if At(s, pos).hasSubreaper then Walking(pos, ProbeSubreaper, limit)
      else Moving(INIT, true, limit)
    case ProbeSubreaper =>
      Walking(pos, if At(s, pos).isSubreaper then ProbeZombie else Climb, limit)
    case ProbeZombie =>
      if At(s, pos).zombie then Walking(pos, Climb, limit) else Moving(pos, false, limit)
    case Climb =>
      if Upgrade(s, At(s, pos).parent, held) then Walking(At(s, pos).parent, Arrive, limit)
      else ReadingLink(limit)
  }

  /** The process map after `p` has handed the children `cs` over to `r`. */
  function Moved(procs: map<Pid, Proc>, p: Pid, r: Pid, cs: set<Pid>, pc: ExitPc): map<Pid, Proc>
  {
    map q | q in procs ::
      if q == p then procs[q].(children := None, pc := pc)
      else if q == r && procs[q].children.Some? then
        procs[q].(children := Some(procs[q].children.value + cs))
      else if q in cs then procs[q].(parent := r)
      else procs[q]
  }

  /**
   `move_process_children` and the caller's reaction to its result.  On the fallback path
   both the lookup of the init process and the hand-over are unwrapped.
   */
  function DoMove(s: State, p: Pid, r: Pid, fallback: bool, limit: nat): State {
    if fallback && r !in s.table then
      Panic(s)
    else if At(s, r).children.None? then
      if fallback then Panic(s) else SetPc(s, p, ReadingLink(limit))
    else if At(s, p).children.None? then
      Panic(s)
    else
      s.(procs := Moved(s.procs, p, r, At(s, p).children.value, WakingReaper(r)))
  }

  /** The next program counter of the exiting process `p`, where its step changes nothing else. */
  function NextPc(s: State, p: Pid, held: bool): ExitPc {
    match At(s, p).pc
    case ClearingTracees => WakingTracer
    case WakingTracer =>
      if At(s, p).parent == 0 then HandedOver else ReadingLink(LinkSum(s, p) + 1)
    case ReadingLink(limit) => Walking(At(s, p).parent, Arrive, LinkSum(s, p))
    case Walking(pos, phase, limit) => WalkPc(s, pos, phase, limit, held)
    case WakingReaper(r) => HandedOver
    case ReadingParent =>
      if Upgrade(s, At(s, p).parent, held) then WakingParent(At(s, p).parent) else Exited
    case WakingParent(target) => Exited
    case pc => pc
  }

  /** The next step of the exiting process `p`. */
  function DoExit(s: State, p: Pid, held: bool): State {
    var pc := At(s, p).pc;
    if pc.Moving? then DoMove(s, p, pc.reaper, pc.fallback, pc.limit)
    else if pc.HandedOver? then Put(s, p, At(s, p).(zombie := true, pc := ReadingParent))
    else if pc.ReadingLink? && !Upgrade(s, At(s, p).parent, held) then Panic(s)
    else SetPc(s, p, NextPc(s, p, held))
  }

  // ---- wait ----

  /** `reap_zombie_child`, with its assertion and its unwrapped removal. */
  function DoReap(s: State, owner: Pid, child: Pid): State {
    if !Holds(s, owner, child) || !At(s, child).zombie || child !in s.table then Panic(s) else
    var o := At(s, owner);
    var c := At(s, child);
    var o' := o.(children := Some(o.children.value - {child}),
                 reapedCpu := o.reapedCpu.Plus(c.cpu.Plus(c.reapedCpu)));
    s.(procs := s.procs[owner := o'][child := c.(reaped := true)],
       table := s.table - {child},
       processCount := if s.processCount == 0 then 0 else s.processCount - 1)
  }

  // ---- subreaper attribute and clock ----

  /** `a` is `p` or one of its ancestors. */
  predicate Above(s: State, a: Pid, p: Pid)
    decreases p
  {
    a == p || (p in s.procs && s.procs[p].parent < p && Above(s, a, s.procs[p].parent))
  }

  function OneTick(inKernel: bool): Cpu {
    if inKernel then Cpu(0, 1) else Cpu(1, 0)
  }

  /** A clock tick charged to `p`; `ticks` counts those charged before `p` is reaped. */
  function DoTick(s: State, p: Pid, inKernel: bool): State {
    var s' := Put(s, p, At(s, p).(cpu := At(s, p).cpu.Plus(OneTick(inKernel))));
    if At(s, p).reaped then s' else s'.(ticks := s.ticks.Plus(OneTick(inKernel)))
  }

  // ---- The machine ----

  /** `Mark` sets the subreaper mark of one process; `Marking` says who is marked when. */
  datatype Step =
    | CloneStart(cloner: nat, caller: Pid, child: Pid, viaParent: bool)
    | ClonePick(cloner: nat, held: bool)
    | CloneLink(cloner: nat)
    | CloneAbort(cloner: nat)
    | ExitStart(p: Pid)
    | ExitAdvance(p: Pid, held: bool)
    | Reap(owner: Pid, child: Pid)
    | SetSubreaper(p: Pid, on: bool)
    | Mark(p: Pid)
    | Tick(p: Pid, inKernel: bool)

  predicate IsRunning(s: State, p: Pid) {
    p in s.procs && s.procs[p].pc.Running?
  }

  /** No thread of `p` is inside `clone`. */
  predicate NotCloning(s: State, p: Pid) {
    forall t :: t in s.cloners ==> s.cloners[t].caller != p
  }

  predicate Enabled(s: State, step: Step) {
    && !s.panicked
    && match step
       case CloneStart(t, caller, child, viaParent) =>
         t !in s.cloners && IsRunning(s, caller) && s.nextPid <= child
         && (viaParent ==> s.procs[caller].parent != 0)
       case ClonePick(t, held) => t in s.cloners && s.cloners[t].pc.Picking?
       case CloneLink(t) => t in s.cloners && s.cloners[t].pc.Locking?
       case CloneAbort(t) => t in s.cloners && s.cloners[t].pc.Picking? && s.cloners[t].retries == 0
       case ExitStart(p) => IsRunning(s, p) && NotCloning(s, p)
       case ExitAdvance(p, held) =>
         p in s.procs && !s.procs[p].pc.Running? && !s.procs[p].pc.Exited?
       case Reap(owner, child) =>
         IsRunning(s, owner) && Holds(s, owner, child) && At(s, child).zombie
       case SetSubreaper(p, _) => IsRunning(s, p)
       case Mark(p) => p in s.procs
       case Tick(p, inKernel) => p in s.procs
  }

  function Apply(s: State, step: Step): State {
    match step
    case CloneStart(t, caller, child, viaParent) => DoCloneStart(s, t, caller, child, viaParent)
    case ClonePick(t, held) => DoClonePick(s, t, held)
    case CloneLink(t) => DoCloneLink(s, t)
    case CloneAbort(t) => s.(cloners := s.cloners - {t})
    case ExitStart(p) => SetPc(s, p, ClearingTracees)
    case ExitAdvance(p, held) => DoExit(s, p, held)
    case Reap(owner, child) => DoReap(s, owner, child)
    case SetSubreaper(p, on) => Put(s, p, At(s, p).(isSubreaper := on))
    case Mark(p) => Put(s, p, At(s, p).(hasSubreaper := true))
    case Tick(p, inKernel) => DoTick(s, p, inKernel)
  }

  const BOOT := State(map[INIT := NewChild(0, false)], map[], INIT + 1, {INIT}, 1, ZERO_CPU, false)

  /** A finite run from boot: `states[i + 1]` is `states[i]` after `steps[i]`. */
  ghost predicate IsRun(states: seq<State>, steps: seq<Step>) {
    && |states| == |steps| + 1
    && states[0] == BOOT
    && forall i :: 0 <= i < |steps| ==>
         Enabled(states[i], steps[i]) && states[i + 1] == Apply(states[i], steps[i])
  }

  ghost predicate Reachable(s: State) {
    exists states, steps :: IsRun(states, steps) && states[|steps|] == s
  }
}
