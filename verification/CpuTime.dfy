/** CPU time is conserved: reaping moves a dead child's time to its reaper and loses none. */
module CpuTime {
  import opened ProcessTree
  import opened TreeInvariant

  /** The user or the kernel part of a time. */
  function Part(c: Cpu, inKernel: bool): nat {
    if inKernel then c.kernel else c.user
  }

  /** The time an unreaped process stands for: its own and that of the children it reaped. */
  function Charge(s: State, p: Pid, k: bool): nat {
    if p in s.procs && !s.procs[p].reaped then Part(s.procs[p].cpu, k) + Part(s.procs[p].reapedCpu, k)
    else 0
  }

  function Sum(xs: seq<nat>): nat {
    if xs == [] then 0 else Sum(xs[..|xs| - 1]) + xs[|xs| - 1]
  }

  function Charges(s: State, n: nat, k: bool): seq<nat> {
    seq(n, p requires 0 <= p => Charge(s, p, k))
  }

  /** The charges of the processes below `n`, added up. */
  function Total(s: State, n: nat, k: bool): nat {
    Sum(Charges(s, n, k))
  }

  /** Changing one summand by `d` changes the sum by `d`. */
  lemma {:induction false} SumUpdate(xs: seq<nat>, a: nat, d: nat)
    requires a < |xs|
    ensures Sum(xs[a := xs[a] + d]) == Sum(xs) + d
  {
    var ys := xs[a := xs[a] + d];
    var init := xs[..|xs| - 1];
    if a == |xs| - 1 {
      assert ys[..|xs| - 1] == init;
    } else {
      SumUpdate(init, a, d);
      assert ys[..|xs| - 1] == init[a := init[a] + d];
    }
  }

  lemma {:induction false} SumOfZeros(xs: seq<nat>)
    requires forall i :: 0 <= i < |xs| ==> xs[i] == 0
    ensures Sum(xs) == 0
  {
    if xs != [] { SumOfZeros(xs[..|xs| - 1]); }
  }

  ghost predicate SameCharges(s: State, s': State) {
    forall p, k {:trigger Charge(s', p, k)} :: Charge(s', p, k) == Charge(s, p, k)
  }

  lemma TotalSame(s: State, s': State, n: nat, k: bool)
    requires SameCharges(s, s')
    ensures Total(s', n, k) == Total(s, n, k)
  {
    assert Charges(s', n, k) == Charges(s, n, k);
  }

  lemma TotalPoint(s: State, s': State, n: nat, k: bool, a: Pid, d: nat)
    requires forall p {:trigger Charge(s', p, k)} :: p != a ==> Charge(s', p, k) == Charge(s, p, k)
    requires Charge(s', a, k) == Charge(s, a, k) + d && a < n
    ensures Total(s', n, k) == Total(s, n, k) + d
  {
    var xs := Charges(s, n, k);
    assert Charges(s', n, k) == xs[a := xs[a] + d];
    SumUpdate(xs, a, d);
  }

  /** PIDs not handed out yet stand for no time. */
  lemma {:induction false} TotalBeyond(s: State, n: nat, m: nat, k: bool)
    requires n <= m && forall p :: p in s.procs ==> p < n
    ensures Total(s, m, k) == Total(s, n, k)
  {
    if n < m {
      TotalBeyond(s, n, m - 1, k);
      assert Charges(s, m, k)[..m - 1] == Charges(s, m - 1, k);
      assert Charges(s, m, k)[m - 1] == 0;
    }
  }

  /** Reaping moves all the child stands for to its owner and touches nobody else. */
  lemma ReapMoves(s: State, owner: Pid, child: Pid, k: bool)
    requires Inv(s) && Holds(s, owner, child) && At(s, child).zombie
    ensures var s' := DoReap(s, owner, child);
            && Charge(s', owner, k) == Charge(s, owner, k) + Charge(s, child, k) && Charge(s', child, k) == 0
            && forall p {:trigger Charge(s', p, k)} :: p != owner && p != child ==> Charge(s', p, k) == Charge(s, p, k)
  {
    ReapHolds(s, owner, child);
    ParentIsOwned(s, child);
  }

  /** Moving a charge from one process to another leaves the total alone. */
  lemma TotalMoved(s: State, s': State, n: nat, k: bool, a: Pid, b: Pid)
    requires a < n && b < n && a != b
    requires Charge(s', a, k) == Charge(s, a, k) + Charge(s, b, k) && Charge(s', b, k) == 0
    requires forall p {:trigger Charge(s', p, k)} :: p != a && p != b ==> Charge(s', p, k) == Charge(s, p, k)
    ensures Total(s', n, k) == Total(s, n, k)
  {
    var xs, ys := Charges(s, n, k), Charges(s', n, k);
    var mid := xs[b := 0];
    assert xs == mid[b := mid[b] + Charge(s, b, k)];
    SumUpdate(mid, b, Charge(s, b, k));
    assert ys == mid[a := mid[a] + Charge(s, b, k)];
    SumUpdate(mid, a, Charge(s, b, k));
  }

  /** Reaping: what leaves with the child arrives at its owner, and the total stays. */
  lemma ReapConserves(s: State, owner: Pid, child: Pid, n: nat, k: bool)
    requires Inv(s) && Holds(s, owner, child) && At(s, child).zombie && owner < n && child < n
    ensures var s' := DoReap(s, owner, child);
            && Charge(s', owner, k) == Charge(s, owner, k) + Charge(s, child, k) && Charge(s', child, k) == 0
            && (forall p {:trigger Charge(s', p, k)} :: p != owner && p != child ==>
                  Charge(s', p, k) == Charge(s, p, k))
            && Total(s', n, k) == Total(s, n, k)
  {
    ReapMoves(s, owner, child, k);
    ParentIsOwned(s, child);
    TotalMoved(s, DoReap(s, owner, child), n, k, owner, child);
  }

  lemma TickCounts(s: State, p: Pid, inKernel: bool, n: nat, k: bool)
    requires p in s.procs && p < n
    ensures Total(DoTick(s, p, inKernel), n, k)
            == Total(s, n, k) + (if s.procs[p].reaped then 0 else Part(OneTick(inKernel), k))
  {
    var s' := DoTick(s, p, inKernel);
    if s.procs[p].reaped { TotalSame(s, s', n, k); } else { TotalPoint(s, s', n, k, p, Part(OneTick(inKernel), k)); }
  }

  lemma CloneLinkCharges(s: State, t: nat)
    requires ClonerOk(s, t) && t in s.cloners && s.cloners[t].pc.Locking?
    ensures SameCharges(s, DoCloneLink(s, t))
  {
    var c := s.cloners[t];
    assert c.pc.target != c.child;
    if At(s, c.pc.target).children.None? || c.child in s.table {
      assert DoCloneLink(s, t).procs == s.procs;
    }
  }

  lemma MoveCharges(s: State, p: Pid, r: Pid, fallback: bool, limit: nat)
    requires p in s.procs
    ensures SameCharges(s, DoMove(s, p, r, fallback, limit))
  {
  }

  lemma ExitCharges(s: State, p: Pid, held: bool)
    requires p in s.procs
    ensures SameCharges(s, DoExit(s, p, held))
  {
    var pc := s.procs[p].pc;
    if pc.Moving? {
      MoveCharges(s, p, pc.reaper, pc.fallback, pc.limit);
    } else {
      var pc' := NextPc(s, p, held);
      assert SameCharges(s, SetPc(s, p, pc'));
    }
  }

  lemma OtherCharges(s: State, step: Step)
    requires Inv(s) && Enabled(s, step) && !step.Reap? && !step.Tick?
    ensures SameCharges(s, Apply(s, step))
  {
    match step
    case CloneLink(t) =>
      assert ClonerOk(s, t);
      CloneLinkCharges(s, t);
    case ExitAdvance(p, held) => ExitCharges(s, p, held);
    case Reap(_, _) => assert false;
    case Tick(_, _) => assert false;
    case _ =>
  }

  /** The books balance: what the unreaped processes stand for is what the clock has charged. */
  ghost predicate Balanced(s: State) {
    forall k :: Total(s, s.nextPid, k) == Part(s.ticks, k)
  }

  lemma KnownPids(s: State)
    requires TreeOk(s)
    ensures forall p :: p in s.procs ==> p < s.nextPid
  {
    forall p | p in s.procs ensures p < s.nextPid { assert ProcOk(s, p); }
  }

  /** Only a clock tick changes the total; clone, exit, reparenting and reaping leave it alone. */
  lemma OtherConserves(s: State, step: Step, k: bool)
    requires Inv(s) && Enabled(s, step) && !step.Reap? && !step.Tick? && !step.CloneStart?
    ensures var s' := Apply(s, step);
            s'.nextPid == s.nextPid && Total(s', s'.nextPid, k) == Total(s, s.nextPid, k) && s'.ticks == s.ticks
  {
    OtherCharges(s, step);
    TotalSame(s, Apply(s, step), s.nextPid, k);
  }

  lemma StepConserves(s: State, step: Step, k: bool)
    requires Inv(s) && Enabled(s, step)
    ensures var s' := Apply(s, step);
            var d := if step.Tick? && !s.procs[step.p].reaped then Part(OneTick(step.inKernel), k) else 0;
            && s.nextPid <= s'.nextPid
            && Total(s', s'.nextPid, k) == Total(s, s.nextPid, k) + d
            && Part(s'.ticks, k) == Part(s.ticks, k) + d
  {
    var s' := Apply(s, step);
    KnownPids(s);
    match step
    case Reap(owner, child) =>
      ReapHolds(s, owner, child);
      ReapConserves(s, owner, child, s.nextPid, k);
    case Tick(p, inKernel) => TickCounts(s, p, inKernel, s.nextPid, k);
    case CloneStart(t, caller, child, viaParent) =>
      TotalSame(s, s', s'.nextPid, k);
      TotalBeyond(s, s.nextPid, s'.nextPid, k);
    case _ => OtherConserves(s, step, k);
  }

  lemma BootBalanced()
    ensures Balanced(BOOT)
  {
    forall k ensures Total(BOOT, BOOT.nextPid, k) == 0 {
      SumOfZeros(Charges(BOOT, BOOT.nextPid, k));
    }
  }

  lemma StepKeepsBalance(s: State, step: Step)
    requires Inv(s) && Balanced(s) && Enabled(s, step)
    ensures Balanced(Apply(s, step))
  {
    var s' := Apply(s, step);
    forall k ensures Total(s', s'.nextPid, k) == Part(s'.ticks, k) {
      StepConserves(s, step, k);
    }
  }

  lemma {:induction false} RunStaysBalanced(states: seq<State>, steps: seq<Step>, i: nat)
    requires IsRun(states, steps) && i < |states|
    ensures Balanced(states[i])
  {
    if i == 0 {
      BootBalanced();
    } else {
      RunStaysBalanced(states, steps, i - 1);
      RunKeepsInv(states, steps, i - 1);
      StepKeepsBalance(states[i - 1], steps[i - 1]);
    }
  }

  /** In every reachable state the unreaped processes account for every tick charged so far. */
  lemma CpuTimeConserved(s: State)
    requires Reachable(s)
    ensures Total(s, s.nextPid, false) == s.ticks.user
    ensures Total(s, s.nextPid, true) == s.ticks.kernel
  {
    var states, steps :| IsRun(states, steps) && states[|steps|] == s;
    RunStaysBalanced(states, steps, |steps|);
  }
}
