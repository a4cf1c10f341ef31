/**
 Where the promises of `wait` stop, exactly: when a departing tracer loses a wake-up, and
 when the unwrapped removal of a tracing parent fails.
 */
module WaitExact {
  import opened Prelude
  import opened ProcessTree
  import opened TreeInvariant
  import opened WaitProtocol
  import opened WaitInvariant
  import opened WaitWakeups
  import opened WaitReports
  import opened WaitSolo

  // ---- Departing tracers ----

  /** The thread has looked at the ready child `c`, and the wake for `c` is still to come. */
  ghost predicate Strict(s: Sys, w: nat, c: Pid) {
    w in s.waiters && !s.waiters[w].woken && Examined(s.waiters[w].pc, c)
    && Holds(s.tree, s.waiters[w].owner, c) && IsZombie(s, c) && c !in s.tracer
    && (s.waiters[w].filter == AnyChild || s.waiters[w].filter == OnlyChild(c))
    ==> Covered(s, s.waiters[w].owner, c)
  }

  ghost predicate StrictWake(s: Sys) {
    forall w, c {:trigger Strict(s, w, c)} :: Strict(s, w, c)
  }

  /** Thread `w` has passed over its zombie child `z` because `z` was traced. */
  predicate PassedOver(s: Sys, w: nat, z: Pid) {
    w in s.waiters && !s.waiters[w].woken && Examined(s.waiters[w].pc, z)
    && Holds(s.tree, s.waiters[w].owner, z)
    && (s.waiters[w].filter == AnyChild || s.waiters[w].filter == OnlyChild(z))
  }

  /** Every zombie tracee of `t` that an unwoken thread of its parent passed over has a wake to come. */
  ghost predicate LetsNobodyDown(s: Sys, t: Pid) {
    forall w, z :: z in ZombieTracees(s, t) && PassedOver(s, w, z) ==> Covered(s, s.waiters[w].owner, z)
  }

  /**
   A tracer that lets go of its tracees loses a wake-up if and only if one of them is a
   zombie that an unwoken thread of its parent has passed over, with no other wake to come.
   */
  lemma ClearKeepsWakeIff(s: Sys, t: Pid)
    requires StrictWake(s)
    ensures StrictWake(DoClearTracees(s, t)) <==> LetsNobodyDown(s, t)
  {
    var s' := DoClearTracees(s, t);
    forall w, z | z in ZombieTracees(s, t) && PassedOver(s, w, z) && Strict(s', w, z)
      ensures Covered(s, s.waiters[w].owner, z)
    {
      assert IsZombie(s', z) && z !in s'.tracer;
    }
    if LetsNobodyDown(s, t) {
      forall w, c ensures Strict(s', w, c) {
        assert Strict(s, w, c);
        if c in ZombieTracees(s, t) && PassedOver(s, w, c) { assert Covered(s', s.waiters[w].owner, c); }
      }
    }
  }

  /** The tracer whose tracees `step` clears, if any. */
  function Clears(s: Sys, step: WStep): Option<Pid> {
    if step.ClearTracees? then Some(step.t)
    else if step.TreeStep? && step.step.ExitAdvance? && At(s.tree, step.step.p).pc.ClearingTracees? then
      Some(step.step.p)
    else None
  }

  lemma AbandonsOnlyZombieTracees(s: Sys, step: WStep)
    requires WEnabled(s, step)
    ensures WApply(s, step).abandoned <=
            s.abandoned + if Clears(s, step).Some? then ZombieTracees(s, Clears(s, step).value) else {}
  {
  }

  // ---- Whole runs ----

  lemma AbandonedPlaysNoPartInTree(s: Sys, ts: Step)
    requires WEnabled(s, TreeStep(ts)) && Clears(s, TreeStep(ts)).None?
    ensures var s0 := s.(abandoned := {});
            WEnabled(s0, TreeStep(ts)) && DoTree(s0, ts) == DoTree(s, ts).(abandoned := DoTree(s0, ts).abandoned)
  {
  }

  /** What is abandoned plays no part in any step that clears no tracees. */
  lemma AbandonedPlaysNoPart(s: Sys, step: WStep)
    requires WEnabled(s, step) && Clears(s, step).None?
    ensures var s0 := s.(abandoned := {});
            WEnabled(s0, step) && WApply(s0, step) == WApply(s, step).(abandoned := WApply(s0, step).abandoned)
  {
    if step.TreeStep? { AbandonedPlaysNoPartInTree(s, step.step); }
  }

  /** Steps that clear no tracees lose no wake-up. */
  lemma OtherStepsKeepStrict(s: Sys, step: WStep)
    requires BaseOk(s) && WakeInv(s) && StrictWake(s) && WEnabled(s, step) && Clears(s, step).None?
    ensures StrictWake(WApply(s, step))
  {
    var s0 := s.(abandoned := {});
    AbandonedPlaysNoPart(s, step);
    AbandonsOnlyZombieTracees(s0, step);
    ForgetAbandoned(s);
    StepKeepsWake(s0, step);
    Remember(WApply(s, step), WApply(s0, step));
  }

  lemma ForgetAbandoned(s: Sys)
    requires BaseOk(s) && WakeInv(s) && StrictWake(s)
    ensures BaseOk(s.(abandoned := {})) && WakeInv(s.(abandoned := {}))
  {
    var s0 := s.(abandoned := {});
    forall w ensures WaiterOk(s0, w) { assert WaiterOk(s, w); }
    forall z ensures TracedOk(s0, z) { assert TracedOk(s, z); }
    forall w ensures QueueOk(s0, w) { assert QueueOk(s, w); }
    forall w, c ensures CoverOk(s0, w, c) { assert Strict(s, w, c); }
  }

  lemma Remember(s: Sys, s0: Sys)
    requires WakeInv(s0) && s0 == s.(abandoned := {})
    ensures StrictWake(s)
  {
    forall w, c ensures Strict(s, w, c) { assert CoverOk(s0, w, c); }
  }

  /** The exit step of the tracer's process does what the exit of its tracing thread does. */
  lemma ExitClearsLikewise(s: Sys, t: Pid, held: bool)
    requires t in s.tree.procs && s.tree.procs[t].pc.ClearingTracees?
    ensures StrictWake(DoTree(s, ExitAdvance(t, held))) <==> StrictWake(DoClearTracees(s, t))
  {
    var s', s1 := DoTree(s, ExitAdvance(t, held)), DoClearTracees(s, t);
    assert forall q, c :: Holds(s'.tree, q, c) <==> Holds(s1.tree, q, c);
    forall w, c ensures Strict(s', w, c) <==> Strict(s1, w, c) {
      if w in s.waiters { CoveredLikewise(s1, s', t, s.waiters[w].owner, c); }
    }
  }

  lemma CoveredLikewise(s: Sys, s': Sys, t: Pid, q: Pid, c: Pid)
    requires t in s.tree.procs && s.tree.procs[t].pc.ClearingTracees?
    requires s'.tree.procs == s.tree.procs[t := s.tree.procs[t].(pc := WakingTracer)] && s'.waiters == s.waiters
    ensures Covered(s', q, c) <==> Covered(s, q, c)
  {
    assert forall e :: e in s.tree.procs ==> (Rings(s'.tree.procs[e].pc, q) <==> Rings(s.tree.procs[e].pc, q));
  }

  /** A step loses no wake-up if and only if, where it clears tracees, it lets nobody down. */
  ghost predicate Considerate(s: Sys, step: WStep) {
    Clears(s, step).Some? ==> LetsNobodyDown(s, Clears(s, step).value)
  }

  lemma StepKeepsStrictIff(s: Sys, step: WStep)
    requires BaseOk(s) && WakeInv(s) && StrictWake(s) && WEnabled(s, step)
    ensures StrictWake(WApply(s, step)) <==> Considerate(s, step)
  {
    if Clears(s, step).None? {
      OtherStepsKeepStrict(s, step);
    } else {
      ClearKeepsWakeIff(s, Clears(s, step).value);
      if step.TreeStep? { ExitClearsLikewise(s, step.step.p, step.step.held); }
    }
  }

  lemma StepOfRunIff(states: seq<Sys>, steps: seq<WStep>, k: nat)
    requires IsWRun(states, steps) && k < |steps| && StrictWake(states[k])
    ensures StrictWake(states[k + 1]) <==> Considerate(states[k], steps[k])
  {
    RunKeepsWake(states, steps, k);
    assert WNext(states[k], steps[k], states[k + 1]);
    StepKeepsStrictIff(states[k], steps[k]);
  }

  lemma {:induction false} ConsiderateRunLosesNothing(states: seq<Sys>, steps: seq<WStep>, i: nat)
    requires IsWRun(states, steps) && i < |states|
    requires forall j :: 0 <= j < i ==> Considerate(states[j], steps[j])
    ensures StrictWake(states[i])
  {
    if i > 0 {
      ConsiderateRunLosesNothing(states, steps, i - 1);
      StepOfRunIff(states, steps, i - 1);
    }
  }

  /**
   Over any run no wake-up is ever lost if and only if every departing tracer lets nobody
   down at the moment it clears its tracees.
   */
  lemma RunLosesNothingIff(states: seq<Sys>, steps: seq<WStep>, n: nat)
    requires IsWRun(states, steps) && n <= |steps|
    ensures (forall i :: 0 <= i <= n ==> StrictWake(states[i])) <==>
            (forall j :: 0 <= j < n ==> Considerate(states[j], steps[j]))
  {
    if forall j :: 0 <= j < n ==> Considerate(states[j], steps[j]) {
      forall i | 0 <= i <= n ensures StrictWake(states[i]) { ConsiderateRunLosesNothing(states, steps, i); }
    }
    if forall i :: 0 <= i <= n ==> StrictWake(states[i]) {
      forall j | 0 <= j < n ensures Considerate(states[j], steps[j]) { StepOfRunIff(states, steps, j); }
    }
  }

  /**
   In a run where every departing tracer has waited for its zombies first, no wake-up is
   lost at all.
   */
  lemma {:induction false} DutifulTracersLoseNothing(states: seq<Sys>, steps: seq<WStep>, i: nat)
    requires IsWRun(states, steps) && i < |states|
    requires forall k :: 0 <= k < i && Clears(states[k], steps[k]).Some? ==>
               ZombieTracees(states[k], Clears(states[k], steps[k]).value) == {}
    ensures states[i].abandoned == {} && StrictWake(states[i])
  {
    if i > 0 {
      DutifulTracersLoseNothing(states, steps, i - 1);
      assert WNext(states[i - 1], steps[i - 1], states[i]);
      AbandonsOnlyZombieTracees(states[i - 1], steps[i - 1]);
    }
    RunKeepsWake(states, steps, i);
    forall w, c ensures Strict(states[i], w, c) { assert CoverOk(states[i], w, c); }
  }

  // ---- The unwrapped removal ----

  /** A tracer that has found itself to be the parent stays the parent. */
  ghost predicate OurLink(s: Sys, w: nat) {
    w in s.waiters && s.waiters[w].pc.OurChild? ==>
      At(s.tree, s.waiters[w].pc.subject).parent == s.waiters[w].owner
  }

  ghost predicate OurLinks(s: Sys) {
    forall w {:trigger OurLink(s, w)} :: OurLink(s, w)
  }

  lemma RunningStaysParent(t: State, step: Step, q: Pid, z: Pid)
    requires Inv(t) && Enabled(t, step) && !step.Reap? && IsRunning(t, q)
    requires z in t.procs && t.procs[z].parent == q
    ensures At(Apply(t, step), z).parent == q
  {
    if t.procs[z].reaped {
      ReapedKeepsParent(t, step, z);
    } else {
      LinkNamesHolder(t, q, z);
      RunningKeepsChildren(t, step, q, z);
      StepKeepsInv(t, step);
    }
  }

  lemma TreeKeepsLinks(s: Sys, step: Step)
    requires BaseOk(s) && OurLinks(s) && Enabled(s.tree, step) && TreeStepFree(s, step)
    ensures OurLinks(DoTree(s, step))
  {
    forall w ensures OurLink(DoTree(s, step), w) {
      assert OurLink(s, w) && WaiterOk(s, w);
      if w in s.waiters && s.waiters[w].pc.OurChild? {
        RunningStaysParent(s.tree, step, s.waiters[w].owner, s.waiters[w].pc.subject);
      }
    }
  }

  lemma ReapKeepsLinks(s: Sys, w: nat, c: Pid, s': Sys)
    requires BaseOk(s) && OurLinks(s) && w in s.waiters
    requires Holds(s.tree, s.waiters[w].owner, c) && At(s.tree, c).zombie
    requires s'.tree == DoReap(s.tree, s.waiters[w].owner, c) && s'.waiters == s.waiters - {w}
    ensures OurLinks(s')
  {
    ReapEffect(s.tree, s.waiters[w].owner, c);
    forall u ensures OurLink(s', u) { assert OurLink(s, u) && WaiterOk(s, u); }
  }

  lemma SameTreeKeepsLinks(s: Sys, s': Sys)
    requires OurLinks(s) && s'.tree == s.tree
    requires forall u :: u in s'.waiters && s'.waiters[u].pc.OurChild? ==>
               u in s.waiters && s'.waiters[u].pc == s.waiters[u].pc && s'.waiters[u].owner == s.waiters[u].owner
    ensures OurLinks(s')
  {
    forall u ensures OurLink(s', u) { assert OurLink(s, u); }
  }

  lemma MovingKeepsLinks(s: Sys, step: WStep)
    requires OurLinks(s) && WEnabled(s, step) && (OnlyMoves(step) || step.WaitStart? || step.TraceeFound?)
    ensures OurLinks(WApply(s, step))
  {
    SameTreeKeepsLinks(s, WApply(s, step));
  }

  lemma ScanKeepsLinks(s: Sys, w: nat, c: Pid)
    requires BaseOk(s) && OurLinks(s) && w in s.waiters && s.waiters[w].pc.Scanning?
    requires Holds(s.tree, s.waiters[w].owner, c)
    ensures OurLinks(DoScanChild(s, w, s.waiters[w], c))
  {
    var s' := DoScanChild(s, w, s.waiters[w], c);
    if ReadyChild(s, s.waiters[w], c) && s.waiters[w].consume {
      ReapKeepsLinks(s, w, c, s');
    } else {
      SameTreeKeepsLinks(s, s');
    }
  }

  lemma OurChildKeepsLinks(s: Sys, w: nat, z: Pid)
    requires BaseOk(s) && OurLinks(s) && w in s.waiters && s.waiters[w].pc == OurChild(z)
    ensures OurLinks(DoOurChild(s, w, s.waiters[w], z))
  {
    var s' := DoOurChild(s, w, s.waiters[w], z);
    if Holds(s.tree, s.waiters[w].owner, z) && IsZombie(s, z) {
      ReapKeepsLinks(s, w, z, s');
    } else {
      SameTreeKeepsLinks(s, s');
    }
  }

  lemma DetachedKeepsLinks(s: Sys, w: nat, z: Pid, held: bool)
    requires OurLinks(s) && w in s.waiters && s.waiters[w].pc == Detached(z)
    ensures OurLinks(DoDetached(s, w, s.waiters[w], z, held))
  {
    var s' := DoDetached(s, w, s.waiters[w], z, held);
    forall u ensures OurLink(s', u) { assert OurLink(s, u); }
  }

  lemma StepKeepsLinks(s: Sys, step: WStep)
    requires BaseOk(s) && OurLinks(s) && WEnabled(s, step)
    ensures OurLinks(WApply(s, step))
  {
    match step
    case TreeStep(ts) => TreeKeepsLinks(s, ts);
    case ScanChild(w, c) => ScanKeepsLinks(s, w, c);
    case ReapOurChild(w) => OurChildKeepsLinks(s, w, s.waiters[w].pc.subject);
    case DetachedNext(w, held) => DetachedKeepsLinks(s, w, s.waiters[w].pc.subject, held);
    case Attach(_, _) => SameTreeKeepsLinks(s, WApply(s, step));
    case ClearTracees(_) => SameTreeKeepsLinks(s, WApply(s, step));
    case _ => MovingKeepsLinks(s, step);
  }

  lemma {:induction false} RunKeepsLinks(states: seq<Sys>, steps: seq<WStep>, i: nat)
    requires IsWRun(states, steps) && i < |states|
    ensures OurLinks(states[i])
  {
    if i > 0 {
      RunKeepsLinks(states, steps, i - 1);
      RunKeepsReports(states, steps, i - 1);
      assert WNext(states[i - 1], steps[i - 1], states[i]);
      StepKeepsLinks(states[i - 1], steps[i - 1]);
    }
  }

  /**
   In every reachable state, the unwrapped removal of a tracing parent fails if and only if
   the child has been reaped in between; it still names that parent, whose own it was.
   */
  lemma RemovalFailsIffReaped(s: Sys, w: nat)
    requires WReachable(s) && w in s.waiters && s.waiters[w].pc.OurChild? && !s.broken
    ensures DoOurChild(s, w, s.waiters[w], s.waiters[w].pc.subject).broken <==> IsReaped(s, s.waiters[w].pc.subject)
    ensures At(s.tree, s.waiters[w].pc.subject).parent == s.waiters[w].owner
  {
    var states, steps :| IsWRun(states, steps) && states[|steps|] == s;
    RunKeepsReports(states, steps, |steps|);
    RunKeepsLinks(states, steps, |steps|);
    assert OurLink(s, w) && WaiterOk(s, w);
    if !IsReaped(s, s.waiters[w].pc.subject) {
      LinkNamesHolder(s.tree, s.waiters[w].owner, s.waiters[w].pc.subject);
    }
  }

  /** No other step breaks anything. */
  lemma OthersBreakNothing(s: Sys, step: WStep)
    requires WEnabled(s, step) && !step.ReapOurChild?
    ensures !WApply(s, step).broken
  {
  }

  /** The tracing parent about to remove its child, if that is the step, still has it. */
  predicate StillThere(s: Sys, step: WStep) {
    step.ReapOurChild? && step.w in s.waiters && s.waiters[step.w].pc.OurChild? ==>
      !IsReaped(s, s.waiters[step.w].pc.subject)
  }

  /** A run never breaks if and only if no tracing parent comes to remove a child already reaped. */
  lemma RunNeverBreaksIff(states: seq<Sys>, steps: seq<WStep>, n: nat)
    requires IsWRun(states, steps) && n <= |steps|
    ensures !states[n].broken <==> forall j :: 0 <= j < n ==> StillThere(states[j], steps[j])
  {
    forall j | 0 <= j < n ensures states[j + 1].broken <==> !StillThere(states[j], steps[j]) {
      BreaksThere(states, steps, j);
    }
    if n > 0 {
      assert states[(n - 1) + 1].broken <==> !StillThere(states[n - 1], steps[n - 1]);
    }
    forall j | 0 <= j < n - 1 ensures StillThere(states[j], steps[j]) {
      assert WNext(states[j + 1], steps[j + 1], states[j + 2]);
    }
  }

  lemma BreaksThere(states: seq<Sys>, steps: seq<WStep>, j: nat)
    requires IsWRun(states, steps) && j < |steps|
    ensures states[j + 1].broken <==> !StillThere(states[j], steps[j])
  {
    assert WNext(states[j], steps[j], states[j + 1]);
    if steps[j].ReapOurChild? {
      Prefix(states, steps, j);
      RemovalFailsIffReaped(states[j], steps[j].w);
    } else {
      OthersBreakNothing(states[j], steps[j]);
    }
  }

  lemma Prefix(states: seq<Sys>, steps: seq<WStep>, j: nat)
    requires IsWRun(states, steps) && j <= |steps|
    ensures WReachable(states[j])
  {
    assert IsWRun(states[..j + 1], steps[..j]) && states[..j + 1][|steps[..j]|] == states[j];
  }
}
