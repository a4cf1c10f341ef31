/**
 The wake-up of a tracing parent: a thread that waits for a child it traces itself is woken
 once the child is a zombie, although the wake that tracing adds comes before that.
 */
module WaitTracers {
  import opened Prelude
  import opened ProcessTree
  import opened TreeInvariant
  import opened TreeProgress
  import opened WaitProtocol
  import opened WaitInvariant
  import opened WaitWakeups
  import opened WaitSolo

  /** The thread has looked at its tracees since it enqueued its waker. */
  predicate PastTracees(pc: WaitPc) {
    pc.Asleep? || (pc.Scanning? && !pc.fast) || (pc.Children? && !pc.fast)
  }

  /** A tracing parent that missed its zombie tracee `c` has the wake for it still to come. */
  ghost predicate TracerOk(s: Sys, w: nat, c: Pid) {
    (w in s.waiters && !s.waiters[w].woken && PastTracees(s.waiters[w].pc)
     && ReadyTracee(s, s.waiters[w], c) && Holds(s.tree, s.waiters[w].owner, c))
    ==> Covered(s, s.waiters[w].owner, c)
  }

  ghost predicate TracerInv(s: Sys) {
    forall w, c {:trigger TracerOk(s, w, c)} :: TracerOk(s, w, c)
  }

  // ---- Life-cycle steps ----

  /** A tracee that was not a zombie child before the step, and is one after it, is covered. */
  lemma TreeCoversTracee(s: Sys, step: Step, q: Pid, c: Pid)
    requires BaseOk(s) && Enabled(s.tree, step) && !step.Reap?
    requires Holds(DoTree(s, step).tree, q, c) && IsZombie(DoTree(s, step), c)
    requires !(Holds(s.tree, q, c) && IsZombie(s, c))
    ensures Covered(DoTree(s, step), q, c)
  {
    StepEffect(s.tree, step);
    assert FreshZombie(s.tree, Apply(s.tree, step), c) && FreshChild(s.tree, Apply(s.tree, step), q, c);
  }

  lemma TreeKeepsTracer(s: Sys, step: Step)
    requires BaseOk(s) && WakeInv(s) && TracerInv(s) && Enabled(s.tree, step) && TreeStepFree(s, step)
    ensures TracerInv(DoTree(s, step))
  {
    var s' := DoTree(s, step);
    forall w, c ensures TracerOk(s', w, c) {
      assert TracerOk(s, w, c) && QueueOk(s, w);
      if w in s.waiters && !s'.waiters[w].woken && PastTracees(s.waiters[w].pc)
         && ReadyTracee(s', s.waiters[w], c) && Holds(s'.tree, s.waiters[w].owner, c)
      {
        var q := s.waiters[w].owner;
        assert Rung(s, step) != Some(q);
        if Holds(s.tree, q, c) && IsZombie(s, c) {
          TreeKeepsCover(s, step, q, c);
        } else {
          TreeCoversTracee(s, step, q, c);
        }
      }
    }
  }

  // ---- Steps of waiting threads and tracers ----

  /** If `w` is past its tracees and missed `c` after the step, so it was and had before. */
  ghost predicate MissedBefore(s: Sys, s': Sys, w: nat, c: Pid) {
    (w in s'.waiters && PastTracees(s'.waiters[w].pc) && ReadyTracee(s, s'.waiters[w], c))
    ==>
      (w in s.waiters && PastTracees(s.waiters[w].pc)
       && s.waiters[w].owner == s'.waiters[w].owner && s.waiters[w].filter == s'.waiters[w].filter
       && s.waiters[w].isTracer == s'.waiters[w].isTracer && s.waiters[w].woken == s'.waiters[w].woken)
  }

  /** A step of `w`, which attends to nobody, that leaves tree and tracers alone. */
  lemma LocalKeepsTracer(s: Sys, s': Sys, w: nat)
    requires TracerInv(s) && s'.tree == s.tree && s'.tracer == s.tracer
    requires forall u :: u != w ==>
               (u in s'.waiters <==> u in s.waiters) && (u in s.waiters ==> s'.waiters[u] == s.waiters[u])
    requires w in s.waiters ==>
               !s.waiters[w].pc.Detached? && !s.waiters[w].pc.OurChild? && !s.waiters[w].pc.WakingOwner?
    requires forall c {:trigger MissedBefore(s, s', w, c)} :: MissedBefore(s, s', w, c)
    ensures TracerInv(s')
  {
    forall u, c ensures TracerOk(s', u, c) {
      assert TracerOk(s, u, c) && MissedBefore(s, s', w, c);
      if Covered(s, WaiterAt(s', u).owner, c) { LocalKeepsCover(s, s', w, WaiterAt(s', u).owner, c); }
    }
  }

  lemma MovingKeepsTracer(s: Sys, step: WStep)
    requires TracerInv(s) && WEnabled(s, step)
    requires (OnlyMoves(step) && !step.WakeOwner?) || step.WaitStart?
    ensures TracerInv(WApply(s, step))
  {
    LocalKeepsTracer(s, WApply(s, step), step.w);
  }

  lemma WakeOwnerKeepsTracer(s: Sys, w: nat)
    requires WakeInv(s) && TracerInv(s) && w in s.waiters && s.waiters[w].pc.WakingOwner?
    ensures TracerInv(Leave(s, w).(waiters := WakeAll(s.waiters - {w}, s.waiters[w].pc.target)))
  {
    var target := s.waiters[w].pc.target;
    var s' := Leave(s, w).(waiters := WakeAll(s.waiters - {w}, target));
    forall u, c ensures TracerOk(s', u, c) {
      assert TracerOk(s, u, c) && QueueOk(s, u);
      if u in s'.waiters && !s'.waiters[u].woken && PastTracees(s'.waiters[u].pc)
         && Covered(s, s'.waiters[u].owner, c)
      {
        LocalKeepsCover(s, s', w, s'.waiters[u].owner, c);
      }
    }
  }

  lemma ReapKeepsTracer(s: Sys, w: nat, c: Pid, s': Sys)
    requires BaseOk(s) && TracerInv(s) && w in s.waiters && c !in s.tracer
    requires s.waiters[w].pc.Scanning? || s.waiters[w].pc == OurChild(c)
    requires Holds(s.tree, s.waiters[w].owner, c) && IsZombie(s, c)
    requires s'.tree == DoReap(s.tree, s.waiters[w].owner, c) && s'.waiters == s.waiters - {w}
    requires s'.tracer == s.tracer
    ensures TracerInv(s')
  {
    ReapEffect(s.tree, s.waiters[w].owner, c);
    forall u, d ensures TracerOk(s', u, d) {
      assert TracerOk(s, u, d);
      if u in s'.waiters && d != c && Covered(s, s'.waiters[u].owner, d) {
        ReapKeepsCover(s, w, c, s', s'.waiters[u].owner, d);
      }
    }
  }

  lemma ScanKeepsTracer(s: Sys, w: nat, c: Pid)
    requires BaseOk(s) && TracerInv(s) && w in s.waiters && s.waiters[w].pc.Scanning?
    requires Holds(s.tree, s.waiters[w].owner, c)
    ensures TracerInv(DoScanChild(s, w, s.waiters[w], c))
  {
    var wt := s.waiters[w];
    if ReadyChild(s, wt, c) && wt.consume {
      ReapKeepsTracer(s, w, c, DoScanChild(s, w, wt, c));
    } else {
      LocalKeepsTracer(s, DoScanChild(s, w, wt, c), w);
    }
  }

  lemma OurChildKeepsTracer(s: Sys, w: nat, z: Pid)
    requires BaseOk(s) && TracerInv(s) && w in s.waiters && s.waiters[w].pc == OurChild(z)
    ensures TracerInv(DoOurChild(s, w, s.waiters[w], z))
  {
    var s' := DoOurChild(s, w, s.waiters[w], z);
    assert WaiterOk(s, w);
    if Holds(s.tree, s.waiters[w].owner, z) && IsZombie(s, z) {
      ReapKeepsTracer(s, w, z, s');
    } else {
      forall u, c ensures TracerOk(s', u, c) { assert TracerOk(s, u, c); }
    }
  }

  lemma TraceeFoundKeepsTracer(s: Sys, w: nat, z: Pid)
    requires TracerInv(s) && w in s.waiters && s.waiters[w].pc.Tracees?
    requires ReadyTracee(s, s.waiters[w], z)
    ensures TracerInv(DoTraceeFound(s, w, s.waiters[w], z))
  {
    var s' := DoTraceeFound(s, w, s.waiters[w], z);
    forall u, c ensures TracerOk(s', u, c) {
      assert TracerOk(s, u, c);
      if u in s'.waiters && PastTracees(s'.waiters[u].pc) && Covered(s, s'.waiters[u].owner, c) {
        LocalKeepsCover(s, s', w, s'.waiters[u].owner, c);
      }
    }
  }

  lemma DetachedKeepsTracer(s: Sys, w: nat, z: Pid, held: bool)
    requires BaseOk(s) && TracerInv(s) && w in s.waiters && s.waiters[w].pc == Detached(z)
    ensures TracerInv(DoDetached(s, w, s.waiters[w], z, held))
  {
    var s' := DoDetached(s, w, s.waiters[w], z, held);
    DetachedShape(s, w, z, held);
    assert WaiterOk(s, w);
    forall u, c ensures TracerOk(s', u, c) {
      assert TracerOk(s, u, c);
      if u in s'.waiters && u != w && c != z && Covered(s, s.waiters[u].owner, c) {
        LocalKeepsCover(s, s', w, s.waiters[u].owner, c);
      }
    }
  }

  lemma AttachKeepsTracer(s: Sys, z: Pid, t: Pid)
    requires BaseOk(s) && TracerInv(s) && IsRunning(s.tree, z)
    ensures TracerInv(s.(tracer := s.tracer[z := t]))
  {
    var s' := s.(tracer := s.tracer[z := t]);
    assert ProcOk(s.tree, z);
    forall u, c ensures TracerOk(s', u, c) { assert TracerOk(s, u, c); }
  }

  lemma ClearKeepsTracer(s: Sys, t: Pid)
    requires TracerInv(s)
    ensures TracerInv(DoClearTracees(s, t))
  {
    forall u, c ensures TracerOk(DoClearTracees(s, t), u, c) { assert TracerOk(s, u, c); }
  }

  lemma StepKeepsTracer(s: Sys, step: WStep)
    requires BaseOk(s) && WakeInv(s) && TracerInv(s) && WEnabled(s, step)
    ensures TracerInv(WApply(s, step))
  {
    match step
    case TreeStep(ts) => TreeKeepsTracer(s, ts);
    case ScanChild(w, c) => ScanKeepsTracer(s, w, c);
    case ReapOurChild(w) => OurChildKeepsTracer(s, w, s.waiters[w].pc.subject);
    case Attach(z, t) => AttachKeepsTracer(s, z, t);
    case ClearTracees(t) => ClearKeepsTracer(s, t);
    case TraceeFound(w, z) => TraceeFoundKeepsTracer(s, w, z);
    case DetachedNext(w, held) => DetachedKeepsTracer(s, w, s.waiters[w].pc.subject, held);
    case WakeOwner(w) => WakeOwnerKeepsTracer(s, w);
    case _ => MovingKeepsTracer(s, step);
  }

  lemma {:induction false} RunKeepsTracer(states: seq<Sys>, steps: seq<WStep>, i: nat)
    requires IsWRun(states, steps) && i < |states|
    ensures TracerInv(states[i])
  {
    if i > 0 {
      RunKeepsTracer(states, steps, i - 1);
      RunKeepsWake(states, steps, i - 1);
      assert WNext(states[i - 1], steps[i - 1], states[i]);
      StepKeepsTracer(states[i - 1], steps[i - 1]);
    }
  }

  /**
   In every reachable state, a sleeping, unwoken thread that traces its own zombie child has
   the wake for that child still to come.
   */
  lemma NoLostTraceeWakeup(s: Sys, w: nat, c: Pid)
    requires WReachable(s) && w in s.waiters && s.waiters[w].pc.Asleep? && !s.waiters[w].woken
    requires s.waiters[w].isTracer && c in s.tracer && s.tracer[c] == s.waiters[w].owner
    requires Holds(s.tree, s.waiters[w].owner, c) && c in s.tree.procs && s.tree.procs[c].zombie
    requires s.waiters[w].filter == AnyChild || s.waiters[w].filter == OnlyChild(c)
    ensures s.waiters[w].queued && Covered(s, s.waiters[w].owner, c)
  {
    var states, steps :| IsWRun(states, steps) && states[|steps|] == s;
    RunKeepsWake(states, steps, |steps|);
    RunKeepsTracer(states, steps, |steps|);
    assert TracerOk(s, w, c) && QueueOk(s, w);
  }

  // ---- PTRACE_TRACEME ----

  /** A tracer is its tracee's parent, and has not cleared its tracees yet. */
  ghost predicate ParentTraces(s: Sys, z: Pid) {
    z in s.tracer ==>
      && At(s.tree, z).parent == s.tracer[z]
      && (At(s.tree, s.tracer[z]).pc.Running? || At(s.tree, s.tracer[z]).pc.ClearingTracees?)
  }

  ghost predicate ParentsTrace(s: Sys) {
    forall z {:trigger ParentTraces(s, z)} :: ParentTraces(s, z)
  }

  /** The only way to become traced in this run is to ask one's parent. */
  ghost predicate AsksParent(s: Sys, step: WStep) {
    step.Attach? ==> At(s.tree, step.z).parent == step.t
  }

  /** A parent that is not handing its children over keeps them through a step. */
  lemma ParentKeepsChild(t: State, step: Step, z: Pid)
    requires Inv(t) && Enabled(t, step) && !step.Reap? && z in t.procs && !t.procs[z].reaped
    requires var pc := At(t, t.procs[z].parent).pc; pc.Running? || pc.ClearingTracees?
    ensures At(Apply(t, step), z).parent == t.procs[z].parent
  {
    if step.ExitAdvance? && z != INIT {
      ParentIsOwned(t, z);
      StepKeepsInv(t, step);
      if step.p != t.procs[z].parent {
        ExitKeepsChildren(t, step.p, step.held, t.procs[z].parent, z);
      }
    } else if step.ExitAdvance? {
      ExitStepShape(t, step.p, step.held);
      assert ProcOk(t, z);
    } else {
      StepShape(t, step);
    }
  }

  lemma TracerStaysPut(t: State, step: Step, q: Pid)
    requires Inv(t) && Enabled(t, step) && !step.Reap? && q in t.procs
    requires t.procs[q].pc.Running? || (t.procs[q].pc.ClearingTracees? && !(step.ExitAdvance? && step.p == q))
    ensures At(Apply(t, step), q).pc.Running? || At(Apply(t, step), q).pc.ClearingTracees?
  {
    if step.ExitAdvance? { ExitStepShape(t, step.p, step.held); } else { StepShape(t, step); }
  }

  lemma TreeKeepsParents(s: Sys, step: Step)
    requires BaseOk(s) && ParentsTrace(s) && Enabled(s.tree, step) && !step.Reap?
    ensures ParentsTrace(DoTree(s, step))
  {
    var s' := DoTree(s, step);
    forall z ensures ParentTraces(s', z) {
      assert ParentTraces(s, z) && TracedOk(s, z);
      if z in s'.tracer {
        ParentKeepsChild(s.tree, step, z);
        TracerStaysPut(s.tree, step, s.tracer[z]);
      }
    }
  }

  lemma ReapKeepsParents(s: Sys, owner: Pid, c: Pid, s': Sys)
    requires BaseOk(s) && ParentsTrace(s) && Holds(s.tree, owner, c) && IsZombie(s, c)
    requires s'.tree == DoReap(s.tree, owner, c) && s'.tracer == s.tracer
    ensures ParentsTrace(s')
  {
    ReapEffect(s.tree, owner, c);
    forall z ensures ParentTraces(s', z) { assert ParentTraces(s, z) && TracedOk(s, z); }
  }

  lemma FewerKeepParents(s: Sys, s': Sys)
    requires ParentsTrace(s) && s'.tree == s.tree
    requires forall z :: z in s'.tracer ==> z in s.tracer && s'.tracer[z] == s.tracer[z]
    ensures ParentsTrace(s')
  {
    forall z ensures ParentTraces(s', z) { assert ParentTraces(s, z); }
  }

  lemma StepKeepsParents(s: Sys, step: WStep)
    requires BaseOk(s) && ParentsTrace(s) && WEnabled(s, step) && AsksParent(s, step)
    ensures ParentsTrace(WApply(s, step))
  {
    match step
    case TreeStep(ts) => TreeKeepsParents(s, ts);
    case ScanChild(w, c) =>
      if ReadyChild(s, s.waiters[w], c) && s.waiters[w].consume {
        ReapKeepsParents(s, s.waiters[w].owner, c, DoScanChild(s, w, s.waiters[w], c));
      } else {
        FewerKeepParents(s, DoScanChild(s, w, s.waiters[w], c));
      }
    case ReapOurChild(w) =>
      var z := s.waiters[w].pc.subject;
      if Holds(s.tree, s.waiters[w].owner, z) && IsZombie(s, z) {
        ReapKeepsParents(s, s.waiters[w].owner, z, DoOurChild(s, w, s.waiters[w], z));
      } else {
        FewerKeepParents(s, DoOurChild(s, w, s.waiters[w], z));
      }
    case Attach(z, t) =>
      forall x ensures ParentTraces(WApply(s, step), x) { assert ParentTraces(s, x); }
    case _ => FewerKeepParents(s, WApply(s, step));
  }

  lemma {:induction false} RunKeepsParents(states: seq<Sys>, steps: seq<WStep>, i: nat)
    requires IsWRun(states, steps) && i < |states|
    requires forall k :: 0 <= k < i ==> AsksParent(states[k], steps[k])
    ensures ParentsTrace(states[i])
  {
    if i > 0 {
      RunKeepsParents(states, steps, i - 1);
      RunKeepsWake(states, steps, i - 1);
      assert WNext(states[i - 1], steps[i - 1], states[i]);
      StepKeepsParents(states[i - 1], steps[i - 1]);
    }
  }

  /**
   With PTRACE_TRACEME as the only way to be traced, no thread that waits for its tracees
   sleeps through the end of one: every zombie tracee it has is its own child, and the wake
   for it is still to come.
   */
  lemma TraceMeLosesNoTracee(states: seq<Sys>, steps: seq<WStep>, i: nat, w: nat, c: Pid)
    requires IsWRun(states, steps) && i < |states|
    requires forall k :: 0 <= k < i ==> AsksParent(states[k], steps[k])
    requires var s := states[i];
             && w in s.waiters && s.waiters[w].pc.Asleep? && !s.waiters[w].woken
             && s.waiters[w].isTracer && c in s.tracer && s.tracer[c] == s.waiters[w].owner
             && c in s.tree.procs && s.tree.procs[c].zombie
             && (s.waiters[w].filter == AnyChild || s.waiters[w].filter == OnlyChild(c))
    ensures var s := states[i]; s.waiters[w].queued && Covered(s, s.waiters[w].owner, c)
  {
    var s := states[i];
    RunKeepsParents(states, steps, i);
    RunKeepsWake(states, steps, i);
    RunKeepsTracer(states, steps, i);
    assert ParentTraces(s, c) && TracedOk(s, c) && WaiterOk(s, w);
    LinkNamesHolder(s.tree, s.waiters[w].owner, c);
    assert TracerOk(s, w, c) && QueueOk(s, w);
  }
}
