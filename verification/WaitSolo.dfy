/**
 When each process waits with one thread at a time, a tracing parent that has reported its
 child's end always reaps it itself: the unwrapped removal in `cleanup_exited_tracee` cannot
 fail, and the end is reported once in all.
 */
module WaitSolo {
  import opened ProcessTree
  import opened TreeInvariant
  import opened TreeProgress
  import opened WaitProtocol
  import opened WaitInvariant
  import opened WaitReports

  ghost predicate Solo(s: Sys) {
    forall w, u :: w in s.waiters && u in s.waiters && s.waiters[w].owner == s.waiters[u].owner ==> w == u
  }

  /** A tracer that has detached its own child still finds it in its children map. */
  ghost predicate StillOurs(s: Sys, w: nat) {
    w in s.waiters ==>
      var wt := s.waiters[w];
      && (wt.pc.OurChild? ==> Holds(s.tree, wt.owner, wt.pc.subject))
      && (wt.pc.Detached? && At(s.tree, wt.pc.subject).parent == wt.owner ==>
            Holds(s.tree, wt.owner, wt.pc.subject))
  }

  ghost predicate InHand(s: Sys, w: nat, a: Pid, z: Pid) {
    && w in s.waiters && s.waiters[w].owner == a
    && (s.waiters[w].pc == Detached(z) || s.waiters[w].pc == OurChild(z))
    && Holds(s.tree, a, z)
  }

  /** A tracing parent that has reported its child has reaped it or is about to. */
  ghost predicate SettledOk(s: Sys, r: Report) {
    r in s.reports && r.TraceeExit? && r.wasParent ==>
      r.subject in s.silent || exists w :: InHand(s, w, r.audience, r.subject)
  }

  ghost predicate SoloInv(s: Sys) {
    && !s.broken
    && (forall w {:trigger StillOurs(s, w)} :: StillOurs(s, w))
    && (forall r {:trigger SettledOk(s, r)} :: SettledOk(s, r))
  }

  // ---- Life-cycle steps ----

  /** A process that has not begun to exit keeps its children through every step but a reap. */
  lemma ExitKeepsChildren(t: State, p: Pid, held: bool, q: Pid, c: Pid)
    requires Inv(t) && p in t.procs && p != q && Holds(t, q, c)
    ensures Holds(DoExit(t, p, held), q, c)
  {
    assert ProcOk(t, p);
    var pc := t.procs[p].pc;
    if pc.Moving? {
      if t.procs[pc.reaper].children.Some? { MoveHolds(t, p, pc.reaper); }
    }
  }

  lemma LinkKeepsChildren(t: State, u: nat, q: Pid, c: Pid)
    requires Inv(t) && u in t.cloners && t.cloners[u].pc.Locking? && Holds(t, q, c)
    ensures Holds(DoCloneLink(t, u), q, c)
  {
    if At(t, t.cloners[u].pc.target).children.Some? { CloneLinkHolds(t, u); }
  }

  lemma RunningKeepsChildren(t: State, step: Step, q: Pid, c: Pid)
    requires Inv(t) && Enabled(t, step) && !step.Reap? && IsRunning(t, q) && Holds(t, q, c)
    ensures Holds(Apply(t, step), q, c)
  {
    match step
    case ExitAdvance(p, held) => ExitKeepsChildren(t, p, held, q, c);
    case CloneLink(u) => LinkKeepsChildren(t, u, q, c);
    case Reap(_, _) => assert false;
    case _ =>
  }

  /** A reaped process keeps the parent it was reaped by. */
  lemma ReapedKeepsParent(t: State, step: Step, z: Pid)
    requires Inv(t) && Enabled(t, step) && z in t.procs && t.procs[z].reaped
    ensures z in Apply(t, step).procs && Apply(t, step).procs[z].parent == t.procs[z].parent
  {
    if step.ExitAdvance? {
      assert ProcOk(t, step.p);
      var pc := t.procs[step.p].pc;
      if pc.Moving? {
        assert !Holds(t, step.p, z);
      }
    } else {
      StepShape(t, step);
    }
  }

  lemma LinkNamesHolder(t: State, q: Pid, z: Pid)
    requires Inv(t) && z in t.procs && !t.procs[z].reaped && t.procs[z].parent == q && q in t.procs
    ensures Holds(t, q, z)
  {
    assert ProcOk(t, z) && ProcOk(t, q);
  }

  /** If a link names a running process only where that process holds the child, so does it after. */
  lemma TreeKeepsOurs(t: State, step: Step, q: Pid, z: Pid)
    requires Inv(t) && Enabled(t, step) && !step.Reap? && IsRunning(t, q) && z in t.procs
    requires t.procs[z].parent == q ==> Holds(t, q, z)
    ensures At(Apply(t, step), z).parent == q ==> Holds(Apply(t, step), q, z)
  {
    var t' := Apply(t, step);
    if Holds(t, q, z) {
      RunningKeepsChildren(t, step, q, z);
    } else if t.procs[z].reaped {
      ReapedKeepsParent(t, step, z);
    } else if At(t', z).parent == q {
      StepKeepsInv(t, step);
      StepEffect(t, step);
      assert Persists(t, t', z) && Persists(t, t', q);
      LinkNamesHolder(t', q, z);
    }
  }

  lemma TreeKeepsSettled(s: Sys, step: Step, r: Report)
    requires BaseOk(s) && Enabled(s.tree, step) && TreeStepFree(s, step) && SettledOk(s, r)
    ensures SettledOk(DoTree(s, step), r)
  {
    var s' := DoTree(s, step);
    if r in s.reports && r.TraceeExit? && r.wasParent && r.subject !in s.silent {
      var w :| InHand(s, w, r.audience, r.subject);
      assert WaiterOk(s, w);
      RunningKeepsChildren(s.tree, step, r.audience, r.subject);
      assert InHand(s', w, r.audience, r.subject);
    }
  }

  // ---- Reaping ----

  /** Reaping for the waiter `w` takes nothing out of another waiter's hands. */
  lemma ReapTouchesNoOther(s: Sys, w: nat, c: Pid, u: nat, z: Pid)
    requires BaseOk(s) && Solo(s) && w in s.waiters && u in s.waiters && w != u
    requires Holds(s.tree, s.waiters[w].owner, c) && At(s.tree, c).zombie
    requires Holds(s.tree, s.waiters[u].owner, z)
    ensures Holds(DoReap(s.tree, s.waiters[w].owner, c), s.waiters[u].owner, z)
  {
    ReapEffect(s.tree, s.waiters[w].owner, c);
  }

  lemma ReapKeepsSolo(s: Sys, w: nat, c: Pid, s': Sys)
    requires BaseOk(s) && Solo(s) && SoloInv(s) && w in s.waiters
    requires Holds(s.tree, s.waiters[w].owner, c) && At(s.tree, c).zombie
    requires s'.tree == DoReap(s.tree, s.waiters[w].owner, c) && s'.waiters == s.waiters - {w} && !s'.broken
    requires forall r :: r in s'.reports && r.TraceeExit? ==> r in s.reports
    requires s.silent <= s'.silent
    requires s.waiters[w].pc.Scanning? || (s.waiters[w].pc == OurChild(c) && c in s'.silent)
    ensures SoloInv(s')
  {
    var o := s.waiters[w].owner;
    ReapEffect(s.tree, o, c);
    forall u ensures StillOurs(s', u) {
      assert StillOurs(s, u);
      if u in s'.waiters && (s.waiters[u].pc.Detached? || s.waiters[u].pc.OurChild?) {
        assert WaiterOk(s, u);
        if Holds(s.tree, s.waiters[u].owner, s.waiters[u].pc.subject) {
          ReapTouchesNoOther(s, w, c, u, s.waiters[u].pc.subject);
        }
      }
    }
    forall r ensures SettledOk(s', r) {
      assert SettledOk(s, r);
      if r in s'.reports && r.TraceeExit? && r.wasParent && r.subject !in s'.silent {
        var u :| InHand(s, u, r.audience, r.subject);
        if u != w { ReapTouchesNoOther(s, w, c, u, r.subject); }
        assert InHand(s', u, r.audience, r.subject);
      }
    }
  }

  // ---- The other steps ----

  /** Steps that leave tree, tracers and reports alone and keep what is in hand in hand. */
  lemma QuietKeepsSolo(s: Sys, s': Sys)
    requires SoloInv(s) && OnlyMoved(s, s')
    requires forall w :: w in s.waiters && (s.waiters[w].pc.Detached? || s.waiters[w].pc.OurChild?) ==>
               w in s'.waiters && s'.waiters[w].pc == s.waiters[w].pc && s'.waiters[w].owner == s.waiters[w].owner
    ensures SoloInv(s')
  {
    forall w ensures StillOurs(s', w) { assert StillOurs(s, w); }
    forall r ensures SettledOk(s', r) {
      assert SettledOk(s, r);
      if r in s.reports && r.TraceeExit? && r.wasParent && r.subject !in s.silent {
        var w :| InHand(s, w, r.audience, r.subject);
        assert InHand(s', w, r.audience, r.subject);
      }
    }
  }

  lemma MovingKeepsHand(s: Sys, step: WStep, w: nat)
    requires WEnabled(s, step) && (OnlyMoves(step) || step.WaitStart?)
    requires w in s.waiters && (s.waiters[w].pc.Detached? || s.waiters[w].pc.OurChild?)
    ensures var s' := WApply(s, step);
            w in s'.waiters && s'.waiters[w].pc == s.waiters[w].pc && s'.waiters[w].owner == s.waiters[w].owner
  {
  }

  lemma MovingKeepsSolo(s: Sys, step: WStep)
    requires SoloInv(s) && WEnabled(s, step) && (OnlyMoves(step) || step.WaitStart?)
    ensures SoloInv(WApply(s, step))
  {
    MovingShape(s, step);
    forall w | w in s.waiters && (s.waiters[w].pc.Detached? || s.waiters[w].pc.OurChild?)
      ensures var s' := WApply(s, step);
              w in s'.waiters && s'.waiters[w].pc == s.waiters[w].pc && s'.waiters[w].owner == s.waiters[w].owner
    {
      MovingKeepsHand(s, step, w);
    }
    QuietKeepsSolo(s, WApply(s, step));
  }

  lemma TraceeFoundKeepsSolo(s: Sys, w: nat, z: Pid)
    requires BaseOk(s) && SoloInv(s) && w in s.waiters && s.waiters[w].pc.Tracees?
    requires ReadyTracee(s, s.waiters[w], z)
    ensures SoloInv(DoTraceeFound(s, w, s.waiters[w], z))
  {
    var wt := s.waiters[w];
    var s' := DoTraceeFound(s, w, wt, z);
    assert WaiterOk(s, w) && TracedOk(s, z);
    if At(s.tree, z).parent == wt.owner { LinkNamesHolder(s.tree, wt.owner, z); }
    forall u ensures StillOurs(s', u) { assert StillOurs(s, u); }
    forall r ensures SettledOk(s', r) {
      assert SettledOk(s, r);
      if r in s.reports && r.TraceeExit? && r.wasParent && r.subject !in s.silent {
        var u :| InHand(s, u, r.audience, r.subject);
        assert InHand(s', u, r.audience, r.subject);
      } else if wt.consume && r == TraceeExit(wt.owner, z, true) && At(s.tree, z).parent == wt.owner {
        assert InHand(s', w, wt.owner, z);
      }
    }
  }

  lemma DetachedKeepsSettled(s: Sys, w: nat, z: Pid, held: bool, r: Report)
    requires BaseOk(s) && SettledOk(s, r) && w in s.waiters && s.waiters[w].pc == Detached(z)
    ensures SettledOk(DoDetached(s, w, s.waiters[w], z, held), r)
  {
    if r in s.reports && r.TraceeExit? && r.wasParent && r.subject !in s.silent {
      var u :| InHand(s, u, r.audience, r.subject);
      assert InHand(DoDetached(s, w, s.waiters[w], z, held), u, r.audience, r.subject);
    }
  }

  lemma DetachedKeepsSolo(s: Sys, w: nat, z: Pid, held: bool)
    requires BaseOk(s) && SoloInv(s) && w in s.waiters && s.waiters[w].pc == Detached(z)
    ensures SoloInv(DoDetached(s, w, s.waiters[w], z, held))
  {
    var s' := DoDetached(s, w, s.waiters[w], z, held);
    forall u ensures StillOurs(s', u) { assert StillOurs(s, u); }
    forall r ensures SettledOk(s', r) { DetachedKeepsSettled(s, w, z, held, r); }
  }

  lemma TracersKeepSolo(s: Sys, s': Sys)
    requires SoloInv(s) && s'.tree == s.tree && s'.waiters == s.waiters && s'.reports == s.reports
    requires s'.silent == s.silent && s'.broken == s.broken
    ensures SoloInv(s')
  {
    forall w ensures StillOurs(s', w) { assert StillOurs(s, w); }
    forall r ensures SettledOk(s', r) {
      assert SettledOk(s, r);
      if r in s.reports && r.TraceeExit? && r.wasParent && r.subject !in s.silent {
        var u :| InHand(s, u, r.audience, r.subject);
        assert InHand(s', u, r.audience, r.subject);
      }
    }
  }

  lemma TreeStepKeepsSolo(s: Sys, step: Step)
    requires BaseOk(s) && SoloInv(s) && Enabled(s.tree, step) && TreeStepFree(s, step)
    ensures SoloInv(DoTree(s, step))
  {
    forall w ensures StillOurs(DoTree(s, step), w) {
      assert StillOurs(s, w) && WaiterOk(s, w);
      if w in s.waiters && (s.waiters[w].pc.Detached? || s.waiters[w].pc.OurChild?) {
        TreeKeepsOurs(s.tree, step, s.waiters[w].owner, s.waiters[w].pc.subject);
        if s.waiters[w].pc.OurChild? {
          RunningKeepsChildren(s.tree, step, s.waiters[w].owner, s.waiters[w].pc.subject);
        }
      }
    }
    forall r ensures SettledOk(DoTree(s, step), r) {
      assert SettledOk(s, r);
      TreeKeepsSettled(s, step, r);
    }
  }

  lemma ScanKeepsSolo(s: Sys, w: nat, c: Pid)
    requires BaseOk(s) && Solo(s) && SoloInv(s) && w in s.waiters && s.waiters[w].pc.Scanning?
    requires Holds(s.tree, s.waiters[w].owner, c)
    ensures SoloInv(DoScanChild(s, w, s.waiters[w], c))
  {
    var wt := s.waiters[w];
    var s' := DoScanChild(s, w, wt, c);
    if ReadyChild(s, wt, c) && wt.consume {
      ReapKeepsSolo(s, w, c, s');
    } else {
      QuietKeepsSolo(s, s');
    }
  }

  lemma StepKeepsSolo(s: Sys, step: WStep)
    requires BaseOk(s) && Solo(s) && SoloInv(s) && WEnabled(s, step)
    ensures SoloInv(WApply(s, step))
  {
    match step
    case TreeStep(ts) => TreeStepKeepsSolo(s, ts);
    case ScanChild(w, c) => ScanKeepsSolo(s, w, c);
    case ReapOurChild(w) =>
      assert StillOurs(s, w) && WaiterOk(s, w);
      ReapKeepsSolo(s, w, s.waiters[w].pc.subject, DoOurChild(s, w, s.waiters[w], s.waiters[w].pc.subject));
    case TraceeFound(w, z) => TraceeFoundKeepsSolo(s, w, z);
    case DetachedNext(w, held) => DetachedKeepsSolo(s, w, s.waiters[w].pc.subject, held);
    case Attach(z, t) => TracersKeepSolo(s, s.(tracer := s.tracer[z := t]));
    case ClearTracees(t) => TracersKeepSolo(s, DoClearTracees(s, t));
    case _ => MovingKeepsSolo(s, step);
  }

  lemma {:induction false} SoloRunKeeps(states: seq<Sys>, steps: seq<WStep>, i: nat)
    requires IsWRun(states, steps) && i < |states|
    requires forall k :: 0 <= k < i ==> Solo(states[k])
    ensures BaseOk(states[i]) && ReportInv(states[i]) && SoloInv(states[i])
  {
    RunKeepsReports(states, steps, i);
    if i > 0 {
      SoloRunKeeps(states, steps, i - 1);
      assert WNext(states[i - 1], steps[i - 1], states[i]);
      StepKeepsSolo(states[i - 1], steps[i - 1]);
    }
  }

  /**
   In a run where no process waits with two threads at once, the unwrapped removal never
   fails, and a parent that reported its child as the child's tracer never reports it again.
   */
  lemma SoloRunReportsOnce(states: seq<Sys>, steps: seq<WStep>, i: nat)
    requires IsWRun(states, steps) && i < |states|
    requires forall k :: 0 <= k < i ==> Solo(states[k])
    ensures !states[i].broken
    ensures forall r, r' ::
              && r in states[i].reports && r' in states[i].reports && r.subject == r'.subject
              && r.TraceeExit? && r.wasParent
              ==> r' == r
  {
    SoloRunKeeps(states, steps, i);
    var s := states[i];
    forall r, r' | r in s.reports && r' in s.reports && r.subject == r'.subject && r.TraceeExit? && r.wasParent
      ensures r' == r
    {
      assert SettledOk(s, r) && SubjectOk(s, r.subject);
      assert r'.ZombieChild? ==> Reported(s, r.subject, false);
    }
  }
}
