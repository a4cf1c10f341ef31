/**
 What the life-cycle steps look like to waiting threads, and the basic invariant of the
 combined machine.
 */
module WaitInvariant {
  import opened ProcessTree
  import opened TreeInvariant
  import opened TreeProgress
  import opened WaitProtocol

  // ---- What the life-cycle steps do, as far as waiting threads can tell ----

  /** The program counter of an exit that is about to wake the queue of `q`. */
  predicate Rings(pc: ExitPc, q: Pid) {
    pc == WakingReaper(q) || pc == WakingParent(q)
  }

  /** Zombies stay zombies, nobody is reaped, and running processes keep running. */
  ghost predicate Persists(t: State, t': State, p: Pid) {
    p in t.procs ==>
      && p in t'.procs
      && (t.procs[p].zombie ==> t'.procs[p].zombie)
      && t'.procs[p].reaped == t.procs[p].reaped
  }

  /** A process has just become a zombie only if it is about to read its parent link. */
  ghost predicate FreshZombie(t: State, t': State, p: Pid) {
    p in t'.procs && t'.procs[p].zombie && !(p in t.procs && t.procs[p].zombie) ==>
      t'.procs[p].pc.ReadingParent?
  }

  /** A zombie turns up in a children map only together with a pending wake of its owner. */
  ghost predicate FreshChild(t: State, t': State, q: Pid, c: Pid) {
    Holds(t', q, c) && !Holds(t, q, c) && At(t', c).zombie ==>
      exists e :: e in t'.procs && Rings(t'.procs[e].pc, q)
  }

  ghost predicate TreeEffect(t: State, t': State) {
    && (forall p {:trigger Persists(t, t', p)} :: Persists(t, t', p))
    && (forall p {:trigger FreshZombie(t, t', p)} :: FreshZombie(t, t', p))
    && (forall q, c {:trigger FreshChild(t, t', q, c)} :: FreshChild(t, t', q, c))
  }

  lemma MoveEffect(t: State, p: Pid, r: Pid, fallback: bool, limit: nat)
    requires Inv(t) && p in t.procs && t.procs[p].pc == Moving(r, fallback, limit)
    ensures TreeEffect(t, DoMove(t, p, r, fallback, limit))
  {
    var t' := DoMove(t, p, r, fallback, limit);
    assert ProcOk(t, p) && ProcOk(t, INIT);
    if t.procs[r].children.Some? {
      MoveHolds(t, p, r);
      forall q, c ensures FreshChild(t, t', q, c) {
        if Holds(t', q, c) && !Holds(t, q, c) { assert Rings(t'.procs[p].pc, q); }
      }
    }
  }

  lemma ExitEffect(t: State, p: Pid, held: bool)
    requires Inv(t) && p in t.procs
    ensures TreeEffect(t, DoExit(t, p, held))
  {
    var pc := t.procs[p].pc;
    if pc.Moving? {
      MoveEffect(t, p, pc.reaper, pc.fallback, pc.limit);
    } else {
      var pc' := NextPc(t, p, held);
      var t' := DoExit(t, p, held);
      assert forall q, c :: Holds(t', q, c) <==> Holds(t, q, c);
    }
  }

  lemma LinkEffect(t: State, u: nat)
    requires Inv(t) && u in t.cloners && t.cloners[u].pc.Locking?
    ensures TreeEffect(t, DoCloneLink(t, u))
  {
    var t' := DoCloneLink(t, u);
    if At(t, t.cloners[u].pc.target).children.Some? {
      CloneLinkHolds(t, u);
      assert forall q, c :: Holds(t', q, c) ==> Holds(t, q, c) || c == t.cloners[u].child;
    }
  }

  /** Neither a children map nor a zombie or reaped flag changes. */
  ghost predicate SameLives(t: State, t': State) {
    && t'.procs.Keys == t.procs.Keys
    && forall p :: p in t.procs ==>
         && t'.procs[p].children == t.procs[p].children
         && t'.procs[p].zombie == t.procs[p].zombie && t'.procs[p].reaped == t.procs[p].reaped
  }

  lemma SameLivesEffect(t: State, t': State)
    requires SameLives(t, t')
    ensures TreeEffect(t, t')
  {
    assert forall q, c :: Holds(t', q, c) <==> Holds(t, q, c);
  }

  lemma AsideLives(t: State, step: Step)
    requires Enabled(t, step) && !step.Reap? && !step.CloneLink? && !step.ExitAdvance?
    ensures SameLives(t, Apply(t, step))
  {
  }

  lemma StepEffect(t: State, step: Step)
    requires Inv(t) && Enabled(t, step) && !step.Reap?
    ensures TreeEffect(t, Apply(t, step))
  {
    match step
    case ExitAdvance(p, held) => ExitEffect(t, p, held);
    case CloneLink(u) => LinkEffect(t, u);
    case Reap(_, _) => assert false;
    case _ =>
      AsideLives(t, step);
      SameLivesEffect(t, Apply(t, step));
  }

  // ---- The basic invariant ----

  ghost predicate WaiterOk(s: Sys, w: nat) {
    w in s.waiters ==>
      var wt := s.waiters[w];
      && IsRunning(s.tree, wt.owner)
      && (wt.pc.Detached? || wt.pc.OurChild? ==>
            IsZombie(s, wt.pc.subject) && wt.pc.subject !in s.tracer)
  }

  ghost predicate TracedOk(s: Sys, z: Pid) {
    z in s.tracer ==> z in s.tree.procs && !s.tree.procs[z].reaped
  }

  ghost predicate BaseOk(s: Sys) {
    && Inv(s.tree)
    && (forall w {:trigger WaiterOk(s, w)} :: WaiterOk(s, w))
    && (forall z {:trigger TracedOk(s, z)} :: TracedOk(s, z))
  }

  lemma TreeStepKeepsBase(s: Sys, step: Step)
    requires BaseOk(s) && Enabled(s.tree, step) && TreeStepFree(s, step)
    ensures BaseOk(DoTree(s, step))
  {
    var s' := DoTree(s, step);
    StepKeepsInv(s.tree, step);
    StepEffect(s.tree, step);
    forall w ensures WaiterOk(s', w) {
      assert WaiterOk(s, w);
      if w in s.waiters {
        assert step != ExitStart(s.waiters[w].owner);
        StepKeepsRunning(s.tree, step, s.waiters[w].owner);
        if s.waiters[w].pc.Detached? || s.waiters[w].pc.OurChild? {
          assert Persists(s.tree, s'.tree, s.waiters[w].pc.subject);
        }
      }
    }
    forall z ensures TracedOk(s', z) {
      assert TracedOk(s, z) && Persists(s.tree, s'.tree, z);
    }
  }

  /** Reaping seen from the waiting threads: only `c` leaves, and only `owner`'s map changes. */
  lemma ReapEffect(t: State, owner: Pid, c: Pid)
    requires Inv(t) && Holds(t, owner, c) && At(t, c).zombie
    ensures var t' := DoReap(t, owner, c);
            && Inv(t') && t'.procs.Keys == t.procs.Keys && c in t.procs && !t.procs[c].reaped
            && (forall q, d :: Holds(t', q, d) <==> Holds(t, q, d) && d != c)
            && (forall p :: p in t.procs ==>
                  && t'.procs[p].pc == t.procs[p].pc && t'.procs[p].zombie == t.procs[p].zombie
                  && t'.procs[p].parent == t.procs[p].parent
                  && t'.procs[p].reaped == (t.procs[p].reaped || p == c))
  {
    ReapHolds(t, owner, c);
    ReapKeeps(t, owner, c);
  }

  lemma ScanKeepsBase(s: Sys, w: nat, c: Pid)
    requires BaseOk(s) && w in s.waiters && s.waiters[w].pc.Scanning?
    requires Holds(s.tree, s.waiters[w].owner, c)
    ensures BaseOk(DoScanChild(s, w, s.waiters[w], c))
  {
    var wt := s.waiters[w];
    var s' := DoScanChild(s, w, wt, c);
    if ReadyChild(s, wt, c) && wt.consume { ReapEffect(s.tree, wt.owner, c); }
    forall u ensures WaiterOk(s', u) { assert WaiterOk(s, u); }
    forall z ensures TracedOk(s', z) { assert TracedOk(s, z); }
  }

  lemma OurChildKeepsBase(s: Sys, w: nat, z: Pid)
    requires BaseOk(s) && w in s.waiters && s.waiters[w].pc == OurChild(z)
    ensures BaseOk(DoOurChild(s, w, s.waiters[w], z))
  {
    var wt := s.waiters[w];
    var s' := DoOurChild(s, w, wt, z);
    assert WaiterOk(s, w);
    if Holds(s.tree, wt.owner, z) { ReapEffect(s.tree, wt.owner, z); }
    forall u ensures WaiterOk(s', u) { assert WaiterOk(s, u); }
    forall x ensures TracedOk(s', x) { assert TracedOk(s, x); }
  }

  /** A step of the waiting thread `w`, or of a tracer, that leaves the tree alone. */
  lemma LocalKeepsBase(s: Sys, s': Sys, w: nat)
    requires BaseOk(s) && s'.tree == s.tree && s'.tracer.Keys <= s.tracer.Keys
    requires forall u :: u in s'.waiters && u != w ==>
               && u in s.waiters && s'.waiters[u].owner == s.waiters[u].owner
               && s'.waiters[u].pc == s.waiters[u].pc
    requires WaiterOk(s', w)
    ensures BaseOk(s')
  {
    forall u ensures WaiterOk(s', u) { assert WaiterOk(s, u); }
    forall z ensures TracedOk(s', z) { assert TracedOk(s, z); }
  }

  lemma AttachKeepsBase(s: Sys, z: Pid, t: Pid)
    requires BaseOk(s) && IsRunning(s.tree, z)
    ensures BaseOk(s.(tracer := s.tracer[z := t]))
  {
    var s' := s.(tracer := s.tracer[z := t]);
    assert ProcOk(s.tree, z);
    forall u ensures WaiterOk(s', u) { assert WaiterOk(s, u); }
    forall x ensures TracedOk(s', x) { assert TracedOk(s, x); }
  }

  /** The steps of a waiting thread that only move it along. */
  predicate OnlyMoves(step: WStep) {
    step.TraceesNone? || step.LockChildren? || step.ScanDone? || step.EnqueueSelf? || step.WakeUp?
    || step.GiveUp? || step.WakeOwner?
  }

  lemma MovingKeepsBase(s: Sys, step: WStep)
    requires BaseOk(s) && WEnabled(s, step) && OnlyMoves(step)
    ensures BaseOk(WApply(s, step))
  {
    assert WaiterOk(s, step.w);
    LocalKeepsBase(s, WApply(s, step), step.w);
  }

  lemma TraceeFoundKeepsBase(s: Sys, w: nat, z: Pid)
    requires BaseOk(s) && w in s.waiters && ReadyTracee(s, s.waiters[w], z)
    ensures BaseOk(DoTraceeFound(s, w, s.waiters[w], z))
  {
    assert WaiterOk(s, w);
    LocalKeepsBase(s, DoTraceeFound(s, w, s.waiters[w], z), w);
  }

  lemma DetachedKeepsBase(s: Sys, w: nat, z: Pid, held: bool)
    requires BaseOk(s) && w in s.waiters && s.waiters[w].pc == Detached(z)
    ensures BaseOk(DoDetached(s, w, s.waiters[w], z, held))
  {
    var wt, q := s.waiters[w], At(s.tree, z).parent;
    assert WaiterOk(s, w);
    if q == wt.owner {
      LocalKeepsBase(s, SetWaitPc(s, w, wt, OurChild(z)), w);
    } else {
      LocalKeepsBase(s, SetWaitPc(s, w, wt, WakingOwner(z, q)), w);
      LocalKeepsBase(s, Leave(s, w), w);
    }
  }

  lemma StepKeepsBase(s: Sys, step: WStep)
    requires BaseOk(s) && WEnabled(s, step)
    ensures BaseOk(WApply(s, step))
  {
    match step
    case TreeStep(ts) => TreeStepKeepsBase(s, ts);
    case ScanChild(w, c) => ScanKeepsBase(s, w, c);
    case ReapOurChild(w) => OurChildKeepsBase(s, w, s.waiters[w].pc.subject);
    case Attach(z, t) => AttachKeepsBase(s, z, t);
    case ClearTracees(t) =>
      assert WaiterOk(s, 0);
      LocalKeepsBase(s, DoClearTracees(s, t), 0);
    case WaitStart(w, _, _, _, _) => LocalKeepsBase(s, WApply(s, step), w);
    case TraceeFound(w, z) => TraceeFoundKeepsBase(s, w, z);
    case DetachedNext(w, held) => DetachedKeepsBase(s, w, s.waiters[w].pc.subject, held);
    case _ => MovingKeepsBase(s, step);
  }
}
