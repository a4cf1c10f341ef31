/**
 No child-exit wake-up is lost.

 A waiting thread that has examined a child and not found it ready is woken once the child
 is, however the child's exit, the exits of its parents and the hand-overs between them
 interleave, with one exception: a tracer that exits without reporting its zombie tracee.
 */
module WaitWakeups {
  import opened Prelude
  import opened ProcessTree
  import opened TreeInvariant
  import opened TreeProgress
  import opened WaitProtocol
  import opened WaitInvariant

  // ---- The invariant ----

  /** Evaluations that happen after the waker was enqueued. */
  predicate InLoop(pc: WaitPc) {
    match pc
    case Tracees(fast) => !fast
    case Children(fast, _) => !fast
    case Scanning(fast, _, _) => !fast
    case Asleep => true
    case _ => false
  }

  /** The thread has looked at child `c` since it enqueued its waker. */
  predicate Examined(pc: WaitPc, c: Pid) {
    pc.Asleep? || (pc.Scanning? && !pc.fast && c in pc.seen)
  }

  /** A thread that is about to reap `c` or to wake its parent `q`. */
  predicate Attends(pc: WaitPc, q: Pid, c: Pid) {
    pc == Detached(c) || pc == OurChild(c) || (pc.WakingOwner? && pc.target == q)
  }

  /** Somebody still has the wake of `q` on behalf of its zombie child `c` ahead of it. */
  ghost predicate Covered(s: Sys, q: Pid, c: Pid) {
    || (c in s.tree.procs && s.tree.procs[c].pc.ReadingParent?)
    || (exists e :: e in s.tree.procs && Rings(s.tree.procs[e].pc, q))
    || (exists u :: u in s.waiters && Attends(s.waiters[u].pc, q, c))
  }

  ghost predicate QueueOk(s: Sys, w: nat) {
    w in s.waiters && InLoop(s.waiters[w].pc) ==> s.waiters[w].queued || s.waiters[w].woken
  }

  ghost predicate CoverOk(s: Sys, w: nat, c: Pid) {
    w in s.waiters && !s.waiters[w].woken && Examined(s.waiters[w].pc, c)
    && Holds(s.tree, s.waiters[w].owner, c) && ReadyChild(s, s.waiters[w], c) && c !in s.abandoned
    ==> Covered(s, s.waiters[w].owner, c)
  }

  ghost predicate WakeInv(s: Sys) {
    && (forall w {:trigger QueueOk(s, w)} :: QueueOk(s, w))
    && (forall w, c {:trigger CoverOk(s, w, c)} :: CoverOk(s, w, c))
  }

  // ---- Life-cycle steps ----

  lemma ReaderBecomesWaker(s: Sys, q: Pid, c: Pid, held: bool)
    requires BaseOk(s) && Holds(s.tree, q, c) && At(s.tree, c).pc.ReadingParent?
    ensures NextPc(s.tree, c, held) == WakingParent(q)
  {
    ParentIsOwned(s.tree, c);
  }

  /** A process that is about to wake `q` stays so through every step but that wake. */
  lemma TreeKeepsRinger(s: Sys, step: Step, q: Pid, e: Pid)
    requires BaseOk(s) && Enabled(s.tree, step) && !step.Reap?
    requires e in s.tree.procs && Rings(s.tree.procs[e].pc, q) && Rung(s, step) != Some(q)
    ensures var t' := Apply(s.tree, step); e in t'.procs && Rings(t'.procs[e].pc, q)
  {
    if step.ExitAdvance? { ExitStepShape(s.tree, step.p, step.held); } else { StepShape(s.tree, step); }
  }

  /** A zombie about to read its parent link goes on to wake the parent that holds it. */
  lemma TreeKeepsReader(s: Sys, step: Step, q: Pid, c: Pid)
    requires BaseOk(s) && Enabled(s.tree, step) && !step.Reap?
    requires Holds(s.tree, q, c) && c in s.tree.procs && s.tree.procs[c].pc.ReadingParent?
    ensures var t' := Apply(s.tree, step);
            c in t'.procs && (t'.procs[c].pc.ReadingParent? || Rings(t'.procs[c].pc, q))
  {
    if step.ExitAdvance? { ExitStepShape(s.tree, step.p, step.held); } else { StepShape(s.tree, step); }
    if step.ExitAdvance? && step.p == c { ReaderBecomesWaker(s, q, c, step.held); }
  }

  /** A pending wake of `q` stays pending through every step that does not deliver it. */
  lemma TreeKeepsCover(s: Sys, step: Step, q: Pid, c: Pid)
    requires BaseOk(s) && Enabled(s.tree, step) && !step.Reap?
    requires Holds(s.tree, q, c) && Covered(s, q, c) && Rung(s, step) != Some(q)
    ensures Covered(DoTree(s, step), q, c)
  {
    var s' := DoTree(s, step);
    if c in s.tree.procs && s.tree.procs[c].pc.ReadingParent? {
      TreeKeepsReader(s, step, q, c);
    } else if exists e :: e in s.tree.procs && Rings(s.tree.procs[e].pc, q) {
      var e :| e in s.tree.procs && Rings(s.tree.procs[e].pc, q);
      TreeKeepsRinger(s, step, q, e);
    } else {
      var u :| u in s.waiters && Attends(s.waiters[u].pc, q, c);
      assert u in s'.waiters && Attends(s'.waiters[u].pc, q, c);
    }
  }

  /** A zombie child kept from a waiting thread by its tracer, or abandoned, stays so. */
  lemma StillUnready(s: Sys, step: Step, q: Pid, c: Pid)
    requires BaseOk(s) && Enabled(s.tree, step) && IsRunning(s.tree, q)
    requires Holds(s.tree, q, c) && IsZombie(s, c) && (c in s.tracer || c in s.abandoned)
    ensures c in DoTree(s, step).tracer || c in DoTree(s, step).abandoned
  {
    assert c in Adopted(s, step) ==> Holds(s.tree, step.p, c);
    assert c in s.tracer && step.ExitAdvance? && s.tracer[c] == step.p ==> c in ZombieTracees(s, step.p);
  }

  /** A child that was not ready before the step and is ready after it is covered. */
  lemma TreeCoversNew(s: Sys, step: Step, w: nat, c: Pid)
    requires BaseOk(s) && Enabled(s.tree, step) && TreeStepFree(s, step) && w in s.waiters
    requires var s' := DoTree(s, step);
             var wt := s.waiters[w];
             && Holds(s'.tree, wt.owner, c) && ReadyChild(s', wt, c) && c !in s'.abandoned
             && !(Holds(s.tree, wt.owner, c) && ReadyChild(s, wt, c) && c !in s.abandoned)
    ensures Covered(DoTree(s, step), s.waiters[w].owner, c)
  {
    var s' := DoTree(s, step);
    var q := s.waiters[w].owner;
    StepEffect(s.tree, step);
    assert FreshZombie(s.tree, s'.tree, c) && FreshChild(s.tree, s'.tree, q, c);
    assert WaiterOk(s, w);
    assert !(Holds(s.tree, q, c) && IsZombie(s, c)) by {
      if Holds(s.tree, q, c) && IsZombie(s, c) { StillUnready(s, step, q, c); }
    }
  }

  lemma TreeKeepsWake(s: Sys, step: Step)
    requires BaseOk(s) && WakeInv(s) && Enabled(s.tree, step) && TreeStepFree(s, step)
    ensures WakeInv(DoTree(s, step))
  {
    var s' := DoTree(s, step);
    forall w ensures QueueOk(s', w) { assert QueueOk(s, w); }
    forall w, c ensures CoverOk(s', w, c) {
      assert CoverOk(s, w, c) && QueueOk(s, w);
      if w in s.waiters && !s'.waiters[w].woken && Examined(s.waiters[w].pc, c)
         && Holds(s'.tree, s.waiters[w].owner, c) && ReadyChild(s', s.waiters[w], c) && c !in s'.abandoned
      {
        var q := s.waiters[w].owner;
        assert Rung(s, step) != Some(q);
        if Holds(s.tree, q, c) && ReadyChild(s, s.waiters[w], c) && c !in s.abandoned {
          TreeKeepsCover(s, step, q, c);
        } else {
          TreeCoversNew(s, step, w, c);
        }
      }
    }
  }

  // ---- Steps of waiting threads and tracers ----

  /** If `w` has examined the ready child `c` after the step, it had before. */
  ghost predicate LooksAsBefore(s: Sys, s': Sys, w: nat, c: Pid) {
    (w in s'.waiters && Examined(s'.waiters[w].pc, c)
     && Holds(s.tree, s'.waiters[w].owner, c) && ReadyChild(s, s'.waiters[w], c))
    ==>
      (w in s.waiters && Examined(s.waiters[w].pc, c)
       && s.waiters[w].owner == s'.waiters[w].owner && s.waiters[w].filter == s'.waiters[w].filter
       && s.waiters[w].woken == s'.waiters[w].woken)
  }

  /** A step of `w` that leaves the tree alone and takes over what `w` was attending to. */
  lemma LocalKeepsWake(s: Sys, s': Sys, w: nat)
    requires WakeInv(s) && s'.tree == s.tree && s'.tracer == s.tracer && s'.abandoned == s.abandoned
    requires forall u :: u != w ==>
               (u in s'.waiters <==> u in s.waiters) && (u in s.waiters ==> s'.waiters[u] == s.waiters[u])
    requires w in s.waiters ==>
               !s.waiters[w].pc.Detached? && !s.waiters[w].pc.OurChild? && !s.waiters[w].pc.WakingOwner?
    requires QueueOk(s', w)
    requires forall c {:trigger LooksAsBefore(s, s', w, c)} :: LooksAsBefore(s, s', w, c)
    ensures WakeInv(s')
  {
    forall u ensures QueueOk(s', u) { assert QueueOk(s, u); }
    forall u, c ensures CoverOk(s', u, c) {
      assert CoverOk(s, u, c) && LooksAsBefore(s, s', w, c);
      if Covered(s, WaiterAt(s', u).owner, c) { LocalKeepsCover(s, s', w, WaiterAt(s', u).owner, c); }
    }
  }

  lemma LocalKeepsCover(s: Sys, s': Sys, w: nat, q: Pid, c: Pid)
    requires s'.tree == s.tree && Covered(s, q, c)
    requires forall u :: u != w && u in s.waiters ==> u in s'.waiters && s'.waiters[u].pc == s.waiters[u].pc
    requires w in s.waiters ==> !Attends(s.waiters[w].pc, q, c)
    ensures Covered(s', q, c)
  {
    if exists u :: u in s.waiters && Attends(s.waiters[u].pc, q, c) {
      var u :| u in s.waiters && Attends(s.waiters[u].pc, q, c);
      assert u in s'.waiters && Attends(s'.waiters[u].pc, q, c);
    }
  }

  lemma MovingKeepsWake(s: Sys, step: WStep)
    requires BaseOk(s) && WakeInv(s) && WEnabled(s, step)
    requires OnlyMoves(step) && !step.WakeOwner? && !step.ScanDone?
    ensures WakeInv(WApply(s, step))
  {
    assert QueueOk(s, step.w);
    LocalKeepsWake(s, WApply(s, step), step.w);
  }

  lemma ScanDoneKeepsWake(s: Sys, w: nat)
    requires WakeInv(s) && WEnabled(s, ScanDone(w))
    ensures WakeInv(DoScanDone(s, w, s.waiters[w]))
  {
    assert QueueOk(s, w);
    LocalKeepsWake(s, DoScanDone(s, w, s.waiters[w]), w);
  }

  lemma WakeOwnerKeepsWake(s: Sys, w: nat)
    requires WakeInv(s) && w in s.waiters && s.waiters[w].pc.WakingOwner?
    ensures WakeInv(Leave(s, w).(waiters := WakeAll(s.waiters - {w}, s.waiters[w].pc.target)))
  {
    var target := s.waiters[w].pc.target;
    var s' := Leave(s, w).(waiters := WakeAll(s.waiters - {w}, target));
    forall u ensures QueueOk(s', u) { assert QueueOk(s, u); }
    forall u, c ensures CoverOk(s', u, c) {
      assert CoverOk(s, u, c) && QueueOk(s, u);
      if u in s'.waiters && !s'.waiters[u].woken && Examined(s'.waiters[u].pc, c)
         && Covered(s, s'.waiters[u].owner, c)
      {
        LocalKeepsCover(s, s', w, s'.waiters[u].owner, c);
      }
    }
  }

  lemma ScanKeepsWake(s: Sys, w: nat, c: Pid)
    requires BaseOk(s) && WakeInv(s) && w in s.waiters && s.waiters[w].pc.Scanning?
    requires Holds(s.tree, s.waiters[w].owner, c)
    ensures WakeInv(DoScanChild(s, w, s.waiters[w], c))
  {
    var wt := s.waiters[w];
    assert QueueOk(s, w);
    if ReadyChild(s, wt, c) && wt.consume {
      ReapKeepsWake(s, w, c, Log(Leave(s, w).(tree := DoReap(s.tree, wt.owner, c)), true, ZombieChild(wt.owner, c)));
    } else {
      LocalKeepsWake(s, DoScanChild(s, w, wt, c), w);
    }
  }

  /** Reaping `c` ends the need to wake anybody for `c` and disturbs no other pending wake. */
  lemma ReapKeepsWake(s: Sys, w: nat, c: Pid, s': Sys)
    requires BaseOk(s) && WakeInv(s) && w in s.waiters
    requires s.waiters[w].pc.Scanning? || s.waiters[w].pc == OurChild(c)
    requires Holds(s.tree, s.waiters[w].owner, c) && IsZombie(s, c)
    requires s'.tree == DoReap(s.tree, s.waiters[w].owner, c) && s'.waiters == s.waiters - {w}
    requires s'.tracer == s.tracer && s'.abandoned == s.abandoned
    ensures WakeInv(s')
  {
    ReapEffect(s.tree, s.waiters[w].owner, c);
    forall u ensures QueueOk(s', u) { assert QueueOk(s, u); }
    forall u, d ensures CoverOk(s', u, d) {
      assert CoverOk(s, u, d);
      if u in s'.waiters && d != c && Covered(s, s'.waiters[u].owner, d) {
        ReapKeepsCover(s, w, c, s', s'.waiters[u].owner, d);
      }
    }
  }

  lemma ReapKeepsCover(s: Sys, w: nat, c: Pid, s': Sys, q: Pid, d: Pid)
    requires w in s.waiters && (s.waiters[w].pc.Scanning? || s.waiters[w].pc == OurChild(c)) && d != c
    requires s'.waiters == s.waiters - {w} && s'.tree.procs.Keys == s.tree.procs.Keys
    requires forall p :: p in s.tree.procs ==> s'.tree.procs[p].pc == s.tree.procs[p].pc
    requires Covered(s, q, d)
    ensures Covered(s', q, d)
  {
    if exists e :: e in s.tree.procs && Rings(s.tree.procs[e].pc, q) {
      var e :| e in s.tree.procs && Rings(s.tree.procs[e].pc, q);
      assert e in s'.tree.procs && Rings(s'.tree.procs[e].pc, q);
    } else if exists u :: u in s.waiters && Attends(s.waiters[u].pc, q, d) {
      var u :| u in s.waiters && Attends(s.waiters[u].pc, q, d);
      assert u in s'.waiters && Attends(s'.waiters[u].pc, q, d);
    }
  }

  lemma TraceeFoundKeepsWake(s: Sys, w: nat, z: Pid)
    requires BaseOk(s) && WakeInv(s) && w in s.waiters && s.waiters[w].pc.Tracees?
    requires ReadyTracee(s, s.waiters[w], z)
    ensures WakeInv(DoTraceeFound(s, w, s.waiters[w], z))
  {
    var s' := DoTraceeFound(s, w, s.waiters[w], z);
    forall u ensures QueueOk(s', u) { assert QueueOk(s, u); }
    forall u, c ensures CoverOk(s', u, c) {
      assert CoverOk(s, u, c);
      if u in s'.waiters && Examined(s'.waiters[u].pc, c) {
        if c == z {
          assert s.waiters[w].consume ==> w in s'.waiters && Attends(s'.waiters[w].pc, s'.waiters[u].owner, c);
        } else if Covered(s, s'.waiters[u].owner, c) {
          LocalKeepsCover(s, s', w, s'.waiters[u].owner, c);
        }
      }
    }
  }

  lemma DetachedGoesOn(s: Sys, w: nat, z: Pid, q: Pid, held: bool)
    requires BaseOk(s) && w in s.waiters && s.waiters[w].pc == Detached(z) && Holds(s.tree, q, z)
    ensures var s' := DoDetached(s, w, s.waiters[w], z, held);
            w in s'.waiters && Attends(s'.waiters[w].pc, q, z)
  {
    ParentIsOwned(s.tree, z);
  }

  /** `w` goes on with, or drops, the tracee `z` it has detached; nothing else changes. */
  lemma DetachedShape(s: Sys, w: nat, z: Pid, held: bool)
    requires w in s.waiters && s.waiters[w].pc == Detached(z)
    ensures var s' := DoDetached(s, w, s.waiters[w], z, held);
            && s'.tree == s.tree && s'.tracer == s.tracer && s'.abandoned == s.abandoned
            && (forall u :: u != w ==>
                  (u in s'.waiters <==> u in s.waiters) && (u in s.waiters ==> s'.waiters[u] == s.waiters[u]))
            && (w in s'.waiters ==> s'.waiters[w].pc.OurChild? || s'.waiters[w].pc.WakingOwner?)
  {
  }

  lemma DetachedKeepsWake(s: Sys, w: nat, z: Pid, held: bool)
    requires BaseOk(s) && WakeInv(s) && w in s.waiters && s.waiters[w].pc == Detached(z)
    ensures WakeInv(DoDetached(s, w, s.waiters[w], z, held))
  {
    var s' := DoDetached(s, w, s.waiters[w], z, held);
    DetachedShape(s, w, z, held);
    forall u ensures QueueOk(s', u) { assert QueueOk(s, u); }
    forall u, c ensures CoverOk(s', u, c) {
      assert CoverOk(s, u, c);
      if u in s'.waiters && u != w && Holds(s.tree, s.waiters[u].owner, c) && Covered(s, s.waiters[u].owner, c) {
        if c == z {
          DetachedGoesOn(s, w, z, s.waiters[u].owner, held);
        } else {
          LocalKeepsCover(s, s', w, s.waiters[u].owner, c);
        }
      }
    }
  }

  lemma OurChildKeepsWake(s: Sys, w: nat, z: Pid)
    requires BaseOk(s) && WakeInv(s) && w in s.waiters && s.waiters[w].pc == OurChild(z)
    ensures WakeInv(DoOurChild(s, w, s.waiters[w], z))
  {
    var s' := DoOurChild(s, w, s.waiters[w], z);
    if Holds(s.tree, s.waiters[w].owner, z) && IsZombie(s, z) {
      ReapKeepsWake(s, w, z, s');
    } else {
      forall u ensures QueueOk(s', u) { assert QueueOk(s, u); }
      forall u, c ensures CoverOk(s', u, c) { assert CoverOk(s, u, c); }
    }
  }

  lemma ClearKeepsWake(s: Sys, t: Pid)
    requires WakeInv(s)
    ensures WakeInv(DoClearTracees(s, t))
  {
    var s' := DoClearTracees(s, t);
    forall u ensures QueueOk(s', u) { assert QueueOk(s, u); }
    forall u, c ensures CoverOk(s', u, c) {
      assert CoverOk(s, u, c);
      if IsZombie(s, c) && c in s.tracer && s.tracer[c] == t { assert c in ZombieTracees(s, t); }
    }
  }

  lemma AttachKeepsWake(s: Sys, z: Pid, t: Pid)
    requires WakeInv(s)
    ensures WakeInv(s.(tracer := s.tracer[z := t]))
  {
    var s' := s.(tracer := s.tracer[z := t]);
    forall u ensures QueueOk(s', u) { assert QueueOk(s, u); }
    forall u, c ensures CoverOk(s', u, c) { assert CoverOk(s, u, c); }
  }

  lemma WaitStartKeepsWake(s: Sys, step: WStep)
    requires WakeInv(s) && WEnabled(s, step) && step.WaitStart?
    ensures WakeInv(WApply(s, step))
  {
    LocalKeepsWake(s, WApply(s, step), step.w);
  }

  lemma StepKeepsWake(s: Sys, step: WStep)
    requires BaseOk(s) && WakeInv(s) && WEnabled(s, step)
    ensures WakeInv(WApply(s, step))
  {
    match step
    case TreeStep(ts) => TreeKeepsWake(s, ts);
    case ScanChild(w, c) => ScanKeepsWake(s, w, c);
    case ScanDone(w) => ScanDoneKeepsWake(s, w);
    case ReapOurChild(w) => OurChildKeepsWake(s, w, s.waiters[w].pc.subject);
    case Attach(z, t) => AttachKeepsWake(s, z, t);
    case ClearTracees(t) => ClearKeepsWake(s, t);
    case WaitStart(_, _, _, _, _) => WaitStartKeepsWake(s, step);
    case TraceeFound(w, z) => TraceeFoundKeepsWake(s, w, z);
    case DetachedNext(w, held) => DetachedKeepsWake(s, w, s.waiters[w].pc.subject, held);
    case WakeOwner(w) => WakeOwnerKeepsWake(s, w);
    case _ => MovingKeepsWake(s, step);
  }

  lemma {:induction false} RunKeepsWake(states: seq<Sys>, steps: seq<WStep>, i: nat)
    requires IsWRun(states, steps) && i < |states|
    ensures BaseOk(states[i]) && WakeInv(states[i])
  {
    if i == 0 {
      BootInv();
    } else {
      RunKeepsWake(states, steps, i - 1);
      assert WNext(states[i - 1], steps[i - 1], states[i]);
      StepKeepsBase(states[i - 1], steps[i - 1]);
      StepKeepsWake(states[i - 1], steps[i - 1]);
    }
  }

  // ---- The theorem ----

  /**
   In every reachable state, a thread that sleeps without having been woken has no ready
   child, unless somebody still has the wake for that child ahead of it or the child is a
   zombie that its tracer abandoned.
   */
  lemma NoLostChildWakeup(s: Sys, w: nat, c: Pid)
    requires WReachable(s) && w in s.waiters && s.waiters[w].pc.Asleep? && !s.waiters[w].woken
    requires Holds(s.tree, s.waiters[w].owner, c) && At(s.tree, c).zombie && c in s.tree.procs && c !in s.tracer
    requires s.waiters[w].filter == AnyChild || s.waiters[w].filter == OnlyChild(c)
    ensures s.waiters[w].queued
    ensures c in s.abandoned || Covered(s, s.waiters[w].owner, c)
  {
    var states, steps :| IsWRun(states, steps) && states[|steps|] == s;
    RunKeepsWake(states, steps, |steps|);
    assert CoverOk(s, w, c) && QueueOk(s, w);
  }

  /** Where nothing was abandoned there is no exception, and once all exits are over nobody is left asleep. */
  lemma QuietMeansAwake(s: Sys, w: nat, c: Pid)
    requires WReachable(s) && w in s.waiters && s.waiters[w].pc.Asleep?
    requires Holds(s.tree, s.waiters[w].owner, c) && At(s.tree, c).zombie && c in s.tree.procs && c !in s.tracer
    requires s.waiters[w].filter == AnyChild || s.waiters[w].filter == OnlyChild(c)
    requires s.abandoned == {}
    requires forall e :: e in s.tree.procs ==> s.tree.procs[e].pc.Running? || s.tree.procs[e].pc.Exited?
    requires forall u :: u in s.waiters ==> s.waiters[u].pc.Asleep?
    ensures s.waiters[w].woken
  {
    if !s.waiters[w].woken { NoLostChildWakeup(s, w, c); }
  }
}
