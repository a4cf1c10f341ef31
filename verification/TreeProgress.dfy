/**
 Progress under arbitrary interference: parent links only ever move to older processes, so
 the lock-free reaper walk and the CLONE_PARENT retry loop both end, whatever the other
 processes do meanwhile.
 */
module TreeProgress {
  import opened ProcessTree
  import opened TreeInvariant

  // ---- Parent links only move to older processes ----

  ghost predicate LinksShrink(s: State, s': State) {
    && s.procs.Keys <= s'.procs.Keys
    && forall i {:trigger LinkTerm(s', i)} :: LinkTerm(s', i) <= LinkTerm(s, i)
  }

  /** A step of `p`'s exit keeps the other program counters and moves links only to older processes. */
  ghost predicate ExitShape(s: State, p: Pid, s': State) {
    && s'.procs.Keys == s.procs.Keys
    && (forall q :: q in s.procs && q != p ==> s'.procs[q].pc == s.procs[q].pc)
    && (forall q :: q in s.procs ==> s'.procs[q].parent <= s.procs[q].parent)
  }

  lemma MoveShape(s: State, p: Pid, r: Pid, fallback: bool, limit: nat)
    requires TreeOk(s) && p in s.procs && r in s.procs && r < p && s.procs[p].children.Some?
    ensures ExitShape(s, p, DoMove(s, p, r, fallback, limit))
  {
    if s.procs[r].children.Some? { MoveHolds(s, p, r); }
  }

  lemma ExitStepShape(s: State, p: Pid, held: bool)
    requires Inv(s) && p in s.procs
    ensures ExitShape(s, p, DoExit(s, p, held))
  {
    assert ProcOk(s, p);
    var pc := s.procs[p].pc;
    if pc.Moving? { MoveShape(s, p, pc.reaper, pc.fallback, pc.limit); }
  }

  /** The step is a hand-over by `q` to a reaper that takes children. */
  predicate Moves(t: State, step: Step, q: Pid) {
    step.ExitAdvance? && step.p == q && At(t, q).pc.Moving? && At(t, At(t, q).pc.reaper).children.Some?
  }

  /** What is left of the process map when only the phase of `p` changes. */
  ghost predicate OnlyPhase(procs: map<Pid, Proc>, procs': map<Pid, Proc>, p: Pid) {
    p in procs && p in procs' && procs' == procs[p := procs[p].(pc := procs'[p].pc, zombie := procs'[p].zombie)]
  }

  lemma SamePhase(procs: map<Pid, Proc>, p: Pid)
    requires p in procs
    ensures OnlyPhase(procs, procs, p)
  {
    assert procs == procs[p := procs[p]];
  }

  /** An exit step that hands nothing over changes the exiting process only, in its phase. */
  lemma ExitOnlyPhase(t: State, p: Pid, held: bool)
    requires p in t.procs && !Moves(t, ExitAdvance(p, held), p)
    ensures OnlyPhase(t.procs, DoExit(t, p, held).procs, p)
  {
    SamePhase(t.procs, p);
    var pc := t.procs[p].pc;
    if !pc.Moving? && !pc.HandedOver? {
      assert DoExit(t, p, held) == Panic(t) || DoExit(t, p, held) == SetPc(t, p, NextPc(t, p, held));
    }
  }

  /** What a step other than an exit step does to links and program counters. */
  ghost predicate Unmoved(s: State, s': State) {
    && s.procs.Keys <= s'.procs.Keys
    && (forall q :: q in s.procs ==>
          s'.procs[q].pc == s.procs[q].pc || (s.procs[q].pc.Running? && s'.procs[q].pc.ClearingTracees?))
    && (forall q :: q in s.procs ==> s'.procs[q].parent == s.procs[q].parent)
    && (forall q :: q in s'.procs && q !in s.procs ==>
          s'.procs[q].pc.Running? && s'.procs[q].parent < q)
  }

  lemma CloneLinkShape(s: State, t: nat)
    requires ClonerOk(s, t) && t in s.cloners && s.cloners[t].pc.Locking?
    ensures Unmoved(s, DoCloneLink(s, t))
  {
    var c := s.cloners[t];
    assert c.pc.target < c.child;
    var s' := DoCloneLink(s, t);
    if At(s, c.pc.target).children.None? || c.child in s.table {
      assert s'.procs == s.procs;
    } else {
      assert s'.procs.Keys == s.procs.Keys + {c.child};
    }
  }

  lemma ReapShape(s: State, owner: Pid, child: Pid)
    requires child in s.procs
    ensures Unmoved(s, DoReap(s, owner, child))
  {
  }

  lemma PutShape(s: State, p: Pid, proc: Proc)
    requires p in s.procs && proc.parent == s.procs[p].parent
    requires proc.pc == s.procs[p].pc || (s.procs[p].pc.Running? && proc.pc.ClearingTracees?)
    ensures Unmoved(s, Put(s, p, proc))
  {
  }

  lemma StepShape(s: State, step: Step)
    requires Inv(s) && Enabled(s, step) && !step.ExitAdvance?
    ensures Unmoved(s, Apply(s, step))
  {
    match step
    case CloneStart(_, _, _, _) =>
    case ClonePick(_, _) =>
    case CloneLink(t) =>
      assert ClonerOk(s, t);
      CloneLinkShape(s, t);
    case CloneAbort(_) =>
    case ExitStart(p) => PutShape(s, p, s.procs[p].(pc := ClearingTracees));
    case ExitAdvance(_, _) => assert false;
    case Reap(owner, child) => ReapShape(s, owner, child);
    case SetSubreaper(p, on) => PutShape(s, p, s.procs[p].(isSubreaper := on));
    case Mark(p) => PutShape(s, p, s.procs[p].(hasSubreaper := true));
    case Tick(p, inKernel) => PutShape(s, p, s.procs[p].(cpu := s.procs[p].cpu.Plus(OneTick(inKernel))));
  }

  lemma LinkKeepsRunning(t: State, u: nat, q: Pid)
    requires ClonerOk(t, u) && u in t.cloners && t.cloners[u].pc.Locking? && IsRunning(t, q)
    ensures IsRunning(DoCloneLink(t, u), q)
  {
  }

  lemma ReapKeepsRunning(t: State, owner: Pid, child: Pid, q: Pid)
    requires IsRunning(t, q)
    ensures IsRunning(DoReap(t, owner, child), q)
  {
  }

  lemma StepKeepsRunning(t: State, step: Step, q: Pid)
    requires Inv(t) && Enabled(t, step) && IsRunning(t, q) && step != ExitStart(q)
    ensures IsRunning(Apply(t, step), q)
  {
    match step
    case ExitAdvance(p, held) => ExitStepShape(t, p, held);
    case CloneLink(u) =>
      assert ClonerOk(t, u);
      LinkKeepsRunning(t, u, q);
    case Reap(owner, child) => ReapKeepsRunning(t, owner, child, q);
    case _ =>
  }

  /** Every step leaves each parent link alone or moves it to a strictly older process. */
  lemma StepShrinksLinks(s: State, step: Step)
    requires Inv(s) && Enabled(s, step)
    ensures LinksShrink(s, Apply(s, step))
  {
    if step.ExitAdvance? { ExitStepShape(s, step.p, step.held); } else { StepShape(s, step); }
  }

  lemma {:induction false} LinkSumShrinks(s: State, s': State, n: nat)
    requires LinksShrink(s, s')
    ensures LinkSum(s', n) <= LinkSum(s, n)
    ensures LinkSum(s', n) == LinkSum(s, n) ==>
              forall i :: 0 < i <= n ==> LinkTerm(s', i) == LinkTerm(s, i)
  {
    if n > 0 { LinkSumShrinks(s, s', n - 1); }
  }

  /** 1 + 2 + ... + n */
  function LinkCap(n: nat): nat {
    if n == 0 then 0 else LinkCap(n - 1) + n
  }

  lemma {:induction false} LinkSumBound(s: State, n: nat)
    requires TreeOk(s)
    ensures LinkSum(s, n) <= LinkCap(n)
  {
    if n > 0 {
      LinkSumBound(s, n - 1);
      assert ProcOk(s, n);
    }
  }

  // ---- Ancestors ----

  lemma {:induction false} AboveFrame(s: State, s': State, a: Pid, p: Pid)
    requires TreeOk(s) && p in s.procs && s.procs.Keys <= s'.procs.Keys
    requires forall i :: 0 < i <= p ==> LinkTerm(s', i) == LinkTerm(s, i)
    requires Above(s, a, p)
    ensures Above(s', a, p)
    decreases p
  {
    assert ProcOk(s, p);
    if a != p {
      assert LinkTerm(s', p) == LinkTerm(s, p);
      if p == INIT { assert ProcOk(s, 0); } else { AboveFrame(s, s', a, s.procs[p].parent); }
    }
  }

  /** An ancestor of an unreaped process is unreaped and has not handed its children over. */
  lemma {:induction false} AncestorsLive(s: State, a: Pid, p: Pid)
    requires TreeOk(s) && p in s.procs && !s.procs[p].reaped
    requires a != 0 && Above(s, a, p)
    ensures a in s.procs && !s.procs[a].reaped
    ensures a != p ==> s.procs[a].children.Some?
    decreases p
  {
    assert ProcOk(s, p) && ProcOk(s, 0);
    if a != p && p != INIT {
      ParentIsOwned(s, p);
      AncestorsLive(s, a, s.procs[p].parent);
    }
  }

  lemma {:induction false} AboveUp(s: State, a: Pid, p: Pid)
    requires Above(s, a, p) && a in s.procs && s.procs[a].parent < a
    ensures Above(s, s.procs[a].parent, p)
    decreases p
  {
    if a != p { AboveUp(s, a, s.procs[p].parent); }
  }

  lemma {:induction false} InitAbove(s: State, p: Pid)
    requires TreeOk(s) && p in s.procs
    ensures Above(s, INIT, p)
    decreases p
  {
    assert ProcOk(s, p);
    if p != INIT { InitAbove(s, s.procs[p].parent); }
  }

  // ---- How stale a walk can be ----

  /**
   While no older link has changed since the walk read its own, the walk stands on a true
   ancestor; and every restart is paid for by a link that has changed since.
   */
  ghost predicate LimitOk(s: State, p: Pid) {
    p in s.procs ==>
      match s.procs[p].pc
      case ReadingLink(limit) => LinkSum(s, p) < limit
      case Walking(pos, _, limit) =>
        LinkSum(s, p) <= limit && (LinkSum(s, p) == limit ==> Above(s, pos, s.procs[p].parent))
      case Moving(r, _, limit) =>
        LinkSum(s, p) <= limit && (LinkSum(s, p) == limit ==> Above(s, r, s.procs[p].parent))
      case _ => true
  }

  ghost predicate LimitsOk(s: State) {
    forall p {:trigger LimitOk(s, p)} :: LimitOk(s, p)
  }

  /** A process whose own program counter is untouched keeps its limit. */
  lemma LimitFrame(s: State, s': State, p: Pid)
    requires TreeOk(s) && LinksShrink(s, s') && LimitOk(s, p)
    requires p in s.procs && s'.procs[p].pc == s.procs[p].pc && p != INIT
    ensures LimitOk(s', p)
  {
    LinkSumShrinks(s, s', p);
    assert ProcOk(s, p);
    if LinkSum(s', p) == LinkSum(s, p) {
      assert LinkTerm(s', p) == LinkTerm(s, p);
      var q := s.procs[p].parent;
      forall a | Above(s, a, q) ensures Above(s', a, q) {
        AboveFrame(s, s', a, q);
      }
    }
  }

  /** If nothing changed since the walk read its link, climbing cannot lose the path. */
  lemma LostPathMeansChange(s: State, p: Pid, held: bool)
    requires Inv(s) && LimitOk(s, p) && p in s.procs
    requires s.procs[p].pc.Walking? && s.procs[p].pc.phase.Climb?
    requires !Upgrade(s, At(s, s.procs[p].pc.pos).parent, held)
    ensures LinkSum(s, p) < s.procs[p].pc.limit
  {
    var pos := s.procs[p].pc.pos;
    assert ProcOk(s, p) && ProcOk(s, pos);
    if LinkSum(s, p) == s.procs[p].pc.limit {
      ParentIsOwned(s, p);
      AncestorsLive(s, pos, s.procs[p].parent);
      ParentIsOwned(s, pos);
    }
  }

  /** If nothing changed since the walk read its link, its reaper still takes children. */
  lemma LostReaperMeansChange(s: State, p: Pid)
    requires Inv(s) && LimitOk(s, p) && p in s.procs
    requires s.procs[p].pc.Moving? && At(s, s.procs[p].pc.reaper).children.None?
    ensures LinkSum(s, p) < s.procs[p].pc.limit
  {
    var r := s.procs[p].pc.reaper;
    assert ProcOk(s, p) && ProcOk(s, r);
    if LinkSum(s, p) == s.procs[p].pc.limit {
      ParentIsOwned(s, p);
      AncestorsLive(s, r, s.procs[p].parent);
    }
  }

  /** Rewriting the program counter of `p` changes no link. */
  lemma SetPcKeepsLinks(s: State, p: Pid, pc: ExitPc)
    requires p in s.procs
    ensures LinkSum(SetPc(s, p, pc), p) == LinkSum(s, p)
    ensures forall a, q :: Above(s, a, q) ==> Above(SetPc(s, p, pc), a, q)
  {
    var s' := SetPc(s, p, pc);
    LinkSumShrinks(s, s', p);
    LinkSumShrinks(s', s, p);
    forall a, q | Above(s, a, q) ensures Above(s', a, q) { AboveSameLinks(s, s', a, q); }
  }

  lemma {:induction false} AboveSameLinks(s: State, s': State, a: Pid, q: Pid)
    requires s'.procs.Keys == s.procs.Keys
    requires forall i :: i in s.procs ==> s'.procs[i].parent == s.procs[i].parent
    requires Above(s, a, q)
    ensures Above(s', a, q)
    decreases q
  {
    if a != q { AboveSameLinks(s, s', a, s.procs[q].parent); }
  }

  lemma WalkerLimitKeeps(s: State, p: Pid, held: bool)
    requires Inv(s) && LimitOk(s, p) && p in s.procs && s.procs[p].pc.Walking?
    ensures LimitOk(DoExit(s, p, held), p)
  {
    var Walking(pos, phase, limit) := s.procs[p].pc;
    var pc' := NextPc(s, p, held);
    assert ProcOk(s, p) && ProcOk(s, pos);
    var q := s.procs[p].parent;
    SetPcKeepsLinks(s, p, pc');
    WalkGoesOnward(s, pos, phase, limit, held);
    if pc'.ReadingLink? {
      LostPathMeansChange(s, p, held);
    } else if LinkSum(s, p) == limit {
      InitAbove(s, q);
      if phase.Climb? { AboveUp(s, pos, q); }
    }
  }

  lemma ExitAdvanceKeepsLimit(s: State, p: Pid, held: bool)
    requires Inv(s) && LimitOk(s, p) && p in s.procs
    ensures LimitOk(DoExit(s, p, held), p)
  {
    assert ProcOk(s, p);
    match s.procs[p].pc
    case Walking(_, _, _) => WalkerLimitKeeps(s, p, held);
    case Moving(r, _, limit) =>
      assert ProcOk(s, INIT);
      if s.procs[r].children.None? {
        LostReaperMeansChange(s, p);
        SetPcKeepsLinks(s, p, ReadingLink(limit));
      }
    case WakingTracer => SetPcKeepsLinks(s, p, ReadingLink(LinkSum(s, p) + 1));
    case ReadingLink(_) =>
      ParentIsOwned(s, p);
      SetPcKeepsLinks(s, p, Walking(s.procs[p].parent, Arrive, LinkSum(s, p)));
    case _ =>
  }

  lemma StepKeepsLimits(s: State, step: Step)
    requires Inv(s) && LimitsOk(s) && Enabled(s, step)
    ensures LimitsOk(Apply(s, step))
  {
    var s' := Apply(s, step);
    StepShrinksLinks(s, step);
    forall q ensures LimitOk(s', q) {
      assert LimitOk(s, q) && ProcOk(s, q);
      if step.ExitAdvance? && step.p == q {
        ExitAdvanceKeepsLimit(s, q, step.held);
      } else {
        if step.ExitAdvance? { ExitStepShape(s, step.p, step.held); } else { StepShape(s, step); }
        if q in s.procs && q != INIT && s'.procs[q].pc == s.procs[q].pc { LimitFrame(s, s', q); }
      }
    }
  }
}
