/**
 What every step of the life-cycle machine keeps: who owns whom, how old parents are, what
 each phase of an exit implies, and that no unwrap or assertion on the way can fail.
 */
module TreeInvariant {
  import opened Prelude
  import opened ProcessTree

  // ---- The invariant ----

  /** What the program counter of an exit says about the process. */
  ghost predicate PhaseOk(p: Pid, proc: Proc) {
    && (p == INIT ==> proc.parent == 0 && proc.children.Some? && !proc.reaped)
    && match proc.pc
       case Running => proc.children.Some? && !proc.zombie && !proc.reaped
       case ClearingTracees => proc.children.Some? && !proc.zombie && !proc.reaped
       case WakingTracer => proc.children.Some? && !proc.zombie && !proc.reaped
       case ReadingLink(_) => p != INIT && proc.children.Some? && !proc.zombie && !proc.reaped
       case Walking(_, _, _) => p != INIT && proc.children.Some? && !proc.zombie && !proc.reaped
       case Moving(_, _, _) => p != INIT && proc.children.Some? && !proc.zombie && !proc.reaped
       case WakingReaper(_) => p != INIT && proc.children.None? && !proc.zombie && !proc.reaped
       case HandedOver => (p == INIT || proc.children.None?) && !proc.zombie && !proc.reaped
       case ReadingParent => (p == INIT || proc.children.None?) && proc.zombie
       case WakingParent(_) => p != INIT && proc.children.None? && proc.zombie
       case Exited => (p == INIT || proc.children.None?) && proc.zombie
  }

  /** The process an exit is looking at or about to wake is known and strictly older. */
  ghost predicate TargetOk(s: State, p: Pid, pc: ExitPc) {
    match pc
    case Walking(pos, phase, _) => pos in s.procs && pos < p && (!phase.Arrive? ==> pos != INIT)
    case Moving(r, fallback, _) => r in s.procs && r < p && (fallback ==> r == INIT)
    case WakingReaper(r) => r in s.procs && r < p
    case WakingParent(q) => q in s.procs && q < p
    case _ => true
  }

  /**
   A parent link names a known, strictly older process, and an unreaped process sits in the
   children map of the process its link names.
   */
  ghost predicate LinkOk(s: State, p: Pid, proc: Proc) {
    && 0 < p < s.nextPid
    && (p != INIT ==> 0 < proc.parent < p && proc.parent in s.procs)
    && (p != INIT && !proc.reaped ==> Holds(s, proc.parent, p))
  }

  ghost predicate ProcOk(s: State, p: Pid) {
    p in s.procs ==>
      && PhaseOk(p, s.procs[p])
      && TargetOk(s, p, s.procs[p].pc)
      && LinkOk(s, p, s.procs[p])
  }

  /** Whatever sits in a children map is unreaped and links back to that map's owner. */
  ghost predicate ChildrenLinkBack(s: State) {
    forall o, c :: Holds(s, o, c) ==>
      c in s.procs && c != INIT && !s.procs[c].reaped && s.procs[c].parent == o
  }

  ghost predicate TreeOk(s: State) {
    && INIT in s.procs
    && (forall p {:trigger ProcOk(s, p)} :: ProcOk(s, p))
    && ChildrenLinkBack(s)
  }

  /** The process slots of the PID table are exactly the unreaped processes. */
  ghost predicate TableOk(s: State) {
    && (forall p :: p in s.table <==> p in s.procs && !s.procs[p].reaped)
    && s.processCount == |s.table|
  }

  /** A thread inside `set_parent_and_group`; each retry has cost it one generation. */
  ghost predicate ClonerOk(s: State, t: nat) {
    t in s.cloners ==>
      var c := s.cloners[t];
      && IsRunning(s, c.caller)
      && c.child !in s.procs
      && c.caller < c.child < s.nextPid
      && (c.viaParent ==> c.caller != INIT)
      && (!c.viaParent ==> c.retries == 0)
      && match c.pc
         case Picking => c.viaParent ==> c.retries + s.procs[c.caller].parent < c.caller
         case Locking(target) =>
           && target in s.procs
           && (if c.viaParent
               then s.procs[c.caller].parent <= target && c.retries + target < c.caller
               else target == c.caller)
  }

  ghost predicate ClonersOk(s: State) {
    && (forall t {:trigger ClonerOk(s, t)} :: ClonerOk(s, t))
    && (forall t, u :: t in s.cloners && u in s.cloners && t != u ==>
          s.cloners[t].child != s.cloners[u].child)
  }

  ghost predicate Inv(s: State) {
    TreeOk(s) && TableOk(s) && ClonersOk(s) && !s.panicked
  }

  // ---- Consequences used by the steps ----

  /** The link of an unreaped process names an owner that is itself unreaped and upgradable. */
  lemma ParentIsOwned(s: State, p: Pid)
    requires TreeOk(s) && p in s.procs && p != INIT && !s.procs[p].reaped
    ensures var q := s.procs[p].parent;
            && q in s.procs && 0 < q < p && !s.procs[q].reaped && s.procs[q].children.Some?
            && Holds(s, q, p) && Owned(s, q)
            && (q == INIT || !s.procs[q].zombie)
  {
    var q := s.procs[p].parent;
    assert ProcOk(s, p) && ProcOk(s, q);
  }

  /** The caller of a `clone` is unreaped, so its own link names an owner. */
  lemma CallerIsOwned(s: State, t: nat)
    requires Inv(s) && t in s.cloners
    ensures var caller := s.cloners[t].caller;
            && IsRunning(s, caller) && !s.procs[caller].reaped && s.procs[caller].children.Some?
            && (caller != INIT ==> Owned(s, s.procs[caller].parent)
                                   && s.procs[caller].parent in s.procs
                                   && s.procs[s.procs[caller].parent].children.Some?)
  {
    var caller := s.cloners[t].caller;
    assert ClonerOk(s, t) && ProcOk(s, caller);
    if caller != INIT { ParentIsOwned(s, caller); }
  }

  // ---- Framing ----

  /** No process forgets, gets younger or changes its place in a children map. */
  ghost predicate SameTree(s: State, s': State) {
    && s'.procs.Keys == s.procs.Keys
    && s.nextPid <= s'.nextPid
    && (forall o, c :: Holds(s', o, c) <==> Holds(s, o, c))
    && (forall p :: p in s.procs ==>
          s'.procs[p].parent == s.procs[p].parent && s'.procs[p].reaped == s.procs[p].reaped)
  }

  lemma TreeFrame(s: State, s': State, p: Pid)
    requires TreeOk(s) && SameTree(s, s')
    requires p in s.procs ==> PhaseOk(p, s'.procs[p]) && TargetOk(s, p, s'.procs[p].pc)
    requires forall q :: q in s.procs && q != p ==>
               s'.procs[q].pc == s.procs[q].pc && s'.procs[q].zombie == s.procs[q].zombie
               && s'.procs[q].children == s.procs[q].children
    ensures TreeOk(s')
  {
    forall q ensures ProcOk(s', q) {
      assert ProcOk(s, q);
    }
  }

  lemma ClonersFrame(s: State, s': State)
    requires ClonersOk(s) && s'.cloners == s.cloners && SameTree(s, s')
    requires forall q :: IsRunning(s, q) && !IsRunning(s', q) ==> NotCloning(s, q)
    ensures ClonersOk(s')
  {
    forall t ensures ClonerOk(s', t) {
      assert ClonerOk(s, t);
    }
  }

  /** A step of `clone` before linking touches no process. */
  lemma ClonersOnly(s: State, s': State)
    requires TreeOk(s) && s'.procs == s.procs && s.nextPid <= s'.nextPid
    ensures TreeOk(s')
  {
    assert forall o, c :: Holds(s', o, c) <==> Holds(s, o, c);
    forall q ensures ProcOk(s', q) { assert ProcOk(s, q); }
  }

  // ---- Steps ----

  /** A step that rewrites one process without touching its place in the tree. */
  lemma QuietUpdate(s: State, p: Pid, proc: Proc)
    requires Inv(s) && p in s.procs
    requires proc.parent == s.procs[p].parent && proc.children == s.procs[p].children
    requires proc.reaped == s.procs[p].reaped
    requires PhaseOk(p, proc) && TargetOk(s, p, proc.pc)
    requires proc.pc.Running? || !s.procs[p].pc.Running? || NotCloning(s, p)
    ensures Inv(Put(s, p, proc))
  {
    var s' := Put(s, p, proc);
    assert SameTree(s, s');
    TreeFrame(s, s', p);
    ClonersFrame(s, s');
  }

  lemma CloneStartKeeps(s: State, t: nat, caller: Pid, child: Pid, viaParent: bool)
    requires Inv(s) && t !in s.cloners && IsRunning(s, caller) && s.nextPid <= child
    requires viaParent ==> s.procs[caller].parent != 0
    ensures Inv(DoCloneStart(s, t, caller, child, viaParent))
  {
    var s' := DoCloneStart(s, t, caller, child, viaParent);
    assert ProcOk(s, caller) && ProcOk(s, child);
    ClonersOnly(s, s');
    forall u ensures ClonerOk(s', u) { assert ClonerOk(s, u); }
    forall u | u in s.cloners ensures s.cloners[u].child != child { assert ClonerOk(s, u); }
  }

  lemma ClonePickKeeps(s: State, t: nat, held: bool)
    requires Inv(s) && t in s.cloners && s.cloners[t].pc.Picking?
    ensures Inv(DoClonePick(s, t, held))
  {
    var s' := DoClonePick(s, t, held);
    assert ClonerOk(s, t);
    CallerIsOwned(s, t);
    ClonersOnly(s, s');
    forall u ensures ClonerOk(s', u) { assert ClonerOk(s, u); }
  }

  /** A failed lock attempt: the caller's link has moved to a strictly older process. */
  lemma CloneRetryProgress(s: State, t: nat)
    requires Inv(s) && t in s.cloners && s.cloners[t].pc.Locking?
    requires At(s, s.cloners[t].pc.target).children.None?
    ensures s.cloners[t].viaParent
    ensures At(s, s.cloners[t].caller).parent < s.cloners[t].pc.target
  {
    CallerIsOwned(s, t);
    assert ClonerOk(s, t);
  }

  lemma CloneRetryKeeps(s: State, t: nat)
    requires Inv(s) && t in s.cloners && s.cloners[t].pc.Locking?
    requires At(s, s.cloners[t].pc.target).children.None?
    ensures Inv(DoCloneLink(s, t))
  {
    var s' := DoCloneLink(s, t);
    CloneRetryProgress(s, t);
    ClonersOnly(s, s');
    forall u ensures ClonerOk(s', u) { assert ClonerOk(s, u); }
  }

  /** The process map after the new child of cloner `c` is linked below `target`. */
  ghost function Linked(s: State, c: Cloner, target: Pid): State
    requires target in s.procs && s.procs[target].children.Some?
  {
    var owner := s.procs[target].(children := Some(s.procs[target].children.value + {c.child}));
    s.(procs := s.procs[target := owner][c.child := NewChild(target, s.procs[target].hasSubreaper)])
  }

  lemma LinkedKeepsTree(s: State, c: Cloner, target: Pid)
    requires TreeOk(s) && target in s.procs && s.procs[target].children.Some?
    requires c.child !in s.procs && target < c.child < s.nextPid
    ensures TreeOk(Linked(s, c, target))
  {
    var s' := Linked(s, c, target);
    assert ProcOk(s, target);
    assert forall o, q :: Holds(s', o, q) <==> Holds(s, o, q) || (o == target && q == c.child);
    forall q ensures ProcOk(s', q) { assert ProcOk(s, q); }
  }

  lemma CloneLinkHolds(s: State, t: nat)
    requires Inv(s) && t in s.cloners && s.cloners[t].pc.Locking?
    requires At(s, s.cloners[t].pc.target).children.Some?
    ensures var c := s.cloners[t];
            && c.child !in s.procs && c.child !in s.table
            && c.pc.target in s.procs && 0 < c.pc.target < c.child < s.nextPid
            && DoCloneLink(s, t) == Linked(s, c, c.pc.target).(
                 cloners := s.cloners - {t}, table := s.table + {c.child}, processCount := s.processCount + 1)
  {
    assert ClonerOk(s, t) && ProcOk(s, s.cloners[t].pc.target);
  }

  lemma CloneLinkKeepsCloners(s: State, t: nat)
    requires Inv(s) && t in s.cloners && s.cloners[t].pc.Locking?
    requires At(s, s.cloners[t].pc.target).children.Some?
    ensures ClonersOk(DoCloneLink(s, t))
  {
    var s' := DoCloneLink(s, t);
    CloneLinkHolds(s, t);
    forall u ensures ClonerOk(s', u) { assert ClonerOk(s, u); }
  }

  lemma CloneLinkKeeps(s: State, t: nat)
    requires Inv(s) && t in s.cloners && s.cloners[t].pc.Locking?
    requires At(s, s.cloners[t].pc.target).children.Some?
    ensures Inv(DoCloneLink(s, t))
  {
    var c := s.cloners[t];
    CloneLinkHolds(s, t);
    LinkedKeepsTree(s, c, c.pc.target);
    ClonersOnly(Linked(s, c, c.pc.target), DoCloneLink(s, t));
    CloneLinkKeepsCloners(s, t);
  }

  lemma ReapHolds(s: State, owner: Pid, child: Pid)
    requires Inv(s) && Holds(s, owner, child) && At(s, child).zombie
    ensures var s' := DoReap(s, owner, child);
            && !s'.panicked
            && s'.procs.Keys == s.procs.Keys
            && owner != child && child in s.table
            && s.procs[child].parent == owner && child != INIT
            && (forall o, q :: Holds(s', o, q) <==> Holds(s, o, q) && q != child)
  {
    assert ProcOk(s, child);
  }

  lemma ReapKeepsTree(s: State, owner: Pid, child: Pid)
    requires Inv(s) && Holds(s, owner, child) && At(s, child).zombie
    ensures TreeOk(DoReap(s, owner, child))
  {
    var s' := DoReap(s, owner, child);
    ReapHolds(s, owner, child);
    forall q ensures ProcOk(s', q) { assert ProcOk(s, q); }
  }

  lemma ReapKeeps(s: State, owner: Pid, child: Pid)
    requires Inv(s) && Holds(s, owner, child) && At(s, child).zombie
    ensures Inv(DoReap(s, owner, child))
  {
    var s' := DoReap(s, owner, child);
    ReapHolds(s, owner, child);
    ReapKeepsTree(s, owner, child);
    assert ProcOk(s, owner);
    forall u ensures ClonerOk(s', u) { assert ClonerOk(s, u); }
  }

  /** What a successful hand-over does to the children maps. */
  lemma MoveHolds(s: State, p: Pid, r: Pid)
    requires TreeOk(s) && p in s.procs && r in s.procs && r < p
    requires s.procs[p].children.Some? && s.procs[r].children.Some?
    ensures var cs := s.procs[p].children.value;
            var s' := s.(procs := Moved(s.procs, p, r, cs, WakingReaper(r)));
            && s'.procs.Keys == s.procs.Keys
            && p !in cs && r !in cs && INIT !in cs
            && (forall c :: c in cs ==> c in s.procs && p < c && s.procs[c].parent == p)
            && (forall o, c :: Holds(s', o, c) <==>
                  if c in cs then o == r else Holds(s, o, c))
  {
    var cs := s.procs[p].children.value;
    var s' := s.(procs := Moved(s.procs, p, r, cs, WakingReaper(r)));
    forall c | c in cs ensures c in s.procs && p < c && s.procs[c].parent == p && c != INIT {
      assert Holds(s, p, c);
      assert ProcOk(s, c);
    }
    forall o, c ensures Holds(s', o, c) <==> if c in cs then o == r else Holds(s, o, c) {
      if c in cs {
        assert Holds(s, p, c);
        assert Holds(s, o, c) ==> o == p;
      }
    }
  }

  lemma MoveKeepsLink(s: State, p: Pid, r: Pid, q: Pid)
    requires TreeOk(s) && p in s.procs && r in s.procs && r < p && q in s.procs
    requires s.procs[p].pc.Moving? && s.procs[p].children.Some? && s.procs[r].children.Some?
    ensures var s' := s.(procs := Moved(s.procs, p, r, s.procs[p].children.value, WakingReaper(r)));
            LinkOk(s', q, s'.procs[q])
  {
    MoveHolds(s, p, r);
    assert ProcOk(s, r) && ProcOk(s, q);
    var cs := s.procs[p].children.value;
    var s' := s.(procs := Moved(s.procs, p, r, cs, WakingReaper(r)));
    if q in cs {
      assert Holds(s', r, q);
    } else if q != INIT && !s.procs[q].reaped {
      assert Holds(s, s.procs[q].parent, q);
    }
  }

  lemma MoveKeepsProc(s: State, p: Pid, r: Pid, q: Pid)
    requires TreeOk(s) && p in s.procs && r in s.procs && r < p
    requires s.procs[p].pc.Moving? && s.procs[p].children.Some? && s.procs[r].children.Some?
    ensures ProcOk(s.(procs := Moved(s.procs, p, r, s.procs[p].children.value, WakingReaper(r))), q)
  {
    assert ProcOk(s, r) && ProcOk(s, q);
    assert q in s.procs[p].children.value ==> Holds(s, p, q);
    if q in s.procs { MoveKeepsLink(s, p, r, q); }
  }

  lemma MoveKeepsTree(s: State, p: Pid, r: Pid)
    requires TreeOk(s) && p in s.procs && r in s.procs && r < p
    requires s.procs[p].pc.Moving? && s.procs[p].children.Some? && s.procs[r].children.Some?
    ensures TreeOk(s.(procs := Moved(s.procs, p, r, s.procs[p].children.value, WakingReaper(r))))
  {
    var cs := s.procs[p].children.value;
    var s' := s.(procs := Moved(s.procs, p, r, cs, WakingReaper(r)));
    forall q ensures ProcOk(s', q) { MoveKeepsProc(s, p, r, q); }
    MoveHolds(s, p, r);
    forall o, c | Holds(s', o, c)
      ensures c in s'.procs && c != INIT && !s'.procs[c].reaped && s'.procs[c].parent == o
    {
      if c in cs { assert Holds(s, p, c); } else { assert Holds(s, o, c); }
    }
  }

  lemma MoveKeepsCloners(s: State, p: Pid, r: Pid)
    requires Inv(s) && p in s.procs && r in s.procs && r < p
    requires s.procs[p].pc.Moving? && s.procs[p].children.Some? && s.procs[r].children.Some?
    ensures ClonersOk(s.(procs := Moved(s.procs, p, r, s.procs[p].children.value, WakingReaper(r))))
  {
    var s' := s.(procs := Moved(s.procs, p, r, s.procs[p].children.value, WakingReaper(r)));
    MoveHolds(s, p, r);
    forall u ensures ClonerOk(s', u) { assert ClonerOk(s, u); }
  }

  lemma MoveKeeps(s: State, p: Pid, r: Pid, fallback: bool, limit: nat)
    requires Inv(s) && p in s.procs && s.procs[p].pc == Moving(r, fallback, limit)
    ensures Inv(DoMove(s, p, r, fallback, limit))
  {
    assert ProcOk(s, p) && ProcOk(s, INIT);
    if s.procs[r].children.Some? {
      MoveHolds(s, p, r);
      MoveKeepsTree(s, p, r);
      MoveKeepsCloners(s, p, r);
    } else {
      QuietUpdate(s, p, s.procs[p].(pc := ReadingLink(limit)));
    }
  }

  /** Where one step of the walk can lead from the node `pos`, whose parent is `up`. */
  ghost predicate Onward(pos: Pid, phase: WalkPhase, limit: nat, up: Pid, pc: ExitPc) {
    || pc == Moving(pos, false, limit)
    || pc == Moving(INIT, true, limit)
    || (phase.Climb? && pc == ReadingLink(limit))
    || (phase.Climb? && pc == Walking(up, Arrive, limit))
    || (phase.Arrive? && up != 0 && pc == Walking(pos, ProbeSubreaper, limit))
    || (phase.ProbeSubreaper? && pc == Walking(pos, ProbeZombie, limit))
    || (!phase.Climb? && !phase.Arrive? && pc == Walking(pos, Climb, limit))
  }

  lemma WalkGoesOnward(s: State, pos: Pid, phase: WalkPhase, limit: nat, held: bool)
    requires pos in s.procs
    ensures Onward(pos, phase, limit, s.procs[pos].parent, WalkPc(s, pos, phase, limit, held))
  {
  }

  /** An exit only ever looks at, or prepares to wake, known and strictly older processes. */
  lemma NextPcOk(s: State, p: Pid, held: bool)
    requires TreeOk(s) && p in s.procs && !s.procs[p].pc.Running?
    requires !s.procs[p].pc.Moving? && !s.procs[p].pc.HandedOver?
    ensures var pc' := NextPc(s, p, held);
            PhaseOk(p, s.procs[p].(pc := pc')) && TargetOk(s, p, pc') && !pc'.Running?
  {
    assert ProcOk(s, p) && ProcOk(s, INIT) && ProcOk(s, 0);
    match s.procs[p].pc
    case Walking(pos, phase, limit) =>
      assert ProcOk(s, pos);
      WalkGoesOnward(s, pos, phase, limit, held);
    case ReadingLink(_) => ParentIsOwned(s, p);
    case _ =>
  }

  lemma ExitAdvanceKeeps(s: State, p: Pid, held: bool)
    requires Inv(s) && p in s.procs && !s.procs[p].pc.Running?
    ensures Inv(DoExit(s, p, held))
  {
    assert ProcOk(s, p);
    var proc := s.procs[p];
    if proc.pc.Moving? {
      MoveKeeps(s, p, proc.pc.reaper, proc.pc.fallback, proc.pc.limit);
    } else if proc.pc.HandedOver? {
      QuietUpdate(s, p, proc.(zombie := true, pc := ReadingParent));
    } else {
      if proc.pc.ReadingLink? { ParentIsOwned(s, p); }
      NextPcOk(s, p, held);
      QuietUpdate(s, p, proc.(pc := NextPc(s, p, held)));
    }
  }

  lemma TickKeeps(s: State, p: Pid, inKernel: bool)
    requires Inv(s) && p in s.procs
    ensures Inv(DoTick(s, p, inKernel))
  {
    var proc := s.procs[p].(cpu := s.procs[p].cpu.Plus(OneTick(inKernel)));
    var s' := DoTick(s, p, inKernel);
    assert ProcOk(s, p);
    QuietUpdate(s, p, proc);
    var m := Put(s, p, proc);
    ClonersOnly(m, s');
    forall u ensures ClonerOk(s', u) { assert ClonerOk(m, u); }
  }

  lemma CloneAbortKeeps(s: State, t: nat)
    requires Inv(s)
    ensures Inv(s.(cloners := s.cloners - {t}))
  {
    var s' := s.(cloners := s.cloners - {t});
    ClonersOnly(s, s');
    forall u ensures ClonerOk(s', u) { assert ClonerOk(s, u); }
  }

  /** Every enabled step keeps the invariant; in particular no unwrap or assertion fails. */
  lemma StepKeepsInv(s: State, step: Step)
    requires Inv(s) && Enabled(s, step)
    ensures Inv(Apply(s, step))
  {
    match step
    case CloneStart(t, caller, child, viaParent) => CloneStartKeeps(s, t, caller, child, viaParent);
    case ClonePick(t, held) => ClonePickKeeps(s, t, held);
    case CloneLink(t) =>
      if At(s, s.cloners[t].pc.target).children.None? { CloneRetryKeeps(s, t); } else { CloneLinkKeeps(s, t); }
    case CloneAbort(t) => CloneAbortKeeps(s, t);
    case ExitStart(p) =>
      assert ProcOk(s, p);
      QuietUpdate(s, p, s.procs[p].(pc := ClearingTracees));
    case ExitAdvance(p, held) => ExitAdvanceKeeps(s, p, held);
    case Reap(owner, child) => ReapKeeps(s, owner, child);
    case SetSubreaper(p, on) =>
      assert ProcOk(s, p);
      QuietUpdate(s, p, s.procs[p].(isSubreaper := on));
    case Mark(p) =>
      assert ProcOk(s, p);
      QuietUpdate(s, p, s.procs[p].(hasSubreaper := true));
    case Tick(p, inKernel) => TickKeeps(s, p, inKernel);
  }

  lemma BootInv()
    ensures Inv(BOOT)
  {
    assert |BOOT.table| == 1;
    assert PhaseOk(INIT, BOOT.procs[INIT]);
  }

  lemma {:induction false} RunKeepsInv(states: seq<State>, steps: seq<Step>, i: nat)
    requires IsRun(states, steps) && i < |states|
    ensures Inv(states[i])
  {
    if i == 0 {
      BootInv();
    } else {
      RunKeepsInv(states, steps, i - 1);
      StepKeepsInv(states[i - 1], steps[i - 1]);
    }
  }
}
