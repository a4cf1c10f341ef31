/**
 Two runs that open the subreaper mark.  In one a stale reaper walk hands children to a
 subreaper that is no ancestor of theirs any more and never marked them.  In the other a
 process exits after the marking has reached it and before it has reached its children.
 */
module SubreaperRace {
  import opened Prelude
  import opened ProcessTree
  import opened Subreaper
  import opened Marking

  ghost predicate Reach(s: State, ms: map<nat, Marker>) {
    MReachable(Sys(s, ms))
  }

  lemma MExtend(s: Sys, step: MStep)
    requires MReachable(s) && MEnabled(s, step)
    ensures MReachable(MApply(s, step))
  {
    var states, steps :| IsMRun(states, steps) && states[|steps|] == s;
    var s' := MApply(s, step);
    assert MNext(s, step, s');
    assert IsMRun(states + [s'], steps + [step]);
    assert (states + [s'])[|steps + [step]|] == s';
  }

  lemma Extend(s: State, ms: map<nat, Marker>, step: Step)
    requires Reach(s, ms) && Enabled(s, step) && TreeStepFree(Sys(s, ms), step)
    ensures Reach(Apply(s, step), ms)
  {
    MExtend(Sys(s, ms), Tree(step));
  }

  // ---- A chain of processes 1 <- 2 <- ... <- n, all running ----

  function Link(parent: Pid, children: set<Pid>): Proc {
    NewChild(parent, false).(children := Some(children))
  }

  ghost predicate Chain(s: State, n: Pid) {
    && !s.panicked && s.cloners == map[] && s.nextPid == n + 1
    && (forall p :: p in s.procs <==> 1 <= p <= n)
    && (forall p :: p in s.table <==> 1 <= p <= n)
    && (forall p :: 1 <= p <= n ==> s.procs[p] == Link(p - 1, if p < n then {p + 1} else {}))
  }

  lemma StartChild(s: State, n: Pid) returns (s': State)
    requires Reach(s, map[]) && 1 <= n && Chain(s, n)
    ensures Reach(s', map[])
    ensures s' == s.(cloners := map[0 := Cloner(n, n + 1, false, ClonePc.Locking(n), 0)], nextPid := n + 2)
  {
    Extend(s, map[], CloneStart(0, n, n + 1, false));
    var s1 := DoCloneStart(s, 0, n, n + 1, false);
    Extend(s1, map[], ClonePick(0, true));
    s' := DoClonePick(s1, 0, true);
    assert s'.cloners == map[0 := Cloner(n, n + 1, false, ClonePc.Locking(n), 0)];
  }

  lemma Lengthen(s: State, n: Pid) returns (s': State)
    requires Reach(s, map[]) && 1 <= n && Chain(s, n)
    ensures Reach(s', map[]) && Chain(s', n + 1)
  {
    var s2 := StartChild(s, n);
    Extend(s2, map[], CloneLink(0));
    s' := DoCloneLink(s2, 0);
    assert s'.cloners == map[];
    assert s'.procs[n] == Link(n - 1, {} + {n + 1});
    assert {} + {n + 1} == {n + 1};
  }

  lemma {:induction false} ChainReachable(n: Pid) returns (s: State)
    requires 1 <= n
    ensures Reach(s, map[]) && Chain(s, n)
  {
    if n == 1 {
      s := BOOT;
      assert IsMRun([Sys(BOOT, map[])], []) && [Sys(BOOT, map[])][0] == Sys(s, map[]);
    } else {
      var s0 := ChainReachable(n - 1);
      s := Lengthen(s0, n - 1);
    }
  }

  // ---- Exits and markings, a few steps at a time ----

  /** One exit step of `p`, from program counter `pc`, that only moves the program counter. */
  lemma Advance(ms: map<nat, Marker>, s: State, p: Pid, pc: ExitPc, pc': ExitPc)
    requires p in s.procs && !s.panicked && Reach(SetPc(s, p, pc), ms)
    requires !pc.Running? && !pc.Exited? && !pc.Moving? && !pc.HandedOver?
    requires pc.ReadingLink? ==> Owned(SetPc(s, p, pc), s.procs[p].parent)
    requires pc' == NextPc(SetPc(s, p, pc), p, true)
    ensures Reach(SetPc(s, p, pc'), ms)
  {
    var s0 := SetPc(s, p, pc);
    Extend(s0, ms, ExitAdvance(p, true));
    assert s0.procs[p := s0.procs[p].(pc := pc')] == s.procs[p := s.procs[p].(pc := pc')];
  }

  /** `p` starts to exit and reads its parent link. */
  lemma StartWalk(ms: map<nat, Marker>, s: State, p: Pid) returns (s': State, limit: nat)
    requires Reach(s, ms) && IsRunning(s, p) && s.cloners == map[] && !s.panicked
    requires forall t :: t in ms ==> ms[t].owner != p
    requires s.procs[p].parent != 0 && Owned(s, s.procs[p].parent)
    ensures Reach(s', ms) && s' == SetPc(s, p, Walking(s.procs[p].parent, Arrive, limit))
  {
    Extend(s, ms, ExitStart(p));
    Advance(ms, s, p, ClearingTracees, WakingTracer);
    var l := LinkSum(SetPc(s, p, WakingTracer), p) + 1;
    Advance(ms, s, p, WakingTracer, ReadingLink(l));
    SetPcOwned(s, p, ReadingLink(l), s.procs[p].parent);
    limit := LinkSum(SetPc(s, p, ReadingLink(l)), p);
    Advance(ms, s, p, ReadingLink(l), Walking(s.procs[p].parent, Arrive, limit));
    s' := SetPc(s, p, Walking(s.procs[p].parent, Arrive, limit));
  }

  lemma SetPcOwned(s: State, p: Pid, pc: ExitPc, q: Pid)
    requires p in s.procs
    ensures Owned(s, q) ==> Owned(SetPc(s, p, pc), q)
  {
    var s' := SetPc(s, p, pc);
    if Owned(s, q) && q != INIT {
      var o :| o in s.procs && Holds(s, o, q);
      assert Holds(s', o, q);
    }
  }

  function AboutTo(owner: Pid, q: Pid): map<nat, Marker> {
    map[0 := Marker(owner, ToLock(q), [])]
  }

  function MarkedAt(s: State, p: Pid): State {
    Put(s, p, At(s, p).(hasSubreaper := true))
  }

  /** `p` raises its attribute and marks itself. */
  lemma StartMarking(s: State, p: Pid)
    requires Reach(s, map[]) && IsRunning(s, p) && !s.panicked && !s.procs[p].hasSubreaper
    ensures Reach(Put(s, p, s.procs[p].(isSubreaper := true, hasSubreaper := true)), AboutTo(p, p))
  {
    MExtend(Sys(s, map[]), Raise(0, p));
    var s1 := MApply(Sys(s, map[]), Raise(0, p));
    MExtend(s1, MarkSelf(0));
    assert MApply(s1, MarkSelf(0)).markers == AboutTo(p, p);
    assert MApply(s1, MarkSelf(0)).tree == Put(s, p, s.procs[p].(isSubreaper := true, hasSubreaper := true));
  }

  /** A marked process with a visited parent raises its attribute and has nothing to mark. */
  lemma RaiseOnly(s: State, p: Pid, owner: Pid, q: Pid)
    requires Reach(s, AboutTo(owner, q)) && IsRunning(s, p) && !s.panicked && s.procs[p].hasSubreaper
    ensures Reach(Put(s, p, s.procs[p].(isSubreaper := true)), AboutTo(owner, q))
  {
    var s0 := Sys(s, AboutTo(owner, q));
    MExtend(s0, Raise(1, p));
    var s1 := MApply(s0, Raise(1, p));
    MExtend(s1, MarkSelf(1));
    assert MApply(s1, MarkSelf(1)).markers == AboutTo(owner, q);
  }

  /** Visiting `q`, with the one child `c` unmarked: marks `c` and goes on to it. */
  lemma VisitOnlyChild(s: State, owner: Pid, q: Pid, c: Pid)
    requires Reach(s, AboutTo(owner, q)) && !s.panicked && q in s.procs && s.procs[q].children == Some({c})
    requires c in s.procs && c != q && !s.procs[c].hasSubreaper
    ensures Reach(MarkedAt(s, c), AboutTo(owner, c))
  {
    var s0 := Sys(s, AboutTo(owner, q));
    assert !HoldsLock(s0.markers[0], q);
    MExtend(s0, Lock(0));
    var s1 := MApply(s0, Lock(0));
    MExtend(s1, MarkChild(0, c));
    var s2 := MApply(s1, MarkChild(0, c));
    assert s2.markers[0].queue == [c] && s2.markers[0].queue[1..] == [];
    MExtend(s2, Done(0));
    assert MApply(s2, Done(0)).markers == AboutTo(owner, c);
  }

  /** The last process to visit has handed its children over. */
  lemma SkipLast(s: State, owner: Pid, q: Pid)
    requires Reach(s, AboutTo(owner, q)) && !s.panicked && At(s, q).children.None? && q != owner
    ensures Reach(s, map[])
  {
    var s0 := Sys(s, AboutTo(owner, q));
    assert !HoldsLock(s0.markers[0], q);
    MExtend(s0, Lock(0));
    assert MApply(s0, Lock(0)).markers == map[];
  }

  // ---- A stale walk ----

  /** 4 has read its link to 3 ... */
  lemma OneExit() returns (s: State, limit: nat)
    ensures Reach(s, map[]) && !s.panicked && s.cloners == map[] && INIT in s.table
    ensures forall p :: p in s.procs <==> 1 <= p <= 6
    ensures s.procs[1] == Link(0, {2}) && s.procs[2] == Link(1, {3}) && s.procs[3] == Link(2, {4})
    ensures s.procs[4] == Link(3, {5}).(pc := Walking(3, Arrive, limit))
    ensures s.procs[5] == Link(4, {6}) && s.procs[6] == Link(5, {})
  {
    var s0 := ChainReachable(6);
    assert Holds(s0, 2, 3);
    s, limit := StartWalk(map[], s0, 4);
  }

  /** ... and 3, exiting too, is about to hand 4 over to init. */
  lemma TwoExits() returns (s: State, limit: nat)
    ensures Reach(s, map[]) && !s.panicked && s.cloners == map[] && INIT in s.table
    ensures forall p :: p in s.procs <==> 1 <= p <= 6
    ensures s.procs[1] == Link(0, {2}) && s.procs[2] == Link(1, {3})
    ensures exists l :: s.procs[3] == Link(2, {4}).(pc := Moving(INIT, true, l))
    ensures s.procs[4] == Link(3, {5}).(pc := Walking(3, Arrive, limit))
    ensures s.procs[5] == Link(4, {6}) && s.procs[6] == Link(5, {})
  {
    var s1, l4 := OneExit();
    assert Holds(s1, 1, 2);
    var s2, l3 := StartWalk(map[], s1, 3);
    Advance(map[], s1, 3, Walking(2, Arrive, l3), Moving(INIT, true, l3));
    s := SetPc(s1, 3, Moving(INIT, true, l3));
    limit := l4;
  }

  /** 3 hands 4 over to init ... */
  lemma HandWalkerOver() returns (s: State, limit: nat)
    ensures Reach(s, map[]) && !s.panicked && s.cloners == map[]
    ensures forall p :: p in s.procs <==> 1 <= p <= 6
    ensures s.procs[1] == Link(0, {2, 4}) && s.procs[2] == Link(1, {3})
    ensures s.procs[3] == Link(2, {}).(children := None, pc := WakingReaper(INIT))
    ensures s.procs[4] == Link(1, {5}).(pc := Walking(3, Arrive, limit))
    ensures s.procs[5] == Link(4, {6}) && s.procs[6] == Link(5, {})
  {
    var s3, l4 := TwoExits();
    var l :| s3.procs[3] == Link(2, {4}).(pc := Moving(INIT, true, l));
    Extend(s3, map[], ExitAdvance(3, true));
    s := DoMove(s3, 3, INIT, true, l);
    assert s.procs[1].children.value == {2} + {4} == {2, 4};
    limit := l4;
  }

  /** ... and becomes a zombie child of 2. */
  lemma OrphanTheWalker() returns (s: State, limit: nat)
    ensures Reach(s, map[]) && !s.panicked && s.cloners == map[]
    ensures forall p :: p in s.procs <==> 1 <= p <= 6
    ensures s.procs[1] == Link(0, {2, 4}) && s.procs[2] == Link(1, {3})
    ensures s.procs[3].parent == 2 && s.procs[3].zombie && !s.procs[3].reaped
            && !s.procs[3].isSubreaper && !s.procs[3].hasSubreaper && s.procs[3].children == None
    ensures s.procs[4] == Link(1, {5}).(pc := Walking(3, Arrive, limit))
    ensures s.procs[5] == Link(4, {6}) && s.procs[6] == Link(5, {})
  {
    var s4, l4 := HandWalkerOver();
    assert s4 == SetPc(s4, 3, WakingReaper(INIT));
    Advance(map[], s4, 3, WakingReaper(INIT), HandedOver);
    var s5 := SetPc(s4, 3, HandedOver);
    Extend(s5, map[], ExitAdvance(3, true));
    s := Put(s5, 3, s5.procs[3].(zombie := true, pc := ReadingParent));
    limit := l4;
  }

  /** 2 becomes a subreaper and marks its zombie child 3, but not 4 or anything below it. */
  lemma MarkTheZombie() returns (s: State, limit: nat)
    ensures Reach(s, map[]) && !s.panicked && s.cloners == map[]
    ensures forall p :: p in s.procs <==> 1 <= p <= 6
    ensures s.procs[1] == Link(0, {2, 4})
    ensures s.procs[2] == Link(1, {3}).(isSubreaper := true, hasSubreaper := true)
    ensures s.procs[3].parent == 2 && s.procs[3].zombie && s.procs[3].hasSubreaper && !s.procs[3].isSubreaper
    ensures s.procs[4] == Link(1, {5}).(pc := Walking(3, Arrive, limit))
    ensures s.procs[5] == Link(4, {6}) && s.procs[6] == Link(5, {})
  {
    var s0, l := OrphanTheWalker();
    limit := l;
    StartMarking(s0, 2);
    var s1 := Put(s0, 2, s0.procs[2].(isSubreaper := true, hasSubreaper := true));
    VisitOnlyChild(s1, 2, 2, 3);
    s := MarkedAt(s1, 3);
    SkipLast(s, 2, 3);
  }

  /** The stale walk of 4 passes through 3 ... */
  lemma PassTheZombie() returns (s: State, limit: nat)
    ensures Reach(s, map[]) && !s.panicked
    ensures forall p :: p in s.procs <==> 1 <= p <= 6
    ensures s.procs[1] == Link(0, {2, 4})
    ensures s.procs[2] == Link(1, {3}).(isSubreaper := true, hasSubreaper := true)
    ensures s.procs[4] == Link(1, {5}).(pc := Walking(2, Arrive, limit))
    ensures s.procs[5] == Link(4, {6}) && s.procs[6] == Link(5, {})
  {
    var s0, l := MarkTheZombie();
    limit := l;
    assert s0 == SetPc(s0, 4, Walking(3, Arrive, l));
    Advance(map[], s0, 4, Walking(3, Arrive, l), Walking(3, ProbeSubreaper, l));
    Advance(map[], s0, 4, Walking(3, ProbeSubreaper, l), Walking(3, Climb, l));
    assert Holds(SetPc(s0, 4, Walking(3, Climb, l)), 1, 2);
    Advance(map[], s0, 4, Walking(3, Climb, l), Walking(2, Arrive, l));
    s := SetPc(s0, 4, Walking(2, Arrive, l));
  }

  /** ... and finds 2. */
  lemma FindTheWrongReaper() returns (s: State, limit: nat)
    ensures Reach(s, map[]) && !s.panicked
    ensures forall p :: p in s.procs <==> 1 <= p <= 6
    ensures s.procs[1] == Link(0, {2, 4})
    ensures s.procs[2] == Link(1, {3}).(isSubreaper := true, hasSubreaper := true)
    ensures s.procs[4] == Link(1, {5}).(pc := Moving(2, false, limit))
    ensures s.procs[5] == Link(4, {6}) && s.procs[6] == Link(5, {})
  {
    var s0, l := PassTheZombie();
    limit := l;
    assert s0 == SetPc(s0, 4, Walking(2, Arrive, l));
    Advance(map[], s0, 4, Walking(2, Arrive, l), Walking(2, ProbeSubreaper, l));
    Advance(map[], s0, 4, Walking(2, ProbeSubreaper, l), Walking(2, ProbeZombie, l));
    Advance(map[], s0, 4, Walking(2, ProbeZombie, l), Moving(2, false, l));
    s := SetPc(s0, 4, Moving(2, false, l));
  }

  /**
   The closure of the mark is not an invariant: in a reachable state the running process 5
   has the live subreaper 2 as its parent but lacks the mark, and the reaper search for the
   children of 6 then ends at init although 2 is a live ancestor subreaper of 6.
   */
  lemma StaleWalkOpensMark() returns (s: State)
    ensures Reach(s, map[]) && !Closed(s)
    ensures IsRunning(s, 5) && IsRunning(s, 2) && s.procs[5].parent == 2
    ensures s.procs[2].isSubreaper && !s.procs[5].hasSubreaper
    ensures 6 in s.procs && s.procs[6].parent == 5
    ensures Shortcut(s, s.procs[6].parent) == INIT && Nearest(s, s.procs[6].parent) == 2
  {
    var s0, l := FindTheWrongReaper();
    Extend(s0, map[], ExitAdvance(4, true));
    s := DoMove(s0, 4, 2, false, l);
    assert s.procs[5] == Link(2, {6});
    assert s.procs[2].isSubreaper && s.procs[2].parent == 1 && !s.procs[2].zombie;
    assert !MarkOk(s, 5);
    assert Nearest(s, 2) == 2;
  }

  // ---- An exit between two visits ----

  /** 2 has marked 3 and 4 and is about to visit 4; meanwhile 3 has become a subreaper too. */
  lemma MarkDownToFour() returns (s: State)
    ensures Reach(s, AboutTo(2, 4)) && !s.panicked && s.cloners == map[]
    ensures forall p :: p in s.procs <==> 1 <= p <= 6
    ensures s.procs[1] == Link(0, {2})
    ensures s.procs[2] == Link(1, {3}).(isSubreaper := true, hasSubreaper := true)
    ensures s.procs[3] == Link(2, {4}).(isSubreaper := true, hasSubreaper := true)
    ensures s.procs[4] == Link(3, {5}).(hasSubreaper := true)
    ensures s.procs[5] == Link(4, {6}) && s.procs[6] == Link(5, {})
  {
    var s0 := ChainReachable(6);
    StartMarking(s0, 2);
    var s1 := Put(s0, 2, s0.procs[2].(isSubreaper := true, hasSubreaper := true));
    VisitOnlyChild(s1, 2, 2, 3);
    var s2 := MarkedAt(s1, 3);
    VisitOnlyChild(s2, 2, 3, 4);
    var s3 := MarkedAt(s2, 4);
    RaiseOnly(s3, 3, 2, 4);
    s := Put(s3, 3, s3.procs[3].(isSubreaper := true));
  }

  /** 4 exits and finds its parent 3 as its reaper ... */
  lemma ExitBeforeVisit() returns (s: State, limit: nat)
    ensures Reach(s, AboutTo(2, 4)) && !s.panicked
    ensures forall p :: p in s.procs <==> 1 <= p <= 6
    ensures s.procs[1] == Link(0, {2})
    ensures s.procs[2] == Link(1, {3}).(isSubreaper := true, hasSubreaper := true)
    ensures s.procs[3] == Link(2, {4}).(isSubreaper := true, hasSubreaper := true)
    ensures s.procs[4] == Link(3, {5}).(hasSubreaper := true, pc := Moving(3, false, limit))
    ensures s.procs[5] == Link(4, {6}) && s.procs[6] == Link(5, {})
  {
    var s0 := MarkDownToFour();
    var ms := AboutTo(2, 4);
    assert Holds(s0, 2, 3);
    var s1, l := StartWalk(ms, s0, 4);
    limit := l;
    Advance(ms, s0, 4, Walking(3, Arrive, l), Walking(3, ProbeSubreaper, l));
    Advance(ms, s0, 4, Walking(3, ProbeSubreaper, l), Walking(3, ProbeZombie, l));
    Advance(ms, s0, 4, Walking(3, ProbeZombie, l), Moving(3, false, l));
    s := SetPc(s0, 4, Moving(3, false, l));
  }

  /**
   No stale walk is needed: 4 hands its unmarked child 5 over to its own parent 3, a marked
   subreaper already visited.  When the marking has ended the running process 5 lacks the
   mark, and the search for the children of 6 ends at init although 3 is nearer.
   */
  lemma ExitDuringMarkingOpensMark() returns (s: State)
    ensures Reach(s, map[]) && !Closed(s)
    ensures IsRunning(s, 5) && IsRunning(s, 3) && s.procs[5].parent == 3
    ensures s.procs[3].isSubreaper && !s.procs[5].hasSubreaper
    ensures 6 in s.procs && s.procs[6].parent == 5
    ensures Shortcut(s, s.procs[6].parent) == INIT && Nearest(s, s.procs[6].parent) == 3
  {
    var s0, l := ExitBeforeVisit();
    assert !HoldsLock(AboutTo(2, 4)[0], 3) && !HoldsLock(AboutTo(2, 4)[0], 4);
    Extend(s0, AboutTo(2, 4), ExitAdvance(4, true));
    s := DoMove(s0, 4, 3, false, l);
    assert s.procs[5] == Link(3, {6});
    SkipLast(s, 2, 4);
    assert s.procs[3].isSubreaper && s.procs[3].parent == 2 && !s.procs[3].zombie;
    assert !MarkOk(s, 5);
    assert Nearest(s, 3) == 3;
  }
}
