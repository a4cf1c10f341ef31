/**
 Two runs that show where the promises of `wait` stop: a tracer thread that exits lets a
 sleeping sibling down, and two waiting threads of a tracing parent trip over each other.
 */
module WaitRaces {
  import opened Prelude
  import opened ProcessTree
  import opened WaitProtocol
  import opened WaitWakeups

  lemma Extend(s: Sys, step: WStep, s': Sys)
    requires WReachable(s) && WNext(s, step, s')
    ensures WReachable(s')
  {
    var states, steps :| IsWRun(states, steps) && states[|steps|] == s;
    var states', steps' := states + [s'], steps + [step];
    forall i | 0 <= i < |steps'| ensures WNext(states'[i], steps'[i], states'[i + 1]) {
      if i < |steps| {
        assert WNext(states[i], steps[i], states[i + 1]);
      }
    }
    assert IsWRun(states', steps') && states'[|steps'|] == s';
  }

  // ---- The tracee's life ----

  /** A system in which nobody waits. */
  function Idle(t: State, tracer: map<Pid, Pid>): Sys {
    Sys(t, map[], tracer, [], {}, {}, false)
  }

  lemma IdleStep(t: State, tracer: map<Pid, Pid>, step: Step)
    requires WReachable(Idle(t, tracer)) && Enabled(t, step) && !step.Reap?
    requires forall z :: z in tracer ==> tracer[z] == INIT
    requires step.ExitAdvance? ==> step.p != INIT
    ensures WReachable(Idle(Apply(t, step), tracer))
  {
    var s := Idle(t, tracer);
    if step.ExitAdvance? {
      assert Untraced(tracer, step.p) == tracer;
      assert ZombieTracees(s, step.p) == {};
    }
    assert forall q :: WakeAll(map[], q) == map[];
    assert {} - Adopted(s, step) == {};
    assert DoTree(s, step) == Idle(Apply(t, step), tracer);
    Extend(s, TreeStep(step), Idle(Apply(t, step), tracer));
  }

  const PARENT := NewChild(0, false).(children := Some({2}))

  /** Init and its child 2. */
  function Pair(child: Proc): State {
    State(map[INIT := PARENT, 2 := child], map[], 3, {INIT, 2}, 2, ZERO_CPU, false)
  }

  lemma Born()
    ensures WReachable(Idle(Pair(NewChild(1, false)), map[]))
  {
    assert IsWRun([START], []) && [START][0] == START;
    IdleStep(BOOT, map[], CloneStart(0, 1, 2, false));
    var t1 := DoCloneStart(BOOT, 0, 1, 2, false);
    IdleStep(t1, map[], ClonePick(0, true));
    var t2 := DoClonePick(t1, 0, true);
    IdleStep(t2, map[], CloneLink(0));
    var t3 := DoCloneLink(t2, 0);
    assert t3.procs[1].children.value == {2};
    assert t3.procs == Pair(NewChild(1, false)).procs;
    assert t3.cloners == map[];
  }

  lemma Traced()
    ensures WReachable(Idle(Pair(NewChild(1, false)), map[2 := 1]))
  {
    Born();
    var s := Idle(Pair(NewChild(1, false)), map[]);
    assert s.tracer[2 := 1] == map[2 := 1];
    Extend(s, Attach(2, 1), Idle(Pair(NewChild(1, false)), map[2 := 1]));
  }

  /** Both processes and nobody waiting, with 2 traced by init. */
  ghost predicate Lives(child: Proc) {
    WReachable(Idle(Pair(child), map[2 := 1]))
  }

  lemma LivesOn(child: Proc, step: Step, child': Proc)
    requires Lives(child) && Enabled(Pair(child), step)
    requires step == ExitStart(2) || step == ExitAdvance(2, true)
    requires Apply(Pair(child), step) == Pair(child')
    ensures Lives(child')
  {
    IdleStep(Pair(child), map[2 := 1], step);
  }

  lemma PairUpdate(child: Proc, child': Proc)
    ensures Put(Pair(child), 2, child') == Pair(child')
  {
    assert Pair(child).procs[2 := child'] == Pair(child').procs;
  }

  /** One exit step of 2 that only moves its program counter. */
  lemma Advances(child: Proc, pc': ExitPc)
    requires Lives(child) && child.parent == 1 && pc' == NextPc(Pair(child), 2, true)
    requires var pc := child.pc; !pc.Running? && !pc.Exited? && !pc.Moving? && !pc.HandedOver?
    ensures Lives(child.(pc := pc'))
  {
    PairUpdate(child, child.(pc := pc'));
    LivesOn(child, ExitAdvance(2, true), child.(pc := pc'));
  }

  function Leaving(pc: ExitPc): Proc {
    NewChild(1, false).(pc := pc)
  }

  /** The traced child walks to its exit, up to the hand-over of its (no) children ... */
  lemma TraceeWalks() returns (l: nat)
    ensures Lives(Leaving(Moving(1, false, l)))
  {
    Traced();
    PairUpdate(Leaving(Running), Leaving(ClearingTracees));
    LivesOn(Leaving(Running), ExitStart(2), Leaving(ClearingTracees));
    Advances(Leaving(ClearingTracees), WakingTracer);
    var l0 := LinkSum(Pair(Leaving(WakingTracer)), 2) + 1;
    Advances(Leaving(WakingTracer), ReadingLink(l0));
    l := LinkSum(Pair(Leaving(ReadingLink(l0))), 2);
    Advances(Leaving(ReadingLink(l0)), Walking(1, Arrive, l));
    Advances(Leaving(Walking(1, Arrive, l)), Moving(1, false, l));
  }

  const GONE := Leaving(Exited).(children := None, zombie := true)

  lemma TraceeHandsOver()
    ensures Lives(GONE.(zombie := false, pc := WakingReaper(1)))
  {
    var l := TraceeWalks();
    var child := Leaving(Moving(1, false, l));
    var child' := GONE.(zombie := false, pc := WakingReaper(1));
    assert {2} + {} == {2};
    assert Moved(Pair(child).procs, 2, 1, {}, WakingReaper(1)) == Pair(child').procs;
    LivesOn(child, ExitAdvance(2, true), child');
  }

  lemma TraceeBecomesZombie()
    ensures Lives(GONE.(pc := ReadingParent))
  {
    TraceeHandsOver();
    Advances(GONE.(zombie := false, pc := WakingReaper(1)), HandedOver);
    PairUpdate(GONE.(zombie := false, pc := HandedOver), GONE.(pc := ReadingParent));
    LivesOn(GONE.(zombie := false, pc := HandedOver), ExitAdvance(2, true), GONE.(pc := ReadingParent));
  }

  /** ... and is gone for everyone but its tracer. */
  lemma TraceeDies()
    ensures Lives(GONE)
  {
    TraceeBecomesZombie();
    Advances(GONE.(pc := ReadingParent), WakingParent(1));
    Advances(GONE.(pc := WakingParent(1)), Exited);
  }

  // ---- The abandoned zombie ----

  function Thread(isTracer: bool, pc: WaitPc, queued: bool): Waiter {
    Waiter(1, AnyChild, isTracer, true, pc, queued, false)
  }

  /** Thread 0 of init waits for any child while another thread of init traces the zombie. */
  function Watching(pc: WaitPc, queued: bool): Sys {
    Sys(Pair(GONE), map[0 := Thread(false, pc, queued)], map[2 := 1], [], {}, {}, false)
  }

  lemma WatchUpdate(pc: WaitPc, queued: bool, pc': WaitPc)
    ensures SetWaitPc(Watching(pc, queued), 0, Thread(false, pc, queued), pc') == Watching(pc', queued)
  {
    assert Watching(pc, queued).waiters[0 := Thread(false, pc', queued)] == Watching(pc', queued).waiters;
  }

  lemma NoTracees(fast: bool, queued: bool)
    requires WReachable(Watching(Tracees(fast), queued))
    ensures WReachable(Watching(Scanning(fast, false, {}), queued))
  {
    WatchUpdate(Tracees(fast), queued, Children(fast, false));
    Extend(Watching(Tracees(fast), queued), TraceesNone(0), Watching(Children(fast, false), queued));
    WatchUpdate(Children(fast, false), queued, Scanning(fast, false, {}));
    Extend(Watching(Children(fast, false), queued), LockChildren(0), Watching(Scanning(fast, false, {}), queued));
  }

  lemma TracedChild(fast: bool, queued: bool)
    requires WReachable(Watching(Scanning(fast, false, {}), queued))
    ensures WReachable(Watching(if fast then Enqueue else Asleep, queued))
  {
    assert {} + {2} == {2};
    WatchUpdate(Scanning(fast, false, {}), queued, Scanning(fast, true, {2}));
    Extend(Watching(Scanning(fast, false, {}), queued), ScanChild(0, 2), Watching(Scanning(fast, true, {2}), queued));
    WatchUpdate(Scanning(fast, true, {2}), queued, if fast then Enqueue else Asleep);
    Extend(Watching(Scanning(fast, true, {2}), queued), ScanDone(0),
           Watching(if fast then Enqueue else Asleep, queued));
  }

  lemma StartsWatching()
    ensures WReachable(Watching(Tracees(true), false))
  {
    TraceeDies();
    var s := Idle(Pair(GONE), map[2 := 1]);
    assert s.waiters[0 := Thread(false, Tracees(true), false)] == Watching(Tracees(true), false).waiters;
    Extend(s, WaitStart(0, 1, AnyChild, false, true), Watching(Tracees(true), false));
  }

  lemma Sleeps()
    ensures WReachable(Watching(Asleep, true))
  {
    StartsWatching();
    NoTracees(true, false);
    TracedChild(true, false);
    var s := Watching(Enqueue, false);
    assert s.waiters[0 := Thread(false, Tracees(false), true)] == Watching(Tracees(false), true).waiters;
    Extend(s, EnqueueSelf(0), Watching(Tracees(false), true));
    NoTracees(false, true);
    TracedChild(false, true);
  }

  /**
   The exception in `NoLostChildWakeup` is real: in a reachable state where every exit is
   over, a thread of the parent sleeps, not woken, although its zombie child is untraced and
   ready, and nobody is left to wake it.
   */
  lemma TracerExitLosesWakeup() returns (s: Sys)
    ensures WReachable(s) && s.waiters.Keys == {0} && s.waiters[0].pc.Asleep? && !s.waiters[0].woken
    ensures Holds(s.tree, s.waiters[0].owner, 2) && At(s.tree, 2).zombie && 2 !in s.tracer
    ensures s.waiters[0].filter == AnyChild
    ensures !Covered(s, s.waiters[0].owner, 2) && 2 in s.abandoned
  {
    Sleeps();
    s := DoClearTracees(Watching(Asleep, true), 1);
    Extend(Watching(Asleep, true), ClearTracees(1), s);
  }

  // ---- Two waiting threads ----

  function Claimed(pc: WaitPc): Sys {
    Sys(Pair(GONE), map[0 := Thread(true, pc, false)], map[], [TraceeExit(1, 2, true)], {}, {}, false)
  }

  /** The tracing thread 0 reports the end of its own child ... */
  lemma TracerReports()
    ensures WReachable(Claimed(Detached(2)))
  {
    TraceeDies();
    var s := Idle(Pair(GONE), map[2 := 1]);
    var s1 := s.(waiters := map[0 := Thread(true, Tracees(true), false)]);
    assert s.waiters[0 := Thread(true, Tracees(true), false)] == s1.waiters;
    Extend(s, WaitStart(0, 1, AnyChild, true, true), s1);
    assert s1.waiters[0 := Thread(true, Detached(2), false)] == Claimed(Detached(2)).waiters;
    assert s1.tracer - {2} == map[];
    assert [] + [TraceeExit(1, 2, true)] == [TraceeExit(1, 2, true)];
    Extend(s1, TraceeFound(0, 2), Claimed(Detached(2)));
  }

  /** ... and is about to reap it. */
  lemma TracerIsAboutToReap()
    ensures WReachable(Claimed(OurChild(2)))
  {
    TracerReports();
    var s := Claimed(Detached(2));
    assert s.waiters[0 := Thread(true, OurChild(2), false)] == Claimed(OurChild(2)).waiters;
    Extend(s, DetachedNext(0, true), Claimed(OurChild(2)));
  }

  /** Thread 1 starts to wait meanwhile ... */
  function Rival(pc: WaitPc): Sys {
    Claimed(OurChild(2)).(waiters := map[0 := Thread(true, OurChild(2), false), 1 := Thread(false, pc, false)])
  }

  lemma RivalMoves(pc: WaitPc, step: WStep, pc': WaitPc)
    requires WReachable(Rival(pc)) && WEnabled(Rival(pc), step)
    requires WApply(Rival(pc), step) == SetWaitPc(Rival(pc), 1, Thread(false, pc, false), pc')
    ensures WReachable(Rival(pc'))
  {
    assert Rival(pc).waiters[1 := Thread(false, pc', false)] == Rival(pc').waiters;
    Extend(Rival(pc), step, Rival(pc'));
  }

  lemma RivalScans()
    ensures WReachable(Rival(Scanning(true, false, {})))
  {
    TracerIsAboutToReap();
    var s := Claimed(OurChild(2));
    assert s.waiters[1 := Thread(false, Tracees(true), false)] == Rival(Tracees(true)).waiters;
    Extend(s, WaitStart(1, 1, AnyChild, false, true), Rival(Tracees(true)));
    RivalMoves(Tracees(true), TraceesNone(1), Children(true, false));
    RivalMoves(Children(true, false), LockChildren(1), Scanning(true, false, {}));
  }

  /** ... finds the child untraced, reaps it and reports its end as well. */
  lemma RivalReapsFirst() returns (s: Sys)
    ensures WReachable(s) && !s.broken && !s.tree.panicked
    ensures s.waiters == map[0 := Thread(true, OurChild(2), false)] && !Holds(s.tree, 1, 2)
    ensures s.reports == [TraceeExit(1, 2, true), ZombieChild(1, 2)]
  {
    RivalScans();
    var s0 := Rival(Scanning(true, false, {}));
    s := DoScanChild(s0, 1, Thread(false, Scanning(true, false, {}), false), 2);
    Extend(s0, ScanChild(1, 2), s);
    assert s.waiters == map[0 := Thread(true, OurChild(2), false)];
  }

  /** One thread has claimed the end, a sibling has reported it too, and the unwrapped removal fails. */
  lemma TwoWaitersBreakReap() returns (s: Sys)
    ensures WReachable(s) && s.broken
    ensures s.reports == [TraceeExit(1, 2, true), ZombieChild(1, 2)]
  {
    var s0 := RivalReapsFirst();
    s := DoOurChild(s0, 0, Thread(true, OurChild(2), false), 2);
    Extend(s0, ReapOurChild(0), s);
  }
}
