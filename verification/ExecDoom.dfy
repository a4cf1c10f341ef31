/**
 Nobody outlives an exec or a group exit by accident: from the moment either starts, every
 other live thread of the process has SIGKILL pending, threads that were being created
 included.
 */
module ExecDoom {
  import opened TaskSets
  import opened ExecProtocol
  import opened ExecInvariant
  import opened ExecTheorems

  ghost predicate DoomOk(s: State, t: TaskId) {
    t in s.threads && IsLive(s.threads[t].pc) ==>
      && (s.tasks.inExecve ==> InExec(s.threads[t].pc) || s.threads[t].killed)
      && (s.tasks.hasExitedGroup ==> s.threads[t].killed)
  }

  ghost predicate Doomed(s: State) {
    forall t {:trigger DoomOk(s, t)} :: DoomOk(s, t)
  }

  /** All threads but `t` are as doomed as they should be. */
  ghost predicate DoomedBut(s: State, t: TaskId) {
    forall x {:trigger DoomOk(s, x)} :: x != t ==> DoomOk(s, x)
  }

  /** A step that changes one thread, starting neither an exec nor a group exit. */
  lemma OneThreadKeeps(s: State, s': State, t: TaskId, th: Thread)
    requires Doomed(s) && t in s.threads && s'.threads == s.threads[t := th]
    requires s'.tasks.inExecve == s.tasks.inExecve && s'.tasks.hasExitedGroup == s.tasks.hasExitedGroup
    requires IsLive(th.pc) ==> IsLive(s.threads[t].pc)
    requires s.threads[t].killed ==> th.killed
    requires InExec(s.threads[t].pc) ==> InExec(th.pc)
    ensures Doomed(s')
  {
    forall x ensures DoomOk(s', x) { assert DoomOk(s, x); }
  }

  lemma CloneDooms(s: State, t: TaskId, child: TaskId)
    requires Doomed(s) && t in s.threads && s.threads[t].pc.Running?
    ensures Doomed(DoClone(s, t, child))
  {
    forall x ensures DoomOk(DoClone(s, t, child), x) { assert DoomOk(s, x); }
  }

  lemma PublishDooms(s: State, t: TaskId)
    requires Inv(s) && Doomed(s) && t in s.threads && s.threads[t].pc.Cloning? && s.tableLock.None?
    ensures Doomed(DoPublish(s, t))
  {
    var c := s.threads[t].pc.child;
    assert PlaceOk(s, t) && PlaceOk(s, c);
    var s1 := Go(s, c, Running);
    OneThreadKeeps(s, s1, c, s.threads[c].(pc := Running));
    OneThreadKeeps(s1, DoPublish(s, t), t, s.threads[t].(pc := Running));
  }

  lemma KillOthersDooms(s: State, t: TaskId)
    requires Inv(s) && t in s.threads
    ensures forall x :: x in s.threads && x != t && IsLive(s.threads[x].pc) ==> KillOthers(s, t).threads[x].killed
  {
    forall x | x in s.threads && x != t && IsLive(s.threads[x].pc) ensures KillOthers(s, t).threads[x].killed {
      assert PlaceOk(s, x);
      LiveElements(s.tasks, x);
    }
  }

  lemma ExecStartDooms(s: State, t: TaskId)
    requires Inv(s) && Doomed(s) && t in s.threads && s.threads[t].pc.Running?
    ensures Doomed(DoExecStart(s, t))
  {
    var s' := DoExecStart(s, t);
    KillOthersDooms(s, t);
    forall x ensures DoomOk(s', x) { assert DoomOk(s, x); }
  }

  lemma WakeExecDooms(s: State, t: TaskId)
    requires Inv(s) && DoomedBut(s, t)
    ensures DoomedBut(WakeExec(s), t)
  {
    var s' := WakeExec(s);
    if s.tasks.execveWaker.Some? { assert RoleOk(s, s.tasks.execveWaker.value); }
    forall x | x != t ensures DoomOk(s', x) { assert DoomOk(s, x); }
  }

  /** The exiting thread itself need not be doomed. */
  lemma RemoveDooms(s: State, t: TaskId)
    requires Inv(s) && DoomedBut(s, t) && t in s.threads && s.threads[t].pc.Running?
    ensures Doomed(DoRemove(s, t))
  {
    LiveCanBeRemoved(s, t);
    WakeExecDooms(s, t);
    var s1 := WakeExec(s);
    forall x ensures DoomOk(DoRemove(s, t), x) { assert x != t ==> DoomOk(s1, x); }
  }

  lemma ExitDooms(s: State, t: TaskId, group: bool)
    requires Inv(s) && Doomed(s) && t in s.threads && s.threads[t].pc.Running?
    ensures Doomed(DoExit(s, t, group))
  {
    if group && !s.tasks.hasExitedGroup && !s.tasks.inExecve {
      var s1 := KillOthers(s, t).(tasks := s.tasks.(hasExitedGroup := true));
      KillOthersKeeps(s, t);
      GroupKeeps(KillOthers(s, t));
      KillOthersDooms(s, t);
      forall x | x != t ensures DoomOk(s1, x) {}
      RemoveDooms(s1, t);
    } else {
      RemoveDooms(s, t);
    }
  }

  lemma WaitLoopDooms(s: State, step: Step)
    requires Inv(s) && Doomed(s) && Enabled(s, step)
    requires step.Lock? || step.Check? || step.Arm? || step.WakeUp? || step.ExecFail?
    ensures Doomed(Apply(s, step))
  {
    var s' := Apply(s, step);
    assert RoleOk(s, step.t);
    NoWakerWhenArming(s, step.t);
    OneThreadKeeps(s, s', step.t, s'.threads[step.t]);
  }

  lemma NoWakerWhenArming(s: State, t: TaskId)
    requires Inv(s) && t in s.threads
    ensures s.threads[t].pc.Arming? ==> s.tasks.execveWaker.None?
  {
    if s.threads[t].pc.Arming? { NoWaker(s, t); }
  }

  lemma AsideDooms(s: State, step: Step)
    requires Doomed(s) && Enabled(s, step)
    requires step.Kill? || step.Ring? || step.Signal? || step.RemoveTid? || step.Leave?
    ensures Doomed(Apply(s, step))
  {
    var s' := Apply(s, step);
    if step.Signal? { assert s.threads == s.threads[step.t := s.threads[step.t]]; }
    if s'.panicked {
      assert s.threads == s.threads[step.t := s.threads[step.t]];
    }
    OneThreadKeeps(s, s', step.t, s'.threads[step.t]);
  }

  lemma PromoteDooms(s: State, t: TaskId)
    requires Inv(s) && Doomed(s) && t in s.threads && s.threads[t].pc.Promoting?
    ensures Doomed(DoPromote(s, t))
  {
    if s.threads[t].tid != s.pid { PromotionIsSafe(s, t); }
    OneThreadKeeps(s, DoPromote(s, t), t, DoPromote(s, t).threads[t]);
  }

  lemma RelinkDooms(s: State, t: TaskId)
    requires Inv(s) && Doomed(s) && t in s.threads && s.threads[t].pc.Relinking?
    ensures Doomed(DoRelink(s, t))
  {
    assert PlaceOk(s, t);
    OneThreadKeeps(s, DoRelink(s, t), t, s.threads[t].(pc := Executed));
  }

  lemma FinishDooms(s: State, t: TaskId)
    requires Inv(s) && Doomed(s) && t in s.threads && (s.threads[t].pc.Executed? || s.threads[t].pc.Failed?)
    ensures Doomed(DoFinish(s, t))
  {
    forall x ensures DoomOk(DoFinish(s, t), x) { assert DoomOk(s, x); }
  }

  lemma StepDooms(s: State, step: Step, s': State)
    requires Inv(s) && Doomed(s) && Next(s, step, s')
    ensures Doomed(s')
  {
    match step
    case ExecStart(t) => ExecStartDooms(s, t);
    case Exit(t, group) => ExitDooms(s, t, group);
    case Finish(t) => FinishDooms(s, t);
    case Clone(t, child) => CloneDooms(s, t, child);
    case Publish(t) => PublishDooms(s, t);
    case Promote(t) => PromoteDooms(s, t);
    case Relink(t) => RelinkDooms(s, t);
    case Kill(_) => AsideDooms(s, step);
    case Ring(_) => AsideDooms(s, step);
    case Signal(_) => AsideDooms(s, step);
    case RemoveTid(_) => AsideDooms(s, step);
    case Leave(_) => AsideDooms(s, step);
    case _ => WaitLoopDooms(s, step);
  }

  lemma StepsDoom()
    ensures forall s, step, s' {:trigger Next(s, step, s')} :: Inv(s) && Doomed(s) && Next(s, step, s') ==> Doomed(s')
  {
    forall s, step, s' | Inv(s) && Doomed(s) && Next(s, step, s') ensures Doomed(s') {
      StepDooms(s, step, s');
    }
  }

  lemma {:induction false} RunDooms(states: seq<State>, steps: seq<Step>, i: nat)
    requires IsRun(states, steps) && i < |states|
    ensures Doomed(states[i])
  {
    if i > 0 {
      RunDooms(states, steps, i - 1);
      RunKeepsInv(states, steps, i - 1);
      StepsDoom();
    }
  }

  /** While one thread executes a new program, every other live thread has SIGKILL pending. */
  lemma SiblingsAreDoomed(s: State, t: TaskId, u: TaskId)
    requires Reachable(s) && t in s.threads && u in s.threads && t != u
    requires InExec(s.threads[t].pc) && IsLive(s.threads[u].pc)
    ensures s.threads[u].killed && !InExec(s.threads[u].pc)
  {
    var states, steps :| IsRun(states, steps) && states[|steps|] == s;
    RunDooms(states, steps, |steps|);
    RunKeepsInv(states, steps, |steps|);
    assert DoomOk(s, u) && RoleOk(s, t) && PairOk(s, t, u);
  }

  /** Once a group exit has begun, every live thread has SIGKILL pending and no thread is added. */
  lemma GroupIsDoomed(s: State, u: TaskId)
    requires Reachable(s) && s.tasks.hasExitedGroup && u in s.threads && IsLive(s.threads[u].pc)
    ensures s.threads[u].killed && Refuses(s.tasks)
  {
    var states, steps :| IsRun(states, steps) && states[|steps|] == s;
    RunDooms(states, steps, |steps|);
    assert DoomOk(s, u);
  }

  // ---- The exec flag ----

  /** The flag is set only while some thread is executing a new program. */
  ghost predicate FlagOk(s: State) {
    s.tasks.inExecve ==> exists t :: t in s.threads && InExec(s.threads[t].pc)
  }

  /** Whoever is executing a new program still is, unless the flag has been reset. */
  lemma ExecGoesOn(s: State, step: Step, t: TaskId)
    requires Inv(s) && Enabled(s, step) && t in s.threads && InExec(s.threads[t].pc) && step.t == t && !step.Finish?
    ensures t in Apply(s, step).threads && InExec(Apply(s, step).threads[t].pc)
  {
    assert PlaceOk(s, t) && RoleOk(s, t);
    NoWakerWhenArming(s, t);
    if step.Promote? && s.threads[t].tid != s.pid { PromotionIsSafe(s, t); }
  }

  lemma RemoveLeavesExec(s: State, u: TaskId, t: TaskId)
    requires Inv(s) && u in s.threads && s.threads[u].pc.Running? && t in s.threads && t != u
    ensures var s' := DoRemove(s, u);
            t in s'.threads && s'.threads[t].pc == s.threads[t].pc && s'.tasks.inExecve == s.tasks.inExecve
  {
    LiveCanBeRemoved(s, u);
  }

  lemma ExitLeavesExec(s: State, u: TaskId, group: bool, t: TaskId)
    requires Inv(s) && u in s.threads && s.threads[u].pc.Running? && t in s.threads && t != u
    ensures var s' := DoExit(s, u, group);
            t in s'.threads && s'.threads[t].pc == s.threads[t].pc && s'.tasks.inExecve == s.tasks.inExecve
  {
    if group && !s.tasks.hasExitedGroup && !s.tasks.inExecve {
      KillOthersKeeps(s, u);
      GroupKeeps(KillOthers(s, u));
      RemoveLeavesExec(KillOthers(s, u).(tasks := s.tasks.(hasExitedGroup := true)), u, t);
    } else {
      RemoveLeavesExec(s, u, t);
    }
  }

  lemma CloneLeavesExec(s: State, step: Step, t: TaskId)
    requires Inv(s) && Enabled(s, step) && (step.Clone? || step.Publish?)
    requires t in s.threads && InExec(s.threads[t].pc) && step.t != t
    ensures t in Apply(s, step).threads && InExec(Apply(s, step).threads[t].pc)
  {
    assert PlaceOk(s, step.t);
    if step.Clone? { assert PlaceOk(s, step.child); }
  }

  lemma LocalLeavesExec(s: State, step: Step, t: TaskId)
    requires Enabled(s, step) && t in s.threads && InExec(s.threads[t].pc) && step.t != t
    requires step.Lock? || step.Check? || step.Arm? || step.WakeUp? || step.ExecFail? || step.Ring? || step.Signal?
    ensures t in Apply(s, step).threads && InExec(Apply(s, step).threads[t].pc)
  {
  }

  /** A step of another thread leaves the exec thread's program counter alone. */
  lemma OthersLeaveExec(s: State, step: Step, t: TaskId)
    requires Inv(s) && Enabled(s, step) && t in s.threads && InExec(s.threads[t].pc) && step.t != t
    ensures t in Apply(s, step).threads && InExec(Apply(s, step).threads[t].pc)
  {
    match step
    case Exit(u, group) => ExitLeavesExec(s, u, group, t);
    case Clone(_, _) => CloneLeavesExec(s, step, t);
    case Publish(_) => CloneLeavesExec(s, step, t);
    case ExecStart(_) =>
      assert RoleOk(s, t);
    case Promote(_) =>
    case Relink(_) =>
    case Finish(_) =>
    case Kill(_) =>
    case Leave(_) =>
    case RemoveTid(_) =>
    case _ => LocalLeavesExec(s, step, t);
  }

  lemma StepKeepsFlag(s: State, step: Step, s': State)
    requires Inv(s) && FlagOk(s) && Next(s, step, s')
    ensures FlagOk(s')
  {
    if s.tasks.inExecve && !step.Finish? {
      var t :| t in s.threads && InExec(s.threads[t].pc);
      if step.t == t { ExecGoesOn(s, step, t); } else { OthersLeaveExec(s, step, t); }
    } else if step.ExecStart? && !Refuses(s.tasks) {
      assert s'.threads[step.t].pc.Entering?;
    } else {
      FlagStays(s, step);
    }
  }

  lemma FlagStays(s: State, step: Step)
    requires Inv(s) && Enabled(s, step) && (!s.tasks.inExecve || step.Finish?)
    requires step.ExecStart? ==> Refuses(s.tasks)
    ensures !Apply(s, step).tasks.inExecve
  {
    match step
    case Exit(t, group) => ExitResetsNothing(s, t, group);
    case _ =>
  }

  lemma ExitResetsNothing(s: State, t: TaskId, group: bool)
    ensures DoExit(s, t, group).tasks.inExecve == s.tasks.inExecve
  {
  }

  lemma StepsKeepFlag()
    ensures forall s, step, s' {:trigger Next(s, step, s')} :: Inv(s) && FlagOk(s) && Next(s, step, s') ==> FlagOk(s')
  {
    forall s, step, s' | Inv(s) && FlagOk(s) && Next(s, step, s') ensures FlagOk(s') {
      StepKeepsFlag(s, step, s');
    }
  }

  lemma {:induction false} RunKeepsFlag(states: seq<State>, steps: seq<Step>, i: nat)
    requires IsRun(states, steps) && i < |states|
    ensures FlagOk(states[i])
  {
    if i > 0 {
      RunKeepsFlag(states, steps, i - 1);
      RunKeepsInv(states, steps, i - 1);
      StepsKeepFlag();
    }
  }

  /** The exec flag is set exactly while one thread, and only one, executes a new program. */
  lemma ExecFlagExact(s: State)
    requires Reachable(s)
    ensures s.tasks.inExecve <==> exists t :: t in s.threads && InExec(s.threads[t].pc)
    ensures forall t, u :: t in s.threads && u in s.threads && InExec(s.threads[t].pc) && InExec(s.threads[u].pc)
              ==> t == u
  {
    var states, steps :| IsRun(states, steps) && states[|steps|] == s;
    RunKeepsFlag(states, steps, |steps|);
    RunKeepsInv(states, steps, |steps|);
    forall t | t in s.threads && InExec(s.threads[t].pc) ensures s.tasks.inExecve { assert RoleOk(s, t); }
    forall t, u | t in s.threads && u in s.threads && InExec(s.threads[t].pc) && InExec(s.threads[u].pc)
      ensures t == u
    {
      assert PairOk(s, t, u);
    }
  }
}
