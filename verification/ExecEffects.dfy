/**
 What the steps of a process's threads do: when a group exit or an exec begins and whom it
 kills, when a thread is added, who is killed or woken by what, and how an exec decides.
 */
module ExecEffects {
  import opened Prelude
  import opened TaskSets
  import opened ExecProtocol
  import opened ExecInvariant
  import opened ExecTheorems
  import opened ExecDoom

  /** Every live thread but `t` has SIGKILL pending in `s'`. */
  ghost predicate OthersKilled(s: State, s': State, t: TaskId) {
    forall u :: u in s.threads && u != t && IsLive(s.threads[u].pc) ==> u in s'.threads && s'.threads[u].killed
  }

  /** ... and the wake that goes with it is on its way. */
  ghost predicate OthersRung(s: State, s': State, t: TaskId) {
    forall u :: u in s.threads && u != t && IsLive(s.threads[u].pc) ==> u in s'.ringing
  }

  ghost predicate NobodyElseKilled(s: State, s': State, t: TaskId) {
    && s'.ringing == s.ringing
    && forall u :: u in s.threads && u != t ==> u in s'.threads && s'.threads[u].killed == s.threads[u].killed
  }

  // ---- Group exit ----

  lemma RemoveKillsNobody(s: State, t: TaskId)
    requires Inv(s) && t in s.threads && s.threads[t].pc.Running?
    ensures var s' := DoRemove(s, t);
            && NobodyElseKilled(s, s', t)
            && s'.tasks.hasExitedGroup == s.tasks.hasExitedGroup && s'.tasks.inExecve == s.tasks.inExecve
  {
    LiveCanBeRemoved(s, t);
    if s.tasks.execveWaker.Some? { assert RoleOk(s, s.tasks.execveWaker.value); }
  }

  lemma KillOthersRings(s: State, t: TaskId, u: TaskId)
    requires Inv(s) && u in s.threads && u != t && IsLive(s.threads[u].pc)
    ensures u in KillOthers(s, t).ringing
  {
    assert PlaceOk(s, u);
    LiveElements(s.tasks, u);
    assert u in multiset(s.tasks.tasks);
  }

  lemma FirstGroupExit(s: State, t: TaskId)
    requires Inv(s) && t in s.threads && s.threads[t].pc.Running? && !s.tasks.hasExitedGroup && !s.tasks.inExecve
    ensures var s' := DoExit(s, t, true);
            && s'.tasks.hasExitedGroup && !s'.tasks.inExecve && OthersKilled(s, s', t) && OthersRung(s, s', t)
  {
    var s1 := KillOthers(s, t).(tasks := s.tasks.(hasExitedGroup := true));
    KillOthersKeeps(s, t);
    GroupKeeps(KillOthers(s, t));
    KillOthersDooms(s, t);
    RemoveKillsNobody(s1, t);
    forall u | u in s.threads && u != t && IsLive(s.threads[u].pc) ensures u in s1.ringing { KillOthersRings(s, t, u); }
  }

  /**
   A group exit sets the group flag unless an exec is under way, and then every other live
   thread has SIGKILL pending; the call that sets the flag also has their wakes on the way.
   Any other exit leaves the flag and the other threads' signals alone.
   */
  lemma GroupExitEffect(s: State, t: TaskId, group: bool)
    requires Reachable(s) && Enabled(s, Exit(t, group))
    ensures var s' := Apply(s, Exit(t, group));
            && (s'.tasks.hasExitedGroup <==> s.tasks.hasExitedGroup || (group && !s.tasks.inExecve))
            && s'.tasks.inExecve == s.tasks.inExecve
            && (group && !s.tasks.inExecve ==> OthersKilled(s, s', t))
            && (if s'.tasks.hasExitedGroup && !s.tasks.hasExitedGroup
                then OthersRung(s, s', t)
                else NobodyElseKilled(s, s', t))
  {
    ReachableInv(s);
    if group && !s.tasks.hasExitedGroup && !s.tasks.inExecve {
      FirstGroupExit(s, t);
    } else {
      RemoveKillsNobody(s, t);
      if s.tasks.hasExitedGroup {
        forall u | u in s.threads && u != t && IsLive(s.threads[u].pc) ensures s.threads[u].killed {
          GroupIsDoomed(s, u);
        }
      }
    }
  }

  // ---- Exec ----

  /**
   An exec begins exactly if neither a group exit nor another exec has; it sets the flag and
   kills and rings every other live thread.  A refused one changes nothing.
   */
  lemma ExecStartEffect(s: State, t: TaskId)
    requires Reachable(s) && Enabled(s, ExecStart(t))
    ensures var s' := Apply(s, ExecStart(t));
            if s.tasks.hasExitedGroup || s.tasks.inExecve then s' == s
            else
              && s'.tasks == s.tasks.(inExecve := true) && t in s'.threads && InExec(s'.threads[t].pc)
              && OthersKilled(s, s', t) && OthersRung(s, s', t)
  {
    ReachableInv(s);
    KillOthersDooms(s, t);
    forall u | u in s.threads && u != t && IsLive(s.threads[u].pc) ensures u in KillOthers(s, t).ringing {
      KillOthersRings(s, t, u);
    }
  }

  /** The exec thread goes on to take over exactly if no other thread is live; else it arms its waker. */
  lemma CheckDecides(s: State, t: TaskId)
    requires Reachable(s) && Enabled(s, Check(t))
    ensures var s' := Apply(s, Check(t));
            && t in s'.threads
            && (s'.threads[t].pc.Promoting? <==> forall u :: u in s.threads && u != t ==> !IsLive(s.threads[u].pc))
            && (s'.threads[t].pc.Promoting? || (s'.threads[t].pc.Arming? && s'.threads[t].signalled))
  {
    ReachableInv(s);
    assert PlaceOk(s, t) && RoleOk(s, t);
    OthersGoneIff(s, t);
    if Live(s.tasks) == {t} {
      forall u | u in s.threads && u != t ensures !IsLive(s.threads[u].pc) { assert PlaceOk(s, u); }
    } else {
      assert t in Live(s.tasks);
      var u :| u in Live(s.tasks) && u != t;
      assert PlaceOk(s, u);
    }
  }

  /** A pending SIGKILL makes the exec fail instead of sleep; otherwise it sleeps with its waker registered. */
  lemma ArmDecides(s: State, t: TaskId)
    requires Reachable(s) && Enabled(s, Arm(t))
    ensures var s' := Apply(s, Arm(t));
            && t in s'.threads && s'.lock == None
            && (if s.threads[t].killed then s'.threads[t].pc.Failed? && s'.tasks == s.tasks
                else s'.threads[t].pc.Sleeping? && s'.tasks == s.tasks.(execveWaker := Some(t)))
  {
    ReachableInv(s);
    NoWakerWhenArming(s, t);
  }

  /** At its end an exec resets the flag; one that has failed leaves its thread with SIGKILL pending. */
  lemma FinishEffect(s: State, t: TaskId)
    requires Enabled(s, Finish(t))
    ensures var s' := Apply(s, Finish(t));
            && s'.tasks == s.tasks.(inExecve := false) && t in s'.threads && s'.threads[t].pc.Running?
            && (s'.threads[t].killed <==> s.threads[t].killed || s.threads[t].pc.Failed?)
            && forall u :: u in s.threads && u != t ==> u in s'.threads && s'.threads[u] == s.threads[u]
  {
  }

  // ---- Threads come ----

  /**
   A thread is added exactly if neither a group exit nor an exec has begun: a fresh one,
   live, with nothing pending, and in the PID table once it is published.
   */
  lemma CloneThreadEffect(s: State, t: TaskId, child: TaskId)
    requires Reachable(s) && Enabled(s, Clone(t, child))
    ensures var s' := Apply(s, Clone(t, child));
            if s.tasks.hasExitedGroup || s.tasks.inExecve then s' == s.(nextTid := s'.nextTid)
            else
              && child !in s.threads && Live(s'.tasks) == Live(s.tasks) + {child}
              && child in s'.threads && t in s'.threads
              && s'.threads[child] == Thread(child, Born, false, false, false)
              && s'.threads[t] == s.threads[t].(pc := Cloning(child))
              && (forall u :: u in s.threads && u != t ==> u in s'.threads && s'.threads[u] == s.threads[u])
              && s'.table == s.table
  {
    ReachableInv(s);
    assert PlaceOk(s, child) && PlaceOk(s, t);
    InsertedLive(s.tasks, child);
  }

  lemma PublishEffect(s: State, t: TaskId)
    requires Reachable(s) && Enabled(s, Publish(t))
    ensures var s', child := Apply(s, Publish(t)), s.threads[t].pc.child;
            && child in s.threads && child in s'.threads && t in s'.threads && !s'.panicked
            && s'.threads[child] == s.threads[child].(pc := Running) && s'.threads[t] == s.threads[t].(pc := Running)
            && s'.table == s.table[child := child] && s'.tasks == s.tasks
  {
    ReachableInv(s);
    assert PlaceOk(s, t) && PlaceOk(s, s.threads[t].pc.child);
  }

  /** A thread that is not the main one takes its TID out of the PID table, and nothing else. */
  lemma RemoveTidEffect(s: State, t: TaskId)
    requires Reachable(s) && Enabled(s, RemoveTid(t))
    ensures var s' := Apply(s, RemoveTid(t));
            s.threads[t].tid != s.pid && s'.table == s.table - {s.threads[t].tid} && s'.tasks == s.tasks && !s'.panicked
  {
    ReachableInv(s);
    assert PlaceOk(s, t);
  }

  // ---- A takeover ----

  /** A process 1 with the threads 1 and 2; `ringing` is whether SIGKILL is on its way to 1. */
  function Pair(tasks: Tasks, one: Thread, two: Thread, table: map<Tid, TaskId>, lock: Option<TaskId>,
                tableLock: Option<TaskId>, ringing: bool): State {
    State(1, tasks, map[1 := one, 2 := two], table, lock, tableLock, if ringing then multiset{1} else multiset{}, 3, 0,
          false)
  }

  const BOTH: map<Tid, TaskId> := map[1 := 1, 2 := 2]

  function Idle(id: nat, pc: Pc): Thread {
    Thread(id, pc, false, false, false)
  }

  /** The main thread, on its way out with SIGKILL pending. */
  const LEAVING := Thread(1, Leaving(false), true, false, false)

  function During(exitedMain: bool): Tasks {
    Tasks([1, 2], exitedMain, false, true, None)
  }

  const ALONE := Tasks([1, 2], false, false, false, None)
  const BORN := Pair(ALONE, Idle(1, Cloning(2)), Idle(2, Born), map[1 := 1], None, None, false)
  const READY := Pair(ALONE, Idle(1, Running), Idle(2, Running), BOTH, None, None, false)
  const KILLED := Thread(1, Running, true, false, false)
  const BEGUN := Pair(During(false), KILLED, Idle(2, Entering), BOTH, None, None, true)
  const LEFT := Pair(During(true), LEAVING, Idle(2, Entering), BOTH, None, None, true)
  const LOOKING := Pair(During(true), LEAVING, Idle(2, Checking), BOTH, Some(2), None, true)
  const DECIDED := Pair(During(true), LEAVING, Idle(2, Promoting), BOTH, None, None, true)
  const SWAPPED := Pair(Tasks([2], false, false, true, None), LEAVING, Idle(1, Relinking), BOTH, None, Some(2), true)
  const TAKEN := Pair(Tasks([2], false, false, true, None), LEAVING, Idle(1, Executed), map[1 := 2], None, None, true)

  lemma StepClone()
    ensures Next(Fresh(1), Clone(1, 2), BORN)
  {
    assert [1] + [2] == [1, 2];
    assert DoClone(Fresh(1), 1, 2).threads == BORN.threads;
  }

  lemma StepPublish()
    ensures Next(BORN, Publish(1), READY)
  {
    assert DoPublish(BORN, 1).threads == READY.threads;
    assert DoPublish(BORN, 1).table == BOTH;
  }

  lemma StepExecStart()
    ensures Next(READY, ExecStart(2), BEGUN)
  {
    var s' := DoExecStart(READY, 2);
    assert s'.threads == map[1 := KILLED, 2 := Idle(2, Entering)];
    assert multiset([1, 2]) == multiset{1, 2};
    assert s'.ringing == multiset{1};
  }

  lemma StepExit()
    ensures Next(BEGUN, Exit(1, false), LEFT)
  {
    assert Index([1, 2], 1) == 0;
    assert DoExit(BEGUN, 1, false).threads == LEFT.threads;
  }

  lemma StepLock()
    ensures Next(LEFT, Lock(2), LOOKING)
  {
    assert DoLock(LEFT, 2).threads == LOOKING.threads;
  }

  lemma StepCheck()
    ensures Next(LOOKING, Check(2), DECIDED)
  {
    assert DoCheck(LOOKING, 2).threads == DECIDED.threads;
  }

  lemma StepPromote()
    ensures Next(DECIDED, Promote(2), SWAPPED)
  {
    assert SwapRemove([1, 2], 0) == [2];
    assert DoPromote(DECIDED, 2).threads == SWAPPED.threads;
  }

  lemma StepRelink()
    ensures Next(SWAPPED, Relink(2), TAKEN)
  {
    assert DoRelink(SWAPPED, 2).threads == TAKEN.threads;
    assert DoRelink(SWAPPED, 2).table == map[1 := 2];
  }

  lemma Then(s: State, step: Step, s': State)
    requires Reachable(s) && Next(s, step, s')
    ensures Reachable(s')
  {
    var states, steps :| IsRun(states, steps) && states[|steps|] == s;
    var states', steps' := states + [s'], steps + [step];
    forall i | 0 <= i < |steps'| ensures Next(states'[i], steps'[i], states'[i + 1]) {
      if i < |steps| { assert Next(states[i], steps[i], states[i + 1]); }
    }
    assert IsRun(states', steps') && states'[|steps'|] == s';
  }

  lemma BegunReachable()
    ensures Reachable(BEGUN)
  {
    assert IsRun([Fresh(1)], []) && [Fresh(1)][0] == Fresh(1);
    StepClone();
    Then(Fresh(1), Clone(1, 2), BORN);
    StepPublish();
    Then(BORN, Publish(1), READY);
    StepExecStart();
    Then(READY, ExecStart(2), BEGUN);
  }

  /**
   An exec can get through: in a reachable state thread 2, which began it, is the main and
   only task under the PID, and the old main thread is gone with SIGKILL pending.
   */
  lemma TakeoverHappens()
    ensures Reachable(TAKEN)
    ensures TAKEN.tasks.tasks == [2] && TAKEN.threads[2].tid == TAKEN.pid && TAKEN.table == map[TAKEN.pid := 2]
    ensures TAKEN.threads[2].pc.Executed? && TAKEN.threads[1].killed && !IsLive(TAKEN.threads[1].pc)
  {
    BegunReachable();
    StepExit();
    Then(BEGUN, Exit(1, false), LEFT);
    StepLock();
    Then(LEFT, Lock(2), LOOKING);
    StepCheck();
    Then(LOOKING, Check(2), DECIDED);
    StepPromote();
    Then(DECIDED, Promote(2), SWAPPED);
    StepRelink();
    Then(SWAPPED, Relink(2), TAKEN);
  }

  // ---- Signals and wakes ----

  /** What may have happened to the signals of `u`: nothing, or something with a reason. */
  ghost predicate HasReason(s: State, step: Step, s': State, u: TaskId) {
    && u in s.threads && u in s'.threads
    && (s'.threads[u].killed && !s.threads[u].killed ==>
          || step == Kill(u) || (step == Finish(u) && s.threads[u].pc.Failed?)
          || (step.t != u && !s.tasks.hasExitedGroup && !s.tasks.inExecve
              && (step == ExecStart(step.t) || step == Exit(step.t, true))))
    && (s'.threads[u].woken && !s.threads[u].woken ==>
          (step == Ring(u) && s.threads[u].signalled) || (step.Exit? && s.tasks.execveWaker == Some(u)))
    && (s.threads[u].killed ==> s'.threads[u].killed)
  }

  lemma RemoveHasReason(s: State, t: TaskId, u: TaskId)
    requires Inv(s) && t in s.threads && s.threads[t].pc.Running? && u in s.threads
    ensures var s' := DoRemove(s, t);
            && u in s'.threads && s'.threads[u].killed == s.threads[u].killed
            && (s'.threads[u].woken ==> s.threads[u].woken || s.tasks.execveWaker == Some(u))
  {
    LiveCanBeRemoved(s, t);
  }

  lemma ExitHasReason(s: State, t: TaskId, group: bool, u: TaskId)
    requires Inv(s) && Enabled(s, Exit(t, group)) && u in s.threads
    ensures HasReason(s, Exit(t, group), DoExit(s, t, group), u)
  {
    if group && !s.tasks.hasExitedGroup && !s.tasks.inExecve {
      KillOthersKeeps(s, t);
      GroupKeeps(KillOthers(s, t));
      RemoveHasReason(KillOthers(s, t).(tasks := s.tasks.(hasExitedGroup := true)), t, u);
    } else {
      RemoveHasReason(s, t, u);
    }
  }

  lemma CloneHasReason(s: State, step: Step, u: TaskId)
    requires Inv(s) && Enabled(s, step) && u in s.threads && (step.Clone? || step.Publish?)
    ensures HasReason(s, step, Apply(s, step), u)
  {
    assert PlaceOk(s, step.t);
    if step.Clone? { assert PlaceOk(s, step.child); }
  }

  lemma StartHasReason(s: State, t: TaskId, u: TaskId)
    requires Enabled(s, ExecStart(t)) && u in s.threads
    ensures HasReason(s, ExecStart(t), DoExecStart(s, t), u)
  {
  }

  lemma ExecHasReason(s: State, step: Step, u: TaskId)
    requires Enabled(s, step) && u in s.threads
    requires step.Lock? || step.Check? || step.Arm? || step.WakeUp? || step.Promote?
    ensures HasReason(s, step, Apply(s, step), u)
  {
  }

  lemma OtherHasReason(s: State, step: Step, u: TaskId)
    requires Enabled(s, step) && u in s.threads
    requires step.Relink? || step.ExecFail? || step.Finish? || step.Kill? || step.Ring? || step.Signal?
             || step.RemoveTid? || step.Leave?
    ensures HasReason(s, step, Apply(s, step), u)
  {
  }

  /**
   SIGKILL has a sender: a kill, another thread's group exit or exec, or the thread's own
   failed exec; once pending it stays.  A thread is woken by a ring while its waker is set,
   or as the exec thread by an exit.
   */
  lemma SignalsHaveReasons(s: State, step: Step, u: TaskId)
    requires Reachable(s) && Enabled(s, step) && u in s.threads
    ensures HasReason(s, step, Apply(s, step), u)
  {
    ReachableInv(s);
    if step.Exit? {
      ExitHasReason(s, step.t, step.group, u);
    } else if step.Clone? || step.Publish? {
      CloneHasReason(s, step, u);
    } else if step.ExecStart? {
      StartHasReason(s, step.t, u);
    } else if step.Lock? || step.Check? || step.Arm? || step.WakeUp? || step.Promote? {
      ExecHasReason(s, step, u);
    } else {
      OtherHasReason(s, step, u);
    }
  }

  /** A ring is delivered once, and wakes exactly a thread whose waker is set. */
  lemma RingEffect(s: State, t: TaskId)
    requires Enabled(s, Ring(t))
    ensures var s' := Apply(s, Ring(t));
            && s'.ringing == s.ringing - multiset{t} && t in s'.threads
            && s'.threads[t] == s.threads[t].(woken := s.threads[t].woken || s.threads[t].signalled)
  {
  }
}
