/**
 What holds in every reachable state of a process whose threads are created, exit, are
 killed and execute new programs in any order.
 */
module ExecTheorems {
  import opened Prelude
  import opened TaskSets
  import opened ExecProtocol
  import opened ExecInvariant

  lemma FreshInv(s: State)
    requires s == Fresh(s.pid)
    ensures Inv(s)
  {
    assert s.tasks.tasks[0] == s.pid;
    forall x ensures x in Live(s.tasks) <==> x == s.pid { LiveElements(s.tasks, x); }
    assert s.pid in Live(s.tasks);
    forall x ensures PlaceOk(s, x) {}
    forall x ensures RoleOk(s, x) {}
  }

  lemma StepsKeepInv()
    ensures forall s, step, s' {:trigger Next(s, step, s')} :: Inv(s) && Next(s, step, s') ==> Inv(s')
  {
    forall s, step, s' | Inv(s) && Next(s, step, s') ensures Inv(s') {
      StepKeepsInv(s, step, s');
    }
  }

  lemma {:induction false} RunKeepsInv(states: seq<State>, steps: seq<Step>, i: nat)
    requires IsRun(states, steps) && i < |states|
    ensures Inv(states[i])
  {
    if i == 0 {
      FreshInv(states[0]);
    } else {
      RunKeepsInv(states, steps, i - 1);
      StepsKeepInv();
    }
  }

  lemma ReachableInv(s: State)
    requires Reachable(s)
    ensures Inv(s)
  {
    var states, steps :| IsRun(states, steps) && states[|steps|] == s;
    RunKeepsInv(states, steps, |steps|);
  }

  /** No unwrap or assertion of clone, exit, exec or the PID table fails; index 0 is the main task. */
  lemma NoThreadPanics(s: State)
    requires Reachable(s)
    ensures !s.panicked
    ensures |s.tasks.tasks| > 0 && s.tasks.tasks[0] in s.threads && s.threads[s.tasks.tasks[0]].tid == s.pid
    ensures forall t :: t in s.threads && IsLive(s.threads[t].pc) && t != s.tasks.tasks[0] ==>
              s.threads[t].tid != s.pid
  {
    ReachableInv(s);
    forall t | t in s.threads && IsLive(s.threads[t].pc) && t != s.tasks.tasks[0]
      ensures s.threads[t].tid != s.pid
    {
      assert PlaceOk(s, t);
    }
  }

  /**
   From the moment `wait_other_threads_exit` succeeds until the exec thread has taken over,
   it is the only live task, nothing can be inserted, and the assertions of
   `make_current_main_thread` hold.
   */
  lemma ExecPromotionSafe(s: State, t: TaskId)
    requires Reachable(s) && t in s.threads && s.threads[t].pc.Promoting?
    ensures Live(s.tasks) == {t} && Refuses(s.tasks)
    ensures forall u :: u in s.threads && IsLive(s.threads[u].pc) ==> u == t
    ensures s.threads[t].tid != s.pid ==>
              s.tasks.hasExitedMain && s.tasks.inExecve && |s.tasks.tasks| == 2 && s.tasks.tasks[1] == t
    ensures s.threads[t].tid == s.pid ==> s.tasks.tasks == [t]
  {
    ReachableInv(s);
    assert PlaceOk(s, t) && RoleOk(s, t);
    AloneIff(s.tasks, t);
    forall u | u in s.threads && IsLive(s.threads[u].pc) ensures u == t { assert PlaceOk(s, u); }
  }

  /**
   Afterwards the exec thread is the main and only task, the PID table maps the PID to it,
   and the TID it was born with is gone from the table unless it is the PID.
   */
  lemma ExecTakesOver(s: State, t: TaskId)
    requires Reachable(s) && t in s.threads && s.threads[t].pc.Executed?
    ensures s.tasks.tasks == [t] && Live(s.tasks) == {t} && s.threads[t].tid == s.pid
    ensures s.pid in s.table && s.table[s.pid] == t && (t != s.pid ==> t !in s.table)
  {
    ReachableInv(s);
    assert PlaceOk(s, t) && RoleOk(s, t);
    AloneIff(s.tasks, t);
  }

  /**
   A sleeping exec thread whose siblings are all gone has been woken; one with a pending
   SIGKILL has been woken or the sender has the wake still ahead of it.
   */
  lemma NoLostExecWakeup(s: State, t: TaskId)
    requires Reachable(s) && t in s.threads && s.threads[t].pc.Sleeping?
    ensures s.tasks.execveWaker == Some(t)
    ensures OthersGone(s, t) ==> s.threads[t].woken
    ensures s.threads[t].killed ==> s.threads[t].woken || t in s.ringing
  {
    ReachableInv(s);
    assert RoleOk(s, t);
    OthersGoneIff(s, t);
  }

  /** The process exits at most once, not while a task lives, and for certain once all threads are gone. */
  lemma ProcessExitsOnce(s: State)
    requires Reachable(s)
    ensures s.exits <= 1
    ensures (exists t :: t in s.threads && IsLive(s.threads[t].pc)) ==> s.exits == 0
    ensures (forall t :: t in s.threads ==> s.threads[t].pc.Gone?) ==> s.exits == 1
    ensures s.exits == 1 ==> s.tasks.tasks == [Main(s)] && Main(s) in s.threads && s.threads[Main(s)].tid == s.pid
  {
    ReachableInv(s);
    forall t ensures t in s.threads && IsLive(s.threads[t].pc) ==> t in Live(s.tasks) { assert PlaceOk(s, t); }
    if forall t :: t in s.threads ==> s.threads[t].pc.Gone? {
      forall t ensures t !in Live(s.tasks) { assert PlaceOk(s, t); }
      assert Live(s.tasks) == {};
    }
    LastIffNoneLive(s.tasks);
  }

  /** A thread is told that it was the last one if and only if no live task remains. */
  lemma LastIsToldExactly(s: State, t: TaskId, group: bool)
    requires Reachable(s) && Enabled(s, Exit(t, group))
    ensures var s' := DoExit(s, t, group);
            && t in s'.threads && (IsLastOne(s', t) <==> Live(s'.tasks) == {})
            && Live(s'.tasks) == Live(s.tasks) - {t}
  {
    ReachableInv(s);
    assert PlaceOk(s, t);
    LiveCanBeRemoved(s, t);
    var ts := if group && !s.tasks.hasExitedGroup && !s.tasks.inExecve
              then s.tasks.(hasExitedGroup := true) else s.tasks;
    RemovedLive(ts, t);
    LastIffNoneLive(Removed(ts, t));
  }
}
