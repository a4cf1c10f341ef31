/**
 `make_current_main_thread` on the task set, the PID table and the tracees map it updates.
 */
module Promotion {
  import opened TaskSets
  import opened PidTables

  type Tracees = map<Id, TaskId>

  /** Every tracee is filed under its TID. */
  ghost predicate Filed(tracees: Tracees, tids: TaskId -> Id) {
    forall id :: id in tracees ==> tids(tracees[id]) == id
  }

  /** The tracee under `oldTid`, if there is one, moves to `pid`. */
  function Rekeyed(tracees: Tracees, oldTid: Id, pid: Id): Tracees {
    if oldTid in tracees then (tracees - {oldTid})[pid := tracees[oldTid]] else tracees
  }

  /**
   A tracer that had its tracees filed under their TIDs still has them so when `me` changes
   from `oldTid` to `pid`: it keeps `me` if it had it, and loses at most the old main thread.
   */
  lemma RekeyedStaysFiled(tracees: Tracees, tids: TaskId -> Id, me: TaskId, oldTid: Id, pid: Id)
    requires Filed(tracees, tids) && tids(me) == oldTid && oldTid != pid
    requires oldTid in tracees ==> tracees[oldTid] == me
    ensures var tracees' := Rekeyed(tracees, oldTid, pid);
            && Filed(tracees', t => if t == me then pid else tids(t))
            && (me in tracees'.Values <==> me in tracees.Values)
            && (forall t :: t in tracees.Values && t !in tracees'.Values ==> tids(t) == pid)
  {
    var tracees' := Rekeyed(tracees, oldTid, pid);
    assert oldTid in tracees ==> tracees'[pid] == me && tracees[oldTid] == me;
    forall id | id in tracees && id != pid ensures tracees[id] in tracees'.Values {
      assert tracees'[if id == oldTid then pid else id] == tracees[id];
    }
  }

  /** A tracing thread. */
  class Tracer {
    var tracees: Tracees

    method Rekey(oldTid: Id, pid: Id)
      modifies this
      ensures tracees == Rekeyed(old(tracees), oldTid, pid)
    {
      if oldTid in tracees {
        var tracee := tracees[oldTid];
        tracees := tracees - {oldTid};
        tracees := tracees[pid := tracee];
      }
    }
  }

  /**
   The exec thread `me`, so far known as `oldTid`, takes over `pid`.  Afterwards it is the
   only task, the PID leads to it, its old TID leads to no thread, and nothing else in the
   table has changed.  Its tracer, if it has one, has it under its new TID.
   */
  method MakeCurrentMain(tasks: TaskSet, table: PidTable, tracer: Tracer?, pid: Id, oldTid: Id, me: TaskId,
                         alive: set<Ref>)
    returns (tid: Id)
    requires table.Valid() && me in alive
    requires pid in table.View().threads && oldTid in table.View().threads && table.View().threads[oldTid] == me
    requires oldTid != pid ==>
               && oldTid !in table.View().processes
               && tasks.hasExitedMain && tasks.inExecve && |tasks.tasks| == 2 && tasks.tasks[1] == me
    modifies tasks, table, tracer
    ensures tid == pid && table.Valid()
    ensures oldTid == pid ==> tasks.View() == old(tasks.View()) && table.View() == old(table.View())
    ensures oldTid != pid ==>
              && tasks.tasks == [me] && Live(tasks.View()) == {me}
              && table.View().threads == (old(table.View().threads) - {oldTid})[pid := me]
              && table.View() == old(table.View()).(threads := table.View().threads)
    ensures tracer != null ==>
              tracer.tracees == if oldTid == pid then old(tracer.tracees) else Rekeyed(old(tracer.tracees), oldTid, pid)
  {
    tid := pid;
    if oldTid == pid {
      return;
    }
    tasks.SwapMain();
    if tracer != null {
      tracer.Rekey(oldTid, pid);
    }
    var thread := table.TakeThread(oldTid, alive);
    table.ReplaceThread(pid, thread.value);
  }
}
