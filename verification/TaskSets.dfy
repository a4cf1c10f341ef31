/**
 The tasks of one process: a vector whose element 0 is the main task, exited or not, and
 whose other elements are the remaining live tasks in no particular order.
 */
module TaskSets {
  import opened Prelude

  type TaskId = nat

  datatype Tasks = Tasks(
    tasks: seq<TaskId>,
    hasExitedMain: bool,
    hasExitedGroup: bool,
    inExecve: bool,
    execveWaker: Option<TaskId>)

  ghost predicate Distinct(s: seq<TaskId>) {
    forall i, j :: 0 <= i < j < |s| ==> s[i] != s[j]
  }

  ghost function Elements(s: seq<TaskId>): set<TaskId> {
    if |s| == 0 then {} else Elements(s[..|s| - 1]) + {s[|s| - 1]}
  }

  /** The tasks that have not exited: an exited main task keeps its slot but is not live. */
  ghost function Live(ts: Tasks): set<TaskId> {
    Elements(ts.tasks) - if ts.hasExitedMain && |ts.tasks| > 0 then {ts.tasks[0]} else {}
  }

  /** `Vec::swap_remove`. */
  function SwapRemove(s: seq<TaskId>, i: nat): seq<TaskId>
    requires i < |s|
  {
    if i == |s| - 1 then s[..i] else s[..|s| - 1][i := s[|s| - 1]]
  }

  /** The first position of `task`, or the length. */
  function Index(s: seq<TaskId>, task: TaskId): (i: nat)
    ensures i <= |s|
    ensures i < |s| ==> s[i] == task
    ensures i == |s| ==> task !in s
  {
    if |s| == 0 then 0 else if s[0] == task then 0 else 1 + Index(s[1..], task)
  }

  predicate Refuses(ts: Tasks) {
    ts.hasExitedGroup || ts.inExecve
  }

  function Inserted(ts: Tasks, task: TaskId): Tasks {
    if Refuses(ts) then ts else ts.(tasks := ts.tasks + [task])
  }

  /** `remove_exited`: panics unless the task is there and has not exited before. */
  predicate CanRemove(ts: Tasks, task: TaskId) {
    task in ts.tasks && (Index(ts.tasks, task) == 0 ==> !ts.hasExitedMain)
  }

  function Removed(ts: Tasks, task: TaskId): Tasks {
    var i := Index(ts.tasks, task);
    if i == 0 || i == |ts.tasks| then ts.(hasExitedMain := true)
    else ts.(tasks := SwapRemove(ts.tasks, i))
  }

  /** What `remove_exited` answers. */
  predicate IsLast(ts: Tasks) {
    ts.hasExitedMain && |ts.tasks| == 1
  }

  function MainSwapped(ts: Tasks): Tasks
    requires |ts.tasks| > 0
  {
    ts.(tasks := SwapRemove(ts.tasks, 0), hasExitedMain := false)
  }

  // ---- What the operations do to the live tasks ----

  lemma {:induction false} ElementsAre(s: seq<TaskId>, x: TaskId)
    ensures x in Elements(s) <==> x in s
  {
    if |s| > 0 {
      ElementsAre(s[..|s| - 1], x);
      assert s == s[..|s| - 1] + [s[|s| - 1]];
    }
  }

  lemma LiveElements(ts: Tasks, x: TaskId)
    requires |ts.tasks| > 0
    ensures x in Live(ts) <==> x in ts.tasks && !(x == ts.tasks[0] && ts.hasExitedMain)
  {
    ElementsAre(ts.tasks, x);
  }

  lemma InsertedLive(ts: Tasks, task: TaskId)
    requires |ts.tasks| > 0 && Distinct(ts.tasks) && task !in ts.tasks
    ensures Distinct(Inserted(ts, task).tasks) && Inserted(ts, task).tasks[0] == ts.tasks[0]
    ensures Live(Inserted(ts, task)) == if Refuses(ts) then Live(ts) else Live(ts) + {task}
  {
    var ts' := Inserted(ts, task);
    forall x ensures x in Live(ts') <==> x in Live(ts) || (!Refuses(ts) && x == task) {
      LiveElements(ts, x);
      LiveElements(ts', x);
    }
  }

  lemma SwapRemoveElements(s: seq<TaskId>, i: nat)
    requires i < |s| && Distinct(s)
    ensures Distinct(SwapRemove(s, i)) && |SwapRemove(s, i)| == |s| - 1
    ensures forall x :: x in SwapRemove(s, i) <==> x in s && x != s[i]
  {
    var r := SwapRemove(s, i);
    forall x | x in s && x != s[i] ensures x in r {
      var k :| 0 <= k < |s| && s[k] == x;
      if k == |s| - 1 { assert r[i] == x; } else { assert r[k] == x; }
    }
  }

  /** Exactly the exiting task stops being live, and the main task keeps its place. */
  lemma RemovedLive(ts: Tasks, task: TaskId)
    requires Distinct(ts.tasks) && CanRemove(ts, task)
    ensures var ts' := Removed(ts, task);
            && Distinct(ts'.tasks) && |ts'.tasks| > 0 && ts'.tasks[0] == ts.tasks[0]
            && task in Live(ts) && Live(ts') == Live(ts) - {task}
            && (forall x :: x in ts'.tasks ==> x in ts.tasks)
  {
    var ts' := Removed(ts, task);
    var i := Index(ts.tasks, task);
    LiveElements(ts, task);
    if i > 0 { SwapRemoveElements(ts.tasks, i); }
    forall x ensures x in Live(ts') <==> x in Live(ts) - {task} {
      LiveElements(ts, x);
      LiveElements(ts', x);
    }
  }

  /** `remove_exited` answers true exactly when no live task is left. */
  lemma LastIffNoneLive(ts: Tasks)
    requires |ts.tasks| > 0 && Distinct(ts.tasks)
    ensures IsLast(ts) <==> Live(ts) == {}
  {
    forall i | 0 <= i < |ts.tasks| ensures ts.tasks[i] in Live(ts) <==> !(i == 0 && ts.hasExitedMain) {
      LiveElements(ts, ts.tasks[i]);
    }
    assert |ts.tasks| > 1 ==> ts.tasks[1] in Live(ts);
    forall x | IsLast(ts) ensures x !in Live(ts) { LiveElements(ts, x); }
  }

  /** The two conditions of `wait_other_threads_exit` say that `me` is the only live task. */
  lemma AloneIff(ts: Tasks, me: TaskId)
    requires |ts.tasks| > 0 && Distinct(ts.tasks) && me in Live(ts)
    ensures (if me == ts.tasks[0] then |ts.tasks| == 1 else |ts.tasks| == 2 && ts.hasExitedMain)
            <==> Live(ts) == {me}
    ensures Live(ts) == {me} && me != ts.tasks[0] ==> ts.tasks[1] == me
  {
    forall i | 0 <= i < |ts.tasks| ensures ts.tasks[i] in Live(ts) <==> !(i == 0 && ts.hasExitedMain) {
      LiveElements(ts, ts.tasks[i]);
    }
    assert |ts.tasks| > 1 ==> ts.tasks[1] in Live(ts);
    assert |ts.tasks| > 2 ==> ts.tasks[2] in Live(ts);
    forall x ensures x in Live(ts) <==> x in ts.tasks && !(x == ts.tasks[0] && ts.hasExitedMain) {
      LiveElements(ts, x);
    }
  }

  /** `swap_main` once the caller is alone leaves exactly the caller, as main task. */
  lemma SwappedAlone(ts: Tasks, me: TaskId)
    requires |ts.tasks| == 2 && ts.hasExitedMain && ts.tasks[1] == me
    ensures MainSwapped(ts).tasks == [me] && Live(MainSwapped(ts)) == {me}
  {
    assert MainSwapped(ts).tasks == [me];
    forall x ensures x in Live(MainSwapped(ts)) <==> x == me { LiveElements(MainSwapped(ts), x); }
  }

  // ---- The structure itself ----

  class TaskSet {
    var tasks: seq<TaskId>
    var hasExitedMain: bool
    var hasExitedGroup: bool
    var inExecve: bool
    var execveWaker: Option<TaskId>

    function View(): Tasks
      reads this
    {
      Tasks(tasks, hasExitedMain, hasExitedGroup, inExecve, execveWaker)
    }

    constructor ()
      ensures View() == Tasks([], false, false, false, None)
    {
      tasks, hasExitedMain, hasExitedGroup, inExecve, execveWaker := [], false, false, false, None;
    }

    /** Adds a task unless the group is exiting or executing a new program. */
    method Insert(task: TaskId) returns (ok: bool)
      modifies this
      ensures ok <==> !old(Refuses(View()))
      ensures View() == Inserted(old(View()), task)
    {
      if hasExitedGroup || inExecve {
        return false;
      }
      tasks := tasks + [task];
      return true;
    }

    /** Takes the exiting task out, or marks the main task as exited; wakes the exec thread. */
    method RemoveExited(task: TaskId) returns (last: bool, woken: Option<TaskId>)
      requires CanRemove(View(), task) && Distinct(tasks)
      modifies this
      ensures View() == Removed(old(View()), task)
      ensures Live(View()) == old(Live(View())) - {task} && tasks[0] == old(tasks[0])
      ensures last <==> Live(View()) == {}
      ensures woken == old(execveWaker)
    {
      ghost var ts := View();
      var position := 0;
      while tasks[position] != task
        invariant position < |tasks| && View() == ts
        invariant Index(tasks, task) == position + Index(tasks[position..], task)
        decreases |tasks| - position
      {
        assert tasks[position..][1..] == tasks[position + 1..];
        position := position + 1;
      }
      if position == 0 {
        hasExitedMain := true;
      } else {
        tasks := SwapRemove(tasks, position);
      }
      woken := execveWaker;
      last := hasExitedMain && |tasks| == 1;
      RemovedLive(ts, task);
      LastIffNoneLive(View());
    }

    /** Drops the exited main task and makes the only other task the main task. */
    method SwapMain()
      requires |tasks| == 2 && hasExitedMain
      modifies this
      ensures View() == MainSwapped(old(View()))
      ensures tasks == [old(tasks[1])] && Live(View()) == {old(tasks[1])}
    {
      SwappedAlone(View(), tasks[1]);
      tasks := SwapRemove(tasks, 0);
      hasExitedMain := false;
    }

    method SetExitedGroup()
      requires !inExecve
      modifies this
      ensures View() == old(View()).(hasExitedGroup := true) && Refuses(View())
    {
      hasExitedGroup := true;
    }

    method StartExecve()
      requires !hasExitedGroup
      modifies this
      ensures View() == old(View()).(inExecve := true) && Refuses(View())
    {
      inExecve := true;
    }

    method FinishExecve()
      modifies this
      ensures View() == old(View()).(inExecve := false)
    {
      inExecve := false;
    }

    method SetExecveWaker(waker: TaskId)
      requires execveWaker.None?
      modifies this
      ensures View() == old(View()).(execveWaker := Some(waker))
    {
      execveWaker := Some(waker);
    }

    method ClearExecveWaker()
      modifies this
      ensures View() == old(View()).(execveWaker := None)
    {
      execveWaker := None;
    }
  }
}
