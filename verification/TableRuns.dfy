/**
 The PID table along the runs of the life-cycle machine: every operation a step performs on
 it is legal there and then, and iterating over the table finds what the machine counts.
 */
module TableRuns {
  import opened ProcessTree
  import opened TreeInvariant
  import opened TreeTheorems
  import T = PidTables

  /** What a step does to the table; a process object and its main thread go by their PID. */
  function TableOps(s: State, step: Step): seq<T.Op> {
    match step
    case CloneLink(t) =>
      var c := CloneAt(s, t);
      if c.pc.Locking? && At(s, c.pc.target).children.Some? then [T.Op.InsertProcess(c.child, c.child, c.child)] else []
    case Reap(_, child) => [T.Op.RemoveProcess(child)]
    case _ => []
  }

  /** The maps hold the process and the main thread of exactly the processes in `table`. */
  ghost predicate Mirrors(m: T.Maps, table: set<Pid>) {
    && m.processes.Keys == table && m.threads.Keys == table
    && forall p :: p in m.processes ==> m.processes[p] == p
  }

  lemma NoOp(m: T.Maps)
    ensures T.LegalRun(m, []) && T.AfterRun(m, []) == m
  {
  }

  lemma InsertMirrors(m: T.Maps, table: set<Pid>, p: Pid)
    requires Mirrors(m, table) && p !in table
    ensures var ops := [T.Op.InsertProcess(p, p, p)];
            T.LegalRun(m, ops) && Mirrors(T.AfterRun(m, ops), table + {p})
  {
    assert [T.Op.InsertProcess(p, p, p)][1..] == [];
    NoOp(T.After(m, T.Op.InsertProcess(p, p, p)));
  }

  lemma RemoveMirrors(m: T.Maps, table: set<Pid>, p: Pid)
    requires Mirrors(m, table) && p in table
    ensures var ops := [T.Op.RemoveProcess(p)];
            T.LegalRun(m, ops) && Mirrors(T.AfterRun(m, ops), table - {p})
  {
    assert [T.Op.RemoveProcess(p)][1..] == [];
    NoOp(T.After(m, T.Op.RemoveProcess(p)));
  }

  lemma LinkedTable(s: State, t: nat)
    requires Inv(s) && t in s.cloners && s.cloners[t].pc.Locking?
    ensures var c := s.cloners[t];
            if At(s, c.pc.target).children.Some? then
              c.child !in s.table && DoCloneLink(s, t).table == s.table + {c.child}
            else
              DoCloneLink(s, t).table == s.table
  {
    if At(s, s.cloners[t].pc.target).children.Some? { CloneLinkHolds(s, t); }
  }

  lemma OtherKeepsTable(s: State, step: Step)
    requires Inv(s) && Enabled(s, step) && !step.CloneLink? && !step.Reap?
    ensures Apply(s, step).table == s.table
  {
  }

  /** Every step performs legal table operations and leaves a table that mirrors its state. */
  lemma StepMirrors(s: State, step: Step, m: T.Maps)
    requires Inv(s) && Enabled(s, step) && Mirrors(m, s.table)
    ensures T.LegalRun(m, TableOps(s, step)) && Mirrors(T.AfterRun(m, TableOps(s, step)), Apply(s, step).table)
  {
    NoOp(m);
    if step.CloneLink? {
      LinkedTable(s, step.cloner);
      if TableOps(s, step) != [] { InsertMirrors(m, s.table, s.cloners[step.cloner].child); }
    } else if step.Reap? {
      ReapHolds(s, step.owner, step.child);
      RemoveMirrors(m, s.table, step.child);
    } else {
      OtherKeepsTable(s, step);
    }
  }

  /** Performs on a new table what the steps of a run perform on the PID table. */
  method FollowRun(states: seq<State>, steps: seq<Step>) returns (table: T.PidTable)
    requires IsRun(states, steps)
    ensures fresh(table) && table.Valid() && Mirrors(table.View(), states[|steps|].table)
  {
    table := new T.PidTable();
    table.InsertProcess(INIT, INIT, INIT);
    for i := 0 to |steps|
      invariant table.Valid() && Mirrors(table.View(), states[i].table)
    {
      RunKeepsInv(states, steps, i);
      StepMirrors(states[i], steps[i], table.View());
      table.PerformAll(TableOps(states[i], steps[i]));
    }
  }

  /**
   In every reachable state the process count is the number of processes an iteration over
   the table yields, and these are the unreaped ones: a process that a children map, or init,
   holds on to is alive, so no slot has gone stale.
   */
  method CountAlongRun(states: seq<State>, steps: seq<Step>, alive: set<T.Ref>) returns (ids: seq<Pid>)
    requires IsRun(states, steps)
    requires forall p :: p in states[|steps|].procs && Owned(states[|steps|], p) ==> p in alive
    ensures |ids| == states[|steps|].processCount
    ensures forall p :: p in ids <==> p in states[|steps|].procs && !states[|steps|].procs[p].reaped
  {
    var table := FollowRun(states, steps);
    ghost var s := states[|steps|];
    assert Reachable(s);
    TableTracksTree(s);
    ids := T.CountProcesses(table, alive);
    assert |table.View().processes| == |s.table|;
  }
}
