/**
 The life-cycle operations on process objects, one object per process, as the code performs
 them: each locked section updates fields of the objects it reaches.  Each operation is
 proved to do to the abstract process map what one step of the life-cycle machine does.
 */
module ProcessObjects {
  import opened Prelude
  import opened ProcessTree
  import opened TreeInvariant
  import opened Subreaper
  import PidTables

  class Process {
    const pid: Pid
    var parent: Pid
    var children: Option<set<Pid>>
    var zombie: bool
    var isSubreaper: bool
    var hasSubreaper: bool
    var cpu: Cpu
    var reapedCpu: Cpu
    ghost var reaped: bool
    ghost var pc: ExitPc

    ghost function Value(): Proc
      reads this
    {
      Proc(parent, children, zombie, reaped, isSubreaper, hasSubreaper, cpu, reapedCpu, pc)
    }

    /** A process that `clone` has built and not linked yet. */
    constructor (pid: Pid)
      ensures this.pid == pid && Value() == NewChild(0, false)
    {
      this.pid := pid;
      parent, children, zombie, isSubreaper, hasSubreaper := 0, Some({}), false, false, false;
      cpu, reapedCpu, reaped, pc := ZERO_CPU, ZERO_CPU, false, Running;
    }
  }

  /** The processes by their PID: what following a reference leads to. */
  type Objects = map<Pid, Process>

  ghost predicate Registered(objects: Objects) {
    forall p :: p in objects ==> objects[p].pid == p
  }

  ghost function Abs(objects: Objects): map<Pid, Proc>
    reads objects.Values
  {
    map p | p in objects :: objects[p].Value()
  }

  lemma SamePid(objects: Objects, o: Process)
    requires Registered(objects) && o in objects.Values
    ensures o.pid in objects && objects[o.pid] == o
  {
    var p :| p in objects && objects[p] == o;
  }

  // ---- Handing children over ----

  /** The loop of `move_process_children`, after the children have been taken. */
  method HandOver(objects: Objects, reaper: Process, children: set<Pid>)
    requires Registered(objects) && reaper in objects.Values && reaper.children.Some? && children <= objects.Keys
    modifies reaper`children, objects.Values`parent
    ensures reaper.children == Some(old(reaper.children.value) + children)
    ensures forall q :: q in objects ==>
              objects[q].parent == if q in children then reaper.pid else old(objects[q].parent)
  {
    ghost var kids := reaper.children.value;
    var rest := children;
    while rest != {}
      invariant rest <= children && reaper.children.Some?
      invariant forall c :: c in reaper.children.value <==> c in kids || (c in children && c !in rest)
      invariant forall q :: q in objects ==>
                  objects[q].parent == if q in children && q !in rest then reaper.pid else old(objects[q].parent)
      decreases |rest|
    {
      var c := Smallest(rest);
      reaper.children := Some(reaper.children.value + {c});
      objects[c].parent := reaper.pid;
      rest := rest - {c};
    }
    assert reaper.children.value == kids + children;
  }

  /**
   `move_process_children`: takes the children of `current` and hands them one by one to
   `reaper`, unless `reaper` has handed its own over already.
   */
  method MoveProcessChildren(objects: Objects, current: Process, reaper: Process) returns (moved: Option<set<Pid>>)
    requires Registered(objects) && current in objects.Values && reaper in objects.Values
    requires reaper.children.Some? ==> current.children.Some? && current != reaper
    requires current.children.Some? ==>
               current.children.value <= objects.Keys && {current.pid, reaper.pid} !! current.children.value
    modifies current`children, reaper`children, objects.Values`parent
    ensures moved == if old(reaper.children.None?) then None else old(current.children)
    ensures moved.None? ==> Abs(objects) == old(Abs(objects))
    ensures moved.Some? ==>
              Abs(objects) == Moved(old(Abs(objects)), current.pid, reaper.pid, moved.value, old(current.pc))
  {
    SamePid(objects, current);
    SamePid(objects, reaper);
    if reaper.children.None? {
      return None;
    }
    moved := current.children;
    current.children := None;
    HandOver(objects, reaper, moved.value);
  }

  // ---- Finding a reaper ----

  /**
   `find_reaper_process` on a tree that does not change meanwhile: what it returns, or init
   when it returns nothing, is what the search as specified selects.
   */
  method FindReaper(objects: Objects, current: Process, ghost s: State) returns (reaper: Option<Process>)
    requires Registered(objects) && Abs(objects) == s.procs && TreeOk(s)
    requires current in objects.Values && current.parent != 0 && !current.reaped
    ensures reaper.Some? ==> reaper.value in objects.Values
    ensures Shortcut(s, current.parent) == if reaper.Some? then reaper.value.pid else INIT
  {
    SamePid(objects, current);
    assert ProcOk(s, current.pid);
    ParentIsOwned(s, current.pid);
    var pos := objects[current.parent];
    while true
      invariant pos in objects.Values && pos.pid in objects && objects[pos.pid] == pos && !pos.reaped
      invariant Shortcut(s, pos.pid) == Shortcut(s, current.parent)
      decreases pos.pid
    {
      assert ProcOk(s, pos.pid) && s.procs[pos.pid] == pos.Value();
      if pos.parent == 0 {
        return Some(pos);
      }
      if !pos.hasSubreaper {
        return None;
      }
      if pos.isSubreaper && !pos.zombie {
        return Some(pos);
      }
      ParentIsOwned(s, pos.pid);
      pos := objects[pos.parent];
    }
  }

  // ---- Reaping ----

  /** `reap_zombie_child` on the process objects: the child leaves the map, its times are added. */
  method SettleChild(objects: Objects, owner: Process, child: Process, ghost s: State)
    requires Registered(objects) && Abs(objects) == s.procs
    requires owner in objects.Values && child in objects.Values && owner != child
    requires owner.children.Some? && child.pid in owner.children.value && child.zombie && child.pid in s.table
    modifies owner`children, owner`reapedCpu, child`reaped
    ensures Abs(objects) == DoReap(s, owner.pid, child.pid).procs
  {
    SamePid(objects, owner);
    SamePid(objects, child);
    assert s.procs[owner.pid] == owner.Value() && s.procs[child.pid] == child.Value();
    ghost var after := DoReap(s, owner.pid, child.pid).procs;
    owner.children := Some(owner.children.value - {child.pid});
    var time := child.reapedCpu.Plus(child.cpu);
    owner.reapedCpu := owner.reapedCpu.Plus(time);
    child.reaped := true;
    assert owner.Value() == after[owner.pid] && child.Value() == after[child.pid];
    forall q | q in objects ensures objects[q].Value() == after[q] {
      assert q != owner.pid && q != child.pid ==> objects[q] != owner && objects[q] != child;
    }
  }

  /** `reap_zombie_child`: also takes the child out of the PID table. */
  method ReapZombieChild(objects: Objects, table: PidTables.PidTable, owner: Process, child: Process, ghost s: State)
    requires Registered(objects) && Abs(objects) == s.procs
    requires owner in objects.Values && child in objects.Values && owner != child
    requires owner.children.Some? && child.pid in owner.children.value && child.zombie && child.pid in s.table
    requires table.Valid() && child.pid in table.View().processes
    modifies owner`children, owner`reapedCpu, child`reaped, table
    ensures Abs(objects) == DoReap(s, owner.pid, child.pid).procs
    ensures table.Valid() && table.View() == PidTables.After(old(table.View()), PidTables.RemoveProcess(child.pid))
  {
    table.RemoveProcess(child.pid);
    SettleChild(objects, owner, child, s);
  }

  // ---- Marking descendants ----

  /** One turn of `propagate_has_child_subreaper`: marks the children of `p`, queues the new ones. */
  method MarkChildren(objects: Objects, p: Process, queue: seq<Pid>, ghost todo: set<Pid>)
    returns (queue': seq<Pid>, ghost todo': set<Pid>)
    requires Registered(objects) && p.children.Some? && p.children.value <= objects.Keys
    requires forall q :: q in objects && !objects[q].hasSubreaper ==> q in todo
    modifies objects.Values`hasSubreaper
    ensures forall q :: q in objects ==>
              objects[q].hasSubreaper == (old(objects[q].hasSubreaper) || q in p.children.value)
    ensures queue <= queue'
    ensures forall i :: |queue| <= i < |queue'| ==>
              queue'[i] in p.children.value && !old(objects[queue'[i]].hasSubreaper)
    ensures forall q :: q in p.children.value && !old(objects[q].hasSubreaper) ==> q in queue'
    ensures forall q :: q in objects && !objects[q].hasSubreaper ==> q in todo'
    ensures |todo'| + |queue'| == |todo| + |queue|
  {
    var rest := p.children.value;
    queue', todo' := queue, todo;
    while rest != {}
      invariant rest <= p.children.value && queue <= queue'
      invariant forall q :: q in objects ==>
                  objects[q].hasSubreaper == (old(objects[q].hasSubreaper) || (q in p.children.value && q !in rest))
      invariant forall i :: |queue| <= i < |queue'| ==>
                  queue'[i] in p.children.value && !old(objects[queue'[i]].hasSubreaper)
      invariant forall q :: q in p.children.value && q !in rest && !old(objects[q].hasSubreaper) ==> q in queue'
      invariant forall q :: q in objects && !objects[q].hasSubreaper ==> q in todo'
      invariant |todo'| + |queue'| == |todo| + |queue|
      decreases |rest|
    {
      var c := Smallest(rest);
      if !objects[c].hasSubreaper {
        objects[c].hasSubreaper := true;
        queue', todo' := queue' + [c], todo' - {c};
      }
      rest := rest - {c};
    }
  }

  lemma ChildIsReached(s: State, p: Pid, o: Pid, c: Pid)
    requires TreeOk(s) && Reached(s, p, o) && !At(s, o).hasSubreaper && Holds(s, o, c)
    ensures Reached(s, p, c)
  {
    assert ProcOk(s, c);
  }

  /** `marked` holds `p` and, with each process that was not marked before, its children. */
  ghost predicate Covers(s: State, marked: set<Pid>, p: Pid) {
    p in marked && forall o, c :: Holds(s, o, c) && o in marked && !s.procs[o].hasSubreaper ==> c in marked
  }

  lemma {:induction false} CoversReached(s: State, marked: set<Pid>, p: Pid, q: Pid)
    requires TreeOk(s) && Covers(s, marked, p) && p in s.procs && Reached(s, p, q)
    ensures q in marked
    decreases q
  {
    assert ProcOk(s, q) && ProcOk(s, p) && ProcOk(s, 0);
    if q != p {
      assert q != INIT;
      ParentIsOwned(s, q);
      CoversReached(s, marked, p, s.procs[q].parent);
    }
  }

  /** The part of the process map that marking leaves alone. */
  ghost predicate SameShape(objects: Objects, s: State)
    reads objects.Values
  {
    objects.Keys == s.procs.Keys && forall q :: q in objects ==> objects[q].children == s.procs[q].children
  }

  /**
   Where the walk from `p` stands: it has marked only what it can get to, and the children
   of what it has marked are marked, except for the processes still queued and for `open`.
   */
  ghost predicate Frontier(objects: Objects, s: State, p: Pid, queue: seq<Pid>, open: set<Pid>)
    requires objects.Keys == s.procs.Keys
    reads objects.Values
  {
    && (forall i :: 0 <= i < |queue| ==>
          queue[i] in objects && Reached(s, p, queue[i]) && !s.procs[queue[i]].hasSubreaper)
    && (forall q :: q in objects && objects[q].hasSubreaper ==> s.procs[q].hasSubreaper || Reached(s, p, q))
    && (forall q :: q in objects && (s.procs[q].hasSubreaper || q == p) ==> objects[q].hasSubreaper)
    && (forall o, c :: Holds(s, o, c) && c in objects && o !in queue && o !in open ==>
          (objects[o].hasSubreaper && !s.procs[o].hasSubreaper ==> objects[c].hasSubreaper))
  }

  /** The walk marks the children of `o`, which closes `o`. */
  method Expand(objects: Objects, o: Process, queue: seq<Pid>, ghost todo: set<Pid>, ghost s: State, ghost p: Pid)
    returns (queue': seq<Pid>, ghost todo': set<Pid>)
    requires Registered(objects) && SameShape(objects, s) && TreeOk(s)
    requires o in objects.Values && o.children.Some? && Reached(s, p, o.pid) && !s.procs[o.pid].hasSubreaper
    requires Frontier(objects, s, p, queue, {o.pid})
    requires forall q :: q in objects && !objects[q].hasSubreaper ==> q in todo
    modifies objects.Values`hasSubreaper
    ensures Frontier(objects, s, p, queue', {})
    ensures forall q :: q in objects && !objects[q].hasSubreaper ==> q in todo'
    ensures |todo'| + |queue'| == |todo| + |queue|
  {
    SamePid(objects, o);
    forall c | c in o.children.value ensures Holds(s, o.pid, c) && Reached(s, p, c) && c in objects {
      assert Holds(s, o.pid, c);
      ChildIsReached(s, p, o.pid, c);
    }
    queue', todo' := MarkChildren(objects, o, queue, todo);
  }

  lemma OpenHead(objects: Objects, s: State, p: Pid, queue: seq<Pid>)
    requires SameShape(objects, s) && |queue| > 0 && Frontier(objects, s, p, queue, {})
    ensures Frontier(objects, s, p, queue[1..], {queue[0]})
    ensures objects[queue[0]].children.None? ==> Frontier(objects, s, p, queue[1..], {})
  {
    assert queue == [queue[0]] + queue[1..];
  }

  /** `propagate_has_child_subreaper`: a breadth-first walk that stops at marked processes. */
  method Propagate(objects: Objects, current: Process, ghost s: State)
    requires Registered(objects) && SameShape(objects, s) && TreeOk(s)
    requires current in objects.Values && current.children.Some? && !At(s, current.pid).hasSubreaper
    requires forall q :: q in objects ==>
               objects[q].hasSubreaper == (s.procs[q].hasSubreaper || q == current.pid)
    modifies objects.Values`hasSubreaper
    ensures forall q :: q in objects ==>
              objects[q].hasSubreaper == (s.procs[q].hasSubreaper || Reached(s, current.pid, q))
  {
    SamePid(objects, current);
    ghost var p := current.pid;
    var queue;
    ghost var todo;
    queue, todo := Expand(objects, current, [], objects.Keys, s, p);
    while queue != []
      invariant SameShape(objects, s) && Frontier(objects, s, p, queue, {})
      invariant forall q :: q in objects && !objects[q].hasSubreaper ==> q in todo
      decreases |todo| + |queue|
    {
      var o := queue[0];
      OpenHead(objects, s, p, queue);
      queue := queue[1..];
      if objects[o].children.Some? {
        queue, todo := Expand(objects, objects[o], queue, todo, s, p);
      }
    }
    FrontierReached(objects, s, p);
  }

  lemma FrontierReached(objects: Objects, s: State, p: Pid)
    requires objects.Keys == s.procs.Keys && TreeOk(s) && p in objects
    requires Frontier(objects, s, p, [], {})
    ensures forall q :: q in objects ==> objects[q].hasSubreaper == (s.procs[q].hasSubreaper || Reached(s, p, q))
  {
    var marked := set q | q in objects && objects[q].hasSubreaper;
    forall o, c | Holds(s, o, c) && o in marked && !s.procs[o].hasSubreaper ensures c in marked {}
    assert Covers(s, marked, p);
    forall q | Reached(s, p, q) ensures q in marked { CoversReached(s, marked, p, q); }
  }

  /** `set_child_subreaper`, undisturbed: marks the caller and what its walk gets to. */
  method SetChildSubreaper(objects: Objects, current: Process, ghost s: State)
    requires Registered(objects) && SameShape(objects, s) && TreeOk(s)
    requires forall q :: q in objects ==> objects[q].hasSubreaper == s.procs[q].hasSubreaper
    requires current in objects.Values && current.children.Some?
    modifies current`isSubreaper, objects.Values`hasSubreaper
    ensures current.isSubreaper
    ensures forall q :: q in objects ==>
              objects[q].hasSubreaper == DoSetSubreaper(s, current.pid).procs[q].hasSubreaper
  {
    SamePid(objects, current);
    current.isSubreaper := true;
    var had := current.hasSubreaper;
    current.hasSubreaper := true;
    if !had {
      Propagate(objects, current, s);
    }
  }
}
