/**
 The unified PID table: one map from numeric identifiers to entries of four slots, which
 has to behave like four separate maps.  Slots hold weak references: an occupied slot can
 name an object that is no longer alive.
 */
module PidTables {
  import opened Prelude

  type Id = nat
  /** The identity of a thread, process, process group or session object. */
  type Ref = nat

  /** What the table stands for. */
  datatype Maps = Maps(
    threads: map<Id, Ref>, processes: map<Id, Ref>, groups: map<Id, Ref>, sessions: map<Id, Ref>)

  datatype Op =
    | InsertThread(id: Id, thread: Ref)
    | RemoveThread(id: Id)
    | ReplaceThread(id: Id, thread: Ref)
    | InsertProcess(id: Id, process: Ref, thread: Ref)
    | RemoveProcess(id: Id)
    | InsertGroup(id: Id, group: Ref)
    | RemoveGroup(id: Id)
    | InsertSession(id: Id, session: Ref)
    | RemoveSession(id: Id)

  predicate Known(m: Maps, id: Id) {
    id in m.threads || id in m.processes || id in m.groups || id in m.sessions
  }

  /** The assertions of the operation; removing something from an unknown identifier is allowed. */
  predicate Legal(m: Maps, op: Op) {
    match op
    case InsertThread(id, _) => id !in m.processes && id !in m.threads
    case RemoveThread(id) => Known(m, id) ==> id !in m.processes && id in m.threads
    case ReplaceThread(id, _) => id in m.threads
    case InsertProcess(id, _, _) => id !in m.processes && id !in m.threads
    case RemoveProcess(id) => Known(m, id) ==> id in m.processes && id in m.threads
    case InsertGroup(id, _) => id !in m.groups
    case RemoveGroup(id) => Known(m, id) ==> id in m.groups
    case InsertSession(id, _) => id !in m.sessions
    case RemoveSession(id) => Known(m, id) ==> id in m.sessions
  }

  /** The operation on four separate maps. */
  function After(m: Maps, op: Op): Maps {
    match op
    case InsertThread(id, thread) => m.(threads := m.threads[id := thread])
    case RemoveThread(id) => m.(threads := m.threads - {id})
    case ReplaceThread(id, thread) => m.(threads := m.threads[id := thread])
    case InsertProcess(id, process, thread) =>
      m.(processes := m.processes[id := process], threads := m.threads[id := thread])
    case RemoveProcess(id) => m.(processes := m.processes - {id}, threads := m.threads - {id})
    case InsertGroup(id, group) => m.(groups := m.groups[id := group])
    case RemoveGroup(id) => m.(groups := m.groups - {id})
    case InsertSession(id, session) => m.(sessions := m.sessions[id := session])
    case RemoveSession(id) => m.(sessions := m.sessions - {id})
  }

  ghost predicate LegalRun(m: Maps, ops: seq<Op>)
    decreases |ops|
  {
    |ops| == 0 || (Legal(m, ops[0]) && LegalRun(After(m, ops[0]), ops[1..]))
  }

  ghost function AfterRun(m: Maps, ops: seq<Op>): Maps
    decreases |ops|
  {
    if |ops| == 0 then m else AfterRun(After(m, ops[0]), ops[1..])
  }

  // ---- Entries ----

  /** `None` is the sentinel `Weak::new()`. */
  datatype Entry = Entry(
    thread: Option<Ref>, process: Option<Ref>, group: Option<Ref>, session: Option<Ref>)

  const EMPTY := Entry(None, None, None, None)

  datatype Kind = Thread | Process | Group | Session

  function Slot(entry: Entry, k: Kind): Option<Ref> {
    match k
    case Thread => entry.thread
    case Process => entry.process
    case Group => entry.group
    case Session => entry.session
  }

  /** One of the four maps the entries stand for. */
  function SlotMap(entries: map<Id, Entry>, k: Kind): map<Id, Ref> {
    map id | id in entries && Slot(entries[id], k).Some? :: Slot(entries[id], k).value
  }

  function ViewOf(entries: map<Id, Entry>): Maps {
    Maps(SlotMap(entries, Thread), SlotMap(entries, Process), SlotMap(entries, Group), SlotMap(entries, Session))
  }

  /** No stored entry is empty, and an entry with a process also has its main thread. */
  ghost predicate EntriesOk(entries: map<Id, Entry>) {
    forall id :: id in entries ==>
      entries[id] != EMPTY && (entries[id].process.Some? ==> entries[id].thread.Some?)
  }

  function EntryAt(entries: map<Id, Entry>, id: Id): Entry {
    if id in entries then entries[id] else EMPTY
  }

  /** An entry that has become empty is not kept. */
  function Stored(entries: map<Id, Entry>, id: Id, entry: Entry): map<Id, Entry> {
    if entry == EMPTY then entries - {id} else entries[id := entry]
  }

  function Put(m: map<Id, Ref>, id: Id, r: Option<Ref>): map<Id, Ref> {
    if r.Some? then m[id := r.value] else m - {id}
  }

  /** Storing an entry changes each map at `id` only, to what the entry says, and nothing else. */
  lemma StoredSlot(entries: map<Id, Entry>, id: Id, entry: Entry, k: Kind)
    ensures SlotMap(Stored(entries, id, entry), k) == Put(SlotMap(entries, k), id, Slot(entry, k))
    ensures Slot(entry, k) == Slot(EntryAt(entries, id), k) ==>
              SlotMap(Stored(entries, id, entry), k) == SlotMap(entries, k)
    ensures id in SlotMap(entries, k) <==> Slot(EntryAt(entries, id), k).Some?
  {
  }

  lemma KnownIffStored(entries: map<Id, Entry>, id: Id)
    requires EntriesOk(entries)
    ensures Known(ViewOf(entries), id) <==> id in entries
  {
  }

  lemma Forgets(m: map<Id, Ref>, id: Id)
    requires id !in m
    ensures m - {id} == m
  {
  }

  // ---- The table ----

  class PidTable {
    var entries: map<Id, Entry>
    var processCount: nat

    function View(): Maps
      reads this
    {
      ViewOf(entries)
    }

    ghost predicate Valid()
      reads this
    {
      EntriesOk(entries) && processCount == |View().processes|
    }

    constructor ()
      ensures Valid() && View() == Maps(map[], map[], map[], map[])
    {
      entries, processCount := map[], 0;
    }

    /** Writes an entry back, dropping it if it has become empty. */
    method Store(id: Id, entry: Entry)
      requires EntriesOk(entries) && (entry.process.Some? ==> entry.thread.Some?)
      modifies this`entries
      ensures EntriesOk(entries)
      ensures forall k :: SlotMap(entries, k) == Put(old(SlotMap(entries, k)), id, Slot(entry, k))
      ensures forall k :: Slot(entry, k) == Slot(old(EntryAt(entries, id)), k) ==>
                SlotMap(entries, k) == old(SlotMap(entries, k))
    {
      forall k { StoredSlot(entries, id, entry, k); }
      entries := Stored(entries, id, entry);
    }

    method InsertThread(tid: Id, thread: Ref)
      requires Valid() && Legal(View(), Op.InsertThread(tid, thread))
      modifies this
      ensures Valid() && View() == After(old(View()), Op.InsertThread(tid, thread))
      ensures View() == old(View()).(threads := old(View()).threads[tid := thread])
    {
      Store(tid, EntryAt(entries, tid).(thread := Some(thread)));
      assert SlotMap(entries, Process) == old(SlotMap(entries, Process));
      assert SlotMap(entries, Group) == old(SlotMap(entries, Group));
      assert SlotMap(entries, Session) == old(SlotMap(entries, Session));
    }

    method RemoveThread(tid: Id)
      requires Valid() && Legal(View(), Op.RemoveThread(tid))
      modifies this
      ensures Valid() && View() == After(old(View()), Op.RemoveThread(tid))
      ensures View() == old(View()).(threads := old(View()).threads - {tid})
    {
      KnownIffStored(entries, tid);
      if tid !in entries {
        Forgets(View().threads, tid);
        return;
      }
      forall k { StoredSlot(entries, tid, EMPTY, k); }
      Store(tid, entries[tid].(thread := None));
    }

    /** Looks an object up; `alive` are the objects that are still owned by somebody. */
    function Get(k: Kind, id: Id, alive: set<Ref>): (r: Option<Ref>)
      reads this
      ensures r == var m := SlotMap(entries, k); if id in m && m[id] in alive then Some(m[id]) else None
    {
      if id !in entries then None else
      match Slot(entries[id], k)
      case Some(r) => if r in alive then Some(r) else None
      case None => None
    }

    method TakeThread(tid: Id, alive: set<Ref>) returns (thread: Option<Ref>)
      requires Valid() && tid !in View().processes
      modifies this
      ensures Valid() && thread == old(Get(Thread, tid, alive))
      ensures thread.Some? ==> View() == After(old(View()), Op.RemoveThread(tid))
      ensures thread.None? ==> View() == old(View())
    {
      thread := Get(Thread, tid, alive);
      if thread.Some? {
        RemoveThread(tid);
      }
    }

    method ReplaceThread(tid: Id, thread: Ref)
      requires Valid() && Legal(View(), Op.ReplaceThread(tid, thread))
      modifies this
      ensures Valid() && View() == After(old(View()), Op.ReplaceThread(tid, thread))
      ensures View() == old(View()).(threads := old(View()).threads[tid := thread])
    {
      Store(tid, EntryAt(entries, tid).(thread := Some(thread)));
      assert SlotMap(entries, Process) == old(SlotMap(entries, Process));
      assert SlotMap(entries, Group) == old(SlotMap(entries, Group));
      assert SlotMap(entries, Session) == old(SlotMap(entries, Session));
    }

    method InsertProcess(pid: Id, process: Ref, mainThread: Ref)
      requires Valid() && Legal(View(), Op.InsertProcess(pid, process, mainThread))
      modifies this
      ensures Valid() && View() == After(old(View()), Op.InsertProcess(pid, process, mainThread))
      ensures View() == old(View()).(processes := old(View()).processes[pid := process],
                                    threads := old(View()).threads[pid := mainThread])
    {
      processCount := processCount + 1;
      forall k { StoredSlot(entries, pid, EMPTY, k); }
      Store(pid, EntryAt(entries, pid).(process := Some(process), thread := Some(mainThread)));
    }

    method RemoveProcess(pid: Id)
      requires Valid() && Legal(View(), Op.RemoveProcess(pid))
      modifies this
      ensures Valid() && View() == After(old(View()), Op.RemoveProcess(pid))
      ensures View() == old(View()).(processes := old(View()).processes - {pid},
                                    threads := old(View()).threads - {pid})
    {
      KnownIffStored(entries, pid);
      if pid !in entries {
        Forgets(View().threads, pid);
        Forgets(View().processes, pid);
        return;
      }
      forall k { StoredSlot(entries, pid, EMPTY, k); }
      CountWithout(View().processes, pid);
      processCount := processCount - 1;
      Store(pid, entries[pid].(process := None, thread := None));
    }

    method InsertGroup(pgid: Id, group: Ref)
      requires Valid() && Legal(View(), Op.InsertGroup(pgid, group))
      modifies this
      ensures Valid() && View() == After(old(View()), Op.InsertGroup(pgid, group))
      ensures View() == old(View()).(groups := old(View()).groups[pgid := group])
    {
      Store(pgid, EntryAt(entries, pgid).(group := Some(group)));
      assert SlotMap(entries, Thread) == old(SlotMap(entries, Thread));
      assert SlotMap(entries, Process) == old(SlotMap(entries, Process));
      assert SlotMap(entries, Session) == old(SlotMap(entries, Session));
    }

    method RemoveGroup(pgid: Id)
      requires Valid() && Legal(View(), Op.RemoveGroup(pgid))
      modifies this
      ensures Valid() && View() == After(old(View()), Op.RemoveGroup(pgid))
      ensures View() == old(View()).(groups := old(View()).groups - {pgid})
    {
      if pgid !in entries {
        Forgets(View().groups, pgid);
        return;
      }
      Store(pgid, entries[pgid].(group := None));
      assert SlotMap(entries, Thread) == old(SlotMap(entries, Thread));
      assert SlotMap(entries, Process) == old(SlotMap(entries, Process));
      assert SlotMap(entries, Session) == old(SlotMap(entries, Session));
    }

    method InsertSession(sid: Id, session: Ref)
      requires Valid() && Legal(View(), Op.InsertSession(sid, session))
      modifies this
      ensures Valid() && View() == After(old(View()), Op.InsertSession(sid, session))
      ensures View() == old(View()).(sessions := old(View()).sessions[sid := session])
    {
      Store(sid, EntryAt(entries, sid).(session := Some(session)));
      assert SlotMap(entries, Thread) == old(SlotMap(entries, Thread));
      assert SlotMap(entries, Process) == old(SlotMap(entries, Process));
      assert SlotMap(entries, Group) == old(SlotMap(entries, Group));
    }

    method RemoveSession(sid: Id)
      requires Valid() && Legal(View(), Op.RemoveSession(sid))
      modifies this
      ensures Valid() && View() == After(old(View()), Op.RemoveSession(sid))
      ensures View() == old(View()).(sessions := old(View()).sessions - {sid})
    {
      if sid !in entries {
        Forgets(View().sessions, sid);
        return;
      }
      Store(sid, entries[sid].(session := None));
      assert SlotMap(entries, Thread) == old(SlotMap(entries, Thread));
      assert SlotMap(entries, Process) == old(SlotMap(entries, Process));
      assert SlotMap(entries, Group) == old(SlotMap(entries, Group));
    }

    method Perform(op: Op)
      requires Valid() && Legal(View(), op)
      modifies this
      ensures Valid() && View() == After(old(View()), op)
    {
      match op
      case InsertThread(id, thread) => InsertThread(id, thread);
      case RemoveThread(id) => RemoveThread(id);
      case ReplaceThread(id, thread) => ReplaceThread(id, thread);
      case InsertProcess(id, process, thread) => InsertProcess(id, process, thread);
      case RemoveProcess(id) => RemoveProcess(id);
      case InsertGroup(id, group) => InsertGroup(id, group);
      case RemoveGroup(id) => RemoveGroup(id);
      case InsertSession(id, session) => InsertSession(id, session);
      case RemoveSession(id) => RemoveSession(id);
    }

    /** Any sequence of operations leaves what four separate maps would hold. */
    method PerformAll(ops: seq<Op>)
      requires Valid() && LegalRun(View(), ops)
      modifies this
      ensures Valid() && View() == AfterRun(old(View()), ops)
    {
      var i := 0;
      while i < |ops|
        invariant i <= |ops| && Valid() && LegalRun(View(), ops[i..])
        invariant AfterRun(View(), ops[i..]) == AfterRun(old(View()), ops)
      {
        assert ops[i..][1..] == ops[i + 1..];
        Perform(ops[i]);
        i := i + 1;
      }
    }

    /** Whether a process group is known by this identifier, alive or not. */
    predicate ContainsGroup(pgid: Id)
      reads this
      ensures ContainsGroup(pgid) <==> pgid in View().groups
    {
      pgid in entries && entries[pgid].group.Some?
    }

    /** The objects of one kind that are still alive, by ascending identifier. */
    method Iterate(k: Kind, alive: set<Ref>) returns (ids: seq<Id>, refs: seq<Ref>)
      ensures |ids| == |refs| && forall i, j :: 0 <= i < j < |ids| ==> ids[i] < ids[j]
      ensures forall i :: 0 <= i < |ids| ==>
                ids[i] in SlotMap(entries, k) && refs[i] == SlotMap(entries, k)[ids[i]] && refs[i] in alive
      ensures forall id :: id in SlotMap(entries, k) && SlotMap(entries, k)[id] in alive ==> id in ids
    {
      ids, refs := [], [];
      ghost var slots := SlotMap(entries, k);
      var rest := entries.Keys;
      while rest != {}
        invariant rest <= entries.Keys && |ids| == |refs|
        invariant forall i, j :: 0 <= i < j < |ids| ==> ids[i] < ids[j]
        invariant forall i, id :: 0 <= i < |ids| && id in rest ==> ids[i] < id
        invariant forall i :: 0 <= i < |ids| ==> ids[i] in slots && refs[i] == slots[ids[i]] && refs[i] in alive
        invariant forall id :: id in slots && slots[id] in alive ==> id in ids || id in rest
        decreases |rest|
      {
        var id := Smallest(rest);
        var r := Slot(entries[id], k);
        if r.Some? && r.value in alive {
          assert id in slots && slots[id] == r.value;
          ids, refs := ids + [id], refs + [r.value];
        }
        rest := rest - {id};
      }
    }
  }

  lemma CountWithout(m: map<Id, Ref>, id: Id)
    requires id in m
    ensures |m - {id}| == |m| - 1
  {
    assert (m - {id}).Keys == m.Keys - {id};
  }

  lemma {:induction false} AscendingCount(ids: seq<Id>, s: set<Id>)
    requires forall i, j :: 0 <= i < j < |ids| ==> ids[i] < ids[j]
    requires forall x :: x in s <==> x in ids
    ensures |ids| == |s|
  {
    if |ids| == 0 {
      assert s == {};
    } else {
      var x := ids[|ids| - 1];
      forall y ensures y in s - {x} <==> y in ids[..|ids| - 1] {
        assert ids == ids[..|ids| - 1] + [x];
      }
      AscendingCount(ids[..|ids| - 1], s - {x});
    }
  }

  /**
   The process count equals the number of processes an iteration yields if and only if every
   occupied process slot names a process that is still alive.
   */
  method CountProcesses(table: PidTable, alive: set<Ref>) returns (ids: seq<Id>)
    requires table.Valid()
    ensures |ids| == table.processCount <==> forall id :: id in table.View().processes ==>
              table.View().processes[id] in alive
    ensures forall id :: id in ids <==> id in table.View().processes && table.View().processes[id] in alive
  {
    var refs;
    ids, refs := table.Iterate(Process, alive);
    ghost var slots := table.View().processes;
    ghost var living := set id | id in slots && slots[id] in alive;
    AscendingCount(ids, living);
    assert living <= slots.Keys;
    if |ids| == table.processCount { SameSize(living, slots.Keys); }
    if forall id :: id in slots ==> slots[id] in alive { assert living == slots.Keys; }
  }

  lemma SameSize(a: set<Id>, b: set<Id>)
    requires a <= b && |a| == |b|
    ensures a == b
  {
    assert a * b == a && a + b == b && a - b == {};
    assert |b - a| == 0;
  }
}
