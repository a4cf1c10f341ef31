/**
 IPC identifiers: a bitmap allocator and a map of objects that have to agree, including when
 building an object fails half-way and when a removal is refused.
 */
module IpcTables {
  import opened Prelude

  datatype Errno = EINVAL | EEXIST | ENOENT | ENOSPC

  // ---- The allocator ----

  class IdAlloc {
    const bits: array<bool>
    var firstAvailable: nat

    /** `firstAvailable` is the smallest free identifier, or the capacity. */
    ghost predicate Valid()
      reads this, bits
    {
      && firstAvailable <= bits.Length
      && (forall i :: 0 <= i < firstAvailable ==> bits[i])
      && (firstAvailable < bits.Length ==> !bits[firstAvailable])
    }

    ghost function Allocated(): set<nat>
      reads bits
    {
      set i | 0 <= i < bits.Length && bits[i]
    }

    constructor (capacity: nat)
      ensures Valid() && fresh(bits) && bits.Length == capacity && Allocated() == {}
    {
      bits := new bool[capacity](i => false);
      firstAvailable := 0;
    }

    /** The first free identifier from `from` on, or the capacity. */
    method NextFree(from: nat) returns (id: nat)
      requires from <= bits.Length
      ensures from <= id <= bits.Length
      ensures forall i :: from <= i < id ==> bits[i]
      ensures id < bits.Length ==> !bits[id]
    {
      id := from;
      while id < bits.Length && bits[id]
        invariant from <= id <= bits.Length
        invariant forall i :: from <= i < id ==> bits[i]
      {
        id := id + 1;
      }
    }

    /** Hands out the smallest free identifier, if there is one. */
    method Alloc() returns (id: Option<nat>)
      requires Valid()
      modifies this, bits
      ensures Valid()
      ensures id.None? ==>
                (forall i :: 0 <= i < bits.Length ==> i in old(Allocated())) && Allocated() == old(Allocated())
      ensures id.Some? ==>
                && id.value < bits.Length && id.value !in old(Allocated())
                && (forall i :: 0 <= i < id.value ==> i in old(Allocated()))
                && Allocated() == old(Allocated()) + {id.value}
    {
      if firstAvailable >= bits.Length {
        return None;
      }
      id := Some(firstAvailable);
      bits[firstAvailable] := true;
      firstAvailable := NextFree(firstAvailable + 1);
    }

    method AllocSpecific(id: nat) returns (ok: bool)
      requires Valid() && id < bits.Length
      modifies this, bits
      ensures Valid() && ok == (id !in old(Allocated())) && Allocated() == old(Allocated()) + {id}
    {
      if bits[id] {
        return false;
      }
      bits[id] := true;
      if id == firstAvailable {
        firstAvailable := NextFree(id + 1);
      }
      return true;
    }

    method Free(id: nat)
      requires Valid() && id in Allocated()
      modifies this, bits
      ensures Valid() && Allocated() == old(Allocated()) - {id}
    {
      bits[id] := false;
      if id < firstAvailable {
        firstAvailable := id;
      }
    }
  }

  // ---- Identifiers and objects ----

  class IpcIds<T> {
    var objects: map<nat, T>
    const alloc: IdAlloc
    const maxId: nat

    /** The allocated identifiers are 0 and the keys of the map. */
    ghost predicate Valid()
      reads this, alloc, alloc.bits
    {
      alloc.Valid() && alloc.bits.Length == maxId + 1 && alloc.Allocated() == {0} + objects.Keys && 0 !in objects
    }

    constructor (maxId: nat)
      ensures Valid() && fresh(alloc) && fresh(alloc.bits) && this.maxId == maxId && objects == map[]
    {
      this.maxId := maxId;
      objects := map[];
      var a := new IdAlloc(maxId + 1);
      var ok := a.AllocSpecific(0);
      alloc := a;
    }

    /** Applies `op` to an object, if it exists. */
    method With<R>(id: nat, op: T -> R) returns (r: Option<R>)
      ensures r == if id in objects then Some(op(objects[id])) else None
    {
      if id !in objects {
        return None;
      }
      r := Some(op(objects[id]));
    }

    /** Removes an object unless it does not exist or `mayRemove` objects. */
    method Remove(id: nat, mayRemove: T -> Option<Errno>) returns (err: Option<Errno>)
      requires Valid()
      modifies this, alloc, alloc.bits
      ensures Valid()
      ensures err == if id !in old(objects) then Some(EINVAL) else mayRemove(old(objects)[id])
      ensures objects == if err.None? then old(objects) - {id} else old(objects)
    {
      if id !in objects {
        return Some(EINVAL);
      }
      err := mayRemove(objects[id]);
      if err.None? {
        objects := objects - {id};
        alloc.Free(id);
      }
    }

    /** `id` is the smallest identifier from 1 on that no object has. */
    ghost predicate IsNextId(id: nat)
      reads this
    {
      1 <= id <= maxId && id !in objects && forall i :: 1 <= i < id ==> i in objects
    }

    /** Builds an object under the smallest free identifier; a failed construction changes nothing. */
    method InsertAuto(newObject: nat -> Result<T, Errno>) returns (r: Result<nat, Errno>)
      requires Valid()
      modifies this, alloc, alloc.bits
      ensures Valid()
      ensures (forall i :: 1 <= i <= maxId ==> i in old(objects)) ==> r == Err(ENOSPC) && objects == old(objects)
      ensures forall id :: old(IsNextId(id)) ==>
                match newObject(id)
                case Ok(built) => r == Ok(id) && objects == old(objects)[id := built]
                case Err(e) => r == Err(e) && objects == old(objects)
    {
      var id := alloc.Alloc();
      if id.None? {
        return Err(ENOSPC);
      }
      match newObject(id.value)
      case Ok(built) =>
        objects := objects[id.value := built];
        return Ok(id.value);
      case Err(e) =>
        alloc.Free(id.value);
        return Err(e);
    }

    /** Builds an object under a given identifier; fails if it is taken. */
    method InsertAt(id: nat, newObject: nat -> Result<T, Errno>) returns (err: Option<Errno>)
      requires Valid() && 1 <= id <= maxId
      modifies this, alloc, alloc.bits
      ensures Valid()
      ensures id in old(objects) ==> err == Some(EEXIST) && objects == old(objects)
      ensures id !in old(objects) ==>
                match newObject(id)
                case Ok(built) => err == None && objects == old(objects)[id := built]
                case Err(e) => err == Some(e) && objects == old(objects)
    {
      var ok := alloc.AllocSpecific(id);
      if !ok {
        return Some(EEXIST);
      }
      match newObject(id)
      case Ok(built) =>
        objects := objects[id := built];
        return None;
      case Err(e) =>
        alloc.Free(id);
        return Some(e);
    }
  }
}
