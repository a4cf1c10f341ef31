/**
 Subjects and their observers: a locked table plus a counter that lets a notification skip
 the lock when nobody is registered.
 */
module Subjects {
  import opened Prelude

  type Observer = nat
  type Event = nat
  /** The events a filter lets through. */
  type Filter = set<Event>

  lemma CountOne<V>(m: map<Observer, V>, o: Observer, v: V)
    ensures |m[o := v]| == if o in m then |m| else |m| + 1
    ensures |m - {o}| == if o in m then |m| - 1 else |m|
  {
    assert m[o := v].Keys == m.Keys + {o};
    assert (m - {o}).Keys == m.Keys - {o};
    if o !in m { assert m - {o} == m; }
  }

  class SyncSubject {
    var observers: map<Observer, Filter>
    var numObservers: nat

    /** The counter is the size of the table whenever the lock is free. */
    ghost predicate Valid()
      reads this
    {
      numObservers == |observers|
    }

    constructor ()
      ensures Valid() && observers == map[]
    {
      observers, numObservers := map[], 0;
    }

    method RegisterObserver(o: Observer, filter: Filter)
      requires Valid()
      modifies this
      ensures Valid() && observers == old(observers)[o := filter]
    {
      CountOne(observers, o, filter);
      var isNew := o !in observers;
      observers := observers[o := filter];
      if isNew {
        numObservers := numObservers + 1;
      }
    }

    method UnregisterObserver(o: Observer) returns (found: bool)
      requires Valid()
      modifies this
      ensures Valid() && found == (o in old(observers)) && observers == old(observers) - {o}
    {
      CountOne(observers, o, {});
      found := o in observers;
      if found {
        observers := observers - {o};
        numObservers := numObservers - 1;
      } else {
        assert observers - {o} == observers;
      }
    }

    /** The slow path: calls the observers that want the event and drops the dead ones. */
    method Sweep(event: Event, alive: set<Observer>) returns (called: seq<Observer>, numFreed: nat)
      modifies this`observers
      ensures forall o :: o in observers <==> o in old(observers) && o in alive
      ensures forall o :: o in observers ==> observers[o] == old(observers)[o]
      ensures |observers| + numFreed == |old(observers)|
      ensures forall o :: o in called <==> o in old(observers) && o in alive && event in old(observers)[o]
      ensures forall i, j :: 0 <= i < j < |called| ==> called[i] < called[j]
    {
      called, numFreed := [], 0;
      ghost var table := observers;
      var rest := observers.Keys;
      while rest != {}
        invariant forall o :: o in rest ==> o in table
        invariant forall o :: o in observers <==> o in table && (o in alive || o in rest)
        invariant forall o :: o in observers ==> observers[o] == table[o]
        invariant |observers| + numFreed == |table|
        invariant forall o :: o in called <==> o in table && o !in rest && o in alive && event in table[o]
        invariant forall i, o :: 0 <= i < |called| && o in rest ==> called[i] < o
        invariant forall i, j :: 0 <= i < j < |called| ==> called[i] < called[j]
        decreases |rest|
      {
        var o := Smallest(rest);
        if o in alive {
          if event in observers[o] {
            called := called + [o];
          }
        } else {
          CountOne(observers, o, observers[o]);
          observers := observers - {o};
          numFreed := numFreed + 1;
        }
        rest := rest - {o};
      }
    }

    /**
     Calls every observer that is still alive and whose filter accepts the event, once each
     and in the order of the table; forgets the observers that are no longer alive.
     */
    method NotifyObservers(event: Event, alive: set<Observer>) returns (called: seq<Observer>)
      requires Valid()
      modifies this
      ensures Valid()
      ensures forall o :: o in observers <==> o in old(observers) && o in alive
      ensures forall o :: o in observers ==> observers[o] == old(observers)[o]
      ensures forall o :: o in called <==> o in old(observers) && o in alive && event in old(observers)[o]
      ensures forall i, j :: 0 <= i < j < |called| ==> called[i] < called[j]
    {
      called := [];
      if numObservers == 0 {
        return;
      }
      var numFreed;
      called, numFreed := Sweep(event, alive);
      if numFreed > 0 {
        numObservers := numObservers - numFreed;
      }
    }
  }
}
