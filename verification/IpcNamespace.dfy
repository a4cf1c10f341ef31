/**
 `semget` and friends: semaphore sets found by key through a hash slot, with a look-up and
 insert loop that other threads can interfere with between its two halves.
 */
module IpcNamespace {
  import opened Prelude
  import opened IpcTables

  const SEMMNI: nat := 32000
  const SEMMSL: nat := 32000
  const IPC_PRIVATE: Key := 0

  /** `IpcKey` is a signed 32-bit integer. */
  type Key = k: int | -0x8000_0000 <= k < 0x8000_0000

  datatype SemSet = SemSet(key: Key, numSems: nat)

  datatype Flags = Flags(creat: bool, excl: bool)

  type Sets = map<nat, SemSet>

  /** `key.cast_unsigned() % SEMMNI + 1`. */
  function HashSlot(key: Key): (id: nat)
    ensures 1 <= id <= SEMMNI
  {
    (if key < 0 then key + 0x1_0000_0000 else key) % SEMMNI + 1
  }

  /** `SemaphoreSet::new`. */
  function NewSet(key: Key, numSems: nat): Result<SemSet, Errno> {
    if numSems == 0 || numSems > SEMMSL then Err(EINVAL) else Ok(SemSet(key, numSems))
  }

  /** What the look-up makes of the set it finds in the slot. */
  function Judge(found: SemSet, key: Key, numSems: nat, flags: Flags): Result<nat, Errno> {
    if found.key != key then Err(if flags.creat then ENOSPC else ENOENT)
    else if flags.creat && flags.excl then Err(EEXIST)
    else if found.numSems < numSems then Err(EINVAL)
    else Ok(HashSlot(key))
  }

  /** The smallest identifier from `id` on that is free, if any. */
  function NextId(sets: Sets, id: nat): (r: Option<nat>)
    ensures r.Some? ==>
              id <= r.value <= SEMMNI && r.value !in sets && forall i :: id <= i < r.value ==> i in sets
    ensures r.None? ==> forall i :: id <= i <= SEMMNI ==> i in sets
    decreases SEMMNI + 1 - id
  {
    if id > SEMMNI then None else if id !in sets then Some(id) else NextId(sets, id + 1)
  }

  /** `get_or_create_sem_set` as if nobody interfered: the answer and the sets afterwards. */
  function GetOrCreate(sets: Sets, key: Key, numSems: nat, flags: Flags): (Result<nat, Errno>, Sets) {
    if key == IPC_PRIVATE then
      match NextId(sets, 1)
      case None => (Err(ENOSPC), sets)
      case Some(id) => Create(sets, id, key, numSems)
    else if HashSlot(key) in sets then (Judge(sets[HashSlot(key)], key, numSems, flags), sets)
    else if !flags.creat then (Err(ENOENT), sets)
    else Create(sets, HashSlot(key), key, numSems)
  }

  function Create(sets: Sets, id: nat, key: Key, numSems: nat): (Result<nat, Errno>, Sets) {
    match NewSet(key, numSems)
    case Ok(built) => (Ok(id), sets[id := built])
    case Err(e) => (Err(e), sets)
  }

  /** What another thread does to the sets meanwhile. */
  datatype Action = Add(id: nat, added: SemSet) | Drop(id: nat)

  function Acted(sets: Sets, a: Action): Sets {
    match a
    case Add(id, added) => if 1 <= id <= SEMMNI && id !in sets then sets[id := added] else sets
    case Drop(id) => sets - {id}
  }

  function ActedAll(sets: Sets, acts: seq<Action>): Sets {
    if acts == [] then sets else Acted(ActedAll(sets, acts[..|acts| - 1]), acts[|acts| - 1])
  }

  /** The sets after the first `n` groups of actions. */
  function ActedUpto(sets: Sets, rivals: seq<seq<Action>>, n: nat): Sets
    requires n <= |rivals|
  {
    if n == 0 then sets else ActedAll(ActedUpto(sets, rivals, n - 1), rivals[n - 1])
  }

  class Namespace {
    const semIds: IpcIds<SemSet>

    ghost predicate Valid()
      reads semIds, semIds.alloc, semIds.alloc.bits
    {
      semIds.Valid() && semIds.maxId == SEMMNI
    }

    constructor ()
      ensures Valid() && fresh(semIds) && semIds.objects == map[]
    {
      semIds := new IpcIds(SEMMNI);
    }

    method CreateSemSet(numSems: nat) returns (r: Result<nat, Errno>)
      requires Valid()
      modifies semIds, semIds.alloc, semIds.alloc.bits
      ensures Valid()
      ensures (r, semIds.objects) == GetOrCreate(old(semIds.objects), IPC_PRIVATE, numSems, Flags(true, true))
    {
      ghost var next := NextId(semIds.objects, 1);
      assert next.Some? ==> semIds.IsNextId(next.value);
      r := semIds.InsertAuto(id => NewSet(IPC_PRIVATE, numSems));
    }

    /** Other threads act through the same table. */
    method Interfere(acts: seq<Action>)
      requires Valid()
      modifies semIds, semIds.alloc, semIds.alloc.bits
      ensures Valid() && semIds.objects == ActedAll(old(semIds.objects), acts)
    {
      for i := 0 to |acts|
        invariant Valid() && semIds.objects == ActedAll(old(semIds.objects), acts[..i])
      {
        assert acts[..i + 1][..i] == acts[..i];
        match acts[i] {
          case Add(id, added) =>
            if 1 <= id <= SEMMNI {
              var _ := semIds.InsertAt(id, i => Ok(added));
            }
          case Drop(id) =>
            var before := semIds.objects;
            var _ := semIds.Remove(id, dropped => None);
            assert semIds.objects == before - {id};
        }
      }
      assert acts[..|acts|] == acts;
    }

    /** The next group of actions, if the other threads have any left. */
    method Next(rivals: seq<seq<Action>>, g: nat, ghost start: Sets) returns (g': nat)
      requires Valid() && g <= |rivals| && semIds.objects == ActedUpto(start, rivals, g)
      modifies semIds, semIds.alloc, semIds.alloc.bits
      ensures Valid() && g <= g' <= |rivals| && semIds.objects == ActedUpto(start, rivals, g')
      ensures g == g' ==> semIds.objects == old(semIds.objects)
    {
      g' := g;
      if g < |rivals| {
        Interfere(rivals[g]);
        g' := g + 1;
      }
    }

    /**
     `get_or_create_sem_set` through the identifier table, while other threads act between
     its look-ups and insertions.  The call answers and changes the sets as if it had run
     alone after the first `n` groups of their actions.
     */
    method GetOrCreateSemSet(key: Key, numSems: nat, flags: Flags, rivals: seq<seq<Action>>)
      returns (r: Result<nat, Errno>, ghost n: nat)
      requires Valid()
      modifies semIds, semIds.alloc, semIds.alloc.bits
      ensures Valid() && n <= |rivals|
      ensures (r, semIds.objects) == GetOrCreate(ActedUpto(old(semIds.objects), rivals, n), key, numSems, flags)
    {
      ghost var start := semIds.objects;
      if key == IPC_PRIVATE {
        r := CreateSemSet(numSems);
        return r, 0;
      }
      var semid := HashSlot(key);
      var g := 0;
      while true
        invariant Valid() && g <= |rivals| && semIds.objects == ActedUpto(start, rivals, g)
        decreases |rivals| - g
      {
        var found := semIds.With(semid, looked => Judge(looked, key, numSems, flags));
        if found.Some? {
          return found.value, g;
        }
        if !flags.creat {
          return Err(ENOENT), g;
        }
        g := Next(rivals, g, start);
        var err := semIds.InsertAt(semid, id => NewSet(key, numSems));
        if err.None? {
          return Ok(semid), g;
        }
        if err.value != EEXIST {
          return Err(err.value), g;
        }
        g := Next(rivals, g, start);
      }
    }
  }

  // ---- Keys and slots ----

  /** A set with a key sits in the slot of its key. */
  ghost predicate KeysOk(sets: Sets) {
    forall id :: id in sets ==>
      1 <= id <= SEMMNI && (sets[id].key != IPC_PRIVATE ==> id == HashSlot(sets[id].key))
  }

  ghost predicate HasKey(sets: Sets, id: nat, key: Key) {
    id in sets && sets[id].key == key
  }

  /** Looking in the slot finds a set by key exactly if there is one, and there is at most one. */
  lemma SlotFindsKey(sets: Sets, key: Key)
    requires KeysOk(sets) && key != IPC_PRIVATE
    ensures HasKey(sets, HashSlot(key), key) <==> exists id :: HasKey(sets, id, key)
    ensures forall id, id' :: HasKey(sets, id, key) && HasKey(sets, id', key) ==> id == id'
  {
    forall id | HasKey(sets, id, key) ensures id == HashSlot(key) {}
  }

  /** Two keys share a slot exactly if they are congruent as unsigned 32-bit numbers. */
  lemma SlotsShared(key: Key, other: Key)
    ensures var u := if key < 0 then key + 0x1_0000_0000 else key;
            var v := if other < 0 then other + 0x1_0000_0000 else other;
            HashSlot(key) == HashSlot(other) <==> (u - v) % 32000 == 0
  {
    Congruent(if key < 0 then key + 0x1_0000_0000 else key, if other < 0 then other + 0x1_0000_0000 else other);
  }

  lemma Congruent(u: nat, v: nat)
    ensures u % 32000 == v % 32000 <==> (u - v) % 32000 == 0
  {
    var d := u / 32000 - v / 32000;
    assert u - v == 32000 * d + (u % 32000 - v % 32000);
    if u % 32000 == v % 32000 {
      assert (32000 * d) % 32000 == 0;
    }
  }

  /**
   What a keyed call means, in terms of keys and numbers alone: an existing set answers by
   its identifier unless creation was to be exclusive or the set is too small; a missing one
   is created on request, under the number its key hashes to, unless a private set or a set
   of a congruent key has that number.
   */
  lemma KeyedCallMeans(sets: Sets, key: Key, numSems: nat, flags: Flags)
    requires KeysOk(sets) && key != 0
    ensures var (answer, sets') := GetOrCreate(sets, key, numSems, flags);
            var slot := (if key < 0 then key + 0x1_0000_0000 else key) % 32000 + 1;
            && KeysOk(sets')
            && (forall id :: HasKey(sets, id, key) ==>
                  && id == slot && sets' == sets
                  && answer == if flags.creat && flags.excl then Err(EEXIST)
                               else if sets[id].numSems < numSems then Err(EINVAL)
                               else Ok(id))
            && (!(exists id :: HasKey(sets, id, key)) ==>
                  if !flags.creat then answer == Err(ENOENT) && sets' == sets
                  else if slot in sets then answer == Err(ENOSPC) && sets' == sets
                  else if numSems == 0 || numSems > 32000 then answer == Err(EINVAL) && sets' == sets
                  else answer == Ok(slot) && sets' == sets[slot := SemSet(key, numSems)])
  {
    SlotFindsKey(sets, key);
  }

  /** Who has the number of a missing key: a private set or a set of a congruent key. */
  lemma OccupantIsCongruent(sets: Sets, key: Key, id: nat)
    requires KeysOk(sets) && id in sets && id == (if key < 0 then key + 0x1_0000_0000 else key) % 32000 + 1
    ensures var u := if key < 0 then key + 0x1_0000_0000 else key;
            var k := sets[id].key;
            var v := if k < 0 then k + 0x1_0000_0000 else k;
            k == 0 || (u - v) % 32000 == 0
  {
    SlotsShared(key, sets[id].key);
  }

  /** A set of a congruent key has it, so that both cannot be there. */
  lemma CongruentKeysCollide(sets: Sets, key: Key, id: nat)
    requires KeysOk(sets) && id in sets && sets[id].key != 0
    requires var u := if key < 0 then key + 0x1_0000_0000 else key;
             var k := sets[id].key;
             var v := if k < 0 then k + 0x1_0000_0000 else k;
             (u - v) % 32000 == 0
    ensures id == (if key < 0 then key + 0x1_0000_0000 else key) % 32000 + 1
  {
    SlotsShared(key, sets[id].key);
  }

  /**
   A private call never disturbs a keyed set and takes the smallest free identifier; it fails
   for want of one, or else for a bad number of semaphores.
   */
  lemma PrivateCallMeans(sets: Sets, numSems: nat, flags: Flags)
    requires KeysOk(sets)
    ensures var (answer, sets') := GetOrCreate(sets, 0, numSems, flags);
            && KeysOk(sets')
            && (answer.Ok? ==>
                  && 1 <= answer.value <= 32000 && answer.value !in sets
                  && sets' == sets[answer.value := SemSet(0, numSems)]
                  && forall i :: 1 <= i < answer.value ==> i in sets)
            && (answer.Err? ==> sets' == sets)
            && (answer == Err(ENOSPC) <==> forall i :: 1 <= i <= 32000 ==> i in sets)
            && (answer == Err(EINVAL) <==>
                  (numSems == 0 || numSems > 32000) && exists i :: 1 <= i <= 32000 && i !in sets)
            && (answer.Ok? || answer == Err(ENOSPC) || answer == Err(EINVAL))
  {
    var next := NextId(sets, 1);
    if next.Some? { assert next.value !in sets && 1 <= next.value <= SEMMNI; }
  }

  // ---- Calls in parallel ----

  datatype Pc = Looking | Inserting | Done(answer: Result<nat, Errno>)

  /** `start` and `since`: how often the slot had been filled at the call and at the last look-up. */
  datatype Caller = Caller(
    key: Key, numSems: nat, flags: Flags, pc: Pc, retries: nat, start: nat, since: nat)

  /** `births`: how often each identifier has been filled so far. */
  datatype State = State(sets: Sets, callers: map<nat, Caller>, births: map<nat, nat>)

  function Births(s: State, id: nat): nat {
    if id in s.births then s.births[id] else 0
  }

  datatype Step =
    | Call(c: nat, key: Key, numSems: nat, flags: Flags)
    | Private(c: nat)
    | Look(c: nat)
    | Try(c: nat)
    | Remove(id: nat)

  predicate Enabled(s: State, step: Step) {
    match step
    case Call(c, _, _, _) => c !in s.callers
    case Private(c) => c in s.callers && s.callers[c].pc.Looking? && s.callers[c].key == IPC_PRIVATE
    case Look(c) => c in s.callers && s.callers[c].pc.Looking? && s.callers[c].key != IPC_PRIVATE
    case Try(c) => c in s.callers && s.callers[c].pc.Inserting?
    case Remove(id) => id in s.sets
  }

  function Finish(s: State, c: nat, answer: Result<nat, Errno>, sets: Sets): State
    requires c in s.callers
  {
    s.(sets := sets,
       callers := s.callers[c := s.callers[c].(pc := Done(answer))],
       births := if answer.Ok? && sets != s.sets then s.births[answer.value := Births(s, answer.value) + 1]
                 else s.births)
  }

  /** `insert_auto`. */
  function DoPrivate(s: State, c: nat): State
    requires c in s.callers
  {
    match NextId(s.sets, 1)
    case None => Finish(s, c, Err(ENOSPC), s.sets)
    case Some(id) =>
      var (answer, sets) := Create(s.sets, id, IPC_PRIVATE, s.callers[c].numSems);
      Finish(s, c, answer, sets)
  }

  /** The look-up half of the loop. */
  function DoLook(s: State, c: nat): State
    requires c in s.callers
  {
    var me := s.callers[c];
    var slot := HashSlot(me.key);
    if slot in s.sets then Finish(s, c, Judge(s.sets[slot], me.key, me.numSems, me.flags), s.sets)
    else if !me.flags.creat then Finish(s, c, Err(ENOENT), s.sets)
    else s.(callers := s.callers[c := me.(pc := Inserting, since := Births(s, slot))])
  }

  /** The insert half: `insert_at`, and another turn of the loop if the slot is taken. */
  function DoTry(s: State, c: nat): State
    requires c in s.callers
  {
    var me := s.callers[c];
    var slot := HashSlot(me.key);
    if slot in s.sets then s.(callers := s.callers[c := me.(pc := Looking, retries := me.retries + 1)])
    else
      var (answer, sets) := Create(s.sets, slot, me.key, me.numSems);
      Finish(s, c, answer, sets)
  }

  function Apply(s: State, step: Step): State
    requires Enabled(s, step)
  {
    match step
    case Call(c, key, numSems, flags) =>
      var b := Births(s, HashSlot(key));
      s.(callers := s.callers[c := Caller(key, numSems, flags, Looking, 0, b, b)])
    case Private(c) => DoPrivate(s, c)
    case Look(c) => DoLook(s, c)
    case Try(c) => DoTry(s, c)
    case Remove(id) => s.(sets := s.sets - {id})
  }

  ghost predicate Next(s: State, step: Step, s': State) {
    Enabled(s, step) && s' == Apply(s, step)
  }

  ghost predicate IsRun(states: seq<State>, steps: seq<Step>) {
    && |states| == |steps| + 1
    && states[0] == State(map[], map[], map[])
    && forall i :: 0 <= i < |steps| ==> Next(states[i], steps[i], states[i + 1])
  }

  ghost predicate Reachable(s: State) {
    exists states, steps :: IsRun(states, steps) && states[|steps|] == s
  }

  // ---- What holds throughout ----

  ghost predicate CallerOk(s: State, c: nat) {
    c in s.callers ==>
      var me := s.callers[c];
      var slot := HashSlot(me.key);
      && (me.pc.Inserting? ==>
            && me.key != IPC_PRIVATE && me.flags.creat
            && me.retries + me.start <= me.since <= Births(s, slot)
            && (slot in s.sets ==> me.since < Births(s, slot)))
      && (me.pc.Looking? ==> me.retries + me.start <= Births(s, slot))
  }

  ghost predicate Inv(s: State) {
    KeysOk(s.sets) && forall c {:trigger CallerOk(s, c)} :: CallerOk(s, c)
  }

  lemma FinishKeeps(s: State, c: nat, answer: Result<nat, Errno>, sets: Sets)
    requires Inv(s) && c in s.callers && KeysOk(sets)
    requires sets == s.sets
             || (answer.Ok? && answer.value !in s.sets && answer.value in sets
                 && sets == s.sets[answer.value := sets[answer.value]])
    ensures Inv(Finish(s, c, answer, sets))
  {
    var s' := Finish(s, c, answer, sets);
    forall d ensures CallerOk(s', d) { assert CallerOk(s, d); }
  }

  lemma CreateKeeps(s: State, c: nat, id: nat, key: Key)
    requires Inv(s) && c in s.callers && 1 <= id <= SEMMNI && id !in s.sets
    requires key != IPC_PRIVATE ==> id == HashSlot(key)
    ensures var (answer, sets) := Create(s.sets, id, key, s.callers[c].numSems);
            Inv(Finish(s, c, answer, sets))
  {
    var (answer, sets) := Create(s.sets, id, key, s.callers[c].numSems);
    if answer.Ok? { assert sets == s.sets[id := SemSet(key, s.callers[c].numSems)]; }
    FinishKeeps(s, c, answer, sets);
  }

  lemma StepKeepsInv(s: State, step: Step, s': State)
    requires Inv(s) && Next(s, step, s')
    ensures Inv(s')
  {
    match step
    case Call(c, key, numSems, flags) =>
      forall d ensures CallerOk(s', d) { assert CallerOk(s, d); }
    case Private(c) =>
      match NextId(s.sets, 1) {
        case None => FinishKeeps(s, c, Err(ENOSPC), s.sets);
        case Some(id) => CreateKeeps(s, c, id, IPC_PRIVATE);
      }
    case Look(c) =>
      var me := s.callers[c];
      var slot := HashSlot(me.key);
      assert CallerOk(s, c);
      if slot in s.sets {
        FinishKeeps(s, c, Judge(s.sets[slot], me.key, me.numSems, me.flags), s.sets);
      } else if !me.flags.creat {
        FinishKeeps(s, c, Err(ENOENT), s.sets);
      } else {
        forall d ensures CallerOk(s', d) { assert CallerOk(s, d); }
      }
    case Try(c) =>
      assert CallerOk(s, c);
      if HashSlot(s.callers[c].key) in s.sets {
        forall d ensures CallerOk(s', d) { assert CallerOk(s, d); }
      } else {
        CreateKeeps(s, c, HashSlot(s.callers[c].key), s.callers[c].key);
      }
    case Remove(id) =>
      forall d ensures CallerOk(s', d) { assert CallerOk(s, d); }
  }

  lemma StepsKeepInv()
    ensures forall s, step, s' {:trigger Next(s, step, s')} :: Inv(s) && Next(s, step, s') ==> Inv(s')
  {
    forall s, step, s' | Inv(s) && Next(s, step, s') ensures Inv(s') {
      StepKeepsInv(s, step, s');
    }
  }

  lemma {:induction false} RunKeepsInv(states: seq<State>, steps: seq<Step>, i: nat)
    requires IsRun(states, steps) && i < |states|
    ensures Inv(states[i])
  {
    if i > 0 {
      RunKeepsInv(states, steps, i - 1);
      StepsKeepInv();
    }
  }

  lemma ReachableInv(s: State)
    requires Reachable(s)
    ensures Inv(s)
  {
    var states, steps :| IsRun(states, steps) && states[|steps|] == s;
    RunKeepsInv(states, steps, |steps|);
  }

  // ---- The theorems ----

  /** In every reachable state a set of a key has the number its key hashes to, and no other. */
  lemma KeysFoundInEveryRun(s: State, key: Key)
    requires Reachable(s) && key != 0
    ensures var slot := (if key < 0 then key + 0x1_0000_0000 else key) % 32000 + 1;
            && (HasKey(s.sets, slot, key) <==> exists id :: HasKey(s.sets, id, key))
            && forall id :: HasKey(s.sets, id, key) ==> id == slot
    ensures forall id, id' :: HasKey(s.sets, id, key) && HasKey(s.sets, id', key) ==> id == id'
  {
    ReachableInv(s);
    SlotFindsKey(s.sets, key);
  }

  /**
   Interference does not show: a call that finishes answers and changes the sets as the
   uninterrupted call would have at that very moment; a step that does not finish changes
   no set.
   */
  lemma CallsAreAtomic(s: State, step: Step)
    requires Reachable(s) && Enabled(s, step) && (step.Private? || step.Look? || step.Try?)
    ensures var s' := Apply(s, step);
            var me := s.callers[step.c];
            if s'.callers[step.c].pc.Done?
            then (s'.callers[step.c].pc.answer, s'.sets) == GetOrCreate(s.sets, me.key, me.numSems, me.flags)
            else s'.sets == s.sets
  {
    ReachableInv(s);
    assert CallerOk(s, step.c);
  }

  /** Over every run a caller is there on the terms it called with. */
  lemma {:induction false} CallTermsWereGiven(states: seq<State>, steps: seq<Step>, n: nat, c: nat)
    requires IsRun(states, steps) && n <= |steps| && c in states[n].callers
    ensures var me := states[n].callers[c]; exists k :: 0 <= k < n && steps[k] == Call(c, me.key, me.numSems, me.flags)
  {
    if n > 0 {
      var me := states[n].callers[c];
      assert Next(states[n - 1], steps[n - 1], states[n]);
      if steps[n - 1] != Call(c, me.key, me.numSems, me.flags) {
        assert c in states[n - 1].callers && states[n - 1].callers[c].key == me.key
            && states[n - 1].callers[c].numSems == me.numSems && states[n - 1].callers[c].flags == me.flags;
        CallTermsWereGiven(states, steps, n - 1, c);
      }
    }
  }

  /** Removal takes out exactly the one set. */
  lemma RemovedIsGone(s: State, id: nat, other: nat)
    requires Enabled(s, Remove(id))
    ensures var s' := Apply(s, Remove(id));
            && s'.callers == s.callers && (other in s'.sets <==> other in s.sets && other != id)
            && (other in s'.sets ==> s'.sets[other] == s.sets[other])
  {
  }

  /** How often identifier `id` has been filled in the first `n` steps. */
  ghost function Fills(states: seq<State>, n: nat, id: nat): nat
    requires n < |states|
  {
    if n == 0 then 0
    else Fills(states, n - 1, id) + if id !in states[n - 1].sets && id in states[n].sets then 1 else 0
  }

  lemma StepFills(s: State, step: Step, id: nat)
    requires Inv(s) && Enabled(s, step)
    ensures Births(Apply(s, step), id) ==
            Births(s, id) + if id !in s.sets && id in Apply(s, step).sets then 1 else 0
  {
    if step.Private? { var next := NextId(s.sets, 1); }
  }

  /** The auxiliary count is what it says. */
  lemma {:induction false} BirthsAreFills(states: seq<State>, steps: seq<Step>, n: nat, id: nat)
    requires IsRun(states, steps) && n < |states|
    ensures Births(states[n], id) == Fills(states, n, id)
  {
    if n > 0 {
      BirthsAreFills(states, steps, n - 1, id);
      RunKeepsInv(states, steps, n - 1);
      assert Next(states[n - 1], steps[n - 1], states[n]);
      StepFills(states[n - 1], steps[n - 1], id);
    }
  }

  /** The look-up at step `i` found the slot empty and the caller has been inserting since. */
  ghost predicate LookedAt(states: seq<State>, steps: seq<Step>, i: nat, n: nat, c: nat, key: Key)
    requires |states| == |steps| + 1 && i < n <= |steps|
  {
    && steps[i] == Look(c) && HashSlot(key) !in states[i].sets
    && forall k :: i < k <= n ==> c in states[k].callers && states[k].callers[c].pc.Inserting?
                                  && states[k].callers[c].key == key
  }

  lemma InsertingComes(s: State, step: Step, c: nat)
    requires Enabled(s, step) && c in Apply(s, step).callers && Apply(s, step).callers[c].pc.Inserting?
    ensures c in s.callers && s.callers[c].key == Apply(s, step).callers[c].key
    ensures s.callers[c].pc.Inserting? || (step == Look(c) && HashSlot(s.callers[c].key) !in s.sets)
  {
  }

  lemma {:induction false} InsertingLooked(states: seq<State>, steps: seq<Step>, n: nat, c: nat)
    requires IsRun(states, steps) && n <= |steps| && c in states[n].callers && states[n].callers[c].pc.Inserting?
    ensures exists i :: 0 <= i < n && LookedAt(states, steps, i, n, c, states[n].callers[c].key)
  {
    if n > 0 {
      assert Next(states[n - 1], steps[n - 1], states[n]);
      InsertingComes(states[n - 1], steps[n - 1], c);
      var key := states[n].callers[c].key;
      if states[n - 1].callers[c].pc.Inserting? {
        InsertingLooked(states, steps, n - 1, c);
        var i :| 0 <= i < n - 1 && LookedAt(states, steps, i, n - 1, c, key);
        assert LookedAt(states, steps, i, n, c, key);
      } else {
        assert LookedAt(states, steps, n - 1, n, c, key);
      }
    }
  }

  lemma {:induction false} FilledBetween(states: seq<State>, i: nat, n: nat, id: nat)
    requires i < n < |states| && id !in states[i].sets && id in states[n].sets
    ensures exists j :: i <= j < n && id !in states[j].sets && id in states[j + 1].sets
    decreases n
  {
    if id in states[n - 1].sets && i < n - 1 {
      FilledBetween(states, i, n - 1, id);
    } else {
      assert id !in states[n - 1].sets && id in states[(n - 1) + 1].sets;
    }
  }

  /**
   Over every run the loop turns again only if somebody has filled the slot since the
   look-up, and it never turns more often than the slot has been filled.
   */
  lemma RetryMeansRival(states: seq<State>, steps: seq<Step>, n: nat, c: nat)
    requires IsRun(states, steps) && n < |steps| && steps[n] == Try(c) && !states[n + 1].callers[c].pc.Done?
    ensures var key := states[n].callers[c].key;
            var slot := (if key < 0 then key + 0x1_0000_0000 else key) % 32000 + 1;
            && (exists i, j :: 0 <= i <= j < n && LookedAt(states, steps, i, n, c, key)
                               && slot !in states[j].sets && slot in states[j + 1].sets)
            && states[n + 1].callers[c].retries <= Fills(states, n, slot)
  {
    assert Next(states[n], steps[n], states[n + 1]);
    RunKeepsInv(states, steps, n);
    assert CallerOk(states[n], c);
    InsertingLooked(states, steps, n, c);
    var key := states[n].callers[c].key;
    var i :| 0 <= i < n && LookedAt(states, steps, i, n, c, key);
    FilledBetween(states, i, n, HashSlot(key));
    BirthsAreFills(states, steps, n, HashSlot(key));
  }
}
