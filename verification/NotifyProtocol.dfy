/**
 Notification without taking the lock, interleaved with registration.

 A notifier publishes its event, then notifies; an observer registers, then re-checks what
 has been published.  Table and counter are updated by separate atomic accesses, and the
 notifier reads the counter without holding the lock.
 */
module NotifyProtocol {
  import opened Prelude
  import opened Subjects

  datatype RegPc = Locking | Counting | Rechecking | Settled | Removing | Left

  /** `seen`: the notifications whose event the last re-check saw. */
  datatype Registrant = Registrant(filter: Filter, pc: RegPc, seen: set<nat>)

  datatype NotePc = Publishing | Loading | Waiting | Subtracting(freed: nat) | Finished

  datatype Notifier = Notifier(event: Event, pc: NotePc, called: set<Observer>)

  datatype Holder = Inserter(o: Observer) | Remover(o: Observer) | Sweeper(n: nat)

  datatype State = State(
    observers: map<Observer, Filter>,
    count: int,
    lock: Option<Holder>,
    published: set<nat>,
    registrants: map<Observer, Registrant>,
    notifiers: map<nat, Notifier>,
    dead: set<Observer>)

  datatype Step =
    | Register(o: Observer, filter: Filter)
    | Insert(o: Observer)
    | Count(o: Observer)
    | Recheck(o: Observer)
    | Unregister(o: Observer)
    | Uncount(o: Observer)
    | Free(o: Observer)
    | Start(n: nat, event: Event)
    | Publish(n: nat)
    | Load(n: nat)
    | Sweep(n: nat)
    | Subtract(n: nat)

  predicate RegAt(s: State, o: Observer, pc: RegPc) {
    o in s.registrants && s.registrants[o].pc == pc
  }

  predicate NoteAt(s: State, n: nat, pc: NotePc) {
    n in s.notifiers && s.notifiers[n].pc == pc
  }

  predicate Enabled(s: State, step: Step) {
    match step
    case Register(o, _) => o !in s.registrants || RegAt(s, o, Settled) || RegAt(s, o, Left)
    case Insert(o) => RegAt(s, o, Locking) && s.lock.None?
    case Count(o) => RegAt(s, o, Counting)
    case Recheck(o) => RegAt(s, o, Rechecking)
    case Unregister(o) => RegAt(s, o, Settled) && s.lock.None?
    case Uncount(o) => RegAt(s, o, Removing)
    case Free(o) => true
    case Start(n, _) => n !in s.notifiers
    case Publish(n) => NoteAt(s, n, Publishing)
    case Load(n) => NoteAt(s, n, Loading)
    case Sweep(n) => NoteAt(s, n, Waiting) && s.lock.None?
    case Subtract(n) => n in s.notifiers && s.notifiers[n].pc.Subtracting?
  }

  function SetReg(s: State, o: Observer, pc: RegPc): State {
    if o in s.registrants then s.(registrants := s.registrants[o := s.registrants[o].(pc := pc)]) else s
  }

  function SetNote(s: State, n: nat, pc: NotePc): State {
    if n in s.notifiers then s.(notifiers := s.notifiers[n := s.notifiers[n].(pc := pc)]) else s
  }

  function DoInsert(s: State, o: Observer): State {
    if o !in s.registrants then s else
    var s1 := s.(observers := s.observers[o := s.registrants[o].filter]);
    if o in s.observers then SetReg(s1, o, Rechecking)
    else SetReg(s1, o, Counting).(lock := Some(Inserter(o)))
  }

  function DoUnregister(s: State, o: Observer): State {
    if o !in s.observers then SetReg(s, o, Left)
    else SetReg(s, o, Removing).(observers := s.observers - {o}, lock := Some(Remover(o)))
  }

  function Kept(s: State): map<Observer, Filter> {
    map o | o in s.observers && o !in s.dead :: s.observers[o]
  }

  /** The slow path under the lock. */
  function DoSweep(s: State, n: nat): State {
    if n !in s.notifiers then s else
    var note := s.notifiers[n];
    var called := set o | o in s.observers && o !in s.dead && note.event in s.observers[o];
    var freed := |s.observers.Keys - Kept(s).Keys|;
    s.(observers := Kept(s), lock := Some(Sweeper(n)),
       notifiers := s.notifiers[n := note.(pc := Subtracting(freed), called := called)])
  }

  function Apply(s: State, step: Step): State {
    match step
    case Register(o, filter) => s.(registrants := s.registrants[o := Registrant(filter, Locking, {})])
    case Insert(o) => DoInsert(s, o)
    case Count(o) => SetReg(s, o, Rechecking).(count := s.count + 1, lock := None)
    case Recheck(o) =>
      if o in s.registrants then
        s.(registrants := s.registrants[o := s.registrants[o].(pc := Settled, seen := s.published)])
      else s
    case Unregister(o) => DoUnregister(s, o)
    case Uncount(o) => SetReg(s, o, Left).(count := s.count - 1, lock := None)
    case Free(o) => s.(dead := s.dead + {o})
    case Start(n, event) => s.(notifiers := s.notifiers[n := Notifier(event, Publishing, {})])
    case Publish(n) => SetNote(s, n, Loading).(published := s.published + {n})
    case Load(n) => SetNote(s, n, if s.count == 0 then Finished else Waiting)
    case Sweep(n) => DoSweep(s, n)
    case Subtract(n) =>
      if n in s.notifiers && s.notifiers[n].pc.Subtracting? then
        SetNote(s, n, Finished).(count := s.count - s.notifiers[n].pc.freed, lock := None)
      else s
  }

  const EMPTY := State(map[], 0, None, {}, map[], map[], {})

  ghost predicate Next(s: State, step: Step, s': State) {
    Enabled(s, step) && s' == Apply(s, step)
  }

  ghost predicate IsRun(states: seq<State>, steps: seq<Step>) {
    && |states| == |steps| + 1
    && states[0] == EMPTY
    && forall i :: 0 <= i < |steps| ==> Next(states[i], steps[i], states[i + 1])
  }

  ghost predicate Reachable(s: State) {
    exists states, steps :: IsRun(states, steps) && states[|steps|] == s
  }

  // ---- The invariant ----

  /** By how much the counter is ahead of the table while the lock is held. */
  ghost function Ahead(s: State): int {
    match s.lock
    case None => 0
    case Some(Inserter(o)) => -1
    case Some(Remover(o)) => 1
    case Some(Sweeper(n)) =>
      if n in s.notifiers && s.notifiers[n].pc.Subtracting? then s.notifiers[n].pc.freed else 0
  }

  ghost predicate CountOk(s: State) {
    && s.count == |s.observers| + Ahead(s)
    && (match s.lock
        case None => true
        case Some(Inserter(o)) => RegAt(s, o, Counting)
        case Some(Remover(o)) => RegAt(s, o, Removing)
        case Some(Sweeper(n)) => n in s.notifiers && s.notifiers[n].pc.Subtracting?)
  }

  ghost predicate RegOk(s: State, o: Observer) {
    o in s.registrants ==>
      var r := s.registrants[o];
      && (r.pc.Counting? <==> s.lock == Some(Inserter(o)))
      && (r.pc.Removing? <==> s.lock == Some(Remover(o)))
      && (r.pc.Counting? ==> o in s.observers)
      && ((r.pc.Counting? || r.pc.Rechecking? || r.pc.Settled?) && o !in s.dead ==>
            o in s.observers && s.observers[o] == r.filter)
      && (r.pc.Removing? || r.pc.Left? ==> o !in s.observers)
      && r.seen <= s.published
  }

  /** Only who has registered is in the table, and only what somebody publishes is published. */
  ghost predicate Registered(s: State) {
    (forall o :: o in s.observers ==> o in s.registrants) && (forall n :: n in s.published ==> n in s.notifiers)
  }

  ghost predicate NoteOk(s: State, n: nat) {
    n in s.notifiers ==>
      var note := s.notifiers[n];
      && (note.pc.Subtracting? <==> s.lock == Some(Sweeper(n)))
      && (!note.pc.Publishing? <==> n in s.published)
  }

  /** A settled, living observer has been called with the event or has seen it. */
  ghost predicate ToldOk(s: State, o: Observer, n: nat) {
    RegAt(s, o, Settled) && o !in s.dead && n in s.notifiers
    && (s.notifiers[n].pc.Finished? || s.notifiers[n].pc.Subtracting?)
    && s.notifiers[n].event in s.registrants[o].filter
    ==> n in s.registrants[o].seen || o in s.notifiers[n].called
  }

  ghost predicate Inv(s: State) {
    && CountOk(s) && Registered(s)
    && (forall o {:trigger RegOk(s, o)} :: RegOk(s, o))
    && (forall n {:trigger NoteOk(s, n)} :: NoteOk(s, n))
    && (forall o, n {:trigger ToldOk(s, o, n)} :: ToldOk(s, o, n))
  }

  /** A settled, living observer is counted, whoever holds the lock. */
  lemma CountedIfSettled(s: State, o: Observer)
    requires Inv(s) && RegAt(s, o, Settled) && o !in s.dead
    ensures s.count >= 1
  {
    assert RegOk(s, o);
    CountOne(s.observers, o, {});
    if s.lock.Some? && s.lock.value.Inserter? {
      var x := s.lock.value.o;
      assert RegOk(s, x);
      CountOne(s.observers - {o}, x, {});
    }
  }

  lemma SweepCounts(s: State)
    ensures |Kept(s)| + |s.observers.Keys - Kept(s).Keys| == |s.observers|
  {
    assert s.observers.Keys == Kept(s).Keys + (s.observers.Keys - Kept(s).Keys);
  }

  // ---- Observers ----

  lemma RegisterKeeps(s: State, o: Observer, filter: Filter)
    requires Inv(s) && Enabled(s, Register(o, filter))
    ensures Inv(Apply(s, Register(o, filter)))
  {
    var s' := Apply(s, Register(o, filter));
    forall x ensures RegOk(s', x) { assert RegOk(s, x); }
    forall n ensures NoteOk(s', n) { assert NoteOk(s, n); }
    forall x, n ensures ToldOk(s', x, n) { assert ToldOk(s, x, n); }
  }

  lemma InsertCounts(s: State, o: Observer)
    requires Inv(s) && RegAt(s, o, Locking) && s.lock.None?
    ensures CountOk(DoInsert(s, o))
  {
    CountOne(s.observers, o, s.registrants[o].filter);
  }

  lemma InsertKeeps(s: State, o: Observer)
    requires Inv(s) && RegAt(s, o, Locking) && s.lock.None?
    ensures Inv(DoInsert(s, o))
  {
    var s' := DoInsert(s, o);
    InsertCounts(s, o);
    forall x ensures RegOk(s', x) { assert RegOk(s, x); }
    forall n ensures NoteOk(s', n) { assert NoteOk(s, n); }
    forall x, n ensures ToldOk(s', x, n) { assert ToldOk(s, x, n); }
  }

  lemma CountKeeps(s: State, o: Observer)
    requires Inv(s) && RegAt(s, o, Counting)
    ensures Inv(Apply(s, Count(o)))
  {
    var s' := Apply(s, Count(o));
    assert RegOk(s, o);
    forall x ensures RegOk(s', x) { assert RegOk(s, x); }
    forall n ensures NoteOk(s', n) { assert NoteOk(s, n); }
    forall x, n ensures ToldOk(s', x, n) { assert ToldOk(s, x, n); }
  }

  /** The re-check sees whatever a finished notification may have skipped. */
  lemma RecheckKeeps(s: State, o: Observer)
    requires Inv(s) && RegAt(s, o, Rechecking)
    ensures Inv(Apply(s, Recheck(o)))
  {
    var s' := Apply(s, Recheck(o));
    forall x ensures RegOk(s', x) { assert RegOk(s, x); }
    forall n ensures NoteOk(s', n) { assert NoteOk(s, n); }
    forall x, n ensures ToldOk(s', x, n) { assert ToldOk(s, x, n) && NoteOk(s, n); }
  }

  lemma UnregisterCounts(s: State, o: Observer)
    requires Inv(s) && RegAt(s, o, Settled) && s.lock.None?
    ensures CountOk(DoUnregister(s, o))
  {
    CountOne(s.observers, o, {});
  }

  lemma UnregisterKeepsTold(s: State, o: Observer, x: Observer, n: nat)
    requires Inv(s) && RegAt(s, o, Settled) && s.lock.None?
    ensures ToldOk(DoUnregister(s, o), x, n)
  {
    assert ToldOk(s, x, n);
  }

  lemma UnregisterKeepsReg(s: State, o: Observer, x: Observer)
    requires Inv(s) && RegAt(s, o, Settled) && s.lock.None?
    ensures RegOk(DoUnregister(s, o), x)
  {
    assert RegOk(s, x);
  }

  lemma UnregisterKeepsNote(s: State, o: Observer, n: nat)
    requires Inv(s) && RegAt(s, o, Settled) && s.lock.None?
    ensures NoteOk(DoUnregister(s, o), n)
  {
    assert NoteOk(s, n);
  }

  lemma UnregisterKeeps(s: State, o: Observer)
    requires Inv(s) && RegAt(s, o, Settled) && s.lock.None?
    ensures Inv(DoUnregister(s, o))
  {
    var s' := DoUnregister(s, o);
    UnregisterCounts(s, o);
    forall x ensures RegOk(s', x) { UnregisterKeepsReg(s, o, x); }
    forall n ensures NoteOk(s', n) { UnregisterKeepsNote(s, o, n); }
    forall x, n ensures ToldOk(s', x, n) { UnregisterKeepsTold(s, o, x, n); }
  }

  lemma UncountKeeps(s: State, o: Observer)
    requires Inv(s) && RegAt(s, o, Removing)
    ensures Inv(Apply(s, Uncount(o)))
  {
    var s' := Apply(s, Uncount(o));
    assert RegOk(s, o);
    forall x ensures RegOk(s', x) { assert RegOk(s, x); }
    forall n ensures NoteOk(s', n) { assert NoteOk(s, n); }
    forall x, n ensures ToldOk(s', x, n) { assert ToldOk(s, x, n); }
  }

  lemma FreeKeeps(s: State, o: Observer)
    requires Inv(s)
    ensures Inv(Apply(s, Free(o)))
  {
    var s' := Apply(s, Free(o));
    forall x ensures RegOk(s', x) { assert RegOk(s, x); }
    forall n ensures NoteOk(s', n) { assert NoteOk(s, n); }
    forall x, n ensures ToldOk(s', x, n) { assert ToldOk(s, x, n); }
  }

  // ---- Notifiers ----

  lemma StartKeeps(s: State, n: nat, event: Event)
    requires Inv(s) && n !in s.notifiers
    ensures Inv(Apply(s, Start(n, event)))
  {
    var s' := Apply(s, Start(n, event));
    forall x ensures RegOk(s', x) { assert RegOk(s, x); }
    forall m ensures NoteOk(s', m) { assert NoteOk(s, m); }
    forall x, m ensures ToldOk(s', x, m) { assert ToldOk(s, x, m); }
  }

  lemma PublishKeeps(s: State, n: nat)
    requires Inv(s) && NoteAt(s, n, Publishing)
    ensures Inv(Apply(s, Publish(n)))
  {
    var s' := Apply(s, Publish(n));
    assert NoteOk(s, n);
    forall x ensures RegOk(s', x) { assert RegOk(s, x); }
    forall m ensures NoteOk(s', m) { assert NoteOk(s, m); }
    forall x, m ensures ToldOk(s', x, m) { assert ToldOk(s, x, m); }
  }

  /** The fast path is taken only when no living observer has settled. */
  lemma LoadKeeps(s: State, n: nat)
    requires Inv(s) && NoteAt(s, n, Loading)
    ensures Inv(Apply(s, Load(n)))
  {
    var s' := Apply(s, Load(n));
    assert NoteOk(s, n);
    forall x ensures RegOk(s', x) { assert RegOk(s, x); }
    forall m ensures NoteOk(s', m) { assert NoteOk(s, m); }
    forall x, m ensures ToldOk(s', x, m) {
      assert ToldOk(s, x, m);
      if RegAt(s, x, Settled) && x !in s.dead { CountedIfSettled(s, x); }
    }
  }

  lemma SweepKeeps(s: State, n: nat)
    requires Inv(s) && NoteAt(s, n, Waiting) && s.lock.None?
    ensures Inv(DoSweep(s, n))
  {
    var s' := DoSweep(s, n);
    SweepCounts(s);
    assert NoteOk(s, n);
    forall x ensures RegOk(s', x) { assert RegOk(s, x); }
    forall m ensures NoteOk(s', m) { assert NoteOk(s, m); }
    forall x, m ensures ToldOk(s', x, m) { assert ToldOk(s, x, m) && RegOk(s, x); }
  }

  lemma SubtractKeeps(s: State, n: nat)
    requires Inv(s) && n in s.notifiers && s.notifiers[n].pc.Subtracting?
    ensures Inv(Apply(s, Subtract(n)))
  {
    var s' := Apply(s, Subtract(n));
    assert NoteOk(s, n);
    forall x ensures RegOk(s', x) { assert RegOk(s, x); }
    forall m ensures NoteOk(s', m) { assert NoteOk(s, m); }
    forall x, m ensures ToldOk(s', x, m) { assert ToldOk(s, x, m); }
  }

  lemma StepKeepsInv(s: State, step: Step, s': State)
    requires Inv(s) && Next(s, step, s')
    ensures Inv(s')
  {
    match step
    case Register(o, filter) => RegisterKeeps(s, o, filter);
    case Insert(o) => InsertKeeps(s, o);
    case Count(o) => CountKeeps(s, o);
    case Recheck(o) => RecheckKeeps(s, o);
    case Unregister(o) => UnregisterKeeps(s, o);
    case Uncount(o) => UncountKeeps(s, o);
    case Free(o) => FreeKeeps(s, o);
    case Start(n, event) => StartKeeps(s, n, event);
    case Publish(n) => PublishKeeps(s, n);
    case Load(n) => LoadKeeps(s, n);
    case Sweep(n) => SweepKeeps(s, n);
    case Subtract(n) => SubtractKeeps(s, n);
  }

  lemma StepsKeepInv()
    ensures forall s, step, s' {:trigger Next(s, step, s')} :: Inv(s) && Next(s, step, s') ==> Inv(s')
  {
    forall s, step, s' | Inv(s) && Next(s, step, s') ensures Inv(s') {
      StepKeepsInv(s, step, s');
    }
  }

  lemma EmptyInv()
    ensures Inv(EMPTY)
  {
  }

  lemma {:induction false} RunKeepsInv(states: seq<State>, steps: seq<Step>, i: nat)
    requires IsRun(states, steps) && i < |states|
    ensures Inv(states[i])
  {
    if i == 0 {
      EmptyInv();
    } else {
      RunKeepsInv(states, steps, i - 1);
      assert Next(states[i - 1], steps[i - 1], states[i]);
      StepsKeepInv();
    }
  }

  // ---- The theorems ----

  /**
   In every reachable state: once a notification is over and an observer has registered and
   re-checked, a living observer whose filter accepts the event was called or saw the event.
   */
  lemma NoLostEvent(s: State, o: Observer, n: nat)
    requires Reachable(s) && RegAt(s, o, Settled) && o !in s.dead && NoteAt(s, n, Finished)
    requires s.notifiers[n].event in s.registrants[o].filter
    ensures n in s.registrants[o].seen || o in s.notifiers[n].called
  {
    var states, steps :| IsRun(states, steps) && states[|steps|] == s;
    RunKeepsInv(states, steps, |steps|);
    assert ToldOk(s, o, n);
  }

  /** Every registrant of `s'` was one in `s`, with the same filter. */
  ghost predicate SameFilter(s: State, s': State, o: Observer) {
    o in s'.registrants ==> o in s.registrants && s.registrants[o].filter == s'.registrants[o].filter
  }

  lemma SetRegKeepsFilter(s: State, o: Observer, pc: RegPc, x: Observer)
    ensures SameFilter(s, SetReg(s, o, pc), x)
  {
  }

  lemma InsertKeepsFilter(s: State, o: Observer, x: Observer)
    ensures SameFilter(s, DoInsert(s, o), x) && SameFilter(s, DoUnregister(s, o), x)
  {
  }

  lemma StepKeepsFilter(s: State, step: Step, o: Observer)
    requires Enabled(s, step) && !(step.Register? && step.o == o)
    ensures SameFilter(s, Apply(s, step), o)
  {
    match step
    case Insert(x) => InsertKeepsFilter(s, x, o);
    case Unregister(x) => InsertKeepsFilter(s, x, o);
    case Count(x) => SetRegKeepsFilter(s, x, Rechecking, o);
    case Uncount(x) => SetRegKeepsFilter(s, x, Left, o);
    case Sweep(n) => SweepKeepsTerms(s, n);
    case _ =>
  }

  lemma SweepKeepsTerms(s: State, n: nat)
    requires n in s.notifiers
    ensures var s' := DoSweep(s, n);
            && s'.registrants == s.registrants && s'.notifiers.Keys == s.notifiers.Keys
            && forall m :: m in s.notifiers ==> s'.notifiers[m].event == s.notifiers[m].event
  {
  }

  lemma StepKeepsEvent(s: State, step: Step, n: nat)
    requires Enabled(s, step) && n in Apply(s, step).notifiers
    ensures || step == Start(n, Apply(s, step).notifiers[n].event)
            || (n in s.notifiers && s.notifiers[n].event == Apply(s, step).notifiers[n].event)
  {
    if step.Sweep? { SweepKeepsTerms(s, step.n); }
  }

  /** Step `k` is the last registration of `o` before `i`, with this filter. */
  ghost predicate RegisteredAt(steps: seq<Step>, k: nat, i: nat, o: Observer, filter: Filter) {
    k < i <= |steps| && steps[k] == Register(o, filter)
    && forall j :: k < j < i ==> !(steps[j].Register? && steps[j].o == o)
  }

  /** A registrant has the filter it last registered with. */
  lemma {:induction false} FilterWasGiven(states: seq<State>, steps: seq<Step>, i: nat, o: Observer)
    requires IsRun(states, steps) && i <= |steps| && o in states[i].registrants
    ensures exists k :: RegisteredAt(steps, k, i, o, states[i].registrants[o].filter)
  {
    if i > 0 {
      var filter := states[i].registrants[o].filter;
      assert Next(states[i - 1], steps[i - 1], states[i]);
      if steps[i - 1].Register? && steps[i - 1].o == o {
        assert RegisteredAt(steps, i - 1, i, o, filter);
      } else {
        StepKeepsFilter(states[i - 1], steps[i - 1], o);
        FilterWasGiven(states, steps, i - 1, o);
        var k :| RegisteredAt(steps, k, i - 1, o, filter);
        assert RegisteredAt(steps, k, i, o, filter);
      }
    }
  }

  /** A notifier has the event it started with. */
  lemma {:induction false} EventWasGiven(states: seq<State>, steps: seq<Step>, i: nat, n: nat)
    requires IsRun(states, steps) && i <= |steps| && n in states[i].notifiers
    ensures exists k :: 0 <= k < i && steps[k] == Start(n, states[i].notifiers[n].event)
  {
    if i > 0 {
      assert Next(states[i - 1], steps[i - 1], states[i]);
      StepKeepsEvent(states[i - 1], steps[i - 1], n);
      if steps[i - 1] != Start(n, states[i].notifiers[n].event) { EventWasGiven(states, steps, i - 1, n); }
    }
  }

  /** What an observer saw when it re-checked had been published. */
  lemma SeenWasPublished(s: State, o: Observer, n: nat)
    requires Reachable(s) && o in s.registrants && n in s.registrants[o].seen
    ensures n in s.notifiers && !s.notifiers[n].pc.Publishing?
  {
    var states, steps :| IsRun(states, steps) && states[|steps|] == s;
    RunKeepsInv(states, steps, |steps|);
    assert RegOk(s, o) && NoteOk(s, n);
  }

  /**
   A notification calls exactly the living observers in the table whose filter accepts its
   event; who has unregistered is not among them, and the dead leave the table.
   */
  lemma SweepCallsExactly(s: State, n: nat)
    requires Reachable(s) && Enabled(s, Sweep(n))
    ensures var s' := Apply(s, Sweep(n));
            && n in s'.notifiers
            && (forall o :: o in s'.notifiers[n].called <==>
                  o in s.observers && o !in s.dead && s.notifiers[n].event in s.observers[o])
            && (forall o :: o in s'.notifiers[n].called ==>
                  o in s.registrants && !RegAt(s, o, Removing) && !RegAt(s, o, Left))
            && (forall o :: o in s'.observers <==> o in s.observers && o !in s.dead)
            && (forall o :: o in s'.observers ==> s'.observers[o] == s.observers[o])
  {
    var states, steps :| IsRun(states, steps) && states[|steps|] == s;
    RunKeepsInv(states, steps, |steps|);
    forall o | o in s.observers ensures o in s.registrants && !RegAt(s, o, Removing) && !RegAt(s, o, Left) {
      assert RegOk(s, o);
    }
  }

  /** The counter is the size of the table whenever the lock is free, and it never underflows. */
  lemma CounterExact(s: State)
    requires Reachable(s)
    ensures s.lock.None? ==> s.count == |s.observers|
    ensures s.count >= 0
  {
    var states, steps :| IsRun(states, steps) && states[|steps|] == s;
    RunKeepsInv(states, steps, |steps|);
    if s.lock.Some? && s.lock.value.Inserter? {
      assert RegOk(s, s.lock.value.o);
      CountOne(s.observers, s.lock.value.o, {});
    }
  }
}
