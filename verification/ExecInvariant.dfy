/**
 What every interleaving of thread creations, thread exits, signals and one exec keeps.
 */
module ExecInvariant {
  import opened Prelude
  import opened TaskSets
  import opened ExecProtocol

  // ---- The invariant ----

  function Main(s: State): TaskId {
    if |s.tasks.tasks| > 0 then s.tasks.tasks[0] else 0
  }

  /** A thread is live in the task set exactly while its program counter says so. */
  ghost predicate LiveOk(s: State, t: TaskId) {
    && (t in Live(s.tasks) ==> t in s.threads)
    && (t in s.threads ==> (t in Live(s.tasks) <==> IsLive(s.threads[t].pc)))
  }

  /** A thread keeps the TID it was born with until it takes over the PID. */
  ghost predicate TidOk(s: State, t: TaskId) {
    t in s.threads ==>
      var th := s.threads[t];
      && t < s.nextTid
      && (th.tid == t || th.tid == s.pid)
      && (IsLive(th.pc) ==> (th.tid == s.pid <==> t == Main(s)))
      && (th.pc.Removing? ==> th.tid != s.pid)
  }

  /** What the PID table says about a thread. */
  ghost predicate EntryOk(s: State, t: TaskId) {
    t in s.threads ==>
      var th := s.threads[t];
      && (th.pc.Born? ==> t !in s.table && t != s.pid)
      && ((IsLive(th.pc) && !th.pc.Born? && !th.pc.Relinking?) || th.pc.Removing? ==>
            th.tid in s.table && s.table[th.tid] == t)
      && (th.pc.Relinking? ==>
            t in s.table && s.table[t] == t && t != s.pid && th.tid == s.pid && s.tableLock == Some(t))
      && (th.tid == s.pid && t != s.pid && !th.pc.Relinking? ==> t !in s.table)
      && (th.pc.Executed? ==> th.tid == s.pid)
  }

  ghost predicate TableOk(s: State) {
    && s.pid in s.table && s.pid < s.nextTid
    && (s.tableLock.None? ==> s.table[s.pid] == Main(s))
    && (s.tableLock.Some? ==> s.tableLock.value in s.threads && s.threads[s.tableLock.value].pc.Relinking?)
    && (forall x :: x in s.table ==> x < s.nextTid)
  }

  ghost predicate CloneOk(s: State, t: TaskId) {
    t in s.threads && s.threads[t].pc.Cloning? ==>
      var c := s.threads[t].pc.child;
      c in s.threads && s.threads[c].pc.Born? && s.threads[c].tid == c
  }

  ghost predicate OneCloner(s: State, t: TaskId, u: TaskId) {
    t in s.threads && u in s.threads && t != u && s.threads[t].pc.Cloning? ==>
      s.threads[u].pc != s.threads[t].pc
  }

  ghost predicate OneExec(s: State, t: TaskId, u: TaskId) {
    t in s.threads && u in s.threads && InExec(s.threads[t].pc) && InExec(s.threads[u].pc) ==> t == u
  }

  /** What the exec thread holds, has registered and may rely on in each phase. */
  ghost predicate PhaseOk(s: State, t: TaskId) {
    && (s.lock == Some(t) ==> t in s.threads)
    && (s.tasks.execveWaker == Some(t) ==> t in s.threads)
    && (t in s.threads ==>
          var pc := s.threads[t].pc;
          && (InExec(pc) ==> s.tasks.inExecve)
          && (s.lock == Some(t) <==> pc.Checking? || pc.Arming?)
          && (s.threads[t].signalled <==> pc.Arming? || pc.Sleeping?)
          && (s.tasks.execveWaker == Some(t) <==> pc.Sleeping? || pc.Waking?)
          && (pc.Arming? ==> Live(s.tasks) != {t})
          && (pc.Promoting? || pc.Relinking? || pc.Executed? ==> Live(s.tasks) == {t}))
  }

  /** No wake-up of a sleeping exec thread is lost. */
  ghost predicate SleepOk(s: State, t: TaskId) {
    t in s.threads && s.threads[t].pc.Sleeping? ==>
      && (Live(s.tasks) == {t} ==> s.threads[t].woken)
      && (s.threads[t].killed ==> s.threads[t].woken || t in s.ringing)
  }

  /** `t` has been told that it was the last live task, and has yet to exit the process. */
  predicate IsLastOne(s: State, t: TaskId) {
    t in s.threads && HasLast(s.threads[t].pc)
  }

  /** The process exits when, and only when, the last live task has left, and only once. */
  ghost predicate ExitOk(s: State) {
    && s.exits <= 1
    && (s.exits == 1 ==> Live(s.tasks) == {})
    && (Live(s.tasks) == {} ==> s.exits == 1 || exists t :: IsLastOne(s, t))
  }

  ghost predicate LastOk(s: State, t: TaskId) {
    IsLastOne(s, t) ==> Live(s.tasks) == {} && s.exits == 0
  }

  ghost predicate OneLast(s: State, t: TaskId, u: TaskId) {
    IsLastOne(s, t) && IsLastOne(s, u) ==> t == u
  }

  ghost predicate SetOk(s: State) {
    && |s.tasks.tasks| > 0 && Distinct(s.tasks.tasks)
    && (forall t :: t in s.tasks.tasks ==> t < s.nextTid && t in s.threads)
    && s.threads[Main(s)].tid == s.pid
  }

  ghost predicate PlaceOk(s: State, t: TaskId) {
    LiveOk(s, t) && TidOk(s, t) && EntryOk(s, t) && CloneOk(s, t)
  }

  ghost predicate RoleOk(s: State, t: TaskId) {
    PhaseOk(s, t) && SleepOk(s, t) && LastOk(s, t)
  }

  ghost predicate PairOk(s: State, t: TaskId, u: TaskId) {
    OneCloner(s, t, u) && OneExec(s, t, u) && OneLast(s, t, u)
  }

  ghost predicate Inv(s: State) {
    && !s.panicked && SetOk(s) && TableOk(s) && ExitOk(s)
    && (forall t {:trigger PlaceOk(s, t)} :: PlaceOk(s, t))
    && (forall t {:trigger RoleOk(s, t)} :: RoleOk(s, t))
    && (forall t, u {:trigger PairOk(s, t, u)} :: PairOk(s, t, u))
  }

  // ---- Steps that change one thread and leave the task vector alone ----

  /** What a step of `t` leaves as it was, seen from another thread `x`. */
  ghost predicate SameFor(s: State, s': State, x: TaskId) {
    && (s'.lock == Some(x) <==> s.lock == Some(x))
    && (s'.tasks.execveWaker == Some(x) <==> s.tasks.execveWaker == Some(x))
    && (x in s.threads && InExec(s.threads[x].pc) ==> s'.tasks.inExecve == s.tasks.inExecve)
    && (x in s.ringing ==> x in s'.ringing)
  }

  ghost predicate SameTasks(s: State, s': State) {
    && s'.pid == s.pid && s'.nextTid == s.nextTid
    && s'.tasks.tasks == s.tasks.tasks && s'.tasks.hasExitedMain == s.tasks.hasExitedMain
  }

  /** `t` has become `th`; table and table lock are as they were. */
  ghost predicate Local(s: State, s': State, t: TaskId, th: Thread) {
    && SameTasks(s, s') && t in s.threads && s'.threads == s.threads[t := th]
    && s'.table == s.table && s'.tableLock == s.tableLock && !s'.panicked
    && (forall x {:trigger SameFor(s, s', x)} :: x != t ==> SameFor(s, s', x))
    && th.tid == s.threads[t].tid
  }

  /** Phases between which a thread can pass without any other thread noticing. */
  predicate Alike(pc: Pc, pc': Pc) {
    pc' == pc
    || (&& IsLive(pc) && IsLive(pc') && !pc.Born? && !pc'.Born? && !pc.Relinking? && !pc'.Relinking?
        && !pc'.Cloning? && (InExec(pc') ==> InExec(pc)))
  }

  lemma LocalKeepsOthers(s: State, s': State, t: TaskId, th: Thread, x: TaskId)
    requires Inv(s) && Local(s, s', t, th) && s'.exits == s.exits && x != t
    requires Alike(s.threads[t].pc, th.pc)
    ensures PlaceOk(s', x) && RoleOk(s', x)
  {
    assert SameFor(s, s', x);
    assert PlaceOk(s, x) && RoleOk(s, x) && PlaceOk(s, t);
  }

  lemma LocalKeeps(s: State, s': State, t: TaskId, th: Thread)
    requires Inv(s) && Local(s, s', t, th) && s'.exits == s.exits
    requires Alike(s.threads[t].pc, th.pc) && RoleOk(s', t) && (th.pc.Executed? ==> th.tid == s.pid)
    ensures Inv(s')
  {
    assert PlaceOk(s, t) && RoleOk(s, t);
    forall x ensures PlaceOk(s', x) { if x != t { LocalKeepsOthers(s, s', t, th, x); } }
    forall x ensures RoleOk(s', x) { if x != t { LocalKeepsOthers(s, s', t, th, x); } }
    forall x, y ensures PairOk(s', x, y) { assert PairOk(s, x, y); }
    forall x ensures IsLastOne(s, x) ==> IsLastOne(s', x) { assert RoleOk(s, x); }
  }

  // ---- The exec thread's wait loop ----

  lemma LockKeeps(s: State, t: TaskId)
    requires Inv(s) && t in s.threads && (s.threads[t].pc.Entering? || s.threads[t].pc.Waking?) && s.lock.None?
    ensures Inv(DoLock(s, t))
  {
    assert PlaceOk(s, t) && RoleOk(s, t);
    LocalKeeps(s, DoLock(s, t), t, s.threads[t].(pc := Checking));
  }

  /** On the exec thread the loop condition says exactly that it is the only live task. */
  lemma OthersGoneIff(s: State, t: TaskId)
    requires Inv(s) && t in s.threads && IsLive(s.threads[t].pc)
    ensures OthersGone(s, t) <==> Live(s.tasks) == {t}
  {
    assert PlaceOk(s, t);
    AloneIff(s.tasks, t);
  }

  lemma CheckKeeps(s: State, t: TaskId)
    requires Inv(s) && t in s.threads && s.threads[t].pc.Checking?
    ensures Inv(DoCheck(s, t))
  {
    assert PlaceOk(s, t) && RoleOk(s, t);
    OthersGoneIff(s, t);
    if OthersGone(s, t) {
      LocalKeeps(s, DoCheck(s, t), t, s.threads[t].(pc := Promoting));
    } else {
      LocalKeeps(s, DoCheck(s, t), t, s.threads[t].(pc := Arming, signalled := true, woken := false));
    }
  }

  /** Nobody else can have left a waker behind. */
  lemma NoWaker(s: State, t: TaskId)
    requires Inv(s) && t in s.threads && s.threads[t].pc.Arming?
    ensures s.tasks.execveWaker.None?
  {
    forall e: TaskId ensures s.tasks.execveWaker != Some(e) {
      assert RoleOk(s, e) && RoleOk(s, t) && PairOk(s, t, e);
    }
  }

  lemma ArmKeeps(s: State, t: TaskId)
    requires Inv(s) && t in s.threads && s.threads[t].pc.Arming?
    ensures Inv(DoArm(s, t))
  {
    assert PlaceOk(s, t) && RoleOk(s, t);
    NoWaker(s, t);
    if s.threads[t].killed {
      LocalKeeps(s, DoArm(s, t), t, s.threads[t].(pc := Failed, signalled := false));
    } else {
      LocalKeeps(s, DoArm(s, t), t, s.threads[t].(pc := Sleeping));
    }
  }

  lemma WakeUpKeeps(s: State, t: TaskId)
    requires Inv(s) && t in s.threads && s.threads[t].pc.Sleeping?
    ensures Inv(DoWakeUp(s, t))
  {
    assert PlaceOk(s, t) && RoleOk(s, t);
    LocalKeeps(s, DoWakeUp(s, t), t, s.threads[t].(pc := Waking, signalled := false));
  }

  lemma FailKeeps(s: State, t: TaskId)
    requires Inv(s) && t in s.threads && s.threads[t].pc.Executed?
    ensures Inv(Go(s, t, Failed))
  {
    assert PlaceOk(s, t) && RoleOk(s, t);
    LocalKeeps(s, Go(s, t, Failed), t, s.threads[t].(pc := Failed));
  }

  lemma FinishKeeps(s: State, t: TaskId)
    requires Inv(s) && t in s.threads && (s.threads[t].pc.Executed? || s.threads[t].pc.Failed?)
    ensures Inv(DoFinish(s, t))
  {
    var s' := DoFinish(s, t);
    assert PlaceOk(s, t) && RoleOk(s, t);
    forall x ensures x != t ==> SameFor(s, s', x) { assert PairOk(s, t, x); }
    LocalKeeps(s, s', t, s'.threads[t]);
  }

  // ---- Signals ----

  lemma KillKeeps(s: State, t: TaskId)
    requires Inv(s) && t in s.threads
    ensures Inv(DoKill(s, t))
  {
    assert PlaceOk(s, t) && RoleOk(s, t);
    LocalKeeps(s, DoKill(s, t), t, s.threads[t].(killed := true));
  }

  lemma RingKeeps(s: State, t: TaskId)
    requires Inv(s) && t in s.threads
    ensures Inv(DoRing(s, t))
  {
    assert PlaceOk(s, t) && RoleOk(s, t);
    var th := s.threads[t];
    LocalKeeps(s, DoRing(s, t), t, th.(woken := th.woken || th.signalled));
  }

  lemma SignalKeeps(s: State, t: TaskId)
    requires Inv(s) && t in s.threads
    ensures Inv(s.(ringing := s.ringing + multiset{t}))
  {
    assert PlaceOk(s, t) && RoleOk(s, t);
    assert s.threads[t := s.threads[t]] == s.threads;
    LocalKeeps(s, s.(ringing := s.ringing + multiset{t}), t, s.threads[t]);
  }

  lemma KillOthersKeeps(s: State, t: TaskId)
    requires Inv(s) && t in s.threads && s.threads[t].pc.Running?
    ensures Inv(KillOthers(s, t))
  {
    var s' := KillOthers(s, t);
    forall x ensures PlaceOk(s', x) { assert PlaceOk(s, x); }
    forall x ensures RoleOk(s', x) {
      assert RoleOk(s, x);
      if x in s.tasks.tasks && x != t { assert x in multiset(s.tasks.tasks); }
    }
    forall x, y ensures PairOk(s', x, y) { assert PairOk(s, x, y); }
    forall x ensures IsLastOne(s, x) ==> IsLastOne(s', x) {}
  }

  lemma EnterKeeps(s: State, t: TaskId, s': State)
    requires Inv(s) && t in s.threads && s.threads[t].pc.Running? && !s.tasks.inExecve
    requires s' == Go(s, t, Entering).(tasks := s.tasks.(inExecve := true))
    ensures Inv(s')
  {
    assert PlaceOk(s, t) && RoleOk(s, t);
    forall x ensures PlaceOk(s', x) { assert PlaceOk(s, x); }
    forall x ensures RoleOk(s', x) { assert RoleOk(s, x); }
    forall x, y ensures PairOk(s', x, y) { assert PairOk(s, x, y) && RoleOk(s, x) && RoleOk(s, y); }
    forall x ensures IsLastOne(s, x) ==> IsLastOne(s', x) {}
  }

  lemma ExecStartKeeps(s: State, t: TaskId)
    requires Inv(s) && t in s.threads && s.threads[t].pc.Running?
    ensures Inv(DoExecStart(s, t))
  {
    if !Refuses(s.tasks) {
      KillOthersKeeps(s, t);
      EnterKeeps(KillOthers(s, t), t, DoExecStart(s, t));
    }
  }

  // ---- Promotion ----

  /** All four assertions of `make_current_main_thread` hold. */
  lemma PromotionIsSafe(s: State, t: TaskId)
    requires Inv(s) && t in s.threads && s.threads[t].pc.Promoting? && s.threads[t].tid != s.pid
    ensures s.tasks.hasExitedMain && s.tasks.inExecve && |s.tasks.tasks| == 2 && s.tasks.tasks[1] == t
  {
    assert PlaceOk(s, t) && RoleOk(s, t);
    AloneIff(s.tasks, t);
  }

  lemma PromoteKeepsPlaces(s: State, t: TaskId, x: TaskId)
    requires Inv(s) && t in s.threads && s.threads[t].pc.Promoting? && s.threads[t].tid != s.pid && s.tableLock.None?
    ensures PlaceOk(DoPromote(s, t), x)
  {
    PromotionIsSafe(s, t);
    SwappedAlone(s.tasks, t);
    assert PlaceOk(s, t) && RoleOk(s, t) && PlaceOk(s, x) && PlaceOk(s, Main(s));
  }

  lemma PromoteKeepsRoles(s: State, t: TaskId, x: TaskId)
    requires Inv(s) && t in s.threads && s.threads[t].pc.Promoting? && s.threads[t].tid != s.pid
    ensures RoleOk(DoPromote(s, t), x)
  {
    PromotionIsSafe(s, t);
    SwappedAlone(s.tasks, t);
    assert RoleOk(s, t) && RoleOk(s, x);
  }

  lemma PromoteKeeps(s: State, t: TaskId)
    requires Inv(s) && t in s.threads && s.threads[t].pc.Promoting? && s.tableLock.None?
    ensures Inv(DoPromote(s, t))
  {
    var s' := DoPromote(s, t);
    assert PlaceOk(s, t) && RoleOk(s, t);
    if s.threads[t].tid == s.pid {
      LocalKeeps(s, s', t, s.threads[t].(pc := Executed));
    } else {
      PromotionIsSafe(s, t);
      SwappedAlone(s.tasks, t);
      forall x ensures PlaceOk(s', x) { PromoteKeepsPlaces(s, t, x); }
      forall x ensures RoleOk(s', x) { PromoteKeepsRoles(s, t, x); }
      forall x, y ensures PairOk(s', x, y) { assert PairOk(s, x, y); }
    }
  }

  lemma RelinkKeeps(s: State, t: TaskId)
    requires Inv(s) && t in s.threads && s.threads[t].pc.Relinking?
    ensures Inv(DoRelink(s, t))
  {
    var s' := DoRelink(s, t);
    assert PlaceOk(s, t) && RoleOk(s, t);
    forall x ensures PlaceOk(s', x) { assert PlaceOk(s, x); }
    forall x ensures RoleOk(s', x) { assert RoleOk(s, x); }
    forall x, y ensures PairOk(s', x, y) { assert PairOk(s, x, y); }
  }

  // ---- clone ----

  lemma CloneKeepsPlaces(s: State, t: TaskId, child: TaskId, x: TaskId)
    requires Inv(s) && t in s.threads && s.threads[t].pc.Running? && s.nextTid <= child
    ensures PlaceOk(DoClone(s, t, child), x)
  {
    assert PlaceOk(s, t) && PlaceOk(s, child) && PlaceOk(s, x);
    InsertedLive(s.tasks, child);
  }

  lemma CloneKeepsRoles(s: State, t: TaskId, child: TaskId, x: TaskId)
    requires Inv(s) && t in s.threads && s.threads[t].pc.Running? && s.nextTid <= child
    ensures RoleOk(DoClone(s, t, child), x)
  {
    assert RoleOk(s, t) && RoleOk(s, child) && RoleOk(s, x) && PlaceOk(s, t) && PlaceOk(s, child);
    InsertedLive(s.tasks, child);
  }

  lemma CloneKeepsPair(s: State, t: TaskId, child: TaskId, x: TaskId, y: TaskId)
    requires Inv(s) && t in s.threads && s.threads[t].pc.Running? && s.nextTid <= child
    ensures PairOk(DoClone(s, t, child), x, y)
  {
    assert PairOk(s, x, y);
    if !Refuses(s.tasks) {
      assert child !in s.threads by { assert PlaceOk(s, child); }
      assert CloneOk(s, x) by { assert PlaceOk(s, x); }
      assert CloneOk(s, y) by { assert PlaceOk(s, y); }
    }
  }

  lemma CloneKeeps(s: State, t: TaskId, child: TaskId)
    requires Inv(s) && t in s.threads && s.threads[t].pc.Running? && s.nextTid <= child
    ensures Inv(DoClone(s, t, child))
  {
    var s' := DoClone(s, t, child);
    assert PlaceOk(s, t) && PlaceOk(s, child);
    InsertedLive(s.tasks, child);
    forall x ensures PlaceOk(s', x) { CloneKeepsPlaces(s, t, child, x); }
    forall x ensures RoleOk(s', x) { CloneKeepsRoles(s, t, child, x); }
    forall x, y ensures PairOk(s', x, y) { CloneKeepsPair(s, t, child, x, y); }
  }

  lemma PublishKeepsPlaces(s: State, t: TaskId, x: TaskId)
    requires Inv(s) && t in s.threads && s.threads[t].pc.Cloning? && s.tableLock.None?
    ensures PlaceOk(DoPublish(s, t), x)
  {
    assert PlaceOk(s, t) && PlaceOk(s, s.threads[t].pc.child) && PlaceOk(s, x) && PairOk(s, t, x);
  }

  lemma PublishKeepsRoles(s: State, t: TaskId, x: TaskId)
    requires Inv(s) && t in s.threads && s.threads[t].pc.Cloning? && s.tableLock.None?
    ensures RoleOk(DoPublish(s, t), x)
  {
    assert PlaceOk(s, t) && PlaceOk(s, s.threads[t].pc.child) && RoleOk(s, s.threads[t].pc.child);
    assert RoleOk(s, t) && RoleOk(s, x);
  }

  lemma PublishKeeps(s: State, t: TaskId)
    requires Inv(s) && t in s.threads && s.threads[t].pc.Cloning? && s.tableLock.None?
    ensures Inv(DoPublish(s, t))
  {
    var s' := DoPublish(s, t);
    assert PlaceOk(s, t) && PlaceOk(s, s.threads[t].pc.child);
    forall x ensures PlaceOk(s', x) { PublishKeepsPlaces(s, t, x); }
    forall x ensures RoleOk(s', x) { PublishKeepsRoles(s, t, x); }
    forall x, y ensures PairOk(s', x, y) { assert PairOk(s, x, y); }
  }

  // ---- exit ----

  /** Waking the exec thread disturbs nothing. */
  lemma WakeExecKeeps(s: State)
    requires Inv(s)
    ensures Inv(WakeExec(s))
  {
    match s.tasks.execveWaker
    case None =>
    case Some(e) =>
      assert PlaceOk(s, e) && RoleOk(s, e);
      LocalKeeps(s, WakeExec(s), e, s.threads[e].(woken := true));
  }

  /** `remove_exited` after it has woken the exec thread. */
  function Dropped(s: State, t: TaskId): State {
    var tasks' := Removed(s.tasks, t);
    var last := IsLast(tasks');
    Go(s.(tasks := tasks'), t, if ThreadAt(s, t).tid != s.pid then Removing(last) else Leaving(last))
  }

  ghost predicate MayDrop(s: State, t: TaskId) {
    && Inv(s) && s.lock.None? && t in s.threads && s.threads[t].pc.Running? && CanRemove(s.tasks, t)
    && forall e :: s.tasks.execveWaker == Some(e) && e in s.threads ==> s.threads[e].woken
  }

  lemma DropKeepsPlaces(s: State, t: TaskId, x: TaskId)
    requires MayDrop(s, t)
    ensures PlaceOk(Dropped(s, t), x)
  {
    assert PlaceOk(s, t) && PlaceOk(s, x);
    RemovedLive(s.tasks, t);
  }

  lemma DropKeepsRoles(s: State, t: TaskId, x: TaskId)
    requires MayDrop(s, t)
    ensures RoleOk(Dropped(s, t), x)
  {
    assert RoleOk(s, t) && RoleOk(s, x) && PlaceOk(s, t) && PlaceOk(s, x);
    RemovedLive(s.tasks, t);
    LastIffNoneLive(Removed(s.tasks, t));
  }

  lemma DropKeepsRest(s: State, t: TaskId)
    requires MayDrop(s, t)
    ensures var s' := Dropped(s, t); !s'.panicked && SetOk(s') && TableOk(s') && ExitOk(s')
  {
    assert PlaceOk(s, t) && RoleOk(s, t);
    RemovedLive(s.tasks, t);
    LastIffNoneLive(Removed(s.tasks, t));
    assert Live(Dropped(s, t).tasks) == {} ==> IsLastOne(Dropped(s, t), t);
  }

  lemma DropKeeps(s: State, t: TaskId)
    requires MayDrop(s, t)
    ensures Inv(Dropped(s, t))
  {
    var s' := Dropped(s, t);
    assert PlaceOk(s, t);
    DropKeepsRest(s, t);
    forall x ensures PlaceOk(s', x) { DropKeepsPlaces(s, t, x); }
    forall x ensures RoleOk(s', x) { DropKeepsRoles(s, t, x); }
    forall x, y ensures PairOk(s', x, y) { assert PairOk(s, x, y) && RoleOk(s, x) && RoleOk(s, y); }
  }

  lemma LiveCanBeRemoved(s: State, t: TaskId)
    requires Inv(s) && t in s.threads && IsLive(s.threads[t].pc)
    ensures CanRemove(s.tasks, t)
  {
    assert PlaceOk(s, t);
    LiveElements(s.tasks, t);
  }

  lemma RemoveKeeps(s: State, t: TaskId)
    requires Inv(s) && s.lock.None? && t in s.threads && s.threads[t].pc.Running?
    ensures Inv(DoRemove(s, t))
  {
    LiveCanBeRemoved(s, t);
    WakeExecKeeps(s);
    assert RoleOk(s, t);
    forall e ensures s.tasks.execveWaker == Some(e) && e in s.threads ==> WakeExec(s).threads[e].woken {}
    DropKeeps(WakeExec(s), t);
  }

  lemma GroupKeeps(s: State)
    requires Inv(s)
    ensures Inv(s.(tasks := s.tasks.(hasExitedGroup := true)))
  {
    var s' := s.(tasks := s.tasks.(hasExitedGroup := true));
    forall x ensures PlaceOk(s', x) { assert PlaceOk(s, x); }
    forall x ensures RoleOk(s', x) { assert RoleOk(s, x); }
    forall x, y ensures PairOk(s', x, y) { assert PairOk(s, x, y); }
    forall x ensures IsLastOne(s, x) ==> IsLastOne(s', x) {}
  }

  lemma ExitKeeps(s: State, t: TaskId, group: bool)
    requires Inv(s) && s.lock.None? && t in s.threads && s.threads[t].pc.Running?
    ensures Inv(DoExit(s, t, group))
  {
    if group && !s.tasks.hasExitedGroup && !s.tasks.inExecve {
      KillOthersKeeps(s, t);
      GroupKeeps(KillOthers(s, t));
      RemoveKeeps(KillOthers(s, t).(tasks := s.tasks.(hasExitedGroup := true)), t);
    } else {
      RemoveKeeps(s, t);
    }
  }

  lemma RemoveTidKeeps(s: State, t: TaskId)
    requires Inv(s) && t in s.threads && s.threads[t].pc.Removing? && s.tableLock.None?
    ensures Inv(DoRemoveTid(s, t))
  {
    var s' := DoRemoveTid(s, t);
    assert PlaceOk(s, t) && RoleOk(s, t);
    forall x ensures PlaceOk(s', x) { assert PlaceOk(s, x); }
    forall x ensures RoleOk(s', x) { assert RoleOk(s, x); }
    forall x, y ensures PairOk(s', x, y) { assert PairOk(s, x, y); }
    forall x ensures IsLastOne(s, x) ==> IsLastOne(s', x) {}
  }

  lemma LeaveKeeps(s: State, t: TaskId)
    requires Inv(s) && t in s.threads && s.threads[t].pc.Leaving?
    ensures Inv(DoLeave(s, t))
  {
    var s' := DoLeave(s, t);
    assert PlaceOk(s, t) && RoleOk(s, t);
    forall x ensures PlaceOk(s', x) { assert PlaceOk(s, x); }
    forall x ensures RoleOk(s', x) { assert RoleOk(s, x) && PairOk(s, t, x); }
    forall x, y ensures PairOk(s', x, y) { assert PairOk(s, x, y); }
    forall x ensures IsLastOne(s, x) && x != t ==> IsLastOne(s', x) {}
  }

  // ---- Every step ----

  lemma StepKeepsInv(s: State, step: Step, s': State)
    requires Inv(s) && Next(s, step, s')
    ensures Inv(s')
  {
    match step
    case Clone(t, child) => CloneKeeps(s, t, child);
    case Publish(t) => PublishKeeps(s, t);
    case ExecStart(t) => ExecStartKeeps(s, t);
    case Lock(t) => LockKeeps(s, t);
    case Check(t) => CheckKeeps(s, t);
    case Arm(t) => ArmKeeps(s, t);
    case WakeUp(t) => WakeUpKeeps(s, t);
    case Promote(t) => PromoteKeeps(s, t);
    case Relink(t) => RelinkKeeps(s, t);
    case ExecFail(t) => FailKeeps(s, t);
    case Finish(t) => FinishKeeps(s, t);
    case Kill(t) => KillKeeps(s, t);
    case Ring(t) => RingKeeps(s, t);
    case Signal(t) => SignalKeeps(s, t);
    case Exit(t, group) => ExitKeeps(s, t, group);
    case RemoveTid(t) => RemoveTidKeeps(s, t);
    case Leave(t) => LeaveKeeps(s, t);
  }
}
