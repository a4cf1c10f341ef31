/**
 What the interleaved marking achieves: the subreaper mark is closed downwards except below
 processes some thread has still to visit, and exactly one kind of step can break that.
 */
module MarkingTheorems {
  import opened ProcessTree
  import opened TreeInvariant
  import opened TreeEffects
  import opened TreeProgress
  import opened TreeTheorems
  import opened Subreaper
  import opened Marking

  /** A marking thread that waits for a children lock while it holds its own waits for a younger process's. */
  lemma LocksGoDown(s: Sys, t: nat)
    requires MReachable(s) && t in s.markers && s.markers[t].pc.ToLock? && HoldsLock(s.markers[t], s.markers[t].owner)
    ensures s.markers[t].owner < s.markers[t].pc.q
  {
    var states, steps :| IsMRun(states, steps) && states[|steps|] == s;
    RunKeepsMInv(states, steps, |steps|);
    assert MarkerOk(s, t);
  }

  /**
   Some thread holds the children lock of `held` and waits for that of `wanted`: a hand-over
   that has the reaper's lock and wants its own, or a marking on its way down.
   */
  ghost predicate HoldsAndWants(s: Sys, held: Pid, wanted: Pid) {
    || (wanted in s.tree.procs && s.tree.procs[wanted].pc.Moving? && s.tree.procs[wanted].pc.reaper == held)
    || (exists t :: t in s.markers && s.markers[t].owner == held && s.markers[t].pc == ToLock(wanted)
                    && HoldsLock(s.markers[t], held))
  }

  lemma WantsYounger(s: Sys, held: Pid, wanted: Pid)
    requires MReachable(s) && HoldsAndWants(s, held, wanted)
    ensures held < wanted
  {
    var states, steps :| IsMRun(states, steps) && states[|steps|] == s;
    RunKeepsMInv(states, steps, |steps|);
    if wanted in s.tree.procs && s.tree.procs[wanted].pc.Moving? && s.tree.procs[wanted].pc.reaper == held {
      assert ProcOk(s.tree, wanted);
    } else {
      var t :| t in s.markers && s.markers[t].owner == held && s.markers[t].pc == ToLock(wanted)
               && HoldsLock(s.markers[t], held);
      LocksGoDown(s, t);
    }
  }

  /**
   Among any threads in the middle of nested children locks, handing over or marking, one
   waits for a lock that none of the others holds, so they never wait in a circle.
   */
  lemma NestedLocksMakeNoCircle(s: Sys, waits: set<(Pid, Pid)>)
    requires MReachable(s) && waits != {}
    requires forall x :: x in waits ==> HoldsAndWants(s, x.0, x.1)
    ensures exists x :: x in waits && forall y :: y in waits ==> y.0 != x.1
  {
    var wanted := set x | x in waits :: x.1;
    var x0 :| x0 in waits;
    assert x0.1 in wanted;
    var m := Youngest(wanted);
    var x :| x in waits && x.1 == m;
    forall y | y in waits ensures y.0 != x.1 {
      WantsYounger(s, y.0, y.1);
      assert y.1 in wanted;
    }
  }

  // ---- The life-cycle machine underneath ----

  lemma Extended(s: State, step: Step)
    requires Reachable(s) && Enabled(s, step)
    ensures Reachable(Apply(s, step))
  {
    var states, steps :| IsRun(states, steps) && states[|steps|] == s;
    var states', steps' := states + [Apply(s, step)], steps + [step];
    forall i | 0 <= i < |steps'|
      ensures Enabled(states'[i], steps'[i]) && states'[i + 1] == Apply(states'[i], steps'[i])
    {
      if i < |steps| {
        assert states'[i] == states[i] && states'[i + 1] == states[i + 1] && steps'[i] == steps[i];
      } else {
        assert states'[i] == s && steps'[i] == step;
      }
    }
    assert IsRun(states', steps') && states'[|steps'|] == Apply(s, step);
  }

  lemma StepOfTree(s: Sys, step: MStep)
    requires MInv(s) && MEnabled(s, step) && Reachable(s.tree)
    ensures Reachable(MApply(s, step).tree)
  {
    match step
    case Tree(ts) => Extended(s.tree, ts);
    case Raise(t, p) => Extended(s.tree, SetSubreaper(p, true));
    case MarkSelf(t) =>
      assert MarkerOk(s, t);
      Extended(s.tree, Mark(s.markers[t].owner));
    case Lock(t) => assert MarkerOk(s, t) && ProcOk(s.tree, s.markers[t].owner);
    case MarkChild(t, c) =>
      assert Holds(s.tree, s.markers[t].pc.q, c);
      Extended(s.tree, Mark(c));
    case Done(t) =>
  }

  /** What holds of every reachable state of the life-cycle machine holds here, and nothing panics. */
  lemma {:induction false} TreesAreReachable(states: seq<Sys>, steps: seq<MStep>, n: nat)
    requires IsMRun(states, steps) && n <= |steps|
    ensures Reachable(states[n].tree) && !states[n].tree.panicked
  {
    RunKeepsMInv(states, steps, n);
    if n == 0 {
      assert IsRun([BOOT], []) && [BOOT][0] == states[0].tree;
    } else {
      TreesAreReachable(states, steps, n - 1);
      RunKeepsMInv(states, steps, n - 1);
      assert MNext(states[n - 1], steps[n - 1], states[n]);
      StepOfTree(states[n - 1], steps[n - 1]);
    }
  }

  // ---- Where marks come from ----

  predicate Marked(s: Sys, p: Pid) {
    At(s.tree, p).hasSubreaper
  }

  lemma BornMarkedByParent(s: Sys, u: nat, p: Pid)
    requires MInv(s) && MEnabled(s, Tree(CloneLink(u)))
    requires p !in s.tree.procs && p in DoCloneLink(s.tree, u).procs
    ensures DoCloneLink(s.tree, u).procs[p].hasSubreaper ==>
              Marked(s, DoCloneLink(s.tree, u).procs[p].parent)
  {
    assert ClonerOk(s.tree, u);
  }

  /**
   Marks spread downwards only: a process that gets the mark is one that is setting its own
   attribute, or its parent has the mark.
   */
  lemma MarksSpreadDown(s: Sys, step: MStep, p: Pid)
    requires MReachable(s) && MEnabled(s, step) && !Marked(s, p) && Marked(MApply(s, step), p)
    ensures (step.MarkSelf? && p == s.markers[step.t].owner) || Marked(s, At(MApply(s, step).tree, p).parent)
  {
    var states, steps :| IsMRun(states, steps) && states[|steps|] == s;
    RunKeepsMInv(states, steps, |steps|);
    match step
    case Tree(ts) =>
      if p in s.tree.procs { StepKeepsFlags(s.tree, ts, p); } else { NewcomerIsLinked(s.tree, ts, p); }
      if ts.CloneLink? && p !in s.tree.procs { BornMarkedByParent(s, ts.cloner, p); }
    case MarkChild(t, c) => assert MarkerOk(s, t) && Holds(s.tree, s.markers[t].pc.q, c);
    case _ =>
  }

  lemma NewcomerIsLinked(t: State, step: Step, p: Pid)
    requires Inv(t) && Enabled(t, step) && p !in t.procs && p in Apply(t, step).procs
    ensures step.CloneLink?
  {
    if step.ExitAdvance? {
      assert ProcOk(t, step.p) && ProcOk(t, INIT);
      if !Moves(t, step, step.p) { ExitOnlyPhase(t, step.p, step.held); }
    }
    if step.Reap? { ReapHolds(t, step.owner, step.child); }
  }

  /** A marking thread puts off exactly the children it has newly marked. */
  lemma VisitQueuesNewlyMarked(s: Sys, t: nat, c: Pid)
    requires MEnabled(s, MarkChild(t, c))
    ensures var s' := MApply(s, MarkChild(t, c));
            && t in s'.markers && c in s'.tree.procs && s'.tree.procs[c].hasSubreaper
            && s'.markers[t].queue == s.markers[t].queue + if At(s.tree, c).hasSubreaper then [] else [c]
  {
  }

  /** Setting the attribute sets it, whatever the mark says. */
  lemma RaisingSets(s: Sys, t: nat, p: Pid)
    requires MEnabled(s, Raise(t, p))
    ensures var s' := MApply(s, Raise(t, p));
            && s'.tree.procs == s.tree.procs[p := s.tree.procs[p].(isSubreaper := true)]
            && t in s'.markers && s'.markers[t].owner == p
  {
  }

  // ---- Closed, but for what is still to be visited ----

  /** The thread will lock the children of `o`. */
  predicate Awaits(m: Marker, o: Pid) {
    m.pc == ToLock(o) || o in m.queue
  }

  /** The thread will mark `c` if it stays a child of `o`. */
  predicate WillMark(m: Marker, o: Pid, c: Pid) {
    Awaits(m, o) || (m.pc.Visiting? && m.pc.q == o && c !in m.pc.seen)
  }

  ghost predicate Awaited(s: Sys, o: Pid) {
    exists t :: t in s.markers && Awaits(s.markers[t], o)
  }

  ghost predicate ToBeMarked(s: Sys, o: Pid, c: Pid) {
    exists t :: t in s.markers && WillMark(s.markers[t], o, c)
  }

  ghost predicate JustRaised(s: Sys, p: Pid) {
    exists t :: t in s.markers && s.markers[t].owner == p && s.markers[t].pc.Raised?
  }

  ghost predicate MarkBut(s: Sys, p: Pid) {
    p in s.tree.procs && !s.tree.procs[p].reaped && !s.tree.procs[p].hasSubreaper ==>
      && (s.tree.procs[p].isSubreaper ==> JustRaised(s, p))
      && (At(s.tree, s.tree.procs[p].parent).hasSubreaper ==> ToBeMarked(s, s.tree.procs[p].parent, p))
  }

  ghost predicate ClosedBut(s: Sys) {
    forall p {:trigger MarkBut(s, p)} :: MarkBut(s, p)
  }

  /** Once no thread is marking, the exceptions are gone. */
  lemma QuietMeansClosed(s: Sys)
    requires s.markers == map[]
    ensures ClosedBut(s) <==> Closed(s.tree)
  {
    if ClosedBut(s) {
      forall p ensures MarkOk(s.tree, p) { assert MarkBut(s, p); }
    }
    if Closed(s.tree) {
      forall p ensures MarkBut(s, p) { assert MarkOk(s.tree, p); }
    }
  }

  // ---- Life-cycle steps ----

  /** Nothing that decides the mark of an unreaped process has changed for the worse. */
  ghost predicate SameMarks(s: State, s': State) {
    && s'.procs.Keys == s.procs.Keys
    && forall q :: q in s.procs ==>
         && s'.procs[q].parent == s.procs[q].parent
         && s'.procs[q].hasSubreaper == s.procs[q].hasSubreaper
         && (s'.procs[q].isSubreaper ==> s.procs[q].isSubreaper)
         && (s.procs[q].reaped ==> s'.procs[q].reaped)
  }

  lemma SameMarksKeep(s: Sys, tree': State)
    requires ClosedBut(s) && SameMarks(s.tree, tree')
    ensures ClosedBut(s.(tree := tree'))
  {
    forall q ensures MarkBut(s.(tree := tree'), q) {
      assert MarkBut(s, q);
      SameMarkers(s, tree', q);
    }
  }

  lemma SameMarkers(s: Sys, tree': State, q: Pid)
    ensures JustRaised(s, q) ==> JustRaised(s.(tree := tree'), q)
    ensures forall o :: ToBeMarked(s, o, q) ==> ToBeMarked(s.(tree := tree'), o, q)
  {
  }

  lemma LinkingKeeps(s: Sys, u: nat)
    requires MInv(s) && ClosedBut(s) && u in s.tree.cloners && s.tree.cloners[u].pc.Locking?
    ensures ClosedBut(s.(tree := DoCloneLink(s.tree, u)))
  {
    var tree' := DoCloneLink(s.tree, u);
    assert ClonerOk(s.tree, u);
    forall q ensures MarkBut(s.(tree := tree'), q) {
      assert MarkBut(s, q) && ProcOk(s.tree, q);
      SameMarkers(s, tree', q);
    }
  }

  /** The hand-over, if it happens, does not bring an unmarked child to a marked reaper nobody will visit. */
  ghost predicate Guarded(s: Sys, step: MStep) {
    step.Tree? && step.step.ExitAdvance? && Moves(s.tree, step.step, step.step.p) ==>
      var p, r := step.step.p, At(s.tree, step.step.p).pc.reaper;
      At(s.tree, r).hasSubreaper && !Awaited(s, r) ==> forall c :: Holds(s.tree, p, c) ==> At(s.tree, c).hasSubreaper
  }

  ghost function AfterMove(s: Sys, p: Pid, r: Pid): Sys
    requires p in s.tree.procs && s.tree.procs[p].children.Some?
  {
    s.(tree := s.tree.(procs := Moved(s.tree.procs, p, r, s.tree.procs[p].children.value, WakingReaper(r))))
  }

  ghost predicate CanMove(s: Sys, p: Pid, r: Pid) {
    && p in s.tree.procs && s.tree.procs[p].children.Some? && r in s.tree.procs && s.tree.procs[r].children.Some?
    && r < p && !Locked(s, r)
  }

  lemma MoveKeepsMarks(s: Sys, p: Pid, r: Pid, q: Pid)
    requires MInv(s) && ClosedBut(s) && CanMove(s, p, r)
    requires Holds(s.tree, p, q) && At(s.tree, r).hasSubreaper && !Awaited(s, r) ==> s.tree.procs[q].hasSubreaper
    ensures MarkBut(AfterMove(s, p, r), q)
  {
    var s' := AfterMove(s, p, r);
    MoveHolds(s.tree, p, r);
    assert MarkBut(s, q) && ProcOk(s.tree, q);
    SameMarkers(s, s'.tree, q);
    OnlyAwaits(s, s'.tree, r, q);
  }

  lemma MoveOpensMark(s: Sys, p: Pid, r: Pid, c: Pid)
    requires MInv(s) && CanMove(s, p, r) && At(s.tree, r).hasSubreaper && !Awaited(s, r)
    requires Holds(s.tree, p, c) && !s.tree.procs[c].hasSubreaper
    ensures !MarkBut(AfterMove(s, p, r), c)
  {
    MoveHolds(s.tree, p, r);
    OnlyAwaits(s, AfterMove(s, p, r).tree, r, c);
  }

  /**
   A hand-over keeps the mark closed exactly when the reaper is unmarked, or some thread is
   still to visit it, or every moved child is marked already.
   */
  lemma MoveKeepsMarksIff(s: Sys, p: Pid, r: Pid)
    requires MInv(s) && ClosedBut(s) && CanMove(s, p, r)
    ensures ClosedBut(AfterMove(s, p, r)) <==>
            (At(s.tree, r).hasSubreaper && !Awaited(s, r) ==>
               forall c :: Holds(s.tree, p, c) ==> At(s.tree, c).hasSubreaper)
  {
    if At(s.tree, r).hasSubreaper && !Awaited(s, r) ==> forall c :: Holds(s.tree, p, c) ==> At(s.tree, c).hasSubreaper {
      forall q ensures MarkBut(AfterMove(s, p, r), q) { MoveKeepsMarks(s, p, r, q); }
    } else {
      var c :| Holds(s.tree, p, c) && !At(s.tree, c).hasSubreaper;
      MoveOpensMark(s, p, r, c);
    }
  }

  /** Of a process whose lock is free, the children to be marked are those of an awaited one. */
  lemma OnlyAwaits(s: Sys, tree': State, r: Pid, c: Pid)
    requires !Locked(s, r)
    ensures ToBeMarked(s.(tree := tree'), r, c) <==> Awaited(s, r)
  {
    var s' := s.(tree := tree');
    if ToBeMarked(s', r, c) {
      var t :| t in s'.markers && WillMark(s'.markers[t], r, c);
      assert !HoldsLock(s.markers[t], r);
    }
    if Awaited(s, r) {
      var t :| t in s.markers && Awaits(s.markers[t], r);
      assert WillMark(s'.markers[t], r, c);
    }
  }

  lemma ExitKeepsMarksIff(s: Sys, p: Pid, held: bool)
    requires MInv(s) && ClosedBut(s) && MEnabled(s, Tree(ExitAdvance(p, held)))
    ensures ClosedBut(s.(tree := DoExit(s.tree, p, held))) <==> Guarded(s, Tree(ExitAdvance(p, held)))
  {
    var t, pc := s.tree, s.tree.procs[p].pc;
    assert ProcOk(t, p) && ProcOk(t, INIT);
    if pc.Moving? && At(t, pc.reaper).children.Some? {
      MoveKeepsMarksIff(s, p, pc.reaper);
    } else {
      ExitOnlyPhase(t, p, held);
      SameMarksKeep(s, DoExit(t, p, held));
    }
  }

  lemma OtherKeepsMarks(s: State, step: Step)
    requires Enabled(s, step)
    requires step.CloneStart? || step.CloneAbort? || step.ExitStart? || (step.SetSubreaper? && !step.on) || step.Tick?
    ensures SameMarks(s, Apply(s, step))
  {
  }

  lemma TreeKeepsMarksIff(s: Sys, step: Step)
    requires MInv(s) && ClosedBut(s) && MEnabled(s, Tree(step))
    ensures ClosedBut(s.(tree := Apply(s.tree, step))) <==> Guarded(s, Tree(step))
  {
    match step
    case CloneLink(u) => LinkingKeeps(s, u);
    case ExitAdvance(p, held) => ExitKeepsMarksIff(s, p, held);
    case Reap(owner, child) => SameMarksKeep(s, DoReap(s.tree, owner, child));
    case ClonePick(u, held) => SameMarksKeep(s, DoClonePick(s.tree, u, held));
    case Mark(_) => assert false;
    case _ =>
      OtherKeepsMarks(s.tree, step);
      SameMarksKeep(s, Apply(s.tree, step));
  }

  // ---- Steps of the marking threads ----

  /** What thread `t` had to mark below `o` it still has, and the other threads are as they were. */
  ghost predicate StillWill(s: Sys, s': Sys, t: nat, o: Pid, c: Pid) {
    && (forall u :: u != t && u in s.markers ==> u in s'.markers && s'.markers[u] == s.markers[u])
    && (t in s.markers && WillMark(s.markers[t], o, c) ==> t in s'.markers && WillMark(s'.markers[t], o, c))
  }

  /** A process whose own flags are as they were, with a parent that is not newly marked. */
  lemma AsideKeeps(s: Sys, s': Sys, t: nat, q: Pid)
    requires MarkBut(s, q) && q in s.tree.procs && q in s'.tree.procs
    requires s'.tree.procs[q].(hasSubreaper := s.tree.procs[q].hasSubreaper) == s.tree.procs[q]
    requires s.tree.procs[q].hasSubreaper ==> s'.tree.procs[q].hasSubreaper
    requires StillWill(s, s', t, s.tree.procs[q].parent, q)
    requires t in s.markers && s.markers[t].pc.Raised? ==> q != s.markers[t].owner || s'.tree.procs[q].hasSubreaper
    requires At(s'.tree, s.tree.procs[q].parent).hasSubreaper ==>
               || At(s.tree, s.tree.procs[q].parent).hasSubreaper
               || s'.tree.procs[q].hasSubreaper || ToBeMarked(s', s.tree.procs[q].parent, q)
    ensures MarkBut(s', q)
  {
    var o := s.tree.procs[q].parent;
    if JustRaised(s, q) {
      var u :| u in s.markers && s.markers[u].owner == q && s.markers[u].pc.Raised?;
      assert u != t ==> s'.markers[u] == s.markers[u];
    }
    if ToBeMarked(s, o, q) {
      var u :| u in s.markers && WillMark(s.markers[u], o, q);
      assert WillMark(s'.markers[u], o, q);
    }
  }

  lemma RaiseKeeps(s: Sys, t: nat, p: Pid)
    requires ClosedBut(s) && MEnabled(s, Raise(t, p))
    ensures ClosedBut(MApply(s, Raise(t, p)))
  {
    var s' := MApply(s, Raise(t, p));
    forall q ensures MarkBut(s', q) {
      assert MarkBut(s, q);
      if q == p { assert s'.markers[t].owner == p; }
      if JustRaised(s, q) {
        var u :| u in s.markers && s.markers[u].owner == q && s.markers[u].pc.Raised?;
        assert s'.markers[u] == s.markers[u];
      }
      forall o | ToBeMarked(s, o, q) ensures ToBeMarked(s', o, q) {
        var u :| u in s.markers && WillMark(s.markers[u], o, q);
        assert WillMark(s'.markers[u], o, q);
      }
    }
  }

  lemma MarkSelfKeepsMarks(s: Sys, t: nat)
    requires MInv(s) && ClosedBut(s) && MEnabled(s, MarkSelf(t))
    ensures ClosedBut(MApply(s, MarkSelf(t)))
  {
    var s', m := MApply(s, MarkSelf(t)), s.markers[t];
    assert MarkerOk(s, t);
    forall q ensures MarkBut(s', q) {
      assert MarkBut(s, q);
      if q in s.tree.procs {
        if !At(s.tree, m.owner).hasSubreaper {
          assert WillMark(s'.markers[t], m.owner, q) && ToBeMarked(s', m.owner, q);
        }
        AsideKeeps(s, s', t, q);
      }
    }
  }

  lemma MarkChildKeepsMarks(s: Sys, t: nat, c: Pid)
    requires MInv(s) && ClosedBut(s) && MEnabled(s, MarkChild(t, c))
    ensures ClosedBut(MApply(s, MarkChild(t, c)))
  {
    var s', m := MApply(s, MarkChild(t, c)), s.markers[t];
    assert MarkerOk(s, t) && ProcOk(s.tree, c);
    forall q ensures MarkBut(s', q) {
      assert MarkBut(s, q);
      if q in s.tree.procs && q != c {
        if !At(s.tree, c).hasSubreaper { assert WillMark(s'.markers[t], c, q) && ToBeMarked(s', c, q); }
        AsideKeeps(s, s', t, q);
      }
    }
  }

  /** An unreaped process below one whose children are gone, or all seen, has nothing to wait for. */
  lemma LeavingKeepsMarks(s: Sys, t: nat, s': Sys)
    requires MInv(s) && ClosedBut(s) && t in s.markers && !s.markers[t].pc.Raised? && s' == Pop(s, t, s.markers[t])
    requires forall c :: Holds(s.tree, s.markers[t].pc.q, c) ==> At(s.tree, c).hasSubreaper
    ensures ClosedBut(s')
  {
    var m := s.markers[t];
    assert MarkerOk(s, t) && ProcOk(s.tree, m.pc.q);
    forall q ensures MarkBut(s', q) {
      assert MarkBut(s, q) && ProcOk(s.tree, q);
      if q in s.tree.procs && !s.tree.procs[q].reaped && !s.tree.procs[q].hasSubreaper {
        assert s.tree.procs[q].parent != m.pc.q;
        AsideKeeps(s, s', t, q);
      }
    }
  }

  lemma VisitingKeepsMarks(s: Sys, t: nat)
    requires MInv(s) && ClosedBut(s) && MEnabled(s, Lock(t)) && At(s.tree, s.markers[t].pc.q).children.Some?
    ensures ClosedBut(MApply(s, Lock(t)))
  {
    var s' := MApply(s, Lock(t));
    forall q ensures MarkBut(s', q) {
      assert MarkBut(s, q);
      if q in s.tree.procs { AsideKeeps(s, s', t, q); }
    }
  }

  /** A step keeps the mark closed, but for what is to be visited, if and only if it is no unguarded hand-over. */
  lemma StepKeepsMarksIff(s: Sys, step: MStep)
    requires MInv(s) && ClosedBut(s) && MEnabled(s, step)
    ensures ClosedBut(MApply(s, step)) <==> Guarded(s, step)
  {
    match step
    case Tree(ts) => TreeKeepsMarksIff(s, ts);
    case Raise(t, p) => RaiseKeeps(s, t, p);
    case MarkSelf(t) => MarkSelfKeepsMarks(s, t);
    case Lock(t) =>
      assert MarkerOk(s, t) && ProcOk(s.tree, s.markers[t].owner);
      if At(s.tree, s.markers[t].pc.q).children.Some? {
        VisitingKeepsMarks(s, t);
      } else {
        LeavingKeepsMarks(s, t, MApply(s, step));
      }
    case MarkChild(t, c) => MarkChildKeepsMarks(s, t, c);
    case Done(t) =>
      assert MarkerOk(s, t);
      LeavingKeepsMarks(s, t, MApply(s, step));
  }

  // ---- Runs ----

  lemma {:induction false} GuardedRunStaysClosed(states: seq<Sys>, steps: seq<MStep>, i: nat)
    requires IsMRun(states, steps) && i < |states|
    requires forall j :: 0 <= j < i ==> Guarded(states[j], steps[j])
    ensures ClosedBut(states[i])
  {
    if i > 0 {
      GuardedRunStaysClosed(states, steps, i - 1);
      StepOfRunIff(states, steps, i - 1);
    }
  }

  lemma StepOfRunIff(states: seq<Sys>, steps: seq<MStep>, j: nat)
    requires IsMRun(states, steps) && j < |steps| && ClosedBut(states[j])
    ensures ClosedBut(states[j + 1]) <==> Guarded(states[j], steps[j])
  {
    assert MNext(states[j], steps[j], states[j + 1]);
    RunKeepsMInv(states, steps, j);
    StepKeepsMarksIff(states[j], steps[j]);
  }

  /**
   Over any run the mark is closed throughout, but for what is still to be visited, if and
   only if every hand-over to a marked reaper that nobody is to visit moved marked children.
   */
  lemma RunStaysClosedIff(states: seq<Sys>, steps: seq<MStep>, n: nat)
    requires IsMRun(states, steps) && n <= |steps|
    ensures (forall i :: 0 <= i <= n ==> ClosedBut(states[i])) <==>
            (forall j :: 0 <= j < n ==> Guarded(states[j], steps[j]))
  {
    if forall j :: 0 <= j < n ==> Guarded(states[j], steps[j]) {
      forall i | 0 <= i <= n ensures ClosedBut(states[i]) { GuardedRunStaysClosed(states, steps, i); }
    }
    if forall i :: 0 <= i <= n ==> ClosedBut(states[i]) {
      forall j | 0 <= j < n ensures Guarded(states[j], steps[j]) {
        assert ClosedBut(states[j]) && ClosedBut(states[j + 1]);
        StepOfRunIff(states, steps, j);
      }
    }
  }

  /**
   What `set_child_subreaper` is for: after any such run in which all markings have come to
   their end, every unreaped descendant of a subreaper carries the mark.
   */
  lemma MarkingReachesAll(states: seq<Sys>, steps: seq<MStep>, n: nat, a: Pid, p: Pid)
    requires IsMRun(states, steps) && n <= |steps| && states[n].markers == map[]
    requires forall j :: 0 <= j < n ==> Guarded(states[j], steps[j])
    requires p in states[n].tree.procs && !states[n].tree.procs[p].reaped
    requires Above(states[n].tree, a, p) && At(states[n].tree, a).isSubreaper && !At(states[n].tree, a).reaped
    ensures states[n].tree.procs[p].hasSubreaper
  {
    var t := states[n].tree;
    GuardedRunStaysClosed(states, steps, n);
    RunKeepsMInv(states, steps, n);
    QuietMeansClosed(states[n]);
    assert MarkOk(t, a);
    MarkInherited(t, a, p);
  }

  // ---- Hand-overs to ancestors along visited paths ----

  ghost predicate Busy(s: Sys, q: Pid) {
    exists t :: t in s.markers && (Awaits(s.markers[t], q) || (s.markers[t].pc.Visiting? && s.markers[t].pc.q == q))
  }

  /** The reaper is an ancestor at the moment of the hand-over, and no thread has business on the path to it. */
  ghost predicate ClearPath(s: Sys, step: MStep) {
    step.Tree? && step.step.ExitAdvance? && Moves(s.tree, step.step, step.step.p) ==>
      var p, r := step.step.p, At(s.tree, step.step.p).pc.reaper;
      Above(s.tree, r, p) && forall q :: Above(s.tree, r, q) && Above(s.tree, q, p) ==> !Busy(s, q)
  }

  lemma {:induction false} MarkedAlongPath(s: Sys, r: Pid, p: Pid)
    requires MInv(s) && ClosedBut(s) && p in s.tree.procs && !s.tree.procs[p].reaped
    requires Above(s.tree, r, p) && At(s.tree, r).hasSubreaper
    requires forall q :: Above(s.tree, r, q) && Above(s.tree, q, p) ==> !Busy(s, q)
    ensures s.tree.procs[p].hasSubreaper
    decreases p
  {
    assert ProcOk(s.tree, p) && MarkBut(s, p) && ProcOk(s.tree, 0);
    if r != p && p != INIT {
      var o := s.tree.procs[p].parent;
      ParentIsOwned(s.tree, p);
      assert Above(s.tree, o, p) by { assert Above(s.tree, o, o); }
      forall q | Above(s.tree, r, q) && Above(s.tree, q, o) ensures !Busy(s, q) { assert Above(s.tree, q, p); }
      MarkedAlongPath(s, r, o);
    }
  }

  lemma ClearPathIsGuarded(s: Sys, step: MStep)
    requires MInv(s) && ClosedBut(s) && MEnabled(s, step) && ClearPath(s, step)
    ensures Guarded(s, step)
  {
    if step.Tree? && step.step.ExitAdvance? && Moves(s.tree, step.step, step.step.p) {
      var p, r := step.step.p, At(s.tree, step.step.p).pc.reaper;
      assert ProcOk(s.tree, p);
      if At(s.tree, r).hasSubreaper {
        MarkedAlongPath(s, r, p);
        assert Above(s.tree, p, p) && !Busy(s, p);
        forall c | Holds(s.tree, p, c) ensures At(s.tree, c).hasSubreaper { assert MarkBut(s, c); }
      }
    }
  }

  /** Over any run whose hand-overs all go to ancestors along paths no thread has business on, it stays closed. */
  lemma {:induction false} ClearPathRunsStayClosed(states: seq<Sys>, steps: seq<MStep>, n: nat)
    requires IsMRun(states, steps) && n <= |steps|
    requires forall j :: 0 <= j < n ==> ClearPath(states[j], steps[j])
    ensures ClosedBut(states[n])
  {
    if n > 0 {
      ClearPathRunsStayClosed(states, steps, n - 1);
      assert MNext(states[n - 1], steps[n - 1], states[n]);
      RunKeepsMInv(states, steps, n - 1);
      ClearPathIsGuarded(states[n - 1], steps[n - 1]);
      StepOfRunIff(states, steps, n - 1);
    }
  }
}
