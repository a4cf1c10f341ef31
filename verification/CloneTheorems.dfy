/**
 Where a new process ends up: below its creator, or, with CLONE_PARENT, beside it, although
 the creator's parent can change between choosing it and locking its children.
 */
module CloneTheorems {
  import opened Prelude
  import opened ProcessTree
  import opened TreeInvariant
  import opened TreeProgress
  import opened TreeTheorems

  /** A chosen parent that still accepts children is still the caller's parent. */
  ghost predicate SiblingOk(s: State, t: nat) {
    t in s.cloners && s.cloners[t].viaParent && s.cloners[t].pc.Locking?
    && At(s, s.cloners[t].pc.target).children.Some?
    ==> At(s, s.cloners[t].caller).parent == s.cloners[t].pc.target
  }

  ghost predicate SiblingsOk(s: State) {
    forall t {:trigger SiblingOk(s, t)} :: SiblingOk(s, t)
  }

  /** No children map reappears, and whoever changes parents leaves a closed map behind. */
  ghost predicate MapsClose(s: State, s': State) {
    && (forall p :: p in s.procs ==> p in s'.procs)
    && (forall p :: p in s.procs && s'.procs[p].children.Some? ==> s.procs[p].children.Some?)
    && (forall p :: p in s.procs && s'.procs[p].parent != s.procs[p].parent ==>
          At(s', s.procs[p].parent).children.None?)
  }

  lemma ClosingKeeps(s: State, s': State)
    requires Inv(s) && SiblingsOk(s) && MapsClose(s, s')
    requires forall t :: t in s'.cloners && s'.cloners[t].pc.Locking? ==>
               t in s.cloners && s'.cloners[t] == s.cloners[t]
    ensures SiblingsOk(s')
  {
    forall t ensures SiblingOk(s', t) { assert SiblingOk(s, t) && ClonerOk(s, t); }
  }

  lemma MoveCloses(s: State, p: Pid, r: Pid, fallback: bool, limit: nat)
    requires Inv(s) && p in s.procs && s.procs[p].pc == Moving(r, fallback, limit)
    ensures MapsClose(s, DoMove(s, p, r, fallback, limit))
  {
    assert ProcOk(s, p);
    if s.procs[r].children.Some? {
      forall c | c in s.procs[p].children.value ensures c in s.procs && s.procs[c].parent == p {
        assert Holds(s, p, c);
      }
    }
  }

  lemma LinkCloses(s: State, t: nat)
    requires Inv(s) && t in s.cloners && s.cloners[t].pc.Locking?
    ensures MapsClose(s, DoCloneLink(s, t))
  {
    if At(s, s.cloners[t].pc.target).children.Some? { CloneLinkHolds(s, t); }
  }

  lemma ReapCloses(s: State, owner: Pid, child: Pid)
    requires Inv(s) && Holds(s, owner, child) && At(s, child).zombie
    ensures MapsClose(s, DoReap(s, owner, child))
  {
    ReapHolds(s, owner, child);
  }

  lemma ExitCloses(s: State, p: Pid, held: bool)
    requires Inv(s) && p in s.procs
    ensures MapsClose(s, DoExit(s, p, held)) && DoExit(s, p, held).cloners == s.cloners
  {
    var pc := s.procs[p].pc;
    if pc.Moving? { MoveCloses(s, p, pc.reaper, pc.fallback, pc.limit); } else { ExitOnlyPhase(s, p, held); }
  }

  /** Steps that neither link, hand over nor reap. */
  lemma AsideCloses(s: State, step: Step)
    requires Enabled(s, step)
    requires step.CloneStart? || step.CloneAbort? || step.ExitStart? || step.SetSubreaper? || step.Mark? || step.Tick?
    ensures MapsClose(s, Apply(s, step))
    ensures forall t :: t in Apply(s, step).cloners && Apply(s, step).cloners[t].pc.Locking? ==>
              t in s.cloners && Apply(s, step).cloners[t] == s.cloners[t]
  {
  }

  lemma PickKeepsSiblings(s: State, t: nat, held: bool)
    requires Inv(s) && SiblingsOk(s) && t in s.cloners && s.cloners[t].pc.Picking?
    ensures SiblingsOk(DoClonePick(s, t, held))
  {
    forall u ensures SiblingOk(DoClonePick(s, t, held), u) { assert SiblingOk(s, u); }
  }

  lemma LinkKeepsSiblings(s: State, t: nat)
    requires Inv(s) && SiblingsOk(s) && t in s.cloners && s.cloners[t].pc.Locking?
    ensures SiblingsOk(DoCloneLink(s, t))
  {
    LinkCloses(s, t);
    ClosingKeeps(s, DoCloneLink(s, t));
  }

  lemma StepKeepsSiblings(s: State, step: Step)
    requires Inv(s) && SiblingsOk(s) && Enabled(s, step)
    ensures SiblingsOk(Apply(s, step))
  {
    match step
    case ClonePick(t, held) => PickKeepsSiblings(s, t, held);
    case CloneLink(t) => LinkKeepsSiblings(s, t);
    case Reap(owner, child) =>
      ReapCloses(s, owner, child);
      ClosingKeeps(s, DoReap(s, owner, child));
    case ExitAdvance(p, held) =>
      ExitCloses(s, p, held);
      ClosingKeeps(s, DoExit(s, p, held));
    case _ =>
      AsideCloses(s, step);
      ClosingKeeps(s, Apply(s, step));
  }

  lemma {:induction false} RunKeepsSiblings(states: seq<State>, steps: seq<Step>, i: nat)
    requires IsRun(states, steps) && i < |states|
    ensures SiblingsOk(states[i])
  {
    if i > 0 {
      RunKeepsSiblings(states, steps, i - 1);
      RunKeepsInv(states, steps, i - 1);
      StepKeepsSiblings(states[i - 1], steps[i - 1]);
    }
  }

  /** The new process and its parent after a successful link, field by field, and everybody else. */
  ghost predicate Born(s: State, s': State, q: Pid, child: Pid) {
    && child !in s.procs && child in s'.procs && q in s.procs && q in s'.procs && s.procs[q].children.Some?
    && (var x := s'.procs[child];
        && x.parent == q && x.children == Some({}) && x.pc == Running
        && !x.zombie && !x.reaped && !x.isSubreaper && (x.hasSubreaper <==> s.procs[q].hasSubreaper)
        && x.cpu == Cpu(0, 0) && x.reapedCpu == Cpu(0, 0))
    && s'.procs[q] == s.procs[q].(children := Some(s.procs[q].children.value + {child}))
    && (forall p :: p in s'.procs && p != child ==> p in s.procs)
    && (forall p :: p in s.procs && p != q ==> p in s'.procs && s'.procs[p] == s.procs[p])
    && s'.table == s.table + {child}
  }

  lemma LinkBears(s: State, t: nat)
    requires Inv(s) && Enabled(s, CloneLink(t)) && At(s, s.cloners[t].pc.target).children.Some?
    ensures Born(s, DoCloneLink(s, t), s.cloners[t].pc.target, s.cloners[t].child)
  {
    CloneLinkHolds(s, t);
  }

  /**
   When the link succeeds, the new process is a child of its creator, or of its creator's
   parent at that very moment; it is running, childless, charged with nothing, no subreaper,
   marked exactly if its parent is, and in the PID table.  Of the other processes only the
   parent changes, and only in its children map.
   */
  lemma ChildIsPlacedRight(s: State, t: nat)
    requires Reachable(s) && Enabled(s, CloneLink(t)) && At(s, s.cloners[t].pc.target).children.Some?
    ensures var s' := Apply(s, CloneLink(t));
            var c := s.cloners[t];
            var q := if c.viaParent then At(s, c.caller).parent else c.caller;
            && t !in s'.cloners && Born(s, s', q, c.child)
            && (forall o :: Holds(s', o, c.child) <==> o == q)
  {
    var states, steps :| IsRun(states, steps) && states[|steps|] == s;
    RunKeepsSiblings(states, steps, |steps|);
    ReachableInv(s);
    assert SiblingOk(s, t) && ClonerOk(s, t);
    CloneLinkHolds(s, t);
    LinkBears(s, t);
    StepKeepsInv(s, CloneLink(t));
  }
}
