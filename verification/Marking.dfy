/**
 `set_child_subreaper` step by step, on top of the life-cycle machine.

 Marking threads raise the attribute, mark their own process and then work through a queue:
 under the children lock of one process after the other, they mark child by child.  The
 children lock of their own process they keep until the end.
 */
module Marking {
  import opened ProcessTree
  import opened TreeInvariant
  import opened TreeProgress

  datatype MarkPc =
    | Raised
    | ToLock(q: Pid)
    | Visiting(q: Pid, seen: set<Pid>)

  datatype Marker = Marker(owner: Pid, pc: MarkPc, queue: seq<Pid>)

  datatype Sys = Sys(tree: State, markers: map<nat, Marker>)

  predicate HoldsLock(m: Marker, q: Pid) {
    (m.pc.Visiting? && m.pc.q == q) || (m.owner == q && !m.pc.Raised? && m.pc != ToLock(q))
  }

  predicate Locked(s: Sys, q: Pid) {
    exists t :: t in s.markers && HoldsLock(s.markers[t], q)
  }

  /** A life-cycle step finds the children locks it takes free; nobody exits while marking. */
  predicate TreeStepFree(s: Sys, step: Step) {
    match step
    case CloneLink(t) => CloneAt(s.tree, t).pc.Locking? ==> !Locked(s, CloneAt(s.tree, t).pc.target)
    case ExitStart(p) => forall t :: t in s.markers ==> s.markers[t].owner != p
    case ExitAdvance(p, _) =>
      At(s.tree, p).pc.Moving? ==>
        && !Locked(s, At(s.tree, p).pc.reaper)
        && (At(s.tree, At(s.tree, p).pc.reaper).children.Some? ==> !Locked(s, p))
    case Reap(owner, _) => !Locked(s, owner)
    case SetSubreaper(_, on) => !on
    case Mark(_) => false
    case _ => true
  }

  // ---- The machine ----

  datatype MStep =
    | Tree(step: Step)
    | Raise(t: nat, p: Pid)
    | MarkSelf(t: nat)
    | Lock(t: nat)
    | MarkChild(t: nat, c: Pid)
    | Done(t: nat)

  function MarkerAt(s: Sys, t: nat): Marker {
    if t in s.markers then s.markers[t] else Marker(0, Raised, [])
  }

  predicate MEnabled(s: Sys, step: MStep) {
    && !s.tree.panicked
    && match step
       case Tree(ts) => Enabled(s.tree, ts) && TreeStepFree(s, ts)
       case Raise(t, p) => t !in s.markers && IsRunning(s.tree, p)
       case MarkSelf(t) => t in s.markers && s.markers[t].pc.Raised?
       case Lock(t) => t in s.markers && s.markers[t].pc.ToLock? && !Locked(s, s.markers[t].pc.q)
       case MarkChild(t, c) =>
         t in s.markers && s.markers[t].pc.Visiting?
         && Holds(s.tree, s.markers[t].pc.q, c) && c !in s.markers[t].pc.seen
       case Done(t) =>
         t in s.markers && s.markers[t].pc.Visiting?
         && At(s.tree, s.markers[t].pc.q).children.Some?
         && At(s.tree, s.markers[t].pc.q).children.value <= s.markers[t].pc.seen
  }

  function SetMarker(s: Sys, t: nat, m: Marker): Sys {
    s.(markers := s.markers[t := m])
  }

  /** On to the next process in the queue, or out. */
  function Pop(s: Sys, t: nat, m: Marker): Sys {
    if m.queue == [] then s.(markers := s.markers - {t})
    else SetMarker(s, t, m.(pc := ToLock(m.queue[0]), queue := m.queue[1..]))
  }

  /** The `fetch_or` on the own mark: there is nothing to propagate if it was set. */
  function DoMarkSelf(s: Sys, t: nat, m: Marker): Sys {
    if At(s.tree, m.owner).hasSubreaper then s.(markers := s.markers - {t})
    else SetMarker(s, t, m.(pc := ToLock(m.owner))).(tree := Apply(s.tree, Mark(m.owner)))
  }

  /** The own children are unwrapped; a queued process whose children are gone is skipped. */
  function DoLock(s: Sys, t: nat, m: Marker, q: Pid): Sys {
    if At(s.tree, q).children.Some? then SetMarker(s, t, m.(pc := Visiting(q, {})))
    else if q == m.owner then s.(tree := Panic(s.tree))
    else Pop(s, t, m)
  }

  function DoMarkChild(s: Sys, t: nat, m: Marker, c: Pid): Sys {
    if !m.pc.Visiting? then s else
    var queue := if At(s.tree, c).hasSubreaper then m.queue else m.queue + [c];
    SetMarker(s, t, m.(pc := m.pc.(seen := m.pc.seen + {c}), queue := queue)).(tree := Apply(s.tree, Mark(c)))
  }

  function MApply(s: Sys, step: MStep): Sys {
    match step
    case Tree(ts) => s.(tree := Apply(s.tree, ts))
    case Raise(t, p) => SetMarker(s, t, Marker(p, Raised, [])).(tree := Apply(s.tree, SetSubreaper(p, true)))
    case MarkSelf(t) => DoMarkSelf(s, t, MarkerAt(s, t))
    case Lock(t) => if MarkerAt(s, t).pc.ToLock? then DoLock(s, t, MarkerAt(s, t), MarkerAt(s, t).pc.q) else s
    case MarkChild(t, c) => DoMarkChild(s, t, MarkerAt(s, t), c)
    case Done(t) => Pop(s, t, MarkerAt(s, t))
  }

  ghost predicate MNext(s: Sys, step: MStep, s': Sys) {
    MEnabled(s, step) && s' == MApply(s, step)
  }

  ghost predicate IsMRun(states: seq<Sys>, steps: seq<MStep>) {
    && |states| == |steps| + 1
    && states[0] == Sys(BOOT, map[])
    && forall i :: 0 <= i < |steps| ==> MNext(states[i], steps[i], states[i + 1])
  }

  ghost predicate MReachable(s: Sys) {
    exists states, steps :: IsMRun(states, steps) && states[|steps|] == s
  }

  // ---- What every step keeps ----

  /** A marking thread's process runs; what it still has to visit is younger and marked; so is what it has seen. */
  ghost predicate MarkerOk(s: Sys, t: nat) {
    t in s.markers ==>
      var m := s.markers[t];
      && IsRunning(s.tree, m.owner)
      && (forall q :: q in m.queue ==> q in s.tree.procs && m.owner < q && s.tree.procs[q].hasSubreaper)
      && match m.pc
         case Raised => m.queue == []
         case ToLock(q) => q in s.tree.procs && m.owner <= q && s.tree.procs[q].hasSubreaper
         case Visiting(q, seen) =>
           && q in s.tree.procs && m.owner <= q && s.tree.procs[q].hasSubreaper && s.tree.procs[q].children.Some?
           && forall c :: c in seen ==> At(s.tree, c).hasSubreaper
  }

  ghost predicate MInv(s: Sys) {
    Inv(s.tree) && forall t {:trigger MarkerOk(s, t)} :: MarkerOk(s, t)
  }

  /** Marks stay, and a children map goes only when its process hands its children over. */
  ghost predicate Keeps(t: State, t': State, q: Pid, mover: bool) {
    q in t.procs ==>
      && q in t'.procs && (t.procs[q].hasSubreaper ==> t'.procs[q].hasSubreaper)
      && (t.procs[q].children.Some? && !mover ==> t'.procs[q].children.Some?)
  }

  lemma MoveKeepsProc(t: State, p: Pid, r: Pid, fallback: bool, limit: nat, q: Pid)
    requires p in t.procs
    ensures Keeps(t, DoMove(t, p, r, fallback, limit), q, q == p)
  {
  }

  lemma ExitKeepsProc(t: State, p: Pid, held: bool, q: Pid)
    requires p in t.procs
    ensures Keeps(t, DoExit(t, p, held), q, Moves(t, ExitAdvance(p, held), q))
  {
    var pc := t.procs[p].pc;
    if Moves(t, ExitAdvance(p, held), p) {
      MoveKeepsProc(t, p, pc.reaper, pc.fallback, pc.limit, q);
    } else {
      ExitOnlyPhase(t, p, held);
    }
  }

  lemma StepKeepsProc(t: State, step: Step, q: Pid)
    requires Inv(t) && Enabled(t, step)
    ensures Keeps(t, Apply(t, step), q, Moves(t, step, q))
  {
    match step
    case ExitAdvance(p, held) => ExitKeepsProc(t, p, held, q);
    case CloneLink(u) => assert ClonerOk(t, u);
    case _ =>
  }

  lemma TreeKeepsMarker(s: Sys, step: Step, t: nat)
    requires MInv(s) && Enabled(s.tree, step) && (TreeStepFree(s, step) || step.SetSubreaper? || step.Mark?)
    requires t in s.markers
    ensures MarkerOk(s.(tree := Apply(s.tree, step)), t)
  {
    var m, t' := s.markers[t], Apply(s.tree, step);
    assert MarkerOk(s, t);
    StepKeepsRunning(s.tree, step, m.owner);
    forall q | q in m.queue ensures q in t'.procs && t'.procs[q].hasSubreaper { StepKeepsProc(s.tree, step, q); }
    if !m.pc.Raised? { StepKeepsProc(s.tree, step, m.pc.q); }
    if m.pc.Visiting? {
      assert HoldsLock(m, m.pc.q) && Locked(s, m.pc.q);
      forall c | c in m.pc.seen ensures At(t', c).hasSubreaper { StepKeepsProc(s.tree, step, c); }
    }
  }

  /** A life-cycle step, or a marking thread's step on one process, with the markers as they were. */
  lemma TreeKeepsMInv(s: Sys, step: Step)
    requires MInv(s) && Enabled(s.tree, step) && (TreeStepFree(s, step) || step.SetSubreaper? || step.Mark?)
    ensures MInv(s.(tree := Apply(s.tree, step)))
  {
    StepKeepsInv(s.tree, step);
    forall t ensures MarkerOk(s.(tree := Apply(s.tree, step)), t) {
      if t in s.markers { TreeKeepsMarker(s, step, t); }
    }
  }

  lemma MarkerKeeps(s: Sys, t: nat, m: Marker)
    requires MInv(s) && MarkerOk(SetMarker(s, t, m), t)
    ensures MInv(SetMarker(s, t, m))
  {
    forall u ensures MarkerOk(SetMarker(s, t, m), u) { assert MarkerOk(s, u); }
  }

  lemma PopKeeps(s: Sys, t: nat)
    requires MInv(s) && t in s.markers
    ensures MInv(Pop(s, t, s.markers[t]))
  {
    assert MarkerOk(s, t);
    var m := s.markers[t];
    if m.queue == [] {
      forall u ensures MarkerOk(Pop(s, t, m), u) { assert MarkerOk(s, u); }
    } else {
      var m' := m.(pc := ToLock(m.queue[0]), queue := m.queue[1..]);
      assert m.queue[0] in m.queue && forall q :: q in m'.queue ==> q in m.queue;
      MarkerKeeps(s, t, m');
    }
  }

  lemma MarkSelfKeeps(s: Sys, t: nat)
    requires MInv(s) && MEnabled(s, MarkSelf(t))
    ensures MInv(MApply(s, MarkSelf(t)))
  {
    var m := s.markers[t];
    assert MarkerOk(s, t);
    if At(s.tree, m.owner).hasSubreaper {
      forall u ensures MarkerOk(MApply(s, MarkSelf(t)), u) { assert MarkerOk(s, u); }
    } else {
      TreeKeepsMInv(s, Mark(m.owner));
      MarkerKeeps(s.(tree := Apply(s.tree, Mark(m.owner))), t, m.(pc := ToLock(m.owner)));
    }
  }

  lemma MarkChildKeeps(s: Sys, t: nat, c: Pid)
    requires MInv(s) && MEnabled(s, MarkChild(t, c))
    ensures MInv(MApply(s, MarkChild(t, c)))
  {
    var m := s.markers[t];
    assert MarkerOk(s, t) && ProcOk(s.tree, c);
    var s1 := s.(tree := Apply(s.tree, Mark(c)));
    TreeKeepsMInv(s, Mark(c));
    assert MarkerOk(s1, t);
    var queue := if At(s.tree, c).hasSubreaper then m.queue else m.queue + [c];
    MarkerKeeps(s1, t, m.(pc := m.pc.(seen := m.pc.seen + {c}), queue := queue));
  }

  /** Every step keeps the invariant; in particular the unwrapped own children are there. */
  lemma StepKeepsMInv(s: Sys, step: MStep)
    requires MInv(s) && MEnabled(s, step)
    ensures MInv(MApply(s, step))
  {
    match step
    case Tree(ts) => TreeKeepsMInv(s, ts);
    case Raise(t, p) =>
      MarkerKeeps(s, t, Marker(p, Raised, []));
      TreeKeepsMInv(SetMarker(s, t, Marker(p, Raised, [])), SetSubreaper(p, true));
    case MarkSelf(t) => MarkSelfKeeps(s, t);
    case Lock(t) =>
      assert MarkerOk(s, t) && ProcOk(s.tree, s.markers[t].owner);
      var q := s.markers[t].pc.q;
      if At(s.tree, q).children.Some? {
        MarkerKeeps(s, t, s.markers[t].(pc := Visiting(q, {})));
      } else {
        PopKeeps(s, t);
      }
    case MarkChild(t, c) => MarkChildKeeps(s, t, c);
    case Done(t) => PopKeeps(s, t);
  }

  lemma {:induction false} RunKeepsMInv(states: seq<Sys>, steps: seq<MStep>, i: nat)
    requires IsMRun(states, steps) && i < |states|
    ensures MInv(states[i])
  {
    if i == 0 {
      BootInv();
    } else {
      RunKeepsMInv(states, steps, i - 1);
      assert MNext(states[i - 1], steps[i - 1], states[i]);
      StepKeepsMInv(states[i - 1], steps[i - 1]);
    }
  }
}
