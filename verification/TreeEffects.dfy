/**
 What the steps of exit, reaping and the subreaper attribute do to the processes, field by
 field, and what they leave alone.
 */
module TreeEffects {
  import opened Prelude
  import opened ProcessTree
  import opened TreeInvariant
  import opened TreeProgress
  import opened TreeTheorems
  import opened Subreaper

  /** Every process but those in `ps` is as it was, and none has come or gone. */
  ghost predicate OnlyThese(s: State, s': State, ps: set<Pid>) {
    s'.procs.Keys == s.procs.Keys && forall q :: q in s.procs && q !in ps ==> s'.procs[q] == s.procs[q]
  }

  // ---- The terms of a clone ----

  /** Step `k` began the clone of thread `t` on these terms, and it has been at it since. */
  ghost predicate BeganAs(states: seq<State>, steps: seq<Step>, k: nat, n: nat, t: nat, c: Cloner)
    requires |states| == |steps| + 1 && k < n <= |steps|
  {
    && steps[k] == CloneStart(t, c.caller, c.child, c.viaParent)
    && forall j :: k < j <= n ==> t in states[j].cloners
  }

  lemma StepKeepsTerms(s: State, step: Step, t: nat)
    requires Inv(s) && Enabled(s, step) && t in Apply(s, step).cloners
    ensures var c := Apply(s, step).cloners[t];
            || step == CloneStart(t, c.caller, c.child, c.viaParent)
            || (t in s.cloners && s.cloners[t].caller == c.caller && s.cloners[t].child == c.child
                && s.cloners[t].viaParent == c.viaParent)
  {
  }

  /** Over every run a thread inside `clone` is there on the terms it called with. */
  lemma {:induction false} CloneTermsWereGiven(states: seq<State>, steps: seq<Step>, n: nat, t: nat)
    requires IsRun(states, steps) && n <= |steps| && t in states[n].cloners
    ensures exists k :: 0 <= k < n && BeganAs(states, steps, k, n, t, states[n].cloners[t])
  {
    if n > 0 {
      var s, step, c := states[n - 1], steps[n - 1], states[n].cloners[t];
      assert Enabled(s, step) && states[(n - 1) + 1] == Apply(s, step);
      RunKeepsInv(states, steps, n - 1);
      StepKeepsTerms(s, step, t);
      if step == CloneStart(t, c.caller, c.child, c.viaParent) {
        assert BeganAs(states, steps, n - 1, n, t, c);
      } else {
        CloneTermsWereGiven(states, steps, n - 1, t);
        var k :| 0 <= k < n - 1 && BeganAs(states, steps, k, n - 1, t, s.cloners[t]);
        assert BeganAs(states, steps, k, n, t, c);
      }
    }
  }

  // ---- Exit ----

  /** An exit starts at its first stage, with nothing else changed. */
  lemma ExitStarts(s: State, p: Pid)
    requires Enabled(s, ExitStart(p))
    ensures var s' := Apply(s, ExitStart(p));
            && p in s'.procs && Stage(s'.procs[p].pc) == 1
            && s' == s.(procs := s.procs[p := s.procs[p].(pc := s'.procs[p].pc)])
  {
  }

  /**
   A hand-over that succeeds: the exiting process loses its children map, the reaper gains
   the children, their links name the reaper, and nothing else changes.
   */
  lemma HandOverEffect(s: State, p: Pid, held: bool)
    requires Reachable(s) && Enabled(s, ExitAdvance(p, held)) && s.procs[p].pc.Moving?
    requires At(s, s.procs[p].pc.reaper).children.Some?
    ensures var s', r := Apply(s, ExitAdvance(p, held)), s.procs[p].pc.reaper;
            && s.procs[p].children.Some? && r in s.procs && r != p
            && var cs := s.procs[p].children.value;
               && OnlyThese(s, s', cs + {p, r})
               && s'.procs[p] == s.procs[p].(children := None, pc := WakingReaper(r))
               && s'.procs[r] == s.procs[r].(children := Some(s.procs[r].children.value + cs))
               && (forall c :: c in cs ==> c in s.procs && s'.procs[c] == s.procs[c].(parent := r))
               && s' == s.(procs := s'.procs)
  {
    ReachableInv(s);
    assert ProcOk(s, p) && ProcOk(s, INIT);
    MoveHolds(s, p, s.procs[p].pc.reaper);
  }

  /** A hand-over to a reaper whose children are gone, and a lost path, start the search again. */
  lemma SearchStartsAgain(s: State, p: Pid, held: bool)
    requires Reachable(s) && Enabled(s, ExitAdvance(p, held))
    requires
      || (s.procs[p].pc.Moving? && At(s, s.procs[p].pc.reaper).children.None?)
      || (s.procs[p].pc.Walking? && s.procs[p].pc.phase.Climb? && !held && !Owned(s, At(s, s.procs[p].pc.pos).parent))
    ensures var s' := Apply(s, ExitAdvance(p, held));
            && p in s'.procs && s'.procs[p].pc.ReadingLink?
            && s' == s.(procs := s.procs[p := s.procs[p].(pc := s'.procs[p].pc)])
            && var s'' := Apply(s', ExitAdvance(p, held));
               p in s''.procs && s''.procs[p].pc.Walking? && s''.procs[p].pc.pos == s.procs[p].parent
               && s''.procs[p].pc.phase.Arrive?
  {
    ReachableInv(s);
    StepKeepsInv(s, ExitAdvance(p, held));
    assert ProcOk(s, p) && ProcOk(s, INIT);
    var s' := Apply(s, ExitAdvance(p, held));
    assert ProcOk(s', p);
    ParentIsOwned(s', p);
  }

  /** The stages of an exit, in their order. */
  function Stage(pc: ExitPc): nat {
    match pc
    case Running => 0
    case ClearingTracees => 1
    case WakingTracer => 2
    case ReadingLink(_) => 3
    case Walking(_, _, _) => 3
    case Moving(_, _, _) => 3
    case WakingReaper(_) => 4
    case HandedOver => 5
    case ReadingParent => 6
    case WakingParent(_) => 7
    case Exited => 8
  }

  /** Where the exit of `p` stands after a step, seen from where it stood before. */
  ghost predicate GoesOn(s: State, s': State, p: Pid, held: bool) {
    && p in s.procs && p in s'.procs
    && var before, after := Stage(s.procs[p].pc), Stage(s'.procs[p].pc);
       && (after == before + 1
           || (before == 3 && after == 3)
           || (before == 2 && after == 5 && p == INIT)
           || (before == 6 && after == 8 && !Upgrade(s, s.procs[p].parent, held)))
       && (s'.procs[p].zombie <==> after >= 6)
       && (if before == 3 && after == 4
           then s.procs[p].pc.Moving? && s'.procs[p].children.None?
           else OnlyThese(s, s', {p}) && s'.procs[p].children == s.procs[p].children)
  }

  lemma PhaseTouchesOne(s: State, s': State, p: Pid)
    requires OnlyPhase(s.procs, s'.procs, p)
    ensures OnlyThese(s, s', {p}) && s'.procs[p].children == s.procs[p].children
  {
  }

  lemma MoverGoesOn(s: State, p: Pid, held: bool)
    requires Inv(s) && Enabled(s, ExitAdvance(p, held)) && s.procs[p].pc.Moving?
    ensures GoesOn(s, DoExit(s, p, held), p, held)
  {
    assert ProcOk(s, p) && ProcOk(s, INIT);
    if !Moves(s, ExitAdvance(p, held), p) {
      ExitOnlyPhase(s, p, held);
      PhaseTouchesOne(s, DoExit(s, p, held), p);
    }
  }

  lemma WalkStaysInSearch(s: State, pos: Pid, phase: WalkPhase, limit: nat, held: bool)
    ensures Stage(WalkPc(s, pos, phase, limit, held)) == 3
  {
  }

  lemma NextStage(s: State, p: Pid, held: bool)
    requires p in s.procs && Stage(s.procs[p].pc) in {1, 2, 3, 4, 6, 7} && !s.procs[p].pc.Moving?
    requires p != INIT ==> s.procs[p].parent != 0
    ensures var before, after := Stage(s.procs[p].pc), Stage(NextPc(s, p, held));
            if before == 3 then after == 3
            else after == before + 1 || (before == 2 && after == 5 && p == INIT)
                 || (before == 6 && after == 8 && !Upgrade(s, s.procs[p].parent, held))
  {
    var pc := s.procs[p].pc;
    if pc.Walking? { WalkStaysInSearch(s, pc.pos, pc.phase, pc.limit, held); }
  }

  /** The stage and the zombie flag after a step other than the hand-over. */
  lemma StageGoesOn(s: State, p: Pid, held: bool)
    requires Inv(s) && Enabled(s, ExitAdvance(p, held)) && !s.procs[p].pc.Moving?
    ensures var before, s' := Stage(s.procs[p].pc), DoExit(s, p, held);
            && p in s'.procs
            && var after := Stage(s'.procs[p].pc);
               && (after == before + 1 || (before == 3 && after == 3) || (before == 2 && after == 5 && p == INIT)
                   || (before == 6 && after == 8 && !Upgrade(s, s.procs[p].parent, held)))
               && (before == 3 ==> after == 3)
               && (s'.procs[p].zombie <==> after >= 6)
  {
    assert ProcOk(s, p);
    if !s.procs[p].pc.HandedOver? {
      NextStage(s, p, held);
      if s.procs[p].pc.ReadingLink? { ParentIsOwned(s, p); }
      assert DoExit(s, p, held) == SetPc(s, p, NextPc(s, p, held));
    }
  }

  lemma OthersGoOn(s: State, p: Pid, held: bool)
    requires Inv(s) && Enabled(s, ExitAdvance(p, held)) && !s.procs[p].pc.Moving?
    ensures GoesOn(s, DoExit(s, p, held), p, held)
  {
    StageGoesOn(s, p, held);
    ExitOnlyPhase(s, p, held);
    PhaseTouchesOne(s, DoExit(s, p, held), p);
  }

  /**
   An exit goes through its stages one by one.  It stays in the search until the hand-over
   succeeds; init has no reaper to search; and only a process without a parent to wake
   leaves that out.  It is a zombie from stage 6 on, and only the hand-over touches others.
   */
  lemma ExitGoesOn(s: State, p: Pid, held: bool)
    requires Reachable(s) && Enabled(s, ExitAdvance(p, held))
    ensures GoesOn(s, Apply(s, ExitAdvance(p, held)), p, held)
  {
    ReachableInv(s);
    if s.procs[p].pc.Moving? { MoverGoesOn(s, p, held); } else { OthersGoOn(s, p, held); }
  }

  // ---- Reaping, clock and attribute ----

  /** Reaping takes the child out of its owner's map, adds up the times and changes nothing else. */
  lemma ReapEffect(s: State, owner: Pid, child: Pid)
    requires Reachable(s) && Enabled(s, Reap(owner, child))
    ensures var s' := Apply(s, Reap(owner, child));
            && child in s.procs && owner != child && OnlyThese(s, s', {owner, child})
            && s'.procs[child] == s.procs[child].(reaped := true) && s'.table == s.table - {child}
            && var o, c := s.procs[owner], s.procs[child];
               s'.procs[owner] == o.(
                 children := Some(o.children.value - {child}),
                 reapedCpu := Cpu(o.reapedCpu.user + c.cpu.user + c.reapedCpu.user,
                                  o.reapedCpu.kernel + c.cpu.kernel + c.reapedCpu.kernel))
  {
    ReachableInv(s);
    ReapHolds(s, owner, child);
  }

  /** A tick in the kernel is one unit of kernel time of that process, one outside of user time. */
  lemma TickEffect(s: State, p: Pid, inKernel: bool)
    requires Enabled(s, Tick(p, inKernel))
    ensures var s', c := Apply(s, Tick(p, inKernel)), s.procs[p].cpu;
            && OnlyThese(s, s', {p})
            && s'.procs[p] == s.procs[p].(
                 cpu := if inKernel then Cpu(c.user, c.kernel + 1) else Cpu(c.user + 1, c.kernel))
  {
  }

  /** The flags of `p` are as they were, but for the one a step may be about. */
  ghost predicate SameFlags(s: State, s': State, p: Pid, attribute: bool, mark: bool) {
    && p in s.procs && p in s'.procs
    && (!attribute ==> s'.procs[p].isSubreaper == s.procs[p].isSubreaper)
    && (!mark ==> s'.procs[p].hasSubreaper == s.procs[p].hasSubreaper)
  }

  lemma MoveKeepsFlags(s: State, q: Pid, held: bool, p: Pid)
    requires Inv(s) && Enabled(s, ExitAdvance(q, held)) && p in s.procs
    ensures SameFlags(s, DoExit(s, q, held), p, false, false)
  {
    if Moves(s, ExitAdvance(q, held), q) {
      assert ProcOk(s, q) && ProcOk(s, INIT);
    } else {
      ExitOnlyPhase(s, q, held);
    }
  }

  lemma LinkKeepsFlags(s: State, t: nat, p: Pid)
    requires Inv(s) && Enabled(s, CloneLink(t)) && p in s.procs
    ensures SameFlags(s, DoCloneLink(s, t), p, false, false)
  {
    assert ClonerOk(s, t);
  }

  lemma ReapKeepsFlags(s: State, owner: Pid, child: Pid, p: Pid)
    requires Inv(s) && Enabled(s, Reap(owner, child)) && p in s.procs
    ensures SameFlags(s, DoReap(s, owner, child), p, false, false)
  {
    ReapHolds(s, owner, child);
  }

  /** No step but setting it changes the attribute of a process, and none but marking its mark. */
  lemma StepKeepsFlags(s: State, step: Step, p: Pid)
    requires Inv(s) && Enabled(s, step) && p in s.procs
    ensures SameFlags(s, Apply(s, step), p, step.SetSubreaper? && step.p == p, step.Mark? && step.p == p)
  {
    match step
    case CloneLink(t) => LinkKeepsFlags(s, t, p);
    case ExitAdvance(q, held) => MoveKeepsFlags(s, q, held, p);
    case Reap(owner, child) => ReapKeepsFlags(s, owner, child, p);
    case _ =>
  }

  lemma StepOfRun(states: seq<State>, steps: seq<Step>, i: nat)
    requires IsRun(states, steps) && i < |steps|
    ensures Inv(states[i]) && Enabled(states[i], steps[i]) && states[i + 1] == Apply(states[i], steps[i])
  {
    RunKeepsInv(states, steps, i);
  }

  lemma {:induction false} AttributeStays(states: seq<State>, steps: seq<Step>, j: nat, n: nat, p: Pid, on: bool)
    requires IsRun(states, steps) && j < n <= |steps| && steps[j] == SetSubreaper(p, on)
    requires forall k :: j < k < n ==> !(steps[k].SetSubreaper? && steps[k].p == p)
    ensures p in states[n].procs && states[n].procs[p].isSubreaper == on
    decreases n
  {
    StepOfRun(states, steps, n - 1);
    if j < n - 1 {
      AttributeStays(states, steps, j, n - 1, p, on);
      StepKeepsFlags(states[n - 1], steps[n - 1], p);
    }
  }

  lemma {:induction false} NotSelected(s: State, p: Pid, a: Pid)
    requires p in s.procs && !s.procs[p].isSubreaper && p != INIT
    ensures Nearest(s, a) != p && Shortcut(s, a) != p
    decreases a
  {
    if a in s.procs && s.procs[a].parent < a { NotSelected(s, p, s.procs[a].parent); }
  }

  /**
   Over every run a process is a subreaper from one setting of its attribute to the next
   exactly if it was set; while it is unset no search selects the process, unless it is init.
   */
  lemma AttributeLasts(states: seq<State>, steps: seq<Step>, j: nat, n: nat, p: Pid, on: bool)
    requires IsRun(states, steps) && j < n <= |steps| && steps[j] == SetSubreaper(p, on)
    requires forall k :: j < k < n ==> !(steps[k].SetSubreaper? && steps[k].p == p)
    ensures p in states[n].procs && states[n].procs[p].isSubreaper == on
    ensures !on && p != INIT ==> forall a :: Nearest(states[n], a) != p && Shortcut(states[n], a) != p
  {
    AttributeStays(states, steps, j, n, p, on);
    if !on && p != INIT {
      forall a ensures Nearest(states[n], a) != p && Shortcut(states[n], a) != p { NotSelected(states[n], p, a); }
    }
  }
}
