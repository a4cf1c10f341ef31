/** What holds in every reachable state of the life-cycle machine, and over every run. */
module TreeTheorems {
  import opened ProcessTree
  import opened TreeInvariant
  import opened TreeProgress

  lemma {:induction false} RunKeepsLimits(states: seq<State>, steps: seq<Step>, i: nat)
    requires IsRun(states, steps) && i < |states|
    ensures LimitsOk(states[i])
  {
    if i > 0 {
      RunKeepsLimits(states, steps, i - 1);
      RunKeepsInv(states, steps, i - 1);
      StepKeepsLimits(states[i - 1], steps[i - 1]);
    }
  }

  lemma ReachableInv(s: State)
    requires Reachable(s)
    ensures Inv(s) && LimitsOk(s)
  {
    var states, steps :| IsRun(states, steps) && states[|steps|] == s;
    RunKeepsInv(states, steps, |steps|);
    RunKeepsLimits(states, steps, |steps|);
  }

  /**
   Ownership: every unreaped process except init is in exactly one children map, that of
   the process its parent link names; that owner is older, unreaped, still accepts
   children and, unless it is init, is not a zombie.
   */
  lemma ExactlyOneOwner(s: State, p: Pid)
    requires Reachable(s) && p in s.procs && p != INIT
    ensures var q := s.procs[p].parent;
            && q in s.procs && 0 < q < p
            && (forall o :: Holds(s, o, p) <==> !s.procs[p].reaped && o == q)
            && (!s.procs[p].reaped ==>
                  && !s.procs[q].reaped && s.procs[q].children.Some?
                  && (q == INIT || !s.procs[q].zombie))
  {
    ReachableInv(s);
    assert ProcOk(s, p);
    if !s.procs[p].reaped { ParentIsOwned(s, p); }
  }

  /** No unwrap, assertion or table precondition on the modelled paths can fail. */
  lemma NothingPanics(s: State, step: Step)
    requires Reachable(s) && Enabled(s, step)
    ensures !Apply(s, step).panicked
  {
    ReachableInv(s);
    StepKeepsInv(s, step);
  }

  /** The process slots of the PID table are the unreaped processes, and are counted right. */
  lemma TableTracksTree(s: State)
    requires Reachable(s)
    ensures s.table == set p | p in s.procs && !s.procs[p].reaped
    ensures s.processCount == |s.table|
    ensures forall p :: p in s.table ==> Owned(s, p)
  {
    ReachableInv(s);
    forall p | p in s.table ensures Owned(s, p) {
      assert ProcOk(s, p);
      if p != INIT { ParentIsOwned(s, p); }
    }
  }

  /**
   CLONE_PARENT: a caller that finds the real parent's children gone has by then a strictly
   older parent, so the loop turns fewer times than the caller's PID, whatever exits meanwhile.
   */
  lemma CloneParentTerminates(s: State, t: nat)
    requires Reachable(s) && t in s.cloners
    ensures s.cloners[t].retries < s.cloners[t].caller
    ensures Enabled(s, CloneLink(t)) && Apply(s, CloneLink(t)).cloners.Keys == s.cloners.Keys ==>
              && At(s, s.cloners[t].pc.target).children.None?
              && At(s, s.cloners[t].caller).parent < s.cloners[t].pc.target
              && At(s, At(s, s.cloners[t].caller).parent).children.Some?
  {
    ReachableInv(s);
    var c := s.cloners[t];
    assert ClonerOk(s, t) && ProcOk(s, c.caller);
    CallerIsOwned(s, t);
    if Enabled(s, CloneLink(t)) && Apply(s, CloneLink(t)).cloners.Keys == s.cloners.Keys {
      assert t in Apply(s, CloneLink(t)).cloners.Keys;
      if At(s, c.pc.target).children.Some? { CloneLinkHolds(s, t); } else { CloneRetryProgress(s, t); }
    }
  }

  // ---- The reaper walk ends ----

  /** The steps of one undisturbed walk from a process of age `p`. */
  function Round(p: Pid): nat { 4 * p + 4 }

  /** The steps of `n` such walks. */
  function Rounds(n: nat, p: Pid): nat {
    if n == 0 then 0 else Rounds(n - 1, p) + Round(p)
  }

  function PhaseRank(phase: WalkPhase): nat {
    match phase
    case Arrive => 3
    case ProbeSubreaper => 2
    case ProbeZombie => 1
    case Climb => 0
  }

  function WalkBound(p: Pid): nat { Rounds(LinkCap(p) + 1, p) }

  /** How many more steps `p`'s search for a reaper can take. */
  function Potential(p: Pid, pc: ExitPc): nat {
    match pc
    case Running => WalkBound(p)
    case ClearingTracees => WalkBound(p)
    case WakingTracer => WalkBound(p)
    case ReadingLink(limit) => Rounds(limit, p)
    case Walking(pos, phase, limit) => Rounds(limit, p) + 4 * pos + PhaseRank(phase)
    case Moving(_, _, limit) => Rounds(limit, p) + 1
    case _ => 0
  }

  predicate Searching(pc: ExitPc) {
    pc.ReadingLink? || pc.Walking? || pc.Moving?
  }

  lemma {:induction false} RoundsApart(a: nat, b: nat, p: Pid)
    requires a < b
    ensures Rounds(a, p) + Round(p) <= Rounds(b, p)
  {
    if a < b - 1 { RoundsApart(a, b - 1, p); }
  }

  lemma OnwardPays(p: Pid, pos: Pid, phase: WalkPhase, limit: nat, up: Pid, pc: ExitPc)
    requires 0 < pos && up < pos && Onward(pos, phase, limit, up, pc)
    ensures Potential(p, pc) < Potential(p, Walking(pos, phase, limit))
  {
  }

  lemma MovePc(s: State, p: Pid, r: Pid, fallback: bool, limit: nat)
    requires p in s.procs && s.procs[p].children.Some?
    requires fallback ==> r in s.table && At(s, r).children.Some?
    ensures At(DoMove(s, p, r, fallback, limit), p).pc
            == if At(s, r).children.Some? then WakingReaper(r) else ReadingLink(limit)
  {
  }

  /** Each own step of the search lowers the potential. */
  lemma SearchStepPays(s: State, p: Pid, held: bool)
    requires Inv(s) && LimitsOk(s) && p in s.procs && Searching(s.procs[p].pc)
    ensures Potential(p, At(DoExit(s, p, held), p).pc) < Potential(p, s.procs[p].pc)
  {
    assert ProcOk(s, p) && ProcOk(s, INIT) && LimitOk(s, p);
    match s.procs[p].pc
    case ReadingLink(limit) =>
      ParentIsOwned(s, p);
      RoundsApart(LinkSum(s, p), limit, p);
    case Walking(pos, phase, limit) =>
      assert ProcOk(s, pos);
      WalkGoesOnward(s, pos, phase, limit, held);
      OnwardPays(p, pos, phase, limit, s.procs[pos].parent, WalkPc(s, pos, phase, limit, held));
    case Moving(r, fallback, limit) => MovePc(s, p, r, fallback, limit);
  }

  /** The potential of `p`; a process that does not exist yet has its whole search ahead. */
  function PotentialIn(s: State, p: Pid): nat {
    Potential(p, if p in s.procs then s.procs[p].pc else Running)
  }

  lemma SearchStartFits(s: State, p: Pid)
    requires TreeOk(s)
    ensures Rounds(LinkSum(s, p) + 1, p) <= WalkBound(p)
  {
    LinkSumBound(s, p);
    if LinkSum(s, p) < LinkCap(p) { RoundsApart(LinkSum(s, p) + 1, LinkCap(p) + 1, p); }
  }

  /** The exit steps around the search leave it fully ahead, start it or leave it behind. */
  lemma StepsAroundSearch(s: State, p: Pid, held: bool)
    requires p in s.procs && !Searching(s.procs[p].pc) && !s.procs[p].pc.Running?
    ensures var pc' := NextPc(s, p, held);
            match s.procs[p].pc
            case ClearingTracees => pc' == WakingTracer
            case WakingTracer => pc' == HandedOver || pc' == ReadingLink(LinkSum(s, p) + 1)
            case _ => pc'.HandedOver? || pc'.ReadingParent? || pc'.WakingParent? || pc'.Exited?
  {
  }

  lemma AroundSearchPc(s: State, p: Pid, held: bool)
    requires p in s.procs && !Searching(s.procs[p].pc)
    ensures At(DoExit(s, p, held), p).pc
            == if s.procs[p].pc.HandedOver? then ReadingParent else NextPc(s, p, held)
  {
  }

  lemma OwnStepPays(s: State, p: Pid, held: bool)
    requires Inv(s) && LimitsOk(s) && p in s.procs && !s.procs[p].pc.Running?
    ensures PotentialIn(DoExit(s, p, held), p)
            + (if Searching(s.procs[p].pc) then 1 else 0) <= PotentialIn(s, p)
  {
    ExitStepShape(s, p, held);
    if Searching(s.procs[p].pc) {
      SearchStepPays(s, p, held);
    } else {
      AroundSearchPc(s, p, held);
      StepsAroundSearch(s, p, held);
      SearchStartFits(s, p);
    }
  }

  /** No step of another process raises the potential of `p`. */
  lemma OtherStepsAreFree(s: State, step: Step, p: Pid)
    requires Inv(s) && Enabled(s, step) && !(step.ExitAdvance? && step.p == p)
    ensures PotentialIn(Apply(s, step), p) <= PotentialIn(s, p)
  {
    if step.ExitAdvance? { ExitStepShape(s, step.p, step.held); } else { StepShape(s, step); }
  }

  /** How many of the first `n` steps of a run are steps of `p`'s search for a reaper. */
  ghost function SearchSteps(states: seq<State>, steps: seq<Step>, p: Pid, n: nat): nat
    requires |states| == |steps| + 1 && n <= |steps|
  {
    if n == 0 then 0 else
    SearchSteps(states, steps, p, n - 1)
    + (if steps[n - 1].ExitAdvance? && steps[n - 1].p == p && Searching(At(states[n - 1], p).pc) then 1 else 0)
  }

  lemma {:induction false} SearchBudget(states: seq<State>, steps: seq<Step>, p: Pid, n: nat)
    requires IsRun(states, steps) && n <= |steps|
    ensures SearchSteps(states, steps, p, n) + PotentialIn(states[n], p) <= WalkBound(p)
  {
    if n > 0 {
      SearchBudget(states, steps, p, n - 1);
      RunKeepsInv(states, steps, n - 1);
      RunKeepsLimits(states, steps, n - 1);
      var step := steps[n - 1];
      if step.ExitAdvance? && step.p == p {
        OwnStepPays(states[n - 1], p, step.held);
      } else {
        OtherStepsAreFree(states[n - 1], step, p);
      }
    }
  }

  /**
   Over any run, whatever the interleaving, the search of `p` for a reaper takes a bounded
   number of steps, restarts and failed hand-overs included.
   */
  lemma ReaperSearchTerminates(states: seq<State>, steps: seq<Step>, p: Pid)
    requires IsRun(states, steps)
    ensures SearchSteps(states, steps, p, |steps|) <= WalkBound(p)
  {
    SearchBudget(states, steps, p, |steps|);
  }

  // ---- The two nested children locks ----

  lemma {:induction false} Youngest(ms: set<Pid>) returns (m: Pid)
    requires ms != {}
    ensures m in ms && forall n :: n in ms ==> n <= m
  {
    var x :| x in ms;
    if ms == {x} {
      m := x;
    } else {
      var y := Youngest(ms - {x});
      m := if x < y then y else x;
      assert forall n :: n in ms ==> n == x || n in ms - {x};
    }
  }

  /**
   A hand-over locks the reaper's children and then its own.  Among any processes that are
   at that point, one has its own children locked by none of the others, so they never
   wait for each other in a circle.
   */
  lemma NoLockCycle(s: State, movers: set<Pid>)
    requires Reachable(s) && movers != {}
    requires forall m :: m in movers ==> m in s.procs && s.procs[m].pc.Moving?
    ensures exists m :: m in movers && forall n :: n in movers ==> s.procs[n].pc.reaper != m
  {
    ReachableInv(s);
    var m := Youngest(movers);
    forall n | n in movers ensures s.procs[n].pc.reaper != m {
      assert ProcOk(s, n);
    }
  }
}
