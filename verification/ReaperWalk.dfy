/**
 The step-by-step reaper walk against the search it stands for: a walk that nobody disturbs
 ends at the process the search selects.
 */
module ReaperWalk {
  import opened ProcessTree
  import opened TreeInvariant
  import opened Subreaper

  /** Program counters play no part in the search. */
  lemma {:induction false} SearchIgnoresPc(s: State, p: Pid, pc: ExitPc, a: Pid)
    requires p in s.procs
    ensures Shortcut(SetPc(s, p, pc), a) == Shortcut(s, a)
    decreases a
  {
    if a in s.procs && s.procs[a].parent < a { SearchIgnoresPc(s, p, pc, s.procs[a].parent); }
  }

  /** What the walk has learned about the node it is at. */
  ghost predicate Learned(s: State, pos: Pid, phase: WalkPhase) {
    && pos in s.procs && !s.procs[pos].reaped
    && (!phase.Arrive? ==> s.procs[pos].parent != 0 && s.procs[pos].hasSubreaper)
    && (phase.ProbeZombie? ==> s.procs[pos].isSubreaper)
    && (phase.Climb? ==> !s.procs[pos].isSubreaper || s.procs[pos].zombie)
  }

  /** Where the search of `p` stands and where, undisturbed, it is bound to end. */
  ghost predicate BoundFor(s: State, p: Pid, pc: ExitPc, goal: Pid) {
    match pc
    case ReadingLink(_) => Shortcut(s, At(s, p).parent) == goal
    case Walking(pos, phase, _) => Learned(s, pos, phase) && Shortcut(s, pos) == goal
    case Moving(r, _, _) => r == goal
    case _ => false
  }

  lemma WalkKeepsGoal(s: State, p: Pid, pos: Pid, phase: WalkPhase, limit: nat, held: bool, goal: Pid)
    requires TreeOk(s) && BoundFor(s, p, Walking(pos, phase, limit), goal)
    ensures BoundFor(s, p, WalkPc(s, pos, phase, limit, held), goal)
  {
    assert ProcOk(s, pos);
    if pos != INIT { ParentIsOwned(s, pos); }
  }

  /** One step of an undisturbed search keeps its goal. */
  lemma SearchKeepsGoal(s: State, p: Pid, held: bool, goal: Pid)
    requires Inv(s) && p in s.procs && (s.procs[p].pc.ReadingLink? || s.procs[p].pc.Walking?)
    requires BoundFor(s, p, s.procs[p].pc, goal)
    ensures DoExit(s, p, held) == SetPc(s, p, NextPc(s, p, held)) && BoundFor(s, p, NextPc(s, p, held), goal)
  {
    assert ProcOk(s, p);
    ParentIsOwned(s, p);
    match s.procs[p].pc
    case ReadingLink(_) => assert !s.procs[s.procs[p].parent].reaped;
    case Walking(pos, phase, limit) => WalkKeepsGoal(s, p, pos, phase, limit, held, goal);
  }

  lemma GoalIgnoresPc(s: State, p: Pid, pc: ExitPc, pc': ExitPc, goal: Pid)
    requires p in s.procs && BoundFor(s, p, pc', goal)
    ensures BoundFor(SetPc(s, p, pc), p, pc', goal)
  {
    match pc'
    case ReadingLink(_) => SearchIgnoresPc(s, p, pc, At(s, p).parent);
    case Walking(pos, _, _) => SearchIgnoresPc(s, p, pc, pos);
    case _ =>
  }

  /** The steps from `i` to `j` are all steps of `p`'s search, none of them the hand-over. */
  ghost predicate OwnSteps(states: seq<State>, steps: seq<Step>, p: Pid, i: nat, j: nat)
    requires |states| == |steps| + 1 && i <= j <= |steps|
  {
    forall k :: i <= k < j ==>
      steps[k].ExitAdvance? && steps[k].p == p
      && (At(states[k], p).pc.ReadingLink? || At(states[k], p).pc.Walking?)
  }

  lemma {:induction false} OwnStepsKeepGoal(states: seq<State>, steps: seq<Step>, p: Pid, i: nat, j: nat, goal: Pid)
    requires IsRun(states, steps) && i <= j <= |steps| && OwnSteps(states, steps, p, i, j) && p in states[i].procs
    requires BoundFor(states[i], p, states[i].procs[p].pc, goal)
    ensures p in states[j].procs && BoundFor(states[j], p, states[j].procs[p].pc, goal)
    decreases j
  {
    if i < j {
      OwnStepsKeepGoal(states, steps, p, i, j - 1, goal);
      RunKeepsInv(states, steps, j - 1);
      var s, held := states[j - 1], steps[j - 1].held;
      SearchKeepsGoal(s, p, held, goal);
      GoalIgnoresPc(s, p, NextPc(s, p, held), NextPc(s, p, held), goal);
    }
  }

  /**
   In any run, a search that reads its parent link and reaches the hand-over by its own
   steps alone has selected what the search as coded selects from there; with a closed mark
   that is the nearest live subreaper above, or init.
   */
  lemma UndisturbedWalkFindsNearest(states: seq<State>, steps: seq<Step>, p: Pid, i: nat, j: nat)
    requires IsRun(states, steps) && i <= j <= |steps| && OwnSteps(states, steps, p, i, j)
    requires p in states[i].procs && states[i].procs[p].pc.ReadingLink? && At(states[j], p).pc.Moving?
    ensures At(states[j], p).pc.reaper == Shortcut(states[i], states[i].procs[p].parent)
    ensures Closed(states[i]) ==> At(states[j], p).pc.reaper == Nearest(states[i], states[i].procs[p].parent)
  {
    var s := states[i];
    RunKeepsInv(states, steps, i);
    assert ProcOk(s, p);
    ParentIsOwned(s, p);
    OwnStepsKeepGoal(states, steps, p, i, j, Shortcut(s, s.procs[p].parent));
    if Closed(s) { ShortcutAgrees(s, s.procs[p].parent); }
  }
}
