/**
 ECHILD is answered only when there is nobody to wait for: the answer of a scan that holds
 the children lock is about the children it ends with, and about the tracees looked at
 before it.
 */
module WaitAnswers {
  import opened Prelude
  import opened ProcessTree
  import opened WaitProtocol
  import opened WaitInvariant

  /** A scan that has met a matching child remembers it. */
  ghost predicate SeenOk(s: Sys, w: nat) {
    w in s.waiters && s.waiters[w].pc.Scanning? ==>
      forall c :: c in s.waiters[w].pc.seen && Matches(s.waiters[w].filter, c) ==> s.waiters[w].pc.matched
  }

  ghost predicate SeenInv(s: Sys) {
    forall w {:trigger SeenOk(s, w)} :: SeenOk(s, w)
  }

  /** Scans in progress go on as they were. */
  ghost predicate ScansGoOn(s: Sys, s': Sys) {
    forall w :: w in s'.waiters && s'.waiters[w].pc.Scanning? ==>
      w in s.waiters && s'.waiters[w].pc == s.waiters[w].pc && s'.waiters[w].filter == s.waiters[w].filter
  }

  lemma GoingOnKeeps(s: Sys, s': Sys)
    requires SeenInv(s) && ScansGoOn(s, s')
    ensures SeenInv(s')
  {
    forall w ensures SeenOk(s', w) { assert SeenOk(s, w); }
  }

  lemma TreeGoesOn(s: Sys, step: Step)
    ensures ScansGoOn(s, DoTree(s, step))
  {
  }

  lemma TraceeFoundGoesOn(s: Sys, w: nat, z: Pid)
    requires w in s.waiters
    ensures ScansGoOn(s, DoTraceeFound(s, w, s.waiters[w], z))
  {
  }

  lemma DetachedGoesOn(s: Sys, w: nat, z: Pid, held: bool)
    requires w in s.waiters
    ensures ScansGoOn(s, DoDetached(s, w, s.waiters[w], z, held))
  {
  }

  lemma OurChildGoesOn(s: Sys, w: nat, z: Pid)
    requires w in s.waiters
    ensures ScansGoOn(s, DoOurChild(s, w, s.waiters[w], z))
  {
  }

  lemma MovesGoOn(s: Sys, step: WStep)
    requires WEnabled(s, step) && !step.LockChildren? && (OnlyMoves(step) || step.WaitStart?)
    ensures ScansGoOn(s, WApply(s, step))
  {
    if step.TraceesNone? || step.ScanDone? || step.EnqueueSelf? {
      assert forall u :: u in s.waiters && u != step.w ==> WApply(s, step).waiters[u] == s.waiters[u];
    }
  }

  lemma ScanKeepsSeen(s: Sys, w: nat, c: Pid)
    requires SeenInv(s) && w in s.waiters && s.waiters[w].pc.Scanning?
    ensures SeenInv(DoScanChild(s, w, s.waiters[w], c))
  {
    forall u ensures SeenOk(DoScanChild(s, w, s.waiters[w], c), u) { assert SeenOk(s, u) && SeenOk(s, w); }
  }

  lemma StepKeepsSeen(s: Sys, step: WStep)
    requires SeenInv(s) && WEnabled(s, step)
    ensures SeenInv(WApply(s, step))
  {
    match step
    case TreeStep(ts) =>
      TreeGoesOn(s, ts);
      GoingOnKeeps(s, DoTree(s, ts));
    case ScanChild(w, c) => ScanKeepsSeen(s, w, c);
    case LockChildren(w) =>
      forall u ensures SeenOk(WApply(s, step), u) { assert SeenOk(s, u); }
    case Attach(_, _) => GoingOnKeeps(s, WApply(s, step));
    case ClearTracees(_) => GoingOnKeeps(s, WApply(s, step));
    case TraceeFound(w, z) =>
      TraceeFoundGoesOn(s, w, z);
      GoingOnKeeps(s, WApply(s, step));
    case DetachedNext(w, held) =>
      DetachedGoesOn(s, w, s.waiters[w].pc.subject, held);
      GoingOnKeeps(s, WApply(s, step));
    case ReapOurChild(w) =>
      OurChildGoesOn(s, w, s.waiters[w].pc.subject);
      GoingOnKeeps(s, WApply(s, step));
    case _ =>
      MovesGoOn(s, step);
      GoingOnKeeps(s, WApply(s, step));
  }

  lemma {:induction false} RunKeepsSeen(states: seq<Sys>, steps: seq<WStep>, i: nat)
    requires IsWRun(states, steps) && i < |states|
    ensures SeenInv(states[i])
  {
    if i > 0 {
      RunKeepsSeen(states, steps, i - 1);
      assert WNext(states[i - 1], steps[i - 1], states[i]);
      StepKeepsSeen(states[i - 1], steps[i - 1]);
    }
  }

  // ---- Tracees ----

  /** The evaluation has not met a matching tracee, nor so far a matching child. */
  predicate Unmatched(pc: WaitPc) {
    (pc.Children? || pc.Scanning?) && !pc.matched
  }

  predicate SameWait(a: Waiter, b: Waiter) {
    a.owner == b.owner && a.filter == b.filter && a.isTracer == b.isTracer
  }

  /** The thread that waits as `wt` does looks through its tracees here and none matches. */
  ghost predicate Vain(s: Sys, step: WStep, w: nat, wt: Waiter) {
    && step == TraceesNone(w) && w in s.waiters && SameWait(s.waiters[w], wt)
    && forall z :: z in s.tracer && s.tracer[z] == wt.owner && wt.isTracer ==>
         wt.filter.OnlyChild? && wt.filter.pid != z
  }

  /** An evaluation without a match in `s'` was one in `s`, or has just looked at its tracees. */
  ghost predicate Comes(s: Sys, step: WStep, s': Sys, w: nat) {
    w in s'.waiters && Unmatched(s'.waiters[w].pc) ==>
      || Vain(s, step, w, s'.waiters[w])
      || (w in s.waiters && Unmatched(s.waiters[w].pc) && SameWait(s.waiters[w], s'.waiters[w]))
  }

  lemma TreeComes(s: Sys, ts: Step, w: nat)
    ensures Comes(s, TreeStep(ts), DoTree(s, ts), w)
  {
  }

  lemma TraceeFoundComes(s: Sys, u: nat, z: Pid, w: nat)
    requires u in s.waiters
    ensures Comes(s, TraceeFound(u, z), DoTraceeFound(s, u, s.waiters[u], z), w)
  {
  }

  lemma TraceesNoneComes(s: Sys, u: nat, w: nat)
    requires WEnabled(s, TraceesNone(u))
    ensures Comes(s, TraceesNone(u), WApply(s, TraceesNone(u)), w)
  {
  }

  lemma DetachedComes(s: Sys, u: nat, z: Pid, held: bool, w: nat)
    requires u in s.waiters
    ensures Comes(s, DetachedNext(u, held), DoDetached(s, u, s.waiters[u], z, held), w)
  {
  }

  lemma OurChildComes(s: Sys, u: nat, z: Pid, w: nat)
    requires u in s.waiters
    ensures Comes(s, ReapOurChild(u), DoOurChild(s, u, s.waiters[u], z), w)
  {
  }

  lemma ScanComes(s: Sys, step: WStep, w: nat)
    requires WEnabled(s, step) && (step.LockChildren? || step.ScanChild? || step.ScanDone?)
    ensures Comes(s, step, WApply(s, step), w)
  {
  }

  lemma UnmatchedComes(s: Sys, step: WStep, w: nat)
    requires WEnabled(s, step)
    ensures Comes(s, step, WApply(s, step), w)
  {
    match step
    case TreeStep(ts) => TreeComes(s, ts, w);
    case TraceeFound(u, z) => TraceeFoundComes(s, u, z, w);
    case TraceesNone(u) => TraceesNoneComes(s, u, w);
    case DetachedNext(u, held) => DetachedComes(s, u, s.waiters[u].pc.subject, held, w);
    case ReapOurChild(u) => OurChildComes(s, u, s.waiters[u].pc.subject, w);
    case LockChildren(_) => ScanComes(s, step, w);
    case ScanChild(_, _) => ScanComes(s, step, w);
    case ScanDone(_) => ScanComes(s, step, w);
    case _ =>
  }

  /** Since the vain look at step `j` the thread has been in that same evaluation, without a match. */
  ghost predicate VainSince(states: seq<Sys>, steps: seq<WStep>, j: nat, n: nat, w: nat)
    requires |states| == |steps| + 1 && j < n <= |steps| && w in states[n].waiters
  {
    && Vain(states[j], steps[j], w, states[n].waiters[w])
    && forall k :: j < k <= n ==> w in states[k].waiters && Unmatched(states[k].waiters[w].pc)
  }

  lemma {:induction false} UnmatchedLooked(states: seq<Sys>, steps: seq<WStep>, n: nat, w: nat)
    requires IsWRun(states, steps) && n <= |steps|
    requires w in states[n].waiters && Unmatched(states[n].waiters[w].pc)
    ensures exists j :: 0 <= j < n && VainSince(states, steps, j, n, w)
  {
    if n > 0 {
      assert WNext(states[n - 1], steps[n - 1], states[n]);
      UnmatchedComes(states[n - 1], steps[n - 1], w);
      if Vain(states[n - 1], steps[n - 1], w, states[n].waiters[w]) {
        assert VainSince(states, steps, n - 1, n, w);
      } else {
        UnmatchedLooked(states, steps, n - 1, w);
        var j :| 0 <= j < n - 1 && VainSince(states, steps, j, n - 1, w);
        assert VainSince(states, steps, j, n, w);
      }
    }
  }

  // ---- Reasons to go on ----

  /** The step shows the thread a tracee, or a child, that it waits for. */
  ghost predicate Shows(s: Sys, step: WStep, w: nat, wt: Waiter) {
    && w in s.waiters && SameWait(s.waiters[w], wt)
    && (|| (step == TraceesNone(w) && wt.isTracer
            && exists z :: z in s.tracer && s.tracer[z] == wt.owner
                           && (wt.filter == AnyChild || wt.filter == OnlyChild(z)))
        || (step.ScanChild? && step.w == w && Holds(s.tree, wt.owner, step.c)
            && (wt.filter == AnyChild || wt.filter == OnlyChild(step.c))))
  }

  predicate HasMatch(pc: WaitPc) {
    (pc.Children? || pc.Scanning?) && pc.matched
  }

  ghost predicate MatchComes(s: Sys, step: WStep, s': Sys, w: nat) {
    w in s'.waiters && HasMatch(s'.waiters[w].pc) ==>
      || Shows(s, step, w, s'.waiters[w])
      || (w in s.waiters && HasMatch(s.waiters[w].pc) && SameWait(s.waiters[w], s'.waiters[w]))
  }

  lemma TreeMatchComes(s: Sys, ts: Step, w: nat)
    ensures MatchComes(s, TreeStep(ts), DoTree(s, ts), w)
  {
  }

  lemma FoundMatchComes(s: Sys, u: nat, z: Pid, w: nat)
    requires u in s.waiters
    ensures MatchComes(s, TraceeFound(u, z), DoTraceeFound(s, u, s.waiters[u], z), w)
  {
  }

  lemma NoneMatchComes(s: Sys, u: nat, w: nat)
    requires WEnabled(s, TraceesNone(u))
    ensures MatchComes(s, TraceesNone(u), WApply(s, TraceesNone(u)), w)
  {
  }

  lemma DetachedMatchComes(s: Sys, u: nat, z: Pid, held: bool, w: nat)
    requires u in s.waiters
    ensures MatchComes(s, DetachedNext(u, held), DoDetached(s, u, s.waiters[u], z, held), w)
  {
  }

  lemma OurChildMatchComes(s: Sys, u: nat, z: Pid, w: nat)
    requires u in s.waiters
    ensures MatchComes(s, ReapOurChild(u), DoOurChild(s, u, s.waiters[u], z), w)
  {
  }

  lemma ScanMatchComes(s: Sys, step: WStep, w: nat)
    requires WEnabled(s, step) && (step.LockChildren? || step.ScanChild? || step.ScanDone?)
    ensures MatchComes(s, step, WApply(s, step), w)
  {
  }

  lemma StepMatchComes(s: Sys, step: WStep, w: nat)
    requires WEnabled(s, step)
    ensures MatchComes(s, step, WApply(s, step), w)
  {
    match step
    case TreeStep(ts) => TreeMatchComes(s, ts, w);
    case TraceeFound(u, z) => FoundMatchComes(s, u, z, w);
    case TraceesNone(u) => NoneMatchComes(s, u, w);
    case DetachedNext(u, held) => DetachedMatchComes(s, u, s.waiters[u].pc.subject, held, w);
    case ReapOurChild(u) => OurChildMatchComes(s, u, s.waiters[u].pc.subject, w);
    case LockChildren(_) => ScanMatchComes(s, step, w);
    case ScanChild(_, _) => ScanMatchComes(s, step, w);
    case ScanDone(_) => ScanMatchComes(s, step, w);
    case _ =>
  }

  /** Step `j` showed the thread what it waits for, and it has been in that evaluation since. */
  ghost predicate ShownSince(states: seq<Sys>, steps: seq<WStep>, j: nat, n: nat, w: nat)
    requires |states| == |steps| + 1 && j < n <= |steps| && w in states[n].waiters
  {
    && Shows(states[j], steps[j], w, states[n].waiters[w])
    && forall k :: j < k <= n ==> w in states[k].waiters && HasMatch(states[k].waiters[w].pc)
  }

  lemma {:induction false} MatchWasShown(states: seq<Sys>, steps: seq<WStep>, n: nat, w: nat)
    requires IsWRun(states, steps) && n <= |steps|
    requires w in states[n].waiters && HasMatch(states[n].waiters[w].pc)
    ensures exists j :: 0 <= j < n && ShownSince(states, steps, j, n, w)
  {
    if n > 0 {
      assert WNext(states[n - 1], steps[n - 1], states[n]);
      StepMatchComes(states[n - 1], steps[n - 1], w);
      if Shows(states[n - 1], steps[n - 1], w, states[n].waiters[w]) {
        assert ShownSince(states, steps, n - 1, n, w);
      } else {
        MatchWasShown(states, steps, n - 1, w);
        var j :| 0 <= j < n - 1 && ShownSince(states, steps, j, n - 1, w);
        assert ShownSince(states, steps, j, n, w);
      }
    }
  }

  // ---- The answer ----

  /** Nothing the filter lets through is a child of `owner`. */
  ghost predicate NothingToWaitFor(s: Sys, owner: Pid, filter: Filter) {
    match filter
    case AnyChild => At(s.tree, owner).children == Some({})
    case OnlyChild(pid) => At(s.tree, owner).children.Some? && pid !in At(s.tree, owner).children.value
  }

  lemma SeenNothing(s: Sys, w: nat)
    requires WEnabled(s, ScanDone(w)) && SeenOk(s, w) && !s.waiters[w].pc.matched
    ensures NothingToWaitFor(s, s.waiters[w].owner, s.waiters[w].filter)
  {
    var cs := At(s.tree, s.waiters[w].owner).children.value;
    assert forall c :: c in cs ==> s.waiters[w].filter.OnlyChild? && s.waiters[w].filter.pid != c;
    if s.waiters[w].filter.AnyChild? { assert cs == {}; }
  }

  /**
   In every run, a thread whose scan is complete either goes on waiting or is told ECHILD.
   The latter happens only if its process has no child at all, or not the one it waits for,
   and no such tracee when it looked through them in this evaluation.  It goes on only if
   this evaluation has shown it such a tracee or child, and sleeps if it has enqueued.
   */
  lemma NoChildMeansNone(states: seq<Sys>, steps: seq<WStep>, n: nat, w: nat)
    requires IsWRun(states, steps) && n <= |steps| && WEnabled(states[n], ScanDone(w))
    ensures var s' := WApply(states[n], ScanDone(w));
            var wt := states[n].waiters[w];
            if w in s'.waiters then
              && (exists j :: 0 <= j < n && ShownSince(states, steps, j, n, w))
              && s' == SetWaitPc(states[n], w, wt, if wt.pc.fast then Enqueue else Asleep)
            else
              && NothingToWaitFor(states[n], wt.owner, wt.filter)
              && (exists j :: 0 <= j < n && VainSince(states, steps, j, n, w))
              && s' == states[n].(waiters := states[n].waiters - {w})
  {
    RunKeepsSeen(states, steps, n);
    assert SeenOk(states[n], w);
    if states[n].waiters[w].pc.matched {
      MatchWasShown(states, steps, n, w);
    } else {
      UnmatchedLooked(states, steps, n, w);
      SeenNothing(states[n], w);
    }
  }
}
