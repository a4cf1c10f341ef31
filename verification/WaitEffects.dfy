/**
 What the steps of `wait` and of departing tracers do: whom a wait with a filter reports and
 reaps, what a wait that does not consume leaves behind, whom a wake reaches, and which
 tracees are let go.
 */
module WaitEffects {
  import opened ProcessTree
  import opened TreeInvariant
  import opened WaitProtocol
  import opened WaitReports

  // ---- The terms of a wait ----

  /** Step `k` began the wait of `w` on these terms, and it has been waiting ever since. */
  ghost predicate BeganAs(states: seq<Sys>, steps: seq<WStep>, k: nat, n: nat, w: nat, wt: Waiter)
    requires |states| == |steps| + 1 && k < n <= |steps|
  {
    && steps[k] == WaitStart(w, wt.owner, wt.filter, wt.isTracer, wt.consume)
    && forall j :: k < j <= n ==> w in states[j].waiters
  }

  ghost predicate SameTerms(s: Sys, step: WStep, s': Sys, w: nat) {
    w in s'.waiters ==>
      var wt := s'.waiters[w];
      || step == WaitStart(w, wt.owner, wt.filter, wt.isTracer, wt.consume)
      || (w in s.waiters && s.waiters[w].owner == wt.owner && s.waiters[w].filter == wt.filter
          && s.waiters[w].isTracer == wt.isTracer && s.waiters[w].consume == wt.consume)
  }

  lemma TreeKeepsTerms(s: Sys, ts: Step, w: nat)
    ensures SameTerms(s, TreeStep(ts), DoTree(s, ts), w)
  {
  }

  lemma DetachedKeepsTerms(s: Sys, u: nat, z: Pid, held: bool, w: nat)
    requires u in s.waiters
    ensures SameTerms(s, DetachedNext(u, held), DoDetached(s, u, s.waiters[u], z, held), w)
  {
  }

  lemma OthersKeepTerms(s: Sys, step: WStep, w: nat)
    requires WEnabled(s, step) && !step.TreeStep? && !step.DetachedNext?
    ensures SameTerms(s, step, WApply(s, step), w)
  {
  }

  lemma {:induction false} TermsWereGiven(states: seq<Sys>, steps: seq<WStep>, n: nat, w: nat)
    requires IsWRun(states, steps) && n <= |steps| && w in states[n].waiters
    ensures exists k :: 0 <= k < n && BeganAs(states, steps, k, n, w, states[n].waiters[w])
  {
    if n > 0 {
      var step, wt := steps[n - 1], states[n].waiters[w];
      assert WNext(states[n - 1], step, states[n]);
      if step.TreeStep? {
        TreeKeepsTerms(states[n - 1], step.step, w);
      } else if step.DetachedNext? {
        DetachedKeepsTerms(states[n - 1], step.w, states[n - 1].waiters[step.w].pc.subject, step.held, w);
      } else {
        OthersKeepTerms(states[n - 1], step, w);
      }
      if step == WaitStart(w, wt.owner, wt.filter, wt.isTracer, wt.consume) {
        assert BeganAs(states, steps, n - 1, n, w, wt);
      } else {
        TermsWereGiven(states, steps, n - 1, w);
        var k :| 0 <= k < n - 1 && BeganAs(states, steps, k, n - 1, w, states[n - 1].waiters[w]);
        assert BeganAs(states, steps, k, n, w, wt);
      }
    }
  }

  // ---- Reports and reaping ----

  /**
   Over every run, a step that adds a report for a thread adds one, about the process in
   question, which is the one the filter names if it names one; filter and options are those
   the wait began with.
   */
  lemma ReportsFollowFilter(states: seq<Sys>, steps: seq<WStep>, i: nat, w: nat, p: Pid)
    requires IsWRun(states, steps) && i < |steps| && (steps[i] == ScanChild(w, p) || steps[i] == TraceeFound(w, p))
    requires states[i + 1].reports != states[i].reports
    ensures w in states[i].waiters && |states[i + 1].reports| == |states[i].reports| + 1
    ensures var wt, r := states[i].waiters[w], states[i + 1].reports[|states[i].reports|];
            && states[i + 1].reports == states[i].reports + [r]
            && r.subject == p && r.audience == wt.owner && (r.TraceeExit? <==> steps[i].TraceeFound?)
            && (wt.filter == AnyChild || wt.filter == OnlyChild(p)) && wt.consume
            && (r.TraceeExit? ==> (r.wasParent <==> At(states[i].tree, p).parent == wt.owner))
            && exists k :: 0 <= k < i && BeganAs(states, steps, k, i, w, wt)
  {
    assert WNext(states[i], steps[i], states[i + 1]);
    TermsWereGiven(states, steps, i, w);
  }

  /** No other step reports anything. */
  lemma OthersReportNothing(s: Sys, step: WStep)
    requires WEnabled(s, step) && !step.ScanChild? && !step.TraceeFound?
    ensures WApply(s, step).reports == s.reports
  {
  }

  predicate Ready(s: Sys, wt: Waiter, c: Pid) {
    At(s.tree, c).zombie && c in s.tree.procs && c !in s.tracer && (wt.filter == AnyChild || wt.filter == OnlyChild(c))
  }

  /**
   Coming to an untraced zombie child that its filter lets through ends a wait, and reaps and
   reports the child if the wait consumes; any other child is passed over.
   */
  lemma ScanEndsExactly(s: Sys, w: nat, c: Pid)
    requires WReachable(s) && WEnabled(s, ScanChild(w, c))
    ensures var s', wt := WApply(s, ScanChild(w, c)), s.waiters[w];
            && (w !in s'.waiters <==> Ready(s, wt, c))
            && (forall u :: u != w ==> (u in s'.waiters <==> u in s.waiters))
            && (forall u :: u != w && u in s.waiters ==> s'.waiters[u] == s.waiters[u])
            && (if Ready(s, wt, c) && wt.consume then
                  && At(s'.tree, c).reaped && !Holds(s'.tree, wt.owner, c)
                  && s'.reports == s.reports + [ZombieChild(wt.owner, c)]
                else
                  s'.tree == s.tree && s'.reports == s.reports)
            && s'.tracer == s.tracer && !s'.broken
  {
    var states, steps :| IsWRun(states, steps) && states[|steps|] == s;
    RunKeepsReports(states, steps, |steps|);
    if Ready(s, s.waiters[w], c) && s.waiters[w].consume {
      ReapHolds(s.tree, s.waiters[w].owner, c);
    }
  }

  /**
   A thread finds an exited tracee of its own exactly if the filter lets it through; a wait
   that consumes detaches it and reports its end, one that does not leaves at once.
   */
  lemma TraceeFoundExactly(s: Sys, w: nat, z: Pid)
    requires !s.broken && !s.tree.panicked && w in s.waiters && s.waiters[w].pc.Tracees?
    ensures var wt := s.waiters[w];
            WEnabled(s, TraceeFound(w, z)) <==>
            && wt.isTracer && z in s.tracer && s.tracer[z] == wt.owner && z in s.tree.procs && s.tree.procs[z].zombie
            && (wt.filter == AnyChild || wt.filter == OnlyChild(z))
    ensures WEnabled(s, TraceeFound(w, z)) ==>
              var s', wt := WApply(s, TraceeFound(w, z)), s.waiters[w];
              && s'.tree == s.tree && (w in s'.waiters <==> wt.consume)
              && s'.tracer == (if wt.consume then s.tracer - {z} else s.tracer)
  {
  }

  /** A thread that does not consume changes neither processes nor tracees nor reports. */
  lemma LookingLeavesNoTrace(s: Sys, step: WStep, w: nat)
    requires WEnabled(s, step) && w in s.waiters && !s.waiters[w].consume
    requires step == TraceesNone(w) || step == LockChildren(w) || step == ScanDone(w) || step == EnqueueSelf(w)
             || step == WakeUp(w) || step == GiveUp(w) || (step.ScanChild? && step.w == w)
             || (step.TraceeFound? && step.w == w)
    ensures var s' := WApply(s, step);
            s'.tree == s.tree && s'.tracer == s.tracer && s'.reports == s.reports && s'.silent == s.silent
  {
  }

  // ---- Wakes ----

  /** The process whose waiting threads the step is to wake, if any. */
  ghost predicate Notifies(s: Sys, step: WStep, q: Pid) {
    if step.TreeStep? then
      && step.step.ExitAdvance? && step.step.p in s.tree.procs
      && match s.tree.procs[step.step.p].pc
         case WakingTracer => step.step.p in s.tracer && s.tracer[step.step.p] == q
         case WakingReaper(r) => r == q
         case WakingParent(target) => target == q
         case _ => false
    else
      step.WakeOwner? && step.w in s.waiters && s.waiters[step.w].pc.WakingOwner?
      && s.waiters[step.w].pc.target == q
  }

  /**
   A wake reaches exactly the queued threads of the process it is for: a step wakes a thread
   if it notifies the thread's process and the thread is queued, and otherwise does not.
   */
  lemma WakesReachExactly(s: Sys, step: WStep, w: nat)
    requires WEnabled(s, step) && w in s.waiters && w in WApply(s, step).waiters && !s.waiters[w].woken
    ensures WApply(s, step).waiters[w].woken <==> s.waiters[w].queued && Notifies(s, step, s.waiters[w].owner)
  {
    match step
    case TreeStep(ts) => TreeWakesExactly(s, ts, w);
    case WakeOwner(u) => OwnerWakesExactly(s, u, w);
    case _ => OthersWakeNobody(s, step, w);
  }

  lemma TreeWakesExactly(s: Sys, ts: Step, w: nat)
    requires Enabled(s.tree, ts) && w in s.waiters && !s.waiters[w].woken
    ensures w in DoTree(s, ts).waiters
    ensures DoTree(s, ts).waiters[w].woken <==> s.waiters[w].queued && Notifies(s, TreeStep(ts), s.waiters[w].owner)
  {
  }

  lemma OwnerWakesExactly(s: Sys, u: nat, w: nat)
    requires WEnabled(s, WakeOwner(u)) && w in s.waiters && w != u && !s.waiters[w].woken
    ensures var s' := WApply(s, WakeOwner(u));
            && w in s'.waiters
            && (s'.waiters[w].woken <==> s.waiters[w].queued && s.waiters[w].owner == s.waiters[u].pc.target)
  {
  }

  lemma OthersWakeNobody(s: Sys, step: WStep, w: nat)
    requires WEnabled(s, step) && !step.TreeStep? && !step.WakeOwner?
    requires w in s.waiters && w in WApply(s, step).waiters && !s.waiters[w].woken
    ensures !WApply(s, step).waiters[w].woken
  {
  }

  // ---- Tracees ----

  /** A departing tracer lets go of exactly its own tracees, and attaching adds exactly one. */
  lemma TraceesChangeExactly(s: Sys, t: Pid, z: Pid)
    ensures WEnabled(s, ClearTracees(t)) ==>
              var s' := WApply(s, ClearTracees(t));
              && (z in s'.tracer <==> z in s.tracer && s.tracer[z] != t)
              && (z in s'.tracer ==> s'.tracer[z] == s.tracer[z])
              && s'.tree == s.tree && s'.waiters == s.waiters && s'.reports == s.reports
    ensures WEnabled(s, Attach(z, t)) ==> WApply(s, Attach(z, t)) == s.(tracer := s.tracer[z := t])
  {
  }

  /** An exiting process lets go of its tracees when it starts, and of nobody else's. */
  lemma ExitLetsTraceesGo(s: Sys, p: Pid, held: bool, z: Pid)
    requires WEnabled(s, TreeStep(ExitAdvance(p, held)))
    ensures var s' := WApply(s, TreeStep(ExitAdvance(p, held)));
            z in s'.tracer <==> z in s.tracer && !(s.tree.procs[p].pc.ClearingTracees? && s.tracer[z] == p)
  {
  }
}
