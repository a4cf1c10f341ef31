/**
 The end of a process is reported once per audience: at most once to a tracer and then at
 most once to the parent, never before the process is a zombie; and only once in all when
 the tracer is the parent, provided each process waits with one thread at a time.
 */
module WaitReports {
  import opened ProcessTree
  import opened TreeInvariant
  import opened TreeProgress
  import opened WaitProtocol
  import opened WaitInvariant

  /** A consuming wait has reported the end of `z` in the role of tracer, or of parent. */
  ghost predicate Reported(s: Sys, z: Pid, asTracer: bool) {
    exists i :: 0 <= i < |s.reports| && s.reports[i].subject == z && s.reports[i].TraceeExit? == asTracer
  }

  /** Two reports about one process: first the tracer's, then the parent's. */
  ghost predicate Ordered(reports: seq<Report>) {
    forall i, j :: 0 <= i < j < |reports| && reports[i].subject == reports[j].subject ==>
      reports[i].TraceeExit? && reports[j].ZombieChild?
  }

  ghost predicate SubjectOk(s: Sys, z: Pid) {
    && (Reported(s, z, true) ==> IsZombie(s, z) && z !in s.tracer)
    && (Reported(s, z, false) ==> IsZombie(s, z) && IsReaped(s, z) && z !in s.silent)
    && (z in s.silent ==> IsReaped(s, z) && Reported(s, z, true))
    && (IsReaped(s, z) ==> z in s.silent || Reported(s, z, false))
  }

  ghost predicate AttendedOk(s: Sys, w: nat) {
    w in s.waiters && (s.waiters[w].pc.Detached? || s.waiters[w].pc.OurChild?) ==>
      Reported(s, s.waiters[w].pc.subject, true)
  }

  ghost predicate ReportInv(s: Sys) {
    && Ordered(s.reports)
    && (forall z {:trigger SubjectOk(s, z)} :: SubjectOk(s, z))
    && (forall w {:trigger AttendedOk(s, w)} :: AttendedOk(s, w))
  }

  // ---- Logging ----

  lemma LogOne(s: Sys, s': Sys, r: Report)
    requires s'.reports == s.reports + [r]
    ensures forall z, b {:trigger Reported(s', z, b)} ::
              Reported(s', z, b) <==> Reported(s, z, b) || (z == r.subject && b == r.TraceeExit?)
  {
    forall z, b ensures Reported(s', z, b) <==> Reported(s, z, b) || (z == r.subject && b == r.TraceeExit?) {
      if Reported(s, z, b) {
        var i :| 0 <= i < |s.reports| && s.reports[i].subject == z && s.reports[i].TraceeExit? == b;
        assert s'.reports[i] == s.reports[i];
      }
      if z == r.subject && b == r.TraceeExit? { assert s'.reports[|s.reports|] == r; }
    }
  }

  lemma LogKeepsOrder(s: Sys, r: Report)
    requires Ordered(s.reports) && !Reported(s, r.subject, false)
    requires r.TraceeExit? ==> !Reported(s, r.subject, true)
    ensures Ordered(s.reports + [r])
  {
    var rs := s.reports + [r];
    forall i, j | 0 <= i < j < |rs| && rs[i].subject == rs[j].subject
      ensures rs[i].TraceeExit? && rs[j].ZombieChild?
    {
      if j == |s.reports| {
        assert s.reports[i].subject == r.subject;
        assert !s.reports[i].TraceeExit? ==> Reported(s, r.subject, false);
        assert s.reports[i].TraceeExit? ==> Reported(s, r.subject, true);
      }
    }
  }

  // ---- Steps ----

  lemma QuietKeepsReports(s: Sys, s': Sys)
    requires ReportInv(s) && s'.reports == s.reports && s'.silent == s.silent
    requires forall z :: IsReaped(s', z) <==> IsReaped(s, z)
    requires forall z :: IsZombie(s, z) ==> IsZombie(s', z)
    requires forall z :: z in s'.tracer && IsZombie(s, z) ==> z in s.tracer
    requires forall w :: w in s'.waiters && (s'.waiters[w].pc.Detached? || s'.waiters[w].pc.OurChild?) ==>
               && w in s.waiters && (s.waiters[w].pc.Detached? || s.waiters[w].pc.OurChild?)
               && s.waiters[w].pc.subject == s'.waiters[w].pc.subject
    ensures ReportInv(s')
  {
    assert forall z, b :: Reported(s', z, b) <==> Reported(s, z, b);
    forall z ensures SubjectOk(s', z) { assert SubjectOk(s, z); }
    forall w ensures AttendedOk(s', w) { assert AttendedOk(s, w); }
  }

  lemma TreeKeepsReports(s: Sys, step: Step)
    requires BaseOk(s) && ReportInv(s) && Enabled(s.tree, step) && !step.Reap?
    ensures ReportInv(DoTree(s, step))
  {
    var s' := DoTree(s, step);
    StepEffect(s.tree, step);
    forall z ensures (IsReaped(s', z) <==> IsReaped(s, z)) && (IsZombie(s, z) ==> IsZombie(s', z)) {
      assert Persists(s.tree, s'.tree, z);
      if z !in s.tree.procs { NewcomersUnreaped(s.tree, step, z); }
    }
    QuietKeepsReports(s, s');
  }

  lemma NewcomersUnreaped(t: State, step: Step, z: Pid)
    requires Inv(t) && Enabled(t, step) && z !in t.procs
    ensures z in Apply(t, step).procs ==> !Apply(t, step).procs[z].reaped
  {
    if step.ExitAdvance? {
      ExitStepShape(t, step.p, step.held);
    } else {
      StepKeepsInv(t, step);
      StepShape(t, step);
      assert ProcOk(Apply(t, step), z);
    }
  }

  lemma TraceeFoundKeepsReports(s: Sys, w: nat, z: Pid)
    requires BaseOk(s) && ReportInv(s) && w in s.waiters && s.waiters[w].pc.Tracees?
    requires ReadyTracee(s, s.waiters[w], z)
    ensures ReportInv(DoTraceeFound(s, w, s.waiters[w], z))
  {
    var wt := s.waiters[w];
    var s' := DoTraceeFound(s, w, wt, z);
    assert SubjectOk(s, z) && TracedOk(s, z);
    if wt.consume {
      var r := TraceeExit(wt.owner, z, At(s.tree, z).parent == wt.owner);
      LogOne(s, s', r);
      LogKeepsOrder(s, r);
      forall x ensures SubjectOk(s', x) { assert SubjectOk(s, x); }
      forall u ensures AttendedOk(s', u) { assert AttendedOk(s, u); }
    } else {
      QuietKeepsReports(s, s');
    }
  }

  lemma ReapedSubjectOk(s: Sys, w: nat, c: Pid, x: Pid)
    requires BaseOk(s) && SubjectOk(s, x) && SubjectOk(s, c) && w in s.waiters && s.waiters[w].pc.Scanning?
    requires Holds(s.tree, s.waiters[w].owner, c) && ReadyChild(s, s.waiters[w], c) && s.waiters[w].consume
    ensures SubjectOk(DoScanChild(s, w, s.waiters[w], c), x)
  {
    ReapEffect(s.tree, s.waiters[w].owner, c);
    LogOne(s, DoScanChild(s, w, s.waiters[w], c), ZombieChild(s.waiters[w].owner, c));
  }

  lemma ScanKeepsReports(s: Sys, w: nat, c: Pid)
    requires BaseOk(s) && ReportInv(s) && w in s.waiters && s.waiters[w].pc.Scanning?
    requires Holds(s.tree, s.waiters[w].owner, c)
    ensures ReportInv(DoScanChild(s, w, s.waiters[w], c))
  {
    var wt := s.waiters[w];
    var s' := DoScanChild(s, w, wt, c);
    if ReadyChild(s, wt, c) && wt.consume {
      ReapEffect(s.tree, wt.owner, c);
      assert SubjectOk(s, c);
      var r := ZombieChild(wt.owner, c);
      LogOne(s, s', r);
      LogKeepsOrder(s, r);
      forall x ensures SubjectOk(s', x) {
        assert SubjectOk(s, x);
        ReapedSubjectOk(s, w, c, x);
      }
      forall u ensures AttendedOk(s', u) { assert AttendedOk(s, u); }
    } else {
      QuietKeepsReports(s, s');
    }
  }

  lemma OurChildKeepsReports(s: Sys, w: nat, z: Pid)
    requires BaseOk(s) && ReportInv(s) && w in s.waiters && s.waiters[w].pc == OurChild(z)
    ensures ReportInv(DoOurChild(s, w, s.waiters[w], z))
  {
    var s' := DoOurChild(s, w, s.waiters[w], z);
    assert AttendedOk(s, w) && SubjectOk(s, z);
    if Holds(s.tree, s.waiters[w].owner, z) && IsZombie(s, z) {
      ReapEffect(s.tree, s.waiters[w].owner, z);
      assert forall x, b :: Reported(s', x, b) <==> Reported(s, x, b);
      forall x ensures SubjectOk(s', x) { assert SubjectOk(s, x); }
      forall u ensures AttendedOk(s', u) { assert AttendedOk(s, u); }
    } else {
      QuietKeepsReports(s, s');
    }
  }

  /** What a step that only moves a waiting thread along leaves alone. */
  ghost predicate OnlyMoved(s: Sys, s': Sys) {
    && s'.tree == s.tree && s'.tracer == s.tracer && s'.reports == s.reports && s'.silent == s.silent
    && s'.broken == s.broken
    && forall w :: w in s'.waiters && (s'.waiters[w].pc.Detached? || s'.waiters[w].pc.OurChild?) ==>
         && w in s.waiters && (s.waiters[w].pc.Detached? || s.waiters[w].pc.OurChild?)
         && s'.waiters[w].owner == s.waiters[w].owner
         && s.waiters[w].pc.subject == s'.waiters[w].pc.subject
  }

  lemma LeaveShape(s: Sys, w: nat)
    ensures OnlyMoved(s, Leave(s, w))
  {
  }

  lemma SetShape(s: Sys, w: nat, wt: Waiter)
    requires !wt.pc.Detached? && !wt.pc.OurChild?
    ensures OnlyMoved(s, s.(waiters := s.waiters[w := wt]))
  {
  }

  lemma WakeOwnerShape(s: Sys, w: nat, q: Pid)
    ensures OnlyMoved(s, Leave(s, w).(waiters := WakeAll(s.waiters - {w}, q)))
  {
  }

  lemma MovingShape(s: Sys, step: WStep)
    requires WEnabled(s, step) && (OnlyMoves(step) || step.WaitStart?)
    ensures OnlyMoved(s, WApply(s, step))
  {
    match step
    case WaitStart(_, _, _, _, _) =>
    case WakeOwner(w) => WakeOwnerShape(s, w, s.waiters[w].pc.target);
    case GiveUp(w) => LeaveShape(s, w);
    case ScanDone(w) => if !s.waiters[w].pc.matched { LeaveShape(s, w); }
    case TraceesNone(w) => SetShape(s, w, WApply(s, step).waiters[w]);
    case LockChildren(w) => SetShape(s, w, WApply(s, step).waiters[w]);
    case EnqueueSelf(w) => SetShape(s, w, WApply(s, step).waiters[w]);
    case WakeUp(w) => SetShape(s, w, WApply(s, step).waiters[w]);
  }

  lemma DetachedShape(s: Sys, w: nat, z: Pid, held: bool)
    requires w in s.waiters && s.waiters[w].pc == Detached(z)
    ensures OnlyMoved(s, DoDetached(s, w, s.waiters[w], z, held))
  {
  }

  lemma StepKeepsReports(s: Sys, step: WStep)
    requires BaseOk(s) && ReportInv(s) && WEnabled(s, step)
    ensures ReportInv(WApply(s, step))
  {
    match step
    case TreeStep(ts) => TreeKeepsReports(s, ts);
    case ScanChild(w, c) => ScanKeepsReports(s, w, c);
    case ReapOurChild(w) => OurChildKeepsReports(s, w, s.waiters[w].pc.subject);
    case TraceeFound(w, z) => TraceeFoundKeepsReports(s, w, z);
    case Attach(z, t) =>
      assert ProcOk(s.tree, z);
      QuietKeepsReports(s, s.(tracer := s.tracer[z := t]));
    case ClearTracees(t) => QuietKeepsReports(s, DoClearTracees(s, t));
    case DetachedNext(w, held) =>
      DetachedShape(s, w, s.waiters[w].pc.subject, held);
      QuietKeepsReports(s, WApply(s, step));
    case _ =>
      MovingShape(s, step);
      QuietKeepsReports(s, WApply(s, step));
  }

  lemma {:induction false} RunKeepsReports(states: seq<Sys>, steps: seq<WStep>, i: nat)
    requires IsWRun(states, steps) && i < |states|
    ensures BaseOk(states[i]) && ReportInv(states[i])
  {
    if i == 0 {
      BootInv();
      assert forall z, b :: !Reported(START, z, b);
      forall z ensures SubjectOk(START, z) { assert ProcOk(BOOT, z); }
    } else {
      RunKeepsReports(states, steps, i - 1);
      assert WNext(states[i - 1], steps[i - 1], states[i]);
      StepKeepsBase(states[i - 1], steps[i - 1]);
      StepKeepsReports(states[i - 1], steps[i - 1]);
    }
  }

  /**
   Over every run: no report about a process that is not a zombie; of two reports about one
   process the first went to a tracer and the second to a parent, so neither role ever hears
   of it twice; and the parent's report comes with the reaping.
   */
  lemma ReportedOncePerRole(s: Sys)
    requires WReachable(s)
    ensures Ordered(s.reports)
    ensures forall i :: 0 <= i < |s.reports| ==> IsZombie(s, s.reports[i].subject)
    ensures forall i :: 0 <= i < |s.reports| && s.reports[i].ZombieChild? ==>
              IsReaped(s, s.reports[i].subject) && s.reports[i].subject !in s.silent
    ensures forall z :: IsReaped(s, z) ==> Reported(s, z, true) || Reported(s, z, false)
  {
    var states, steps :| IsWRun(states, steps) && states[|steps|] == s;
    RunKeepsReports(states, steps, |steps|);
    forall i | 0 <= i < |s.reports|
      ensures IsZombie(s, s.reports[i].subject)
      ensures s.reports[i].ZombieChild? ==>
                IsReaped(s, s.reports[i].subject) && s.reports[i].subject !in s.silent
    {
      assert SubjectOk(s, s.reports[i].subject);
      assert Reported(s, s.reports[i].subject, s.reports[i].TraceeExit?);
    }
    forall z | IsReaped(s, z) ensures Reported(s, z, true) || Reported(s, z, false) {
      assert SubjectOk(s, z);
    }
  }
}
