/**
 The `has_child_subreaper` shortcut of the reaper search.

 The search stops early, and falls back to init, at the first ancestor without the mark.
 That is right as long as the mark is closed downwards.
 */
module Subreaper {
  import opened ProcessTree
  import opened TreeInvariant

  // ---- The mark is closed downwards ----

  /** A subreaper carries the mark, and a marked parent has marked children. */
  ghost predicate MarkOk(s: State, p: Pid) {
    p in s.procs && !s.procs[p].reaped ==>
      && (s.procs[p].isSubreaper ==> s.procs[p].hasSubreaper)
      && (At(s, s.procs[p].parent).hasSubreaper ==> s.procs[p].hasSubreaper)
  }

  ghost predicate Closed(s: State) {
    forall p {:trigger MarkOk(s, p)} :: MarkOk(s, p)
  }

  /** The mark of an ancestor reaches every unreaped descendant. */
  lemma {:induction false} MarkInherited(s: State, a: Pid, p: Pid)
    requires TreeOk(s) && Closed(s) && p in s.procs && !s.procs[p].reaped
    requires Above(s, a, p) && At(s, a).hasSubreaper
    ensures s.procs[p].hasSubreaper
    decreases p
  {
    assert ProcOk(s, p) && ProcOk(s, 0) && MarkOk(s, p);
    if a != p && p != INIT {
      ParentIsOwned(s, p);
      MarkInherited(s, a, s.procs[p].parent);
    }
  }

  // ---- Setting the attribute, undisturbed ----

  /** The marking walk from `p` gets to `q`: along unreaped processes, past unmarked ones only. */
  predicate Reached(s: State, p: Pid, q: Pid)
    decreases q
  {
    && q in s.procs
    && (q == p
        || (!s.procs[q].reaped && s.procs[q].parent < q && !At(s, s.procs[q].parent).hasSubreaper
            && Reached(s, p, s.procs[q].parent)))
  }

  /** `set_child_subreaper` with nobody interfering: marks the caller and what its walk gets to. */
  function DoSetSubreaper(s: State, p: Pid): State {
    s.(procs := map q | q in s.procs ::
                  if q == p then s.procs[q].(isSubreaper := true, hasSubreaper := true)
                  else if !At(s, p).hasSubreaper && Reached(s, p, q) then s.procs[q].(hasSubreaper := true)
                  else s.procs[q])
  }

  lemma {:induction false} MarkedOrReached(s: State, p: Pid, q: Pid)
    requires TreeOk(s) && Closed(s) && p in s.procs && q in s.procs && !s.procs[q].reaped && Above(s, p, q)
    ensures s.procs[q].hasSubreaper || Reached(s, p, q)
    decreases q
  {
    assert ProcOk(s, q) && ProcOk(s, p) && ProcOk(s, 0) && MarkOk(s, q);
    if q != p {
      ParentIsOwned(s, q);
      MarkedOrReached(s, p, s.procs[q].parent);
    }
  }

  lemma {:induction false} ReachedIsBelow(s: State, p: Pid, q: Pid)
    requires TreeOk(s) && Reached(s, p, q)
    ensures Above(s, p, q)
    decreases q
  {
    if q != p { ReachedIsBelow(s, p, s.procs[q].parent); }
  }

  /** Setting the attribute marks nobody but descendants, and takes no mark back. */
  lemma MarksOnlyBelow(s: State, p: Pid, q: Pid)
    requires TreeOk(s) && p in s.procs && q in s.procs
    ensures var s' := DoSetSubreaper(s, p);
            && (s.procs[q].hasSubreaper ==> s'.procs[q].hasSubreaper)
            && (s'.procs[q].hasSubreaper ==> s.procs[q].hasSubreaper || Above(s, p, q))
            && s'.procs[q] == s.procs[q].(isSubreaper := s'.procs[q].isSubreaper,
                                          hasSubreaper := s'.procs[q].hasSubreaper)
            && (s'.procs[q].isSubreaper <==> s.procs[q].isSubreaper || q == p)
  {
    if Reached(s, p, q) { ReachedIsBelow(s, p, q); }
  }

  /** On a tree with a closed mark, setting the attribute marks every unreaped descendant. */
  lemma MarksAllBelow(s: State, p: Pid, q: Pid)
    requires TreeOk(s) && Closed(s) && p in s.procs && q in s.procs && !s.procs[q].reaped && Above(s, p, q)
    ensures DoSetSubreaper(s, p).procs[q].hasSubreaper
  {
    if s.procs[p].hasSubreaper { MarkInherited(s, p, q); } else { MarkedOrReached(s, p, q); }
  }

  // ---- The shortcut against the full search ----

  /** The full search: the nearest live subreaper from `a` upwards, else init. */
  function Nearest(s: State, a: Pid): Pid
    decreases a
  {
    if a !in s.procs || s.procs[a].parent == 0 || s.procs[a].parent >= a then INIT
    else if s.procs[a].isSubreaper && !s.procs[a].zombie then a
    else Nearest(s, s.procs[a].parent)
  }

  /** The search as coded: it gives up, in favour of init, at the first unmarked process. */
  function Shortcut(s: State, a: Pid): Pid
    decreases a
  {
    if a !in s.procs || s.procs[a].parent == 0 || s.procs[a].parent >= a then INIT
    else if !s.procs[a].hasSubreaper then INIT
    else if s.procs[a].isSubreaper && !s.procs[a].zombie then a
    else Shortcut(s, s.procs[a].parent)
  }

  /** Below an unmarked process the full search finds nobody but init. */
  lemma {:induction false} UnmarkedFindsInit(s: State, a: Pid)
    requires TreeOk(s) && Closed(s) && a in s.procs && !s.procs[a].reaped && !s.procs[a].hasSubreaper
    ensures Nearest(s, a) == INIT
    decreases a
  {
    assert ProcOk(s, a) && MarkOk(s, a);
    if a != INIT {
      ParentIsOwned(s, a);
      UnmarkedFindsInit(s, s.procs[a].parent);
    }
  }

  /** On a tree with a closed mark the shortcut selects the process the full search selects. */
  lemma {:induction false} ShortcutAgrees(s: State, a: Pid)
    requires TreeOk(s) && Closed(s) && a in s.procs && !s.procs[a].reaped
    ensures Shortcut(s, a) == Nearest(s, a)
    decreases a
  {
    assert ProcOk(s, a);
    if a != INIT {
      if !s.procs[a].hasSubreaper {
        UnmarkedFindsInit(s, a);
      } else {
        ParentIsOwned(s, a);
        ShortcutAgrees(s, s.procs[a].parent);
      }
    }
  }

  ghost predicate LiveSubreaper(s: State, b: Pid) {
    b in s.procs && b != INIT && s.procs[b].isSubreaper && !s.procs[b].zombie
  }

  /** What the full search returns: a live subreaper at or above `a`, or else init. */
  lemma {:induction false} NearestIsSubreaper(s: State, a: Pid)
    requires TreeOk(s) && a in s.procs && !s.procs[a].reaped
    ensures Nearest(s, a) == INIT || (LiveSubreaper(s, Nearest(s, a)) && Above(s, Nearest(s, a), a))
    decreases a
  {
    assert ProcOk(s, a);
    if a != INIT {
      ParentIsOwned(s, a);
      NearestIsSubreaper(s, s.procs[a].parent);
    }
  }

  /** ... and no live subreaper above `a` is nearer. */
  lemma {:induction false} NothingNearer(s: State, a: Pid, b: Pid)
    requires TreeOk(s) && a in s.procs && !s.procs[a].reaped
    requires Above(s, b, a) && LiveSubreaper(s, b)
    ensures LiveSubreaper(s, Nearest(s, a)) && Above(s, b, Nearest(s, a)) && b <= Nearest(s, a)
    decreases a
  {
    assert ProcOk(s, a) && ProcOk(s, INIT) && ProcOk(s, 0);
    if a != INIT {
      ParentIsOwned(s, a);
      AboveIsOlder(s, b, a);
      if a != b { NothingNearer(s, s.procs[a].parent, b); }
    }
  }

  lemma {:induction false} AboveIsOlder(s: State, b: Pid, a: Pid)
    requires Above(s, b, a)
    ensures b <= a
    decreases a
  {
    if a != b { AboveIsOlder(s, b, s.procs[a].parent); }
  }
}
