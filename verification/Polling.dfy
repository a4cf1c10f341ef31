/**
 `poll`: one round while registering with the files, then further rounds after each wake-up,
 until something is ready or the wait ends.
 */
module Polling {
  import opened Prelude

  datatype IoEvent = IN | PRI | OUT | ERR | HUP | NVAL | RDNORM | RDHUP

  type Events = set<IoEvent>

  const NONE: Events := {}

  datatype Errno = EINTR | EBADF | EINVAL

  /** How one wait on the poller ends. */
  datatype Wait = Woken | TimedOut | Failed(error: Errno)

  /** One entry to poll; an entry without descriptor is ignored. */
  datatype PollFd = PollFd(fd: Option<nat>, events: Events)

  /**
   What the file of entry `i` reports when asked about `events` in a given round.  Two
   entries for one file ask it at different times and may get different answers.
   */
  type FileAnswers = (nat, nat, Events) -> Events

  /** The events of entry `i` in one round, present file or not. */
  function Answer(fds: seq<PollFd>, i: nat, open: set<nat>, files: FileAnswers, round: nat): Events
    requires i < |fds|
  {
    match fds[i].fd
    case None => NONE
    case Some(fd) => if fd in open then files(round, i, fds[i].events) else {NVAL}
  }

  /** The number of entries that report something. */
  function Ready(revents: seq<Events>): (n: nat)
    ensures n <= |revents|
    ensures n == 0 <==> forall i :: 0 <= i < |revents| ==> revents[i] == NONE
  {
    if |revents| == 0 then 0
    else Ready(revents[..|revents| - 1]) + if revents[|revents| - 1] != NONE then 1 else 0
  }

  /** Counting can start at the first entry that reports something. */
  lemma {:induction false} FirstReady(s: seq<Events>, index: nat)
    requires index < |s| && s[index] != NONE && forall i :: 0 <= i < index ==> s[i] == NONE
    ensures Ready(s) == 1 + Ready(s[index + 1..])
  {
    var front, rest := s[..|s| - 1], s[index + 1..];
    if |s| == index + 1 {
      assert Ready(front) == 0 && rest == [];
    } else {
      FirstReady(front, index);
      assert rest[..|rest| - 1] == front[index + 1..] && rest[|rest| - 1] == s[|s| - 1];
    }
  }

  /** What is counted: the entries that report something. */
  lemma {:induction false} ReadyIsCount(s: seq<Events>)
    ensures Ready(s) == |set i | 0 <= i < |s| && s[i] != NONE|
  {
    var reporting := set i | 0 <= i < |s| && s[i] != NONE;
    if s == [] {
      assert reporting == {};
    } else {
      var n, front := |s| - 1, s[..|s| - 1];
      ReadyIsCount(front);
      var earlier := set i | 0 <= i < |front| && front[i] != NONE;
      forall i ensures i in reporting <==> i in earlier || (i == n && s[n] != NONE) {}
      assert n !in earlier;
      if s[n] != NONE { assert reporting == earlier + {n}; } else { assert reporting == earlier; }
    }
  }

  lemma ReadyPush(s: seq<Events>, e: Events)
    ensures Ready(s + [e]) == Ready(s) + if e != NONE then 1 else 0
  {
    assert (s + [e])[..|s|] == s;
  }

  /** `count_events_from`: polls the entries from `start` on and counts those that report something. */
  method CountEventsFrom(fds: seq<PollFd>, open: set<nat>, files: FileAnswers, round: nat,
                         start: nat, revents: array<Events>)
    returns (n: nat)
    requires revents.Length == |fds| && start <= |fds|
    requires forall i :: start <= i < |fds| ==> revents[i] == NONE
    modifies revents
    ensures forall i :: 0 <= i < start ==> revents[i] == old(revents[i])
    ensures forall i :: start <= i < |fds| ==> revents[i] == Answer(fds, i, open, files, round)
    ensures n == Ready(revents[start..])
  {
    n := 0;
    var index := start;
    ghost var seen: seq<Events> := [];
    while index < |fds|
      invariant start <= index <= |fds|
      invariant forall i :: 0 <= i < start ==> revents[i] == old(revents[i])
      invariant forall i :: index <= i < |fds| ==> revents[i] == NONE
      invariant forall i :: start <= i < index ==> revents[i] == Answer(fds, i, open, files, round)
      invariant |seen| == index - start && forall i :: 0 <= i < |seen| ==> seen[i] == revents[start + i]
      invariant n == Ready(seen)
    {
      var events := Answer(fds, index, open, files, round);
      if events != NONE {
        revents[index] := events;
        n := n + 1;
      }
      ReadyPush(seen, events);
      seen := seen + [events];
      index := index + 1;
    }
    assert seen == revents[start..];
  }

  /** `register_poller`: stops registering at the first entry that reports something. */
  method RegisterPoller(fds: seq<PollFd>, open: set<nat>, files: FileAnswers, revents: array<Events>)
    returns (found: Option<nat>)
    requires revents.Length == |fds| && forall i :: 0 <= i < |fds| ==> revents[i] == NONE
    modifies revents
    ensures found.None? ==> forall i :: 0 <= i < |fds| ==> revents[i] == NONE
    ensures found.Some? ==> found.value > 0 && found.value == Ready(revents[..])
    ensures forall i :: 0 <= i < |fds| ==> revents[i] == Answer(fds, i, open, files, 0)
  {
    var index := 0;
    while index < |fds|
      invariant index <= |fds|
      invariant forall i :: 0 <= i < index ==> Answer(fds, i, open, files, 0) == NONE
      invariant forall i :: 0 <= i < |fds| ==> revents[i] == NONE
    {
      var events := Answer(fds, index, open, files, 0);
      if events != NONE {
        revents[index] := events;
        var more := CountEventsFrom(fds, open, files, 0, index + 1, revents);
        FirstReady(revents[..], index);
        assert revents[..][index + 1..] == revents[index + 1..];
        return Some(1 + more);
      }
      index := index + 1;
    }
    return None;
  }

  /** No entry has anything to report in this round. */
  predicate Quiet(fds: seq<PollFd>, open: set<nat>, files: FileAnswers, round: nat) {
    forall i :: 0 <= i < |fds| ==> Answer(fds, i, open, files, round) == NONE
  }

  /** The earlier rounds were quiet and each was followed by a wake-up. */
  predicate Polled(fds: seq<PollFd>, open: set<nat>, files: FileAnswers, waits: seq<Wait>, round: nat) {
    round <= |waits| && forall k :: 0 <= k < round ==> waits[k].Woken? && Quiet(fds, open, files, k)
  }

  /**
   The answers of one round: nothing for an entry without descriptor, {NVAL} for one whose
   file is not open, and otherwise what the file says.
   */
  predicate AreAnswers(revents: seq<Events>, fds: seq<PollFd>, open: set<nat>, files: FileAnswers, round: nat) {
    && |revents| == |fds|
    && forall i :: 0 <= i < |fds| ==>
         revents[i] == match fds[i].fd
                       case None => {}
                       case Some(fd) => if fd in open then files(round, i, fds[i].events) else {NVAL}
  }

  /** The answers, and how many entries report something, in plain terms. */
  lemma AnswersMean(revents: seq<Events>, fds: seq<PollFd>, open: set<nat>, files: FileAnswers, round: nat)
    requires |revents| == |fds| && forall i :: 0 <= i < |fds| ==> revents[i] == Answer(fds, i, open, files, round)
    ensures AreAnswers(revents, fds, open, files, round)
    ensures Ready(revents) == |set i | 0 <= i < |revents| && revents[i] != {}|
    ensures Quiet(fds, open, files, round) <==> forall i :: 0 <= i < |fds| ==> revents[i] == {}
  {
    ReadyIsCount(revents);
    if Quiet(fds, open, files, round) {
      forall i | 0 <= i < |fds| ensures revents[i] == {} { assert Answer(fds, i, open, files, round) == NONE; }
    }
  }

  /** The rounds and waits; ends with the answers of the last round. */
  method PollLoop(fds: seq<PollFd>, open: set<nat>, files: FileAnswers, waits: seq<Wait>, revents: array<Events>)
    returns (r: Result<nat, Errno>, ghost round: nat)
    requires revents.Length == |fds| && forall i :: 0 <= i < |fds| ==> revents[i] == NONE
    modifies revents
    ensures Polled(fds, open, files, waits, round)
    ensures forall i :: 0 <= i < |fds| ==> revents[i] == Answer(fds, i, open, files, round)
    ensures r.Ok? ==> r.value == Ready(revents[..])
    ensures !Quiet(fds, open, files, round) ==> r.Ok? && r.value > 0
    ensures Quiet(fds, open, files, round) && round < |waits| ==>
              !waits[round].Woken? && r == if waits[round].Failed? then Err(waits[round].error) else Ok(0)
    ensures Quiet(fds, open, files, round) && round == |waits| ==> r == Ok(0)
  {
    round := 0;
    var found := RegisterPoller(fds, open, files, revents);
    if found.Some? {
      return Ok(found.value), 0;
    }
    var turn := 0;
    while turn < |waits|
      invariant Polled(fds, open, files, waits, turn) && Quiet(fds, open, files, turn)
      invariant forall i :: 0 <= i < |fds| ==> revents[i] == NONE
    {
      match waits[turn] {
        case Woken =>
        case TimedOut => return Ok(0), turn;
        case Failed(e) => return Err(e), turn;
      }
      turn := turn + 1;
      var n := CountEventsFrom(fds, open, files, turn, 0, revents);
      assert revents[0..] == revents[..];
      if n > 0 {
        return Ok(n), turn;
      }
    }
    return Ok(0), turn;
  }

  /**
   `do_poll`, up to the end of the script of waits.  A positive result is the number of
   entries that report something, all taken in the first round that is not quiet.
   Otherwise no entry reports anything and the wait after the last round timed out or failed.
   */
  method DoPoll(fds: seq<PollFd>, open: set<nat>, files: FileAnswers, waits: seq<Wait>, revents: array<Events>)
    returns (r: Result<nat, Errno>, ghost round: nat)
    requires revents.Length == |fds| && forall i :: 0 <= i < |fds| ==> revents[i] == NONE
    modifies revents
    ensures Polled(fds, open, files, waits, round) && AreAnswers(revents[..], fds, open, files, round)
    ensures r.Ok? ==> r.value == |set i | 0 <= i < |revents[..]| && revents[..][i] != {}|
    ensures (forall i :: 0 <= i < |fds| ==> revents[i] == {}) <==> !(r.Ok? && r.value > 0)
    ensures !(r.Ok? && r.value > 0) && round < |waits| ==>
              !waits[round].Woken? && r == if waits[round].Failed? then Err(waits[round].error) else Ok(0)
    ensures !(r.Ok? && r.value > 0) && round == |waits| ==> r == Ok(0)
  {
    r, round := PollLoop(fds, open, files, waits, revents);
    AnswersMean(revents[..], fds, open, files, round);
    assert forall i :: 0 <= i < |fds| ==> revents[..][i] == revents[i];
  }
}
