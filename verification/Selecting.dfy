/**
 `select` on top of `poll`: three bit sets go in, one entry per wanted descriptor is polled,
 and the same three sets carry the answer out.
 */
module Selecting {
  import opened Prelude
  import opened Polling
  import opened Words

  const FD_SETSIZE: nat := 1024

  /** A descriptor as the caller passes it. */
  type RawFd = fd: int | -0x8000_0000 <= fd < 0x8000_0000

  /** The cast `as usize`, which makes a negative descriptor very large. */
  function AsUsize(fd: RawFd): nat {
    if fd < 0 then fd + 0x1_0000_0000_0000_0000 else fd
  }

  /** A set of file descriptors, 64 to a word. */
  class FdSet {
    const bits: array<bv64>

    ghost predicate Valid() {
      bits.Length == FD_SETSIZE / WORD_BITS
    }

    ghost predicate Has(fd: nat)
      requires Valid()
      reads bits
    {
      fd < FD_SETSIZE && Bit(bits[fd / WORD_BITS], fd % WORD_BITS)
    }

    ghost function Contents(): set<nat>
      requires Valid()
      reads bits
    {
      set fd | 0 <= fd < FD_SETSIZE && Has(fd)
    }

    constructor ()
      ensures Valid() && fresh(bits) && Contents() == {}
    {
      bits := new bv64[FD_SETSIZE / WORD_BITS](i => 0);
      new;
      ZeroHasNoBits();
    }

    /** Refuses every descriptor outside the set's range, negative ones included. */
    method Set(raw: RawFd) returns (ok: bool)
      requires Valid()
      modifies bits
      ensures ok == (0 <= raw < FD_SETSIZE)
      ensures Contents() == if ok then old(Contents()) + {raw} else old(Contents())
    {
      var fd := AsUsize(raw);
      if fd >= FD_SETSIZE {
        return false;
      }
      WithBitIs(bits[fd / WORD_BITS], fd % WORD_BITS);
      bits[fd / WORD_BITS] := WithBit(bits[fd / WORD_BITS], fd % WORD_BITS);
      forall x: nat | x < FD_SETSIZE ensures Has(x) <==> old(Has(x)) || x == fd {
        assert x == fd <==> x / WORD_BITS == fd / WORD_BITS && x % WORD_BITS == fd % WORD_BITS;
      }
      return true;
    }

    method IsSet(raw: RawFd) returns (b: bool)
      requires Valid()
      ensures b == (raw in Contents())
    {
      var fd := AsUsize(raw);
      if fd >= FD_SETSIZE {
        return false;
      }
      b := Bit(bits[fd / WORD_BITS], fd % WORD_BITS);
      assert Has(fd) == b;
    }

    method Clear()
      requires Valid()
      modifies bits
      ensures Contents() == {}
    {
      for i := 0 to bits.Length
        invariant forall j :: 0 <= j < i ==> bits[j] == 0
      {
        bits[i] := 0;
      }
      ZeroHasNoBits();
    }
  }

  // ---- Events ----

  /** `convert_rwe_to_events`. */
  function Wanted(readable: bool, writable: bool, except: bool): Events {
    (if readable then {IN} else {}) + (if writable then {OUT} else {}) + (if except then {PRI} else {})
  }

  /** Nothing is polled exactly for the descriptors that are in none of the sets. */
  lemma WantedNothing(readable: bool, writable: bool, except: bool)
    ensures Wanted(readable, writable, except) == NONE <==> !readable && !writable && !except
  {
  }

  datatype Kind = Read | Write | Except

  /** `convert_events_to_rwe`, one answer at a time. */
  predicate Reports(e: Events, k: Kind) {
    match k
    case Read => IN in e || HUP in e || ERR in e
    case Write => OUT in e || ERR in e
    case Except => PRI in e
  }

  predicate Invalid(e: Events) {
    NVAL in e
  }

  // ---- Entries ----

  /** The memory of the sets that are there. */
  ghost function Memory(r: FdSet?, w: FdSet?, x: FdSet?): set<object> {
    (if r != null then {r.bits} else {}) + (if w != null then {w.bits} else {}) + (if x != null then {x.bits} else {})
  }

  ghost function Members(fds: FdSet?): set<nat>
    requires fds != null ==> fds.Valid()
    reads if fds != null then {fds.bits} else {}
  {
    if fds == null then {} else fds.Contents()
  }

  ghost predicate Separate(r: FdSet?, w: FdSet?, x: FdSet?) {
    && (r != null ==> r.Valid()) && (w != null ==> w.Valid()) && (x != null ==> x.Valid())
    && (r != null && w != null ==> r.bits != w.bits)
    && (r != null && x != null ==> r.bits != x.bits)
    && (w != null && x != null ==> w.bits != x.bits)
  }

  /** What the three sets hold. */
  datatype Sets = Sets(read: set<nat>, write: set<nat>, except: set<nat>) {
    ghost function Size(): nat { |read| + |write| + |except| }

    ghost predicate Has(fd: nat) { fd in read || fd in write || fd in except }
  }

  const NOTHING := Sets({}, {}, {})

  ghost function Held(r: FdSet?, w: FdSet?, x: FdSet?): Sets
    requires Separate(r, w, x)
    reads Memory(r, w, x)
  {
    Sets(Members(r), Members(w), Members(x))
  }

  method IsMember(fds: FdSet?, fd: nat) returns (b: bool)
    requires (fds != null ==> fds.Valid()) && fd < FD_SETSIZE
    ensures b == (fd in Members(fds))
  {
    if fds == null {
      return false;
    }
    b := fds.IsSet(fd);
  }

  /** The events ask for input, output and exceptions exactly as the sets do. */
  ghost predicate Asks(events: Events, sets: Sets, fd: nat) {
    && (IN in events <==> fd in sets.read) && (OUT in events <==> fd in sets.write)
    && (PRI in events <==> fd in sets.except) && events <= {IN, OUT, PRI}
  }

  ghost function WantedOf(sets: Sets, fd: nat): Events {
    Wanted(fd in sets.read, fd in sets.write, fd in sets.except)
  }

  /** One entry per descriptor below `nfds` that is in some set, in ascending order. */
  ghost predicate Entries(fds: seq<PollFd>, nfds: nat, sets: Sets) {
    && (forall i :: 0 <= i < |fds| ==>
          && fds[i].fd.Some? && fds[i].fd.value < nfds
          && Asks(fds[i].events, sets, fds[i].fd.value))
    && (forall i, j :: 0 <= i < j < |fds| ==> fds[i].fd.value < fds[j].fd.value)
    && (forall fd :: 0 <= fd < nfds && sets.Has(fd) ==>
          exists i :: 0 <= i < |fds| && fds[i].fd == Some(fd))
  }

  /** The entries after descriptor `fd` has been looked at. */
  function Extended(fds: seq<PollFd>, fd: nat, events: Events): seq<PollFd> {
    if events == NONE then fds else fds + [PollFd(Some(fd), events)]
  }

  lemma EntriesGrow(fds: seq<PollFd>, fd: nat, sets: Sets)
    requires Entries(fds, fd, sets)
    ensures Entries(Extended(fds, fd, WantedOf(sets, fd)), fd + 1, sets)
  {
    var fds' := Extended(fds, fd, WantedOf(sets, fd));
    WantedNothing(fd in sets.read, fd in sets.write, fd in sets.except);
    forall c | 0 <= c < fd + 1 && sets.Has(c)
      ensures exists i :: 0 <= i < |fds'| && fds'[i].fd == Some(c)
    {
      if c == fd {
        assert fds'[|fds|].fd == Some(c);
      } else {
        var i :| 0 <= i < |fds| && fds[i].fd == Some(c);
        assert fds'[i] == fds[i];
      }
    }
  }

  method BuildEntries(nfds: nat, r: FdSet?, w: FdSet?, x: FdSet?) returns (fds: seq<PollFd>)
    requires Separate(r, w, x) && nfds <= FD_SETSIZE
    ensures Entries(fds, nfds, Held(r, w, x))
  {
    fds := [];
    for fd := 0 to nfds
      invariant Entries(fds, fd, Held(r, w, x))
    {
      EntriesGrow(fds, fd, Held(r, w, x));
      var readable := IsMember(r, fd);
      var writable := IsMember(w, fd);
      var except := IsMember(x, fd);
      assert Wanted(readable, writable, except) == WantedOf(Held(r, w, x), fd);
      fds := Extended(fds, fd, Wanted(readable, writable, except));
    }
  }

  // ---- The answer ----

  /** The descriptors among the first `n` entries that report `k`. */
  ghost function Picked(fds: seq<PollFd>, revents: seq<Events>, n: nat, k: Kind): set<nat>
    requires n <= |fds| == |revents| && forall i :: 0 <= i < |fds| ==> fds[i].fd.Some?
  {
    if n == 0 then {}
    else Picked(fds, revents, n - 1, k) + if Reports(revents[n - 1], k) then {fds[n - 1].fd.value} else {}
  }

  ghost predicate Ascending(fds: seq<PollFd>) {
    && (forall i :: 0 <= i < |fds| ==> fds[i].fd.Some? && fds[i].fd.value < FD_SETSIZE)
    && (forall i, j :: 0 <= i < j < |fds| ==> fds[i].fd.value < fds[j].fd.value)
  }

  lemma {:induction false} PickedEarlier(fds: seq<PollFd>, revents: seq<Events>, n: nat, k: Kind, i: nat)
    requires n <= i < |fds| == |revents| && Ascending(fds)
    ensures fds[i].fd.value !in Picked(fds, revents, n, k)
  {
    if n > 0 { PickedEarlier(fds, revents, n - 1, k, i); }
  }

  lemma {:induction false} PickedIs(fds: seq<PollFd>, revents: seq<Events>, n: nat, k: Kind, i: nat)
    requires i < n <= |fds| == |revents| && Ascending(fds)
    ensures fds[i].fd.value in Picked(fds, revents, n, k) <==> Reports(revents[i], k)
  {
    if i == n - 1 {
      PickedEarlier(fds, revents, n - 1, k, i);
    } else {
      PickedIs(fds, revents, n - 1, k, i);
    }
  }

  /** ... and nothing else is in the set. */
  lemma {:induction false} PickedOnly(fds: seq<PollFd>, revents: seq<Events>, n: nat, k: Kind, fd: nat)
    requires n <= |fds| == |revents| && Ascending(fds) && fd in Picked(fds, revents, n, k)
    ensures exists i :: 0 <= i < n && fds[i].fd == Some(fd) && Reports(revents[i], k)
  {
    if Reports(revents[n - 1], k) && fds[n - 1].fd.value == fd {
      assert fds[n - 1].fd == Some(fd);
    } else {
      PickedOnly(fds, revents, n - 1, k, fd);
    }
  }

  /** What a set, if it is there, holds once the first `n` entries are marked. */
  ghost function Expected(out: FdSet?, fds: seq<PollFd>, revents: seq<Events>, n: nat, k: Kind): set<nat>
    requires n <= |fds| == |revents| && forall i :: 0 <= i < |fds| ==> fds[i].fd.Some?
  {
    if out == null then {} else Picked(fds, revents, n, k)
  }

  ghost function AllExpected(r: FdSet?, w: FdSet?, x: FdSet?, fds: seq<PollFd>, revents: seq<Events>, n: nat): Sets
    requires n <= |fds| == |revents| && forall i :: 0 <= i < |fds| ==> fds[i].fd.Some?
  {
    Sets(Expected(r, fds, revents, n, Read), Expected(w, fds, revents, n, Write), Expected(x, fds, revents, n, Except))
  }

  /** Puts the descriptor of entry `i` into the set if there is one and the entry reports `k`. */
  method Mark(out: FdSet?, fds: seq<PollFd>, revents: seq<Events>, i: nat, k: Kind) returns (added: nat)
    requires (out != null ==> out.Valid()) && i < |fds| == |revents| && Ascending(fds)
    requires Members(out) == Expected(out, fds, revents, i, k)
    modifies if out != null then {out.bits} else {}
    ensures Members(out) == Expected(out, fds, revents, i + 1, k)
    ensures |Members(out)| == |old(Members(out))| + added
  {
    if out == null || !Reports(revents[i], k) {
      return 0;
    }
    PickedEarlier(fds, revents, i, k, i);
    var _ := out.Set(fds[i].fd.value);
    return 1;
  }

  method MarkEntry(fds: seq<PollFd>, revents: seq<Events>, i: nat, r: FdSet?, w: FdSet?, x: FdSet?)
    returns (added: nat)
    requires Separate(r, w, x) && i < |fds| == |revents| && Ascending(fds)
    requires Held(r, w, x) == AllExpected(r, w, x, fds, revents, i)
    modifies Memory(r, w, x)
    ensures Held(r, w, x) == AllExpected(r, w, x, fds, revents, i + 1)
    ensures Held(r, w, x).Size() == old(Held(r, w, x)).Size() + added
  {
    var a := Mark(r, fds, revents, i, Read);
    assert Members(w) == old(Members(w)) && Members(x) == old(Members(x));
    ghost var reading := Members(r);
    var b := Mark(w, fds, revents, i, Write);
    assert Members(r) == reading && Members(x) == old(Members(x));
    ghost var writing := Members(w);
    var c := Mark(x, fds, revents, i, Except);
    assert Members(r) == reading && Members(w) == writing;
    added := a + b + c;
  }

  /** The conversion of `poll` results into the three sets; stops at an invalid descriptor. */
  method Collect(fds: seq<PollFd>, revents: seq<Events>, r: FdSet?, w: FdSet?, x: FdSet?)
    returns (total: Result<nat, Errno>)
    requires Separate(r, w, x) && |fds| == |revents| && Ascending(fds) && Held(r, w, x) == NOTHING
    modifies Memory(r, w, x)
    ensures total.Err? ==> total.error == EBADF && exists i :: 0 <= i < |fds| && Invalid(revents[i])
    ensures total.Ok? ==> forall i :: 0 <= i < |fds| ==> !Invalid(revents[i])
    ensures total.Ok? ==>
              total.value == Held(r, w, x).Size() && Held(r, w, x) == AllExpected(r, w, x, fds, revents, |fds|)
  {
    var n := 0;
    for i := 0 to |fds|
      invariant n == Held(r, w, x).Size() && Held(r, w, x) == AllExpected(r, w, x, fds, revents, i)
      invariant forall j :: 0 <= j < i ==> !Invalid(revents[j])
    {
      if Invalid(revents[i]) {
        return Err(EBADF);
      }
      var added := MarkEntry(fds, revents, i, r, w, x);
      n := n + added;
    }
    return Ok(n);
  }

  method ClearAll(r: FdSet?, w: FdSet?, x: FdSet?)
    requires Separate(r, w, x)
    modifies Memory(r, w, x)
    ensures Held(r, w, x) == NOTHING
  {
    if r != null { r.Clear(); }
    if w != null { w.Clear(); }
    if x != null { x.Clear(); }
  }

  lemma {:induction false} QuietPicksNothing(fds: seq<PollFd>, revents: seq<Events>, n: nat, k: Kind)
    requires n <= |fds| == |revents| && forall i :: 0 <= i < |fds| ==> fds[i].fd.Some? && revents[i] == NONE
    ensures Picked(fds, revents, n, k) == {}
  {
    if n > 0 { QuietPicksNothing(fds, revents, n - 1, k); }
  }

  lemma NothingExpected(r: FdSet?, w: FdSet?, x: FdSet?, fds: seq<PollFd>, revents: seq<Events>)
    requires |fds| == |revents| && forall i :: 0 <= i < |fds| ==> fds[i].fd.Some? && revents[i] == NONE
    ensures AllExpected(r, w, x, fds, revents, |fds|) == NOTHING
  {
    QuietPicksNothing(fds, revents, |fds|, Read);
    QuietPicksNothing(fds, revents, |fds|, Write);
    QuietPicksNothing(fds, revents, |fds|, Except);
  }

  /**
   What polling and collecting returns: EBADF if some entry's file is not open, otherwise a
   total if any entry reports something, otherwise what the wait after the round decides.
   */
  ghost predicate Outcome(total: Result<nat, Errno>, fds: seq<PollFd>, revents: seq<Events>,
                          waits: seq<Wait>, round: nat)
    requires |fds| == |revents|
  {
    if exists i :: 0 <= i < |fds| && NVAL in revents[i] then total == Err(EBADF)
    else if exists i :: 0 <= i < |fds| && revents[i] != {} then total.Ok?
    else if round < |waits| then
      !waits[round].Woken? && total == if waits[round].Failed? then Err(waits[round].error) else Ok(0)
    else total == Ok(0)
  }

  /** What the three sets mean, event by event. */
  ghost predicate Tells(r: FdSet?, w: FdSet?, x: FdSet?, held: Sets, fds: seq<PollFd>, revents: seq<Events>)
    requires |fds| == |revents|
  {
    && (forall fd :: fd in held.read <==>
          r != null && exists i :: 0 <= i < |fds| && fds[i].fd == Some(fd)
                                   && (IN in revents[i] || HUP in revents[i] || ERR in revents[i]))
    && (forall fd :: fd in held.write <==>
          w != null && exists i :: 0 <= i < |fds| && fds[i].fd == Some(fd) && (OUT in revents[i] || ERR in revents[i]))
    && (forall fd :: fd in held.except <==>
          x != null && exists i :: 0 <= i < |fds| && fds[i].fd == Some(fd) && PRI in revents[i])
  }

  lemma PickedMeans(fds: seq<PollFd>, revents: seq<Events>, k: Kind, fd: nat)
    requires |fds| == |revents| && Ascending(fds)
    ensures fd in Picked(fds, revents, |fds|, k) <==>
            exists i :: 0 <= i < |fds| && fds[i].fd == Some(fd) && Reports(revents[i], k)
  {
    if fd in Picked(fds, revents, |fds|, k) { PickedOnly(fds, revents, |fds|, k, fd); }
    if i :| 0 <= i < |fds| && fds[i].fd == Some(fd) && Reports(revents[i], k) {
      PickedIs(fds, revents, |fds|, k, i);
    }
  }

  lemma ReadTells(r: FdSet?, fds: seq<PollFd>, revents: seq<Events>, fd: nat)
    requires |fds| == |revents| && Ascending(fds)
    ensures fd in Expected(r, fds, revents, |fds|, Read) <==>
            r != null && exists i :: 0 <= i < |fds| && fds[i].fd == Some(fd)
                                     && (IN in revents[i] || HUP in revents[i] || ERR in revents[i])
  {
    PickedMeans(fds, revents, Read, fd);
    if i :| 0 <= i < |fds| && fds[i].fd == Some(fd) && (IN in revents[i] || HUP in revents[i] || ERR in revents[i]) {
      assert Reports(revents[i], Read);
    }
  }

  lemma WriteTells(w: FdSet?, fds: seq<PollFd>, revents: seq<Events>, fd: nat)
    requires |fds| == |revents| && Ascending(fds)
    ensures fd in Expected(w, fds, revents, |fds|, Write) <==>
            w != null && exists i :: 0 <= i < |fds| && fds[i].fd == Some(fd) && (OUT in revents[i] || ERR in revents[i])
  {
    PickedMeans(fds, revents, Write, fd);
    if i :| 0 <= i < |fds| && fds[i].fd == Some(fd) && (OUT in revents[i] || ERR in revents[i]) {
      assert Reports(revents[i], Write);
    }
  }

  lemma ExceptTells(x: FdSet?, fds: seq<PollFd>, revents: seq<Events>, fd: nat)
    requires |fds| == |revents| && Ascending(fds)
    ensures fd in Expected(x, fds, revents, |fds|, Except) <==>
            x != null && exists i :: 0 <= i < |fds| && fds[i].fd == Some(fd) && PRI in revents[i]
  {
    PickedMeans(fds, revents, Except, fd);
    if i :| 0 <= i < |fds| && fds[i].fd == Some(fd) && PRI in revents[i] {
      assert Reports(revents[i], Except);
    }
  }

  lemma ExpectedTells(r: FdSet?, w: FdSet?, x: FdSet?, fds: seq<PollFd>, revents: seq<Events>)
    requires |fds| == |revents| && Ascending(fds)
    ensures Tells(r, w, x, AllExpected(r, w, x, fds, revents, |fds|), fds, revents)
  {
    forall fd { ReadTells(r, fds, revents, fd); }
    forall fd { WriteTells(w, fds, revents, fd); }
    forall fd { ExceptTells(x, fds, revents, fd); }
  }

  /** No entry reports anything and the wait has ended the call. */
  lemma WaitOutcome(total: Result<nat, Errno>, fds: seq<PollFd>, revents: seq<Events>, waits: seq<Wait>, round: nat)
    requires |fds| == |revents| && forall i :: 0 <= i < |fds| ==> revents[i] == {}
    requires round < |waits| ==>
               !waits[round].Woken? && total == if waits[round].Failed? then Err(waits[round].error) else Ok(0)
    requires round >= |waits| ==> total == Ok(0)
    ensures Outcome(total, fds, revents, waits, round)
  {
  }

  /** Some entry reports something and the answer has been collected. */
  lemma CollectOutcome(total: Result<nat, Errno>, fds: seq<PollFd>, revents: seq<Events>, waits: seq<Wait>, round: nat)
    requires |fds| == |revents| && exists i :: 0 <= i < |fds| && revents[i] != {}
    requires total.Err? ==> total.error == EBADF && exists i :: 0 <= i < |fds| && NVAL in revents[i]
    requires total.Ok? ==> forall i :: 0 <= i < |fds| ==> NVAL !in revents[i]
    ensures Outcome(total, fds, revents, waits, round)
  {
  }

  /** Polls the entries, which start with nothing to report. */
  method PollEntries(fds: seq<PollFd>, open: set<nat>, files: FileAnswers, waits: seq<Wait>)
    returns (polled: Result<nat, Errno>, revents: seq<Events>, ghost round: nat)
    ensures Polled(fds, open, files, waits, round) && AreAnswers(revents, fds, open, files, round)
    ensures (forall i :: 0 <= i < |fds| ==> revents[i] == {}) <==> !(polled.Ok? && polled.value > 0)
    ensures !(polled.Ok? && polled.value > 0) && round < |waits| ==>
              !waits[round].Woken? && polled == if waits[round].Failed? then Err(waits[round].error) else Ok(0)
    ensures !(polled.Ok? && polled.value > 0) && round == |waits| ==> polled == Ok(0)
  {
    var cells := new Events[|fds|](i => NONE);
    polled, round := DoPoll(fds, open, files, waits, cells);
    revents := cells[..];
  }

  /** Polls the entries and puts the answer into the three cleared sets. */
  method PollAndCollect(fds: seq<PollFd>, r: FdSet?, w: FdSet?, x: FdSet?,
                        open: set<nat>, files: FileAnswers, waits: seq<Wait>)
    returns (total: Result<nat, Errno>, ghost revents: seq<Events>, ghost round: nat)
    requires Separate(r, w, x) && Ascending(fds) && Held(r, w, x) == NOTHING
    modifies Memory(r, w, x)
    ensures Polled(fds, open, files, waits, round) && AreAnswers(revents, fds, open, files, round)
    ensures Outcome(total, fds, revents, waits, round)
    ensures total.Ok? ==> total.value == Held(r, w, x).Size() && Tells(r, w, x, Held(r, w, x), fds, revents)
  {
    var polled, answers;
    polled, answers, round := PollEntries(fds, open, files, waits);
    revents := answers;
    assert Held(r, w, x) == NOTHING;
    if polled.Err? || polled.value == 0 {
      NothingExpected(r, w, x, fds, revents);
      ExpectedTells(r, w, x, fds, revents);
      WaitOutcome(polled, fds, revents, waits, round);
      return polled, revents, round;
    }
    total := Collect(fds, answers, r, w, x);
    ExpectedTells(r, w, x, fds, revents);
    CollectOutcome(total, fds, revents, waits, round);
  }

  /**
   `do_select`: on success the number of bits set in the three sets, which then hold
   exactly the polled descriptors that report the events each set stands for.
   */
  method DoSelect(nfds: RawFd, r: FdSet?, w: FdSet?, x: FdSet?, open: set<nat>, files: FileAnswers, waits: seq<Wait>)
    returns (total: Result<nat, Errno>, ghost fds: seq<PollFd>, ghost revents: seq<Events>, ghost round: nat)
    requires Separate(r, w, x)
    modifies Memory(r, w, x)
    ensures nfds < 0 || nfds > 1024 ==> total == Err(EINVAL) && Held(r, w, x) == old(Held(r, w, x))
    ensures 0 <= nfds <= 1024 ==>
              && Entries(fds, nfds, old(Held(r, w, x)))
              && Polled(fds, open, files, waits, round) && AreAnswers(revents, fds, open, files, round)
              && Outcome(total, fds, revents, waits, round)
    ensures total.Ok? ==>
              && 0 <= nfds <= 1024 && total.value == Held(r, w, x).Size()
              && Tells(r, w, x, Held(r, w, x), fds, revents)
  {
    fds, revents, round := [], [], 0;
    if nfds < 0 || nfds > FD_SETSIZE {
      return Err(EINVAL), fds, revents, round;
    }
    var entries := BuildEntries(nfds, r, w, x);
    fds := entries;
    ClearAll(r, w, x);
    total, revents, round := PollAndCollect(entries, r, w, x, open, files, waits);
  }
}
