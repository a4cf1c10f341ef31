/**
 `sendfile`: copies from one file to another through a bounded buffer, under any pattern of
 short reads, short writes and errors, and leaves the right position behind on every path.
 */
module Sendfile {
  import opened Prelude

  datatype Errno = EINVAL | EBADF | EIO(code: int)

  /** What the environment does with one read or write: fail, or move at most `n` bytes. */
  datatype Outcome = Fail(error: Errno) | Upto(n: nat)

  const ISIZE_MAX: int := 0x7fff_ffff_ffff_ffff
  const MAX_COUNT: nat := 0x7fff_f000
  const BUFFER_SIZE: nat := 4096

  function Min(a: nat, b: nat): nat {
    if a < b then a else b
  }

  /** How many of `want` bytes are read at `at`. */
  function ReadLen(size: nat, at: nat, want: nat, n: nat): nat {
    if at >= size then 0 else Min(n, Min(want, size - at))
  }

  /** As many as are there, within both limits. */
  lemma ReadLenIs(size: nat, at: nat, want: nat, n: nat)
    ensures var len := ReadLen(size, at, want, n);
            && len <= n && len <= want && (len > 0 ==> at + len <= size)
            && (len == n || len == want || at + len >= size)
  {
  }

  /** The file read from; a failed read leaves the position alone. */
  class InFile {
    const data: seq<bv8>
    const seekable: bool
    const readable: bool
    const isDir: bool
    var pos: nat

    method ReadAt(at: nat, want: nat, o: Outcome) returns (r: Result<seq<bv8>, Errno>)
      ensures o.Fail? ==> r == Err(o.error)
      ensures o.Upto? ==> r.Ok? && |r.value| == ReadLen(|data|, at, want, o.n)
      ensures r.Ok? && |r.value| > 0 ==> at + |r.value| <= |data| && r.value == data[at..at + |r.value|]
    {
      match o
      case Fail(e) => return Err(e);
      case Upto(n) =>
        var len := ReadLen(|data|, at, want, n);
        return Ok(if len == 0 then [] else data[at..at + len]);
    }

    method Read(want: nat, o: Outcome) returns (r: Result<seq<bv8>, Errno>)
      modifies this
      ensures o.Fail? ==> r == Err(o.error) && pos == old(pos)
      ensures o.Upto? ==> r.Ok? && |r.value| == ReadLen(|data|, old(pos), want, o.n) && pos == old(pos) + |r.value|
      ensures r.Ok? && |r.value| > 0 ==>
                old(pos) + |r.value| <= |data| && r.value == data[old(pos)..old(pos) + |r.value|]
    {
      r := ReadAt(pos, want, o);
      if r.Ok? {
        pos := pos + |r.value|;
      }
    }
  }

  class OutFile {
    const writable: bool
    const append: bool
    const isPipe: bool
    var data: seq<bv8>

    method Write(bytes: seq<bv8>, o: Outcome) returns (r: Result<nat, Errno>)
      modifies this
      ensures o.Fail? ==> r == Err(o.error) && data == old(data)
      ensures o.Upto? ==> r == Ok(Min(o.n, |bytes|)) && data == old(data) + bytes[..Min(o.n, |bytes|)]
    {
      match o
      case Fail(e) => return Err(e);
      case Upto(n) =>
        data := data + bytes[..Min(n, |bytes|)];
        return Ok(Min(n, |bytes|));
    }
  }

  /** The checks before the transfer, in their order; the offset is read from user memory. */
  function Refusal(input: InFile, output: OutFile, offset: Option<int>, count: int): Option<Errno> {
    if offset.Some? && offset.value < 0 then Some(EINVAL)
    else if offset.Some? && offset.value + count > ISIZE_MAX then Some(EINVAL)
    else if count < 0 then Some(EINVAL)
    else if offset.None? && !input.seekable then Some(EINVAL)
    else if !input.readable then Some(EBADF)
    else if !output.writable then Some(EBADF)
    else if input.isDir then Some(EINVAL)
    else if !output.isPipe && output.append then Some(EINVAL)
    else None
  }

  /** An offset out of range, a negative count, or no offset where there is no position to use. */
  predicate BadCall(input: InFile, offset: Option<int>, count: int) {
    || (offset.Some? && (offset.value < 0 || offset.value + count > 0x7fff_ffff_ffff_ffff))
    || count < 0 || (offset.None? && !input.seekable)
  }

  predicate Admissible(input: InFile, output: OutFile, offset: Option<int>, count: int) {
    && !BadCall(input, offset, count) && input.readable && output.writable
    && !input.isDir && (output.append ==> output.isPipe)
  }

  /** No operation fails, and each moves at least `n` bytes if it has them. */
  ghost predicate AtLeast(o: nat -> Outcome, n: nat) {
    forall k :: o(k).Upto? && o(k).n >= n
  }

  /** The bytes from `start` on, `total` of them; nothing if there are none to send. */
  ghost function Slice(data: seq<bv8>, start: nat, total: nat): seq<bv8> {
    if total > 0 && start + total <= |data| then data[start..start + total] else []
  }

  lemma SliceGrows(before: seq<bv8>, data: seq<bv8>, start: nat, total: nat, len: nat)
    requires start + total + len <= |data|
    ensures before + Slice(data, start, total) + data[start + total..start + total + len]
         == before + Slice(data, start, total + len)
  {
    assert Slice(data, start, total) + data[start + total..start + total + len] == Slice(data, start, total + len);
  }

  /** How one turn of the loop ends; of `read` bytes, `len` were sent. */
  datatype Turn = ReadFailed(error: Errno) | EndOfFile | WriteFailed(error: Errno) | Sent(len: nat, read: nat)

  /** One turn of the loop; `before` is what the output held at the start, `total` what was sent since. */
  method OneTurn(input: InFile, output: OutFile, at: Option<nat>, want: nat, r: Outcome, w: Outcome,
                 ghost before: seq<bv8>, ghost start: nat, ghost total: nat)
    returns (t: Turn)
    requires want > 0 && start + total == (if at.Some? then at.value else input.pos)
    requires output.data == before + Slice(input.data, start, total)
    modifies input, output
    ensures t.ReadFailed? ==> r == Fail(t.error)
    ensures t.WriteFailed? ==> w == Fail(t.error)
    ensures !t.Sent? ==> output.data == old(output.data)
    ensures at.Some? || t.ReadFailed? || t.EndOfFile? ==> input.pos == old(input.pos)
    ensures var from := if at.Some? then at.value else old(input.pos);
            t.Sent? ==>
              && t.len <= t.read <= want && 0 < t.read && from + t.read <= |input.data|
              && output.data == before + Slice(input.data, start, total + t.len)
              && (at.None? ==> input.pos == from + t.read)
    ensures var from := if at.Some? then at.value else old(input.pos);
            r.Upto? && w.Upto? && w.n >= want ==>
              var len := ReadLen(|input.data|, from, want, r.n);
              t == if len == 0 then EndOfFile else Sent(len, len)
  {
    ghost var from := if at.Some? then at.value else input.pos;
    var got;
    if at.Some? {
      got := input.ReadAt(at.value, want, r);
    } else {
      got := input.Read(want, r);
    }
    if got.Err? { return ReadFailed(got.error); }
    if |got.value| == 0 { return EndOfFile; }
    var sent := output.Write(got.value, w);
    if sent.Err? { return WriteFailed(sent.error); }
    assert got.value[..sent.value] == input.data[from..from + sent.value];
    SliceGrows(before, input.data, start, total, sent.value);
    return Sent(sent.value, |got.value|);
  }

  /** The transfer loop, from `at` or from the file position. */
  method Transfer(input: InFile, output: OutFile, at: Option<nat>, limit: nat,
                  onRead: nat -> Outcome, onWrite: nat -> Outcome)
    returns (total: nat, shortWrite: bool, failed: Option<Errno>)
    modifies input, output
    ensures failed.Some? ==> onRead(0) == Fail(failed.value) || onWrite(0) == Fail(failed.value)
    ensures failed.Some? ==> output.data == old(output.data) && input.pos == old(input.pos)
    ensures var start := if at.Some? then at.value else old(input.pos);
            failed.None? ==>
              && total <= limit && (total > 0 ==> start + total <= |input.data|)
              && output.data == old(output.data) + Slice(input.data, start, total)
              && (at.Some? ==> input.pos == old(input.pos))
              && (at.None? && !shortWrite ==> input.pos == start + total)
    ensures var start := if at.Some? then at.value else old(input.pos);
            AtLeast(onRead, 1) && AtLeast(onWrite, BUFFER_SIZE) ==>
              failed.None? && total == ReadLen(|input.data|, start, limit, limit)
  {
    ghost var start := if at.Some? then at.value else input.pos;
    var origin := input.pos;
    ghost var before := output.data;
    var turn := 0;
    total, shortWrite, failed := 0, false, None;
    while total < limit
      invariant total <= limit && !shortWrite && failed.None? && (turn > 0 ==> total > 0)
      invariant input.pos == if at.Some? then origin else start + total
      invariant total > 0 ==> start + total <= |input.data|
      invariant output.data == before + Slice(input.data, start, total)
      decreases limit - total
    {
      var from := if at.Some? then Some(at.value + total) else None;
      var t := OneTurn(input, output, from, Min(BUFFER_SIZE, limit - total), onRead(turn), onWrite(turn),
                       before, start, total);
      match t {
        case ReadFailed(e) =>
          if total == 0 { failed := Some(e); }
          return;
        case EndOfFile =>
          return;
        case WriteFailed(e) =>
          if total > 0 {
            shortWrite := true;
          } else {
            if at.None? { input.pos := origin; }
            failed := Some(e);
          }
          return;
        case Sent(len, read) =>
          total := total + len;
          if len < read {
            shortWrite := true;
            return;
          }
      }
      turn := turn + 1;
    }
  }

  /**
   Sends at most `count` bytes from `offset`, or from the file position.  `offset'` is what
   user memory holds afterwards.
   */
  method SendFile(input: InFile, output: OutFile, offset: Option<int>, count: int,
                  onRead: nat -> Outcome, onWrite: nat -> Outcome)
    returns (r: Result<nat, Errno>, offset': Option<int>)
    modifies input, output
    ensures BadCall(input, offset, count) ==> r == Err(EINVAL)
    ensures !BadCall(input, offset, count) && (!input.readable || !output.writable) ==> r == Err(EBADF)
    ensures !BadCall(input, offset, count) && input.readable && output.writable ==>
              (input.isDir || (output.append && !output.isPipe)) ==> r == Err(EINVAL)
    ensures Admissible(input, output, offset, count) && r.Err? ==>
              onRead(0) == Fail(r.error) || onWrite(0) == Fail(r.error)
    ensures r.Err? ==> output.data == old(output.data) && input.pos == old(input.pos) && offset' == offset
    ensures r.Ok? ==>
              var start := if offset.Some? then offset.value else old(input.pos);
              && 0 <= start && r.value <= count && r.value <= 0x7fff_f000
              && (r.value > 0 ==> start + r.value <= |input.data|)
              && output.data == old(output.data) + Slice(input.data, start, r.value)
              && input.pos == (if offset.Some? then old(input.pos) else start + r.value)
              && offset' == (if offset.Some? then Some(start + r.value) else None)
    ensures Admissible(input, output, offset, count) && AtLeast(onRead, 1) && AtLeast(onWrite, BUFFER_SIZE) ==>
              var start := if offset.Some? then offset.value else old(input.pos);
              && r.Ok? && (r.value == count || r.value == 0x7fff_f000 || start + r.value >= |input.data|)
  {
    var refusal := Refusal(input, output, offset, count);
    if refusal.Some? {
      return Err(refusal.value), offset;
    }
    var origin := input.pos;
    var at: Option<nat> := if offset.Some? then Some(offset.value) else None;
    var total, shortWrite, failed := Transfer(input, output, at, Min(count, MAX_COUNT), onRead, onWrite);
    if failed.Some? {
      return Err(failed.value), offset;
    }
    if at.Some? {
      offset' := Some(at.value + total);
    } else {
      offset' := None;
      if shortWrite { input.pos := origin + total; }
    }
    r := Ok(total);
  }
}
