/**
 CPU affinity masks in user memory: an array of 64-bit words, bit `b` of word `p` standing
 for CPU 64p + b.
 */
module Affinity {
  import opened Prelude
  import opened Words

  datatype Errno = EINVAL

  const SIZE_OF_PART: nat := 8

  // ---- What a mask means ----

  /** The word `part` holds exactly the CPUs of `cpus` from `base` on. */
  ghost predicate Holds(part: bv64, base: nat, cpus: set<nat>) {
    forall b :: 0 <= b < WORD_BITS ==> (Bit(part, b) <==> base + b in cpus)
  }

  function Parts(size: nat, numCpus: nat): nat {
    var room := size / SIZE_OF_PART;
    var needed := (numCpus + WORD_BITS - 1) / WORD_BITS;
    if room < needed then room else needed
  }

  /** As many words as the CPUs need, unless the buffer has room for fewer. */
  lemma PartsFit(size: nat, numCpus: nat, n: nat)
    requires n == Parts(size, numCpus)
    ensures 8 * n <= size && (n > 0 ==> 64 * (n - 1) < numCpus) && (numCpus <= 64 * n || size < 8 * (n + 1))
    ensures forall c: nat :: c < numCpus ==> (c / 64 < n <==> c / 64 < size / 8)
  {
  }

  // ---- Writing ----

  /** The CPUs taken from the set so far that belong to the word in hand. */
  ghost predicate Pending(part: bv64, idx: nat, cpus: set<nat>, rest: set<nat>) {
    && Holds(part, WORD_BITS * idx, cpus - rest)
    && (forall c :: c in rest ==> c >= WORD_BITS * idx && c in cpus)
    && (forall c :: c in cpus && c !in rest ==> c < WORD_BITS * (idx + 1))
  }

  lemma TakeNext(part: bv64, idx: nat, cpus: set<nat>, rest: set<nat>, id: nat)
    requires Pending(part, idx, cpus, rest) && id in rest && id / WORD_BITS == idx
    ensures Pending(WithBit(part, id % WORD_BITS), idx, cpus, rest - {id})
  {
    WithBitIs(part, id % WORD_BITS);
    var part' := WithBit(part, id % WORD_BITS);
    forall b | 0 <= b < WORD_BITS ensures Bit(part', b) <==> WORD_BITS * idx + b in cpus - (rest - {id}) {
      assert WORD_BITS * idx + b == id <==> b == id % WORD_BITS;
    }
  }

  /** Writes the words in hand up to, not including, word `upto`. */
  method Flush(memory: array<bv64>, part: bv64, idx: nat, upto: nat, ghost cpus: set<nat>, ghost rest: set<nat>)
    returns (part': bv64, ghost stores: seq<nat>)
    requires idx <= upto <= memory.Length && Pending(part, idx, cpus, rest)
    requires forall c :: c in rest ==> c >= WORD_BITS * upto
    modifies memory
    ensures forall p :: 0 <= p < idx || upto <= p < memory.Length ==> memory[p] == old(memory[p])
    ensures forall p :: idx <= p < upto ==> Holds(memory[p], WORD_BITS * p, cpus)
    ensures Pending(part', upto, cpus, rest)
    ensures stores == seq(upto - idx, i requires 0 <= i => idx + i)
  {
    part', stores := part, [];
    var p := idx;
    while p < upto
      invariant idx <= p <= upto && Pending(part', p, cpus, rest)
      invariant forall q :: 0 <= q < idx || p <= q < memory.Length ==> memory[q] == old(memory[q])
      invariant forall q :: idx <= q < p ==> Holds(memory[q], WORD_BITS * q, cpus)
      invariant |stores| == p - idx && forall i :: 0 <= i < |stores| ==> stores[i] == idx + i
    {
      memory[p], stores := part', stores + [p];
      ZeroHasNoBits();
      part' := 0;
      p := p + 1;
    }
  }

  /** The loop over the set: writes the first `nr` words, once and in order. */
  method WriteWords(cpus: set<nat>, nr: nat, memory: array<bv64>) returns (ghost stores: seq<nat>)
    requires nr <= memory.Length
    modifies memory
    ensures |stores| == nr && forall i :: 0 <= i < nr ==> stores[i] == i
    ensures forall p :: 0 <= p < nr ==> Holds(memory[p], WORD_BITS * p, cpus)
    ensures forall p :: nr <= p < memory.Length ==> memory[p] == old(memory[p])
  {
    stores := [];
    ghost var more;
    var part: bv64 := 0;
    var idx: nat := 0;
    ZeroHasNoBits();
    var rest := cpus;
    while rest != {}
      invariant idx <= nr && Pending(part, idx, cpus, rest)
      invariant forall p :: 0 <= p < idx ==> Holds(memory[p], WORD_BITS * p, cpus)
      invariant forall p :: nr <= p < memory.Length ==> memory[p] == old(memory[p])
      invariant |stores| == idx && forall i :: 0 <= i < |stores| ==> stores[i] == i
      decreases |rest|
    {
      var id := Smallest(rest);
      var upto := if id / WORD_BITS < nr then id / WORD_BITS else nr;
      part, more := Flush(memory, part, idx, upto, cpus, rest);
      idx, stores := upto, stores + more;
      if idx >= nr {
        break;
      }
      TakeNext(part, idx, cpus, rest, id);
      part := WithBit(part, id % WORD_BITS);
      rest := rest - {id};
    }
    if idx < nr {
      part, more := Flush(memory, part, idx, nr, cpus, rest);
      stores := stores + more;
    }
  }

  /**
   `write_cpu_set_to`: writes as many words as the CPUs need, or as fit, once each and in
   order, bit `b` of word `p` for CPU 64p + b, and nothing else.
   */
  method WriteCpuSet(cpus: set<nat>, size: nat, numCpus: nat, memory: array<bv64>)
    returns (r: Result<nat, Errno>, ghost stores: seq<nat>)
    requires size / SIZE_OF_PART <= memory.Length
    modifies memory
    ensures size == 0 ==> r == Err(EINVAL) && memory[..] == old(memory[..]) && stores == []
    ensures size > 0 ==> r == Ok(8 * |stores|) && stores == seq(|stores|, i => i)
    ensures size > 0 ==>
              var n := |stores|;
              8 * n <= size && (n > 0 ==> 64 * (n - 1) < numCpus) && (numCpus <= 64 * n || size < 8 * (n + 1))
    ensures forall p, b: nat :: 0 <= p < |stores| && b < 64 ==> (Bit(memory[p], b) <==> 64 * p + b in cpus)
    ensures forall p :: |stores| <= p < memory.Length ==> memory[p] == old(memory[p])
  {
    stores := [];
    if size == 0 {
      return Err(EINVAL), stores;
    }
    var nr := Parts(size, numCpus);
    PartsFit(size, numCpus, nr);
    stores := WriteWords(cpus, nr, memory);
    forall p | 0 <= p < nr ensures forall b: nat :: b < 64 ==> (Bit(memory[p], b) <==> 64 * p + b in cpus) {
      assert Holds(memory[p], WORD_BITS * p, cpus);
    }
    return Ok(nr * SIZE_OF_PART), stores;
  }

  // ---- Reading ----

  /** The CPUs a mask of `size` bytes names among the existing ones. */
  ghost function Named(words: seq<bv64>, size: nat, numCpus: nat): set<nat>
    requires size / 8 <= |words|
  {
    set c | 0 <= c < numCpus && c / 64 < size / 8 && Bit(words[c / 64], c % 64)
  }

  method ReadPart(word: bv64, base: nat, numCpus: nat, cpus: set<nat>) returns (cpus': set<nat>)
    ensures forall c: nat :: c in cpus' <==>
              c in cpus || (base <= c < base + WORD_BITS && c < numCpus && Bit(word, c - base))
  {
    cpus' := cpus;
    for b := 0 to WORD_BITS
      invariant forall c: nat :: c in cpus' <==>
                  c in cpus || (base <= c < base + b && c < numCpus && Bit(word, c - base))
    {
      if Bit(word, b) && base + b < numCpus {
        cpus' := cpus' + {base + b};
      }
    }
  }

  /** `read_cpu_set_from`: the named CPUs that exist; EINVAL if there are none. */
  method ReadCpuSet(words: seq<bv64>, size: nat, numCpus: nat) returns (r: Result<set<nat>, Errno>)
    requires size / SIZE_OF_PART <= |words|
    ensures var named := Named(words, size, numCpus);
            r == if named == {} then Err(EINVAL) else Ok(named)
  {
    if size == 0 {
      return Err(EINVAL);
    }
    var cpus: set<nat> := {};
    for p := 0 to Parts(size, numCpus)
      invariant forall c: nat :: c in cpus <==>
                  c < numCpus && c / WORD_BITS < p && Bit(words[c / WORD_BITS], c % WORD_BITS)
    {
      cpus := ReadPart(words[p], WORD_BITS * p, numCpus, cpus);
      forall c: nat ensures WORD_BITS * p <= c < WORD_BITS * p + WORD_BITS <==> c / WORD_BITS == p {}
      forall c: nat | c / WORD_BITS == p ensures c - WORD_BITS * p == c % WORD_BITS {}
    }
    PartsFit(size, numCpus, Parts(size, numCpus));
    assert cpus == Named(words, size, numCpus);
    if cpus == {} {
      return Err(EINVAL);
    }
    return Ok(cpus);
  }

  // ---- Round trip ----

  /** Reading a written mask back names exactly the members that fit and exist. */
  lemma WrittenIsNamed(words: seq<bv64>, n: nat, size: nat, numCpus: nat, cpus: set<nat>)
    requires size / 8 <= |words| && 8 * n <= size && (numCpus <= 64 * n || size < 8 * (n + 1))
    requires forall p, b: nat :: 0 <= p < n && b < 64 ==> (Bit(words[p], b) <==> 64 * p + b in cpus)
    ensures Named(words, size, numCpus) == set c | c in cpus && c < numCpus && c / 64 < size / 8
  {
    forall c: nat | c < numCpus && c / 64 < size / 8 ensures Bit(words[c / 64], c % 64) <==> c in cpus {
      assert c / 64 < n && 64 * (c / 64) + c % 64 == c;
    }
  }

  /**
   `sched_getaffinity` into a buffer, then `sched_setaffinity` from it: the CPUs that exist
   and whose word fits into the buffer come back.
   */
  method RoundTrip(cpus: set<nat>, size: nat, numCpus: nat) returns (r: Result<set<nat>, Errno>)
    ensures var fitting := set c | c in cpus && c < numCpus && c / 64 < size / 8;
            r == if fitting == {} then Err(EINVAL) else Ok(fitting)
  {
    var memory := new bv64[size / SIZE_OF_PART];
    ghost var stores;
    var written;
    written, stores := WriteCpuSet(cpus, size, numCpus, memory);
    r := ReadCpuSet(memory[..], size, numCpus);
    if size > 0 {
      WrittenIsNamed(memory[..], |stores|, size, numCpus, cpus);
    }
  }
}
