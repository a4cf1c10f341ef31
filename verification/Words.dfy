/** Single bits of 64-bit words. */
module Words {
  const WORD_BITS: nat := 64

  function Mask(k: bv6): bv64 {
    (1 as bv64) << k
  }

  predicate BitAt(word: bv64, k: bv6) {
    word & Mask(k) != 0
  }

  function Index(b: nat): (k: bv6)
    requires b < WORD_BITS
    ensures k as nat == b
  {
    if b == 0 then 0 else Index(b - 1) + 1
  }

  predicate Bit(word: bv64, b: nat)
    requires b < WORD_BITS
  {
    BitAt(word, Index(b))
  }

  function WithBit(word: bv64, b: nat): bv64
    requires b < WORD_BITS
  {
    word | Mask(Index(b))
  }

  lemma MasksApart(k: bv6, j: bv6)
    ensures Mask(k) != 0 && Mask(k) & Mask(j) == if k == j then Mask(k) else 0
  {
  }

  lemma Distributes(p: bv64, m: bv64, n: bv64)
    ensures (p | m) & n == (p & n) | (m & n)
  {
  }

  lemma OrIsZero(p: bv64, m: bv64)
    ensures p | m == 0 <==> p == 0 && m == 0
  {
  }

  lemma OrBit(word: bv64, k: bv6, j: bv6)
    ensures BitAt(word | Mask(k), j) == (BitAt(word, j) || j == k)
  {
    var m, n := Mask(k), Mask(j);
    MasksApart(k, j);
    Distributes(word, m, n);
    OrIsZero(word & n, m & n);
  }

  /** Bit `k` of a word is its binary digit of weight 2 to the power `k`. */
  lemma BitIsDigit(word: bv64, k: bv6)
    ensures Bit(word, k as nat) <==> (word >> k) & 1 == 1
  {
    IndexOf(k);
    assert word & Mask(k) != 0 <==> (word >> k) & 1 == 1;
  }

  lemma IndexOf(k: bv6)
    ensures Index(k as nat) == k
  {
  }

  /** Setting a bit sets that bit and no other. */
  lemma WithBitIs(word: bv64, b: nat)
    requires b < WORD_BITS
    ensures forall j :: 0 <= j < WORD_BITS ==> Bit(WithBit(word, b), j) == (Bit(word, j) || j == b)
  {
    forall j | 0 <= j < WORD_BITS ensures Bit(WithBit(word, b), j) == (Bit(word, j) || j == b) {
      OrBit(word, Index(b), Index(j));
    }
  }

  lemma ZeroHasNoBits()
    ensures forall j :: 0 <= j < WORD_BITS ==> !Bit(0, j)
  {
    forall j | 0 <= j < WORD_BITS ensures !Bit(0, j) { ZeroBit(Index(j)); }
  }

  lemma ZeroBit(k: bv6)
    ensures !BitAt(0, k)
  {
  }
}
