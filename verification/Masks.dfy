/** Guard masks: 64-bit words with one bit per guard atom. */
module Masks {
  /** `1 << b` on a uint64. */
  function BitMask(b: nat): bv64 { if b < 64 then 1 << b else 0 }

  function WithBit(m: bv64, b: nat): bv64 { m | BitMask(b) }

  predicate HasBit(g: bv64, b: nat) { g & BitMask(b) != 0 }

  predicate AllBits(g: bv64, n: nat) { forall b :: 0 <= b < n ==> HasBit(g, b) }

  /** Every bit of `m` is set in `g`. */
  predicate Covers(g: bv64, m: bv64) { g & m == m }

  /** Adding one bit to a mask adds one test. */
  lemma CoversWithBit(g: bv64, m: bv64, b: nat)
    requires b < 64
    ensures Covers(g, WithBit(m, b)) <==> Covers(g, m) && HasBit(g, b)
  {
    CoversUnion(g, m, BitMask(b));
    CoversBit(g, b);
  }

  lemma CoversUnion(g: bv64, m: bv64, n: bv64)
    ensures Covers(g, m | n) <==> Covers(g, m) && Covers(g, n)
  {
    if Covers(g, m) && Covers(g, n) {
      CoversBoth(g, m, n);
    }
    if Covers(g, m | n) {
      CoversPart(g, m, n);
      CoversPart(g, n, m);
    }
  }

  lemma CoversBoth(g: bv64, m: bv64, n: bv64)
    requires g & m == m && g & n == n
    ensures g & (m | n) == m | n
  {
  }

  lemma CoversPart(g: bv64, m: bv64, n: bv64)
    requires g & (m | n) == m | n
    ensures g & m == m && m | n == n | m
  {
  }

  lemma CoversBit(g: bv64, b: nat)
    requires b < 64
    ensures Covers(g, BitMask(b)) <==> HasBit(g, b)
  {
  }

  lemma CoversNothing(g: bv64)
    ensures Covers(g, 0)
  {
  }
}
