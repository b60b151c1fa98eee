/**
 * Restriction masks are Java ints (32 bits) in which each bit is one
 * restriction flag. This module gives masks their meaning bit by bit, so
 * that the bitwise test on masks can be stated as a fact about flags.
 */
module Flags {

  /** Bit `i` of mask `x` is set. */
  predicate HasBit(x: bv32, i: bv32)
    requires i < 32
  {
    (x >> i) & 1 == 1
  }

  /** Some flag is set in both `a` and `b`. */
  ghost predicate SharesFlag(a: bv32, b: bv32)
  {
    exists i: bv32 :: i < 32 && HasBit(a, i) && HasBit(b, i)
  }

  /** A bit of `a & b` is set exactly when it is set in both. */
  lemma AndBit(a: bv32, b: bv32, i: bv32)
    requires i < 32
    ensures HasBit(a & b, i) <==> HasBit(a, i) && HasBit(b, i)
  {
  }

  /** A bit of `a | b` is set exactly when it is set in either. */
  lemma OrBit(a: bv32, b: bv32, i: bv32)
    requires i < 32
    ensures HasBit(a | b, i) <==> HasBit(a, i) || HasBit(b, i)
  {
  }

  /** If no bit at or above `k` is set, shifting right by `k` leaves nothing. */
  lemma {:induction false} HighBitsClear(x: bv32, k: bv32)
    requires k <= 32
    requires forall i: bv32 :: k <= i < 32 ==> !HasBit(x, i)
    ensures x >> k == 0
    decreases 32 - k
  {
    if k < 32 {
      HighBitsClear(x, k + 1);
      assert !HasBit(x, k);
      assert x >> k == ((x >> (k + 1)) << 1) | ((x >> k) & 1);
    }
  }

  /** A mask is non-zero exactly when some bit of it is set. */
  lemma NonZeroIffSomeBit(x: bv32)
    ensures x != 0 <==> exists i: bv32 :: i < 32 && HasBit(x, i)
  {
    if forall i: bv32 :: i < 32 ==> !HasBit(x, i) {
      HighBitsClear(x, 0);
    }
  }

  /** `a & b` is non-zero exactly when `a` and `b` share a flag. */
  lemma AndNonZeroIffShared(a: bv32, b: bv32)
    ensures a & b != 0 <==> SharesFlag(a, b)
  {
    NonZeroIffSomeBit(a & b);
    if a & b != 0 {
      var i: bv32 :| i < 32 && HasBit(a & b, i);
      AndBit(a, b, i);
    } else if SharesFlag(a, b) {
      var i: bv32 :| i < 32 && HasBit(a, i) && HasBit(b, i);
      AndBit(a, b, i);
    }
  }

  /** `a` shares a flag with `b | c` exactly when it shares one with `b` or with `c`. */
  lemma SharesFlagOr(a: bv32, b: bv32, c: bv32)
    ensures SharesFlag(a, b | c) <==> SharesFlag(a, b) || SharesFlag(a, c)
  {
    if SharesFlag(a, b | c) {
      var i: bv32 :| i < 32 && HasBit(a, i) && HasBit(b | c, i);
      OrBit(b, c, i);
    }
    if SharesFlag(a, b) {
      var i: bv32 :| i < 32 && HasBit(a, i) && HasBit(b, i);
      OrBit(b, c, i);
    }
    if SharesFlag(a, c) {
      var i: bv32 :| i < 32 && HasBit(a, i) && HasBit(c, i);
      OrBit(b, c, i);
    }
  }
}
