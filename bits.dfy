/**
 * Single bits of a two's-complement integer, as Kotlin's `and`/`or`/`inv()` and
 * C++'s `&`/`|` see them. Dafny's `/` and `%` are Euclidean, so `x % 2` is the
 * low bit and `x / 2` the arithmetic right shift for negative `x` too.
 */
module Bits {

  function Pow2(k: nat): (r: nat)
    ensures r >= 1
  {
    if k == 0 then 1 else 2 * Pow2(k - 1)
  }

  /** Bit `k` of `x` is one (`(x and (1 shl k)) != 0`). */
  predicate BitSet(x: int, k: nat)
    decreases k
  {
    if k == 0 then x % 2 == 1 else BitSet(x / 2, k - 1)
  }

  /** `x or (1 shl k)`. */
  function SetBit(x: int, k: nat): int {
    if BitSet(x, k) then x else x + Pow2(k)
  }

  /** `x and (1 shl k).inv()`. */
  function ClearBit(x: int, k: nat): int {
    if BitSet(x, k) then x - Pow2(k) else x
  }

  /** Adding `2^k` to a number whose bit `k` is clear sets that bit and no other. */
  lemma {:induction false} AddPow2Bits(x: int, k: nat, j: nat)
    requires !BitSet(x, k)
    ensures BitSet(x + Pow2(k), j) <==> (j == k || BitSet(x, j))
    decreases k
  {
    if k == 0 {
      assert (x + 1) / 2 == x / 2;
    } else {
      assert (x + Pow2(k)) % 2 == x % 2;
      assert (x + Pow2(k)) / 2 == x / 2 + Pow2(k - 1);
      if j > 0 {
        AddPow2Bits(x / 2, k - 1, j - 1);
      }
    }
  }

  /** Subtracting `2^k` from a number whose bit `k` is set clears that bit and no other. */
  lemma {:induction false} SubPow2Bits(x: int, k: nat, j: nat)
    requires BitSet(x, k)
    ensures BitSet(x - Pow2(k), j) <==> (j != k && BitSet(x, j))
    decreases k
  {
    if k == 0 {
      assert (x - 1) / 2 == x / 2;
    } else {
      assert (x - Pow2(k)) % 2 == x % 2;
      assert (x - Pow2(k)) / 2 == x / 2 - Pow2(k - 1);
      if j > 0 {
        SubPow2Bits(x / 2, k - 1, j - 1);
      }
    }
  }

  /** `SetBit` sets bit `k` and leaves every other bit as it was. */
  lemma SetBitBits(x: int, k: nat, j: nat)
    ensures BitSet(SetBit(x, k), j) <==> (j == k || BitSet(x, j))
  {
    if !BitSet(x, k) {
      AddPow2Bits(x, k, j);
    }
  }

  /** `ClearBit` clears bit `k` and leaves every other bit as it was. */
  lemma ClearBitBits(x: int, k: nat, j: nat)
    ensures BitSet(ClearBit(x, k), j) <==> (j != k && BitSet(x, j))
  {
    if BitSet(x, k) {
      SubPow2Bits(x, k, j);
    }
  }

  /** Clearing the bit undoes setting it when it was clear, and vice versa. */
  lemma SetClearInverse(x: int, k: nat)
    ensures !BitSet(x, k) ==> ClearBit(SetBit(x, k), k) == x
    ensures BitSet(x, k) ==> SetBit(ClearBit(x, k), k) == x
  {
    SetBitBits(x, k, k);
    ClearBitBits(x, k, k);
  }
}
