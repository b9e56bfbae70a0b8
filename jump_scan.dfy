/** The common shape of every `jump()` and `long_jump()` in the library: the
  * bits of a list of magic words are scanned least-significant bit first,
  * word after word; before the k-th call to `next()` the generator's current
  * state is XOR-ed into a set of accumulators when bit k is set, and the
  * accumulators finally replace the state. This module states that walk once,
  * for any state type, step function and XOR. */
module JumpScan {

  const One: bv64 := 1

  /** The state after `n` calls of `step` from `s`. */
  function Iterate<T>(step: T -> T, s: T, n: nat): (r: T)
  {
    if n == 0 then s else step(Iterate(step, s, n - 1))
  }

  /** Bit `i` of the word `v`: the test `val & (1 << bit) != 0` of the scan. */
  predicate Bit(v: bv64, i: nat)
    requires i < 64
  {
    v & (One << i) != 0
  }

  /** The accumulators after all bits of the magic words before word `w`
    * and the lowest `bit` bits of word `w` have been scanned from `s`: the
    * XOR of `Iterate(step, s, 64 * v + b)` over every scanned position
    * (word `v`, bit `b`) whose bit is set. */
  function Accumulate<T>(step: T -> T, xor: (T, T) -> T, zero: T, s: T, magic: seq<bv64>, w: nat, bit: nat): (r: T)
    requires bit <= 64
    requires w < |magic| || (w == |magic| && bit == 0)
    decreases w, bit
  {
    if bit == 0 then
      if w == 0 then zero else Accumulate(step, xor, zero, s, magic, w - 1, 64)
    else if Bit(magic[w], bit - 1) then
      xor(Accumulate(step, xor, zero, s, magic, w, bit - 1), Iterate(step, s, 64 * w + bit - 1))
    else
      Accumulate(step, xor, zero, s, magic, w, bit - 1)
  }

  /** Iterating from a fixed point of `step` never leaves it. */
  lemma {:induction false} IterateFixedPoint<T>(step: T -> T, z: T, n: nat)
    requires step(z) == z
    ensures Iterate(step, z, n) == z
  {
    if n > 0 {
      IterateFixedPoint(step, z, n - 1);
    }
  }

  /** A property that `step` preserves holds of every iterate. */
  lemma {:induction false} IterateKeeps<T>(step: T -> T, p: T -> bool, s: T, n: nat)
    requires p(s)
    requires forall x :: p(x) ==> p(step(x))
    ensures p(Iterate(step, s, n))
  {
    if n > 0 {
      IterateKeeps(step, p, s, n - 1);
    }
  }

  /** Scanning from a state that `step` fixes and that XOR-ed with itself
    * gives itself (the all-zero state) accumulates that state again. */
  lemma {:induction false} AccumulateFixedPoint<T>(step: T -> T, xor: (T, T) -> T, zero: T, magic: seq<bv64>, w: nat, bit: nat)
    requires bit <= 64
    requires w < |magic| || (w == |magic| && bit == 0)
    requires step(zero) == zero
    requires xor(zero, zero) == zero
    ensures Accumulate(step, xor, zero, zero, magic, w, bit) == zero
    decreases w, bit
  {
    if bit == 0 {
      if w > 0 {
        AccumulateFixedPoint(step, xor, zero, magic, w - 1, 64);
      }
    } else {
      AccumulateFixedPoint(step, xor, zero, magic, w, bit - 1);
      IterateFixedPoint(step, zero, 64 * w + bit - 1);
    }
  }

  /** One step of the scan, in the words of the loop: bit `bit` of magic word
    * `w` decides whether the state reached after `64 * w + bit` steps joins
    * the accumulators. */
  lemma ScanStep<T>(step: T -> T, xor: (T, T) -> T, zero: T, s: T, magic: seq<bv64>, w: nat, bit: nat)
    requires w < |magic| && bit < 64
    ensures Accumulate(step, xor, zero, s, magic, w, bit + 1)
         == if Bit(magic[w], bit)
            then xor(Accumulate(step, xor, zero, s, magic, w, bit), Iterate(step, s, 64 * w + bit))
            else Accumulate(step, xor, zero, s, magic, w, bit)
    ensures Iterate(step, s, 64 * w + bit + 1) == step(Iterate(step, s, 64 * w + bit))
  {
  }
}
