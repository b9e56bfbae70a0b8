/** SplitMix64: a one-word state advanced by a fixed odd constant (a Weyl
  * sequence), and an output mix of the new state. */
module SplitMix64 {
  import JumpScan
  import Source

  /** The increment added to the state by every `next()`. */
  const Gamma: bv64 := 0x9e3779b97f4a7c15

  /** `UInt64.max`. */
  const Max: bv64 := 0xffff_ffff_ffff_ffff

  /** 2^64, the number of distinct states. */
  const Modulus: int := 0x1_0000_0000_0000_0000

  /** The state after one `next()`: `state + Gamma`, wrapping modulo 2^64. */
  function Advance(s: bv64): (r: bv64)
  {
    s + Gamma
  }

  /** The outcome of Swift's checked `+=` on the state. */
  datatype Checked = Trap | Value(v: bv64)

  /** The state update exactly as `next()` writes it, with Swift's
    * overflow-checking `+=`: the program stops when the sum would exceed
    * `UInt64.max`, that is when `s > UInt64.max - Gamma`. */
  function AdvanceAsWritten(s: bv64): (r: Checked)
  {
    if s > Max - Gamma then Trap else Value(s + Gamma)
  }

  /** First mixing round: `(v ^ (v >> 30)) &* 0xbf58476d1ce4e5b9`. */
  function MixA(v: bv64): (r: bv64)
  {
    (v ^ (v >> 30)) * 0xbf58476d1ce4e5b9
  }

  /** Second mixing round: `(v ^ (v >> 27)) &* 0x94d049bb133111eb`. */
  function MixB(v: bv64): (r: bv64)
  {
    (v ^ (v >> 27)) * 0x94d049bb133111eb
  }

  /** Final round: `v ^ (v >> 31)`. */
  function MixC(v: bv64): (r: bv64)
  {
    v ^ (v >> 31)
  }

  /** The word `next()` returns for the (already advanced) state `v`. */
  function Mix(v: bv64): (r: bv64)
  {
    MixC(MixB(MixA(v)))
  }

  // Unfolding lemmas: the proof of `Next` calls these on the method's own
  // words, so that each equation it needs is stated about exactly the terms
  // the method computes.

  lemma MixDef(v: bv64)
    ensures Mix(v) == MixC(MixB(MixA(v)))
  {
  }

  lemma MixADef(v: bv64)
    ensures MixA(v) == (v ^ (v >> 30)) * 0xbf58476d1ce4e5b9
  {
  }

  lemma MixBDef(v: bv64)
    ensures MixB(v) == (v ^ (v >> 27)) * 0x94d049bb133111eb
  {
  }

  lemma MixCDef(v: bv64)
    ensures MixC(v) == v ^ (v >> 31)
  {
  }

  class Generator {
    var state: bv64

    /** `init(seed:)`: every seed is accepted, zero included, and stored
      * unchanged. */
    constructor FromSeed(seed: bv64)
      ensures state == seed
    {
      state := seed;
    }

    /** `init(generator:)`: exactly one draw becomes the state. */
    constructor FromGenerator(g: Source.WordSource)
      requires |g.pending| >= 1
      modifies g
      ensures state == old(g.pending)[0]
      ensures g.pending == old(g.pending)[1..]
    {
      var w := g.Next();
      state := w;
    }

    /** `next()`: advances the state by `Gamma` (wrapping) and returns the mix
      * of the new state. */
    method Next() returns (r: bv64)
      modifies this
      ensures state == Advance(old(state))
      ensures r == Mix(state)
    {
      state := state + Gamma;
      var result := state;
      MixDef(result);
      MixADef(result);
      result := (result ^ (result >> 30)) * 0xbf58476d1ce4e5b9;
      MixBDef(result);
      result := (result ^ (result >> 27)) * 0x94d049bb133111eb;
      MixCDef(result);
      r := result ^ (result >> 31);
    }

    /** `==`: two generators are equal exactly when their states are. */
    method Equals(other: Generator) returns (b: bool)
      ensures b <==> state == other.state
    {
      b := state == other.state;
    }
  }

  /** Swift's checked `+=` and the wrapping `Advance` agree wherever the sum
    * fits in 64 bits, and the checked one traps exactly where it does not. */
  lemma AsWrittenAgrees(s: bv64)
    ensures AdvanceAsWritten(s) == Trap <==> s as int + Gamma as int >= Modulus
    ensures AdvanceAsWritten(s) != Trap ==> AdvanceAsWritten(s) == Value(Advance(s))
  {
    GuardIsOverflow(s);
  }

  /** The trap guard on words is the overflow of the mathematical sum. */
  lemma GuardIsOverflow(s: bv64)
    ensures s > Max - Gamma <==> s as int + Gamma as int >= Modulus
  {
  }

  /** As written, `next()` traps on the very first call for the seed
    * `UInt64.max`, although the library's own expected output for that seed
    * is defined. */
  lemma AsWrittenTrapsOnMaxSeed()
    ensures AdvanceAsWritten(Max) == Trap
  {
  }

  /** Because `Gamma` exceeds 2^63, the checked `+=` cannot succeed twice in a
    * row: from every seed, `next()` as written traps on the first or the
    * second call. */
  lemma AsWrittenTrapsBySecondCall(s: bv64)
    ensures AdvanceAsWritten(s) == Trap || AdvanceAsWritten(s + Gamma) == Trap
  {
    TrapsBySecondCallWords(s);
  }

  /** `AsWrittenTrapsBySecondCall` in terms of words: one of the two sums
    * overflows. */
  lemma TrapsBySecondCallWords(s: bv64)
    ensures s > Max - Gamma || s + Gamma > Max - Gamma
  {
  }

  /** Seeded with `UInt64.max`, the first `next()` of the wrapping model
    * returns 16490336266968443936. */
  lemma FirstOutputFromMax()
    ensures Advance(Max) == 0x9e3779b97f4a7c14
    ensures Mix(Advance(Max)) == 16490336266968443936
  {
  }

  /** `n` taken modulo 2^64, as a 64-bit word: `n` wrapping increments of 0. */
  function Count(n: nat): (r: bv64)
  {
    if n == 0 then 0 else Count(n - 1) + 1
  }

  /** The Weyl-sequence closed form: `seed + k * Gamma` modulo 2^64. */
  function Weyl(seed: bv64, k: bv64): (r: bv64)
  {
    seed + Gamma * k
  }

  /** One `next()` moves the closed form from `k - 1` to `k` increments. */
  lemma WeylStep(seed: bv64, k: bv64)
    ensures Advance(Weyl(seed, k - 1)) == Weyl(seed, k)
  {
  }

  lemma WeylZero(seed: bv64)
    ensures Weyl(seed, 0) == seed
  {
  }

  lemma CountPred(n: nat, k: bv64)
    requires n > 0 && k == Count(n)
    ensures k - 1 == Count(n - 1)
  {
  }

  /** After `n` calls of `next()` the state is `seed + n * Gamma` modulo 2^64. */
  lemma StateAfter(seed: bv64, n: nat)
    ensures JumpScan.Iterate(Advance, seed, n) == Weyl(seed, Count(n))
  {
    StateAfterCount(seed, n, Count(n));
  }

  /** `StateAfter` with the wrapped count `k` of calls as a word. */
  lemma {:induction false} StateAfterCount(seed: bv64, n: nat, k: bv64)
    requires k == Count(n)
    ensures JumpScan.Iterate(Advance, seed, n) == Weyl(seed, k)
  {
    if n == 0 {
      WeylZero(seed);
    } else {
      CountPred(n, k);
      StateAfterCount(seed, n - 1, k - 1);
      WeylStep(seed, k);
    }
  }
}
