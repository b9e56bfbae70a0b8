/** The 2016 xoroshiro128+ generator (`Xoroshiro128PlusDRBG`), constants
  * a = 55, b = 14, c = 36, with its rotations written out inline. */
module Xoroshiro128PlusDrbg {
  import Rotation
  import JumpScan
  import Source

  /** The generator's 128-bit state, the Swift tuple `(UInt64, UInt64)`. */
  datatype State = State(s0: bv64, s1: bv64)

  /** The all-zero state that seeding must avoid. */
  const Zero := State(0, 0)

  /** Word-wise XOR of two states, as the jump accumulators combine them. */
  function Xor(a: State, b: State): (r: State)
  {
    State(a.s0 ^ b.s0, a.s1 ^ b.s1)
  }

  /** The word `next()` returns from the state words `s0`, `s1`: their
    * wrapping sum `s0 &+ s1`. */
  function Output(s0: bv64, s1: bv64): (r: bv64)
  {
    s0 + s1
  }

  /** The state `next()` leaves behind from the state words `s0`, `s1`:
    * `x = s0 ^ s1`, then `Mix`. */
  function Step(s0: bv64, s1: bv64): (r: State)
  {
    Mix(s0, s0 ^ s1)
  }

  /** The two new state words from the old `s0` and `x`, with the rotations
    * by 55 and 36 spelled as a pair of shifts, as `next()` spells them. */
  function Mix(s0: bv64, x: bv64): (r: State)
  {
    State(((s0 << 55) | (s0 >> 9)) ^ x ^ (x << 14), (x << 36) | (x >> 28))
  }

  /** `Step` as a function of states: what the jump iterates. */
  function NextState(s: State): (r: State)
  {
    Step(s.s0, s.s1)
  }

  // Unfolding lemmas: the proofs of `Next` call these on the method's own
  // words, so that each equation it needs is stated about exactly the terms
  // the method computes. Each restates one function's body on purpose: left to
  // unfold a bit-vector function over datatype fields by itself, the verifier
  // spends far more, because it also tracks which facts each step uses. The
  // other generator modules follow the same pattern.

  lemma OutputDef(s0: bv64, s1: bv64)
    ensures Output(s0, s1) == s0 + s1
  {
  }

  lemma StepDef(s0: bv64, s1: bv64)
    ensures Step(s0, s1) == Mix(s0, s0 ^ s1)
  {
  }

  lemma MixDef(s0: bv64, x: bv64)
    ensures Mix(s0, x) == State(((s0 << 55) | (s0 >> 9)) ^ x ^ (x << 14), (x << 36) | (x >> 28))
  {
  }

  lemma NextStateDef(s: State)
    ensures NextState(s) == Step(s.s0, s.s1)
  {
  }

  /** The inline shift pairs of `next()` are the library's left rotations by
    * 55 and 36, so this generator is xoroshiro128+ with a = 55, c = 36. */
  lemma InlineRotations(v: bv64)
    ensures (v << 55) | (v >> 9) == Rotation.RotatedLeft(v, 55)
    ensures (v << 36) | (v >> 28) == Rotation.RotatedLeft(v, 36)
  {
  }

  const JumpMagic: seq<bv64> := [0xbeac0467eba5facb, 0xd86b048b86aa9922]

  /** The state that scanning `magic` from `s` produces. */
  function Scanned(s: State, magic: seq<bv64>): (r: State)
  {
    JumpScan.Accumulate(NextState, Xor, Zero, s, magic, |magic|, 0)
  }

  /** `JumpScan.ScanStep` for this generator's step and XOR. */
  lemma ScanStep(start: State, magic: seq<bv64>, w: nat, bit: nat)
    requires w < |magic| && bit < 64
    ensures JumpScan.Accumulate(NextState, Xor, Zero, start, magic, w, bit + 1)
         == if JumpScan.Bit(magic[w], bit)
            then Xor(JumpScan.Accumulate(NextState, Xor, Zero, start, magic, w, bit),
                     JumpScan.Iterate(NextState, start, 64 * w + bit))
            else JumpScan.Accumulate(NextState, Xor, Zero, start, magic, w, bit)
    ensures JumpScan.Iterate(NextState, start, 64 * w + bit + 1)
         == NextState(JumpScan.Iterate(NextState, start, 64 * w + bit))
  {
    JumpScan.ScanStep(NextState, Xor, Zero, start, magic, w, bit);
  }

  class Generator {
    var state: State

    /** `init(seed:)`: any seed but the zero state, stored unchanged. */
    constructor FromSeed(seed: State)
      requires seed != Zero
      ensures state == seed
    {
      state := seed;
    }

    /** `init(drbg:)`: the first draw fills word 0, the second word 1. */
    constructor FromDrbg(g: Source.WordSource)
      requires |g.pending| >= 2
      modifies g
      ensures state == State(old(g.pending)[0], old(g.pending)[1])
      ensures g.pending == old(g.pending)[2..]
    {
      var a := g.Next();
      var b := g.Next();
      state := State(a, b);
    }

    /** `next()`: returns the output of the pre-call state and steps it. */
    method Next() returns (r: bv64)
      modifies this
      ensures r == Output(old(state).s0, old(state).s1)
      ensures state == NextState(old(state))
    {
      NextStateDef(state);
      var s0 := state.s0;
      var s1 := state.s1;
      OutputDef(s0, s1);
      StepDef(s0, s1);
      r := s0 + s1;
      var x := s0 ^ s1;
      MixDef(s0, x);
      state := State(((s0 << 55) | (s0 >> 9)) ^ x ^ (x << 14), (x << 36) | (x >> 28));
    }

    /** The inner loop of `jump()` for magic word `w`: one `next()` per bit,
      * XOR-ing the current state into the accumulators `acc` when the bit
      * is set. */
    method ScanWord(magic: seq<bv64>, w: nat, ghost start: State, acc: State) returns (acc': State)
      requires w < |magic|
      requires state == JumpScan.Iterate(NextState, start, 64 * w)
      requires acc == JumpScan.Accumulate(NextState, Xor, Zero, start, magic, w, 0)
      modifies this
      ensures state == JumpScan.Iterate(NextState, start, 64 * w + 64)
      ensures acc' == JumpScan.Accumulate(NextState, Xor, Zero, start, magic, w, 64)
    {
      acc' := acc;
      var val := magic[w];
      for bit := 0 to 64
        invariant state == JumpScan.Iterate(NextState, start, 64 * w + bit)
        invariant acc' == JumpScan.Accumulate(NextState, Xor, Zero, start, magic, w, bit)
      {
        ScanStep(start, magic, w, bit);
        if JumpScan.Bit(val, bit) {
          acc' := Xor(acc', state);
        }
        var _ := Next();
      }
    }

    /** `jump()`: the accumulators start at zero, take in both magic words,
      * and replace the state. */
    method Jump()
      modifies this
      ensures state == Scanned(old(state), JumpMagic)
    {
      ghost var start := state;
      var acc := Zero;
      for w := 0 to |JumpMagic|
        invariant state == JumpScan.Iterate(NextState, start, 64 * w)
        invariant acc == JumpScan.Accumulate(NextState, Xor, Zero, start, JumpMagic, w, 0)
      {
        acc := ScanWord(JumpMagic, w, start, acc);
      }
      state := acc;
    }

    /** `==`: two generators are equal exactly when their states are. */
    method Equals(other: Generator) returns (b: bool)
      ensures b <==> state == other.state
    {
      b := state == other.state;
    }
  }

  /** `next()` leaves the zero state exactly when it starts from it: zero is a
    * fixed point and no other state reaches it. */
  lemma StepZeroIff(s0: bv64, s1: bv64)
    ensures Step(s0, s1) == Zero <==> s0 == 0 && s1 == 0
  {
    StepDef(s0, s1);
    MixDef(s0, s0 ^ s1);
  }

  /** `StepZeroIff` for state values. */
  lemma NextStateZeroIff(s: State)
    ensures NextState(s) == Zero <==> s == Zero
  {
    NextStateDef(s);
    StepZeroIff(s.s0, s.s1);
  }

  /** A generator seeded away from zero never reaches the zero state, however
    * many times `next()` is called. */
  lemma {:induction false} NeverZero(s: State, n: nat)
    requires s != Zero
    ensures JumpScan.Iterate(NextState, s, n) != Zero
  {
    forall x: State | x != Zero
      ensures NextState(x) != Zero
    {
      NextStateZeroIff(x);
    }
    JumpScan.IterateKeeps(NextState, (x: State) => x != Zero, s, n);
  }

  /** The zero state is a fixed point of `next()` with output 0, and the jump
    * maps it to itself. */
  lemma ZeroIsStuck(n: nat)
    ensures Output(0, 0) == 0 && JumpScan.Iterate(NextState, Zero, n) == Zero
    ensures Scanned(Zero, JumpMagic) == Zero
  {
    NextStateZeroIff(Zero);
    JumpScan.IterateFixedPoint(NextState, Zero, n);
    JumpScan.AccumulateFixedPoint(NextState, Xor, Zero, JumpMagic, 2, 0);
  }
}
