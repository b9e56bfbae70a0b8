/** xoroshiro128++: constants a = 49, b = 21, c = 28 and a rotate-add output. */
module Xoroshiro128PlusPlus {
  import Rotation
  import JumpScan
  import Source

  /** The generator's 128-bit state, the Swift tuple `(UInt64, UInt64)`. */
  datatype State = State(s0: bv64, s1: bv64)

  /** The all-zero state that seeding must avoid. */
  const Zero := State(0, 0)

  /** Word-wise XOR of two states, as the jump accumulators combine them. */
  function Xor(a: State, b: State): (r: State)
  {
    State(a.s0 ^ b.s0, a.s1 ^ b.s1)
  }

  /** The word `next()` returns from the state words `s0`, `s1`: their
    * wrapping sum rotated left by 17, plus `s0` (wrapping). */
  function Output(s0: bv64, s1: bv64): (r: bv64)
  {
    Rotation.RotatedLeft(s0 + s1, 17) + s0
  }

  /** The state `next()` leaves behind from the state words `s0`, `s1`:
    * `s1 ^= s0`, then `Scramble`. */
  function Step(s0: bv64, s1: bv64): (r: State)
  {
    Scramble(s0, s1 ^ s0)
  }

  /** The two new state words, computed from `s0` and the updated `s1`. */
  function Scramble(s0: bv64, s1: bv64): (r: State)
  {
    State(Rotation.RotatedLeft(s0, 49) ^ s1 ^ (s1 << 21), Rotation.RotatedLeft(s1, 28))
  }

  /** `Step` as a function of states: what the jumps iterate. */
  function NextState(s: State): (r: State)
  {
    Step(s.s0, s.s1)
  }

  // Unfolding lemmas: the proofs of `Next` call these on the method's own
  // words, so that each equation it needs is stated about exactly the terms
  // the method computes.

  lemma OutputDef(s0: bv64, s1: bv64)
    ensures Output(s0, s1) == Rotation.RotatedLeft(s0 + s1, 17) + s0
  {
  }

  lemma StepDef(s0: bv64, s1: bv64)
    ensures Step(s0, s1) == Scramble(s0, s1 ^ s0)
  {
  }

  lemma ScrambleDef(s0: bv64, s1: bv64)
    ensures Scramble(s0, s1) == State(Rotation.RotatedLeft(s0, 49) ^ s1 ^ (s1 << 21), Rotation.RotatedLeft(s1, 28))
  {
  }

  lemma NextStateDef(s: State)
    ensures NextState(s) == Step(s.s0, s.s1)
  {
  }

  const JumpMagic: seq<bv64> := [0x2bd7a6a6e99c2ddc, 0x0992ccaf6a6fca05]
  const LongJumpMagic: seq<bv64> := [0x360fd5f2cf8d5d99, 0x9c6e6877736c46e3]

  /** The state that scanning `magic` from `s` produces. */
  function Scanned(s: State, magic: seq<bv64>): (r: State)
  {
    JumpScan.Accumulate(NextState, Xor, Zero, s, magic, |magic|, 0)
  }

  /** `JumpScan.ScanStep` for this generator's step and XOR. */
  lemma ScanStep(start: State, magic: seq<bv64>, w: nat, bit: nat)
    requires w < |magic| && bit < 64
    ensures JumpScan.Accumulate(NextState, Xor, Zero, start, magic, w, bit + 1)
         == if JumpScan.Bit(magic[w], bit)
            then Xor(JumpScan.Accumulate(NextState, Xor, Zero, start, magic, w, bit),
                     JumpScan.Iterate(NextState, start, 64 * w + bit))
            else JumpScan.Accumulate(NextState, Xor, Zero, start, magic, w, bit)
    ensures JumpScan.Iterate(NextState, start, 64 * w + bit + 1)
         == NextState(JumpScan.Iterate(NextState, start, 64 * w + bit))
  {
    JumpScan.ScanStep(NextState, Xor, Zero, start, magic, w, bit);
  }

  class Generator {
    var state: State

    /** `init(seed:)`: any seed but the zero state, stored unchanged. */
    constructor FromSeed(seed: State)
      requires seed != Zero
      ensures state == seed
    {
      state := seed;
    }

    /** `init(generator:)`: the first draw fills word 0, the second word 1. */
    constructor FromGenerator(g: Source.WordSource)
      requires |g.pending| >= 2
      modifies g
      ensures state == State(old(g.pending)[0], old(g.pending)[1])
      ensures g.pending == old(g.pending)[2..]
    {
      var a := g.Next();
      var b := g.Next();
      state := State(a, b);
    }

    /** `next()`: returns the output of the pre-call state and steps it. */
    method Next() returns (r: bv64)
      modifies this
      ensures r == Output(old(state).s0, old(state).s1)
      ensures state == NextState(old(state))
    {
      NextStateDef(state);
      var s0 := state.s0;
      var s1 := state.s1;
      OutputDef(s0, s1);
      StepDef(s0, s1);
      r := Rotation.RotatedLeft(s0 + s1, 17) + s0;
      s1 := s1 ^ s0;
      ScrambleDef(s0, s1);
      state := State(Rotation.RotatedLeft(s0, 49) ^ s1 ^ (s1 << 21), Rotation.RotatedLeft(s1, 28));
    }

    /** The inner loop of `jump()` and `long_jump()` for magic word `w`: one
      * `next()` per bit, XOR-ing the current state into the accumulators
      * `acc` when the bit is set. */
    method ScanWord(magic: seq<bv64>, w: nat, ghost start: State, acc: State) returns (acc': State)
      requires w < |magic|
      requires state == JumpScan.Iterate(NextState, start, 64 * w)
      requires acc == JumpScan.Accumulate(NextState, Xor, Zero, start, magic, w, 0)
      modifies this
      ensures state == JumpScan.Iterate(NextState, start, 64 * w + 64)
      ensures acc' == JumpScan.Accumulate(NextState, Xor, Zero, start, magic, w, 64)
    {
      acc' := acc;
      var val := magic[w];
      for bit := 0 to 64
        invariant state == JumpScan.Iterate(NextState, start, 64 * w + bit)
        invariant acc' == JumpScan.Accumulate(NextState, Xor, Zero, start, magic, w, bit)
      {
        ScanStep(start, magic, w, bit);
        if JumpScan.Bit(val, bit) {
          acc' := Xor(acc', state);
        }
        var _ := Next();
      }
    }

    /** The outer loop shared by `jump()` and `long_jump()`: the accumulators
      * start at zero, take in every magic word, and replace the state. */
    method ScanMagic(magic: seq<bv64>)
      modifies this
      ensures state == Scanned(old(state), magic)
    {
      ghost var start := state;
      var acc := Zero;
      for w := 0 to |magic|
        invariant state == JumpScan.Iterate(NextState, start, 64 * w)
        invariant acc == JumpScan.Accumulate(NextState, Xor, Zero, start, magic, w, 0)
      {
        acc := ScanWord(magic, w, start, acc);
      }
      state := acc;
    }

    /** `jump()`. */
    method Jump()
      modifies this
      ensures state == Scanned(old(state), JumpMagic)
    {
      ScanMagic(JumpMagic);
    }

    /** `long_jump()`. */
    method LongJump()
      modifies this
      ensures state == Scanned(old(state), LongJumpMagic)
    {
      ScanMagic(LongJumpMagic);
    }

    /** `==`: two generators are equal exactly when their states are. */
    method Equals(other: Generator) returns (b: bool)
      ensures b <==> state == other.state
    {
      b := state == other.state;
    }
  }

  /** `next()` leaves the zero state exactly when it starts from it: zero is a
    * fixed point and no other state reaches it. */
  lemma StepZeroIff(s0: bv64, s1: bv64)
    ensures Step(s0, s1) == Zero <==> s0 == 0 && s1 == 0
  {
    StepDef(s0, s1);
    ScrambleDef(s0, s1 ^ s0);
  }

  /** `StepZeroIff` for state values. */
  lemma NextStateZeroIff(s: State)
    ensures NextState(s) == Zero <==> s == Zero
  {
    NextStateDef(s);
    StepZeroIff(s.s0, s.s1);
  }

  /** A generator seeded away from zero never reaches the zero state, however
    * many times `next()` is called. */
  lemma {:induction false} NeverZero(s: State, n: nat)
    requires s != Zero
    ensures JumpScan.Iterate(NextState, s, n) != Zero
  {
    forall x: State | x != Zero
      ensures NextState(x) != Zero
    {
      NextStateZeroIff(x);
    }
    JumpScan.IterateKeeps(NextState, (x: State) => x != Zero, s, n);
  }

  /** The zero state is a fixed point of `next()` with output 0, and both jumps
    * map it to itself. */
  lemma ZeroIsStuck(n: nat)
    ensures Output(0, 0) == 0 && JumpScan.Iterate(NextState, Zero, n) == Zero
    ensures Scanned(Zero, JumpMagic) == Zero && Scanned(Zero, LongJumpMagic) == Zero
  {
    NextStateZeroIff(Zero);
    JumpScan.IterateFixedPoint(NextState, Zero, n);
    JumpScan.AccumulateFixedPoint(NextState, Xor, Zero, JumpMagic, 2, 0);
    JumpScan.AccumulateFixedPoint(NextState, Xor, Zero, LongJumpMagic, 2, 0);
  }

  /** Seeded with both words `UInt64.max`, the first `next()` returns
    * 18446744073709420542 (0xfffffffffffdfffe). */
  lemma FirstOutputFromMax()
    ensures Output(0xffff_ffff_ffff_ffff, 0xffff_ffff_ffff_ffff) == 18446744073709420542
  {
  }
}
