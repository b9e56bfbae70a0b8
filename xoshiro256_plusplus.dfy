/** xoshiro256++: a four-word state, a rotate-add output on words 0 and 3,
  * and a sequence of in-place XOR updates. */
module Xoshiro256PlusPlus {
  import Rotation
  import JumpScan
  import Source

  /** The generator's 256-bit state, the Swift tuple
    * `(UInt64, UInt64, UInt64, UInt64)`. */
  datatype State = State(s0: bv64, s1: bv64, s2: bv64, s3: bv64)

  /** The all-zero state that seeding must avoid. */
  const Zero := State(0, 0, 0, 0)

  /** Word-wise XOR of two states, as the jump accumulators combine them. */
  function Xor(a: State, b: State): (r: State)
  {
    State(a.s0 ^ b.s0, a.s1 ^ b.s1, a.s2 ^ b.s2, a.s3 ^ b.s3)
  }

  /** The word `next()` returns from the state words `s0` and `s3`: their
    * wrapping sum rotated left by 23, plus `s0` (wrapping). */
  function Output(s0: bv64, s3: bv64): (r: bv64)
  {
    Rotation.RotatedLeft(s0 + s3, 23) + s0
  }

  // The state update of `next()`, one function per group of in-place
  // assignments. Each function receives the words as the previous group left
  // them, so a later XOR sees the words an earlier one already changed; `t`
  // is the pre-call `s1` shifted left by 17.

  /** The whole update: `t = s1 << 17`, then `s2 ^= s0` and `s3 ^= s1`. */
  function Step(s0: bv64, s1: bv64, s2: bv64, s3: bv64): (r: State)
  {
    CrossXor(s0, s1, s2 ^ s0, s3 ^ s1, s1 << 17)
  }

  /** `s1 ^= s2` and `s0 ^= s3`, with `s2` and `s3` already updated. */
  function CrossXor(s0: bv64, s1: bv64, s2: bv64, s3: bv64, t: bv64): (r: State)
  {
    Finish(s0 ^ s3, s1 ^ s2, s2, s3, t)
  }

  /** `s2 ^= t` and `s3` rotated left by 45; words 0 and 1 are kept. */
  function Finish(s0: bv64, s1: bv64, s2: bv64, s3: bv64, t: bv64): (r: State)
  {
    State(s0, s1, s2 ^ t, Rotation.RotatedLeft(s3, 45))
  }

  /** `Step` as a function of states: what the jumps iterate. */
  function NextState(s: State): (r: State)
  {
    Step(s.s0, s.s1, s.s2, s.s3)
  }

  // Unfolding lemmas: the proofs of `Next` call these on the method's own
  // words, so that each equation it needs is stated about exactly the terms
  // the method computes.

  lemma OutputDef(s0: bv64, s3: bv64)
    ensures Output(s0, s3) == Rotation.RotatedLeft(s0 + s3, 23) + s0
  {
  }

  lemma StepDef(s0: bv64, s1: bv64, s2: bv64, s3: bv64)
    ensures Step(s0, s1, s2, s3) == CrossXor(s0, s1, s2 ^ s0, s3 ^ s1, s1 << 17)
  {
  }

  lemma CrossXorDef(s0: bv64, s1: bv64, s2: bv64, s3: bv64, t: bv64)
    ensures CrossXor(s0, s1, s2, s3, t) == Finish(s0 ^ s3, s1 ^ s2, s2, s3, t)
  {
  }

  lemma FinishDef(s0: bv64, s1: bv64, s2: bv64, s3: bv64, t: bv64)
    ensures Finish(s0, s1, s2, s3, t) == State(s0, s1, s2 ^ t, Rotation.RotatedLeft(s3, 45))
  {
  }

  lemma NextStateDef(s: State)
    ensures NextState(s) == Step(s.s0, s.s1, s.s2, s.s3)
  {
  }

  const JumpMagic: seq<bv64> :=
    [0x180ec6d33cfd0aba, 0xd5a61266f0c9392c, 0xa9582618e03fc9aa, 0x39abdc4529b1661c]
  const LongJumpMagic: seq<bv64> :=
    [0x76e15d3efefdcbbf, 0xc5004e441c522fb3, 0x77710069854ee241, 0x39109bb02acbe635]

  /** The state that scanning `magic` from `s` produces. */
  function Scanned(s: State, magic: seq<bv64>): (r: State)
  {
    JumpScan.Accumulate(NextState, Xor, Zero, s, magic, |magic|, 0)
  }

  /** `JumpScan.ScanStep` for this generator's step and XOR. */
  lemma ScanStep(start: State, magic: seq<bv64>, w: nat, bit: nat)
    requires w < |magic| && bit < 64
    ensures JumpScan.Accumulate(NextState, Xor, Zero, start, magic, w, bit + 1)
         == if JumpScan.Bit(magic[w], bit)
            then Xor(JumpScan.Accumulate(NextState, Xor, Zero, start, magic, w, bit),
                     JumpScan.Iterate(NextState, start, 64 * w + bit))
            else JumpScan.Accumulate(NextState, Xor, Zero, start, magic, w, bit)
    ensures JumpScan.Iterate(NextState, start, 64 * w + bit + 1)
         == NextState(JumpScan.Iterate(NextState, start, 64 * w + bit))
  {
    JumpScan.ScanStep(NextState, Xor, Zero, start, magic, w, bit);
  }

  class Generator {
    var state: State

    /** `init(seed:)`: any seed but the zero state, stored unchanged. */
    constructor FromSeed(seed: State)
      requires seed != Zero
      ensures state == seed
    {
      state := seed;
    }

    /** `init(generator:)`: four successive draws fill words 0 to 3. */
    constructor FromGenerator(g: Source.WordSource)
      requires |g.pending| >= 4
      modifies g
      ensures state == State(old(g.pending)[0], old(g.pending)[1], old(g.pending)[2], old(g.pending)[3])
      ensures g.pending == old(g.pending)[4..]
    {
      var a := g.Next();
      var b := g.Next();
      var c := g.Next();
      var d := g.Next();
      state := State(a, b, c, d);
    }

    /** `next()`: returns the output of the pre-call state and steps it, one
      * in-place word update at a time. */
    method Next() returns (r: bv64)
      modifies this
      ensures r == Output(old(state).s0, old(state).s3)
      ensures state == NextState(old(state))
    {
      NextStateDef(state);
      var s0 := state.s0;
      var s1 := state.s1;
      var s2 := state.s2;
      var s3 := state.s3;
      OutputDef(s0, s3);
      StepDef(s0, s1, s2, s3);
      r := Rotation.RotatedLeft(s0 + s3, 23) + s0;
      var t := s1 << 17;
      s2 := s2 ^ s0;
      s3 := s3 ^ s1;
      CrossXorDef(s0, s1, s2, s3, t);
      s1 := s1 ^ s2;
      s0 := s0 ^ s3;
      FinishDef(s0, s1, s2, s3, t);
      s2 := s2 ^ t;
      s3 := Rotation.RotateLeft(s3, 45);
      state := State(s0, s1, s2, s3);
    }

    /** The inner loop of `jump()` and `long_jump()` for magic word `w`: one
      * `next()` per bit, XOR-ing the current state into the accumulators
      * `acc` when the bit is set. */
    method ScanWord(magic: seq<bv64>, w: nat, ghost start: State, acc: State) returns (acc': State)
      requires w < |magic|
      requires state == JumpScan.Iterate(NextState, start, 64 * w)
      requires acc == JumpScan.Accumulate(NextState, Xor, Zero, start, magic, w, 0)
      modifies this
      ensures state == JumpScan.Iterate(NextState, start, 64 * w + 64)
      ensures acc' == JumpScan.Accumulate(NextState, Xor, Zero, start, magic, w, 64)
    {
      acc' := acc;
      var val := magic[w];
      for bit := 0 to 64
        invariant state == JumpScan.Iterate(NextState, start, 64 * w + bit)
        invariant acc' == JumpScan.Accumulate(NextState, Xor, Zero, start, magic, w, bit)
      {
        ScanStep(start, magic, w, bit);
        if JumpScan.Bit(val, bit) {
          acc' := Xor(acc', state);
        }
        var _ := Next();
      }
    }

    /** The outer loop shared by `jump()` and `long_jump()`: the accumulators
      * start at zero, take in every magic word, and replace the state. */
    method ScanMagic(magic: seq<bv64>)
      modifies this
      ensures state == Scanned(old(state), magic)
    {
      ghost var start := state;
      var acc := Zero;
      for w := 0 to |magic|
        invariant state == JumpScan.Iterate(NextState, start, 64 * w)
        invariant acc == JumpScan.Accumulate(NextState, Xor, Zero, start, magic, w, 0)
      {
        acc := ScanWord(magic, w, start, acc);
      }
      state := acc;
    }

    /** `jump()`. */
    method Jump()
      modifies this
      ensures state == Scanned(old(state), JumpMagic)
    {
      ScanMagic(JumpMagic);
    }

    /** `long_jump()`. */
    method LongJump()
      modifies this
      ensures state == Scanned(old(state), LongJumpMagic)
    {
      ScanMagic(LongJumpMagic);
    }

    /** `==`: two generators are equal exactly when their states are. */
    method Equals(other: Generator) returns (b: bool)
      ensures b <==> state == other.state
    {
      b := state == other.state;
    }
  }

  /** Shifting a word left by 17 only leaves it unchanged when it is 0. */
  lemma ShiftFixesOnlyZero(x: bv64)
    ensures x << 17 == x ==> x == 0
  {
  }

  /** The four words `Step` produces are all zero exactly when the four
    * words it starts from are. */
  lemma WordsZeroIff(s0: bv64, s1: bv64, s2: bv64, s3: bv64)
    ensures (s0 ^ (s3 ^ s1) == 0 && s1 ^ (s2 ^ s0) == 0 && (s2 ^ s0) ^ (s1 << 17) == 0
             && Rotation.RotatedLeft(s3 ^ s1, 45) == 0)
        <==> s0 == 0 && s1 == 0 && s2 == 0 && s3 == 0
  {
    ShiftFixesOnlyZero(s1);
  }

  /** `next()` leaves the zero state exactly when it starts from it: zero is a
    * fixed point and no other state reaches it. */
  lemma StepZeroIff(s0: bv64, s1: bv64, s2: bv64, s3: bv64)
    ensures Step(s0, s1, s2, s3) == Zero <==> s0 == 0 && s1 == 0 && s2 == 0 && s3 == 0
  {
    StepWords(s0, s1, s2, s3);
    WordsZeroIff(s0, s1, s2, s3);
    StateZeroIff(s0 ^ (s3 ^ s1), s1 ^ (s2 ^ s0), (s2 ^ s0) ^ (s1 << 17), Rotation.RotatedLeft(s3 ^ s1, 45));
    if s0 == 0 && s1 == 0 && s2 == 0 && s3 == 0 {
      assert Step(s0, s1, s2, s3) == Zero;
    } else {
      assert Step(s0, s1, s2, s3) != Zero;
    }
  }

  /** A state is zero exactly when its four words are. */
  lemma StateZeroIff(a: bv64, b: bv64, c: bv64, d: bv64)
    ensures State(a, b, c, d) == Zero <==> a == 0 && b == 0 && c == 0 && d == 0
  {
  }

  /** `Step` with its three stages composed: the four new words in terms of
    * the four old ones. */
  lemma StepWords(s0: bv64, s1: bv64, s2: bv64, s3: bv64)
    ensures Step(s0, s1, s2, s3)
         == State(s0 ^ (s3 ^ s1), s1 ^ (s2 ^ s0), (s2 ^ s0) ^ (s1 << 17), Rotation.RotatedLeft(s3 ^ s1, 45))
  {
    StepDef(s0, s1, s2, s3);
    CrossXorDef(s0, s1, s2 ^ s0, s3 ^ s1, s1 << 17);
    FinishDef(s0 ^ (s3 ^ s1), s1 ^ (s2 ^ s0), s2 ^ s0, s3 ^ s1, s1 << 17);
  }

  /** `StepZeroIff` for state values. */
  lemma NextStateZeroIff(s: State)
    ensures NextState(s) == Zero <==> s == Zero
  {
    NextStateDef(s);
    StepZeroIff(s.s0, s.s1, s.s2, s.s3);
  }

  /** A generator seeded away from zero never reaches the zero state, however
    * many times `next()` is called. */
  lemma {:induction false} NeverZero(s: State, n: nat)
    requires s != Zero
    ensures JumpScan.Iterate(NextState, s, n) != Zero
  {
    forall x: State | x != Zero
      ensures NextState(x) != Zero
    {
      NextStateZeroIff(x);
    }
    JumpScan.IterateKeeps(NextState, (x: State) => x != Zero, s, n);
  }

  /** The zero state is a fixed point of `next()` with output 0, and both jumps
    * map it to itself. */
  lemma ZeroIsStuck(n: nat)
    ensures Output(0, 0) == 0 && JumpScan.Iterate(NextState, Zero, n) == Zero
    ensures Scanned(Zero, JumpMagic) == Zero && Scanned(Zero, LongJumpMagic) == Zero
  {
    NextStateZeroIff(Zero);
    JumpScan.IterateFixedPoint(NextState, Zero, n);
    JumpScan.AccumulateFixedPoint(NextState, Xor, Zero, JumpMagic, 4, 0);
    JumpScan.AccumulateFixedPoint(NextState, Xor, Zero, LongJumpMagic, 4, 0);
  }
}
