/** Bit rotation of fixed-width unsigned words (the `FixedWidthInteger`
  * extension `rotatedLeft(by:)` / `rotateLeft(by:)`), at the two widths the
  * library uses: 64 bits for every generator and 32 bits in its tests. */
module Rotation {

  /** `x.rotatedLeft(by: shift)` for a 64-bit word: the bits shifted out on the
    * left re-enter on the right. Only defined for 0 < shift < 64. */
  function RotatedLeft(x: bv64, shift: bv64): (r: bv64)
    requires 0 < shift < 64
    ensures x == 0 ==> r == 0
  {
    (x << shift) | (x >> (64 - shift))
  }

  /** The same rotation on a 32-bit word. */
  function RotatedLeft32(x: bv32, shift: bv32): (r: bv32)
    requires 0 < shift < 32
    ensures x == 0 ==> r == 0
  {
    (x << shift) | (x >> (32 - shift))
  }

  /** `rotateLeft(by:)`: the word is replaced by its rotation. A value-type
    * `mutating` method is modelled as a method from the old word to the new. */
  method RotateLeft(x: bv64, shift: bv64) returns (x': bv64)
    requires 0 < shift < 64
    ensures x' == RotatedLeft(x, shift)
  {
    x' := RotatedLeft(x, shift);
  }

  /** The shift-or formula is the true cyclic rotation (Dafny's built-in
    * `RotateLeft`) at every amount the rotation accepts. As for `RoundTrip`, the
    * proof splits the amount into ranges and each range into its concrete
    * amounts. */
  lemma {:induction false} AgreesWithBuiltin(x: bv64, shift: bv64)
    requires 0 < shift < 64
    ensures RotatedLeft(x, shift) == x.RotateLeft(shift as nat)
  {
    if shift < 4 {
      AgreesFrom1(x, shift);
    } else if shift < 8 {
      AgreesFrom4(x, shift);
    } else if shift < 12 {
      AgreesFrom8(x, shift);
    } else if shift < 16 {
      AgreesFrom12(x, shift);
    } else if shift < 20 {
      AgreesFrom16(x, shift);
    } else if shift < 24 {
      AgreesFrom20(x, shift);
    } else if shift < 28 {
      AgreesFrom24(x, shift);
    } else if shift < 32 {
      AgreesFrom28(x, shift);
    } else if shift < 36 {
      AgreesFrom32(x, shift);
    } else if shift < 40 {
      AgreesFrom36(x, shift);
    } else if shift < 44 {
      AgreesFrom40(x, shift);
    } else if shift < 48 {
      AgreesFrom44(x, shift);
    } else if shift < 52 {
      AgreesFrom48(x, shift);
    } else if shift < 56 {
      AgreesFrom52(x, shift);
    } else if shift < 60 {
      AgreesFrom56(x, shift);
    } else {
      AgreesFrom60(x, shift);
    }
  }

  lemma {:induction false} AgreesFrom1(x: bv64, shift: bv64)
    requires 1 <= shift < 4
    ensures RotatedLeft(x, shift) == x.RotateLeft(shift as nat)
  {
    if shift == 1 {
      Agrees1(x);
    } else if shift == 2 {
      Agrees2(x);
    } else {
      Agrees3(x);
    }
  }

  lemma {:induction false} AgreesFrom4(x: bv64, shift: bv64)
    requires 4 <= shift < 8
    ensures RotatedLeft(x, shift) == x.RotateLeft(shift as nat)
  {
    if shift == 4 {
      Agrees4(x);
    } else if shift == 5 {
      Agrees5(x);
    } else if shift == 6 {
      Agrees6(x);
    } else {
      Agrees7(x);
    }
  }

  lemma {:induction false} AgreesFrom8(x: bv64, shift: bv64)
    requires 8 <= shift < 12
    ensures RotatedLeft(x, shift) == x.RotateLeft(shift as nat)
  {
    if shift == 8 {
      Agrees8(x);
    } else if shift == 9 {
      Agrees9(x);
    } else if shift == 10 {
      Agrees10(x);
    } else {
      Agrees11(x);
    }
  }

  lemma {:induction false} AgreesFrom12(x: bv64, shift: bv64)
    requires 12 <= shift < 16
    ensures RotatedLeft(x, shift) == x.RotateLeft(shift as nat)
  {
    if shift == 12 {
      Agrees12(x);
    } else if shift == 13 {
      Agrees13(x);
    } else if shift == 14 {
      Agrees14(x);
    } else {
      Agrees15(x);
    }
  }

  lemma {:induction false} AgreesFrom16(x: bv64, shift: bv64)
    requires 16 <= shift < 20
    ensures RotatedLeft(x, shift) == x.RotateLeft(shift as nat)
  {
    if shift == 16 {
      Agrees16(x);
    } else if shift == 17 {
      Agrees17(x);
    } else if shift == 18 {
      Agrees18(x);
    } else {
      Agrees19(x);
    }
  }

  lemma {:induction false} AgreesFrom20(x: bv64, shift: bv64)
    requires 20 <= shift < 24
    ensures RotatedLeft(x, shift) == x.RotateLeft(shift as nat)
  {
    if shift == 20 {
      Agrees20(x);
    } else if shift == 21 {
      Agrees21(x);
    } else if shift == 22 {
      Agrees22(x);
    } else {
      Agrees23(x);
    }
  }

  lemma {:induction false} AgreesFrom24(x: bv64, shift: bv64)
    requires 24 <= shift < 28
    ensures RotatedLeft(x, shift) == x.RotateLeft(shift as nat)
  {
    if shift == 24 {
      Agrees24(x);
    } else if shift == 25 {
      Agrees25(x);
    } else if shift == 26 {
      Agrees26(x);
    } else {
      Agrees27(x);
    }
  }

  lemma {:induction false} AgreesFrom28(x: bv64, shift: bv64)
    requires 28 <= shift < 32
    ensures RotatedLeft(x, shift) == x.RotateLeft(shift as nat)
  {
    if shift == 28 {
      Agrees28(x);
    } else if shift == 29 {
      Agrees29(x);
    } else if shift == 30 {
      Agrees30(x);
    } else {
      Agrees31(x);
    }
  }

  lemma {:induction false} AgreesFrom32(x: bv64, shift: bv64)
    requires 32 <= shift < 36
    ensures RotatedLeft(x, shift) == x.RotateLeft(shift as nat)
  {
    if shift == 32 {
      Agrees32(x);
    } else if shift == 33 {
      Agrees33(x);
    } else if shift == 34 {
      Agrees34(x);
    } else {
      Agrees35(x);
    }
  }

  lemma {:induction false} AgreesFrom36(x: bv64, shift: bv64)
    requires 36 <= shift < 40
    ensures RotatedLeft(x, shift) == x.RotateLeft(shift as nat)
  {
    if shift == 36 {
      Agrees36(x);
    } else if shift == 37 {
      Agrees37(x);
    } else if shift == 38 {
      Agrees38(x);
    } else {
      Agrees39(x);
    }
  }

  lemma {:induction false} AgreesFrom40(x: bv64, shift: bv64)
    requires 40 <= shift < 44
    ensures RotatedLeft(x, shift) == x.RotateLeft(shift as nat)
  {
    if shift == 40 {
      Agrees40(x);
    } else if shift == 41 {
      Agrees41(x);
    } else if shift == 42 {
      Agrees42(x);
    } else {
      Agrees43(x);
    }
  }

  lemma {:induction false} AgreesFrom44(x: bv64, shift: bv64)
    requires 44 <= shift < 48
    ensures RotatedLeft(x, shift) == x.RotateLeft(shift as nat)
  {
    if shift == 44 {
      Agrees44(x);
    } else if shift == 45 {
      Agrees45(x);
    } else if shift == 46 {
      Agrees46(x);
    } else {
      Agrees47(x);
    }
  }

  lemma {:induction false} AgreesFrom48(x: bv64, shift: bv64)
    requires 48 <= shift < 52
    ensures RotatedLeft(x, shift) == x.RotateLeft(shift as nat)
  {
    if shift == 48 {
      Agrees48(x);
    } else if shift == 49 {
      Agrees49(x);
    } else if shift == 50 {
      Agrees50(x);
    } else {
      Agrees51(x);
    }
  }

  lemma {:induction false} AgreesFrom52(x: bv64, shift: bv64)
    requires 52 <= shift < 56
    ensures RotatedLeft(x, shift) == x.RotateLeft(shift as nat)
  {
    if shift == 52 {
      Agrees52(x);
    } else if shift == 53 {
      Agrees53(x);
    } else if shift == 54 {
      Agrees54(x);
    } else {
      Agrees55(x);
    }
  }

  lemma {:induction false} AgreesFrom56(x: bv64, shift: bv64)
    requires 56 <= shift < 60
    ensures RotatedLeft(x, shift) == x.RotateLeft(shift as nat)
  {
    if shift == 56 {
      Agrees56(x);
    } else if shift == 57 {
      Agrees57(x);
    } else if shift == 58 {
      Agrees58(x);
    } else {
      Agrees59(x);
    }
  }

  lemma {:induction false} AgreesFrom60(x: bv64, shift: bv64)
    requires 60 <= shift < 64
    ensures RotatedLeft(x, shift) == x.RotateLeft(shift as nat)
  {
    if shift == 60 {
      Agrees60(x);
    } else if shift == 61 {
      Agrees61(x);
    } else if shift == 62 {
      Agrees62(x);
    } else {
      Agrees63(x);
    }
  }

  // The agreement at each concrete amount.
  lemma Agrees1(x: bv64) ensures RotatedLeft(x, 1) == x.RotateLeft(1) {}
  lemma Agrees2(x: bv64) ensures RotatedLeft(x, 2) == x.RotateLeft(2) {}
  lemma Agrees3(x: bv64) ensures RotatedLeft(x, 3) == x.RotateLeft(3) {}
  lemma Agrees4(x: bv64) ensures RotatedLeft(x, 4) == x.RotateLeft(4) {}
  lemma Agrees5(x: bv64) ensures RotatedLeft(x, 5) == x.RotateLeft(5) {}
  lemma Agrees6(x: bv64) ensures RotatedLeft(x, 6) == x.RotateLeft(6) {}
  lemma Agrees7(x: bv64) ensures RotatedLeft(x, 7) == x.RotateLeft(7) {}
  lemma Agrees8(x: bv64) ensures RotatedLeft(x, 8) == x.RotateLeft(8) {}
  lemma Agrees9(x: bv64) ensures RotatedLeft(x, 9) == x.RotateLeft(9) {}
  lemma Agrees10(x: bv64) ensures RotatedLeft(x, 10) == x.RotateLeft(10) {}
  lemma Agrees11(x: bv64) ensures RotatedLeft(x, 11) == x.RotateLeft(11) {}
  lemma Agrees12(x: bv64) ensures RotatedLeft(x, 12) == x.RotateLeft(12) {}
  lemma Agrees13(x: bv64) ensures RotatedLeft(x, 13) == x.RotateLeft(13) {}
  lemma Agrees14(x: bv64) ensures RotatedLeft(x, 14) == x.RotateLeft(14) {}
  lemma Agrees15(x: bv64) ensures RotatedLeft(x, 15) == x.RotateLeft(15) {}
  lemma Agrees16(x: bv64) ensures RotatedLeft(x, 16) == x.RotateLeft(16) {}
  lemma Agrees17(x: bv64) ensures RotatedLeft(x, 17) == x.RotateLeft(17) {}
  lemma Agrees18(x: bv64) ensures RotatedLeft(x, 18) == x.RotateLeft(18) {}
  lemma Agrees19(x: bv64) ensures RotatedLeft(x, 19) == x.RotateLeft(19) {}
  lemma Agrees20(x: bv64) ensures RotatedLeft(x, 20) == x.RotateLeft(20) {}
  lemma Agrees21(x: bv64) ensures RotatedLeft(x, 21) == x.RotateLeft(21) {}
  lemma Agrees22(x: bv64) ensures RotatedLeft(x, 22) == x.RotateLeft(22) {}
  lemma Agrees23(x: bv64) ensures RotatedLeft(x, 23) == x.RotateLeft(23) {}
  lemma Agrees24(x: bv64) ensures RotatedLeft(x, 24) == x.RotateLeft(24) {}
  lemma Agrees25(x: bv64) ensures RotatedLeft(x, 25) == x.RotateLeft(25) {}
  lemma Agrees26(x: bv64) ensures RotatedLeft(x, 26) == x.RotateLeft(26) {}
  lemma Agrees27(x: bv64) ensures RotatedLeft(x, 27) == x.RotateLeft(27) {}
  lemma Agrees28(x: bv64) ensures RotatedLeft(x, 28) == x.RotateLeft(28) {}
  lemma Agrees29(x: bv64) ensures RotatedLeft(x, 29) == x.RotateLeft(29) {}
  lemma Agrees30(x: bv64) ensures RotatedLeft(x, 30) == x.RotateLeft(30) {}
  lemma Agrees31(x: bv64) ensures RotatedLeft(x, 31) == x.RotateLeft(31) {}
  lemma Agrees32(x: bv64) ensures RotatedLeft(x, 32) == x.RotateLeft(32) {}
  lemma Agrees33(x: bv64) ensures RotatedLeft(x, 33) == x.RotateLeft(33) {}
  lemma Agrees34(x: bv64) ensures RotatedLeft(x, 34) == x.RotateLeft(34) {}
  lemma Agrees35(x: bv64) ensures RotatedLeft(x, 35) == x.RotateLeft(35) {}
  lemma Agrees36(x: bv64) ensures RotatedLeft(x, 36) == x.RotateLeft(36) {}
  lemma Agrees37(x: bv64) ensures RotatedLeft(x, 37) == x.RotateLeft(37) {}
  lemma Agrees38(x: bv64) ensures RotatedLeft(x, 38) == x.RotateLeft(38) {}
  lemma Agrees39(x: bv64) ensures RotatedLeft(x, 39) == x.RotateLeft(39) {}
  lemma Agrees40(x: bv64) ensures RotatedLeft(x, 40) == x.RotateLeft(40) {}
  lemma Agrees41(x: bv64) ensures RotatedLeft(x, 41) == x.RotateLeft(41) {}
  lemma Agrees42(x: bv64) ensures RotatedLeft(x, 42) == x.RotateLeft(42) {}
  lemma Agrees43(x: bv64) ensures RotatedLeft(x, 43) == x.RotateLeft(43) {}
  lemma Agrees44(x: bv64) ensures RotatedLeft(x, 44) == x.RotateLeft(44) {}
  lemma Agrees45(x: bv64) ensures RotatedLeft(x, 45) == x.RotateLeft(45) {}
  lemma Agrees46(x: bv64) ensures RotatedLeft(x, 46) == x.RotateLeft(46) {}
  lemma Agrees47(x: bv64) ensures RotatedLeft(x, 47) == x.RotateLeft(47) {}
  lemma Agrees48(x: bv64) ensures RotatedLeft(x, 48) == x.RotateLeft(48) {}
  lemma Agrees49(x: bv64) ensures RotatedLeft(x, 49) == x.RotateLeft(49) {}
  lemma Agrees50(x: bv64) ensures RotatedLeft(x, 50) == x.RotateLeft(50) {}
  lemma Agrees51(x: bv64) ensures RotatedLeft(x, 51) == x.RotateLeft(51) {}
  lemma Agrees52(x: bv64) ensures RotatedLeft(x, 52) == x.RotateLeft(52) {}
  lemma Agrees53(x: bv64) ensures RotatedLeft(x, 53) == x.RotateLeft(53) {}
  lemma Agrees54(x: bv64) ensures RotatedLeft(x, 54) == x.RotateLeft(54) {}
  lemma Agrees55(x: bv64) ensures RotatedLeft(x, 55) == x.RotateLeft(55) {}
  lemma Agrees56(x: bv64) ensures RotatedLeft(x, 56) == x.RotateLeft(56) {}
  lemma Agrees57(x: bv64) ensures RotatedLeft(x, 57) == x.RotateLeft(57) {}
  lemma Agrees58(x: bv64) ensures RotatedLeft(x, 58) == x.RotateLeft(58) {}
  lemma Agrees59(x: bv64) ensures RotatedLeft(x, 59) == x.RotateLeft(59) {}
  lemma Agrees60(x: bv64) ensures RotatedLeft(x, 60) == x.RotateLeft(60) {}
  lemma Agrees61(x: bv64) ensures RotatedLeft(x, 61) == x.RotateLeft(61) {}
  lemma Agrees62(x: bv64) ensures RotatedLeft(x, 62) == x.RotateLeft(62) {}
  lemma Agrees63(x: bv64) ensures RotatedLeft(x, 63) == x.RotateLeft(63) {}

  /** Rotating by `shift` and then by `64 - shift` restores the word, for every
    * amount the rotation accepts. The proof splits the amount into four ranges
    * and each range into its concrete amounts, because the verifier handles a
    * shift by a constant far more cheaply than a shift by a variable. */
  lemma {:induction false} RoundTrip(x: bv64, shift: bv64)
    requires 0 < shift < 64
    ensures RotatedLeft(RotatedLeft(x, shift), 64 - shift) == x
  {
    if shift < 16 {
      RoundTripFrom1(x, shift);
    } else if shift < 32 {
      RoundTripFrom16(x, shift);
    } else if shift < 48 {
      RoundTripFrom32(x, shift);
    } else {
      RoundTripFrom48(x, shift);
    }
  }

  lemma {:induction false} RoundTripFrom1(x: bv64, shift: bv64)
    requires 1 <= shift < 16
    ensures RotatedLeft(RotatedLeft(x, shift), 64 - shift) == x
  {
    if shift == 1 {
      RoundTrip1(x);
    } else if shift == 2 {
      RoundTrip2(x);
    } else if shift == 3 {
      RoundTrip3(x);
    } else if shift == 4 {
      RoundTrip4(x);
    } else if shift == 5 {
      RoundTrip5(x);
    } else if shift == 6 {
      RoundTrip6(x);
    } else if shift == 7 {
      RoundTrip7(x);
    } else if shift == 8 {
      RoundTrip8(x);
    } else if shift == 9 {
      RoundTrip9(x);
    } else if shift == 10 {
      RoundTrip10(x);
    } else if shift == 11 {
      RoundTrip11(x);
    } else if shift == 12 {
      RoundTrip12(x);
    } else if shift == 13 {
      RoundTrip13(x);
    } else if shift == 14 {
      RoundTrip14(x);
    } else {
      RoundTrip15(x);
    }
  }

  lemma {:induction false} RoundTripFrom16(x: bv64, shift: bv64)
    requires 16 <= shift < 32
    ensures RotatedLeft(RotatedLeft(x, shift), 64 - shift) == x
  {
    if shift == 16 {
      RoundTrip16(x);
    } else if shift == 17 {
      RoundTrip17(x);
    } else if shift == 18 {
      RoundTrip18(x);
    } else if shift == 19 {
      RoundTrip19(x);
    } else if shift == 20 {
      RoundTrip20(x);
    } else if shift == 21 {
      RoundTrip21(x);
    } else if shift == 22 {
      RoundTrip22(x);
    } else if shift == 23 {
      RoundTrip23(x);
    } else if shift == 24 {
      RoundTrip24(x);
    } else if shift == 25 {
      RoundTrip25(x);
    } else if shift == 26 {
      RoundTrip26(x);
    } else if shift == 27 {
      RoundTrip27(x);
    } else if shift == 28 {
      RoundTrip28(x);
    } else if shift == 29 {
      RoundTrip29(x);
    } else if shift == 30 {
      RoundTrip30(x);
    } else {
      RoundTrip31(x);
    }
  }

  lemma {:induction false} RoundTripFrom32(x: bv64, shift: bv64)
    requires 32 <= shift < 48
    ensures RotatedLeft(RotatedLeft(x, shift), 64 - shift) == x
  {
    if shift == 32 {
      RoundTrip32(x);
    } else if shift == 33 {
      RoundTrip33(x);
    } else if shift == 34 {
      RoundTrip34(x);
    } else if shift == 35 {
      RoundTrip35(x);
    } else if shift == 36 {
      RoundTrip36(x);
    } else if shift == 37 {
      RoundTrip37(x);
    } else if shift == 38 {
      RoundTrip38(x);
    } else if shift == 39 {
      RoundTrip39(x);
    } else if shift == 40 {
      RoundTrip40(x);
    } else if shift == 41 {
      RoundTrip41(x);
    } else if shift == 42 {
      RoundTrip42(x);
    } else if shift == 43 {
      RoundTrip43(x);
    } else if shift == 44 {
      RoundTrip44(x);
    } else if shift == 45 {
      RoundTrip45(x);
    } else if shift == 46 {
      RoundTrip46(x);
    } else {
      RoundTrip47(x);
    }
  }

  lemma {:induction false} RoundTripFrom48(x: bv64, shift: bv64)
    requires 48 <= shift < 64
    ensures RotatedLeft(RotatedLeft(x, shift), 64 - shift) == x
  {
    if shift == 48 {
      RoundTrip48(x);
    } else if shift == 49 {
      RoundTrip49(x);
    } else if shift == 50 {
      RoundTrip50(x);
    } else if shift == 51 {
      RoundTrip51(x);
    } else if shift == 52 {
      RoundTrip52(x);
    } else if shift == 53 {
      RoundTrip53(x);
    } else if shift == 54 {
      RoundTrip54(x);
    } else if shift == 55 {
      RoundTrip55(x);
    } else if shift == 56 {
      RoundTrip56(x);
    } else if shift == 57 {
      RoundTrip57(x);
    } else if shift == 58 {
      RoundTrip58(x);
    } else if shift == 59 {
      RoundTrip59(x);
    } else if shift == 60 {
      RoundTrip60(x);
    } else if shift == 61 {
      RoundTrip61(x);
    } else if shift == 62 {
      RoundTrip62(x);
    } else {
      RoundTrip63(x);
    }
  }

  // The round trip at each concrete amount.
  lemma RoundTrip1(x: bv64) ensures RotatedLeft(RotatedLeft(x, 1), 63) == x {}
  lemma RoundTrip2(x: bv64) ensures RotatedLeft(RotatedLeft(x, 2), 62) == x {}
  lemma RoundTrip3(x: bv64) ensures RotatedLeft(RotatedLeft(x, 3), 61) == x {}
  lemma RoundTrip4(x: bv64) ensures RotatedLeft(RotatedLeft(x, 4), 60) == x {}
  lemma RoundTrip5(x: bv64) ensures RotatedLeft(RotatedLeft(x, 5), 59) == x {}
  lemma RoundTrip6(x: bv64) ensures RotatedLeft(RotatedLeft(x, 6), 58) == x {}
  lemma RoundTrip7(x: bv64) ensures RotatedLeft(RotatedLeft(x, 7), 57) == x {}
  lemma RoundTrip8(x: bv64) ensures RotatedLeft(RotatedLeft(x, 8), 56) == x {}
  lemma RoundTrip9(x: bv64) ensures RotatedLeft(RotatedLeft(x, 9), 55) == x {}
  lemma RoundTrip10(x: bv64) ensures RotatedLeft(RotatedLeft(x, 10), 54) == x {}
  lemma RoundTrip11(x: bv64) ensures RotatedLeft(RotatedLeft(x, 11), 53) == x {}
  lemma RoundTrip12(x: bv64) ensures RotatedLeft(RotatedLeft(x, 12), 52) == x {}
  lemma RoundTrip13(x: bv64) ensures RotatedLeft(RotatedLeft(x, 13), 51) == x {}
  lemma RoundTrip14(x: bv64) ensures RotatedLeft(RotatedLeft(x, 14), 50) == x {}
  lemma RoundTrip15(x: bv64) ensures RotatedLeft(RotatedLeft(x, 15), 49) == x {}
  lemma RoundTrip16(x: bv64) ensures RotatedLeft(RotatedLeft(x, 16), 48) == x {}
  lemma RoundTrip17(x: bv64) ensures RotatedLeft(RotatedLeft(x, 17), 47) == x {}
  lemma RoundTrip18(x: bv64) ensures RotatedLeft(RotatedLeft(x, 18), 46) == x {}
  lemma RoundTrip19(x: bv64) ensures RotatedLeft(RotatedLeft(x, 19), 45) == x {}
  lemma RoundTrip20(x: bv64) ensures RotatedLeft(RotatedLeft(x, 20), 44) == x {}
  lemma RoundTrip21(x: bv64) ensures RotatedLeft(RotatedLeft(x, 21), 43) == x {}
  lemma RoundTrip22(x: bv64) ensures RotatedLeft(RotatedLeft(x, 22), 42) == x {}
  lemma RoundTrip23(x: bv64) ensures RotatedLeft(RotatedLeft(x, 23), 41) == x {}
  lemma RoundTrip24(x: bv64) ensures RotatedLeft(RotatedLeft(x, 24), 40) == x {}
  lemma RoundTrip25(x: bv64) ensures RotatedLeft(RotatedLeft(x, 25), 39) == x {}
  lemma RoundTrip26(x: bv64) ensures RotatedLeft(RotatedLeft(x, 26), 38) == x {}
  lemma RoundTrip27(x: bv64) ensures RotatedLeft(RotatedLeft(x, 27), 37) == x {}
  lemma RoundTrip28(x: bv64) ensures RotatedLeft(RotatedLeft(x, 28), 36) == x {}
  lemma RoundTrip29(x: bv64) ensures RotatedLeft(RotatedLeft(x, 29), 35) == x {}
  lemma RoundTrip30(x: bv64) ensures RotatedLeft(RotatedLeft(x, 30), 34) == x {}
  lemma RoundTrip31(x: bv64) ensures RotatedLeft(RotatedLeft(x, 31), 33) == x {}
  lemma RoundTrip32(x: bv64) ensures RotatedLeft(RotatedLeft(x, 32), 32) == x {}
  lemma RoundTrip33(x: bv64) ensures RotatedLeft(RotatedLeft(x, 33), 31) == x {}
  lemma RoundTrip34(x: bv64) ensures RotatedLeft(RotatedLeft(x, 34), 30) == x {}
  lemma RoundTrip35(x: bv64) ensures RotatedLeft(RotatedLeft(x, 35), 29) == x {}
  lemma RoundTrip36(x: bv64) ensures RotatedLeft(RotatedLeft(x, 36), 28) == x {}
  lemma RoundTrip37(x: bv64) ensures RotatedLeft(RotatedLeft(x, 37), 27) == x {}
  lemma RoundTrip38(x: bv64) ensures RotatedLeft(RotatedLeft(x, 38), 26) == x {}
  lemma RoundTrip39(x: bv64) ensures RotatedLeft(RotatedLeft(x, 39), 25) == x {}
  lemma RoundTrip40(x: bv64) ensures RotatedLeft(RotatedLeft(x, 40), 24) == x {}
  lemma RoundTrip41(x: bv64) ensures RotatedLeft(RotatedLeft(x, 41), 23) == x {}
  lemma RoundTrip42(x: bv64) ensures RotatedLeft(RotatedLeft(x, 42), 22) == x {}
  lemma RoundTrip43(x: bv64) ensures RotatedLeft(RotatedLeft(x, 43), 21) == x {}
  lemma RoundTrip44(x: bv64) ensures RotatedLeft(RotatedLeft(x, 44), 20) == x {}
  lemma RoundTrip45(x: bv64) ensures RotatedLeft(RotatedLeft(x, 45), 19) == x {}
  lemma RoundTrip46(x: bv64) ensures RotatedLeft(RotatedLeft(x, 46), 18) == x {}
  lemma RoundTrip47(x: bv64) ensures RotatedLeft(RotatedLeft(x, 47), 17) == x {}
  lemma RoundTrip48(x: bv64) ensures RotatedLeft(RotatedLeft(x, 48), 16) == x {}
  lemma RoundTrip49(x: bv64) ensures RotatedLeft(RotatedLeft(x, 49), 15) == x {}
  lemma RoundTrip50(x: bv64) ensures RotatedLeft(RotatedLeft(x, 50), 14) == x {}
  lemma RoundTrip51(x: bv64) ensures RotatedLeft(RotatedLeft(x, 51), 13) == x {}
  lemma RoundTrip52(x: bv64) ensures RotatedLeft(RotatedLeft(x, 52), 12) == x {}
  lemma RoundTrip53(x: bv64) ensures RotatedLeft(RotatedLeft(x, 53), 11) == x {}
  lemma RoundTrip54(x: bv64) ensures RotatedLeft(RotatedLeft(x, 54), 10) == x {}
  lemma RoundTrip55(x: bv64) ensures RotatedLeft(RotatedLeft(x, 55), 9) == x {}
  lemma RoundTrip56(x: bv64) ensures RotatedLeft(RotatedLeft(x, 56), 8) == x {}
  lemma RoundTrip57(x: bv64) ensures RotatedLeft(RotatedLeft(x, 57), 7) == x {}
  lemma RoundTrip58(x: bv64) ensures RotatedLeft(RotatedLeft(x, 58), 6) == x {}
  lemma RoundTrip59(x: bv64) ensures RotatedLeft(RotatedLeft(x, 59), 5) == x {}
  lemma RoundTrip60(x: bv64) ensures RotatedLeft(RotatedLeft(x, 60), 4) == x {}
  lemma RoundTrip61(x: bv64) ensures RotatedLeft(RotatedLeft(x, 61), 3) == x {}
  lemma RoundTrip62(x: bv64) ensures RotatedLeft(RotatedLeft(x, 62), 2) == x {}
  lemma RoundTrip63(x: bv64) ensures RotatedLeft(RotatedLeft(x, 63), 1) == x {}

  /** The rotation test of the library's suite, on 32-bit words. */
  lemma TestVectors32()
    ensures RotatedLeft32(0xABCD, 16) == 0xABCD0000
    ensures RotatedLeft32(RotatedLeft32(0xABCD, 16), 16) == 0xABCD
    ensures RotatedLeft32(0xABCD, 3) == 0x55E68
  {
  }
}
