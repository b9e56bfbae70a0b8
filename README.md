# DRBGs: a verified Dafny model of the generator algorithms

This project models the deterministic random bit generators of the Swift
package DRBGs, and the bit rotation they are built on:

- `rotatedLeft(by:)` / `rotateLeft(by:)`, the rotation of 64-bit words (and
  of the 32-bit words used in the library's tests), in `rotation.dfy`;
- SplitMix64, a one-word Weyl sequence with an output mix, in `splitmix64.dfy`;
- three two-word xoroshiro128 variants:
  - the 2016 xoroshiro128+ (`Xoroshiro128PlusDRBG`, a = 55, b = 14, c = 36),
    in `xoroshiro128_drbg.dfy`;
  - the revised xoroshiro128+ (a = 24, b = 16, c = 37), in `xoroshiro128_plus.dfy`;
  - xoroshiro128++ (a = 49, b = 21, c = 28, rotate-add output), in
    `xoroshiro128_plusplus.dfy`;
- the four-word xoshiro256++, in `xoshiro256_plusplus.dfy`.

Every generator is a `class` whose `state` field its methods update in place,
as the Swift `mutating` methods do. Each has its seeding initialisers, `next()`
and `==`.

SplitMix64's `next()` is proved to leave the state `Advance(old(state))`, the
old state plus 0x9e3779b97f4a7c15 modulo 2^64. It returns `Mix` of that new
state. The model has no jump for it, because the library defines none.

The four xoroshiro/xoshiro generators share one layout:

- `next()` is proved to return `Output` of the pre-call state words and to
  leave the state `NextState(old(state))`;
- `jump()`, and `long_jump()` where the library defines it (every generator
  but the Xoroshiro128+DRBG), are each a pair of nested loops.

`Output` and `Step` are functions of 64-bit words (`bv64`, whose `+`, `*`, `<<`
and `>>` wrap and truncate exactly as Swift's `&+`, `&*`, `<<` and `>>` do on
`UInt64`). `NextState` applies `Step` to the words of a `State` value.

The jumps share one specification, in `jump_scan.dfy`.
`JumpScan.Accumulate` is the XOR of the iterates `NextState^k(s)` at every
position `k = 64 * w + bit` whose bit is set in the magic words. Each
`Jump`/`LongJump` is proved to leave the state equal to that XOR-fold over
`64 * |magic|` steps.

Shared facts about the four xoroshiro/xoshiro generators, with the lemmas that
prove them:

- The zero state is a fixed point of `next()`, and no other state reaches it
  by one `next()` (`StepZeroIff`).
- A generator seeded away from zero never reaches zero by `next()`
  (`NeverZero`). Nothing is proved about the jumps from a non-zero state.
- Zero is fixed by the jumps (`ZeroIsStuck`).

The seed source passed to `init(generator:)` is a `Source.WordSource`: the
list of words its `next()` will still return.

## Model

| member | source | states |
|---|---|---|
| Rotation.RotatedLeft | Sources/DRBGs/FixedWidthInteger+Rotation.swift:10-17 | defined only for 0 < shift < 64 as the shift-or formula; rotating 0 gives 0 |
| Rotation.RotatedLeft32 | Sources/DRBGs/FixedWidthInteger+Rotation.swift:10-17 | the same rotation at width 32; rotating 0 gives 0 |
| Rotation.RotateLeft | Sources/DRBGs/FixedWidthInteger+Rotation.swift:26-28 | the in-place rotation leaves the word equal to `rotatedLeft` of its old value |
| Rotation.AgreesWithBuiltin | Sources/DRBGs/FixedWidthInteger+Rotation.swift:8-17 | for every amount 0 < s < 64 the shift-or formula is the true cyclic left rotation by s |
| Rotation.RoundTrip | Sources/DRBGs/FixedWidthInteger+Rotation.swift:15-17 | rotating by s and then by 64 - s restores the word, for every amount 0 < s < 64 |
| Rotation.TestVectors32 | Tests/DRBGsTests/DRBGsTests.swift:13-21 | 0xABCD rotated by 16 is 0xABCD0000, rotated by 16 again is 0xABCD, and 0xABCD rotated by 3 is 0x55E68 |
| JumpScan.Iterate | Sources/DRBGs/Xoroshiro128Plus.swift:103-111 | the state after n calls of `next()` from s: the state each step of the jump loops sees |
| JumpScan.Bit | Sources/DRBGs/Xoroshiro128Plus.swift:105 | the loop's test `val & (1 << bit) != 0` |
| JumpScan.Accumulate | Sources/DRBGs/Xoroshiro128Plus.swift:100-113 | the accumulators after the scan has passed the magic words before word w and the lowest `bit` bits of word w: the XOR of the iterates at the set bits |
| JumpScan.IterateFixedPoint | Sources/DRBGs/Xoroshiro128Plus.swift:31-33 | iterating from a fixed point of the step never leaves it |
| JumpScan.IterateKeeps | Sources/DRBGs/Xoroshiro128Plus.swift:31-33 | a property the step preserves holds after any number of steps |
| JumpScan.AccumulateFixedPoint | Sources/DRBGs/Xoroshiro128Plus.swift:97-114 | scanning any magic words from the zero state accumulates zero |
| JumpScan.ScanStep | Sources/DRBGs/Xoroshiro128Plus.swift:104-110 | one bit of the scan: the state after 64w + bit steps joins the accumulators exactly when bit `bit` of word `w` is set, and the scan then advances one step |
| SplitMix64.Advance | Sources/DRBGs/SplitMix64.swift:50 | the state update under the wrapping reading: the old state plus 0x9e3779b97f4a7c15 modulo 2^64 |
| SplitMix64.AdvanceAsWritten | Sources/DRBGs/SplitMix64.swift:50 | the state update as written: a trap when the sum would exceed `UInt64.max`, otherwise the sum |
| SplitMix64.MixA | Sources/DRBGs/SplitMix64.swift:52 | the first mixing round, `(v ^ (v >> 30)) &* 0xbf58476d1ce4e5b9` |
| SplitMix64.MixB | Sources/DRBGs/SplitMix64.swift:53 | the second mixing round, `(v ^ (v >> 27)) &* 0x94d049bb133111eb` |
| SplitMix64.MixC | Sources/DRBGs/SplitMix64.swift:54 | the final round, `v ^ (v >> 31)` |
| SplitMix64.Mix | Sources/DRBGs/SplitMix64.swift:51-54 | the returned word: the three rounds applied in order to the new state |
| SplitMix64.Generator.FromSeed | Sources/DRBGs/SplitMix64.swift:42-44 | every seed, zero included, is accepted and stored unchanged |
| SplitMix64.Generator.FromGenerator | Sources/DRBGs/SplitMix64.swift:35-37 | exactly one word is drawn from the source and becomes the state |
| SplitMix64.Generator.Next | Sources/DRBGs/SplitMix64.swift:49-55 | the state grows by exactly 0x9e3779b97f4a7c15 (wrapping), and the result is the three-round mix of the new state only |
| SplitMix64.Generator.Equals | Sources/DRBGs/SplitMix64.swift:67-68 | true exactly when the two states are equal |
| SplitMix64.AsWrittenAgrees | Sources/DRBGs/SplitMix64.swift:50 | the checked `+=` traps exactly when state + 0x9e3779b97f4a7c15 reaches 2^64, and otherwise agrees with the wrapping increment |
| SplitMix64.AsWrittenTrapsBySecondCall | Sources/DRBGs/SplitMix64.swift:50 | from every seed, the checked `+=` traps on the first or the second call, because 0x9e3779b97f4a7c15 exceeds 2^63 |
| SplitMix64.TrapsBySecondCallWords | Sources/DRBGs/SplitMix64.swift:50 | the same fact on words: s or s + 0x9e3779b97f4a7c15 is above `UInt64.max` - 0x9e3779b97f4a7c15 |
| SplitMix64.GuardIsOverflow | Sources/DRBGs/SplitMix64.swift:50 | the word guard s > `UInt64.max` - 0x9e3779b97f4a7c15 holds exactly when the mathematical sum reaches 2^64 |
| SplitMix64.AsWrittenTrapsOnMaxSeed | Sources/DRBGs/SplitMix64.swift:50 | seeded with `UInt64.max`, the first `next()` as written traps |
| SplitMix64.FirstOutputFromMax | Tests/DRBGsTests/DRBGsTests.swift:33-36 | seeded with `UInt64.max`, the first `next()` of the wrapping model returns 16490336266968443936 |
| SplitMix64.WeylStep | Sources/DRBGs/SplitMix64.swift:50 | one `next()` moves the closed form seed + k·Gamma from k - 1 to k |
| SplitMix64.StateAfter | Sources/DRBGs/SplitMix64.swift:50 | after n calls of `next()` the state is seed + n·0x9e3779b97f4a7c15 modulo 2^64 |
| SplitMix64.StateAfterCount | Sources/DRBGs/SplitMix64.swift:50 | the same closed form for a call count given as a wrapped 64-bit word |
| Xoroshiro128PlusDrbg.Xor | Sources/DRBGs/Xoroshiro128+DRBG.swift:82-83 | word-wise XOR of two states, as the accumulators combine them |
| Xoroshiro128PlusDrbg.Output | Sources/DRBGs/Xoroshiro128+DRBG.swift:61 | the returned word `s0 &+ s1` of the pre-call state |
| Xoroshiro128PlusDrbg.Step | Sources/DRBGs/Xoroshiro128+DRBG.swift:62-64 | the new state from the old words: `x = s0 ^ s1`, then `Mix` |
| Xoroshiro128PlusDrbg.Mix | Sources/DRBGs/Xoroshiro128+DRBG.swift:63-64 | the new words `((s0 << 55) \| (s0 >> 9)) ^ x ^ (x << 14)` and `(x << 36) \| (x >> 28)` |
| Xoroshiro128PlusDrbg.NextState | Sources/DRBGs/Xoroshiro128+DRBG.swift:58-67 | `Step` applied to the words of a state |
| Xoroshiro128PlusDrbg.Scanned | Sources/DRBGs/Xoroshiro128+DRBG.swift:73-91 | the state a jump leaves: `JumpScan.Accumulate` over all the magic words |
| Xoroshiro128PlusDrbg.Generator.FromSeed | Sources/DRBGs/Xoroshiro128+DRBG.swift:50-53 | a seed other than (0, 0) is stored unchanged; (0, 0) is refused |
| Xoroshiro128PlusDrbg.Generator.FromDrbg | Sources/DRBGs/Xoroshiro128+DRBG.swift:40-43 | word 0 is the first draw, word 1 the second, and exactly two words are consumed |
| Xoroshiro128PlusDrbg.Generator.Next | Sources/DRBGs/Xoroshiro128+DRBG.swift:58-67 | returns s0 &+ s1 of the pre-call state; the new state is rotl(s0, 55) ^ x ^ (x << 14), rotl(x, 36) with x = s0 ^ s1 |
| Xoroshiro128PlusDrbg.InlineRotations | Sources/DRBGs/Xoroshiro128+DRBG.swift:63-64 | the inline shift pairs `(v << 55) \| (v >> 9)` and `(v << 36) \| (v >> 28)` equal `rotatedLeft(by: 55)` and `rotatedLeft(by: 36)` |
| Xoroshiro128PlusDrbg.Generator.ScanWord | Sources/DRBGs/Xoroshiro128+DRBG.swift:80-86 | the inner loop makes 64 steps and XORs in exactly the states whose bit in the magic word is set |
| Xoroshiro128PlusDrbg.Generator.Jump | Sources/DRBGs/Xoroshiro128+DRBG.swift:73-91 | the new state is the XOR of the states after k steps, k < 128, whose bit is set in [0xbeac0467eba5facb, 0xd86b048b86aa9922] |
| Xoroshiro128PlusDrbg.Generator.Equals | Sources/DRBGs/Xoroshiro128+DRBG.swift:103-104 | true exactly when the two states are equal |
| Xoroshiro128PlusDrbg.StepZeroIff | Sources/DRBGs/Xoroshiro128+DRBG.swift:49-51 | `next()` yields the zero state exactly from the zero state |
| Xoroshiro128PlusDrbg.NextStateZeroIff | Sources/DRBGs/Xoroshiro128+DRBG.swift:49-51 | the same, for state values |
| Xoroshiro128PlusDrbg.NeverZero | Sources/DRBGs/Xoroshiro128+DRBG.swift:49-51 | from a non-zero seed no number of `next()` calls reaches zero |
| Xoroshiro128PlusDrbg.ZeroIsStuck | Sources/DRBGs/Xoroshiro128+DRBG.swift:58-91 | from the zero state `next()` returns 0 and stays at zero, and `jump()` stays at zero |
| Xoroshiro128Plus.Xor | Sources/DRBGs/Xoroshiro128Plus.swift:106-107 | word-wise XOR of two states, as the accumulators combine them |
| Xoroshiro128Plus.Output | Sources/DRBGs/Xoroshiro128Plus.swift:84 | the returned word `s0 &+ s1` of the pre-call state |
| Xoroshiro128Plus.Step | Sources/DRBGs/Xoroshiro128Plus.swift:86-88 | the new state from the old words: `s1 ^= s0`, then `Scramble` |
| Xoroshiro128Plus.Scramble | Sources/DRBGs/Xoroshiro128Plus.swift:87-88 | the new words `rotl(s0, 24) ^ s1 ^ (s1 << 16)` and `rotl(s1, 37)` from s0 and the updated s1 |
| Xoroshiro128Plus.NextState | Sources/DRBGs/Xoroshiro128Plus.swift:81-91 | `Step` applied to the words of a state |
| Xoroshiro128Plus.Scanned | Sources/DRBGs/Xoroshiro128Plus.swift:97-114 | the state a jump leaves: `JumpScan.Accumulate` over all the magic words |
| Xoroshiro128Plus.Generator.FromSeed | Sources/DRBGs/Xoroshiro128Plus.swift:73-76 | a seed other than (0, 0) is stored unchanged; (0, 0) is refused |
| Xoroshiro128Plus.Generator.FromGenerator | Sources/DRBGs/Xoroshiro128Plus.swift:64-66 | word 0 is the first draw, word 1 the second, and exactly two words are consumed |
| Xoroshiro128Plus.Generator.Next | Sources/DRBGs/Xoroshiro128Plus.swift:81-91 | returns s0 &+ s1 of the pre-call state; with s1 ^= s0, the new state is rotl(s0, 24) ^ s1 ^ (s1 << 16), rotl(s1, 37) |
| Xoroshiro128Plus.Generator.ScanWord | Sources/DRBGs/Xoroshiro128Plus.swift:104-110 | the inner loop makes 64 steps and XORs in exactly the states whose bit in the magic word is set |
| Xoroshiro128Plus.Generator.ScanMagic | Sources/DRBGs/Xoroshiro128Plus.swift:100-113 | the accumulators start at zero, take in every magic word, and replace the state |
| Xoroshiro128Plus.Generator.Jump | Sources/DRBGs/Xoroshiro128Plus.swift:97-114 | the new state is the XOR of the states after k steps, k < 128, whose bit is set in [0xdf900294d8f554a5, 0x170865df4b3201fc] |
| Xoroshiro128Plus.Generator.LongJump | Sources/DRBGs/Xoroshiro128Plus.swift:121-138 | the same scan over [0xd2a98b26625eee7b, 0xdddf9b1090aa7ac1] |
| Xoroshiro128Plus.Generator.Equals | Sources/DRBGs/Xoroshiro128Plus.swift:150-151 | true exactly when both state words are equal |
| Xoroshiro128Plus.StepZeroIff | Sources/DRBGs/Xoroshiro128Plus.swift:31-33 | `next()` yields the zero state exactly from the zero state |
| Xoroshiro128Plus.NextStateZeroIff | Sources/DRBGs/Xoroshiro128Plus.swift:31-33 | the same, for state values |
| Xoroshiro128Plus.NeverZero | Sources/DRBGs/Xoroshiro128Plus.swift:31-33 | from a non-zero seed no number of `next()` calls reaches zero |
| Xoroshiro128Plus.ZeroIsStuck | Sources/DRBGs/Xoroshiro128Plus.swift:81-138 | from the zero state `next()` returns 0 and stays at zero, and both jumps stay at zero |
| Xoroshiro128PlusPlus.Xor | Sources/DRBGs/Xoroshiro128PlusPlus.swift:94-95 | word-wise XOR of two states, as the accumulators combine them |
| Xoroshiro128PlusPlus.Output | Sources/DRBGs/Xoroshiro128PlusPlus.swift:72 | the returned word `rotl(s0 &+ s1, 17) &+ s0` of the pre-call state |
| Xoroshiro128PlusPlus.Step | Sources/DRBGs/Xoroshiro128PlusPlus.swift:74-76 | the new state from the old words: `s1 ^= s0`, then `Scramble` |
| Xoroshiro128PlusPlus.Scramble | Sources/DRBGs/Xoroshiro128PlusPlus.swift:75-76 | the new words `rotl(s0, 49) ^ s1 ^ (s1 << 21)` and `rotl(s1, 28)` from s0 and the updated s1 |
| Xoroshiro128PlusPlus.NextState | Sources/DRBGs/Xoroshiro128PlusPlus.swift:69-79 | `Step` applied to the words of a state |
| Xoroshiro128PlusPlus.Scanned | Sources/DRBGs/Xoroshiro128PlusPlus.swift:85-102 | the state a jump leaves: `JumpScan.Accumulate` over all the magic words |
| Xoroshiro128PlusPlus.Generator.FromSeed | Sources/DRBGs/Xoroshiro128PlusPlus.swift:61-64 | a seed other than (0, 0) is stored unchanged; (0, 0) is refused |
| Xoroshiro128PlusPlus.Generator.FromGenerator | Sources/DRBGs/Xoroshiro128PlusPlus.swift:52-54 | word 0 is the first draw, word 1 the second, and exactly two words are consumed |
| Xoroshiro128PlusPlus.Generator.Next | Sources/DRBGs/Xoroshiro128PlusPlus.swift:69-79 | returns rotl(s0 &+ s1, 17) &+ s0 of the pre-call state; with s1 ^= s0, the new state is rotl(s0, 49) ^ s1 ^ (s1 << 21), rotl(s1, 28) |
| Xoroshiro128PlusPlus.FirstOutputFromMax | Tests/DRBGsTests/DRBGsTests.swift:38-41 | seeded with (`UInt64.max`, `UInt64.max`), the first `next()` returns 18446744073709420542 |
| Xoroshiro128PlusPlus.Generator.ScanWord | Sources/DRBGs/Xoroshiro128PlusPlus.swift:92-98 | the inner loop makes 64 steps and XORs in exactly the states whose bit in the magic word is set |
| Xoroshiro128PlusPlus.Generator.ScanMagic | Sources/DRBGs/Xoroshiro128PlusPlus.swift:88-101 | the accumulators start at zero, take in every magic word, and replace the state |
| Xoroshiro128PlusPlus.Generator.Jump | Sources/DRBGs/Xoroshiro128PlusPlus.swift:85-102 | the new state is the XOR of the states after k steps, k < 128, whose bit is set in [0x2bd7a6a6e99c2ddc, 0x0992ccaf6a6fca05] |
| Xoroshiro128PlusPlus.Generator.LongJump | Sources/DRBGs/Xoroshiro128PlusPlus.swift:109-126 | the same scan over [0x360fd5f2cf8d5d99, 0x9c6e6877736c46e3] |
| Xoroshiro128PlusPlus.Generator.Equals | Sources/DRBGs/Xoroshiro128PlusPlus.swift:138-139 | true exactly when the state tuples are equal |
| Xoroshiro128PlusPlus.StepZeroIff | Sources/DRBGs/Xoroshiro128PlusPlus.swift:23-25 | `next()` yields the zero state exactly from the zero state |
| Xoroshiro128PlusPlus.NextStateZeroIff | Sources/DRBGs/Xoroshiro128PlusPlus.swift:23-25 | the same, for state values |
| Xoroshiro128PlusPlus.NeverZero | Sources/DRBGs/Xoroshiro128PlusPlus.swift:23-25 | from a non-zero seed no number of `next()` calls reaches zero |
| Xoroshiro128PlusPlus.ZeroIsStuck | Sources/DRBGs/Xoroshiro128PlusPlus.swift:69-126 | from the zero state `next()` returns 0 and stays at zero, and both jumps stay at zero |
| Xoshiro256PlusPlus.Xor | Sources/DRBGs/Xoshiro256PlusPlus.swift:99-102 | word-wise XOR of two states, as the accumulators combine them |
| Xoshiro256PlusPlus.Output | Sources/DRBGs/Xoshiro256PlusPlus.swift:69 | the returned word `rotl(s0 &+ s3, 23) &+ s0` of the pre-call state |
| Xoshiro256PlusPlus.Step | Sources/DRBGs/Xoshiro256PlusPlus.swift:70-73 | `t = s1 << 17` from the pre-call s1, then `s2 ^= s0` and `s3 ^= s1`, then `CrossXor` |
| Xoshiro256PlusPlus.CrossXor | Sources/DRBGs/Xoshiro256PlusPlus.swift:74-75 | `s1 ^= s2` and `s0 ^= s3` on the already-updated s2 and s3, then `Finish` |
| Xoshiro256PlusPlus.Finish | Sources/DRBGs/Xoshiro256PlusPlus.swift:77-79 | `s2 ^= t` and s3 rotated left by 45; s0 and s1 kept |
| Xoshiro256PlusPlus.NextState | Sources/DRBGs/Xoshiro256PlusPlus.swift:68-82 | `Step` applied to the words of a state |
| Xoshiro256PlusPlus.Scanned | Sources/DRBGs/Xoshiro256PlusPlus.swift:88-109 | the state a jump leaves: `JumpScan.Accumulate` over all the magic words |
| Xoshiro256PlusPlus.Generator.FromSeed | Sources/DRBGs/Xoshiro256PlusPlus.swift:60-63 | a seed other than (0, 0, 0, 0) is stored unchanged; the zero seed is refused |
| Xoshiro256PlusPlus.Generator.FromGenerator | Sources/DRBGs/Xoshiro256PlusPlus.swift:51-53 | words 0 to 3 are four successive draws, and exactly four words are consumed |
| Xoshiro256PlusPlus.Generator.Next | Sources/DRBGs/Xoshiro256PlusPlus.swift:68-82 | returns rotl(s0 &+ s3, 23) &+ s0 of the pre-call state; the state becomes `NextState` of the old one, computed by the in-place updates in source order |
| Xoshiro256PlusPlus.StepWords | Sources/DRBGs/Xoshiro256PlusPlus.swift:70-79 | the sequential updates give s0' = s0 ^ (s3 ^ s1), s1' = s1 ^ (s2 ^ s0), s2' = (s2 ^ s0) ^ (s1 << 17) and s3' = rotl(s3 ^ s1, 45): each XOR sees the words the earlier ones changed, `t` comes from the pre-call s1, and only s3 is rotated |
| Xoshiro256PlusPlus.Generator.ScanWord | Sources/DRBGs/Xoshiro256PlusPlus.swift:97-105 | the inner loop makes 64 steps and XORs in exactly the states whose bit in the magic word is set |
| Xoshiro256PlusPlus.Generator.ScanMagic | Sources/DRBGs/Xoshiro256PlusPlus.swift:91-108 | the four accumulators start at zero, take in every magic word, and replace the state |
| Xoshiro256PlusPlus.Generator.Jump | Sources/DRBGs/Xoshiro256PlusPlus.swift:88-109 | the new state is the XOR of the states after k steps, k < 256, whose bit is set in the four jump magic words |
| Xoshiro256PlusPlus.Generator.LongJump | Sources/DRBGs/Xoshiro256PlusPlus.swift:116-137 | the same scan over [0x76e15d3efefdcbbf, 0xc5004e441c522fb3, 0x77710069854ee241, 0x39109bb02acbe635] |
| Xoshiro256PlusPlus.Generator.Equals | Sources/DRBGs/Xoshiro256PlusPlus.swift:149-150 | true exactly when the four-word states are equal |
| Xoshiro256PlusPlus.ShiftFixesOnlyZero | Sources/DRBGs/Xoshiro256PlusPlus.swift:70 | a word equal to itself shifted left by 17 is 0 |
| Xoshiro256PlusPlus.WordsZeroIff | Sources/DRBGs/Xoshiro256PlusPlus.swift:22-24 | the four updated words are all zero exactly when the four old words are |
| Xoshiro256PlusPlus.StepZeroIff | Sources/DRBGs/Xoshiro256PlusPlus.swift:22-24 | `next()` yields the zero state exactly from the zero state |
| Xoshiro256PlusPlus.NextStateZeroIff | Sources/DRBGs/Xoshiro256PlusPlus.swift:22-24 | the same, for state values |
| Xoshiro256PlusPlus.NeverZero | Sources/DRBGs/Xoshiro256PlusPlus.swift:22-24 | from a non-zero seed no number of `next()` calls reaches zero |
| Xoshiro256PlusPlus.ZeroIsStuck | Sources/DRBGs/Xoshiro256PlusPlus.swift:68-137 | from the zero state `next()` returns 0 and stays at zero, and both jumps stay at zero |

The jump loops of the four xoroshiro/xoshiro generators share their shape.
Each has a method `ScanWord` for the inner loop over one magic word's bits.
The generators with two jumps share the outer loop over the magic words in
`ScanMagic`. The Xoroshiro128+DRBG, which has a single jump, writes its outer
loop directly in `Jump`.

Several members are helpers that keep each proof obligation small:

- the `...Def` lemmas, which each restate one function's body so that a
  proof can unfold it on exactly the words it computes. This is much cheaper
  for the verifier than unfolding a bit-vector function over datatype fields
  unaided;
- the per-module `ScanStep`;
- `Xoshiro256PlusPlus.StateZeroIff`;
- `SplitMix64.Weyl`, the Weyl closed form `seed + Gamma * k` modulo 2^64;
- `SplitMix64.Count`, the count n wrapped to a 64-bit word;
- `SplitMix64.WeylZero`;
- `SplitMix64.CountPred`;
- `Rotation.RoundTripFrom1` to `Rotation.RoundTripFrom48`, and
  `Rotation.RoundTrip1` to `Rotation.RoundTrip63`, which split the round trip
  by rotation amount. A shift by a constant is far cheaper for the verifier
  than a shift by a variable;
- `Rotation.AgreesFrom1` to `Rotation.AgreesFrom60`, and `Rotation.Agrees1`
  to `Rotation.Agrees63`, which split `AgreesWithBuiltin` the same way.

## Left out

- The entropy initialiser `init()` of every generator reads `/dev/urandom`.
  This is operating-system I/O and is not modelled.
- `unitDouble` and `unitFloat` are not part of this model. They are
  floating-point conversions.
- `rotatedRight` and `rotateRight` are not part of this model.
  FixedWidthInteger+Rotation.swift defines only `rotatedLeft` and
  `rotateLeft`. The tests call the right rotations, so the library defines
  them in a file that is not part of this model.
- The claims that `jump()` / `long_jump()` are equivalent to 2^64, 2^96, 2^128
  or 2^192 calls to `next()` are not proved. They rest on the characteristic
  polynomial of the generator over GF(2). The model proves instead what the
  code does: the XOR-fold of the first 64·|magic| iterates that the magic bits
  select.
- XOR-linearity of the xoroshiro/xoshiro state update (`step(a ^ b) ==
  step(a) ^ step(b)`) is not proved. The bit-vector reasoning it needs is
  beyond the verifier's resource limit. Only its consequence for the zero
  state is proved (`StepZeroIff`, `ZeroIsStuck`).
- Rotation is modelled at widths 64 and 32 only, the widths the library
  instantiates. Swift's generic `FixedWidthInteger` is not modelled.
- `Rotation.RotatedLeft`: requires 0 < shift < 64, the documented
  precondition. Swift's smart shifts would also give a result outside that
  range.
- SplitMix64.Mix: the mix is not proved to be a bijection. Its inverse rounds
  are beyond the verifier's resource limit through function boundaries.
- SplitMix64.StateAfter: the count of calls is the word `Count(n)`, which is n
  wrapped to 64 bits by repeated wrapping increments. It is not related to
  `n % 2^64` as an integer, because bit-vector-to-integer conversion is beyond
  the verifier's resource limit.
- The seed source of `init(generator:)` is a finite list of the words it will
  produce. The Swift `RandomNumberGenerator` protocol, and its `inout`
  existential, are not modelled.
- Swift's value semantics of the generator structs are modelled by
  references: two `Generator` objects model two independent values.
- Determinism of `next()` and `jump()` (equal generators stay equal) is not a
  separate lemma. It follows from their `ensures`, which give the new state
  and the result as functions of the old state alone.

## Notes on the code followed

- SplitMix64.swift:50 increments the state with Swift's overflow-checking
  `+=`. The reference algorithm and the library's own test for the seed
  `UInt64.max` need the wrapping `&+=`. Because the increment exceeds 2^63,
  the checked form traps on the first or the second call from every seed
  (`SplitMix64.AsWrittenTrapsBySecondCall`). `SplitMix64.Generator.Next`
  models the wrapping increment, and `SplitMix64.AdvanceAsWritten` models the
  trap (see Findings).
- Xoshiro256PlusPlus.swift:72-75 updates the state words in place, in
  sequence. `state.1 ^= state.2` uses the already-updated `state.2`, and
  `state.0 ^= state.3` uses the already-updated `state.3`. The model follows
  that order (`Step`, `CrossXor`, `Finish`, and `StepWords` for the composed
  result).
- Xoroshiro128PlusPlus.swift uses the constants 49/21/28, and the model
  follows them.

## Findings

| source | as written | input that shows it | evidently intended | confidence | as-written member | corrected member |
|---|---|---|---|---|---|---|
| Sources/DRBGs/SplitMix64.swift:50 | `state += 0x9e3779b97f4a7c15` uses Swift's checked addition, which traps when the sum exceeds `UInt64.max` | any seed: the first or the second `next()` traps, because 0x9e3779b97f4a7c15 exceeds 2^63 (`AsWrittenTrapsBySecondCall`); the library's own SplitMix64 test seeds `UInt64.max`, which traps on the first call | the wrapping `&+=` of the splitmix64 algorithm; the test expects 16490336266968443936 | high; not executed | SplitMix64.AsWrittenTrapsOnMaxSeed | SplitMix64.FirstOutputFromMax |
