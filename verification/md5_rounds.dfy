/**
 * The MD5 compression function of RFC 1321, section 3.4: the four auxiliary
 * functions, the rotation, the four step operations of md5.h, and a
 * table-driven reference definition of the 64 steps that the unrolled
 * `transform` of md5.h is proved against.
 */
module Md5Rounds {
  import opened ByteOrder

  /** A rotation amount as used by the step operations: 1 to 31 bits. */
  type Shift = s: bv32 | 0 < s < 32 witness 1

  // The auxiliary functions F, G, H and I (md5.h:140-154).
  function F(x: Word, y: Word, z: Word): Word { (x & y) | (!x & z) }
  function G(x: Word, y: Word, z: Word): Word { (x & z) | (y & !z) }
  function H(x: Word, y: Word, z: Word): Word { x ^ y ^ z }
  function I(x: Word, y: Word, z: Word): Word { y ^ (x | !z) }

  /** `rotate_left` of md5.h: a shift each way, or-ed together. */
  function RotateLeft(x: Word, n: Shift): Word
  {
    (x << n) | (x >> (32 - n))
  }

  // The step operations of rounds 1 to 4 (md5.h:162-176). In md5.h they
  // update their first argument in place; here they return its new value.
  function FF(a: Word, b: Word, c: Word, d: Word, x: Word, s: Shift, ac: Word): Word
  {
    RotateLeft(a + F(b, c, d) + x + ac, s) + b
  }
  function GG(a: Word, b: Word, c: Word, d: Word, x: Word, s: Shift, ac: Word): Word
  {
    RotateLeft(a + G(b, c, d) + x + ac, s) + b
  }
  function HH(a: Word, b: Word, c: Word, d: Word, x: Word, s: Shift, ac: Word): Word
  {
    RotateLeft(a + H(b, c, d) + x + ac, s) + b
  }
  function II(a: Word, b: Word, c: Word, d: Word, x: Word, s: Shift, ac: Word): Word
  {
    RotateLeft(a + I(b, c, d) + x + ac, s) + b
  }

  /** F is a bitwise choice: where x has a 1 it takes the bit of y, elsewhere the bit of z. */
  lemma FChooses(x: Word, y: Word, z: Word)
    ensures F(x, y, z) & x == y & x && F(x, y, z) & !x == z & !x
  {
  }

  /** G is a bitwise choice: where z has a 1 it takes the bit of x, elsewhere the bit of y. */
  lemma GChooses(x: Word, y: Word, z: Word)
    ensures G(x, y, z) & z == x & z && G(x, y, z) & !z == y & !z
  {
  }

  /** H is bitwise parity: the result and any two inputs give back the third. */
  lemma HParity(x: Word, y: Word, z: Word)
    ensures H(x, y, z) ^ x ^ y == z
    ensures H(x, y, z) ^ x ^ z == y
    ensures H(x, y, z) ^ y ^ z == x
  {
    HCancelsXY(x, y, z);
    HCancelsXZ(x, y, z);
    HCancelsYZ(x, y, z);
  }

  // The three cancellations of HParity, one lemma each.
  lemma HCancelsXY(x: Word, y: Word, z: Word)
    ensures H(x, y, z) ^ x ^ y == z
  {
  }

  lemma HCancelsXZ(x: Word, y: Word, z: Word)
    ensures H(x, y, z) ^ x ^ z == y
  {
  }

  lemma HCancelsYZ(x: Word, y: Word, z: Word)
    ensures H(x, y, z) ^ y ^ z == x
  {
  }

  /** I flips the bits of y wherever x has a 1 or z has a 0, and nowhere else. */
  lemma IFlips(x: Word, y: Word, z: Word)
    ensures I(x, y, z) ^ y == x | !z
  {
  }

  /** rotate_left is a rotation: rotating by n and then by 32 - n gives the word back. */
  lemma RotateLeftInverse(x: Word, n: Shift)
    ensures RotateLeft(RotateLeft(x, n), (32 - n) as Shift) == x
  {
  }

  // ---------------------------------------------------------------------
  // Reference definition of the 64 steps, in the table-driven form of
  // RFC 1321 section 3.4: step i (0-based) applies the round's operation to
  // the registers (A, B, C, D) with message word X[MessageIndex(i)], shift
  // ShiftFor(i) and constant T[i], then renames the registers so that the
  // register just computed becomes B.

  // The additive constants of RFC 1321, T[i] = floor(2^32 * |sin(i)|) for
  // i = 1 to 64, as listed in md5.h: one row of sixteen per round.
  const Round1T: seq<Word> := [
    0xd76aa478, 0xe8c7b756, 0x242070db, 0xc1bdceee, 0xf57c0faf, 0x4787c62a, 0xa8304613, 0xfd469501,
    0x698098d8, 0x8b44f7af, 0xffff5bb1, 0x895cd7be, 0x6b901122, 0xfd987193, 0xa679438e, 0x49b40821
  ]
  const Round2T: seq<Word> := [
    0xf61e2562, 0xc040b340, 0x265e5a51, 0xe9b6c7aa, 0xd62f105d, 0x2441453, 0xd8a1e681, 0xe7d3fbc8,
    0x21e1cde6, 0xc33707d6, 0xf4d50d87, 0x455a14ed, 0xa9e3e905, 0xfcefa3f8, 0x676f02d9, 0x8d2a4c8a
  ]
  const Round3T: seq<Word> := [
    0xfffa3942, 0x8771f681, 0x6d9d6122, 0xfde5380c, 0xa4beea44, 0x4bdecfa9, 0xf6bb4b60, 0xbebfbc70,
    0x289b7ec6, 0xeaa127fa, 0xd4ef3085, 0x4881d05, 0xd9d4d039, 0xe6db99e5, 0x1fa27cf8, 0xc4ac5665
  ]
  const Round4T: seq<Word> := [
    0xf4292244, 0x432aff97, 0xab9423a7, 0xfc93a039, 0x655b59c3, 0x8f0ccc92, 0xffeff47d, 0x85845dd1,
    0x6fa87e4f, 0xfe2ce6e0, 0xa3014314, 0x4e0811a1, 0xf7537e82, 0xbd3af235, 0x2ad7d2bb, 0xeb86d391
  ]

  /** The additive constant of step i (0-based). */
  function T(i: nat): Word
    requires i < 64
  {
    if i < 16 then Round1T[i]
    else if i < 32 then Round2T[i - 16]
    else if i < 48 then Round3T[i - 32]
    else Round4T[i - 48]
  }

  /** The rotation amount of step i (0-based): four per round, repeating. */
  function ShiftFor(i: nat): Shift
    requires i < 64
  {
    var j := i % 4;
    if i < 16 then (if j == 0 then 7 else if j == 1 then 12 else if j == 2 then 17 else 22)
    else if i < 32 then (if j == 0 then 5 else if j == 1 then 9 else if j == 2 then 14 else 20)
    else if i < 48 then (if j == 0 then 4 else if j == 1 then 11 else if j == 2 then 16 else 23)
    else (if j == 0 then 6 else if j == 1 then 10 else if j == 2 then 15 else 21)
  }

  /**
   * The message word used by step i: round 1 takes them in order, rounds 2,
   * 3 and 4 with strides 5, 3 and 7 from offsets 1, 5 and 0, modulo 16.
   */
  function MessageIndex(i: nat): (k: nat)
    requires i < 64
    ensures k < 16
  {
    if i < 16 then i
    else if i < 32 then (5 * i + 1) % 16
    else if i < 48 then (3 * i + 5) % 16
    else (7 * i) % 16
  }

  /**
   * Every round reads each of the sixteen message words at least once, and
   * so, having sixteen steps, exactly once: the step of round r (0-based)
   * that reads word k is found by inverting the stride modulo 16.
   */
  lemma MessageIndexCovers(r: nat, k: nat)
    requires r < 4 && k < 16
    ensures var j := RoundStepFor(r, k);
      16 * r <= j < 16 * r + 16 && MessageIndex(j) == k
  {
    var j := RoundStepFor(r, k);
    if r == 1 {
      var a := (13 * k + 3) / 16;
      assert 5 * j + 1 == k + 16 * (6 + 4 * k - 5 * a);
      ModSixteen(k, 6 + 4 * k - 5 * a);
    } else if r == 2 {
      var a := (11 * k + 9) / 16;
      assert 3 * j + 5 == k + 16 * (8 + 2 * k - 3 * a);
      ModSixteen(k, 8 + 2 * k - 3 * a);
    } else if r == 3 {
      var a := 7 * k / 16;
      assert 7 * j == k + 16 * (21 + 3 * k - 7 * a);
      ModSixteen(k, 21 + 3 * k - 7 * a);
    }
  }

  lemma ModSixteen(k: int, t: int)
    requires 0 <= k < 16
    ensures (k + 16 * t) % 16 == k
  {
  }

  /** The step of round r (0-based) that reads message word k. */
  function RoundStepFor(r: nat, k: nat): nat
    requires r < 4 && k < 16
  {
    if r == 0 then k
    else if r == 1 then 16 + (13 * k + 3) % 16
    else if r == 2 then 32 + (11 * k + 9) % 16
    else 48 + (7 * k) % 16
  }

  /** The step operation of the round that step i belongs to. */
  function StepOp(i: nat, a: Word, b: Word, c: Word, d: Word, x: Word, s: Shift, t: Word): Word
    requires i < 64
  {
    if i < 16 then FF(a, b, c, d, x, s, t)
    else if i < 32 then GG(a, b, c, d, x, s, t)
    else if i < 48 then HH(a, b, c, d, x, s, t)
    else II(a, b, c, d, x, s, t)
  }

  datatype Registers = Registers(a: Word, b: Word, c: Word, d: Word)

  function Step(i: nat, r: Registers, x: seq<Word>): Registers
    requires i < 64 && |x| == 16
  {
    Registers(r.d, StepOp(i, r.a, r.b, r.c, r.d, x[MessageIndex(i)], ShiftFor(i), T(i)), r.b, r.c)
  }

  /**
   * The registers after applying steps i, i + 1, ..., 63 in turn to r. The
   * whole compression runs StepsFrom(0, ...).
   *
   * The recursion is split over StepsFrom, RemainingSteps and StepThenRest
   * so that the step arithmetic sits three unfoldings deep: a proof that
   * only mentions a compression never unfolds it, and a proof that needs a
   * step asks for it through StepsFromAdvance.
   */
  function StepsFrom(i: nat, r: Registers, x: seq<Word>): Registers
    requires i <= 64 && |x| == 16
    decreases 64 - i, x, 2
  {
    if i == 64 then r else RemainingSteps(i, r, x)
  }

  /** Steps i, ..., 63 for i < 64. */
  function RemainingSteps(i: nat, r: Registers, x: seq<Word>): Registers
    requires i < 64 && |x| == 16
    decreases 64 - i, x, 1
  {
    StepThenRest(i, r, x)
  }

  /** Step i, then steps i + 1, ..., 63. */
  function StepThenRest(i: nat, r: Registers, x: seq<Word>): Registers
    requires i < 64 && |x| == 16
    decreases 64 - i, x, 0
  {
    StepsFrom(i + 1, Step(i, r, x), x)
  }

  /** Running from step i is running step i and then from step i + 1. */
  lemma StepsFromAdvance(i: nat, r: Registers, x: seq<Word>)
    requires i < 64 && |x| == 16
    ensures StepsFrom(i, r, x) == StepsFrom(i + 1, Step(i, r, x), x)
  {
    assert StepsFrom(i, r, x) == RemainingSteps(i, r, x);
    assert RemainingSteps(i, r, x) == StepThenRest(i, r, x);
  }

  /**
   * One application of the compression function to a 64-byte block: the
   * block is read as sixteen little-endian words, the 64 steps run from the
   * current state, and the resulting registers are added back into the
   * state word by word, modulo 2^32.
   */
  function Compress(state: seq<Word>, block: seq<Byte>): (next: seq<Word>)
    requires |state| == 4 && |block| == 64
    ensures |next| == 4
  {
    AddRegisters(state, StepsFrom(0, Registers(state[0], state[1], state[2], state[3]), DecodeWords(block)))
  }

  /** Addition of two words modulo 2^32, the `+=` of md5.h:293-296. */
  function WordAdd(x: Word, y: Word): Word
  {
    x + y
  }

  /** The state with the registers added in, word by word, modulo 2^32. */
  function AddRegisters(state: seq<Word>, r: Registers): (next: seq<Word>)
    requires |state| == 4
    ensures |next| == 4
  {
    [WordAdd(state[0], r.a), WordAdd(state[1], r.b), WordAdd(state[2], r.c), WordAdd(state[3], r.d)]
  }
}
