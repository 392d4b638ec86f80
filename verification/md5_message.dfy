/**
 * The message-level definition of MD5 (RFC 1321 sections 3.1 to 3.5) that
 * the streaming engine of md5.h is proved to compute: the compression
 * function folded over 64-byte blocks, the padding, the appended length,
 * and the two-word bit counter kept by `update`.
 */
module Md5Message {
  import opened ByteOrder
  import opened Md5Rounds

  const BlockSize: nat := 64

  /** The initial buffer of RFC 1321 section 3.3 (md5.h:26-29). */
  const InitialState: seq<Word> := [0x67452301, 0xefcdab89, 0x98badcfe, 0x10325476]

  /**
   * The state after compressing, in order, every complete 64-byte block of
   * `m`, starting from `s`; a trailing partial block is not consumed.
   *
   * As with StepsFrom, the recursion goes through MoreBlocks and
   * BlockThenRest so that a proof which only mentions Blocks does not
   * unfold a compression; BlocksAdvance takes one block off explicitly.
   */
  function Blocks(s: seq<Word>, m: seq<Byte>): (r: seq<Word>)
    requires |s| == 4
    ensures |r| == 4
    decreases |m|, 2
  {
    if |m| < BlockSize then s else MoreBlocks(s, m)
  }

  /** Blocks for a message of at least one complete block. */
  function MoreBlocks(s: seq<Word>, m: seq<Byte>): (r: seq<Word>)
    requires |s| == 4 && |m| >= BlockSize
    ensures |r| == 4
    decreases |m|, 1
  {
    BlockThenRest(s, m)
  }

  /** The first block compressed into s, then the blocks after it. */
  function BlockThenRest(s: seq<Word>, m: seq<Byte>): (r: seq<Word>)
    requires |s| == 4 && |m| >= BlockSize
    ensures |r| == 4
    decreases |m|, 0
  {
    Blocks(Compress(s, m[..BlockSize]), m[BlockSize..])
  }

  /** A message of at least one block: its first block is compressed first. */
  lemma BlocksAdvance(s: seq<Word>, m: seq<Byte>)
    requires |s| == 4 && |m| >= BlockSize
    ensures Blocks(s, m) == Blocks(Compress(s, m[..BlockSize]), m[BlockSize..])
  {
    assert Blocks(s, m) == MoreBlocks(s, m);
    assert MoreBlocks(s, m) == BlockThenRest(s, m);
  }

  /** The length of the prefix of m made of complete blocks. */
  function FullBlocks(n: nat): (k: nat)
    ensures k <= n && k % BlockSize == 0 && n - k < BlockSize
  {
    n - n % BlockSize
  }

  /** A length between q and q + 1 blocks has exactly q complete blocks. */
  lemma FullBlocksOf(n: nat, q: nat)
    requires BlockSize * q <= n < BlockSize * q + BlockSize
    ensures FullBlocks(n) == BlockSize * q
  {
  }

  /** Compressing a whole number of blocks and then more bytes is compressing both. */
  lemma {:induction false} BlocksAppend(s: seq<Word>, p: seq<Byte>, q: seq<Byte>)
    requires |s| == 4 && |p| % BlockSize == 0
    ensures Blocks(s, p + q) == Blocks(Blocks(s, p), q)
    decreases |p|
  {
    if |p| > 0 {
      var s1 := Compress(s, p[..BlockSize]);
      BlocksAdvance(s, p);
      BlocksAdvance(s, p + q);
      assert (p + q)[..BlockSize] == p[..BlockSize];
      assert (p + q)[BlockSize..] == p[BlockSize..] + q;
      BlocksAppend(s1, p[BlockSize..], q);
    } else {
      assert p + q == q;
    }
  }

  /** The blocks of a single block: one compression. */
  lemma BlocksOne(s: seq<Word>, block: seq<Byte>)
    requires |s| == 4 && |block| == BlockSize
    ensures Blocks(s, block) == Compress(s, block)
  {
    BlocksAdvance(s, block);
    assert block[..BlockSize] == block;
    assert block[BlockSize..] == [];
  }

  /** A trailing partial block is not consumed. */
  lemma {:induction false} BlocksIgnoresTail(s: seq<Word>, m: seq<Byte>)
    requires |s| == 4
    ensures Blocks(s, m) == Blocks(s, m[..FullBlocks(|m|)])
    decreases |m|
  {
    if |m| >= BlockSize {
      var k := FullBlocks(|m|);
      BlocksAdvance(s, m);
      BlocksAdvance(s, m[..k]);
      assert m[..k][..BlockSize] == m[..BlockSize];
      assert m[..k][BlockSize..] == m[BlockSize..][..FullBlocks(|m| - BlockSize)];
      BlocksIgnoresTail(Compress(s, m[..BlockSize]), m[BlockSize..]);
    }
  }

  // ---------------------------------------------------------------------
  // Padding and length (RFC 1321 sections 3.1 and 3.2, md5.h:96-105)

  /** The number of padding bytes `finish` appends after n message bytes. */
  function PadLength(n: nat): nat
  {
    var index := n % BlockSize;
    if index < 56 then 56 - index else 120 - index
  }

  lemma PadLengthSpec(n: nat)
    ensures 1 <= PadLength(n) <= BlockSize
    ensures (n + PadLength(n)) % BlockSize == 56
  {
  }

  /** A single 0x80 byte followed by zero bytes, PadLength(n) bytes in all. */
  function Padding(n: nat): (p: seq<Byte>)
    ensures |p| == PadLength(n)
  {
    [0x80] + Zeros(PadLength(n) - 1)
  }

  /** The message length in bits, modulo 2^64 (RFC 1321 section 3.2). */
  function BitLength(n: nat): nat
  {
    (8 * n) % 0x1_0000_0000_0000_0000
  }

  /** The low and high 32-bit words of the bit length, as `count[0]` and `count[1]` hold them. */
  function BitsLow(n: nat): UInt32 { BitLength(n) % 0x1_0000_0000 }
  function BitsHigh(n: nat): UInt32 { BitLength(n) / 0x1_0000_0000 }

  /** The 8 length bytes: the bit length, low word first, each word little-endian. */
  function LengthBytes(n: nat): (bytes: seq<Byte>)
    ensures |bytes| == 8
  {
    CountBytes(CountFor(n))
  }

  /** The message as it is compressed: padding and length appended. */
  function Padded(m: seq<Byte>): seq<Byte>
  {
    m + Padding(|m|) + LengthBytes(|m|)
  }

  lemma PaddedSpec(m: seq<Byte>)
    ensures |Padded(m)| % BlockSize == 0
    ensures |m| < |Padded(m)| <= |m| + BlockSize + 8
    ensures Padded(m)[..|m|] == m && Padded(m)[|m|] == 0x80
    ensures forall k | |m| < k < |m| + PadLength(|m|) :: Padded(m)[k] == 0
  {
    PadLengthSpec(|m|);
    var a := |m| + PadLength(|m|);
    assert a == BlockSize * (a / BlockSize) + 56;
    assert |Padded(m)| == BlockSize * (a / BlockSize + 1);
  }

  /** The digest (RFC 1321 section 3.5): the final state, little-endian. */
  function Digest(s: seq<Word>, m: seq<Byte>): (d: seq<Byte>)
    requires |s| == 4
    ensures |d| == 16
  {
    EncodeWords(Blocks(s, Padded(m)))
  }

  /** MD5 of a message. */
  function Md5(m: seq<Byte>): (d: seq<Byte>)
    ensures |d| == 16
  {
    Digest(InitialState, m)
  }
  // ---------------------------------------------------------------------
  // The bit counter (md5.h:54-58): the message length in bits, modulo
  // 2^64, kept as two 32-bit words, low word first.

  const TwoTo32: nat := 0x1_0000_0000
  const TwoTo64: nat := 0x1_0000_0000_0000_0000

  datatype BitCount = BitCount(low: UInt32, high: UInt32)

  /** The 64-bit number the two words stand for. */
  function Bits(c: BitCount): (v: nat)
    ensures v < TwoTo64
  {
    c.high * TwoTo32 + c.low
  }

  /** The counter after n message bytes. */
  function CountFor(n: nat): (c: BitCount)
    ensures Bits(c) == BitLength(n)
  {
    BitCount(BitsLow(n), BitsHigh(n))
  }

  /** The count of the empty message: both words zero, as `start` sets them. */
  lemma CountForZero()
    ensures CountFor(0) == BitCount(0, 0)
  {
  }

  /** The 8 bytes `encode(bits, count, 8)` writes: the low word, then the high word, each little-endian. */
  function CountBytes(c: BitCount): (bytes: seq<Byte>)
    ensures |bytes| == 8
  {
    EncodeWords([c.low as Word, c.high as Word])
  }

  /**
   * Adding the bits of an n-byte chunk, as md5.h:54-58 is written: the low
   * word takes (low + 8n) mod 2^32, and a carry is detected by comparing the
   * new 32-bit low word with the 64-bit shifted size `data_size << 3`.
   * n is a `size_t`.
   */
  function AddBitsAsWritten(c: BitCount, n: nat): BitCount
    requires n < TwoTo64
  {
    var shifted := (8 * n) % TwoTo64;
    var low := (c.low + shifted) % TwoTo32;
    var high := if low < shifted then (c.high + 1) % TwoTo32 else c.high;
    BitCount(low, (high + n / 0x2000_0000) % TwoTo32)
  }

  /**
   * Adding the bits of an n-byte chunk with the carry test made on 32-bit
   * values, as in RFC 1321: the carry is set exactly when the low word
   * wraps around.
   */
  function AddBits(c: BitCount, n: nat): BitCount
    requires n < TwoTo64
  {
    var shifted := (8 * n) % TwoTo64;
    var low := (c.low + shifted) % TwoTo32;
    var high := if low < shifted % TwoTo32 then (c.high + 1) % TwoTo32 else c.high;
    BitCount(low, (high + n / 0x2000_0000) % TwoTo32)
  }

  /** The carry of the corrected counter is the wrap-around of the low word. */
  lemma AddBitsCarry(c: BitCount, n: nat)
    requires n < TwoTo64
    ensures var low := (c.low + (8 * n) % TwoTo64) % TwoTo32;
      (low < ((8 * n) % TwoTo64) % TwoTo32) <==> (c.low + (8 * n) % TwoTo32 >= TwoTo32)
  {
    var s := (8 * n) % TwoTo64;
    var s32 := (8 * n) % TwoTo32;
    ModOfMod(8 * n);
    assert s == s32 + (s / TwoTo32) * TwoTo32;
    ModAddMultiple(c.low + s32, s / TwoTo32);
    assert (c.low + s) % TwoTo32 == (c.low + s32) % TwoTo32;
    if c.low + s32 >= TwoTo32 {
      ModAddMultiple(c.low + s32 - TwoTo32, 1);
    }
  }

  lemma ModOfMod(v: nat)
    ensures (v % TwoTo64) % TwoTo32 == v % TwoTo32
  {
    assert v % TwoTo64 == v - (v / TwoTo64) * TwoTo64;
    assert v - (v / TwoTo64) * TwoTo64 == v + (-(v / TwoTo64) * TwoTo32) * TwoTo32;
    ModAddMultiple(v, -(v / TwoTo64) * TwoTo32);
  }

  lemma ModAddMultiple(v: int, k: int)
    ensures (v + k * TwoTo32) % TwoTo32 == v % TwoTo32
  {
  }

  /** 8n is n >> 29 times 2^32 plus the low 32 bits of 8n. */
  lemma ShiftSplit(n: nat)
    ensures 8 * n == (n / 0x2000_0000) * TwoTo32 + (8 * n) % TwoTo32
  {
    var q, r := n / 0x2000_0000, n % 0x2000_0000;
    assert 8 * n == 8 * r + q * TwoTo32;
    ModAddMultiple(8 * r, q);
  }

  /** The low word of the corrected counter, and the carry out of it. */
  lemma AddBitsLow(c: BitCount, n: nat)
    requires n < TwoTo64
    ensures var carry := if c.low + (8 * n) % TwoTo32 >= TwoTo32 then 1 else 0;
      c.low + (8 * n) % TwoTo32 == carry * TwoTo32 + AddBits(c, n).low
  {
    var v := 8 * n;
    var k := v % TwoTo64 / TwoTo32;
    assert v % TwoTo64 == v % TwoTo32 + k * TwoTo32 by {
      ModOfMod(v);
    }
    ModAddMultiple(c.low + v % TwoTo32, k);
  }

  /** The high word of the corrected counter: the carry and n >> 29 added in. */
  lemma AddBitsHigh(c: BitCount, n: nat)
    requires n < TwoTo64
    ensures var carry := if c.low + (8 * n) % TwoTo32 >= TwoTo32 then 1 else 0;
      AddBits(c, n).high == (c.high + carry + n / 0x2000_0000) % TwoTo32
  {
    var q := n / 0x2000_0000;
    AddBitsCarry(c, n);
    if c.low + (8 * n) % TwoTo32 >= TwoTo32 {
      assert (c.high + 1) % TwoTo32 + q == c.high + 1 + q + (-((c.high + 1) / TwoTo32)) * TwoTo32;
      ModAddMultiple(c.high + 1 + q, -((c.high + 1) / TwoTo32));
    }
  }

  /** A high part taken modulo 2^32, above a low word, is the whole taken modulo 2^64. */
  lemma CombineWords(h: int, low: int)
    requires 0 <= low < TwoTo32
    ensures (h % TwoTo32) * TwoTo32 + low == (h * TwoTo32 + low) % TwoTo64
  {
    var r := (h % TwoTo32) * TwoTo32 + low;
    assert h == (h / TwoTo32) * TwoTo32 + h % TwoTo32;
    assert r == h * TwoTo32 + low - (h / TwoTo32) * TwoTo64;
    assert 0 <= r < TwoTo64;
    ModUnique(h * TwoTo32 + low, h / TwoTo32, r);
  }

  /** The corrected counter adds 8n bits, modulo 2^64. */
  lemma AddBitsTotal(c: BitCount, n: nat)
    requires n < TwoTo64
    ensures Bits(AddBits(c, n)) == (Bits(c) + 8 * n) % TwoTo64
  {
    ShiftSplit(n);
    AddBitsLow(c, n);
    AddBitsHigh(c, n);
    var r := AddBits(c, n);
    var carry := if c.low + (8 * n) % TwoTo32 >= TwoTo32 then 1 else 0;
    var h := c.high + carry + n / 0x2000_0000;
    CombineWords(h, r.low);
    assert h * TwoTo32 + r.low == Bits(c) + 8 * n;
  }

  /** The remainder is the only value below 2^64 congruent to v. */
  lemma ModUnique(v: int, k: int, r: int)
    requires r == v - k * TwoTo64 && 0 <= r < TwoTo64
    ensures r == v % TwoTo64
  {
    assert v == k * TwoTo64 + r;
    assert v / TwoTo64 == k;
  }

  /** Counting chunk after chunk keeps the counter equal to the bits of all bytes so far. */
  lemma AddBitsCountFor(m: nat, n: nat)
    requires n < TwoTo64
    ensures AddBits(CountFor(m), n) == CountFor(m + n)
  {
    AddBitsTotal(CountFor(m), n);
    var r := AddBits(CountFor(m), n);
    var v := BitLength(m + n);
    assert Bits(r) == v by {
      assert (BitLength(m) + 8 * n) % TwoTo64 == (8 * m + 8 * n) % TwoTo64 by {
        assert 8 * m == (8 * m / TwoTo64) * TwoTo64 + BitLength(m);
        ModUnique(8 * m + 8 * n, 8 * m / TwoTo64 + (BitLength(m) + 8 * n) / TwoTo64, (BitLength(m) + 8 * n) % TwoTo64);
      }
    }
    BitsInjective(r, CountFor(m + n));
  }

  lemma BitsInjective(c: BitCount, d: BitCount)
    requires Bits(c) == Bits(d)
    ensures c == d
  {
    assert c.high == Bits(c) / TwoTo32;
    assert d.high == Bits(d) / TwoTo32;
  }

  /** The two additions agree on every chunk smaller than 2^29 bytes. */
  lemma AddBitsAsWrittenAgrees(c: BitCount, n: nat)
    requires n < 0x2000_0000
    ensures AddBitsAsWritten(c, n) == AddBits(c, n)
  {
  }

  /**
   * As written, a chunk of 2^29 bytes added to an empty counter counts
   * 2^33 bits instead of 2^32: the wrapped low word 0 is below the 64-bit
   * shifted size 2^32, so the carry is taken on top of n >> 29.
   */
  lemma AddBitsAsWrittenOvercounts()
    ensures Bits(AddBitsAsWritten(BitCount(0, 0), 0x2000_0000)) == 2 * TwoTo32
    ensures Bits(AddBits(BitCount(0, 0), 0x2000_0000)) == TwoTo32
    ensures BitLength(0x2000_0000) == TwoTo32
  {
  }

  /**
   * As written, the count depends on how the input is split: two chunks of
   * 2^28 bytes count 2^32 bits, one chunk of 2^29 bytes counts 2^33.
   */
  lemma AddBitsAsWrittenSplitDiffers()
    ensures AddBitsAsWritten(AddBitsAsWritten(BitCount(0, 0), 0x1000_0000), 0x1000_0000) == BitCount(0, 1)
    ensures AddBitsAsWritten(BitCount(0, 0), 0x2000_0000) == BitCount(0, 2)
  {
  }
}
