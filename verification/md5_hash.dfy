/**
 * The streaming MD5 engine `md5_hash` (md5.h:11-300): a class whose
 * fixed-size fields `state`, `count`, `buffer` and `digest` are updated in
 * place by `start`, `update`, `finish` and `transform`.
 *
 * Two ghost fields record what the fields stand for. `Base` is the state
 * the current message started from (the initial buffer after `start`, the
 * final state after `finish`) and `Input` is every byte passed to `update`
 * since then. `Valid` ties the concrete fields to them: the state is Base
 * with every complete block of Input compressed into it, the count is the
 * bit length of Input, the buffer starts with the bytes after the last
 * complete block, and the digest is Base written out once `finish` has
 * run and all zero before.
 */
module Md5 {
  import opened ByteOrder
  import opened Md5Rounds
  import opened Md5RoundSteps
  import opened Md5Message
  import opened HexText

  const DigestSize: nat := 16
  const ChunkSize: nat := 64

  /** The padding source of md5.h:89-93: 0x80 and 63 zero bytes. */
  const PaddingBytes: seq<Byte> := [0x80] + Zeros(ChunkSize - 1)

  /** The first PadLength(n) bytes of the padding source are the padding of n bytes. */
  lemma PaddingPrefix(n: nat)
    ensures PadLength(n) <= |PaddingBytes| && PaddingBytes[..PadLength(n)] == Padding(n)
  {
    PadLengthSpec(n);
    ZerosPrefix(ChunkSize - 1, PadLength(n) - 1);
    assert PaddingBytes[..PadLength(n)] == [0x80] + Zeros(ChunkSize - 1)[..PadLength(n) - 1];
  }

  class Md5Hash {
    const state: array<Word>
    var finalized: bool
    const digest: array<Byte>
    const count: array<UInt32>
    const buffer: array<Byte>

    ghost var Base: seq<Word>
    ghost var Input: seq<Byte>

    /** The object and its four arrays. */
    ghost function Repr(): set<object>
    {
      {this, state, digest, count, buffer}
    }

    /** The sizes of the fixed arrays of md5.h:16-20. */
    ghost predicate Shape()
    {
      state.Length == 4 && digest.Length == DigestSize && count.Length == 2 &&
      buffer.Length == ChunkSize && buffer != digest
    }

    ghost predicate Valid()
      reads this, state, digest, count, buffer
    {
      Shape() &&
      |Base| == 4 &&
      // exactly the complete blocks of the input have been transformed, in order
      state[..] == Blocks(Base, Input[..FullBlocks(|Input|)]) &&
      // the bit count of the input, modulo 2^64, low word first
      BitCount(count[0], count[1]) == CountFor(|Input|) &&
      // the pending bytes: the input after its last complete block
      buffer[..|Input| % ChunkSize] == Input[FullBlocks(|Input|)..] &&
      (finalized ==> digest[..] == EncodeWords(Base)) &&
      (!finalized ==> forall k | 0 <= k < DigestSize :: digest[k] == 0)
    }

    /** md5.h:22 */
    constructor ()
      ensures Valid() && fresh(state) && fresh(digest) && fresh(count) && fresh(buffer)
      ensures Base == InitialState && Input == [] && !finalized
    {
      state := new Word[4];
      digest := new Byte[DigestSize];
      count := new UInt32[2];
      buffer := new Byte[ChunkSize];
      new;
      Start();
    }

    /** md5.h:24-35: the initial buffer, a zero count, a zero digest. */
    method Start()
      requires Shape()
      modifies this, state, digest, count
      ensures Valid()
      ensures state[..] == InitialState && count[..] == [0, 0]
      ensures forall k | 0 <= k < DigestSize :: digest[k] == 0
      ensures Base == InitialState && Input == [] && !finalized
    {
      state[0] := 0x67452301;
      state[1] := 0xefcdab89;
      state[2] := 0x98badcfe;
      state[3] := 0x10325476;
      finalized := false;
      forall k | 0 <= k < DigestSize {
        digest[k] := 0;
      }
      count[0] := 0;
      count[1] := 0;
      Base, Input := InitialState, [];
    }

    /**
     * md5.h:37-46: the stream overload reads at most 64 bytes and passes
     * the bytes it got to `update`; `read` stands for those bytes.
     */
    method UpdateFromStream(read: seq<Byte>)
      requires Valid() && |read| <= ChunkSize
      modifies this, state, count, buffer
      ensures Valid()
      ensures Base == old(Base) && Input == old(Input) + read && finalized == old(finalized)
    {
      Update(read);
    }

    /**
     * md5.h:48-81. The count grows by the bits of `data`; the buffer is
     * filled up to a block and transformed, then every complete block of
     * `data` is transformed directly, and the rest is kept in the buffer.
     * Update is not refused after `finish`.
     */
    method Update(data: seq<Byte>)
      requires Valid() && |data| < TwoTo64
      modifies this, state, count, buffer
      ensures Valid()
      ensures Base == old(Base) && Input == old(Input) + data && finalized == old(finalized)
    {
      ghost var start := FullBlocks(|Input|);
      IndexFromCount(|Input|);
      var index := count[0] / 8 % ChunkSize;
      AddToCount(|Input|, |data|);
      var i := 0;
      Prefix(Input, data, start);
      if |data| >= ChunkSize - index {
        i := TransformBlocks(Base, Input, index, data);
        index, start := 0, |Input| + i;
      }
      Pending(Input, data, start, i, index, buffer[..]);
      CopyToBuffer(index, data[i..]);
      Input := Input + data;
    }

    /**
     * md5.h:61-75, the part of `update` that runs when data completes the
     * pending block: the buffer is topped up and transformed, then every
     * further complete block of data is transformed where it lies. The
     * result is the position in data after the last complete block.
     */
    method TransformBlocks(ghost base: seq<Word>, ghost input: seq<Byte>, index: nat, data: seq<Byte>)
      returns (i: nat)
      requires state.Length == 4 && buffer.Length == ChunkSize && |base| == 4
      requires index == |input| % ChunkSize && ChunkSize - index <= |data|
      requires state[..] == Blocks(base, input[..FullBlocks(|input|)])
      requires buffer[..index] == input[FullBlocks(|input|)..]
      modifies state, buffer
      ensures i <= |data| && (|input| + i) % ChunkSize == 0 && |data| - i < ChunkSize
      ensures state[..] == Blocks(base, (input + data)[..|input| + i])
    {
      ghost var m := input + data;
      var firstpart := ChunkSize - index;
      ghost var k := FullBlocks(|input|);
      TopUp(input, data, buffer[..]);
      CopyToBuffer(index, data[..firstpart]);
      ghost var block := m[k..k + ChunkSize];
      assert buffer[..] == block;
      Transform(buffer[..]);
      ghost var done := m[..k + ChunkSize];
      BlocksAppend(base, input[..k], block);
      assert state[..] == Blocks(base, done);
      i := TransformDirect(base, done, data, firstpart);
      assert done + data[firstpart..i] == m[..|input| + i];
    }

    /** md5.h:72-74: every complete block of data from `from` on is transformed where it lies. */
    method TransformDirect(ghost base: seq<Word>, ghost done: seq<Byte>, data: seq<Byte>, from: nat)
      returns (i: nat)
      requires state.Length == 4 && |base| == 4 && |done| % ChunkSize == 0 && from <= |data|
      requires state[..] == Blocks(base, done)
      modifies state
      ensures from <= i <= |data| && (i - from) % ChunkSize == 0 && |data| - i < ChunkSize
      ensures state[..] == Blocks(base, done + data[from..i])
    {
      i := from;
      assert done + data[from..i] == done;
      while i + ChunkSize <= |data|
        invariant from <= i <= |data| && (i - from) % ChunkSize == 0
        invariant state[..] == Blocks(base, done + data[from..i])
      {
        BlocksAppend(base, done + data[from..i], data[i..i + ChunkSize]);
        assert (done + data[from..i]) + data[i..i + ChunkSize] == done + data[from..i + ChunkSize];
        Transform(data[i..i + ChunkSize]);
        i := i + ChunkSize;
      }
    }

    /** md5.h:53-58: the bit count grows by the bits of a chunk of n bytes. */
    method AddToCount(ghost before: nat, n: nat)
      requires count.Length == 2 && BitCount(count[0], count[1]) == CountFor(before) && n < TwoTo64
      modifies count
      ensures BitCount(count[0], count[1]) == CountFor(before + n)
      ensures n < 0x2000_0000 ==> BitCount(count[0], count[1]) == AddBitsAsWritten(old(BitCount(count[0], count[1])), n)
    {
      AddBitsCountFor(before, n);
      if n < 0x2000_0000 {
        AddBitsAsWrittenAgrees(BitCount(count[0], count[1]), n);
      }
      var c := AddBits(BitCount(count[0], count[1]), n);
      count[0], count[1] := c.low, c.high;
    }

    /** The `memcpy` of md5.h:68 and md5.h:80: bytes copied into the buffer at an offset. */
    method CopyToBuffer(index: nat, bytes: seq<Byte>)
      requires buffer.Length == ChunkSize && index + |bytes| <= ChunkSize
      modifies buffer
      ensures buffer[..] == old(buffer[..index]) + bytes + old(buffer[index + |bytes|..])
    {
      forall k | 0 <= k < |bytes| {
        buffer[index + k] := bytes[k];
      }
    }

    /**
     * md5.h:83-117. A second call returns "" and changes nothing. The first
     * appends the padding and the length through `update`, stores the
     * state little-endian in the digest, clears the buffer and the count,
     * and returns the hex text of the digest.
     */
    method Finish() returns (r: string)
      requires Valid()
      modifies this, state, count, buffer, digest
      ensures Valid()
      ensures old(finalized) ==> r == "" && unchanged(this, state, count, buffer, digest)
      ensures !old(finalized) ==>
        && digest[..] == Digest(old(Base), old(Input))
        && r == HexString(Digest(old(Base), old(Input)))
        && state[..] == Blocks(old(Base), Padded(old(Input)))
        && Base == state[..] && Input == [] && finalized
        && count[..] == [0, 0] && forall k | 0 <= k < ChunkSize :: buffer[k] == 0
    {
      if finalized {
        return "";
      }
      ghost var base, msg := Base, Input;
      PadAndAppendLength();
      PaddedSpec(msg);
      assert Input[..FullBlocks(|Input|)] == Input;
      assert state[..] == Blocks(base, Padded(msg));
      StoreDigest();
      assert digest[..] == Digest(base, msg);
      Wipe();
      CountForZero();
      finalized, Base, Input := true, state[..], [];
      r := Hash();
    }

    /** md5.h:110-112: the buffer and the count are zeroed. */
    method Wipe()
      requires count.Length == 2 && buffer.Length == ChunkSize
      modifies buffer, count
      ensures count[0] == 0 && count[1] == 0 && count[..] == [0, 0]
      ensures forall k | 0 <= k < ChunkSize :: buffer[k] == 0
    {
      forall k | 0 <= k < ChunkSize {
        buffer[k] := 0;
      }
      count[0], count[1] := 0, 0;
    }

    /**
     * md5.h:94-105, the part of `finish` that completes the message: the
     * bit count is saved as 8 bytes, then the padding up to 56 bytes modulo
     * 64 and those 8 bytes are passed to `update`.
     */
    method PadAndAppendLength()
      requires Valid()
      modifies this, state, count, buffer
      ensures Valid()
      ensures Base == old(Base) && Input == Padded(old(Input)) && finalized == old(finalized)
    {
      var bits := SaveBitCount();
      IndexFromCount(|Input|);
      var index := count[0] / 8 % ChunkSize;
      var padLen := if index < 56 then 56 - index else 120 - index;
      PaddingPrefix(|Input|);
      Update(PaddingBytes[..padLen]);
      Update(bits[..]);
    }

    /** md5.h:107-108: the state, little-endian, as the digest. */
    method StoreDigest()
      requires state.Length == 4 && digest.Length == DigestSize
      modifies digest
      ensures digest[..] == EncodeWords(state[..])
    {
      Encode(digest, state[..], DigestSize);
      assert state[..][..4] == state[..] && digest[..] == digest[..DigestSize];
    }

    /** md5.h:95-97: the bit count as 8 bytes, low word first, each word little-endian. */
    method SaveBitCount() returns (bits: array<Byte>)
      requires count.Length == 2
      ensures fresh(bits) && bits[..] == CountBytes(BitCount(count[0], count[1]))
    {
      bits := new Byte[8];
      var words := [count[0] as Word, count[1] as Word];
      Encode(bits, words, 8);
      assert words[..2] == words && bits[..] == bits[..8];
      assert bits[..] == EncodeWords(words);
      assert words == [BitCount(count[0], count[1]).low as Word, BitCount(count[0], count[1]).high as Word];
    }

    /** md5.h:119-133: "" before `finish`, else each digest byte in hex without leading zeros. */
    method Hash() returns (r: string)
      ensures !finalized ==> r == ""
      ensures finalized ==> r == HexString(digest[..])
    {
      if !finalized {
        return "";
      }
      r := "";
      for i := 0 to digest.Length
        invariant r == HexString(digest[..i])
      {
        HexStringAppend(digest[..i], [digest[i]]);
        assert digest[..i + 1] == digest[..i] + [digest[i]];
        r := r + HexByte(digest[i]);
      }
      assert digest[..digest.Length] == digest[..];
    }

    /**
     * md5.h:192-300: one block through the 64 steps, added back into the
     * state word by word, modulo 2^32. The contract states it as the blocks
     * of a one-block message, which BlocksOne equates with Compress.
     */
    method Transform(block: seq<Byte>)
      requires state.Length == 4 && |block| == ChunkSize
      modifies state
      ensures state[..] == Blocks(old(state[..]), block)
    {
      BlocksOne(state[..], block);
      var a, b, c, d := state[0], state[1], state[2], state[3];
      ghost var r0 := Registers(a, b, c, d);
      var x := new Word[16];
      Decode(x, block, ChunkSize);
      assert x[..] == DecodeWords(block) by {
        assert block[..ChunkSize] == block;
      }
      a, b, c, d := Rounds(a, b, c, d, x);
      CompressFromSteps(state[..], block, x[..], r0, Registers(a, b, c, d));
      AddBack(a, b, c, d);
    }

    /** md5.h:293-296: the registers added into the state, word by word. */
    method AddBack(a: Word, b: Word, c: Word, d: Word)
      requires state.Length == 4
      modifies state
      ensures state[..] == AddRegisters(old(state[..]), Registers(a, b, c, d))
    {
      state[0] := WordAdd(state[0], a);
      state[1] := WordAdd(state[1], b);
      state[2] := WordAdd(state[2], c);
      state[3] := WordAdd(state[3], d);
    }

    /** md5.h:177-181: words from little-endian byte groups. */
    static method Decode(output: array<Word>, input: seq<Byte>, len: nat)
      requires len % 4 == 0 && len <= |input| && len / 4 <= output.Length
      modifies output
      ensures output[..len / 4] == DecodeWords(input[..len])
      ensures output[len / 4..] == old(output[len / 4..])
    {
      var i, j := 0, 0;
      while j < len
        invariant j == 4 * i && j <= len
        invariant forall k | 0 <= k < i ::
          output[k] == WordFromBytes(input[4 * k], input[4 * k + 1], input[4 * k + 2], input[4 * k + 3])
        invariant output[len / 4..] == old(output[len / 4..])
      {
        output[i] := (input[j] as Word) | ((input[j + 1] as Word) << 8) | ((input[j + 2] as Word) << 16)
          | ((input[j + 3] as Word) << 24);
        i, j := i + 1, j + 4;
      }
      forall k | 0 <= k < len / 4
        ensures output[k] == DecodeWords(input[..len])[k]
      {
        DecodeWordsAt(input[..len], k);
      }
    }

    /** md5.h:183-190: each word as four bytes, least significant first. */
    static method Encode(output: array<Byte>, input: seq<Word>, len: nat)
      requires len % 4 == 0 && len / 4 <= |input| && len <= output.Length
      modifies output
      ensures output[..len] == EncodeWords(input[..len / 4])
      ensures output[len..] == old(output[len..])
    {
      var i, j := 0, 0;
      while j < len
        invariant j == 4 * i && j <= len
        invariant forall k | 0 <= k < j :: output[k] == ByteOf(input[k / 4], k % 4)
        invariant output[len..] == old(output[len..])
      {
        output[j] := ByteOf(input[i], 0);
        output[j + 1] := ByteOf(input[i], 1);
        output[j + 2] := ByteOf(input[i], 2);
        output[j + 3] := ByteOf(input[i], 3);
        assert forall k | j <= k < j + 4 :: k / 4 == i && k % 4 == k - j;
        i, j := i + 1, j + 4;
      }
      forall k | 0 <= k < len
        ensures output[k] == EncodeWords(input[..len / 4])[k]
      {
        EncodeWordsAt(input[..len / 4], k);
      }
    }
  }

  /** The input before the pending block is unchanged by appending data. */
  lemma Prefix(input: seq<Byte>, data: seq<Byte>, start: nat)
    requires start <= |input|
    ensures (input + data)[..start] == input[..start]
  {
  }

  /** The buffer topped up with the first bytes of data (md5.h:66-68) is the next block of the message. */
  lemma TopUp(input: seq<Byte>, data: seq<Byte>, buf: seq<Byte>)
    requires |buf| == ChunkSize
    requires buf[..|input| % ChunkSize] == input[FullBlocks(|input|)..]
    requires ChunkSize - |input| % ChunkSize <= |data|
    ensures var index, k, m := |input| % ChunkSize, FullBlocks(|input|), input + data;
      && k + ChunkSize == |input| + (ChunkSize - index)
      && buf[..index] + data[..ChunkSize - index] + buf[ChunkSize..] == m[k..k + ChunkSize]
      && m[..k + ChunkSize] == input[..k] + m[k..k + ChunkSize]
  {
    var index, k, m := |input| % ChunkSize, FullBlocks(|input|), input + data;
    assert m[k..k + ChunkSize] == input[k..] + data[..ChunkSize - index];
  }

  /**
   * The bytes left over (md5.h:80) are copied to the buffer at `index`:
   * either the whole chunk after the bytes already pending (no block was
   * completed), or the tail of the chunk after its last complete block,
   * at the start of the buffer.
   */
  lemma Pending(input: seq<Byte>, data: seq<Byte>, start: nat, i: nat, index: nat, buf: seq<Byte>)
    requires |buf| == ChunkSize && i <= |data|
    requires || (i == 0 && start == FullBlocks(|input|) && index == |input| % ChunkSize &&
                 buf[..index] == input[start..] && index + |data| < ChunkSize)
             || (index == 0 && start == |input| + i && start % ChunkSize == 0 && |data| - i < ChunkSize)
    ensures var m := input + data;
      && FullBlocks(|m|) == start
      && (buf[..index] + data[i..] + buf[index + |data[i..]|..])[..|m| % ChunkSize] == m[start..]
  {
    var m := input + data;
    FullBlocksOf(|m|, start / ChunkSize);
    assert |m| % ChunkSize == index + |data| - i;
    if index == 0 {
      assert m[start..] == data[i..];
    } else {
      assert m[start..] == input[start..] + data;
    }
  }

  /** The compression adds the registers the 64 steps end with back into the state. */
  lemma CompressFromSteps(s: seq<Word>, block: seq<Byte>, x: seq<Word>, r0: Registers, r: Registers)
    requires |s| == 4 && |block| == ChunkSize && x == DecodeWords(block)
    requires r0 == Registers(s[0], s[1], s[2], s[3]) && StepsFrom(0, r0, x) == r
    ensures Compress(s, block) == AddRegisters(s, r)
  {
  }

  /** The buffer index md5.h:51 and md5.h:100 read off the low count word is the input length modulo 64. */
  lemma IndexFromCount(n: nat)
    ensures BitsLow(n) / 8 % ChunkSize == n % ChunkSize
  {
    ModOfMod(8 * n);
    var a := 8 * n / TwoTo32;
    var k := n - 0x2000_0000 * a;
    assert 8 * n == TwoTo32 * a + BitsLow(n);
    assert BitsLow(n) == 8 * k;
    var j := 0x80_0000 * a;
    assert n == k + ChunkSize * j;
    assert BitsLow(n) / 8 == k;
    assert (k + ChunkSize * j) % ChunkSize == k % ChunkSize;
  }
}
