/** Little-endian conversion between bytes and 32-bit words (md5.h, `decode` and `encode`). */
module ByteOrder {

  type Byte = bv8
  type Word = bv32

  /** An unsigned 32-bit integer held as a number, for the two bit counters. */
  type UInt32 = x: int | 0 <= x < 0x1_0000_0000

  /** The word whose little-endian bytes are b0 (least significant) to b3. */
  function WordFromBytes(b0: Byte, b1: Byte, b2: Byte, b3: Byte): Word
  {
    (b0 as Word) | ((b1 as Word) << 8) | ((b2 as Word) << 16) | ((b3 as Word) << 24)
  }

  /** Byte k (0 = least significant) of a word. */
  function ByteOf(w: Word, k: nat): Byte
    requires k < 4
  {
    if k == 0 then (w & 0xff) as Byte
    else if k == 1 then ((w >> 8) & 0xff) as Byte
    else if k == 2 then ((w >> 16) & 0xff) as Byte
    else ((w >> 24) & 0xff) as Byte
  }

  /** n zero bytes. */
  function Zeros(n: nat): (z: seq<Byte>)
    ensures |z| == n && forall k | 0 <= k < n :: z[k] == 0
  {
    if n == 0 then [] else [0] + Zeros(n - 1)
  }

  /** A prefix of zero bytes is zero bytes. */
  lemma ZerosPrefix(n: nat, k: nat)
    requires k <= n
    ensures Zeros(n)[..k] == Zeros(k)
  {
  }

  /** Reads |bytes| / 4 words, four bytes each, least significant byte first. */
  function DecodeWords(bytes: seq<Byte>): (words: seq<Word>)
    requires |bytes| % 4 == 0
    ensures |words| * 4 == |bytes|
    decreases |bytes|
  {
    if |bytes| == 0 then []
    else [WordFromBytes(bytes[0], bytes[1], bytes[2], bytes[3])] + DecodeWords(bytes[4..])
  }

  /** Writes each word as four bytes, least significant byte first. */
  function EncodeWords(words: seq<Word>): (bytes: seq<Byte>)
    ensures |bytes| == 4 * |words|
  {
    if |words| == 0 then []
    else
      var w := words[0];
      [ByteOf(w, 0), ByteOf(w, 1), ByteOf(w, 2), ByteOf(w, 3)] + EncodeWords(words[1..])
  }

  /** Decoding works group by group: decoding a concatenation concatenates. */
  lemma {:induction false} DecodeWordsAppend(p: seq<Byte>, q: seq<Byte>)
    requires |p| % 4 == 0 && |q| % 4 == 0
    ensures DecodeWords(p + q) == DecodeWords(p) + DecodeWords(q)
    decreases |p|
  {
    if |p| == 0 {
      assert p + q == q;
    } else {
      assert (p + q)[4..] == p[4..] + q;
      DecodeWordsAppend(p[4..], q);
    }
  }

  /** Encoding works word by word: encoding a concatenation concatenates. */
  lemma {:induction false} EncodeWordsAppend(p: seq<Word>, q: seq<Word>)
    ensures EncodeWords(p + q) == EncodeWords(p) + EncodeWords(q)
  {
    if |p| == 0 {
      assert p + q == q;
    } else {
      assert (p + q)[1..] == p[1..] + q;
      EncodeWordsAppend(p[1..], q);
    }
  }

  /** Word i of the decoding is read from bytes 4i to 4i + 3. */
  lemma {:induction false} DecodeWordsAt(bytes: seq<Byte>, i: nat)
    requires |bytes| % 4 == 0 && i < |bytes| / 4
    ensures DecodeWords(bytes)[i] == WordFromBytes(bytes[4 * i], bytes[4 * i + 1], bytes[4 * i + 2], bytes[4 * i + 3])
    decreases i
  {
    if i > 0 {
      DecodeWordsAt(bytes[4..], i - 1);
    }
  }

  /** Byte j of the encoding is byte j % 4 of word j / 4. */
  lemma {:induction false} EncodeWordsAt(words: seq<Word>, j: nat)
    requires j < 4 * |words|
    ensures EncodeWords(words)[j] == ByteOf(words[j / 4], j % 4)
    decreases j
  {
    if j >= 4 {
      EncodeWordsAt(words[1..], j - 4);
    }
  }

  lemma WordRoundTrip(w: Word)
    ensures WordFromBytes(ByteOf(w, 0), ByteOf(w, 1), ByteOf(w, 2), ByteOf(w, 3)) == w
  {
  }

  lemma BytesRoundTrip(b0: Byte, b1: Byte, b2: Byte, b3: Byte)
    ensures var w := WordFromBytes(b0, b1, b2, b3);
            ByteOf(w, 0) == b0 && ByteOf(w, 1) == b1 && ByteOf(w, 2) == b2 && ByteOf(w, 3) == b3
  {
  }

  /** Decoding what was encoded gives back the words. */
  lemma {:induction false} DecodeEncode(words: seq<Word>)
    ensures DecodeWords(EncodeWords(words)) == words
  {
    if |words| > 0 {
      var bytes := EncodeWords(words);
      assert bytes[4..] == EncodeWords(words[1..]);
      DecodeEncode(words[1..]);
      WordRoundTrip(words[0]);
    }
  }

  /** Encoding what was decoded gives back the bytes. */
  lemma {:induction false} EncodeDecode(bytes: seq<Byte>)
    requires |bytes| % 4 == 0
    ensures EncodeWords(DecodeWords(bytes)) == bytes
    decreases |bytes|
  {
    if |bytes| > 0 {
      var words := DecodeWords(bytes);
      assert words[1..] == DecodeWords(bytes[4..]);
      EncodeDecode(bytes[4..]);
      BytesRoundTrip(bytes[0], bytes[1], bytes[2], bytes[3]);
      assert bytes == bytes[..4] + bytes[4..];
    }
  }
}
