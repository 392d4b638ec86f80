/**
 * The text `md5_hash::hash` produces (md5.h:125-132): every digest byte is
 * written with `std::hex` as an `int`, which gives lower-case hexadecimal
 * without leading zeros, so a byte below 0x10 takes one character and
 * every other byte two.
 */
module HexText {
  import opened ByteOrder

  /** The lower-case hexadecimal digit of a value below 16. */
  function HexDigit(v: Byte): (c: char)
    requires v < 16
    ensures c in "0123456789abcdef"
    ensures ('0' <= c <= '9') <==> v < 10
  {
    if v < 10 then ('0' as int + v as int) as char else ('a' as int + (v as int - 10)) as char
  }

  /** The value of a lower-case hexadecimal digit. */
  function DigitValue(c: char): (v: Byte)
    requires c in "0123456789abcdef"
    ensures v < 16
  {
    if '0' <= c <= '9' then (c as int - '0' as int) as Byte else (c as int - 'a' as int + 10) as Byte
  }

  lemma DigitRoundTrip(v: Byte)
    requires v < 16
    ensures DigitValue(HexDigit(v)) == v
  {
  }

  /** The two-digit form of a byte: high nibble, then low nibble. */
  function Hex2(b: Byte): (s: string)
    ensures |s| == 2
  {
    [HexDigit(b >> 4), HexDigit(b & 0xf)]
  }

  /** A byte as `std::hex` prints it: no leading zero, "0" for zero. */
  function HexByte(b: Byte): string
  {
    if b < 16 then [HexDigit(b)] else [HexDigit(b >> 4), HexDigit(b & 0xf)]
  }

  /** HexByte is the two-digit form with a leading '0' dropped. */
  lemma HexByteDropsLeadingZero(b: Byte)
    ensures Hex2(b)[0] == '0' ==> HexByte(b) == Hex2(b)[1..]
    ensures Hex2(b)[0] != '0' ==> HexByte(b) == Hex2(b)
    ensures 1 <= |HexByte(b)| <= 2 && (|HexByte(b)| == 1 <==> b < 16)
  {
    assert b < 16 <==> b >> 4 == 0;
    if b < 16 {
      assert b & 0xf == b;
    }
  }

  /** The digits of a byte determine it. */
  lemma Hex2RoundTrip(b: Byte)
    ensures (DigitValue(Hex2(b)[0]) << 4) | DigitValue(Hex2(b)[1]) == b
  {
    DigitRoundTrip(b >> 4);
    DigitRoundTrip(b & 0xf);
  }

  /** The concatenated text of a digest, as `hash` builds it. */
  function HexString(d: seq<Byte>): string
  {
    if |d| == 0 then "" else HexByte(d[0]) + HexString(d[1..])
  }

  /** The text of a concatenation is the concatenation of the texts. */
  lemma {:induction false} HexStringAppend(p: seq<Byte>, q: seq<Byte>)
    ensures HexString(p + q) == HexString(p) + HexString(q)
  {
    if |p| > 0 {
      assert (p + q)[1..] == p[1..] + q;
      HexStringAppend(p[1..], q);
    } else {
      assert p + q == q;
    }
  }

  /** The zero-padded text: two digits per byte. */
  function PaddedHexString(d: seq<Byte>): (s: string)
    ensures |s| == 2 * |d|
  {
    if |d| == 0 then "" else Hex2(d[0]) + PaddedHexString(d[1..])
  }

  /** The number of bytes below 0x10, which print as one digit. */
  function ShortBytes(d: seq<Byte>): (k: nat)
    ensures k <= |d|
  {
    if |d| == 0 then 0 else (if d[0] < 16 then 1 else 0) + ShortBytes(d[1..])
  }

  lemma {:induction false} HexStringLength(d: seq<Byte>)
    ensures |HexString(d)| == 2 * |d| - ShortBytes(d)
    ensures |d| <= |HexString(d)| <= 2 * |d|
  {
    if |d| > 0 {
      HexByteDropsLeadingZero(d[0]);
      HexStringLength(d[1..]);
    }
  }

  /** The text has two characters per byte exactly when no byte is below 0x10. */
  lemma {:induction false} HexStringPadded(d: seq<Byte>)
    ensures HexString(d) == PaddedHexString(d) <==> forall i | 0 <= i < |d| :: d[i] >= 16
  {
    if |d| > 0 {
      var t := d[1..];
      HexByteDropsLeadingZero(d[0]);
      HexStringPadded(t);
      assert HexString(d) == HexByte(d[0]) + HexString(t);
      assert PaddedHexString(d) == Hex2(d[0]) + PaddedHexString(t);
      if d[0] >= 16 {
        AppendCancels(Hex2(d[0]), HexString(t), PaddedHexString(t));
      } else {
        HexStringLength(t);
      }
      NoShortBytesTail(d);
    }
  }

  /** No byte of d is below 0x10 exactly when d[0] is not and no byte of d[1..] is. */
  lemma NoShortBytesTail(d: seq<Byte>)
    requires |d| > 0
    ensures (forall i | 0 <= i < |d| :: d[i] >= 16) <==> d[0] >= 16 && forall i | 0 <= i < |d[1..]| :: d[1..][i] >= 16
  {
    assert forall i | 1 <= i < |d| :: d[i] == d[1..][i - 1];
  }

  /** A common prefix can be dropped from both sides of an equation. */
  lemma AppendCancels(a: string, x: string, y: string)
    ensures a + x == a + y <==> x == y
  {
    if a + x == a + y {
      assert x == (a + x)[|a|..];
      assert y == (a + y)[|a|..];
    }
  }

  /**
   * Without padding the text does not determine the digest: bytes 01, 11
   * and bytes 11, 01 both print as "111".
   */
  lemma HexStringAmbiguous()
    ensures HexString([0x01, 0x11]) == HexString([0x11, 0x01]) == "111"
  {
  }
}
