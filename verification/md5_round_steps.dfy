/**
 * The 64 steps of `transform` in md5.h (lines 214-291), written out as in
 * the source, one method per round block, each proved equal to sixteen
 * steps of the table-driven reference in Md5Rounds.
 */
module Md5RoundSteps {
  import opened ByteOrder
  import opened Md5Rounds

  // The shift amounts of md5.h:197-212.
  const S11: Shift := 7
  const S12: Shift := 12
  const S13: Shift := 17
  const S14: Shift := 22
  const S21: Shift := 5
  const S22: Shift := 9
  const S23: Shift := 14
  const S24: Shift := 20
  const S31: Shift := 4
  const S32: Shift := 11
  const S33: Shift := 16
  const S34: Shift := 23
  const S41: Shift := 6
  const S42: Shift := 10
  const S43: Shift := 15
  const S44: Shift := 21

  // Each of the following lemmas states that four consecutive steps of the
  // reference, from registers (a, b, c, d), are the four step operations
  // md5.h performs at that point, with the same message words, shifts and
  // constants.

  lemma Steps1To4(a: Word, b: Word, c: Word, d: Word, x: array<Word>)
    requires x.Length == 16
    ensures var a1 := FF(a, b, c, d, x[0], S11, 0xd76aa478);
            var d2 := FF(d, a1, b, c, x[1], S12, 0xe8c7b756);
            var c3 := FF(c, d2, a1, b, x[2], S13, 0x242070db);
            var b4 := FF(b, c3, d2, a1, x[3], S14, 0xc1bdceee);
            StepsFrom(0, Registers(a, b, c, d), x[..]) == StepsFrom(4, Registers(a1, b4, c3, d2), x[..])
  {
    assert MessageIndex(0) == 0 && ShiftFor(0) == S11 && T(0) == 0xd76aa478;
    assert MessageIndex(1) == 1 && ShiftFor(1) == S12 && T(1) == 0xe8c7b756;
    assert MessageIndex(2) == 2 && ShiftFor(2) == S13 && T(2) == 0x242070db;
    assert MessageIndex(3) == 3 && ShiftFor(3) == S14 && T(3) == 0xc1bdceee;
    var xs := x[..];
    var a1 := FF(a, b, c, d, x[0], S11, 0xd76aa478);
    var d2 := FF(d, a1, b, c, x[1], S12, 0xe8c7b756);
    var c3 := FF(c, d2, a1, b, x[2], S13, 0x242070db);
    var b4 := FF(b, c3, d2, a1, x[3], S14, 0xc1bdceee);
    var r0 := Registers(a, b, c, d);
    var r1 := Step(0, r0, xs);
    assert r1 == Registers(d, a1, b, c);
    StepsFromAdvance(0, r0, xs);
    var r2 := Step(1, r1, xs);
    assert r2 == Registers(c, d2, a1, b);
    StepsFromAdvance(1, r1, xs);
    var r3 := Step(2, r2, xs);
    assert r3 == Registers(b, c3, d2, a1);
    StepsFromAdvance(2, r2, xs);
    var r4 := Step(3, r3, xs);
    assert r4 == Registers(a1, b4, c3, d2);
    StepsFromAdvance(3, r3, xs);
  }

  lemma Steps5To8(a: Word, b: Word, c: Word, d: Word, x: array<Word>)
    requires x.Length == 16
    ensures var a5 := FF(a, b, c, d, x[4], S11, 0xf57c0faf);
            var d6 := FF(d, a5, b, c, x[5], S12, 0x4787c62a);
            var c7 := FF(c, d6, a5, b, x[6], S13, 0xa8304613);
            var b8 := FF(b, c7, d6, a5, x[7], S14, 0xfd469501);
            StepsFrom(4, Registers(a, b, c, d), x[..]) == StepsFrom(8, Registers(a5, b8, c7, d6), x[..])
  {
    assert MessageIndex(4) == 4 && ShiftFor(4) == S11 && T(4) == 0xf57c0faf;
    assert MessageIndex(5) == 5 && ShiftFor(5) == S12 && T(5) == 0x4787c62a;
    assert MessageIndex(6) == 6 && ShiftFor(6) == S13 && T(6) == 0xa8304613;
    assert MessageIndex(7) == 7 && ShiftFor(7) == S14 && T(7) == 0xfd469501;
    var xs := x[..];
    var a5 := FF(a, b, c, d, x[4], S11, 0xf57c0faf);
    var d6 := FF(d, a5, b, c, x[5], S12, 0x4787c62a);
    var c7 := FF(c, d6, a5, b, x[6], S13, 0xa8304613);
    var b8 := FF(b, c7, d6, a5, x[7], S14, 0xfd469501);
    var r0 := Registers(a, b, c, d);
    var r1 := Step(4, r0, xs);
    assert r1 == Registers(d, a5, b, c);
    StepsFromAdvance(4, r0, xs);
    var r2 := Step(5, r1, xs);
    assert r2 == Registers(c, d6, a5, b);
    StepsFromAdvance(5, r1, xs);
    var r3 := Step(6, r2, xs);
    assert r3 == Registers(b, c7, d6, a5);
    StepsFromAdvance(6, r2, xs);
    var r4 := Step(7, r3, xs);
    assert r4 == Registers(a5, b8, c7, d6);
    StepsFromAdvance(7, r3, xs);
  }

  lemma Steps9To12(a: Word, b: Word, c: Word, d: Word, x: array<Word>)
    requires x.Length == 16
    ensures var a9 := FF(a, b, c, d, x[8], S11, 0x698098d8);
            var d10 := FF(d, a9, b, c, x[9], S12, 0x8b44f7af);
            var c11 := FF(c, d10, a9, b, x[10], S13, 0xffff5bb1);
            var b12 := FF(b, c11, d10, a9, x[11], S14, 0x895cd7be);
            StepsFrom(8, Registers(a, b, c, d), x[..]) == StepsFrom(12, Registers(a9, b12, c11, d10), x[..])
  {
    assert MessageIndex(8) == 8 && ShiftFor(8) == S11 && T(8) == 0x698098d8;
    assert MessageIndex(9) == 9 && ShiftFor(9) == S12 && T(9) == 0x8b44f7af;
    assert MessageIndex(10) == 10 && ShiftFor(10) == S13 && T(10) == 0xffff5bb1;
    assert MessageIndex(11) == 11 && ShiftFor(11) == S14 && T(11) == 0x895cd7be;
    var xs := x[..];
    var a9 := FF(a, b, c, d, x[8], S11, 0x698098d8);
    var d10 := FF(d, a9, b, c, x[9], S12, 0x8b44f7af);
    var c11 := FF(c, d10, a9, b, x[10], S13, 0xffff5bb1);
    var b12 := FF(b, c11, d10, a9, x[11], S14, 0x895cd7be);
    var r0 := Registers(a, b, c, d);
    var r1 := Step(8, r0, xs);
    assert r1 == Registers(d, a9, b, c);
    StepsFromAdvance(8, r0, xs);
    var r2 := Step(9, r1, xs);
    assert r2 == Registers(c, d10, a9, b);
    StepsFromAdvance(9, r1, xs);
    var r3 := Step(10, r2, xs);
    assert r3 == Registers(b, c11, d10, a9);
    StepsFromAdvance(10, r2, xs);
    var r4 := Step(11, r3, xs);
    assert r4 == Registers(a9, b12, c11, d10);
    StepsFromAdvance(11, r3, xs);
  }

  lemma Steps13To16(a: Word, b: Word, c: Word, d: Word, x: array<Word>)
    requires x.Length == 16
    ensures var a13 := FF(a, b, c, d, x[12], S11, 0x6b901122);
            var d14 := FF(d, a13, b, c, x[13], S12, 0xfd987193);
            var c15 := FF(c, d14, a13, b, x[14], S13, 0xa679438e);
            var b16 := FF(b, c15, d14, a13, x[15], S14, 0x49b40821);
            StepsFrom(12, Registers(a, b, c, d), x[..]) == StepsFrom(16, Registers(a13, b16, c15, d14), x[..])
  {
    assert MessageIndex(12) == 12 && ShiftFor(12) == S11 && T(12) == 0x6b901122;
    assert MessageIndex(13) == 13 && ShiftFor(13) == S12 && T(13) == 0xfd987193;
    assert MessageIndex(14) == 14 && ShiftFor(14) == S13 && T(14) == 0xa679438e;
    assert MessageIndex(15) == 15 && ShiftFor(15) == S14 && T(15) == 0x49b40821;
    var xs := x[..];
    var a13 := FF(a, b, c, d, x[12], S11, 0x6b901122);
    var d14 := FF(d, a13, b, c, x[13], S12, 0xfd987193);
    var c15 := FF(c, d14, a13, b, x[14], S13, 0xa679438e);
    var b16 := FF(b, c15, d14, a13, x[15], S14, 0x49b40821);
    var r0 := Registers(a, b, c, d);
    var r1 := Step(12, r0, xs);
    assert r1 == Registers(d, a13, b, c);
    StepsFromAdvance(12, r0, xs);
    var r2 := Step(13, r1, xs);
    assert r2 == Registers(c, d14, a13, b);
    StepsFromAdvance(13, r1, xs);
    var r3 := Step(14, r2, xs);
    assert r3 == Registers(b, c15, d14, a13);
    StepsFromAdvance(14, r2, xs);
    var r4 := Step(15, r3, xs);
    assert r4 == Registers(a13, b16, c15, d14);
    StepsFromAdvance(15, r3, xs);
  }

  lemma Steps17To20(a: Word, b: Word, c: Word, d: Word, x: array<Word>)
    requires x.Length == 16
    ensures var a17 := GG(a, b, c, d, x[1], S21, 0xf61e2562);
            var d18 := GG(d, a17, b, c, x[6], S22, 0xc040b340);
            var c19 := GG(c, d18, a17, b, x[11], S23, 0x265e5a51);
            var b20 := GG(b, c19, d18, a17, x[0], S24, 0xe9b6c7aa);
            StepsFrom(16, Registers(a, b, c, d), x[..]) == StepsFrom(20, Registers(a17, b20, c19, d18), x[..])
  {
    assert MessageIndex(16) == 1 && ShiftFor(16) == S21 && T(16) == 0xf61e2562;
    assert MessageIndex(17) == 6 && ShiftFor(17) == S22 && T(17) == 0xc040b340;
    assert MessageIndex(18) == 11 && ShiftFor(18) == S23 && T(18) == 0x265e5a51;
    assert MessageIndex(19) == 0 && ShiftFor(19) == S24 && T(19) == 0xe9b6c7aa;
    var xs := x[..];
    var a17 := GG(a, b, c, d, x[1], S21, 0xf61e2562);
    var d18 := GG(d, a17, b, c, x[6], S22, 0xc040b340);
    var c19 := GG(c, d18, a17, b, x[11], S23, 0x265e5a51);
    var b20 := GG(b, c19, d18, a17, x[0], S24, 0xe9b6c7aa);
    var r0 := Registers(a, b, c, d);
    var r1 := Step(16, r0, xs);
    assert r1 == Registers(d, a17, b, c);
    StepsFromAdvance(16, r0, xs);
    var r2 := Step(17, r1, xs);
    assert r2 == Registers(c, d18, a17, b);
    StepsFromAdvance(17, r1, xs);
    var r3 := Step(18, r2, xs);
    assert r3 == Registers(b, c19, d18, a17);
    StepsFromAdvance(18, r2, xs);
    var r4 := Step(19, r3, xs);
    assert r4 == Registers(a17, b20, c19, d18);
    StepsFromAdvance(19, r3, xs);
  }

  lemma Steps21To24(a: Word, b: Word, c: Word, d: Word, x: array<Word>)
    requires x.Length == 16
    ensures var a21 := GG(a, b, c, d, x[5], S21, 0xd62f105d);
            var d22 := GG(d, a21, b, c, x[10], S22, 0x2441453);
            var c23 := GG(c, d22, a21, b, x[15], S23, 0xd8a1e681);
            var b24 := GG(b, c23, d22, a21, x[4], S24, 0xe7d3fbc8);
            StepsFrom(20, Registers(a, b, c, d), x[..]) == StepsFrom(24, Registers(a21, b24, c23, d22), x[..])
  {
    assert MessageIndex(20) == 5 && ShiftFor(20) == S21 && T(20) == 0xd62f105d;
    assert MessageIndex(21) == 10 && ShiftFor(21) == S22 && T(21) == 0x2441453;
    assert MessageIndex(22) == 15 && ShiftFor(22) == S23 && T(22) == 0xd8a1e681;
    assert MessageIndex(23) == 4 && ShiftFor(23) == S24 && T(23) == 0xe7d3fbc8;
    var xs := x[..];
    var a21 := GG(a, b, c, d, x[5], S21, 0xd62f105d);
    var d22 := GG(d, a21, b, c, x[10], S22, 0x2441453);
    var c23 := GG(c, d22, a21, b, x[15], S23, 0xd8a1e681);
    var b24 := GG(b, c23, d22, a21, x[4], S24, 0xe7d3fbc8);
    var r0 := Registers(a, b, c, d);
    var r1 := Step(20, r0, xs);
    assert r1 == Registers(d, a21, b, c);
    StepsFromAdvance(20, r0, xs);
    var r2 := Step(21, r1, xs);
    assert r2 == Registers(c, d22, a21, b);
    StepsFromAdvance(21, r1, xs);
    var r3 := Step(22, r2, xs);
    assert r3 == Registers(b, c23, d22, a21);
    StepsFromAdvance(22, r2, xs);
    var r4 := Step(23, r3, xs);
    assert r4 == Registers(a21, b24, c23, d22);
    StepsFromAdvance(23, r3, xs);
  }

  lemma Steps25To28(a: Word, b: Word, c: Word, d: Word, x: array<Word>)
    requires x.Length == 16
    ensures var a25 := GG(a, b, c, d, x[9], S21, 0x21e1cde6);
            var d26 := GG(d, a25, b, c, x[14], S22, 0xc33707d6);
            var c27 := GG(c, d26, a25, b, x[3], S23, 0xf4d50d87);
            var b28 := GG(b, c27, d26, a25, x[8], S24, 0x455a14ed);
            StepsFrom(24, Registers(a, b, c, d), x[..]) == StepsFrom(28, Registers(a25, b28, c27, d26), x[..])
  {
    assert MessageIndex(24) == 9 && ShiftFor(24) == S21 && T(24) == 0x21e1cde6;
    assert MessageIndex(25) == 14 && ShiftFor(25) == S22 && T(25) == 0xc33707d6;
    assert MessageIndex(26) == 3 && ShiftFor(26) == S23 && T(26) == 0xf4d50d87;
    assert MessageIndex(27) == 8 && ShiftFor(27) == S24 && T(27) == 0x455a14ed;
    var xs := x[..];
    var a25 := GG(a, b, c, d, x[9], S21, 0x21e1cde6);
    var d26 := GG(d, a25, b, c, x[14], S22, 0xc33707d6);
    var c27 := GG(c, d26, a25, b, x[3], S23, 0xf4d50d87);
    var b28 := GG(b, c27, d26, a25, x[8], S24, 0x455a14ed);
    var r0 := Registers(a, b, c, d);
    var r1 := Step(24, r0, xs);
    assert r1 == Registers(d, a25, b, c);
    StepsFromAdvance(24, r0, xs);
    var r2 := Step(25, r1, xs);
    assert r2 == Registers(c, d26, a25, b);
    StepsFromAdvance(25, r1, xs);
    var r3 := Step(26, r2, xs);
    assert r3 == Registers(b, c27, d26, a25);
    StepsFromAdvance(26, r2, xs);
    var r4 := Step(27, r3, xs);
    assert r4 == Registers(a25, b28, c27, d26);
    StepsFromAdvance(27, r3, xs);
  }

  lemma Steps29To32(a: Word, b: Word, c: Word, d: Word, x: array<Word>)
    requires x.Length == 16
    ensures var a29 := GG(a, b, c, d, x[13], S21, 0xa9e3e905);
            var d30 := GG(d, a29, b, c, x[2], S22, 0xfcefa3f8);
            var c31 := GG(c, d30, a29, b, x[7], S23, 0x676f02d9);
            var b32 := GG(b, c31, d30, a29, x[12], S24, 0x8d2a4c8a);
            StepsFrom(28, Registers(a, b, c, d), x[..]) == StepsFrom(32, Registers(a29, b32, c31, d30), x[..])
  {
    assert MessageIndex(28) == 13 && ShiftFor(28) == S21 && T(28) == 0xa9e3e905;
    assert MessageIndex(29) == 2 && ShiftFor(29) == S22 && T(29) == 0xfcefa3f8;
    assert MessageIndex(30) == 7 && ShiftFor(30) == S23 && T(30) == 0x676f02d9;
    assert MessageIndex(31) == 12 && ShiftFor(31) == S24 && T(31) == 0x8d2a4c8a;
    var xs := x[..];
    var a29 := GG(a, b, c, d, x[13], S21, 0xa9e3e905);
    var d30 := GG(d, a29, b, c, x[2], S22, 0xfcefa3f8);
    var c31 := GG(c, d30, a29, b, x[7], S23, 0x676f02d9);
    var b32 := GG(b, c31, d30, a29, x[12], S24, 0x8d2a4c8a);
    var r0 := Registers(a, b, c, d);
    var r1 := Step(28, r0, xs);
    assert r1 == Registers(d, a29, b, c);
    StepsFromAdvance(28, r0, xs);
    var r2 := Step(29, r1, xs);
    assert r2 == Registers(c, d30, a29, b);
    StepsFromAdvance(29, r1, xs);
    var r3 := Step(30, r2, xs);
    assert r3 == Registers(b, c31, d30, a29);
    StepsFromAdvance(30, r2, xs);
    var r4 := Step(31, r3, xs);
    assert r4 == Registers(a29, b32, c31, d30);
    StepsFromAdvance(31, r3, xs);
  }

  lemma Steps33To36(a: Word, b: Word, c: Word, d: Word, x: array<Word>)
    requires x.Length == 16
    ensures var a33 := HH(a, b, c, d, x[5], S31, 0xfffa3942);
            var d34 := HH(d, a33, b, c, x[8], S32, 0x8771f681);
            var c35 := HH(c, d34, a33, b, x[11], S33, 0x6d9d6122);
            var b36 := HH(b, c35, d34, a33, x[14], S34, 0xfde5380c);
            StepsFrom(32, Registers(a, b, c, d), x[..]) == StepsFrom(36, Registers(a33, b36, c35, d34), x[..])
  {
    assert MessageIndex(32) == 5 && ShiftFor(32) == S31 && T(32) == 0xfffa3942;
    assert MessageIndex(33) == 8 && ShiftFor(33) == S32 && T(33) == 0x8771f681;
    assert MessageIndex(34) == 11 && ShiftFor(34) == S33 && T(34) == 0x6d9d6122;
    assert MessageIndex(35) == 14 && ShiftFor(35) == S34 && T(35) == 0xfde5380c;
    var xs := x[..];
    var a33 := HH(a, b, c, d, x[5], S31, 0xfffa3942);
    var d34 := HH(d, a33, b, c, x[8], S32, 0x8771f681);
    var c35 := HH(c, d34, a33, b, x[11], S33, 0x6d9d6122);
    var b36 := HH(b, c35, d34, a33, x[14], S34, 0xfde5380c);
    var r0 := Registers(a, b, c, d);
    var r1 := Step(32, r0, xs);
    assert r1 == Registers(d, a33, b, c);
    StepsFromAdvance(32, r0, xs);
    var r2 := Step(33, r1, xs);
    assert r2 == Registers(c, d34, a33, b);
    StepsFromAdvance(33, r1, xs);
    var r3 := Step(34, r2, xs);
    assert r3 == Registers(b, c35, d34, a33);
    StepsFromAdvance(34, r2, xs);
    var r4 := Step(35, r3, xs);
    assert r4 == Registers(a33, b36, c35, d34);
    StepsFromAdvance(35, r3, xs);
  }

  lemma Steps37To40(a: Word, b: Word, c: Word, d: Word, x: array<Word>)
    requires x.Length == 16
    ensures var a37 := HH(a, b, c, d, x[1], S31, 0xa4beea44);
            var d38 := HH(d, a37, b, c, x[4], S32, 0x4bdecfa9);
            var c39 := HH(c, d38, a37, b, x[7], S33, 0xf6bb4b60);
            var b40 := HH(b, c39, d38, a37, x[10], S34, 0xbebfbc70);
            StepsFrom(36, Registers(a, b, c, d), x[..]) == StepsFrom(40, Registers(a37, b40, c39, d38), x[..])
  {
    assert MessageIndex(36) == 1 && ShiftFor(36) == S31 && T(36) == 0xa4beea44;
    assert MessageIndex(37) == 4 && ShiftFor(37) == S32 && T(37) == 0x4bdecfa9;
    assert MessageIndex(38) == 7 && ShiftFor(38) == S33 && T(38) == 0xf6bb4b60;
    assert MessageIndex(39) == 10 && ShiftFor(39) == S34 && T(39) == 0xbebfbc70;
    var xs := x[..];
    var a37 := HH(a, b, c, d, x[1], S31, 0xa4beea44);
    var d38 := HH(d, a37, b, c, x[4], S32, 0x4bdecfa9);
    var c39 := HH(c, d38, a37, b, x[7], S33, 0xf6bb4b60);
    var b40 := HH(b, c39, d38, a37, x[10], S34, 0xbebfbc70);
    var r0 := Registers(a, b, c, d);
    var r1 := Step(36, r0, xs);
    assert r1 == Registers(d, a37, b, c);
    StepsFromAdvance(36, r0, xs);
    var r2 := Step(37, r1, xs);
    assert r2 == Registers(c, d38, a37, b);
    StepsFromAdvance(37, r1, xs);
    var r3 := Step(38, r2, xs);
    assert r3 == Registers(b, c39, d38, a37);
    StepsFromAdvance(38, r2, xs);
    var r4 := Step(39, r3, xs);
    assert r4 == Registers(a37, b40, c39, d38);
    StepsFromAdvance(39, r3, xs);
  }

  lemma Steps41To44(a: Word, b: Word, c: Word, d: Word, x: array<Word>)
    requires x.Length == 16
    ensures var a41 := HH(a, b, c, d, x[13], S31, 0x289b7ec6);
            var d42 := HH(d, a41, b, c, x[0], S32, 0xeaa127fa);
            var c43 := HH(c, d42, a41, b, x[3], S33, 0xd4ef3085);
            var b44 := HH(b, c43, d42, a41, x[6], S34, 0x4881d05);
            StepsFrom(40, Registers(a, b, c, d), x[..]) == StepsFrom(44, Registers(a41, b44, c43, d42), x[..])
  {
    assert MessageIndex(40) == 13 && ShiftFor(40) == S31 && T(40) == 0x289b7ec6;
    assert MessageIndex(41) == 0 && ShiftFor(41) == S32 && T(41) == 0xeaa127fa;
    assert MessageIndex(42) == 3 && ShiftFor(42) == S33 && T(42) == 0xd4ef3085;
    assert MessageIndex(43) == 6 && ShiftFor(43) == S34 && T(43) == 0x4881d05;
    var xs := x[..];
    var a41 := HH(a, b, c, d, x[13], S31, 0x289b7ec6);
    var d42 := HH(d, a41, b, c, x[0], S32, 0xeaa127fa);
    var c43 := HH(c, d42, a41, b, x[3], S33, 0xd4ef3085);
    var b44 := HH(b, c43, d42, a41, x[6], S34, 0x4881d05);
    var r0 := Registers(a, b, c, d);
    var r1 := Step(40, r0, xs);
    assert r1 == Registers(d, a41, b, c);
    StepsFromAdvance(40, r0, xs);
    var r2 := Step(41, r1, xs);
    assert r2 == Registers(c, d42, a41, b);
    StepsFromAdvance(41, r1, xs);
    var r3 := Step(42, r2, xs);
    assert r3 == Registers(b, c43, d42, a41);
    StepsFromAdvance(42, r2, xs);
    var r4 := Step(43, r3, xs);
    assert r4 == Registers(a41, b44, c43, d42);
    StepsFromAdvance(43, r3, xs);
  }

  lemma Steps45To48(a: Word, b: Word, c: Word, d: Word, x: array<Word>)
    requires x.Length == 16
    ensures var a45 := HH(a, b, c, d, x[9], S31, 0xd9d4d039);
            var d46 := HH(d, a45, b, c, x[12], S32, 0xe6db99e5);
            var c47 := HH(c, d46, a45, b, x[15], S33, 0x1fa27cf8);
            var b48 := HH(b, c47, d46, a45, x[2], S34, 0xc4ac5665);
            StepsFrom(44, Registers(a, b, c, d), x[..]) == StepsFrom(48, Registers(a45, b48, c47, d46), x[..])
  {
    assert MessageIndex(44) == 9 && ShiftFor(44) == S31 && T(44) == 0xd9d4d039;
    assert MessageIndex(45) == 12 && ShiftFor(45) == S32 && T(45) == 0xe6db99e5;
    assert MessageIndex(46) == 15 && ShiftFor(46) == S33 && T(46) == 0x1fa27cf8;
    assert MessageIndex(47) == 2 && ShiftFor(47) == S34 && T(47) == 0xc4ac5665;
    var xs := x[..];
    var a45 := HH(a, b, c, d, x[9], S31, 0xd9d4d039);
    var d46 := HH(d, a45, b, c, x[12], S32, 0xe6db99e5);
    var c47 := HH(c, d46, a45, b, x[15], S33, 0x1fa27cf8);
    var b48 := HH(b, c47, d46, a45, x[2], S34, 0xc4ac5665);
    var r0 := Registers(a, b, c, d);
    var r1 := Step(44, r0, xs);
    assert r1 == Registers(d, a45, b, c);
    StepsFromAdvance(44, r0, xs);
    var r2 := Step(45, r1, xs);
    assert r2 == Registers(c, d46, a45, b);
    StepsFromAdvance(45, r1, xs);
    var r3 := Step(46, r2, xs);
    assert r3 == Registers(b, c47, d46, a45);
    StepsFromAdvance(46, r2, xs);
    var r4 := Step(47, r3, xs);
    assert r4 == Registers(a45, b48, c47, d46);
    StepsFromAdvance(47, r3, xs);
  }

  lemma Steps49To52(a: Word, b: Word, c: Word, d: Word, x: array<Word>)
    requires x.Length == 16
    ensures var a49 := II(a, b, c, d, x[0], S41, 0xf4292244);
            var d50 := II(d, a49, b, c, x[7], S42, 0x432aff97);
            var c51 := II(c, d50, a49, b, x[14], S43, 0xab9423a7);
            var b52 := II(b, c51, d50, a49, x[5], S44, 0xfc93a039);
            StepsFrom(48, Registers(a, b, c, d), x[..]) == StepsFrom(52, Registers(a49, b52, c51, d50), x[..])
  {
    assert MessageIndex(48) == 0 && ShiftFor(48) == S41 && T(48) == 0xf4292244;
    assert MessageIndex(49) == 7 && ShiftFor(49) == S42 && T(49) == 0x432aff97;
    assert MessageIndex(50) == 14 && ShiftFor(50) == S43 && T(50) == 0xab9423a7;
    assert MessageIndex(51) == 5 && ShiftFor(51) == S44 && T(51) == 0xfc93a039;
    var xs := x[..];
    var a49 := II(a, b, c, d, x[0], S41, 0xf4292244);
    var d50 := II(d, a49, b, c, x[7], S42, 0x432aff97);
    var c51 := II(c, d50, a49, b, x[14], S43, 0xab9423a7);
    var b52 := II(b, c51, d50, a49, x[5], S44, 0xfc93a039);
    var r0 := Registers(a, b, c, d);
    var r1 := Step(48, r0, xs);
    assert r1 == Registers(d, a49, b, c);
    StepsFromAdvance(48, r0, xs);
    var r2 := Step(49, r1, xs);
    assert r2 == Registers(c, d50, a49, b);
    StepsFromAdvance(49, r1, xs);
    var r3 := Step(50, r2, xs);
    assert r3 == Registers(b, c51, d50, a49);
    StepsFromAdvance(50, r2, xs);
    var r4 := Step(51, r3, xs);
    assert r4 == Registers(a49, b52, c51, d50);
    StepsFromAdvance(51, r3, xs);
  }

  lemma Steps53To56(a: Word, b: Word, c: Word, d: Word, x: array<Word>)
    requires x.Length == 16
    ensures var a53 := II(a, b, c, d, x[12], S41, 0x655b59c3);
            var d54 := II(d, a53, b, c, x[3], S42, 0x8f0ccc92);
            var c55 := II(c, d54, a53, b, x[10], S43, 0xffeff47d);
            var b56 := II(b, c55, d54, a53, x[1], S44, 0x85845dd1);
            StepsFrom(52, Registers(a, b, c, d), x[..]) == StepsFrom(56, Registers(a53, b56, c55, d54), x[..])
  {
    assert MessageIndex(52) == 12 && ShiftFor(52) == S41 && T(52) == 0x655b59c3;
    assert MessageIndex(53) == 3 && ShiftFor(53) == S42 && T(53) == 0x8f0ccc92;
    assert MessageIndex(54) == 10 && ShiftFor(54) == S43 && T(54) == 0xffeff47d;
    assert MessageIndex(55) == 1 && ShiftFor(55) == S44 && T(55) == 0x85845dd1;
    var xs := x[..];
    var a53 := II(a, b, c, d, x[12], S41, 0x655b59c3);
    var d54 := II(d, a53, b, c, x[3], S42, 0x8f0ccc92);
    var c55 := II(c, d54, a53, b, x[10], S43, 0xffeff47d);
    var b56 := II(b, c55, d54, a53, x[1], S44, 0x85845dd1);
    var r0 := Registers(a, b, c, d);
    var r1 := Step(52, r0, xs);
    assert r1 == Registers(d, a53, b, c);
    StepsFromAdvance(52, r0, xs);
    var r2 := Step(53, r1, xs);
    assert r2 == Registers(c, d54, a53, b);
    StepsFromAdvance(53, r1, xs);
    var r3 := Step(54, r2, xs);
    assert r3 == Registers(b, c55, d54, a53);
    StepsFromAdvance(54, r2, xs);
    var r4 := Step(55, r3, xs);
    assert r4 == Registers(a53, b56, c55, d54);
    StepsFromAdvance(55, r3, xs);
  }

  lemma Steps57To60(a: Word, b: Word, c: Word, d: Word, x: array<Word>)
    requires x.Length == 16
    ensures var a57 := II(a, b, c, d, x[8], S41, 0x6fa87e4f);
            var d58 := II(d, a57, b, c, x[15], S42, 0xfe2ce6e0);
            var c59 := II(c, d58, a57, b, x[6], S43, 0xa3014314);
            var b60 := II(b, c59, d58, a57, x[13], S44, 0x4e0811a1);
            StepsFrom(56, Registers(a, b, c, d), x[..]) == StepsFrom(60, Registers(a57, b60, c59, d58), x[..])
  {
    assert MessageIndex(56) == 8 && ShiftFor(56) == S41 && T(56) == 0x6fa87e4f;
    assert MessageIndex(57) == 15 && ShiftFor(57) == S42 && T(57) == 0xfe2ce6e0;
    assert MessageIndex(58) == 6 && ShiftFor(58) == S43 && T(58) == 0xa3014314;
    assert MessageIndex(59) == 13 && ShiftFor(59) == S44 && T(59) == 0x4e0811a1;
    var xs := x[..];
    var a57 := II(a, b, c, d, x[8], S41, 0x6fa87e4f);
    var d58 := II(d, a57, b, c, x[15], S42, 0xfe2ce6e0);
    var c59 := II(c, d58, a57, b, x[6], S43, 0xa3014314);
    var b60 := II(b, c59, d58, a57, x[13], S44, 0x4e0811a1);
    var r0 := Registers(a, b, c, d);
    var r1 := Step(56, r0, xs);
    assert r1 == Registers(d, a57, b, c);
    StepsFromAdvance(56, r0, xs);
    var r2 := Step(57, r1, xs);
    assert r2 == Registers(c, d58, a57, b);
    StepsFromAdvance(57, r1, xs);
    var r3 := Step(58, r2, xs);
    assert r3 == Registers(b, c59, d58, a57);
    StepsFromAdvance(58, r2, xs);
    var r4 := Step(59, r3, xs);
    assert r4 == Registers(a57, b60, c59, d58);
    StepsFromAdvance(59, r3, xs);
  }

  lemma Steps61To64(a: Word, b: Word, c: Word, d: Word, x: array<Word>)
    requires x.Length == 16
    ensures var a61 := II(a, b, c, d, x[4], S41, 0xf7537e82);
            var d62 := II(d, a61, b, c, x[11], S42, 0xbd3af235);
            var c63 := II(c, d62, a61, b, x[2], S43, 0x2ad7d2bb);
            var b64 := II(b, c63, d62, a61, x[9], S44, 0xeb86d391);
            StepsFrom(60, Registers(a, b, c, d), x[..]) == StepsFrom(64, Registers(a61, b64, c63, d62), x[..])
  {
    assert MessageIndex(60) == 4 && ShiftFor(60) == S41 && T(60) == 0xf7537e82;
    assert MessageIndex(61) == 11 && ShiftFor(61) == S42 && T(61) == 0xbd3af235;
    assert MessageIndex(62) == 2 && ShiftFor(62) == S43 && T(62) == 0x2ad7d2bb;
    assert MessageIndex(63) == 9 && ShiftFor(63) == S44 && T(63) == 0xeb86d391;
    var xs := x[..];
    var a61 := II(a, b, c, d, x[4], S41, 0xf7537e82);
    var d62 := II(d, a61, b, c, x[11], S42, 0xbd3af235);
    var c63 := II(c, d62, a61, b, x[2], S43, 0x2ad7d2bb);
    var b64 := II(b, c63, d62, a61, x[9], S44, 0xeb86d391);
    var r0 := Registers(a, b, c, d);
    var r1 := Step(60, r0, xs);
    assert r1 == Registers(d, a61, b, c);
    StepsFromAdvance(60, r0, xs);
    var r2 := Step(61, r1, xs);
    assert r2 == Registers(c, d62, a61, b);
    StepsFromAdvance(61, r1, xs);
    var r3 := Step(62, r2, xs);
    assert r3 == Registers(b, c63, d62, a61);
    StepsFromAdvance(62, r2, xs);
    var r4 := Step(63, r3, xs);
    assert r4 == Registers(a61, b64, c63, d62);
    StepsFromAdvance(63, r3, xs);
  }

  /** Round 1 of `transform` (md5.h:215-232): steps 1 to 16. */
  method Round1(a0: Word, b0: Word, c0: Word, d0: Word, x: array<Word>) returns (a: Word, b: Word, c: Word, d: Word)
    requires x.Length == 16
    ensures StepsFrom(0, Registers(a0, b0, c0, d0), x[..]) == StepsFrom(16, Registers(a, b, c, d), x[..])
  {
    a, b, c, d := a0, b0, c0, d0;
    Steps1To4(a, b, c, d, x);
    a := FF(a, b, c, d, x[0], S11, 0xd76aa478); // 1
    d := FF(d, a, b, c, x[1], S12, 0xe8c7b756); // 2
    c := FF(c, d, a, b, x[2], S13, 0x242070db); // 3
    b := FF(b, c, d, a, x[3], S14, 0xc1bdceee); // 4
    Steps5To8(a, b, c, d, x);
    a := FF(a, b, c, d, x[4], S11, 0xf57c0faf); // 5
    d := FF(d, a, b, c, x[5], S12, 0x4787c62a); // 6
    c := FF(c, d, a, b, x[6], S13, 0xa8304613); // 7
    b := FF(b, c, d, a, x[7], S14, 0xfd469501); // 8
    Steps9To12(a, b, c, d, x);
    a := FF(a, b, c, d, x[8], S11, 0x698098d8); // 9
    d := FF(d, a, b, c, x[9], S12, 0x8b44f7af); // 10
    c := FF(c, d, a, b, x[10], S13, 0xffff5bb1); // 11
    b := FF(b, c, d, a, x[11], S14, 0x895cd7be); // 12
    Steps13To16(a, b, c, d, x);
    a := FF(a, b, c, d, x[12], S11, 0x6b901122); // 13
    d := FF(d, a, b, c, x[13], S12, 0xfd987193); // 14
    c := FF(c, d, a, b, x[14], S13, 0xa679438e); // 15
    b := FF(b, c, d, a, x[15], S14, 0x49b40821); // 16
  }

  /** Round 2 of `transform` (md5.h:234-251): steps 17 to 32. */
  method Round2(a0: Word, b0: Word, c0: Word, d0: Word, x: array<Word>) returns (a: Word, b: Word, c: Word, d: Word)
    requires x.Length == 16
    ensures StepsFrom(16, Registers(a0, b0, c0, d0), x[..]) == StepsFrom(32, Registers(a, b, c, d), x[..])
  {
    a, b, c, d := a0, b0, c0, d0;
    Steps17To20(a, b, c, d, x);
    a := GG(a, b, c, d, x[1], S21, 0xf61e2562); // 17
    d := GG(d, a, b, c, x[6], S22, 0xc040b340); // 18
    c := GG(c, d, a, b, x[11], S23, 0x265e5a51); // 19
    b := GG(b, c, d, a, x[0], S24, 0xe9b6c7aa); // 20
    Steps21To24(a, b, c, d, x);
    a := GG(a, b, c, d, x[5], S21, 0xd62f105d); // 21
    d := GG(d, a, b, c, x[10], S22, 0x2441453); // 22
    c := GG(c, d, a, b, x[15], S23, 0xd8a1e681); // 23
    b := GG(b, c, d, a, x[4], S24, 0xe7d3fbc8); // 24
    Steps25To28(a, b, c, d, x);
    a := GG(a, b, c, d, x[9], S21, 0x21e1cde6); // 25
    d := GG(d, a, b, c, x[14], S22, 0xc33707d6); // 26
    c := GG(c, d, a, b, x[3], S23, 0xf4d50d87); // 27
    b := GG(b, c, d, a, x[8], S24, 0x455a14ed); // 28
    Steps29To32(a, b, c, d, x);
    a := GG(a, b, c, d, x[13], S21, 0xa9e3e905); // 29
    d := GG(d, a, b, c, x[2], S22, 0xfcefa3f8); // 30
    c := GG(c, d, a, b, x[7], S23, 0x676f02d9); // 31
    b := GG(b, c, d, a, x[12], S24, 0x8d2a4c8a); // 32
  }

  /** Round 3 of `transform` (md5.h:254-271): steps 33 to 48. */
  method Round3(a0: Word, b0: Word, c0: Word, d0: Word, x: array<Word>) returns (a: Word, b: Word, c: Word, d: Word)
    requires x.Length == 16
    ensures StepsFrom(32, Registers(a0, b0, c0, d0), x[..]) == StepsFrom(48, Registers(a, b, c, d), x[..])
  {
    a, b, c, d := a0, b0, c0, d0;
    Steps33To36(a, b, c, d, x);
    a := HH(a, b, c, d, x[5], S31, 0xfffa3942); // 33
    d := HH(d, a, b, c, x[8], S32, 0x8771f681); // 34
    c := HH(c, d, a, b, x[11], S33, 0x6d9d6122); // 35
    b := HH(b, c, d, a, x[14], S34, 0xfde5380c); // 36
    Steps37To40(a, b, c, d, x);
    a := HH(a, b, c, d, x[1], S31, 0xa4beea44); // 37
    d := HH(d, a, b, c, x[4], S32, 0x4bdecfa9); // 38
    c := HH(c, d, a, b, x[7], S33, 0xf6bb4b60); // 39
    b := HH(b, c, d, a, x[10], S34, 0xbebfbc70); // 40
    Steps41To44(a, b, c, d, x);
    a := HH(a, b, c, d, x[13], S31, 0x289b7ec6); // 41
    d := HH(d, a, b, c, x[0], S32, 0xeaa127fa); // 42
    c := HH(c, d, a, b, x[3], S33, 0xd4ef3085); // 43
    b := HH(b, c, d, a, x[6], S34, 0x4881d05); // 44
    Steps45To48(a, b, c, d, x);
    a := HH(a, b, c, d, x[9], S31, 0xd9d4d039); // 45
    d := HH(d, a, b, c, x[12], S32, 0xe6db99e5); // 46
    c := HH(c, d, a, b, x[15], S33, 0x1fa27cf8); // 47
    b := HH(b, c, d, a, x[2], S34, 0xc4ac5665); // 48
  }

  /** Round 4 of `transform` (md5.h:274-291): steps 49 to 64. */
  method Round4(a0: Word, b0: Word, c0: Word, d0: Word, x: array<Word>) returns (a: Word, b: Word, c: Word, d: Word)
    requires x.Length == 16
    ensures StepsFrom(48, Registers(a0, b0, c0, d0), x[..]) == StepsFrom(64, Registers(a, b, c, d), x[..])
  {
    a, b, c, d := a0, b0, c0, d0;
    Steps49To52(a, b, c, d, x);
    a := II(a, b, c, d, x[0], S41, 0xf4292244); // 49
    d := II(d, a, b, c, x[7], S42, 0x432aff97); // 50
    c := II(c, d, a, b, x[14], S43, 0xab9423a7); // 51
    b := II(b, c, d, a, x[5], S44, 0xfc93a039); // 52
    Steps53To56(a, b, c, d, x);
    a := II(a, b, c, d, x[12], S41, 0x655b59c3); // 53
    d := II(d, a, b, c, x[3], S42, 0x8f0ccc92); // 54
    c := II(c, d, a, b, x[10], S43, 0xffeff47d); // 55
    b := II(b, c, d, a, x[1], S44, 0x85845dd1); // 56
    Steps57To60(a, b, c, d, x);
    a := II(a, b, c, d, x[8], S41, 0x6fa87e4f); // 57
    d := II(d, a, b, c, x[15], S42, 0xfe2ce6e0); // 58
    c := II(c, d, a, b, x[6], S43, 0xa3014314); // 59
    b := II(b, c, d, a, x[13], S44, 0x4e0811a1); // 60
    Steps61To64(a, b, c, d, x);
    a := II(a, b, c, d, x[4], S41, 0xf7537e82); // 61
    d := II(d, a, b, c, x[11], S42, 0xbd3af235); // 62
    c := II(c, d, a, b, x[2], S43, 0x2ad7d2bb); // 63
    b := II(b, c, d, a, x[9], S44, 0xeb86d391); // 64
  }

  /** md5.h:213-291: the four rounds in turn run all 64 steps. */
  method Rounds(a0: Word, b0: Word, c0: Word, d0: Word, x: array<Word>) returns (a: Word, b: Word, c: Word, d: Word)
    requires x.Length == 16
    ensures StepsFrom(0, Registers(a0, b0, c0, d0), x[..]) == Registers(a, b, c, d)
  {
    a, b, c, d := Round1(a0, b0, c0, d0, x);
    a, b, c, d := Round2(a, b, c, d, x);
    a, b, c, d := Round3(a, b, c, d, x);
    a, b, c, d := Round4(a, b, c, d, x);
  }
}
