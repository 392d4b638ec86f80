/**
 * The known vector of RFC 1321 appendix A.5 for the empty message: its
 * digest is d41d8cd98f00b204e9800998ecf8427e, and the text `hash` returns
 * for it drops the leading zero of the bytes 00, 04 and 09. The 64 steps
 * are followed one at a time through the register values they produce,
 * and chained four at a time.
 */
module Md5KnownVector {
  import opened ByteOrder
  import opened Md5Rounds
  import opened Md5Message
  import opened HexText

  /** The empty message padded: 0x80, then zeros, with a zero bit length. */
  const EmptyBlock: seq<Byte> := [0x80] + Zeros(63)

  /** The sixteen words of the padded empty message. */
  const EmptyWords: seq<Word> := [0x80, 0x0, 0x0, 0x0, 0x0, 0x0, 0x0, 0x0, 0x0, 0x0, 0x0, 0x0, 0x0, 0x0, 0x0, 0x0]

  /** Padding the empty message gives one block: 0x80 and 63 zero bytes. */
  lemma PaddedEmpty()
    ensures Padded([]) == EmptyBlock
  {
    CountForZero();
    PaddedSpec([]);
    var p := Padded([]);
    assert p == Padding(0) + LengthBytes(0);
    forall j | 0 <= j < 8
      ensures LengthBytes(0)[j] == 0
    {
      EncodeWordsAt([0, 0], j);
    }
    forall k | 0 <= k < 64
      ensures p[k] == EmptyBlock[k]
    {
      if k >= 56 {
        assert p[k] == LengthBytes(0)[k - 56];
      }
    }
  }

  /** The block read as words. */
  lemma EmptyBlockWords()
    ensures DecodeWords(EmptyBlock) == EmptyWords
  {
    assert WordFromBytes(0x80, 0, 0, 0) == 0x80 && WordFromBytes(0, 0, 0, 0) == 0;
    forall i | 0 <= i < 16
      ensures DecodeWords(EmptyBlock)[i] == EmptyWords[i]
    {
      DecodeWordsAt(EmptyBlock, i);
      EmptyWordAt(i);
    }
  }

  /** Word i of the padded empty message. */
  lemma EmptyWordAt(i: nat)
    requires i < 16
    ensures EmptyWords[i] == if i == 0 then 0x80 else 0
  {
    EmptyWordsValues();
  }

  /** Word 0 of the padded empty message is 0x80; all others are zero. */
  lemma EmptyWordsValues()
    ensures EmptyWords[0] == 0x80 && EmptyWords[1] == 0x0 && EmptyWords[2] == 0x0 && EmptyWords[3] == 0x0 && EmptyWords[4] == 0x0 && EmptyWords[5] == 0x0 && EmptyWords[6] == 0x0 && EmptyWords[7] == 0x0 && EmptyWords[8] == 0x0 && EmptyWords[9] == 0x0 && EmptyWords[10] == 0x0 && EmptyWords[11] == 0x0 && EmptyWords[12] == 0x0 && EmptyWords[13] == 0x0 && EmptyWords[14] == 0x0 && EmptyWords[15] == 0x0
  {
  }

  /** Step i on the empty message, from the registers before it to those after. */
  lemma EmptyStep0()
    ensures Step(0, Registers(0x67452301, 0xefcdab89, 0x98badcfe, 0x10325476), EmptyWords) == Registers(0x10325476, 0xa5202774, 0xefcdab89, 0x98badcfe)
  {
    EmptyWordsValues();
    assert MessageIndex(0) == 0 && ShiftFor(0) == 7 && T(0) == 0xd76aa478;
    assert F(0xefcdab89, 0x98badcfe, 0x10325476) == 0x98badcfe;
    assert RotateLeft(0xd76aa4f7, 7) == 0xb5527beb;
    assert StepOp(0, 0x67452301, 0xefcdab89, 0x98badcfe, 0x10325476, 0x80, 7, 0xd76aa478) == 0xa5202774;
  }

  lemma EmptyStep1()
    ensures Step(1, Registers(0x10325476, 0xa5202774, 0xefcdab89, 0x98badcfe), EmptyWords) == Registers(0x98badcfe, 0xf59592dd, 0xa5202774, 0xefcdab89)
  {
    EmptyWordsValues();
    assert MessageIndex(1) == 1 && ShiftFor(1) == 12 && T(1) == 0xe8c7b756;
    assert F(0xa5202774, 0xefcdab89, 0x98badcfe) == 0xbd9afb8a;
    assert RotateLeft(0xb6950756, 12) == 0x50756b69;
    assert StepOp(1, 0x10325476, 0xa5202774, 0xefcdab89, 0x98badcfe, 0x0, 12, 0xe8c7b756) == 0xf59592dd;
  }

  lemma EmptyStep2()
    ensures Step(2, Registers(0x98badcfe, 0xf59592dd, 0xa5202774, 0xefcdab89), EmptyWords) == Registers(0xefcdab89, 0xe7f06b23, 0xf59592dd, 0xa5202774)
  {
    EmptyWordsValues();
    assert MessageIndex(2) == 2 && ShiftFor(2) == 17 && T(2) == 0x242070db;
    assert F(0xf59592dd, 0xa5202774, 0xefcdab89) == 0xaf482b54;
    assert RotateLeft(0x6c23792d, 17) == 0xf25ad846;
    assert StepOp(2, 0x98badcfe, 0xf59592dd, 0xa5202774, 0xefcdab89, 0x0, 17, 0x242070db) == 0xe7f06b23;
  }

  lemma EmptyStep3()
    ensures Step(3, Registers(0xefcdab89, 0xe7f06b23, 0xf59592dd, 0xa5202774), EmptyWords) == Registers(0xa5202774, 0x1b163203, 0xe7f06b23, 0xf59592dd)
  {
    EmptyWordsValues();
    assert MessageIndex(3) == 3 && ShiftFor(3) == 22 && T(3) == 0xc1bdceee;
    assert F(0xe7f06b23, 0xf59592dd, 0xa5202774) == 0xe5900655;
    assert RotateLeft(0x971b80cc, 22) == 0x3325c6e0;
    assert StepOp(3, 0xefcdab89, 0xe7f06b23, 0xf59592dd, 0xa5202774, 0x0, 22, 0xc1bdceee) == 0x1b163203;
  }

  lemma EmptyStep4()
    ensures Step(4, Registers(0xa5202774, 0x1b163203, 0xe7f06b23, 0xf59592dd), EmptyWords) == Registers(0xf59592dd, 0x32033344, 0x1b163203, 0xe7f06b23)
  {
    EmptyWordsValues();
    assert MessageIndex(4) == 4 && ShiftFor(4) == 7 && T(4) == 0xf57c0faf;
    assert F(0x1b163203, 0xe7f06b23, 0xf59592dd) == 0xe791a2df;
    assert RotateLeft(0x822dda02, 7) == 0x16ed0141;
    assert StepOp(4, 0xa5202774, 0x1b163203, 0xe7f06b23, 0xf59592dd, 0x0, 7, 0xf57c0faf) == 0x32033344;
  }

  lemma EmptyStep5()
    ensures Step(5, Registers(0xf59592dd, 0x32033344, 0x1b163203, 0xe7f06b23), EmptyWords) == Registers(0xe7f06b23, 0x2f35d494, 0x32033344, 0x1b163203)
  {
    EmptyWordsValues();
    assert MessageIndex(5) == 5 && ShiftFor(5) == 12 && T(5) == 0x4787c62a;
    assert F(0x32033344, 0x1b163203, 0xe7f06b23) == 0xd7f27a23;
    assert RotateLeft(0x150fd32a, 12) == 0xfd32a150;
    assert StepOp(5, 0xf59592dd, 0x32033344, 0x1b163203, 0xe7f06b23, 0x0, 12, 0x4787c62a) == 0x2f35d494;
  }

  lemma EmptyStep6()
    ensures Step(6, Registers(0xe7f06b23, 0x2f35d494, 0x32033344, 0x1b163203), EmptyWords) == Registers(0x1b163203, 0xf5b158db, 0x2f35d494, 0x32033344)
  {
    EmptyWordsValues();
    assert MessageIndex(6) == 6 && ShiftFor(6) == 17 && T(6) == 0xa8304613;
    assert F(0x2f35d494, 0x32033344, 0x1b163203) == 0x32033207;
    assert RotateLeft(0xc223e33d, 17) == 0xc67b8447;
    assert StepOp(6, 0xe7f06b23, 0x2f35d494, 0x32033344, 0x1b163203, 0x0, 17, 0xa8304613) == 0xf5b158db;
  }

  lemma EmptyStep7()
    ensures Step(7, Registers(0x1b163203, 0xf5b158db, 0x2f35d494, 0x32033344), EmptyWords) == Registers(0x32033344, 0x9bc13ce9, 0xf5b158db, 0x2f35d494)
  {
    EmptyWordsValues();
    assert MessageIndex(7) == 7 && ShiftFor(7) == 22 && T(7) == 0xfd469501;
    assert F(0xf5b158db, 0x2f35d494, 0x32033344) == 0x27337394;
    assert RotateLeft(0x3f903a98, 22) == 0xa60fe40e;
    assert StepOp(7, 0x1b163203, 0xf5b158db, 0x2f35d494, 0x32033344, 0x0, 22, 0xfd469501) == 0x9bc13ce9;
  }

  lemma EmptyStep8()
    ensures Step(8, Registers(0x32033344, 0x9bc13ce9, 0xf5b158db, 0x2f35d494), EmptyWords) == Registers(0x2f35d494, 0x3893b991, 0x9bc13ce9, 0xf5b158db)
  {
    EmptyWordsValues();
    assert MessageIndex(8) == 8 && ShiftFor(8) == 7 && T(8) == 0x698098d8;
    assert F(0x9bc13ce9, 0xf5b158db, 0x2f35d494) == 0xb5b5d8dd;
    assert RotateLeft(0x5139a4f9, 7) == 0x9cd27ca8;
    assert StepOp(8, 0x32033344, 0x9bc13ce9, 0xf5b158db, 0x2f35d494, 0x0, 7, 0x698098d8) == 0x3893b991;
  }

  lemma EmptyStep9()
    ensures Step(9, Registers(0x2f35d494, 0x3893b991, 0x9bc13ce9, 0xf5b158db), EmptyWords) == Registers(0xf5b158db, 0xfce4a312, 0x3893b991, 0x9bc13ce9)
  {
    EmptyWordsValues();
    assert MessageIndex(9) == 9 && ShiftFor(9) == 12 && T(9) == 0x8b44f7af;
    assert F(0x3893b991, 0x9bc13ce9, 0xf5b158db) == 0xdda178cb;
    assert RotateLeft(0x981c450e, 12) == 0xc450e981;
    assert StepOp(9, 0x2f35d494, 0x3893b991, 0x9bc13ce9, 0xf5b158db, 0x0, 12, 0x8b44f7af) == 0xfce4a312;
  }

  lemma EmptyStep10()
    ensures Step(10, Registers(0xf5b158db, 0xfce4a312, 0x3893b991, 0x9bc13ce9), EmptyWords) == Registers(0x9bc13ce9, 0xe1ef0576, 0xfce4a312, 0x3893b991)
  {
    EmptyWordsValues();
    assert MessageIndex(10) == 10 && ShiftFor(10) == 17 && T(10) == 0xffff5bb1;
    assert F(0xfce4a312, 0x3893b991, 0x9bc13ce9) == 0x3b81bdf9;
    assert RotateLeft(0x31327285, 17) == 0xe50a6264;
    assert StepOp(10, 0xf5b158db, 0xfce4a312, 0x3893b991, 0x9bc13ce9, 0x0, 17, 0xffff5bb1) == 0xe1ef0576;
  }

  lemma EmptyStep11()
    ensures Step(11, Registers(0x9bc13ce9, 0xe1ef0576, 0xfce4a312, 0x3893b991), EmptyWords) == Registers(0x3893b991, 0x70768a29, 0xe1ef0576, 0xfce4a312)
  {
    EmptyWordsValues();
    assert MessageIndex(11) == 11 && ShiftFor(11) == 22 && T(11) == 0x895cd7be;
    assert F(0xe1ef0576, 0xfce4a312, 0x3893b991) == 0xf8f4b993;
    assert RotateLeft(0x1e12ce3a, 22) == 0x8e8784b3;
    assert StepOp(11, 0x9bc13ce9, 0xe1ef0576, 0xfce4a312, 0x3893b991, 0x0, 22, 0x895cd7be) == 0x70768a29;
  }

  lemma EmptyStep12()
    ensures Step(12, Registers(0x3893b991, 0x70768a29, 0xe1ef0576, 0xfce4a312), EmptyWords) == Registers(0xfce4a312, 0xf56c7cf1, 0x70768a29, 0xe1ef0576)
  {
    EmptyWordsValues();
    assert MessageIndex(12) == 12 && ShiftFor(12) == 7 && T(12) == 0x6b901122;
    assert F(0x70768a29, 0xe1ef0576, 0xfce4a312) == 0xece62132;
    assert RotateLeft(0x9109ebe5, 7) == 0x84f5f2c8;
    assert StepOp(12, 0x3893b991, 0x70768a29, 0xe1ef0576, 0xfce4a312, 0x0, 7, 0x6b901122) == 0xf56c7cf1;
  }

  lemma EmptyStep13()
    ensures Step(13, Registers(0xfce4a312, 0xf56c7cf1, 0x70768a29, 0xe1ef0576), EmptyWords) == Registers(0xe1ef0576, 0x374943a7, 0xf56c7cf1, 0x70768a29)
  {
    EmptyWordsValues();
    assert MessageIndex(13) == 13 && ShiftFor(13) == 12 && T(13) == 0xfd987193;
    assert F(0xf56c7cf1, 0x70768a29, 0xe1ef0576) == 0x70e70927;
    assert RotateLeft(0x6b641dcc, 12) == 0x41dcc6b6;
    assert StepOp(13, 0xfce4a312, 0xf56c7cf1, 0x70768a29, 0xe1ef0576, 0x0, 12, 0xfd987193) == 0x374943a7;
  }

  lemma EmptyStep14()
    ensures Step(14, Registers(0xe1ef0576, 0x374943a7, 0xf56c7cf1, 0x70768a29), EmptyWords) == Registers(0x70768a29, 0x5aa53f75, 0x374943a7, 0xf56c7cf1)
  {
    EmptyWordsValues();
    assert MessageIndex(14) == 14 && ShiftFor(14) == 17 && T(14) == 0xa679438e;
    assert F(0x374943a7, 0xf56c7cf1, 0x70768a29) == 0x757ec8a9;
    assert RotateLeft(0xfde711ad, 17) == 0x235bfbce;
    assert StepOp(14, 0xe1ef0576, 0x374943a7, 0xf56c7cf1, 0x70768a29, 0x0, 17, 0xa679438e) == 0x5aa53f75;
  }

  lemma EmptyStep15()
    ensures Step(15, Registers(0x70768a29, 0x5aa53f75, 0x374943a7, 0xf56c7cf1), EmptyWords) == Registers(0xf56c7cf1, 0xd6819c6a, 0x5aa53f75, 0x374943a7)
  {
    EmptyWordsValues();
    assert MessageIndex(15) == 15 && ShiftFor(15) == 22 && T(15) == 0x49b40821;
    assert F(0x5aa53f75, 0x374943a7, 0xf56c7cf1) == 0xb74943a5;
    assert RotateLeft(0x7173d5ef, 22) == 0x7bdc5cf5;
    assert StepOp(15, 0x70768a29, 0x5aa53f75, 0x374943a7, 0xf56c7cf1, 0x0, 22, 0x49b40821) == 0xd6819c6a;
  }

  lemma EmptyStep16()
    ensures Step(16, Registers(0xf56c7cf1, 0xd6819c6a, 0x5aa53f75, 0x374943a7), EmptyWords) == Registers(0x374943a7, 0x1c7d7513, 0xd6819c6a, 0x5aa53f75)
  {
    EmptyWordsValues();
    assert MessageIndex(16) == 1 && ShiftFor(16) == 5 && T(16) == 0xf61e2562;
    assert G(0xd6819c6a, 0x5aa53f75, 0x374943a7) == 0x5ea53c72;
    assert RotateLeft(0x4a2fdec5, 5) == 0x45fbd8a9;
    assert StepOp(16, 0xf56c7cf1, 0xd6819c6a, 0x5aa53f75, 0x374943a7, 0x0, 5, 0xf61e2562) == 0x1c7d7513;
  }

  lemma EmptyStep17()
    ensures Step(17, Registers(0x374943a7, 0x1c7d7513, 0xd6819c6a, 0x5aa53f75), EmptyWords) == Registers(0x5aa53f75, 0x7bd57a3a, 0x1c7d7513, 0xd6819c6a)
  {
    EmptyWordsValues();
    assert MessageIndex(17) == 6 && ShiftFor(17) == 9 && T(17) == 0xc040b340;
    assert G(0x1c7d7513, 0xd6819c6a, 0x5aa53f75) == 0x9c25b51b;
    assert RotateLeft(0x93afac02, 9) == 0x5f580527;
    assert StepOp(17, 0x374943a7, 0x1c7d7513, 0xd6819c6a, 0x5aa53f75, 0x0, 9, 0xc040b340) == 0x7bd57a3a;
  }

  lemma EmptyStep18()
    ensures Step(18, Registers(0x5aa53f75, 0x7bd57a3a, 0x1c7d7513, 0xd6819c6a), EmptyWords) == Registers(0xd6819c6a, 0xc095f13a, 0x7bd57a3a, 0x1c7d7513)
  {
    EmptyWordsValues();
    assert MessageIndex(18) == 11 && ShiftFor(18) == 14 && T(18) == 0x265e5a51;
    assert G(0x7bd57a3a, 0x1c7d7513, 0xd6819c6a) == 0x5afd793b;
    assert RotateLeft(0xdc011301, 14) == 0x44c07700;
    assert StepOp(18, 0x5aa53f75, 0x7bd57a3a, 0x1c7d7513, 0xd6819c6a, 0x0, 14, 0x265e5a51) == 0xc095f13a;
  }

  lemma EmptyStep19()
    ensures Step(19, Registers(0xd6819c6a, 0xc095f13a, 0x7bd57a3a, 0x1c7d7513), EmptyWords) == Registers(0x1c7d7513, 0xbd782e17, 0xc095f13a, 0x7bd57a3a)
  {
    EmptyWordsValues();
    assert MessageIndex(19) == 0 && ShiftFor(19) == 20 && T(19) == 0xe9b6c7aa;
    assert G(0xc095f13a, 0x7bd57a3a, 0x1c7d7513) == 0x63957b3a;
    assert RotateLeft(0x23cddfce, 20) == 0xfce23cdd;
    assert StepOp(19, 0xd6819c6a, 0xc095f13a, 0x7bd57a3a, 0x1c7d7513, 0x80, 20, 0xe9b6c7aa) == 0xbd782e17;
  }

  lemma EmptyStep20()
    ensures Step(20, Registers(0x1c7d7513, 0xbd782e17, 0xc095f13a, 0x7bd57a3a), EmptyWords) == Registers(0x7bd57a3a, 0x3d1e3e6c, 0xbd782e17, 0xc095f13a)
  {
    EmptyWordsValues();
    assert MessageIndex(20) == 5 && ShiftFor(20) == 5 && T(20) == 0xd62f105d;
    assert G(0xbd782e17, 0xc095f13a, 0x7bd57a3a) == 0xb950ab12;
    assert RotateLeft(0xabfd3082, 5) == 0x7fa61055;
    assert StepOp(20, 0x1c7d7513, 0xbd782e17, 0xc095f13a, 0x7bd57a3a, 0x0, 5, 0xd62f105d) == 0x3d1e3e6c;
  }

  lemma EmptyStep21()
    ensures Step(21, Registers(0x7bd57a3a, 0x3d1e3e6c, 0xbd782e17, 0xc095f13a), EmptyWords) == Registers(0xc095f13a, 0x68b7b3e3, 0x3d1e3e6c, 0xbd782e17)
  {
    EmptyWordsValues();
    assert MessageIndex(21) == 10 && ShiftFor(21) == 9 && T(21) == 0x02441453;
    assert G(0x3d1e3e6c, 0xbd782e17, 0xc095f13a) == 0x3d7c3e2d;
    assert RotateLeft(0xbb95ccba, 9) == 0x2b997577;
    assert StepOp(21, 0x7bd57a3a, 0x3d1e3e6c, 0xbd782e17, 0xc095f13a, 0x0, 9, 0x02441453) == 0x68b7b3e3;
  }

  lemma EmptyStep22()
    ensures Step(22, Registers(0xc095f13a, 0x68b7b3e3, 0x3d1e3e6c, 0xbd782e17), EmptyWords) == Registers(0xbd782e17, 0xeb41643e, 0x68b7b3e3, 0x3d1e3e6c)
  {
    EmptyWordsValues();
    assert MessageIndex(22) == 15 && ShiftFor(22) == 14 && T(22) == 0xd8a1e681;
    assert G(0x68b7b3e3, 0x3d1e3e6c, 0xbd782e17) == 0x2836326b;
    assert RotateLeft(0xc16e0a26, 14) == 0x8289b05b;
    assert StepOp(22, 0xc095f13a, 0x68b7b3e3, 0x3d1e3e6c, 0xbd782e17, 0x0, 14, 0xd8a1e681) == 0xeb41643e;
  }

  lemma EmptyStep23()
    ensures Step(23, Registers(0xbd782e17, 0xeb41643e, 0x68b7b3e3, 0x3d1e3e6c), EmptyWords) == Registers(0x3d1e3e6c, 0xe422531a, 0xeb41643e, 0x68b7b3e3)
  {
    EmptyWordsValues();
    assert MessageIndex(23) == 4 && ShiftFor(23) == 20 && T(23) == 0xe7d3fbc8;
    assert G(0xeb41643e, 0x68b7b3e3, 0x3d1e3e6c) == 0x69a1a5af;
    assert RotateLeft(0x0eedcf8e, 20) == 0xf8e0eedc;
    assert StepOp(23, 0xbd782e17, 0xeb41643e, 0x68b7b3e3, 0x3d1e3e6c, 0x0, 20, 0xe7d3fbc8) == 0xe422531a;
  }

  lemma EmptyStep24()
    ensures Step(24, Registers(0x3d1e3e6c, 0xe422531a, 0xeb41643e, 0x68b7b3e3), EmptyWords) == Registers(0x68b7b3e3, 0x306ec122, 0xe422531a, 0xeb41643e)
  {
    EmptyWordsValues();
    assert MessageIndex(24) == 9 && ShiftFor(24) == 5 && T(24) == 0x21e1cde6;
    assert G(0xe422531a, 0xeb41643e, 0x68b7b3e3) == 0xe362571e;
    assert RotateLeft(0x42626370, 5) == 0x4c4c6e08;
    assert StepOp(24, 0x3d1e3e6c, 0xe422531a, 0xeb41643e, 0x68b7b3e3, 0x0, 5, 0x21e1cde6) == 0x306ec122;
  }

  lemma EmptyStep25()
    ensures Step(25, Registers(0x68b7b3e3, 0x306ec122, 0xe422531a, 0xeb41643e), EmptyWords) == Registers(0xeb41643e, 0xd28c77c2, 0x306ec122, 0xe422531a)
  {
    EmptyWordsValues();
    assert MessageIndex(25) == 14 && ShiftFor(25) == 9 && T(25) == 0xc33707d6;
    assert G(0x306ec122, 0xe422531a, 0xeb41643e) == 0x24625322;
    assert RotateLeft(0x50510edb, 9) == 0xa21db6a0;
    assert StepOp(25, 0x68b7b3e3, 0x306ec122, 0xe422531a, 0xeb41643e, 0x0, 9, 0xc33707d6) == 0xd28c77c2;
  }

  lemma EmptyStep26()
    ensures Step(26, Registers(0xeb41643e, 0xd28c77c2, 0x306ec122, 0xe422531a), EmptyWords) == Registers(0xe422531a, 0xa3c663da, 0xd28c77c2, 0x306ec122)
  {
    EmptyWordsValues();
    assert MessageIndex(26) == 3 && ShiftFor(26) == 14 && T(26) == 0xf4d50d87;
    assert G(0xd28c77c2, 0x306ec122, 0xe422531a) == 0xd04cd322;
    assert RotateLeft(0xb06344e7, 14) == 0xd139ec18;
    assert StepOp(26, 0xeb41643e, 0xd28c77c2, 0x306ec122, 0xe422531a, 0x0, 14, 0xf4d50d87) == 0xa3c663da;
  }

  lemma EmptyStep27()
    ensures Step(27, Registers(0xe422531a, 0xa3c663da, 0xd28c77c2, 0x306ec122), EmptyWords) == Registers(0x306ec122, 0xa0572807, 0xa3c663da, 0xd28c77c2)
  {
    EmptyWordsValues();
    assert MessageIndex(27) == 8 && ShiftFor(27) == 20 && T(27) == 0x455a14ed;
    assert G(0xa3c663da, 0xd28c77c2, 0x306ec122) == 0xe2c677c2;
    assert RotateLeft(0x0c42dfc9, 20) == 0xfc90c42d;
    assert StepOp(27, 0xe422531a, 0xa3c663da, 0xd28c77c2, 0x306ec122, 0x0, 20, 0x455a14ed) == 0xa0572807;
  }

  lemma EmptyStep28()
    ensures Step(28, Registers(0x306ec122, 0xa0572807, 0xa3c663da, 0xd28c77c2), EmptyWords) == Registers(0xd28c77c2, 0x13707036, 0xa0572807, 0xa3c663da)
  {
    EmptyWordsValues();
    assert MessageIndex(28) == 13 && ShiftFor(28) == 5 && T(28) == 0xa9e3e905;
    assert G(0xa0572807, 0xa3c663da, 0xd28c77c2) == 0xa146201a;
    assert RotateLeft(0x7b98ca41, 5) == 0x7319482f;
    assert StepOp(28, 0x306ec122, 0xa0572807, 0xa3c663da, 0xd28c77c2, 0x0, 5, 0xa9e3e905) == 0x13707036;
  }

  lemma EmptyStep29()
    ensures Step(29, Registers(0xd28c77c2, 0x13707036, 0xa0572807, 0xa3c663da), EmptyWords) == Registers(0xa3c663da, 0xae7813db, 0x13707036, 0xa0572807)
  {
    EmptyWordsValues();
    assert MessageIndex(29) == 2 && ShiftFor(29) == 9 && T(29) == 0xfcefa3f8;
    assert G(0x13707036, 0xa0572807, 0xa3c663da) == 0x03516817;
    assert RotateLeft(0xd2cd83d1, 9) == 0x9b07a3a5;
    assert StepOp(29, 0xd28c77c2, 0x13707036, 0xa0572807, 0xa3c663da, 0x0, 9, 0xfcefa3f8) == 0xae7813db;
  }

  lemma EmptyStep30()
    ensures Step(30, Registers(0xa3c663da, 0xae7813db, 0x13707036, 0xa0572807), EmptyWords) == Registers(0xa0572807, 0x1c31c384, 0xae7813db, 0x13707036)
  {
    EmptyWordsValues();
    assert MessageIndex(30) == 7 && ShiftFor(30) == 14 && T(30) == 0x676f02d9;
    assert G(0xae7813db, 0x13707036, 0xa0572807) == 0xb3705033;
    assert RotateLeft(0xbea5b6e6, 14) == 0x6db9afa9;
    assert StepOp(30, 0xa3c663da, 0xae7813db, 0x13707036, 0xa0572807, 0x0, 14, 0x676f02d9) == 0x1c31c384;
  }

  lemma EmptyStep31()
    ensures Step(31, Registers(0xa0572807, 0x1c31c384, 0xae7813db, 0x13707036), EmptyWords) == Registers(0x13707036, 0xa2205f1f, 0x1c31c384, 0xae7813db)
  {
    EmptyWordsValues();
    assert MessageIndex(31) == 12 && ShiftFor(31) == 20 && T(31) == 0x8d2a4c8a;
    assert G(0x1c31c384, 0xae7813db, 0x13707036) == 0xbc3843cd;
    assert RotateLeft(0xe9b9b85e, 20) == 0x85ee9b9b;
    assert StepOp(31, 0xa0572807, 0x1c31c384, 0xae7813db, 0x13707036, 0x0, 20, 0x8d2a4c8a) == 0xa2205f1f;
  }

  lemma EmptyStep32()
    ensures Step(32, Registers(0x13707036, 0xa2205f1f, 0x1c31c384, 0xae7813db), EmptyWords) == Registers(0xae7813db, 0xdf63eaa1, 0xa2205f1f, 0x1c31c384)
  {
    EmptyWordsValues();
    assert MessageIndex(32) == 5 && ShiftFor(32) == 4 && T(32) == 0xfffa3942;
    assert H(0xa2205f1f, 0x1c31c384, 0xae7813db) == 0x10698f40;
    assert RotateLeft(0x23d438b8, 4) == 0x3d438b82;
    assert StepOp(32, 0x13707036, 0xa2205f1f, 0x1c31c384, 0xae7813db, 0x0, 4, 0xfffa3942) == 0xdf63eaa1;
  }

  lemma EmptyStep33()
    ensures Step(33, Registers(0xae7813db, 0xdf63eaa1, 0xa2205f1f, 0x1c31c384), EmptyWords) == Registers(0x1c31c384, 0xc3689f5b, 0xdf63eaa1, 0xa2205f1f)
  {
    EmptyWordsValues();
    assert MessageIndex(33) == 8 && ShiftFor(33) == 11 && T(33) == 0x8771f681;
    assert H(0xdf63eaa1, 0xa2205f1f, 0x1c31c384) == 0x6172763a;
    assert RotateLeft(0x975c8096, 11) == 0xe404b4ba;
    assert StepOp(33, 0xae7813db, 0xdf63eaa1, 0xa2205f1f, 0x1c31c384, 0x0, 11, 0x8771f681) == 0xc3689f5b;
  }

  lemma EmptyStep34()
    ensures Step(34, Registers(0x1c31c384, 0xc3689f5b, 0xdf63eaa1, 0xa2205f1f), EmptyWords) == Registers(0xa2205f1f, 0x12f3e755, 0xc3689f5b, 0xdf63eaa1)
  {
    EmptyWordsValues();
    assert MessageIndex(34) == 11 && ShiftFor(34) == 16 && T(34) == 0x6d9d6122;
    assert H(0xc3689f5b, 0xdf63eaa1, 0xa2205f1f) == 0xbe2b2ae5;
    assert RotateLeft(0x47fa4f8b, 16) == 0x4f8b47fa;
    assert StepOp(34, 0x1c31c384, 0xc3689f5b, 0xdf63eaa1, 0xa2205f1f, 0x0, 16, 0x6d9d6122) == 0x12f3e755;
  }

  lemma EmptyStep35()
    ensures Step(35, Registers(0xa2205f1f, 0x12f3e755, 0xc3689f5b, 0xdf63eaa1), EmptyWords) == Registers(0xdf63eaa1, 0x004b6669, 0x12f3e755, 0xc3689f5b)
  {
    EmptyWordsValues();
    assert MessageIndex(35) == 14 && ShiftFor(35) == 23 && T(35) == 0xfde5380c;
    assert H(0x12f3e755, 0xc3689f5b, 0xdf63eaa1) == 0x0ef892af;
    assert RotateLeft(0xaefe29da, 23) == 0xed577f14;
    assert StepOp(35, 0xa2205f1f, 0x12f3e755, 0xc3689f5b, 0xdf63eaa1, 0x0, 23, 0xfde5380c) == 0x004b6669;
  }

  lemma EmptyStep36()
    ensures Step(36, Registers(0xdf63eaa1, 0x004b6669, 0x12f3e755, 0xc3689f5b), EmptyWords) == Registers(0xc3689f5b, 0x5f7a9b2e, 0x004b6669, 0x12f3e755)
  {
    EmptyWordsValues();
    assert MessageIndex(36) == 1 && ShiftFor(36) == 4 && T(36) == 0xa4beea44;
    assert H(0x004b6669, 0x12f3e755, 0xc3689f5b) == 0xd1d01e67;
    assert RotateLeft(0x55f2f34c, 4) == 0x5f2f34c5;
    assert StepOp(36, 0xdf63eaa1, 0x004b6669, 0x12f3e755, 0xc3689f5b, 0x0, 4, 0xa4beea44) == 0x5f7a9b2e;
  }

  lemma EmptyStep37()
    ensures Step(37, Registers(0xc3689f5b, 0x5f7a9b2e, 0x004b6669, 0x12f3e755), EmptyWords) == Registers(0x12f3e755, 0xabc34e16, 0x5f7a9b2e, 0x004b6669)
  {
    EmptyWordsValues();
    assert MessageIndex(37) == 4 && ShiftFor(37) == 11 && T(37) == 0x4bdecfa9;
    assert H(0x5f7a9b2e, 0x004b6669, 0x12f3e755) == 0x4dc21a12;
    assert RotateLeft(0x5d098916, 11) == 0x4c48b2e8;
    assert StepOp(37, 0xc3689f5b, 0x5f7a9b2e, 0x004b6669, 0x12f3e755, 0x0, 11, 0x4bdecfa9) == 0xabc34e16;
  }

  lemma EmptyStep38()
    ensures Step(38, Registers(0x12f3e755, 0xabc34e16, 0x5f7a9b2e, 0x004b6669), EmptyWords) == Registers(0x004b6669, 0x91ca4cb7, 0xabc34e16, 0x5f7a9b2e)
  {
    EmptyWordsValues();
    assert MessageIndex(38) == 7 && ShiftFor(38) == 16 && T(38) == 0xf6bb4b60;
    assert H(0xabc34e16, 0x5f7a9b2e, 0x004b6669) == 0xf4f2b351;
    assert RotateLeft(0xfea1e606, 16) == 0xe606fea1;
    assert StepOp(38, 0x12f3e755, 0xabc34e16, 0x5f7a9b2e, 0x004b6669, 0x0, 16, 0xf6bb4b60) == 0x91ca4cb7;
  }

  lemma EmptyStep39()
    ensures Step(39, Registers(0x004b6669, 0x91ca4cb7, 0xabc34e16, 0x5f7a9b2e), EmptyWords) == Registers(0x5f7a9b2e, 0xc5dc8c15, 0x91ca4cb7, 0xabc34e16)
  {
    EmptyWordsValues();
    assert MessageIndex(39) == 10 && ShiftFor(39) == 23 && T(39) == 0xbebfbc70;
    assert H(0x91ca4cb7, 0xabc34e16, 0x5f7a9b2e) == 0x6573998f;
    assert RotateLeft(0x247ebc68, 23) == 0x34123f5e;
    assert StepOp(39, 0x004b6669, 0x91ca4cb7, 0xabc34e16, 0x5f7a9b2e, 0x0, 23, 0xbebfbc70) == 0xc5dc8c15;
  }

  lemma EmptyStep40()
    ensures Step(40, Registers(0x5f7a9b2e, 0xc5dc8c15, 0x91ca4cb7, 0xabc34e16), EmptyWords) == Registers(0xabc34e16, 0x4497169d, 0xc5dc8c15, 0x91ca4cb7)
  {
    EmptyWordsValues();
    assert MessageIndex(40) == 13 && ShiftFor(40) == 4 && T(40) == 0x289b7ec6;
    assert H(0xc5dc8c15, 0x91ca4cb7, 0xabc34e16) == 0xffd58eb4;
    assert RotateLeft(0x87eba8a8, 4) == 0x7eba8a88;
    assert StepOp(40, 0x5f7a9b2e, 0xc5dc8c15, 0x91ca4cb7, 0xabc34e16, 0x0, 4, 0x289b7ec6) == 0x4497169d;
  }

  lemma EmptyStep41()
    ensures Step(41, Registers(0xabc34e16, 0x4497169d, 0xc5dc8c15, 0x91ca4cb7), EmptyWords) == Registers(0x91ca4cb7, 0x76fd93d4, 0x4497169d, 0xc5dc8c15)
  {
    EmptyWordsValues();
    assert MessageIndex(41) == 0 && ShiftFor(41) == 11 && T(41) == 0xeaa127fa;
    assert H(0x4497169d, 0xc5dc8c15, 0x91ca4cb7) == 0x1081d63f;
    assert RotateLeft(0xa6e64ccf, 11) == 0x32667d37;
    assert StepOp(41, 0xabc34e16, 0x4497169d, 0xc5dc8c15, 0x91ca4cb7, 0x80, 11, 0xeaa127fa) == 0x76fd93d4;
  }

  lemma EmptyStep42()
    ensures Step(42, Registers(0x91ca4cb7, 0x76fd93d4, 0x4497169d, 0xc5dc8c15), EmptyWords) == Registers(0xc5dc8c15, 0xfd95f243, 0x76fd93d4, 0x4497169d)
  {
    EmptyWordsValues();
    assert MessageIndex(42) == 3 && ShiftFor(42) == 16 && T(42) == 0xd4ef3085;
    assert H(0x76fd93d4, 0x4497169d, 0xc5dc8c15) == 0xf7b6095c;
    assert RotateLeft(0x5e6f8698, 16) == 0x86985e6f;
    assert StepOp(42, 0x91ca4cb7, 0x76fd93d4, 0x4497169d, 0xc5dc8c15, 0x0, 16, 0xd4ef3085) == 0xfd95f243;
  }

  lemma EmptyStep43()
    ensures Step(43, Registers(0xc5dc8c15, 0xfd95f243, 0x76fd93d4, 0x4497169d), EmptyWords) == Registers(0x4497169d, 0x0fe32453, 0xfd95f243, 0x76fd93d4)
  {
    EmptyWordsValues();
    assert MessageIndex(43) == 6 && ShiftFor(43) == 23 && T(43) == 0x04881d05;
    assert H(0xfd95f243, 0x76fd93d4, 0x4497169d) == 0xcfff770a;
    assert RotateLeft(0x9a642024, 23) == 0x124d3210;
    assert StepOp(43, 0xc5dc8c15, 0xfd95f243, 0x76fd93d4, 0x4497169d, 0x0, 23, 0x04881d05) == 0x0fe32453;
  }

  lemma EmptyStep44()
    ensures Step(44, Registers(0x4497169d, 0x0fe32453, 0xfd95f243, 0x76fd93d4), EmptyWords) == Registers(0x76fd93d4, 0x3f55edfd, 0x0fe32453, 0xfd95f243)
  {
    EmptyWordsValues();
    assert MessageIndex(44) == 9 && ShiftFor(44) == 4 && T(44) == 0xd9d4d039;
    assert H(0x0fe32453, 0xfd95f243, 0x76fd93d4) == 0x848b45c4;
    assert RotateLeft(0xa2f72c9a, 4) == 0x2f72c9aa;
    assert StepOp(44, 0x4497169d, 0x0fe32453, 0xfd95f243, 0x76fd93d4, 0x0, 4, 0xd9d4d039) == 0x3f55edfd;
  }

  lemma EmptyStep45()
    ensures Step(45, Registers(0x76fd93d4, 0x3f55edfd, 0x0fe32453, 0xfd95f243), EmptyWords) == Registers(0xfd95f243, 0x22a31f54, 0x3f55edfd, 0x0fe32453)
  {
    EmptyWordsValues();
    assert MessageIndex(45) == 12 && ShiftFor(45) == 11 && T(45) == 0xe6db99e5;
    assert H(0x3f55edfd, 0x0fe32453, 0xfd95f243) == 0xcd233bed;
    assert RotateLeft(0x2afc69a6, 11) == 0xe34d3157;
    assert StepOp(45, 0x76fd93d4, 0x3f55edfd, 0x0fe32453, 0xfd95f243, 0x0, 11, 0xe6db99e5) == 0x22a31f54;
  }

  lemma EmptyStep46()
    ensures Step(46, Registers(0xfd95f243, 0x22a31f54, 0x3f55edfd, 0x0fe32453), EmptyWords) == Registers(0x0fe32453, 0x68d84ea2, 0x22a31f54, 0x3f55edfd)
  {
    EmptyWordsValues();
    assert MessageIndex(46) == 15 && ShiftFor(46) == 16 && T(46) == 0x1fa27cf8;
    assert H(0x22a31f54, 0x3f55edfd, 0x0fe32453) == 0x1215d6fa;
    assert RotateLeft(0x2f4e4635, 16) == 0x46352f4e;
    assert StepOp(46, 0xfd95f243, 0x22a31f54, 0x3f55edfd, 0x0fe32453, 0x0, 16, 0x1fa27cf8) == 0x68d84ea2;
  }

  lemma EmptyStep47()
    ensures Step(47, Registers(0x0fe32453, 0x68d84ea2, 0x22a31f54, 0x3f55edfd), EmptyWords) == Registers(0x3f55edfd, 0xca7d2dbd, 0x68d84ea2, 0x22a31f54)
  {
    EmptyWordsValues();
    assert MessageIndex(47) == 2 && ShiftFor(47) == 23 && T(47) == 0xc4ac5665;
    assert H(0x68d84ea2, 0x22a31f54, 0x3f55edfd) == 0x752ebc0b;
    assert RotateLeft(0x49be36c3, 23) == 0x61a4df1b;
    assert StepOp(47, 0x0fe32453, 0x68d84ea2, 0x22a31f54, 0x3f55edfd, 0x0, 23, 0xc4ac5665) == 0xca7d2dbd;
  }

  lemma EmptyStep48()
    ensures Step(48, Registers(0x3f55edfd, 0xca7d2dbd, 0x68d84ea2, 0x22a31f54), EmptyWords) == Registers(0x22a31f54, 0x93aa2577, 0xca7d2dbd, 0x68d84ea2)
  {
    EmptyWordsValues();
    assert MessageIndex(48) == 0 && ShiftFor(48) == 6 && T(48) == 0xf4292244;
    assert I(0xca7d2dbd, 0x68d84ea2, 0x22a31f54) == 0xb7a5a31d;
    assert RotateLeft(0xeb24b3de, 6) == 0xc92cf7ba;
    assert StepOp(48, 0x3f55edfd, 0xca7d2dbd, 0x68d84ea2, 0x22a31f54, 0x80, 6, 0xf4292244) == 0x93aa2577;
  }

  lemma EmptyStep49()
    ensures Step(49, Registers(0x22a31f54, 0x93aa2577, 0xca7d2dbd, 0x68d84ea2), EmptyWords) == Registers(0x68d84ea2, 0x1688dc85, 0x93aa2577, 0xca7d2dbd)
  {
    EmptyWordsValues();
    assert MessageIndex(49) == 7 && ShiftFor(49) == 10 && T(49) == 0x432aff97;
    assert I(0x93aa2577, 0xca7d2dbd, 0x68d84ea2) == 0x5dd298c2;
    assert RotateLeft(0xc3a0b7ad, 10) == 0x82deb70e;
    assert StepOp(49, 0x22a31f54, 0x93aa2577, 0xca7d2dbd, 0x68d84ea2, 0x0, 10, 0x432aff97) == 0x1688dc85;
  }

  lemma EmptyStep50()
    ensures Step(50, Registers(0x68d84ea2, 0x1688dc85, 0x93aa2577, 0xca7d2dbd), EmptyWords) == Registers(0xca7d2dbd, 0xcd85b8cb, 0x1688dc85, 0x93aa2577)
  {
    EmptyWordsValues();
    assert MessageIndex(50) == 14 && ShiftFor(50) == 15 && T(50) == 0xab9423a7;
    assert I(0x1688dc85, 0x93aa2577, 0xca7d2dbd) == 0xa420fbb0;
    assert RotateLeft(0xb88d6df9, 15) == 0xb6fcdc46;
    assert StepOp(50, 0x68d84ea2, 0x1688dc85, 0x93aa2577, 0xca7d2dbd, 0x0, 15, 0xab9423a7) == 0xcd85b8cb;
  }

  lemma EmptyStep51()
    ensures Step(51, Registers(0xca7d2dbd, 0xcd85b8cb, 0x1688dc85, 0x93aa2577), EmptyWords) == Registers(0x93aa2577, 0x561e0689, 0xcd85b8cb, 0x1688dc85)
  {
    EmptyWordsValues();
    assert MessageIndex(51) == 5 && ShiftFor(51) == 21 && T(51) == 0xfc93a039;
    assert I(0xcd85b8cb, 0x1688dc85, 0x93aa2577) == 0xfb5d264e;
    assert RotateLeft(0xc26df444, 21) == 0x88984dbe;
    assert StepOp(51, 0xca7d2dbd, 0xcd85b8cb, 0x1688dc85, 0x93aa2577, 0x0, 21, 0xfc93a039) == 0x561e0689;
  }

  lemma EmptyStep52()
    ensures Step(52, Registers(0x93aa2577, 0x561e0689, 0xcd85b8cb, 0x1688dc85), EmptyWords) == Registers(0x1688dc85, 0x5625a114, 0x561e0689, 0xcd85b8cb)
  {
    EmptyWordsValues();
    assert MessageIndex(52) == 12 && ShiftFor(52) == 6 && T(52) == 0x655b59c3;
    assert I(0x561e0689, 0xcd85b8cb, 0x1688dc85) == 0x32fa9f30;
    assert RotateLeft(0x2c001e6a, 6) == 0x00079a8b;
    assert StepOp(52, 0x93aa2577, 0x561e0689, 0xcd85b8cb, 0x1688dc85, 0x0, 6, 0x655b59c3) == 0x5625a114;
  }

  lemma EmptyStep53()
    ensures Step(53, Registers(0x1688dc85, 0x5625a114, 0x561e0689, 0xcd85b8cb), EmptyWords) == Registers(0xcd85b8cb, 0x3450f42b, 0x5625a114, 0x561e0689)
  {
    EmptyWordsValues();
    assert MessageIndex(53) == 3 && ShiftFor(53) == 10 && T(53) == 0x8f0ccc92;
    assert I(0x5625a114, 0x561e0689, 0xcd85b8cb) == 0x2061e1bd;
    assert RotateLeft(0xc5f78ad4, 10) == 0xde2b5317;
    assert StepOp(53, 0x1688dc85, 0x5625a114, 0x561e0689, 0xcd85b8cb, 0x0, 10, 0x8f0ccc92) == 0x3450f42b;
  }

  lemma EmptyStep54()
    ensures Step(54, Registers(0xcd85b8cb, 0x3450f42b, 0x5625a114, 0x561e0689), EmptyWords) == Registers(0x561e0689, 0x392ad0d0, 0x3450f42b, 0x5625a114)
  {
    EmptyWordsValues();
    assert MessageIndex(54) == 10 && ShiftFor(54) == 15 && T(54) == 0xffeff47d;
    assert I(0x3450f42b, 0x5625a114, 0x561e0689) == 0xebd45c6b;
    assert RotateLeft(0xb94a09b3, 15) == 0x04d9dca5;
    assert StepOp(54, 0xcd85b8cb, 0x3450f42b, 0x5625a114, 0x561e0689, 0x0, 15, 0xffeff47d) == 0x392ad0d0;
  }

  lemma EmptyStep55()
    ensures Step(55, Registers(0x561e0689, 0x392ad0d0, 0x3450f42b, 0x5625a114), EmptyWords) == Registers(0x5625a114, 0x1e77fa61, 0x392ad0d0, 0x3450f42b)
  {
    EmptyWordsValues();
    assert MessageIndex(55) == 1 && ShiftFor(55) == 21 && T(55) == 0x85845dd1;
    assert I(0x392ad0d0, 0x3450f42b, 0x5625a114) == 0x8daa2ad0;
    assert RotateLeft(0x694c8f2a, 21) == 0xe54d2991;
    assert StepOp(55, 0x561e0689, 0x392ad0d0, 0x3450f42b, 0x5625a114, 0x0, 21, 0x85845dd1) == 0x1e77fa61;
  }

  lemma EmptyStep56()
    ensures Step(56, Registers(0x5625a114, 0x1e77fa61, 0x392ad0d0, 0x3450f42b), EmptyWords) == Registers(0x3450f42b, 0x474a9c8c, 0x1e77fa61, 0x392ad0d0)
  {
    EmptyWordsValues();
    assert MessageIndex(56) == 8 && ShiftFor(56) == 6 && T(56) == 0x6fa87e4f;
    assert I(0x1e77fa61, 0x392ad0d0, 0x3450f42b) == 0xe6d52b25;
    assert RotateLeft(0xaca34a88, 6) == 0x28d2a22b;
    assert StepOp(56, 0x5625a114, 0x1e77fa61, 0x392ad0d0, 0x3450f42b, 0x0, 6, 0x6fa87e4f) == 0x474a9c8c;
  }

  lemma EmptyStep57()
    ensures Step(57, Registers(0x3450f42b, 0x474a9c8c, 0x1e77fa61, 0x392ad0d0), EmptyWords) == Registers(0x392ad0d0, 0xdfce00bc, 0x474a9c8c, 0x1e77fa61)
  {
    EmptyWordsValues();
    assert MessageIndex(57) == 15 && ShiftFor(57) == 10 && T(57) == 0xfe2ce6e0;
    assert I(0x474a9c8c, 0x1e77fa61, 0x392ad0d0) == 0xd9a845ce;
    assert RotateLeft(0x0c2620d9, 10) == 0x98836430;
    assert StepOp(57, 0x3450f42b, 0x474a9c8c, 0x1e77fa61, 0x392ad0d0, 0x0, 10, 0xfe2ce6e0) == 0xdfce00bc;
  }

  lemma EmptyStep58()
    ensures Step(58, Registers(0x392ad0d0, 0xdfce00bc, 0x474a9c8c, 0x1e77fa61), EmptyWords) == Registers(0x1e77fa61, 0x36594b14, 0xdfce00bc, 0x474a9c8c)
  {
    EmptyWordsValues();
    assert MessageIndex(58) == 6 && ShiftFor(58) == 15 && T(58) == 0xa3014314;
    assert I(0xdfce00bc, 0x474a9c8c, 0x1e77fa61) == 0xb8849932;
    assert RotateLeft(0x94b0ad16, 15) == 0x568b4a58;
    assert StepOp(58, 0x392ad0d0, 0xdfce00bc, 0x474a9c8c, 0x1e77fa61, 0x0, 15, 0xa3014314) == 0x36594b14;
  }

  lemma EmptyStep59()
    ensures Step(59, Registers(0x1e77fa61, 0x36594b14, 0xdfce00bc, 0x474a9c8c), EmptyWords) == Registers(0x474a9c8c, 0x30130182, 0x36594b14, 0xdfce00bc)
  {
    EmptyWordsValues();
    assert MessageIndex(59) == 13 && ShiftFor(59) == 21 && T(59) == 0x4e0811a1;
    assert I(0x36594b14, 0xdfce00bc, 0x474a9c8c) == 0x61336bcb;
    assert RotateLeft(0xcdb377cd, 21) == 0xf9b9b66e;
    assert StepOp(59, 0x1e77fa61, 0x36594b14, 0xdfce00bc, 0x474a9c8c, 0x0, 21, 0x4e0811a1) == 0x30130182;
  }

  lemma EmptyStep60()
    ensures Step(60, Registers(0x474a9c8c, 0x30130182, 0x36594b14, 0xdfce00bc), EmptyWords) == Registers(0xdfce00bc, 0x7246fad3, 0x30130182, 0x36594b14)
  {
    EmptyWordsValues();
    assert MessageIndex(60) == 4 && ShiftFor(60) == 6 && T(60) == 0xf7537e82;
    assert I(0x30130182, 0x36594b14, 0xdfce00bc) == 0x066ab4d7;
    assert RotateLeft(0x4508cfe5, 6) == 0x4233f951;
    assert StepOp(60, 0x474a9c8c, 0x30130182, 0x36594b14, 0xdfce00bc, 0x0, 6, 0xf7537e82) == 0x7246fad3;
  }

  lemma EmptyStep61()
    ensures Step(61, Registers(0xdfce00bc, 0x7246fad3, 0x30130182, 0x36594b14), EmptyWords) == Registers(0x36594b14, 0x6e10a476, 0x7246fad3, 0x30130182)
  {
    EmptyWordsValues();
    assert MessageIndex(61) == 11 && ShiftFor(61) == 10 && T(61) == 0xbd3af235;
    assert I(0x7246fad3, 0x30130182, 0x36594b14) == 0xcbf5ff79;
    assert RotateLeft(0x68fef26a, 10) == 0xfbc9a9a3;
    assert StepOp(61, 0xdfce00bc, 0x7246fad3, 0x30130182, 0x36594b14, 0x0, 10, 0xbd3af235) == 0x6e10a476;
  }

  lemma EmptyStep62()
    ensures Step(62, Registers(0x36594b14, 0x6e10a476, 0x7246fad3, 0x30130182), EmptyWords) == Registers(0x30130182, 0xff4ea3eb, 0x6e10a476, 0x7246fad3)
  {
    EmptyWordsValues();
    assert MessageIndex(62) == 2 && ShiftFor(62) == 15 && T(62) == 0x2ad7d2bb;
    assert I(0x6e10a476, 0x7246fad3, 0x30130182) == 0x9dba04ac;
    assert RotateLeft(0xfeeb227b, 15) == 0x913dff75;
    assert StepOp(62, 0x36594b14, 0x6e10a476, 0x7246fad3, 0x30130182, 0x0, 15, 0x2ad7d2bb) == 0xff4ea3eb;
  }

  lemma EmptyStep63()
    ensures Step(63, Registers(0x30130182, 0xff4ea3eb, 0x6e10a476, 0x7246fad3), EmptyWords) == Registers(0x7246fad3, 0x14e45506, 0xff4ea3eb, 0x6e10a476)
  {
    EmptyWordsValues();
    assert MessageIndex(63) == 9 && ShiftFor(63) == 21 && T(63) == 0xeb86d391;
    assert I(0xff4ea3eb, 0x6e10a476, 0x7246fad3) == 0x91ef0399;
    assert RotateLeft(0xad88d8ac, 21) == 0x1595b11b;
    assert StepOp(63, 0x30130182, 0xff4ea3eb, 0x6e10a476, 0x7246fad3, 0x0, 21, 0xeb86d391) == 0x14e45506;
  }

  /** Steps a, ..., a + 3 on the empty message, chained. */
  lemma EmptySteps1To4()
    ensures StepsFrom(0, Registers(0x67452301, 0xefcdab89, 0x98badcfe, 0x10325476), EmptyWords) == StepsFrom(4, Registers(0xa5202774, 0x1b163203, 0xe7f06b23, 0xf59592dd), EmptyWords)
  {
    EmptyStep0();
    StepsFromAdvance(0, Registers(0x67452301, 0xefcdab89, 0x98badcfe, 0x10325476), EmptyWords);
    EmptyStep1();
    StepsFromAdvance(1, Registers(0x10325476, 0xa5202774, 0xefcdab89, 0x98badcfe), EmptyWords);
    EmptyStep2();
    StepsFromAdvance(2, Registers(0x98badcfe, 0xf59592dd, 0xa5202774, 0xefcdab89), EmptyWords);
    EmptyStep3();
    StepsFromAdvance(3, Registers(0xefcdab89, 0xe7f06b23, 0xf59592dd, 0xa5202774), EmptyWords);
  }

  lemma EmptySteps5To8()
    ensures StepsFrom(4, Registers(0xa5202774, 0x1b163203, 0xe7f06b23, 0xf59592dd), EmptyWords) == StepsFrom(8, Registers(0x32033344, 0x9bc13ce9, 0xf5b158db, 0x2f35d494), EmptyWords)
  {
    EmptyStep4();
    StepsFromAdvance(4, Registers(0xa5202774, 0x1b163203, 0xe7f06b23, 0xf59592dd), EmptyWords);
    EmptyStep5();
    StepsFromAdvance(5, Registers(0xf59592dd, 0x32033344, 0x1b163203, 0xe7f06b23), EmptyWords);
    EmptyStep6();
    StepsFromAdvance(6, Registers(0xe7f06b23, 0x2f35d494, 0x32033344, 0x1b163203), EmptyWords);
    EmptyStep7();
    StepsFromAdvance(7, Registers(0x1b163203, 0xf5b158db, 0x2f35d494, 0x32033344), EmptyWords);
  }

  lemma EmptySteps9To12()
    ensures StepsFrom(8, Registers(0x32033344, 0x9bc13ce9, 0xf5b158db, 0x2f35d494), EmptyWords) == StepsFrom(12, Registers(0x3893b991, 0x70768a29, 0xe1ef0576, 0xfce4a312), EmptyWords)
  {
    EmptyStep8();
    StepsFromAdvance(8, Registers(0x32033344, 0x9bc13ce9, 0xf5b158db, 0x2f35d494), EmptyWords);
    EmptyStep9();
    StepsFromAdvance(9, Registers(0x2f35d494, 0x3893b991, 0x9bc13ce9, 0xf5b158db), EmptyWords);
    EmptyStep10();
    StepsFromAdvance(10, Registers(0xf5b158db, 0xfce4a312, 0x3893b991, 0x9bc13ce9), EmptyWords);
    EmptyStep11();
    StepsFromAdvance(11, Registers(0x9bc13ce9, 0xe1ef0576, 0xfce4a312, 0x3893b991), EmptyWords);
  }

  lemma EmptySteps13To16()
    ensures StepsFrom(12, Registers(0x3893b991, 0x70768a29, 0xe1ef0576, 0xfce4a312), EmptyWords) == StepsFrom(16, Registers(0xf56c7cf1, 0xd6819c6a, 0x5aa53f75, 0x374943a7), EmptyWords)
  {
    EmptyStep12();
    StepsFromAdvance(12, Registers(0x3893b991, 0x70768a29, 0xe1ef0576, 0xfce4a312), EmptyWords);
    EmptyStep13();
    StepsFromAdvance(13, Registers(0xfce4a312, 0xf56c7cf1, 0x70768a29, 0xe1ef0576), EmptyWords);
    EmptyStep14();
    StepsFromAdvance(14, Registers(0xe1ef0576, 0x374943a7, 0xf56c7cf1, 0x70768a29), EmptyWords);
    EmptyStep15();
    StepsFromAdvance(15, Registers(0x70768a29, 0x5aa53f75, 0x374943a7, 0xf56c7cf1), EmptyWords);
  }

  lemma EmptySteps17To20()
    ensures StepsFrom(16, Registers(0xf56c7cf1, 0xd6819c6a, 0x5aa53f75, 0x374943a7), EmptyWords) == StepsFrom(20, Registers(0x1c7d7513, 0xbd782e17, 0xc095f13a, 0x7bd57a3a), EmptyWords)
  {
    EmptyStep16();
    StepsFromAdvance(16, Registers(0xf56c7cf1, 0xd6819c6a, 0x5aa53f75, 0x374943a7), EmptyWords);
    EmptyStep17();
    StepsFromAdvance(17, Registers(0x374943a7, 0x1c7d7513, 0xd6819c6a, 0x5aa53f75), EmptyWords);
    EmptyStep18();
    StepsFromAdvance(18, Registers(0x5aa53f75, 0x7bd57a3a, 0x1c7d7513, 0xd6819c6a), EmptyWords);
    EmptyStep19();
    StepsFromAdvance(19, Registers(0xd6819c6a, 0xc095f13a, 0x7bd57a3a, 0x1c7d7513), EmptyWords);
  }

  lemma EmptySteps21To24()
    ensures StepsFrom(20, Registers(0x1c7d7513, 0xbd782e17, 0xc095f13a, 0x7bd57a3a), EmptyWords) == StepsFrom(24, Registers(0x3d1e3e6c, 0xe422531a, 0xeb41643e, 0x68b7b3e3), EmptyWords)
  {
    EmptyStep20();
    StepsFromAdvance(20, Registers(0x1c7d7513, 0xbd782e17, 0xc095f13a, 0x7bd57a3a), EmptyWords);
    EmptyStep21();
    StepsFromAdvance(21, Registers(0x7bd57a3a, 0x3d1e3e6c, 0xbd782e17, 0xc095f13a), EmptyWords);
    EmptyStep22();
    StepsFromAdvance(22, Registers(0xc095f13a, 0x68b7b3e3, 0x3d1e3e6c, 0xbd782e17), EmptyWords);
    EmptyStep23();
    StepsFromAdvance(23, Registers(0xbd782e17, 0xeb41643e, 0x68b7b3e3, 0x3d1e3e6c), EmptyWords);
  }

  lemma EmptySteps25To28()
    ensures StepsFrom(24, Registers(0x3d1e3e6c, 0xe422531a, 0xeb41643e, 0x68b7b3e3), EmptyWords) == StepsFrom(28, Registers(0x306ec122, 0xa0572807, 0xa3c663da, 0xd28c77c2), EmptyWords)
  {
    EmptyStep24();
    StepsFromAdvance(24, Registers(0x3d1e3e6c, 0xe422531a, 0xeb41643e, 0x68b7b3e3), EmptyWords);
    EmptyStep25();
    StepsFromAdvance(25, Registers(0x68b7b3e3, 0x306ec122, 0xe422531a, 0xeb41643e), EmptyWords);
    EmptyStep26();
    StepsFromAdvance(26, Registers(0xeb41643e, 0xd28c77c2, 0x306ec122, 0xe422531a), EmptyWords);
    EmptyStep27();
    StepsFromAdvance(27, Registers(0xe422531a, 0xa3c663da, 0xd28c77c2, 0x306ec122), EmptyWords);
  }

  lemma EmptySteps29To32()
    ensures StepsFrom(28, Registers(0x306ec122, 0xa0572807, 0xa3c663da, 0xd28c77c2), EmptyWords) == StepsFrom(32, Registers(0x13707036, 0xa2205f1f, 0x1c31c384, 0xae7813db), EmptyWords)
  {
    EmptyStep28();
    StepsFromAdvance(28, Registers(0x306ec122, 0xa0572807, 0xa3c663da, 0xd28c77c2), EmptyWords);
    EmptyStep29();
    StepsFromAdvance(29, Registers(0xd28c77c2, 0x13707036, 0xa0572807, 0xa3c663da), EmptyWords);
    EmptyStep30();
    StepsFromAdvance(30, Registers(0xa3c663da, 0xae7813db, 0x13707036, 0xa0572807), EmptyWords);
    EmptyStep31();
    StepsFromAdvance(31, Registers(0xa0572807, 0x1c31c384, 0xae7813db, 0x13707036), EmptyWords);
  }

  lemma EmptySteps33To36()
    ensures StepsFrom(32, Registers(0x13707036, 0xa2205f1f, 0x1c31c384, 0xae7813db), EmptyWords) == StepsFrom(36, Registers(0xdf63eaa1, 0x004b6669, 0x12f3e755, 0xc3689f5b), EmptyWords)
  {
    EmptyStep32();
    StepsFromAdvance(32, Registers(0x13707036, 0xa2205f1f, 0x1c31c384, 0xae7813db), EmptyWords);
    EmptyStep33();
    StepsFromAdvance(33, Registers(0xae7813db, 0xdf63eaa1, 0xa2205f1f, 0x1c31c384), EmptyWords);
    EmptyStep34();
    StepsFromAdvance(34, Registers(0x1c31c384, 0xc3689f5b, 0xdf63eaa1, 0xa2205f1f), EmptyWords);
    EmptyStep35();
    StepsFromAdvance(35, Registers(0xa2205f1f, 0x12f3e755, 0xc3689f5b, 0xdf63eaa1), EmptyWords);
  }

  lemma EmptySteps37To40()
    ensures StepsFrom(36, Registers(0xdf63eaa1, 0x004b6669, 0x12f3e755, 0xc3689f5b), EmptyWords) == StepsFrom(40, Registers(0x5f7a9b2e, 0xc5dc8c15, 0x91ca4cb7, 0xabc34e16), EmptyWords)
  {
    EmptyStep36();
    StepsFromAdvance(36, Registers(0xdf63eaa1, 0x004b6669, 0x12f3e755, 0xc3689f5b), EmptyWords);
    EmptyStep37();
    StepsFromAdvance(37, Registers(0xc3689f5b, 0x5f7a9b2e, 0x004b6669, 0x12f3e755), EmptyWords);
    EmptyStep38();
    StepsFromAdvance(38, Registers(0x12f3e755, 0xabc34e16, 0x5f7a9b2e, 0x004b6669), EmptyWords);
    EmptyStep39();
    StepsFromAdvance(39, Registers(0x004b6669, 0x91ca4cb7, 0xabc34e16, 0x5f7a9b2e), EmptyWords);
  }

  lemma EmptySteps41To44()
    ensures StepsFrom(40, Registers(0x5f7a9b2e, 0xc5dc8c15, 0x91ca4cb7, 0xabc34e16), EmptyWords) == StepsFrom(44, Registers(0x4497169d, 0x0fe32453, 0xfd95f243, 0x76fd93d4), EmptyWords)
  {
    EmptyStep40();
    StepsFromAdvance(40, Registers(0x5f7a9b2e, 0xc5dc8c15, 0x91ca4cb7, 0xabc34e16), EmptyWords);
    EmptyStep41();
    StepsFromAdvance(41, Registers(0xabc34e16, 0x4497169d, 0xc5dc8c15, 0x91ca4cb7), EmptyWords);
    EmptyStep42();
    StepsFromAdvance(42, Registers(0x91ca4cb7, 0x76fd93d4, 0x4497169d, 0xc5dc8c15), EmptyWords);
    EmptyStep43();
    StepsFromAdvance(43, Registers(0xc5dc8c15, 0xfd95f243, 0x76fd93d4, 0x4497169d), EmptyWords);
  }

  lemma EmptySteps45To48()
    ensures StepsFrom(44, Registers(0x4497169d, 0x0fe32453, 0xfd95f243, 0x76fd93d4), EmptyWords) == StepsFrom(48, Registers(0x3f55edfd, 0xca7d2dbd, 0x68d84ea2, 0x22a31f54), EmptyWords)
  {
    EmptyStep44();
    StepsFromAdvance(44, Registers(0x4497169d, 0x0fe32453, 0xfd95f243, 0x76fd93d4), EmptyWords);
    EmptyStep45();
    StepsFromAdvance(45, Registers(0x76fd93d4, 0x3f55edfd, 0x0fe32453, 0xfd95f243), EmptyWords);
    EmptyStep46();
    StepsFromAdvance(46, Registers(0xfd95f243, 0x22a31f54, 0x3f55edfd, 0x0fe32453), EmptyWords);
    EmptyStep47();
    StepsFromAdvance(47, Registers(0x0fe32453, 0x68d84ea2, 0x22a31f54, 0x3f55edfd), EmptyWords);
  }

  lemma EmptySteps49To52()
    ensures StepsFrom(48, Registers(0x3f55edfd, 0xca7d2dbd, 0x68d84ea2, 0x22a31f54), EmptyWords) == StepsFrom(52, Registers(0x93aa2577, 0x561e0689, 0xcd85b8cb, 0x1688dc85), EmptyWords)
  {
    EmptyStep48();
    StepsFromAdvance(48, Registers(0x3f55edfd, 0xca7d2dbd, 0x68d84ea2, 0x22a31f54), EmptyWords);
    EmptyStep49();
    StepsFromAdvance(49, Registers(0x22a31f54, 0x93aa2577, 0xca7d2dbd, 0x68d84ea2), EmptyWords);
    EmptyStep50();
    StepsFromAdvance(50, Registers(0x68d84ea2, 0x1688dc85, 0x93aa2577, 0xca7d2dbd), EmptyWords);
    EmptyStep51();
    StepsFromAdvance(51, Registers(0xca7d2dbd, 0xcd85b8cb, 0x1688dc85, 0x93aa2577), EmptyWords);
  }

  lemma EmptySteps53To56()
    ensures StepsFrom(52, Registers(0x93aa2577, 0x561e0689, 0xcd85b8cb, 0x1688dc85), EmptyWords) == StepsFrom(56, Registers(0x5625a114, 0x1e77fa61, 0x392ad0d0, 0x3450f42b), EmptyWords)
  {
    EmptyStep52();
    StepsFromAdvance(52, Registers(0x93aa2577, 0x561e0689, 0xcd85b8cb, 0x1688dc85), EmptyWords);
    EmptyStep53();
    StepsFromAdvance(53, Registers(0x1688dc85, 0x5625a114, 0x561e0689, 0xcd85b8cb), EmptyWords);
    EmptyStep54();
    StepsFromAdvance(54, Registers(0xcd85b8cb, 0x3450f42b, 0x5625a114, 0x561e0689), EmptyWords);
    EmptyStep55();
    StepsFromAdvance(55, Registers(0x561e0689, 0x392ad0d0, 0x3450f42b, 0x5625a114), EmptyWords);
  }

  lemma EmptySteps57To60()
    ensures StepsFrom(56, Registers(0x5625a114, 0x1e77fa61, 0x392ad0d0, 0x3450f42b), EmptyWords) == StepsFrom(60, Registers(0x474a9c8c, 0x30130182, 0x36594b14, 0xdfce00bc), EmptyWords)
  {
    EmptyStep56();
    StepsFromAdvance(56, Registers(0x5625a114, 0x1e77fa61, 0x392ad0d0, 0x3450f42b), EmptyWords);
    EmptyStep57();
    StepsFromAdvance(57, Registers(0x3450f42b, 0x474a9c8c, 0x1e77fa61, 0x392ad0d0), EmptyWords);
    EmptyStep58();
    StepsFromAdvance(58, Registers(0x392ad0d0, 0xdfce00bc, 0x474a9c8c, 0x1e77fa61), EmptyWords);
    EmptyStep59();
    StepsFromAdvance(59, Registers(0x1e77fa61, 0x36594b14, 0xdfce00bc, 0x474a9c8c), EmptyWords);
  }

  lemma EmptySteps61To64()
    ensures StepsFrom(60, Registers(0x474a9c8c, 0x30130182, 0x36594b14, 0xdfce00bc), EmptyWords) == StepsFrom(64, Registers(0x7246fad3, 0x14e45506, 0xff4ea3eb, 0x6e10a476), EmptyWords)
  {
    EmptyStep60();
    StepsFromAdvance(60, Registers(0x474a9c8c, 0x30130182, 0x36594b14, 0xdfce00bc), EmptyWords);
    EmptyStep61();
    StepsFromAdvance(61, Registers(0xdfce00bc, 0x7246fad3, 0x30130182, 0x36594b14), EmptyWords);
    EmptyStep62();
    StepsFromAdvance(62, Registers(0x36594b14, 0x6e10a476, 0x7246fad3, 0x30130182), EmptyWords);
    EmptyStep63();
    StepsFromAdvance(63, Registers(0x30130182, 0xff4ea3eb, 0x6e10a476, 0x7246fad3), EmptyWords);
  }

  /** The 64 steps on the empty message end with these registers. */
  lemma EmptySteps()
    ensures StepsFrom(0, Registers(0x67452301, 0xefcdab89, 0x98badcfe, 0x10325476), EmptyWords) == Registers(0x7246fad3, 0x14e45506, 0xff4ea3eb, 0x6e10a476)
  {
    EmptySteps1To4();
    EmptySteps5To8();
    EmptySteps9To12();
    EmptySteps13To16();
    EmptySteps17To20();
    EmptySteps21To24();
    EmptySteps25To28();
    EmptySteps29To32();
    EmptySteps33To36();
    EmptySteps37To40();
    EmptySteps41To44();
    EmptySteps45To48();
    EmptySteps49To52();
    EmptySteps53To56();
    EmptySteps57To60();
    EmptySteps61To64();
  }

  /** The state words after the one block of the empty message. */
  lemma EmptyState()
    ensures Blocks(InitialState, Padded([])) == [0xd98c1dd4, 0x04b2008f, 0x980980e9, 0x7e42f8ec]
  {
    PaddedEmpty();
    EmptyBlockWords();
    BlocksOne(InitialState, EmptyBlock);
    EmptySteps();
  }

  /** Those state words written out as bytes. */
  lemma EmptyStateBytes()
    ensures EncodeWords([0xd98c1dd4, 0x04b2008f, 0x980980e9, 0x7e42f8ec]) == [0xd4, 0x1d, 0x8c, 0xd9, 0x8f, 0x00, 0xb2, 0x04, 0xe9, 0x80, 0x09, 0x98, 0xec, 0xf8, 0x42, 0x7e]
  {
    var w: seq<Word> := [0xd98c1dd4, 0x04b2008f, 0x980980e9, 0x7e42f8ec];
    forall j | 0 <= j < 16
      ensures EncodeWords(w)[j] == [0xd4, 0x1d, 0x8c, 0xd9, 0x8f, 0x00, 0xb2, 0x04, 0xe9, 0x80, 0x09, 0x98, 0xec, 0xf8, 0x42, 0x7e][j]
    {
      EncodeWordsAt(w, j);
    }
  }

  /** MD5 of the empty message, as listed in RFC 1321 appendix A.5. */
  lemma Md5Empty()
    ensures Md5([]) == [0xd4, 0x1d, 0x8c, 0xd9, 0x8f, 0x00, 0xb2, 0x04, 0xe9, 0x80, 0x09, 0x98, 0xec, 0xf8, 0x42, 0x7e]
  {
    EmptyState();
    EmptyStateBytes();
  }

  /** Bytes 0 to 3 of that digest as text. */
  lemma HexQuad0()
    ensures HexString([0xd4, 0x1d, 0x8c, 0xd9]) == "d41d8cd9"
  {
  }

  /** Bytes 4 to 7 of that digest as text. */
  lemma HexQuad1()
    ensures HexString([0x8f, 0x00, 0xb2, 0x04]) == "8f0b24"
  {
  }

  /** Bytes 8 to 11 of that digest as text. */
  lemma HexQuad2()
    ensures HexString([0xe9, 0x80, 0x09, 0x98]) == "e980998"
  {
  }

  /** Bytes 12 to 15 of that digest as text. */
  lemma HexQuad3()
    ensures HexString([0xec, 0xf8, 0x42, 0x7e]) == "ecf8427e"
  {
  }

  /** The text of four pieces, joined. */
  lemma HexStringQuads(d: seq<Byte>, q0: seq<Byte>, q1: seq<Byte>, q2: seq<Byte>, q3: seq<Byte>)
    requires d == q0 + (q1 + (q2 + q3))
    ensures HexString(d) == HexString(q0) + (HexString(q1) + (HexString(q2) + HexString(q3)))
  {
    HexStringAppend(q2, q3);
    HexStringAppend(q1, q2 + q3);
    HexStringAppend(q0, q1 + (q2 + q3));
  }

  /** The sixteen digest bytes, four at a time. */
  lemma EmptyDigestQuads()
    ensures [0xd4, 0x1d, 0x8c, 0xd9, 0x8f, 0x00, 0xb2, 0x04, 0xe9, 0x80, 0x09, 0x98, 0xec, 0xf8, 0x42, 0x7e] == [0xd4, 0x1d, 0x8c, 0xd9] + ([0x8f, 0x00, 0xb2, 0x04] + ([0xe9, 0x80, 0x09, 0x98] + [0xec, 0xf8, 0x42, 0x7e]))
  {
  }

  /** The four pieces of text, joined. */
  lemma EmptyTextJoin()
    ensures "d41d8cd9" + ("8f0b24" + ("e980998" + "ecf8427e")) == "d41d8cd98f0b24e980998ecf8427e"
  {
  }

  /** The text of the empty message's digest bytes. */
  lemma EmptyDigestText(d: seq<Byte>)
    requires d == [0xd4, 0x1d, 0x8c, 0xd9, 0x8f, 0x00, 0xb2, 0x04, 0xe9, 0x80, 0x09, 0x98, 0xec, 0xf8, 0x42, 0x7e]
    ensures HexString(d) == "d41d8cd98f0b24e980998ecf8427e"
  {
    EmptyDigestQuads();
    HexStringQuads(d, [0xd4, 0x1d, 0x8c, 0xd9], [0x8f, 0x00, 0xb2, 0x04], [0xe9, 0x80, 0x09, 0x98], [0xec, 0xf8, 0x42, 0x7e]);
    HexQuad0();
    HexQuad1();
    HexQuad2();
    HexQuad3();
    EmptyTextJoin();
  }

  /**
   * The text `hash` returns for the empty message: 29 characters, since the
   * bytes 00, 04 and 09 print as a single digit each.
   */
  lemma HashTextEmpty()
    ensures HexString(Md5([])) == "d41d8cd98f0b24e980998ecf8427e"
    ensures |HexString(Md5([]))| == 29
  {
    Md5Empty();
    EmptyDigestText(Md5([]));
  }
}
