/**
 * What a user of `md5_hash` observes: hashing a whole message, hashing it
 * fed in pieces of at most 64 bytes as the stream overload does, and that
 * the way a message is split into `update` calls makes no difference.
 */
module Md5Client {
  import opened ByteOrder
  import opened Md5Message
  import opened HexText
  import opened Md5

  /** The pieces joined in order. */
  function Concat(pieces: seq<seq<Byte>>): (m: seq<Byte>)
    ensures |pieces| == 0 ==> m == []
  {
    if |pieces| == 0 then [] else Concat(pieces[..|pieces| - 1]) + pieces[|pieces| - 1]
  }

  /** Joining one more piece appends it. */
  lemma ConcatSnoc(pieces: seq<seq<Byte>>, i: nat)
    requires i < |pieces|
    ensures Concat(pieces[..i + 1]) == Concat(pieces[..i]) + pieces[i]
  {
    assert pieces[..i + 1][..i] == pieces[..i];
  }

  lemma AppendAssoc(x: seq<Byte>, y: seq<Byte>, z: seq<Byte>)
    ensures x + y + z == x + (y + z)
  {
  }

  /**
   * Two hashers that have taken the same input from the same starting
   * state agree on everything md5.h keeps: the state, the bit count and
   * the pending bytes of the buffer.
   */
  lemma SameInputSameState(h1: Md5Hash, h2: Md5Hash)
    requires h1.Valid() && h2.Valid() && h1.Base == h2.Base && h1.Input == h2.Input
    ensures h1.state[..] == h2.state[..] && h1.count[..] == h2.count[..]
    ensures h1.buffer[..|h1.Input| % ChunkSize] == h2.buffer[..|h2.Input| % ChunkSize]
  {
    assert h1.count[..] == [h1.count[0], h1.count[1]];
    assert h2.count[..] == [h2.count[0], h2.count[1]];
  }

  /**
   * Chunking invariance: `update(a)` then `update(b)` leaves the same
   * state, count and pending bytes as `update(a + b)`.
   */
  method UpdateSplit(h1: Md5Hash, h2: Md5Hash, a: seq<Byte>, b: seq<Byte>)
    requires h1.Valid() && h2.Valid() && h1.Repr() !! h2.Repr()
    requires h1.Base == h2.Base && h1.Input == h2.Input
    requires |a| + |b| < TwoTo64
    modifies h1.Repr(), h2.Repr()
    ensures h1.Valid() && h2.Valid() && h1.Input == h2.Input == old(h1.Input) + a + b
    ensures h1.state[..] == h2.state[..] && h1.count[..] == h2.count[..]
    ensures h1.buffer[..|h1.Input| % ChunkSize] == h2.buffer[..|h2.Input| % ChunkSize]
  {
    ghost var input := h1.Input;
    h1.Update(a);
    h1.Update(b);
    h2.Update(a + b);
    AppendAssoc(input, a, b);
    SameInputSameState(h1, h2);
  }

  /** A fresh hasher given the whole message at once yields the hex text of its MD5 digest. */
  method HashOf(m: seq<Byte>) returns (r: string)
    requires |m| < TwoTo64
    ensures r == HexString(Md5Message.Md5(m))
  {
    var h := new Md5Hash();
    h.Update(m);
    assert h.Input == m;
    r := h.Finish();
  }

  /**
   * A fresh hasher fed the pieces in turn through the stream overload
   * yields the hex text of the MD5 digest of their concatenation.
   */
  method HashPieces(pieces: seq<seq<Byte>>) returns (r: string)
    requires forall i | 0 <= i < |pieces| :: |pieces[i]| <= ChunkSize
    ensures r == HexString(Md5Message.Md5(Concat(pieces)))
  {
    var h := new Md5Hash();
    for i := 0 to |pieces|
      invariant h.Valid() && fresh(h.Repr())
      invariant h.Base == InitialState && h.Input == Concat(pieces[..i]) && !h.finalized
    {
      h.UpdateFromStream(pieces[i]);
      ConcatSnoc(pieces, i);
    }
    assert pieces[..|pieces|] == pieces;
    r := h.Finish();
  }
}
