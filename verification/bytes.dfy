/** Little-endian conversion between bytes and 32-bit words.

    The cipher loads its key and nonce into state words with a word-wise
    memory copy, and hands out keystream bytes by reading the word array
    through a byte pointer. Both only give the byte order RFC 7539 requires
    (section 2.3: "reading the bytes in little-endian order, in 4-byte
    chunks") on a little-endian host. This module states that order
    explicitly, independently of any host.
 */
module Bytes {

  /** The word whose little-endian bytes are b0, b1, b2, b3 (b0 least significant). */
  function Word(b0: bv8, b1: bv8, b2: bv8, b3: bv8): bv32 {
    ((b0 as bv32) | ((b1 as bv32) << 8)) | (((b2 as bv32) << 16) | ((b3 as bv32) << 24))
  }

  /** Byte `i` of `w` in little-endian order: byte 0 is the least significant. */
  function ByteOf(w: bv32, i: nat): bv8
    requires i < 4
  {
    if i == 0 then (w & 0xff) as bv8
    else if i == 1 then ((w >> 8) & 0xff) as bv8
    else if i == 2 then ((w >> 16) & 0xff) as bv8
    else ((w >> 24) & 0xff) as bv8
  }

  /** Word `i` of `b` read little-endian: the word made of bytes 4i .. 4i+3. */
  function LEWord(b: seq<bv8>, i: nat): bv32
    requires 4 * i + 4 <= |b|
  {
    Word(b[4 * i], b[4 * i + 1], b[4 * i + 2], b[4 * i + 3])
  }

  /** Splitting a word into its four bytes and joining them again gives the word back. */
  lemma WordOfBytes(w: bv32)
    ensures Word(ByteOf(w, 0), ByteOf(w, 1), ByteOf(w, 2), ByteOf(w, 3)) == w
  {
    WordOfBytesRaw(w);
  }

  /** Joining four bytes into a word and reading its bytes gives the four bytes back. */
  lemma BytesOfWord(b0: bv8, b1: bv8, b2: bv8, b3: bv8)
    ensures ByteOf(Word(b0, b1, b2, b3), 0) == b0
    ensures ByteOf(Word(b0, b1, b2, b3), 1) == b1
    ensures ByteOf(Word(b0, b1, b2, b3), 2) == b2
    ensures ByteOf(Word(b0, b1, b2, b3), 3) == b3
  {
    BytesOfWordRaw(b0, b1, b2, b3);
  }

  // The two lemmas above, with the definitions written out, so that the
  // solver sees plain bit-vector formulas and no function axioms.

  lemma WordOfBytesRaw(w: bv32)
    ensures ((((w & 0xff) as bv8) as bv32) | (((((w >> 8) & 0xff) as bv8) as bv32) << 8))
          | ((((((w >> 16) & 0xff) as bv8) as bv32) << 16) | (((((w >> 24) & 0xff) as bv8) as bv32) << 24)) == w
  {
  }

  lemma BytesOfWordRaw(b0: bv8, b1: bv8, b2: bv8, b3: bv8)
    ensures var w := ((b0 as bv32) | ((b1 as bv32) << 8)) | (((b2 as bv32) << 16) | ((b3 as bv32) << 24));
      && (w & 0xff) as bv8 == b0
      && ((w >> 8) & 0xff) as bv8 == b1
      && ((w >> 16) & 0xff) as bv8 == b2
      && ((w >> 24) & 0xff) as bv8 == b3
  {
  }

  /** The bytes of word `i` read little-endian are bytes 4i to 4i+3. */
  lemma LEWordBytes(b: seq<bv8>, i: nat)
    requires 4 * i + 4 <= |b|
    ensures forall j :: 0 <= j < 4 ==> ByteOf(LEWord(b, i), j) == b[4 * i + j]
  {
    BytesOfWord(b[4 * i], b[4 * i + 1], b[4 * i + 2], b[4 * i + 3]);
  }

  /** Reads `b` as consecutive little-endian 4-byte words (a word-wise memory
      copy on a little-endian host). */
  function LoadLE(b: seq<bv8>): (w: seq<bv32>)
    requires |b| % 4 == 0
    ensures |w| * 4 == |b|
    ensures forall i :: 0 <= i < |w| ==> w[i] == LEWord(b, i)
  {
    seq(|b| / 4, i requires 0 <= i < |b| / 4 => LEWord(b, i))
  }

  /** Writes the words of `w` out as consecutive little-endian 4-byte groups
      (RFC 7539 section 2.3, "serialize"). */
  function StoreLE(w: seq<bv32>): (b: seq<bv8>)
    ensures |b| == 4 * |w| && |b| % 4 == 0
    ensures forall i, j :: 0 <= i < |w| && 0 <= j < 4 ==> b[4 * i + j] == ByteOf(w[i], j)
  {
    seq(4 * |w|, k requires 0 <= k < 4 * |w| => ByteOf(w[k / 4], k % 4))
  }

  /** Loading the bytes that storing produced gives the words back. */
  lemma LoadStore(w: seq<bv32>)
    ensures LoadLE(StoreLE(w)) == w
  {
    var b := StoreLE(w);
    var v := LoadLE(b);
    forall i | 0 <= i < |w|
      ensures v[i] == w[i]
    {
      assert v[i] == Word(b[4 * i], b[4 * i + 1], b[4 * i + 2], b[4 * i + 3]);
      assert b[4 * i] == ByteOf(w[i], 0);
      assert b[4 * i + 1] == ByteOf(w[i], 1);
      assert b[4 * i + 2] == ByteOf(w[i], 2);
      assert b[4 * i + 3] == ByteOf(w[i], 3);
      WordOfBytes(w[i]);
    }
  }

  /** Storing the words that loading produced gives the bytes back. */
  lemma StoreLoad(b: seq<bv8>)
    requires |b| % 4 == 0
    ensures StoreLE(LoadLE(b)) == b
  {
    var w := LoadLE(b);
    var c := StoreLE(w);
    forall k | 0 <= k < |b|
      ensures c[k] == b[k]
    {
      var i, j := k / 4, k % 4;
      assert k == 4 * i + j && i < |w|;
      LEWordBytes(b, i);
      assert ByteOf(LEWord(b, i), j) == b[k];
      assert w[i] == LEWord(b, i);
      assert c[k] == ByteOf(w[i], j);
    }
  }
}
