/** The ChaCha20 block function of chacha20.c (RFC 7539 sections 2.1 to 2.3):
    the 32-bit rotation, the quarter round, the layout of the 16-word state,
    the ten double-rounds, the feed-forward addition and the counter step. */
module ChaCha20 {
  import opened Bytes
  import opened Words

  /** The four words a, b, c, d a quarter round works on. */
  datatype Quad = Quad(a: bv32, b: bv32, c: bv32, d: bv32)

  /** The quarter round on four words (RFC 7539 section 2.1), "+" being
      addition modulo 2^32:
        a += b; d ^= a; d <<<= 16;
        c += d; b ^= c; b <<<= 12;
        a += b; d ^= a; d <<<= 8;
        c += d; b ^= c; b <<<= 7; */
  function QR(q: Quad): Quad {
    var a1 := Add(q.a, q.b);
    var d1 := Rol(Xor(q.d, a1), 16);
    var c1 := Add(q.c, d1);
    var b1 := Rol(Xor(q.b, c1), 12);
    var a2 := Add(a1, b1);
    var d2 := Rol(Xor(d1, a2), 8);
    var c2 := Add(c1, d2);
    var b2 := Rol(Xor(b1, c2), 7);
    Quad(a2, b2, c2, d2)
  }

  /** The quarter round's steps undone, last step first. */
  function InvQR(q: Quad): Quad {
    var b1 := Xor(Rol(q.b, 25), q.c);
    var c1 := Sub(q.c, q.d);
    var d1 := Xor(Rol(q.d, 24), q.a);
    var a1 := Sub(q.a, b1);
    var b0 := Xor(Rol(b1, 20), c1);
    var c0 := Sub(c1, d1);
    var d0 := Xor(Rol(d1, 16), a1);
    var a0 := Sub(a1, b0);
    Quad(a0, b0, c0, d0)
  }

  /** The quarter round is a bijection on four words: InvQR undoes it and it
      undoes InvQR. */
  lemma QRInverse(q: Quad)
    ensures InvQR(QR(q)) == q
    ensures QR(InvQR(q)) == q
  {
    InvQRUndoesQR(q);
    QRUndoesInvQR(q);
  }

  lemma InvQRUndoesQR(q: Quad)
    ensures InvQR(QR(q)) == q
  {
    var a1 := Add(q.a, q.b);
    var d1 := Rol(Xor(q.d, a1), 16);
    var c1 := Add(q.c, d1);
    var b1 := Rol(Xor(q.b, c1), 12);
    var a2 := Add(a1, b1);
    var d2 := Rol(Xor(d1, a2), 8);
    var c2 := Add(c1, d2);
    // Undo step 4, then steps 3, 2 and 1.
    RolUndo(Xor(b1, c2), 7);
    XorXor(b1, c2);
    AddSub(c1, d2);
    RolUndo(Xor(d1, a2), 8);
    XorXor(d1, a2);
    AddSub(a1, b1);
    RolUndo(Xor(q.b, c1), 12);
    XorXor(q.b, c1);
    AddSub(q.c, d1);
    RolUndo(Xor(q.d, a1), 16);
    XorXor(q.d, a1);
    AddSub(q.a, q.b);
  }

  lemma QRUndoesInvQR(q: Quad)
    ensures QR(InvQR(q)) == q
  {
    var b1 := Xor(Rol(q.b, 25), q.c);
    var c1 := Sub(q.c, q.d);
    var d1 := Xor(Rol(q.d, 24), q.a);
    var a1 := Sub(q.a, b1);
    var b0 := Xor(Rol(b1, 20), c1);
    var c0 := Sub(c1, d1);
    var d0 := Xor(Rol(d1, 16), a1);
    var a0 := Sub(a1, b0);
    // Redo step 1, then steps 2, 3 and 4.
    AddSub(a1, b0);
    XorXor(Rol(d1, 16), a1);
    RolUndo(d1, 16);
    AddSub(c1, d1);
    XorXor(Rol(b1, 20), c1);
    RolUndo(b1, 12);
    AddSub(q.a, b1);
    XorXor(Rol(q.d, 24), q.a);
    RolUndo(q.d, 8);
    AddSub(q.c, q.d);
    XorXor(Rol(q.b, 25), q.c);
    RolUndo(q.b, 7);
  }

  /** Four state indices that name four different words. */
  predicate Distinct(p1: nat, p2: nat, p3: nat, p4: nat) {
    p1 != p2 && p1 != p3 && p1 != p4 && p2 != p3 && p2 != p4 && p3 != p4
  }

  /** The quarter round applied in place to words p1, p2, p3, p4 of a 16-word
      state: the four words are read, mixed, and written back in the order
      p1, p2, p3, p4 (so a repeated index keeps the last write, as in C). */
  function QuarterRound(s: seq<bv32>, p1: nat, p2: nat, p3: nat, p4: nat): (r: seq<bv32>)
    requires |s| == 16 && p1 < 16 && p2 < 16 && p3 < 16 && p4 < 16
    ensures |r| == 16
    ensures forall i :: 0 <= i < 16 && i != p1 && i != p2 && i != p3 && i != p4 ==> r[i] == s[i]
    ensures Distinct(p1, p2, p3, p4) ==>
      Quad(r[p1], r[p2], r[p3], r[p4]) == QR(Quad(s[p1], s[p2], s[p3], s[p4]))
  {
    var q := QR(Quad(s[p1], s[p2], s[p3], s[p4]));
    s[p1 := q.a][p2 := q.b][p3 := q.c][p4 := q.d]
  }

  /** The inverse quarter round on words p1, p2, p3, p4. */
  function InvQuarterRound(s: seq<bv32>, p1: nat, p2: nat, p3: nat, p4: nat): (r: seq<bv32>)
    requires |s| == 16 && p1 < 16 && p2 < 16 && p3 < 16 && p4 < 16
    ensures |r| == 16
  {
    var q := InvQR(Quad(s[p1], s[p2], s[p3], s[p4]));
    s[p1 := q.a][p2 := q.b][p3 := q.c][p4 := q.d]
  }

  /** On four distinct indices the quarter round is a permutation of the
      state: its inverse restores the state, whatever the other twelve words. */
  lemma QuarterRoundInverse(s: seq<bv32>, p1: nat, p2: nat, p3: nat, p4: nat)
    requires |s| == 16 && p1 < 16 && p2 < 16 && p3 < 16 && p4 < 16
    requires Distinct(p1, p2, p3, p4)
    ensures InvQuarterRound(QuarterRound(s, p1, p2, p3, p4), p1, p2, p3, p4) == s
  {
    var q := Quad(s[p1], s[p2], s[p3], s[p4]);
    QRInverse(q);
    var r := InvQuarterRound(QuarterRound(s, p1, p2, p3, p4), p1, p2, p3, p4);
    assert forall i :: 0 <= i < 16 ==> r[i] == s[i];
  }

  /** One double-round (the RFC's "inner_block"): the four column quarter
      rounds, then the four diagonal ones. */
  function DoubleRound(s: seq<bv32>): (r: seq<bv32>)
    requires |s| == 16
    ensures |r| == 16
  {
    var s1 := QuarterRound(s, 0, 4, 8, 12);
    var s2 := QuarterRound(s1, 1, 5, 9, 13);
    var s3 := QuarterRound(s2, 2, 6, 10, 14);
    var s4 := QuarterRound(s3, 3, 7, 11, 15);
    var s5 := QuarterRound(s4, 0, 5, 10, 15);
    var s6 := QuarterRound(s5, 1, 6, 11, 12);
    var s7 := QuarterRound(s6, 2, 7, 8, 13);
    QuarterRound(s7, 3, 4, 9, 14)
  }

  /** The eight inverse quarter rounds of a double-round, in reverse order. */
  function InvDoubleRound(s: seq<bv32>): (r: seq<bv32>)
    requires |s| == 16
    ensures |r| == 16
  {
    var s7 := InvQuarterRound(s, 3, 4, 9, 14);
    var s6 := InvQuarterRound(s7, 2, 7, 8, 13);
    var s5 := InvQuarterRound(s6, 1, 6, 11, 12);
    var s4 := InvQuarterRound(s5, 0, 5, 10, 15);
    var s3 := InvQuarterRound(s4, 3, 7, 11, 15);
    var s2 := InvQuarterRound(s3, 2, 6, 10, 14);
    var s1 := InvQuarterRound(s2, 1, 5, 9, 13);
    InvQuarterRound(s1, 0, 4, 8, 12)
  }

  /** A double-round is a permutation of the 16-word state. */
  lemma DoubleRoundInverse(s: seq<bv32>)
    requires |s| == 16
    ensures InvDoubleRound(DoubleRound(s)) == s
  {
    var s1 := QuarterRound(s, 0, 4, 8, 12);
    var s2 := QuarterRound(s1, 1, 5, 9, 13);
    var s3 := QuarterRound(s2, 2, 6, 10, 14);
    var s4 := QuarterRound(s3, 3, 7, 11, 15);
    var s5 := QuarterRound(s4, 0, 5, 10, 15);
    var s6 := QuarterRound(s5, 1, 6, 11, 12);
    var s7 := QuarterRound(s6, 2, 7, 8, 13);
    QuarterRoundInverse(s, 0, 4, 8, 12);
    QuarterRoundInverse(s1, 1, 5, 9, 13);
    QuarterRoundInverse(s2, 2, 6, 10, 14);
    QuarterRoundInverse(s3, 3, 7, 11, 15);
    QuarterRoundInverse(s4, 0, 5, 10, 15);
    QuarterRoundInverse(s5, 1, 6, 11, 12);
    QuarterRoundInverse(s6, 2, 7, 8, 13);
    QuarterRoundInverse(s7, 3, 4, 9, 14);
  }

  /** ChaCha20 runs 20 rounds: ten double-rounds. */
  const DoubleRoundCount: nat := 10

  /** `n` double-rounds applied to `s`. */
  function Rounds(s: seq<bv32>, n: nat): (r: seq<bv32>)
    requires |s| == 16
    ensures |r| == 16
  {
    if n == 0 then s else DoubleRound(Rounds(s, n - 1))
  }

  /** The four constant words, "expand 32-byte k" read little-endian. */
  const Sigma: seq<bv32> := [0x61707865, 0x3320646e, 0x79622d32, 0x6b206574]

  /** The state the block function starts from (RFC 7539 section 2.3): the
      constants, the key as eight little-endian words, the counter, and the
      nonce as three little-endian words. */
  function InitialState(key: seq<bv8>, counter: u32, nonce: seq<bv8>): (r: seq<bv32>)
    requires |key| == 32 && |nonce| == 12
    ensures |r| == 16
    ensures r[0] == 0x61707865 && r[1] == 0x3320646e && r[2] == 0x79622d32 && r[3] == 0x6b206574
    ensures forall i :: 0 <= i < 8 ==> r[4 + i] == LEWord(key, i)
    ensures r[12] == counter as bv32
    ensures forall i :: 0 <= i < 3 ==> r[13 + i] == LEWord(nonce, i)
  {
    Sigma + LoadLE(key) + [counter as bv32] + LoadLE(nonce)
  }

  /** The initial state word by word, as RFC 7539 section 2.3 draws it. */
  lemma InitialStateWords(key: seq<bv8>, counter: u32, nonce: seq<bv8>)
    requires |key| == 32 && |nonce| == 12
    ensures InitialState(key, counter, nonce) == [
      0x61707865, 0x3320646e, 0x79622d32, 0x6b206574,
      LEWord(key, 0), LEWord(key, 1), LEWord(key, 2), LEWord(key, 3),
      LEWord(key, 4), LEWord(key, 5), LEWord(key, 6), LEWord(key, 7),
      counter as bv32, LEWord(nonce, 0), LEWord(nonce, 1), LEWord(nonce, 2)]
  {
  }

  /** The layout loses nothing: the key and the nonce are the serialised
      words 4-11 and 13-15 of the initial state. */
  lemma InitialStateKeyNonce(key: seq<bv8>, counter: u32, nonce: seq<bv8>)
    requires |key| == 32 && |nonce| == 12
    ensures StoreLE(InitialState(key, counter, nonce)[4..12]) == key
    ensures StoreLE(InitialState(key, counter, nonce)[13..16]) == nonce
  {
    var s := InitialState(key, counter, nonce);
    assert s[4..12] == LoadLE(key);
    assert s[13..16] == LoadLE(nonce);
    StoreLoad(key);
    StoreLoad(nonce);
  }

  /** The RFC's chacha20_block before serialisation: the initial state plus,
      word by word modulo 2^32, the result of ten double-rounds on it. */
  function ChaCha20BlockWords(key: seq<bv8>, counter: u32, nonce: seq<bv8>): (r: seq<bv32>)
    requires |key| == 32 && |nonce| == 12
    ensures |r| == 16
  {
    var init := InitialState(key, counter, nonce);
    FeedForward(init, Rounds(init, DoubleRoundCount))
  }

  /** The block from a given initial state. */
  lemma ChaCha20BlockWordsOf(key: seq<bv8>, counter: u32, nonce: seq<bv8>, init: seq<bv32>)
    requires |key| == 32 && |nonce| == 12 && init == InitialState(key, counter, nonce)
    ensures ChaCha20BlockWords(key, counter, nonce) == FeedForward(init, Rounds(init, DoubleRoundCount))
  {
  }

  /** `state += working_state`: word-by-word addition modulo 2^32. */
  function FeedForward(init: seq<bv32>, mixed: seq<bv32>): (r: seq<bv32>)
    requires |init| == 16 && |mixed| == 16
    ensures |r| == 16
  {
    seq(16, i requires 0 <= i < 16 => Add(init[i], mixed[i]))
  }

  /** Word `i` of the feed-forward sum. */
  lemma FeedForwardWord(init: seq<bv32>, mixed: seq<bv32>, i: nat)
    requires |init| == 16 && |mixed| == 16 && i < 16
    ensures FeedForward(init, mixed)[i] == Add(init[i], mixed[i])
  {
  }

  /** Two 16-word states that agree word by word are equal. */
  lemma SameWords(r: seq<bv32>, d: seq<bv32>)
    requires |r| == 16 && |d| == 16
    requires r[0] == d[0] && r[1] == d[1] && r[2] == d[2] && r[3] == d[3]
    requires r[4] == d[4] && r[5] == d[5] && r[6] == d[6] && r[7] == d[7]
    requires r[8] == d[8] && r[9] == d[9] && r[10] == d[10] && r[11] == d[11]
    requires r[12] == d[12] && r[13] == d[13] && r[14] == d[14] && r[15] == d[15]
    ensures r == d
  {
    assert forall i :: 0 <= i < 16 ==> r[i] == d[i];
  }

  /** The 64 keystream bytes of one block: its 16 words serialised little-endian. */
  function Keystream(key: seq<bv8>, counter: u32, nonce: seq<bv8>): (r: seq<bv8>)
    requires |key| == 32 && |nonce| == 12
    ensures |r| == 64
  {
    StoreLE(ChaCha20BlockWords(key, counter, nonce))
  }

  /** Serialisation loses nothing: the keystream read back as little-endian
      words is the block. */
  lemma KeystreamWords(key: seq<bv8>, counter: u32, nonce: seq<bv8>)
    requires |key| == 32 && |nonce| == 12
    ensures LoadLE(Keystream(key, counter, nonce)) == ChaCha20BlockWords(key, counter, nonce)
  {
    LoadStore(ChaCha20BlockWords(key, counter, nonce));
  }

  /** The cipher state of chacha20.c: the 16-word array, the key, the nonce
      and the block counter. */
  datatype CryptState = CryptState(ccState: seq<bv32>, key: seq<bv8>, nonce: seq<bv8>, counter: u32) {
    predicate Valid() {
      |ccState| == 16 && |key| == 32 && |nonce| == 12
    }
  }

  /** The first half of the block function: the source overwrites the
      16-word array with the constants, the key, the counter and the nonce.
      Whatever the array held before, the result is the initial state. */
  method SetUp(st: CryptState) returns (cc: seq<bv32>)
    requires st.Valid()
    ensures cc == InitialState(st.key, st.counter, st.nonce)
  {
    var kw, nw := LoadLE(st.key), LoadLE(st.nonce);
    cc := st.ccState;
    cc := cc[0 := 0x61707865][1 := 0x3320646e][2 := 0x79622d32][3 := 0x6b206574];
    assert cc[..4] == Sigma;
    cc := cc[..4] + kw + cc[12..];
    assert cc[..12] == Sigma + kw;
    cc := cc[12 := st.counter as bv32];
    assert cc[..13] == Sigma + kw + [st.counter as bv32];
    cc := cc[..13] + nw;
  }

  /** Ten double-rounds on a working copy of the state, each written as the
      eight quarter rounds on columns and then diagonals. */
  method MixRounds(init: seq<bv32>) returns (working: seq<bv32>)
    requires |init| == 16
    ensures working == Rounds(init, DoubleRoundCount)
  {
    working := init;
    for i := 0 to DoubleRoundCount
      invariant working == Rounds(init, i)
    {
      working := QuarterRound(working, 0, 4, 8, 12);
      working := QuarterRound(working, 1, 5, 9, 13);
      working := QuarterRound(working, 2, 6, 10, 14);
      working := QuarterRound(working, 3, 7, 11, 15);
      working := QuarterRound(working, 0, 5, 10, 15);
      working := QuarterRound(working, 1, 6, 11, 12);
      working := QuarterRound(working, 2, 7, 8, 13);
      working := QuarterRound(working, 3, 4, 9, 14);
    }
  }

  /** Adds the mixed copy back into the state, one word at a time. */
  method AddBack(init: seq<bv32>, working: seq<bv32>) returns (cc: seq<bv32>)
    requires |init| == 16 && |working| == 16
    ensures cc == FeedForward(init, working)
  {
    cc := init;
    for i := 0 to 16
      invariant |cc| == 16
      invariant forall j :: 0 <= j < i ==> cc[j] == Add(init[j], working[j])
      invariant forall j :: i <= j < 16 ==> cc[j] == init[j]
    {
      cc := cc[i := Add(cc[i], working[i])];
    }
  }

  /** The block function as the source runs it: lay out the state, mix a
      working copy with ten double-rounds, add the copy back word by word, and
      advance the counter. The 16 words left in the state are the RFC block
      for the counter on entry, whatever the array held before; key and nonce
      are kept; the counter goes up by one, wrapping at 2^32. */
  method ChaCha20Block(st: CryptState) returns (r: CryptState)
    requires st.Valid()
    ensures r.Valid()
    ensures r.key == st.key && r.nonce == st.nonce
    ensures r.counter == (st.counter + 1) % Modulus32
    ensures r.ccState == ChaCha20BlockWords(st.key, st.counter, st.nonce)
  {
    var cc := BlockWords(st);
    r := CryptState(cc, st.key, st.nonce, (st.counter + 1) % Modulus32);
  }

  /** The 16 words the block function leaves in the state: set-up, mixing
      and feed-forward. */
  method BlockWords(st: CryptState) returns (cc: seq<bv32>)
    requires st.Valid()
    ensures cc == ChaCha20BlockWords(st.key, st.counter, st.nonce)
  {
    var init := SetUp(st);
    var working := MixRounds(init);
    cc := AddBack(init, working);
    ChaCha20BlockWordsOf(st.key, st.counter, st.nonce, init);
  }
}
