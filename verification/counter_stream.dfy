/** Encryption with a counter-indexed keystream, for any block function:
    the message is exclusive-ored, 64 bytes at a time, with the blocks for
    counters `counter`, `counter + 1`, ... (modulo 2^32), the last block
    possibly cut short. This is the loop of RFC 7539 section 2.4 with the
    block function left open; module Stream plugs ChaCha20 into it. */
module CounterStream {
  import opened Words

  /** A block function: 64 keystream bytes for every counter value. */
  predicate IsBlockFn(ks: u32 -> seq<bv8>) {
    forall c: u32 :: |ks(c)| == 64
  }

  /** Byte-wise exclusive or of two equally long byte strings. */
  function XorBytes(a: seq<bv8>, b: seq<bv8>): (r: seq<bv8>)
    requires |a| == |b|
    ensures |r| == |a|
  {
    seq(|a|, i requires 0 <= i < |a| => a[i] ^ b[i])
  }

  /** The RFC's chacha20_encrypt loop over the blocks of `p`: each 64-byte
      block, and the shorter last one, is exclusive-ored with the start of
      the block for the next counter value. */
  function XorStream(ks: u32 -> seq<bv8>, counter: u32, p: seq<bv8>): (r: seq<bv8>)
    requires IsBlockFn(ks)
    ensures |r| == |p|
    decreases |p|
  {
    if |p| == 0 then []
    else
      var n := if |p| < 64 then |p| else 64;
      assert |ks(counter)| == 64;
      XorBytes(p[..n], ks(counter)[..n]) + XorStream(ks, (counter + 1) % Modulus32, p[n..])
  }

  /** Keystream byte `k` of a message whose first block has counter
      `counter`: byte `k mod 64` of the block for `counter + k/64`, modulo 2^32. */
  function StreamByte(ks: u32 -> seq<bv8>, counter: u32, k: nat): bv8
    requires IsBlockFn(ks)
  {
    assert |ks((counter + k / 64) % Modulus32)| == 64;
    ks((counter + k / 64) % Modulus32)[k % 64]
  }

  lemma ModSucc(c: int, t: nat)
    ensures ((c + 1) % Modulus32 + t) % Modulus32 == (c + 1 + t) % Modulus32
  {
  }

  lemma BlockSplit(i: nat, j: nat)
    requires j < 64
    ensures (64 * i + j) / 64 == i && (64 * i + j) % 64 == j
  {
  }

  lemma NextBlock(counter: u32, t: nat)
    ensures (counter + (t + 64) / 64) % Modulus32 == ((counter + 1) % Modulus32 + t / 64) % Modulus32
    ensures (t + 64) % 64 == t % 64
  {
    assert (t + 64) / 64 == t / 64 + 1;
    ModSucc(counter, t / 64);
  }

  /** Byte `j` of block `i` of the stream is byte `j` of the block for
      counter `counter + i`. */
  lemma StreamByteAt(ks: u32 -> seq<bv8>, counter: u32, i: nat, j: nat)
    requires IsBlockFn(ks) && j < 64
    ensures |ks((counter + i) % Modulus32)| == 64
    ensures StreamByte(ks, counter, 64 * i + j) == ks((counter + i) % Modulus32)[j]
  {
    BlockSplit(i, j);
  }

  /** Moving on by one block is starting one counter value later. */
  lemma StreamByteNext(ks: u32 -> seq<bv8>, counter: u32, t: nat)
    requires IsBlockFn(ks)
    ensures StreamByte(ks, (counter + 1) % Modulus32, t) == StreamByte(ks, counter, t + 64)
  {
    NextBlock(counter, t);
  }

  /** Every byte of the output is the message byte at the same place
      exclusive-ored with the stream byte for that place: the block-wise loop
      and the byte-wise description agree. */
  lemma {:induction false} XorStreamBytes(ks: u32 -> seq<bv8>, counter: u32, p: seq<bv8>)
    requires IsBlockFn(ks)
    ensures forall k :: 0 <= k < |p| ==> XorStream(ks, counter, p)[k] == p[k] ^ StreamByte(ks, counter, k)
    decreases |p|
  {
    if |p| > 0 {
      var n := if |p| < 64 then |p| else 64;
      var c1: u32 := (counter + 1) % Modulus32;
      var r := XorStream(ks, counter, p);
      assert |ks(counter)| == 64;
      var head := XorBytes(p[..n], ks(counter)[..n]);
      var rest := XorStream(ks, c1, p[n..]);
      assert r == head + rest;
      XorStreamBytes(ks, c1, p[n..]);
      forall k | 0 <= k < |p|
        ensures r[k] == p[k] ^ StreamByte(ks, counter, k)
      {
        if k < n {
          StreamByteAt(ks, counter, 0, k);
          assert r[k] == head[k];
        } else {
          StreamByteNext(ks, counter, k - 64);
          assert r[k] == rest[k - 64];
        }
      }
    }
  }

  lemma XorTwice(x: bv8, y: bv8)
    ensures (x ^ y) ^ y == x
  {
  }

  /** Running the stream twice from the same counter gives the message
      back: decryption is encryption. */
  lemma XorStreamInvolution(ks: u32 -> seq<bv8>, counter: u32, p: seq<bv8>)
    requires IsBlockFn(ks)
    ensures XorStream(ks, counter, XorStream(ks, counter, p)) == p
  {
    var c := XorStream(ks, counter, p);
    var d := XorStream(ks, counter, c);
    XorStreamBytes(ks, counter, p);
    XorStreamBytes(ks, counter, c);
    forall k | 0 <= k < |p|
      ensures d[k] == p[k]
    {
      XorTwice(p[k], StreamByte(ks, counter, k));
    }
  }

  /** `out` is `data` with its first `m` bytes encrypted from `counter` on
      and the rest untouched. */
  ghost predicate EncryptedUpTo(ks: u32 -> seq<bv8>, counter: u32, data: seq<bv8>, out: seq<bv8>, m: nat)
    requires IsBlockFn(ks)
  {
    && |out| == |data| && m <= |data|
    && (forall k :: 0 <= k < m ==> out[k] == data[k] ^ StreamByte(ks, counter, k))
    && out[m..] == data[m..]
  }

  /** `out` is `data` with the first `n` bytes of `block` exclusive-ored in
      at `offset`, and every other byte unchanged. */
  ghost predicate XoredAt(data: seq<bv8>, out: seq<bv8>, offset: nat, block: seq<bv8>, n: nat) {
    && |out| == |data| && offset + n <= |data| && n <= |block|
    && (forall j :: 0 <= j < n ==> out[offset + j] == data[offset + j] ^ block[j])
    && out[..offset] == data[..offset]
    && out[offset + n..] == data[offset + n..]
  }

  /** Exclusive-oring the first `n` bytes of block `i` into a buffer whose
      first `i` blocks are done extends the encrypted prefix by `n` bytes. */
  lemma EncryptedStep(ks: u32 -> seq<bv8>, counter: u32, data: seq<bv8>, before: seq<bv8>, out: seq<bv8>,
                      i: nat, block: seq<bv8>, n: nat)
    requires IsBlockFn(ks) && n <= 64
    requires EncryptedUpTo(ks, counter, data, before, 64 * i)
    requires block == ks((counter + i) % Modulus32)
    requires XoredAt(before, out, 64 * i, block, n)
    ensures EncryptedUpTo(ks, counter, data, out, 64 * i + n)
  {
    forall k | 0 <= k < 64 * i + n
      ensures out[k] == data[k] ^ StreamByte(ks, counter, k)
    {
      if k < 64 * i {
        assert out[k] == out[..64 * i][k];
        assert before[k] == before[..64 * i][k];
      } else {
        var j := k - 64 * i;
        StreamByteAt(ks, counter, i, j);
        assert before[k] == before[64 * i..][j];
        assert out[k] == before[k] ^ block[j];
      }
    }
    assert out[64 * i + n..] == data[64 * i..][n..];
  }

  /** A buffer encrypted up to `m` holds the stream encryption of the
      message's first `m` bytes there. */
  lemma EncryptedPrefix(ks: u32 -> seq<bv8>, counter: u32, data: seq<bv8>, out: seq<bv8>, m: nat)
    requires IsBlockFn(ks) && EncryptedUpTo(ks, counter, data, out, m)
    ensures out[..m] == XorStream(ks, counter, data[..m])
  {
    XorStreamBytes(ks, counter, data[..m]);
  }

  /** Encrypting what was encrypted, with the same stream, gives the
      message back. */
  lemma EncryptedTwice(ks: u32 -> seq<bv8>, counter: u32, data: seq<bv8>, cipher: seq<bv8>, plain: seq<bv8>, m: nat)
    requires IsBlockFn(ks)
    requires EncryptedUpTo(ks, counter, data, cipher, m) && EncryptedUpTo(ks, counter, cipher, plain, m)
    ensures plain == data
  {
    forall k | 0 <= k < m
      ensures plain[k] == data[k]
    {
      XorTwice(data[k], StreamByte(ks, counter, k));
    }
    assert plain == plain[..m] + plain[m..];
    assert data == data[..m] + data[m..];
  }
}
