/** The stream layer of chacha20.c (RFC 7539 section 2.4): the buffer is
    exclusive-ored, 64 bytes at a time, with the serialised ChaCha20 block
    for counters 1, 2, 3, ..., and a final partial block uses only as many
    keystream bytes as are left. Decryption is the same operation. */
module Stream {
  import opened Words
  import opened Bytes
  import opened ChaCha20
  import opened CounterStream

  /** The ChaCha20 block function for one key and nonce, as a function of
      the counter. */
  function ChaCha20Blocks(key: seq<bv8>, nonce: seq<bv8>): (ks: u32 -> seq<bv8>)
    requires |key| == 32 && |nonce| == 12
    ensures IsBlockFn(ks)
    ensures forall c: u32 :: ks(c) == Keystream(key, c, nonce)
  {
    (c: u32) => Keystream(key, c, nonce)
  }

  /** The RFC's chacha20_encrypt(key, counter, nonce, plaintext). */
  function ChaCha20Encrypt(key: seq<bv8>, counter: u32, nonce: seq<bv8>, plaintext: seq<bv8>): (r: seq<bv8>)
    requires |key| == 32 && |nonce| == 12
    ensures |r| == |plaintext|
  {
    XorStream(ChaCha20Blocks(key, nonce), counter, plaintext)
  }

  /** Keystream byte `k` of a message whose first block uses `counter`. */
  function KeystreamByte(key: seq<bv8>, counter: u32, nonce: seq<bv8>, k: nat): bv8
    requires |key| == 32 && |nonce| == 12
  {
    StreamByte(ChaCha20Blocks(key, nonce), counter, k)
  }

  /** Keystream byte `64 i + j` is byte `j` of the serialised block for
      counter `counter + i`, modulo 2^32. */
  lemma KeystreamByteAt(key: seq<bv8>, counter: u32, nonce: seq<bv8>, i: nat, j: nat)
    requires |key| == 32 && |nonce| == 12 && j < 64
    ensures KeystreamByte(key, counter, nonce, 64 * i + j) == Keystream(key, (counter + i) % Modulus32, nonce)[j]
  {
    StreamByteAt(ChaCha20Blocks(key, nonce), counter, i, j);
  }

  /** Byte `k` of the cipher text is plaintext byte `k` exclusive-ored with
      keystream byte `k`. */
  lemma ChaCha20EncryptBytes(key: seq<bv8>, counter: u32, nonce: seq<bv8>, p: seq<bv8>)
    requires |key| == 32 && |nonce| == 12
    ensures forall k :: 0 <= k < |p| ==>
      ChaCha20Encrypt(key, counter, nonce, p)[k] == p[k] ^ KeystreamByte(key, counter, nonce, k)
  {
    XorStreamBytes(ChaCha20Blocks(key, nonce), counter, p);
  }

  /** Encrypting twice with the same key, nonce and counter gives the
      plaintext back. */
  lemma ChaCha20EncryptInvolution(key: seq<bv8>, counter: u32, nonce: seq<bv8>, p: seq<bv8>)
    requires |key| == 32 && |nonce| == 12
    ensures ChaCha20Encrypt(key, counter, nonce, ChaCha20Encrypt(key, counter, nonce, p)) == p
  {
    XorStreamInvolution(ChaCha20Blocks(key, nonce), counter, p);
  }

  /** The inner loops of the source's Encrypt: exclusive-ors the first `n`
      bytes of `block` into `data` starting at `offset`, leaving every other
      byte alone. */
  method XorInto(data: seq<bv8>, offset: nat, block: seq<bv8>, n: nat) returns (out: seq<bv8>)
    requires n <= |block| && offset + n <= |data|
    ensures |out| == |data|
    ensures forall j :: 0 <= j < n ==> out[offset + j] == data[offset + j] ^ block[j]
    ensures out[..offset] == data[..offset]
    ensures out[offset + n..] == data[offset + n..]
  {
    out := data;
    for j := 0 to n
      invariant |out| == |data|
      invariant forall m :: 0 <= m < j ==> out[offset + m] == data[offset + m] ^ block[m]
      invariant out[..offset] == data[..offset]
      invariant out[offset + j..] == data[offset + j..]
    {
      assert out[offset + j] == data[offset + j];
      out := out[offset + j := out[offset + j] ^ block[j]];
    }
  }

  /** One pass of the source's block loop: make the next block, which
      advances the counter, and exclusive-or its first `n` bytes into `data`
      at `offset`. */
  method XorNextBlock(st: CryptState, data: seq<bv8>, offset: nat, n: nat) returns (st': CryptState, out: seq<bv8>)
    requires st.Valid() && n <= 64 && offset + n <= |data|
    ensures st'.Valid() && st'.key == st.key && st'.nonce == st.nonce
    ensures st'.counter == (st.counter + 1) % Modulus32
    ensures XoredAt(data, out, offset, Keystream(st.key, st.counter, st.nonce), n)
  {
    st' := ChaCha20Block(st);
    var block := StoreLE(st'.ccState);
    out := XorInto(data, offset, block, n);
  }

  lemma CeilBlocks(size: nat)
    ensures size == 64 * (size / 64) + size % 64
  {
  }

  /** The number of blocks made, `size / 64` plus one for a partial block,
      is `ceil(size / 64)`. */
  lemma FinalCounter(size: nat, c: int)
    requires c == (1 + size / 64 + (if size % 64 != 0 then 1 else 0)) % Modulus32
    ensures c == (1 + (size + 63) / 64) % Modulus32
  {
  }

  /** One more block of the source's Encrypt: block `i` (counter `1 + i`)
      exclusive-ored into bytes `64 i` to `64 i + n - 1`, extending the
      encrypted prefix by `n` bytes. */
  method EncryptBlock(st: CryptState, data: seq<bv8>, out: seq<bv8>, i: nat, n: nat) returns (st': CryptState, out': seq<bv8>)
    requires st.Valid() && n <= 64 && 64 * i + n <= |data|
    requires st.counter == (1 + i) % Modulus32
    requires EncryptedUpTo(ChaCha20Blocks(st.key, st.nonce), 1, data, out, 64 * i)
    ensures st'.Valid() && st'.key == st.key && st'.nonce == st.nonce
    ensures st'.counter == (st.counter + 1) % Modulus32
    ensures EncryptedUpTo(ChaCha20Blocks(st.key, st.nonce), 1, data, out', 64 * i + n)
  {
    st', out' := XorNextBlock(st, out, 64 * i, n);
    EncryptedStep(ChaCha20Blocks(st.key, st.nonce), 1, data, out, out', i, Keystream(st.key, st.counter, st.nonce), n);
  }

  /** The source's loop over the full blocks: `size / 64` blocks from
      counter 1, leaving the state's counter one past the last. */
  method FullBlocks(data: seq<bv8>, size: nat, key: seq<bv8>, nonce: seq<bv8>) returns (st: CryptState, out: seq<bv8>)
    requires size <= |data| && |key| == 32 && |nonce| == 12
    ensures st.Valid() && st.key == key && st.nonce == nonce
    ensures st.counter == (1 + size / 64) % Modulus32
    ensures EncryptedUpTo(ChaCha20Blocks(key, nonce), 1, data, out, 64 * (size / 64))
  {
    st := CryptState(seq(16, _ => 0), key, nonce, 1);
    out := data;
    var i := 0;
    while i < size / 64
      invariant 0 <= i <= size / 64
      invariant st.Valid() && st.key == key && st.nonce == nonce
      invariant st.counter == (1 + i) % Modulus32
      invariant EncryptedUpTo(ChaCha20Blocks(key, nonce), 1, data, out, 64 * i)
    {
      st, out := EncryptBlock(st, data, out, i, 64);
      ModSucc(i, 1);
      i := i + 1;
    }
  }

  /** The source's Encrypt on the first `size` bytes of `data`, counter
      starting at 1: the `size / 64` full blocks, then, if `size` is not a
      multiple of 64, one more block of which only the first `size % 64`
      keystream bytes are used. `counter` is the state's counter at the
      end. */
  method Encrypt(data: seq<bv8>, size: nat, key: seq<bv8>, nonce: seq<bv8>) returns (out: seq<bv8>, counter: u32)
    requires size <= |data| && |key| == 32 && |nonce| == 12
    ensures |out| == |data|
    ensures forall k :: 0 <= k < size ==> out[k] == data[k] ^ KeystreamByte(key, 1, nonce, k)
    ensures out[size..] == data[size..]
    ensures out[..size] == ChaCha20Encrypt(key, 1, nonce, data[..size])
    ensures counter == (1 + (size + 63) / 64) % Modulus32
  {
    var st, full := FullBlocks(data, size, key, nonce);
    st, out := LastBlock(st, data, full, size);
    counter := st.counter;
    EncryptedPrefix(ChaCha20Blocks(key, nonce), 1, data, out, size);
  }

  /** The source's partial last block: when `size` is not a multiple of 64,
      one more block, of which only the first `size % 64` bytes are used.
      Afterwards `ceil(size / 64)` blocks have been made. */
  method LastBlock(st: CryptState, data: seq<bv8>, out: seq<bv8>, size: nat) returns (st': CryptState, out': seq<bv8>)
    requires st.Valid() && size <= |data|
    requires st.counter == (1 + size / 64) % Modulus32
    requires EncryptedUpTo(ChaCha20Blocks(st.key, st.nonce), 1, data, out, 64 * (size / 64))
    ensures st'.Valid() && st'.key == st.key && st'.nonce == st.nonce
    ensures st'.counter == (1 + (size + 63) / 64) % Modulus32
    ensures EncryptedUpTo(ChaCha20Blocks(st.key, st.nonce), 1, data, out', size)
  {
    st', out' := st, out;
    CeilBlocks(size);
    if size % 64 != 0 {
      st', out' := EncryptBlock(st, data, out, size / 64, size % 64);
      ModSucc(size / 64, 1);
    }
    FinalCounter(size, st'.counter);
  }

  /** chacha20.h defines Decrypt as Encrypt itself. */
  method Decrypt(data: seq<bv8>, size: nat, key: seq<bv8>, nonce: seq<bv8>) returns (out: seq<bv8>, counter: u32)
    requires size <= |data| && |key| == 32 && |nonce| == 12
    ensures |out| == |data|
    ensures forall k :: 0 <= k < size ==> out[k] == data[k] ^ KeystreamByte(key, 1, nonce, k)
    ensures out[size..] == data[size..]
    ensures out[..size] == ChaCha20Encrypt(key, 1, nonce, data[..size])
    ensures counter == (1 + (size + 63) / 64) % Modulus32
  {
    out, counter := Encrypt(data, size, key, nonce);
  }

  /** Decrypting, with the same key and nonce, what Encrypt produced gives
      back the original buffer. */
  method EncryptThenDecrypt(data: seq<bv8>, size: nat, key: seq<bv8>, nonce: seq<bv8>) returns (cipher: seq<bv8>, plain: seq<bv8>)
    requires size <= |data| && |key| == 32 && |nonce| == 12
    ensures |cipher| == |data|
    ensures cipher[..size] == ChaCha20Encrypt(key, 1, nonce, data[..size])
    ensures cipher[size..] == data[size..]
    ensures plain == data
  {
    var c1, c2;
    cipher, c1 := Encrypt(data, size, key, nonce);
    plain, c2 := Decrypt(cipher, size, key, nonce);
    EncryptedTwice(ChaCha20Blocks(key, nonce), 1, data, cipher, plain, size);
  }
}
