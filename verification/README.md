# ChaCha20 stream cipher (RFC 7539)

A Dafny model of a small C implementation of the ChaCha20 stream cipher:

- the 32-bit left rotation `rol`;
- the quarter round on four words of the 16-word state;
- the block function `ChaCha20Block`. It lays out the state from the
  constants, key, counter and nonce, mixes a working copy with ten
  double-rounds, adds the copy back, and advances the counter;
- the in-place `Encrypt`. It exclusive-ors a buffer, 64 bytes at a time,
  with keystream blocks for counters 1, 2, 3, .... A final partial block
  uses only as many keystream bytes as remain;
- the `Decrypt` macro, which is `Encrypt` itself;
- the stand-alone quarter-round test program of `main.c`, with its own
  copy of `rol` and `QuarterRound`.

Modules, in dependency order:

| file | module | contents |
|---|---|---|
| words.dfy | `Words` | `u32` counters and the `bv32` word operations: `Add`, `Xor`, `Rol`, and the identities that undo them |
| bytes.dfy | `Bytes` | little-endian conversion between bytes and words: `LoadLE` stands for the word-wise `memcpy`, `StoreLE` for reading the words through a byte pointer |
| chacha20.dfy | `ChaCha20` | `QR`, `QuarterRound`, `DoubleRound`, `Rounds`, `InitialState`, `FeedForward`, `Keystream` as functions; the C `ChaCha20Block` as methods |
| counter_stream.dfy | `CounterStream` | exclusive-or with a counter-indexed keystream, for any block function; the facts the encryption loop needs |
| stream.dfy | `Stream` | `ChaCha20Encrypt`, the RFC's `chacha20_encrypt`, and the C `Encrypt`/`Decrypt` as methods, proved equal to it |
| main_test.dfy | `MainTest` | `main.c`'s `CryptState`, its `QuarterRound`, and the known-answer check of section 2.2.1 of RFC 7539 |
| test_vectors.dfy | `TestVectors` | the quarter-round vector of section 2.1.1 and the block-function vector of section 2.3.2 of RFC 7539, proved about the model |

The C code is written both ways:

- The functions (`ChaCha20BlockWords`, `Keystream`, `ChaCha20Encrypt`) follow
  the RFC's pseudocode. They are the reference definitions.
- The methods (`SetUp`, `MixRounds`, `AddBack`, `ChaCha20Block`, `Encrypt`)
  follow the C statements and loops. Their contracts tie them to the
  reference definitions.

State words are `bv32`, so `+=` wraps modulo 2^32 exactly as `uint32_t` does.
The block counter is a `u32` integer. Its `counter++` is written out as
`(counter + 1) % 2^32`. It becomes a `bv32` only when it is placed in word 12.

The byte order of the key and nonce loads (`memcpy` into `uint32_t` words) and
of the keystream (a `uint8_t*` cast of the word array) depends on the host in C.
The model uses the little-endian order RFC 7539 requires, which is what the C
code gives on a little-endian host.

The C `Encrypt` works in place on a buffer of at least `size` bytes. The model
takes the buffer as a sequence and returns the new contents. It also returns
the counter left in the cipher state, so that the number of blocks made can be
stated.

## Model

| member | source | states |
|---|---|---|
| Words.Rol | chacha20.c:40-42 | the C `rol(n, x)`: `n << x` or-ed with `n >> (32 - x)` on a 32-bit word (main.c:4-6 is the same text); it requires the amount strictly between 0 and 32, where both C shifts are defined |
| Words.AddIsModular | chacha20.c:57-59 | `Add` is addition of the two words as integers, reduced modulo 2^32 |
| Words.RolBits | chacha20.c:40-42 | `rol(n, x)` for `0 < x < 32` is a left rotation: bit `i` of the result is bit `(i - x) mod 32` of `n`, so no bit is lost |
| Words.RolUndo | chacha20.c:40-42 | for the amounts 16, 12, 8 and 7, rotating by `x` and then by `32 - x`, in either order, gives the word back |
| Bytes.LoadLE | chacha20.c:103-105 | the `memcpy` of key or nonce bytes into state words on a little-endian host: one word per four bytes, word `i` being bytes `4i` to `4i + 3` with byte `4i` least significant |
| Bytes.StoreLE | chacha20.c:194 | reading the word array through a byte pointer on a little-endian host: four bytes per word, byte `4i + j` being byte `j` of word `i`, least significant first |
| Bytes.LoadStore | chacha20.c:202 | loading little-endian words from the bytes that storing produced gives the words back |
| Bytes.StoreLoad | chacha20.c:103-114 | storing the words that loading produced gives the bytes back, so the little-endian load of key and nonce loses nothing |
| ChaCha20.QR | chacha20.c:67-84 | the four add-xor-rotate steps of the quarter round on the words `a, b, c, d`, with rotations by 16, 12, 8 and 7 |
| ChaCha20.QRInverse | chacha20.c:67-84 | the four add-xor-rotate steps are a bijection on four words: `InvQR` undoes `QR` and `QR` undoes `InvQR` |
| ChaCha20.QuarterRound | chacha20.c:48-90 | the quarter round on the state writes only words `p1..p4`; the other twelve are unchanged; with four distinct indices the four words become `QR` of the old ones |
| ChaCha20.QuarterRoundInverse | chacha20.c:48-90 | with four distinct indices the in-place quarter round is a permutation of the state: the inverse quarter round restores every word |
| ChaCha20.DoubleRound | chacha20.c:146-153 | one pass of the mixing loop: quarter rounds on the four columns, then on the four diagonals; the result is again a 16-word state |
| ChaCha20.DoubleRoundInverse | chacha20.c:145-154 | a double-round is invertible: the eight inverse quarter rounds in reverse order restore the state |
| ChaCha20.Rounds | chacha20.c:145-154 | `n` passes of the mixing loop applied to the working state; the result is again a 16-word state |
| ChaCha20.FeedForward | chacha20.c:156-158 | `state += working_state`: the 16-word sum, word by word modulo 2^32, of the initial and the mixed state |
| ChaCha20.InitialState | chacha20.c:98-114 | the initial state has words 0-3 equal to `0x61707865, 0x3320646e, 0x79622d32, 0x6b206574`, words 4-11 the key as little-endian words, word 12 the counter, and words 13-15 the nonce as little-endian words |
| ChaCha20.InitialStateKeyNonce | chacha20.c:103-114 | serialising words 4-11 of the initial state gives the key back, and words 13-15 give the nonce back |
| ChaCha20.ChaCha20BlockWords | chacha20.c:131-139 | the RFC's `chacha20_block` before serialisation: the initial state for key, counter and nonce plus ten double-rounds of it, 16 words |
| ChaCha20.Keystream | chacha20.c:193-194 | the 64 keystream bytes of one block: the block words serialised little-endian |
| ChaCha20.KeystreamWords | chacha20.c:201-202 | the keystream bytes of a block, read back as little-endian words, are the block words, so the byte view of the state loses nothing |
| ChaCha20.SetUp | chacha20.c:98-114 | the C set-up overwrites the whole array: whatever the array held before, the result is the initial state for the state's key, counter and nonce |
| ChaCha20.MixRounds | chacha20.c:142-154 | the C loop of ten passes of column and diagonal quarter rounds computes `Rounds(init, 10)`, ten double-rounds |
| ChaCha20.AddBack | chacha20.c:156-158 | the word-by-word `+=` loop computes the feed-forward sum of the initial and mixed states |
| ChaCha20.BlockWords | chacha20.c:92-158 | set-up, mixing and feed-forward leave in the array the RFC block `ChaCha20BlockWords(key, counter, nonce)` |
| ChaCha20.ChaCha20Block | chacha20.c:92-161 | the block function leaves the RFC block for the counter on entry in the array; it keeps key and nonce and advances the counter by one modulo 2^32 |
| CounterStream.XorStream | chacha20.c:177-190 | the RFC's `chacha20_encrypt` loop for any block function: each 64-byte block of the message, and the shorter last one, exclusive-ored with the start of the block for the next counter; the output is as long as the input |
| CounterStream.XorStreamBytes | chacha20.c:192-206 | byte `k` of the keystream encryption is plaintext byte `k` exclusive-ored with byte `k mod 64` of the block for counter `counter + k/64` (modulo 2^32) |
| CounterStream.XorStreamInvolution | chacha20.h:11 | exclusive-oring twice with the same keystream gives the plaintext back |
| CounterStream.EncryptedStep | chacha20.c:195-197 | exclusive-oring block `i` into bytes `64 i` to `64 i + n - 1` extends the encrypted prefix by `n` bytes and leaves the rest of the buffer alone |
| CounterStream.EncryptedPrefix | chacha20.c:192-206 | a buffer encrypted up to byte `m` holds, in its first `m` bytes, the keystream encryption of the first `m` plaintext bytes |
| CounterStream.EncryptedTwice | chacha20.h:11 | encrypting the first `m` bytes and then encrypting the result again gives back the original buffer |
| Stream.ChaCha20Encrypt | chacha20.c:177-190 | `chacha20_encrypt(key, counter, nonce, plaintext)` with the ChaCha20 block function; the cipher text is as long as the plaintext |
| Stream.KeystreamByteAt | chacha20.c:193-196 | keystream byte `64 i + j` is byte `j` of the serialised ChaCha20 block for counter `counter + i` modulo 2^32 |
| Stream.ChaCha20EncryptBytes | chacha20.c:192-206 | byte `k` of the RFC encryption is plaintext byte `k` exclusive-ored with keystream byte `k` |
| Stream.ChaCha20EncryptInvolution | chacha20.h:11 | encrypting twice with the same key, nonce and starting counter gives the plaintext back |
| Stream.XorInto | chacha20.c:195-197 | the inner loop exclusive-ors the first `n` block bytes into the buffer at `offset` and changes no other byte |
| Stream.XorNextBlock | chacha20.c:193-197 | one pass of the loop makes the block for the current counter, exclusive-ors its first `n` bytes in at `offset`, and advances the counter by one |
| Stream.EncryptBlock | chacha20.c:192-205 | block `i`, made with counter `1 + i`, extends the encrypted prefix from `64 i` to `64 i + n` bytes |
| Stream.FullBlocks | chacha20.c:192-198 | the full-block loop encrypts the first `64 (size / 64)` bytes and leaves the counter at `1 + size / 64` modulo 2^32 |
| Stream.LastBlock | chacha20.c:200-206 | when `size` is not a multiple of 64, one more block is made and only its first `size % 64` bytes are exclusive-ored in, so the first `size` bytes are encrypted and the counter ends at `1 + ceil(size / 64)` modulo 2^32 |
| Stream.Encrypt | chacha20.c:163-207 | every byte `k < size` becomes the original byte exclusive-ored with byte `k mod 64` of the block for counter `1 + k/64`; bytes from `size` on are untouched, so `size = 0` changes nothing; the first `size` bytes are the RFC encryption with starting counter 1; `ceil(size / 64)` blocks are made, so the counter ends at `1 + ceil(size / 64)` modulo 2^32 |
| Stream.Decrypt | chacha20.h:11 | `Decrypt` is `Encrypt`: the same byte mapping with starting counter 1, the same untouched tail, and the same final counter |
| Stream.EncryptThenDecrypt | chacha20.h:11 | `Encrypt` turns the first `size` bytes into their RFC encryption from counter 1 and keeps the rest; decrypting that, with the same key and nonce, gives back the original buffer |
| MainTest.QuarterRound | main.c:18-53 | `main.c`'s quarter round changes the 16 words exactly as `chacha20.c`'s does, writes only words `p1..p4`, and leaves `rounds` alone |
| MainTest.StateQuarterRoundVector | main.c:65-70 | the quarter round on words 2, 7, 8 and 13 of the main.c state gives the whole state RFC 7539 section 2.2.1 lists, including the four words the flag checks |
| MainTest.QuarterRoundTest | main.c:56-70 | the test state after one quarter round on words 2, 7, 8 and 13 is the state section 2.2.1 of RFC 7539 lists, so the flag is 1 |
| TestVectors.WordQuarterRoundVector | chacha20.c:67-84 | the quarter round maps the four words of section 2.1.1 of RFC 7539 to the four words listed there |
| TestVectors.InitialStateVector | chacha20.c:98-114 | the key `00..1f`, counter 1 and nonce `00 00 00 09 00 00 00 4a 00 00 00 00` give the initial state of section 2.3.2 of RFC 7539 |
| TestVectors.Rounds10 | chacha20.c:145-154 | ten double-rounds on that state give the mixed state of section 2.3.2 |
| TestVectors.FeedForwardVector | chacha20.c:156-158 | adding the mixed state back gives the block words of section 2.3.2 |
| TestVectors.BlockVector | chacha20.c:92-158 | the block function on the section 2.3.2 inputs gives the block words listed there |

## Left out

- The fallback `memcpy` (chacha20.c:7-19): each copy is a sequence slice or assignment.
- Host byte order: the `memcpy` loads (chacha20.c:105, 114) and the byte-pointer casts (chacha20.c:194, 202) are modelled with explicit little-endian order. A big-endian host would not get RFC 7539 output from the C code.
- `AddBlockCount` (chacha20.c:44-46): it is never called.
- The empty `MakeCryptState` stub (main.c:13-15).
- The `printf` and process exit of `main` (main.c:72-73): these are I/O. `MainTest.QuarterRoundTest` returns the flag instead.
- The thread-safety remark (chacha20.c:25-26): it is about concurrency.
- A one-time authenticator key and a Poly1305 tag: the C files contain no such code.
- `main.c`'s `rol` (main.c:4-6) has the same text as `chacha20.c`'s. Both are modelled by `Words.Rol`.
- The `CryptState` that `Encrypt` declares without initialising its array: the model starts it with zeros. `ChaCha20.SetUp` shows the old contents do not matter.
- `Encrypt` and `Decrypt` return the final counter and the new buffer. The C functions return nothing and change the buffer in place.
- Stream.Encrypt: `size` is an unbounded natural number rather than a `uint64_t`, and the block index is not the C `int64_t`. Sizes near 2^63 bytes are not modelled.
- Words.Rol: the amount is a `bv32` between 1 and 31, not the C `uint8_t`. The C code only ever passes 16, 12, 8 and 7.
- Words.Rol: no ensures of its own. `Words.RolBits` states that it is a rotation and `Words.RolUndo` that it can be undone.
- ChaCha20.QR: no ensures of its own. `ChaCha20.QRInverse` states that it is a bijection and `ChaCha20.QuarterRound` that the in-place quarter round writes it.
- ChaCha20.DoubleRound: its contract states only the 16-word length. `ChaCha20.DoubleRoundInverse` states that it is a permutation, and `ChaCha20.MixRounds` that the C loop computes it.
- ChaCha20.Rounds: its contract states only the 16-word length. `ChaCha20.MixRounds` and `TestVectors.Rounds10` are proved against it.
- ChaCha20.FeedForward: its contract states only the 16-word length. `ChaCha20.AddBack` proves that the C `+=` loop computes it.
- ChaCha20.ChaCha20BlockWords: it is the reference definition and its contract states only the 16-word length. `ChaCha20.ChaCha20Block` and `TestVectors.BlockVector` are proved against it.
- ChaCha20.Keystream: its contract states only the 64-byte length. The byte order is the one `Bytes.StoreLE` states, and `ChaCha20.KeystreamWords` states the round trip.
- CounterStream.XorStream: its contract states only the length. `CounterStream.XorStreamBytes` states the byte mapping and `CounterStream.XorStreamInvolution` the round trip.
- Stream.ChaCha20Encrypt: its contract states only the length. `Stream.ChaCha20EncryptBytes` states the byte mapping and `Stream.ChaCha20EncryptInvolution` the round trip.
- Words.RolUndo: stated only for the four rotation amounts the quarter round uses.
- ChaCha20.DoubleRoundInverse: invertibility is stated per double-round. The inverse of all ten double-rounds is not stated as one lemma.
- The serialised 64-byte keystream of section 2.3.2 and the encryption vector of section 2.4.2 of RFC 7539 are not included. The vectors stop at the 16 block words. Serialisation is covered by `Bytes.LoadStore`, `Bytes.StoreLoad` and the byte order `StoreLE` states.
- The 32-bit counter wraps after 2^32 blocks, as the C `counter++` does, and the keystream then repeats. The code has no check for this, and the model records the wrap rather than a limit.
