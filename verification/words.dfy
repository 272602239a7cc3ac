/** 32-bit word operations of the cipher: addition modulo 2^32, exclusive or
    and left rotation (RFC 7539 section 2.1), together with the word identities
    that make a quarter round invertible.

    Each operation is a named function rather than a bare operator so that the
    identities below are facts about the operations themselves; each identity
    is first proved on the bare bit-vector operators (the `...Raw` lemmas). */
module Words {

  /** A C `uint32_t` used as a counter. State words are `bv32`; a counter
      is an integer, so its wrap-around is written out. */
  type u32 = c: int | 0 <= c < 0x1_0000_0000

  const Modulus32: int := 0x1_0000_0000

  /** `x + y` modulo 2^32 (the C `+=` on `uint32_t`). */
  function Add(x: bv32, y: bv32): bv32 {
    x + y
  }

  /** `x - y` modulo 2^32; undoes Add. */
  function Sub(x: bv32, y: bv32): bv32 {
    x - y
  }

  /** Bitwise exclusive or (the C `^=`). */
  function Xor(x: bv32, y: bv32): bv32 {
    x ^ y
  }

  /** Left rotation by `x` bits, written as in C with two shifts. A shift by
      32 is undefined in C, so `x` is kept strictly between 0 and 32. */
  function Rol(n: bv32, x: bv32): bv32
    requires 0 < x < 32
  {
    (n << x) | (n >> (32 - x))
  }

  /** Bit `i` of `w`; bit 0 is the least significant. */
  predicate Bit(w: bv32, i: bv32)
    requires i < 32
  {
    (w >> i) & 1 == 1
  }

  /** Add is addition of the two values as integers, reduced modulo 2^32
      (computed here in 64 bits, where the sum cannot overflow). */
  lemma AddIsModular(x: bv32, y: bv32)
    ensures Add(x, y) as bv64 == ((x as bv64) + (y as bv64)) % 0x1_0000_0000
  {
    AddIsModularRaw(x, y);
  }

  lemma AddIsModularRaw(x: bv32, y: bv32)
    ensures (x + y) as bv64 == ((x as bv64) + (y as bv64)) % 0x1_0000_0000
  {
  }

  /** Rol is a rotation: bit `i` of the result is bit `(i - x) mod 32` of `n`
      (the mask `& 31` is that modulus), so every bit of `n` lands somewhere
      and none is lost. */
  lemma RolBits(n: bv32, x: bv32)
    requires 0 < x < 32
    ensures forall i: bv32 :: i < 32 ==> Bit(Rol(n, x), i) == Bit(n, (i - x) & 31)
  {
    forall i: bv32 | i < 32
      ensures Bit(Rol(n, x), i) == Bit(n, (i - x) & 31)
    {
      RolBitRaw(n, x, i);
    }
  }

  lemma RolBitRaw(n: bv32, x: bv32, i: bv32)
    requires 0 < x < 32 && i < 32
    ensures Bit((n << x) | (n >> (32 - x)), i) == Bit(n, (i - x) & 31)
  {
  }

  /** For the amounts the quarter round uses, rotating the rest of the way
      round gives the word back. */
  lemma RolUndo(n: bv32, x: bv32)
    requires x == 16 || x == 12 || x == 8 || x == 7
    ensures Rol(Rol(n, x), 32 - x) == n
    ensures Rol(Rol(n, 32 - x), x) == n
  {
    if x == 16 {
      RolUndo16(n);
    } else if x == 12 {
      RolUndo12(n);
    } else if x == 8 {
      RolUndo8(n);
    } else {
      RolUndo7(n);
    }
  }

  lemma RolUndo16(n: bv32)
    ensures Rol(Rol(n, 16), 16) == n
  {
  }

  lemma RolUndo12(n: bv32)
    ensures Rol(Rol(n, 12), 20) == n
    ensures Rol(Rol(n, 20), 12) == n
  {
  }

  lemma RolUndo8(n: bv32)
    ensures Rol(Rol(n, 8), 24) == n
    ensures Rol(Rol(n, 24), 8) == n
  {
  }

  lemma RolUndo7(n: bv32)
    ensures Rol(Rol(n, 7), 25) == n
    ensures Rol(Rol(n, 25), 7) == n
  {
  }

  /** Sub undoes Add and Add undoes Sub. */
  lemma AddSub(x: bv32, y: bv32)
    ensures Sub(Add(x, y), y) == x
    ensures Add(Sub(x, y), y) == x
  {
    assert Add(x, y) == x + y;
    assert Sub(x, y) == x - y;
    AddSubRaw(x, y);
  }

  lemma AddSubRaw(x: bv32, y: bv32)
    ensures Sub(x + y, y) == x
    ensures Add(x - y, y) == x
  {
  }

  /** Exclusive or with the same word twice changes nothing. */
  lemma XorXor(x: bv32, y: bv32)
    ensures Xor(Xor(x, y), y) == x
  {
    assert Xor(x, y) == x ^ y;
    XorXorRaw(x, y);
  }

  lemma XorXorRaw(x: bv32, y: bv32)
    ensures Xor(x ^ y, y) == x
  {
  }
}
