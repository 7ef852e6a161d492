/** The 64-bit block cipher of room tokens, for any round function, and the one the client uses. */
module Feistel {

  const WORD := 0x1_0000_0000
  const ROUNDS: nat := 16

  type Word = x: nat | x < WORD
  type Tag = x: nat | x < 0x100_0000
  type RoundFunction = (Word, Word) -> Word
  type TagFunction = nat -> Tag

  datatype Block = Block(l: Word, r: Word)

  const ROUND_KEYS: seq<Word> := [
    0x428a2f98, 0x71374491, 0xb5c0fbcf, 0xe9b5dba5,
    0x3956c25b, 0x59f111f1, 0x923f82a4, 0xab1c5ed5,
    0xd807aa98, 0x12835b01, 0x243185be, 0x550c7dc3,
    0x72be5d74, 0x80deb1fe, 0x9bdc06a7, 0xc19bf174]

  /** Bitwise exclusive or of naturals. */
  function XorNat(a: nat, b: nat): nat
  {
    if a == 0 && b == 0 then 0 else (a % 2 + b % 2) % 2 + 2 * XorNat(a / 2, b / 2)
  }

  function Pow2(n: nat): nat
  {
    if n == 0 then 1 else 2 * Pow2(n - 1)
  }

  lemma {:induction false} XorBound(a: nat, b: nat, bits: nat)
    requires a < Pow2(bits) && b < Pow2(bits)
    ensures XorNat(a, b) < Pow2(bits)
  {
    if bits > 0 {
      XorBound(a / 2, b / 2, bits - 1);
    }
  }

  lemma {:induction false} XorParts(a: nat, b: nat)
    ensures XorNat(a, b) % 2 == (a % 2 + b % 2) % 2 && XorNat(a, b) / 2 == XorNat(a / 2, b / 2)
  {
  }

  lemma ParityCancels(p: nat, q: nat)
    requires p < 2 && q < 2
    ensures ((p + q) % 2 + q) % 2 == p
  {
  }

  lemma {:induction false} XorCancels(a: nat, b: nat)
    ensures XorNat(XorNat(a, b), b) == a
    decreases a + b
  {
    if a != 0 || b != 0 {
      XorCancels(a / 2, b / 2);
      var x := XorNat(a, b);
      assert x / 2 == XorNat(a / 2, b / 2) && x % 2 == (a % 2 + b % 2) % 2 by { XorParts(a, b); }
      var y := XorNat(x, b);
      assert y / 2 == XorNat(x / 2, b / 2) && y % 2 == (x % 2 + b % 2) % 2 by { XorParts(x, b); }
      assert y % 2 == a % 2 by { ParityCancels(a % 2, b % 2); }
      assert y / 2 == a / 2;
    }
  }

  lemma WordIsPow2()
    ensures Pow2(32) == WORD
  {
    assert Pow2(8) == 256;
    assert Pow2(16) == 65536;
    assert Pow2(24) == 0x100_0000;
  }

  function Xor(a: Word, b: Word): Word
  {
    WordIsPow2();
    XorBound(a, b, 32);
    XorNat(a, b)
  }

  /** The low 32 bits of a product, as `Math.imul` keeps them. */
  function Imul(a: Word, b: Word): Word
  {
    (a * b) % WORD
  }

  /** Unsigned right shift. */
  function Shr(a: Word, bits: nat): Word
  {
    if bits == 0 then a else Shr(a / 2, bits - 1)
  }

  /** Two rounds of multiply and xor-shift: the mixing step shared by the cipher and the tag. */
  function Mix(x: Word): Word
  {
    var y := Imul(Xor(x, Shr(x, 16)), 0x85ebca6b);
    Imul(Xor(y, Shr(y, 13)), 0xc2b2ae35)
  }

  function FeistelRound(r: Word, key: Word): Word
  {
    var x := Mix(Xor(r, key));
    Xor(x, Shr(x, 16))
  }

  // The network, for any round function.

  function Round(f: RoundFunction, i: nat, b: Block): Block
    requires i < ROUNDS
  {
    Block(b.r, Xor(b.l, f(b.r, ROUND_KEYS[i])))
  }

  function Unround(f: RoundFunction, i: nat, b: Block): Block
    requires i < ROUNDS
  {
    Block(Xor(b.r, f(b.l, ROUND_KEYS[i])), b.l)
  }

  /** Rounds 0 to n - 1. */
  function Encipher(f: RoundFunction, b: Block, n: nat): Block
    requires n <= ROUNDS
  {
    if n == 0 then b else Round(f, n - 1, Encipher(f, b, n - 1))
  }

  /** Inverse rounds n - 1 down to 0. */
  function Decipher(f: RoundFunction, b: Block, n: nat): Block
    requires n <= ROUNDS
    decreases n
  {
    if n == 0 then b else Decipher(f, Unround(f, n - 1, b), n - 1)
  }

  lemma RoundInverse(f: RoundFunction, i: nat, b: Block)
    requires i < ROUNDS
    ensures Unround(f, i, Round(f, i, b)) == b && Round(f, i, Unround(f, i, b)) == b
  {
    XorCancels(b.l, f(b.r, ROUND_KEYS[i]));
    XorCancels(b.r, f(b.l, ROUND_KEYS[i]));
  }

  lemma {:induction false} DecipherEncipher(f: RoundFunction, b: Block, n: nat)
    requires n <= ROUNDS
    ensures Decipher(f, Encipher(f, b, n), n) == b
  {
    if n > 0 {
      RoundInverse(f, n - 1, Encipher(f, b, n - 1));
      DecipherEncipher(f, b, n - 1);
    }
  }

  lemma {:induction false} EncipherDecipher(f: RoundFunction, b: Block, n: nat)
    requires n <= ROUNDS
    ensures Encipher(f, Decipher(f, b, n), n) == b
    decreases n
  {
    if n > 0 {
      EncipherDecipher(f, Unround(f, n - 1, b), n - 1);
      RoundInverse(f, n - 1, b);
    }
  }

  // The integrity tag of the client.

  const TAG_SALT: seq<Word> := [0xa5, 0x5a]

  function TagBytes(val: nat): seq<Word>
  {
    [val % 256, val / 0x100 % 256, val / 0x1_0000 % 256, val / 0x100_0000 % 256, val / 0x1_0000_0000 % 256] + TAG_SALT
  }

  function TagStep(h: Word, b: Word): Word
  {
    Mix(Imul(Xor(h, b), 0x01000193))
  }

  function TagFold(h: Word, bytes: seq<Word>): Word
  {
    if bytes == [] then h else TagStep(TagFold(h, bytes[..|bytes| - 1]), bytes[|bytes| - 1])
  }

  function IntegrityTag(val: nat): Tag
  {
    var h := TagFold(0x811c9dc5, TagBytes(val));
    Xor(h, Shr(h, 16)) % 0x100_0000
  }

  method ComputeIntegrityTag(val: nat) returns (tag: Tag)
    ensures tag == IntegrityTag(val)
  {
    var h: Word := 0x811c9dc5;
    var bytes := TagBytes(val);
    for i := 0 to |bytes|
      invariant h == TagFold(0x811c9dc5, bytes[..i])
    {
      assert bytes[..i + 1][..i] == bytes[..i];
      h := Xor(h, bytes[i]);
      h := Imul(h, 0x01000193);
      h := Imul(Xor(h, Shr(h, 16)), 0x85ebca6b);
      h := Imul(Xor(h, Shr(h, 13)), 0xc2b2ae35);
    }
    assert bytes[..|bytes|] == bytes;
    tag := Xor(h, Shr(h, 16)) % 0x100_0000;
  }

  method EncipherBlock(l0: Word, r0: Word) returns (l: Word, r: Word)
    ensures Block(l, r) == Encipher(FeistelRound, Block(l0, r0), ROUNDS)
  {
    l, r := l0, r0;
    for i := 0 to ROUNDS
      invariant Block(l, r) == Encipher(FeistelRound, Block(l0, r0), i)
    {
      var nextL := r;
      var nextR := Xor(l, FeistelRound(r, ROUND_KEYS[i]));
      l, r := nextL, nextR;
    }
  }

  method DecipherBlock(l0: Word, r0: Word) returns (l: Word, r: Word)
    ensures Block(l, r) == Decipher(FeistelRound, Block(l0, r0), ROUNDS)
  {
    l, r := l0, r0;
    for i := ROUNDS downto 0
      invariant Decipher(FeistelRound, Block(l, r), i) == Decipher(FeistelRound, Block(l0, r0), ROUNDS)
    {
      var prevR := l;
      var prevL := Xor(r, FeistelRound(l, ROUND_KEYS[i]));
      l, r := prevL, prevR;
    }
  }
}
