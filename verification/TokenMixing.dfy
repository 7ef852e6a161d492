/**
 How the token cipher and its tag mix. Every step of them loses nothing: a round function separates
 inputs and keys, and the state behind the tag separates values that differ in one byte.
 */
module TokenMixing {
  import opened Feistel

  lemma {:induction false} XorCommutes(a: nat, b: nat)
    ensures XorNat(a, b) == XorNat(b, a)
    decreases a + b
  {
    if a != 0 || b != 0 {
      XorCommutes(a / 2, b / 2);
    }
  }

  lemma {:induction false} XorSeparates(a: nat, b: nat, x: nat)
    requires XorNat(a, x) == XorNat(b, x) || XorNat(x, a) == XorNat(x, b)
    ensures a == b
  {
    XorCancels(a, x);
    XorCancels(b, x);
    XorCommutes(a, x);
    XorCommutes(b, x);
  }

  lemma {:induction false} XorShr(a: Word, b: Word, bits: nat)
    ensures Shr(Xor(a, b), bits) == Xor(Shr(a, bits), Shr(b, bits))
    decreases bits
  {
    if bits > 0 {
      XorParts(a, b);
      XorShr(a / 2, b / 2, bits - 1);
    }
  }

  lemma {:induction false} ShrShrinks(a: Word, bits: nat)
    requires bits > 0 && a > 0
    ensures Shr(a, bits) < a
  {
    if bits > 1 && a / 2 > 0 {
      ShrShrinks(a / 2, bits - 1);
    } else if bits > 1 {
      ShrZero(bits - 1);
    }
  }

  lemma {:induction false} ShrZero(bits: nat)
    ensures Shr(0, bits) == 0
  {
    if bits > 0 {
      ShrZero(bits - 1);
    }
  }

  /** Folding a word with its own shift can be undone. */
  lemma {:induction false} ShiftXorSeparates(x: Word, y: Word, bits: nat)
    requires bits > 0 && Xor(x, Shr(x, bits)) == Xor(y, Shr(y, bits))
    ensures x == y
    decreases x + y
  {
    if x != 0 || y != 0 {
      ShrZero(bits);
      if x != 0 { ShrShrinks(x, bits); }
      if y != 0 { ShrShrinks(y, bits); }
      XorShr(x, Shr(x, bits), bits);
      XorShr(y, Shr(y, bits), bits);
      ShiftXorSeparates(Shr(x, bits), Shr(y, bits), bits);
      XorSeparates(x, y, Shr(x, bits));
    }
  }

  lemma Remainder(n: int, x: Word, k: int)
    requires n == x + k * WORD
    ensures n % WORD == x
  {
  }

  lemma Regroup(x: int, m: int, v: int, q: int, k: int)
    requires m * v == 1 + k * WORD
    ensures (x * m - q * WORD) * v == x + (x * k - q * v) * WORD
  {
    assert (x * m) * v == x * (m * v);
    assert x * (1 + k * WORD) == x + (x * k) * WORD;
    assert (q * WORD) * v == (q * v) * WORD;
  }

  lemma InverseUndoes(x: Word, m: Word, v: Word, k: nat)
    requires m * v == 1 + k * WORD
    ensures Imul(Imul(x, m), v) == x
  {
    var q := x * m / WORD;
    assert Imul(x, m) == x * m - q * WORD;
    Regroup(x, m, v, q, k);
    Remainder(Imul(x, m) * v, x, x * k - q * v);
  }

  /** The three multipliers are odd, so each has an inverse modulo the word size. */
  lemma MulUndone(x: Word)
    ensures Imul(Imul(x, 0x85ebca6b), 0xa5cb9243) == x
    ensures Imul(Imul(x, 0xc2b2ae35), 0x7ed1b41d) == x
    ensures Imul(Imul(x, 0x01000193), 0x359c449b) == x
  {
    hide Imul;
    InverseUndoes(x, 0x85ebca6b, 0xa5cb9243, 0x85ebca6b * 0xa5cb9243 / WORD);
    InverseUndoes(x, 0xc2b2ae35, 0x7ed1b41d, 0xc2b2ae35 * 0x7ed1b41d / WORD);
    InverseUndoes(x, 0x01000193, 0x359c449b, 0x01000193 * 0x359c449b / WORD);
  }

  lemma {:induction false} MixSeparates(x: Word, y: Word)
    requires Mix(x) == Mix(y)
    ensures x == y
  {
    var u, v := Xor(x, Shr(x, 16)), Xor(y, Shr(y, 16));
    var p, q := Imul(u, 0x85ebca6b), Imul(v, 0x85ebca6b);
    MulUndone(Xor(p, Shr(p, 13)));
    MulUndone(Xor(q, Shr(q, 13)));
    hide Imul, Xor, Shr;
    ShiftXorSeparates(p, q, 13);
    MulUndone(u);
    MulUndone(v);
    ShiftXorSeparates(x, y, 16);
  }

  /** Under one key the round function takes no value twice, and to one input no two keys do the same. */
  lemma RoundSeparates(r: Word, s: Word, key: Word, other: Word)
    ensures FeistelRound(r, key) == FeistelRound(s, key) ==> r == s
    ensures FeistelRound(r, key) == FeistelRound(r, other) ==> key == other
  {
    hide Mix, Shr;
    if FeistelRound(r, key) == FeistelRound(s, key) {
      ShiftXorSeparates(Mix(Xor(r, key)), Mix(Xor(s, key)), 16);
      MixSeparates(Xor(r, key), Xor(s, key));
      XorSeparates(r, s, key);
    }
    if FeistelRound(r, key) == FeistelRound(r, other) {
      ShiftXorSeparates(Mix(Xor(r, key)), Mix(Xor(r, other)), 16);
      MixSeparates(Xor(r, key), Xor(r, other));
      XorSeparates(key, other, r);
    }
  }

  lemma StepSeparates(h: Word, g: Word, b: Word, c: Word)
    requires TagStep(h, b) == TagStep(g, c) && (h == g || b == c)
    ensures h == g && b == c
  {
    hide Mix;
    MixSeparates(Imul(Xor(h, b), 0x01000193), Imul(Xor(g, c), 0x01000193));
    MulUndone(Xor(h, b));
    MulUndone(Xor(g, c));
    hide Imul;
    XorSeparates(h, g, b);
    XorSeparates(b, c, h);
  }

  // The tag.

  /** The 32 bits behind the tag. */
  function TagState(val: nat): Word
  {
    TagFold(0x811c9dc5, TagBytes(val))
  }

  lemma {:induction false} FoldSeparates(h: Word, s: seq<Word>, t: seq<Word>, i: nat)
    requires |s| == |t| && i < |s| && s[i] != t[i] && forall j :: 0 <= j < |s| && j != i ==> s[j] == t[j]
    ensures TagFold(h, s) != TagFold(h, t)
  {
    hide TagStep;
    var n := |s| - 1;
    if i < n {
      FoldSeparates(h, s[..n], t[..n], i);
    } else {
      assert s[..n] == t[..n];
    }
    if TagFold(h, s) == TagFold(h, t) {
      StepSeparates(TagFold(h, s[..n]), TagFold(h, t[..n]), s[n], t[n]);
    }
  }

  /** The tag and the top byte of the state determine the state. */
  lemma {:induction false} TagAndTopByte(h: Word, g: Word)
    requires Xor(h, Shr(h, 16)) % 0x100_0000 == Xor(g, Shr(g, 16)) % 0x100_0000 && Shr(h, 24) == Shr(g, 24)
    ensures h == g
  {
    XorShr(h, Shr(h, 16), 24);
    XorShr(g, Shr(g, 16), 24);
    ShrAll(h);
    ShrAll(g);
    Shr24(Xor(h, Shr(h, 16)));
    Shr24(Xor(g, Shr(g, 16)));
    hide Xor, Shr;
    ShiftXorSeparates(h, g, 16);
  }

  lemma {:induction false} ShrTwice(a: Word, m: nat, n: nat)
    ensures Shr(Shr(a, m), n) == Shr(a, m + n)
  {
    if m > 0 {
      ShrTwice(a / 2, m - 1, n);
    }
  }

  lemma {:induction false} Shr2(a: Word)
    ensures Shr(a, 2) == a / 4
  {
    assert Shr(a, 2) == Shr(a / 2, 1) == Shr(a / 2 / 2, 0);
  }

  lemma {:induction false} Shr8(a: Word)
    ensures Shr(a, 8) == a / 256
  {
    Shr2(a);
    Shr2(a / 4);
    Shr2(a / 4 / 4);
    Shr2(a / 4 / 4 / 4);
    hide Shr;
    ShrTwice(a, 2, 2);
    ShrTwice(a, 4, 2);
    ShrTwice(a, 6, 2);
  }

  lemma {:induction false} Shr24(a: Word)
    ensures Shr(a, 24) == a / 0x100_0000
  {
    Shr8(a);
    Shr8(a / 256);
    Shr8(a / 256 / 256);
    hide Shr;
    ShrTwice(a, 8, 8);
    ShrTwice(a, 16, 8);
  }

  /** Forty bits shift everything out. */
  lemma {:induction false} ShrAll(a: Word)
    ensures Shr(Shr(a, 16), 24) == 0
  {
    Shr8(a);
    Shr8(a / 256);
    Shr24(a / 256 / 256);
    hide Shr;
    ShrTwice(a, 8, 8);
  }

  /**
   Values that differ in one byte have different states behind their tags, and the tags themselves
   differ unless the lost top byte of the state does.
   */
  lemma {:induction false} TagSeparates(v: nat, w: nat, i: nat)
    requires i < 5 && TagBytes(v)[i] != TagBytes(w)[i] && forall j :: 0 <= j < 5 && j != i ==> TagBytes(v)[j] == TagBytes(w)[j]
    ensures TagState(v) != TagState(w)
    ensures IntegrityTag(v) == IntegrityTag(w) ==> TagState(v) / 0x100_0000 != TagState(w) / 0x100_0000
  {
    FoldSeparates(0x811c9dc5, TagBytes(v), TagBytes(w), i);
    Shr24(TagState(v));
    Shr24(TagState(w));
    hide TagBytes, TagFold, Xor, Shr;
    if IntegrityTag(v) == IntegrityTag(w) && Shr(TagState(v), 24) == Shr(TagState(w), 24) {
      TagAndTopByte(TagState(v), TagState(w));
    }
  }
}
