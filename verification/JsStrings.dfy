/** The parts of JavaScript's string library the codecs rely on. */
module JsStrings {

  /** White space and line terminators, as `String.prototype.trim` removes them. */
  predicate IsSpace(c: char)
  {
    var u := c as int;
    || 0x09 <= u <= 0x0d || u == 0x20 || u == 0xa0 || u == 0x1680 || 0x2000 <= u <= 0x200a
    || u == 0x2028 || u == 0x2029 || u == 0x202f || u == 0x205f || u == 0x3000 || u == 0xfeff
  }

  function TrimStart(s: string): string
  {
    if s != [] && IsSpace(s[0]) then TrimStart(s[1..]) else s
  }

  function TrimEnd(s: string): string
  {
    if s != [] && IsSpace(s[|s| - 1]) then TrimEnd(s[..|s| - 1]) else s
  }

  function Trim(s: string): string
  {
    TrimEnd(TrimStart(s))
  }

  ghost predicate Trimmed(s: string)
  {
    s == [] || (!IsSpace(s[0]) && !IsSpace(s[|s| - 1]))
  }

  lemma {:induction false} TrimStartShape(s: string)
    ensures TrimStart(s) == [] || !IsSpace(TrimStart(s)[0])
    ensures |TrimStart(s)| <= |s|
  {
    if s != [] && IsSpace(s[0]) {
      TrimStartShape(s[1..]);
    }
  }

  lemma {:induction false} TrimEndShape(s: string)
    ensures TrimEnd(s) <= s
    ensures TrimEnd(s) == [] || !IsSpace(TrimEnd(s)[|TrimEnd(s)| - 1])
  {
    if s != [] && IsSpace(s[|s| - 1]) {
      TrimEndShape(s[..|s| - 1]);
    }
  }

  lemma TrimIsTrimmed(s: string)
    ensures Trimmed(Trim(s)) && |Trim(s)| <= |s|
  {
    TrimStartShape(s);
    TrimEndShape(TrimStart(s));
  }

  lemma TrimTrimmed(s: string)
    requires Trimmed(s)
    ensures Trim(s) == s
  {
  }

  lemma TrimTwice(s: string)
    ensures Trim(Trim(s)) == Trim(s)
  {
    TrimIsTrimmed(s);
    TrimTrimmed(Trim(s));
  }

  /** Blanks appended to a trimmed string are trimmed away again. */
  lemma {:induction false} TrimPadded(s: string, n: nat)
    requires Trimmed(s)
    ensures Trim(s + seq(n, _ => ' ')) == s
  {
    var padded := s + seq(n, _ => ' ');
    if n == 0 {
      assert padded == s;
    } else {
      assert padded[..|padded| - 1] == s + seq(n - 1, _ => ' ');
      TrimPadded(s, n - 1);
      if s == [] {
        BlanksVanish(n);
        assert padded == seq(n, _ => ' ');
      }
    }
  }

  lemma {:induction false} BlanksVanish(n: nat)
    ensures TrimStart(seq(n, _ => ' ')) == []
  {
    if n > 0 {
      assert seq(n, _ => ' ')[1..] == seq(n - 1, _ => ' ');
      BlanksVanish(n - 1);
    }
  }

  /** `padEnd` with blanks. */
  function PadEnd(s: string, width: nat): string
  {
    if |s| >= width then s else s + seq(width - |s|, _ => ' ')
  }

  /** `padStart` with zeros. */
  function PadStart(s: string, width: nat): string
  {
    if |s| >= width then s else seq(width - |s|, _ => '0') + s
  }

  predicate IsDigit(c: char)
  {
    '0' <= c <= '9'
  }

  /** Removes every character that is not a decimal digit. */
  function DigitsOnly(s: string): string
  {
    if s == [] then []
    else if IsDigit(s[0]) then [s[0]] + DigitsOnly(s[1..])
    else DigitsOnly(s[1..])
  }

  lemma {:induction false} DigitsOnlyConcat(s: string, t: string)
    ensures DigitsOnly(s + t) == DigitsOnly(s) + DigitsOnly(t)
  {
    if s == [] {
      assert s + t == t;
    } else {
      assert (s + t)[1..] == s[1..] + t;
      DigitsOnlyConcat(s[1..], t);
    }
  }

  lemma {:induction false} DigitsOnlyDigits(s: string)
    requires forall i :: 0 <= i < |s| ==> IsDigit(s[i])
    ensures DigitsOnly(s) == s
  {
    if s != [] {
      DigitsOnlyDigits(s[1..]);
    }
  }

  lemma {:induction false} DigitsOnlyAreDigits(s: string)
    ensures forall i :: 0 <= i < |DigitsOnly(s)| ==> IsDigit(DigitsOnly(s)[i])
  {
    if s != [] {
      DigitsOnlyAreDigits(s[1..]);
    }
  }

  lemma {:induction false} DigitsOnlyTrimStart(s: string)
    ensures DigitsOnly(TrimStart(s)) == DigitsOnly(s)
  {
    if s != [] && IsSpace(s[0]) {
      DigitsOnlyTrimStart(s[1..]);
    }
  }

  lemma {:induction false} DigitsOnlyTrimEnd(s: string)
    ensures DigitsOnly(TrimEnd(s)) == DigitsOnly(s)
  {
    if s != [] && IsSpace(s[|s| - 1]) {
      DigitsOnlyTrimEnd(s[..|s| - 1]);
      DigitsOnlyConcat(s[..|s| - 1], [s[|s| - 1]]);
      assert s == s[..|s| - 1] + [s[|s| - 1]];
      assert DigitsOnly([s[|s| - 1]]) == [];
    }
  }

  lemma {:induction false} DigitsOnlyTrim(s: string)
    ensures DigitsOnly(Trim(s)) == DigitsOnly(s)
  {
    DigitsOnlyTrimStart(s);
    DigitsOnlyTrimEnd(TrimStart(s));
  }

  function LowerChar(c: char): char
  {
    if 'A' <= c <= 'Z' then (c as int + 32) as char else c
  }

  /** `toLowerCase` on ASCII text. */
  function Lower(s: string): (r: string)
    ensures |r| == |s| && forall i :: 0 <= i < |s| ==> r[i] == LowerChar(s[i])
  {
    seq(|s|, i requires 0 <= i < |s| => LowerChar(s[i]))
  }
}
