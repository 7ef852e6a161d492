/**
 Room codes and the opaque tokens that stand for them in links: encoding, decoding, and the
 resolution of whatever a user pastes.
 */
module RoomToken {
  import opened Basics
  import opened JsStrings
  import opened Numerals
  import opened Feistel

  const MAX_ROOM_INT: nat := 999_999_999_999
  const TAG_SPAN: nat := 0x100_0000

  /** Four digits, a dash, four digits, a dash, four digits. */
  predicate IsCanonical(s: string)
  {
    && |s| == 14 && s[4] == '-' && s[9] == '-'
    && IsNumeral(s[0..4], 10) && IsNumeral(s[5..9], 10) && IsNumeral(s[10..14], 10)
  }

  predicate ValidateRoomCode(code: string)
  {
    IsCanonical(Trim(code))
  }

  predicate IsHexDigit(c: char)
  {
    '0' <= c <= '9' || 'a' <= c <= 'f' || 'A' <= c <= 'F'
  }

  predicate IsRoomToken(token: string)
  {
    var t := Trim(token);
    |t| == 16 && forall i :: 0 <= i < 16 ==> IsHexDigit(t[i])
  }

  function Dashed(digits: string): string
    requires |digits| == 12
  {
    digits[0..4] + "-" + digits[4..8] + "-" + digits[8..12]
  }

  /** The 40-bit value shifted left by 24 bits, with the tag in the low bits, as two words. */
  function Pack(val: nat, tag: Tag): Block
    requires val <= MAX_ROOM_INT
  {
    var block := val * TAG_SPAN + tag;
    Block(block / WORD, block % WORD)
  }

  function Joined(b: Block): nat
  {
    b.l * WORD + b.r
  }

  function Hex(b: Block): string
  {
    PadStart(Numeral(Joined(b), 16), 16)
  }

  function EncodeWith(f: RoundFunction, t: TagFunction, code: string): Option<string>
  {
    if !ValidateRoomCode(code) then None else
      var val := Parse(DigitsOnly(code), 10);
      CodeValueBound(code);
      Some(Hex(Encipher(f, Pack(val, t(val)), ROUNDS)))
  }

  function DecodeWith(f: RoundFunction, t: TagFunction, token: string): Option<string>
  {
    if !IsRoomToken(token) then None else
      var cipher := Parse(Lower(Trim(token)), 16);
      TokenValueBound(token);
      var b := Decipher(f, Block(cipher / WORD, cipher % WORD), ROUNDS);
      var val, tag := Joined(b) / TAG_SPAN, Joined(b) % TAG_SPAN;
      if val > MAX_ROOM_INT || t(val) != tag then None
      else
        ValueFits(val);
        Some(Dashed(PadStart(Numeral(val, 10), 12)))
  }

  /** The client's codec. */
  function EncodeRoomToken(code: string): Option<string>
  {
    EncodeWith(FeistelRound, IntegrityTag, code)
  }

  function DecodeRoomToken(token: string): Option<string>
  {
    DecodeWith(FeistelRound, IntegrityTag, token)
  }

  // Facts about the textual forms.

  lemma Powers()
    ensures Power(10, 12) == MAX_ROOM_INT + 1
    ensures Power(16, 16) == WORD * WORD
  {
    assert Power(10, 4) == 10000 && Power(10, 8) == 10000 * 10000;
    assert Power(16, 4) == 65536 && Power(16, 8) == WORD;
    PowerSplit(16, 8, 8);
  }

  lemma DecimalIsDigit(s: string)
    ensures IsNumeral(s, 10) <==> forall i :: 0 <= i < |s| ==> IsDigit(s[i])
  {
    assert forall c: char :: IsDigitOf(c, 10) <==> IsDigit(c);
  }

  lemma CanonicalSplits(s: string)
    requires IsCanonical(s)
    ensures s == s[0..4] + ("-" + (s[5..9] + ("-" + s[10..14])))
  {
  }

  lemma {:induction false} NumeralIsItsDigits(s: string)
    requires IsNumeral(s, 10)
    ensures DigitsOnly(s) == s
  {
    DecimalIsDigit(s);
    DigitsOnlyDigits(s);
  }

  lemma {:induction false} DashDropped(s: string)
    ensures DigitsOnly("-" + s) == DigitsOnly(s)
  {
    assert ("-" + s)[1..] == s;
  }

  lemma {:induction false} GroupsAreDigits(a: string, b: string, c: string)
    requires IsNumeral(a, 10) && IsNumeral(b, 10) && IsNumeral(c, 10)
    ensures DigitsOnly(a + ("-" + (b + ("-" + c)))) == a + (b + c)
  {
    NumeralIsItsDigits(a);
    NumeralIsItsDigits(b);
    NumeralIsItsDigits(c);
    DigitsOnlyConcat(a, "-" + (b + ("-" + c)));
    DashDropped(b + ("-" + c));
    DigitsOnlyConcat(b, "-" + c);
    DashDropped(c);
  }

  lemma DashedGroups(a: string, b: string, c: string)
    requires |a| == |b| == |c| == 4
    ensures Dashed(a + (b + c)) == a + ("-" + (b + ("-" + c)))
  {
    var d := a + (b + c);
    assert d[0..4] == a && d[4..8] == b && d[8..12] == c;
  }

  /** The digits of a canonical code are its three groups. */
  lemma {:induction false} CanonicalDigits(s: string)
    requires IsCanonical(s)
    ensures DigitsOnly(s) == s[0..4] + (s[5..9] + s[10..14])
    ensures |DigitsOnly(s)| == 12 && IsNumeral(DigitsOnly(s), 10) && Dashed(DigitsOnly(s)) == s
  {
    CanonicalSplits(s);
    GroupsAreDigits(s[0..4], s[5..9], s[10..14]);
    DashedGroups(s[0..4], s[5..9], s[10..14]);
  }

  lemma DashedIsCanonical(d: string)
    requires |d| == 12 && IsNumeral(d, 10)
    ensures IsCanonical(Dashed(d)) && Trim(Dashed(d)) == Dashed(d) && DigitsOnly(Dashed(d)) == d
  {
    var s := Dashed(d);
    assert s[0..4] == d[0..4] && s[5..9] == d[4..8] && s[10..14] == d[8..12];
    CanonicalDigits(s);
    assert d == d[0..4] + (d[4..8] + d[8..12]);
    CanonicalIsTrimmed(s);
  }

  lemma CanonicalIsTrimmed(s: string)
    requires IsCanonical(s)
    ensures Trimmed(s) && Trim(s) == s
  {
    assert IsDigitOf(s[0..4][0], 10) && IsDigitOf(s[10..14][3], 10);
    TrimTrimmed(s);
  }

  lemma {:induction false} CodeValueBound(code: string)
    requires ValidateRoomCode(code)
    ensures |DigitsOnly(code)| == 12 && IsNumeral(DigitsOnly(code), 10)
    ensures Dashed(DigitsOnly(code)) == Trim(code)
    ensures Parse(DigitsOnly(code), 10) <= MAX_ROOM_INT
  {
    DigitsOnlyTrim(code);
    CanonicalDigits(Trim(code));
    FixedParse(DigitsOnly(code), 10);
    Powers();
  }

  lemma LowerIsHex(t: string)
    requires forall i :: 0 <= i < |t| ==> IsHexDigit(t[i])
    ensures IsNumeral(Lower(t), 16)
  {
  }

  lemma TokenValueBound(token: string)
    requires IsRoomToken(token)
    ensures IsNumeral(Lower(Trim(token)), 16)
    ensures Parse(Lower(Trim(token)), 16) / WORD < WORD
  {
    LowerIsHex(Trim(token));
    FixedParse(Lower(Trim(token)), 16);
    Powers();
  }

  lemma {:induction false} ValueFits(val: nat)
    requires val <= MAX_ROOM_INT
    ensures PadStart(Numeral(val, 10), 12) == Fixed(val, 10, 12)
  {
    Powers();
    PaddedIsFixed(val, 10, 12);
  }

  lemma PackJoined(val: nat, tag: Tag)
    requires val <= MAX_ROOM_INT
    ensures Joined(Pack(val, tag)) / TAG_SPAN == val && Joined(Pack(val, tag)) % TAG_SPAN == tag
  {
  }

  lemma JoinedBound(b: Block)
    ensures Joined(b) < WORD * WORD && Joined(b) / WORD == b.l && Joined(b) % WORD == b.r
  {
  }

  /** The printed cipher block is sixteen lower-case hex digits and reads back as the block. */
  lemma HexRoundTrip(b: Block)
    ensures var s := Hex(b);
      && |s| == 16 && IsNumeral(s, 16) && Parse(s, 16) == Joined(b)
      && IsRoomToken(s) && Lower(s) == s && Trim(s) == s
  {
    JoinedBound(b);
    Powers();
    PaddedIsFixed(Joined(b), 16, 16);
    ParseFixed(Joined(b), 16, 16);
    NumeralIsToken(Hex(b));
  }

  lemma NumeralIsToken(s: string)
    requires |s| == 16 && IsNumeral(s, 16)
    ensures IsRoomToken(s) && Lower(s) == s && Trim(s) == s
  {
    assert IsDigitOf(s[0], 16) && IsDigitOf(s[15], 16);
    TrimTrimmed(s);
  }

  // The codec is a bijection between room codes and the tokens it accepts.

  lemma DecodeEncode(f: RoundFunction, t: TagFunction, code: string)
    requires ValidateRoomCode(code)
    ensures EncodeWith(f, t, code).Some?
    ensures DecodeWith(f, t, EncodeWith(f, t, code).value) == Some(Trim(code))
  {
    CodeValueBound(code);
    var digits := DigitsOnly(code);
    var val := Parse(digits, 10);
    var plain := Pack(val, t(val));
    var cipher := Encipher(f, plain, ROUNDS);
    HexRoundTrip(cipher);
    JoinedBound(cipher);
    DecipherEncipher(f, plain, ROUNDS);
    PackJoined(val, t(val));
    ValueFits(val);
    FixedParse(digits, 10);
  }

  /** Splitting a sixteen-digit token into words and printing them gives the token back. */
  lemma {:induction false} TokenReprints(hex: string)
    requires |hex| == 16 && IsNumeral(hex, 16)
    ensures var n := Parse(hex, 16);
      n / WORD < WORD && Joined(Block(n / WORD, n % WORD)) == n && Hex(Block(n / WORD, n % WORD)) == hex
  {
    FixedParse(hex, 16);
    Powers();
    PaddedIsFixed(Parse(hex, 16), 16, 16);
  }

  /** The code printed for a value is canonical and reads back as the value. */
  lemma {:induction false} ValueRoundTrip(val: nat)
    requires val <= MAX_ROOM_INT
    ensures var code := Dashed(Fixed(val, 10, 12));
      IsCanonical(code) && ValidateRoomCode(code) && Parse(DigitsOnly(code), 10) == val
  {
    Powers();
    ParseFixed(val, 10, 12);
    DashedIsCanonical(Fixed(val, 10, 12));
  }

  lemma EncodeDecode(f: RoundFunction, t: TagFunction, token: string)
    requires DecodeWith(f, t, token).Some?
    ensures IsCanonical(DecodeWith(f, t, token).value)
    ensures EncodeWith(f, t, DecodeWith(f, t, token).value) == Some(Lower(Trim(token)))
  {
    var hex := Lower(Trim(token));
    var n := Parse(hex, 16);
    TokenValueBound(token);
    TokenReprints(hex);
    var cipher := Block(n / WORD, n % WORD);
    var plain := Decipher(f, cipher, ROUNDS);
    var val := Joined(plain) / TAG_SPAN;
    assert val <= MAX_ROOM_INT && t(val) == Joined(plain) % TAG_SPAN;
    ValueFits(val);
    ValueRoundTrip(val);
    assert DecodeWith(f, t, token) == Some(Dashed(Fixed(val, 10, 12)));
    Unpack(plain);
    EncipherDecipher(f, cipher, ROUNDS);
  }

  lemma Unpack(b: Block)
    requires Joined(b) / TAG_SPAN <= MAX_ROOM_INT
    ensures Pack(Joined(b) / TAG_SPAN, Joined(b) % TAG_SPAN) == b
  {
    JoinedBound(b);
  }

  /** Distinct rooms have distinct tokens. */
  lemma EncodeInjective(f: RoundFunction, t: TagFunction, a: string, b: string)
    requires ValidateRoomCode(a) && ValidateRoomCode(b) && EncodeWith(f, t, a) == EncodeWith(f, t, b)
    ensures Trim(a) == Trim(b)
  {
    DecodeEncode(f, t, a);
    DecodeEncode(f, t, b);
  }

  // The methods of the client, with their loops.

  method Encode(code: string) returns (token: Option<string>)
    ensures token == EncodeRoomToken(code)
  {
    if !ValidateRoomCode(code) {
      return None;
    }
    CodeValueBound(code);
    var val := Parse(DigitsOnly(code), 10);
    var tag := ComputeIntegrityTag(val);
    var plain := Pack(val, tag);
    var l, r := EncipherBlock(plain.l, plain.r);
    token := Some(PadStart(Numeral(l * WORD + r, 16), 16));
  }

  method Decode(token: string) returns (code: Option<string>)
    ensures code == DecodeRoomToken(token)
  {
    if !IsRoomToken(token) {
      return None;
    }
    TokenValueBound(token);
    var cipher := Parse(Lower(Trim(token)), 16);
    var l, r := DecipherBlock(cipher / WORD, cipher % WORD);
    var block := l * WORD + r;
    var val, tag := block / TAG_SPAN, block % TAG_SPAN;
    if val > MAX_ROOM_INT {
      return None;
    }
    var expected := ComputeIntegrityTag(val);
    if expected != tag {
      return None;
    }
    ValueFits(val);
    code := Some(Dashed(PadStart(Numeral(val, 10), 12)));
  }

  // Resolution of user input.

  datatype RoomRef = RoomRef(code: string, token: string)

  predicate IsIdChar(c: char)
  {
    'a' <= c <= 'z' || 'A' <= c <= 'Z' || '0' <= c <= '9' || c == '_' || c == '-'
  }

  const ROOM_PATH := "/room/"

  predicate RoomPathAt(s: string, i: nat)
  {
    i + 6 < |s| && s[i..i + 6] == ROOM_PATH && IsIdChar(s[i + 6])
  }

  function IdRun(s: string): string
  {
    if s != [] && IsIdChar(s[0]) then [s[0]] + IdRun(s[1..]) else []
  }

  /** The identifier after the first room path at or after `from`, or `s` itself. */
  function UrlPart(s: string, from: nat): string
    decreases |s| - from
  {
    if from >= |s| then s
    else if RoomPathAt(s, from) then IdRun(s[from + 6..])
    else UrlPart(s, from + 1)
  }

  /** Resolution of input from which blanks and the URL around the identifier were removed. */
  function ResolvePlain(s: string): Option<RoomRef>
  {
    if IsRoomToken(s) then
      var code := DecodeRoomToken(s);
      if code.Some? then Some(RoomRef(code.value, Lower(s))) else None
    else if ValidateRoomCode(s) then
      Some(RoomRef(s, EncodeRoomToken(s).value))
    else
      var digits := DigitsOnly(s);
      if |digits| == 12 && ValidateRoomCode(Dashed(digits))
      then Some(RoomRef(Dashed(digits), EncodeRoomToken(Dashed(digits)).value))
      else None
  }

  function ResolveRoomIdentifier(input: string): Option<RoomRef>
  {
    if input == [] then None else ResolvePlain(UrlPart(Trim(input), 0))
  }

  ghost predicate IsRoomOf(r: RoomRef)
  {
    IsCanonical(r.code) && EncodeRoomToken(r.code) == Some(r.token)
  }

  lemma {:induction false} IdRunShape(s: string)
    ensures forall i :: 0 <= i < |IdRun(s)| ==> IsIdChar(IdRun(s)[i])
  {
    if s != [] && IsIdChar(s[0]) {
      IdRunShape(s[1..]);
    }
  }

  lemma {:induction false} UrlPartShape(s: string, from: nat)
    ensures UrlPart(s, from) == s || forall i :: 0 <= i < |UrlPart(s, from)| ==> IsIdChar(UrlPart(s, from)[i])
    decreases |s| - from
  {
    if from < |s| {
      if RoomPathAt(s, from) {
        IdRunShape(s[from + 6..]);
      } else {
        UrlPartShape(s, from + 1);
      }
    }
  }

  lemma {:induction false} UrlPartTrimmed(s: string)
    requires Trimmed(s)
    ensures Trimmed(UrlPart(s, 0)) && Trim(UrlPart(s, 0)) == UrlPart(s, 0)
  {
    UrlPartShape(s, 0);
    TrimTrimmed(UrlPart(s, 0));
  }

  /** A string without a slash is its own URL part. */
  lemma {:induction false} NoSlash(s: string, from: nat)
    requires forall i :: 0 <= i < |s| ==> s[i] != '/'
    ensures UrlPart(s, from) == s
    decreases |s| - from
  {
    if from < |s| {
      assert from + 6 < |s| ==> s[from..from + 6][0] != ROOM_PATH[0];
      NoSlash(s, from + 1);
    }
  }

  lemma ResolvePlainIsRoom(s: string)
    requires Trim(s) == s && ResolvePlain(s).Some?
    ensures IsRoomOf(ResolvePlain(s).value)
  {
    if IsRoomToken(s) {
      EncodeDecode(FeistelRound, IntegrityTag, s);
    } else if ValidateRoomCode(s) {
      DecodeEncode(FeistelRound, IntegrityTag, s);
    } else {
      var d := Dashed(DigitsOnly(s));
      DigitsOnlyAreDigits(s);
      DecimalIsDigit(DigitsOnly(s));
      DashedIsCanonical(DigitsOnly(s));
      DecodeEncode(FeistelRound, IntegrityTag, d);
    }
  }

  /** The code and the token of a room both resolve to the room. */
  lemma RoomResolves(r: RoomRef)
    requires IsRoomOf(r)
    ensures ResolvePlain(r.code) == ResolvePlain(r.token) == Some(r)
    ensures ResolveRoomIdentifier(r.code) == ResolveRoomIdentifier(r.token) == Some(r)
  {
    CanonicalIsTrimmed(r.code);
    CanonicalNoSlash(r.code);
    NoSlash(r.code, 0);
    CodeValueBound(r.code);
    var val := Parse(DigitsOnly(r.code), 10);
    HexRoundTrip(Encipher(FeistelRound, Pack(val, IntegrityTag(val)), ROUNDS));
    NumeralNoSlash(r.token, 16);
    NoSlash(r.token, 0);
    DecodeEncode(FeistelRound, IntegrityTag, r.code);
  }

  lemma NumeralNoSlash(s: string, b: Base)
    requires IsNumeral(s, b)
    ensures forall i :: 0 <= i < |s| ==> s[i] != '/' && IsIdChar(s[i])
  {
  }

  lemma CanonicalNoSlash(s: string)
    requires IsCanonical(s)
    ensures forall i :: 0 <= i < |s| ==> s[i] != '/' && IsIdChar(s[i])
  {
    NumeralNoSlash(s[0..4], 10);
    NumeralNoSlash(s[5..9], 10);
    NumeralNoSlash(s[10..14], 10);
    forall i | 0 <= i < |s|
      ensures s[i] != '/' && IsIdChar(s[i])
    {
      if i < 4 { assert s[i] == s[0..4][i]; }
      else if 5 <= i < 9 { assert s[i] == s[5..9][i - 5]; }
      else if 10 <= i { assert s[i] == s[10..14][i - 10]; }
    }
  }

  /** Every resolved input names a room, and either half of the result resolves to the same room. */
  lemma ResolutionIsCanonical(input: string)
    requires ResolveRoomIdentifier(input).Some?
    ensures var r := ResolveRoomIdentifier(input).value;
      && IsRoomOf(r)
      && ResolveRoomIdentifier(r.code) == ResolveRoomIdentifier(r.token) == Some(r)
  {
    TrimIsTrimmed(input);
    UrlPartTrimmed(Trim(input));
    ResolvePlainIsRoom(UrlPart(Trim(input), 0));
    RoomResolves(ResolveRoomIdentifier(input).value);
  }

  /**
   What may stand for a room once blanks and the link around it are gone: its token with letters of
   either case, or anything else whose decimal digits are those of its code.
   */
  predicate Names(id: string, r: RoomRef)
  {
    if IsRoomToken(id) then Lower(id) == r.token else DigitsOnly(id) == DigitsOnly(r.code)
  }

  lemma TokenIsPlain(r: RoomRef)
    requires IsRoomOf(r)
    ensures IsRoomToken(r.token) && Lower(r.token) == Trim(r.token) == r.token
  {
    CodeValueBound(r.code);
    var val := Parse(DigitsOnly(r.code), 10);
    HexRoundTrip(Encipher(FeistelRound, Pack(val, IntegrityTag(val)), ROUNDS));
  }

  /** Decoding does not see the case of letters. */
  lemma CaseDoesNotMatter(a: string, b: string)
    requires IsRoomToken(a) && IsRoomToken(b) && Lower(Trim(a)) == Lower(Trim(b))
    ensures DecodeRoomToken(a) == DecodeRoomToken(b)
  {
  }

  lemma TokenResolves(r: RoomRef)
    requires IsRoomOf(r)
    ensures DecodeRoomToken(r.token) == Some(r.code)
  {
    CanonicalIsTrimmed(r.code);
    DecodeEncode(FeistelRound, IntegrityTag, r.code);
  }

  lemma TokenNames(r: RoomRef, id: string)
    requires IsRoomOf(r) && Trim(id) == id && IsRoomToken(id)
    ensures ResolvePlain(id) == Some(r) <==> Names(id, r)
  {
    if Lower(id) == r.token {
      TokenIsPlain(r);
      CaseDoesNotMatter(id, r.token);
      TokenResolves(r);
    }
  }

  lemma DigitsName(r: RoomRef, id: string)
    requires IsRoomOf(r) && Trim(id) == id && !IsRoomToken(id)
    ensures ResolvePlain(id) == Some(r) <==> Names(id, r)
  {
    CanonicalIsTrimmed(r.code);
    CodeValueBound(r.code);
    if ValidateRoomCode(id) {
      CodeValueBound(id);
    } else {
      var d := DigitsOnly(id);
      DigitsOnlyAreDigits(id);
      DecimalIsDigit(d);
      if |d| == 12 {
        DashedIsCanonical(d);
      }
    }
  }

  /** The inputs that lead to a room are exactly those that carry one of its names. */
  lemma ResolvesIffNamed(r: RoomRef, input: string)
    requires IsRoomOf(r)
    ensures ResolveRoomIdentifier(input) == Some(r) <==> Names(UrlPart(Trim(input), 0), r)
  {
    var id := UrlPart(Trim(input), 0);
    CodeValueBound(r.code);
    TrimIsTrimmed(input);
    UrlPartTrimmed(Trim(input));
    if input == [] {
      assert id == [] && DigitsOnly([]) == [] && !IsRoomToken([]);
    } else if IsRoomToken(id) {
      TokenNames(r, id);
    } else {
      DigitsName(r, id);
    }
  }

  lemma {:induction false} IdRunStops(id: string, rest: string)
    requires forall i :: 0 <= i < |id| ==> IsIdChar(id[i])
    requires rest == [] || !IsIdChar(rest[0])
    ensures IdRun(id + rest) == id
  {
    if id == [] {
      assert id + rest == rest;
    } else {
      assert (id + rest)[1..] == id[1..] + rest;
      IdRunStops(id[1..], rest);
    }
  }

  lemma {:induction false} UrlPartFinds(s: string, from: nat, at: nat)
    requires from <= at && RoomPathAt(s, at)
    requires forall i :: from <= i < at ==> !RoomPathAt(s, i)
    ensures UrlPart(s, from) == IdRun(s[at + 6..])
    decreases at - from
  {
    if from < at {
      UrlPartFinds(s, from + 1, at);
    }
  }

  lemma LinkShape(id: string, before: string, after: string)
    requires id != [] && IsIdChar(id[0])
    ensures var url := before + ROOM_PATH + id + after;
      |before| + 6 <= |url| && url[|before| + 6..] == id + after && RoomPathAt(url, |before|)
  {
    var url := before + ROOM_PATH + id + after;
    var at := |before|;
    assert url[at..at + 6] == ROOM_PATH;
    assert url[at + 6] == id[0];
  }

  /** A link carries the identifier that follows its first room path. */
  lemma {:induction false} LinkCarries(id: string, before: string, after: string)
    requires id != [] && forall i :: 0 <= i < |id| ==> IsIdChar(id[i])
    requires after == [] || !IsIdChar(after[0])
    requires forall i :: 0 <= i < |before| ==> !RoomPathAt(before + ROOM_PATH + id + after, i)
    ensures UrlPart(before + ROOM_PATH + id + after, 0) == id
  {
    LinkShape(id, before, after);
    UrlPartFinds(before + ROOM_PATH + id + after, 0, |before|);
    IdRunStops(id, after);
  }

  /** Every name of a room made of identifier characters leads to it, bare or in any link whose first room path carries it. */
  lemma AllFormsAgree(r: RoomRef, id: string, before: string, after: string)
    requires IsRoomOf(r) && Names(id, r) && forall i :: 0 <= i < |id| ==> IsIdChar(id[i])
    requires after == [] || !IsIdChar(after[0])
    requires forall i :: 0 <= i < |before| ==> !RoomPathAt(before + ROOM_PATH + id + after, i)
    requires Trimmed(before + ROOM_PATH + id + after)
    ensures ResolveRoomIdentifier(id) == ResolveRoomIdentifier(before + ROOM_PATH + id + after) == Some(r)
  {
    var link := before + ROOM_PATH + id + after;
    NamesAreNotEmpty(r, id);
    TrimTrimmed(id);
    NoSlash(id, 0);
    ResolvesIffNamed(r, id);
    LinkCarries(id, before, after);
    TrimTrimmed(link);
    ResolvesIffNamed(r, link);
  }

  lemma NamesAreNotEmpty(r: RoomRef, id: string)
    requires IsRoomOf(r) && Names(id, r)
    ensures id != []
  {
    CodeValueBound(r.code);
  }

  /** The code, its bare digits, and the token in letters of either case are such names. */
  lemma UsualForms(r: RoomRef, shouted: string)
    requires IsRoomOf(r) && IsRoomToken(shouted) && Trim(shouted) == shouted && Lower(shouted) == r.token
    ensures Names(r.code, r) && Names(DigitsOnly(r.code), r) && Names(r.token, r) && Names(shouted, r)
  {
    CanonicalIsTrimmed(r.code);
    CodeValueBound(r.code);
    TokenIsPlain(r);
    var d := DigitsOnly(r.code);
    DecimalIsDigit(d);
    DigitsOnlyDigits(d);
    TrimTrimmed(d);
  }

  /** Blanks around the input make no difference. */
  lemma BlanksDoNotMatter(input: string)
    ensures ResolveRoomIdentifier(input) == ResolveRoomIdentifier(Trim(input))
  {
    TrimTwice(input);
    if Trim(input) == [] {
      assert UrlPart([], 0) == [] && !IsRoomToken([]) && !ValidateRoomCode([]) && DigitsOnly([]) == [];
    }
  }
}
