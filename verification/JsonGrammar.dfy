/** The texts the parser accepts: every one is a JSON text of the value it returns, in the
    grammar of RFC 8259 without reals, and its strings are read exactly by that grammar. */
module JsonGrammar {
  import opened Identity
  import opened Crc32c
  import opened Json
  import opened JsonRoundTrip

  // ---- Code points ---------------------------------------------------------------------------

  predicate IsTail(b: Byte) {
    0x80 <= b < 0xc0
  }

  /** What a byte carries behind its marker. */
  function Bits(b: Byte, marker: nat): nat
    requires marker <= b
  {
    var value: int := b;
    value - marker
  }

  function Least(code: nat, least: nat): Option<nat> {
    if least <= code < 0x110000 then Some(code) else None
  }

  /** The code point of one UTF-8 sequence, in its shortest form (section 3 of RFC 3629). */
  function CodePoint(s: Text): Option<nat> {
    if |s| == 1 && s[0] < 0x80 then Some(s[0])
    else if |s| == 2 && 0xc0 <= s[0] < 0xe0 && IsTail(s[1]) then
      Least(Bits(s[0], 0xc0) * 64 + Bits(s[1], 0x80), 0x80)
    else if |s| == 3 && 0xe0 <= s[0] < 0xf0 && IsTail(s[1]) && IsTail(s[2]) then
      Least(Bits(s[0], 0xe0) * 4096 + Bits(s[1], 0x80) * 64 + Bits(s[2], 0x80), 0x800)
    else if |s| == 4 && 0xf0 <= s[0] < 0xf8 && IsTail(s[1]) && IsTail(s[2]) && IsTail(s[3]) then
      Least(Bits(s[0], 0xf0) * 262144 + Bits(s[1], 0x80) * 4096 + Bits(s[2], 0x80) * 64 + Bits(s[3], 0x80), 0x10000)
    else None
  }

  lemma {:induction false} Sixths(code: nat, a: nat, b: nat, c: nat, d: nat)
    requires b < 64 && c < 64 && d < 64 && code == 262144 * a + 4096 * b + 64 * c + d
    ensures code % 64 == d && code / 64 % 64 == c && code / 4096 % 64 == b && code / 262144 == a
    ensures code / 64 == 4096 * a + 64 * b + c && code / 4096 == 64 * a + b
  {
    assert code / 64 == 4096 * a + 64 * b + c;
    assert code / 4096 == 64 * a + b;
  }

  lemma {:induction false} SixthsOf(code: nat)
    ensures code == 262144 * (code / 262144) + 4096 * (code / 4096 % 64) + 64 * (code / 64 % 64) + code % 64
  {
    var q := code / 64;
    assert code == 64 * q + code % 64;
    assert q == 64 * (q / 64) + q % 64;
    assert q / 64 == code / 4096;
    assert code / 4096 == 64 * (code / 262144) + code / 4096 % 64;
  }

  /** The bytes written for a code point are its UTF-8 sequence, and no others are. */
  lemma {:induction false} Utf8Iff(code: nat, s: Text)
    requires code < 0x110000
    ensures s == Utf8(code) <==> CodePoint(s) == Some(code)
  {
    Utf8Decodes(code);
    if CodePoint(s) == Some(code) {
      Utf8Unique(code, s);
    }
  }

  lemma {:induction false} Utf8Decodes(code: nat)
    requires code < 0x110000
    ensures CodePoint(Utf8(code)) == Some(code)
  {
    SixthsOf(code);
    if 0x80 <= code < 0x800 {
      TwoBytes(code, code / 64, code % 64);
    } else if 0x800 <= code < 0x10000 {
      ThreeBytes(code, code / 4096, code / 64 % 64, code % 64);
    } else if 0x10000 <= code {
      FourBytes(code, code / 262144, code / 4096 % 64, code / 64 % 64, code % 64);
    }
  }

  lemma {:induction false} TwoBytes(code: nat, c: nat, d: nat)
    requires 0x80 <= code < 0x800 && d < 64 && code == 64 * c + d
    ensures CodePoint([0xc0 + c, 0x80 + d]) == Some(code)
  {
  }

  lemma {:induction false} ThreeBytes(code: nat, b: nat, c: nat, d: nat)
    requires 0x800 <= code < 0x10000 && c < 64 && d < 64 && code == 4096 * b + 64 * c + d
    ensures CodePoint([0xe0 + b, 0x80 + c, 0x80 + d]) == Some(code)
  {
  }

  lemma {:induction false} FourBytes(code: nat, a: nat, b: nat, c: nat, d: nat)
    requires 0x10000 <= code < 0x110000 && b < 64 && c < 64 && d < 64
    requires code == 262144 * a + 4096 * b + 64 * c + d
    ensures CodePoint([0xf0 + a, 0x80 + b, 0x80 + c, 0x80 + d]) == Some(code)
  {
  }

  lemma {:induction false} Utf8Unique(code: nat, s: Text)
    requires code < 0x110000 && CodePoint(s) == Some(code)
    ensures s == Utf8(code)
  {
    if |s| == 2 {
      Sixths(code, 0, 0, Bits(s[0], 0xc0), Bits(s[1], 0x80));
    } else if |s| == 3 {
      Sixths(code, 0, Bits(s[0], 0xe0), Bits(s[1], 0x80), Bits(s[2], 0x80));
    } else if |s| == 4 {
      Sixths(code, Bits(s[0], 0xf0), Bits(s[1], 0x80), Bits(s[2], 0x80), Bits(s[3], 0x80));
    }
  }

  // ---- Escapes -----------------------------------------------------------------------------------

  /** A hexadecimal digit in either case. */
  predicate SpellsDigit(b: Byte, n: nat) {
    n < 16 && (b == HexDigit(n) || (n >= 10 && b == 55 + n))
  }

  lemma {:induction false} HexIff(b: Byte, n: nat)
    ensures HexValue(b) == Some(n) <==> SpellsDigit(b, n)
  {
  }

  predicate SpellsHex(s: Text, code: nat) {
    && |s| == 4 && code < 0x10000
    && SpellsDigit(s[0], code / 4096) && SpellsDigit(s[1], code / 256 % 16)
    && SpellsDigit(s[2], code / 16 % 16) && SpellsDigit(s[3], code % 16)
  }

  lemma {:induction false} Nibbles(code: nat, a: nat, b: nat, c: nat, d: nat)
    requires a < 16 && b < 16 && c < 16 && d < 16
    ensures code == 4096 * a + 256 * b + 16 * c + d <==>
              code < 0x10000 && code / 4096 == a && code / 256 % 16 == b && code / 16 % 16 == c && code % 16 == d
  {
    NibblesOf(code);
    if code == 4096 * a + 256 * b + 16 * c + d {
      NibblesAre(code, a, b, c, d);
    }
  }

  lemma {:induction false} NibblesOf(code: nat)
    ensures code == 4096 * (code / 4096) + 256 * (code / 256 % 16) + 16 * (code / 16 % 16) + code % 16
  {
    var q := code / 16;
    assert code == 16 * q + code % 16;
    assert q == 16 * (q / 16) + q % 16 && q / 16 == code / 256;
    assert code / 256 == 16 * (code / 4096) + code / 256 % 16;
  }

  lemma {:induction false} NibblesAre(code: nat, a: nat, b: nat, c: nat, d: nat)
    requires a < 16 && b < 16 && c < 16 && d < 16 && code == 4096 * a + 256 * b + 16 * c + d
    ensures code < 0x10000 && code / 4096 == a && code / 256 % 16 == b && code / 16 % 16 == c && code % 16 == d
  {
    assert code / 16 == 256 * a + 16 * b + c;
    assert code / 256 == 16 * a + b;
  }

  lemma {:induction false} Hex4Iff(text: Text, pos: nat, code: nat)
    ensures Hex4(text, pos) == Some(code) <==> pos + 4 <= |text| && SpellsHex(text[pos..pos + 4], code)
  {
    if pos + 4 <= |text| {
      var s := text[pos..pos + 4];
      assert s[0] == text[pos] && s[1] == text[pos + 1] && s[2] == text[pos + 2] && s[3] == text[pos + 3];
      var a, b, c, d := HexValue(s[0]), HexValue(s[1]), HexValue(s[2]), HexValue(s[3]);
      HexIff(s[0], code / 4096);
      HexIff(s[1], code / 256 % 16);
      HexIff(s[2], code / 16 % 16);
      HexIff(s[3], code % 16);
      if a.Some? && b.Some? && c.Some? && d.Some? {
        Nibbles(code, a.value, b.value, c.value, d.value);
      }
    }
  }

  predicate IsSurrogate(code: nat) {
    0xd800 <= code < 0xe000
  }

  /** Backslash, u and four digits. */
  predicate SpellsUnit(s: Text, code: nat) {
    |s| == 6 && s[0] == BACKSLASH && s[1] == LETTER_U && SpellsHex(s[2..6], code)
  }

  /** One escape for the code points below 65536, a surrogate pair for those above. */
  predicate SpellsCode(s: Text, code: nat) {
    if code < 0x10000 then SpellsUnit(s, code) && !IsSurrogate(code)
    else
      && code < 0x110000 && |s| == 12
      && SpellsUnit(s[..6], 0xd800 + (code - 0x10000) / 1024)
      && SpellsUnit(s[6..], 0xdc00 + (code - 0x10000) % 1024)
  }

  /** The two-character escapes (section 7 of RFC 8259). */
  const SHORT_ESCAPES: map<Byte, Byte> :=
    map[34 := 34, 92 := 92, 47 := 47, 98 := 8, 102 := 12, 110 := 10, 114 := 13, 116 := 9]

  /** One character of a string, as written and as meant. */
  ghost predicate Unit(s: Text, bytes: Text) {
    || (|s| == 1 && s[0] >= 32 && s[0] != QUOTE && s[0] != BACKSLASH && bytes == s)
    || (|s| == 2 && s[0] == BACKSLASH && s[1] in SHORT_ESCAPES && bytes == [SHORT_ESCAPES[s[1]]])
    || exists code: nat :: SpellsCode(s, code) && CodePoint(bytes) == Some(code)
  }

  lemma {:induction false} PairOf(high: nat, low: nat, code: nat)
    requires 0xd800 <= high <= 0xdbff && 0xdc00 <= low <= 0xdfff
    ensures code == 0x10000 + 1024 * (high - 0xd800) + (low - 0xdc00) <==>
              0x10000 <= code < 0x110000 && high == 0xd800 + (code - 0x10000) / 1024
              && low == 0xdc00 + (code - 0x10000) % 1024
  {
    if code >= 0x10000 {
      var c := code - 0x10000;
      assert c == 1024 * (c / 1024) + c % 1024;
    }
  }

  lemma {:induction false} SixAt(text: Text, pos: nat, code: nat)
    requires pos + 6 <= |text|
    ensures SpellsUnit(text[pos..pos + 6], code) <==>
              Here(text, pos, BACKSLASH) && Here(text, pos + 1, LETTER_U) && Hex4(text, pos + 2) == Some(code)
  {
    var s := text[pos..pos + 6];
    assert s[2..6] == text[pos + 2..pos + 6];
    Hex4Iff(text, pos + 2, code);
  }

  lemma {:induction false} UnicodeCases(text: Text, at: nat, u: Json.Unit)
    requires u == UnicodeUnit(text, at) && u.Piece?
    ensures Hex4(text, at).Some?
    ensures var code := Hex4(text, at).value;
            if 0xd800 <= code <= 0xdbff then
              && Here(text, at + 4, BACKSLASH) && Here(text, at + 5, LETTER_U) && Hex4(text, at + 6).Some?
              && var low := Hex4(text, at + 6).value;
                 && 0xdc00 <= low <= 0xdfff && u.next == at + 10
                 && u.bytes == Utf8(0x10000 + 1024 * (code - 0xd800) + (low - 0xdc00))
            else !IsSurrogate(code) && u.next == at + 4 && u.bytes == Utf8(code)
  {
  }

  /** What an escape reads as, when it does. */
  lemma {:induction false} UnicodeSound(text: Text, pos: nat, bytes: Text, next: nat)
    requires Here(text, pos, BACKSLASH) && Here(text, pos + 1, LETTER_U)
    requires UnicodeUnit(text, pos + 2) == Piece(bytes, next, true)
    ensures pos < next <= |text| && Unit(text[pos..next], bytes)
  {
    UnicodeCases(text, pos + 2, UnicodeUnit(text, pos + 2));
    var code := Hex4(text, pos + 2).value;
    SixAt(text, pos, code);
    if 0xd800 <= code <= 0xdbff {
      var low := Hex4(text, pos + 8).value;
      SixAt(text, pos + 6, low);
      PairSound(text, pos, bytes, code, low, 0x10000 + 1024 * (code - 0xd800) + (low - 0xdc00));
    } else {
      CodeSound(text[pos..pos + 6], bytes, code);
    }
  }

  lemma {:induction false} CodeSound(s: Text, bytes: Text, code: nat)
    requires SpellsCode(s, code) && code < 0x110000 && bytes == Utf8(code)
    ensures Unit(s, bytes)
  {
    Utf8Decodes(code);
  }

  lemma {:induction false} PairSound(text: Text, pos: nat, bytes: Text, high: nat, low: nat, code: nat)
    requires pos + 12 <= |text| && 0xd800 <= high <= 0xdbff && 0xdc00 <= low <= 0xdfff
    requires SpellsUnit(text[pos..pos + 6], high) && SpellsUnit(text[pos + 6..pos + 12], low)
    requires code == 0x10000 + 1024 * (high - 0xd800) + (low - 0xdc00) && bytes == Utf8(code)
    ensures Unit(text[pos..pos + 12], bytes)
  {
    PairOf(high, low, code);
    var s := text[pos..pos + 12];
    assert s[..6] == text[pos..pos + 6] && s[6..] == text[pos + 6..pos + 12];
    CodeSound(s, bytes, code);
  }

  lemma {:induction false} OneRead(text: Text, at: nat, code: nat)
    requires Hex4(text, at) == Some(code) && !IsSurrogate(code)
    ensures UnicodeUnit(text, at) == Piece(Utf8(code), at + 4, true)
  {
  }

  lemma {:induction false} PairRead(text: Text, at: nat, high: nat, low: nat, code: nat)
    requires Hex4(text, at) == Some(high) && 0xd800 <= high <= 0xdbff
    requires Here(text, at + 4, BACKSLASH) && Here(text, at + 5, LETTER_U)
    requires Hex4(text, at + 6) == Some(low) && 0xdc00 <= low <= 0xdfff
    requires code == 0x10000 + 1024 * (high - 0xd800) + (low - 0xdc00)
    ensures UnicodeUnit(text, at) == Piece(Utf8(code), at + 10, true)
  {
  }

  lemma {:induction false} PairParts(text: Text, pos: nat, code: nat) returns (high: nat, low: nat)
    requires pos + 12 <= |text| && 0x10000 <= code < 0x110000 && SpellsCode(text[pos..pos + 12], code)
    ensures 0xd800 <= high <= 0xdbff && 0xdc00 <= low <= 0xdfff
    ensures code == 0x10000 + 1024 * (high - 0xd800) + (low - 0xdc00)
    ensures SpellsUnit(text[pos..pos + 6], high) && SpellsUnit(text[pos + 6..pos + 12], low)
  {
    var s := text[pos..pos + 12];
    high, low := 0xd800 + (code - 0x10000) / 1024, 0xdc00 + (code - 0x10000) % 1024;
    assert s[..6] == text[pos..pos + 6] && s[6..] == text[pos + 6..pos + 12];
    PairOf(high, low, code);
  }

  lemma {:induction false} PairComplete(text: Text, pos: nat, code: nat)
    requires pos + 12 <= |text| && 0x10000 <= code < 0x110000 && SpellsCode(text[pos..pos + 12], code)
    ensures Here(text, pos, BACKSLASH) && Here(text, pos + 1, LETTER_U)
    ensures UnicodeUnit(text, pos + 2) == Piece(Utf8(code), pos + 12, true)
  {
    var high, low := PairParts(text, pos, code);
    SixAt(text, pos, high);
    SixAt(text, pos + 6, low);
    PairRead(text, pos + 2, high, low, code);
  }

  lemma {:induction false} UnicodeComplete(text: Text, pos: nat, bytes: Text, next: nat, code: nat)
    requires pos < next <= |text| && SpellsCode(text[pos..next], code) && CodePoint(bytes) == Some(code)
    ensures Here(text, pos, BACKSLASH) && Here(text, pos + 1, LETTER_U)
    ensures UnicodeUnit(text, pos + 2) == Piece(bytes, next, true)
  {
    Utf8Unique(code, bytes);
    if code < 0x10000 {
      SixAt(text, pos, code);
      OneRead(text, pos + 2, code);
    } else {
      PairComplete(text, pos, code);
    }
  }

  lemma {:induction false} UnitSound(text: Text, pos: nat, u: Json.Unit)
    requires u == NextUnit(text, pos) && u.Piece?
    ensures pos < u.next <= |text| && Unit(text[pos..u.next], u.bytes)
    ensures u.escaped || |u.bytes| == 1
  {
    var s := text[pos..u.next];
    if text[pos] == BACKSLASH {
      if text[pos + 1] == LETTER_U {
        UnicodeSound(text, pos, u.bytes, u.next);
      } else {
        assert s[0] == BACKSLASH && s[1] == text[pos + 1];
      }
    } else {
      assert s == [text[pos]];
    }
  }

  lemma {:induction false} ShortRead(text: Text, pos: nat)
    requires Here(text, pos, BACKSLASH) && pos + 1 < |text|
    ensures text[pos + 1] in SHORT_ESCAPES ==>
              NextUnit(text, pos) == Piece([SHORT_ESCAPES[text[pos + 1]]], pos + 2, true)
    ensures text[pos + 1] == LETTER_U ==> NextUnit(text, pos) == UnicodeUnit(text, pos + 2)
  {
  }

  lemma {:induction false} UnitComplete(text: Text, pos: nat, next: nat, bytes: Text)
    requires pos < next <= |text| && Unit(text[pos..next], bytes)
    ensures var u := NextUnit(text, pos);
            u.Piece? && u.bytes == bytes && u.next == next && (u.escaped || |bytes| == 1)
  {
    var s := text[pos..next];
    assert s[0] == text[pos];
    if |s| == 2 {
      assert s[1] == text[pos + 1];
      ShortRead(text, pos);
    } else if |s| != 1 {
      var code: nat :| SpellsCode(s, code) && CodePoint(bytes) == Some(code);
      UnicodeComplete(text, pos, bytes, next, code);
      ShortRead(text, pos);
    }
  }

  // ---- Strings --------------------------------------------------------------------------------------

  /** The characters between the quotes, and what they mean. */
  ghost predicate Spells(body: Text, s: Text)
    decreases |body|
  {
    if body == [] then s == []
    else exists k: nat, n: nat :: SpellsFrom(body, s, k, n)
  }

  ghost predicate SpellsFrom(body: Text, s: Text, k: nat, n: nat)
    decreases |body|, 0
  {
    0 < k <= |body| && n <= |s| && Unit(body[..k], s[..n]) && Spells(body[k..], s[n..])
  }

  lemma {:induction false} StringTurn(text: Text, pos: nat, sofar: Text, max: nat, u: Json.Unit)
    requires pos <= |text| && u == NextUnit(text, pos) && u.Piece?
    ensures u.next <= |text|
    ensures ParseString(text, pos, sofar, max)
         == if (!u.escaped && |sofar| >= max) || (u.escaped && |sofar + u.bytes| > max) then BadText
            else ParseString(text, u.next, sofar + u.bytes, max)
  {
  }

  lemma {:induction false} SpellsMore(body: Text, s: Text, first: Text, bytes: Text, rest: Text, tail: Text)
    requires body == first + rest && s == bytes + tail && first != [] && Unit(first, bytes) && Spells(rest, tail)
    ensures Spells(body, s)
  {
    assert body[..|first|] == first && body[|first|..] == rest;
    assert s[..|bytes|] == bytes && s[|bytes|..] == tail;
    assert SpellsFrom(body, s, |first|, |bytes|);
  }

  lemma {:induction false} StringCases(text: Text, pos: nat, sofar: Text, max: nat, u: Json.Unit, all: Text, next: nat)
    requires pos <= |text| && |sofar| <= max && u == NextUnit(text, pos)
    requires ParseString(text, pos, sofar, max) == GotText(all, next)
    ensures u.Close? || u.Piece?
    ensures u.Close? ==> pos < |text| && text[pos] == QUOTE && next == pos + 1 && all == sofar
    ensures u.Piece? ==>
              && pos < u.next <= |text| && |sofar + u.bytes| <= max
              && ParseString(text, u.next, sofar + u.bytes, max) == GotText(all, next)
  {
    if u.Piece? && !u.escaped {
      assert |u.bytes| == 1;
    }
  }

  lemma {:induction false} StringSound(text: Text, pos: nat, sofar: Text, max: nat, all: Text, next: nat)
    requires pos <= |text| && |sofar| <= max && ParseString(text, pos, sofar, max) == GotText(all, next)
    ensures pos < next <= |text| && text[next - 1] == QUOTE && |sofar| <= |all| <= max && all[..|sofar|] == sofar
    ensures Spells(text[pos..next - 1], all[|sofar|..])
    decreases |text| - pos
  {
    var u := NextUnit(text, pos);
    StringCases(text, pos, sofar, max, u, all, next);
    if u.Piece? {
      StringSound(text, u.next, sofar + u.bytes, max, all, next);
      UnitThen(text, pos, next - 1, sofar, all, u);
    } else {
      assert text[pos..next - 1] == [] && all[|sofar|..] == [];
    }
  }

  lemma {:induction false} UnitThen(text: Text, pos: nat, end: nat, sofar: Text, all: Text, u: Json.Unit)
    requires u == NextUnit(text, pos) && u.Piece? && u.next <= end <= |text|
    requires |sofar + u.bytes| <= |all| && all[..|sofar + u.bytes|] == sofar + u.bytes
    requires Spells(text[u.next..end], all[|sofar + u.bytes|..])
    ensures pos < end && |sofar| <= |all| && all[..|sofar|] == sofar && Spells(text[pos..end], all[|sofar|..])
  {
    UnitSound(text, pos, u);
    UnitBefore(text, pos, u.next, end, sofar, u.bytes, all);
  }

  lemma {:induction false} UnitBefore(text: Text, pos: nat, mid: nat, end: nat, sofar: Text, bytes: Text, all: Text)
    requires pos < mid <= end <= |text| && Unit(text[pos..mid], bytes)
    requires |sofar + bytes| <= |all| && all[..|sofar + bytes|] == sofar + bytes
    requires Spells(text[mid..end], all[|sofar + bytes|..])
    ensures all[..|sofar|] == sofar && Spells(text[pos..end], all[|sofar|..])
  {
    var longer := sofar + bytes;
    assert all == longer + all[|longer|..];
    assert all[..|sofar|] == longer[..|sofar|];
    SpellsMore(text[pos..end], all[|sofar|..], text[pos..mid], bytes, text[mid..end], all[|longer|..]);
  }

  lemma {:induction false} StringComplete(text: Text, pos: nat, sofar: Text, max: nat, s: Text, end: nat,
                                          r: ParsedText)
    requires pos <= end && Here(text, end, QUOTE) && Spells(text[pos..end], s) && |sofar + s| <= max
    requires r == ParseString(text, pos, sofar, max)
    ensures r == GotText(sofar + s, end + 1)
    decreases end - pos
  {
    if pos == end {
      assert sofar + s == sofar;
    } else {
      var mid, n := StringGoesOn(text, pos, sofar, max, s, end, r);
      assert sofar + s == (sofar + s[..n]) + s[n..];
      StringComplete(text, mid, sofar + s[..n], max, s[n..], end, r);
    }
  }

  lemma {:induction false} StringGoesOn(text: Text, pos: nat, sofar: Text, max: nat, s: Text, end: nat, r: ParsedText)
    returns (mid: nat, n: nat)
    requires pos < end && Here(text, end, QUOTE) && Spells(text[pos..end], s) && |sofar + s| <= max
    requires r == ParseString(text, pos, sofar, max)
    ensures pos < mid <= end && n <= |s| && Spells(text[mid..end], s[n..])
    ensures r == ParseString(text, mid, sofar + s[..n], max)
  {
    mid, n := FirstUnit(text, pos, end, s);
    UnitComplete(text, pos, mid, s[..n]);
    StringTurn(text, pos, sofar, max, NextUnit(text, pos));
  }

  lemma {:induction false} FirstUnit(text: Text, pos: nat, end: nat, s: Text) returns (mid: nat, n: nat)
    requires pos < end <= |text| && Spells(text[pos..end], s)
    ensures pos < mid <= end && n <= |s| && Unit(text[pos..mid], s[..n]) && Spells(text[mid..end], s[n..])
  {
    var body := text[pos..end];
    var k: nat, m: nat :| SpellsFrom(body, s, k, m);
    mid, n := pos + k, m;
    assert body[..k] == text[pos..mid] && body[k..] == text[mid..end];
  }

  /** A string is read exactly when it is spelled up to a closing quote and not too long,
      and then as what it spells. */
  lemma {:induction false} StringIff(text: Text, pos: nat, max: nat, s: Text, next: nat)
    requires pos <= |text|
    ensures ParseString(text, pos, [], max) == GotText(s, next) <==>
              && pos < next <= |text| && text[next - 1] == QUOTE && |s| <= max && Spells(text[pos..next - 1], s)
  {
    if ParseString(text, pos, [], max) == GotText(s, next) {
      StringSound(text, pos, [], max, s, next);
    }
    if pos < next <= |text| && text[next - 1] == QUOTE && |s| <= max && Spells(text[pos..next - 1], s) {
      assert [] + s == s;
      StringComplete(text, pos, [], max, s, next - 1, ParseString(text, pos, [], max));
    }
  }

  // ---- Numbers ---------------------------------------------------------------------------------------

  lemma {:induction false} DigitsUnique(s: Text)
    requires s != [] && AllDigits(s) && (s[0] == ZERO_DIGIT ==> |s| == 1)
    ensures s == Digits(ValueOf(s))
    ensures |s| > 1 ==> ValueOf(s) >= 10
  {
    var n := |s| - 1;
    var last: int := s[n];
    assert IsDigit(s[n]);
    if n > 0 {
      DigitsUnique(s[..n]);
      var v := ValueOf(s[..n]);
      assert v >= 1 by {
        if |s[..n]| == 1 {
          assert s[..n] == [s[0]] && IsDigit(s[0]);
          assert s[..n][..0] == [];
        }
      }
      assert ValueOf(s) == 10 * v + (last - 48);
      assert ValueOf(s) / 10 == v && ValueOf(s) % 10 == last - 48;
      assert s == s[..n] + [s[n]];
    } else {
      assert s[..0] == [] && ValueOf(s) == last - 48;
      assert s == [s[0]];
    }
  }

  lemma {:induction false} DigitsEndStops(text: Text, pos: nat)
    requires pos <= |text|
    ensures var end := DigitsEnd(text, pos); end < |text| ==> !IsDigit(text[end])
    decreases |text| - pos
  {
    if pos < |text| && IsDigit(text[pos]) {
      DigitsEndStops(text, pos + 1);
    }
  }

  /** The decimal form of the number: no leading zero, a sign only in front of what is
      stored signed, and within 64 bits. */
  predicate IsNumeral(s: Text, v: Value) {
    match v
    case Uint(n) => n <= U64_MAX && s == Digits(n)
    case Int(i) => I64_MIN <= i <= 0 && s == [MINUS] + Digits(-i)
    case _ => false
  }

  /** A number is read exactly when its decimal form stands there and what follows does
      not continue it. */
  lemma {:induction false} NumberIff(text: Text, pos: nat, nodes: nat, v: Value, end: nat)
    requires pos <= |text|
    ensures ParseNumber(text, pos, nodes) == Got(v, end, nodes) <==>
              pos <= end <= |text| && IsNumeral(text[pos..end], v) && NumberEnds(text, end)
  {
    if ParseNumber(text, pos, nodes) == Got(v, end, nodes) {
      NumberSound(text, pos, nodes, v, end);
    }
    if pos <= end <= |text| && IsNumeral(text[pos..end], v) && NumberEnds(text, end) {
      NumberComplete(text, pos, nodes, v, end);
    }
  }

  lemma {:induction false} NumberSound(text: Text, pos: nat, nodes: nat, v: Value, end: nat)
    requires pos <= |text| && ParseNumber(text, pos, nodes) == Got(v, end, nodes)
    ensures pos < end <= |text| && IsNumeral(text[pos..end], v) && NumberEnds(text, end)
  {
    var start := if Here(text, pos, MINUS) then pos + 1 else pos;
    DigitsEndStops(text, start);
    var ds := text[start..end];
    assert ds[0] == text[start];
    DigitsUnique(ds);
    if start > pos {
      assert text[pos..end] == [MINUS] + ds;
    }
  }

  lemma {:induction false} NumberComplete(text: Text, pos: nat, nodes: nat, v: Value, end: nat)
    requires pos <= end <= |text| && IsNumeral(text[pos..end], v) && NumberEnds(text, end)
    ensures ParseNumber(text, pos, nodes) == Got(v, end, nodes)
  {
    var s := text[pos..end];
    SliceFound(text, pos, s);
    if v.Uint? {
      UnsignedDumped(text, pos, v.count, nodes);
    } else if v.number < 0 {
      NegativeDumped(text, pos, v.number, nodes);
    } else {
      assert s == [MINUS, ZERO_DIGIT];
      assert text[pos] == s[0] && text[pos + 1] == s[1];
      MinusZero(text, pos, nodes);
    }
  }

  lemma {:induction false} MinusZero(text: Text, pos: nat, nodes: nat)
    requires Here(text, pos, MINUS) && Here(text, pos + 1, ZERO_DIGIT) && NumberEnds(text, pos + 2)
    ensures ParseNumber(text, pos, nodes) == Got(Int(0), pos + 2, nodes)
  {
    assert DigitsEnd(text, pos + 1) == pos + 2;
    assert text[pos + 1..pos + 2] == [ZERO_DIGIT];
    assert ValueOf([ZERO_DIGIT]) == 0;
  }
}
