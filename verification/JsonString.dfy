/**
 JSON string literals, as encoding/json decodes them: a byte-level scan that rejects ill-formed text,
 then a decoder that resolves escapes and re-encodes code points as UTF-8. The grammar it is compared
 with is the `char` production of section 7 of RFC 8259.
 */
module JsonString {
  import opened Basics

  const QUOTE: Byte := 0x22
  const BACKSLASH: Byte := 0x5C
  const LETTER_U: Byte := 0x75
  const RUNE_ERROR: Scalar := 0xFFFD

  // ---------- UTF-8 ----------

  // Unicode scalar values.
  type Scalar = c: int | 0 <= c < 0xD800 || 0xE000 <= c < 0x11_0000

  function Utf8(c: Scalar): (s: Bytes)
    ensures 1 <= |s| <= 4
  {
    if c < 0x80 then [c]
    else if c < 0x800 then [0xC0 + c / 64, 0x80 + c % 64]
    else if c < 0x1_0000 then [0xE0 + c / 4096, 0x80 + c / 64 % 64, 0x80 + c % 64]
    else [0xF0 + c / 262144, 0x80 + c / 4096 % 64, 0x80 + c / 64 % 64, 0x80 + c % 64]
  }

  // The six payload bits of continuation byte i, if there is one.
  function Bits(s: Bytes, i: nat): (v: Option<int>)
    ensures v.Some? ==> 0 <= v.value < 64
  {
    if i < |s| && 0x80 <= s[i] < 0xC0 then Some(s[i] as int - 0x80) else None
  }

  // utf8.DecodeRune: the first code point and its width, or (RuneError, 1) for anything ill-formed.
  function DecodeRune(s: Bytes): (r: (Scalar, nat))
    requires s != []
    ensures 1 <= r.1 <= |s|
  {
    var b: int := s[0];
    if b < 0x80 then (b, 1)
    else if 0xC2 <= b < 0xE0 && Bits(s, 1).Some? then
      ((b - 0xC0) * 64 + Bits(s, 1).value, 2)
    else if 0xE0 <= b < 0xF0 && Bits(s, 1).Some? && Bits(s, 2).Some? then
      var c := (b - 0xE0) * 4096 + Bits(s, 1).value * 64 + Bits(s, 2).value;
      if c < 0x800 || 0xD800 <= c < 0xE000 then (RUNE_ERROR, 1) else (c, 3)
    else if 0xF0 <= b < 0xF5 && Bits(s, 1).Some? && Bits(s, 2).Some? && Bits(s, 3).Some? then
      var c := (b - 0xF0) * 262144 + Bits(s, 1).value * 4096 + Bits(s, 2).value * 64 + Bits(s, 3).value;
      if c < 0x1_0000 || 0x11_0000 <= c then (RUNE_ERROR, 1) else (c, 4)
    else (RUNE_ERROR, 1)
  }

  lemma ThreeByteUtf8(c: Scalar, rest: Bytes)
    requires 0x800 <= c < 0x1_0000
    ensures DecodeRune(Utf8(c) + rest) == (c, 3)
  {
    var s := Utf8(c) + rest;
    var high, middle, low := c / 4096, c / 64 % 64, c % 64;
    assert c == high * 4096 + middle * 64 + low;
    assert Bits(s, 1) == Some(middle) && Bits(s, 2) == Some(low);
  }

  lemma SixBitDigits(c: nat)
    ensures c == c / 262144 * 262144 + c / 4096 % 64 * 4096 + c / 64 % 64 * 64 + c % 64
  {
    SixBitDigit(c, 64);
    SixBitDigit(c, 4096);
  }

  lemma SixBitDigit(c: nat, unit: nat)
    requires unit == 64 || unit == 4096
    ensures c / unit == c / (64 * unit) * 64 + c / unit % 64
  {
  }

  lemma FourByteUtf8(c: Scalar, rest: Bytes)
    requires 0x1_0000 <= c
    ensures DecodeRune(Utf8(c) + rest) == (c, 4)
  {
    var s := Utf8(c) + rest;
    var high, upper, middle, low := c / 262144, c / 4096 % 64, c / 64 % 64, c % 64;
    SixBitDigits(c);
    assert Bits(s, 1) == Some(upper) && Bits(s, 2) == Some(middle) && Bits(s, 3) == Some(low);
  }

  lemma DecodeRuneInvertsUtf8(c: Scalar, rest: Bytes)
    ensures DecodeRune(Utf8(c) + rest) == (c, |Utf8(c)|)
  {
    if 0x80 <= c < 0x800 {
      assert Bits(Utf8(c) + rest, 1) == Some(c % 64);
    } else if 0x800 <= c < 0x1_0000 {
      ThreeByteUtf8(c, rest);
    } else if 0x1_0000 <= c {
      FourByteUtf8(c, rest);
    }
  }

  lemma SplitDigits(high: nat, upper: nat, middle: nat, low: nat)
    requires upper < 64 && middle < 64 && low < 64
    ensures var c := high * 262144 + upper * 4096 + middle * 64 + low;
            c / 262144 == high && c / 4096 % 64 == upper && c / 64 % 64 == middle && c % 64 == low && c / 4096 == high * 64 + upper
  {
    var c := high * 262144 + upper * 4096 + middle * 64 + low;
    assert c == (high * 4096 + upper * 64 + middle) * 64 + low;
    assert c / 64 == high * 4096 + upper * 64 + middle;
    assert c == (high * 64 + upper) * 4096 + (middle * 64 + low);
    assert c / 4096 == high * 64 + upper;
  }

  predicate IsContinuation(b: Byte) {
    0x80 <= b < 0xC0
  }

  // Section 3 of RFC 3629: the length by range, the marker bits of each byte, and the payload bits in order.
  lemma Utf8Form(c: Scalar)
    ensures var s := Utf8(c);
            && (c < 0x80 ==> s == [c])
            && (0x80 <= c < 0x800 ==>
                  |s| == 2 && 0xC0 <= s[0] < 0xE0 && IsContinuation(s[1]) && c == (s[0] as int - 0xC0) * 64 + (s[1] as int - 0x80))
            && (0x800 <= c < 0x1_0000 ==>
                  && |s| == 3 && 0xE0 <= s[0] < 0xF0 && IsContinuation(s[1]) && IsContinuation(s[2])
                  && c == (s[0] as int - 0xE0) * 4096 + (s[1] as int - 0x80) * 64 + (s[2] as int - 0x80))
            && (0x1_0000 <= c ==>
                  && |s| == 4 && 0xF0 <= s[0] < 0xF8 && IsContinuation(s[1]) && IsContinuation(s[2]) && IsContinuation(s[3])
                  && c == (s[0] as int - 0xF0) * 262144 + (s[1] as int - 0x80) * 4096 + (s[2] as int - 0x80) * 64 + (s[3] as int - 0x80))
  {
    SixBitDigits(c);
  }

  // What DecodeRune reads as more than a byte, or as ASCII, is the UTF-8 form of the code point it returns.
  lemma DecodeRuneReadsUtf8(s: Bytes)
    requires s != [] && (s[0] < 0x80 || DecodeRune(s).1 > 1)
    ensures s[..DecodeRune(s).1] == Utf8(DecodeRune(s).0)
  {
    var (c, width) := DecodeRune(s);
    if width == 2 {
      SplitDigits(0, 0, s[0] - 0xC0, Bits(s, 1).value);
    } else if width == 3 {
      SplitDigits(0, s[0] - 0xE0, Bits(s, 1).value, Bits(s, 2).value);
    } else if width == 4 {
      SplitDigits(s[0] - 0xF0, Bits(s, 1).value, Bits(s, 2).value, Bits(s, 3).value);
    }
  }

  // ---------- Escapes ----------

  function HexValue(b: Byte): (v: Option<int>)
    ensures v.Some? ==> 0 <= v.value < 16
  {
    if 0x30 <= b <= 0x39 then Some(b - 0x30)
    else if 0x61 <= b <= 0x66 then Some(b - 0x61 + 10)
    else if 0x41 <= b <= 0x46 then Some(b - 0x41 + 10)
    else None
  }

  // getu4: the code unit of a leading \uXXXX.
  function CodeUnit(s: Bytes): (u: Option<int>)
    ensures u.Some? ==> |s| >= 6 && s[0] == BACKSLASH && s[1] == LETTER_U && 0 <= u.value < 0x1_0000
  {
    if |s| >= 6 && s[0] == BACKSLASH && s[1] == LETTER_U && HexValue(s[2]).Some? && HexValue(s[3]).Some? && HexValue(s[4]).Some? && HexValue(s[5]).Some?
    then Some(HexValue(s[2]).value * 4096 + HexValue(s[3]).value * 256 + HexValue(s[4]).value * 16 + HexValue(s[5]).value)
    else None
  }

  predicate IsSurrogate(u: int) {
    0xD800 <= u < 0xE000
  }

  // utf16.DecodeRune: the code point of a surrogate pair, if the units form one.
  function PairValue(high: int, low: int): (c: Option<Scalar>)
    ensures c.Some? ==> 0x1_0000 <= c.value
  {
    if 0xD800 <= high < 0xDC00 && 0xDC00 <= low < 0xE000
    then Some((high - 0xD800) * 1024 + (low - 0xDC00) + 0x1_0000)
    else None
  }

  // The two-character escapes: \" \\ \/ \b \f \n \r \t.
  function ShortEscape(b: Byte): Option<Scalar> {
    if b == 0x22 || b == 0x5C || b == 0x2F then Some(b)
    else if b == 0x62 then Some(0x08)
    else if b == 0x66 then Some(0x0C)
    else if b == 0x6E then Some(0x0A)
    else if b == 0x72 then Some(0x0D)
    else if b == 0x74 then Some(0x09)
    else None
  }

  // ---------- The decoder ----------

  // The scanner's verdict on the bytes between the quotes.
  predicate Scan(s: Bytes) {
    if s == [] then true
    else if s[0] == QUOTE || s[0] < 0x20 then false
    else if s[0] != BACKSLASH then Scan(s[1..])
    else if CodeUnit(s).Some? then Scan(s[6..])
    else |s| >= 2 && ShortEscape(s[1]).Some? && Scan(s[2..])
  }

  // The bytes that scanned text stands for. Unpaired surrogates and ill-formed UTF-8 become U+FFFD.
  function Decode(s: Bytes): Bytes
    requires Scan(s)
  {
    if s == [] then []
    else if s[0] == BACKSLASH then
      if CodeUnit(s).Some? then
        var u, tail := CodeUnit(s).value, s[6..];
        if IsSurrogate(u) then
          if CodeUnit(tail).Some? && PairValue(u, CodeUnit(tail).value).Some?
          then
            assert Scan(tail);
            Utf8(PairValue(u, CodeUnit(tail).value).value) + Decode(tail[6..])
          else Utf8(RUNE_ERROR) + Decode(tail)
        else Utf8(u) + Decode(tail)
      else Utf8(ShortEscape(s[1]).value) + Decode(s[2..])
    else if s[0] < 0x80 then [s[0]] + Decode(s[1..])
    else
      var (c, width) := DecodeRune(s);
      ScanSkips(s, width);
      Utf8(c) + Decode(s[width..])
  }

  lemma ScanSkips(s: Bytes, width: nat)
    requires s != [] && s[0] >= 0x80 && width == DecodeRune(s).1
    ensures Scan(s) == Scan(s[width..])
  {
    if width >= 2 {
      assert s[1..][1..] == s[2..];
      assert Scan(s[1..]) == Scan(s[2..]);
    }
    if width >= 3 {
      assert s[2..][1..] == s[3..];
      assert Scan(s[2..]) == Scan(s[3..]);
    }
    if width >= 4 {
      assert s[3..][1..] == s[4..];
      assert Scan(s[3..]) == Scan(s[4..]);
    }
  }

  // json.Unmarshal of a literal that starts and ends with a quote, into a Go string.
  function Unmarshal(raw: Bytes): Option<Bytes>
    requires raw != [] && raw[0] == QUOTE && raw[|raw| - 1] == QUOTE
  {
    if |raw| >= 2 && Scan(raw[1..|raw| - 1]) then Some(Decode(raw[1..|raw| - 1])) else None
  }

  // ---------- The grammar of RFC 8259 ----------

  // One way of writing one code point inside a string literal.
  datatype Piece =
    | Literal(c: Scalar)
    | Short(letter: Byte)
    | Hex(digits: Bytes)
    | Pair(high: Bytes, low: Bytes)

  function Render(p: Piece): Bytes {
    match p
    case Literal(c) => Utf8(c)
    case Short(letter) => [BACKSLASH, letter]
    case Hex(digits) => [BACKSLASH, LETTER_U] + digits
    case Pair(high, low) => [BACKSLASH, LETTER_U] + high + [BACKSLASH, LETTER_U] + low
  }

  // 0-9, a-f and A-F.
  predicate IsDigit(b: Byte, v: int) {
    (0 <= v < 10 && b == 0x30 + v) || (10 <= v < 16 && (b == 0x61 + v - 10 || b == 0x41 + v - 10))
  }

  // The letter after the backslash, and the character it stands for.
  predicate StandsFor(letter: Byte, c: int) {
    || (c == letter && (letter == QUOTE || letter == BACKSLASH || letter == 0x2F))
    || (letter == 0x62 && c == 0x08) || (letter == 0x66 && c == 0x0C) || (letter == 0x6E && c == 0x0A)
    || (letter == 0x72 && c == 0x0D) || (letter == 0x74 && c == 0x09)
  }

  // Four hexadecimal digits that spell u.
  predicate SpellsUnit(digits: Bytes, u: int) {
    && 0 <= u < 0x1_0000 && |digits| == 4 && IsDigit(digits[0], u / 4096) && IsDigit(digits[1], u / 256 % 16)
    && IsDigit(digits[2], u / 16 % 16) && IsDigit(digits[3], u % 16)
  }

  // p is a legal way of writing c; beyond the basic plane, as the UTF-16 surrogate pair of c.
  predicate Spells(p: Piece, c: Scalar) {
    match p
    case Literal(d) => d == c && c >= 0x20 && c != QUOTE && c != BACKSLASH
    case Short(letter) => StandsFor(letter, c)
    case Hex(digits) => SpellsUnit(digits, c)
    case Pair(high, low) =>
      c >= 0x1_0000 && SpellsUnit(high, 0xD800 + (c - 0x1_0000) / 1024) && SpellsUnit(low, 0xDC00 + (c - 0x1_0000) % 1024)
  }

  function RenderAll(ps: seq<Piece>): Bytes {
    if ps == [] then [] else Render(ps[0]) + RenderAll(ps[1..])
  }

  function Utf8All(text: seq<Scalar>): Bytes {
    if text == [] then [] else Utf8(text[0]) + Utf8All(text[1..])
  }

  // ps is a legal escaping of text.
  ghost predicate Escapes(ps: seq<Piece>, text: seq<Scalar>) {
    |ps| == |text| && forall i :: 0 <= i < |ps| ==> Spells(ps[i], text[i])
  }

  lemma DigitValue(b: Byte, v: int)
    requires IsDigit(b, v)
    ensures HexValue(b) == Some(v)
  {
  }

  lemma HexSum(u: nat)
    requires u < 0x1_0000
    ensures u == u / 4096 * 4096 + u / 256 % 16 * 256 + u / 16 % 16 * 16 + u % 16
  {
    assert u / 256 == u / 4096 * 16 + u / 256 % 16;
    assert u / 16 == u / 256 * 16 + u / 16 % 16;
  }

  lemma UnitValue(digits: Bytes, u: int, rest: Bytes)
    requires SpellsUnit(digits, u)
    ensures var s := [BACKSLASH, LETTER_U] + digits + rest; CodeUnit(s) == Some(u) && s[6..] == rest
  {
    DigitValue(digits[0], u / 4096);
    DigitValue(digits[1], u / 256 % 16);
    DigitValue(digits[2], u / 16 % 16);
    DigitValue(digits[3], u % 16);
    HexSum(u);
    hide HexValue;
    assert ([BACKSLASH, LETTER_U] + digits + rest)[2..6] == digits;
  }

  lemma SurrogatesOf(c: Scalar)
    requires c >= 0x1_0000
    ensures PairValue(0xD800 + (c - 0x1_0000) / 1024, 0xDC00 + (c - 0x1_0000) % 1024) == Some(c)
  {
  }

  lemma DecodesPair(s: Bytes, u: int, v: int, c: Scalar)
    requires CodeUnit(s) == Some(u) && CodeUnit(s[6..]) == Some(v) && PairValue(u, v) == Some(c) && Scan(s[6..][6..])
    ensures Scan(s) && Decode(s) == Utf8(c) + Decode(s[6..][6..])
  {
    hide CodeUnit, Utf8;
    assert Scan(s[6..]);
  }

  lemma RendersPair(high: Bytes, low: Bytes, c: Scalar, rest: Bytes)
    requires Spells(Pair(high, low), c) && Scan(rest)
    ensures Scan(Render(Pair(high, low)) + rest)
    ensures Decode(Render(Pair(high, low)) + rest) == Utf8(c) + Decode(rest)
  {
    hide SpellsUnit, CodeUnit, PairValue, Scan, Decode, Utf8;
    var u, v := 0xD800 + (c - 0x1_0000) / 1024, 0xDC00 + (c - 0x1_0000) % 1024;
    var first, second := [BACKSLASH, LETTER_U] + high, [BACKSLASH, LETTER_U] + low;
    var tail := second + rest;
    assert Render(Pair(high, low)) == first + second;
    assert first + second + rest == first + tail;
    UnitValue(high, u, tail);
    UnitValue(low, v, rest);
    SurrogatesOf(c);
    DecodesPair(first + tail, u, v, c);
  }

  lemma DecodesPiece(p: Piece, c: Scalar, rest: Bytes)
    requires Spells(p, c) && Scan(rest)
    ensures Scan(Render(p) + rest)
    ensures Decode(Render(p) + rest) == Utf8(c) + Decode(rest)
  {
    var s := Render(p) + rest;
    match p
    case Literal(_) =>
      if c >= 0x80 {
        DecodeRuneInvertsUtf8(c, rest);
        ScanSkips(s, |Utf8(c)|);
      }
      assert s[|Utf8(c)|..] == rest;
    case Short(_) =>
      assert s[2..] == rest;
      assert CodeUnit(s) == None;
    case Hex(digits) =>
      UnitValue(digits, c, rest);
    case Pair(high, low) =>
      RendersPair(high, low, c, rest);
  }

  // Every legal escaping of every text decodes to that text.
  lemma {:induction false} UnescapeRoundTrip(ps: seq<Piece>, text: seq<Scalar>)
    requires Escapes(ps, text)
    ensures Scan(RenderAll(ps))
    ensures Decode(RenderAll(ps)) == Utf8All(text)
  {
    if ps != [] {
      UnescapeRoundTrip(ps[1..], text[1..]);
      DecodesPiece(ps[0], text[0], RenderAll(ps[1..]));
    }
  }

  lemma HexSplit(a: nat, b: nat, c: nat, d: nat)
    requires b < 16 && c < 16 && d < 16
    ensures var u := a * 4096 + b * 256 + c * 16 + d; u / 4096 == a && u / 256 % 16 == b && u / 16 % 16 == c && u % 16 == d
  {
    var u := a * 4096 + b * 256 + c * 16 + d;
    assert u / 16 == a * 256 + b * 16 + c;
    assert u / 256 == a * 16 + b;
  }

  lemma ValueDigit(b: Byte)
    requires HexValue(b).Some?
    ensures IsDigit(b, HexValue(b).value)
  {
  }

  // The converse of UnitValue.
  lemma UnitSpelled(s: Bytes)
    requires CodeUnit(s).Some?
    ensures SpellsUnit(s[2..6], CodeUnit(s).value) && s == [BACKSLASH, LETTER_U] + s[2..6] + s[6..]
  {
    var a, b, c, d := HexValue(s[2]).value, HexValue(s[3]).value, HexValue(s[4]).value, HexValue(s[5]).value;
    HexSplit(a, b, c, d);
    ValueDigit(s[2]);
    ValueDigit(s[3]);
    ValueDigit(s[4]);
    ValueDigit(s[5]);
    hide HexValue, IsDigit;
    assert s[..2] == [BACKSLASH, LETTER_U];
  }

  // rest goes on with the low half of a pair that u is the high half of.
  ghost predicate Completes(u: int, digits: Bytes, v: int, tail: Bytes, rest: Bytes) {
    && 0xD800 <= u < 0xDC00 && 0xDC00 <= v < 0xE000 && SpellsUnit(digits, v)
    && rest == [0x5C, 0x75] + digits + tail
  }

  lemma PairCompletes(u: int, rest: Bytes)
    requires CodeUnit(rest).Some? && PairValue(u, CodeUnit(rest).value).Some?
    ensures exists low: Bytes, v: int, tail: Bytes :: Completes(u, low, v, tail, rest)
  {
    UnitSpelled(rest);
    assert Completes(u, rest[2..6], CodeUnit(rest).value, rest[6..], rest);
  }

  // An escaped surrogate that is no half of a pair becomes U+FFFD, in UTF-8.
  lemma LoneSurrogate(digits: Bytes, u: int, rest: Bytes)
    requires SpellsUnit(digits, u) && 0xD800 <= u < 0xE000 && Scan(rest)
    requires !exists low: Bytes, v: int, tail: Bytes :: Completes(u, low, v, tail, rest)
    ensures Scan([0x5C, 0x75] + digits + rest)
    ensures Decode([0x5C, 0x75] + digits + rest) == [0xEF, 0xBF, 0xBD] + Decode(rest)
  {
    var s := [BACKSLASH, LETTER_U] + digits + rest;
    UnitValue(digits, u, rest);
    if CodeUnit(rest).Some? && PairValue(u, CodeUnit(rest).value).Some? {
      PairCompletes(u, rest);
    }
    hide CodeUnit, SpellsUnit, PairValue;
    assert Utf8(RUNE_ERROR) == [0xEF, 0xBF, 0xBD];
  }

  lemma WideRuneIsPrefix(s: Bytes)
    requires s != [] && DecodeRune(s).1 > 1
    ensures exists c: Scalar :: Utf8(c) <= s
  {
    DecodeRuneReadsUtf8(s);
    assert Utf8(DecodeRune(s).0) <= s;
  }

  lemma NarrowRune(s: Bytes)
    requires s != [] && s[0] >= 0x80 && DecodeRune(s).1 == 1
    ensures DecodeRune(s).0 == RUNE_ERROR
  {
  }

  ghost predicate StartsNoCodePoint(s: Bytes) {
    forall c: Scalar :: !(Utf8(c) <= s)
  }

  lemma IllFormedRune(s: Bytes)
    requires s != [] && s[0] >= 0x80 && StartsNoCodePoint(s)
    ensures DecodeRune(s) == (RUNE_ERROR, 1)
  {
    if DecodeRune(s).1 > 1 {
      WideRuneIsPrefix(s);
    }
    hide StartsNoCodePoint;
    NarrowRune(s);
  }

  // So does a byte that starts the UTF-8 form of no code point.
  lemma IllFormedByte(s: Bytes)
    requires s != [] && s[0] >= 0x80 && Scan(s) && StartsNoCodePoint(s)
    ensures Scan(s[1..]) && Decode(s) == [0xEF, 0xBF, 0xBD] + Decode(s[1..])
  {
    hide StartsNoCodePoint, DecodeRune;
    IllFormedRune(s);
    assert Utf8(RUNE_ERROR) == [0xEF, 0xBF, 0xBD];
  }

  // Whatever was scanned, its decoded form is the UTF-8 text of some code points.
  lemma {:induction false} DecodesToText(s: Bytes) returns (text: seq<Scalar>)
    requires Scan(s)
    ensures Decode(s) == Utf8All(text)
    decreases |s|
  {
    if s == [] {
      text := [];
      return;
    }
    var c: Scalar, n := 0, 1;
    if s[0] == BACKSLASH {
      if CodeUnit(s).Some? {
        var u, tail := CodeUnit(s).value, s[6..];
        if IsSurrogate(u) && CodeUnit(tail).Some? && PairValue(u, CodeUnit(tail).value).Some? {
          assert tail[6..] == s[12..];
          c, n := PairValue(u, CodeUnit(tail).value).value, 12;
        } else {
          c, n := if IsSurrogate(u) then RUNE_ERROR else u, 6;
        }
      } else {
        c, n := ShortEscape(s[1]).value, 2;
      }
    } else if s[0] < 0x80 {
      c := s[0];
    } else {
      c, n := DecodeRune(s).0, DecodeRune(s).1;
      ScanSkips(s, n);
    }
    assert Decode(s) == Utf8(c) + Decode(s[n..]);
    var rest := DecodesToText(s[n..]);
    text := [c] + rest;
  }

  predicate IsHexDigit(b: Byte) {
    0x30 <= b <= 0x39 || 0x61 <= b <= 0x66 || 0x41 <= b <= 0x46
  }

  predicate IsShort(letter: Byte) {
    letter in {0x22, 0x5C, 0x2F, 0x62, 0x66, 0x6E, 0x72, 0x74}
  }

  // The scanner accepts exactly the concatenations of ordinary bytes, short escapes and \uXXXX units.
  predicate IsToken(t: Bytes) {
    || (|t| == 1 && t[0] >= 0x20 && t[0] != QUOTE && t[0] != BACKSLASH)
    || (|t| == 2 && t[0] == BACKSLASH && IsShort(t[1]))
    || (|t| == 6 && t[0] == BACKSLASH && t[1] == LETTER_U && IsHexDigit(t[2]) && IsHexDigit(t[3]) && IsHexDigit(t[4]) && IsHexDigit(t[5]))
  }

  function Flatten(ts: seq<Bytes>): Bytes {
    if ts == [] then [] else ts[0] + Flatten(ts[1..])
  }

  lemma UnitIffToken(t: Bytes)
    requires |t| == 6
    ensures CodeUnit(t).Some? <==> IsToken(t)
  {
  }

  lemma ScanAcceptsToken(t: Bytes, rest: Bytes)
    requires IsToken(t) && Scan(rest)
    ensures Scan(t + rest)
  {
    hide HexValue;
    var s := t + rest;
    assert s[|t|..] == rest && s[..|t|] == t;
    if |t| == 6 {
      UnitIffToken(t);
      assert CodeUnit(s) == CodeUnit(t) by {
        assert s[2] == t[2] && s[3] == t[3] && s[4] == t[4] && s[5] == t[5];
      }
    } else if |t| == 2 {
      assert s[1] == t[1] != LETTER_U;
    }
  }

  lemma {:induction false} ScanAcceptsTokens(ts: seq<Bytes>)
    requires forall i :: 0 <= i < |ts| ==> IsToken(ts[i])
    ensures Scan(Flatten(ts))
  {
    if ts != [] {
      ScanAcceptsTokens(ts[1..]);
      ScanAcceptsToken(ts[0], Flatten(ts[1..]));
    }
  }

  lemma {:induction false} TokensOfScan(s: Bytes) returns (ts: seq<Bytes>)
    requires Scan(s)
    ensures Flatten(ts) == s && forall i :: 0 <= i < |ts| ==> IsToken(ts[i])
  {
    if s == [] {
      ts := [];
    } else {
      var n := if s[0] != BACKSLASH then 1 else if CodeUnit(s).Some? then 6 else 2;
      var rest := TokensOfScan(s[n..]);
      ts := [s[..n]] + rest;
      assert ts[1..] == rest;
      assert s == s[..n] + s[n..];
      if n == 6 {
        assert CodeUnit(s[..6]) == CodeUnit(s);
        UnitIffToken(s[..6]);
      }
    }
  }

  // raw is a quoted string literal made of these tokens.
  ghost predicate IsLiteral(ts: seq<Bytes>, raw: Bytes) {
    && raw == [QUOTE] + Flatten(ts) + [QUOTE]
    && forall i :: 0 <= i < |ts| ==> IsToken(ts[i])
  }
}
