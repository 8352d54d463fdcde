// JSON string literals (section 7 of RFC 8259) the way encoding/json writes
// them from a Go byte string: HTML-sensitive and control bytes are escaped,
// U+2028 and U+2029 are escaped, and every byte that does not belong to a
// well-formed UTF-8 sequence becomes the escape of U+FFFD.
module JsonString {
  import opened Bytes

  const QUOTE: byte := 34
  const BACKSLASH: byte := 92

  predicate Cont(b: byte) { 0x80 <= b < 0xC0 }

  // The length of the well-formed UTF-8 sequence at the head of s, or 0.
  function RuneLen(s: Bytes): (n: nat)
    requires |s| > 0
    ensures n <= 4 && n <= |s|
    ensures n == 1 <==> s[0] < 0x80
    ensures n > 1 ==> forall i :: 0 <= i < n ==> s[i] >= 0x80
  {
    var b := s[0];
    if b < 0x80 then 1
    else if 0xC2 <= b < 0xE0 then
      if |s| >= 2 && Cont(s[1]) then 2 else 0
    else if 0xE0 <= b < 0xF0 then
      if |s| >= 3 && Cont(s[1]) && Cont(s[2])
         && (b == 0xE0 ==> s[1] >= 0xA0) && (b == 0xED ==> s[1] < 0xA0) then 3 else 0
    else if 0xF0 <= b < 0xF5 then
      if |s| >= 4 && Cont(s[1]) && Cont(s[2]) && Cont(s[3])
         && (b == 0xF0 ==> s[1] >= 0x90) && (b == 0xF4 ==> s[1] < 0x90) then 4 else 0
    else 0
  }

  // How many bytes one step of the encoder consumes.
  function Advance(s: Bytes): (n: nat)
    requires |s| > 0
    ensures 1 <= n <= |s|
  {
    if RuneLen(s) == 0 then 1 else RuneLen(s)
  }

  function HexDigit(d: int): byte
    requires 0 <= d < 16
  {
    if d < 10 then 48 + d else 87 + d
  }

  function HexValue(c: byte): (d: int)
    ensures -1 <= d < 16
  {
    if 48 <= c <= 57 then c - 48
    else if 97 <= c <= 102 then c - 87
    else if 65 <= c <= 70 then c - 55
    else -1
  }

  // A backslash-u escape of a code point below 0x10000.
  function UEscape(code: int): (r: Bytes)
    requires 0 <= code < 0x10000
    ensures |r| == 6
  {
    Escape4(code / 16 / 16 / 16, code / 16 / 16 % 16, code / 16 % 16, code % 16)
  }

  function Escape4(d0: int, d1: int, d2: int, d3: int): (r: Bytes)
    requires 0 <= d0 < 16 && 0 <= d1 < 16 && 0 <= d2 < 16 && 0 <= d3 < 16
    ensures |r| == 6
  {
    [BACKSLASH, 117, HexDigit(d0), HexDigit(d1), HexDigit(d2), HexDigit(d3)]
  }

  function EscapeAscii(b: byte): Bytes
    requires b < 0x80
  {
    if b == QUOTE || b == BACKSLASH then [BACKSLASH, b]
    else if b == 8 then [BACKSLASH, 98]
    else if b == 12 then [BACKSLASH, 102]
    else if b == 10 then [BACKSLASH, 110]
    else if b == 13 then [BACKSLASH, 114]
    else if b == 9 then [BACKSLASH, 116]
    else if b < 32 || b == 38 || b == 60 || b == 62 then UEscape(b)
    else [b]
  }

  // What one step of the encoder writes.
  function EscapeHead(s: Bytes): Bytes
    requires |s| > 0
  {
    var n := RuneLen(s);
    if n == 0 then UEscape(0xFFFD)
    else if n == 1 then EscapeAscii(s[0])
    else if s[..n] == [0xE2, 0x80, 0xA8] then UEscape(0x2028)
    else if s[..n] == [0xE2, 0x80, 0xA9] then UEscape(0x2029)
    else s[..n]
  }

  function Escape(s: Bytes): Bytes {
    if |s| == 0 then [] else EscapeHead(s) + Escape(s[Advance(s)..])
  }

  // The UTF-8 text that the literal denotes: s with every ill-formed byte
  // replaced by U+FFFD.
  function SanitizeHead(s: Bytes): (r: Bytes)
    requires |s| > 0
    ensures |r| > 0
  {
    if RuneLen(s) == 0 then [0xEF, 0xBF, 0xBD] else s[..RuneLen(s)]
  }

  function Sanitize(s: Bytes): Bytes {
    if |s| == 0 then [] else SanitizeHead(s) + Sanitize(s[Advance(s)..])
  }

  // ---------------------------------------------------------------- reading

  // The UTF-8 form of a code point that is no surrogate half (section 3 of
  // RFC 3629).
  function Utf8(code: int): Option<Bytes>
    requires 0 <= code < 0x110000
  {
    if code < 0x80 then Some([code])
    else if code < 0x800 then Some([0xC0 + code / 64, 0x80 + code % 64])
    else if 0xD800 <= code < 0xE000 then None
    else if code < 0x10000 then Some([0xE0 + code / 4096, 0x80 + code / 64 % 64, 0x80 + code % 64])
    else Some([0xF0 + code / 262144, 0x80 + code / 4096 % 64, 0x80 + code / 64 % 64, 0x80 + code % 64])
  }

  // A byte that stands for itself inside a literal.
  predicate Plain(b: byte) { b >= 32 && b != QUOTE && b != BACKSLASH }

  // One item of a literal: the bytes it denotes and how long it is.
  function ReadItem(t: Bytes): (r: Option<(Bytes, nat)>)
    ensures r.Some? ==> 1 <= r.value.1 <= |t|
  {
    if |t| == 0 then None
    else if Plain(t[0]) then Some(([t[0]], 1))
    else if t[0] != BACKSLASH || |t| < 2 then None
    else if t[1] == QUOTE || t[1] == BACKSLASH || t[1] == 47 then Some(([t[1]], 2))
    else if t[1] == 98 then Some(([8], 2))
    else if t[1] == 102 then Some(([12], 2))
    else if t[1] == 110 then Some(([10], 2))
    else if t[1] == 114 then Some(([13], 2))
    else if t[1] == 116 then Some(([9], 2))
    else if t[1] == 117 && |t| >= 6 then
      var h0, h1, h2, h3 := HexValue(t[2]), HexValue(t[3]), HexValue(t[4]), HexValue(t[5]);
      if h0 < 0 || h1 < 0 || h2 < 0 || h3 < 0 then None
      else match Utf8(h0 * 4096 + h1 * 256 + h2 * 16 + h3)
        case None => None
        case Some(u) => Some((u, 6))
    else None
  }

  // Read a literal up to its closing quote: the text, and what follows.
  function ReadString(t: Bytes): (r: Option<(Bytes, Bytes)>)
    ensures r.Some? ==> |r.value.1| < |t|
    decreases |t|
  {
    if |t| == 0 then None
    else if t[0] == QUOTE then Some(([], t[1..]))
    else match ReadItem(t)
      case None => None
      case Some((u, n)) =>
        match ReadString(t[n..])
          case None => None
          case Some((v, rest)) => Some((u + v, rest))
  }

  // Reading continues behind a piece that denotes u.
  ghost predicate Denotes(piece: Bytes, u: Bytes, tail: Bytes) {
    match ReadString(tail)
    case None => true
    case Some((v, rest)) => ReadString(piece + tail) == Some((u + v, rest))
  }

  lemma {:induction false} PlainDenotesItself(c: Bytes, tail: Bytes)
    requires forall i :: 0 <= i < |c| ==> Plain(c[i])
    ensures Denotes(c, c, tail)
  {
    if c == [] {
      assert c + tail == tail;
      assert ReadString(tail).Some? ==> c + ReadString(tail).value.0 == ReadString(tail).value.0;
    } else {
      PlainDenotesItself(c[1..], tail);
      assert (c + tail)[1..] == c[1..] + tail;
      if ReadString(tail).Some? {
        var v := ReadString(tail).value.0;
        assert [c[0]] + (c[1..] + v) == c + v;
      }
    }
  }

  lemma ItemDenotes(piece: Bytes, u: Bytes, tail: Bytes)
    requires |piece| > 0 && piece[0] != QUOTE
    requires ReadItem(piece + tail) == Some((u, |piece|))
    ensures Denotes(piece, u, tail)
  {
    assert (piece + tail)[|piece|..] == tail;
  }

  lemma HexRoundTrip(d: int)
    requires 0 <= d < 16
    ensures HexValue(HexDigit(d)) == d
  {
  }

  lemma Escape4Reads(d0: int, d1: int, d2: int, d3: int, tail: Bytes)
    requires 0 <= d0 < 16 && 0 <= d1 < 16 && 0 <= d2 < 16 && 0 <= d3 < 16
    ensures var u := Utf8(d0 * 4096 + d1 * 256 + d2 * 16 + d3);
            ReadItem(Escape4(d0, d1, d2, d3) + tail) == if u.None? then None else Some((u.value, 6))
  {
    HexRoundTrip(d0);
    HexRoundTrip(d1);
    HexRoundTrip(d2);
    HexRoundTrip(d3);
  }

  lemma DigitsRebuild(code: int)
    requires 0 <= code < 0x10000
    ensures code / 16 / 16 / 16 * 4096 + code / 16 / 16 % 16 * 256 + code / 16 % 16 * 16 + code % 16 == code
  {
    var a, b := code / 16, code / 16 / 16;
    assert code == 16 * a + code % 16;
    assert a == 16 * b + a % 16;
    assert b == 16 * (b / 16) + b % 16;
  }

  lemma UEscapeReads(code: int, tail: Bytes)
    requires 0 <= code < 0x10000 && Utf8(code).Some?
    ensures ReadItem(UEscape(code) + tail) == Some((Utf8(code).value, 6))
  {
    DigitsRebuild(code);
    Escape4Reads(code / 16 / 16 / 16, code / 16 / 16 % 16, code / 16 % 16, code % 16, tail);
  }

  lemma AsciiDenotes(b: byte, tail: Bytes)
    requires b < 0x80
    ensures Denotes(EscapeAscii(b), [b], tail)
  {
    var piece := EscapeAscii(b);
    if |piece| == 1 {
      ItemDenotes(piece, [b], tail);
    } else if |piece| == 2 {
      var t := piece + tail;
      assert t[0] == BACKSLASH && t[1] == piece[1];
      ItemDenotes(piece, [b], tail);
    } else {
      UEscapeReads(b, tail);
      ItemDenotes(piece, [b], tail);
    }
  }

  lemma UEscapeDenotes(code: int, u: Bytes, tail: Bytes)
    requires 0 <= code < 0x10000 && Utf8(code) == Some(u)
    ensures Denotes(UEscape(code), u, tail)
  {
    UEscapeReads(code, tail);
    ItemDenotes(UEscape(code), u, tail);
  }

  lemma HeadDenotes(s: Bytes, tail: Bytes)
    requires |s| > 0
    ensures Denotes(EscapeHead(s), SanitizeHead(s), tail)
  {
    var n := RuneLen(s);
    if n == 0 {
      UEscapeDenotes(0xFFFD, [0xEF, 0xBF, 0xBD], tail);
    } else if n == 1 {
      assert s[..1] == [s[0]];
      AsciiDenotes(s[0], tail);
    } else if s[..n] == [0xE2, 0x80, 0xA8] {
      UEscapeDenotes(0x2028, [0xE2, 0x80, 0xA8], tail);
    } else if s[..n] == [0xE2, 0x80, 0xA9] {
      UEscapeDenotes(0x2029, [0xE2, 0x80, 0xA9], tail);
    } else {
      PlainDenotesItself(s[..n], tail);
    }
  }

  // A reader gets back the sanitized text and stops exactly at the closing
  // quote, whatever follows: no byte of s can end the literal early.
  lemma {:induction false} ReadEscape(s: Bytes, rest: Bytes)
    ensures ReadString(Escape(s) + [QUOTE] + rest) == Some((Sanitize(s), rest))
  {
    if s == [] {
      assert (Escape(s) + [QUOTE] + rest)[1..] == rest;
    } else {
      var s' := s[Advance(s)..];
      ReadEscape(s', rest);
      var tail := Escape(s') + [QUOTE] + rest;
      HeadDenotes(s, tail);
      assert EscapeHead(s) + tail == Escape(s) + [QUOTE] + rest;
    }
  }

  // -------------------------------------------------- sanitizing and ASCII

  lemma {:induction false} SanitizeAscii(s: Bytes)
    requires forall i :: 0 <= i < |s| ==> s[i] < 128
    ensures Sanitize(s) == s
  {
    if s != [] {
      assert Advance(s) == 1;
      SanitizeAscii(s[1..]);
      assert s == s[..1] + s[1..];
    }
  }

  // An ASCII byte is always a sequence boundary: no well-formed sequence
  // reaches across it, and cutting there breaks none.
  lemma RuneLenBeforeAscii(a: Bytes, c: byte, b: Bytes)
    requires |a| > 0 && c < 128
    ensures RuneLen(a + [c] + b) == RuneLen(a)
  {
    var t := a + [c] + b;
    assert t[|a|] == c;
    assert forall i :: 0 <= i < |a| ==> t[i] == a[i];
  }

  lemma HeadBeforeAscii(a: Bytes, c: byte, b: Bytes)
    requires |a| > 0 && c < 128
    ensures var t := a + [c] + b;
            && Advance(t) == Advance(a)
            && SanitizeHead(t) == SanitizeHead(a)
            && t[Advance(a)..] == a[Advance(a)..] + [c] + b
  {
    RuneLenBeforeAscii(a, c, b);
    var t, n := a + [c] + b, Advance(a);
    assert t[..n] == a[..n];
  }

  lemma {:induction false} SanitizeSplitsAtAscii(a: Bytes, c: byte, b: Bytes)
    requires c < 128
    ensures Sanitize(a + [c] + b) == Sanitize(a) + [c] + Sanitize(b)
    decreases |a|
  {
    var t := a + [c] + b;
    if a == [] {
      assert t[1..] == b && t[..1] == [c];
    } else {
      HeadBeforeAscii(a, c, b);
      SanitizeSplitsAtAscii(a[Advance(a)..], c, b);
    }
  }

  // ------------------------------------------------ sanitizing, by code points

  predicate IsCode(code: int) { 0 <= code < 0x110000 }

  // s begins with the UTF-8 form of this code point.
  predicate Begins(s: Bytes, code: int) {
    IsCode(code) && Utf8(code).Some? && Utf8(code).value <= s
  }

  lemma Begins3(s: Bytes, code: int)
    requires Begins(s, code) && 0x800 <= code < 0x10000
    ensures RuneLen(s) == 3
  {
    var a, b, c := code / 4096, code / 64 % 64, code % 64;
    assert s[0] == 0xE0 + a && s[1] == 0x80 + b && s[2] == 0x80 + c;
    assert code == a * 4096 + b * 64 + c;
  }

  lemma Begins4(s: Bytes, code: int)
    requires Begins(s, code) && 0x10000 <= code
    ensures RuneLen(s) == 4
  {
    var a, b, c, d := code / 262144, code / 4096 % 64, code / 64 % 64, code % 64;
    var u := Utf8(code).value;
    assert s[0] == u[0] && s[1] == u[1] && s[2] == u[2] && s[3] == u[3];
    Quarters(code);
  }

  lemma Quarters(code: int)
    requires 0x10000 <= code < 0x110000
    ensures var a, b := code / 262144, code / 4096 % 64;
            a <= 4 && 16 <= a * 64 + b < 272
  {
    assert code / 262144 == code / 4096 / 64;
  }

  lemma BeginsLen(s: Bytes, code: int)
    requires Begins(s, code)
    ensures |s| > 0 && RuneLen(s) == |Utf8(code).value|
  {
    if code < 0x800 {
      assert s[0] == Utf8(code).value[0];
      assert code >= 0x80 ==> s[1] == Utf8(code).value[1];
    } else if code < 0x10000 {
      Begins3(s, code);
    } else {
      Begins4(s, code);
    }
  }

  function Low(s: Bytes, i: nat): int
    requires i < |s|
  {
    s[i] as int - 0x80
  }

  // The code point a well-formed sequence stands for.
  function CodeOf(s: Bytes): int
    requires |s| > 0
  {
    match RuneLen(s)
    case 1 => s[0]
    case 2 => (Low(s, 0) - 0x40) * 64 + Low(s, 1)
    case 3 => (Low(s, 0) - 0x60) * 4096 + Low(s, 1) * 64 + Low(s, 2)
    case 4 => (Low(s, 0) - 0x70) * 262144 + Low(s, 1) * 4096 + Low(s, 2) * 64 + Low(s, 3)
    case _ => -1
  }

  lemma Sextets(hi: int, lo: int)
    requires 0 <= lo < 64
    ensures (hi * 64 + lo) / 64 == hi && (hi * 64 + lo) % 64 == lo
  {
  }

  lemma CodeBegins(s: Bytes)
    requires |s| > 0 && RuneLen(s) > 0
    ensures Begins(s, CodeOf(s))
  {
    var n := RuneLen(s);
    if n == 2 {
      Sextets(s[0] - 0xC0, s[1] - 0x80);
    } else if n == 3 {
      CodeBegins3(s);
    } else if n == 4 {
      CodeBegins4(s);
    }
  }

  lemma CodeBegins3(s: Bytes)
    requires |s| > 0 && RuneLen(s) == 3
    ensures Begins(s, CodeOf(s))
  {
    var a: int, b: int, c: int := s[0] - 0xE0, s[1] - 0x80, s[2] - 0x80;
    var code := CodeOf(s);
    Sextets(a * 64 + b, c);
    Sextets(a, b);
    assert code == (a * 64 + b) * 64 + c;
    assert code / 4096 == code / 64 / 64;
    assert s[..3] == [0xE0 + a, 0x80 + b, 0x80 + c];
  }

  lemma CodeBegins4(s: Bytes)
    requires |s| > 0 && RuneLen(s) == 4
    ensures Begins(s, CodeOf(s))
  {
    var a: int, b: int, c: int, d: int := s[0] - 0xF0, s[1] - 0x80, s[2] - 0x80, s[3] - 0x80;
    var code := CodeOf(s);
    Sextets((a * 64 + b) * 64 + c, d);
    Sextets(a * 64 + b, c);
    Sextets(a, b);
    assert code == ((a * 64 + b) * 64 + c) * 64 + d;
    assert code / 4096 == code / 64 / 64 && code / 262144 == code / 64 / 64 / 64;
    assert s[..4] == [0xF0 + a, 0x80 + b, 0x80 + c, 0x80 + d];
  }

  // Sanitizing keeps every well-formed sequence and replaces every byte that
  // begins none by the form of U+FFFD; so well-formed text stays as it is.
  lemma SanitizeByCodePoints(s: Bytes, code: int)
    requires s != []
    ensures Begins(s, code) ==>
              Sanitize(s) == Utf8(code).value + Sanitize(s[|Utf8(code).value|..])
    ensures (forall c :: !Begins(s, c)) ==> Sanitize(s) == [0xEF, 0xBF, 0xBD] + Sanitize(s[1..])
  {
    hide RuneLen, Utf8;
    if Begins(s, code) {
      SanitizeSequence(s, code);
    }
    if RuneLen(s) > 0 { CodeBegins(s); }
  }

  lemma SanitizeSequence(s: Bytes, code: int)
    requires s != [] && Begins(s, code)
    ensures Sanitize(s) == Utf8(code).value + Sanitize(s[|Utf8(code).value|..])
  {
    hide RuneLen, Utf8, Sanitize;
    BeginsLen(s, code);
    SanitizeTurn(s);
    assert s[..RuneLen(s)] == Utf8(code).value;
  }

  lemma SanitizeTurn(s: Bytes)
    requires s != []
    ensures Sanitize(s) == SanitizeHead(s) + Sanitize(s[Advance(s)..])
  {
  }

  // What is written contains no control byte and no byte with a meaning in
  // HTML.
  predicate Safe(b: byte) { b >= 32 && b != '&' as int && b != '<' as int && b != '>' as int }

  lemma HeadIsSafe(s: Bytes)
    requires s != []
    ensures forall b :: b in EscapeHead(s) ==> Safe(b)
  {
    if RuneLen(s) > 1 {
      var head := s[..RuneLen(s)];
      assert forall i :: 0 <= i < |head| ==> head[i] == s[i];
    }
  }

  lemma {:induction false} EscapeIsSafe(s: Bytes)
    ensures forall b :: b in Escape(s) ==> Safe(b)
  {
    hide EscapeHead, Safe;
    if s != [] {
      HeadIsSafe(s);
      EscapeIsSafe(s[Advance(s)..]);
    }
  }
}
