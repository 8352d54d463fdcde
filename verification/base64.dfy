// The standard base64 alphabet with '=' padding (section 4 of RFC 4648), as
// base64.StdEncoding produces it, and a decoder for it.
module Base64 {
  import opened Bytes

  const PAD: byte := 61

  // Index 0..63 to its alphabet byte.
  function Symbol(v: int): (c: byte)
    requires 0 <= v < 64
    ensures c != PAD && c < 128
  {
    if v < 26 then 65 + v
    else if v < 52 then 97 + (v - 26)
    else if v < 62 then 48 + (v - 52)
    else if v == 62 then 43
    else 47
  }

  // Alphabet byte to its index, or -1.
  function Index(c: byte): (v: int)
    ensures -1 <= v < 64
  {
    if 65 <= c <= 90 then c - 65
    else if 97 <= c <= 122 then c - 97 + 26
    else if 48 <= c <= 57 then c - 48 + 52
    else if c == 43 then 62
    else if c == 47 then 63
    else -1
  }

  function Encode(s: Bytes): Bytes {
    if |s| == 0 then []
    else if |s| == 1 then
      [Symbol(s[0] / 4), Symbol(s[0] % 4 * 16), PAD, PAD]
    else if |s| == 2 then
      [Symbol(s[0] / 4), Symbol(s[0] % 4 * 16 + s[1] / 16), Symbol(s[1] % 16 * 4), PAD]
    else
      Quad(s[0], s[1], s[2]) + Encode(s[3..])
  }

  function Quad(a: byte, b: byte, c: byte): (q: Bytes)
    ensures |q| == 4
  {
    [Symbol(a / 4), Symbol(a % 4 * 16 + b / 16), Symbol(b % 16 * 4 + c / 64), Symbol(c % 64)]
  }

  // Decoding, rejecting wrong lengths, foreign bytes and misplaced padding.
  function Decode(t: Bytes): Option<Bytes> {
    if |t| == 0 then Some([])
    else if |t| < 4 then None
    else
      var v0, v1, v2, v3 := Index(t[0]), Index(t[1]), Index(t[2]), Index(t[3]);
      if v0 < 0 || v1 < 0 then None
      else if t[2] == '=' as int && t[3] == '=' as int && |t| == 4 then Some([v0 * 4 + v1 / 16])
      else if v2 < 0 then None
      else if t[3] == '=' as int && |t| == 4 then Some([v0 * 4 + v1 / 16, v1 % 16 * 16 + v2 / 4])
      else if v3 < 0 then None
      else match Decode(t[4..])
        case None => None
        case Some(rest) => Some([v0 * 4 + v1 / 16, v1 % 16 * 16 + v2 / 4, v2 % 4 * 64 + v3] + rest)
  }

  lemma IndexOfSymbol(v: int)
    requires 0 <= v < 64
    ensures Index(Symbol(v)) == v
  {
  }

  // The four sextets of three bytes give the three bytes back.
  lemma SextetsRebuild(a: byte, b: byte, c: byte)
    ensures var v0, v1, v2, v3 := a / 4, a % 4 * 16 + b / 16, b % 16 * 4 + c / 64, c % 64;
            && v0 < 64 && v1 < 64 && v2 < 64 && v3 < 64
            && v0 * 4 + v1 / 16 == a && v1 % 16 * 16 + v2 / 4 == b && v2 % 4 * 64 + v3 == c
  {
  }

  // Decoding one group of symbols, for arbitrary sextets.
  lemma DecodeFull(v0: int, v1: int, v2: int, v3: int, t: Bytes)
    requires 0 <= v0 < 64 && 0 <= v1 < 64 && 0 <= v2 < 64 && 0 <= v3 < 64
    ensures Decode([Symbol(v0), Symbol(v1), Symbol(v2), Symbol(v3)] + t)
         == if Decode(t).None? then None
            else Some([v0 * 4 + v1 / 16, v1 % 16 * 16 + v2 / 4, v2 % 4 * 64 + v3] + Decode(t).value)
  {
    var g := [Symbol(v0), Symbol(v1), Symbol(v2), Symbol(v3)];
    IndexOfSymbol(v0);
    IndexOfSymbol(v1);
    IndexOfSymbol(v2);
    IndexOfSymbol(v3);
    assert (g + t)[4..] == t;
    assert (g + t)[0] == g[0] && (g + t)[1] == g[1] && (g + t)[2] == g[2] && (g + t)[3] == g[3];
  }

  lemma DecodePadded(v0: int, v1: int, v2: int)
    requires 0 <= v0 < 64 && 0 <= v1 < 64 && 0 <= v2 < 64
    ensures Decode([Symbol(v0), Symbol(v1), PAD, PAD]) == Some([v0 * 4 + v1 / 16])
    ensures Decode([Symbol(v0), Symbol(v1), Symbol(v2), PAD]) == Some([v0 * 4 + v1 / 16, v1 % 16 * 16 + v2 / 4])
  {
    IndexOfSymbol(v0);
    IndexOfSymbol(v1);
    IndexOfSymbol(v2);
  }

  lemma DecodeOne(a: byte)
    ensures Decode(Encode([a])) == Some([a])
  {
    var v0, v1 := a / 4, a % 4 * 16;
    assert v0 * 4 + v1 / 16 == a;
    DecodePadded(v0, v1, 0);
    assert Encode([a]) == [Symbol(v0), Symbol(v1), PAD, PAD];
  }

  lemma DecodeTwo(a: byte, b: byte)
    ensures Decode(Encode([a, b])) == Some([a, b])
  {
    SextetsRebuild(a, b, 0);
    var v0, v1, v2 := a / 4, a % 4 * 16 + b / 16, b % 16 * 4;
    DecodePadded(v0, v1, v2);
    assert Encode([a, b]) == [Symbol(v0), Symbol(v1), Symbol(v2), PAD];
  }

  lemma DecodeQuad(a: byte, b: byte, c: byte, t: Bytes)
    requires Decode(t).Some?
    ensures Decode(Quad(a, b, c) + t) == Some([a, b, c] + Decode(t).value)
  {
    hide Decode, Symbol;
    SextetsRebuild(a, b, c);
    DecodeFull(a / 4, a % 4 * 16 + b / 16, b % 16 * 4 + c / 64, c % 64, t);
  }

  // Encoding loses nothing, whatever the length modulo three.
  lemma {:induction false} DecodeEncode(s: Bytes)
    ensures Decode(Encode(s)) == Some(s)
  {
    if |s| == 0 {
    } else if |s| == 1 {
      DecodeOne(s[0]);
      assert s == [s[0]];
    } else if |s| == 2 {
      DecodeTwo(s[0], s[1]);
      assert s == [s[0], s[1]];
    } else {
      DecodeEncode(s[3..]);
      DecodeQuad(s[0], s[1], s[2], Encode(s[3..]));
      assert s == [s[0], s[1], s[2]] + s[3..];
    }
  }

  // Every byte of the encoding is ASCII, so JSON carries it verbatim.
  lemma {:induction false} EncodeIsAscii(s: Bytes)
    ensures forall i :: 0 <= i < |Encode(s)| ==> Encode(s)[i] < 128
  {
    if |s| >= 3 {
      EncodeIsAscii(s[3..]);
    }
  }

  // Test vectors of section 10 of RFC 4648: "f", "fo", "foo", "foob".
  lemma TestVectors()
    ensures Encode([102]) == [90, 103, 61, 61]
    ensures Encode([102, 111]) == [90, 109, 56, 61]
    ensures Encode([102, 111, 111]) == [90, 109, 57, 118]
    ensures Encode([102, 111, 111, 98]) == [90, 109, 57, 118, 89, 103, 61, 61]
  {
    assert [102, 111, 111, 98][3..] == [98] && [102, 111, 111][3..] == [];
    assert Encode([98]) == [89, 103, 61, 61];
  }
}
