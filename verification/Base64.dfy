/** The base64 codec of src/stt/realtime_envelope.cpp.

    The functions `Encode` and `Decode` say which six bits of which byte go where, as sections 3.5
    and 4 of RFC 4648 do; the methods work as the program does, packing a 24-bit group and cutting
    it apart again. Shifts and masks are division and remainder by powers of two. */
module Base64 {
  import opened Modular
  import opened Wrappers

  type Byte = b: int | 0 <= b < 256
  type Sextet = d: int | 0 <= d < 64

  /** The alphabet: the character of a six-bit value. */
  function Digit(d: Sextet): (c: char)
    ensures c != '='
  {
    if d < 26 then ('A' as int + d) as char
    else if d < 52 then ('a' as int + d - 26) as char
    else if d < 62 then ('0' as int + d - 52) as char
    else if d == 62 then '+' else '/'
  }

  /** The reverse lookup table, -1 for a character outside the alphabet. */
  function Lookup(c: char): (d: int)
    ensures -1 <= d < 64
    ensures 0 <= d ==> Digit(d) == c
  {
    if 'A' <= c <= 'Z' then c as int - 'A' as int
    else if 'a' <= c <= 'z' then c as int - 'a' as int + 26
    else if '0' <= c <= '9' then c as int - '0' as int + 52
    else if c == '+' then 62 else if c == '/' then 63 else -1
  }

  lemma LookupDigit(d: Sextet)
    ensures Lookup(Digit(d)) == d
  {}

  // ----- What the codec computes -----

  /** A byte, or zero past the end. */
  function At(b: seq<Byte>, i: nat): Byte { if i < |b| then b[i] else 0 }

  /** The four characters of the first (up to) three bytes of `b`. */
  function EncodeQuad(b: seq<Byte>): (q: string)
    requires b != []
    ensures |q| == 4
  {
    [Digit(b[0] / 4),
     Digit(b[0] % 4 * 16 + At(b, 1) / 16),
     if |b| > 1 then Digit(At(b, 1) % 16 * 4 + At(b, 2) / 64) else '=',
     if |b| > 2 then Digit(At(b, 2) % 64) else '=']
  }

  function Tail3(b: seq<Byte>): (r: seq<Byte>)
    ensures b != [] ==> |r| < |b|
  {
    if |b| <= 3 then [] else b[3..]
  }

  function Encode(b: seq<Byte>): string
    decreases |b|
  {
    if b == [] then "" else EncodeQuad(b) + Encode(Tail3(b))
  }

  /** What one quad decodes to: `last` marks a padded quad, after which the decoder stops. */
  datatype QuadBytes = QuadBytes(bytes: seq<Byte>, last: bool)

  function DecodeQuad(q: string): Option<QuadBytes>
    requires |q| == 4
  {
    var a, b := Lookup(q[0]), Lookup(q[1]);
    if a < 0 || b < 0 then None else
    var first: Byte := a * 4 + b / 16;
    if q[2] == '=' then
      if q[3] != '=' || b % 16 != 0 then None else Some(QuadBytes([first], true))
    else
      var c := Lookup(q[2]);
      if c < 0 then None else
      var second: Byte := b % 16 * 16 + c / 4;
      if q[3] == '=' then
        if c % 4 != 0 then None else Some(QuadBytes([first, second], true))
      else
        var d := Lookup(q[3]);
        if d < 0 then None else Some(QuadBytes([first, second, c % 4 * 64 + d], false))
  }

  function DecodeQuads(t: string): Option<seq<Byte>>
    requires |t| % 4 == 0
  {
    if t == "" then Some([]) else
    match DecodeQuad(t[..4])
    case None => None
    case Some(q) =>
      if q.last then Some(q.bytes) else
      match DecodeQuads(t[4..])
      case None => None
      case Some(rest) => Some(q.bytes + rest)
  }

  function Decode(t: string): Option<seq<Byte>> {
    if |t| % 4 != 0 then None else DecodeQuads(t)
  }

  // ----- How the program computes it -----

  lemma ShiftGroup(a: Byte, b: Byte, c: Byte, triple: int)
    requires triple == a * 0x10000 + b * 0x100 + c
    ensures triple / 0x40000 == a / 4
    ensures triple / 0x1000 == a * 16 + b / 16
    ensures triple / 64 == a * 0x400 + b * 4 + c / 64
    ensures triple % 64 == c % 64
  {
    Divide(triple, 0x40000, a / 4, a % 4 * 0x10000 + b * 0x100 + c);
    Divide(triple, 0x1000, a * 16 + b / 16, b % 16 * 0x100 + c);
    Divide(triple, 64, a * 0x400 + b * 4 + c / 64, c % 64);
  }

  /** Masking the shifted group leaves the sextets of `EncodeQuad`. */
  lemma CutGroup(a: Byte, b: Byte, c: Byte, triple: int)
    requires triple == a * 0x10000 + b * 0x100 + c
    ensures triple / 0x40000 % 64 == a / 4
    ensures triple / 0x1000 % 64 == a % 4 * 16 + b / 16
    ensures triple / 64 % 64 == b % 16 * 4 + c / 64
    ensures triple % 64 == c % 64
  {
    ShiftGroup(a, b, c, triple);
    Divide(a * 16 + b / 16, 64, a / 4, a % 4 * 16 + b / 16);
    Divide(a * 0x400 + b * 4 + c / 64, 64, a * 16 + b / 16, b % 16 * 4 + c / 64);
  }

  lemma QuadFromGroup(b: seq<Byte>, triple: int)
    requires b != [] && triple == b[0] as int * 0x10000 + At(b, 1) as int * 0x100 + At(b, 2)
    ensures EncodeQuad(b) == [Digit(triple / 0x40000 % 64), Digit(triple / 0x1000 % 64),
                              if |b| > 1 then Digit(triple / 64 % 64) else '=',
                              if |b| > 2 then Digit(triple % 64) else '=']
  {
    CutGroup(b[0], At(b, 1), At(b, 2), triple);
  }

  lemma EncodeUnfolds(b: seq<Byte>, out: string, q: string)
    requires b != [] && q == EncodeQuad(b)
    ensures out + Encode(b) == out + q + Encode(Tail3(b))
  {}

  method EncodeBytes(bytes: seq<Byte>) returns (out: string)
    ensures out == Encode(bytes)
  {
    out := "";
    var i := 0;
    while i < |bytes|
      invariant 0 <= i
      invariant out + Encode(if i <= |bytes| then bytes[i..] else []) == Encode(bytes)
    {
      var triple := bytes[i] as int * 0x10000 + At(bytes, i + 1) as int * 0x100 + At(bytes, i + 2);
      QuadFromGroup(bytes[i..], triple);
      var c0, c1 := Digit(triple / 0x40000 % 64), Digit(triple / 0x1000 % 64);
      var c2 := if i + 1 < |bytes| then Digit(triple / 64 % 64) else '=';
      var c3 := if i + 2 < |bytes| then Digit(triple % 64) else '=';
      EncodeUnfolds(bytes[i..], out, [c0, c1, c2, c3]);
      out := out + [c0, c1, c2, c3];
      assert Tail3(bytes[i..]) == if i + 3 <= |bytes| then bytes[i + 3..] else [];
      i := i + 3;
    }
  }

  lemma CutSextets(a: Sextet, b: Sextet, c: Sextet, d: Sextet, triple: int)
    requires triple == a * 0x40000 + b * 0x1000
    ensures triple / 0x10000 % 256 == a * 4 + b / 16
    ensures (triple + c * 64) / 256 % 256 == b % 16 * 16 + c / 4
    ensures (triple + c * 64 + d) % 256 == c % 4 * 64 + d
  {
    Divide(triple, 0x10000, a * 4 + b / 16, b % 16 * 0x1000);
    Divide(triple + c * 64, 256, a * 0x400 + b * 16 + c / 4, c % 4 * 64);
    Divide(a * 0x400 + b * 16 + c / 4, 256, a * 4 + b / 16, b % 16 * 16 + c / 4);
    Divide(triple + c * 64 + d, 256, a * 0x400 + b * 16 + c / 4, c % 4 * 64 + d);
  }

  /** One round of the decoder's loop: the bytes pushed for the quad at `i`, and whether it stops. */
  method DecodeQuadAt(input: string, i: nat) returns (r: Option<QuadBytes>)
    requires i + 4 <= |input|
    ensures r == DecodeQuad(input[i..i + 4])
  {
    var a, b := Lookup(input[i]), Lookup(input[i + 1]);
    var cCh, dCh := input[i + 2], input[i + 3];
    if a < 0 || b < 0 { return None; }
    var triple := a * 0x40000 + b * 0x1000;
    CutSextets(a, b, 0, 0, triple);
    var first := triple / 0x10000 % 256;
    if cCh == '=' {
      if dCh != '=' || b % 16 != 0 { return None; }
      return Some(QuadBytes([first], true));
    }
    var c := Lookup(cCh);
    if c < 0 { return None; }
    var withC := triple + c * 64;
    CutSextets(a, b, c, 0, triple);
    var second := withC / 256 % 256;
    if dCh == '=' {
      if c % 4 != 0 { return None; }
      return Some(QuadBytes([first, second], true));
    }
    var d := Lookup(dCh);
    if d < 0 { return None; }
    CutSextets(a, b, c, d, triple);
    return Some(QuadBytes([first, second, (withC + d) % 256], false));
  }

  lemma AppendAssociates(a: seq<Byte>, b: seq<Byte>, c: Option<seq<Byte>>)
    ensures c.Some? ==> a + (b + c.value) == a + b + c.value
  {}

  method DecodeText(input: string) returns (r: Option<seq<Byte>>)
    ensures r == Decode(input)
  {
    hide DecodeQuad;
    if |input| % 4 != 0 { return None; }
    var out: seq<Byte> := [];
    var i := 0;
    assert input[0..] == input;
    assert Decode(input).Some? ==> [] + Decode(input).value == Decode(input).value;
    while i < |input|
      invariant 0 <= i <= |input| && i % 4 == 0
      invariant Decode(input) == match DecodeQuads(input[i..]) case None => None case Some(rest) => Some(out + rest)
    {
      assert input[i..][..4] == input[i..i + 4] && input[i..][4..] == input[i + 4..];
      var q := DecodeQuadAt(input, i);
      if q.None? { return None; }
      AppendAssociates(out, q.value.bytes, DecodeQuads(input[i + 4..]));
      out := out + q.value.bytes;
      if q.value.last { return Some(out); }
      i := i + 4;
    }
    assert input[i..] == "" && out + [] == out;
    return Some(out);
  }

  // ----- The two directions of the round trip -----

  lemma SextetsRoundTrip(x: Byte, y: Byte, z: Byte)
    ensures x / 4 * 4 + (x % 4 * 16 + y / 16) / 16 == x
    ensures (x % 4 * 16 + y / 16) % 16 * 16 + (y % 16 * 4 + z / 64) / 4 == y
    ensures (y % 16 * 4 + z / 64) % 4 * 64 + z % 64 == z
    ensures y == 0 ==> (x % 4 * 16 + y / 16) % 16 == 0
    ensures z == 0 ==> (y % 16 * 4 + z / 64) % 4 == 0
  {}

  lemma QuadRoundTrip(b: seq<Byte>)
    requires b != []
    ensures DecodeQuad(EncodeQuad(b)) == Some(QuadBytes(if |b| <= 3 then b else b[..3], |b| < 3))
  {
    hide Digit, Lookup;
    var x, y, z := b[0], At(b, 1), At(b, 2);
    SextetsRoundTrip(x, y, z);
    LookupDigit(x / 4);
    LookupDigit(x % 4 * 16 + y / 16);
    LookupDigit(y % 16 * 4 + z / 64);
    LookupDigit(z % 64);
    var q := EncodeQuad(b);
    assert Lookup(q[0]) == x / 4 && Lookup(q[1]) == x % 4 * 16 + y / 16;
    if |b| == 1 {
      assert b == [x];
    } else if |b| == 2 {
      assert b == [x, y];
    } else {
      assert Lookup(q[2]) == y % 16 * 4 + z / 64 && Lookup(q[3]) == z % 64;
      assert DecodeQuad(q).value.bytes == [x, y, z] == b[..3];
      assert |b| == 3 ==> b[..3] == b;
    }
  }

  /** Every byte string survives encoding and decoding. */
  lemma {:induction false} DecodeAfterEncode(b: seq<Byte>)
    ensures |Encode(b)| % 4 == 0
    ensures Decode(Encode(b)) == Some(b)
    decreases |b|
  {
    if b != [] {
      QuadRoundTrip(b);
      DecodeAfterEncode(Tail3(b));
      var t := Encode(b);
      assert t[..4] == EncodeQuad(b) && t[4..] == Encode(Tail3(b));
      assert (if |b| <= 3 then b else b[..3]) + Tail3(b) == b;
    }
  }

  lemma QuadIsCanonical(q: string)
    requires |q| == 4 && DecodeQuad(q).Some?
    ensures var r := DecodeQuad(q).value;
            && 1 <= |r.bytes| <= 3 && r.last == (|r.bytes| < 3) == ('=' in q)
            && EncodeQuad(r.bytes) == q
  {
    var bs := DecodeQuad(q).value.bytes;
    assert bs[0] / 4 == Lookup(q[0]);
    assert bs[0] % 4 * 16 + At(bs, 1) / 16 == Lookup(q[1]);
    if |bs| > 1 { assert bs[1] % 16 * 4 + At(bs, 2) / 64 == Lookup(q[2]); }
    if |bs| > 2 { assert bs[2] % 64 == Lookup(q[3]); }
  }

  /** No character before the last quad is padding. */
  ghost predicate PaddedOnlyAtEnd(t: string) {
    forall i :: 0 <= i < |t| - 4 ==> t[i] != '='
  }

  lemma PaddedOnlyAtEndStep(t: string)
    requires |t| >= 4 && |t| % 4 == 0 && '=' !in t[..4]
    ensures PaddedOnlyAtEnd(t) <==> PaddedOnlyAtEnd(t[4..])
  {
    assert forall i :: 0 <= i < 4 ==> t[i] == t[..4][i];
    assert forall i :: 4 <= i < |t| ==> t[i] == t[4..][i - 4];
    if PaddedOnlyAtEnd(t) {
      forall i | 0 <= i < |t[4..]| - 4 ensures t[4..][i] != '=' { assert t[i + 4] != '='; }
    }
  }

  lemma QuadOfPrefix(b: seq<Byte>, rest: seq<Byte>)
    requires |b| == 3
    ensures EncodeQuad(b + rest) == EncodeQuad(b)
  {}

  lemma LastQuadPadded(t: string)
    requires |t| >= 4 && |t| % 4 == 0 && '=' in t[..4]
    ensures |t| == 4 <==> PaddedOnlyAtEnd(t)
  {
    var i :| 0 <= i < 4 && t[..4][i] == '=';
    assert t[i] == '=';
  }

  /** Whatever text the decoder accepts starts with the canonical encoding of the bytes it
      returns; the text is that encoding exactly when no quad but the last one is padded. */
  lemma {:induction false} EncodeAfterDecode(t: string)
    requires Decode(t).Some?
    ensures Encode(Decode(t).value) <= t
    ensures Encode(Decode(t).value) == t <==> PaddedOnlyAtEnd(t)
  {
    hide DecodeQuad, EncodeQuad;
    if t != "" {
      QuadIsCanonical(t[..4]);
      var q := DecodeQuad(t[..4]).value;
      assert t == t[..4] + t[4..];
      if q.last {
        assert Encode(q.bytes) == t[..4] + "";
        LastQuadPadded(t);
      } else {
        EncodeAfterDecode(t[4..]);
        PaddedOnlyAtEndStep(t);
        var rest := DecodeQuads(t[4..]).value;
        assert Tail3(q.bytes + rest) == rest;
        QuadOfPrefix(q.bytes, rest);
      }
    }
  }

  /** A text that is padded before its last quad: what follows the padding is ignored. */
  lemma PaddingEndsText()
    ensures Decode("QQ==QUJD") == Some([65]) && Encode([65]) == "QQ==" && Decode("QQ==QUJD") == Decode("QQ==")
  {
    assert "QQ==QUJD"[..4] == "QQ==" && "QQ=="[..4] == "QQ==";
    assert DecodeQuad("QQ==") == Some(QuadBytes([65], true));
    assert EncodeQuad([65]) == "QQ==" && Encode(Tail3([65])) == "";
  }

  // ----- The alphabet, and exactly what is decoded -----

  const UPPER: string := "ABCDEFGHIJKLMNOPQRSTUVWXYZ"
  const LOWER: string := "abcdefghijklmnopqrstuvwxyz"
  const ALPHABET: string := UPPER + LOWER + "0123456789" + "+/"

  /** The alphabet of RFC 4648, section 4, in its order, and nothing else. */
  lemma DigitsAreTheAlphabet()
    ensures |ALPHABET| == 64 && forall d: Sextet :: Digit(d) == ALPHABET[d]
    ensures forall c: char :: Lookup(c) >= 0 <==> c in ALPHABET
  {
    DigitAt(0);
    forall d: Sextet ensures Digit(d) == ALPHABET[d] { DigitAt(d); }
    forall c: char ensures Lookup(c) >= 0 <==> c in ALPHABET {
      if Lookup(c) >= 0 {
        DigitAt(Lookup(c));
        assert ALPHABET[Lookup(c)] == c;
      }
      if c in ALPHABET {
        var d :| 0 <= d < 64 && ALPHABET[d] == c;
        DigitAt(d);
        LookupDigit(d);
      }
    }
  }

  lemma UpperAt(d: nat)
    requires d < 26
    ensures UPPER[d] as int == 'A' as int + d
  {
    assert forall i :: 0 <= i < 26 ==> UPPER[i] as int == 65 + i;
  }

  lemma LowerAt(d: nat)
    requires d < 26
    ensures LOWER[d] as int == 'a' as int + d
  {
    assert forall i :: 0 <= i < 26 ==> LOWER[i] as int == 97 + i;
  }

  lemma DecimalAt(d: nat)
    requires d < 10
    ensures "0123456789"[d] as int == '0' as int + d
  {
    assert forall i :: 0 <= i < 10 ==> "0123456789"[i] as int == 48 + i;
  }

  lemma DigitAt(d: Sextet)
    ensures |ALPHABET| == 64 && Digit(d) == ALPHABET[d]
  {
    if d < 26 { UpperAt(d); } else if d < 52 { LowerAt(d - 26); } else if d < 62 { DecimalAt(d - 52); }
  }

  /** The four characters of a full quad are the 24 bits of its three bytes, the most significant first. */
  lemma QuadIsGroup(a: Byte, b: Byte, c: Byte)
    ensures var q := EncodeQuad([a, b, c]);
            Lookup(q[0]) * 0x40000 + Lookup(q[1]) * 0x1000 + Lookup(q[2]) * 0x40 + Lookup(q[3]) == a * 0x10000 + b * 0x100 + c
    ensures var q := EncodeQuad([a, b]);
            q[3] == '=' && Lookup(q[0]) * 0x1000 + Lookup(q[1]) * 0x40 + Lookup(q[2]) == (a * 0x100 + b) * 4
    ensures var q := EncodeQuad([a]);
            q[2] == q[3] == '=' && Lookup(q[0]) * 0x40 + Lookup(q[1]) == a * 16
  {
    forall d: Sextet ensures Lookup(Digit(d)) == d { LookupDigit(d); }
    hide Digit, Lookup;
  }

  /** A text decodes to a byte string if and only if it is a sequence of quads that begins with the byte
      string's encoding, and either is no more than that or has its padding there. */
  lemma DecodesExactly(t: string, b: seq<Byte>)
    ensures Decode(t) == Some(b) <==> |t| % 4 == 0 && Encode(b) <= t && (Encode(b) == t || |b| % 3 != 0)
  {
    hide Encode, Decode;
    if Decode(t) == Some(b) {
      EncodeAfterDecode(t);
      DecodeNeedsQuads(t);
      if |b| % 3 == 0 { WholeGroupsDecodeAll(t); }
    }
    if |t| % 4 == 0 && Encode(b) <= t && (Encode(b) == t || |b| % 3 != 0) {
      DecodeAfterEncode(b);
      if Encode(b) != t { PaddedPrefix(t, b); }
    }
  }

  lemma DecodeNeedsQuads(t: string)
    requires Decode(t).Some?
    ensures |t| % 4 == 0
  {}

  lemma {:induction false} WholeGroupsDecodeAll(t: string)
    requires Decode(t).Some? && |Decode(t).value| % 3 == 0
    ensures Encode(Decode(t).value) == t
    decreases |t|
  {
    if t != "" {
      var q := DecodeQuad(t[..4]).value;
      QuadIsCanonical(t[..4]);
      if !q.last {
        var rest := DecodeQuads(t[4..]).value;
        WholeGroupsDecodeAll(t[4..]);
        assert Tail3(q.bytes + rest) == rest;
        QuadOfPrefix(q.bytes, rest);
        assert t == t[..4] + t[4..];
      }
    }
  }

  lemma {:induction false} PaddedPrefix(t: string, b: seq<Byte>)
    requires |t| % 4 == 0 && Encode(b) <= t && |b| % 3 != 0
    ensures Decode(t) == Some(b)
    decreases |b|
  {
    hide EncodeQuad, DecodeQuad;
    QuadRoundTrip(b);
    FirstQuad(t, b);
    if |b| > 3 {
      PaddedPrefix(t[4..], Tail3(b));
      assert b[..3] + Tail3(b) == b;
    }
  }

  lemma FirstQuad(t: string, b: seq<Byte>)
    requires b != [] && Encode(b) <= t
    ensures |t| >= 4 && t[..4] == EncodeQuad(b) && Encode(Tail3(b)) <= t[4..]
  {
    hide EncodeQuad;
    assert Encode(b) == EncodeQuad(b) + Encode(Tail3(b));
    assert t[..|Encode(b)|] == Encode(b);
    assert Encode(b)[4..] == Encode(Tail3(b));
    assert t[4..][..|Encode(Tail3(b))|] == Encode(b)[4..];
  }
}
