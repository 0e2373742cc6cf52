/** The PKCE code challenge of section 4.2 of RFC 7636 as the authorize step
    computes it: the verifier is made from a random UUID with its dashes
    removed, encoded to UTF-8, hashed with SHA-256, encoded with `btoa`
    (standard Base64 of section 4 of RFC 4648, with `=` padding), and then
    turned into the URL-safe alphabet of section 5 of RFC 4648 with the
    padding stripped by three global replacements. SHA-256 itself is a
    parameter: any function from bytes to 32 bytes. */
module Encoding {
  import opened Types
  import opened Text

  newtype byte = x: int | 0 <= x < 256

  /** A SHA-256 digest. */
  type Digest = s: seq<byte> | |s| == 32 witness seq(32, _ => 0 as byte)

  /** The four 6-bit groups of a 3-byte block (missing bytes count as zero). */
  function Sextet0(b0: byte): int { b0 as int / 4 }
  function Sextet1(b0: byte, b1: byte): int { b0 as int % 4 * 16 + b1 as int / 16 }
  function Sextet2(b1: byte, b2: byte): int { b1 as int % 16 * 4 + b2 as int / 64 }
  function Sextet3(b2: byte): int { b2 as int % 64 }

  /** Digit `i` of the URL-safe alphabet (section 5 of RFC 4648). */
  function UrlSafeDigit(i: int): (c: char)
    requires 0 <= i < 64
    ensures IsUrlSafeChar(c)
  {
    if i < 26 then (('A' as int) + i) as char
    else if i < 52 then (('a' as int) + i - 26) as char
    else if i < 62 then (('0' as int) + i - 52) as char
    else if i == 62 then '-'
    else '_'
  }

  /** Digit `i` of the standard alphabet (section 4 of RFC 4648), which `btoa` uses. */
  function StandardDigit(i: int): char
    requires 0 <= i < 64
  {
    if i == 62 then '+' else if i == 63 then '/' else UrlSafeDigit(i)
  }

  predicate IsUrlSafeChar(c: char)
  {
    'A' <= c <= 'Z' || 'a' <= c <= 'z' || '0' <= c <= '9' || c == '-' || c == '_'
  }

  /** The value of a URL-safe digit. */
  function DigitValue(c: char): (i: int)
    requires IsUrlSafeChar(c)
    ensures 0 <= i < 64 && UrlSafeDigit(i) == c
  {
    if 'A' <= c <= 'Z' then c as int - 'A' as int
    else if 'a' <= c <= 'z' then c as int - 'a' as int + 26
    else if '0' <= c <= '9' then c as int - '0' as int + 52
    else if c == '-' then 62
    else 63
  }

  /** `btoa(String.fromCharCode(...bytes))`: standard Base64 with `=` padding. */
  function Base64(b: seq<byte>): string
    decreases |b|
  {
    if |b| == 0 then ""
    else if |b| == 1 then
      [StandardDigit(Sextet0(b[0])), StandardDigit(Sextet1(b[0], 0)), '=', '=']
    else if |b| == 2 then
      [StandardDigit(Sextet0(b[0])), StandardDigit(Sextet1(b[0], b[1])), StandardDigit(Sextet2(b[1], 0)), '=']
    else
      [StandardDigit(Sextet0(b[0])), StandardDigit(Sextet1(b[0], b[1])),
       StandardDigit(Sextet2(b[1], b[2])), StandardDigit(Sextet3(b[2]))] + Base64(b[3..])
  }

  /** BASE64URL-ENCODE of Appendix A of RFC 7636: the URL-safe alphabet, no padding. */
  function Base64UrlNoPad(b: seq<byte>): (s: string)
    ensures forall i :: 0 <= i < |s| ==> IsUrlSafeChar(s[i])
    ensures |s| == (4 * |b| + 2) / 3
    decreases |b|
  {
    if |b| == 0 then ""
    else if |b| == 1 then
      [UrlSafeDigit(Sextet0(b[0])), UrlSafeDigit(Sextet1(b[0], 0))]
    else if |b| == 2 then
      [UrlSafeDigit(Sextet0(b[0])), UrlSafeDigit(Sextet1(b[0], b[1])), UrlSafeDigit(Sextet2(b[1], 0))]
    else
      [UrlSafeDigit(Sextet0(b[0])), UrlSafeDigit(Sextet1(b[0], b[1])),
       UrlSafeDigit(Sextet2(b[1], b[2])), UrlSafeDigit(Sextet3(b[2]))] + Base64UrlNoPad(b[3..])
  }

  /** The three replacements applied to the output of `btoa`:
      `.replace(/\+/g, "-").replace(/\//g, "_").replace(/=/g, "")`. */
  function UrlSafeFromBase64(s: string): string
  {
    RemoveAll(ReplaceAll(ReplaceAll(s, '+', '-'), '/', '_'), '=')
  }

  lemma UrlSafeFromBase64Concat(a: string, b: string)
    ensures UrlSafeFromBase64(a + b) == UrlSafeFromBase64(a) + UrlSafeFromBase64(b)
  {
    ReplaceAllConcat(a, b, '+', '-');
    ReplaceAllConcat(ReplaceAll(a, '+', '-'), ReplaceAll(b, '+', '-'), '/', '_');
    RemoveAllConcat(ReplaceAll(ReplaceAll(a, '+', '-'), '/', '_'), ReplaceAll(ReplaceAll(b, '+', '-'), '/', '_'), '=');
  }

  /** What the three replacements do to one character other than `=`. */
  function Translated(x: char): char
  {
    if x == '+' then '-' else if x == '/' then '_' else x
  }

  lemma TranslatedDigit(i: int)
    requires 0 <= i < 64
    ensures StandardDigit(i) != '=' && Translated(StandardDigit(i)) == UrlSafeDigit(i)
  {
  }

  lemma CharCons(x: char, rest: string)
    requires x != '='
    ensures UrlSafeFromBase64([x] + rest) == [Translated(x)] + UrlSafeFromBase64(rest)
  {
    UrlSafeFromBase64Concat([x], rest);
    var once := ReplaceAll(ReplaceAll([x], '+', '-'), '/', '_');
    assert once == [Translated(x)];
    assert RemoveAll(once, '=') == [Translated(x)] + RemoveAll(once[1..], '=');
  }

  lemma PaddingCons(rest: string)
    ensures UrlSafeFromBase64(['='] + rest) == UrlSafeFromBase64(rest)
  {
    UrlSafeFromBase64Concat(['='], rest);
    var once := ReplaceAll(ReplaceAll(['='], '+', '-'), '/', '_');
    assert once == ['='];
    assert RemoveAll(once, '=') == RemoveAll(once[1..], '=');
  }

  lemma OneByteBlock(b0: byte)
    ensures UrlSafeFromBase64(Base64([b0])) == Base64UrlNoPad([b0])
  {
    var c0, c1 := StandardDigit(Sextet0(b0)), StandardDigit(Sextet1(b0, 0));
    TranslatedDigit(Sextet0(b0));
    TranslatedDigit(Sextet1(b0, 0));
    assert Base64([b0]) == [c0] + ([c1] + (['='] + (['='] + "")));
    assert UrlSafeFromBase64("") == "";
    PaddingCons("");
    PaddingCons(['='] + "");
    CharCons(c1, ['='] + (['='] + ""));
    CharCons(c0, [c1] + (['='] + (['='] + "")));
  }

  lemma TwoByteBlock(b0: byte, b1: byte)
    ensures UrlSafeFromBase64(Base64([b0, b1])) == Base64UrlNoPad([b0, b1])
  {
    var c0, c1, c2 := StandardDigit(Sextet0(b0)), StandardDigit(Sextet1(b0, b1)), StandardDigit(Sextet2(b1, 0));
    TranslatedDigit(Sextet0(b0));
    TranslatedDigit(Sextet1(b0, b1));
    TranslatedDigit(Sextet2(b1, 0));
    assert Base64([b0, b1]) == [c0] + ([c1] + ([c2] + (['='] + "")));
    assert UrlSafeFromBase64("") == "";
    PaddingCons("");
    CharCons(c2, ['='] + "");
    CharCons(c1, [c2] + (['='] + ""));
    CharCons(c0, [c1] + ([c2] + (['='] + "")));
  }

  lemma FullBlock(c0: char, c1: char, c2: char, c3: char, rest: string)
    requires c0 != '=' && c1 != '=' && c2 != '=' && c3 != '='
    ensures UrlSafeFromBase64([c0, c1, c2, c3] + rest)
         == [Translated(c0), Translated(c1), Translated(c2), Translated(c3)] + UrlSafeFromBase64(rest)
  {
    assert [c0, c1, c2, c3] + rest == [c0] + ([c1] + ([c2] + ([c3] + rest)));
    CharCons(c3, rest);
    CharCons(c2, [c3] + rest);
    CharCons(c1, [c2] + ([c3] + rest));
    CharCons(c0, [c1] + ([c2] + ([c3] + rest)));
  }

  /** The source's three replacements turn `btoa`'s output into exactly the
      unpadded URL-safe encoding RFC 7636 asks for. */
  lemma {:induction false} UrlSafeFromBase64IsBase64Url(b: seq<byte>)
    ensures UrlSafeFromBase64(Base64(b)) == Base64UrlNoPad(b)
    decreases |b|
  {
    if |b| == 0 {
      assert UrlSafeFromBase64("") == "";
    } else if |b| == 1 {
      assert b == [b[0]];
      OneByteBlock(b[0]);
    } else if |b| == 2 {
      assert b == [b[0], b[1]];
      TwoByteBlock(b[0], b[1]);
    } else {
      var i0, i1, i2, i3 := Sextet0(b[0]), Sextet1(b[0], b[1]), Sextet2(b[1], b[2]), Sextet3(b[2]);
      TranslatedDigit(i0);
      TranslatedDigit(i1);
      TranslatedDigit(i2);
      TranslatedDigit(i3);
      FullBlock(StandardDigit(i0), StandardDigit(i1), StandardDigit(i2), StandardDigit(i3), Base64(b[3..]));
      UrlSafeFromBase64IsBase64Url(b[3..]);
    }
  }

  /** Inverse of `Base64UrlNoPad` (lenient about the unused low bits of a final digit). */
  function DecodeBase64UrlNoPad(s: string): Option<seq<byte>>
    decreases |s|
  {
    if |s| == 0 then Some([])
    else if |s| == 1 || !IsUrlSafeChar(s[0]) || !IsUrlSafeChar(s[1]) then None
    else
      var a, b := DigitValue(s[0]), DigitValue(s[1]);
      var b0 := (a * 4 + b / 16) as byte;
      if |s| == 2 then Some([b0])
      else if !IsUrlSafeChar(s[2]) then None
      else
        var c := DigitValue(s[2]);
        var b1 := (b % 16 * 16 + c / 4) as byte;
        if |s| == 3 then Some([b0, b1])
        else if !IsUrlSafeChar(s[3]) then None
        else
          var b2 := (c % 4 * 64 + DigitValue(s[3])) as byte;
          match DecodeBase64UrlNoPad(s[4..])
          case None => None
          case Some(rest) => Some([b0, b1, b2] + rest)
  }

  /** The 6-bit groups put back together give the bytes they came from. */
  lemma SextetsJoin(b0: byte, b1: byte, b2: byte)
    ensures Sextet0(b0) * 4 + Sextet1(b0, b1) / 16 == b0 as int
    ensures Sextet1(b0, b1) % 16 * 16 + Sextet2(b1, b2) / 4 == b1 as int
    ensures Sextet2(b1, b2) % 4 * 64 + Sextet3(b2) == b2 as int
  {
    var x0, y0 := b0 as int / 4, b0 as int % 4;
    var x1, y1 := b1 as int / 16, b1 as int % 16;
    var x2, y2 := b2 as int / 64, b2 as int % 64;
    assert Sextet1(b0, b1) == y0 * 16 + x1;
    assert (y0 * 16 + x1) / 16 == y0 && (y0 * 16 + x1) % 16 == x1;
    assert Sextet2(b1, b2) == y1 * 4 + x2;
    assert (y1 * 4 + x2) / 4 == y1 && (y1 * 4 + x2) % 4 == x2;
  }

  lemma DigitRoundTrip(i: int)
    requires 0 <= i < 64
    ensures DigitValue(UrlSafeDigit(i)) == i
  {
  }

  lemma DecodeOneByte(b0: byte)
    ensures DecodeBase64UrlNoPad([UrlSafeDigit(Sextet0(b0)), UrlSafeDigit(Sextet1(b0, 0))]) == Some([b0])
  {
    SextetsJoin(b0, 0, 0);
    DigitRoundTrip(Sextet0(b0));
    DigitRoundTrip(Sextet1(b0, 0));
  }

  lemma DecodeTwoBytes(b0: byte, b1: byte)
    ensures DecodeBase64UrlNoPad([UrlSafeDigit(Sextet0(b0)), UrlSafeDigit(Sextet1(b0, b1)), UrlSafeDigit(Sextet2(b1, 0))])
         == Some([b0, b1])
  {
    SextetsJoin(b0, b1, 0);
    DigitRoundTrip(Sextet0(b0));
    DigitRoundTrip(Sextet1(b0, b1));
    DigitRoundTrip(Sextet2(b1, 0));
  }

  lemma DecodeFullBlock(b0: byte, b1: byte, b2: byte, rest: string, tail: seq<byte>, s: string)
    requires DecodeBase64UrlNoPad(rest) == Some(tail)
    requires s == [UrlSafeDigit(Sextet0(b0)), UrlSafeDigit(Sextet1(b0, b1)),
                   UrlSafeDigit(Sextet2(b1, b2)), UrlSafeDigit(Sextet3(b2))] + rest
    ensures DecodeBase64UrlNoPad(s) == Some([b0, b1, b2] + tail)
  {
    SextetsJoin(b0, b1, b2);
    DigitRoundTrip(Sextet0(b0));
    DigitRoundTrip(Sextet1(b0, b1));
    DigitRoundTrip(Sextet2(b1, b2));
    DigitRoundTrip(Sextet3(b2));
    assert s[4..] == rest;
  }

  /** A last block of one byte decodes back to it. */
  lemma RoundTripOneByte(b: seq<byte>)
    requires |b| == 1
    ensures DecodeBase64UrlNoPad(Base64UrlNoPad(b)) == Some(b)
  {
    assert Base64UrlNoPad(b) == [UrlSafeDigit(Sextet0(b[0])), UrlSafeDigit(Sextet1(b[0], 0))];
    DecodeOneByte(b[0]);
    assert b == [b[0]];
  }

  /** A last block of two bytes decodes back to them. */
  lemma RoundTripTwoBytes(b: seq<byte>)
    requires |b| == 2
    ensures DecodeBase64UrlNoPad(Base64UrlNoPad(b)) == Some(b)
  {
    assert Base64UrlNoPad(b)
        == [UrlSafeDigit(Sextet0(b[0])), UrlSafeDigit(Sextet1(b[0], b[1])), UrlSafeDigit(Sextet2(b[1], 0))];
    DecodeTwoBytes(b[0], b[1]);
    assert b == [b[0], b[1]];
  }

  /** The encoding of three bytes or more: one full block, then the rest. */
  lemma EncodeFullBlock(b: seq<byte>)
    requires |b| >= 3
    ensures Base64UrlNoPad(b) == [UrlSafeDigit(Sextet0(b[0])), UrlSafeDigit(Sextet1(b[0], b[1])),
                                  UrlSafeDigit(Sextet2(b[1], b[2])), UrlSafeDigit(Sextet3(b[2]))] + Base64UrlNoPad(b[3..])
  {
  }

  /** Three bytes or more are their first block followed by the rest. */
  lemma SplitFullBlock(b: seq<byte>)
    requires |b| >= 3
    ensures b == [b[0], b[1], b[2]] + b[3..]
  {
  }

  /** A full block in front of an encoding that round-trips round-trips too. */
  lemma RoundTripFullBlock(b: seq<byte>, tail: seq<byte>)
    requires |b| >= 3 && tail == b[3..]
    requires DecodeBase64UrlNoPad(Base64UrlNoPad(tail)) == Some(tail)
    ensures DecodeBase64UrlNoPad(Base64UrlNoPad(b)) == Some(b)
  {
    EncodeFullBlock(b);
    DecodeFullBlock(b[0], b[1], b[2], Base64UrlNoPad(tail), tail, Base64UrlNoPad(b));
    SplitFullBlock(b);
  }

  /** The encoding loses nothing: decoding it gives the bytes back. */
  lemma {:induction false} Base64UrlRoundTrip(b: seq<byte>)
    ensures DecodeBase64UrlNoPad(Base64UrlNoPad(b)) == Some(b)
    decreases |b|
  {
    if |b| == 1 {
      RoundTripOneByte(b);
    } else if |b| == 2 {
      RoundTripTwoBytes(b);
    } else if |b| >= 3 {
      Base64UrlRoundTrip(b[3..]);
      RoundTripFullBlock(b, b[3..]);
    }
  }

  /** Equal challenges come only from equal digests. */
  lemma Base64UrlInjective(a: seq<byte>, b: seq<byte>)
    requires Base64UrlNoPad(a) == Base64UrlNoPad(b)
    ensures a == b
  {
    Base64UrlRoundTrip(a);
    Base64UrlRoundTrip(b);
  }

  /** UTF-8 bytes of one Unicode scalar value. */
  function Utf8Char(c: char): (r: seq<byte>)
    ensures 1 <= |r| <= 4
    ensures (c as int < 128) == (|r| == 1)
  {
    var n := c as int;
    if n < 0x80 then [n as byte]
    else if n < 0x800 then [(0xC0 + n / 64) as byte, (0x80 + n % 64) as byte]
    else if n < 0x10000 then
      [(0xE0 + n / 4096) as byte, (0x80 + n / 64 % 64) as byte, (0x80 + n % 64) as byte]
    else
      [(0xF0 + n / 262144 % 8) as byte, (0x80 + n / 4096 % 64) as byte,
       (0x80 + n / 64 % 64) as byte, (0x80 + n % 64) as byte]
  }

  /** `new TextEncoder().encode(s)`. */
  function Utf8(s: string): seq<byte>
    decreases |s|
  {
    if s == [] then [] else Utf8Char(s[0]) + Utf8(s[1..])
  }

  /** On ASCII text, UTF-8 is one byte per character, equal to its code. */
  lemma {:induction false} Utf8OfAscii(s: string)
    requires forall i :: 0 <= i < |s| ==> s[i] as int < 128
    ensures |Utf8(s)| == |s|
    ensures forall i :: 0 <= i < |s| ==> Utf8(s)[i] as int == s[i] as int
    decreases |s|
  {
    if s != [] {
      Utf8OfAscii(s[1..]);
    }
  }

  /** `crypto.randomUUID().replace(/-/g, "")`. */
  function Verifier(uuid: string): string
  {
    RemoveAll(uuid, '-')
  }

  /** The shape `crypto.randomUUID()` produces: 36 characters, dashes at 8, 13, 18 and 23,
      lower-case hexadecimal digits elsewhere. */
  predicate IsUuid(u: string)
  {
    && |u| == 36
    && (forall i :: 0 <= i < 36 ==> (u[i] == '-' <==> i == 8 || i == 13 || i == 18 || i == 23))
    && (forall i :: 0 <= i < 36 && u[i] != '-' ==> IsHexDigit(u[i]))
  }

  lemma RemoveAllAt(s: string, i: int, c: char)
    requires 0 <= i < |s| && s[i] == c
    ensures RemoveAll(s, c) == RemoveAll(s[..i], c) + RemoveAll(s[i + 1..], c)
  {
    assert s == s[..i] + ([c] + s[i + 1..]);
    RemoveAllConcat(s[..i], [c] + s[i + 1..], c);
    RemoveAllConcat([c], s[i + 1..], c);
    assert RemoveAll([c], c) == [] + RemoveAll([], c);
  }

  /** A dash-free stretch of a UUID is kept as it is. */
  lemma UuidSegment(u: string, lo: int, hi: int)
    requires IsUuid(u) && 0 <= lo <= hi <= 36
    requires forall i :: lo <= i < hi ==> u[i] != '-'
    ensures RemoveAll(u[lo..hi], '-') == u[lo..hi]
    ensures forall i :: 0 <= i < hi - lo ==> IsHexDigit(u[lo..hi][i])
  {
    assert forall i :: 0 <= i < hi - lo ==> u[lo..hi][i] == u[lo + i];
    RemoveAllAbsent(u[lo..hi], '-');
  }

  /** The verifier is 32 hexadecimal characters: fewer than the 43 that
      section 4.1 of RFC 7636 sets as the minimum length of a code verifier. */
  lemma VerifierShape(u: string)
    requires IsUuid(u)
    ensures |Verifier(u)| == 32 < 43
    ensures forall i :: 0 <= i < 32 ==> IsHexDigit(Verifier(u)[i])
  {
    var a, b, c, d, e := u[0..8], u[9..13], u[14..18], u[19..23], u[24..36];
    UuidSegment(u, 0, 8);
    UuidSegment(u, 9, 13);
    UuidSegment(u, 14, 18);
    UuidSegment(u, 19, 23);
    UuidSegment(u, 24, 36);
    var t1, t2, t3 := u[9..], u[14..], u[19..];
    RemoveAllAt(u, 8, '-');
    assert u[..8] == a;
    assert t1[..4] == b && t1[5..] == t2;
    RemoveAllAt(t1, 4, '-');
    assert t2[..4] == c && t2[5..] == t3;
    RemoveAllAt(t2, 4, '-');
    assert t3[..4] == d && t3[5..] == e;
    RemoveAllAt(t3, 4, '-');
    var v := a + (b + (c + (d + e)));
    assert Verifier(u) == v;
    forall i | 0 <= i < 32
      ensures IsHexDigit(v[i])
    {
      if i < 8 { assert v[i] == a[i]; }
      else if i < 12 { assert v[i] == b[i - 8]; }
      else if i < 16 { assert v[i] == c[i - 12]; }
      else if i < 20 { assert v[i] == d[i - 16]; }
      else { assert v[i] == e[i - 20]; }
    }
  }

  /** The `code_challenge` sent with the authorize redirect for a given verifier. */
  function CodeChallenge(verifier: string, sha256: seq<byte> -> Digest): (c: string)
    ensures c == Base64UrlNoPad(sha256(Utf8(verifier)))
    ensures |c| == 43
    ensures forall i :: 0 <= i < |c| ==> IsUrlSafeChar(c[i])
    ensures '+' !in c && '/' !in c && '=' !in c
  {
    var digest := sha256(Utf8(verifier));
    UrlSafeFromBase64IsBase64Url(digest);
    UrlSafeFromBase64(Base64(digest))
  }
}
