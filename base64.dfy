/** The base64 alphabet and encoding of section 4 of RFC 4648, as used for
    the `content.data` field of transferred files: Node's
    `Buffer.toString('base64')` pads with `=`, and `new Buffer(s, 'base64')`
    skips every character outside the alphabet (padding included) and
    decodes the remaining characters four at a time, a final group of two
    or three characters giving one or two bytes. */
module Base64 {

  newtype byte = x: int | 0 <= x < 256

  type sextet = x: int | 0 <= x < 64

  /** Table 1 of RFC 4648: the character for a 6-bit value. */
  function Char(v: sextet): (c: char)
    ensures InAlphabet(c)
  {
    if v < 26 then ('A' as int + v) as char
    else if v < 52 then ('a' as int + (v - 26)) as char
    else if v < 62 then ('0' as int + (v - 52)) as char
    else if v == 62 then '+'
    else '/'
  }

  predicate InAlphabet(c: char) {
    ('A' <= c <= 'Z') || ('a' <= c <= 'z') || ('0' <= c <= '9') || c == '+' || c == '/'
  }

  /** The 6-bit value of an alphabet character (inverse of Table 1). */
  function Value(c: char): (v: sextet)
    requires InAlphabet(c)
  {
    if 'A' <= c <= 'Z' then c as int - 'A' as int
    else if 'a' <= c <= 'z' then c as int - 'a' as int + 26
    else if '0' <= c <= '9' then c as int - '0' as int + 52
    else if c == '+' then 62
    else 63
  }

  lemma CharInAlphabet(v: sextet)
    ensures InAlphabet(Char(v))
    ensures Value(Char(v)) == v
  {
  }

  /** The padding character is not part of the alphabet. */
  lemma PadNotInAlphabet()
    ensures !InAlphabet('=')
  {
  }

  // ---------------------------------------------------------------------
  // Encoding
  // ---------------------------------------------------------------------

  function Quad(a: byte, b: byte, c: byte): string
  {
    [Char(a as int / 4), Char((a as int % 4) * 16 + b as int / 16),
     Char((b as int % 16) * 4 + c as int / 64), Char(c as int % 64)]
  }

  /** Encoding of a final group of two bytes: three characters and one `=`. */
  function Tri(a: byte, b: byte): string
  {
    [Char(a as int / 4), Char((a as int % 4) * 16 + b as int / 16), Char((b as int % 16) * 4), '=']
  }

  /** Encoding of a final single byte: two characters and `==`. */
  function Duo(a: byte): string
  {
    [Char(a as int / 4), Char((a as int % 4) * 16), '=', '=']
  }

  /** `Buffer.toString('base64')`. Every group of three bytes gives four
      characters, so the length is four times the number of groups begun. */
  function Encode(bs: seq<byte>): string
    decreases |bs|
  {
    if |bs| >= 3 then Quad(bs[0], bs[1], bs[2]) + Encode(bs[3..])
    else if |bs| == 2 then Tri(bs[0], bs[1])
    else if |bs| == 1 then Duo(bs[0])
    else ""
  }

  /** Every group of three bytes begun gives four characters. */
  lemma {:induction false} EncodeLength(bs: seq<byte>)
    ensures |Encode(bs)| == 4 * ((|bs| + 2) / 3)
    decreases |bs|
  {
    if |bs| >= 3 {
      EncodeLength(bs[3..]);
      assert (|bs| + 2) / 3 == (|bs[3..]| + 2) / 3 + 1;
    }
  }

  /** The encoding consists of alphabet characters and padding. */
  lemma {:induction false} EncodeAlphabet(bs: seq<byte>)
    ensures forall i :: 0 <= i < |Encode(bs)| ==> InAlphabet(Encode(bs)[i]) || Encode(bs)[i] == '='
    decreases |bs|
  {
    if |bs| >= 3 {
      EncodeAlphabet(bs[3..]);
      var q := Quad(bs[0], bs[1], bs[2]);
      var e := Encode(bs[3..]);
      assert Encode(bs) == q + e;
      forall i | 0 <= i < |q + e| ensures InAlphabet((q + e)[i]) || (q + e)[i] == '=' {
        if i >= |q| {
          assert (q + e)[i] == e[i - |q|];
        }
      }
    }
  }

  // ---------------------------------------------------------------------
  // Decoding
  // ---------------------------------------------------------------------

  /** The values of the alphabet characters of `s`, in order; anything
      else, padding included, is skipped. */
  function Sextets(s: string): (r: seq<sextet>)
    ensures |r| <= |s|
  {
    if s == [] then []
    else (if InAlphabet(s[0]) then [Value(s[0])] else []) + Sextets(s[1..])
  }

  function Byte0(c0: sextet, c1: sextet): byte {
    (c0 * 4 + c1 / 16) as byte
  }

  function Byte1(c1: sextet, c2: sextet): byte {
    ((c1 % 16) * 16 + c2 / 4) as byte
  }

  function Byte2(c2: sextet, c3: sextet): byte {
    ((c2 % 4) * 64 + c3) as byte
  }

  /** Four values give three bytes; a final group of three or two values
      gives two or one byte, and a single leftover value gives none. */
  function DecodeSextets(xs: seq<sextet>): (r: seq<byte>)
    ensures |r| == 3 * (|xs| / 4) + (if |xs| % 4 == 0 then 0 else |xs| % 4 - 1)
    decreases |xs|
  {
    if |xs| >= 4 then [Byte0(xs[0], xs[1]), Byte1(xs[1], xs[2]), Byte2(xs[2], xs[3])] + DecodeSextets(xs[4..])
    else if |xs| == 3 then [Byte0(xs[0], xs[1]), Byte1(xs[1], xs[2])]
    else if |xs| == 2 then [Byte0(xs[0], xs[1])]
    else []
  }

  /** `new Buffer(s, 'base64')`. */
  function Decode(s: string): seq<byte> {
    DecodeSextets(Sextets(s))
  }

  // ---------------------------------------------------------------------
  // Round trip
  // ---------------------------------------------------------------------

  lemma {:induction false} SextetsAppend(a: string, b: string)
    ensures Sextets(a + b) == Sextets(a) + Sextets(b)
    decreases |a|
  {
    if a == [] {
      assert a + b == b;
    } else {
      var t := a + b;
      assert t[0] == a[0];
      assert t[1..] == a[1..] + b;
      SextetsAppend(a[1..], b);
      var h: seq<sextet> := if InAlphabet(a[0]) then [Value(a[0])] else [];
      assert Sextets(t) == h + Sextets(t[1..]);
      assert Sextets(a) == h + Sextets(a[1..]);
    }
  }

  lemma SextetsOfChars(s: string, vs: seq<sextet>)
    requires |s| == |vs|
    requires forall i :: 0 <= i < |s| ==> s[i] == Char(vs[i])
    ensures Sextets(s) == vs
    decreases |s|
  {
    if s != [] {
      CharInAlphabet(vs[0]);
      SextetsOfChars(s[1..], vs[1..]);
    }
  }

  lemma Split4(x: int, hi: int, lo: int)
    requires 0 <= hi && 0 <= lo < 4 && x == hi * 4 + lo
    ensures x / 4 == hi && x % 4 == lo
  {
  }

  lemma Split16(x: int, hi: int, lo: int)
    requires 0 <= hi && 0 <= lo < 16 && x == hi * 16 + lo
    ensures x / 16 == hi && x % 16 == lo
  {
  }

  /** The first decoded byte of a group is the first encoded byte. */
  lemma FirstByte(a: byte, b: byte)
    ensures Byte0(a as int / 4, (a as int % 4) * 16 + b as int / 16) == a
  {
    Split16((a as int % 4) * 16 + b as int / 16, a as int % 4, b as int / 16);
  }

  lemma SecondByte(a: byte, b: byte, c: byte)
    ensures Byte1((a as int % 4) * 16 + b as int / 16, (b as int % 16) * 4 + c as int / 64) == b
  {
    Split16((a as int % 4) * 16 + b as int / 16, a as int % 4, b as int / 16);
    Split4((b as int % 16) * 4 + c as int / 64, b as int % 16, c as int / 64);
  }

  lemma ThirdByte(b: byte, c: byte)
    ensures Byte2((b as int % 16) * 4 + c as int / 64, c as int % 64) == c
  {
    Split4((b as int % 16) * 4 + c as int / 64, b as int % 16, c as int / 64);
  }

  /** The values behind the encoding of `bs`: four per group of three
      bytes, three for a final pair and two for a final byte. */
  lemma {:induction false} SextetsOfEncode(bs: seq<byte>)
    ensures Sextets(Encode(bs)) == EncodedSextets(bs)
    decreases |bs|
  {
    if |bs| >= 3 {
      var q := Quad(bs[0], bs[1], bs[2]);
      SextetsAppend(q, Encode(bs[3..]));
      SextetsOfQuad(bs[0], bs[1], bs[2]);
      SextetsOfEncode(bs[3..]);
    } else if |bs| == 2 {
      SextetsOfTri(bs[0], bs[1]);
    } else if |bs| == 1 {
      SextetsOfDuo(bs[0]);
    }
  }

  lemma SextetsOfQuad(a: byte, b: byte, c: byte)
    ensures Sextets(Quad(a, b, c)) ==
            [a as int / 4, (a as int % 4) * 16 + b as int / 16, (b as int % 16) * 4 + c as int / 64, c as int % 64]
  {
    SextetsOfChars(Quad(a, b, c), [a as int / 4, (a as int % 4) * 16 + b as int / 16, (b as int % 16) * 4 + c as int / 64, c as int % 64]);
  }

  lemma SextetsOfTri(a: byte, b: byte)
    ensures Sextets(Tri(a, b)) == [a as int / 4, (a as int % 4) * 16 + b as int / 16, (b as int % 16) * 4]
  {
    var t := Tri(a, b);
    assert t == t[..3] + ['='];
    SextetsAppend(t[..3], ['=']);
    SextetsOfChars(t[..3], [a as int / 4, (a as int % 4) * 16 + b as int / 16, (b as int % 16) * 4]);
  }

  lemma SextetsOfDuo(a: byte)
    ensures Sextets(Duo(a)) == [a as int / 4, (a as int % 4) * 16]
  {
    var d := Duo(a);
    assert d == d[..2] + ['=', '='];
    SextetsAppend(d[..2], ['=', '=']);
    SextetsOfChars(d[..2], [a as int / 4, (a as int % 4) * 16]);
  }

  function EncodedSextets(bs: seq<byte>): seq<sextet>
    decreases |bs|
  {
    if |bs| >= 3 then
      [bs[0] as int / 4, (bs[0] as int % 4) * 16 + bs[1] as int / 16,
       (bs[1] as int % 16) * 4 + bs[2] as int / 64, bs[2] as int % 64] + EncodedSextets(bs[3..])
    else if |bs| == 2 then
      [bs[0] as int / 4, (bs[0] as int % 4) * 16 + bs[1] as int / 16, (bs[1] as int % 16) * 4]
    else if |bs| == 1 then
      [bs[0] as int / 4, (bs[0] as int % 4) * 16]
    else []
  }

  lemma {:induction false} DecodeEncodedSextets(bs: seq<byte>)
    ensures DecodeSextets(EncodedSextets(bs)) == bs
    decreases |bs|
  {
    var xs := EncodedSextets(bs);
    if |bs| >= 3 {
      FirstByte(bs[0], bs[1]);
      SecondByte(bs[0], bs[1], bs[2]);
      ThirdByte(bs[1], bs[2]);
      assert xs[4..] == EncodedSextets(bs[3..]);
      DecodeEncodedSextets(bs[3..]);
      assert bs == [bs[0], bs[1], bs[2]] + bs[3..];
    } else if |bs| == 2 {
      FirstByte(bs[0], bs[1]);
      SecondByte(bs[0], bs[1], 0);
    } else if |bs| == 1 {
      FirstByte(bs[0], 0);
    }
  }

  /** Decoding what was encoded gives back the original bytes. */
  lemma DecodeEncode(bs: seq<byte>)
    ensures Decode(Encode(bs)) == bs
  {
    SextetsOfEncode(bs);
    DecodeEncodedSextets(bs);
  }
}
