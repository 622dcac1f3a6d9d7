/** Base64 encoding with the standard alphabet and `=` padding (section 4 of
    RFC 4648), as Python's `base64.b64encode` produces it; used for the empty
    JSON patch that the mutating webhook returns. */
module Base64 {

  newtype Byte = x: int | 0 <= x < 256

  /** A character of the alphabet of section 4 of RFC 4648. */
  predicate IsDigitChar(c: char) {
    ('A' <= c <= 'Z') || ('a' <= c <= 'z') || ('0' <= c <= '9') || c == '+' || c == '/'
  }

  predicate IsEncodingChar(c: char) {
    IsDigitChar(c) || c == '='
  }

  /** The character that encodes the six-bit group `v` (table 1 of RFC 4648). */
  function Digit(v: int): (c: char)
    requires 0 <= v < 64
    ensures IsDigitChar(c) && c != '='
  {
    if v < 26 then ('A' as int + v) as char
    else if v < 52 then ('a' as int + (v - 26)) as char
    else if v < 62 then ('0' as int + (v - 52)) as char
    else if v == 62 then '+'
    else '/'
  }

  /** The four characters of one group of up to three bytes; a group of
      fewer than three bytes is padded with `=`. */
  function EncodeGroup(g: seq<Byte>): (r: string)
    requires 1 <= |g| <= 3
    ensures |r| == 4
    ensures forall i :: 0 <= i < 4 ==> IsEncodingChar(r[i])
    ensures (|g| == 3) == ('=' !in r)
  {
    var b0 := g[0] as int;
    var b1 := if |g| > 1 then g[1] as int else 0;
    var b2 := if |g| > 2 then g[2] as int else 0;
    var c0, c1 := Digit(b0 / 4), Digit(b0 % 4 * 16 + b1 / 16);
    var c2 := if |g| > 1 then Digit(b1 % 16 * 4 + b2 / 64) else '=';
    var c3 := if |g| > 2 then Digit(b2 % 64) else '=';
    [c0, c1, c2, c3]
  }

  /** The encoding of `b`: four characters per three bytes, the last group
      padded with `=` when `|b|` is not a multiple of three. There is no
      padding exactly when the text is 4/3 as long as the input. */
  function Encode(b: seq<Byte>): (r: string)
    ensures forall i :: 0 <= i < |r| ==> IsEncodingChar(r[i])
    ensures '=' !in r <==> 3 * |r| == 4 * |b|
  {
    if |b| == 0 then ""
    else if |b| <= 3 then EncodeGroup(b)
    else
      var group, rest := EncodeGroup(b[..3]), Encode(b[3..]);
      assert '=' in group + rest <==> '=' in rest;
      group + rest
  }

  /** The encoded length is 4 * |b| / 3 rounded up to a multiple of four. */
  lemma {:induction false} EncodeLength(b: seq<Byte>)
    ensures |Encode(b)| == 4 * ((|b| + 2) / 3)
  {
    if |b| > 3 {
      EncodeLength(b[3..]);
      assert Encode(b) == EncodeGroup(b[..3]) + Encode(b[3..]);
      assert (|b| + 2) / 3 == (|b[3..]| + 2) / 3 + 1;
    }
  }

  /** The six-bit group a character of the alphabet encodes; 0 for any
      other character. */
  function DigitValue(c: char): (v: int)
    ensures 0 <= v < 64
  {
    if 'A' <= c <= 'Z' then c as int - 'A' as int
    else if 'a' <= c <= 'z' then c as int - 'a' as int + 26
    else if '0' <= c <= '9' then c as int - '0' as int + 52
    else if c == '+' then 62
    else if c == '/' then 63
    else 0
  }

  lemma DigitValueOfDigit(v: int)
    requires 0 <= v < 64
    ensures DigitValue(Digit(v)) == v
  {
  }

  /** The bytes of one group of four characters: one when the third is `=`,
      two when only the fourth is, three otherwise. */
  function DecodeGroup(q: string): (g: seq<Byte>)
    requires |q| == 4
    ensures 1 <= |g| <= 3
  {
    var c0, c1, c2, c3 := DigitValue(q[0]), DigitValue(q[1]), DigitValue(q[2]), DigitValue(q[3]);
    var b0 := (c0 * 4 + c1 / 16) as Byte;
    var b1 := (c1 % 16 * 16 + c2 / 4) as Byte;
    var b2 := (c2 % 4 * 64 + c3) as Byte;
    if q[2] == '=' then [b0]
    else if q[3] == '=' then [b0, b1]
    else [b0, b1, b2]
  }

  /** The bytes of base64 text, group by group; a trailing incomplete group
      is ignored. */
  function Decode(s: string): seq<Byte>
  {
    if |s| < 4 then []
    else DecodeGroup(s[..4]) + Decode(s[4..])
  }

  /** Decoding a group undoes encoding it. */
  lemma DecodeEncodeGroup(g: seq<Byte>)
    requires 1 <= |g| <= 3
    ensures DecodeGroup(EncodeGroup(g)) == g
  {
    var b0 := g[0] as int;
    var b1 := if |g| > 1 then g[1] as int else 0;
    var b2 := if |g| > 2 then g[2] as int else 0;
    var v0, v1, v2, v3 := b0 / 4, b0 % 4 * 16 + b1 / 16, b1 % 16 * 4 + b2 / 64, b2 % 64;
    var q := EncodeGroup(g);
    DigitValueOfDigit(v0);
    DigitValueOfDigit(v1);
    assert DigitValue(q[0]) == v0 && DigitValue(q[1]) == v1;
    assert v0 * 4 + v1 / 16 == b0;
    if |g| > 1 {
      DigitValueOfDigit(v2);
      assert DigitValue(q[2]) == v2;
      assert v1 % 16 * 16 + v2 / 4 == b1;
    }
    if |g| > 2 {
      DigitValueOfDigit(v3);
      assert DigitValue(q[3]) == v3;
      assert v2 % 4 * 64 + v3 == b2;
    }
  }

  /** Decoding undoes encoding: the base64 text determines the bytes. */
  lemma {:induction false} DecodeEncode(b: seq<Byte>)
    ensures Decode(Encode(b)) == b
  {
    if |b| == 0 {
    } else if |b| <= 3 {
      var q := Encode(b);
      assert q == EncodeGroup(b);
      assert q[..4] == q && q[4..] == [];
      DecodeEncodeGroup(b);
    } else {
      var group, rest := EncodeGroup(b[..3]), Encode(b[3..]);
      assert Encode(b) == group + rest;
      assert (group + rest)[..4] == group && (group + rest)[4..] == rest;
      DecodeEncodeGroup(b[..3]);
      DecodeEncode(b[3..]);
      assert b == b[..3] + b[3..];
    }
  }

  /** The bytes of an ASCII string (its UTF-8 encoding, Python's `str.encode()`). */
  function AsciiBytes(s: string): (b: seq<Byte>)
    requires forall i :: 0 <= i < |s| ==> s[i] as int < 128
    ensures |b| == |s|
    ensures forall i :: 0 <= i < |s| ==> b[i] as int == s[i] as int
  {
    seq(|s|, i requires 0 <= i < |s| => s[i] as int as Byte)
  }
}
