/**
 * The base 64 encoding of section 4 of RFC 4648 (alphabet A-Z, a-z, 0-9,
 * '+', '/', padding '='), as the server produces it with
 * `Buffer.toString('base64')` and the browser reads it back with `atob`.
 *
 * Encoding is described in two stages: bytes are regrouped into 6-bit
 * values (three bytes to four values, a final one or two bytes to two or
 * three values), and each value is written as one alphabet character, with
 * '=' padding up to a multiple of four characters.
 */
module Base64 {
  import opened Wrappers

  type Byte = b: int | 0 <= b < 256
  type Sextet = v: int | 0 <= v < 64

  /** The characters of the alphabet of section 4 of RFC 4648. */
  predicate IsAlphabetChar(c: char)
  {
    'A' <= c <= 'Z' || 'a' <= c <= 'z' || '0' <= c <= '9' || c == '+' || c == '/'
  }

  /** The alphabet character standing for a 6-bit value. */
  function CharOf(v: Sextet): (c: char)
    ensures IsAlphabetChar(c)
  {
    if v < 26 then ('A' as int + v) as char
    else if v < 52 then ('a' as int + (v - 26)) as char
    else if v < 62 then ('0' as int + (v - 52)) as char
    else if v == 62 then '+'
    else '/'
  }

  /** The 6-bit value an alphabet character stands for. */
  function ValueOf(c: char): Sextet
    requires IsAlphabetChar(c)
  {
    if 'A' <= c <= 'Z' then c as int - 'A' as int
    else if 'a' <= c <= 'z' then c as int - 'a' as int + 26
    else if '0' <= c <= '9' then c as int - '0' as int + 52
    else if c == '+' then 62
    else 63
  }

  /** Every 6-bit value is recovered from its character. */
  lemma ValueOfCharOf(v: Sextet)
    ensures ValueOf(CharOf(v)) == v
  {
  }

  // ---------------------------------------------------------------------
  // Stage 1: bytes and 6-bit values

  /** Bytes regrouped into 6-bit values, most significant bits first. */
  function Sextets(b: seq<Byte>): seq<Sextet>
    decreases |b|
  {
    if |b| == 0 then []
    else if |b| == 1 then [b[0] / 4, (b[0] % 4) * 16]
    else if |b| == 2 then [b[0] / 4, (b[0] % 4) * 16 + b[1] / 16, (b[1] % 16) * 4]
    else [b[0] / 4, (b[0] % 4) * 16 + b[1] / 16, (b[1] % 16) * 4 + b[2] / 64, b[2] % 64] + Sextets(b[3..])
  }

  /** 6-bit values regrouped into bytes; a final lone value carries no whole byte. */
  function Bytes(x: seq<Sextet>): seq<Byte>
    decreases |x|
  {
    if |x| < 2 then []
    else
      var v0: int, v1: int := x[0], x[1];
      if |x| == 2 then [v0 * 4 + v1 / 16]
      else
        var v2: int := x[2];
        if |x| == 3 then [v0 * 4 + v1 / 16, (v1 % 16) * 16 + v2 / 4]
        else
          var v3: int := x[3];
          [v0 * 4 + v1 / 16, (v1 % 16) * 16 + v2 / 4, (v2 % 4) * 64 + v3] + Bytes(x[4..])
  }

  /** The number of 6-bit values that `n` bytes make. */
  function SextetCount(n: nat): nat
  {
    n / 3 * 4 + (if n % 3 == 0 then 0 else n % 3 + 1)
  }

  /** Every byte contributes its bits, with the last group padded to whole values. */
  lemma {:induction false} SextetsLength(b: seq<Byte>)
    ensures |Sextets(b)| == SextetCount(|b|)
    decreases |b|
  {
    if |b| >= 3 {
      SextetsLength(b[3..]);
    }
  }

  /** The bit arithmetic of one block: three bytes split into four 6-bit values and rejoined. */
  lemma Regroup(b0: int, b1: int, b2: int, v0: int, v1: int, v2: int, v3: int)
    requires 0 <= b0 < 256 && 0 <= b1 < 256 && 0 <= b2 < 256
    requires v0 == b0 / 4 && v1 == (b0 % 4) * 16 + b1 / 16
    requires v2 == (b1 % 16) * 4 + b2 / 64 && v3 == b2 % 64
    ensures v0 * 4 + v1 / 16 == b0
    ensures (v1 % 16) * 16 + v2 / 4 == b1
    ensures (v2 % 4) * 64 + v3 == b2
  {
    assert v1 / 16 == b0 % 4 && v1 % 16 == b1 / 16;
    assert v2 / 4 == b1 % 16 && v2 % 4 == b2 / 64;
  }

  /** A final lone byte survives the trip through its two 6-bit values. */
  lemma OneByteRoundTrip(b0: Byte)
    ensures Bytes(Sextets([b0])) == [b0]
  {
    var x := Sextets([b0]);
    assert x == [b0 / 4, (b0 % 4) * 16];
    var hi: int := b0 / 4;
    var lo: int := b0 % 4;
    assert lo * 16 / 16 == lo;
    assert hi * 4 + lo == b0;
    assert Bytes(x) == [hi * 4 + (lo * 16) / 16];
  }

  /** Two final bytes survive the trip through their three 6-bit values. */
  lemma TwoBytesRoundTrip(b0: Byte, b1: Byte)
    ensures Bytes(Sextets([b0, b1])) == [b0, b1]
  {
    var x := Sextets([b0, b1]);
    assert x == [b0 / 4, (b0 % 4) * 16 + b1 / 16, (b1 % 16) * 4];
    var v0: int, v1: int, v2: int := x[0], x[1], x[2];
    Regroup(b0, b1, 0, v0, v1, v2, 0);
    assert Bytes(x) == [v0 * 4 + v1 / 16, (v1 % 16) * 16 + v2 / 4];
  }

  /** The first block of three bytes becomes the first four 6-bit values. */
  lemma SextetsCons(b: seq<Byte>)
    requires |b| >= 3
    ensures Sextets(b) == [b[0] / 4, (b[0] % 4) * 16 + b[1] / 16, (b[1] % 16) * 4 + b[2] / 64, b[2] % 64] + Sextets(b[3..])
  {
  }

  /** Four 6-bit values made from three bytes become those three bytes again. */
  lemma BytesHead(x: seq<Sextet>, b0: Byte, b1: Byte, b2: Byte)
    requires |x| >= 4
    requires x[0] == b0 / 4 && x[1] == (b0 % 4) * 16 + b1 / 16
    requires x[2] == (b1 % 16) * 4 + b2 / 64 && x[3] == b2 % 64
    ensures Bytes(x) == [b0, b1, b2] + Bytes(x[4..])
  {
    var v0: int, v1: int, v2: int, v3: int := x[0], x[1], x[2], x[3];
    Regroup(b0, b1, b2, v0, v1, v2, v3);
    assert Bytes(x) == [v0 * 4 + v1 / 16, (v1 % 16) * 16 + v2 / 4, (v2 % 4) * 64 + v3] + Bytes(x[4..]);
  }

  lemma Take3(b: seq<Byte>)
    requires |b| >= 3
    ensures [b[0], b[1], b[2]] + b[3..] == b
  {
  }

  /** The inductive step of BytesSextets: one more leading block of three bytes. */
  lemma BlockStep(b: seq<Byte>)
    requires |b| >= 3 && Bytes(Sextets(b[3..])) == b[3..]
    ensures Bytes(Sextets(b)) == b
  {
    var x := Sextets(b);
    SextetsCons(b);
    assert x[4..] == Sextets(b[3..]);
    BytesHead(x, b[0], b[1], b[2]);
    Take3(b);
  }

  /** Regrouping 6-bit values into bytes inverts regrouping bytes into 6-bit values. */
  lemma {:induction false} BytesSextets(b: seq<Byte>)
    ensures Bytes(Sextets(b)) == b
    decreases |b|
  {
    if |b| == 1 {
      assert b == [b[0]];
      OneByteRoundTrip(b[0]);
    } else if |b| == 2 {
      assert b == [b[0], b[1]];
      TwoBytesRoundTrip(b[0], b[1]);
    } else if |b| >= 3 {
      BytesSextets(b[3..]);
      BlockStep(b);
    }
  }

  // ---------------------------------------------------------------------
  // Stage 2: 6-bit values and characters

  /** Each 6-bit value written as its alphabet character. */
  function Chars(x: seq<Sextet>): (s: string)
    ensures |s| == |x|
    ensures forall i :: 0 <= i < |s| ==> s[i] == CharOf(x[i])
  {
    seq(|x|, i requires 0 <= i < |x| => CharOf(x[i]))
  }

  /** Each alphabet character read as its 6-bit value. */
  function Values(s: string): (x: seq<Sextet>)
    requires forall i :: 0 <= i < |s| ==> IsAlphabetChar(s[i])
    ensures |x| == |s|
    ensures forall i :: 0 <= i < |s| ==> x[i] == ValueOf(s[i])
  {
    seq(|s|, i requires 0 <= i < |s| => ValueOf(s[i]))
  }

  /** Reading characters back gives the 6-bit values they were written from. */
  lemma ValuesChars(x: seq<Sextet>)
    ensures Values(Chars(x)) == x
  {
    forall i | 0 <= i < |x| ensures Values(Chars(x))[i] == x[i] {
      ValueOfCharOf(x[i]);
    }
  }

  // ---------------------------------------------------------------------
  // Encoding and decoding

  /** The padding that completes the last quantum of four characters. */
  function Padding(n: nat): string
  {
    if n % 3 == 1 then "==" else if n % 3 == 2 then "=" else ""
  }

  /** The base 64 text of a byte string (`Buffer.toString('base64')`). */
  function Encode(b: seq<Byte>): string
  {
    Chars(Sextets(b)) + Padding(|b|)
  }

  /** Every three bytes, and a final one or two, take four characters. */
  lemma EncodeLength(b: seq<Byte>)
    ensures |Encode(b)| == (|b| + 2) / 3 * 4
    ensures |Encode(b)| % 4 == 0
  {
    SextetsLength(b);
    var n := |b|;
    var q, r := n / 3, n % 3;
    assert n == 3 * q + r;
    assert (n + 2) / 3 == q + (if r == 0 then 0 else 1);
    assert |Encode(b)| == q * 4 + (if r == 0 then 0 else 4);
  }

  /** Base 64 text is alphabet characters followed by at most two '='. */
  lemma EncodeAlphabet(b: seq<Byte>)
    ensures forall i :: 0 <= i < |Encode(b)| ==>
      IsAlphabetChar(Encode(b)[i]) || (Encode(b)[i] == '=' && i >= |Encode(b)| - 2)
  {
    var x := Sextets(b);
    var pad := Padding(|b|);
    assert Encode(b) == Chars(x) + pad;
  }

  /** The number of '=' characters at the end of a text, at most two. */
  function PadCount(s: string): (p: nat)
    ensures p <= 2 && p <= |s|
  {
    if |s| >= 2 && s[|s| - 2] == '=' && s[|s| - 1] == '=' then 2
    else if |s| >= 1 && s[|s| - 1] == '=' then 1
    else 0
  }

  /**
   * The bytes of padded base 64 text (the browser's `atob`, with the
   * character codes of its result as bytes); None where `atob` throws:
   * a length that is not a multiple of four, or a character outside the
   * alphabet before the padding.
   */
  function Decode(s: string): Option<seq<Byte>>
  {
    if |s| % 4 != 0 then None
    else
      var body := s[..|s| - PadCount(s)];
      if forall i :: 0 <= i < |body| ==> IsAlphabetChar(body[i]) then Some(Bytes(Values(body)))
      else None
  }

  /** Padding after alphabet characters is counted exactly. */
  lemma PadCountAfterChars(x: seq<Sextet>, pad: string)
    requires pad == "" || pad == "=" || pad == "=="
    requires pad != "" ==> |x| >= 2
    ensures PadCount(Chars(x) + pad) == |pad|
  {
    var s := Chars(x) + pad;
    if |s| >= 1 && |pad| == 0 {
      assert s[|s| - 1] == CharOf(x[|x| - 1]);
    } else if |pad| == 1 {
      assert s[|s| - 2] == CharOf(x[|x| - 1]);
    }
  }

  /** Padding is needed exactly when the last group has one or two bytes, which make at least two values. */
  lemma PaddingNeedsValues(n: nat)
    ensures Padding(n) == "" || Padding(n) == "=" || Padding(n) == "=="
    ensures Padding(n) != "" ==> SextetCount(n) >= 2
  {
  }

  /** Dropping the counted padding leaves the characters in front of it. */
  lemma DropPadding(c: string, pad: string)
    requires PadCount(c + pad) == |pad|
    ensures (c + pad)[..|c + pad| - PadCount(c + pad)] == c
  {
  }

  /** Without its padding, the text of `b` is the characters of its 6-bit values. */
  lemma EncodeBody(b: seq<Byte>)
    ensures |Encode(b)| % 4 == 0
    ensures Encode(b)[..|Encode(b)| - PadCount(Encode(b))] == Chars(Sextets(b))
  {
    var x := Sextets(b);
    var pad := Padding(|b|);
    EncodeLength(b);
    SextetsLength(b);
    PaddingNeedsValues(|b|);
    PadCountAfterChars(x, pad);
    DropPadding(Chars(x), pad);
  }

  /** Decoding inverts encoding, for every byte string. */
  lemma DecodeEncode(b: seq<Byte>)
    ensures Decode(Encode(b)) == Some(b)
  {
    var x := Sextets(b);
    EncodeBody(b);
    ValuesChars(x);
    BytesSextets(b);
  }

  /** Base 64 text contains no comma (the data URL separator). */
  lemma EncodeHasNoComma(b: seq<Byte>)
    ensures ',' !in Encode(b)
  {
    EncodeAlphabet(b);
  }
}
