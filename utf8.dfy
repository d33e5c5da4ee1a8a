/**
 * UTF-8 (RFC 3629), as `Buffer.from(text)` produces it for the credentials
 * of the token request. Each character is a Unicode scalar value and takes
 * one to four bytes; ASCII characters take one byte equal to their code,
 * and every byte of a longer sequence is at least 0x80.
 */
module Utf8 {
  import Base64

  type Byte = Base64.Byte

  /** The bytes of one character. */
  function EncodeChar(c: char): seq<Byte>
  {
    var n := c as int;
    if n < 0x80 then [n]
    else if n < 0x800 then [0xC0 + n / 64, 0x80 + n % 64]
    else if n < 0x10000 then [0xE0 + n / 4096, 0x80 + (n / 64) % 64, 0x80 + n % 64]
    else [0xF0 + n / 262144, 0x80 + (n / 4096) % 64, 0x80 + (n / 64) % 64, 0x80 + n % 64]
  }

  /** The bytes of a text: the bytes of its characters, in order. */
  function Encode(s: string): seq<Byte>
    decreases |s|
  {
    if s == [] then [] else EncodeChar(s[0]) + Encode(s[1..])
  }

  /** An ASCII character is its own single byte; any other character has only bytes of 0x80 and above. */
  lemma EncodeCharShape(c: char)
    ensures 1 <= |EncodeChar(c)| <= 4
    ensures c as int < 0x80 ==> EncodeChar(c) == [c as int]
    ensures c as int >= 0x80 ==> forall i :: 0 <= i < |EncodeChar(c)| ==> EncodeChar(c)[i] >= 0x80
  {
  }

  /** Encoding distributes over concatenation. */
  lemma {:induction false} EncodeAppend(a: string, b: string)
    ensures Encode(a + b) == Encode(a) + Encode(b)
    decreases |a|
  {
    if a == [] {
      assert a + b == b;
    } else {
      assert (a + b)[0] == a[0] && (a + b)[1..] == a[1..] + b;
      EncodeAppend(a[1..], b);
      assert EncodeChar(a[0]) + (Encode(a[1..]) + Encode(b)) == (EncodeChar(a[0]) + Encode(a[1..])) + Encode(b);
    }
  }

  /** An ASCII character of a text is the only source of its byte value in the encoding. */
  lemma {:induction false} EncodeAvoidsAscii(s: string, c: char)
    requires c as int < 0x80 && c !in s
    ensures c as int !in Encode(s)
    decreases |s|
  {
    if s != [] {
      EncodeCharShape(s[0]);
      EncodeAvoidsAscii(s[1..], c);
      assert c !in s[1..];
    }
  }
}
