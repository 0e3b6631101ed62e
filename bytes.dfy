/** Bytes, and the UTF-8 encoding Go uses when it converts a string to []byte. */
module Bytes {

  type byte = x: int | 0 <= x < 0x100

  /** The UTF-8 encoding of one Unicode scalar value (section 3 of RFC 3629). */
  function EncodeChar(c: char): (r: seq<byte>)
    ensures 1 <= |r| <= 4
    ensures c as int < 0x80 ==> r == [c as int]
    // the leading byte announces the length of the sequence ...
    ensures |r| == 1 <==> r[0] < 0x80
    ensures |r| == 2 <==> 0xC0 <= r[0] < 0xE0
    ensures |r| == 3 <==> 0xE0 <= r[0] < 0xF0
    ensures |r| == 4 <==> 0xF0 <= r[0] < 0xF8
    // ... and every following byte is a continuation byte
    ensures forall i :: 1 <= i < |r| ==> 0x80 <= r[i] < 0xC0
    // the shortest form is used ...
    ensures |r| == 2 <==> 0x80 <= c as int < 0x800
    ensures |r| == 3 <==> 0x800 <= c as int < 0x1_0000
    ensures |r| == 4 <==> 0x1_0000 <= c as int
    // ... and its payload bits, most significant first, are the code point
    ensures |r| == 2 ==> (r[0] as int - 0xC0) * 0x40 + (r[1] as int - 0x80) == c as int
    ensures |r| == 3 ==> (r[0] as int - 0xE0) * 0x1000 + (r[1] as int - 0x80) * 0x40 + (r[2] as int - 0x80) == c as int
    ensures |r| == 4 ==> (r[0] as int - 0xF0) * 0x4_0000 + (r[1] as int - 0x80) * 0x1000 + (r[2] as int - 0x80) * 0x40 + (r[3] as int - 0x80) == c as int
  {
    var n := c as int;
    SixBitDigits(n);
    if n < 0x80 then [n]
    else if n < 0x800 then [0xC0 + n / 0x40, 0x80 + n % 0x40]
    else if n < 0x1_0000 then [0xE0 + n / 0x1000, 0x80 + (n / 0x40) % 0x40, 0x80 + n % 0x40]
    else [0xF0 + n / 0x4_0000, 0x80 + (n / 0x1000) % 0x40, 0x80 + (n / 0x40) % 0x40, 0x80 + n % 0x40]
  }

  /** A natural number split into its low six bits and the rest, three times over. */
  lemma SixBitDigits(n: nat)
    ensures n == n / 0x40 * 0x40 + n % 0x40
    ensures n / 0x40 == n / 0x1000 * 0x40 + n / 0x40 % 0x40
    ensures n / 0x1000 == n / 0x4_0000 * 0x40 + n / 0x1000 % 0x40
  {
    assert n / 0x1000 == n / 0x40 / 0x40;
    assert n / 0x4_0000 == n / 0x1000 / 0x40;
  }

  /** `[]byte(s)`: the UTF-8 bytes of a string, character by character. */
  function Utf8(s: string): (r: seq<byte>)
    ensures |s| <= |r| <= 4 * |s|
  {
    if s == [] then [] else EncodeChar(s[0]) + Utf8(s[1..])
  }

  /** An ASCII string encodes to one byte per character, each byte being the character's code. */
  lemma {:induction false} Utf8Ascii(s: string)
    requires forall i :: 0 <= i < |s| ==> s[i] as int < 0x80
    ensures |Utf8(s)| == |s|
    ensures forall i :: 0 <= i < |s| ==> Utf8(s)[i] == s[i] as int
  {
    if s != [] {
      Utf8Ascii(s[1..]);
      assert Utf8(s) == [s[0] as int] + Utf8(s[1..]);
    }
  }

  /** Encoding commutes with concatenation, so `[]byte(a + b)` is `[]byte(a)` followed by `[]byte(b)`. */
  lemma {:induction false} Utf8Append(a: string, b: string)
    ensures Utf8(a + b) == Utf8(a) + Utf8(b)
    decreases |a|
  {
    if a == [] {
      assert a + b == b;
    } else {
      assert (a + b)[0] == a[0];
      assert (a + b)[1..] == a[1..] + b;
      Utf8Append(a[1..], b);
    }
  }
}
