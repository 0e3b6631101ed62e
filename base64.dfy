/** The standard base64 encoding of section 4 of RFC 4648 (Go's base64.StdEncoding),
    with the decoder that inverts it. */
module Base64 {
  import opened Wrappers
  import opened Bytes

  const Pad: char := '='

  /** The symbol for a 6-bit value: A-Z, a-z, 0-9, '+', '/'. */
  function Symbol(v: int): (c: char)
    requires 0 <= v < 64
    ensures c != Pad
  {
    if v < 26 then ('A' as int + v) as char
    else if v < 52 then ('a' as int + (v - 26)) as char
    else if v < 62 then ('0' as int + (v - 52)) as char
    else if v == 62 then '+'
    else '/'
  }

  /** The 6-bit value of a symbol of the alphabet; None for anything else, the pad included. */
  function Value(c: char): (r: Option<int>)
    ensures r.Some? ==> 0 <= r.value < 64 && Symbol(r.value) == c
    ensures c == Pad ==> r.None?
  {
    if 'A' <= c <= 'Z' then Some(c as int - 'A' as int)
    else if 'a' <= c <= 'z' then Some(c as int - 'a' as int + 26)
    else if '0' <= c <= '9' then Some(c as int - '0' as int + 52)
    else if c == '+' then Some(62)
    else if c == '/' then Some(63)
    else None
  }

  lemma ValueOfSymbol(v: int)
    requires 0 <= v < 64
    ensures Value(Symbol(v)) == Some(v)
  {
  }

  predicate IsEncodingChar(c: char) {
    Value(c).Some? || c == Pad
  }

  /** Three bytes become four symbols, six bits each, most significant first. */
  function EncodeGroup(b0: byte, b1: byte, b2: byte): (s: string)
  {
    [Symbol(b0 / 4), Symbol(b0 % 4 * 16 + b1 / 16), Symbol(b1 % 16 * 4 + b2 / 64), Symbol(b2 % 64)]
  }

  /** A final single byte: two symbols and two pad characters. */
  function EncodeLast1(b0: byte): (s: string)
  {
    [Symbol(b0 / 4), Symbol(b0 % 4 * 16), Pad, Pad]
  }

  /** A final pair of bytes: three symbols and one pad character. */
  function EncodeLast2(b0: byte, b1: byte): (s: string)
  {
    [Symbol(b0 / 4), Symbol(b0 % 4 * 16 + b1 / 16), Symbol(b1 % 16 * 4), Pad]
  }

  /** `EncodeToString`: whole groups, then a final group of one or two bytes padded with '='. */
  function Encode(b: seq<byte>): (s: string)
    ensures |s| == 4 * ((|b| + 2) / 3)
    ensures forall i :: 0 <= i < |s| ==> IsEncodingChar(s[i])
    ensures forall i :: 0 <= i < |s| - 2 ==> s[i] != Pad
    decreases |b|
  {
    if |b| == 0 then []
    else if |b| == 1 then EncodeLast1(b[0])
    else if |b| == 2 then EncodeLast2(b[0], b[1])
    else EncodeGroup(b[0], b[1], b[2]) + Encode(b[3..])
  }

  /** Four symbols without padding become three bytes. */
  function DecodeGroup(s: string): (r: Option<seq<byte>>)
    requires |s| == 4
    ensures r.Some? ==> |r.value| == 3
  {
    match (Value(s[0]), Value(s[1]), Value(s[2]), Value(s[3]))
    case (Some(v0), Some(v1), Some(v2), Some(v3)) =>
      Some([v0 * 4 + v1 / 16, v1 % 16 * 16 + v2 / 4, v2 % 4 * 64 + v3])
    case _ => None
  }

  /** The last four symbols, which may end in one or two pad characters. The bits of the
      last symbol that no byte uses must be zero (section 3.5 of RFC 4648). */
  function DecodeLast(s: string): (r: Option<seq<byte>>)
    requires |s| == 4
    ensures r.Some? ==> 1 <= |r.value| <= 3
  {
    if s[2] == Pad && s[3] == Pad then
      match (Value(s[0]), Value(s[1]))
      case (Some(v0), Some(v1)) => if v1 % 16 == 0 then Some([v0 * 4 + v1 / 16]) else None
      case _ => None
    else if s[3] == Pad then
      match (Value(s[0]), Value(s[1]), Value(s[2]))
      case (Some(v0), Some(v1), Some(v2)) =>
        if v2 % 4 == 0 then Some([v0 * 4 + v1 / 16, v1 % 16 * 16 + v2 / 4]) else None
      case _ => None
    else DecodeGroup(s)
  }

  /** Decoding: None for a length that is not a multiple of four, a foreign symbol,
      a pad character anywhere but the end, or non-zero pad bits. */
  function Decode(s: string): (r: Option<seq<byte>>)
    decreases |s|
  {
    if |s| == 0 then Some([])
    else if |s| < 4 then None
    else if |s| == 4 then DecodeLast(s)
    else
      match (DecodeGroup(s[..4]), Decode(s[4..]))
      case (Some(h), Some(t)) => Some(h + t)
      case _ => None
  }

  lemma GroupRoundTrip(b0: byte, b1: byte, b2: byte)
    ensures DecodeGroup(EncodeGroup(b0, b1, b2)) == Some([b0, b1, b2])
  {
    var v0, v1, v2, v3 := b0 / 4, b0 % 4 * 16 + b1 / 16, b1 % 16 * 4 + b2 / 64, b2 % 64;
    ValueOfSymbol(v0);
    ValueOfSymbol(v1);
    ValueOfSymbol(v2);
    ValueOfSymbol(v3);
    assert v1 / 16 == b0 % 4 && v1 % 16 == b1 / 16;
    assert v2 / 4 == b1 % 16 && v2 % 4 == b2 / 64;
  }

  lemma Last1RoundTrip(b0: byte)
    ensures Decode(EncodeLast1(b0)) == Some([b0])
  {
    ValueOfSymbol(b0 / 4);
    ValueOfSymbol(b0 % 4 * 16);
  }

  lemma Last2RoundTrip(b0: byte, b1: byte)
    ensures Decode(EncodeLast2(b0, b1)) == Some([b0, b1])
  {
    ValueOfSymbol(b0 / 4);
    ValueOfSymbol(b0 % 4 * 16 + b1 / 16);
    ValueOfSymbol(b1 % 16 * 4);
  }

  /** A full group followed by a non-empty encoding decodes group by group. */
  lemma DecodeAppend(head: string, tail: string)
    requires |head| == 4 && |tail| > 0
    ensures Decode(head + tail) == match (DecodeGroup(head), Decode(tail))
      case (Some(h), Some(t)) => Some(h + t)
      case _ => None
  {
  }

  /** Decoding undoes encoding, for every byte string. */
  lemma {:induction false} DecodeEncode(b: seq<byte>)
    ensures Decode(Encode(b)) == Some(b)
    decreases |b|
  {
    if |b| == 0 {
    } else if |b| == 1 {
      Last1RoundTrip(b[0]);
      assert b == [b[0]];
    } else if |b| == 2 {
      Last2RoundTrip(b[0], b[1]);
      assert b == [b[0], b[1]];
    } else {
      var head := EncodeGroup(b[0], b[1], b[2]);
      var tail := Encode(b[3..]);
      assert Encode(b) == head + tail;
      GroupRoundTrip(b[0], b[1], b[2]);
      assert b == [b[0], b[1], b[2]] + b[3..];
      if |tail| == 0 {
        assert |b| == 3 && b == [b[0], b[1], b[2]];
        assert head + tail == head;
        assert head[3] != Pad;
        assert Decode(head) == DecodeLast(head) == DecodeGroup(head);
      } else {
        DecodeEncode(b[3..]);
        DecodeAppend(head, tail);
      }
    }
  }

  /** A group that decodes is the encoding of the bytes it decodes to. */
  lemma GroupCanonical(s: string)
    requires |s| == 4 && DecodeGroup(s).Some?
    ensures var h := DecodeGroup(s).value; EncodeGroup(h[0], h[1], h[2]) == s
  {
    var v0, v1, v2, v3 := Value(s[0]).value, Value(s[1]).value, Value(s[2]).value, Value(s[3]).value;
    var h := DecodeGroup(s).value;
    assert h == [v0 * 4 + v1 / 16, v1 % 16 * 16 + v2 / 4, v2 % 4 * 64 + v3];
    assert h[0] / 4 == v0 && h[0] % 4 * 16 + h[1] / 16 == v1;
    assert h[1] % 16 * 4 + h[2] / 64 == v2 && h[2] % 64 == v3;
  }

  /** A final group that decodes is the encoding of the bytes it decodes to. */
  lemma LastCanonical(s: string)
    requires |s| == 4 && DecodeLast(s).Some?
    ensures Encode(DecodeLast(s).value) == s
  {
    var h := DecodeLast(s).value;
    if s[2] == Pad && s[3] == Pad {
      var v0, v1 := Value(s[0]).value, Value(s[1]).value;
      assert h == [v0 * 4 + v1 / 16];
      assert h[0] / 4 == v0 && h[0] % 4 * 16 == v1;
      assert Encode(h) == EncodeLast1(h[0]);
    } else if s[3] == Pad {
      var v0, v1, v2 := Value(s[0]).value, Value(s[1]).value, Value(s[2]).value;
      assert h == [v0 * 4 + v1 / 16, v1 % 16 * 16 + v2 / 4];
      assert h[0] / 4 == v0 && h[0] % 4 * 16 + h[1] / 16 == v1 && h[1] % 16 * 4 == v2;
      assert Encode(h) == EncodeLast2(h[0], h[1]);
    } else {
      GroupCanonical(s);
      assert Encode(h) == EncodeGroup(h[0], h[1], h[2]) + Encode(h[3..]);
    }
  }

  /** Every string that decodes is the encoding of what it decodes to: the encoding of
      a byte string is unique. */
  lemma {:induction false} EncodeDecode(s: string)
    requires Decode(s).Some?
    ensures Encode(Decode(s).value) == s
    decreases |s|
  {
    if |s| == 0 {
    } else if |s| == 4 {
      LastCanonical(s);
    } else {
      var h, t := DecodeGroup(s[..4]).value, Decode(s[4..]).value;
      GroupCanonical(s[..4]);
      EncodeDecode(s[4..]);
      var b := h + t;
      assert b[..3] == h && b[3..] == t;
      assert Encode(b) == EncodeGroup(b[0], b[1], b[2]) + Encode(b[3..]);
      assert s == s[..4] + s[4..];
    }
  }
}
