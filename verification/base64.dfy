/** The padded base64 encoding of RFC 4648 section 4, as produced by Python's
    `base64.b64encode`, together with a decoder for the same alphabet. */
module Base64 {
  import opened Wrappers

  type byte = x: int | 0 <= x < 256

  /** One base64 digit: a value below 64. */
  type sextet = x: int | 0 <= x < 64

  const PadChar: char := '='

  /** The base64 alphabet (table 1 of RFC 4648). */
  function CharOf(v: sextet): (c: char)
    ensures c != PadChar
  {
    if v < 26 then ('A' as int + v) as char
    else if v < 52 then ('a' as int + (v - 26)) as char
    else if v < 62 then ('0' as int + (v - 52)) as char
    else if v == 62 then '+'
    else '/'
  }

  /** The value of an alphabet character; `None` for any other character,
      the pad character included. */
  function IndexOf(c: char): (r: Option<sextet>)
    ensures r.Some? ==> CharOf(r.value) == c
  {
    if 'A' <= c <= 'Z' then Some(c as int - 'A' as int)
    else if 'a' <= c <= 'z' then Some(c as int - 'a' as int + 26)
    else if '0' <= c <= '9' then Some(c as int - '0' as int + 52)
    else if c == '+' then Some(62)
    else if c == '/' then Some(63)
    else None
  }

  lemma IndexOfCharOf(v: sextet)
    ensures IndexOf(CharOf(v)) == Some(v)
  {
  }

  /** A character the encoder may emit. */
  predicate IsEncodedChar(c: char) {
    IndexOf(c).Some? || c == PadChar
  }

  /** Three bytes become four digits, six bits each, most significant first. */
  function EncodeTriple(b0: byte, b1: byte, b2: byte): (q: string)
    ensures |q| == 4 && forall k :: 0 <= k < 4 ==> IndexOf(q[k]).Some?
  {
    var d0, d1, d2, d3 := b0 / 4, (b0 % 4) * 16 + b1 / 16, (b1 % 16) * 4 + b2 / 64, b2 % 64;
    assert IndexOf(CharOf(d0)).Some? && IndexOf(CharOf(d1)).Some? by {
      IndexOfCharOf(d0);
      IndexOfCharOf(d1);
    }
    assert IndexOf(CharOf(d2)).Some? && IndexOf(CharOf(d3)).Some? by {
      IndexOfCharOf(d2);
      IndexOfCharOf(d3);
    }
    [CharOf(d0), CharOf(d1), CharOf(d2), CharOf(d3)]
  }

  /** A final group of two bytes: three digits, the last zero-filled, and `=`. */
  function EncodePair(b0: byte, b1: byte): (q: string)
    ensures |q| == 4 && forall k :: 0 <= k < 4 ==> IsEncodedChar(q[k])
  {
    var d0, d1, d2 := b0 / 4, (b0 % 4) * 16 + b1 / 16, (b1 % 16) * 4;
    assert IndexOf(CharOf(d0)).Some? && IndexOf(CharOf(d1)).Some? && IndexOf(CharOf(d2)).Some? by {
      IndexOfCharOf(d0);
      IndexOfCharOf(d1);
      IndexOfCharOf(d2);
    }
    [CharOf(d0), CharOf(d1), CharOf(d2), PadChar]
  }

  /** A final single byte: two digits, the second zero-filled, and `==`. */
  function EncodeSingle(b0: byte): (q: string)
    ensures |q| == 4 && forall k :: 0 <= k < 4 ==> IsEncodedChar(q[k])
  {
    var d0, d1 := b0 / 4, (b0 % 4) * 16;
    assert IndexOf(CharOf(d0)).Some? && IndexOf(CharOf(d1)).Some? by {
      IndexOfCharOf(d0);
      IndexOfCharOf(d1);
    }
    [CharOf(d0), CharOf(d1), PadChar, PadChar]
  }

  /** Python's `base64.b64encode(data).decode('utf-8')`: a final group of one or
      two bytes is zero-filled and padded with `=` to a full quadruple. */
  function Encode(data: seq<byte>): (s: string)
    ensures |s| == 4 * ((|data| + 2) / 3)
    ensures forall k :: 0 <= k < |s| ==> IsEncodedChar(s[k])
    decreases |data|
  {
    if |data| == 0 then []
    else if |data| == 1 then EncodeSingle(data[0])
    else if |data| == 2 then EncodePair(data[0], data[1])
    else
      var head := EncodeTriple(data[0], data[1], data[2]);
      var tail := Encode(data[3..]);
      assert (|data| + 2) / 3 == 1 + (|data[3..]| + 2) / 3;
      var s := head + tail;
      assert forall k :: 0 <= k < |s| ==> s[k] == if k < 4 then head[k] else tail[k - 4];
      s
  }

  /** Decodes one quadruple. Padding yields fewer than three bytes, so only
      the last quadruple of an encoding may produce fewer than three. A padded
      quadruple whose unused low bits are not zero is rejected, as section 3.5
      of RFC 4648 allows, so that every byte string has exactly one encoding. */
  function DecodeQuad(q: string): (r: Option<seq<byte>>)
    requires |q| == 4
    ensures r.Some? ==> 1 <= |r.value| <= 3
  {
    match (IndexOf(q[0]), IndexOf(q[1]))
    case (Some(d0), Some(d1)) =>
      var first: byte := d0 * 4 + d1 / 16;
      if q[2] == PadChar && q[3] == PadChar then
        if d1 % 16 == 0 then Some([first]) else None
      else (
        match IndexOf(q[2])
        case None => None
        case Some(d2) =>
          var second: byte := (d1 % 16) * 16 + d2 / 4;
          if q[3] == PadChar then
            if d2 % 4 == 0 then Some([first, second]) else None
          else (
            match IndexOf(q[3])
            case None => None
            case Some(d3) => Some([first, second, (d2 % 4) * 64 + d3])
          )
      )
    case _ => None
  }

  /** Decodes a padded base64 string; `None` when it is not a sequence of
      quadruples over the alphabet with padding only at the end. */
  function Decode(s: string): (r: Option<seq<byte>>)
    decreases |s|
  {
    if |s| == 0 then Some([])
    else if |s| < 4 then None
    else if |s| == 4 then DecodeQuad(s)
    else
      match DecodeQuad(s[..4])
      case Some(head) =>
        if |head| < 3 then None
        else (
          match Decode(s[4..])
          case Some(tail) => Some(head + tail)
          case None => None
        )
      case None => None
  }

  lemma TripleRoundTrip(b0: byte, b1: byte, b2: byte)
    ensures DecodeQuad(EncodeTriple(b0, b1, b2)) == Some([b0, b1, b2])
  {
    var q := EncodeTriple(b0, b1, b2);
    var d0, d1, d2, d3 := b0 / 4, (b0 % 4) * 16 + b1 / 16, (b1 % 16) * 4 + b2 / 64, b2 % 64;
    IndexOfCharOf(d0);
    IndexOfCharOf(d1);
    IndexOfCharOf(d2);
    IndexOfCharOf(d3);
    assert IndexOf(q[0]) == Some(d0) && IndexOf(q[1]) == Some(d1);
    assert IndexOf(q[2]) == Some(d2) && IndexOf(q[3]) == Some(d3);
    assert q[2] != PadChar && q[3] != PadChar;
    TripleDigits(b0, b1, b2);
  }

  /** The bit arithmetic behind a full quadruple: the four digits put back
      together give the three bytes. */
  lemma TripleDigits(b0: byte, b1: byte, b2: byte)
    ensures (b0 / 4) * 4 + ((b0 % 4) * 16 + b1 / 16) / 16 == b0
    ensures (((b0 % 4) * 16 + b1 / 16) % 16) * 16 + ((b1 % 16) * 4 + b2 / 64) / 4 == b1
    ensures (((b1 % 16) * 4 + b2 / 64) % 4) * 64 + b2 % 64 == b2
  {
    assert ((b0 % 4) * 16 + b1 / 16) / 16 == b0 % 4;
    assert ((b0 % 4) * 16 + b1 / 16) % 16 == b1 / 16;
    assert ((b1 % 16) * 4 + b2 / 64) / 4 == b1 % 16;
    assert ((b1 % 16) * 4 + b2 / 64) % 4 == b2 / 64;
  }

  /** A single trailing byte is encoded as two digits and `==`. */
  lemma SingleRoundTrip(b0: byte)
    ensures Decode(Encode([b0])) == Some([b0])
  {
    IndexOfCharOf(b0 / 4);
    IndexOfCharOf((b0 % 4) * 16);
    var q := Encode([b0]);
    assert |q| == 4;
    assert IndexOf(q[0]) == Some(b0 / 4);
    assert IndexOf(q[1]) == Some((b0 % 4) * 16);
    assert (b0 / 4) * 4 + ((b0 % 4) * 16) / 16 == b0;
  }

  /** Two trailing bytes are encoded as three digits and `=`. */
  lemma PairRoundTrip(b0: byte, b1: byte)
    ensures Decode(Encode([b0, b1])) == Some([b0, b1])
  {
    IndexOfCharOf(b0 / 4);
    IndexOfCharOf((b0 % 4) * 16 + b1 / 16);
    IndexOfCharOf((b1 % 16) * 4);
    var q := Encode([b0, b1]);
    assert |q| == 4;
    assert IndexOf(q[0]) == Some(b0 / 4);
    assert IndexOf(q[1]) == Some((b0 % 4) * 16 + b1 / 16);
    assert IndexOf(q[2]) == Some((b1 % 16) * 4);
  }

  /** Decoding an encoding gives back the original bytes. */
  lemma {:induction false} RoundTrip(data: seq<byte>)
    ensures Decode(Encode(data)) == Some(data)
    decreases |data|
  {
    if |data| == 0 {
    } else if |data| == 1 {
      assert data == [data[0]];
      SingleRoundTrip(data[0]);
    } else if |data| == 2 {
      assert data == [data[0], data[1]];
      PairRoundTrip(data[0], data[1]);
    } else {
      var head := EncodeTriple(data[0], data[1], data[2]);
      var tail := Encode(data[3..]);
      var s := head + tail;
      assert Encode(data) == s;
      assert s[..4] == head;
      assert s[4..] == tail;
      TripleRoundTrip(data[0], data[1], data[2]);
      RoundTrip(data[3..]);
      assert [data[0], data[1], data[2]] + data[3..] == data;
      if |data| == 3 {
        assert tail == [];
        assert s == head;
        assert data == [data[0], data[1], data[2]];
      } else {
        assert |s| > 4;
        assert Decode(s) == Some([data[0], data[1], data[2]] + data[3..]);
      }
    }
  }

  /** The bit arithmetic behind decoding: the bytes rebuilt from four digits
      split back into the same digits. */
  lemma QuadDigits(d0: sextet, d1: sextet, d2: sextet, d3: sextet)
    ensures (d0 * 4 + d1 / 16) / 4 == d0
    ensures ((d0 * 4 + d1 / 16) % 4) * 16 + ((d1 % 16) * 16 + d2 / 4) / 16 == d1
    ensures (((d1 % 16) * 16 + d2 / 4) % 16) * 4 + ((d2 % 4) * 64 + d3) / 64 == d2
    ensures ((d2 % 4) * 64 + d3) % 64 == d3
    ensures d1 % 16 == 0 ==> ((d0 * 4 + d1 / 16) % 4) * 16 == d1
    ensures d2 % 4 == 0 ==> (((d1 % 16) * 16 + d2 / 4) % 16) * 4 == d2
  {
    assert (d0 * 4 + d1 / 16) % 4 == d1 / 16;
    assert ((d1 % 16) * 16 + d2 / 4) / 16 == d1 % 16;
    assert ((d1 % 16) * 16 + d2 / 4) % 16 == d2 / 4;
    assert ((d2 % 4) * 64 + d3) / 64 == d2 % 4;
  }

  /** A quadruple that decodes is the encoding of the bytes it decodes to. */
  lemma DecodeQuadCanonical(q: string)
    requires |q| == 4 && DecodeQuad(q).Some?
    ensures var b := DecodeQuad(q).value;
      (|b| == 1 ==> EncodeSingle(b[0]) == q)
      && (|b| == 2 ==> EncodePair(b[0], b[1]) == q)
      && (|b| == 3 ==> EncodeTriple(b[0], b[1], b[2]) == q)
  {
    DecodeQuadDigits(q);
    var d0, d1 := IndexOf(q[0]).value, IndexOf(q[1]).value;
    if q[2] == PadChar && q[3] == PadChar {
      SingleCanonical(q, d0, d1);
    } else if q[3] == PadChar {
      PairCanonical(q, d0, d1, IndexOf(q[2]).value);
    } else {
      TripleCanonical(q, d0, d1, IndexOf(q[2]).value, IndexOf(q[3]).value);
    }
  }

  /** What a successful decoding tells about the four characters: each is a
      digit or padding in its place, and the bits padding leaves unused are zero. */
  lemma DecodeQuadDigits(q: string)
    requires |q| == 4 && DecodeQuad(q).Some?
    ensures IndexOf(q[0]).Some? && IndexOf(q[1]).Some?
    ensures q[2] == PadChar && q[3] == PadChar ==> IndexOf(q[1]).value % 16 == 0
    ensures q[3] == PadChar && q[2] != PadChar ==> IndexOf(q[2]).Some? && IndexOf(q[2]).value % 4 == 0
    ensures q[3] != PadChar ==> q[2] != PadChar && IndexOf(q[2]).Some? && IndexOf(q[3]).Some?
  {
  }

  lemma SingleCanonical(q: string, d0: sextet, d1: sextet)
    requires |q| == 4 && q[2] == PadChar && q[3] == PadChar
    requires IndexOf(q[0]) == Some(d0) && IndexOf(q[1]) == Some(d1) && d1 % 16 == 0
    ensures |DecodeQuad(q).value| == 1 && EncodeSingle(DecodeQuad(q).value[0]) == q
  {
    QuadDigits(d0, d1, 0, 0);
    assert DecodeQuad(q) == Some([d0 * 4 + d1 / 16]);
    var e := EncodeSingle(d0 * 4 + d1 / 16);
    assert e[0] == q[0] && e[1] == q[1];
  }

  lemma PairCanonical(q: string, d0: sextet, d1: sextet, d2: sextet)
    requires |q| == 4 && q[2] != PadChar && q[3] == PadChar
    requires IndexOf(q[0]) == Some(d0) && IndexOf(q[1]) == Some(d1) && IndexOf(q[2]) == Some(d2) && d2 % 4 == 0
    ensures |DecodeQuad(q).value| == 2 && EncodePair(DecodeQuad(q).value[0], DecodeQuad(q).value[1]) == q
  {
    QuadDigits(d0, d1, d2, 0);
    assert DecodeQuad(q) == Some([d0 * 4 + d1 / 16, (d1 % 16) * 16 + d2 / 4]);
    var e := EncodePair(d0 * 4 + d1 / 16, (d1 % 16) * 16 + d2 / 4);
    assert e[0] == q[0] && e[1] == q[1] && e[2] == q[2];
  }

  lemma TripleCanonical(q: string, d0: sextet, d1: sextet, d2: sextet, d3: sextet)
    requires |q| == 4 && q[2] != PadChar && q[3] != PadChar
    requires IndexOf(q[0]) == Some(d0) && IndexOf(q[1]) == Some(d1)
    requires IndexOf(q[2]) == Some(d2) && IndexOf(q[3]) == Some(d3)
    ensures |DecodeQuad(q).value| == 3
    ensures EncodeTriple(DecodeQuad(q).value[0], DecodeQuad(q).value[1], DecodeQuad(q).value[2]) == q
  {
    var b0, b1, b2 := d0 * 4 + d1 / 16, (d1 % 16) * 16 + d2 / 4, (d2 % 4) * 64 + d3;
    assert DecodeQuad(q) == Some([b0, b1, b2]);
    TripleEncodes(q, d0, d1, d2, d3);
  }

  lemma TripleEncodes(q: string, d0: sextet, d1: sextet, d2: sextet, d3: sextet)
    requires |q| == 4
    requires IndexOf(q[0]) == Some(d0) && IndexOf(q[1]) == Some(d1)
    requires IndexOf(q[2]) == Some(d2) && IndexOf(q[3]) == Some(d3)
    ensures EncodeTriple(d0 * 4 + d1 / 16, (d1 % 16) * 16 + d2 / 4, (d2 % 4) * 64 + d3) == q
  {
    QuadDigits(d0, d1, d2, d3);
    var e := EncodeTriple(d0 * 4 + d1 / 16, (d1 % 16) * 16 + d2 / 4, (d2 % 4) * 64 + d3);
    assert e[0] == q[0] && e[1] == q[1] && e[2] == q[2] && e[3] == q[3];
  }

  /** Encoding is the only way to reach a byte string: whatever decodes to
      `d` is `Encode(d)`, so `Encode` is the canonical encoding. */
  lemma {:induction false} EncodeOfDecode(s: string, d: seq<byte>)
    requires Decode(s) == Some(d)
    ensures Encode(d) == s
    decreases |s|
  {
    if |s| == 4 {
      DecodeQuadCanonical(s);
      if |d| == 3 {
        assert d[3..] == [];
      }
    } else if |s| > 4 {
      var head, tail := DecodeQuad(s[..4]).value, Decode(s[4..]).value;
      assert d == head + tail;
      DecodeQuadCanonical(s[..4]);
      EncodeOfDecode(s[4..], tail);
      assert |d| > 3 && d[3..] == tail;
      assert Encode(d) == EncodeTriple(d[0], d[1], d[2]) + Encode(d[3..]);
      assert s == s[..4] + s[4..];
    }
  }
}
