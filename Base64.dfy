/**
 * The base64 helpers of TP2/common/serialization.py: base64 with the standard
 * alphabet and `=` padding, as section 4 of RFC 4648 defines it, with Python's
 * `None` passed through unchanged.
 */
module Base64 {
  import opened Wrappers
  import Protocol

  type byte = Protocol.byte
  type sextet = x: int | 0 <= x < 64

  /** The character that stands for a 6-bit group (table 1 of RFC 4648). */
  function IndexChar(i: sextet): (c: char)
  {
    if i < 26 then ('A' as int + i) as char
    else if i < 52 then ('a' as int + (i - 26)) as char
    else if i < 62 then ('0' as int + (i - 52)) as char
    else if i == 62 then '+'
    else '/'
  }

  predicate IsAlphabetChar(c: char) {
    ('A' <= c <= 'Z') || ('a' <= c <= 'z') || ('0' <= c <= '9') || c == '+' || c == '/'
  }

  /** The 6-bit group a character of the alphabet stands for. */
  function CharIndex(c: char): (i: sextet)
    requires IsAlphabetChar(c)
  {
    if 'A' <= c <= 'Z' then c as int - 'A' as int
    else if 'a' <= c <= 'z' then c as int - 'a' as int + 26
    else if '0' <= c <= '9' then c as int - '0' as int + 52
    else if c == '+' then 62
    else 63
  }

  lemma IndexCharInverse(i: sextet)
    ensures IsAlphabetChar(IndexChar(i)) && CharIndex(IndexChar(i)) == i
  {
  }

  /** Three bytes become four characters, most significant bits first. */
  function EncodeTriple(b0: byte, b1: byte, b2: byte): (q: string)
  {
    [IndexChar(b0 / 4), IndexChar((b0 % 4) * 16 + b1 / 16), IndexChar((b1 % 16) * 4 + b2 / 64), IndexChar(b2 % 64)]
  }

  /** `base64.b64encode(data)`. */
  function Encode(data: seq<byte>): (r: string)
    decreases |data|
  {
    if |data| == 0 then ""
    else if |data| == 1 then [IndexChar(data[0] / 4), IndexChar((data[0] % 4) * 16), '=', '=']
    else if |data| == 2 then
      [IndexChar(data[0] / 4), IndexChar((data[0] % 4) * 16 + data[1] / 16), IndexChar((data[1] % 16) * 4), '=']
    else EncodeTriple(data[0], data[1], data[2]) + Encode(data[3..])
  }

  /** Four alphabet characters back to three bytes. */
  function DecodeQuad(q: string): (r: Option<seq<byte>>)
    requires |q| == 4
    ensures r.Some? ==> |r.value| == 3
  {
    if IsAlphabetChar(q[0]) && IsAlphabetChar(q[1]) && IsAlphabetChar(q[2]) && IsAlphabetChar(q[3]) then
      var c0, c1, c2, c3 := CharIndex(q[0]), CharIndex(q[1]), CharIndex(q[2]), CharIndex(q[3]);
      Some([c0 * 4 + c1 / 16, (c1 % 16) * 16 + c2 / 4, (c2 % 4) * 64 + c3])
    else None
  }

  /** The last quantum, which may end in one or two `=`; bits past the last whole byte are dropped. */
  function DecodeLastQuad(q: string): (r: Option<seq<byte>>)
    requires |q| == 4
    ensures r.Some? ==> 1 <= |r.value| <= 3
  {
    if q[2] == '=' && q[3] == '=' then
      if IsAlphabetChar(q[0]) && IsAlphabetChar(q[1]) then
        Some([CharIndex(q[0]) * 4 + CharIndex(q[1]) / 16])
      else None
    else if q[3] == '=' then
      if IsAlphabetChar(q[0]) && IsAlphabetChar(q[1]) && IsAlphabetChar(q[2]) then
        var c0, c1, c2 := CharIndex(q[0]), CharIndex(q[1]), CharIndex(q[2]);
        Some([c0 * 4 + c1 / 16, (c1 % 16) * 16 + c2 / 4])
      else None
    else DecodeQuad(q)
  }

  /**
   * Strict decoding of canonical text: whole quanta of alphabet characters,
   * padding only at the very end. `None` for anything else: a length that is
   * not a multiple of four, padding before the last quantum, a character
   * outside the alphabet. This agrees with `base64.b64decode(text)` on
   * canonical text only; the non-validating decoder Python uses also accepts
   * some of the text refused here (see `Base64ToBytes`).
   */
  function Decode(text: string): (r: Option<seq<byte>>)
    decreases |text|
  {
    if |text| == 0 then Some([])
    else if |text| < 4 then None
    else if |text| == 4 then DecodeLastQuad(text)
    else
      match DecodeQuad(text[..4])
      case None => None
      case Some(head) =>
        match Decode(text[4..])
        case None => None
        case Some(tail) => Some(head + tail)
  }

  lemma {:induction false} EncodeLength(data: seq<byte>)
    ensures |Encode(data)| == 4 * ((|data| + 2) / 3)
    decreases |data|
  {
    var n := |data|;
    if n > 2 {
      EncodeLength(data[3..]);
      assert |Encode(data)| == 4 + |Encode(data[3..])|;
      assert (n + 2) / 3 == (n - 1) / 3 + 1;
    }
  }

  /** The four characters of a full quantum are all in the alphabet. */
  lemma EncodeTripleAlphabet(b0: byte, b1: byte, b2: byte)
    ensures forall i | 0 <= i < 4 :: IsAlphabetChar(EncodeTriple(b0, b1, b2)[i])
  {
    IndexCharInverse(b0 / 4);
    IndexCharInverse((b0 % 4) * 16 + b1 / 16);
    IndexCharInverse((b1 % 16) * 4 + b2 / 64);
    IndexCharInverse(b2 % 64);
  }

  /** An encoding of three or more bytes is a full quantum followed by the encoding of the rest. */
  lemma EncodeCons(data: seq<byte>)
    requires |data| > 2
    ensures Encode(data) == EncodeTriple(data[0], data[1], data[2]) + Encode(data[3..])
  {
  }

  /** Every character of an encoding is in the alphabet or is the pad `=`, and `=` only closes the text. */
  lemma {:induction false} EncodeAlphabet(data: seq<byte>)
    ensures forall i :: 0 <= i < |Encode(data)| ==> IsAlphabetChar(Encode(data)[i]) || Encode(data)[i] == '='
    ensures forall i :: 0 <= i < |Encode(data)| && Encode(data)[i] == '=' ==> |Encode(data)| - 2 <= i
    decreases |data|
  {
    if |data| > 2 {
      var rest := Encode(data[3..]);
      EncodeAlphabet(data[3..]);
      var t := EncodeTriple(data[0], data[1], data[2]);
      EncodeTripleAlphabet(data[0], data[1], data[2]);
      EncodeCons(data);
      var r := t + rest;
      forall i | 0 <= i < |r|
        ensures IsAlphabetChar(r[i]) || r[i] == '='
        ensures r[i] == '=' ==> |r| - 2 <= i
      {
        if 4 <= i {
          assert r[i] == rest[i - 4];
        }
      }
    } else {
      forall i: sextet ensures IsAlphabetChar(IndexChar(i)) {
        IndexCharInverse(i);
      }
    }
  }

  /** Splitting a value packed as `hi * 16 + lo` with `lo < 16`. */
  lemma Unpack16(hi: int, lo: int)
    requires 0 <= lo < 16
    ensures (hi * 16 + lo) / 16 == hi && (hi * 16 + lo) % 16 == lo
  {
  }

  /** Splitting a value packed as `hi * 4 + lo` with `lo < 4`. */
  lemma Unpack4(hi: int, lo: int)
    requires 0 <= lo < 4
    ensures (hi * 4 + lo) / 4 == hi && (hi * 4 + lo) % 4 == lo
  {
  }

  lemma DecodeEncodeTriple(b0: byte, b1: byte, b2: byte)
    ensures DecodeQuad(EncodeTriple(b0, b1, b2)) == Some([b0, b1, b2])
  {
    var c0, c1, c2, c3 := b0 / 4, (b0 % 4) * 16 + b1 / 16, (b1 % 16) * 4 + b2 / 64, b2 % 64;
    Unpack16(b0 % 4, b1 / 16);
    Unpack4(b1 % 16, b2 / 64);
    IndexCharInverse(c0);
    IndexCharInverse(c1);
    IndexCharInverse(c2);
    IndexCharInverse(c3);
    var q := EncodeTriple(b0, b1, b2);
    assert q == [IndexChar(c0), IndexChar(c1), IndexChar(c2), IndexChar(c3)];
    assert c0 * 4 + c1 / 16 == b0;
    assert (c1 % 16) * 16 + c2 / 4 == b1;
    assert (c2 % 4) * 64 + c3 == b2;
  }

  /** A text of one quantum ending in `==` decodes to one byte. */
  lemma DecodePadTwo(q: string)
    requires |q| == 4 && IsAlphabetChar(q[0]) && IsAlphabetChar(q[1]) && q[2] == '=' && q[3] == '='
    ensures Decode(q) == Some([CharIndex(q[0]) * 4 + CharIndex(q[1]) / 16])
  {
  }

  /** A text of one quantum ending in a single `=` decodes to two bytes. */
  lemma DecodePadOne(q: string)
    requires |q| == 4 && IsAlphabetChar(q[0]) && IsAlphabetChar(q[1]) && IsAlphabetChar(q[2]) && q[3] == '='
    ensures Decode(q) == Some([CharIndex(q[0]) * 4 + CharIndex(q[1]) / 16, (CharIndex(q[1]) % 16) * 16 + CharIndex(q[2]) / 4])
  {
    assert q[2] != '=';
  }

  /** A text of one unpadded quantum decodes as a full quantum. */
  lemma DecodeUnpadded(q: string)
    requires |q| == 4 && IsAlphabetChar(q[3])
    ensures Decode(q) == DecodeQuad(q)
  {
    assert q[3] != '=';
  }

  lemma DecodeEncodeOne(b0: byte)
    ensures Decode(Encode([b0])) == Some([b0])
  {
    var c0, c1 := b0 / 4, (b0 % 4) * 16;
    Unpack16(b0 % 4, 0);
    IndexCharInverse(c0);
    IndexCharInverse(c1);
    var q := [IndexChar(c0), IndexChar(c1), '=', '='];
    assert Encode([b0]) == q;
    DecodePadTwo(q);
    assert c0 * 4 + c1 / 16 == b0;
  }

  lemma DecodeEncodeTwo(b0: byte, b1: byte)
    ensures Decode(Encode([b0, b1])) == Some([b0, b1])
  {
    var c0, c1, c2 := b0 / 4, (b0 % 4) * 16 + b1 / 16, (b1 % 16) * 4;
    Unpack16(b0 % 4, b1 / 16);
    Unpack4(b1 % 16, 0);
    IndexCharInverse(c0);
    IndexCharInverse(c1);
    IndexCharInverse(c2);
    var q := [IndexChar(c0), IndexChar(c1), IndexChar(c2), '='];
    assert Encode([b0, b1]) == q;
    DecodePadOne(q);
    assert c0 * 4 + c1 / 16 == b0;
    assert (c1 % 16) * 16 + c2 / 4 == b1;
  }

  /** Decoding a full quantum followed by more text decodes the two parts separately. */
  lemma DecodeFullQuantum(q: string, rest: string, head: seq<byte>, tail: seq<byte>)
    requires |q| == 4 && |rest| > 0
    requires DecodeQuad(q) == Some(head) && Decode(rest) == Some(tail)
    ensures Decode(q + rest) == Some(head + tail)
  {
    assert (q + rest)[..4] == q;
    assert (q + rest)[4..] == rest;
  }

  lemma DecodeEncodeThree(data: seq<byte>)
    requires |data| == 3
    ensures Decode(Encode(data)) == Some(data)
  {
    var t := EncodeTriple(data[0], data[1], data[2]);
    DecodeEncodeTriple(data[0], data[1], data[2]);
    EncodeCons(data);
    assert Encode(data[3..]) == "";
    assert Encode(data) == t;
    EncodeTripleAlphabet(data[0], data[1], data[2]);
    DecodeUnpadded(t);
    assert data == [data[0], data[1], data[2]];
  }

  /** The encoding of a non-empty byte string is not empty. */
  lemma EncodeNonEmpty(data: seq<byte>)
    requires |data| > 0
    ensures |Encode(data)| >= 4
  {
  }

  lemma SplitThree(data: seq<byte>)
    requires |data| > 3
    ensures [data[0], data[1], data[2]] + data[3..] == data
  {
    assert ([data[0], data[1], data[2]] + data[3..])[..3] == data[..3];
  }

  /** One inductive step of the round trip: a full quantum in front of a string that round-trips. */
  lemma DecodeEncodeCons(data: seq<byte>)
    requires |data| > 3 && Decode(Encode(data[3..])) == Some(data[3..])
    ensures Decode(Encode(data)) == Some(data)
  {
    var t := EncodeTriple(data[0], data[1], data[2]);
    var rest := Encode(data[3..]);
    DecodeEncodeTriple(data[0], data[1], data[2]);
    EncodeNonEmpty(data[3..]);
    EncodeCons(data);
    SplitThree(data);
    DecodeFullQuantum(t, rest, [data[0], data[1], data[2]], data[3..]);
  }

  /** `b64decode(b64encode(d)) == d` for every byte string `d`. */
  lemma {:induction false} DecodeEncode(data: seq<byte>)
    ensures Decode(Encode(data)) == Some(data)
    decreases |data|
  {
    if |data| == 1 {
      DecodeEncodeOne(data[0]);
      assert data == [data[0]];
    } else if |data| == 2 {
      DecodeEncodeTwo(data[0], data[1]);
      assert data == [data[0], data[1]];
    } else if |data| == 3 {
      DecodeEncodeThree(data);
    } else if |data| > 3 {
      DecodeEncode(data[3..]);
      DecodeEncodeCons(data);
    }
  }

  /** `bytes_to_base64`: `None` stays `None`, bytes become their base64 text. */
  function BytesToBase64(data: Option<seq<byte>>): (r: Option<string>)
    ensures data.None? <==> r.None?
    ensures r.Some? ==> |r.value| == 4 * ((|data.value| + 2) / 3)
  {
    match data
    case None => None
    case Some(d) => EncodeLength(d); Some(Encode(d))
  }

  datatype DecodeError = IncorrectPadding

  /** `base64_to_bytes`: `None` stays `None`; text that does not decode raises. */
  function Base64ToBytes(data: Option<string>): (r: Result<Option<seq<byte>>, DecodeError>)
    ensures data.None? ==> r == Ok(None)
    ensures data.Some? && Decode(data.value).Some? ==> r == Ok(Some(Decode(data.value).value))
    ensures data.Some? && Decode(data.value).None? ==> r == Err(IncorrectPadding)
  {
    match data
    case None => Ok(None)
    case Some(text) =>
      match Decode(text)
      case None => Err(IncorrectPadding)
      case Some(d) => Ok(Some(d))
  }

  /** The two helpers invert each other, `None` included. */
  lemma SerializationRoundTrip(data: Option<seq<byte>>)
    ensures Base64ToBytes(BytesToBase64(data)) == Ok(data)
  {
    if data.Some? {
      DecodeEncode(data.value);
    }
  }
}
