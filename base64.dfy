/**
 * The base 64 encoding of section 4 of RFC 4648, as `base64.b64encode` produces it
 * (standard alphabet, '=' padding, no line breaks), together with a decoder that
 * undoes it.
 */
module Base64 {
  import opened Wrappers

  type Byte = x: int | 0 <= x < 256

  const Pad := '='

  /** The character for a 6-bit value, as in Table 1 of RFC 4648. */
  function Char(k: int): char
    requires 0 <= k < 64
  {
    if k < 26 then ('A' as int + k) as char
    else if k < 52 then ('a' as int + (k - 26)) as char
    else if k < 62 then ('0' as int + (k - 52)) as char
    else if k == 62 then '+'
    else '/'
  }

  /** The 6-bit value a character of the alphabet stands for. */
  function Index(c: char): (r: Option<int>)
    ensures r.Some? ==> 0 <= r.value < 64 && Char(r.value) == c
  {
    if 'A' <= c <= 'Z' then Some(c as int - 'A' as int)
    else if 'a' <= c <= 'z' then Some(c as int - 'a' as int + 26)
    else if '0' <= c <= '9' then Some(c as int - '0' as int + 52)
    else if c == '+' then Some(62)
    else if c == '/' then Some(63)
    else None
  }

  lemma IndexOfChar(k: int)
    requires 0 <= k < 64
    ensures Index(Char(k)) == Some(k)
  {
  }

  predicate InAlphabet(c: char) {
    Index(c).Some?
  }

  /** Three bytes become four characters. */
  function EncodeGroup(a: Byte, b: Byte, c: Byte): string {
    [Char(a / 4), Char(a % 4 * 16 + b / 16), Char(b % 16 * 4 + c / 64), Char(c % 64)]
  }

  /** A final single byte becomes two characters and two pads. */
  function EncodeOne(a: Byte): string {
    [Char(a / 4), Char(a % 4 * 16), Pad, Pad]
  }

  /** A final pair of bytes becomes three characters and one pad. */
  function EncodeTwo(a: Byte, b: Byte): string {
    [Char(a / 4), Char(a % 4 * 16 + b / 16), Char(b % 16 * 4), Pad]
  }

  function Encode(data: seq<Byte>): (s: string)
    ensures |s| == 4 * ((|data| + 2) / 3)
    ensures forall i :: 0 <= i < |s| ==> InAlphabet(s[i]) || s[i] == Pad
    decreases |data|
  {
    if |data| == 0 then ""
    else if |data| == 1 then EncodeOne(data[0])
    else if |data| == 2 then EncodeTwo(data[0], data[1])
    else EncodeGroup(data[0], data[1], data[2]) + Encode(data[3..])
  }

  /** Four alphabet characters back to three bytes. */
  function DecodeGroup(q: string): Option<seq<Byte>>
    requires |q| == 4
  {
    match (Index(q[0]), Index(q[1]), Index(q[2]), Index(q[3]))
    case (Some(i0), Some(i1), Some(i2), Some(i3)) =>
      Some([i0 * 4 + i1 / 16, i1 % 16 * 16 + i2 / 4, i2 % 4 * 64 + i3])
    case _ => None
  }

  /** The last quantum, which may carry one or two pads. */
  function DecodeFinal(q: string): Option<seq<Byte>>
    requires |q| == 4
  {
    if q[2] == Pad && q[3] == Pad then
      match (Index(q[0]), Index(q[1]))
      case (Some(i0), Some(i1)) => Some([i0 * 4 + i1 / 16])
      case _ => None
    else if q[3] == Pad then
      match (Index(q[0]), Index(q[1]), Index(q[2]))
      case (Some(i0), Some(i1), Some(i2)) => Some([i0 * 4 + i1 / 16, i1 % 16 * 16 + i2 / 4])
      case _ => None
    else DecodeGroup(q)
  }

  function Decode(s: string): Option<seq<Byte>>
    decreases |s|
  {
    if |s| == 0 then Some([])
    else if |s| < 4 then None
    else if |s| == 4 then DecodeFinal(s)
    else
      match (DecodeGroup(s[..4]), Decode(s[4..]))
      case (Some(head), Some(tail)) => Some(head + tail)
      case _ => None
  }

  /** The sextets of a byte triple recombine to the triple. */
  lemma SextetArithmetic(a: Byte, b: Byte, c: Byte)
    ensures a / 4 * 4 + (a % 4 * 16 + b / 16) / 16 == a
    ensures (a % 4 * 16 + b / 16) % 16 * 16 + (b % 16 * 4 + c / 64) / 4 == b
    ensures (b % 16 * 4 + c / 64) % 4 * 64 + c % 64 == c
  {
    assert b / 16 < 16 && c / 64 < 4;
    assert (a % 4 * 16 + b / 16) / 16 == a % 4;
    assert (a % 4 * 16 + b / 16) % 16 == b / 16;
    assert (b % 16 * 4 + c / 64) / 4 == b % 16;
    assert (b % 16 * 4 + c / 64) % 4 == c / 64;
  }

  lemma DecodeGroupOfEncodeGroup(a: Byte, b: Byte, c: Byte)
    ensures DecodeGroup(EncodeGroup(a, b, c)) == Some([a, b, c])
    ensures EncodeGroup(a, b, c)[3] != Pad
  {
    IndexOfChar(a / 4);
    IndexOfChar(a % 4 * 16 + b / 16);
    IndexOfChar(b % 16 * 4 + c / 64);
    IndexOfChar(c % 64);
    SextetArithmetic(a, b, c);
    var g := EncodeGroup(a, b, c);
    assert Index(g[3]).Some?;
  }

  lemma DecodeFinalOfEncodeOne(a: Byte)
    ensures DecodeFinal(EncodeOne(a)) == Some([a])
  {
    IndexOfChar(a / 4);
    IndexOfChar(a % 4 * 16);
    SextetArithmetic(a, 0, 0);
  }

  lemma DecodeFinalOfEncodeTwo(a: Byte, b: Byte)
    ensures DecodeFinal(EncodeTwo(a, b)) == Some([a, b])
  {
    IndexOfChar(a / 4);
    IndexOfChar(a % 4 * 16 + b / 16);
    IndexOfChar(b % 16 * 4);
    SextetArithmetic(a, b, 0);
    var q := EncodeTwo(a, b);
    assert Index(q[2]).Some?;
  }

  /** Decoding an encoding gives back the bytes. */
  lemma {:induction false} DecodeEncode(data: seq<Byte>)
    ensures Decode(Encode(data)) == Some(data)
    decreases |data|
  {
    if |data| == 1 {
      DecodeFinalOfEncodeOne(data[0]);
      assert data == [data[0]];
    } else if |data| == 2 {
      DecodeFinalOfEncodeTwo(data[0], data[1]);
      assert data == [data[0], data[1]];
    } else if |data| >= 3 {
      var g := EncodeGroup(data[0], data[1], data[2]);
      DecodeGroupOfEncodeGroup(data[0], data[1], data[2]);
      assert data[..3] == [data[0], data[1], data[2]];
      var rest := Encode(data[3..]);
      assert Encode(data) == g + rest;
      if |data| == 3 {
        assert |rest| == 0;
        assert Encode(data) == g;
        assert DecodeFinal(g) == DecodeGroup(g);
        assert data == data[..3];
      } else {
        DecodeEncode(data[3..]);
        assert (g + rest)[..4] == g;
        assert (g + rest)[4..] == rest;
        assert data == data[..3] + data[3..];
      }
    }
  }

  /** Different byte strings have different encodings. */
  lemma EncodeInjective(x: seq<Byte>, y: seq<Byte>)
    requires Encode(x) == Encode(y)
    ensures x == y
  {
    DecodeEncode(x);
    DecodeEncode(y);
  }
}
