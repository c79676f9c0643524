/**
 * Base 64 encoding with the URL and filename safe alphabet and with padding
 * (section 5 of RFC 4648), as Go's `base64.URLEncoding` implements it.
 *
 * A Go string is a sequence of bytes; here a string stands for one when all
 * its characters are below 256 (`IsByteString`). The encoder reads any other
 * character modulo 256 so that it is total; the decoder only ever produces
 * byte strings. The decoder follows Go's default, non-strict mode: carriage
 * returns and line feeds are skipped anywhere, the input must then be whole
 * quanta of four characters, `=` may only pad the last quantum ("xx==" or
 * "xxx="), and unused low bits of the last sextet are ignored.
 */
module Base64 {
  import opened Wrappers

  predicate IsByteString(s: string) {
    forall i :: 0 <= i < |s| ==> s[i] as int < 256
  }

  function Byte(c: char): (b: int)
    ensures 0 <= b < 256
    ensures c as int < 256 ==> b == c as int
  {
    c as int % 256
  }

  /** The character of the URL-safe alphabet for a 6-bit value. */
  function EncodeSextet(d: int): (c: char)
    requires 0 <= d < 64
    ensures IsAlphabet(c)
  {
    if d < 26 then ('A' as int + d) as char
    else if d < 52 then ('a' as int + d - 26) as char
    else if d < 62 then ('0' as int + d - 52) as char
    else if d == 62 then '-'
    else '_'
  }

  predicate IsAlphabet(c: char) {
    ('A' <= c <= 'Z') || ('a' <= c <= 'z') || ('0' <= c <= '9') || c == '-' || c == '_'
  }

  /** The 6-bit value of an alphabet character; None for anything else. */
  function DecodeSextet(c: char): (r: Option<int>)
    ensures r.Some? <==> IsAlphabet(c)
    ensures r.Some? ==> 0 <= r.value < 64
  {
    if 'A' <= c <= 'Z' then Some(c as int - 'A' as int)
    else if 'a' <= c <= 'z' then Some(c as int - 'a' as int + 26)
    else if '0' <= c <= '9' then Some(c as int - '0' as int + 52)
    else if c == '-' then Some(62)
    else if c == '_' then Some(63)
    else None
  }

  lemma DecodeEncodeSextet(d: int)
    requires 0 <= d < 64
    ensures DecodeSextet(EncodeSextet(d)) == Some(d)
  {
  }

  function ByteChar(b: int): char
    requires 0 <= b < 256
  {
    b as char
  }

  /** Four alphabet characters for three bytes. */
  function EncodeQuantum(b0: int, b1: int, b2: int): (q: string)
    requires 0 <= b0 < 256 && 0 <= b1 < 256 && 0 <= b2 < 256
    ensures |q| == 4
  {
    [EncodeSextet(b0 / 4), EncodeSextet((b0 % 4) * 16 + b1 / 16),
     EncodeSextet((b1 % 16) * 4 + b2 / 64), EncodeSextet(b2 % 64)]
  }

  /** The last quantum for one remaining byte: two sextets and two pads. */
  function EncodeOne(b0: int): (q: string)
    requires 0 <= b0 < 256
    ensures |q| == 4 && q[2] == '=' && q[3] == '=' && IsAlphabet(q[0]) && IsAlphabet(q[1])
  {
    [EncodeSextet(b0 / 4), EncodeSextet((b0 % 4) * 16), '=', '=']
  }

  /** The last quantum for two remaining bytes: three sextets and one pad. */
  function EncodeTwo(b0: int, b1: int): (q: string)
    requires 0 <= b0 < 256 && 0 <= b1 < 256
    ensures |q| == 4 && q[2] != '=' && q[3] == '=' && IsAlphabet(q[0]) && IsAlphabet(q[1]) && IsAlphabet(q[2])
  {
    [EncodeSextet(b0 / 4), EncodeSextet((b0 % 4) * 16 + b1 / 16), EncodeSextet((b1 % 16) * 4), '=']
  }

  predicate IsEncodedChar(c: char) {
    IsAlphabet(c) || c == '='
  }

  /** Three more bytes cost four more characters. */
  lemma EncodedLengthStep(n: int)
    requires n >= 3
    ensures (n + 2) / 3 * 4 == (n - 3 + 2) / 3 * 4 + 4
  {
    assert (n + 2) / 3 == (n - 1) / 3 + 1;
  }

  /** `base64.URLEncoding.EncodeToString`. */
  function Encode(s: string): (r: string)
    ensures |r| == (|s| + 2) / 3 * 4
    ensures forall i :: 0 <= i < |r| ==> IsEncodedChar(r[i])
    decreases |s|
  {
    if |s| == 0 then ""
    else if |s| == 1 then EncodeOne(Byte(s[0]))
    else if |s| == 2 then EncodeTwo(Byte(s[0]), Byte(s[1]))
    else
      EncodedLengthStep(|s|);
      EncodeQuantum(Byte(s[0]), Byte(s[1]), Byte(s[2])) + Encode(s[3..])
  }

  function StripNewlines(s: string): (r: string)
    ensures forall i :: 0 <= i < |r| ==> r[i] != '\n' && r[i] != '\r'
    decreases |s|
  {
    if |s| == 0 then ""
    else if s[0] == '\n' || s[0] == '\r' then StripNewlines(s[1..])
    else [s[0]] + StripNewlines(s[1..])
  }

  /** The 6-bit value of an alphabet character. */
  function SextetOf(c: char): (d: int)
    requires IsAlphabet(c)
    ensures 0 <= d < 64 && DecodeSextet(c) == Some(d)
  {
    DecodeSextet(c).value
  }

  /** The first, second and third byte of a quantum, from the sextets that carry them. */
  function FirstByte(d0: int, d1: int): (b: int)
    requires 0 <= d0 < 64 && 0 <= d1 < 64
    ensures 0 <= b < 256
  {
    d0 * 4 + d1 / 16
  }

  function SecondByte(d1: int, d2: int): (b: int)
    requires 0 <= d1 < 64 && 0 <= d2 < 64
    ensures 0 <= b < 256
  {
    (d1 % 16) * 16 + d2 / 4
  }

  function ThirdByte(d2: int, d3: int): (b: int)
    requires 0 <= d2 < 64 && 0 <= d3 < 64
    ensures 0 <= b < 256
  {
    (d2 % 4) * 64 + d3
  }

  /** The bytes carried by two, three or four sextets. */
  function OneByte(d0: int, d1: int): (r: string)
    requires 0 <= d0 < 64 && 0 <= d1 < 64
    ensures |r| == 1 && IsByteString(r)
  {
    [ByteChar(FirstByte(d0, d1))]
  }

  function TwoBytes(d0: int, d1: int, d2: int): (r: string)
    requires 0 <= d0 < 64 && 0 <= d1 < 64 && 0 <= d2 < 64
    ensures |r| == 2 && IsByteString(r)
  {
    [ByteChar(FirstByte(d0, d1)), ByteChar(SecondByte(d1, d2))]
  }

  function ThreeBytes(d0: int, d1: int, d2: int, d3: int): (r: string)
    requires 0 <= d0 < 64 && 0 <= d1 < 64 && 0 <= d2 < 64 && 0 <= d3 < 64
    ensures |r| == 3 && IsByteString(r)
  {
    [ByteChar(FirstByte(d0, d1)), ByteChar(SecondByte(d1, d2)), ByteChar(ThirdByte(d2, d3))]
  }

  /** A quantum of four alphabet characters: three bytes. */
  function DecodeFull(q: string): (r: Option<string>)
    requires |q| == 4
    ensures r.Some? ==> |r.value| == 3 && IsByteString(r.value)
  {
    if IsAlphabet(q[0]) && IsAlphabet(q[1]) && IsAlphabet(q[2]) && IsAlphabet(q[3]) then
      Some(ThreeBytes(SextetOf(q[0]), SextetOf(q[1]), SextetOf(q[2]), SextetOf(q[3])))
    else None
  }

  /** The last quantum, which may carry one or two padding characters. */
  function DecodeFinal(q: string): (r: Option<string>)
    requires |q| == 4
    ensures r.Some? ==> 1 <= |r.value| <= 3 && IsByteString(r.value)
  {
    if q[2] == '=' && q[3] == '=' then
      if IsAlphabet(q[0]) && IsAlphabet(q[1]) then Some(OneByte(SextetOf(q[0]), SextetOf(q[1])))
      else None
    else if q[3] == '=' then
      if IsAlphabet(q[0]) && IsAlphabet(q[1]) && IsAlphabet(q[2]) then
        Some(TwoBytes(SextetOf(q[0]), SextetOf(q[1]), SextetOf(q[2])))
      else None
    else DecodeFull(q)
  }

  function DecodeQuanta(t: string): (r: Option<string>)
    ensures r.Some? ==> IsByteString(r.value)
    decreases |t|
  {
    if |t| == 0 then Some("")
    else if |t| < 4 then None
    else if |t| == 4 then DecodeFinal(t)
    else
      match DecodeFull(t[..4])
      case None => None
      case Some(head) =>
        match DecodeQuanta(t[4..])
        case None => None
        case Some(rest) => Some(head + rest)
  }

  /** `base64.URLEncoding.DecodeString`, None standing for a non-nil error. */
  function Decode(s: string): (r: Option<string>)
    ensures r.Some? ==> IsByteString(r.value)
  {
    DecodeQuanta(StripNewlines(s))
  }

  lemma {:induction false} StripNewlinesNoop(s: string)
    requires forall i :: 0 <= i < |s| ==> s[i] != '\n' && s[i] != '\r'
    ensures StripNewlines(s) == s
    decreases |s|
  {
    if |s| > 0 {
      StripNewlinesNoop(s[1..]);
    }
  }

  /** Splitting three bytes into sextets and joining them again gives the bytes back. */
  lemma SextetArithmetic(b0: int, b1: int, b2: int)
    requires 0 <= b0 < 256 && 0 <= b1 < 256 && 0 <= b2 < 256
    ensures FirstByte(b0 / 4, (b0 % 4) * 16 + b1 / 16) == b0
    ensures SecondByte((b0 % 4) * 16 + b1 / 16, (b1 % 16) * 4 + b2 / 64) == b1
    ensures ThirdByte((b1 % 16) * 4 + b2 / 64, b2 % 64) == b2
  {
  }

  /** A quantum of four encoded sextets decodes, as a full or as a final quantum, to the bytes they carry. */
  lemma SextetsOfQuantum(q: string, d0: int, d1: int, d2: int, d3: int)
    requires 0 <= d0 < 64 && 0 <= d1 < 64 && 0 <= d2 < 64 && 0 <= d3 < 64
    requires q == [EncodeSextet(d0), EncodeSextet(d1), EncodeSextet(d2), EncodeSextet(d3)]
    ensures DecodeFull(q) == Some(ThreeBytes(d0, d1, d2, d3))
    ensures DecodeFinal(q) == DecodeFull(q)
  {
    DecodeEncodeSextet(d0);
    DecodeEncodeSextet(d1);
    DecodeEncodeSextet(d2);
    DecodeEncodeSextet(d3);
    assert SextetOf(q[0]) == d0 && SextetOf(q[1]) == d1 && SextetOf(q[2]) == d2 && SextetOf(q[3]) == d3;
  }

  lemma QuantumRoundTrip(b0: int, b1: int, b2: int)
    requires 0 <= b0 < 256 && 0 <= b1 < 256 && 0 <= b2 < 256
    ensures DecodeFull(EncodeQuantum(b0, b1, b2)) == Some([ByteChar(b0), ByteChar(b1), ByteChar(b2)])
    ensures DecodeFinal(EncodeQuantum(b0, b1, b2)) == Some([ByteChar(b0), ByteChar(b1), ByteChar(b2)])
  {
    var d0, d1, d2, d3 := b0 / 4, (b0 % 4) * 16 + b1 / 16, (b1 % 16) * 4 + b2 / 64, b2 % 64;
    SextetsOfQuantum(EncodeQuantum(b0, b1, b2), d0, d1, d2, d3);
    SextetArithmetic(b0, b1, b2);
  }

  lemma OneByteQuantumRoundTrip(b0: int)
    requires 0 <= b0 < 256
    ensures DecodeFinal(EncodeOne(b0)) == Some([ByteChar(b0)])
  {
    var d0, d1 := b0 / 4, (b0 % 4) * 16;
    var q := EncodeOne(b0);
    DecodeEncodeSextet(d0);
    DecodeEncodeSextet(d1);
    assert SextetOf(q[0]) == d0 && SextetOf(q[1]) == d1;
    SextetArithmetic(b0, 0, 0);
  }

  lemma TwoByteQuantumRoundTrip(b0: int, b1: int)
    requires 0 <= b0 < 256 && 0 <= b1 < 256
    ensures DecodeFinal(EncodeTwo(b0, b1)) == Some([ByteChar(b0), ByteChar(b1)])
  {
    var d0, d1, d2 := b0 / 4, (b0 % 4) * 16 + b1 / 16, (b1 % 16) * 4;
    var q := EncodeTwo(b0, b1);
    DecodeEncodeSextet(d0);
    DecodeEncodeSextet(d1);
    DecodeEncodeSextet(d2);
    assert SextetOf(q[0]) == d0 && SextetOf(q[1]) == d1 && SextetOf(q[2]) == d2;
    SextetArithmetic(b0, b1, 0);
  }

  /** A full first quantum followed by a decodable rest decodes to the concatenation. */
  lemma DecodeQuantaCons(q: string, rest: string)
    requires |q| == 4 && |rest| > 0
    requires DecodeFull(q).Some? && DecodeQuanta(rest).Some?
    ensures DecodeQuanta(q + rest) == Some(DecodeFull(q).value + DecodeQuanta(rest).value)
  {
    var t := q + rest;
    assert t[..4] == q && t[4..] == rest;
  }

  /** A byte-sized character survives the round trip through its byte value. */
  lemma ByteCharOfByte(c: char)
    requires c as int < 256
    ensures ByteChar(Byte(c)) == c
  {
  }

  /** A single byte encodes to a final quantum that decodes back to it. */
  lemma SingleByteRoundTrip(s: string)
    requires IsByteString(s) && |s| == 1
    ensures DecodeQuanta(Encode(s)) == Some(s)
  {
    assert s == [s[0]];
    ByteCharOfByte(s[0]);
    assert Encode(s) == EncodeOne(Byte(s[0]));
    OneByteQuantumRoundTrip(Byte(s[0]));
  }

  /** Two bytes encode to a final quantum that decodes back to them. */
  lemma DoubleByteRoundTrip(s: string)
    requires IsByteString(s) && |s| == 2
    ensures DecodeQuanta(Encode(s)) == Some(s)
  {
    assert s == [s[0], s[1]];
    ByteCharOfByte(s[0]);
    ByteCharOfByte(s[1]);
    assert Encode(s) == EncodeTwo(Byte(s[0]), Byte(s[1]));
    TwoByteQuantumRoundTrip(Byte(s[0]), Byte(s[1]));
  }

  /** The first three bytes encode to a quantum that decodes back to them, as a full or as a final quantum. */
  lemma LeadingQuantumRoundTrip(s: string)
    requires IsByteString(s) && |s| >= 3
    ensures var q := EncodeQuantum(Byte(s[0]), Byte(s[1]), Byte(s[2]));
      DecodeFull(q) == Some(s[..3]) && DecodeFinal(q) == Some(s[..3])
  {
    assert s[..3] == [s[0], s[1], s[2]];
    ByteCharOfByte(s[0]);
    ByteCharOfByte(s[1]);
    ByteCharOfByte(s[2]);
    QuantumRoundTrip(Byte(s[0]), Byte(s[1]), Byte(s[2]));
  }

  lemma {:induction false} DecodeQuantaEncode(s: string)
    requires IsByteString(s)
    ensures DecodeQuanta(Encode(s)) == Some(s)
    decreases |s|
  {
    if |s| == 1 {
      SingleByteRoundTrip(s);
    } else if |s| == 2 {
      DoubleByteRoundTrip(s);
    } else if |s| >= 3 {
      var q := EncodeQuantum(Byte(s[0]), Byte(s[1]), Byte(s[2]));
      LeadingQuantumRoundTrip(s);
      if |s| == 3 {
        assert s[..3] == s;
        assert Encode(s) == q;
      } else {
        assert s[..3] + s[3..] == s;
        assert Encode(s) == q + Encode(s[3..]);
        DecodeQuantaEncode(s[3..]);
        DecodeQuantaCons(q, Encode(s[3..]));
      }
    }
  }

  /** Decoding an encoded byte string gives it back exactly. */
  lemma DecodeEncode(s: string)
    requires IsByteString(s)
    ensures Decode(Encode(s)) == Some(s)
  {
    StripNewlinesNoop(Encode(s));
    DecodeQuantaEncode(s);
  }

  /** Encoding is injective on byte strings: distinct ids get distinct text. */
  lemma EncodeInjective(s: string, t: string)
    requires IsByteString(s) && IsByteString(t) && s != t
    ensures Encode(s) != Encode(t)
  {
    DecodeEncode(s);
    DecodeEncode(t);
  }
}
