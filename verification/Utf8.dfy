/** UTF-8 (RFC 3629) over Unicode scalar values, as `str.encode("utf-8")` applies it. */
module Utf8 {
  import opened Prelude

  function EncodeChar(c: char): (r: Bytes)
    ensures 1 <= |r| <= 4
  {
    var n := c as int;
    if n < 0x80 then
      [n as byte]
    else if n < 0x800 then
      [(0xC0 + n / 64) as byte, Tail(n)]
    else if n < 0x10000 then
      [(0xE0 + n / 64 / 64) as byte, Tail(n / 64), Tail(n)]
    else
      [(0xF0 + n / 64 / 64 / 64) as byte, Tail(n / 64 / 64), Tail(n / 64), Tail(n)]
  }

  /** A continuation byte carrying the low six bits. */
  function Tail(n: int): byte {
    (0x80 + n % 64) as byte
  }

  function Encode(s: string): Bytes {
    if s == "" then [] else EncodeChar(s[0]) + Encode(s[1..])
  }

  /** How many bytes a sequence starting with the given byte has. */
  function SequenceLength(lead: byte): nat {
    if lead < 0x80 then 1 else if lead < 0xE0 then 2 else if lead < 0xF0 then 3 else 4
  }

  /** The number carried by the payload bits of the first sequence. */
  function Payload(b: Bytes): int
    requires b != [] && SequenceLength(b[0]) <= |b|
  {
    var bits := (i: int) requires 0 < i < |b| => b[i] as int - 0x80;
    match SequenceLength(b[0])
    case 1 => b[0] as int
    case 2 => (b[0] as int - 0xC0) * 64 + bits(1)
    case 3 => ((b[0] as int - 0xE0) * 64 + bits(1)) * 64 + bits(2)
    case _ => (((b[0] as int - 0xF0) * 64 + bits(1)) * 64 + bits(2)) * 64 + bits(3)
  }

  predicate IsScalar(n: int) {
    0 <= n < 0xD800 || 0xE000 <= n < 0x110000
  }

  /** One scalar value off the front; overlong and stray sequences are refused by encoding it again. */
  function DecodeChar(b: Bytes): (r: Option<char>)
    ensures r.Some? ==> EncodeChar(r.value) <= b
  {
    if b == [] || |b| < SequenceLength(b[0]) then
      None
    else
      var n := Payload(b);
      if IsScalar(n) && EncodeChar(n as char) <= b then Some(n as char) else None
  }

  function Decode(b: Bytes): Option<string>
    decreases |b|
  {
    if b == [] then
      Some("")
    else
      match DecodeChar(b)
      case None => None
      case Some(c) =>
        match Decode(b[|EncodeChar(c)|..])
        case None => None
        case Some(rest) => Some([c] + rest)
  }

  lemma PayloadOfEncoding(c: char)
    ensures SequenceLength(EncodeChar(c)[0]) == |EncodeChar(c)|
    ensures Payload(EncodeChar(c)) == c as int
  {
  }

  lemma PayloadIgnoresRest(b: Bytes, rest: Bytes)
    requires b != [] && SequenceLength(b[0]) == |b|
    ensures Payload(b + rest) == Payload(b)
  {
  }

  lemma DecodeCharEncodeChar(c: char, rest: Bytes)
    ensures DecodeChar(EncodeChar(c) + rest) == Some(c)
  {
    hide EncodeChar, Payload, SequenceLength;
    var b := EncodeChar(c);
    PayloadOfEncoding(c);
    PayloadIgnoresRest(b, rest);
    assert (b + rest)[0] == b[0];
    assert (c as int) as char == c;
  }

  predicate Continues(b: byte) {
    0x80 <= b < 0xC0
  }

  /** The table of section 3 of RFC 3629: the lead byte tells the length, and the rest carries six bits each. */
  lemma EncodeExactly(c: char)
    ensures var b, n := EncodeChar(c), c as int;
            && (n < 0x80 ==> b == [n as byte])
            && (0x80 <= n < 0x800 ==>
                  |b| == 2 && 0xC0 <= b[0] < 0xE0 && Continues(b[1])
                  && n == (b[0] as int - 0xC0) * 0x40 + (b[1] as int - 0x80))
            && (0x800 <= n < 0x10000 ==>
                  |b| == 3 && 0xE0 <= b[0] < 0xF0 && Continues(b[1]) && Continues(b[2])
                  && n == (b[0] as int - 0xE0) * 0x1000 + (b[1] as int - 0x80) * 0x40 + (b[2] as int - 0x80))
            && (0x10000 <= n ==>
                  |b| == 4 && 0xF0 <= b[0] < 0xF8 && Continues(b[1]) && Continues(b[2]) && Continues(b[3])
                  && n == (b[0] as int - 0xF0) * 0x40000 + (b[1] as int - 0x80) * 0x1000 + (b[2] as int - 0x80) * 0x40 + (b[3] as int - 0x80))
  {
  }

  /** Encoding loses nothing. */
  lemma {:induction false} DecodeEncode(s: string)
    ensures Decode(Encode(s)) == Some(s)
  {
    if s != "" {
      var rest := Encode(s[1..]);
      DecodeCharEncodeChar(s[0], rest);
      assert Encode(s)[|EncodeChar(s[0])|..] == rest;
      DecodeEncode(s[1..]);
      assert [s[0]] + s[1..] == s;
    }
  }
}
