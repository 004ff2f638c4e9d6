/** Base64 with the standard alphabet and padding (section 4 of RFC 4648). */
module Base64 {
  import opened Prelude

  type Sextet = x: int | 0 <= x < 64

  /* ---- Sextets and bytes ---- */

  function First(p: Sextet, q: Sextet): byte {
    (p as int * 4 + q as int / 16) as byte
  }

  function Second(q: Sextet, u: Sextet): byte {
    (q as int % 16 * 16 + u as int / 4) as byte
  }

  function Third(u: Sextet, w: Sextet): byte {
    (u as int % 4 * 64 + w as int) as byte
  }

  function Split(x: byte, y: byte, z: byte): (v: seq<Sextet>)
    ensures |v| == 4
  {
    var a, b, c := x as int, y as int, z as int;
    [a / 4, a % 4 * 16 + b / 16, b % 16 * 4 + c / 64, c % 64]
  }

  function ToSextets(b: Bytes): (v: seq<Sextet>)
    ensures |v| % 4 != 1
  {
    if |b| == 0 then []
    else if |b| == 1 then Split(b[0], 0, 0)[..2]
    else if |b| == 2 then Split(b[0], b[1], 0)[..3]
    else Split(b[0], b[1], b[2]) + ToSextets(b[3..])
  }

  /** The bits after the last whole byte are dropped unread. */
  function FromSextets(v: seq<Sextet>): Bytes
    requires |v| % 4 != 1
  {
    if |v| == 0 then []
    else if |v| == 2 then [First(v[0], v[1])]
    else if |v| == 3 then [First(v[0], v[1]), Second(v[1], v[2])]
    else [First(v[0], v[1]), Second(v[1], v[2]), Third(v[2], v[3])] + FromSextets(v[4..])
  }

  predicate SpareBitsZero(v: seq<Sextet>) {
    && (|v| % 4 == 2 ==> v[|v| - 1] % 16 == 0)
    && (|v| % 4 == 3 ==> v[|v| - 1] % 4 == 0)
  }

  lemma JoinSplit(x: byte, y: byte, z: byte)
    ensures var v := Split(x, y, z);
            First(v[0], v[1]) == x && Second(v[1], v[2]) == y && Third(v[2], v[3]) == z
  {
  }

  lemma FirstHalves(p: Sextet, q: Sextet)
    ensures First(p, q) as int / 4 == p && First(p, q) as int % 4 == q / 16
  {
  }

  lemma SecondHalves(q: Sextet, u: Sextet)
    ensures Second(q, u) as int / 16 == q % 16 && Second(q, u) as int % 16 == u / 4
  {
  }

  lemma ThirdHalves(u: Sextet, w: Sextet)
    ensures Third(u, w) as int / 64 == u % 4 && Third(u, w) as int % 64 == w
  {
  }

  lemma SplitJoin(p: Sextet, q: Sextet, u: Sextet, w: Sextet)
    ensures Split(First(p, q), Second(q, u), Third(u, w)) == [p, q, u, w]
  {
    FirstHalves(p, q);
    SecondHalves(q, u);
    ThirdHalves(u, w);
    hide First, Second, Third;
  }

  lemma SplitJoinThree(p: Sextet, q: Sextet, u: Sextet)
    ensures Split(First(p, q), Second(q, u), 0)[..3] == [p, q, u] <==> u as int % 4 == 0
  {
    FirstHalves(p, q);
    SecondHalves(q, u);
    hide First, Second;
    var s := Split(First(p, q), Second(q, u), 0);
    assert s[0] == p && s[1] == q && s[2] == u / 4 * 4;
    assert s[..3] == [s[0], s[1], s[2]];
  }

  lemma SplitJoinTwo(p: Sextet, q: Sextet)
    ensures Split(First(p, q), 0, 0)[..2] == [p, q] <==> q as int % 16 == 0
  {
    FirstHalves(p, q);
    hide First;
    var t := Split(First(p, q), 0, 0);
    assert t[0] == p && t[1] == q / 16 * 16;
    assert t[..2] == [t[0], t[1]];
  }

  lemma ToSextetsStep(b: Bytes)
    requires |b| >= 3
    ensures ToSextets(b) == Split(b[0], b[1], b[2]) + ToSextets(b[3..])
  {
    hide Split;
  }

  lemma FromSextetsStep(v: seq<Sextet>)
    requires |v| >= 4 && |v| % 4 != 1
    ensures FromSextets(v) == [First(v[0], v[1]), Second(v[1], v[2]), Third(v[2], v[3])] + FromSextets(v[4..])
  {
  }

  lemma {:induction false} FromToSextets(b: Bytes)
    ensures FromSextets(ToSextets(b)) == b
    decreases |b|
  {
    hide First, Second, Third, Split;
    if |b| == 0 {
    } else if |b| == 1 {
      JoinSplit(b[0], 0, 0);
      assert ToSextets(b) == Split(b[0], 0, 0)[..2];
      assert b == [b[0]];
    } else if |b| == 2 {
      JoinSplit(b[0], b[1], 0);
      assert ToSextets(b) == Split(b[0], b[1], 0)[..3];
      assert b == [b[0], b[1]];
    } else {
      FromToSextetsStep(b);
    }
  }

  lemma {:induction false} FromToSextetsStep(b: Bytes)
    requires |b| >= 3
    ensures FromSextets(ToSextets(b)) == b
    decreases |b|, 0
  {
    var v := ToSextets(b);
    ToSextetsStep(b);
    JoinSplit(b[0], b[1], b[2]);
    FromSextetsStep(v);
    assert v[4..] == ToSextets(b[3..]);
    FromToSextets(b[3..]);
    assert b == [b[0], b[1], b[2]] + b[3..];
  }

  lemma ToFromSextetsShort(v: seq<Sextet>)
    requires |v| < 4 && |v| != 1
    ensures ToSextets(FromSextets(v)) == v <==> SpareBitsZero(v)
  {
    hide First, Second, Third, Split;
    if |v| == 2 {
      SplitJoinTwo(v[0], v[1]);
      assert v == [v[0], v[1]];
    } else if |v| == 3 {
      SplitJoinThree(v[0], v[1], v[2]);
      assert v == [v[0], v[1], v[2]];
    }
  }

  lemma SpareBitsOfTail(v: seq<Sextet>)
    requires |v| >= 4 && |v| % 4 != 1
    ensures |v[4..]| % 4 != 1 && (SpareBitsZero(v) <==> SpareBitsZero(v[4..]))
  {
    var t := v[4..];
    if |t| > 0 {
      assert t[|t| - 1] == v[|v| - 1];
    }
  }

  lemma ToSextetsCons(x: byte, y: byte, z: byte, rest: Bytes)
    ensures ToSextets([x, y, z] + rest) == Split(x, y, z) + ToSextets(rest)
  {
    assert ([x, y, z] + rest)[3..] == rest;
  }

  lemma ToFromSextetsStep(v: seq<Sextet>)
    requires |v| >= 4 && |v| % 4 != 1 && |v[4..]| % 4 != 1
    ensures ToSextets(FromSextets(v)) == v[..4] + ToSextets(FromSextets(v[4..]))
  {
    hide *;
    FromSextetsStep(v);
    ToSextetsCons(First(v[0], v[1]), Second(v[1], v[2]), Third(v[2], v[3]), FromSextets(v[4..]));
    SplitJoin(v[0], v[1], v[2], v[3]);
    assert v[..4] == [v[0], v[1], v[2], v[3]];
  }

  lemma {:induction false} ToFromSextets(v: seq<Sextet>)
    requires |v| % 4 != 1
    ensures ToSextets(FromSextets(v)) == v <==> SpareBitsZero(v)
    decreases |v|
  {
    if |v| < 4 {
      ToFromSextetsShort(v);
    } else {
      hide ToSextets, FromSextets, SpareBitsZero;
      SpareBitsOfTail(v);
      ToFromSextets(v[4..]);
      ToFromSextetsStep(v);
      PrefixCancels(v[..4], v[4..], ToSextets(FromSextets(v[4..])));
      assert v == v[..4] + v[4..];
    }
  }

  lemma PrefixCancels(p: seq<Sextet>, s: seq<Sextet>, t: seq<Sextet>)
    ensures p + t == p + s <==> s == t
  {
    assert (p + s)[|p|..] == s && (p + t)[|p|..] == t;
  }

  /* ---- Sextets and characters ---- */

  function Digit(v: Sextet): (c: char)
    ensures Value(c) == Some(v)
  {
    if v < 26 then 'A' + v as char
    else if v < 52 then 'a' + (v - 26) as char
    else if v < 62 then '0' + (v - 52) as char
    else if v == 62 then '+' else '/'
  }

  function Value(c: char): (r: Option<Sextet>)
    ensures c == '=' ==> r.None?
  {
    if 'A' <= c <= 'Z' then Some(c as int - 'A' as int)
    else if 'a' <= c <= 'z' then Some(c as int - 'a' as int + 26)
    else if '0' <= c <= '9' then Some(c as int - '0' as int + 52)
    else if c == '+' then Some(62)
    else if c == '/' then Some(63)
    else None
  }

  function Digits(v: seq<Sextet>): (s: string)
    ensures |s| == |v|
  {
    if v == [] then "" else [Digit(v[0])] + Digits(v[1..])
  }

  function Values(s: string): (r: Option<seq<Sextet>>)
    ensures r.Some? ==> |r.value| == |s| && '=' !in s
  {
    if s == "" then
      Some([])
    else if Value(s[0]).None? || Values(s[1..]).None? then
      None
    else
      Some([Value(s[0]).value] + Values(s[1..]).value)
  }

  lemma {:induction false} ValuesDigits(v: seq<Sextet>)
    ensures Values(Digits(v)) == Some(v)
  {
    if v != [] {
      ValuesDigits(v[1..]);
      assert Digits(v)[1..] == Digits(v[1..]);
      assert [v[0]] + v[1..] == v;
    }
  }

  lemma DigitValue(c: char)
    requires Value(c).Some?
    ensures Digit(Value(c).value) == c
  {
  }

  lemma {:induction false} DigitsValues(s: string)
    requires Values(s).Some?
    ensures Digits(Values(s).value) == s
  {
    if s != "" {
      DigitValue(s[0]);
      DigitsValues(s[1..]);
    }
  }

  /** Table 1 of RFC 4648: four runs of consecutive characters, and two more. */
  lemma DigitExactly(v: Sextet)
    ensures Digit(0) == 'A' && Digit(25) == 'Z' && Digit(26) == 'a' && Digit(51) == 'z' && Digit(52) == '0' && Digit(61) == '9'
    ensures Digit(62) == '+' && Digit(63) == '/'
    ensures v < 61 && v != 25 && v != 51 ==> Digit(v + 1) as int == Digit(v) as int + 1
  {
  }

  /** Three bytes and their four sextets are the same 24 bits, first bit first. */
  lemma SplitExactly(x: byte, y: byte, z: byte)
    ensures var v := Split(x, y, z);
            v[0] as int * 0x40000 + v[1] as int * 0x1000 + v[2] as int * 0x40 + v[3] as int
            == x as int * 0x10000 + y as int * 0x100 + z as int
  {
  }

  /* ---- The text form ---- */

  function Padding(sextets: nat): string {
    match sextets % 4
    case 2 => "=="
    case 3 => "="
    case _ => ""
  }

  function Encode(b: Bytes): string {
    Digits(ToSextets(b)) + Padding(|ToSextets(b)|)
  }

  /** The part of an encoding before its padding. */
  function Body(s: string): (t: string)
    ensures t <= s
  {
    var n := |s|;
    if n >= 2 && s[n - 2..] == "==" then s[..n - 2]
    else if n >= 1 && s[n - 1] == '=' then s[..n - 1]
    else s
  }

  /** `b64decode(..., validate=True)`. */
  function StrictDecode(s: string): Option<Bytes> {
    if |s| % 4 != 0 || |Body(s)| % 4 == 1 || Values(Body(s)).None? then None else Some(FromSextets(Values(Body(s)).value))
  }

  /** The bits the decoder drops are zero. */
  predicate PadBitsZero(s: string)
    requires StrictDecode(s).Some?
  {
    SpareBitsZero(Values(Body(s)).value)
  }

  lemma BodyOfPadded(t: string)
    requires |t| % 4 != 1 && '=' !in t
    ensures var s := t + Padding(|t|); |s| % 4 == 0 && Body(s) == t
  {
    var s := t + Padding(|t|);
    if |t| % 4 == 2 {
      BodyDropsTwo(t);
    } else if |t| % 4 == 3 {
      BodyDropsOne(t);
    } else {
      assert s == t;
      BodyDropsNone(t);
    }
  }

  lemma BodyDropsTwo(t: string)
    ensures Body(t + "==") == t
  {
    var s := t + "==";
    assert s[|s| - 2..] == "==";
  }

  lemma BodyDropsOne(t: string)
    requires '=' !in t && t != ""
    ensures Body(t + "=") == t
  {
    var s := t + "=";
    assert s[|s| - 2..][0] == t[|t| - 1];
  }

  lemma BodyDropsNone(t: string)
    requires '=' !in t
    ensures Body(t) == t
  {
    if |t| >= 2 {
      assert t[|t| - 2..][0] == t[|t| - 2];
    }
  }

  lemma BodyAndPadding(s: string)
    requires |s| % 4 == 0 && '=' !in Body(s)
    ensures |Body(s)| % 4 != 1 && s == Body(s) + Padding(|Body(s)|)
  {
    var n, t := |s|, Body(s);
    assert s == t + s[|t|..];
    if n >= 1 && s[n - 1] == '=' && s[n - 2..] != "==" {
      assert s[n - 1..] == "=";
    }
  }

  lemma BodyOfEncoding(b: Bytes)
    ensures |Encode(b)| % 4 == 0 && Body(Encode(b)) == Digits(ToSextets(b))
  {
    hide ToSextets, Digits, Values, Body, Padding;
    ValuesDigits(ToSextets(b));
    BodyOfPadded(Digits(ToSextets(b)));
  }

  /** What was encoded is what is decoded. */
  lemma DecodeEncode(b: Bytes)
    ensures StrictDecode(Encode(b)) == Some(b)
  {
    hide ToSextets, FromSextets, Digits, Values, Body;
    BodyOfEncoding(b);
    ValuesDigits(ToSextets(b));
    FromToSextets(b);
  }

  /**
    * The error text promises canonical base64, but an accepted string is the encoding of what
    * it decodes to exactly when its pad bits are zero.
    */
  lemma CanonicalExactlyWithZeroPadBits(s: string)
    requires StrictDecode(s).Some?
    ensures Encode(StrictDecode(s).value) == s <==> PadBitsZero(s)
  {
    hide ToSextets, FromSextets, Digits, Values, Body, SpareBitsZero, Padding;
    var v := Values(Body(s)).value;
    var b := FromSextets(v);
    ToFromSextets(v);
    DigitsValues(Body(s));
    BodyAndPadding(s);
    if Encode(b) == s {
      BodyOfEncoding(b);
      ValuesDigits(ToSextets(b));
    }
  }

  /** Two different strings the strict decoder reads as the same byte. */
  lemma NonCanonicalAccepted()
    ensures StrictDecode("QQ==") == StrictDecode("QR==") == Some([0x41])
    ensures !PadBitsZero("QR==") && PadBitsZero("QQ==")
  {
    assert Body("QQ==") == "QQ" && Body("QR==") == "QR";
    ValuesDigits([16, 16]);
    ValuesDigits([16, 17]);
    assert Digits([16, 16]) == "QQ" && Digits([16, 17]) == "QR";
  }

  /** The first test vectors of section 10 of RFC 4648, one for each length of padding. */
  lemma EncodeVectors()
    ensures Encode([0x66]) == "Zg==" && Encode([0x66, 0x6F]) == "Zm8=" && Encode([0x66, 0x6F, 0x6F]) == "Zm9v"
  {
    VectorSextets();
    hide ToSextets, Digits;
    DigitsOf([25, 32], "Zg");
    DigitsOf([25, 38, 60], "Zm8");
    DigitsOf([25, 38, 61, 47], "Zm9v");
  }

  lemma VectorSextets()
    ensures ToSextets([0x66]) == [25, 32] && ToSextets([0x66, 0x6F]) == [25, 38, 60] && ToSextets([0x66, 0x6F, 0x6F]) == [25, 38, 61, 47]
  {
    var foo: Bytes := [0x66, 0x6F, 0x6F];
    assert foo[3..] == [];
  }

  lemma {:induction false} DigitsOf(v: seq<Sextet>, s: string)
    requires |v| == |s| && forall i | 0 <= i < |v| :: Digit(v[i]) == s[i]
    ensures Digits(v) == s
  {
    if v != [] {
      DigitsOf(v[1..], s[1..]);
      assert s == [s[0]] + s[1..];
    }
  }
}
