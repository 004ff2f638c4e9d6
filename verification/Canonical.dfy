/** The one byte representation of a package manifest that is signed. */
module Canonical {
  import opened Prelude
  import Utf8

  datatype Manifest = Manifest(
    schemaVersion: string,
    packageId: string,
    firmwareVersion: string,
    payloadSha256: string,
    payloadSize: nat,
    signatureAlgorithm: string)

  /* ---- JSON strings (section 7 of RFC 8259), escaped only where `json.dumps` must ---- */

  function HexDigit(v: int): char
    requires 0 <= v < 16
  {
    if v < 10 then '0' + v as char else 'a' + (v - 10) as char
  }

  function EscapeChar(c: char): (s: string)
    ensures s != "" && s[0] != '"'
  {
    if c == '"' then "\\\""
    else if c == '\\' then "\\\\"
    else if c == '\n' then "\\n"
    else if c == '\r' then "\\r"
    else if c == '\t' then "\\t"
    else if c == '\U{08}' then "\\b"
    else if c == '\U{0C}' then "\\f"
    else if c < ' ' then "\\u00" + [HexDigit(c as int / 16), HexDigit(c as int % 16)]
    else [c]
  }

  function Escape(s: string): string {
    if s == "" then "" else EscapeChar(s[0]) + Escape(s[1..])
  }

  /** The character an escape stands for, if the text starts with one. */
  function Unescaped(s: string): char
    requires s != ""
  {
    if s[0] != '\\' || |s| == 1 then s[0]
    else if s[1] == 'n' then '\n'
    else if s[1] == 'r' then '\r'
    else if s[1] == 't' then '\t'
    else if s[1] == 'b' then '\U{08}'
    else if s[1] == 'f' then '\U{0C}'
    else if s[1] == 'u' && |s| >= 6 then HexValue(s[4], s[5])
    else s[1]
  }

  function HexValue(high: char, low: char): char {
    var digit := (c: char) =>
      if '0' <= c <= '9' then c as int - '0' as int else if 'a' <= c <= 'f' then c as int - 'a' as int + 10 else 0;
    (digit(high) * 16 + digit(low)) as char
  }

  /** The characters up to the closing quote, and what follows it. */
  function ReadString(s: string): Option<(string, string)>
    decreases |s|
  {
    if s == "" then
      None
    else if s[0] == '"' then
      Some(("", s[1..]))
    else
      var c := Unescaped(s);
      if !(EscapeChar(c) <= s) then
        None
      else
        match ReadString(s[|EscapeChar(c)|..])
        case None => None
        case Some((t, rest)) => Some(([c] + t, rest))
  }

  lemma UnescapedEscape(c: char, rest: string)
    ensures Unescaped(EscapeChar(c) + rest) == c
  {
    var s := EscapeChar(c) + rest;
    assert forall i | 0 <= i < |EscapeChar(c)| :: s[i] == EscapeChar(c)[i];
  }

  lemma ReadStringStep(c: char, rest: string)
    ensures ReadString(EscapeChar(c) + rest) ==
            match ReadString(rest) { case None => None case Some((t, r)) => Some(([c] + t, r)) }
  {
    UnescapedEscape(c, rest);
    hide EscapeChar, Unescaped;
    var s := EscapeChar(c) + rest;
    assert s[0] == EscapeChar(c)[0];
    assert s[|EscapeChar(c)|..] == rest;
  }

  lemma {:induction false} ReadStringEscape(s: string, rest: string)
    ensures ReadString(Escape(s) + "\"" + rest) == Some((s, rest))
  {
    hide EscapeChar, Unescaped;
    if s == "" {
      assert (Escape(s) + "\"" + rest)[1..] == rest;
    } else {
      ReadStringEscape(s[1..], rest);
      ReadStringStep(s[0], Escape(s[1..]) + "\"" + rest);
      hide ReadString;
      assert EscapeChar(s[0]) + (Escape(s[1..]) + "\"" + rest) == Escape(s) + "\"" + rest;
      assert [s[0]] + s[1..] == s;
    }
  }

  /* ---- Decimal integers ---- */

  function Decimal(n: nat): string {
    if n < 10 then ['0' + n as char] else Decimal(n / 10) + ['0' + (n % 10) as char]
  }

  predicate StartsWithDigit(s: string) {
    s != "" && '0' <= s[0] <= '9'
  }

  function ReadDigits(value: nat, s: string): (nat, string)
    decreases |s|
  {
    if StartsWithDigit(s) then ReadDigits(value * 10 + (s[0] as int - '0' as int), s[1..]) else (value, s)
  }

  lemma {:induction false} ReadDigitsDecimal(n: nat, rest: string)
    ensures ReadDigits(0, Decimal(n) + rest) == ReadDigits(n, rest)
  {
    if n < 10 {
      assert (Decimal(n) + rest)[1..] == rest;
    } else {
      var last := ['0' + (n % 10) as char];
      assert Decimal(n) + rest == Decimal(n / 10) + (last + rest);
      ReadDigitsDecimal(n / 10, last + rest);
      assert (last + rest)[1..] == rest;
    }
  }

  /* ---- Fields ---- */

  function StringField(key: string, value: string, rest: string): string {
    key + ("\"" + (Escape(value) + "\"" + rest))
  }

  function NumberField(key: string, value: nat, rest: string): string {
    key + (Decimal(value) + rest)
  }

  function ReadStringField(key: string, s: string): Option<(string, string)> {
    if key <= s && "\"" <= s[|key|..] then ReadString(s[|key| + 1..]) else None
  }

  function ReadNumberField(key: string, s: string): Option<(nat, string)> {
    if key <= s && StartsWithDigit(s[|key|..]) then Some(ReadDigits(0, s[|key|..])) else None
  }

  lemma ReadStringFieldBack(key: string, value: string, rest: string)
    ensures ReadStringField(key, StringField(key, value, rest)) == Some((value, rest))
  {
    hide ReadString, Escape;
    var s := StringField(key, value, rest);
    assert s[|key|..] == "\"" + (Escape(value) + "\"" + rest);
    assert s[|key| + 1..] == Escape(value) + "\"" + rest;
    ReadStringEscape(value, rest);
  }

  lemma {:induction false} DecimalStartsWithDigit(n: nat, rest: string)
    ensures StartsWithDigit(Decimal(n) + rest)
  {
    if n >= 10 {
      DecimalStartsWithDigit(n / 10, ['0' + (n % 10) as char] + rest);
    }
  }

  lemma ReadNumberFieldBack(key: string, value: nat, rest: string)
    requires !StartsWithDigit(rest)
    ensures ReadNumberField(key, NumberField(key, value, rest)) == Some((value, rest))
  {
    hide Decimal;
    var s := NumberField(key, value, rest);
    assert s[|key|..] == Decimal(value) + rest;
    DecimalStartsWithDigit(value, rest);
    ReadDigitsDecimal(value, rest);
  }

  /* ---- Manifests ---- */

  const VERSION_KEY := "{\"firmware_version\":"
  const ID_KEY := ",\"package_id\":"
  const HASH_KEY := ",\"payload_sha256\":"
  const SIZE_KEY := ",\"payload_size\":"
  const SCHEMA_KEY := ",\"schema_version\":"
  const ALGORITHM_KEY := ",\"signature_algorithm\":"

  /** `json.dumps(..., sort_keys=True, separators=(",", ":"), ensure_ascii=False)`. */
  function Text(m: Manifest): string {
    StringField(VERSION_KEY, m.firmwareVersion,
    StringField(ID_KEY, m.packageId,
    StringField(HASH_KEY, m.payloadSha256, TextFromSize(m))))
  }

  function TextFromSize(m: Manifest): string {
    NumberField(SIZE_KEY, m.payloadSize, TextAfterSize(m))
  }

  function TextAfterSize(m: Manifest): string {
    StringField(SCHEMA_KEY, m.schemaVersion,
    StringField(ALGORITHM_KEY, m.signatureAlgorithm, "}"))
  }

  function Quoted(s: string): string {
    "\"" + Escape(s) + "\""
  }

  lemma QuotedField(key: string, value: string, rest: string)
    ensures StringField(key, value, rest) == key + Quoted(value) + rest
  {
    hide Escape;
    assert Quoted(value) + rest == "\"" + (Escape(value) + "\"" + rest);
    assert key + (Quoted(value) + rest) == key + Quoted(value) + rest;
  }

  lemma PlainField(key: string, value: nat, rest: string)
    ensures NumberField(key, value, rest) == key + Decimal(value) + rest
  {
    hide Decimal;
  }

  /** The text, key by key in the order of the keys, without a blank. */
  lemma TextExactly(m: Manifest)
    ensures var algorithm := ",\"signature_algorithm\":" + Quoted(m.signatureAlgorithm) + "}";
            var schema := ",\"schema_version\":" + Quoted(m.schemaVersion) + algorithm;
            var size := ",\"payload_size\":" + Decimal(m.payloadSize) + schema;
            var hash := ",\"payload_sha256\":" + Quoted(m.payloadSha256) + size;
            var id := ",\"package_id\":" + Quoted(m.packageId) + hash;
            Text(m) == "{\"firmware_version\":" + Quoted(m.firmwareVersion) + id
    ensures ManifestBytes(m) == Utf8.Encode(Text(m))
  {
    hide Quoted, Decimal, StringField, NumberField;
    var t5 := StringField(ALGORITHM_KEY, m.signatureAlgorithm, "}");
    var t4 := TextAfterSize(m);
    var t3 := TextFromSize(m);
    var t2 := StringField(HASH_KEY, m.payloadSha256, t3);
    var t1 := StringField(ID_KEY, m.packageId, t2);
    QuotedField(ALGORITHM_KEY, m.signatureAlgorithm, "}");
    QuotedField(SCHEMA_KEY, m.schemaVersion, t5);
    PlainField(SIZE_KEY, m.payloadSize, t4);
    QuotedField(HASH_KEY, m.payloadSha256, t3);
    QuotedField(ID_KEY, m.packageId, t2);
    QuotedField(VERSION_KEY, m.firmwareVersion, t1);
  }

  /** The digits of a number are its digits in base ten, the last one last. */
  lemma DecimalExactly(n: nat)
    ensures n < 10 ==> Decimal(n) == ["0123456789"[n]]
    ensures n >= 10 ==> Decimal(n) == Decimal(n / 10) + ["0123456789"[n % 10]]
  {
  }

  /** The escapes of section 7 of RFC 8259 that `json.dumps` writes, and nothing else is changed. */
  lemma EscapesExactly(c: char)
    ensures EscapeChar('"') == "\\\"" && EscapeChar('\\') == "\\\\"
    ensures EscapeChar('\n') == "\\n" && EscapeChar('\r') == "\\r" && EscapeChar('\t') == "\\t"
    ensures EscapeChar('\U{08}') == "\\b" && EscapeChar('\U{0C}') == "\\f"
    ensures c < ' ' && c !in "\n\r\t\U{08}\U{0C}" ==>
              EscapeChar(c) == "\\u00" + ["0123456789abcdef"[c as int / 16], "0123456789abcdef"[c as int % 16]]
    ensures c >= ' ' && c != '"' && c != '\\' ==> EscapeChar(c) == [c]
  {
    if c < ' ' {
      HexDigits(c as int / 16);
      HexDigits(c as int % 16);
    }
  }

  lemma HexDigits(v: int)
    requires 0 <= v < 16
    ensures HexDigit(v) == "0123456789abcdef"[v]
  {
  }

  function ManifestBytes(m: Manifest): Bytes {
    Utf8.Encode(Text(m))
  }

  function Parse(s: string): Option<Manifest> {
    match ReadStringField(VERSION_KEY, s) { case None => None case Some((version, s1)) =>
    match ReadStringField(ID_KEY, s1) { case None => None case Some((id, s2)) =>
    match ReadStringField(HASH_KEY, s2) { case None => None case Some((hash, s3)) =>
    match ReadNumberField(SIZE_KEY, s3) { case None => None case Some((size, s4)) =>
    match ReadStringField(SCHEMA_KEY, s4) { case None => None case Some((schema, s5)) =>
    match ReadStringField(ALGORITHM_KEY, s5) { case None => None case Some((algorithm, s6)) =>
      if s6 == "}" then Some(Manifest(schema, id, version, hash, size, algorithm)) else None
    } } } } } }
  }

  function ParseBytes(b: Bytes): Option<Manifest> {
    match Utf8.Decode(b)
    case None => None
    case Some(s) => Parse(s)
  }

  lemma ParseText(m: Manifest)
    ensures Parse(Text(m)) == Some(m)
  {
    hide ReadStringField, ReadNumberField, StringField, NumberField;
    var t5 := StringField(ALGORITHM_KEY, m.signatureAlgorithm, "}");
    var t4 := TextAfterSize(m);
    var t3 := TextFromSize(m);
    var t2 := StringField(HASH_KEY, m.payloadSha256, t3);
    var t1 := StringField(ID_KEY, m.packageId, t2);
    ReadStringFieldBack(ALGORITHM_KEY, m.signatureAlgorithm, "}");
    ReadStringFieldBack(SCHEMA_KEY, m.schemaVersion, t5);
    AfterSizeIsNoDigit(m);
    ReadNumberFieldBack(SIZE_KEY, m.payloadSize, t4);
    ReadStringFieldBack(HASH_KEY, m.payloadSha256, t3);
    ReadStringFieldBack(ID_KEY, m.packageId, t2);
    ReadStringFieldBack(VERSION_KEY, m.firmwareVersion, t1);
  }

  lemma AfterSizeIsNoDigit(m: Manifest)
    ensures !StartsWithDigit(TextAfterSize(m))
  {
    assert TextAfterSize(m)[0] == SCHEMA_KEY[0];
  }

  /** The signed bytes determine the manifest: a parser reads it back from them. */
  lemma ParseManifestBytes(m: Manifest)
    ensures ParseBytes(ManifestBytes(m)) == Some(m)
  {
    Utf8.DecodeEncode(Text(m));
    ParseText(m);
  }

  /** Manifests that differ in any field are signed over different bytes. */
  lemma ManifestBytesInjective(m: Manifest, n: Manifest)
    ensures ManifestBytes(m) == ManifestBytes(n) <==> m == n
  {
    ParseManifestBytes(m);
    ParseManifestBytes(n);
  }
}
