/**
  * The premises of the theorems can be met: a record of functions that obeys every law, a genuine
  * demonstration for it, and a bundle that verifies.
  */
module Consistency {
  import opened Prelude
  import opened Canonical
  import opened Evidence
  import opened Library
  import Utf8

  /* ---- An injective text for every document ---- */

  /** A text marked character by character, and what follows it. */
  function Quote(s: string, rest: string): string
    decreases |s|
  {
    if s == "" then "0" + rest else "1" + [s[0]] + Quote(s[1..], rest)
  }

  lemma {:induction false} QuoteInjective(a: string, b: string, x: string, y: string)
    requires Quote(a, x) == Quote(b, y)
    ensures a == b && x == y
    decreases |a|
  {
    assert Quote(a, x)[0] == Quote(b, y)[0];
    if a == "" {
      assert Quote(a, x)[1..] == x && Quote(b, y)[1..] == y;
    } else {
      assert Quote(a, x)[1] == a[0] && Quote(b, y)[1] == b[0];
      assert Quote(a, x)[2..] == Quote(a[1..], x) && Quote(b, y)[2..] == Quote(b[1..], y);
      QuoteInjective(a[1..], b[1..], x, y);
      assert a == [a[0]] + a[1..] && b == [b[0]] + b[1..];
    }
  }

  function Pack(texts: seq<string>): string {
    if texts == [] then "" else Quote(texts[0], Pack(texts[1..]))
  }

  lemma {:induction false} PackInjective(a: seq<string>, b: seq<string>)
    requires Pack(a) == Pack(b)
    ensures a == b
    decreases |a|
  {
    if a != [] && b != [] {
      QuoteInjective(a[0], b[0], Pack(a[1..]), Pack(b[1..]));
      PackInjective(a[1..], b[1..]);
      assert a == [a[0]] + a[1..] && b == [b[0]] + b[1..];
    }
  }

  /** A number as a sign and as many strokes. */
  function Num(n: int): string {
    if n < 0 then "-" + seq(-n, _ => '1') else seq(n, _ => '1')
  }

  lemma NumInjective(m: int, n: int)
    requires Num(m) == Num(n)
    ensures m == n
  {
    assert m < 0 ==> Num(m)[0] == '-' && |Num(m)| == 1 - m;
    assert m > 0 ==> Num(m)[0] == '1';
    assert n < 0 ==> Num(n)[0] == '-' && |Num(n)| == 1 - n;
    assert n > 0 ==> Num(n)[0] == '1';
  }

  function OfOption(o: Option<string>): string {
    if o.None? then Pack([]) else Pack([o.value])
  }

  function OfState(s: DeviceState): string {
    Pack([s.firmwareVersion, Num(s.updateCounter), OfOption(s.lastPayload)])
  }

  lemma StateInjective(a: DeviceState, b: DeviceState)
    requires OfState(a) == OfState(b)
    ensures a == b
  {
    hide Pack, Num;
    var s := [a.firmwareVersion, Num(a.updateCounter), OfOption(a.lastPayload)];
    var t := [b.firmwareVersion, Num(b.updateCounter), OfOption(b.lastPayload)];
    PackInjective(s, t);
    assert s[0] == t[0] && s[1] == t[1] && s[2] == t[2];
    NumInjective(a.updateCounter, b.updateCounter);
    OptionInjective(a.lastPayload, b.lastPayload);
  }

  lemma OptionInjective(a: Option<string>, b: Option<string>)
    requires OfOption(a) == OfOption(b)
    ensures a == b
  {
    hide Pack;
    var s, t := if a.None? then [] else [a.value], if b.None? then [] else [b.value];
    PackInjective(s, t);
    assert |s| == |t| && (|s| == 1 ==> s[0] == t[0]);
  }

  /* ---- JSON values ---- */

  ghost function KeyList(keys: set<string>): (list: seq<string>)
    ensures forall k :: k in list <==> k in keys
  {
    if keys == {} then [] else
      var k :| k in keys;
      [k] + KeyList(keys - {k})
  }

  ghost function OfJson(j: Json): string
    decreases j, 0
  {
    match j
    case JNull => Pack(["n"])
    case JBool(b) => Pack(["b", if b then "1" else "0"])
    case JInt(n) => Pack(["i", Num(n)])
    case JFloat(d) => Pack(["f", Num(d.0), Num(d.1)])
    case JString(s) => Pack(["s", s])
    case JArray(items) => Pack(["a", Pack(seq(|items|, i requires 0 <= i < |items| => OfJson(items[i])))])
    case JObject(fields) =>
      var keys := KeyList(fields.Keys);
      Pack(["o", Pack(keys), Pack(seq(|keys|, i requires 0 <= i < |keys| => OfJson(fields[keys[i]])))])
  }

  lemma TagOf(a: Json, b: Json)
    requires OfJson(a) == OfJson(b)
    ensures (a.JNull? <==> b.JNull?) && (a.JBool? <==> b.JBool?) && (a.JInt? <==> b.JInt?) && (a.JFloat? <==> b.JFloat?)
    ensures (a.JString? <==> b.JString?) && (a.JArray? <==> b.JArray?) && (a.JObject? <==> b.JObject?)
  {
    hide Pack, Num, KeyList;
    var s, t := Parts(a), Parts(b);
    PackInjective(s, t);
    assert s[0] == t[0];
    assert s[0][0] == t[0][0];
  }

  /** What a JSON value's text is packed from. */
  ghost function Parts(j: Json): (p: seq<string>)
    ensures OfJson(j) == Pack(p) && p != [] && |p[0]| == 1
    ensures p[0][0] == match j
                       case JNull => 'n'
                       case JBool(_) => 'b'
                       case JInt(_) => 'i'
                       case JFloat(_) => 'f'
                       case JString(_) => 's'
                       case JArray(_) => 'a'
                       case JObject(_) => 'o'
  {
    match j
    case JNull => ["n"]
    case JBool(b) => ["b", if b then "1" else "0"]
    case JInt(n) => ["i", Num(n)]
    case JFloat(d) => ["f", Num(d.0), Num(d.1)]
    case JString(s) => ["s", s]
    case JArray(items) => ["a", Pack(seq(|items|, i requires 0 <= i < |items| => OfJson(items[i])))]
    case JObject(fields) =>
      var keys := KeyList(fields.Keys);
      ["o", Pack(keys), Pack(seq(|keys|, i requires 0 <= i < |keys| => OfJson(fields[keys[i]])))]
  }

  lemma {:induction false} JsonInjective(a: Json, b: Json)
    requires OfJson(a) == OfJson(b)
    ensures a == b
    decreases a
  {
    TagOf(a, b);
    hide Pack, Num, KeyList, OfJson;
    var s, t := Parts(a), Parts(b);
    PackInjective(s, t);
    match a
    case JNull =>
    case JBool(x) => assert s[1][0] == t[1][0];
    case JInt(n) => assert s[1] == t[1]; NumInjective(n, b.number);
    case JFloat(d) =>
      assert s[1] == t[1] && s[2] == t[2];
      NumInjective(d.0, b.double.0);
      NumInjective(d.1, b.double.1);
    case JString(x) => assert s[1] == t[1];
    case JArray(xs) =>
      assert s[1] == t[1];
      var p := seq(|xs|, i requires 0 <= i < |xs| => OfJson(xs[i]));
      var q := seq(|b.items|, i requires 0 <= i < |b.items| => OfJson(b.items[i]));
      PackInjective(p, q);
      assert |p| == |q|;
      forall i | 0 <= i < |xs| ensures xs[i] == b.items[i] {
        assert p[i] == q[i];
        JsonInjective(xs[i], b.items[i]);
      }
      assert xs == b.items;
    case JObject(m) =>
      var n := b.fields;
      assert s[1] == t[1] && s[2] == t[2];
      var keys := KeyList(m.Keys);
      PackInjective(keys, KeyList(n.Keys));
      assert m.Keys == n.Keys;
      var p := seq(|keys|, i requires 0 <= i < |keys| => OfJson(m[keys[i]]));
      var q := seq(|keys|, i requires 0 <= i < |keys| => OfJson(n[keys[i]]));
      PackInjective(p, q);
      forall k | k in m ensures m[k] == n[k] {
        var i :| 0 <= i < |keys| && keys[i] == k;
        assert p[i] == q[i];
        JsonInjective(m[k], n[k]);
      }
      assert m == n;
  }

  /* ---- Records ---- */

  function RoleTag(r: Role): string {
    match r case Vulnerable => "v" case Patched => "p" case PositiveControl => "c"
  }

  function DecisionTag(d: Decision): string {
    match d case Accepted => "a" case Rejected => "r" case Error => "e"
  }

  function VerdictTag(v: Verdict): string {
    match v case Pass => "p" case Fail => "f" case NoVerdict => "n"
  }

  function OutcomeTag(o: Outcome): string {
    match o case PatchVerified => "v" case PatchNotVerified => "n" case Inconclusive => "i"
  }

  lemma TagsInjective()
    ensures forall a, b | RoleTag(a) == RoleTag(b) :: a == b
    ensures forall a, b | DecisionTag(a) == DecisionTag(b) :: a == b
    ensures forall a, b | VerdictTag(a) == VerdictTag(b) :: a == b
    ensures forall a, b | OutcomeTag(a) == OutcomeTag(b) :: a == b
  {
    forall a, b | RoleTag(a) == RoleTag(b) ensures a == b {
      assert RoleTag(a)[0] == RoleTag(b)[0];
    }
    forall a, b | DecisionTag(a) == DecisionTag(b) ensures a == b {
      assert DecisionTag(a)[0] == DecisionTag(b)[0];
    }
    forall a, b | VerdictTag(a) == VerdictTag(b) ensures a == b {
      assert VerdictTag(a)[0] == VerdictTag(b)[0];
    }
    forall a, b | OutcomeTag(a) == OutcomeTag(b) ensures a == b {
      assert OutcomeTag(a)[0] == OutcomeTag(b)[0];
    }
  }

  /** What a raw record's text is packed from. */
  ghost function RawFields(r: RawScenarioRecord): seq<string> {
    [r.executionId, RoleTag(r.role), r.startedAt, r.finishedAt, if r.resetConfirmed then "1" else "0",
     r.requestBodySha256, OfJson(JObject(r.gatewayResponse)), OfState(r.before), OfState(r.after)]
  }

  lemma RawInjective(a: RawScenarioRecord, b: RawScenarioRecord)
    requires Pack(RawFields(a)) == Pack(RawFields(b))
    ensures a == b
  {
    hide Pack, OfJson, OfState, RoleTag;
    var s, t := RawFields(a), RawFields(b);
    PackInjective(s, t);
    assert s[0] == t[0] && s[1] == t[1] && s[2] == t[2] && s[3] == t[3] && s[4] == t[4] && s[5] == t[5];
    assert s[6] == t[6] && s[7] == t[7] && s[8] == t[8];
    assert a.resetConfirmed == b.resetConfirmed by { assert s[4][0] == t[4][0]; }
    TagsInjective();
    JsonInjective(JObject(a.gatewayResponse), JObject(b.gatewayResponse));
    StateInjective(a.before, b.before);
    StateInjective(a.after, b.after);
  }

  function ArtifactFields(r: ArtifactRecord): seq<string> {
    [r.path, r.sha256, Num(r.sizeBytes), r.mediaType]
  }

  function ListOf(rs: seq<ArtifactRecord>): string {
    Pack(seq(|rs|, i requires 0 <= i < |rs| => Pack(ArtifactFields(rs[i]))))
  }

  lemma ArtifactInjective(a: ArtifactRecord, b: ArtifactRecord)
    requires Pack(ArtifactFields(a)) == Pack(ArtifactFields(b))
    ensures a == b
  {
    hide Pack, Num;
    var s, t := ArtifactFields(a), ArtifactFields(b);
    PackInjective(s, t);
    assert s[0] == t[0] && s[1] == t[1] && s[2] == t[2] && s[3] == t[3];
    NumInjective(a.sizeBytes, b.sizeBytes);
  }

  lemma ListInjective(a: seq<ArtifactRecord>, b: seq<ArtifactRecord>)
    requires ListOf(a) == ListOf(b)
    ensures a == b
  {
    hide Pack, ArtifactFields;
    var s := seq(|a|, i requires 0 <= i < |a| => Pack(ArtifactFields(a[i])));
    var t := seq(|b|, i requires 0 <= i < |b| => Pack(ArtifactFields(b[i])));
    PackInjective(s, t);
    assert |s| == |t|;
    forall i | 0 <= i < |a| ensures a[i] == b[i] {
      assert s[i] == t[i];
      ArtifactInjective(a[i], b[i]);
    }
  }

  function ExecutionFields(x: ExecutionEvidence): seq<string> {
    [x.executionId, RoleTag(x.role), x.buildId, x.startedAt, x.finishedAt,
     x.package.filename, x.package.sha256, x.package.envelopeSha256, x.package.signerFingerprint,
     if x.package.signerTrust == Trusted then "1" else "0",
     x.requestBodySha256,
     Num(x.response.httpStatus), DecisionTag(x.response.decision), x.response.reasonCode, x.response.bodySha256,
     OfState(x.before), OfState(x.after),
     DecisionTag(x.secureExpectedDecision), DecisionTag(x.observedDecision), VerdictTag(x.securityVerdict),
     ListOf(x.artifacts)]
  }

  lemma ExecutionInjective(a: ExecutionEvidence, b: ExecutionEvidence)
    requires Pack(ExecutionFields(a)) == Pack(ExecutionFields(b))
    ensures a == b
  {
    hide Pack, Num, OfState, RoleTag, DecisionTag, VerdictTag, ListOf;
    var s, t := ExecutionFields(a), ExecutionFields(b);
    PackInjective(s, t);
    assert s[0] == t[0] && s[1] == t[1] && s[2] == t[2] && s[3] == t[3] && s[4] == t[4] && s[5] == t[5] && s[6] == t[6];
    assert s[7] == t[7] && s[8] == t[8] && s[9] == t[9] && s[10] == t[10] && s[11] == t[11] && s[12] == t[12];
    assert s[13] == t[13] && s[14] == t[14] && s[15] == t[15] && s[16] == t[16] && s[17] == t[17] && s[18] == t[18];
    assert s[19] == t[19] && s[20] == t[20];
    assert a.package.signerTrust == b.package.signerTrust by { assert s[9][0] == t[9][0]; }
    TagsInjective();
    NumInjective(a.response.httpStatus, b.response.httpStatus);
    StateInjective(a.before, b.before);
    StateInjective(a.after, b.after);
    ListInjective(a.artifacts, b.artifacts);
    assert a.package == b.package && a.response == b.response;
  }

  function CaseFields(c: TestCase): seq<string> {
    [c.caseId, c.title, c.securityProperty, c.positiveControlCaseId]
  }

  lemma CaseInjective(a: TestCase, b: TestCase)
    requires Pack(CaseFields(a)) == Pack(CaseFields(b))
    ensures a == b
  {
    hide Pack;
    var s, t := CaseFields(a), CaseFields(b);
    PackInjective(s, t);
    assert s[0] == t[0] && s[1] == t[1] && s[2] == t[2] && s[3] == t[3];
  }

  function EvidenceFields(e: EvidenceDocument): seq<string> {
    [e.verificationId, e.createdAt, Pack(CaseFields(e.testCase)),
     Pack(seq(|e.executions|, i requires 0 <= i < |e.executions| => Pack(ExecutionFields(e.executions[i])))),
     OutcomeTag(e.outcome), ListOf(e.bundleFiles)]
  }

  lemma EvidenceInjective(a: EvidenceDocument, b: EvidenceDocument)
    requires Pack(EvidenceFields(a)) == Pack(EvidenceFields(b))
    ensures a == b
  {
    hide Pack, OutcomeTag, ListOf, ExecutionFields, CaseFields;
    var s, t := EvidenceFields(a), EvidenceFields(b);
    PackInjective(s, t);
    assert s[0] == t[0] && s[1] == t[1] && s[2] == t[2] && s[3] == t[3] && s[4] == t[4] && s[5] == t[5];
    TagsInjective();
    CaseInjective(a.testCase, b.testCase);
    ListInjective(a.bundleFiles, b.bundleFiles);
    var p := seq(|a.executions|, i requires 0 <= i < |a.executions| => Pack(ExecutionFields(a.executions[i])));
    var q := seq(|b.executions|, i requires 0 <= i < |b.executions| => Pack(ExecutionFields(b.executions[i])));
    PackInjective(p, q);
    assert |p| == |q|;
    forall i | 0 <= i < |a.executions| ensures a.executions[i] == b.executions[i] {
      assert p[i] == q[i];
      ExecutionInjective(a.executions[i], b.executions[i]);
    }
    assert a.executions == b.executions;
  }

  function EnvelopeFields(e: PackageEnvelope): seq<string> {
    [Text(e.manifest), e.payloadB64, e.signerPublicKeyB64, e.signerFingerprint, e.signatureB64]
  }

  lemma EnvelopeInjective(a: PackageEnvelope, b: PackageEnvelope)
    requires Pack(EnvelopeFields(a)) == Pack(EnvelopeFields(b))
    ensures a == b
  {
    hide Pack, Text, Parse;
    var s, t := EnvelopeFields(a), EnvelopeFields(b);
    PackInjective(s, t);
    assert s[0] == t[0] && s[1] == t[1] && s[2] == t[2] && s[3] == t[3] && s[4] == t[4];
    ParseText(a.manifest);
    ParseText(b.manifest);
  }

  function EntryFields(e: ManifestEntry): seq<string> {
    [e.path, e.sha256, Num(e.sizeBytes)]
  }

  function ManifestFields(m: BundleManifest): seq<string> {
    seq(|m|, i requires 0 <= i < |m| => Pack(EntryFields(m[i])))
  }

  lemma ManifestInjective(a: BundleManifest, b: BundleManifest)
    requires Pack(ManifestFields(a)) == Pack(ManifestFields(b))
    ensures a == b
  {
    hide Pack, Num;
    PackInjective(ManifestFields(a), ManifestFields(b));
    assert |a| == |ManifestFields(a)| == |b|;
    forall i | 0 <= i < |a| ensures a[i] == b[i] {
      assert ManifestFields(a)[i] == ManifestFields(b)[i];
      var s, t := EntryFields(a[i]), EntryFields(b[i]);
      PackInjective(s, t);
      assert s[0] == t[0] && s[1] == t[1] && s[2] == t[2];
      NumInjective(a[i].sizeBytes, b[i].sizeBytes);
    }
  }

  /* ---- A record of functions that obeys every law ---- */

  function Written(fields: seq<string>): Bytes {
    Utf8.Encode(Pack(fields))
  }

  lemma WrittenInjective(a: seq<string>, b: seq<string>)
    requires Written(a) == Written(b)
    ensures Pack(a) == Pack(b)
  {
    hide Utf8.Encode, Utf8.Decode, Pack;
    Utf8.DecodeEncode(Pack(a));
    Utf8.DecodeEncode(Pack(b));
  }

  ghost function ReadEnvelope(b: Bytes): Option<PackageEnvelope> {
    if exists e :: ValidEnvelope(e) && Written(EnvelopeFields(e)) == b then
      var e :| ValidEnvelope(e) && Written(EnvelopeFields(e)) == b;
      Some(e)
    else None
  }

  ghost function ReadManifest(b: Bytes): Option<BundleManifest> {
    if exists m :: ValidBundleManifest(m) && Written(ManifestFields(m)) == b then
      var m :| ValidBundleManifest(m) && Written(ManifestFields(m)) == b;
      Some(m)
    else None
  }

  predicate Readable(r: RawScenarioRecord) {
    ValidRawRecord(r) && NestedWithin(JObject(r.gatewayResponse), 200)
  }

  ghost function ReadRaw(b: Bytes): Option<RawScenarioRecord> {
    if exists r :: Readable(r) && Written(RawFields(r)) == b then
      var r :| Readable(r) && Written(RawFields(r)) == b;
      Some(r)
    else None
  }

  ghost function ReadEvidence(b: Bytes): Option<EvidenceDocument> {
    if exists e :: ValidEvidence(e) && Written(EvidenceFields(e)) == b then
      var e :| ValidEvidence(e) && Written(EvidenceFields(e)) == b;
      Some(e)
    else None
  }

  ghost function Sample(): Functions {
    Functions(
      sha256 := (b: Bytes) => seq(64, _ => if b == [] then '0' else '0' + (b[0] as int % 10) as char),
      publicKey := (k: Bytes) => seq(32, _ => if k == [] then 0 else k[0]),
      sign := (k: Bytes, m: Bytes) => seq(64, _ => 0),
      verify := (k: Bytes, m: Bytes, s: Bytes) => true,
      loadPem := (b: Bytes) => Some(b),
      printEnvelope := (e: PackageEnvelope) => Written(EnvelopeFields(e)),
      parseEnvelope := (b: Bytes) => ReadEnvelope(b),
      printManifest := (m: BundleManifest) => Written(ManifestFields(m)),
      parseManifest := (b: Bytes) => ReadManifest(b),
      printRaw := (r: RawScenarioRecord) => Written(RawFields(r)),
      parseRaw := (b: Bytes) => ReadRaw(b),
      maxDepth := 200,
      printEvidence := (e: EvidenceDocument) => Written(EvidenceFields(e)),
      isStrictJson := (b: Bytes) => true,
      isNull := (b: Bytes) => b == NULL_TEXT,
      meetsSchema := (b: Bytes) => true,
      parseEvidence := (b: Bytes) => ReadEvidence(b))
  }

  lemma SampleEnvelopes()
    ensures EnvelopeLaw(Sample())
  {
    hide Written, EnvelopeFields, ValidEnvelope;
    forall e | ValidEnvelope(e) ensures ReadEnvelope(Written(EnvelopeFields(e))) == Some(e) {
      var r := ReadEnvelope(Written(EnvelopeFields(e)));
      WrittenInjective(EnvelopeFields(r.value), EnvelopeFields(e));
      EnvelopeInjective(r.value, e);
    }
  }

  lemma SampleManifests()
    ensures ManifestLaw(Sample())
  {
    hide Written, ManifestFields, ValidBundleManifest;
    forall m | ValidBundleManifest(m) ensures ReadManifest(Written(ManifestFields(m))) == Some(m) {
      var r := ReadManifest(Written(ManifestFields(m)));
      WrittenInjective(ManifestFields(r.value), ManifestFields(m));
      ManifestInjective(r.value, m);
    }
  }

  lemma SampleRaws()
    ensures RawLaw(Sample())
  {
    hide Written, RawFields, ValidRawRecord, NestedWithin;
    forall r | ValidRawRecord(r) ensures ReadRaw(Written(RawFields(r))) == if Readable(r) then Some(r) else None {
      var q := ReadRaw(Written(RawFields(r)));
      if q.Some? {
        WrittenInjective(RawFields(q.value), RawFields(r));
        RawInjective(q.value, r);
      }
    }
  }

  /** The bytes of `null`. */
  const NULL_TEXT: Bytes := [110, 117, 108, 108]

  lemma WrittenIsNotNull(fields: seq<string>)
    requires fields != []
    ensures Written(fields) != NULL_TEXT
  {
    var s := Pack(fields);
    assert s[0] == '0' || s[0] == '1';
    assert Written(fields)[0] == Utf8.EncodeChar(s[0])[0];
  }

  lemma SampleEvidence()
    ensures EvidenceLaw(Sample())
  {
    hide Written, EvidenceFields, ValidEvidence;
    forall e | ValidEvidence(e) ensures ReadEvidence(Written(EvidenceFields(e))) == Some(e) {
      var r := ReadEvidence(Written(EvidenceFields(e)));
      WrittenInjective(EvidenceFields(r.value), EvidenceFields(e));
      EvidenceInjective(r.value, e);
    }
    if e :| ValidEvidence(e) && Written(EvidenceFields(e)) == NULL_TEXT {
      SixFields(e);
      WrittenIsNotNull(EvidenceFields(e));
    }
  }

  lemma SixFields(e: EvidenceDocument)
    ensures EvidenceFields(e) != []
  {
  }

  lemma SampleHashes()
    ensures HashLaw(Sample()) && SignatureLaw(Sample())
  {
  }

  /** The laws of the library can all hold at once. */
  lemma LawsAreConsistent() returns (f: Functions)
    ensures Lawful(f)
    ensures f.publicKey([0]) != f.publicKey([1]) && f.sha256(f.publicKey([0])) != f.sha256(f.publicKey([1]))
    ensures forall b :: f.loadPem(b) == Some(b) && f.meetsSchema(b)
    ensures f.isNull(NULL_TEXT)
  {
    f := Sample();
    SampleHashes();
    SampleEnvelopes();
    SampleManifests();
    SampleRaws();
    SampleEvidence();
    assert f.publicKey([0])[0] != f.publicKey([1])[0];
    assert f.sha256(f.publicKey([0]))[0] == '0' && f.sha256(f.publicKey([1]))[0] == '1';
    hide EnvelopeLaw, ManifestLaw, RawLaw, EvidenceLaw, HashLaw, SignatureLaw;
  }
}
