/** The strict evidence records, and the JSON documents raw gateway replies are kept as. */
module Evidence {
  import opened Prelude

  datatype Role = Vulnerable | Patched | PositiveControl

  datatype Decision = Accepted | Rejected | Error

  datatype Verdict = Pass | Fail | NoVerdict

  datatype Outcome = PatchVerified | PatchNotVerified | Inconclusive

  datatype SignerTrust = Trusted | Untrusted

  /** What the device reports: `DeviceState` and `DeviceStateEvidence` have the same fields. */
  datatype DeviceState = DeviceState(firmwareVersion: string, updateCounter: nat, lastPayload: Option<string>)

  const INITIAL_VERSION := "1.0.0"
  const UNTRUSTED_VERSION := "9.9.0-test"
  const TRUSTED_VERSION := "1.1.0"
  const INITIAL_STATE := DeviceState(INITIAL_VERSION, 0, None)

  datatype PackageEvidence = PackageEvidence(
    filename: string,
    sha256: string,
    envelopeSha256: string,
    signerFingerprint: string,
    signerTrust: SignerTrust)

  datatype ResponseEvidence = ResponseEvidence(
    httpStatus: int,
    decision: Decision,
    reasonCode: string,
    bodySha256: string)

  datatype ArtifactRecord = ArtifactRecord(path: string, sha256: string, sizeBytes: nat, mediaType: string)

  /** The request's method, path and content type are constants of the format; only its body varies. */
  datatype ExecutionEvidence = ExecutionEvidence(
    executionId: string,
    role: Role,
    buildId: string,
    startedAt: string,
    finishedAt: string,
    package: PackageEvidence,
    requestBodySha256: string,
    response: ResponseEvidence,
    before: DeviceState,
    after: DeviceState,
    secureExpectedDecision: Decision,
    observedDecision: Decision,
    securityVerdict: Verdict,
    artifacts: seq<ArtifactRecord>)

  datatype TestCase = TestCase(caseId: string, title: string, securityProperty: string, positiveControlCaseId: string)

  datatype EvidenceDocument = EvidenceDocument(
    verificationId: string,
    createdAt: string,
    testCase: TestCase,
    executions: seq<ExecutionEvidence>,
    outcome: Outcome,
    bundleFiles: seq<ArtifactRecord>)

  /* ---- Field constraints ---- */

  /** A fixed-width pattern: '#' stands for a digit, '%' for a lower-case hex digit, anything else for itself. */
  predicate Follows(shape: string, s: string) {
    |s| == |shape| && forall i | 0 <= i < |s| ::
      if shape[i] == '#' then '0' <= s[i] <= '9' else if shape[i] == '%' then IsLowerHex(s[i]) else s[i] == shape[i]
  }

  predicate Digit(c: char) {
    c in "0123456789"
  }

  /** Dates and times of the one form the models take, to the millisecond and in UTC. */
  lemma TimeStampExactly(s: string)
    ensures Follows(UTC_SHAPE, s) <==>
            && |s| == 24 && s[4] == s[7] == '-' && s[10] == 'T' && s[13] == s[16] == ':' && s[19] == '.' && s[23] == 'Z'
            && forall i | 0 <= i < 24 && i !in {4, 7, 10, 13, 16, 19, 23} :: Digit(s[i])
  {
  }

  const UTC_SHAPE := "####-##-##T##:##:##.###Z"
  const VERIFICATION_ID_SHAPE := "FR-########T#########Z-%%%%%%%%"

  function RoleText(r: Role): string {
    match r
    case Vulnerable => "VULNERABLE"
    case Patched => "PATCHED"
    case PositiveControl => "POSITIVE_CONTROL"
  }

  /** An execution id names one of the roles; the model does not ask that it is the execution's own. */
  predicate IsExecutionId(s: string) {
    exists r :: Follows("EX-" + RoleText(r) + "-%%%%%%%%", s)
  }

  /** The id and the two time stamps an execution and its raw record share. */
  predicate ValidStamps(executionId: string, startedAt: string, finishedAt: string) {
    IsExecutionId(executionId) && Follows(UTC_SHAPE, startedAt) && Follows(UTC_SHAPE, finishedAt)
  }

  predicate ValidTestCase(c: TestCase) {
    1 <= |c.caseId| <= 128 && 1 <= |c.title| <= 240 && 1 <= |c.securityProperty| <= 500 && 1 <= |c.positiveControlCaseId| <= 128
  }

  predicate ValidState(s: DeviceState) {
    1 <= |s.firmwareVersion| <= 64 && (s.lastPayload.Some? ==> IsSha256(s.lastPayload.value))
  }

  predicate ValidArtifact(r: ArtifactRecord) {
    1 <= |r.path| <= 500 && IsSha256(r.sha256) && 1 <= |r.mediaType| <= 128
  }

  predicate ValidPackageEvidence(p: PackageEvidence) {
    1 <= |p.filename| <= 255 && IsSha256(p.sha256) && IsSha256(p.envelopeSha256) && IsSha256(p.signerFingerprint)
  }

  predicate ValidResponse(r: ResponseEvidence) {
    100 <= r.httpStatus <= 599 && 1 <= |r.reasonCode| <= 128 && IsSha256(r.bodySha256)
  }

  /** `decisions_agree` and the field constraints of an execution. */
  predicate ValidExecution(x: ExecutionEvidence) {
    && ValidStamps(x.executionId, x.startedAt, x.finishedAt)
    && 1 <= |x.buildId| <= 128
    && ValidPackageEvidence(x.package)
    && IsSha256(x.requestBodySha256)
    && ValidResponse(x.response)
    && ValidState(x.before) && ValidState(x.after)
    && x.observedDecision == x.response.decision
    && x.artifacts != []
    && forall i | 0 <= i < |x.artifacts| :: ValidArtifact(x.artifacts[i])
  }

  /** How many executions carry a role. */
  function RoleCount(xs: seq<ExecutionEvidence>, role: Role): nat {
    if xs == [] then 0 else (if xs[0].role == role then 1 else 0) + RoleCount(xs[1..], role)
  }

  predicate OnePerRole(xs: seq<ExecutionEvidence>) {
    |xs| == 3 && RoleCount(xs, Vulnerable) == RoleCount(xs, Patched) == RoleCount(xs, PositiveControl) == 1
  }

  /** `one_execution_per_role` and the field constraints of a document. */
  predicate ValidEvidence(e: EvidenceDocument) {
    && Follows(VERIFICATION_ID_SHAPE, e.verificationId) && Follows(UTC_SHAPE, e.createdAt)
    && ValidTestCase(e.testCase)
    && OnePerRole(e.executions)
    && (forall i | 0 <= i < 3 :: ValidExecution(e.executions[i]))
    && |e.bundleFiles| == 7
    && forall i | 0 <= i < 7 :: ValidArtifact(e.bundleFiles[i])
  }

  /** The fields of an execution's parts, with their bounds written out. */
  lemma ExecutionModel(x: ExecutionEvidence)
    ensures ValidExecution(x) <==>
            && IsExecutionId(x.executionId) && Follows(UTC_SHAPE, x.startedAt) && Follows(UTC_SHAPE, x.finishedAt)
            && 1 <= |x.buildId| <= 128
            && 1 <= |x.package.filename| <= 255
            && IsSha256(x.package.sha256) && IsSha256(x.package.envelopeSha256) && IsSha256(x.package.signerFingerprint)
            && IsSha256(x.requestBodySha256)
            && 100 <= x.response.httpStatus <= 599 && 1 <= |x.response.reasonCode| <= 128 && IsSha256(x.response.bodySha256)
            && 1 <= |x.before.firmwareVersion| <= 64 && (x.before.lastPayload.Some? ==> IsSha256(x.before.lastPayload.value))
            && 1 <= |x.after.firmwareVersion| <= 64 && (x.after.lastPayload.Some? ==> IsSha256(x.after.lastPayload.value))
            && x.observedDecision == x.response.decision
            && x.artifacts != []
            && forall i | 0 <= i < |x.artifacts| ::
                 1 <= |x.artifacts[i].path| <= 500 && IsSha256(x.artifacts[i].sha256) && 1 <= |x.artifacts[i].mediaType| <= 128
  {
    hide IsSha256, Follows, IsExecutionId;
  }

  /** Those of a document, whose executions are one of each role. */
  lemma DocumentModel(e: EvidenceDocument)
    ensures ValidEvidence(e) <==>
            && Follows("FR-########T#########Z-%%%%%%%%", e.verificationId) && Follows("####-##-##T##:##:##.###Z", e.createdAt)
            && 1 <= |e.testCase.caseId| <= 128 && 1 <= |e.testCase.title| <= 240
            && 1 <= |e.testCase.securityProperty| <= 500 && 1 <= |e.testCase.positiveControlCaseId| <= 128
            && |e.executions| == 3 && (forall role :: RoleCount(e.executions, role) == 1)
            && (forall i | 0 <= i < 3 :: ValidExecution(e.executions[i]))
            && |e.bundleFiles| == 7
            && forall i | 0 <= i < 7 ::
                 1 <= |e.bundleFiles[i].path| <= 500 && IsSha256(e.bundleFiles[i].sha256) && 1 <= |e.bundleFiles[i].mediaType| <= 128
  {
    hide IsSha256, Follows, ValidExecution, RoleCount;
    EveryRole(e.executions);
  }

  lemma EveryRole(xs: seq<ExecutionEvidence>)
    ensures (forall role :: RoleCount(xs, role) == 1) <==>
            RoleCount(xs, Vulnerable) == 1 && RoleCount(xs, Patched) == 1 && RoleCount(xs, PositiveControl) == 1
  {
    hide RoleCount;
    if RoleCount(xs, Vulnerable) == RoleCount(xs, Patched) == RoleCount(xs, PositiveControl) == 1 {
      forall role: Role ensures RoleCount(xs, role) == 1 {
        match role case Vulnerable => case Patched => case PositiveControl =>
      }
    }
  }

  /** Those of a raw record. */
  lemma RawModel(r: RawScenarioRecord)
    ensures ValidRawRecord(r) <==>
            && IsExecutionId(r.executionId) && Follows(UTC_SHAPE, r.startedAt) && Follows(UTC_SHAPE, r.finishedAt)
            && IsSha256(r.requestBodySha256)
            && 1 <= |r.before.firmwareVersion| <= 64 && (r.before.lastPayload.Some? ==> IsSha256(r.before.lastPayload.value))
            && 1 <= |r.after.firmwareVersion| <= 64 && (r.after.lastPayload.Some? ==> IsSha256(r.after.lastPayload.value))
  {
    hide IsSha256, Follows, IsExecutionId;
  }

  /* ---- Raw gateway documents ---- */

  function Two(n: nat): nat {
    if n == 0 then 1 else 2 * Two(n - 1)
  }

  /** A finite double: zero, or an odd mantissa of at most 53 bits times a power of two within range. */
  type Double = d: (int, int) |
    || d == (0, 0)
    || (d.0 % 2 != 0 && -1074 <= d.1 < 1024 && d.0 < Two(53) && -d.0 < Two(53)
        && (d.1 > 971 ==> d.0 < Two(1024 - d.1) && -d.0 < Two(1024 - d.1)))
    witness (0, 0)

  datatype Json =
    | JNull
    | JBool(flag: bool)
    | JInt(number: int)
    | JFloat(double: Double)
    | JString(text: string)
    | JArray(items: seq<Json>)
    | JObject(fields: map<string, Json>)

  type Document = map<string, Json>

  /** At most so many arrays and objects inside one another. */
  predicate NestedWithin(j: Json, depth: nat)
    decreases j
  {
    match j
    case JArray(items) => depth > 0 && forall i | 0 <= i < |items| :: NestedWithin(items[i], depth - 1)
    case JObject(fields) => depth > 0 && forall k | k in fields :: NestedWithin(fields[k], depth - 1)
    case _ => true
  }

  lemma {:induction false} NestedWithinMore(j: Json, depth: nat, more: nat)
    requires NestedWithin(j, depth) && depth <= more
    ensures NestedWithin(j, more)
    decreases j
  {
    match j
    case JArray(items) =>
      forall i | 0 <= i < |items| ensures NestedWithin(items[i], more - 1) {
        NestedWithinMore(items[i], depth - 1, more - 1);
      }
    case JObject(fields) =>
      forall k | k in fields ensures NestedWithin(fields[k], more - 1) {
        NestedWithinMore(fields[k], depth - 1, more - 1);
      }
    case _ =>
  }

  function PowerOfTwo(e: int): real
    decreases if e < 0 then -e else e
  {
    if e == 0 then 1.0 else if e > 0 then 2.0 * PowerOfTwo(e - 1) else PowerOfTwo(e + 1) / 2.0
  }

  /** Python compares booleans, integers and floats by their numeric value. */
  function Numeric(j: Json): Option<real> {
    match j
    case JBool(b) => Some(if b then 1.0 else 0.0)
    case JInt(n) => Some(n as real)
    case JFloat(d) => Some(d.0 as real * PowerOfTwo(d.1))
    case _ => None
  }

  /** `==` on parsed JSON. */
  predicate PyEqual(a: Json, b: Json)
    decreases a
  {
    match a
    case JArray(xs) => b.JArray? && |xs| == |b.items| && forall i | 0 <= i < |xs| :: PyEqual(xs[i], b.items[i])
    case JObject(m) => b.JObject? && m.Keys == b.fields.Keys && forall k | k in m :: PyEqual(m[k], b.fields[k])
    case _ => if Numeric(a).Some? then Numeric(b) == Numeric(a) else a == b
  }

  /** `model_dump(mode="json")` of a device state. */
  function DumpState(s: DeviceState): Document {
    map["firmware_version" := JString(s.firmwareVersion),
        "update_counter" := JInt(s.updateCounter),
        "last_payload_sha256" := if s.lastPayload.None? then JNull else JString(s.lastPayload.value)]
  }

  /** The names the fields of a dumped state have. */
  lemma DumpExactly(s: DeviceState)
    ensures var d := DumpState(s);
            && d.Keys == {"firmware_version", "update_counter", "last_payload_sha256"}
            && d["firmware_version"] == JString(s.firmwareVersion) && d["update_counter"] == JInt(s.updateCounter)
            && d["last_payload_sha256"] == match s.lastPayload { case None => JNull case Some(p) => JString(p) }
  {
  }

  /** The counter a dumped state carries decides whether two dumps can be equal. */
  lemma DumpsEqual(s: DeviceState, t: DeviceState)
    ensures PyEqual(JObject(DumpState(s)), JObject(DumpState(t))) <==> s == t
  {
    var m, n := DumpState(s), DumpState(t);
    if PyEqual(JObject(m), JObject(n)) {
      assert PyEqual(m["firmware_version"], n["firmware_version"]);
      assert PyEqual(m["update_counter"], n["update_counter"]);
      assert PyEqual(m["last_payload_sha256"], n["last_payload_sha256"]);
    }
  }

  function DecisionText(d: Decision): string {
    match d
    case Accepted => "ACCEPTED"
    case Rejected => "REJECTED"
    case Error => "ERROR"
  }

  datatype RawScenarioRecord = RawScenarioRecord(
    executionId: string,
    role: Role,
    startedAt: string,
    finishedAt: string,
    resetConfirmed: bool,
    requestBodySha256: string,
    gatewayResponse: Document,
    before: DeviceState,
    after: DeviceState)

  predicate ValidRawRecord(r: RawScenarioRecord) {
    && ValidStamps(r.executionId, r.startedAt, r.finishedAt)
    && IsSha256(r.requestBodySha256) && ValidState(r.before) && ValidState(r.after)
  }

  function RawPath(role: Role): string {
    match role
    case Vulnerable => "raw/vulnerable.json"
    case Patched => "raw/patched.json"
    case PositiveControl => "raw/positive-control.json"
  }
}
