/** Building the staged bundle of a run, and when it passes its own verification. */
module Staging {
  import opened Prelude
  import opened Evidence
  import opened Library
  import opened Verdicts
  import opened Scenario
  import opened Orchestrator
  import opened Bundle
  import opened Verification
  import opened Layout

  /** What a run puts into its bundle besides the captures; the two texts are rendered from its results. */
  datatype Surroundings = Surroundings(
    verificationId: string,
    createdAt: string,
    testCase: TestCase,
    pem: Bytes,
    log: (seq<ScenarioCapture>, Outcome) -> Bytes,
    report: EvidenceDocument -> Bytes)

  function RawOf(c: ScenarioCapture): RawScenarioRecord {
    RawScenarioRecord(c.executionId, c.definition.role, c.startedAt, c.finishedAt, c.resetConfirmed,
                      c.requestBodySha256, c.gatewayResponse, c.before, c.after)
  }

  function MediaType(x: Place): string {
    if x == TrustedKey then "application/x-pem-file" else if x == RunLog then "text/plain" else "application/json"
  }

  /** `artifact_record`. */
  function RecordFor(f: Functions, x: Place, content: Bytes): ArtifactRecord {
    ArtifactRecord(Name(x), f.sha256(content), |content|, MediaType(x))
  }

  /** `_execution_from_capture`. */
  function ExecutionFrom(f: Functions, c: ScenarioCapture): ExecutionEvidence {
    ExecutionOf(f, c, [RecordFor(f, RawFile(c.definition.role), f.printRaw(RawOf(c)))])
  }

  function ExecutionsFrom(f: Functions, cs: seq<ScenarioCapture>): seq<ExecutionEvidence> {
    seq(|cs|, n requires 0 <= n < |cs| => ExecutionFrom(f, cs[n]))
  }

  /** `sorted(media_types)`. */
  const ARTIFACT_ORDER: seq<Place> := [TrustedPackage, UntrustedPackage, RawFile(Patched), RawFile(PositiveControl),
                                       RawFile(Vulnerable), RunLog, TrustedKey]

  function TurnOf(role: Role): (n: nat)
    ensures n < 3 && ROLE_ORDER[n] == role
  {
    match role
    case Vulnerable => 0
    case Patched => 1
    case PositiveControl => 2
  }

  /** The bytes of the seven recorded artifacts. */
  function Artifact(f: Functions, ins: Inputs, su: Surroundings, cs: seq<ScenarioCapture>, x: Place): Bytes
    requires |cs| == 3
  {
    match x
    case UntrustedPackage => ins.untrusted.raw
    case TrustedPackage => ins.trusted.raw
    case RawFile(role) => f.printRaw(RawOf(cs[TurnOf(role)]))
    case TrustedKey => su.pem
    case RunLog => su.log(cs, VerificationOutcome(ExecutionsFrom(f, cs)))
    case EvidenceFile => []
    case ReportFile => []
  }

  function DocumentOf(f: Functions, ins: Inputs, su: Surroundings, cs: seq<ScenarioCapture>): EvidenceDocument
    requires |cs| == 3
  {
    var xs := ExecutionsFrom(f, cs);
    EvidenceDocument(su.verificationId, su.createdAt, su.testCase, xs, VerificationOutcome(xs),
                     seq(7, i requires 0 <= i < 7 => RecordFor(f, ARTIFACT_ORDER[i], Artifact(f, ins, su, cs, ARTIFACT_ORDER[i]))))
  }

  /** What the staged files hold. */
  function Content(f: Functions, ins: Inputs, su: Surroundings, cs: seq<ScenarioCapture>): Place -> Bytes
    requires |cs| == 3
  {
    (x: Place) =>
      match x
      case EvidenceFile => f.printEvidence(DocumentOf(f, ins, su, cs))
      case ReportFile => su.report(DocumentOf(f, ins, su, cs))
      case _ => Artifact(f, ins, su, cs, x)
  }

  /* ---- What the staged documents say ---- */

  /** An execution record repeats its capture, names the payload and envelope hashes of what was sent, and stores its own verdict. */
  lemma ExecutionSays(f: Functions, c: ScenarioCapture)
    ensures var x, d := ExecutionFrom(f, c), c.definition;
            && x.executionId == c.executionId && x.role == d.role && x.buildId == d.buildId
            && x.startedAt == c.startedAt && x.finishedAt == c.finishedAt
            && x.package == PackageEvidence(d.bundlePath, d.package.envelope.manifest.payloadSha256, f.sha256(d.packageBytes),
                                            d.package.envelope.signerFingerprint, d.signerTrust)
            && x.requestBodySha256 == c.requestBodySha256 && x.response == c.response
            && x.before == c.before && x.after == c.after
            && x.secureExpectedDecision == d.secureExpectedDecision && x.observedDecision == c.response.decision
            && x.securityVerdict == IndividualVerdict(x)
            && x.artifacts == [RecordFor(f, RawFile(d.role), f.printRaw(RawOf(c)))]
  {
    hide RecordFor, RawOf;
    assert IndividualVerdict(ExecutionFrom(f, c).(securityVerdict := NoVerdict)) == IndividualVerdict(ExecutionFrom(f, c));
  }

  /** A raw record keeps the reply as it came. */
  lemma RawSays(c: ScenarioCapture)
    ensures var r := RawOf(c);
            && r.executionId == c.executionId && r.role == c.definition.role
            && r.startedAt == c.startedAt && r.finishedAt == c.finishedAt
            && r.resetConfirmed == c.resetConfirmed && r.requestBodySha256 == c.requestBodySha256
            && r.gatewayResponse == c.gatewayResponse && r.before == c.before && r.after == c.after
  {
  }

  /** The record of a file of these bytes. */
  predicate Records(f: Functions, r: ArtifactRecord, path: string, media: string, content: Bytes) {
    r == ArtifactRecord(path, f.sha256(content), |content|, media)
  }

  /** The document lists the seven artifacts in the order of their names, with the hashes and sizes of their bytes. */
  lemma DocumentSays(f: Functions, ins: Inputs, su: Surroundings, cs: seq<ScenarioCapture>)
    requires |cs| == 3
    ensures var e := DocumentOf(f, ins, su, cs);
            && e.verificationId == su.verificationId && e.createdAt == su.createdAt && e.testCase == su.testCase
            && e.executions == [ExecutionFrom(f, cs[0]), ExecutionFrom(f, cs[1]), ExecutionFrom(f, cs[2])]
            && e.outcome == VerificationOutcome(e.executions)
            && |e.bundleFiles| == 7
            && Records(f, e.bundleFiles[0], "packages/trusted-update.json", "application/json", ins.trusted.raw)
            && Records(f, e.bundleFiles[1], "packages/untrusted-update.json", "application/json", ins.untrusted.raw)
            && Records(f, e.bundleFiles[2], "raw/patched.json", "application/json", f.printRaw(RawOf(cs[1])))
            && Records(f, e.bundleFiles[3], "raw/positive-control.json", "application/json", f.printRaw(RawOf(cs[2])))
            && Records(f, e.bundleFiles[4], "raw/vulnerable.json", "application/json", f.printRaw(RawOf(cs[0])))
            && Records(f, e.bundleFiles[5], "run.log", "text/plain", su.log(cs, e.outcome))
            && Records(f, e.bundleFiles[6], "trust/trusted-public-key.pem", "application/x-pem-file", su.pem)
  {
    hide ExecutionFrom, VerificationOutcome, RawOf;
    var xs := ExecutionsFrom(f, cs);
    assert xs == [ExecutionFrom(f, cs[0]), ExecutionFrom(f, cs[1]), ExecutionFrom(f, cs[2])];
  }

  datatype StageError = RawRefused | ExecutionRefused | EvidenceRefused | SchemaRefused | LocationRefused | ManifestRefused

  datatype Staged = Staged(executions: seq<ExecutionEvidence>, outcome: Outcome, manifest: BundleManifest, digest: string)

  predicate RecordTaken(f: Functions, c: ScenarioCapture) {
    ValidRawRecord(RawOf(c)) && ValidExecution(ExecutionFrom(f, c))
  }

  /** The captures whose records the models and the schema take. */
  predicate Stageable(f: Functions, ins: Inputs, su: Surroundings, cs: seq<ScenarioCapture>)
    requires |cs| == 3
  {
    && (forall n | 0 <= n < 3 :: RecordTaken(f, cs[n]))
    && ValidEvidence(DocumentOf(f, ins, su, cs))
    && f.meetsSchema(f.printEvidence(DocumentOf(f, ins, su, cs)))
  }

  /** The first capture whose records are not taken. */
  predicate FirstRefused(f: Functions, cs: seq<ScenarioCapture>, n: nat) {
    n < |cs| && !RecordTaken(f, cs[n]) && forall m | 0 <= m < n :: RecordTaken(f, cs[m])
  }

  /** It is refused for its raw record, or for its execution record. */
  predicate RefusedFor(f: Functions, cs: seq<ScenarioCapture>, raw: bool) {
    exists n | 0 <= n < |cs| :: FirstRefused(f, cs, n) && (raw <==> !ValidRawRecord(RawOf(cs[n])))
  }

  /** Why staging ends with an error; `inside` says whether the destination lies inside the repository. */
  predicate StagingStops(f: Functions, ins: Inputs, su: Surroundings, cs: seq<ScenarioCapture>, inside: bool, reason: StageError)
    requires |cs| == 3
  {
    match reason
    case RawRefused => RefusedFor(f, cs, true)
    case ExecutionRefused => RefusedFor(f, cs, false)
    case EvidenceRefused => (forall n | 0 <= n < 3 :: RecordTaken(f, cs[n])) && !ValidEvidence(DocumentOf(f, ins, su, cs))
    case SchemaRefused =>
      && (forall n | 0 <= n < 3 :: RecordTaken(f, cs[n])) && ValidEvidence(DocumentOf(f, ins, su, cs))
      && !f.meetsSchema(f.printEvidence(DocumentOf(f, ins, su, cs)))
    case LocationRefused => Stageable(f, ins, su, cs) && !inside
    case ManifestRefused => false
  }

  /** The request carried one of the two package files, under its bundle path. */
  predicate Sent(ins: Inputs, d: ScenarioDefinition, x: Place) {
    var file := if x == TrustedPackage then ins.trusted else ins.untrusted;
    && (x == TrustedPackage || x == UntrustedPackage)
    && d.packageBytes == file.raw && d.package == file.package && d.bundlePath == Name(x)
  }

  /** A capture of a role's scenario, whichever of the two packages it sent. */
  predicate CaptureOfRole(f: Functions, ins: Inputs, c: ScenarioCapture, role: Role) {
    var d := c.definition;
    && d.role == role && 1 <= |d.buildId| <= 128
    && d.signerTrust == ExpectedTrust(role) && d.secureExpectedDecision == ExpectedSecure(role)
    && (Sent(ins, d, TrustedPackage) || Sent(ins, d, UntrustedPackage))
    && c.requestBodySha256 == f.sha256(d.packageBytes)
  }

  /** One capture for each role, the first two of the same bytes. */
  predicate CapturesOf(f: Functions, ins: Inputs, cs: seq<ScenarioCapture>) {
    && |cs| == 3
    && (forall n | 0 <= n < 3 :: CaptureOfRole(f, ins, cs[n], ROLE_ORDER[n]))
    && cs[0].definition.packageBytes == cs[1].definition.packageBytes
  }

  /** The run's own definitions are such: the untrusted package twice, then the trusted one. */
  lemma DefinitionsAreSent(f: Functions, ins: Inputs, cs: seq<ScenarioCapture>)
    requires |cs| == 3
    requires forall n | 0 <= n < 3 ::
               cs[n].definition == Definition(ins, ROLE_ORDER[n]) && cs[n].requestBodySha256 == f.sha256(cs[n].definition.packageBytes)
    ensures CapturesOf(f, ins, cs)
  {
    forall n | 0 <= n < 3 ensures CaptureOfRole(f, ins, cs[n], ROLE_ORDER[n]) {
      assert Sent(ins, cs[n].definition, if n == 2 then TrustedPackage else UntrustedPackage);
    }
  }

  lemma ContentAt(f: Functions, ins: Inputs, su: Surroundings, cs: seq<ScenarioCapture>, x: Place)
    requires |cs| == 3
    ensures Content(f, ins, su, cs)(x) ==
            match x
            case EvidenceFile => f.printEvidence(DocumentOf(f, ins, su, cs))
            case ReportFile => su.report(DocumentOf(f, ins, su, cs))
            case _ => Artifact(f, ins, su, cs, x)
  {
    hide DocumentOf, Artifact;
  }

  const GIVEN: set<Place> := {UntrustedPackage, TrustedPackage, TrustedKey}
  const RAW: set<Place> := {RawFile(Vulnerable), RawFile(Patched), RawFile(PositiveControl)}

  /** The two packages and the trusted key. */
  method WriteGiven(f: Functions, dir: BundleDirectory, ins: Inputs, su: Surroundings, ghost cs: seq<ScenarioCapture>)
    requires |cs| == 3 && dir.tree == map[]
    modifies dir
    ensures dir.tree == PartOf(Content(f, ins, su, cs), GIVEN)
  {
    hide PartOf, Content;
    ghost var content := Content(f, ins, su, cs);
    NothingYet(content);
    ContentAt(f, ins, su, cs, UntrustedPackage);
    ContentAt(f, ins, su, cs, TrustedPackage);
    ContentAt(f, ins, su, cs, TrustedKey);
    WriteAt(dir, content, {}, UntrustedPackage, ins.untrusted.raw);
    ghost var done := {} + {UntrustedPackage};
    WriteAt(dir, content, done, TrustedPackage, ins.trusted.raw);
    done := done + {TrustedPackage};
    WriteAt(dir, content, done, TrustedKey, su.pem);
    assert done + {TrustedKey} == GIVEN;
  }

  function RawPlaces(n: nat): set<Place>
    requires n <= 3
  {
    set i | 0 <= i < n :: RawFile(ROLE_ORDER[i])
  }

  /** One raw record and one execution record for each capture. */
  method WriteCaptures(f: Functions, dir: BundleDirectory, ghost ins: Inputs, ghost su: Surroundings, cs: seq<ScenarioCapture>)
      returns (r: Result<seq<ExecutionEvidence>, StageError>)
    requires CapturesOf(f, ins, cs) && dir.tree == PartOf(Content(f, ins, su, cs), GIVEN)
    modifies dir
    ensures r.Ok? <==> forall n | 0 <= n < 3 :: RecordTaken(f, cs[n])
    ensures r.Err? ==> (r.error == RawRefused && RefusedFor(f, cs, true)) || (r.error == ExecutionRefused && RefusedFor(f, cs, false))
    ensures r.Ok? ==> r.value == ExecutionsFrom(f, cs) && dir.tree == PartOf(Content(f, ins, su, cs), GIVEN + RAW)
  {
    hide PartOf, Content, At, Name, ValidRawRecord, ValidExecution, ExecutionOf, Definition, ExecutionsFrom, RawPlaces, RawOf, RecordFor;
    ghost var content := Content(f, ins, su, cs);
    RawPlacesStart();
    assert ExecutionsFrom(f, cs[..0]) == [] by { NoExecutions(f, cs); }
    var executions: seq<ExecutionEvidence> := [];
    for n := 0 to 3
      invariant dir.tree == PartOf(content, GIVEN + RawPlaces(n))
      invariant executions == ExecutionsFrom(f, cs[..n])
      invariant forall m | 0 <= m < n :: RecordTaken(f, cs[m])
    {
      var c := cs[n];
      var place := RawFile(c.definition.role);
      RoleOfCapture(f, ins, cs, n);
      ContentOfRaw(f, ins, su, cs, n);
      if !ValidRawRecord(RawOf(c)) {
        assert FirstRefused(f, cs, n);
        return Err(RawRefused);
      }
      WriteAt(dir, content, GIVEN + RawPlaces(n), place, f.printRaw(RawOf(c)));
      RawPlacesGrow(n);
      PartAt(content, GIVEN + RawPlaces(n + 1), place);
      var x := ExecutionOf(f, c, [RecordFor(f, place, ContentOf(dir.tree, At(place)))]);
      assert x == ExecutionFrom(f, c);
      if !ValidExecution(x) {
        assert FirstRefused(f, cs, n);
        return Err(ExecutionRefused);
      }
      executions := executions + [x];
      ExecutionsGrow(f, cs, n);
    }
    assert cs[..3] == cs;
    assert RawPlaces(3) == RAW by { AllRaw(); }
    r := Ok(executions);
  }

  lemma ContentOfRaw(f: Functions, ins: Inputs, su: Surroundings, cs: seq<ScenarioCapture>, n: nat)
    requires CapturesOf(f, ins, cs) && n < 3
    ensures Content(f, ins, su, cs)(RawFile(cs[n].definition.role)) == f.printRaw(RawOf(cs[n]))
  {
    RoleOfCapture(f, ins, cs, n);
    ContentAt(f, ins, su, cs, RawFile(cs[n].definition.role));
  }

  lemma RawPlacesStart()
    ensures GIVEN + RawPlaces(0) == GIVEN
  {
  }

  lemma RawPlacesGrow(n: nat)
    requires n < 3
    ensures GIVEN + RawPlaces(n) + {RawFile(ROLE_ORDER[n])} == GIVEN + RawPlaces(n + 1)
  {
  }

  lemma NoExecutions(f: Functions, cs: seq<ScenarioCapture>)
    ensures ExecutionsFrom(f, cs[..0]) == []
  {
  }

  lemma ExecutionsGrow(f: Functions, cs: seq<ScenarioCapture>, n: nat)
    requires n < |cs|
    ensures ExecutionsFrom(f, cs[..n + 1]) == ExecutionsFrom(f, cs[..n]) + [ExecutionFrom(f, cs[n])]
  {
    hide ExecutionFrom;
  }

  lemma AllRaw()
    ensures RawPlaces(3) == RAW
  {
    assert ROLE_ORDER[0] == Vulnerable && ROLE_ORDER[1] == Patched && ROLE_ORDER[2] == PositiveControl;
    assert RawFile(ROLE_ORDER[0]) in RawPlaces(3) && RawFile(ROLE_ORDER[1]) in RawPlaces(3) && RawFile(ROLE_ORDER[2]) in RawPlaces(3);
  }

  /** The records of the seven artifacts, taken from the staged files. */
  method ArtifactRecords(f: Functions, dir: BundleDirectory, ghost ins: Inputs, ghost su: Surroundings, ghost cs: seq<ScenarioCapture>)
      returns (records: seq<ArtifactRecord>)
    requires |cs| == 3 && dir.tree == PartOf(Content(f, ins, su, cs), GIVEN + RAW + {RunLog})
    ensures records == DocumentOf(f, ins, su, cs).bundleFiles
  {
    hide PartOf, Content, At, Name, VerificationOutcome, ExecutionsFrom, Artifact;
    records := [];
    for i := 0 to 7
      invariant |records| == i
      invariant forall j | 0 <= j < i :: records[j] == RecordFor(f, ARTIFACT_ORDER[j], Artifact(f, ins, su, cs, ARTIFACT_ORDER[j]))
    {
      var place := ARTIFACT_ORDER[i];
      ArtifactsStaged(i);
      ContentAt(f, ins, su, cs, place);
      PartAt(Content(f, ins, su, cs), GIVEN + RAW + {RunLog}, place);
      records := records + [RecordFor(f, place, ContentOf(dir.tree, At(place)))];
    }
  }

  lemma ArtifactsStaged(i: nat)
    requires i < 7
    ensures var x := ARTIFACT_ORDER[i]; x in GIVEN + RAW + {RunLog} && !x.EvidenceFile? && !x.ReportFile?
  {
  }

  /** Everything up to the evidence document, which says what has been staged so far. */
  method StageEvidence(f: Functions, dir: BundleDirectory, ins: Inputs, su: Surroundings, cs: seq<ScenarioCapture>)
      returns (r: Result<EvidenceDocument, StageError>)
    requires CapturesOf(f, ins, cs) && dir.tree == map[]
    modifies dir
    ensures r.Ok? <==> Stageable(f, ins, su, cs)
    ensures r.Err? ==> r.error != LocationRefused && forall inside :: StagingStops(f, ins, su, cs, inside, r.error)
    ensures r.Ok? ==>
              && r.value == DocumentOf(f, ins, su, cs)
              && dir.tree == PartOf(Content(f, ins, su, cs), GIVEN + RAW + {RunLog} + {EvidenceFile})
  {
    hide At, PartOf, Name, ValidRawRecord, ValidExecution, VerificationOutcome, ExecutionOf, ValidEvidence, RecordTaken, RefusedFor,
         Definition, Content, ExecutionsFrom, Artifact, CapturesOf;
    CapturesAreThree(f, ins, cs);
    ghost var content := Content(f, ins, su, cs);
    WriteGiven(f, dir, ins, su, cs);
    var executions := WriteCaptures(f, dir, ins, su, cs);
    if executions.Err? {
      return Err(executions.error);
    }
    var outcome := VerificationOutcome(executions.value);
    ContentAt(f, ins, su, cs, RunLog);
    LogContent(f, ins, su, cs);
    WriteAt(dir, content, GIVEN + RAW, RunLog, su.log(cs, outcome));
    var records := ArtifactRecords(f, dir, ins, su, cs);
    var document := EvidenceDocument(su.verificationId, su.createdAt, su.testCase, executions.value, outcome, records);
    assert document == DocumentOf(f, ins, su, cs);
    if !ValidEvidence(document) {
      return Err(EvidenceRefused);
    }
    if !f.meetsSchema(f.printEvidence(document)) {
      return Err(SchemaRefused);
    }
    ContentAt(f, ins, su, cs, EvidenceFile);
    WriteAt(dir, content, GIVEN + RAW + {RunLog}, EvidenceFile, f.printEvidence(document));
    r := Ok(document);
  }

  lemma EverythingStaged()
    ensures GIVEN + RAW + {RunLog} + {EvidenceFile} + {ReportFile} == PLACES
  {
  }

  lemma CapturesAreThree(f: Functions, ins: Inputs, cs: seq<ScenarioCapture>)
    requires CapturesOf(f, ins, cs)
    ensures |cs| == 3
  {
  }

  /**
    * Lines 404 to 453 of the orchestrator: the staged files, in the order they are written. Between
    * the evidence and the report the destination's path relative to the repository is computed,
    * which there is only inside of it.
    */
  method StageBundle(f: Functions, dir: BundleDirectory, ins: Inputs, su: Surroundings, cs: seq<ScenarioCapture>, inside: bool)
      returns (r: Result<Staged, StageError>)
    requires HashLaw(f) && CapturesOf(f, ins, cs) && dir.tree == map[]
    modifies dir
    ensures r.Ok? <==> Stageable(f, ins, su, cs) && inside
    ensures r.Err? ==> StagingStops(f, ins, su, cs, inside, r.error)
    ensures r.Ok? ==>
              var t := TreeOf(Content(f, ins, su, cs));
              && IsManifestOf(f, t, r.value.manifest) && dir.tree == Sealed(f, t, r.value.manifest)
              && r.value.digest == f.sha256(f.printManifest(r.value.manifest))
              && r.value.executions == ExecutionsFrom(f, cs)
              && r.value.outcome == VerificationOutcome(ExecutionsFrom(f, cs))
  {
    hide At, PartOf, IsSha256, VerificationOutcome, Stageable, Sealable, CapturesOf, Sealed, IsManifestOf, ExecutionsFrom,
         ValidBundleManifest, Artifact, Content;
    CapturesAreThree(f, ins, cs);
    ghost var content := Content(f, ins, su, cs);
    var document := StageEvidence(f, dir, ins, su, cs);
    if document.Err? {
      return Err(document.error);
    }
    if !inside {
      return Err(LocationRefused);
    }
    ContentAt(f, ins, su, cs, ReportFile);
    WriteAt(dir, content, GIVEN + RAW + {RunLog} + {EvidenceFile}, ReportFile, su.report(document.value));
    EverythingStaged();
    LayoutIsSealable(f, content);
    var sealed := dir.WriteManifest(f);
    if sealed.Err? {
      return Err(ManifestRefused);
    }
    r := Ok(Staged(document.value.executions, document.value.outcome, sealed.value.0, sealed.value.1));
  }

  lemma LogContent(f: Functions, ins: Inputs, su: Surroundings, cs: seq<ScenarioCapture>)
    requires |cs| == 3
    ensures Artifact(f, ins, su, cs, RunLog) == su.log(cs, VerificationOutcome(ExecutionsFrom(f, cs)))
  {
  }

  lemma NothingYet(content: Place -> Bytes)
    ensures PartOf(content, {}) == map[]
  {
  }

  lemma RoleOfCapture(f: Functions, ins: Inputs, cs: seq<ScenarioCapture>, n: nat)
    requires CapturesOf(f, ins, cs) && n < 3
    ensures cs[n].definition.role == ROLE_ORDER[n] && TurnOf(ROLE_ORDER[n]) == n
  {
  }
}
