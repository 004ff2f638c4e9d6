/** When a run's staged bundle passes its own independent verification. */
module SelfVerification {
  import opened Prelude
  import opened Evidence
  import opened Library
  import opened Package
  import opened Verdicts
  import opened Gateway
  import opened Scenario
  import opened Orchestrator
  import opened Paths
  import opened Bundle
  import opened Verification
  import opened Sealing
  import opened Layout
  import opened Staging

  /** The packages are intact and signed by their declared keys, and the PEM file holds the trusted one. */
  predicate GenuineInputs(f: Functions, ins: Inputs, su: Surroundings) {
    && Genuine(f, ins.untrusted) && Genuine(f, ins.trusted)
    && f.loadPem(su.pem) == Some(ins.trustedKey)
    && ins.trusted.package.signerPublicKey == ins.trustedKey
    && ins.untrusted.package.signerPublicKey != ins.trustedKey
  }

  /** The capture's own records agree: the reset was seen, the raw reply is the recorded response, and it can be read back. */
  predicate Faithful(f: Functions, c: ScenarioCapture) {
    c.resetConfirmed && RepliedAsRecorded(c) && NestedWithin(JObject(c.gatewayResponse), f.maxDepth)
  }

  /* ---- What makes a capture unfaithful ---- */

  lemma DecisionTexts(a: Decision, b: Decision)
    ensures DecisionText(a) == DecisionText(b) <==> a == b
  {
    assert "ACCEPTED"[0] != "REJECTED"[0] && "REJECTED"[0] != "ERROR"[0] && "ACCEPTED"[0] != "ERROR"[0];
  }

  /**
    * A capture is faithful exactly when the device reported the initial state and the reply parsed
    * and agreed with both states read, or itself already said what the orchestrator makes of a conflict,
    * and is not nested too deeply to be read back.
    */
  lemma FaithfulExactly(f: Functions, d: ScenarioDefinition, stamps: Stamps, before: DeviceState, reply: HttpReply, after: DeviceState)
    requires Capture(f, d, stamps, before, reply, after).Ok?
    ensures Faithful(f, Capture(f, d, stamps, before, reply, after).value) <==>
            && before == INITIAL_STATE
            && reply.parsed.Some?
            && NestedWithin(JObject(DumpResponse(reply.parsed.value)), f.maxDepth)
            && var g := reply.parsed.value;
               || (Reports(g.before, before) && Reports(g.after, after))
               || (g.decision == Error && g.reasonCode == "CONFLICTING_OBSERVATION")
  {
    hide Reports, NestedWithin;
    if reply.parsed.Some? {
      DecisionTexts(reply.parsed.value.decision, Observe(before, reply, after).decision);
      hide DecisionText;
    }
  }

  /** An honest gateway that could not read the device answers with empty states, so its capture is never faithful. */
  lemma UnreadableDeviceIsUnfaithful(
    f: Functions, d: ScenarioDefinition, stamps: Stamps, before: DeviceState, role: Role, body: Bytes, after: DeviceState)
    requires Capture(f, d, stamps, before, Replied(Unreadable(role), body), after).Ok?
    ensures !Faithful(f, Capture(f, d, stamps, before, Replied(Unreadable(role), body), after).value)
  {
    FaithfulExactly(f, d, stamps, before, Replied(Unreadable(role), body), after);
    assert "firmware_version" in DumpState(before);
    assert "DEVICE_UNAVAILABLE"[0] != "CONFLICTING_OBSERVATION"[0];
    hide Faithful, Capture;
  }

  /* ---- The parts of the evidence ---- */

  lemma RecordShown(f: Functions, t: Tree, paths: set<string>, content: Place -> Bytes, x: Place)
    requires Shows(t, paths, content)
    ensures RecordAccepted(f, t, paths, RecordFor(f, x, content(x)))
  {
    PlaceIsSafe(x);
    hide At, Name, SafeRelativePath, Join, Legal, FileAt;
    assert ShowsAt(t, paths, content, x);
    FileInPlace(t, At(x));
  }

  lemma RecordsShown(f: Functions, t: Tree, paths: set<string>, ins: Inputs, su: Surroundings, cs: seq<ScenarioCapture>)
    requires |cs| == 3 && Shows(t, paths, Content(f, ins, su, cs))
    ensures var rs := DocumentOf(f, ins, su, cs).bundleFiles; forall i | 0 <= i < |rs| :: RecordAccepted(f, t, paths, rs[i])
  {
    hide RecordAccepted, RecordFor, Content, Shows, Artifact, VerificationOutcome, ExecutionsFrom;
    forall i | 0 <= i < 7 ensures RecordAccepted(f, t, paths, DocumentOf(f, ins, su, cs).bundleFiles[i]) {
      ArtifactsStaged(i);
      ContentAt(f, ins, su, cs, ARTIFACT_ORDER[i]);
      RecordShown(f, t, paths, Content(f, ins, su, cs), ARTIFACT_ORDER[i]);
    }
  }

  lemma ExpectedArtifacts(f: Functions, ins: Inputs, su: Surroundings, cs: seq<ScenarioCapture>)
    requires |cs| == 3
    ensures ArtifactPaths(DocumentOf(f, ins, su, cs).bundleFiles) == EXPECTED_ARTIFACTS
  {
    hide Artifact, VerificationOutcome, ExecutionsFrom, Name;
    var rs := DocumentOf(f, ins, su, cs).bundleFiles;
    assert |rs| == 7 && forall i | 0 <= i < 7 :: rs[i].path == Name(ARTIFACT_ORDER[i]);
    NamesOfArtifacts();
    hide DocumentOf, EXPECTED_ARTIFACTS, ARTIFACT_ORDER;
    SevenPaths(rs);
  }

  lemma SevenPaths(rs: seq<ArtifactRecord>)
    requires |rs| == 7
    ensures ArtifactPaths(rs) == {rs[0].path, rs[1].path, rs[2].path, rs[3].path, rs[4].path, rs[5].path, rs[6].path}
  {
    assert forall r | r in rs :: exists i :: 0 <= i < 7 && rs[i] == r;
  }

  lemma NamesOfArtifacts()
    ensures {Name(ARTIFACT_ORDER[0]), Name(ARTIFACT_ORDER[1]), Name(ARTIFACT_ORDER[2]), Name(ARTIFACT_ORDER[3]),
             Name(ARTIFACT_ORDER[4]), Name(ARTIFACT_ORDER[5]), Name(ARTIFACT_ORDER[6])} == EXPECTED_ARTIFACTS
  {
  }

  lemma PackageShown(f: Functions, t: Tree, paths: set<string>, ins: Inputs, su: Surroundings, cs: seq<ScenarioCapture>, n: nat)
    requires CapturesOf(f, ins, cs) && GenuineInputs(f, ins, su) && n < 3 && Shows(t, paths, Content(f, ins, su, cs))
    ensures PackageAccepted(f, t, paths, ExecutionFrom(f, cs[n]))
  {
    hide CaptureOfRole, Genuine, PackageAccepted, Shows, Content, ExecutionFrom, Sent;
    var x := SentPlace(f, ins, cs[n], ROLE_ORDER[n]);
    PlaceShown(f, t, paths, ins, su, cs, x);
    SentPackageAccepted(f, t, paths, ins, cs[n], x);
  }

  lemma SentPlace(f: Functions, ins: Inputs, c: ScenarioCapture, role: Role) returns (x: Place)
    requires CaptureOfRole(f, ins, c, role)
    ensures Sent(ins, c.definition, x)
  {
    x := if Sent(ins, c.definition, TrustedPackage) then TrustedPackage else UntrustedPackage;
  }

  function FileOf(ins: Inputs, x: Place): PackageFile {
    if x == TrustedPackage then ins.trusted else ins.untrusted
  }

  lemma PlaceShown(f: Functions, t: Tree, paths: set<string>, ins: Inputs, su: Surroundings, cs: seq<ScenarioCapture>, x: Place)
    requires |cs| == 3 && Shows(t, paths, Content(f, ins, su, cs))
    requires x == TrustedPackage || x == UntrustedPackage
    ensures FileAt(t, At(x)) == Some(FileOf(ins, x).raw) && Name(x) in paths
  {
    ContentAt(f, ins, su, cs, x);
    assert ShowsAt(t, paths, Content(f, ins, su, cs), x);
    hide At, Name, Content, FileAt;
    FileInPlace(t, At(x));
  }

  lemma SentPackageAccepted(f: Functions, t: Tree, paths: set<string>, ins: Inputs, c: ScenarioCapture, x: Place)
    requires Sent(ins, c.definition, x) && Genuine(f, FileOf(ins, x))
    requires FileAt(t, At(x)) == Some(FileOf(ins, x).raw) && Name(x) in paths
    ensures PackageAccepted(f, t, paths, ExecutionFrom(f, c))
  {
    ExecutionPackage(f, c);
    PlaceIsSafe(x);
    hide At, Name, SafeRelativePath, Join, Legal, ParseAndDecode, IntegrityFailure, SignatureVerifies, ExecutionFrom, FileAt;
  }

  lemma ExecutionPackage(f: Functions, c: ScenarioCapture)
    ensures var x := ExecutionFrom(f, c);
            var d := c.definition;
            && x.role == d.role
            && x.package == PackageEvidence(d.bundlePath, d.package.envelope.manifest.payloadSha256, f.sha256(d.packageBytes),
                                            d.package.envelope.signerFingerprint, d.signerTrust)
            && x.requestBodySha256 == c.requestBodySha256
            && x.response == c.response && x.observedDecision == c.response.decision
            && x.secureExpectedDecision == d.secureExpectedDecision
            && x.securityVerdict == IndividualVerdict(x)
            && x.artifacts == [RecordFor(f, RawFile(d.role), f.printRaw(RawOf(c)))]
            && x.executionId == c.executionId && x.startedAt == c.startedAt && x.finishedAt == c.finishedAt
            && x.before == c.before && x.after == c.after
  {
    hide RecordFor, RawOf;
  }

  /** The raw record is read back, and confirms the execution exactly when the capture is faithful. */
  lemma RawShown(f: Functions, t: Tree, paths: set<string>, ins: Inputs, su: Surroundings, cs: seq<ScenarioCapture>, n: nat)
    requires RawLaw(f) && CapturesOf(f, ins, cs) && n < 3 && Shows(t, paths, Content(f, ins, su, cs))
    requires ValidRawRecord(RawOf(cs[n]))
    ensures RawAccepted(f, t, ExecutionFrom(f, cs[n])) <==> Faithful(f, cs[n])
    ensures var rs := ExecutionFrom(f, cs[n]).artifacts; forall i | 0 <= i < |rs| :: RecordAccepted(f, t, paths, rs[i])
  {
    hide Content, ExecutionFrom, RecordAccepted, RawParts, RawPath, At, Name, FileAt, ReadBytes, Faithful, RawAccepted, RecordFor, RawOf,
         ValidRawRecord, NestedWithin, Shows, Sent;
    var place := RawFile(ROLE_ORDER[n]);
    RoleOfCapture(f, ins, cs, n);
    ContentOfRaw(f, ins, su, cs, n);
    RecordShown(f, t, paths, Content(f, ins, su, cs), place);
    RawFileShown(f, t, paths, Content(f, ins, su, cs), ROLE_ORDER[n]);
    ExecutionPackage(f, cs[n]);
    RawExactly(f, t, cs[n]);
  }

  lemma RawFileShown(f: Functions, t: Tree, paths: set<string>, content: Place -> Bytes, role: Role)
    requires Shows(t, paths, content)
    ensures ReadBytes(t, RawParts(role)) == Some(content(RawFile(role)))
  {
    assert ShowsAt(t, paths, content, RawFile(role));
    hide RawParts, ReadBytes;
    FileInPlace(t, RawParts(role));
  }

  lemma RawExactly(f: Functions, t: Tree, c: ScenarioCapture)
    requires RawLaw(f) && ValidRawRecord(RawOf(c))
    requires ReadBytes(t, RawParts(c.definition.role)) == Some(f.printRaw(RawOf(c)))
    ensures RawAccepted(f, t, ExecutionFrom(f, c)) <==> Faithful(f, c)
  {
    hide ReadBytes, RawParts, DecisionText, ValidRawRecord, NestedWithin, ExecutionOf;
    ExecutionPackage(f, c);
    assert f.parseRaw(f.printRaw(RawOf(c))) == if NestedWithin(JObject(c.gatewayResponse), f.maxDepth) then Some(RawOf(c)) else None;
    hide ExecutionFrom, RawLaw;
    assert RawPath(c.definition.role) == Name(RawFile(c.definition.role));
    hide RawPath, Name;
  }

  lemma TrustShown(f: Functions, t: Tree, paths: set<string>, ins: Inputs, su: Surroundings, cs: seq<ScenarioCapture>)
    requires |cs| == 3 && GenuineInputs(f, ins, su) && Shows(t, paths, Content(f, ins, su, cs))
    ensures TrustMaterialAccepted(f, t)
  {
    hide Content, ParseAndDecode, IntegrityFailure, SignatureVerifies, Name, Shows, FileAt, ReadBytes, Lookup, Regular;
    ContentAt(f, ins, su, cs, UntrustedPackage);
    ContentAt(f, ins, su, cs, TrustedPackage);
    ContentAt(f, ins, su, cs, TrustedKey);
    PlaceReadable(f, t, paths, Content(f, ins, su, cs), UntrustedPackage);
    PlaceReadable(f, t, paths, Content(f, ins, su, cs), TrustedPackage);
    PlaceReadable(f, t, paths, Content(f, ins, su, cs), TrustedKey);
  }

  lemma PlaceReadable(f: Functions, t: Tree, paths: set<string>, content: Place -> Bytes, x: Place)
    requires Shows(t, paths, content)
    ensures FileAt(t, At(x)) == ReadBytes(t, At(x)) == Some(content(x))
  {
    assert ShowsAt(t, paths, content, x);
    hide At, Name, FileAt, ReadBytes;
    FileInPlace(t, At(x));
  }

  /** What the rest of the checks need of each execution. */
  predicate InPlace(x: ExecutionEvidence, role: Role) {
    && x.role == role && Consistent(x) && x.package.signerTrust == ExpectedTrust(role)
    && x.requestBodySha256 == x.package.envelopeSha256
  }

  lemma ExecutionInPlace(f: Functions, ins: Inputs, cs: seq<ScenarioCapture>, n: nat)
    requires CapturesOf(f, ins, cs) && n < 3
    ensures InPlace(ExecutionsFrom(f, cs)[n], ROLE_ORDER[n])
    ensures ExecutionsFrom(f, cs)[n].package.envelopeSha256 == f.sha256(cs[n].definition.packageBytes)
  {
    ExecutionPackage(f, cs[n]);
    hide IndividualVerdict, ExecutionFrom, ExpectedTrust, ExpectedSecure, Sent;
  }

  lemma RolesShown(xs: seq<ExecutionEvidence>)
    requires |xs| == 3 && InPlace(xs[0], Vulnerable) && InPlace(xs[1], Patched) && InPlace(xs[2], PositiveControl)
    requires xs[0].package.envelopeSha256 == xs[1].package.envelopeSha256
    ensures OnePerRole(xs) && SameInput(xs) && forall role :: TrustHolds(xs, role)
    ensures forall i | 0 <= i < 3 :: Consistent(xs[i])
  {
    hide Consistent;
    TrioEntries(xs, xs[0], xs[1], xs[2]);
    hide ByRole, OnePerRole, ExpectedTrust;
    forall role ensures TrustHolds(xs, role) {
      match role case Vulnerable => case Patched => case PositiveControl =>
    }
  }

  lemma ExecutionsInPlace(f: Functions, ins: Inputs, cs: seq<ScenarioCapture>)
    requires CapturesOf(f, ins, cs)
    ensures var xs := ExecutionsFrom(f, cs);
            && |xs| == 3 && OnePerRole(xs) && SameInput(xs)
            && (forall role :: TrustHolds(xs, role)) && (forall i | 0 <= i < 3 :: Consistent(xs[i]))
            && Trio(xs, xs[0], xs[1], xs[2])
  {
    Sizes(f, cs);
    RolesInOrder();
    hide InPlace, Consistent, OnePerRole, SameInput, TrustHolds, ExecutionsFrom, ROLE_ORDER, CaptureOfRole;
    ExecutionInPlace(f, ins, cs, 0);
    ExecutionInPlace(f, ins, cs, 1);
    ExecutionInPlace(f, ins, cs, 2);
    RolesShown(ExecutionsFrom(f, cs));
    TrioInPlace(ExecutionsFrom(f, cs));
  }

  lemma TrioInPlace(xs: seq<ExecutionEvidence>)
    requires |xs| == 3 && InPlace(xs[0], Vulnerable) && InPlace(xs[1], Patched) && InPlace(xs[2], PositiveControl)
    ensures Trio(xs, xs[0], xs[1], xs[2])
  {
    hide Consistent;
  }

  /* ---- When staging succeeds ---- */

  lemma RecordIsValid(f: Functions, x: Place, content: Bytes)
    requires HashLaw(f)
    ensures ValidArtifact(RecordFor(f, x, content))
  {
    PlaceIsSafe(x);
    hide IsSha256, Name, At, SafeRelativePath, Join, Legal;
  }

  lemma EnvelopeFields(f: Functions, p: PackageFile)
    requires EnvelopeLaw(f) && Genuine(f, p)
    ensures IsSha256(p.package.envelope.manifest.payloadSha256) && IsSha256(p.package.envelope.signerFingerprint)
  {
    assert f.parseEnvelope(p.raw).Some?;
    hide IsSha256, DecodePackage;
    DecodedEnvelope(f.parseEnvelope(p.raw).value);
  }

  lemma DecodedEnvelope(e: PackageEnvelope)
    ensures DecodePackage(e).Ok? ==> DecodePackage(e).value.envelope == e
  {
  }

  predicate FieldsAllowed(c: ScenarioCapture) {
    && ValidStamps(c.executionId, c.startedAt, c.finishedAt)
    && ValidState(c.before) && ValidState(c.after) && ValidResponse(c.response)
  }

  predicate SurroundingsAllowed(su: Surroundings) {
    && Follows(VERIFICATION_ID_SHAPE, su.verificationId) && Follows(UTC_SHAPE, su.createdAt)
    && ValidTestCase(su.testCase)
  }

  predicate PayloadAllowed(p: Option<string>) {
    p.Some? ==> IsSha256(p.value)
  }

  /** The bounds and patterns of a capture's fields, written out. */
  lemma FieldsExactly(c: ScenarioCapture)
    ensures FieldsAllowed(c) <==>
            && (Follows("EX-VULNERABLE-%%%%%%%%", c.executionId) || Follows("EX-PATCHED-%%%%%%%%", c.executionId)
                || Follows("EX-POSITIVE_CONTROL-%%%%%%%%", c.executionId))
            && Follows("####-##-##T##:##:##.###Z", c.startedAt) && Follows("####-##-##T##:##:##.###Z", c.finishedAt)
            && 1 <= |c.before.firmwareVersion| <= 64 && PayloadAllowed(c.before.lastPayload)
            && 1 <= |c.after.firmwareVersion| <= 64 && PayloadAllowed(c.after.lastPayload)
            && 100 <= c.response.httpStatus <= 599 && 1 <= |c.response.reasonCode| <= 128 && IsSha256(c.response.bodySha256)
  {
    hide Follows, IsSha256;
    ExecutionIdShapes();
    if IsExecutionId(c.executionId) {
      var r :| Follows("EX-" + RoleText(r) + "-%%%%%%%%", c.executionId);
      match r case Vulnerable => case Patched => case PositiveControl =>
    }
    if Follows("EX-VULNERABLE-%%%%%%%%", c.executionId) {
      assert Follows("EX-" + RoleText(Vulnerable) + "-%%%%%%%%", c.executionId);
    }
    if Follows("EX-PATCHED-%%%%%%%%", c.executionId) {
      assert Follows("EX-" + RoleText(Patched) + "-%%%%%%%%", c.executionId);
    }
    if Follows("EX-POSITIVE_CONTROL-%%%%%%%%", c.executionId) {
      assert Follows("EX-" + RoleText(PositiveControl) + "-%%%%%%%%", c.executionId);
    }
  }

  lemma ExecutionIdShapes()
    ensures "EX-" + RoleText(Vulnerable) + "-%%%%%%%%" == "EX-VULNERABLE-%%%%%%%%"
    ensures "EX-" + RoleText(Patched) + "-%%%%%%%%" == "EX-PATCHED-%%%%%%%%"
    ensures "EX-" + RoleText(PositiveControl) + "-%%%%%%%%" == "EX-POSITIVE_CONTROL-%%%%%%%%"
  {
    Joined("VULNERABLE");
    Joined("PATCHED");
    ControlShape();
  }

  lemma Joined(role: string)
    ensures role == "VULNERABLE" ==> "EX-" + role + "-%%%%%%%%" == "EX-VULNERABLE-%%%%%%%%"
    ensures role == "PATCHED" ==> "EX-" + role + "-%%%%%%%%" == "EX-PATCHED-%%%%%%%%"
  {
  }

  lemma ControlShape()
    ensures "EX-" + "POSITIVE_CONTROL" + "-%%%%%%%%" == "EX-POSITIVE_CONTROL-%%%%%%%%"
  {
  }

  /** Those of what surrounds the captures. */
  lemma SurroundingsExactly(su: Surroundings)
    ensures SurroundingsAllowed(su) <==>
            && Follows("FR-########T#########Z-%%%%%%%%", su.verificationId) && Follows("####-##-##T##:##:##.###Z", su.createdAt)
            && 1 <= |su.testCase.caseId| <= 128 && 1 <= |su.testCase.title| <= 240
            && 1 <= |su.testCase.securityProperty| <= 500 && 1 <= |su.testCase.positiveControlCaseId| <= 128
  {
    hide Follows;
  }

  lemma PackageNamesShort(x: Place)
    requires x == UntrustedPackage || x == TrustedPackage
    ensures 1 <= |Name(x)| <= 255
  {
  }

  lemma PackageEvidenceAllowed(f: Functions, ins: Inputs, su: Surroundings, cs: seq<ScenarioCapture>, n: nat)
    requires HashLaw(f) && EnvelopeLaw(f) && CapturesOf(f, ins, cs) && GenuineInputs(f, ins, su) && n < 3
    ensures ValidPackageEvidence(ExecutionFrom(f, cs[n]).package)
  {
    hide IsSha256, Name, At, ExecutionFrom, Genuine, ROLE_ORDER, Sent, EnvelopeLaw;
    RolesInOrder();
    var x := SentPlace(f, ins, cs[n], ROLE_ORDER[n]);
    ExecutionPackage(f, cs[n]);
    EnvelopeFields(f, FileOf(ins, x));
    assert x == UntrustedPackage || x == TrustedPackage by { SentIsPackage(ins, cs[n].definition, x); }
    PackageNamesShort(x);
    SentIsPackage(ins, cs[n].definition, x);
  }

  lemma SentIsPackage(ins: Inputs, d: ScenarioDefinition, x: Place)
    requires Sent(ins, d, x)
    ensures (x == UntrustedPackage || x == TrustedPackage) && d.package == FileOf(ins, x).package && d.bundlePath == Name(x)
  {
    hide Name;
  }

  lemma ExecutionAllowed(x: ExecutionEvidence)
    requires 1 <= |x.buildId| <= 128 && ValidPackageEvidence(x.package) && IsSha256(x.requestBodySha256)
    requires x.observedDecision == x.response.decision && |x.artifacts| == 1 && ValidArtifact(x.artifacts[0])
    ensures ValidExecution(x) <==>
            && ValidStamps(x.executionId, x.startedAt, x.finishedAt)
            && ValidState(x.before) && ValidState(x.after) && ValidResponse(x.response)
  {
    hide ValidState, ValidResponse, ValidArtifact, ValidPackageEvidence, IsSha256, ValidStamps;
  }

  lemma RecordsAllowed(f: Functions, ins: Inputs, su: Surroundings, cs: seq<ScenarioCapture>, n: nat)
    requires HashLaw(f) && EnvelopeLaw(f) && CapturesOf(f, ins, cs) && GenuineInputs(f, ins, su) && n < 3
    ensures ValidRawRecord(RawOf(cs[n])) && ValidExecution(ExecutionFrom(f, cs[n])) <==> FieldsAllowed(cs[n])
  {
    var raw := f.printRaw(RawOf(cs[n]));
    PackageEvidenceAllowed(f, ins, su, cs, n);
    ExecutionPackage(f, cs[n]);
    BuildIdKept(f, cs[n]);
    hide GenuineInputs, Name, At, ExecutionFrom, RecordFor, ROLE_ORDER, ValidState, ValidResponse, ValidArtifact, ValidExecution,
         ValidPackageEvidence, ValidStamps, Sent;
    RecordIsValid(f, RawFile(cs[n].definition.role), raw);
    assert IsSha256(f.sha256(cs[n].definition.packageBytes));
    hide IsSha256;
    ExecutionAllowed(ExecutionFrom(f, cs[n]));
  }

  lemma BuildIdKept(f: Functions, c: ScenarioCapture)
    ensures ExecutionFrom(f, c).buildId == c.definition.buildId
  {
  }

  lemma DocumentAllowed(e: EvidenceDocument)
    requires OnePerRole(e.executions) && |e.bundleFiles| == 7 && forall i | 0 <= i < 7 :: ValidArtifact(e.bundleFiles[i])
    ensures ValidEvidence(e) <==>
            && Follows(VERIFICATION_ID_SHAPE, e.verificationId) && Follows(UTC_SHAPE, e.createdAt) && ValidTestCase(e.testCase)
            && forall n | 0 <= n < 3 :: ValidExecution(e.executions[n])
  {
    hide ValidArtifact, ValidExecution, Follows, ValidTestCase;
  }

  lemma DocumentFiles(f: Functions, ins: Inputs, su: Surroundings, cs: seq<ScenarioCapture>)
    requires HashLaw(f) && |cs| == 3
    ensures var e := DocumentOf(f, ins, su, cs);
            && e.executions == ExecutionsFrom(f, cs)
            && e.verificationId == su.verificationId && e.createdAt == su.createdAt && e.testCase == su.testCase
            && |e.bundleFiles| == 7 && forall i | 0 <= i < 7 :: ValidArtifact(e.bundleFiles[i])
  {
    hide ValidArtifact, RecordFor, Artifact, VerificationOutcome, ExecutionsFrom, IsSha256;
    forall i | 0 <= i < 7 ensures ValidArtifact(DocumentOf(f, ins, su, cs).bundleFiles[i]) {
      RecordIsValid(f, ARTIFACT_ORDER[i], Artifact(f, ins, su, cs, ARTIFACT_ORDER[i]));
    }
  }

  /** Apart from the fields that are captured or stamped, only the JSON schema can stop the staging of a genuine run. */
  lemma StageableExactly(f: Functions, ins: Inputs, su: Surroundings, cs: seq<ScenarioCapture>)
    requires HashLaw(f) && EnvelopeLaw(f) && CapturesOf(f, ins, cs) && GenuineInputs(f, ins, su)
    ensures Stageable(f, ins, su, cs) <==>
            && (forall n | 0 <= n < 3 :: FieldsAllowed(cs[n])) && SurroundingsAllowed(su)
            && f.meetsSchema(f.printEvidence(DocumentOf(f, ins, su, cs)))
  {
    hide FieldsAllowed, ValidRawRecord, ValidExecution, ExecutionFrom, OnePerRole, ValidArtifact, DocumentOf, RawOf, HashLaw, EnvelopeLaw,
         GenuineInputs, ROLE_ORDER, Consistent, TrustHolds, SameInput, ValidEvidence, Follows, ValidTestCase, CaptureOfRole;
    Sizes(f, cs);
    ExecutionsInPlace(f, ins, cs);
    DocumentFiles(f, ins, su, cs);
    DocumentAllowed(DocumentOf(f, ins, su, cs));
    RecordsAllowed(f, ins, su, cs, 0);
    RecordsAllowed(f, ins, su, cs, 1);
    RecordsAllowed(f, ins, su, cs, 2);
  }

  /* ---- The whole bundle ---- */

  predicate AllFaithful(f: Functions, cs: seq<ScenarioCapture>) {
    forall n | 0 <= n < |cs| :: Faithful(f, cs[n])
  }

  lemma DocumentShown(f: Functions, t: Tree, paths: set<string>, ins: Inputs, su: Surroundings, cs: seq<ScenarioCapture>)
    requires RawLaw(f) && CapturesOf(f, ins, cs) && GenuineInputs(f, ins, su) && Shows(t, paths, Content(f, ins, su, cs))
    requires Stageable(f, ins, su, cs)
    ensures DocumentAccepted(f, t, paths, DocumentOf(f, ins, su, cs)) <==> AllFaithful(f, cs)
  {
    var e := DocumentOf(f, ins, su, cs);
    var xs := ExecutionsFrom(f, cs);
    assert e.executions == xs && e.outcome == VerificationOutcome(xs) by { hide VerificationOutcome, Artifact, ExecutionsFrom; }
    hide *;
    RecordsShown(f, t, paths, ins, su, cs);
    ExpectedArtifacts(f, ins, su, cs);
    TrustShown(f, t, paths, ins, su, cs);
    ExecutionsInPlace(f, ins, cs);
    ExecutionsShown(f, t, paths, ins, su, cs);
    DocumentExactly(f, t, paths, e, cs);
  }

  lemma Sizes(f: Functions, cs: seq<ScenarioCapture>)
    ensures |ExecutionsFrom(f, cs)| == |cs|
  {
  }

  lemma ExecutionsShown(f: Functions, t: Tree, paths: set<string>, ins: Inputs, su: Surroundings, cs: seq<ScenarioCapture>)
    requires RawLaw(f) && CapturesOf(f, ins, cs) && GenuineInputs(f, ins, su) && Shows(t, paths, Content(f, ins, su, cs))
    requires Stageable(f, ins, su, cs)
    ensures forall n | 0 <= n < 3 :: ExecutionAccepted(f, t, paths, ExecutionsFrom(f, cs)[n]) <==> Faithful(f, cs[n])
  {
    hide ValidRawRecord, ValidExecution, ValidEvidence, DocumentOf, ExecutionFrom, Content, Shows, GenuineInputs, RawOf, Faithful,
         CaptureOfRole, PackageAccepted, RawAccepted, RecordAccepted, RawLaw;
    forall n | 0 <= n < 3 ensures ExecutionAccepted(f, t, paths, ExecutionsFrom(f, cs)[n]) <==> Faithful(f, cs[n]) {
      PackageShown(f, t, paths, ins, su, cs, n);
      RawShown(f, t, paths, ins, su, cs, n);
    }
  }

  /** With everything else in order, the document stands or falls with its executions. */
  lemma DocumentExactly(f: Functions, t: Tree, paths: set<string>, e: EvidenceDocument, cs: seq<ScenarioCapture>)
    requires |e.executions| == |cs| == 3 && e.outcome == VerificationOutcome(e.executions)
    requires OnePerRole(e.executions) && SameInput(e.executions) && forall role :: TrustHolds(e.executions, role)
    requires forall i | 0 <= i < 3 :: Consistent(e.executions[i])
    requires ArtifactPaths(e.bundleFiles) == EXPECTED_ARTIFACTS
    requires forall i | 0 <= i < |e.bundleFiles| :: RecordAccepted(f, t, paths, e.bundleFiles[i])
    requires TrustMaterialAccepted(f, t)
    requires forall n | 0 <= n < 3 :: ExecutionAccepted(f, t, paths, e.executions[n]) <==> Faithful(f, cs[n])
    ensures DocumentAccepted(f, t, paths, e) <==> AllFaithful(f, cs)
  {
    hide VerificationOutcome, OnePerRole, SameInput, TrustHolds, Consistent, ArtifactPaths, EXPECTED_ARTIFACTS, RecordAccepted,
         TrustMaterialAccepted, ExecutionAccepted, Faithful;
  }

  /**
    * The bundle staged from three captures passes verification exactly when every capture saw the
    * reset and recorded the decision and reason of a raw reply that can be read back. What verification then reports is
    * the document that was staged, so its verdicts and outcome are the recomputed ones.
    */
  lemma StagedBundleVerifiesExactly(f: Functions, ins: Inputs, su: Surroundings, cs: seq<ScenarioCapture>, m: BundleManifest)
    requires BundleLaws(f) && CapturesOf(f, ins, cs) && GenuineInputs(f, ins, su) && Stageable(f, ins, su, cs)
    requires IsManifestOf(f, TreeOf(Content(f, ins, su, cs)), m)
    ensures var s := Sealed(f, TreeOf(Content(f, ins, su, cs)), m);
            && (BundleAccepted(f, s) <==> AllFaithful(f, cs))
            && EvidenceIn(f, s) == Some(DocumentOf(f, ins, su, cs)) && !NullEvidence(f, s)
            && DigestOf(s) == Some(f.sha256(f.printManifest(m))) && ManifestIn(f, s) == Some(m) && |m| == 9
  {
    var content := Content(f, ins, su, cs);
    var t := TreeOf(content);
    LawsOf(f);
    var s := Sealed(f, t, m);
    var paths := ManifestPaths(m);
    hide *;
    LayoutIsSealable(f, content);
    SealThenVerify(f, t, m);
    NineEntries(f, content, m);
    SealedShows(f, content, m);
    DocumentShown(f, s, paths, ins, su, cs);
    EvidenceShown(f, s, paths, ins, su, cs);
    ReportShown(s, paths, content);
    AcceptedExactly(f, s, m, DocumentOf(f, ins, su, cs), AllFaithful(f, cs));
  }

  lemma LawsOf(f: Functions)
    requires BundleLaws(f)
    ensures HashLaw(f) && ManifestLaw(f) && RawLaw(f) && EvidenceLaw(f)
  {
  }

  lemma EvidenceShown(f: Functions, t: Tree, paths: set<string>, ins: Inputs, su: Surroundings, cs: seq<ScenarioCapture>)
    requires EvidenceLaw(f) && |cs| == 3 && Stageable(f, ins, su, cs) && Shows(t, paths, Content(f, ins, su, cs))
    ensures EvidenceIn(f, t) == Some(DocumentOf(f, ins, su, cs)) && !NullEvidence(f, t)
    ensures Regular(t, EVIDENCE) && f.meetsSchema(t[EVIDENCE].content)
  {
    hide ValidEvidence, DocumentOf, ValidRawRecord, ValidExecution, ExecutionFrom, Content;
    ContentAt(f, ins, su, cs, EvidenceFile);
    assert ShowsAt(t, paths, Content(f, ins, su, cs), EvidenceFile);
  }

  lemma ReportShown(t: Tree, paths: set<string>, content: Place -> Bytes)
    requires Shows(t, paths, content)
    ensures "report.html" in paths && IsFile(t, REPORT)
  {
    assert ShowsAt(t, paths, content, ReportFile);
  }

  lemma AcceptedExactly(f: Functions, t: Tree, m: BundleManifest, e: EvidenceDocument, good: bool)
    requires ManifestAccepted(f, t) && ManifestIn(f, t) == Some(m)
    requires EvidenceIn(f, t) == Some(e) && !NullEvidence(f, t) && Regular(t, EVIDENCE) && f.meetsSchema(t[EVIDENCE].content)
    requires DocumentAccepted(f, t, ManifestPaths(m), e) <==> good
    requires "report.html" in ManifestPaths(m) && IsFile(t, REPORT)
    ensures BundleAccepted(f, t) <==> good
  {
    hide ManifestAccepted, ManifestIn, EvidenceIn, DocumentAccepted, ManifestPaths, IsFile, EVIDENCE, REPORT, NullEvidence;
  }
}
