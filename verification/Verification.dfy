/** Independent verification of a bundle directory. */
module Verification {
  import opened Prelude
  import opened Paths
  import opened Evidence
  import opened Verdicts
  import opened Library
  import opened Package
  import opened Bundle

  const EVIDENCE: Path := ["evidence.json"]
  const REPORT: Path := ["report.html"]
  const TRUSTED_KEY: Path := ["trust", "trusted-public-key.pem"]
  const TRUSTED_PACKAGE: Path := ["packages", "trusted-update.json"]
  const UNTRUSTED_PACKAGE: Path := ["packages", "untrusted-update.json"]

  const EXPECTED_ARTIFACTS: set<string> := {
    "packages/untrusted-update.json", "packages/trusted-update.json",
    "raw/vulnerable.json", "raw/patched.json", "raw/positive-control.json",
    "trust/trusted-public-key.pem", "run.log"}

  datatype Failure =
    | NotADirectory
    | SymlinkedRoot
    | OutsideRepository
    | SymlinkedDirectory(path: Path)
    | SymlinkedFile(path: Path)
    | DigestMissing
    | DigestUnreadable
    | DigestFormat
    | ManifestMissing
    | ManifestDigestMismatch
    | ManifestInvalid
    | ManifestListsItself(name: string)
    | ManifestPath(name: string)
    | ListedMissing(name: string)
    | ListedSize(name: string)
    | ListedHash(name: string)
    | UnlistedFiles(names: set<string>)
    | MissingFiles(names: set<string>)
    | EvidenceMissing
    | EvidenceNotStrictJson
    | EvidenceSchema
    | EvidenceModel
    | EvidenceRoles
    | EnvelopesDiffer
    | RequestsDiffer
    | Inconsistent(failure: ConsistencyFailure)
    | StoredOutcome
    | ArtifactSet
    | ArtifactPath(name: string)
    | ArtifactUnlisted(name: string)
    | ArtifactMissing(name: string)
    | ArtifactSize(name: string)
    | ArtifactHash(name: string)
    | PackageInvalid(name: string)
    | RawRecord(role: Role)
    | SignerTrustWrong(role: Role)
    | TrustMaterial
    | ReportMissing

  datatype VerificationResult = VerificationResult(
    valid: bool,
    failures: seq<Failure>,
    outcome: Option<Outcome>,
    manifestSha256: Option<string>,
    entryCount: nat)

  /* ---- The manifest part ---- */

  /** The file names a walk finds; links to directories are not among them. */
  function FilesOf(t: Tree): set<string> {
    set p | p in t && !t[p].DirectoryLink? :: Join(p)
  }

  function ManifestIn(f: Functions, t: Tree): Option<BundleManifest> {
    if Regular(t, MANIFEST) then f.parseManifest(t[MANIFEST].content) else None
  }

  function DigestOf(t: Tree): Option<string> {
    if Regular(t, DIGEST) then DigestIn(t[DIGEST].content) else None
  }

  /** The names of a manifest that verification goes on with. */
  predicate UsableName(name: string) {
    name !in OWN_NAMES && SafeRelativePath(name).Ok?
  }

  function ManifestPaths(m: BundleManifest): set<string> {
    set e | e in m && UsableName(e.path) :: e.path
  }

  predicate FileMatches(f: Functions, t: Tree, p: Path, size: nat, sha256: string) {
    FileAt(t, p).Some? && |FileAt(t, p).value| == size && f.sha256(FileAt(t, p).value) == sha256
  }

  predicate EntryAccepted(f: Functions, t: Tree, e: ManifestEntry) {
    UsableName(e.path) && FileMatches(f, t, SafeRelativePath(e.path).value, e.sizeBytes, e.sha256)
  }

  /** A tree whose digest file seals its manifest, and whose manifest seals every other file. */
  predicate ManifestAccepted(f: Functions, t: Tree) {
    && NoLinks(t)
    && Regular(t, MANIFEST)
    && DigestOf(t) == Some(f.sha256(t[MANIFEST].content))
    && ManifestIn(f, t).Some?
    && var m := ManifestIn(f, t).value;
       && (forall i | 0 <= i < |m| :: EntryAccepted(f, t, m[i]))
       && FilesOf(t) == ManifestPaths(m) + OWN_NAMES
  }

  /** `_all_bundle_files`. */
  method AllBundleFiles(t: Tree) returns (found: set<string>, failures: seq<Failure>)
    ensures found == FilesOf(t)
    ensures failures == [] <==> NoLinks(t)
  {
    hide Join;
    found, failures := {}, [];
    var rest := t.Keys;
    while rest != {}
      invariant rest <= t.Keys
      invariant found == set p | p in t && p !in rest && !t[p].DirectoryLink? :: Join(p)
      invariant failures == [] <==> forall p | p in t && p !in rest :: t[p].File?
      decreases rest
    {
      var p :| p in rest;
      if t[p].DirectoryLink? {
        failures := failures + [SymlinkedDirectory(p)];
      } else {
        found := found + {Join(p)};
        if !t[p].File? {
          failures := failures + [Failure.SymlinkedFile(p)];
        }
      }
      rest := rest - {p};
    }
  }

  /** The loop over the manifest's entries. */
  method EntryFailures(f: Functions, t: Tree, m: BundleManifest) returns (failures: seq<Failure>, paths: set<string>)
    ensures failures == [] <==> forall i | 0 <= i < |m| :: EntryAccepted(f, t, m[i])
    ensures paths == ManifestPaths(m)
  {
    hide SafeRelativePath;
    failures, paths := [], {};
    for n := 0 to |m|
      invariant failures == [] <==> forall i | 0 <= i < n :: EntryAccepted(f, t, m[i])
      invariant paths == set e | e in m[..n] && UsableName(e.path) :: e.path
    {
      var e := m[n];
      assert m[..n + 1] == m[..n] + [e];
      if e.path in OWN_NAMES {
        failures := failures + [ManifestListsItself(e.path)];
        continue;
      }
      var safe := SafeRelativePath(e.path);
      if safe.Err? {
        failures := failures + [ManifestPath(e.path)];
        continue;
      }
      paths := paths + {e.path};
      var file := FileAt(t, safe.value);
      if file.None? {
        failures := failures + [ListedMissing(e.path)];
        continue;
      }
      var content := file.value;
      if |content| != e.sizeBytes {
        failures := failures + [ListedSize(e.path)];
      }
      if f.sha256(content) != e.sha256 {
        failures := failures + [ListedHash(e.path)];
      }
    }
    assert m[..|m|] == m;
  }

  /** Everything `verify_bundle` checks before it opens the evidence. */
  method ManifestFailures(f: Functions, t: Tree)
      returns (failures: seq<Failure>, digest: Option<string>, paths: set<string>, count: nat)
    ensures failures == [] <==> ManifestAccepted(f, t)
    ensures digest == DigestOf(t)
    ensures paths == (if ManifestIn(f, t).Some? then ManifestPaths(ManifestIn(f, t).value) else {})
    ensures count == if ManifestIn(f, t).Some? then |ManifestIn(f, t).value| else 0
  {
    hide FilesOf, DigestIn, EntryAccepted, ManifestPaths;
    var found, linkFailures := AllBundleFiles(t);
    failures := linkFailures;
    digest := None;
    if !Regular(t, DIGEST) {
      failures := failures + [DigestMissing];
    } else {
      if AsciiText(t[DIGEST].content).None? {
        failures := failures + [DigestUnreadable];
      }
      digest := DigestIn(t[DIGEST].content);
      if digest.None? {
        failures := failures + [DigestFormat];
      } else {
        DigestInIsText(t[DIGEST].content);
      }
    }
    paths, count := {}, 0;
    if !Regular(t, MANIFEST) {
      failures := failures + [ManifestMissing];
      return;
    }
    var content := t[MANIFEST].content;
    if digest.Some? && f.sha256(content) != digest.value {
      failures := failures + [ManifestDigestMismatch];
    }
    var manifest := f.parseManifest(content);
    if manifest.None? {
      failures := failures + [ManifestInvalid];
      return;
    }
    count := |manifest.value|;
    var entryFailures;
    entryFailures, paths := EntryFailures(f, t, manifest.value);
    failures := failures + entryFailures;
    var expected := paths + OWN_NAMES;
    if found - expected != {} {
      failures := failures + [UnlistedFiles(found - expected)];
    }
    if expected - found != {} {
      failures := failures + [MissingFiles(expected - found)];
    }
    assert found == expected <==> found - expected == {} && expected - found == {} by {
      SetsEqual(found, expected);
    }
  }

  lemma DigestInIsText(b: Bytes)
    requires DigestIn(b).Some?
    ensures AsciiText(b).Some?
  {
  }

  lemma SetsEqual(a: set<string>, b: set<string>)
    ensures a == b <==> a - b == {} && b - a == {}
  {
    if a - b == {} && b - a == {} {
      assert forall x :: x in a ==> x in b || x in a - b;
      assert forall x :: x in b ==> x in a || x in b - a;
    }
  }

  /* ---- The evidence part ---- */

  predicate RecordAccepted(f: Functions, t: Tree, paths: set<string>, r: ArtifactRecord) {
    && SafeRelativePath(r.path).Ok?
    && r.path in paths
    && FileMatches(f, t, SafeRelativePath(r.path).value, r.sizeBytes, r.sha256)
  }

  /** The package file an execution names is the recorded one, intact, and signed by its declared key. */
  predicate PackageAccepted(f: Functions, t: Tree, paths: set<string>, x: ExecutionEvidence) {
    && SafeRelativePath(x.package.filename).Ok?
    && x.package.filename in paths
    && var p := SafeRelativePath(x.package.filename).value;
       && FileAt(t, p).Some?
       && f.sha256(FileAt(t, p).value) == x.package.envelopeSha256
       && ParseAndDecode(f, FileAt(t, p).value).Ok?
       && var package := ParseAndDecode(f, FileAt(t, p).value).value;
          && IntegrityFailure(f, package).None?
          && package.envelope.manifest.payloadSha256 == x.package.sha256
          && f.sha256(package.signerPublicKey) == x.package.signerFingerprint
          && SignatureVerifies(f, package)
  }

  function RawParts(role: Role): Path {
    match role
    case Vulnerable => ["raw", "vulnerable.json"]
    case Patched => ["raw", "patched.json"]
    case PositiveControl => ["raw", "positive-control.json"]
  }

  /** `.get(key)` compared with a text. */
  predicate Says(d: Document, key: string, text: string) {
    key in d && d[key] == JString(text)
  }

  predicate RawMatches(r: RawScenarioRecord, x: ExecutionEvidence) {
    && r.executionId == x.executionId && r.role == x.role
    && r.startedAt == x.startedAt && r.finishedAt == x.finishedAt
    && r.requestBodySha256 == x.requestBodySha256
    && r.before == x.before && r.after == x.after
    && r.resetConfirmed
    && Says(r.gatewayResponse, "decision", DecisionText(x.observedDecision))
    && Says(r.gatewayResponse, "reason_code", x.response.reasonCode)
  }

  /** The raw record of an execution exists and tells the same story. */
  predicate RawAccepted(f: Functions, t: Tree, x: ExecutionEvidence) {
    && |x.artifacts| == 1 && x.artifacts[0].path == RawPath(x.role)
    && ReadBytes(t, RawParts(x.role)).Some?
    && f.parseRaw(ReadBytes(t, RawParts(x.role)).value).Some?
    && RawMatches(f.parseRaw(ReadBytes(t, RawParts(x.role)).value).value, x)
  }

  predicate ExecutionAccepted(f: Functions, t: Tree, paths: set<string>, x: ExecutionEvidence) {
    && PackageAccepted(f, t, paths, x)
    && RawAccepted(f, t, x)
    && forall i | 0 <= i < |x.artifacts| :: RecordAccepted(f, t, paths, x.artifacts[i])
  }

  function ExpectedTrust(role: Role): SignerTrust {
    if role == PositiveControl then Trusted else Untrusted
  }

  predicate TrustHolds(xs: seq<ExecutionEvidence>, role: Role) {
    var x := ByRole(xs, role);
    x.Some? ==> x.value.package.signerTrust == ExpectedTrust(role)
  }

  /** Of the two packages, exactly the trusted one carries the bundle's trusted key. */
  predicate TrustMaterialAccepted(f: Functions, t: Tree) {
    FileAt(t, TRUSTED_KEY).Some? ==>
      && f.loadPem(FileAt(t, TRUSTED_KEY).value).Some?
      && ReadBytes(t, TRUSTED_PACKAGE).Some? && ParseAndDecode(f, ReadBytes(t, TRUSTED_PACKAGE).value).Ok?
      && ReadBytes(t, UNTRUSTED_PACKAGE).Some? && ParseAndDecode(f, ReadBytes(t, UNTRUSTED_PACKAGE).value).Ok?
      && var key := f.loadPem(FileAt(t, TRUSTED_KEY).value).value;
         && ParseAndDecode(f, ReadBytes(t, TRUSTED_PACKAGE).value).value.signerPublicKey == key
         && ParseAndDecode(f, ReadBytes(t, UNTRUSTED_PACKAGE).value).value.signerPublicKey != key
  }

  predicate SameInput(xs: seq<ExecutionEvidence>) {
    var v, p := ByRole(xs, Vulnerable), ByRole(xs, Patched);
    v.Some? && p.Some? ==>
      v.value.package.envelopeSha256 == p.value.package.envelopeSha256 && v.value.requestBodySha256 == p.value.requestBodySha256
  }

  /** The evidence file is the JSON text `null`. */
  predicate NullEvidence(f: Functions, t: Tree) {
    Regular(t, EVIDENCE) && f.isStrictJson(t[EVIDENCE].content) && f.isNull(t[EVIDENCE].content)
  }

  /** The document that verification goes on to check. */
  function EvidenceIn(f: Functions, t: Tree): Option<EvidenceDocument> {
    if Regular(t, EVIDENCE) && f.isStrictJson(t[EVIDENCE].content) && !f.isNull(t[EVIDENCE].content) then
      f.parseEvidence(t[EVIDENCE].content)
    else None
  }

  function ArtifactPaths(rs: seq<ArtifactRecord>): set<string> {
    set r | r in rs :: r.path
  }

  /** Everything the evidence document says is borne out by the files, and by recomputation. */
  predicate DocumentAccepted(f: Functions, t: Tree, paths: set<string>, e: EvidenceDocument) {
    && OnePerRole(e.executions)
    && SameInput(e.executions)
    && (forall i | 0 <= i < |e.executions| :: Consistent(e.executions[i]))
    && e.outcome == VerificationOutcome(e.executions)
    && ArtifactPaths(e.bundleFiles) == EXPECTED_ARTIFACTS
    && (forall i | 0 <= i < |e.bundleFiles| :: RecordAccepted(f, t, paths, e.bundleFiles[i]))
    && (forall i | 0 <= i < |e.executions| :: ExecutionAccepted(f, t, paths, e.executions[i]))
    && (forall role :: TrustHolds(e.executions, role))
    && TrustMaterialAccepted(f, t)
  }

  /** There is a document, and it is accepted. */
  predicate EvidenceAccepted(f: Functions, t: Tree, paths: set<string>) {
    && EvidenceIn(f, t).Some?
    && f.meetsSchema(t[EVIDENCE].content)
    && DocumentAccepted(f, t, paths, EvidenceIn(f, t).value)
  }

  /** The bundles `verify_bundle` finds no failure in: evidence that is `null` is let through unchecked. */
  predicate BundleAccepted(f: Functions, t: Tree) {
    && ManifestAccepted(f, t)
    && (NullEvidence(f, t) || EvidenceAccepted(f, t, ManifestPaths(ManifestIn(f, t).value)))
    && "report.html" in ManifestPaths(ManifestIn(f, t).value) && IsFile(t, REPORT)
  }

  /** `_record_failures`. */
  method RecordFailures(f: Functions, t: Tree, paths: set<string>, r: ArtifactRecord) returns (failures: seq<Failure>)
    ensures failures == [] <==> RecordAccepted(f, t, paths, r)
  {
    hide SafeRelativePath;
    failures := [];
    var safe := SafeRelativePath(r.path);
    if safe.Err? {
      return [ArtifactPath(r.path)];
    }
    if r.path !in paths {
      failures := failures + [ArtifactUnlisted(r.path)];
    }
    var file := FileAt(t, safe.value);
    if file.None? {
      failures := failures + [ArtifactMissing(r.path)];
      return;
    }
    var content := file.value;
    if |content| != r.sizeBytes {
      failures := failures + [ArtifactSize(r.path)];
    }
    if f.sha256(content) != r.sha256 {
      failures := failures + [ArtifactHash(r.path)];
    }
  }

  method AllRecordFailures(f: Functions, t: Tree, paths: set<string>, rs: seq<ArtifactRecord>) returns (failures: seq<Failure>)
    ensures failures == [] <==> forall i | 0 <= i < |rs| :: RecordAccepted(f, t, paths, rs[i])
  {
    hide RecordAccepted;
    failures := [];
    for n := 0 to |rs|
      invariant failures == [] <==> forall i | 0 <= i < n :: RecordAccepted(f, t, paths, rs[i])
    {
      var more := RecordFailures(f, t, paths, rs[n]);
      failures := failures + more;
    }
  }

  /** `_package_record_failures`. */
  method PackageFailures(f: Functions, t: Tree, paths: set<string>, x: ExecutionEvidence) returns (failures: seq<Failure>)
    ensures failures == [] <==> PackageAccepted(f, t, paths, x)
  {
    hide SafeRelativePath, ParseAndDecode, IntegrityFailure, SignatureVerifies;
    failures := [];
    var name := x.package.filename;
    var safe := SafeRelativePath(name);
    if safe.Err? {
      return [PackageInvalid(name)];
    }
    if name !in paths {
      failures := failures + [PackageInvalid(name)];
    }
    var file := FileAt(t, safe.value);
    if file.None? {
      failures := failures + [PackageInvalid(name)];
      return;
    }
    var raw := file.value;
    if f.sha256(raw) != x.package.envelopeSha256 {
      failures := failures + [PackageInvalid(name)];
    }
    var parsed := ParseAndDecode(f, raw);
    if parsed.Err? || IntegrityFailure(f, parsed.value).Some? {
      failures := failures + [PackageInvalid(name)];
      return;
    }
    if parsed.value.envelope.manifest.payloadSha256 != x.package.sha256 {
      failures := failures + [PackageInvalid(name)];
    }
    if f.sha256(parsed.value.signerPublicKey) != x.package.signerFingerprint {
      failures := failures + [PackageInvalid(name)];
    }
    if !SignatureVerifies(f, parsed.value) {
      failures := failures + [PackageInvalid(name)];
    }
  }

  function RawComparisons(r: RawScenarioRecord, x: ExecutionEvidence): seq<bool> {
    [r.executionId == x.executionId,
     r.role == x.role,
     r.startedAt == x.startedAt,
     r.finishedAt == x.finishedAt,
     r.requestBodySha256 == x.requestBodySha256,
     r.before == x.before,
     r.after == x.after,
     r.resetConfirmed,
     Says(r.gatewayResponse, "decision", DecisionText(x.observedDecision)),
     Says(r.gatewayResponse, "reason_code", x.response.reasonCode)]
  }

  lemma RawMatchesExactly(r: RawScenarioRecord, x: ExecutionEvidence)
    ensures RawMatches(r, x) <==> forall i | 0 <= i < |RawComparisons(r, x)| :: RawComparisons(r, x)[i]
  {
    hide DecisionText, Says;
    var c := RawComparisons(r, x);
    if forall i | 0 <= i < |c| :: c[i] {
      assert c[0] && c[1] && c[2] && c[3] && c[4] && c[5] && c[6] && c[7] && c[8] && c[9];
    }
  }

  /** `_raw_record_failures`: one failure for each comparison that does not hold. */
  method RawFailures(f: Functions, t: Tree, x: ExecutionEvidence) returns (failures: seq<Failure>)
    ensures failures == [] <==> RawAccepted(f, t, x)
  {
    hide RawParts, RawPath, ReadBytes, RawComparisons, RawMatches;
    if |x.artifacts| != 1 || x.artifacts[0].path != RawPath(x.role) {
      return [RawRecord(x.role)];
    }
    var content := ReadBytes(t, RawParts(x.role));
    if content.None? {
      return [RawRecord(x.role)];
    }
    var parsed := f.parseRaw(content.value);
    if parsed.None? {
      return [RawRecord(x.role)];
    }
    var comparisons := RawComparisons(parsed.value, x);
    RawMatchesExactly(parsed.value, x);
    failures := [];
    for n := 0 to |comparisons|
      invariant failures == [] <==> forall i | 0 <= i < n :: comparisons[i]
    {
      if !comparisons[n] {
        failures := failures + [RawRecord(x.role)];
      }
    }
  }

  method ExecutionFailures(f: Functions, t: Tree, paths: set<string>, xs: seq<ExecutionEvidence>) returns (failures: seq<Failure>)
    ensures failures == [] <==> forall i | 0 <= i < |xs| :: ExecutionAccepted(f, t, paths, xs[i])
  {
    hide PackageAccepted, RawAccepted, RecordAccepted;
    failures := [];
    for n := 0 to |xs|
      invariant failures == [] <==> forall i | 0 <= i < n :: ExecutionAccepted(f, t, paths, xs[i])
    {
      var package := PackageFailures(f, t, paths, xs[n]);
      var raw := RawFailures(f, t, xs[n]);
      var records := AllRecordFailures(f, t, paths, xs[n].artifacts);
      failures := failures + package + raw + records;
    }
  }

  method TrustFailures(f: Functions, t: Tree, xs: seq<ExecutionEvidence>) returns (failures: seq<Failure>)
    ensures failures == [] <==>
            (forall role :: TrustHolds(xs, role)) && (ByRole(xs, PositiveControl).Some? ==> TrustMaterialAccepted(f, t))
  {
    hide ByRole, TrustMaterialAccepted, TrustHolds;
    failures := [];
    if !TrustHolds(xs, Vulnerable) {
      failures := failures + [SignerTrustWrong(Vulnerable)];
    }
    if !TrustHolds(xs, Patched) {
      failures := failures + [SignerTrustWrong(Patched)];
    }
    if !TrustHolds(xs, PositiveControl) {
      failures := failures + [SignerTrustWrong(PositiveControl)];
    }
    if ByRole(xs, PositiveControl).Some? && !TrustMaterialAccepted(f, t) {
      failures := failures + [TrustMaterial];
    }
    TrustForEveryRole(xs);
  }

  lemma TrustForEveryRole(xs: seq<ExecutionEvidence>)
    ensures (forall role :: TrustHolds(xs, role)) <==>
            TrustHolds(xs, Vulnerable) && TrustHolds(xs, Patched) && TrustHolds(xs, PositiveControl)
  {
    hide TrustHolds;
    if TrustHolds(xs, Vulnerable) && TrustHolds(xs, Patched) && TrustHolds(xs, PositiveControl) {
      forall role ensures TrustHolds(xs, role) {
        match role case Vulnerable => case Patched => case PositiveControl =>
      }
    }
  }

  method DocumentFailures(f: Functions, t: Tree, paths: set<string>, e: EvidenceDocument) returns (failures: seq<Failure>)
    ensures failures == [] <==> DocumentAccepted(f, t, paths, e)
  {
    hide OnePerRole, SameInput, Consistent, VerificationOutcome, RecordAccepted, ExecutionAccepted, TrustHolds, TrustMaterialAccepted;
    failures := [];
    if !OnePerRole(e.executions) {
      failures := failures + [EvidenceRoles];
    }
    if !SameInput(e.executions) {
      failures := failures + [EnvelopesDiffer];
    }
    var inconsistent := ConsistencyFailures(e.executions);
    failures := failures + seq(|inconsistent|, i requires 0 <= i < |inconsistent| => Inconsistent(inconsistent[i]));
    if e.outcome != VerificationOutcome(e.executions) {
      failures := failures + [StoredOutcome];
    }
    if ArtifactPaths(e.bundleFiles) != EXPECTED_ARTIFACTS {
      failures := failures + [ArtifactSet];
    }
    var records := AllRecordFailures(f, t, paths, e.bundleFiles);
    var executions := ExecutionFailures(f, t, paths, e.executions);
    failures := failures + records + executions;
    var trust := TrustFailures(f, t, e.executions);
    failures := failures + trust;
    if OnePerRole(e.executions) {
      OnePerRoleIsTrio(e.executions);
    }
  }

  method EvidenceFailures(f: Functions, t: Tree, paths: set<string>) returns (failures: seq<Failure>, outcome: Option<Outcome>)
    ensures failures == [] <==> NullEvidence(f, t) || EvidenceAccepted(f, t, paths)
    ensures outcome == if EvidenceIn(f, t).Some? then Some(VerificationOutcome(EvidenceIn(f, t).value.executions)) else None
  {
    hide DocumentAccepted, VerificationOutcome;
    if !Regular(t, EVIDENCE) {
      return [EvidenceMissing], None;
    }
    var content := t[EVIDENCE].content;
    if !f.isStrictJson(content) {
      return [EvidenceNotStrictJson], None;
    }
    failures := [];
    if f.isNull(content) {
      return [], None;
    }
    if !f.meetsSchema(content) {
      failures := failures + [EvidenceSchema];
    }
    var evidence := f.parseEvidence(content);
    if evidence.None? {
      return failures + [EvidenceModel], None;
    }
    var more := DocumentFailures(f, t, paths, evidence.value);
    failures := failures + more;
    outcome := Some(VerificationOutcome(evidence.value.executions));
  }

  /** What the given path leads to, and whether its resolved location is inside the repository. */
  datatype Root = NoDirectory | LinkedDirectory | Directory(tree: Tree, inside: bool)

  /** `verify_bundle`. */
  method VerifyBundle(f: Functions, root: Root, allowExternal: bool) returns (r: VerificationResult)
    ensures r.valid <==> r.failures == []
    ensures r.valid <==> root.Directory? && (allowExternal || root.inside) && BundleAccepted(f, root.tree)
    ensures root.Directory? ==> r.manifestSha256 == DigestOf(root.tree)
    ensures root.Directory? ==>
              r.outcome == if EvidenceIn(f, root.tree).Some? then Some(VerificationOutcome(EvidenceIn(f, root.tree).value.executions)) else None
    ensures r.valid ==> r.entryCount == |ManifestIn(f, root.tree).value|
    ensures r.valid ==> (r.outcome.Some? <==> !NullEvidence(f, root.tree))
  {
    hide ManifestAccepted, NullEvidence, VerificationOutcome, ManifestPaths, DigestOf, EvidenceIn;
    match root
    case NoDirectory => return VerificationResult(false, [NotADirectory], None, None, 0);
    case LinkedDirectory => return VerificationResult(false, [SymlinkedRoot], None, None, 0);
    case Directory(t, inside) =>
      var failures := [];
      if !allowExternal && !inside {
        failures := [OutsideRepository];
      }
      var manifest, digest, paths, count := ManifestFailures(f, t);
      var evidence, outcome := EvidenceFailures(f, t, paths);
      failures := failures + manifest + evidence;
      if "report.html" !in paths || !IsFile(t, REPORT) {
        failures := failures + [ReportMissing];
      }
      r := VerificationResult(failures == [], failures, outcome, digest, count);
      if BundleAccepted(f, t) {
        AcceptedHasManifest(f, t);
        OutcomeUnlessNull(f, t);
      }
  }

  lemma AcceptedHasManifest(f: Functions, t: Tree)
    ensures ManifestAccepted(f, t) ==> ManifestIn(f, t).Some?
  {
  }

  /**
    * A bundle that verifies holds a checked document exactly when its evidence file is not `null`;
    * otherwise its evidence was never looked at.
    */
  lemma OutcomeUnlessNull(f: Functions, t: Tree)
    requires BundleAccepted(f, t)
    ensures ManifestIn(f, t).Some?
    ensures EvidenceIn(f, t).Some? <==> !NullEvidence(f, t)
    ensures EvidenceAccepted(f, t, ManifestPaths(ManifestIn(f, t).value)) <==> !NullEvidence(f, t)
  {
    hide DocumentAccepted, ManifestPaths, DigestOf, FilesOf, EntryAccepted;
  }
}
