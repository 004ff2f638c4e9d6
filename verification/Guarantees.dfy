/** What verification guarantees about a bundle's files, and nothing less: an account without its predicates. */
module Guarantees {
  import opened Prelude
  import opened Paths
  import opened Evidence
  import opened Verdicts
  import opened Library
  import opened Canonical
  import opened Package
  import opened Bundle
  import opened Verification
  import opened Layout
  import opened Presentation

  /** A relative name of the one spelling that leads below the bundle. */
  predicate SafeName(name: string) {
    var p := Parts(name);
    Legal(p) && Join(p) == name && '\\' !in name && !HasDrivePrefix(name)
  }

  /** The bytes of the file of that name, if there is one that is no link. */
  function BytesNamed(t: Tree, name: string): Option<Bytes> {
    var p := Parts(name);
    if SafeName(name) && p in t && t[p].File? then Some(t[p].content) else None
  }

  predicate SizedAndHashed(f: Functions, t: Tree, name: string, size: nat, sha256: string) {
    BytesNamed(t, name).Some? && |BytesNamed(t, name).value| == size && f.sha256(BytesNamed(t, name).value) == sha256
  }

  /** Neither the manifest nor its digest. */
  predicate Payload(name: string) {
    name != "manifest.json" && name != "manifest.sha256"
  }

  /* ---- The seal ---- */

  predicate DigestSpelled(digest: Bytes, d: string) {
    IsSha256(d) && (digest == DigestLine(d) + [10] || digest == DigestLine(d) + [13] || digest == DigestLine(d) + [13, 10])
  }

  /** Files only; a digest of the manifest; a manifest of every other file, with its size and hash; and a report. */
  predicate SealedFiles(f: Functions, t: Tree) {
    && (forall p | p in t :: t[p].File?)
    && ["manifest.json"] in t && ["manifest.sha256"] in t
    && DigestSpelled(t[["manifest.sha256"]].content, f.sha256(t[["manifest.json"]].content))
    && f.parseManifest(t[["manifest.json"]].content).Some?
    && var m := f.parseManifest(t[["manifest.json"]].content).value;
       && (forall i | 0 <= i < |m| :: Payload(m[i].path) && SizedAndHashed(f, t, m[i].path, m[i].sizeBytes, m[i].sha256))
       && (forall p | p in t && Payload(Join(p)) :: exists i :: 0 <= i < |m| && m[i].path == Join(p))
       && BytesNamed(t, "report.html").Some?
  }

  /* ---- The document ---- */

  predicate RecordBorneOut(f: Functions, t: Tree, r: ArtifactRecord) {
    Payload(r.path) && SizedAndHashed(f, t, r.path, r.sizeBytes, r.sha256)
  }

  /**
    * The file an execution names hashes to its envelope hash and is a package: intact, of the recorded
    * payload, and signed by the key of the recorded fingerprint.
    */
  ghost predicate PackageBorneOut(f: Functions, t: Tree, x: ExecutionEvidence) {
    && Payload(x.package.filename)
    && BytesNamed(t, x.package.filename).Some?
    && var raw := BytesNamed(t, x.package.filename).value;
       && f.sha256(raw) == x.package.envelopeSha256
       && exists e, payload, key, signature ::
            && Carries(f, raw, e, payload, key, signature)
            && |payload| == e.manifest.payloadSize && f.sha256(payload) == e.manifest.payloadSha256 == x.package.sha256
            && f.sha256(key) == x.package.signerFingerprint
            && f.verify(key, ManifestBytes(e.manifest), signature)
  }

  function RawName(role: Role): string {
    match role
    case Vulnerable => "raw/vulnerable.json"
    case Patched => "raw/patched.json"
    case PositiveControl => "raw/positive-control.json"
  }

  /** The raw record tells of the same request, times and states, of a reset, and of a reply with that decision and reason. */
  predicate RawTells(r: RawScenarioRecord, x: ExecutionEvidence) {
    && r.executionId == x.executionId && r.role == x.role && r.startedAt == x.startedAt && r.finishedAt == x.finishedAt
    && r.requestBodySha256 == x.requestBodySha256 && r.before == x.before && r.after == x.after && r.resetConfirmed
    && "reason_code" in r.gatewayResponse && r.gatewayResponse["reason_code"] == JString(x.response.reasonCode)
    && "decision" in r.gatewayResponse
    && r.gatewayResponse["decision"] == JString(match x.observedDecision
                                                case Accepted => "ACCEPTED" case Rejected => "REJECTED" case Error => "ERROR")
  }

  predicate RawBorneOut(f: Functions, t: Tree, x: ExecutionEvidence) {
    && |x.artifacts| == 1 && x.artifacts[0].path == RawName(x.role)
    && BytesNamed(t, RawName(x.role)).Some?
    && f.parseRaw(BytesNamed(t, RawName(x.role)).value).Some?
    && RawTells(f.parseRaw(BytesNamed(t, RawName(x.role)).value).value, x)
  }

  /** What an execution says of itself is what is recomputed of it. */
  predicate SelfConsistent(x: ExecutionEvidence) {
    && x.securityVerdict == IndividualVerdict(x) && x.observedDecision == x.response.decision
    && x.secureExpectedDecision == (if x.role == PositiveControl then Accepted else Rejected)
    && x.package.signerTrust == (if x.role == PositiveControl then Trusted else Untrusted)
  }

  /** Everything an execution's record must meet. */
  ghost predicate ExecutionBorneOut(f: Functions, t: Tree, x: ExecutionEvidence) {
    && SelfConsistent(x) && PackageBorneOut(f, t, x) && RawBorneOut(f, t, x)
    && forall r | r in x.artifacts :: RecordBorneOut(f, t, r)
  }

  const PEM_NAME := "trust/trusted-public-key.pem"
  const TRUSTED_NAME := "packages/trusted-update.json"
  const UNTRUSTED_NAME := "packages/untrusted-update.json"

  /** A package of this signer's key. */
  ghost predicate CarriesKey(f: Functions, raw: Bytes, key: Bytes) {
    exists e, p, s :: Carries(f, raw, e, p, key, s)
  }

  /** Of the two package files exactly the trusted one is of the key in the bundle's PEM file. */
  ghost predicate KeysBorneOut(f: Functions, t: Tree) {
    && BytesNamed(t, PEM_NAME).Some? && f.loadPem(BytesNamed(t, PEM_NAME).value).Some?
    && BytesNamed(t, TRUSTED_NAME).Some? && BytesNamed(t, UNTRUSTED_NAME).Some?
    && var key := f.loadPem(BytesNamed(t, PEM_NAME).value).value;
       && CarriesKey(f, BytesNamed(t, TRUSTED_NAME).value, key)
       && exists k :: k != key && CarriesKey(f, BytesNamed(t, UNTRUSTED_NAME).value, k)
  }

  const ARTIFACTS: set<string> := {
    "packages/untrusted-update.json", "packages/trusted-update.json", "raw/vulnerable.json", "raw/patched.json",
    "raw/positive-control.json", "trust/trusted-public-key.pem", "run.log"}

  ghost predicate DocumentBorneOut(f: Functions, t: Tree, e: EvidenceDocument) {
    && (exists v, p, c :: Trio(e.executions, v, p, c)
                          && v.package.envelopeSha256 == p.package.envelopeSha256 && v.requestBodySha256 == p.requestBodySha256)
    && e.outcome == VerificationOutcome(e.executions)
    && (forall name :: name in ARTIFACTS <==> exists r :: r in e.bundleFiles && r.path == name)
    && (forall r | r in e.bundleFiles :: RecordBorneOut(f, t, r))
    && (forall x | x in e.executions :: ExecutionBorneOut(f, t, x))
    && KeysBorneOut(f, t)
  }

  /** There is a strict document that meets the schema, and the files bear it out. */
  ghost predicate EvidenceBorneOut(f: Functions, t: Tree) {
    && ["evidence.json"] in t && t[["evidence.json"]].File?
    && var content := t[["evidence.json"]].content;
       && f.isStrictJson(content) && !f.isNull(content) && f.meetsSchema(content)
       && f.parseEvidence(content).Some? && DocumentBorneOut(f, t, f.parseEvidence(content).value)
  }

  /* ---- Names and paths ---- */

  lemma SafeNameExactly(name: string)
    ensures SafeRelativePath(name).Ok? <==> SafeName(name)
    ensures SafeName(name) ==> SafeRelativePath(name) == Ok(Parts(name))
  {
    SafeExactly(name, Parts(name));
    if SafeRelativePath(name).Ok? {
      var p := SafeRelativePath(name).value;
      SafeExactly(name, p);
      PartsJoin(p);
    }
  }

  lemma NameOfPath(t: Tree, p: Path)
    requires Legal(p) && p in t && t[p].File? && '\\' !in Join(p) && !HasDrivePrefix(Join(p))
    ensures BytesNamed(t, Join(p)) == Some(t[p].content)
  {
    PartsJoin(p);
  }

  /** Without links, a file found under a safe name is the file of that name. */
  lemma FileFound(t: Tree, name: string)
    requires NoLinks(t)
    ensures SafeRelativePath(name).Ok? ==>
              && FileAt(t, SafeRelativePath(name).value) == BytesNamed(t, name)
              && ReadBytes(t, SafeRelativePath(name).value) == BytesNamed(t, name)
    ensures SafeRelativePath(name).Err? ==> BytesNamed(t, name) == None
  {
    SafeNameExactly(name);
    hide SafeRelativePath, SafeName, Legal, Join, Parts;
    if SafeRelativePath(name).Ok? {
      FileAtWithoutLinks(t, Parts(name));
    }
  }

  lemma Matches(f: Functions, t: Tree, name: string, size: nat, sha256: string)
    requires NoLinks(t)
    ensures SafeRelativePath(name).Ok? && FileMatches(f, t, SafeRelativePath(name).value, size, sha256) <==>
            SizedAndHashed(f, t, name, size, sha256)
  {
    FileFound(t, name);
    hide SafeRelativePath, FileAt, BytesNamed;
  }

  lemma OwnOrPayload(name: string)
    ensures Payload(name) <==> name !in OWN_NAMES
  {
  }

  /** The listed names that verification goes on with are names of files, and all of them but the seal's own. */
  ghost predicate Covers(t: Tree, paths: set<string>) {
    && (forall name | name in paths :: Payload(name))
    && forall name | Payload(name) && BytesNamed(t, name).Some? :: name in paths
  }

  /* ---- Each check is exactly its account ---- */

  lemma RecordExactly(f: Functions, t: Tree, paths: set<string>, r: ArtifactRecord)
    requires NoLinks(t) && Covers(t, paths)
    ensures RecordAccepted(f, t, paths, r) <==> RecordBorneOut(f, t, r)
  {
    Matches(f, t, r.path, r.sizeBytes, r.sha256);
    hide SafeRelativePath, FileMatches, BytesNamed;
  }

  lemma PackageExactly(f: Functions, t: Tree, paths: set<string>, x: ExecutionEvidence)
    requires NoLinks(t) && Covers(t, paths)
    ensures PackageAccepted(f, t, paths, x) <==> PackageBorneOut(f, t, x)
  {
    var name := x.package.filename;
    FileFound(t, name);
    hide SafeRelativePath, FileAt, ReadBytes, BytesNamed, ParseAndDecode, Carries;
    if BytesNamed(t, name).Some? {
      DecodedCarries(f, BytesNamed(t, name).value);
    }
  }

  lemma RawFileFound(t: Tree, role: Role)
    requires NoLinks(t)
    ensures ReadBytes(t, RawParts(role)) == BytesNamed(t, RawName(role)) && RawPath(role) == RawName(role)
  {
    PlaceIsSafe(RawFile(role));
    FileFound(t, RawName(role));
    hide SafeRelativePath, ReadBytes, BytesNamed;
  }

  lemma RawExactly(f: Functions, t: Tree, x: ExecutionEvidence)
    requires NoLinks(t)
    ensures RawAccepted(f, t, x) <==> RawBorneOut(f, t, x)
  {
    RawFileFound(t, x.role);
    hide NoLinks, ReadBytes, BytesNamed, RawParts, RawPath, RawName, RawMatches, RawTells;
    if BytesNamed(t, RawName(x.role)).Some? && f.parseRaw(BytesNamed(t, RawName(x.role)).value).Some? {
      SameTale(f.parseRaw(BytesNamed(t, RawName(x.role)).value).value, x);
    }
  }

  lemma SameTale(r: RawScenarioRecord, x: ExecutionEvidence)
    ensures RawMatches(r, x) <==> RawTells(r, x)
  {
  }

  lemma PlaceFound(t: Tree, x: Place)
    requires NoLinks(t)
    ensures FileAt(t, At(x)) == ReadBytes(t, At(x)) == BytesNamed(t, Name(x))
  {
    PlaceIsSafe(x);
    FileFound(t, Name(x));
    hide SafeRelativePath, FileAt, ReadBytes, BytesNamed, At, Name;
  }

  lemma KeyCarried(f: Functions, raw: Bytes)
    ensures forall key :: CarriesKey(f, raw, key) <==> ParseAndDecode(f, raw).Ok? && ParseAndDecode(f, raw).value.signerPublicKey == key
  {
    DecodedCarries(f, raw);
    hide ParseAndDecode, Carries;
  }

  lemma PemFile(t: Tree)
    requires NoLinks(t)
    ensures FileAt(t, TRUSTED_KEY) == BytesNamed(t, PEM_NAME)
  {
    hide NoLinks, FileAt, ReadBytes, BytesNamed;
    PlaceFound(t, TrustedKey);
  }

  lemma TrustedFile(t: Tree)
    requires NoLinks(t)
    ensures ReadBytes(t, TRUSTED_PACKAGE) == BytesNamed(t, TRUSTED_NAME)
  {
    hide NoLinks, FileAt, ReadBytes, BytesNamed;
    PlaceFound(t, TrustedPackage);
  }

  lemma UntrustedFile(t: Tree)
    requires NoLinks(t)
    ensures ReadBytes(t, UNTRUSTED_PACKAGE) == BytesNamed(t, UNTRUSTED_NAME)
  {
    hide NoLinks, FileAt, ReadBytes, BytesNamed;
    PlaceFound(t, UntrustedPackage);
  }

  /** The key material, once the PEM file is there. */
  lemma KeysExactly(f: Functions, t: Tree)
    requires NoLinks(t) && BytesNamed(t, PEM_NAME).Some?
    ensures TrustMaterialAccepted(f, t) <==> KeysBorneOut(f, t)
  {
    hide NoLinks, FileAt, ReadBytes, BytesNamed, ParseAndDecode, CarriesKey, TRUSTED_KEY, TRUSTED_PACKAGE, UNTRUSTED_PACKAGE, PEM_NAME,
         TRUSTED_NAME, UNTRUSTED_NAME;
    PemFile(t);
    TrustedFile(t);
    UntrustedFile(t);
    var trusted, untrusted := BytesNamed(t, TRUSTED_NAME), BytesNamed(t, UNTRUSTED_NAME);
    if trusted.Some? && untrusted.Some? {
      KeyCarried(f, trusted.value);
      KeyCarried(f, untrusted.value);
      var other := ParseAndDecode(f, untrusted.value);
      assert other.Ok? ==> CarriesKey(f, untrusted.value, other.value.signerPublicKey);
    }
  }

  lemma TrustExactly(xs: seq<ExecutionEvidence>, v: ExecutionEvidence, p: ExecutionEvidence, c: ExecutionEvidence)
    requires Trio(xs, v, p, c)
    ensures (forall role :: TrustHolds(xs, role)) <==>
            forall x | x in xs :: x.package.signerTrust == if x.role == PositiveControl then Trusted else Untrusted
    ensures SameInput(xs) <==> v.package.envelopeSha256 == p.package.envelopeSha256 && v.requestBodySha256 == p.requestBodySha256
  {
    TrioEntries(xs, v, p, c);
    TrustForEveryRole(xs);
    hide ByRole, OnePerRole;
  }

  lemma ConsistentExactly(x: ExecutionEvidence)
    ensures SelfConsistent(x) <==>
            Consistent(x) && x.package.signerTrust == if x.role == PositiveControl then Trusted else Untrusted
  {
    hide IndividualVerdict;
  }

  lemma ArtifactsExactly(rs: seq<ArtifactRecord>)
    ensures ArtifactPaths(rs) == EXPECTED_ARTIFACTS <==> forall name :: name in ARTIFACTS <==> exists r :: r in rs && r.path == name
  {
    var paths := ArtifactPaths(rs);
    assert ARTIFACTS == EXPECTED_ARTIFACTS;
    assert forall name :: name in paths <==> exists r :: r in rs && r.path == name;
  }

  lemma ExecutionExactly(f: Functions, t: Tree, paths: set<string>, x: ExecutionEvidence)
    requires NoLinks(t) && Covers(t, paths)
    ensures ExecutionAccepted(f, t, paths, x) <==>
            PackageBorneOut(f, t, x) && RawBorneOut(f, t, x) && forall r | r in x.artifacts :: RecordBorneOut(f, t, r)
  {
    PackageExactly(f, t, paths, x);
    RawExactly(f, t, x);
    AllRecordsExactly(f, t, paths, x.artifacts);
    hide PackageAccepted, RawAccepted, RecordAccepted, PackageBorneOut, RawBorneOut, RecordBorneOut;
  }

  lemma AllRecordsExactly(f: Functions, t: Tree, paths: set<string>, rs: seq<ArtifactRecord>)
    requires NoLinks(t) && Covers(t, paths)
    ensures (forall i | 0 <= i < |rs| :: RecordAccepted(f, t, paths, rs[i])) <==> forall r | r in rs :: RecordBorneOut(f, t, r)
  {
    forall r ensures RecordAccepted(f, t, paths, r) <==> RecordBorneOut(f, t, r) {
      RecordExactly(f, t, paths, r);
    }
    hide RecordAccepted, RecordBorneOut;
    if forall i | 0 <= i < |rs| :: RecordAccepted(f, t, paths, rs[i]) {
      forall r | r in rs ensures RecordBorneOut(f, t, r) {
        var i :| 0 <= i < |rs| && rs[i] == r;
      }
    }
  }

  lemma AllExecutionsExactly(f: Functions, t: Tree, paths: set<string>, xs: seq<ExecutionEvidence>)
    requires NoLinks(t) && Covers(t, paths) && OnePerRole(xs)
    ensures && (forall i | 0 <= i < |xs| :: Consistent(xs[i]))
            && (forall i | 0 <= i < |xs| :: ExecutionAccepted(f, t, paths, xs[i]))
            && (forall role :: TrustHolds(xs, role))
            <==> forall x | x in xs :: ExecutionBorneOut(f, t, x)
  {
    OnePerRoleIsTrio(xs);
    TrustExactly(xs, ByRole(xs, Vulnerable).value, ByRole(xs, Patched).value, ByRole(xs, PositiveControl).value);
    forall x ensures ExecutionBorneOut(f, t, x) <==>
                     Consistent(x) && ExecutionAccepted(f, t, paths, x)
                     && x.package.signerTrust == if x.role == PositiveControl then Trusted else Untrusted
    {
      ConsistentExactly(x);
      ExecutionExactly(f, t, paths, x);
      hide *;
      ExecutionParts(f, t, x);
    }
    hide Consistent, ExecutionAccepted, ExecutionBorneOut, TrustHolds, ByRole, OnePerRole;
    assert forall i | 0 <= i < |xs| :: xs[i] in xs;
  }

  lemma ExecutionParts(f: Functions, t: Tree, x: ExecutionEvidence)
    ensures ExecutionBorneOut(f, t, x) <==>
            SelfConsistent(x) && PackageBorneOut(f, t, x) && RawBorneOut(f, t, x) && forall r | r in x.artifacts :: RecordBorneOut(f, t, r)
  {
    hide SelfConsistent, PackageBorneOut, RawBorneOut, RecordBorneOut;
  }

  lemma TrioExactly(xs: seq<ExecutionEvidence>)
    ensures OnePerRole(xs) && SameInput(xs) <==>
            exists v, p, c :: Trio(xs, v, p, c)
                              && v.package.envelopeSha256 == p.package.envelopeSha256 && v.requestBodySha256 == p.requestBodySha256
  {
    if OnePerRole(xs) {
      OnePerRoleIsTrio(xs);
      TrustExactly(xs, ByRole(xs, Vulnerable).value, ByRole(xs, Patched).value, ByRole(xs, PositiveControl).value);
    }
    forall v, p, c | Trio(xs, v, p, c)
      ensures OnePerRole(xs)
      ensures SameInput(xs) <==> v.package.envelopeSha256 == p.package.envelopeSha256 && v.requestBodySha256 == p.requestBodySha256
    {
      TrioEntries(xs, v, p, c);
      TrustExactly(xs, v, p, c);
    }
    hide SameInput, ByRole, OnePerRole;
  }

  lemma PemIsThere(f: Functions, t: Tree, rs: seq<ArtifactRecord>)
    requires forall name :: name in ARTIFACTS <==> exists r :: r in rs && r.path == name
    requires forall r | r in rs :: RecordBorneOut(f, t, r)
    ensures BytesNamed(t, PEM_NAME).Some?
  {
    hide BytesNamed;
    assert PEM_NAME in ARTIFACTS;
    var r :| r in rs && r.path == PEM_NAME;
    assert RecordBorneOut(f, t, r);
  }

  /** The evidence part of verification, as a whole. */
  lemma DocumentExactly(f: Functions, t: Tree, paths: set<string>, e: EvidenceDocument)
    requires NoLinks(t) && Covers(t, paths)
    ensures DocumentAccepted(f, t, paths, e) <==> DocumentBorneOut(f, t, e)
  {
    hide *;
    TrioExactly(e.executions);
    ArtifactsExactly(e.bundleFiles);
    AllRecordsExactly(f, t, paths, e.bundleFiles);
    if OnePerRole(e.executions) {
      AllExecutionsExactly(f, t, paths, e.executions);
    }
    if ArtifactPaths(e.bundleFiles) == EXPECTED_ARTIFACTS && forall r | r in e.bundleFiles :: RecordBorneOut(f, t, r) {
      PemIsThere(f, t, e.bundleFiles);
      KeysExactly(f, t);
    }
    DocumentParts(f, t, paths, e);
  }

  /** The two definitions side by side. */
  lemma DocumentParts(f: Functions, t: Tree, paths: set<string>, e: EvidenceDocument)
    ensures DocumentAccepted(f, t, paths, e) <==>
            && OnePerRole(e.executions) && SameInput(e.executions)
            && (forall i | 0 <= i < |e.executions| :: Consistent(e.executions[i]))
            && e.outcome == VerificationOutcome(e.executions)
            && ArtifactPaths(e.bundleFiles) == EXPECTED_ARTIFACTS
            && (forall i | 0 <= i < |e.bundleFiles| :: RecordAccepted(f, t, paths, e.bundleFiles[i]))
            && (forall i | 0 <= i < |e.executions| :: ExecutionAccepted(f, t, paths, e.executions[i]))
            && (forall role :: TrustHolds(e.executions, role))
            && TrustMaterialAccepted(f, t)
    ensures DocumentBorneOut(f, t, e) <==>
            && (exists v, p, c :: Trio(e.executions, v, p, c)
                                  && v.package.envelopeSha256 == p.package.envelopeSha256 && v.requestBodySha256 == p.requestBodySha256)
            && e.outcome == VerificationOutcome(e.executions)
            && (forall name :: name in ARTIFACTS <==> exists r :: r in e.bundleFiles && r.path == name)
            && (forall r | r in e.bundleFiles :: RecordBorneOut(f, t, r))
            && (forall x | x in e.executions :: ExecutionBorneOut(f, t, x))
            && KeysBorneOut(f, t)
  {
    hide OnePerRole, SameInput, Consistent, VerificationOutcome, ArtifactPaths, EXPECTED_ARTIFACTS, ARTIFACTS, RecordAccepted, RecordBorneOut,
         ExecutionAccepted, ExecutionBorneOut, TrustHolds, TrustMaterialAccepted, KeysBorneOut, Trio;
  }

  /* ---- The seal is exactly its account ---- */

  lemma EntryExactly(f: Functions, t: Tree, e: ManifestEntry)
    requires NoLinks(t)
    ensures EntryAccepted(f, t, e) <==> Payload(e.path) && SizedAndHashed(f, t, e.path, e.sizeBytes, e.sha256)
  {
    Matches(f, t, e.path, e.sizeBytes, e.sha256);
    hide SafeRelativePath, FileMatches, SizedAndHashed;
  }

  lemma DigestExactly(t: Tree, d: string)
    ensures Regular(t, DIGEST) && DigestOf(t) == Some(d) <==>
            ["manifest.sha256"] in t && t[["manifest.sha256"]].File? && DigestSpelled(t[["manifest.sha256"]].content, d)
  {
    if Regular(t, DIGEST) {
      DigestSpellings(t[DIGEST].content, d);
    }
    hide DigestIn;
  }

  lemma NameIsFile(t: Tree, name: string)
    requires BytesNamed(t, name).Some?
    ensures name in FilesOf(t)
  {
    hide Legal, Parts;
    assert Join(Parts(name)) == name;
  }

  /** The manifest's names, all usable. */
  lemma ListedNames(t: Tree, m: BundleManifest)
    requires forall i | 0 <= i < |m| :: Payload(m[i].path) && BytesNamed(t, m[i].path).Some?
    ensures forall name :: name in ManifestPaths(m) <==> exists i :: 0 <= i < |m| && m[i].path == name
    ensures ManifestPaths(m) <= FilesOf(t)
  {
    forall i | 0 <= i < |m| ensures UsableName(m[i].path) && m[i].path in FilesOf(t) {
      SafeNameExactly(m[i].path);
      NameIsFile(t, m[i].path);
    }
    hide UsableName, FilesOf;
  }

  /** Every file is named by the manifest or is the seal's own. */
  lemma NamesOfFiles(t: Tree, m: BundleManifest)
    requires NoLinks(t) && MANIFEST in t && DIGEST in t
    requires forall i | 0 <= i < |m| :: Payload(m[i].path) && BytesNamed(t, m[i].path).Some?
    ensures FilesOf(t) == ManifestPaths(m) + OWN_NAMES <==>
            forall p | p in t && Payload(Join(p)) :: exists i :: 0 <= i < |m| && m[i].path == Join(p)
  {
    ListedNames(t, m);
    OwnPaths(MANIFEST);
    OwnNames(t);
    hide *;
    NamesCovered(t, m);
  }

  lemma OwnNames(t: Tree)
    requires NoLinks(t) && MANIFEST in t && DIGEST in t
    ensures OWN_NAMES <= FilesOf(t)
  {
    OwnPaths(MANIFEST);
    assert Join(MANIFEST) in FilesOf(t) && Join(DIGEST) in FilesOf(t);
  }

  lemma NamesCovered(t: Tree, m: BundleManifest)
    requires NoLinks(t) && OWN_NAMES <= FilesOf(t) && ManifestPaths(m) <= FilesOf(t)
    requires forall name :: name in ManifestPaths(m) <==> exists i :: 0 <= i < |m| && m[i].path == name
    ensures FilesOf(t) == ManifestPaths(m) + OWN_NAMES <==>
            forall p | p in t && Payload(Join(p)) :: exists i :: 0 <= i < |m| && m[i].path == Join(p)
  {
    hide Join, ManifestPaths;
    if FilesOf(t) == ManifestPaths(m) + OWN_NAMES {
      forall p | p in t && Payload(Join(p)) ensures Join(p) in ManifestPaths(m) {
        assert Join(p) in FilesOf(t);
      }
    }
    if forall p | p in t && Payload(Join(p)) :: exists i :: 0 <= i < |m| && m[i].path == Join(p) {
      assert FilesOf(t) <= ManifestPaths(m) + OWN_NAMES;
    }
  }

  lemma EntriesExactly(f: Functions, t: Tree, m: BundleManifest)
    requires NoLinks(t)
    ensures (forall i | 0 <= i < |m| :: EntryAccepted(f, t, m[i])) <==>
            forall i | 0 <= i < |m| :: Payload(m[i].path) && SizedAndHashed(f, t, m[i].path, m[i].sizeBytes, m[i].sha256)
    ensures (forall i | 0 <= i < |m| :: EntryAccepted(f, t, m[i])) ==>
              forall i | 0 <= i < |m| :: Payload(m[i].path) && BytesNamed(t, m[i].path).Some?
  {
    forall i | 0 <= i < |m|
      ensures EntryAccepted(f, t, m[i]) <==> Payload(m[i].path) && SizedAndHashed(f, t, m[i].path, m[i].sizeBytes, m[i].sha256)
    {
      EntryExactly(f, t, m[i]);
    }
    hide EntryAccepted, BytesNamed;
  }

  /** The manifest part of verification, and the report. */
  predicate SealAccepted(f: Functions, t: Tree) {
    && ManifestAccepted(f, t)
    && "report.html" in ManifestPaths(ManifestIn(f, t).value) && IsFile(t, REPORT)
  }

  lemma SealParts(f: Functions, t: Tree)
    requires NoLinks(t) && Regular(t, MANIFEST)
    ensures ManifestIn(f, t) == f.parseManifest(t[["manifest.json"]].content)
    ensures ManifestAccepted(f, t) <==>
            && DigestOf(t) == Some(f.sha256(t[MANIFEST].content)) && ManifestIn(f, t).Some?
            && var m := ManifestIn(f, t).value;
               (forall i | 0 <= i < |m| :: EntryAccepted(f, t, m[i])) && FilesOf(t) == ManifestPaths(m) + OWN_NAMES
  {
    hide DigestOf, EntryAccepted, FilesOf, ManifestPaths;
  }

  lemma FileThere(t: Tree, p: Path)
    requires NoLinks(t)
    ensures IsFile(t, p) <==> FileAt(t, p).Some?
  {
    FileAtWithoutLinks(t, p);
    hide FileAt, ReadBytes;
  }

  lemma ReportIsPayload()
    ensures Payload("report.html")
  {
    assert |"report.html"| == 11 && |"manifest.json"| == 13 && |"manifest.sha256"| == 15;
  }

  lemma ReportFound(t: Tree)
    requires NoLinks(t)
    ensures IsFile(t, REPORT) <==> BytesNamed(t, "report.html").Some?
    ensures Payload("report.html")
  {
    ReportIsPayload();
    hide NoLinks, IsFile, BytesNamed, FileAt, ReadBytes, Payload;
    PlaceFound(t, ReportFile);
    FileThere(t, REPORT);
  }

  lemma ListedFile(t: Tree, m: BundleManifest, name: string)
    requires FilesOf(t) == ManifestPaths(m) + OWN_NAMES && Payload(name) && BytesNamed(t, name).Some?
    ensures name in ManifestPaths(m)
  {
    NameIsFile(t, name);
    OwnOrPayload(name);
    hide FilesOf, ManifestPaths, BytesNamed;
  }

  lemma ReportExactly(t: Tree, m: BundleManifest)
    requires NoLinks(t) && FilesOf(t) == ManifestPaths(m) + OWN_NAMES
    ensures "report.html" in ManifestPaths(m) && IsFile(t, REPORT) <==> BytesNamed(t, "report.html").Some?
  {
    hide *;
    ReportFound(t);
    if BytesNamed(t, "report.html").Some? {
      ListedFile(t, m, "report.html");
    }
  }

  /** What the seal guarantees is exactly what `SealedFiles` says. */
  lemma SealExactly(f: Functions, t: Tree)
    ensures SealAccepted(f, t) <==> SealedFiles(f, t)
  {
    hide ManifestAccepted, ManifestIn, DigestOf, EntryAccepted, FilesOf, ManifestPaths, BytesNamed, SizedAndHashed, DigestSpelled, Join, IsFile,
         Payload;
    if NoLinks(t) && Regular(t, MANIFEST) {
      SealParts(f, t);
      DigestExactly(t, f.sha256(t[MANIFEST].content));
      DigestIsThere(t);
      if ManifestIn(f, t).Some? && Regular(t, DIGEST) {
        var m := ManifestIn(f, t).value;
        EntriesExactly(f, t, m);
        if forall i | 0 <= i < |m| :: EntryAccepted(f, t, m[i]) {
          NamesOfFiles(t, m);
          if FilesOf(t) == ManifestPaths(m) + OWN_NAMES {
            ReportExactly(t, m);
          }
        }
      }
    } else {
      NotSealed(f, t);
    }
  }

  lemma DigestIsThere(t: Tree)
    ensures DigestOf(t).Some? ==> Regular(t, DIGEST)
  {
  }

  lemma NotSealed(f: Functions, t: Tree)
    requires !(NoLinks(t) && Regular(t, MANIFEST))
    ensures !SealAccepted(f, t) && !SealedFiles(f, t)
  {
    hide DigestOf, EntryAccepted, FilesOf, ManifestPaths, SizedAndHashed, DigestSpelled, BytesNamed;
  }

  lemma SealCovers(f: Functions, t: Tree)
    requires SealAccepted(f, t)
    ensures NoLinks(t) && ManifestIn(f, t).Some? && Covers(t, ManifestPaths(ManifestIn(f, t).value))
  {
    hide DigestOf, EntryAccepted, BytesNamed, Join;
    var paths := ManifestPaths(ManifestIn(f, t).value);
    forall name | name in paths ensures Payload(name) {
      OwnOrPayload(name);
    }
    forall name | Payload(name) && BytesNamed(t, name).Some? ensures name in paths {
      NameIsFile(t, name);
      OwnOrPayload(name);
    }
  }

  /** The evidence file is the JSON text `null`, which is not looked at. */
  predicate EvidenceIsNull(f: Functions, t: Tree) {
    && ["evidence.json"] in t && t[["evidence.json"]].File?
    && f.isStrictJson(t[["evidence.json"]].content) && f.isNull(t[["evidence.json"]].content)
  }

  /**
    * A bundle verifies if and only if its files are sealed and bear out its document, or its evidence is
    * `null`: whatever fails one of these accounts is refused, and nothing else is.
    */
  lemma VerifiesExactly(f: Functions, t: Tree)
    ensures Documented(f, t) <==> SealedFiles(f, t) && EvidenceBorneOut(f, t)
    ensures BundleAccepted(f, t) <==> SealedFiles(f, t) && (EvidenceBorneOut(f, t) || EvidenceIsNull(f, t))
  {
    SealExactly(f, t);
    if SealAccepted(f, t) {
      SealCovers(f, t);
      EvidenceExactly(f, t, ManifestPaths(ManifestIn(f, t).value));
    }
    DocumentedParts(f, t);
    hide *;
  }

  lemma DocumentedParts(f: Functions, t: Tree)
    ensures Documented(f, t) <==>
            SealAccepted(f, t) && EvidenceAccepted(f, t, ManifestPaths(ManifestIn(f, t).value))
    ensures BundleAccepted(f, t) <==>
            SealAccepted(f, t) && (EvidenceAccepted(f, t, ManifestPaths(ManifestIn(f, t).value)) || EvidenceIsNull(f, t))
  {
    hide ManifestAccepted, ManifestPaths, DocumentAccepted, IsFile, ManifestIn;
    if ManifestAccepted(f, t) {
      AcceptedHasManifest(f, t);
    }
  }

  lemma EvidenceExactly(f: Functions, t: Tree, paths: set<string>)
    requires NoLinks(t) && Covers(t, paths)
    ensures EvidenceAccepted(f, t, paths) <==> EvidenceBorneOut(f, t)
  {
    hide DocumentAccepted, DocumentBorneOut, Covers;
    if EvidenceIn(f, t).Some? {
      DocumentExactly(f, t, paths, EvidenceIn(f, t).value);
    }
  }

  /** In particular: what an execution of a verified bundle names is a package that its declared key signed. */
  lemma VerifiedPackage(f: Functions, t: Tree, x: ExecutionEvidence) returns (raw: Bytes, e: PackageEnvelope, payload: Bytes, key: Bytes, signature: Bytes)
    requires Documented(f, t) && EvidenceIn(f, t).Some? && x in EvidenceIn(f, t).value.executions
    ensures BytesNamed(t, x.package.filename) == Some(raw) && f.sha256(raw) == x.package.envelopeSha256
    ensures Carries(f, raw, e, payload, key, signature)
    ensures |payload| == e.manifest.payloadSize && f.sha256(payload) == e.manifest.payloadSha256 == x.package.sha256
    ensures f.sha256(key) == x.package.signerFingerprint && f.verify(key, ManifestBytes(e.manifest), signature)
  {
    VerifiesExactly(f, t);
    hide Documented, SealedFiles, BytesNamed, Carries, VerificationOutcome, Trio, KeysBorneOut, RecordBorneOut, RawBorneOut, SelfConsistent, ARTIFACTS;
    assert ExecutionBorneOut(f, t, x);
    raw := BytesNamed(t, x.package.filename).value;
    e, payload, key, signature :|
      && Carries(f, raw, e, payload, key, signature)
      && |payload| == e.manifest.payloadSize && f.sha256(payload) == e.manifest.payloadSha256 == x.package.sha256
      && f.sha256(key) == x.package.signerFingerprint && f.verify(key, ManifestBytes(e.manifest), signature);
  }
}
