/**
  * The functions FixRepro calls but does not define: SHA-256, Ed25519, and the strict JSON
  * readers and writers of its documents. Every theorem holds for all of them that obey `Lawful`.
  */
module Library {
  import opened Prelude
  import opened Canonical
  import opened Evidence
  import opened Paths

  /* ---- Documents ---- */

  datatype PackageEnvelope = PackageEnvelope(
    manifest: Manifest,
    payloadB64: string,
    signerPublicKeyB64: string,
    signerFingerprint: string,
    signatureB64: string)

  predicate ValidManifest(m: Manifest) {
    && m.schemaVersion == "1.0"
    && 1 <= |m.packageId| <= 128
    && 1 <= |m.firmwareVersion| <= 64
    && IsSha256(m.payloadSha256)
    && m.payloadSize > 0
    && m.signatureAlgorithm == "Ed25519"
  }

  predicate ValidEnvelope(e: PackageEnvelope) {
    && ValidManifest(e.manifest)
    && e.payloadB64 != "" && e.signerPublicKeyB64 != "" && e.signatureB64 != ""
    && IsSha256(e.signerFingerprint)
  }

  datatype ManifestEntry = ManifestEntry(path: string, sha256: string, sizeBytes: nat)

  type BundleManifest = seq<ManifestEntry>

  predicate ValidEntry(e: ManifestEntry) {
    1 <= |e.path| <= 500 && IsSha256(e.sha256)
  }

  /** `paths_are_unique_and_sorted` and the field constraints of a bundle manifest. */
  predicate ValidBundleManifest(m: BundleManifest) {
    && m != []
    && (forall i | 0 <= i < |m| :: ValidEntry(m[i]))
    && (forall i, j | 0 <= i < j < |m| :: !StringLess(m[j].path, m[i].path))
    && (forall i, j | 0 <= i < j < |m| :: m[i].path != m[j].path)
  }

  /* ---- The functions ---- */

  datatype Functions = Functions(
    sha256: Bytes -> string,
    publicKey: Bytes -> Bytes,
    sign: (Bytes, Bytes) -> Bytes,
    verify: (Bytes, Bytes, Bytes) -> bool,
    loadPem: Bytes -> Option<Bytes>,
    printEnvelope: PackageEnvelope -> Bytes,
    parseEnvelope: Bytes -> Option<PackageEnvelope>,
    printManifest: BundleManifest -> Bytes,
    parseManifest: Bytes -> Option<BundleManifest>,
    printRaw: RawScenarioRecord -> Bytes,
    parseRaw: Bytes -> Option<RawScenarioRecord>,
    maxDepth: nat,
    printEvidence: EvidenceDocument -> Bytes,
    isStrictJson: Bytes -> bool,
    isNull: Bytes -> bool,
    meetsSchema: Bytes -> bool,
    parseEvidence: Bytes -> Option<EvidenceDocument>)

  /** 64 lower-case hex digits: the range is finite, so collisions exist and are never assumed away. */
  ghost predicate HashLaw(f: Functions) {
    forall b :: IsSha256(f.sha256(b))
  }

  /** A signature verifies under its key (section 5.1 of RFC 8032); nothing is said about forgeries. */
  ghost predicate SignatureLaw(f: Functions) {
    && (forall k :: |f.publicKey(k)| == 32)
    && (forall k, m :: |f.sign(k, m)| == 64)
    && (forall k, m :: f.verify(f.publicKey(k), m, f.sign(k, m)))
  }

  /** Readers give back what the writers wrote, and only what the models allow. */
  ghost predicate EnvelopeLaw(f: Functions) {
    && (forall e | ValidEnvelope(e) :: f.parseEnvelope(f.printEnvelope(e)) == Some(e))
    && (forall b | f.parseEnvelope(b).Some? :: ValidEnvelope(f.parseEnvelope(b).value))
  }

  ghost predicate ManifestLaw(f: Functions) {
    && (forall m | ValidBundleManifest(m) :: f.parseManifest(f.printManifest(m)) == Some(m))
    && (forall b | f.parseManifest(b).Some? :: ValidBundleManifest(f.parseManifest(b).value))
  }

  /** The reader of raw records gives up on replies nested too deeply for it, and on no other. */
  ghost predicate RawLaw(f: Functions) {
    && f.maxDepth >= 2
    && forall r | ValidRawRecord(r) ::
         f.parseRaw(f.printRaw(r)) == if NestedWithin(JObject(r.gatewayResponse), f.maxDepth) then Some(r) else None
  }

  /** A strict JSON text may be `null`, which is no evidence document. */
  ghost predicate EvidenceLaw(f: Functions) {
    && (forall e | ValidEvidence(e) ::
          f.parseEvidence(f.printEvidence(e)) == Some(e) && f.isStrictJson(f.printEvidence(e)))
    && (forall b | f.isNull(b) :: f.isStrictJson(b) && f.parseEvidence(b).None?)
  }

  /** What sealing, staging and publishing a bundle ask for. */
  ghost predicate BundleLaws(f: Functions) {
    HashLaw(f) && ManifestLaw(f) && RawLaw(f) && EvidenceLaw(f)
  }

  ghost predicate Lawful(f: Functions) {
    BundleLaws(f) && SignatureLaw(f) && EnvelopeLaw(f)
  }

  /** Two byte strings that show the hash is not injective. */
  predicate Collision(f: Functions, a: Bytes, b: Bytes) {
    a != b && f.sha256(a) == f.sha256(b)
  }
}
