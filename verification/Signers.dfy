/** Whose signature the positive control of a verified bundle carries. */
module Signers {
  import opened Prelude
  import opened Evidence
  import opened Verdicts
  import opened Library
  import opened Package
  import opened Paths
  import opened Bundle
  import opened Verification
  import opened Layout
  import opened Presentation

  function ControlOf(f: Functions, t: Tree): Option<ExecutionEvidence> {
    match EvidenceIn(f, t)
    case None => None
    case Some(e) => ByRole(e.executions, PositiveControl)
  }

  /** The bytes under the name an execution gives for its package, and what they decode to. */
  function BytesOf(t: Tree, x: ExecutionEvidence): Option<Bytes> {
    match SafeRelativePath(x.package.filename)
    case Err(_) => None
    case Ok(p) => FileAt(t, p)
  }

  function PackageOf(f: Functions, t: Tree, x: ExecutionEvidence): Option<DecodedPackage> {
    match BytesOf(t, x)
    case None => None
    case Some(raw) =>
      match ParseAndDecode(f, raw)
      case Err(_) => None
      case Ok(p) => Some(p)
  }

  /** The key in the bundle's PEM file. */
  function BundleKey(f: Functions, t: Tree): Option<Bytes> {
    match FileAt(t, TRUSTED_KEY)
    case None => None
    case Some(pem) => f.loadPem(pem)
  }

  lemma ControlIsAccepted(f: Functions, t: Tree)
    requires Documented(f, t)
    ensures ControlOf(f, t).Some?
    ensures PackageAccepted(f, t, ManifestPaths(ManifestIn(f, t).value), ControlOf(f, t).value)
    ensures FileAt(t, TRUSTED_KEY).Some? && TrustMaterialAccepted(f, t)
  {
    AcceptedHasEvidence(f, t);
    hide Documented, EvidenceIn, ManifestIn, ManifestPaths;
    DocumentHasControl(f, t, ManifestPaths(ManifestIn(f, t).value), EvidenceIn(f, t).value);
  }

  lemma DocumentHasControl(f: Functions, t: Tree, paths: set<string>, e: EvidenceDocument)
    requires DocumentAccepted(f, t, paths, e)
    ensures ByRole(e.executions, PositiveControl).Some?
    ensures PackageAccepted(f, t, paths, ByRole(e.executions, PositiveControl).value)
    ensures FileAt(t, TRUSTED_KEY).Some? && TrustMaterialAccepted(f, t)
  {
    hide OnePerRole, SameInput, VerificationOutcome, TrustHolds, TrustMaterialAccepted, IndividualVerdict, PackageAccepted, RawAccepted,
         SafeRelativePath, FileAt, Consistent;
    OnePerRoleIsTrio(e.executions);
    var x := ByRole(e.executions, PositiveControl).value;
    var i :| 0 <= i < |e.executions| && e.executions[i] == x;
    assert ExecutionAccepted(f, t, paths, e.executions[i]);
    assert Name(TrustedKey) in ArtifactPaths(e.bundleFiles);
    var r :| r in e.bundleFiles && r.path == Name(TrustedKey);
    assert RecordAccepted(f, t, paths, r);
    PlaceIsSafe(TrustedKey);
  }

  /**
    * Verification compares `packages/trusted-update.json` with the PEM file, but the positive control
    * may name any listed package. Its signer is the bundle's key exactly when the fingerprint it
    * records is that key's, up to a hash collision; naming the trusted file is enough.
    */
  lemma ControlSignerExactly(f: Functions, t: Tree)
    requires Documented(f, t)
    ensures ControlOf(f, t).Some? && PackageOf(f, t, ControlOf(f, t).value).Some? && BundleKey(f, t).Some?
    ensures var x := ControlOf(f, t).value;
            var signer, key := PackageOf(f, t, x).value.signerPublicKey, BundleKey(f, t).value;
            && (signer == key ==> x.package.signerFingerprint == f.sha256(key))
            && (x.package.signerFingerprint == f.sha256(key) ==> signer == key || Collision(f, signer, key))
            && (x.package.filename == Name(TrustedPackage) ==> signer == key)
  {
    ControlIsAccepted(f, t);
    hide *;
    SignerOfAccepted(f, t, ManifestPaths(ManifestIn(f, t).value), ControlOf(f, t).value);
  }

  lemma SignerOfAccepted(f: Functions, t: Tree, paths: set<string>, x: ExecutionEvidence)
    requires PackageAccepted(f, t, paths, x) && FileAt(t, TRUSTED_KEY).Some? && TrustMaterialAccepted(f, t)
    ensures PackageOf(f, t, x).Some? && BundleKey(f, t).Some?
    ensures var signer, key := PackageOf(f, t, x).value.signerPublicKey, BundleKey(f, t).value;
            && (signer == key ==> x.package.signerFingerprint == f.sha256(key))
            && (x.package.signerFingerprint == f.sha256(key) ==> signer == key || Collision(f, signer, key))
            && (x.package.filename == Name(TrustedPackage) ==> signer == key)
  {
    FingerprintRecorded(f, t, paths, x);
    KeyOfBundle(f, t);
    TrustedFileSigner(f, t, paths, x);
    hide PackageAccepted, TrustMaterialAccepted, PackageOf, BundleKey, FileAt, Name;
  }

  lemma FingerprintRecorded(f: Functions, t: Tree, paths: set<string>, x: ExecutionEvidence)
    requires PackageAccepted(f, t, paths, x)
    ensures PackageOf(f, t, x).Some? && f.sha256(PackageOf(f, t, x).value.signerPublicKey) == x.package.signerFingerprint
  {
    hide SafeRelativePath, FileAt, ParseAndDecode, IntegrityFailure, SignatureVerifies;
  }

  lemma KeyOfBundle(f: Functions, t: Tree)
    requires FileAt(t, TRUSTED_KEY).Some? && TrustMaterialAccepted(f, t)
    ensures BundleKey(f, t).Some?
    ensures ReadBytes(t, TRUSTED_PACKAGE).Some? && ParseAndDecode(f, ReadBytes(t, TRUSTED_PACKAGE).value).Ok?
    ensures ParseAndDecode(f, ReadBytes(t, TRUSTED_PACKAGE).value).value.signerPublicKey == BundleKey(f, t).value
  {
    hide FileAt, ReadBytes, ParseAndDecode;
  }

  lemma TrustedFileSigner(f: Functions, t: Tree, paths: set<string>, x: ExecutionEvidence)
    requires PackageAccepted(f, t, paths, x) && FileAt(t, TRUSTED_KEY).Some? && TrustMaterialAccepted(f, t)
    requires PackageOf(f, t, x).Some? && BundleKey(f, t).Some?
    ensures x.package.filename == Name(TrustedPackage) ==> PackageOf(f, t, x).value.signerPublicKey == BundleKey(f, t).value
  {
    hide PackageAccepted, TrustMaterialAccepted, BundleKey, SafeRelativePath, Lookup, ParseAndDecode, Name, Join, Legal;
    KeyOfBundle(f, t);
    if x.package.filename == Name(TrustedPackage) {
      PlaceIsSafe(TrustedPackage);
      assert BytesOf(t, x) == FileAt(t, TRUSTED_PACKAGE);
    }
  }
}
