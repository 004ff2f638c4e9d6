/** The two demonstration packages, and why a run may rely on them. */
module Artifacts {
  import opened Prelude
  import opened Canonical
  import opened Evidence
  import opened Library
  import opened Package
  import opened Orchestrator
  import opened Staging
  import opened SelfVerification

  const UNTRUSTED_ID := "ota-untrusted-signer-001"
  const TRUSTED_ID := "ota-trusted-signer-001"

  function PackageFileFor(f: Functions, key: Bytes, id: string, version: string, payload: Bytes)
    : Result<PackageFile, CreationError>
  {
    match CreatePackage(f, key, id, version, payload)
    case Err(e) => Err(e)
    case Ok(e) =>
      match ParseAndDecode(f, f.printEnvelope(e))
      case Err(_) => Err(ModelViolation)
      case Ok(p) => Ok(PackageFile(f.printEnvelope(e), p))
  }

  /** `generate_demo_artifacts`, for any two keys and any two payloads, read back as a run reads it. */
  function DemoInputs(f: Functions, trusted: Bytes, untrusted: Bytes, trustedPayload: Bytes, untrustedPayload: Bytes)
    : Result<Inputs, CreationError>
  {
    var u := PackageFileFor(f, untrusted, UNTRUSTED_ID, UNTRUSTED_VERSION, untrustedPayload);
    var t := PackageFileFor(f, trusted, TRUSTED_ID, TRUSTED_VERSION, trustedPayload);
    if u.Err? || t.Err? then Err(ModelViolation)
    else Ok(Inputs(u.value, t.value, f.publicKey(trusted)))
  }

  lemma FileIsGenuine(f: Functions, key: Bytes, id: string, version: string, payload: Bytes)
    requires HashLaw(f) && SignatureLaw(f) && EnvelopeLaw(f) && 1 <= |id| <= 128 && 1 <= |version| <= 64 && payload != []
    ensures var r := PackageFileFor(f, key, id, version, payload);
            && r.Ok? && Genuine(f, r.value)
            && r.value.package.envelope.manifest == Manifest("1.0", id, version, f.sha256(payload), |payload|, "Ed25519")
            && r.value.package.signerPublicKey == f.publicKey(key) && r.value.package.payload == payload
  {
    CreateThenDecode(f, key, id, version, payload);
    hide CreatePackage, IntegrityFailure, SignatureVerifies, ParseAndDecode, DecodePackage;
  }

  /**
    * The packages generated from two different keys are what every theorem about a run asks for:
    * intact, validly signed, an untrusted 9.9.0-test and a trusted 1.1.0.
    */
  lemma GeneratedInputsAreGenuine(
    f: Functions, trusted: Bytes, untrusted: Bytes, trustedPayload: Bytes, untrustedPayload: Bytes, su: Surroundings)
    requires HashLaw(f) && SignatureLaw(f) && EnvelopeLaw(f) && trustedPayload != [] && untrustedPayload != []
    requires f.publicKey(trusted) != f.publicKey(untrusted)
    requires f.loadPem(su.pem) == Some(f.publicKey(trusted))
    ensures var r := DemoInputs(f, trusted, untrusted, trustedPayload, untrustedPayload);
            r.Ok? && Demonstration(f, r.value) && GenuineInputs(f, r.value, su)
  {
    hide PackageFileFor, IntactPackage, SignatureVerifies;
    FileIsGenuine(f, untrusted, UNTRUSTED_ID, UNTRUSTED_VERSION, untrustedPayload);
    FileIsGenuine(f, trusted, TRUSTED_ID, TRUSTED_VERSION, trustedPayload);
  }

  /** What the two files are packages of, and whose. */
  lemma GeneratedManifests(f: Functions, trusted: Bytes, untrusted: Bytes, trustedPayload: Bytes, untrustedPayload: Bytes)
    requires HashLaw(f) && SignatureLaw(f) && EnvelopeLaw(f) && trustedPayload != [] && untrustedPayload != []
    ensures var r := DemoInputs(f, trusted, untrusted, trustedPayload, untrustedPayload);
            && r.Ok?
            && r.value.untrusted.package.envelope.manifest ==
               Manifest("1.0", "ota-untrusted-signer-001", "9.9.0-test", f.sha256(untrustedPayload), |untrustedPayload|, "Ed25519")
            && r.value.trusted.package.envelope.manifest ==
               Manifest("1.0", "ota-trusted-signer-001", "1.1.0", f.sha256(trustedPayload), |trustedPayload|, "Ed25519")
            && r.value.trustedKey == r.value.trusted.package.signerPublicKey == f.publicKey(trusted)
            && r.value.untrusted.package.signerPublicKey == f.publicKey(untrusted)
  {
    hide PackageFileFor, IntactPackage, SignatureVerifies;
    FileIsGenuine(f, untrusted, UNTRUSTED_ID, UNTRUSTED_VERSION, untrustedPayload);
    FileIsGenuine(f, trusted, TRUSTED_ID, TRUSTED_VERSION, trustedPayload);
  }
}
