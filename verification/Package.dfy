/** Package creation, decoding and integrity, and the two gateway policies over them. */
module Package {
  import opened Prelude
  import opened Canonical
  import opened Evidence
  import opened Library
  import Base64

  datatype DecodedPackage = DecodedPackage(
    envelope: PackageEnvelope,
    payload: Bytes,
    signerPublicKey: Bytes,
    signature: Bytes)

  datatype PackageError = MalformedPackage | PayloadSizeMismatch | PayloadHashMismatch

  /** `decode_package`. */
  function DecodePackage(e: PackageEnvelope): Result<DecodedPackage, PackageError> {
    var payload := Base64.StrictDecode(e.payloadB64);
    var key := Base64.StrictDecode(e.signerPublicKeyB64);
    var signature := Base64.StrictDecode(e.signatureB64);
    if payload.None? || key.None? || signature.None? then Err(MalformedPackage)
    else if |key.value| != 32 || |signature.value| != 64 then Err(MalformedPackage)
    else Ok(DecodedPackage(e, payload.value, key.value, signature.value))
  }

  /** `parse_and_decode_package`. */
  function ParseAndDecode(f: Functions, raw: Bytes): Result<DecodedPackage, PackageError> {
    match f.parseEnvelope(raw)
    case None => Err(MalformedPackage)
    case Some(e) => DecodePackage(e)
  }

  /** `verify_payload_integrity`: the failure, if there is one. */
  function IntegrityFailure(f: Functions, p: DecodedPackage): Option<PackageError> {
    if |p.payload| != p.envelope.manifest.payloadSize then Some(PayloadSizeMismatch)
    else if f.sha256(p.payload) != p.envelope.manifest.payloadSha256 then Some(PayloadHashMismatch)
    else None
  }

  predicate SignatureVerifies(f: Functions, p: DecodedPackage) {
    f.verify(p.signerPublicKey, ManifestBytes(p.envelope.manifest), p.signature)
  }

  /* ---- Policies ---- */

  datatype ReasonCode =
    | ChecksumOnlyAccepted
    | TrustedSignatureAccepted
    | UntrustedSigner
    | HashMismatch
    | SizeMismatch
    | SignerFingerprintMismatch
    | InvalidSignature
    | Malformed
    | DeviceUnavailable
    | DeviceApplyFailed
    | TrustConfigurationError

  function ReasonText(r: ReasonCode): (s: string)
    ensures 1 <= |s| <= 128
  {
    match r
    case ChecksumOnlyAccepted => "CHECKSUM_ONLY_ACCEPTED"
    case TrustedSignatureAccepted => "TRUSTED_SIGNATURE_ACCEPTED"
    case UntrustedSigner => "UNTRUSTED_SIGNER"
    case HashMismatch => "PAYLOAD_HASH_MISMATCH"
    case SizeMismatch => "PAYLOAD_SIZE_MISMATCH"
    case SignerFingerprintMismatch => "SIGNER_FINGERPRINT_MISMATCH"
    case InvalidSignature => "INVALID_SIGNATURE"
    case Malformed => "MALFORMED_PACKAGE"
    case DeviceUnavailable => "DEVICE_UNAVAILABLE"
    case DeviceApplyFailed => "DEVICE_APPLY_FAILED"
    case TrustConfigurationError => "TRUST_CONFIGURATION_ERROR"
  }

  datatype PolicyResult = PolicyResult(
    decision: Decision,
    reason: ReasonCode,
    packageId: string,
    firmwareVersion: string,
    payloadSha256: string,
    signerFingerprint: string)

  function BareResult(decision: Decision, reason: ReasonCode): PolicyResult {
    PolicyResult(decision, reason, "", "", "", "")
  }

  function WithFields(decision: Decision, reason: ReasonCode, p: DecodedPackage): PolicyResult {
    var m := p.envelope.manifest;
    PolicyResult(decision, reason, m.packageId, m.firmwareVersion, m.payloadSha256, p.envelope.signerFingerprint)
  }

  function ErrorReason(e: PackageError): ReasonCode {
    match e
    case MalformedPackage => Malformed
    case PayloadSizeMismatch => SizeMismatch
    case PayloadHashMismatch => HashMismatch
  }

  /** `evaluate_vulnerable_policy`: integrity is treated as authorization. */
  function VulnerablePolicy(f: Functions, raw: Bytes): PolicyResult {
    match ParseAndDecode(f, raw)
    case Err(e) => BareResult(Rejected, ErrorReason(e))
    case Ok(p) =>
      var failure := IntegrityFailure(f, p);
      if failure.Some? then WithFields(Rejected, ErrorReason(failure.value), p)
      else WithFields(Accepted, ChecksumOnlyAccepted, p)
  }

  /** `evaluate_patched_policy`. */
  function PatchedPolicy(f: Functions, raw: Bytes, trustedKey: Bytes): PolicyResult {
    match ParseAndDecode(f, raw)
    case Err(e) => BareResult(Rejected, ErrorReason(e))
    case Ok(p) =>
      var failure := IntegrityFailure(f, p);
      if failure.Some? then WithFields(Rejected, ErrorReason(failure.value), p)
      else if f.sha256(p.signerPublicKey) != p.envelope.signerFingerprint then WithFields(Rejected, SignerFingerprintMismatch, p)
      else if p.signerPublicKey != trustedKey then WithFields(Rejected, UntrustedSigner, p)
      else if !SignatureVerifies(f, p) then WithFields(Rejected, InvalidSignature, p)
      else WithFields(Accepted, TrustedSignatureAccepted, p)
  }

  /** `http_status_for`. */
  function HttpStatusFor(decision: Decision, reason: ReasonCode): int {
    if decision == Accepted then 200
    else match reason
    case UntrustedSigner => 403
    case DeviceUnavailable => 502
    case DeviceApplyFailed => 502
    case TrustConfigurationError => 500
    case _ => 400
  }

  /* ---- Creation ---- */

  datatype CreationError = ModelViolation

  function NewManifest(f: Functions, packageId: string, version: string, payload: Bytes): Manifest {
    Manifest("1.0", packageId, version, f.sha256(payload), |payload|, "Ed25519")
  }

  /** `_create_package`; the record constructors refuse what their models do not allow. */
  function CreatePackage(f: Functions, key: Bytes, packageId: string, version: string, payload: Bytes)
    : Result<PackageEnvelope, CreationError>
  {
    var manifest := NewManifest(f, packageId, version, payload);
    if !ValidManifest(manifest) then
      Err(ModelViolation)
    else
      var public := f.publicKey(key);
      var envelope := PackageEnvelope(
        manifest,
        Base64.Encode(payload),
        Base64.Encode(public),
        f.sha256(public),
        Base64.Encode(f.sign(key, ManifestBytes(manifest))));
      if ValidEnvelope(envelope) then Ok(envelope) else Err(ModelViolation)
  }

  lemma EncodingNotEmpty(b: Bytes)
    requires b != []
    ensures Base64.Encode(b) != ""
  {
    if Base64.Encode(b) == "" {
      Base64.DecodeEncode(b);
      Base64.DecodeEncode([]);
    }
  }

  /** What a created package decodes to. */
  function Created(f: Functions, key: Bytes, packageId: string, version: string, payload: Bytes, e: PackageEnvelope): DecodedPackage {
    DecodedPackage(e, payload, f.publicKey(key), f.sign(key, ManifestBytes(NewManifest(f, packageId, version, payload))))
  }

  /**
    * Creation succeeds exactly for a legal id, a legal version and a non-empty payload; decoding
    * then gives back the manifest, payload, key and signature, and the integrity check passes.
    */
  lemma CreateThenDecode(f: Functions, key: Bytes, packageId: string, version: string, payload: Bytes)
    requires HashLaw(f) && SignatureLaw(f) && EnvelopeLaw(f)
    ensures var r := CreatePackage(f, key, packageId, version, payload);
            && (r.Ok? <==> 1 <= |packageId| <= 128 && 1 <= |version| <= 64 && payload != [])
            && (r.Ok? ==>
                  var p := Created(f, key, packageId, version, payload, r.value);
                  && r.value.manifest == NewManifest(f, packageId, version, payload)
                  && DecodePackage(r.value) == Ok(p)
                  && ParseAndDecode(f, f.printEnvelope(r.value)) == Ok(p)
                  && IntegrityFailure(f, p).None?
                  && f.sha256(p.signerPublicKey) == r.value.signerFingerprint
                  && SignatureVerifies(f, p))
  {
    hide Base64.Encode, Base64.StrictDecode, ManifestBytes, IsSha256;
    var public, signature := f.publicKey(key), f.sign(key, ManifestBytes(NewManifest(f, packageId, version, payload)));
    assert |public| == 32 && |signature| == 64;
    Base64.DecodeEncode(payload);
    Base64.DecodeEncode(public);
    Base64.DecodeEncode(signature);
    EncodingNotEmpty(public);
    EncodingNotEmpty(signature);
    if payload != [] {
      EncodingNotEmpty(payload);
    }
  }

  /**
    * A created package passes the vulnerable gateway always, and the patched gateway exactly when
    * its signer is the trusted key; any other signer is called untrusted.
    */
  lemma PoliciesOnCreated(f: Functions, key: Bytes, packageId: string, version: string, payload: Bytes, trustedKey: Bytes)
    requires HashLaw(f) && SignatureLaw(f) && EnvelopeLaw(f)
    requires CreatePackage(f, key, packageId, version, payload).Ok?
    ensures var e := CreatePackage(f, key, packageId, version, payload).value;
            var p := Created(f, key, packageId, version, payload, e);
            && VulnerablePolicy(f, f.printEnvelope(e)) == WithFields(Accepted, ChecksumOnlyAccepted, p)
            && PatchedPolicy(f, f.printEnvelope(e), trustedKey) ==
               if f.publicKey(key) == trustedKey then WithFields(Accepted, TrustedSignatureAccepted, p)
               else WithFields(Rejected, UntrustedSigner, p)
  {
    CreateThenDecode(f, key, packageId, version, payload);
    hide CreatePackage, IntegrityFailure, SignatureVerifies, ParseAndDecode, DecodePackage;
  }

  /** A package the patched gateway has every reason to accept. */
  predicate Authentic(f: Functions, p: DecodedPackage, trustedKey: Bytes) {
    && |p.payload| == p.envelope.manifest.payloadSize
    && f.sha256(p.payload) == p.envelope.manifest.payloadSha256
    && f.sha256(p.signerPublicKey) == p.envelope.signerFingerprint
    && p.signerPublicKey == trustedKey
    && SignatureVerifies(f, p)
  }

  /**
    * The patched policy accepts exactly the authentic packages, and the patch only takes
    * acceptance away: whatever it accepts, the vulnerable policy accepts with the same fields.
    */
  lemma PatchedAcceptsExactly(f: Functions, raw: Bytes, trustedKey: Bytes)
    ensures PatchedPolicy(f, raw, trustedKey).decision == Accepted <==>
            ParseAndDecode(f, raw).Ok? && Authentic(f, ParseAndDecode(f, raw).value, trustedKey)
    ensures PatchedPolicy(f, raw, trustedKey).decision == Accepted ==>
            VulnerablePolicy(f, raw) == PatchedPolicy(f, raw, trustedKey).(reason := ChecksumOnlyAccepted)
    ensures VulnerablePolicy(f, raw).decision == Rejected ==>
            PatchedPolicy(f, raw, trustedKey) == VulnerablePolicy(f, raw)
  {
  }

  /* ---- Why a package is refused ---- */

  /** The bytes are an envelope whose base64 fields hold this payload, a 32-byte key and a 64-byte signature. */
  ghost predicate Carries(f: Functions, raw: Bytes, e: PackageEnvelope, payload: Bytes, key: Bytes, signature: Bytes) {
    && f.parseEnvelope(raw) == Some(e)
    && Base64.StrictDecode(e.payloadB64) == Some(payload)
    && Base64.StrictDecode(e.signerPublicKeyB64) == Some(key) && |key| == 32
    && Base64.StrictDecode(e.signatureB64) == Some(signature) && |signature| == 64
  }

  /** What decoding succeeds with is what the bytes carry. */
  lemma DecodedCarries(f: Functions, raw: Bytes)
    ensures ParseAndDecode(f, raw).Ok? ==>
              var p := ParseAndDecode(f, raw).value; Carries(f, raw, p.envelope, p.payload, p.signerPublicKey, p.signature)
    ensures forall e, p, k, s | Carries(f, raw, e, p, k, s) :: ParseAndDecode(f, raw) == Ok(DecodedPackage(e, p, k, s))
    ensures ParseAndDecode(f, raw).Err? ==> ParseAndDecode(f, raw).error == MalformedPackage
  {
    hide Base64.StrictDecode;
  }

  /** Both policies call malformed exactly the bytes that carry nothing, and then report nothing. */
  lemma MalformedExactly(f: Functions, raw: Bytes, trustedKey: Bytes)
    ensures VulnerablePolicy(f, raw).reason == Malformed <==> !exists e, p, k, s :: Carries(f, raw, e, p, k, s)
    ensures PatchedPolicy(f, raw, trustedKey).reason == Malformed <==> !exists e, p, k, s :: Carries(f, raw, e, p, k, s)
    ensures VulnerablePolicy(f, raw).reason == Malformed ==>
              VulnerablePolicy(f, raw) == PatchedPolicy(f, raw, trustedKey) == PolicyResult(Rejected, Malformed, "", "", "", "")
  {
    DecodedCarries(f, raw);
    hide ParseAndDecode, Carries;
    MalformedIsUndecoded(f, raw, trustedKey);
    hide VulnerablePolicy, PatchedPolicy;
  }

  lemma MalformedIsUndecoded(f: Functions, raw: Bytes, trustedKey: Bytes)
    requires ParseAndDecode(f, raw).Err? ==> ParseAndDecode(f, raw).error == MalformedPackage
    ensures VulnerablePolicy(f, raw).reason == Malformed <==> ParseAndDecode(f, raw).Err?
    ensures PatchedPolicy(f, raw, trustedKey).reason == Malformed <==> ParseAndDecode(f, raw).Err?
    ensures VulnerablePolicy(f, raw).reason == Malformed ==>
              VulnerablePolicy(f, raw) == PatchedPolicy(f, raw, trustedKey) == PolicyResult(Rejected, Malformed, "", "", "", "")
  {
    hide ParseAndDecode;
  }

  /** The result names what the envelope says. */
  predicate Names(r: PolicyResult, e: PackageEnvelope) {
    && r.packageId == e.manifest.packageId && r.firmwareVersion == e.manifest.firmwareVersion
    && r.payloadSha256 == e.manifest.payloadSha256 && r.signerFingerprint == e.signerFingerprint
  }

  /** The vulnerable policy looks at size, then hash, and at nothing else. */
  lemma VulnerableReasons(f: Functions, raw: Bytes, e: PackageEnvelope, payload: Bytes, key: Bytes, signature: Bytes)
    requires Carries(f, raw, e, payload, key, signature)
    ensures var r := VulnerablePolicy(f, raw);
            var sized, hashed := |payload| == e.manifest.payloadSize, f.sha256(payload) == e.manifest.payloadSha256;
            && Names(r, e)
            && (r.reason == SizeMismatch <==> !sized)
            && (r.reason == HashMismatch <==> sized && !hashed)
            && (r.reason == ChecksumOnlyAccepted <==> sized && hashed)
            && (r.decision == Accepted <==> sized && hashed)
            && r.decision != Error
  {
    DecodedCarries(f, raw);
    hide ParseAndDecode, Carries;
  }

  /** The patched policy goes on to fingerprint, signer and signature, in this order. */
  lemma PatchedReasons(f: Functions, raw: Bytes, trustedKey: Bytes, e: PackageEnvelope, payload: Bytes, key: Bytes, signature: Bytes)
    requires Carries(f, raw, e, payload, key, signature)
    ensures var r := PatchedPolicy(f, raw, trustedKey);
            var sized, hashed := |payload| == e.manifest.payloadSize, f.sha256(payload) == e.manifest.payloadSha256;
            var named, trusted := f.sha256(key) == e.signerFingerprint, key == trustedKey;
            var signed := f.verify(key, ManifestBytes(e.manifest), signature);
            && Names(r, e)
            && (r.reason == SizeMismatch <==> !sized)
            && (r.reason == HashMismatch <==> sized && !hashed)
            && (r.reason == SignerFingerprintMismatch <==> sized && hashed && !named)
            && (r.reason == UntrustedSigner <==> sized && hashed && named && !trusted)
            && (r.reason == InvalidSignature <==> sized && hashed && named && trusted && !signed)
            && (r.reason == TrustedSignatureAccepted <==> sized && hashed && named && trusted && signed)
            && (r.decision == Accepted <==> sized && hashed && named && trusted && signed)
            && r.decision != Error
  {
    DecodedCarries(f, raw);
    hide ParseAndDecode, Carries, ManifestBytes;
  }

  /** What each reason is called, and the status of a refusal or an error for it. */
  lemma ReasonsOnTheWire(reason: ReasonCode, decision: Decision)
    requires decision != Accepted
    ensures (ReasonText(reason), HttpStatusFor(decision, reason)) ==
            match reason
            case Malformed => ("MALFORMED_PACKAGE", 400)
            case SizeMismatch => ("PAYLOAD_SIZE_MISMATCH", 400)
            case HashMismatch => ("PAYLOAD_HASH_MISMATCH", 400)
            case SignerFingerprintMismatch => ("SIGNER_FINGERPRINT_MISMATCH", 400)
            case UntrustedSigner => ("UNTRUSTED_SIGNER", 403)
            case InvalidSignature => ("INVALID_SIGNATURE", 400)
            case DeviceUnavailable => ("DEVICE_UNAVAILABLE", 502)
            case DeviceApplyFailed => ("DEVICE_APPLY_FAILED", 502)
            case TrustConfigurationError => ("TRUST_CONFIGURATION_ERROR", 500)
            case ChecksumOnlyAccepted => ("CHECKSUM_ONLY_ACCEPTED", 400)
            case TrustedSignatureAccepted => ("TRUSTED_SIGNATURE_ACCEPTED", 400)
    ensures HttpStatusFor(Accepted, reason) == 200
  {
  }

  /* ---- What acceptance means ---- */

  /**
    * An accepted package whose manifest the trusted key never signed exhibits a forgery: a
    * verifying signature on bytes that differ from the bytes of every manifest that was signed.
    */
  lemma AcceptedForgery(f: Functions, raw: Bytes, trustedKey: Bytes, signed: set<Manifest>)
    requires PatchedPolicy(f, raw, trustedKey).decision == Accepted
    requires ParseAndDecode(f, raw).value.envelope.manifest !in signed
    ensures var p := ParseAndDecode(f, raw).value;
            var message := ManifestBytes(p.envelope.manifest);
            && f.verify(trustedKey, message, p.signature)
            && forall m | m in signed :: ManifestBytes(m) != message
  {
    PatchedAcceptsExactly(f, raw, trustedKey);
    var p := ParseAndDecode(f, raw).value;
    forall m | m in signed ensures ManifestBytes(m) != ManifestBytes(p.envelope.manifest) {
      ManifestBytesInjective(m, p.envelope.manifest);
    }
  }

  /**
    * An accepted package that carries the manifest made for a payload carries that payload, or
    * the two payloads are a hash collision.
    */
  lemma AcceptedPayload(f: Functions, raw: Bytes, trustedKey: Bytes, packageId: string, version: string, payload: Bytes)
    requires PatchedPolicy(f, raw, trustedKey).decision == Accepted
    requires ParseAndDecode(f, raw).value.envelope.manifest == NewManifest(f, packageId, version, payload)
    ensures var p := ParseAndDecode(f, raw).value;
            p.payload == payload || (Collision(f, p.payload, payload) && |p.payload| == |payload|)
  {
    PatchedAcceptsExactly(f, raw, trustedKey);
  }
}
