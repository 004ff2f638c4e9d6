/** The three scenarios of one verification run. */
module Orchestrator {
  import opened Prelude
  import opened Evidence
  import opened Library
  import opened Package
  import opened Device
  import opened Gateway
  import opened Verdicts
  import opened Scenario

  const VULNERABLE_BUILD_ID := "FIXREPRO-VULNERABLE-OTA-1"
  const PATCHED_BUILD_ID := "FIXREPRO-PATCHED-OTA-1"
  const UNTRUSTED_PATH := "packages/untrusted-update.json"
  const TRUSTED_PATH := "packages/trusted-update.json"

  /** A package file and what it decodes to. */
  datatype PackageFile = PackageFile(raw: Bytes, package: DecodedPackage)

  /** The files the run starts from, and the key the patched gateway is configured with. */
  datatype Inputs = Inputs(untrusted: PackageFile, trusted: PackageFile, trustedKey: Bytes)

  /** The scenario each role stands for; the untrusted bytes serve two of them. */
  function Definition(ins: Inputs, role: Role): ScenarioDefinition {
    match role
    case Vulnerable =>
      ScenarioDefinition(Vulnerable, VULNERABLE_BUILD_ID, ins.untrusted.raw, ins.untrusted.package, UNTRUSTED_PATH, Untrusted, Rejected)
    case Patched =>
      ScenarioDefinition(Patched, PATCHED_BUILD_ID, ins.untrusted.raw, ins.untrusted.package, UNTRUSTED_PATH, Untrusted, Rejected)
    case PositiveControl =>
      ScenarioDefinition(PositiveControl, PATCHED_BUILD_ID, ins.trusted.raw, ins.trusted.package, TRUSTED_PATH, Trusted, Accepted)
  }

  /** Two scenarios send the untrusted file and expect its refusal, the third sends the trusted one; two run the patched build. */
  lemma DefinitionExactly(ins: Inputs, role: Role)
    ensures var d, file := Definition(ins, role), if role == PositiveControl then ins.trusted else ins.untrusted;
            && d.role == role && d.packageBytes == file.raw && d.package == file.package
            && d.buildId == (if role == Vulnerable then "FIXREPRO-VULNERABLE-OTA-1" else "FIXREPRO-PATCHED-OTA-1")
            && d.bundlePath == (if role == PositiveControl then "packages/trusted-update.json" else "packages/untrusted-update.json")
            && d.signerTrust == (if role == PositiveControl then Trusted else Untrusted)
            && d.secureExpectedDecision == (if role == PositiveControl then Accepted else Rejected)
            && GatewayRole(role) == (if role == Vulnerable then Vulnerable else Patched)
  {
  }

  function GatewayRole(role: Role): Role {
    if role == Vulnerable then Vulnerable else Patched
  }

  /** The policy of the gateway a role's request goes to. */
  function PolicyFor(f: Functions, ins: Inputs, role: Role): Bytes -> PolicyResult {
    if role == Vulnerable then (raw: Bytes) => VulnerablePolicy(f, raw) else (raw: Bytes) => PatchedPolicy(f, raw, ins.trustedKey)
  }

  function TargetFor(f: Functions, ins: Inputs, role: Role): Target {
    TargetOf(Definition(ins, role), GatewayRole(role), PolicyFor(f, ins, role))
  }

  const ROLE_ORDER: seq<Role> := [Vulnerable, Patched, PositiveControl]

  /** One script and one set of stamps for each scenario. */
  type Plan = p: seq<(Script, Stamps)> | |p| == 3 witness
    [(Script([], true, [], Acknowledged, [], [], NoLoss), Stamps("", "", "")),
     (Script([], true, [], Acknowledged, [], [], NoLoss), Stamps("", "", "")),
     (Script([], true, [], Acknowledged, [], [], NoLoss), Stamps("", "", ""))]

  /** The world the n-th scenario ends in, each starting from where the one before left the device. */
  function EndWorld(f: Functions, ins: Inputs, s: DeviceState, plan: Plan, n: nat): World
    requires n < 3
  {
    Run(TargetFor(f, ins, ROLE_ORDER[n]), StartWorld(StartState(f, ins, s, plan, n)), Schedule(plan[n].0))
  }

  function StartState(f: Functions, ins: Inputs, s: DeviceState, plan: Plan, n: nat): DeviceState
    requires n <= 3
    decreases n, 0
  {
    if n == 0 then s else
      Run(TargetFor(f, ins, ROLE_ORDER[n - 1]), StartWorld(StartState(f, ins, s, plan, n - 1)), Schedule(plan[n - 1].0)).device
  }

  function CaptureAt(f: Functions, ins: Inputs, s: DeviceState, plan: Plan, n: nat): Result<ScenarioCapture, RunError>
    requires n < 3
  {
    CaptureOf(f, Definition(ins, ROLE_ORDER[n]), plan[n].1, EndWorld(f, ins, s, plan, n))
  }

  /** The captures of a run that no scenario's error stopped. */
  predicate Captured(f: Functions, ins: Inputs, s: DeviceState, plan: Plan, captures: seq<ScenarioCapture>) {
    |captures| == 3 && forall n | 0 <= n < 3 :: CaptureAt(f, ins, s, plan, n) == Ok(captures[n])
  }

  /** The values of three results, or the first error. */
  function AllOf<T, E>(a: Result<T, E>, b: Result<T, E>, c: Result<T, E>): (r: Result<seq<T>, E>)
    ensures r.Ok? <==> a.Ok? && b.Ok? && c.Ok?
    ensures r.Ok? ==> |r.value| == 3 && a == Ok(r.value[0]) && b == Ok(r.value[1]) && c == Ok(r.value[2])
    ensures r.Err? ==> Err(r.error) == if a.Err? then a else if b.Err? then b else c
  {
    if a.Err? then Err(a.error) else if b.Err? then Err(b.error) else if c.Err? then Err(c.error)
    else Ok([a.value, b.value, c.value])
  }

  /** What the scenarios of a run give: their captures or an error. */
  type Scenarios = r: Result<seq<ScenarioCapture>, RunError> | r.Ok? ==> |r.value| == 3 witness Err(VerificationError)

  /** The captures of all three scenarios, or the first error. */
  function ScenarioResults(f: Functions, ins: Inputs, s: DeviceState, plan: Plan): Scenarios {
    AllOf(CaptureAt(f, ins, s, plan, 0), CaptureAt(f, ins, s, plan, 1), CaptureAt(f, ins, s, plan, 2))
  }

  lemma ResultsAreCaptures(f: Functions, ins: Inputs, s: DeviceState, plan: Plan, cs: seq<ScenarioCapture>)
    ensures ScenarioResults(f, ins, s, plan) == Ok(cs) <==> Captured(f, ins, s, plan, cs)
  {
    hide CaptureAt;
    if Captured(f, ins, s, plan, cs) {
      assert cs == [cs[0], cs[1], cs[2]];
    }
  }

  /** How many scenarios are run: those up to the first that fails. */
  function ScenariosRun(f: Functions, ins: Inputs, s: DeviceState, plan: Plan): nat {
    if CaptureAt(f, ins, s, plan, 0).Err? then 1 else if CaptureAt(f, ins, s, plan, 1).Err? then 2 else 3
  }

  /** The scenarios before one that fails, or all of them. */
  lemma StoppedAt(f: Functions, ins: Inputs, s: DeviceState, plan: Plan, n: nat)
    requires n < 3 && CaptureAt(f, ins, s, plan, n).Err? && forall m | 0 <= m < n :: CaptureAt(f, ins, s, plan, m).Ok?
    ensures ScenarioResults(f, ins, s, plan) == Err(CaptureAt(f, ins, s, plan, n).error) && ScenariosRun(f, ins, s, plan) == n + 1
  {
    hide CaptureAt;
  }

  lemma AllRun(f: Functions, ins: Inputs, s: DeviceState, plan: Plan, cs: seq<ScenarioCapture>)
    requires Captured(f, ins, s, plan, cs)
    ensures ScenarioResults(f, ins, s, plan) == Ok(cs) && ScenariosRun(f, ins, s, plan) == 3
  {
    hide CaptureAt;
    ResultsAreCaptures(f, ins, s, plan, cs);
  }

  /** The loop of `run`: the captures in order, or the first scenario's error, which stops it. */
  method RunScenarios(f: Functions, ins: Inputs, device: VirtualDevice, plan: Plan) returns (r: Scenarios)
    modifies device
    ensures r == ScenarioResults(f, ins, old(device.State()), plan)
    ensures ScenariosRun(f, ins, old(device.State()), plan) <= 3
    ensures device.State() == StartState(f, ins, old(device.State()), plan, ScenariosRun(f, ins, old(device.State()), plan))
  {
    hide ScenarioResults, ScenariosRun;
    ghost var s := device.State();
    var captures: seq<ScenarioCapture> := [];
    for n := 0 to 3
      invariant |captures| == n
      invariant device.State() == StartState(f, ins, s, plan, n)
      invariant forall m | 0 <= m < n :: CaptureAt(f, ins, s, plan, m) == Ok(captures[m])
    {
      var role := ROLE_ORDER[n];
      var capture := ExecuteScenario(f, device, Definition(ins, role), GatewayRole(role), PolicyFor(f, ins, role), plan[n].1, plan[n].0);
      assert capture == CaptureAt(f, ins, s, plan, n);
      if capture.Err? {
        StoppedAt(f, ins, s, plan, n);
        return Err(capture.error);
      }
      captures := captures + [capture.value];
    }
    AllRun(f, ins, s, plan, captures);
    r := Ok(captures);
  }

  /* ---- Completeness ---- */

  /** Nobody interferes and nothing fails. */
  predicate Quiet(script: Script) {
    && script.afterReset == script.between == script.beforeFinalRead == []
    && script.readable && script.outcome.Acknowledged? && script.loss == NoLoss
  }

  /** The package decodes, is intact, and names its signer's fingerprint; its signature may be anything. */
  predicate IntactPackage(f: Functions, p: PackageFile) {
    && ParseAndDecode(f, p.raw) == Ok(p.package)
    && IntegrityFailure(f, p.package).None?
    && f.sha256(p.package.signerPublicKey) == p.package.envelope.signerFingerprint
  }

  predicate Genuine(f: Functions, p: PackageFile) {
    IntactPackage(f, p) && SignatureVerifies(f, p.package)
  }

  /** The demonstration's premises: an intact 9.9.0-test of some other key and a genuine 1.1.0 of the trusted one. */
  predicate Demonstration(f: Functions, ins: Inputs) {
    && IntactPackage(f, ins.untrusted) && Genuine(f, ins.trusted)
    && ins.untrusted.package.envelope.manifest.firmwareVersion == UNTRUSTED_VERSION
    && ins.trusted.package.envelope.manifest.firmwareVersion == TRUSTED_VERSION
    && ins.untrusted.package.signerPublicKey != ins.trustedKey
    && ins.trusted.package.signerPublicKey == ins.trustedKey
  }

  lemma QuietRun(t: Target, s: DeviceState, script: Script)
    requires Quiet(script)
    ensures Run(t, StartWorld(s), Schedule(script)).phase ==
            Done(INITIAL_STATE,
                 Replied(Decided(t.role, t.result, INITIAL_STATE, Acknowledged, Applied(INITIAL_STATE, UpdateOf(t.result))), script.body),
                 AfterDecision(INITIAL_STATE, t.result, Acknowledged))
  {
    var w := Step(t, StartWorld(s), Reset);
    RunSchedule(t, s, script);
    RunForeign(t, w, []);
    RunGateway(t, w, script);
    RunForeign(t, AnsweredWorld(t, s, script), []);
    hide Decided, AfterDecision, Schedule, Run;
    assert Foreign([]) == [];
  }

  /** The raw reply says the decision and the reason that were recorded. */
  predicate RepliedAsRecorded(c: ScenarioCapture) {
    && "decision" in c.gatewayResponse && c.gatewayResponse["decision"] == JString(DecisionText(c.response.decision))
    && "reason_code" in c.gatewayResponse && c.gatewayResponse["reason_code"] == JString(c.response.reasonCode)
  }

  /** The reply is an object of texts and of two objects of texts and numbers. */
  predicate FlatReply(c: ScenarioCapture) {
    NestedWithin(JObject(c.gatewayResponse), 2)
  }

  lemma HonestReplyIsFlat(a: Answer, s: DeviceState, u: DeviceState)
    requires a.response.before == DumpState(s) && a.response.after == DumpState(u)
    ensures NestedWithin(JObject(DumpResponse(a.response)), 2)
  {
    StateIsFlat(s);
    StateIsFlat(u);
    hide DecisionText, DumpState;
    var d := DumpResponse(a.response);
    forall k | k in d ensures NestedWithin(d[k], 1) {
      assert d[k].JString? || d[k] == JObject(DumpState(s)) || d[k] == JObject(DumpState(u));
    }
  }

  lemma StateIsFlat(s: DeviceState)
    ensures NestedWithin(JObject(DumpState(s)), 1)
  {
    var d := DumpState(s);
    forall k | k in d ensures NestedWithin(d[k], 0) {
      assert d[k].JString? || d[k].JInt? || d[k].JNull?;
    }
  }

  /** A conclusive policy result, observed without interference, becomes exactly that observation. */
  lemma QuietCapture(f: Functions, d: ScenarioDefinition, role: Role, r: PolicyResult, stamps: Stamps, s: DeviceState, script: Script,
                     artifacts: seq<ArtifactRecord>)
    requires HashLaw(f) && Quiet(script) && r.decision != Error
    ensures var c := CaptureOf(f, d, stamps, Run(Target(role, r), StartWorld(s), Schedule(script)));
            && c.Ok? && c.value.definition == d && c.value.resetConfirmed
            && RepliedAsRecorded(c.value) && FlatReply(c.value)
            && Observed(ExecutionOf(f, c.value, artifacts), HttpStatusFor(r.decision, r.reason), r.decision, ReasonText(r.reason),
                        AfterDecision(INITIAL_STATE, r, Acknowledged))
  {
    QuietRun(Target(role, r), s, script);
    HonestCapture(f, d, role, r, stamps, script.body, artifacts);
    hide Run, Schedule, Quiet, Capture, Observed, Decided, AfterDecision, RepliedAsRecorded, FlatReply, ExecutionOf, ReasonText, HttpStatusFor;
  }

  /** What the orchestrator makes of an honest reply that decided on the initial state. */
  lemma HonestCapture(f: Functions, d: ScenarioDefinition, role: Role, r: PolicyResult, stamps: Stamps, body: Bytes,
                      artifacts: seq<ArtifactRecord>)
    requires HashLaw(f) && r.decision != Error
    ensures var after := AfterDecision(INITIAL_STATE, r, Acknowledged);
            var reply := Replied(Decided(role, r, INITIAL_STATE, Acknowledged, Applied(INITIAL_STATE, UpdateOf(r))), body);
            var c := Capture(f, d, stamps, INITIAL_STATE, reply, after);
            && c.Ok? && c.value.definition == d && c.value.resetConfirmed
            && RepliedAsRecorded(c.value) && FlatReply(c.value)
            && Observed(ExecutionOf(f, c.value, artifacts), HttpStatusFor(r.decision, r.reason), r.decision, ReasonText(r.reason), after)
  {
    var after := AfterDecision(INITIAL_STATE, r, Acknowledged);
    var answer := Decided(role, r, INITIAL_STATE, Acknowledged, Applied(INITIAL_STATE, UpdateOf(r)));
    var reply := Replied(answer, body);
    HonestAnswer(role, r);
    DumpsEqual(INITIAL_STATE, INITIAL_STATE);
    DumpsEqual(after, after);
    HonestReplyIsFlat(answer, INITIAL_STATE, after);
    assert IsSha256(f.sha256(body));
    hide Decided, AfterDecision, NestedWithin, ReasonText, DumpState, PyEqual, IsSha256, DecisionText;
  }

  lemma HonestAnswer(role: Role, r: PolicyResult)
    requires r.decision != Error
    ensures var after := AfterDecision(INITIAL_STATE, r, Acknowledged);
            var a := Decided(role, r, INITIAL_STATE, Acknowledged, Applied(INITIAL_STATE, UpdateOf(r)));
            && a.response.before == DumpState(INITIAL_STATE) && a.response.after == DumpState(after)
            && a.response.decision == r.decision && a.response.reasonCode == ReasonText(r.reason)
            && a.status == HttpStatusFor(r.decision, r.reason)
  {
    hide DumpState, ReasonText;
  }

  /** What the real policies make of the demonstration's packages. */
  lemma DemonstrationPolicies(f: Functions, ins: Inputs, role: Role)
    requires Demonstration(f, ins)
    ensures TargetFor(f, ins, role).result ==
            match role
            case Vulnerable => WithFields(Accepted, ChecksumOnlyAccepted, ins.untrusted.package)
            case Patched => WithFields(Rejected, UntrustedSigner, ins.untrusted.package)
            case PositiveControl => WithFields(Accepted, TrustedSignatureAccepted, ins.trusted.package)
  {
    hide ParseAndDecode, IntegrityFailure, SignatureVerifies;
  }

  /** What a role's execution must record for the outcome to be PATCH_VERIFIED. */
  predicate Expected(x: ExecutionEvidence, role: Role) {
    x.role == role &&
    match role
    case Vulnerable => Observed(x, 200, Accepted, "CHECKSUM_ONLY_ACCEPTED", DeviceState(UNTRUSTED_VERSION, 1, Some(x.package.sha256)))
    case Patched => Observed(x, 403, Rejected, "UNTRUSTED_SIGNER", INITIAL_STATE)
    case PositiveControl => Observed(x, 200, Accepted, "TRUSTED_SIGNATURE_ACCEPTED", DeviceState(TRUSTED_VERSION, 1, Some(x.package.sha256)))
  }

  lemma QuietScenario(f: Functions, ins: Inputs, s: DeviceState, plan: Plan, n: nat, artifacts: seq<ArtifactRecord>)
    requires HashLaw(f) && Demonstration(f, ins) && n < 3 && Quiet(plan[n].0)
    ensures var c := CaptureAt(f, ins, s, plan, n);
            && c.Ok? && c.value.definition == Definition(ins, ROLE_ORDER[n]) && c.value.resetConfirmed
            && RepliedAsRecorded(c.value) && FlatReply(c.value)
            && Expected(ExecutionOf(f, c.value, artifacts), ROLE_ORDER[n])
  {
    var role := ROLE_ORDER[n];
    hide *;
    QuietScenarioOf(f, ins, role, StartState(f, ins, s, plan, n), plan[n], artifacts);
    CaptureAtIs(f, ins, s, plan, n);
  }

  lemma CaptureAtIs(f: Functions, ins: Inputs, s: DeviceState, plan: Plan, n: nat)
    requires n < 3
    ensures var role := ROLE_ORDER[n];
            CaptureAt(f, ins, s, plan, n) ==
            CaptureOf(f, Definition(ins, role), plan[n].1,
                      Run(TargetFor(f, ins, role), StartWorld(StartState(f, ins, s, plan, n)), Schedule(plan[n].0)))
  {
    hide Run, Schedule, CaptureOf;
  }

  lemma QuietScenarioOf(f: Functions, ins: Inputs, role: Role, s: DeviceState, step: (Script, Stamps), artifacts: seq<ArtifactRecord>)
    requires HashLaw(f) && Demonstration(f, ins) && Quiet(step.0)
    ensures var c := CaptureOf(f, Definition(ins, role), step.1, Run(TargetFor(f, ins, role), StartWorld(s), Schedule(step.0)));
            && c.Ok? && c.value.definition == Definition(ins, role) && c.value.resetConfirmed
            && RepliedAsRecorded(c.value) && FlatReply(c.value)
            && Expected(ExecutionOf(f, c.value, artifacts), role)
  {
    DemonstrationPolicies(f, ins, role);
    TargetRole(f, ins, role);
    var d, t := Definition(ins, role), TargetFor(f, ins, role);
    var r := t.result;
    assert r.payloadSha256 == d.package.envelope.manifest.payloadSha256;
    assert role != Patched ==> r.firmwareVersion == if role == Vulnerable then UNTRUSTED_VERSION else TRUSTED_VERSION;
    assert d.package == (if role == PositiveControl then ins.trusted else ins.untrusted).package;
    hide *;
    var c := CaptureOf(f, d, step.1, Run(t, StartWorld(s), Schedule(step.0)));
    QuietCapture(f, d, GatewayRole(role), t.result, step.1, s, step.0, artifacts);
    ExecutionFields(f, ins, role, c.value, artifacts);
    ObservedAsExpected(ExecutionOf(f, c.value, artifacts), role, t.result);
  }

  lemma ObservedAsExpected(x: ExecutionEvidence, role: Role, r: PolicyResult)
    requires x.role == role && r.payloadSha256 == x.package.sha256
    requires match role
             case Vulnerable => r.decision == Accepted && r.reason == ChecksumOnlyAccepted && r.firmwareVersion == UNTRUSTED_VERSION
             case Patched => r.decision == Rejected && r.reason == UntrustedSigner
             case PositiveControl => r.decision == Accepted && r.reason == TrustedSignatureAccepted && r.firmwareVersion == TRUSTED_VERSION
    requires Observed(x, HttpStatusFor(r.decision, r.reason), r.decision, ReasonText(r.reason), AfterDecision(INITIAL_STATE, r, Acknowledged))
    ensures Expected(x, role)
  {
  }

  lemma ExecutionFields(f: Functions, ins: Inputs, role: Role, c: ScenarioCapture, artifacts: seq<ArtifactRecord>)
    requires c.definition == Definition(ins, role)
    ensures var x := ExecutionOf(f, c, artifacts);
            && x.role == role
            && x.package.sha256 == (if role == PositiveControl then ins.trusted else ins.untrusted).package.envelope.manifest.payloadSha256
            && x.package.envelopeSha256 == f.sha256(c.definition.packageBytes)
  {
    hide IndividualVerdict;
  }

  lemma TargetRole(f: Functions, ins: Inputs, role: Role)
    ensures TargetFor(f, ins, role) == Target(GatewayRole(role), TargetFor(f, ins, role).result)
  {
  }

  /** The execution records of three captures, with their raw artifacts. */
  function Executions(f: Functions, captures: seq<ScenarioCapture>, artifacts: seq<seq<ArtifactRecord>>): seq<ExecutionEvidence>
    requires |captures| == |artifacts| == 3
  {
    [ExecutionOf(f, captures[0], artifacts[0]), ExecutionOf(f, captures[1], artifacts[1]), ExecutionOf(f, captures[2], artifacts[2])]
  }

  /**
    * Without faults and without interference, a genuine demonstration is verified from any
    * device state, through the real policies, the gateway and the device.
    */
  lemma RunCompleteness(f: Functions, ins: Inputs, s: DeviceState, plan: Plan) returns (captures: seq<ScenarioCapture>)
    requires HashLaw(f) && Demonstration(f, ins)
    requires forall n | 0 <= n < 3 :: Quiet(plan[n].0)
    ensures |captures| == 3 && Captured(f, ins, s, plan, captures)
    ensures forall n | 0 <= n < 3 :: captures[n].resetConfirmed && RepliedAsRecorded(captures[n]) && FlatReply(captures[n])
    ensures forall artifacts | |artifacts| == 3 :: VerificationOutcome(Executions(f, captures, artifacts)) == PatchVerified
  {
    hide *;
    RolesInOrder();
    QuietScenario(f, ins, s, plan, 0, []);
    QuietScenario(f, ins, s, plan, 1, []);
    QuietScenario(f, ins, s, plan, 2, []);
    captures := [CaptureAt(f, ins, s, plan, 0).value, CaptureAt(f, ins, s, plan, 1).value, CaptureAt(f, ins, s, plan, 2).value];
    AllCaptured(f, ins, s, plan);
    forall artifacts: seq<seq<ArtifactRecord>> | |artifacts| == 3
      ensures VerificationOutcome(Executions(f, captures, artifacts)) == PatchVerified
    {
      QuietScenario(f, ins, s, plan, 0, artifacts[0]);
      QuietScenario(f, ins, s, plan, 1, artifacts[1]);
      QuietScenario(f, ins, s, plan, 2, artifacts[2]);
      ExpectedCaptures(f, ins, captures, artifacts);
    }
  }

  lemma RolesInOrder()
    ensures |ROLE_ORDER| == 3 && ROLE_ORDER[0] == Vulnerable && ROLE_ORDER[1] == Patched && ROLE_ORDER[2] == PositiveControl
  {
  }

  lemma ExpectedCaptures(f: Functions, ins: Inputs, captures: seq<ScenarioCapture>, artifacts: seq<seq<ArtifactRecord>>)
    requires |captures| == |artifacts| == 3
    requires captures[0].definition == Definition(ins, Vulnerable) && captures[1].definition == Definition(ins, Patched)
    requires Expected(ExecutionOf(f, captures[0], artifacts[0]), Vulnerable)
    requires Expected(ExecutionOf(f, captures[1], artifacts[1]), Patched)
    requires Expected(ExecutionOf(f, captures[2], artifacts[2]), PositiveControl)
    ensures VerificationOutcome(Executions(f, captures, artifacts)) == PatchVerified
  {
    hide Expected, ExecutionOf, VerificationOutcome;
    ExecutionFields(f, ins, Vulnerable, captures[0], artifacts[0]);
    ExecutionFields(f, ins, Patched, captures[1], artifacts[1]);
    ExpectedIsVerified(Executions(f, captures, artifacts));
  }

  lemma AllCaptured(f: Functions, ins: Inputs, s: DeviceState, plan: Plan)
    requires CaptureAt(f, ins, s, plan, 0).Ok? && CaptureAt(f, ins, s, plan, 1).Ok? && CaptureAt(f, ins, s, plan, 2).Ok?
    ensures Captured(f, ins, s, plan,
              [CaptureAt(f, ins, s, plan, 0).value, CaptureAt(f, ins, s, plan, 1).value, CaptureAt(f, ins, s, plan, 2).value])
  {
    hide CaptureAt;
  }

  lemma ExpectedIsVerified(xs: seq<ExecutionEvidence>)
    requires |xs| == 3 && Expected(xs[0], Vulnerable) && Expected(xs[1], Patched) && Expected(xs[2], PositiveControl)
    requires xs[0].package.envelopeSha256 == xs[1].package.envelopeSha256
    ensures VerificationOutcome(xs) == PatchVerified
  {
    hide VerificationOutcome;
    OutcomeOfTrio(xs, xs[0], xs[1], xs[2]);
  }

  /* ---- Soundness ---- */

  /** A scenario that reached its end against some gateway, honest or not, and what it recorded. */
  datatype Finished = Finished(target: Target, start: DeviceState, events: seq<Event>, capture: ScenarioCapture)

  /** The capture is the one the orchestrator made of that schedule, with a role's definition. */
  ghost predicate Recorded(f: Functions, ins: Inputs, x: Finished, role: Role) {
    var w := Run(x.target, StartWorld(x.start), x.events);
    && w.phase.Done?
    && exists stamps :: Ok(x.capture) == CaptureOf(f, Definition(ins, role), stamps, w)
  }

  /**
    * Whatever the gateways reply, and whatever they or others do to the device: PATCH_VERIFIED
    * means that the device really stood in these states when each scenario's reply had arrived.
    */
  lemma RunSoundness(f: Functions, ins: Inputs, v: Finished, p: Finished, c: Finished, artifacts: seq<seq<ArtifactRecord>>)
    requires |artifacts| == 3
    requires Recorded(f, ins, v, Vulnerable) && Recorded(f, ins, p, Patched) && Recorded(f, ins, c, PositiveControl)
    requires VerificationOutcome(Executions(f, [v.capture, p.capture, c.capture], artifacts)) == PatchVerified
    ensures v.capture.before == p.capture.before == c.capture.before == INITIAL_STATE
    ensures EndedIn(v.target, StartWorld(v.start), v.events,
                    DeviceState(UNTRUSTED_VERSION, 1, Some(ins.untrusted.package.envelope.manifest.payloadSha256)))
    ensures EndedIn(p.target, StartWorld(p.start), p.events, INITIAL_STATE)
    ensures EndedIn(c.target, StartWorld(c.start), c.events,
                    DeviceState(TRUSTED_VERSION, 1, Some(ins.trusted.package.envelope.manifest.payloadSha256)))
  {
    RecordIsTruthful(v.target, StartWorld(v.start), v.events);
    RecordIsTruthful(p.target, StartWorld(p.start), p.events);
    RecordIsTruthful(c.target, StartWorld(c.start), c.events);
    hide Run, EndedIn, VerificationOutcome;
    var x, y, z := ExecutionOf(f, v.capture, artifacts[0]), ExecutionOf(f, p.capture, artifacts[1]), ExecutionOf(f, c.capture, artifacts[2]);
    OutcomeOfTrio([x, y, z], x, y, z);
  }
}
