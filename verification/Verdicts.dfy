/** Verdicts recomputed from recorded observations. */
module Verdicts {
  import opened Prelude
  import opened Evidence

  predicate IsInitial(x: ExecutionEvidence) {
    x.before.firmwareVersion == INITIAL_VERSION && x.before.updateCounter == 0 && x.before.lastPayload.None?
  }

  predicate IsUnchanged(x: ExecutionEvidence) {
    x.after == x.before
  }

  predicate IsApplied(x: ExecutionEvidence, version: string) {
    && IsInitial(x)
    && x.after.firmwareVersion == version
    && x.after.updateCounter == x.before.updateCounter + 1
    && x.after.lastPayload == Some(x.package.sha256)
  }

  predicate ResponseIsCoherent(x: ExecutionEvidence) {
    && x.observedDecision == x.response.decision
    && x.package.envelopeSha256 == x.requestBodySha256
    && match x.response.decision
       case Accepted => x.response.httpStatus == 200 && x.after.updateCounter == x.before.updateCounter + 1
       case Rejected => x.response.httpStatus in {400, 403} && IsUnchanged(x)
       case Error => false
  }

  /** `calculate_individual_verdict`. */
  function IndividualVerdict(x: ExecutionEvidence): Verdict {
    if x.observedDecision == Error then NoVerdict
    else if !IsInitial(x) || !ResponseIsCoherent(x) then NoVerdict
    else match x.role
    case Vulnerable =>
      if x.observedDecision == Accepted && IsApplied(x, UNTRUSTED_VERSION) then Fail
      else if x.observedDecision == Rejected && IsUnchanged(x) then Pass
      else NoVerdict
    case Patched =>
      if x.observedDecision == Rejected && IsUnchanged(x) then Pass
      else if x.observedDecision == Accepted && IsApplied(x, UNTRUSTED_VERSION) then Fail
      else NoVerdict
    case PositiveControl =>
      if x.observedDecision == Accepted && IsApplied(x, TRUSTED_VERSION) then Pass
      else if x.observedDecision == Rejected && IsUnchanged(x) then Fail
      else NoVerdict
  }

  predicate BaselineReproduced(x: ExecutionEvidence) {
    && IndividualVerdict(x) == Fail
    && x.response.httpStatus == 200
    && x.observedDecision == Accepted
    && x.response.reasonCode == "CHECKSUM_ONLY_ACCEPTED"
    && IsApplied(x, UNTRUSTED_VERSION)
  }

  predicate PatchedRejected(x: ExecutionEvidence) {
    && IndividualVerdict(x) == Pass
    && x.response.httpStatus == 403
    && x.observedDecision == Rejected
    && x.response.reasonCode == "UNTRUSTED_SIGNER"
    && IsInitial(x)
    && IsUnchanged(x)
  }

  predicate PositiveControlPassed(x: ExecutionEvidence) {
    && IndividualVerdict(x) == Pass
    && x.response.httpStatus == 200
    && x.observedDecision == Accepted
    && x.response.reasonCode == "TRUSTED_SIGNATURE_ACCEPTED"
    && IsApplied(x, TRUSTED_VERSION)
  }

  /** The entry a dict comprehension over the list keeps for a role: the last one. */
  function ByRole(xs: seq<ExecutionEvidence>, role: Role): (r: Option<ExecutionEvidence>)
    ensures r.Some? ==> r.value in xs && r.value.role == role
    ensures r.None? <==> forall x | x in xs :: x.role != role
  {
    if xs == [] then None
    else
      var rest := ByRole(xs[1..], role);
      if rest.Some? then rest else if xs[0].role == role then Some(xs[0]) else None
  }

  lemma {:induction false} CountedRoleIsFound(xs: seq<ExecutionEvidence>, role: Role)
    ensures RoleCount(xs, role) > 0 <==> ByRole(xs, role).Some?
  {
    if xs != [] {
      CountedRoleIsFound(xs[1..], role);
    }
  }

  /** `calculate_verification_outcome`. */
  function VerificationOutcome(xs: seq<ExecutionEvidence>): Outcome {
    if !OnePerRole(xs) then Inconclusive
    else
      CountedRoleIsFound(xs, Vulnerable);
      CountedRoleIsFound(xs, Patched);
      CountedRoleIsFound(xs, PositiveControl);
      var vulnerable := ByRole(xs, Vulnerable).value;
      var patched := ByRole(xs, Patched).value;
      var positive := ByRole(xs, PositiveControl).value;
      if exists x | x in xs :: x.observedDecision == Error || IndividualVerdict(x) == NoVerdict then Inconclusive
      else if vulnerable.package.envelopeSha256 != patched.package.envelopeSha256
           || vulnerable.requestBodySha256 != patched.requestBodySha256
           || vulnerable.package.envelopeSha256 != vulnerable.requestBodySha256
           || patched.package.envelopeSha256 != patched.requestBodySha256 then Inconclusive
      else if !BaselineReproduced(vulnerable) then Inconclusive
      else if PatchedRejected(patched) && PositiveControlPassed(positive) then PatchVerified
      else if !ResponseIsCoherent(patched) || !ResponseIsCoherent(positive) then Inconclusive
      else PatchNotVerified
  }

  /* ---- The three-role contract, stated on the records alone ---- */

  /** The list is these three executions, one per role, in some order. */
  ghost predicate Trio(xs: seq<ExecutionEvidence>, v: ExecutionEvidence, p: ExecutionEvidence, c: ExecutionEvidence) {
    && |xs| == 3 && v in xs && p in xs && c in xs
    && v.role == Vulnerable && p.role == Patched && c.role == PositiveControl
  }

  /** Sent the recorded package, answered with a status and reason, and left the device so. */
  predicate Observed(x: ExecutionEvidence, status: int, decision: Decision, reason: string, after: DeviceState) {
    && x.observedDecision == x.response.decision == decision
    && x.response.httpStatus == status && x.response.reasonCode == reason
    && x.package.envelopeSha256 == x.requestBodySha256
    && x.before == INITIAL_STATE && x.after == after
  }

  /** Every condition the project's logic document lists for PATCH_VERIFIED. */
  ghost predicate VerifiedContract(v: ExecutionEvidence, p: ExecutionEvidence, c: ExecutionEvidence) {
    && Observed(v, 200, Accepted, "CHECKSUM_ONLY_ACCEPTED", DeviceState(UNTRUSTED_VERSION, 1, Some(v.package.sha256)))
    && Observed(p, 403, Rejected, "UNTRUSTED_SIGNER", INITIAL_STATE)
    && Observed(c, 200, Accepted, "TRUSTED_SIGNATURE_ACCEPTED", DeviceState(TRUSTED_VERSION, 1, Some(c.package.sha256)))
    && v.package.envelopeSha256 == p.package.envelopeSha256
  }

  /** A complete, coherent observation of one of the two behaviours a role can show. */
  ghost predicate Conclusive(x: ExecutionEvidence, version: string) {
    || Observed(x, 200, Accepted, x.response.reasonCode, DeviceState(version, 1, Some(x.package.sha256)))
    || Observed(x, 400, Rejected, x.response.reasonCode, INITIAL_STATE)
    || Observed(x, 403, Rejected, x.response.reasonCode, INITIAL_STATE)
  }

  /** The baseline reproduced on the same input, everything conclusive, and the contract missed. */
  ghost predicate NotVerifiedContract(v: ExecutionEvidence, p: ExecutionEvidence, c: ExecutionEvidence) {
    && Observed(v, 200, Accepted, "CHECKSUM_ONLY_ACCEPTED", DeviceState(UNTRUSTED_VERSION, 1, Some(v.package.sha256)))
    && Conclusive(p, UNTRUSTED_VERSION) && Conclusive(c, TRUSTED_VERSION)
    && v.package.envelopeSha256 == p.package.envelopeSha256
    && !VerifiedContract(v, p, c)
  }

  function One(x: ExecutionEvidence, role: Role): nat {
    if x.role == role then 1 else 0
  }

  lemma ThreeEntries(xs: seq<ExecutionEvidence>, role: Role)
    requires |xs| == 3
    ensures RoleCount(xs, role) == One(xs[0], role) + One(xs[1], role) + One(xs[2], role)
  {
    var ys := xs[1..];
    var zs := ys[1..];
    assert xs[0] == xs[0] && ys[0] == xs[1] && zs[0] == xs[2] && zs[1..] == [];
    assert RoleCount(zs, role) == One(zs[0], role) + RoleCount(zs[1..], role);
  }

  lemma TrioMembers(xs: seq<ExecutionEvidence>, v: ExecutionEvidence, p: ExecutionEvidence, c: ExecutionEvidence)
    requires Trio(xs, v, p, c)
    ensures forall x :: x in xs <==> x == v || x == p || x == c
    ensures One(xs[0], Vulnerable) + One(xs[1], Vulnerable) + One(xs[2], Vulnerable) == 1
    ensures One(xs[0], Patched) + One(xs[1], Patched) + One(xs[2], Patched) == 1
    ensures One(xs[0], PositiveControl) + One(xs[1], PositiveControl) + One(xs[2], PositiveControl) == 1
  {
    var i :| 0 <= i < 3 && xs[i] == v;
    var j :| 0 <= j < 3 && xs[j] == p;
    var k :| 0 <= k < 3 && xs[k] == c;
    assert i != j && j != k && i != k;
    assert xs[0] in {v, p, c} && xs[1] in {v, p, c} && xs[2] in {v, p, c};
  }

  /** A trio has one execution per role, and the dict entries are its members. */
  lemma TrioEntries(xs: seq<ExecutionEvidence>, v: ExecutionEvidence, p: ExecutionEvidence, c: ExecutionEvidence)
    requires Trio(xs, v, p, c)
    ensures OnePerRole(xs)
    ensures ByRole(xs, Vulnerable) == Some(v) && ByRole(xs, Patched) == Some(p) && ByRole(xs, PositiveControl) == Some(c)
    ensures forall x :: x in xs <==> x == v || x == p || x == c
  {
    TrioMembers(xs, v, p, c);
    ThreeEntries(xs, Vulnerable);
    ThreeEntries(xs, Patched);
    ThreeEntries(xs, PositiveControl);
    hide RoleCount, ByRole, One;
  }

  lemma OnePerRoleIsTrio(xs: seq<ExecutionEvidence>)
    requires OnePerRole(xs)
    ensures ByRole(xs, Vulnerable).Some? && ByRole(xs, Patched).Some? && ByRole(xs, PositiveControl).Some?
    ensures Trio(xs, ByRole(xs, Vulnerable).value, ByRole(xs, Patched).value, ByRole(xs, PositiveControl).value)
  {
    CountedRoleIsFound(xs, Vulnerable);
    CountedRoleIsFound(xs, Patched);
    CountedRoleIsFound(xs, PositiveControl);
    ThreeEntries(xs, Vulnerable);
    ThreeEntries(xs, Patched);
    ThreeEntries(xs, PositiveControl);
    hide RoleCount, ByRole;
    assert xs[0].role != xs[1].role && xs[1].role != xs[2].role && xs[0].role != xs[2].role;
  }

  lemma VerdictOfObservation(x: ExecutionEvidence)
    ensures BaselineReproduced(x) && x.role == Vulnerable ==>
            Observed(x, 200, Accepted, "CHECKSUM_ONLY_ACCEPTED", DeviceState(UNTRUSTED_VERSION, 1, Some(x.package.sha256)))
    ensures x.role == Vulnerable &&
            Observed(x, 200, Accepted, "CHECKSUM_ONLY_ACCEPTED", DeviceState(UNTRUSTED_VERSION, 1, Some(x.package.sha256))) ==>
            BaselineReproduced(x)
    ensures x.role == Patched ==> (PatchedRejected(x) <==> Observed(x, 403, Rejected, "UNTRUSTED_SIGNER", INITIAL_STATE))
    ensures x.role == PositiveControl ==>
            (PositiveControlPassed(x) <==>
             Observed(x, 200, Accepted, "TRUSTED_SIGNATURE_ACCEPTED", DeviceState(TRUSTED_VERSION, 1, Some(x.package.sha256))))
    ensures IndividualVerdict(x) != NoVerdict <==>
            Conclusive(x, if x.role == PositiveControl then TRUSTED_VERSION else UNTRUSTED_VERSION)
  {
  }

  /** Accepted with 200 from the initial state, and the device then at the version with the package's payload. */
  predicate AppliedAsAccepted(x: ExecutionEvidence, version: string) {
    && x.observedDecision == Accepted && x.response.decision == Accepted && x.response.httpStatus == 200
    && x.requestBodySha256 == x.package.envelopeSha256
    && x.before == DeviceState("1.0.0", 0, None) && x.after == DeviceState(version, 1, Some(x.package.sha256))
  }

  /** Rejected with 400 or 403, and the device initial before and after. */
  predicate KeptAsRejected(x: ExecutionEvidence) {
    && x.observedDecision == Rejected && x.response.decision == Rejected && x.response.httpStatus in {400, 403}
    && x.requestBodySha256 == x.package.envelopeSha256
    && x.before == DeviceState("1.0.0", 0, None) && x.after == DeviceState("1.0.0", 0, None)
  }

  /**
    * The verdict, role by role, from what the record says. A gateway fails when it takes the attack
    * package, the positive control when it is refused; a record of neither behaviour has no verdict.
    */
  lemma VerdictExactly(x: ExecutionEvidence)
    ensures x.role != PositiveControl ==>
              && (IndividualVerdict(x) == Pass <==> KeptAsRejected(x))
              && (IndividualVerdict(x) == Fail <==> AppliedAsAccepted(x, "9.9.0-test"))
    ensures x.role == PositiveControl ==>
              && (IndividualVerdict(x) == Pass <==> AppliedAsAccepted(x, "1.1.0"))
              && (IndividualVerdict(x) == Fail <==> KeptAsRejected(x))
  {
  }

  lemma VerdictIsCoherent(x: ExecutionEvidence)
    ensures IndividualVerdict(x) != NoVerdict ==> ResponseIsCoherent(x)
  {
  }

  lemma OutcomeOfTrio(xs: seq<ExecutionEvidence>, v: ExecutionEvidence, p: ExecutionEvidence, c: ExecutionEvidence)
    requires Trio(xs, v, p, c)
    ensures VerificationOutcome(xs) == PatchVerified <==> VerifiedContract(v, p, c)
    ensures VerificationOutcome(xs) == PatchNotVerified <==> NotVerifiedContract(v, p, c)
  {
    TrioEntries(xs, v, p, c);
    VerdictOfObservation(v);
    VerdictOfObservation(p);
    VerdictOfObservation(c);
    VerdictIsCoherent(p);
    VerdictIsCoherent(c);
    hide IndividualVerdict, ResponseIsCoherent, ByRole, OnePerRole, BaselineReproduced, PatchedRejected, PositiveControlPassed;
    assert (exists x | x in xs :: x.observedDecision == Error || IndividualVerdict(x) == NoVerdict) <==>
           NoVerdict in {IndividualVerdict(v), IndividualVerdict(p), IndividualVerdict(c)};
  }

  /** Whatever passes the test for missing verdicts is coherent: the later incoherence test never fires. */
  lemma LateBranchUnreachable(xs: seq<ExecutionEvidence>, role: Role)
    requires OnePerRole(xs)
    requires forall x | x in xs :: IndividualVerdict(x) != NoVerdict
    ensures ByRole(xs, role).Some? && ResponseIsCoherent(ByRole(xs, role).value)
  {
    OnePerRoleIsTrio(xs);
    VerdictIsCoherent(ByRole(xs, role).value);
  }

  /** PATCH_VERIFIED, for lists of any length: exactly the explicit contract on one execution per role. */
  lemma VerifiedExactly(xs: seq<ExecutionEvidence>)
    ensures VerificationOutcome(xs) == PatchVerified <==> exists v, p, c :: Trio(xs, v, p, c) && VerifiedContract(v, p, c)
    ensures VerificationOutcome(xs) == PatchNotVerified <==> exists v, p, c :: Trio(xs, v, p, c) && NotVerifiedContract(v, p, c)
  {
    hide VerifiedContract, NotVerifiedContract;
    if OnePerRole(xs) {
      OnePerRoleIsTrio(xs);
      OutcomeOfTrio(xs, ByRole(xs, Vulnerable).value, ByRole(xs, Patched).value, ByRole(xs, PositiveControl).value);
    }
    forall v, p, c | Trio(xs, v, p, c)
      ensures VerificationOutcome(xs) == PatchVerified <==> VerifiedContract(v, p, c)
      ensures VerificationOutcome(xs) == PatchNotVerified <==> NotVerifiedContract(v, p, c)
    {
      OutcomeOfTrio(xs, v, p, c);
    }
  }

  /** The order in which executions are listed does not matter. */
  lemma OutcomeIgnoresOrder(xs: seq<ExecutionEvidence>, ys: seq<ExecutionEvidence>)
    requires multiset(xs) == multiset(ys)
    ensures VerificationOutcome(xs) == VerificationOutcome(ys)
  {
    VerifiedExactly(xs);
    VerifiedExactly(ys);
    hide VerificationOutcome, VerifiedContract, NotVerifiedContract;
    assert |xs| == |multiset(xs)| == |ys|;
    assert forall x :: x in xs <==> x in multiset(xs);
    assert forall x :: x in ys <==> x in multiset(ys);
    assert forall v, p, c :: Trio(xs, v, p, c) <==> Trio(ys, v, p, c);
  }

  /** The same executions with whatever verdict labels someone stored in them. */
  ghost predicate Relabelled(xs: seq<ExecutionEvidence>, ys: seq<ExecutionEvidence>) {
    |xs| == |ys| && forall i | 0 <= i < |xs| :: ys[i] == xs[i].(securityVerdict := ys[i].securityVerdict)
  }

  lemma {:induction false} RelabelledRoles(xs: seq<ExecutionEvidence>, ys: seq<ExecutionEvidence>, role: Role)
    requires Relabelled(xs, ys)
    ensures RoleCount(xs, role) == RoleCount(ys, role)
    ensures ByRole(xs, role).Some? <==> ByRole(ys, role).Some?
    ensures ByRole(xs, role).Some? ==>
            ByRole(ys, role).value == ByRole(xs, role).value.(securityVerdict := ByRole(ys, role).value.securityVerdict)
  {
    if xs != [] {
      RelabelledRoles(xs[1..], ys[1..], role);
    }
  }

  /** A stored verdict label cannot change the outcome. */
  lemma OutcomeIgnoresLabels(xs: seq<ExecutionEvidence>, ys: seq<ExecutionEvidence>)
    requires Relabelled(xs, ys)
    ensures VerificationOutcome(xs) == VerificationOutcome(ys)
  {
    RelabelledRoles(xs, ys, Vulnerable);
    RelabelledRoles(xs, ys, Patched);
    RelabelledRoles(xs, ys, PositiveControl);
    if OnePerRole(xs) {
      OnePerRoleIsTrio(xs);
      OnePerRoleIsTrio(ys);
      var v, p, c := ByRole(xs, Vulnerable).value, ByRole(xs, Patched).value, ByRole(xs, PositiveControl).value;
      var v', p', c' := ByRole(ys, Vulnerable).value, ByRole(ys, Patched).value, ByRole(ys, PositiveControl).value;
      OutcomeOfTrio(xs, v, p, c);
      OutcomeOfTrio(ys, v', p', c');
      hide *;
      ContractsIgnoreLabels(v, p, c, v'.securityVerdict, p'.securityVerdict, c'.securityVerdict);
    } else {
      hide RoleCount, ByRole;
      assert !OnePerRole(ys);
    }
  }

  lemma ContractsIgnoreLabels(v: ExecutionEvidence, p: ExecutionEvidence, c: ExecutionEvidence, s: Verdict, t: Verdict, u: Verdict)
    ensures var v', p', c' := v.(securityVerdict := s), p.(securityVerdict := t), c.(securityVerdict := u);
            && (VerifiedContract(v, p, c) <==> VerifiedContract(v', p', c'))
            && (NotVerifiedContract(v, p, c) <==> NotVerifiedContract(v', p', c'))
  {
  }

  /* ---- Stored against recomputed ---- */

  datatype ConsistencyFailure = StoredVerdict(role: Role) | SecureExpectation(role: Role) | DecisionsDiffer(role: Role)

  function ExpectedSecure(role: Role): Decision {
    if role == PositiveControl then Accepted else Rejected
  }

  /** Nothing an execution stores about its own verdict differs from what is recomputed. */
  predicate Consistent(x: ExecutionEvidence) {
    && x.securityVerdict == IndividualVerdict(x)
    && x.secureExpectedDecision == ExpectedSecure(x.role)
    && x.observedDecision == x.response.decision
  }

  /** `evidence_consistency_failures`: every failure found is real, and none is missed. */
  method ConsistencyFailures(xs: seq<ExecutionEvidence>) returns (failures: seq<ConsistencyFailure>)
    ensures failures == [] <==> forall i | 0 <= i < |xs| :: Consistent(xs[i])
    ensures forall r :: StoredVerdict(r) in failures <==>
                        exists i :: 0 <= i < |xs| && xs[i].role == r && xs[i].securityVerdict != IndividualVerdict(xs[i])
    ensures forall r :: SecureExpectation(r) in failures <==>
                        exists i :: 0 <= i < |xs| && xs[i].role == r
                                    && xs[i].secureExpectedDecision != if r == PositiveControl then Accepted else Rejected
    ensures forall r :: DecisionsDiffer(r) in failures <==>
                        exists i :: 0 <= i < |xs| && xs[i].role == r && xs[i].observedDecision != xs[i].response.decision
  {
    hide IndividualVerdict;
    failures := [];
    for n := 0 to |xs|
      invariant failures == [] <==> forall i | 0 <= i < n :: Consistent(xs[i])
      invariant forall r :: StoredVerdict(r) in failures <==>
                            exists i :: 0 <= i < n && xs[i].role == r && xs[i].securityVerdict != IndividualVerdict(xs[i])
      invariant forall r :: SecureExpectation(r) in failures <==>
                            exists i :: 0 <= i < n && xs[i].role == r && xs[i].secureExpectedDecision != ExpectedSecure(r)
      invariant forall r :: DecisionsDiffer(r) in failures <==>
                            exists i :: 0 <= i < n && xs[i].role == r && xs[i].observedDecision != xs[i].response.decision
    {
      var x := xs[n];
      if x.securityVerdict != IndividualVerdict(x) {
        failures := failures + [StoredVerdict(x.role)];
      }
      if x.secureExpectedDecision != ExpectedSecure(x.role) {
        failures := failures + [SecureExpectation(x.role)];
      }
      if x.observedDecision != x.response.decision {
        failures := failures + [DecisionsDiffer(x.role)];
      }
    }
  }
}
