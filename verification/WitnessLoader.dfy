/** The physical witness's use of a bundle that verifies. */
module WitnessLoader {
  import opened Prelude
  import opened Evidence
  import opened Verdicts
  import opened Library
  import opened Bundle
  import opened Verification
  import opened Witness
  import opened Presentation

  /**
    * For every bundle that verifies with a document, the witness plans signals exactly when the
    * outcome is PATCH_VERIFIED, for the two accepting scenarios, and declines for no other reason.
    */
  lemma WitnessAgreesWithVerification(f: Functions, t: Tree)
    requires Documented(f, t)
    ensures EvidenceIn(f, t).Some?
    ensures var e := EvidenceIn(f, t).value;
            && (PlanFor(e).eligible <==> VerificationOutcome(e.executions) == PatchVerified)
            && PlanFor(e).reason == (if PlanFor(e).eligible then Planned else OutcomeNotVerified)
            && SignalRoles(PlanFor(e).scenarios) == (if PlanFor(e).eligible then [Vulnerable, PositiveControl] else [])
  {
    SnapshotAgrees(f, t);
    var e := EvidenceIn(f, t).value;
    PlanExactly(e);
    hide Documented, EvidenceIn, VerificationOutcome, IndividualVerdict, OnePerRole;
    RolesOfPlans();
    if VerificationOutcome(e.executions) != PatchVerified {
      assert PlanFor(e) == NoCommandPlan(OutcomeNotVerified);
    } else {
      EligibleIsPlanned(e);
    }
  }

  datatype LoadError = BundleInvalid | EvidenceInvalid

  /** `_load_verified_plan`: it refuses a bundle whose evidence is `null`, although the bundle verifies. */
  method LoadVerifiedPlan(f: Functions, root: Root) returns (r: Result<WitnessPlan, LoadError>)
    requires EvidenceLaw(f)
    ensures r == Err(BundleInvalid) <==> !(root.Directory? && root.inside && BundleAccepted(f, root.tree))
    ensures r == Err(EvidenceInvalid) <==> root.Directory? && root.inside && BundleAccepted(f, root.tree) && NullEvidence(f, root.tree)
    ensures r.Ok? ==> EvidenceIn(f, root.tree).Some? && r.value == PlanFor(EvidenceIn(f, root.tree).value)
  {
    hide BundleAccepted, PlanFor;
    var result := VerifyBundle(f, root, false);
    if !result.valid {
      return Err(BundleInvalid);
    }
    OutcomeUnlessNull(f, root.tree);
    if !Regular(root.tree, EVIDENCE) {
      return Err(EvidenceInvalid);
    }
    var evidence := f.parseEvidence(root.tree[EVIDENCE].content);
    if evidence.None? {
      return Err(EvidenceInvalid);
    }
    r := Ok(PlanFor(evidence.value));
  }

  lemma EligibleIsPlanned(e: EvidenceDocument)
    requires PlanFor(e).eligible
    ensures PlanFor(e).reason == Planned
  {
    hide VerificationOutcome, ByRole, SignalCount, ExpectedLabels;
  }

  lemma RolesOfPlans()
    ensures SignalRoles(SIGNALS) == [Vulnerable, PositiveControl]
    ensures SignalRoles(NoCommandPlan(OutcomeNotVerified).scenarios) == []
  {
    var s, n := SIGNALS, NoCommandPlan(OutcomeNotVerified).scenarios;
    assert s[1..] == [s[1], s[2]] && s[1..][1..] == [s[2]] && s[1..][1..][1..] == [];
    assert n[1..] == [n[1], n[2]] && n[1..][1..] == [n[2]] && n[1..][1..][1..] == [];
  }
}
