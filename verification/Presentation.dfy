/** Showing a verified bundle: the registry, and the checks made on the way to the dashboard. */
module Presentation {
  import opened Prelude
  import opened Evidence
  import opened Verdicts
  import opened Library
  import opened Bundle
  import opened Verification
  import opened Publication
  import opened Paths
  import opened Output

  const LIVE_PREFIX := "JOB-"

  /** The ids a presentation may carry. */
  predicate PublicId(id: string) {
    id == "demo" || (|id| == 12 && LIVE_PREFIX <= id && forall i | 4 <= i < 12 :: IsLowerHex(id[i]))
  }

  lemma PublicIdExactly(id: string)
    ensures PublicId(id) <==>
            id == "demo" || (|id| == 12 && id[..4] == "JOB-" && forall i | 4 <= i < 12 :: id[i] in "0123456789abcdef")
  {
  }

  datatype RegistrationError = WrongPrefix | LinkedBundle | OutsideEvidence

  /** Opaque public ids for known bundle directories. */
  class BundleRegistry {
    var bundles: map<string, Path>

    constructor (repository: Path)
      ensures bundles == map["demo" := repository + [EVIDENCE_NAME, "demo-bundle"]]
    {
      bundles := map["demo" := repository + [EVIDENCE_NAME, "demo-bundle"]];
    }

    /** `register_live`: the path is stored as it resolves. */
    method RegisterLive(id: string, host: Host, repository: Path, path: Path) returns (r: Result<(), RegistrationError>)
      modifies this
      ensures r.Ok? <==>
              && "JOB-" <= id && !IsLink(host, path) && !IsLink(host, host.resolve(path))
              && EvidenceRoot(host, repository) <= host.resolve(path)
      ensures bundles == if r.Ok? then old(bundles)[id := host.resolve(path)] else old(bundles)
    {
      if !(LIVE_PREFIX <= id) {
        return Err(WrongPrefix);
      }
      if IsLink(host, path) {
        return Err(LinkedBundle);
      }
      var resolved := host.resolve(path);
      if !(EvidenceRoot(host, repository) <= resolved) || IsLink(host, resolved) {
        return Err(RegistrationError.OutsideEvidence);
      }
      bundles := bundles[id := resolved];
      return Ok(());
    }

    function Resolve(id: string): Option<Path>
      reads this
    {
      if id in bundles then Some(bundles[id]) else None
    }
  }

  datatype ScenarioPresentation = ScenarioPresentation(
    role: Role,
    buildId: string,
    httpStatus: int,
    observedDecision: Decision,
    reasonCode: string,
    securityVerdict: Verdict,
    versionBefore: string,
    versionAfter: string,
    counterBefore: nat,
    counterAfter: nat)

  datatype BundlePresentation = BundlePresentation(
    bundleId: string,
    verificationId: string,
    outcome: Outcome,
    createdAt: string,
    sameInput: bool,
    envelopeSha256: string,
    requestSha256: string,
    manifestSha256: string,
    entryCount: nat,
    scenarios: seq<ScenarioPresentation>)

  datatype PresentationError =
    | NotRegistered
    | LinkedRoot
    | NotVerified
    | LinkedEvidence
    | EvidenceUnreadable
    | WrongRoles
    | InputsDiffer
    | OutcomesDiffer
    | PresentationRefused

  function Present(x: ExecutionEvidence): ScenarioPresentation {
    ScenarioPresentation(x.role, x.buildId, x.response.httpStatus, x.observedDecision, x.response.reasonCode, x.securityVerdict,
                         x.before.firmwareVersion, x.after.firmwareVersion, x.before.updateCounter, x.after.updateCounter)
  }

  /** What is shown of a scenario is what its execution record says. */
  predicate ShowsExecution(s: ScenarioPresentation, x: ExecutionEvidence) {
    && s.role == x.role && s.buildId == x.buildId
    && s.httpStatus == x.response.httpStatus && s.reasonCode == x.response.reasonCode
    && s.observedDecision == x.observedDecision && s.securityVerdict == x.securityVerdict
    && s.versionBefore == x.before.firmwareVersion && s.counterBefore == x.before.updateCounter
    && s.versionAfter == x.after.firmwareVersion && s.counterAfter == x.after.updateCounter
  }

  /** A directory inside the repository that verifies. */
  predicate VerifiedAt(f: Functions, host: Host, repository: Path, d: Disk, path: Path) {
    path in d && d[path].Folder? && Inside(host, repository, path) && BundleAccepted(f, d[path].tree)
  }

  lemma VerifiedRoot(f: Functions, host: Host, repository: Path, d: Disk, path: Path)
    ensures var root := RootAt(host, repository, d, path);
            VerifiedAt(f, host, repository, d, path) <==> root.Directory? && root.inside && BundleAccepted(f, root.tree)
  {
    hide BundleAccepted, Inside;
  }

  /** A bundle that verifies with a document in it. */
  predicate Documented(f: Functions, t: Tree) {
    BundleAccepted(f, t) && !NullEvidence(f, t)
  }

  lemma AcceptedHasEvidence(f: Functions, t: Tree)
    requires Documented(f, t)
    ensures ManifestIn(f, t).Some? && EvidenceIn(f, t).Some? && DigestOf(t).Some?
    ensures DocumentAccepted(f, t, ManifestPaths(ManifestIn(f, t).value), EvidenceIn(f, t).value)
    ensures Regular(t, EVIDENCE) && f.parseEvidence(t[EVIDENCE].content) == EvidenceIn(f, t)
  {
    OutcomeUnlessNull(f, t);
    hide DocumentAccepted, DigestIn, FilesOf, ManifestPaths;
  }

  /** The evidence as `present_bundle` reads it, without the strictness check. */
  function Reread(f: Functions, d: Disk, path: Path): Option<EvidenceDocument> {
    if path in d && d[path].Folder? && Regular(d[path].tree, EVIDENCE) then f.parseEvidence(d[path].tree[EVIDENCE].content) else None
  }

  function EntryCount(f: Functions, t: Tree): Option<nat> {
    if ManifestIn(f, t).Some? then Some(|ManifestIn(f, t).value|) else None
  }

  /** What is shown is the evidence as read again, under the outcome that verification recomputed. */
  ghost predicate ShownFrom(f: Functions, d: Disk, later: Disk, path: Path, id: string, shown: BundlePresentation) {
    && path in d && d[path].Folder? && Documented(f, d[path].tree) && EvidenceIn(f, d[path].tree).Some? && Reread(f, later, path).Some?
    && var e := Reread(f, later, path).value;
       && shown.outcome == e.outcome == VerificationOutcome(EvidenceIn(f, d[path].tree).value.executions)
       && (shown.outcome == PatchVerified ==> shown.sameInput)
       && (shown.sameInput <==> SameInput(e.executions))
       && shown.bundleId == id && shown.verificationId == e.verificationId && shown.createdAt == e.createdAt
       && Some(shown.manifestSha256) == DigestOf(d[path].tree)
       && Some(shown.entryCount) == EntryCount(f, d[path].tree)
       && |shown.scenarios| == 3
       && exists v, p, c :: Trio(e.executions, v, p, c)
                            && ShowsExecution(shown.scenarios[0], v) && ShowsExecution(shown.scenarios[1], p)
                            && ShowsExecution(shown.scenarios[2], c)
                            && shown.envelopeSha256 == v.package.envelopeSha256 && shown.requestSha256 == v.requestBodySha256
  }

  /**
    * `present_bundle`, with the directory as it is at verification and as it is when the evidence
    * is read again.
    */
  method PresentBundle(
    f: Functions, registry: BundleRegistry, host: Host, repository: Path, d: Disk, later: Disk, id: string)
    returns (r: Result<BundlePresentation, PresentationError>)
    ensures r == Err(NotRegistered) <==> id !in registry.bundles
    ensures d == later ==>
              (r.Ok? <==>
                 && id in registry.bundles && PublicId(id)
                 && VerifiedAt(f, host, repository, d, registry.bundles[id])
                 && !NullEvidence(f, d[registry.bundles[id]].tree))
    ensures d == later && r.Err? ==> r.error in {NotRegistered, LinkedRoot, NotVerified, PresentationRefused}
    ensures r.Ok? ==> ShownFrom(f, d, later, registry.bundles[id], id, r.value)
  {
    hide BundleAccepted, VerificationOutcome, EvidenceIn, DigestOf, ManifestIn, DocumentAccepted, ShownFrom, Present, OnePerRole, NullEvidence, Inside;
    var path := registry.Resolve(id);
    if path.None? {
      return Err(NotRegistered);
    }
    if path.value in d && d[path.value].Link? {
      return Err(LinkedRoot);
    }
    VerifiedRoot(f, host, repository, d, path.value);
    if VerifiedAt(f, host, repository, d, path.value) && Documented(f, d[path.value].tree) {
      AcceptedHasEvidence(f, d[path.value].tree);
    }
    var verification := VerifyBundle(f, RootAt(host, repository, d, path.value), false);
    if !verification.valid || verification.outcome.None? || verification.manifestSha256.None? {
      return Err(NotVerified);
    }
    AcceptedHasEvidence(f, d[path.value].tree);
    if path.value in later && later[path.value].Folder? && EVIDENCE in later[path.value].tree && !later[path.value].tree[EVIDENCE].File? {
      return Err(LinkedEvidence);
    }
    var reread := Reread(f, later, path.value);
    if reread.None? {
      return Err(EvidenceUnreadable);
    }
    var evidence := reread.value;
    if d == later {
      SnapshotAgrees(f, d[path.value].tree);
    }
    RolesByCount(evidence.executions);
    var v, p, c := ByRole(evidence.executions, Vulnerable), ByRole(evidence.executions, Patched), ByRole(evidence.executions, PositiveControl);
    if v.None? || p.None? || c.None? || |evidence.executions| != 3 {
      return Err(WrongRoles);
    }
    var sameInput := v.value.package.envelopeSha256 == p.value.package.envelopeSha256
                     && v.value.requestBodySha256 == p.value.requestBodySha256;
    if evidence.outcome == PatchVerified && !sameInput {
      return Err(InputsDiffer);
    }
    if verification.outcome.value != evidence.outcome {
      return Err(OutcomesDiffer);
    }
    if !PublicId(id) {
      return Err(PresentationRefused);
    }
    r := Ok(BundlePresentation(
              id, evidence.verificationId, evidence.outcome, evidence.createdAt, sameInput,
              v.value.package.envelopeSha256, v.value.requestBodySha256,
              verification.manifestSha256.value, verification.entryCount,
              [Present(v.value), Present(p.value), Present(c.value)]));
    ShowsRoles(f, d, later, path.value, id, r.value, v.value, p.value, c.value);
  }

  lemma ShowsRoles(f: Functions, d: Disk, later: Disk, path: Path, id: string, shown: BundlePresentation,
                   v: ExecutionEvidence, p: ExecutionEvidence, c: ExecutionEvidence)
    requires path in d && d[path].Folder? && Documented(f, d[path].tree) && EvidenceIn(f, d[path].tree).Some? && Reread(f, later, path).Some?
    requires var e := Reread(f, later, path).value;
             && |e.executions| == 3 && ByRole(e.executions, Vulnerable) == Some(v)
             && ByRole(e.executions, Patched) == Some(p) && ByRole(e.executions, PositiveControl) == Some(c)
             && shown.outcome == e.outcome == VerificationOutcome(EvidenceIn(f, d[path].tree).value.executions)
    requires shown.sameInput <==> v.package.envelopeSha256 == p.package.envelopeSha256 && v.requestBodySha256 == p.requestBodySha256
    requires shown.outcome == PatchVerified ==> shown.sameInput
    requires var e := Reread(f, later, path).value;
             shown.bundleId == id && shown.verificationId == e.verificationId && shown.createdAt == e.createdAt
    requires Some(shown.manifestSha256) == DigestOf(d[path].tree) && Some(shown.entryCount) == EntryCount(f, d[path].tree)
    requires shown.envelopeSha256 == v.package.envelopeSha256 && shown.requestSha256 == v.requestBodySha256
    requires shown.scenarios == [Present(v), Present(p), Present(c)]
    ensures ShownFrom(f, d, later, path, id, shown)
  {
    PresentShows(v);
    PresentShows(p);
    PresentShows(c);
    hide Documented, EvidenceIn, Reread, VerificationOutcome, DigestOf, EntryCount, Present, ByRole, ShowsExecution;
    assert Trio(Reread(f, later, path).value.executions, v, p, c);
  }

  lemma PresentShows(x: ExecutionEvidence)
    ensures ShowsExecution(Present(x), x)
  {
  }

  lemma RolesByCount(xs: seq<ExecutionEvidence>)
    ensures OnePerRole(xs) <==>
            |xs| == 3 && ByRole(xs, Vulnerable).Some? && ByRole(xs, Patched).Some? && ByRole(xs, PositiveControl).Some?
  {
    var v, p, c := ByRole(xs, Vulnerable), ByRole(xs, Patched), ByRole(xs, PositiveControl);
    if OnePerRole(xs) {
      OnePerRoleIsTrio(xs);
    }
    if |xs| == 3 && v.Some? && p.Some? && c.Some? {
      TrioEntries(xs, v.value, p.value, c.value);
    }
  }

  /** Every check that follows verification agrees with it, on the same files. */
  lemma SnapshotAgrees(f: Functions, t: Tree)
    requires Documented(f, t)
    ensures EvidenceIn(f, t).Some?
    ensures var e := EvidenceIn(f, t).value;
            && OnePerRole(e.executions) && SameInput(e.executions) && e.outcome == VerificationOutcome(e.executions)
            && forall x | x in e.executions :: x.securityVerdict == IndividualVerdict(x)
  {
    AcceptedHasEvidence(f, t);
    DocumentAgrees(f, t, ManifestPaths(ManifestIn(f, t).value), EvidenceIn(f, t).value);
  }

  lemma DocumentAgrees(f: Functions, t: Tree, paths: set<string>, e: EvidenceDocument)
    requires DocumentAccepted(f, t, paths, e)
    ensures OnePerRole(e.executions) && SameInput(e.executions) && e.outcome == VerificationOutcome(e.executions)
    ensures forall x | x in e.executions :: x.securityVerdict == IndividualVerdict(x)
  {
    hide OnePerRole, SameInput, VerificationOutcome, RecordAccepted, ExecutionAccepted, TrustHolds, TrustMaterialAccepted, IndividualVerdict;
    forall x | x in e.executions ensures x.securityVerdict == IndividualVerdict(x) {
      var i :| 0 <= i < |e.executions| && e.executions[i] == x;
      assert Consistent(e.executions[i]);
    }
  }
}
