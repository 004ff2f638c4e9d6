/** The premises of the theorems about runs can be met, and so can their conclusions. */
module Existence {
  import opened Prelude
  import opened Evidence
  import opened Verdicts
  import opened Library
  import opened Gateway
  import opened Scenario
  import opened Orchestrator
  import opened Paths
  import opened Bundle
  import opened Verification
  import opened Sealing
  import opened Layout
  import opened Staging
  import opened SelfVerification
  import opened Package
  import opened Presentation
  import opened Signers
  import opened Artifacts
  import opened Runs
  import opened Output
  import Publication
  import opened Consistency

  /** Every set of paths has a listing. */
  lemma {:induction false} ListingExists(s: set<Path>) returns (r: seq<Path>)
    ensures IsListing(r, s)
    decreases |s|
  {
    hide PathLess;
    if s == {} {
      r := [];
    } else {
      var p :| p in s;
      var rest := ListingExists(s - {p});
      r := InsertedListing(rest, s - {p}, p);
      assert s - {p} + {p} == s;
    }
  }

  lemma {:induction false} InsertedListing(r: seq<Path>, s: set<Path>, p: Path) returns (t: seq<Path>)
    requires IsListing(r, s) && p !in s
    ensures IsListing(t, s + {p})
    decreases |r|
  {
    hide PathLess;
    if r == [] {
      t := [p];
    } else {
      PathLessTotal(p, r[0]);
      if PathLess(p, r[0]) {
        t := [p] + r;
        forall j | 0 <= j < |r| ensures PathLess(p, r[j]) {
          if j > 0 {
            PathLessTransitive(p, r[0], r[j]);
          }
        }
        assert forall q | q in s :: q in t;
      } else {
        ListingTail(r, s);
        var rest := InsertedListing(r[1..], s - {r[0]}, p);
        t := [r[0]] + rest;
        ListingElements(rest, s - {r[0]} + {p});
        forall j | 0 <= j < |rest| ensures PathLess(r[0], rest[j]) {
          if rest[j] != p {
            ListingHead(r, s, rest[j]);
          }
        }
        assert s - {r[0]} + {p} + {r[0]} == s + {p};
      }
    }
  }

  const NOW := "2025-01-01T00:00:00.000Z"
  const RUN_ID := "FR-20250101T000000000Z-00000000"
  const EXECUTION_ID := "EX-PATCHED-00000000"

  lemma StampFits()
    ensures Follows(UTC_SHAPE, NOW)
  {
  }

  lemma RunIdFits()
    ensures Follows(VERIFICATION_ID_SHAPE, RUN_ID)
  {
  }

  lemma ExecutionIdFits()
    ensures IsExecutionId(EXECUTION_ID)
  {
    assert "EX-" + RoleText(Patched) + "-%%%%%%%%" == "EX-PATCHED-%%%%%%%%";
    assert Follows("EX-" + RoleText(Patched) + "-%%%%%%%%", EXECUTION_ID);
  }

  lemma CalmPlan() returns (plan: Plan)
    ensures (forall n | 0 <= n < 3 :: Quiet(plan[n].0)) && StampsAllowed(plan)
  {
    StampFits();
    ExecutionIdFits();
    hide Follows, IsExecutionId;
    var stamps := Stamps(EXECUTION_ID, NOW, NOW);
    var calm := (Script([], true, [], Acknowledged, [], [], NoLoss), stamps);
    plan := [calm, calm, calm];
  }

  /** There are lawful functions and a genuine demonstration for them, with a lenient schema. */
  lemma GenuineInputsExist() returns (f: Functions, ins: Inputs, su: Surroundings)
    ensures Lawful(f) && Demonstration(f, ins) && GenuineInputs(f, ins, su) && SurroundingsAllowed(su) && su.verificationId == RUN_ID
    ensures forall b :: f.meetsSchema(b)
    ensures f.sha256(ins.untrusted.package.signerPublicKey) != f.sha256(ins.trustedKey)
  {
    f := LawsAreConsistent();
    StampFits();
    RunIdFits();
    su := Surroundings(RUN_ID, NOW, TestCase("a", "b", "c", "d"),
                       f.publicKey([0]), (cs, o) => [], e => []);
    assert SurroundingsAllowed(su) by { hide Follows; }
    LawsSplit(f);
    hide *;
    GeneratedInputsAreGenuine(f, [0], [1], [0], [0], su);
    ins := DemoInputs(f, [0], [1], [0], [0]).value;
    DemoKeys(f, [0], [1], [0], [0]);
  }

  lemma LawsSplit(f: Functions)
    requires Lawful(f)
    ensures BundleLaws(f) && HashLaw(f) && SignatureLaw(f) && EnvelopeLaw(f) && ManifestLaw(f) && f.maxDepth >= 2
  {
    hide HashLaw, SignatureLaw, EnvelopeLaw, ManifestLaw, EvidenceLaw;
  }

  lemma DemoKeys(f: Functions, trusted: Bytes, untrusted: Bytes, trustedPayload: Bytes, untrustedPayload: Bytes)
    requires HashLaw(f) && SignatureLaw(f) && EnvelopeLaw(f) && trustedPayload != [] && untrustedPayload != []
    requires DemoInputs(f, trusted, untrusted, trustedPayload, untrustedPayload).Ok?
    ensures var ins := DemoInputs(f, trusted, untrusted, trustedPayload, untrustedPayload).value;
            ins.trustedKey == f.publicKey(trusted) && ins.untrusted.package.signerPublicKey == f.publicKey(untrusted)
  {
    hide PackageFileFor, IntactPackage;
    FileIsGenuine(f, untrusted, UNTRUSTED_ID, UNTRUSTED_VERSION, untrustedPayload);
  }

  /** Where the schema is lenient, every calm run of a genuine demonstration can be staged and published. */
  lemma CalmCaptures(f: Functions, ins: Inputs, su: Surroundings, plan: Plan) returns (cs: seq<ScenarioCapture>)
    requires (forall n | 0 <= n < 3 :: Quiet(plan[n].0)) && StampsAllowed(plan) && SurroundingsAllowed(su)
    requires HashLaw(f) && EnvelopeLaw(f) && f.maxDepth >= 2 && Demonstration(f, ins) && GenuineInputs(f, ins, su)
    requires forall b :: f.meetsSchema(b)
    ensures Captured(f, ins, INITIAL_STATE, plan, cs)
    ensures CapturesOf(f, ins, cs) && |cs| == 3 && Stageable(f, ins, su, cs) && AllFaithful(f, cs)
    ensures VerificationOutcome(ExecutionsFrom(f, cs)) == PatchVerified
  {
    hide *;
    cs := QuietRunIsPublishable(f, ins, su, INITIAL_STATE, plan);
  }

  lemma ManifestExists(f: Functions, t: Tree) returns (m: BundleManifest)
    ensures IsManifestOf(f, t, m)
  {
    hide IsListing, EntriesFor, ListedSet;
    var r := ListingExists(ListedSet(t));
    m := EntriesFor(f, t, r);
  }

  lemma FaithfulBundle(f: Functions, ins: Inputs, su: Surroundings, cs: seq<ScenarioCapture>) returns (m: BundleManifest)
    requires BundleLaws(f) && HashLaw(f) && GenuineInputs(f, ins, su)
    requires CapturesOf(f, ins, cs) && |cs| == 3 && Stageable(f, ins, su, cs) && AllFaithful(f, cs)
    ensures IsManifestOf(f, TreeOf(Content(f, ins, su, cs)), m)
    ensures var t := Sealed(f, TreeOf(Content(f, ins, su, cs)), m);
            BundleAccepted(f, t) && EvidenceIn(f, t) == Some(DocumentOf(f, ins, su, cs)) && !NullEvidence(f, t)
  {
    hide *;
    m := ManifestExists(f, TreeOf(Content(f, ins, su, cs)));
    StagedBundleVerifiesExactly(f, ins, su, cs, m);
  }

  /** The first run in a repository on a host without links. */
  function FirstRun(ins: Inputs, su: Surroundings, plan: Plan): RunRequest {
    RunRequest(Host((p: Path) => p, {}, {}), ["repo"], ins, su, plan, None, "old", false, Publication.Faults(false, false, false, false, None))
  }

  lemma FirstRunIsPlain(ins: Inputs, su: Surroundings, plan: Plan)
    requires su.verificationId == RUN_ID
    ensures var q := FirstRun(ins, su, plan);
            PlainRequest(q, map[]) && NamesApart(NamesFor(q), map[]) && forall p :: q.host.resolve(p) == p
  {
    var q := FirstRun(ins, su, plan);
    var n := NamesFor(q);
    assert Candidate(q.repository, su.verificationId, q.output) == ["repo", "evidence", "runs", RUN_ID];
    assert n.destination == ["repo", "evidence", "runs", RUN_ID];
    assert n.staged == ["repo", ".runtime", "bundles", RUN_ID];
    assert n.staged[1] != n.destination[1] by { assert ".runtime"[0] != "evidence"[0]; }
    assert n.backup[1] == n.destination[1] && n.backup[3] == "old";
    assert |RUN_ID| > |"old"|;
  }

  /** The bundle of a calm run that verifies as PATCH_VERIFIED. */
  lemma VerifiedBundleExists()
      returns (f: Functions, ins: Inputs, su: Surroundings, plan: Plan, cs: seq<ScenarioCapture>, m: BundleManifest)
    ensures forall n | 0 <= n < 3 :: Quiet(plan[n].0)
    ensures Lawful(f) && HashLaw(f) && Demonstration(f, ins) && GenuineInputs(f, ins, su)
    ensures Captured(f, ins, INITIAL_STATE, plan, cs) && |cs| == 3 && Stageable(f, ins, su, cs)
    ensures IsManifestOf(f, TreeOf(Content(f, ins, su, cs)), m)
    ensures var t := Sealed(f, TreeOf(Content(f, ins, su, cs)), m);
            && BundleAccepted(f, t) && !NullEvidence(f, t) && EvidenceIn(f, t) == Some(DocumentOf(f, ins, su, cs))
            && VerificationOutcome(ExecutionsFrom(f, cs)) == PatchVerified
  {
    hide *;
    f, ins, su := GenuineInputsExist();
    LawsSplit(f);
    plan := CalmPlan();
    cs := CalmCaptures(f, ins, su, plan);
    m := FaithfulBundle(f, ins, su, cs);
  }

  /** A calm run of a genuine demonstration that succeeds, with outcome PATCH_VERIFIED. */
  lemma VerifiedRunExists() returns (f: Functions, q: RunRequest, cs: seq<ScenarioCapture>)
    ensures forall n | 0 <= n < 3 :: Quiet(q.plan[n].0)
    ensures Lawful(f) && Demonstration(f, q.inputs) && GenuineInputs(f, q.inputs, q.surroundings)
    ensures ScenariosOf(f, q, INITIAL_STATE) == Ok(cs) && VerificationOutcome(ExecutionsFrom(f, cs)) == PatchVerified
    ensures NamesApart(NamesFor(q), map[]) && RunSucceeds(f, q, map[], ScenariosOf(f, q, INITIAL_STATE))
  {
    hide *;
    var ins, su;
    f, ins, su := GenuineInputsExist();
    LawsSplit(f);
    var plan := CalmPlan();
    q := FirstRun(ins, su, plan);
    FirstRunAsks(ins, su, plan);
    FirstRunIsPlain(ins, su, plan);
    PlainConditions(f, q, map[]);
    cs := CalmCaptures(f, ins, su, plan);
    ResultsAreCaptures(f, ins, INITIAL_STATE, plan, cs);
    ScenariosAreThese(f, q, INITIAL_STATE);
    QuietRunSucceeds(f, q, map[], INITIAL_STATE);
    FirstRunIsCalm(f, q, cs);
  }

  lemma FirstRunAsks(ins: Inputs, su: Surroundings, plan: Plan)
    ensures var q := FirstRun(ins, su, plan); q.inputs == ins && q.surroundings == su && q.plan == plan
  {
  }

  lemma FirstRunIsCalm(f: Functions, q: RunRequest, cs: seq<ScenarioCapture>)
    requires |cs| == 3 && Checked(f, q, map[]) && StampsAllowed(q.plan) && SurroundingsAllowed(q.surroundings)
    requires Located(q, NamesFor(q).destination) && Located(q, NamesFor(q).staged) && forall b :: f.meetsSchema(b)
    ensures CalmConditions(f, q, map[], cs)
  {
    hide Checked, StampsAllowed, SurroundingsAllowed, Located, NamesFor, DocumentOf;
  }

  /* ---- Evidence that is never looked at ---- */

  const TWO_PLACES: set<Place> := {EvidenceFile, ReportFile}

  function TwoFiles(nothing: Bytes, report: Bytes): Place -> Bytes {
    (x: Place) => if x == EvidenceFile then nothing else report
  }

  /** Any sealed directory of a `null` evidence file and some report verifies, and has no outcome. */
  lemma NullEvidenceVerifies(f: Functions, nothing: Bytes, report: Bytes, m: BundleManifest)
    requires HashLaw(f) && ManifestLaw(f) && f.isStrictJson(nothing) && f.isNull(nothing)
    requires IsManifestOf(f, PartOf(TwoFiles(nothing, report), TWO_PLACES), m)
    ensures var t := Sealed(f, PartOf(TwoFiles(nothing, report), TWO_PLACES), m);
            BundleAccepted(f, t) && NullEvidence(f, t) && EvidenceIn(f, t) == None
  {
    var content := TwoFiles(nothing, report);
    var t := PartOf(content, TWO_PLACES);
    var s := Sealed(f, t, m);
    assert content(EvidenceFile) == nothing;
    hide *;
    TwoPlaces();
    PartIsSealable(f, content, TWO_PLACES);
    SealThenVerify(f, t, m);
    PartShownAt(f, content, TWO_PLACES, m, EvidenceFile);
    PartShownAt(f, content, TWO_PLACES, m, ReportFile);
    NullIsAccepted(f, s, m, content);
  }

  lemma TwoPlaces()
    ensures TWO_PLACES != {} && EvidenceFile in TWO_PLACES && ReportFile in TWO_PLACES
  {
  }

  lemma PartShownAt(f: Functions, content: Place -> Bytes, places: set<Place>, m: BundleManifest, x: Place)
    requires HashLaw(f) && x in places && LegalTree(PartOf(content, places)) && SafeNames(PartOf(content, places))
    requires IsManifestOf(f, PartOf(content, places), m)
    ensures ShowsAt(Sealed(f, PartOf(content, places), m), ManifestPaths(m), content, x)
  {
    var t := PartOf(content, places);
    SealedKeepsListed(f, t, m);
    PartAt(content, places, x);
    NotOwn(x);
    PlaceIsSafe(x);
    hide At, Name, Sealed, PartOf, ManifestPaths, IsManifestOf, IsSha256, LegalTree, SafeNames, Join, SafeRelativePath;
    assert At(x) in ListedSet(t);
    ManifestNamesListed(f, t, m, At(x));
  }

  lemma NullIsAccepted(f: Functions, t: Tree, m: BundleManifest, content: Place -> Bytes)
    requires ManifestAccepted(f, t) && ManifestIn(f, t) == Some(m)
    requires f.isStrictJson(content(EvidenceFile)) && f.isNull(content(EvidenceFile))
    requires ShowsAt(t, ManifestPaths(m), content, EvidenceFile) && ShowsAt(t, ManifestPaths(m), content, ReportFile)
    ensures BundleAccepted(f, t) && NullEvidence(f, t) && EvidenceIn(f, t) == None
  {
    hide ManifestAccepted, ManifestIn, ManifestPaths, EvidenceAccepted, Name, At;
    NullShown(f, t, ManifestPaths(m), content);
    hide NullEvidence, EvidenceIn, ShowsAt, IsFile;
  }

  lemma NullShown(f: Functions, t: Tree, paths: set<string>, content: Place -> Bytes)
    requires f.isStrictJson(content(EvidenceFile)) && f.isNull(content(EvidenceFile))
    requires ShowsAt(t, paths, content, EvidenceFile) && ShowsAt(t, paths, content, ReportFile)
    ensures NullEvidence(f, t) && EvidenceIn(f, t) == None && "report.html" in paths && IsFile(t, REPORT)
  {
  }

  /** So there is a bundle that verifies without its evidence being looked at. */
  lemma UncheckedBundleExists() returns (f: Functions, t: Tree)
    ensures Lawful(f) && BundleAccepted(f, t) && NullEvidence(f, t) && EvidenceIn(f, t) == None
  {
    f := LawsAreConsistent();
    LawsSplit(f);
    assert f.isStrictJson(NULL_TEXT) by { hide HashLaw, SignatureLaw, EnvelopeLaw, ManifestLaw, RawLaw; }
    hide *;
    var m := ManifestExists(f, PartOf(TwoFiles(NULL_TEXT, []), TWO_PLACES));
    NullEvidenceVerifies(f, NULL_TEXT, [], m);
    t := Sealed(f, PartOf(TwoFiles(NULL_TEXT, []), TWO_PLACES), m);
  }

  /* ---- A positive control of another key ---- */

  /** The captures with a positive control that sent, and applied, the untrusted package. */
  function WithForeignControl(f: Functions, ins: Inputs, cs: seq<ScenarioCapture>): seq<ScenarioCapture>
    requires |cs| == 3
  {
    var u := ins.untrusted;
    var d := cs[2].definition.(packageBytes := u.raw, package := u.package, bundlePath := Name(UntrustedPackage));
    cs[2 := cs[2].(definition := d, requestBodySha256 := f.sha256(u.raw),
                   after := DeviceState(TRUSTED_VERSION, 1, Some(u.package.envelope.manifest.payloadSha256)))]
  }

  lemma ForeignControlIsSent(f: Functions, ins: Inputs, cs: seq<ScenarioCapture>)
    requires CapturesOf(f, ins, cs) && |cs| == 3
    ensures CapturesOf(f, ins, WithForeignControl(f, ins, cs))
  {
    hide Name;
    var fs := WithForeignControl(f, ins, cs);
    assert Sent(ins, fs[2].definition, UntrustedPackage);
    forall n | 0 <= n < 3 ensures CaptureOfRole(f, ins, fs[n], ROLE_ORDER[n]) {
      assert CaptureOfRole(f, ins, cs[n], ROLE_ORDER[n]);
    }
  }

  lemma ForeignControlIsFaithful(f: Functions, ins: Inputs, cs: seq<ScenarioCapture>)
    requires AllFaithful(f, cs) && |cs| == 3
    ensures AllFaithful(f, WithForeignControl(f, ins, cs))
  {
    hide NestedWithin, Name;
    var fs := WithForeignControl(f, ins, cs);
    assert Faithful(f, cs[0]) && Faithful(f, cs[1]) && Faithful(f, cs[2]);
  }

  lemma ForeignControlFields(f: Functions, ins: Inputs, su: Surroundings, cs: seq<ScenarioCapture>)
    requires |cs| == 3 && EnvelopeLaw(f) && GenuineInputs(f, ins, su)
    requires forall n | 0 <= n < 3 :: FieldsAllowed(cs[n])
    ensures var fs := WithForeignControl(f, ins, cs); |fs| == 3 && forall n | 0 <= n < 3 :: FieldsAllowed(fs[n])
  {
    SelfVerification.EnvelopeFields(f, ins.untrusted);
    hide ValidStamps, ValidResponse, IsSha256, Name, Genuine;
  }

  lemma ForeignControlOutcome(f: Functions, ins: Inputs, cs: seq<ScenarioCapture>)
    requires CapturesOf(f, ins, cs) && |cs| == 3 && VerificationOutcome(ExecutionsFrom(f, cs)) == PatchVerified
    requires CapturesOf(f, ins, WithForeignControl(f, ins, cs))
    ensures VerificationOutcome(ExecutionsFrom(f, WithForeignControl(f, ins, cs))) == PatchVerified
  {
    var fs := WithForeignControl(f, ins, cs);
    ListOfThree(f, cs);
    ListOfThree(f, fs);
    RolesOfThree(f, ins, cs);
    RolesOfThree(f, ins, fs);
    ExecutionPackage(f, cs[2]);
    ExecutionPackage(f, fs[2]);
    var v, p, c, c' := ExecutionFrom(f, cs[0]), ExecutionFrom(f, cs[1]), ExecutionFrom(f, cs[2]), ExecutionFrom(f, fs[2]);
    assert fs[0] == cs[0] && fs[1] == cs[1];
    hide VerificationOutcome, CaptureOfRole, ExecutionsFrom, ExecutionFrom, IndividualVerdict, Name, RecordFor;
    OutcomeOfTrio([v, p, c], v, p, c);
    OutcomeOfTrio([v, p, c'], v, p, c');
  }

  /**
    * A bundle can verify as PATCH_VERIFIED although its positive control was signed by a key that is
    * not the bundle's, and whose fingerprint shows it.
    */
  lemma ForeignControlVerifies() returns (f: Functions, t: Tree)
    ensures Lawful(f) && Documented(f, t)
    ensures EvidenceIn(f, t).Some? && VerificationOutcome(EvidenceIn(f, t).value.executions) == PatchVerified
    ensures ControlOf(f, t).Some? && PackageOf(f, t, ControlOf(f, t).value).Some? && BundleKey(f, t).Some?
    ensures PackageOf(f, t, ControlOf(f, t).value).value.signerPublicKey != BundleKey(f, t).value
    ensures ControlOf(f, t).value.package.signerFingerprint != f.sha256(BundleKey(f, t).value)
  {
    var ins, su, cs;
    f, ins, su, cs := ForeignControlIsPublishable();
    LawsSplit(f);
    ItIsPublishable(f, ins, su, WithForeignControl(f, ins, cs));
    hide *;
    var m := FaithfulBundle(f, ins, su, WithForeignControl(f, ins, cs));
    t := Sealed(f, TreeOf(Content(f, ins, su, WithForeignControl(f, ins, cs))), m);
    ItIsDocumented(f, t);
    ControlSignerExactly(f, t);
    ForeignControlShown(f, ins, su, cs, m);
  }

  /** Captures that make a verified bundle with outcome PATCH_VERIFIED. */
  predicate Publishable(f: Functions, ins: Inputs, su: Surroundings, cs: seq<ScenarioCapture>) {
    && |cs| == 3 && CapturesOf(f, ins, cs) && Stageable(f, ins, su, cs) && AllFaithful(f, cs)
    && VerificationOutcome(ExecutionsFrom(f, cs)) == PatchVerified
  }

  lemma ForeignControlIsPublishable() returns (f: Functions, ins: Inputs, su: Surroundings, cs: seq<ScenarioCapture>)
    ensures Lawful(f) && GenuineInputs(f, ins, su) && f.sha256(ins.untrusted.package.signerPublicKey) != f.sha256(ins.trustedKey)
    ensures |cs| == 3 && Publishable(f, ins, su, WithForeignControl(f, ins, cs))
  {
    f, ins, su := GenuineInputsExist();
    LawsSplit(f);
    hide *;
    var plan := CalmPlan();
    cs := CalmCaptures(f, ins, su, plan);
    StageableExactly(f, ins, su, cs);
    ForeignControlKeepsPublishable(f, ins, su, cs);
  }

  lemma ForeignControlKeepsPublishable(f: Functions, ins: Inputs, su: Surroundings, cs: seq<ScenarioCapture>)
    requires HashLaw(f) && EnvelopeLaw(f) && GenuineInputs(f, ins, su) && SurroundingsAllowed(su) && forall b :: f.meetsSchema(b)
    requires |cs| == 3 && CapturesOf(f, ins, cs) && AllFaithful(f, cs) && forall n | 0 <= n < 3 :: FieldsAllowed(cs[n])
    requires VerificationOutcome(ExecutionsFrom(f, cs)) == PatchVerified
    ensures Publishable(f, ins, su, WithForeignControl(f, ins, cs))
  {
    hide CapturesOf, AllFaithful, FieldsAllowed, VerificationOutcome, ExecutionsFrom, GenuineInputs, SurroundingsAllowed, WithForeignControl,
         Stageable, HashLaw, EnvelopeLaw, DocumentOf;
    ForeignControlIsSent(f, ins, cs);
    ForeignControlIsFaithful(f, ins, cs);
    ForeignControlFields(f, ins, su, cs);
    ForeignControlOutcome(f, ins, cs);
    StageableExactly(f, ins, su, WithForeignControl(f, ins, cs));
  }

  lemma ItIsPublishable(f: Functions, ins: Inputs, su: Surroundings, cs: seq<ScenarioCapture>)
    requires Publishable(f, ins, su, cs)
    ensures |cs| == 3 && CapturesOf(f, ins, cs) && Stageable(f, ins, su, cs) && AllFaithful(f, cs)
    ensures VerificationOutcome(ExecutionsFrom(f, cs)) == PatchVerified
  {
    hide CapturesOf, Stageable, AllFaithful, VerificationOutcome, ExecutionsFrom;
  }

  lemma ItIsDocumented(f: Functions, t: Tree)
    requires BundleAccepted(f, t) && !NullEvidence(f, t)
    ensures Documented(f, t)
  {
  }

  /** What the bundle's files say about the foreign control. */
  lemma ForeignControlShown(f: Functions, ins: Inputs, su: Surroundings, cs: seq<ScenarioCapture>, m: BundleManifest)
    requires HashLaw(f) && |cs| == 3 && CapturesOf(f, ins, WithForeignControl(f, ins, cs)) && GenuineInputs(f, ins, su)
    requires f.sha256(ins.untrusted.package.signerPublicKey) != f.sha256(ins.trustedKey)
    requires IsManifestOf(f, TreeOf(Content(f, ins, su, WithForeignControl(f, ins, cs))), m)
    requires var t := Sealed(f, TreeOf(Content(f, ins, su, WithForeignControl(f, ins, cs))), m);
             EvidenceIn(f, t) == Some(DocumentOf(f, ins, su, WithForeignControl(f, ins, cs)))
    ensures var t := Sealed(f, TreeOf(Content(f, ins, su, WithForeignControl(f, ins, cs))), m);
            && VerificationOutcome(EvidenceIn(f, t).value.executions) == VerificationOutcome(ExecutionsFrom(f, WithForeignControl(f, ins, cs)))
            && (ControlOf(f, t).Some? && PackageOf(f, t, ControlOf(f, t).value).Some? && BundleKey(f, t).Some? ==>
                  && PackageOf(f, t, ControlOf(f, t).value).value.signerPublicKey != BundleKey(f, t).value
                  && ControlOf(f, t).value.package.signerFingerprint != f.sha256(BundleKey(f, t).value))
  {
    var foreign := WithForeignControl(f, ins, cs);
    var t := Sealed(f, TreeOf(Content(f, ins, su, foreign)), m);
    var paths := ManifestPaths(m);
    var x := ExecutionFrom(f, foreign[2]);
    ForeignFields(f, ins, cs);
    DocumentExecutions(f, ins, su, foreign);
    hide *;
    SealedShows(f, Content(f, ins, su, foreign), m);
    PlaceShown(f, t, paths, ins, su, foreign, UntrustedPackage);
    ContentAt(f, ins, su, foreign, TrustedKey);
    PlaceReadable(f, t, paths, Content(f, ins, su, foreign), TrustedKey);
    ListOfThree(f, foreign);
    RolesOfThree(f, ins, foreign);
    ControlOfThree(f, t, ExecutionFrom(f, foreign[0]), ExecutionFrom(f, foreign[1]), x);
    KeysDiffer(f, t, ins, su, x);
  }

  lemma DocumentExecutions(f: Functions, ins: Inputs, su: Surroundings, cs: seq<ScenarioCapture>)
    requires |cs| == 3
    ensures DocumentOf(f, ins, su, cs).executions == ExecutionsFrom(f, cs)
    ensures Artifact(f, ins, su, cs, TrustedKey) == su.pem
  {
  }

  lemma ForeignFields(f: Functions, ins: Inputs, cs: seq<ScenarioCapture>)
    requires |cs| == 3
    ensures var x := ExecutionFrom(f, WithForeignControl(f, ins, cs)[2]);
            && x.package.filename == Name(UntrustedPackage)
            && x.package.signerFingerprint == ins.untrusted.package.envelope.signerFingerprint
  {
    hide RecordFor, IndividualVerdict, Name;
  }

  lemma ControlOfThree(f: Functions, t: Tree, v: ExecutionEvidence, p: ExecutionEvidence, c: ExecutionEvidence)
    requires EvidenceIn(f, t).Some? && EvidenceIn(f, t).value.executions == [v, p, c] && Trio([v, p, c], v, p, c)
    ensures ControlOf(f, t) == Some(c)
  {
    hide EvidenceIn;
    TrioEntries([v, p, c], v, p, c);
  }

  lemma KeysDiffer(f: Functions, t: Tree, ins: Inputs, su: Surroundings, x: ExecutionEvidence)
    requires GenuineInputs(f, ins, su) && f.sha256(ins.untrusted.package.signerPublicKey) != f.sha256(ins.trustedKey)
    requires FileAt(t, At(UntrustedPackage)) == Some(ins.untrusted.raw) && FileAt(t, At(TrustedKey)) == Some(su.pem)
    requires x.package.filename == Name(UntrustedPackage)
    requires x.package.signerFingerprint == ins.untrusted.package.envelope.signerFingerprint
    ensures PackageOf(f, t, x) == Some(ins.untrusted.package) && BundleKey(f, t) == Some(ins.trustedKey)
    ensures ins.untrusted.package.signerPublicKey != ins.trustedKey && x.package.signerFingerprint != f.sha256(ins.trustedKey)
  {
    PlaceIsSafe(UntrustedPackage);
    assert At(TrustedKey) == TRUSTED_KEY;
    hide SafeRelativePath, Lookup, LookupThrough, FileAt, ParseAndDecode, IntegrityFailure, SignatureVerifies, Join, Legal, Name, At;
  }
}
