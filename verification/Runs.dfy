/** A whole verification run: scenarios, staging, self-verification, publication, re-verification. */
module Runs {
  import opened Prelude
  import opened Evidence
  import opened Library
  import opened Verdicts
  import opened Device
  import opened Scenario
  import opened Orchestrator
  import opened Bundle
  import opened Verification
  import opened Layout
  import opened Staging
  import opened SelfVerification
  import opened Paths
  import opened Output
  import opened Publication

  datatype RunFailure =
    | OutputRefused(why: OutputError)
    | DestinationExists
    | DestinationOutside
    | DestinationLinked
    | DemoInvalid
    | ScenarioFailed(error: RunError)
    | StagingCollision
    | StagingFailed(reason: StageError)
    | StagedInvalid(failures: seq<Failure>)
    | PublicationFailed(cause: PublishError)
    | PublishedInvalid
    | DigestChanged

  datatype RunResult = RunResult(outcome: Outcome, path: Path, executions: seq<ExecutionEvidence>, digest: string, entryCount: nat)

  /** Capturing uses the run's own definitions, and hashes the bytes it sends. */
  lemma CapturedIsWellFormed(f: Functions, ins: Inputs, s: DeviceState, plan: Plan, cs: seq<ScenarioCapture>)
    requires Captured(f, ins, s, plan, cs)
    ensures CapturesOf(f, ins, cs)
  {
    hide Run, Schedule, Observe, ValidResponse, Definition, InitialConfirmed, ROLE_ORDER, CapturesOf;
    assert |ROLE_ORDER| == 3 by { RolesInOrder(); }
    forall n | 0 <= n < 3
      ensures cs[n].definition == Definition(ins, ROLE_ORDER[n]) && cs[n].requestBodySha256 == f.sha256(cs[n].definition.packageBytes)
    {
      assert CaptureAt(f, ins, s, plan, n) == Ok(cs[n]);
    }
    DefinitionsAreSent(f, ins, cs);
  }

  /** What a run is asked for, and what it will meet. */
  datatype RunRequest = RunRequest(
    host: Host,
    repository: Path,
    inputs: Inputs,
    surroundings: Surroundings,
    plan: Plan,
    output: Option<string>,
    backup: string,
    replace: bool,
    faults: Faults)

  /** Where a run stages its bundle, where it publishes it, and the name it would move an old one to. */
  function NamesFor(q: RunRequest): Names {
    var destination := q.host.resolve(Candidate(q.repository, q.surroundings.verificationId, q.output));
    Names(q.repository + [".runtime", "bundles", q.surroundings.verificationId], destination,
          if destination == [] then [q.backup] else destination[..|destination| - 1] + [q.backup])
  }

  /**
    * The three names, written out: the destination is where the requested directory resolves to, or
    * the run's own one below `evidence/runs` if none was requested; the staging directory is in
    * `.runtime/bundles`; and the backup's name is a sibling of the destination.
    */
  lemma NamesExactly(q: RunRequest)
    ensures var n := NamesFor(q);
            && n.destination ==
               q.host.resolve(q.repository + match q.output {
                 case None => ["evidence", "runs", q.surroundings.verificationId]
                 case Some(text) => Parts(text)
               })
            && n.staged == q.repository + [".runtime", "bundles", q.surroundings.verificationId]
            && (n.destination != [] ==>
                  && |n.backup| == |n.destination| && n.backup[|n.backup| - 1] == q.backup
                  && n.backup[..|n.backup| - 1] == n.destination[..|n.destination| - 1])
  {
  }

  /** `evidence/demo-bundle`, which is verified before it is replaced. */
  function DemoPath(host: Host, repository: Path): Path {
    host.resolve(repository + [EVIDENCE_NAME, "demo-bundle"])
  }

  /** The old directory is complete where it was or under the backup name, or a verified bundle took its place. */
  predicate Recoverable(f: Functions, pre: Disk, n: Names, now: Disk) {
    && (n.destination in now ==>
          || (n.destination in pre && now[n.destination] == pre[n.destination])
          || (now[n.destination].Folder? && BundleAccepted(f, now[n.destination].tree)))
    && (n.destination in pre && n.destination !in now ==> n.backup in now && now[n.backup] == pre[n.destination])
  }

  lemma IntactIsRecoverable(f: Functions, pre: Disk, n: Names, t: Tree, now: Disk)
    requires Ready(pre[n.staged := Folder(t)], n) && Intact(pre[n.staged := Folder(t)], n, now) && BundleAccepted(f, t)
    ensures Recoverable(f, pre, n, now)
  {
    hide BundleAccepted;
  }

  /** A new directory with a finished staging tree in it. */
  method Install(fs: FileSystem, name: Path, t: Tree)
    requires name !in fs.disk
    modifies fs
    ensures fs.disk == old(fs.disk)[name := Folder(t)] && fs.history == old(fs.history) + [fs.disk]
  {
    fs.disk := fs.disk[name := Folder(t)];
    fs.history := fs.history + [fs.disk];
  }

  /** The existing demo bundle, if that is what would be replaced, does not verify. */
  predicate DemoBroken(f: Functions, host: Host, repository: Path, d: Disk, destination: Path) {
    && destination == DemoPath(host, repository) && Exists(d, destination)
    && !(d[destination].Folder? && Inside(host, repository, destination) && BundleAccepted(f, d[destination].tree))
  }

  /* ---- When a run succeeds, and why it stops ---- */

  predicate OutputAccepted(q: RunRequest) {
    AcceptedOutput(q.host, q.repository, q.surroundings.verificationId, q.output)
  }

  /** The path lies in the repository, so that it can be written relative to it. */
  predicate Located(q: RunRequest, p: Path) {
    Inside(q.host, q.repository, p)
  }

  predicate MayReplace(q: RunRequest, d: Disk) {
    Exists(d, NamesFor(q).destination) ==> q.replace
  }

  predicate LinkedDestination(q: RunRequest, d: Disk) {
    NamesFor(q).destination in d && d[NamesFor(q).destination].Link?
  }

  /** The output is accepted, and what stands there may be replaced. */
  predicate Checked(f: Functions, q: RunRequest, d: Disk) {
    && OutputAccepted(q) && MayReplace(q, d) && !LinkedDestination(q, d)
    && !DemoBroken(f, q.host, q.repository, d, NamesFor(q).destination)
  }

  /** Besides, every scenario is captured and the staging name is free. */
  predicate Executed(f: Functions, q: RunRequest, d: Disk, x: Scenarios) {
    Checked(f, q, d) && x.Ok? && NamesFor(q).staged !in d
  }

  /** Besides, the records are taken and the destination lies in the repository. */
  predicate FullyStaged(f: Functions, q: RunRequest, d: Disk, x: Scenarios) {
    && Executed(f, q, d, x)
    && Stageable(f, q.inputs, q.surroundings, x.value) && Located(q, NamesFor(q).destination)
  }

  /** Besides, the staged bundle verifies where it stands. */
  predicate SelfVerified(f: Functions, q: RunRequest, d: Disk, x: Scenarios) {
    FullyStaged(f, q, d, x) && AllFaithful(f, x.value) && Located(q, NamesFor(q).staged)
  }

  /** Besides, the host lets it be published. */
  predicate RunSucceeds(f: Functions, q: RunRequest, d: Disk, x: Scenarios) {
    SelfVerified(f, q, d, x) && Publishable(d, NamesFor(q), q.replace, q.faults)
  }

  /** Why a run whose scenarios give `x` ends with an error, from this disk. */
  predicate StopsWith(f: Functions, q: RunRequest, d: Disk, x: Scenarios, e: RunFailure) {
    match e
    case OutputRefused(why) => !OutputAccepted(q) && (why == NotRelative <==> !TraversalFree(q.output))
    case DestinationExists => OutputAccepted(q) && !MayReplace(q, d) && Located(q, NamesFor(q).destination)
    case DestinationOutside => OutputAccepted(q) && !MayReplace(q, d) && !Located(q, NamesFor(q).destination)
    case DestinationLinked => OutputAccepted(q) && MayReplace(q, d) && LinkedDestination(q, d)
    case DemoInvalid =>
      && OutputAccepted(q) && MayReplace(q, d) && !LinkedDestination(q, d)
      && DemoBroken(f, q.host, q.repository, d, NamesFor(q).destination)
    case ScenarioFailed(error) => Checked(f, q, d) && x == Err(error)
    case StagingCollision => Checked(f, q, d) && x.Ok? && NamesFor(q).staged in d
    case StagingFailed(reason) =>
      && Executed(f, q, d, x)
      && StagingStops(f, q.inputs, q.surroundings, x.value, Located(q, NamesFor(q).destination), reason)
    case StagedInvalid(failures) =>
      && FullyStaged(f, q, d, x) && failures != []
      && !(AllFaithful(f, x.value) && Located(q, NamesFor(q).staged))
    case PublicationFailed(cause) =>
      && SelfVerified(f, q, d, x) && !Publishable(d, NamesFor(q), q.replace, q.faults)
      && cause == if RolledBack(d, NamesFor(q), q.replace, q.faults) then NotPublished else HostError
    case PublishedInvalid => false
    case DigestChanged => false
  }

  predicate SameKind(a: RunFailure, b: RunFailure) {
    a == b || (a.OutputRefused? && b.OutputRefused?) || (a.StagedInvalid? && b.StagedInvalid?)
  }

  lemma RefusedOnce(f: Functions, ins: Inputs, su: Surroundings, cs: seq<ScenarioCapture>, inside: bool, a: StageError, b: StageError)
    requires |cs| == 3 && StagingStops(f, ins, su, cs, inside, a) && StagingStops(f, ins, su, cs, inside, b)
    ensures a == b && !(Stageable(f, ins, su, cs) && inside)
  {
    hide RecordTaken, ValidRawRecord, ValidEvidence, DocumentOf;
    assert FirstRefused(f, cs, 0) ==> !FirstRefused(f, cs, 1) && !FirstRefused(f, cs, 2);
    assert FirstRefused(f, cs, 1) ==> !FirstRefused(f, cs, 2);
  }

  /** The causes exclude each other and success, so each holds exactly when the run ends with its error. */
  lemma OneCause(f: Functions, q: RunRequest, d: Disk, x: Scenarios, a: RunFailure, b: RunFailure)
    requires StopsWith(f, q, d, x, a) && StopsWith(f, q, d, x, b)
    ensures SameKind(a, b) && !RunSucceeds(f, q, d, x)
  {
    hide OutputAccepted, MayReplace, LinkedDestination, DemoBroken, NamesFor, Stageable, StagingStops, AllFaithful, Located,
         Publishable, RolledBack, TraversalFree;
    if Executed(f, q, d, x) {
      var cs, inside := x.value, Located(q, NamesFor(q).destination);
      if a.StagingFailed? {
        RefusedOnce(f, q.inputs, q.surroundings, cs, inside, a.reason, if b.StagingFailed? then b.reason else a.reason);
      } else if b.StagingFailed? {
        RefusedOnce(f, q.inputs, q.surroundings, cs, inside, b.reason, b.reason);
      }
    }
  }

  /* ---- The run ---- */

  /** The checks on the destination, `_verify_existing_demo_before_replace` among them. */
  method CheckDestination(f: Functions, fs: FileSystem, q: RunRequest, ghost x: Scenarios) returns (r: Result<(), RunFailure>)
    requires OutputAccepted(q)
    ensures r.Ok? <==> Checked(f, q, fs.disk)
    ensures r.Err? ==> StopsWith(f, q, fs.disk, x, r.error) && !r.error.PublicationFailed?
  {
    hide BundleAccepted, DemoPath, OutputAccepted, Inside, NamesFor;
    var destination := NamesFor(q).destination;
    if Exists(fs.disk, destination) && !q.replace {
      return Err(if Inside(q.host, q.repository, destination) then DestinationExists else DestinationOutside);
    }
    if destination in fs.disk && fs.disk[destination].Link? {
      return Err(DestinationLinked);
    }
    if destination == DemoPath(q.host, q.repository) && Exists(fs.disk, destination) && q.replace {
      var previous := VerifyBundle(f, RootAt(q.host, q.repository, fs.disk, destination), false);
      if !previous.valid {
        return Err(DemoInvalid);
      }
    }
    return Ok(());
  }

  /** Staging, on a directory that must not exist yet. */
  method Stage(f: Functions, ins: Inputs, su: Surroundings, cs: seq<ScenarioCapture>, inside: bool)
      returns (r: Result<(Staged, Tree), StageError>)
    requires BundleLaws(f) && GenuineInputs(f, ins, su) && CapturesOf(f, ins, cs)
    ensures r.Ok? <==> Stageable(f, ins, su, cs) && inside
    ensures r.Err? ==> StagingStops(f, ins, su, cs, inside, r.error)
    ensures r.Ok? ==>
              var staged, t := r.value.0, r.value.1;
              && (BundleAccepted(f, t) <==> AllFaithful(f, cs))
              && EvidenceIn(f, t) == Some(DocumentOf(f, ins, su, cs))
              && DigestOf(t) == Some(staged.digest) && ManifestIn(f, t) == Some(staged.manifest) && |staged.manifest| == 9
              && staged.executions == ExecutionsFrom(f, cs)
              && staged.outcome == VerificationOutcome(staged.executions)
  {
    LawsOf(f);
    hide *;
    var dir := new BundleDirectory(map[]);
    var staged := StageBundle(f, dir, ins, su, cs, inside);
    if staged.Err? {
      return Err(staged.error);
    }
    StagedBundleVerifiesExactly(f, ins, su, cs, staged.value.manifest);
    r := Ok((staged.value, dir.tree));
  }

  /** A verified staging tree, and what the run will report about it. */
  ghost predicate StagedFrom(f: Functions, q: RunRequest, x: Scenarios, staged: Staged, t: Tree) {
    && x.Ok?
    && BundleAccepted(f, t)
    && EvidenceIn(f, t) == Some(DocumentOf(f, q.inputs, q.surroundings, x.value))
    && DigestOf(t) == Some(staged.digest) && ManifestIn(f, t) == Some(staged.manifest) && |staged.manifest| == 9
    && staged.executions == ExecutionsFrom(f, x.value)
    && staged.outcome == VerificationOutcome(staged.executions)
  }

  function ScenariosOf(f: Functions, q: RunRequest, s: DeviceState): Scenarios {
    ScenarioResults(f, q.inputs, s, q.plan)
  }

  /** Where the scenarios leave the device, if they are run. */
  function DeviceAfter(f: Functions, q: RunRequest, d: Disk, s: DeviceState): DeviceState {
    if Checked(f, q, d) then StartState(f, q.inputs, s, q.plan, ScenariosRun(f, q.inputs, s, q.plan)) else s
  }

  /** Up to and including the verification of the staged bundle. */
  method Prepare(f: Functions, fs: FileSystem, device: VirtualDevice, q: RunRequest)
      returns (r: Result<(Staged, Tree), RunFailure>, ghost x: Scenarios)
    requires BundleLaws(f) && GenuineInputs(f, q.inputs, q.surroundings) && OutputAccepted(q)
    modifies fs, device
    ensures x == ScenariosOf(f, q, old(device.State()))
    ensures r.Ok? <==> SelfVerified(f, q, old(fs.disk), x)
    ensures r.Err? ==> StopsWith(f, q, old(fs.disk), x, r.error) && !r.error.PublicationFailed?
    ensures r.Ok? ==>
              && StagedFrom(f, q, x, r.value.0, r.value.1)
              && fs.disk == old(fs.disk)[NamesFor(q).staged := Folder(r.value.1)]
    ensures device.State() == DeviceAfter(f, q, old(fs.disk), old(device.State()))
    ensures fs.disk - {NamesFor(q).staged} == old(fs.disk) - {NamesFor(q).staged}
    ensures fs.history == old(fs.history) || fs.history == old(fs.history) + [fs.disk]
    ensures fs.history == old(fs.history) ==> fs.disk == old(fs.disk)
  {
    hide OutputAccepted, MayReplace, LinkedDestination, DemoBroken, ScenariosOf, NamesFor, Stageable, StagingStops, AllFaithful, Located,
         ScenariosRun, StartState, BundleAccepted, RootAt, EvidenceIn, DocumentOf, DigestOf, ExecutionsFrom, VerificationOutcome,
         CapturesOf, Captured, GenuineInputs, BundleLaws, ManifestIn, NullEvidence, ScenarioResults;
    var n := NamesFor(q);
    ghost var d := fs.disk;
    x := ScenariosOf(f, q, device.State());
    ScenariosAreThese(f, q, device.State());
    var checked := CheckDestination(f, fs, q, x);
    if checked.Err? {
      r := Err(checked.error);
      return;
    }
    var captures := RunScenarios(f, q.inputs, device, q.plan);
    if captures.Err? {
      r := Err(ScenarioFailed(captures.error));
      return;
    }
    if n.staged in fs.disk {
      r := Err(StagingCollision);
      return;
    }
    var inside := Located(q, n.destination);
    var staged := Stage(f, q.inputs, q.surroundings, captures.value, inside);
    if staged.Err? {
      r := Err(StagingFailed(staged.error));
      return;
    }
    var tree := staged.value.1;
    Install(fs, n.staged, tree);
    FolderIsRoot(q, fs.disk, n.staged, tree);
    var selfCheck := VerifyBundle(f, RootAt(q.host, q.repository, fs.disk, n.staged), false);
    if !selfCheck.valid {
      r := Err(StagedInvalid(selfCheck.failures));
      return;
    }
    r := Ok((staged.value.0, tree));
  }

  lemma ScenariosAreThese(f: Functions, q: RunRequest, s: DeviceState)
    ensures ScenariosOf(f, q, s) == ScenarioResults(f, q.inputs, s, q.plan)
    ensures ScenariosOf(f, q, s).Ok? ==> CapturesOf(f, q.inputs, ScenariosOf(f, q, s).value)
  {
    hide ScenarioResults, CapturesOf;
    var x := ScenariosOf(f, q, s);
    if x.Ok? {
      ResultsAreCaptures(f, q.inputs, s, q.plan, x.value);
      CapturedIsWellFormed(f, q.inputs, s, q.plan, x.value);
    }
  }

  lemma FolderIsRoot(q: RunRequest, d: Disk, name: Path, t: Tree)
    requires name in d && d[name] == Folder(t)
    ensures RootAt(q.host, q.repository, d, name) == Directory(t, Located(q, name))
  {
  }

  lemma IntactTrace(f: Functions, pre: Disk, n: Names, t: Tree, history: seq<Disk>, from: nat)
    requires Ready(pre[n.staged := Folder(t)], n) && BundleAccepted(f, t) && from <= |history|
    requires forall i | from <= i < |history| :: Intact(pre[n.staged := Folder(t)], n, history[i])
    ensures forall i | from <= i < |history| :: Recoverable(f, pre, n, history[i])
  {
    hide Intact, BundleAccepted, Recoverable;
    forall i | from <= i < |history| ensures Recoverable(f, pre, n, history[i]) {
      IntactIsRecoverable(f, pre, n, t, history[i]);
    }
  }

  lemma StagingIsRecoverable(f: Functions, pre: Disk, n: Names, now: Disk)
    requires n.staged != n.destination && now - {n.staged} == pre - {n.staged}
    ensures Recoverable(f, pre, n, now)
  {
    hide BundleAccepted;
    assert n.destination in now ==> n.destination in now - {n.staged};
    assert n.destination in pre ==> n.destination in pre - {n.staged};
  }

  /** From the publication to the end, for a staged bundle that verified and a destination in the repository. */
  method PublishAndVerify(f: Functions, fs: FileSystem, q: RunRequest, destination: Path, staged: Staged, ghost pre: Disk, t: Tree)
      returns (r: Result<RunResult, RunFailure>)
    requires BundleAccepted(f, t) && DigestOf(t) == Some(staged.digest) && Located(q, NamesFor(q).destination)
    requires var n := NamesFor(q); n.staged !in pre && fs.disk == pre[n.staged := Folder(t)] && Ready(fs.disk, n)
    requires MayReplace(q, pre) && !LinkedDestination(q, pre) && destination == NamesFor(q).destination
    modifies fs
    ensures r.Ok? <==> Publishable(pre, NamesFor(q), q.replace, q.faults)
    ensures r.Ok? ==>
              && fs.disk == pre[NamesFor(q).destination := Folder(t)]
              && r.value == RunResult(staged.outcome, destination, staged.executions, staged.digest, |staged.manifest|)
    ensures r.Err? ==>
              r.error == PublicationFailed(if RolledBack(pre, NamesFor(q), q.replace, q.faults) then NotPublished else HostError)
    ensures r == Err(PublicationFailed(NotPublished)) ==> fs.disk == old(fs.disk)
    ensures |fs.history| >= |old(fs.history)| && fs.history[..|old(fs.history)|] == old(fs.history)
    ensures forall i | |old(fs.history)| <= i < |fs.history| :: Recoverable(f, pre, NamesFor(q), fs.history[i])
    ensures Recoverable(f, pre, NamesFor(q), fs.disk)
  {
    hide BundleAccepted, DigestOf, Intact, EvidenceIn, ManifestIn, Recoverable, NullEvidence, Located, NamesFor, RemovalCompletes;
    var n := NamesFor(q);
    SameDecision(pre, n, t, q.replace, q.faults);
    var published := fs.PublishDirectory(n, q.replace, q.faults);
    IntactTrace(f, pre, n, t, fs.history, |old(fs.history)|);
    IntactIsRecoverable(f, pre, n, t, fs.disk);
    if published.Err? {
      return Err(PublicationFailed(published.error));
    }
    assert fs.disk == pre[n.destination := Folder(t)];
    FolderIsRoot(q, fs.disk, n.destination, t);
    var final := VerifyBundle(f, RootAt(q.host, q.repository, fs.disk, n.destination), false);
    if !final.valid {
      return Err(PublishedInvalid);
    }
    if final.manifestSha256 != Some(staged.digest) {
      return Err(DigestChanged);
    }
    r := Ok(RunResult(staged.outcome, destination, staged.executions, staged.digest, |staged.manifest|));
  }

  /** The staged directory itself plays no part in whether it can be published. */
  lemma SameDecision(pre: Disk, n: Names, t: Tree, replace: bool, faults: Faults)
    requires n.staged != n.destination
    ensures Publishable(pre[n.staged := Folder(t)], n, replace, faults) <==> Publishable(pre, n, replace, faults)
    ensures RolledBack(pre[n.staged := Folder(t)], n, replace, faults) <==> RolledBack(pre, n, replace, faults)
    ensures Exists(pre[n.staged := Folder(t)], n.destination) <==> Exists(pre, n.destination)
  {
  }

  /** The published bundle is the one staged from these captures. */
  ghost predicate Holds(f: Functions, q: RunRequest, x: Scenarios, t: Tree, r: RunResult) {
    && x.Ok?
    && BundleAccepted(f, t)
    && EvidenceIn(f, t) == Some(DocumentOf(f, q.inputs, q.surroundings, x.value))
    && DigestOf(t) == Some(r.digest) && ManifestIn(f, t).Some? && r.entryCount == |ManifestIn(f, t).value| == 9
    && r.executions == ExecutionsFrom(f, x.value)
    && r.outcome == VerificationOutcome(r.executions)
  }

  /** The backup's name is drawn unused, and the three names differ. */
  predicate NamesApart(n: Names, d: Disk) {
    n.backup !in d && n.staged != n.destination && n.destination != n.backup && n.staged != n.backup
  }

  /**
    * The places, without the names above: what a run changes when it succeeds is the directory that was
    * asked for, or its own one below `evidence/runs`, and its errors are about that and about the staging
    * directory of its id.
    */
  predicate WhereAsked(q: RunRequest, before: Disk, after: Disk, r: Result<RunResult, RunFailure>) {
    var at := q.host.resolve(q.repository + match q.output {
                case None => ["evidence", "runs", q.surroundings.verificationId]
                case Some(text) => Parts(text)
              });
    var staging := q.repository + [".runtime", "bundles", q.surroundings.verificationId];
    match r
    case Ok(result) =>
      && result.path == at && at in after && after == before[at := after[at]]
      && (Exists(before, at) ==> q.replace) && staging !in before
    case Err(e) =>
      && (e == DestinationExists || e == DestinationOutside ==>
            !q.replace && at in before && (before[at].Link? ==> before[at].resolves))
      && (e == DestinationLinked ==> at in before && before[at].Link?)
      && (e == DemoInvalid ==> Exists(before, at) && at == q.host.resolve(q.repository + ["evidence", "demo-bundle"]))
      && (e == StagingCollision ==> staging in before)
  }

  /**
    * `run`: it succeeds exactly when nothing on its way stops it, and ends with an error for the
    * first thing that does. A run that succeeds leaves a bundle at its destination that verifies,
    * whose evidence is the document of its own faithful captures, with the recomputed outcome and
    * the same digest; what is published never fails its last verification. A run that fails leaves
    * everything but its staging directory alone, unless the host fails while publishing; and even
    * then, as after a crash at any moment, the old directory is there or a verified new one.
    */
  method RunVerification(f: Functions, fs: FileSystem, device: VirtualDevice, q: RunRequest)
      returns (r: Result<RunResult, RunFailure>, ghost x: Scenarios)
    requires BundleLaws(f) && GenuineInputs(f, q.inputs, q.surroundings) && NamesApart(NamesFor(q), fs.disk)
    modifies fs, device
    ensures x == ScenariosOf(f, q, old(device.State()))
    ensures r.Ok? <==> RunSucceeds(f, q, old(fs.disk), x)
    ensures r.Err? ==> StopsWith(f, q, old(fs.disk), x, r.error)
    ensures r.Ok? ==>
              var destination := NamesFor(q).destination;
              && destination in fs.disk && fs.disk[destination].Folder?
              && Holds(f, q, x, fs.disk[destination].tree, r.value)
              && fs.disk == old(fs.disk)[destination := fs.disk[destination]]
    ensures WhereAsked(q, old(fs.disk), fs.disk, r)
    ensures r.Err? && r.error != PublicationFailed(HostError) ==>
              fs.disk - {NamesFor(q).staged} == old(fs.disk) - {NamesFor(q).staged}
    ensures device.State() == DeviceAfter(f, q, old(fs.disk), old(device.State()))
    ensures Recoverable(f, old(fs.disk), NamesFor(q), fs.disk)
    ensures |fs.history| >= |old(fs.history)| && fs.history[..|old(fs.history)|] == old(fs.history)
    ensures forall i | |old(fs.history)| <= i < |fs.history| :: Recoverable(f, old(fs.disk), NamesFor(q), fs.history[i])
  {
    hide *;
    var n := NamesFor(q);
    ghost var pre, past := fs.disk, fs.history;
    x := ScenariosOf(f, q, device.State());
    Apart(n, pre);
    var destination := ResolveOutputDirectory(q.host, q.repository, q.surroundings.verificationId, q.output);
    if destination.Err? {
      RefusedOutput(f, q, pre, x, destination.error);
      EarlyErrors(f, q, pre, fs.disk, x, OutputRefused(destination.error));
      StagingIsRecoverable(f, pre, n, fs.disk);
      NothingRun(f, q, pre, device.State());
      r := Err(OutputRefused(destination.error));
      return;
    }
    AcceptedIsAccepted(q);
    RequestedDirectory(q);
    var prepared;
    prepared, x := Prepare(f, fs, device, q);
    StagingIsRecoverable(f, pre, n, fs.disk);
    if prepared.Err? {
      EarlyErrors(f, q, pre, fs.disk, x, prepared.error);
      OneCause(f, q, pre, x, prepared.error, prepared.error);
      r := Err(prepared.error);
      return;
    }
    var staged, tree := prepared.value.0, prepared.value.1;
    StagedMeans(f, q, pre, x, staged, tree);
    ItIsReady(fs.disk, n, pre);
    ghost var middle := fs.history;
    r := PublishAndVerify(f, fs, q, destination.value, staged, pre, tree);
    forall i | |past| <= i < |fs.history| ensures Recoverable(f, pre, n, fs.history[i]) {
      if i < |middle| {
        assert fs.history[i] == fs.history[..|middle|][i];
      }
    }
    assert fs.history[..|past|] == fs.history[..|middle|][..|past|];
    if r.Ok? {
      ItSucceeds(f, q, pre, x, staged, tree, r.value);
      FoundFree(f, q, pre, x);
      DoneWhereAsked(q, pre, fs.disk, r.value);
    } else {
      ItStops(f, q, pre, x, r.error);
      EarlyErrors(f, q, pre, fs.disk, x, r.error);
    }
  }

  /** `resolve_output_directory` and the names agree about the destination. */
  lemma RequestedDirectory(q: RunRequest)
    ensures NamesFor(q).destination == q.host.resolve(Candidate(q.repository, q.surroundings.verificationId, q.output))
  {
  }

  /** What each of the early errors says about the places. */
  lemma EarlyErrors(f: Functions, q: RunRequest, before: Disk, after: Disk, x: Scenarios, e: RunFailure)
    requires StopsWith(f, q, before, x, e)
    ensures WhereAsked(q, before, after, Err(e))
  {
    NamesExactly(q);
    hide NamesFor, BundleAccepted, OutputAccepted, Located, Stageable, StagingStops, AllFaithful, Publishable, RolledBack, Parts;
  }

  /** A run that succeeded found its destination free, or had leave to replace it. */
  lemma FoundFree(f: Functions, q: RunRequest, d: Disk, x: Scenarios)
    requires RunSucceeds(f, q, d, x)
    ensures Exists(d, NamesFor(q).destination) ==> q.replace
    ensures NamesFor(q).staged !in d
  {
    hide NamesFor, OutputAccepted, LinkedDestination, DemoBroken, Located, Stageable, AllFaithful, Publishable, Exists;
  }

  lemma DoneWhereAsked(q: RunRequest, before: Disk, after: Disk, r: RunResult)
    requires r.path == NamesFor(q).destination && r.path in after && after == before[r.path := after[r.path]]
    requires (Exists(before, r.path) ==> q.replace) && NamesFor(q).staged !in before
    ensures WhereAsked(q, before, after, Ok(r))
  {
    NamesExactly(q);
    hide NamesFor, Exists, Parts;
  }

  lemma Apart(n: Names, d: Disk)
    requires NamesApart(n, d)
    ensures n.backup !in d && n.staged != n.destination && n.destination != n.backup && n.staged != n.backup
  {
  }

  lemma RefusedOutput(f: Functions, q: RunRequest, d: Disk, x: Scenarios, why: OutputError)
    requires !AcceptedOutput(q.host, q.repository, q.surroundings.verificationId, q.output) && (why == NotRelative <==> !TraversalFree(q.output))
    ensures StopsWith(f, q, d, x, OutputRefused(why)) && !RunSucceeds(f, q, d, x)
  {
    hide AcceptedOutput, NamesFor, TraversalFree;
  }

  lemma NothingRun(f: Functions, q: RunRequest, d: Disk, s: DeviceState)
    requires !AcceptedOutput(q.host, q.repository, q.surroundings.verificationId, q.output)
    ensures DeviceAfter(f, q, d, s) == s
  {
    hide AcceptedOutput, NamesFor, StartState, ScenariosRun;
  }

  lemma AcceptedIsAccepted(q: RunRequest)
    requires AcceptedOutput(q.host, q.repository, q.surroundings.verificationId, q.output)
    ensures OutputAccepted(q)
  {
  }

  lemma StagedMeans(f: Functions, q: RunRequest, d: Disk, x: Scenarios, staged: Staged, t: Tree)
    requires SelfVerified(f, q, d, x) && StagedFrom(f, q, x, staged, t)
    ensures NamesFor(q).staged !in d && Located(q, NamesFor(q).destination) && MayReplace(q, d) && !LinkedDestination(q, d)
    ensures BundleAccepted(f, t) && DigestOf(t) == Some(staged.digest)
  {
    hide OutputAccepted, MayReplace, LinkedDestination, DemoBroken, NamesFor, Stageable, AllFaithful, Located,
         BundleAccepted, EvidenceIn, DocumentOf, DigestOf, ExecutionsFrom, VerificationOutcome;
  }

  lemma ItSucceeds(f: Functions, q: RunRequest, d: Disk, x: Scenarios, staged: Staged, t: Tree, r: RunResult)
    requires SelfVerified(f, q, d, x) && Publishable(d, NamesFor(q), q.replace, q.faults) && StagedFrom(f, q, x, staged, t)
    requires r == RunResult(staged.outcome, r.path, staged.executions, staged.digest, |staged.manifest|)
    ensures RunSucceeds(f, q, d, x) && Holds(f, q, x, t, r)
  {
    hide SelfVerified, Publishable, NamesFor, BundleAccepted, EvidenceIn, DocumentOf, DigestOf, ExecutionsFrom, VerificationOutcome;
  }

  lemma ItStops(f: Functions, q: RunRequest, d: Disk, x: Scenarios, e: RunFailure)
    requires SelfVerified(f, q, d, x) && !Publishable(d, NamesFor(q), q.replace, q.faults)
    requires e == PublicationFailed(if RolledBack(d, NamesFor(q), q.replace, q.faults) then NotPublished else HostError)
    ensures StopsWith(f, q, d, x, e) && !RunSucceeds(f, q, d, x)
  {
    hide SelfVerified, Publishable, RolledBack, NamesFor;
  }

  lemma ItIsReady(d: Disk, n: Names, pre: Disk)
    requires NamesApart(n, pre) && n.staged in d && d - {n.staged} == pre - {n.staged}
    ensures Ready(d, n)
  {
    assert n.backup in d ==> n.backup in d - {n.staged};
  }

  lemma CapturedResponses(f: Functions, ins: Inputs, s: DeviceState, plan: Plan, cs: seq<ScenarioCapture>)
    requires Captured(f, ins, s, plan, cs)
    ensures |cs| == 3 && forall n | 0 <= n < 3 :: ValidResponse(cs[n].response)
  {
    hide Run, Schedule, Observe, ValidResponse, Definition, InitialConfirmed, ROLE_ORDER;
    assert |ROLE_ORDER| == 3 by { RolesInOrder(); }
    forall n | 0 <= n < 3 ensures ValidResponse(cs[n].response) {
      assert CaptureAt(f, ins, s, plan, n) == Ok(cs[n]);
    }
  }

  /** A verified outcome fixes the recorded states, and they satisfy their models. */
  lemma VerifiedStates(v: ExecutionEvidence, p: ExecutionEvidence, c: ExecutionEvidence)
    requires VerificationOutcome([v, p, c]) == PatchVerified && Trio([v, p, c], v, p, c)
    requires ValidPackageEvidence(v.package) && ValidPackageEvidence(c.package)
    ensures forall x | x in [v, p, c] :: ValidState(x.before) && ValidState(x.after)
  {
    OutcomeOfTrio([v, p, c], v, p, c);
    hide VerificationOutcome, IsSha256;
  }

  predicate StatesAllowed(c: ScenarioCapture) {
    ValidState(c.before) && ValidState(c.after) && ValidResponse(c.response)
  }

  lemma StatesKept(f: Functions, c: ScenarioCapture)
    requires ValidState(ExecutionFrom(f, c).before) && ValidState(ExecutionFrom(f, c).after) && ValidResponse(c.response)
    ensures StatesAllowed(c)
  {
    ExecutionPackage(f, c);
    hide ValidState, ValidResponse, ExecutionFrom;
  }

  lemma ListOfThree(f: Functions, cs: seq<ScenarioCapture>)
    requires |cs| == 3
    ensures ExecutionsFrom(f, cs) == [ExecutionFrom(f, cs[0]), ExecutionFrom(f, cs[1]), ExecutionFrom(f, cs[2])]
  {
    hide ExecutionFrom;
  }

  lemma RolesOfThree(f: Functions, ins: Inputs, cs: seq<ScenarioCapture>)
    requires CapturesOf(f, ins, cs)
    ensures |cs| == 3
    ensures var v, p, c := ExecutionFrom(f, cs[0]), ExecutionFrom(f, cs[1]), ExecutionFrom(f, cs[2]);
            Trio([v, p, c], v, p, c)
  {
    ListOfThree(f, cs);
    ExecutionsInPlace(f, ins, cs);
    hide ExecutionFrom, Consistent, ExecutionsFrom, OnePerRole, TrustHolds, SameInput, CaptureOfRole;
  }

  lemma VerifiedStatesAllowed(f: Functions, ins: Inputs, su: Surroundings, cs: seq<ScenarioCapture>)
    requires HashLaw(f) && EnvelopeLaw(f) && CapturesOf(f, ins, cs) && GenuineInputs(f, ins, su)
    requires |cs| == 3 && forall n | 0 <= n < 3 :: ValidResponse(cs[n].response)
    requires VerificationOutcome(ExecutionsFrom(f, cs)) == PatchVerified
    ensures forall n | 0 <= n < 3 :: StatesAllowed(cs[n])
  {
    hide *;
    ListOfThree(f, cs);
    RolesOfThree(f, ins, cs);
    PackageEvidenceAllowed(f, ins, su, cs, 0);
    PackageEvidenceAllowed(f, ins, su, cs, 2);
    VerifiedStates(ExecutionFrom(f, cs[0]), ExecutionFrom(f, cs[1]), ExecutionFrom(f, cs[2]));
    StatesKept(f, cs[0]);
    StatesKept(f, cs[1]);
    StatesKept(f, cs[2]);
  }

  /** The ids and time stamps a run draws for its scenarios. */
  predicate StampsAllowed(plan: Plan) {
    forall n | 0 <= n < 3 :: ValidStamps(plan[n].1.executionId, plan[n].1.startedAt, plan[n].1.finishedAt)
  }

  lemma StampsCaptured(f: Functions, ins: Inputs, s: DeviceState, plan: Plan, cs: seq<ScenarioCapture>)
    requires Captured(f, ins, s, plan, cs)
    ensures |cs| == 3 && forall n | 0 <= n < 3 ::
              cs[n].executionId == plan[n].1.executionId && cs[n].startedAt == plan[n].1.startedAt && cs[n].finishedAt == plan[n].1.finishedAt
  {
    hide Run, Schedule, Observe, ValidResponse, Definition, InitialConfirmed, ROLE_ORDER;
    assert |ROLE_ORDER| == 3 by { RolesInOrder(); }
    forall n | 0 <= n < 3
      ensures cs[n].executionId == plan[n].1.executionId && cs[n].startedAt == plan[n].1.startedAt && cs[n].finishedAt == plan[n].1.finishedAt
    {
      assert CaptureAt(f, ins, s, plan, n) == Ok(cs[n]);
    }
  }

  /**
    * Without faults or interference a genuine demonstration yields, from any device state, captures
    * that pass self-verification as PATCH_VERIFIED. They can be staged exactly when the drawn ids and
    * time stamps have their patterns and the schema takes the document.
    */
  lemma QuietRunIsPublishable(f: Functions, ins: Inputs, su: Surroundings, s: DeviceState, plan: Plan) returns (cs: seq<ScenarioCapture>)
    requires HashLaw(f) && EnvelopeLaw(f) && f.maxDepth >= 2 && Demonstration(f, ins) && GenuineInputs(f, ins, su)
    requires forall n | 0 <= n < 3 :: Quiet(plan[n].0)
    ensures Captured(f, ins, s, plan, cs) && CapturesOf(f, ins, cs) && AllFaithful(f, cs)
    ensures VerificationOutcome(ExecutionsFrom(f, cs)) == PatchVerified
    ensures |cs| == 3 &&
            (Stageable(f, ins, su, cs) <==>
               StampsAllowed(plan) && SurroundingsAllowed(su) && f.meetsSchema(f.printEvidence(DocumentOf(f, ins, su, cs))))
  {
    hide *;
    cs := RunCompleteness(f, ins, s, plan);
    CapturedIsWellFormed(f, ins, s, plan, cs);
    CapturedResponses(f, ins, s, plan, cs);
    FaithfulAll(f, cs);
    var _ := RecordsAsArtifacts(f, cs);
    VerifiedStatesAllowed(f, ins, su, cs);
    StageableExactly(f, ins, su, cs);
    StampsCaptured(f, ins, s, plan, cs);
    FieldsOfCaptures(plan, cs);
  }

  /** Everything but the publication: what a calm run of a genuine demonstration still needs. */
  predicate CalmConditions(f: Functions, q: RunRequest, d: Disk, cs: seq<ScenarioCapture>)
    requires |cs| == 3
  {
    && Checked(f, q, d) && NamesFor(q).staged !in d
    && StampsAllowed(q.plan) && SurroundingsAllowed(q.surroundings)
    && f.meetsSchema(f.printEvidence(DocumentOf(f, q.inputs, q.surroundings, cs)))
    && Located(q, NamesFor(q).destination) && Located(q, NamesFor(q).staged)
  }

  /**
    * The run of a genuine demonstration that meets no fault and no interference succeeds exactly
    * when its destination, its names, the schema and the host allow it, and then reports PATCH_VERIFIED.
    */
  lemma QuietRunSucceeds(f: Functions, q: RunRequest, d: Disk, s: DeviceState)
    requires HashLaw(f) && EnvelopeLaw(f) && f.maxDepth >= 2 && Demonstration(f, q.inputs) && GenuineInputs(f, q.inputs, q.surroundings)
    requires forall n | 0 <= n < 3 :: Quiet(q.plan[n].0)
    ensures ScenariosOf(f, q, s).Ok?
    ensures RunSucceeds(f, q, d, ScenariosOf(f, q, s)) <==>
            CalmConditions(f, q, d, ScenariosOf(f, q, s).value) && Publishable(d, NamesFor(q), q.replace, q.faults)
    ensures forall t, r | Holds(f, q, ScenariosOf(f, q, s), t, r) :: r.outcome == PatchVerified
  {
    hide *;
    var cs := QuietRunIsPublishable(f, q.inputs, q.surroundings, s, q.plan);
    ResultsAreCaptures(f, q.inputs, s, q.plan, cs);
    ScenariosAreThese(f, q, s);
    QuietDecision(f, q, d, cs);
    forall t, r | Holds(f, q, ScenariosOf(f, q, s), t, r) ensures r.outcome == PatchVerified {
      HeldOutcome(f, q, ScenariosOf(f, q, s), t, r);
    }
  }

  lemma QuietDecision(f: Functions, q: RunRequest, d: Disk, cs: seq<ScenarioCapture>)
    requires |cs| == 3 && AllFaithful(f, cs)
    requires Stageable(f, q.inputs, q.surroundings, cs) <==>
             StampsAllowed(q.plan) && SurroundingsAllowed(q.surroundings)
             && f.meetsSchema(f.printEvidence(DocumentOf(f, q.inputs, q.surroundings, cs)))
    ensures RunSucceeds(f, q, d, Ok(cs)) <==> CalmConditions(f, q, d, cs) && Publishable(d, NamesFor(q), q.replace, q.faults)
  {
    hide Checked, NamesFor, Stageable, AllFaithful, StampsAllowed, SurroundingsAllowed, DocumentOf, Located, Publishable;
  }

  lemma HeldOutcome(f: Functions, q: RunRequest, x: Scenarios, t: Tree, r: RunResult)
    requires Holds(f, q, x, t, r)
    ensures x.Ok? && r.outcome == VerificationOutcome(ExecutionsFrom(f, x.value))
  {
    hide BundleAccepted, EvidenceIn, DocumentOf, DigestOf, ExecutionsFrom, VerificationOutcome;
  }

  /** A host without links and a request for the default output, on a disk where its names are free. */
  predicate PlainRequest(q: RunRequest, d: Disk) {
    var n := NamesFor(q);
    && q.host.links == {} && q.output == None
    && n.staged !in d && n.destination !in d && !q.faults.parent && !q.faults.publish
  }

  /** There the checks, the location and the publication cannot fail. */
  lemma PlainConditions(f: Functions, q: RunRequest, d: Disk)
    requires PlainRequest(q, d) && forall p :: q.host.resolve(p) == p
    ensures Checked(f, q, d) && Located(q, NamesFor(q).destination) && Located(q, NamesFor(q).staged)
    ensures NamesFor(q).staged !in d && Publishable(d, NamesFor(q), q.replace, q.faults)
  {
    hide BundleAccepted, DemoPath, AcceptedOutput, TraversalFree, Below;
    assert TraversalFree(q.output) by { NoTraversal(); }
    PlainHost(q.host, q.repository, q.surroundings.verificationId, q.output);
    assert OutputAccepted(q);
  }

  lemma NoTraversal()
    ensures TraversalFree(None)
  {
  }

  /** With the other fields allowed, the captures' fields are allowed exactly when the plan's stamps are. */
  lemma FieldsOfCaptures(plan: Plan, cs: seq<ScenarioCapture>)
    requires |cs| == 3
    requires forall n | 0 <= n < 3 ::
               cs[n].executionId == plan[n].1.executionId && cs[n].startedAt == plan[n].1.startedAt && cs[n].finishedAt == plan[n].1.finishedAt
    requires forall n | 0 <= n < 3 :: StatesAllowed(cs[n])
    ensures (forall n | 0 <= n < 3 :: FieldsAllowed(cs[n])) <==> StampsAllowed(plan)
  {
    hide ValidStamps, ValidState, ValidResponse;
    if forall n | 0 <= n < 3 :: FieldsAllowed(cs[n]) {
      assert FieldsAllowed(cs[0]) && FieldsAllowed(cs[1]) && FieldsAllowed(cs[2]);
    }
  }

  lemma FaithfulAll(f: Functions, cs: seq<ScenarioCapture>)
    requires f.maxDepth >= 2
    requires |cs| == 3 && forall n | 0 <= n < 3 :: cs[n].resetConfirmed && RepliedAsRecorded(cs[n]) && FlatReply(cs[n])
    ensures AllFaithful(f, cs)
  {
    hide RepliedAsRecorded, NestedWithin;
    forall n | 0 <= n < 3 ensures Faithful(f, cs[n]) {
      NestedWithinMore(JObject(cs[n].gatewayResponse), 2, f.maxDepth);
    }
  }

  lemma RecordsAsArtifacts(f: Functions, cs: seq<ScenarioCapture>) returns (artifacts: seq<seq<ArtifactRecord>>)
    requires |cs| == 3
    ensures |artifacts| == 3 && ExecutionsFrom(f, cs) == Executions(f, cs, artifacts)
  {
    hide ExecutionOf, RecordFor, RawOf;
    artifacts := seq(3, n requires 0 <= n < 3 => [RecordFor(f, RawFile(cs[n].definition.role), f.printRaw(RawOf(cs[n])))]);
    var xs, ys := ExecutionsFrom(f, cs), Executions(f, cs, artifacts);
    assert |xs| == |ys| == 3 && xs[0] == ys[0] && xs[1] == ys[1] && xs[2] == ys[2];
  }
}
