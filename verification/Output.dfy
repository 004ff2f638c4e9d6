/** Where a run may put its bundle. */
module Output {
  import opened Prelude
  import opened Paths

  /** Absolute paths as component lists; how the host resolves them, and which are links, to something or to nothing. */
  datatype Host = Host(resolve: Path -> Path, links: set<Path>, dangling: set<Path>)

  predicate IsLink(host: Host, p: Path) {
    p in host.links || p in host.dangling
  }

  const EVIDENCE_NAME := "evidence"

  function EvidenceRoot(host: Host, repository: Path): Path {
    host.resolve(repository + [EVIDENCE_NAME])
  }

  /** Where a path resolves to is the repository or below it. */
  predicate Inside(host: Host, repository: Path, p: Path) {
    host.resolve(repository) <= host.resolve(p)
  }

  datatype OutputError = NotRelative | OutsideEvidence | EvidenceItself | LinkedComponent

  /** The components a run's destination has below the repository. */
  function Below(verificationId: string, output: Option<string>): Path {
    match output
    case None => [EVIDENCE_NAME, "runs", verificationId]
    case Some(text) => Parts(text)
  }

  predicate TraversalFree(output: Option<string>) {
    output.Some? ==> !IsAbsolute(output.value) && ".." !in Parts(output.value)
  }

  /** No component is a link, from the path up to its first ancestor that resolves to the repository. */
  predicate Unlinked(host: Host, repository: Path, p: Path) {
    forall k | |repository| < k <= |p| ::
      (forall j | k <= j <= |p| :: host.resolve(p[..j]) != host.resolve(repository)) ==> p[..k] !in host.links
  }

  function Candidate(repository: Path, verificationId: string, output: Option<string>): Path {
    repository + Below(verificationId, output)
  }

  /** A traversal-free path that resolves strictly below the evidence directory, without a link on the way up. */
  predicate AcceptedOutput(host: Host, repository: Path, verificationId: string, output: Option<string>) {
    var candidate := Candidate(repository, verificationId, output);
    && TraversalFree(output)
    && host.resolve(candidate) != host.resolve(repository)
    && EvidenceRoot(host, repository) < host.resolve(candidate)
    && Unlinked(host, repository, candidate)
  }

  /**
    * `resolve_output_directory`: it succeeds exactly for a traversal-free path that resolves strictly
    * below the evidence directory and has no link on the way up to the repository.
    */
  method ResolveOutputDirectory(host: Host, repository: Path, verificationId: string, output: Option<string>)
      returns (r: Result<Path, OutputError>)
    ensures r.Ok? <==> AcceptedOutput(host, repository, verificationId, output)
    ensures r.Ok? ==> r.value == host.resolve(Candidate(repository, verificationId, output))
    ensures r == Err(NotRelative) <==> !TraversalFree(output)
    ensures r == Err(NotRelative) <==> output.Some? && (IsAbsolute(output.value) || ".." in Parts(output.value))
    ensures var resolved, evidence := host.resolve(Candidate(repository, verificationId, output)), host.resolve(repository + ["evidence"]);
            && (r == Err(OutsideEvidence) <==>
                  r != Err(NotRelative) && (resolved == host.resolve(repository) || !(evidence <= resolved)))
            && (r == Err(EvidenceItself) <==> r != Err(NotRelative) && resolved != host.resolve(repository) && resolved == evidence)
  {
    if output.Some? && (IsAbsolute(output.value) || ".." in Parts(output.value)) {
      return Err(NotRelative);
    }
    var candidate := Candidate(repository, verificationId, output);
    var root, resolved := host.resolve(repository), host.resolve(candidate);
    var evidence := EvidenceRoot(host, repository);
    if resolved == root || !(evidence <= resolved) {
      return Err(OutsideEvidence);
    }
    if resolved == evidence {
      return Err(EvidenceItself);
    }
    var current := candidate;
    assert candidate[..|repository|] == repository;
    while host.resolve(current) != root
      invariant |repository| <= |current| && current == candidate[..|current|]
      invariant forall j | |current| < j <= |candidate| :: host.resolve(candidate[..j]) != root && candidate[..j] !in host.links
      decreases |current|
    {
      if current in host.links {
        assert forall j | |current| <= j <= |candidate| :: host.resolve(candidate[..j]) != root;
        return Err(LinkedComponent);
      }
      assert |current| > |repository|;
      current := current[..|current| - 1];
    }
    return Ok(resolved);
  }

  /* ---- Inside the repository? ---- */

  /**
    * What is accepted lies below the evidence directory, so whether it lies inside the repository is
    * a question about that directory alone, unless it resolves to something above the repository.
    */
  lemma InsideExactly(host: Host, repository: Path, verificationId: string, output: Option<string>)
    requires AcceptedOutput(host, repository, verificationId, output)
    ensures var at := Candidate(repository, verificationId, output);
            Inside(host, repository, at) <==>
            || Inside(host, repository, repository + [EVIDENCE_NAME])
            || EvidenceRoot(host, repository) < host.resolve(repository) <= host.resolve(at)
  {
    var at, evidence, root := host.resolve(Candidate(repository, verificationId, output)), EvidenceRoot(host, repository), host.resolve(repository);
    if root <= at && |root| <= |evidence| {
      assert root == at[..|root|] == evidence[..|root|];
    }
    if root <= at && |evidence| < |root| {
      assert evidence == at[..|evidence|] == root[..|evidence|];
    }
  }

  /** The host follows links one component at a time, to the end: a name that is no link only extends the path. */
  ghost predicate Stepwise(host: Host) {
    && (forall p: Path, c: string | Component(c) && !IsLink(host, p + [c]) :: host.resolve(p + [c]) == host.resolve(p) + [c])
    && (forall p: Path :: host.resolve(host.resolve(p)) == host.resolve(p))
  }

  /** So an evidence directory that is no link keeps every accepted output inside the repository. */
  lemma InsideWithoutEvidenceLink(host: Host, repository: Path, verificationId: string, output: Option<string>)
    requires Stepwise(host) && !IsLink(host, repository + [EVIDENCE_NAME])
    requires AcceptedOutput(host, repository, verificationId, output)
    ensures Inside(host, repository, Candidate(repository, verificationId, output))
    ensures Inside(host, repository, host.resolve(Candidate(repository, verificationId, output)))
  {
    InsideExactly(host, repository, verificationId, output);
    assert Component(EVIDENCE_NAME);
    assert host.resolve(repository) <= host.resolve(repository + [EVIDENCE_NAME]);
  }

  /** Where `evidence` is a link to nothing, the walk looks past it and an output elsewhere is accepted. */
  lemma DanglingEvidenceEscapes() returns (host: Host, repository: Path)
    ensures Stepwise(host) && AcceptedOutput(host, repository, "FR", None)
    ensures !Inside(host, repository, host.resolve(Candidate(repository, "FR", None)))
    ensures repository + [EVIDENCE_NAME] in host.dangling && host.links == {}
  {
    repository := ["repo"];
    var link := ["repo", "evidence"];
    host := Elsewhere();
    var at := Candidate(repository, "FR", None);
    assert at == ["repo", "evidence", "runs", "FR"] && at[2..] == ["runs", "FR"];
    assert host.resolve(at) == ["else", "runs", "FR"];
    assert repository + [EVIDENCE_NAME] == link && link[2..] == [];
    assert host.resolve(link) == ["else"];
    assert !(link <= repository) && host.resolve(repository) == repository;
    assert "else"[0] != "repo"[0];
    assert host.resolve(repository)[0] != host.resolve(at)[0];
    ElsewhereIsStepwise();
  }

  /** A host with one link, which leads to nothing yet. */
  function Elsewhere(): Host {
    Host((p: Path) => if ["repo", "evidence"] <= p then ["else"] + p[2..] else p, {}, {["repo", "evidence"]})
  }

  lemma ElsewhereIsStepwise()
    ensures Stepwise(Elsewhere())
  {
    var host, link := Elsewhere(), ["repo", "evidence"];
    forall p: Path, c: string | Component(c) && !IsLink(host, p + [c]) ensures host.resolve(p + [c]) == host.resolve(p) + [c] {
      if link <= p {
        assert (p + [c])[2..] == p[2..] + [c];
      }
      assert link <= p + [c] ==> link <= p || p + [c] == link;
    }
    assert "else"[0] != "repo"[0];
    forall p: Path ensures host.resolve(host.resolve(p)) == host.resolve(p) {
      if link <= p {
        assert host.resolve(p)[0] != link[0];
      }
    }
  }

  /**
    * On a host without redirections, what is accepted is exactly a path of legal components strictly
    * below "evidence" of which no component is a link; the run's own default is always such a path.
    */
  lemma PlainHost(host: Host, repository: Path, verificationId: string, output: Option<string>)
    requires forall p :: host.resolve(p) == p
    ensures var below := Below(verificationId, output);
            var candidate := repository + below;
            AcceptedOutput(host, repository, verificationId, output) <==>
            && TraversalFree(output)
            && ["evidence"] < below
            && forall k | |repository| < k <= |candidate| :: candidate[..k] !in host.links
    ensures Below(verificationId, None) == ["evidence", "runs", verificationId]
    ensures output.Some? ==> Below(verificationId, output) == Parts(output.value)
  {
    var below := Below(verificationId, output);
    var candidate := repository + below;
    assert repository + [EVIDENCE_NAME] < candidate <==> [EVIDENCE_NAME] < below by {
      if repository + [EVIDENCE_NAME] < candidate {
        assert candidate[|repository|..] == below && candidate[|repository|] == EVIDENCE_NAME;
      }
    }
    forall j | |repository| < j <= |candidate| ensures host.resolve(candidate[..j]) != host.resolve(repository) {
      assert |candidate[..j]| > |repository|;
    }
  }
}
