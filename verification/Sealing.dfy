/** What the manifest and its digest guarantee: round trip and tamper evidence. */
module Sealing {
  import opened Prelude
  import opened Paths
  import opened Library
  import opened Bundle
  import opened Verification

  /* ---- Round trip ---- */

  /** Names that the path check accepts. */
  predicate SafeNames(t: Tree) {
    forall p | p in t :: SafeRelativePath(Join(p)) == Ok(p)
  }

  lemma SealedKeepsListed(f: Functions, t: Tree, m: BundleManifest)
    requires HashLaw(f)
    ensures ListedSet(Sealed(f, t, m)) == ListedSet(t)
    ensures forall p | p in ListedSet(t) :: Sealed(f, t, m)[p] == t[p] && EntryFor(f, Sealed(f, t, m), p) == EntryFor(f, t, p)
  {
    hide IsSha256, DigestBytes, Join;
  }

  /** A sealed tree seals to the same manifest again. */
  lemma SealedSameManifest(f: Functions, t: Tree, m: BundleManifest)
    requires HashLaw(f) && IsManifestOf(f, t, m)
    ensures IsManifestOf(f, Sealed(f, t, m), m)
  {
    hide IsSha256, Sealed, EntryFor, IsListing;
    var r :| IsListing(r, ListedSet(t)) && m == EntriesFor(f, t, r);
    SealedKeepsListed(f, t, m);
    assert forall i | 0 <= i < |r| :: r[i] in ListedSet(t) by { hide ListedSet; ListingElements(r, ListedSet(t)); }
    assert EntriesFor(f, Sealed(f, t, m), r) == m;
  }

  lemma ListingElements(r: seq<Path>, s: set<Path>)
    requires IsListing(r, s)
    ensures forall i | 0 <= i < |r| :: r[i] in s
  {
  }

  lemma SealedDigest(f: Functions, t: Tree, m: BundleManifest)
    requires HashLaw(f)
    ensures var s := Sealed(f, t, m);
            && Regular(s, MANIFEST) && s[MANIFEST].content == f.printManifest(m)
            && Regular(s, DIGEST) && DigestOf(s) == Some(f.sha256(f.printManifest(m)))
  {
    var d := f.sha256(f.printManifest(m));
    assert IsSha256(d);
    hide DigestIn, IsSha256, DigestLine;
    DigestSpellings(DigestBytes(d), d);
    assert MANIFEST != DIGEST by { assert "manifest.json"[9] != "manifest.sha256"[9]; }
  }

  /** Every entry of a tree's manifest is accepted on any tree that agrees with it on what is listed. */
  lemma EntriesAccepted(f: Functions, t: Tree, s: Tree, m: BundleManifest)
    requires LegalTree(t) && SafeNames(t) && IsManifestOf(f, t, m)
    requires ListedSet(s) == ListedSet(t) && forall p | p in ListedSet(t) :: s[p] == t[p]
    ensures forall i | 0 <= i < |m| :: EntryAccepted(f, s, m[i])
  {
    hide SafeRelativePath, Join, Legal;
    var r :| IsListing(r, ListedSet(t)) && m == EntriesFor(f, t, r);
    forall i | 0 <= i < |m| ensures EntryAccepted(f, s, m[i]) {
      var p := r[i];
      assert p in ListedSet(t) && p in ListedSet(s);
      OwnPaths(p);
    }
  }

  /** The manifest names every listed path. */
  lemma ManifestNamesListed(f: Functions, t: Tree, m: BundleManifest, p: Path)
    requires LegalTree(t) && SafeNames(t) && IsManifestOf(f, t, m) && p in ListedSet(t)
    ensures Join(p) in ManifestPaths(m)
  {
    var r :| IsListing(r, ListedSet(t)) && m == EntriesFor(f, t, r);
    ListingMembers(r, ListedSet(t));
    hide IsListing, PathLess, SafeRelativePath, Join, Legal;
    OwnPaths(p);
    var i :| 0 <= i < |r| && r[i] == p;
    assert m[i].path == Join(p) && UsableName(m[i].path) && m[i] in m;
  }

  /** The manifest names nothing else. */
  lemma ManifestNamesOnlyListed(f: Functions, t: Tree, m: BundleManifest, name: string)
    requires IsManifestOf(f, t, m) && name in ManifestPaths(m)
    ensures exists p :: p in ListedSet(t) && name == Join(p)
  {
    var r :| IsListing(r, ListedSet(t)) && m == EntriesFor(f, t, r);
    ListingMembers(r, ListedSet(t));
    hide IsListing, PathLess, UsableName, Join, ListedSet;
    var i :| 0 <= i < |m| && m[i].path == name;
    assert r[i] in ListedSet(t);
  }

  lemma SealedFiles(f: Functions, t: Tree, m: BundleManifest)
    requires LegalTree(t) && SafeNames(t) && NoLinks(t) && HashLaw(f) && IsManifestOf(f, t, m)
    ensures FilesOf(Sealed(f, t, m)) == ManifestPaths(m) + OWN_NAMES
  {
    var s := Sealed(f, t, m);
    SealedDigest(f, t, m);
    hide IsSha256, DigestBytes, SafeRelativePath, Join, Legal, DigestOf, ManifestPaths, IsManifestOf;
    OwnNames();
    forall name ensures name in FilesOf(s) <==> name in ManifestPaths(m) + OWN_NAMES {
      if p :| p in s && name == Join(p) {
        if p in ListedSet(t) {
          ManifestNamesListed(f, t, m, p);
        } else {
          assert p == MANIFEST || p == DIGEST;
        }
      }
      if name in ManifestPaths(m) {
        ManifestNamesOnlyListed(f, t, m, name);
        var p :| p in ListedSet(t) && name == Join(p);
        assert p in s && s[p].File?;
      }
      assert Join(MANIFEST) in FilesOf(s) && Join(DIGEST) in FilesOf(s);
    }
  }

  lemma OwnNames()
    ensures Legal(MANIFEST) && Legal(DIGEST) && MANIFEST != DIGEST
    ensures OWN_NAMES == {Join(MANIFEST), Join(DIGEST)}
  {
    assert Component("manifest.json") && Component("manifest.sha256");
    OwnPaths(MANIFEST);
  }

  lemma SealedAccepted(f: Functions, t: Tree, m: BundleManifest)
    requires HashLaw(f) && LegalTree(t) && SafeNames(t) && NoLinks(t) && IsManifestOf(f, t, m)
    requires f.parseManifest(f.printManifest(m)) == Some(m)
    ensures ManifestIn(f, Sealed(f, t, m)) == Some(m) && ManifestAccepted(f, Sealed(f, t, m))
  {
    SealedDigest(f, t, m);
    SealedKeepsListed(f, t, m);
    SealedKeys(f, t, m);
    EntriesAccepted(f, t, Sealed(f, t, m), m);
    SealedFiles(f, t, m);
    hide IsSha256, Sealed, DigestOf, ManifestPaths, IsManifestOf, FilesOf, EntryAccepted, ListedSet, NoLinks, SafeNames, LegalTree;
  }

  lemma SealedTwice(f: Functions, t: Tree, m: BundleManifest)
    requires HashLaw(f)
    ensures Sealed(f, Sealed(f, t, m), m) == Sealed(f, t, m)
  {
    hide IsSha256, DigestBytes;
  }

  /**
    * Round trip: sealing a link-free tree of safe names leaves a tree whose manifest part verifies
    * with the same digest, and which seals to the same manifest and the same files again.
    */
  lemma SealThenVerify(f: Functions, t: Tree, m: BundleManifest)
    requires HashLaw(f) && ManifestLaw(f) && LegalTree(t) && SafeNames(t) && NoLinks(t) && Sealable(f, t) && IsManifestOf(f, t, m)
    ensures var s := Sealed(f, t, m);
            && ManifestAccepted(f, s) && ManifestIn(f, s) == Some(m)
            && DigestOf(s) == Some(f.sha256(f.printManifest(m)))
            && IsManifestOf(f, s, m) && Sealable(f, s) && Sealed(f, s, m) == s
  {
    assert f.parseManifest(f.printManifest(m)) == Some(m) by {
      hide IsManifestOf, ValidBundleManifest, OrdersAgree, EntryAllowed;
      ManifestValidExactly(f, t, m);
    }
    SealedDigest(f, t, m);
    SealedAccepted(f, t, m);
    SealedSameManifest(f, t, m);
    SealedSealable(f, t, m);
    SealedTwice(f, t, m);
    hide *;
  }

  lemma SealedSealable(f: Functions, t: Tree, m: BundleManifest)
    requires HashLaw(f) && NoLinks(t) && Sealable(f, t)
    ensures Sealable(f, Sealed(f, t, m))
  {
    SealedKeepsListed(f, t, m);
    var s := Sealed(f, t, m);
    hide IsSha256, DigestBytes, Sealed, OrdersAgree, ValidEntry, EntryFor;
    SealedKeys(f, t, m);
    forall p | p in s ensures EntryAllowed(f, s, p) {
      if Listed(s, p) {
        assert p in ListedSet(s);
        assert EntryAllowed(f, t, p);
      }
    }
  }

  lemma SealedKeys(f: Functions, t: Tree, m: BundleManifest)
    requires HashLaw(f)
    ensures var s := Sealed(f, t, m);
            && s.Keys == t.Keys + {MANIFEST, DIGEST}
            && (NoLinks(t) ==> NoLinks(s))
            && (IsDirectory(s, MANIFEST) <==> IsDirectory(t, MANIFEST))
            && (IsDirectory(s, DIGEST) <==> IsDirectory(t, DIGEST))
  {
    hide IsSha256, DigestBytes;
    var s := Sealed(f, t, m);
    assert forall q | MANIFEST < q || DIGEST < q :: q in s <==> q in t;
  }

  /* ---- Tamper evidence ---- */

  /** The first entry whose file differs between two trees. */
  function DifferingFile(t: Tree, u: Tree, m: BundleManifest): Option<(Bytes, Bytes)> {
    if m == [] then None
    else
      var p := SafeRelativePath(m[0].path);
      if p.Ok? && Regular(t, p.value) && Regular(u, p.value) && t[p.value].content != u[p.value].content then
        Some((t[p.value].content, u[p.value].content))
      else
        DifferingFile(t, u, m[1..])
  }

  /** Two byte strings to show for, if the trees are not the same. */
  function ExtractCollision(f: Functions, t: Tree, u: Tree): Option<(Bytes, Bytes)>
    requires Regular(t, MANIFEST) && Regular(u, MANIFEST)
  {
    var a, b := t[MANIFEST].content, u[MANIFEST].content;
    if a != b then Some((a, b))
    else match f.parseManifest(a)
    case None => None
    case Some(m) => DifferingFile(t, u, m)
  }

  /** The file a name leads to, if there is one, is the same in both trees. */
  predicate SameFile(t: Tree, u: Tree, name: string) {
    var p := SafeRelativePath(name);
    p.Ok? ==> p.value in t && p.value in u && t[p.value] == u[p.value]
  }

  /** Without links, an accepted entry names a file of the tree itself. */
  lemma EntryInPlace(f: Functions, t: Tree, e: ManifestEntry)
    requires NoLinks(t) && EntryAccepted(f, t, e)
    ensures var p := SafeRelativePath(e.path).value;
            Regular(t, p) && |t[p].content| == e.sizeBytes && f.sha256(t[p].content) == e.sha256
  {
    hide SafeRelativePath, FileAt;
    FileAtWithoutLinks(t, SafeRelativePath(e.path).value);
  }

  lemma {:induction false} DifferingFileCollides(f: Functions, t: Tree, u: Tree, m: BundleManifest)
    requires NoLinks(t) && NoLinks(u)
    requires forall i | 0 <= i < |m| :: EntryAccepted(f, t, m[i]) && EntryAccepted(f, u, m[i])
    ensures match DifferingFile(t, u, m)
            case Some((a, b)) => Collision(f, a, b)
            case None => forall i | 0 <= i < |m| :: SameFile(t, u, m[i].path)
  {
    hide SafeRelativePath;
    if m != [] {
      EntryInPlace(f, t, m[0]);
      EntryInPlace(f, u, m[0]);
      DifferingFileCollides(f, t, u, m[1..]);
    }
  }

  /** In an accepted tree, every path is the manifest, its digest, or named by the manifest. */
  lemma AcceptedPaths(f: Functions, t: Tree, p: Path)
    requires LegalTree(t) && ManifestAccepted(f, t)
    ensures p in t <==> p == MANIFEST || p == DIGEST ||
                        exists i :: 0 <= i < |ManifestIn(f, t).value| && SafeRelativePath(ManifestIn(f, t).value[i].path) == Ok(p)
  {
    var m := ManifestIn(f, t).value;
    hide Join, Legal, DigestIn, SafeRelativePath;
    if p in t && p != MANIFEST && p != DIGEST {
      OwnPaths(p);
      assert Join(p) in FilesOf(t);
      assert Join(p) in ManifestPaths(m);
      var i :| 0 <= i < |m| && m[i].path == Join(p);
      assert EntryAccepted(f, t, m[i]);
      var q := SafeRelativePath(m[i].path).value;
      SafeExactly(m[i].path, q);
      JoinInjective(p, q);
    }
    if i :| 0 <= i < |m| && SafeRelativePath(m[i].path) == Ok(p) {
      EntryInPlace(f, t, m[i]);
    }
    if p == DIGEST {
      assert DigestOf(t).Some?;
    }
  }

  /** The three ways the same digest line can be spelled. */
  predicate SameDigestLine(a: Bytes, b: Bytes, d: string)
    requires IsSha256(d)
  {
    && (a == DigestLine(d) + [10] || a == DigestLine(d) + [13] || a == DigestLine(d) + [13, 10])
    && (b == DigestLine(d) + [10] || b == DigestLine(d) + [13] || b == DigestLine(d) + [13, 10])
  }

  /**
    * Tamper evidence: two trees that verify with the same digest hold the same files with the same
    * bytes, up to the line end of the digest file, or the extracted pair is a hash collision.
    */
  lemma SameDigestSameBundle(f: Functions, t: Tree, u: Tree)
    requires LegalTree(t) && LegalTree(u) && HashLaw(f)
    requires ManifestAccepted(f, t) && ManifestAccepted(f, u) && DigestOf(t) == DigestOf(u)
    ensures match ExtractCollision(f, t, u)
            case Some((a, b)) => Collision(f, a, b)
            case None =>
              && t.Keys == u.Keys
              && (forall p | p in t && p != DIGEST :: t[p] == u[p])
              && SameDigestLine(t[DIGEST].content, u[DIGEST].content, f.sha256(t[MANIFEST].content))
  {
    var a, b := t[MANIFEST].content, u[MANIFEST].content;
    if a == b {
      var m := ManifestIn(f, t).value;
      DifferingFileCollides(f, t, u, m);
      if DifferingFile(t, u, m).None? {
        SameFiles(f, t, u);
        DigestSpellings(t[DIGEST].content, f.sha256(a));
        DigestSpellings(u[DIGEST].content, f.sha256(a));
      }
    }
  }

  lemma SameFiles(f: Functions, t: Tree, u: Tree)
    requires LegalTree(t) && LegalTree(u) && ManifestAccepted(f, t) && ManifestAccepted(f, u)
    requires t[MANIFEST].content == u[MANIFEST].content
    requires forall i | 0 <= i < |ManifestIn(f, t).value| :: SameFile(t, u, ManifestIn(f, t).value[i].path)
    ensures t.Keys == u.Keys
    ensures forall p | p in t && p != DIGEST :: t[p] == u[p]
  {
    assert ManifestIn(f, t) == ManifestIn(f, u) && t[MANIFEST] == u[MANIFEST];
    var m := ManifestIn(f, t).value;
    forall p ensures p in t <==> p in u {
      AcceptedPaths(f, t, p);
      AcceptedPaths(f, u, p);
    }
    forall p | p in t && p != DIGEST ensures t[p] == u[p] {
      AcceptedPaths(f, t, p);
      if p != MANIFEST {
        var i :| 0 <= i < |m| && SafeRelativePath(m[i].path) == Ok(p);
      }
    }
  }
}
