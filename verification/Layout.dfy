/** The nine files of a bundle: where they stand, and why their names are safe and in order. */
module Layout {
  import opened Prelude
  import opened Paths
  import opened Evidence
  import opened Library
  import opened Bundle
  import opened Verification
  import opened Sealing

  datatype Place =
    | UntrustedPackage
    | TrustedPackage
    | RawFile(role: Role)
    | TrustedKey
    | RunLog
    | EvidenceFile
    | ReportFile

  const RUN_LOG: Path := ["run.log"]

  const PLACES: set<Place> := {UntrustedPackage, TrustedPackage, RawFile(Vulnerable), RawFile(Patched),
                               RawFile(PositiveControl), TrustedKey, RunLog, EvidenceFile, ReportFile}

  function At(x: Place): Path {
    match x
    case UntrustedPackage => UNTRUSTED_PACKAGE
    case TrustedPackage => TRUSTED_PACKAGE
    case RawFile(role) => RawParts(role)
    case TrustedKey => TRUSTED_KEY
    case RunLog => RUN_LOG
    case EvidenceFile => EVIDENCE
    case ReportFile => REPORT
  }

  function Name(x: Place): string {
    match x
    case UntrustedPackage => "packages/untrusted-update.json"
    case TrustedPackage => "packages/trusted-update.json"
    case RawFile(role) => RawPath(role)
    case TrustedKey => "trust/trusted-public-key.pem"
    case RunLog => "run.log"
    case EvidenceFile => "evidence.json"
    case ReportFile => "report.html"
  }

  /** A name made of plain characters. */
  predicate Plain(c: string) {
    2 <= |c| <= 100 && '/' !in c && '\\' !in c && ':' !in c && c[0] != '.'
  }

  lemma OneName(c: string)
    requires Plain(c)
    ensures Legal([c]) && Join([c]) == c && |c| <= 500 && SafeRelativePath(c) == Ok([c])
  {
    SafeExactly(c, [c]);
  }

  lemma TwoNames(a: string, b: string, name: string)
    requires Plain(a) && Plain(b) && name == a + "/" + b
    ensures Legal([a, b]) && Join([a, b]) == name && |name| <= 500 && SafeRelativePath(name) == Ok([a, b])
  {
    assert [a, b][1..] == [b];
    assert name[1] == a[1];
    SafeExactly(name, [a, b]);
  }

  predicate WellPlaced(x: Place) {
    && Legal(At(x)) && Join(At(x)) == Name(x) && 1 <= |Name(x)| <= 500
    && SafeRelativePath(Name(x)) == Ok(At(x))
  }

  lemma PlainPackages()
    ensures Plain("packages") && Plain("untrusted-update.json") && Plain("trusted-update.json")
  {
  }

  lemma PlainRaw()
    ensures Plain("raw") && Plain("vulnerable.json") && Plain("patched.json") && Plain("positive-control.json")
  {
  }

  lemma PlainOthers()
    ensures Plain("trust") && Plain("trusted-public-key.pem") && Plain("run.log") && Plain("evidence.json") && Plain("report.html")
  {
  }

  lemma UntrustedIsSafe()
    ensures WellPlaced(UntrustedPackage)
  {
    PlainPackages();
    hide Plain, Legal, Join, SafeRelativePath;
    TwoNames("packages", "untrusted-update.json", "packages/untrusted-update.json");
  }

  lemma TrustedIsSafe()
    ensures WellPlaced(TrustedPackage)
  {
    PlainPackages();
    hide Plain, Legal, Join, SafeRelativePath;
    TwoNames("packages", "trusted-update.json", "packages/trusted-update.json");
  }

  lemma VulnerableIsSafe()
    ensures WellPlaced(RawFile(Vulnerable))
  {
    PlainRaw();
    hide Plain, Legal, Join, SafeRelativePath;
    TwoNames("raw", "vulnerable.json", "raw/vulnerable.json");
  }

  lemma PatchedIsSafe()
    ensures WellPlaced(RawFile(Patched))
  {
    PlainRaw();
    hide Plain, Legal, Join, SafeRelativePath;
    TwoNames("raw", "patched.json", "raw/patched.json");
  }

  lemma ControlIsSafe()
    ensures WellPlaced(RawFile(PositiveControl))
  {
    PlainRaw();
    hide Plain, Legal, Join, SafeRelativePath;
    TwoNames("raw", "positive-control.json", "raw/positive-control.json");
  }

  lemma OtherIsSafe(x: Place)
    requires x.TrustedKey? || x.RunLog? || x.EvidenceFile? || x.ReportFile?
    ensures WellPlaced(x)
  {
    PlainOthers();
    hide Plain, Legal, Join, SafeRelativePath;
    match x
    case TrustedKey =>
      assert "trust" + "/" + "trusted-public-key.pem" == Name(x);
      TwoNames("trust", "trusted-public-key.pem", Name(x));
    case RunLog => OneName("run.log");
    case EvidenceFile => OneName("evidence.json");
    case ReportFile => OneName("report.html");
  }

  lemma PlaceIsSafe(x: Place)
    ensures WellPlaced(x)
  {
    hide WellPlaced;
    match x
    case UntrustedPackage => UntrustedIsSafe();
    case TrustedPackage => TrustedIsSafe();
    case RawFile(Vulnerable) => VulnerableIsSafe();
    case RawFile(Patched) => PatchedIsSafe();
    case RawFile(PositiveControl) => ControlIsSafe();
    case _ => OtherIsSafe(x);
  }

  /** Two numbers that tell any two of the paths apart. */
  function Measure(p: Path): (int, int)
    requires p != [] && p[0] != ""
  {
    (|p[0]| * 1000 + |p[|p| - 1]|, p[0][0] as int)
  }

  lemma PlacesDiffer(x: Place, y: Place)
    requires At(x) == At(y)
    ensures x == y
  {
    MeasureOf(x);
    MeasureOf(y);
    hide At, Measure;
  }

  lemma NotOwn(x: Place)
    ensures At(x) != MANIFEST && At(x) != DIGEST && !(MANIFEST < At(x)) && !(DIGEST < At(x))
    ensures Name(x) !in OWN_NAMES
  {
    HeadOf(x);
    PlaceIsSafe(x);
    OwnPaths(At(x));
    hide At, Name, Legal, Join, SafeRelativePath;
    assert At(x)[0][0] == Head(x)[0];
    assert MANIFEST[0][0] == 'm' && DIGEST[0][0] == 'm';
  }

  lemma MeasureOf(x: Place)
    ensures var p := At(x);
            && p != [] && p[0] != ""
            && Measure(p) == match x
                             case UntrustedPackage => (8021, 'p' as int)
                             case TrustedPackage => (8019, 'p' as int)
                             case RawFile(Vulnerable) => (3015, 'r' as int)
                             case RawFile(Patched) => (3012, 'r' as int)
                             case RawFile(PositiveControl) => (3021, 'r' as int)
                             case TrustedKey => (5022, 't' as int)
                             case RunLog => (7007, 'r' as int)
                             case EvidenceFile => (13013, 'e' as int)
                             case ReportFile => (11011, 'r' as int)
  {
  }

  /** Names of at most two components whose first components differ early never conflict. */
  lemma NoConflict(a: Path, b: Path)
    requires 1 <= |a| <= 2 && 1 <= |b| <= 2 && |a[0]| >= 2 && |b[0]| >= 2
    requires a[0] != b[0] ==> a[0][..2] != b[0][..2]
    ensures !OrderConflict(a, b)
  {
    if a[0] != b[0] {
      PrefixHead(a[0], b[0]);
      PrefixHead(b[0], a[0]);
    } else {
      LastNames(a[1..], b[1..]);
    }
  }

  lemma PrefixHead(a: string, b: string)
    requires |a| >= 2 && |b| >= 2
    ensures a < b ==> a[..2] == b[..2]
  {
  }

  lemma LastNames(a: Path, b: Path)
    requires |a| <= 1 && |b| <= 1
    ensures !OrderConflict(a, b)
  {
    if a != [] {
      assert a[1..] == [];
    }
  }

  function Head(x: Place): string {
    match x
    case UntrustedPackage => "pa"
    case TrustedPackage => "pa"
    case RawFile(_) => "ra"
    case TrustedKey => "tr"
    case RunLog => "ru"
    case EvidenceFile => "ev"
    case ReportFile => "re"
  }

  lemma HeadOf(x: Place)
    ensures 1 <= |At(x)| <= 2 && |At(x)[0]| >= 2 && At(x)[0][..2] == Head(x)
  {
  }

  lemma HeadsTell(x: Place, y: Place)
    requires Head(x) == Head(y)
    ensures At(x)[0] == At(y)[0]
  {
    assert Head(x)[0] == Head(y)[0] && Head(x)[1] == Head(y)[1];
  }

  lemma PlacesInOrder(x: Place, y: Place)
    ensures !OrderConflict(At(x), At(y))
  {
    HeadOf(x);
    HeadOf(y);
    if Head(x) == Head(y) {
      HeadsTell(x, y);
    }
    hide At;
    NoConflict(At(x), At(y));
  }

  /** The tree that holds the given bytes at some of the places. */
  function PartOf(content: Place -> Bytes, places: set<Place>): Tree {
    PlacesAreApart();
    map x | x in places :: At(x) := File(content(x))
  }

  /** The tree that holds the given bytes at every place. */
  function TreeOf(content: Place -> Bytes): Tree {
    PartOf(content, PLACES)
  }

  lemma PlacesAreApart()
    ensures forall x, y | At(x) == At(y) :: x == y
  {
    forall x, y | At(x) == At(y) ensures x == y {
      PlacesDiffer(x, y);
    }
  }

  lemma AllPlaces(x: Place)
    ensures x in PLACES
  {
    match x
    case RawFile(role) =>
      match role {
        case Vulnerable =>
        case Patched =>
        case PositiveControl =>
      }
    case _ =>
  }

  lemma PartAt(content: Place -> Bytes, places: set<Place>, x: Place)
    ensures At(x) in PartOf(content, places) <==> x in places
    ensures x in places ==> PartOf(content, places)[At(x)] == File(content(x))
  {
    PlacesAreApart();
    hide At;
  }

  lemma TreeAt(content: Place -> Bytes, x: Place)
    ensures Regular(TreeOf(content), At(x)) && TreeOf(content)[At(x)].content == content(x)
    ensures Listed(TreeOf(content), At(x))
  {
    hide At, PartOf;
    AllPlaces(x);
    NotOwn(x);
    PartAt(content, PLACES, x);
  }

  lemma PlacesNotNested(x: Place, y: Place)
    ensures !(At(x) < At(y))
  {
    HeadOf(x);
    HeadOf(y);
    if Head(x) == Head(y) {
      assert |At(x)| == |At(y)|;
    }
    hide At;
  }

  /** Writing one more file of a layout. */
  method WriteAt(dir: BundleDirectory, ghost content: Place -> Bytes, ghost done: set<Place>, x: Place, bytes: Bytes)
    requires dir.tree == PartOf(content, done) && bytes == content(x)
    modifies dir
    ensures dir.tree == PartOf(content, done + {x})
  {
    hide At;
    forall p | p in dir.tree ensures !(At(x) < p) && !(p < At(x)) {
      var y :| y in done && At(y) == p;
      PlacesNotNested(x, y);
      PlacesNotNested(y, x);
    }
    PlacesAreApart();
    var ok := dir.AtomicWrite(At(x), bytes);
    assert ok;
    PartGrows(content, done, x);
  }

  lemma PartGrows(content: Place -> Bytes, done: set<Place>, x: Place)
    ensures PartOf(content, done + {x}) == PartOf(content, done)[At(x) := File(content(x))]
  {
    hide At;
    PlacesAreApart();
  }

  /** Files at any of the places meet every condition that `write_manifest` and the path check pose. */
  lemma PartIsSealable(f: Functions, content: Place -> Bytes, places: set<Place>)
    requires HashLaw(f) && places != {}
    ensures var t := PartOf(content, places); LegalTree(t) && NoLinks(t) && SafeNames(t) && Sealable(f, t)
  {
    var t := PartOf(content, places);
    hide At, Legal, Join, SafeRelativePath, OrderConflict, IsSha256;
    forall p | p in t
      ensures Legal(p) && t[p].File? && SafeRelativePath(Join(p)) == Ok(p) && EntryAllowed(f, t, p)
      ensures exists x :: p == At(x)
    {
      var x :| x in places && At(x) == p;
      PlaceIsSafe(x);
    }
    forall p, q | p in t && q in t ensures !OrderConflict(p, q) {
      var x :| p == At(x);
      var y :| q == At(y);
      PlacesInOrder(x, y);
    }
    var x :| x in places;
    PartAt(content, places, x);
    NotOwn(x);
    assert At(x) in ListedSet(t);
    OwnFilesFree(content, places);
  }

  /** So does the whole layout. */
  lemma LayoutIsSealable(f: Functions, content: Place -> Bytes)
    requires HashLaw(f)
    ensures var t := TreeOf(content); LegalTree(t) && NoLinks(t) && SafeNames(t) && Sealable(f, t)
  {
    AllPlaces(RunLog);
    PartIsSealable(f, content, PLACES);
    hide PartOf, LegalTree, NoLinks, SafeNames, Sealable;
  }

  /* ---- How many files there are ---- */

  lemma {:induction false} ListingLength(r: seq<Path>, s: set<Path>)
    requires IsListing(r, s)
    ensures |r| == |s|
    decreases |r|
  {
    hide PathLess;
    if r == [] {
      assert s == {};
    } else {
      ListingTail(r, s);
      ListingLength(r[1..], s - {r[0]});
    }
  }

  lemma {:induction false} ManyPlaces(content: Place -> Bytes, places: set<Place>)
    ensures |PartOf(content, places)| == |places|
    decreases places
  {
    hide At;
    PlacesAreApart();
    if places == {} {
      assert PartOf(content, places) == map[];
    } else {
      var x :| x in places;
      ManyPlaces(content, places - {x});
      PartAt(content, places - {x}, x);
      PartGrows(content, places - {x}, x);
      assert places - {x} + {x} == places;
    }
  }

  /** The manifest of a whole layout has nine entries. */
  lemma NineEntries(f: Functions, content: Place -> Bytes, m: BundleManifest)
    requires IsManifestOf(f, TreeOf(content), m)
    ensures |m| == 9
  {
    var t := TreeOf(content);
    hide At, PartOf, IsListing, EntryFor, PathLess;
    var r :| IsListing(r, ListedSet(t)) && m == EntriesFor(f, t, r);
    ListingLength(r, ListedSet(t));
    ManyPlaces(content, PLACES);
    assert ListedSet(t) == t.Keys by { AllListed(content); }
  }

  lemma AllListed(content: Place -> Bytes)
    ensures ListedSet(TreeOf(content)) == TreeOf(content).Keys
  {
    hide At;
    forall p | p in TreeOf(content) ensures Listed(TreeOf(content), p) {
      var x :| x in PLACES && At(x) == p;
      TreeAt(content, x);
    }
  }

  lemma OwnFilesFree(content: Place -> Bytes, places: set<Place>)
    ensures !IsDirectory(PartOf(content, places), MANIFEST) && !IsDirectory(PartOf(content, places), DIGEST)
  {
    forall p | p in PartOf(content, places) ensures !(MANIFEST < p) && !(DIGEST < p) {
      var x :| x in places && At(x) == p;
      NotOwn(x);
    }
  }

  /* ---- What verification sees of a sealed layout ---- */

  predicate ShowsAt(t: Tree, paths: set<string>, content: Place -> Bytes, x: Place) {
    Regular(t, At(x)) && t[At(x)].content == content(x) && Name(x) in paths
  }

  /** Every file is in place, holds the given bytes, and is named by the manifest. */
  ghost predicate Shows(t: Tree, paths: set<string>, content: Place -> Bytes) {
    forall x :: ShowsAt(t, paths, content, x)
  }

  lemma SealedShows(f: Functions, content: Place -> Bytes, m: BundleManifest)
    requires HashLaw(f) && IsManifestOf(f, TreeOf(content), m)
    ensures Shows(Sealed(f, TreeOf(content), m), ManifestPaths(m), content)
  {
    LayoutIsSealable(f, content);
    hide ShowsAt, Sealed, TreeOf, ManifestPaths, IsManifestOf, IsSha256, LegalTree, SafeNames, NoLinks, Sealable;
    forall x ensures ShowsAt(Sealed(f, TreeOf(content), m), ManifestPaths(m), content, x) {
      SealedShowsAt(f, content, m, x);
    }
  }

  lemma SealedShowsAt(f: Functions, content: Place -> Bytes, m: BundleManifest, x: Place)
    requires HashLaw(f) && LegalTree(TreeOf(content)) && SafeNames(TreeOf(content)) && IsManifestOf(f, TreeOf(content), m)
    ensures ShowsAt(Sealed(f, TreeOf(content), m), ManifestPaths(m), content, x)
  {
    var t := TreeOf(content);
    SealedKeepsListed(f, t, m);
    TreeAt(content, x);
    PlaceIsSafe(x);
    hide At, Name, Sealed, TreeOf, ManifestPaths, IsManifestOf, IsSha256, LegalTree, SafeNames, Join, SafeRelativePath;
    assert At(x) in ListedSet(t);
    ManifestNamesListed(f, t, m, At(x));
  }
}
