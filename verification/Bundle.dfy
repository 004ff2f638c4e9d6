/** Bundle directories, their manifest, and the digest file that seals it. */
module Bundle {
  import opened Prelude
  import opened Paths
  import opened Library

  /** What a name in a directory tree stands for; a file link may lead nowhere, a directory link leads to more names. */
  datatype Entry = File(content: Bytes) | FileLink(target: Option<Bytes>) | DirectoryLink(below: map<Path, Entry>)

  /** A directory's files and links, by their path below it. */
  type Tree = map<Path, Entry>

  predicate LegalTree(t: Tree) {
    forall p | p in t :: Legal(p)
  }

  predicate Regular(t: Tree, p: Path) {
    p in t && t[p].File?
  }

  /** `is_file()`, which follows links. */
  predicate IsFile(t: Tree, p: Path) {
    p in t && (t[p].File? || (t[p].FileLink? && t[p].target.Some?))
  }

  /** What the host finds under a path, following directory links on the way. */
  function Lookup(t: Tree, p: Path): Option<Entry>
    decreases |p|, |p| + 1
  {
    if p in t then Some(t[p]) else LookupThrough(t, p, 1)
  }

  /** The same, through the first link that stands for at least `k` leading components. */
  function LookupThrough(t: Tree, p: Path, k: nat): Option<Entry>
    requires k > 0
    decreases |p|, |p| - k
  {
    if k >= |p| then None
    else if p[..k] in t && t[p[..k]].DirectoryLink? then Lookup(t[p[..k]].below, p[k..])
    else LookupThrough(t, p, k + 1)
  }

  /** The bytes of a file that `is_file()` and `is_symlink()` call a file and no link. */
  function FileAt(t: Tree, p: Path): Option<Bytes> {
    match Lookup(t, p)
    case Some(File(content)) => Some(content)
    case _ => None
  }

  /** `read_bytes()`, which follows every link. */
  function ReadBytes(t: Tree, p: Path): Option<Bytes> {
    match Lookup(t, p)
    case Some(File(content)) => Some(content)
    case Some(FileLink(target)) => target
    case _ => None
  }

  predicate NoLinks(t: Tree) {
    forall p | p in t :: t[p].File?
  }

  lemma {:induction false} LookupWithoutLinks(t: Tree, p: Path, k: nat)
    requires NoLinks(t) && k > 0
    ensures LookupThrough(t, p, k) == None
    decreases |p| - k
  {
    if k < |p| {
      LookupWithoutLinks(t, p, k + 1);
    }
  }

  /** Where there are no links, a file is found exactly under its own path. */
  lemma FileAtWithoutLinks(t: Tree, p: Path)
    requires NoLinks(t)
    ensures FileAt(t, p) == ReadBytes(t, p) == if p in t then Some(t[p].content) else None
  {
    LookupWithoutLinks(t, p, 1);
  }

  /** A file that stands in the tree itself is found whatever links there are. */
  lemma FileInPlace(t: Tree, p: Path)
    requires Regular(t, p)
    ensures FileAt(t, p) == ReadBytes(t, p) == Some(t[p].content)
  {
  }

  /** A directory stands at the path, because something lies below it. */
  predicate IsDirectory(t: Tree, p: Path) {
    exists q | q in t :: p < q
  }

  /** No directory can stand above the path, because something else does. */
  predicate Blocked(t: Tree, p: Path) {
    exists q | q in t :: q < p && !t[q].DirectoryLink?
  }

  /** The path leads through no link. */
  predicate Direct(t: Tree, p: Path) {
    forall q | q in t && q < p :: !t[q].DirectoryLink?
  }

  const MANIFEST: Path := ["manifest.json"]
  const DIGEST: Path := ["manifest.sha256"]
  const OWN_NAMES: set<string> := {"manifest.json", "manifest.sha256"}

  lemma OwnPaths(p: Path)
    requires Legal(p)
    ensures Legal(MANIFEST) && Legal(DIGEST) && MANIFEST != DIGEST
    ensures Join(MANIFEST) == "manifest.json" && Join(DIGEST) == "manifest.sha256"
    ensures Join(p) in OWN_NAMES <==> p == MANIFEST || p == DIGEST
  {
    assert Component("manifest.json") && Component("manifest.sha256");
    assert "manifest.json"[9] != "manifest.sha256"[9];
    if Join(p) == Join(MANIFEST) {
      JoinInjective(p, MANIFEST);
    }
    if Join(p) == Join(DIGEST) {
      JoinInjective(p, DIGEST);
    }
  }

  /* ---- The digest file ---- */

  const DIGEST_SUFFIX := "  manifest.json"

  function Ascii(s: string): Bytes
    requires forall i | 0 <= i < |s| :: s[i] as int < 128
  {
    seq(|s|, i requires 0 <= i < |s| => s[i] as byte)
  }

  /** Decoding as ASCII; a text-mode read then makes every line end "\n". */
  function AsciiText(b: Bytes): Option<string> {
    if exists i | 0 <= i < |b| :: b[i] >= 128 then None
    else Some(seq(|b|, i requires 0 <= i < |b| => b[i] as char))
  }

  function UniversalNewlines(s: string): string
    decreases |s|
  {
    if s == "" then ""
    else if s[0] == '\r' then "\n" + UniversalNewlines(if |s| > 1 && s[1] == '\n' then s[2..] else s[1..])
    else [s[0]] + UniversalNewlines(s[1..])
  }

  /** The digest a digest file's bytes hold, if they match the required form. */
  function DigestIn(b: Bytes): Option<string> {
    match AsciiText(b)
    case None => None
    case Some(raw) =>
      var s := UniversalNewlines(raw);
      if |s| > 64 && s[64..] == DIGEST_SUFFIX + "\n" && IsSha256(s[..64]) then Some(s[..64]) else None
  }

  lemma Sha256IsAscii(d: string)
    requires IsSha256(d)
    ensures forall i | 0 <= i < |d| :: d[i] as int < 128 && d[i] != '\n' && d[i] != '\r'
  {
    forall i | 0 <= i < |d| ensures d[i] as int < 128 && d[i] != '\n' && d[i] != '\r' {
      assert IsLowerHex(d[i]);
    }
  }

  lemma SuffixIsAscii()
    ensures forall i | 0 <= i < |DIGEST_SUFFIX| :: DIGEST_SUFFIX[i] as int < 128 && DIGEST_SUFFIX[i] != '\n' && DIGEST_SUFFIX[i] != '\r'
  {
  }

  /** The line the digest file holds, without its end. */
  function DigestLine(d: string): Bytes
    requires IsSha256(d)
  {
    Sha256IsAscii(d);
    SuffixIsAscii();
    Ascii(d + DIGEST_SUFFIX)
  }

  /** It is the digest, two blanks, and the manifest's name. */
  lemma DigestLineExactly(d: string)
    requires IsSha256(d)
    ensures |DigestLine(d)| == 79 && forall i | 0 <= i < 64 :: DigestLine(d)[i] as char == d[i]
    ensures DigestLine(d)[64..] == [32, 32, 109, 97, 110, 105, 102, 101, 115, 116, 46, 106, 115, 111, 110]
  {
    Sha256IsAscii(d);
    SuffixIsAscii();
    assert DigestLine(d)[64..] == Ascii(DIGEST_SUFFIX);
  }

  /** The bytes `write_manifest` puts into the digest file. */
  function DigestBytes(d: string): Bytes
    requires IsSha256(d)
  {
    DigestLine(d) + [10]
  }

  /** Text that ends in its only line break comes from one of three spellings of that break. */
  lemma {:induction false} OneLine(s: string, line: string)
    requires '\n' !in line && '\r' !in line
    ensures UniversalNewlines(s) == line + "\n" <==> s == line + "\n" || s == line + "\r" || s == line + "\r\n"
    decreases |s|
  {
    if s != "" {
      if line == "" {
        NewlineOnly(s);
        assert line + "\n" == "\n" && line + "\r" == "\r" && line + "\r\n" == "\r\n";
      } else {
        OneLine(s[1..], line[1..]);
        assert line + "\n" == [line[0]] + (line[1..] + "\n");
        assert line + "\r" == [line[0]] + (line[1..] + "\r");
        assert line + "\r\n" == [line[0]] + (line[1..] + "\r\n");
        assert s == [s[0]] + s[1..];
        SameHead(s[0], s[1..], line[0], line[1..] + "\n");
        SameHead(s[0], s[1..], line[0], line[1..] + "\r");
        SameHead(s[0], s[1..], line[0], line[1..] + "\r\n");
        if s[0] == '\r' {
          assert UniversalNewlines(s)[0] == '\n';
          assert line[0] in line;
        } else {
          SameHead(s[0], UniversalNewlines(s[1..]), line[0], line[1..] + "\n");
        }
      }
    }
  }

  lemma SameHead(a: char, s: string, b: char, t: string)
    ensures [a] + s == [b] + t <==> a == b && s == t
  {
    assert ([a] + s)[1..] == s && ([b] + t)[1..] == t;
    assert ([a] + s)[0] == a && ([b] + t)[0] == b;
  }

  lemma NewlineOnly(s: string)
    requires s != ""
    ensures UniversalNewlines(s) == "\n" <==> s == "\n" || s == "\r" || s == "\r\n"
  {
    var rest := if s[0] == '\r' && |s| > 1 && s[1] == '\n' then s[2..] else s[1..];
    assert UniversalNewlines(s) == [if s[0] == '\r' then '\n' else s[0]] + UniversalNewlines(rest);
    SameHead(if s[0] == '\r' then '\n' else s[0], UniversalNewlines(rest), '\n', "");
    assert "\n" == ['\n'] + "";
    assert UniversalNewlines(rest) == "" <==> rest == "";
  }

  /** A digest file is accepted in exactly three spellings: newline, carriage return, or both. */
  lemma DigestSpellings(b: Bytes, d: string)
    ensures DigestIn(b) == Some(d) <==>
            IsSha256(d) && (b == DigestLine(d) + [10] || b == DigestLine(d) + [13] || b == DigestLine(d) + [13, 10])
  {
    SuffixIsAscii();
    if IsSha256(d) {
      Sha256IsAscii(d);
      var line := d + DIGEST_SUFFIX;
      forall end: string | end == "\n" || end == "\r" || end == "\r\n"
        ensures AsciiText(b) == Some(line + end) <==> b == DigestLine(d) + Ascii(end)
      {
        AsciiTextExactly(b, line + end);
        assert Ascii(line + end) == DigestLine(d) + Ascii(end);
      }
      assert Ascii("\n") == [10] && Ascii("\r") == [13] && Ascii("\r\n") == [13, 10];
      if AsciiText(b).Some? {
        var raw := AsciiText(b).value;
        var s := UniversalNewlines(raw);
        OneLine(raw, line);
        DigestText(s, d);
      }
    }
  }

  lemma DigestText(s: string, d: string)
    requires IsSha256(d)
    ensures s == d + DIGEST_SUFFIX + "\n" <==> |s| > 64 && s[64..] == DIGEST_SUFFIX + "\n" && s[..64] == d
  {
    var t := d + DIGEST_SUFFIX + "\n";
    assert t[..64] == d && t[64..] == DIGEST_SUFFIX + "\n";
    if |s| > 64 {
      assert s == s[..64] + s[64..];
      assert d + (DIGEST_SUFFIX + "\n") == t;
    }
  }

  lemma AsciiTextExactly(b: Bytes, s: string)
    requires forall i | 0 <= i < |s| :: s[i] as int < 128
    ensures AsciiText(b) == Some(s) <==> b == Ascii(s)
  {
    if AsciiText(b) == Some(s) {
      assert forall i | 0 <= i < |b| :: s[i] == b[i] as char;
      assert b == Ascii(s);
    }
    if b == Ascii(s) {
      assert forall i | 0 <= i < |b| :: b[i] == s[i] as byte && b[i] < 128;
      assert AsciiText(b).value == s;
    }
  }

  /* ---- Listings ---- */

  /** The paths of a set in the order `sorted(rglob("*"))` gives them. */
  predicate IsListing(r: seq<Path>, s: set<Path>) {
    && (forall i, j | 0 <= i < j < |r| :: PathLess(r[i], r[j]))
    && (forall p | p in s :: p in r)
    && (forall i | 0 <= i < |r| :: r[i] in s)
  }

  lemma ListingHead(r: seq<Path>, s: set<Path>, q: Path)
    requires IsListing(r, s) && r != [] && q in s
    ensures q == r[0] || PathLess(r[0], q)
  {
  }

  lemma ListingTail(r: seq<Path>, s: set<Path>)
    requires IsListing(r, s) && r != []
    ensures IsListing(r[1..], s - {r[0]})
  {
    forall i | 1 <= i < |r| ensures r[i] != r[0] {
      PathLessTotal(r[0], r[i]);
    }
    assert forall p | p in s - {r[0]} :: p in r[1..];
  }

  /** A set has one listing. */
  lemma {:induction false} ListingUnique(r: seq<Path>, q: seq<Path>, s: set<Path>)
    requires IsListing(r, s) && IsListing(q, s)
    ensures r == q
    decreases |r|
  {
    if r == [] {
      assert s == {};
    } else {
      assert r[0] in q;
      ListingHead(r, s, q[0]);
      ListingHead(q, s, r[0]);
      PathLessTotal(r[0], q[0]);
      ListingTail(r, s);
      ListingTail(q, s);
      ListingUnique(r[1..], q[1..], s - {r[0]});
      assert r == [r[0]] + r[1..] && q == [q[0]] + q[1..];
    }
  }

  /** Where a path belongs in a sorted list. */
  method Insert(r: seq<Path>, s: set<Path>, p: Path) returns (t: seq<Path>)
    requires IsListing(r, s) && p !in s
    ensures IsListing(t, s + {p})
  {
    hide PathLess;
    var i := 0;
    while i < |r| && PathLess(r[i], p)
      invariant 0 <= i <= |r|
      invariant forall j | 0 <= j < i :: PathLess(r[j], p)
    {
      i := i + 1;
    }
    t := r[..i] + [p] + r[i..];
    forall j | i <= j < |r| ensures PathLess(p, r[j]) {
      assert r[j] in s;
      PathLessTotal(r[i], p);
      if i < j {
        PathLessTransitive(p, r[i], r[j]);
      }
    }
    forall q | q in s + {p} ensures q in t {
      if q == p {
        assert t[i] == p;
      } else {
        var k :| 0 <= k < |r| && r[k] == q;
        assert t[if k < i then k else k + 1] == q;
      }
    }
  }

  method Sorted(s: set<Path>) returns (r: seq<Path>)
    ensures IsListing(r, s)
  {
    r := [];
    var rest := s;
    while rest != {}
      invariant rest <= s
      invariant IsListing(r, s - rest)
      decreases rest
    {
      var p :| p in rest;
      r := Insert(r, s - rest, p);
      assert s - rest + {p} == s - (rest - {p});
      rest := rest - {p};
    }
    assert s - rest == s;
  }

  /* ---- Manifest entries ---- */

  function ContentOf(t: Tree, p: Path): Bytes {
    if Regular(t, p) then t[p].content else []
  }

  function EntryFor(f: Functions, t: Tree, p: Path): ManifestEntry {
    ManifestEntry(Join(p), f.sha256(ContentOf(t, p)), |ContentOf(t, p)|)
  }

  /** A path the manifest lists. */
  predicate Listed(t: Tree, p: Path) {
    Regular(t, p) && p != MANIFEST && p != DIGEST
  }

  function ListedSet(t: Tree): set<Path> {
    set p | p in t && Listed(t, p)
  }

  /** The entries for a list of paths. */
  function EntriesFor(f: Functions, t: Tree, r: seq<Path>): BundleManifest {
    seq(|r|, i requires 0 <= i < |r| => EntryFor(f, t, r[i]))
  }

  /** The manifest of a tree: one entry for each listed path, in path order. */
  ghost predicate IsManifestOf(f: Functions, t: Tree, m: BundleManifest) {
    exists r :: IsListing(r, ListedSet(t)) && m == EntriesFor(f, t, r)
  }

  datatype ManifestError = SymlinkedFile | RecordRefused | HostRefused

  /** A link to an existing file is the one thing that stops the walk. */
  predicate LinksToFile(t: Tree, p: Path) {
    p in t && t[p].FileLink? && t[p].target.Some?
  }

  predicate EntryAllowed(f: Functions, t: Tree, p: Path) {
    Listed(t, p) ==> ValidEntry(EntryFor(f, t, p))
  }

  /** The listed paths among the first `n` of a listing. */
  ghost function ListedAmong(t: Tree, listing: seq<Path>, n: nat): set<Path>
    requires n <= |listing|
  {
    set p | p in listing[..n] && Listed(t, p)
  }

  lemma ListedAmongGrows(t: Tree, listing: seq<Path>, n: nat)
    requires n < |listing|
    ensures ListedAmong(t, listing, n + 1) == ListedAmong(t, listing, n) + if Listed(t, listing[n]) then {listing[n]} else {}
  {
    assert listing[..n + 1] == listing[..n] + [listing[n]];
  }

  lemma ListingGrows(t: Tree, listing: seq<Path>, n: nat, paths: seq<Path>)
    requires IsListing(listing, t.Keys) && n < |listing| && IsListing(paths, ListedAmong(t, listing, n)) && Listed(t, listing[n])
    ensures IsListing(paths + [listing[n]], ListedAmong(t, listing, n + 1))
  {
    hide PathLess, Listed;
    ListedAmongGrows(t, listing, n);
    forall i | 0 <= i < |paths| ensures PathLess(paths[i], listing[n]) {
      assert paths[i] in listing[..n];
    }
  }

  lemma WholeListing(t: Tree, listing: seq<Path>)
    requires IsListing(listing, t.Keys)
    ensures ListedAmong(t, listing, |listing|) == ListedSet(t)
    ensures forall p | p in t :: exists i :: 0 <= i < |listing| && listing[i] == p
  {
    hide PathLess;
    assert listing[..|listing|] == listing;
  }

  /** `_manifest_entries`. */
  method ManifestEntries(f: Functions, t: Tree) returns (r: Result<BundleManifest, ManifestError>)
    ensures r.Ok? <==> forall p | p in t :: !LinksToFile(t, p) && EntryAllowed(f, t, p)
    ensures r.Ok? ==> IsManifestOf(f, t, r.value)
  {
    var listing := Sorted(t.Keys);
    ListingMembers(listing, t.Keys);
    WholeListing(t, listing);
    hide ValidEntry, EntryFor, EntriesFor, Join, PathLess, IsListing, ListedAmong, ListedSet;
    var entries := [];
    ghost var paths: seq<Path> := [];
    NothingListed(f, t, listing);
    for n := 0 to |listing|
      invariant entries == EntriesFor(f, t, paths)
      invariant IsListing(paths, ListedAmong(t, listing, n))
      invariant forall i | 0 <= i < n :: !LinksToFile(t, listing[i]) && EntryAllowed(f, t, listing[i])
    {
      var path := listing[n];
      ListedAmongGrows(t, listing, n);
      if !IsFile(t, path) {
        assert !Listed(t, path);
        continue;
      }
      if !Regular(t, path) {
        return Err(SymlinkedFile);
      }
      if path == MANIFEST || path == DIGEST {
        assert !Listed(t, path);
        continue;
      }
      var entry := EntryFor(f, t, path);
      if !ValidEntry(entry) {
        return Err(RecordRefused);
      }
      ListingGrows(t, listing, n, paths);
      EntriesGrow(f, t, paths, path);
      entries := entries + [entry];
      paths := paths + [path];
    }
    forall p | p in t ensures !LinksToFile(t, p) && EntryAllowed(f, t, p) {
      var i :| 0 <= i < |listing| && listing[i] == p;
    }
    r := Ok(entries);
  }

  lemma NothingListed(f: Functions, t: Tree, listing: seq<Path>)
    ensures IsListing([], ListedAmong(t, listing, 0)) && EntriesFor(f, t, []) == []
  {
  }

  lemma EntriesGrow(f: Functions, t: Tree, r: seq<Path>, p: Path)
    ensures EntriesFor(f, t, r + [p]) == EntriesFor(f, t, r) + [EntryFor(f, t, p)]
  {
    hide EntryFor;
  }

  /* ---- When the manifest is a manifest ---- */

  /** No two listed paths are ordered differently as paths and as texts. */
  predicate OrdersAgree(s: set<Path>) {
    forall p, q | p in s && q in s :: !OrderConflict(p, q)
  }

  lemma {:induction false} ConflictSymmetric(a: Path, b: Path)
    ensures OrderConflict(a, b) <==> OrderConflict(b, a)
    decreases |a|
  {
    if a != [] && b != [] && a[0] == b[0] {
      ConflictSymmetric(a[1..], b[1..]);
    }
  }

  lemma ListedTextOrder(p: Path, q: Path)
    requires Legal(p) && Legal(q) && PathLess(p, q)
    ensures Join(p) != Join(q)
    ensures !StringLess(Join(q), Join(p)) <==> !OrderConflict(p, q)
  {
    PathLessTotal(p, q);
    if Join(p) == Join(q) {
      JoinInjective(p, q);
    }
    OrderAgreement(p, q);
    StringLessTotal(Join(p), Join(q));
  }

  /**
    * The sorted listing satisfies the manifest's own validator exactly when there is something to
    * list, every entry is allowed, and no two listed paths are in conflict.
    */
  lemma ManifestValidExactly(f: Functions, t: Tree, m: BundleManifest)
    requires LegalTree(t) && IsManifestOf(f, t, m)
    ensures ValidBundleManifest(m) <==>
            ListedSet(t) != {} && (forall p | p in t :: EntryAllowed(f, t, p)) && OrdersAgree(ListedSet(t))
  {
    hide ValidEntry, EntryFor, EntriesFor, IsListing, OrdersAgree, EntryAllowed, StringLess, ListedSet;
    var r :| IsListing(r, ListedSet(t)) && m == EntriesFor(f, t, r);
    EntriesAllowed(f, t, r);
    ListedOrders(f, t, r);
  }

  /** A listing covers the tree: its entries are allowed exactly when every listed path's entry is. */
  lemma EntriesAllowed(f: Functions, t: Tree, r: seq<Path>)
    requires IsListing(r, ListedSet(t))
    ensures var m := EntriesFor(f, t, r);
            && (m != [] <==> ListedSet(t) != {})
            && ((forall i | 0 <= i < |m| :: ValidEntry(m[i])) <==> forall p | p in t :: EntryAllowed(f, t, p))
  {
    ListingMembers(r, ListedSet(t));
    hide ValidEntry, EntryFor, IsListing, Listed;
    var m := EntriesFor(f, t, r);
    assert forall i | 0 <= i < |r| :: m[i] == EntryFor(f, t, r[i]) && r[i] in ListedSet(t);
    if ListedSet(t) != {} {
      var p :| p in ListedSet(t);
    }
    if m != [] {
      assert r[0] in ListedSet(t);
    }
    if forall i | 0 <= i < |m| :: ValidEntry(m[i]) {
      forall p | p in t && Listed(t, p) ensures ValidEntry(EntryFor(f, t, p)) {
        assert p in ListedSet(t);
        var i :| 0 <= i < |r| && r[i] == p;
        assert ValidEntry(m[i]);
      }
    }
  }

  lemma ListingMembers(r: seq<Path>, s: set<Path>)
    requires IsListing(r, s)
    ensures forall p | p in s :: exists i :: 0 <= i < |r| && r[i] == p
    ensures forall i | 0 <= i < |r| :: r[i] in s
  {
  }

  /** Entries in path order are in text order, and distinct, exactly when no pair conflicts. */
  lemma ListedOrders(f: Functions, t: Tree, r: seq<Path>)
    requires LegalTree(t) && IsListing(r, ListedSet(t))
    ensures var m := EntriesFor(f, t, r);
            && (forall i, j | 0 <= i < j < |m| :: m[i].path != m[j].path)
            && ((forall i, j | 0 <= i < j < |m| :: !StringLess(m[j].path, m[i].path)) <==> OrdersAgree(ListedSet(t)))
  {
    hide PathLess, StringLess, OrderConflict, Legal, Join;
    var m := EntriesFor(f, t, r);
    assert forall i | 0 <= i < |r| :: m[i].path == Join(r[i]);
    forall i, j | 0 <= i < j < |r|
      ensures m[i].path != m[j].path
      ensures !StringLess(m[j].path, m[i].path) <==> !OrderConflict(r[i], r[j])
    {
      ListedTextOrder(r[i], r[j]);
    }
    if forall i, j | 0 <= i < j < |m| :: !StringLess(m[j].path, m[i].path) {
      forall p, q | p in ListedSet(t) && q in ListedSet(t) ensures !OrderConflict(p, q) {
        var i :| 0 <= i < |r| && r[i] == p;
        var j :| 0 <= j < |r| && r[j] == q;
        ConflictSymmetric(p, q);
        SelfNoConflict(p);
      }
    }
  }

  lemma {:induction false} SelfNoConflict(p: Path)
    ensures !OrderConflict(p, p)
    decreases |p|
  {
    if p != [] {
      SelfNoConflict(p[1..]);
    }
  }

  lemma ManifestUnique(f: Functions, t: Tree, m: BundleManifest, n: BundleManifest)
    requires IsManifestOf(f, t, m) && IsManifestOf(f, t, n)
    ensures m == n
  {
    hide PathLess, EntryFor, IsListing;
    var r :| IsListing(r, ListedSet(t)) && m == EntriesFor(f, t, r);
    var q :| IsListing(q, ListedSet(t)) && n == EntriesFor(f, t, q);
    ListingUnique(r, q, ListedSet(t));
  }

  /* ---- Sealing ---- */

  /** The tree with its manifest and digest written. */
  function Sealed(f: Functions, t: Tree, m: BundleManifest): Tree
    requires IsSha256(f.sha256(f.printManifest(m)))
  {
    t[MANIFEST := File(f.printManifest(m))][DIGEST := File(DigestBytes(f.sha256(f.printManifest(m))))]
  }

  /** Exactly the trees `write_manifest` can seal. */
  predicate Sealable(f: Functions, t: Tree) {
    && (forall p | p in t :: !LinksToFile(t, p) && EntryAllowed(f, t, p))
    && ListedSet(t) != {} && OrdersAgree(ListedSet(t))
    && !IsDirectory(t, MANIFEST) && !IsDirectory(t, DIGEST)
  }

  /** A file the manifest is to list. */
  predicate ToBeListed(t: Tree, p: Path) {
    p in t && t[p].File? && p != ["manifest.json"] && p != ["manifest.sha256"]
  }

  /**
    * What can be sealed, written out: no link leads to a file, every file to be listed has a name of at
    * most 500 characters, there is such a file, no two of them are in conflict, and no directory
    * stands where manifest and digest go.
    */
  lemma SealableExactly(f: Functions, t: Tree)
    requires HashLaw(f)
    ensures Sealable(f, t) <==>
            && (forall p | p in t :: !(t[p].FileLink? && t[p].target.Some?))
            && (forall p | ToBeListed(t, p) :: 1 <= |Join(p)| <= 500)
            && (exists p :: ToBeListed(t, p))
            && (forall p, q | ToBeListed(t, p) && ToBeListed(t, q) :: !OrderConflict(p, q))
            && forall p | p in t :: !(["manifest.json"] < p) && !(["manifest.sha256"] < p)
  {
    forall p ensures ToBeListed(t, p) <==> p in ListedSet(t) {}
    forall p | p in t ensures EntryAllowed(f, t, p) <==> (ToBeListed(t, p) ==> 1 <= |Join(p)| <= 500) {
      assert IsSha256(f.sha256(ContentOf(t, p)));
    }
    assert (exists p :: ToBeListed(t, p)) <==> ListedSet(t) != {};
    OwnPlacesFree(t);
    hide Join, OrderConflict, IsSha256, ToBeListed, ListedSet, EntryAllowed, IsDirectory;
  }

  lemma OwnPlacesFree(t: Tree)
    ensures !IsDirectory(t, MANIFEST) && !IsDirectory(t, DIGEST) <==>
            forall p | p in t :: !(["manifest.json"] < p) && !(["manifest.sha256"] < p)
  {
  }

  lemma NothingAbove(t: Tree, p: Path)
    requires [] !in t && |p| == 1
    ensures Direct(t, p) && !Blocked(t, p)
  {
  }

  class BundleDirectory {
    var tree: Tree

    constructor (t: Tree)
      ensures tree == t
    {
      tree := t;
    }

    /**
      * `atomic_write_bytes`, seen from outside: the file is replaced, unless a directory is in its
      * place or no directory can be above it.
      */
    method AtomicWrite(path: Path, content: Bytes) returns (ok: bool)
      requires Direct(tree, path)
      modifies this
      ensures ok <==> !Blocked(old(tree), path) && !IsDirectory(old(tree), path)
      ensures tree == if ok then old(tree)[path := File(content)] else old(tree)
    {
      ok := !Blocked(tree, path) && !IsDirectory(tree, path);
      if ok {
        tree := tree[path := File(content)];
      }
    }

    /** `write_manifest`. */
    method WriteManifest(f: Functions) returns (r: Result<(BundleManifest, string), ManifestError>)
      requires LegalTree(tree) && HashLaw(f)
      modifies this
      ensures r.Ok? <==> Sealable(f, old(tree))
      ensures r.Ok? ==>
                && IsManifestOf(f, old(tree), r.value.0) && ValidBundleManifest(r.value.0)
                && r.value.1 == f.sha256(f.printManifest(r.value.0))
                && tree == Sealed(f, old(tree), r.value.0)
    {
      hide IsManifestOf, ValidBundleManifest, IsSha256, DigestBytes, OrdersAgree;
      var entries := ManifestEntries(f, tree);
      if entries.Err? {
        return Err(entries.error);
      }
      var manifest := entries.value;
      ManifestValidExactly(f, tree, manifest);
      if !ValidBundleManifest(manifest) {
        return Err(RecordRefused);
      }
      var content := f.printManifest(manifest);
      NothingAbove(tree, MANIFEST);
      var wrote := AtomicWrite(MANIFEST, content);
      if !wrote {
        return Err(HostRefused);
      }
      var digest := f.sha256(content);
      assert IsSha256(digest);
      assert !(DIGEST < MANIFEST);
      assert forall q | DIGEST < q :: q in tree <==> q in old(tree);
      NothingAbove(tree, DIGEST);
      wrote := AtomicWrite(DIGEST, DigestBytes(digest));
      if !wrote {
        return Err(HostRefused);
      }
      r := Ok((manifest, digest));
    }
  }
}
