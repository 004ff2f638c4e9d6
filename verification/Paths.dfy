/** Relative POSIX paths: the safety check, and the two orders the bundle code sorts by. */
module Paths {
  import opened Prelude

  /** A path as the list of its components. */
  type Path = seq<string>

  /** A name a directory entry can have. */
  predicate Component(c: string) {
    c != "" && '/' !in c && c != "." && c != ".."
  }

  predicate Legal(p: Path) {
    p != [] && forall i | 0 <= i < |p| :: Component(p[i])
  }

  function Join(p: Path): string {
    if p == [] then "" else if |p| == 1 then p[0] else p[0] + "/" + Join(p[1..])
  }

  /* ---- Parsing ---- */

  /** The text before the first '/'. */
  function FirstName(s: string): (n: string)
    ensures n <= s && '/' !in n
    ensures |n| < |s| ==> s[|n|] == '/'
  {
    if s == "" || s[0] == '/' then "" else
      var n := FirstName(s[1..]);
      assert s[1..][..|n|] == n;
      [s[0]] + n
  }

  function Split(s: string): seq<string>
    decreases |s|
  {
    var n := FirstName(s);
    if |n| == |s| then [n] else [n] + Split(s[|n| + 1..])
  }

  function Meaningful(names: seq<string>): seq<string> {
    if names == [] then []
    else if names[0] == "" || names[0] == "." then Meaningful(names[1..])
    else [names[0]] + Meaningful(names[1..])
  }

  /** `PurePosixPath(value).parts` of a relative value: empty and "." components vanish. */
  function Parts(s: string): seq<string> {
    Meaningful(Split(s))
  }

  predicate IsAbsolute(s: string) {
    s != "" && s[0] == '/'
  }

  predicate HasDrivePrefix(s: string) {
    |s| >= 2 && ('A' <= s[0] <= 'Z' || 'a' <= s[0] <= 'z') && s[1] == ':'
  }

  datatype PathError = Backslash | DriveLetter | Absolute | UnsafeComponent | NotNormalized

  /** `_safe_relative_path`. */
  function SafeRelativePath(value: string): Result<Path, PathError> {
    if '\\' in value then Err(Backslash)
    else if HasDrivePrefix(value) then Err(DriveLetter)
    else if IsAbsolute(value) then Err(Absolute)
    else
      var parts := Parts(value);
      if parts == [] || ".." in parts || "." in parts then Err(UnsafeComponent)
      else if Join(parts) != value then Err(NotNormalized)
      else Ok(parts)
  }

  /** The first fault is the one reported. */
  lemma FaultsExactly(value: string)
    ensures var r := SafeRelativePath(value);
            var drive := |value| >= 2 && value[1] == ':' && ('A' <= value[0] <= 'Z' || 'a' <= value[0] <= 'z');
            && (r == Err(Backslash) <==> '\\' in value)
            && (r == Err(DriveLetter) <==> '\\' !in value && drive)
            && (r == Err(Absolute) <==> '\\' !in value && !drive && value != "" && value[0] == '/')
            && (r == Err(UnsafeComponent) ==> Parts(value) == [] || ".." in Parts(value) || "." in Parts(value))
            && (r == Err(NotNormalized) ==> Parts(value) != [] && Join(Parts(value)) != value)
  {
    hide Parts, Join;
  }

  /* ---- What the check accepts ---- */

  lemma FirstNameOf(c: string, rest: string)
    requires '/' !in c
    ensures FirstName(c) == c
    ensures FirstName(c + "/" + rest) == c
  {
    if c != "" {
      assert c[1..] + "/" + rest == (c + "/" + rest)[1..];
      FirstNameOf(c[1..], rest);
    }
  }

  lemma {:induction false} SplitJoin(p: Path)
    requires Legal(p)
    ensures Split(Join(p)) == p
  {
    var s := Join(p);
    if |p| == 1 {
      FirstNameOf(p[0], "");
      assert p == [p[0]];
    } else {
      FirstNameOf(p[0], Join(p[1..]));
      assert s[|p[0]| + 1..] == Join(p[1..]);
      SplitJoin(p[1..]);
      assert p == [p[0]] + p[1..];
    }
  }

  lemma {:induction false} AllMeaningful(p: Path)
    requires forall i | 0 <= i < |p| :: Component(p[i])
    ensures Meaningful(p) == p
  {
    if p != [] {
      AllMeaningful(p[1..]);
      assert p == [p[0]] + p[1..];
    }
  }

  /** Joining loses nothing: the parts of a legal path's text are the path. */
  lemma PartsJoin(p: Path)
    requires Legal(p)
    ensures Parts(Join(p)) == p
  {
    SplitJoin(p);
    AllMeaningful(p);
  }

  lemma JoinInjective(p: Path, q: Path)
    requires Legal(p) && Legal(q) && Join(p) == Join(q)
    ensures p == q
  {
    PartsJoin(p);
    PartsJoin(q);
  }

  lemma {:induction false} SplitNames(s: string, i: nat)
    requires i < |Split(s)|
    ensures '/' !in Split(s)[i]
    decreases |s|
  {
    if i > 0 {
      SplitNames(s[|FirstName(s)| + 1..], i - 1);
    }
  }

  lemma {:induction false} MeaningfulNames(names: seq<string>, i: nat)
    requires i < |Meaningful(names)|
    requires forall j | 0 <= j < |names| :: '/' !in names[j]
    ensures var c := Meaningful(names)[i]; c != "" && '/' !in c && c != "."
  {
    if names[0] == "" || names[0] == "." {
      MeaningfulNames(names[1..], i);
    } else if i > 0 {
      MeaningfulNames(names[1..], i - 1);
    }
  }

  lemma PartsAreComponents(s: string)
    requires Parts(s) != [] && ".." !in Parts(s)
    ensures Legal(Parts(s))
  {
    forall j | 0 <= j < |Split(s)| ensures '/' !in Split(s)[j] {
      SplitNames(s, j);
    }
    forall i | 0 <= i < |Parts(s)| ensures Component(Parts(s)[i]) {
      MeaningfulNames(Split(s), i);
    }
  }

  lemma JoinIsRelative(p: Path)
    requires Legal(p)
    ensures !IsAbsolute(Join(p))
  {
    assert p[0] != "" && p[0][0] != '/';
  }

  /**
    * The check accepts exactly the texts of legal component lists that have no backslash and no
    * drive prefix, and it returns that list.
    */
  lemma SafeExactly(value: string, p: Path)
    ensures SafeRelativePath(value) == Ok(p) <==>
            && Legal(p) && value == Join(p) && '\\' !in value
            && !(|value| >= 2 && value[1] == ':' && ('A' <= value[0] <= 'Z' || 'a' <= value[0] <= 'z'))
  {
    if SafeRelativePath(value) == Ok(p) {
      PartsAreComponents(value);
    }
    if Legal(p) && value == Join(p) {
      PartsJoin(p);
      JoinIsRelative(p);
      assert ".." !in p && "." !in p;
    }
  }

  lemma SafeDistinct(v: string, w: string)
    requires SafeRelativePath(v).Ok? && SafeRelativePath(w).Ok?
    ensures SafeRelativePath(v) == SafeRelativePath(w) <==> v == w
  {
    SafeExactly(v, SafeRelativePath(v).value);
    SafeExactly(w, SafeRelativePath(w).value);
  }

  /** Following a path lexically: ".." steps back to the parent. */
  function Resolve(at: Path, p: Path): Path
    decreases |p|
  {
    if p == [] then at
    else if p[0] == ".." then Resolve(if at == [] then [] else at[..|at| - 1], p[1..])
    else if p[0] == "." || p[0] == "" then Resolve(at, p[1..])
    else Resolve(at + [p[0]], p[1..])
  }

  lemma {:induction false} ResolveLegal(at: Path, p: Path)
    requires forall i | 0 <= i < |p| :: Component(p[i])
    ensures Resolve(at, p) == at + p
    decreases |p|
  {
    if p != [] {
      ResolveLegal(at + [p[0]], p[1..]);
      assert at + [p[0]] + p[1..] == at + p;
    }
  }

  /** An accepted path leads strictly below whatever root it is joined to. */
  lemma SafeStaysBelow(root: Path, value: string)
    requires SafeRelativePath(value).Ok?
    ensures root < Resolve(root, SafeRelativePath(value).value)
  {
    var p := SafeRelativePath(value).value;
    SafeExactly(value, p);
    ResolveLegal(root, p);
  }

  /* ---- Orders ---- */

  /** Python's `<` on strings. */
  predicate StringLess(a: string, b: string) {
    b != "" && (a == "" || a[0] < b[0] || (a[0] == b[0] && StringLess(a[1..], b[1..])))
  }

  /** Python's `<` on `Path` objects: component by component. */
  predicate PathLess(a: Path, b: Path) {
    b != [] && (a == [] || StringLess(a[0], b[0]) || (a[0] == b[0] && PathLess(a[1..], b[1..])))
  }

  /** The first names differ, the first is a proper prefix of the second and goes on below it. */
  predicate Overtaken(a: Path, b: Path) {
    && |a| > 1 && b != []
    && a[0] < b[0]
    && b[0][|a[0]|] < '/'
  }

  /** The pairs, at their first differing component, on which the two orders disagree. */
  predicate OrderConflict(a: Path, b: Path) {
    a != [] && b != [] &&
    if a[0] == b[0] then OrderConflict(a[1..], b[1..]) else Overtaken(a, b) || Overtaken(b, a)
  }

  lemma {:induction false} CommonPrefix(c: string, a: string, b: string)
    ensures StringLess(c + a, c + b) <==> StringLess(a, b)
  {
    if c == "" {
      assert c + a == a && c + b == b;
    } else {
      assert (c + a)[1..] == c[1..] + a && (c + b)[1..] == c[1..] + b;
      CommonPrefix(c[1..], a, b);
    }
  }

  /** Texts that differ before either ends keep their order whatever follows. */
  lemma {:induction false} DifferInside(a: string, b: string, s: string, t: string)
    requires a != b && !(a <= b) && !(b <= a)
    ensures StringLess(a + s, b + t) <==> StringLess(a, b)
  {
    if a[0] == b[0] {
      assert (a + s)[1..] == a[1..] + s && (b + t)[1..] == b[1..] + t;
      assert a[1..] <= b[1..] ==> a <= b;
      assert b[1..] <= a[1..] ==> b <= a;
      DifferInside(a[1..], b[1..], s, t);
    }
  }

  lemma {:induction false} PrefixLess(a: string, b: string)
    requires a < b
    ensures StringLess(a, b) && !StringLess(b, a)
  {
    if a != "" {
      assert a[1..] < b[1..];
      PrefixLess(a[1..], b[1..]);
    }
  }

  lemma {:induction false} StringLessTotal(a: string, b: string)
    ensures a == b || StringLess(a, b) || StringLess(b, a)
    ensures !(StringLess(a, b) && StringLess(b, a))
  {
    if a != "" && b != "" && a[0] == b[0] {
      StringLessTotal(a[1..], b[1..]);
      assert a == [a[0]] + a[1..] && b == [b[0]] + b[1..];
    }
  }

  lemma {:induction false} PathLessTotal(a: Path, b: Path)
    ensures a == b || PathLess(a, b) || PathLess(b, a)
    ensures !(PathLess(a, b) && PathLess(b, a))
  {
    if a != [] && b != [] {
      StringLessTotal(a[0], b[0]);
      if a[0] == b[0] {
        PathLessTotal(a[1..], b[1..]);
        assert a == [a[0]] + a[1..] && b == [b[0]] + b[1..];
      }
    }
  }

  lemma {:induction false} StringLessTransitive(a: string, b: string, c: string)
    requires StringLess(a, b) && StringLess(b, c)
    ensures StringLess(a, c)
  {
    if a != "" && a[0] == b[0] == c[0] {
      StringLessTransitive(a[1..], b[1..], c[1..]);
    }
  }

  lemma {:induction false} PathLessTransitive(a: Path, b: Path, c: Path)
    requires PathLess(a, b) && PathLess(b, c)
    ensures PathLess(a, c)
  {
    if a != [] {
      if StringLess(a[0], b[0]) && StringLess(b[0], c[0]) {
        StringLessTransitive(a[0], b[0], c[0]);
      } else if a[0] == b[0] == c[0] {
        PathLessTransitive(a[1..], b[1..], c[1..]);
      }
    }
  }

  /** What a path's text continues with after its first name. */
  function Continuation(p: Path): string
    requires p != []
  {
    if |p| == 1 then "" else "/" + Join(p[1..])
  }

  lemma JoinContinuation(p: Path)
    requires p != []
    ensures Join(p) == p[0] + Continuation(p)
  {
  }

  /** The first names differ, and the first is a proper prefix of the second. */
  lemma PrefixNameAgreement(a: Path, b: Path)
    requires Legal(a) && Legal(b) && a[0] < b[0]
    ensures PathLess(a, b) && !PathLess(b, a)
    ensures StringLess(Join(a), Join(b)) <==> !Overtaken(a, b)
    ensures StringLess(Join(b), Join(a)) <==> Overtaken(a, b)
  {
    var tail := b[0][|a[0]|..] + Continuation(b);
    PrefixLess(a[0], b[0]);
    JoinContinuation(a);
    JoinContinuation(b);
    assert Join(b) == a[0] + tail;
    CommonPrefix(a[0], Continuation(a), tail);
    CommonPrefix(a[0], tail, Continuation(a));
    assert tail[0] == b[0][|a[0]|];
    assert tail[0] in b[0];
    assert Component(b[0]);
  }

  lemma DifferentNamesAgreement(a: Path, b: Path)
    requires Legal(a) && Legal(b) && a[0] != b[0] && !(a[0] <= b[0]) && !(b[0] <= a[0])
    ensures PathLess(a, b) <==> StringLess(Join(a), Join(b))
    ensures !OrderConflict(a, b)
  {
    JoinContinuation(a);
    JoinContinuation(b);
    DifferInside(a[0], b[0], Continuation(a), Continuation(b));
  }

  /**
    * Component order and text order agree on two paths exactly when the pair is not a conflict.
    */
  lemma {:induction false} OrderAgreement(a: Path, b: Path)
    requires Legal(a) && Legal(b)
    ensures (PathLess(a, b) <==> StringLess(Join(a), Join(b))) <==> !OrderConflict(a, b)
    decreases |a|
  {
    if a[0] != b[0] {
      if a[0] <= b[0] {
        PrefixNameAgreement(a, b);
      } else if b[0] <= a[0] {
        PrefixNameAgreement(b, a);
      } else {
        DifferentNamesAgreement(a, b);
      }
    } else {
      SameNameAgreement(a, b);
    }
  }

  lemma {:induction false} SameNameAgreement(a: Path, b: Path)
    requires Legal(a) && Legal(b) && a[0] == b[0]
    ensures (PathLess(a, b) <==> StringLess(Join(a), Join(b))) <==> !OrderConflict(a, b)
    decreases |a|, 0
  {
    var s, t := Continuation(a), Continuation(b);
    JoinContinuation(a);
    JoinContinuation(b);
    CommonPrefix(a[0], s, t);
    StringLessTotal(a[0], a[0]);
    if |a| > 1 && |b| > 1 {
      assert s[1..] == Join(a[1..]) && t[1..] == Join(b[1..]);
      OrderAgreement(a[1..], b[1..]);
    }
  }

  /** The pair named in the repository's own layout style: "raw/x" sorts after "raw.json" as text only. */
  lemma OrdersCanDiffer()
    ensures var a, b := ["raw", "x"], ["raw.json"];
            Legal(a) && Legal(b) && OrderConflict(a, b) && PathLess(a, b) && StringLess(Join(b), Join(a))
  {
    var a, b := ["raw", "x"], ["raw.json"];
    assert Component("raw") && Component("x") && Component("raw.json");
    assert a[0] < b[0] && b[0][3] == '.';
    PrefixNameAgreement(a, b);
  }
}
