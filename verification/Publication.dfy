/** Publishing by renames that can fail, and writing files that must never be seen half written. */
module Publication {
  import opened Prelude
  import opened Paths
  import opened Bundle
  import opened Verification
  import opened Output

  /** What a name on the disk stands for; a link may lead nowhere. */
  datatype Node = Folder(tree: Tree) | Plain(content: Bytes) | Link(resolves: bool)

  type Disk = map<Path, Node>

  /** `exists()`, which follows links. */
  predicate Exists(d: Disk, name: Path) {
    name in d && (d[name].Link? ==> d[name].resolves)
  }

  /** What a path on the disk is to `verify_bundle`, which resolves it to see whether it is inside the repository. */
  function RootAt(host: Host, repository: Path, d: Disk, path: Path): Root {
    if path !in d then NoDirectory
    else match d[path]
    case Folder(t) => Directory(t, Inside(host, repository, path))
    case Plain(_) => NoDirectory
    case Link(resolves) => if resolves then LinkedDirectory else NoDirectory
  }

  /** The three names a publication deals with; the backup's is drawn at random. */
  datatype Names = Names(staged: Path, destination: Path, backup: Path)

  predicate Ready(d: Disk, n: Names) {
    && n.staged in d && n.backup !in d
    && n.staged != n.destination && n.destination != n.backup
  }

  /** What the host refuses: the parent directory, each rename, and the removal after so many files. */
  datatype Faults = Faults(parent: bool, retire: bool, publish: bool, restore: bool, removal: Option<nat>)

  datatype PublishError = AlreadyExists | SymlinkDestination | HostError | NotPublished

  function Moved(d: Disk, source: Path, target: Path): Disk
    requires source in d
  {
    (d - {source})[target := d[source]]
  }

  /** A rename replaces an empty directory by a directory, and anything else by anything else. */
  predicate Replaceable(a: Node, b: Node) {
    if a.Folder? then b == Folder(map[]) else !b.Folder?
  }

  predicate RemovalCompletes(n: Node, stop: Option<nat>) {
    n.Folder? && (stop.Some? ==> stop.value > |n.tree|)
  }

  /** Nothing the publication needs is refused; what is replaced is a directory that can be removed. */
  predicate Publishable(d: Disk, n: Names, replace: bool, faults: Faults) {
    !faults.parent &&
    if n.destination !in d then !faults.publish
    else replace && !faults.retire && !faults.publish && RemovalCompletes(d[n.destination], faults.removal)
  }

  /** The new directory cannot take the old one's place, and the old one can be moved back. */
  predicate RolledBack(d: Disk, n: Names, replace: bool, faults: Faults) {
    && n.destination in d && replace && !d[n.destination].Link?
    && !faults.parent && !faults.retire && faults.publish && !faults.restore
  }

  /**
    * What a crash may leave: nothing partial at the destination, the old directory there or under
    * the backup name unless the new one took its place, and the new directory never lost.
    */
  ghost predicate Intact(pre: Disk, n: Names, now: Disk)
    requires n.staged in pre
  {
    && (n.destination in now ==>
          now[n.destination] == pre[n.staged] || (n.destination in pre && now[n.destination] == pre[n.destination]))
    && (n.destination in pre && n.destination !in now ==> n.backup in now && now[n.backup] == pre[n.destination])
    && ((n.staged in now && now[n.staged] == pre[n.staged]) || (n.destination in now && now[n.destination] == pre[n.staged]))
    && (forall name | name !in {n.staged, n.destination, n.backup} ::
          (name in now <==> name in pre) && (name in now ==> now[name] == pre[name]))
  }

  /** The destination has its new content, the old one is being removed. */
  predicate Published(pre: Disk, n: Names, now: Disk)
    requires n.staged in pre
  {
    now - {n.backup} == Moved(pre, n.staged, n.destination)
  }

  lemma PublishedIsIntact(pre: Disk, n: Names, now: Disk)
    requires Ready(pre, n) && Published(pre, n, now)
    ensures Intact(pre, n, now)
  {
    var rest := now - {n.backup};
    assert n.destination in rest && rest[n.destination] == pre[n.staged];
    forall name | name !in {n.staged, n.destination, n.backup}
      ensures (name in now <==> name in pre) && (name in now ==> now[name] == pre[name])
    {
      assert name in rest <==> name in now;
    }
  }

  /** The files of one tree, all in the other. */
  predicate Within(a: Tree, b: Tree) {
    forall p | p in a :: p in b && a[p] == b[p]
  }

  lemma OneLess(t: Tree, p: Path)
    requires p in t
    ensures |t - {p}| == |t| - 1 && Within(t - {p}, t)
  {
    assert t.Keys == (t - {p}).Keys + {p};
  }

  lemma WithinItself(t: Tree)
    ensures Within(t, t)
  {
  }

  lemma WithinTransitive(a: Tree, b: Tree, c: Tree)
    requires Within(a, b) && Within(b, c)
    ensures Within(a, c)
  {
  }

  /** The two disks differ at one name at most. */
  predicate SameElsewhere(a: Disk, b: Disk, name: Path) {
    a - {name} == b - {name}
  }

  lemma ElsewhereStart(d: Disk, name: Path)
    ensures SameElsewhere(d, d, name)
  {
  }

  lemma ElsewhereKept(now: Disk, pre: Disk, name: Path, node: Node)
    requires SameElsewhere(now, pre, name)
    ensures SameElsewhere(now[name := node], pre, name) && SameElsewhere(now - {name}, pre, name)
  {
    assert now[name := node] - {name} == now - {name};
  }

  /** Every state from a point on differs from the first at one name at most. */
  ghost predicate AllElsewhere(history: seq<Disk>, past: seq<Disk>, pre: Disk, name: Path) {
    |past| <= |history| && history[..|past|] == past && forall i | |past| <= i < |history| :: SameElsewhere(history[i], pre, name)
  }

  lemma OneMoreState(history: seq<Disk>, past: seq<Disk>, pre: Disk, name: Path, now: Disk)
    requires AllElsewhere(history, past, pre, name) && SameElsewhere(now, pre, name)
    ensures AllElsewhere(history + [now], past, pre, name)
  {
  }

  /** When the loop ends, nothing is left or the host has refused. */
  lemma RemovedUntil(n: Node, stop: Option<nat>, removed: nat, rest: Tree)
    requires n.Folder? && removed + |rest| == |n.tree| && (stop.Some? ==> removed <= stop.value)
    requires rest == map[] || stop == Some(removed)
    ensures RemovalCompletes(n, stop) <==> stop != Some(removed)
  {
  }

  /** A disk, and every state it has been in: the states a crash can leave behind. */
  class FileSystem {
    var disk: Disk
    ghost var history: seq<Disk>

    constructor (d: Disk)
      ensures disk == d && history == [d]
    {
      disk, history := d, [d];
    }

    method Rename(source: Path, target: Path, refused: bool) returns (ok: bool)
      requires source in disk
      modifies this
      ensures ok <==> !refused && (target !in old(disk) || Replaceable(old(disk)[source], old(disk)[target]))
      ensures disk == if ok then Moved(old(disk), source, target) else old(disk)
      ensures history == old(history) + [disk]
    {
      ok := !refused && (target !in disk || Replaceable(disk[source], disk[target]));
      if ok {
        disk := Moved(disk, source, target);
      }
      history := history + [disk];
    }

    /** One file of a directory. */
    method Unlink(name: Path, ghost rest: Tree, p: Path)
      requires name in disk && disk[name] == Folder(rest) && p in rest
      modifies this
      ensures disk == old(disk)[name := Folder(rest - {p})]
      ensures history == old(history) + [disk]
    {
      disk := disk[name := Folder(disk[name].tree - {p})];
      history := history + [disk];
    }

    /** `shutil.rmtree`: file by file, in no particular order, until the host refuses. */
    method RemoveTree(name: Path, stop: Option<nat>) returns (ok: bool)
      requires name in disk
      modifies this
      ensures ok <==> RemovalCompletes(old(disk)[name], stop)
      ensures SameElsewhere(disk, old(disk), name)
      ensures name in disk <==> !ok
      ensures !ok && old(disk)[name].Folder? ==> disk[name].Folder? && Within(disk[name].tree, old(disk)[name].tree)
      ensures AllElsewhere(history, old(history), old(disk), name)
    {
      ghost var pre, past := disk, history;
      assert AllElsewhere(history, past, pre, name);
      ElsewhereStart(disk, name);
      if !disk[name].Folder? {
        return false;
      }
      ok := RemoveFiles(name, stop);
      if ok {
        hide SameElsewhere, Within, AllElsewhere, RemovalCompletes;
        ghost var now, trace := disk, history;
        ElsewhereKept(now, pre, name, now[name]);
        disk := disk - {name};
        OneMoreState(trace, past, pre, name, disk);
        history := history + [disk];
      }
    }

    /** The files; the directory itself is left. */
    method RemoveFiles(name: Path, stop: Option<nat>) returns (ok: bool)
      requires name in disk && disk[name].Folder?
      modifies this
      ensures ok <==> RemovalCompletes(old(disk)[name], stop)
      ensures SameElsewhere(disk, old(disk), name)
      ensures name in disk && disk[name].Folder? && Within(disk[name].tree, old(disk)[name].tree)
      ensures AllElsewhere(history, old(history), old(disk), name)
    {
      ghost var pre, past := disk, history;
      ghost var all := disk[name].tree;
      assert AllElsewhere(history, past, pre, name);
      hide SameElsewhere, Within, AllElsewhere, RemovalCompletes;
      ElsewhereStart(disk, name);
      var rest := disk[name].tree;
      WithinItself(rest);
      var removed := 0;
      while rest != map[] && stop != Some(removed)
        invariant name in disk && disk[name] == Folder(rest)
        invariant SameElsewhere(disk, pre, name)
        invariant Within(rest, all)
        invariant removed + |rest| == |all|
        invariant stop.Some? ==> removed <= stop.value
        invariant AllElsewhere(history, past, pre, name)
        decreases |rest|
      {
        ghost var now, trace := disk, history;
        var p :| p in rest;
        Unlink(name, rest, p);
        OneLess(rest, p);
        WithinTransitive(rest - {p}, rest, all);
        rest := rest - {p};
        removed := removed + 1;
        ElsewhereKept(now, pre, name, Folder(rest));
        OneMoreState(trace, past, pre, name, disk);
      }
      ok := stop != Some(removed);
      RemovedUntil(pre[name], stop, removed, rest);
    }

    /** `publish_directory`. */
    method PublishDirectory(n: Names, replace: bool, faults: Faults) returns (r: Result<(), PublishError>)
      requires Ready(disk, n)
      modifies this
      ensures r == Err(AlreadyExists) <==>
              && !faults.parent && !replace
              && n.destination in old(disk) && (old(disk)[n.destination].Link? ==> old(disk)[n.destination].resolves)
      ensures r == Err(SymlinkDestination) <==>
              && !faults.parent && n.destination in old(disk) && old(disk)[n.destination].Link?
              && !(Exists(old(disk), n.destination) && !replace)
      ensures r.Ok? <==>
              !faults.parent &&
              if n.destination !in old(disk) then !faults.publish
              else
                && replace && !faults.retire && !faults.publish
                && RemovalCompletes(old(disk)[n.destination], faults.removal)
      ensures r == Err(NotPublished) <==>
              && n.destination in old(disk) && replace && !old(disk)[n.destination].Link?
              && !faults.parent && !faults.retire && faults.publish && !faults.restore
      ensures r.Ok? ==> disk == Moved(old(disk), n.staged, n.destination)
      ensures r.Err? && r.error != HostError ==> disk == old(disk)
      ensures r == Err(HostError) ==>
                || disk == old(disk)
                || (n.destination in old(disk) && disk == Moved(old(disk), n.destination, n.backup))
                || (Published(old(disk), n, disk) && n.backup in disk)
      ensures Intact(old(disk), n, disk)
      ensures |history| >= |old(history)| && history[..|old(history)|] == old(history)
      ensures forall i | |old(history)| <= i < |history| :: Intact(old(disk), n, history[i])
    {
      hide Intact;
      ghost var pre, past := disk, history;
      Untouched(pre, n);
      if faults.parent {
        return Err(HostError);
      }
      if Exists(disk, n.destination) && !replace {
        return Err(AlreadyExists);
      }
      if n.destination in disk && disk[n.destination].Link? {
        return Err(SymlinkDestination);
      }
      if !Exists(disk, n.destination) {
        FreshlyPublished(pre, n);
        var ok := Rename(n.staged, n.destination, faults.publish);
        return if ok then Ok(()) else Err(HostError);
      }
      r := ReplaceDirectory(n, faults);
    }

    /** The tail of `publish_directory`, for a destination that exists. */
    method ReplaceDirectory(n: Names, faults: Faults) returns (r: Result<(), PublishError>)
      requires Ready(disk, n) && n.destination in disk
      modifies this
      ensures r.Ok? <==> !faults.retire && !faults.publish && RemovalCompletes(old(disk)[n.destination], faults.removal)
      ensures r == Err(NotPublished) <==> !faults.retire && faults.publish && !faults.restore
      ensures r.Err? ==> r.error == HostError || r.error == NotPublished
      ensures r.Ok? ==> disk == Moved(old(disk), n.staged, n.destination)
      ensures r == Err(NotPublished) ==> disk == old(disk)
      ensures r == Err(HostError) ==>
                || disk == old(disk)
                || disk == Moved(old(disk), n.destination, n.backup)
                || (Published(old(disk), n, disk) && n.backup in disk)
      ensures Intact(old(disk), n, disk)
      ensures |history| >= |old(history)| && history[..|old(history)|] == old(history)
      ensures forall i | |old(history)| <= i < |history| :: Intact(old(disk), n, history[i])
    {
      hide Intact;
      ghost var pre, past := disk, history;
      Untouched(pre, n);
      Retired(pre, n);
      var ok := Rename(n.destination, n.backup, faults.retire);
      if !ok {
        return Err(HostError);
      }
      ok := Rename(n.staged, n.destination, faults.publish);
      if !ok {
        ok := Rename(n.backup, n.destination, faults.restore);
        assert ok ==> disk == pre;
        return Err(if ok then NotPublished else HostError);
      }
      ghost var middle, published := history, disk;
      NowPublished(pre, n, disk);
      PublishedIsIntact(pre, n, disk);
      ok := RemoveTree(n.backup, faults.removal);
      forall i | |middle| <= i < |history| ensures Intact(pre, n, history[i]) {
        StillPublished(pre, n, published, history[i]);
        PublishedIsIntact(pre, n, history[i]);
      }
      assert forall i | 0 <= i < |middle| :: history[i] == history[..|middle|][i];
      StillPublished(pre, n, published, disk);
      PublishedIsIntact(pre, n, disk);
      if !ok {
        return Err(HostError);
      }
      assert disk == disk - {n.backup};
      return Ok(());
    }
  }

  lemma NowPublished(pre: Disk, n: Names, now: Disk)
    requires Ready(pre, n) && n.destination in pre
    requires n.staged in Moved(pre, n.destination, n.backup)
    requires now == Moved(Moved(pre, n.destination, n.backup), n.staged, n.destination)
    ensures Published(pre, n, now)
  {
  }

  lemma StillPublished(pre: Disk, n: Names, published: Disk, now: Disk)
    requires Ready(pre, n) && Published(pre, n, published) && SameElsewhere(now, published, n.backup)
    ensures Published(pre, n, now)
  {
  }

  lemma Untouched(pre: Disk, n: Names)
    requires Ready(pre, n)
    ensures Intact(pre, n, pre)
  {
  }

  lemma FreshlyPublished(pre: Disk, n: Names)
    requires Ready(pre, n) && n.destination !in pre
    ensures Intact(pre, n, Moved(pre, n.staged, n.destination))
  {
  }

  lemma Retired(pre: Disk, n: Names)
    requires Ready(pre, n) && n.destination in pre
    ensures Intact(pre, n, Moved(pre, n.destination, n.backup))
  {
  }

  /** A directory's files, and every state they have been in. */
  class FileWriter {
    var tree: Tree
    ghost var history: seq<Tree>

    constructor (t: Tree)
      ensures tree == t && history == [t]
    {
      tree, history := t, [t];
    }

    method Write(path: Path, content: Bytes)
      modifies this
      ensures tree == old(tree)[path := File(content)]
      ensures history == old(history) + [tree]
    {
      tree := tree[path := File(content)];
      history := history + [tree];
    }

    /**
      * `atomic_write_bytes`, which can fail to make the directories above the file, can be cut off
      * after some bytes, whose rename can be refused, and whose temporary file can resist removal: at
      * no moment is the file anything but the old one or the new one, or does it lie below a file.
      */
    method AtomicWriteBytes(path: Path, temporary: Path, content: Bytes, parent: bool, cut: Option<nat>, refused: bool, stuck: bool)
        returns (ok: bool)
      requires Direct(tree, path) && Sibling(temporary, path) && Unused(tree, temporary)
      modifies this
      ensures ok <==> !parent && !Blocked(old(tree), path) && cut.None? && !refused && !IsDirectory(old(tree), path)
      ensures ok ==> tree == old(tree)[path := File(content)]
      ensures !ok ==> OnlyAdds(tree, old(tree), temporary) && (!stuck ==> tree == old(tree))
      ensures parent || Blocked(old(tree), path) ==> tree == old(tree) && history == old(history)
      ensures Traced(history, old(history), old(tree), temporary, tree)
      ensures NoneNested(old(tree)) ==> NoneNested(tree) && AllNoneNested(history, old(history))
    {
      hide *;
      ghost var pre, past := tree, history;
      UnusedIsAbsent(pre, temporary);
      if parent || Blocked(tree, path) {
        NothingTraced(history, pre, temporary);
        return false;
      }
      SiblingsDiffer(temporary, path);
      ok := WriteAndRename(path, temporary, content, cut, refused, stuck);
      if NoneNested(pre) {
        if ok {
          StillNoneNested(pre, path, tree, content);
        } else {
          AddedNotNested(pre, path, temporary, tree);
        }
        TraceNotNested(pre, path, temporary, tree, history, past);
      }
    }

    /** Once the directories are there. */
    method WriteAndRename(path: Path, temporary: Path, content: Bytes, cut: Option<nat>, refused: bool, stuck: bool) returns (ok: bool)
      requires temporary !in tree && temporary != path && |temporary| == |path|
      modifies this
      ensures ok <==> cut.None? && !refused && !IsDirectory(old(tree), path)
      ensures ok ==> tree == old(tree)[path := File(content)]
      ensures !ok ==> OnlyAdds(tree, old(tree), temporary) && (!stuck ==> tree == old(tree))
      ensures Traced(history, old(history), old(tree), temporary, tree)
    {
      hide IsDirectory, OnlyAdds;
      ghost var pre := tree;
      TemporaryAdded(pre, path, temporary, []);
      Write(temporary, []);
      if cut.Some? {
        var part := content[..if cut.value < |content| then cut.value else |content|];
        TemporaryAdded(pre, path, temporary, part);
        Write(temporary, part);
        assert tree == pre[temporary := File(part)];
        ok := false;
      } else {
        TemporaryAdded(pre, path, temporary, content);
        Write(temporary, content);
        assert tree == pre[temporary := File(content)];
        ok := !refused && !IsDirectory(tree, path);
      }
      if ok {
        tree := (tree - {temporary})[path := File(content)];
      } else if !stuck {
        tree := tree - {temporary};
      }
      history := history + [tree];
    }
  }

  /** Every state from a point on is the last one, or the first with or without the temporary file. */
  ghost predicate Traced(history: seq<Tree>, past: seq<Tree>, pre: Tree, temporary: Path, end: Tree) {
    && |past| <= |history| && history[..|past|] == past
    && forall i | |past| <= i < |history| :: history[i] == end || OnlyAdds(history[i], pre, temporary)
  }

  ghost predicate AllNoneNested(history: seq<Tree>, past: seq<Tree>) {
    forall i | |past| <= i < |history| :: NoneNested(history[i])
  }

  /** Two names in one directory. */
  predicate Sibling(a: Path, b: Path) {
    a != b && |a| == |b| > 0 && a[..|a| - 1] == b[..|b| - 1]
  }

  /** Nothing stands at the name. */
  predicate Unused(t: Tree, name: Path) {
    name !in t && !IsDirectory(t, name)
  }

  lemma UnusedIsAbsent(t: Tree, name: Path)
    requires Unused(t, name)
    ensures name !in t && OnlyAdds(t, t, name)
  {
  }

  lemma NothingTraced(history: seq<Tree>, t: Tree, temporary: Path)
    ensures Traced(history, history, t, temporary, t) && AllNoneNested(history, history)
  {
  }

  lemma SiblingsDiffer(a: Path, b: Path)
    requires Sibling(a, b)
    ensures a != b && |a| == |b|
  {
  }

  /** No file or link has anything below it. */
  predicate NoneNested(t: Tree) {
    forall p, q | p in t && q in t :: !(p < q)
  }

  lemma AboveSibling(a: Path, b: Path, q: Path)
    requires Sibling(a, b) && q < a
    ensures q < b
  {
    assert q == a[..|a| - 1][..|q|] == b[..|b| - 1][..|q|] == b[..|q|];
  }

  lemma AddedNotNested(pre: Tree, path: Path, temporary: Path, now: Tree)
    requires NoneNested(pre) && Direct(pre, path) && !Blocked(pre, path) && Sibling(temporary, path) && Unused(pre, temporary)
    requires OnlyAdds(now, pre, temporary)
    ensures NoneNested(now)
  {
    hide Sibling;
    forall p, q | p in now && q in now ensures !(p < q) {
      assert p != temporary ==> p in now - {temporary};
      assert q != temporary ==> q in now - {temporary};
      if p < temporary {
        AboveSibling(temporary, path, p);
      }
    }
  }

  lemma TraceNotNested(pre: Tree, path: Path, temporary: Path, end: Tree, history: seq<Tree>, past: seq<Tree>)
    requires NoneNested(pre) && Direct(pre, path) && !Blocked(pre, path) && Sibling(temporary, path) && Unused(pre, temporary)
    requires Traced(history, past, pre, temporary, end) && NoneNested(end)
    ensures AllNoneNested(history, past)
  {
    hide NoneNested, Direct, Blocked, Sibling, Unused, OnlyAdds;
    forall i | |past| <= i < |history| ensures NoneNested(history[i]) {
      if history[i] != end {
        AddedNotNested(pre, path, temporary, history[i]);
      }
    }
  }

  lemma StillNoneNested(pre: Tree, path: Path, now: Tree, content: Bytes)
    requires NoneNested(pre) && Direct(pre, path) && !Blocked(pre, path) && !IsDirectory(pre, path)
    requires now == pre[path := File(content)]
    ensures NoneNested(now)
  {
  }

  /** One tree is the other, with or without one more file. */
  predicate OnlyAdds(now: Tree, pre: Tree, temporary: Path) {
    now - {temporary} == pre
  }

  lemma TemporaryAdded(t: Tree, path: Path, temporary: Path, content: Bytes)
    requires temporary != path && |temporary| == |path|
    ensures IsDirectory(t[temporary := File(content)], path) <==> IsDirectory(t, path)
    ensures temporary !in t ==> OnlyAdds(t, t, temporary) && OnlyAdds(t[temporary := File(content)], t, temporary) && t[temporary := File(content)] - {temporary} == t
  {
    assert !(path < temporary);
    var u := t[temporary := File(content)];
    assert forall q | path < q :: q in t <==> q in u;
  }
}
