/** Live file-system events on the store: ApplyChangeEvent of src/core/indexer/Indexer.cpp:164-208,
    whose re-scan of an added or modified path is a scan with that path as its only root. */
module LiveEvents {
  import opened Common
  import opened IndexPools
  import opened IndexStores
  import opened PathUtils
  import opened WalkTree

  datatype Event = Removed(path: Path) | Renamed(oldPath: Path, newPath: Text) | Modified(path: Path) | Added(path: Path)

  predicate Rescans(e: Event) {
    e.Modified? || e.Added?
  }

  /** The live paths after an event; `found` is the last entry the re-scan emitted, if any. */
  function LiveAfter(live: seq<Path>, e: Event, found: Option<FileEntry>): seq<Path> {
    match e
    case Removed(path) => DropFirst(live, path)
    case Renamed(oldPath, newPath) => DropFirst(live, oldPath) + [newPath]
    case Modified(path) => DropFirst(live, path) + (if found.Some? then [found.value.path] else [])
    case Added(_) => live + (if found.Some? then [found.value.path] else [])
  }

  predicate Notifies(e: Event, found: Option<FileEntry>) {
    !e.Added? || found.Some?
  }

  method ApplyChangeEvent(store: IndexStore, e: Event, found: Option<FileEntry>) returns (notified: bool)
    requires store.Valid() && |store.pool.nameTokenSpans| < TWO_32
    requires found.Some? ==> IsFileEntry(found.value)
    requires e.Renamed? ==> |e.newPath| < TWO_32
    modifies store.pool
    ensures store.Valid() && store.StagedPaths() == old(store.StagedPaths())
    ensures store.LivePaths() == LiveAfter(old(store.LivePaths()), e, found)
    ensures notified == Notifies(e, found)
  {
    hide Live, Append, RemovedFirst, ValidPool;
    if e.Removed? {
      store.ApplyRemove(e.path);
      return true;
    }
    if e.Renamed? {
      store.ApplyRename(e.oldPath, e.newPath);
      return true;
    }
    if e.Modified? {
      store.ApplyRemove(e.path);
      RemovalKeepsSpans(old(store.pool.Rep()), e.path);
    }
    if found.Some? {
      store.ApplyAdd(found.value);
    }
    return found.Some? || e.Modified?;
  }

  lemma RemovalKeepsSpans(p: Pool, path: Path)
    requires ValidPool(p)
    ensures RemovedFirst(p, path).spans == p.spans
  {
  }

  /** An event that changes the live paths notifies: what the helper's dirty flag relies on. */
  lemma ChangeNotifies(live: seq<Path>, e: Event, found: Option<FileEntry>)
    requires LiveAfter(live, e, found) != live
    ensures Notifies(e, found)
  {
    assert live + [] == live;
  }

  /** The last entry a re-scan of one path emitted, if it emitted any: the walk emits exactly what is in
      the scan of that root. */
  ghost predicate Rescan(fs: map<Path, Node>, path: Path, found: Option<FileEntry>) {
    match found
    case Some(entry) => InScanOf(fs, path, entry.path)
    case None => forall p :: !InScanOf(fs, path, p)
  }

  predicate InScanOf(fs: map<Path, Node>, path: Path, p: Path) {
    var t := Tree(fs, [], [path]);
    IsRootFile(t, p) || (IsRootDir(t, path) && Below(t, path, p))
  }

  /** InScanOf is the walk's scope with one root. */
  lemma InScanOfIsInScan(fs: map<Path, Node>, path: Path, p: Path)
    ensures InScanOf(fs, path, p) <==> InScan(Tree(fs, [], [path]), p)
  {
    hide Excluded, Below;
    var t := Tree(fs, [], [path]);
    if InScan(t, p) && !IsRootFile(t, p) {
      var r :| IsRootDir(t, r) && Below(t, r, p);
      assert r == path;
    }
  }

  predicate IsFile(fs: map<Path, Node>, path: Path) {
    path in fs && fs[path].kind == File
  }

  predicate IsDirectory(fs: map<Path, Node>, path: Path) {
    path in fs && fs[path].kind == Dir
  }

  /** What a re-scan finds: a file is found, as itself; a directory is never found itself, only some
      entry below it if there is one to find; anything else is not found. */
  lemma RescanFinds(fs: map<Path, Node>, path: Path, found: Option<FileEntry>)
    requires Rescan(fs, path, found)
    ensures (found.Some? && found.value.path == path) <==> IsFile(fs, path)
    ensures found.Some? && found.value.path != path ==>
      IsDirectory(fs, path) && Below(Tree(fs, [], [path]), path, found.value.path)
    ensures IsDirectory(fs, path) && found.None? ==> forall p :: !Below(Tree(fs, [], [path]), path, p)
  {
    var t := Tree(fs, [], [path]);
    assert IsFile(fs, path) <==> IsRootFile(t, path);
    assert IsDirectory(fs, path) <==> IsRootDir(t, path);
    hide Below, Passes, IsFile, IsDirectory;
    RootsApart(t, path);
    if found.Some? {
      var p := found.value.path;
      assert IsRootFile(t, p) ==> p == path;
      if IsRootDir(t, path) && Below(t, path, p) {
        BelowIsUnder(t, path, p);
      }
    } else {
      assert !InScanOf(fs, path, path);
      forall p ensures IsRootDir(t, path) ==> !Below(t, path, p) {
        assert !InScanOf(fs, path, p);
      }
    }
  }

  lemma RootsApart(t: Tree, r: Path)
    ensures !(IsRootFile(t, r) && IsRootDir(t, r))
  {
  }

  /** Whether a path is live after its Added event, exactly: it was already, or it is a file. A
      directory is not indexed by its event. */
  lemma AddedExactly(fs: map<Path, Node>, live: seq<Path>, path: Path, found: Option<FileEntry>)
    requires Rescan(fs, path, found)
    ensures path in LiveAfter(live, Added(path), found) <==> path in live || IsFile(fs, path)
  {
    RescanFinds(fs, path, found);
    hide Rescan, IsFile;
  }

  /** What the Added event of a directory indexes, exactly: of everything a scan of it emits, the last
      entry and nothing else. Its contents are all live afterwards if and only if the others were live
      before. */
  lemma AddedDirectoryMissed(fs: map<Path, Node>, live: seq<Path>, path: Path, found: Option<FileEntry>)
    requires IsDirectory(fs, path) && Rescan(fs, path, found)
    ensures found.None? <==> forall p :: !InScanOf(fs, path, p)
    ensures Elements(LiveAfter(live, Added(path), found))
      == Elements(live) + (if found.Some? then {found.value.path} else {})
    ensures (forall p :: InScanOf(fs, path, p) ==> p in LiveAfter(live, Added(path), found)) <==>
      forall p :: InScanOf(fs, path, p) && p !in live ==> found.Some? && p == found.value.path
  {
    hide InScanOf;
  }

  /** Whether a path is live after its Modified event, exactly: it is a file, or the index listed it
      more than once. A duplicate-free index lists it exactly when it is a file. */
  lemma ModifiedExactly(fs: map<Path, Node>, live: seq<Path>, path: Path, found: Option<FileEntry>)
    requires Rescan(fs, path, found)
    ensures path in LiveAfter(live, Modified(path), found) <==> Copies(live, path) > 1 || IsFile(fs, path)
    ensures NoDuplicates(live) ==> (path in LiveAfter(live, Modified(path), found) <==> IsFile(fs, path))
  {
    RescanFinds(fs, path, found);
    RemoveLeavesCopies(live, path);
    hide Rescan, IsFile, DropFirst;
    if NoDuplicates(live) {
      DropFirstMembers(live, path);
    }
  }

  /** What Removed and Renamed events leave, exactly: one copy of the named path fewer, and one of the new
      path more. */
  lemma RemovedExactly(live: seq<Path>, path: Path, p: Path)
    ensures Copies(LiveAfter(live, Removed(path), None), p)
      == if p == path && path in live then Copies(live, p) - 1 else Copies(live, p)
  {
    OneCopyLess(live, path, p);
  }

  lemma RenamedExactly(live: seq<Path>, oldPath: Path, newPath: Text, p: Path)
    ensures Copies(LiveAfter(live, Renamed(oldPath, newPath), None), p)
      == (if p == oldPath && oldPath in live then Copies(live, p) - 1 else Copies(live, p))
         + if p == newPath then 1 else 0
  {
    OneCopyLess(live, oldPath, p);
  }

  lemma {:induction false} OneCopyLess(live: seq<Path>, path: Path, p: Path)
    ensures Copies(live, path) > 0 <==> path in live
    ensures Copies(DropFirst(live, path), p)
      == if p == path && path in live then Copies(live, p) - 1 else Copies(live, p)
  {
    if live != [] {
      assert live == [live[0]] + live[1..];
      if live[0] != path {
        OneCopyLess(live[1..], path, p);
      }
    }
  }

  /** Only an Added event that finds nothing keeps quiet, and it changes nothing. */
  lemma QuietExactly(live: seq<Path>, e: Event, found: Option<FileEntry>)
    ensures !Notifies(e, found) <==> e.Added? && found.None?
    ensures !Notifies(e, found) ==> LiveAfter(live, e, found) == live
  {
  }

  /** The path an event adds, if it adds one. */
  function Addition(e: Event, found: Option<FileEntry>): Option<Path> {
    if e.Renamed? then Some(e.newPath)
    else if Rescans(e) && found.Some? then Some(found.value.path)
    else None
  }

  function Dropped(live: seq<Path>, e: Event): seq<Path> {
    match e
    case Removed(path) => DropFirst(live, path)
    case Renamed(oldPath, _) => DropFirst(live, oldPath)
    case Modified(path) => DropFirst(live, path)
    case Added(_) => live
  }

  /** A duplicate-free index stays duplicate-free exactly when the path an event adds is not still
      there: nothing checks for it. */
  lemma UniqueExactly(live: seq<Path>, e: Event, found: Option<FileEntry>)
    requires NoDuplicates(live)
    ensures NoDuplicates(LiveAfter(live, e, found)) <==>
      Addition(e, found).None? || Addition(e, found).value !in Dropped(live, e)
  {
    var rest, after := Dropped(live, e), LiveAfter(live, e, found);
    if e.Removed? || e.Modified? {
      DropFirstMembers(live, e.path);
    } else if e.Renamed? {
      DropFirstMembers(live, e.oldPath);
    }
    hide DropFirst;
    assert NoDuplicates(rest);
    if Addition(e, found).None? {
      assert after == rest;
    } else {
      AppendUnique(rest, Addition(e, found).value);
    }
  }

  lemma AppendUnique(s: seq<Path>, p: Path)
    requires NoDuplicates(s)
    ensures NoDuplicates(s + [p]) <==> p !in s
  {
    if p in s {
      var i :| 0 <= i < |s| && s[i] == p;
      assert (s + [p])[i] == (s + [p])[|s|];
    }
  }

  /** In particular a modified file stays in the index once, and so does everything else. */
  lemma ModifiedFileStaysUnique(fs: map<Path, Node>, live: seq<Path>, path: Path, found: Option<FileEntry>)
    requires NoDuplicates(live) && !IsDirectory(fs, path) && Rescan(fs, path, found)
    ensures NoDuplicates(LiveAfter(live, Modified(path), found))
    ensures Elements(LiveAfter(live, Modified(path), found))
      == Elements(live) - {path} + (if IsFile(fs, path) then {path} else {})
  {
    DropFirstMembers(live, path);
    RescanFinds(fs, path, found);
    UniqueExactly(live, Modified(path), found);
    hide Rescan, IsFile, IsDirectory, DropFirst;
  }

  /** But two Added events for one file leave two copies, and its removal then only takes one. */
  lemma AddedTwiceOutlivesRemoval(live: seq<Path>, path: Path, found: Option<FileEntry>)
    requires found.Some? && found.value.path == path
    ensures var once := LiveAfter(live, Added(path), found);
      var twice := LiveAfter(once, Added(path), found);
      path in LiveAfter(twice, Removed(path), None)
  {
    var twice := (live + [path]) + [path];
    RemoveLeavesCopies(twice, path);
    assert multiset(twice) == multiset(live) + multiset{path} + multiset{path};
  }
}
