/** The live index of src/core/storage/IndexStore.cpp: a live and a staging pool, swapped by EndWrite
    and changed in place by the incremental operations; and the index work of
    src/core/indexer/Indexer.cpp that is made of them. */
module IndexStores {
  import opened Common
  import opened IndexPools
  import opened PathUtils

  // ----- A pool as the list of its live paths -----

  /** The paths of the first n entries that are not tombstoned, in order. */
  ghost function LiveList(p: Pool, n: nat): seq<Path>
    requires ValidPool(p) && n <= |p.meta|
  {
    if n == 0 then []
    else if p.meta[n - 1].deleted then LiveList(p, n - 1)
    else LiveList(p, n - 1) + [View(p, n - 1).path]
  }

  ghost function Live(p: Pool): seq<Path>
    requires ValidPool(p)
  {
    LiveList(p, |p.meta|)
  }

  /** The list without the first occurrence of a path. */
  function DropFirst(s: seq<Path>, path: Path): seq<Path> {
    if s == [] then []
    else if s[0] == path then s[1..]
    else [s[0]] + DropFirst(s[1..], path)
  }

  /** The list without everything IsUnderPath puts under the prefix. */
  function NotUnder(s: seq<Path>, prefix: Path): seq<Path> {
    if s == [] then []
    else
      var rest := NotUnder(s[..|s| - 1], prefix);
      if IsUnderPath(s[|s| - 1], prefix) then rest else rest + [s[|s| - 1]]
  }

  lemma {:induction false} NotUnderMembers(s: seq<Path>, prefix: Path)
    ensures forall p :: p in NotUnder(s, prefix) <==> p in s && !IsUnderPath(p, prefix)
    ensures NoDuplicates(s) ==> NoDuplicates(NotUnder(s, prefix))
  {
    if s != [] {
      var but := s[..|s| - 1];
      NotUnderMembers(but, prefix);
      assert s == but + [s[|s| - 1]];
    }
  }

  /** Only the named path can go, and on a duplicate-free list it does go. */
  lemma {:induction false} DropFirstMembers(s: seq<Path>, path: Path)
    ensures forall p :: p in DropFirst(s, path) ==> p in s
    ensures forall p :: p in s && p != path ==> p in DropFirst(s, path)
    ensures NoDuplicates(s) ==> NoDuplicates(DropFirst(s, path)) && path !in DropFirst(s, path)
  {
    if s != [] {
      DropFirstMembers(s[1..], path);
      assert s == [s[0]] + s[1..];
      if NoDuplicates(s) {
        assert s[0] !in s[1..];
      }
    }
  }

  function Copies(s: seq<Path>, path: Path): nat {
    multiset(s)[path]
  }

  /** ApplyRemove takes away one copy and no more, so the path is gone afterwards exactly when it was
      there at most once. */
  lemma {:induction false} RemoveLeavesCopies(s: seq<Path>, path: Path)
    ensures Copies(DropFirst(s, path), path) == if path in s then Copies(s, path) - 1 else 0
    ensures path !in DropFirst(s, path) <==> Copies(s, path) <= 1
  {
    if s != [] {
      RemoveLeavesCopies(s[1..], path);
      assert s == [s[0]] + s[1..];
      if s[0] != path {
        assert DropFirst(s, path) == [s[0]] + DropFirst(s[1..], path);
      }
    }
    InMultiset(DropFirst(s, path), path);
    InMultiset(s, path);
  }

  lemma InMultiset(s: seq<Path>, path: Path)
    ensures path in s <==> multiset(s)[path] > 0
  {
  }

  // ----- How the operations change the live list -----

  lemma {:induction false} LiveListPrefix(p: Pool, q: Pool, n: nat)
    requires ValidPool(p) && ValidPool(q) && n <= |p.meta| && n <= |q.meta|
    requires forall i :: 0 <= i < n ==> q.meta[i].deleted == p.meta[i].deleted && View(q, i) == View(p, i)
    ensures LiveList(q, n) == LiveList(p, n)
  {
    hide View, ValidPool;
    if n > 0 {
      LiveListPrefix(p, q, n - 1);
    }
  }

  lemma AppendLive(p: Pool, e: FileEntry)
    requires ValidPool(p) && IsFileEntry(e) && |p.spans| < TWO_32
    ensures ValidPool(Append(p, e)) && Live(Append(p, e)) == Live(p) + [e.path]
  {
    AppendValid(p, e);
    AppendedView(p, e);
    AppendMeta(p, e);
    hide View, Append, ValidPool;
    LiveListPrefix(p, Append(p, e), |p.meta|);
  }

  lemma AppendMeta(p: Pool, e: FileEntry)
    ensures |Append(p, e).meta| == |p.meta| + 1 && Append(p, e).meta[..|p.meta|] == p.meta
    ensures !Append(p, e).meta[|p.meta|].deleted
    ensures forall i :: 0 <= i < |p.meta| ==> Append(p, e).meta[i] == p.meta[i]
  {
  }

  /** Tombstoning the live entry i leaves its path out of the live list and nothing else. */
  lemma {:induction false} TombstoneLive(p: Pool, i: nat, n: nat) returns (rest: seq<Path>)
    requires ValidPool(p) && i < n <= |p.meta| && !p.meta[i].deleted
    ensures ValidPool(Tombstone(p, i))
    ensures LiveList(p, n) == LiveList(p, i) + ([View(p, i).path] + rest)
    ensures LiveList(Tombstone(p, i), n) == LiveList(p, i) + rest
    decreases n
  {
    TombstoneValid(p, i);
    var q := Tombstone(p, i);
    assert forall k :: 0 <= k < n ==> q.meta[k].deleted == (p.meta[k].deleted || k == i);
    assert |q.meta| == |p.meta|;
    hide View, ValidPool, Tombstone;
    if n == i + 1 {
      LiveListPrefix(p, q, i);
      rest := [];
    } else {
      rest := TombstoneLive(p, i, n - 1);
      if !p.meta[n - 1].deleted {
        var x := View(p, n - 1).path;
        Regroup(LiveList(p, i), [View(p, i).path], rest, x);
        rest := rest + [x];
      }
    }
  }

  lemma Regroup<T>(a: seq<T>, b: seq<T>, rest: seq<T>, x: T)
    ensures a + (b + rest) + [x] == a + (b + (rest + [x]))
    ensures a + rest + [x] == a + (rest + [x])
  {
  }

  lemma {:induction false} SkipOne(p: Pool, path: Path, from: nat, i: nat)
    requires ValidPool(p) && from <= i <= |p.meta|
    requires forall k :: from <= k < i ==> p.meta[k].deleted || View(p, k).path != path
    ensures path in LiveList(p, i) ==> path in LiveList(p, from)
    decreases i
  {
    hide View, ValidPool;
    if from < i {
      SkipOne(p, path, from, i - 1);
    }
  }

  lemma {:induction false} FirstLiveIsFirst(p: Pool, path: Path, from: nat)
    requires ValidPool(p) && from <= |p.meta|
    ensures var r := FirstLive(p, path, from);
      && (r.Some? ==> !p.meta[r.value].deleted && View(p, r.value).path == path)
      && (forall k :: from <= k < (if r.Some? then r.value else |p.meta|) ==>
            p.meta[k].deleted || View(p, k).path != path)
    decreases |p.meta| - from
  {
    hide View, ValidPool;
    if from < |p.meta| && !(!p.meta[from].deleted && View(p, from).path == path) {
      FirstLiveIsFirst(p, path, from + 1);
    }
  }

  lemma {:induction false} DropFirstAt(s: seq<Path>, path: Path, i: nat)
    requires i < |s| && s[i] == path && path !in s[..i]
    ensures DropFirst(s, path) == s[..i] + s[i + 1..]
  {
    if i > 0 {
      assert s[0] in s[..i] && s[0] != path;
      assert s[1..][..i - 1] == s[..i][1..];
      DropFirstAt(s[1..], path, i - 1);
      assert s == [s[0]] + s[1..];
    }
  }

  lemma {:induction false} DropFirstAbsent(s: seq<Path>, path: Path)
    requires path !in s
    ensures DropFirst(s, path) == s
  {
    if s != [] {
      DropFirstAbsent(s[1..], path);
    }
  }

  /** FindByPath and MarkDeleted together drop the first live copy of the path. */
  function RemovedFirst(p: Pool, path: Path): Pool
    requires ValidPool(p)
  {
    var found := FirstLive(p, path, 0);
    if found.Some? then Tombstone(p, found.value) else p
  }

  lemma RemovedFirstLive(p: Pool, path: Path)
    requires ValidPool(p)
    ensures ValidPool(RemovedFirst(p, path)) && Live(RemovedFirst(p, path)) == DropFirst(Live(p), path)
  {
    var found := FirstLive(p, path, 0);
    FirstLiveIsFirst(p, path, 0);
    hide View, FirstLive, ValidPool;
    SkipOne(p, path, 0, if found.Some? then found.value else |p.meta|);
    if found.Some? {
      var rest := TombstoneLive(p, found.value, |p.meta|);
      hide LiveList;
      assert Live(p)[|LiveList(p, found.value)|] == path;
      DropFirstAt(Live(p), path, |LiveList(p, found.value)|);
    } else {
      DropFirstAbsent(Live(p), path);
    }
  }

  /** RemoveEntriesUnderPath after its first n entries. */
  ghost function RemovedUnder(p: Pool, prefix: Path, n: nat): (q: Pool)
    requires ValidPool(p) && n <= |p.meta|
    ensures |q.meta| == |p.meta|
  {
    if n == 0 then p
    else
      var q := RemovedUnder(p, prefix, n - 1);
      if !p.meta[n - 1].deleted && IsUnderPath(View(p, n - 1).path, prefix) then Tombstone(q, n - 1) else q
  }

  lemma {:induction false} RemovedUnderEntries(p: Pool, prefix: Path, n: nat)
    requires ValidPool(p) && n <= |p.meta|
    ensures var q := RemovedUnder(p, prefix, n);
      && ValidPool(q) && (forall i :: 0 <= i < |p.meta| ==> View(q, i) == View(p, i))
      && (forall i :: 0 <= i < |p.meta| ==>
            q.meta[i].deleted == (p.meta[i].deleted || (i < n && IsUnderPath(View(p, i).path, prefix))))
  {
    hide View, ValidPool, IsUnderPath;
    if n > 0 {
      RemovedUnderEntries(p, prefix, n - 1);
      TombstoneValid(RemovedUnder(p, prefix, n - 1), n - 1);
    }
  }

  lemma RemovedUnderNone(p: Pool, prefix: Path)
    requires ValidPool(p)
    ensures RemovedUnder(p, prefix, 0) == p
  {
  }

  lemma RemovedUnderStep(p: Pool, prefix: Path, n: nat)
    requires ValidPool(p) && n < |p.meta|
    requires RemovedUnder(p, prefix, n).meta[n].deleted == p.meta[n].deleted
    ensures var q := RemovedUnder(p, prefix, n);
      RemovedUnder(p, prefix, n + 1) ==
      if !q.meta[n].deleted && IsUnderPath(View(p, n).path, prefix) then Tombstone(q, n) else q
  {
  }

  lemma {:induction false} RemovedUnderLive(p: Pool, q: Pool, prefix: Path, n: nat)
    requires ValidPool(p) && ValidPool(q) && n <= |p.meta| == |q.meta|
    requires forall i :: 0 <= i < |p.meta| ==> View(q, i) == View(p, i)
    requires forall i :: 0 <= i < |p.meta| ==>
      q.meta[i].deleted == (p.meta[i].deleted || IsUnderPath(View(p, i).path, prefix))
    ensures LiveList(q, n) == NotUnder(LiveList(p, n), prefix)
  {
    hide View, ValidPool, IsUnderPath;
    if n > 0 {
      RemovedUnderLive(p, q, prefix, n - 1);
      if !p.meta[n - 1].deleted {
        assert LiveList(p, n)[..|LiveList(p, n)| - 1] == LiveList(p, n - 1);
      }
    }
  }

  /** The loop of RemoveEntriesUnderPath. */
  method RemoveUnder(pool: IndexPool, pathPrefix: Path)
    requires pool.Valid()
    modifies pool
    ensures pool.Valid() && pool.Rep() == RemovedUnder(old(pool.Rep()), pathPrefix, |old(pool.meta)|)
  {
    ghost var before := pool.Rep();
    RemovedUnderNone(before, pathPrefix);
    hide View, ValidPool, IsUnderPath, RemovedUnder, Tombstone;
    for i := 0 to |pool.meta|
      invariant pool.Valid() && |pool.meta| == |before.meta|
      invariant pool.Rep() == RemovedUnder(before, pathPrefix, i)
    {
      RemovedUnderEntries(before, pathPrefix, i);
      RemovedUnderStep(before, pathPrefix, i);
      if !pool.meta[i].deleted {
        var view := pool.GetEntry(i);
        if IsUnderPath(view.path, pathPrefix) {
          pool.MarkDeleted(i);
        }
      }
    }
    RemovedUnderEntries(before, pathPrefix, |before.meta|);
  }

  // ----- The class -----

  class IndexStore {
    var pool: IndexPool
    var stagingPool: IndexPool
    var buildTimestampNs: u64
    var lastMonitorStopNs: u64

    ghost predicate Valid()
      reads this, pool, stagingPool
    {
      pool != stagingPool && pool.Valid() && stagingPool.Valid()
    }

    ghost function LivePaths(): seq<Path>
      reads this, pool, stagingPool
      requires Valid()
    {
      Live(pool.Rep())
    }

    ghost function StagedPaths(): seq<Path>
      reads this, pool, stagingPool
      requires Valid()
    {
      Live(stagingPool.Rep())
    }

    constructor ()
      ensures Valid() && fresh(pool) && fresh(stagingPool)
      ensures LivePaths() == [] && StagedPaths() == []
    {
      pool := new IndexPool();
      stagingPool := new IndexPool();
      buildTimestampNs, lastMonitorStopNs := 0, 0;
    }

    /** The live pool is untouched: readers keep seeing the previous generation. */
    method BeginWrite()
      requires Valid()
      modifies this`stagingPool
      ensures Valid() && fresh(stagingPool) && pool == old(pool)
      ensures StagedPaths() == [] && LivePaths() == old(LivePaths())
    {
      stagingPool := new IndexPool();
    }

    method AddEntry(entry: FileEntry)
      requires Valid() && IsFileEntry(entry) && |stagingPool.nameTokenSpans| < TWO_32
      modifies stagingPool
      ensures Valid() && stagingPool.Rep() == Append(old(stagingPool.Rep()), entry)
      ensures StagedPaths() == old(StagedPaths()) + [entry.path] && LivePaths() == old(LivePaths())
    {
      AppendLive(stagingPool.Rep(), entry);
      stagingPool.AddEntry(entry);
    }

    /** The staged pool becomes the live one in one step; what is left staged is empty. */
    method EndWrite()
      requires Valid()
      modifies this`pool, this`stagingPool
      ensures Valid() && pool == old(stagingPool) && fresh(stagingPool)
      ensures LivePaths() == old(StagedPaths()) && StagedPaths() == []
    {
      pool := stagingPool;
      stagingPool := new IndexPool();
    }

    method AbortWrite()
      requires Valid()
      modifies this`stagingPool
      ensures Valid() && fresh(stagingPool) && pool == old(pool)
      ensures StagedPaths() == [] && LivePaths() == old(LivePaths())
    {
      stagingPool := new IndexPool();
    }

    method ApplyAdd(entry: FileEntry)
      requires Valid() && IsFileEntry(entry) && |pool.nameTokenSpans| < TWO_32
      modifies pool
      ensures Valid() && pool.Rep() == Append(old(pool.Rep()), entry)
      ensures LivePaths() == old(LivePaths()) + [entry.path] && StagedPaths() == old(StagedPaths())
    {
      AppendLive(pool.Rep(), entry);
      pool.AddEntry(entry);
    }

    method ApplyRemove(path: Path)
      requires Valid()
      modifies pool
      ensures Valid() && pool.Rep() == RemovedFirst(old(pool.Rep()), path)
      ensures LivePaths() == DropFirst(old(LivePaths()), path) && StagedPaths() == old(StagedPaths())
    {
      RemovedFirstLive(pool.Rep(), path);
      hide View, FirstLive, ValidPool, LiveList;
      var found := pool.FindByPath(path);
      if found.Some? {
        pool.MarkDeleted(found.value);
      }
    }

    /** The renamed entry carries only its path and name; size, time and attributes are zero. */
    method ApplyRename(oldPath: Path, newPath: Text)
      requires Valid() && |newPath| < TWO_32 && |pool.nameTokenSpans| < TWO_32
      modifies pool
      ensures Valid()
      ensures pool.Rep() == Append(RemovedFirst(old(pool.Rep()), oldPath), Renamed(newPath))
      ensures LivePaths() == DropFirst(old(LivePaths()), oldPath) + [newPath]
      ensures StagedPaths() == old(StagedPaths())
      ensures |pool.meta| == |old(pool.meta)| + 1
      ensures var v := View(pool.Rep(), |old(pool.meta)|);
        && v.path == newPath && v.size == 0 && v.lastModified == 0 && v.attributes == 0
        && (forall name :: IsBaseName(name, newPath) && |newPath| - |name| < TWO_16 ==> v.name == name)
    {
      ApplyRemove(oldPath);
      AppendedView(pool.Rep(), Renamed(newPath));
      ApplyAdd(Renamed(newPath));
      OneBaseName(newPath);
      hide View, Append, RemovedFirst, Live;
    }

    method RemoveEntriesUnderPath(pathPrefix: Path)
      requires Valid()
      modifies pool
      ensures Valid() && pool.Rep() == RemovedUnder(old(pool.Rep()), pathPrefix, |old(pool.meta)|)
      ensures LivePaths() == NotUnder(old(LivePaths()), pathPrefix) && StagedPaths() == old(StagedPaths())
    {
      ghost var before := pool.Rep();
      RemoveUnder(pool, pathPrefix);
      RemovedUnderEntries(before, pathPrefix, |before.meta|);
      hide View, ValidPool, LiveList, IsUnderPath, RemovedUnder;
      RemovedUnderLive(before, pool.Rep(), pathPrefix, |before.meta|);
    }

    method LoadPool(loaded: IndexPool, build: u64, stop: u64)
      requires Valid() && loaded.Valid() && loaded != stagingPool
      modifies this`pool, this`buildTimestampNs, this`lastMonitorStopNs
      ensures Valid() && pool == loaded && buildTimestampNs == build && lastMonitorStopNs == stop
      ensures StagedPaths() == old(StagedPaths())
    {
      pool, buildTimestampNs, lastMonitorStopNs := loaded, build, stop;
    }

    method GetIndexAgeSeconds(nowNs: u64) returns (age: nat)
      ensures nowNs <= buildTimestampNs ==> age == 0
      ensures nowNs > buildTimestampNs ==> age * 1_000_000_000 <= nowNs - buildTimestampNs < (age + 1) * 1_000_000_000
    {
      if nowNs <= buildTimestampNs {
        return 0;
      }
      age := (nowNs - buildTimestampNs) / 1_000_000_000;
    }
  }

  function LastSlashOf(s: Text): (i: int)
    ensures -1 <= i < |s| && (i >= 0 ==> s[i] == '/')
    ensures forall k :: i < k < |s| ==> s[k] != '/'
  {
    if s == [] then -1 else if s[|s| - 1] == '/' then |s| - 1 else LastSlashOf(s[..|s| - 1])
  }

  /** The last component of a path: what follows its last '/', or all of it. */
  predicate IsBaseName(name: Text, path: Text) {
    && '/' !in name && |name| <= |path| && path[|path| - |name|..] == name
    && (|name| < |path| ==> path[|path| - |name| - 1] == '/')
  }

  lemma OneBaseName(path: Text)
    ensures forall a, b :: IsBaseName(a, path) && IsBaseName(b, path) ==> a == b
  {
  }

  function Renamed(newPath: Text): (e: FileEntry)
    ensures e.path == newPath && IsBaseName(e.name, newPath) && (|newPath| < TWO_32 ==> IsFileEntry(e))
    ensures e.size == 0 && e.lastModified == 0 && e.attributes == 0
  {
    FileEntry(newPath[LastSlashOf(newPath) + 1..], newPath, 0, 0, 0)
  }

  // ----- Indexer::RemovePaths -----

  function NotUnderAny(s: seq<Path>, prefixes: seq<Path>, n: nat): seq<Path>
    requires n <= |prefixes|
  {
    if n == 0 then s else NotUnder(NotUnderAny(s, prefixes, n - 1), prefixes[n - 1])
  }

  method RemovePaths(store: IndexStore, paths: seq<Path>)
    requires store.Valid()
    modifies store.pool
    ensures store.Valid() && store.pool == old(store.pool)
    ensures store.LivePaths() == NotUnderAny(old(store.LivePaths()), paths, |paths|)
    ensures store.StagedPaths() == old(store.StagedPaths())
  {
    for n := 0 to |paths|
      invariant store.Valid()
      invariant store.LivePaths() == NotUnderAny(old(store.LivePaths()), paths, n)
      invariant store.StagedPaths() == old(store.StagedPaths())
    {
      store.RemoveEntriesUnderPath(paths[n]);
    }
  }

  lemma {:induction false} NotUnderAnyMembers(s: seq<Path>, prefixes: seq<Path>, n: nat)
    requires n <= |prefixes|
    ensures forall p :: p in NotUnderAny(s, prefixes, n) <==>
      p in s && forall k :: 0 <= k < n ==> !IsUnderPath(p, prefixes[k])
    ensures NoDuplicates(s) ==> NoDuplicates(NotUnderAny(s, prefixes, n))
  {
    hide IsUnderPath;
    if n > 0 {
      NotUnderAnyMembers(s, prefixes, n - 1);
      NotUnderMembers(NotUnderAny(s, prefixes, n - 1), prefixes[n - 1]);
    }
  }

  /** Removing the root "/" removes nothing that lies below it. */
  lemma RemovingSlashKeepsAll(s: seq<Path>)
    requires forall p :: p in s ==> p != "/" && !("//" <= p)
    ensures Elements(NotUnderAny(s, ["/"], 1)) == Elements(s)
  {
    NotUnderAnyMembers(s, ["/"], 1);
    forall p | p in s ensures !IsUnderPath(p, "/") {
      UnderTestsAgree(p, "/");
    }
  }
}
