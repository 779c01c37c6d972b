/** Paths as the settings and the scanner treat them: src/core/settings/PathUtils.cpp:86-138,
    src/core/settings/RootsDiff.cpp, and the prefix test of src/core/storage/IndexStore.cpp:14-20. */
module PathUtils {
  import opened Common

  method StripTrailingSlash(path: Path) returns (r: Path)
    ensures r <= path && forall i :: |r| <= i < |path| ==> path[i] == '/'
    ensures |r| <= 1 || r[|r| - 1] != '/'
    ensures path == "" <==> r == ""
  {
    r := path;
    while |r| > 1 && r[|r| - 1] == '/'
      invariant r <= path && forall i :: |r| <= i < |path| ==> path[i] == '/'
      invariant path == "" <==> r == ""
    {
      r := r[..|r| - 1];
    }
  }

  /** IsUnderOrEqual: whole path components, with "/" above every absolute path. */
  predicate IsUnderOrEqual(path: Path, ancestor: Path) {
    if path == ancestor then true
    else if ancestor == "/" then |path| > 1 && path[0] == '/'
    else |path| > |ancestor| && path[..|ancestor|] == ancestor && path[|ancestor|] == '/'
  }

  /** IndexStore's IsUnderPath and the scanner's IsPathUnderOrEqual: the same, except that "/" is
      not above "/x". */
  predicate IsUnderPath(path: Path, prefix: Path) {
    path == prefix ||
    (|path| > |prefix| && path[..|prefix|] == prefix && path[|prefix|] == '/')
  }

  /** The two tests agree on everything but a root of "/". */
  lemma UnderTestsAgree(path: Path, ancestor: Path)
    ensures ancestor != "/" ==> (IsUnderPath(path, ancestor) <==> IsUnderOrEqual(path, ancestor))
    ensures IsUnderPath(path, "/") <==> path == "/" || (|path| > 1 && path[..2] == "//")
  {
    if |path| > 1 {
      assert path[..2] == "//" <==> path[0] == '/' && path[1] == '/';
      assert path[..1] == "/" <==> path[0] == '/';
    }
  }

  // ----- The byte order std::sort uses -----

  predicate Less(a: Path, b: Path) {
    if |b| == 0 then false
    else if |a| == 0 then true
    else a[0] < b[0] || (a[0] == b[0] && Less(a[1..], b[1..]))
  }

  lemma {:induction false} LessTransitive(a: Path, b: Path, c: Path)
    requires Less(a, b) && Less(b, c)
    ensures Less(a, c)
  {
    if |a| > 0 && a[0] == b[0] == c[0] {
      LessTransitive(a[1..], b[1..], c[1..]);
    }
  }

  lemma {:induction false} LessTotal(a: Path, b: Path)
    ensures Less(a, b) || Less(b, a) || a == b
    ensures !(Less(a, b) && Less(b, a))
    ensures Less(a, b) ==> a != b
  {
    if |a| > 0 && |b| > 0 {
      LessTotal(a[1..], b[1..]);
      assert a == [a[0]] + a[1..] && b == [b[0]] + b[1..];
    }
  }

  lemma {:induction false} PrefixSortsFirst(a: Path, b: Path)
    requires a <= b && a != b
    ensures Less(a, b)
  {
    if |a| > 0 {
      PrefixSortsFirst(a[1..], b[1..]);
    }
  }

  /** The reason one pass over the sorted list suffices. */
  lemma AncestorSortsFirst(path: Path, ancestor: Path)
    requires IsUnderOrEqual(path, ancestor) && path != ancestor
    ensures Less(ancestor, path)
  {
    assert ancestor <= path;
    PrefixSortsFirst(ancestor, path);
  }

  lemma UnderTransitive(path: Path, middle: Path, top: Path)
    requires IsUnderOrEqual(path, middle) && IsUnderOrEqual(middle, top)
    ensures IsUnderOrEqual(path, top)
  {
    if path != middle && middle != top {
      assert top <= middle && middle <= path;
      assert path[..|top|] == middle[..|top|];
    }
  }

  /** Two ancestors of one path are one above the other. */
  lemma AncestorsComparable(path: Path, a: Path, b: Path)
    requires IsUnderOrEqual(path, a) && IsUnderOrEqual(path, b) && |a| <= |b|
    ensures IsUnderOrEqual(b, a)
  {
    assert a <= path && b <= path;
    assert b[..|a|] == path[..|a|] == a;
    if |a| < |b| {
      assert b[|a|] == path[|a|];
    } else {
      assert a == b;
    }
  }

  // ----- CollapseRedundantRoots -----

  ghost predicate Sorted(s: seq<Path>) {
    forall i, j :: 0 <= i < j < |s| ==> Less(s[i], s[j])
  }

  /** std::sort, std::unique and erase. */
  method SortUnique(paths: seq<Path>) returns (r: seq<Path>)
    ensures Sorted(r) && Elements(r) == Elements(paths)
  {
    r := [];
    for i := 0 to |paths|
      invariant Sorted(r) && Elements(r) == Elements(paths[..i])
    {
      r := InsertSorted(r, paths[i]);
    }
    assert paths[..|paths|] == paths;
  }

  method InsertSorted(s: seq<Path>, x: Path) returns (r: seq<Path>)
    requires Sorted(s)
    ensures Sorted(r) && Elements(r) == Elements(s) + {x}
  {
    var i := 0;
    while i < |s| && Less(s[i], x)
      invariant i <= |s| && forall k :: 0 <= k < i ==> Less(s[k], x)
    {
      i := i + 1;
    }
    if i < |s| {
      LessTotal(s[i], x);
    }
    if i < |s| && s[i] == x {
      return s;
    }
    r := s[..i] + [x] + s[i..];
    forall j, k | 0 <= j < k < |r| ensures Less(r[j], r[k]) {
      if j == i && k > i + 1 {
        LessTransitive(x, s[i], s[k - 1]);
      }
    }
  }

  ghost predicate CoveredBy(path: Path, roots: set<Path>) {
    exists r :: r in roots && IsUnderOrEqual(path, r)
  }

  /** p is in the set and no other path of the set is above it. */
  ghost predicate IsTop(p: Path, paths: set<Path>) {
    p in paths && forall q :: q in paths && IsUnderOrEqual(p, q) ==> q == p
  }

  /** The canonical inputs. */
  ghost function Canonical(roots: seq<Path>, canon: Path -> Path): set<Path> {
    set r | r in roots :: canon(r)
  }

  /** The collapsed list of a set of canonical paths: its topmost paths, sorted. This determines it. */
  ghost predicate IsCollapsed(minimal: seq<Path>, paths: set<Path>) {
    Sorted(minimal) && forall p :: p in minimal <==> IsTop(p, paths)
  }

  /** The pass after its first i candidates: the survivors are the topmost paths so far, and they
      cover all candidates so far. */
  ghost predicate Pass(canonical: seq<Path>, minimal: seq<Path>, i: nat)
    requires i <= |canonical|
  {
    && Sorted(canonical) && Sorted(minimal)
    && (forall m :: m in minimal ==> m in canonical[..i])
    && (forall k :: 0 <= k < i ==> (canonical[k] in minimal <==> IsTop(canonical[k], Elements(canonical))))
    && (forall k :: 0 <= k < i ==> CoveredBy(canonical[k], Elements(minimal)))
  }

  /** `canon` is CanonicalizeBestEffort. */
  method CollapseRedundantRoots(roots: seq<Path>, canon: Path -> Path) returns (minimal: seq<Path>)
    ensures IsCollapsed(minimal, Canonical(roots, canon))
  {
    var canonical := seq(|roots|, i requires 0 <= i < |roots| => canon(roots[i]));
    CanonicalElements(roots, canon, canonical);
    canonical := SortUnique(canonical);
    minimal := [];
    for i := 0 to |canonical|
      invariant Pass(canonical, minimal, i)
    {
      PassStep(canonical, minimal, i);
      hide Pass;
      if !Absorbed(canonical[i], minimal) {
        minimal := minimal + [canonical[i]];
      }
    }
    PassDone(canonical, minimal);
  }

  lemma PassStep(canonical: seq<Path>, minimal: seq<Path>, i: nat)
    requires i < |canonical| && Pass(canonical, minimal, i)
    ensures Pass(canonical, if Absorbed(canonical[i], minimal) then minimal else minimal + [canonical[i]], i + 1)
  {
    hide Less, IsUnderOrEqual, IsTop, CoveredBy, Absorbed;
    var c := canonical[i];
    var after := if Absorbed(c, minimal) then minimal else minimal + [c];
    AbsorbedExactly(canonical, minimal, i);
    forall k | 0 <= k <= i ensures CoveredBy(canonical[k], Elements(after)) {
      KeptCover(canonical[k], minimal, after);
    }
    forall k | 0 <= k < i ensures canonical[k] in after <==> canonical[k] in minimal {
      LessTotal(canonical[k], c);
    }
    NotYet(c, minimal);
    assert canonical[..i + 1] == canonical[..i] + [c];
    assert Sorted(after);
  }

  lemma NotYet(c: Path, minimal: seq<Path>)
    requires forall m :: m in minimal ==> Less(m, c)
    ensures c !in minimal
  {
    if c in minimal {
      LessTotal(c, c);
    }
  }

  lemma PassDone(canonical: seq<Path>, minimal: seq<Path>)
    requires Pass(canonical, minimal, |canonical|)
    ensures IsCollapsed(minimal, Elements(canonical))
  {
    forall p | IsTop(p, Elements(canonical)) ensures p in minimal {
      var k :| 0 <= k < |canonical| && canonical[k] == p;
    }
    forall p | p in minimal ensures IsTop(p, Elements(canonical)) {
      var k :| 0 <= k < |canonical| && canonical[k] == p;
    }
  }

  predicate Absorbed(candidate: Path, minimal: seq<Path>) {
    exists kept :: kept in minimal && IsUnderOrEqual(candidate, kept)
  }

  lemma CanonicalElements(roots: seq<Path>, canon: Path -> Path, canonical: seq<Path>)
    requires |canonical| == |roots| && forall i :: 0 <= i < |roots| ==> canonical[i] == canon(roots[i])
    ensures Elements(canonical) == Canonical(roots, canon)
  {
    forall p | p in Canonical(roots, canon) ensures p in canonical {
      var r :| r in roots && canon(r) == p;
      var i :| 0 <= i < |roots| && roots[i] == r;
      assert canonical[i] == p;
    }
  }

  lemma KeptCover(p: Path, before: seq<Path>, after: seq<Path>)
    requires before <= after
    ensures CoveredBy(p, Elements(before)) ==> CoveredBy(p, Elements(after))
    ensures p in after ==> CoveredBy(p, Elements(after))
    ensures Absorbed(p, before) ==> CoveredBy(p, Elements(after))
  {
    assert IsUnderOrEqual(p, p);
  }

  /** In sorted order, a path is absorbed by an earlier survivor exactly when it is not topmost. */
  lemma AbsorbedExactly(canonical: seq<Path>, minimal: seq<Path>, i: nat)
    requires i < |canonical| && Sorted(canonical)
    requires forall m :: m in minimal ==> m in canonical[..i]
    requires forall k :: 0 <= k < i ==> CoveredBy(canonical[k], Elements(minimal))
    ensures Absorbed(canonical[i], minimal) <==> !IsTop(canonical[i], Elements(canonical))
    ensures forall m :: m in minimal ==> Less(m, canonical[i])
  {
    var c := canonical[i];
    forall m | m in minimal ensures Less(m, c) && m != c && m in canonical {
      var j :| 0 <= j < i && canonical[j] == m;
      LessTotal(m, c);
    }
    if !IsTop(c, Elements(canonical)) {
      var q :| q in canonical && IsUnderOrEqual(c, q) && q != c;
      var j :| 0 <= j < |canonical| && canonical[j] == q;
      AncestorSortsFirst(c, q);
      LessTotal(c, q);
      assert j < i;
      var m :| m in minimal && IsUnderOrEqual(q, m);
      UnderTransitive(c, q, m);
    }
  }

  // ----- What a collapsed list is worth -----

  /** No path of the list is under another one. */
  ghost predicate Antichain(s: seq<Path>) {
    forall i, j :: 0 <= i < |s| && 0 <= j < |s| && i != j ==> !IsUnderOrEqual(s[i], s[j])
  }

  lemma CollapsedIsAntichain(minimal: seq<Path>, paths: set<Path>)
    requires IsCollapsed(minimal, paths)
    ensures Antichain(minimal) && forall m :: m in minimal ==> m in paths
  {
    forall i, j | 0 <= i < |minimal| && 0 <= j < |minimal| && i != j
      ensures !IsUnderOrEqual(minimal[i], minimal[j])
    {
      assert IsTop(minimal[i], paths) && IsTop(minimal[j], paths);
      LessTotal(minimal[i], minimal[j]);
    }
  }

  /** Every path of a set is under one of its topmost paths. */
  lemma TopAbove(p: Path, paths: set<Path>) returns (top: Path)
    requires p in paths
    ensures IsTop(top, paths) && IsUnderOrEqual(p, top)
    decreases |p|
  {
    if IsTop(p, paths) {
      return p;
    }
    var q :| q in paths && IsUnderOrEqual(p, q) && q != p;
    top := TopAbove(q, paths);
    UnderTransitive(p, q, top);
  }

  /** Collapsing loses nothing: a path is under some output exactly when it is under some canonical
      input. */
  lemma CollapsedCoverage(minimal: seq<Path>, paths: set<Path>, path: Path)
    requires IsCollapsed(minimal, paths)
    ensures CoveredBy(path, Elements(minimal)) <==> CoveredBy(path, paths)
  {
    if CoveredBy(path, paths) {
      var q :| q in paths && IsUnderOrEqual(path, q);
      var top := TopAbove(q, paths);
      UnderTransitive(path, q, top);
      assert top in Elements(minimal);
    }
    if CoveredBy(path, Elements(minimal)) {
      var m :| m in Elements(minimal) && IsUnderOrEqual(path, m);
      assert IsTop(m, paths);
    }
  }

  /** A sorted list is determined by its elements. */
  lemma {:induction false} SortedDetermined(s: seq<Path>, t: seq<Path>)
    requires Sorted(s) && Sorted(t) && Elements(s) == Elements(t)
    ensures s == t
  {
    NonEmpty(s);
    NonEmpty(t);
    if s != [] {
      assert s[0] in Elements(t) && t[0] in Elements(s);
      var i :| 0 <= i < |t| && t[i] == s[0];
      var j :| 0 <= j < |s| && s[j] == t[0];
      LessTotal(s[0], t[0]);
      TailElements(s);
      TailElements(t);
      SortedDetermined(s[1..], t[1..]);
    }
  }

  lemma NonEmpty(s: seq<Path>)
    ensures Elements(s) == {} <==> s == []
  {
    if s != [] {
      assert s[0] in Elements(s);
    }
  }

  lemma TailElements(s: seq<Path>)
    requires Sorted(s) && s != []
    ensures Sorted(s[1..]) && Elements(s[1..]) == Elements(s) - {s[0]}
  {
    forall i | 0 < i < |s| ensures s[i] != s[0] {
      LessTotal(s[0], s[i]);
    }
    assert s == [s[0]] + s[1..];
  }

  /** For an idempotent canonicalizer, collapsing twice changes nothing; more generally a sorted
      antichain of canonical paths is already collapsed. */
  lemma CollapseFixpoint(roots: seq<Path>, canon: Path -> Path, again: seq<Path>)
    requires Sorted(roots) && Antichain(roots) && forall r :: r in roots ==> canon(r) == r
    requires IsCollapsed(again, Canonical(roots, canon))
    ensures again == roots
  {
    assert Canonical(roots, canon) == Elements(roots);
    forall p | p in roots ensures p in again {
      forall q | q in roots && IsUnderOrEqual(p, q) ensures q == p {
        var i :| 0 <= i < |roots| && roots[i] == p;
        var j :| 0 <= j < |roots| && roots[j] == q;
      }
      assert IsTop(p, Elements(roots));
    }
    SortedDetermined(again, roots);
  }

  lemma CollapseTwice(roots: seq<Path>, canon: Path -> Path, once: seq<Path>, twice: seq<Path>)
    requires forall p :: canon(canon(p)) == canon(p)
    requires IsCollapsed(once, Canonical(roots, canon)) && IsCollapsed(twice, Canonical(once, canon))
    ensures twice == once
  {
    CollapsedIsAntichain(once, Canonical(roots, canon));
    CollapseFixpoint(once, canon, twice);
  }

  // ----- DiffRoots -----

  datatype RootsDiff = RootsDiff(added: seq<Path>, removed: seq<Path>)

  /** The elements of s that are not in `without`, in order. */
  function Minus(s: seq<Path>, without: set<Path>, n: nat): (r: seq<Path>)
    requires n <= |s|
    ensures forall p :: p in r <==> p in s[..n] && p !in without
  {
    if n == 0 then []
    else
      assert s[..n] == s[..n - 1] + [s[n - 1]];
      if s[n - 1] !in without then Minus(s, without, n - 1) + [s[n - 1]] else Minus(s, without, n - 1)
  }

  function Diff(oldRoots: seq<Path>, newRoots: seq<Path>): RootsDiff {
    RootsDiff(Minus(newRoots, Elements(oldRoots), |newRoots|), Minus(oldRoots, Elements(newRoots), |oldRoots|))
  }

  method DiffRoots(oldRoots: seq<Path>, newRoots: seq<Path>) returns (diff: RootsDiff)
    ensures diff == Diff(oldRoots, newRoots)
    ensures forall p :: p in diff.added <==> p in newRoots && p !in oldRoots
    ensures forall p :: p in diff.removed <==> p in oldRoots && p !in newRoots
  {
    var oldSet, newSet := Elements(oldRoots), Elements(newRoots);
    var added: seq<Path> := [];
    for i := 0 to |newRoots|
      invariant added == Minus(newRoots, oldSet, i)
    {
      if newRoots[i] !in oldSet {
        added := added + [newRoots[i]];
      }
    }
    var removed: seq<Path> := [];
    for i := 0 to |oldRoots|
      invariant removed == Minus(oldRoots, newSet, i)
    {
      if oldRoots[i] !in newSet {
        removed := removed + [oldRoots[i]];
      }
    }
    assert newRoots[..|newRoots|] == newRoots && oldRoots[..|oldRoots|] == oldRoots;
    return RootsDiff(added, removed);
  }

  /** A list of new roots is the kept old ones and the added ones; a list of old roots is the kept
      ones and the removed ones. */
  lemma DiffAccounts(oldRoots: seq<Path>, newRoots: seq<Path>)
    ensures var d := Diff(oldRoots, newRoots);
      && Elements(newRoots) == Elements(oldRoots) - Elements(d.removed) + Elements(d.added)
      && Elements(d.removed) <= Elements(oldRoots) && Elements(d.added) !! Elements(oldRoots)
      && (d.added == [] <==> Elements(newRoots) <= Elements(oldRoots))
      && (d.removed == [] <==> Elements(oldRoots) <= Elements(newRoots))
  {
    var d := Diff(oldRoots, newRoots);
    assert newRoots[..|newRoots|] == newRoots && oldRoots[..|oldRoots|] == oldRoots;
    if d.added != [] {
      assert d.added[0] in d.added;
    }
    if d.removed != [] {
      assert d.removed[0] in d.removed;
    }
  }
}
