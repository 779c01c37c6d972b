/** The file system a scan walks, and what the scan of src/core/indexer/WalkScanner.cpp must emit. */
module WalkTree {
  import opened Common
  import opened PathUtils

  // ----- The file system, as an unchanging finite tree -----

  datatype Kind = File | Dir | Link

  /** `readable`: the directory can be opened and listed. */
  datatype Node = Node(kind: Kind, dev: nat, readable: bool)

  /** What one scan works on; `roots` is the collapsed root list. */
  datatype Tree = Tree(fs: map<Path, Node>, excluded: seq<Path>, roots: seq<Path>)

  function LastSlash(p: Path): (i: int)
    ensures -1 <= i < |p| && (i >= 0 ==> p[i] == '/')
    ensures forall k :: i < k < |p| ==> p[k] != '/'
  {
    if |p| == 0 then -1 else if p[|p| - 1] == '/' then |p| - 1 else LastSlash(p[..|p| - 1])
  }

  /** p is a directory's path followed by one path component. */
  predicate HasParent(p: Path) {
    0 <= LastSlash(p) < |p| - 1
  }

  function ParentOf(p: Path): (d: Path)
    requires HasParent(p)
    ensures |d| < |p|
  {
    if LastSlash(p) == 0 then "/" else p[..LastSlash(p)]
  }

  function JoinPath(dir: Path, name: string): Path {
    if dir == "/" then "/" + name else dir + "/" + name
  }

  /** Listing a directory and joining names gives exactly the paths whose parent it is. */
  lemma JoinPathParent(dir: Path, name: string)
    requires name != "" && forall k :: 0 <= k < |name| ==> name[k] != '/'
    requires dir == "/" || (dir != "" && dir[|dir| - 1] != '/')
    ensures HasParent(JoinPath(dir, name)) && ParentOf(JoinPath(dir, name)) == dir
  {
    var p := JoinPath(dir, name);
    var slash := if dir == "/" then 0 else |dir|;
    assert p[slash] == '/' && p[slash + 1..] == name;
    assert forall k :: slash < k < |p| ==> p[k] == name[k - slash - 1];
    assert LastSlash(p) == slash;
  }

  lemma ParentAbove(p: Path)
    requires HasParent(p)
    ensures IsUnderOrEqual(p, ParentOf(p)) && p != ParentOf(p)
  {
    if LastSlash(p) == 0 {
      assert p[0] == '/';
    }
  }

  predicate Excluded(t: Tree, p: Path) {
    exists e :: e in t.excluded && IsUnderPath(p, e)
  }

  /** Neither a symlink nor excluded. */
  predicate Passes(t: Tree, p: Path) {
    p in t.fs && t.fs[p].kind != Link && !Excluded(t, p)
  }

  predicate IsRootDir(t: Tree, r: Path) {
    r in t.roots && Passes(t, r) && t.fs[r].kind == Dir
  }

  predicate IsRootFile(t: Tree, r: Path) {
    r in t.roots && Passes(t, r) && t.fs[r].kind == File
  }

  /** A directory on the root's device: the walk goes into it. */
  predicate Descends(t: Tree, r: Path, d: Path)
    requires r in t.fs
  {
    d in t.fs && t.fs[d].kind == Dir && t.fs[d].dev == t.fs[r].dev
  }

  /** What a scan of directory root r must emit: every path that passes, below a chain of readable
      directories that pass and are on r's device. */
  predicate Below(t: Tree, r: Path, p: Path)
    requires r in t.fs
    decreases |p|
  {
    && HasParent(p) && Passes(t, p)
    && ParentOf(p) in t.fs && t.fs[ParentOf(p)].readable
    && (ParentOf(p) == r || (Below(t, r, ParentOf(p)) && Descends(t, r, ParentOf(p))))
  }

  ghost predicate InScan(t: Tree, p: Path) {
    IsRootFile(t, p) || exists r :: IsRootDir(t, r) && Below(t, r, p)
  }

  /** Nothing a scan emits is missing, a symlink, or an excluded path or below one. */
  lemma ScanIsPlain(t: Tree, p: Path)
    requires InScan(t, p)
    ensures p in t.fs && t.fs[p].kind != Link
    ensures forall e :: e in t.excluded ==> p != e && !(e + "/" <= p)
  {
    assert Passes(t, p);
    forall e | e in t.excluded ensures p != e && !(e + "/" <= p) {
      SlashUnder(p, e);
    }
  }

  lemma SlashUnder(p: Path, e: Path)
    ensures e + "/" <= p ==> IsUnderPath(p, e)
  {
    if e + "/" <= p {
      assert p[..|e|] == (e + "/")[..|e|] == e && p[|e|] == (e + "/")[|e|];
    }
  }

  lemma {:induction false} BelowIsUnder(t: Tree, r: Path, p: Path)
    requires r in t.fs && Below(t, r, p)
    ensures IsUnderOrEqual(p, r) && p != r
    decreases |p|
  {
    ParentAbove(p);
    if ParentOf(p) != r {
      BelowIsUnder(t, r, ParentOf(p));
      UnderTransitive(p, ParentOf(p), r);
      assert |r| <= |ParentOf(p)|;
    }
  }

  lemma AntichainMembers(roots: seq<Path>, p: Path, r: Path)
    requires Antichain(roots) && r in roots && IsUnderOrEqual(p, r) && p != r
    ensures p !in roots
  {
    var j :| 0 <= j < |roots| && roots[j] == r;
    forall i | 0 <= i < |roots| ensures roots[i] != p {
      assert i != j ==> !IsUnderOrEqual(roots[i], roots[j]);
    }
  }

  /** Nothing below a root of a collapsed list is a root itself: the walk's test for explicitly
      selected roots on other devices never succeeds. */
  lemma NoRootBelowRoot(t: Tree, r: Path, p: Path)
    requires Antichain(t.roots) && IsRootDir(t, r) && Below(t, r, p)
    ensures p !in t.roots
  {
    BelowIsUnder(t, r, p);
    AntichainMembers(t.roots, p, r);
  }

  lemma OneRootAbove(t: Tree, r: Path, q: Path, p: Path)
    requires Antichain(t.roots) && IsRootDir(t, r) && IsRootDir(t, q)
    requires Below(t, r, p) && Below(t, q, p)
    ensures r == q
  {
    BelowIsUnder(t, r, p);
    BelowIsUnder(t, q, p);
    SameRoot(t.roots, r, q, p);
  }

  lemma ParentStillUnder(p: Path, q: Path)
    requires HasParent(p) && IsUnderOrEqual(p, q) && p != q
    ensures IsUnderOrEqual(ParentOf(p), q)
  {
    if q != "/" {
      assert LastSlash(p) >= |q|;
      assert p[..LastSlash(p)][..|q|] == q;
    }
  }

  /** The chain of directories above an emitted path goes through everything between it and its root. */
  lemma {:induction false} BelowThrough(t: Tree, r: Path, q: Path, p: Path)
    requires r in t.fs && Below(t, r, p)
    requires IsUnderOrEqual(p, q) && p != q && IsUnderOrEqual(q, r) && q != r
    ensures Below(t, r, q) && Descends(t, r, q)
    decreases |p|
  {
    var u := ParentOf(p);
    ParentStillUnder(p, q);
    hide HasParent, ParentOf;
    if u != q {
      BelowThrough(t, r, q, u);
    }
  }

  /** Walks compose: what is below a directory that r's walk goes into is below r. */
  lemma {:induction false} BelowComposes(t: Tree, r: Path, q: Path, p: Path)
    requires r in t.fs && q in t.fs && Below(t, r, q) && Descends(t, r, q) && Below(t, q, p)
    ensures Below(t, r, p)
    decreases |p|
  {
    if ParentOf(p) != q {
      BelowComposes(t, r, q, ParentOf(p));
    }
  }

  /** What becomes of a selected directory, exactly: its contents are scanned if and only if it is
      still a root after collapsing, or the walk of a root reaches it and goes into it, that is, every
      directory on the way is readable, passes and is on that root's device, and so is it. */
  lemma SelectedScannedExactly(t: Tree, selected: set<Path>, q: Path, p: Path)
    requires IsCollapsed(t.roots, selected) && q in selected
    requires Passes(t, q) && t.fs[q].kind == Dir && Below(t, q, p)
    ensures InScan(t, p) <==> q in t.roots || exists r :: IsRootDir(t, r) && Below(t, r, q) && Descends(t, r, q)
  {
    CollapsedIsAntichain(t.roots, selected);
    CollapsedCoverage(t.roots, selected, q);
    BelowIsUnder(t, q, p);
    var top :| top in t.roots && IsUnderOrEqual(q, top);
    UnderTransitive(p, q, top);
    hide HasParent, ParentOf, Passes, Below, Descends;
    if InScan(t, p) && q !in t.roots {
      UnderProper(p, q, top);
      AntichainMembers(t.roots, p, top);
      var r :| IsRootDir(t, r) && Below(t, r, p);
      BelowIsUnder(t, r, p);
      SameRoot(t.roots, r, top, p);
      BelowThrough(t, r, q, p);
    }
    if r :| IsRootDir(t, r) && Below(t, r, q) && Descends(t, r, q) {
      BelowComposes(t, r, q, p);
    }
  }

  lemma UnderProper(p: Path, q: Path, top: Path)
    requires IsUnderOrEqual(p, q) && p != q && IsUnderOrEqual(q, top)
    ensures p != top
  {
  }

  /** In particular, a selected root that lies on another device below another selected root is
      dropped from the collapsed list, and nothing below it is ever scanned: the walk stops there. */
  lemma SelectedMountSkipped(t: Tree, selected: set<Path>, r: Path, q: Path, p: Path)
    requires IsCollapsed(t.roots, selected) && q in selected
    requires IsRootDir(t, r) && IsUnderOrEqual(q, r) && q != r
    requires q in t.fs && t.fs[q].dev != t.fs[r].dev
    requires IsUnderOrEqual(p, q) && p != q
    ensures !InScan(t, p)
  {
    CollapsedIsAntichain(t.roots, selected);
    UnderTransitive(p, q, r);
    hide HasParent, ParentOf, Passes, Below;
    if IsRootFile(t, p) {
      AntichainMembers(t.roots, p, r);
    }
    forall s | IsRootDir(t, s) ensures !Below(t, s, p) {
      if Below(t, s, p) {
        BelowIsUnder(t, s, p);
        SameRoot(t.roots, r, s, p);
        BelowThrough(t, r, q, p);
      }
    }
  }

  lemma SameRoot(roots: seq<Path>, r: Path, s: Path, p: Path)
    requires Antichain(roots) && r in roots && s in roots && IsUnderOrEqual(p, r) && IsUnderOrEqual(p, s)
    ensures r == s
  {
    if r != s {
      var i :| 0 <= i < |roots| && roots[i] == r;
      var j :| 0 <= j < |roots| && roots[j] == s;
      if |r| <= |s| {
        AncestorsComparable(p, r, s);
      } else {
        AncestorsComparable(p, s, r);
      }
    }
  }
}
