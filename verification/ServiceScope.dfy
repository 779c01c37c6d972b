/** How the scope of a scan follows its roots: what adding, dropping and keeping roots does to it. */
module ServiceScope {
  import opened Common
  import opened PathUtils
  import opened WalkTree
  import opened IndexServices
  import opened ServiceModel

  lemma FromRootUnder(disk: Disk, excluded: seq<Path>, r: Path, p: Path)
    requires FromRoot(disk, excluded, r, p)
    ensures IsUnderOrEqual(p, r)
  {
    if disk[r].kind == Dir {
      BelowIsUnder(TreeOf(disk, excluded), r, p);
    }
  }

  lemma ScopeCovered(disk: Disk, cover: Cover)
    ensures forall p :: p in Scope(disk, cover) ==> CoveredBy(p, cover.Keys)
  {
    forall p | p in Scope(disk, cover) ensures CoveredBy(p, cover.Keys) {
      var r :| r in cover && FromRoot(disk, cover[r], r, p);
      FromRootUnder(disk, cover[r], r, p);
      assert r in cover.Keys;
    }
  }

  lemma NoRoots(disk: Disk)
    ensures Scope(disk, map[]) == {}
  {
  }

  /** The scope of a cover is the union of its parts' scopes. */
  lemma ScopeUnion(disk: Disk, a: Cover, b: Cover)
    requires a.Keys !! b.Keys
    ensures Scope(disk, a + b) == Scope(disk, a) + Scope(disk, b)
  {
    hide FromRoot;
    forall r ensures r in a + b <==> r in a || r in b {
    }
  }

  // ----- What becomes of a scope when files are removed -----

  lemma {:induction false} BelowWithout(t: Tree, u: Tree, r: Path, p: Path, g: Path)
    requires u.fs == Without(t.fs, g) && u.excluded == t.excluded && r in t.fs && r in u.fs
    requires !IsUnderOrEqual(p, g)
    ensures Below(t, r, p) <==> Below(u, r, p)
    decreases |p|
  {
    if HasParent(p) {
      var d := ParentOf(p);
      ParentAbove(p);
      if IsUnderOrEqual(d, g) {
        UnderTransitive(p, d, g);
      }
      BelowWithout(t, u, r, d, g);
      assert Passes(t, p) <==> Passes(u, p);
    }
  }

  lemma FromRootWithout(disk: Disk, excluded: seq<Path>, r: Path, p: Path, g: Path)
    ensures p in disk && FromRoot(disk, excluded, r, p) && !IsUnderOrEqual(p, g) <==>
      p in Without(disk, g) && FromRoot(Without(disk, g), excluded, r, p)
  {
    var rest := Without(disk, g);
    var t, u := TreeOf(disk, excluded), TreeOf(rest, excluded);
    assert p in rest <==> p in disk && !IsUnderOrEqual(p, g);
    if p in rest {
      if FromRoot(disk, excluded, r, p) {
        FromRootUnder(disk, excluded, r, p);
        if IsUnderOrEqual(r, g) {
          UnderTransitive(p, r, g);
        }
      }
      assert r in rest ==> (Passes(t, r) <==> Passes(u, r));
      if r in rest {
        BelowWithout(t, u, r, p, g);
      }
    }
  }

  /** Taking a path and everything below it off the disk takes exactly these out of every scope. */
  lemma ScopeWithout(disk: Disk, cover: Cover, g: Path)
    ensures Scope(Without(disk, g), cover) == set p | p in Scope(disk, cover) && !IsUnderOrEqual(p, g)
  {
    forall p ensures p in Scope(Without(disk, g), cover) <==> p in Scope(disk, cover) && !IsUnderOrEqual(p, g) {
      forall r | r in cover
        ensures p in disk && FromRoot(disk, cover[r], r, p) && !IsUnderOrEqual(p, g) <==>
          p in Without(disk, g) && FromRoot(Without(disk, g), cover[r], r, p)
      {
        FromRootWithout(disk, cover[r], r, p, g);
      }
      hide FromRoot, Without, IsUnderOrEqual;
    }
  }

  /** Disjoint parts of one collapsed list cover disjoint paths. */
  lemma PartsDisjoint(all: seq<Path>, a: seq<Path>, b: seq<Path>, p: Path)
    requires Antichain(all) && Elements(a) <= Elements(all) && Elements(b) <= Elements(all)
    requires Elements(a) !! Elements(b)
    ensures !(CoveredBy(p, Elements(a)) && CoveredBy(p, Elements(b)))
  {
    if CoveredBy(p, Elements(a)) && CoveredBy(p, Elements(b)) {
      var r :| r in Elements(a) && IsUnderOrEqual(p, r);
      var q :| q in Elements(b) && IsUnderOrEqual(p, q);
      assert r in Elements(all) && q in Elements(all);
      SameRoot(all, r, q, p);
    }
  }

  /** RemovePaths has nothing left to do for these roots: p is under none of the first n. */
  ghost predicate Outside(p: Path, removed: seq<Path>, n: nat)
    requires n <= |removed|
  {
    forall k :: 0 <= k < n ==> !IsUnderPath(p, removed[k])
  }

  lemma OutsideEach(p: Path, removed: seq<Path>, r: Path)
    requires Outside(p, removed, |removed|)
    ensures r in removed ==> !IsUnderPath(p, r)
  {
  }

  /** A path of the old roots that RemovePaths leaves is under a kept root. */
  lemma OutsideIsKept(oldRoots: seq<Path>, newRoots: seq<Path>, p: Path)
    requires Diff(oldRoots, newRoots).added == [] && "/" !in Diff(oldRoots, newRoots).removed
    requires CoveredBy(p, Elements(oldRoots))
    requires var removed := Diff(oldRoots, newRoots).removed; Outside(p, removed, |removed|)
    ensures CoveredBy(p, Elements(newRoots))
  {
    var removed := Diff(oldRoots, newRoots).removed;
    DiffAccounts(oldRoots, newRoots);
    var r :| r in Elements(oldRoots) && IsUnderOrEqual(p, r);
    OutsideEach(p, removed, r);
    UnderTestsAgree(p, r);
    assert r in Elements(newRoots);
  }

  /** A path of a kept root is untouched by RemovePaths. */
  lemma KeptIsOutside(oldRoots: seq<Path>, newRoots: seq<Path>, p: Path)
    requires Antichain(oldRoots)
    requires Diff(oldRoots, newRoots).added == [] && "/" !in Diff(oldRoots, newRoots).removed
    requires CoveredBy(p, Elements(newRoots))
    ensures var removed := Diff(oldRoots, newRoots).removed; Outside(p, removed, |removed|)
  {
    var removed := Diff(oldRoots, newRoots).removed;
    DiffAccounts(oldRoots, newRoots);
    forall k | 0 <= k < |removed| ensures !IsUnderPath(p, removed[k]) {
      assert removed[k] in removed && removed[k] in Elements(removed);
      UnderTestsAgree(p, removed[k]);
      if IsUnderOrEqual(p, removed[k]) {
        assert CoveredBy(p, Elements(removed));
        PartsDisjoint(oldRoots, newRoots, removed, p);
      }
    }
  }

  /** Dropping roots leaves exactly the scope of the kept ones. */
  lemma RemovalScope(disk: Disk, held: Cover, oldRoots: seq<Path>, newRoots: seq<Path>, p: Path)
    requires Antichain(oldRoots) && held.Keys == Elements(oldRoots)
    requires Diff(oldRoots, newRoots).added == [] && "/" !in Diff(oldRoots, newRoots).removed
    ensures var removed := Diff(oldRoots, newRoots).removed;
      p in Scope(disk, held - Elements(removed)) <==> p in Scope(disk, held) && Outside(p, removed, |removed|)
  {
    var removed := Diff(oldRoots, newRoots).removed;
    DiffAccounts(oldRoots, newRoots);
    var kept, lost := held - Elements(removed), map r | r in held && r in removed :: held[r];
    assert held == kept + lost && kept.Keys == Elements(newRoots) && lost.Keys == Elements(removed);
    ScopeUnion(disk, kept, lost);
    ScopeCovered(disk, kept);
    ScopeCovered(disk, lost);
    hide Scope, Outside, IsUnderOrEqual;
    if p in Scope(disk, kept) {
      KeptIsOutside(oldRoots, newRoots, p);
    } else if p in Scope(disk, held) && Outside(p, removed, |removed|) {
      CoveredMore(p, removed, oldRoots);
      OutsideIsKept(oldRoots, newRoots, p);
      PartsDisjoint(oldRoots, newRoots, removed, p);
      assert false;
    }
  }

  lemma CoveredMore(p: Path, a: seq<Path>, b: seq<Path>)
    requires Elements(a) <= Elements(b) && CoveredBy(p, Elements(a))
    ensures CoveredBy(p, Elements(b))
  {
  }

  // ----- What a decided request covers -----

  /** The request is one whose incremental path, if it took it, started from its old roots. */
  predicate Continues(b: Base) {
    b.full || (b.c.Change? && b.held.Keys == Elements(b.c.oldRoots))
  }

  lemma HeldKeys(b: Base)
    requires Continues(b)
    ensures Held(Some(b)).Keys == Elements(RootsOf(b.c))
  {
    if !b.full {
      DiffAccounts(b.c.oldRoots, b.c.newOptions.roots);
    }
  }

  /** A root contributes the same under both lists of exclusions. */
  ghost predicate SameContents(disk: Disk, r: Path, excluded: seq<Path>, excluded': seq<Path>) {
    forall p :: p in disk ==> (FromRoot(disk, excluded, r, p) <==> FromRoot(disk, excluded', r, p))
  }

  /** One scope under two lists of exclusions per root: equal exactly when every root contributes the
      same. */
  lemma SameScope(disk: Disk, roots: seq<Path>, a: Cover, b: Cover)
    requires Antichain(roots) && a.Keys == b.Keys == Elements(roots)
    ensures Scope(disk, a) == Scope(disk, b) <==> forall r :: r in a ==> SameContents(disk, r, a[r], b[r])
  {
    hide FromRoot;
    if Scope(disk, a) == Scope(disk, b) {
      forall r, p | r in a && p in disk
        ensures FromRoot(disk, a[r], r, p) <==> FromRoot(disk, b[r], r, p)
      {
        if FromRoot(disk, a[r], r, p) {
          OwnRoot(disk, roots, b, r, a[r], p);
        }
        if FromRoot(disk, b[r], r, p) {
          OwnRoot(disk, roots, a, r, b[r], p);
        }
      }
    } else if forall r :: r in a ==> SameContents(disk, r, a[r], b[r]) {
      forall p ensures p in Scope(disk, a) <==> p in Scope(disk, b) {
      }
      assert false;
    }
  }

  lemma OwnRoot(disk: Disk, roots: seq<Path>, cover: Cover, r: Path, excluded: seq<Path>, p: Path)
    requires Antichain(roots) && cover.Keys == Elements(roots) && r in cover && p in disk
    requires FromRoot(disk, excluded, r, p) && p in Scope(disk, cover)
    ensures FromRoot(disk, cover[r], r, p)
  {
    var q :| q in cover && FromRoot(disk, cover[q], q, p);
    FromRootUnder(disk, excluded, r, p);
    FromRootUnder(disk, cover[q], q, p);
    assert q in cover.Keys && r in cover.Keys;
    SameRoot(roots, r, q, p);
  }

  /** When what a request leaves covered is a scan of its own options: if it scanned everything, or if
      every kept root contributes the same under the exclusions it was scanned with and under the
      request's. */
  lemma ReflectedExactly(disk: Disk, b: Base)
    requires Continues(b) && Antichain(RootsOf(b.c))
    ensures Scope(disk, Held(Some(b))) == Scope(disk, CoverOf(OptionsOf(b.c))) <==>
      b.full || forall r :: r in b.held && r in RootsOf(b.c) ==>
        SameContents(disk, r, b.held[r], OptionsOf(b.c).excluded)
  {
    var held, own := Held(Some(b)), CoverOf(OptionsOf(b.c));
    HeldKeys(b);
    SameScope(disk, RootsOf(b.c), held, own);
    if !b.full {
      DiffAccounts(b.c.oldRoots, b.c.newOptions.roots);
      hide Scope, FromRoot, Antichain, Diff;
      forall r | r in held
        ensures held[r] == if r in b.held then b.held[r] else OptionsOf(b.c).excluded
      {
        assert r in Elements(RootsOf(b.c));
      }
      assert forall r :: r in held <==> r in RootsOf(b.c);
    }
  }
}
