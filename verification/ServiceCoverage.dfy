/** The index ends up reflecting the latest request: what the live index holds in every orderly run
    of the index-work protocol, whatever is cancelled and however the threads interleave. */
module ServiceCoverage {
  import opened Common
  import opened PathUtils
  import opened WalkTree
  import opened IndexStores
  import opened IndexServices
  import opened ServiceModel
  import opened ServiceFrames
  import opened ServiceQueue
  import opened ServiceScope
  import opened ServiceRequests
  import opened ServiceData

  ghost predicate OrderlyInv(s: State) {
    TokensOk(s.locked) && Queued(s) && DataOk(s)
  }

  lemma InitialOrderly(s: State)
    requires Initial(s)
    ensures OrderlyInv(s)
  {
    NoRoots(s.disk);
    hide FromRoot, Scope;
  }

  lemma {:induction false} RunOrderly(s: State, run: seq<Label>, s': State)
    requires OrderlyInv(s) && IsOrderlyRun(s, run, s')
    ensures OrderlyInv(s')
    decreases |run|
  {
    hide TokensOk, Queued, DataOk, Apply, Enabled, Orderly;
    if run != [] {
      StepTokens(s, run[0]);
      StepQueued(s, run[0]);
      StepData(s, run[0]);
      RunOrderly(Apply(s, run[0]), run[1..], s');
    }
  }

  lemma {:induction false} RunUndisturbed(s: State, run: seq<Label>, s': State)
    requires IsOrderlyRun(s, run, s') && forall i :: 0 <= i < |run| ==> !Disturbs(run[i])
    ensures s'.hist.disturbed == s.hist.disturbed
    decreases |run|
  {
    hide Apply, Enabled, Orderly, Disturbs;
    if run != [] {
      HistoryStep(s, run[0]);
      RunUndisturbed(Apply(s, run[0]), run[1..], s');
    }
  }

  /** No request is waiting to be executed, and none is. */
  ghost predicate Drained(s: State) {
    && s.pc.Waiting? && !s.locked.shuttingDown
    && (forall c :: c in s.locked.commands || c in s.pending ==> !IsBusy(c))
  }

  lemma {:induction false} BusiesNone(cs: seq<Command>)
    requires forall c :: c in cs ==> !IsBusy(c)
    ensures Busies(cs) == []
  {
    if cs != [] {
      BusiesNone(cs[..|cs| - 1]);
    }
  }

  /** The request scanned everything, or every root it kept contributes the same under the exclusions
      it was last scanned with and under the request's. */
  ghost predicate OptionsTaken(disk: Disk, b: Base) {
    b.full || forall r :: r in b.held && r in RootsOf(b.c) ==>
      SameContents(disk, r, b.held[r], OptionsOf(b.c).excluded)
  }

  /** Main theorem, over the runs in which only file operations change the disk. Between commands the
      live index is exactly, but for what has been taken off the disk, what scans of the last dequeued
      request's roots emit now, each root with the exclusions it was last scanned with, unless
      needsFullRebuild_ says otherwise; it says otherwise only after a cancelled request; and when
      everything has drained and the latest request was not cancelled, the index is that request's, and
      is a scan with its own options if and only if these are taken. */
  lemma IndexReflectsLatest(start: State, run: seq<Label>, s: State)
    requires Initial(start) && IsOrderlyRun(start, run, s)
    requires forall i :: 0 <= i < |run| ==> !Disturbs(run[i])
    ensures NoDuplicates(s.live) && s.hist.vanished !! s.disk.Keys
    ensures !Executing(s.pc) && !s.needsFullRebuild ==>
      && Held(s.hist.base).Keys == Elements(RequestRoots(s.hist.current))
      && Elements(s.live) - s.hist.vanished == Scope(s.disk, Held(s.hist.base))
    ensures !Executing(s.pc) && s.needsFullRebuild ==>
      s.hist.current.Some? && IsBusy(s.hist.current.value) && IsCancelled(s, s.hist.current.value)
    ensures Drained(s) ==> s.hist.current == s.hist.latest
    ensures Drained(s) && s.hist.latest.Some? && IsBusy(s.hist.latest.value) && !IsCancelled(s, s.hist.latest.value) ==>
      && s.hist.base.Some? && s.hist.base.value.c == s.hist.latest.value
      && Elements(s.live) - s.hist.vanished == Scope(s.disk, Held(s.hist.base))
      && (Elements(s.live) - s.hist.vanished == Scope(s.disk, CoverOf(OptionsOf(s.hist.latest.value))) <==>
            OptionsTaken(s.disk, s.hist.base.value))
  {
    InitialOrderly(start);
    RunOrderly(start, run, s);
    InitialQuiet(start);
    RunUndisturbed(start, run, s);
    hide Initial, IsOrderlyRun, Scope, RootsOf, OptionsTaken, Held, CoverOf, Queued;
    if !Executing(s.pc) {
      IdleBetween(s);
      if !s.needsFullRebuild {
        CurrentKeys(s);
      }
    }
    if Drained(s) {
      DrainedCurrent(s);
      if s.hist.latest.Some? && !s.needsFullRebuild {
        TakenExactly(s);
      }
    }
  }

  lemma TakenExactly(s: State)
    requires CurrentDecided(s) && s.hist.current.Some? && Antichain(RequestRoots(s.hist.current))
    ensures var b := s.hist.base.value;
      Scope(s.disk, Held(s.hist.base)) == Scope(s.disk, CoverOf(OptionsOf(b.c))) <==> OptionsTaken(s.disk, b)
  {
    hide Scope, Held, CoverOf;
    ReflectedExactly(s.disk, s.hist.base.value);
  }

  lemma IdleBetween(s: State)
    requires DataOk(s) && !Executing(s.pc)
    ensures IdleOk(s)
  {
    hide Reflects, RemovingOk, ScanOk, DropsSlash, DiffOf, Scope, RootsOf, Held, Continues, RowsFit;
  }

  lemma DrainedCurrent(s: State)
    requires Queued(s) && Drained(s)
    ensures s.hist.current == s.hist.latest
  {
    BusiesNone(s.locked.commands);
    BusiesNone(s.pending);
    hide Busies, Follows;
    assert Busies(s.locked.commands) + Busies(s.pending) == [];
  }

  /** Every image a save writes is duplicate-free and under the roots of the command that saves, and
      in runs in which only file operations change the disk it is, but for what they took off it, what
      scans of these roots emit now, each with the exclusions it was last scanned with, like the live
      index; so it is a scan with the saving request's own options exactly if these are taken. */
  lemma SavedImageReflects(start: State, run: seq<Label>, s: State)
    requires Initial(start) && IsOrderlyRun(start, run, s) && s.pc.Writing?
    ensures RowsFit(s.pc.image, Elements(RootsOf(s.pc.c)))
    ensures s.hist.base.Some? && s.hist.base.value.c == s.pc.c
    ensures (forall i :: 0 <= i < |run| ==> !Disturbs(run[i])) ==>
      && Elements(s.pc.image) - s.hist.vanished == Scope(s.disk, Held(s.hist.base))
      && Elements(s.live) - s.hist.vanished == Scope(s.disk, Held(s.hist.base))
      && (Elements(s.pc.image) - s.hist.vanished == Scope(s.disk, CoverOf(OptionsOf(s.pc.c))) <==>
            OptionsTaken(s.disk, s.hist.base.value))
  {
    hide Initial, IsOrderlyRun, Scope, RootsOf, TokensOk, Queued, DataOk, RowsFit, Disturbs, OptionsTaken, Held,
      CoverOf;
    assert !start.hist.disturbed by { InitialQuiet(start); }
    InitialOrderly(start);
    RunOrderly(start, run, s);
    WritingReflects(s);
    if forall i :: 0 <= i < |run| ==> !Disturbs(run[i]) {
      RunUndisturbed(start, run, s);
    }
  }

  lemma InitialQuiet(s: State)
    requires Initial(s)
    ensures !s.hist.disturbed
  {
  }

  lemma WritingReflects(s: State)
    requires DataOk(s) && s.pc.Writing?
    ensures RowsFit(s.pc.image, Elements(RootsOf(s.pc.c)))
    ensures s.hist.base.Some? && s.hist.base.value.c == s.pc.c
    ensures !s.hist.disturbed ==>
      && Elements(s.pc.image) - s.hist.vanished == Scope(s.disk, Held(s.hist.base))
      && Elements(s.live) - s.hist.vanished == Scope(s.disk, Held(s.hist.base))
    ensures Scope(s.disk, Held(s.hist.base)) == Scope(s.disk, CoverOf(OptionsOf(s.pc.c))) <==>
      OptionsTaken(s.disk, s.hist.base.value)
  {
    hide Antichain, DropsSlash, DiffOf, NoDuplicates, Scope, Held, CoverOf, OptionsTaken;
    HeldKeys(s.hist.base.value);
    TakenExactly(s);
  }

  // ----- The one Settings change RemovePaths cannot carry out -----

  ghost predicate Absolute(paths: set<Path>) {
    forall p :: p in paths ==> |p| > 0 && p[0] == '/' && (|p| > 1 ==> p[1] != '/')
  }

  /** Dropping roots leaves exactly the scope of the kept ones if and only if "/" is not dropped, or
      nothing was indexed. */
  lemma RemovalExactly(disk: Disk, live: seq<Path>, c: Command, held: Cover)
    requires c.Change? && DiffOf(c).added == [] && Antichain(c.oldRoots) && held.Keys == Elements(c.oldRoots)
    requires Absolute(Elements(c.oldRoots)) && Absolute(disk.Keys)
    requires "/" in disk ==> disk["/"].kind == Dir
    requires Elements(live) == Scope(disk, held)
    ensures var removed := DiffOf(c).removed;
      Elements(NotUnderAny(live, removed, |removed|)) == Scope(disk, held - Elements(removed))
      <==> !DropsSlash(c) || live == []
  {
    hide Scope, Diff, DropsSlash, NotUnderAny;
    if DropsSlash(c) {
      SlashDropped(disk, live, c, held);
      if live != [] {
        assert live[0] in Elements(live);
      }
    } else {
      OthersDropped(disk, live, c, held);
    }
  }

  lemma OthersDropped(disk: Disk, live: seq<Path>, c: Command, held: Cover)
    requires c.Change? && DiffOf(c).added == [] && Antichain(c.oldRoots) && !DropsSlash(c)
    requires held.Keys == Elements(c.oldRoots) && Elements(live) == Scope(disk, held)
    ensures var removed := DiffOf(c).removed;
      Elements(NotUnderAny(live, removed, |removed|)) == Scope(disk, held - Elements(removed))
  {
    hide Scope;
    var removed := DiffOf(c).removed;
    var left := NotUnderAny(live, removed, |removed|);
    NotUnderAnyMembers(live, removed, |removed|);
    forall p ensures p in Elements(left) <==> p in Scope(disk, held - Elements(removed)) {
      assert p in live <==> p in Elements(live);
      RemovalScope(disk, held, c.oldRoots, RootsOf(c), p);
    }
  }

  lemma SlashDropped(disk: Disk, live: seq<Path>, c: Command, held: Cover)
    requires DropsSlash(c) && Antichain(c.oldRoots) && held.Keys == Elements(c.oldRoots)
    requires Absolute(Elements(c.oldRoots)) && Absolute(disk.Keys)
    requires "/" in disk ==> disk["/"].kind == Dir
    requires Elements(live) == Scope(disk, held)
    ensures Scope(disk, held - Elements(DiffOf(c).removed)) == {}
    ensures Elements(NotUnderAny(live, DiffOf(c).removed, |DiffOf(c).removed|)) == Elements(live)
  {
    hide Scope;
    var removed := DiffOf(c).removed;
    var left := NotUnderAny(live, removed, |removed|);
    DiffAccounts(c.oldRoots, RootsOf(c));
    SlashAlone(c.oldRoots);
    assert "/" in Elements(removed);
    assert held - Elements(removed) == map[];
    NoRoots(disk);
    NotUnderAnyMembers(live, removed, |removed|);
    forall p | p in live ensures p in left {
      assert p in Elements(live);
      NotARoot(disk, held, p);
      SlashKeeps(disk, removed, p);
    }
  }

  lemma SlashAlone(roots: seq<Path>)
    requires Antichain(roots) && "/" in roots && Absolute(Elements(roots))
    ensures Elements(roots) == {"/"}
  {
    forall r | r in roots ensures r == "/" {
      assert r in Elements(roots);
      if r != "/" {
        assert IsUnderOrEqual(r, "/");
        AntichainApart(roots, r);
      }
    }
  }

  lemma AntichainApart(roots: seq<Path>, r: Path)
    requires Antichain(roots) && "/" in roots && r in roots && r != "/"
    ensures !IsUnderOrEqual(r, "/")
  {
    var i :| 0 <= i < |roots| && roots[i] == r;
    var j :| 0 <= j < |roots| && roots[j] == "/";
  }

  /** RemoveEntriesUnderPath("/") leaves every path of the disk other than "/" itself. */
  lemma SlashKeeps(disk: Disk, removed: seq<Path>, p: Path)
    requires Elements(removed) <= {"/"} && Absolute(disk.Keys)
    requires p in disk && p != "/"
    ensures Outside(p, removed, |removed|)
  {
    forall k | 0 <= k < |removed| ensures !IsUnderPath(p, removed[k]) {
      assert removed[k] in Elements(removed);
      UnderTestsAgree(p, "/");
    }
  }

  lemma NotARoot(disk: Disk, held: Cover, p: Path)
    requires held.Keys == {"/"} && p in Scope(disk, held)
    requires "/" in disk ==> disk["/"].kind == Dir
    ensures p in disk && p != "/"
  {
    var r :| r in held && FromRoot(disk, held[r], r, p);
    assert r in held.Keys;
    if disk[r].kind == Dir {
      BelowIsUnder(TreeOf(disk, held[r]), r, p);
    }
  }
}
