/** What the index of a drained service holds of the disk as it then is, when only file operations have
    changed it: the scope of that disk, and what was below a removed directory. */
module ServiceDrained {
  import opened Common
  import opened PathUtils
  import opened IndexStores
  import opened IndexServices
  import opened ServiceModel
  import opened ServiceFrames
  import opened ServiceQueue
  import opened ServiceScope
  import opened ServiceRequests
  import opened ServiceData
  import opened ServiceCoverage
  import opened ServiceRemoval

  /** The file thread is not in the middle of a removal. */
  predicate FilesSettled(s: State) {
    !s.filePc.Deleted? && !s.filePc.Noted?
  }

  /** Live paths that went off the disk without being removed themselves: what was below a removed
      directory. */
  function Stale(s: State): set<Path> {
    Elements(s.live) * (s.hist.vanished - s.hist.gone)
  }

  ghost predicate LatestDone(s: State) {
    && Drained(s) && FilesSettled(s)
    && s.hist.latest.Some? && IsBusy(s.hist.latest.value) && !IsCancelled(s, s.hist.latest.value)
  }

  /** Main theorem. When everything has drained, the index is exactly the scope of the disk as it then
      is, together with the stale paths, each of which lay below a removed one; so it is that scope if
      and only if nothing is stale. */
  lemma DrainedExactly(start: State, run: seq<Label>, s: State)
    requires Initial(start) && IsOrderlyRun(start, run, s) && LatestDone(s)
    requires forall i :: 0 <= i < |run| ==> !Disturbs(run[i])
    ensures s.hist.base.Some? && s.hist.base.value.c == s.hist.latest.value
    ensures Elements(s.live) == Scope(s.disk, Held(s.hist.base)) + Stale(s)
    ensures Scope(s.disk, Held(s.hist.base)) !! Stale(s)
    ensures forall p :: p in Stale(s) ==> exists g :: g in s.hist.gone && IsUnderOrEqual(p, g) && p != g
  {
    StaleBelowRemoved(start, run, s);
    IndexReflectsLatest(start, run, s);
    DrainedGone(start, run, s);
    ScopeOnDisk(s.disk, Held(s.hist.base));
    hide Initial, IsOrderlyRun, Drained, Scope, Held, OptionsTaken, CoverOf, IsUnderOrEqual;
    forall p ensures p in Elements(s.live) <==> p in Scope(s.disk, Held(s.hist.base)) + Stale(s) {
      assert p in Elements(s.live) - s.hist.vanished <==> p in Scope(s.disk, Held(s.hist.base));
    }
  }

  /** No removed path is live. */
  lemma DrainedGone(start: State, run: seq<Label>, s: State)
    requires Initial(start) && IsOrderlyRun(start, run, s) && s.pc.Waiting? && FilesSettled(s)
    requires forall i :: 0 <= i < |run| ==> !Disturbs(run[i])
    ensures forall g :: g in s.hist.gone ==> g !in s.live
  {
    hide Initial, IsOrderlyRun, IsUnrepeatedRun, SettledOk, Disturbs, DataOk, TokensOk, Queued, RemovalOk, FlagOk;
    assert !start.hist.disturbed by { InitialQuiet(start); }
    InitialOrderly(start);
    OrderlyIsUnrepeated(start, run, s);
    RunOrderly(start, run, s);
    RunUndisturbed(start, run, s);
    NothingRevived(s);
    RemovedStaysRemoved(start, run, s);
    InitialRemoval(start);
    RunRemoval(start, run, s);
    WaitingFinished(s);
  }

  lemma NothingRevived(s: State)
    requires DataOk(s) && !s.hist.disturbed
    ensures s.hist.revived == {}
  {
  }

  lemma WaitingFinished(s: State)
    requires RemovalOk(s) && s.pc.Waiting? && FilesSettled(s)
    ensures Finished(s)
  {
  }

  // ----- Stale paths lie below removed directories -----

  /** The path was removed, or lay below something that was. */
  predicate RemovedAbove(gone: set<Path>, p: Path) {
    exists g :: g in gone && IsUnderOrEqual(p, g)
  }

  ghost predicate GoneWithRemoved(s: State) {
    && s.hist.gone <= s.hist.vanished && s.hist.vanished !! s.disk.Keys
    && forall p :: p in s.hist.vanished ==> RemovedAbove(s.hist.gone, p)
  }

  lemma RemovedMore(gone: set<Path>, g: Path, p: Path)
    requires RemovedAbove(gone, p) || IsUnderOrEqual(p, g)
    ensures RemovedAbove(gone + {g}, p)
  {
    hide IsUnderOrEqual;
    if RemovedAbove(gone, p) {
      var h :| h in gone && IsUnderOrEqual(p, h);
      assert h in gone + {g};
    } else {
      assert g in gone + {g};
    }
  }

  lemma RemovedAltered(s: State, g: Path)
    requires GoneWithRemoved(s)
    ensures GoneWithRemoved(Altered(s, Without(s.disk, g), {g}, false))
  {
    var s' := Altered(s, Without(s.disk, g), {g}, false);
    assert IsUnderOrEqual(g, g);
    hide RemovedAbove, IsUnderOrEqual;
    assert forall q :: q in s'.disk <==> q in s.disk && !IsUnderOrEqual(q, g);
    assert s'.hist.gone == s.hist.gone + {g};
    forall p | p in s'.hist.vanished ensures RemovedAbove(s'.hist.gone, p) {
      RemovedMore(s.hist.gone, g, p);
    }
  }

  lemma RemovedStep(s: State, a: Label)
    requires GoneWithRemoved(s) && Enabled(s, a) && !Disturbs(a)
    ensures GoneWithRemoved(Apply(s, a))
  {
    hide Apply, Enabled;
    if a == Operate(true) {
      AlteringSteps(s, a);
      RemovedAltered(s, s.filePc.job[s.filePc.at]);
    } else {
      GoneStep(s, a);
      HistoryStep(s, a);
    }
  }

  lemma {:induction false} RunRemoved(s: State, run: seq<Label>, s': State)
    requires GoneWithRemoved(s) && IsOrderlyRun(s, run, s')
    requires forall i :: 0 <= i < |run| ==> !Disturbs(run[i])
    ensures GoneWithRemoved(s')
    decreases |run|
  {
    hide Apply, Enabled, Orderly, Disturbs, GoneWithRemoved;
    if run != [] {
      RemovedStep(s, run[0]);
      RunRemoved(Apply(s, run[0]), run[1..], s');
    }
  }

  lemma StaleBelowRemoved(start: State, run: seq<Label>, s: State)
    requires Initial(start) && IsOrderlyRun(start, run, s)
    requires forall i :: 0 <= i < |run| ==> !Disturbs(run[i])
    ensures forall p :: p in Stale(s) ==> exists g :: g in s.hist.gone && IsUnderOrEqual(p, g) && p != g
  {
    hide IsOrderlyRun, Disturbs, IsUnderOrEqual;
    RunRemoved(start, run, s);
    forall p | p in Stale(s) ensures exists g :: g in s.hist.gone && IsUnderOrEqual(p, g) && p != g {
      assert RemovedAbove(s.hist.gone, p);
      var g :| g in s.hist.gone && IsUnderOrEqual(p, g);
    }
  }

  // ----- Removals of files leave nothing stale -----

  /** Nothing else on the disk lies below the path: a file, a link or an empty directory. */
  ghost predicate IsLeaf(disk: Disk, g: Path) {
    forall q :: q in disk && IsUnderOrEqual(q, g) ==> q == g
  }

  /** Every successful file operation of the run removes a leaf. */
  ghost predicate RemovesLeaves(s: State, run: seq<Label>)
    decreases |run|
  {
    run == [] || (
      && Enabled(s, run[0])
      && (run[0] == Operate(true) && s.filePc.Operating? && s.filePc.at < |s.filePc.job| ==>
            IsLeaf(s.disk, s.filePc.job[s.filePc.at]))
      && RemovesLeaves(Apply(s, run[0]), run[1..]))
  }

  ghost predicate OnlyGone(s: State) {
    s.hist.vanished == s.hist.gone && s.hist.vanished !! s.disk.Keys
  }

  lemma LeafGone(s: State, a: Label)
    requires OnlyGone(s) && Enabled(s, a) && !Disturbs(a)
    requires a == Operate(true) && s.filePc.Operating? && s.filePc.at < |s.filePc.job| ==>
      IsLeaf(s.disk, s.filePc.job[s.filePc.at])
    ensures OnlyGone(Apply(s, a))
  {
    hide Apply, Enabled;
    if a == Operate(true) {
      AlteringSteps(s, a);
      hide Apply;
      LeafAltered(s, s.filePc.job[s.filePc.at]);
    } else {
      GoneStep(s, a);
      HistoryStep(s, a);
    }
  }

  lemma LeafAltered(s: State, g: Path)
    requires OnlyGone(s) && IsLeaf(s.disk, g)
    ensures OnlyGone(Altered(s, Without(s.disk, g), {g}, false))
  {
    var disk := Without(s.disk, g);
    assert forall q :: q in disk <==> q in s.disk && !IsUnderOrEqual(q, g);
    assert s.disk.Keys - disk.Keys <= {g};
  }

  lemma {:induction false} RunLeaves(s: State, run: seq<Label>, s': State)
    requires OnlyGone(s) && IsOrderlyRun(s, run, s') && RemovesLeaves(s, run)
    requires forall i :: 0 <= i < |run| ==> !Disturbs(run[i])
    ensures OnlyGone(s')
    decreases |run|
  {
    hide Apply, Enabled, Orderly, Disturbs, OnlyGone, IsLeaf;
    if run != [] {
      LeafGone(s, run[0]);
      RunLeaves(Apply(s, run[0]), run[1..], s');
    }
  }

  /** When nothing but the service's own removals of files and empty directories changes the disk, the
      drained index is exactly the scope of the disk as it then is: every root with the exclusions it was
      last scanned with, and so the latest request's own scan if and only if its options are taken. */
  lemma FileRemovalsReflected(start: State, run: seq<Label>, s: State)
    requires Initial(start) && IsOrderlyRun(start, run, s) && LatestDone(s)
    requires (forall i :: 0 <= i < |run| ==> !Disturbs(run[i])) && RemovesLeaves(start, run)
    ensures s.hist.base.Some? && s.hist.base.value.c == s.hist.latest.value
    ensures Elements(s.live) == Scope(s.disk, Held(s.hist.base))
    ensures Elements(s.live) == Scope(s.disk, CoverOf(OptionsOf(s.hist.latest.value))) <==>
      OptionsTaken(s.disk, s.hist.base.value)
  {
    hide RemovesLeaves, Disturbs, Drained, Scope, Held, OptionsTaken, CoverOf;
    assert OnlyGone(start) by { InitiallyNoneGone(start); }
    hide Initial;
    DrainedExactly(start, run, s);
    IndexReflectsLatest(start, run, s);
    RunLeaves(start, run, s);
  }

  lemma InitiallyNoneGone(s: State)
    requires Initial(s)
    ensures OnlyGone(s)
  {
  }

  // ----- Removals of directories do -----

  /** Removing a path while the worker is idle, exactly: everything at or below it is off the disk, and of
      a duplicate-free index it takes the path itself; what was live below it stays live. */
  lemma RemovalLeavesBelow(s: State) returns (run: seq<Label>, s': State)
    requires s.pc.Waiting? && !s.locked.scanRunning && NoDuplicates(s.live)
    requires s.filePc.Operating? && s.filePc.at < |s.filePc.job|
    ensures IsRun(s, run, s') && s'.filePc == Operating(s.filePc.job, s.filePc.at + 1)
    ensures var g := s.filePc.job[s.filePc.at];
      forall p :: IsUnderOrEqual(p, g) ==> p !in s'.disk && (p in s'.live <==> p in s.live && p != g)
    ensures var g := s.filePc.job[s.filePc.at];
      forall p :: !IsUnderOrEqual(p, g) ==> (p in s'.disk <==> p in s.disk) && (p in s'.live <==> p in s.live)
  {
    hide IsRun, DropFirst;
    run, s' := IdleRemoval(s);
    var g := s.filePc.job[s.filePc.at];
    DropFirstMembers(s.live, g);
    assert IsUnderOrEqual(g, g);
    assert forall q :: q in s'.disk <==> q in s.disk && !IsUnderOrEqual(q, g);
  }
}
