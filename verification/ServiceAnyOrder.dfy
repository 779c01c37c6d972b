/** What the index holds when requests race: requesters in any number and any order, with any idea of
    what the old roots are. The live index is then off the latest roots in exactly one case, when the
    latest request took an incremental path from an index that was not what its old roots and its own
    exclusions say. */
module ServiceAnyOrder {
  import opened Common
  import opened PathUtils
  import opened IndexStores
  import opened IndexServices
  import opened ServiceModel
  import opened ServiceFrames
  import opened ServiceQueue
  import opened ServiceScope
  import opened ServiceRequests
  import opened ServiceData
  import opened ServiceCoverage

  // ----- Runs -----

  /** The request makes sense on its own: its root lists are collapsed, and it is not the Settings change
      that RemovePaths cannot carry out. */
  ghost predicate WellPosed(c: Command) {
    Antichain(RootsOf(c)) && (c.Change? ==> Antichain(c.oldRoots) && !DropsSlash(c))
  }

  /** Nothing is asked of the order of requests, of who makes them or of what they follow. */
  ghost predicate Steady(a: Label) {
    !Disturbs(a) && (a.Request? ==> WellPosed(a.command))
  }

  ghost predicate IsSteadyRun(s: State, run: seq<Label>, s': State)
    decreases |run|
  {
    if run == [] then s' == s
    else Enabled(s, run[0]) && Steady(run[0]) && IsSteadyRun(Apply(s, run[0]), run[1..], s')
  }

  // ----- What a request leaves, given what it found -----

  /** A full scan leaves the scope of the request's options; an incremental request keeps what it found
      outside the dropped roots and adds what a scan of the added ones finds. */
  ghost function Outcome(disk: Disk, b: Base): set<Path> {
    if b.full then Scope(disk, CoverOf(OptionsOf(b.c)))
    else
      var d := DiffOf(b.c);
      (set p | p in b.before && Outside(p, d.removed, |d.removed|)) + Scope(disk, CoverOf(AddedOptions(b.c)))
  }

  /** What a scan of the request's old roots with its own exclusions finds. */
  ghost function OldScope(disk: Disk, c: Command): set<Path> {
    if c.Change? then Scope(disk, CoverOf(OptionsOf(c).(roots := c.oldRoots))) else {}
  }

  /** On every path that the request leaves alone and that has not gone off the disk, it found what a
      scan of its old roots with its own exclusions finds. */
  ghost predicate FoundOldRoots(w: World, b: Base) {
    var d := DiffOf(b.c);
    b.c.Change? && forall p ::
      p !in w.vanished && p !in Scope(w.disk, CoverOf(AddedOptions(b.c))) && Outside(p, d.removed, |d.removed|) ==>
      (p in b.before <==> p in OldScope(w.disk, b.c))
  }

  /** An incremental request leaves a scan of its options if and only if it found that of its old roots,
      as far as it relies on it. */
  lemma OutcomeExactly(w: World, b: Base)
    requires b.c.Change? && !b.full && WellPosed(b.c) && w.vanished !! w.disk.Keys
    requires DiffOf(b.c).added == [] || DiffOf(b.c).removed == []
    ensures Outcome(w.disk, b) - w.vanished == Scope(w.disk, CoverOf(OptionsOf(b.c))) <==> FoundOldRoots(w, b)
  {
    var d, c := DiffOf(b.c), b.c;
    ScopeOnDisk(w.disk, CoverOf(OptionsOf(c)));
    hide Scope, Outside, Diff, Antichain, OldScope, CoverOf;
    forall p
      ensures p in Scope(w.disk, CoverOf(OptionsOf(c))) <==>
        (p in OldScope(w.disk, c) && Outside(p, d.removed, |d.removed|)) || p in Scope(w.disk, CoverOf(AddedOptions(c)))
    {
      NewScope(w.disk, c, p);
    }
    var left := Outcome(w.disk, b);
    assert forall p :: p in left <==>
      (p in b.before && Outside(p, d.removed, |d.removed|)) || p in Scope(w.disk, CoverOf(AddedOptions(c)));
    hide Outcome;
    if left - w.vanished == Scope(w.disk, CoverOf(OptionsOf(c))) {
      forall p | p !in w.vanished && p !in Scope(w.disk, CoverOf(AddedOptions(c))) && Outside(p, d.removed, |d.removed|)
        ensures p in b.before <==> p in OldScope(w.disk, c)
      {
        assert p in left - w.vanished <==> p in Scope(w.disk, CoverOf(OptionsOf(c)));
      }
    }
  }

  /** A scan of the new roots: what is left of the old ones, and the added ones. */
  lemma NewScope(disk: Disk, c: Command, p: Path)
    requires c.Change? && WellPosed(c) && (DiffOf(c).added == [] || DiffOf(c).removed == [])
    ensures var d := DiffOf(c);
      p in Scope(disk, CoverOf(OptionsOf(c))) <==>
        (p in OldScope(disk, c) && Outside(p, d.removed, |d.removed|)) || p in Scope(disk, CoverOf(AddedOptions(c)))
  {
    hide OldScope, WellPosed;
    if DiffOf(c).removed == [] {
      NewScopeAdded(disk, c);
    } else {
      NewScopeKept(disk, c, p);
    }
  }

  lemma NewScopeAdded(disk: Disk, c: Command)
    requires c.Change? && DiffOf(c).removed == []
    ensures Scope(disk, CoverOf(OptionsOf(c))) == OldScope(disk, c) + Scope(disk, CoverOf(AddedOptions(c)))
    ensures forall p :: Outside(p, DiffOf(c).removed, |DiffOf(c).removed|)
  {
    var own := CoverOf(OptionsOf(c).(roots := c.oldRoots));
    DiffAccounts(c.oldRoots, RootsOf(c));
    hide Scope, Diff;
    assert CoverOf(OptionsOf(c)) == own + CoverOf(AddedOptions(c));
    ScopeUnion(disk, own, CoverOf(AddedOptions(c)));
  }

  lemma NewScopeKept(disk: Disk, c: Command, p: Path)
    requires c.Change? && WellPosed(c) && DiffOf(c).added == []
    ensures Scope(disk, CoverOf(AddedOptions(c))) == {}
    ensures p in Scope(disk, CoverOf(OptionsOf(c))) <==>
      p in OldScope(disk, c) && Outside(p, DiffOf(c).removed, |DiffOf(c).removed|)
  {
    var own := CoverOf(OptionsOf(c).(roots := c.oldRoots));
    DiffAccounts(c.oldRoots, RootsOf(c));
    hide Scope, Diff, Outside, Antichain;
    assert CoverOf(AddedOptions(c)) == map[];
    NoRoots(disk);
    assert CoverOf(OptionsOf(c)) == own - Elements(DiffOf(c).removed);
    RemovalScope(disk, own, c.oldRoots, RootsOf(c), p);
  }

  // ----- What is known at each stage -----

  ghost predicate BaseIs(s: State, c: Command, full: bool) {
    s.hist.base.Some? && s.hist.base.value.c == c && s.hist.base.value.full == full
  }

  ghost predicate Reached(s: State) {
    && s.hist.base.Some?
    && Elements(s.live) - s.hist.vanished == Outcome(s.disk, s.hist.base.value) - s.hist.vanished
  }

  /** Between the decided requests: the last one is cancelled or reached, and needsFullRebuild_ is set
      when it is not reached. */
  ghost predicate Resting(s: State) {
    && (s.hist.base.Some? ==> IsBusy(s.hist.base.value.c) && (IsCancelled(s, s.hist.base.value.c) || Reached(s)))
    && (!s.needsFullRebuild ==> if s.hist.base.None? then s.live == [] else Reached(s))
  }

  ghost predicate Ended(s: State, c: Command, completed: bool) {
    && s.hist.base.Some? && s.hist.base.value.c == c && IsBusy(c)
    && if completed then Reached(s) else IsCancelled(s, c)
  }

  ghost predicate ScanKnown(s: State, c: Command, full: bool, job: ScanJob) {
    && BaseIs(s, c, full) && IsBusy(c) && !job.changed
    && job.inHand <= job.observed <= Scope(s.disk, CoverOf(job.options)) + s.hist.vanished
    && if full then job.options == OptionsOf(c) && Elements(s.staging) == job.observed - job.inHand
       else
         && job.options == AddedOptions(c) && DiffOf(c).removed == []
         && Elements(s.live) - s.hist.vanished
            == (s.hist.base.value.before + (job.observed - job.inHand)) - s.hist.vanished
  }

  ghost predicate RemovalKnown(s: State, c: Command, n: nat) {
    && BaseIs(s, c, false) && IsBusy(c) && DiffOf(c).added == [] && n <= |DiffOf(c).removed|
    && forall p :: p !in s.hist.vanished ==>
         (p in s.live <==> p in s.hist.base.value.before && Outside(p, DiffOf(c).removed, n))
  }

  ghost predicate Known(s: State) {
    match s.pc
    case Entered(c) => IsBusy(c) && Resting(s)
    case Deciding(c) => IsBusy(c) && Resting(s)
    case Scanning(c, full, job) => ScanKnown(s, c, full, job)
    case Complete(c) =>
      && BaseIs(s, c, true) && IsBusy(c)
      && Elements(s.staging) - s.hist.vanished == Scope(s.disk, CoverOf(OptionsOf(c)))
    case Removing(c, n) => RemovalKnown(s, c, n)
    case Saving(c, _) => Ended(s, c, true)
    case Writing(c, _, _) => Ended(s, c, true)
    case Finishing(c, completed) => Ended(s, c, completed)
    case Reapplying(c, completed, recorded, _) => Ended(s, c, completed) && Elements(recorded) <= s.hist.vanished
    case Concluding(c, completed) => Ended(s, c, completed)
    case Reloading(_) => false
    case Installing(_, _) => false
    case _ => Resting(s)
  }

  /** A rebuild scans everything, and a request that both adds and drops roots does, too. */
  ghost predicate BaseOk(s: State) {
    s.hist.base.Some? ==>
      var b := s.hist.base.value;
      b.full || (b.c.Change? && (DiffOf(b.c).added == [] || DiffOf(b.c).removed == []))
  }

  /** What is recorded or about to be dropped is off the disk. */
  ghost predicate Calm(s: State) {
    && Elements(s.locked.removedDuringScan) <= s.hist.vanished
    && ((s.filePc.Deleted? || s.filePc.Noted?) && s.filePc.at < |s.filePc.job| ==>
          s.filePc.job[s.filePc.at] in s.hist.vanished)
    && s.hist.vanished !! s.disk.Keys
  }

  lemma KnownFrame(s: State, s': State)
    requires Known(s) && s'.pc == s.pc && s'.live == s.live && s'.staging == s.staging && s'.disk == s.disk
    requires s'.hist.base == s.hist.base && s'.needsFullRebuild == s.needsFullRebuild
    requires s'.hist.vanished == s.hist.vanished && s.locked.cancelled <= s'.locked.cancelled
    ensures Known(s')
  {
    hide Scope, Outcome, RootsOf, DiffOf, Outside, CoverOf, AddedOptions, Elements;
  }

  /** A requester leaves pc, index and base alone. */
  lemma RequesterKnown(s: State, a: Label)
    requires Calm(s) && Known(s) && TokensOk(s.locked) && Enabled(s, a) && ByRequester(a)
    ensures Calm(Apply(s, a)) && Known(Apply(s, a))
  {
    StepTokens(s, a);
    RequesterCalm(s, a);
    hide Apply, Enabled, Calm, Known, TokensOk;
    KnownFrame(s, Apply(s, a));
  }

  lemma RequesterCalm(s: State, a: Label)
    requires Calm(s) && Enabled(s, a) && ByRequester(a)
    ensures var s' := Apply(s, a);
      && Calm(s') && s'.pc == s.pc && s'.live == s.live && s'.staging == s.staging && s'.disk == s.disk
      && s'.hist.base == s.hist.base && s'.hist.vanished == s.hist.vanished
      && s'.needsFullRebuild == s.needsFullRebuild
  {
    hide ApplyWorker, ApplyFiles, Elements, Scope;
  }

  // ----- The file thread's steps -----

  /** Paths leave the disk, and every scope with them. */
  ghost predicate Leaves(s: State, s': State) {
    && s.hist.vanished <= s'.hist.vanished
    && forall cover :: Scope(s'.disk, cover) == Scope(s.disk, cover) - s'.hist.vanished
  }

  lemma OutcomeOn(s: State, s': State, b: Base)
    requires Leaves(s, s')
    ensures Outcome(s'.disk, b) - s'.hist.vanished == Outcome(s.disk, b) - s'.hist.vanished
  {
    hide Scope, Outside, CoverOf;
  }

  lemma KnownOn(s: State, s': State)
    requires Known(s) && Leaves(s, s') && s'.pc == s.pc && s'.live == s.live && s'.staging == s.staging
    requires s'.hist.base == s.hist.base && s'.needsFullRebuild == s.needsFullRebuild && s'.locked == s.locked
    ensures Known(s')
  {
    hide Outcome, Scope, RootsOf, DiffOf, Outside, CoverOf, AddedOptions, Elements, Leaves, Reached, ScanKnown,
      RemovalKnown;
    if Reached(s) {
      ReachedOn(s, s');
    }
    WithScope(s, s');
    if s.pc.Scanning? {
      ScanKnownOn(s, s');
    }
    if s.pc.Removing? {
      RemovalKnownOn(s, s');
    }
    if s.pc.Complete? {
      StagedOn(s, s', CoverOf(OptionsOf(s.pc.c)));
    }
  }

  lemma WithScope(s: State, s': State)
    requires Leaves(s, s')
    ensures s.hist.vanished <= s'.hist.vanished
  {
  }

  lemma StagedOn(s: State, s': State, cover: Cover)
    requires Leaves(s, s') && s'.staging == s.staging
    requires Elements(s.staging) - s.hist.vanished == Scope(s.disk, cover)
    ensures Elements(s'.staging) - s'.hist.vanished == Scope(s'.disk, cover)
  {
    hide Scope, Elements;
  }

  lemma ScanKnownOn(s: State, s': State)
    requires s.pc.Scanning? && ScanKnown(s, s.pc.c, s.pc.full, s.pc.job) && Leaves(s, s')
    requires s'.pc == s.pc && s'.live == s.live && s'.staging == s.staging && s'.hist.base == s.hist.base
    ensures ScanKnown(s', s.pc.c, s.pc.full, s.pc.job)
  {
    hide Scope, Elements, DiffOf, AddedOptions, OptionsOf, CoverOf;
    var job := s.pc.job;
    assert job.observed <= Scope(s'.disk, CoverOf(job.options)) + s'.hist.vanished;
    hide Leaves;
    WithScope(s, s');
    if !s.pc.full {
      LessRemoved(Elements(s.live), s.hist.base.value.before + (job.observed - job.inHand), s.hist.vanished,
                  s'.hist.vanished);
    }
  }

  lemma RemovalKnownOn(s: State, s': State)
    requires s.pc.Removing? && RemovalKnown(s, s.pc.c, s.pc.removed) && Leaves(s, s')
    requires s'.live == s.live && s'.hist.base == s.hist.base
    ensures RemovalKnown(s', s.pc.c, s.pc.removed)
  {
    WithScope(s, s');
    hide Leaves, DiffOf, Outside;
  }

  lemma ReachedOn(s: State, s': State)
    requires Reached(s) && Leaves(s, s') && s'.live == s.live && s'.hist.base == s.hist.base
    ensures Reached(s')
  {
    OutcomeOn(s, s', s.hist.base.value);
    hide Outcome, Scope, Elements;
    LessRemoved(Elements(s.live), Outcome(s.disk, s.hist.base.value), s.hist.vanished, s'.hist.vanished);
  }

  lemma LessRemoved(a: set<Path>, b: set<Path>, out: set<Path>, more: set<Path>)
    requires a - out == b - out && out <= more
    ensures a - more == b - more
  {
    forall p ensures p in a - more <==> p in b - more {
      assert p in a - out <==> p in b - out;
    }
  }

  lemma FilesVanishKnown(s: State, g: Path, filePc: FilePc)
    requires Known(s) && Calm(s) && filePc.Deleted? && filePc.at < |filePc.job| && filePc.job[filePc.at] == g
    ensures var s' := Altered(s, Without(s.disk, g), {g}, false).(filePc := filePc); Known(s') && Calm(s')
  {
    var disk := Without(s.disk, g);
    var s' := Altered(s, disk, {g}, false).(filePc := filePc);
    forall cover ensures Scope(disk, cover) == Scope(s.disk, cover) - s'.hist.vanished {
      VanishedScope(s, cover, g);
    }
    assert g !in disk;
    assert Leaves(s, s');
    hide Leaves, Known, Without;
    KnownOn(s, s');
  }

  /** Index changes that only concern paths off the disk. */
  lemma KnownShrinks(s: State, live: seq<Path>)
    requires Known(s) && Elements(live) - s.hist.vanished == Elements(s.live) - s.hist.vanished
    requires s.live == [] ==> live == []
    ensures Known(s.(live := live))
  {
    hide Outcome, Scope, RootsOf, DiffOf, Outside, CoverOf, AddedOptions;
    if s.pc.Removing? {
      forall p | p !in s.hist.vanished ensures p in live <==> p in s.live {
        assert p in Elements(live) - s.hist.vanished <==> p in Elements(s.live) - s.hist.vanished;
      }
    }
  }

  /** Dropping a path that is off the disk. */
  lemma DropKnown(s: State, p: Path)
    requires Known(s) && p in s.hist.vanished
    ensures Known(s.(live := DropFirst(s.live, p)))
  {
    DropOther(s.live, p);
    assert s.live == [] ==> DropFirst(s.live, p) == [];
    hide Known, DropFirst;
    assert Elements(DropFirst(s.live, p)) - s.hist.vanished == Elements(s.live) - s.hist.vanished;
    KnownShrinks(s, DropFirst(s.live, p));
  }

  lemma {:induction false} DropOther(s: seq<Path>, p: Path)
    ensures forall q :: q != p ==> (q in DropFirst(s, p) <==> q in s)
  {
    if s != [] {
      assert s == [s[0]] + s[1..];
      if s[0] != p {
        DropOther(s[1..], p);
      }
    }
  }

  lemma FilesKnown(s: State, a: Label)
    requires Calm(s) && Known(s) && Enabled(s, a) && Steady(a) && ByFiles(a)
    ensures Calm(Apply(s, a)) && Known(Apply(s, a))
  {
    AlteringSteps(s, a);
    hide Known;
    if a == Operate(true) {
      hide Apply, Enabled, Calm;
      FilesVanishKnown(s, s.filePc.job[s.filePc.at], Deleted(s.filePc.job, s.filePc.at));
    } else {
      hide Steady;
      QuietFilesKnown(s, a);
    }
  }

  lemma QuietFilesKnown(s: State, a: Label)
    requires Calm(s) && Known(s) && Enabled(s, a) && ByFiles(a) && !ChangesDisk(a)
    ensures Calm(Apply(s, a)) && Known(Apply(s, a))
  {
    hide Known, ApplyWorker, ApplyRequest, Scope, Without, Altered, DropFirst;
    var s' := Apply(s, a);
    if a.Drop? {
      DropKnown(s, s.filePc.job[s.filePc.at]);
      KnownFrame(s.(live := s'.live), s');
    } else {
      KnownFrame(s, s');
    }
  }

  // ----- The worker's steps -----

  lemma OpeningKnown(s: State, a: Label)
    requires Known(s) && Enabled(s, a) && (a.Take? || a.Exit? || a.Enter? || a.Start? || a.Skip?)
    ensures Known(Apply(s, a))
  {
    hide Scope, Outcome, RootsOf, DiffOf, Outside, ApplyFiles, ApplyRequest, Elements, Decided, ScanEnded, NotUnder,
      DropFirst, CoverOf, AddedOptions;
  }

  lemma ClosingKnown(s: State, a: Label)
    requires Known(s) && Enabled(s, a) && (a.Release? || a.Report? || a.ClearReload?)
    ensures Known(Apply(s, a))
  {
    hide Scope, Outcome, RootsOf, DiffOf, Outside, ApplyFiles, ApplyRequest, Elements, Decided, ScanEnded, NotUnder,
      DropFirst, CoverOf, AddedOptions;
  }

  lemma LoadingKnown(s: State, a: Label)
    requires Known(s) && Enabled(s, a) && Steady(a) && (a.LoadFile? || a.Install? || a.InstallReload?)
    ensures Known(Apply(s, a))
  {
    hide Scope, Outcome, RootsOf, DiffOf, Outside, ApplyFiles, ApplyRequest, Elements, Decided, ScanEnded, NotUnder,
      DropFirst, CoverOf, AddedOptions;
  }

  lemma SavingKnown(s: State, a: Label)
    requires Known(s) && Calm(s) && Enabled(s, a)
    requires (a.Serialize? && s.pc.Saving?) || a.Write? || a.Finish? || a.Conclude?
    ensures Known(Apply(s, a))
  {
    hide Scope, Outcome, RootsOf, DiffOf, Outside, ApplyFiles, ApplyRequest, Elements, Decided, ScanEnded, NotUnder,
      DropFirst, CoverOf, AddedOptions;
  }

  lemma ReapplyKnown(s: State)
    requires Known(s) && Enabled(s, Reapply)
    ensures Known(Apply(s, Reapply))
  {
    var p := s.pc.recorded[s.pc.applied];
    assert p in Elements(s.pc.recorded);
    DropKnown(s, p);
    hide Scope, Outcome, ApplyFiles, ApplyRequest, DropFirst;
  }

  lemma DecideKnown(s: State)
    requires Known(s) && s.pc.Deciding? && s.hist.vanished !! s.disk.Keys
    ensures Known(Decided(s, false)) && BaseOk(Decided(s, false))
  {
    hide Scope, OptionsOf, DiffOf, AddedOptions, CoverOf, Held, Outcome;
    NothingToDo(s.disk, Base(s.pc.c, false, Elements(s.live), Held(s.hist.base)));
  }

  lemma NothingToDo(disk: Disk, b: Base)
    requires !b.full
    ensures DiffOf(b.c).added == [] && DiffOf(b.c).removed == [] ==> Outcome(disk, b) == b.before
  {
    hide Scope, DiffOf;
    NoRoots(disk);
    if DiffOf(b.c).added == [] {
      assert CoverOf(AddedOptions(b.c)) == map[];
    }
  }

  lemma ObserveKnown(s: State, p: Path)
    requires Known(s) && Enabled(s, Observe(p))
    ensures Known(Apply(s, Observe(p)))
  {
    hide Scope, RootsOf, DiffOf, ApplyFiles, ApplyRequest, CoveredBy, CoverOf, AddedOptions, Elements;
    var job := s.pc.job;
    assert (job.observed + {p}) - (job.inHand + {p}) == job.observed - job.inHand;
  }

  lemma EmitKnown(s: State, p: Path)
    requires Known(s) && Enabled(s, Emit(p))
    ensures Known(Apply(s, Emit(p)))
  {
    hide Scope, RootsOf, DiffOf, ApplyFiles, ApplyRequest, CoverOf, AddedOptions;
    var job := s.pc.job;
    assert job.observed - (job.inHand - {p}) == (job.observed - job.inHand) + {p};
    if s.pc.full {
      assert Elements(s.staging + [p]) == Elements(s.staging) + {p};
    } else {
      assert Elements(s.live + [p]) == Elements(s.live) + {p};
      EmittedBoth(Elements(s.live), s.hist.base.value.before + (job.observed - job.inHand), s.hist.vanished, p);
      assert s.hist.base.value.before + ((job.observed - job.inHand) + {p})
        == (s.hist.base.value.before + (job.observed - job.inHand)) + {p};
    }
  }

  lemma EmittedBoth(a: set<Path>, b: set<Path>, out: set<Path>, p: Path)
    requires a - out == b - out
    ensures (a + {p}) - out == (b + {p}) - out
  {
    forall q ensures q in (a + {p}) - out <==> q in (b + {p}) - out {
      assert q in a - out <==> q in b - out;
    }
  }

  lemma EndScanKnown(s: State)
    requires Known(s) && Enabled(s, EndScan) && s.hist.vanished !! s.disk.Keys
    ensures Known(ScanEnded(s))
  {
    EndScanReady(s);
    hide Enabled;
    ScanEndKnown(s);
  }

  lemma ScanEndKnown(s: State)
    requires s.pc.Scanning? && Known(s) && s.hist.vanished !! s.disk.Keys && s.pc.job.inHand == {} && IsBusy(s.pc.c)
    requires IsCancelled(s, s.pc.c) || s.pc.job.changed || Scope(s.disk, CoverOf(s.pc.job.options)) <= s.pc.job.observed
    ensures Known(ScanEnded(s))
  {
    ScopeOnDisk(s.disk, CoverOf(s.pc.job.options));
    hide Scope, RootsOf, CoverOf;
    if !IsCancelled(s, s.pc.c) && !s.pc.full {
      var b, seen := s.hist.base.value, s.pc.job.observed;
      hide DiffOf;
      NothingDropped(b);
      hide Outcome, Elements;
      forall p ensures p in (b.before + seen) - s.hist.vanished <==> p in Outcome(s.disk, b) - s.hist.vanished {
      }
      assert seen - {} == seen;
    }
  }

  lemma NothingDropped(b: Base)
    requires !b.full && DiffOf(b.c).removed == []
    ensures forall disk :: Outcome(disk, b) == b.before + Scope(disk, CoverOf(AddedOptions(b.c)))
  {
    hide Scope, DiffOf, CoverOf;
  }

  lemma SwapKnown(s: State)
    requires Known(s) && Enabled(s, Swap) && s.hist.vanished !! s.disk.Keys
    ensures Known(Apply(s, Swap))
  {
    ScopeOnDisk(s.disk, CoverOf(OptionsOf(s.pc.c)));
    hide Scope, RootsOf, DiffOf, ApplyFiles, ApplyRequest, CoverOf;
  }

  lemma RemoveRootKnown(s: State)
    requires Known(s) && Enabled(s, RemoveRoot)
    ensures Known(Apply(s, RemoveRoot))
  {
    hide Scope, RootsOf, DiffOf, ApplyFiles, ApplyRequest, NotUnder, IsUnderPath, CoverOf;
    NotUnderMembers(s.live, DiffOf(s.pc.c).removed[s.pc.removed]);
  }

  lemma RemovedKnown(s: State)
    requires Known(s) && Enabled(s, Serialize) && s.pc.Removing?
    ensures Known(Apply(s, Serialize))
  {
    hide Scope, RootsOf, DiffOf, ApplyFiles, ApplyRequest, Outside;
    NoRoots(s.disk);
    assert CoverOf(AddedOptions(s.pc.c)) == map[];
  }

  lemma WorkerKnown(s: State, a: Label)
    requires Known(s) && Calm(s) && BaseOk(s) && Enabled(s, a) && Steady(a) && ByWorker(a)
    ensures Known(Apply(s, a)) && BaseOk(Apply(s, a)) && Calm(Apply(s, a))
  {
    assert s.hist.vanished !! s.disk.Keys;
    WorkerCalm(s, a);
    hide Known, Calm, Enabled, Apply, BaseOk, Steady;
    DecidingSteps(s, a);
    match a
    case Decide(recent) => DecideKnown(s);
    case Observe(p) => ObserveKnown(s, p);
    case Emit(p) => EmitKnown(s, p);
    case EndScan => EndScanKnown(s);
    case Swap => SwapKnown(s);
    case RemoveRoot => RemoveRootKnown(s);
    case Serialize => if s.pc.Removing? { RemovedKnown(s); } else { SavingKnown(s, a); }
    case Write(_) => SavingKnown(s, a);
    case Finish => SavingKnown(s, a);
    case Reapply => ReapplyKnown(s);
    case Conclude => SavingKnown(s, a);
    case Take => OpeningKnown(s, a);
    case Exit => OpeningKnown(s, a);
    case Enter => OpeningKnown(s, a);
    case Start => OpeningKnown(s, a);
    case Skip => OpeningKnown(s, a);
    case LoadFile(_) => LoadingKnown(s, a);
    case Install => LoadingKnown(s, a);
    case InstallReload => LoadingKnown(s, a);
    case _ => ClosingKnown(s, a);
  }

  /** Only Decide changes the base, and nothing the worker does records a removal. */
  lemma WorkerCalm(s: State, a: Label)
    requires Calm(s) && Enabled(s, a) && Steady(a) && ByWorker(a)
    ensures Calm(Apply(s, a)) && (!a.Decide? ==> Apply(s, a).hist.base == s.hist.base)
    ensures a.Decide? ==> a == Decide(false)
    ensures a.Serialize? ==> s.pc.Removing? || s.pc.Saving?
  {
    hide Scope, ApplyFiles, ApplyRequest, NotUnder, DropFirst, WellPosed, Decided, ScanEnded;
    if a.Decide? || a.EndScan? {
      hide ApplyWorker;
      DecidingSteps(s, a);
      DecidingCalm(s);
    }
  }

  lemma DecidingCalm(s: State)
    requires Calm(s)
    ensures s.pc.Deciding? ==> Calm(Decided(s, false))
    ensures s.pc.Scanning? && IsBusy(s.pc.c) ==> Calm(ScanEnded(s)) && ScanEnded(s).hist == s.hist
  {
    hide OptionsOf, AddedOptions, Held, DiffOf, NeedsScanOfAll, Elements;
  }

  // ----- Where the latest request is -----

  /** The request dequeued and neither refused nor decided yet. */
  function Ahead(pc: Pc): Option<Command> {
    match pc
    case Got(c) => if IsBusy(c) then Some(c) else None
    case Entered(c) => Some(c)
    case Deciding(c) => Some(c)
    case _ => None
  }

  /** The request that has passed the cancel test. */
  function Passed(pc: Pc): Option<Command> {
    match pc
    case Entered(c) => Some(c)
    case Deciding(c) => Some(c)
    case _ => None
  }

  function BaseCommand(s: State): Option<Command> {
    if s.hist.base.Some? then Some(s.hist.base.value.c) else None
  }

  predicate InFlight(s: State, c: Command) {
    c in s.pending || c in s.locked.commands || Ahead(s.pc) == Some(c) || BaseCommand(s) == Some(c)
  }

  /** The latest request, if nothing cancelled it. */
  predicate Current(s: State, c: Command) {
    s.hist.latest == Some(c) && IsBusy(c) && !IsCancelled(s, c)
  }

  /** Requests in flight have tokens handed out before, the last of which is the latest request's. */
  ghost predicate TokensKnown(s: State) {
    && (forall c :: InFlight(s, c) && IsBusy(c) ==>
          c.token < s.locked.nextToken && (c.token == s.locked.nextToken - 1 ==> s.hist.latest == Some(c)))
    && (s.hist.latest.Some? ==>
          var c := s.hist.latest.value; IsBusy(c) && c.token == s.locked.nextToken - 1 && WellPosed(c))
  }

  /** The latest request is queued, or in the worker's hands, or was the last one decided; and once
      it was, no other request passes the cancel test. */
  ghost predicate Tracked(s: State) {
    && (!s.locked.shuttingDown ==> forall c :: Current(s, c) ==> InFlight(s, c))
    && (forall c :: Current(s, c) && BaseCommand(s) == Some(c) && Passed(s.pc).Some? ==> Passed(s.pc) == Some(c))
  }

  /** How the worker's steps move the request in its hands. */
  predicate Moves(s: State, a: Label, s': State) {
    var ahead, passed := Ahead(s.pc), Passed(s.pc);
    match a
    case Take =>
      && ahead == None && s.locked.commands != [] && !s.locked.shuttingDown
      && Ahead(s'.pc) == (if IsBusy(s.locked.commands[0]) then Some(s.locked.commands[0]) else None)
      && Passed(s'.pc) == None
    case Enter =>
      && ahead.Some? && IsBusy(ahead.value)
      && Ahead(s'.pc) == Passed(s'.pc) == if IsCancelled(s, ahead.value) then None else ahead
    case Start => Ahead(s'.pc) == Passed(s'.pc) == ahead == passed
    case Decide(_) => ahead.Some? && passed == ahead && Ahead(s'.pc) == Passed(s'.pc) == None
    case _ => Ahead(s'.pc) == ahead && Passed(s'.pc) == passed
  }

  lemma WorkerMoves(s: State, a: Label)
    requires Enabled(s, a) && ByWorker(a)
    ensures Moves(s, a, Apply(s, a))
  {
    hide Scope, RootsOf, DiffOf, ApplyFiles, ApplyRequest, NotUnder, DropFirst, NeedsScanOfAll, Elements;
  }

  lemma WorkerBase(s: State, a: Label)
    requires Enabled(s, a) && Steady(a) && ByWorker(a) && Calm(s)
    ensures BaseCommand(Apply(s, a)) == if a.Decide? then Ahead(s.pc) else BaseCommand(s)
  {
    WorkerCalm(s, a);
    DecidingSteps(s, a);
    hide Apply, Enabled, NeedsScanOfAll, Elements, DiffOf, RootsOf;
  }

  lemma StepMoves(s: State, a: Label)
    requires Enabled(s, a) && Steady(a) && Calm(s)
    ensures Moves(s, a, Apply(s, a))
    ensures BaseCommand(Apply(s, a)) == if a.Decide? then Ahead(s.pc) else BaseCommand(s)
  {
    hide Apply, Enabled, Steady, Calm;
    if ByWorker(a) {
      hide Moves, Ahead, BaseCommand;
      WorkerMoves(s, a);
      WorkerBase(s, a);
    } else {
      OthersStay(s, a);
    }
  }

  lemma OthersStay(s: State, a: Label)
    requires Enabled(s, a) && Steady(a) && !ByWorker(a)
    ensures Apply(s, a).pc == s.pc && Apply(s, a).hist.base == s.hist.base
  {
    hide Apply, Enabled, Altered, Without;
    if ByRequester(a) {
      RequesterFrame(s, a);
    } else if a == Operate(true) {
      AlteringSteps(s, a);
      OwnRemovalStays(s, s.filePc.job[s.filePc.at]);
    } else {
      QuietFilesFrame(s, a);
    }
  }

  lemma OwnRemovalStays(s: State, g: Path)
    ensures var s' := Altered(s, Without(s.disk, g), {g}, false); s'.pc == s.pc && s'.hist.base == s.hist.base
  {
  }

  /** Nothing gets in flight but what is requested. */
  lemma FlightBegins(s: State, a: Label, c: Command)
    requires Enabled(s, a) && Steady(a) && Calm(s)
    requires InFlight(Apply(s, a), c) && IsBusy(c)
    ensures InFlight(s, c) || (a == Request(c) && !s.locked.shuttingDown)
  {
    hide Apply, Enabled, Steady, Calm;
    StepFrame(s, a);
    StepMoves(s, a);
  }

  /** The latest request stays in flight. */
  lemma FlightGoesOn(s: State, a: Label, c: Command)
    requires Enabled(s, a) && Steady(a) && Calm(s) && Tracked(s)
    requires Current(s, c) && Current(Apply(s, a), c) && InFlight(s, c) && !Apply(s, a).locked.shuttingDown
    ensures InFlight(Apply(s, a), c)
  {
    hide Apply, Enabled, Steady, Calm;
    QueuedGoesOn(s, a, c);
    StepMoves(s, a);
  }

  /** A queued command stays queued until it is dequeued. */
  lemma QueuedGoesOn(s: State, a: Label, c: Command)
    requires Enabled(s, a) && !Apply(s, a).locked.shuttingDown
    ensures var s' := Apply(s, a);
      c in s.pending || c in s.locked.commands ==>
      c in s'.pending || c in s'.locked.commands || (a.Take? && s.locked.commands != [] && c == s.locked.commands[0])
  {
    NotTakenAfterShutdown(s, a);
    StepFrame(s, a);
    hide Apply, Enabled;
    if a.Enqueue? {
      KeptOrMoved(s.pending, a.i, c);
    } else if a.Take? {
      KeptOrMoved(s.locked.commands, 0, c);
    }
  }

  lemma KeptOrMoved(s: seq<Command>, i: nat, c: Command)
    requires i < |s|
    ensures c in s ==> c in s[..i] + s[i + 1..] || c == s[i]
  {
  }

  lemma RequestToken(s: State, a: Label)
    requires Enabled(s, a)
    ensures a.Request? ==> IsBusy(a.command) && a.command.token == s.locked.nextToken
    ensures a.Request? && !s.locked.shuttingDown ==> a.command in Apply(s, a).pending
    ensures Apply(s, a).locked.nextToken
      == s.locked.nextToken + if a.Request? && !s.locked.shuttingDown then 1 else 0
  {
    StepFrame(s, a);
    hide Apply;
  }

  lemma StepTokensKnown(s: State, a: Label)
    requires TokensKnown(s) && Enabled(s, a) && Steady(a) && Calm(s)
    ensures TokensKnown(Apply(s, a))
  {
    hide Apply, Enabled, Calm, InFlight, WellPosed;
    var s' := Apply(s, a);
    RequestToken(s, a);
    HistoryStep(s, a);
    forall c | InFlight(s', c) && IsBusy(c)
      ensures c.token < s'.locked.nextToken && (c.token == s'.locked.nextToken - 1 ==> s'.hist.latest == Some(c))
    {
      FlightBegins(s, a, c);
    }
  }

  /** A request that passes the cancel test is the latest one. */
  lemma PassesAsLatest(s: State, a: Label)
    requires TokensOk(s.locked) && TokensKnown(s) && Enabled(s, a) && Steady(a) && Calm(s)
    ensures a.Enter? && Passed(Apply(s, a).pc).Some? ==> s.hist.latest == Passed(Apply(s, a).pc)
  {
    hide Apply, Enabled, Calm, Steady;
    StepMoves(s, a);
    if a.Enter? && Passed(Apply(s, a).pc).Some? {
      var c := Ahead(s.pc).value;
      assert InFlight(s, c);
      assert c.token < s.locked.nextToken && c.token !in s.locked.cancelled;
      assert s.locked.scanCancels == [c.token];
    }
  }

  lemma StillCurrent(s: State, a: Label, c: Command)
    requires TokensOk(s.locked) && Enabled(s, a) && Current(Apply(s, a), c)
    ensures Current(s, c) || (a == Request(c) && !s.locked.shuttingDown)
  {
    hide Apply, Enabled;
    HistoryStep(s, a);
    StepTokens(s, a);
  }

  lemma StepTracked(s: State, a: Label)
    requires TokensOk(s.locked) && TokensKnown(s) && Tracked(s) && Enabled(s, a) && Steady(a) && Calm(s)
    ensures Tracked(Apply(s, a))
  {
    hide Apply, Enabled, Calm, Steady, InFlight, Current, TokensOk, TokensKnown;
    var s' := Apply(s, a);
    ShutdownStays(s, a);
    forall c | Current(s', c) && !s'.locked.shuttingDown ensures InFlight(s', c) {
      StillCurrent(s, a, c);
      if Current(s, c) {
        FlightGoesOn(s, a, c);
      } else {
        RequestInFlight(s, a);
      }
    }
    forall c | Current(s', c) && BaseCommand(s') == Some(c) && Passed(s'.pc).Some? ensures Passed(s'.pc) == Some(c) {
      StillCurrent(s, a, c);
      if Current(s, c) {
        PassedFollows(s, a, c);
      } else {
        RequestIsNew(s, a);
      }
    }
  }

  lemma ShutdownStays(s: State, a: Label)
    requires Enabled(s, a)
    ensures s.locked.shuttingDown ==> Apply(s, a).locked.shuttingDown
  {
    hide Apply, Enabled;
    StepFrame(s, a);
  }

  lemma RequestInFlight(s: State, a: Label)
    requires Enabled(s, a)
    ensures a.Request? && !s.locked.shuttingDown ==> InFlight(Apply(s, a), a.command)
  {
    RequestToken(s, a);
    hide Apply, Enabled;
  }

  lemma RequestIsNew(s: State, a: Label)
    requires TokensKnown(s) && Enabled(s, a) && Steady(a) && Calm(s)
    ensures a.Request? ==> BaseCommand(Apply(s, a)) != Some(a.command)
  {
    RequestToken(s, a);
    StepMoves(s, a);
    hide Apply, Enabled, Calm, Steady;
    if a.Request? {
      BaseInFlight(s, a.command);
    }
  }

  lemma BaseInFlight(s: State, c: Command)
    ensures BaseCommand(s) == Some(c) ==> InFlight(s, c)
  {
  }

  lemma PassedFollows(s: State, a: Label, c: Command)
    requires TokensOk(s.locked) && TokensKnown(s) && Tracked(s) && Enabled(s, a) && Steady(a) && Calm(s)
    requires Current(s, c) && BaseCommand(Apply(s, a)) == Some(c) && Passed(Apply(s, a).pc).Some?
    ensures Passed(Apply(s, a).pc) == Some(c)
  {
    StepMoves(s, a);
    PassesAsLatest(s, a);
    hide Apply, Enabled, Calm, Steady, TokensOk, TokensKnown;
  }

  // ----- All steady runs -----

  ghost predicate AnyOrderInv(s: State) {
    TokensOk(s.locked) && Calm(s) && Known(s) && BaseOk(s) && TokensKnown(s) && Tracked(s)
  }

  lemma InitiallyAnyOrder(s: State)
    requires Initial(s)
    ensures AnyOrderInv(s)
  {
    hide Scope, Outcome;
  }

  lemma StepAnyOrder(s: State, a: Label)
    requires AnyOrderInv(s) && Enabled(s, a) && Steady(a)
    ensures AnyOrderInv(Apply(s, a))
  {
    hide Apply, Enabled, Steady, TokensOk, Calm, Known, TokensKnown, Tracked;
    StepTokens(s, a);
    StepTokensKnown(s, a);
    StepTracked(s, a);
    if ByWorker(a) {
      hide BaseOk;
      WorkerKnown(s, a);
    } else {
      OthersStay(s, a);
      if ByRequester(a) {
        RequesterKnown(s, a);
      } else {
        FilesKnown(s, a);
      }
    }
  }

  lemma {:induction false} RunAnyOrder(s: State, run: seq<Label>, s': State)
    requires AnyOrderInv(s) && IsSteadyRun(s, run, s')
    ensures AnyOrderInv(s')
    decreases |run|
  {
    hide Apply, Enabled, Steady, AnyOrderInv;
    if run != [] {
      StepAnyOrder(s, run[0]);
      RunAnyOrder(Apply(s, run[0]), run[1..], s');
    }
  }

  lemma DrainedDecided(s: State, c: Command)
    requires AnyOrderInv(s) && Drained(s) && Current(s, c)
    ensures BaseCommand(s) == Some(c) && Reached(s) && WellPosed(c) && BaseOk(s)
  {
    hide Outcome, Scope, WellPosed, DiffOf, TokensOk;
    assert InFlight(s, c);
  }

  /** What is there before any request, or once a request has been decided and not cancelled. */
  ghost function LeftBy(disk: Disk, b: Option<Base>): set<Path> {
    if b.None? then {} else Outcome(disk, b.value)
  }

  /** What an incremental request finds is what the request decided before it has left, whichever that
      was: nothing compares it with the old roots. */
  lemma DecideFinds(start: State, run: seq<Label>, s: State)
    requires Initial(start) && IsSteadyRun(start, run, s) && Enabled(s, Decide(false))
    ensures var b := Apply(s, Decide(false)).hist.base;
      && b.Some? && b.value.c == s.pc.c
      && (!b.value.full ==> b.value.before - s.hist.vanished == LeftBy(s.disk, s.hist.base) - s.hist.vanished)
  {
    InitiallyAnyOrder(start);
    RunAnyOrder(start, run, s);
    DecidingSteps(s, Decide(false));
    hide Initial, IsSteadyRun, Outcome, Known, TokensOk, TokensKnown, Tracked, Apply, Enabled, Decided;
    FoundAtDecision(s);
  }

  lemma FoundAtDecision(s: State)
    requires Known(s) && s.pc.Deciding?
    ensures var b := Decided(s, false).hist.base;
      && b.Some? && b.value.c == s.pc.c
      && (!b.value.full ==> b.value.before - s.hist.vanished == LeftBy(s.disk, s.hist.base) - s.hist.vanished)
  {
    hide Outcome, DiffOf, RootsOf;
  }

  /** Main theorem. Whatever was requested, by whom and in whatever order it was queued, and whatever
      files were removed meanwhile: when everything has drained and the latest request was not cancelled,
      that request was the last one decided, the index is, but for what has gone off the disk, exactly its
      outcome, and it is a scan of the latest options if and only if the request scanned everything or
      found what a scan of its old roots with its own exclusions would have found. */
  lemma AnyOrderExactly(start: State, run: seq<Label>, s: State)
    requires Initial(start) && IsSteadyRun(start, run, s) && Drained(s)
    requires s.hist.latest.Some? && Current(s, s.hist.latest.value)
    ensures s.hist.base.Some? && s.hist.base.value.c == s.hist.latest.value
    ensures var left := Elements(s.live) - s.hist.vanished;
      && left == Outcome(s.disk, s.hist.base.value) - s.hist.vanished
      && (left == Scope(s.disk, CoverOf(OptionsOf(s.hist.latest.value))) <==>
            s.hist.base.value.full || FoundOldRoots(WorldOf(s), s.hist.base.value))
    ensures s.hist.latest.value.Rebuild? ==> s.hist.base.value.full
  {
    InitiallyAnyOrder(start);
    RunAnyOrder(start, run, s);
    DrainedDecided(s, s.hist.latest.value);
    VanishedApart(s);
    hide Initial, IsSteadyRun, Drained, Current, AnyOrderInv, Scope, FoundOldRoots, WellPosed, DiffOf, CoverOf;
    var b := s.hist.base.value;
    if b.full {
      ScopeOnDisk(s.disk, CoverOf(OptionsOf(b.c)));
    } else {
      hide Outcome;
      OutcomeExactly(WorldOf(s), b);
    }
  }

  lemma VanishedApart(s: State)
    requires AnyOrderInv(s)
    ensures s.hist.vanished !! s.disk.Keys
  {
  }
}
