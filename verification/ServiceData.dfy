/** What the store holds at each stage of a command, in every orderly run: the invariant behind
    ServiceCoverage and ServiceRemoval. It covers runs in which the disk changes, too; the parts that
    then no longer hold are guarded by `disturbed`, unless only file operations change it. */
module ServiceData {
  import opened Common
  import opened PathUtils
  import opened IndexStores
  import opened IndexServices
  import opened ServiceModel
  import opened ServiceFrames
  import opened ServiceQueue
  import opened ServiceScope
  import opened ServiceRequests

  /** What the store is compared with: the disk, and what file operations took off it. */
  datatype World = World(disk: Disk, vanished: set<Path>, disturbed: bool)

  function WorldOf(s: State): World {
    World(s.disk, s.hist.vanished, s.hist.disturbed)
  }

  /** The list is duplicate-free, lies under the roots, and on an undisturbed disk is, but for what file
      operations took off the disk, exactly what scans of the cover emit now. */
  ghost predicate Reflects(w: World, list: seq<Path>, cover: Cover) {
    && RowsFit(list, cover.Keys)
    && (!w.disturbed ==> Elements(list) - w.vanished == Scope(w.disk, cover))
  }

  ghost predicate JobOk(w: World, job: ScanJob) {
    && job.inHand <= job.observed && (forall p :: p in job.observed ==> CoveredBy(p, Elements(job.options.roots)))
    && (job.changed ==> w.disturbed)
    && (!w.disturbed ==> job.observed <= Scope(w.disk, CoverOf(job.options)) + w.vanished)
  }

  /** A full scan stages exactly what it has seen and handed over. */
  ghost predicate FullOk(w: World, job: ScanJob, staging: seq<Path>) {
    JobOk(w, job) && NoDuplicates(staging) && Elements(staging) == job.observed - job.inHand
  }

  /** An incremental scan adds what it has handed over to what was covered before. */
  ghost predicate AddOk(w: World, job: ScanJob, live: seq<Path>, held: Cover) {
    && JobOk(w, job)
    && (forall p :: p in live ==> p in job.observed || CoveredBy(p, held.Keys))
    && (forall p :: p in live && CoveredBy(p, Elements(job.options.roots)) ==> p in job.observed && p !in job.inHand)
    && (!w.disturbed ==>
          Elements(live) - w.vanished == Scope(w.disk, held) + (job.observed - job.inHand - w.vanished))
  }

  /** After n of the dropped roots have been removed. */
  ghost predicate RemovingOk(w: World, live: seq<Path>, c: Command, held: Cover, n: nat) {
    && c.Change? && DiffOf(c).added == [] && n <= |DiffOf(c).removed|
    && (forall p :: p in live ==> CoveredBy(p, held.Keys) && Outside(p, DiffOf(c).removed, n))
    && (!w.disturbed ==> forall p :: p !in w.vanished ==>
          (p in live <==> p in Scope(w.disk, held) && Outside(p, DiffOf(c).removed, n)))
  }

  ghost predicate CommandOk(s: State, c: Command) {
    && s.hist.current == Some(c) && IsBusy(c)
    && (c.Change? ==> Antichain(c.oldRoots) && !DropsSlash(c))
  }

  /** The command was the last one decided, and started from its old roots if it is incremental. */
  ghost predicate DecidedOk(s: State, c: Command) {
    CommandOk(s, c) && s.hist.base.Some? && s.hist.base.value.c == c && Continues(s.hist.base.value)
  }

  ghost predicate LiveReflects(s: State) {
    Reflects(WorldOf(s), s.live, Held(s.hist.base))
  }

  /** The last dequeued request was the last one decided. */
  ghost predicate CurrentDecided(s: State) {
    if s.hist.current.None? then s.hist.base.None?
    else s.hist.base.Some? && Some(s.hist.base.value.c) == s.hist.current && Continues(s.hist.base.value)
  }

  lemma CurrentKeys(s: State)
    requires CurrentDecided(s)
    ensures Held(s.hist.base).Keys == Elements(RequestRoots(s.hist.current))
  {
    if s.hist.base.Some? {
      HeldKeys(s.hist.base.value);
    }
  }

  /** Between commands: either the last command was cancelled and says so, or the live index reflects
      its roots, each with the exclusions it was last scanned with. */
  ghost predicate IdleOk(s: State) {
    && (!s.needsFullRebuild ==> LiveReflects(s) && CurrentDecided(s))
    && (s.needsFullRebuild ==>
          s.hist.current.Some? && IsBusy(s.hist.current.value) && IsCancelled(s, s.hist.current.value))
  }

  ghost predicate BeforeOk(s: State, c: Command) {
    && CommandOk(s, c)
    && (!s.needsFullRebuild && c.Change? ==> LiveReflects(s) && Held(s.hist.base).Keys == Elements(c.oldRoots))
  }

  ghost predicate DoneOk(s: State, c: Command, completed: bool) {
    DecidedOk(s, c) && if completed then LiveReflects(s) else IsCancelled(s, c)
  }

  ghost predicate ScanOk(s: State, c: Command, full: bool, job: ScanJob) {
    && DecidedOk(s, c) && s.hist.base.value.full == full
    && (full ==> job.options == OptionsOf(c) && FullOk(WorldOf(s), job, s.staging))
    && (!full ==> DiffOf(c).removed == [] && job.options == AddedOptions(c))
    && (!full ==> AddOk(WorldOf(s), job, s.live, s.hist.base.value.held))
  }

  ghost predicate StageOk(s: State) {
    match s.pc
    case Got(c) => if IsBusy(c) then BeforeOk(s, c) else IdleOk(s)
    case Entered(c) => BeforeOk(s, c)
    case Deciding(c) => BeforeOk(s, c)
    case Scanning(c, full, job) => ScanOk(s, c, full, job)
    case Complete(c) => DecidedOk(s, c) && Reflects(WorldOf(s), s.staging, Held(s.hist.base))
    case Removing(c, n) =>
      && DecidedOk(s, c) && !s.hist.base.value.full
      && RemovingOk(WorldOf(s), s.live, c, s.hist.base.value.held, n)
    case Saving(c, _) => DoneOk(s, c, true)
    case Writing(c, _, image) => DoneOk(s, c, true) && Reflects(WorldOf(s), image, Held(s.hist.base))
    case Finishing(c, completed) => DoneOk(s, c, completed)
    case Reapplying(c, completed, recorded, n) =>
      DoneOk(s, c, completed) && n <= |recorded| && (!s.hist.disturbed ==> Elements(recorded) <= s.hist.vanished)
    case Concluding(c, completed) => DoneOk(s, c, completed)
    case Releasing(c) => IdleOk(s)
    case Waiting => IdleOk(s)
    case Reporting(_) => IdleOk(s)
    case Gone => IdleOk(s)
    case Loading => IdleOk(s)
    case Reloading(rows) => IdleOk(s) && s.hist.disturbed && RowsFit(rows, Elements(RequestRoots(s.hist.current)))
    case Installing(c, rows) => DecidedOk(s, c) && s.hist.disturbed && RowsFit(rows, Elements(RootsOf(c)))
  }

  /** On an undisturbed disk, what is recorded or about to be dropped is off the disk, and no load has
      brought anything back. */
  ghost predicate Quiet(s: State) {
    && (!s.hist.disturbed ==> Elements(s.locked.removedDuringScan) <= s.hist.vanished)
    && (!s.hist.disturbed && (s.filePc.Deleted? || s.filePc.Noted?) && s.filePc.at < |s.filePc.job| ==>
          s.filePc.job[s.filePc.at] in s.hist.vanished)
    && s.hist.vanished !! s.disk.Keys && (!s.hist.disturbed ==> s.hist.revived == {})
  }

  ghost predicate DataOk(s: State) {
    && NoDuplicates(s.live) && Antichain(RequestRoots(s.hist.current))
    && StageOk(s) && Quiet(s)
  }

  // ----- Steps that leave the data alone -----

  /** The stage is still right when the state differs only in queues, histories of requests, and
      tokens cancelled in the meantime. */
  lemma StageFrame(s: State, s': State)
    requires StageOk(s)
    requires s'.pc == s.pc && s'.live == s.live && s'.staging == s.staging && WorldOf(s') == WorldOf(s)
    requires s'.needsFullRebuild == s.needsFullRebuild && s.locked.cancelled <= s'.locked.cancelled
    requires s'.hist.current == s.hist.current && s'.hist.base == s.hist.base
    ensures StageOk(s')
  {
    hide Reflects, FullOk, AddOk, RemovingOk, DropsSlash, DiffOf, RootsOf, RequestRoots, Antichain, Held, Continues,
      RowsFit, AddedOptions;
  }

  lemma RequesterKeeps(s: State, a: Label)
    requires DataOk(s) && TokensOk(s.locked) && Enabled(s, a) && ByRequester(a)
    ensures DataOk(Apply(s, a))
  {
    hide StageOk, NoDuplicates, Antichain, TokensOk;
    hide Scope, Without, ApplyWorker, ApplyFiles;
    StageFrame(s, Apply(s, a));
  }

  // ----- Paths leave the index -----

  /** The store may lose paths, on an undisturbed disk only ones that are off the disk. */
  ghost predicate MayShrink(w: World, live: seq<Path>, live': seq<Path>) {
    && NoDuplicates(live') && (forall p :: p in live' ==> p in live)
    && (!w.disturbed ==> Elements(live') - w.vanished == Elements(live) - w.vanished)
  }

  lemma DropShrinks(w: World, live: seq<Path>, p: Path)
    requires NoDuplicates(live) && (!w.disturbed ==> p in w.vanished)
    ensures MayShrink(w, live, DropFirst(live, p))
  {
    DropFirstMembers(live, p);
    hide DropFirst;
  }

  lemma ReflectsShrinks(w: World, live: seq<Path>, live': seq<Path>, cover: Cover)
    requires MayShrink(w, live, live') && Reflects(w, live, cover)
    ensures Reflects(w, live', cover)
  {
  }

  lemma AddShrinks(w: World, job: ScanJob, live: seq<Path>, live': seq<Path>, held: Cover)
    requires MayShrink(w, live, live') && AddOk(w, job, live, held)
    ensures AddOk(w, job, live', held)
  {
    hide JobOk, CoveredBy;
  }

  lemma RemovingShrinks(w: World, live: seq<Path>, live': seq<Path>, c: Command, held: Cover, n: nat)
    requires MayShrink(w, live, live') && RemovingOk(w, live, c, held, n)
    ensures RemovingOk(w, live', c, held, n)
  {
    hide DiffOf, Outside, CoveredBy, Scope;
    forall p | !w.disturbed && p !in w.vanished ensures p in live' <==> p in live {
      assert p in Elements(live') - w.vanished <==> p in Elements(live) - w.vanished;
    }
  }

  lemma LiveShrinks(s: State, live: seq<Path>)
    requires StageOk(s) && MayShrink(WorldOf(s), s.live, live)
    ensures StageOk(s.(live := live))
  {
    var w := WorldOf(s);
    hide FullOk, AddOk, RemovingOk, Reflects, MayShrink, DropsSlash, DiffOf, RootsOf, RequestRoots, Antichain, Held,
      Continues, RowsFit, AddedOptions;
    if Reflects(w, s.live, Held(s.hist.base)) {
      ReflectsShrinks(w, s.live, live, Held(s.hist.base));
    }
    if s.pc.Scanning? && !s.pc.full {
      AddShrinks(w, s.pc.job, s.live, live, s.hist.base.value.held);
    }
    if s.pc.Removing? {
      RemovingShrinks(w, s.live, live, s.pc.c, s.hist.base.value.held, s.pc.removed);
    }
  }

  // ----- The disk changes -----

  /** The world after a change of the disk: anything, if foreign; otherwise some paths have gone off it
      and out of every scope. */
  ghost predicate MovesOn(w: World, w': World) {
    && (w.disturbed ==> w'.disturbed)
    && (!w'.disturbed ==>
          && w.vanished <= w'.vanished
          && forall cover :: Scope(w'.disk, cover) == Scope(w.disk, cover) - w'.vanished)
  }

  lemma ReflectsOn(w: World, w': World, list: seq<Path>, cover: Cover)
    requires MovesOn(w, w') && Reflects(w, list, cover)
    ensures Reflects(w', list, cover)
  {
    hide RowsFit;
  }

  lemma JobOn(w: World, w': World, job: ScanJob)
    requires MovesOn(w, w') && JobOk(w, job)
    ensures JobOk(w', job)
  {
    hide CoveredBy, CoverOf;
  }

  lemma AddOn(w: World, w': World, job: ScanJob, live: seq<Path>, held: Cover)
    requires MovesOn(w, w') && AddOk(w, job, live, held)
    ensures AddOk(w', job, live, held)
  {
    JobOn(w, w', job);
    hide CoveredBy, JobOk, Scope, Elements;
    if !w'.disturbed {
      assert Elements(live) - w'.vanished == (Elements(live) - w.vanished) - w'.vanished;
    }
  }

  lemma RemovingOn(w: World, w': World, live: seq<Path>, c: Command, held: Cover, n: nat)
    requires MovesOn(w, w') && RemovingOk(w, live, c, held, n)
    ensures RemovingOk(w', live, c, held, n)
  {
    hide CoveredBy, DiffOf, Outside;
  }

  /** The scan in progress notices a foreign change. */
  function Noticed(pc: Pc, foreign: bool): Pc {
    if pc.Scanning? && foreign then pc.(job := pc.job.(changed := true)) else pc
  }

  lemma StageOn(s: State, s': State, foreign: bool)
    requires StageOk(s) && MovesOn(WorldOf(s), WorldOf(s')) && (foreign ==> s'.hist.disturbed)
    requires s'.pc == Noticed(s.pc, foreign) && s'.live == s.live && s'.staging == s.staging
    requires s'.needsFullRebuild == s.needsFullRebuild && s'.locked == s.locked
    requires s'.hist.current == s.hist.current && s'.hist.base == s.hist.base
    ensures StageOk(s')
  {
    var w, w', held := WorldOf(s), WorldOf(s'), Held(s.hist.base);
    MovingParts(w, w');
    hide AddOk, RemovingOk, Reflects, MovesOn, JobOk, DropsSlash, DiffOf, RootsOf, RequestRoots, Antichain, Held,
      Continues, RowsFit, AddedOptions, NoDuplicates, Elements;
    if Reflects(w, s.live, held) {
      ReflectsOn(w, w', s.live, held);
    }
    if s.pc.Complete? {
      ReflectsOn(w, w', s.staging, held);
    }
    if s.pc.Writing? {
      ReflectsOn(w, w', s.pc.image, held);
    }
    if s.pc.Removing? {
      RemovingOn(w, w', s.live, s.pc.c, s.hist.base.value.held, s.pc.removed);
    }
    if s.pc.Scanning? {
      ScanOn(s, s', foreign);
    }
  }

  lemma MovingParts(w: World, w': World)
    requires MovesOn(w, w')
    ensures (w.disturbed ==> w'.disturbed) && (!w'.disturbed ==> w.vanished <= w'.vanished)
  {
  }

  lemma ScanOn(s: State, s': State, foreign: bool)
    requires s.pc.Scanning? && ScanOk(s, s.pc.c, s.pc.full, s.pc.job)
    requires MovesOn(WorldOf(s), WorldOf(s')) && (foreign ==> s'.hist.disturbed)
    requires s'.pc == Noticed(s.pc, foreign) && s'.live == s.live && s'.staging == s.staging
    requires s'.hist.current == s.hist.current && s'.hist.base == s.hist.base
    ensures ScanOk(s', s.pc.c, s.pc.full, s'.pc.job)
  {
    var w, w' := WorldOf(s), WorldOf(s');
    if s.pc.full {
      JobOn(w, w', s.pc.job);
    } else {
      AddOn(w, w', s.pc.job, s.live, s.hist.base.value.held);
    }
    hide MovesOn, Scope, CoveredBy, Held, DropsSlash, DiffOf, Antichain, Continues, NoDuplicates, CoverOf;
  }

  lemma ForeignChange(s: State, disk: Disk)
    requires DataOk(s)
    ensures DataOk(Altered(s, disk, {}, true))
  {
    var s' := Altered(s, disk, {}, true);
    hide StageOk, Scope, NoDuplicates, Antichain, Without, RequestRoots;
    StageOn(s, s', true);
  }

  /** A successful file operation takes a path and everything below it off the disk. */
  lemma FilesVanish(s: State, g: Path, filePc: FilePc)
    requires DataOk(s) && filePc.Deleted? && filePc.at < |filePc.job| && filePc.job[filePc.at] == g
    ensures DataOk(Altered(s, Without(s.disk, g), {g}, false).(filePc := filePc))
  {
    var disk := Without(s.disk, g);
    var s1 := Altered(s, disk, {g}, false);
    var w, w' := WorldOf(s), WorldOf(s1);
    forall cover ensures Scope(disk, cover) == Scope(s.disk, cover) - w'.vanished {
      VanishedScope(s, cover, g);
    }
    assert g !in disk;
    assert MovesOn(w, w');
    hide StageOk, Scope, NoDuplicates, Antichain, Without, RequestRoots, MovesOn;
    StageOn(s, s1, false);
    StageFrame(s1, s1.(filePc := filePc));
  }

  lemma VanishedScope(s: State, cover: Cover, g: Path)
    requires s.hist.vanished !! s.disk.Keys
    ensures var disk := Without(s.disk, g);
      Scope(disk, cover) == Scope(s.disk, cover) - ((s.hist.vanished + {g} + s.disk.Keys) - disk.Keys)
  {
    ScopeWithout(s.disk, cover, g);
    ScopeOnDisk(s.disk, cover);
    hide Scope;
    assert forall p :: p in Without(s.disk, g) <==> p in s.disk && !IsUnderOrEqual(p, g);
    hide IsUnderOrEqual, Without;
  }

  lemma ScopeOnDisk(disk: Disk, cover: Cover)
    ensures Scope(disk, cover) <= disk.Keys
  {
  }

  lemma FilesKeeps(s: State, a: Label)
    requires DataOk(s) && Enabled(s, a) && ByFiles(a)
    ensures DataOk(Apply(s, a))
  {
    AlteringSteps(s, a);
    if a.DiskChange? {
      hide DataOk, Apply, Enabled;
      ForeignChange(s, a.newDisk);
    } else if a == Operate(true) {
      hide DataOk, Apply, Enabled;
      FilesVanish(s, s.filePc.job[s.filePc.at], Deleted(s.filePc.job, s.filePc.at));
    } else {
      QuietFilesKeeps(s, a);
    }
  }

  lemma QuietFilesKeeps(s: State, a: Label)
    requires DataOk(s) && Enabled(s, a) && ByFiles(a) && !ChangesDisk(a)
    ensures DataOk(Apply(s, a))
  {
    hide StageOk, Antichain, NoDuplicates, DropFirst, Altered, MayShrink, RequestRoots;
    hide Scope, Without, ApplyWorker, ApplyRequest;
    var s' := Apply(s, a);
    if a.Drop? {
      DropShrinks(WorldOf(s), s.live, s.filePc.job[s.filePc.at]);
      LiveShrinks(s, s'.live);
      assert NoDuplicates(s'.live) by { ShrunkUnique(WorldOf(s), s.live, s'.live); }
      StageFrame(s.(live := s'.live), s');
    } else {
      StageFrame(s, s');
    }
  }

  lemma ShrunkUnique(w: World, live: seq<Path>, live': seq<Path>)
    requires MayShrink(w, live, live')
    ensures NoDuplicates(live')
  {
  }

  // ----- The worker's steps -----

  /** Dequeuing a request: what the index reflects is what the request starts from. */
  lemma TakeKeeps(s: State)
    requires DataOk(s) && Queued(s) && Enabled(s, Take)
    ensures DataOk(Apply(s, Take))
  {
    hide Reflects, Scope, Without, ApplyRequest, ApplyFiles, NoDuplicates, Antichain, DropsSlash, Busies, Held;
    var c := s.locked.commands[0];
    assert c in s.locked.commands;
    if !s.needsFullRebuild {
      CurrentKeys(s);
    }
    if IsBusy(c) {
      BusiesFirst(s.locked.commands);
      var cs := Busies(s.locked.commands) + Busies(s.pending);
      ChainFirst(s.hist.current, cs, s.hist.latest);
      assert cs[0] == c;
    }
  }

  lemma EnterKeeps(s: State)
    requires DataOk(s) && Enabled(s, Enter)
    ensures DataOk(Apply(s, Enter))
  {
    hide Reflects, Scope, Without, ApplyRequest, ApplyFiles, NoDuplicates, Antichain, DropsSlash, DiffOf, RootsOf, Held;
  }

  lemma StartKeeps(s: State)
    requires DataOk(s) && Enabled(s, Start)
    ensures DataOk(Apply(s, Start))
  {
    hide Reflects, Scope, Without, ApplyRequest, ApplyFiles, NoDuplicates, Antichain, DropsSlash, DiffOf, RootsOf, Held;
  }

  /** The incremental paths start from what the index holds. */
  lemma DecidedAdd(w: World, live: seq<Path>, c: Command, held: Cover)
    requires c.Change? && DiffOf(c).removed == [] && Antichain(RootsOf(c)) && held.Keys == Elements(c.oldRoots)
    requires Reflects(w, live, held)
    ensures AddOk(w, ScanJob(AddedOptions(c), {}, {}, false), live, held)
  {
    DiffAccounts(c.oldRoots, RootsOf(c));
    forall p | p in live ensures !CoveredBy(p, Elements(DiffOf(c).added)) {
      PartsDisjoint(RootsOf(c), c.oldRoots, DiffOf(c).added, p);
    }
  }

  lemma DecidedSame(b: Base)
    requires !b.full && DiffOf(b.c).added == [] && DiffOf(b.c).removed == []
    ensures Held(Some(b)) == b.held
  {
  }

  lemma DecidedRemove(w: World, live: seq<Path>, c: Command, held: Cover)
    requires c.Change? && DiffOf(c).added == []
    requires Reflects(w, live, held)
    ensures RemovingOk(w, live, c, held, 0)
  {
    hide Scope, CoveredBy;
    forall p | !w.disturbed && p !in w.vanished ensures p in live <==> p in Scope(w.disk, held) {
      assert p in live <==> p in Elements(live) - w.vanished;
    }
  }

  lemma DecideKeeps(s: State)
    requires DataOk(s) && Enabled(s, Decide(false))
    ensures DataOk(Apply(s, Decide(false)))
  {
    hide Reflects, AddOk, RemovingOk, Scope, Without, ApplyRequest, ApplyFiles, Antichain, NoDuplicates, DropsSlash,
      DiffOf, Held, FullOk, AddedOptions;
    var c, held := s.pc.c, Held(s.hist.base);
    NothingStaged(WorldOf(s), OptionsOf(c));
    if c.Change? && !s.needsFullRebuild {
      if DiffOf(c).removed == [] {
        DecidedAdd(WorldOf(s), s.live, c, held);
      }
      if DiffOf(c).added == [] {
        DecidedRemove(WorldOf(s), s.live, c, held);
      }
      if DiffOf(c).added == [] && DiffOf(c).removed == [] {
        DecidedSame(Base(c, false, Elements(s.live), held));
      }
    }
  }

  lemma NothingStaged(w: World, options: ScanOptions)
    ensures FullOk(w, ScanJob(options, {}, {}, false), [])
  {
  }

  lemma JobObserve(w: World, job: ScanJob, p: Path)
    requires JobOk(w, job) && p !in job.observed && CoveredBy(p, Elements(job.options.roots))
    requires !job.changed ==> p in Scope(w.disk, CoverOf(job.options))
    ensures JobOk(w, job.(observed := job.observed + {p}, inHand := job.inHand + {p}))
  {
    hide Scope, CoveredBy;
  }

  lemma ObserveKeeps(s: State, p: Path)
    requires DataOk(s) && Enabled(s, Observe(p))
    ensures DataOk(Apply(s, Observe(p)))
  {
    hide Scope, Without, ApplyRequest, ApplyFiles, NoDuplicates, Antichain, DropsSlash, DiffOf, RootsOf, CoveredBy,
      JobOk, Held, Continues, AddedOptions, CoverOf;
    var job := s.pc.job;
    assert JobOk(WorldOf(s), job);
    JobObserve(WorldOf(s), job, p);
    JobParts(WorldOf(s), job);
  }

  lemma JobParts(w: World, job: ScanJob)
    requires JobOk(w, job)
    ensures (job.changed ==> w.disturbed) && job.inHand <= job.observed
    ensures forall p :: p in job.observed ==> CoveredBy(p, Elements(job.options.roots))
    ensures !w.disturbed ==> job.observed <= Scope(w.disk, CoverOf(job.options)) + w.vanished
  {
  }

  lemma EmitFull(w: World, job: ScanJob, staging: seq<Path>, p: Path)
    requires FullOk(w, job, staging) && p in job.inHand
    ensures FullOk(w, job.(inHand := job.inHand - {p}), staging + [p])
  {
    hide Scope, CoveredBy;
    assert p !in Elements(staging);
    assert Elements(staging + [p]) == Elements(staging) + {p};
  }

  lemma EmitAdd(w: World, job: ScanJob, live: seq<Path>, held: Cover, p: Path)
    requires AddOk(w, job, live, held) && NoDuplicates(live) && p in job.inHand
    ensures NoDuplicates(live + [p])
    ensures AddOk(w, job.(inHand := job.inHand - {p}), live + [p], held)
  {
    hide Scope, CoveredBy;
    assert p !in live && p in job.observed;
    assert Elements(live + [p]) == Elements(live) + {p};
    assert job.observed - (job.inHand - {p}) == (job.observed - job.inHand) + {p};
    if !w.disturbed {
      EmitSets(Elements(live), w.vanished, Scope(w.disk, held), job.observed - job.inHand, p);
    }
  }

  lemma EmitSets(live: set<Path>, vanished: set<Path>, scope: set<Path>, out: set<Path>, p: Path)
    requires live - vanished == scope + (out - vanished)
    ensures (live + {p}) - vanished == scope + ((out + {p}) - vanished)
  {
    forall q ensures q in (live + {p}) - vanished <==> q in scope + ((out + {p}) - vanished) {
      assert q in live - vanished <==> q in scope + (out - vanished);
    }
  }

  lemma EmitKeeps(s: State, p: Path)
    requires DataOk(s) && Enabled(s, Emit(p))
    ensures DataOk(Apply(s, Emit(p)))
  {
    hide Scope, Without, ApplyRequest, ApplyFiles, Antichain, DropsSlash, DiffOf, RootsOf, FullOk, AddOk,
      NoDuplicates, Held, Continues, AddedOptions;
    if s.pc.full {
      EmitFull(WorldOf(s), s.pc.job, s.staging, p);
    } else {
      EmitAdd(WorldOf(s), s.pc.job, s.live, s.hist.base.value.held, p);
    }
  }

  /** A finished incremental scan: what was held and what the added roots contribute. */
  lemma AddDone(w: World, job: ScanJob, live: seq<Path>, b: Base)
    requires !b.full && Continues(b) && DiffOf(b.c).removed == [] && job.options == AddedOptions(b.c)
    requires NoDuplicates(live) && AddOk(w, job, live, b.held) && w.vanished !! w.disk.Keys
    requires job.inHand == {} && (job.changed || Scope(w.disk, CoverOf(job.options)) <= job.observed)
    ensures Reflects(w, live, Held(Some(b)))
  {
    var added := CoverOf(job.options);
    DiffAccounts(b.c.oldRoots, RootsOf(b.c));
    assert b.held - Elements(DiffOf(b.c).removed) == b.held;
    assert Held(Some(b)) == b.held + added;
    JobParts(w, job);
    ScopeUnion(w.disk, b.held, added);
    ScopeOnDisk(w.disk, added);
    hide Scope, Diff, Held, AddOk, CoverOf;
    AddParts(w, job, live, b.held);
    forall p | p in live ensures CoveredBy(p, (b.held + added).Keys) {
      if p in job.observed {
        CoveredMoreRoots(p, added.Keys, (b.held + added).Keys);
      } else {
        CoveredMoreRoots(p, b.held.Keys, (b.held + added).Keys);
      }
    }
  }

  lemma AddParts(w: World, job: ScanJob, live: seq<Path>, held: Cover)
    requires AddOk(w, job, live, held)
    ensures forall p :: p in live ==> p in job.observed || CoveredBy(p, held.Keys)
    ensures !w.disturbed ==>
      Elements(live) - w.vanished == Scope(w.disk, held) + (job.observed - job.inHand - w.vanished)
  {
  }

  lemma CoveredMoreRoots(p: Path, a: set<Path>, b: set<Path>)
    requires a <= b && CoveredBy(p, a)
    ensures CoveredBy(p, b)
  {
  }

  lemma FullDone(w: World, job: ScanJob, staging: seq<Path>)
    requires FullOk(w, job, staging) && w.vanished !! w.disk.Keys
    requires job.inHand == {} && (job.changed || Scope(w.disk, CoverOf(job.options)) <= job.observed)
    ensures Reflects(w, staging, CoverOf(job.options))
  {
    ScopeOnDisk(w.disk, CoverOf(job.options));
    hide Scope, CoveredBy;
    forall p | p in staging ensures CoveredBy(p, CoverOf(job.options).Keys) {
      assert p in Elements(staging);
    }
  }

  lemma EndScanReady(s: State)
    requires Enabled(s, EndScan)
    ensures s.pc.Scanning? && s.pc.job.inHand == {} && IsBusy(s.pc.c)
    ensures IsCancelled(s, s.pc.c) || s.pc.job.changed || Scope(s.disk, CoverOf(s.pc.job.options)) <= s.pc.job.observed
  {
  }

  /** The cancel check: a cancelled scan leaves nothing to swap in, a complete one what it should. */
  lemma EndScanKeeps(s: State)
    requires DataOk(s) && Enabled(s, EndScan)
    ensures DataOk(Apply(s, EndScan))
  {
    DecidingSteps(s, EndScan);
    EndScanReady(s);
    hide Apply, Enabled, StageOk, NoDuplicates, Antichain, RequestRoots, Scope, CoverOf;
    EndedStage(s);
  }

  lemma EndedStage(s: State)
    requires s.pc.Scanning? && StageOk(s) && NoDuplicates(s.live) && s.hist.vanished !! s.disk.Keys
    requires s.pc.job.inHand == {} && IsBusy(s.pc.c)
    requires IsCancelled(s, s.pc.c) || s.pc.job.changed || Scope(s.disk, CoverOf(s.pc.job.options)) <= s.pc.job.observed
    ensures StageOk(ScanEnded(s))
  {
    hide Scope, Antichain, DropsSlash, DiffOf, Reflects, FullOk, AddOk, NoDuplicates, AddedOptions, CoverOf, Continues;
    if !IsCancelled(s, s.pc.c) {
      if s.pc.full {
        FullDone(WorldOf(s), s.pc.job, s.staging);
      } else {
        AddDone(WorldOf(s), s.pc.job, s.live, s.hist.base.value);
      }
    }
  }

  lemma ReflectsNoDuplicates(w: World, list: seq<Path>, cover: Cover)
    requires Reflects(w, list, cover)
    ensures NoDuplicates(list)
  {
  }

  lemma SwapKeeps(s: State)
    requires DataOk(s) && Enabled(s, Swap)
    ensures DataOk(Apply(s, Swap))
  {
    hide Scope, Without, ApplyRequest, ApplyFiles, Antichain, DropsSlash, DiffOf, Reflects, NoDuplicates, RootsOf, Held,
      Continues;
    ReflectsNoDuplicates(WorldOf(s), s.staging, Held(s.hist.base));
  }

  lemma RemoveOne(w: World, live: seq<Path>, c: Command, held: Cover, n: nat)
    requires RemovingOk(w, live, c, held, n) && n < |DiffOf(c).removed| && NoDuplicates(live)
    ensures RemovingOk(w, NotUnder(live, DiffOf(c).removed[n]), c, held, n + 1)
    ensures NoDuplicates(NotUnder(live, DiffOf(c).removed[n]))
  {
    var removed := DiffOf(c).removed;
    NotUnderMembers(live, removed[n]);
    hide Scope, Diff, CoveredBy, IsUnderPath, NotUnder;
    forall p ensures Outside(p, removed, n + 1) <==> Outside(p, removed, n) && !IsUnderPath(p, removed[n]) {
    }
  }

  lemma RemoveRootKeeps(s: State)
    requires DataOk(s) && Enabled(s, RemoveRoot)
    ensures DataOk(Apply(s, RemoveRoot))
  {
    hide Scope, Without, ApplyRequest, ApplyFiles, Antichain, DropsSlash, DiffOf, RemovingOk, NoDuplicates, NotUnder,
      Held, Continues;
    RemoveOne(WorldOf(s), s.live, s.pc.c, s.hist.base.value.held, s.pc.removed);
  }

  /** All dropped roots removed: what was held for the kept roots is left. */
  lemma RemovalDone(w: World, live: seq<Path>, b: Base)
    requires RemovingOk(w, live, b.c, b.held, |DiffOf(b.c).removed|) && NoDuplicates(live)
    requires !b.full && Continues(b) && Antichain(b.c.oldRoots) && !DropsSlash(b.c) && w.vanished !! w.disk.Keys
    ensures Reflects(w, live, Held(Some(b)))
  {
    var oldRoots, newRoots, removed := b.c.oldRoots, RootsOf(b.c), DiffOf(b.c).removed;
    var kept := b.held - Elements(removed);
    DiffAccounts(oldRoots, newRoots);
    assert kept.Keys == Elements(newRoots) && Held(Some(b)) == kept;
    ScopeOnDisk(w.disk, kept);
    hide Scope, NoDuplicates, Held, Diff, Antichain;
    forall p | p in live ensures CoveredBy(p, kept.Keys) {
      OutsideIsKept(oldRoots, newRoots, p);
    }
    if !w.disturbed {
      forall p ensures p in Elements(live) - w.vanished <==> p in Scope(w.disk, kept) {
        RemovalScope(w.disk, b.held, oldRoots, newRoots, p);
      }
    }
  }

  lemma SerializeKeeps(s: State)
    requires DataOk(s) && Enabled(s, Serialize)
    ensures DataOk(Apply(s, Serialize))
  {
    hide Scope, Without, ApplyRequest, ApplyFiles, Antichain, DropsSlash, DiffOf, RemovingOk, NoDuplicates, Reflects,
      Held, Continues;
    if s.pc.Removing? {
      assert s.pc.c.Change? by { RemovingParts(WorldOf(s), s.live, s.pc.c, s.hist.base.value.held, s.pc.removed); }
      RemovalDone(WorldOf(s), s.live, s.hist.base.value);
    }
  }

  lemma RemovingParts(w: World, live: seq<Path>, c: Command, held: Cover, n: nat)
    requires RemovingOk(w, live, c, held, n)
    ensures c.Change? && n <= |DiffOf(c).removed|
  {
  }

  lemma WriteKeeps(s: State, ok: bool)
    requires DataOk(s) && Enabled(s, Write(ok))
    ensures DataOk(Apply(s, Write(ok)))
  {
    hide Scope, Without, ApplyRequest, ApplyFiles, Antichain, DropsSlash, DiffOf, NoDuplicates, Reflects, RootsOf, Held,
      Continues;
  }

  lemma FinishKeeps(s: State)
    requires DataOk(s) && Enabled(s, Finish)
    ensures DataOk(Apply(s, Finish))
  {
    hide Scope, Without, ApplyRequest, ApplyFiles, Antichain, DropsSlash, DiffOf, NoDuplicates, Reflects, RootsOf, Held,
      Continues;
  }

  lemma ReapplyKeeps(s: State)
    requires DataOk(s) && Enabled(s, Reapply)
    ensures DataOk(Apply(s, Reapply))
  {
    hide Scope, Without, ApplyRequest, ApplyFiles, Antichain, DropsSlash, DiffOf, RootsOf, Reflects, NoDuplicates,
      DropFirst, Held, Continues, MayShrink;
    var p := s.pc.recorded[s.pc.applied];
    assert p in Elements(s.pc.recorded);
    DropShrinks(WorldOf(s), s.live, p);
    ShrunkUnique(WorldOf(s), s.live, DropFirst(s.live, p));
    if s.pc.completed {
      ReflectsShrinks(WorldOf(s), s.live, DropFirst(s.live, p), Held(s.hist.base));
    }
  }

  lemma ConcludeKeeps(s: State)
    requires DataOk(s) && Enabled(s, Conclude)
    ensures DataOk(Apply(s, Conclude))
  {
    hide Scope, Without, ApplyRequest, ApplyFiles, Antichain, DropsSlash, DiffOf, NoDuplicates, Reflects, Held,
      Continues;
  }

  lemma CloseKeeps(s: State, a: Label)
    requires DataOk(s) && Enabled(s, a) && (a.Release? || a.Report? || a.Skip? || a.Exit? || a.ClearReload?)
    ensures DataOk(Apply(s, a))
  {
    hide Scope, Without, ApplyRequest, ApplyFiles, Antichain, DropsSlash, DiffOf, NoDuplicates, Reflects, RootsOf, Held,
      RequestRoots, Elements;
  }

  // ----- Loads of a fitting index file -----

  lemma DecideLoadKeeps(s: State)
    requires DataOk(s) && Enabled(s, Decide(true)) && Orderly(s, Decide(true))
    ensures DataOk(Apply(s, Decide(true)))
  {
    hide Scope, Without, ApplyRequest, ApplyFiles, Antichain, DropsSlash, DiffOf, RowsFit, NoDuplicates, Reflects, Held;
  }

  lemma LoadFileKeeps(s: State, ok: bool)
    requires DataOk(s) && Enabled(s, LoadFile(ok)) && Orderly(s, LoadFile(ok))
    ensures DataOk(Apply(s, LoadFile(ok)))
  {
    LiveDisturbed(s);
    hide Scope, Without, ApplyRequest, ApplyFiles, Antichain, DropsSlash, DiffOf, RowsFit, NoDuplicates, RootsOf,
      Reflects, Held;
  }

  lemma LiveDisturbed(s: State)
    ensures LiveReflects(s) ==> Reflects(WorldOf(s).(disturbed := true), s.live, Held(s.hist.base))
  {
  }

  lemma RowsReflect(w: World, rows: seq<Path>, cover: Cover)
    requires w.disturbed && RowsFit(rows, cover.Keys)
    ensures Reflects(w, rows, cover) && NoDuplicates(rows)
  {
  }

  lemma FitsUnique(rows: seq<Path>, roots: set<Path>)
    requires RowsFit(rows, roots)
    ensures NoDuplicates(rows)
  {
  }

  lemma InstallKeeps(s: State, a: Label)
    requires DataOk(s) && Enabled(s, a) && (a.Install? || a.InstallReload?)
    ensures DataOk(Apply(s, a))
  {
    hide Scope, Without, ApplyRequest, ApplyFiles, Antichain, DropsSlash, DiffOf, NoDuplicates, Reflects, RootsOf, Held,
      RowsFit, Continues;
    if a.Install? {
      HeldKeys(s.hist.base.value);
      RowsReflect(WorldOf(s), s.pc.rows, Held(s.hist.base));
    } else {
      FitsUnique(s.pc.rows, Elements(RequestRoots(s.hist.current)));
      if !s.needsFullRebuild {
        CurrentKeys(s);
        RowsReflect(WorldOf(s), s.pc.rows, Held(s.hist.base));
      }
    }
  }

  lemma StepData(s: State, a: Label)
    requires DataOk(s) && Queued(s) && TokensOk(s.locked) && Enabled(s, a) && Orderly(s, a)
    ensures DataOk(Apply(s, a))
  {
    hide DataOk, Queued, TokensOk, Apply, Enabled, Orderly;
    if ByRequester(a) {
      RequesterKeeps(s, a);
    } else if ByFiles(a) {
      FilesKeeps(s, a);
    } else {
      match a
      case Take => TakeKeeps(s);
      case Enter => EnterKeeps(s);
      case Start => StartKeeps(s);
      case Decide(recent) => if recent { DecideLoadKeeps(s); } else { DecideKeeps(s); }
      case LoadFile(ok) => LoadFileKeeps(s, ok);
      case Install => InstallKeeps(s, a);
      case InstallReload => InstallKeeps(s, a);
      case Observe(p) => ObserveKeeps(s, p);
      case Emit(p) => EmitKeeps(s, p);
      case EndScan => EndScanKeeps(s);
      case Swap => SwapKeeps(s);
      case RemoveRoot => RemoveRootKeeps(s);
      case Serialize => SerializeKeeps(s);
      case Write(ok) => WriteKeeps(s, ok);
      case Finish => FinishKeeps(s);
      case Reapply => ReapplyKeeps(s);
      case Conclude => ConcludeKeeps(s);
      case _ => CloseKeeps(s, a);
    }
  }
}
