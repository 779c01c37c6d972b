/** A removed file never comes back: what becomes of the paths the file-operations thread removes, in
    every interleaving with scans, saves, Settings changes, cancellations and changes of the disk. */
module ServiceRemoval {
  import opened Common
  import opened PathUtils
  import opened IndexStores
  import opened IndexServices
  import opened ServiceModel
  import opened ServiceFrames
  import opened ServiceQueue
  import opened ServiceRequests
  import opened ServiceData
  import opened ServiceCoverage

  /** The removal of g is under way: done on disk, not yet in the store. */
  predicate Dropping(s: State, g: Path) {
    && (s.filePc.Deleted? || s.filePc.Noted?)
    && s.filePc.at < |s.filePc.job| && s.filePc.job[s.filePc.at] == g
  }

  /** g will be removed from the live index when the current scan finishes. */
  predicate Owed(s: State, g: Path) {
    || g in s.locked.removedDuringScan
    || (s.pc.Reapplying? && s.pc.applied <= |s.pc.recorded| && g in s.pc.recorded[s.pc.applied..])
  }

  predicate InScan(s: State, g: Path) {
    g in s.staging || (s.pc.Scanning? && g in s.pc.job.inHand)
  }

  ghost predicate GoneOk(s: State, g: Path) {
    && g !in s.disk
    && (g in s.live ==> Dropping(s, g) || Owed(s, g) || g in s.hist.revived)
    && (InScan(s, g) ==> (Dropping(s, g) && s.filePc.Deleted?) || g in s.locked.removedDuringScan)
  }

  /** The stages of a command during which scanRunning_ is set. */
  predicate WithScan(pc: Pc) {
    match pc
    case Deciding(_) => true
    case Scanning(_, _, _) => true
    case Complete(_) => true
    case Removing(_, _) => true
    case Saving(_, save) => save.Main?
    case Writing(_, save, _) => save.Main?
    case Installing(_, _) => true
    case Finishing(_, _) => true
    case _ => false
  }

  ghost predicate FlagOk(s: State) {
    && s.locked.scanRunning == WithScan(s.pc)
    && (!s.locked.scanRunning ==> s.locked.removedDuringScan == [])
    && (s.staging != [] ==> (s.pc.Scanning? && s.pc.full) || s.pc.Complete?)
  }

  /** Removals already applied again, and images saved after that, are free of the recorded paths. */
  ghost predicate FinalOk(s: State) {
    && (s.pc.Reapplying? ==> s.pc.applied <= |s.pc.recorded|)
    && (s.pc.Reapplying? ==> forall g :: g in s.pc.recorded[..s.pc.applied] ==> g !in s.live)
    && (s.pc.Saving? && s.pc.save.Final? ==> forall g :: g in s.pc.save.recorded ==> g !in s.live)
    && (s.pc.Writing? && s.pc.save.Final? ==>
          forall g :: g in s.pc.save.recorded ==> g !in s.live && g !in s.pc.image)
  }

  /** A removal that reached the index file stays out of everything. */
  ghost predicate SettledOk(s: State, g: Path) {
    && g in s.hist.gone && g !in s.live && !InScan(s, g)
    && (s.pc.Writing? ==> g !in s.pc.image) && (s.file.Some? ==> g !in s.file.value)
    && (s.pc.Installing? || s.pc.Reloading? ==> g !in s.pc.rows)
  }

  ghost predicate RevivedOk(s: State) {
    forall g :: g in s.hist.revived ==> g in s.hist.gone && g in s.live
  }

  ghost predicate RemovalOk(s: State) {
    && FlagOk(s) && FinalOk(s) && RevivedOk(s)
    && (forall g :: g in s.hist.gone ==> GoneOk(s, g))
    && (forall g :: g in s.hist.settled ==> SettledOk(s, g))
  }

  /** A step that adds nothing to the live index, puts nothing new in a scan's hands, and drops no
      debt, keeps what is known of each path. */
  lemma Carry(s: State, s': State)
    requires RemovalOk(s) && FlagOk(s') && FinalOk(s')
    requires s'.disk == s.disk && s'.filePc == s.filePc
    requires s'.hist.gone == s.hist.gone && s'.hist.settled == s.hist.settled
    requires forall g :: g in s'.live ==> g in s.live
    requires forall g :: g in s'.hist.revived <==> g in s.hist.revived && g in s'.live
    requires forall g :: InScan(s', g) ==> InScan(s, g)
    requires forall g :: g in s.locked.removedDuringScan && InScan(s', g) ==> g in s'.locked.removedDuringScan
    requires forall g :: g in s'.live && Owed(s, g) ==> Owed(s', g)
    requires s'.pc.Writing? ==> s'.pc.image == s.live || (s.pc.Writing? && s'.pc.image == s.pc.image)
    requires s'.file == s.file || (s.pc.Writing? && s'.file == Some(s.pc.image))
    requires s'.pc.Installing? || s'.pc.Reloading? ==>
      (s.file.Some? && s'.pc.rows == s.file.value)
      || ((s.pc.Installing? || s.pc.Reloading?) && s'.pc.rows == s.pc.rows)
    ensures RemovalOk(s')
  {
    hide FlagOk, FinalOk, InScan, Owed;
    forall g | g in s'.hist.gone ensures GoneOk(s', g) {
      assert GoneOk(s, g);
    }
    forall g | g in s'.hist.settled ensures SettledOk(s', g) {
      assert SettledOk(s, g);
    }
  }

  lemma RequesterRemoval(s: State, a: Label)
    requires RemovalOk(s) && Enabled(s, a) && ByRequester(a)
    ensures RemovalOk(Apply(s, a))
  {
    hide Scope, Without, ApplyWorker, ApplyFiles, GoneOk, SettledOk, Elements, Altered;
    Carry(s, Apply(s, a));
  }

  /** A removal, or its re-application, meets a store that lists the path at most once. */
  predicate Unrepeated(s: State, a: Label) {
    && (a.Reapply? && s.pc.Reapplying? && s.pc.applied < |s.pc.recorded| ==>
          Copies(s.live, s.pc.recorded[s.pc.applied]) <= 1)
    && (a.Drop? && s.filePc.Noted? && s.filePc.at < |s.filePc.job| ==> Copies(s.live, s.filePc.job[s.filePc.at]) <= 1)
  }

  // ----- The worker's steps -----

  lemma OpeningRemoval(s: State, a: Label)
    requires RemovalOk(s) && Enabled(s, a) && (a.Take? || a.Exit? || a.Enter? || a.Start?)
    ensures RemovalOk(Apply(s, a))
  {
    hide Scope, Without, ApplyRequest, ApplyFiles, GoneOk, SettledOk, DiffOf, OptionsOf, Elements, Altered, Decided,
      ScanEnded, DropFirst, NotUnder;
    Carry(s, Apply(s, a));
  }

  lemma SavingRemoval(s: State, a: Label)
    requires RemovalOk(s) && Enabled(s, a) && (a.Serialize? || a.Conclude?)
    ensures RemovalOk(Apply(s, a))
  {
    hide Scope, Without, ApplyRequest, ApplyFiles, GoneOk, SettledOk, DiffOf, OptionsOf, Elements, Altered, Decided,
      ScanEnded, DropFirst, NotUnder;
    Carry(s, Apply(s, a));
  }

  lemma ClosingRemoval(s: State, a: Label)
    requires RemovalOk(s) && Enabled(s, a) && (a.Release? || a.Report? || a.Skip? || a.ClearReload?)
    ensures RemovalOk(Apply(s, a))
  {
    hide Scope, Without, ApplyRequest, ApplyFiles, GoneOk, SettledOk, DiffOf, OptionsOf, Elements, Altered, Decided,
      ScanEnded, DropFirst, NotUnder;
    Carry(s, Apply(s, a));
  }

  lemma DecideRemoval(s: State, recent: bool)
    requires RemovalOk(s) && Enabled(s, Decide(recent))
    ensures RemovalOk(Apply(s, Decide(recent)))
  {
    hide Apply, Enabled, RemovalOk;
    DecidingSteps(s, Decide(recent));
    DecidedRemoval(s, recent);
  }

  lemma DecidedRemoval(s: State, recent: bool)
    requires RemovalOk(s) && s.pc.Deciding? && (recent ==> s.file.Some?)
    ensures RemovalOk(Decided(s, recent))
  {
    hide GoneOk, SettledOk, DiffOf, RootsOf, NeedsScanOfAll, Elements;
    Carry(s, Decided(s, recent));
  }

  lemma LoadRemoval(s: State, ok: bool)
    requires RemovalOk(s) && Enabled(s, LoadFile(ok))
    ensures RemovalOk(Apply(s, LoadFile(ok)))
  {
    hide Scope, Without, ApplyRequest, ApplyFiles, GoneOk, SettledOk, DiffOf, OptionsOf, Elements, Altered, Decided,
      ScanEnded, DropFirst, NotUnder;
    Carry(s, Apply(s, LoadFile(ok)));
  }

  /** Installing a loaded file brings back the removed paths it lists, and only those. */
  lemma InstallRemoval(s: State, a: Label)
    requires RemovalOk(s) && Enabled(s, a) && (a.Install? || a.InstallReload?)
    ensures RemovalOk(Apply(s, a))
  {
    hide Scope, Without, ApplyRequest, ApplyFiles, DiffOf, RootsOf;
    var s' := Apply(s, a);
    forall g | g in s'.hist.gone ensures GoneOk(s', g) {
      assert GoneOk(s, g);
    }
    forall g | g in s'.hist.settled ensures SettledOk(s', g) {
      assert SettledOk(s, g);
    }
  }

  lemma GoneOffDisk(s: State, p: Path)
    requires RemovalOk(s)
    ensures p in s.disk ==> p !in s.hist.gone && p !in s.hist.settled
  {
    assert p in s.hist.gone ==> GoneOk(s, p);
    assert p in s.hist.settled ==> SettledOk(s, p);
  }

  /** Only a path that is on the disk is observed: never a gone one. */
  lemma ObserveRemoval(s: State, p: Path)
    requires RemovalOk(s) && Enabled(s, Observe(p))
    ensures RemovalOk(Apply(s, Observe(p)))
  {
    hide Scope, Without, ApplyRequest, ApplyFiles;
    var s' := Apply(s, Observe(p));
    GoneOffDisk(s, p);
    hide Apply, ApplyWorker, Enabled;
    forall g | g in s'.hist.gone ensures GoneOk(s', g) {
      assert GoneOk(s, g);
    }
    forall g | g in s'.hist.settled ensures SettledOk(s', g) {
      assert SettledOk(s, g);
    }
  }

  lemma EmitRemoval(s: State, p: Path)
    requires RemovalOk(s) && Enabled(s, Emit(p))
    ensures RemovalOk(Apply(s, Emit(p)))
  {
    hide Scope, Without, ApplyRequest, ApplyFiles;
    var s' := Apply(s, Emit(p));
    assert forall g :: InScan(s', g) ==> InScan(s, g);
    assert forall g :: g in s'.live && g !in s.live ==> InScan(s, g);
    assert s'.locked == s.locked && s'.filePc == s.filePc && s'.disk == s.disk && s'.file == s.file;
    assert s'.hist == s.hist && FlagOk(s') && FinalOk(s') && RevivedOk(s');
    assert s'.pc.Scanning?;
    assert forall g :: Owed(s', g) == Owed(s, g);
    hide Apply, ApplyWorker, Enabled, FlagOk, FinalOk, RevivedOk, InScan, Owed;
    forall g | g in s'.hist.gone ensures GoneOk(s', g) {
      assert GoneOk(s, g);
      RecordedOwed(s, g);
    }
    forall g | g in s'.hist.settled ensures SettledOk(s', g) {
      assert SettledOk(s, g);
    }
  }

  lemma RecordedOwed(s: State, g: Path)
    ensures g in s.locked.removedDuringScan ==> Owed(s, g)
  {
  }

  lemma EndScanRemoval(s: State)
    requires RemovalOk(s) && Enabled(s, EndScan)
    ensures RemovalOk(Apply(s, EndScan))
  {
    hide Scope, Without, ApplyRequest, ApplyFiles, GoneOk, SettledOk;
    Carry(s, Apply(s, EndScan));
  }

  /** The swap: what was staged and then removed is recorded or about to be dropped. */
  lemma SwapRemoval(s: State)
    requires RemovalOk(s) && Enabled(s, Swap)
    ensures RemovalOk(Apply(s, Swap))
  {
    hide Scope, Without, ApplyRequest, ApplyFiles;
    var s' := Apply(s, Swap);
    forall g | g in s'.hist.gone ensures GoneOk(s', g) {
      assert GoneOk(s, g);
    }
    forall g | g in s'.hist.settled ensures SettledOk(s', g) {
      assert SettledOk(s, g);
    }
  }

  lemma RemoveRootRemoval(s: State)
    requires RemovalOk(s) && Enabled(s, RemoveRoot)
    ensures RemovalOk(Apply(s, RemoveRoot))
  {
    hide Scope, Without, ApplyRequest, ApplyFiles, GoneOk, SettledOk, DiffOf, NotUnder;
    NotUnderMembers(s.live, DiffOf(s.pc.c).removed[s.pc.removed]);
    Carry(s, Apply(s, RemoveRoot));
  }

  /** The save after a completed scan settles the removals it was made for. */
  lemma WriteRemoval(s: State, ok: bool)
    requires RemovalOk(s) && Enabled(s, Write(ok))
    ensures RemovalOk(Apply(s, Write(ok)))
  {
    hide Scope, Without, ApplyRequest, ApplyFiles;
    var s' := Apply(s, Write(ok));
    forall g | g in s'.hist.gone ensures GoneOk(s', g) {
      assert GoneOk(s, g);
    }
    forall g | g in s'.hist.settled ensures SettledOk(s', g) {
      assert g in s.hist.gone ==> GoneOk(s, g);
      assert g in s.hist.settled ==> SettledOk(s, g);
    }
  }

  lemma FinishRemoval(s: State)
    requires RemovalOk(s) && Enabled(s, Finish)
    ensures RemovalOk(Apply(s, Finish))
  {
    hide Scope, Without, ApplyRequest, ApplyFiles, GoneOk, SettledOk;
    var s' := Apply(s, Finish);
    assert s'.pc.recorded[s'.pc.applied..] == s.locked.removedDuringScan;
    Carry(s, s');
  }

  /** Applying a recorded removal again: a path that was live at most once is gone. */
  lemma ReapplyRemoval(s: State)
    requires RemovalOk(s) && Enabled(s, Reapply) && Unrepeated(s, Reapply)
    ensures RemovalOk(Apply(s, Reapply))
  {
    hide Scope, Without, ApplyRequest, ApplyFiles, GoneOk, SettledOk, DropFirst;
    var s' := Apply(s, Reapply);
    var recorded, n := s.pc.recorded, s.pc.applied;
    DropFirstMembers(s.live, recorded[n]);
    RemoveLeavesCopies(s.live, recorded[n]);
    assert recorded[..n + 1] == recorded[..n] + [recorded[n]];
    assert recorded[n..] == [recorded[n]] + recorded[n + 1..];
    Carry(s, s');
  }

  // ----- The file-operations thread and the disk -----

  lemma AlteredRemoval(s: State, disk: Disk, removed: set<Path>, foreign: bool, filePc: FilePc)
    requires RemovalOk(s) && (forall g :: g in removed ==> g !in disk)
    requires removed == {} ==> filePc == s.filePc
    requires removed != {} ==> s.filePc.Operating?
    requires forall g :: g in removed ==> Dropping(s.(filePc := filePc), g) && filePc.Deleted?
    ensures RemovalOk(Altered(s, disk, removed, foreign).(filePc := filePc))
  {
    hide Scope;
    var s' := Altered(s, disk, removed, foreign).(filePc := filePc);
    assert forall g :: InScan(s', g) == InScan(s, g) && Owed(s', g) == Owed(s, g);
    assert FlagOk(s') && FinalOk(s') && RevivedOk(s');
    hide FlagOk, FinalOk, RevivedOk, InScan, Owed;
    forall g | g in s'.hist.gone ensures GoneOk(s', g) {
      assert g in s.hist.gone ==> GoneOk(s, g);
    }
    forall g | g in s'.hist.settled ensures SettledOk(s', g) {
      assert SettledOk(s, g);
    }
  }

  lemma OperateRemoval(s: State)
    requires RemovalOk(s) && Enabled(s, Operate(true))
    ensures RemovalOk(Apply(s, Operate(true)))
  {
    hide RemovalOk;
    var p := s.filePc.job[s.filePc.at];
    AlteredRemoval(s, Without(s.disk, p), {p}, false, Deleted(s.filePc.job, s.filePc.at));
  }

  /** Recording the removal while scanRunning_ is set; otherwise no scan can hold the path. */
  lemma NoteRemoval(s: State)
    requires RemovalOk(s) && Enabled(s, Note)
    ensures RemovalOk(Apply(s, Note))
  {
    hide Scope, Without, ApplyRequest, ApplyWorker;
    var s' := Apply(s, Note);
    forall g | g in s'.hist.gone ensures GoneOk(s', g) {
      assert GoneOk(s, g);
    }
    forall g | g in s'.hist.settled ensures SettledOk(s', g) {
      assert SettledOk(s, g);
    }
  }

  lemma DropRemoval(s: State)
    requires RemovalOk(s) && Enabled(s, Drop) && Unrepeated(s, Drop)
    ensures RemovalOk(Apply(s, Drop))
  {
    hide Scope, Without, ApplyRequest, ApplyWorker, DropFirst;
    var s' := Apply(s, Drop);
    DropFirstMembers(s.live, s.filePc.job[s.filePc.at]);
    RemoveLeavesCopies(s.live, s.filePc.job[s.filePc.at]);
    assert FlagOk(s') && FinalOk(s') && RevivedOk(s');
    assert forall g :: InScan(s', g) == InScan(s, g) && Owed(s', g) == Owed(s, g);
    hide FlagOk, FinalOk, InScan, Owed;
    forall g | g in s'.hist.gone ensures GoneOk(s', g) {
      assert GoneOk(s, g);
    }
    forall g | g in s'.hist.settled ensures SettledOk(s', g) {
      assert SettledOk(s, g);
    }
  }

  /** Taking and finishing jobs, failed operations, and foreign writes of the index file. */
  lemma IdleFilesRemoval(s: State, a: Label)
    requires RemovalOk(s) && Enabled(s, a)
    requires a.TakeJob? || a.ExitFiles? || a.FinishJob? || a == Operate(false) || a.FileChange?
    ensures RemovalOk(Apply(s, a))
  {
    hide Scope, Without, ApplyRequest, ApplyWorker;
    var s' := Apply(s, a);
    assert FlagOk(s') && FinalOk(s') && RevivedOk(s');
    assert forall g :: InScan(s', g) == InScan(s, g) && Owed(s', g) == Owed(s, g);
    hide FlagOk, FinalOk, RevivedOk, InScan, Owed;
    forall g | g in s'.hist.gone ensures GoneOk(s', g) {
      assert GoneOk(s, g);
    }
    forall g | g in s'.hist.settled ensures SettledOk(s', g) {
      assert SettledOk(s, g);
    }
  }

  // ----- All runs -----

  lemma StepRemoval(s: State, a: Label)
    requires RemovalOk(s) && Enabled(s, a) && Unrepeated(s, a)
    ensures RemovalOk(Apply(s, a))
  {
    hide RemovalOk, Apply, Enabled, Unrepeated;
    if ByRequester(a) {
      RequesterRemoval(s, a);
    } else {
      match a
      case Operate(ok) => if ok { OperateRemoval(s); } else { IdleFilesRemoval(s, a); }
      case Note => NoteRemoval(s);
      case Drop => DropRemoval(s);
      case DiskChange(disk) => DiskChangeRemoval(s, disk);
      case TakeJob => IdleFilesRemoval(s, a);
      case ExitFiles => IdleFilesRemoval(s, a);
      case FinishJob => IdleFilesRemoval(s, a);
      case FileChange(_) => IdleFilesRemoval(s, a);
      case Decide(recent) => DecideRemoval(s, recent);
      case LoadFile(ok) => LoadRemoval(s, ok);
      case Install => InstallRemoval(s, a);
      case InstallReload => InstallRemoval(s, a);
      case Observe(p) => ObserveRemoval(s, p);
      case Emit(p) => EmitRemoval(s, p);
      case EndScan => EndScanRemoval(s);
      case Swap => SwapRemoval(s);
      case RemoveRoot => RemoveRootRemoval(s);
      case Write(ok) => WriteRemoval(s, ok);
      case Finish => FinishRemoval(s);
      case Reapply => ReapplyRemoval(s);
      case Take => OpeningRemoval(s, a);
      case Exit => OpeningRemoval(s, a);
      case Enter => OpeningRemoval(s, a);
      case Start => OpeningRemoval(s, a);
      case Serialize => SavingRemoval(s, a);
      case Conclude => SavingRemoval(s, a);
      case _ => ClosingRemoval(s, a);
    }
  }

  lemma DiskChangeRemoval(s: State, disk: Disk)
    requires RemovalOk(s)
    ensures Enabled(s, DiskChange(disk)) && RemovalOk(Apply(s, DiskChange(disk)))
  {
    hide RemovalOk;
    AlteredRemoval(s, disk, {}, true, s.filePc);
  }

  /** Any run of any requesters, with loads and foreign writes of the index file, as long as removals
      meet a store that lists their path at most once. */
  ghost predicate IsUnrepeatedRun(s: State, run: seq<Label>, s': State)
    decreases |run|
  {
    if run == [] then s' == s
    else Enabled(s, run[0]) && Unrepeated(s, run[0]) && IsUnrepeatedRun(Apply(s, run[0]), run[1..], s')
  }

  lemma {:induction false} RunRemoval(s: State, run: seq<Label>, s': State)
    requires RemovalOk(s) && IsUnrepeatedRun(s, run, s')
    ensures RemovalOk(s')
    decreases |run|
  {
    hide RemovalOk, Apply, Enabled, Unrepeated;
    if run != [] {
      StepRemoval(s, run[0]);
      RunRemoval(Apply(s, run[0]), run[1..], s');
    }
  }

  /** Orderly runs keep the store duplicate-free, so the removal theorems hold of them. */
  lemma {:induction false} OrderlyIsUnrepeated(s: State, run: seq<Label>, s': State)
    requires OrderlyInv(s) && IsOrderlyRun(s, run, s')
    ensures IsUnrepeatedRun(s, run, s') && NoDuplicates(s'.live)
    decreases |run|
  {
    hide TokensOk, Queued, DataOk, Apply, Enabled, Orderly, Unrepeated;
    LiveUnrepeated(s);
    if run != [] {
      UniqueUnrepeated(s, run[0]);
      StepTokens(s, run[0]);
      StepQueued(s, run[0]);
      StepData(s, run[0]);
      OrderlyIsUnrepeated(Apply(s, run[0]), run[1..], s');
    }
  }

  lemma LiveUnrepeated(s: State)
    requires DataOk(s)
    ensures NoDuplicates(s.live)
  {
  }

  lemma UniqueUnrepeated(s: State, a: Label)
    requires NoDuplicates(s.live)
    ensures Unrepeated(s, a)
  {
    if a.Reapply? && s.pc.Reapplying? && s.pc.applied < |s.pc.recorded| {
      OneCopy(s.live, s.pc.recorded[s.pc.applied]);
    }
    if a.Drop? && s.filePc.Noted? && s.filePc.at < |s.filePc.job| {
      OneCopy(s.live, s.filePc.job[s.filePc.at]);
    }
  }

  lemma OneCopy(s: seq<Path>, p: Path)
    requires NoDuplicates(s)
    ensures Copies(s, p) <= 1
  {
    DropFirstMembers(s, p);
    RemoveLeavesCopies(s, p);
  }

  lemma InitialRemoval(s: State)
    requires Initial(s)
    ensures RemovalOk(s)
  {
  }

  /** No scan is running, no recorded removal waits to be applied again, and the file thread is not in
      the middle of a removal. */
  predicate Finished(s: State) {
    !s.locked.scanRunning && !s.pc.Reapplying? && !s.filePc.Deleted? && !s.filePc.Noted?
  }

  /** Main theorem, over every run in which removals meet a store that lists their path at most once:
      a path that a file operation removed and nothing re-created is, once command and operation have
      finished, live exactly if a load of an index file that still listed it brought it back; and once
      a save has followed a completed scan that recorded it, it is out of the live index, every scan,
      every load in progress and the index file, until somebody re-creates the path or writes it back
      into the index file. */
  lemma RemovedStaysRemoved(start: State, run: seq<Label>, s: State)
    requires Initial(start) && IsUnrepeatedRun(start, run, s)
    ensures forall g :: g in s.hist.gone ==> g !in s.disk
    ensures Finished(s) ==> forall g :: g in s.hist.gone ==> (g in s.live <==> g in s.hist.revived)
    ensures forall g :: g in s.hist.settled ==> SettledOk(s, g)
  {
    InitialRemoval(start);
    RunRemoval(start, run, s);
    hide Initial, IsUnrepeatedRun, SettledOk, FinalOk;
    forall g | g in s.hist.gone ensures g !in s.disk {
      assert GoneOk(s, g);
    }
    if Finished(s) {
      forall g | g in s.hist.gone ensures g in s.live <==> g in s.hist.revived {
        assert GoneOk(s, g);
      }
    }
  }

  predicate Loads(a: Label) {
    a.Install? || a.InstallReload?
  }

  lemma RevivedOnlyByLoads(s: State, a: Label)
    requires Enabled(s, a) && !Loads(a)
    ensures Apply(s, a).hist.revived <= s.hist.revived
  {
    hide Apply, Enabled, Loads;
    if ByRequester(a) {
      RequesterFrame(s, a);
    } else if ByFiles(a) {
      FilesRevive(s, a);
    } else {
      WorkerRevives(s, a);
    }
  }

  lemma FilesRevive(s: State, a: Label)
    requires Enabled(s, a) && ByFiles(a)
    ensures Apply(s, a).hist.revived <= s.hist.revived
  {
    hide Scope, Without, DropFirst, ApplyWorker, ApplyRequest;
  }

  lemma WorkerRevives(s: State, a: Label)
    requires Enabled(s, a) && ByWorker(a) && !Loads(a)
    ensures Apply(s, a).hist.revived <= s.hist.revived
  {
    hide Scope, DiffOf, NeedsScanOfAll, DropFirst, NotUnder, ApplyFiles, ApplyRequest, Decided, ScanEnded, Elements;
    if a.Decide? || a.EndScan? {
      DecidedFrame(s, a);
    }
  }

  lemma {:induction false} RunRevives(s: State, run: seq<Label>, s': State)
    requires IsUnrepeatedRun(s, run, s') && forall i :: 0 <= i < |run| ==> !Loads(run[i])
    ensures s'.hist.revived <= s.hist.revived
    decreases |run|
  {
    hide Apply, Enabled, Unrepeated, Loads;
    if run != [] {
      RevivedOnlyByLoads(s, run[0]);
      RunRevives(Apply(s, run[0]), run[1..], s');
    }
  }

  /** In particular, in an orderly run that installs no load the index is duplicate-free throughout and
      no removed path is live once command and operation have finished. */
  lemma OrderlyRemovals(start: State, run: seq<Label>, s: State)
    requires Initial(start) && IsOrderlyRun(start, run, s)
    ensures NoDuplicates(s.live) && IsUnrepeatedRun(start, run, s)
    ensures (forall i :: 0 <= i < |run| ==> !Loads(run[i])) && Finished(s) ==>
      forall g :: g in s.hist.gone ==> g !in s.live
  {
    hide Initial, IsOrderlyRun, IsUnrepeatedRun, Loads, Finished, TokensOk, Queued, DataOk, SettledOk;
    InitialOrderly(start);
    OrderlyIsUnrepeated(start, run, s);
    RemovedStaysRemoved(start, run, s);
    if forall i :: 0 <= i < |run| ==> !Loads(run[i]) {
      RunRevives(start, run, s);
      InitiallyNothingRevived(start);
    }
  }

  lemma InitiallyNothingRevived(s: State)
    requires Initial(s)
    ensures s.hist.revived == {}
  {
  }

  /** When the save after a completed scan succeeds, the image it wrote holds no removal recorded
      while the scan was running, and those removals are settled. */
  lemma FinalSaveIsClean(start: State, run: seq<Label>, s: State)
    requires Initial(start) && IsUnrepeatedRun(start, run, s)
    requires Enabled(s, Write(true)) && s.pc.save.Final?
    ensures var s' := Apply(s, Write(true));
      && s'.file == Some(s.pc.image)
      && (forall g :: g in s.pc.save.recorded ==> g !in s'.file.value && g !in s'.live)
      && (forall g :: g in s.pc.save.recorded && g in s.hist.gone ==> g in s'.hist.settled)
  {
    InitialRemoval(start);
    RunRemoval(start, run, s);
    hide Initial, IsUnrepeatedRun, GoneOk, SettledOk, RevivedOk;
  }

  // ----- Outside scans a removal is not saved -----

  lemma RunThen(s: State, a: Label, run: seq<Label>, s': State)
    requires Enabled(s, a) && IsRun(Apply(s, a), run, s')
    ensures IsRun(s, [a] + run, s')
  {
    hide Apply, Enabled;
    assert ([a] + run)[1..] == run;
  }

  /** The three steps of a removal. */
  lemma RemovalSteps(s: State)
    requires s.filePc.Operating? && s.filePc.at < |s.filePc.job|
    ensures var job, at := s.filePc.job, s.filePc.at;
      var done := Altered(s, Without(s.disk, job[at]), {job[at]}, false);
      Enabled(s, Operate(true)) && Apply(s, Operate(true)) == done.(filePc := Deleted(job, at))
  {
    hide Altered, Without;
  }

  lemma NoteStep(s: State)
    requires s.filePc.Deleted? && s.filePc.at < |s.filePc.job|
    ensures Enabled(s, Note)
    ensures Apply(s, Note)
      == s.(locked := Recorded(s.locked, s.filePc.job[s.filePc.at]), filePc := Noted(s.filePc.job, s.filePc.at))
  {
  }

  lemma DropStep(s: State)
    requires s.filePc.Noted? && s.filePc.at < |s.filePc.job|
    ensures Enabled(s, Drop)
    ensures Apply(s, Drop)
      == Relisted(s, DropFirst(s.live, s.filePc.job[s.filePc.at])).(filePc := Operating(s.filePc.job, s.filePc.at + 1))
  {
  }

  /** Removing a file while the worker is idle. */
  lemma IdleRemoval(s: State) returns (run: seq<Label>, s': State)
    requires s.pc.Waiting? && !s.locked.scanRunning && s.filePc.Operating? && s.filePc.at < |s.filePc.job|
    ensures var g := s.filePc.job[s.filePc.at];
      && IsRun(s, run, s') && s'.pc.Waiting? && s'.filePc == Operating(s.filePc.job, s.filePc.at + 1)
      && s'.locked == s.locked && s'.pending == s.pending && s'.file == s.file
      && g in s'.hist.gone && g !in s'.disk && s'.disk == Without(s.disk, g) && s'.live == DropFirst(s.live, g)
  {
    hide Scope, Apply, Enabled, DropFirst, Without;
    WithoutIt(s.disk, s.filePc.job[s.filePc.at]);
    RemovalSteps(s);
    var s1 := Apply(s, Operate(true));
    NoteStep(s1);
    var s2 := Apply(s1, Note);
    DropStep(s2);
    s' := Apply(s2, Drop);
    RunThen(s2, Drop, [], s');
    var r2 := [Drop] + [];
    RunThen(s1, Note, r2, s');
    var r1 := [Note] + r2;
    RunThen(s, Operate(true), r1, s');
    run := [Operate(true)] + r1;
  }

  lemma WithoutIt(disk: Disk, g: Path)
    ensures g !in Without(disk, g)
  {
  }

  lemma RequestReloadStep(s: State)
    requires !s.locked.shuttingDown && s.pending == [] && !s.locked.reloadQueued && s.locked.commands == []
    ensures Apply(s, RequestReload)
      == s.(locked := s.locked.(reloadQueued := true), hist := s.hist.(loadOwed := true), pending := [Reload])
    ensures var s1 := Apply(s, RequestReload);
      Enabled(s1, Enqueue(0)) && Apply(s1, Enqueue(0)) == s1.(locked := s1.locked.(commands := [Reload]), pending := [])
  {
    hide ApplyFiles, ApplyWorker;
  }

  lemma TakeReloadStep(s: State)
    requires s.pc.Waiting? && !s.locked.shuttingDown && s.locked.commands == [Reload]
    ensures Enabled(s, Take) && Apply(s, Take) == s.(locked := s.locked.(commands := []), pc := Got(Reload))
  {
    hide ApplyFiles, ApplyRequest;
  }

  lemma LoadSteps(s: State)
    requires s.pc == Got(Reload) && s.file.Some?
    ensures Enabled(s, ClearReload)
    ensures Apply(s, ClearReload) == s.(locked := s.locked.(reloadQueued := false), pc := Loading)
    ensures var s1 := Apply(s, ClearReload);
      && Enabled(s1, LoadFile(true))
      && Apply(s1, LoadFile(true))
          == s1.(pc := Reloading(s.file.value), hist := s1.hist.(loadOwed := false, disturbed := true))
  {
    hide ApplyFiles, ApplyRequest;
  }

  lemma InstallStep(s: State)
    requires s.pc.Reloading?
    ensures Enabled(s, InstallReload) && Apply(s, InstallReload) == Installed(s, s.pc.rows).(pc := Waiting)
  {
  }

  /** One reload, from request to install. */
  lemma IdleReload(s: State) returns (run: seq<Label>, s': State)
    requires s.pc.Waiting? && !s.locked.shuttingDown && s.locked.commands == [] && s.pending == []
    requires !s.locked.reloadQueued && s.file.Some?
    ensures IsRun(s, run, s') && s'.pc.Waiting? && s'.live == s.file.value
    ensures s'.filePc == s.filePc && s'.disk == s.disk && s'.hist.gone == s.hist.gone
    ensures s'.locked == s.locked && s'.pending == []
  {
    assert Enabled(s, RequestReload);
    hide Apply, Enabled;
    RequestReloadStep(s);
    var s1 := Apply(s, RequestReload);
    var s2 := Apply(s1, Enqueue(0));
    TakeReloadStep(s2);
    var s3 := Apply(s2, Take);
    LoadSteps(s3);
    var s4 := Apply(s3, ClearReload);
    var s5 := Apply(s4, LoadFile(true));
    InstallStep(s5);
    s' := Apply(s5, InstallReload);
    RunThen(s5, InstallReload, [], s');
    var r5 := [InstallReload] + [];
    RunThen(s4, LoadFile(true), r5, s');
    var r4 := [LoadFile(true)] + r5;
    RunThen(s3, ClearReload, r4, s');
    var r3 := [ClearReload] + r4;
    RunThen(s2, Take, r3, s');
    var r2 := [Take] + r3;
    RunThen(s1, Enqueue(0), r2, s');
    var r1 := [Enqueue(0)] + r2;
    RunThen(s, RequestReload, r1, s');
    run := [RequestReload] + r1;
  }

  /** A removal made while no scan is running leaves the index file as it was, so a reload afterwards
      brings the removed path back, to stay, exactly when the file listed it. */
  lemma ReloadRevives(s: State) returns (run: seq<Label>, s': State, g: Path)
    requires s.pc.Waiting? && !s.locked.shuttingDown && s.locked.commands == [] && s.pending == []
    requires !s.locked.reloadQueued && !s.locked.scanRunning
    requires s.filePc.Operating? && s.filePc.at < |s.filePc.job|
    requires s.file.Some?
    ensures g == s.filePc.job[s.filePc.at] && IsRun(s, run, s') && Finished(s')
    ensures g in s'.hist.gone && g !in s'.disk
    ensures g in s'.live <==> g in s.file.value
  {
    hide IsRun;
    g := s.filePc.job[s.filePc.at];
    var first, middle := IdleRemoval(s);
    var second, last := IdleReload(middle);
    s' := last;
    run := first + second;
    RunAppend(s, first, middle, second, last);
  }

  lemma {:induction false} RunAppend(s: State, first: seq<Label>, middle: State, second: seq<Label>, last: State)
    requires IsRun(s, first, middle) && IsRun(middle, second, last)
    ensures IsRun(s, first + second, last)
    decreases |first|
  {
    hide Apply, Enabled;
    if first == [] {
      assert first + second == second;
    } else {
      RunAppend(Apply(s, first[0]), first[1..], middle, second, last);
      assert (first + second)[1..] == first[1..] + second;
    }
  }
}
