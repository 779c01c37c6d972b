/** Which step of the index-work protocol touches what. */
module ServiceFrames {
  import opened Common
  import opened IndexServices
  import opened IndexStores
  import opened ServiceModel

  /** What a step does to the fields under `mutex_`. */
  function LockedAfter(s: State, a: Label): Locked {
    match a
    case Request(_) => Registered(s.locked)
    case RequestReload => ReloadMarked(s.locked)
    case StopLocal => ScansCancelled(s.locked)
    case Enqueue(i) => if i < |s.pending| then Enqueued(s.locked, s.pending[i]) else s.locked
    case Shutdown => ShutDown(s.locked)
    case Take => if s.locked.commands != [] then Taken(s.locked) else s.locked
    case Start => s.locked.(scanRunning := true)
    case Finish => Collected(s.locked)
    case Release => s.locked.(pendingBusy := s.locked.pendingBusy - 1)
    case ClearReload => s.locked.(reloadQueued := false)
    case Note =>
      if s.filePc.Deleted? && s.filePc.at < |s.filePc.job|
      then Recorded(s.locked, s.filePc.job[s.filePc.at]) else s.locked
    case _ => s.locked
  }

  function PendingAfter(s: State, a: Label): seq<Command> {
    match a
    case Request(c) => if s.locked.shuttingDown then s.pending else s.pending + [c]
    case RequestReload => if s.locked.shuttingDown || s.locked.reloadQueued then s.pending else s.pending + [Reload]
    case StopLocal => s.pending + [Other]
    case Mark => s.pending + [Other]
    case Enqueue(i) => if i < |s.pending| then s.pending[..i] + s.pending[i + 1..] else s.pending
    case _ => s.pending
  }

  /** A rebuild or Settings change dequeued and not yet released. */
  predicate Executing(pc: Pc) {
    match pc
    case Got(c) => IsBusy(c)
    case Waiting => false
    case Reporting(_) => false
    case Loading => false
    case Reloading(_) => false
    case Gone => false
    case _ => true
  }

  predicate HoldsReload(pc: Pc) {
    pc.Got? && pc.c.Reload?
  }

  /** The two worker stages have the same part in the queue bookkeeping. */
  predicate SamePhase(pc: Pc, pc': Pc) {
    && Executing(pc') == Executing(pc) && HoldsReload(pc') == HoldsReload(pc) && pc'.Loading? == pc.Loading?
    && pc'.Reporting? == pc.Reporting? && (pc.Reporting? ==> pc' == pc)
  }

  predicate SameReport(s: State, s': State) {
    s'.busyReported == s.busyReported && s'.hist.busyLog == s.hist.busyLog
  }

  /** Something other than a file operation changes the disk, or the index file is loaded. */
  predicate Disturbs(a: Label) {
    a.DiskChange? || a == Decide(true) || a == LoadFile(true)
  }

  predicate ChangesDisk(a: Label) {
    a.DiskChange? || a == Operate(true)
  }

  lemma RequesterFrame(s: State, a: Label)
    requires Enabled(s, a) && ByRequester(a)
    ensures var s' := Apply(s, a);
      && s'.locked == LockedAfter(s, a) && s'.pending == PendingAfter(s, a)
      && s'.pc == s.pc && s'.disk == s.disk && SameReport(s, s') && s'.live == s.live
      && s'.hist.current == s.hist.current && s'.hist.disturbed == s.hist.disturbed
      && s'.hist.base == s.hist.base && s'.hist.revived == s.hist.revived
      && s'.hist.gone == s.hist.gone && s'.hist.vanished == s.hist.vanished
      && s'.hist.loadOwed == ((a.RequestReload? && !s.locked.shuttingDown) || s.hist.loadOwed)
      && s'.hist.latest == (if a.Request? && !s.locked.shuttingDown then Some(a.command) else s.hist.latest)
  {
    hide ApplyWorker, ApplyFiles;
  }

  /** What a change of the disk leaves alone. */
  lemma AlteredIs(s: State, disk: Disk, removed: set<Path>, foreign: bool)
    ensures var s' := Altered(s, disk, removed, foreign);
      && s' == s.(disk := disk, pc := s'.pc, hist := s'.hist)
      && s'.hist
         == s.hist.(gone := s'.hist.gone, vanished := s'.hist.vanished, settled := s'.hist.settled,
                    revived := s'.hist.revived, disturbed := foreign || s.hist.disturbed)
      && SamePhase(s.pc, s'.pc) && s'.pc.Gone? == s.pc.Gone?
  {
  }

  lemma AlteringSteps(s: State, a: Label)
    requires Enabled(s, a)
    ensures a.DiskChange? ==> Apply(s, a) == Altered(s, a.newDisk, {}, true)
    ensures a == Operate(true) ==> s.filePc.Operating? && s.filePc.at < |s.filePc.job|
    ensures a == Operate(true) ==> var p := s.filePc.job[s.filePc.at];
      Apply(s, a) == Altered(s, Without(s.disk, p), {p}, false).(filePc := Deleted(s.filePc.job, s.filePc.at))
  {
    hide ApplyWorker, ApplyRequest, Without, Scope, Altered;
  }

  /** The other steps of the file thread, and foreign writes of the index file. */
  lemma QuietFilesFrame(s: State, a: Label)
    requires Enabled(s, a) && ByFiles(a) && !ChangesDisk(a)
    ensures var s' := Apply(s, a);
      && s' == s.(locked := s'.locked, live := s'.live, file := s'.file, queue := s'.queue, filePc := s'.filePc,
                  hist := s'.hist)
      && s'.hist == s.hist.(executed := s'.hist.executed, settled := s'.hist.settled, revived := s'.hist.revived)
      && s'.locked == LockedAfter(s, a)
      && s'.queue == (if a.TakeJob? && s.queue.jobs != [] then s.queue.(jobs := s.queue.jobs[1..]) else s.queue)
      && s'.hist.executed == (if a.FinishJob? && s.filePc.Operating? then s.hist.executed + [s.filePc.job]
                              else s.hist.executed)
  {
    QuietFilesQueues(s, a);
    hide ApplyWorker, ApplyRequest, Altered, Without, Scope, DropFirst, Elements, LockedAfter;
  }

  lemma QuietFilesQueues(s: State, a: Label)
    requires Enabled(s, a) && ByFiles(a) && !ChangesDisk(a)
    ensures var s' := Apply(s, a);
      && s'.locked == LockedAfter(s, a)
      && s'.queue == (if a.TakeJob? && s.queue.jobs != [] then s.queue.(jobs := s.queue.jobs[1..]) else s.queue)
      && s'.hist.executed == (if a.FinishJob? && s.filePc.Operating? then s.hist.executed + [s.filePc.job]
                              else s.hist.executed)
  {
    hide ApplyWorker, ApplyRequest, Altered, Without, Scope, DropFirst, Elements;
  }

  lemma FilesFrame(s: State, a: Label)
    requires Enabled(s, a) && ByFiles(a)
    ensures var s' := Apply(s, a);
      && s'.locked == LockedAfter(s, a) && s'.pending == s.pending && SamePhase(s.pc, s'.pc) && SameReport(s, s')
      && s'.hist.current == s.hist.current && s'.hist.latest == s.hist.latest && s'.hist.loadOwed == s.hist.loadOwed
      && s'.hist.base == s.hist.base
      && (!ChangesDisk(a) ==> s'.disk == s.disk) && (!Disturbs(a) ==> s'.hist.disturbed == s.hist.disturbed)
  {
    hide Apply, Enabled, Altered, Without, SamePhase;
    PhaseReflexive(s.pc);
    AlteringSteps(s, a);
    if a.DiskChange? {
      AlteredIs(s, a.newDisk, {}, true);
    } else if a == Operate(true) {
      var p := s.filePc.job[s.filePc.at];
      AlteredIs(s, Without(s.disk, p), {p}, false);
    } else {
      QuietFilesFrame(s, a);
    }
  }

  lemma PhaseReflexive(pc: Pc)
    ensures SamePhase(pc, pc)
  {
  }

  predicate ByWorker(a: Label) {
    !ByRequester(a) && !ByFiles(a)
  }

  lemma DecidingSteps(s: State, a: Label)
    requires Enabled(s, a)
    ensures a.Decide? ==> s.pc.Deciding? && (a.recent ==> s.file.Some?) && Apply(s, a) == Decided(s, a.recent)
    ensures a.EndScan? ==> s.pc.Scanning? && IsBusy(s.pc.c) && Apply(s, a) == ScanEnded(s)
  {
    hide ApplyFiles, ApplyRequest, Scope, NeedsScanOfAll, Decided, ScanEnded;
  }

  lemma DecidedIs(s: State, recent: bool)
    requires s.pc.Deciding? && (recent ==> s.file.Some?)
    ensures var s' := Decided(s, recent); var h, h' := s.hist, s'.hist;
      && h' == h.(base := h'.base, disturbed := h'.disturbed)
      && (!recent ==> h'.disturbed == h.disturbed)
      && SameReport(s, s') && SamePhase(s.pc, s'.pc)
      && s'.locked == s.locked && s'.pending == s.pending && s'.disk == s.disk
  {
    hide NeedsScanOfAll, DiffOf, RootsOf, OptionsOf, AddedOptions, Held, Elements;
  }

  lemma ScanEndedIs(s: State)
    requires s.pc.Scanning? && IsBusy(s.pc.c)
    ensures var s' := ScanEnded(s);
      && s'.hist == s.hist && SameReport(s, s') && SamePhase(s.pc, s'.pc)
      && s'.locked == s.locked && s'.pending == s.pending && s'.disk == s.disk
  {
  }

  lemma DecidedFrame(s: State, a: Label)
    requires Enabled(s, a) && (a.Decide? || a.EndScan?)
    ensures var h, h' := s.hist, Apply(s, a).hist;
      && h' == h.(base := h'.base, disturbed := h'.disturbed)
      && (!Disturbs(a) ==> h'.disturbed == h.disturbed)
    ensures var s' := Apply(s, a); SameReport(s, s') && SamePhase(s.pc, s'.pc)
    ensures var s' := Apply(s, a); s'.locked == s.locked && s'.pending == s.pending && s'.disk == s.disk
  {
    hide Apply, Enabled, Decided, ScanEnded, SameReport, SamePhase;
    DecidingSteps(s, a);
    if a.Decide? {
      DecidedIs(s, a.recent);
    } else {
      ScanEndedIs(s);
    }
  }

  lemma WorkerLocked(s: State, a: Label)
    requires Enabled(s, a) && ByWorker(a)
    ensures var s' := Apply(s, a);
      && s'.locked == LockedAfter(s, a) && s'.pending == s.pending && s'.disk == s.disk
      && s'.hist.latest == s.hist.latest && (!Disturbs(a) ==> s'.hist.disturbed == s.hist.disturbed)
      && s'.hist.loadOwed == (!a.LoadFile? && s.hist.loadOwed)
  {
    hide ApplyFiles, ApplyRequest, Scope, NeedsScanOfAll, Decided, ScanEnded;
    if a.Decide? || a.EndScan? {
      hide ApplyWorker;
      DecidedFrame(s, a);
    }
  }

  lemma WorkerDequeues(s: State, a: Label)
    requires Enabled(s, a) && ByWorker(a)
    ensures var s' := Apply(s, a);
      && (a.Take? ==> s.pc.Waiting? && !s.locked.shuttingDown && s.locked.commands != []
                      && s'.pc == Got(s.locked.commands[0]))
      && s'.hist.current == (if a.Take? && s.locked.commands != [] && IsBusy(s.locked.commands[0])
                             then Some(s.locked.commands[0]) else s.hist.current)
  {
    hide ApplyFiles, ApplyRequest, Scope, NeedsScanOfAll, Decided, ScanEnded;
    if a.Decide? || a.EndScan? {
      DecidedFrame(s, a);
    }
  }

  /** The worker's other steps: only releasing, reporting and the steps of a reload change the phase. */
  lemma WorkerPhase(s: State, a: Label)
    requires Enabled(s, a) && ByWorker(a) && !a.Take?
    ensures var s' := Apply(s, a);
      && (a.Release? ==> Executing(s.pc) && s'.pc == Reporting(s.locked.pendingBusy - 1))
      && (a.Report? ==> s.pc.Reporting? && s'.pc.Waiting?)
      && (a.ClearReload? ==> HoldsReload(s.pc) && s'.pc.Loading?)
      && (a.LoadFile? ==> s.pc.Loading? && (s'.pc.Waiting? || s'.pc.Reloading?))
      && (!a.Release? && !a.Report? && !a.ClearReload? && !a.LoadFile? ==> SamePhase(s.pc, s'.pc))
  {
    hide ApplyFiles, ApplyRequest, Scope, NeedsScanOfAll, Decided, ScanEnded;
    hide Elements, DiffOf, NotUnder, DropFirst;
    if a.Decide? || a.EndScan? {
      DecidedFrame(s, a);
    }
  }

  lemma WorkerReports(s: State, a: Label)
    requires Enabled(s, a) && ByWorker(a)
    ensures var s' := Apply(s, a);
      && (a.Enter? ==> Executing(s.pc) && (SameReport(s, s') || (s'.busyReported && s'.hist.busyLog == TrueReported(s))))
      && (a.Report? && s.pc.remaining == 0 && s.busyReported ==>
            !s'.busyReported && s'.hist.busyLog == s.hist.busyLog + [false])
      && (a.Report? && (s.pc.remaining != 0 || !s.busyReported) ==> SameReport(s, s'))
      && (!a.Enter? && !a.Report? ==> SameReport(s, s'))
  {
    hide ApplyFiles, ApplyRequest, Scope, NeedsScanOfAll, Decided, ScanEnded;
    if a.Decide? || a.EndScan? {
      DecidedFrame(s, a);
    }
  }

  function TrueReported(s: State): seq<bool> {
    if s.busyReported then s.hist.busyLog else s.hist.busyLog + [true]
  }

  lemma StepFrame(s: State, a: Label)
    requires Enabled(s, a)
    ensures Apply(s, a).locked == LockedAfter(s, a) && Apply(s, a).pending == PendingAfter(s, a)
  {
    hide Apply, Enabled;
    if ByRequester(a) {
      RequesterFrame(s, a);
    } else if ByFiles(a) {
      FilesFrame(s, a);
    } else {
      WorkerLocked(s, a);
    }
  }

  /** Only dequeuing and releasing change whether a command is executing. */
  lemma PhaseStep(s: State, a: Label)
    requires Enabled(s, a)
    ensures var s' := Apply(s, a);
      && (a.Take? ==> s.pc.Waiting? && !s.locked.shuttingDown && s.locked.commands != []
                      && s'.pc == Got(s.locked.commands[0]))
      && (a.Release? ==> Executing(s.pc) && s'.pc == Reporting(s.locked.pendingBusy - 1))
      && (a.Report? ==> s.pc.Reporting? && s'.pc.Waiting?)
      && (a.ClearReload? ==> HoldsReload(s.pc) && s'.pc.Loading?)
      && (a.LoadFile? ==> s.pc.Loading? && (s'.pc.Waiting? || s'.pc.Reloading?))
      && (!a.Take? && !a.Release? && !a.Report? && !a.ClearReload? && !a.LoadFile? ==> SamePhase(s.pc, s'.pc))
  {
    hide Apply, Enabled, Executing, LockedAfter, PendingAfter;
    if ByRequester(a) {
      RequesterFrame(s, a);
    } else if ByFiles(a) {
      FilesFrame(s, a);
    } else if a.Take? {
      WorkerDequeues(s, a);
    } else {
      WorkerPhase(s, a);
    }
  }

  lemma ReportStep(s: State, a: Label)
    requires Enabled(s, a)
    ensures var s' := Apply(s, a);
      && (a.Enter? ==> Executing(s.pc) && (SameReport(s, s') || (s'.busyReported && s'.hist.busyLog == TrueReported(s))))
      && (a.Report? && s.pc.Reporting? && s.pc.remaining == 0 && s.busyReported ==>
            !s'.busyReported && s'.hist.busyLog == s.hist.busyLog + [false])
      && (a.Report? && s.pc.Reporting? && (s.pc.remaining != 0 || !s.busyReported) ==> SameReport(s, s'))
      && (!a.Enter? && !a.Report? ==> SameReport(s, s'))
  {
    hide Apply, Enabled, Executing;
    if ByRequester(a) {
      RequesterFrame(s, a);
    } else if ByFiles(a) {
      FilesFrame(s, a);
    } else {
      WorkerReports(s, a);
    }
  }

  lemma HistoryStep(s: State, a: Label)
    requires Enabled(s, a)
    ensures var h, h' := s.hist, Apply(s, a).hist;
      && h'.latest == (if a.Request? && !s.locked.shuttingDown then Some(a.command) else h.latest)
      && h'.current == (if a.Take? && s.locked.commands != [] && IsBusy(s.locked.commands[0])
                        then Some(s.locked.commands[0]) else h.current)
      && h'.loadOwed == ((a.RequestReload? && !s.locked.shuttingDown) || (!a.LoadFile? && h.loadOwed))
      && (!Disturbs(a) ==> h'.disturbed == h.disturbed) && (!ChangesDisk(a) ==> Apply(s, a).disk == s.disk)
  {
    hide Apply, Enabled;
    if ByRequester(a) {
      RequesterFrame(s, a);
    } else if ByFiles(a) {
      FilesFrame(s, a);
    } else {
      WorkerLocked(s, a);
      WorkerDequeues(s, a);
    }
  }

  /** Paths leave the disk only where the disk changes. */
  lemma GoneStep(s: State, a: Label)
    requires Enabled(s, a) && !ChangesDisk(a)
    ensures var h, h' := s.hist, Apply(s, a).hist; h'.gone == h.gone && h'.vanished == h.vanished
  {
    hide Apply, Enabled;
    if ByRequester(a) {
      RequesterFrame(s, a);
    } else if ByFiles(a) {
      QuietFilesFrame(s, a);
    } else {
      WorkerGone(s, a);
    }
  }

  lemma WorkerGone(s: State, a: Label)
    requires Enabled(s, a) && ByWorker(a)
    ensures var h, h' := s.hist, Apply(s, a).hist; h'.gone == h.gone && h'.vanished == h.vanished
  {
    hide ApplyFiles, ApplyRequest, Scope, NeedsScanOfAll, Decided, ScanEnded, Elements, DropFirst, NotUnder;
    if a.Decide? || a.EndScan? {
      hide ApplyWorker;
      DecidedFrame(s, a);
    }
  }
}
