/** What every run of the index-work protocol keeps of its queues: cancel tokens, busy reports,
    reload coalescing and the file-operation jobs. No assumption on who requests what, or when. */
module ServiceQueue {
  import opened Common
  import opened IndexServices
  import opened IndexStores
  import opened ServiceModel
  import opened ServiceFrames

  predicate IsReload(c: Command) {
    c.Reload?
  }

  function Count(s: seq<Command>, f: Command -> bool): nat {
    if s == [] then 0 else Count(s[..|s| - 1], f) + (if f(s[|s| - 1]) then 1 else 0)
  }

  lemma CountOne(s: seq<Command>, f: Command -> bool, c: Command)
    ensures Count(s + [c], f) == Count(s, f) + (if f(c) then 1 else 0)
  {
    assert (s + [c])[..|s|] == s;
  }

  lemma {:induction false} CountAppend(s: seq<Command>, t: seq<Command>, f: Command -> bool)
    ensures Count(s + t, f) == Count(s, f) + Count(t, f)
  {
    if t == [] {
      assert s + t == s;
    } else {
      CountAppend(s, t[..|t| - 1], f);
      assert s + t == (s + t[..|t| - 1]) + [t[|t| - 1]];
      CountOne(s + t[..|t| - 1], f, t[|t| - 1]);
    }
  }

  lemma CountSplit(s: seq<Command>, f: Command -> bool, i: nat)
    requires i < |s|
    ensures Count(s, f) == Count(s[..i] + s[i + 1..], f) + (if f(s[i]) then 1 else 0)
  {
    hide Count;
    var before, one, after := s[..i], [s[i]], s[i + 1..];
    assert s[i..] == one + after && s == before + s[i..] && [] + one == one;
    CountAppend(before, s[i..], f);
    CountAppend(one, after, f);
    CountAppend(before, after, f);
    CountOne([], f, s[i]);
    CountNone(f);
  }

  lemma CountNone(f: Command -> bool)
    ensures Count([], f) == 0
  {
  }

  // ----- Cancel tokens -----

  ghost predicate TokensOk(l: Locked) {
    && (forall t :: t in l.cancelled ==> t < l.nextToken)
    && (l.scanCancels == [] || (l.nextToken > 0 && l.scanCancels == [l.nextToken - 1]))
    && (forall t: nat :: t < l.nextToken && t !in l.cancelled ==> l.scanCancels == [t])
  }

  lemma StepTokens(s: State, a: Label)
    requires TokensOk(s.locked) && Enabled(s, a)
    ensures TokensOk(Apply(s, a).locked)
    ensures s.locked.cancelled <= Apply(s, a).locked.cancelled
  {
    hide Apply, Enabled;
    StepFrame(s, a);
    var l := s.locked;
    if l.scanCancels != [] {
      assert Elements(l.scanCancels) == {l.nextToken - 1};
    }
  }

  /** Stopping local indexing and shutting down leave no scan uncancelled. */
  lemma StopsEveryScan(s: State, a: Label)
    requires TokensOk(s.locked) && Enabled(s, a) && (a.StopLocal? || a.Shutdown?)
    ensures forall t: nat :: t < Apply(s, a).locked.nextToken ==> t in Apply(s, a).locked.cancelled
  {
    hide Apply, Enabled;
    StepFrame(s, a);
    var l := s.locked;
    if l.scanCancels != [] {
      assert Elements(l.scanCancels) == {l.nextToken - 1};
    }
  }

  // ----- Busy reports -----

  function BusyAhead(s: State): nat {
    Waiters(s, IsBusy) + (if Executing(s.pc) then 1 else 0)
  }

  ghost predicate Alternates(log: seq<bool>) {
    forall i :: 0 <= i < |log| ==> log[i] == (i % 2 == 0)
  }

  ghost predicate BusyOk(s: State) {
    && (!s.locked.shuttingDown ==> s.locked.pendingBusy == BusyAhead(s))
    && s.locked.pendingBusy >= BusyAhead(s)
    && (s.pc.Reporting? ==> 0 <= s.pc.remaining <= s.locked.pendingBusy)
    && (s.busyReported && !s.pc.Reporting? ==> s.locked.pendingBusy > 0)
    && Alternates(s.hist.busyLog) && (s.busyReported <==> |s.hist.busyLog| % 2 == 1)
  }

  /** A rebuild or Settings change that has passed its cancel test and has not ended. */
  predicate Working(pc: Pc) {
    match pc
    case Got(_) => false
    case Releasing(_) => false
    case Waiting => false
    case Reporting(_) => false
    case Loading => false
    case Reloading(_) => false
    case Gone => false
    case _ => true
  }

  ghost predicate ShownOk(s: State) {
    Working(s.pc) ==> s.busyReported
  }

  lemma StepShown(s: State, a: Label)
    requires ShownOk(s) && Enabled(s, a)
    ensures ShownOk(Apply(s, a))
  {
    hide Apply, Enabled;
    if ByRequester(a) {
      RequesterFrame(s, a);
    } else if ByFiles(a) {
      FilesShown(s, a);
    } else {
      WorkerShown(s, a);
    }
  }

  lemma FilesShown(s: State, a: Label)
    requires ShownOk(s) && Enabled(s, a) && ByFiles(a)
    ensures ShownOk(Apply(s, a))
  {
    FilesFrame(s, a);
    hide Apply, Enabled;
    if ChangesDisk(a) {
      AlteredShown(s, a);
    } else {
      QuietFilesFrame(s, a);
    }
  }

  lemma AlteredShown(s: State, a: Label)
    requires ShownOk(s) && Enabled(s, a) && ChangesDisk(a)
    ensures ShownOk(Apply(s, a))
  {
    AlteringSteps(s, a);
    hide Apply, Enabled, Without;
  }

  lemma WorkerShown(s: State, a: Label)
    requires ShownOk(s) && Enabled(s, a) && ByWorker(a)
    ensures ShownOk(Apply(s, a))
  {
    hide ApplyFiles, ApplyRequest, Scope, NeedsScanOfAll, DiffOf, Elements, DropFirst, NotUnder, Held, AddedOptions;
  }

  /** The service reports idle only when the command that ended was the last one registered. */
  lemma IdleWhenLast(s: State, a: Label)
    requires Enabled(s, a) && s.busyReported && !Apply(s, a).busyReported
    ensures s.pc == Reporting(0) && Apply(s, a).hist.busyLog == s.hist.busyLog + [false]
  {
    hide Apply, Enabled;
    ReportStep(s, a);
    if a.Report? {
      ReportedLast(s);
    }
  }

  lemma ReportedLast(s: State)
    requires Enabled(s, Report) && s.busyReported && !Apply(s, Report).busyReported
    ensures s.pc == Reporting(0) && Apply(s, Report).hist.busyLog == s.hist.busyLog + [false]
  {
    hide ApplyFiles, ApplyRequest;
  }

  function Arriving(s: State, a: Label, f: Command -> bool): nat {
    match a
    case Request(c) => if !s.locked.shuttingDown && f(c) then 1 else 0
    case RequestReload => if !s.locked.shuttingDown && !s.locked.reloadQueued && f(Reload) then 1 else 0
    case StopLocal => if f(Other) then 1 else 0
    case Mark => if f(Other) then 1 else 0
    case _ => 0
  }

  function Leaving(s: State, a: Label, f: Command -> bool): nat {
    match a
    case Enqueue(i) => if s.locked.shuttingDown && i < |s.pending| && f(s.pending[i]) then 1 else 0
    case Shutdown => Count(s.locked.commands, f)
    case Take => if s.locked.commands != [] && f(s.locked.commands[0]) then 1 else 0
    case _ => 0
  }

  function Waiters(s: State, f: Command -> bool): nat {
    Count(s.pending, f) + Count(s.locked.commands, f)
  }

  /** A queued command leaves the queues only by being dequeued or by a shutdown. */
  lemma WaitersStep(s: State, a: Label, f: Command -> bool)
    requires Enabled(s, a)
    ensures Waiters(Apply(s, a), f) == Waiters(s, f) + Arriving(s, a, f) - Leaving(s, a, f)
  {
    hide Apply, Enabled, Count;
    StepFrame(s, a);
    match a
    case Request(c) => CountOne(s.pending, f, c);
    case RequestReload => CountOne(s.pending, f, Reload);
    case StopLocal => CountOne(s.pending, f, Other);
    case Mark => CountOne(s.pending, f, Other);
    case Enqueue(i) =>
      if i < |s.pending| {
        CountSplit(s.pending, f, i);
        CountOne(s.locked.commands, f, s.pending[i]);
      }
    case Take =>
      if s.locked.commands != [] {
        CountSplit(s.locked.commands, f, 0);
        assert s.locked.commands[..0] + s.locked.commands[1..] == s.locked.commands[1..];
      }
    case Shutdown => CountNone(f);
    case _ =>
  }

  lemma StepBusy(s: State, a: Label)
    requires BusyOk(s) && Enabled(s, a)
    ensures BusyOk(Apply(s, a))
  {
    hide Apply, Enabled, Count;
    StepFrame(s, a);
    PhaseStep(s, a);
    ReportStep(s, a);
    WaitersStep(s, a, IsBusy);
    RequestsAreBusy(s, a);
  }

  lemma RequestsAreBusy(s: State, a: Label)
    requires Enabled(s, a)
    ensures a.Request? ==> IsBusy(a.command)
  {
  }

  /** Busy reports alternate, starting with true; and when nothing is queued or running and nobody has
      shut the service down, the last one was false. */
  lemma DrainedNotBusy(s: State)
    requires BusyOk(s) && !s.locked.shuttingDown
    requires s.pc.Waiting? && (forall c :: c in s.pending + s.locked.commands ==> !IsBusy(c))
    ensures s.locked.pendingBusy == 0 && !s.busyReported
    ensures s.hist.busyLog == [] || !s.hist.busyLog[|s.hist.busyLog| - 1]
  {
    NoneCounted(s.pending, IsBusy);
    NoneCounted(s.locked.commands, IsBusy);
  }

  lemma {:induction false} NoneCounted(s: seq<Command>, f: Command -> bool)
    ensures Count(s, f) == 0 <==> forall c :: c in s ==> !f(c)
  {
    if s != [] {
      NoneCounted(s[..|s| - 1], f);
      assert s == s[..|s| - 1] + [s[|s| - 1]];
    }
  }

  // ----- Reload coalescing -----

  function ReloadsAhead(s: State): nat {
    Waiters(s, IsReload) + (if HoldsReload(s.pc) then 1 else 0)
  }

  ghost predicate ReloadOk(s: State) {
    && (!s.locked.shuttingDown ==> ReloadsAhead(s) == if s.locked.reloadQueued then 1 else 0)
    && ReloadsAhead(s) <= (if s.locked.reloadQueued then 1 else 0)
    && (s.hist.loadOwed && !s.locked.shuttingDown ==> s.locked.reloadQueued || s.pc.Loading?)
  }

  lemma StepReload(s: State, a: Label)
    requires ReloadOk(s) && Enabled(s, a)
    ensures ReloadOk(Apply(s, a))
  {
    hide Apply, Enabled, Count;
    StepFrame(s, a);
    PhaseStep(s, a);
    HistoryStep(s, a);
    WaitersStep(s, a, IsReload);
    RequestsAreBusy(s, a);
  }

  /** At most one reload is queued and not started; and once the queue has drained without a
      shutdown, every accepted reload request has been followed by a load that began after it. */
  lemma ReloadsServed(s: State)
    requires ReloadOk(s)
    ensures Count(s.pending + s.locked.commands, IsReload) <= 1
    ensures !s.locked.shuttingDown && s.pc.Waiting? && (forall c :: c in s.pending + s.locked.commands ==> !IsReload(c))
      ==> !s.hist.loadOwed
  {
    CountAppend(s.pending, s.locked.commands, IsReload);
    NoneCounted(s.pending, IsReload);
    NoneCounted(s.locked.commands, IsReload);
  }

  // ----- File-operation jobs -----

  function CurrentJob(pc: FilePc): seq<FileJob> {
    match pc
    case FileIdle => []
    case FileGone => []
    case Operating(job, _) => [job]
    case Deleted(job, _) => [job]
    case Noted(job, _) => [job]
  }

  ghost predicate FilesOk(s: State) {
    && s.hist.accepted == s.hist.executed + CurrentJob(s.filePc) + s.queue.jobs
    && (s.filePc.FileGone? ==> s.queue == FileQueue([], true))
    && (s.filePc.Operating? ==> s.filePc.at <= |s.filePc.job|)
    && (s.filePc.Deleted? || s.filePc.Noted? ==> s.filePc.at < |s.filePc.job|)
    && (s.queue.stopping ==> s.pc.Gone?)
    && (s.pc.Gone? ==> s.locked.shuttingDown)
  }

  lemma StepFilesRequester(s: State, a: Label)
    requires FilesOk(s) && Enabled(s, a) && ByRequester(a)
    ensures FilesOk(Apply(s, a))
  {
    hide Scope, DiffOf, Without, ApplyWorker, ApplyFiles;
  }

  /** What a step of the file thread does to its job, its queue and the history of jobs. */
  lemma FileJobStep(s: State, a: Label)
    requires Enabled(s, a) && ByFiles(a)
    ensures var s' := Apply(s, a);
      && s'.hist.accepted == s.hist.accepted && s'.queue.stopping == s.queue.stopping
      && s'.pc.Gone? == s.pc.Gone? && s'.locked.shuttingDown == s.locked.shuttingDown
      && s'.hist.executed == (if a.FinishJob? then s.hist.executed + CurrentJob(s.filePc) else s.hist.executed)
      && s'.queue.jobs == (if a.TakeJob? && s.queue.jobs != [] then s.queue.jobs[1..] else s.queue.jobs)
  {
    hide Apply, Enabled;
    if ChangesDisk(a) {
      AlteredJobs(s, a);
    } else {
      QuietFilesFrame(s, a);
      FinishingJob(s, a);
    }
  }

  lemma AlteredJobs(s: State, a: Label)
    requires Enabled(s, a) && ChangesDisk(a)
    ensures var s' := Apply(s, a);
      && s'.hist.accepted == s.hist.accepted && s'.hist.executed == s.hist.executed && s'.queue == s.queue
      && s'.pc.Gone? == s.pc.Gone? && s'.locked == s.locked
  {
    hide Apply, Enabled, Altered, Without, SamePhase;
    AlteringSteps(s, a);
    if a.DiskChange? {
      AlteredIs(s, a.newDisk, {}, true);
    } else {
      var p := s.filePc.job[s.filePc.at];
      AlteredIs(s, Without(s.disk, p), {p}, false);
    }
  }

  lemma FinishingJob(s: State, a: Label)
    requires Enabled(s, a)
    ensures a.FinishJob? ==> s.filePc.Operating?
  {
  }

  lemma FilePcStep(s: State, a: Label)
    requires Enabled(s, a) && ByFiles(a)
    ensures var pc, pc' := s.filePc, Apply(s, a).filePc;
      && (a.TakeJob? ==> pc.FileIdle? && s.queue.jobs != [] && pc' == Operating(s.queue.jobs[0], 0))
      && (a.ExitFiles? ==> pc.FileIdle? && s.queue.jobs == [] && s.queue.stopping && pc'.FileGone?)
      && (a.FinishJob? ==> pc.Operating? && pc'.FileIdle?)
      && (a.Operate? ==> pc.Operating? && pc.at < |pc.job|)
      && (a.Operate? ==> pc' == Deleted(pc.job, pc.at) || pc' == Operating(pc.job, pc.at + 1))
      && (a.Note? ==> pc.Deleted? && pc.at < |pc.job| && pc' == Noted(pc.job, pc.at))
      && (a.Drop? ==> pc.Noted? && pc.at < |pc.job| && pc' == Operating(pc.job, pc.at + 1))
      && (a.DiskChange? || a.FileChange? ==> pc' == pc)
  {
    hide Scope, DiffOf, Without, ApplyWorker, ApplyRequest;
  }

  lemma StepFilesFiles(s: State, a: Label)
    requires FilesOk(s) && Enabled(s, a) && ByFiles(a)
    ensures FilesOk(Apply(s, a))
  {
    hide Apply, Enabled;
    FileJobStep(s, a);
    FilePcStep(s, a);
    if a.TakeJob? {
      assert s.queue.jobs == [s.queue.jobs[0]] + s.queue.jobs[1..];
    }
  }

  lemma DecidingFiles(s: State, a: Label)
    requires FilesOk(s) && Enabled(s, a) && (a.Decide? || a.EndScan?)
    ensures FilesOk(Apply(s, a))
  {
    hide Apply, Enabled, FilesOk;
    DecidingSteps(s, a);
    if a.Decide? {
      DecidedFiles(s, a.recent);
    } else {
      ScanEndedFiles(s);
    }
  }

  lemma DecidedFiles(s: State, recent: bool)
    requires FilesOk(s) && s.pc.Deciding? && (recent ==> s.file.Some?)
    ensures FilesOk(Decided(s, recent))
  {
    hide CurrentJob, NeedsScanOfAll, DiffOf, OptionsOf, AddedOptions, Held, Elements;
  }

  lemma ScanEndedFiles(s: State)
    requires FilesOk(s) && s.pc.Scanning? && IsBusy(s.pc.c)
    ensures FilesOk(ScanEnded(s))
  {
    hide CurrentJob;
  }

  lemma StepFilesWorker(s: State, a: Label)
    requires FilesOk(s) && Enabled(s, a) && !ByFiles(a) && !ByRequester(a)
    ensures FilesOk(Apply(s, a))
  {
    hide Scope, DiffOf, Without, ApplyFiles, ApplyRequest, CurrentJob, NeedsScanOfAll, Decided, ScanEnded, DropFirst,
      NotUnder;
    if a.Decide? || a.EndScan? {
      DecidingFiles(s, a);
    }
  }

  lemma StepFiles(s: State, a: Label)
    requires FilesOk(s) && Enabled(s, a)
    ensures FilesOk(Apply(s, a))
  {
    hide FilesOk, Apply, Enabled;
    if ByRequester(a) {
      StepFilesRequester(s, a);
    } else if ByFiles(a) {
      StepFilesFiles(s, a);
    } else {
      StepFilesWorker(s, a);
    }
  }

  // ----- All runs -----

  ghost predicate QueueInv(s: State) {
    TokensOk(s.locked) && BusyOk(s) && ReloadOk(s) && FilesOk(s) && ShownOk(s)
  }

  lemma {:induction false} RunQueues(s: State, run: seq<Label>, s': State)
    requires QueueInv(s) && IsRun(s, run, s')
    ensures QueueInv(s') && s.locked.cancelled <= s'.locked.cancelled
    decreases |run|
  {
    if run != [] {
      hide TokensOk, BusyOk, ReloadOk, FilesOk, ShownOk, Apply, Enabled;
      StepTokens(s, run[0]);
      StepBusy(s, run[0]);
      StepReload(s, run[0]);
      StepFiles(s, run[0]);
      StepShown(s, run[0]);
      RunQueues(Apply(s, run[0]), run[1..], s');
    }
  }

  lemma BusyShown(s: State)
    requires BusyOk(s) && ShownOk(s)
    ensures Alternates(s.hist.busyLog)
    ensures Working(s.pc) ==> s.hist.busyLog != [] && s.hist.busyLog[|s.hist.busyLog| - 1]
  {
    hide Count;
  }

  lemma InitialQueues(s: State)
    requires Initial(s)
    ensures QueueInv(s)
  {
  }

  /** In every reachable state at most one scan token is uncancelled, at most one reload is waiting,
      busy reports alternate and the last one is true while a command is at work, and
      when everything has drained the service is not busy and owes no load. */
  lemma QueuesAlways(start: State, run: seq<Label>, s: State)
    requires Initial(start) && IsRun(start, run, s)
    ensures forall t: nat, u: nat | t < s.locked.nextToken && u < s.locked.nextToken
      && t !in s.locked.cancelled && u !in s.locked.cancelled :: t == u == s.locked.nextToken - 1
    ensures Working(s.pc) ==> s.hist.busyLog != [] && s.hist.busyLog[|s.hist.busyLog| - 1]
    ensures Alternates(s.hist.busyLog) && Count(s.pending + s.locked.commands, IsReload) <= 1
    ensures !s.locked.shuttingDown && s.pc.Waiting? && s.pending + s.locked.commands == []
      ==> s.locked.pendingBusy == 0 && !s.busyReported && !s.hist.loadOwed
    ensures s.hist.executed <= s.hist.accepted
    ensures s.filePc.FileGone? ==> s.hist.executed == s.hist.accepted && s.queue.stopping
  {
    InitialQueues(start);
    RunQueues(start, run, s);
    BusyShown(s);
    hide Initial, IsRun, Count, ShownOk, Working, Alternates;
    ReloadsServed(s);
    if !s.locked.shuttingDown && s.pc.Waiting? && s.pending + s.locked.commands == [] {
      DrainedNotBusy(s);
    }
  }
}
