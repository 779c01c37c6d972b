/** The index-work protocol of src/core/indexer/IndexService.cpp as a step system: requesters, one
    command worker, one file-operations thread and the file system around them. Every critical
    section, file access, scanner observation and store operation is one step. */
module ServiceModel {
  import opened Common
  import opened PathUtils
  import opened WalkTree
  import opened IndexStores
  import opened IndexServices

  // ----- What a scan emits -----

  type Disk = map<Path, Node>

  /** The roots an index covers, each with the exclusions it was scanned with. */
  type Cover = map<Path, seq<Path>>

  function CoverOf(o: ScanOptions): (cover: Cover)
    ensures cover.Keys == Elements(o.roots)
  {
    map r | r in o.roots :: o.excluded
  }

  function TreeOf(disk: Disk, excluded: seq<Path>): Tree {
    Tree(disk, excluded, [])
  }

  /** What one root contributes to a scan with these exclusions. */
  predicate FromRoot(disk: Disk, excluded: seq<Path>, r: Path, p: Path) {
    var t := TreeOf(disk, excluded);
    Passes(t, r) && if disk[r].kind == Dir then Below(t, r, p) else p == r
  }

  /** What scans of these roots, each with its exclusions, emit on an unchanging disk. */
  ghost function Scope(disk: Disk, cover: Cover): set<Path> {
    set p | p in disk && exists r :: r in cover && FromRoot(disk, cover[r], r, p)
  }

  lemma {:induction false} BelowSameTree(t: Tree, u: Tree, r: Path, p: Path)
    requires t.fs == u.fs && t.excluded == u.excluded && r in t.fs
    ensures Below(t, r, p) <==> Below(u, r, p)
    decreases |p|
  {
    if HasParent(p) {
      BelowSameTree(t, u, r, ParentOf(p));
    }
  }

  /** Scope is exactly what the parallel walk is proved to emit for these options. */
  lemma ScopeIsInScan(disk: Disk, o: ScanOptions, p: Path)
    ensures p in Scope(disk, CoverOf(o)) <==> InScan(Tree(disk, o.excluded, o.roots), p)
  {
    var t, u := Tree(disk, o.excluded, o.roots), TreeOf(disk, o.excluded);
    assert forall q :: Passes(t, q) <==> Passes(u, q);
    forall r | r in disk ensures Below(t, r, p) <==> Below(u, r, p) {
      BelowSameTree(t, u, r, p);
    }
    hide Passes;
    if p in Scope(disk, CoverOf(o)) {
      var r :| r in CoverOf(o) && FromRoot(disk, o.excluded, r, p);
      assert IsRootDir(t, r) || IsRootFile(t, r) by {
        RootKinds(disk, o.excluded, r);
      }
    }
    if IsRootFile(t, p) {
      assert p in CoverOf(o) && FromRoot(disk, o.excluded, p, p);
    } else if InScan(t, p) {
      var r :| IsRootDir(t, r) && Below(t, r, p);
      BelowOnDisk(t, r, p);
      assert r in CoverOf(o) && FromRoot(disk, o.excluded, r, p);
    }
  }

  lemma RootKinds(disk: Disk, excluded: seq<Path>, r: Path)
    requires Passes(TreeOf(disk, excluded), r)
    ensures r in disk && (disk[r].kind == Dir || disk[r].kind == File)
  {
  }

  lemma BelowOnDisk(t: Tree, r: Path, p: Path)
    requires r in t.fs && Below(t, r, p)
    ensures p in t.fs
  {
  }

  // ----- The state -----

  /** A scan in progress: what the walk has seen, what of it has not reached the store yet, and
      whether anything but a file operation changed the disk meanwhile. */
  datatype ScanJob = ScanJob(options: ScanOptions, observed: set<Path>, inHand: set<Path>, changed: bool)

  /** The save at the end of a command's own work, or the one after removals were applied again. */
  datatype Save = Main | Final(recorded: seq<Path>)

  datatype Pc =
    | Waiting
    | Got(c: Command)
    | Entered(c: Command)
    | Deciding(c: Command)
    | Scanning(c: Command, full: bool, job: ScanJob)
    | Complete(c: Command)
    | Removing(c: Command, removed: nat)
    | Saving(c: Command, save: Save)
    | Writing(c: Command, save: Save, image: seq<Path>)
    | Installing(c: Command, rows: seq<Path>)
    | Finishing(c: Command, completed: bool)
    | Reapplying(c: Command, completed: bool, recorded: seq<Path>, applied: nat)
    | Concluding(c: Command, completed: bool)
    | Releasing(c: Command)
    | Reporting(remaining: int)
    | Loading
    | Reloading(rows: seq<Path>)
    | Gone

  datatype FilePc =
    | FileIdle
    | Operating(job: FileJob, at: nat)
    | Deleted(job: FileJob, at: nat)
    | Noted(job: FileJob, at: nat)
    | FileGone

  /** The last request that got as far as deciding what to do: whether it replaces everything, by a
      scan or a load, the live paths it started from, and what these covered. */
  datatype Base = Base(c: Command, full: bool, before: set<Path>, held: Cover)

  /** Histories: no step reads them but to extend them. `current` is the last dequeued
      request and `latest` the last accepted one; `gone` are the paths a file operation removed and
      nothing re-created, `vanished` all that were on the disk once and are not any more, `settled`
      those of `gone` that were re-applied to a completed scan whose final save succeeded and that
      nobody else wrote back into the index file since, `revived` the removed paths an installed load
      still listed, as long as they are live. `disturbed` says that something other than a file
      operation changed the disk, or that a load of the index file was begun. */
  datatype History = History(
    busyLog: seq<bool>, loadOwed: bool, accepted: seq<FileJob>, executed: seq<FileJob>,
    gone: set<Path>, vanished: set<Path>, settled: set<Path>, current: Option<Command>, latest: Option<Command>,
    base: Option<Base>, revived: set<Path>, disturbed: bool)

  /** `pending` are the commands of accepted requests whose Enqueue has not run yet. `live` and
      `staging` are the store's live paths, `file` the index file's. */
  datatype State = State(
    locked: Locked, pending: seq<Command>, pc: Pc, needsFullRebuild: bool, busyReported: bool,
    live: seq<Path>, staging: seq<Path>, file: Option<seq<Path>>, disk: Disk,
    queue: FileQueue, filePc: FilePc, hist: History)

  ghost predicate Initial(s: State) {
    && s.locked == Locked([], [], false, false, 0, [], false, {}, 0)
    && s.pending == [] && s.pc == Waiting && !s.needsFullRebuild && !s.busyReported
    && s.live == [] && s.staging == [] && s.queue == FileQueue([], false) && s.filePc == FileIdle
    && s.hist == History([], false, [], [], {}, {}, {}, None, None, None, {}, false)
  }

  // ----- The steps -----

  datatype Label =
    // requesters
    | Request(command: Command)
    | RequestReload
    | StopLocal
    | Mark
    | Enqueue(i: nat)
    | Submit(fileJob: FileJob)
    | Shutdown
    | StopFiles
    // the command worker
    | Take
    | Exit
    | Enter
    | Start
    | Decide(recent: bool)
    | Observe(p: Path)
    | Emit(p: Path)
    | EndScan
    | Swap
    | RemoveRoot
    | Serialize
    | Write(ok: bool) // ok: the file is replaced; what the save reports is ignored
    | Install
    | Finish
    | Reapply
    | Conclude
    | Release
    | Report
    | ClearReload
    | LoadFile(ok: bool)
    | InstallReload
    | Skip
    // the file-operations thread
    | TakeJob
    | ExitFiles
    | Operate(ok: bool)
    | Note
    | Drop
    | FinishJob
    // the file system, and whoever else writes the index file
    | DiskChange(newDisk: Disk)
    | FileChange(newFile: Option<seq<Path>>)

  function OptionsOf(c: Command): ScanOptions {
    match c
    case Rebuild(_, options, _) => options
    case Change(_, newOptions, _) => newOptions
    case _ => ScanOptions([], [])
  }

  function RootsOf(c: Command): seq<Path> {
    OptionsOf(c).roots
  }

  function DiffOf(c: Command): RootsDiff {
    if c.Change? then Diff(c.oldRoots, c.newOptions.roots) else RootsDiff([], [])
  }

  /** An incremental add scans the added roots with the request's own exclusions. */
  function AddedOptions(c: Command): ScanOptions {
    OptionsOf(c).(roots := DiffOf(c).added)
  }

  /** What the index covers once the last decided request has done its work: everything under the
      request's exclusions after a full scan, otherwise the kept roots as they were and the added ones
      under the request's exclusions. */
  function Held(base: Option<Base>): Cover {
    if base.None? then map[]
    else
      var b := base.value;
      if b.full then CoverOf(OptionsOf(b.c))
      else (b.held - Elements(DiffOf(b.c).removed)) + CoverOf(AddedOptions(b.c))
  }

  /** StartIndexing rather than the incremental paths. */
  predicate NeedsScanOfAll(s: State, c: Command) {
    c.Rebuild? || s.needsFullRebuild || (DiffOf(c).added != [] && DiffOf(c).removed != [])
  }

  predicate IsCancelled(s: State, c: Command)
    requires IsBusy(c)
  {
    c.token in s.locked.cancelled
  }

  ghost predicate Enabled(s: State, a: Label) {
    match a
    case Request(c) => IsBusy(c) && c.token == s.locked.nextToken
    case RequestReload => true
    case StopLocal => true
    case Mark => true
    case Enqueue(i) => i < |s.pending|
    case Submit(_) => true
    case Shutdown => true
    case StopFiles => s.pc.Gone?
    case Take => s.pc.Waiting? && NextCommand(s.locked).Run?
    case Exit => s.pc.Waiting? && NextCommand(s.locked).Leave?
    case Enter => s.pc.Got? && IsBusy(s.pc.c)
    case Start => s.pc.Entered?
    case Decide(recent) => s.pc.Deciding? && (recent ==> s.pc.c.Rebuild? && !s.pc.c.force && s.file.Some?)
    case Observe(p) =>
      && s.pc.Scanning? && p !in s.pc.job.observed
      && p in s.disk && CoveredBy(p, Elements(s.pc.job.options.roots))
      && (!s.pc.job.changed ==> p in Scope(s.disk, CoverOf(s.pc.job.options)))
    case Emit(p) => s.pc.Scanning? && p in s.pc.job.inHand
    case EndScan =>
      && s.pc.Scanning? && s.pc.job.inHand == {} && IsBusy(s.pc.c)
      && (IsCancelled(s, s.pc.c) || s.pc.job.changed || Scope(s.disk, CoverOf(s.pc.job.options)) <= s.pc.job.observed)
    case Swap => s.pc.Complete?
    case RemoveRoot => s.pc.Removing? && s.pc.removed < |DiffOf(s.pc.c).removed|
    case Serialize => s.pc.Saving? || (s.pc.Removing? && s.pc.removed == |DiffOf(s.pc.c).removed|)
    case Write(_) => s.pc.Writing?
    case Install => s.pc.Installing?
    case Finish => s.pc.Finishing?
    case Reapply => s.pc.Reapplying? && s.pc.applied < |s.pc.recorded|
    case Conclude => (s.pc.Reapplying? && s.pc.applied == |s.pc.recorded|) || s.pc.Concluding?
    case Release => s.pc.Releasing?
    case Report => s.pc.Reporting?
    case ClearReload => s.pc.Got? && s.pc.c.Reload?
    case LoadFile(ok) => s.pc.Loading? && (ok ==> s.file.Some?)
    case InstallReload => s.pc.Reloading?
    case Skip => s.pc.Got? && s.pc.c.Other?
    case TakeJob => s.filePc.FileIdle? && NextJob(s.queue).Run?
    case ExitFiles => s.filePc.FileIdle? && NextJob(s.queue).Leave?
    case Operate(_) => s.filePc.Operating? && s.filePc.at < |s.filePc.job|
    case Note => s.filePc.Deleted? && s.filePc.at < |s.filePc.job|
    case Drop => s.filePc.Noted? && s.filePc.at < |s.filePc.job|
    case FinishJob => s.filePc.Operating? && s.filePc.at == |s.filePc.job|
    case DiskChange(_) => true
    case FileChange(_) => true
  }

  /** A requester's step. */
  ghost function ApplyRequest(s: State, a: Label): State
    requires Enabled(s, a)
  {
    match a
    case Request(c) =>
      if s.locked.shuttingDown then s
      else s.(locked := Registered(s.locked), pending := s.pending + [c], hist := s.hist.(latest := Some(c)))
    case RequestReload =>
      if s.locked.shuttingDown then s
      else s.(locked := ReloadMarked(s.locked), hist := s.hist.(loadOwed := true),
              pending := if s.locked.reloadQueued then s.pending else s.pending + [Reload])
    case StopLocal => s.(locked := ScansCancelled(s.locked), pending := s.pending + [Other])
    case Mark => s.(pending := s.pending + [Other])
    case Enqueue(i) =>
      s.(locked := Enqueued(s.locked, s.pending[i]), pending := s.pending[..i] + s.pending[i + 1..])
    case Submit(job) =>
      s.(queue := JobQueued(s.queue, job),
         hist := if s.queue.stopping then s.hist else s.hist.(accepted := s.hist.accepted + [job]))
    case Shutdown => s.(locked := ShutDown(s.locked))
    case StopFiles => s.(queue := s.queue.(stopping := true))
    case _ => s
  }

  /** FinishScan's section, with what it leaves to re-apply. */
  function Collecting(s: State): Pc
    requires s.pc.Finishing?
  {
    Reapplying(s.pc.c, s.pc.completed, s.locked.removedDuringScan, 0)
  }

  /** After the last re-applied removal: save again if there were any and the scan completed. */
  function AfterReapplying(pc: Pc): Pc
    requires pc.Reapplying?
  {
    if pc.recorded != [] && pc.completed then Saving(pc.c, Final(pc.recorded)) else Concluding(pc.c, pc.completed)
  }

  /** What StartIndexing, IndexPaths or RemovePaths does first. */
  function Decided(s: State, recent: bool): State
    requires s.pc.Deciding? && (recent ==> s.file.Some?)
  {
    var c := s.pc.c;
    var based := s.(hist := s.hist.(base :=
                      Some(Base(c, NeedsScanOfAll(s, c), Elements(s.live), Held(s.hist.base)))));
    if recent then
      based.(pc := Installing(c, s.file.value), hist := based.hist.(disturbed := true))
    else if NeedsScanOfAll(s, c) then
      based.(staging := [], pc := Scanning(c, true, ScanJob(OptionsOf(c), {}, {}, false)))
    else if DiffOf(c).added != [] then
      based.(pc := Scanning(c, false, ScanJob(AddedOptions(c), {}, {}, false)))
    else if DiffOf(c).removed != [] then based.(pc := Removing(c, 0))
    else based.(pc := Finishing(c, true))
  }

  /** The cancel check after a scan. */
  function ScanEnded(s: State): State
    requires s.pc.Scanning? && IsBusy(s.pc.c)
  {
    var pc := s.pc;
    if IsCancelled(s, pc.c) then
      s.(staging := if pc.full then [] else s.staging, pc := Finishing(pc.c, false))
    else s.(pc := if pc.full then Complete(pc.c) else Saving(pc.c, Main))
  }

  /** LoadPool, noting which removed paths it brings back. */
  function Installed(s: State, rows: seq<Path>): State {
    s.(live := rows, hist := s.hist.(revived := Elements(rows) * s.hist.gone))
  }

  /** A step that may take paths out of the live index. */
  function Relisted(s: State, live: seq<Path>): State {
    s.(live := live, hist := s.hist.(revived := s.hist.revived * Elements(live)))
  }

  /** A step of the command worker. */
  ghost function ApplyWorker(s: State, a: Label): State
    requires Enabled(s, a)
  {
    var pc := s.pc;
    match a
    case Take =>
      var c := NextCommand(s.locked).item;
      s.(locked := Taken(s.locked), pc := Got(c),
         hist := if IsBusy(c) then s.hist.(current := Some(c)) else s.hist)
    case Exit => s.(pc := Gone)
    case Enter =>
      if IsCancelled(s, pc.c) then s.(needsFullRebuild := true, pc := Releasing(pc.c))
      else s.(pc := Entered(pc.c), busyReported := true,
              hist := if s.busyReported then s.hist else s.hist.(busyLog := s.hist.busyLog + [true]))
    case Start => s.(locked := s.locked.(scanRunning := true), pc := Deciding(pc.c))
    case Decide(recent) => Decided(s, recent)
    case Observe(p) =>
      s.(pc := pc.(job := pc.job.(observed := pc.job.observed + {p}, inHand := pc.job.inHand + {p})))
    case Emit(p) =>
      var next := pc.(job := pc.job.(inHand := pc.job.inHand - {p}));
      if pc.full then s.(staging := s.staging + [p], pc := next) else s.(live := s.live + [p], pc := next)
    case EndScan => ScanEnded(s)
    case Swap => Relisted(s, s.staging).(staging := [], pc := Saving(pc.c, Main))
    case RemoveRoot =>
      Relisted(s, NotUnder(s.live, DiffOf(pc.c).removed[pc.removed])).(pc := Removing(pc.c, pc.removed + 1))
    case Serialize => s.(pc := Writing(pc.c, if pc.Saving? then pc.save else Main, s.live))
    case Write(ok) =>
      s.(file := if ok then Some(pc.image) else s.file,
         pc := if pc.save.Main? then Finishing(pc.c, true) else Concluding(pc.c, true),
         hist := if ok && pc.save.Final?
                 then s.hist.(settled := s.hist.settled + Elements(pc.save.recorded) * s.hist.gone) else s.hist)
    case Install => Installed(s, pc.rows).(pc := Finishing(pc.c, true))
    case Finish => s.(locked := Collected(s.locked), pc := Collecting(s))
    case Reapply =>
      Relisted(s, DropFirst(s.live, pc.recorded[pc.applied])).(pc := pc.(applied := pc.applied + 1))
    case Conclude =>
      if pc.Reapplying? then s.(pc := AfterReapplying(pc))
      else s.(needsFullRebuild := !pc.completed, pc := Releasing(pc.c))
    case Release =>
      s.(locked := s.locked.(pendingBusy := s.locked.pendingBusy - 1), pc := Reporting(s.locked.pendingBusy - 1))
    case Report =>
      if pc.remaining == 0 && s.busyReported
      then s.(busyReported := false, pc := Waiting, hist := s.hist.(busyLog := s.hist.busyLog + [false]))
      else s.(pc := Waiting)
    case ClearReload => s.(locked := s.locked.(reloadQueued := false), pc := Loading)
    case LoadFile(ok) =>
      s.(pc := if ok then Reloading(s.file.value) else Waiting,
         hist := s.hist.(loadOwed := false, disturbed := ok || s.hist.disturbed))
    case InstallReload => Installed(s, pc.rows).(pc := Waiting)
    case Skip => s.(pc := Waiting)
    case _ => s
  }

  /** The disk changes, at the hands of the file thread or, if foreign, of anyone else; what exists
      again is not gone. */
  ghost function Altered(s: State, disk: Disk, removed: set<Path>, foreign: bool): State {
    s.(disk := disk,
       pc := if s.pc.Scanning? && foreign then s.pc.(job := s.pc.job.(changed := true)) else s.pc,
       hist := s.hist.(gone := (s.hist.gone + removed) - disk.Keys,
                       vanished := (s.hist.vanished + removed + s.disk.Keys) - disk.Keys,
                       settled := s.hist.settled - disk.Keys, revived := s.hist.revived - disk.Keys,
                       disturbed := foreign || s.hist.disturbed))
  }

  function Without(disk: Disk, path: Path): Disk {
    map q | q in disk && !IsUnderOrEqual(q, path) :: disk[q]
  }

  /** A step of the file-operations thread, or a change of the disk or the index file by anyone else. */
  ghost function ApplyFiles(s: State, a: Label): State
    requires Enabled(s, a)
  {
    var pc := s.filePc;
    match a
    case TakeJob => s.(queue := s.queue.(jobs := s.queue.jobs[1..]), filePc := Operating(s.queue.jobs[0], 0))
    case ExitFiles => s.(filePc := FileGone)
    case Operate(ok) =>
      if ok then Altered(s, Without(s.disk, pc.job[pc.at]), {pc.job[pc.at]}, false).(filePc := Deleted(pc.job, pc.at))
      else s.(filePc := Operating(pc.job, pc.at + 1))
    case Note =>
      s.(locked := Recorded(s.locked, pc.job[pc.at]), filePc := Noted(pc.job, pc.at))
    case Drop => Relisted(s, DropFirst(s.live, pc.job[pc.at])).(filePc := Operating(pc.job, pc.at + 1))
    case FinishJob => s.(filePc := FileIdle, hist := s.hist.(executed := s.hist.executed + [pc.job]))
    case DiskChange(disk) => Altered(s, disk, {}, true)
    case FileChange(file) =>
      s.(file := file,
         hist := s.hist.(settled := set g | g in s.hist.settled && (file.None? || g !in file.value)))
    case _ => s
  }

  predicate ByRequester(a: Label) {
    a.Request? || a.RequestReload? || a.StopLocal? || a.Mark? || a.Enqueue? || a.Submit? || a.Shutdown? || a.StopFiles?
  }

  predicate ByFiles(a: Label) {
    a.TakeJob? || a.ExitFiles? || a.Operate? || a.Note? || a.Drop? || a.FinishJob? || a.DiskChange? || a.FileChange?
  }

  ghost function Apply(s: State, a: Label): State
    requires Enabled(s, a)
  {
    if ByRequester(a) then ApplyRequest(s, a) else if ByFiles(a) then ApplyFiles(s, a) else ApplyWorker(s, a)
  }

  ghost predicate IsRun(s: State, run: seq<Label>, s': State)
    decreases |run|
  {
    if run == [] then s' == s
    else Enabled(s, run[0]) && IsRun(Apply(s, run[0]), run[1..], s')
  }
}
