/** The shared state of src/core/indexer/IndexService.cpp and its critical sections. Each method of
    the class is one section that the source runs under `mutex_` or `fileOpsMutex_`, except for the
    Request methods, which are the sections of one request one after another; the protocol in which
    the sections of several threads interleave is in ServiceModel. */
module IndexServices {
  import opened Common
  import opened IndexStores
  import opened PathUtils

  /** What one scan is asked to do; the root list is collapsed. */
  datatype ScanOptions = ScanOptions(roots: seq<Path>, excluded: seq<Path>)

  /** A queued command. `token` identifies the shared cancel flag of a request. Other stands for the
      commands that touch nothing modelled here: stopping the monitor and Flush's marker. */
  datatype Command =
    | Rebuild(force: bool, options: ScanOptions, token: nat)
    | Change(oldRoots: seq<Path>, newOptions: ScanOptions, token: nat)
    | Reload
    | Other

  predicate IsBusy(c: Command) {
    c.Rebuild? || c.Change?
  }

  /** The fields guarded by `mutex_`, with the cancel flags as the set of tokens whose flag is true. */
  datatype Locked = Locked(
    commands: seq<Command>, scanCancels: seq<nat>, reloadQueued: bool, shuttingDown: bool,
    pendingBusy: int, removedDuringScan: seq<Path>, scanRunning: bool,
    cancelled: set<nat>, nextToken: nat)

  /** RequestIndexing and RequestSettingsChange: cancel every earlier scan and count the new one. */
  function Registered(l: Locked): Locked {
    if l.shuttingDown then l
    else l.(cancelled := l.cancelled + Elements(l.scanCancels), scanCancels := [l.nextToken],
            pendingBusy := l.pendingBusy + 1, nextToken := l.nextToken + 1)
  }

  function ReloadMarked(l: Locked): Locked {
    if l.reloadQueued || l.shuttingDown then l else l.(reloadQueued := true)
  }

  function ScansCancelled(l: Locked): Locked {
    l.(cancelled := l.cancelled + Elements(l.scanCancels), scanCancels := [])
  }

  function Enqueued(l: Locked, c: Command): Locked {
    if l.shuttingDown then l else l.(commands := l.commands + [c])
  }

  function ShutDown(l: Locked): Locked {
    ScansCancelled(l).(shuttingDown := true, commands := [])
  }

  function Taken(l: Locked): Locked
    requires l.commands != []
  {
    l.(commands := l.commands[1..])
  }

  function Recorded(l: Locked, path: Path): Locked {
    if l.scanRunning then l.(removedDuringScan := l.removedDuringScan + [path]) else l
  }

  function Collected(l: Locked): Locked {
    l.(scanRunning := false, removedDuringScan := [])
  }

  /** A file-operation job: the paths to move to trash or delete, in order. */
  type FileJob = seq<Path>

  datatype FileQueue = FileQueue(jobs: seq<FileJob>, stopping: bool)

  function JobQueued(q: FileQueue, job: FileJob): FileQueue {
    if q.stopping then q else q.(jobs := q.jobs + [job])
  }

  datatype Next<T> = Run(item: T) | Leave | Wait

  function NextCommand(l: Locked): Next<Command> {
    if l.shuttingDown then Leave else if l.commands == [] then Wait else Run(l.commands[0])
  }

  /** A queued job runs even after the stop was requested. */
  function NextJob(q: FileQueue): Next<FileJob> {
    if q.jobs != [] then Run(q.jobs[0]) else if q.stopping then Leave else Wait
  }

  class IndexService {
    var commands: seq<Command>
    var scanCancels: seq<nat>
    var reloadQueued: bool
    var shuttingDown: bool
    var pendingBusy: int
    var removedDuringScan: seq<Path>
    var scanRunning: bool
    var cancelled: set<nat>
    var nextToken: nat
    var fileOpJobs: seq<FileJob>
    var fileOpsStopping: bool

    ghost function State(): Locked
      reads this
    {
      Locked(commands, scanCancels, reloadQueued, shuttingDown, pendingBusy, removedDuringScan,
             scanRunning, cancelled, nextToken)
    }

    ghost function Jobs(): FileQueue
      reads this
    {
      FileQueue(fileOpJobs, fileOpsStopping)
    }

    constructor ()
      ensures State() == Locked([], [], false, false, 0, [], false, {}, 0) && Jobs() == FileQueue([], false)
    {
      commands, scanCancels, reloadQueued, shuttingDown, pendingBusy := [], [], false, false, 0;
      removedDuringScan, scanRunning, cancelled, nextToken := [], false, {}, 0;
      fileOpJobs, fileOpsStopping := [], false;
    }

    method CancelAll()
      modifies this`cancelled
      ensures cancelled == old(cancelled) + Elements(scanCancels)
    {
      for i := 0 to |scanCancels|
        invariant cancelled == old(cancelled) + Elements(scanCancels[..i])
      {
        cancelled := cancelled + {scanCancels[i]};
      }
      assert scanCancels[..|scanCancels|] == scanCancels;
    }

    /** The first section of RequestIndexing and RequestSettingsChange; the token is the caller's if
        the request is accepted. */
    method RegisterScan() returns (token: Option<nat>)
      modifies this
      ensures State() == Registered(old(State())) && Jobs() == old(Jobs())
      ensures token == if old(shuttingDown) then None else Some(old(nextToken))
      ensures token.Some? ==> old(cancelled) + Elements(old(scanCancels)) == cancelled && scanCancels == [token.value]
      ensures pendingBusy == old(pendingBusy) + if token.Some? then 1 else 0
    {
      if shuttingDown {
        return None;
      }
      CancelAll();
      scanCancels := [nextToken];
      pendingBusy := pendingBusy + 1;
      token := Some(nextToken);
      nextToken := nextToken + 1;
    }

    method MarkReload() returns (accepted: bool)
      modifies this`reloadQueued
      ensures State() == ReloadMarked(old(State()))
      ensures accepted <==> !old(reloadQueued) && !old(shuttingDown)
    {
      if reloadQueued || shuttingDown {
        return false;
      }
      reloadQueued := true;
      return true;
    }

    method CancelScans()
      modifies this
      ensures State() == ScansCancelled(old(State())) && Jobs() == old(Jobs())
      ensures cancelled == old(cancelled) + Elements(old(scanCancels)) && scanCancels == []
    {
      CancelAll();
      scanCancels := [];
    }

    method Enqueue(command: Command) returns (accepted: bool)
      modifies this`commands
      ensures State() == Enqueued(old(State()), command) && accepted == !shuttingDown
      ensures commands == old(commands) + if accepted then [command] else []
    {
      if shuttingDown {
        return false;
      }
      commands := commands + [command];
      return true;
    }

    method BeginShutdown()
      modifies this
      ensures State() == ShutDown(old(State())) && Jobs() == old(Jobs())
      ensures shuttingDown && commands == [] && scanCancels == []
      ensures cancelled == old(cancelled) + Elements(old(scanCancels))
    {
      shuttingDown := true;
      CancelAll();
      scanCancels := [];
      commands := [];
    }

    /** The wait and pop of WorkerLoop. */
    method NextForWorker() returns (next: Next<Command>)
      modifies this`commands
      ensures next == NextCommand(old(State()))
      ensures State() == if next.Run? then Taken(old(State())) else old(State())
      ensures next.Leave? <==> shuttingDown
      ensures next.Run? <==> !shuttingDown && old(commands) != []
      ensures next.Run? ==> [next.item] + commands == old(commands)
    {
      if shuttingDown {
        return Leave;
      }
      if commands == [] {
        return Wait;
      }
      next := Run(commands[0]);
      commands := commands[1..];
    }

    /** The section of a file operation that has succeeded. */
    method RecordRemoval(path: Path)
      modifies this`removedDuringScan
      ensures State() == Recorded(old(State()), path)
      ensures removedDuringScan == old(removedDuringScan) + if scanRunning then [path] else []
    {
      if scanRunning {
        removedDuringScan := removedDuringScan + [path];
      }
    }

    method EndBusySection() returns (remaining: int)
      modifies this`pendingBusy
      ensures State() == old(State()).(pendingBusy := old(pendingBusy) - 1) && remaining == pendingBusy
    {
      pendingBusy := pendingBusy - 1;
      return pendingBusy;
    }

    /** FinishScan: what was removed while the scan ran is removed again from what it swapped in. */
    method FinishScan(store: IndexStore) returns (any: bool)
      requires store.Valid() && this as object != store && this as object != store.pool
      modifies this, store.pool
      ensures State() == Collected(old(State())) && Jobs() == old(Jobs())
      ensures store.Valid() && store.pool == old(store.pool) && store.stagingPool == old(store.stagingPool)
      ensures any <==> old(removedDuringScan) != []
      ensures store.LivePaths() == DropEach(old(store.LivePaths()), old(removedDuringScan), |old(removedDuringScan)|)
      ensures !scanRunning && removedDuringScan == []
      ensures forall p ::
        Copies(store.LivePaths(), p) == LeftOver(Copies(old(store.LivePaths()), p), Copies(old(removedDuringScan), p))
      ensures NoDuplicates(old(store.LivePaths())) ==>
        && NoDuplicates(store.LivePaths())
        && forall p :: p in store.LivePaths() <==> p in old(store.LivePaths()) && p !in old(removedDuringScan)
    {
      ghost var before := store.LivePaths();
      scanRunning := false;
      var removed := removedDuringScan;
      removedDuringScan := [];
      for n := 0 to |removed|
        invariant State() == Collected(old(State())) && Jobs() == old(Jobs())
        invariant store.Valid()
        invariant store.LivePaths() == DropEach(old(store.LivePaths()), removed, n)
      {
        store.ApplyRemove(removed[n]);
      }
      DropEachAll(before, removed);
      DropEachUnique(before, removed);
      return removed != [];
    }

    // ----- The requests, with no other thread between their sections -----

    /** An accepted request cancels every request before it and queues a command whose token is new
        and is the only one not cancelled. */
    method RequestIndexing(force: bool, options: ScanOptions) returns (token: Option<nat>)
      modifies this
      ensures token == (if old(shuttingDown) then None else Some(old(nextToken)))
      ensures State() == if token.None? then old(State())
        else Enqueued(Registered(old(State())), Rebuild(force, options, token.value))
      ensures Jobs() == old(Jobs())
    {
      token := RegisterScan();
      if token.Some? {
        var _ := Enqueue(Rebuild(force, options, token.value));
      }
    }

    method RequestSettingsChange(oldRoots: seq<Path>, newOptions: ScanOptions) returns (token: Option<nat>)
      modifies this
      ensures token == (if old(shuttingDown) then None else Some(old(nextToken)))
      ensures State() == if token.None? then old(State())
        else Enqueued(Registered(old(State())), Change(oldRoots, newOptions, token.value))
      ensures Jobs() == old(Jobs())
    {
      token := RegisterScan();
      if token.Some? {
        var _ := Enqueue(Change(oldRoots, newOptions, token.value));
      }
    }

    /** Requesting a reload while one is queued changes nothing. */
    method RequestReload() returns (accepted: bool)
      modifies this
      ensures accepted <==> !old(reloadQueued) && !old(shuttingDown)
      ensures State() == if accepted then Enqueued(ReloadMarked(old(State())), Reload) else old(State())
      ensures Jobs() == old(Jobs())
    {
      accepted := MarkReload();
      if accepted {
        var _ := Enqueue(Reload);
      }
    }

    method RequestStopLocalIndexing()
      modifies this
      ensures State() == Enqueued(ScansCancelled(old(State())), Other) && Jobs() == old(Jobs())
      ensures cancelled == old(cancelled) + Elements(old(scanCancels)) && scanCancels == []
    {
      CancelScans();
      var _ := Enqueue(Other);
    }

    method EnqueueFileJob(job: FileJob) returns (accepted: bool)
      modifies this`fileOpJobs
      ensures Jobs() == JobQueued(old(Jobs()), job) && accepted == !fileOpsStopping
      ensures fileOpJobs == old(fileOpJobs) + if accepted then [job] else []
    {
      if fileOpsStopping {
        return false;
      }
      fileOpJobs := fileOpJobs + [job];
      return true;
    }

    /** The wait and pop of FileOperationsLoop. */
    method NextForFiles() returns (next: Next<FileJob>)
      modifies this`fileOpJobs
      ensures next == NextJob(old(Jobs()))
      ensures Jobs() == if next.Run? then FileQueue(old(fileOpJobs)[1..], fileOpsStopping) else old(Jobs())
      ensures next.Run? <==> old(fileOpJobs) != []
      ensures next.Run? ==> [next.item] + fileOpJobs == old(fileOpJobs)
      ensures next.Leave? <==> old(fileOpJobs) == [] && fileOpsStopping
    {
      if fileOpJobs == [] {
        return if fileOpsStopping then Leave else Wait;
      }
      next := Run(fileOpJobs[0]);
      fileOpJobs := fileOpJobs[1..];
    }
  }

  /** What is left of n copies when m of them are taken away, one at a time. */
  function LeftOver(n: nat, m: nat): nat {
    if m <= n then n - m else 0
  }

  /** Each removal takes one copy of its path, if there is one, and no other path's. */
  lemma {:induction false} DropEachCopies(s: seq<Path>, removed: seq<Path>, n: nat, p: Path)
    requires n <= |removed|
    ensures Copies(DropEach(s, removed, n), p) == LeftOver(Copies(s, p), Copies(removed[..n], p))
  {
    if n > 0 {
      var before := DropEach(s, removed, n - 1);
      DropEachCopies(s, removed, n - 1, p);
      assert removed[..n] == removed[..n - 1] + [removed[n - 1]];
      DropFirstCopies(before, removed[n - 1], p);
    }
  }

  lemma {:induction false} DropFirstCopies(s: seq<Path>, path: Path, p: Path)
    ensures Copies(DropFirst(s, path), p) == LeftOver(Copies(s, p), if p == path then 1 else 0)
  {
    if s != [] {
      assert s == [s[0]] + s[1..];
      if s[0] != path {
        DropFirstCopies(s[1..], path, p);
      }
    }
  }

  lemma DropEachAll(s: seq<Path>, removed: seq<Path>)
    ensures forall p :: Copies(DropEach(s, removed, |removed|), p) == LeftOver(Copies(s, p), Copies(removed, p))
  {
    assert removed[..|removed|] == removed;
    forall p
      ensures Copies(DropEach(s, removed, |removed|), p) == LeftOver(Copies(s, p), Copies(removed, p))
    {
      DropEachCopies(s, removed, |removed|, p);
    }
  }

  /** From a duplicate-free list exactly the removed paths go. */
  lemma DropEachUnique(s: seq<Path>, removed: seq<Path>)
    ensures NoDuplicates(s) ==>
      && NoDuplicates(DropEach(s, removed, |removed|))
      && forall p :: p in DropEach(s, removed, |removed|) <==> p in s && p !in removed
  {
    var left := DropEach(s, removed, |removed|);
    DropEachAll(s, removed);
    hide DropEach;
    if NoDuplicates(s) {
      forall p ensures Copies(left, p) <= 1 && (p in left <==> p in s && p !in removed) {
        UniqueCopies(s, p);
        InMultiset(left, p);
        InMultiset(s, p);
        InMultiset(removed, p);
      }
      CopiesUnique(left);
    }
  }

  lemma {:induction false} UniqueCopies(s: seq<Path>, p: Path)
    requires NoDuplicates(s)
    ensures Copies(s, p) <= 1
  {
    if s != [] {
      assert s == [s[0]] + s[1..];
      UniqueCopies(s[1..], p);
      InMultiset(s[1..], p);
    }
  }

  lemma CopiesUnique(s: seq<Path>)
    requires forall p :: Copies(s, p) <= 1
    ensures NoDuplicates(s)
  {
    forall i, j | 0 <= i < j < |s| ensures s[i] != s[j] {
      assert s == (s[..j] + [s[j]]) + s[j + 1..];
      assert s[i] in s[..j];
      InMultiset(s[..j], s[i]);
      assert Copies(s, s[j]) >= Copies(s[..j], s[j]) + 1;
    }
  }

  /** ApplyRemove for the first n of a list of paths. */
  function DropEach(s: seq<Path>, removed: seq<Path>, n: nat): seq<Path>
    requires n <= |removed|
  {
    if n == 0 then s else DropFirst(DropEach(s, removed, n - 1), removed[n - 1])
  }
}
